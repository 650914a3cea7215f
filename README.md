# attachant, modelled in Dafny

attachant is a small command-line tool and library that loads Java agents
into running local JVMs through the HotSpot attach API. Its `Agents` class
works in a fixed order:

- it warns, without stopping, when the running VM is not HotSpot;
- it checks that an agent jar names an `Agent-Class` whose class has an
  `agentmain` method;
- it attaches to the target process, optionally reads its system
  properties, loads an agent (a given jar, the jar defining a class, or the
  JDK's remote management agent with JMX options), and detaches in a
  `finally` block.

Its `Main` class turns an argument vector `id command [arguments] [options]`
into one of these operations, into a usage exit, or into an "Unknown
command" error.

The model has four modules:

- `Wrappers`: the `Option` type, standing for Guava's `Optional` and for
  nullable strings.
- `Text`: the Java library calls the tool relies on. These are
  `String.contains`, `Integer.toString`/`Integer.valueOf` and
  `Boolean.toString`/`Boolean.valueOf`. The module also has a separator-split
  function, used only to state what a composed string contains.
- `Agents`: `Agents.java`.
  - The attach facility is the class `AttachFacility`. Each of its
    operations records an event in `trace` and fails as its environment
    `env` says.
  - The tool's own JVM is the class `Host`. It holds the VM name,
    `File.separator`, what the file system and class loader report for each
    path, the `Agents` class, and standard error.
  - The jar check is a pure decision over a `Bundle` record.
  - The facility calls and the outcome of each operation are specified by
    the functions `LoadRun`, `LoadSelfRun` and `RemoteRun`.
  - The methods `Load`, `LoadSelf` and `LoadRemoteManagement` are proved to
    append exactly those events to the trace, to return exactly that
    outcome, and to print exactly the platform warnings.
- `CommandLine`: `Main.java`. `Dispatch` is the pure argument decision and
  `Execute` is `main`.

Where the code and its informal description differ, the model follows the
code:

- The option keys are the full `com.sun.management.jmxremote.port`,
  `...authenticate` and `...ssl` names.
- Arguments are only null-checked, never checked for emptiness, so an empty
  path or id goes through.
- A missing `java.home` is not an error. Java's string concatenation turns
  the missing value into `null`, so the model builds the path
  `null<sep>lib<sep>management-agent.jar`.
- The class loader that validates an agent jar delegates to its parent
  first. A class is therefore "loadable" when that loader resolves it, not
  only when the jar itself contains it.
- `loadSelf` runs the platform check itself and again inside `load`, so an
  unsupported platform is warned about twice.
- In a `try`/`finally`, a failing detach throws from the `finally` block.
  That exception replaces the load or property failure.

## Model

| member | source | states |
|---|---|---|
| Text.Contains | src/main/java/com/github/jeluard/attachant/Agents.java:46 | `contains` is true exactly when some index of the string starts an occurrence of the searched text |
| Text.IntToString | src/main/java/com/github/jeluard/attachant/Agents.java:202 | `Integer.toString(port)` uses only digits and a minus sign, and `Integer.valueOf` reads it back to the same int |
| Text.ParseInt | src/main/java/com/github/jeluard/attachant/Main.java:72 | `Integer.valueOf` accepts exactly an optional `+` or `-` followed by at least one digit whose value fits the 32-bit range (down to -2^31 with `-`); unsigned and `+` text denote the digits' decimal value, `-` text its negation; anything else is a number-format failure |
| Text.BoolToString | src/main/java/com/github/jeluard/attachant/Agents.java:202 | `Boolean.toString(b)` reads back as `b` with `Boolean.valueOf`, and ends in `e` (never in a comma) |
| Text.ParseBool | src/main/java/com/github/jeluard/attachant/Main.java:73-74 | `Boolean.valueOf` is true exactly on four-letter text spelling t, r, u, e in either case, and false on everything else |
| Text.SplitJoin | src/main/java/com/github/jeluard/attachant/Agents.java:201-205 | joining two strings with a separator concatenates their pieces, the reading-back rule for the composed path and options |
| Agents.IsPlatformSupported | src/main/java/com/github/jeluard/attachant/Agents.java:45-47 | the platform is supported exactly when the VM name contains `HotSpot` |
| Agents.PlatformWarnings | src/main/java/com/github/jeluard/attachant/Agents.java:49-53 | the platform check prints at most one line, the fixed warning, and prints it exactly when `HotSpot` does not occur in the VM name |
| Agents.AgentClassName | src/main/java/com/github/jeluard/attachant/Agents.java:63-67 | an agent class name is found exactly when the manifest exists and has the `Agent-Class` attribute, and it is that attribute's value |
| Agents.ValidateJar | src/main/java/com/github/jeluard/attachant/Agents.java:55-84 | the checks run in source order: file exists, jar opens, `Agent-Class` present, class loads, then `agentmain(String, Instrumentation)` before `agentmain(String)`; the first failing check decides the error; a jar is accepted exactly when all checks hold |
| Agents.AttachFacility.AttachTo | src/main/java/com/github/jeluard/attachant/Agents.java:94-101 | attach records `Attach(id)` and succeeds exactly when the target exists and attach does not fail; the handle is held only on success |
| Agents.AttachFacility.SystemProperties | src/main/java/com/github/jeluard/attachant/Agents.java:112-119 | records the query and returns the attached target's properties unless the call fails |
| Agents.AttachFacility.Load | src/main/java/com/github/jeluard/attachant/Agents.java:103-110 | records the one-argument `loadAgent(path)` and reports whether it succeeded |
| Agents.AttachFacility.LoadWithOptions | src/main/java/com/github/jeluard/attachant/Agents.java:121-128 | records the two-argument `loadAgent(path, options)` and reports whether it succeeded |
| Agents.AttachFacility.DetachFrom | src/main/java/com/github/jeluard/attachant/Agents.java:130-137 | records `Detach` and always releases the handle, even when detach throws |
| Agents.SessionDiscipline | src/main/java/com/github/jeluard/attachant/Agents.java:172-181 | attach comes first and once; if it succeeds, detach happens exactly once as the last call, and the inner calls happen only inside the session; a failing detach replaces the inner outcome |
| Agents.LoadStep | src/main/java/com/github/jeluard/attachant/Agents.java:174-178 | `load` issues one call: the two-argument `loadAgent` exactly when options are present, otherwise the one-argument one, never both |
| Agents.LoadRun | src/main/java/com/github/jeluard/attachant/Agents.java:166-182 | a rejected jar issues no facility call at all and fails with the validator's error; a valid jar leads to attach first, then the load overload the options select, and detach exactly once and last when attached; a failed attach gives `AttachFailed`, a failed detach `DetachFailed` whatever the load did, a failed load with a successful detach `LoadFailed`; success exactly when validation, attach, load and detach all succeed |
| Agents.LoadSelfRun | src/main/java/com/github/jeluard/attachant/Agents.java:149-154 | `loadSelf` runs `load` on the jar that defines the class; a class without a code source fails before any call |
| Agents.ManagementAgentPathOfProperties | src/main/java/com/github/jeluard/attachant/Agents.java:200-201 | the management agent path built from the target's properties, split at the separator, is the `java.home` components, or the single component `null` when that property is missing (no separate error), followed by `lib` and `management-agent.jar` |
| Agents.ManagementAgentPathComponents | src/main/java/com/github/jeluard/attachant/Agents.java:200-201 | the management agent path, split at the separator, is the home directory's components followed by `lib` and `management-agent.jar` |
| Agents.RemoteOptionsFields | src/main/java/com/github/jeluard/attachant/Agents.java:202-205 | read back by commas, the options are the `com.sun.management.jmxremote.port`, `...authenticate` and `...ssl` settings followed by the caller's settings; without caller options there is no trailing comma; with them, the caller's text follows one comma verbatim |
| Agents.RemoteProtocol | src/main/java/com/github/jeluard/attachant/Agents.java:194-210 | `loadRemoteManagement` attaches first; on success it reads the properties, uses only the two-argument load, and detaches exactly once as the last call, even when the properties query or the load fails; the trace is exactly attach, query, load of the management agent with the built options, detach; a failed attach gives `AttachFailed`, a failed detach `DetachFailed`, otherwise a failed query `PropertiesFailed` and a failed load `LoadFailed`; success exactly when all calls succeed |
| Agents.EnsurePlatformSupported | src/main/java/com/github/jeluard/attachant/Agents.java:49-53 | appends the platform warnings to standard error and changes nothing else |
| Agents.Load | src/main/java/com/github/jeluard/attachant/Agents.java:166-182 | the facility trace grows by exactly `LoadRun`'s events, the outcome is `LoadRun`'s, one platform check's warnings are printed, and the handle is released |
| Agents.LoadAgentStep | src/main/java/com/github/jeluard/attachant/Agents.java:173-178 | the `try` block of `load` issues exactly `LoadStep`'s call and returns its outcome |
| Agents.LoadSelf | src/main/java/com/github/jeluard/attachant/Agents.java:149-154 | trace and outcome are `LoadSelfRun`'s; the platform warning is printed once more when `load` is reached |
| Agents.BuildOptions | src/main/java/com/github/jeluard/attachant/Agents.java:202-205 | the `StringBuilder` appends produce exactly the options string whose fields `RemoteOptionsFields` describes |
| Agents.StartManagementAgent | src/main/java/com/github/jeluard/attachant/Agents.java:199-206 | the `try` block of `loadRemoteManagement` issues exactly `RemoteStep`'s calls and returns its outcome |
| Agents.LoadRemoteManagement | src/main/java/com/github/jeluard/attachant/Agents.java:194-210 | the facility trace grows by exactly `RemoteRun`'s events, the outcome is `RemoteRun`'s, and the handle is released |
| CommandLine.ExtractOptions | src/main/java/com/github/jeluard/attachant/Main.java:45-51 | options are present exactly when the argument vector is longer than the index, and are then the argument at that index |
| CommandLine.ExtractOptionsIgnoresRest | src/main/java/com/github/jeluard/attachant/Main.java:45-51 | arguments beyond the options index do not change the options |
| CommandLine.Dispatch | src/main/java/com/github/jeluard/attachant/Main.java:25-79 | fewer than two arguments give usage with minimum 2; `load` needs 3 arguments and binds id, path and options from positions 0, 2 and 3; `load-self` binds id and the options at position 2; `load-remote-management` needs 5 arguments and reads port, authenticate, ssl and options from positions 2 to 5; a port that does not parse is a number-format failure; any other command name, matched case-sensitively, is unknown; usage carries the missed minimum |
| CommandLine.DispatchCommandLine | src/main/java/com/github/jeluard/attachant/Main.java:53-79 | every agent command is recovered from its canonical argument vector |
| CommandLine.TrailingArgumentsIgnored | src/main/java/com/github/jeluard/attachant/Main.java:45-79 | arguments after the last position a command reads do not change the decision |
| CommandLine.CommandRun | src/main/java/com/github/jeluard/attachant/Main.java:53-79 | usage, unknown commands and unparsable ports reach no `Agents` operation; `load` runs `Agents.load` on the parsed path, id and options; `load-self` always passes the `Agents` class; `load-remote-management` passes the parsed id, port, flags and options |
| CommandLine.CommandWarnings | src/main/java/com/github/jeluard/attachant/Main.java:53-79 | only commands that reach an `Agents` operation print the platform warning, and they print it exactly on an unsupported platform: once, and twice for `load-self` when `Agents` has a code source |
| CommandLine.ExitOf | src/main/java/com/github/jeluard/attachant/Main.java:25-79 | usage exits with status 0; an unknown command crashes with that command's name; an unparsable port crashes with a number-format failure naming the text; an agent command exits with 0 exactly when its operation succeeds and otherwise crashes with the operation's failure |
| CommandLine.Execute | src/main/java/com/github/jeluard/attachant/Main.java:53-79 | `main` issues exactly the facility calls of the dispatched command, prints its warnings, and ends as `ExitOf` says |

## Left out

- Reflection on `com.sun.tools.attach.VirtualMachine` (`Class.forName`,
  `getMethod`, `invoke`) and the wrapping of its exceptions into
  `RuntimeException`. The facility is the `AttachFacility` class, and a
  failure is named by the call that failed.
- Facility failures are fixed per kind of call by the environment's
  `failing` set. A facility whose answers change over time, or between two
  calls of the same kind, is not modelled.
- Jar and manifest I/O and the `URLClassLoader` are not modelled. The
  `Bundle` record gives their answers: file exists, jar opens, manifest
  attributes, `agentmain` overloads of each resolvable class. The close of
  the jar file in the `finally` block is not an event.
- A missing manifest (a null dereference in the source) and a missing
  `Agent-Class` value are both reported as `MissingAgentClass`.
- Agents.AgentClassName: `Attributes.getValue` matches attribute names
  ignoring case, so a manifest line `agent-class: X` is found. The model
  assumes `mainAttributes` is keyed by the canonical name `Agent-Class`,
  and does not fold case in the lookup.
- An `IOException` while opening the jar is the extra error kind
  `Unreadable`.
- `getMethod` finds public methods, static or not. The model does not
  track whether `agentmain` is static.
- `System.getProperty("java.vm.name")`, `File.separator` and the code
  source of the `Agents` class come from the environment. They are fields
  of `Host`.
- `URL.getFile` does not percent-decode. The location of a class is taken
  as `getFile` returns it, still percent-encoded, so a jar under a
  directory whose name has a space is looked up at a path with `%20` in it.
  The model does not build that string; `LoadedClass.location` is given.
- Usage text and `System.out` printing are not modelled.
  `System.exit(0)` is the `Usage` command with `Exited(0)`.
- An exception escaping `main` is `Crashed(reason)`. The exception message
  itself is not modelled.
- `Preconditions.checkNotNull` calls on the arguments are not modelled:
  Dafny strings are never null. The nulls the source can meet from its
  environment each have their own model: a class without a code source is
  `SelfLocationUnknown`, a missing manifest or `Agent-Class` value is
  `MissingAgentClass`, and a missing `java.home` is the text `null`.
- Text.ParseInt: only ASCII digits are modelled, though `Integer.valueOf`
  also accepts other Unicode decimal digits.
- Text.ParseBool: case is folded for ASCII letters only. This decides
  exactly the same strings as `equalsIgnoreCase("true")`.
- Concurrency: none in the source.
