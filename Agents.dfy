/** The attachment protocol of `Agents`: an advisory platform check, the
    agent-jar validator, and the three operations `load`, `loadSelf` and
    `loadRemoteManagement`, which drive the HotSpot attach facility through
    attach, optional property query, agent load and detach. */
module Agents {
  import opened Wrappers
  import opened Text

  // ===========================================================================
  // Platform check
  // ===========================================================================

  const PlatformWarning := "Attachant only supports HotSpot platform."

  /** `isPlatformSupported`: the running VM's name mentions HotSpot. */
  function IsPlatformSupported(vmName: string): (r: bool)
    ensures r <==> exists i :: OccursAt(vmName, "HotSpot", i)
  {
    Contains(vmName, "HotSpot")
  }

  /** What `ensurePlatformSupported` prints on standard error: one warning line
      on an unsupported platform, nothing otherwise. It never stops anything. */
  function PlatformWarnings(vmName: string): (r: seq<string>)
    ensures |r| <= 1
    ensures r == [] <==> exists i :: OccursAt(vmName, "HotSpot", i)
    ensures r != [] ==> r[0] == PlatformWarning
  {
    if IsPlatformSupported(vmName) then [] else [PlatformWarning]
  }

  // ===========================================================================
  // Agent jar validation
  // ===========================================================================

  const AgentClassAttribute := "Agent-Class"

  /** Which public `agentmain` overloads `Class.getMethod` finds on a class. */
  datatype AgentClass = AgentClass(withInstrumentation: bool, stringOnly: bool)

  /** What the file system and the class loader say about the file at an agent
      path: whether it exists (`present`), whether it opens as a jar, the main attributes
      of its manifest (`None` when it has no manifest), and the classes the
      validator's `URLClassLoader` resolves by name. */
  datatype Bundle = Bundle(
    present: bool,
    openable: bool,
    mainAttributes: Option<map<string, string>>,
    classes: map<string, AgentClass>)

  /** The `agentmain` signature a valid agent class offers (the two-argument
      one is looked up first). */
  datatype InitSignature = WithInstrumentation | StringOnly

  /** Why `ensureIsCorrectAgentJar` rejects a jar, in the order it checks. */
  datatype BundleError =
    | AgentNotFound(path: string)        // IllegalArgumentException "Cannot find agent at <path>"
    | Unreadable(path: string)           // IOException from opening the jar
    | MissingAgentClass                  // null dereference: no manifest, or no Agent-Class value
    | ClassNotLoadable(className: string)  // IllegalArgumentException "Cannot load class <name>"
    | NoAgentmain(className: string)       // IllegalArgumentException "Cannot find agentmain method in <name>"

  datatype Validation = Valid(signature: InitSignature) | Invalid(error: BundleError)

  /** The `Agent-Class` value of the jar's manifest, when there is one. */
  function AgentClassName(jar: Bundle): (r: Option<string>)
    ensures r.Some? <==> jar.mainAttributes.Some? && AgentClassAttribute in jar.mainAttributes.value
    ensures r.Some? ==> r.value == jar.mainAttributes.value[AgentClassAttribute]
  {
    match jar.mainAttributes
    case None => None
    case Some(attributes) =>
      if AgentClassAttribute in attributes then Some(attributes[AgentClassAttribute]) else None
  }

  /** `ensureIsCorrectAgentJar`: the checks in source order, each one reached
      only when all earlier ones hold. */
  function ValidateJar(path: string, jar: Bundle): (r: Validation)
    // 1. the file exists
    ensures !jar.present ==> r == Invalid(AgentNotFound(path))
    // the jar can be opened and read
    ensures jar.present && !jar.openable ==> r == Invalid(Unreadable(path))
    // 2. the manifest names an agent class
    ensures jar.present && jar.openable && AgentClassName(jar).None? ==> r == Invalid(MissingAgentClass)
    // 3. the class loads
    ensures jar.present && jar.openable && AgentClassName(jar).Some? ==>
              var name := AgentClassName(jar).value;
              (name !in jar.classes ==> r == Invalid(ClassNotLoadable(name))) &&
              // 4. agentmain(String, Instrumentation), else agentmain(String)
              (name in jar.classes ==>
                 r == (if jar.classes[name].withInstrumentation then Valid(WithInstrumentation)
                       else if jar.classes[name].stringOnly then Valid(StringOnly)
                       else Invalid(NoAgentmain(name))))
    // a jar is accepted exactly when all checks pass
    ensures r.Valid? <==>
              jar.present && jar.openable && AgentClassName(jar).Some? &&
              AgentClassName(jar).value in jar.classes &&
              (jar.classes[AgentClassName(jar).value].withInstrumentation ||
               jar.classes[AgentClassName(jar).value].stringOnly)
  {
    if !jar.present then Invalid(AgentNotFound(path))
    else if !jar.openable then Invalid(Unreadable(path))
    else match AgentClassName(jar)
      case None => Invalid(MissingAgentClass)
      case Some(name) =>
        if name !in jar.classes then Invalid(ClassNotLoadable(name))
        else if jar.classes[name].withInstrumentation then Valid(WithInstrumentation)
        else if jar.classes[name].stringOnly then Valid(StringOnly)
        else Invalid(NoAgentmain(name))
  }

  // ===========================================================================
  // The attach facility (com.sun.tools.attach.VirtualMachine, reached by reflection)
  // ===========================================================================

  /** The facility calls that may throw. */
  datatype Call = AttachCall | PropertiesCall | LoadCall | DetachCall

  /** How the facility answers: the processes it can attach to, with their
      system properties, and the calls that fail in this environment. */
  datatype Env = Env(targets: map<string, map<string, string>>, failing: set<Call>)

  predicate CanAttach(env: Env, id: string)
  {
    id in env.targets && AttachCall !in env.failing
  }

  function PropertiesOf(env: Env, id: string): map<string, string>
  {
    if id in env.targets then env.targets[id] else map[]
  }

  /** A call issued to the facility, whether or not it then failed. */
  datatype Event =
    | Attach(id: string)
    | GetSystemProperties
    | LoadAgent(path: string)
    | LoadAgentWithOptions(path: string, options: string)
    | Detach

  datatype Kind = AttachKind | PropertiesKind | PlainLoadKind | OptionsLoadKind | DetachKind

  function KindOf(e: Event): Kind
  {
    match e
    case Attach(_) => AttachKind
    case GetSystemProperties => PropertiesKind
    case LoadAgent(_) => PlainLoadKind
    case LoadAgentWithOptions(_, _) => OptionsLoadKind
    case Detach => DetachKind
  }

  /** How many events of kind `k` a trace holds. */
  function Count(s: seq<Event>, k: Kind): nat
    decreases |s|
  {
    if s == [] then 0 else (if KindOf(s[0]) == k then 1 else 0) + Count(s[1..], k)
  }

  lemma {:induction false} CountConcat(a: seq<Event>, b: seq<Event>, k: Kind)
    ensures Count(a + b, k) == Count(a, k) + Count(b, k)
    decreases |a|
  {
    if a == [] {
      assert a + b == b;
    } else {
      assert (a + b)[0] == a[0];
      assert (a + b)[1..] == a[1..] + b;
      CountConcat(a[1..], b, k);
    }
  }

  lemma CountOne(e: Event, k: Kind)
    ensures Count([e], k) == if KindOf(e) == k then 1 else 0
  {
    assert [e][1..] == [];
  }

  /** The facility object: what it answers is fixed by `env`; `trace` records
      every call issued to it and `attached` the process it is attached to. */
  class AttachFacility {
    const env: Env
    var trace: seq<Event>
    var attached: Option<string>

    constructor (env: Env)
      ensures this.env == env && trace == [] && attached == None
    {
      this.env := env;
      trace := [];
      attached := None;
    }

    /** `VirtualMachine.attach(id)`. */
    method AttachTo(id: string) returns (ok: bool)
      requires attached == None
      modifies this
      ensures ok == CanAttach(env, id)
      ensures trace == old(trace) + [Attach(id)]
      ensures attached == if ok then Some(id) else None
    {
      ok := CanAttach(env, id);
      trace := trace + [Attach(id)];
      if ok {
        attached := Some(id);
      }
    }

    /** `virtualMachine.getSystemProperties()`: the target's properties. */
    method SystemProperties() returns (props: Option<map<string, string>>)
      requires attached.Some?
      modifies this`trace
      ensures trace == old(trace) + [GetSystemProperties]
      ensures props == if PropertiesCall in env.failing then None else Some(PropertiesOf(env, attached.value))
    {
      trace := trace + [GetSystemProperties];
      props := if PropertiesCall in env.failing then None else Some(PropertiesOf(env, attached.value));
    }

    /** `virtualMachine.loadAgent(path)`. */
    method Load(path: string) returns (ok: bool)
      requires attached.Some?
      modifies this`trace
      ensures trace == old(trace) + [LoadAgent(path)]
      ensures ok == (LoadCall !in env.failing)
    {
      trace := trace + [LoadAgent(path)];
      ok := LoadCall !in env.failing;
    }

    /** `virtualMachine.loadAgent(path, options)`. */
    method LoadWithOptions(path: string, options: string) returns (ok: bool)
      requires attached.Some?
      modifies this`trace
      ensures trace == old(trace) + [LoadAgentWithOptions(path, options)]
      ensures ok == (LoadCall !in env.failing)
    {
      trace := trace + [LoadAgentWithOptions(path, options)];
      ok := LoadCall !in env.failing;
    }

    /** `virtualMachine.detach()`; the handle is released even when it throws. */
    method DetachFrom() returns (ok: bool)
      requires attached.Some?
      modifies this
      ensures trace == old(trace) + [Detach]
      ensures attached == None
      ensures ok == (DetachCall !in env.failing)
    {
      trace := trace + [Detach];
      attached := None;
      ok := DetachCall !in env.failing;
    }
  }

  // ===========================================================================
  // The tool's own JVM
  // ===========================================================================

  /** Where a class was loaded from: the file part of its code source URL,
      `None` when the class has no code source. */
  datatype LoadedClass = LoadedClass(location: Option<string>)

  /** The JVM the tool runs in: its `java.vm.name`, `File.separator`, what its
      file system holds at each path, the `Agents` class as loaded here, and
      what has been printed on standard error. */
  class Host {
    const vmName: string
    const separator: string
    const files: string -> Bundle
    const agentsClass: LoadedClass
    var stderr: seq<string>

    constructor (vmName: string, separator: string, files: string -> Bundle, agentsClass: LoadedClass)
      ensures this.vmName == vmName && this.separator == separator
      ensures this.files == files && this.agentsClass == agentsClass
      ensures stderr == []
    {
      this.vmName := vmName;
      this.separator := separator;
      this.files := files;
      this.agentsClass := agentsClass;
      stderr := [];
    }
  }

  // ===========================================================================
  // Protocol: what each operation issues and how it ends
  // ===========================================================================

  datatype Failure =
    | InvalidBundle(error: BundleError)
    | SelfLocationUnknown   // null dereference: the class has no code source
    | AttachFailed
    | PropertiesFailed
    | LoadFailed
    | DetachFailed

  datatype Outcome = Done | Failed(failure: Failure)

  /** The facility calls an operation issues, and its outcome. */
  datatype Run = Run(events: seq<Event>, result: Outcome)

  /** attach, then `inner`, then detach in a `finally`: an exception from
      detach replaces the one from `inner`. */
  function Session(env: Env, id: string, inner: Run): Run
  {
    if !CanAttach(env, id) then
      Run([Attach(id)], Failed(AttachFailed))
    else
      Run([Attach(id)] + inner.events + [Detach],
          if DetachCall in env.failing then Failed(DetachFailed) else inner.result)
  }

  /** The acquire/release discipline of a session whose inner steps neither
      attach nor detach: one attach, first; once it succeeds, exactly one
      detach, last; the inner calls only when attached. */
  lemma SessionDiscipline(env: Env, id: string, inner: Run)
    requires Count(inner.events, AttachKind) == 0 && Count(inner.events, DetachKind) == 0
    ensures var r := Session(env, id, inner);
            |r.events| > 0 && r.events[0] == Attach(id) &&
            Count(r.events, AttachKind) == 1 &&
            Count(r.events, DetachKind) == (if CanAttach(env, id) then 1 else 0) &&
            (CanAttach(env, id) ==> r.events[|r.events| - 1] == Detach) &&
            (CanAttach(env, id) ==> r.events == [Attach(id)] + inner.events + [Detach])
    ensures var r := Session(env, id, inner);
            forall k :: k != AttachKind && k != DetachKind ==>
              Count(r.events, k) == if CanAttach(env, id) then Count(inner.events, k) else 0
    ensures Session(env, id, inner).result ==
              if !CanAttach(env, id) then Failed(AttachFailed)
              else if DetachCall in env.failing then Failed(DetachFailed)
              else inner.result
  {
    if CanAttach(env, id) {
      CountsOfSession(id, inner.events);
    }
  }

  lemma CountsOfSession(id: string, inner: seq<Event>)
    ensures forall k :: Count([Attach(id)] + inner + [Detach], k) ==
              (if k == AttachKind then 1 else 0) + Count(inner, k) + (if k == DetachKind then 1 else 0)
  {
    forall k
      ensures Count([Attach(id)] + inner + [Detach], k) ==
                (if k == AttachKind then 1 else 0) + Count(inner, k) + (if k == DetachKind then 1 else 0)
    {
      CountConcat([Attach(id)] + inner, [Detach], k);
      CountConcat([Attach(id)], inner, k);
    }
  }

  /** The load step of `load`: the two-argument `loadAgent` exactly when
      options are present. */
  function LoadStep(env: Env, path: string, options: Option<string>): (r: Run)
    ensures |r.events| == 1
    ensures Count(r.events, AttachKind) == 0 && Count(r.events, DetachKind) == 0
    ensures Count(r.events, PropertiesKind) == 0
    ensures Count(r.events, PlainLoadKind) == (if options.None? then 1 else 0)
    ensures Count(r.events, OptionsLoadKind) == (if options.Some? then 1 else 0)
    ensures options.Some? ==> r.events[0] == LoadAgentWithOptions(path, options.value)
    ensures options.None? ==> r.events[0] == LoadAgent(path)
    ensures r.result == if LoadCall in env.failing then Failed(LoadFailed) else Done
  {
    var event := if options.Some? then LoadAgentWithOptions(path, options.value) else LoadAgent(path);
    assert [event][1..] == [];
    Run([event], if LoadCall in env.failing then Failed(LoadFailed) else Done)
  }

  /** `load(agentJarPath, id, options)`. */
  function LoadRun(env: Env, jar: Bundle, path: string, id: string, options: Option<string>): (r: Run)
    // validation strictly precedes attach: a rejected jar issues no call at all
    ensures ValidateJar(path, jar).Invalid? ==>
              r.events == [] && r.result == Failed(InvalidBundle(ValidateJar(path, jar).error))
    ensures ValidateJar(path, jar).Valid? ==> |r.events| > 0 && r.events[0] == Attach(id)
    ensures Count(r.events, AttachKind) == if ValidateJar(path, jar).Valid? then 1 else 0
    // once attach succeeds, detach is issued exactly once, as the last call
    ensures var attached := ValidateJar(path, jar).Valid? && CanAttach(env, id);
            Count(r.events, DetachKind) == (if attached then 1 else 0) &&
            (attached ==> r.events[|r.events| - 1] == Detach) &&
            // one load, of the overload the options select, and never the other
            Count(r.events, PlainLoadKind) == (if attached && options.None? then 1 else 0) &&
            Count(r.events, OptionsLoadKind) == (if attached && options.Some? then 1 else 0) &&
            Count(r.events, PropertiesKind) == 0
    ensures var attached := ValidateJar(path, jar).Valid? && CanAttach(env, id);
            attached ==> r.events[1] == (if options.Some? then LoadAgentWithOptions(path, options.value)
                                         else LoadAgent(path))
    // success only when attach, load and detach all succeed
    ensures r.result == Done <==>
              ValidateJar(path, jar).Valid? && CanAttach(env, id) &&
              LoadCall !in env.failing && DetachCall !in env.failing
    // which failure a rejected attach, load or detach gives
    ensures ValidateJar(path, jar).Valid? && !CanAttach(env, id) ==> r.result == Failed(AttachFailed)
    ensures ValidateJar(path, jar).Valid? && CanAttach(env, id) && DetachCall in env.failing ==>
              r.result == Failed(DetachFailed)
    ensures (ValidateJar(path, jar).Valid? && CanAttach(env, id) && DetachCall !in env.failing &&
             LoadCall in env.failing) ==> r.result == Failed(LoadFailed)
  {
    match ValidateJar(path, jar)
    case Invalid(e) => Run([], Failed(InvalidBundle(e)))
    case Valid(_) =>
      var step := LoadStep(env, path, options);
      SessionDiscipline(env, id, step);
      Session(env, id, step)
  }

  /** `loadSelf(clazz, id, options)`: `load` of the jar that defines `clazz`. */
  function LoadSelfRun(env: Env, files: string -> Bundle, clazz: LoadedClass, id: string, options: Option<string>): (r: Run)
    ensures clazz.location.None? ==> r == Run([], Failed(SelfLocationUnknown))
    ensures clazz.location.Some? ==>
              var path := clazz.location.value;
              r == LoadRun(env, files(path), path, id, options)
  {
    match clazz.location
    case None => Run([], Failed(SelfLocationUnknown))
    case Some(path) => LoadRun(env, files(path), path, id, options)
  }

  // ===========================================================================
  // Remote management
  // ===========================================================================

  const JavaHomeProperty := "java.home"
  const PortKey := "com.sun.management.jmxremote.port"
  const AuthenticateKey := "com.sun.management.jmxremote.authenticate"
  const SslKey := "com.sun.management.jmxremote.ssl"

  /** `getProperty("java.home")` pasted into a string: Java's string
      concatenation renders a missing property as "null". */
  function JavaHome(props: map<string, string>): (r: string)
    ensures JavaHomeProperty in props ==> r == props[JavaHomeProperty]
    ensures JavaHomeProperty !in props ==> r == "null"
  {
    if JavaHomeProperty in props then props[JavaHomeProperty] else "null"
  }

  /** The management agent shipped with the target's runtime. */
  function ManagementAgentPath(home: string, separator: string): string
  {
    home + separator + "lib" + separator + "management-agent.jar"
  }

  /** With a one-character separator that the fixed names do not contain, the
      path is the home directory's components followed by `lib` and the jar. */
  lemma ManagementAgentPathComponents(home: string, separator: string)
    requires |separator| == 1
    requires separator[0] !in "lib" && separator[0] !in "management-agent.jar"
    ensures Split(ManagementAgentPath(home, separator), separator[0]) ==
              Split(home, separator[0]) + ["lib", "management-agent.jar"]
  {
    var c := separator[0];
    assert ManagementAgentPath(home, separator) == home + [c] + "lib" + [c] + "management-agent.jar" by {
      assert separator == [c];
    }
    SplitTwoMore(home, "lib", "management-agent.jar", c);
  }

  lemma SplitTwoMore(head: string, x: string, y: string, c: char)
    requires c !in x && c !in y
    ensures Split(head + [c] + x + [c] + y, c) == Split(head, c) + [x, y]
  {
    assert Split(x + [c] + y, c) == [x, y] by {
      SplitJoin(x, y, c);
      SplitWithout(x, c);
      SplitWithout(y, c);
    }
    SplitJoin(head, x + [c] + y, c);
    assert head + [c] + x + [c] + y == head + [c] + (x + [c] + y);
  }

  /** The path `loadRemoteManagement` builds from the target's properties,
      split at a one-character separator: the `java.home` components, or the
      single component `null` when the property is missing, then `lib` and
      the jar name. A missing property is no error of its own. */
  lemma ManagementAgentPathOfProperties(props: map<string, string>, separator: string)
    requires |separator| == 1
    requires separator[0] !in "lib" && separator[0] !in "management-agent.jar" && separator[0] !in "null"
    ensures Split(ManagementAgentPath(JavaHome(props), separator), separator[0]) ==
              (if JavaHomeProperty in props then Split(props[JavaHomeProperty], separator[0]) else ["null"])
              + ["lib", "management-agent.jar"]
  {
    ManagementAgentPathComponents(JavaHome(props), separator);
    if JavaHomeProperty !in props {
      SplitWithout("null", separator[0]);
    }
  }

  /** One `key=value` setting. */
  function Setting(key: string, value: string): string
  {
    key + "=" + value
  }

  /** The three settings of the remote management agent, joined by commas:
      `com.sun.management.jmxremote.port=<port>,...authenticate=<b>,...ssl=<b>`. */
  function BaseOptions(port: Int32, authenticate: bool, ssl: bool): (r: string)
  {
    Setting(PortKey, IntToString(port)) + "," + Setting(AuthenticateKey, BoolToString(authenticate))
      + "," + Setting(SslKey, BoolToString(ssl))
  }

  /** The options string `loadRemoteManagement` builds: the three settings,
      then `,` and the caller's options verbatim when there are any. */
  function RemoteOptions(port: Int32, authenticate: bool, ssl: bool, options: Option<string>): string
  {
    var base := BaseOptions(port, authenticate, ssl);
    if options.Some? then base + "," + options.value else base
  }

  /** Read back as comma-separated settings, the options string holds the
      port, authenticate and ssl settings, then the caller's own settings. */
  lemma RemoteOptionsFields(port: Int32, authenticate: bool, ssl: bool, options: Option<string>)
    ensures Split(RemoteOptions(port, authenticate, ssl, options), ',') ==
              [Setting(PortKey, IntToString(port)),
               Setting(AuthenticateKey, BoolToString(authenticate)),
               Setting(SslKey, BoolToString(ssl))]
              + (if options.Some? then Split(options.value, ',') else [])
    // without caller options it ends in the ssl value, not in a comma; with
    // them, the caller's text follows the base settings and one comma verbatim
    ensures var r := RemoteOptions(port, authenticate, ssl, options);
            var base := BaseOptions(port, authenticate, ssl);
            (options.None? ==> r == base && r[|r| - 1] != ',') &&
            (options.Some? ==> |r| > |base| && r[..|base|] == base && r[|base|] == ',' &&
                               r[|base| + 1..] == options.value)
  {
    var base := BaseOptions(port, authenticate, ssl);
    BaseOptionsFields(port, authenticate, ssl);
    if options.Some? {
      SplitJoin(base, options.value, ',');
      assert base + "," + options.value == base + [','] + options.value;
    }
  }

  lemma BaseOptionsFields(port: Int32, authenticate: bool, ssl: bool)
    ensures Split(BaseOptions(port, authenticate, ssl), ',') ==
              [Setting(PortKey, IntToString(port)),
               Setting(AuthenticateKey, BoolToString(authenticate)),
               Setting(SslKey, BoolToString(ssl))]
  {
    NoCommaSetting(PortKey, IntToString(port));
    NoCommaSetting(AuthenticateKey, BoolToString(authenticate));
    NoCommaSetting(SslKey, BoolToString(ssl));
    SplitThree(Setting(PortKey, IntToString(port)),
               Setting(AuthenticateKey, BoolToString(authenticate)),
               Setting(SslKey, BoolToString(ssl)));
  }

  lemma SplitThree(p: string, a: string, s: string)
    requires ',' !in p && ',' !in a && ',' !in s
    ensures Split(p + "," + a + "," + s, ',') == [p, a, s]
  {
    SplitWithout(p, ',');
    SplitWithout(a, ',');
    SplitWithout(s, ',');
    SplitJoin(a, s, ',');
    SplitJoin(p, a + [','] + s, ',');
    assert p + "," + a + "," + s == p + [','] + (a + [','] + s);
  }

  /** A setting `key=value` whose key and value are comma-free (keys are
      letters and dots; values are digits, a minus sign or letters). */
  lemma NoCommaSetting(key: string, value: string)
    requires key in {PortKey, AuthenticateKey, SslKey}
    requires forall k :: 0 <= k < |value| ==> value[k] != ','
    ensures ',' !in Setting(key, value)
  {
    var setting := Setting(key, value);
    assert ',' !in key;
    forall k | 0 <= k < |setting| ensures setting[k] != ',' {
      if k > |key| { assert setting[k] == value[k - |key| - 1]; }
    }
  }

  /** The in-session steps of `loadRemoteManagement`: read the target's
      properties, then load its management agent with the built options. */
  function RemoteStep(env: Env, separator: string, id: string, port: Int32, authenticate: bool, ssl: bool,
                      options: Option<string>): Run
  {
    if PropertiesCall in env.failing then
      Run([GetSystemProperties], Failed(PropertiesFailed))
    else
      var path := ManagementAgentPath(JavaHome(PropertiesOf(env, id)), separator);
      Run([GetSystemProperties, LoadAgentWithOptions(path, RemoteOptions(port, authenticate, ssl, options))],
          if LoadCall in env.failing then Failed(LoadFailed) else Done)
  }

  /** `loadRemoteManagement(id, port, authenticate, ssl, options)`. */
  function RemoteRun(env: Env, separator: string, id: string, port: Int32, authenticate: bool, ssl: bool,
                     options: Option<string>): Run
  {
    Session(env, id, RemoteStep(env, separator, id, port, authenticate, ssl, options))
  }

  /** The calls `loadRemoteManagement` issues and how it ends. */
  lemma RemoteProtocol(env: Env, separator: string, id: string, port: Int32, authenticate: bool, ssl: bool,
                       options: Option<string>)
    ensures var r := RemoteRun(env, separator, id, port, authenticate, ssl, options);
            |r.events| > 0 && r.events[0] == Attach(id) && Count(r.events, AttachKind) == 1 &&
            // once attach succeeds, detach is issued exactly once, as the last call,
            // even when reading the properties or loading fails
            Count(r.events, DetachKind) == (if CanAttach(env, id) then 1 else 0) &&
            (CanAttach(env, id) ==> r.events[|r.events| - 1] == Detach) &&
            // the properties are read before anything is loaded
            (CanAttach(env, id) ==> r.events[1] == GetSystemProperties) &&
            Count(r.events, PropertiesKind) == (if CanAttach(env, id) then 1 else 0) &&
            // only the two-argument load is used, and only after the properties were read
            Count(r.events, PlainLoadKind) == 0 &&
            Count(r.events, OptionsLoadKind) ==
              (if CanAttach(env, id) && PropertiesCall !in env.failing then 1 else 0)
    ensures var r := RemoteRun(env, separator, id, port, authenticate, ssl, options);
            CanAttach(env, id) && PropertiesCall !in env.failing ==>
              r.events == [Attach(id), GetSystemProperties,
                           LoadAgentWithOptions(
                             ManagementAgentPath(JavaHome(PropertiesOf(env, id)), separator),
                             RemoteOptions(port, authenticate, ssl, options)),
                           Detach]
    ensures var r := RemoteRun(env, separator, id, port, authenticate, ssl, options);
            (r.result == Done <==>
               CanAttach(env, id) && PropertiesCall !in env.failing &&
               LoadCall !in env.failing && DetachCall !in env.failing) &&
            (CanAttach(env, id) && DetachCall in env.failing ==> r.result == Failed(DetachFailed)) &&
            (!CanAttach(env, id) ==> r.result == Failed(AttachFailed)) &&
            (CanAttach(env, id) && DetachCall !in env.failing && PropertiesCall in env.failing ==>
               r.result == Failed(PropertiesFailed)) &&
            ((CanAttach(env, id) && DetachCall !in env.failing && PropertiesCall !in env.failing &&
              LoadCall in env.failing) ==> r.result == Failed(LoadFailed))
  {
    var step := RemoteStep(env, separator, id, port, authenticate, ssl, options);
    RemoteStepCounts(env, separator, id, port, authenticate, ssl, options);
    SessionDiscipline(env, id, step);
  }

  lemma RemoteStepCounts(env: Env, separator: string, id: string, port: Int32, authenticate: bool, ssl: bool,
                         options: Option<string>)
    ensures var r := RemoteStep(env, separator, id, port, authenticate, ssl, options);
            |r.events| > 0 && r.events[0] == GetSystemProperties &&
            Count(r.events, AttachKind) == 0 && Count(r.events, DetachKind) == 0 &&
            Count(r.events, PropertiesKind) == 1 && Count(r.events, PlainLoadKind) == 0 &&
            Count(r.events, OptionsLoadKind) == if PropertiesCall in env.failing then 0 else 1
  {
    var r := RemoteStep(env, separator, id, port, authenticate, ssl, options);
    if PropertiesCall in env.failing {
      assert r.events == [GetSystemProperties];
      forall k ensures Count(r.events, k) == if k == PropertiesKind then 1 else 0 {
        CountOne(GetSystemProperties, k);
      }
    } else {
      var load := LoadAgentWithOptions(ManagementAgentPath(JavaHome(PropertiesOf(env, id)), separator),
                                       RemoteOptions(port, authenticate, ssl, options));
      assert r.events == [GetSystemProperties, load];
      CountTwo(GetSystemProperties, load);
    }
  }

  lemma CountTwo(e: Event, f: Event)
    ensures forall k :: Count([e, f], k) == (if KindOf(e) == k then 1 else 0) + (if KindOf(f) == k then 1 else 0)
  {
    forall k ensures Count([e, f], k) == (if KindOf(e) == k then 1 else 0) + (if KindOf(f) == k then 1 else 0) {
      assert [e, f] == [e] + [f];
      CountConcat([e], [f], k);
      CountOne(e, k);
      CountOne(f, k);
    }
  }

  // ===========================================================================
  // The operations
  // ===========================================================================

  /** `ensurePlatformSupported`: warn, never abort. */
  method EnsurePlatformSupported(host: Host)
    modifies host`stderr
    ensures host.stderr == old(host.stderr) + PlatformWarnings(host.vmName)
  {
    if !IsPlatformSupported(host.vmName) {
      host.stderr := host.stderr + [PlatformWarning];
    }
  }

  /** `load(agentJarPath, id, options)`: whatever the platform check says,
      validate the jar, then attach, load and detach. */
  method Load(host: Host, vm: AttachFacility, path: string, id: string, options: Option<string>)
    returns (r: Outcome)
    requires vm.attached == None
    modifies host`stderr, vm
    ensures vm.attached == None
    ensures vm.trace == old(vm.trace) + LoadRun(vm.env, host.files(path), path, id, options).events
    ensures r == LoadRun(vm.env, host.files(path), path, id, options).result
    ensures host.stderr == old(host.stderr) + PlatformWarnings(host.vmName)
  {
    EnsurePlatformSupported(host);
    var validation := ValidateJar(path, host.files(path));
    if validation.Invalid? {
      return Failed(InvalidBundle(validation.error));
    }
    var ok := vm.AttachTo(id);
    if !ok {
      return Failed(AttachFailed);
    }
    var inner := LoadAgentStep(vm, path, options);
    var detached := vm.DetachFrom();
    r := if !detached then Failed(DetachFailed) else inner;
  }

  /** The `try` block of `load`, on an attached handle: the two-argument
      `loadAgent` when options are present, the one-argument one otherwise. */
  method LoadAgentStep(vm: AttachFacility, path: string, options: Option<string>) returns (r: Outcome)
    requires vm.attached.Some?
    modifies vm`trace
    ensures vm.trace == old(vm.trace) + LoadStep(vm.env, path, options).events
    ensures r == LoadStep(vm.env, path, options).result
  {
    var loaded;
    if options.Some? {
      loaded := vm.LoadWithOptions(path, options.value);
    } else {
      loaded := vm.Load(path);
    }
    r := if loaded then Done else Failed(LoadFailed);
  }

  /** `loadSelf(clazz, id, options)`: the platform check runs here and again
      inside `load`, so an unsupported platform is warned about twice. */
  method LoadSelf(host: Host, vm: AttachFacility, clazz: LoadedClass, id: string, options: Option<string>)
    returns (r: Outcome)
    requires vm.attached == None
    modifies host`stderr, vm
    ensures vm.attached == None
    ensures vm.trace == old(vm.trace) + LoadSelfRun(vm.env, host.files, clazz, id, options).events
    ensures r == LoadSelfRun(vm.env, host.files, clazz, id, options).result
    ensures host.stderr == old(host.stderr) + PlatformWarnings(host.vmName)
              + (if clazz.location.Some? then PlatformWarnings(host.vmName) else [])
  {
    EnsurePlatformSupported(host);
    match clazz.location {
      case None =>
        r := Failed(SelfLocationUnknown);
      case Some(path) =>
        r := Load(host, vm, path, id, options);
    }
  }

  /** The `StringBuilder` of `loadRemoteManagement`: start from the three
      settings and append `,` and the caller's options when present. */
  method BuildOptions(port: Int32, authenticate: bool, ssl: bool, options: Option<string>)
    returns (builder: string)
    ensures builder == RemoteOptions(port, authenticate, ssl, options)
  {
    builder := BaseOptions(port, authenticate, ssl);
    if options.Some? {
      builder := builder + ",";
      builder := builder + options.value;
    }
  }

  /** The `try` block of `loadRemoteManagement`, on an attached handle: read
      the properties, build the management agent's path and options, load it. */
  method StartManagementAgent(vm: AttachFacility, separator: string, port: Int32, authenticate: bool,
                              ssl: bool, options: Option<string>)
    returns (r: Outcome)
    requires vm.attached.Some?
    modifies vm`trace
    ensures vm.trace ==
              old(vm.trace) + RemoteStep(vm.env, separator, vm.attached.value, port, authenticate, ssl, options).events
    ensures r == RemoteStep(vm.env, separator, vm.attached.value, port, authenticate, ssl, options).result
  {
    var props := vm.SystemProperties();
    if props.None? {
      return Failed(PropertiesFailed);
    }
    var home := JavaHome(props.value);
    var managementAgentJar := ManagementAgentPath(home, separator);
    var builder := BuildOptions(port, authenticate, ssl, options);
    var loaded := vm.LoadWithOptions(managementAgentJar, builder);
    r := if loaded then Done else Failed(LoadFailed);
  }

  /** `loadRemoteManagement(id, port, authenticate, ssl, options)`. */
  method LoadRemoteManagement(host: Host, vm: AttachFacility, id: string, port: Int32, authenticate: bool,
                              ssl: bool, options: Option<string>)
    returns (r: Outcome)
    requires vm.attached == None
    modifies host`stderr, vm
    ensures vm.attached == None
    ensures vm.trace ==
              old(vm.trace) + RemoteRun(vm.env, host.separator, id, port, authenticate, ssl, options).events
    ensures r == RemoteRun(vm.env, host.separator, id, port, authenticate, ssl, options).result
    ensures host.stderr == old(host.stderr) + PlatformWarnings(host.vmName)
  {
    EnsurePlatformSupported(host);
    ghost var step := RemoteStep(vm.env, host.separator, id, port, authenticate, ssl, options);
    ghost var before := vm.trace;
    var ok := vm.AttachTo(id);
    if !ok {
      return Failed(AttachFailed);
    }
    var inner := StartManagementAgent(vm, host.separator, port, authenticate, ssl, options);
    var detached := vm.DetachFrom();
    assert vm.trace == before + ([Attach(id)] + step.events + [Detach]);
    r := if !detached then Failed(DetachFailed) else inner;
  }
}
