/** The command-line front end of `Main`: `id command [arguments] [options]`
    is decoded into one command, which `main` then runs through `Agents`. */
module CommandLine {
  import opened Wrappers
  import opened Text
  import opened Agents

  const LoadCommand := "load"
  const LoadSelfCommand := "load-self"
  const LoadRemoteCommand := "load-remote-management"

  /** What an argument vector asks for. `Usage` carries the argument count
      that was not reached. */
  datatype Command =
    | Usage(minimum: nat)
    | LoadAgentCmd(path: string, id: string, options: Option<string>)
    | LoadSelfCmd(id: string, options: Option<string>)
    | LoadRemoteCmd(id: string, port: Int32, authenticate: bool, ssl: bool, options: Option<string>)
    | UnknownCommand(command: string)
    | BadPort(text: string)   // Integer.valueOf threw NumberFormatException

  predicate IsAgentCommand(c: Command)
  {
    c.LoadAgentCmd? || c.LoadSelfCmd? || c.LoadRemoteCmd?
  }

  /** `extractOptions(args, count)`: the argument at index `count`, if there is one. */
  function ExtractOptions(args: seq<string>, count: nat): (r: Option<string>)
    ensures r.Some? <==> |args| > count
    ensures r.Some? ==> r.value == args[count]
  {
    if |args| > count then Some(args[count]) else None
  }

  /** Arguments after the options position do not change the options. */
  lemma ExtractOptionsIgnoresRest(args: seq<string>, extra: seq<string>, count: nat)
    requires |args| > count
    ensures ExtractOptions(args + extra, count) == ExtractOptions(args, count)
  {
    assert (args + extra)[count] == args[count];
  }

  /** The decision `main` takes on its arguments, before any side effect:
      `ensureArguments(args, 2)`, then the command in `args[1]` with its own
      minimum count and argument positions. */
  function Dispatch(args: seq<string>): (c: Command)
    // fewer than two arguments: usage, nothing dispatched
    ensures |args| < 2 ==> c == Usage(2)
    ensures c.Usage? ==> |args| < c.minimum
    ensures |args| >= 2 ==>
              (c.Usage? <==> (args[1] == LoadCommand && |args| < 3) ||
                             (args[1] == LoadRemoteCommand && |args| < 5))
    ensures |args| >= 2 && c.Usage? ==> c.minimum == if args[1] == LoadCommand then 3 else 5
    // load: id, "load", path [, options]
    ensures c.LoadAgentCmd? <==> |args| >= 3 && args[1] == LoadCommand
    ensures c.LoadAgentCmd? ==>
              c.id == args[0] && c.path == args[2] && c.options == ExtractOptions(args, 3)
    // load-self: id, "load-self" [, options]
    ensures c.LoadSelfCmd? <==> |args| >= 2 && args[1] == LoadSelfCommand
    ensures c.LoadSelfCmd? ==> c.id == args[0] && c.options == ExtractOptions(args, 2)
    // load-remote-management: id, command, port, authenticate, ssl [, options]
    ensures c.LoadRemoteCmd? <==>
              |args| >= 5 && args[1] == LoadRemoteCommand && ParseInt(args[2]).Some?
    ensures c.LoadRemoteCmd? ==>
              c.id == args[0] && Some(c.port) == ParseInt(args[2]) &&
              c.authenticate == ParseBool(args[3]) && c.ssl == ParseBool(args[4]) &&
              c.options == ExtractOptions(args, 5)
    ensures c.BadPort? <==>
              |args| >= 5 && args[1] == LoadRemoteCommand && ParseInt(args[2]).None?
    ensures c.BadPort? ==> c.text == args[2]
    // anything else in args[1], compared case-sensitively, is unknown
    ensures c.UnknownCommand? <==>
              |args| >= 2 && args[1] != LoadCommand && args[1] != LoadSelfCommand &&
              args[1] != LoadRemoteCommand
    ensures c.UnknownCommand? ==> c.command == args[1]
  {
    if |args| < 2 then Usage(2)
    else
      var id := args[0];
      var command := args[1];
      if command == LoadCommand then
        if |args| < 3 then Usage(3)
        else LoadAgentCmd(args[2], id, ExtractOptions(args, 3))
      else if command == LoadSelfCommand then
        // ensureArguments(args, 2) always passes here
        LoadSelfCmd(id, ExtractOptions(args, 2))
      else if command == LoadRemoteCommand then
        if |args| < 5 then Usage(5)
        else match ParseInt(args[2])
          case None => BadPort(args[2])
          case Some(port) =>
            LoadRemoteCmd(id, port, ParseBool(args[3]), ParseBool(args[4]), ExtractOptions(args, 5))
      else UnknownCommand(command)
  }

  /** The canonical argument vector for an agent command, as the usage text
      describes it. */
  function CommandLineOf(c: Command): seq<string>
    requires IsAgentCommand(c)
  {
    var rest := if c.options.Some? then [c.options.value] else [];
    match c
    case LoadAgentCmd(path, id, _) => [id, LoadCommand, path] + rest
    case LoadSelfCmd(id, _) => [id, LoadSelfCommand] + rest
    case LoadRemoteCmd(id, port, authenticate, ssl, _) =>
      [id, LoadRemoteCommand, IntToString(port), BoolToString(authenticate), BoolToString(ssl)] + rest
  }

  /** Every agent command is what `main` makes of its own command line. */
  lemma DispatchCommandLine(c: Command)
    requires IsAgentCommand(c)
    ensures Dispatch(CommandLineOf(c)) == c
  {
    var args := CommandLineOf(c);
    match c
    case LoadAgentCmd(path, id, options) =>
      assert args[1] == LoadCommand;
    case LoadSelfCmd(id, options) =>
      assert args[1] == LoadSelfCommand;
    case LoadRemoteCmd(id, port, authenticate, ssl, options) =>
      assert args[1] == LoadRemoteCommand && args[2] == IntToString(port);
      assert args[3] == BoolToString(authenticate) && args[4] == BoolToString(ssl);
  }

  /** The index of the last argument `main` reads for a command: past it,
      further arguments are ignored. */
  function LastReadIndex(command: string): nat
  {
    if command == LoadCommand then 3
    else if command == LoadSelfCommand then 2
    else if command == LoadRemoteCommand then 5
    else 1
  }

  lemma TrailingArgumentsIgnored(args: seq<string>, extra: seq<string>)
    requires |args| >= 2 && |args| > LastReadIndex(args[1])
    ensures Dispatch(args + extra) == Dispatch(args)
  {
    var all := args + extra;
    assert all[..|args|] == args;
    assert all[0] == args[0] && all[1] == args[1];
    if args[1] == LoadCommand {
      assert all[2] == args[2];
      ExtractOptionsIgnoresRest(args, extra, 3);
    } else if args[1] == LoadSelfCommand {
      ExtractOptionsIgnoresRest(args, extra, 2);
    } else if args[1] == LoadRemoteCommand {
      assert all[2] == args[2] && all[3] == args[3] && all[4] == args[4];
      ExtractOptionsIgnoresRest(args, extra, 5);
    }
  }

  // ===========================================================================
  // Running the command
  // ===========================================================================

  /** Why the tool terminated abnormally. */
  datatype Crash =
    | UnknownCommandError(command: string)   // IllegalArgumentException "Unknown command <command>"
    | NumberFormat(text: string)
    | AgentFailure(failure: Failure)

  /** How the process ends: an exit status (usage, or `main` returning) or an
      exception escaping `main`. */
  datatype Exit = Exited(status: int) | Crashed(reason: Crash)

  /** The facility calls a command issues; commands that reach no `Agents`
      operation issue none. */
  function CommandRun(env: Env, host: Host, c: Command): (r: Run)
    ensures !IsAgentCommand(c) ==> r == Run([], Done)
    // `load`: the jar at the given path, into the given process
    ensures c.LoadAgentCmd? ==> r == LoadRun(env, host.files(c.path), c.path, c.id, c.options)
    // `load-self`: always the jar that defines `Agents` itself
    ensures c.LoadSelfCmd? ==> r == LoadSelfRun(env, host.files, host.agentsClass, c.id, c.options)
    ensures c.LoadRemoteCmd? ==>
              r == RemoteRun(env, host.separator, c.id, c.port, c.authenticate, c.ssl, c.options)
  {
    match c
    case LoadAgentCmd(path, id, options) => LoadRun(env, host.files(path), path, id, options)
    case LoadSelfCmd(id, options) => LoadSelfRun(env, host.files, host.agentsClass, id, options)
    case LoadRemoteCmd(id, port, authenticate, ssl, options) =>
      RemoteRun(env, host.separator, id, port, authenticate, ssl, options)
    case _ => Run([], Done)
  }

  /** The warnings a command prints: one per platform check it reaches. */
  function CommandWarnings(host: Host, c: Command): (r: seq<string>)
    ensures !IsAgentCommand(c) || IsPlatformSupported(host.vmName) ==> r == []
    // on an unsupported platform: one warning, and a second one when `load-self`
    // reaches `load`
    ensures IsAgentCommand(c) && !IsPlatformSupported(host.vmName) ==>
              r == [PlatformWarning] +
                   (if c.LoadSelfCmd? && host.agentsClass.location.Some? then [PlatformWarning] else [])
  {
    match c
    case LoadAgentCmd(_, _, _) => PlatformWarnings(host.vmName)
    case LoadSelfCmd(_, _) =>
      PlatformWarnings(host.vmName)
        + (if host.agentsClass.location.Some? then PlatformWarnings(host.vmName) else [])
    case LoadRemoteCmd(_, _, _, _, _) => PlatformWarnings(host.vmName)
    case _ => []
  }

  function ExitOf(c: Command, result: Outcome): (e: Exit)
    ensures c.Usage? ==> e == Exited(0)
    ensures c.UnknownCommand? ==> e == Crashed(UnknownCommandError(c.command))
    ensures c.BadPort? ==> e == Crashed(NumberFormat(c.text))
    ensures IsAgentCommand(c) ==> (e == Exited(0) <==> result == Done)
    ensures IsAgentCommand(c) && result.Failed? ==> e == Crashed(AgentFailure(result.failure))
  {
    match c
    case Usage(_) => Exited(0)
    case UnknownCommand(command) => Crashed(UnknownCommandError(command))
    case BadPort(text) => Crashed(NumberFormat(text))
    case _ => if result.Done? then Exited(0) else Crashed(AgentFailure(result.failure))
  }

  /** `main(args)`. */
  method Execute(host: Host, vm: AttachFacility, args: seq<string>) returns (exit: Exit)
    requires vm.attached == None
    modifies host`stderr, vm
    ensures vm.attached == None
    ensures vm.trace == old(vm.trace) + CommandRun(vm.env, host, Dispatch(args)).events
    ensures host.stderr == old(host.stderr) + CommandWarnings(host, Dispatch(args))
    ensures exit == ExitOf(Dispatch(args), CommandRun(vm.env, host, Dispatch(args)).result)
  {
    var command := Dispatch(args);
    match command {
      case Usage(_) =>
        exit := Exited(0);
      case UnknownCommand(name) =>
        exit := Crashed(UnknownCommandError(name));
      case BadPort(text) =>
        exit := Crashed(NumberFormat(text));
      case LoadAgentCmd(path, id, options) =>
        var r := Load(host, vm, path, id, options);
        exit := ExitOf(command, r);
      case LoadSelfCmd(id, options) =>
        var r := LoadSelf(host, vm, host.agentsClass, id, options);
        exit := ExitOf(command, r);
      case LoadRemoteCmd(id, port, authenticate, ssl, options) =>
        var r := LoadRemoteManagement(host, vm, id, port, authenticate, ssl, options);
        exit := ExitOf(command, r);
    }
  }
}
