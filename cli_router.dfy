/**
 * lib/cli/index.js: the command router of the sky-pages CLI. It switches on the first
 * positional argument, hands `build` and `serve` to their implementations, logs the version
 * for `version` and reports every other command as unknown.
 */
module CliRouter {
  import opened Wrappers
  import opened JsValue

  /** The four arms of the switch. */
  datatype Route = Build | Serve | Version | Unknown

  /** `switch (argv._[0])` with strict equality against the three case labels. */
  function RouteOf(command: Option<Json>): (r: Route)
    ensures r == Build <==> command == Some(Str("build"))
    ensures r == Serve <==> command == Some(Str("serve"))
    ensures r == Version <==> command == Some(Str("version"))
  {
    if command == Some(Str("build")) then Build
    else if command == Some(Str("serve")) then Serve
    else if command == Some(Str("version")) then Version
    else Unknown
  }

  const UnknownCommandMessage := "Please provide a known command."

  /** What one call did: the arm taken, the value returned (None for undefined) and the log lines. */
  datatype CliOutcome = CliOutcome(route: Route, returned: Option<Json>, log: seq<LogEntry>)

  /**
   * `processArgv(argv)` (lib/cli/index.js:15-28). `build`, `serve` and `version` stand for
   * lib/core/build, lib/core/serve and lib/core/version applied to `argv` (and to webpack and
   * the dev server, which are fixed modules).
   */
  function ProcessArgv(argv: Argv, build: Argv -> Option<Json>, serve: Argv -> Option<Json>, version: Argv -> Json): (r: CliOutcome)
    ensures r.route == RouteOf(FirstPositional(argv))
    ensures r.route == Build ==> r.returned == build(argv) && r.log == []
    ensures r.route == Serve ==> r.returned == serve(argv) && r.log == []
    ensures r.route == Version ==> r.returned == None && r.log == [LogInfo(version(argv))]
    ensures r.route == Unknown ==> r.returned == None && r.log == [LogError(Str(UnknownCommandMessage))]
  {
    match RouteOf(FirstPositional(argv))
    case Build => CliOutcome(Build, build(argv), [])
    case Serve => CliOutcome(Serve, serve(argv), [])
    case Version => CliOutcome(Version, None, [LogInfo(version(argv))])
    case Unknown => CliOutcome(Unknown, None, [LogError(Str(UnknownCommandMessage))])
  }

  /** Routing depends on `argv._[0]` alone: flags and later positionals never change the arm. */
  lemma RoutingDependsOnlyOnCommand(a1: Argv, a2: Argv, build: Argv -> Option<Json>, serve: Argv -> Option<Json>, version: Argv -> Json)
    requires FirstPositional(a1) == FirstPositional(a2)
    ensures ProcessArgv(a1, build, serve, version).route == ProcessArgv(a2, build, serve, version).route
  {
  }

  /**
   * Exactly one thing happens: a delegated command returns its implementation's result and
   * logs nothing; every other command returns undefined and logs exactly one line, an error
   * line exactly when the command is not one of the three known ones.
   */
  lemma ExactlyOneEffect(argv: Argv, build: Argv -> Option<Json>, serve: Argv -> Option<Json>, version: Argv -> Json)
    ensures var r := ProcessArgv(argv, build, serve, version);
      var known := FirstPositional(argv) in {Some(Str("build")), Some(Str("serve")), Some(Str("version"))};
      && (r.route == Build || r.route == Serve <==> |r.log| == 0)
      && (|r.log| == 0 || |r.log| == 1)
      && (r.returned.Some? ==> r.route == Build || r.route == Serve)
      && ((|r.log| == 1 && r.log[0].LogError?) <==> !known)
  {
  }
}
