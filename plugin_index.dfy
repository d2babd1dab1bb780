/**
 * index.js: discovers the "-sky-pages-out-" plugins a project declares in its
 * devDependencies, loads each one from the project's node_modules, and forwards the
 * command to every loaded plugin that exposes `runCommand`.
 */
module PluginIndex {
  import opened Wrappers
  import opened Strings
  import opened JsValue
  import opened NamePattern

  /** What `typeof module.runCommand === 'function'` sees of a loaded plugin. */
  datatype PluginModule = PluginModule(hasRunCommand: bool)

  /** `require(path)`: the loaded module, or None when loading throws. */
  type Require = string -> Option<PluginModule>

  /** `path.join(cwd, 'node_modules', key)`. */
  function ModulePath(cwd: string, key: string): string {
    PathJoin(PathJoin(cwd, "node_modules"), key)
  }

  lemma ModulePathInjective(cwd: string, a: string, b: string)
    requires ModulePath(cwd, a) == ModulePath(cwd, b)
    ensures a == b
  {
    var base := PathJoin(cwd, "node_modules");
    assert base != "." && base != "";
    assert a == (base + "/" + a)[|base| + 1..];
  }

  /** The module paths of `keys`, in order. */
  function Paths(cwd: string, keys: seq<string>): (r: seq<string>)
    ensures |r| == |keys|
    decreases |keys|
  {
    if keys == [] then [] else Paths(cwd, keys[..|keys| - 1]) + [ModulePath(cwd, keys[|keys| - 1])]
  }

  lemma {:induction false} PathsIndex(cwd: string, keys: seq<string>)
    ensures forall i :: 0 <= i < |keys| ==> Paths(cwd, keys)[i] == ModulePath(cwd, keys[i])
    decreases |keys|
  {
    if keys != [] {
      PathsIndex(cwd, keys[..|keys| - 1]);
    }
  }

  /** What a discovery run produced, and the paths it handed to `require`, in order. */
  datatype Discovery = Discovery(modules: Result<seq<PluginModule>, JsError>, requested: seq<string>)

  /** Requiring `paths` in order; the first path that fails to load ends the run. */
  function LoadAll(paths: seq<string>, require: Require): Discovery
    decreases |paths|
  {
    if paths == [] then Discovery(Success([]), [])
    else
      var prev := LoadAll(paths[..|paths| - 1], require);
      var p := paths[|paths| - 1];
      if prev.modules.Failure? then prev
      else match require(p)
        case None => Discovery(Failure(ModuleNotFound(p)), prev.requested + [p])
        case Some(m) => Discovery(Success(prev.modules.value + [m]), prev.requested + [p])
  }

  /** `getModules(packageJson)` (index.js:12-24). */
  function GetModulesSpec(packageJson: Json, cwd: string, require: Require): Discovery {
    match ReadProp(Some(packageJson), "devDependencies")
    case Failure(e) => Discovery(Failure(e), [])
    case Success(dd) =>
      if !Truthy(dd) then Discovery(Success([]), [])
      else LoadAll(Paths(cwd, Filter(IsPluginName, ForInKeys(dd))), require)
  }

  /** Once a load has failed, later paths are never required. */
  lemma {:induction false} LoadAllFailureSticks(pre: seq<string>, post: seq<string>, require: Require)
    requires LoadAll(pre, require).modules.Failure?
    ensures LoadAll(pre + post, require) == LoadAll(pre, require)
    decreases |post|
  {
    if post == [] {
      assert pre + post == pre;
    } else {
      var post' := post[..|post| - 1];
      assert (pre + post)[..|pre + post| - 1] == pre + post';
      LoadAllFailureSticks(pre, post', require);
      assert LoadAll(pre + post', require).modules.Failure?;
    }
  }

  /** The paths of the keys of `keys[..i + 1]` that `p` selects extend those of `keys[..i]` by at most `keys[i]`. */
  lemma SelectedSnoc(cwd: string, p: string -> bool, keys: seq<string>, i: nat)
    requires i < |keys|
    ensures p(keys[i]) ==> Paths(cwd, Filter(p, keys[..i + 1])) == Paths(cwd, Filter(p, keys[..i])) + [ModulePath(cwd, keys[i])]
    ensures !p(keys[i]) ==> Paths(cwd, Filter(p, keys[..i + 1])) == Paths(cwd, Filter(p, keys[..i]))
  {
    var s := keys[..i + 1];
    assert s[..|s| - 1] == keys[..i] && s[|s| - 1] == keys[i];
    var f := Filter(p, keys[..i]);
    if p(keys[i]) {
      var g := f + [keys[i]];
      assert Filter(p, keys[..i + 1]) == g;
      assert g[..|g| - 1] == f && g[|g| - 1] == keys[i];
      assert Paths(cwd, g) == Paths(cwd, f) + [ModulePath(cwd, keys[i])];
    } else {
      assert Filter(p, keys[..i + 1]) == f;
    }
  }

  lemma {:induction false} PathsConcat(cwd: string, a: seq<string>, b: seq<string>)
    ensures Paths(cwd, a + b) == Paths(cwd, a) + Paths(cwd, b)
    decreases |b|
  {
    if b == [] {
      assert a + b == a;
    } else {
      var b' := b[..|b| - 1];
      assert (a + b)[..|a + b| - 1] == a + b';
      PathsConcat(cwd, a, b');
    }
  }

  /** Requiring one more path after a successful prefix. */
  lemma LoadAllSnoc(paths: seq<string>, p: string, require: Require)
    requires LoadAll(paths, require).modules.Success?
    ensures require(p).None? ==>
      LoadAll(paths + [p], require) == Discovery(Failure(ModuleNotFound(p)), LoadAll(paths, require).requested + [p])
    ensures require(p).Some? ==>
      LoadAll(paths + [p], require)
      == Discovery(Success(LoadAll(paths, require).modules.value + [require(p).value]), LoadAll(paths, require).requested + [p])
  {
    assert (paths + [p])[..|paths|] == paths;
  }

  /** A key the filter skips changes nothing. */
  lemma SkipKey(cwd: string, p: string -> bool, keys: seq<string>, i: nat, require: Require)
    requires i < |keys| && !p(keys[i])
    ensures LoadAll(Paths(cwd, Filter(p, keys[..i + 1])), require) == LoadAll(Paths(cwd, Filter(p, keys[..i])), require)
  {
    SelectedSnoc(cwd, p, keys, i);
  }

  /** A selected key after a successful prefix is required next. */
  lemma LoadKey(cwd: string, p: string -> bool, keys: seq<string>, i: nat, require: Require)
    requires i < |keys| && p(keys[i])
    requires LoadAll(Paths(cwd, Filter(p, keys[..i])), require).modules.Success?
    ensures var before := LoadAll(Paths(cwd, Filter(p, keys[..i])), require);
      var path := ModulePath(cwd, keys[i]);
      LoadAll(Paths(cwd, Filter(p, keys[..i + 1])), require) ==
        if require(path).None? then Discovery(Failure(ModuleNotFound(path)), before.requested + [path])
        else Discovery(Success(before.modules.value + [require(path).value]), before.requested + [path])
  {
    SelectedSnoc(cwd, p, keys, i);
    LoadAllSnoc(Paths(cwd, Filter(p, keys[..i])), ModulePath(cwd, keys[i]), require);
  }

  /** A key that fails to load ends discovery: the later keys change nothing. */
  lemma FailureEndsDiscovery(cwd: string, p: string -> bool, keys: seq<string>, i: nat, require: Require)
    requires i < |keys|
    requires LoadAll(Paths(cwd, Filter(p, keys[..i + 1])), require).modules.Failure?
    ensures LoadAll(Paths(cwd, Filter(p, keys)), require) == LoadAll(Paths(cwd, Filter(p, keys[..i + 1])), require)
  {
    var front, rest := keys[..i + 1], keys[i + 1..];
    assert keys == front + rest;
    var a := Filter(p, front);
    var b := Filter(p, rest);
    FilterConcat(p, front, rest);
    PathsConcat(cwd, a, b);
    var pa, pb := Paths(cwd, a), Paths(cwd, b);
    assert Paths(cwd, Filter(p, keys)) == pa + pb;
    LoadAllFailureSticks(pa, pb, require);
  }

  lemma {:induction false} LoadAllPrefix(paths: seq<string>, require: Require)
    ensures var d := LoadAll(paths, require);
      && |d.requested| <= |paths| && d.requested == paths[..|d.requested|]
      && (d.modules.Success? ==> d.requested == paths)
    decreases |paths|
  {
    if paths != [] {
      var paths' := paths[..|paths| - 1];
      LoadAllPrefix(paths', require);
      var prev := LoadAll(paths', require);
      assert paths'[..|prev.requested|] == paths[..|prev.requested|];
      if prev.modules.Success? {
        assert prev.requested + [paths[|paths| - 1]] == paths;
      }
    }
  }

  lemma {:induction false} LoadAllSuccess(paths: seq<string>, require: Require)
    ensures var d := LoadAll(paths, require);
      d.modules.Success? ==>
        |d.modules.value| == |paths| && forall i :: 0 <= i < |paths| ==> require(paths[i]) == Some(d.modules.value[i])
    decreases |paths|
  {
    if paths != [] {
      LoadAllSuccess(paths[..|paths| - 1], require);
    }
  }

  lemma {:induction false} LoadAllFailure(paths: seq<string>, require: Require)
    ensures var d := LoadAll(paths, require);
      d.modules.Failure? ==>
        && |d.requested| > 0
        && d.modules.error == ModuleNotFound(d.requested[|d.requested| - 1])
        && require(d.requested[|d.requested| - 1]) == None
        && forall i :: 0 <= i < |d.requested| - 1 ==> require(d.requested[i]).Some?
    decreases |paths|
  {
    if paths != [] {
      var paths' := paths[..|paths| - 1];
      LoadAllFailure(paths', require);
      LoadAllPrefix(paths', require);
      LoadAllSuccess(paths', require);
    }
  }

  /**
   * A discovery run requires a prefix of `paths`. It succeeds with one module per path,
   * in path order; or it fails on the last path it required, which did not load while
   * every earlier one did.
   */
  lemma LoadAllShape(paths: seq<string>, require: Require)
    ensures var d := LoadAll(paths, require);
      && |d.requested| <= |paths| && d.requested == paths[..|d.requested|]
      && (d.modules.Success? ==>
            d.requested == paths && |d.modules.value| == |paths|
            && forall i :: 0 <= i < |paths| ==> require(paths[i]) == Some(d.modules.value[i]))
      && (d.modules.Failure? ==>
            |d.requested| > 0
            && d.modules.error == ModuleNotFound(d.requested[|d.requested| - 1])
            && require(d.requested[|d.requested| - 1]) == None
            && forall i :: 0 <= i < |d.requested| - 1 ==> require(d.requested[i]).Some?)
  {
    LoadAllPrefix(paths, require);
    LoadAllSuccess(paths, require);
    LoadAllFailure(paths, require);
  }

  /** A discovery run succeeds iff every selected path loads. */
  lemma LoadAllSucceedsIff(paths: seq<string>, require: Require)
    ensures LoadAll(paths, require).modules.Success? <==> forall i :: 0 <= i < |paths| ==> require(paths[i]).Some?
  {
    LoadAllShape(paths, require);
    var d := LoadAll(paths, require);
    if d.modules.Failure? {
      var n := |d.requested| - 1;
      assert d.requested[n] == paths[n];
    }
  }

  /** Every path in `Paths(cwd, keys)` is the module path of one of the keys. */
  lemma PathOfSomeKey(cwd: string, keys: seq<string>, p: string)
    requires p in Paths(cwd, keys)
    ensures exists k :: k in keys && p == ModulePath(cwd, k)
  {
    PathsIndex(cwd, keys);
    var i :| 0 <= i < |keys| && Paths(cwd, keys)[i] == p;
    assert keys[i] in keys;
  }

  /** A devDependency key without the marker is never handed to `require`. */
  lemma NonMatchingKeysNeverLoaded(packageJson: Json, cwd: string, require: Require, key: string)
    requires !IsPluginName(key)
    ensures ModulePath(cwd, key) !in GetModulesSpec(packageJson, cwd, require).requested
  {
    var read := ReadProp(Some(packageJson), "devDependencies");
    if read.Success? && Truthy(read.value) {
      var selected := Filter(IsPluginName, ForInKeys(read.value));
      var paths := Paths(cwd, selected);
      LoadAllShape(paths, require);
      var req := LoadAll(paths, require).requested;
      if ModulePath(cwd, key) in req {
        assert ModulePath(cwd, key) in paths by {
          var i :| 0 <= i < |req| && req[i] == ModulePath(cwd, key);
          assert paths[i] == req[i];
        }
        PathOfSomeKey(cwd, selected, ModulePath(cwd, key));
        var k :| k in selected && ModulePath(cwd, key) == ModulePath(cwd, k);
        ModulePathInjective(cwd, key, k);
        assert false;
      }
    }
  }

  /**
   * On success the result holds exactly one module per matching key, in key order, each
   * loaded from `<cwd>/node_modules/<key>`; a manifest without devDependencies gives none.
   */
  lemma GetModulesResult(packageJson: Json, cwd: string, require: Require)
    ensures var d := GetModulesSpec(packageJson, cwd, require);
      var dd := Get(packageJson, "devDependencies");
      && (packageJson != Null && !Truthy(dd) ==> d == Discovery(Success([]), []))
      && (d.modules.Success? && Truthy(dd) ==>
            var selected := Filter(IsPluginName, ForInKeys(dd));
            |d.modules.value| == |selected|
            && forall i :: 0 <= i < |selected| ==> require(ModulePath(cwd, selected[i])) == Some(d.modules.value[i]))
  {
    var dd := Get(packageJson, "devDependencies");
    if packageJson != Null && Truthy(dd) {
      var selected := Filter(IsPluginName, ForInKeys(dd));
      LoadAllShape(Paths(cwd, selected), require);
      PathsIndex(cwd, selected);
    }
  }

  /** `getModules` (index.js:12-24): the for…in loop that pushes each required plugin. */
  method GetModules(packageJson: Json, cwd: string, require: Require)
    returns (modules: Result<seq<PluginModule>, JsError>, requested: seq<string>)
    ensures Discovery(modules, requested) == GetModulesSpec(packageJson, cwd, require)
  {
    var read := ReadProp(Some(packageJson), "devDependencies");
    if read.Failure? {
      return Failure(read.error), [];
    }
    var dd := read.value;
    var acc: seq<PluginModule> := [];
    requested := [];
    if Truthy(dd) {
      var keys := ForInKeys(dd);
      var i := 0;
      while i < |keys|
        invariant 0 <= i <= |keys|
        invariant LoadAll(Paths(cwd, Filter(IsPluginName, keys[..i])), require) == Discovery(Success(acc), requested)
      {
        var d := keys[i];
        if IsPluginName(d) {
          var p := ModulePath(cwd, d);
          LoadKey(cwd, IsPluginName, keys, i, require);
          requested := requested + [p];
          var loaded := require(p);
          if loaded.None? {
            // The throw leaves the loop: no later key is examined.
            FailureEndsDiscovery(cwd, IsPluginName, keys, i, require);
            return Failure(ModuleNotFound(p)), requested;
          }
          acc := acc + [loaded.value];
        } else {
          SkipKey(cwd, IsPluginName, keys, i, require);
        }
        i := i + 1;
      }
      assert keys[..|keys|] == keys;
    }
    modules := Success(acc);
  }

  /** One call `module.runCommand(command, argv)` on the module at `index` of the list. */
  datatype Invocation = Invocation(index: nat, command: Option<Json>, argv: Argv)

  /** The calls `runCommand(modules, command, argv)` makes (index.js:32-38), in order. */
  function Dispatched(modules: seq<PluginModule>, command: Option<Json>, argv: Argv): seq<Invocation>
    decreases |modules|
  {
    if modules == [] then []
    else
      Dispatched(modules[..|modules| - 1], command, argv)
      + (if modules[|modules| - 1].hasRunCommand then [Invocation(|modules| - 1, command, argv)] else [])
  }

  /** The calls made for the modules before the last one, followed by the call for the last. */
  lemma DispatchedSnoc(modules: seq<PluginModule>, command: Option<Json>, argv: Argv)
    requires modules != []
    ensures var n := |modules| - 1;
      Dispatched(modules, command, argv)
      == Dispatched(modules[..n], command, argv) + (if modules[n].hasRunCommand then [Invocation(n, command, argv)] else [])
  {
  }

  /** Every call targets a module exposing `runCommand`, with the command and argv unchanged. */
  lemma {:induction false} DispatchedTargets(modules: seq<PluginModule>, command: Option<Json>, argv: Argv)
    ensures var calls := Dispatched(modules, command, argv);
      forall i :: 0 <= i < |calls| ==>
        calls[i].command == command && calls[i].argv == argv
        && calls[i].index < |modules| && modules[calls[i].index].hasRunCommand
    decreases |modules|
  {
    if modules != [] {
      var n := |modules| - 1;
      var prefix := modules[..n];
      DispatchedTargets(prefix, command, argv);
      DispatchedSnoc(modules, command, argv);
      var prev := Dispatched(prefix, command, argv);
      var calls := Dispatched(modules, command, argv);
      forall i | 0 <= i < |calls|
        ensures calls[i].command == command && calls[i].argv == argv
        ensures calls[i].index < |modules| && modules[calls[i].index].hasRunCommand
      {
        if i < |prev| {
          assert calls[i] == prev[i];
          assert prefix[prev[i].index] == modules[prev[i].index];
        } else {
          assert calls[i] == Invocation(n, command, argv);
        }
      }
    }
  }

  /** Calls follow list order, so no module is called twice. */
  lemma {:induction false} DispatchedInOrder(modules: seq<PluginModule>, command: Option<Json>, argv: Argv)
    ensures var calls := Dispatched(modules, command, argv);
      forall i, j :: 0 <= i < j < |calls| ==> calls[i].index < calls[j].index
    decreases |modules|
  {
    if modules != [] {
      var n := |modules| - 1;
      var prefix := modules[..n];
      DispatchedInOrder(prefix, command, argv);
      DispatchedTargets(prefix, command, argv);
      DispatchedSnoc(modules, command, argv);
      var prev := Dispatched(prefix, command, argv);
      var calls := Dispatched(modules, command, argv);
      forall i, j | 0 <= i < j < |calls| ensures calls[i].index < calls[j].index {
        assert calls[i] == prev[i];
        if j < |prev| { assert calls[j] == prev[j]; } else { assert calls[j].index == n; }
      }
    }
  }

  /** Every module exposing `runCommand` is called. */
  lemma {:induction false} DispatchedComplete(modules: seq<PluginModule>, command: Option<Json>, argv: Argv)
    ensures var calls := Dispatched(modules, command, argv);
      forall k :: 0 <= k < |modules| && modules[k].hasRunCommand ==> exists i :: 0 <= i < |calls| && calls[i].index == k
    decreases |modules|
  {
    if modules != [] {
      var n := |modules| - 1;
      var prefix := modules[..n];
      DispatchedComplete(prefix, command, argv);
      DispatchedSnoc(modules, command, argv);
      var prev := Dispatched(prefix, command, argv);
      var calls := Dispatched(modules, command, argv);
      forall k | 0 <= k < |modules| && modules[k].hasRunCommand
        ensures exists i :: 0 <= i < |calls| && calls[i].index == k
      {
        if k < n {
          assert prefix[k] == modules[k];
          var i :| 0 <= i < |prev| && prev[i].index == k;
          assert calls[i] == prev[i];
        } else {
          assert calls[|calls| - 1].index == k;
        }
      }
    }
  }

  /**
   * `runCommand` calls each module that has a `runCommand` function exactly once, in list
   * order, with the command and argv unchanged, and skips every other module.
   */
  lemma DispatchedExactlyOnce(modules: seq<PluginModule>, command: Option<Json>, argv: Argv)
    ensures var calls := Dispatched(modules, command, argv);
      && (forall i :: 0 <= i < |calls| ==> calls[i].command == command && calls[i].argv == argv)
      && (forall i :: 0 <= i < |calls| ==> calls[i].index < |modules| && modules[calls[i].index].hasRunCommand)
      && (forall i, j :: 0 <= i < j < |calls| ==> calls[i].index < calls[j].index)
      && (forall k :: 0 <= k < |modules| && modules[k].hasRunCommand ==> exists i :: 0 <= i < |calls| && calls[i].index == k)
  {
    DispatchedTargets(modules, command, argv);
    DispatchedInOrder(modules, command, argv);
    DispatchedComplete(modules, command, argv);
  }

  /** The number of calls is the number of modules exposing `runCommand`. */
  lemma {:induction false} DispatchedCount(modules: seq<PluginModule>, command: Option<Json>, argv: Argv)
    ensures |Dispatched(modules, command, argv)| == |Filter((m: PluginModule) => m.hasRunCommand, modules)|
    decreases |modules|
  {
    if modules != [] {
      DispatchedCount(modules[..|modules| - 1], command, argv);
    }
  }

  /** `runCommand(modules, command, argv)` (index.js:32-38); plugin return values are dropped. */
  method RunCommand(modules: seq<PluginModule>, command: Option<Json>, argv: Argv) returns (calls: seq<Invocation>)
    ensures calls == Dispatched(modules, command, argv)
  {
    calls := [];
    var i := 0;
    while i < |modules|
      invariant 0 <= i <= |modules|
      invariant calls == Dispatched(modules[..i], command, argv)
    {
      assert modules[..i + 1][..i] == modules[..i];
      if modules[i].hasRunCommand {
        calls := calls + [Invocation(i, command, argv)];
      }
      i := i + 1;
    }
    assert modules[..|modules|] == modules;
  }

  /** The local handlers of index.js: lib/version and lib/new. */
  datatype LocalHandler = VersionHandler | NewHandler

  /** `argv._[0]`, replaced by 'version' whenever `argv.v` is truthy (index.js:48-52). */
  function CommandOf(argv: Argv): (c: Option<Json>)
    ensures Truthy(Flag(argv, "v")) ==> c == Some(Str("version"))
    ensures !Truthy(Flag(argv, "v")) ==> c == FirstPositional(argv)
    ensures LocalHandlerFor(c) == Some(VersionHandler) <==>
      Truthy(Flag(argv, "v")) || FirstPositional(argv) == Some(Str("version"))
    ensures LocalHandlerFor(c) == Some(NewHandler) <==>
      !Truthy(Flag(argv, "v")) && FirstPositional(argv) == Some(Str("new"))
  {
    if Truthy(Flag(argv, "v")) then Some(Str("version")) else FirstPositional(argv)
  }

  /** The switch of index.js:54-61 (strict equality with the two string cases). */
  function LocalHandlerFor(command: Option<Json>): (h: Option<LocalHandler>)
    ensures h == Some(VersionHandler) <==> command == Some(Str("version"))
    ensures h == Some(NewHandler) <==> command == Some(Str("new"))
  {
    if command == Some(Str("version")) then Some(VersionHandler)
    else if command == Some(Str("new")) then Some(NewHandler)
    else None
  }

  /** Everything one `processArgv` call did. `thrown` is an exception that escaped it. */
  datatype ArgvRun = ArgvRun(
    command: Option<Json>,
    local: Option<LocalHandler>,
    requested: seq<string>,
    calls: seq<Invocation>,
    thrown: Option<JsError>)

  /** What `processArgv(argv)` (index.js:46-67) does, as one value. */
  function ProcessArgvSpec(argv: Argv, cwd: string, packageJsonExists: bool, packageJson: Json, require: Require): ArgvRun {
    var command := CommandOf(argv);
    var start := ArgvRun(command, LocalHandlerFor(command), [], [], None);
    if !packageJsonExists then start
    else
      var d := GetModulesSpec(packageJson, cwd, require);
      match d.modules
      case Failure(e) => start.(requested := d.requested, thrown := Some(e))
      case Success(ms) => start.(requested := d.requested, calls := Dispatched(ms, command, argv))
  }

  /**
   * `processArgv(argv)` (index.js:46-67), with `fs.existsSync(<cwd>/package.json)` and the
   * parsed manifest as inputs and `require` as an oracle.
   */
  method ProcessArgv(argv: Argv, cwd: string, packageJsonExists: bool, packageJson: Json, require: Require)
    returns (run: ArgvRun)
    ensures run == ProcessArgvSpec(argv, cwd, packageJsonExists, packageJson, require)
    ensures run.command == CommandOf(argv)
    ensures run.local == LocalHandlerFor(CommandOf(argv))
    ensures !packageJsonExists ==> run.requested == [] && run.calls == [] && run.thrown == None
    ensures packageJsonExists ==>
      var d := GetModulesSpec(packageJson, cwd, require);
      && run.requested == d.requested
      && (d.modules.Failure? ==> run.thrown == Some(d.modules.error) && run.calls == [])
      && (d.modules.Success? ==> run.thrown == None && run.calls == Dispatched(d.modules.value, CommandOf(argv), argv))
  {
    var command := FirstPositional(argv);
    if Truthy(Flag(argv, "v")) {
      command := Some(Str("version"));
    }
    var local := LocalHandlerFor(command);
    run := ArgvRun(command, local, [], [], None);
    if packageJsonExists {
      var modules, requested := GetModules(packageJson, cwd, require);
      if modules.Failure? {
        run := run.(requested := requested, thrown := Some(modules.error));
      } else {
        var calls := RunCommand(modules.value, command, argv);
        run := run.(requested := requested, calls := calls);
      }
    }
  }

  /**
   * Dispatch happens after a local handler too: whatever the command, `skyux version` and
   * `skyux new` included, once the plugins load every one exposing `runCommand` is called
   * with that command.
   */
  lemma LocalHandlerDoesNotStopDispatch(argv: Argv, cwd: string, packageJson: Json, require: Require)
    ensures var run := ProcessArgvSpec(argv, cwd, true, packageJson, require);
      var d := GetModulesSpec(packageJson, cwd, require);
      && (run.thrown == None <==> d.modules.Success?)
      && (d.modules.Success? ==>
            var ms := d.modules.value;
            forall k :: 0 <= k < |ms| && ms[k].hasRunCommand ==>
              exists i :: 0 <= i < |run.calls| && run.calls[i].index == k && run.calls[i].command == run.command)
  {
    var d := GetModulesSpec(packageJson, cwd, require);
    if d.modules.Success? {
      DispatchedExactlyOnce(d.modules.value, CommandOf(argv), argv);
    }
  }
}
