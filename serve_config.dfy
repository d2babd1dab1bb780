/**
 * lib/webpack/serve.config.js: finds the "-sky-pages-in-" / "-sky-pages-out-" loaders a
 * project declares, checks that each implements both configuration hooks, and composes
 * the webpack configuration: every sky-pages config is merged first, the merged result is
 * handed to every webpack hook, and the outcome is exposed to the front end.
 */
module ServeConfig {
  import opened Wrappers
  import opened Strings
  import opened JsValue
  import opened NamePattern

  /**
   * What a loaded loader module offers. `getSkyPagesConfig` is None when that property is
   * not a function, and otherwise the value calling it returns; `getWebpackConfig` is
   * None when that property is not a function, and otherwise the function itself.
   */
  datatype LoaderExports = LoaderExports(getSkyPagesConfig: Option<Json>, getWebpackConfig: Option<Json -> Json>)

  /** The `{name, exports}` record pushed for each accepted loader. */
  datatype Loader = Loader(name: string, exports: LoaderExports)

  /** `require(path)`: the loaded module, or None when loading throws. */
  type Require = string -> Option<LoaderExports>

  /** `merge.smart(a, b)`, left uninterpreted. */
  type Merge = (Json, Json) -> Json

  const SkyPagesHookMissing := "%s must implement the getSkyPagesConfig method."
  const WebpackHookMissing := "%s must implement the getWebpackConfig method."

  /** A loader both of whose hooks are functions. */
  predicate Implemented(l: Loader) {
    l.exports.getSkyPagesConfig.Some? && l.exports.getWebpackConfig.Some?
  }

  predicate AllImplemented(loaders: seq<Loader>) {
    forall i :: 0 <= i < |loaders| ==> Implemented(loaders[i])
  }

  /** `path.join(cwd, 'node_modules', key)`. */
  function ModulePath(cwd: string, key: string): string {
    PathJoin(PathJoin(cwd, "node_modules"), key)
  }

  /**
   * Loading and checking one selected key (lib/webpack/serve.config.js:21-34). The second
   * argument of `new Error` is ignored, so the message keeps its literal "%s".
   */
  function Check(cwd: string, key: string, require: Require): (r: Result<Loader, JsError>)
    ensures r.Success? <==> match require(ModulePath(cwd, key))
      case None => false
      case Some(ex) => ex.getSkyPagesConfig.Some? && ex.getWebpackConfig.Some?
    ensures r.Success? ==> r.value.name == key && Implemented(r.value) && Some(r.value.exports) == require(ModulePath(cwd, key))
  {
    match require(ModulePath(cwd, key))
    case None => Failure(ModuleNotFound(ModulePath(cwd, key)))
    case Some(ex) =>
      if ex.getSkyPagesConfig.None? then Failure(Thrown(SkyPagesHookMissing))
      else if ex.getWebpackConfig.None? then Failure(Thrown(WebpackHookMissing))
      else Success(Loader(key, ex))
  }

  /** The getSkyPagesConfig check runs first: a loader lacking both hooks reports that one. */
  lemma CheckOrder(cwd: string, key: string, require: Require)
    requires require(ModulePath(cwd, key)).Some?
    ensures var ex := require(ModulePath(cwd, key)).value;
      && (ex.getSkyPagesConfig.None? ==> Check(cwd, key, require) == Failure(Thrown(SkyPagesHookMissing)))
      && (ex.getSkyPagesConfig.Some? && ex.getWebpackConfig.None? ==> Check(cwd, key, require) == Failure(Thrown(WebpackHookMissing)))
  {
  }

  /** The for…in loop of `getModules` over `keys`; the first failing selected key ends it. */
  function Collect(cwd: string, keys: seq<string>, select: string -> bool, require: Require): (r: Result<seq<Loader>, JsError>)
    ensures r.Success? ==> AllImplemented(r.value)
    decreases |keys|
  {
    if keys == [] then Success([])
    else
      var prev := Collect(cwd, keys[..|keys| - 1], select, require);
      var k := keys[|keys| - 1];
      if prev.Failure? || !select(k) then prev
      else match Check(cwd, k, require)
        case Failure(e) => Failure(e)
        case Success(l) => Success(prev.value + [l])
  }

  /** `getModules(packageJson)` (lib/webpack/serve.config.js:16-40). */
  function GetModulesSpec(packageJson: Json, cwd: string, require: Require): (r: Result<seq<Loader>, JsError>)
    ensures r.Success? ==> AllImplemented(r.value)
  {
    match ReadProp(Some(packageJson), "devDependencies")
    case Failure(e) => Failure(e)
    case Success(dd) => if !Truthy(dd) then Success([]) else Collect(cwd, ForInKeys(dd), IsLoaderName, require)
  }

  lemma {:induction false} CollectFailureSticks(cwd: string, keys: seq<string>, n: nat, select: string -> bool, require: Require)
    requires n <= |keys|
    requires Collect(cwd, keys[..n], select, require).Failure?
    ensures Collect(cwd, keys, select, require) == Collect(cwd, keys[..n], select, require)
    decreases |keys| - n
  {
    if n < |keys| {
      assert keys[..|keys| - 1][..n] == keys[..n];
      CollectFailureSticks(cwd, keys[..|keys| - 1], n, select, require);
    } else {
      assert keys[..n] == keys;
    }
  }

  /** One more key after a successful prefix: skipped, or its loader appended. */
  lemma CollectSnoc(cwd: string, keys: seq<string>, i: nat, select: string -> bool, require: Require)
    requires i < |keys| && Collect(cwd, keys[..i], select, require).Success?
    ensures !select(keys[i]) ==> Collect(cwd, keys[..i + 1], select, require) == Collect(cwd, keys[..i], select, require)
    ensures select(keys[i]) && Check(cwd, keys[i], require).Success? ==>
      Collect(cwd, keys[..i + 1], select, require)
      == Success(Collect(cwd, keys[..i], select, require).value + [Check(cwd, keys[i], require).value])
  {
    assert keys[..i + 1][..i] == keys[..i];
  }

  /** A selected key whose check fails after a successful prefix decides the result. */
  lemma CollectStopsAt(cwd: string, keys: seq<string>, i: nat, select: string -> bool, require: Require)
    requires i < |keys| && Collect(cwd, keys[..i], select, require).Success?
    requires select(keys[i]) && Check(cwd, keys[i], require).Failure?
    ensures Collect(cwd, keys, select, require) == Failure(Check(cwd, keys[i], require).error)
  {
    assert keys[..i + 1][..i] == keys[..i];
    CollectFailureSticks(cwd, keys, i + 1, select, require);
  }

  /** `getModules` succeeds iff every selected key loads and implements both hooks. */
  lemma {:induction false} CollectSucceedsIff(cwd: string, keys: seq<string>, select: string -> bool, require: Require)
    ensures Collect(cwd, keys, select, require).Success? <==>
      forall i :: 0 <= i < |keys| && select(keys[i]) ==> Check(cwd, keys[i], require).Success?
    decreases |keys|
  {
    if keys != [] {
      var n := |keys| - 1;
      var front := keys[..n];
      CollectSucceedsIff(cwd, front, select, require);
      assert forall i :: 0 <= i < n ==> front[i] == keys[i];
      if Collect(cwd, front, select, require).Failure? {
        var i :| 0 <= i < n && select(front[i]) && Check(cwd, front[i], require).Failure?;
        assert keys[i] == front[i];
      }
    }
  }

  /** On success the result holds one `{name: key, exports: loader}` per selected key, in key order. */
  lemma {:induction false} CollectContents(cwd: string, keys: seq<string>, select: string -> bool, require: Require)
    requires Collect(cwd, keys, select, require).Success?
    ensures var ls := Collect(cwd, keys, select, require).value;
      && |ls| == |Filter(select, keys)|
      && forall j :: 0 <= j < |ls| ==>
           ls[j].name == Filter(select, keys)[j] && Some(ls[j].exports) == require(ModulePath(cwd, ls[j].name))
    decreases |keys|
  {
    if keys != [] {
      var n := |keys| - 1;
      var front := keys[..n];
      var prev := Collect(cwd, front, select, require);
      CollectContents(cwd, front, select, require);
      var fs := Filter(select, front);
      if select(keys[n]) {
        var ls := Collect(cwd, keys, select, require).value;
        assert ls == prev.value + [Check(cwd, keys[n], require).value];
        assert Filter(select, keys) == fs + [keys[n]];
      }
    }
  }

  /** `keys[i]` is the first selected key whose check fails. */
  predicate FirstFailure(cwd: string, keys: seq<string>, select: string -> bool, require: Require, i: int) {
    && 0 <= i < |keys| && select(keys[i]) && Check(cwd, keys[i], require).Failure?
    && forall j :: 0 <= j < i && select(keys[j]) ==> Check(cwd, keys[j], require).Success?
  }

  /** On failure, the error is that of the first selected key whose check fails. */
  lemma {:induction false} CollectFailure(cwd: string, keys: seq<string>, select: string -> bool, require: Require)
    requires Collect(cwd, keys, select, require).Failure?
    ensures exists i :: FirstFailure(cwd, keys, select, require, i) && Collect(cwd, keys, select, require).error == Check(cwd, keys[i], require).error
    decreases |keys|
  {
    var n := |keys| - 1;
    var front := keys[..n];
    assert forall i :: 0 <= i < n ==> front[i] == keys[i];
    var prev := Collect(cwd, front, select, require);
    if prev.Failure? {
      CollectFailure(cwd, front, select, require);
      var i :| FirstFailure(cwd, front, select, require, i) && prev.error == Check(cwd, front[i], require).error;
      assert FirstFailure(cwd, keys, select, require, i);
    } else {
      CollectSucceedsIff(cwd, front, select, require);
      assert FirstFailure(cwd, keys, select, require, n);
    }
  }

  /** Without devDependencies there are no loaders. */
  lemma NoDevDependenciesNoLoaders(packageJson: Json, cwd: string, require: Require)
    requires packageJson != Null && !Truthy(Get(packageJson, "devDependencies"))
    ensures GetModulesSpec(packageJson, cwd, require) == Success([])
  {
  }

  /** `getModules` (lib/webpack/serve.config.js:16-40): the for…in loop that throws or pushes. */
  method GetModules(packageJson: Json, cwd: string, require: Require) returns (modules: Result<seq<Loader>, JsError>)
    ensures modules == GetModulesSpec(packageJson, cwd, require)
  {
    var read := ReadProp(Some(packageJson), "devDependencies");
    if read.Failure? {
      return Failure(read.error);
    }
    var dd := read.value;
    var acc: seq<Loader> := [];
    if Truthy(dd) {
      var keys := ForInKeys(dd);
      var i := 0;
      while i < |keys|
        invariant 0 <= i <= |keys|
        invariant Collect(cwd, keys[..i], IsLoaderName, require) == Success(acc)
      {
        var d := keys[i];
        CollectSnoc(cwd, keys, i, IsLoaderName, require);
        if IsLoaderName(d) {
          var loader := require(ModulePath(cwd, d));
          if loader.None? {
            CollectStopsAt(cwd, keys, i, IsLoaderName, require);
            return Failure(ModuleNotFound(ModulePath(cwd, d)));
          }
          if loader.value.getSkyPagesConfig.None? {
            CollectStopsAt(cwd, keys, i, IsLoaderName, require);
            return Failure(Thrown(SkyPagesHookMissing));
          }
          if loader.value.getWebpackConfig.None? {
            CollectStopsAt(cwd, keys, i, IsLoaderName, require);
            return Failure(Thrown(WebpackHookMissing));
          }
          acc := acc + [Loader(d, loader.value)];
        }
        i := i + 1;
      }
      assert keys[..|keys|] == keys;
    }
    modules := Success(acc);
  }

  /** `getDefaultSkyPagesConfig()` (lib/webpack/serve.config.js:47). */
  function DefaultSkyPagesConfig(): Json {
    Obj([])
  }

  function Resolves(cwd: string, dirname: string): Json {
    Arr([Str(cwd), Str(PathJoin(cwd, "node_modules")), Str(PathJoin(dirname, "..")),
         Str(PathJoin(PathJoin(dirname, ".."), "node_modules"))])
  }

  /** The host page the front end is served in. */
  function ShellHost(): Json {
    Obj([Member("url", Str("https://blackbaud-shell.azurewebsites.net/")), Member("qsKey", Str("hash"))])
  }

  /** The `SKY_PAGES` section of the default configuration. */
  function DefaultSkyPagesSection(): Json {
    Obj([Member("command", Str("serve")), Member("host", ShellHost())])
  }

  /** The default section names the shell host, and keeps it once `config` is set. */
  lemma DefaultSkyPagesHost(sp: Json)
    ensures Get(DefaultSkyPagesSection(), "host") == Some(ShellHost())
    ensures Get(Put(DefaultSkyPagesSection(), "config", sp), "host") == Some(ShellHost())
  {
    LookupAt(DefaultSkyPagesSection().members, "host", 1);
  }

  /** The two default plugins: a ProgressBarPlugin instance and webpack-fail-plugin. */
  function DefaultPlugins(): seq<Json> {
    [Host("ProgressBarPlugin", []), Host("webpack-fail-plugin", [])]
  }

  /**
   * `getDefaultWebpackConfig()` (lib/webpack/serve.config.js:54-108). The certificate
   * files appear as the `fs.readFileSync` calls that read them.
   */
  function DefaultWebpackConfig(cwd: string, dirname: string): Json {
    Obj([
      Member("entry", Obj([])),
      Member("output", Obj([Member("filename", Str("[name].js")),
                            Member("chunkFilename", Str("[id].[chunkhash].chunk.js"))])),
      Member("devServer", Obj([
        Member("port", Num(31337)),
        Member("secure", Bool(false)),
        Member("colors", Bool(true)),
        Member("compress", Bool(true)),
        Member("inline", Bool(true)),
        Member("historyApiFallback", Bool(true)),
        Member("stats", Str("minimal")),
        Member("https", Obj([
          Member("key", Host("fs.readFileSync", [Str(PathJoin(dirname, "../../ssl/server.key"))])),
          Member("cert", Host("fs.readFileSync", [Str(PathJoin(dirname, "../../ssl/server.crt"))]))]))])),
      Member("debug", Bool(true)),
      Member("devtool", Str("cheap-module-eval-source-map")),
      Member("resolve", Obj([Member("root", Resolves(cwd, dirname))])),
      Member("resolveLoader", Obj([Member("root", Resolves(cwd, dirname))])),
      Member("module", Obj([Member("loaders", Arr([
        Obj([Member("test", Host("RegExp", [Str("\\.json$")])), Member("loader", Str("json"))])]))])),
      Member("SKY_PAGES", DefaultSkyPagesSection()),
      Member("plugins", Arr(DefaultPlugins()))
    ])
  }

  /** The top-level keys of the default configuration, in order. */
  const WebpackConfigKeys: seq<string> := ["entry", "output", "devServer", "debug", "devtool",
    "resolve", "resolveLoader", "module", "SKY_PAGES", "plugins"]

  lemma DefaultWebpackConfigKeys(cwd: string, dirname: string)
    ensures Keys(DefaultWebpackConfig(cwd, dirname).members) == WebpackConfigKeys
  {
  }

  /** In a property list keyed like the defaults, `entry` is the first property. */
  lemma EntryLookup(ms: seq<Member>)
    requires Keys(ms) == WebpackConfigKeys
    ensures Lookup(ms, "entry") == Some(ms[0].value)
  {
    LookupAt(ms, "entry", 0);
  }

  /** In a property list keyed like the defaults, `devServer` is the third property. */
  lemma DevServerLookup(ms: seq<Member>)
    requires Keys(ms) == WebpackConfigKeys
    ensures Lookup(ms, "devServer") == Some(ms[2].value)
  {
    LookupAt(ms, "devServer", 2);
  }

  /** In a property list keyed like the defaults, `SKY_PAGES` is the ninth property. */
  lemma SkyPagesLookup(ms: seq<Member>)
    requires Keys(ms) == WebpackConfigKeys
    ensures Lookup(ms, "SKY_PAGES") == Some(ms[8].value)
  {
    LookupAt(ms, "SKY_PAGES", 8);
  }

  /** In a property list keyed like the defaults, `plugins` is the last property. */
  lemma PluginsLookup(ms: seq<Member>)
    requires Keys(ms) == WebpackConfigKeys
    ensures Lookup(ms, "plugins") == Some(ms[9].value)
  {
    LookupAt(ms, "plugins", 9);
  }

  /** A property list keyed like the defaults has no `STACHE` property. */
  lemma StacheAbsent(ms: seq<Member>)
    requires Keys(ms) == WebpackConfigKeys
    ensures Lookup(ms, "STACHE") == None
  {
    LookupAbsent(ms, "STACHE");
  }

  /**
   * The defaults serve on port 31337, with the shell host and exactly the two default
   * plugins, and have no `STACHE` section.
   */
  lemma DefaultWebpackConfigShape(cwd: string, dirname: string)
    ensures var wp := DefaultWebpackConfig(cwd, dirname);
      && Get(wp, "SKY_PAGES") == Some(DefaultSkyPagesSection())
      && Get(wp, "plugins") == Some(Arr(DefaultPlugins()))
      && Get(wp, "entry") == Some(Obj([]))
      && Get(wp, "devServer").Some? && Get(Get(wp, "devServer").value, "port") == Some(Num(31337))
      && Get(wp, "STACHE") == None
  {
    var ms := DefaultWebpackConfig(cwd, dirname).members;
    DefaultWebpackConfigKeys(cwd, dirname);
    EntryLookup(ms);
    DevServerLookup(ms);
    SkyPagesLookup(ms);
    PluginsLookup(ms);
    StacheAbsent(ms);
    LookupAt(ms[2].value.members, "port", 0);
  }

  /** `new webpack.DefinePlugin({'SKY_PAGES': JSON.stringify(section)})`. */
  function DefinePlugin(section: Json): Json {
    Host("webpack.DefinePlugin", [Obj([Member("SKY_PAGES", Host("JSON.stringify", [section]))])])
  }

  /** Phase one: `skyPagesConfig = merge.smart(skyPagesConfig, getSkyPagesConfig())` over the loaders. */
  function MergeSkyPages(sp: Json, loaders: seq<Loader>, merge: Merge): Json
    requires AllImplemented(loaders)
    decreases |loaders|
  {
    if loaders == [] then sp
    else
      var last := loaders[|loaders| - 1];
      merge(MergeSkyPages(sp, loaders[..|loaders| - 1], merge), last.exports.getSkyPagesConfig.value)
  }

  /** Phase two: `webpackConfig = merge.smart(webpackConfig, getWebpackConfig(sp))` over the loaders. */
  function MergeWebpack(wp: Json, loaders: seq<Loader>, sp: Json, merge: Merge): Json
    requires AllImplemented(loaders)
    decreases |loaders|
  {
    if loaders == [] then wp
    else
      var last := loaders[|loaders| - 1];
      merge(MergeWebpack(wp, loaders[..|loaders| - 1], sp, merge), last.exports.getWebpackConfig.value(sp))
  }

  /** A hook call, in the order`getWebpackConfig` makes them. */
  datatype HookCall = SkyPagesHookCall(loader: string) | WebpackHookCall(loader: string, skyPagesConfig: Json)

  function SkyPagesCalls(loaders: seq<Loader>): (r: seq<HookCall>)
    ensures |r| == |loaders|
    decreases |loaders|
  {
    if loaders == [] then [] else SkyPagesCalls(loaders[..|loaders| - 1]) + [SkyPagesHookCall(loaders[|loaders| - 1].name)]
  }

  function WebpackCalls(loaders: seq<Loader>, sp: Json): (r: seq<HookCall>)
    ensures |r| == |loaders|
    decreases |loaders|
  {
    if loaders == [] then [] else WebpackCalls(loaders[..|loaders| - 1], sp) + [WebpackHookCall(loaders[|loaders| - 1].name, sp)]
  }

  lemma {:induction false} SkyPagesCallsAt(loaders: seq<Loader>)
    ensures forall i :: 0 <= i < |loaders| ==> SkyPagesCalls(loaders)[i] == SkyPagesHookCall(loaders[i].name)
    decreases |loaders|
  {
    if loaders != [] {
      SkyPagesCallsAt(loaders[..|loaders| - 1]);
    }
  }

  lemma {:induction false} WebpackCallsAt(loaders: seq<Loader>, sp: Json)
    ensures forall i :: 0 <= i < |loaders| ==> WebpackCalls(loaders, sp)[i] == WebpackHookCall(loaders[i].name, sp)
    decreases |loaders|
  {
    if loaders != [] {
      WebpackCallsAt(loaders[..|loaders| - 1], sp);
    }
  }

  /**
   * Exposing SKY_PAGES (lib/webpack/serve.config.js:141-146): `SKY_PAGES.config` is set to
   * the merged sky-pages config, then one DefinePlugin of the updated section is pushed
   * onto `plugins`. Writing a property of a non-object and pushing onto a non-array throw.
   */
  function Expose(wp: Json, sp: Json): Result<Json, JsError>
  {
    match ReadProp(Some(wp), "SKY_PAGES")
    case Failure(e) => Failure(e)
    case Success(sky) =>
      if sky == None then Failure(TypeError("Cannot set property 'config' of undefined"))
      else if !sky.value.Obj? then Failure(TypeError("Cannot create property 'config' on " + FormatS(sky)))
      else
        var section := Put(sky.value, "config", sp);
        var wp1 := Put(wp, "SKY_PAGES", section);
        match ReadProp(Some(wp1), "plugins")
        case Failure(e) => Failure(e)
        case Success(plugins) =>
          if plugins == None then Failure(TypeError("Cannot read property 'push' of undefined"))
          else if !plugins.value.Arr? then Failure(TypeError("webpackConfig.plugins.push is not a function"))
          else Success(Put(wp1, "plugins", Arr(plugins.value.items + [DefinePlugin(section)])))
  }

  /** Exposing SKY_PAGES throws unless the configuration has an object section and a plugin list. */
  lemma ExposeSucceedsIff(wp: Json, sp: Json)
    ensures Expose(wp, sp).Success? <==>
      && wp.Obj? && Get(wp, "SKY_PAGES").Some? && Get(wp, "SKY_PAGES").value.Obj?
      && Get(wp, "plugins").Some? && Get(wp, "plugins").value.Arr?
  {
    if wp.Obj? && Get(wp, "SKY_PAGES").Some? && Get(wp, "SKY_PAGES").value.Obj? {
      var wp1 := Put(wp, "SKY_PAGES", Put(Get(wp, "SKY_PAGES").value, "config", sp));
      assert Get(wp1, "plugins") == Get(wp, "plugins");
    }
  }

  /** What exposing SKY_PAGES does to a configuration when it does not throw. */
  lemma ExposeContents(wp: Json, sp: Json)
    requires Expose(wp, sp).Success?
    ensures Get(wp, "SKY_PAGES").Some? && Get(wp, "SKY_PAGES").value.Obj?
    ensures var section := Put(Get(wp, "SKY_PAGES").value, "config", sp);
      && Expose(wp, sp).value.Obj?
      && Get(Expose(wp, sp).value, "SKY_PAGES") == Some(section)
      && Get(section, "config") == Some(sp)
      && Get(wp, "plugins").Some? && Get(wp, "plugins").value.Arr?
      && Get(Expose(wp, sp).value, "plugins") == Some(Arr(Get(wp, "plugins").value.items + [DefinePlugin(section)]))
      && forall k :: k != "SKY_PAGES" && k != "plugins" ==> Get(Expose(wp, sp).value, k) == Get(wp, k)
  {
    var section := Put(Get(wp, "SKY_PAGES").value, "config", sp);
    var wp1 := Put(wp, "SKY_PAGES", section);
    assert Get(wp1, "plugins") == Get(wp, "plugins");
    assert Expose(wp, sp) == Success(Put(wp1, "plugins", Arr(Get(wp, "plugins").value.items + [DefinePlugin(section)])));
  }

  /** Exposing SKY_PAGES leaves every other property as it was. */
  lemma ExposeKeeps(wp: Json, sp: Json, k: string)
    requires Expose(wp, sp).Success? && k != "SKY_PAGES" && k != "plugins"
    ensures Expose(wp, sp).value.Obj? && Get(Expose(wp, sp).value, k) == Get(wp, k)
  {
    ExposeContents(wp, sp);
  }

  /** What exposing SKY_PAGES does to a configuration, and when it throws. */
  lemma ExposeResult(wp: Json, sp: Json)
    ensures Expose(wp, sp).Success? <==>
      && wp.Obj? && Get(wp, "SKY_PAGES").Some? && Get(wp, "SKY_PAGES").value.Obj?
      && Get(wp, "plugins").Some? && Get(wp, "plugins").value.Arr?
    ensures Expose(wp, sp).Success? ==>
      var section := Put(Get(wp, "SKY_PAGES").value, "config", sp);
      && Expose(wp, sp).value.Obj?
      && Get(Expose(wp, sp).value, "SKY_PAGES") == Some(section)
      && Get(section, "config") == Some(sp)
      && Get(Expose(wp, sp).value, "plugins") == Some(Arr(Get(wp, "plugins").value.items + [DefinePlugin(section)]))
      && forall k :: k != "SKY_PAGES" && k != "plugins" ==> Get(Expose(wp, sp).value, k) == Get(wp, k)
  {
    ExposeSucceedsIff(wp, sp);
    if Expose(wp, sp).Success? {
      ExposeContents(wp, sp);
    }
  }

  /** Without a package.json no hook is called and the defaults are exposed with an empty config. */
  lemma NoPackageJsonUsesDefaults(cwd: string, dirname: string)
    ensures Expose(DefaultWebpackConfig(cwd, dirname), DefaultSkyPagesConfig()).Success?
    ensures var c := Expose(DefaultWebpackConfig(cwd, dirname), DefaultSkyPagesConfig()).value;
      var section := Put(DefaultSkyPagesSection(), "config", DefaultSkyPagesConfig());
      && c.Obj? && Get(c, "SKY_PAGES") == Some(section) && Get(section, "config") == Some(DefaultSkyPagesConfig())
      && Get(c, "plugins") == Some(Arr(DefaultPlugins() + [DefinePlugin(section)]))
  {
    DefaultWebpackConfigShape(cwd, dirname);
    ExposeResult(DefaultWebpackConfig(cwd, dirname), DefaultSkyPagesConfig());
  }

  /**
   * The two phases: every getSkyPagesConfig call comes before every getWebpackConfig call,
   * each phase visits the loaders in order, and every getWebpackConfig call receives the
   * fully merged sky-pages config, which is also what `SKY_PAGES.config` ends up holding.
   */
  lemma TwoPhaseComposition(wp0: Json, sp0: Json, loaders: seq<Loader>, merge: Merge)
    requires AllImplemented(loaders)
    ensures var sp := MergeSkyPages(sp0, loaders, merge);
      var calls := SkyPagesCalls(loaders) + WebpackCalls(loaders, sp);
      var config := Expose(MergeWebpack(wp0, loaders, sp, merge), sp);
      && |calls| == 2 * |loaders|
      && (forall i :: 0 <= i < |loaders| ==> calls[i] == SkyPagesHookCall(loaders[i].name))
      && (forall i :: |loaders| <= i < 2 * |loaders| ==> calls[i] == WebpackHookCall(loaders[i - |loaders|].name, sp))
      && (config.Success? ==> Get(config.value, "SKY_PAGES").Some? && Get(Get(config.value, "SKY_PAGES").value, "config") == Some(sp))
  {
    var sp := MergeSkyPages(sp0, loaders, merge);
    SkyPagesCallsAt(loaders);
    WebpackCallsAt(loaders, sp);
    ExposeResult(MergeWebpack(wp0, loaders, sp, merge), sp);
    var calls := SkyPagesCalls(loaders) + WebpackCalls(loaders, sp);
    assert forall i :: |loaders| <= i < 2 * |loaders| ==> calls[i] == WebpackCalls(loaders, sp)[i - |loaders|];
  }

  /** The first forEach of `getWebpackConfig` (lib/webpack/serve.config.js:126-128). */
  method MergeSkyPagesConfigs(sp0: Json, loaders: seq<Loader>, merge: Merge) returns (sp: Json, calls: seq<HookCall>)
    requires AllImplemented(loaders)
    ensures sp == MergeSkyPages(sp0, loaders, merge) && calls == SkyPagesCalls(loaders)
  {
    sp, calls := sp0, [];
    var i := 0;
    while i < |loaders|
      invariant 0 <= i <= |loaders|
      invariant sp == MergeSkyPages(sp0, loaders[..i], merge)
      invariant calls == SkyPagesCalls(loaders[..i])
    {
      var loader := loaders[i];
      assert loaders[..i + 1][..i] == loaders[..i];
      sp := merge(sp, loader.exports.getSkyPagesConfig.value);
      calls := calls + [SkyPagesHookCall(loader.name)];
      i := i + 1;
    }
    assert loaders[..|loaders|] == loaders;
  }

  /** The second forEach of `getWebpackConfig` (lib/webpack/serve.config.js:131-136). */
  method MergeWebpackConfigs(wp0: Json, loaders: seq<Loader>, sp: Json, merge: Merge) returns (wp: Json, calls: seq<HookCall>)
    requires AllImplemented(loaders)
    ensures wp == MergeWebpack(wp0, loaders, sp, merge) && calls == WebpackCalls(loaders, sp)
  {
    wp, calls := wp0, [];
    var i := 0;
    while i < |loaders|
      invariant 0 <= i <= |loaders|
      invariant wp == MergeWebpack(wp0, loaders[..i], sp, merge)
      invariant calls == WebpackCalls(loaders[..i], sp)
    {
      var loader := loaders[i];
      assert loaders[..i + 1][..i] == loaders[..i];
      wp := merge(wp, loader.exports.getWebpackConfig.value(sp));
      calls := calls + [WebpackHookCall(loader.name, sp)];
      i := i + 1;
    }
    assert loaders[..|loaders|] == loaders;
  }

  /**
   * `getWebpackConfig()` (lib/webpack/serve.config.js:115-149): the defaults, the two
   * folds when a package.json exists, then the SKY_PAGES exposure.
   */
  method GetWebpackConfig(cwd: string, dirname: string, packageJsonExists: bool, packageJson: Json,
                          require: Require, merge: Merge)
    returns (config: Result<Json, JsError>, calls: seq<HookCall>)
    ensures !packageJsonExists ==> calls == [] && config == Expose(DefaultWebpackConfig(cwd, dirname), DefaultSkyPagesConfig())
    ensures packageJsonExists && GetModulesSpec(packageJson, cwd, require).Failure? ==>
      calls == [] && config == Failure(GetModulesSpec(packageJson, cwd, require).error)
    ensures packageJsonExists && GetModulesSpec(packageJson, cwd, require).Success? ==>
      var loaders := GetModulesSpec(packageJson, cwd, require).value;
      var sp := MergeSkyPages(DefaultSkyPagesConfig(), loaders, merge);
      && calls == SkyPagesCalls(loaders) + WebpackCalls(loaders, sp)
      && config == Expose(MergeWebpack(DefaultWebpackConfig(cwd, dirname), loaders, sp, merge), sp)
  {
    var skyPagesConfig := DefaultSkyPagesConfig();
    var webpackConfig := DefaultWebpackConfig(cwd, dirname);
    calls := [];
    if packageJsonExists {
      var modules := GetModules(packageJson, cwd, require);
      if modules.Failure? {
        return Failure(modules.error), [];
      }
      var skyCalls, webpackCalls;
      skyPagesConfig, skyCalls := MergeSkyPagesConfigs(skyPagesConfig, modules.value, merge);
      webpackConfig, webpackCalls := MergeWebpackConfigs(webpackConfig, modules.value, skyPagesConfig, merge);
      calls := skyCalls + webpackCalls;
    }
    config := Expose(webpackConfig, skyPagesConfig);
  }
}
