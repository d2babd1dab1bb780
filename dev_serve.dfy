/**
 * lib/core/serve.js, `skyux serve`: builds the webpack configuration, points every entry at
 * the dev-server client, starts webpack-dev-server and, on the first finished compilation,
 * logs the local URL and opens it in a browser. The three module-level variables the
 * handlers share are the fields of a class, with the log and the calls made so far.
 */
module DevServe {
  import opened Wrappers
  import opened Strings
  import opened JsValue
  import ServeConfig

  const LocalhostPrefix := "https://localhost:"
  const ClientPrefix := "webpack-dev-server/client?"

  /** `util.format('https://localhost:%s', port)` (lib/core/serve.js:63). */
  function LocalUrl(port: Option<Json>): string {
    LocalhostPrefix + FormatS(port)
  }

  /** Every list in `after` is the list in `before` with `client` put first. */
  predicate Prepended(before: seq<Json>, after: seq<Json>, client: Json) {
    |after| == |before|
    && forall i :: 0 <= i < |before| ==> before[i].Arr? && after[i] == Arr([client] + before[i].items)
  }

  /** The values of a property list, in order. */
  function Values(ms: seq<Member>): (r: seq<Json>)
    ensures |r| == |ms| && forall i :: 0 <= i < |ms| ==> r[i] == ms[i].value
  {
    seq(|ms|, i requires 0 <= i < |ms| => ms[i].value)
  }

  /** The property list with the keys of `ms` and the values `vs`. */
  function WithValues(ms: seq<Member>, vs: seq<Json>): (r: seq<Member>)
    requires |vs| == |ms|
    ensures |r| == |ms| && forall i :: 0 <= i < |ms| ==> r[i] == Member(ms[i].key, vs[i])
  {
    seq(|ms|, i requires 0 <= i < |ms| => Member(ms[i].key, vs[i]))
  }

  /**
   * `x.unshift(client)` on each value in turn: a list gets the client first; anything else
   * throws a TypeError, null because it has no properties and the rest because they have
   * no `unshift` method.
   */
  method PrependAll(items: seq<Json>, client: Json) returns (r: Result<seq<Json>, JsError>)
    ensures r.Success? <==> forall i :: 0 <= i < |items| ==> items[i].Arr?
    ensures r.Success? ==> Prepended(items, r.value, client)
  {
    var done: seq<Json> := [];
    var i := 0;
    while i < |items|
      invariant 0 <= i <= |items|
      invariant Prepended(items[..i], done, client)
    {
      var item := items[i];
      if item.Null? {
        return Failure(TypeError("Cannot read property 'unshift' of null"));
      }
      if !item.Arr? {
        return Failure(TypeError("config.entry[entry].unshift is not a function"));
      }
      done := done + [Arr([client] + item.items)];
      i := i + 1;
    }
    assert items[..i] == items;
    return Success(done);
  }

  /** The `for…in` loop over `config.entry` (lib/core/serve.js:68-70) runs without throwing. */
  predicate CanPrepend(entry: Option<Json>) {
    match entry
    case Some(Obj(ms)) => forall i :: 0 <= i < |ms| ==> ms[i].value.Arr?
    case Some(Arr(items)) => forall i :: 0 <= i < |items| ==> items[i].Arr?
    case Some(Str(s)) => s == ""
    case _ => true
  }

  /** `after` is `entry` once every entry list has the client first; keys and order are kept. */
  predicate EntryUpdated(entry: Option<Json>, after: Option<Json>, client: Json) {
    match entry
    case Some(Obj(ms)) =>
      after.Some? && after.value.Obj? && Keys(after.value.members) == Keys(ms)
      && Prepended(Values(ms), Values(after.value.members), client)
    case Some(Arr(items)) => after.Some? && after.value.Arr? && Prepended(items, after.value.items, client)
    case _ => after == entry
  }

  /**
   * The `for (let entry in config.entry)` loop (lib/core/serve.js:68-70) on the value of
   * `config.entry`: the entries of an object or array are prepended in enumeration order;
   * a non-empty string's first character has no `unshift`; any other value has no
   * enumerable properties and is left as it is.
   */
  method PrependClient(entry: Option<Json>, client: Json) returns (r: Result<Option<Json>, JsError>)
    ensures r.Success? <==> CanPrepend(entry)
    ensures r.Success? ==> EntryUpdated(entry, r.value, client)
  {
    if entry.None? {
      return Success(entry);
    }
    match entry.value
    case Obj(ms) =>
      var vs := PrependAll(Values(ms), client);
      if vs.Failure? {
        return Failure(vs.error);
      }
      var ms' := WithValues(ms, vs.value);
      assert Values(ms') == vs.value;
      return Success(Some(Obj(ms')));
    case Arr(items) =>
      var vs := PrependAll(items, client);
      if vs.Failure? {
        return Failure(vs.error);
      }
      return Success(Some(Arr(vs.value)));
    case Str(s) =>
      if s != "" {
        return Failure(TypeError("config.entry[entry].unshift is not a function"));
      }
      return Success(entry);
    case _ =>
      return Success(entry);
  }

  /** `config.entry` written back: the loop mutates the entry object that `config` holds. */
  function WithEntry(config: Json, entry: Option<Json>): (r: Json)
    requires config.Obj? && entry.Some? == Get(config, "entry").Some?
    ensures r.Obj? && Get(r, "entry") == entry
    ensures forall k :: k != "entry" ==> Get(r, k) == Get(config, k)
  {
    if entry.Some? then Put(config, "entry", entry.value) else config
  }

  /**
   * `util.format('%s?%s=%s', config[section].host.url, config[section].host.qsKey, encoded)`:
   * the host page URL for a configuration section, or the TypeError of reading a property
   * of an undefined section or host.
   */
  function HostOf(config: Json, section: string, encoded: string): (r: Result<string, JsError>)
    ensures r.Success? <==> (Get(config, section).Some? && Get(config, section).value != Null
      && Get(Get(config, section).value, "host").Some? && Get(Get(config, section).value, "host").value != Null)
    ensures r.Success? ==>
      var host := Get(Get(config, section).value, "host").value;
      r.value == FormatS(Get(host, "url")) + "?" + FormatS(Get(host, "qsKey")) + "=" + encoded
  {
    var sec :- ReadProp(Some(config), section);
    var host :- ReadProp(sec, "host");
    if host == None || host == Some(Null) then Failure(TypeError("Cannot read property 'url' of " + FormatS(host)))
    else Success(FormatS(Get(host.value, "url")) + "?" + FormatS(Get(host.value, "qsKey")) + "=" + encoded)
  }

  /** The host lookup of lib/core/serve.js:44-49 as written: it reads `config.STACHE`. */
  function HostLookupAsWritten(config: Json, encoded: string): Result<string, JsError> {
    HostOf(config, "STACHE", encoded)
  }

  /** The host lookup meant: the section the configuration defines is `SKY_PAGES`. */
  function HostLookup(config: Json, encoded: string): Result<string, JsError> {
    HostOf(config, "SKY_PAGES", encoded)
  }

  /** The configuration `getWebpackConfig` returns without a package.json. */
  function DefaultConfig(cwd: string, dirname: string): Json {
    ServeConfig.NoPackageJsonUsesDefaults(cwd, dirname);
    ServeConfig.Expose(ServeConfig.DefaultWebpackConfig(cwd, dirname), ServeConfig.DefaultSkyPagesConfig()).value
  }

  /** The default configuration's `SKY_PAGES` section: the shell host, with an empty `config`. */
  lemma DefaultConfigSkyPages(cwd: string, dirname: string)
    ensures var c := DefaultConfig(cwd, dirname);
      c.Obj? && Get(c, "SKY_PAGES") == Some(Put(ServeConfig.DefaultSkyPagesSection(), "config", ServeConfig.DefaultSkyPagesConfig()))
  {
    ServeConfig.NoPackageJsonUsesDefaults(cwd, dirname);
  }

  /** The default configuration has no `STACHE` section. */
  lemma DefaultConfigHasNoStache(cwd: string, dirname: string)
    ensures DefaultConfig(cwd, dirname).Obj? && Get(DefaultConfig(cwd, dirname), "STACHE") == None
  {
    ServeConfig.NoPackageJsonUsesDefaults(cwd, dirname);
    ServeConfig.DefaultWebpackConfigShape(cwd, dirname);
    ServeConfig.ExposeKeeps(ServeConfig.DefaultWebpackConfig(cwd, dirname), ServeConfig.DefaultSkyPagesConfig(), "STACHE");
  }

  /** The default configuration's dev server port. */
  lemma DefaultConfigPort(cwd: string, dirname: string)
    ensures ReadProp(Get(DefaultConfig(cwd, dirname), "devServer"), "port") == Success(Some(Num(31337)))
  {
    ServeConfig.NoPackageJsonUsesDefaults(cwd, dirname);
    ServeConfig.DefaultWebpackConfigShape(cwd, dirname);
    ServeConfig.ExposeKeeps(ServeConfig.DefaultWebpackConfig(cwd, dirname), ServeConfig.DefaultSkyPagesConfig(), "devServer");
  }

  /** Without a package.json the local URL is on port 31337. */
  lemma DefaultLocalUrl()
    ensures LocalUrl(Some(Num(31337))) == "https://localhost:31337"
  {
    assert NatToString(3) == "3";
    assert NatToString(31) == "31";
    assert NatToString(313) == "313";
    assert NatToString(3133) == "3133";
    assert NatToString(31337) == "31337";
  }

  /**
   * On the default configuration the corrected host lookup finds the shell host, while the
   * lookup as written throws a TypeError (reading `host` of undefined), before the browser
   * is opened.
   */
  lemma StacheLookupFailsOnDefaultConfig(cwd: string, dirname: string, encoded: string)
    ensures HostLookupAsWritten(DefaultConfig(cwd, dirname), encoded).Failure?
    ensures HostLookupAsWritten(DefaultConfig(cwd, dirname), encoded).error.TypeError?
  {
    DefaultConfigHasNoStache(cwd, dirname);
  }

  /** A section whose host is the shell host gives the shell's host page. */
  lemma HostOfShellHost(config: Json, section: string, encoded: string)
    requires Get(config, section).Some? && Get(config, section).value != Null
    requires Get(Get(config, section).value, "host") == Some(ServeConfig.ShellHost())
    ensures HostOf(config, section, encoded) == Success("https://blackbaud-shell.azurewebsites.net/?hash=" + encoded)
  {
    var host := ServeConfig.ShellHost();
    LookupAt(host.members, "qsKey", 1);
    assert Get(host, "url") == Some(Str("https://blackbaud-shell.azurewebsites.net/"));
    assert "https://blackbaud-shell.azurewebsites.net/" + "?" + "hash" + "=" + encoded
      == "https://blackbaud-shell.azurewebsites.net/?hash=" + encoded;
  }

  lemma HostLookupSucceedsOnDefaultConfig(cwd: string, dirname: string, encoded: string)
    ensures HostLookup(DefaultConfig(cwd, dirname), encoded) == Success("https://blackbaud-shell.azurewebsites.net/?hash=" + encoded)
  {
    DefaultConfigSkyPages(cwd, dirname);
    ServeConfig.DefaultSkyPagesHost(ServeConfig.DefaultSkyPagesConfig());
    HostOfShellHost(DefaultConfig(cwd, dirname), "SKY_PAGES", encoded);
  }

  /** What the serve command calls into: webpack, the dev server and the browser. */
  datatype ServeEffect =
    | WebpackCall(config: Json)
    | ListenCall(port: Option<Json>)
    | OpenCall(url: string)

  /** The module-level state of lib/core/serve.js:12-14, with the log and the calls made. */
  class DevServer {
    var compileDoneOnce: bool
    var noAutoOpen: Option<Json>
    var url: string
    var log: seq<LogEntry>
    var effects: seq<ServeEffect>

    constructor ()
      ensures !compileDoneOnce && log == [] && effects == []
    {
      compileDoneOnce := false;
      noAutoOpen := None;
      url := "undefined";
      log, effects := [], [];
    }

    /**
     * `serve(argv, webpack, WebpackDevServer)` (lib/core/serve.js:60-78) on the value its
     * `getWebpackConfig()` call gives: the local URL, the auto-open flag and the latch are
     * set before the entries are prepended, and webpack runs on the updated configuration
     * before the server listens on the configured port.
     */
    method Serve(argv: Argv, config: Result<Json, JsError>) returns (thrown: Option<JsError>)
      requires config.Success? ==> config.value.Obj?
      modifies this
      ensures log == old(log)
      ensures config.Failure? ==> (thrown == Some(config.error) && effects == old(effects)
        && url == old(url) && noAutoOpen == old(noAutoOpen) && compileDoneOnce == old(compileDoneOnce))
      ensures config.Success? && ReadProp(Get(config.value, "devServer"), "port").Failure? ==>
        (thrown == Some(ReadProp(Get(config.value, "devServer"), "port").error) && effects == old(effects)
        && url == old(url) && noAutoOpen == old(noAutoOpen) && compileDoneOnce == old(compileDoneOnce))
      ensures config.Success? && ReadProp(Get(config.value, "devServer"), "port").Success? ==>
        var c, port := config.value, ReadProp(Get(config.value, "devServer"), "port").value;
        && url == LocalUrl(port) && noAutoOpen == Flag(argv, "noAutoOpen") && !compileDoneOnce
        && (thrown.None? <==> CanPrepend(Get(c, "entry")))
        && (thrown.Some? ==> effects == old(effects))
        && (thrown.None? ==> Served(old(effects), effects, c, port, Str(ClientPrefix + url)))
    {
      if config.Failure? {
        return Some(config.error);
      }
      var c := config.value;
      var port := ReadProp(Get(c, "devServer"), "port");
      if port.Failure? {
        return Some(port.error);
      }
      url := LocalUrl(port.value);
      noAutoOpen := Flag(argv, "noAutoOpen");
      compileDoneOnce := false;
      var entry := PrependClient(Get(c, "entry"), Str(ClientPrefix + url));
      if entry.Failure? {
        return Some(entry.error);
      }
      effects := effects + [WebpackCall(WithEntry(c, entry.value)), ListenCall(port.value)];
      thrown := None;
    }

    /**
     * `onCompilerDone(stats)` (lib/core/serve.js:32-54) with the corrected host lookup, on
     * the value its own `getWebpackConfig()` call gives and the encoded assets of `stats`.
     * Only the first call after `serve` does anything: it logs the local URL, closes the
     * latch and, unless `--noAutoOpen` is set, opens the local URL in a browser.
     */
    method OnCompilerDone(config: Result<Json, JsError>, encoded: string) returns (thrown: Option<JsError>)
      requires config.Success? ==> config.value.Obj?
      modifies this
      ensures noAutoOpen == old(noAutoOpen) && url == old(url)
      ensures old(compileDoneOnce) ==> thrown.None? && compileDoneOnce && log == old(log) && effects == old(effects)
      ensures !old(compileDoneOnce) && config.Failure? ==>
        thrown == Some(config.error) && !compileDoneOnce && log == old(log) && effects == old(effects)
      ensures !old(compileDoneOnce) && config.Success? ==>
        && compileDoneOnce
        && log == old(log) + [LogInfo(Str("Local instance available at " + url))]
        && (Truthy(noAutoOpen) ==> thrown.None? && effects == old(effects))
        && (!Truthy(noAutoOpen) && HostLookup(config.value, encoded).Failure? ==>
              thrown == Some(HostLookup(config.value, encoded).error) && effects == old(effects))
        && (!Truthy(noAutoOpen) && HostLookup(config.value, encoded).Success? ==>
              thrown.None? && effects == old(effects) + [OpenCall(url)])
    {
      if compileDoneOnce {
        return None;
      }
      if config.Failure? {
        return Some(config.error);
      }
      log := log + [LogInfo(Str("Local instance available at " + url))];
      compileDoneOnce := true;
      if !Truthy(noAutoOpen) {
        var host := HostLookup(config.value, encoded);
        if host.Failure? {
          return Some(host.error);
        }
        effects := effects + [OpenCall(url)];
      }
      thrown := None;
    }

    /** `onServerListen(err)` (lib/core/serve.js:21-25): a truthy error is logged. */
    method OnServerListen(err: Option<Json>)
      modifies this
      ensures compileDoneOnce == old(compileDoneOnce) && noAutoOpen == old(noAutoOpen) && url == old(url)
      ensures effects == old(effects)
      ensures log == old(log) + (if Truthy(err) then [LogError(err.value)] else [])
    {
      if Truthy(err) {
        log := log + [LogError(err.value)];
      }
    }
  }

  /**
   * `after` is `before` with the webpack call on the updated configuration and then the
   * listen call on the configured port.
   */
  ghost predicate Served(before: seq<ServeEffect>, after: seq<ServeEffect>, config: Json, port: Option<Json>, client: Json)
    requires config.Obj?
  {
    && |after| == |before| + 2 && after[..|before|] == before
    && after[|before| + 1] == ListenCall(port)
    && after[|before|].WebpackCall?
    && var compiled := after[|before|].config;
    && compiled.Obj?
    && EntryUpdated(Get(config, "entry"), Get(compiled, "entry"), client)
    && forall k :: k != "entry" ==> Get(compiled, k) == Get(config, k)
  }
}
