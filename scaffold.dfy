/**
 * lib/new.js, `skyux new`: asks for a SPA name and a repository URL, clones the
 * repository and a SKY UX template, rewrites the template's package.json with the latest
 * package versions, switches to a branch and installs the dependencies. The rules are pure
 * functions; the module-level `settings` object and the Promise pipeline are a class.
 */
module Scaffold {
  import opened Wrappers
  import opened Strings
  import opened JsValue
  import opened Prompt

  /** The frozen `{name, url}` record of the template to clone. */
  datatype Template = Template(name: string, url: string)

  const TemplateBaseUrl := "https://github.com/blackbaud/skyux-template"

  /**
   * `getTemplateFromArgs(args)` (lib/new.js:278-298), with its write `args.template = args.t`
   * returned as the updated argument vector. `t` overrides `template`; a string holding a
   * colon is the URL itself, any other string names a template under the base URL, and
   * anything else (no flag, or a bare `--template`) selects the default template.
   */
  function GetTemplateFromArgs(args: Argv): (r: (Template, Argv))
    ensures r.1.positional == args.positional
    ensures forall n :: Flag(r.1, n) == if n == "template" && Truthy(Flag(args, "t")) then Flag(args, "t") else Flag(args, n)
    ensures var chosen := if Truthy(Flag(args, "t")) then Flag(args, "t") else Flag(args, "template");
      match chosen
      case Some(Str(s)) => r.0.name == s && r.0.url == (if Contains(s, ":") then s else TemplateBaseUrl + "-" + s)
      case _ => r.0 == Template("default", TemplateBaseUrl)
  {
    var args' := if Truthy(Flag(args, "t")) then SetFlag(args, "template", Flag(args, "t").value) else args;
    var t := Flag(args', "template");
    IndexOfSpec(if t.Some? && t.value.Str? then t.value.s else "", ":");
    if t.Some? && t.value.Str? then
      var s := t.value.s;
      (Template(s, if IndexOf(s, ":") > -1 then s else TemplateBaseUrl + "-" + s), args')
    else (Template("default", TemplateBaseUrl), args')
  }

  /** `indexOf` finds a colon exactly when the string holds one. */
  lemma IndexOfSpec(s: string, t: string)
    ensures IndexOf(s, t) > -1 <==> Contains(s, t)
  {
  }

  /** `getPackageName(name)` (lib/new.js:258-271) under the current template's name. */
  function GetPackageName(templateName: string, name: string): string {
    "skyux-" + (if templateName == "library" then "lib" else "spa") + "-" + name
  }

  /** The library template prefixes `skyux-lib-`, every other one `skyux-spa-`; the name ends it. */
  lemma PackageNameShape(templateName: string, name: string)
    ensures var p := GetPackageName(templateName, name);
      && (templateName == "library" ==> p == "skyux-lib-" + name)
      && (templateName != "library" ==> p == "skyux-spa-" + name)
      && |p| == 10 + |name| && p[10..] == name
  {
  }

  /** Under one template, distinct SPA names give distinct package names. */
  lemma PackageNameInjective(templateName: string, a: string, b: string)
    requires GetPackageName(templateName, a) == GetPackageName(templateName, b)
    ensures a == b
  {
    PackageNameShape(templateName, a);
    PackageNameShape(templateName, b);
  }

  /** A character of `[a-z0-9\-]`. */
  predicate IsSpaNameChar(c: char) {
    'a' <= c <= 'z' || '0' <= c <= '9' || c == '-'
  }

  /** `value.match(/^[a-z0-9\-]*$/)` succeeds: without the `m` flag `$` is the end of input. */
  predicate MatchesSpaNamePattern(s: string) {
    forall i :: 0 <= i < |s| ==> IsSpaNameChar(s[i])
  }

  /** What the name validator makes of a value. */
  datatype NameCheck =
    | Accepted
    | InvalidName      // empty, or a character outside [a-z0-9-]
    | DirectoryExists  // `./<package name>` already exists
    | NotAString       // a truthy non-string: `value.match` is not a function

  /**
   * The validator of `promptForName` (lib/new.js:210-225), with `fs.existsSync` as
   * `dirExists`. Every outcome but Accepted is a thrown error.
   */
  function ValidateName(value: Json, templateName: string, dirExists: string -> bool): (r: NameCheck)
    ensures r == Accepted <==>
      value.Str? && value.s != "" && MatchesSpaNamePattern(value.s)
      && !dirExists(PathJoin(".", GetPackageName(templateName, value.s)))
    ensures r == InvalidName <==> !Truthy(Some(value)) || (value.Str? && !MatchesSpaNamePattern(value.s))
  {
    if !Truthy(Some(value)) then InvalidName
    else if !value.Str? then NotAString
    else if !MatchesSpaNamePattern(value.s) then InvalidName
    else if dirExists(PathJoin(".", GetPackageName(templateName, value.s))) then DirectoryExists
    else Accepted
  }

  /** An accepted name gives a package name that is a single path segment under the cwd. */
  lemma AcceptedNameIsOneSegment(value: Json, templateName: string, dirExists: string -> bool)
    requires ValidateName(value, templateName, dirExists) == Accepted
    ensures var p := GetPackageName(templateName, value.s);
      PathJoin(".", p) == p && forall i :: 0 <= i < |p| ==> p[i] != '/' && p[i] != ' '
  {
    var p := GetPackageName(templateName, value.s);
    PackageNameShape(templateName, value.s);
    forall i | 0 <= i < |p| ensures p[i] != '/' && p[i] != ' ' {
      if i >= 10 { assert p[i] == value.s[i - 10]; }
    }
  }

  /** An entry the emptiness check ignores: its name holds ".git" or "README.md". */
  predicate Ignorable(file: string) {
    Contains(file, ".git") || Contains(file, "README.md")
  }

  /** The repository counts as empty when every entry is ignorable. */
  predicate RepoIsEmpty(files: seq<string>) {
    forall i :: 0 <= i < |files| ==> Ignorable(files[i])
  }

  /** `isRepoEmpty(dir)` (lib/new.js:34-43) on the listing `fs.readdirSync(dir)` returns. */
  method IsRepoEmpty(files: seq<string>) returns (isEmpty: bool)
    ensures isEmpty <==> RepoIsEmpty(files)
  {
    isEmpty := true;
    var i := 0;
    while i < |files|
      invariant 0 <= i <= |files|
      invariant isEmpty <==> forall j :: 0 <= j < i ==> Ignorable(files[j])
    {
      var file := files[i];
      IndexOfSpec(file, ".git");
      IndexOfSpec(file, "README.md");
      if IndexOf(file, ".git") == -1 && IndexOf(file, "README.md") == -1 {
        isEmpty := false;
      }
      i := i + 1;
    }
  }

  /** The matching is by substring: ".gitignore" is ignorable, "repo-not-empty" is not. */
  lemma EmptinessIsBySubstring()
    ensures RepoIsEmpty([".git", "README.md", ".gitignore"])
    ensures !RepoIsEmpty([".git", "README.md", ".gitignore", "repo-not-empty"])
  {
    assert OccursAt(".git", ".git", 0);
    assert OccursAt("README.md", "README.md", 0);
    assert OccursAt(".gitignore", ".git", 0);
    var f := "repo-not-empty";
    forall i | 0 <= i <= |f| ensures !OccursAt(f, ".git", i) && !OccursAt(f, "README.md", i) {
      if i < |f| {
        assert f[i] != '.' && f[i] != 'R';
        if i + 4 <= |f| { assert f[i..i + 4][0] == f[i]; }
        if i + 9 <= |f| { assert f[i..i + 9][0] == f[i]; }
      }
    }
    assert !Ignorable(f);
    assert !Ignorable([".git", "README.md", ".gitignore", "repo-not-empty"][3]);
  }

  const SkyuxPackage := "@blackbaud/skyux"
  const BuilderPackage := "@blackbaud/skyux-builder"

  /**
   * `o.k = o.k || {}`: a falsy map is replaced by a new empty one. The result is always
   * truthy, and it is an object unless a truthy primitive was there already.
   */
  function OrEmpty(v: Option<Json>): (r: Json)
    ensures Truthy(Some(r))
    ensures Truthy(v) ==> r == v.value
    ensures !Truthy(v) ==> r == Obj([])
    ensures r.Obj? <==> !Truthy(v) || v.value.Obj?
  {
    if Truthy(v) then v.value else Obj([])
  }

  /** `m[k] = v` on a map that must be an object; writing to a primitive throws in strict mode. */
  function SetEntry(m: Json, k: string, v: Json): (r: Result<Json, JsError>)
    ensures r.Success? <==> m.Obj?
    ensures r.Success? ==> r.value == Put(m, k, v)
  {
    if m.Obj? then Success(Put(m, k, v))
    else Failure(TypeError("Cannot create property '" + k + "' on " + FormatS(Some(m))))
  }

  /**
   * `delete m[k]`: removes the entry of an object and keeps every other one; a primitive
   * has no such property to delete and stays as it is.
   */
  function DeleteEntry(m: Json, k: string): (r: Json)
    ensures r.Obj? == m.Obj?
    ensures Get(r, k) == None
    ensures forall k2 :: k2 != k ==> Get(r, k2) == Get(m, k2)
    ensures m.Obj? ==> r == Delete(m, k)
    ensures !m.Obj? ==> r == m
  {
    if m.Obj? then Delete(m, k) else m
  }

  /**
   * The dependency maps once `cleanupTemplate` has written the SKY UX packages into them
   * (lib/new.js:96-105), as (dependencies, devDependencies, peerDependencies). The library
   * template writes `peerDependencies` first and `devDependencies` second; the others write
   * `dependencies` and then `devDependencies`.
   */
  function RewriteDependencies(templateName: string, deps: Json, dev: Json, peer: Json, skyux: Json, builder: Json)
    : (r: Result<(Json, Json, Json), JsError>)
    ensures r.Success? <==> dev.Obj? && (if templateName == "library" then peer.Obj? else deps.Obj?)
    ensures r.Success? ==> r.value.0.Obj? == deps.Obj? && r.value.1.Obj? && r.value.2.Obj? == peer.Obj?
  {
    if templateName == "library" then
      var peer' :- SetEntry(peer, SkyuxPackage, Str("^" + FormatS(Some(skyux))));
      var dev' :- SetEntry(dev, SkyuxPackage, skyux);
      Success((DeleteEntry(deps, SkyuxPackage), Put(dev', BuilderPackage, builder), peer'))
    else
      var deps' :- SetEntry(deps, SkyuxPackage, skyux);
      var dev' :- SetEntry(dev, BuilderPackage, builder);
      Success((deps', dev', peer))
  }

  /** `fs.readJsonSync` result `pj` after the `x = x || {}` defaults (lib/new.js:93-95). */
  function DefaultedMap(pj: Json, k: string): Json {
    OrEmpty(Get(pj, k))
  }

  /**
   * The in-place package.json rewrite of `cleanupTemplate` (lib/new.js:92-113) on the parsed
   * manifest `pj`, for the template `templateName`, with `settings.name` as `name`,
   * `settings.url` as `url` and the two latest versions. Strict mode makes every write to a
   * primitive, and every read of a property of null, a TypeError.
   */
  function CleanupPackageJson(pj: Json, templateName: string, name: string, url: Json, skyux: Json, builder: Json)
    : (r: Result<Json, JsError>)
  {
    if !pj.Obj? then Failure(TypeError("Cannot set property 'dependencies' of " + FormatS(Some(pj))))
    else
      var maps :- RewriteDependencies(templateName, DefaultedMap(pj, "dependencies"),
        DefaultedMap(pj, "devDependencies"), DefaultedMap(pj, "peerDependencies"), skyux, builder);
      Success(WithIdentity(WithMaps(pj, maps), name, url))
  }

  /** The three `x = x || {}` writes, with the rewritten maps as their final values. */
  function WithMaps(pj: Json, maps: (Json, Json, Json)): (r: Json)
    requires pj.Obj?
    ensures r.Obj?
    ensures Get(r, "dependencies") == Some(maps.0)
    ensures Get(r, "devDependencies") == Some(maps.1)
    ensures Get(r, "peerDependencies") == Some(maps.2)
    ensures forall k :: k != "dependencies" && k != "devDependencies" && k != "peerDependencies" ==> Get(r, k) == Get(pj, k)
  {
    Put(Put(Put(pj, "dependencies", maps.0), "devDependencies", maps.1), "peerDependencies", maps.2)
  }

  /** The `name`, `description` and `repository` writes (lib/new.js:107-112). */
  function WithIdentity(o: Json, name: string, url: Json): (r: Json)
    requires o.Obj?
    ensures r.Obj?
    ensures Get(r, "name") == Some(Str("blackbaud-" + name))
    ensures Get(r, "description") == Some(Str("Single-page-application for " + name))
    ensures Get(r, "repository") == Some(Obj([Member("type", Str("git")), Member("url", url)]))
    ensures forall k :: k != "name" && k != "description" && k != "repository" ==> Get(r, k) == Get(o, k)
    ensures Get(r, "dependencies") == Get(o, "dependencies")
    ensures Get(r, "devDependencies") == Get(o, "devDependencies")
    ensures Get(r, "peerDependencies") == Get(o, "peerDependencies")
  {
    Put(Put(Put(o, "name", Str("blackbaud-" + name)),
      "description", Str("Single-page-application for " + name)),
      "repository", Obj([Member("type", Str("git")), Member("url", url)]))
  }

  /** `m` is `base` with `k` set to `v` and nothing else changed. */
  ghost predicate SetsOnly(m: Json, base: Json, k: string, v: Json) {
    m.Obj? && Get(m, k) == Some(v) && forall k2 :: k2 != k ==> Get(m, k2) == Get(base, k2)
  }

  /** When the rewrite fails: the manifest is not an object, or a map it writes to is a primitive. */
  lemma CleanupSucceedsIff(pj: Json, templateName: string, name: string, url: Json, skyux: Json, builder: Json)
    ensures CleanupPackageJson(pj, templateName, name, url, skyux, builder).Success? <==>
      pj.Obj? && DefaultedMap(pj, "devDependencies").Obj?
      && (if templateName == "library" then DefaultedMap(pj, "peerDependencies").Obj?
          else DefaultedMap(pj, "dependencies").Obj?)
  {
  }

  /** The maps a successful `RewriteDependencies` returns, key by key. */
  lemma RewriteDependenciesContents(templateName: string, deps: Json, dev: Json, peer: Json, skyux: Json, builder: Json)
    requires RewriteDependencies(templateName, deps, dev, peer, skyux, builder).Success?
    ensures var maps := RewriteDependencies(templateName, deps, dev, peer, skyux, builder).value;
      && maps.1.Obj? && Get(maps.1, BuilderPackage) == Some(builder)
      && (templateName == "library" ==>
            && SetsOnly(maps.2, peer, SkyuxPackage, Str("^" + FormatS(Some(skyux))))
            && Get(maps.1, SkyuxPackage) == Some(skyux)
            && (forall k :: k != SkyuxPackage && k != BuilderPackage ==> Get(maps.1, k) == Get(dev, k))
            && Get(maps.0, SkyuxPackage) == None
            && (forall k :: k != SkyuxPackage ==> Get(maps.0, k) == Get(deps, k)))
      && (templateName != "library" ==>
            && SetsOnly(maps.0, deps, SkyuxPackage, skyux)
            && SetsOnly(maps.1, dev, BuilderPackage, builder)
            && maps.2 == peer)
  {
  }

  /** The rewritten dependency maps end up in the manifest. */
  lemma CleanupWritesMaps(pj: Json, templateName: string, name: string, url: Json, skyux: Json, builder: Json)
    requires CleanupPackageJson(pj, templateName, name, url, skyux, builder).Success?
    ensures var out := CleanupPackageJson(pj, templateName, name, url, skyux, builder).value;
      var maps := RewriteDependencies(templateName, DefaultedMap(pj, "dependencies"),
        DefaultedMap(pj, "devDependencies"), DefaultedMap(pj, "peerDependencies"), skyux, builder);
      && maps.Success?
      && out.Obj?
      && Get(out, "dependencies") == Some(maps.value.0)
      && Get(out, "devDependencies") == Some(maps.value.1)
      && Get(out, "peerDependencies") == Some(maps.value.2)
  {
    var maps := RewriteDependencies(templateName, DefaultedMap(pj, "dependencies"),
      DefaultedMap(pj, "devDependencies"), DefaultedMap(pj, "peerDependencies"), skyux, builder).value;
    var w := WithMaps(pj, maps);
    assert CleanupPackageJson(pj, templateName, name, url, skyux, builder).value == WithIdentity(w, name, url);
  }

  /** The manifest is renamed after the SPA and points at the SPA's repository. */
  lemma CleanupWritesIdentity(pj: Json, templateName: string, name: string, url: Json, skyux: Json, builder: Json)
    requires CleanupPackageJson(pj, templateName, name, url, skyux, builder).Success?
    ensures var out := CleanupPackageJson(pj, templateName, name, url, skyux, builder).value;
      && Get(out, "name") == Some(Str("blackbaud-" + name))
      && Get(out, "description") == Some(Str("Single-page-application for " + name))
      && Get(out, "repository") == Some(Obj([Member("type", Str("git")), Member("url", url)]))
  {
    var maps := RewriteDependencies(templateName, DefaultedMap(pj, "dependencies"),
      DefaultedMap(pj, "devDependencies"), DefaultedMap(pj, "peerDependencies"), skyux, builder).value;
    assert CleanupPackageJson(pj, templateName, name, url, skyux, builder).value == WithIdentity(WithMaps(pj, maps), name, url);
  }

  /** A successful rewrite keeps every other top-level property of the manifest. */
  predicate Rewritten(k: string) {
    k in ["dependencies", "devDependencies", "peerDependencies", "name", "description", "repository"]
  }

  lemma CleanupKeepsOtherKeys(pj: Json, templateName: string, name: string, url: Json, skyux: Json, builder: Json, k: string)
    requires CleanupPackageJson(pj, templateName, name, url, skyux, builder).Success?
    requires !Rewritten(k)
    ensures Get(CleanupPackageJson(pj, templateName, name, url, skyux, builder).value, k) == Get(pj, k)
  {
    var maps := RewriteDependencies(templateName, DefaultedMap(pj, "dependencies"),
      DefaultedMap(pj, "devDependencies"), DefaultedMap(pj, "peerDependencies"), skyux, builder).value;
    assert Get(WithIdentity(WithMaps(pj, maps), name, url), k) == Get(WithMaps(pj, maps), k);
  }

  /** The last path segment a SPA's temporary template clone goes to (lib/new.js:236-237). */
  lemma TemplateCloneInsideSpa(templateName: string, spa: string)
    ensures var path := PathJoin(".", GetPackageName(templateName, spa));
      PathJoin(path, "tmp") == path + "/tmp" && path != "" && path != "."
  {
    PackageNameShape(templateName, spa);
  }

  /** The rejection reasons the pipeline produces itself. */
  const NotEmptyMessage := "skyux new only works with empty repositories."
  const CheckoutFailedMessage := "Switching to branch initial-commit failed."
  const NpmInstallFailedMessage := "npm install failed."

  /**
   * What the outside world answers: `fs.existsSync`, `git-clone`'s callback error (falsy on
   * success), `fs.readdirSync`, the two `latest-version` lookups (or the first rejection),
   * `fs.readJsonSync` (or what it throws), the error of the write/remove/copy/remove block if
   * any, and the exit codes of `git checkout` and `npm install`.
   */
  datatype Env = Env(
    dirExists: string -> bool,
    clone: (Json, string) -> Json,
    readdir: string -> seq<string>,
    versions: Result<(Json, Json), Json>,
    readJson: string -> Result<Json, Json>,
    persistError: Option<Json>,
    checkoutExit: int,
    npmExit: int)

  /** The calls the pipeline makes into the outside world, in order. */
  datatype Effect =
    | CloneCall(url: Json, dest: string)
    | InstallTemplate(packagePath: string, manifest: Json, from: string, to: string)
    | CheckoutCall(cwd: string)
    | NpmInstallCall(cwd: string)

  /** How a step's Promise settles. */
  datatype Status = Resolved | Rejected(reason: Json)

  datatype Step = NameStep | UrlStep | CloneRepoStep | CloneTemplateStep | VersionsStep
    | CleanupStep | CheckoutStep | NpmInstallStep | NotifyStep

  /** The `.then` chain of the entry point (lib/new.js:312-320). */
  const Plan: seq<Step> := [NameStep, UrlStep, CloneRepoStep, CloneTemplateStep, VersionsStep,
    CleanupStep, CheckoutStep, NpmInstallStep, NotifyStep]

  /** How `skyux new` ends: finished, rejected (and logged), or waiting on a prompt. */
  datatype Outcome = Finished | Failed(reason: Json) | AwaitingInput

  /** The name the line prompt accepts: the validator does not throw. */
  function AcceptName(templateName: string, dirExists: string -> bool): string -> bool {
    (l: string) => ValidateName(Str(l), templateName, dirExists) == Accepted
  }

  /** `es` starts with `prefix`: effects are only ever appended. */
  predicate Extends(es: seq<Effect>, prefix: seq<Effect>) {
    |prefix| <= |es| && es[..|prefix|] == prefix
  }

  /** No effect in `es` touches a repository: no checkout, and no clone but the template's. */
  predicate RepoFree(es: seq<Effect>, templateClone: Effect) {
    forall i :: 0 <= i < |es| ==> !es[i].CheckoutCall? && (es[i].CloneCall? ==> es[i] == templateClone)
  }

  /** Repository-free effects followed by repository-free effects. */
  lemma RepoFreeAppend(a: seq<Effect>, b: seq<Effect>, templateClone: Effect)
    requires RepoFree(a, templateClone) && RepoFree(b, templateClone)
    ensures RepoFree(a + b, templateClone)
  {
    forall i | |a| <= i < |a + b| ensures (a + b)[i] == b[i - |a|] {}
  }

  /**
   * The name `promptForName(args)` settles on and the input lines it leaves: a valid
   * `--name` without reading a line, otherwise the first line the validator accepts.
   */
  function NameAnswer(args: Argv, lines: seq<string>, templateName: string, dirExists: string -> bool): Answer {
    var v := Flag(args, "name");
    if Truthy(v) && ValidateName(v.value, templateName, dirExists) == Accepted then Answered(v.value.s, lines)
    else AskUntil(lines, AcceptName(templateName, dirExists))
  }

  /** The name settled on is one the validator accepts; none is when no input validates. */
  lemma NameAnswerAccepted(args: Argv, lines: seq<string>, templateName: string, dirExists: string -> bool)
    ensures var a := NameAnswer(args, lines, templateName, dirExists);
      && (a.Answered? ==> ValidateName(Str(a.value), templateName, dirExists) == Accepted)
      && (a.Waiting? <==>
            !(Truthy(Flag(args, "name")) && ValidateName(Flag(args, "name").value, templateName, dirExists) == Accepted)
            && forall i :: 0 <= i < |lines| ==> ValidateName(Str(lines[i]), templateName, dirExists) != Accepted)
  {
    var a := NameAnswer(args, lines, templateName, dirExists);
    var v := Flag(args, "name");
    if !(Truthy(v) && ValidateName(v.value, templateName, dirExists) == Accepted) {
      var accept := AcceptName(templateName, dirExists);
      assert forall i :: 0 <= i < |lines| ==> (accept(lines[i]) <==> ValidateName(Str(lines[i]), templateName, dirExists) == Accepted);
    }
  }

  /** What `promptForUrl(args)` settles on: a URL and the lines left, or still waiting. */
  datatype UrlReply = UrlGiven(url: Json, rest: seq<string>) | UrlWaiting

  function UrlAnswer(args: Argv, lines: seq<string>): UrlReply {
    var repo := Flag(args, "repo");
    if repo == Some(Bool(false)) then UrlGiven(Str(""), lines)
    else if Truthy(repo) then UrlGiven(repo.value, lines)
    else match Ask(lines, "")
      case Waiting => UrlWaiting
      case Answered(value, rest) => UrlGiven(Str(value), rest)
  }

  /** Only the line prompt waits, and only when no line is left; a flag reads no line. */
  lemma UrlAnswerWaitsOnlyForInput(args: Argv, lines: seq<string>)
    ensures var repo := Flag(args, "repo"); var a := UrlAnswer(args, lines);
      && (a.UrlWaiting? <==> repo != Some(Bool(false)) && !Truthy(repo) && lines == [])
      && (repo == Some(Bool(false)) || Truthy(repo) ==> a.UrlGiven? && a.rest == lines)
      && (a.UrlGiven? && a.rest != lines ==> a.rest == lines[1..] && a.url == Str(if lines[0] == "" then "" else lines[0]))
  {
  }

  datatype SettingsView = SettingsView(template: Template, spa: string, name: string, path: string, pathTmp: string, url: Json)

  /** How one step's Promise settles and the calls it makes, once the prompts are answered. */
  datatype StepRun = StepRun(status: Status, effects: seq<Effect>)

  /** `cloneRepo()` (lib/new.js:156-180) on the settings `v`. */
  function RepoOutcome(v: SettingsView, env: Env): StepRun {
    if !Truthy(Some(v.url)) then StepRun(Resolved, [])
    else
      var err := env.clone(v.url, v.path);
      StepRun(if Truthy(Some(err)) then Rejected(err)
              else if !RepoIsEmpty(env.readdir(v.path)) then Rejected(Str(NotEmptyMessage))
              else Resolved,
        [CloneCall(v.url, v.path)])
  }

  /** `cloneTemplate()` (lib/new.js:135-150) on the settings `v`. */
  function TemplateOutcome(v: SettingsView, env: Env): StepRun {
    var err := env.clone(Str(v.template.url), v.pathTmp);
    StepRun(if Truthy(Some(err)) then Rejected(err) else Resolved, [CloneCall(Str(v.template.url), v.pathTmp)])
  }

  /** `getLatestVersions()` (lib/new.js:78-81). */
  function VersionsOutcome(env: Env): StepRun {
    StepRun(if env.versions.Failure? then Rejected(env.versions.error) else Resolved, [])
  }

  /** `cleanupTemplate(skyux, builder)` (lib/new.js:87-129) on the settings `v`. */
  function CleanupOutcome(v: SettingsView, env: Env, skyux: Json, builder: Json): StepRun {
    var packagePath := PathJoin(v.pathTmp, "package.json");
    match env.readJson(packagePath)
    case Failure(e) => StepRun(Rejected(e), [])
    case Success(pj) =>
      match CleanupPackageJson(pj, v.template.name, v.name, v.url, skyux, builder)
      case Failure(e) => StepRun(Rejected(ErrorValue(e)), [])
      case Success(out) =>
        StepRun(if env.persistError.Some? then Rejected(env.persistError.value) else Resolved,
          [InstallTemplate(packagePath, out, v.pathTmp, v.path)])
  }

  /** The cleanup step as the chain runs it: with the versions the step before resolved to. */
  function CleanupStepOutcome(v: SettingsView, env: Env): StepRun {
    match env.versions
    case Failure(e) => StepRun(Rejected(e), [])
    case Success(vs) => CleanupOutcome(v, env, vs.0, vs.1)
  }

  /** `checkoutBranch()` (lib/new.js:49-73) on the settings `v`. */
  function CheckoutOutcome(v: SettingsView, env: Env): StepRun {
    if !Truthy(Some(v.url)) then StepRun(Resolved, [])
    else StepRun(if env.checkoutExit != 0 then Rejected(Str(CheckoutFailedMessage)) else Resolved, [CheckoutCall(v.path)])
  }

  /** `npmInstall(settings)` (lib/npm-install.js:11-34) on the settings `v`. */
  function NpmOutcome(v: SettingsView, env: Env): StepRun {
    StepRun(if env.npmExit != 0 then Rejected(Str(NpmInstallFailedMessage)) else Resolved, [NpmInstallCall(v.path)])
  }

  /** The outcomes of the steps after the prompts and before `notify` (lib/new.js:314-319). */
  function CloneOutcomes(v: SettingsView, env: Env): seq<StepRun> {
    [RepoOutcome(v, env), TemplateOutcome(v, env)]
  }

  function InstallOutcomes(v: SettingsView, env: Env): seq<StepRun> {
    [VersionsOutcome(env), CleanupStepOutcome(v, env), CheckoutOutcome(v, env), NpmOutcome(v, env)]
  }

  function WorkOutcomes(v: SettingsView, env: Env): seq<StepRun> {
    CloneOutcomes(v, env) + InstallOutcomes(v, env)
  }

  /** How a run of consecutive steps settles, how many were started, and their calls. */
  datatype ChainRun = ChainRun(status: Status, ran: nat, effects: seq<Effect>)

  /**
   * A Promise chain: each step starts once the ones before it resolved, and a rejection
   * skips the rest.
   */
  function RunChain(steps: seq<StepRun>): ChainRun
    decreases |steps|
  {
    if steps == [] then ChainRun(Resolved, 0, []) else Then(RunChain(steps[..|steps| - 1]), steps[|steps| - 1])
  }

  /** The chain so far followed by one more `.then` step. */
  function Then(c: ChainRun, next: StepRun): ChainRun {
    if c.status.Rejected? then c else ChainRun(next.status, c.ran + 1, c.effects + next.effects)
  }

  /** Chains of two and of four steps written out. */
  lemma RunChain2(a: StepRun, b: StepRun)
    ensures RunChain([a, b]) == Then(Then(ChainRun(Resolved, 0, []), a), b)
  {
    assert [a, b][..1] == [a] && [a][..0] == [];
    assert RunChain([a]) == Then(ChainRun(Resolved, 0, []), a);
  }

  lemma RunChain4(a: StepRun, b: StepRun, c: StepRun, d: StepRun)
    ensures RunChain([a, b, c, d]) == Then(Then(Then(Then(ChainRun(Resolved, 0, []), a), b), c), d)
  {
    assert [a, b, c, d][..3] == [a, b, c] && [a, b, c][..2] == [a, b] && [a, b][..1] == [a] && [a][..0] == [];
    assert RunChain([a]) == Then(ChainRun(Resolved, 0, []), a);
    assert RunChain([a, b]) == Then(RunChain([a]), b);
    assert RunChain([a, b, c]) == Then(RunChain([a, b]), c);
  }

  /** The calls of the given steps, each run on its own. */
  function EffectsOf(steps: seq<StepRun>): seq<Effect>
    decreases |steps|
  {
    if steps == [] then [] else EffectsOf(steps[..|steps| - 1]) + steps[|steps| - 1].effects
  }

  /**
   * The chain stops at the first step that rejects, with that step's reason; it resolves
   * exactly when every step does; and its calls are those of the steps it started.
   */
  lemma {:induction false} RunChainStopsAtFirstRejection(steps: seq<StepRun>)
    ensures var c := RunChain(steps);
      && c.ran <= |steps|
      && c.effects == EffectsOf(steps[..c.ran])
      && (c.status.Resolved? <==> forall i :: 0 <= i < |steps| ==> steps[i].status.Resolved?)
      && (c.status.Resolved? ==> c.ran == |steps|)
      && (c.status.Rejected? ==>
            && 1 <= c.ran
            && steps[c.ran - 1].status == c.status
            && forall i :: 0 <= i < c.ran - 1 ==> steps[i].status.Resolved?)
    decreases |steps|
  {
    if steps != [] {
      var init := steps[..|steps| - 1];
      RunChainStopsAtFirstRejection(init);
      var p := RunChain(init);
      assert forall i :: 0 <= i < |init| ==> init[i] == steps[i];
      assert steps[..p.ran] == init[..p.ran];
      if p.status.Resolved? {
        assert steps[..p.ran + 1][..p.ran] == init && steps[..p.ran + 1] == steps;
      }
    }
  }

  /** Running two stretches of the chain one after the other is running them as one. */
  lemma {:induction false} RunChainConcat(a: seq<StepRun>, b: seq<StepRun>)
    ensures var ca := RunChain(a); var cb := RunChain(b);
      RunChain(a + b) == if ca.status.Rejected? then ca else ChainRun(cb.status, ca.ran + cb.ran, ca.effects + cb.effects)
    decreases |b|
  {
    if b == [] {
      assert a + b == a;
    } else {
      var init := b[..|b| - 1];
      assert (a + b)[..|a + b| - 1] == a + init;
      assert (a + b)[|a + b| - 1] == b[|b| - 1];
      RunChainConcat(a, init);
      var ca, ci := RunChain(a), RunChain(init);
      assert ca.effects + ci.effects + b[|b| - 1].effects == ca.effects + (ci.effects + b[|b| - 1].effects);
    }
  }

  /** Appending is associative; stated once so that the chain proofs need not rediscover it. */
  lemma AppendAssoc<T>(a: seq<T>, b: seq<T>, c: seq<T>)
    ensures a + b + c == a + (b + c)
  {
  }

  /** A chain of steps that each keep off the repository keeps off it as a whole. */
  lemma {:induction false} RunChainRepoFree(steps: seq<StepRun>, templateClone: Effect)
    requires forall i :: 0 <= i < |steps| ==> RepoFree(steps[i].effects, templateClone)
    ensures RepoFree(RunChain(steps).effects, templateClone)
    decreases |steps|
  {
    if steps != [] {
      var init := steps[..|steps| - 1];
      assert forall i :: 0 <= i < |init| ==> init[i] == steps[i];
      RunChainRepoFree(init, templateClone);
      if RunChain(init).status.Resolved? {
        RepoFreeAppend(RunChain(init).effects, steps[|steps| - 1].effects, templateClone);
      }
    }
  }

  /** Without a repository URL no step checks anything out or clones anything but the template. */
  lemma StepsRepoFree(v: SettingsView, env: Env)
    requires !Truthy(Some(v.url))
    ensures var clone := CloneCall(Str(v.template.url), v.pathTmp);
      && (forall i :: 0 <= i < 2 ==> RepoFree(CloneOutcomes(v, env)[i].effects, clone))
      && (forall i :: 0 <= i < 4 ==> RepoFree(InstallOutcomes(v, env)[i].effects, clone))
      && (forall i :: 0 <= i < 6 ==> RepoFree(WorkOutcomes(v, env)[i].effects, clone))
  {
  }

  /** `RunChainStopsAtFirstRejection` and `RunChainRepoFree` for the six steps of lib/new.js:314-319. */
  lemma WorkChain(v: SettingsView, env: Env)
    ensures var steps, c := WorkOutcomes(v, env), RunChain(WorkOutcomes(v, env));
      && 1 <= c.ran <= 6
      && (c.status.Rejected? ==>
            && steps[c.ran - 1].status == c.status
            && forall i :: 0 <= i < c.ran - 1 ==> steps[i].status.Resolved?)
      && (c.status.Resolved? <==> forall i :: 0 <= i < 6 ==> steps[i].status.Resolved?)
      && (c.status.Resolved? ==> c.ran == 6 && |c.effects| > 0 && c.effects[|c.effects| - 1] == NpmInstallCall(v.path))
      && (!Truthy(Some(v.url)) ==> RepoFree(c.effects, CloneCall(Str(v.template.url), v.pathTmp)))
  {
    var steps := WorkOutcomes(v, env);
    RunChainStopsAtFirstRejection(steps);
    var c := RunChain(steps);
    if c.status.Resolved? {
      assert steps[..6] == steps[..5] + [steps[5]];
      assert steps[..6][..5] == steps[..5];
    }
    if !Truthy(Some(v.url)) {
      StepsRepoFree(v, env);
      RunChainRepoFree(steps, CloneCall(Str(v.template.url), v.pathTmp));
    }
  }

  /**
   * The settings the `success` of `promptForName` and the `save` of `promptForUrl` leave
   * behind (lib/new.js:188-191, 233-237).
   */
  function SettledView(t: Template, spa: string, url: Json): SettingsView {
    var name := GetPackageName(t.name, spa);
    var path := PathJoin(".", name);
    SettingsView(t, spa, name, path, PathJoin(path, "tmp"), url)
  }

  /** How far the two prompts get on the given arguments and input lines. */
  datatype Settlement = NameWaiting | UrlWaitingAfter(spa: string) | Settled(view: SettingsView)

  /** The name prompt, then the URL prompt on the lines the name prompt left (lib/new.js:312-313). */
  function Settle(t: Template, args: Argv, lines: seq<string>, dirExists: string -> bool): (s: Settlement)
    ensures s.Settled? ==>
      && s.view.template == t
      && ValidateName(Str(s.view.spa), t.name, dirExists) == Accepted
      && s.view.name == GetPackageName(t.name, s.view.spa)
      && s.view.path == s.view.name && s.view.pathTmp == s.view.name + "/tmp"
  {
    match NameAnswer(args, lines, t.name, dirExists)
    case Waiting => NameWaiting
    case Answered(spa, rest) =>
      NameAnswerAccepted(args, lines, t.name, dirExists);
      AcceptedNameIsOneSegment(Str(spa), t.name, dirExists);
      TemplateCloneInsideSpa(t.name, spa);
      match UrlAnswer(args, rest)
      case UrlWaiting => UrlWaitingAfter(spa)
      case UrlGiven(url, _) => Settled(SettledView(t, spa, url))
  }

  /** What `skyux new` ends in, how many steps of `Plan` it starts, and its calls and log lines. */
  datatype Created = Created(outcome: Outcome, reached: nat, effects: seq<Effect>, log: seq<LogEntry>)

  /**
   * The chain once both prompts are answered (lib/new.js:314-321), then `notify` or the
   * final `.catch(logger.error)`: `reached` counts the two prompts, the steps started and,
   * when none rejects, `notify`.
   */
  function Chained(v: SettingsView, env: Env): (r: Created)
    ensures r.outcome != AwaitingInput && 3 <= r.reached <= |Plan|
    ensures r.outcome == Finished <==> r.reached == |Plan|
  {
    var c := RunChain(WorkOutcomes(v, env));
    RunChainStopsAtFirstRejection(WorkOutcomes(v, env));
    if c.status.Rejected? then Created(Failed(c.status.reason), 2 + c.ran, c.effects, [LogError(c.status.reason)])
    else Created(Finished, |Plan|, c.effects, NotifyLines(v.spa, v.name))
  }

  /**
   * A failure is the first step that rejects, with its reason, after every earlier step
   * resolved; the run finishes exactly when all six steps resolve, and then ends in
   * `npm install`; without a repository URL it leaves the repository alone.
   */
  lemma ChainedStopsAtFirstRejection(v: SettingsView, env: Env)
    ensures var r, steps := Chained(v, env), WorkOutcomes(v, env);
      && (r.outcome.Failed? ==>
            && r.log == [LogError(r.outcome.reason)]
            && steps[r.reached - 3].status == Rejected(r.outcome.reason)
            && forall i :: 0 <= i < r.reached - 3 ==> steps[i].status.Resolved?)
      && (r.outcome == Finished <==> forall i :: 0 <= i < 6 ==> steps[i].status.Resolved?)
      && (r.outcome == Finished ==>
            && r.log == NotifyLines(v.spa, v.name)
            && |r.effects| > 0 && r.effects[|r.effects| - 1] == NpmInstallCall(v.path))
      && (!Truthy(Some(v.url)) ==> RepoFree(r.effects, CloneCall(Str(v.template.url), v.pathTmp)))
  {
    WorkChain(v, env);
  }

  /**
   * `skyux new` (lib/new.js:309-322) on the given arguments, input lines and environment:
   * the template from the arguments, the two prompts, then the chain. A prompt that runs
   * out of input lines leaves it waiting, with nothing done.
   */
  function NewRun(args: Argv, lines: seq<string>, env: Env): (r: Created)
    ensures 1 <= r.reached <= |Plan|
    ensures r.outcome == Finished <==> r.reached == |Plan|
    ensures var s := Settle(GetTemplateFromArgs(args).0, args, lines, env.dirExists);
      && (r.outcome == AwaitingInput <==> !s.Settled?)
      && (r.outcome == AwaitingInput ==> r.reached == (if s.NameWaiting? then 1 else 2) && r.effects == [] && r.log == [])
      && (s.Settled? ==> r == Chained(s.view, env))
  {
    match Settle(GetTemplateFromArgs(args).0, args, lines, env.dirExists)
    case NameWaiting => Created(AwaitingInput, 1, [], [])
    case UrlWaitingAfter(_) => Created(AwaitingInput, 2, [], [])
    case Settled(v) => Chained(v, env)
  }

  /** The module-level `settings` object of lib/new.js and the side effects made so far. */
  class Settings {
    var template: Template
    var spa: string
    var name: string
    var path: string
    var pathTmp: string
    var url: Json
    var log: seq<LogEntry>
    var effects: seq<Effect>

    constructor ()
      ensures log == [] && effects == []
    {
      template := Template("default", TemplateBaseUrl);
      spa, name, path, pathTmp := "", "", "", "";
      url := Null;
      log, effects := [], [];
    }

    /** The `success` callback of `promptForName`: records the SPA and the paths derived from it. */
    method SaveName(value: string)
      modifies this
      ensures spa == value && name == GetPackageName(template.name, value)
      ensures path == PathJoin(".", name) && pathTmp == PathJoin(path, "tmp")
      ensures template == old(template) && url == old(url) && log == old(log) && effects == old(effects)
    {
      spa := value;
      name := GetPackageName(template.name, value);
      path := PathJoin(".", name);
      pathTmp := PathJoin(path, "tmp");
    }

    /**
     * `promptForName(args)` (lib/new.js:209-252): a valid `--name` is taken as it is; any
     * other value, and no value, goes to the prompt, which asks until a line validates.
     */
    method PromptForName(args: Argv, lines: seq<string>, dirExists: string -> bool) returns (answered: bool, rest: seq<string>)
      modifies this
      ensures template == old(template) && url == old(url) && log == old(log) && effects == old(effects)
      ensures var fast := Truthy(Flag(args, "name"))
          && ValidateName(Flag(args, "name").value, old(template.name), dirExists) == Accepted;
        var asked := AskUntil(lines, AcceptName(old(template.name), dirExists));
        && (fast ==> answered && rest == lines && spa == Flag(args, "name").value.s)
        && (!fast && asked.Answered? ==> answered && rest == asked.rest && spa == asked.value)
        && (!fast && asked.Waiting? ==> !answered && rest == [])
      ensures answered ==> (ValidateName(Str(spa), template.name, dirExists) == Accepted
        && name == GetPackageName(template.name, spa) && path == PathJoin(".", name) && pathTmp == PathJoin(path, "tmp"))
      ensures var a := NameAnswer(args, lines, old(template.name), dirExists);
        (answered <==> a.Answered?) && (answered ==> spa == a.value && rest == a.rest)
    {
      var v := Flag(args, "name");
      if Truthy(v) && ValidateName(v.value, template.name, dirExists) == Accepted {
        SaveName(v.value.s);
        return true, lines;
      }
      var asked := AskUntil(lines, AcceptName(template.name, dirExists));
      if asked.Waiting? {
        return false, [];
      }
      SaveName(asked.value);
      return true, asked.rest;
    }

    /**
     * `promptForUrl(args)` (lib/new.js:186-203): `--no-repo` gives an empty URL, a truthy
     * `--repo` is the URL, and otherwise the prompt's answer is, with "" as its default.
     */
    method PromptForUrl(args: Argv, lines: seq<string>) returns (answered: bool, rest: seq<string>)
      modifies this
      ensures template == old(template) && spa == old(spa) && name == old(name)
      ensures path == old(path) && pathTmp == old(pathTmp) && log == old(log) && effects == old(effects)
      ensures var repo := Flag(args, "repo");
        && (repo == Some(Bool(false)) ==> answered && rest == lines && url == Str(""))
        && (Truthy(repo) ==> answered && rest == lines && url == repo.value)
        && (repo != Some(Bool(false)) && !Truthy(repo) ==>
              match Ask(lines, "")
              case Waiting => !answered && rest == [] && url == old(url)
              case Answered(value, rest') => answered && rest == rest' && url == Str(value))
      ensures var a := UrlAnswer(args, lines);
        (answered <==> a.UrlGiven?) && (answered ==> url == a.url && rest == a.rest)
    {
      var repo := Flag(args, "repo");
      if repo == Some(Bool(false)) {
        url := Str("");
        return true, lines;
      }
      if Truthy(repo) {
        url := repo.value;
        return true, lines;
      }
      var asked := Ask(lines, "");
      if asked.Waiting? {
        return false, [];
      }
      url := Str(asked.value);
      return true, asked.rest;
    }

    /**
     * `cloneRepo()` (lib/new.js:156-180): without a URL nothing happens; otherwise the
     * repository is cloned into the SPA's path and rejected unless it is empty.
     */
    method CloneRepo(env: Env) returns (status: Status)
      modifies this
      ensures View() == old(View()) && log == old(log)
      ensures status == RepoOutcome(old(View()), env).status && effects == old(effects) + RepoOutcome(old(View()), env).effects
    {
      if !Truthy(Some(url)) {
        return Resolved;
      }
      effects := effects + [CloneCall(url, path)];
      var err := env.clone(url, path);
      if Truthy(Some(err)) {
        return Rejected(err);
      }
      var isEmpty := IsRepoEmpty(env.readdir(path));
      if !isEmpty {
        return Rejected(Str(NotEmptyMessage));
      }
      return Resolved;
    }

    /** `cloneTemplate()` (lib/new.js:135-150): the template is cloned into the temporary path. */
    method CloneTemplate(env: Env) returns (status: Status)
      modifies this
      ensures View() == old(View()) && log == old(log)
      ensures status == TemplateOutcome(old(View()), env).status && effects == old(effects) + TemplateOutcome(old(View()), env).effects
    {
      effects := effects + [CloneCall(Str(template.url), pathTmp)];
      var err := env.clone(Str(template.url), pathTmp);
      status := if Truthy(Some(err)) then Rejected(err) else Resolved;
    }

    /**
     * `cleanupTemplate(skyux, builder)` (lib/new.js:87-129): reads the template's
     * package.json, rewrites it, and writes it and the template into the SPA's path. Every
     * throw inside the Promise executor, read and rewrite included, becomes a rejection.
     */
    method CleanupTemplate(env: Env, skyux: Json, builder: Json) returns (status: Status)
      modifies this
      ensures View() == old(View()) && log == old(log)
      ensures var o := CleanupOutcome(old(View()), env, skyux, builder);
        status == o.status && effects == old(effects) + o.effects
    {
      var packagePath := PathJoin(pathTmp, "package.json");
      var read := env.readJson(packagePath);
      if read.Failure? {
        return Rejected(read.error);
      }
      var rewritten := CleanupPackageJson(read.value, template.name, name, url, skyux, builder);
      if rewritten.Failure? {
        return Rejected(ErrorValue(rewritten.error));
      }
      effects := effects + [InstallTemplate(packagePath, rewritten.value, pathTmp, path)];
      status := if env.persistError.Some? then Rejected(env.persistError.value) else Resolved;
    }

    /** `checkoutBranch()` (lib/new.js:49-73): only a SPA with a repository switches branch. */
    method CheckoutBranch(env: Env) returns (status: Status)
      modifies this
      ensures View() == old(View()) && log == old(log)
      ensures status == CheckoutOutcome(old(View()), env).status && effects == old(effects) + CheckoutOutcome(old(View()), env).effects
    {
      if !Truthy(Some(url)) {
        return Resolved;
      }
      effects := effects + [CheckoutCall(path)];
      status := if env.checkoutExit != 0 then Rejected(Str(CheckoutFailedMessage)) else Resolved;
    }

    /** `npmInstall(settings)` (lib/npm-install.js:11-34): `npm install` in the SPA's path. */
    method NpmInstall(env: Env) returns (status: Status)
      modifies this
      ensures View() == old(View()) && log == old(log)
      ensures status == NpmOutcome(old(View()), env).status && effects == old(effects) + NpmOutcome(old(View()), env).effects
    {
      effects := effects + [NpmInstallCall(path)];
      status := if env.npmExit != 0 then Rejected(Str(NpmInstallFailedMessage)) else Resolved;
    }

    /** `notify()` (lib/new.js:300-304). */
    method Notify()
      modifies this
      ensures View() == old(View()) && effects == old(effects)
      ensures log == old(log) + NotifyLines(spa, name)
    {
      log := log + NotifyLines(spa, name);
    }

    /** The six properties of `settings` the steps read and write. */
    function View(): SettingsView
      reads this
    {
      SettingsView(template, spa, name, path, pathTmp, url)
    }

    /**
     * The two prompts, name first (lib/new.js:312-313). `stage` counts the prompts answered;
     * a prompt that runs out of input lines stops there, and the URL prompt reads the lines
     * the name prompt left.
     */
    method AskNames(args: Argv, lines: seq<string>, dirExists: string -> bool) returns (stage: nat)
      modifies this
      ensures stage <= 2 && template == old(template) && log == old(log) && effects == old(effects)
      ensures var n := NameAnswer(args, lines, old(template.name), dirExists);
        && (stage == 0 <==> n.Waiting?)
        && (n.Answered? ==>
              && spa == n.value
              && var u := UrlAnswer(args, n.rest);
              && (stage == 2 <==> u.UrlGiven?)
              && (u.UrlGiven? ==> url == u.url))
      ensures stage >= 1 ==> (ValidateName(Str(spa), template.name, dirExists) == Accepted
        && name == GetPackageName(template.name, spa) && path == name && pathTmp == name + "/tmp")
      ensures var s := Settle(template, args, lines, dirExists);
        && (stage == 0 <==> s.NameWaiting?)
        && (stage == 1 <==> s.UrlWaitingAfter?)
        && (s.UrlWaitingAfter? ==> spa == s.spa)
        && (s.Settled? ==> View() == s.view)
    {
      var answered, rest := PromptForName(args, lines, dirExists);
      if !answered {
        return 0;
      }
      TemplateCloneInsideSpa(template.name, spa);
      answered, rest := PromptForUrl(args, rest);
      stage := if answered then 2 else 1;
    }

    /**
     * Before the template is cloned (lib/new.js:314-315): the SPA's repository, if any, and
     * the template, as the first two steps of the chain.
     */
    method CloneAll(env: Env) returns (status: Status, ran: nat)
      modifies this
      ensures View() == old(View()) && log == old(log)
      ensures var c := RunChain(CloneOutcomes(old(View()), env));
        status == c.status && ran == c.ran && effects == old(effects) + c.effects
      ensures 1 <= ran <= 2 && (status.Resolved? ==> ran == 2)
    {
      ghost var v := View();
      ghost var repo, tmpl := RepoOutcome(v, env), TemplateOutcome(v, env);
      RunChain2(repo, tmpl);
      ghost var c := Then(ChainRun(Resolved, 0, []), repo);
      ran := 1;
      status := CloneRepo(env);
      assert status == c.status && effects == old(effects) + c.effects;
      if status.Rejected? { return; }
      ran := 2;
      status := CloneTemplate(env);
      AppendAssoc(old(effects), c.effects, tmpl.effects);
      c := Then(c, tmpl);
    }

    /**
     * Once the template is cloned (lib/new.js:316-319): versions, package.json, branch and
     * `npm install`, as the last four steps of the chain.
     */
    method Install(env: Env) returns (status: Status, ran: nat)
      modifies this
      ensures View() == old(View()) && log == old(log)
      ensures var c := RunChain(InstallOutcomes(old(View()), env));
        status == c.status && ran == c.ran && effects == old(effects) + c.effects
      ensures 1 <= ran <= 4 && (status.Resolved? ==> ran == 4)
      ensures status.Resolved? ==> |effects| > 0 && effects[|effects| - 1] == NpmInstallCall(path)
    {
      ghost var v := View();
      ghost var versions, cleanup, checkout, npm :=
        VersionsOutcome(env), CleanupStepOutcome(v, env), CheckoutOutcome(v, env), NpmOutcome(v, env);
      RunChain4(versions, cleanup, checkout, npm);
      ghost var c := Then(ChainRun(Resolved, 0, []), versions);
      ran := 1;
      if env.versions.Failure? {
        return Rejected(env.versions.error), ran;
      }
      assert effects == old(effects) + c.effects;
      ran := 2;
      status := CleanupTemplate(env, env.versions.value.0, env.versions.value.1);
      AppendAssoc(old(effects), c.effects, cleanup.effects);
      c := Then(c, cleanup);
      if status.Rejected? { return; }
      ran := 3;
      status := CheckoutBranch(env);
      AppendAssoc(old(effects), c.effects, checkout.effects);
      c := Then(c, checkout);
      if status.Rejected? { return; }
      ran := 4;
      status := NpmInstall(env);
      AppendAssoc(old(effects), c.effects, npm.effects);
      c := Then(c, npm);
    }

    /**
     * The chain once both prompts are answered (lib/new.js:314-321): the six steps run in
     * order until one rejects, and that rejection is logged; if none does, `notify` runs.
     * `ran` counts the steps started.
     */
    method Pipeline(env: Env) returns (outcome: Outcome, ran: nat)
      modifies this
      ensures View() == old(View())
      ensures var c := RunChain(WorkOutcomes(old(View()), env));
        && ran == c.ran && effects == old(effects) + c.effects
        && (c.status.Resolved? ==> outcome == Finished && log == old(log) + NotifyLines(spa, name))
        && (c.status.Rejected? ==> outcome == Failed(c.status.reason) && log == old(log) + [LogError(c.status.reason)])
      ensures 1 <= ran <= 6 && (outcome == Finished ==> ran == 6 && |effects| > 0 && effects[|effects| - 1] == NpmInstallCall(path))
    {
      ghost var v := View();
      RunChainConcat(CloneOutcomes(v, env), InstallOutcomes(v, env));
      var status;
      status, ran := CloneAll(env);
      if status.Rejected? {
        Fail(status.reason);
        return Failed(status.reason), ran;
      }
      var more;
      status, more := Install(env);
      AppendAssoc(old(effects), RunChain(CloneOutcomes(v, env)).effects, RunChain(InstallOutcomes(v, env)).effects);
      ran := ran + more;
      if status.Rejected? {
        Fail(status.reason);
        return Failed(status.reason), ran;
      }
      Notify();
      return Finished, ran;
    }

    /**
     * The entry point (lib/new.js:309-322): the template is chosen first, then the name and
     * URL prompts, then the chain of `Pipeline`; it does what `NewRun` says. A prompt that
     * runs out of input lines leaves the chain waiting. `reached` lists the steps started.
     */
    method Run(args: Argv, lines: seq<string>, env: Env) returns (outcome: Outcome, reached: seq<Step>)
      modifies this
      ensures template == GetTemplateFromArgs(args).0
      ensures var r := NewRun(args, lines, env);
        && outcome == r.outcome && reached == Plan[..r.reached]
        && effects == old(effects) + r.effects && log == old(log) + r.log
      ensures var s := Settle(template, args, lines, env.dirExists);
        && (s.Settled? ==> View() == s.view)
        && (s.UrlWaitingAfter? ==> spa == s.spa)
      ensures |reached| >= 2 ==> (ValidateName(Str(spa), template.name, env.dirExists) == Accepted
        && name == GetPackageName(template.name, spa) && path == name && pathTmp == name + "/tmp")
    {
      template := GetTemplateFromArgs(args).0;
      var stage := AskNames(args, lines, env.dirExists);
      if stage < 2 {
        return AwaitingInput, Plan[..stage + 1];
      }
      var ran;
      outcome, ran := Pipeline(env);
      reached := Plan[..if outcome == Finished then |Plan| else 2 + ran];
    }

    /** The final `.catch(logger.error)` of the chain. */
    method Fail(reason: Json)
      modifies this
      ensures View() == old(View()) && effects == old(effects)
      ensures log == old(log) + [LogError(reason)]
    {
      log := log + [LogError(reason)];
    }
  }

  /** The two lines `notify` logs. */
  function NotifyLines(spa: string, name: string): seq<LogEntry> {
    [LogInfo(Str("SPA " + spa + " created in directory " + name)),
     LogInfo(Str("Change into that directory and run \"skyux serve\" to begin."))]
  }
}
