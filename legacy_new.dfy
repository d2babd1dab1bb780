/**
 * new.js, the older `new` command: asks for a SPA name and a repository URL, clones the
 * SKY Pages template into `sky-pages-spa-<name>`, renames its package.json and installs the
 * dependencies. Each answer arrives in a callback that sets a closure variable; the
 * variables and the actions taken so far are the fields of a class.
 */
module LegacyNew {
  import opened Wrappers
  import opened JsValue
  import opened Prompt
  import Scaffold

  const TemplateRepoUrl := "https://github.com/blackbaud/sky-pages-template-skyux2"

  /** The name validator (new.js:82-90): non-empty, and every character in [a-z0-9-]. */
  predicate ValidSpaName(value: string) {
    value != "" && Scaffold.MatchesSpaNamePattern(value)
  }

  /** A prompt without a default asks again on an empty line. */
  predicate NonEmpty(line: string) {
    line != ""
  }

  /** `projectName` (new.js:17). */
  function ProjectName(spaName: string): string {
    "sky-pages-spa-" + spaName
  }

  /** `folderName` (new.js:18), the directory the template is cloned into. */
  function FolderName(spaName: string): (r: string)
    ensures r == ProjectName(spaName)
  {
    PathJoin(".", ProjectName(spaName))
  }

  /** The directory new.js:47 removes, as written: resolved against the SPA name. */
  function GitDirAsWritten(spaName: string): string {
    PathJoin(spaName, ".git")
  }

  /** The directory meant: the template's git history inside the cloned folder. */
  function GitDirToRemove(spaName: string): (r: string)
    ensures r == FolderName(spaName) + "/.git"
  {
    PathJoin(FolderName(spaName), ".git")
  }

  /**
   * For every name the validator lets through, the directory new.js:47 removes is not the
   * one the template was cloned into: the clone keeps the template's git history.
   */
  lemma GitDirAsWrittenMissesClone(spaName: string)
    requires ValidSpaName(spaName)
    ensures GitDirAsWritten(spaName) != GitDirToRemove(spaName)
    ensures GitDirAsWritten(spaName) == spaName + "/.git"
  {
    assert Scaffold.IsSpaNameChar(spaName[0]);
    assert |GitDirAsWritten(spaName)| + 14 == |GitDirToRemove(spaName)|;
  }

  /** The directory removed lies inside the folder the template was cloned into. */
  lemma GitDirInsideClone(spaName: string)
    ensures var d := GitDirToRemove(spaName); var f := FolderName(spaName);
      |f| < |d| && d[..|f|] == f && d[|f|] == '/'
  {
  }

  /** The concrete case: for "my-spa" the clone is in sky-pages-spa-my-spa, the removal elsewhere. */
  lemma GitDirExample()
    ensures FolderName("my-spa") == "sky-pages-spa-my-spa"
    ensures GitDirAsWritten("my-spa") == "my-spa/.git"
    ensures GitDirToRemove("my-spa") == "sky-pages-spa-my-spa/.git"
  {
  }

  /**
   * `fixUpPackageJson` (new.js:20-33) on the parsed manifest: renamed after the SPA, and
   * pointing at the repository only when one was given. Writing a property of a
   * non-object throws in strict mode.
   */
  function FixUpPackageJson(pj: Json, spaName: string, repoUrl: string): (r: Result<Json, JsError>)
    ensures r.Success? <==> pj.Obj?
    ensures r.Success? ==> (r.value.Obj?
      && Get(r.value, "name") == Some(Str("blackbaud-sky-pages-spa-" + spaName))
      && Get(r.value, "description") == Some(Str("Single-page-application for " + spaName))
      && Get(r.value, "repository") ==
           (if repoUrl != "" then Some(Obj([Member("type", Str("git")), Member("url", Str(repoUrl))]))
            else Get(pj, "repository"))
      && forall k :: k != "name" && k != "description" && k != "repository" ==> Get(r.value, k) == Get(pj, k))
  {
    if !pj.Obj? then Failure(TypeError("Cannot set property 'name' of " + FormatS(Some(pj))))
    else
      var named := Put(Put(pj, "name", Str("blackbaud-sky-pages-spa-" + spaName)),
        "description", Str("Single-page-application for " + spaName));
      if repoUrl != "" then
        Success(Put(named, "repository", Obj([Member("type", Str("git")), Member("url", Str(repoUrl))])))
      else Success(named)
  }

  /** What the outside world answers: `git-clone`'s callback error and `fs.readJsonSync`. */
  datatype Env = Env(cloneError: Json, readJson: string -> Result<Json, Json>)

  datatype Effect =
    | CloneCall(url: string, dest: string)
    | RemoveCall(dir: string)
    | WriteJsonCall(path: string, manifest: Json)
    | NpmInstallCall(cwd: string)

  /**
   * How `new` ends: waiting on a prompt, after a failed clone (logged), with an uncaught
   * exception in the clone callback, or with the project created.
   */
  datatype Outcome = AwaitingInput | CloneFailed | Crashed(error: Json) | Created

  /** What the clone callback does: how `new` ends, what it logs and what it does. */
  datatype Completion = Completion(outcome: Outcome, logged: seq<LogEntry>, done: seq<Effect>)

  /**
   * `cloneComplete(err)` (new.js:43-57), removing the directory `gitDir`: new.js:47 passes
   * `GitDirAsWritten(spaName)`, the rest of this model the corrected `GitDirToRemove(spaName)`.
   * An exception from reading or rewriting package.json escapes the callback uncaught; the
   * `exit` listener of `npm install` reports success whatever the exit code.
   */
  function AfterClone(spaName: string, repoUrl: string, gitDir: string, env: Env): Completion
  {
    if Truthy(Some(env.cloneError)) then Completion(CloneFailed, [LogError(env.cloneError)], [])
    else
      var folder := FolderName(spaName);
      var manifestPath := PathJoin(folder, "package.json");
      var remove := RemoveCall(gitDir);
      match env.readJson(manifestPath)
      case Failure(e) => Completion(Crashed(e), [], [remove])
      case Success(pj) =>
        match FixUpPackageJson(pj, spaName, repoUrl)
        case Failure(e) => Completion(Crashed(ErrorValue(e)), [], [remove])
        case Success(fixed) =>
          Completion(Created,
            [LogInfo(Str("Installing NPM dependencies...")),
             LogInfo(Str("SPA project " + ProjectName(spaName) + " created successfully."))],
            [remove, WriteJsonCall(manifestPath, fixed), NpmInstallCall(folder)])
  }

  /**
   * A failed clone is only logged; otherwise the template's `.git` directory is removed
   * first, and the project is created exactly when package.json reads as an object, in
   * which case the renamed manifest is written back and `npm install` runs in the folder.
   */
  lemma AfterCloneResult(spaName: string, repoUrl: string, gitDir: string, env: Env)
    ensures var c := AfterClone(spaName, repoUrl, gitDir, env);
      && (c.outcome == CloneFailed <==> Truthy(Some(env.cloneError)))
      && (c.outcome == CloneFailed ==> c.done == [] && c.logged == [LogError(env.cloneError)])
      && (c.outcome != CloneFailed ==> |c.done| > 0 && c.done[0] == RemoveCall(gitDir))
      && (c.outcome.Crashed? ==> c.logged == [] && |c.done| == 1)
      && (c.outcome == Created <==> (!Truthy(Some(env.cloneError))
            && env.readJson(PathJoin(FolderName(spaName), "package.json")).Success?
            && env.readJson(PathJoin(FolderName(spaName), "package.json")).value.Obj?))
      && (c.outcome == Created ==>
            var manifestPath := PathJoin(FolderName(spaName), "package.json");
            && |c.done| == 3 && |c.logged| == 2
            && c.done[1] == WriteJsonCall(manifestPath, FixUpPackageJson(env.readJson(manifestPath).value, spaName, repoUrl).value)
            && c.done[2] == NpmInstallCall(FolderName(spaName))
            && c.logged[1] == LogInfo(Str("SPA project " + ProjectName(spaName) + " created successfully.")))
  {
  }

  /**
   * The callback as written never removes the clone's `.git`: whichever way it ends, no
   * removal it makes targets the folder the template was cloned into.
   */
  lemma AfterCloneAsWrittenKeepsCloneHistory(spaName: string, repoUrl: string, env: Env)
    requires ValidSpaName(spaName)
    ensures var c := AfterClone(spaName, repoUrl, GitDirAsWritten(spaName), env);
      forall i :: 0 <= i < |c.done| ==> c.done[i] != RemoveCall(GitDirToRemove(spaName))
  {
    GitDirAsWrittenMissesClone(spaName);
  }

  /** The state the callbacks share, and what has been logged and done. */
  class Session {
    var spaName: string
    var repoUrl: string
    var console: seq<LogEntry>
    var effects: seq<Effect>

    constructor ()
      ensures console == [] && effects == []
    {
      spaName, repoUrl := "", "";
      console, effects := [], [];
    }

    /** The clone callback run on the session's answers. */
    method CloneComplete(env: Env) returns (outcome: Outcome)
      modifies this
      ensures spaName == old(spaName) && repoUrl == old(repoUrl)
      ensures var c := AfterClone(spaName, repoUrl, GitDirToRemove(spaName), env);
        outcome == c.outcome && console == old(console) + c.logged && effects == old(effects) + c.done
      ensures outcome != AwaitingInput
    {
      if Truthy(Some(env.cloneError)) {
        console := console + [LogError(env.cloneError)];
        return CloneFailed;
      }
      var folder := FolderName(spaName);
      var manifestPath := PathJoin(folder, "package.json");
      ghost var effects0 := effects;
      effects := effects + [RemoveCall(GitDirToRemove(spaName))];
      var read := env.readJson(manifestPath);
      if read.Failure? {
        return Crashed(read.error);
      }
      var fixed := FixUpPackageJson(read.value, spaName, repoUrl);
      if fixed.Failure? {
        return Crashed(ErrorValue(fixed.error));
      }
      effects := effects + [WriteJsonCall(manifestPath, fixed.value), NpmInstallCall(folder)];
      assert effects == effects0 + [RemoveCall(GitDirToRemove(spaName)), WriteJsonCall(manifestPath, fixed.value), NpmInstallCall(folder)];
      console := console + [LogInfo(Str("Installing NPM dependencies...")),
        LogInfo(Str("SPA project " + ProjectName(spaName) + " created successfully."))];
      outcome := Created;
    }

    /**
     * The exported function (new.js:12-94): the name prompt asks until a line validates,
     * the URL prompt (without a default) until a line is not empty; then the template is
     * cloned into the SPA's folder.
     */
    method Run(lines: seq<string>, env: Env) returns (outcome: Outcome)
      modifies this
      ensures var name := AskUntil(lines, ValidSpaName);
        var url := if name.Answered? then AskUntil(name.rest, NonEmpty) else Waiting;
        && (outcome == AwaitingInput <==> url.Waiting?)
        && (outcome == AwaitingInput ==> console == old(console) && effects == old(effects))
        && (url.Answered? ==>
              && spaName == name.value && ValidSpaName(spaName)
              && repoUrl == url.value && repoUrl != ""
              && var c := AfterClone(spaName, repoUrl, GitDirToRemove(spaName), env);
              && outcome == c.outcome
              && effects == old(effects) + [CloneCall(TemplateRepoUrl, FolderName(spaName))] + c.done
              && console == old(console) + [LogInfo(Str("Cloning template into " + ProjectName(spaName) + "..."))] + c.logged)
    {
      var name := AskUntil(lines, ValidSpaName);
      if name.Waiting? {
        return AwaitingInput;
      }
      spaName := name.value;
      var url := AskUntil(name.rest, NonEmpty);
      if url.Waiting? {
        return AwaitingInput;
      }
      repoUrl := url.value;
      console := console + [LogInfo(Str("Cloning template into " + ProjectName(spaName) + "..."))];
      effects := effects + [CloneCall(TemplateRepoUrl, FolderName(spaName))];
      outcome := CloneComplete(env);
    }
  }
}
