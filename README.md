# sky-pages CLI core in Dafny

This project models the logic inside the `skyux` / `sky-pages` command-line interface. The CLI:

- finds the plugins a project declares in its `package.json`, loads them, and forwards each command to them;
- composes the webpack configuration of the `serve` command from the loaders a project declares, and runs the dev server;
- routes the command line to build, serve, version, new or an error;
- scaffolds a new single-page application (SPA), in two generations of the `new` command.

The project is built in layers:

- **`wrappers.dfy`, `strings.dfy`:** the Option/Result types and string helpers (substring search, ASCII upper-casing, decimal formatting).
- **`js_value.dfy`:** JavaScript values.
  - Objects keep their properties in `for…in` order.
  - Strict-mode property reads and writes are modelled, including the TypeErrors they throw.
  - Also modelled: `util.format('%s')`, `path.join` on plain segments, and minimist argument vectors.
- **`name_pattern.dfy`:** the two plugin-name regular expressions. Each is proved to be "contains the marker, ignoring ASCII case". The module also shows that JavaScript's integer-keys-first enumeration order cannot change which keys are selected.
- **`prompt.dfy`:** `promptly` prompts, as the lines the user types.
- **One module per core file:**
  - `plugin_index.dfy`: index.js;
  - `serve_config.dfy`: lib/webpack/serve.config.js;
  - `cli_router.dfy`: lib/cli/index.js;
  - `scaffold.dfy`: lib/new.js, with lib/npm-install.js;
  - `legacy_new.dfy`: new.js;
  - `dev_serve.dfy`: lib/core/serve.js.

Some code works by updating state: loops that push into arrays, the `settings` object, closure variables set by callbacks, and the serve latch. That code is written as methods, and as classes with those fields. Each method is proved against a function that specifies it, and the properties are lemmas about those functions.

The outside world becomes inputs: `require`, the file system, git-clone, the prompts' input lines, child-process exit codes, `latest-version` and `merge.smart`. Each is an oracle parameter or a field of an `Env` record.

## Model

| member | source | states |
|---|---|---|
| NamePattern.RegexTestIffContains | index.js:17 | With both groups `(.*)` allowed to be empty, the case-insensitive regex test holds iff the upper-cased literal occurs in the upper-cased key |
| NamePattern.PluginNameIsRegex | index.js:17 | The plugin filter is exactly the test of `/(.*)-sky-pages-out-(.*)/gi` |
| NamePattern.LoaderNameIsRegex | lib/webpack/serve.config.js:20 | The loader filter is exactly the test of `/(.*)-sky-pages-(in\|out)-(.*)/gi`: the key holds either marker |
| NamePattern.DigitKeysAreNotPlugins | index.js:16-17 | An all-digit key, which `for…in` enumerates first, is never a plugin or a loader name |
| NamePattern.PluginOrderIsInsertionOrder | index.js:16-17 | Enumerating integer keys first selects the same plugin and loader names, in the same order, as the manifest's insertion order |
| NamePattern.EnumerationOrderIrrelevant | lib/webpack/serve.config.js:19-20 | A filter that rejects every all-digit key sees the same selection whether or not integer keys are moved to the front |
| PluginIndex.ModulePathInjective | index.js:18 | Distinct devDependency keys are loaded from distinct paths under `<cwd>/node_modules` |
| PluginIndex.LoadAllShape | index.js:16-19 | Discovery requires a prefix of the selected paths. It succeeds with one loaded module per path, in path order; otherwise it fails on the last path it required, the only one that did not load |
| PluginIndex.LoadAllSucceedsIff | index.js:16-19 | Discovery succeeds iff every selected path loads |
| PluginIndex.FailureEndsDiscovery | index.js:18 | Once a `require` has thrown, the later keys change nothing |
| PluginIndex.GetModulesResult | index.js:15-23 | A manifest without devDependencies gives no modules. On success there is exactly one module per matching key, in key order, each loaded from `<cwd>/node_modules/<key>` |
| PluginIndex.NonMatchingKeysNeverLoaded | index.js:16-18 | A key without `-sky-pages-out-`, in any case, is never handed to `require` |
| PluginIndex.GetModules | index.js:12-24 | The for…in loop returns exactly the modules and the requested paths that the discovery specification gives, including its error |
| PluginIndex.DispatchedExactlyOnce | index.js:32-37 | Every call targets a module whose `runCommand` is a function, with command and argv unchanged. Calls follow list order, and every such module is called |
| PluginIndex.DispatchedCount | index.js:33-37 | The number of calls equals the number of modules exposing `runCommand`; all other modules are skipped |
| PluginIndex.RunCommand | index.js:32-38 | The forEach makes exactly the specified sequence of calls |
| PluginIndex.CommandOf | index.js:48-61 | The command is `argv._[0]`, or `'version'` whenever `argv.v` is truthy. So the version handler runs iff `argv.v` is truthy or `argv._[0]` is `'version'`, and the new handler iff `argv.v` is falsy and `argv._[0]` is `'new'` |
| PluginIndex.LocalHandlerFor | index.js:54-61 | The version handler runs iff the command is the string `'version'`, and the new handler iff it is `'new'` |
| PluginIndex.ProcessArgv | index.js:46-67 | The run is exactly the one `ProcessArgvSpec` describes. Modules are looked up iff package.json exists in cwd. Then the discovered modules receive the command, whatever local handler ran; a load failure escapes and no plugin is called |
| PluginIndex.LocalHandlerDoesNotStopDispatch | index.js:54-66 | In a run of `processArgv` with package.json present, nothing escapes iff every plugin loads. Then every discovered module with `runCommand` is called with the command, `version` and `new` included |
| ServeConfig.Check | lib/webpack/serve.config.js:21-34 | A selected key is accepted iff its module loads and both hooks are functions. The accepted record is `{name: key, exports: loader}` |
| ServeConfig.CheckOrder | lib/webpack/serve.config.js:23-29 | The getSkyPagesConfig check runs first. Each failure throws the literal `%s must implement …` message |
| ServeConfig.NoDevDependenciesNoLoaders | lib/webpack/serve.config.js:17-18 | A manifest without devDependencies gives `[]` |
| ServeConfig.CollectSucceedsIff | lib/webpack/serve.config.js:19-36 | `getModules` succeeds iff every selected key passes the check |
| ServeConfig.CollectContents | lib/webpack/serve.config.js:31-34 | On success there is one record per selected key, in key order, holding that key's loaded module |
| ServeConfig.CollectFailure | lib/webpack/serve.config.js:19-29 | On failure, the error is that of the first selected key whose check fails |
| ServeConfig.GetModules | lib/webpack/serve.config.js:16-40 | The loop that throws or pushes returns exactly the specified result |
| ServeConfig.DefaultSkyPagesHost | lib/webpack/serve.config.js:96-102 | The default SKY_PAGES section names the shell host, and still does after `config` is set |
| ServeConfig.DefaultWebpackConfigKeys | lib/webpack/serve.config.js:61-107 | The default configuration's top-level keys, in order |
| ServeConfig.DefaultWebpackConfigShape | lib/webpack/serve.config.js:54-108 | The defaults have an empty `entry`, dev-server port 31337, the SKY_PAGES section, exactly the two default plugins, and no `STACHE` section |
| ServeConfig.ExposeResult | lib/webpack/serve.config.js:141-146 | Exposing throws unless SKY_PAGES is an object and `plugins` an array. Otherwise SKY_PAGES.config is the sky-pages config, one DefinePlugin of the updated section is appended, and every other property is unchanged |
| ServeConfig.NoPackageJsonUsesDefaults | lib/webpack/serve.config.js:115-148 | Without package.json the defaults are exposed without throwing. The result has `SKY_PAGES.config` equal to `{}`, and the plugins are the two defaults followed by one DefinePlugin |
| ServeConfig.TwoPhaseComposition | lib/webpack/serve.config.js:126-146 | Every getSkyPagesConfig call, in loader order, precedes every getWebpackConfig call, also in loader order. Each getWebpackConfig call receives the fully merged sky-pages config, which SKY_PAGES.config ends up holding |
| ServeConfig.MergeSkyPagesConfigs | lib/webpack/serve.config.js:126-128 | The first forEach folds `merge.smart` over the loaders' sky-pages configs, calling each hook once in order |
| ServeConfig.MergeWebpackConfigs | lib/webpack/serve.config.js:131-136 | The second forEach folds `merge.smart` over the webpack hooks, each applied to the same merged sky-pages config |
| ServeConfig.GetWebpackConfig | lib/webpack/serve.config.js:115-149 | The defaults are exposed when no package.json exists. A failed module lookup escapes with no hook called. Otherwise the two folds run and their result is exposed |
| CliRouter.RouteOf | lib/cli/index.js:16-26 | Each case label is taken iff `argv._[0]` strictly equals that string, and every other value goes to the default arm |
| CliRouter.ProcessArgv | lib/cli/index.js:15-28 | `build` and `serve` return their implementation's result and log nothing. `version` logs `version(argv)` at info level and returns undefined. Anything else logs exactly `Please provide a known command.` as an error |
| CliRouter.RoutingDependsOnlyOnCommand | lib/cli/index.js:16 | Two argument vectors with the same `argv._[0]` take the same branch |
| CliRouter.ExactlyOneEffect | lib/cli/index.js:16-27 | A delegated command logs nothing, and every other command logs exactly one line, which is an error line iff the command is unknown |
| Prompt.Ask | lib/new.js:201-202 | A prompt with a default answers the first line, with an empty line meaning the default |
| Prompt.AskUntil | lib/new.js:227-231 | A validating prompt answers the first line the validator accepts, and keeps waiting iff no line is accepted |
| Scaffold.GetTemplateFromArgs | lib/new.js:278-298 | `t` overrides `template`, and only `template` is written. A string holding `:` is the URL verbatim, and any other string names `skyux-template-<name>`. A non-string gives `default` and the base URL |
| Scaffold.PackageNameShape | lib/new.js:258-271 | The package name is `skyux-lib-<name>` for the library template and `skyux-spa-<name>` otherwise |
| Scaffold.PackageNameInjective | lib/new.js:258-271 | Under one template, distinct SPA names give distinct package names |
| Scaffold.ValidateName | lib/new.js:210-225 | A value is accepted iff it is a non-empty string of `[a-z0-9-]` whose `./<package name>` does not exist. The invalid-name error is raised iff the value is falsy or a string with another character |
| Scaffold.AcceptedNameIsOneSegment | lib/new.js:218 | An accepted name's package directory is a single path segment under the cwd |
| Scaffold.IsRepoEmpty | lib/new.js:34-43 | The loop's flag is true iff every entry name contains `.git` or `README.md` |
| Scaffold.EmptinessIsBySubstring | lib/new.js:38 | `.gitignore` counts as ignorable and `repo-not-empty` does not |
| Scaffold.OrEmpty | lib/new.js:93-95 | `x \|\| {}` is always truthy. It keeps a truthy value and replaces a falsy one by `{}`, so it is an object unless a truthy primitive was there |
| Scaffold.SetEntry | lib/new.js:98-106 | Writing a dependency entry succeeds exactly on an object, and then sets only that key |
| Scaffold.DeleteEntry | lib/new.js:101 | After `delete` the key reads as absent and every other key reads as before. An object stays an object, and a primitive is left as it is |
| Scaffold.RewriteDependencies | lib/new.js:96-106 | The rewrite throws iff `devDependencies` is not an object, or the first map written to is not one: `peerDependencies` for the library template, `dependencies` otherwise |
| Scaffold.RewriteDependenciesContents | lib/new.js:96-106 | The library template sets peer `^skyux`, dev `skyux` and dev `builder`, and deletes `@blackbaud/skyux` from dependencies. Other templates set `dependencies['@blackbaud/skyux']` and dev `builder`, and leave peerDependencies alone |
| Scaffold.WithMaps | lib/new.js:93-95 | The three dependency maps are replaced, and every other property is unchanged |
| Scaffold.WithIdentity | lib/new.js:107-113 | `name`, `description` and `repository` are written, and every other property, the maps included, is unchanged |
| Scaffold.CleanupSucceedsIff | lib/new.js:92-113 | The package.json rewrite throws iff the manifest or a written map, after defaulting, is not an object |
| Scaffold.CleanupWritesMaps | lib/new.js:93-106 | The rewritten dependency maps end up in the manifest |
| Scaffold.CleanupWritesIdentity | lib/new.js:107-113 | The manifest is named `blackbaud-<settings.name>`, and points at the SPA's repository URL |
| Scaffold.CleanupKeepsOtherKeys | lib/new.js:92-113 | Every top-level property the rewrite does not name is unchanged |
| Scaffold.TemplateCloneInsideSpa | lib/new.js:236-237 | The temporary clone directory is `<path>/tmp`, inside the SPA's directory |
| Scaffold.NameAnswerAccepted | lib/new.js:209-252 | The name settled on passes the validator. The name prompt waits iff neither `--name` nor any input line validates |
| Scaffold.UrlAnswerWaitsOnlyForInput | lib/new.js:186-203 | Only the line prompt waits, and only when no line is left. `--no-repo` and a truthy `--repo` read no line; the prompt reads one, with `''` as its default |
| Scaffold.RunChainStopsAtFirstRejection | lib/new.js:314-321 | A `.then` chain starts the steps in order until the first rejection. It rejects with that step's reason after every earlier step resolved, resolves iff every step does, and makes exactly the calls of the steps it started |
| Scaffold.RunChainConcat | lib/new.js:314-319 | Two stretches of a chain run one after the other behave as the joined chain: a rejection in the first skips the second |
| Scaffold.RunChainRepoFree | lib/new.js:314-319 | A chain of steps that each leave the repository alone leaves it alone as a whole |
| Scaffold.StepsRepoFree | lib/new.js:314-319 | Without a URL none of the six steps checks anything out or clones anything but the template |
| Scaffold.WorkChain | lib/new.js:314-319 | For the six steps: between 1 and 6 start; a rejection is the first rejecting step's, after every earlier one resolved; the chain resolves iff all six do, ending in `npm install`; without a URL the repository is untouched |
| Scaffold.Settle | lib/new.js:312-313 | Once both prompts are answered, the settings hold the chosen template, a name the validator accepts, `name = getPackageName(spa)`, `path = name` and `pathTmp = name/tmp` |
| Scaffold.Chained | lib/new.js:314-321 | After the prompts the run never waits. It starts between 3 and 9 steps of `Plan`, and finishes iff it reaches `notify` |
| Scaffold.ChainedStopsAtFirstRejection | lib/new.js:314-321 | A failure is the first step that rejects, with its reason, after every earlier step resolved, and logs exactly that reason. The run finishes iff all six steps resolve, then logs the two `notify` lines and ends with `npm install`. Without a URL no repository is cloned or checked out |
| Scaffold.NewRun | lib/new.js:309-322 | `skyux new` waits iff a prompt runs out of input, and then has done and logged nothing. Otherwise it is the chain on the settled settings. It finishes iff it reaches the last step of `Plan` |
| Scaffold.Settings.constructor | lib/new.js:25-27 | Nothing is logged or done before the entry point runs |
| Scaffold.Settings.SaveName | lib/new.js:233-240 | `success` sets the SPA name, `name = getPackageName(spa)`, `path = path.join('.', name)` and `pathTmp = path/tmp`, and nothing else |
| Scaffold.Settings.PromptForName | lib/new.js:209-252 | A valid `--name` is taken without prompting. Otherwise the prompt asks until a line validates. The SPA name saved and the lines left are those of `NameAnswer`, and whatever is saved has passed the validator |
| Scaffold.Settings.PromptForUrl | lib/new.js:186-203 | `--no-repo` gives `''` without prompting, and a truthy `--repo` is used verbatim. Otherwise the prompt's answer is used, with `''` as the default. The URL saved and the lines left are those of `UrlAnswer` |
| Scaffold.Settings.CloneRepo | lib/new.js:156-180 | Settles and calls exactly as `RepoOutcome` says. Without a URL the step does nothing. Otherwise one clone into the SPA's path, rejected with the clone error or, for a non-empty repository, with `skyux new only works with empty repositories.` |
| Scaffold.Settings.CloneTemplate | lib/new.js:135-150 | Settles and calls exactly as `TemplateOutcome` says: one clone of the template URL into `pathTmp`, rejected with the clone error |
| Scaffold.Settings.CleanupTemplate | lib/new.js:87-129 | Settles and calls exactly as `CleanupOutcome` says. A read or rewrite error rejects with nothing written. Otherwise the rewritten manifest and the template are installed into the SPA's path, and a persistence error rejects |
| Scaffold.Settings.CheckoutBranch | lib/new.js:49-73 | Settles and calls exactly as `CheckoutOutcome` says. Without a URL the step does nothing. Otherwise one `git checkout` in the SPA's path, rejected on a non-zero exit code |
| Scaffold.Settings.NpmInstall | lib/npm-install.js:11-34 | Settles and calls exactly as `NpmOutcome` says: one `npm install` in the SPA's path, rejected with `npm install failed.` on a non-zero exit code |
| Scaffold.Settings.Notify | lib/new.js:300-304 | The two closing lines are logged, and nothing else changes |
| Scaffold.Settings.AskNames | lib/new.js:312-313 | The name prompt comes before the URL prompt, which reads the lines the name prompt left. The number of prompts answered, the SPA name and the URL are those of `NameAnswer`, `UrlAnswer` and `Settle`, and once the name is saved the paths follow from it |
| Scaffold.Settings.CloneAll | lib/new.js:314-315 | The status, the number of steps started and the calls appended are those of the chain of `RepoOutcome` then `TemplateOutcome`: the template is cloned only after the repository step resolves |
| Scaffold.Settings.Install | lib/new.js:316-319 | The status, the number of steps started and the calls appended are those of the chain of versions, cleanup, checkout and `npm install`, each started only after the previous one resolves. A resolved run ends with `npm install` |
| Scaffold.Settings.Pipeline | lib/new.js:314-321 | The number of steps started and the calls appended are those of the six-step chain. A rejection is logged once with its reason and fails the run; otherwise `notify` logs its two lines and the run finishes |
| Scaffold.Settings.Fail | lib/new.js:321 | A rejection is logged once as an error, and nothing else changes |
| Scaffold.Settings.Run | lib/new.js:309-322 | The template comes from the arguments. The outcome, the steps of `Plan` reached, the calls appended and the lines logged are exactly those of `NewRun`. Once both prompts are answered the settings are those `Settle` gives, and a saved name has passed the validator |
| LegacyNew.FolderName | new.js:17-18 | The project folder is `sky-pages-spa-<spaName>` under the cwd |
| LegacyNew.GitDirAsWrittenMissesClone | new.js:47 | For every valid SPA name, the removed directory `<spaName>/.git` is not the clone's `.git` |
| LegacyNew.GitDirToRemove | new.js:47 | The corrected removal targets the `.git` of the cloned folder |
| LegacyNew.GitDirInsideClone | new.js:18 | The directory removed lies inside the folder the template was cloned into |
| LegacyNew.GitDirExample | new.js:17-18 | For `my-spa` the clone is in `sky-pages-spa-my-spa`, while as written `my-spa/.git` is removed |
| LegacyNew.FixUpPackageJson | new.js:20-33 | On an object manifest: `name` becomes `blackbaud-sky-pages-spa-<spaName>` and `description` becomes `Single-page-application for <spaName>`. `repository` is replaced only for a non-empty URL, and the rest is unchanged. A non-object throws |
| LegacyNew.AfterCloneResult | new.js:43-57 | A clone error is only logged. Otherwise the given `.git` directory is removed first; the project is created iff package.json reads as an object, in which case the rewrite, the install and the success message follow in that order |
| LegacyNew.AfterCloneAsWrittenKeepsCloneHistory | new.js:43-57 | For every valid SPA name, the callback as written, removing `<spaName>/.git`, never removes the clone's `.git` |
| LegacyNew.Session.constructor | new.js:12-14 | Nothing is logged or done before the prompts |
| LegacyNew.Session.CloneComplete | new.js:43-57 | The clone callback logs and does exactly what `AfterClone` says with the corrected `.git` directory, and keeps the answers |
| LegacyNew.Session.Run | new.js:12-94 | The name prompt asks until a valid name, and the URL prompt until a non-empty line. Then the clone of the template into the SPA's folder is logged and made, and the clone callback runs |
| DevServe.PrependAll | lib/core/serve.js:68-70 | `unshift` succeeds iff every value is an array, and then each array has the client first followed by its old items |
| DevServe.PrependClient | lib/core/serve.js:68-70 | The loop throws iff `config.entry` has an entry that is not an array. Otherwise every entry array gets the client prepended exactly once, and the keys and their order are kept |
| DevServe.WithEntry | lib/core/serve.js:68-72 | Webpack sees the updated entries, and every other property is unchanged |
| DevServe.HostOf | lib/core/serve.js:44-49 | The host URL is formatted from `config[section].host`. Reading it throws iff that section or its host is undefined or null |
| DevServe.DefaultConfigSkyPages | lib/webpack/serve.config.js:141-146 | The default configuration's SKY_PAGES section is the shell host section, with `config` set to `{}` |
| DevServe.DefaultConfigHasNoStache | lib/webpack/serve.config.js:54-108 | The default configuration has no `STACHE` property |
| DevServe.DefaultConfigPort | lib/webpack/serve.config.js:68 | The default dev-server port is 31337 |
| DevServe.DefaultLocalUrl | lib/core/serve.js:63 | With the default port, the served URL is `https://localhost:31337` |
| DevServe.StacheLookupFailsOnDefaultConfig | lib/core/serve.js:46-47 | On the default configuration, the host lookup as written throws a TypeError |
| DevServe.HostOfShellHost | lib/core/serve.js:44-49 | A section holding the shell host gives `https://blackbaud-shell.azurewebsites.net/?hash=<encoded>` |
| DevServe.HostLookupSucceedsOnDefaultConfig | lib/core/serve.js:44-49 | On the default configuration, the corrected lookup of the SKY_PAGES host succeeds |
| DevServe.DevServer.constructor | lib/core/serve.js:12-14 | The latch is unset, and nothing is logged or started |
| DevServe.DevServer.Serve | lib/core/serve.js:60-78 | The URL is `https://localhost:<devServer.port>`, `noAutoOpen` comes from argv, and the latch is reset. It throws iff an entry is not an array. Otherwise webpack runs on the updated configuration, and then the server listens on the port |
| DevServe.DevServer.OnCompilerDone | lib/core/serve.js:32-54 | After a reset, only the first event acts. It logs `Local instance available at <url>` and closes the latch. It opens the URL iff `noAutoOpen` is falsy and the host lookup does not throw. Later events do nothing |
| DevServe.DevServer.OnServerListen | lib/core/serve.js:21-25 | An error is logged iff the argument is truthy, and nothing else changes |

## Left out

- **Oracles:** module loading and the file system are parameters, not modelled: `require`, `fs.existsSync`, `readJsonSync`, `readdirSync`, and the write/remove/copy block of `cleanupTemplate`. So are git-clone, promptly's input, the exit codes of spawned processes, `latest-version` and `merge.smart`. `merge.smart` is an uninterpreted binary function.
- **Timing:** Promise and callback timing is not modelled. Each step of a chain runs once the previous one has settled, and `Promise.all` of the two version lookups is one oracle answer.
- **Foreign libraries:** webpack, webpack-dev-server, `open`, ProgressBarPlugin, webpack-fail-plugin and DefinePlugin are left out. Their instances are opaque `Host` values, and webpack and the dev server appear only as the calls made to them.
- **Host page encoding:** the `JSON.stringify`/base64 encoding of the compilation stats is a string parameter. The host URL built from it is computed, but not opened, in lib/core/serve.js either.
- **`path.join`:** modelled only on plain segments. A base of `.` or `''` is dropped, and no other normalisation is done; as in Node, `path.join('.', name)` is `name`.
- **Non-integral numbers:** only integral numbers are modelled.
- **Non-object writes:** a property write or `unshift` on an array or a foreign object, where the model expects a plain object or array, is modelled as the TypeError a primitive gives.
- **Duplicate keys:** a JSON object with duplicate keys is read at its first occurrence.
- **Messages not modelled:**
  - debug and verbose logging;
  - `logger.promise` spinner messages;
  - the `logger.info` lines of `cleanupTemplate`, `npm-install` and the name validator;
  - the `logger.error` lines the validators print before a prompt asks again.
- **Prompt input:** promptly's trimming of input lines is not modelled.
- **`settings.stdio`:** the verbose/ignore switch.
- **Not part of this model:** lib/install.js, lib/help.js, lib/version.js, lib/core/version.js, lib/core/build.js, utils/logger.js and bin/*.js. They are reached only as opaque handlers or results.
- **Throwing collaborators:** a plugin's `runCommand` or a loader hook that throws is not modelled.
- **Local handlers:** index.js's local handlers, `lib/version` and `lib/new`, are recorded as which one ran, not as what they do.
- **DevServe.DevServer.Serve:** takes the result of `getWebpackConfig()` as a parameter, and requires a successful one to be an object. Every successful result of `ServeConfig.GetWebpackConfig` is one, because exposing SKY_PAGES writes into an object.
- **DevServe.DevServer.OnCompilerDone:** reads the host from the `SKY_PAGES` section, not from `STACHE` as lib/core/serve.js:46-47 does. See Findings.
- **LegacyNew.Session.CloneComplete:** uses the corrected `.git` path, not new.js:47's; see Findings.
  - The success message is logged together with the install call, because the `exit` listener of `npm install` logs it whatever the exit code.
  - The unawaited `fs.remove` is recorded as a call.
- LegacyNew.Session.Run: runs the clone callback with the corrected `.git` path, `GitDirToRemove`, not new.js:47's. `AfterClone` applied to `GitDirAsWritten` is the callback as written; see Findings.
- LegacyNew.AfterCloneResult: holds for whichever directory is removed, so it covers both the callback as written and the corrected one.
- PluginIndex.PluginModule: a module whose export is `null` or `undefined` is not representable. index.js:34 would throw a TypeError on it, which the model does not produce.
- ServeConfig.LoaderExports: a loader whose export is `null` or `undefined` is not representable. lib/webpack/serve.config.js:23 would throw a TypeError on it, which the model does not produce.

## Findings

| source | as written | input that shows it | evidently intended | confidence | as-written member | corrected member |
|---|---|---|---|---|---|---|
| new.js:47 | removes `path.join(spaName, '.git')`, relative to the cwd, while the template was cloned into `sky-pages-spa-<spaName>` | SPA name `my-spa`: `my-spa/.git` is removed, and `sky-pages-spa-my-spa/.git` is kept | remove the `.git` of the cloned folder, `path.join(folderName, '.git')` | not executed | LegacyNew.GitDirAsWritten (with LegacyNew.GitDirAsWrittenMissesClone, LegacyNew.GitDirExample) | LegacyNew.GitDirToRemove (with LegacyNew.GitDirInsideClone) |
| lib/core/serve.js:46-47 | reads `config.STACHE.host.url`, but the configuration lib/webpack/serve.config.js builds has a `SKY_PAGES` section and no `STACHE` | `skyux serve` without package.json and without `--noAutoOpen`: the first compilation throws a TypeError before `open(url)` | read the host of the section the configuration defines, `config.SKY_PAGES.host` | not executed | DevServe.HostLookupAsWritten (with DevServe.StacheLookupFailsOnDefaultConfig) | DevServe.HostLookup (with DevServe.HostLookupSucceedsOnDefaultConfig) |
