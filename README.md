# AngularFire deploy builder and ng-add helpers, modelled in Dafny

This project models two parts of AngularFire's Angular CLI integration.

The first is the `deploy` builder (`src/schematics/deploy/actions.ts`). It:

- logs in to Firebase when it has no token;
- schedules the prerender build, or the static build and the optional server build;
- selects the Firebase project;
- dispatches to one of three pipelines:
  - static hosting only;
  - server-side rendering on Cloud Functions;
  - server-side rendering on Cloud Run.

The two SSR pipelines stage the build output below a root derived from the static output path. They write a generated `package.json` (`getPackageJson`) and an entry file (`index.js` or `Dockerfile`) there, and keep `index.html` as `index.original.html`. Then they serve a preview, or run the two `gcloud` commands, before the Firebase deploy call.

The second part is the ng-add helpers (`src/schematics/ng-add-common.ts`):

- `overwriteIfExists` on the schematic's file tree;
- `safeReadJSON`;
- the generation of `.firebaserc` deploy targets;
- `addDependencies`, which adds the wanted versions to `package.json` and warns about installed ones that do not fit.

## Structure

- `wrappers.dfy`, module `Wrappers`: `Option`, `Result`, and `Outcome` (pass, or fail with an error).
- `text.dfy`, module `Text`: has the following parts.
  - `escapeRegExp`.
  - `String.prototype.replace` with a string pattern, which replaces the first occurrence only.
  - `split(':')[0]`.
  - `getVersionRange`.
- `fs.dfy`, module `Fs`: the file tree and the `FSHost` capability as a class.
  - `FsHost` has a `files` map and a `trace` of every call made on a collaborator.
  - It provides `removeSync`, `copySync`, `writeFileSync`, `renameSync` and `moveSync`.
- `manifest.dfy`, module `Manifest`: `getPackageJson`, as a method that updates its dictionaries step by step.
  - It is proved equal to the function `PackageJson`.
  - Lemmas state the manifest's properties.
- `actions.dfy`, module `Actions`: every pipeline and `deploy`, each as a method over an `FsHost`.
  - Each method is proved to end with exactly the files, trace and outcome of a specification function: `HostingRun`, `FunctionRun`, `CloudRunRun`, `Dispatch` and `DeployRun`.
- `deploy_properties.dfy`, module `DeployProperties`: lemmas about those functions. They cover:
  - at most one deploy call;
  - the deploy scope and the preview targets;
  - the order of the staging steps;
  - what each error leaves behind;
  - which builds are started;
  - the gcloud command lines.
- `ngadd.dfy`, module `NgAdd`: has the following parts.
  - The schematic `Tree` as a class with a `files` map and a change `log`.
  - JSON values, with JavaScript truthiness.
  - `.firebaserc` editing.
  - The `addDependencies` loop, as a method proved against `AddDependenciesRun`.

## Collaborators and inputs

Calls into code the model cannot see become inputs, in `Actions.Collaborators`, `Actions.Context` and `Manifest.Workspace`. These inputs are:

- the answers of Firebase tools (login, use, serve, deploy), and whether attaching the console logger works;
- the confirmation prompt;
- how each of the two gcloud processes ends;
- how each scheduled build ends;
- the `outputPath` of each build target;
- the workspace's `angular.json` and `package.json`, and the versions `npm list` reports;
- `DEFAULT_FUNCTION_NAME`.

In `NgAdd`, `shortSiteName(site)` is an input `Option<string>`. `semver.intersects` is an input function that answers `None` when it throws.

## Where the model follows the code

- A build whose `run.result` resolves with `success: false` does not stop the deploy. The code awaits the result and never reads `success`; only a rejected build propagates. `Actions.BuildPhase` and `DeployProperties.BuildPhaseOutcome` state this.
- The guard `packageJson === undefined` in `addDependencies` never fires. An absent file makes `exists && safeReadJSON(...)` evaluate to `false`, and `JSON.parse` never returns `undefined`. See "## Findings".
- `context.target` may be unset on the prerender path. The code then raises a TypeError at the first `context.target!.project`. The model raises `TargetUnset` there.

## Model

| member | source | states |
|---|---|---|
| Text.EscapeRegExp | src/schematics/deploy/actions.ts:46 | the escaped string is longer than the input by the number of special characters, and is empty exactly when the input is |
| Text.EscapeRegExpIsLiteral | src/schematics/deploy/actions.ts:46 | read as a pattern, the escaped string matches exactly the original text, so every special character is neutralised |
| Text.EscapeRegExpConcat | src/schematics/deploy/actions.ts:46 | escaping distributes over concatenation (the global replace works character by character) |
| Text.CountSpecialsZero | src/schematics/deploy/actions.ts:46 | no character is escaped exactly when the string holds none of the sixteen special characters |
| Text.NoSpecialsUnchanged | src/schematics/deploy/actions.ts:46 | a string without special characters escapes to itself |
| Text.EscapeRegExpIdentity | src/schematics/deploy/actions.ts:46 | escaping leaves a string unchanged if and only if it holds no special character |
| Text.IndexOf | src/schematics/deploy/actions.ts:180 | the index found is an occurrence with none before it, and none is found exactly when the pattern occurs nowhere |
| Text.ReplaceFirstOccurrence | src/schematics/deploy/actions.ts:180 | `replace` with a string pattern replaces only the first occurrence and keeps what lies around it |
| Text.ReplaceFirstAbsent | src/schematics/deploy/actions.ts:279 | without an occurrence of the pattern, `replace` returns the string unchanged |
| Text.BeforeFirst | src/schematics/deploy/actions.ts:181 | `split(':')[0]` is a prefix free of the separator, followed in the input by the separator when it is shorter |
| Text.CaretMajor | src/schematics/deploy/actions.ts:99 | the major version read back from a caret range rebuilds that range |
| Text.VersionRange | src/schematics/deploy/actions.ts:99 | the range `^<v>.0.0` reads back to exactly the version it was built from |
| Manifest.SubstituteLocalDev | src/schematics/deploy/actions.ts:143-146 | same keys, each value in published form, and `@angular/fire` never left at the local-development path |
| Manifest.ResolveAll | src/schematics/deploy/actions.ts:114-121 | the loop over the default names fills in every version the lookup finds, in order, and keeps the rest |
| Manifest.CopyDeclared | src/schematics/deploy/actions.ts:132-134 | the declared dependencies are copied over the defaults, and the declared versions win |
| Manifest.GetPackageJson | src/schematics/deploy/actions.ts:106-149 | the in-place dictionary updates give exactly the manifest `PackageJson` describes, or its TypeError |
| Manifest.DefaultsByMode | src/schematics/deploy/actions.ts:107-113 | Cloud Run mode starts from no defaults; any other mode starts from firebase-admin and firebase-functions, plus firebase-functions-test as a devDependency, each resolved or `latest` |
| Manifest.ResolvedDefaults | src/schematics/deploy/actions.ts:107-121 | a defaults object after the lookup has exactly the default names as keys, each resolved or `latest` |
| Manifest.WithResolvedSpec | src/schematics/deploy/actions.ts:114-121 | the lookup adds or overwrites exactly the names it resolves, with their versions, and keeps every other entry |
| Manifest.ManifestShape | src/schematics/deploy/actions.ts:106-149 | every manifest produced has the mode's default devDependencies, the given entry point and no local self-reference |
| Manifest.MergeSkipped | src/schematics/deploy/actions.ts:122-135 | without angular.json, or with bundling disabled but no package.json, only the substituted defaults are shipped |
| Manifest.ManifestErrors | src/schematics/deploy/actions.ts:122-135 | getPackageJson throws exactly in three cases: angular.json is present and the target is unset; angular.json lacks the project; or bundling is disabled and package.json has no `dependencies`. Each case gets its own error |
| Manifest.BundleDisabledCopiesDeclared | src/schematics/deploy/actions.ts:129-135 | with `bundleDependencies === false`, every declared dependency is shipped at its declared version, over any default, and nothing else is added |
| Manifest.BundledAddsResolvedExternals | src/schematics/deploy/actions.ts:114-141 | otherwise each external dependency is added exactly when `npm list` reports a non-empty version. Every entry, external or default, ships the reported version, or `latest` when none is reported |
| Fs.JoinUnder | src/schematics/deploy/actions.ts:183-184 | `join(root, p)` lies strictly below `root`, and the rest of it is `p` |
| Fs.JoinDistinct | src/schematics/deploy/actions.ts:203-210 | a file name written directly into the staging root never collides with a path of the copied output |
| Fs.RemoveTreeSpec | src/schematics/deploy/actions.ts:190 | `removeSync` keeps exactly the files outside the subtree, with their contents |
| Fs.RelocatedSpec | src/schematics/deploy/actions.ts:191-192 | each file below the source appears, with its content, at its re-rooted path, and nothing else appears |
| Fs.RenameFileSpec | src/schematics/deploy/actions.ts:214-217 | a rename fails exactly when the file is missing, and otherwise moves that one file and touches no other path |
| Fs.CopyTreeFrame | src/schematics/deploy/actions.ts:191-192 | a copy changes nothing outside any directory that holds its destination |
| Fs.MoveRelocates | src/schematics/deploy/actions.ts:48-51 | after a move the destination holds the source's files with their contents, and nothing of the source remains |
| Fs.FsHost.constructor | src/schematics/deploy/actions.ts:91-97 | the host starts with the given files and an empty trace |
| Fs.FsHost.Record | src/schematics/deploy/actions.ts:91-97 | recording a collaborator's call appends it to the trace and leaves the files alone |
| Fs.FsHost.RemoveSync | src/schematics/deploy/actions.ts:96 | the subtree goes, and the call is recorded |
| Fs.FsHost.CopySync | src/schematics/deploy/actions.ts:95 | the subtree is copied, or the error is returned with the files unchanged; the call is recorded |
| Fs.FsHost.WriteFileSync | src/schematics/deploy/actions.ts:93 | exactly one file is created or replaced, and the call is recorded |
| Fs.FsHost.RenameSync | src/schematics/deploy/actions.ts:94 | one file moves, or the error is returned with the files unchanged; the call is recorded |
| Fs.FsHost.MoveSync | src/schematics/deploy/actions.ts:48-51 | a copy, then removal of the source only when the copy succeeded; a failed copy leaves the files unchanged |
| Actions.DeployOptions.constructor | src/schematics/deploy/actions.ts:44 | the options object holds the given values |
| Actions.ReadOutputPath | src/schematics/deploy/actions.ts:162-174 | the read succeeds exactly when the target's `outputPath` option is a non-empty string, and then that string is the value; otherwise the error names the target |
| Actions.Prepare | src/schematics/deploy/actions.ts:161-218 | staging passes only when both output paths were read |
| Actions.Relocate | src/schematics/deploy/actions.ts:190-192 | the remove and two copies give exactly the files, trace and outcome of `Stage`; the second copy is skipped after a failed first |
| Actions.KeepOriginalIndex | src/schematics/deploy/actions.ts:213-218 | the `index.html` backup is attempted once, and a missing `index.html` is swallowed |
| Actions.PreviewAndDeploy | src/schematics/deploy/actions.ts:220-245 | the serve, prompt and deploy calls are exactly those of `Gate`, and no file changes |
| Actions.DeployToHosting | src/schematics/deploy/actions.ts:53-89 | deployToHosting makes exactly the calls of `HostingRun`, ends with its outcome and changes no file |
| Actions.WritePayload | src/schematics/deploy/actions.ts:203-218 | the manifest write, the entry-file write and the backup make exactly the files and calls of `Payload` |
| Actions.StageServerBuild | src/schematics/deploy/actions.ts:161-218 | reading the output paths, staging, the manifest and the payload give exactly the files, trace and outcome of `Prepare` |
| Actions.DeployToFunction | src/schematics/deploy/actions.ts:151-247 | deployToFunction ends with exactly the files, trace and outcome of `FunctionRun` |
| Actions.SpawnAsync | src/schematics/deploy/actions.ts:15-42 | the process is recorded, and the call fails with that command exactly when the process cannot start or closes with code 1 |
| Actions.CloudRunSteps | src/schematics/deploy/actions.ts:319-336 | the preview refusal, the two gcloud processes and the hosting deploy are exactly those of `CloudRunTail`, and no file changes |
| Actions.DeployToCloudRun | src/schematics/deploy/actions.ts:250-337 | deployToCloudRun ends with exactly the files, trace and outcome of `CloudRunRun` |
| Actions.RunBuilds | src/schematics/deploy/actions.ts:353-384 | the scheduled builds and the build outcome are exactly those of `BuildPhase`, and no file changes |
| Actions.LoggedDispatch | src/schematics/deploy/actions.ts:393-452 | a failed logger setup changes nothing and is logged; otherwise the run ends with exactly the files, trace and outcome of `Dispatch`, and a pipeline error is only logged |
| Actions.DispatchDeploy | src/schematics/deploy/actions.ts:418-448 | the pipeline chosen ends with exactly the files, trace and outcome of `Dispatch` |
| Actions.Deploy | src/schematics/deploy/actions.ts:339-453 | deploy ends with exactly the files, trace, options object and status of `DeployRun` |
| DeployProperties.GateDeploysOnce | src/schematics/deploy/actions.ts:61-87 | at most one deploy call, exactly when there is a target and no preview or a served and confirmed one, scoped to hosting and the function; a preview serves the same targets first |
| DeployProperties.PreviewDeclined | src/schematics/deploy/actions.ts:77 | declining the prompt after a preview ends normally, without a deploy call |
| DeployProperties.StageFrame | src/schematics/deploy/actions.ts:190-192 | staging changes nothing outside the staging root |
| DeployProperties.StageRerun | src/schematics/deploy/actions.ts:190-192 | staging again over its own result gives the same files, trace and outcome, because it first clears the root |
| DeployProperties.StageWithoutBrowserSegment | src/schematics/deploy/actions.ts:180 | an output path without `/browser` is its own staging root, so staging deletes the static output and the first copy fails |
| DeployProperties.PrepareOutputPathErrors | src/schematics/deploy/actions.ts:162-174 | an unreadable output path stops the pipeline before any call, and the static target is checked first |
| DeployProperties.StageSteps | src/schematics/deploy/actions.ts:190-192 | staging removes the root, copies the static output, then copies the server output unless the first copy failed |
| DeployProperties.PrepareSteps | src/schematics/deploy/actions.ts:190-218 | the calls are a prefix of the staging steps in source order, at least the removal and first copy, and all of them when staging passes |
| DeployProperties.KeepIndexKeeps | src/schematics/deploy/actions.ts:213-218 | the `index.html` backup touches no file directly below the staging root |
| DeployProperties.PayloadWritten | src/schematics/deploy/actions.ts:203-211 | after the payload, the root holds the generated manifest and the mode's entry file |
| DeployProperties.PreparedPayload | src/schematics/deploy/actions.ts:203-218 | after a successful staging the root holds the generated manifest and the mode's entry file, whatever the backup did |
| DeployProperties.PrepareSelectsNothing | src/schematics/deploy/actions.ts:161-218 | staging makes no deploy, serve, process or build call |
| DeployProperties.FunctionRunDeploys | src/schematics/deploy/actions.ts:239-245 | one deploy call, of hosting and the function `ssr_<project>`, exactly when staging passed and the gate passes |
| DeployProperties.FunctionRunServes | src/schematics/deploy/actions.ts:220-228 | the preview serves hosting and the same function that is deployed, on localhost:5000 |
| DeployProperties.FunctionRunNoProcess | src/schematics/deploy/actions.ts:151-247 | deployToFunction neither spawns a process nor schedules a build |
| DeployProperties.FunctionRunStopsOnStagingError | src/schematics/deploy/actions.ts:161-218 | a staging failure ends deployToFunction with staging's own files, calls and error |
| DeployProperties.CloudRunTailSpawns | src/schematics/deploy/actions.ts:319-327 | a preview is refused before any process; otherwise the submit runs, and the service deploy runs only when the submit resolved |
| DeployProperties.CloudRunTailNoServe | src/schematics/deploy/actions.ts:319-336 | the Cloud Run steps never serve and never schedule a build |
| DeployProperties.CloudRunTailDeploys | src/schematics/deploy/actions.ts:326-336 | one hosting-only deploy call exactly when there is no preview, both processes resolved and there is a target; it passes exactly when that call succeeds |
| DeployProperties.CommandsShareImage | src/schematics/deploy/actions.ts:326-327 | both gcloud commands name the image `gcr.io/<project>/<service>`, and the service deploy names the service first |
| DeployProperties.CloudRunPreviewRefused | src/schematics/deploy/actions.ts:319-321 | with a preview, Cloud Run stages and writes everything, then fails with "Cloud Run preview not supported yet." before any process or deploy |
| DeployProperties.CloudRunNamesService | src/schematics/deploy/actions.ts:280-327 | every gcloud command line names `options.functionName` when it is set, and the default service name only when it is missing |
| DeployProperties.CloudRunTailExitCodes | src/schematics/deploy/actions.ts:30-41 | in the Cloud Run steps the hosting deploy happens only if both processes closed with a code other than 1. A submit that fails to start or closes with 1 stops everything after it, and so does such a service deploy |
| DeployProperties.CloudRunExitCodes | src/schematics/deploy/actions.ts:326-330 | the same for the whole of deployToCloudRun: a failing submit is its last process, with no deploy, and the error names that command; a failing service deploy is the second and last process, with no deploy |
| DeployProperties.CloudRunRunSpawns | src/schematics/deploy/actions.ts:326-327 | the processes are the submit of the staging root, then the service deploy, only after staging and without a preview |
| DeployProperties.CloudRunRunDeploys | src/schematics/deploy/actions.ts:330-336 | at most one deploy call, hosting only, and only after staging and both processes succeeded |
| DeployProperties.CloudRunRunNoServe | src/schematics/deploy/actions.ts:250-337 | deployToCloudRun never starts the emulator and schedules no build |
| DeployProperties.DispatchSchedulesNothing | src/schematics/deploy/actions.ts:418-448 | whichever pipeline runs, it schedules no build |
| DeployProperties.DispatchDeploysAtMostOnce | src/schematics/deploy/actions.ts:418-448 | whichever pipeline runs, it makes at most one deploy call; without a server target the files stay as they were and only hosting is deployed |
| DeployProperties.BuildPhaseOutcome | src/schematics/deploy/actions.ts:353-384 | the build phase fails only for a missing builder target with no prerender target, or for a rejected build; `success: false` does not stop it |
| DeployProperties.BuildSchedules | src/schematics/deploy/actions.ts:353-384 | the builds started, in order: the prerender target alone, or the static build then the server build when there is one |
| DeployProperties.DeployStatus | src/schematics/deploy/actions.ts:339-453 | errors before project selection are thrown and leave files and options untouched; after it, the project is written into the options and pipeline errors are only logged; each error case is characterised |
| DeployProperties.DeployLoggerFailure | src/schematics/deploy/actions.ts:393-452 | a throw while attaching the console logger is only logged. The files stay as they were, no deploy call is made, selecting the project is the last call, and the options keep the selected project |
| DeployProperties.DeployLogsInFirst | src/schematics/deploy/actions.ts:349-351 | deploy logs in as its first call exactly when it has no token or an empty one |
| DeployProperties.DeploySchedules | src/schematics/deploy/actions.ts:349-384 | the builds deploy starts: none when login fails, otherwise exactly those of the build phase |
| DeployProperties.DeploySchedulesPipeline | src/schematics/deploy/actions.ts:353-448 | the builds started by a deploy that reaches the pipeline are exactly those of the build phase |
| DeployProperties.DeploySchedulesEarly | src/schematics/deploy/actions.ts:349-390 | the builds started by a deploy that stops before the pipeline are exactly those of the build phase, or none after a failed login |
| DeployProperties.DeployDeploysAtMostOnce | src/schematics/deploy/actions.ts:339-453 | deploy makes at most one deploy call, and without a server target it changes no file |
| DeployProperties.DeployDeploysPipeline | src/schematics/deploy/actions.ts:418-448 | a deploy that reaches the pipeline makes at most one deploy call, and without a server target it changes no file |
| DeployProperties.DeployDeploysEarly | src/schematics/deploy/actions.ts:349-390 | a deploy that stops before the pipeline makes no deploy call and changes no file |
| NgAdd.Tree.constructor | src/schematics/ng-add-common.ts:26-36 | the tree starts with the given files and an empty change log |
| NgAdd.Tree.Create | src/schematics/ng-add-common.ts:34 | `create`, on a path that does not exist, adds exactly that file and logs the creation |
| NgAdd.Tree.Overwrite | src/schematics/ng-add-common.ts:32 | `overwrite`, on a path that exists, replaces exactly that file and logs the overwrite |
| NgAdd.OverwriteIfExists | src/schematics/ng-add-common.ts:26-36 | the path ends up holding the text; the change is an overwrite exactly when the path existed, otherwise a creation |
| NgAdd.ReadAfterWrite | src/schematics/ng-add-common.ts:83-90 | after a write, reading that path gives the value written and every other path reads as before |
| NgAdd.GenerateFirebaseRc | src/schematics/ng-add-common.ts:54-81 | on success exactly one write, of the generated `.firebaserc`, to the path; on an error the tree and its log are unchanged |
| NgAdd.UpdatedRcReplacesEntry | src/schematics/ng-add-common.ts:65-78 | the project's target entry is replaced rather than merged; other targets and other top-level keys are kept; a missing or falsy `targets` starts as `{}` |
| NgAdd.UpdatedRcErrors | src/schematics/ng-add-common.ts:65-78 | the edit fails, always with a TypeError, exactly for a null or primitive value or a truthy primitive `targets`; an array is written back unchanged |
| NgAdd.UpdatedRcIdempotent | src/schematics/ng-add-common.ts:65-78 | applying the edit to its own result changes nothing more |
| NgAdd.GeneratedRcReads | src/schematics/ng-add-common.ts:61-63 | an existing `.firebaserc` that does not parse gives the safeReadJSON parse error naming the path; one that parses is the object the new target is added to |
| NgAdd.GeneratedRcFromAbsent | src/schematics/ng-add-common.ts:61-80 | without a `.firebaserc` the file written holds exactly `targets` with the one new target |
| NgAdd.GeneratedRcSite | src/schematics/ng-add-common.ts:44-81 | afterwards the project resolves to the short site name, or to the Firebase project id when there is none, and every other Firebase project's site is as it was |
| NgAdd.AddDependenciesReads | src/schematics/ng-add-common.ts:97-98 | a package.json that does not parse fails with the safeReadJSON parse error naming it, with no warnings; one that parses is what the dependencies are added to |
| NgAdd.AddDependencies | src/schematics/ng-add-common.ts:92-126 | the loop and final write give exactly `AddDependenciesRun`: one overwrite-or-create of package.json on success, an unchanged tree on error, the warnings in order |
| NgAdd.AddAllOutcome | src/schematics/ng-add-common.ts:104-123 | the loop passes exactly when every requested section can be indexed and assigned into, and otherwise fails with a TypeError |
| NgAdd.AddOneFrame | src/schematics/ng-add-common.ts:105-122 | one iteration changes only its own entry, and which sections can be written is unchanged |
| NgAdd.AddOneEntry | src/schematics/ng-add-common.ts:105-122 | one iteration sets the dependency's entry to the wanted version unless a truthy one is there, and changes no other entry |
| NgAdd.AddAllEntry | src/schematics/ng-add-common.ts:104-123 | after the loop, missing or falsy requested entries hold the wanted version, truthy ones are kept, and all other entries are as they were |
| NgAdd.AddAllFrame | src/schematics/ng-add-common.ts:104-123 | the loop keeps a non-object value, the keys of an object, every key other than the two sections, and an array section |
| NgAdd.AddAllStable | src/schematics/ng-add-common.ts:104-123 | on a package.json where each requested entry is already truthy or wanted, the loop passes and changes nothing |
| NgAdd.AddAllSettles | src/schematics/ng-add-common.ts:104-123 | adding the same dependencies a second time changes nothing more (idempotence) |
| NgAdd.AddAllWarnings | src/schematics/ng-add-common.ts:108-119 | the warnings are exactly one per visited dependency whose installed version is truthy and conflicts, judged against package.json as read |
| NgAdd.AbsentPackageJsonNotReported | src/schematics/ng-add-common.ts:97-102 | as written, a missing package.json is never reported: no dependencies writes `false`, any dependency fails with a TypeError |
| NgAdd.AddDependenciesChecked | src/schematics/ng-add-common.ts:92-126 | the corrected addDependencies gives exactly `AddDependenciesCheckedRun`, one overwrite of package.json on success and an unchanged tree on error |
| NgAdd.CheckedReportsMissing | src/schematics/ng-add-common.ts:97-102 | the corrected version fails with "Could not locate package.json" exactly when the file is missing, and otherwise behaves as written, only ever overwriting |

## Left out

- I/O of every kind is replaced by inputs. This covers `execSync('npm list ...')` with its regular expression, `readFileSync`/`existsSync` of the workspace, the build system, Firebase tools, the `inquirer` prompt and the spawned processes. A `writeFileSync` (or other fs-extra call) that throws is not modelled: every write succeeds. Their answers are parameters (see "Collaborators and inputs").
- Process output is not modelled. This covers the stdout and stderr of spawned processes, `console.log(options)`, and the `context.logger` info and error messages.
- spawnAsync, as modelled by `Actions.SpawnAsync`, does not model splitting the command on whitespace or collecting output buffers; only the exit-code rule matters to the deploy.
- The Node version check (actions.ts:194-201 and 293-300) is not modelled, because `semver.satisfies` and `process.versions.node` are outside the model. It only logs a warning. `getVersionRange` itself is modelled.
- Attaching the winston console transport (actions.ts:394-416) is one yes/no answer, `Collaborators.loggerOk`. A failure is logged like a pipeline error, and the pipeline does not run (`DeployProperties.DeployLoggerFailure`). The log format, the `open` of the local server URL and which `logger.add` the `cli.version()` check picks are not modelled.
- An `angular.json` without `projects`, or a project entry without `architect`, cannot be expressed by `Manifest.Workspace`. The TypeError getPackageJson raises there (actions.ts:125) is not modelled; `Manifest.ManifestErrors` covers only the cases the type can express.
- Directories are not entries of `Fs.Files`: a path exists only when some file lies below it. An empty directory is therefore not modelled, and `copySync` of one fails with `NotFound` where fs-extra copies it.
- `path.join` is `a + "/" + b`, without normalisation of `.`, `..` or repeated separators.
- JSON text: `JSON.parse` and `JSON.stringify` are abstract. Key order, the two-space formatting and non-integer numbers are not modelled. A named property set on an array is dropped, as `JSON.stringify` drops it.
- `defaultPackage`, `defaultFunction` and `dockerfile` are kept as the values they are rendered from. Their text is not modelled.
- `DEFAULT_FUNCTION_NAME` and `shortSiteName` are inputs. The templates module and `utils.ts` are not part of this model.
- `Promise.all` concurrency: the builds are scheduled and awaited in order. The model gives only one outcome for the whole set.
- A rejection of the confirmation prompt itself is not modelled (the prompt answers yes or no).
- `targetFromTargetString` is taken to accept every target name; its parse errors are not modelled.
- Property names that are numeric strings or `Object.prototype` names are treated like other keys. A section of `package.json` that is an array holds no entry for a package name.
- NgAdd.GeneratedRcSite: stated only for a `.firebaserc` whose `targets` is not an array. With an array, the new entry is a named array property that is not written, and `NgAdd.UpdatedRcErrors` states that case instead.
- Actions.Prepare: its own contract states only that staging passes after both output paths are read; the rest is stated by `DeployProperties.PrepareSteps`, `DeployProperties.PreparedPayload` and `Actions.StageServerBuild`.

## Findings

| source | as written | input that shows it | evidently intended | confidence | as-written member | corrected member |
|---|---|---|---|---|---|---|
| src/schematics/ng-add-common.ts:97-102 | `packageJson` is `host.exists('package.json') && safeReadJSON(...)`, and the guard tests `=== undefined` | a tree without `package.json`: with no dependencies `false` is written as package.json, and with one dependency the loop fails with a TypeError instead of "Could not locate package.json" | a missing package.json raises "Could not locate package.json" before anything else | not executed | NgAdd.AbsentPackageJsonNotReported | NgAdd.CheckedReportsMissing |
