/**
 * The deploy builder's planner (actions.ts): the three pipelines (static
 * hosting only, SSR on Cloud Functions, SSR on Cloud Run) and the
 * top-level `deploy` that builds, selects the Firebase project and
 * dispatches. Every call on a collaborator is recorded in the `FsHost`
 * trace; what a collaborator answers comes from `Collaborators`.
 *
 * Each pipeline is a method over the host, as in actions.ts, and is proved
 * to produce exactly the files, trace and outcome of a specification
 * function (`HostingRun`, `FunctionRun`, `CloudRunRun`, `DeployRun`); the
 * properties of the deploy are lemmas about those functions.
 */
module Actions {
  import opened Wrappers
  import opened Text
  import Manifest
  import opened Fs

  const EmulatorPort: nat := 5000
  const EmulatorHost: string := "localhost"
  const BrowserSegment: string := "/browser"
  const FunctionsSegment: string := "/functions"
  const RunSegment: string := "/run"

  /** `context.target`: the target the builder runs for; only its project is read. */
  datatype TargetRef = TargetRef(project: string)

  /** A build target given to the builder; its options are passed to the build system unread. */
  datatype BuildTarget = BuildTarget(name: string)

  /** The `outputPath` option that `getTargetOptions` returns for a target. */
  datatype OutputPathOption = NoOutputPath | OutputPath(path: string) | NotAString

  /** What awaiting a scheduled build gives: `run.result` resolving, whatever its `success`, or a rejection. */
  datatype BuildResult = Finished(success: bool) | Rejected

  /** The builder context: its target, workspace root, target options and the builds it schedules. */
  datatype Context = Context(
    target: Option<TargetRef>,
    workspaceRoot: string,
    outputPaths: map<string, OutputPathOption>,
    builds: map<string, BuildResult>)

  /** How a spawned process ends: it closes with an exit code, or it cannot be started (`'error'`). */
  datatype ProcessExit = Closed(code: int) | StartFailed

  /**
   * The answers of the collaborators the model does not run: Firebase tools,
   * the confirmation prompt, the two gcloud processes, the workspace files
   * read by getPackageJson, and the templates module's DEFAULT_FUNCTION_NAME.
   * `loggerOk` says whether attaching the console logger to Firebase tools
   * works: loading winston and triple-beam, `cli.version()` and
   * `logger.add` (actions.ts:395-416).
   */
  datatype Collaborators = Collaborators(
    loginOk: bool,
    useOk: bool,
    loggerOk: bool,
    serveOk: bool,
    deployOk: bool,
    confirm: bool,
    submitExit: ProcessExit,
    runExit: ProcessExit,
    workspace: Manifest.Workspace,
    defaultServiceId: string)

  /** The recognised keys of the builder options. */
  datatype OptionsValue = OptionsValue(
    ssr: Option<string>,
    preview: bool,
    functionName: Option<string>,
    firebaseProject: Option<string>)

  /** The builder options object; `deploy` writes `firebaseProject` into it. */
  class DeployOptions {
    var ssr: Option<string>
    var preview: bool
    var functionName: Option<string>
    var firebaseProject: Option<string>

    constructor (v: OptionsValue)
      ensures Value() == v
    {
      ssr, preview, functionName, firebaseProject := v.ssr, v.preview, v.functionName, v.firebaseProject;
    }

    /** The current value of the recognised options. */
    function Value(): OptionsValue
      reads this
    {
      OptionsValue(ssr, preview, functionName, firebaseProject)
    }
  }

  /** The errors the pipelines and deploy raise. */
  datatype DeployError =
    | LoginFailed
    | NoBuildTarget
    | BuildRejected
    | CannotSelectProject(project: string)
    | OutputPathUnreadable(target: string)
    | FileSystem(fsError: FsError)
    | ManifestFailure(manifestError: Manifest.ManifestError)
    | TargetUnset                              // TypeError of `context.target!.project`
    | ServeFailed
    | DeployApiFailure
    | PreviewNotSupported
    | ProcessFailed(command: string)
    | LoggerSetupFailed                        // a throw while attaching the console logger

  /** The message actions.ts gives an error, where it writes one. */
  function Message(e: DeployError): Option<string>
  {
    match e
    case NoBuildTarget => Some("Cannot execute the build target")
    case CannotSelectProject(p) => Some("Cannot select firebase project '" + p + "'")
    case OutputPathUnreadable(t) => Some("Cannot read the output path option of the Angular project '" + t + "' in angular.json")
    case PreviewNotSupported => Some("Cloud Run preview not supported yet.")
    case _ => None
  }

  /** How `deploy` ends: normally, with an error caught and logged by its last `try`, or by throwing. */
  datatype Status = Completed | Logged(error: DeployError) | Thrown(error: DeployError)

  /** The effect of a pipeline on the host: the final files, the calls made, and how it ended. */
  datatype Run = Run(files: Files, trace: seq<Effect>, outcome: Outcome<DeployError>)

  /** The calls a pipeline makes once staging is done, and how it ends. */
  datatype Tail = Tail(trace: seq<Effect>, outcome: Outcome<DeployError>)

  /** The effect of `deploy` on the host and on its options object. */
  datatype DeployResult = DeployResult(files: Files, trace: seq<Effect>, options: OptionsValue, status: Status)

  /** The SSR pipeline a server build is deployed with. */
  datatype Mode = FunctionMode | CloudRunMode

  // ---------------------------------------------------------------------
  // Derived names, scopes and commands
  // ---------------------------------------------------------------------

  /** `outputPath.replace('/browser', segment)`. */
  function StagingRoot(staticOut: string, mode: Mode): string
  {
    ReplaceFirst(staticOut, BrowserSegment, if mode == FunctionMode then FunctionsSegment else RunSegment)
  }

  /** `ssr_${staticBuildTarget.name.split(':')[0]}`. */
  function FunctionName(staticTarget: BuildTarget): string
  {
    "ssr_" + BeforeFirst(staticTarget.name, ':')
  }

  /** `options.functionName ?? DEFAULT_FUNCTION_NAME`. */
  function ServiceId(functionName: Option<string>, defaultServiceId: string): (r: string)
    ensures functionName.Some? ==> r == functionName.value
    ensures functionName.None? ==> r == defaultServiceId
  {
    match functionName
    case Some(n) => n
    case None => defaultServiceId
  }

  /** `hosting:<project>`. */
  function HostingTarget(project: string): string
  {
    "hosting:" + project
  }

  /** `functions:<name>`. */
  function FunctionTarget(functionName: string): string
  {
    "functions:" + functionName
  }

  /** The targets the emulator serves: hosting, and the function when there is one. */
  function ServeTargets(project: string, functionName: Option<string>): seq<string>
  {
    [HostingTarget(project)] + (if functionName.Some? then [FunctionTarget(functionName.value)] else [])
  }

  /** The `only` of the deploy call: hosting, and the function when there is one. */
  function Scope(project: string, functionName: Option<string>): string
  {
    HostingTarget(project) + (if functionName.Some? then "," + FunctionTarget(functionName.value) else "")
  }

  /** A template literal's rendering of `options.firebaseProject`. */
  function ProjectText(firebaseProject: Option<string>): string
  {
    match firebaseProject
    case Some(p) => p
    case None => "undefined"
  }

  /** The container image both gcloud commands name. */
  function ImageTag(project: string, serviceId: string): string
  {
    "gcr.io/" + project + "/" + serviceId
  }

  /** The `gcloud builds submit` command line (actions.ts:326). */
  function SubmitCommand(root: string, project: string, serviceId: string): string
  {
    "gcloud builds submit " + root + " --tag " + ImageTag(project, serviceId) + " --project " + project + " --quiet"
  }

  /** The `gcloud run deploy` command line (actions.ts:327). */
  function RunCommand(serviceId: string, project: string): string
  {
    "gcloud run deploy " + serviceId + " --image " + ImageTag(project, serviceId) + " --project " + project
      + " --platform managed --allow-unauthenticated --region=us-central1 --quiet"
  }

  /** spawnAsync rejects on an `'error'` event or on a close with code exactly 1, and resolves otherwise. */
  function SpawnRejects(exit: ProcessExit): (r: bool)
    ensures exit.Closed? ==> (r <==> exit.code == 1)
  {
    exit.StartFailed? || exit.code == 1
  }

  /** The project of the builder target, when there is one. */
  function ProjectOf(target: Option<TargetRef>): Option<string>
  {
    match target
    case Some(t) => Some(t.project)
    case None => None
  }

  /** How the build scheduled for `name` ends; a build not listed finishes. */
  function BuildOf(ctx: Context, name: string): BuildResult
  {
    if name in ctx.builds then ctx.builds[name] else Finished(true)
  }

  /**
   * The output path given by `getTargetOptions`, which must be a non-empty
   * string: a missing, non-string or empty option is what fails.
   */
  function ReadOutputPath(ctx: Context, t: BuildTarget): (r: Result<string, DeployError>)
    ensures r.Ok? <==> t.name in ctx.outputPaths && ctx.outputPaths[t.name].OutputPath? && ctx.outputPaths[t.name].path != ""
    ensures r.Ok? ==> r.value == ctx.outputPaths[t.name].path && r.value != ""
    ensures r.Err? ==> r.error == OutputPathUnreadable(t.name)
  {
    var o := if t.name in ctx.outputPaths then ctx.outputPaths[t.name] else NoOutputPath;
    if o.OutputPath? && o.path != "" then Ok(o.path) else Err(OutputPathUnreadable(t.name))
  }

  /** The second file written into the staging root. */
  function EntryFile(mode: Mode): string
  {
    if mode == FunctionMode then "index.js" else "Dockerfile"
  }

  /** What that file holds: the function entry point or the Dockerfile. */
  function EntryContent(mode: Mode, serverOut: string, functionName: string): Content
  {
    if mode == FunctionMode then EntryPoint(serverOut, functionName) else ContainerFile
  }

  /** The `main` passed to getPackageJson: none for functions, the server bundle for Cloud Run. */
  function MainOf(mode: Mode, serverOut: string): Option<string>
  {
    if mode == FunctionMode then None else Some(Join(serverOut, "main.js"))
  }

  // ---------------------------------------------------------------------
  // Specification of the pipelines
  // ---------------------------------------------------------------------

  /** Remove the staging root, then copy the static and the server output below it. */
  function Stage(fs: Files, staticOut: string, serverOut: string, root: string): Run
  {
    var cleared := RemoveTree(fs, root);
    var newStatic := Join(root, staticOut);
    var newServer := Join(root, serverOut);
    match CopyTree(cleared, staticOut, newStatic)
    case Err(e) => Run(cleared, [Remove(root), Copy(staticOut, newStatic)], Fail(FileSystem(e)))
    case Ok(copied) =>
      match CopyTree(copied, serverOut, newServer)
      case Err(e) => Run(copied, [Remove(root), Copy(staticOut, newStatic), Copy(serverOut, newServer)], Fail(FileSystem(e)))
      case Ok(staged) => Run(staged, [Remove(root), Copy(staticOut, newStatic), Copy(serverOut, newServer)], Pass)
  }

  /** The two files written after staging, and the index.html backup attempt. */
  function Payload(fs: Files, root: string, staticOut: string, serverOut: string, m: Manifest.PackageManifest,
                   mode: Mode, functionName: string): Run
  {
    var pkg := Join(root, "package.json");
    var entry := Join(root, EntryFile(mode));
    var newStatic := Join(root, staticOut);
    var written := fs[pkg := PackageFile(m)][entry := EntryContent(mode, serverOut, functionName)];
    Run(KeepIndex(written, newStatic),
        [Write(pkg), Write(entry), Rename(Join(newStatic, "index.html"), Join(newStatic, "index.original.html"))],
        Pass)
  }

  /** Staging, the manifest and the payload, once both output paths are known. */
  function PrepareFrom(fs: Files, ctx: Context, fb: Collaborators, opts: OptionsValue, st: BuildTarget,
                       staticOut: string, serverOut: string, mode: Mode): Run
  {
    var root := StagingRoot(staticOut, mode);
    var staged := Stage(fs, staticOut, serverOut, root);
    if staged.outcome.Fail? then staged
    else
      match Manifest.PackageJson(ProjectOf(ctx.target), fb.workspace, opts.ssr, MainOf(mode, serverOut))
      case Err(e) => Run(staged.files, staged.trace, Fail(ManifestFailure(e)))
      case Ok(m) =>
        var payload := Payload(staged.files, root, staticOut, serverOut, m, mode, FunctionName(st));
        Run(payload.files, staged.trace + payload.trace, Pass)
  }

  /**
   * What deployToFunction and deployToCloudRun do before their final steps:
   * read both output paths, stage, generate the manifest, write it and the
   * entry file, and try to keep the original index.html aside.
   */
  function Prepare(fs: Files, ctx: Context, fb: Collaborators, opts: OptionsValue,
                   st: BuildTarget, sv: BuildTarget, mode: Mode): (r: Run)
    ensures r.outcome.Pass? ==> ReadOutputPath(ctx, st).Ok? && ReadOutputPath(ctx, sv).Ok?
  {
    match ReadOutputPath(ctx, st)
    case Err(e) => Run(fs, [], Fail(e))
    case Ok(staticOut) =>
      match ReadOutputPath(ctx, sv)
      case Err(e) => Run(fs, [], Fail(e))
      case Ok(serverOut) => PrepareFrom(fs, ctx, fb, opts, st, staticOut, serverOut, mode)
  }

  /** The preview gate followed by the deploy call, for hosting (`fn` none) or hosting and a function. */
  function Gate(target: Option<TargetRef>, fn: Option<string>, preview: bool, fb: Collaborators,
                cwd: string, token: Option<string>): Tail
  {
    match target
    case None => Tail([], Fail(TargetUnset))
    case Some(t) =>
      var deploy := [FirebaseDeploy(Scope(t.project, fn), cwd, token)];
      var deployed := if fb.deployOk then Pass else Fail(DeployApiFailure);
      if !preview then Tail(deploy, deployed)
      else
        var serve := Serve(EmulatorPort, EmulatorHost, ServeTargets(t.project, fn));
        if !fb.serveOk then Tail([serve], Fail(ServeFailed))
        else if !fb.confirm then Tail([serve, Prompt], Pass)
        else Tail([serve, Prompt] + deploy, deployed)
  }

  /** deployToHosting (actions.ts:53-89). */
  function HostingRun(ctx: Context, fb: Collaborators, cwd: string, opts: OptionsValue, token: Option<string>): Tail
  {
    Gate(ctx.target, None, opts.preview, fb, cwd, token)
  }

  /** A pipeline's staging followed, when it succeeds, by its final steps. */
  function Then(prepared: Run, tail: Tail): Run
  {
    if prepared.outcome.Fail? then prepared
    else Run(prepared.files, prepared.trace + tail.trace, tail.outcome)
  }

  /** deployToFunction (actions.ts:151-247). */
  function FunctionRun(fs: Files, ctx: Context, fb: Collaborators, cwd: string,
                       st: BuildTarget, sv: BuildTarget, opts: OptionsValue, token: Option<string>): Run
  {
    Then(Prepare(fs, ctx, fb, opts, st, sv, FunctionMode),
         Gate(ctx.target, Some(FunctionName(st)), opts.preview, fb, cwd, token))
  }

  /** The Cloud Run steps after staging: the preview refusal, the two gcloud processes and the hosting deploy. */
  function CloudRunTail(target: Option<TargetRef>, fb: Collaborators, root: string, cwd: string,
                        opts: OptionsValue, token: Option<string>): Tail
  {
    if opts.preview then Tail([], Fail(PreviewNotSupported))
    else
      var project := ProjectText(opts.firebaseProject);
      var serviceId := ServiceId(opts.functionName, fb.defaultServiceId);
      var submit := SubmitCommand(root, project, serviceId);
      var run := RunCommand(serviceId, project);
      if SpawnRejects(fb.submitExit) then Tail([Spawn(submit)], Fail(ProcessFailed(submit)))
      else if SpawnRejects(fb.runExit) then Tail([Spawn(submit), Spawn(run)], Fail(ProcessFailed(run)))
      else
        match target
        case None => Tail([Spawn(submit), Spawn(run)], Fail(TargetUnset))
        case Some(t) =>
          Tail([Spawn(submit), Spawn(run), FirebaseDeploy(HostingTarget(t.project), cwd, token)],
               if fb.deployOk then Pass else Fail(DeployApiFailure))
  }

  /** deployToCloudRun (actions.ts:250-337). */
  function CloudRunRun(fs: Files, ctx: Context, fb: Collaborators, cwd: string,
                       st: BuildTarget, sv: BuildTarget, opts: OptionsValue, token: Option<string>): Run
  {
    var prepared := Prepare(fs, ctx, fb, opts, st, sv, CloudRunMode);
    if prepared.outcome.Fail? then prepared
    else Then(prepared, CloudRunTail(ctx.target, fb, StagingRoot(ReadOutputPath(ctx, st).value, CloudRunMode), cwd, opts, token))
  }

  /** No build rejected among `names`. */
  predicate AllBuilt(ctx: Context, names: seq<string>)
  {
    forall i :: 0 <= i < |names| ==> BuildOf(ctx, names[i]) != Rejected
  }

  /** The build phase of deploy: the prerender target alone, or the static and the server build. */
  function BuildPhase(ctx: Context, st: BuildTarget, sv: Option<BuildTarget>, pre: Option<BuildTarget>): Tail
  {
    match pre
    case Some(p) => Tail([Schedule(p.name)], if AllBuilt(ctx, [p.name]) then Pass else Fail(BuildRejected))
    case None =>
      if ctx.target.None? then Tail([], Fail(NoBuildTarget))
      else
        var names := [st.name] + (if sv.Some? then [sv.value.name] else []);
        Tail(if sv.Some? then [Schedule(st.name), Schedule(sv.value.name)] else [Schedule(st.name)],
             if AllBuilt(ctx, names) then Pass else Fail(BuildRejected))
  }

  /** The routing of actions.ts:418-448. */
  function Dispatch(fs: Files, ctx: Context, fb: Collaborators, st: BuildTarget, sv: Option<BuildTarget>,
                    opts: OptionsValue, token: Option<string>): Run
  {
    match sv
    case Some(server) =>
      if opts.ssr == Some(Manifest.CloudRunMode) then CloudRunRun(fs, ctx, fb, ctx.workspaceRoot, st, server, opts, token)
      else FunctionRun(fs, ctx, fb, ctx.workspaceRoot, st, server, opts, token)
    case None =>
      var tail := HostingRun(ctx, fb, ctx.workspaceRoot, opts, token);
      Run(fs, tail.trace, tail.outcome)
  }

  /** Whether deploy logs in: when no token (or an empty one) is given. */
  predicate NeedsLogin(token: Option<string>)
  {
    token.None? || token.value == ""
  }

  /** The default export `deploy` (actions.ts:339-453). */
  function DeployRun(fs: Files, ctx: Context, fb: Collaborators, st: BuildTarget, sv: Option<BuildTarget>,
                     pre: Option<BuildTarget>, firebaseProject: string, opts: OptionsValue, token: Option<string>): DeployResult
  {
    var login := if NeedsLogin(token) then [Login] else [];
    if NeedsLogin(token) && !fb.loginOk then DeployResult(fs, login, opts, Thrown(LoginFailed))
    else
      var builds := BuildPhase(ctx, st, sv, pre);
      if builds.outcome.Fail? then DeployResult(fs, login + builds.trace, opts, Thrown(builds.outcome.error))
      else if !fb.useOk then
        DeployResult(fs, login + builds.trace + [Use(firebaseProject)], opts, Thrown(CannotSelectProject(firebaseProject)))
      else
        var selected := opts.(firebaseProject := Some(firebaseProject));
        if !fb.loggerOk then
          DeployResult(fs, login + builds.trace + [Use(firebaseProject)], selected, Logged(LoggerSetupFailed))
        else
          var run := Dispatch(fs, ctx, fb, st, sv, selected, token);
          DeployResult(run.files, login + builds.trace + [Use(firebaseProject)] + run.trace, selected,
                       if run.outcome.Pass? then Completed else Logged(run.outcome.error))
  }

  // ---------------------------------------------------------------------
  // The pipelines as actions.ts runs them
  // ---------------------------------------------------------------------

  /** The index.html backup of the staged static output; a missing index.html is skipped. */
  function KeepIndex(fs: Files, newStatic: string): Files
  {
    match RenameFile(fs, Join(newStatic, "index.html"), Join(newStatic, "index.original.html"))
    case Ok(f) => f
    case Err(_) => fs
  }

  /** The staging steps shared by the two SSR pipelines (actions.ts:190-192 and 289-291). */
  method Relocate(host: FsHost, staticOut: string, serverOut: string, root: string) returns (r: Outcome<DeployError>)
    modifies host
    ensures var staged := Stage(old(host.files), staticOut, serverOut, root);
      host.files == staged.files && host.trace == old(host.trace) + staged.trace && r == staged.outcome
  {
    ghost var fs0, trace0 := host.files, host.trace;
    host.RemoveSync(root);
    ghost var cleared := RemoveTree(fs0, root);
    var copied := host.CopySync(staticOut, Join(root, staticOut));
    ghost var first := CopyTree(cleared, staticOut, Join(root, staticOut));
    if copied.Fail? {
      assert first.Err? && host.files == cleared;
      return Fail(FileSystem(copied.error));
    }
    assert first.Ok? && host.files == first.value;
    copied := host.CopySync(serverOut, Join(root, serverOut));
    ghost var second := CopyTree(first.value, serverOut, Join(root, serverOut));
    if copied.Fail? {
      assert second.Err? && host.files == first.value;
      return Fail(FileSystem(copied.error));
    }
    assert second.Ok? && host.files == second.value;
    r := Pass;
  }

  /** `try { renameSync(index.html, index.original.html) } catch (e) { }` (actions.ts:213-218 and 312-317). */
  method KeepOriginalIndex(host: FsHost, newStaticOut: string)
    modifies host
    ensures host.files == KeepIndex(old(host.files), newStaticOut)
    ensures host.trace == old(host.trace) + [Rename(Join(newStaticOut, "index.html"), Join(newStaticOut, "index.original.html"))]
  {
    var renamed := host.RenameSync(Join(newStaticOut, "index.html"), Join(newStaticOut, "index.original.html"));
  }

  /**
   * The preview gate and the deploy call (actions.ts:61-87 and 220-245),
   * with the serve targets and the deploy scope of hosting (`fn` none) or of
   * hosting and a function.
   */
  method PreviewAndDeploy(host: FsHost, target: Option<TargetRef>, fn: Option<string>, preview: bool,
                          fb: Collaborators, cwd: string, token: Option<string>)
    returns (r: Outcome<DeployError>)
    modifies host
    ensures host.files == old(host.files)
    ensures var t := Gate(target, fn, preview, fb, cwd, token);
      host.trace == old(host.trace) + t.trace && r == t.outcome
  {
    if preview {
      if target.None? {
        return Fail(TargetUnset);
      }
      host.Record(Serve(EmulatorPort, EmulatorHost, ServeTargets(target.value.project, fn)));
      if !fb.serveOk {
        return Fail(ServeFailed);
      }
      host.Record(Prompt);
      if !fb.confirm {
        return Pass;
      }
    }
    if target.None? {
      return Fail(TargetUnset);
    }
    host.Record(FirebaseDeploy(Scope(target.value.project, fn), cwd, token));
    r := if fb.deployOk then Pass else Fail(DeployApiFailure);
  }

  /** deployToHosting (actions.ts:53-89). */
  method DeployToHosting(host: FsHost, ctx: Context, fb: Collaborators, workspaceRoot: string,
                         options: DeployOptions, token: Option<string>)
    returns (r: Outcome<DeployError>)
    modifies host
    ensures host.files == old(host.files)
    ensures var t := HostingRun(ctx, fb, workspaceRoot, options.Value(), token);
      host.trace == old(host.trace) + t.trace && r == t.outcome
  {
    r := PreviewAndDeploy(host, ctx.target, None, options.preview, fb, workspaceRoot, token);
  }

  /** The two writes and the rename after staging (actions.ts:203-218 and 302-317). */
  method WritePayload(host: FsHost, root: string, staticOut: string, serverOut: string,
                      m: Manifest.PackageManifest, mode: Mode, functionName: string)
    modifies host
    ensures var p := Payload(old(host.files), root, staticOut, serverOut, m, mode, functionName);
      host.files == p.files && host.trace == old(host.trace) + p.trace
  {
    host.WriteFileSync(Join(root, "package.json"), PackageFile(m));
    if mode == FunctionMode {
      host.WriteFileSync(Join(root, "index.js"), EntryPoint(serverOut, functionName));
    } else {
      host.WriteFileSync(Join(root, "Dockerfile"), ContainerFile);
    }
    KeepOriginalIndex(host, Join(root, staticOut));
  }

  /**
   * The part deployToFunction and deployToCloudRun share, line for line:
   * read the output paths, stage, build the manifest, write the payload.
   */
  method StageServerBuild(host: FsHost, ctx: Context, fb: Collaborators, st: BuildTarget, sv: BuildTarget,
                          options: DeployOptions, mode: Mode)
    returns (r: Outcome<DeployError>)
    modifies host
    ensures var p := Prepare(old(host.files), ctx, fb, options.Value(), st, sv, mode);
      host.files == p.files && host.trace == old(host.trace) + p.trace && r == p.outcome
  {
    var staticOptions := ReadOutputPath(ctx, st);
    if staticOptions.Err? {
      return Fail(staticOptions.error);
    }
    var serverOptions := ReadOutputPath(ctx, sv);
    if serverOptions.Err? {
      return Fail(serverOptions.error);
    }
    var staticOut, serverOut := staticOptions.value, serverOptions.value;
    var root := StagingRoot(staticOut, mode);
    ghost var trace0 := host.trace;
    r := Relocate(host, staticOut, serverOut, root);
    if r.Fail? {
      return;
    }
    var packageJson := Manifest.GetPackageJson(ProjectOf(ctx.target), fb.workspace, options.ssr, MainOf(mode, serverOut));
    if packageJson.Err? {
      return Fail(ManifestFailure(packageJson.error));
    }
    ghost var trace1 := host.trace;
    WritePayload(host, root, staticOut, serverOut, packageJson.value, mode, FunctionName(st));
    AppendAssoc(trace0, trace1[|trace0|..], host.trace[|trace1|..]);
  }

  /** deployToFunction (actions.ts:151-247). */
  method DeployToFunction(host: FsHost, ctx: Context, fb: Collaborators, workspaceRoot: string,
                          st: BuildTarget, sv: BuildTarget, options: DeployOptions, token: Option<string>)
    returns (r: Outcome<DeployError>)
    modifies host
    ensures var run := FunctionRun(old(host.files), ctx, fb, workspaceRoot, st, sv, options.Value(), token);
      host.files == run.files && host.trace == old(host.trace) + run.trace && r == run.outcome
  {
    ghost var trace0 := host.trace;
    r := StageServerBuild(host, ctx, fb, st, sv, options, FunctionMode);
    if r.Fail? {
      return;
    }
    ghost var trace1 := host.trace;
    r := PreviewAndDeploy(host, ctx.target, Some(FunctionName(st)), options.preview, fb, workspaceRoot, token);
    AppendAssoc(trace0, trace1[|trace0|..], host.trace[|trace1|..]);
  }

  /** spawnAsync (actions.ts:15-42), reduced to its exit-code rule. */
  method SpawnAsync(host: FsHost, command: string, exit: ProcessExit) returns (r: Outcome<DeployError>)
    modifies host
    ensures host.files == old(host.files) && host.trace == old(host.trace) + [Spawn(command)]
    ensures r.Fail? <==> SpawnRejects(exit)
    ensures r.Fail? ==> r.error == ProcessFailed(command)
  {
    host.Record(Spawn(command));
    match exit
    case StartFailed => r := Fail(ProcessFailed(command));
    case Closed(code) =>
      if code == 1 {
        r := Fail(ProcessFailed(command));
      } else {
        r := Pass;
      }
  }

  /** The gcloud steps and the hosting deploy of deployToCloudRun (actions.ts:319-336). */
  method CloudRunSteps(host: FsHost, target: Option<TargetRef>, fb: Collaborators, cloudRunOut: string, cwd: string,
                       options: DeployOptions, token: Option<string>)
    returns (r: Outcome<DeployError>)
    modifies host
    ensures host.files == old(host.files)
    ensures var t := CloudRunTail(target, fb, cloudRunOut, cwd, options.Value(), token);
      host.trace == old(host.trace) + t.trace && r == t.outcome
  {
    if options.preview {
      return Fail(PreviewNotSupported);
    }
    ghost var trace0 := host.trace;
    var serviceId := ServiceId(options.functionName, fb.defaultServiceId);
    var project := ProjectText(options.firebaseProject);
    var submit := SubmitCommand(cloudRunOut, project, serviceId);
    var run := RunCommand(serviceId, project);
    r := SpawnAsync(host, submit, fb.submitExit);
    if r.Fail? {
      return;
    }
    r := SpawnAsync(host, run, fb.runExit);
    AppendAssoc(trace0, [Spawn(submit)], [Spawn(run)]);
    assert host.trace == trace0 + [Spawn(submit), Spawn(run)];
    if r.Fail? {
      return;
    }
    if target.None? {
      return Fail(TargetUnset);
    }
    var deploy := FirebaseDeploy(HostingTarget(target.value.project), cwd, token);
    host.Record(deploy);
    AppendAssoc(trace0, [Spawn(submit), Spawn(run)], [deploy]);
    r := if fb.deployOk then Pass else Fail(DeployApiFailure);
  }

  /** deployToCloudRun (actions.ts:250-337). */
  method DeployToCloudRun(host: FsHost, ctx: Context, fb: Collaborators, workspaceRoot: string,
                          st: BuildTarget, sv: BuildTarget, options: DeployOptions, token: Option<string>)
    returns (r: Outcome<DeployError>)
    modifies host
    ensures var run := CloudRunRun(old(host.files), ctx, fb, workspaceRoot, st, sv, options.Value(), token);
      host.files == run.files && host.trace == old(host.trace) + run.trace && r == run.outcome
  {
    ghost var trace0 := host.trace;
    r := StageServerBuild(host, ctx, fb, st, sv, options, CloudRunMode);
    if r.Fail? {
      return;
    }
    ghost var trace1 := host.trace;
    var cloudRunOut := StagingRoot(ReadOutputPath(ctx, st).value, CloudRunMode);
    r := CloudRunSteps(host, ctx.target, fb, cloudRunOut, workspaceRoot, options, token);
    AppendAssoc(trace0, trace1[|trace0|..], host.trace[|trace1|..]);
  }

  /** Start the builds and await them (actions.ts:355-385). */
  method RunBuilds(host: FsHost, ctx: Context, st: BuildTarget, sv: Option<BuildTarget>, pre: Option<BuildTarget>)
    returns (r: Outcome<DeployError>)
    modifies host
    ensures host.files == old(host.files)
    ensures var b := BuildPhase(ctx, st, sv, pre);
      host.trace == old(host.trace) + b.trace && r == b.outcome
  {
    if pre.Some? {
      host.Record(Schedule(pre.value.name));
      return if AllBuilt(ctx, [pre.value.name]) then Pass else Fail(BuildRejected);
    }
    if ctx.target.None? {
      return Fail(NoBuildTarget);
    }
    host.Record(Schedule(st.name));
    var builders := [st.name];
    if sv.Some? {
      host.Record(Schedule(sv.value.name));
      builders := builders + [sv.value.name];
    }
    assert builders == [st.name] + (if sv.Some? then [sv.value.name] else []);
    // Promise.all: both builds are awaited; a rejection of either propagates.
    r := if AllBuilt(ctx, builders) then Pass else Fail(BuildRejected);
  }

  /**
   * The try block that attaches the console logger and then runs the chosen
   * pipeline (actions.ts:393-452): a throw from either is only logged.
   */
  method LoggedDispatch(host: FsHost, ctx: Context, fb: Collaborators, st: BuildTarget, sv: Option<BuildTarget>,
                        options: DeployOptions, token: Option<string>)
    returns (status: Status)
    modifies host
    ensures !fb.loggerOk ==>
      host.files == old(host.files) && host.trace == old(host.trace) && status == Logged(LoggerSetupFailed)
    ensures fb.loggerOk ==>
      var run := Dispatch(old(host.files), ctx, fb, st, sv, options.Value(), token);
      && host.files == run.files && host.trace == old(host.trace) + run.trace
      && status == (if run.outcome.Pass? then Completed else Logged(run.outcome.error))
  {
    if !fb.loggerOk {
      return Logged(LoggerSetupFailed);
    }
    var r := DispatchDeploy(host, ctx, fb, st, sv, options, token);
    status := if r.Pass? then Completed else Logged(r.error);
  }

  /** The choice of pipeline (actions.ts:418-448). */
  method DispatchDeploy(host: FsHost, ctx: Context, fb: Collaborators, st: BuildTarget, sv: Option<BuildTarget>,
                        options: DeployOptions, token: Option<string>)
    returns (r: Outcome<DeployError>)
    modifies host
    ensures var run := Dispatch(old(host.files), ctx, fb, st, sv, options.Value(), token);
      host.files == run.files && host.trace == old(host.trace) + run.trace && r == run.outcome
  {
    if sv.Some? {
      if options.ssr == Some(Manifest.CloudRunMode) {
        r := DeployToCloudRun(host, ctx, fb, ctx.workspaceRoot, st, sv.value, options, token);
      } else {
        r := DeployToFunction(host, ctx, fb, ctx.workspaceRoot, st, sv.value, options, token);
      }
    } else {
      r := DeployToHosting(host, ctx, fb, ctx.workspaceRoot, options, token);
    }
  }

  /** The default export `deploy` (actions.ts:339-453). */
  method Deploy(host: FsHost, ctx: Context, fb: Collaborators, st: BuildTarget, sv: Option<BuildTarget>,
                pre: Option<BuildTarget>, firebaseProject: string, options: DeployOptions, token: Option<string>)
    returns (status: Status)
    modifies host, options
    ensures var d := DeployRun(old(host.files), ctx, fb, st, sv, pre, firebaseProject, old(options.Value()), token);
      && host.files == d.files && host.trace == old(host.trace) + d.trace
      && options.Value() == d.options && status == d.status
  {
    ghost var trace0 := host.trace;
    ghost var login: seq<Effect> := if NeedsLogin(token) then [Login] else [];
    if NeedsLogin(token) {
      host.Record(Login);
      if !fb.loginOk {
        return Thrown(LoginFailed);
      }
    }
    assert host.trace == trace0 + login;
    ghost var builds := BuildPhase(ctx, st, sv, pre);
    var built := RunBuilds(host, ctx, st, sv, pre);
    AppendAssoc(trace0, login, builds.trace);
    if built.Fail? {
      return Thrown(built.error);
    }
    host.Record(Use(firebaseProject));
    AppendAssoc(trace0, login + builds.trace, [Use(firebaseProject)]);
    if !fb.useOk {
      return Thrown(CannotSelectProject(firebaseProject));
    }
    options.firebaseProject := Some(firebaseProject);
    ghost var selected := old(options.Value()).(firebaseProject := Some(firebaseProject));
    assert options.Value() == selected;
    ghost var run := Dispatch(old(host.files), ctx, fb, st, sv, selected, token);
    status := LoggedDispatch(host, ctx, fb, st, sv, options, token);
    AppendAssoc(trace0, login + builds.trace + [Use(firebaseProject)], run.trace);
  }
}
