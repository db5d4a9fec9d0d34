/**
 * What the deploy builder promises, stated over the specification functions
 * of `Actions`: which builds are started, at most one deploy call and only
 * after staging succeeded, the order of the staging steps, the targets and
 * scopes of each pipeline, the errors and what they leave behind.
 */
module DeployProperties {
  import opened Wrappers
  import opened Text
  import Manifest
  import opened Fs
  import opened Actions

  // ---------------------------------------------------------------------
  // Views of a trace
  // ---------------------------------------------------------------------

  /** The calls of a trace that `keep` selects, in order. */
  function Only(trace: seq<Effect>, keep: Effect -> bool): (r: seq<Effect>)
    ensures |r| <= |trace|
  {
    if trace == [] then [] else (if keep(trace[0]) then [trace[0]] else []) + Only(trace[1..], keep)
  }

  /** A call is selected exactly when it occurs in the trace and `keep` accepts it. */
  lemma {:induction false} OnlyMembers(trace: seq<Effect>, keep: Effect -> bool)
    ensures forall e :: e in Only(trace, keep) <==> e in trace && keep(e)
  {
    if trace != [] {
      OnlyMembers(trace[1..], keep);
      assert trace == [trace[0]] + trace[1..];
    }
  }

  predicate IsDeploy(e: Effect) { e.FirebaseDeploy? }
  predicate IsServe(e: Effect) { e.Serve? }
  predicate IsSpawn(e: Effect) { e.Spawn? }
  predicate IsSchedule(e: Effect) { e.Schedule? }

  /** An effect of staging: a file-system call. */
  predicate FileEffect(e: Effect)
  {
    e.Remove? || e.Copy? || e.Write? || e.Rename?
  }

  lemma {:induction false} OnlyAppend(a: seq<Effect>, b: seq<Effect>, keep: Effect -> bool)
    ensures Only(a + b, keep) == Only(a, keep) + Only(b, keep)
  {
    if a != [] {
      assert (a + b)[1..] == a[1..] + b;
      OnlyAppend(a[1..], b, keep);
    } else {
      assert a + b == b;
    }
  }

  /** A trace of file-system calls holds no deploy, serve, spawn or build call. */
  lemma {:induction false} FileTraceSelectsNothing(trace: seq<Effect>)
    requires forall i :: 0 <= i < |trace| ==> FileEffect(trace[i])
    ensures Only(trace, IsDeploy) == [] && Only(trace, IsServe) == []
    ensures Only(trace, IsSpawn) == [] && Only(trace, IsSchedule) == []
  {
    if trace != [] {
      FileTraceSelectsNothing(trace[1..]);
    }
  }

  // ---------------------------------------------------------------------
  // The preview gate and the deploy call
  // ---------------------------------------------------------------------

  /** The gate lets the deploy call through: there is a target, and no preview or a served and confirmed one. */
  predicate GatePasses(target: Option<TargetRef>, preview: bool, fb: Collaborators)
  {
    target.Some? && (!preview || (fb.serveOk && fb.confirm))
  }

  /**
   * The gate makes at most one deploy call, exactly when it passes, with
   * the scope of the hosting target and of the function when there is one;
   * with a preview the emulator first serves the same targets. It ends
   * normally when the deploy call succeeds or the user declines.
   */
  lemma GateDeploysOnce(target: Option<TargetRef>, fn: Option<string>, preview: bool, fb: Collaborators,
                        cwd: string, token: Option<string>)
    ensures var t := Gate(target, fn, preview, fb, cwd, token);
      && Only(t.trace, IsDeploy) ==
           (if GatePasses(target, preview, fb) then [FirebaseDeploy(Scope(target.value.project, fn), cwd, token)] else [])
      && Only(t.trace, IsServe) ==
           (if preview && target.Some? then [Serve(EmulatorPort, EmulatorHost, ServeTargets(target.value.project, fn))] else [])
      && Only(t.trace, IsSpawn) == [] && Only(t.trace, IsSchedule) == []
      && (preview && target.Some? ==> t.trace[0] == Serve(EmulatorPort, EmulatorHost, ServeTargets(target.value.project, fn)))
      && (t.outcome.Pass? <==> target.Some? && (if preview then fb.serveOk && (!fb.confirm || fb.deployOk) else fb.deployOk))
  {
    if target.Some? {
      var deploy := FirebaseDeploy(Scope(target.value.project, fn), cwd, token);
      var serve := Serve(EmulatorPort, EmulatorHost, ServeTargets(target.value.project, fn));
      assert [serve, Prompt] + [deploy] == [serve] + ([Prompt] + [deploy]);
      OnlyAppend([serve, Prompt], [deploy], IsDeploy);
      OnlyAppend([serve, Prompt], [deploy], IsServe);
      OnlyAppend([serve, Prompt], [deploy], IsSpawn);
      OnlyAppend([serve, Prompt], [deploy], IsSchedule);
      OnlyAppend([serve], [Prompt], IsDeploy);
      OnlyAppend([serve], [Prompt], IsServe);
      OnlyAppend([serve], [Prompt], IsSpawn);
      OnlyAppend([serve], [Prompt], IsSchedule);
      assert [serve] + [Prompt] == [serve, Prompt];
    }
  }

  /** Declining the prompt after a preview ends the pipeline normally, without a deploy call. */
  lemma PreviewDeclined(target: Option<TargetRef>, fn: Option<string>, fb: Collaborators, cwd: string, token: Option<string>)
    requires target.Some? && fb.serveOk && !fb.confirm
    ensures var t := Gate(target, fn, true, fb, cwd, token);
      t.outcome == Pass && Only(t.trace, IsDeploy) == [] && t.trace[|t.trace| - 1] == Prompt
  {
    GateDeploysOnce(target, fn, true, fb, cwd, token);
  }

  // ---------------------------------------------------------------------
  // Staging
  // ---------------------------------------------------------------------

  /** Staging changes nothing outside the staging root. */
  lemma StageFrame(fs: Files, staticOut: string, serverOut: string, root: string)
    ensures var s := Stage(fs, staticOut, serverOut, root).files;
      forall q :: !Under(q, root) ==> (q in s <==> q in fs) && (q in fs ==> s[q] == fs[q])
  {
    var cleared := RemoveTree(fs, root);
    RemoveTreeSpec(fs, root);
    var newStatic, newServer := Join(root, staticOut), Join(root, serverOut);
    JoinUnder(root, staticOut);
    JoinUnder(root, serverOut);
    var first := CopyTree(cleared, staticOut, newStatic);
    if first.Ok? {
      CopyTreeFrame(cleared, staticOut, newStatic, root);
      var second := CopyTree(first.value, serverOut, newServer);
      if second.Ok? {
        CopyTreeFrame(first.value, serverOut, newServer, root);
      }
    }
  }

  /**
   * Staging begins by clearing the root, so its result depends only on the
   * files outside the root: staging again over its own result gives the same
   * files, trace and outcome.
   */
  lemma StageRerun(fs: Files, staticOut: string, serverOut: string, root: string)
    ensures var s := Stage(fs, staticOut, serverOut, root);
      Stage(s.files, staticOut, serverOut, root) == s
  {
    var s := Stage(fs, staticOut, serverOut, root);
    StageFrame(fs, staticOut, serverOut, root);
    RemoveTreeSpec(s.files, root);
    RemoveTreeSpec(fs, root);
    assert RemoveTree(s.files, root) == RemoveTree(fs, root);
  }

  /**
   * An output path without a `/browser` segment is its own staging root:
   * staging deletes the static build output and the first copy then fails
   * for want of a source.
   */
  lemma StageWithoutBrowserSegment(fs: Files, staticOut: string, serverOut: string, mode: Mode)
    requires IndexOf(staticOut, BrowserSegment).None?
    ensures StagingRoot(staticOut, mode) == staticOut
    ensures var s := Stage(fs, staticOut, serverOut, staticOut);
      s.outcome == Fail(FileSystem(NotFound(staticOut))) && s.files == RemoveTree(fs, staticOut)
      && forall q :: q in s.files ==> !Under(q, staticOut)
  {
    RemoveTreeSpec(fs, staticOut);
    assert !Exists(RemoveTree(fs, staticOut), staticOut);
  }

  /** The staging and payload calls of an SSR pipeline, in the order actions.ts makes them. */
  function StagingSteps(staticOut: string, serverOut: string, mode: Mode): seq<Effect>
  {
    var root := StagingRoot(staticOut, mode);
    var newStatic := Join(root, staticOut);
    [Remove(root), Copy(staticOut, newStatic), Copy(serverOut, Join(root, serverOut)),
     Write(Join(root, "package.json")), Write(Join(root, EntryFile(mode))),
     Rename(Join(newStatic, "index.html"), Join(newStatic, "index.original.html"))]
  }

  /** An unreadable output path stops an SSR pipeline before any call, naming the static target first. */
  lemma PrepareOutputPathErrors(fs: Files, ctx: Context, fb: Collaborators, opts: OptionsValue,
                                st: BuildTarget, sv: BuildTarget, mode: Mode)
    ensures ReadOutputPath(ctx, st).Err? ==>
      Prepare(fs, ctx, fb, opts, st, sv, mode) == Run(fs, [], Fail(OutputPathUnreadable(st.name)))
    ensures ReadOutputPath(ctx, st).Ok? && ReadOutputPath(ctx, sv).Err? ==>
      Prepare(fs, ctx, fb, opts, st, sv, mode) == Run(fs, [], Fail(OutputPathUnreadable(sv.name)))
  {
  }

  /** Staging removes the root and copies the static output, then the server output unless the first copy failed. */
  lemma StageSteps(fs: Files, staticOut: string, serverOut: string, root: string)
    ensures var s := Stage(fs, staticOut, serverOut, root);
      var steps := [Remove(root), Copy(staticOut, Join(root, staticOut)), Copy(serverOut, Join(root, serverOut))];
      && (s.trace == steps[..2] || s.trace == steps)
      && (s.outcome.Pass? ==> s.trace == steps)
  {
  }

  /**
   * Once both output paths are read, the calls are a prefix of the staging
   * steps, at least the removal and the first copy, and all of them when
   * staging succeeds.
   */
  lemma PrepareSteps(fs: Files, ctx: Context, fb: Collaborators, opts: OptionsValue,
                     st: BuildTarget, sv: BuildTarget, mode: Mode)
    requires ReadOutputPath(ctx, st).Ok? && ReadOutputPath(ctx, sv).Ok?
    ensures var p := Prepare(fs, ctx, fb, opts, st, sv, mode);
      var steps := StagingSteps(ReadOutputPath(ctx, st).value, ReadOutputPath(ctx, sv).value, mode);
      && 2 <= |p.trace| && p.trace <= steps
      && (p.outcome.Pass? ==> p.trace == steps)
  {
    var staticOut, serverOut := ReadOutputPath(ctx, st).value, ReadOutputPath(ctx, sv).value;
    var root := StagingRoot(staticOut, mode);
    var steps := StagingSteps(staticOut, serverOut, mode);
    var p := Prepare(fs, ctx, fb, opts, st, sv, mode);
    assert p == PrepareFrom(fs, ctx, fb, opts, st, staticOut, serverOut, mode);
    var staged := Stage(fs, staticOut, serverOut, root);
    StageSteps(fs, staticOut, serverOut, root);
    assert steps[..3] == [Remove(root), Copy(staticOut, Join(root, staticOut)), Copy(serverOut, Join(root, serverOut))];
    if staged.outcome.Pass? {
      var m := Manifest.PackageJson(ProjectOf(ctx.target), fb.workspace, opts.ssr, MainOf(mode, serverOut));
      if m.Ok? {
        var payload := Payload(staged.files, root, staticOut, serverOut, m.value, mode, FunctionName(st));
        assert payload.trace == steps[3..];
        assert p.trace == steps[..3] + steps[3..];
      }
    }
  }

  /** The index.html backup touches no file named directly below the staging root. */
  lemma KeepIndexKeeps(fs: Files, root: string, staticOut: string, name: string)
    requires '/' !in name
    ensures var p := Join(root, name);
      var kept := KeepIndex(fs, Join(root, staticOut));
      (p in kept <==> p in fs) && (p in fs ==> kept[p] == fs[p])
  {
    var newStatic := Join(root, staticOut);
    JoinDistinct(root, staticOut, "index.html", name);
    JoinDistinct(root, staticOut, "index.original.html", name);
    RenameFileSpec(fs, Join(newStatic, "index.html"), Join(newStatic, "index.original.html"));
  }

  /** The payload leaves the manifest and the entry file in the staging root. */
  lemma PayloadWritten(fs: Files, root: string, staticOut: string, serverOut: string, m: Manifest.PackageManifest,
                       mode: Mode, functionName: string)
    ensures var files := Payload(fs, root, staticOut, serverOut, m, mode, functionName).files;
      && Join(root, "package.json") in files && files[Join(root, "package.json")] == PackageFile(m)
      && Join(root, EntryFile(mode)) in files && files[Join(root, EntryFile(mode))] == EntryContent(mode, serverOut, functionName)
  {
    var pkg, entry := Join(root, "package.json"), Join(root, EntryFile(mode));
    var written := fs[pkg := PackageFile(m)][entry := EntryContent(mode, serverOut, functionName)];
    assert pkg != entry by {
      assert pkg[|root| + 1..] == "package.json";
      assert entry[|root| + 1..] == EntryFile(mode);
    }
    assert '/' !in EntryFile(mode);
    KeepIndexKeeps(written, root, staticOut, "package.json");
    KeepIndexKeeps(written, root, staticOut, EntryFile(mode));
  }

  /**
   * After a successful staging the staging root holds the generated
   * manifest and the mode's entry file, whatever the index.html backup did.
   */
  lemma PreparedPayload(fs: Files, ctx: Context, fb: Collaborators, opts: OptionsValue,
                        st: BuildTarget, sv: BuildTarget, mode: Mode)
    requires Prepare(fs, ctx, fb, opts, st, sv, mode).outcome.Pass?
    ensures var staticOut, serverOut := ReadOutputPath(ctx, st).value, ReadOutputPath(ctx, sv).value;
      var root := StagingRoot(staticOut, mode);
      var files := Prepare(fs, ctx, fb, opts, st, sv, mode).files;
      var m := Manifest.PackageJson(ProjectOf(ctx.target), fb.workspace, opts.ssr, MainOf(mode, serverOut));
      && m.Ok?
      && Join(root, "package.json") in files && files[Join(root, "package.json")] == PackageFile(m.value)
      && Join(root, EntryFile(mode)) in files && files[Join(root, EntryFile(mode))] == EntryContent(mode, serverOut, FunctionName(st))
  {
    var staticOut, serverOut := ReadOutputPath(ctx, st).value, ReadOutputPath(ctx, sv).value;
    var root := StagingRoot(staticOut, mode);
    var p := Prepare(fs, ctx, fb, opts, st, sv, mode);
    assert p == PrepareFrom(fs, ctx, fb, opts, st, staticOut, serverOut, mode);
    var staged := Stage(fs, staticOut, serverOut, root);
    var mr := Manifest.PackageJson(ProjectOf(ctx.target), fb.workspace, opts.ssr, MainOf(mode, serverOut));
    assert staged.outcome.Pass? && mr.Ok?;
    assert p.files == Payload(staged.files, root, staticOut, serverOut, mr.value, mode, FunctionName(st)).files;
    PayloadWritten(staged.files, root, staticOut, serverOut, mr.value, mode, FunctionName(st));
  }

  // ---------------------------------------------------------------------
  // The SSR pipelines
  // ---------------------------------------------------------------------

  /** Staging makes file-system calls only. */
  lemma PrepareSelectsNothing(fs: Files, ctx: Context, fb: Collaborators, opts: OptionsValue,
                              st: BuildTarget, sv: BuildTarget, mode: Mode)
    ensures var p := Prepare(fs, ctx, fb, opts, st, sv, mode);
      && Only(p.trace, IsDeploy) == [] && Only(p.trace, IsServe) == []
      && Only(p.trace, IsSpawn) == [] && Only(p.trace, IsSchedule) == []
  {
    var p := Prepare(fs, ctx, fb, opts, st, sv, mode);
    if ReadOutputPath(ctx, st).Ok? && ReadOutputPath(ctx, sv).Ok? {
      PrepareSteps(fs, ctx, fb, opts, st, sv, mode);
      var steps := StagingSteps(ReadOutputPath(ctx, st).value, ReadOutputPath(ctx, sv).value, mode);
      assert forall i :: 0 <= i < |steps| ==> FileEffect(steps[i]);
    } else {
      PrepareOutputPathErrors(fs, ctx, fb, opts, st, sv, mode);
    }
    FileTraceSelectsNothing(Prepare(fs, ctx, fb, opts, st, sv, mode).trace);
  }

  /** The calls `Then` selects: those of the staging, then those of the final steps when staging succeeded. */
  lemma ThenOnly(prepared: Run, tail: Tail, keep: Effect -> bool)
    ensures Only(Then(prepared, tail).trace, keep) ==
      Only(prepared.trace, keep) + (if prepared.outcome.Pass? then Only(tail.trace, keep) else [])
  {
    if prepared.outcome.Pass? {
      OnlyAppend(prepared.trace, tail.trace, keep);
    } else {
      assert Only(prepared.trace, keep) + [] == Only(prepared.trace, keep);
    }
  }

  /**
   * deployToFunction: one deploy call, of hosting and the function
   * `ssr_<project>`, exactly when staging succeeded and the gate passes.
   */
  lemma FunctionRunDeploys(fs: Files, ctx: Context, fb: Collaborators, cwd: string,
                           st: BuildTarget, sv: BuildTarget, opts: OptionsValue, token: Option<string>)
    ensures var run := FunctionRun(fs, ctx, fb, cwd, st, sv, opts, token);
      Only(run.trace, IsDeploy) ==
        (if Prepare(fs, ctx, fb, opts, st, sv, FunctionMode).outcome.Pass? && GatePasses(ctx.target, opts.preview, fb)
         then [FirebaseDeploy(Scope(ctx.target.value.project, Some(FunctionName(st))), cwd, token)] else [])
  {
    var prepared := Prepare(fs, ctx, fb, opts, st, sv, FunctionMode);
    PrepareSelectsNothing(fs, ctx, fb, opts, st, sv, FunctionMode);
    GateDeploysOnce(ctx.target, Some(FunctionName(st)), opts.preview, fb, cwd, token);
    ThenOnly(prepared, Gate(ctx.target, Some(FunctionName(st)), opts.preview, fb, cwd, token), IsDeploy);
  }

  /** deployToFunction's preview serves hosting and the same function `ssr_<project>` that it deploys. */
  lemma FunctionRunServes(fs: Files, ctx: Context, fb: Collaborators, cwd: string,
                          st: BuildTarget, sv: BuildTarget, opts: OptionsValue, token: Option<string>)
    ensures var run := FunctionRun(fs, ctx, fb, cwd, st, sv, opts, token);
      Only(run.trace, IsServe) ==
        (if Prepare(fs, ctx, fb, opts, st, sv, FunctionMode).outcome.Pass? && opts.preview && ctx.target.Some?
         then [Serve(EmulatorPort, EmulatorHost, [HostingTarget(ctx.target.value.project), FunctionTarget(FunctionName(st))])]
         else [])
  {
    var prepared := Prepare(fs, ctx, fb, opts, st, sv, FunctionMode);
    PrepareSelectsNothing(fs, ctx, fb, opts, st, sv, FunctionMode);
    GateDeploysOnce(ctx.target, Some(FunctionName(st)), opts.preview, fb, cwd, token);
    ThenOnly(prepared, Gate(ctx.target, Some(FunctionName(st)), opts.preview, fb, cwd, token), IsServe);
    if ctx.target.Some? {
      assert ServeTargets(ctx.target.value.project, Some(FunctionName(st))) ==
        [HostingTarget(ctx.target.value.project), FunctionTarget(FunctionName(st))];
    }
  }

  /** deployToFunction neither spawns a process nor schedules a build. */
  lemma FunctionRunNoProcess(fs: Files, ctx: Context, fb: Collaborators, cwd: string,
                             st: BuildTarget, sv: BuildTarget, opts: OptionsValue, token: Option<string>)
    ensures var run := FunctionRun(fs, ctx, fb, cwd, st, sv, opts, token);
      Only(run.trace, IsSpawn) == [] && Only(run.trace, IsSchedule) == []
  {
    var prepared := Prepare(fs, ctx, fb, opts, st, sv, FunctionMode);
    var tail := Gate(ctx.target, Some(FunctionName(st)), opts.preview, fb, cwd, token);
    PrepareSelectsNothing(fs, ctx, fb, opts, st, sv, FunctionMode);
    GateDeploysOnce(ctx.target, Some(FunctionName(st)), opts.preview, fb, cwd, token);
    ThenOnly(prepared, tail, IsSpawn);
    ThenOnly(prepared, tail, IsSchedule);
  }

  /** deployToFunction stops where staging fails, with staging's files, calls and error. */
  lemma FunctionRunStopsOnStagingError(fs: Files, ctx: Context, fb: Collaborators, cwd: string,
                                       st: BuildTarget, sv: BuildTarget, opts: OptionsValue, token: Option<string>)
    requires Prepare(fs, ctx, fb, opts, st, sv, FunctionMode).outcome.Fail?
    ensures FunctionRun(fs, ctx, fb, cwd, st, sv, opts, token) == Prepare(fs, ctx, fb, opts, st, sv, FunctionMode)
  {
  }

  /** No call of a trace is selected when `keep` holds for none of them. */
  lemma {:induction false} OnlyNone(trace: seq<Effect>, keep: Effect -> bool)
    requires forall i :: 0 <= i < |trace| ==> !keep(trace[i])
    ensures Only(trace, keep) == []
  {
    if trace != [] {
      OnlyNone(trace[1..], keep);
    }
  }

  /**
   * The Cloud Run steps after staging: a preview is refused before any
   * process; otherwise the submit runs, and the service deploy only when the
   * submit resolved.
   */
  lemma CloudRunTailSpawns(target: Option<TargetRef>, fb: Collaborators, root: string, cwd: string,
                           opts: OptionsValue, token: Option<string>)
    ensures var t := CloudRunTail(target, fb, root, cwd, opts, token);
      var project, serviceId := ProjectText(opts.firebaseProject), ServiceId(opts.functionName, fb.defaultServiceId);
      && (opts.preview ==> t == Tail([], Fail(PreviewNotSupported)))
      && Only(t.trace, IsSpawn) ==
           (if opts.preview then []
            else [Spawn(SubmitCommand(root, project, serviceId))] +
                 (if SpawnRejects(fb.submitExit) then [] else [Spawn(RunCommand(serviceId, project))]))
  {
    var t := CloudRunTail(target, fb, root, cwd, opts, token);
    var project, serviceId := ProjectText(opts.firebaseProject), ServiceId(opts.functionName, fb.defaultServiceId);
    var submit, run := Spawn(SubmitCommand(root, project, serviceId)), Spawn(RunCommand(serviceId, project));
    if !opts.preview && !SpawnRejects(fb.submitExit) {
      assert t.trace[..2] == [submit] + [run];
      OnlyAppend([submit], [run], IsSpawn);
      if !SpawnRejects(fb.runExit) && target.Some? {
        assert t.trace == t.trace[..2] + [t.trace[2]];
        OnlyAppend(t.trace[..2], [t.trace[2]], IsSpawn);
      } else {
        assert t.trace == t.trace[..2];
      }
    }
  }

  /** The Cloud Run steps are processes and the hosting deploy only. */
  lemma CloudRunTailNoServe(target: Option<TargetRef>, fb: Collaborators, root: string, cwd: string,
                            opts: OptionsValue, token: Option<string>)
    ensures var t := CloudRunTail(target, fb, root, cwd, opts, token);
      Only(t.trace, IsServe) == [] && Only(t.trace, IsSchedule) == []
  {
    var t := CloudRunTail(target, fb, root, cwd, opts, token);
    if !opts.preview {
      var project, serviceId := ProjectText(opts.firebaseProject), ServiceId(opts.functionName, fb.defaultServiceId);
      var submit, run := Spawn(SubmitCommand(root, project, serviceId)), Spawn(RunCommand(serviceId, project));
      if SpawnRejects(fb.submitExit) {
        assert t.trace == [submit];
      } else if SpawnRejects(fb.runExit) || target.None? {
        assert t.trace == [submit, run];
      } else {
        assert t.trace == [submit, run, FirebaseDeploy(HostingTarget(target.value.project), cwd, token)];
      }
    }
    OnlyNone(t.trace, IsServe);
    OnlyNone(t.trace, IsSchedule);
  }

  /** The Cloud Run hosting deploy: hosting only, once, when no preview and both processes resolved. */
  lemma CloudRunTailDeploys(target: Option<TargetRef>, fb: Collaborators, root: string, cwd: string,
                            opts: OptionsValue, token: Option<string>)
    ensures var t := CloudRunTail(target, fb, root, cwd, opts, token);
      && Only(t.trace, IsDeploy) ==
           (if CloudRunReachesDeploy(target, fb, opts) then [FirebaseDeploy(HostingTarget(target.value.project), cwd, token)] else [])
      && (t.outcome.Pass? <==> CloudRunReachesDeploy(target, fb, opts) && fb.deployOk)
  {
    var project, serviceId := ProjectText(opts.firebaseProject), ServiceId(opts.functionName, fb.defaultServiceId);
    var submit, run := Spawn(SubmitCommand(root, project, serviceId)), Spawn(RunCommand(serviceId, project));
    if target.Some? {
      var deploy := FirebaseDeploy(HostingTarget(target.value.project), cwd, token);
      OnlyAppend([submit, run], [deploy], IsDeploy);
      assert [submit, run] + [deploy] == [submit, run, deploy];
    }
  }

  /** The Cloud Run pipeline reaches its hosting deploy: no preview, both processes resolved, and a target. */
  predicate CloudRunReachesDeploy(target: Option<TargetRef>, fb: Collaborators, opts: OptionsValue)
  {
    !opts.preview && !SpawnRejects(fb.submitExit) && !SpawnRejects(fb.runExit) && target.Some?
  }

  /** The image both gcloud commands name is `gcr.io/<project>/<service>`; the service deploy names the service first. */
  lemma CommandsShareImage(root: string, project: string, serviceId: string)
    ensures OccursAt(SubmitCommand(root, project, serviceId), ImageTag(project, serviceId), |"gcloud builds submit " + root + " --tag "|)
    ensures OccursAt(RunCommand(serviceId, project), ImageTag(project, serviceId), |"gcloud run deploy " + serviceId + " --image "|)
    ensures OccursAt(RunCommand(serviceId, project), serviceId, |"gcloud run deploy "|)
  {
    var tag := ImageTag(project, serviceId);
    var a := "gcloud builds submit " + root + " --tag ";
    assert SubmitCommand(root, project, serviceId) == a + tag + (" --project " + project + " --quiet");
    var b := "gcloud run deploy " + serviceId + " --image ";
    var rest := " --project " + project + " --platform managed --allow-unauthenticated --region=us-central1 --quiet";
    assert RunCommand(serviceId, project) == b + tag + rest;
    assert RunCommand(serviceId, project) == "gcloud run deploy " + serviceId + (" --image " + tag + rest);
  }

  /**
   * deployToCloudRun with a preview stages and writes everything, then
   * refuses, before any process or deploy call.
   */
  lemma CloudRunPreviewRefused(fs: Files, ctx: Context, fb: Collaborators, cwd: string,
                               st: BuildTarget, sv: BuildTarget, opts: OptionsValue, token: Option<string>)
    requires opts.preview
    ensures var prepared := Prepare(fs, ctx, fb, opts, st, sv, CloudRunMode);
      CloudRunRun(fs, ctx, fb, cwd, st, sv, opts, token) ==
        if prepared.outcome.Fail? then prepared else Run(prepared.files, prepared.trace, Fail(PreviewNotSupported))
    ensures Message(PreviewNotSupported) == Some("Cloud Run preview not supported yet.")
  {
    var prepared := Prepare(fs, ctx, fb, opts, st, sv, CloudRunMode);
    if prepared.outcome.Pass? {
      assert prepared.trace + [] == prepared.trace;
    }
  }

  /** deployToCloudRun's processes: the submit of the staging root, then the service deploy, after staging and without a preview. */
  lemma CloudRunRunSpawns(fs: Files, ctx: Context, fb: Collaborators, cwd: string,
                          st: BuildTarget, sv: BuildTarget, opts: OptionsValue, token: Option<string>)
    ensures var run := CloudRunRun(fs, ctx, fb, cwd, st, sv, opts, token);
      var prepared := Prepare(fs, ctx, fb, opts, st, sv, CloudRunMode);
      var project, serviceId := ProjectText(opts.firebaseProject), ServiceId(opts.functionName, fb.defaultServiceId);
      Only(run.trace, IsSpawn) ==
        (if prepared.outcome.Fail? || opts.preview then []
         else [Spawn(SubmitCommand(StagingRoot(ReadOutputPath(ctx, st).value, CloudRunMode), project, serviceId))] +
              (if SpawnRejects(fb.submitExit) then [] else [Spawn(RunCommand(serviceId, project))]))
  {
    var prepared := Prepare(fs, ctx, fb, opts, st, sv, CloudRunMode);
    PrepareSelectsNothing(fs, ctx, fb, opts, st, sv, CloudRunMode);
    if prepared.outcome.Pass? {
      var root := StagingRoot(ReadOutputPath(ctx, st).value, CloudRunMode);
      CloudRunTailSpawns(ctx.target, fb, root, cwd, opts, token);
      ThenOnly(prepared, CloudRunTail(ctx.target, fb, root, cwd, opts, token), IsSpawn);
    }
  }

  /** deployToCloudRun deploys hosting only, at most once, and only after staging and both processes succeeded. */
  lemma CloudRunRunDeploys(fs: Files, ctx: Context, fb: Collaborators, cwd: string,
                           st: BuildTarget, sv: BuildTarget, opts: OptionsValue, token: Option<string>)
    ensures var run := CloudRunRun(fs, ctx, fb, cwd, st, sv, opts, token);
      Only(run.trace, IsDeploy) ==
        (if Prepare(fs, ctx, fb, opts, st, sv, CloudRunMode).outcome.Pass? && CloudRunReachesDeploy(ctx.target, fb, opts)
         then [FirebaseDeploy(HostingTarget(ctx.target.value.project), cwd, token)] else [])
  {
    var prepared := Prepare(fs, ctx, fb, opts, st, sv, CloudRunMode);
    PrepareSelectsNothing(fs, ctx, fb, opts, st, sv, CloudRunMode);
    if prepared.outcome.Pass? {
      var root := StagingRoot(ReadOutputPath(ctx, st).value, CloudRunMode);
      CloudRunTailDeploys(ctx.target, fb, root, cwd, opts, token);
      ThenOnly(prepared, CloudRunTail(ctx.target, fb, root, cwd, opts, token), IsDeploy);
    }
  }

  /** deployToCloudRun never starts the emulator and schedules no build. */
  lemma CloudRunRunNoServe(fs: Files, ctx: Context, fb: Collaborators, cwd: string,
                           st: BuildTarget, sv: BuildTarget, opts: OptionsValue, token: Option<string>)
    ensures var run := CloudRunRun(fs, ctx, fb, cwd, st, sv, opts, token);
      Only(run.trace, IsServe) == [] && Only(run.trace, IsSchedule) == []
  {
    var prepared := Prepare(fs, ctx, fb, opts, st, sv, CloudRunMode);
    PrepareSelectsNothing(fs, ctx, fb, opts, st, sv, CloudRunMode);
    if prepared.outcome.Pass? {
      var root := StagingRoot(ReadOutputPath(ctx, st).value, CloudRunMode);
      var tail := CloudRunTail(ctx.target, fb, root, cwd, opts, token);
      CloudRunTailNoServe(ctx.target, fb, root, cwd, opts, token);
      ThenOnly(prepared, tail, IsServe);
      ThenOnly(prepared, tail, IsSchedule);
    }
  }

  /**
   * Both gcloud commands of deployToCloudRun name the service
   * `options.functionName` when it is set, and the default service id
   * otherwise.
   */
  lemma CloudRunNamesService(fs: Files, ctx: Context, fb: Collaborators, cwd: string,
                             st: BuildTarget, sv: BuildTarget, opts: OptionsValue, token: Option<string>)
    ensures var spawns := Only(CloudRunRun(fs, ctx, fb, cwd, st, sv, opts, token).trace, IsSpawn);
      var project := ProjectText(opts.firebaseProject);
      var service := if opts.functionName.Some? then opts.functionName.value else fb.defaultServiceId;
      var root := if ReadOutputPath(ctx, st).Ok? then StagingRoot(ReadOutputPath(ctx, st).value, CloudRunMode) else "";
      forall i :: 0 <= i < |spawns| ==>
        spawns[i] == Spawn(SubmitCommand(root, project, service)) || spawns[i] == Spawn(RunCommand(service, project))
  {
    CloudRunRunSpawns(fs, ctx, fb, cwd, st, sv, opts, token);
  }

  /**
   * The exit-code rule on the Cloud Run steps: the hosting deploy needs two
   * processes that closed with a code other than 1, and the first process
   * that cannot start or closes with code 1 ends the steps with its error.
   */
  lemma CloudRunTailExitCodes(target: Option<TargetRef>, fb: Collaborators, root: string, cwd: string,
                              opts: OptionsValue, token: Option<string>)
    ensures Only(CloudRunTail(target, fb, root, cwd, opts, token).trace, IsDeploy) != [] ==>
      fb.submitExit.Closed? && fb.submitExit.code != 1 && fb.runExit.Closed? && fb.runExit.code != 1
    ensures var project := ProjectText(opts.firebaseProject);
      var service := if opts.functionName.Some? then opts.functionName.value else fb.defaultServiceId;
      var submit := SubmitCommand(root, project, service);
      !opts.preview && (fb.submitExit == StartFailed || fb.submitExit == Closed(1)) ==>
        CloudRunTail(target, fb, root, cwd, opts, token) == Tail([Spawn(submit)], Fail(ProcessFailed(submit)))
    ensures var project := ProjectText(opts.firebaseProject);
      var service := if opts.functionName.Some? then opts.functionName.value else fb.defaultServiceId;
      var submit, run := SubmitCommand(root, project, service), RunCommand(service, project);
      !opts.preview && fb.submitExit.Closed? && fb.submitExit.code != 1 && (fb.runExit == StartFailed || fb.runExit == Closed(1)) ==>
        CloudRunTail(target, fb, root, cwd, opts, token) == Tail([Spawn(submit), Spawn(run)], Fail(ProcessFailed(run)))
  {
    CloudRunTailDeploys(target, fb, root, cwd, opts, token);
  }

  /**
   * spawnAsync's exit-code rule decides deployToCloudRun. The hosting deploy
   * is made only after both processes closed with a code other than 1. A
   * process that cannot start, or closes with code 1, ends the pipeline with
   * that command's error, before any later process or deploy call.
   */
  lemma CloudRunExitCodes(fs: Files, ctx: Context, fb: Collaborators, cwd: string,
                          st: BuildTarget, sv: BuildTarget, opts: OptionsValue, token: Option<string>)
    ensures Only(CloudRunRun(fs, ctx, fb, cwd, st, sv, opts, token).trace, IsDeploy) != [] ==>
      fb.submitExit.Closed? && fb.submitExit.code != 1 && fb.runExit.Closed? && fb.runExit.code != 1
    ensures var run := CloudRunRun(fs, ctx, fb, cwd, st, sv, opts, token);
      var project := ProjectText(opts.firebaseProject);
      var service := if opts.functionName.Some? then opts.functionName.value else fb.defaultServiceId;
      Prepare(fs, ctx, fb, opts, st, sv, CloudRunMode).outcome.Pass? && !opts.preview &&
      (fb.submitExit == StartFailed || fb.submitExit == Closed(1)) ==>
        && Only(run.trace, IsSpawn) == [Spawn(SubmitCommand(StagingRoot(ReadOutputPath(ctx, st).value, CloudRunMode), project, service))]
        && Only(run.trace, IsDeploy) == []
        && run.outcome == Fail(ProcessFailed(SubmitCommand(StagingRoot(ReadOutputPath(ctx, st).value, CloudRunMode), project, service)))
    ensures var run := CloudRunRun(fs, ctx, fb, cwd, st, sv, opts, token);
      var project := ProjectText(opts.firebaseProject);
      var service := if opts.functionName.Some? then opts.functionName.value else fb.defaultServiceId;
      Prepare(fs, ctx, fb, opts, st, sv, CloudRunMode).outcome.Pass? && !opts.preview &&
      fb.submitExit.Closed? && fb.submitExit.code != 1 && (fb.runExit == StartFailed || fb.runExit == Closed(1)) ==>
        && |Only(run.trace, IsSpawn)| == 2
        && Only(run.trace, IsDeploy) == []
        && run.outcome == Fail(ProcessFailed(RunCommand(service, project)))
  {
    CloudRunRunLift(fs, ctx, fb, cwd, st, sv, opts, token);
    if Prepare(fs, ctx, fb, opts, st, sv, CloudRunMode).outcome.Pass? {
      var root := StagingRoot(ReadOutputPath(ctx, st).value, CloudRunMode);
      CloudRunTailExitCodes(ctx.target, fb, root, cwd, opts, token);
    }
  }

  /**
   * deployToCloudRun starts no process and deploys nothing when staging fails;
   * once staging passes, its processes, deploys and outcome are those of its
   * last steps.
   */
  lemma CloudRunRunLift(fs: Files, ctx: Context, fb: Collaborators, cwd: string,
                        st: BuildTarget, sv: BuildTarget, opts: OptionsValue, token: Option<string>)
    ensures var run := CloudRunRun(fs, ctx, fb, cwd, st, sv, opts, token);
      Prepare(fs, ctx, fb, opts, st, sv, CloudRunMode).outcome.Fail? ==>
        Only(run.trace, IsSpawn) == [] && Only(run.trace, IsDeploy) == []
    ensures var run := CloudRunRun(fs, ctx, fb, cwd, st, sv, opts, token);
      Prepare(fs, ctx, fb, opts, st, sv, CloudRunMode).outcome.Pass? ==>
        var tail := CloudRunTail(ctx.target, fb, StagingRoot(ReadOutputPath(ctx, st).value, CloudRunMode), cwd, opts, token);
        && Only(run.trace, IsSpawn) == Only(tail.trace, IsSpawn)
        && Only(run.trace, IsDeploy) == Only(tail.trace, IsDeploy)
        && run.outcome == tail.outcome
  {
    var prepared := Prepare(fs, ctx, fb, opts, st, sv, CloudRunMode);
    PrepareSelectsNothing(fs, ctx, fb, opts, st, sv, CloudRunMode);
    if prepared.outcome.Pass? {
      var tail := CloudRunTail(ctx.target, fb, StagingRoot(ReadOutputPath(ctx, st).value, CloudRunMode), cwd, opts, token);
      ThenOnly(prepared, tail, IsSpawn);
      ThenOnly(prepared, tail, IsDeploy);
    }
  }

  // ---------------------------------------------------------------------
  // deploy
  // ---------------------------------------------------------------------

  /** Whichever pipeline runs, it schedules no build. */
  lemma DispatchSchedulesNothing(fs: Files, ctx: Context, fb: Collaborators, st: BuildTarget, sv: Option<BuildTarget>,
                                 opts: OptionsValue, token: Option<string>)
    ensures Only(Dispatch(fs, ctx, fb, st, sv, opts, token).trace, IsSchedule) == []
  {
    match sv
    case Some(server) =>
      FunctionRunNoProcess(fs, ctx, fb, ctx.workspaceRoot, st, server, opts, token);
      CloudRunRunNoServe(fs, ctx, fb, ctx.workspaceRoot, st, server, opts, token);
    case None =>
      GateDeploysOnce(ctx.target, None, opts.preview, fb, ctx.workspaceRoot, token);
  }

  /**
   * Whichever pipeline runs, it makes at most one deploy call; the static
   * pipeline leaves the files as they are and deploys hosting only.
   */
  lemma DispatchDeploysAtMostOnce(fs: Files, ctx: Context, fb: Collaborators, st: BuildTarget, sv: Option<BuildTarget>,
                                  opts: OptionsValue, token: Option<string>)
    ensures |Only(Dispatch(fs, ctx, fb, st, sv, opts, token).trace, IsDeploy)| <= 1
    ensures sv.None? ==> Dispatch(fs, ctx, fb, st, sv, opts, token).files == fs
    ensures sv.None? ==>
      (Only(Dispatch(fs, ctx, fb, st, sv, opts, token).trace, IsDeploy) ==
       if GatePasses(ctx.target, opts.preview, fb)
       then [FirebaseDeploy(HostingTarget(ctx.target.value.project), ctx.workspaceRoot, token)] else [])
  {
    match sv
    case Some(server) =>
      FunctionRunDeploys(fs, ctx, fb, ctx.workspaceRoot, st, server, opts, token);
      CloudRunRunDeploys(fs, ctx, fb, ctx.workspaceRoot, st, server, opts, token);
    case None =>
      GateDeploysOnce(ctx.target, None, opts.preview, fb, ctx.workspaceRoot, token);
      if ctx.target.Some? {
        assert Scope(ctx.target.value.project, None) == HostingTarget(ctx.target.value.project);
      }
  }

  /**
   * The build phase fails only for a missing builder target (without a
   * prerender target) or a rejected build: a build that finishes with
   * `success: false` does not stop the deploy.
   */
  lemma BuildPhaseOutcome(ctx: Context, st: BuildTarget, sv: Option<BuildTarget>, pre: Option<BuildTarget>)
    ensures var b := BuildPhase(ctx, st, sv, pre);
      && (b.outcome.Pass? <==>
            match pre
            case Some(p) => BuildOf(ctx, p.name) != Rejected
            case None => ctx.target.Some? && BuildOf(ctx, st.name) != Rejected && (sv.Some? ==> BuildOf(ctx, sv.value.name) != Rejected))
      && (b.outcome.Fail? ==> b.outcome.error == (if pre.None? && ctx.target.None? then NoBuildTarget else BuildRejected))
  {
    if pre.Some? {
      assert [pre.value.name][0] == pre.value.name;
    } else if ctx.target.Some? {
      var names := [st.name] + (if sv.Some? then [sv.value.name] else []);
      assert names[0] == st.name;
      if sv.Some? {
        assert names == [st.name, sv.value.name];
        AllBuiltPair(ctx, st.name, sv.value.name);
      } else {
        assert names == [st.name];
      }
    }
  }

  lemma AllBuiltPair(ctx: Context, a: string, b: string)
    ensures AllBuilt(ctx, [a, b]) <==> BuildOf(ctx, a) != Rejected && BuildOf(ctx, b) != Rejected
  {
    if BuildOf(ctx, a) != Rejected && BuildOf(ctx, b) != Rejected {
      forall i | 0 <= i < 2
        ensures BuildOf(ctx, [a, b][i]) != Rejected
      {
        if i == 0 {
          assert [a, b][i] == a;
        } else {
          assert [a, b][i] == b;
        }
      }
    } else {
      assert [a, b][0] == a && [a, b][1] == b;
    }
  }

  /** The deploy passes login, builds and project selection. */
  predicate ReachesPipeline(ctx: Context, fb: Collaborators, st: BuildTarget, sv: Option<BuildTarget>,
                            pre: Option<BuildTarget>, token: Option<string>)
  {
    (!NeedsLogin(token) || fb.loginOk) && BuildPhase(ctx, st, sv, pre).outcome.Pass? && fb.useOk
  }

  /**
   * Errors before the pipeline propagate and leave the files and the options
   * untouched; once the project is selected, it is written into the options
   * and whatever the pipeline raises is only logged.
   */
  lemma DeployStatus(fs: Files, ctx: Context, fb: Collaborators, st: BuildTarget, sv: Option<BuildTarget>,
                     pre: Option<BuildTarget>, firebaseProject: string, opts: OptionsValue, token: Option<string>)
    ensures var d := DeployRun(fs, ctx, fb, st, sv, pre, firebaseProject, opts, token);
      && (d.status.Thrown? <==> !ReachesPipeline(ctx, fb, st, sv, pre, token))
      && (d.status.Thrown? ==> d.files == fs && d.options == opts)
      && (!d.status.Thrown? ==> d.options == opts.(firebaseProject := Some(firebaseProject)))
      && (d.status == Thrown(LoginFailed) <==> NeedsLogin(token) && !fb.loginOk)
      && (d.status == Thrown(NoBuildTarget) <==> (!NeedsLogin(token) || fb.loginOk) && pre.None? && ctx.target.None?)
      && (d.status == Thrown(CannotSelectProject(firebaseProject)) <==>
            (!NeedsLogin(token) || fb.loginOk) && BuildPhase(ctx, st, sv, pre).outcome.Pass? && !fb.useOk)
  {
    BuildPhaseOutcome(ctx, st, sv, pre);
  }

  /**
   * Attaching the console logger sits in the same try as the dispatch: when it
   * throws, the error is only logged, no pipeline effect happens, the files
   * are untouched and the options keep the selected project.
   */
  lemma DeployLoggerFailure(fs: Files, ctx: Context, fb: Collaborators, st: BuildTarget, sv: Option<BuildTarget>,
                            pre: Option<BuildTarget>, firebaseProject: string, opts: OptionsValue, token: Option<string>)
    requires ReachesPipeline(ctx, fb, st, sv, pre, token) && !fb.loggerOk
    ensures var d := DeployRun(fs, ctx, fb, st, sv, pre, firebaseProject, opts, token);
      && d.status == Logged(LoggerSetupFailed)
      && d.files == fs
      && d.options == opts.(firebaseProject := Some(firebaseProject))
      && Only(d.trace, IsDeploy) == []
      && d.trace[|d.trace| - 1] == Use(firebaseProject)
  {
    var login: seq<Effect> := if NeedsLogin(token) then [Login] else [];
    var b := BuildPhase(ctx, st, sv, pre);
    BuildSchedules(ctx, st, sv, pre);
    assert Only(login, IsDeploy) == [];
    OnlyAppend(login, b.trace, IsDeploy);
    OnlyAppend(login + b.trace, [Use(firebaseProject)], IsDeploy);
  }

  /** deploy logs in first, exactly when it is given no token (or an empty one). */
  lemma DeployLogsInFirst(fs: Files, ctx: Context, fb: Collaborators, st: BuildTarget, sv: Option<BuildTarget>,
                          pre: Option<BuildTarget>, firebaseProject: string, opts: OptionsValue, token: Option<string>)
    ensures var d := DeployRun(fs, ctx, fb, st, sv, pre, firebaseProject, opts, token);
      NeedsLogin(token) <==> |d.trace| > 0 && d.trace[0] == Login
  {
    var d := DeployRun(fs, ctx, fb, st, sv, pre, firebaseProject, opts, token);
    var b := BuildPhase(ctx, st, sv, pre);
    if !NeedsLogin(token) && |d.trace| > 0 {
      if |b.trace| > 0 {
        assert d.trace[0] == b.trace[0];
      } else {
        assert d.trace[0] == Use(firebaseProject);
      }
    }
  }

  /**
   * The builds deploy starts: none when login fails; the prerender target
   * alone when there is one; otherwise none without a builder target, or
   * the static build and then the server build when there is one.
   */
  function ExpectedSchedules(ctx: Context, fb: Collaborators, st: BuildTarget, sv: Option<BuildTarget>,
                             pre: Option<BuildTarget>, token: Option<string>): seq<Effect>
  {
    if NeedsLogin(token) && !fb.loginOk then []
    else if pre.Some? then [Schedule(pre.value.name)]
    else if ctx.target.None? then []
    else [Schedule(st.name)] + (if sv.Some? then [Schedule(sv.value.name)] else [])
  }

  /** DeploySchedules for a run that gets to the dispatcher. */
  lemma DeploySchedulesPipeline(fs: Files, ctx: Context, fb: Collaborators, st: BuildTarget, sv: Option<BuildTarget>,
                                pre: Option<BuildTarget>, firebaseProject: string, opts: OptionsValue, token: Option<string>)
    requires ReachesPipeline(ctx, fb, st, sv, pre, token)
    ensures Only(DeployRun(fs, ctx, fb, st, sv, pre, firebaseProject, opts, token).trace, IsSchedule) ==
      ExpectedSchedules(ctx, fb, st, sv, pre, token)
  {
    var login: seq<Effect> := if NeedsLogin(token) then [Login] else [];
    var b := BuildPhase(ctx, st, sv, pre);
    BuildSchedules(ctx, st, sv, pre);
    assert Only(login, IsSchedule) == [];
    OnlyAppend(login, b.trace, IsSchedule);
    var selected := opts.(firebaseProject := Some(firebaseProject));
    var run := Dispatch(fs, ctx, fb, st, sv, selected, token);
    DispatchSchedulesNothing(fs, ctx, fb, st, sv, selected, token);
    OnlyAppend(login + b.trace, [Use(firebaseProject)], IsSchedule);
    OnlyAppend(login + b.trace + [Use(firebaseProject)], run.trace, IsSchedule);
  }

  /** DeploySchedules for a run that stops before the dispatcher. */
  lemma DeploySchedulesEarly(fs: Files, ctx: Context, fb: Collaborators, st: BuildTarget, sv: Option<BuildTarget>,
                             pre: Option<BuildTarget>, firebaseProject: string, opts: OptionsValue, token: Option<string>)
    requires !ReachesPipeline(ctx, fb, st, sv, pre, token)
    ensures Only(DeployRun(fs, ctx, fb, st, sv, pre, firebaseProject, opts, token).trace, IsSchedule) ==
      ExpectedSchedules(ctx, fb, st, sv, pre, token)
  {
    var login: seq<Effect> := if NeedsLogin(token) then [Login] else [];
    var b := BuildPhase(ctx, st, sv, pre);
    BuildSchedules(ctx, st, sv, pre);
    assert Only(login, IsSchedule) == [];
    if !NeedsLogin(token) || fb.loginOk {
      OnlyAppend(login, b.trace, IsSchedule);
      if b.outcome.Pass? {
        OnlyAppend(login + b.trace, [Use(firebaseProject)], IsSchedule);
      }
    }
  }

  lemma DeploySchedules(fs: Files, ctx: Context, fb: Collaborators, st: BuildTarget, sv: Option<BuildTarget>,
                        pre: Option<BuildTarget>, firebaseProject: string, opts: OptionsValue, token: Option<string>)
    ensures Only(DeployRun(fs, ctx, fb, st, sv, pre, firebaseProject, opts, token).trace, IsSchedule) ==
      ExpectedSchedules(ctx, fb, st, sv, pre, token)
  {
    if ReachesPipeline(ctx, fb, st, sv, pre, token) {
      DeploySchedulesPipeline(fs, ctx, fb, st, sv, pre, firebaseProject, opts, token);
    } else {
      DeploySchedulesEarly(fs, ctx, fb, st, sv, pre, firebaseProject, opts, token);
    }
  }

  /** The builds the build phase starts, in order. */
  lemma BuildSchedules(ctx: Context, st: BuildTarget, sv: Option<BuildTarget>, pre: Option<BuildTarget>)
    ensures Only(BuildPhase(ctx, st, sv, pre).trace, IsSchedule) ==
      if pre.Some? then [Schedule(pre.value.name)]
      else if ctx.target.None? then []
      else [Schedule(st.name)] + (if sv.Some? then [Schedule(sv.value.name)] else [])
    ensures Only(BuildPhase(ctx, st, sv, pre).trace, IsDeploy) == []
  {
    var b := BuildPhase(ctx, st, sv, pre);
    if pre.None? && ctx.target.Some? && sv.Some? {
      assert b.trace == [Schedule(st.name)] + [Schedule(sv.value.name)];
      OnlyAppend([Schedule(st.name)], [Schedule(sv.value.name)], IsSchedule);
      OnlyAppend([Schedule(st.name)], [Schedule(sv.value.name)], IsDeploy);
    }
  }

  /** deploy makes at most one deploy call, and leaves the files untouched without a server target. */
  lemma DeployDeploysAtMostOnce(fs: Files, ctx: Context, fb: Collaborators, st: BuildTarget, sv: Option<BuildTarget>,
                                pre: Option<BuildTarget>, firebaseProject: string, opts: OptionsValue, token: Option<string>)
    ensures var d := DeployRun(fs, ctx, fb, st, sv, pre, firebaseProject, opts, token);
      |Only(d.trace, IsDeploy)| <= 1 && (sv.None? ==> d.files == fs)
  {
    if ReachesPipeline(ctx, fb, st, sv, pre, token) {
      DeployDeploysPipeline(fs, ctx, fb, st, sv, pre, firebaseProject, opts, token);
    } else {
      DeployDeploysEarly(fs, ctx, fb, st, sv, pre, firebaseProject, opts, token);
    }
  }

  /** DeployDeploysAtMostOnce for a run that gets to the dispatcher. */
  lemma DeployDeploysPipeline(fs: Files, ctx: Context, fb: Collaborators, st: BuildTarget, sv: Option<BuildTarget>,
                              pre: Option<BuildTarget>, firebaseProject: string, opts: OptionsValue, token: Option<string>)
    requires ReachesPipeline(ctx, fb, st, sv, pre, token)
    ensures var d := DeployRun(fs, ctx, fb, st, sv, pre, firebaseProject, opts, token);
      |Only(d.trace, IsDeploy)| <= 1 && (sv.None? ==> d.files == fs)
  {
    var login: seq<Effect> := if NeedsLogin(token) then [Login] else [];
    var b := BuildPhase(ctx, st, sv, pre);
    BuildSchedules(ctx, st, sv, pre);
    assert Only(login, IsDeploy) == [];
    OnlyAppend(login, b.trace, IsDeploy);
    var selected := opts.(firebaseProject := Some(firebaseProject));
    var run := Dispatch(fs, ctx, fb, st, sv, selected, token);
    DispatchDeploysAtMostOnce(fs, ctx, fb, st, sv, selected, token);
    OnlyAppend(login + b.trace, [Use(firebaseProject)], IsDeploy);
    OnlyAppend(login + b.trace + [Use(firebaseProject)], run.trace, IsDeploy);
  }

  /** DeployDeploysAtMostOnce for a run that stops before the dispatcher: no deploy at all. */
  lemma DeployDeploysEarly(fs: Files, ctx: Context, fb: Collaborators, st: BuildTarget, sv: Option<BuildTarget>,
                           pre: Option<BuildTarget>, firebaseProject: string, opts: OptionsValue, token: Option<string>)
    requires !ReachesPipeline(ctx, fb, st, sv, pre, token)
    ensures var d := DeployRun(fs, ctx, fb, st, sv, pre, firebaseProject, opts, token);
      Only(d.trace, IsDeploy) == [] && d.files == fs
  {
    var login: seq<Effect> := if NeedsLogin(token) then [Login] else [];
    var b := BuildPhase(ctx, st, sv, pre);
    BuildSchedules(ctx, st, sv, pre);
    assert Only(login, IsDeploy) == [];
    if !NeedsLogin(token) || fb.loginOk {
      OnlyAppend(login, b.trace, IsDeploy);
      if b.outcome.Pass? {
        OnlyAppend(login + b.trace, [Use(firebaseProject)], IsDeploy);
      }
    }
  }
}
