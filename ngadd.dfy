/**
 * The configuration-file editing shared by the ng-add schematics
 * (src/schematics/ng-add-common.ts). There are three parts:
 *   - the schematic's `Tree`, with `overwriteIfExists`;
 *   - `.firebaserc` generation;
 *   - adding dependencies to `package.json`.
 *
 * JSON text is kept abstract: a file holds the value `JSON.parse` would
 * return, or text it rejects. The emitted code runs in strict mode, so
 * creating a property on a primitive raises a TypeError.
 */
module NgAdd {
  import opened Wrappers

  // ---------------------------------------------------------------------
  // Values and the tree
  // ---------------------------------------------------------------------

  /** A value as `JSON.parse` returns it (numbers are kept to integers). */
  datatype Json =
    | JNull
    | JBool(b: bool)
    | JNum(n: int)
    | JStr(s: string)
    | JArr(items: seq<Json>)
    | JObj(fields: map<string, Json>)

  /** JavaScript truthiness of a parsed value. */
  predicate Truthy(v: Json)
  {
    match v
    case JNull => false
    case JBool(b) => b
    case JNum(n) => n != 0
    case JStr(s) => s != ""
    case JArr(_) => true
    case JObj(_) => true
  }

  /**
   * The text of a file in the tree. It is either text that `JSON.parse`
   * turns into `value`, or text it rejects. What
   * `stringifyFormatted(v)` writes is `JsonText(v)`.
   */
  datatype FileText = JsonText(value: Json) | Garbled(raw: string)

  /** The errors the helpers raise. */
  datatype NgAddError =
    | ParseFailed(path: string)     // `Error when parsing <path>: ...`
    | TypeError                     // a property read or assignment the runtime rejects
    | CouldNotLocatePackageJson     // `Could not locate package.json`

  /** A change made to the tree. */
  datatype TreeOp = Created(path: string, text: FileText) | Overwritten(path: string, text: FileText)

  /** The schematic's virtual file tree and the log of the changes made to it. */
  class Tree {
    var files: map<string, FileText>
    var log: seq<TreeOp>

    constructor (initial: map<string, FileText>)
      ensures files == initial && log == []
    {
      files := initial;
      log := [];
    }

    /** `tree.create`, which refuses a path that already exists. */
    method Create(path: string, text: FileText)
      requires path !in files
      modifies this
      ensures files == old(files)[path := text] && log == old(log) + [Created(path, text)]
    {
      files := files[path := text];
      log := log + [Created(path, text)];
    }

    /** `tree.overwrite`, which refuses a path that does not exist. */
    method Overwrite(path: string, text: FileText)
      requires path in files
      modifies this
      ensures files == old(files)[path := text] && log == old(log) + [Overwritten(path, text)]
    {
      files := files[path := text];
      log := log + [Overwritten(path, text)];
    }
  }

  /** The change `overwriteIfExists` makes: an overwrite exactly when the path exists. */
  function WriteOp(files: map<string, FileText>, path: string, text: FileText): TreeOp
  {
    if path in files then Overwritten(path, text) else Created(path, text)
  }

  /** overwriteIfExists (ng-add-common.ts:26-36). */
  method OverwriteIfExists(tree: Tree, path: string, text: FileText)
    modifies tree
    ensures tree.files == old(tree.files)[path := text]
    ensures tree.log == old(tree.log) + [WriteOp(old(tree.files), path, text)]
  {
    if path in tree.files {
      tree.Overwrite(path, text);
    } else {
      tree.Create(path, text);
    }
  }

  /**
   * safeReadJSON (ng-add-common.ts:83-90). A missing file makes
   * `read(path)!.toString()` throw, and unparsable text makes `JSON.parse`
   * throw. Both are reported as an error naming the path.
   */
  function SafeReadJson(files: map<string, FileText>, path: string): (r: Result<Json, NgAddError>)
    ensures r.Ok? <==> path in files && files[path].JsonText?
    ensures r.Ok? ==> files[path] == JsonText(r.value)
    ensures r.Err? ==> r.error == ParseFailed(path)
  {
    if path !in files then Err(ParseFailed(path))
    else match files[path]
      case JsonText(v) => Ok(v)
      case Garbled(_) => Err(ParseFailed(path))
  }

  /**
   * After a write, reading the path back gives the value written, and
   * reading any other path gives what it gave before.
   */
  lemma ReadAfterWrite(files: map<string, FileText>, path: string, v: Json, other: string)
    requires other != path
    ensures SafeReadJson(files[path := JsonText(v)], path) == Ok(v)
    ensures SafeReadJson(files[path := JsonText(v)], other) == SafeReadJson(files, other)
  {
  }

  // ---------------------------------------------------------------------
  // .firebaserc
  // ---------------------------------------------------------------------

  /** emptyFirebaseRc (ng-add-common.ts:38-42). */
  function EmptyFirebaseRc(): Json
  {
    JObj(map["targets" := JObj(map[])])
  }

  /**
   * generateFirebaseRcTarget (ng-add-common.ts:44-52). `shortName` is
   * the result of `shortSiteName(site)`. Only a missing name falls back to
   * the project id; an empty name is kept.
   */
  function FirebaseRcTarget(firebaseProject: string, shortName: Option<string>, project: string): Json
  {
    var site := if shortName.Some? then shortName.value else firebaseProject;
    JObj(map["hosting" := JObj(map[project := JArr([JStr(site)])])])
  }

  /** `firebaseRc.targets = firebaseRc.targets || {}` (ng-add-common.ts:65). */
  function WithTargets(rc: Json): Result<Json, NgAddError>
  {
    match rc
    case JObj(f) =>
      var targets := if "targets" in f && Truthy(f["targets"]) then f["targets"] else JObj(map[]);
      Ok(JObj(f["targets" := targets]))
    // a named property of an array, which JSON.stringify does not write
    case JArr(_) => Ok(rc)
    // reading a property of null, or creating one on a primitive
    case _ => Err(TypeError)
  }

  /** `firebaseRc.targets[firebaseProject] = target` (ng-add-common.ts:74-78). */
  function WithEntry(rc: Json, firebaseProject: string, target: Json): Result<Json, NgAddError>
  {
    match rc
    case JObj(f) =>
      if "targets" !in f then Err(TypeError)
      else (match f["targets"]
        case JObj(t) => Ok(JObj(f["targets" := JObj(t[firebaseProject := target])]))
        case JArr(_) => Ok(rc)
        case _ => Err(TypeError))
    case JArr(_) => Ok(rc)
    case _ => Err(TypeError)
  }

  /** The in-memory edit of a parsed `.firebaserc` (ng-add-common.ts:65-78). */
  function UpdatedRc(rc: Json, firebaseProject: string, target: Json): Result<Json, NgAddError>
  {
    match WithTargets(rc)
    case Err(e) => Err(e)
    case Ok(prepared) => WithEntry(prepared, firebaseProject, target)
  }

  /** The value generateFirebaseRc writes to `path`, or the error it raises. */
  function GeneratedRc(files: map<string, FileText>, path: string, firebaseProject: string,
                       shortName: Option<string>, project: string): Result<Json, NgAddError>
  {
    var read := if path in files then SafeReadJson(files, path) else Ok(EmptyFirebaseRc());
    match read
    case Err(e) => Err(e)
    case Ok(rc) => UpdatedRc(rc, firebaseProject, FirebaseRcTarget(firebaseProject, shortName, project))
  }

  /**
   * generateFirebaseRc (ng-add-common.ts:54-81). On success there is
   * exactly one write, to `path`. On an error the tree is left as it was.
   */
  method GenerateFirebaseRc(tree: Tree, path: string, firebaseProject: string,
                            shortName: Option<string>, project: string) returns (r: Outcome<NgAddError>)
    modifies tree
    ensures match GeneratedRc(old(tree.files), path, firebaseProject, shortName, project)
      case Ok(rc) =>
        r == Pass && tree.files == old(tree.files)[path := JsonText(rc)] &&
        tree.log == old(tree.log) + [WriteOp(old(tree.files), path, JsonText(rc))]
      case Err(e) => r == Fail(e) && tree.files == old(tree.files) && tree.log == old(tree.log)
  {
    var firebaseRc: Json;
    if path in tree.files {
      var read := SafeReadJson(tree.files, path);
      if read.Err? {
        return Fail(read.error);
      }
      firebaseRc := read.value;
    } else {
      firebaseRc := EmptyFirebaseRc();
    }
    var prepared := WithTargets(firebaseRc);
    if prepared.Err? {
      return Fail(prepared.error);
    }
    var updated := WithEntry(prepared.value, firebaseProject, FirebaseRcTarget(firebaseProject, shortName, project));
    if updated.Err? {
      return Fail(updated.error);
    }
    OverwriteIfExists(tree, path, JsonText(updated.value));
    return Pass;
  }

  /**
   * generateFirebaseRc reads an existing `.firebaserc` with safeReadJSON:
   *   - text that does not parse stops it with the parse error naming the
   *     path, and the tree is then left as it was;
   *   - parsed text is the value the edit starts from.
   */
  lemma GeneratedRcReads(files: map<string, FileText>, path: string, firebaseProject: string,
                         shortName: Option<string>, project: string)
    ensures path in files && files[path].Garbled? ==>
      GeneratedRc(files, path, firebaseProject, shortName, project) == Err(ParseFailed(path))
    ensures path in files && files[path].JsonText? ==>
      GeneratedRc(files, path, firebaseProject, shortName, project) ==
        UpdatedRc(files[path].value, firebaseProject, FirebaseRcTarget(firebaseProject, shortName, project))
  {
  }

  /** The `targets` object of a parsed `.firebaserc`, when it has one. */
  function Targets(rc: Json): Option<map<string, Json>>
  {
    if rc.JObj? && "targets" in rc.fields && rc.fields["targets"].JObj? then Some(rc.fields["targets"].fields)
    else None
  }

  /**
   * Editing an object `.firebaserc` whose `targets` is an object or
   * missing or falsy has these effects:
   *   - `targets[firebaseProject]` becomes the new target, replacing any
   *     earlier entry rather than merging with it;
   *   - every other target is kept;
   *   - a missing or falsy `targets` starts as `{}`;
   *   - every other top-level key is kept.
   */
  lemma UpdatedRcReplacesEntry(rc: Json, firebaseProject: string, target: Json)
    requires rc.JObj?
    requires Targets(rc).Some? || !("targets" in rc.fields && Truthy(rc.fields["targets"]))
    ensures var r := UpdatedRc(rc, firebaseProject, target);
      r.Ok? && r.value.JObj? && r.value.fields.Keys == rc.fields.Keys + {"targets"} &&
      (forall k :: k in rc.fields && k != "targets" ==> r.value.fields[k] == rc.fields[k]) &&
      Targets(r.value) == Some((if Targets(rc).Some? then Targets(rc).value else map[])[firebaseProject := target])
  {
  }

  /**
   * The errors of the in-memory edit. It fails, always with a TypeError,
   * exactly when:
   *   - the parsed value is null or a primitive; or
   *   - its `targets` is a truthy primitive.
   * A `.firebaserc` that is an array, or whose `targets` is an array, is
   * written back unchanged.
   */
  lemma UpdatedRcErrors(rc: Json, firebaseProject: string, target: Json)
    ensures var r := UpdatedRc(rc, firebaseProject, target);
      (r.Err? <==>
        !(rc.JObj? || rc.JArr?) ||
        (rc.JObj? && "targets" in rc.fields && Truthy(rc.fields["targets"]) &&
         !(rc.fields["targets"].JObj? || rc.fields["targets"].JArr?))) &&
      (r.Err? ==> r.error == TypeError)
    ensures rc.JArr? || (rc.JObj? && "targets" in rc.fields && rc.fields["targets"].JArr?) ==>
      UpdatedRc(rc, firebaseProject, target) == Ok(rc)
  {
    if rc.JObj? && "targets" in rc.fields && rc.fields["targets"].JArr? {
      assert rc.fields["targets" := rc.fields["targets"]] == rc.fields;
    }
  }

  /** Applying the edit to its own result changes nothing more. */
  lemma UpdatedRcIdempotent(rc: Json, firebaseProject: string, target: Json)
    requires UpdatedRc(rc, firebaseProject, target).Ok?
    ensures var r := UpdatedRc(rc, firebaseProject, target).value;
      UpdatedRc(r, firebaseProject, target) == Ok(r)
  {
    var r := UpdatedRc(rc, firebaseProject, target).value;
    if r.JObj? {
      var t := r.fields["targets"];
      assert r.fields["targets" := t] == r.fields;
      if t.JObj? {
        assert t.fields[firebaseProject := target] == t.fields;
      }
    }
  }

  /** Without a `.firebaserc`, the file written holds exactly the one new target. */
  lemma GeneratedRcFromAbsent(files: map<string, FileText>, path: string, firebaseProject: string,
                              shortName: Option<string>, project: string)
    requires path !in files
    ensures GeneratedRc(files, path, firebaseProject, shortName, project) ==
      Ok(JObj(map["targets" := JObj(map[firebaseProject := FirebaseRcTarget(firebaseProject, shortName, project)])]))
  {
    var target := FirebaseRcTarget(firebaseProject, shortName, project);
    var f := EmptyFirebaseRc().fields;
    assert f["targets" := f["targets"]] == f;
    var entries: map<string, Json> := map[firebaseProject := target];
    assert f["targets" := JObj(entries)] == map["targets" := JObj(entries)];
  }

  /**
   * The hosting site a parsed `.firebaserc` maps `project` to under
   * `firebaseProject`: `targets[firebaseProject].hosting[project]` when
   * that is a one-site list.
   */
  function HostingSite(rc: Json, firebaseProject: string, project: string): Option<string>
  {
    var targets := Targets(rc);
    if targets.None? || firebaseProject !in targets.value then None
    else
      var entry := targets.value[firebaseProject];
      if !entry.JObj? || "hosting" !in entry.fields || !entry.fields["hosting"].JObj? then None
      else
        var hosting := entry.fields["hosting"].fields;
        if project !in hosting then None
        else match hosting[project]
          case JArr(sites) => if |sites| == 1 && sites[0].JStr? then Some(sites[0].s) else None
          case _ => None
  }

  /**
   * After generateFirebaseRc succeeds on an object `.firebaserc` whose
 * `targets` is not an array:
   *   - the deploy target resolves `project` under `firebaseProject` to
   *     the short site name, or to the project id when there is none;
   *   - the sites every other Firebase project maps to are as they were.
   */
  lemma GeneratedRcSite(files: map<string, FileText>, path: string, firebaseProject: string,
                        shortName: Option<string>, project: string, otherProject: string, otherApp: string)
    requires path in files && files[path].JsonText? && files[path].value.JObj?
    requires !("targets" in files[path].value.fields && files[path].value.fields["targets"].JArr?)
    requires GeneratedRc(files, path, firebaseProject, shortName, project).Ok?
    requires otherProject != firebaseProject
    ensures var rc := GeneratedRc(files, path, firebaseProject, shortName, project).value;
      HostingSite(rc, firebaseProject, project) ==
        Some(if shortName.Some? then shortName.value else firebaseProject) &&
      HostingSite(rc, otherProject, otherApp) == HostingSite(files[path].value, otherProject, otherApp)
  {
    var before := files[path].value;
    var target := FirebaseRcTarget(firebaseProject, shortName, project);
    UpdatedRcErrors(before, firebaseProject, target);
    UpdatedRcReplacesEntry(before, firebaseProject, target);
  }

  // ---------------------------------------------------------------------
  // addDependencies
  // ---------------------------------------------------------------------

  /** One entry of the `deps` dictionary, in the dictionary's key order. */
  datatype Dependency = Dependency(name: string, dev: bool, version: string)

  /**
   * A `logger.warn` saying that the version in package.json does not
   * fulfil the wanted one (ng-add-common.ts:111 and 116).
   */
  datatype Warning = VersionWarning(name: string, installed: Json, wanted: string)

  /** The keys of a dictionary are distinct. */
  predicate DistinctNames(deps: seq<Dependency>)
  {
    forall i, j :: 0 <= i < j < |deps| ==> deps[i].name != deps[j].name
  }

  /** The package.json key of a dependency's section. */
  function SectionKey(dev: bool): string
  {
    if dev then "devDependencies" else "dependencies"
  }

  /** `packageJson.devDependencies` or `packageJson.dependencies`, where None is `undefined`. */
  function Section(pkg: Json, dev: bool): Option<Json>
  {
    if pkg.JObj? && SectionKey(dev) in pkg.fields then Some(pkg.fields[SectionKey(dev)]) else None
  }

  /**
   * Whether a section can be indexed and assigned into without a
   * TypeError. `undefined` and null cannot be indexed. A primitive can be
   * indexed, but no property can be created on it.
   */
  predicate Writable(pkg: Json, dev: bool)
  {
    Section(pkg, dev).Some? && (Section(pkg, dev).value.JObj? || Section(pkg, dev).value.JArr?)
  }

  /**
   * `existingDeps[name]`, where None is `undefined`. An array section
   * holds no entry for a package name.
   */
  function SectionEntry(pkg: Json, dev: bool, name: string): Option<Json>
  {
    var s := Section(pkg, dev);
    if s.Some? && s.value.JObj? && name in s.value.fields then Some(s.value.fields[name]) else None
  }

  /**
   * Whether an installed version draws a warning. That is the case when
   * `semver.intersects` says the ranges are disjoint. When the check
   * throws (None), it is the case when the strings differ.
   */
  predicate Conflicts(installed: Json, wanted: string, intersects: (Json, string) -> Option<bool>)
  {
    match intersects(installed, wanted)
    case Some(overlap) => !overlap
    case None => installed != JStr(wanted)
  }

  /** One iteration of the `forEach` (ng-add-common.ts:105-122). */
  function AddOne(pkg: Json, d: Dependency, intersects: (Json, string) -> Option<bool>): Result<(Json, seq<Warning>), NgAddError>
  {
    if !Writable(pkg, d.dev) then Err(TypeError)
    else
      var installed := SectionEntry(pkg, d.dev, d.name);
      if installed.Some? && Truthy(installed.value) then
        Ok((pkg, if Conflicts(installed.value, d.version, intersects)
                 then [VersionWarning(d.name, installed.value, d.version)] else []))
      else match Section(pkg, d.dev).value
        case JObj(f) => Ok((JObj(pkg.fields[SectionKey(d.dev) := JObj(f[d.name := JStr(d.version)])]), []))
        case _ => Ok((pkg, []))
  }

  /** The in-memory package.json and the warnings of the loop, or the error that ended it. */
  datatype DepsRun = DepsRun(pkg: Json, warnings: seq<Warning>, outcome: Outcome<NgAddError>)

  /** The loop of ng-add-common.ts:104-123 over the dependencies still to visit. */
  function AddAll(pkg: Json, deps: seq<Dependency>, intersects: (Json, string) -> Option<bool>): DepsRun
    decreases |deps|
  {
    if deps == [] then DepsRun(pkg, [], Pass)
    else match AddOne(pkg, deps[0], intersects)
      case Err(e) => DepsRun(pkg, [], Fail(e))
      case Ok((next, w)) =>
        var rest := AddAll(next, deps[1..], intersects);
        DepsRun(rest.pkg, w + rest.warnings, rest.outcome)
  }

  /**
   * The package.json value addDependencies starts from (ng-add-common.ts:97-98).
   * When the file is absent, `exists(..) && ..` yields `false`.
   */
  function InitialPackage(files: map<string, FileText>): Result<Json, NgAddError>
  {
    if "package.json" in files then SafeReadJson(files, "package.json") else Ok(JBool(false))
  }

  /** What addDependencies computes before its final write. */
  function AddDependenciesRun(files: map<string, FileText>, deps: seq<Dependency>,
                              intersects: (Json, string) -> Option<bool>): DepsRun
  {
    match InitialPackage(files)
    case Err(e) => DepsRun(JBool(false), [], Fail(e))
    case Ok(pkg) => AddAll(pkg, deps, intersects)
  }

  /**
   * addDependencies (ng-add-common.ts:92-126), as written. On success,
   * package.json is written once, after the loop. On an error the tree is
   * unchanged. The warnings logged before an error are still returned.
   */
  method AddDependencies(host: Tree, deps: seq<Dependency>, intersects: (Json, string) -> Option<bool>)
    returns (r: Outcome<NgAddError>, warnings: seq<Warning>)
    modifies host
    ensures var run := AddDependenciesRun(old(host.files), deps, intersects);
      r == run.outcome && warnings == run.warnings &&
      if r.Pass? then
        host.files == old(host.files)["package.json" := JsonText(run.pkg)] &&
        host.log == old(host.log) + [WriteOp(old(host.files), "package.json", JsonText(run.pkg))]
      else host.files == old(host.files) && host.log == old(host.log)
  {
    var packageJson: Json;
    if "package.json" in host.files {
      var read := SafeReadJson(host.files, "package.json");
      if read.Err? {
        return Fail(read.error), [];
      }
      packageJson := read.value;
    } else {
      packageJson := JBool(false);
    }
    // The guard `packageJson === undefined` (lines 100-102) compares with a
    // value neither branch above produces, so it never fires (see
    // AbsentPackageJsonNotReported).
    ghost var total := AddDependenciesRun(host.files, deps, intersects);
    warnings := [];
    var i := 0;
    while i < |deps|
      invariant 0 <= i <= |deps|
      invariant host.files == old(host.files) && host.log == old(host.log)
      invariant var rest := AddAll(packageJson, deps[i..], intersects);
        total == DepsRun(rest.pkg, warnings + rest.warnings, rest.outcome)
    {
      var d := deps[i];
      assert deps[i..][1..] == deps[i + 1..];
      if !Writable(packageJson, d.dev) {
        assert warnings + [] == warnings;
        return Fail(TypeError), warnings;
      }
      var installed := SectionEntry(packageJson, d.dev, d.name);
      var w: seq<Warning> := [];
      if installed.Some? && Truthy(installed.value) {
        if Conflicts(installed.value, d.version, intersects) {
          w := [VersionWarning(d.name, installed.value, d.version)];
        }
      } else if Section(packageJson, d.dev).value.JObj? {
        var existing := Section(packageJson, d.dev).value.fields;
        packageJson := JObj(packageJson.fields[SectionKey(d.dev) := JObj(existing[d.name := JStr(d.version)])]);
      }
      AppendAssoc(warnings, w, AddAll(packageJson, deps[i + 1..], intersects).warnings);
      warnings := warnings + w;
      i := i + 1;
    }
    assert warnings + [] == warnings;
    OverwriteIfExists(host, "package.json", JsonText(packageJson));
    return Pass, warnings;
  }

  /**
   * The loop either passes or fails with a TypeError. It passes exactly
   * when the section of every requested dependency can be indexed and
   * assigned into.
   */
  lemma {:induction false} AddAllOutcome(pkg: Json, deps: seq<Dependency>, intersects: (Json, string) -> Option<bool>)
    ensures AddAll(pkg, deps, intersects).outcome ==
      if forall i :: 0 <= i < |deps| ==> Writable(pkg, deps[i].dev) then Pass else Fail(TypeError)
    decreases |deps|
  {
    if deps != [] && Writable(pkg, deps[0].dev) {
      var next := AddOne(pkg, deps[0], intersects).value.0;
      AddOneFrame(pkg, deps[0], intersects);
      AddAllOutcome(next, deps[1..], intersects);
      assert forall i :: 1 <= i < |deps| ==> deps[i] == deps[1..][i - 1];
    }
  }

  /**
   * One iteration changes only the entry `d.name` of `d`'s section, and
   * whether each section can be written is unchanged.
   */
  lemma AddOneFrame(pkg: Json, d: Dependency, intersects: (Json, string) -> Option<bool>)
    requires AddOne(pkg, d, intersects).Ok?
    ensures var next := AddOne(pkg, d, intersects).value.0;
      Writable(next, true) == Writable(pkg, true) && Writable(next, false) == Writable(pkg, false) &&
      (Section(pkg, true).Some? && Section(pkg, true).value.JArr? ==> Section(next, true) == Section(pkg, true)) &&
      (Section(pkg, false).Some? && Section(pkg, false).value.JArr? ==> Section(next, false) == Section(pkg, false)) &&
      next.JObj? && next.fields.Keys == pkg.fields.Keys &&
      (forall k :: k in pkg.fields && k != SectionKey(d.dev) ==> next.fields[k] == pkg.fields[k])
  {
  }

  /**
   * The entry `name` after one iteration. The visited dependency's entry
   * in its own section is set to the wanted version unless a truthy one
   * is already there. Every other entry is unchanged.
   */
  lemma AddOneEntry(pkg: Json, d: Dependency, intersects: (Json, string) -> Option<bool>, dev: bool, name: string)
    requires AddOne(pkg, d, intersects).Ok?
    requires Section(pkg, dev).Some? && Section(pkg, dev).value.JObj?
    ensures var next := AddOne(pkg, d, intersects).value.0;
      var before := SectionEntry(pkg, dev, name);
      Section(next, dev).Some? && Section(next, dev).value.JObj? &&
      SectionEntry(next, dev, name) ==
        if d.name == name && d.dev == dev && !(before.Some? && Truthy(before.value)) then Some(JStr(d.version))
        else before
  {
  }

  /** The first dependency requested under `name`. */
  function Requested(deps: seq<Dependency>, name: string): Option<Dependency>
    decreases |deps|
  {
    if deps == [] then None
    else if deps[0].name == name then Some(deps[0])
    else Requested(deps[1..], name)
  }

  /** The tail of a dictionary's entries has distinct names too. */
  lemma DistinctTail(deps: seq<Dependency>)
    requires deps != [] && DistinctNames(deps)
    ensures DistinctNames(deps[1..])
  {
    forall i, j | 0 <= i < j < |deps[1..]|
      ensures deps[1..][i].name != deps[1..][j].name
    {
      assert deps[1..][i] == deps[i + 1] && deps[1..][j] == deps[j + 1];
    }
  }

  /** With distinct names, the dependency requested under a name is the one of that name. */
  lemma {:induction false} RequestedFinds(deps: seq<Dependency>, i: int)
    requires DistinctNames(deps) && 0 <= i < |deps|
    ensures Requested(deps, deps[i].name) == Some(deps[i])
    decreases |deps|
  {
    if i > 0 {
      DistinctTail(deps);
      assert deps[1..][i - 1] == deps[i];
      RequestedFinds(deps[1..], i - 1);
    }
  }

  /** No dependency of a tail is requested under the head's name. */
  lemma {:induction false} RequestedAfterHead(deps: seq<Dependency>)
    requires deps != [] && DistinctNames(deps)
    ensures Requested(deps[1..], deps[0].name) == None
  {
    var rest := deps[1..];
    var k := 0;
    while k < |rest|
      invariant 0 <= k <= |rest|
      invariant Requested(rest, deps[0].name) == Requested(rest[k..], deps[0].name)
    {
      assert rest[k] == deps[k + 1];
      assert rest[k..][1..] == rest[k + 1..];
      k := k + 1;
    }
  }

  /**
   * After a successful loop, an object section holds three kinds of entry:
   *   - every requested dependency that was missing from it, or had a
   *     falsy version there, now has the requested version;
   *   - every requested dependency that had a truthy version keeps it;
   *   - every other entry is as it was.
   */
  lemma {:induction false} AddAllEntry(pkg: Json, deps: seq<Dependency>, intersects: (Json, string) -> Option<bool>,
                                       dev: bool, name: string)
    requires DistinctNames(deps)
    requires Section(pkg, dev).Some? && Section(pkg, dev).value.JObj?
    requires AddAll(pkg, deps, intersects).outcome.Pass?
    ensures var after := AddAll(pkg, deps, intersects).pkg;
      var req := Requested(deps, name);
      var before := SectionEntry(pkg, dev, name);
      Section(after, dev).Some? && Section(after, dev).value.JObj? &&
      SectionEntry(after, dev, name) ==
        if req.Some? && req.value.dev == dev && !(before.Some? && Truthy(before.value)) then Some(JStr(req.value.version))
        else before
    decreases |deps|
  {
    if deps != [] {
      var d := deps[0];
      var next := AddOne(pkg, d, intersects).value.0;
      AddOneEntry(pkg, d, intersects, dev, name);
      DistinctTail(deps);
      AddAllEntry(next, deps[1..], intersects, dev, name);
      if d.name == name {
        RequestedAfterHead(deps);
      }
    }
  }

  /**
   * Whatever the loop does leaves the rest of package.json alone:
   *   - a non-object value stays as it was;
   *   - an object keeps its keys;
   *   - every key other than the two sections is unchanged;
   *   - an array section is unchanged.
   */
  lemma {:induction false} AddAllFrame(pkg: Json, deps: seq<Dependency>, intersects: (Json, string) -> Option<bool>)
    ensures var after := AddAll(pkg, deps, intersects).pkg;
      (!pkg.JObj? ==> after == pkg) &&
      (pkg.JObj? ==> after.JObj? && after.fields.Keys == pkg.fields.Keys) &&
      (pkg.JObj? ==> forall k :: k in pkg.fields && k != "dependencies" && k != "devDependencies" ==>
        after.fields[k] == pkg.fields[k]) &&
      (Section(pkg, true).Some? && Section(pkg, true).value.JArr? ==> Section(after, true) == Section(pkg, true)) &&
      (Section(pkg, false).Some? && Section(pkg, false).value.JArr? ==> Section(after, false) == Section(pkg, false))
    decreases |deps|
  {
    if deps != [] && AddOne(pkg, deps[0], intersects).Ok? {
      AddOneFrame(pkg, deps[0], intersects);
      AddAllFrame(AddOne(pkg, deps[0], intersects).value.0, deps[1..], intersects);
    }
  }

  /**
   * Every requested dependency already has its section writable, and in
   * an object section an entry that is truthy or is the wanted version.
   */
  predicate Settled(pkg: Json, deps: seq<Dependency>)
  {
    forall i :: 0 <= i < |deps| ==>
      Writable(pkg, deps[i].dev) &&
      (Section(pkg, deps[i].dev).value.JObj? ==>
        var entry := SectionEntry(pkg, deps[i].dev, deps[i].name);
        entry.Some? && (Truthy(entry.value) || entry.value == JStr(deps[i].version)))
  }

  /** On a settled package.json the loop passes and changes nothing. */
  lemma {:induction false} AddAllStable(pkg: Json, deps: seq<Dependency>, intersects: (Json, string) -> Option<bool>)
    requires Settled(pkg, deps)
    ensures AddAll(pkg, deps, intersects).pkg == pkg && AddAll(pkg, deps, intersects).outcome == Pass
    decreases |deps|
  {
    if deps != [] {
      var d := deps[0];
      var entry := SectionEntry(pkg, d.dev, d.name);
      if Section(pkg, d.dev).value.JObj? && !Truthy(entry.value) {
        var f := Section(pkg, d.dev).value.fields;
        assert f[d.name := JStr(d.version)] == f;
        assert pkg.fields[SectionKey(d.dev) := JObj(f)] == pkg.fields;
      }
      assert AddOne(pkg, d, intersects).value.0 == pkg;
      assert forall i :: 0 <= i < |deps[1..]| ==> deps[1..][i] == deps[i + 1];
      AddAllStable(pkg, deps[1..], intersects);
    }
  }

  /**
   * Running the loop again on what a successful run left changes nothing
   * more: adding the same dependencies twice writes the same package.json.
   */
  lemma AddAllSettles(pkg: Json, deps: seq<Dependency>, intersects: (Json, string) -> Option<bool>)
    requires DistinctNames(deps)
    requires AddAll(pkg, deps, intersects).outcome.Pass?
    ensures var after := AddAll(pkg, deps, intersects).pkg;
      AddAll(after, deps, intersects).pkg == after && AddAll(after, deps, intersects).outcome == Pass
  {
    var after := AddAll(pkg, deps, intersects).pkg;
    AddAllOutcome(pkg, deps, intersects);
    AddAllFrame(pkg, deps, intersects);
    forall i | 0 <= i < |deps|
      ensures Writable(after, deps[i].dev) &&
        (Section(after, deps[i].dev).value.JObj? ==>
          var entry := SectionEntry(after, deps[i].dev, deps[i].name);
          entry.Some? && (Truthy(entry.value) || entry.value == JStr(deps[i].version)))
    {
      assert Writable(pkg, deps[i].dev);
      if Section(pkg, deps[i].dev).value.JObj? {
        RequestedFinds(deps, i);
        AddAllEntry(pkg, deps, intersects, deps[i].dev, deps[i].name);
      }
    }
    AddAllStable(after, deps, intersects);
  }

  /**
   * The warnings the loop should log, judged against the package.json as
   * read. The loop visits the dependencies up to the first one whose
   * section cannot be written. Each visited dependency whose installed
   * version is truthy and conflicts draws one warning, in order.
   */
  function ExpectedWarnings(pkg: Json, deps: seq<Dependency>, intersects: (Json, string) -> Option<bool>): seq<Warning>
    decreases |deps|
  {
    if deps == [] || !Writable(pkg, deps[0].dev) then []
    else
      var d := deps[0];
      var installed := SectionEntry(pkg, d.dev, d.name);
      (if installed.Some? && Truthy(installed.value) && Conflicts(installed.value, d.version, intersects)
       then [VersionWarning(d.name, installed.value, d.version)] else []) +
      ExpectedWarnings(pkg, deps[1..], intersects)
  }

  /** Two package.json values that agree on what the dependencies look at draw the same warnings. */
  lemma {:induction false} ExpectedWarningsAgree(p: Json, q: Json, deps: seq<Dependency>, intersects: (Json, string) -> Option<bool>)
    requires Writable(p, true) == Writable(q, true) && Writable(p, false) == Writable(q, false)
    requires forall i :: 0 <= i < |deps| ==>
      SectionEntry(p, deps[i].dev, deps[i].name) == SectionEntry(q, deps[i].dev, deps[i].name)
    ensures ExpectedWarnings(p, deps, intersects) == ExpectedWarnings(q, deps, intersects)
    decreases |deps|
  {
    if deps != [] {
      assert forall i :: 0 <= i < |deps[1..]| ==> deps[1..][i] == deps[i + 1];
      ExpectedWarningsAgree(p, q, deps[1..], intersects);
    }
  }

  /**
   * The loop logs exactly the expected warnings. No dependency the loop
   * adds draws a warning for a later one, because names are distinct.
   */
  lemma {:induction false} AddAllWarnings(pkg: Json, deps: seq<Dependency>, intersects: (Json, string) -> Option<bool>)
    requires DistinctNames(deps)
    ensures AddAll(pkg, deps, intersects).warnings == ExpectedWarnings(pkg, deps, intersects)
    decreases |deps|
  {
    if deps != [] && Writable(pkg, deps[0].dev) {
      var d := deps[0];
      var next := AddOne(pkg, d, intersects).value.0;
      var rest := deps[1..];
      DistinctTail(deps);
      AddAllWarnings(next, rest, intersects);
      AddOneFrame(pkg, d, intersects);
      forall i | 0 <= i < |rest|
        ensures SectionEntry(next, rest[i].dev, rest[i].name) == SectionEntry(pkg, rest[i].dev, rest[i].name)
      {
        assert rest[i] == deps[i + 1];
        if Section(pkg, rest[i].dev).Some? && Section(pkg, rest[i].dev).value.JObj? {
          AddOneEntry(pkg, d, intersects, rest[i].dev, rest[i].name);
        }
      }
      ExpectedWarningsAgree(next, pkg, rest, intersects);
    }
  }

  /**
   * addDependencies reads an existing package.json with safeReadJSON:
   *   - text that does not parse stops it with the parse error naming
   *     package.json, before any warning, and the tree is then left as it
   *     was;
   *   - parsed text is the value the loop starts from.
   */
  lemma AddDependenciesReads(files: map<string, FileText>, deps: seq<Dependency>,
                             intersects: (Json, string) -> Option<bool>)
    ensures "package.json" in files && files["package.json"].Garbled? ==>
      AddDependenciesRun(files, deps, intersects).outcome == Fail(ParseFailed("package.json")) &&
      AddDependenciesRun(files, deps, intersects).warnings == []
    ensures "package.json" in files && files["package.json"].JsonText? ==>
      AddDependenciesRun(files, deps, intersects) == AddAll(files["package.json"].value, deps, intersects)
  {
  }

  /**
   * The guard on ng-add-common.ts:100 as written. Without a package.json,
   * addDependencies never raises `Could not locate package.json`:
   *   - with no dependencies it succeeds, and the value it writes is
   *     `false`;
   *   - with dependencies it fails with a TypeError.
   */
  lemma AbsentPackageJsonNotReported(files: map<string, FileText>, deps: seq<Dependency>,
                                     intersects: (Json, string) -> Option<bool>)
    requires "package.json" !in files
    ensures var run := AddDependenciesRun(files, deps, intersects);
      run.outcome == (if deps == [] then Pass else Fail(TypeError)) &&
      (deps == [] ==> run.pkg == JBool(false))
  {
  }

  /** addDependencies with the missing-file check the guard evidently intends. */
  function AddDependenciesCheckedRun(files: map<string, FileText>, deps: seq<Dependency>,
                                     intersects: (Json, string) -> Option<bool>): DepsRun
  {
    if "package.json" !in files then DepsRun(JBool(false), [], Fail(CouldNotLocatePackageJson))
    else AddDependenciesRun(files, deps, intersects)
  }

  /** addDependencies with the missing-file check made effective. */
  method AddDependenciesChecked(host: Tree, deps: seq<Dependency>, intersects: (Json, string) -> Option<bool>)
    returns (r: Outcome<NgAddError>, warnings: seq<Warning>)
    modifies host
    ensures var run := AddDependenciesCheckedRun(old(host.files), deps, intersects);
      r == run.outcome && warnings == run.warnings &&
      if r.Pass? then
        host.files == old(host.files)["package.json" := JsonText(run.pkg)] &&
        host.log == old(host.log) + [WriteOp(old(host.files), "package.json", JsonText(run.pkg))]
      else host.files == old(host.files) && host.log == old(host.log)
  {
    if "package.json" !in host.files {
      return Fail(CouldNotLocatePackageJson), [];
    }
    r, warnings := AddDependencies(host, deps, intersects);
  }

  /**
   * The checked version reports a missing package.json. Otherwise it
   * behaves as written, so it only ever overwrites an existing file.
   */
  lemma CheckedReportsMissing(files: map<string, FileText>, deps: seq<Dependency>,
                              intersects: (Json, string) -> Option<bool>)
    ensures var run := AddDependenciesCheckedRun(files, deps, intersects);
      (run.outcome == Fail(CouldNotLocatePackageJson) <==> "package.json" !in files) &&
      (run.outcome.Pass? ==> WriteOp(files, "package.json", JsonText(run.pkg)) == Overwritten("package.json", JsonText(run.pkg)))
  {
    if "package.json" in files {
      var pkg := InitialPackage(files);
      if pkg.Ok? {
        AddAllOutcome(pkg.value, deps, intersects);
      }
    }
  }
}
