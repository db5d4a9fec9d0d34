/**
 * The runtime package manifest that the function and Cloud Run pipelines
 * write next to the relocated build (`getPackageJson`, actions.ts:106-149).
 * The result is what `getPackageJson` hands to the `defaultPackage`
 * template: the dependency and devDependency dictionaries and the optional
 * entry point.
 */
module Manifest {
  import opened Wrappers

  /** `architect.server.options` of a project in angular.json; only the two keys that are read. */
  datatype ServerOptions = ServerOptions(externalDependencies: seq<string>, bundleDependencies: Option<bool>)

  /** The caller's package.json; its `dependencies` key may be missing. */
  datatype ProjectPackage = ProjectPackage(dependencies: Option<map<string, string>>)

  /**
   * What getPackageJson reads besides its arguments: angular.json (absent,
   * or its `projects` with each project's server options, `None` when the
   * project has no server entry or the entry has no options), package.json,
   * and the version `npm list <name>` reports for each installed package.
   */
  datatype Workspace = Workspace(
    angularJson: Option<map<string, Option<ServerOptions>>>,
    packageJson: Option<ProjectPackage>,
    installed: map<string, string>)

  /** The arguments of `defaultPackage(dependencies, devDependencies, options, main)`. */
  datatype PackageManifest = PackageManifest(
    dependencies: map<string, string>,
    devDependencies: map<string, string>,
    main: Option<string>)

  /** The TypeErrors getPackageJson can raise while reading the configuration. */
  datatype ManifestError =
    | TargetUnset                  // `context.target!.project` with no target
    | UnknownProject(project: string)  // `angularJson.projects[project]` is undefined
    | MissingDependencies          // `Object.keys(packageJson.dependencies)` of undefined

  const CloudRunMode: string := "cloud-run"
  const Latest: string := "latest"
  const AngularFire: string := "@angular/fire"
  const LocalDevFire: string := "file:../angularfire/dist/packages-dist"
  const ReleaseFire: string := "ANGULARFIRE2_VERSION"

  /** `findPackageVersion(name)` as filtered by `if (packageVersion)`: an empty answer counts as none. */
  function LookupVersion(installed: map<string, string>, name: string): (r: Option<string>)
    ensures r.Some? <==> name in installed && installed[name] != ""
    ensures r.Some? ==> r.value == installed[name]
  {
    if name in installed && installed[name] != "" then Some(installed[name]) else None
  }

  /** The keys of the default `dependencies` object, in insertion order. */
  function DefaultDependencyNames(ssr: Option<string>): seq<string>
  {
    if ssr == Some(CloudRunMode) then [] else ["firebase-admin", "firebase-functions"]
  }

  /** The keys of the default `devDependencies` object. */
  function DefaultDevDependencyNames(ssr: Option<string>): seq<string>
  {
    if ssr == Some(CloudRunMode) then [] else ["firebase-functions-test"]
  }

  /** A dictionary mapping each of `names` to `'latest'`. */
  function AllLatest(names: seq<string>): map<string, string>
  {
    map n | n in names :: Latest
  }

  /** `m` after `m[n] = version` for every name of `names` whose lookup finds a version. */
  function WithResolved(m: map<string, string>, names: seq<string>, installed: map<string, string>): map<string, string>
  {
    m + map n | n in names && LookupVersion(installed, n).Some? :: LookupVersion(installed, n).value
  }

  /** The version a dependency is published with: the local-development self-reference is replaced. */
  function Published(name: string, version: string): string
  {
    if name == AngularFire && version == LocalDevFire then ReleaseFire else version
  }

  /** The self-reference substitution of actions.ts:144-146. */
  function SubstituteLocalDev(m: map<string, string>): (r: map<string, string>)
    ensures r.Keys == m.Keys
    ensures forall k :: k in m ==> r[k] == Published(k, m[k])
    ensures AngularFire in r ==> r[AngularFire] != LocalDevFire
  {
    if AngularFire in m && m[AngularFire] == LocalDevFire then m[AngularFire := ReleaseFire] else m
  }

  /** The default dependencies of a mode after the best-effort lookup. */
  function DefaultDependencies(ssr: Option<string>, installed: map<string, string>): map<string, string>
  {
    WithResolved(AllLatest(DefaultDependencyNames(ssr)), DefaultDependencyNames(ssr), installed)
  }

  /** The default devDependencies of a mode after the best-effort lookup. */
  function DefaultDevDependencies(ssr: Option<string>, installed: map<string, string>): map<string, string>
  {
    WithResolved(AllLatest(DefaultDevDependencyNames(ssr)), DefaultDevDependencyNames(ssr), installed)
  }

  /** The server options read from angular.json; `Ok(None)` when there are none. */
  function ServerOptionsOf(projects: map<string, Option<ServerOptions>>, project: Option<string>): Result<Option<ServerOptions>, ManifestError>
  {
    if project.None? then Err(TargetUnset)
    else if project.value !in projects then Err(UnknownProject(project.value))
    else Ok(projects[project.value])
  }

  /** The merge of actions.ts:122-142 applied to `deps`. */
  function MergeProject(deps: map<string, string>, ws: Workspace, project: Option<string>): Result<map<string, string>, ManifestError>
  {
    match ws.angularJson
    case None => Ok(deps)
    case Some(projects) =>
      match ServerOptionsOf(projects, project)
      case Err(e) => Err(e)
      case Ok(so) =>
        var external := if so.Some? then so.value.externalDependencies else [];
        var bundle := if so.Some? then so.value.bundleDependencies else None;
        if bundle == Some(false) then
          match ws.packageJson
          case None => Ok(deps)
          case Some(pkg) =>
            match pkg.dependencies
            case None => Err(MissingDependencies)
            case Some(declared) => Ok(deps + declared)
        else Ok(WithResolved(deps, external, ws.installed))
  }

  /** What getPackageJson passes to `defaultPackage`, or the error it raises. */
  function PackageJson(project: Option<string>, ws: Workspace, ssr: Option<string>, main: Option<string>): Result<PackageManifest, ManifestError>
  {
    match MergeProject(DefaultDependencies(ssr, ws.installed), ws, project)
    case Err(e) => Err(e)
    case Ok(deps) => Ok(PackageManifest(SubstituteLocalDev(deps), DefaultDevDependencies(ssr, ws.installed), main))
  }

  /** Extending the visited names by one resolves that name or leaves the map as it was. */
  lemma WithResolvedSnoc(m: map<string, string>, names: seq<string>, i: nat, installed: map<string, string>)
    requires i < |names|
    ensures WithResolved(m, names[..i + 1], installed) ==
            if LookupVersion(installed, names[i]).Some?
            then WithResolved(m, names[..i], installed)[names[i] := LookupVersion(installed, names[i]).value]
            else WithResolved(m, names[..i], installed)
  {
    assert names[..i + 1] == names[..i] + [names[i]];
  }

  /** Fills the `'latest'` entries of `m` named by `names` in, visiting the names in order. */
  method ResolveAll(m: map<string, string>, names: seq<string>, installed: map<string, string>) returns (r: map<string, string>)
    ensures r == WithResolved(m, names, installed)
  {
    r := m;
    for i := 0 to |names|
      invariant r == WithResolved(m, names[..i], installed)
    {
      WithResolvedSnoc(m, names, i, installed);
      var version := LookupVersion(installed, names[i]);
      if version.Some? {
        r := r[names[i] := version.value];
      }
    }
    assert names[..|names|] == names;
  }

  /** `Object.keys(declared).forEach(d => deps[d] = declared[d])`: the declared versions win. */
  method CopyDeclared(deps: map<string, string>, declared: map<string, string>) returns (r: map<string, string>)
    ensures r == deps + declared
  {
    r := deps;
    var pending := declared.Keys;
    while pending != {}
      invariant pending <= declared.Keys
      invariant r == deps + map k | k in declared && k !in pending :: declared[k]
      decreases pending
    {
      var k :| k in pending;
      r := r[k := declared[k]];
      pending := pending - {k};
    }
    assert (map k | k in declared && k !in pending :: declared[k]) == declared;
  }

  /** getPackageJson (actions.ts:106-149), with its dictionaries updated in place as getPackageJson does. */
  method GetPackageJson(project: Option<string>, ws: Workspace, ssr: Option<string>, main: Option<string>)
    returns (r: Result<PackageManifest, ManifestError>)
    ensures r == PackageJson(project, ws, ssr, main)
  {
    var dependencies := ResolveAll(AllLatest(DefaultDependencyNames(ssr)), DefaultDependencyNames(ssr), ws.installed);
    var devDependencies := ResolveAll(AllLatest(DefaultDevDependencyNames(ssr)), DefaultDevDependencyNames(ssr), ws.installed);
    if ws.angularJson.Some? {
      var so := ServerOptionsOf(ws.angularJson.value, project);
      if so.Err? {
        return Err(so.error);
      }
      var external := if so.value.Some? then so.value.value.externalDependencies else [];
      var bundle := if so.value.Some? then so.value.value.bundleDependencies else None;
      if bundle == Some(false) {
        if ws.packageJson.Some? {
          if ws.packageJson.value.dependencies.None? {
            return Err(MissingDependencies);
          }
          dependencies := CopyDeclared(dependencies, ws.packageJson.value.dependencies.value);
        }
      } else {
        dependencies := ResolveAll(dependencies, external, ws.installed);
      }
    }
    if AngularFire in dependencies && dependencies[AngularFire] == LocalDevFire {
      dependencies := dependencies[AngularFire := ReleaseFire];
    }
    r := Ok(PackageManifest(dependencies, devDependencies, main));
  }

  // ---------------------------------------------------------------------
  // Properties of the generated manifest
  // ---------------------------------------------------------------------

  /** The default entry of a dependency: the installed version when the lookup finds one, else `'latest'`. */
  function VersionOrLatest(installed: map<string, string>, name: string): string
  {
    match LookupVersion(installed, name)
    case Some(v) => v
    case None => Latest
  }

  /** In Cloud Run mode both default sets are empty; otherwise they are the three fixed platform packages. */
  lemma DefaultsByMode(ssr: Option<string>, installed: map<string, string>)
    ensures ssr == Some(CloudRunMode) ==>
      DefaultDependencies(ssr, installed) == map[] && DefaultDevDependencies(ssr, installed) == map[]
    ensures ssr != Some(CloudRunMode) ==>
      DefaultDependencies(ssr, installed).Keys == {"firebase-admin", "firebase-functions"} &&
      DefaultDevDependencies(ssr, installed).Keys == {"firebase-functions-test"}
    ensures forall n :: n in DefaultDependencies(ssr, installed) ==>
      DefaultDependencies(ssr, installed)[n] == VersionOrLatest(installed, n)
    ensures forall n :: n in DefaultDevDependencies(ssr, installed) ==>
      DefaultDevDependencies(ssr, installed)[n] == VersionOrLatest(installed, n)
  {
    ResolvedDefaults(DefaultDependencyNames(ssr), installed);
    ResolvedDefaults(DefaultDevDependencyNames(ssr), installed);
    if ssr != Some(CloudRunMode) {
      assert (set n | n in ["firebase-admin", "firebase-functions"]) == {"firebase-admin", "firebase-functions"};
      assert (set n | n in ["firebase-functions-test"]) == {"firebase-functions-test"};
    }
  }

  /** A defaults object for `names`, after the lookup: exactly those keys, each resolved or `'latest'`. */
  lemma ResolvedDefaults(names: seq<string>, installed: map<string, string>)
    ensures WithResolved(AllLatest(names), names, installed).Keys == set n | n in names
    ensures forall n :: n in WithResolved(AllLatest(names), names, installed) ==>
      WithResolved(AllLatest(names), names, installed)[n] == VersionOrLatest(installed, n)
  {
  }

  /** Every successful manifest has the mode's default devDependencies, the given entry point and no local self-reference. */
  lemma ManifestShape(project: Option<string>, ws: Workspace, ssr: Option<string>, main: Option<string>)
    requires PackageJson(project, ws, ssr, main).Ok?
    ensures PackageJson(project, ws, ssr, main).value.devDependencies == DefaultDevDependencies(ssr, ws.installed)
    ensures PackageJson(project, ws, ssr, main).value.main == main
    ensures var deps := PackageJson(project, ws, ssr, main).value.dependencies;
      AngularFire in deps ==> deps[AngularFire] != LocalDevFire
  {
  }

  /** Without angular.json, and with `bundleDependencies === false` but no package.json, only the defaults are shipped. */
  lemma MergeSkipped(project: Option<string>, ws: Workspace, ssr: Option<string>, main: Option<string>)
    requires ws.angularJson.None? ||
             (ServerOptionsOf(ws.angularJson.value, project) == Ok(Some(ServerOptions(ServerExternals(ws, project), Some(false)))) &&
              ws.packageJson.None?)
    ensures PackageJson(project, ws, ssr, main) ==
      Ok(PackageManifest(SubstituteLocalDev(DefaultDependencies(ssr, ws.installed)), DefaultDevDependencies(ssr, ws.installed), main))
  {
  }

  /** The external dependencies declared by the project's server options (empty when there are none). */
  function ServerExternals(ws: Workspace, project: Option<string>): seq<string>
  {
    if ws.angularJson.Some? && project.Some? && project.value in ws.angularJson.value && ws.angularJson.value[project.value].Some?
    then ws.angularJson.value[project.value].value.externalDependencies
    else []
  }

  /** The project's server options set `bundleDependencies: false`. */
  predicate BundlingDisabled(ws: Workspace, project: Option<string>)
  {
    ws.angularJson.Some? && project.Some? && project.value in ws.angularJson.value &&
    ws.angularJson.value[project.value].Some? && ws.angularJson.value[project.value].value.bundleDependencies == Some(false)
  }

  /**
   * The TypeErrors of getPackageJson, and only these: with an angular.json,
   * an unset builder target, a project that angular.json does not list, and,
   * with bundling disabled, a package.json without `dependencies`.
   */
  lemma ManifestErrors(project: Option<string>, ws: Workspace, ssr: Option<string>, main: Option<string>)
    ensures ws.angularJson.Some? && project.None? ==> PackageJson(project, ws, ssr, main) == Err(TargetUnset)
    ensures ws.angularJson.Some? && project.Some? && project.value !in ws.angularJson.value ==>
      PackageJson(project, ws, ssr, main) == Err(UnknownProject(project.value))
    ensures BundlingDisabled(ws, project) && ws.packageJson.Some? && ws.packageJson.value.dependencies.None? ==>
      PackageJson(project, ws, ssr, main) == Err(MissingDependencies)
    ensures PackageJson(project, ws, ssr, main).Err? ==>
      || (ws.angularJson.Some? && project.None?)
      || (ws.angularJson.Some? && project.Some? && project.value !in ws.angularJson.value)
      || (BundlingDisabled(ws, project) && ws.packageJson.Some? && ws.packageJson.value.dependencies.None?)
  {
  }

  /**
   * `bundleDependencies === false`: every dependency the project declares is
   * shipped with the declared version (published form), overriding a default,
   * and nothing else is added.
   */
  lemma BundleDisabledCopiesDeclared(project: Option<string>, ws: Workspace, ssr: Option<string>, main: Option<string>,
                                     declared: map<string, string>)
    requires ws.angularJson.Some? && project.Some? && project.value in ws.angularJson.value
    requires ws.angularJson.value[project.value].Some? && ws.angularJson.value[project.value].value.bundleDependencies == Some(false)
    requires ws.packageJson == Some(ProjectPackage(Some(declared)))
    ensures PackageJson(project, ws, ssr, main).Ok?
    ensures var deps := PackageJson(project, ws, ssr, main).value.dependencies;
      && deps.Keys == DefaultDependencies(ssr, ws.installed).Keys + declared.Keys
      && (forall k :: k in declared ==> deps[k] == Published(k, declared[k]))
      && (forall k :: k in deps && k !in declared ==> deps[k] == Published(k, VersionOrLatest(ws.installed, k)))
  {
    DefaultsByMode(ssr, ws.installed);
  }

  /**
   * Otherwise: each external dependency is added exactly when its lookup
   * finds a version; every entry, external or default, is its looked-up
   * version or `latest`.
   */
  lemma BundledAddsResolvedExternals(project: Option<string>, ws: Workspace, ssr: Option<string>, main: Option<string>)
    requires ws.angularJson.Some? && project.Some? && project.value in ws.angularJson.value
    requires var so := ws.angularJson.value[project.value]; !(so.Some? && so.value.bundleDependencies == Some(false))
    ensures PackageJson(project, ws, ssr, main).Ok?
    ensures var deps := PackageJson(project, ws, ssr, main).value.dependencies;
      var external := ServerExternals(ws, project);
      && deps.Keys == DefaultDependencies(ssr, ws.installed).Keys + (set n | n in external && LookupVersion(ws.installed, n).Some?)
      && (forall n :: n in external && LookupVersion(ws.installed, n).Some? ==> deps[n] == Published(n, ws.installed[n]))
      && (forall n :: n in deps ==> deps[n] == Published(n, VersionOrLatest(ws.installed, n)))
  {
    DefaultsByMode(ssr, ws.installed);
    var defaults := DefaultDependencies(ssr, ws.installed);
    var merged := WithResolved(defaults, ServerExternals(ws, project), ws.installed);
    assert MergeProject(defaults, ws, project) == Ok(merged);
    WithResolvedSpec(defaults, ServerExternals(ws, project), ws.installed);
  }

  /** The keys `WithResolved` adds or overwrites, and the entries it keeps. */
  lemma WithResolvedSpec(m: map<string, string>, names: seq<string>, installed: map<string, string>)
    ensures WithResolved(m, names, installed).Keys == m.Keys + (set n | n in names && LookupVersion(installed, n).Some?)
    ensures forall n :: n in names && LookupVersion(installed, n).Some? ==>
      WithResolved(m, names, installed)[n] == installed[n]
    ensures forall n :: n in m && !(n in names && LookupVersion(installed, n).Some?) ==>
      WithResolved(m, names, installed)[n] == m[n]
  {
  }
}
