/** What loading a configuration guarantees. */
module ConfigProofs {
  import opened Config
  import opened Text
  import opened Wrappers

  // ---------------------------------------------------------------- layers

  function PatchOf(doc: Option<Document>, name: string): ProfilePatch {
    if doc.Some? then At(doc.value.profiles, name, EMPTY_PATCH) else EMPTY_PATCH
  }

  function DefaultOf(p: Option<PermissionsPatch>): Option<Permission> {
    if p.Some? then p.value.default_ else None
  }

  /** Merging is associative, and merging nothing changes nothing. */
  lemma MergeAssociates(a: ProfilePatch, b: ProfilePatch, c: ProfilePatch)
    ensures Merge(Merge(a, b), c) == Merge(a, Merge(b, c))
    ensures Merge(a, EMPTY_PATCH) == a && Merge(EMPTY_PATCH, a) == a && Merge(BUILTIN, BUILTIN) == BUILTIN
  {}

  lemma MergedProfile(m: Merged, doc: Option<Document>, source: Source, name: string)
    requires MergeOptional(m, doc, source).Ok?
    ensures At(MergeOptional(m, doc, source).value.profiles, name, EMPTY_PATCH) == Merge(At(m.profiles, name, EMPTY_PATCH), PatchOf(doc, name))
  {
    MergeAssociates(At(m.profiles, name, EMPTY_PATCH), EMPTY_PATCH, EMPTY_PATCH);
  }

  /** The selected profile is the built-in one, overlaid by the user's and then the project's. */
  lemma SelectedLayers(x: Inputs, name: string)
    requires MergeInputs(x).Ok? && name in MergeInputs(x).value.profiles
    ensures SelectedPatch(MergeInputs(x).value, name) == Merge(Merge(BUILTIN, PatchOf(x.user, name)), PatchOf(x.project, name))
  {
    var m1 := MergeOptional(SYNTHETIC, x.user, User).value;
    var u, p := PatchOf(x.user, name), PatchOf(x.project, name);
    MergedProfile(SYNTHETIC, x.user, User, name);
    MergedProfile(m1, x.project, Project, name);
    var base := At(SYNTHETIC.profiles, name, EMPTY_PATCH);
    MergeAssociates(base, u, p);
    MergeAssociates(BUILTIN, base, Merge(u, p));
    MergeAssociates(BUILTIN, u, p);
    MergeAssociates(BUILTIN, EMPTY_PATCH, EMPTY_PATCH);
  }

  lemma MergedDefault(x: Inputs)
    requires MergeInputs(x).Ok?
    ensures Some(MergeInputs(x).value.defaultProfile) ==
            First([if x.project.Some? then x.project.value.defaultProfile else None,
                   if x.user.Some? then x.user.value.defaultProfile else None, Some(DEFAULT_PROFILE)])
  {
    First3(if x.project.Some? then x.project.value.defaultProfile else None,
           if x.user.Some? then x.user.value.defaultProfile else None, Some(DEFAULT_PROFILE));
  }

  lemma First3<T>(a: Option<T>, b: Option<T>, c: Option<T>)
    ensures First([a, b, c]) == Or(a, Or(b, c))
  {
    assert [a, b, c][1..] == [b, c] && [b, c][1..] == [c] && [c][1..] == [];
    assert First<T>([]) == None;
    assert First([c]) == c;
    assert First([b, c]) == Or(b, c);
  }

  lemma First5<T>(a: Option<T>, b: Option<T>, c: Option<T>, d: Option<T>, e: Option<T>)
    ensures First([a, b, c, d, e]) == Or(a, Or(b, Or(c, Or(d, e))))
  {
    assert [a, b, c, d, e][1..] == [b, c, d, e] && [b, c, d, e][1..] == [c, d, e];
    First3(c, d, e);
  }

  /** The layers of one field, strongest first. */
  function Layers<T>(x: Inputs, cli: Option<T>, env: Option<T>, field: ProfilePatch -> Option<T>, name: string): seq<Option<T>> {
    [cli, env, field(PatchOf(x.project, name)), field(PatchOf(x.user, name)), field(BUILTIN)]
  }

  lemma LayersFirst<T>(x: Inputs, cli: Option<T>, env: Option<T>, field: ProfilePatch -> Option<T>, name: string, value: Option<T>)
    requires value == Or(cli, Or(env, Or(field(PatchOf(x.project, name)), Or(field(PatchOf(x.user, name)), field(BUILTIN)))))
    ensures First(Layers(x, cli, env, field, name)) == value
  {
    First5(cli, env, field(PatchOf(x.project, name)), field(PatchOf(x.user, name)), field(BUILTIN));
  }

  // ---------------------------------------------------------------- every field is the first one set

  lemma LoadSteps(x: Inputs) returns (m: Merged, name: string, e: Effective)
    requires Load(x).Ok?
    ensures MergeInputs(x) == Ok(m) && name == SelectedProfile(x, m) && name in m.profiles
    ensures IntoEffective(m, name, x.env, PathOverrides(x.envFields, x.cli)) == Ok(e) && ApplyFields(x, e) == Load(x)
  {
    m := MergeInputs(x).value;
    name := SelectedProfile(x, m);
    e := IntoEffective(m, name, x.env, PathOverrides(x.envFields, x.cli)).value;
  }

  lemma AppliedFields(x: Inputs, e: Effective)
    requires ApplyFields(x, e).Ok?
    ensures var r := ApplyFields(x, e).value;
            && r.backend == OrElse(Or(x.cli.backend, x.envFields.backend), e.backend)
            && r.model == Or(x.cli.model, Or(x.envFields.model, e.model))
            && r.mode == OrElse(Or(x.cli.mode, x.envFields.mode), e.mode)
            && r.defaultHost == OrElse(Or(x.cli.defaultHost, x.envFields.defaultHost), e.defaultHost)
            && r.provider == OrElse(Or(x.cli.provider, x.envFields.provider), e.provider)
            && r.cleanup == OrElse(Or(x.cli.cleanup, x.envFields.cleanup), e.cleanup)
            && r.permission == OrElse(Or(x.cli.permission, x.envFields.permission), e.permission)
            && r.stateDir == e.stateDir && r.database == e.database && r.hosts == e.hosts && r.profile == e.profile
  {}

  lemma IntoFields(x: Inputs, m: Merged, name: string, e: Effective)
    requires MergeInputs(x) == Ok(m) && name in m.profiles
    requires IntoEffective(m, name, x.env, PathOverrides(x.envFields, x.cli)) == Ok(e)
    ensures var u, p := PatchOf(x.user, name), PatchOf(x.project, name);
            && Some(e.backend) == Or(p.backend, Or(u.backend, BUILTIN.backend))
            && e.model == Or(p.model, Or(u.model, BUILTIN.model))
            && Some(e.mode) == Or(p.mode, Or(u.mode, BUILTIN.mode))
            && Some(e.defaultHost) == Or(p.defaultHost, Or(u.defaultHost, BUILTIN.defaultHost))
            && Some(e.provider) == Or(p.provider, Or(u.provider, BUILTIN.provider))
            && Some(e.cleanup) == Or(p.cleanup, Or(u.cleanup, BUILTIN.cleanup))
            && Some(e.permission) == Or(DefaultOf(p.permissions), Or(DefaultOf(u.permissions), DefaultOf(BUILTIN.permissions)))
            && e.profile == name && e.hosts == ResolveHosts(m.hosts)
  {
    SelectedLayers(x, name);
  }

  /** Layered configuration: when loading succeeds, every field of the profile is the first one set
      among command line, environment, project profile, user profile and built-in, permissions
      field by field. */
  lemma FieldsAreFirstSet(x: Inputs)
    requires Load(x).Ok?
    ensures var r := Load(x).value;
            && Some(r.backend) == First(Layers(x, x.cli.backend, x.envFields.backend, (p: ProfilePatch) => p.backend, r.profile))
            && r.model == First(Layers(x, x.cli.model, x.envFields.model, (p: ProfilePatch) => p.model, r.profile))
            && Some(r.mode) == First(Layers(x, x.cli.mode, x.envFields.mode, (p: ProfilePatch) => p.mode, r.profile))
            && Some(r.defaultHost) == First(Layers(x, x.cli.defaultHost, x.envFields.defaultHost, (p: ProfilePatch) => p.defaultHost, r.profile))
            && Some(r.provider) == First(Layers(x, x.cli.provider, x.envFields.provider, (p: ProfilePatch) => p.provider, r.profile))
            && Some(r.cleanup) == First(Layers(x, x.cli.cleanup, x.envFields.cleanup, (p: ProfilePatch) => p.cleanup, r.profile))
            && Some(r.permission) == First(Layers(x, x.cli.permission, x.envFields.permission, (p: ProfilePatch) => DefaultOf(p.permissions), r.profile))
  {
    var m, name, e := LoadSteps(x);
    AppliedFields(x, e);
    IntoFields(x, m, name, e);
    var r := Load(x).value;
    LayersFirst(x, x.cli.backend, x.envFields.backend, (p: ProfilePatch) => p.backend, name, Some(r.backend));
    LayersFirst(x, x.cli.model, x.envFields.model, (p: ProfilePatch) => p.model, name, r.model);
    LayersFirst(x, x.cli.mode, x.envFields.mode, (p: ProfilePatch) => p.mode, name, Some(r.mode));
    LayersFirst(x, x.cli.defaultHost, x.envFields.defaultHost, (p: ProfilePatch) => p.defaultHost, name, Some(r.defaultHost));
    LayersFirst(x, x.cli.provider, x.envFields.provider, (p: ProfilePatch) => p.provider, name, Some(r.provider));
    LayersFirst(x, x.cli.cleanup, x.envFields.cleanup, (p: ProfilePatch) => p.cleanup, name, Some(r.cleanup));
    LayersFirst(x, x.cli.permission, x.envFields.permission, (p: ProfilePatch) => DefaultOf(p.permissions), name, Some(r.permission));
  }

  /** The profile itself is the first one named on the command line, in the environment, by the project
      or by the user, and the default one otherwise. */
  lemma ProfileIsFirstNamed(x: Inputs)
    requires Load(x).Ok?
    ensures Some(Load(x).value.profile) ==
            First([x.profile, x.envProfile, if x.project.Some? then x.project.value.defaultProfile else None,
                   if x.user.Some? then x.user.value.defaultProfile else None, Some(DEFAULT_PROFILE)])
  {
    var m, name, e := LoadSteps(x);
    AppliedFields(x, e);
    MergedDefault(x);
    var p := if x.project.Some? then x.project.value.defaultProfile else None;
    var u := if x.user.Some? then x.user.value.defaultProfile else None;
    First3(p, u, Some(DEFAULT_PROFILE));
    First5(x.profile, x.envProfile, p, u, Some(DEFAULT_PROFILE));
  }

  function FirstDatabase(x: Inputs, name: string): Option<string> {
    First(Layers(x, x.cli.database, x.envFields.database, (p: ProfilePatch) => p.database, name))
  }

  function FirstStateDir(x: Inputs, name: string): Option<string> {
    First(Layers(x, x.cli.stateDir, x.envFields.stateDir, (p: ProfilePatch) => p.stateDir, name))
  }

  lemma FirstPaths(x: Inputs, name: string)
    requires MergeInputs(x).Ok? && name in MergeInputs(x).value.profiles
    ensures var patch, paths := SelectedPatch(MergeInputs(x).value, name), PathOverrides(x.envFields, x.cli);
            && FirstDatabase(x, name) == Or(paths.database, patch.database)
            && FirstStateDir(x, name) == Or(paths.stateDir, patch.stateDir)
  {
    SelectedLayers(x, name);
    var u, p := PatchOf(x.user, name), PatchOf(x.project, name);
    LayersFirst(x, x.cli.database, x.envFields.database, (q: ProfilePatch) => q.database, name,
                Or(x.cli.database, Or(x.envFields.database, Or(p.database, Or(u.database, BUILTIN.database)))));
    LayersFirst(x, x.cli.stateDir, x.envFields.stateDir, (q: ProfilePatch) => q.stateDir, name,
                Or(x.cli.stateDir, Or(x.envFields.stateDir, Or(p.stateDir, Or(u.stateDir, BUILTIN.stateDir)))));
  }

  lemma IntoPaths(m: Merged, name: string, env: Environment, paths: Overrides, e: Effective)
    requires IntoEffective(m, name, env, paths) == Ok(e)
    ensures name in m.profiles
    ensures ResolveDatabase(SelectedPatch(m, name).database, paths.database, env) == Ok(e.database)
    ensures ResolveStateDir(SelectedPatch(m, name).stateDir, paths.stateDir, e.database, env) == Ok(e.stateDir)
  {}

  lemma DatabaseIsFirst(profile: Option<string>, override_: Option<string>, env: Environment, database: string)
    requires ResolveDatabase(profile, override_, env) == Ok(database)
    ensures Or(override_, profile).Some? && StandsFor(Or(override_, profile).value, env, database)
  {
    ExpandIs(Or(override_, profile).value, env);
  }

  /** The path starts at the home directory. */
  predicate HomePath(path: string) {
    path == "~" || "~/" <= path
  }

  /** A path below a directory, with one separator between them. */
  function Under(directory: string, rest: string): string {
    if directory == "" || directory[|directory| - 1] == '/' then directory + rest else directory + "/" + rest
  }

  /** What a path stands for: a path that does not start at home is itself, "~" is the home directory,
      and "~/" followed by a relative rest is that rest below the home directory. */
  ghost predicate StandsFor(path: string, env: Environment, result: string) {
    if path == "~" then env.home == Some(result)
    else if "~/" <= path then
      env.home.Some? && forall rest: string :: path == "~/" + rest ==>
        result == if rest != "" && rest[0] == '/' then rest else Under(env.home.value, rest)
    else result == path
  }

  /** Expansion fails exactly for home paths without a home, and otherwise gives what the path stands for. */
  lemma ExpandIs(path: string, env: Environment)
    ensures Expand(path, env).Err? <==> HomePath(path) && env.home.None?
    ensures Expand(path, env).Ok? ==> StandsFor(path, env, Expand(path, env).value)
  {
    if "~/" <= path {
      assert path[0] == "~/"[0] && path[1] == "~/"[1];
      forall rest: string | path == "~/" + rest ensures rest == path[2..] {}
    }
  }

  lemma StandsForOne(path: string, env: Environment, a: string, b: string)
    requires StandsFor(path, env, a) && StandsFor(path, env, b)
    ensures a == b
  {
    if "~/" <= path { assert path == "~/" + path[2..]; }
  }

  /** The default state directory, without a home to put it in, is the database's directory; any other
      is what the path stands for. */
  ghost predicate StateDirFrom(raw: string, database: string, stateDir: string, env: Environment) {
    if raw == "~/.singleton" && env.home.None? then stateDir == (if env.parent(database).Some? then env.parent(database).value else ".")
    else StandsFor(raw, env, stateDir)
  }

  lemma StateDirIsFirst(profile: Option<string>, override_: Option<string>, database: string, env: Environment, stateDir: string)
    requires ResolveStateDir(profile, override_, database, env) == Ok(stateDir)
    ensures Or(override_, profile).Some? && StateDirFrom(Or(override_, profile).value, database, stateDir, env)
  {
    ExpandIs(Or(override_, profile).value, env);
  }

  /** Paths are what the first one set stands for; the default state directory falls back to the
      database's directory when there is no home to expand it in. */
  lemma PathsAreFirstSet(x: Inputs)
    requires Load(x).Ok?
    ensures var r := Load(x).value;
            var database, stateDir := FirstDatabase(x, r.profile), FirstStateDir(x, r.profile);
            && database.Some? && StandsFor(database.value, x.env, r.database)
            && stateDir.Some? && StateDirFrom(stateDir.value, r.database, r.stateDir, x.env)
  {
    var m, name, e := LoadSteps(x);
    var paths := PathOverrides(x.envFields, x.cli);
    LoadedPaths(x, m, name, e);
    FirstPaths(x, name);
    IntoPaths(m, name, x.env, paths, e);
    DatabaseIsFirst(SelectedPatch(m, name).database, paths.database, x.env, e.database);
    StateDirIsFirst(SelectedPatch(m, name).stateDir, paths.stateDir, e.database, x.env, e.stateDir);
  }

  lemma LoadedPaths(x: Inputs, m: Merged, name: string, e: Effective)
    requires IntoEffective(m, name, x.env, PathOverrides(x.envFields, x.cli)) == Ok(e) && ApplyFields(x, e).Ok?
    ensures var r := ApplyFields(x, e).value; r.profile == name && r.database == e.database && r.stateDir == e.stateDir
  {
    AppliedFields(x, e);
  }

  // ---------------------------------------------------------------- path overrides early or late

  const NO_OVERRIDES := Overrides(None, None, None, None, None, None, None, None, None)

  /** The pipeline that resolves the profile's own paths first and applies the path overrides last. */
  function LoadPathsLast(x: Inputs): Outcome<Effective> {
    var merged := MergeInputs(x);
    if merged.Err? || !ValidName(SelectedProfile(x, merged.value)) then Err
    else
      var e := IntoEffective(merged.value, SelectedProfile(x, merged.value), x.env, NO_OVERRIDES);
      if e.Err? then Err
      else
        var r := ApplyFields(x, e.value);
        if r.Err? then Err else ApplyOverrides(r.value, PathOverrides(x.envFields, x.cli), x.env)
  }

  /** When choosing the overrides early makes a difference: only without a home directory, and only if
      an override replaces a path that cannot be expanded, or moves the database while the default
      state directory follows it. */
  predicate OrderMatters(database: string, stateDir: string, paths: Overrides, env: Environment) {
    && env.home.None?
    && (|| (paths.database.Some? && Tilde(database))
        || (paths.stateDir.Some? && Tilde(stateDir) && stateDir != DEFAULT_STATE_DIR)
        || (paths.stateDir.None? && stateDir == DEFAULT_STATE_DIR && paths.database.Some?
            && ParentOr(paths.database.value, env) != ParentOr(database, env)))
  }

  lemma EarlyDatabase(profile: string, paths: Overrides, env: Environment)
    requires NonEmpty(profile) && ResolveDatabase(Some(profile), paths.database, env).Ok?
    ensures ResolveDatabase(Some(profile), None, env).Ok? <==> !(env.home.None? && paths.database.Some? && Tilde(profile))
    ensures paths.database.None? ==> ResolveDatabase(Some(profile), paths.database, env) == ResolveDatabase(Some(profile), None, env)
  {}

  lemma EarlyStateDir(profile: string, paths: Overrides, database: string, plain: string, env: Environment)
    requires NonEmpty(profile) && ResolveStateDir(Some(profile), paths.stateDir, database, env).Ok?
    ensures ResolveStateDir(Some(profile), None, plain, env).Ok? <==>
            !(env.home.None? && paths.stateDir.Some? && Tilde(profile) && profile != DEFAULT_STATE_DIR)
    ensures paths.stateDir.None? ==>
              (ResolveStateDir(Some(profile), None, plain, env) == ResolveStateDir(Some(profile), paths.stateDir, database, env) <==>
               !(env.home.None? && profile == DEFAULT_STATE_DIR && ParentOr(database, env) != ParentOr(plain, env)))
  {
    assert Tilde(DEFAULT_STATE_DIR);
  }

  /** Everything but the paths is resolved the same way. */
  lemma IntoWithoutPaths(m: Merged, name: string, env: Environment, paths: Overrides, e: Effective)
    requires IntoEffective(m, name, env, paths) == Ok(e)
    ensures var patch := SelectedPatch(m, name);
            var database := ResolveDatabase(patch.database, None, env);
            var plain := IntoEffective(m, name, env, NO_OVERRIDES);
            && (plain.Ok? <==> database.Ok? && ResolveStateDir(patch.stateDir, None, database.value, env).Ok?)
            && (plain.Ok? ==> plain.value == e.(database := database.value,
                                                stateDir := ResolveStateDir(patch.stateDir, None, database.value, env).value))
  {}

  lemma FieldsIgnorePaths(x: Inputs, e: Effective, database: string, stateDir: string)
    requires ApplyFields(x, e).Ok?
    ensures ApplyFields(x, e.(database := database, stateDir := stateDir)) ==
            Ok(ApplyFields(x, e).value.(database := database, stateDir := stateDir))
  {}

  /** Choosing the path overrides before the profile's paths are resolved gives the same configuration
      as applying them last, except exactly when `OrderMatters`. */
  lemma EarlyPathsEqualLateOnes(x: Inputs, m: Merged, patch: ProfilePatch)
    requires Load(x).Ok? && MergeInputs(x) == Ok(m) && SelectedProfile(x, m) in m.profiles && patch == SelectedPatch(m, SelectedProfile(x, m))
    ensures patch.database.Some? && patch.stateDir.Some?
    ensures LoadPathsLast(x) == Load(x) <==>
            !OrderMatters(patch.database.value, patch.stateDir.value, PathOverrides(x.envFields, x.cli), x.env)
  {
    var _, name, e := LoadSteps(x);
    var paths := PathOverrides(x.envFields, x.cli);
    PatchComplete(x, m, name);
    IntoPaths(m, name, x.env, paths, e);
    IntoWithoutPaths(m, name, x.env, paths, e);
    PathsAgree(patch.database.value, patch.stateDir.value, paths, x.env, e.database, e.stateDir);
    var database := ResolveDatabase(patch.database, None, x.env);
    if IntoEffective(m, name, x.env, NO_OVERRIDES).Ok? {
      FieldsIgnorePaths(x, e, database.value, ResolveStateDir(patch.stateDir, None, database.value, x.env).value);
      LateResult(x, ApplyFields(x, e).value, database.value, ResolveStateDir(patch.stateDir, None, database.value, x.env).value, e);
    }
  }

  lemma PatchComplete(x: Inputs, m: Merged, name: string)
    requires MergeInputs(x) == Ok(m) && name in m.profiles
    ensures var patch := SelectedPatch(m, name);
            && patch.database.Some? && NonEmpty(patch.database.value) && patch.stateDir.Some? && NonEmpty(patch.stateDir.value)
  {
    SelectedLayers(x, name);
    assert !Space(DEFAULT_DATABASE[0]) && !Space(DEFAULT_STATE_DIR[0]);
    assert NonEmpty(DEFAULT_DATABASE) && NonEmpty(DEFAULT_STATE_DIR);
  }

  /** The late pipeline's paths, if it gets that far, against the early ones. */
  predicate LateAgrees(database: string, stateDir: string, paths: Overrides, env: Environment, early: string, earlyDir: string) {
    var plain := ResolveDatabase(Some(database), None, env);
    && plain.Ok? && ResolveStateDir(Some(stateDir), None, plain.value, env).Ok?
    && (paths.stateDir.None? ==> ResolveStateDir(Some(stateDir), None, plain.value, env) == Ok(earlyDir))
  }

  lemma PathsAgree(database: string, stateDir: string, paths: Overrides, env: Environment, early: string, earlyDir: string)
    requires NonEmpty(database) && NonEmpty(stateDir)
    requires ResolveDatabase(Some(database), paths.database, env) == Ok(early)
    requires ResolveStateDir(Some(stateDir), paths.stateDir, early, env) == Ok(earlyDir)
    ensures LateAgrees(database, stateDir, paths, env, early, earlyDir) <==> !OrderMatters(database, stateDir, paths, env)
  {
    EarlyDatabase(database, paths, env);
    var plain := ResolveDatabase(Some(database), None, env);
    if plain.Ok? {
      EarlyStateDir(stateDir, paths, early, plain.value, env);
    }
  }

  lemma LateResult(x: Inputs, r: Effective, database: string, stateDir: string, e: Effective)
    requires Load(x) == Ok(r) && r.database == e.database && r.stateDir == e.stateDir && ReferencesOk(r)
    requires ResolveDatabaseOverride(x, e.database) && ResolveStateDirOverride(x, e.stateDir)
    requires PathOverrides(x.envFields, x.cli).database.None? ==> database == e.database
    ensures ApplyOverrides(r.(database := database, stateDir := stateDir), PathOverrides(x.envFields, x.cli), x.env) == Ok(r) <==>
            (PathOverrides(x.envFields, x.cli).stateDir.None? ==> stateDir == e.stateDir)
  {}

  predicate ResolveDatabaseOverride(x: Inputs, database: string) {
    var o := PathOverrides(x.envFields, x.cli).database; o.Some? ==> Expand(o.value, x.env) == Ok(database)
  }

  predicate ResolveStateDirOverride(x: Inputs, stateDir: string) {
    var o := PathOverrides(x.envFields, x.cli).stateDir; o.Some? ==> Expand(o.value, x.env) == Ok(stateDir)
  }

  /** One such case: no home directory, nothing configured, and a database given on the command line.
      The state directory follows the database; applied last, the override would come too late. */
  lemma EarlyPathsMatter() returns (x: Inputs)
    ensures Load(x).Ok? && Load(x).value.stateDir == "/data" && LoadPathsLast(x) != Load(x)
  {
    var env := Environment(None, (path: string) => if path == "/data/s.db" then Some("/data") else None);
    x := Inputs(None, None, env, None, None, NO_OVERRIDES, NO_OVERRIDES.(database := Some("/data/s.db")));
    MovedDatabase(x, "/data/s.db", "/data");
    DefaultPatch();
    DefaultNames();
    EarlyPathsEqualLateOnes(x, SYNTHETIC, BUILTIN);
  }

  lemma MovedDatabase(x: Inputs, database: string, parent: string)
    requires x == Inputs(None, None, x.env, None, None, NO_OVERRIDES, NO_OVERRIDES.(database := Some(database)))
    requires x.env.home.None? && !Tilde(database) && x.env.parent(database) == Some(parent)
    requires ParentOr(DEFAULT_DATABASE, x.env) != parent
    ensures MergeInputs(x) == Ok(SYNTHETIC) && SelectedProfile(x, SYNTHETIC) == DEFAULT_PROFILE
    ensures Load(x).Ok? && Load(x).value.stateDir == parent
    ensures OrderMatters(DEFAULT_DATABASE, DEFAULT_STATE_DIR, PathOverrides(x.envFields, x.cli), x.env)
  {
    var paths := PathOverrides(x.envFields, x.cli);
    DefaultNames();
    DefaultInto(x.env, paths, database);
    OnlyDatabase(x, database, IntoEffective(SYNTHETIC, DEFAULT_PROFILE, x.env, paths).value);
    MovedMatters(x, database, parent);
  }

  lemma OnlyDatabase(x: Inputs, database: string, e: Effective)
    requires x.envFields == NO_OVERRIDES && x.cli == NO_OVERRIDES.(database := Some(database)) && e.defaultHost in e.hosts
    ensures ApplyFields(x, e) == Ok(e)
  {}

  lemma MovedMatters(x: Inputs, database: string, parent: string)
    requires x.envFields == NO_OVERRIDES && x.cli == NO_OVERRIDES.(database := Some(database))
    requires x.env.home.None? && x.env.parent(database) == Some(parent) && ParentOr(DEFAULT_DATABASE, x.env) != parent
    ensures OrderMatters(DEFAULT_DATABASE, DEFAULT_STATE_DIR, PathOverrides(x.envFields, x.cli), x.env)
  {}

  lemma DefaultPatch()
    ensures DEFAULT_PROFILE in SYNTHETIC.profiles && SelectedPatch(SYNTHETIC, DEFAULT_PROFILE) == BUILTIN
  {
    MergeAssociates(BUILTIN, EMPTY_PATCH, EMPTY_PATCH);
  }

  lemma DefaultInto(env: Environment, paths: Overrides, database: string)
    requires env.home.None? && paths == NO_OVERRIDES.(database := Some(database)) && !Tilde(database)
    ensures var e := IntoEffective(SYNTHETIC, DEFAULT_PROFILE, env, paths);
            e.Ok? && e.value.stateDir == ParentOr(database, env) && e.value.defaultHost in e.value.hosts
  {
    DefaultNames();
    DefaultPatch();
    assert SYNTHETIC.hosts[DEFAULT_HOST] == HostPatch(Some(LocalKind), None, None, None);
    assert HostsResolve(SYNTHETIC.hosts);
    assert Tilde(DEFAULT_STATE_DIR);
  }

  lemma DefaultNames()
    ensures ValidName(DEFAULT_PROFILE) && NonEmpty(DEFAULT_BACKEND) && NonEmpty(DEFAULT_MODE) && NonEmpty(DEFAULT_HOST)
    ensures NonEmpty(DEFAULT_DATABASE) && NonEmpty(DEFAULT_STATE_DIR)
  {
    assert !Space(DEFAULT_PROFILE[0]) && !Space(DEFAULT_BACKEND[0]) && !Space(DEFAULT_MODE[0]) && !Space(DEFAULT_HOST[0]);
    assert !Space(DEFAULT_DATABASE[0]) && !Space(DEFAULT_STATE_DIR[0]);
  }

  // ---------------------------------------------------------------- the project host rule

  predicate Trusted(host: Host, id: string) {
    host == LocalHost(id) || (host.SshHost? && host.id == id && host.connectCommand == "singleton serve --stdio" && host.sshArgs == [])
  }

  predicate Names(doc: Option<Document>, id: string) {
    doc.Some? && id in doc.value.hosts
  }

  /** Project host rule: when loading succeeds, every host the project document names resolves to the
      local one, or to SSH with the default connect command and no arguments, whatever the user
      document says about it; every other host is there exactly if it is without the project document,
      and resolves the same. */
  lemma ProjectHostRule(x: Inputs)
    requires Load(x).Ok?
    ensures MergeInputs(x.(project := None)).Ok?
    ensures forall id :: id in Load(x).value.hosts <==> Names(x.project, id) || id in MergeInputs(x.(project := None)).value.hosts
    ensures forall id :: id in Load(x).value.hosts && Names(x.project, id) ==> Trusted(Load(x).value.hosts[id], id)
    ensures forall id :: id in Load(x).value.hosts && !Names(x.project, id) ==>
              ResolveHost(id, MergeInputs(x.(project := None)).value.hosts[id]) == Ok(Load(x).value.hosts[id])
  {
    var m, name, early := LoadSteps(x);
    AppliedFields(x, early);
    IntoFields(x, m, name, early);
  }

  /** If the configuration also loads without the project document, those other hosts are its hosts. */
  lemma OtherHostsAreUntouched(x: Inputs, id: string)
    requires Load(x).Ok? && Load(x.(project := None)).Ok? && !Names(x.project, id)
    ensures id in Load(x).value.hosts <==> id in Load(x.(project := None)).value.hosts
    ensures id in Load(x).value.hosts ==> Load(x).value.hosts[id] == Load(x.(project := None)).value.hosts[id]
  {
    ProjectHostRule(x);
    ProjectHostRule(x.(project := None));
  }

  // ---------------------------------------------------------------- nothing configured

  /** With a home directory and nothing configured, both paths lie below it under their default names,
      and everything else has its default. */
  lemma NothingConfigured(env: Environment, home: string)
    requires env.home == Some(home)
    ensures Load(Inputs(None, None, env, None, None, NO_OVERRIDES, NO_OVERRIDES)) ==
            Ok(Effective("default", "copilot", None, "interactive", Under(home, ".singleton"), Under(home, ".singleton/singleton.db"),
                         "local", GitWorktree, Keep, Ask, map["local" := LocalHost("local")]))
  {
    var x := Inputs(None, None, env, None, None, NO_OVERRIDES, NO_OVERRIDES);
    DefaultNames();
    assert MergeInputs(x) == Ok(SYNTHETIC) && SelectedProfile(x, SYNTHETIC) == DEFAULT_PROFILE;
    DefaultEffective(env, home);
    NoFields(x, IntoEffective(SYNTHETIC, DEFAULT_PROFILE, env, NO_OVERRIDES).value);
  }

  /** Once its parts resolve, the configuration is made of them. */
  lemma IntoIs(m: Merged, name: string, env: Environment, paths: Overrides, database: string, stateDir: string, e: Effective)
    requires m.defaultProfile in m.profiles && name in m.profiles && HostsResolve(m.hosts)
    requires ResolveDatabase(SelectedPatch(m, name).database, paths.database, env) == Ok(database)
    requires ResolveStateDir(SelectedPatch(m, name).stateDir, paths.stateDir, database, env) == Ok(stateDir)
    requires var patch := SelectedPatch(m, name);
             && Required(patch.backend).Ok? && Required(patch.mode).Ok? && ValidMode(Required(patch.mode).value) && Required(patch.defaultHost).Ok?
             && Required(patch.defaultHost).value in m.hosts
             && e == Effective(name, Required(patch.backend).value, patch.model, Required(patch.mode).value, stateDir, database,
                               Required(patch.defaultHost).value, OrElse(patch.provider, GitWorktree), OrElse(patch.cleanup, Keep),
                               OrElse(DefaultOf(patch.permissions), Ask), ResolveHosts(m.hosts))
    ensures IntoEffective(m, name, env, paths) == Ok(e)
  {}

  lemma PathResolves(profile: string, env: Environment, result: string, database: string)
    requires NonEmpty(profile) && Expand(profile, env) == Ok(result)
    ensures ResolveDatabase(Some(profile), None, env) == Ok(result) && ResolveStateDir(Some(profile), None, database, env) == Ok(result)
  {}

  lemma DefaultStateDir(env: Environment, home: string)
    requires env.home == Some(home)
    ensures Expand(DEFAULT_STATE_DIR, env) == Ok(Under(home, ".singleton"))
  {
    assert DEFAULT_STATE_DIR == "~/" + ".singleton";
    DefaultPath(env, home, DEFAULT_STATE_DIR, ".singleton");
  }

  lemma DefaultDatabase(env: Environment, home: string)
    requires env.home == Some(home)
    ensures Expand(DEFAULT_DATABASE, env) == Ok(Under(home, ".singleton/singleton.db"))
  {
    assert DEFAULT_DATABASE == "~/" + ".singleton/singleton.db";
    DefaultPath(env, home, DEFAULT_DATABASE, ".singleton/singleton.db");
  }

  lemma DefaultPaths(env: Environment, home: string)
    requires env.home == Some(home)
    ensures ResolveDatabase(BUILTIN.database, None, env) == Ok(Under(home, ".singleton/singleton.db"))
    ensures ResolveStateDir(BUILTIN.stateDir, None, Under(home, ".singleton/singleton.db"), env) == Ok(Under(home, ".singleton"))
  {
    DefaultNames();
    DefaultStateDir(env, home);
    DefaultDatabase(env, home);
    PathResolves(DEFAULT_DATABASE, env, Under(home, ".singleton/singleton.db"), "");
    PathResolves(DEFAULT_STATE_DIR, env, Under(home, ".singleton"), Under(home, ".singleton/singleton.db"));
  }

  lemma DefaultEffective(env: Environment, home: string)
    requires env.home == Some(home)
    ensures IntoEffective(SYNTHETIC, DEFAULT_PROFILE, env, NO_OVERRIDES) ==
            Ok(Effective("default", "copilot", None, "interactive", Under(home, ".singleton"), Under(home, ".singleton/singleton.db"),
                         "local", GitWorktree, Keep, Ask, map["local" := LocalHost("local")]))
  {
    DefaultNames();
    DefaultPatch();
    DefaultPaths(env, home);
    DefaultHosts();
    IntoIs(SYNTHETIC, DEFAULT_PROFILE, env, NO_OVERRIDES, Under(home, ".singleton/singleton.db"), Under(home, ".singleton"),
           Effective("default", "copilot", None, "interactive", Under(home, ".singleton"), Under(home, ".singleton/singleton.db"),
                     "local", GitWorktree, Keep, Ask, map["local" := LocalHost("local")]));
  }

  lemma DefaultHosts()
    ensures HostsResolve(SYNTHETIC.hosts) && ResolveHosts(SYNTHETIC.hosts) == map["local" := LocalHost("local")]
  {
    assert SYNTHETIC.hosts[DEFAULT_HOST] == HostPatch(Some(LocalKind), None, None, None);
  }

  lemma NoFields(x: Inputs, e: Effective)
    requires x.envFields == NO_OVERRIDES && x.cli == NO_OVERRIDES && e.defaultHost in e.hosts
    ensures ApplyFields(x, e) == Ok(e)
  {}

  lemma DefaultPath(env: Environment, home: string, path: string, rest: string)
    requires env.home == Some(home) && path == "~/" + rest && rest != "" && rest[0] != '/'
    ensures Expand(path, env) == Ok(Under(home, rest))
  {
    ExpandIs(path, env);
    assert "~/" <= path && path != "~";
  }

  // ---------------------------------------------------------------- when loading succeeds

  predicate Filled(value: Option<string>) {
    value.Some? ==> !Blank(value.value)
  }

  predicate NameLike(value: string) {
    !Blank(value) && forall i :: 0 <= i < |value| ==> !Space(value[i])
  }

  predicate ModeLike(value: Option<string>) {
    value.Some? ==> value.value in {"interactive", "plan", "autopilot"}
  }

  predicate GoodProfile(p: ProfilePatch) {
    && Filled(p.backend) && Filled(p.model) && ModeLike(p.mode) && Filled(p.stateDir) && Filled(p.database)
    && (p.defaultHost.Some? ==> NameLike(p.defaultHost.value))
  }

  /** A project document may not bring its own connect command or SSH arguments. */
  predicate GoodHost(h: HostPatch, project: bool) {
    && Filled(h.target) && Filled(h.connectCommand)
    && (project ==> h.sshArgs.None? && (h.connectCommand.None? || h.connectCommand.value == "singleton serve --stdio"))
  }

  predicate GoodDocument(doc: Option<Document>, project: bool) {
    doc.Some? ==>
      && (doc.value.defaultProfile.Some? ==> NameLike(doc.value.defaultProfile.value))
      && (forall name :: name in doc.value.profiles ==> NameLike(name) && GoodProfile(doc.value.profiles[name]))
      && (forall id :: id in doc.value.hosts ==> NameLike(id) && GoodHost(doc.value.hosts[id], project))
  }

  function HostPatchOf(doc: Option<Document>, id: string): HostPatch {
    if doc.Some? then At(doc.value.hosts, id, EMPTY_HOST) else EMPTY_HOST
  }

  /** What the documents say of a host together, the project first; the local host is there from the start. */
  function LayeredHost(x: Inputs, id: string): HostPatch {
    var p, u := HostPatchOf(x.project, id), HostPatchOf(x.user, id);
    HostPatch(First([p.kind, u.kind, if id == "local" then Some(LocalKind) else None]), First([p.target, u.target]),
              First([p.connectCommand, u.connectCommand]), First([p.sshArgs, u.sshArgs]))
  }

  predicate HostKnown(x: Inputs, id: string) {
    id == "local" || (x.user.Some? && id in x.user.value.hosts) || (x.project.Some? && id in x.project.value.hosts)
  }

  predicate ProfileKnown(x: Inputs, name: string) {
    name == "default" || (x.user.Some? && name in x.user.value.profiles) || (x.project.Some? && name in x.project.value.profiles)
  }

  function NamedByDocuments(x: Inputs): Option<string> {
    First([if x.project.Some? then x.project.value.defaultProfile else None, if x.user.Some? then x.user.value.defaultProfile else None])
  }

  /** The documents are good, and no host the project names ends up with a foreign command or arguments. */
  predicate DocumentsGood(x: Inputs) {
    && GoodDocument(x.user, false) && GoodDocument(x.project, true)
    && forall id :: x.project.Some? && id in x.project.value.hosts ==>
         && LayeredHost(x, id).connectCommand in {None, Some("singleton serve --stdio")}
         && LayeredHost(x, id).sshArgs in {None, Some([])}
  }

  /** A local host has nothing else, an SSH host a target. */
  predicate HostComplete(h: HostPatch) {
    || (h.kind == Some(LocalKind) && h.target.None? && h.connectCommand.None? && h.sshArgs.None?)
    || (h.kind == Some(SshKind) && h.target.Some?)
  }

  lemma LayeredHostIs(x: Inputs, id: string)
    ensures LayeredHost(x, id) == MergeHost(MergeHost(At(SYNTHETIC.hosts, id, EMPTY_HOST), HostPatchOf(x.user, id)), HostPatchOf(x.project, id))
  {
    var p, u := HostPatchOf(x.project, id), HostPatchOf(x.user, id);
    First3(p.kind, u.kind, if id == "local" then Some(LocalKind) else None);
    First2(p.target, u.target);
    First2(p.connectCommand, u.connectCommand);
    First2(p.sshArgs, u.sshArgs);
  }

  lemma First2<T>(a: Option<T>, b: Option<T>)
    ensures First([a, b]) == Or(a, b)
  {
    assert [a, b][1..] == [b] && [b][1..] == [];
    assert First<T>([]) == None;
  }

  lemma GoodIsValid(doc: Option<Document>, source: Source)
    requires doc.Some?
    ensures ValidDocument(doc.value, source) <==> GoodDocument(doc, source == Project)
  {}

  lemma CompleteIsResolved(id: string, h: HostPatch)
    ensures ResolveHost(id, h).Ok? <==> HostComplete(h)
  {}

  lemma UserMerges(x: Inputs)
    ensures MergeOptional(SYNTHETIC, x.user, User).Ok? <==> GoodDocument(x.user, false)
    ensures MergeOptional(SYNTHETIC, x.user, User).Ok? ==>
              var m := MergeOptional(SYNTHETIC, x.user, User).value;
              && (forall id :: id in m.hosts <==> id == "local" || (x.user.Some? && id in x.user.value.hosts))
              && (forall id :: At(m.hosts, id, EMPTY_HOST) == MergeHost(At(SYNTHETIC.hosts, id, EMPTY_HOST), HostPatchOf(x.user, id)))
              && (forall name :: name in m.profiles <==> name == "default" || (x.user.Some? && name in x.user.value.profiles))
  {
    if x.user.Some? { GoodIsValid(x.user, User); }
  }

  lemma ProjectHosts(x: Inputs, m1: Merged, doc: Document)
    requires MergeOptional(SYNTHETIC, x.user, User) == Ok(m1) && x.project == Some(doc)
    ensures var hosts := MergeHosts(m1.hosts, doc.hosts);
            && (forall id :: id in hosts <==> HostKnown(x, id))
            && (forall id :: id in hosts ==> hosts[id] == LayeredHost(x, id))
  {
    UserMerges(x);
    var hosts := MergeHosts(m1.hosts, doc.hosts);
    forall id | id in hosts ensures hosts[id] == LayeredHost(x, id) {
      LayeredHostIs(x, id);
      assert At(m1.hosts, id, EMPTY_HOST) == MergeHost(At(SYNTHETIC.hosts, id, EMPTY_HOST), HostPatchOf(x.user, id));
    }
  }

  lemma TrustedIs(h: HostPatch)
    ensures TrustedHost(h) <==> h.connectCommand in {None, Some("singleton serve --stdio")} && h.sshArgs in {None, Some([])}
  {}

  lemma HostsTrusted(x: Inputs, doc: Document, hosts: map<string, HostPatch>)
    requires x.project == Some(doc) && forall id :: id in doc.hosts ==> id in hosts && hosts[id] == LayeredHost(x, id)
    ensures (forall id :: id in doc.hosts ==> TrustedHost(hosts[id])) <==>
            forall id :: x.project.Some? && id in x.project.value.hosts ==>
              && LayeredHost(x, id).connectCommand in {None, Some("singleton serve --stdio")}
              && LayeredHost(x, id).sshArgs in {None, Some([])}
  {
    forall id | id in doc.hosts
      ensures TrustedHost(hosts[id]) <==>
              LayeredHost(x, id).connectCommand in {None, Some("singleton serve --stdio")} && LayeredHost(x, id).sshArgs in {None, Some([])}
    {
      TrustedIs(hosts[id]);
    }
  }

  lemma NoProject(x: Inputs, m1: Merged)
    requires MergeOptional(SYNTHETIC, x.user, User) == Ok(m1) && x.project.None?
    ensures DocumentsGood(x)
    ensures (forall id :: id in m1.hosts <==> HostKnown(x, id)) && forall id :: id in m1.hosts ==> m1.hosts[id] == LayeredHost(x, id)
  {
    UserMerges(x);
    forall id | id in m1.hosts ensures m1.hosts[id] == LayeredHost(x, id) {
      LayeredHostIs(x, id);
      assert At(m1.hosts, id, EMPTY_HOST) == MergeHost(At(SYNTHETIC.hosts, id, EMPTY_HOST), HostPatchOf(x.user, id));
    }
  }

  lemma ProjectMerges(x: Inputs, m1: Merged)
    requires MergeOptional(SYNTHETIC, x.user, User) == Ok(m1)
    ensures MergeOptional(m1, x.project, Project).Ok? <==> DocumentsGood(x)
    ensures MergeOptional(m1, x.project, Project).Ok? ==>
              var m := MergeOptional(m1, x.project, Project).value;
              && (forall id :: id in m.hosts <==> HostKnown(x, id))
              && (forall id :: id in m.hosts ==> m.hosts[id] == LayeredHost(x, id))
              && (forall name :: name in m.profiles <==> ProfileKnown(x, name))
  {
    UserMerges(x);
    if x.project.None? {
      NoProject(x, m1);
    } else {
      GoodIsValid(x.project, Project);
      ProjectHosts(x, m1, x.project.value);
      HostsTrusted(x, x.project.value, MergeHosts(m1.hosts, x.project.value.hosts));
    }
  }

  /** What merging gives, and when. */
  lemma MergedIs(x: Inputs)
    ensures MergeInputs(x).Ok? <==> DocumentsGood(x)
    ensures MergeInputs(x).Ok? ==>
              var m := MergeInputs(x).value;
              && (forall id :: id in m.hosts <==> HostKnown(x, id))
              && (forall id :: id in m.hosts ==> m.hosts[id] == LayeredHost(x, id))
              && (forall name :: name in m.profiles <==> ProfileKnown(x, name))
  {
    UserMerges(x);
    if MergeOptional(SYNTHETIC, x.user, User).Ok? { ProjectMerges(x, MergeOptional(SYNTHETIC, x.user, User).value); }
  }

  /** Hosts too are layered field by field, the project's fields first; an SSH host without a connect
      command gets the default one, and without arguments none. */
  lemma HostsAreFirstSet(x: Inputs, id: string)
    requires Load(x).Ok?
    ensures id in Load(x).value.hosts <==> HostKnown(x, id)
    ensures id in Load(x).value.hosts ==> HostFrom(LayeredHost(x, id), id, Load(x).value.hosts[id])
  {
    var m := LoadedHosts(x);
    MergedIs(x);
    if id in m.hosts { ResolvedFrom(id, m.hosts[id]); }
  }

  predicate HostFrom(h: HostPatch, id: string, host: Host) {
    if h.kind == Some(LocalKind) then host == LocalHost(id)
    else
      && h.kind == Some(SshKind) && h.target.Some?
      && host == SshHost(id, h.target.value, if h.connectCommand.Some? then h.connectCommand.value else "singleton serve --stdio",
                         if h.sshArgs.Some? then h.sshArgs.value else [])
  }

  lemma ResolvedFrom(id: string, h: HostPatch)
    requires ResolveHost(id, h).Ok?
    ensures HostFrom(h, id, ResolveHost(id, h).value)
  {}

  lemma LoadedHosts(x: Inputs) returns (m: Merged)
    requires Load(x).Ok?
    ensures MergeInputs(x) == Ok(m) && HostsResolve(m.hosts) && Load(x).value.hosts == ResolveHosts(m.hosts)
  {
    var merged, name, early := LoadSteps(x);
    m := merged;
    AppliedFields(x, early);
    IntoFields(x, m, name, early);
  }

  predicate Expandable(path: Option<string>, env: Environment) {
    path.Some? && (HomePath(path.value) ==> env.home.Some?)
  }

  /** The default state directory has a fallback, unless it was asked for on the command line or in the environment. */
  predicate StateDirFound(x: Inputs, name: string) {
    || Expandable(FirstStateDir(x, name), x.env)
    || (FirstStateDir(x, name) == Some("~/.singleton") && x.cli.stateDir.None? && x.envFields.stateDir.None?)
  }

  predicate GoodOverrides(o: Overrides) {
    Filled(o.backend) && Filled(o.model) && ModeLike(o.mode) && Filled(o.defaultHost)
  }

  function ProfileNamed(x: Inputs): string {
    OrElse(First([x.profile, x.envProfile, NamedByDocuments(x)]), "default")
  }

  /** The default host with the overrides given. */
  function HostNamed(x: Inputs, cli: Option<string>, env: Option<string>): string {
    OrElse(First(Layers(x, cli, env, (p: ProfilePatch) => p.defaultHost, ProfileNamed(x))), "")
  }

  ghost predicate Loads(x: Inputs) {
    && DocumentsGood(x)
    && NameLike(ProfileNamed(x)) && ProfileKnown(x, ProfileNamed(x)) && ProfileKnown(x, OrElse(NamedByDocuments(x), "default"))
    && (forall id :: HostKnown(x, id) ==> HostComplete(LayeredHost(x, id)))
    && Expandable(FirstDatabase(x, ProfileNamed(x)), x.env) && StateDirFound(x, ProfileNamed(x))
    && GoodOverrides(x.envFields) && GoodOverrides(x.cli)
    && HostKnown(x, HostNamed(x, None, None)) && HostKnown(x, HostNamed(x, None, x.envFields.defaultHost))
    && HostKnown(x, HostNamed(x, x.cli.defaultHost, x.envFields.defaultHost))
  }

  lemma NamedIs(x: Inputs)
    requires MergeInputs(x).Ok?
    ensures SelectedProfile(x, MergeInputs(x).value) == ProfileNamed(x)
    ensures MergeInputs(x).value.defaultProfile == OrElse(NamedByDocuments(x), "default")
  {
    var p := if x.project.Some? then x.project.value.defaultProfile else None;
    var u := if x.user.Some? then x.user.value.defaultProfile else None;
    First2(p, u);
    First3(x.profile, x.envProfile, NamedByDocuments(x));
  }

  lemma HostNamedIs(x: Inputs, cli: Option<string>, env: Option<string>)
    requires MergeInputs(x).Ok? && ProfileNamed(x) in MergeInputs(x).value.profiles
    ensures var patch := SelectedPatch(MergeInputs(x).value, ProfileNamed(x));
            patch.defaultHost.Some? && HostNamed(x, cli, env) == OrElse(cli, OrElse(env, patch.defaultHost.value))
  {
    var name := ProfileNamed(x);
    SelectedLayers(x, name);
    var u, p := PatchOf(x.user, name), PatchOf(x.project, name);
    LayersFirst(x, cli, env, (q: ProfilePatch) => q.defaultHost, name, Or(cli, Or(env, Or(p.defaultHost, Or(u.defaultHost, BUILTIN.defaultHost)))));
  }

  lemma PatchGood(doc: Option<Document>, project: bool, name: string)
    requires GoodDocument(doc, project)
    ensures GoodProfile(PatchOf(doc, name))
  {}

  lemma FilledOr(p: Option<string>, u: Option<string>, b: string)
    requires Filled(p) && Filled(u) && NonEmpty(b)
    ensures Required(Or(p, Or(u, Some(b)))).Ok?
  {}

  lemma PatchFilled(x: Inputs, name: string)
    requires DocumentsGood(x) && MergeInputs(x).Ok? && name in MergeInputs(x).value.profiles
    ensures Complete(SelectedPatch(MergeInputs(x).value, name))
  {
    SelectedLayers(x, name);
    PatchGood(x.user, false, name);
    PatchGood(x.project, true, name);
    BuiltinComplete(PatchOf(x.project, name), PatchOf(x.user, name));
  }

  /** The strings a configuration needs are there, and good. */
  predicate Complete(patch: ProfilePatch) {
    && Required(patch.backend).Ok? && Required(patch.mode).Ok? && ValidMode(Required(patch.mode).value) && Required(patch.defaultHost).Ok?
    && Required(patch.database).Ok? && Required(patch.stateDir).Ok?
  }

  lemma BuiltinComplete(p: ProfilePatch, u: ProfilePatch)
    requires GoodProfile(p) && GoodProfile(u)
    ensures Complete(Merge(Merge(BUILTIN, u), p))
  {
    DefaultNames();
    FilledOr(p.backend, u.backend, DEFAULT_BACKEND);
    FilledOr(p.database, u.database, DEFAULT_DATABASE);
    FilledOr(p.stateDir, u.stateDir, DEFAULT_STATE_DIR);
    FilledOr(p.defaultHost, u.defaultHost, DEFAULT_HOST);
    ModeFilled(p.mode);
    ModeFilled(u.mode);
    FilledOr(p.mode, u.mode, DEFAULT_MODE);
  }

  lemma ModeFilled(mode: Option<string>)
    requires ModeLike(mode)
    ensures Filled(mode)
  {
    if mode.Some? { assert !Space("interactive"[0]) && !Space("plan"[0]) && !Space("autopilot"[0]); }
  }

  lemma PathsFound(x: Inputs, name: string, database: Outcome<string>)
    requires MergeInputs(x).Ok? && name in MergeInputs(x).value.profiles && Complete(SelectedPatch(MergeInputs(x).value, name))
    requires database == ResolveDatabase(SelectedPatch(MergeInputs(x).value, name).database, PathOverrides(x.envFields, x.cli).database, x.env)
    ensures database.Ok? <==> Expandable(FirstDatabase(x, name), x.env)
    ensures database.Ok? ==>
              (ResolveStateDir(SelectedPatch(MergeInputs(x).value, name).stateDir, PathOverrides(x.envFields, x.cli).stateDir, database.value, x.env).Ok?
               <==> StateDirFound(x, name))
  {
    FirstPaths(x, name);
    ExpandIs(FirstDatabase(x, name).value, x.env);
    ExpandIs(FirstStateDir(x, name).value, x.env);
  }

  /** With a complete patch, what is left to fail. */
  lemma IntoOk(m: Merged, name: string, env: Environment, paths: Overrides)
    requires name in m.profiles && Complete(SelectedPatch(m, name))
    ensures var patch := SelectedPatch(m, name);
            var database := ResolveDatabase(patch.database, paths.database, env);
            var result := IntoEffective(m, name, env, paths);
            && (result.Ok? <==>
                  && m.defaultProfile in m.profiles && HostsResolve(m.hosts) && patch.defaultHost.value in m.hosts
                  && database.Ok? && ResolveStateDir(patch.stateDir, paths.stateDir, database.value, env).Ok?)
            && (result.Ok? ==> result.value.hosts.Keys == m.hosts.Keys && result.value.defaultHost == patch.defaultHost.value)
  {}

  lemma IntoLoads(x: Inputs, m: Merged, name: string)
    requires DocumentsGood(x) && MergeInputs(x) == Ok(m) && name == ProfileNamed(x) && name in m.profiles
    ensures IntoEffective(m, name, x.env, PathOverrides(x.envFields, x.cli)).Ok? <==>
            && m.defaultProfile in m.profiles && HostsResolve(m.hosts) && HostNamed(x, None, None) in m.hosts
            && Expandable(FirstDatabase(x, name), x.env) && StateDirFound(x, name)
    ensures IntoEffective(m, name, x.env, PathOverrides(x.envFields, x.cli)).Ok? ==>
              var e := IntoEffective(m, name, x.env, PathOverrides(x.envFields, x.cli)).value;
              e.hosts.Keys == m.hosts.Keys && e.defaultHost == HostNamed(x, None, None)
  {
    PatchFilled(x, name);
    HostNamedIs(x, None, None);
    IntoOk(m, name, x.env, PathOverrides(x.envFields, x.cli));
    PathsFound(x, name, ResolveDatabase(SelectedPatch(m, name).database, PathOverrides(x.envFields, x.cli).database, x.env));
  }

  lemma FieldsLoad(x: Inputs, e: Effective)
    ensures ApplyFields(x, e).Ok? <==>
            && GoodOverrides(x.envFields) && GoodOverrides(x.cli)
            && OrElse(x.envFields.defaultHost, e.defaultHost) in e.hosts
            && OrElse(x.cli.defaultHost, OrElse(x.envFields.defaultHost, e.defaultHost)) in e.hosts
  {}

  lemma HostsLoad(x: Inputs, m: Merged)
    requires MergeInputs(x) == Ok(m)
    ensures HostsResolve(m.hosts) <==> forall id :: HostKnown(x, id) ==> HostComplete(LayeredHost(x, id))
  {
    MergedIs(x);
    forall id | id in m.hosts ensures ResolveHost(id, m.hosts[id]).Ok? <==> HostComplete(LayeredHost(x, id)) {
      CompleteIsResolved(id, m.hosts[id]);
    }
  }

  /** Exactly when loading succeeds: good documents and overrides, complete hosts and none the project made
      foreign, a well-formed and known profile, paths that need no missing home, and a known default host
      at each round. */
  lemma LoadsExactlyWhen(x: Inputs)
    ensures Load(x).Ok? <==> Loads(x)
  {
    MergedIs(x);
    if MergeInputs(x).Ok? {
      NamedIs(x);
      HostsLoad(x, MergeInputs(x).value);
      NameIsValid(ProfileNamed(x));
      if ProfileKnown(x, ProfileNamed(x)) { KnownLoads(x, MergeInputs(x).value, ProfileNamed(x)); }
    }
  }

  lemma NameIsValid(name: string)
    ensures ValidName(name) <==> NameLike(name)
  {}

  /** Once the documents are merged and the profile is known. */
  lemma KnownLoads(x: Inputs, m: Merged, name: string)
    requires DocumentsGood(x) && MergeInputs(x) == Ok(m) && name == ProfileNamed(x) && name in m.profiles
    ensures var e := IntoEffective(m, name, x.env, PathOverrides(x.envFields, x.cli));
            e.Ok? && ApplyFields(x, e.value).Ok? <==>
            && m.defaultProfile in m.profiles && HostsResolve(m.hosts)
            && Expandable(FirstDatabase(x, name), x.env) && StateDirFound(x, name)
            && GoodOverrides(x.envFields) && GoodOverrides(x.cli)
            && HostNamed(x, None, None) in m.hosts && HostNamed(x, None, x.envFields.defaultHost) in m.hosts
            && HostNamed(x, x.cli.defaultHost, x.envFields.defaultHost) in m.hosts
  {
    IntoLoads(x, m, name);
    HostNamedIs(x, None, None);
    HostNamedIs(x, None, x.envFields.defaultHost);
    HostNamedIs(x, x.cli.defaultHost, x.envFields.defaultHost);
    var e := IntoEffective(m, name, x.env, PathOverrides(x.envFields, x.cli));
    if e.Ok? { FieldsLoad(x, e.value); }
  }
}
