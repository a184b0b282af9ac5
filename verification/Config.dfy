/** Layered configuration: patches merged across built-in, user and project documents, then the
    environment and the command line. */
module Config {
  import opened Text
  import opened Wrappers

  datatype Outcome<+T> = Ok(value: T) | Err

  function Or<T>(a: Option<T>, b: Option<T>): Option<T> {
    if a.Some? then a else b
  }

  function OrElse<T>(a: Option<T>, b: T): T {
    if a.Some? then a.value else b
  }

  /** The first value that is set. */
  function First<T>(layers: seq<Option<T>>): Option<T> {
    if layers == [] then None else if layers[0].Some? then layers[0] else First(layers[1..])
  }

  // ---------------------------------------------------------------- values

  datatype Provider = LocalPath | GitWorktree | BackendDefault

  datatype Cleanup = Keep | DeleteOnArchive | DeleteOnSuccess

  datatype Permission = Ask | Allow | Deny

  datatype PermissionsPatch = PermissionsPatch(default_: Option<Permission>)

  datatype ProfilePatch = ProfilePatch(
    backend: Option<string>,
    model: Option<string>,
    mode: Option<string>,
    stateDir: Option<string>,
    database: Option<string>,
    defaultHost: Option<string>,
    provider: Option<Provider>,
    cleanup: Option<Cleanup>,
    permissions: Option<PermissionsPatch>)

  datatype HostKind = LocalKind | SshKind

  datatype HostPatch = HostPatch(kind: Option<HostKind>, target: Option<string>, connectCommand: Option<string>, sshArgs: Option<seq<string>>)

  datatype Host =
    | LocalHost(id: string)
    | SshHost(id: string, target: string, connectCommand: string, sshArgs: seq<string>)

  datatype Document = Document(defaultProfile: Option<string>, profiles: map<string, ProfilePatch>, hosts: map<string, HostPatch>)

  datatype Source = User | Project

  datatype Overrides = Overrides(
    backend: Option<string>,
    model: Option<string>,
    mode: Option<string>,
    stateDir: Option<string>,
    database: Option<string>,
    defaultHost: Option<string>,
    provider: Option<Provider>,
    cleanup: Option<Cleanup>,
    permission: Option<Permission>)

  datatype Effective = Effective(
    profile: string,
    backend: string,
    model: Option<string>,
    mode: string,
    stateDir: string,
    database: string,
    defaultHost: string,
    provider: Provider,
    cleanup: Cleanup,
    permission: Permission,
    hosts: map<string, Host>)

  const DEFAULT_PROFILE := "default"
  const DEFAULT_BACKEND := "copilot"
  const DEFAULT_MODE := "interactive"
  const DEFAULT_STATE_DIR := "~/.singleton"
  const DEFAULT_DATABASE := "~/.singleton/singleton.db"
  const DEFAULT_HOST := "local"
  const DEFAULT_CONNECT := "singleton serve --stdio"

  const EMPTY_PATCH := ProfilePatch(None, None, None, None, None, None, None, None, None)
  const BUILTIN := ProfilePatch(Some(DEFAULT_BACKEND), None, Some(DEFAULT_MODE), Some(DEFAULT_STATE_DIR), Some(DEFAULT_DATABASE),
                                Some(DEFAULT_HOST), Some(GitWorktree), Some(Keep), Some(PermissionsPatch(Some(Ask))))
  const EMPTY_HOST := HostPatch(None, None, None, None)

  // ---------------------------------------------------------------- paths

  /** HOME and the file-system's notion of a parent directory. */
  datatype Environment = Environment(home: Option<string>, parent: string -> Option<string>)

  /** `Path::join`. */
  function Join(base: string, rest: string): string {
    if rest != "" && rest[0] == '/' then rest
    else if base == "" || base[|base| - 1] == '/' then base + rest
    else base + "/" + rest
  }

  predicate Tilde(path: string) {
    path == "~" || (|path| >= 2 && path[0] == '~' && path[1] == '/')
  }

  /** `expand_tilde`. */
  function Expand(path: string, env: Environment): Outcome<string> {
    if !Tilde(path) then Ok(path)
    else if env.home.None? then Err
    else if path == "~" then Ok(env.home.value)
    else Ok(Join(env.home.value, path[2..]))
  }

  predicate NonEmpty(value: string) {
    !Blank(value)
  }

  predicate ValidName(value: string) {
    NonEmpty(value) && forall i :: 0 <= i < |value| ==> !Space(value[i])
  }

  predicate ValidMode(value: string) {
    value == "interactive" || value == "plan" || value == "autopilot"
  }

  // ---------------------------------------------------------------- merging

  function MergePermissions(current: Option<PermissionsPatch>, other: Option<PermissionsPatch>): Option<PermissionsPatch> {
    if other.None? then current
    else if current.None? then other
    else Some(PermissionsPatch(Or(other.value.default_, current.value.default_)))
  }

  /** `ProfilePatch::merge_from`. */
  function Merge(current: ProfilePatch, other: ProfilePatch): ProfilePatch {
    ProfilePatch(Or(other.backend, current.backend), Or(other.model, current.model), Or(other.mode, current.mode),
                 Or(other.stateDir, current.stateDir), Or(other.database, current.database), Or(other.defaultHost, current.defaultHost),
                 Or(other.provider, current.provider), Or(other.cleanup, current.cleanup),
                 MergePermissions(current.permissions, other.permissions))
  }

  /** `HostPatch::merge_from`. */
  function MergeHost(current: HostPatch, other: HostPatch): HostPatch {
    HostPatch(Or(other.kind, current.kind), Or(other.target, current.target),
              Or(other.connectCommand, current.connectCommand), Or(other.sshArgs, current.sshArgs))
  }

  predicate ValidProfile(patch: ProfilePatch) {
    && (patch.backend.Some? ==> NonEmpty(patch.backend.value))
    && (patch.model.Some? ==> NonEmpty(patch.model.value))
    && (patch.mode.Some? ==> ValidMode(patch.mode.value))
    && (patch.stateDir.Some? ==> NonEmpty(patch.stateDir.value))
    && (patch.database.Some? ==> NonEmpty(patch.database.value))
    && (patch.defaultHost.Some? ==> ValidName(patch.defaultHost.value))
  }

  /** `HostPatch::validate`, apart from the secret patterns. */
  predicate ValidHost(patch: HostPatch, source: Source) {
    && (source == Project ==> patch.connectCommand.None? || patch.connectCommand.value == DEFAULT_CONNECT)
    && (source == Project ==> patch.sshArgs.None?)
    && (patch.target.Some? ==> NonEmpty(patch.target.value))
    && (patch.connectCommand.Some? ==> NonEmpty(patch.connectCommand.value))
  }

  predicate ValidDocument(doc: Document, source: Source) {
    && (doc.defaultProfile.Some? ==> ValidName(doc.defaultProfile.value))
    && (forall name :: name in doc.profiles ==> ValidName(name) && ValidProfile(doc.profiles[name]))
    && (forall name :: name in doc.hosts ==> ValidName(name) && ValidHost(doc.hosts[name], source))
  }

  /** `HostPatch::validate_project_effective`. */
  predicate TrustedHost(patch: HostPatch) {
    && (patch.connectCommand.None? || patch.connectCommand.value == DEFAULT_CONNECT)
    && (patch.sshArgs.None? || patch.sshArgs.value == [])
  }

  function At<V>(table: map<string, V>, name: string, default_: V): V {
    if name in table then table[name] else default_
  }

  datatype Merged = Merged(defaultProfile: string, profiles: map<string, ProfilePatch>, hosts: map<string, HostPatch>)

  const SYNTHETIC := Merged(DEFAULT_PROFILE, map[DEFAULT_PROFILE := BUILTIN],
                            map[DEFAULT_HOST := HostPatch(Some(LocalKind), None, None, None)])

  function MergeProfiles(current: map<string, ProfilePatch>, other: map<string, ProfilePatch>): map<string, ProfilePatch> {
    map name | name in current.Keys + other.Keys ::
      if name in other then Merge(At(current, name, EMPTY_PATCH), other[name]) else current[name]
  }

  function MergeHosts(current: map<string, HostPatch>, other: map<string, HostPatch>): map<string, HostPatch> {
    map name | name in current.Keys + other.Keys ::
      if name in other then MergeHost(At(current, name, EMPTY_HOST), other[name]) else current[name]
  }

  /** `MergedConfig::merge_document`. */
  function MergeDocument(m: Merged, doc: Document, source: Source): Outcome<Merged> {
    if !ValidDocument(doc, source) then Err
    else
      var hosts := MergeHosts(m.hosts, doc.hosts);
      if source == Project && exists name :: name in doc.hosts && !TrustedHost(hosts[name]) then Err
      else Ok(Merged(OrElse(doc.defaultProfile, m.defaultProfile), MergeProfiles(m.profiles, doc.profiles), hosts))
  }

  function MergeOptional(m: Merged, doc: Option<Document>, source: Source): Outcome<Merged> {
    if doc.None? then Ok(m) else MergeDocument(m, doc.value, source)
  }

  // ---------------------------------------------------------------- resolving

  /** `HostPatch::resolve`. */
  function ResolveHost(id: string, patch: HostPatch): Outcome<Host> {
    match patch.kind
    case None => Err
    case Some(LocalKind) => if patch.target.Some? || patch.connectCommand.Some? || patch.sshArgs.Some? then Err else Ok(LocalHost(id))
    case Some(SshKind) =>
      if patch.target.None? then Err
      else Ok(SshHost(id, patch.target.value, OrElse(patch.connectCommand, DEFAULT_CONNECT), OrElse(patch.sshArgs, [])))
  }

  predicate HostsResolve(hosts: map<string, HostPatch>) {
    forall id :: id in hosts ==> ResolveHost(id, hosts[id]).Ok?
  }

  function ResolveHosts(hosts: map<string, HostPatch>): map<string, Host>
    requires HostsResolve(hosts)
  {
    map id | id in hosts :: ResolveHost(id, hosts[id]).value
  }

  /** `required_profile_string`. */
  function Required(value: Option<string>): Outcome<string> {
    if value.Some? && NonEmpty(value.value) then Ok(value.value) else Err
  }

  /** `resolve_path_field`. */
  function ResolveDatabase(profile: Option<string>, override_: Option<string>, env: Environment): Outcome<string> {
    if override_.Some? then Expand(override_.value, env)
    else if Required(profile).Ok? then Expand(Required(profile).value, env)
    else Err
  }

  function ParentOr(path: string, env: Environment): string {
    OrElse(env.parent(path), ".")
  }

  /** `resolve_state_dir_field`. */
  function ResolveStateDir(profile: Option<string>, override_: Option<string>, database: string, env: Environment): Outcome<string> {
    if override_.Some? then Expand(override_.value, env)
    else if Required(profile).Err? then Err
    else
      var raw := Required(profile).value;
      if Expand(raw, env).Ok? then Expand(raw, env)
      else if raw == DEFAULT_STATE_DIR && env.home.None? then Ok(ParentOr(database, env))
      else Err
  }

  predicate ReferencesOk(e: Effective) {
    e.defaultHost in e.hosts
  }

  /** The selected profile over the built-in one. */
  function SelectedPatch(m: Merged, profile: string): ProfilePatch
    requires profile in m.profiles
  {
    Merge(BUILTIN, m.profiles[profile])
  }

  /** `MergedConfig::into_effective`. */
  function IntoEffective(m: Merged, profile: string, env: Environment, paths: Overrides): Outcome<Effective> {
    if m.defaultProfile !in m.profiles || profile !in m.profiles || !HostsResolve(m.hosts) then Err
    else
      var patch := SelectedPatch(m, profile);
      var database := ResolveDatabase(patch.database, paths.database, env);
      if database.Err? then Err
      else
        var stateDir := ResolveStateDir(patch.stateDir, paths.stateDir, database.value, env);
        var backend, mode, host := Required(patch.backend), Required(patch.mode), Required(patch.defaultHost);
        if stateDir.Err? || backend.Err? || mode.Err? || !ValidMode(mode.value) || host.Err? then Err
        else
          var e := Effective(profile, backend.value, patch.model, mode.value, stateDir.value, database.value, host.value,
                             OrElse(patch.provider, GitWorktree), OrElse(patch.cleanup, Keep),
                             OrElse(OrElse(patch.permissions, PermissionsPatch(Some(Ask))).default_, Ask),
                             ResolveHosts(m.hosts));
          if ReferencesOk(e) then Ok(e) else Err
  }

  // ---------------------------------------------------------------- overriding

  function WithoutPaths(o: Overrides): Overrides {
    o.(stateDir := None, database := None)
  }

  /** `resolved_path_overrides`. */
  function PathOverrides(env: Overrides, cli: Overrides): Overrides {
    Overrides(None, None, None, Or(cli.stateDir, env.stateDir), Or(cli.database, env.database), None, None, None, None)
  }

  predicate OverridesOk(o: Overrides, env: Environment) {
    && (o.backend.Some? ==> NonEmpty(o.backend.value))
    && (o.model.Some? ==> NonEmpty(o.model.value))
    && (o.mode.Some? ==> ValidMode(o.mode.value))
    && (o.stateDir.Some? ==> Expand(o.stateDir.value, env).Ok?)
    && (o.database.Some? ==> Expand(o.database.value, env).Ok?)
    && (o.defaultHost.Some? ==> NonEmpty(o.defaultHost.value))
  }

  /** `apply_overrides`. */
  function ApplyOverrides(e: Effective, o: Overrides, env: Environment): Outcome<Effective> {
    if !OverridesOk(o, env) then Err
    else
      var applied := e.(
        backend := OrElse(o.backend, e.backend), model := Or(o.model, e.model), mode := OrElse(o.mode, e.mode),
        stateDir := if o.stateDir.Some? then Expand(o.stateDir.value, env).value else e.stateDir,
        database := if o.database.Some? then Expand(o.database.value, env).value else e.database,
        defaultHost := OrElse(o.defaultHost, e.defaultHost), provider := OrElse(o.provider, e.provider),
        cleanup := OrElse(o.cleanup, e.cleanup), permission := OrElse(o.permission, e.permission));
      if ReferencesOk(applied) then Ok(applied) else Err
  }

  // ---------------------------------------------------------------- loading

  /** The parsed inputs of a load. */
  datatype Inputs = Inputs(
    user: Option<Document>,
    project: Option<Document>,
    env: Environment,
    profile: Option<string>,
    envProfile: Option<string>,
    envFields: Overrides,
    cli: Overrides)

  function MergeInputs(x: Inputs): Outcome<Merged> {
    var merged := MergeOptional(SYNTHETIC, x.user, User);
    if merged.Err? then Err else MergeOptional(merged.value, x.project, Project)
  }

  function SelectedProfile(x: Inputs, m: Merged): string {
    OrElse(Or(x.profile, x.envProfile), m.defaultProfile)
  }

  /** The two rounds of field overrides, the command line last. */
  function ApplyFields(x: Inputs, e: Effective): Outcome<Effective> {
    var first := ApplyOverrides(e, WithoutPaths(x.envFields), x.env);
    if first.Err? then Err else ApplyOverrides(first.value, WithoutPaths(x.cli), x.env)
  }

  /** `load_effective_config` after parsing. */
  function Load(x: Inputs): Outcome<Effective> {
    var merged := MergeInputs(x);
    if merged.Err? || !ValidName(SelectedProfile(x, merged.value)) then Err
    else
      var e := IntoEffective(merged.value, SelectedProfile(x, merged.value), x.env, PathOverrides(x.envFields, x.cli));
      if e.Err? then Err else ApplyFields(x, e.value)
  }
}
