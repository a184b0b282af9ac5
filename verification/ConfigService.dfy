/** Merging and overriding as the program does them: records and tables updated in place. */
module ConfigService {
  import opened Config
  import opened ConfigProofs
  import opened Wrappers

  /** Taking one field of a patch over another's. */
  method Overlay<T>(current: Option<T>, other: Option<T>) returns (merged: Option<T>)
    ensures merged == Or(other, current)
  {
    merged := current;
    if other.Some? { merged := other; }
  }

  method MergeProfileFrom(current: ProfilePatch, other: ProfilePatch) returns (merged: ProfilePatch)
    ensures merged == Merge(current, other)
    ensures forall base: ProfilePatch :: Merge(base, merged) == Merge(Merge(base, current), other)
    ensures (other == EMPTY_PATCH ==> merged == current) && (current == EMPTY_PATCH ==> merged == other)
  {
    var backend := Overlay(current.backend, other.backend);
    var model := Overlay(current.model, other.model);
    var mode := Overlay(current.mode, other.mode);
    var stateDir := Overlay(current.stateDir, other.stateDir);
    var database := Overlay(current.database, other.database);
    var defaultHost := Overlay(current.defaultHost, other.defaultHost);
    var provider := Overlay(current.provider, other.provider);
    var cleanup := Overlay(current.cleanup, other.cleanup);
    var permissions := current.permissions;
    if other.permissions.Some? {
      if permissions.Some? {
        var default_ := Overlay(permissions.value.default_, other.permissions.value.default_);
        permissions := Some(PermissionsPatch(default_));
      } else {
        permissions := other.permissions;
      }
    }
    merged := ProfilePatch(backend, model, mode, stateDir, database, defaultHost, provider, cleanup, permissions);
    MergeLaws(current, other);
  }

  lemma MergeLaws(current: ProfilePatch, other: ProfilePatch)
    ensures forall base: ProfilePatch :: Merge(base, Merge(current, other)) == Merge(Merge(base, current), other)
    ensures Merge(current, EMPTY_PATCH) == current && Merge(EMPTY_PATCH, other) == other
  {
    MergeAssociates(current, other, EMPTY_PATCH);
    forall base: ProfilePatch ensures Merge(base, Merge(current, other)) == Merge(Merge(base, current), other) {
      MergeAssociates(base, current, other);
    }
  }

  method MergeHostFrom(current: HostPatch, other: HostPatch) returns (merged: HostPatch)
    ensures merged == MergeHost(current, other)
  {
    var kind := Overlay(current.kind, other.kind);
    var target := Overlay(current.target, other.target);
    var connectCommand := Overlay(current.connectCommand, other.connectCommand);
    var sshArgs := Overlay(current.sshArgs, other.sshArgs);
    merged := HostPatch(kind, target, connectCommand, sshArgs);
  }

  class MergedConfig {
    var defaultProfile: string
    var profiles: map<string, ProfilePatch>
    var hosts: map<string, HostPatch>

    function Contents(): Merged
      reads this
    {
      Merged(defaultProfile, profiles, hosts)
    }

    constructor SyntheticDefault()
      ensures Contents() == SYNTHETIC
    {
      defaultProfile := DEFAULT_PROFILE;
      profiles := map[DEFAULT_PROFILE := BUILTIN];
      hosts := map[DEFAULT_HOST := HostPatch(Some(LocalKind), None, None, None)];
    }

    method MergeProfilesFrom(patches: map<string, ProfilePatch>)
      modifies this`profiles
      ensures profiles == MergeProfiles(old(profiles), patches)
    {
      ghost var before := profiles;
      var todo := patches.Keys;
      while todo != {}
        invariant todo <= patches.Keys
        invariant profiles == MergedSoFar(before, patches, patches.Keys - todo)
        decreases |todo|
      {
        var name :| name in todo;
        MergedStep(before, patches, patches.Keys - todo, name);
        assert patches.Keys - todo + {name} == patches.Keys - (todo - {name});
        todo := todo - {name};
        var entry := MergeProfileFrom(At(profiles, name, EMPTY_PATCH), patches[name]);
        profiles := profiles[name := entry];
      }
      MergedAll(before, patches, patches.Keys - todo);
    }

    /** Merges host by host; in a project document each merged host must be one a project may name. */
    method MergeHostsFrom(patches: map<string, HostPatch>, source: Source) returns (ok: bool)
      modifies this`hosts
      ensures ok <==> !(source == Project && exists name :: name in patches && !TrustedHost(MergeHosts(old(hosts), patches)[name]))
      ensures ok ==> hosts == MergeHosts(old(hosts), patches)
    {
      ghost var before := hosts;
      ghost var after := MergeHosts(before, patches);
      var todo := patches.Keys;
      while todo != {}
        invariant todo <= patches.Keys
        invariant hosts.Keys == before.Keys + (patches.Keys - todo)
        invariant forall name :: name in hosts ==>
                    hosts[name] == if name in patches && name !in todo then MergeHost(At(before, name, EMPTY_HOST), patches[name]) else before[name]
        invariant source == Project ==> forall name :: name in patches && name !in todo ==> TrustedHost(after[name])
        decreases |todo|
      {
        var name :| name in todo;
        todo := todo - {name};
        var entry := MergeHostFrom(At(hosts, name, EMPTY_HOST), patches[name]);
        hosts := hosts[name := entry];
        assert entry == after[name];
        if source == Project && !TrustedHost(entry) { return false; }
      }
      assert hosts == after;
      ok := true;
    }

    method MergeDocument(doc: Document, source: Source) returns (ok: bool)
      modifies this
      ensures ok == Config.MergeDocument(old(Contents()), doc, source).Ok?
      ensures ok ==> Contents() == Config.MergeDocument(old(Contents()), doc, source).value
    {
      var valid := ValidateDocument(doc, source);
      if !valid { return false; }
      if doc.defaultProfile.Some? { defaultProfile := doc.defaultProfile.value; }
      MergeProfilesFrom(doc.profiles);
      ok := MergeHostsFrom(doc.hosts, source);
    }

    method ValidateDocument(doc: Document, source: Source) returns (ok: bool)
      ensures ok == ValidDocument(doc, source)
    {
      if doc.defaultProfile.Some? && !ValidName(doc.defaultProfile.value) { return false; }
      ok := ValidateProfiles(doc.profiles);
      if ok { ok := ValidateHosts(doc.hosts, source); }
    }
  }

  method ValidateProfiles(profiles: map<string, ProfilePatch>) returns (ok: bool)
    ensures ok <==> forall name :: name in profiles ==> ValidName(name) && ValidProfile(profiles[name])
  {
    var todo := profiles.Keys;
    while todo != {}
      invariant todo <= profiles.Keys
      invariant forall name :: name in profiles && name !in todo ==> ValidName(name) && ValidProfile(profiles[name])
      decreases |todo|
    {
      var name :| name in todo;
      todo := todo - {name};
      if !ValidName(name) || !ValidProfile(profiles[name]) { return false; }
    }
    ok := true;
  }

  method ValidateHosts(hosts: map<string, HostPatch>, source: Source) returns (ok: bool)
    ensures ok <==> forall name :: name in hosts ==> ValidName(name) && ValidHost(hosts[name], source)
  {
    var todo := hosts.Keys;
    while todo != {}
      invariant todo <= hosts.Keys
      invariant forall name :: name in hosts && name !in todo ==> ValidName(name) && ValidHost(hosts[name], source)
      decreases |todo|
    {
      var name :| name in todo;
      todo := todo - {name};
      if !ValidName(name) || !ValidHost(hosts[name], source) { return false; }
    }
    ok := true;
  }

  /** The profiles named so far are merged, the others are as they were. */
  ghost function MergedSoFar(before: map<string, ProfilePatch>, patches: map<string, ProfilePatch>, names: set<string>): map<string, ProfilePatch>
    requires names <= patches.Keys
  {
    map name | name in before.Keys + names :: if name in names then Merge(At(before, name, EMPTY_PATCH), patches[name]) else before[name]
  }

  lemma MergedStep(before: map<string, ProfilePatch>, patches: map<string, ProfilePatch>, names: set<string>, name: string)
    requires names <= patches.Keys && name in patches && name !in names
    ensures var soFar := MergedSoFar(before, patches, names);
            MergedSoFar(before, patches, names + {name}) == soFar[name := Merge(At(soFar, name, EMPTY_PATCH), patches[name])]
  {}

  lemma MergedAll(before: map<string, ProfilePatch>, patches: map<string, ProfilePatch>, names: set<string>)
    requires names == patches.Keys
    ensures MergedSoFar(before, patches, names) == MergeProfiles(before, patches)
  {}

  class EffectiveConfig {
    const profile: string
    var backend: string
    var model: Option<string>
    var mode: string
    var stateDir: string
    var database: string
    var defaultHost: string
    var provider: Provider
    var cleanup: Cleanup
    var permission: Permission
    const hosts: map<string, Host>

    function Contents(): Effective
      reads this
    {
      Effective(profile, backend, model, mode, stateDir, database, defaultHost, provider, cleanup, permission, hosts)
    }

    constructor (e: Effective)
      ensures Contents() == e
    {
      profile, backend, model, mode, stateDir, database := e.profile, e.backend, e.model, e.mode, e.stateDir, e.database;
      defaultHost, provider, cleanup, permission, hosts := e.defaultHost, e.provider, e.cleanup, e.permission, e.hosts;
    }

    /** The fields whose overrides are checked before they are taken. */
    method ApplyChecked(o: Overrides, env: Environment) returns (ok: bool)
      modifies this`backend, this`model, this`mode, this`stateDir, this`database, this`defaultHost
      ensures ok == OverridesOk(o, env)
      ensures ok ==> backend == OrElse(o.backend, old(backend)) && model == Or(o.model, old(model)) && mode == OrElse(o.mode, old(mode))
      ensures ok ==> stateDir == if o.stateDir.Some? then Expand(o.stateDir.value, env).value else old(stateDir)
      ensures ok ==> database == if o.database.Some? then Expand(o.database.value, env).value else old(database)
      ensures ok ==> defaultHost == OrElse(o.defaultHost, old(defaultHost))
    {
      if o.backend.Some? {
        if !NonEmpty(o.backend.value) { return false; }
        backend := o.backend.value;
      }
      if o.model.Some? {
        if !NonEmpty(o.model.value) { return false; }
        model := o.model;
      }
      if o.mode.Some? {
        if !ValidMode(o.mode.value) { return false; }
        mode := o.mode.value;
      }
      if o.stateDir.Some? {
        var path := Expand(o.stateDir.value, env);
        if path.Err? { return false; }
        stateDir := path.value;
      }
      if o.database.Some? {
        var path := Expand(o.database.value, env);
        if path.Err? { return false; }
        database := path.value;
      }
      if o.defaultHost.Some? {
        if !NonEmpty(o.defaultHost.value) { return false; }
        defaultHost := o.defaultHost.value;
      }
      ok := true;
    }

    method ApplyOverrides(o: Overrides, env: Environment) returns (ok: bool)
      modifies this
      ensures ok == Config.ApplyOverrides(old(Contents()), o, env).Ok?
      ensures ok ==> Contents() == Config.ApplyOverrides(old(Contents()), o, env).value
    {
      var valid := ApplyChecked(o, env);
      if !valid { return false; }
      if o.provider.Some? { provider := o.provider.value; }
      if o.cleanup.Some? { cleanup := o.cleanup.value; }
      if o.permission.Some? { permission := o.permission.value; }
      ok := defaultHost in hosts;
    }
  }

  /** The documents, weakest first. */
  method MergeDocuments(user: Option<Document>, project: Option<Document>) returns (ok: bool, merged: MergedConfig)
    ensures fresh(merged)
    ensures ok == (MergeOptional(SYNTHETIC, user, User).Ok? && MergeOptional(MergeOptional(SYNTHETIC, user, User).value, project, Project).Ok?)
    ensures ok ==> merged.Contents() == MergeOptional(MergeOptional(SYNTHETIC, user, User).value, project, Project).value
  {
    merged := new MergedConfig.SyntheticDefault();
    ok := true;
    if user.Some? { ok := merged.MergeDocument(user.value, User); }
    if ok && project.Some? { ok := merged.MergeDocument(project.value, Project); }
  }

  /** The two rounds of field overrides. */
  method OverrideFields(x: Inputs, early: Effective) returns (result: Outcome<Effective>)
    ensures result == ApplyFields(x, early)
  {
    var effective := new EffectiveConfig(early);
    var ok := effective.ApplyOverrides(WithoutPaths(x.envFields), x.env);
    if !ok { return Err; }
    ok := effective.ApplyOverrides(WithoutPaths(x.cli), x.env);
    result := if ok then Ok(effective.Contents()) else Err;
  }

  method LoadEffectiveConfig(x: Inputs) returns (result: Outcome<Effective>)
    ensures result == Load(x)
  {
    var ok, merged := MergeDocuments(x.user, x.project);
    if !ok { return Err; }
    var selected := OrElse(Or(x.profile, x.envProfile), merged.defaultProfile);
    if !ValidName(selected) { return Err; }
    var early := IntoEffective(merged.Contents(), selected, x.env, PathOverrides(x.envFields, x.cli));
    if early.Err? { return Err; }
    result := OverrideFields(x, early.value);
  }
}
