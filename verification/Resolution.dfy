/** clients/devbox/src/spec/references.ts: every name a project or a default points at. */
module SpecModel {
  import opened Wrappers

  datatype Engine = PodmanRootless | DockerRootless | NoEngine

  datatype Profile = Profile(memorySpace: Option<string>)

  datatype Memory = Memory(enabled: Option<bool>, defaultSpace: Option<string>, spaces: seq<string>)

  datatype Project = Project(name: string, gitIdentity: Option<string>, agentProfile: Option<string>,
                             memorySpace: Option<string>, containerEngine: Option<Engine>)

  /** `profileNames`: the keys of `profiles`, as `Object.keys` lists them. */
  datatype Developer = Developer(user: string, identities: seq<string>, profileNames: seq<string>, profiles: map<string, Profile>,
                                 defaultIdentity: Option<string>, defaultProfile: Option<string>, memory: Option<Memory>,
                                 containerEngine: Option<Engine>, projects: seq<Project>)

  datatype Spec = Spec(installedEngines: seq<Engine>, defaultEngine: Option<Engine>, developers: seq<Developer>)

  predicate Keyed(dev: Developer) {
    (forall n | n in dev.profileNames :: n in dev.profiles) && (forall n | n in dev.profiles :: n in dev.profileNames)
  }

  /** A value JavaScript takes for true: present and not empty. */
  predicate Given(o: Option<string>) {
    o.Some? && o.value != ""
  }

  function Spaces(dev: Developer): seq<string> {
    if dev.memory.Some? then dev.memory.value.spaces else []
  }

  // ── References ────────────────────────────────────────────────────────────

  predicate Declared(o: Option<string>, names: seq<string>) {
    Given(o) ==> o.value in names
  }

  /** `none` is a literal. */
  predicate SpaceDeclared(o: Option<string>, spaces: seq<string>) {
    Given(o) ==> o.value == "none" || o.value in spaces
  }

  predicate Installed(spec: Spec, engine: Option<Engine>) {
    engine.Some? ==> engine.value.NoEngine? || engine.value in spec.installedEngines
  }

  predicate DefaultsRefer(spec: Spec, dev: Developer) {
    && Declared(dev.defaultIdentity, dev.identities)
    && Declared(dev.defaultProfile, dev.profileNames)
    && (dev.memory.Some? ==> SpaceDeclared(dev.memory.value.defaultSpace, Spaces(dev)))
    && (forall n | n in dev.profileNames && n in dev.profiles :: SpaceDeclared(dev.profiles[n].memorySpace, Spaces(dev)))
    && Installed(spec, dev.containerEngine)
  }

  predicate ProjectRefers(spec: Spec, dev: Developer, p: Project) {
    && Declared(p.gitIdentity, dev.identities)
    && Declared(p.agentProfile, dev.profileNames)
    && SpaceDeclared(p.memorySpace, Spaces(dev))
    && Installed(spec, p.containerEngine)
  }

  /** No two of the first `n` names are the same. */
  predicate Distinct(names: seq<string>, n: nat)
    requires n <= |names|
  {
    forall i, j | 0 <= i < j < n :: names[i] != names[j]
  }

  function Users(spec: Spec): seq<string> {
    seq(|spec.developers|, i requires 0 <= i < |spec.developers| => spec.developers[i].user)
  }

  function ProjectNames(dev: Developer): seq<string> {
    seq(|dev.projects|, j requires 0 <= j < |dev.projects| => dev.projects[j].name)
  }

  predicate DevelopersRefer(spec: Spec, n: nat)
    requires n <= |spec.developers|
  {
    forall i | 0 <= i < n :: DeveloperRefers(spec, spec.developers[i])
  }

  predicate ProjectsRefer(spec: Spec, dev: Developer, n: nat)
    requires n <= |dev.projects|
  {
    forall j | 0 <= j < n :: ProjectRefers(spec, dev, dev.projects[j])
  }

  /** What a specification without reference errors satisfies. */
  predicate References(spec: Spec) {
    Distinct(Users(spec), |spec.developers|) && DevelopersRefer(spec, |spec.developers|)
  }

  predicate DeveloperRefers(spec: Spec, dev: Developer) {
    && DefaultsRefer(spec, dev)
    && Distinct(ProjectNames(dev), |dev.projects|) && ProjectsRefer(spec, dev, |dev.projects|)
  }

  // ── The same, name by name ────────────────────────────────────────────────

  /** The users differ, and so do each developer's projects; every identity, profile and engine
      named is one of those declared or installed, and every space declared or the literal
      `none`. */
  predicate EveryNameHolds(spec: Spec) {
    && (forall i, j | 0 <= i < j < |spec.developers| :: spec.developers[i].user != spec.developers[j].user)
    && forall dev | dev in spec.developers :: DeveloperHolds(spec, dev)
  }

  predicate NameHolds(o: Option<string>, names: seq<string>) {
    o == None || o == Some("") || exists i | 0 <= i < |names| :: o == Some(names[i])
  }

  predicate EngineHolds(spec: Spec, engine: Option<Engine>) {
    engine == None || engine == Some(NoEngine) || exists i | 0 <= i < |spec.installedEngines| :: engine == Some(spec.installedEngines[i])
  }

  function SpaceKeys(dev: Developer): seq<string> {
    match dev.memory
    case None => []
    case Some(m) => m.spaces
  }

  lemma NameHoldsMeans(o: Option<string>, names: seq<string>)
    ensures NameHolds(o, names) <==> Declared(o, names)
    ensures NameHolds(o, ["none"] + names) <==> SpaceDeclared(o, names)
  {
    var all := ["none"] + names;
    assert all[0] == "none" && forall n :: n in all <==> n == "none" || n in names;
    if Given(o) {
      assert o.value in names ==> exists i | 0 <= i < |names| :: o == Some(names[i]);
      assert o.value in all ==> exists i | 0 <= i < |all| :: o == Some(all[i]);
    }
  }

  lemma EngineHoldsMeans(spec: Spec, engine: Option<Engine>)
    ensures EngineHolds(spec, engine) <==> Installed(spec, engine)
  {
  }

  lemma ProjectHolds(spec: Spec, dev: Developer, p: Project)
    ensures ProjectRefers(spec, dev, p) <==> ProjectHoldsIn(spec, dev, p)
  {
    NameHoldsMeans(p.gitIdentity, dev.identities);
    NameHoldsMeans(p.agentProfile, dev.profileNames);
    NameHoldsMeans(p.memorySpace, SpaceKeys(dev));
    EngineHoldsMeans(spec, p.containerEngine);
  }

  lemma DefaultsHold(spec: Spec, dev: Developer)
    requires Keyed(dev)
    ensures DefaultsRefer(spec, dev) <==>
              && NameHolds(dev.defaultIdentity, dev.identities) && NameHolds(dev.defaultProfile, dev.profileNames)
              && (dev.memory.Some? ==> NameHolds(dev.memory.value.defaultSpace, ["none"] + dev.memory.value.spaces))
              && (forall n | n in dev.profiles :: NameHolds(dev.profiles[n].memorySpace, ["none"] + SpaceKeys(dev)))
              && EngineHolds(spec, dev.containerEngine)
  {
    NameHoldsMeans(dev.defaultIdentity, dev.identities);
    NameHoldsMeans(dev.defaultProfile, dev.profileNames);
    if dev.memory.Some? {
      NameHoldsMeans(dev.memory.value.defaultSpace, dev.memory.value.spaces);
    }
    forall n | n in dev.profiles
      ensures NameHolds(dev.profiles[n].memorySpace, ["none"] + SpaceKeys(dev)) <==> SpaceDeclared(dev.profiles[n].memorySpace, Spaces(dev))
    {
      NameHoldsMeans(dev.profiles[n].memorySpace, SpaceKeys(dev));
    }
    EngineHoldsMeans(spec, dev.containerEngine);
  }

  predicate DeveloperHolds(spec: Spec, dev: Developer) {
    && (forall i, j | 0 <= i < j < |dev.projects| :: dev.projects[i].name != dev.projects[j].name)
    && NameHolds(dev.defaultIdentity, dev.identities) && NameHolds(dev.defaultProfile, dev.profileNames)
    && (dev.memory.Some? ==> NameHolds(dev.memory.value.defaultSpace, ["none"] + dev.memory.value.spaces))
    && (forall n | n in dev.profiles :: NameHolds(dev.profiles[n].memorySpace, ["none"] + SpaceKeys(dev)))
    && EngineHolds(spec, dev.containerEngine)
    && forall p | p in dev.projects :: ProjectHoldsIn(spec, dev, p)
  }

  predicate ProjectHoldsIn(spec: Spec, dev: Developer, p: Project) {
    && NameHolds(p.gitIdentity, dev.identities) && NameHolds(p.agentProfile, dev.profileNames)
    && NameHolds(p.memorySpace, ["none"] + SpaceKeys(dev)) && EngineHolds(spec, p.containerEngine)
  }

  lemma DeveloperHoldsMeans(spec: Spec, dev: Developer)
    requires Keyed(dev)
    ensures DeveloperRefers(spec, dev) <==> DeveloperHolds(spec, dev)
  {
    DefaultsHold(spec, dev);
    forall p | p in dev.projects
      ensures ProjectRefers(spec, dev, p) <==> ProjectHoldsIn(spec, dev, p)
    {
      ProjectHolds(spec, dev, p);
    }
    NamesDiffer(dev);
  }

  lemma NamesDiffer(dev: Developer)
    ensures Distinct(ProjectNames(dev), |dev.projects|) <==> forall i, j | 0 <= i < j < |dev.projects| :: dev.projects[i].name != dev.projects[j].name
  {
    assert forall i | 0 <= i < |dev.projects| :: ProjectNames(dev)[i] == dev.projects[i].name;
  }

  lemma UsersDiffer(spec: Spec)
    ensures Distinct(Users(spec), |spec.developers|) <==>
            forall i, j | 0 <= i < j < |spec.developers| :: spec.developers[i].user != spec.developers[j].user
  {
    assert forall i | 0 <= i < |spec.developers| :: Users(spec)[i] == spec.developers[i].user;
  }

  lemma ReferencesMeans(spec: Spec)
    requires forall d | d in spec.developers :: Keyed(d)
    ensures References(spec) <==> EveryNameHolds(spec)
  {
    UsersDiffer(spec);
    forall d | d in spec.developers ensures DeveloperRefers(spec, d) <==> DeveloperHolds(spec, d) {
      DeveloperHoldsMeans(spec, d);
    }
  }

  datatype Issue =
    | DuplicateDeveloper(i: nat) | DuplicateProject(i: nat, j: nat)
    | BadDefault(i: nat, what: string) | BadReference(i: nat, j: nat, what: string)
    | BadProfileSpace(i: nat, profile: string)

  // ── What is reported ──────────────────────────────────────────────────────

  predicate DefaultIsBad(spec: Spec, dev: Developer, what: string) {
    || (what == "default_git_identity" && !NameHolds(dev.defaultIdentity, dev.identities))
    || (what == "default_agent_profile" && !NameHolds(dev.defaultProfile, dev.profileNames))
    || (what == "memory.default_space" && dev.memory.Some? && !NameHolds(dev.memory.value.defaultSpace, ["none"] + dev.memory.value.spaces))
    || (what == "container_engine" && !EngineHolds(spec, dev.containerEngine))
  }

  predicate ReferenceIsBad(spec: Spec, dev: Developer, p: Project, what: string) {
    || (what == "git_identity" && !NameHolds(p.gitIdentity, dev.identities))
    || (what == "agent_profile" && !NameHolds(p.agentProfile, dev.profileNames))
    || (what == "memory_space" && !NameHolds(p.memorySpace, ["none"] + SpaceKeys(dev)))
    || (what == "container_engine" && !EngineHolds(spec, p.containerEngine))
  }

  predicate ProfileIsBad(dev: Developer, n: string) {
    n in dev.profiles && !NameHolds(dev.profiles[n].memorySpace, ["none"] + SpaceKeys(dev))
  }

  /** What there is to report: a user or project named before, or a name or engine that does not
      hold, each at its place. */
  predicate TrueOf(spec: Spec, x: Issue) {
    && x.i < |spec.developers|
    && var dev := spec.developers[x.i];
       match x
       case DuplicateDeveloper(i) => exists k | 0 <= k < i :: spec.developers[k].user == dev.user
       case DuplicateProject(_, j) => j < |dev.projects| && exists k | 0 <= k < j :: dev.projects[k].name == dev.projects[j].name
       case BadDefault(_, what) => DefaultIsBad(spec, dev, what)
       case BadReference(_, j, what) => j < |dev.projects| && ReferenceIsBad(spec, dev, dev.projects[j], what)
       case BadProfileSpace(_, n) => ProfileIsBad(dev, n)
  }

  method DefaultIssues(spec: Spec, i: nat) returns (issues: seq<Issue>)
    requires i < |spec.developers| && Keyed(spec.developers[i])
    ensures forall x :: x in issues <==> x.i == i && (x.BadDefault? || x.BadProfileSpace?) && TrueOf(spec, x)
  {
    var dev := spec.developers[i];
    DefaultNamesMean(spec, dev);
    issues := [];
    if !Declared(dev.defaultIdentity, dev.identities) { issues := issues + [BadDefault(i, "default_git_identity")]; }
    if !Declared(dev.defaultProfile, dev.profileNames) { issues := issues + [BadDefault(i, "default_agent_profile")]; }
    if dev.memory.Some? && !SpaceDeclared(dev.memory.value.defaultSpace, Spaces(dev)) {
      issues := issues + [BadDefault(i, "memory.default_space")];
    }
    if !Installed(spec, dev.containerEngine) { issues := issues + [BadDefault(i, "container_engine")]; }
    assert forall x :: x in issues <==> x.i == i && x.BadDefault? && TrueOf(spec, x);
    var more := ProfileIssues(spec, i);
    issues := issues + more;
  }

  lemma DefaultNamesMean(spec: Spec, dev: Developer)
    ensures Declared(dev.defaultIdentity, dev.identities) <==> NameHolds(dev.defaultIdentity, dev.identities)
    ensures Declared(dev.defaultProfile, dev.profileNames) <==> NameHolds(dev.defaultProfile, dev.profileNames)
    ensures dev.memory.Some? ==> (SpaceDeclared(dev.memory.value.defaultSpace, Spaces(dev)) <==> NameHolds(dev.memory.value.defaultSpace, ["none"] + dev.memory.value.spaces))
    ensures Installed(spec, dev.containerEngine) <==> EngineHolds(spec, dev.containerEngine)
  {
    NameHoldsMeans(dev.defaultIdentity, dev.identities);
    NameHoldsMeans(dev.defaultProfile, dev.profileNames);
    if dev.memory.Some? {
      NameHoldsMeans(dev.memory.value.defaultSpace, dev.memory.value.spaces);
    }
    EngineHoldsMeans(spec, dev.containerEngine);
  }

  method ProfileIssues(spec: Spec, i: nat) returns (issues: seq<Issue>)
    requires i < |spec.developers| && Keyed(spec.developers[i])
    ensures forall x :: x in issues <==> x.i == i && x.BadProfileSpace? && TrueOf(spec, x)
  {
    var dev := spec.developers[i];
    issues := [];
    for k := 0 to |dev.profileNames|
      invariant forall x :: x in issues <==> x.BadProfileSpace? && x.i == i && x.profile in dev.profileNames[..k] && ProfileIsBad(dev, x.profile)
    {
      var n := dev.profileNames[k];
      NameHoldsMeans(dev.profiles[n].memorySpace, SpaceKeys(dev));
      assert dev.profileNames[..k + 1] == dev.profileNames[..k] + [n];
      if !SpaceDeclared(dev.profiles[n].memorySpace, Spaces(dev)) { issues := issues + [BadProfileSpace(i, n)]; }
    }
    assert dev.profileNames[..|dev.profileNames|] == dev.profileNames;
  }

  method ReferenceIssues(spec: Spec, i: nat, j: nat) returns (issues: seq<Issue>)
    requires i < |spec.developers| && j < |spec.developers[i].projects|
    ensures forall x :: x in issues <==> x.BadReference? && x.i == i && x.j == j && TrueOf(spec, x)
  {
    var dev, p := spec.developers[i], spec.developers[i].projects[j];
    ReferenceNamesMean(spec, dev, p);
    issues := [];
    if !Declared(p.gitIdentity, dev.identities) { issues := issues + [BadReference(i, j, "git_identity")]; }
    if !Declared(p.agentProfile, dev.profileNames) { issues := issues + [BadReference(i, j, "agent_profile")]; }
    if !SpaceDeclared(p.memorySpace, Spaces(dev)) { issues := issues + [BadReference(i, j, "memory_space")]; }
    if !Installed(spec, p.containerEngine) { issues := issues + [BadReference(i, j, "container_engine")]; }
  }

  lemma ReferenceNamesMean(spec: Spec, dev: Developer, p: Project)
    ensures Declared(p.gitIdentity, dev.identities) <==> NameHolds(p.gitIdentity, dev.identities)
    ensures Declared(p.agentProfile, dev.profileNames) <==> NameHolds(p.agentProfile, dev.profileNames)
    ensures SpaceDeclared(p.memorySpace, Spaces(dev)) <==> NameHolds(p.memorySpace, ["none"] + SpaceKeys(dev))
    ensures Installed(spec, p.containerEngine) <==> EngineHolds(spec, p.containerEngine)
  {
    NameHoldsMeans(p.gitIdentity, dev.identities);
    NameHoldsMeans(p.agentProfile, dev.profileNames);
    NameHoldsMeans(p.memorySpace, SpaceKeys(dev));
    EngineHoldsMeans(spec, p.containerEngine);
  }

  method ProjectIssues(spec: Spec, i: nat) returns (issues: seq<Issue>)
    requires i < |spec.developers|
    ensures forall x :: x in issues <==> x.i == i && (x.DuplicateProject? || x.BadReference?) && TrueOf(spec, x)
  {
    var dev := spec.developers[i];
    issues := [];
    var seen: set<string> := {};
    for j := 0 to |dev.projects|
      invariant forall n :: n in seen <==> exists k | 0 <= k < j :: dev.projects[k].name == n
      invariant forall x :: x in issues <==> x.i == i && (x.DuplicateProject? || x.BadReference?) && x.j < j && TrueOf(spec, x)
    {
      if dev.projects[j].name in seen { issues := issues + [DuplicateProject(i, j)]; }
      seen := seen + {dev.projects[j].name};
      var more := ReferenceIssues(spec, i, j);
      issues := issues + more;
    }
  }

  /** `validateReferences`, as far as names and engines go: everything there is to report is
      reported, and nothing else; so there is no issue exactly when every reference holds. */
  method ValidateReferences(spec: Spec) returns (issues: seq<Issue>)
    requires forall d | d in spec.developers :: Keyed(d)
    ensures forall x :: x in issues <==> TrueOf(spec, x)
    ensures issues == [] <==> References(spec)
    ensures issues == [] <==> EveryNameHolds(spec)
  {
    issues := [];
    var seen: set<string> := {};
    for i := 0 to |spec.developers|
      invariant forall n :: n in seen <==> exists k | 0 <= k < i :: spec.developers[k].user == n
      invariant forall x :: x in issues <==> x.i < i && TrueOf(spec, x)
    {
      if spec.developers[i].user in seen { issues := issues + [DuplicateDeveloper(i)]; }
      seen := seen + {spec.developers[i].user};
      var more := DeveloperIssues(spec, i);
      issues := issues + more;
    }
    ReferencesMeans(spec);
    NothingToReport(spec);
    if issues != [] {
      assert issues[0] in issues;
    }
  }

  method DeveloperIssues(spec: Spec, i: nat) returns (issues: seq<Issue>)
    requires i < |spec.developers| && forall d | d in spec.developers :: Keyed(d)
    ensures forall x :: x in issues <==> x.i == i && !x.DuplicateDeveloper? && TrueOf(spec, x)
  {
    assert spec.developers[i] in spec.developers;
    var defaults := DefaultIssues(spec, i);
    var projects := ProjectIssues(spec, i);
    return defaults + projects;
  }

  ghost predicate ReportsNothing(spec: Spec, i: nat) {
    forall x: Issue | x.i == i && !x.DuplicateDeveloper? :: !TrueOf(spec, x)
  }

  lemma SilentHolds(spec: Spec, i: nat)
    requires i < |spec.developers| && ReportsNothing(spec, i)
    ensures DeveloperHolds(spec, spec.developers[i])
  {
    var dev := spec.developers[i];
    assert !TrueOf(spec, BadDefault(i, "default_git_identity")) && !TrueOf(spec, BadDefault(i, "default_agent_profile"));
    assert !TrueOf(spec, BadDefault(i, "memory.default_space")) && !TrueOf(spec, BadDefault(i, "container_engine"));
    forall n | n in dev.profiles ensures !ProfileIsBad(dev, n) {
      assert !TrueOf(spec, BadProfileSpace(i, n));
    }
    forall k: nat, j: nat | k < j < |dev.projects| ensures dev.projects[k].name != dev.projects[j].name {
      assert !TrueOf(spec, DuplicateProject(i, j));
    }
    forall p | p in dev.projects ensures ProjectHoldsIn(spec, dev, p) {
      var j: nat :| j < |dev.projects| && dev.projects[j] == p;
      ProjectReports(spec, i, j);
    }
  }

  lemma HoldsSilent(spec: Spec, i: nat, x: Issue)
    requires i < |spec.developers| && DeveloperHolds(spec, spec.developers[i]) && x.i == i && !x.DuplicateDeveloper?
    ensures !TrueOf(spec, x)
  {
    var dev := spec.developers[i];
    assert x.BadReference? && x.j < |dev.projects| ==> dev.projects[x.j] in dev.projects;
  }

  lemma DeveloperReports(spec: Spec, i: nat)
    requires i < |spec.developers|
    ensures DeveloperHolds(spec, spec.developers[i]) <==> ReportsNothing(spec, i)
  {
    if ReportsNothing(spec, i) {
      SilentHolds(spec, i);
    } else if DeveloperHolds(spec, spec.developers[i]) {
      var x: Issue :| x.i == i && !x.DuplicateDeveloper? && TrueOf(spec, x);
      HoldsSilent(spec, i, x);
    }
  }

  lemma ProjectReports(spec: Spec, i: nat, j: nat)
    requires i < |spec.developers| && j < |spec.developers[i].projects| && ReportsNothing(spec, i)
    ensures ProjectHoldsIn(spec, spec.developers[i], spec.developers[i].projects[j])
  {
    assert !TrueOf(spec, BadReference(i, j, "git_identity")) && !TrueOf(spec, BadReference(i, j, "agent_profile"));
    assert !TrueOf(spec, BadReference(i, j, "memory_space")) && !TrueOf(spec, BadReference(i, j, "container_engine"));
  }

  lemma NothingToReport(spec: Spec)
    ensures EveryNameHolds(spec) <==> forall x :: !TrueOf(spec, x)
  {
    forall i: nat | i < |spec.developers|
      ensures DeveloperHolds(spec, spec.developers[i]) <==> ReportsNothing(spec, i)
    {
      DeveloperReports(spec, i);
    }
    if forall x :: !TrueOf(spec, x) {
      forall k: nat, i: nat | k < i < |spec.developers| ensures spec.developers[k].user != spec.developers[i].user {
        assert !TrueOf(spec, DuplicateDeveloper(i));
      }
      forall d | d in spec.developers ensures DeveloperHolds(spec, d) {
        var i: nat :| i < |spec.developers| && spec.developers[i] == d;
      }
    } else {
      var x :| TrueOf(spec, x);
      assert spec.developers[x.i] in spec.developers;
    }
  }
}

/** clients/devbox/src/spec/references.ts, `portIssues`: host ports claimed by projects. */
module PortClaims {
  const RESERVED_PORTS := {22, 2022, 3389}

  datatype Claim = Claim(port: nat, path: string, owner: string)

  /** `at`: the claim it is about; `others`: the claims of the same port, none for a reserved one. */
  datatype PortIssue = PortIssue(at: nat, others: seq<nat>)

  /** Another claim of the same port. */
  predicate Contested(claims: seq<Claim>, i: nat)
    requires i < |claims|
  {
    exists j | 0 <= j < |claims| && j != i :: claims[j].port == claims[i].port
  }

  /** The claims of a port, by position. */
  ghost predicate Lists(claims: seq<Claim>, n: nat, byPort: map<nat, seq<nat>>)
    requires n <= |claims|
  {
    && (forall p | p in byPort :: forall i | i in byPort[p] :: i < n && claims[i].port == p)
    && (forall i | 0 <= i < n :: claims[i].port in byPort && i in byPort[claims[i].port])
  }

  method ByPort(claims: seq<Claim>) returns (byPort: map<nat, seq<nat>>)
    ensures Lists(claims, |claims|, byPort)
  {
    byPort := map[];
    for i := 0 to |claims|
      invariant Lists(claims, i, byPort)
    {
      var p := claims[i].port;
      byPort := byPort[p := (if p in byPort then byPort[p] else []) + [i]];
    }
  }

  method Except(list: seq<nat>, i: nat) returns (others: seq<nat>)
    ensures forall j :: j in others <==> j in list && j != i
  {
    others := [];
    for k := 0 to |list|
      invariant forall j :: j in others <==> j in list[..k] && j != i
    {
      assert list[..k + 1] == list[..k] + [list[k]];
      if list[k] != i { others := others + [list[k]]; }
    }
    assert list[..|list|] == list;
  }

  predicate Wrong(claims: seq<Claim>, i: nat)
    requires i < |claims|
  {
    claims[i].port in RESERVED_PORTS || Contested(claims, i)
  }

  /** Exactly the other claims of the port. */
  ghost predicate AllOthers(claims: seq<Claim>, i: nat, others: seq<nat>)
    requires i < |claims|
  {
    && (forall j | j in others :: j < |claims| && j != i && claims[j].port == claims[i].port)
    && (forall j: nat | j < |claims| && j != i && claims[j].port == claims[i].port :: j in others)
  }

  lemma OthersContest(claims: seq<Claim>, i: nat, others: seq<nat>)
    requires i < |claims| && AllOthers(claims, i, others)
    ensures others != [] <==> Contested(claims, i)
  {
    if others != [] {
      assert others[0] in others;
    }
  }

  /** A true report. */
  ghost predicate Sound(claims: seq<Claim>, x: PortIssue) {
    && x.at < |claims| && Wrong(claims, x.at)
    && (claims[x.at].port !in RESERVED_PORTS ==> AllOthers(claims, x.at, x.others))
  }

  ghost predicate Reported(claims: seq<Claim>, n: nat, issues: seq<PortIssue>)
    requires n <= |claims|
  {
    && (forall x | x in issues :: Sound(claims, x))
    && (forall i: nat | i < n && Wrong(claims, i) :: exists x | x in issues :: x.at == i)
  }

  lemma ReportOne(claims: seq<Claim>, n: nat, issues: seq<PortIssue>, x: PortIssue)
    requires n < |claims| && Reported(claims, n, issues) && Sound(claims, x) && x.at == n
    ensures Reported(claims, n + 1, issues + [x])
  {
    assert x in issues + [x];
    forall i: nat | i < n && Wrong(claims, i) ensures exists y | y in issues + [x] :: y.at == i {
      var y :| y in issues && y.at == i;
      assert y in issues + [x];
    }
  }

  /** A reserved port is reported, and a contested one on every claimant, each time with all
      the others. */
  method PortIssues(claims: seq<Claim>) returns (issues: seq<PortIssue>)
    ensures Reported(claims, |claims|, issues)
    ensures forall a, b | 0 <= a < b < |issues| :: issues[a].at < issues[b].at
  {
    var byPort := ByPort(claims);
    issues := [];
    for i := 0 to |claims|
      invariant Reported(claims, i, issues)
      invariant forall a, b | 0 <= a < b < |issues| :: issues[a].at < issues[b].at
      invariant forall a | 0 <= a < |issues| :: issues[a].at < i
    {
      if claims[i].port in RESERVED_PORTS {
        ReportOne(claims, i, issues, PortIssue(i, []));
        issues := issues + [PortIssue(i, [])];
        continue;
      }
      var others := Except(byPort[claims[i].port], i);
      OthersContest(claims, i, others);
      if others != [] {
        ReportOne(claims, i, issues, PortIssue(i, others));
        issues := issues + [PortIssue(i, others)];
      }
    }
  }

  /** No issue exactly when no port is reserved and all are distinct. */
  lemma CleanPorts(claims: seq<Claim>, issues: seq<PortIssue>)
    requires Reported(claims, |claims|, issues)
    ensures issues == [] <==>
            && (forall c | c in claims :: c.port != 22 && c.port != 2022 && c.port != 3389)
            && forall i, j | 0 <= i < j < |claims| :: claims[i].port != claims[j].port
  {
    if issues != [] {
      var i := issues[0].at;
      assert Sound(claims, issues[0]) && claims[i] in claims;
      if j :| 0 <= j < |claims| && j != i && claims[j].port == claims[i].port {
        assert if i < j then claims[i].port == claims[j].port else claims[j].port == claims[i].port;
      }
    } else {
      forall c | c in claims ensures c.port != 22 && c.port != 2022 && c.port != 3389 {
        var i: nat :| i < |claims| && claims[i] == c;
        assert !Wrong(claims, i);
      }
      forall i: nat, j: nat | i < j < |claims| ensures claims[i].port != claims[j].port {
        assert !Wrong(claims, i);
      }
    }
  }
}

/** clients/devbox/src/spec/resolve.ts: decisions instead of policy. */
module Resolution {
  import opened Wrappers
  import opened SpecModel

  /** Only `Ambiguous` carries an issue. */
  datatype Choice = Chosen(name: string) | Nothing | Ambiguous

  function ChooseNamed(over: Option<string>, fallback: Option<string>, available: seq<string>): Choice {
    if Given(over) then Chosen(over.value)
    else if Given(fallback) then Chosen(fallback.value)
    else if |available| == 1 then Chosen(available[0])
    else if |available| == 0 then Nothing
    else Ambiguous
  }

  function Unless(none: Option<string>): Choice
    requires none.Some?
  {
    if none.value == "none" then Nothing else Chosen(none.value)
  }

  function ResolveEngine(spec: Spec, dev: Developer, p: Project): Engine {
    if p.containerEngine.Some? then p.containerEngine.value
    else if dev.containerEngine.Some? then dev.containerEngine.value
    else if spec.defaultEngine.Some? then spec.defaultEngine.value
    else NoEngine
  }

  function ResolveIdentity(dev: Developer, p: Project): Choice {
    ChooseNamed(p.gitIdentity, dev.defaultIdentity, dev.identities)
  }

  function ResolveProfile(dev: Developer, p: Project): Choice {
    ChooseNamed(p.agentProfile, dev.defaultProfile, dev.profileNames)
  }

  function ProfileSpace(dev: Developer, profile: Choice): Option<string> {
    if profile.Chosen? && profile.name in dev.profiles then dev.profiles[profile.name].memorySpace else None
  }

  predicate MemoryOn(dev: Developer) {
    dev.memory.Some? && dev.memory.value.enabled == Some(true)
  }

  function ResolveSpace(dev: Developer, p: Project, profile: Choice): Choice {
    if !MemoryOn(dev) then Nothing
    else if Given(p.memorySpace) then Unless(p.memorySpace)
    else if Given(ProfileSpace(dev, profile)) then Unless(ProfileSpace(dev, profile))
    else ChooseNamed(None, dev.memory.value.defaultSpace, dev.memory.value.spaces)
  }

  datatype ResolvedProject = ResolvedProject(name: string, identity: Choice, profile: Choice, engine: Engine, space: Choice)

  function Resolve(spec: Spec, dev: Developer, p: Project): ResolvedProject {
    var profile := ResolveProfile(dev, p);
    ResolvedProject(p.name, ResolveIdentity(dev, p), profile, ResolveEngine(spec, dev, p), ResolveSpace(dev, p, profile))
  }

  // ── Closure ───────────────────────────────────────────────────────────────

  predicate Among(c: Choice, names: seq<string>) {
    c.Chosen? ==> c.name in names
  }

  /** The literal `none` as a default space is the one name that passes through undeclared. */
  predicate PassesNone(dev: Developer, p: Project) {
    && MemoryOn(dev) && !Given(p.memorySpace) && !Given(ProfileSpace(dev, ResolveProfile(dev, p)))
    && dev.memory.value.defaultSpace == Some("none")
  }

  lemma ChoiceIsDeclared(over: Option<string>, fallback: Option<string>, available: seq<string>)
    requires Declared(over, available) && Declared(fallback, available)
    ensures Among(ChooseNamed(over, fallback, available), available)
  {
  }

  /** No default is given and the only space declared is one that is called `none`. */
  predicate SoleSpaceIsNone(dev: Developer, p: Project) {
    && MemoryOn(dev) && !Given(p.memorySpace) && !Given(ProfileSpace(dev, ResolveProfile(dev, p)))
    && !Given(dev.memory.value.defaultSpace) && dev.memory.value.spaces == ["none"]
  }

  lemma SpaceIsDeclared(spec: Spec, dev: Developer, p: Project)
    requires Keyed(dev) && DefaultsRefer(spec, dev) && ProjectRefers(spec, dev, p)
    ensures var space := Resolve(spec, dev, p).space;
            && (space.Chosen? ==> space.name in Spaces(dev) || (space.name == "none" && PassesNone(dev, p)))
            && (space == Chosen("none") <==> PassesNone(dev, p) || SoleSpaceIsNone(dev, p))
  {
    var profile := ResolveProfile(dev, p);
    if profile.Chosen? && profile.name in dev.profiles {
      assert profile.name in dev.profileNames;
    }
    var space := ResolveSpace(dev, p, profile);
    if MemoryOn(dev) && !Given(p.memorySpace) && !Given(ProfileSpace(dev, profile)) {
      var d, spaces := dev.memory.value.defaultSpace, dev.memory.value.spaces;
      assert Given(d) ==> d == Some(d.value);
      if |spaces| == 1 {
        assert spaces == [spaces[0]];
      }
    }
  }

  /** Once references hold and the default engine is installed or none, whatever a project
      resolves to exists. */
  lemma ResolvedIsDeclared(spec: Spec, i: nat, j: nat)
    requires References(spec) && Installed(spec, spec.defaultEngine)
    requires i < |spec.developers| && Keyed(spec.developers[i]) && j < |spec.developers[i].projects|
    ensures var dev := spec.developers[i];
            var r := Resolve(spec, dev, dev.projects[j]);
            && Among(r.identity, dev.identities) && Among(r.profile, dev.profileNames)
            && (r.engine.NoEngine? || r.engine in spec.installedEngines)
            && (r.space.Chosen? ==> r.space.name in Spaces(dev) || (r.space.name == "none" && PassesNone(dev, dev.projects[j])))
  {
    var dev := spec.developers[i];
    var p := dev.projects[j];
    assert DeveloperRefers(spec, dev) && ProjectRefers(spec, dev, p);
    ChoiceIsDeclared(p.gitIdentity, dev.defaultIdentity, dev.identities);
    ChoiceIsDeclared(p.agentProfile, dev.defaultProfile, dev.profileNames);
    SpaceIsDeclared(spec, dev, p);
  }

  // ── Ambiguity ─────────────────────────────────────────────────────────────

  /** Two candidates or more, and nothing that picks one. */
  predicate Unpicked(over: Option<string>, fallback: Option<string>, available: seq<string>) {
    !Given(over) && !Given(fallback) && |available| >= 2
  }

  predicate IsAmbiguous(dev: Developer, p: Project) {
    || Unpicked(p.gitIdentity, dev.defaultIdentity, dev.identities)
    || Unpicked(p.agentProfile, dev.defaultProfile, dev.profileNames)
    || (MemoryOn(dev) && !Given(p.memorySpace) && !Given(ProfileSpace(dev, ResolveProfile(dev, p)))
          && Unpicked(None, dev.memory.value.defaultSpace, dev.memory.value.spaces))
  }

  /** What nothing decides, and for which project. */
  datatype Undecided = Undecided(i: nat, j: nat, what: string)

  function IssuesOf(i: nat, j: nat, r: ResolvedProject): seq<Undecided> {
    (if r.identity.Ambiguous? then [Undecided(i, j, "git_identity")] else [])
    + (if r.profile.Ambiguous? then [Undecided(i, j, "agent_profile")] else [])
    + (if r.space.Ambiguous? then [Undecided(i, j, "memory_space")] else [])
  }

  lemma AmbiguousWhen(spec: Spec, dev: Developer, p: Project)
    ensures var r := Resolve(spec, dev, p); r.identity.Ambiguous? || r.profile.Ambiguous? || r.space.Ambiguous? <==> IsAmbiguous(dev, p)
  {
    var r := Resolve(spec, dev, p);
    assert r.space.Ambiguous? ==> MemoryOn(dev);
  }

  // ── The chains ────────────────────────────────────────────────────────────

  /** The project's own choice, else the developer's default, else the only one there is, else
      none if there are none; otherwise nothing decides. An empty name is no choice. */
  predicate Chain(over: Option<string>, fallback: Option<string>, available: seq<string>, c: Choice) {
    && (over != None && over != Some("") ==> c == Chosen(over.value))
    && (over in {None, Some("")} && fallback != None && fallback != Some("") ==> c == Chosen(fallback.value))
    && (over in {None, Some("")} && fallback in {None, Some("")} ==>
          c == if |available| == 0 then Nothing else if |available| == 1 then Chosen(available[0]) else Ambiguous)
  }

  /** Off without memory; else the project's own, else what its profile asks for, `none` meaning
      no space in both; else the developer's chain. */
  predicate SpaceChain(dev: Developer, p: Project, profile: Choice, c: Choice) {
    var ofProfile := if profile.Chosen? && profile.name in dev.profiles then dev.profiles[profile.name].memorySpace else None;
    && ((dev.memory == None || dev.memory.value.enabled != Some(true)) ==> c == Nothing)
    && (dev.memory != None && dev.memory.value.enabled == Some(true) ==>
          && (p.memorySpace == Some("none") ==> c == Nothing)
          && (p.memorySpace !in {None, Some(""), Some("none")} ==> c == Chosen(p.memorySpace.value))
          && (p.memorySpace in {None, Some("")} ==>
                && (ofProfile == Some("none") ==> c == Nothing)
                && (ofProfile !in {None, Some(""), Some("none")} ==> c == Chosen(ofProfile.value))
                && (ofProfile in {None, Some("")} ==> Chain(None, dev.memory.value.defaultSpace, dev.memory.value.spaces, c))))
  }

  /** The first engine given by project, developer and specification, else none. */
  predicate EngineChain(spec: Spec, dev: Developer, p: Project, engine: Engine) {
    && (p.containerEngine != None ==> Some(engine) == p.containerEngine)
    && (p.containerEngine == None && dev.containerEngine != None ==> Some(engine) == dev.containerEngine)
    && (p.containerEngine == None && dev.containerEngine == None && spec.defaultEngine != None ==> Some(engine) == spec.defaultEngine)
    && (p.containerEngine == None && dev.containerEngine == None && spec.defaultEngine == None ==> engine == NoEngine)
  }

  predicate Chains(spec: Spec, dev: Developer, p: Project, r: ResolvedProject) {
    && r.name == p.name && EngineChain(spec, dev, p, r.engine)
    && Chain(p.gitIdentity, dev.defaultIdentity, dev.identities, r.identity)
    && Chain(p.agentProfile, dev.defaultProfile, dev.profileNames, r.profile)
    && SpaceChain(dev, p, r.profile, r.space)
  }

  predicate LeavesOpen(r: ResolvedProject, what: string) {
    || (what == "git_identity" && r.identity == Ambiguous)
    || (what == "agent_profile" && r.profile == Ambiguous)
    || (what == "memory_space" && r.space == Ambiguous)
  }

  lemma ResolveFollows(spec: Spec, dev: Developer, p: Project)
    ensures Chains(spec, dev, p, Resolve(spec, dev, p))
  {
    SpaceFollows(dev, p, ResolveProfile(dev, p));
    assert Chain(p.gitIdentity, dev.defaultIdentity, dev.identities, ResolveIdentity(dev, p));
    assert Chain(p.agentProfile, dev.defaultProfile, dev.profileNames, ResolveProfile(dev, p));
  }

  /** Along the chains of that project, nothing decides this. */
  ghost predicate IsOpen(spec: Spec, x: Undecided) {
    && x.i < |spec.developers| && x.j < |spec.developers[x.i].projects|
    && exists r :: Chains(spec, spec.developers[x.i], spec.developers[x.i].projects[x.j], r) && LeavesOpen(r, x.what)
  }

  lemma OpenMeans(spec: Spec, i: nat, j: nat, x: Undecided)
    requires i < |spec.developers| && j < |spec.developers[i].projects|
    ensures x in IssuesOf(i, j, Resolve(spec, spec.developers[i], spec.developers[i].projects[j])) <==> x.i == i && x.j == j && IsOpen(spec, x)
  {
    var dev, p := spec.developers[i], spec.developers[i].projects[j];
    ResolveFollows(spec, dev, p);
    if r :| Chains(spec, dev, p, r) && LeavesOpen(r, x.what) {
      ChainsUnique(spec, dev, p, r, Resolve(spec, dev, p));
    }
  }

  lemma SpaceFollows(dev: Developer, p: Project, profile: Choice)
    ensures SpaceChain(dev, p, profile, ResolveSpace(dev, p, profile))
  {
    if MemoryOn(dev) {
      assert dev.memory.value.enabled == Some(true);
      assert Given(p.memorySpace) <==> p.memorySpace !in {None, Some("")};
    }
  }

  /** The chains decide everything. */
  lemma ChainsUnique(spec: Spec, dev: Developer, p: Project, a: ResolvedProject, b: ResolvedProject)
    requires Chains(spec, dev, p, a) && Chains(spec, dev, p, b)
    ensures a == b
  {
  }

  method ResolveProjects(spec: Spec, i: nat) returns (resolved: seq<ResolvedProject>, issues: seq<Undecided>)
    requires i < |spec.developers|
    ensures var dev := spec.developers[i];
            |resolved| == |dev.projects| && forall j | 0 <= j < |resolved| :: resolved[j] == Resolve(spec, dev, dev.projects[j])
    ensures forall x :: x in issues <==> x.i == i && IsOpen(spec, x)
  {
    var dev := spec.developers[i];
    resolved, issues := [], [];
    for j := 0 to |dev.projects|
      invariant |resolved| == j && forall k | 0 <= k < j :: resolved[k] == Resolve(spec, dev, dev.projects[k])
      invariant forall x :: x in issues <==> x.i == i && x.j < j && IsOpen(spec, x)
    {
      var r := Resolve(spec, dev, dev.projects[j]);
      forall x ensures x in IssuesOf(i, j, r) <==> x.i == i && x.j == j && IsOpen(spec, x) {
        OpenMeans(spec, i, j, x);
      }
      issues := issues + IssuesOf(i, j, r);
      resolved := resolved + [r];
    }
  }

  /** `resolveSpec`: every project resolved along the chains. It fails exactly when along the
      chains of some project nothing decides, and says which and what. */
  method ResolveSpec(spec: Spec) returns (r: Option<seq<seq<ResolvedProject>>>, issues: seq<Undecided>)
    ensures r.None? <==> issues != []
    ensures r.None? <==> exists d | d in spec.developers :: exists p | p in d.projects :: IsAmbiguous(d, p)
    ensures forall x :: x in issues <==> IsOpen(spec, x)
    ensures r.Some? ==> |r.value| == |spec.developers|
    ensures r.Some? ==> forall i | 0 <= i < |r.value| ::
              |r.value[i]| == |spec.developers[i].projects|
              && forall j | 0 <= j < |r.value[i]| :: Chains(spec, spec.developers[i], spec.developers[i].projects[j], r.value[i][j])
  {
    var resolved: seq<seq<ResolvedProject>> := [];
    issues := [];
    for i := 0 to |spec.developers|
      invariant |resolved| == i
      invariant forall k | 0 <= k < i :: |resolved[k]| == |spec.developers[k].projects|
                  && forall j | 0 <= j < |resolved[k]| :: resolved[k][j] == Resolve(spec, spec.developers[k], spec.developers[k].projects[j])
      invariant forall x :: x in issues <==> x.i < i && IsOpen(spec, x)
    {
      var projects, more := ResolveProjects(spec, i);
      resolved, issues := resolved + [projects], issues + more;
    }
    OpenWhenAmbiguous(spec, issues);
    forall i, j | 0 <= i < |resolved| && 0 <= j < |resolved[i]|
      ensures Chains(spec, spec.developers[i], spec.developers[i].projects[j], resolved[i][j])
    {
      ResolveFollows(spec, spec.developers[i], spec.developers[i].projects[j]);
    }
    return if issues == [] then Some(resolved) else None, issues;
  }

  lemma OpenIsAmbiguous(spec: Spec, x: Undecided)
    requires IsOpen(spec, x)
    ensures IsAmbiguous(spec.developers[x.i], spec.developers[x.i].projects[x.j])
  {
    var d := spec.developers[x.i];
    var p := d.projects[x.j];
    var r :| Chains(spec, d, p, r) && LeavesOpen(r, x.what);
    ResolveFollows(spec, d, p);
    ChainsUnique(spec, d, p, r, Resolve(spec, d, p));
    AmbiguousWhen(spec, d, p);
  }

  lemma AmbiguousIsOpen(spec: Spec, i: nat, j: nat) returns (x: Undecided)
    requires i < |spec.developers| && j < |spec.developers[i].projects| && IsAmbiguous(spec.developers[i], spec.developers[i].projects[j])
    ensures IsOpen(spec, x)
  {
    var d := spec.developers[i];
    var r := Resolve(spec, d, d.projects[j]);
    AmbiguousWhen(spec, d, d.projects[j]);
    ResolveFollows(spec, d, d.projects[j]);
    x := Undecided(i, j, if r.identity.Ambiguous? then "git_identity" else if r.profile.Ambiguous? then "agent_profile" else "memory_space");
    assert LeavesOpen(r, x.what);
  }

  lemma OpenWhenAmbiguous(spec: Spec, issues: seq<Undecided>)
    requires forall x :: x in issues <==> IsOpen(spec, x)
    ensures issues != [] <==> exists d | d in spec.developers :: exists p | p in d.projects :: IsAmbiguous(d, p)
  {
    if issues != [] {
      assert issues[0] in issues;
      OpenIsAmbiguous(spec, issues[0]);
    }
    if d, p :| d in spec.developers && p in d.projects && IsAmbiguous(d, p) {
      var i: nat :| i < |spec.developers| && spec.developers[i] == d;
      var j: nat :| j < |d.projects| && d.projects[j] == p;
      var x := AmbiguousIsOpen(spec, i, j);
    }
  }
}
