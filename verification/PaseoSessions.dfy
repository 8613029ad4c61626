/** scripts/paseo-session-reap.py: which process is a session, and which sessions are let go. */
module PaseoSessions {
  import opened Wrappers
  import Sequences

  type Pid = nat
  type Agent = string

  datatype Owned = Owned(agent: Agent, parent: Pid, rssKb: nat)

  /** What a scan of /proc finds out about one entry: an agent id when the environment can be
      read and holds one, the rest when `stat` can be read. */
  datatype Entry = Entry(pid: Pid, agent: Option<Agent>, facts: Option<(Pid, nat)>)

  datatype Record = Record(status: string, idleHours: Option<real>)

  datatype Session = Session(pid: Pid, agent: Agent, status: string, idleHours: Option<real>, rssKb: nat)

  // ── Ownership ─────────────────────────────────────────────────────────────

  predicate IsOwned(e: Entry) {
    e.agent.Some? && e.agent.value != "" && e.facts.Some?
  }

  function OwnedBy(es: seq<Entry>): map<Pid, Owned> {
    if es == [] then map[]
    else
      var before, e := OwnedBy(es[..|es| - 1]), es[|es| - 1];
      if IsOwned(e) then before[e.pid := Owned(e.agent.value, e.facts.value.0, e.facts.value.1)] else before
  }

  predicate SameAgentParent(owned: map<Pid, Owned>, p: Pid) {
    p in owned && owned[p].parent in owned && owned[owned[p].parent].agent == owned[p].agent
  }

  /** A process no process of its own agent has spawned. */
  predicate IsRoot(owned: map<Pid, Owned>, p: Pid) {
    p in owned && !SameAgentParent(owned, p)
  }

  /** No process is its own ancestor. */
  ghost predicate Acyclic(owned: map<Pid, Owned>, depth: Pid -> nat) {
    forall p | p in owned && owned[p].parent in owned :: depth(owned[p].parent) < depth(p)
  }

  /** A path from a process up through parents of the same agent. */
  predicate Climbs(owned: map<Pid, Owned>, path: seq<Pid>) {
    && path != []
    && (forall i | 0 <= i < |path| :: path[i] in owned)
    && (forall i | 0 <= i < |path| - 1 :: SameAgentParent(owned, path[i]) && owned[path[i]].parent == path[i + 1])
  }

  /** The way up from a process to the root of its tree. */
  ghost function WayUp(owned: map<Pid, Owned>, depth: Pid -> nat, p: Pid): (path: seq<Pid>)
    requires Acyclic(owned, depth) && p in owned
    ensures Climbs(owned, path) && path[0] == p && IsRoot(owned, path[|path| - 1])
    decreases depth(p)
  {
    if SameAgentParent(owned, p) then [p] + WayUp(owned, depth, owned[p].parent) else [p]
  }

  lemma {:induction false} ClimbKeepsAgent(owned: map<Pid, Owned>, path: seq<Pid>)
    requires Climbs(owned, path)
    ensures owned[path[|path| - 1]].agent == owned[path[0]].agent
  {
    if |path| > 1 {
      assert Climbs(owned, path[1..]);
      ClimbKeepsAgent(owned, path[1..]);
    }
  }

  /** There is one way up, so one root. */
  lemma {:induction false} OneWayUp(owned: map<Pid, Owned>, depth: Pid -> nat, path: seq<Pid>)
    requires Acyclic(owned, depth) && Climbs(owned, path) && IsRoot(owned, path[|path| - 1])
    ensures path == WayUp(owned, depth, path[0])
    decreases |path|
  {
    if |path| == 1 {
      assert path == [path[0]];
    } else {
      assert SameAgentParent(owned, path[0]);
      assert Climbs(owned, path[1..]);
      OneWayUp(owned, depth, path[1..]);
      assert path == [path[0]] + path[1..];
    }
  }

  // ── Sessions ──────────────────────────────────────────────────────────────

  function SessionOf(owned: map<Pid, Owned>, records: map<Agent, Record>, p: Pid): Session
    requires p in owned && owned[p].agent in records
  {
    var r := records[owned[p].agent];
    Session(p, owned[p].agent, r.status, r.idleHours, owned[p].rssKb)
  }

  predicate IsSession(owned: map<Pid, Owned>, records: map<Agent, Record>, p: Pid) {
    IsRoot(owned, p) && owned[p].agent in records
  }

  predicate BySize(ss: seq<Session>) {
    forall i, j | 0 <= i < j < |ss| :: ss[i].rssKb >= ss[j].rssKb
  }

  predicate DistinctPids(ss: seq<Session>) {
    forall i, j | 0 <= i < j < |ss| :: ss[i].pid != ss[j].pid
  }

  /** A stable insertion, largest first. */
  function Insert(s: Session, ss: seq<Session>): seq<Session> {
    if ss == [] || s.rssKb > ss[0].rssKb then [s] + ss else [ss[0]] + Insert(s, ss[1..])
  }

  lemma {:induction false} InsertHolds(s: Session, ss: seq<Session>)
    ensures forall x :: x in Insert(s, ss) <==> x == s || x in ss
  {
    if ss != [] && s.rssKb <= ss[0].rssKb {
      InsertHolds(s, ss[1..]);
      Sequences.HeadTail(ss);
    }
  }

  lemma PutInFront(s: Session, ss: seq<Session>)
    requires BySize(ss) && DistinctPids(ss) && forall x | x in ss :: x.pid != s.pid && s.rssKb >= x.rssKb
    ensures BySize([s] + ss) && DistinctPids([s] + ss)
  {
    forall i | 0 <= i < |ss| ensures ss[i].pid != s.pid && s.rssKb >= ss[i].rssKb {
      assert ss[i] in ss;
    }
  }

  lemma TailKeeps(ss: seq<Session>)
    requires ss != [] && BySize(ss) && DistinctPids(ss)
    ensures BySize(ss[1..]) && DistinctPids(ss[1..])
    ensures forall x | x in ss[1..] :: x.pid != ss[0].pid && ss[0].rssKb >= x.rssKb
  {
  }

  lemma {:induction false} InsertKeeps(s: Session, ss: seq<Session>)
    requires BySize(ss) && DistinctPids(ss) && forall x | x in ss :: x.pid != s.pid
    ensures BySize(Insert(s, ss)) && DistinctPids(Insert(s, ss))
  {
    if ss == [] {
      PutInFront(s, ss);
    } else {
      TailKeeps(ss);
      if s.rssKb > ss[0].rssKb {
        Sequences.HeadTail(ss);
        PutInFront(s, ss);
      } else {
        InsertKeeps(s, ss[1..]);
        InsertHolds(s, ss[1..]);
        PutInFront(ss[0], Insert(s, ss[1..]));
      }
    }
  }

  method CollectOwned(es: seq<Entry>) returns (owned: map<Pid, Owned>)
    ensures owned == OwnedBy(es)
  {
    owned := map[];
    for i := 0 to |es|
      invariant owned == OwnedBy(es[..i])
    {
      assert es[..i + 1][..i] == es[..i];
      var e := es[i];
      if e.agent.None? || e.agent.value == "" { continue; }
      if e.facts.None? { continue; }
      owned := owned[e.pid := Owned(e.agent.value, e.facts.value.0, e.facts.value.1)];
    }
    assert es[..|es|] == es;
  }

  /** `read_sessions`: the roots whose agent has a record, each once, the largest first. */
  method ReadSessions(es: seq<Entry>, records: map<Agent, Record>) returns (ss: seq<Session>)
    ensures BySize(ss) && DistinctPids(ss)
    ensures forall s | s in ss :: IsSession(OwnedBy(es), records, s.pid) && s == SessionOf(OwnedBy(es), records, s.pid)
    ensures forall p :: IsSession(OwnedBy(es), records, p) ==> SessionOf(OwnedBy(es), records, p) in ss
  {
    var owned := CollectOwned(es);
    ss := [];
    var left := owned.Keys;
    while left != {}
      invariant left <= owned.Keys && BySize(ss) && DistinctPids(ss)
      invariant forall s | s in ss :: s.pid !in left && IsSession(owned, records, s.pid) && s == SessionOf(owned, records, s.pid)
      invariant forall p | p in owned && p !in left && IsSession(owned, records, p) :: SessionOf(owned, records, p) in ss
      decreases |left|
    {
      var p :| p in left;
      if !SameAgentParent(owned, p) && owned[p].agent in records {
        InsertKeeps(SessionOf(owned, records, p), ss);
        InsertHolds(SessionOf(owned, records, p), ss);
        ss := Insert(SessionOf(owned, records, p), ss);
      }
      left := left - {p};
    }
  }

  /** With no process its own ancestor, every owned process has exactly one session above it by
      way of its own agent's processes, once its agent has a record. */
  lemma OneSessionAbove(owned: map<Pid, Owned>, records: map<Agent, Record>, depth: Pid -> nat, p: Pid)
    requires Acyclic(owned, depth) && p in owned && owned[p].agent in records
    ensures exists path | Climbs(owned, path) :: path[0] == p && IsSession(owned, records, path[|path| - 1])
    ensures forall a, b | Climbs(owned, a) && Climbs(owned, b) && a[0] == p && b[0] == p
                          && IsSession(owned, records, a[|a| - 1]) && IsSession(owned, records, b[|b| - 1]) :: a == b
  {
    var path := WayUp(owned, depth, p);
    ClimbKeepsAgent(owned, path);
    forall a | Climbs(owned, a) && a[0] == p && IsSession(owned, records, a[|a| - 1]) ensures a == path {
      OneWayUp(owned, depth, a);
    }
  }

  // ── Sessions below sessions ───────────────────────────────────────────────

  /** The parents of all processes, owned or not, agree with what the scan saw, and no process
      is its own ancestor. */
  ghost predicate Table(owned: map<Pid, Owned>, parents: map<Pid, Pid>, depth: Pid -> nat) {
    && (forall p | p in owned :: p in parents && parents[p] == owned[p].parent)
    && (forall p | p in parents && parents[p] in parents :: depth(parents[p]) < depth(p))
  }

  /** A path from a process up through parents, whoever they belong to. */
  predicate Ascends(parents: map<Pid, Pid>, path: seq<Pid>) {
    |path| >= 2 && forall i | 0 <= i < |path| - 1 :: path[i] in parents && parents[path[i]] == path[i + 1]
  }

  predicate SameAgent(owned: map<Pid, Owned>, p: Pid, q: Pid) {
    p in owned && q in owned && owned[p].agent == owned[q].agent
  }

  /** One session of an agent lies below another. */
  predicate Nested(owned: map<Pid, Owned>, records: map<Agent, Record>, parents: map<Pid, Pid>, path: seq<Pid>) {
    var p, q := if path == [] then 0 else path[0], if path == [] then 0 else path[|path| - 1];
    Ascends(parents, path) && p != q && IsSession(owned, records, p) && IsSession(owned, records, q) && SameAgent(owned, p, q)
  }

  /** The way up from a process of a recorded agent leaves the agent at the first step and comes
      back to it. */
  predicate LeavesAndReturns(owned: map<Pid, Owned>, records: map<Agent, Record>, parents: map<Pid, Pid>, path: seq<Pid>) {
    && Ascends(parents, path) && path[0] in owned && owned[path[0]].agent in records
    && !SameAgent(owned, path[0], path[1]) && SameAgent(owned, path[0], path[|path| - 1])
  }

  lemma {:induction false} AscentFalls(owned: map<Pid, Owned>, parents: map<Pid, Pid>, depth: Pid -> nat, path: seq<Pid>)
    requires Table(owned, parents, depth) && Ascends(parents, path) && path[|path| - 1] in parents
    ensures depth(path[|path| - 1]) < depth(path[0])
  {
    if |path| > 2 {
      AscentFalls(owned, parents, depth, path[1..]);
    }
  }

  /** Two sessions of one agent lie one below the other if and only if some way up leaves an
      agent and comes back to it. */
  lemma NestedIff(owned: map<Pid, Owned>, records: map<Agent, Record>, parents: map<Pid, Pid>, depth: Pid -> nat)
    requires Table(owned, parents, depth)
    ensures (exists path :: Nested(owned, records, parents, path)) <==> (exists path :: LeavesAndReturns(owned, records, parents, path))
  {
    if path :| Nested(owned, records, parents, path) {
      assert LeavesAndReturns(owned, records, parents, path);
    }
    if path :| LeavesAndReturns(owned, records, parents, path) {
      var up := WayUp(owned, depth, path[|path| - 1]);
      ClimbKeepsAgent(owned, up);
      var whole := path[..|path| - 1] + up;
      assert Ascends(parents, whole);
      AscentFalls(owned, parents, depth, whole);
      assert Nested(owned, records, parents, whole);
    }
  }

  /** Such a tree: an agent's process below another agent's, below one of its own. */
  lemma NestedPastAnother(a: Agent, b: Agent, r: Record)
    requires a != b
    ensures Nested(map[1 := Owned(a, 0, 0), 2 := Owned(b, 1, 0), 3 := Owned(a, 2, 0)], map[a := r], map[1 := 0, 2 := 1, 3 := 2], [3, 2, 1])
  {
  }

  // ── Letting go ────────────────────────────────────────────────────────────

  predicate Finished(s: Session) {
    s.status in {"idle", "closed"} && s.idleHours.Some?
  }

  predicate Selected(s: Session, cutoff: real) {
    Finished(s) && s.idleHours.value > cutoff
  }

  method Select(ss: seq<Session>, cutoff: real) returns (r: seq<Session>)
    ensures forall s :: s in r <==> s in ss && Selected(s, cutoff)
  {
    r := [];
    for i := 0 to |ss|
      invariant forall s :: s in r <==> s in ss[..i] && Selected(s, cutoff)
    {
      assert ss[..i + 1] == ss[..i] + [ss[i]];
      if Selected(ss[i], cutoff) { r := r + [ss[i]]; }
    }
    assert ss[..|ss|] == ss;
  }

  datatype Answer = Delivered | NoProcess | NotPermitted

  datatype Sent = Sent(pid: Pid, signal: nat)

  const SIGTERM := 15
  const SIGKILL := 9

  /** `release`: `first` answers the polite signal, `second` the question ten seconds later
      whether the process is still there. Every victim is asked first; only then are those
      that took it and are still there killed. */
  method Release(victims: seq<Session>, dryRun: bool, first: Pid -> Answer, second: Pid -> Answer)
    returns (released: seq<Session>, sent: seq<Sent>)
    ensures dryRun ==> released == victims && sent == []
    ensures !dryRun ==> forall s :: s in released <==> s in victims && first(s.pid).Delivered? && !second(s.pid).NotPermitted?
    ensures !dryRun ==> |sent| >= |victims| && forall i | 0 <= i < |victims| :: sent[i] == Sent(victims[i].pid, 15)
    ensures !dryRun ==> forall m :: m in sent[|victims|..] <==>
              m.signal == 9 && exists s | s in victims :: s.pid == m.pid && first(s.pid).Delivered? && second(s.pid).Delivered?
  {
    if dryRun { return victims, []; }
    sent := [];
    var signalled: seq<Session> := [];
    for i := 0 to |victims|
      invariant forall s :: s in signalled <==> s in victims[..i] && first(s.pid).Delivered?
      invariant |sent| == i && forall j | 0 <= j < i :: sent[j] == Sent(victims[j].pid, SIGTERM)
    {
      assert victims[..i + 1] == victims[..i] + [victims[i]];
      sent := sent + [Sent(victims[i].pid, SIGTERM)];
      if first(victims[i].pid).Delivered? { signalled := signalled + [victims[i]]; }
    }
    assert victims[..|victims|] == victims;
    var kills;
    released, kills := Finish(signalled, second);
    assert (sent + kills)[|victims|..] == kills;
    sent := sent + kills;
  }

  /** The second round. */
  method Finish(signalled: seq<Session>, second: Pid -> Answer) returns (released: seq<Session>, kills: seq<Sent>)
    ensures forall s :: s in released <==> s in signalled && !second(s.pid).NotPermitted?
    ensures forall m :: m in kills <==> m.signal == SIGKILL && exists s | s in signalled :: s.pid == m.pid && second(s.pid).Delivered?
  {
    released, kills := [], [];
    for i := 0 to |signalled|
      invariant forall s :: s in released <==> s in signalled[..i] && !second(s.pid).NotPermitted?
      invariant forall m :: m in kills <==> m.signal == SIGKILL && exists s | s in signalled[..i] :: s.pid == m.pid && second(s.pid).Delivered?
    {
      var s := signalled[i];
      assert signalled[..i + 1] == signalled[..i] + [s];
      if second(s.pid).NotPermitted? { continue; }
      if second(s.pid).Delivered? { kills := kills + [Sent(s.pid, SIGKILL)]; }
      released := released + [s];
    }
    assert signalled[..|signalled|] == signalled;
  }

  /** The scan found this process to belong to this agent, below this parent; a later entry of a
      pid replaces an earlier one. */
  predicate Found(es: seq<Entry>, p: Pid, agent: Agent, parent: Pid) {
    exists i | 0 <= i < |es| ::
      && Names(es[i], p) && es[i].agent.value == agent && es[i].facts.value.0 == parent
      && forall j | i < j < |es| :: !Names(es[j], p)
  }

  /** An entry of this pid that names an agent and could be read. */
  predicate Names(e: Entry, p: Pid) {
    e.pid == p && e.agent.Some? && |e.agent.value| > 0 && e.facts.Some?
  }

  lemma {:induction false} FoundMeans(es: seq<Entry>, p: Pid)
    ensures forall agent, parent :: Found(es, p, agent, parent) <==> p in OwnedBy(es) && OwnedBy(es)[p].agent == agent && OwnedBy(es)[p].parent == parent
  {
    if es != [] {
      var n := |es| - 1;
      FoundMeans(es[..n], p);
      forall agent, parent ensures Found(es, p, agent, parent) <==> p in OwnedBy(es) && OwnedBy(es)[p].agent == agent && OwnedBy(es)[p].parent == parent {
        FoundLast(es, n, p, agent, parent);
      }
    }
  }

  lemma FoundLast(es: seq<Entry>, n: nat, p: Pid, agent: Agent, parent: Pid)
    requires |es| == n + 1
    ensures Found(es, p, agent, parent) <==>
            if es[n].pid == p && IsOwned(es[n]) then es[n].agent.value == agent && es[n].facts.value.0 == parent
            else Found(es[..n], p, agent, parent)
  {
    assert Names(es[n], p) <==> es[n].pid == p && IsOwned(es[n]);
    if Found(es, p, agent, parent) && !Names(es[n], p) {
      var i :| 0 <= i < |es| && Names(es[i], p) && es[i].agent.value == agent && es[i].facts.value.0 == parent
        && forall j | i < j < |es| :: !Names(es[j], p);
      assert i < n && es[..n][i] == es[i];
    }
    if !Names(es[n], p) && Found(es[..n], p, agent, parent) {
      var i :| 0 <= i < n && Names(es[..n][i], p) && es[..n][i].agent.value == agent && es[..n][i].facts.value.0 == parent
        && forall j | i < j < n :: !Names(es[..n][j], p);
      assert es[i] == es[..n][i];
      forall j | i < j < |es| ensures !Names(es[j], p) {
        assert j < n ==> es[j] == es[..n][j];
      }
    }
  }

  /** To be let go: a process of an agent with a record, below no process of that agent, whose
      record says idle or closed, and silent for longer than the cutoff. */
  ghost predicate Target(es: seq<Entry>, records: map<Agent, Record>, cutoff: real, p: Pid) {
    exists agent, parent :: Found(es, p, agent, parent) && agent in records
      && (records[agent].status == "idle" || records[agent].status == "closed")
      && records[agent].idleHours.Some? && records[agent].idleHours.value > cutoff
      && !exists above :: Found(es, parent, agent, above)
  }

  lemma TargetMeans(es: seq<Entry>, records: map<Agent, Record>, cutoff: real, p: Pid)
    ensures Target(es, records, cutoff, p) <==> IsSession(OwnedBy(es), records, p) && Selected(SessionOf(OwnedBy(es), records, p), cutoff)
  {
    var owned := OwnedBy(es);
    FoundMeans(es, p);
    if p in owned {
      var agent, parent := owned[p].agent, owned[p].parent;
      FoundMeans(es, parent);
      assert Found(es, p, agent, parent);
      if SameAgentParent(owned, p) {
        assert Found(es, parent, agent, owned[parent].parent);
      }
    }
  }

  /** A whole sweep signals only roots of agents with a record, finished, and silent for longer
      than the cutoff, and each of them. */
  method Sweep(es: seq<Entry>, records: map<Agent, Record>, cutoff: real, dryRun: bool, first: Pid -> Answer, second: Pid -> Answer)
    returns (sent: seq<Sent>)
    ensures dryRun ==> sent == []
    ensures forall m | m in sent :: Target(es, records, cutoff, m.pid) && m.signal in {15, 9}
    ensures !dryRun ==> forall p :: Target(es, records, cutoff, p) <==> exists m | m in sent :: m == Sent(p, 15)
  {
    forall p ensures Target(es, records, cutoff, p) <==> IsSession(OwnedBy(es), records, p) && Selected(SessionOf(OwnedBy(es), records, p), cutoff) {
      TargetMeans(es, records, cutoff, p);
    }
    var sessions := ReadSessions(es, records);
    var victims := Select(sessions, cutoff);
    var released;
    released, sent := Release(victims, dryRun, first, second);
    if !dryRun {
      assert sent == sent[..|victims|] + sent[|victims|..];
      forall m | m in sent ensures (exists s | s in victims :: s.pid == m.pid) && m.signal in {15, 9} {
        if m !in sent[|victims|..] {
          var i :| 0 <= i < |victims| && sent[i] == m;
          assert victims[i] in victims;
        }
      }
      forall p | Target(es, records, cutoff, p) ensures Sent(p, 15) in sent {
        var s := SessionOf(OwnedBy(es), records, p);
        assert s in victims;
        var i :| 0 <= i < |victims| && victims[i] == s;
        assert sent[i] == Sent(p, 15);
      }
    }
  }
}
