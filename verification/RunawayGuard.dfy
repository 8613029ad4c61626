/** scripts/cgroup-runaway-guard.py: whom a stalled cgroup is stalled on. */
module RunawayGuard {
  import opened Wrappers

  const PROTECTED := [
    "Paseo Daemon", "Paseo Superviso", "systemd", "omp", "codex", "claude", "tmux",
    "sshd", "dbus", "cgroup-runaway", "agent-rc-", "mosh", "et", "hermes",
    "valkey-server", "redis-server", "postgres", "nats-server", "clickhouse",
    "victoria", "openconnector-r", "dockerd", "containerd", "docker-proxy",
    "rootlesskit", "slirp4netns", "mutagen", "syncthing", "tailscaled"]

  predicate IsProtected(comm: string) {
    exists p | p in PROTECTED :: p <= comm
  }

  datatype Member = Member(pid: int, comm: string, rssKb: nat, startTicks: int)

  /** What reading one process gives: `statm` first, `comm` and `stat` after it, each of which
      may fail. */
  datatype Process = Process(rssKb: Option<nat>, member: Option<Member>)

  predicate Sound(p: Process) {
    p.rssKb.Some? && p.member.Some? ==> p.member.value.rssKb == p.rssKb.value
  }

  function Listed(p: Process, floor: nat): seq<Member> {
    if p.rssKb.None? || p.rssKb.value < floor || p.member.None? then [] else [p.member.value]
  }

  function Scan(ps: seq<Process>, floor: nat): seq<Member> {
    if ps == [] then [] else Scan(ps[..|ps| - 1], floor) + Listed(ps[|ps| - 1], floor)
  }

  /** How far a scan gets before its deadline. */
  function Reached(n: nat, expired: nat -> bool): (r: nat)
    ensures r <= n && (r < n ==> expired(r)) && forall i | 0 <= i < r :: !expired(i)
    decreases n
  {
    if n == 0 then 0
    else
      var r := Reached(n - 1, expired);
      if r < n - 1 || expired(n - 1) then r else n
  }

  lemma ReachedIs(n: nat, expired: nat -> bool, i: nat)
    requires i <= n && (forall j | 0 <= j < i :: !expired(j)) && (i < n ==> expired(i))
    ensures Reached(n, expired) == i
  {
    assert Reached(n, expired) < n ==> expired(Reached(n, expired));
  }

  lemma ScanNext(ps: seq<Process>, i: nat, floor: nat)
    requires i < |ps|
    ensures Scan(ps[..i + 1], floor) == Scan(ps[..i], floor) + Listed(ps[i], floor)
    ensures Listed(ps[i], floor) == [] ==> Scan(ps[..i + 1], floor) == Scan(ps[..i], floor)
  {
    assert ps[..i + 1][..i] == ps[..i];
  }

  /** `read_members`. */
  method ReadMembers(ps: seq<Process>, floor: nat, expired: nat -> bool) returns (members: seq<Member>, truncated: bool)
    ensures members == Scan(ps[..Reached(|ps|, expired)], floor)
    ensures truncated <==> Reached(|ps|, expired) < |ps|
  {
    members := [];
    for i := 0 to |ps|
      invariant members == Scan(ps[..i], floor)
      invariant forall j | 0 <= j < i :: !expired(j)
    {
      if expired(i) {
        ReachedIs(|ps|, expired, i);
        return members, true;
      }
      ScanNext(ps, i, floor);
      if ps[i].rssKb.None? { continue; }
      if ps[i].rssKb.value < floor { continue; }
      if ps[i].member.None? { continue; }
      members := members + [ps[i].member.value];
    }
    ReachedIs(|ps|, expired, |ps|);
    assert ps[..|ps|] == ps;
    return members, false;
  }

  predicate Eligible(m: Member, bar: nat) {
    m.rssKb >= bar && !IsProtected(m.comm)
  }

  function Bar(floor: nat, dominance: nat): nat {
    if floor >= dominance then floor else dominance
  }

  /** The first of the largest eligible members. */
  function Largest(ms: seq<Member>, bar: nat): (r: Option<Member>)
    ensures r.Some? ==> r.value in ms && Eligible(r.value, bar) && forall m | m in ms && Eligible(m, bar) :: m.rssKb <= r.value.rssKb
    ensures r.None? <==> forall m | m in ms :: !Eligible(m, bar)
  {
    if ms == [] then None
    else
      var before, last := Largest(ms[..|ms| - 1], bar), ms[|ms| - 1];
      assert ms == ms[..|ms| - 1] + [last];
      if Eligible(last, bar) && (before.None? || last.rssKb > before.value.rssKb) then Some(last) else before
  }

  method SelectCandidate(ms: seq<Member>, floor: nat, dominance: nat) returns (r: Option<Member>)
    ensures r == Largest(ms, Bar(floor, dominance))
  {
    r := None;
    for i := 0 to |ms|
      invariant r == Largest(ms[..i], Bar(floor, dominance))
    {
      assert ms[..i + 1][..i] == ms[..i];
      if Eligible(ms[i], Bar(floor, dominance)) && (r.None? || ms[i].rssKb > r.value.rssKb) {
        r := Some(ms[i]);
      }
    }
    assert ms[..|ms|] == ms;
  }

  lemma {:induction false} LargestSkips(a: seq<Member>, b: seq<Member>, bar: nat)
    requires forall m | m in b :: !Eligible(m, bar)
    ensures Largest(a + b, bar) == Largest(a, bar)
  {
    if b == [] {
      assert a + b == a;
    } else {
      var n := |b| - 1;
      assert (a + b)[..|a + b| - 1] == a + b[..n];
      assert b[n] in b;
      LargestSkips(a, b[..n], bar);
    }
  }

  lemma LargestLast(a: seq<Member>, b: seq<Member>, m: Member, bar: nat)
    requires Largest(a, bar) == Largest(b, bar)
    ensures Largest(a + [m], bar) == Largest(b + [m], bar)
  {
    assert (a + [m])[..|a|] == a && (b + [m])[..|b|] == b;
  }

  /** Dismissing everything under the floor unread changes nothing about the choice. */
  lemma {:induction false} PrefilterAgrees(ps: seq<Process>, floor: nat, dominance: nat)
    requires forall p | p in ps :: Sound(p)
    ensures Largest(Scan(ps, floor), Bar(floor, dominance)) == Largest(Scan(ps, 0), Bar(floor, dominance))
  {
    if ps != [] {
      var n := |ps| - 1;
      assert ps[n] in ps;
      PrefilterAgrees(ps[..n], floor, dominance);
      var small, all := Scan(ps[..n], floor), Scan(ps[..n], 0);
      if Listed(ps[n], floor) != [] {
        LargestLast(small, all, ps[n].member.value, Bar(floor, dominance));
      } else {
        assert Listed(ps[n], floor) == [];
        assert small + [] == small;
        LargestSkips(all, Listed(ps[n], 0), Bar(floor, dominance));
      }
    }
  }

  // ── The verdict ───────────────────────────────────────────────────────────

  datatype Verdict = Unbounded | BelowWall | PinnedNoStall | ScanTruncated | StalledNoCandidate | Stalled

  datatype Cgroup = Cgroup(high: Option<nat>, current: Option<nat>, pressureFull: real, processes: seq<Process>)

  datatype Settings = Settings(ratio: real, pressureMin: real, floorKb: nat, dominancePercent: real)

  predicate IsPinned(c: Cgroup, ratio: real) {
    && c.high.Some? && c.high.value > 0 && c.current.Some? && c.current.value > 0
    && c.current.value as real >= c.high.value as real * ratio
  }

  function DominanceKb(c: Cgroup, s: Settings): nat {
    if c.current.None? then 0
    else
      var share := (c.current.value as real / 1024.0 * s.dominancePercent / 100.0).Floor;
      if share < 0 then 0 else share
  }

  function Threshold(c: Cgroup, s: Settings): nat {
    Bar(s.floorKb, DominanceKb(c, s))
  }

  predicate AtTheWall(c: Cgroup, s: Settings) {
    IsPinned(c, s.ratio) && c.pressureFull >= s.pressureMin
  }

  predicate Qualifies(p: Process, bar: nat) {
    p.rssKb.Some? && p.member.Some? && Eligible(p.member.value, bar)
  }

  lemma {:induction false} ScanLists(ps: seq<Process>, floor: nat, m: Member)
    ensures m in Scan(ps, floor) <==> exists p | p in ps :: p.rssKb.Some? && p.rssKb.value >= floor && p.member == Some(m)
  {
    if ps != [] {
      var n := |ps| - 1;
      ScanLists(ps[..n], floor, m);
      assert ps == ps[..n] + [ps[n]];
    }
  }

  /** Somebody scanned qualifies exactly when a candidate is found. */
  lemma CandidateExists(ps: seq<Process>, floor: nat, bar: nat)
    requires (forall p | p in ps :: Sound(p)) && bar >= floor
    ensures Largest(Scan(ps, floor), bar).Some? <==> exists p | p in ps :: Qualifies(p, bar)
  {
    if Largest(Scan(ps, floor), bar).Some? {
      ScanLists(ps, floor, Largest(Scan(ps, floor), bar).value);
    }
    if p :| p in ps && Qualifies(p, bar) {
      ScanLists(ps, floor, p.member.value);
    }
  }

  lemma VictimWasScanned(ps: seq<Process>, floor: nat, bar: nat)
    requires (forall p | p in ps :: Sound(p)) && bar >= floor
    ensures var victim := Largest(Scan(ps, floor), bar);
            && (victim.Some? ==> exists p | p in ps :: Qualifies(p, bar) && p.member == victim)
            && (victim.Some? ==> forall p | p in ps && Qualifies(p, bar) :: p.member.value.rssKb <= victim.value.rssKb)
  {
    var victim := Largest(Scan(ps, floor), bar);
    if victim.Some? {
      ScanLists(ps, floor, victim.value);
      forall p | p in ps && Qualifies(p, bar) ensures p.member.value.rssKb <= victim.value.rssKb {
        ScanLists(ps, floor, p.member.value);
      }
    }
  }

  /** Usage and limit are both known and not zero, and usage has come up to `ratio` of the limit. */
  predicate HitsWall(c: Cgroup, ratio: real) {
    match (c.high, c.current)
    case (Some(high), Some(current)) => high != 0 && current != 0 && current as real >= ratio * high as real
    case _ => false
  }

  /** The share of the usage, a number of bytes, that is asked of a victim, in whole KiB. */
  predicate HoldsShare(c: Cgroup, percent: real, rssKb: nat) {
    c.current.Some? ==> rssKb as real + 1.0 > c.current.value as real * percent / 102400.0
  }

  lemma ShareMeans(c: Cgroup, s: Settings, rssKb: nat)
    ensures rssKb >= DominanceKb(c, s) <==> HoldsShare(c, s.dominancePercent, rssKb)
  {
    if c.current.Some? {
      var x := c.current.value as real / 1024.0 * s.dominancePercent / 100.0;
      assert x == c.current.value as real * s.dominancePercent / 102400.0;
      assert x.Floor as real <= x < x.Floor as real + 1.0;
    }
  }

  /** No prefix in the list is one of this name. */
  predicate Unlisted(comm: string) {
    forall i | 0 <= i < |PROTECTED| :: |PROTECTED[i]| > |comm| || comm[..|PROTECTED[i]|] != PROTECTED[i]
  }

  lemma UnlistedMeans(comm: string)
    ensures Unlisted(comm) <==> !IsProtected(comm)
  {
    if IsProtected(comm) {
      var p :| p in PROTECTED && p <= comm;
      var i :| 0 <= i < |PROTECTED| && PROTECTED[i] == p;
    }
    if i :| 0 <= i < |PROTECTED| && |PROTECTED[i]| <= |comm| && comm[..|PROTECTED[i]|] == PROTECTED[i] {
      assert PROTECTED[i] in PROTECTED && PROTECTED[i] <= comm;
    }
  }

  /** This process may be killed: it could be read, is large enough both ways, and is unprotected. */
  predicate Killable(p: Process, c: Cgroup, s: Settings) {
    && p.rssKb.Some? && p.member.Some? && p.member.value.rssKb >= s.floorKb
    && HoldsShare(c, s.dominancePercent, p.member.value.rssKb) && Unlisted(p.member.value.comm)
  }

  lemma KillableMeans(p: Process, c: Cgroup, s: Settings)
    ensures Killable(p, c, s) <==> Qualifies(p, Threshold(c, s))
  {
    if p.member.Some? {
      ShareMeans(c, s, p.member.value.rssKb);
      UnlistedMeans(p.member.value.comm);
    }
  }

  /** `assess`. What a verdict means: a victim is unprotected, clears both bars and is the
      largest of what was scanned; and that nobody qualifies is only said of a cgroup that is
      stalled and was scanned to the end. */
  method Assess(c: Cgroup, s: Settings, expired: nat -> bool) returns (verdict: Verdict, candidate: Option<Member>)
    requires forall p | p in c.processes :: Sound(p)
    ensures candidate.Some? <==> verdict.Stalled?
    ensures var scanned := c.processes[..Reached(|c.processes|, expired)];
            && (verdict.Stalled? ==>
                  && AtTheWall(c, s) && candidate.value.rssKb >= s.floorKb && candidate.value.rssKb >= DominanceKb(c, s)
                  && !IsProtected(candidate.value.comm)
                  && candidate == Largest(Scan(scanned, 0), Threshold(c, s)))
            && (verdict.Stalled? <==> AtTheWall(c, s) && exists p | p in scanned :: Qualifies(p, Threshold(c, s)))
            && (verdict.StalledNoCandidate? <==>
                  AtTheWall(c, s) && |scanned| == |c.processes| && !exists p | p in c.processes :: Qualifies(p, Threshold(c, s)))
            && (verdict.ScanTruncated? ==> |scanned| < |c.processes|)
    ensures verdict.Unbounded? <==> c.high.None?
    ensures verdict.BelowWall? <==> c.high.Some? && !HitsWall(c, s.ratio)
    ensures verdict.PinnedNoStall? <==> HitsWall(c, s.ratio) && c.pressureFull < s.pressureMin
    ensures var scanned := c.processes[..Reached(|c.processes|, expired)];
            && (verdict.Stalled? <==> HitsWall(c, s.ratio) && c.pressureFull >= s.pressureMin && exists p | p in scanned :: Killable(p, c, s))
            && (verdict.Stalled? ==> exists p | p in scanned :: Killable(p, c, s) && p.member == candidate)
            && (verdict.Stalled? ==> forall p | p in scanned && Killable(p, c, s) :: p.member.value.rssKb <= candidate.value.rssKb)
  {
    forall p ensures Killable(p, c, s) <==> Qualifies(p, Threshold(c, s)) {
      KillableMeans(p, c, s);
    }
    if c.high.None? { return Unbounded, None; }
    if !IsPinned(c, s.ratio) { return BelowWall, None; }
    if c.pressureFull < s.pressureMin { return PinnedNoStall, None; }
    var members, truncated := ReadMembers(c.processes, s.floorKb, expired);
    ghost var scanned := c.processes[..Reached(|c.processes|, expired)];
    assert !truncated ==> scanned == c.processes;
    assert forall p | p in scanned :: p in c.processes;
    CandidateExists(scanned, s.floorKb, Threshold(c, s));
    PrefilterAgrees(scanned, s.floorKb, DominanceKb(c, s));
    candidate := SelectCandidate(members, s.floorKb, DominanceKb(c, s));
    VictimWasScanned(scanned, s.floorKb, Threshold(c, s));
    if candidate.None? {
      return if truncated then ScanTruncated else StalledNoCandidate, None;
    }
    return Stalled, candidate;
  }
}
