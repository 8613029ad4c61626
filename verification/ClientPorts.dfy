/** clients/devbox/src/spec/client-ports.ts: the local port each developer's desktop is dialled
    on. */
module ClientPorts {
  import opened Sizes
  import opened Wrappers

  const DEFAULT_CLIENT_PORT := 3389

  /** Port 0 counts as none. */
  datatype Dev = Dev(user: string, desktopEnabled: bool, clientPort: Option<nat>)

  predicate Explicit(d: Dev) {
    d.clientPort.Some? && d.clientPort.value != 0
  }

  function Desktops(devs: seq<Dev>): seq<Dev> {
    if devs == [] then [] else Desktops(devs[..|devs| - 1]) + if devs[|devs| - 1].desktopEnabled then [devs[|devs| - 1]] else []
  }

  function ExplicitPorts(ds: seq<Dev>): (r: set<nat>)
    ensures forall q :: q in r <==> exists d | d in ds :: Explicit(d) && d.clientPort.value == q
    ensures |r| <= |ds|
  {
    if ds == [] then {}
    else
      var before, last := ExplicitPorts(ds[..|ds| - 1]), ds[|ds| - 1];
      assert ds == ds[..|ds| - 1] + [last];
      if Explicit(last) then before + {last.clientPort.value} else before
  }

  // ── What an assignment is ─────────────────────────────────────────────────

  /** Some earlier developer without an explicit port has been given `q`. */
  predicate GivenBefore(ds: seq<Dev>, ports: seq<nat>, i: nat, q: nat)
    requires i <= |ports| <= |ds|
  {
    exists j | 0 <= j < i :: !Explicit(ds[j]) && ports[j] == q
  }

  /** Explicit ports are kept, and every other developer has the least port from 3389 upward
      that is neither explicit nor given to an earlier one. */
  ghost predicate IsAssignment(ds: seq<Dev>, explicit: set<nat>, ports: seq<nat>) {
    && |ports| <= |ds|
    && forall i | 0 <= i < |ports| :: Placed(ds, explicit, ports, i)
  }

  ghost predicate Placed(ds: seq<Dev>, explicit: set<nat>, ports: seq<nat>, i: nat)
    requires i < |ports| <= |ds|
  {
    if Explicit(ds[i]) then ports[i] == ds[i].clientPort.value
    else
      && DEFAULT_CLIENT_PORT <= ports[i] && ports[i] !in explicit && !GivenBefore(ds, ports, i, ports[i])
      && forall q | DEFAULT_CLIENT_PORT <= q < ports[i] :: q in explicit || GivenBefore(ds, ports, i, q)
  }

  lemma SamePlace(ds: seq<Dev>, a: seq<nat>, b: seq<nat>, i: nat, q: nat)
    requires i <= |a| <= |ds| && i <= |b| <= |ds| && a[..i] == b[..i]
    ensures GivenBefore(ds, a, i, q) <==> GivenBefore(ds, b, i, q)
  {
    assert forall j | 0 <= j < i :: a[j] == a[..i][j] && b[j] == b[..i][j];
  }

  /** There is only one. */
  lemma {:induction false} AssignmentUnique(ds: seq<Dev>, explicit: set<nat>, a: seq<nat>, b: seq<nat>)
    requires IsAssignment(ds, explicit, a) && IsAssignment(ds, explicit, b) && |a| == |b|
    ensures a == b
  {
    if a != [] {
      var n := |a| - 1;
      PrefixAssigns(ds, explicit, a, n);
      PrefixAssigns(ds, explicit, b, n);
      AssignmentUnique(ds, explicit, a[..n], b[..n]);
      assert Placed(ds, explicit, a, n) && Placed(ds, explicit, b, n);
      if a[n] < b[n] {
        SamePlace(ds, a, b, n, a[n]);
      } else if b[n] < a[n] {
        SamePlace(ds, a, b, n, b[n]);
      }
      assert a == a[..n] + [a[n]] && b == b[..n] + [b[n]];
    }
  }

  lemma PrefixAssigns(ds: seq<Dev>, explicit: set<nat>, ports: seq<nat>, n: nat)
    requires IsAssignment(ds, explicit, ports) && n <= |ports|
    ensures IsAssignment(ds, explicit, ports[..n])
  {
    forall i | 0 <= i < n ensures Placed(ds, explicit, ports[..n], i) {
      assert Placed(ds, explicit, ports, i);
      assert ports[..n][..i] == ports[..i];
      forall q ensures GivenBefore(ds, ports[..n], i, q) <==> GivenBefore(ds, ports, i, q) {
        SamePlace(ds, ports[..n], ports, i, q);
      }
    }
  }

  // ── The loop ──────────────────────────────────────────────────────────────

  function AtLeast(taken: set<nat>, from: nat): set<nat> {
    set q | q in taken && q >= from
  }

  lemma PastOne(taken: set<nat>, from: nat)
    requires from in taken
    ensures |AtLeast(taken, from + 1)| < |AtLeast(taken, from)|
  {
    assert AtLeast(taken, from) == AtLeast(taken, from + 1) + {from};
  }

  /** What has been handed out, by developer. */
  function ToMap(ds: seq<Dev>, ports: seq<nat>): map<string, nat>
    requires |ports| <= |ds|
  {
    if ports == [] then map[]
    else ToMap(ds, ports[..|ports| - 1])[ds[|ports| - 1].user := ports[|ports| - 1]]
  }

  /** Taken: the explicit ports and those given so far; nothing below `next` is free. */
  ghost predicate Bookkeeping(ds: seq<Dev>, explicit: set<nat>, ports: seq<nat>, taken: set<nat>, next: nat)
    requires |ports| <= |ds|
  {
    && (forall q :: q in taken <==> q in explicit || GivenBefore(ds, ports, |ports|, q))
    && next >= DEFAULT_CLIENT_PORT && forall q | DEFAULT_CLIENT_PORT <= q < next :: q in taken
  }

  lemma GivenAfter(ds: seq<Dev>, ports: seq<nat>, p: nat, q: nat)
    requires |ports| < |ds|
    ensures GivenBefore(ds, ports + [p], |ports| + 1, q) <==>
            GivenBefore(ds, ports, |ports|, q) || (!Explicit(ds[|ports|]) && q == p)
  {
    assert (ports + [p])[|ports|] == p;
    if j :| 0 <= j < |ports| && !Explicit(ds[j]) && ports[j] == q {
      assert (ports + [p])[j] == q;
    }
  }

  lemma GoOn(ds: seq<Dev>, explicit: set<nat>, ports: seq<nat>, p: nat)
    requires IsAssignment(ds, explicit, ports) && |ports| < |ds|
    requires if Explicit(ds[|ports|]) then p == ds[|ports|].clientPort.value
             else p >= DEFAULT_CLIENT_PORT && p !in explicit && !GivenBefore(ds, ports, |ports|, p)
                  && forall q | DEFAULT_CLIENT_PORT <= q < p :: q in explicit || GivenBefore(ds, ports, |ports|, q)
    ensures IsAssignment(ds, explicit, ports + [p])
  {
    var more, n := ports + [p], |ports|;
    forall i | 0 <= i <= n ensures Placed(ds, explicit, more, i) {
      assert more[..i] == ports[..i];
      forall q ensures GivenBefore(ds, more, i, q) <==> GivenBefore(ds, ports, i, q) {
        SamePlace(ds, more, ports, i, q);
      }
      if i < n {
        assert Placed(ds, explicit, ports, i);
      }
    }
  }

  /** `while (taken.has(next)) next++`. */
  method NextFree(taken: set<nat>, from: nat) returns (next: nat)
    ensures next >= from && next !in taken && forall q | from <= q < next :: q in taken
  {
    next := from;
    while next in taken
      invariant next >= from && forall q | from <= q < next :: q in taken
      decreases |AtLeast(taken, next)|
    {
      PastOne(taken, next);
      next := next + 1;
    }
  }

  /** One more developer served. */
  lemma HandOut(ds: seq<Dev>, explicit: set<nat>, ports: seq<nat>, taken: set<nat>, taken': set<nat>, next: nat, p: nat)
    requires |ports| < |ds| && IsAssignment(ds, explicit, ports) && Bookkeeping(ds, explicit, ports, taken, next)
    requires if Explicit(ds[|ports|]) then taken' == taken && p == ds[|ports|].clientPort.value
             else p == next && p !in taken && taken' == taken + {p}
    ensures IsAssignment(ds, explicit, ports + [p]) && Bookkeeping(ds, explicit, ports + [p], taken', next)
    ensures ToMap(ds, ports + [p]) == ToMap(ds, ports)[ds[|ports|].user := p]
  {
    GoOn(ds, explicit, ports, p);
    forall q ensures q in taken' <==> q in explicit || GivenBefore(ds, ports + [p], |ports| + 1, q) {
      GivenAfter(ds, ports, p, q);
    }
    assert (ports + [p])[..|ports|] == ports;
  }

  // ── Who is served ─────────────────────────────────────────────────────────

  /** `ds` are the developers with a desktop, in their order: `at` says where each stood. */
  predicate KeptAt(devs: seq<Dev>, ds: seq<Dev>, at: seq<nat>) {
    && |at| == |ds|
    && (forall k | 0 <= k < |at| :: at[k] < |devs| && devs[at[k]].desktopEnabled && ds[k] == devs[at[k]])
    && (forall k, l | 0 <= k < l < |at| :: at[k] < at[l])
    && (forall i: nat | i < |devs| && devs[i].desktopEnabled :: i in at)
  }

  lemma KeptOn(devs: seq<Dev>, n: nat, ds: seq<Dev>, at: seq<nat>)
    requires |devs| == n + 1 && KeptAt(devs[..n], ds, at) && !devs[n].desktopEnabled
    ensures KeptAt(devs, ds, at)
  {
    forall i: nat | i < |devs| && devs[i].desktopEnabled ensures i in at {
      assert devs[..n][i] == devs[i];
    }
  }

  lemma KeptWith(devs: seq<Dev>, n: nat, ds: seq<Dev>, at: seq<nat>)
    requires |devs| == n + 1 && KeptAt(devs[..n], ds, at) && devs[n].desktopEnabled
    ensures KeptAt(devs, ds + [devs[n]], at + [n])
  {
    var at' := at + [n];
    forall i: nat | i < |devs| && devs[i].desktopEnabled ensures i in at' {
      assert at'[|at|] == n;
      if i < n {
        assert devs[..n][i] == devs[i] && i in at;
      }
    }
  }

  lemma {:induction false} DesktopsKept(devs: seq<Dev>) returns (at: seq<nat>)
    ensures KeptAt(devs, Desktops(devs), at)
  {
    if devs == [] {
      at := [];
    } else {
      var n := |devs| - 1;
      at := DesktopsKept(devs[..n]);
      if devs[n].desktopEnabled {
        KeptWith(devs, n, Desktops(devs[..n]), at);
        at := at + [n];
      } else {
        KeptOn(devs, n, Desktops(devs[..n]), at);
        assert Desktops(devs) == Desktops(devs[..n]);
      }
    }
  }

  lemma DesktopIn(devs: seq<Dev>, d: Dev)
    ensures d in Desktops(devs) <==> d in devs && d.desktopEnabled
  {
    var at := DesktopsKept(devs);
    if d in devs && d.desktopEnabled {
      var i: nat :| i < |devs| && devs[i] == d;
      assert i in at;
      var k :| 0 <= k < |at| && at[k] == i;
    }
    if d in Desktops(devs) {
      var k :| 0 <= k < |at| && Desktops(devs)[k] == d;
    }
  }

  lemma {:induction false} MapHas(ds: seq<Dev>, ports: seq<nat>, u: string)
    requires |ports| <= |ds|
    ensures u in ToMap(ds, ports) <==> exists i | 0 <= i < |ports| :: ds[i].user == u
  {
    if ports != [] {
      MapHas(ds, ports[..|ports| - 1], u);
    }
  }

  /** What each developer with a desktop is promised: their own port if they gave one, else one
      from 3389 upward that nobody gave and no other such developer has. */
  predicate Promised(devs: seq<Dev>, out: map<string, nat>) {
    && (forall d | d in devs && d.desktopEnabled :: d.user in out)
    && (forall u | u in out :: exists d | d in devs :: d.desktopEnabled && d.user == u)
    && (forall d | d in devs && d.desktopEnabled && d.user in out ::
          match d.clientPort
          case Some(p) => if p != 0 then out[d.user] == p else OwnPort(devs, out, d)
          case None => OwnPort(devs, out, d))
  }

  predicate Taken(devs: seq<Dev>, out: map<string, nat>, q: nat) {
    exists e | e in devs :: e.desktopEnabled && e.user in out && out[e.user] == q
  }

  predicate OwnPort(devs: seq<Dev>, out: map<string, nat>, d: Dev)
    requires d.user in out
  {
    && out[d.user] >= 3389
    && (forall q | 3389 <= q < out[d.user] :: Taken(devs, out, q))
    && (forall e | e in devs && e.desktopEnabled && e.clientPort.Some? && e.clientPort.value != 0 :: out[d.user] != e.clientPort.value)
    && (forall e | e in devs && e.desktopEnabled && e.user in out && (e.clientPort.None? || e.clientPort.value == 0) && e.user != d.user ::
          out[e.user] != out[d.user])
  }

  lemma TwoAutomatic(ds: seq<Dev>, ports: seq<nat>, i: nat, j: nat)
    requires IsAssignment(ds, ExplicitPorts(ds), ports) && i < |ports| && j < |ports| && i != j && !Explicit(ds[i]) && !Explicit(ds[j])
    ensures ports[i] != ports[j]
  {
    if i < j {
      SamePort(ds, ports, i, j);
    } else {
      SamePort(ds, ports, j, i);
    }
  }

  lemma LowerTaken(devs: seq<Dev>, ports: seq<nat>, i: nat, q: nat)
    requires var ds := Desktops(devs); |ports| == |ds| && IsAssignment(ds, ExplicitPorts(ds), ports) && DistinctUsers(ds)
    requires i < |ports| && !Explicit(Desktops(devs)[i]) && 3389 <= q < ports[i]
    ensures Taken(devs, ToMap(Desktops(devs), ports), q)
  {
    var ds := Desktops(devs);
    assert Placed(ds, ExplicitPorts(ds), ports, i);
    var j := HolderOf(ds, ports, i, q);
    EveryoneHasTheirs(ds, ports, j);
    DesktopIn(devs, ds[j]);
  }

  lemma HolderOf(ds: seq<Dev>, ports: seq<nat>, i: nat, q: nat) returns (j: nat)
    requires |ports| == |ds| && IsAssignment(ds, ExplicitPorts(ds), ports) && i < |ports|
    requires q in ExplicitPorts(ds) || GivenBefore(ds, ports, i, q)
    ensures j < |ports| && ports[j] == q
  {
    if q in ExplicitPorts(ds) {
      var d :| d in ds && Explicit(d) && d.clientPort.value == q;
      j :| 0 <= j < |ds| && ds[j] == d;
      assert Placed(ds, ExplicitPorts(ds), ports, j);
    } else {
      j :| 0 <= j < i && !Explicit(ds[j]) && ports[j] == q;
    }
  }

  lemma AutomaticIsOwn(devs: seq<Dev>, ports: seq<nat>, i: nat)
    requires var ds := Desktops(devs); |ports| == |ds| && IsAssignment(ds, ExplicitPorts(ds), ports) && DistinctUsers(ds)
    requires i < |ports| && !Explicit(Desktops(devs)[i])
    ensures var ds := Desktops(devs); ds[i].user in ToMap(ds, ports) && OwnPort(devs, ToMap(ds, ports), ds[i])
  {
    var ds := Desktops(devs);
    var out := ToMap(ds, ports);
    EveryoneHasTheirs(ds, ports, i);
    assert Placed(ds, ExplicitPorts(ds), ports, i);
    forall e | e in devs && e.desktopEnabled ensures e in ds {
      DesktopIn(devs, e);
    }
    forall q | 3389 <= q < ports[i] ensures Taken(devs, out, q) {
      LowerTaken(devs, ports, i, q);
    }
    forall e | e in ds && e.user in out && (e.clientPort.None? || e.clientPort.value == 0) && e.user != ds[i].user
      ensures out[e.user] != out[ds[i].user]
    {
      var j: nat :| j < |ds| && ds[j] == e;
      EveryoneHasTheirs(ds, ports, j);
      TwoAutomatic(ds, ports, i, j);
    }
  }

  lemma AllPromised(devs: seq<Dev>, ports: seq<nat>)
    requires var ds := Desktops(devs); |ports| == |ds| && IsAssignment(ds, ExplicitPorts(ds), ports) && DistinctUsers(ds)
    ensures Promised(devs, ToMap(Desktops(devs), ports))
  {
    var ds := Desktops(devs);
    var out := ToMap(ds, ports);
    forall d | d in devs && d.desktopEnabled
      ensures d.user in out && if d.clientPort.Some? && d.clientPort.value != 0 then out[d.user] == d.clientPort.value else OwnPort(devs, out, d)
    {
      DesktopIn(devs, d);
      var i: nat :| i < |ds| && ds[i] == d;
      EveryoneHasTheirs(ds, ports, i);
      assert Placed(ds, ExplicitPorts(ds), ports, i);
      if !Explicit(d) {
        AutomaticIsOwn(devs, ports, i);
      }
    }
    forall u | u in out ensures exists d | d in devs :: d.desktopEnabled && d.user == u {
      MapHas(ds, ports, u);
      var i :| 0 <= i < |ports| && ds[i].user == u;
      DesktopIn(devs, ds[i]);
    }
  }

  /** A map that gives out an assignment. */
  ghost predicate Assigns(ds: seq<Dev>, out: map<string, nat>) {
    exists ports | |ports| == |ds| && IsAssignment(ds, ExplicitPorts(ds), ports) :: out == ToMap(ds, ports)
  }

  /** `assignClientPorts`. */
  method AssignClientPorts(devs: seq<Dev>) returns (out: map<string, nat>)
    ensures Assigns(Desktops(devs), out)
    ensures DistinctUsers(Desktops(devs)) ==> Promised(devs, out)
  {
    out := map[];
    ghost var ports: seq<nat> := [];
    var desktops := Desktops(devs);
    ghost var explicit := ExplicitPorts(desktops);
    var taken: set<nat> := ExplicitPorts(desktops);
    var next: nat := DEFAULT_CLIENT_PORT;
    assert forall q :: !GivenBefore(desktops, [], 0, q);
    for i := 0 to |desktops|
      invariant |ports| == i && IsAssignment(desktops, explicit, ports)
      invariant Bookkeeping(desktops, explicit, ports, taken, next)
      invariant out == ToMap(desktops, ports)
    {
      var d := desktops[i];
      var p: nat;
      if Explicit(d) {
        p := d.clientPort.value;
      } else {
        next := NextFree(taken, next);
        p := next;
        taken := taken + {next};
      }
      HandOut(desktops, explicit, ports, taken - (if Explicit(d) then {} else {p}), taken, next, p);
      out := out[d.user := p];
      ports := ports + [p];
    }
    if DistinctUsers(desktops) {
      AllPromised(devs, ports);
    }
  }

  predicate DistinctUsers(ds: seq<Dev>) {
    forall i, j | 0 <= i < j < |ds| :: ds[i].user != ds[j].user
  }

  /** With distinct users nobody's port is overwritten. */
  lemma {:induction false} EveryoneHasTheirs(ds: seq<Dev>, ports: seq<nat>, i: nat)
    requires |ports| <= |ds| && DistinctUsers(ds) && i < |ports|
    ensures ds[i].user in ToMap(ds, ports) && ToMap(ds, ports)[ds[i].user] == ports[i]
  {
    var n := |ports| - 1;
    if i < n {
      EveryoneHasTheirs(ds, ports[..n], i);
    }
  }

  // ── What follows ──────────────────────────────────────────────────────────

  function GivenSet(ds: seq<Dev>, ports: seq<nat>, i: nat): set<nat>
    requires i <= |ports| <= |ds|
  {
    if i == 0 then {}
    else
      var before := GivenSet(ds, ports, i - 1);
      if Explicit(ds[i - 1]) then before else before + {ports[i - 1]}
  }

  lemma {:induction false} GivenSetHolds(ds: seq<Dev>, ports: seq<nat>, i: nat, q: nat)
    requires i <= |ports| <= |ds|
    ensures q in GivenSet(ds, ports, i) <==> GivenBefore(ds, ports, i, q)
  {
    if i > 0 {
      GivenSetHolds(ds, ports, i - 1, q);
    }
  }

  /** How many of the first `i` have no explicit port. */
  function Automatic(ds: seq<Dev>, i: nat): nat
    requires i <= |ds|
  {
    if i == 0 then 0 else Automatic(ds, i - 1) + if Explicit(ds[i - 1]) then 0 else 1
  }

  lemma {:induction false} AutomaticGrows(ds: seq<Dev>, i: nat, j: nat)
    requires i <= j <= |ds|
    ensures Automatic(ds, i) <= Automatic(ds, j)
  {
    if i < j {
      AutomaticGrows(ds, i, j - 1);
    }
  }

  lemma OneMore(s: set<nat>, x: nat)
    ensures |s + {x}| <= |s| + 1
  {
    if x in s {
      assert s + {x} == s;
    }
  }

  lemma {:induction false} GivenCount(ds: seq<Dev>, ports: seq<nat>, i: nat)
    requires i <= |ports| <= |ds|
    ensures |GivenSet(ds, ports, i)| <= Automatic(ds, i)
  {
    if i > 0 {
      GivenCount(ds, ports, i - 1);
      OneMore(GivenSet(ds, ports, i - 1), ports[i - 1]);
    }
  }

  lemma {:induction false} AutomaticPrefix(ds: seq<Dev>, n: nat, i: nat)
    requires i <= n <= |ds|
    ensures Automatic(ds[..n], i) == Automatic(ds, i)
  {
    if i > 0 {
      AutomaticPrefix(ds, n, i - 1);
    }
  }

  lemma {:induction false} ExplicitCount(ds: seq<Dev>)
    ensures |ExplicitPorts(ds)| + Automatic(ds, |ds|) <= |ds|
  {
    if ds != [] {
      var n := |ds| - 1;
      ExplicitCount(ds[..n]);
      AutomaticPrefix(ds, n, n);
    }
  }

  function Range(lo: nat, hi: nat): (r: set<nat>)
    ensures forall q :: q in r <==> lo <= q < hi
    ensures |r| == if hi >= lo then hi - lo else 0
    decreases hi
  {
    if hi <= lo then {} else Range(lo, hi - 1) + {hi - 1}
  }

  lemma UnionSize(a: set<nat>, b: set<nat>, both: set<nat>)
    requires both == a + b
    ensures |both| <= |a| + |b|
  {
    assert both == a + (b - a);
    SubsetSize(b - a, b);
  }

  lemma AllBelowUsed(ds: seq<Dev>, explicit: set<nat>, ports: seq<nat>, i: nat)
    requires IsAssignment(ds, explicit, ports) && i < |ports| && !Explicit(ds[i])
    ensures ports[i] >= DEFAULT_CLIENT_PORT && ports[i] - DEFAULT_CLIENT_PORT <= |explicit| + |GivenSet(ds, ports, i)|
  {
    assert Placed(ds, explicit, ports, i);
    var below, given := Range(DEFAULT_CLIENT_PORT, ports[i]), GivenSet(ds, ports, i);
    forall q ensures q in given <==> GivenBefore(ds, ports, i, q) {
      GivenSetHolds(ds, ports, i, q);
    }
    SubsetSize(below, explicit + given);
    UnionSize(explicit, given, explicit + given);
  }

  lemma AutomaticBefore(ds: seq<Dev>, i: nat)
    requires i < |ds| && !Explicit(ds[i])
    ensures Automatic(ds, i) < Automatic(ds, |ds|)
  {
    AutomaticGrows(ds, i + 1, |ds|);
  }

  lemma RoomLeft(ds: seq<Dev>, ports: seq<nat>, i: nat)
    requires i < |ports| <= |ds| && !Explicit(ds[i])
    ensures |ExplicitPorts(ds)| + |GivenSet(ds, ports, i)| < |ds|
  {
    GivenCount(ds, ports, i);
    ExplicitCount(ds);
    AutomaticBefore(ds, i);
  }

  /** With n desktop developers no automatic port lies beyond the n-th from 3389. */
  lemma PortBound(ds: seq<Dev>, ports: seq<nat>, i: nat)
    requires IsAssignment(ds, ExplicitPorts(ds), ports) && i < |ports| && !Explicit(ds[i])
    ensures ports[i] <= DEFAULT_CLIENT_PORT + |ds| - 1
  {
    AllBelowUsed(ds, ExplicitPorts(ds), ports, i);
    RoomLeft(ds, ports, i);
  }

  predicate Different(ports: seq<nat>) {
    forall i, j | 0 <= i < j < |ports| :: ports[i] != ports[j]
  }

  /** Two developers with the same explicit port. */
  predicate Shared(ds: seq<Dev>, i: nat, j: nat)
    requires i < |ds| && j < |ds|
  {
    Explicit(ds[i]) && Explicit(ds[j]) && ds[i].clientPort.value == ds[j].clientPort.value
  }

  predicate NoneShared(ds: seq<Dev>) {
    forall i, j | 0 <= i < j < |ds| :: !Shared(ds, i, j)
  }

  lemma SamePort(ds: seq<Dev>, ports: seq<nat>, i: nat, j: nat)
    requires IsAssignment(ds, ExplicitPorts(ds), ports) && i < j < |ports|
    ensures ports[i] == ports[j] <==> Shared(ds, i, j)
  {
    assert Placed(ds, ExplicitPorts(ds), ports, i) && Placed(ds, ExplicitPorts(ds), ports, j);
    assert ds[i] in ds && ds[j] in ds;
    assert Explicit(ds[i]) ==> ds[i].clientPort.value in ExplicitPorts(ds);
    assert Explicit(ds[j]) ==> ds[j].clientPort.value in ExplicitPorts(ds);
  }

  /** Nobody shares an automatic port, so all ports differ exactly when the explicit ones do. */
  lemma PortsDifferIff(ds: seq<Dev>, ports: seq<nat>)
    requires IsAssignment(ds, ExplicitPorts(ds), ports) && |ports| == |ds|
    ensures Different(ports) <==> NoneShared(ds)
  {
    if !Different(ports) {
      var i, j :| 0 <= i < j < |ports| && ports[i] == ports[j];
      SamePort(ds, ports, i, j);
    } else if !NoneShared(ds) {
      var i, j :| 0 <= i < j < |ds| && Shared(ds, i, j);
      SamePort(ds, ports, i, j);
    }
  }

  /** Taking another explicit port leaves an assignment as it is exactly when nobody had that
      port automatically. */
  lemma {:induction false} ExplicitMoves(ds: seq<Dev>, explicit: set<nat>, ports: seq<nat>, q: nat)
    requires IsAssignment(ds, explicit, ports)
    ensures IsAssignment(ds, explicit + {q}, ports) <==> !GivenBefore(ds, ports, |ports|, q)
  {
    if i :| 0 <= i < |ports| && !Explicit(ds[i]) && ports[i] == q {
      assert !Placed(ds, explicit + {q}, ports, i);
    } else {
      forall i | 0 <= i < |ports| ensures Placed(ds, explicit + {q}, ports, i) {
        assert Placed(ds, explicit, ports, i);
      }
    }
  }

  lemma MoreDevelopers(ds: seq<Dev>, more: seq<Dev>, explicit: set<nat>, ports: seq<nat>)
    requires |ports| <= |ds|
    ensures IsAssignment(ds + more, explicit, ports) <==> IsAssignment(ds, explicit, ports)
  {
    forall i | 0 <= i < |ports| ensures Placed(ds + more, explicit, ports, i) <==> Placed(ds, explicit, ports, i) {
      forall q ensures GivenBefore(ds + more, ports, i, q) <==> GivenBefore(ds, ports, i, q) {
        if j :| 0 <= j < i && !Explicit(ds[j]) && ports[j] == q {
          assert (ds + more)[j] == ds[j];
        }
      }
    }
  }

  /** Appending a developer without an explicit port moves nobody; appending one with a port
      moves nobody exactly when nobody had been given that port. */
  lemma AppendMovesNobody(ds: seq<Dev>, d: Dev, ports: seq<nat>, ports': seq<nat>)
    requires |ports| == |ds| && IsAssignment(ds, ExplicitPorts(ds), ports)
    requires |ports'| == |ds| + 1 && IsAssignment(ds + [d], ExplicitPorts(ds + [d]), ports')
    ensures !Explicit(d) ==> ports'[..|ds|] == ports
    ensures Explicit(d) ==> (ports'[..|ds|] == ports <==> !GivenBefore(ds, ports, |ds|, d.clientPort.value))
  {
    var explicit, explicit' := ExplicitPorts(ds), ExplicitPorts(ds + [d]);
    assert (ds + [d])[..|ds|] == ds;
    PrefixAssigns(ds + [d], explicit', ports', |ds|);
    MoreDevelopers(ds, [d], explicit', ports'[..|ds|]);
    if Explicit(d) {
      assert explicit' == explicit + {d.clientPort.value};
      ExplicitMoves(ds, explicit, ports, d.clientPort.value);
      if IsAssignment(ds, explicit', ports) {
        AssignmentUnique(ds, explicit', ports'[..|ds|], ports);
      }
    } else {
      assert explicit' == explicit;
      AssignmentUnique(ds, explicit, ports'[..|ds|], ports);
    }
  }
}
