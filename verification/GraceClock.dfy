/** The grace clock that scripts/cgroup-runaway-guard.py, scripts/orphan-browser-reap.py and
    scripts/agent-rc-reap.py share: what a pass does with its candidates.

    A key is a pid together with its start time. Times are the readings of the wall clock, in
    any unit, and need not increase. */
module GraceClock {
  type Key = string
  type Time = int
  type State = map<Key, Time>

  // ── One pass ──────────────────────────────────────────────────────────────

  datatype Reconciled = Reconciled(state: State, due: seq<Key>)

  function FirstSeen(state: State, k: Key, now: Time): Time {
    if k in state then state[k] else now
  }

  function Fresh(state: State, candidates: seq<Key>, now: Time): State {
    map k | k in candidates :: FirstSeen(state, k, now)
  }

  /** The candidates whose first sighting lies far enough back, in their order. */
  function Due(state: State, candidates: seq<Key>, now: Time, grace: Time): seq<Key> {
    if candidates == [] then []
    else
      var n := |candidates| - 1;
      Due(state, candidates[..n], now, grace) +
      if now - FirstSeen(state, candidates[n], now) >= grace then [candidates[n]] else []
  }

  lemma {:induction false} DueMeans(state: State, candidates: seq<Key>, now: Time, grace: Time, k: Key)
    ensures k in Due(state, candidates, now, grace) <==> k in candidates && now - FirstSeen(state, k, now) >= grace
  {
    if candidates != [] {
      var n := |candidates| - 1;
      DueMeans(state, candidates[..n], now, grace, k);
      assert candidates == candidates[..n] + [candidates[n]];
    }
  }

  /** `reconcile`. */
  method Reconcile(state: State, candidates: seq<Key>, now: Time, grace: Time) returns (r: Reconciled)
    ensures r == Reconciled(Fresh(state, candidates, now), Due(state, candidates, now, grace))
  {
    var seen: State := map[];
    var due: seq<Key> := [];
    for i := 0 to |candidates|
      invariant seen == Fresh(state, candidates[..i], now)
      invariant due == Due(state, candidates[..i], now, grace)
    {
      var k := candidates[i];
      assert candidates[..i + 1] == candidates[..i] + [k];
      assert candidates[..i + 1][..i] == candidates[..i];
      seen := seen[k := FirstSeen(state, k, now)];
      if now - FirstSeen(state, k, now) >= grace {
        due := due + [k];
      }
    }
    assert candidates[..|candidates|] == candidates;
    return Reconciled(seen, due);
  }

  datatype Signal = Term | Kill

  datatype Sent = Sent(signal: Signal, k: Key)

  /** Those that took the signal. */
  function Hit(victims: seq<Key>, unreachable: set<Key>): seq<Key> {
    if victims == [] then []
    else
      var n := |victims| - 1;
      Hit(victims[..n], unreachable) + if victims[n] in unreachable then [] else [victims[n]]
  }

  lemma {:induction false} HitMeans(victims: seq<Key>, unreachable: set<Key>, k: Key)
    ensures k in Hit(victims, unreachable) <==> k in victims && k !in unreachable
  {
    if victims != [] {
      var n := |victims| - 1;
      HitMeans(victims[..n], unreachable, k);
      assert victims == victims[..n] + [victims[n]];
    }
  }

  /** `reap` outside a dry run: the polite signal to every victim, then the other to those it
      reached that are still there. */
  method Reap(victims: seq<Key>, unreachable: set<Key>, survivors: set<Key>) returns (hit: seq<Key>, sent: seq<Sent>)
    ensures hit == Hit(victims, unreachable)
    ensures |sent| >= |hit| && forall i | 0 <= i < |hit| :: sent[i] == Sent(Term, hit[i])
    ensures forall s | s in sent[|hit|..] :: s.signal.Kill? && s.k in hit && s.k in survivors
    ensures forall k | k in hit && k in survivors :: Sent(Kill, k) in sent
  {
    hit, sent := [], [];
    for i := 0 to |victims|
      invariant hit == Hit(victims[..i], unreachable)
      invariant |sent| == |hit| && forall j | 0 <= j < |hit| :: sent[j] == Sent(Term, hit[j])
    {
      assert victims[..i + 1][..i] == victims[..i];
      if victims[i] !in unreachable {
        sent := sent + [Sent(Term, victims[i])];
        hit := hit + [victims[i]];
      }
    }
    assert victims[..|victims|] == victims;
    var kills: seq<Sent> := [];
    for i := 0 to |hit|
      invariant forall s | s in kills :: s.signal.Kill? && s.k in hit && s.k in survivors
      invariant forall k | k in hit[..i] && k in survivors :: Sent(Kill, k) in kills
    {
      assert hit[..i + 1] == hit[..i] + [hit[i]];
      if hit[i] in survivors {
        kills := kills + [Sent(Kill, hit[i])];
      }
    }
    assert hit[..|hit|] == hit && (sent + kills)[|hit|..] == kills;
    sent := sent + kills;
  }

  lemma SentMeans(hit: seq<Key>, sent: seq<Sent>, survivors: set<Key>)
    requires |sent| >= |hit| && forall i | 0 <= i < |hit| :: sent[i] == Sent(Term, hit[i])
    requires forall s | s in sent[|hit|..] :: s.signal.Kill? && s.k in hit && s.k in survivors
    requires forall k | k in hit && k in survivors :: Sent(Kill, k) in sent
    ensures forall k :: Sent(Term, k) in sent <==> k in hit
    ensures forall k :: Sent(Kill, k) in sent <==> k in hit && k in survivors
  {
    assert sent == sent[..|hit|] + sent[|hit|..];
    forall k | k in hit ensures Sent(Term, k) in sent {
      var i :| 0 <= i < |hit| && hit[i] == k;
      assert sent[i] == Sent(Term, k);
    }
  }

  // ── Runs of passes ────────────────────────────────────────────────────────

  /** One firing: what it saw, when, whom its signals do not reach, and whether its state was
      written back. */
  datatype Pass = Pass(now: Time, candidates: seq<Key>, unreachable: set<Key>, dryRun: bool, written: bool)

  predicate Saves(p: Pass) {
    !p.dryRun && p.written
  }

  function Signalled(state: State, p: Pass, grace: Time): seq<Key> {
    if p.dryRun then [] else Hit(Due(state, p.candidates, p.now, grace), p.unreachable)
  }

  function Without(state: State, keys: seq<Key>): State {
    map k | k in state && k !in keys :: state[k]
  }

  function AfterPass(state: State, p: Pass, grace: Time): State {
    if Saves(p) then Without(Fresh(state, p.candidates, p.now), Signalled(state, p, grace)) else state
  }

  /** What was signalled is taken out of the state. */
  method Forget(before: State, hit: seq<Key>) returns (state: State)
    ensures state == Without(before, hit)
  {
    state := before;
    for i := 0 to |hit|
      invariant state == Without(before, hit[..i])
    {
      assert forall k :: k in hit[..i + 1] <==> k in hit[..i] || k == hit[i];
      state := state - {hit[i]};
    }
    assert hit[..|hit|] == hit;
  }

  /** `main`: the file is read, and written back only at the end. */
  method RunPass(file: State, p: Pass, grace: Time, survivors: set<Key>) returns (file': State, sent: seq<Sent>)
    ensures file' == AfterPass(file, p, grace)
    ensures forall k :: Sent(Term, k) in sent <==> k in Signalled(file, p, grace)
    ensures forall k :: Sent(Kill, k) in sent <==> k in Signalled(file, p, grace) && k in survivors
  {
    var r := Reconcile(file, p.candidates, p.now, grace);
    if p.dryRun { return file, []; }
    var hit;
    hit, sent := Reap(r.due, p.unreachable, survivors);
    SentMeans(hit, sent, survivors);
    var state := Forget(r.state, hit);
    return if p.written then state else file, sent;
  }

  function StateAfter(ps: seq<Pass>, grace: Time): State {
    if ps == [] then map[] else AfterPass(StateAfter(ps[..|ps| - 1], grace), ps[|ps| - 1], grace)
  }

  /** Signalled at pass `i` of a run. */
  predicate SignalledAt(ps: seq<Pass>, i: nat, k: Key, grace: Time)
    requires i < |ps|
  {
    k in Signalled(StateAfter(ps[..i], grace), ps[i], grace)
  }

  /** A saved pass at which `k` was a candidate and was not signalled. */
  predicate Carries(ps: seq<Pass>, t: nat, k: Key, grace: Time)
    requires t < |ps|
  {
    Saves(ps[t]) && k in ps[t].candidates && !SignalledAt(ps, t, k, grace)
  }

  /** The last saved pass before `s`. */
  function LastSaved(ps: seq<Pass>, s: nat): (r: int)
    requires s <= |ps|
    ensures -1 <= r < s && (r >= 0 ==> Saves(ps[r])) && forall t | r < t < s :: !Saves(ps[t])
  {
    if s == 0 then -1 else if Saves(ps[s - 1]) then s - 1 else LastSaved(ps, s - 1)
  }

  predicate Unbroken(ps: seq<Pass>, s: nat, i: nat, k: Key, grace: Time)
    requires i <= |ps|
  {
    forall t | s <= t < i && Saves(ps[t]) :: Carries(ps, t, k, grace)
  }

  /** From `s` up to, not including, `i` every saved pass carries `k`, and `s` is where that
      began: it is `i` itself or a saved pass, and the last saved pass before it, if there is
      one, does not carry `k`. */
  predicate Stretch(ps: seq<Pass>, s: nat, i: nat, k: Key, grace: Time)
    requires i <= |ps|
  {
    && s <= i && (s < i ==> Saves(ps[s]))
    && Unbroken(ps, s, i, k, grace)
    && (LastSaved(ps, s) >= 0 ==> !Carries(ps, LastSaved(ps, s), k, grace))
  }

  /** Where the stretch that reaches to `n` began; `n` when there is none. */
  function Since(ps: seq<Pass>, n: nat, k: Key, grace: Time): (s: nat)
    requires n <= |ps|
    ensures s <= n
  {
    if n == 0 then 0
    else
      var before := Since(ps, n - 1, k, grace);
      if !Saves(ps[n - 1]) then (if before == n - 1 then n else before)
      else if Carries(ps, n - 1, k, grace) then before
      else n
  }

  lemma {:induction false} SinceIsStretch(ps: seq<Pass>, n: nat, k: Key, grace: Time)
    requires n <= |ps|
    ensures Stretch(ps, Since(ps, n, k, grace), n, k, grace)
  {
    if n > 0 {
      SinceIsStretch(ps, n - 1, k, grace);
    }
  }

  lemma Prefixes(ps: seq<Pass>, n: nat, i: nat)
    requires i <= n <= |ps|
    ensures ps[..n][..i] == ps[..i]
  {
  }

  lemma StateStep(ps: seq<Pass>, n: nat, k: Key, grace: Time)
    requires n < |ps|
    ensures var before, after := StateAfter(ps[..n], grace), StateAfter(ps[..n + 1], grace);
            if !Saves(ps[n]) then after == before
            else (k in after <==> Carries(ps, n, k, grace)) && (k in after ==> after[k] == FirstSeen(before, k, ps[n].now))
  {
    Prefixes(ps, n + 1, n);
  }

  /** The file remembers exactly the processes with a stretch behind them, and of each the
      time of the pass it began with. */
  lemma {:induction false} FileRemembers(ps: seq<Pass>, n: nat, k: Key, grace: Time)
    requires n <= |ps|
    ensures var state := StateAfter(ps[..n], grace);
            && (k in state <==> Since(ps, n, k, grace) < n)
            && (k in state ==> state[k] == ps[Since(ps, n, k, grace)].now)
  {
    if n > 0 {
      FileRemembers(ps, n - 1, k, grace);
      StateStep(ps, n - 1, k, grace);
    }
  }

  /** There is only the one. */
  lemma {:induction false} StretchUnique(ps: seq<Pass>, s: nat, i: nat, k: Key, grace: Time)
    requires i <= |ps| && Stretch(ps, s, i, k, grace)
    ensures s == Since(ps, i, k, grace)
  {
    if i > 0 {
      if s < i {
        StretchUnique(ps, s, i - 1, k, grace);
      } else if !Saves(ps[i - 1]) {
        StretchUnique(ps, i - 1, i - 1, k, grace);
      }
    }
  }

  lemma SignalledSince(ps: seq<Pass>, i: nat, k: Key, grace: Time)
    requires i < |ps|
    ensures SignalledAt(ps, i, k, grace) <==>
            && !ps[i].dryRun && k in ps[i].candidates && k !in ps[i].unreachable
            && ps[i].now - ps[Since(ps, i, k, grace)].now >= grace
  {
    var state := StateAfter(ps[..i], grace);
    FileRemembers(ps, i, k, grace);
    DueMeans(state, ps[i].candidates, ps[i].now, grace, k);
    HitMeans(Due(state, ps[i].candidates, ps[i].now, grace), ps[i].unreachable, k);
  }

  /** When a process is signalled: exactly when it is a candidate within reach whose unbroken
      stretch of saved passes began at least the grace before. */
  lemma SignalledIff(ps: seq<Pass>, i: nat, k: Key, grace: Time)
    requires i < |ps|
    ensures SignalledAt(ps, i, k, grace) <==>
            && !ps[i].dryRun && k in ps[i].candidates && k !in ps[i].unreachable
            && exists s | 0 <= s <= i :: Stretch(ps, s, i, k, grace) && ps[i].now - ps[s].now >= grace
  {
    SignalledSince(ps, i, k, grace);
    SinceIsStretch(ps, i, k, grace);
    if s :| 0 <= s <= i && Stretch(ps, s, i, k, grace) && ps[i].now - ps[s].now >= grace {
      StretchUnique(ps, s, i, k, grace);
    }
  }

  lemma StretchCarries(ps: seq<Pass>, s: nat, i: nat, k: Key, grace: Time, t: nat)
    requires i <= |ps| && Stretch(ps, s, i, k, grace) && s <= t < i && Saves(ps[t])
    ensures Carries(ps, t, k, grace)
  {
  }

  ghost predicate AllSaved(ps: seq<Pass>) {
    forall t | 0 <= t < |ps| :: Saves(ps[t])
  }

  /** With every pass saved: a signalled process was a candidate at every pass of a stretch
      that ends there and began at least the grace before. */
  lemma SavedRunSignals(ps: seq<Pass>, i: nat, k: Key, grace: Time) returns (s: nat)
    requires i < |ps| && AllSaved(ps) && SignalledAt(ps, i, k, grace)
    ensures s <= i && ps[i].now - ps[s].now >= grace && k in ps[i].candidates
    ensures forall t | s <= t < i :: k in ps[t].candidates && !SignalledAt(ps, t, k, grace)
  {
    SignalledSince(ps, i, k, grace);
    SinceIsStretch(ps, i, k, grace);
    s := Since(ps, i, k, grace);
    forall t | s <= t < i ensures k in ps[t].candidates && !SignalledAt(ps, t, k, grace) {
      StretchCarries(ps, s, i, k, grace, t);
    }
  }

  lemma {:induction false} SinceGrows(ps: seq<Pass>, n: nat, i: nat, k: Key, grace: Time)
    requires n <= i <= |ps|
    ensures Since(ps, n, k, grace) <= Since(ps, i, k, grace)
  {
    if n < i {
      SinceGrows(ps, n, i - 1, k, grace);
    }
  }

  lemma ClockAtBreak(ps: seq<Pass>, t: nat, k: Key, grace: Time)
    requires t < |ps| && !Carries(ps, t, k, grace)
    ensures Since(ps, t + 1, k, grace) == t + 1 <==> Saves(ps[t]) || Since(ps, t, k, grace) == t
  {
  }

  /** A pass from which `k` is absent, or at which it is signalled, restarts the clock for good
      if and only if it is saved or the file held no credit of `k`. */
  lemma BreakRestartsIff(ps: seq<Pass>, t: nat, k: Key, grace: Time)
    requires t < |ps| && (k !in ps[t].candidates || SignalledAt(ps, t, k, grace))
    ensures (forall i | t < i <= |ps| :: Since(ps, i, k, grace) > t) <==> Saves(ps[t]) || k !in StateAfter(ps[..t], grace)
  {
    FileRemembers(ps, t, k, grace);
    ClockAtBreak(ps, t, k, grace);
    if Since(ps, t + 1, k, grace) > t {
      forall i | t < i <= |ps| ensures Since(ps, i, k, grace) > t {
        SinceGrows(ps, t + 1, i, k, grace);
      }
    }
  }

  /** So absence from a saved pass restarts it, and so does a kill, whatever the other passes do:
      the next signal is at least the grace after a pass that follows, where a new stretch begins. */
  lemma BreakRestarts(ps: seq<Pass>, t: nat, i: nat, k: Key, grace: Time) returns (s: nat)
    requires t < i < |ps| && Saves(ps[t])
    requires k !in ps[t].candidates || SignalledAt(ps, t, k, grace)
    requires SignalledAt(ps, i, k, grace)
    ensures t < s <= i && Stretch(ps, s, i, k, grace) && ps[i].now - ps[s].now >= grace
  {
    BreakRestartsIff(ps, t, k, grace);
    SignalledSince(ps, i, k, grace);
    SinceIsStretch(ps, i, k, grace);
    s := Since(ps, i, k, grace);
  }

  /** Not so when a pass cannot save: the file then keeps what it had, so that a process gone
      from that pass is signalled on the credit from before it. */
  lemma UnsavedPassKeepsCredit(k: Key, grace: Time)
    requires grace > 0
    ensures var ps := [Pass(0, [k], {}, false, true), Pass(1, [], {}, false, false), Pass(grace, [k], {}, false, true)];
            SignalledAt(ps, 2, k, grace) && k !in ps[1].candidates
  {
    var ps := [Pass(0, [k], {}, false, true), Pass(1, [], {}, false, false), Pass(grace, [k], {}, false, true)];
    SignalledSince(ps, 0, k, grace);
    SignalledSince(ps, 2, k, grace);
    assert Carries(ps, 0, k, grace);
    assert Since(ps, 1, k, grace) == 0;
  }
}
