/** clients/devbox/src/mount-lock.ts: the lock file that serialises mount commands.

    Contenders act one system call at a time, in any interleaving, and may die between any
    two. A process is named by a number that is never used again, standing for its birth
    identity and its token; operating-system pids are reused. */
module MountLock {
  import opened Wrappers

  type Process = nat
  type Pid = nat

  datatype File = Absent | Lock(owner: Process, written: bool)

  datatype Phase =
    | Trying(attempt: nat)
    | Exists(attempt: nat)
    | Checking(attempt: nat, owner: Process)
    | Breaking(attempt: nat, owner: Process)
    | Created
    | Holding
    | Unlinking
    | Stopped

  datatype State = State(file: File, phase: map<Process, Phase>, pid: map<Process, Pid>, occupant: map<Pid, Process>)

  datatype Event =
    | Start(p: Process, pid: Pid)
    | Open(p: Process)            // open(path, "wx")
    | Write(p: Process)
    | WriteFails(p: Process)
    | Read(p: Process)            // a contender reads the lock it found
    | Look(p: Process, known: bool)
    | Unlink(p: Process)          // and removes what the path names by then
    | ReleaseRead(p: Process)
    | ReleaseUnlink(p: Process)
    | Exit(p: Process)            // at the end, or a crash anywhere

  const INIT := State(Absent, map[], map[], map[])
  const ATTEMPTS := 2

  predicate Live(s: State, p: Process) {
    p in s.pid && s.pid[p] in s.occupant && s.occupant[s.pid[p]] == p
  }

  function To(s: State, p: Process, next: Phase): State {
    s.(phase := s.phase[p := next])
  }

  function AfterBreak(s: State, p: Process, attempt: nat): State {
    To(s, p, if attempt + 1 < ATTEMPTS then Trying(attempt + 1) else Stopped)
  }

  predicate Enabled(s: State, e: Event) {
    if e.Start? then e.p !in s.phase && e.p !in s.pid && e.pid !in s.occupant
    else
      && Live(s, e.p) && e.p in s.phase
      && match e
         case Open(p) => s.phase[p].Trying?
         case Write(p) => s.phase[p].Created?
         case WriteFails(p) => s.phase[p].Created?
         case Read(p) => s.phase[p].Exists?
         case Look(p, _) => s.phase[p].Checking?
         case Unlink(p) => s.phase[p].Breaking?
         case ReleaseRead(p) => s.phase[p].Holding?
         case ReleaseUnlink(p) => s.phase[p].Unlinking?
         case Exit(p) => true
  }

  function Next(s: State, e: Event): State
    requires Enabled(s, e)
  {
    match e
    case Start(p, pid) => State(s.file, s.phase[p := Trying(0)], s.pid[p := pid], s.occupant[pid := p])
    case Open(p) =>
      if s.file.Absent? then To(s, p, Created).(file := Lock(p, false))
      else To(s, p, Exists(s.phase[p].attempt))
    case Write(p) =>
      // the open descriptor: a file already unlinked is written in vain
      To(s, p, Holding).(file := if s.file == Lock(p, false) then Lock(p, true) else s.file)
    case WriteFails(p) => To(s, p, Stopped)
    case Read(p) =>
      if s.file.Lock? && s.file.written then To(s, p, Checking(s.phase[p].attempt, s.file.owner))
      else To(s, p, Stopped)
    case Look(p, known) =>
      var n, o := s.phase[p].attempt, s.phase[p].owner;
      if known && o in s.pid && s.pid[o] !in s.occupant then To(s, p, Breaking(n, o))
      else To(s, p, Stopped)
    case Unlink(p) => AfterBreak(s, p, s.phase[p].attempt).(file := Absent)
    case ReleaseRead(p) => To(s, p, if s.file == Lock(p, true) then Unlinking else Stopped)
    case ReleaseUnlink(p) => To(s, p, Stopped).(file := Absent)
    case Exit(p) => s.(occupant := s.occupant - {s.pid[p]})
  }

  predicate Runs(s: State, es: seq<Event>)
    decreases |es|
  {
    es == [] || (Enabled(s, es[0]) && Runs(Next(s, es[0]), es[1..]))
  }

  function After(s: State, es: seq<Event>): State
    requires Runs(s, es)
    decreases |es|
  {
    if es == [] then s else After(Next(s, es[0]), es[1..])
  }

  // ── Mutual exclusion ──────────────────────────────────────────────────────

  /** Between creating the lock and having removed it. */
  predicate Critical(s: State, p: Process) {
    Live(s, p) && p in s.phase && (s.phase[p].Created? || s.phase[p].Holding? || s.phase[p].Unlinking?)
  }

  /** Running the action the lock protects. */
  predicate Holds(s: State, p: Process) {
    Live(s, p) && p in s.phase && s.phase[p].Holding?
  }

  ghost predicate Exclusive(s: State) {
    forall p, q | Critical(s, p) && Critical(s, q) :: p == q
  }

  ghost predicate Consistent(s: State) {
    && (forall k | k in s.occupant :: s.occupant[k] in s.pid && s.pid[s.occupant[k]] == k)
    && (forall p :: p in s.pid <==> p in s.phase)
  }

  /** A process between creation and removal still finds its own lock at the path. */
  ghost predicate OwnLock(s: State, p: Process) {
    Critical(s, p) ==> s.file == Lock(p, !s.phase[p].Created?)
  }

  /** Whoever is about to break a lock has seen its owner dead. */
  ghost predicate SawDead(s: State, p: Process) {
    p in s.phase && s.phase[p].Breaking? ==> s.phase[p].owner in s.pid && !Live(s, s.phase[p].owner)
  }

  ghost predicate Inv(s: State) {
    Consistent(s) && forall p :: OwnLock(s, p) && SawDead(s, p)
  }

  lemma InvExcludes(s: State)
    requires Inv(s)
    ensures Exclusive(s)
  {
    forall p, q | Critical(s, p) && Critical(s, q) ensures p == q {
      assert OwnLock(s, p) && OwnLock(s, q);
    }
  }

  lemma HolderIsAlone(s: State, p: Process)
    requires Inv(s) && Holds(s, p)
    ensures s.file == Lock(p, true) && forall q | Critical(s, q) :: q == p
  {
    assert OwnLock(s, p);
    forall q | Critical(s, q) ensures q == p {
      assert OwnLock(s, q);
    }
  }

  /** The unlink of a contender does not take away a lock in use. */
  predicate Careful(s: State, e: Event) {
    e.Unlink? && s.file.Lock? ==> !Critical(s, s.file.owner)
  }

  lemma ConsistentStep(s: State, e: Event)
    requires Consistent(s) && Enabled(s, e)
    ensures Consistent(Next(s, e))
    ensures forall p | p in s.pid :: p in Next(s, e).pid && Next(s, e).pid[p] == s.pid[p]
    ensures forall p | p in s.pid && Live(Next(s, e), p) :: Live(s, p)
    ensures !e.Exit? ==> forall p | Live(s, p) :: Live(Next(s, e), p)
  {
  }

  /** Nobody else's phase moves. */
  lemma OthersStay(s: State, e: Event, q: Process)
    requires Enabled(s, e) && q != e.p
    ensures q in Next(s, e).phase <==> q in s.phase
    ensures q in s.phase ==> Next(s, e).phase[q] == s.phase[q]
  {
  }

  lemma SawDeadStep(s: State, e: Event, p: Process)
    requires Inv(s) && Enabled(s, e)
    ensures SawDead(Next(s, e), p)
  {
    ConsistentStep(s, e);
    assert SawDead(s, p);
    if p != e.p {
      OthersStay(s, e, p);
    }
  }

  lemma OwnLockStep(s: State, e: Event, p: Process)
    requires Inv(s) && Enabled(s, e) && Careful(s, e)
    ensures OwnLock(Next(s, e), p)
  {
    ConsistentStep(s, e);
    assert OwnLock(s, p) && OwnLock(s, e.p);
    if p != e.p {
      OthersStay(s, e, p);
    }
  }

  /** Every step keeps the invariant, as long as contenders unlink carefully. */
  lemma InvStep(s: State, e: Event)
    requires Inv(s) && Enabled(s, e) && Careful(s, e)
    ensures Inv(Next(s, e))
  {
    ConsistentStep(s, e);
    forall p ensures OwnLock(Next(s, e), p) && SawDead(Next(s, e), p) {
      OwnLockStep(s, e, p);
      SawDeadStep(s, e, p);
    }
  }

  predicate CarefulRun(s: State, es: seq<Event>)
    requires Runs(s, es)
    decreases |es|
  {
    es == [] || (Careful(s, es[0]) && CarefulRun(Next(s, es[0]), es[1..]))
  }

  lemma {:induction false} CarefulRunExcludes(s: State, es: seq<Event>)
    requires Inv(s) && Runs(s, es) && CarefulRun(s, es)
    ensures Inv(After(s, es)) && Exclusive(After(s, es))
    decreases |es|
  {
    if es == [] {
      InvExcludes(s);
    } else {
      InvStep(s, es[0]);
      CarefulRunExcludes(Next(s, es[0]), es[1..]);
    }
  }

  /** Removing the very lock one has inspected is careful: its owner is dead. */
  lemma InspectedIsCareful(s: State, p: Process)
    requires Inv(s) && Enabled(s, Unlink(p)) && (s.file.Lock? ==> s.file.owner == s.phase[p].owner)
    ensures Careful(s, Unlink(p))
  {
    assert SawDead(s, p);
  }

  // ── Inspect-and-break as one step ─────────────────────────────────────────

  /** No event falls between a contender's read, its lookup and its unlink. */
  predicate Uninterrupted(es: seq<Event>) {
    forall i | 0 <= i < |es| && es[i].Unlink? ::
      i >= 2 && es[i - 1].Look? && es[i - 1].p == es[i].p && es[i - 2] == Read(es[i].p)
  }

  lemma {:induction false} RunsApart(s: State, a: seq<Event>, b: seq<Event>)
    ensures Runs(s, a + b) <==> Runs(s, a) && Runs(After(s, a), b)
    ensures Runs(s, a + b) ==> After(s, a + b) == After(After(s, a), b)
    decreases |a|
  {
    if a == [] {
      assert a + b == b;
    } else {
      assert (a + b)[0] == a[0] && (a + b)[1..] == a[1..] + b;
      if Enabled(s, a[0]) {
        RunsApart(Next(s, a[0]), a[1..], b);
      }
    }
  }

  lemma Prepend(s: State, e: Event, es: seq<Event>)
    ensures Runs(s, [e] + es) <==> Enabled(s, e) && Runs(Next(s, e), es)
    ensures Runs(s, [e] + es) ==> After(s, [e] + es) == After(Next(s, e), es)
  {
    assert ([e] + es)[1..] == es;
  }

  lemma Three(s: State, a: Event, b: Event, c: Event)
    ensures Runs(s, [a, b, c]) <==> Enabled(s, a) && Enabled(Next(s, a), b) && Enabled(Next(Next(s, a), b), c)
    ensures Runs(s, [a, b, c]) ==> After(s, [a, b, c]) == Next(Next(Next(s, a), b), c)
  {
    assert [a, b, c] == [a] + [b, c] && [b, c] == [b] + [c] && [c] == [c] + [];
    Prepend(s, a, [b, c]);
    if Enabled(s, a) {
      Prepend(Next(s, a), b, [c]);
      if Enabled(Next(s, a), b) {
        Prepend(Next(Next(s, a), b), c, []);
      }
    }
  }

  /** Only a written lock whose owner is dead gets that far. */
  lemma BreakInOneGo(s: State, p: Process, known: bool)
    requires Inv(s) && Runs(s, [Read(p), Look(p, known), Unlink(p)])
    ensures Inv(After(s, [Read(p), Look(p, known), Unlink(p)]))
    ensures s.file.Lock? && s.file.written && !Live(s, s.file.owner)
  {
    Three(s, Read(p), Look(p, known), Unlink(p));
    var s1 := Next(s, Read(p));
    InvStep(s, Read(p));
    var s2 := Next(s1, Look(p, known));
    InvStep(s1, Look(p, known));
    InspectedIsCareful(s2, p);
    InvStep(s2, Unlink(p));
  }

  /** An uninterrupted run that ends in an unlink ends in a whole break. */
  lemma Block(s: State, es: seq<Event>) returns (before: seq<Event>, p: Process, known: bool)
    requires es != [] && Runs(s, es) && Uninterrupted(es) && es[|es| - 1].Unlink?
    ensures |before| < |es| && before <= es && es == before + [Read(p), Look(p, known), Unlink(p)]
    ensures Runs(s, before) && Runs(After(s, before), [Read(p), Look(p, known), Unlink(p)])
    ensures After(s, es) == After(After(s, before), [Read(p), Look(p, known), Unlink(p)])
  {
    var n := |es|;
    p, known, before := es[n - 1].p, es[n - 2].known, es[..n - 3];
    assert es == before + [Read(p), Look(p, known), Unlink(p)];
    RunsApart(s, before, [Read(p), Look(p, known), Unlink(p)]);
  }

  lemma LastStep(s: State, es: seq<Event>) returns (before: seq<Event>)
    requires es != [] && Runs(s, es)
    ensures |before| < |es| && before <= es && es == before + [es[|es| - 1]]
    ensures Runs(s, before) && Enabled(After(s, before), es[|es| - 1])
    ensures After(s, es) == Next(After(s, before), es[|es| - 1])
  {
    before := es[..|es| - 1];
    assert es == before + [es[|es| - 1]];
    RunsApart(s, before, [es[|es| - 1]]);
  }

  /** Mutual exclusion in every interleaving of create, write, inspect-and-break, release and
      crash steps. */
  lemma {:induction false} UninterruptedRunExcludes(s: State, es: seq<Event>)
    requires Inv(s) && Runs(s, es) && Uninterrupted(es)
    ensures Inv(After(s, es)) && Exclusive(After(s, es))
    decreases |es|
  {
    if es != [] {
      if es[|es| - 1].Unlink? {
        var before, p, known := Block(s, es);
        UninterruptedRunExcludes(s, before);
        BreakInOneGo(After(s, before), p, known);
      } else {
        var before := LastStep(s, es);
        UninterruptedRunExcludes(s, before);
        InvStep(After(s, before), es[|es| - 1]);
      }
    }
    InvExcludes(After(s, es));
  }

  lemma HalfWrittenStep(s: State, e: Event, q: Process)
    requires Inv(s) && Enabled(s, e) && s.file == Lock(q, false)
    requires !e.Unlink? && e != Write(q)
    ensures Next(s, e).file == s.file
  {
    assert OwnLock(s, e.p);
  }

  /** A half-written lock is never broken, dead or alive its writer: until it is written it
      stays, and nobody gets to run an action. */
  lemma {:induction false} HalfWrittenStays(s: State, es: seq<Event>, q: Process)
    requires Inv(s) && Runs(s, es) && Uninterrupted(es)
    requires s.file == Lock(q, false) && Write(q) !in es
    ensures After(s, es).file == Lock(q, false) && forall p :: !Holds(After(s, es), p)
    decreases |es|
  {
    if es != [] {
      if es[|es| - 1].Unlink? {
        var before, p, known := Block(s, es);
        UninterruptedRunExcludes(s, before);
        HalfWrittenStays(s, before, q);
        BreakInOneGo(After(s, before), p, known);
      } else {
        var before := LastStep(s, es);
        UninterruptedRunExcludes(s, before);
        HalfWrittenStays(s, before, q);
        HalfWrittenStep(After(s, before), es[|es| - 1], q);
      }
    }
    UninterruptedRunExcludes(s, es);
    NobodyHolds(After(s, es), q);
  }

  lemma NobodyHolds(s: State, q: Process)
    requires Inv(s) && s.file == Lock(q, false)
    ensures forall p :: !Holds(s, p)
  {
    forall p ensures !Holds(s, p) {
      assert OwnLock(s, p);
    }
  }

  // ── Interrupted, the break can take a lock in use ─────────────────────────

  lemma {:induction false} Fresh(taken: set<nat>) returns (n: nat)
    ensures forall x | x in taken :: x < n
  {
    if taken == {} {
      n := 0;
    } else {
      var x :| x in taken;
      var m := Fresh(taken - {x});
      n := if m > x then m else x + 1;
      assert forall y | y in taken :: y == x || y in taken - {x};
    }
  }

  /** A newcomer finds no lock and takes it. */
  lemma Newcomer(s: State) returns (r: Process, es: seq<Event>)
    requires Consistent(s) && s.file.Absent?
    ensures Runs(s, es) && NoUnlink(es) && r !in s.phase && Holds(After(s, es), r) && Consistent(After(s, es))
    ensures forall q | q in s.phase && Live(s, q) :: q in After(s, es).phase && After(s, es).phase[q] == s.phase[q] && Live(After(s, es), q)
    ensures forall q | Holds(s, q) :: Holds(After(s, es), q)
  {
    r := Fresh(s.pid.Keys);
    var k := Fresh(s.occupant.Keys);
    assert r !in s.pid && k !in s.occupant;
    es := [Start(r, k), Open(r), Write(r)];
    var s1 := Next(s, Start(r, k));
    assert Enabled(s1, Open(r)) && s1.file.Absent?;
    var s2 := Next(s1, Open(r));
    assert Enabled(s2, Write(r));
    Three(s, Start(r, k), Open(r), Write(r));
    ConsistentStep(s, Start(r, k));
    ConsistentStep(s1, Open(r));
    ConsistentStep(s2, Write(r));
  }

  ghost predicate TwoHold(s: State) {
    exists q, r :: q != r && Holds(s, q) && Holds(s, r)
  }

  /** Nobody breaks a lock in this run. */
  predicate NoUnlink(es: seq<Event>) {
    forall e | e in es :: !e.Unlink?
  }

  lemma {:induction false} NoUnlinkIsCareful(s: State, es: seq<Event>)
    requires Runs(s, es) && NoUnlink(es)
    ensures CarefulRun(s, es)
    decreases |es|
  {
    if es != [] {
      assert es[0] in es && forall e | e in es[1..] :: e in es;
      NoUnlinkIsCareful(Next(s, es[0]), es[1..]);
    }
  }

  /** After an unlink that took a lock in use, two processes can come to hold it: the owner and a
      newcomer or, when the owner is on its way out and removes the newcomer's, two newcomers. */
  lemma CarelessLoses(s: State, p: Process) returns (es: seq<Event>)
    requires Inv(s) && Enabled(s, Unlink(p)) && !Careful(s, Unlink(p))
    ensures NoUnlink(es) && Runs(s, [Unlink(p)] + es) && TwoHold(After(s, [Unlink(p)] + es))
  {
    var q, s1 := s.file.owner, Next(s, Unlink(p));
    ConsistentStep(s, Unlink(p));
    if s.phase[q].Created? {
      assert Enabled(s1, Write(q));
      ConsistentStep(s1, Write(q));
      es := OwnerAndNewcomer(Next(s1, Write(q)), q);
      Prepend(s1, Write(q), es);
      es := [Write(q)] + es;
    } else if s.phase[q].Holding? {
      es := OwnerAndNewcomer(s1, q);
    } else {
      es := TwoNewcomers(s1, q);
    }
    Prepend(s, Unlink(p), es);
  }

  lemma OwnerAndNewcomer(s: State, q: Process) returns (es: seq<Event>)
    requires Consistent(s) && s.file.Absent? && Holds(s, q)
    ensures NoUnlink(es) && Runs(s, es) && TwoHold(After(s, es))
  {
    var r;
    r, es := Newcomer(s);
    assert r != q && Holds(After(s, es), q);
  }

  lemma TwoNewcomers(s: State, q: Process) returns (es: seq<Event>)
    requires Consistent(s) && s.file.Absent? && Enabled(s, ReleaseUnlink(q))
    ensures NoUnlink(es) && Runs(s, es) && TwoHold(After(s, es))
  {
    var first, before := Newcomer(s);
    var s1 := After(s, before);
    assert Enabled(s1, ReleaseUnlink(q));
    ConsistentStep(s1, ReleaseUnlink(q));
    OthersStay(s1, ReleaseUnlink(q), first);
    var s2 := Next(s1, ReleaseUnlink(q));
    var second, behind := Newcomer(s2);
    Prepend(s1, ReleaseUnlink(q), behind);
    RunsApart(s, before, [ReleaseUnlink(q)] + behind);
    es := before + ([ReleaseUnlink(q)] + behind);
    assert second != first && Holds(After(s, es), first);
  }

  lemma ExclusiveHolds(s: State)
    requires Exclusive(s)
    ensures !TwoHold(s)
  {
    forall q, r | Holds(s, q) && Holds(s, r) ensures q == r {
      assert Critical(s, q) && Critical(s, r);
    }
  }

  /** What a single unlink must spare, exactly: two processes can come to hold the lock, with no
      other lock broken after it, if and only if it takes away a lock in use. */
  lemma CarelessIff(s: State, p: Process)
    requires Inv(s) && Enabled(s, Unlink(p))
    ensures !Careful(s, Unlink(p)) <==>
            exists es :: NoUnlink(es) && Runs(s, [Unlink(p)] + es) && TwoHold(After(s, [Unlink(p)] + es))
  {
    if Careful(s, Unlink(p)) {
      forall es | NoUnlink(es) && Runs(s, [Unlink(p)] + es) ensures !TwoHold(After(s, [Unlink(p)] + es)) {
        Prepend(s, Unlink(p), es);
        InvStep(s, Unlink(p));
        NoUnlinkIsCareful(Next(s, Unlink(p)), es);
        CarefulRunExcludes(Next(s, Unlink(p)), es);
        ExclusiveHolds(After(s, [Unlink(p)] + es));
      }
    } else {
      var es := CarelessLoses(s, p);
    }
  }

  lemma Then(s: State, es: seq<Event>, e: Event) returns (s': State, es': seq<Event>)
    requires Runs(INIT, es) && s == After(INIT, es) && Inv(s) && Enabled(s, e) && Careful(s, e)
    ensures es' == es + [e] && Runs(INIT, es') && s' == After(INIT, es') && s' == Next(s, e) && Inv(s')
  {
    es', s' := es + [e], Next(s, e);
    Prepend(s, e, []);
    assert [e] + [] == [e];
    RunsApart(INIT, es, [e]);
    InvStep(s, e);
  }

  /** Process 0 died holding the lock. */
  const LEFT_BEHIND := State(Lock(0, true), map[0 := Holding], map[0 := 0], map[])

  lemma LeftBehind() returns (es: seq<Event>)
    ensures Runs(INIT, es) && After(INIT, es) == LEFT_BEHIND && Inv(LEFT_BEHIND)
  {
    var s := INIT;
    s, es := Then(s, [], Start(0, 0));
    s, es := Then(s, es, Open(0));
    s, es := Then(s, es, Write(0));
    s, es := Then(s, es, Exit(0));
    assert s == LEFT_BEHIND;
  }

  /** Processes 1 and 2 have both found out. */
  const BOTH_BREAKING := State(Lock(0, true), map[0 := Holding, 1 := Breaking(0, 0), 2 := Breaking(0, 0)],
                               map[0 := 0, 1 := 1, 2 := 2], map[1 := 1, 2 := 2])

  lemma OneFindsOut(s: State, es: seq<Event>, p: Process, k: Pid) returns (s': State, es': seq<Event>)
    requires Runs(INIT, es) && s == After(INIT, es) && Inv(s)
    requires s.file == Lock(0, true) && 0 in s.pid && s.pid[0] !in s.occupant
    requires p !in s.phase && k !in s.occupant && k != s.pid[0]
    ensures Runs(INIT, es') && s' == After(INIT, es') && Inv(s')
    ensures s' == State(s.file, s.phase[p := Breaking(0, 0)], s.pid[p := k], s.occupant[k := p])
  {
    var s1, es1 := Then(s, es, Start(p, k));
    var s2, es2 := Then(s1, es1, Open(p));
    var s3, es3 := Then(s2, es2, Read(p));
    s', es' := Then(s3, es3, Look(p, true));
    assert s'.phase == s.phase[p := Breaking(0, 0)];
  }

  /** Such an unlink does happen: two contenders find the lock of a dead process, one breaks it
      and takes the lock, and the other's unlink is still to come. */
  lemma CarelessReachable() returns (es: seq<Event>)
    ensures Runs(INIT, es) && Inv(After(INIT, es))
    ensures Enabled(After(INIT, es), Unlink(2)) && !Careful(After(INIT, es), Unlink(2))
    ensures Holds(After(INIT, es), 1)
  {
    es := LeftBehind();
    var s := LEFT_BEHIND;
    s, es := OneFindsOut(s, es, 1, 1);
    s, es := OneFindsOut(s, es, 2, 2);
    assert s == BOTH_BREAKING;
    s, es := Then(s, es, Unlink(1));
    s, es := Then(s, es, Open(1));
    s, es := Then(s, es, Write(1));
  }

  // ── The code ──────────────────────────────────────────────────────────────

  datatype Acquired = Acquired | Refused

  /** A written lock whose owner has died, its pid not used again. */
  predicate LeftBehindBy(s: State) {
    s.file.Lock? && s.file.written && s.file.owner in s.pid && s.pid[s.file.owner] !in s.occupant
  }

  /** The lock file and the processes around it. */
  class Machine {
    var s: State

    /** What the rest of the machine may do between two system calls of process `p`. */
    method Others(p: Process) returns (ghost alone: bool)
      requires Inv(s) && Live(s, p) && p in s.phase
      modifies this
      ensures Inv(s) && Live(s, p) && p in s.phase && s.phase[p] == old(s.phase[p])
      ensures alone ==> s == old(s)
    {
      alone := true;
      var steps: nat := *;
      while steps > 0
        invariant Inv(s) && Live(s, p) && p in s.phase && s.phase[p] == old(s.phase[p])
        invariant alone ==> s == old(s)
      {
        var e: Event := *;
        if e.p != p && Enabled(s, e) && Careful(s, e) {
          InvStep(s, e);
          ConsistentStep(s, e);
          OthersStay(s, e, p);
          OwnPidStays(s, e, p);
          s := Next(s, e);
          alone := false;
        }
        steps := steps - 1;
      }
    }

    method Do(e: Event)
      requires Inv(s) && Enabled(s, e) && Careful(s, e) && !e.Start? && !e.Exit?
      modifies this
      ensures s == Next(old(s), e) && Inv(s) && Live(s, e.p) && e.p in s.phase
    {
      InvStep(s, e);
      ConsistentStep(s, e);
      s := Next(s, e);
    }

    /** A lock that is there: read it, look its owner up, and break it if that is gone. */
    method InspectAndBreak(p: Process, attempt: nat, lookupFails: bool) returns (broken: bool)
      requires Inv(s) && Live(s, p) && p in s.phase && s.phase[p] == Exists(attempt) && attempt < ATTEMPTS
      modifies this
      ensures Inv(s) && Live(s, p) && p in s.phase
      ensures s.phase[p] == if broken && attempt + 1 < ATTEMPTS then Trying(attempt + 1) else Stopped
      ensures broken <==> !lookupFails && LeftBehindBy(old(s))
      ensures broken ==> s.file.Absent?
    {
      Do(Read(p));
      if s.phase[p].Stopped? { return false; }
      Do(Look(p, !lookupFails));
      if s.phase[p].Stopped? { return false; }
      InspectedIsCareful(s, p);
      Do(Unlink(p));
      return true;
    }

    /** Create the lock and write it, or find one. */
    method TryCreate(p: Process, attempt: nat, writeFails: bool) returns (r: Option<Acquired>, ghost alone: bool)
      requires Inv(s) && Live(s, p) && p in s.phase && s.phase[p] == Trying(attempt)
      modifies this
      ensures Inv(s) && Live(s, p) && p in s.phase
      ensures r == Some(Acquired.Acquired) ==> Holds(s, p)
      ensures r == Some(Refused) ==> s.phase[p].Stopped? && writeFails
      ensures r.None? ==> s.phase[p] == Exists(attempt)
      ensures alone ==> (r.None? <==> !old(s.file).Absent?) && (r.None? ==> s.file == old(s.file) && s.pid == old(s.pid) && s.occupant == old(s.occupant))
      ensures r.Some? && r.value.Acquired? ==> !writeFails
    {
      ghost var before := Others(p);
      Do(Open(p));
      ghost var after := Others(p);
      alone := before && after;
      if !s.phase[p].Created? { return None, alone; }
      if writeFails {
        Do(WriteFails(p));
        return Some(Refused), alone;
      }
      Do(Write(p));
      return Some(Acquired.Acquired), alone;
    }

    /** `acquireMountLock`: at most two tries, and success means the lock is ours alone. With no
        other contender about, it succeeds exactly when it can write and there is no lock, or a
        written one whose owner it finds to be dead. */
    method Acquire(p: Process, lookupFails: bool, writeFails: bool) returns (r: Acquired, ghost alone: bool)
      requires Inv(s) && Live(s, p) && p in s.phase && s.phase[p] == Trying(0)
      modifies this
      ensures Inv(s) && Live(s, p) && p in s.phase
      ensures r.Acquired? ==> Holds(s, p) && s.file == Lock(p, true) && forall q | Critical(s, q) :: q == p
      ensures r.Refused? ==> s.phase[p].Stopped?
      ensures alone ==> (r.Acquired? <==> !writeFails && (old(s).file.Absent? || (!lookupFails && LeftBehindBy(old(s)))))
    {
      var attempt := 0;
      alone := true;
      while attempt < ATTEMPTS
        invariant attempt <= ATTEMPTS && Inv(s) && Live(s, p) && p in s.phase
        invariant s.phase[p] == if attempt < ATTEMPTS then Trying(attempt) else Stopped
        invariant attempt == 0 ==> s == old(s)
        invariant alone && attempt > 0 ==> attempt == 1 && s.file.Absent? && !lookupFails && LeftBehindBy(old(s))
      {
        var made, meanwhile := TryCreate(p, attempt, writeFails);
        alone := alone && meanwhile;
        if made.Some? {
          if made.value.Acquired? { HolderIsAlone(s, p); }
          return made.value, alone;
        }
        var broken := InspectAndBreak(p, attempt, lookupFails);
        if !broken { return Refused, alone; }
        attempt := attempt + 1;
      }
      return Refused, alone;
    }

    /** The release closure removes nothing but its own lock. */
    method Release(p: Process) returns (ghost removed: File)
      requires Inv(s) && Holds(s, p)
      modifies this
      ensures Inv(s) && Live(s, p) && p in s.phase && s.phase[p].Stopped? && !Critical(s, p)
      ensures removed == Lock(p, true) && s.file.Absent?
    {
      var _ := Others(p);
      HolderIsAlone(s, p);
      Do(ReleaseRead(p));
      var _ := Others(p);
      assert OwnLock(s, p);
      removed := s.file;
      Do(ReleaseUnlink(p));
    }
  }

  lemma OwnPidStays(s: State, e: Event, p: Process)
    requires Inv(s) && Enabled(s, e) && e.p != p && Live(s, p)
    ensures Live(Next(s, e), p)
  {
  }
}
