/** clients/devbox/src/apply-lock.ts: a command run under a list of locks. */
module LockedCommands {
  import opened Wrappers

  datatype Command = Command(path: string, args: seq<string>)

  const LOCKF := "/usr/bin/lockf"
  const FLOCK := "/usr/bin/flock"

  function Wrapped(lock: string, c: Command, darwin: bool): Command {
    if darwin then Command(LOCKF, ["-k", "-t", "0", lock, c.path] + c.args)
    else Command(FLOCK, ["-n", "-E", "75", lock, c.path] + c.args)
  }

  datatype Reading = Reading(locks: seq<string>, inner: Command)

  /** What becomes of a command line: a lock tool that is told not to wait takes its lock, or
      gives up, and then runs the command after it. `lockf` is the tool of macOS, `flock` that of
      Linux. The first `n` commands are lock tools. */
  function Read(c: Command, n: nat, darwin: bool): Option<Reading>
    decreases n
  {
    if n == 0 then Some(Reading([], c))
    else
      var options := if darwin then ["-k", "-t", "0"] else ["-n", "-E", "75"];
      if c.path != (if darwin then "/usr/bin/lockf" else "/usr/bin/flock") || |c.args| < 5 || c.args[..3] != options then None
      else
        match Read(Command(c.args[4], c.args[5..]), n - 1, darwin)
        case None => None
        case Some(r) => Some(Reading([c.args[3]] + r.locks, r.inner))
  }

  lemma ReadWrapped(lock: string, c: Command, n: nat, darwin: bool)
    ensures Read(Wrapped(lock, c, darwin), n + 1, darwin) ==
            match Read(c, n, darwin) case None => None case Some(r) => Some(Reading([lock] + r.locks, r.inner))
  {
    var w := Wrapped(lock, c, darwin);
    assert w.args[..3] == if darwin then ["-k", "-t", "0"] else ["-n", "-E", "75"];
    assert w.args[5..] == c.args && w.args[3] == lock && w.args[4] == c.path;
  }

  /** The command built takes the locks in their order and then runs the one given. */
  method RunWithApplyLocks(lockFiles: seq<string>, locked: Command, darwin: bool) returns (c: Command)
    ensures Read(c, |lockFiles|, darwin) == Some(Reading(lockFiles, locked))
  {
    c := locked;
    var i := |lockFiles|;
    assert lockFiles[i..] == [];
    while i > 0
      invariant 0 <= i <= |lockFiles|
      invariant Read(c, |lockFiles| - i, darwin) == Some(Reading(lockFiles[i..], locked))
    {
      i := i - 1;
      ReadWrapped(lockFiles[i], c, |lockFiles| - i - 1, darwin);
      assert lockFiles[i..] == [lockFiles[i]] + lockFiles[i + 1..];
      c := Wrapped(lockFiles[i], c, darwin);
    }
    assert lockFiles[0..] == lockFiles;
  }
}

/** clients/devbox/src/devbox.ts, `apply`: concurrent applies, each killed at any point.

    A lock is the rank of its resource in the order the code sorts them in; the kernel lets
    one process hold it and takes it back when that process ends. */
module ConcurrentApplies {
  import opened Sizes

  type Job = nat
  type Pid = nat
  type Lock = nat
  type Workspace = Lock

  /** Which job's staging tree a file was copied from. */
  type Origin = Job

  /** The lines of the locked script; `Acquiring(n)`: the first `n` locks are held. */
  datatype Line =
    | Acquiring(n: nat)
    | Marking | InstallingAll | InstallingSecrets | MovingAll | MovingSecrets | Cleaning
    | Running
    | Ended

  datatype Apply = Apply(workspace: Workspace, locks: seq<Lock>, pid: Pid, line: Line)

  datatype Kind = All | Secrets

  datatype State = State(jobs: map<Job, Apply>, holder: map<Lock, Job>,
                         next: map<(Workspace, Pid, Kind), Origin>, published: map<(Workspace, Kind), Origin>)

  datatype Event = Start(j: Job, apply: Apply) | Step(j: Job) | End(j: Job)

  predicate Increasing(locks: seq<Lock>) {
    forall i, k | 0 <= i < k < |locks| :: locks[i] < locks[k]
  }

  predicate Alive(s: State, j: Job) {
    j in s.jobs && !s.jobs[j].line.Ended?
  }

  ghost predicate Enabled(s: State, e: Event) {
    match e
    case Start(j, a) =>
      && j !in s.jobs && a.line == Acquiring(0) && Increasing(a.locks) && a.workspace in a.locks
      && forall k | Alive(s, k) :: s.jobs[k].pid != a.pid
    case Step(j) => Alive(s, j) && !s.jobs[j].line.Running?
    case End(j) => Alive(s, j)
  }

  ghost function At(s: State, j: Job, line: Line): State
    requires j in s.jobs
  {
    s.(jobs := s.jobs[j := s.jobs[j].(line := line)])
  }

  ghost function Released(holder: map<Lock, Job>, j: Job): map<Lock, Job> {
    map l | l in holder && holder[l] != j :: holder[l]
  }

  ghost function Ending(s: State, j: Job): State
    requires j in s.jobs
  {
    At(s, j, Ended).(holder := Released(s.holder, j))
  }

  /** One line of job `j`; under `set -e` a failed one ends it, which is what `End` does. */
  ghost function Stepped(s: State, j: Job): State
    requires j in s.jobs && !s.jobs[j].line.Ended? && !s.jobs[j].line.Running?
  {
    var a := s.jobs[j];
    match a.line
    case Acquiring(n) =>
      if n >= |a.locks| then At(s, j, Marking)
      else if a.locks[n] in s.holder then Ending(s, j)
      else At(s, j, Acquiring(n + 1)).(holder := s.holder[a.locks[n] := j])
    case Marking => At(s, j, InstallingAll)
    case InstallingAll => Install(s, j, All, InstallingSecrets)
    case InstallingSecrets => Install(s, j, Secrets, MovingAll)
    case MovingAll => Move(s, j, All, MovingSecrets)
    case MovingSecrets => Move(s, j, Secrets, Cleaning)
    case Cleaning => At(s, j, Running)
    case _ => s
  }

  ghost function Install(s: State, j: Job, k: Kind, line: Line): State
    requires j in s.jobs
  {
    At(s, j, line).(next := s.next[(s.jobs[j].workspace, s.jobs[j].pid, k) := j])
  }

  ghost function Move(s: State, j: Job, k: Kind, line: Line): State
    requires j in s.jobs
  {
    var w, from := s.jobs[j].workspace, (s.jobs[j].workspace, s.jobs[j].pid, k);
    if from !in s.next then Ending(s, j)
    else At(s, j, line).(published := s.published[(w, k) := s.next[from]], next := s.next - {from})
  }

  ghost function Next(s: State, e: Event): State
    requires Enabled(s, e)
  {
    match e
    case Start(j, a) => s.(jobs := s.jobs[j := a])
    case Step(j) => Stepped(s, j)
    case End(j) => Ending(s, j)
  }

  // ── What every step keeps ─────────────────────────────────────────────────

  ghost function Acquired(a: Apply): seq<Lock> {
    match a.line
    case Acquiring(n) => if n <= |a.locks| then a.locks[..n] else a.locks
    case Ended => []
    case _ => a.locks
  }

  predicate PastInstall(l: Line, k: Kind) {
    match k
    case All => l.InstallingSecrets? || l.MovingAll?
    case Secrets => l.MovingAll? || l.MovingSecrets?
  }

  predicate PastMove(l: Line, k: Kind) {
    match k
    case All => l.MovingSecrets? || l.Cleaning? || l.Running?
    case Secrets => l.Cleaning? || l.Running?
  }

  /** A living job holds what it has acquired. */
  ghost predicate HoldsItsLocks(s: State, j: Job) {
    j in s.jobs ==> forall l | l in Acquired(s.jobs[j]) :: l in s.holder && s.holder[l] == j
  }

  ghost predicate WellFormed(s: State, j: Job) {
    j in s.jobs ==> Increasing(s.jobs[j].locks) && s.jobs[j].workspace in s.jobs[j].locks
  }

  /** Its own copy is in place under its pid, and published once moved. */
  ghost predicate OwnFile(s: State, j: Job, k: Kind)
    requires j in s.jobs
  {
    var a := s.jobs[j];
    && (PastInstall(a.line, k) ==> (a.workspace, a.pid, k) in s.next && s.next[(a.workspace, a.pid, k)] == j)
    && (PastMove(a.line, k) ==> (a.workspace, k) in s.published && s.published[(a.workspace, k)] == j)
  }

  ghost predicate OwnFiles(s: State, j: Job) {
    j in s.jobs ==> OwnFile(s, j, All) && OwnFile(s, j, Secrets)
  }

  ghost predicate DistinctPids(s: State) {
    forall i, j | Alive(s, i) && Alive(s, j) && s.jobs[i].pid == s.jobs[j].pid :: i == j
  }

  /** Nobody holds a lock but a job that has acquired it. */
  ghost predicate HeldByAcquirer(s: State) {
    forall l | l in s.holder :: s.holder[l] in s.jobs && l in Acquired(s.jobs[s.holder[l]])
  }

  ghost predicate Inv(s: State) {
    && DistinctPids(s) && HeldByAcquirer(s)
    && forall j :: WellFormed(s, j) && HoldsItsLocks(s, j) && OwnFiles(s, j)
  }

  /** With all its locks. */
  predicate Locked(a: Apply) {
    !a.line.Ended? && !a.line.Acquiring?
  }

  /** Two applies past their locks share none: not the workspace, not a host. */
  lemma LockedExclude(s: State, i: Job, j: Job, l: Lock)
    requires Inv(s) && i in s.jobs && j in s.jobs && Locked(s.jobs[i]) && Locked(s.jobs[j])
    requires l in s.jobs[i].locks && l in s.jobs[j].locks
    ensures i == j
  {
    assert HoldsItsLocks(s, i) && HoldsItsLocks(s, j);
    assert Acquired(s.jobs[i]) == s.jobs[i].locks && Acquired(s.jobs[j]) == s.jobs[j].locks;
  }

  lemma StartKeeps(s: State, j: Job, a: Apply)
    requires Inv(s) && Enabled(s, Start(j, a))
    ensures Inv(Next(s, Start(j, a)))
  {
    var s' := Next(s, Start(j, a));
    forall i ensures WellFormed(s', i) && HoldsItsLocks(s', i) && OwnFiles(s', i) {
      assert WellFormed(s, i) && HoldsItsLocks(s, i) && OwnFiles(s, i);
    }
  }

  lemma EndingKeeps(s: State, j: Job)
    requires Inv(s) && j in s.jobs
    ensures Inv(Ending(s, j))
  {
    var s' := Ending(s, j);
    forall i ensures WellFormed(s', i) && HoldsItsLocks(s', i) && OwnFiles(s', i) {
      assert WellFormed(s, i) && HoldsItsLocks(s, i) && OwnFiles(s, i);
    }
  }

  lemma Acquires(a: Apply, n: nat)
    requires n < |a.locks| && a.line == Acquiring(n)
    ensures Acquired(a.(line := Acquiring(n + 1))) == Acquired(a) + [a.locks[n]]
  {
    assert a.locks[..n + 1] == a.locks[..n] + [a.locks[n]];
  }

  lemma TakeLockKeeps(s: State, j: Job)
    requires Inv(s) && j in s.jobs && s.jobs[j].line.Acquiring? && s.jobs[j].line.n < |s.jobs[j].locks|
    requires s.jobs[j].locks[s.jobs[j].line.n] !in s.holder
    ensures Inv(Stepped(s, j))
  {
    var s' := Stepped(s, j);
    Acquires(s.jobs[j], s.jobs[j].line.n);
    forall i ensures WellFormed(s', i) && HoldsItsLocks(s', i) && OwnFiles(s', i) {
      assert WellFormed(s, i) && HoldsItsLocks(s, i) && OwnFiles(s, i);
    }
  }

  lemma AllAcquired(a: Apply)
    requires a.line.Acquiring? && a.line.n >= |a.locks|
    ensures Acquired(a) == a.locks && Acquired(a.(line := Marking)) == a.locks
  {
    assert a.locks[..|a.locks|] == a.locks;
  }

  lemma AllLocksKeeps(s: State, j: Job)
    requires Inv(s) && j in s.jobs && s.jobs[j].line.Acquiring? && s.jobs[j].line.n >= |s.jobs[j].locks|
    ensures Inv(Stepped(s, j))
  {
    var s' := Stepped(s, j);
    AllAcquired(s.jobs[j]);
    forall i ensures WellFormed(s', i) && HoldsItsLocks(s', i) && OwnFiles(s', i) {
      assert WellFormed(s, i) && HoldsItsLocks(s, i) && OwnFiles(s, i);
    }
  }

  lemma AcquireKeeps(s: State, j: Job)
    requires Inv(s) && j in s.jobs && s.jobs[j].line.Acquiring?
    ensures Inv(Stepped(s, j))
  {
    var a := s.jobs[j];
    if a.line.n >= |a.locks| {
      AllLocksKeeps(s, j);
    } else if a.locks[a.line.n] in s.holder {
      EndingKeeps(s, j);
    } else {
      TakeLockKeeps(s, j);
    }
  }

  /** Going on to a line at which the same locks are held. */
  lemma HeldKept(s: State, s': State, j: Job, line: Line)
    requires Inv(s) && j in s.jobs && Locked(s.jobs[j]) && !line.Acquiring? && !line.Ended?
    requires s'.holder == s.holder && s'.jobs == s.jobs[j := s.jobs[j].(line := line)]
    ensures DistinctPids(s') && HeldByAcquirer(s') && forall i :: WellFormed(s', i) && HoldsItsLocks(s', i)
  {
    forall i ensures WellFormed(s', i) && HoldsItsLocks(s', i) {
      assert WellFormed(s, i) && HoldsItsLocks(s, i);
    }
  }

  /** Another locked job's files are out of reach: it has another pid and another workspace. */
  lemma Apart(s: State, j: Job, i: Job)
    requires Inv(s) && i in s.jobs && j in s.jobs && i != j && Locked(s.jobs[i]) && Locked(s.jobs[j])
    ensures s.jobs[i].workspace != s.jobs[j].workspace
  {
    assert WellFormed(s, i) && WellFormed(s, j);
    if s.jobs[i].workspace == s.jobs[j].workspace {
      LockedExclude(s, i, j, s.jobs[i].workspace);
    }
  }

  lemma UnlockedOwnsNothing(s: State, i: Job, k: Kind)
    requires i in s.jobs && !Locked(s.jobs[i])
    ensures OwnFile(s, i, k)
  {
  }

  lemma InstallKeeps(s: State, j: Job, k: Kind, line: Line)
    requires Inv(s) && j in s.jobs
    requires (k.All? && s.jobs[j].line.InstallingAll? && line.InstallingSecrets?) || (k.Secrets? && s.jobs[j].line.InstallingSecrets? && line.MovingAll?)
    ensures Inv(Install(s, j, k, line))
  {
    var s' := Install(s, j, k, line);
    HeldKept(s, s', j, line);
    forall i | i in s.jobs ensures OwnFile(s', i, All) && OwnFile(s', i, Secrets) {
      assert OwnFiles(s, i);
      if !Locked(s.jobs[i]) {
        UnlockedOwnsNothing(s', i, All);
        UnlockedOwnsNothing(s', i, Secrets);
      } else if i != j {
        Apart(s, j, i);
      }
    }
  }

  lemma MoveKeeps(s: State, j: Job, k: Kind, line: Line)
    requires Inv(s) && j in s.jobs
    requires (k.All? && s.jobs[j].line.MovingAll? && line.MovingSecrets?) || (k.Secrets? && s.jobs[j].line.MovingSecrets? && line.Cleaning?)
    ensures Inv(Move(s, j, k, line))
  {
    var s' := Move(s, j, k, line);
    assert OwnFiles(s, j);
    HeldKept(s, s', j, line);
    forall i | i in s.jobs ensures OwnFile(s', i, All) && OwnFile(s', i, Secrets) {
      assert OwnFiles(s, i);
      if !Locked(s.jobs[i]) {
        UnlockedOwnsNothing(s', i, All);
        UnlockedOwnsNothing(s', i, Secrets);
      } else if i != j {
        Apart(s, j, i);
      }
    }
  }

  lemma GoOnKeeps(s: State, j: Job, line: Line)
    requires Inv(s) && j in s.jobs
    requires (s.jobs[j].line.Marking? && line.InstallingAll?) || (s.jobs[j].line.Cleaning? && line.Running?)
    ensures Inv(At(s, j, line))
  {
    var s' := At(s, j, line);
    HeldKept(s, s', j, line);
    forall i | i in s.jobs ensures OwnFile(s', i, All) && OwnFile(s', i, Secrets) {
      assert OwnFiles(s, i);
    }
  }

  lemma ScriptKeeps(s: State, j: Job)
    requires Inv(s) && j in s.jobs && Locked(s.jobs[j]) && !s.jobs[j].line.Running?
    ensures Inv(Stepped(s, j))
  {
    match s.jobs[j].line
    case Marking => GoOnKeeps(s, j, InstallingAll);
    case InstallingAll => InstallKeeps(s, j, All, InstallingSecrets);
    case InstallingSecrets => InstallKeeps(s, j, Secrets, MovingAll);
    case MovingAll => MoveKeeps(s, j, All, MovingSecrets);
    case MovingSecrets => MoveKeeps(s, j, Secrets, Cleaning);
    case Cleaning => GoOnKeeps(s, j, Running);
    case _ =>
  }

  lemma StepKeeps(s: State, e: Event)
    requires Inv(s) && Enabled(s, e)
    ensures Inv(Next(s, e))
  {
    match e
    case Start(j, a) => StartKeeps(s, j, a);
    case End(j) => EndingKeeps(s, j);
    case Step(j) => if s.jobs[j].line.Acquiring? { AcquireKeeps(s, j); } else { ScriptKeeps(s, j); }
  }

  // ── Runs ──────────────────────────────────────────────────────────────────

  ghost predicate Runs(s: State, es: seq<Event>)
    decreases |es|
  {
    es == [] || (Enabled(s, es[0]) && Runs(Next(s, es[0]), es[1..]))
  }

  ghost function After(s: State, es: seq<Event>): State
    requires Runs(s, es)
    decreases |es|
  {
    if es == [] then s else After(Next(s, es[0]), es[1..])
  }

  lemma {:induction false} RunKeeps(s: State, es: seq<Event>)
    requires Inv(s) && Runs(s, es)
    ensures Inv(After(s, es))
    decreases |es|
  {
    if es != [] {
      StepKeeps(s, es[0]);
      RunKeeps(Next(s, es[0]), es[1..]);
    }
  }

  /** Whatever an earlier run left in the generated directory. */
  ghost predicate Initial(s: State) {
    s.jobs == map[] && s.holder == map[]
  }

  /** In every interleaving of applies that may be killed between any two lines: two running
      playbooks share no workspace and no host, and each reads the two files of its own
      staging tree. */
  lemma RunningAppliesAreSafe(s: State, es: seq<Event>, i: Job)
    requires Initial(s) && Runs(s, es) && i in After(s, es).jobs && After(s, es).jobs[i].line.Running?
    ensures var s', w := After(s, es), After(s, es).jobs[i].workspace;
            && (w, All) in s'.published && s'.published[(w, All)] == i && (w, Secrets) in s'.published && s'.published[(w, Secrets)] == i
            && (forall j, l | j in s'.jobs && s'.jobs[j].line.Running? && l in s'.jobs[i].locks && l in s'.jobs[j].locks :: i == j)
  {
    RunKeeps(s, es);
    var s' := After(s, es);
    assert OwnFiles(s', i);
    forall j, l | j in s'.jobs && s'.jobs[j].line.Running? && l in s'.jobs[i].locks && l in s'.jobs[j].locks ensures i == j {
      LockedExclude(s', i, j, l);
    }
  }

  // ── Contention ────────────────────────────────────────────────────────────

  /** Still short of a lock. */
  predicate Short(a: Apply) {
    a.line.Acquiring? && a.line.n < |a.locks|
  }

  function Wanted(a: Apply): Lock
    requires Short(a)
  {
    a.locks[a.line.n]
  }

  ghost function FurtherOn(s: State, l: Lock): set<Job> {
    set i | i in s.jobs && Short(s.jobs[i]) && Wanted(s.jobs[i]) > l
  }

  /** Whoever is refused a lock is refused it by a job further on. */
  lemma RefusedByFurtherOn(s: State, j: Job)
    requires Inv(s) && j in s.jobs && Short(s.jobs[j]) && Wanted(s.jobs[j]) in s.holder
    ensures var k := s.holder[Wanted(s.jobs[j])];
            k in s.jobs && (Locked(s.jobs[k]) || (s.jobs[k].line.Acquiring? && (Short(s.jobs[k]) ==> Wanted(s.jobs[k]) > Wanted(s.jobs[j]))))
  {
    var l := Wanted(s.jobs[j]);
    var k := s.holder[l];
    assert WellFormed(s, k);
    if Short(s.jobs[k]) {
      var i :| 0 <= i < s.jobs[k].line.n && s.jobs[k].locks[i] == l;
    }
  }

  /** Contending applies never all refuse each other: because every apply takes its locks in
      the one order, some apply either has all its locks or is about to get its next. */
  lemma {:induction false} SomeoneProceeds(s: State, j: Job) returns (k: Job)
    requires Inv(s) && j in s.jobs && Short(s.jobs[j])
    ensures k in s.jobs && !s.jobs[k].line.Ended?
    ensures Short(s.jobs[k]) ==> Wanted(s.jobs[k]) !in s.holder
    decreases |FurtherOn(s, Wanted(s.jobs[j]))|
  {
    var l := Wanted(s.jobs[j]);
    if l !in s.holder {
      k := j;
    } else {
      RefusedByFurtherOn(s, j);
      k := s.holder[l];
      if Short(s.jobs[k]) {
        assert k in FurtherOn(s, l) && k !in FurtherOn(s, Wanted(s.jobs[k]));
        Shrinks(FurtherOn(s, Wanted(s.jobs[k])), FurtherOn(s, l), k);
        k := SomeoneProceeds(s, k);
      }
    }
  }

  lemma Shrinks(a: set<Job>, b: set<Job>, x: Job)
    requires a <= b && x in b && x !in a
    ensures |a| < |b|
  {
    assert a <= b - {x};
    SubsetSize(a, b - {x});
  }
}
