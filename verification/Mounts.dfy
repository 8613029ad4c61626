/** clients/devbox/src/mount.ts: reserve, spawn, commit, verify; and what is undone when a
    step fails. Commands run one at a time, under the lock of `MountLock`. */
module Mounts {
  import opened Wrappers
  import opened Bridges
  import opened MountWorld

  // ── Decisions ─────────────────────────────────────────────────────────────

  datatype Evidence = Evidence(mounted: bool, reachable: Option<bool>, openHandles: Option<nat>, ownedBridge: Option<bool>)

  datatype Recovery = Run(reason: string, unmountFirst: bool) | Skip(reason: string) | Refuse(reason: string)

  function DecideMountRecovery(e: Evidence): Recovery {
    if e.ownedBridge.None? then Refuse("mount_evidence_unknown")
    else if !e.ownedBridge.value then Refuse("foreign_mount_process")
    else if !e.mounted then Run("mount_absent", false)
    else if e.reachable == Some(true) then Skip("already_healthy")
    else if e.reachable.None? then Refuse("mount_evidence_unknown")
    else if e.openHandles.None? then Refuse("mount_busy_or_unknown")
    else if e.openHandles.value > 0 then Refuse("mount_busy")
    else Run("mount_disconnected_clean", true)
  }

  datatype Status = Healthy | Failed | Unknown | Blocked

  datatype Health = Health(status: Status, reason: string)

  function MountHealth(e: Evidence): Health {
    match DecideMountRecovery(e)
    case Skip(_) => Health(Healthy, "")
    case Run(reason, _) => Health(Failed, reason)
    case Refuse(reason) =>
      if reason == "mount_evidence_unknown" || reason == "mount_busy_or_unknown" then Health(Status.Unknown, reason)
      else Health(Blocked, reason)
  }

  datatype Start = Go | Leave(reason: string) | Decline(reason: string)

  function DecideMountStart(h: Option<Health>): Start {
    if h.Some? && h.value == Health(Failed, "mount_absent") then Go
    else if h.Some? && h.value.status.Healthy? then Leave("already_healthy")
    else Decline(if h.Some? then h.value.reason else "mount_evidence_unknown")
  }

  /** A mount is started only on proof that nothing is mounted and nobody else is at it, and
      an existing one is taken down only on proof that it is ours, unreachable and unused. */
  lemma ActsOnlyOnProof(e: Evidence)
    ensures DecideMountStart(Some(MountHealth(e))).Go? <==> e.ownedBridge == Some(true) && !e.mounted
    ensures DecideMountRecovery(e) == Run("mount_disconnected_clean", true) <==>
            e.ownedBridge == Some(true) && e.mounted && e.reachable == Some(false) && e.openHandles == Some(0)
    ensures DecideMountRecovery(e).Run? && DecideMountRecovery(e).unmountFirst ==> !DecideMountStart(Some(MountHealth(e))).Go?
  {
    if e.reachable.Some? && !e.reachable.value && e.openHandles.Some? && e.ownedBridge.Some? && e.ownedBridge.value {
      assert e.reachable == Some(false) && e.ownedBridge == Some(true);
      assert e.openHandles.value == 0 ==> e.openHandles == Some(0);
    }
    if e.ownedBridge == Some(true) && e.mounted && e.reachable == Some(false) && e.openHandles == Some(0) {
      assert "mount_disconnected_clean"[6] != "mount_absent"[6];
    }
  }

  /** What a health report says: healthy when ours, mounted and reachable; failed when it can be
      started or recovered; blocked when it is foreign or in use; unknown where evidence is
      missing. */
  lemma HealthMeans(e: Evidence)
    ensures var h, foreign, ours := MountHealth(e), e.ownedBridge.Some? && !e.ownedBridge.value, e.ownedBridge.Some? && e.ownedBridge.value;
            var reached, lost := e.reachable.Some? && e.reachable.value, e.reachable.Some? && !e.reachable.value;
            && (h.status.Healthy? <==> ours && e.mounted && reached)
            && (h.status.Blocked? <==> foreign || (ours && e.mounted && lost && e.openHandles.Some? && e.openHandles.value > 0))
            && (h.status.Failed? <==> ours && (!e.mounted || (lost && e.openHandles.Some? && e.openHandles.value == 0)))
            && (h.status.Unknown? <==> e.ownedBridge.None? || (ours && e.mounted && (e.reachable.None? || (lost && e.openHandles.None?))))
            && (h.status.Failed? ==> h.reason == if e.mounted then "mount_disconnected_clean" else "mount_absent")
            && (h.status.Blocked? ==> h.reason == if foreign then "foreign_mount_process" else "mount_busy")
            && (h.status.Unknown? ==> h.reason == if e.ownedBridge.None? || e.reachable.None? then "mount_evidence_unknown" else "mount_busy_or_unknown")
  {
    Reasons();
    assert e.reachable == Some(true) <==> e.reachable.Some? && e.reachable.value;
  }

  /** Started when absent, left when healthy, otherwise declined for the reason reported. */
  lemma StartMeans(h: Health)
    ensures DecideMountStart(None) == Decline("mount_evidence_unknown")
    ensures h == Health(Failed, "mount_absent") ==> DecideMountStart(Some(h)) == Go
    ensures h.status == Healthy ==> DecideMountStart(Some(h)) == Leave("already_healthy")
    ensures h != Health(Failed, "mount_absent") && h.status != Healthy ==> DecideMountStart(Some(h)) == Decline(h.reason)
  {
  }

  lemma Reasons()
    ensures "foreign_mount_process" != "mount_evidence_unknown" && "foreign_mount_process" != "mount_busy_or_unknown"
    ensures "mount_busy" != "mount_evidence_unknown" && "mount_busy" != "mount_busy_or_unknown"
  {
    assert "foreign_mount_process"[0] == 'f' && "mount_evidence_unknown"[0] == 'm' && "mount_busy_or_unknown"[0] == 'm';
    assert |"mount_busy"| == 10 && |"mount_evidence_unknown"| == 22 && |"mount_busy_or_unknown"| == 21;
  }

  // ── Waiting for processes ─────────────────────────────────────────────────

  const IDENTITY_ATTEMPTS := 20
  const EXIT_ATTEMPTS := 30

  ghost predicate WithoutAt(a: Instant, i: Instant, b: Instant, pid: int, identity: Option<Ident>) {
    Later(a, i) && Later(i, b) && if identity.Some? then Absent(i.procs, pid, identity) else pid !in i.procs
  }

  /** At some instant from `a` to `b` this process, or any under the pid, was not there. */
  ghost predicate SeenWithout(a: Instant, b: Instant, pid: int, identity: Option<Ident>) {
    exists i :: WithoutAt(a, i, b, pid, identity)
  }

  ghost predicate HereAt(a: Instant, i: Instant, b: Instant, e: LiveMount) {
    Later(a, i) && Later(i, b) && !Departed(i.procs, e)
  }

  /** At some instant from `a` to `b` one of the processes was still there. */
  ghost predicate SeenHere(a: Instant, b: Instant, e: LiveMount) {
    exists i :: HereAt(a, i, b, e)
  }

  /** No identity: the pid was seen free, or every one of the lookups failed. */
  method WaitForProcessIdentity(w: World, pid: int) returns (r: Outcome<Option<Ident>>)
    requires w.Valid()
    modifies w`procs, w`next, w`unanswered, w`signals, w`refused, w`disturbances, w`noes
    ensures w.Valid() && w.Waited() && !r.Thrown?
    ensures r.Done? && r.value.Some? ==> pid in w.procs && w.procs[pid] == r.value.value
    ensures r.Done? && r.value.None? ==>
              pid !in w.procs || w.unanswered[pid] == old(w.unanswered[pid]) + 20
    ensures r.Done? && w.Calm() && pid in old(w.procs) ==> r.value == Some(old(w.procs)[pid])
    ensures w.noes == old(w.noes)
  {
    for attempt := 0 to IDENTITY_ATTEMPTS
      invariant w.Valid() && w.Waited() && w.unanswered[pid] == old(w.unanswered[pid]) + attempt
      invariant w.noes == old(w.noes) && (attempt > 0 ==> !w.Calm())
    {
      var seen :- w.Lookup(pid);
      if seen.Identity? { return Done(Some(seen.id)); }
      if seen.NoProcess? { return Done(None); }
    }
    return Done(None);
  }

  /** Not stopped: it was not there to begin with, the signal was refused, a lookup failed, or it
      outlived the attempts. */
  method StopExactProcess(w: World, pid: int, identity: Ident) returns (r: Outcome<bool>)
    requires w.Valid() && identity < w.next
    modifies w`procs, w`next, w`unanswered, w`signals, w`refused, w`disturbances, w`noes
    ensures w.Valid() && w.Waited() && !r.Thrown?
    ensures r.Done? && r.value ==> Absent(w.procs, pid, Some(identity))
    ensures r.Done? && !r.value ==>
              || w.unanswered[pid] > old(w.unanswered[pid]) || w.signals[pid] > old(w.signals[pid]) || w.refused[pid] > old(w.refused[pid])
              || SeenWithout(old(w.Now()), w.Now(), pid, Some(identity))
    ensures r.Done? && !r.value && w.unanswered[pid] == old(w.unanswered[pid]) ==>
              Absent(w.procs, pid, Some(identity)) || w.signals[pid] > old(w.signals[pid]) || w.refused[pid] > old(w.refused[pid])
  {
    var first :- w.Lookup(pid);
    if first != Identity(identity) {
      assert !first.Unknown? ==> WithoutAt(old(w.Now()), w.Now(), w.Now(), pid, Some(identity));
      return Done(false);
    }
    var sent :- w.Signal(pid);
    if sent.NotPermitted? { return Done(false); }
    ghost var signals := w.signals;
    for attempt := 0 to EXIT_ATTEMPTS
      invariant w.Valid() && w.Waited() && w.signals == signals && w.unanswered[pid] >= old(w.unanswered[pid])
      invariant sent.NoSuchProcess? ==> Absent(w.procs, pid, Some(identity))
      invariant attempt > 0 && sent.NoSuchProcess? ==> w.unanswered[pid] > old(w.unanswered[pid])
    {
      ghost var before := w.Now();
      var observed :- w.Lookup(pid);
      if Absent(before.procs, pid, Some(identity)) {
        AbsentLater(before.procs, before.next, w.procs, w.next, pid, Some(identity));
      }
      if !observed.Unknown? && observed != Identity(identity) { return Done(true); }
    }
    return Done(false);
  }

  ghost predicate Unanswered(a: Instant, b: Instant, e: LiveMount) {
    a.unanswered[e.rclonePid] < b.unanswered[e.rclonePid] || a.unanswered[e.sshPid] < b.unanswered[e.sshPid]
  }

  /** One look at both processes. */
  method LookForExit(w: World, e: LiveMount) returns (r: Outcome<bool>)
    requires w.Valid() && EntryPast(e, w.next) && Committed(e)
    modifies w`procs, w`next, w`unanswered, w`signals, w`refused, w`disturbances, w`noes
    ensures w.Valid() && w.Waited() && w.Noted() && !r.Thrown?
    ensures r.Done? && r.value ==> Departed(w.procs, e)
    ensures r.Done? && !r.value ==> Unanswered(old(w.Now()), w.Now(), e) || SeenHere(old(w.Now()), w.Now(), e)
    ensures r.Done? && !r.value ==> !w.Calm() || SeenHere(old(w.Now()), w.Now(), e)
  {
    var rclone :- w.Lookup(e.rclonePid);
    ghost var instant := w.Now();
    var ssh := w.Lookup(e.sshPid);
    EvolvesAgain(old(w.procs), old(w.next), instant.procs, instant.next, w.procs, w.next);
    if ssh.Killed? { return Killed; }
    var rcloneGone := rclone != Identity(e.rcloneIdentity.value);
    var sshGone := ssh.value != Identity(e.sshIdentity.value);
    if !rcloneGone {
      assert HereAt(old(w.Now()), instant, w.Now(), e);
    } else if !sshGone {
      assert HereAt(old(w.Now()), w.Now(), w.Now(), e);
    } else if !rclone.Unknown? && !ssh.value.Unknown? {
      AbsentLater(instant.procs, instant.next, w.procs, w.next, e.rclonePid, e.rcloneIdentity);
    }
    return Done(!rclone.Unknown? && !ssh.value.Unknown? && rcloneGone && sshGone);
  }

  /** Not gone: at the last look one of the two was still there, or a lookup failed. */
  method WaitForBridgeExit(w: World, e: LiveMount) returns (r: Outcome<bool>)
    requires w.Valid() && EntryPast(e, w.next) && Committed(e)
    modifies w`procs, w`next, w`unanswered, w`signals, w`refused, w`disturbances, w`noes
    ensures w.Valid() && w.Waited() && w.Noted() && !r.Thrown?
    ensures r.Done? && r.value ==> Departed(w.procs, e)
    ensures r.Done? && !r.value ==> Unanswered(old(w.Now()), w.Now(), e) || SeenHere(old(w.Now()), w.Now(), e)
    ensures r.Done? && !r.value ==> !w.Calm() || SeenHere(old(w.Now()), w.Now(), e)
  {
    for attempt := 0 to EXIT_ATTEMPTS
      invariant w.Valid() && w.Waited() && w.Noted()
      invariant attempt > 0 ==> Unanswered(old(w.Now()), w.Now(), e) || SeenHere(old(w.Now()), w.Now(), e)
      invariant attempt > 0 ==> !w.Calm() || SeenHere(old(w.Now()), w.Now(), e)
    {
      ghost var before := w.Now();
      var gone := LookForExit(w, e);
      EvolvesAgain(old(w.procs), old(w.next), before.procs, before.next, w.procs, w.next);
      if gone.Killed? { return Killed; }
      if gone.value { return Done(true); }
      HereOrNot(old(w.Now()), before, w.Now(), e);
    }
    return Done(false);
  }

  lemma HereOrNot(a: Instant, b: Instant, c: Instant, e: LiveMount)
    requires Follows(a, b) && (Unanswered(b, c, e) || SeenHere(b, c, e))
    ensures Unanswered(a, c, e) || SeenHere(a, c, e)
    ensures SeenHere(b, c, e) ==> SeenHere(a, c, e)
  {
    assert a.unanswered[e.rclonePid] <= b.unanswered[e.rclonePid] && a.unanswered[e.sshPid] <= b.unanswered[e.sshPid];
    if SeenHere(b, c, e) {
      var i :| HereAt(b, i, c, e);
      EvolvesAgain(a.procs, a.next, b.procs, b.next, i.procs, i.next);
      assert HereAt(a, i, c, e);
    }
  }

  // ── Entries of one mount ──────────────────────────────────────────────────

  /** All other entries are left alone. */
  twostate predicate OthersKept(w: World, entry: LiveMount)
    reads w
  {
    Evolves(old(w.procs), old(w.next), w.procs, w.next) && SameBeside(old(w.bridges), w.bridges, entry) && w.Steady()
  }

  function Without(list: seq<LiveMount>, entry: LiveMount): (r: seq<LiveMount>)
    ensures forall e :: e in r <==> e in list && !SameEntry(e, entry)
  {
    if list == [] then []
    else (if SameEntry(list[0], entry) then [] else [list[0]]) + Without(list[1..], entry)
  }

  method RemoveBridgeEntry(w: World, entry: LiveMount) returns (r: Outcome<()>)
    requires w.Valid() && Beyond(w.procs, w.spawned, w.bridges, entry, {})
    modifies w`bridges, w`procs, w`next, w`unanswered, w`signals, w`refused, w`disturbances, w`noes
    ensures w.Valid() && w.spawned == old(w.spawned) && OthersKept(w, entry)
    ensures r.Done? ==> forall e | e in w.bridges :: !SameEntry(e, entry)
    ensures w.noes == old(w.noes) && (r.Thrown? ==> !w.Calm())
  {
    var list :- w.ReadBridges();
    BeyondLater(old(w.procs), old(w.next), w.procs, w.next, w.spawned, w.bridges, w.bridges, entry, {});
    DropUnused(w.procs, w.next, w.spawned, w.bridges, Without(list, entry), entry);
    r := w.WriteBridges(Without(list, entry));
  }

  method FindEntry(list: seq<LiveMount>, entry: LiveMount) returns (index: int)
    ensures -1 <= index < |list|
    ensures index < 0 ==> forall e | e in list :: !SameEntry(e, entry)
    ensures index >= 0 ==> SameEntry(list[index], entry) && forall i | 0 <= i < index :: !SameEntry(list[i], entry)
  {
    for i := 0 to |list|
      invariant forall j | 0 <= j < i :: !SameEntry(list[j], entry)
    {
      if SameEntry(list[i], entry) { return i; }
    }
    return -1;
  }

  method ReplaceBridgeEntry(w: World, previous: LiveMount, replacement: LiveMount, ghost ids: set<Ident>) returns (r: Outcome<()>)
    requires w.Valid() && SameEntry(previous, replacement) && EntryPast(replacement, w.next)
    requires Stands(w.procs, w.spawned, w.bridges, replacement, ids)
    modifies w`bridges, w`procs, w`next, w`unanswered, w`signals, w`refused, w`disturbances, w`noes
    ensures w.Valid() && w.spawned == old(w.spawned) && OthersKept(w, replacement)
    ensures r.Done? ==> replacement in w.bridges
    ensures w.noes == old(w.noes)
    ensures r.Thrown? ==> !w.Calm() || forall e | e in old(w.bridges) :: !SameEntry(e, previous)
  {
    var bridges :- w.ReadBridges();
    var index := FindEntry(bridges, previous);
    if index < 0 { return Thrown; }
    StandsLater(old(w.procs), old(w.next), w.procs, w.next, w.spawned, w.bridges, w.bridges, replacement, ids);
    var updated := bridges[index := replacement];
    Updated(bridges, index, replacement);
    Supersede(w.procs, w.next, w.spawned, w.bridges, updated, replacement, ids);
    r := w.WriteBridges(updated);
  }

  lemma Updated(list: seq<LiveMount>, index: nat, e: LiveMount)
    requires index < |list| && SameEntry(list[index], e)
    ensures e in list[index := e] && SameBeside(list, list[index := e], e)
    ensures forall x | x in list[index := e] :: x == e || x in list
  {
    assert list[index := e][index] == e;
    forall x | x in list && !SameEntry(x, e) ensures x in list[index := e] {
      var i :| 0 <= i < |list| && list[i] == x;
      assert list[index := e][i] == x;
    }
  }

  /** `entry` speaks for the processes `ids`, and other entries for all the rest. */
  ghost predicate Stands(procs: Procs, spawned: Children, bridges: seq<LiveMount>, entry: LiveMount, ids: set<Ident>) {
    && Beyond(procs, spawned, bridges, entry, ids)
    && forall id | id in ids && Live(procs, spawned, id) :: Covers(entry, spawned[id], id)
  }

  lemma StandsLater(procs: Procs, next: Ident, procs': Procs, next': Ident, spawned: Children,
                    bridges: seq<LiveMount>, bridges': seq<LiveMount>, entry: LiveMount, ids: set<Ident>)
    requires Past(procs, next, spawned) && Evolves(procs, next, procs', next')
    requires Stands(procs, spawned, bridges, entry, ids) && SameBeside(bridges, bridges', entry)
    ensures Stands(procs', spawned, bridges', entry, ids)
  {
    BeyondLater(procs, next, procs', next', spawned, bridges, bridges', entry, ids);
    forall id | Live(procs', spawned, id) ensures Live(procs, spawned, id) {
      LiveBefore(procs, next, procs', next', spawned, id);
    }
  }

  lemma NothingLeft(procs: Procs, spawned: Children, bridges: seq<LiveMount>, entry: LiveMount, ids: set<Ident>)
    requires Departed(procs, entry) && Stands(procs, spawned, bridges, entry, ids)
    ensures Beyond(procs, spawned, bridges, entry, {})
  {
    forall id | Live(procs, spawned, id) ensures CoveredBeside(bridges, entry, spawned[id], id) {
      DepartedCoversNothing(procs, spawned, entry, id);
    }
  }

  /** Every one of `ids` has ended. */
  lemma AllEnded(procs: Procs, spawned: Children, bridges: seq<LiveMount>, entry: LiveMount, ids: set<Ident>)
    requires Beyond(procs, spawned, bridges, entry, ids)
    requires forall id | id in ids :: !Live(procs, spawned, id)
    ensures Beyond(procs, spawned, bridges, entry, {})
  {
  }

  // ── What a command has started ────────────────────────────────────────────

  /** One process more in this role of this mount; when not `sure`, possibly none. */
  ghost predicate Added(spawned: Children, spawned': Children, key: Key, role: Role, sure: bool) {
    (!sure && spawned' == spawned) || OneMore(spawned, spawned', key, role)
  }

  ghost predicate OneMore(spawned: Children, spawned': Children, key: Key, role: Role) {
    exists id | id in spawned' ::
      id !in spawned && spawned' == spawned[id := spawned'[id]] && spawned'[id].key == key && spawned'[id].role == role
  }

  /** Both processes of a mount; when not `sure`, possibly only the first or none. */
  ghost predicate PairAdded(spawned: Children, spawned': Children, key: Key, sure: bool) {
    exists mid :: Added(spawned, mid, key, Rclone, sure) && Added(mid, spawned', key, Ssh, sure)
  }

  /** The processes started since in one role of a mount. */
  function New(spawned: Children, spawned': Children, key: Key, role: Role): set<Ident> {
    set id | id in spawned' && id !in spawned && spawned'[id].key == key && spawned'[id].role == role
  }

  lemma NewSplits(a: Children, b: Children, c: Children, key: Key, role: Role)
    requires Extends(a, b) && Extends(b, c)
    ensures |New(a, c, key, role)| == |New(a, b, key, role)| + |New(b, c, key, role)|
  {
    assert New(a, c, key, role) == New(a, b, key, role) + New(b, c, key, role);
  }

  lemma AddedCounts(a: Children, b: Children, key: Key, role: Role, sure: bool, k: Key, r: Role)
    requires Added(a, b, key, role, sure)
    ensures Extends(a, b) && |New(a, b, k, r)| <= (if k == key && r == role then 1 else 0)
    ensures sure ==> |New(a, b, k, r)| == if k == key && r == role then 1 else 0
    ensures forall id | id in b && id !in a :: b[id].key == key
  {
    if b == a {
      assert New(a, b, k, r) == {};
    } else {
      var id :| id in b && id !in a && b == a[id := b[id]] && b[id].key == key && b[id].role == role;
      assert New(a, b, k, r) == if k == key && r == role then {id} else {};
    }
  }

  lemma PairCounts(a: Children, c: Children, key: Key, sure: bool, k: Key, r: Role)
    requires PairAdded(a, c, key, sure)
    ensures Extends(a, c) && |New(a, c, k, r)| <= (if k == key then 1 else 0)
    ensures sure ==> |New(a, c, k, r)| == if k == key then 1 else 0
    ensures forall id | id in c && id !in a :: c[id].key == key
  {
    var b :| Added(a, b, key, Rclone, sure) && Added(b, c, key, Ssh, sure);
    AddedCounts(a, b, key, Rclone, sure, k, r);
    AddedCounts(b, c, key, Ssh, sure, k, r);
    NewSplits(a, b, c, k, r);
  }

  // ── Starting one mount ────────────────────────────────────────────────────

  /** The child `id`, if it still runs, is the process of this mount seen under `pid` as `identity`. */
  ghost predicate Known(procs: Procs, spawned: Children, id: Ident, key: Key, pid: int, identity: Ident) {
    Live(procs, spawned, id) ==> spawned[id].key == key && spawned[id].pid == pid && id == identity
  }

  lemma KnownLater(procs: Procs, next: Ident, procs': Procs, next': Ident, spawned: Children, id: Ident, key: Key, pid: int, identity: Ident)
    requires Past(procs, next, spawned) && Evolves(procs, next, procs', next') && Known(procs, spawned, id, key, pid, identity)
    ensures Known(procs', spawned, id, key, pid, identity)
  {
    if Live(procs', spawned, id) {
      LiveBefore(procs, next, procs', next', spawned, id);
    }
  }

  /** The child `id`, if there is one, was started under `pid` in this role of this mount. */
  ghost predicate Started(spawned: Children, id: Ident, key: Key, role: Role, pid: int) {
    id in spawned ==> spawned[id] == Child(key, role, pid)
  }

  /** Ask both to exit and see to it. It fails, where both had gone already, only when something
      went wrong or one of the pids belongs to another process. */
  method Terminate(w: World, entry: LiveMount) returns (r: Outcome<bool>)
    requires w.Valid() && EntryPast(entry, w.next) && Committed(entry)
    modifies w`procs, w`next, w`unanswered, w`signals, w`refused, w`disturbances, w`noes
    ensures w.Valid() && w.Waited() && w.Noted() && !r.Thrown?
    ensures r.Done? && r.value ==> Departed(w.procs, entry)
    ensures r.Done? && !r.value && old(Departed(w.procs, entry)) && w.Calm() ==>
              Barred(old(w.Now()), w.Now(), entry.rclonePid, entry.rcloneIdentity) || Barred(old(w.Now()), w.Now(), entry.sshPid, entry.sshIdentity)
  {
    var stopped :- w.StopOwnedBridgeProcesses(entry);
    ghost var asked := w.Now();
    if !stopped.safe { return Done(false); }
    r := WaitForBridgeExit(w, entry);
    EvolvesAgain(old(w.procs), old(w.next), asked.procs, asked.next, w.procs, w.next);
    if old(Departed(w.procs, entry)) {
      HereBefore(old(w.Now()), asked, w.Now(), entry);
    }
  }

  /** `catch` of the startup: whatever went wrong, the entry goes only with its processes; and it
      does go when they had gone, unless that cannot be told. */
  method Unwind(w: World, entry: LiveMount, ghost ids: set<Ident>) returns (r: Outcome<()>)
    requires w.Valid() && EntryPast(entry, w.next) && Committed(entry) && Stands(w.procs, w.spawned, w.bridges, entry, ids)
    modifies w`bridges, w`procs, w`next, w`unanswered, w`signals, w`refused, w`disturbances, w`noes
    ensures w.Valid() && w.spawned == old(w.spawned) && OthersKept(w, entry) && !r.Done?
    ensures entry in w.bridges || entry !in old(w.bridges) || Departed(w.procs, entry)
    ensures r.Thrown? && entry in w.bridges && old(Departed(w.procs, entry)) && w.Calm() ==>
              Barred(old(w.Now()), w.Now(), entry.rclonePid, entry.rcloneIdentity) || Barred(old(w.Now()), w.Now(), entry.sshPid, entry.sshIdentity)
  {
    var _ :- w.Tick();
    if old(Departed(w.procs, entry)) {
      w.DepartedLater(old(w.procs), old(w.next), entry);
    }
    ghost var before := w.Now();
    var terminated :- Terminate(w, entry);
    if !terminated {
      if old(Departed(w.procs, entry)) && w.Calm() {
        StillBarred(old(w.Now()), before, w.Now(), entry);
      }
      return Thrown;
    }
    StandsLater(old(w.procs), old(w.next), w.procs, w.next, w.spawned, w.bridges, w.bridges, entry, ids);
    NothingLeft(w.procs, w.spawned, w.bridges, entry, ids);
    ghost var procs, next := w.procs, w.next;
    var removed := RemoveBridgeEntry(w, entry);
    w.DepartedLater(procs, next, entry);
    if removed.Killed? { return Killed; }
    return Thrown;
  }

  lemma StillBarred(a: Instant, b: Instant, c: Instant, e: LiveMount)
    requires Follows(a, b) && Follows(b, c) && (Barred(b, c, e.rclonePid, e.rcloneIdentity) || Barred(b, c, e.sshPid, e.sshIdentity))
    ensures Barred(a, c, e.rclonePid, e.rcloneIdentity) || Barred(a, c, e.sshPid, e.sshIdentity)
  {
    EvolvesAgain(c.procs, c.next, c.procs, c.next, c.procs, c.next);
    if Barred(b, c, e.rclonePid, e.rcloneIdentity) {
      TriedWithin(a, b, c, c, e.rclonePid, e.rcloneIdentity);
    } else {
      TriedWithin(a, b, c, c, e.sshPid, e.sshIdentity);
    }
  }

  /** What had departed is not seen again. */
  lemma HereBefore(a: Instant, b: Instant, c: Instant, e: LiveMount)
    requires Later(a, b) && EntryPast(e, a.next) && Departed(a.procs, e)
    ensures !SeenHere(b, c, e)
  {
    if i :| HereAt(b, i, c, e) {
      AbsentLater(a.procs, a.next, b.procs, b.next, e.rclonePid, e.rcloneIdentity);
      AbsentLater(a.procs, a.next, b.procs, b.next, e.sshPid, e.sshIdentity);
      AbsentLater(b.procs, b.next, i.procs, i.next, e.rclonePid, e.rcloneIdentity);
      AbsentLater(b.procs, b.next, i.procs, i.next, e.sshPid, e.sshIdentity);
    }
  }

  /** The mount answers and both processes are there. Undisturbed, a pair that is there passes. */
  method Verify(w: World, entry: LiveMount) returns (r: Outcome<bool>)
    requires w.Valid() && EntryPast(entry, w.next) && Committed(entry)
    modifies w`procs, w`next, w`unanswered, w`disturbances, w`noes
    ensures w.Valid() && w.Waited() && !r.Thrown?
    ensures r.Done? && r.value ==> SeenUp(old(w.Now()), w.Now(), entry) && w.noes == old(w.noes)
    ensures r.Done? && !r.value ==> !w.Calm() || !BothThere(old(w.procs), entry)
  {
    var remoteReady :- w.Ask();
    if !remoteReady { return Done(false); }
    ghost var instant := w.Now();
    var assessment := w.AssessBridgeProcesses(entry);
    EvolvesAgain(old(w.procs), old(w.next), instant.procs, instant.next, w.procs, w.next);
    if assessment.Killed? { return Killed; }
    assert assessment.value.AssessedLive? ==> BothThereAt(old(w.Now()), instant, w.Now(), entry);
    return Done(assessment.value.AssessedLive?);
  }

  /** Commit the pair's identities, then wait for the mount to answer. */
  method Commit(w: World, reservation: LiveMount, entry: LiveMount, ghost ids: set<Ident>) returns (r: Outcome<()>)
    requires w.Valid() && SameEntry(reservation, entry) && EntryPast(entry, w.next) && Committed(entry)
    requires Stands(w.procs, w.spawned, w.bridges, entry, ids)
    modifies w`bridges, w`procs, w`next, w`unanswered, w`signals, w`refused, w`disturbances, w`noes
    ensures w.Valid() && w.spawned == old(w.spawned) && OthersKept(w, entry)
    ensures r.Done? ==> entry in w.bridges && SeenUp(old(w.Now()), w.Now(), entry) && w.noes == old(w.noes)
    ensures r.Thrown? && w.Calm() ==> !BothThere(old(w.procs), entry) || forall e | e in old(w.bridges) :: !SameEntry(e, entry)
  {
    var replaced := ReplaceBridgeEntry(w, reservation, entry, ids);
    StandsLater(old(w.procs), old(w.next), w.procs, w.next, w.spawned, old(w.bridges), w.bridges, entry, ids);
    if replaced.Killed? { return Killed; }
    if replaced.Done? {
      ghost var before := w.Now();
      var up :- Verify(w, entry);
      if up {
        EvolvesAgain(w.procs, w.next, w.procs, w.next, w.procs, w.next);
        SeenUpWithin(old(w.Now()), before, w.Now(), w.Now(), entry);
        return Done(());
      }
      StandsLater(before.procs, before.next, w.procs, w.next, w.spawned, w.bridges, w.bridges, entry, ids);
    }
    r := Unwind(w, entry, ids);
  }

  /** The entry was committed, and both of its processes were there meanwhile. */
  ghost predicate CameUp(a: Instant, b: Instant, bridges: seq<LiveMount>, entry: LiveMount) {
    exists e | e in bridges :: SameEntry(e, entry) && SeenUp(a, b, e)
  }

  lemma CameUpWithin(a: Instant, b: Instant, c: Instant, bridges: seq<LiveMount>, entry: LiveMount)
    requires Later(a, b)
    ensures CameUp(b, c, bridges, entry) ==> CameUp(a, c, bridges, entry)
  {
    if CameUp(b, c, bridges, entry) {
      var e :| e in bridges && SameEntry(e, entry) && SeenUp(b, c, e);
      SeenUpWithin(a, b, c, c, e);
    }
  }

  /** The second process, once the first is known. */
  method LaunchSsh(w: World, reservation: LiveMount, rclonePid: int, rcloneIdentity: Ident, ghost rclone: Ident) returns (r: Outcome<()>)
    requires w.Valid() && reservation in w.bridges && !Committed(reservation) && rcloneIdentity < w.next && rclone < w.next
    requires Beyond(w.procs, w.spawned, w.bridges, reservation, {rclone})
    requires Known(w.procs, w.spawned, rclone, reservation.key, rclonePid, rcloneIdentity)
    requires Started(w.spawned, rclone, reservation.key, Rclone, rclonePid)
    modifies w`bridges, w`procs, w`next, w`unanswered, w`signals, w`refused, w`disturbances, w`noes, w`spawned
    ensures w.Valid() && OthersKept(w, reservation) && Added(old(w.spawned), w.spawned, reservation.key, Ssh, r.Done?)
    ensures r.Done? ==> CameUp(old(w.Now()), w.Now(), w.bridges, reservation) && w.noes == old(w.noes)
    ensures r.Thrown? ==> !w.Calm() || Absent(old(w.procs), rclonePid, Some(rcloneIdentity))
    ensures old(Only(w.procs, w.spawned, reservation.key, {rclone})) ==> OnePair(w.procs, w.spawned, reservation.key)
  {
    var sshPid, ssh := SpawnSsh(w, reservation, rclonePid, rcloneIdentity, rclone);
    ghost var instant := w.Now();
    r := AwaitSsh(w, reservation, rclonePid, rcloneIdentity, sshPid, rclone, ssh);
    CameUpWithin(old(w.Now()), instant, w.Now(), w.bridges, reservation);
    if old(Only(w.procs, w.spawned, reservation.key, {rclone})) {
      OnePairLater(instant.procs, instant.next, w.procs, w.next, w.spawned, w.spawned, reservation.key);
    }
  }

  method SpawnSsh(w: World, reservation: LiveMount, rclonePid: int, rcloneIdentity: Ident, ghost rclone: Ident) returns (sshPid: int, ghost ssh: Ident)
    requires w.Valid() && reservation in w.bridges && !Committed(reservation) && rcloneIdentity < w.next && rclone < w.next
    requires Beyond(w.procs, w.spawned, w.bridges, reservation, {rclone})
    requires Known(w.procs, w.spawned, rclone, reservation.key, rclonePid, rcloneIdentity)
    requires Started(w.spawned, rclone, reservation.key, Rclone, rclonePid)
    modifies w`procs, w`next, w`disturbances, w`noes, w`spawned
    ensures w.Valid() && OthersKept(w, reservation) && w.next > old(w.next) && w.noes == old(w.noes)
    ensures Beyond(w.procs, w.spawned, w.bridges, reservation, {rclone, ssh})
    ensures Known(w.procs, w.spawned, rclone, reservation.key, rclonePid, rcloneIdentity)
    ensures Started(w.spawned, ssh, reservation.key, Ssh, sshPid)
    ensures Added(old(w.spawned), w.spawned, reservation.key, Ssh, sshPid > 0)
    ensures sshPid !in w.procs ==> !w.Calm()
    ensures old(Only(w.procs, w.spawned, reservation.key, {rclone})) ==> OnePair(w.procs, w.spawned, reservation.key)
  {
    sshPid, ssh := w.Spawn(reservation.key, Ssh, reservation);
    BeyondMore(old(w.procs), old(w.spawned), w.procs, w.spawned, w.bridges, reservation, {rclone}, ssh);
    assert {rclone} + {ssh} == {rclone, ssh};
    if old(Only(w.procs, w.spawned, reservation.key, {rclone})) {
      TwoRoles(w.procs, w.spawned, reservation.key, rclone, ssh);
    }
  }

  /** Both processes started. */
  method AwaitSsh(w: World, reservation: LiveMount, rclonePid: int, rcloneIdentity: Ident, sshPid: int, ghost rclone: Ident, ghost ssh: Ident)
    returns (r: Outcome<()>)
    requires w.Valid() && reservation.created < w.next && rcloneIdentity < w.next
    requires Beyond(w.procs, w.spawned, w.bridges, reservation, {rclone, ssh})
    requires Known(w.procs, w.spawned, rclone, reservation.key, rclonePid, rcloneIdentity)
    requires Started(w.spawned, ssh, reservation.key, Ssh, sshPid)
    modifies w`bridges, w`procs, w`next, w`unanswered, w`signals, w`refused, w`disturbances, w`noes
    ensures w.Valid() && w.spawned == old(w.spawned) && OthersKept(w, reservation)
    ensures r.Done? ==> sshPid > 0 && CameUp(old(w.Now()), w.Now(), w.bridges, reservation) && w.noes == old(w.noes)
    ensures r.Thrown? && w.Calm() ==>
              sshPid !in old(w.procs) || Absent(old(w.procs), rclonePid, Some(rcloneIdentity)) || reservation !in old(w.bridges)
  {
    var sshIdentity :- WaitForProcessIdentity(w, sshPid);
    BeyondLater(old(w.procs), old(w.next), w.procs, w.next, w.spawned, w.bridges, w.bridges, reservation, {rclone, ssh});
    KnownLater(old(w.procs), old(w.next), w.procs, w.next, w.spawned, rclone, reservation.key, rclonePid, rcloneIdentity);
    var shape := w.Matches();
    if sshIdentity.None? || !shape {
      r := AbandonPair(w, reservation, rclonePid, rcloneIdentity, sshPid, rclone, ssh);
      return;
    }
    var entry := LiveMount(reservation.key, reservation.created, rclonePid, sshPid, Some(rcloneIdentity), sshIdentity);
    PairStands(w.procs, w.spawned, w.bridges, reservation, entry, rclone, ssh);
    ghost var bridges, instant := w.bridges, w.Now();
    r := Commit(w, reservation, entry, {rclone, ssh});
    assert SameBeside(bridges, w.bridges, reservation);
    CameUpWithin(old(w.Now()), instant, w.Now(), w.bridges, reservation);
  }

  lemma PairStands(procs: Procs, spawned: Children, bridges: seq<LiveMount>, reservation: LiveMount, entry: LiveMount, rclone: Ident, ssh: Ident)
    requires Committed(entry) && SameEntry(reservation, entry)
    requires Beyond(procs, spawned, bridges, reservation, {rclone, ssh})
    requires Known(procs, spawned, rclone, entry.key, entry.rclonePid, entry.rcloneIdentity.value)
    requires Started(spawned, ssh, entry.key, Ssh, entry.sshPid)
    requires entry.sshPid in procs && procs[entry.sshPid] == entry.sshIdentity.value
    ensures Stands(procs, spawned, bridges, entry, {rclone, ssh})
  {
    forall id | Live(procs, spawned, id) && id !in {rclone, ssh} ensures CoveredBeside(bridges, entry, spawned[id], id) {
      assert CoveredBeside(bridges, reservation, spawned[id], id);
      var e :| e in bridges && !SameEntry(e, reservation) && Covers(e, spawned[id], id);
      assert !SameEntry(e, entry);
    }
  }

  /** The ssh process could not be identified: give up both. */
  method AbandonPair(w: World, reservation: LiveMount, rclonePid: int, rcloneIdentity: Ident, sshPid: int, ghost rclone: Ident, ghost ssh: Ident)
    returns (r: Outcome<()>)
    requires w.Valid() && rcloneIdentity < w.next && Beyond(w.procs, w.spawned, w.bridges, reservation, {rclone, ssh})
    requires Known(w.procs, w.spawned, rclone, reservation.key, rclonePid, rcloneIdentity)
    requires Started(w.spawned, ssh, reservation.key, Ssh, sshPid)
    modifies w`bridges, w`procs, w`next, w`unanswered, w`signals, w`refused, w`disturbances, w`noes
    ensures w.Valid() && w.spawned == old(w.spawned) && OthersKept(w, reservation) && !r.Done?
  {
    var _ :- w.Signal(sshPid);
    var seen :- w.Lookup(sshPid);
    ghost var procs, next := w.procs, w.next;
    KnownLater(old(w.procs), old(w.next), procs, next, w.spawned, rclone, reservation.key, rclonePid, rcloneIdentity);
    var rcloneGone :- StopExactProcess(w, rclonePid, rcloneIdentity);
    if seen.NoProcess? && rcloneGone {
      if Live(w.procs, w.spawned, ssh) {
        LiveBefore(procs, next, w.procs, w.next, w.spawned, ssh);
      }
      KnownLater(procs, next, w.procs, w.next, w.spawned, rclone, reservation.key, rclonePid, rcloneIdentity);
      BeyondLater(old(w.procs), old(w.next), w.procs, w.next, w.spawned, w.bridges, w.bridges, reservation, {rclone, ssh});
      AllEnded(w.procs, w.spawned, w.bridges, reservation, {rclone, ssh});
      var _ :- RemoveBridgeEntry(w, reservation);
    }
    return Thrown;
  }

  /** The rclone process could not be identified. */
  method AbandonUnidentified(w: World, reservation: LiveMount, pid: int, ghost rclone: Ident) returns (r: Outcome<()>)
    requires w.Valid() && Beyond(w.procs, w.spawned, w.bridges, reservation, {rclone})
    requires Started(w.spawned, rclone, reservation.key, Rclone, pid)
    modifies w`bridges, w`procs, w`next, w`unanswered, w`signals, w`refused, w`disturbances, w`noes
    ensures w.Valid() && w.spawned == old(w.spawned) && OthersKept(w, reservation) && !r.Done?
  {
    var _ :- w.Signal(pid);
    var seen :- w.Lookup(pid);
    if seen.NoProcess? {
      BeyondLater(old(w.procs), old(w.next), w.procs, w.next, w.spawned, w.bridges, w.bridges, reservation, {rclone});
      AllEnded(w.procs, w.spawned, w.bridges, reservation, {rclone});
      var _ :- RemoveBridgeEntry(w, reservation);
    }
    return Thrown;
  }

  /** The listener never came up. */
  method AbandonRclone(w: World, reservation: LiveMount, pid: int, identity: Ident, ghost rclone: Ident) returns (r: Outcome<()>)
    requires w.Valid() && identity < w.next && Beyond(w.procs, w.spawned, w.bridges, reservation, {rclone})
    requires Known(w.procs, w.spawned, rclone, reservation.key, pid, identity)
    modifies w`bridges, w`procs, w`next, w`unanswered, w`signals, w`refused, w`disturbances, w`noes
    ensures w.Valid() && w.spawned == old(w.spawned) && OthersKept(w, reservation) && !r.Done?
  {
    var stopped :- StopExactProcess(w, pid, identity);
    if stopped {
      KnownLater(old(w.procs), old(w.next), w.procs, w.next, w.spawned, rclone, reservation.key, pid, identity);
      BeyondLater(old(w.procs), old(w.next), w.procs, w.next, w.spawned, w.bridges, w.bridges, reservation, {rclone});
      AllEnded(w.procs, w.spawned, w.bridges, reservation, {rclone});
      var _ :- RemoveBridgeEntry(w, reservation);
    }
    return Thrown;
  }

  /** The first process identified: wait for its listener, then go on. */
  method AwaitListener(w: World, reservation: LiveMount, pid: int, identity: Ident, ghost rclone: Ident) returns (r: Outcome<()>)
    requires w.Valid() && reservation in w.bridges && !Committed(reservation) && identity < w.next && rclone < w.next
    requires Beyond(w.procs, w.spawned, w.bridges, reservation, {rclone})
    requires Known(w.procs, w.spawned, rclone, reservation.key, pid, identity)
    requires Started(w.spawned, rclone, reservation.key, Rclone, pid)
    modifies w`bridges, w`procs, w`next, w`unanswered, w`signals, w`refused, w`disturbances, w`noes, w`spawned
    ensures w.Valid() && OthersKept(w, reservation) && Added(old(w.spawned), w.spawned, reservation.key, Ssh, r.Done?)
    ensures r.Done? ==> CameUp(old(w.Now()), w.Now(), w.bridges, reservation) && w.noes == old(w.noes)
    ensures r.Thrown? ==> !w.Calm() || Absent(old(w.procs), pid, Some(identity))
    ensures old(Only(w.procs, w.spawned, reservation.key, {rclone})) ==> OnePair(w.procs, w.spawned, reservation.key)
  {
    var listening := w.Ask();
    OnlyLater(old(w.procs), old(w.next), w.procs, w.next, w.spawned, reservation.key, {rclone});
    if listening.Killed? { return Killed; }
    BeyondLater(old(w.procs), old(w.next), w.procs, w.next, w.spawned, w.bridges, w.bridges, reservation, {rclone});
    KnownLater(old(w.procs), old(w.next), w.procs, w.next, w.spawned, rclone, reservation.key, pid, identity);
    ghost var procs, next := w.procs, w.next;
    if listening.value {
      ghost var instant := w.Now();
      r := LaunchSsh(w, reservation, pid, identity, rclone);
      CameUpWithin(old(w.Now()), instant, w.Now(), w.bridges, reservation);
    } else {
      r := AbandonRclone(w, reservation, pid, identity, rclone);
      OnlyLater(procs, next, w.procs, w.next, w.spawned, reservation.key, {rclone});
    }
  }

  /** The first process started. */
  method AwaitRclone(w: World, reservation: LiveMount, pid: int, ghost rclone: Ident) returns (r: Outcome<()>)
    requires w.Valid() && reservation in w.bridges && !Committed(reservation) && rclone < w.next
    requires Beyond(w.procs, w.spawned, w.bridges, reservation, {rclone})
    requires Started(w.spawned, rclone, reservation.key, Rclone, pid)
    modifies w`bridges, w`procs, w`next, w`unanswered, w`signals, w`refused, w`disturbances, w`noes, w`spawned
    ensures w.Valid() && OthersKept(w, reservation) && Added(old(w.spawned), w.spawned, reservation.key, Ssh, r.Done?)
    ensures r.Done? ==> CameUp(old(w.Now()), w.Now(), w.bridges, reservation) && w.noes == old(w.noes)
    ensures r.Thrown? ==> !w.Calm() || pid !in old(w.procs)
    ensures r.Done? ==> pid > 0
    ensures old(Only(w.procs, w.spawned, reservation.key, {rclone})) ==> OnePair(w.procs, w.spawned, reservation.key)
  {
    var seen := WaitForProcessIdentity(w, pid);
    OnlyLater(old(w.procs), old(w.next), w.procs, w.next, w.spawned, reservation.key, {rclone});
    if seen.Killed? { return Killed; }
    BeyondLater(old(w.procs), old(w.next), w.procs, w.next, w.spawned, w.bridges, w.bridges, reservation, {rclone});
    ghost var procs, next := w.procs, w.next;
    var shape := w.Matches();
    if seen.value.None? || !shape {
      r := AbandonUnidentified(w, reservation, pid, rclone);
      OnlyLater(procs, next, w.procs, w.next, w.spawned, reservation.key, {rclone});
    } else {
      ghost var instant := w.Now();
      r := AwaitListener(w, reservation, pid, seen.value.value, rclone);
      CameUpWithin(old(w.Now()), instant, w.Now(), w.bridges, reservation);
    }
  }

  /** The first process, under the reservation. */
  method Launch(w: World, reservation: LiveMount) returns (r: Outcome<()>)
    requires w.Valid() && reservation in w.bridges && !Committed(reservation)
    requires Beyond(w.procs, w.spawned, w.bridges, reservation, {})
    modifies w`bridges, w`procs, w`next, w`unanswered, w`signals, w`refused, w`disturbances, w`noes, w`spawned
    ensures w.Valid() && OthersKept(w, reservation) && PairAdded(old(w.spawned), w.spawned, reservation.key, r.Done?)
    ensures r.Done? ==> CameUp(old(w.Now()), w.Now(), w.bridges, reservation) && w.noes == old(w.noes)
    ensures r.Thrown? ==> !w.Calm()
    ensures old(Only(w.procs, w.spawned, reservation.key, {})) ==> OnePair(w.procs, w.spawned, reservation.key)
  {
    var pid, rclone := w.Spawn(reservation.key, Rclone, reservation);
    ghost var mid := w.spawned;
    BeyondMore(old(w.procs), old(w.spawned), w.procs, mid, w.bridges, reservation, {}, rclone);
    assert {} + {rclone} == {rclone};
    ghost var instant := w.Now();
    r := AwaitRclone(w, reservation, pid, rclone);
    CameUpWithin(old(w.Now()), instant, w.Now(), w.bridges, reservation);
    assert Added(old(w.spawned), mid, reservation.key, Rclone, r.Done?);
  }

  // ── Whole commands ────────────────────────────────────────────────────────

  /** Between two points of a run: entries of mounts outside `keys` are the old ones, and an
      old entry is only missing when both of its processes have gone. */
  twostate predicate Ran(w: World, keys: set<Key>)
    reads w
  {
    && Evolves(old(w.procs), old(w.next), w.procs, w.next) && w.Steady()
    && w.OnlyDepartedLeft()
    && (forall e | e in w.bridges :: e in old(w.bridges) || e.key in keys)
  }

  method Reserve(w: World, reservation: LiveMount) returns (r: Outcome<()>)
    requires w.Valid() && (forall e | e in w.bridges :: !SameEntry(e, reservation))
    requires !Committed(reservation) && EntryPast(reservation, w.next)
    modifies w`bridges, w`procs, w`next, w`unanswered, w`signals, w`refused, w`disturbances, w`noes
    ensures w.Valid() && w.spawned == old(w.spawned) && Ran(w, {reservation.key})
    ensures Beyond(w.procs, w.spawned, w.bridges, reservation, {})
    ensures forall e | e in w.bridges :: e == reservation || e in old(w.bridges)
    ensures r.Done? ==> reservation in w.bridges
    ensures w.noes == old(w.noes) && (r.Thrown? ==> !w.Calm())
  {
    var kept := w.ReconcileBridges();
    NewEntryIsBeside(w.procs, w.next, w.spawned, w.bridges, reservation);
    if kept.IsFailure() { return kept.PropagateFailure(); }
    ghost var bridges, procs, next := w.bridges, w.procs, w.next;
    var list := kept.value + [reservation];
    assert reservation in list;
    Supersede(w.procs, w.next, w.spawned, w.bridges, list, reservation, {});
    r := w.WriteBridges(list);
    BeyondLater(procs, next, w.procs, w.next, w.spawned, bridges, w.bridges, reservation, {});
    forall e | e in old(w.bridges) && Departed(procs, e) ensures Departed(w.procs, e) {
      w.DepartedLater(procs, next, e);
    }
  }

  /** A pair of the mount was committed, and both of its processes were there meanwhile. */
  ghost predicate Ready(a: Instant, b: Instant, key: Key) {
    exists e: LiveMount :: e.key == key && SeenUp(a, b, e)
  }

  lemma ReadyWithin(a: Instant, b: Instant, c: Instant, d: Instant, key: Key)
    requires Later(a, b) && Ready(b, c, key) && Later(c, d)
    ensures Ready(a, d, key)
  {
    var e: LiveMount :| e.key == key && SeenUp(b, c, e);
    SeenUpWithin(a, b, c, d, e);
  }

  /** Reserve, then start the pair. */
  method ReserveAndLaunch(w: World, reservation: LiveMount) returns (r: Outcome<()>)
    requires w.Valid() && (forall e | e in w.bridges :: !SameEntry(e, reservation))
    requires !Committed(reservation) && EntryPast(reservation, w.next)
    modifies w`bridges, w`procs, w`next, w`unanswered, w`signals, w`refused, w`disturbances, w`noes, w`spawned
    ensures w.Valid() && Ran(w, {reservation.key}) && PairAdded(old(w.spawned), w.spawned, reservation.key, r.Done?)
    ensures r.Done? ==> Ready(old(w.Now()), w.Now(), reservation.key) && w.noes == old(w.noes)
    ensures r.Thrown? ==> !w.Calm()
    ensures old(Only(w.procs, w.spawned, reservation.key, {})) ==> OnePair(w.procs, w.spawned, reservation.key)
  {
    assert Added(w.spawned, w.spawned, reservation.key, Rclone, false) && Added(w.spawned, w.spawned, reservation.key, Ssh, false);
    var reserved := Reserve(w, reservation);
    OnlyLater(old(w.procs), old(w.next), w.procs, w.next, w.spawned, reservation.key, {});
    if reserved.IsFailure() { return reserved.PropagateFailure(); }
    ghost var instant := w.Now();
    r := Launch(w, reservation);
    CameUpWithin(old(w.Now()), instant, w.Now(), w.bridges, reservation);
    forall e | e in old(w.bridges) && Departed(instant.procs, e) ensures Departed(w.procs, e) {
      w.DepartedLater(instant.procs, instant.next, e);
    }
  }

  /** One mount, whatever entries it has. */
  method StartMount(w: World, key: Key) returns (r: Outcome<()>)
    requires w.Valid()
    modifies w`bridges, w`procs, w`next, w`unanswered, w`signals, w`refused, w`disturbances, w`noes, w`spawned
    ensures w.Valid() && Ran(w, {key}) && PairAdded(old(w.spawned), w.spawned, key, r.Done?)
    ensures r.Done? ==> Ready(old(w.Now()), w.Now(), key) && w.noes == old(w.noes)
    ensures r.Thrown? ==> !w.Calm()
    ensures old(Only(w.procs, w.spawned, key, {})) ==> OnePair(w.procs, w.spawned, key)
  {
    var prepared := w.Prepare();
    OnlyLater(old(w.procs), old(w.next), w.procs, w.next, w.spawned, key, {});
    assert Added(old(w.spawned), w.spawned, key, Rclone, false) && Added(w.spawned, w.spawned, key, Ssh, false);
    if prepared.IsFailure() { return prepared.PropagateFailure(); }
    ghost var instant := w.Now();
    r := ReserveAndLaunch(w, LiveMount(key, prepared.value, -1, -1, None, None));
    if r.Done? {
      EvolvesAgain(w.procs, w.next, w.procs, w.next, w.procs, w.next);
      ReadyWithin(old(w.Now()), instant, w.Now(), w.Now(), key);
    }
  }

  // ── Which mounts are started ──────────────────────────────────────────────

  /** What `collectMountHealth` goes by, for each label. */
  type HealthReport = map<string, Evidence>

  function Component(health: HealthReport, name: string): Option<Health> {
    if name in health then Some(MountHealth(health[name])) else None
  }

  /** `live` is the list of entries and `health` the report as they were before the loop; what
      the loop itself has added shows in neither. */
  predicate Goes(live: seq<LiveMount>, health: HealthReport, key: Key) {
    && (forall e | e in live :: e.key != key)
    && DecideMountStart(Component(health, key.mount)).Go?
  }

  predicate ProvedAbsent(health: HealthReport, name: string) {
    name in health && health[name].ownedBridge == Some(true) && !health[name].mounted
  }

  /** A mount without an entry is started on proof that nothing is mounted and nobody else is at
      it, and not otherwise. */
  lemma GoesOnProof(live: seq<LiveMount>, health: HealthReport, key: Key)
    ensures Goes(live, health, key) <==> (forall e | e in live :: e.key != key) && ProvedAbsent(health, key.mount)
  {
    if key.mount in health {
      ActsOnlyOnProof(health[key.mount]);
    }
  }

  /** What the probe of a path that is not mounted says, with no entry for it. */
  const ABSENT := Evidence(false, Some(false), Some(0), Some(true))

  /** The number of pairs a completed command starts for a mount: one for each time its label
      is listed. */
  function Pairs(live: seq<LiveMount>, health: HealthReport, profile: string, labels: seq<string>, key: Key): nat {
    if key.profile == profile && Goes(live, health, key) then multiset(labels)[key.mount] else 0
  }

  predicate Distinct(labels: seq<string>) {
    forall i, j | 0 <= i < j < |labels| :: labels[i] != labels[j]
  }

  lemma {:induction false} ListedOnce(labels: seq<string>)
    ensures Distinct(labels) <==> forall l :: multiset(labels)[l] <= 1
  {
    if labels != [] {
      var init, last := labels[..|labels| - 1], labels[|labels| - 1];
      assert labels == init + [last];
      ListedOnce(init);
      if last in init {
        assert multiset(init)[last] >= 1 && multiset(labels)[last] >= 2;
        var i :| 0 <= i < |init| && init[i] == last;
        assert labels[i] == labels[|labels| - 1];
      } else {
        assert forall l :: multiset(labels)[l] == multiset(init)[l] + if l == last then 1 else 0;
        assert multiset(init)[last] == 0;
        assert forall i, j | 0 <= i < j < |labels| :: labels[i] != labels[j] <==> (j == |init| || init[i] != init[j]);
      }
    }
  }

  /** A second pair for some mount: possible exactly when a label is listed twice. */
  lemma SecondPairIff(profile: string, labels: seq<string>)
    ensures Distinct(labels) <==> forall live, health, key :: Pairs(live, health, profile, labels, key) <= 1
  {
    ListedOnce(labels);
    if l :| multiset(labels)[l] > 1 {
      assert Pairs([], map[l := ABSENT], profile, labels, Key(profile, l)) == multiset(labels)[l];
    }
  }

  lemma PairsNext(live: seq<LiveMount>, health: HealthReport, profile: string, labels: seq<string>, i: nat, key: Key)
    requires i < |labels|
    ensures Pairs(live, health, profile, labels[..i + 1], key) ==
            Pairs(live, health, profile, labels[..i], key) + if key == Key(profile, labels[i]) && Goes(live, health, key) then 1 else 0
    ensures Pairs(live, health, profile, labels[..i + 1], key) <= Pairs(live, health, profile, labels, key)
  {
    assert labels[..i + 1] == labels[..i] + [labels[i]];
    assert labels == labels[..i + 1] + labels[i + 1..];
  }

  /** One round of the loop of `runMountUp`. */
  method MountOne(w: World, key: Key, live: seq<LiveMount>, health: HealthReport) returns (r: Outcome<()>)
    requires w.Valid()
    modifies w`bridges, w`procs, w`next, w`unanswered, w`signals, w`refused, w`disturbances, w`noes, w`spawned
    ensures w.Valid() && Ran(w, {key})
    ensures if Goes(live, health, key) then PairAdded(old(w.spawned), w.spawned, key, r.Done?) else w.spawned == old(w.spawned) && r.Done?
    ensures r.Done? && Goes(live, health, key) ==> Ready(old(w.Now()), w.Now(), key)
    ensures (r.Done? ==> w.noes == old(w.noes)) && (r.Thrown? ==> !w.Calm())
    ensures forall k | old(OnePair(w.procs, w.spawned, k)) && (k == key && Goes(live, health, key) ==> forall e | e in old(w.bridges) :: e.key != key) ::
              OnePair(w.procs, w.spawned, k)
  {
    if exists e | e in live :: e.key == key { return Done(()); }
    if !DecideMountStart(Component(health, key.mount)).Go? { return Done(()); }
    r := StartMount(w, key);
    PairCounts(old(w.spawned), w.spawned, key, r.Done?, key, Rclone);
    forall k | old(OnePair(w.procs, w.spawned, k)) && k != key ensures OnePair(w.procs, w.spawned, k) {
      OnePairLater(old(w.procs), old(w.next), w.procs, w.next, old(w.spawned), w.spawned, k);
    }
    if forall e | e in old(w.bridges) :: e.key != key {
      NoEntryNoProcess(old(w.procs), old(w.next), old(w.spawned), old(w.bridges), key);
    }
  }

  function Keys(profile: string, labels: seq<string>): set<Key> {
    set l | l in labels :: Key(profile, l)
  }

  /** The entries a run began with: still listed, or gone for good. */
  ghost predicate Accounted(before: seq<LiveMount>, now: seq<LiveMount>, procs: Procs) {
    forall e | e in before :: e in now || Departed(procs, e)
  }

  lemma AccountedLater(before: seq<LiveMount>, list: seq<LiveMount>, procs: Procs, next: Ident, list': seq<LiveMount>, procs': Procs, next': Ident)
    requires Accounted(before, list, procs) && Accounted(list, list', procs') && Evolves(procs, next, procs', next')
    requires forall e | e in before :: EntryPast(e, next)
    ensures Accounted(before, list', procs')
  {
    forall e | e in before && Departed(procs, e) ensures Departed(procs', e) {
      AbsentLater(procs, next, procs', next', e.rclonePid, e.rcloneIdentity);
      AbsentLater(procs, next, procs', next', e.sshPid, e.sshIdentity);
    }
  }

  /** Every process started since then belongs to a mount none of those entries was still
      speaking for. */
  ghost predicate Justified(before: seq<LiveMount>, spawned: Children, spawned': Children, procs: Procs) {
    forall id, e | id in spawned' && id !in spawned && e in before && e.key == spawned'[id].key :: Departed(procs, e)
  }

  lemma JustifiedLater(before: seq<LiveMount>, live: seq<LiveMount>, spawned: Children, procs: Procs, next: Ident,
                       mid: Children, after: Children, procs': Procs, next': Ident, key: Key)
    requires Justified(before, spawned, mid, procs) && Evolves(procs, next, procs', next')
    requires forall e | e in before :: EntryPast(e, next)
    requires Extends(mid, after)
    requires forall id | id in after && id !in mid :: after[id].key == key
    requires after != mid ==> forall e | e in live :: e.key != key
    requires forall e | e in before :: e in live || Departed(procs, e)
    ensures Justified(before, spawned, after, procs')
    ensures forall e | e in before :: e in live || Departed(procs', e)
  {
    forall e | e in before && Departed(procs, e) ensures Departed(procs', e) {
      AbsentLater(procs, next, procs', next', e.rclonePid, e.rcloneIdentity);
      AbsentLater(procs, next, procs', next', e.sshPid, e.sshIdentity);
    }
  }

  /** From `before` to `after` at most, and if `sure` exactly, `Pairs` processes of each role
      were started for each mount. */
  ghost predicate PairsStarted(before: Children, after: Children, live: seq<LiveMount>, health: HealthReport,
                               profile: string, labels: seq<string>, sure: bool) {
    forall key, role ::
      && |New(before, after, key, role)| <= Pairs(live, health, profile, labels, key)
      && (sure ==> |New(before, after, key, role)| == Pairs(live, health, profile, labels, key))
  }

  lemma PairsStartedNext(before: Children, mid: Children, after: Children, live: seq<LiveMount>, health: HealthReport,
                         profile: string, labels: seq<string>, i: nat, sure: bool)
    requires i < |labels| && Extends(before, mid) && PairsStarted(before, mid, live, health, profile, labels[..i], true)
    requires if Goes(live, health, Key(profile, labels[i])) then PairAdded(mid, after, Key(profile, labels[i]), sure) else after == mid
    ensures Extends(before, after) && Extends(mid, after)
    ensures forall id | id in after && id !in mid :: after[id].key == Key(profile, labels[i])
    ensures PairsStarted(before, after, live, health, profile, labels[..i + 1], sure)
    ensures PairsStarted(before, after, live, health, profile, labels, false)
  {
    var key := Key(profile, labels[i]);
    if Goes(live, health, key) {
      PairCounts(mid, after, key, sure, key, Rclone);
    }
    forall k, role
      ensures |New(before, after, k, role)| <= Pairs(live, health, profile, labels[..i + 1], k) <= Pairs(live, health, profile, labels, k)
      ensures sure ==> |New(before, after, k, role)| == Pairs(live, health, profile, labels[..i + 1], k)
    {
      PairsNext(live, health, profile, labels, i, k);
      NewSplits(before, mid, after, k, role);
      if Goes(live, health, key) {
        PairCounts(mid, after, key, sure, k, role);
      } else {
        assert New(mid, after, k, role) == {};
      }
    }
  }

  /** The state of the world at one moment. */
  datatype Moment = Moment(bridges: seq<LiveMount>, procs: Procs, next: Ident, spawned: Children)

  ghost function Now(w: World): Moment
    reads w
  {
    Moment(w.bridges, w.procs, w.next, w.spawned)
  }

  /** What every stretch of a run keeps. */
  ghost predicate Kept(a: Moment, b: Moment) {
    && Evolves(a.procs, a.next, b.procs, b.next)
    && Accounted(a.bridges, b.bridges, b.procs)
    && Extends(a.spawned, b.spawned) && Justified(a.bridges, a.spawned, b.spawned, b.procs)
  }

  ghost predicate PairsKept(a: Moment, b: Moment, live: seq<LiveMount>, health: HealthReport, profile: string, labels: seq<string>) {
    forall k | OnePair(a.procs, a.spawned, k) && Pairs(live, health, profile, labels, k) <= 1 :: OnePair(b.procs, b.spawned, k)
  }

  /** `i` rounds are done. */
  ghost predicate Progress(a: Moment, b: Moment, live: seq<LiveMount>, health: HealthReport, profile: string, labels: seq<string>, i: nat)
    requires i <= |labels|
  {
    && Kept(a, b) && Accounted(a.bridges, live, b.procs)
    && (forall e | e in b.bridges :: e in live || e.key in Keys(profile, labels[..i]))
    && PairsStarted(a.spawned, b.spawned, live, health, profile, labels[..i], true)
    && PairsKept(a, b, live, health, profile, labels)
  }

  /** One round more. */
  lemma ProgressNext(a: Moment, b: Moment, c: Moment, live: seq<LiveMount>, health: HealthReport, profile: string, labels: seq<string>,
                     i: nat, sure: bool)
    requires i < |labels| && Progress(a, b, live, health, profile, labels, i)
    requires forall e | e in a.bridges :: EntryPast(e, b.next)
    requires Evolves(b.procs, b.next, c.procs, c.next) && Accounted(b.bridges, c.bridges, c.procs)
    requires forall e | e in c.bridges :: e in b.bridges || e.key == Key(profile, labels[i])
    requires if Goes(live, health, Key(profile, labels[i])) then PairAdded(b.spawned, c.spawned, Key(profile, labels[i]), sure)
             else c.spawned == b.spawned
    requires forall k | OnePair(b.procs, b.spawned, k) && (k == Key(profile, labels[i]) && Goes(live, health, k) ==> forall e | e in b.bridges :: e.key != k) ::
               OnePair(c.procs, c.spawned, k)
    ensures Kept(a, c) && PairsStarted(a.spawned, c.spawned, live, health, profile, labels, false)
    ensures PairsKept(a, c, live, health, profile, labels)
    ensures sure ==> Progress(a, c, live, health, profile, labels, i + 1)
  {
    var key := Key(profile, labels[i]);
    AccountedLater(a.bridges, b.bridges, b.procs, b.next, c.bridges, c.procs, c.next);
    PairsStartedNext(a.spawned, b.spawned, c.spawned, live, health, profile, labels, i, sure);
    JustifiedLater(a.bridges, live, a.spawned, b.procs, b.next, b.spawned, c.spawned, c.procs, c.next, key);
    if Pairs(live, health, profile, labels, key) <= 1 && Goes(live, health, key) {
      OnceAt(labels, i);
    }
  }

  /** Every process started since is of a mount that is listed and was proved absent. */
  ghost predicate StartedOnProof(before: Children, after: Children, health: HealthReport, profile: string, labels: seq<string>) {
    forall id | id in after && id !in before :: after[id].key in Keys(profile, labels) && ProvedAbsent(health, after[id].key.mount)
  }

  lemma OnProof(before: Children, after: Children, live: seq<LiveMount>, health: HealthReport, profile: string, labels: seq<string>)
    requires PairsStarted(before, after, live, health, profile, labels, false)
    ensures StartedOnProof(before, after, health, profile, labels)
  {
    forall id | id in after && id !in before ensures after[id].key in Keys(profile, labels) && ProvedAbsent(health, after[id].key.mount) {
      var key, role := after[id].key, after[id].role;
      assert id in New(before, after, key, role);
      assert |New(before, after, key, role)| > 0;
      GoesOnProof(live, health, key);
    }
  }

  /** Each of the first `i` mounts that was to be started came up meanwhile. */
  ghost predicate AllReady(a: Instant, b: Instant, live: seq<LiveMount>, health: HealthReport, profile: string, labels: seq<string>, i: nat)
    requires i <= |labels|
  {
    forall j | 0 <= j < i && Goes(live, health, Key(profile, labels[j])) :: Ready(a, b, Key(profile, labels[j]))
  }

  lemma AllReadyNext(a: Instant, b: Instant, c: Instant, live: seq<LiveMount>, health: HealthReport, profile: string, labels: seq<string>, i: nat)
    requires i < |labels| && AllReady(a, b, live, health, profile, labels, i) && Later(a, b) && Later(b, c)
    requires Goes(live, health, Key(profile, labels[i])) ==> Ready(b, c, Key(profile, labels[i]))
    ensures AllReady(a, c, live, health, profile, labels, i + 1)
  {
    EvolvesAgain(a.procs, a.next, a.procs, a.next, a.procs, a.next);
    forall j | 0 <= j < i + 1 && Goes(live, health, Key(profile, labels[j])) ensures Ready(a, c, Key(profile, labels[j])) {
      if j < i {
        ReadyWithin(a, a, b, c, Key(profile, labels[j]));
      } else {
        ReadyWithin(a, b, c, c, Key(profile, labels[j]));
      }
    }
  }

  /** The list as it was read at the instant `read`: an entry of which a process had gone before
      is still in it only for a reason. */
  ghost predicate ReadAt(a: Instant, procs: Procs, read: Instant, b: Instant, live: seq<LiveMount>) {
    Follows(a, read) && Later(read, b) && forall e | e in live && OneGone(procs, e) :: Excused(a, read, e)
  }

  /** `runMountUp`: entries are dropped only when both processes have gone. A mount that is not
      in `live`, the entries left at the start, and is absent gets as many pairs as its label is
      listed, no second one if that is once, and no other mount gets any. On completion each
      mount to be started has come up; undisturbed the command does not fail. */
  method MountUp(w: World, profile: string, labels: seq<string>, health: HealthReport)
    returns (r: Outcome<()>, ghost live: seq<LiveMount>, ghost read: Instant)
    requires w.Valid()
    modifies w`bridges, w`procs, w`next, w`unanswered, w`signals, w`refused, w`disturbances, w`noes, w`spawned
    ensures w.Valid() && Kept(old(Now(w)), Now(w))
    ensures forall e | e in live :: e in old(w.bridges)
    ensures r.Done? ==> Accounted(old(w.bridges), live, w.procs) && ReadAt(old(w.Now()), old(w.procs), read, w.Now(), live)
    ensures r.Done? ==> AllReady(old(w.Now()), w.Now(), live, health, profile, labels, |labels|)
    ensures PairsStarted(old(w.spawned), w.spawned, live, health, profile, labels, r.Done?)
    ensures PairsKept(old(Now(w)), Now(w), live, health, profile, labels)
    ensures StartedOnProof(old(w.spawned), w.spawned, health, profile, labels)
    ensures w.Steady() && (r.Done? ==> w.noes == old(w.noes)) && (r.Thrown? ==> !w.Calm())
  {
    live, read := [], w.Now();
    NothingStarted(w.spawned, live, health, profile, labels);
    OnProof(w.spawned, w.spawned, live, health, profile, labels);
    var listed := w.ReconcileBridges();
    forall k | old(OnePair(w.procs, w.spawned, k)) ensures OnePair(w.procs, w.spawned, k) {
      OnePairLater(old(w.procs), old(w.next), w.procs, w.next, w.spawned, w.spawned, k);
    }
    if listed.IsFailure() { return listed.PropagateFailure(), live, read; }
    live, read := listed.value, w.Now();
    NothingStarted(w.spawned, live, health, profile, labels);
    for i := 0 to |labels|
      invariant w.Valid() && Progress(old(Now(w)), Now(w), live, health, profile, labels, i)
      invariant ReadAt(old(w.Now()), old(w.procs), read, w.Now(), live) && w.Steady() && w.noes == old(w.noes)
      invariant AllReady(old(w.Now()), w.Now(), live, health, profile, labels, i)
    {
      ghost var before, instant := Now(w), w.Now();
      r := MountOne(w, Key(profile, labels[i]), listed.value, health);
      EvolvesAgain(read.procs, read.next, instant.procs, instant.next, w.procs, w.next);
      ProgressNext(old(Now(w)), before, Now(w), live, health, profile, labels, i, r.Done?);
      OnProof(old(w.spawned), w.spawned, live, health, profile, labels);
      if r.IsFailure() { return; }
      AllReadyNext(old(w.Now()), instant, w.Now(), live, health, profile, labels, i);
    }
    assert labels[..|labels|] == labels;
    OnProof(old(w.spawned), w.spawned, live, health, profile, labels);
    return Done(()), live, read;
  }

  /** The same label twice, its mount proved absent: a completed command has started two pairs. */
  method MountTwice(w: World, profile: string, name: string, health: HealthReport) returns (r: Outcome<()>)
    requires w.Valid() && ProvedAbsent(health, name) && forall e | e in w.bridges :: e.key != Key(profile, name)
    modifies w`bridges, w`procs, w`next, w`unanswered, w`signals, w`refused, w`disturbances, w`noes, w`spawned
    ensures w.Valid()
    ensures r.Done? ==> forall role :: |New(old(w.spawned), w.spawned, Key(profile, name), role)| == 2
  {
    ghost var live, read;
    r, live, read := MountUp(w, profile, [name, name], health);
    GoesOnProof(live, health, Key(profile, name));
    assert multiset([name, name])[name] == 2;
  }

  /** Two pairs of one mount, all four processes live, each pair with an entry of its own. */
  function TwoPairs(key: Key): Moment {
    Moment([LiveMount(key, 0, 11, 12, Some(1), Some(2)), LiveMount(key, 3, 13, 14, Some(4), Some(5))],
           map[11 := 1, 12 := 2, 13 := 4, 14 := 5], 6,
           map[1 := Child(key, Rclone, 11), 2 := Child(key, Ssh, 12), 4 := Child(key, Rclone, 13), 5 := Child(key, Ssh, 14)])
  }

  lemma TwoPairsTracked(key: Key)
    ensures var m := TwoPairs(key); Inv(m.procs, m.next, m.spawned, m.bridges) && !OnePair(m.procs, m.spawned, key)
  {
    var m := TwoPairs(key);
    forall id | Live(m.procs, m.spawned, id) ensures exists e | e in m.bridges :: Covers(e, m.spawned[id], id) {
      var e := m.bridges[if id <= 2 then 0 else 1];
      assert e in m.bridges && Covers(e, m.spawned[id], id);
    }
    assert Live(m.procs, m.spawned, 1) && Live(m.procs, m.spawned, 4);
  }

  lemma TwoPairsNew(key: Key)
    ensures forall k, role :: |New(map[], TwoPairs(key).spawned, k, role)| == if k == key then 2 else 0
  {
    forall k, role ensures |New(map[], TwoPairs(key).spawned, k, role)| == if k == key then 2 else 0 {
      assert New(map[], TwoPairs(key).spawned, k, role) == if k != key then {} else if role.Rclone? then {1, 4} else {2, 5};
    }
  }

  /** What a completed command promises of an absent mount whose label is listed twice is met by
      that state, from a machine on which nothing ran. */
  lemma RepeatedLabel(profile: string, name: string)
    ensures var m, health := TwoPairs(Key(profile, name)), map[name := ABSENT];
            && Kept(Moment([], map[], 0, map[]), m)
            && PairsStarted(map[], m.spawned, [], health, profile, [name, name], true)
            && Pairs([], health, profile, [name, name], Key(profile, name)) == 2
            && Inv(m.procs, m.next, m.spawned, m.bridges) && !OnePair(m.procs, m.spawned, Key(profile, name))
  {
    TwoPairsTracked(Key(profile, name));
    TwoPairsNew(Key(profile, name));
    assert multiset([name, name])[name] == 2;
  }

  lemma NothingStarted(spawned: Children, live: seq<LiveMount>, health: HealthReport, profile: string, labels: seq<string>)
    ensures PairsStarted(spawned, spawned, live, health, profile, labels, false)
    ensures PairsStarted(spawned, spawned, live, health, profile, labels[..0], true)
  {
    forall key, role ensures New(spawned, spawned, key, role) == {} {
    }
  }

  /** A label listed once has not been listed before. */
  lemma OnceAt(labels: seq<string>, i: nat)
    requires i < |labels| && multiset(labels)[labels[i]] <= 1
    ensures labels[i] !in labels[..i]
  {
    assert labels == labels[..i] + [labels[i]] + labels[i + 1..];
  }

  // ── Runs ──────────────────────────────────────────────────────────────────

  datatype Command = Up(profile: string, labels: seq<string>, health: HealthReport) | ShowStatus

  predicate NoLabelTwice(c: Command) {
    c.Up? ==> Distinct(c.labels)
  }

  method Execute(w: World, c: Command) returns (r: Outcome<()>)
    requires w.Valid()
    modifies w`bridges, w`procs, w`next, w`unanswered, w`signals, w`refused, w`disturbances, w`noes, w`spawned
    ensures w.Valid() && Kept(old(Now(w)), Now(w))
    ensures NoLabelTwice(c) ==> forall k | old(OnePair(w.procs, w.spawned, k)) :: OnePair(w.procs, w.spawned, k)
    ensures r.Thrown? ==> !w.Calm()
  {
    match c
    case Up(profile, labels, health) =>
      ghost var live, read;
      r, live, read := MountUp(w, profile, labels, health);
      SecondPairIff(profile, labels);
    case ShowStatus =>
      var listed := w.ReconcileBridges();
      forall k | old(OnePair(w.procs, w.spawned, k)) ensures OnePair(w.procs, w.spawned, k) {
        OnePairLater(old(w.procs), old(w.next), w.procs, w.next, w.spawned, w.spawned, k);
      }
      return if listed.IsFailure() then listed.PropagateFailure() else Done(());
  }

  lemma RunsCompose(a: Moment, b: Moment, c: Moment)
    requires Kept(a, b) && Kept(b, c) && forall e | e in a.bridges :: EntryPast(e, b.next)
    ensures Kept(a, c)
  {
    AccountedLater(a.bridges, b.bridges, b.procs, b.next, c.bridges, c.procs, c.next);
    forall e | e in a.bridges && Departed(b.procs, e) ensures Departed(c.procs, e) {
      AbsentLater(b.procs, b.next, c.procs, c.next, e.rclonePid, e.rcloneIdentity);
      AbsentLater(b.procs, b.next, c.procs, c.next, e.sshPid, e.sshIdentity);
    }
  }

  /** Every run of mount-up and status commands, each of which may be killed at any point and
      may list any labels: at every moment each live process this tool has spawned has an entry
      that covers it, entries left only once both their processes had gone, and no process was
      started for a mount that an entry of before still spoke for. When no command lists a label
      twice, no mount has two live pairs. */
  method RunAll(w: World, commands: seq<Command>)
    requires w.Valid()
    modifies w`bridges, w`procs, w`next, w`unanswered, w`signals, w`refused, w`disturbances, w`noes, w`spawned
    ensures w.Valid() && Kept(old(Now(w)), Now(w))
    ensures (forall c | c in commands :: NoLabelTwice(c)) ==>
              forall k | old(OnePair(w.procs, w.spawned, k)) :: OnePair(w.procs, w.spawned, k)
  {
    for i := 0 to |commands|
      invariant w.Valid() && Kept(old(Now(w)), Now(w))
      invariant (forall c | c in commands :: NoLabelTwice(c)) ==>
                  forall k | old(OnePair(w.procs, w.spawned, k)) :: OnePair(w.procs, w.spawned, k)
    {
      ghost var before := Now(w);
      var _ := Execute(w, commands[i]);
      RunsCompose(old(Now(w)), before, Now(w));
    }
  }
}
