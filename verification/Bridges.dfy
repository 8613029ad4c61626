/** clients/devbox/src/bridge.ts and clients/devbox/src/mount.ts: starting lazy mounts and
    keeping track of their processes.

    The world moves between any two steps of a command: processes exit, other programs start
    and reuse pids, and the command itself may be killed. A birth identity (start time and
    command line, as `ps` shows them) is a number that never comes back. */
module Bridges {
  import opened Wrappers

  type Ident = nat
  datatype Key = Key(profile: string, mount: string)

  /** An entry of bridges.json; `created` is its time stamp. */
  datatype LiveMount = LiveMount(key: Key, created: nat, rclonePid: int, sshPid: int,
                                 rcloneIdentity: Option<Ident>, sshIdentity: Option<Ident>)

  predicate SameEntry(a: LiveMount, b: LiveMount) {
    a.key == b.key && a.created == b.created
  }

  predicate Committed(e: LiveMount) {
    e.rcloneIdentity.Some? && e.sshIdentity.Some?
  }

  datatype Role = Rclone | Ssh
  datatype Child = Child(key: Key, role: Role, pid: int)

  type Procs = map<int, Ident>
  type Children = map<Ident, Child>

  // ── Tracking ──────────────────────────────────────────────────────────────

  /** A process this tool has spawned is still running. */
  ghost predicate Live(procs: Procs, spawned: Children, id: Ident) {
    id in spawned && spawned[id].pid in procs && procs[spawned[id].pid] == id
  }

  /** An entry without identities, a reservation, stands for every process of its mount; a
      committed one for the two it names. */
  predicate Covers(e: LiveMount, c: Child, id: Ident) {
    && e.key == c.key
    && (!Committed(e) || (e.rclonePid == c.pid && e.rcloneIdentity == Some(id))
                      || (e.sshPid == c.pid && e.sshIdentity == Some(id)))
  }

  ghost predicate Tracked(procs: Procs, spawned: Children, bridges: seq<LiveMount>) {
    forall id | Live(procs, spawned, id) :: exists e | e in bridges :: Covers(e, spawned[id], id)
  }

  /** A pid is never zero or negative, and what there is came about before now. */
  ghost predicate Past(procs: Procs, next: Ident, spawned: Children) {
    (forall p | p in procs :: 0 < p && procs[p] < next) && (forall id | id in spawned :: id < next)
  }

  predicate EntryPast(e: LiveMount, next: Ident) {
    && e.created < next
    && (e.rcloneIdentity.Some? ==> e.rcloneIdentity.value < next)
    && (e.sshIdentity.Some? ==> e.sshIdentity.value < next)
  }

  ghost predicate Inv(procs: Procs, next: Ident, spawned: Children, bridges: seq<LiveMount>) {
    && Past(procs, next, spawned)
    && (forall e | e in bridges :: EntryPast(e, next))
    && Tracked(procs, spawned, bridges)
  }

  /** What time can do to the process table: nothing that ended comes back. */
  ghost predicate Evolves(procs: Procs, next: Ident, procs': Procs, next': Ident) {
    next <= next' && forall p | p in procs' :: (p in procs && procs'[p] == procs[p]) || procs'[p] >= next
  }

  lemma EvolvesAgain(a: Procs, na: Ident, b: Procs, nb: Ident, c: Procs, nc: Ident)
    requires Evolves(a, na, b, nb) && Evolves(b, nb, c, nc)
    ensures Evolves(a, na, c, nc)
  {
  }

  lemma LiveBefore(procs: Procs, next: Ident, procs': Procs, next': Ident, spawned: Children, id: Ident)
    requires Past(procs, next, spawned) && Evolves(procs, next, procs', next') && Live(procs', spawned, id)
    ensures Live(procs, spawned, id)
  {
  }

  lemma InvLater(procs: Procs, next: Ident, procs': Procs, next': Ident, spawned: Children, bridges: seq<LiveMount>)
    requires Inv(procs, next, spawned, bridges) && Evolves(procs, next, procs', next') && Past(procs', next', spawned)
    ensures Inv(procs', next', spawned, bridges)
  {
    forall id | Live(procs', spawned, id) ensures Live(procs, spawned, id) {
      LiveBefore(procs, next, procs', next', spawned, id);
    }
  }

  /** The process an entry names by pid and identity is not there. */
  predicate Absent(procs: Procs, pid: int, identity: Option<Ident>) {
    identity.Some? ==> pid !in procs || procs[pid] != identity.value
  }

  lemma AbsentLater(procs: Procs, next: Ident, procs': Procs, next': Ident, pid: int, identity: Option<Ident>)
    requires Evolves(procs, next, procs', next') && Absent(procs, pid, identity)
    requires identity.Some? ==> identity.value < next
    ensures Absent(procs', pid, identity)
  {
  }

  // ── Instants ──────────────────────────────────────────────────────────────

  /** How often so far a lookup of a pid has failed, a signal to it was sent, and one refused. */
  datatype Instant = Instant(procs: Procs, next: Ident, unanswered: multiset<int>, signals: multiset<int>, refused: multiset<int>)

  ghost predicate Later(a: Instant, b: Instant) {
    Evolves(a.procs, a.next, b.procs, b.next)
  }

  /** Both processes of a committed entry are there. */
  predicate BothThere(procs: Procs, e: LiveMount) {
    Committed(e) && !Absent(procs, e.rclonePid, e.rcloneIdentity) && !Absent(procs, e.sshPid, e.sshIdentity)
  }

  /** A process of a committed entry is gone. */
  predicate OneGone(procs: Procs, e: LiveMount) {
    Committed(e) && !BothThere(procs, e)
  }

  ghost predicate BothThereAt(a: Instant, i: Instant, b: Instant, e: LiveMount) {
    Later(a, i) && Later(i, b) && BothThere(i.procs, e)
  }

  /** At some instant from `a` to `b` both processes of the entry were there. */
  ghost predicate SeenUp(a: Instant, b: Instant, e: LiveMount) {
    exists i :: BothThereAt(a, i, b, e)
  }

  lemma SeenUpWithin(a: Instant, b: Instant, c: Instant, d: Instant, e: LiveMount)
    requires Later(a, b) && SeenUp(b, c, e) && Later(c, d)
    ensures SeenUp(a, d, e)
  {
    var i :| BothThereAt(b, i, c, e);
    EvolvesAgain(a.procs, a.next, b.procs, b.next, i.procs, i.next);
    EvolvesAgain(i.procs, i.next, c.procs, c.next, d.procs, d.next);
    assert BothThereAt(a, i, d, e);
  }

  ghost predicate TakenAt(a: Instant, i: Instant, b: Instant, pid: int, identity: Ident) {
    Later(a, i) && Later(i, b) && pid in i.procs && i.procs[pid] != identity
  }

  /** At some instant from `a` to `b` another process had the pid. */
  ghost predicate Taken(a: Instant, b: Instant, pid: int, identity: Ident) {
    exists i :: TakenAt(a, i, b, pid, identity)
  }

  lemma TakenWithin(a: Instant, b: Instant, c: Instant, d: Instant, pid: int, identity: Ident)
    requires Later(a, b) && Taken(b, c, pid, identity) && Later(c, d)
    ensures Taken(a, d, pid, identity)
  {
    var i :| TakenAt(b, i, c, pid, identity);
    EvolvesAgain(a.procs, a.next, b.procs, b.next, i.procs, i.next);
    EvolvesAgain(i.procs, i.next, c.procs, c.next, d.procs, d.next);
    assert TakenAt(a, i, d, pid, identity);
  }

  ghost predicate Follows(a: Instant, b: Instant) {
    Later(a, b) && a.unanswered <= b.unanswered && a.signals <= b.signals && a.refused <= b.refused
  }

  /** Why a process could not be asked to exit: a lookup of the pid failed meanwhile, a signal was
      refused, or the pid belonged to another process. */
  ghost predicate Barred(a: Instant, b: Instant, pid: int, identity: Option<Ident>) {
    || a.unanswered[pid] < b.unanswered[pid] || a.refused[pid] < b.refused[pid]
    || (identity.Some? && Taken(a, b, pid, identity.value))
  }

  /** Why its exit was not seen: for the same reasons, or because it has just been asked. */
  ghost predicate Tried(a: Instant, b: Instant, pid: int, identity: Option<Ident>) {
    Barred(a, b, pid, identity) || a.signals[pid] < b.signals[pid]
  }

  ghost predicate Excused(a: Instant, b: Instant, e: LiveMount) {
    Tried(a, b, e.rclonePid, e.rcloneIdentity) || Tried(a, b, e.sshPid, e.sshIdentity)
  }

  lemma TriedWithin(a: Instant, b: Instant, c: Instant, d: Instant, pid: int, identity: Option<Ident>)
    requires Follows(a, b) && Tried(b, c, pid, identity) && Follows(c, d)
    ensures Tried(a, d, pid, identity)
    ensures Barred(b, c, pid, identity) ==> Barred(a, d, pid, identity)
  {
    assert a.unanswered[pid] <= b.unanswered[pid] && c.unanswered[pid] <= d.unanswered[pid];
    assert a.signals[pid] <= b.signals[pid] && c.signals[pid] <= d.signals[pid];
    assert a.refused[pid] <= b.refused[pid] && c.refused[pid] <= d.refused[pid];
    if identity.Some? && Taken(b, c, pid, identity.value) {
      TakenWithin(a, b, c, d, pid, identity.value);
    }
  }

  lemma ExcusedWithin(a: Instant, b: Instant, c: Instant, d: Instant, e: LiveMount)
    requires Follows(a, b) && Excused(b, c, e) && Follows(c, d)
    ensures Excused(a, d, e)
  {
    if Tried(b, c, e.rclonePid, e.rcloneIdentity) {
      TriedWithin(a, b, c, d, e.rclonePid, e.rcloneIdentity);
    } else {
      TriedWithin(a, b, c, d, e.sshPid, e.sshIdentity);
    }
  }

  /** Both processes of a committed entry are gone. */
  predicate Departed(procs: Procs, e: LiveMount) {
    Committed(e) && Absent(procs, e.rclonePid, e.rcloneIdentity) && Absent(procs, e.sshPid, e.sshIdentity)
  }

  lemma DepartedCoversNothing(procs: Procs, spawned: Children, e: LiveMount, id: Ident)
    requires Departed(procs, e) && Live(procs, spawned, id)
    ensures !Covers(e, spawned[id], id)
  {
  }

  /** Entries whose processes are gone can be dropped. */
  lemma DropDeparted(procs: Procs, next: Ident, spawned: Children, bridges: seq<LiveMount>, kept: seq<LiveMount>)
    requires Inv(procs, next, spawned, bridges)
    requires forall e | e in kept :: e in bridges
    requires forall e | e in bridges :: e in kept || Departed(procs, e)
    ensures Inv(procs, next, spawned, kept)
  {
    forall id | Live(procs, spawned, id) ensures exists e | e in kept :: Covers(e, spawned[id], id) {
      var e :| e in bridges && Covers(e, spawned[id], id);
      if Departed(procs, e) {
        DepartedCoversNothing(procs, spawned, e, id);
      }
      assert e in kept;
    }
  }

  // ── One entry among the others ────────────────────────────────────────────

  /** Every live process but those in `ids` is covered by an entry other than `entry`. */
  ghost predicate Beyond(procs: Procs, spawned: Children, bridges: seq<LiveMount>, entry: LiveMount, ids: set<Ident>) {
    forall id | Live(procs, spawned, id) :: id in ids || CoveredBeside(bridges, entry, spawned[id], id)
  }

  ghost predicate CoveredBeside(bridges: seq<LiveMount>, entry: LiveMount, c: Child, id: Ident) {
    exists e | e in bridges :: !SameEntry(e, entry) && Covers(e, c, id)
  }

  /** The entries other than `entry` are the same in both lists. */
  ghost predicate SameBeside(bridges: seq<LiveMount>, bridges': seq<LiveMount>, entry: LiveMount) {
    forall e | !SameEntry(e, entry) :: e in bridges <==> e in bridges'
  }

  lemma BeyondLater(procs: Procs, next: Ident, procs': Procs, next': Ident, spawned: Children,
                    bridges: seq<LiveMount>, bridges': seq<LiveMount>, entry: LiveMount, ids: set<Ident>)
    requires Past(procs, next, spawned) && Evolves(procs, next, procs', next') && Beyond(procs, spawned, bridges, entry, ids)
    requires SameBeside(bridges, bridges', entry)
    ensures Beyond(procs', spawned, bridges', entry, ids)
  {
    forall id | Live(procs', spawned, id) ensures id in ids || CoveredBeside(bridges', entry, spawned[id], id) {
      LiveBefore(procs, next, procs', next', spawned, id);
      if id !in ids {
        var e :| e in bridges && !SameEntry(e, entry) && Covers(e, spawned[id], id);
        assert e in bridges';
      }
    }
  }

  /** One process more, to be covered by `entry`. */
  lemma BeyondMore(procs: Procs, spawned: Children, procs': Procs, spawned': Children, bridges: seq<LiveMount>,
                   entry: LiveMount, ids: set<Ident>, id: Ident)
    requires Beyond(procs, spawned, bridges, entry, ids) && Extends(spawned, spawned')
    requires forall i | i != id && Live(procs', spawned', i) :: Live(procs, spawned, i)
    ensures Beyond(procs', spawned', bridges, entry, ids + {id})
  {
    forall i | Live(procs', spawned', i) && i != id ensures i in ids || CoveredBeside(bridges, entry, spawned'[i], i) {
      assert spawned'[i] == spawned[i];
    }
  }

  /** A new time stamp: the entries there are speak for everything that lives. */
  lemma NewEntryIsBeside(procs: Procs, next: Ident, spawned: Children, bridges: seq<LiveMount>, entry: LiveMount)
    requires Inv(procs, next, spawned, bridges) && forall e | e in bridges :: !SameEntry(e, entry)
    ensures Beyond(procs, spawned, bridges, entry, {})
  {
    forall id | Live(procs, spawned, id) ensures CoveredBeside(bridges, entry, spawned[id], id) {
      var e :| e in bridges && Covers(e, spawned[id], id);
      assert !SameEntry(e, entry);
    }
  }

  /** What nothing but `entry` speaks for has ended: the entry can go. */
  lemma DropUnused(procs: Procs, next: Ident, spawned: Children, bridges: seq<LiveMount>, kept: seq<LiveMount>, entry: LiveMount)
    requires Inv(procs, next, spawned, bridges) && Beyond(procs, spawned, bridges, entry, {})
    requires forall e | e in kept :: e in bridges
    requires SameBeside(bridges, kept, entry)
    ensures Inv(procs, next, spawned, kept)
  {
    forall id | Live(procs, spawned, id) ensures exists e | e in kept :: Covers(e, spawned[id], id) {
      assert CoveredBeside(bridges, entry, spawned[id], id);
      var e :| e in bridges && !SameEntry(e, entry) && Covers(e, spawned[id], id);
      assert e in kept;
    }
  }

  /** An entry that covers what no other does can stand in for another of the same stamp. */
  lemma Supersede(procs: Procs, next: Ident, spawned: Children, bridges: seq<LiveMount>, bridges': seq<LiveMount>, entry: LiveMount, ids: set<Ident>)
    requires Inv(procs, next, spawned, bridges) && EntryPast(entry, next) && Beyond(procs, spawned, bridges, entry, ids)
    requires forall id | id in ids && Live(procs, spawned, id) :: Covers(entry, spawned[id], id)
    requires entry in bridges' && SameBeside(bridges, bridges', entry)
    requires forall e | e in bridges' :: e == entry || e in bridges
    ensures Inv(procs, next, spawned, bridges')
  {
    forall id | Live(procs, spawned, id) ensures exists e | e in bridges' :: Covers(e, spawned[id], id) {
      if id in ids {
        assert Covers(entry, spawned[id], id);
      } else {
        assert CoveredBeside(bridges, entry, spawned[id], id);
        var e :| e in bridges && !SameEntry(e, entry) && Covers(e, spawned[id], id);
        assert e in bridges';
      }
    }
  }

  /** Spawning under a reservation. */
  lemma SpawnKeepsInv(procs: Procs, next: Ident, spawned: Children, bridges: seq<LiveMount>, c: Child, reservation: LiveMount)
    requires Inv(procs, next, spawned, bridges) && c.pid !in procs && 0 < c.pid
    requires reservation in bridges && reservation.key == c.key && !Committed(reservation)
    ensures Inv(procs[c.pid := next], next + 1, spawned[next := c], bridges)
    ensures Live(procs[c.pid := next], spawned[next := c], next)
    ensures forall id | id != next :: Live(procs[c.pid := next], spawned[next := c], id) <==> Live(procs, spawned, id)
  {
    var procs', spawned' := procs[c.pid := next], spawned[next := c];
    forall id | id != next ensures Live(procs', spawned', id) <==> Live(procs, spawned, id) {
    }
    forall id | Live(procs', spawned', id) ensures exists e | e in bridges :: Covers(e, spawned'[id], id) {
      if id == next {
        assert Covers(reservation, c, id);
      }
    }
  }

  // ── One pair ──────────────────────────────────────────────────────────────

  /** No two live processes of one mount in one role. */
  ghost predicate OnePair(procs: Procs, spawned: Children, key: Key) {
    forall i, j | Live(procs, spawned, i) && Live(procs, spawned, j) ::
      spawned[i].key == key == spawned[j].key && spawned[i].role == spawned[j].role ==> i == j
  }

  /** The live processes of a mount are among `ids`. */
  ghost predicate Only(procs: Procs, spawned: Children, key: Key, ids: set<Ident>) {
    forall id | Live(procs, spawned, id) && spawned[id].key == key :: id in ids
  }

  lemma OnlyLater(procs: Procs, next: Ident, procs': Procs, next': Ident, spawned: Children, key: Key, ids: set<Ident>)
    requires Past(procs, next, spawned) && Evolves(procs, next, procs', next')
    ensures Only(procs, spawned, key, ids) ==> Only(procs', spawned, key, ids)
  {
    forall id | Live(procs', spawned, id) ensures Live(procs, spawned, id) {
      LiveBefore(procs, next, procs', next', spawned, id);
    }
  }

  /** No entry, no process: what lets a start go ahead. */
  lemma NoEntryNoProcess(procs: Procs, next: Ident, spawned: Children, bridges: seq<LiveMount>, key: Key)
    requires Inv(procs, next, spawned, bridges) && forall e | e in bridges :: e.key != key
    ensures Only(procs, spawned, key, {})
  {
  }

  ghost predicate Extends(spawned: Children, spawned': Children) {
    forall id | id in spawned :: id in spawned' && spawned'[id] == spawned[id]
  }

  /** Time, and processes started for other mounts, leave a mount its one pair. */
  lemma OnePairLater(procs: Procs, next: Ident, procs': Procs, next': Ident, spawned: Children, spawned': Children, key: Key)
    requires Past(procs, next, spawned) && Evolves(procs, next, procs', next') && Extends(spawned, spawned')
    requires forall id | id in spawned' && id !in spawned :: spawned'[id].key != key
    requires OnePair(procs, spawned, key)
    ensures OnePair(procs', spawned', key)
  {
    forall id | id in spawned && Live(procs', spawned', id) ensures Live(procs, spawned, id) {
      LiveBefore(procs, next, procs', next', spawned, id);
    }
  }

  /** One process of each role at most. */
  lemma TwoRoles(procs: Procs, spawned: Children, key: Key, rclone: Ident, ssh: Ident)
    requires Only(procs, spawned, key, {rclone, ssh})
    requires rclone in spawned ==> spawned[rclone].role.Rclone?
    requires ssh in spawned ==> spawned[ssh].role.Ssh?
    ensures OnePair(procs, spawned, key)
  {
  }
}
