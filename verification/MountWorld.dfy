/** The machine as a mount command meets it: every step can be the last, reads of the process
    table can fail, and between any two steps processes come and go. */
module MountWorld {
  import opened Wrappers
  import opened Bridges

  /** How a step of a command ends. Only a throw can be caught. */
  datatype Outcome<+T> = Done(value: T) | Thrown | Killed {
    predicate IsFailure() {
      !Done?
    }

    function PropagateFailure<U>(): Outcome<U>
      requires IsFailure()
    {
      if Thrown? then Thrown else Killed
    }

    function Extract(): T
      requires Done?
    {
      value
    }
  }

  /** What `ps` says of a pid: a string, `null` or `undefined`. */
  datatype Seen = Identity(id: Ident) | NoProcess | Unknown

  datatype Signalled = Sent | NoSuchProcess | NotPermitted

  datatype Assessment = AssessedLive | AssessedStale | AssessedUnknown

  datatype Stop = Stop(safe: bool, signalledPids: seq<int>)

  class World {
    var bridges: seq<LiveMount>
    var procs: Procs
    var next: Ident
    ghost var spawned: Children

    ghost var unanswered: multiset<int>
    ghost var signals: multiset<int>
    ghost var refused: multiset<int>

    /** How often so far something has gone wrong (a step failed, a question was not answered or
        answered no, a signal was refused, a process exited), and how often the answer was no. */
    ghost var disturbances: nat
    ghost var noes: nat

    ghost predicate Valid()
      reads this
    {
      Inv(procs, next, spawned, bridges)
    }

    /** Only time has passed. */
    twostate predicate Waited()
      reads this
    {
      && bridges == old(bridges) && spawned == old(spawned)
      && Evolves(old(procs), old(next), procs, next) && Steady()
    }

    /** Undisturbed, no process exits and no answer is no. */
    twostate predicate Steady()
      reads this
    {
      && old(disturbances) <= disturbances && old(noes) <= noes
      && (Calm() ==> noes == old(noes) && forall p | p in old(procs) :: p in procs && procs[p] == old(procs)[p])
    }

    twostate predicate Calm()
      reads this
    {
      disturbances == old(disturbances)
    }

    ghost function Now(): Instant
      reads this
    {
      Instant(procs, next, unanswered, signals, refused)
    }

    /** Lookups and signals are only ever added. */
    twostate predicate Noted()
      reads this
    {
      old(unanswered) <= unanswered && old(signals) <= signals && old(refused) <= refused
    }

    // ── Steps ───────────────────────────────────────────────────────────────

    /** Any number of processes exit, any number of others start. */
    method Tick() returns (r: Outcome<()>)
      requires Valid()
      modifies `procs, `next, `disturbances, `noes
      ensures Valid() && Waited() && !r.Thrown? && noes == old(noes)
    {
      var events: nat := *;
      while events > 0
        invariant Valid() && Waited() && noes == old(noes)
      {
        var pid: int, exits: bool := *, *;
        ghost var before, born := procs, next;
        if exits {
          if pid in procs { disturbances := disturbances + 1; }
          procs := procs - {pid};
        } else if 0 < pid && pid !in procs {
          procs, next := procs[pid := next], next + 1;
        }
        assert Evolves(before, born, procs, next);
        EvolvesAgain(old(procs), old(next), before, born, procs, next);
        InvLater(before, born, procs, next, spawned, bridges);
        events := events - 1;
      }
      var killed: bool := *;
      return if killed then Killed else Done(());
    }

    /** A step outside the model that may fail: key generation, shipping a key. */
    method Try() returns (r: Outcome<()>)
      requires Valid()
      modifies `procs, `next, `disturbances, `noes
      ensures Valid() && Waited() && (r.Thrown? ==> !Calm()) && noes == old(noes)
    {
      var _ :- Tick();
      var fails: bool := *;
      if fails { disturbances := disturbances + 1; }
      return if fails then Thrown else Done(());
    }

    /** Is the command line that was just read the one that was started? */
    method Matches() returns (yes: bool)
      requires Valid()
      modifies `disturbances, `noes
      ensures Valid() && Waited() && procs == old(procs) && next == old(next)
      ensures if yes then noes == old(noes) else !Calm()
    {
      yes := *;
      if !yes { disturbances, noes := disturbances + 1, noes + 1; }
    }

    /** A question about what lies outside the model: is the listener up, does the mount answer? */
    method Ask() returns (r: Outcome<bool>)
      requires Valid()
      modifies `procs, `next, `disturbances, `noes
      ensures Valid() && Waited() && !r.Thrown?
      ensures r.Done? && !r.value ==> !Calm()
      ensures r.Done? && r.value ==> noes == old(noes)
    {
      var _ :- Tick();
      var yes: bool := *;
      if !yes { disturbances, noes := disturbances + 1, noes + 1; }
      return Done(yes);
    }

    method Lookup(pid: int) returns (r: Outcome<Seen>)
      requires Valid()
      modifies `procs, `next, `disturbances, `noes, `unanswered
      ensures Valid() && Waited() && !r.Thrown?
      ensures unanswered == old(unanswered) + if r.Done? && r.value.Unknown? then multiset{pid} else multiset{}
      ensures r.Done? && r.value.NoProcess? ==> pid !in procs
      ensures r.Done? && r.value.Identity? ==> pid in procs && procs[pid] == r.value.id
      ensures r.Done? && r.value.Unknown? ==> !Calm()
      ensures noes == old(noes)
    {
      var _ :- Tick();
      var fails: bool := *;
      if fails { unanswered, disturbances := unanswered + multiset{pid}, disturbances + 1; }
      return Done(if fails then Unknown else if pid in procs then Identity(procs[pid]) else NoProcess);
    }

    /** `process.kill(pid)`: a request, nothing has exited yet. */
    method Signal(pid: int) returns (r: Outcome<Signalled>)
      requires Valid()
      modifies `procs, `next, `disturbances, `noes, `signals, `refused
      ensures Valid() && Waited() && !r.Thrown?
      ensures r.Done? && r.value.NoSuchProcess? ==> pid !in procs
      ensures signals == old(signals) + if r.Done? && r.value.Sent? then multiset{pid} else multiset{}
      ensures refused == old(refused) + if r.Done? && r.value.NotPermitted? then multiset{pid} else multiset{}
      ensures r.Done? && r.value.NotPermitted? ==> !Calm()
      ensures noes == old(noes)
    {
      var _ :- Tick();
      var permitted: bool := *;
      if pid in procs && permitted { signals := signals + multiset{pid}; }
      if pid in procs && !permitted { refused, disturbances := refused + multiset{pid}, disturbances + 1; }
      return Done(if pid !in procs then NoSuchProcess else if permitted then Sent else NotPermitted);
    }

    method ReadBridges() returns (r: Outcome<seq<LiveMount>>)
      requires Valid()
      modifies `procs, `next, `disturbances, `noes
      ensures Valid() && Waited() && (r.Thrown? ==> !Calm())
      ensures r.Done? ==> r.value == bridges
      ensures noes == old(noes)
    {
      var _ :- Try();
      return Done(bridges);
    }

    /** Write to a temporary file, then rename: the old list or the new one, never part of one. */
    method WriteBridges(list: seq<LiveMount>) returns (r: Outcome<()>)
      requires Valid() && Inv(procs, next, spawned, list)
      modifies `bridges, `procs, `next, `disturbances, `noes
      ensures Valid() && spawned == old(spawned) && Evolves(old(procs), old(next), procs, next) && Steady()
      ensures bridges == list || (!r.Done? && bridges == old(bridges))
      ensures r.Thrown? ==> !Calm()
      ensures noes == old(noes)
    {
      var before := Tick();
      InvLater(old(procs), old(next), procs, next, spawned, list);
      if before.Killed? { return Killed; }
      var fails: bool := *;
      if fails {
        disturbances := disturbances + 1;
        return Thrown;
      }
      bridges := list;
      ghost var procs0, next0 := procs, next;
      r := Try();
      EvolvesAgain(old(procs), old(next), procs0, next0, procs, next);
    }

    /** The time, which no two reservations share. */
    method Stamp() returns (created: nat)
      requires Valid()
      modifies `next
      ensures Valid() && Waited() && Calm() && procs == old(procs) && created == old(next) < next
    {
      created := next;
      next := next + 1;
      InvLater(procs, old(next), procs, next, spawned, bridges);
    }

    /** Key and port for a mount, then its reservation's time stamp. */
    method Prepare() returns (r: Outcome<nat>)
      requires Valid()
      modifies `procs, `next, `disturbances, `noes
      ensures Valid() && Waited() && (r.Thrown? ==> !Calm()) && noes == old(noes)
      ensures r.Done? ==> r.value < next && forall e | e in bridges :: e.created < r.value
    {
      var _ :- Try();
      var created := Stamp();
      return Done(created);
    }

    /** A detached child under a free pid, or none (`pid` undefined, -1 in the code). Nothing
        looks at what runs already: a reservation for the mount is all a start needs. */
    method Spawn(key: Key, role: Role, reservation: LiveMount) returns (pid: int, ghost id: Ident)
      requires Valid() && reservation in bridges && reservation.key == key && !Committed(reservation)
      modifies `procs, `next, `disturbances, `noes, `spawned
      ensures Valid() && next == old(next) + 1 && id == old(next) && Evolves(old(procs), old(next), procs, next) && Steady()
      ensures noes == old(noes) && (pid == -1 ==> !Calm())
      ensures (pid == -1 && procs == old(procs) && spawned == old(spawned) && id !in spawned)
           || (0 < pid && spawned == old(spawned)[id := Child(key, role, pid)] && procs == old(procs)[pid := id])
      ensures id !in old(spawned)
      ensures forall i | i != id :: Live(procs, spawned, i) <==> Live(old(procs), old(spawned), i)
    {
      id := next;
      pid := *;
      if pid <= 0 || pid in procs {
        pid := -1;
        next, disturbances := next + 1, disturbances + 1;
        InvLater(old(procs), old(next), procs, next, spawned, bridges);
      } else {
        SpawnKeepsInv(procs, next, spawned, bridges, Child(key, role, pid), reservation);
        procs, spawned := procs[pid := next], spawned[id := Child(key, role, pid)];
        next := next + 1;
      }
    }

    // ── bridge.ts ───────────────────────────────────────────────────────────

    /** Live means both processes were seen, stale that one was seen not to be there; a pair of
        which one has gone is stale unless a lookup fails. */
    method AssessBridgeProcesses(e: LiveMount) returns (r: Outcome<Assessment>)
      requires Valid() && EntryPast(e, next)
      modifies `procs, `next, `disturbances, `noes, `unanswered
      ensures Valid() && Waited() && Noted() && !r.Thrown?
      ensures r.Done? && !Committed(e) ==> r.value.AssessedUnknown?
      ensures r.Done? && r.value.AssessedStale? ==> OneGone(procs, e)
      ensures r.Done? && r.value.AssessedLive? ==> BothThere(old(procs), e) && !Absent(procs, e.sshPid, e.sshIdentity)
      ensures r.Done? && OneGone(old(procs), e) && unanswered == old(unanswered) ==> r.value.AssessedStale?
      ensures r.Done? && Committed(e) && unanswered == old(unanswered) ==> !r.value.AssessedUnknown?
      ensures unanswered - old(unanswered) <= multiset{e.rclonePid, e.sshPid}
      ensures r.Done? && BothThere(old(procs), e) && Calm() ==> r.value.AssessedLive?
      ensures noes == old(noes)
    {
      if e.rcloneIdentity.None? || e.sshIdentity.None? { return Done(AssessedUnknown); }
      var rclone :- Lookup(e.rclonePid);
      ghost var procs0, next0 := procs, next;
      var ssh := Lookup(e.sshPid);
      EvolvesAgain(old(procs), old(next), procs0, next0, procs, next);
      if ssh.Killed? { return Killed; }
      if rclone.Unknown? || ssh.value.Unknown? { return Done(AssessedUnknown); }
      GoneStays(old(procs), old(next), procs0, next0, e);
      GoneStays(procs0, next0, procs, next, e);
      if rclone == Identity(e.rcloneIdentity.value) && ssh.value == Identity(e.sshIdentity.value) { return Done(AssessedLive); }
      return Done(AssessedStale);
    }

    lemma GoneStays(procs0: Procs, next0: Ident, procs1: Procs, next1: Ident, e: LiveMount)
      requires Evolves(procs0, next0, procs1, next1) && EntryPast(e, next0)
      ensures Absent(procs0, e.rclonePid, e.rcloneIdentity) ==> Absent(procs1, e.rclonePid, e.rcloneIdentity)
      ensures Absent(procs0, e.sshPid, e.sshIdentity) ==> Absent(procs1, e.sshPid, e.sshIdentity)
    {
    }

    /** One round of the loop of `stopOwnedBridgeProcesses`: unsafe only without an identity,
        after a failed lookup or a refused signal, or with another process under the pid. */
    method StopOwned(pid: int, expected: Option<Ident>) returns (r: Outcome<Stop>)
      requires Valid() && (expected.Some? ==> expected.value < next)
      modifies `procs, `next, `disturbances, `noes, `unanswered, `signals, `refused
      ensures Valid() && Waited() && Noted() && !r.Thrown? && noes == old(noes)
      ensures r.Done? && r.value.safe && r.value.signalledPids == [] ==> expected.Some? && Absent(procs, pid, expected)
      ensures r.Done? && r.value.safe ==> expected.Some?
      ensures r.Done? && !r.value.safe && expected.Some? ==> Barred(old(Now()), Now(), pid, expected)
      ensures r.Done? ==> signals[pid] == old(signals)[pid] + |r.value.signalledPids| && r.value.signalledPids in {[], [pid]}
    {
      if expected.None? { return Done(Stop(false, [])); }
      var observed :- Lookup(pid);
      if observed.NoProcess? { return Done(Stop(true, [])); }
      if observed != Identity(expected.value) {
        assert observed.Identity? ==> TakenAt(old(Now()), Now(), Now(), pid, expected.value);
        return Done(Stop(false, []));
      }
      ghost var procs0, next0 := procs, next;
      var sent := Signal(pid);
      EvolvesAgain(old(procs), old(next), procs0, next0, procs, next);
      if sent.Killed? { return Killed; }
      return Done(match sent.value
                  case Sent => Stop(true, [pid])
                  case NoSuchProcess => Stop(true, [])
                  case NotPermitted => Stop(false, []));
    }

    /** Safe and silent means both processes are gone; unsafe or not silent has its reason. */
    method StopOwnedBridgeProcesses(e: LiveMount) returns (r: Outcome<Stop>)
      requires Valid() && EntryPast(e, next)
      modifies `procs, `next, `disturbances, `noes, `unanswered, `signals, `refused
      ensures Valid() && Waited() && Noted() && !r.Thrown? && noes == old(noes)
      ensures r.Done? && r.value.safe ==> Committed(e)
      ensures r.Done? && r.value.safe && r.value.signalledPids == [] ==> Departed(procs, e)
      ensures r.Done? && Committed(e) && !(r.value.safe && r.value.signalledPids == []) ==>
                Excused(old(Now()), Now(), e)
      ensures r.Done? && Committed(e) && !r.value.safe ==>
                Barred(old(Now()), Now(), e.rclonePid, e.rcloneIdentity) || Barred(old(Now()), Now(), e.sshPid, e.sshIdentity)
    {
      var first :- StopOwned(e.rclonePid, e.rcloneIdentity);
      ghost var before := Now();
      var second := StopOwned(e.sshPid, e.sshIdentity);
      EvolvesAgain(old(procs), old(next), before.procs, before.next, procs, next);
      if second.Killed? { return Killed; }
      if Tried(old(Now()), before, e.rclonePid, e.rcloneIdentity) {
        TriedWithin(old(Now()), old(Now()), before, Now(), e.rclonePid, e.rcloneIdentity);
      }
      if Tried(before, Now(), e.sshPid, e.sshIdentity) {
        TriedWithin(old(Now()), before, Now(), Now(), e.sshPid, e.sshIdentity);
      }
      return Done(Stop(first.safe && second.value.safe, first.signalledPids + second.value.signalledPids));
    }

    /** Whether a pass over the list keeps an entry. It drops one only when both processes have
        gone; it keeps one of which a process had gone only for a reason; and it asks a process
        to exit only when the other has gone. */
    method Retained(e: LiveMount) returns (r: Outcome<bool>, ghost stops: bool)
      requires Valid() && EntryPast(e, next)
      modifies `procs, `next, `disturbances, `noes, `unanswered, `signals, `refused
      ensures Valid() && Waited() && Noted() && !r.Thrown? && noes == old(noes)
      ensures r.Done? && !r.value ==> Departed(procs, e)
      ensures r.Done? && r.value && OneGone(old(procs), e) ==>
                Excused(old(Now()), Now(), e)
      ensures stops ==> OneGone(procs, e)
      ensures !stops ==> signals == old(signals)
    {
      stops := false;
      var assessment := AssessBridgeProcesses(e);
      if assessment.Killed? { return Killed, false; }
      if !assessment.value.AssessedStale? {
        SomeLookupFailed(old(unanswered), unanswered, e);
        return Done(true), false;
      }
      ghost var before := Now();
      var stopped := StopOwnedBridgeProcesses(e);
      EvolvesAgain(old(procs), old(next), before.procs, before.next, procs, next);
      GoneStays(before.procs, before.next, procs, next, e);
      if stopped.Killed? { return Killed, true; }
      if Excused(before, Now(), e) {
        ExcusedWithin(old(Now()), before, Now(), Now(), e);
      }
      return Done(!stopped.value.safe || stopped.value.signalledPids != []), true;
    }

    lemma SomeLookupFailed(u0: multiset<int>, u1: multiset<int>, e: LiveMount)
      requires u0 <= u1 && u1 - u0 <= multiset{e.rclonePid, e.sshPid}
      ensures u0 != u1 ==> u0[e.rclonePid] < u1[e.rclonePid] || u0[e.sshPid] < u1[e.sshPid]
    {
      forall p | p != e.rclonePid && p != e.sshPid ensures u1[p] == u0[p] {
        assert (u1 - u0)[p] <= multiset{e.rclonePid, e.sshPid}[p];
      }
      if u0[e.rclonePid] == u1[e.rclonePid] && u0[e.sshPid] == u1[e.sshPid] {
        assert u0 == u1;
      }
    }

    lemma DepartedLater(procs0: Procs, next0: Ident, e: LiveMount)
      requires Departed(procs0, e) && EntryPast(e, next0) && Evolves(procs0, next0, procs, next)
      ensures Departed(procs, e)
    {
    }

    /** Entries only leave the file when both of their processes were seen to be gone. */
    twostate predicate OnlyDepartedLeft()
      reads this
    {
      forall e | e in old(bridges) :: e in bridges || Departed(procs, e)
    }

    /** An entry that stays although one of its processes had gone has its reason. */
    twostate predicate KeptForReason(kept: seq<LiveMount>)
      reads this
    {
      forall e | e in kept && OneGone(old(procs), e) ::
        Excused(old(Now()), Now(), e)
    }

    /** The entries a pass keeps. */
    method Sift(list: seq<LiveMount>) returns (r: Outcome<seq<LiveMount>>)
      requires Valid() && list == bridges
      modifies `procs, `next, `disturbances, `noes, `unanswered, `signals, `refused
      ensures Valid() && Waited() && Noted() && noes == old(noes) && !r.Thrown?
      ensures r.Done? ==> forall e | e in r.value :: e in list
      ensures r.Done? ==> forall e | e in list :: e in r.value || Departed(procs, e)
      ensures r.Done? ==> KeptForReason(r.value)
    {
      var kept: seq<LiveMount> := [];
      for i := 0 to |list|
        invariant Valid() && Waited() && Noted() && noes == old(noes)
        invariant forall e | e in kept :: e in list
        invariant forall e | e in list[..i] :: e in kept || Departed(procs, e)
        invariant KeptForReason(kept)
      {
        ghost var before := Now();
        var retained, _ := Retained(list[i]);
        EvolvesAgain(old(procs), old(next), before.procs, before.next, procs, next);
        if retained.Killed? { return Killed; }
        forall e | e in list[..i] && Departed(before.procs, e) ensures Departed(procs, e) {
          DepartedLater(before.procs, before.next, e);
        }
        forall e | e in kept && OneGone(old(procs), e) ensures Excused(old(Now()), Now(), e) {
          ExcusedWithin(old(Now()), old(Now()), before, Now(), e);
        }
        GoneStays(old(procs), old(next), before.procs, before.next, list[i]);
        if retained.value {
          if OneGone(old(procs), list[i]) {
            ExcusedWithin(old(Now()), before, Now(), Now(), list[i]);
          }
          kept := kept + [list[i]];
        }
        assert forall e | e in list[..i + 1] :: e in list[..i] || e == list[i];
      }
      assert list[..|list|] == list;
      return Done(kept);
    }

    method ReconcileBridges() returns (r: Outcome<seq<LiveMount>>)
      requires Valid()
      modifies `bridges, `procs, `next, `disturbances, `noes, `unanswered, `signals, `refused
      ensures Valid() && spawned == old(spawned) && Evolves(old(procs), old(next), procs, next) && Noted() && Steady()
      ensures noes == old(noes) && (r.Thrown? ==> !Calm())
      ensures OnlyDepartedLeft()
      ensures forall e | e in bridges :: e in old(bridges)
      ensures r.Done? ==> r.value == bridges && KeptForReason(bridges)
    {
      var list :- ReadBridges();
      ghost var read := Now();
      var kept :- Sift(list);
      DropDeparted(procs, next, spawned, bridges, kept);
      ghost var sifted := Now();
      var written := WriteBridges(kept);
      EvolvesAgain(old(procs), old(next), sifted.procs, sifted.next, procs, next);
      forall e | e in list && Departed(sifted.procs, e) ensures Departed(procs, e) {
        DepartedLater(sifted.procs, sifted.next, e);
      }
      if written.IsFailure() { return written.PropagateFailure(); }
      forall e | e in kept && OneGone(old(procs), e) ensures Excused(old(Now()), Now(), e) {
        GoneStays(old(procs), old(next), read.procs, read.next, e);
        ExcusedWithin(old(Now()), read, sifted, Now(), e);
      }
      return Done(kept);
    }
  }
}
