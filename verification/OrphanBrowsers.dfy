/** scripts/orphan-browser-reap.py: which browser may be taken for abandoned, and which
    profile directory may go with it. Path normalisation and glob matching are parameters. */
module OrphanBrowsers {
  import opened Wrappers

  // ── Debugging ports ───────────────────────────────────────────────────────

  datatype Row = Row(inode: nat, localPort: nat, peerPort: nat, state: string)

  const LISTEN := "0A"
  const ESTABLISHED := "01"

  datatype Ports = Ports(listening: set<nat>, peered: set<nat>, readable: bool)

  predicate InTables(r: Row, tables: seq<seq<Row>>) {
    exists t | t in tables :: r in t
  }

  predicate Listens(r: Row, mine: set<nat>) {
    r.inode in mine && r.state == LISTEN
  }

  predicate HasPeer(r: Row, mine: set<nat>) {
    r.inode in mine && r.state == ESTABLISHED && r.peerPort != 0
  }

  ghost predicate PortsOf(tables: seq<seq<Row>>, mine: set<nat>, listening: set<nat>, peered: set<nat>) {
    && (forall p :: p in listening <==> exists r: Row :: InTables(r, tables) && Listens(r, mine) && r.localPort == p)
    && (forall p :: p in peered <==> exists r: Row :: InTables(r, tables) && HasPeer(r, mine) && r.localPort == p)
  }

  /** The rows of one table, up to `n`. */
  ghost predicate PortsWithin(before: Ports, t: seq<Row>, n: nat, mine: set<nat>, listening: set<nat>, peered: set<nat>)
    requires n <= |t|
  {
    && (forall p :: p in listening <==> p in before.listening || exists r | r in t[..n] :: Listens(r, mine) && r.localPort == p)
    && (forall p :: p in peered <==> p in before.peered || exists r | r in t[..n] :: HasPeer(r, mine) && r.localPort == p)
  }

  method TablePorts(before: Ports, t: seq<Row>, mine: set<nat>) returns (after: Ports)
    ensures PortsWithin(before, t, |t|, mine, after.listening, after.peered) && after.readable == before.readable
  {
    var listening, peered := before.listening, before.peered;
    for i := 0 to |t|
      invariant PortsWithin(before, t, i, mine, listening, peered)
    {
      assert t[..i + 1] == t[..i] + [t[i]];
      if t[i].inode !in mine { continue; }
      if t[i].state == LISTEN {
        listening := listening + {t[i].localPort};
      } else if t[i].state == ESTABLISHED && t[i].peerPort != 0 {
        peered := peered + {t[i].localPort};
      }
    }
    return Ports(listening, peered, before.readable);
  }

  lemma NextTable(tables: seq<seq<Row>>, n: nat, mine: set<nat>, before: Ports, after: Ports)
    requires n < |tables| && PortsOf(tables[..n], mine, before.listening, before.peered)
    requires PortsWithin(before, tables[n], |tables[n]|, mine, after.listening, after.peered)
    ensures PortsOf(tables[..n + 1], mine, after.listening, after.peered)
  {
    assert tables[n][..|tables[n]|] == tables[n];
    forall r: Row ensures InTables(r, tables[..n + 1]) <==> InTables(r, tables[..n]) || r in tables[n] {
      RowsOfNext(tables, n, r);
    }
    forall p ensures p in after.listening <==> exists r: Row :: InTables(r, tables[..n + 1]) && Listens(r, mine) && r.localPort == p {
      if r: Row :| r in tables[n] && Listens(r, mine) && r.localPort == p {
        assert InTables(r, tables[..n + 1]);
      }
    }
    forall p ensures p in after.peered <==> exists r: Row :: InTables(r, tables[..n + 1]) && HasPeer(r, mine) && r.localPort == p {
      if r: Row :| r in tables[n] && HasPeer(r, mine) && r.localPort == p {
        assert InTables(r, tables[..n + 1]);
      }
    }
  }

  lemma RowsOfNext(tables: seq<seq<Row>>, n: nat, r: Row)
    requires n < |tables|
    ensures InTables(r, tables[..n + 1]) <==> InTables(r, tables[..n]) || r in tables[n]
  {
    assert tables[..n + 1] == tables[..n] + [tables[n]];
    assert tables[n] in tables[..n + 1];
  }

  /** `cdp_ports`: only sockets the process itself holds count, and nothing counts when they
      could not be read. */
  method CdpPorts(sockets: Option<set<nat>>, tables: seq<seq<Row>>) returns (r: Ports)
    ensures r.readable <==> sockets.Some?
    ensures PortsOf(tables, if sockets.Some? then sockets.value else {}, r.listening, r.peered)
  {
    if sockets.None? || sockets.value == {} {
      return Ports({}, {}, sockets.Some?);
    }
    r := Ports({}, {}, true);
    for i := 0 to |tables|
      invariant r.readable && PortsOf(tables[..i], sockets.value, r.listening, r.peered)
    {
      var before := r;
      r := TablePorts(before, tables[i], sockets.value);
      NextTable(tables, i, sockets.value, before, r);
    }
    assert tables[..|tables|] == tables;
  }

  // ── Abandoned ─────────────────────────────────────────────────────────────

  datatype Browser = Browser(pid: nat, profile: Option<string>, inService: bool, spawnerAlive: bool, ports: Ports)

  predicate HasAttachedClient(b: Browser) {
    exists p | p in b.ports.listening :: p in b.ports.peered
  }

  predicate IsThrowaway(profile: Option<string>, throwaway: string -> bool) {
    profile.Some? && profile.value != "" && throwaway(profile.value)
  }

  predicate IsOrphan(b: Browser, throwaway: string -> bool) {
    && IsThrowaway(b.profile, throwaway) && !b.inService && !b.spawnerAlive
    && b.ports.readable && b.ports.listening != {} && !HasAttachedClient(b)
  }

  lemma NonEmpty(ports: set<nat>)
    ensures ports != {} <==> exists p :: p in ports
  {
    if |ports| > 0 {
      var p :| p in ports;
    } else {
      assert ports == {};
    }
  }

  lemma ListensIff(ports: Ports, tables: seq<seq<Row>>, mine: set<nat>)
    requires PortsOf(tables, mine, ports.listening, ports.peered)
    ensures ports.listening != {} <==> exists r: Row :: InTables(r, tables) && Listens(r, mine)
  {
    if r: Row :| InTables(r, tables) && Listens(r, mine) {
      assert r.localPort in ports.listening;
    }
    NonEmpty(ports.listening);
  }

  /** One of its sockets listens on the port on which another has a peer. */
  ghost predicate Attached(tables: seq<seq<Row>>, mine: set<nat>) {
    exists r: Row, q: Row ::
      InTables(r, tables) && Listens(r, mine) && InTables(q, tables) && HasPeer(q, mine) && r.localPort == q.localPort
  }

  lemma AttachedIff(b: Browser, tables: seq<seq<Row>>, mine: set<nat>)
    requires PortsOf(tables, mine, b.ports.listening, b.ports.peered)
    ensures HasAttachedClient(b) <==> Attached(tables, mine)
  {
    if p :| p in b.ports.listening && p in b.ports.peered {
      var r: Row :| InTables(r, tables) && Listens(r, mine) && r.localPort == p;
      var q: Row :| InTables(q, tables) && HasPeer(q, mine) && q.localPort == p;
      assert r.localPort == q.localPort;
    }
    if r: Row, q: Row :| InTables(r, tables) && Listens(r, mine) && InTables(q, tables) && HasPeer(q, mine) && r.localPort == q.localPort {
      assert r.localPort in b.ports.listening && r.localPort in b.ports.peered;
    }
  }

  /** A browser judged by the ports that were read is only ever an orphan on proof: its own
      sockets were readable, one of them listens, and none has a peer on a port another of
      them listens on. Rows of other processes have no say. */
  lemma OrphanNeedsProof(b: Browser, sockets: Option<set<nat>>, tables: seq<seq<Row>>, throwaway: string -> bool)
    requires b.ports.readable <==> sockets.Some?
    requires PortsOf(tables, if sockets.Some? then sockets.value else {}, b.ports.listening, b.ports.peered)
    ensures IsOrphan(b, throwaway) <==>
            && b.profile.Some? && |b.profile.value| > 0 && throwaway(b.profile.value) && !b.inService && !b.spawnerAlive && sockets.Some?
            && (exists r: Row :: InTables(r, tables) && OwnRow(r, sockets.value, "0A"))
            && !exists r: Row, q: Row :: InTables(r, tables) && OwnRow(r, sockets.value, "0A") && InTables(q, tables) && OwnRow(q, sockets.value, "01")
                                       && q.peerPort > 0 && q.localPort == r.localPort
  {
    var mine := if sockets.Some? then sockets.value else {};
    ListensIff(b.ports, tables, mine);
    AttachedIff(b, tables, mine);
    if sockets.Some? {
      OwnRows(tables, mine);
    }
  }

  /** A row of one of these sockets, in this state. */
  predicate OwnRow(r: Row, mine: set<nat>, state: string) {
    r.inode in mine && r.state == state
  }

  lemma OwnRows(tables: seq<seq<Row>>, mine: set<nat>)
    ensures (exists r: Row :: InTables(r, tables) && OwnRow(r, mine, "0A")) <==> exists r: Row :: InTables(r, tables) && Listens(r, mine)
    ensures (exists r: Row, q: Row :: InTables(r, tables) && OwnRow(r, mine, "0A") && InTables(q, tables) && OwnRow(q, mine, "01")
                                    && q.peerPort > 0 && q.localPort == r.localPort) <==> Attached(tables, mine)
  {
    if r: Row, q: Row :| InTables(r, tables) && OwnRow(r, mine, "0A") && InTables(q, tables) && OwnRow(q, mine, "01") && q.peerPort > 0 && q.localPort == r.localPort {
      assert Listens(r, mine) && HasPeer(q, mine);
    }
    if r: Row, q: Row :| InTables(r, tables) && Listens(r, mine) && InTables(q, tables) && HasPeer(q, mine) && r.localPort == q.localPort {
      assert OwnRow(r, mine, "0A") && OwnRow(q, mine, "01");
    }
  }

  // ── Profiles ──────────────────────────────────────────────────────────────

  predicate StrictlyUnder(path: string, root: string) {
    path != root && root + "/" <= path
  }

  predicate Purgeable(profile: Option<string>, roots: seq<string>, inUse: seq<Option<string>>, norm: string -> string, throwaway: string -> bool) {
    && IsThrowaway(profile, throwaway)
    && (forall p | p in inUse && p.Some? && p.value != "" :: norm(p.value) != norm(profile.value))
    && exists r | r in roots :: StrictlyUnder(norm(profile.value), norm(r))
  }

  /** No browser that was not hit uses this directory. */
  ghost predicate NoSurvivor(browsers: seq<Browser>, hit: set<nat>, d: string, norm: string -> string) {
    forall b | b in browsers && b.profile.Some? && b.profile.value != "" && norm(b.profile.value) == norm(d) :: b.pid in hit
  }

  function Survivors(browsers: seq<Browser>, hit: set<nat>): (r: seq<Option<string>>)
    ensures forall p :: p in r <==> exists b | b in browsers :: b.pid !in hit && b.profile == p
  {
    if browsers == [] then []
    else
      var rest := Survivors(browsers[1..], hit);
      assert browsers == [browsers[0]] + browsers[1..];
      if browsers[0].pid in hit then rest else [browsers[0].profile] + rest
  }

  lemma PurgeableMeans(browsers: seq<Browser>, hit: set<nat>, profile: Option<string>, roots: seq<string>, norm: string -> string, throwaway: string -> bool)
    ensures Purgeable(profile, roots, Survivors(browsers, hit), norm, throwaway) <==>
            && IsThrowaway(profile, throwaway) && NoSurvivor(browsers, hit, profile.value, norm)
            && exists r | r in roots :: StrictlyUnder(norm(profile.value), norm(r))
  {
    var inUse := Survivors(browsers, hit);
    if profile.Some? {
      if NoSurvivor(browsers, hit, profile.value, norm) {
        forall p | p in inUse && p.Some? && p.value != "" ensures norm(p.value) != norm(profile.value) {
          var b :| b in browsers && b.pid !in hit && b.profile == p;
        }
      } else {
        var b :| b in browsers && b.profile.Some? && b.profile.value != "" && norm(b.profile.value) == norm(profile.value) && b.pid !in hit;
        assert b.profile in inUse;
      }
    }
  }

  /** The path is the root, a slash, and more. */
  predicate Within(path: string, root: string) {
    |path| > |root| && path[..|root|] == root && path[|root|] == '/'
  }

  lemma WithinMeans(path: string, root: string)
    ensures Within(path, root) <==> StrictlyUnder(path, root)
  {
    if StrictlyUnder(path, root) {
      assert path[..|root| + 1] == root + "/";
      assert path[|root|] == (root + "/")[|root|];
      assert path[..|root|] == path[..|root| + 1][..|root|];
    }
    if Within(path, root) {
      assert path[..|root| + 1] == root + "/";
      assert root + "/" <= path;
    }
  }

  /** What `main` purges after a kill: of the browsers that were hit, every directory that is
      throwaway, strictly below a root and used by no other browser; and nothing else. */
  method ProfilesToPurge(browsers: seq<Browser>, hit: seq<Browser>, roots: seq<string>, norm: string -> string, throwaway: string -> bool)
    returns (doomed: seq<string>)
    ensures forall d :: d in doomed <==>
              && (exists b | b in hit :: b.profile == Some(d)) && |d| > 0 && throwaway(d)
              && (exists r | r in roots :: Within(norm(d), norm(r)))
              && NoSurvivor(browsers, set b | b in hit :: b.pid, d, norm)
  {
    forall d, r ensures Within(norm(d), norm(r)) <==> StrictlyUnder(norm(d), norm(r)) {
      WithinMeans(norm(d), norm(r));
    }
    var pids := set b | b in hit :: b.pid;
    var survivors := Survivors(browsers, pids);
    doomed := [];
    for i := 0 to |hit|
      invariant forall d :: d in doomed <==> (exists b | b in hit[..i] :: b.profile == Some(d)) && Purgeable(Some(d), roots, survivors, norm, throwaway)
    {
      assert hit[..i + 1] == hit[..i] + [hit[i]];
      if Purgeable(hit[i].profile, roots, survivors, norm, throwaway) {
        doomed := doomed + [hit[i].profile.value];
      }
    }
    assert hit[..|hit|] == hit;
    forall d ensures Purgeable(Some(d), roots, survivors, norm, throwaway) <==>
        && IsThrowaway(Some(d), throwaway) && NoSurvivor(browsers, pids, d, norm)
        && exists r | r in roots :: StrictlyUnder(norm(d), norm(r))
    {
      PurgeableMeans(browsers, pids, Some(d), roots, norm, throwaway);
    }
  }
}
