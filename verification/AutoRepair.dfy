/** The comparison of two nodes' logs of a day, and what it schedules. */
module AutoRepair {
  import opened Types
  import opened Index
  import opened Text
  import opened Totals
  import opened Protocol
  import opened Cluster
  import opened Obligation
  import opened Draining
  import opened Convergence
  import opened Agreement
  import opened Origins
  import Stat

  // ---- What is queued ------------------------------------------------------

  /** The indexed records of the checksums, in order, without those dropped. */
  function Records(ldb: map<Sum, FileInfo>, md5s: seq<Sum>, drop: set<Sum>): seq<FileInfo> {
    if md5s == [] then [] else
    var md5 := md5s[|md5s| - 1];
    Records(ldb, md5s[..|md5s| - 1], drop) + (if md5 !in drop && md5 in ldb then [ldb[md5]] else [])
  }

  function Elems<T>(s: seq<T>): set<T> { set x | x in s }

  function Indexed(ldb: map<Sum, FileInfo>, md5s: set<Sum>): set<FileInfo> {
    set m | m in md5s && m in ldb :: ldb[m]
  }

  /** Nothing but the queue of files to offer changes, and what is new there are the records
      of just these contents. */
  predicate Adds(s: Node, t: Node, md5s: set<Sum>) {
    && t == s.(toPeers := t.toPeers)
    && s.toPeers <= t.toPeers
    && Elems(t.toPeers[|s.toPeers|..]) == Indexed(s.index.ldb, md5s)
  }

  /** Each element once, in an order of the set's choosing. */
  predicate Enumerates(order: seq<Sum>, s: set<Sum>) { Distinct(order) && Elems(order) == s }

  lemma {:induction false} RecordsOf(ldb: map<Sum, FileInfo>, md5s: seq<Sum>, drop: set<Sum>)
    ensures Elems(Records(ldb, md5s, drop)) == Indexed(ldb, Elems(md5s) - drop)
  {
    if md5s != [] {
      var init, md5 := md5s[..|md5s| - 1], md5s[|md5s| - 1];
      RecordsOf(ldb, init, drop);
      var last := if md5 !in drop && md5 in ldb then [ldb[md5]] else [];
      ElemsBoth(init, [md5]);
      assert md5s == init + [md5];
      ElemsBoth(Records(ldb, init, drop), last);
      assert Elems(last) == Indexed(ldb, {md5} - drop);
      IndexedBoth(ldb, Elems(init) - drop, {md5} - drop);
      assert Elems(md5s) - drop == (Elems(init) - drop) + ({md5} - drop);
    }
  }

  lemma ElemsBoth<T>(a: seq<T>, b: seq<T>)
    ensures Elems(a + b) == Elems(a) + Elems(b)
  {
  }

  lemma IndexedBoth(ldb: map<Sum, FileInfo>, a: set<Sum>, b: set<Sum>)
    ensures Indexed(ldb, a + b) == Indexed(ldb, a) + Indexed(ldb, b)
  {
  }

  lemma AddsRecords(s: Node, t: Node, order: seq<Sum>, drop: set<Sum>)
    requires t == s.(toPeers := s.toPeers + Records(s.index.ldb, order, drop))
    ensures Adds(s, t, Elems(order) - drop)
  {
    RecordsOf(s.index.ldb, order, drop);
    assert t.toPeers[|s.toPeers|..] == Records(s.index.ldb, order, drop);
  }

  lemma AddsNothing(s: Node)
    ensures Adds(s, s, {})
  {
  }

  lemma AddsBoth(s: Node, t: Node, u: Node, a: set<Sum>, b: set<Sum>)
    requires Adds(s, t, a) && Adds(t, u, b)
    ensures Adds(s, u, a + b)
  {
    assert u.toPeers[|s.toPeers|..] == t.toPeers[|s.toPeers|..] + u.toPeers[|t.toPeers|..];
    ElemsBoth(t.toPeers[|s.toPeers|..], u.toPeers[|t.toPeers|..]);
    IndexedBoth(s.index.ldb, a, b);
  }

  // ---- How often -----------------------------------------------------------

  /** The records of these contents, once for each content that is indexed. */
  ghost function Due(ldb: map<Sum, FileInfo>, md5s: set<Sum>): multiset<FileInfo> {
    if md5s == {} then multiset{} else
    var m :| m in md5s;
    Due(ldb, md5s - {m}) + (if m in ldb then multiset{ldb[m]} else multiset{})
  }

  lemma {:induction false} DueWithout(ldb: map<Sum, FileInfo>, md5s: set<Sum>, m: Sum)
    requires m in md5s
    ensures Due(ldb, md5s) == Due(ldb, md5s - {m}) + (if m in ldb then multiset{ldb[m]} else multiset{})
  {
    var x :| x in md5s
             && Due(ldb, md5s) == Due(ldb, md5s - {x}) + (if x in ldb then multiset{ldb[x]} else multiset{});
    if x != m {
      DueWithout(ldb, md5s - {x}, m);
      DueWithout(ldb, md5s - {m}, x);
      assert md5s - {x} - {m} == md5s - {m} - {x};
    }
  }

  /** So a record is there as often as it is that of one of these contents: once, as a rule. */
  lemma {:induction false} DueCounts(ldb: map<Sum, FileInfo>, md5s: set<Sum>, e: FileInfo)
    ensures Due(ldb, md5s)[e] == |set m | m in md5s && m in ldb && ldb[m] == e|
  {
    var these := set m | m in md5s && m in ldb && ldb[m] == e;
    if md5s != {} {
      var m :| m in md5s;
      DueWithout(ldb, md5s, m);
      DueCounts(ldb, md5s - {m}, e);
      var rest := set x | x in md5s - {m} && x in ldb && ldb[x] == e;
      assert these == if m in ldb && ldb[m] == e then rest + {m} else rest;
    } else {
      assert these == {};
    }
  }

  /** What is new in the queue is this, in some order. */
  ghost predicate Tallies(s: Node, t: Node, due: multiset<FileInfo>) {
    s.toPeers <= t.toPeers && multiset(t.toPeers[|s.toPeers|..]) == due
  }

  lemma {:induction false} RecordsOnce(ldb: map<Sum, FileInfo>, md5s: seq<Sum>, drop: set<Sum>)
    requires Distinct(md5s)
    ensures multiset(Records(ldb, md5s, drop)) == Due(ldb, Elems(md5s) - drop)
  {
    if md5s != [] {
      var init, md5 := md5s[..|md5s| - 1], md5s[|md5s| - 1];
      RecordsOnce(ldb, init, drop);
      ElemsBoth(init, [md5]);
      assert md5s == init + [md5];
      var all := Elems(md5s) - drop;
      if md5 in drop {
        assert all == Elems(init) - drop;
      } else {
        assert md5 !in Elems(init) && all - {md5} == Elems(init) - drop;
        DueWithout(ldb, all, md5);
      }
    }
  }

  lemma TalliesRecords(s: Node, t: Node, order: seq<Sum>, drop: set<Sum>)
    requires Distinct(order) && t.toPeers == s.toPeers + Records(s.index.ldb, order, drop)
    ensures Tallies(s, t, Due(s.index.ldb, Elems(order) - drop))
  {
    RecordsOnce(s.index.ldb, order, drop);
    assert t.toPeers[|s.toPeers|..] == Records(s.index.ldb, order, drop);
  }

  lemma TalliesNothing(s: Node)
    ensures Tallies(s, s, multiset{})
  {
  }

  lemma TalliesBoth(s: Node, t: Node, u: Node, a: multiset<FileInfo>, b: multiset<FileInfo>)
    requires Tallies(s, t, a) && Tallies(t, u, b)
    ensures Tallies(s, u, a + b)
  {
    assert u.toPeers[|s.toPeers|..] == t.toPeers[|s.toPeers|..] + u.toPeers[|t.toPeers|..];
  }

  /** The places of the list that hold a checksum, not empty, with this record. */
  function Places(ldb: map<Sum, FileInfo>, md5s: seq<Sum>, e: FileInfo): set<int> {
    set i | 0 <= i < |md5s| && md5s[i] != Unset && md5s[i] in ldb && ldb[md5s[i]] == e
  }

  lemma PlacesNext(ldb: map<Sum, FileInfo>, md5s: seq<Sum>, e: FileInfo)
    requires md5s != []
    ensures var n, before := |md5s| - 1, Places(ldb, md5s[..|md5s| - 1], e);
      n !in before
      && Places(ldb, md5s, e) ==
           if md5s[n] != Unset && md5s[n] in ldb && ldb[md5s[n]] == e then before + {n} else before
  {
  }

  /** A list of checksums as it comes, with any repeats: one entry for each such place. */
  lemma {:induction false} RecordsPlaced(ldb: map<Sum, FileInfo>, md5s: seq<Sum>, e: FileInfo)
    ensures multiset(Records(ldb, md5s, {Unset}))[e] == |Places(ldb, md5s, e)|
  {
    hide Places;
    if md5s == [] {
      assert Places(ldb, md5s, e) == {} by { NoPlaces(ldb, e); }
    } else {
      RecordsPlaced(ldb, md5s[..|md5s| - 1], e);
      PlacesNext(ldb, md5s, e);
    }
  }

  lemma NoPlaces(ldb: map<Sum, FileInfo>, e: FileInfo)
    ensures Places(ldb, [], e) == {}
  {
  }

  lemma NoRecords(ldb: map<Sum, FileInfo>)
    ensures Records(ldb, [], {}) == []
  {
  }

  lemma RecordsNext(ldb: map<Sum, FileInfo>, md5s: seq<Sum>, drop: set<Sum>, i: nat)
    requires i < |md5s|
    ensures Records(ldb, md5s[..i + 1], drop) ==
        Records(ldb, md5s[..i], drop) + (if md5s[i] !in drop && md5s[i] in ldb then [ldb[md5s[i]]] else [])
  {
    assert md5s[..i + 1][..i] == md5s[..i];
  }

  method ToSlice(s: set<Sum>) returns (order: seq<Sum>)
    ensures Enumerates(order, s)
  {
    order := [];
    var todo := s;
    while todo != {}
      invariant todo <= s && Distinct(order) && Elems(order) == s - todo
    {
      var m :| m in todo;
      assert m !in Elems(order);
      assert Elems(order + [m]) == Elems(order) + {m};
      order := order + [m];
      todo := todo - {m};
    }
  }

  // ---- One pair of nodes ---------------------------------------------------

  /** The peer's answer: an empty list of checksums reads as a list of one empty checksum. */
  function Answered(md5s: set<Sum>): set<Sum> { if md5s == {} then {Unset} else md5s }

  method ReceiveMd5s(s: Server, md5s: seq<Sum>)
    modifies s`toPeers
    ensures s.Value() == old(s.Value()).(toPeers := old(s.toPeers) + Records(s.index.ldb, md5s, {Unset}))
    ensures forall e :: multiset(s.toPeers[|old(s.toPeers)|..])[e] == |Places(s.index.ldb, md5s, e)|
  {
    ghost var before := s.toPeers;
    var i := 0;
    while i < |md5s|
      invariant 0 <= i <= |md5s|
      invariant s.Value() == old(s.Value()).(toPeers := old(s.toPeers) + Records(s.index.ldb, md5s[..i], {Unset}))
    {
      assert md5s[..i + 1][..i] == md5s[..i];
      if md5s[i] != Unset && md5s[i] in s.index.ldb {
        s.toPeers := s.toPeers + [s.index.ldb[md5s[i]]];
      }
      i := i + 1;
    }
    assert md5s[..|md5s|] == md5s;
    assert s.toPeers[|before|..] == Records(s.index.ldb, md5s, {Unset});
    forall e ensures multiset(s.toPeers[|before|..])[e] == |Places(s.index.ldb, md5s, e)| {
      RecordsPlaced(s.index.ldb, md5s, e);
    }
  }

  /** What the peer is to offer, and what the repairing node is. */
  function Pull(self: Node, peer: Node, day: nat): set<Sum> {
    Logged(peer.index.logDB, day) - Logged(self.index.logDB, day) - {Unset}
  }

  function Push(self: Node, peer: Node, day: nat): set<Sum> {
    Logged(self.index.logDB, day) - Answered(Logged(peer.index.logDB, day))
  }

  /** A day on which two nodes are found to differ. The work scheduled is exactly the
      symmetric difference of their logs, each content once, each part at the node that has
      it. */
  method RepairDay(self: Server, peer: Server, day: nat) returns (pull: seq<Sum>, push: seq<Sum>)
    requires self != peer
    modifies self`toPeers, peer`toPeers
    ensures Enumerates(push, Push(old(self.Value()), old(peer.Value()), day))
    ensures Distinct(pull) && Elems(pull) - {Unset} == Pull(old(self.Value()), old(peer.Value()), day)
    ensures peer.Value() == old(peer.Value()).(toPeers := old(peer.toPeers) + Records(peer.index.ldb, pull, {Unset}))
    ensures self.Value() == old(self.Value()).(toPeers := old(self.toPeers) + Records(self.index.ldb, push, {}))
    ensures var s, p := old(self.Value()), old(peer.Value());
      && Tallies(p, peer.Value(), Due(p.index.ldb, Pull(s, p, day)))
      && Tallies(s, self.Value(), Due(s.index.ldb, Push(s, p, day)))
  {
    hide Records, Logged, Elems, Due;
    ghost var s, p := self.Value(), peer.Value();
    var remoteSet := Answered(Logged(peer.index.logDB, day));
    var localSet := Logged(self.index.logDB, day);
    var allSet := localSet + remoteSet;
    pull := ToSlice(allSet - localSet);
    ReceiveMd5s(peer, pull);
    push := ToSlice(allSet - remoteSet);
    var i := 0;
    NoRecords(self.index.ldb);
    while i < |push|
      invariant 0 <= i <= |push|
      invariant self.Value() ==
          old(self.Value()).(toPeers := old(self.toPeers) + Records(self.index.ldb, push[..i], {}))
      invariant peer.Value() ==
          old(peer.Value()).(toPeers := old(peer.toPeers) + Records(peer.index.ldb, pull, {Unset}))
    {
      RecordsNext(self.index.ldb, push, {}, i);
      if push[i] in self.index.ldb {
        self.toPeers := self.toPeers + [self.index.ldb[push[i]]];
      }
      i := i + 1;
    }
    assert push[..|push|] == push;
    TalliesRecords(s, self.Value(), push, {});
    TalliesRecords(p, peer.Value(), pull, {Unset});
    assert Elems(push) - {} == Push(s, p, day);
  }

  // ---- All peers -----------------------------------------------------------

  /** The day of the row is compared: it is known here, and the counts differ or the repair
      is forced. */
  predicate Compares(self: Node, row: Stat.Row, force: bool) {
    row.date.Day? && row.date.day in self.index.counts && (self.index.counts[row.date.day] != row.fileCount || force)
  }

  function PullAll(self: Node, peer: Node, rows: seq<Stat.Row>, force: bool): set<Sum> {
    if rows == [] then {} else
    var row := rows[|rows| - 1];
    PullAll(self, peer, rows[..|rows| - 1], force)
      + (if Compares(self, row, force) then Pull(self, peer, row.date.day) else {})
  }

  function PushAll(self: Node, peer: Node, rows: seq<Stat.Row>, force: bool): set<Sum> {
    if rows == [] then {} else
    var row := rows[|rows| - 1];
    PushAll(self, peer, rows[..|rows| - 1], force)
      + (if Compares(self, row, force) then Push(self, peer, row.date.day) else {})
  }

  /** The records that the peer is to queue, and those that the repairing node is. */
  ghost function PullDue(self: Node, peer: Node, rows: seq<Stat.Row>, force: bool): multiset<FileInfo> {
    if rows == [] then multiset{} else
    var row := rows[|rows| - 1];
    PullDue(self, peer, rows[..|rows| - 1], force)
      + (if Compares(self, row, force) then Due(peer.index.ldb, Pull(self, peer, row.date.day)) else multiset{})
  }

  ghost function PushDue(self: Node, peer: Node, rows: seq<Stat.Row>, force: bool): multiset<FileInfo> {
    if rows == [] then multiset{} else
    var row := rows[|rows| - 1];
    PushDue(self, peer, rows[..|rows| - 1], force)
      + (if Compares(self, row, force) then Due(self.index.ldb, Push(self, peer, row.date.day)) else multiset{})
  }

  /** What the peers' answers to "stat" make the node offer to any of them. */
  function PushEvery(self: Node, peers: seq<Node>, stats: seq<Option<seq<Stat.Row>>>, force: bool): set<Sum>
    requires |peers| == |stats|
  {
    if peers == [] then {} else
    var n := |peers| - 1;
    PushEvery(self, peers[..n], stats[..n], force)
      + (if stats[n].Some? then PushAll(self, peers[n], stats[n].value, force) else {})
  }

  ghost function PushEveryDue(self: Node, peers: seq<Node>, stats: seq<Option<seq<Stat.Row>>>, force: bool)
    : multiset<FileInfo>
    requires |peers| == |stats|
  {
    if peers == [] then multiset{} else
    var n := |peers| - 1;
    PushEveryDue(self, peers[..n], stats[..n], force)
      + (if stats[n].Some? then PushDue(self, peers[n], stats[n].value, force) else multiset{})
  }

  lemma AllStep(self: Node, peer: Node, rows: seq<Stat.Row>, force: bool, i: nat)
    requires i < |rows|
    ensures
      var pulls, pushes := PullAll(self, peer, rows[..i + 1], force), PushAll(self, peer, rows[..i + 1], force);
      if Compares(self, rows[i], force)
      then pulls == PullAll(self, peer, rows[..i], force) + Pull(self, peer, rows[i].date.day)
           && pushes == PushAll(self, peer, rows[..i], force) + Push(self, peer, rows[i].date.day)
      else pulls == PullAll(self, peer, rows[..i], force) && pushes == PushAll(self, peer, rows[..i], force)
    ensures
      var pulls, pushes := PullDue(self, peer, rows[..i + 1], force), PushDue(self, peer, rows[..i + 1], force);
      if Compares(self, rows[i], force)
      then pulls == PullDue(self, peer, rows[..i], force) + Due(peer.index.ldb, Pull(self, peer, rows[i].date.day))
           && pushes == PushDue(self, peer, rows[..i], force) + Due(self.index.ldb, Push(self, peer, rows[i].date.day))
      else pulls == PullDue(self, peer, rows[..i], force) && pushes == PushDue(self, peer, rows[..i], force)
  {
    hide Pull, Push, Due;
    assert rows[..i + 1][..i] == rows[..i];
  }

  /** The peer lists a day that is not known here. */
  predicate Asks(counts: map<nat, int>, rows: seq<Stat.Row>, day: nat) {
    day !in counts && exists k :: 0 <= k < |rows| && rows[k].date == Stat.Day(day)
  }

  /** Nothing but the queue changes, and what is new there are the records of these contents, as
      often as is due. */
  ghost predicate Queued(s: Node, t: Node, md5s: set<Sum>, due: multiset<FileInfo>) {
    Adds(s, t, md5s) && Tallies(s, t, due)
  }

  lemma QueuedBoth(s: Node, t: Node, u: Node, a: set<Sum>, b: set<Sum>, x: multiset<FileInfo>, y: multiset<FileInfo>)
    requires Queued(s, t, a, x) && Queued(t, u, b, y)
    ensures Queued(s, u, a + b, x + y)
  {
    hide Adds, Tallies;
    AddsBoth(s, t, u, a, b);
    TalliesBoth(s, t, u, x, y);
  }

  lemma QueuedNothing(s: Node)
    ensures Queued(s, s, {}, multiset{})
  {
    hide Adds, Tallies;
    AddsNothing(s);
    TalliesNothing(s);
  }

  lemma QueuedRecords(s: Node, t: Node, order: seq<Sum>, drop: set<Sum>)
    requires Distinct(order) && t == s.(toPeers := s.toPeers + Records(s.index.ldb, order, drop))
    ensures Queued(s, t, Elems(order) - drop, Due(s.index.ldb, Elems(order) - drop))
  {
    hide Adds, Tallies, Records, Elems, Due;
    AddsRecords(s, t, order, drop);
    TalliesRecords(s, t, order, drop);
  }

  lemma NoRows(s: Node, p: Node, force: bool)
    ensures Queued(p, p, PullAll(s, p, [], force), PullDue(s, p, [], force))
    ensures Queued(s, s, PushAll(s, p, [], force), PushDue(s, p, [], force))
    ensures forall d :: !Asks(s.index.counts, [], d)
  {
    QueuedNothing(s);
    QueuedNothing(p);
  }

  lemma AsksStep(counts: map<nat, int>, rows: seq<Stat.Row>, i: nat)
    requires i < |rows|
    ensures forall d :: Asks(counts, rows[..i + 1], d) <==>
              Asks(counts, rows[..i], d) || (d !in counts && rows[i].date == Stat.Day(d))
  {
    var more := rows[..i + 1];
    assert more[i] == rows[i] && forall k :: 0 <= k < i ==> more[k] == rows[..i][k];
  }

  /** One peer's rows. A day that is not known here is asked for from the peer as a whole. */
  method RepairPeer(self: Server, peer: Server, rows: seq<Stat.Row>, force: bool) returns (unknown: seq<nat>)
    requires self != peer
    modifies self`toPeers, peer`toPeers
    ensures var s, p := old(self.Value()), old(peer.Value());
      && Queued(p, peer.Value(), PullAll(s, p, rows, force), PullDue(s, p, rows, force))
      && Queued(s, self.Value(), PushAll(s, p, rows, force), PushDue(s, p, rows, force))
    ensures forall d :: d in unknown <==> Asks(self.index.counts, rows, d)
  {
    hide Records, Logged, Elems, Indexed, Queued, Due, Tallies, Distinct, Asks, PullAll, PushAll, PullDue, PushDue;
    hide Pull, Push, Enumerates;
    ghost var s, p := self.Value(), peer.Value();
    unknown := [];
    NoRows(s, p, force);
    var i := 0;
    while i < |rows|
      invariant 0 <= i <= |rows|
      invariant self.index == s.index && peer.index == p.index
      invariant Queued(p, peer.Value(), PullAll(s, p, rows[..i], force), PullDue(s, p, rows[..i], force))
      invariant Queued(s, self.Value(), PushAll(s, p, rows[..i], force), PushDue(s, p, rows[..i], force))
      invariant forall d :: d in unknown <==> Asks(s.index.counts, rows[..i], d)
    {
      var row := rows[i];
      AllStep(s, p, rows, force, i);
      AsksStep(s.index.counts, rows, i);
      ghost var s0, p0 := self.Value(), peer.Value();
      if row.date.Day? {
        if row.date.day in self.index.counts {
          if self.index.counts[row.date.day] != row.fileCount || force {
            var pull, push := RepairDay(self, peer, row.date.day);
            DayQueued(s, p, s0, p0, self.Value(), peer.Value(), rows, force, i, pull, push);
          }
        } else {
          unknown := unknown + [row.date.day];
        }
      }
      i := i + 1;
    }
    assert rows[..|rows|] == rows;
  }

  lemma DayQueued(s: Node, p: Node, s0: Node, p0: Node, s1: Node, p1: Node, rows: seq<Stat.Row>, force: bool, i: nat,
                  pull: seq<Sum>, push: seq<Sum>)
    requires i < |rows| && Compares(s, rows[i], force) && s0.index == s.index && p0.index == p.index
    requires Queued(p, p0, PullAll(s, p, rows[..i], force), PullDue(s, p, rows[..i], force))
    requires Queued(s, s0, PushAll(s, p, rows[..i], force), PushDue(s, p, rows[..i], force))
    requires Enumerates(push, Push(s0, p0, rows[i].date.day))
    requires Distinct(pull) && Elems(pull) - {Unset} == Pull(s0, p0, rows[i].date.day)
    requires p1 == p0.(toPeers := p0.toPeers + Records(p0.index.ldb, pull, {Unset}))
    requires s1 == s0.(toPeers := s0.toPeers + Records(s0.index.ldb, push, {}))
    ensures Queued(p, p1, PullAll(s, p, rows[..i + 1], force), PullDue(s, p, rows[..i + 1], force))
    ensures Queued(s, s1, PushAll(s, p, rows[..i + 1], force), PushDue(s, p, rows[..i + 1], force))
  {
    hide Records, Logged, Elems, Queued, Due, Tallies, Distinct, PullAll, PushAll, PullDue, PushDue;
    var day := rows[i].date.day;
    AllStep(s, p, rows, force, i);
    QueuedRecords(s0, s1, push, {});
    QueuedRecords(p0, p1, pull, {Unset});
    assert Elems(push) - {} == Push(s, p, day);
    QueuedBoth(s, s0, s1, PushAll(s, p, rows[..i], force), Push(s, p, day), PushDue(s, p, rows[..i], force),
               Due(s.index.ldb, Push(s, p, day)));
    QueuedBoth(p, p0, p1, PullAll(s, p, rows[..i], force), Pull(s, p, day), PullDue(s, p, rows[..i], force),
               Due(p.index.ldb, Pull(s, p, day)));
  }

  function Values(servers: seq<Server>): (nodes: seq<Node>)
    reads servers
    ensures |nodes| == |servers| && forall i :: 0 <= i < |servers| ==> nodes[i] == servers[i].Value()
  {
    if servers == [] then [] else Values(servers[..|servers| - 1]) + [servers[|servers| - 1].Value()]
  }

  /** What one peer is left with. */
  ghost predicate Repaired(self: Node, before: Node, after: Node, stat: Option<seq<Stat.Row>>, force: bool) {
    if stat.Some?
    then Queued(before, after, PullAll(self, before, stat.value, force), PullDue(self, before, stat.value, force))
    else after == before
  }

  lemma EveryStep(self: Node, peers: seq<Node>, stats: seq<Option<seq<Stat.Row>>>, force: bool, i: nat)
    requires i < |peers| == |stats|
    ensures
      var pushes := PushEvery(self, peers[..i], stats[..i], force);
      PushEvery(self, peers[..i + 1], stats[..i + 1], force)
        == if stats[i].Some? then pushes + PushAll(self, peers[i], stats[i].value, force) else pushes
    ensures
      var pushes := PushEveryDue(self, peers[..i], stats[..i], force);
      PushEveryDue(self, peers[..i + 1], stats[..i + 1], force)
        == if stats[i].Some? then pushes + PushDue(self, peers[i], stats[i].value, force) else pushes
  {
    assert peers[..i + 1][..i] == peers[..i] && stats[..i + 1][..i] == stats[..i];
  }

  lemma {:induction false} SameCounts(self: Node, now: Node, peer: Node, rows: seq<Stat.Row>, force: bool)
    requires now.index == self.index
    ensures PullAll(now, peer, rows, force) == PullAll(self, peer, rows, force)
    ensures PushAll(now, peer, rows, force) == PushAll(self, peer, rows, force)
    ensures PullDue(now, peer, rows, force) == PullDue(self, peer, rows, force)
    ensures PushDue(now, peer, rows, force) == PushDue(self, peer, rows, force)
  {
    hide Due, Logged;
    if rows != [] { SameCounts(self, now, peer, rows[..|rows| - 1], force); }
  }

  /** AutoRepair against the peers; stats are their answers, which may fail to come. The
      days returned per peer are those it is asked to send in full. */
  method AutoRepair(self: Server, peers: seq<Server>, stats: seq<Option<seq<Stat.Row>>>, force: bool)
    returns (unknown: seq<seq<nat>>)
    requires self !in peers && Distinct(peers) && |stats| == |peers|
    modifies self, peers
    ensures var s, ps := old(self.Value()), old(Values(peers));
      Queued(s, self.Value(), PushEvery(s, ps, stats, force), PushEveryDue(s, ps, stats, force))
    ensures forall i :: 0 <= i < |peers| ==>
        Repaired(old(self.Value()), old(peers[i].Value()), peers[i].Value(), stats[i], force)
    ensures |unknown| == |peers|
    ensures forall i, d :: 0 <= i < |peers| ==>
        (d in unknown[i] <==> stats[i].Some? && Asks(self.index.counts, stats[i].value, d))
  {
    hide Queued, PullAll, PushAll, PushEvery, PullDue, PushDue, PushEveryDue, Asks;
    ghost var s, ps := self.Value(), Values(peers);
    unknown := [];
    EveryNone(s, ps[..0], stats[..0], force);
    var i := 0;
    while i < |peers|
      invariant 0 <= i <= |peers| && self.index == s.index && |unknown| == i
      invariant forall k :: i <= k < |peers| ==> peers[k].Value() == ps[k]
      invariant Queued(s, self.Value(), PushEvery(s, ps[..i], stats[..i], force),
                       PushEveryDue(s, ps[..i], stats[..i], force))
      invariant forall k :: 0 <= k < i ==> Repaired(s, ps[k], peers[k].Value(), stats[k], force)
      invariant forall k, d :: 0 <= k < i ==>
          (d in unknown[k] <==> stats[k].Some? && Asks(s.index.counts, stats[k].value, d))
    {
      EveryStep(s, ps, stats, force, i);
      assert forall k :: 0 <= k < |peers| && k != i ==> peers[k] != peers[i];
      if stats[i].Some? {
        ghost var s0 := self.Value();
        var days := RepairPeer(self, peers[i], stats[i].value, force);
        SameCounts(s, s0, ps[i], stats[i].value, force);
        ghost var more, due := PushAll(s, ps[i], stats[i].value, force), PushDue(s, ps[i], stats[i].value, force);
        QueuedIndex(s0, self.Value(), more, due);
        QueuedBoth(s, s0, self.Value(), PushEvery(s, ps[..i], stats[..i], force), more,
                   PushEveryDue(s, ps[..i], stats[..i], force), due);
        unknown := unknown + [days];
      } else {
        unknown := unknown + [[]];
      }
      i := i + 1;
    }
    assert ps[..|peers|] == ps && stats[..|peers|] == stats;
  }

  lemma EveryNone(self: Node, peers: seq<Node>, stats: seq<Option<seq<Stat.Row>>>, force: bool)
    requires peers == [] && stats == []
    ensures Queued(self, self, PushEvery(self, peers, stats, force), PushEveryDue(self, peers, stats, force))
  {
    QueuedNothing(self);
  }

  lemma QueuedIndex(s: Node, t: Node, md5s: set<Sum>, due: multiset<FileInfo>)
    requires Queued(s, t, md5s, due)
    ensures t.index == s.index
  {
  }

  // ---- What is compared ----------------------------------------------------

  /** The day of the row is compared: the repairing node has a count for it, and that differs
      from the peer's, or the repair is forced. */
  predicate Compared(self: Node, row: Stat.Row, force: bool, day: nat) {
    && row.date == Stat.Day(day) && day in self.index.counts
    && (force || self.index.counts[day] != row.fileCount)
  }

  /** The peer is to offer what it logs for some compared day and the node does not. */
  lemma {:induction false} PullExactly(self: Node, peer: Node, rows: seq<Stat.Row>, force: bool, m: Sum)
    ensures m in PullAll(self, peer, rows, force) <==>
              m != Unset && exists k, day ::
                && 0 <= k < |rows| && Compared(self, rows[k], force, day)
                && LogKey(day, Files, m) in peer.index.logDB && LogKey(day, Files, m) !in self.index.logDB
  {
    if rows != [] {
      var n := |rows| - 1;
      PullExactly(self, peer, rows[..n], force, m);
      assert forall k :: 0 <= k < n ==> rows[..n][k] == rows[k];
      if Compares(self, rows[n], force) { assert Compared(self, rows[n], force, rows[n].date.day); }
    }
  }

  /** The node is to offer what it logs for some compared day and the peer does not. The empty
      checksum is not, if the peer logs nothing for the day: that is how its answer reads then. */
  lemma {:induction false} PushExactly(self: Node, peer: Node, rows: seq<Stat.Row>, force: bool, m: Sum)
    ensures m in PushAll(self, peer, rows, force) <==>
              exists k, day ::
                && 0 <= k < |rows| && Compared(self, rows[k], force, day)
                && LogKey(day, Files, m) in self.index.logDB && LogKey(day, Files, m) !in peer.index.logDB
                && (m == Unset ==> exists x :: LogKey(day, Files, x) in peer.index.logDB)
  {
    if rows != [] {
      var n := |rows| - 1;
      PushExactly(self, peer, rows[..n], force, m);
      assert forall k :: 0 <= k < n ==> rows[..n][k] == rows[k];
      if Compares(self, rows[n], force) { assert Compared(self, rows[n], force, rows[n].date.day); }
    }
  }

  // ---- A forced repair, for one of its days --------------------------------

  predicate Lists(rows: seq<Stat.Row>, day: nat) { exists k :: 0 <= k < |rows| && rows[k].date == Stat.Day(day) }

  /** For a content that the peer logs under one day only, what the peer is to offer is decided
      by that day alone, whatever other days are compared. */
  lemma {:induction false} PullOfDay(self: Node, peer: Node, rows: seq<Stat.Row>, day: nat, m: Sum)
    requires day in self.index.counts && m != Unset
    requires forall t :: m in Logged(peer.index.logDB, t) <==> t == day
    ensures m in PullAll(self, peer, rows, true) <==> Lists(rows, day) && m !in Logged(self.index.logDB, day)
  {
    hide Logged;
    if rows != [] {
      var init, row := rows[..|rows| - 1], rows[|rows| - 1];
      PullOfDay(self, peer, init, day, m);
      ListsMore(rows, day);
    }
  }

  lemma ListsMore(rows: seq<Stat.Row>, day: nat)
    requires rows != []
    ensures Lists(rows, day) <==> Lists(rows[..|rows| - 1], day) || rows[|rows| - 1].date == Stat.Day(day)
  {
  }

  lemma {:induction false} PushOfDay(self: Node, peer: Node, rows: seq<Stat.Row>, day: nat, m: Sum)
    requires day in self.index.counts && m != Unset
    requires forall t :: m in Logged(self.index.logDB, t) <==> t == day
    ensures m in PushAll(self, peer, rows, true) <==> Lists(rows, day) && m !in Logged(peer.index.logDB, day)
  {
    hide Logged;
    if rows != [] {
      var init, row := rows[..|rows| - 1], rows[|rows| - 1];
      PushOfDay(self, peer, init, day, m);
      ListsMore(rows, day);
    }
  }

  lemma {:induction false} PulledIsLogged(self: Node, peer: Node, rows: seq<Stat.Row>, force: bool, m: Sum)
    requires m in PullAll(self, peer, rows, force)
    ensures exists t :: m in Logged(peer.index.logDB, t)
  {
    hide Logged;
    var init, row := rows[..|rows| - 1], rows[|rows| - 1];
    if m in PullAll(self, peer, init, force) {
      PulledIsLogged(self, peer, init, force, m);
    } else {
      assert m in Logged(peer.index.logDB, row.date.day);
    }
  }

  lemma {:induction false} PushedIsLogged(self: Node, peer: Node, rows: seq<Stat.Row>, force: bool, m: Sum)
    requires m in PushAll(self, peer, rows, force)
    ensures exists t :: m in Logged(self.index.logDB, t)
  {
    hide Logged;
    var init, row := rows[..|rows| - 1], rows[|rows| - 1];
    if m in PushAll(self, peer, init, force) {
      PushedIsLogged(self, peer, init, force, m);
    } else {
      assert m in Logged(self.index.logDB, row.date.day);
    }
  }

  lemma {:induction false} PushedToSome(self: Node, peers: seq<Node>, stats: seq<Option<seq<Stat.Row>>>, force: bool,
                                        m: Sum)
    requires |peers| == |stats|
    ensures m in PushEvery(self, peers, stats, force) <==>
              exists i :: 0 <= i < |peers| && stats[i].Some? && m in PushAll(self, peers[i], stats[i].value, force)
  {
    hide PushAll;
    if peers != [] {
      var n := |peers| - 1;
      PushedToSome(self, peers[..n], stats[..n], force, m);
    }
  }

  /** A node whose queue was empty, and now holds the records of logged contents, has queued
      records of its own, and one of a content just if it was asked for. */
  lemma AddsOwn(m: Member, t: Node, md5s: set<Sum>)
    requires Aligned(m.node.index) && QuietMember(m) && Adds(m.node, t, md5s)
    requires forall x :: x in m.node.index.ldb && x.OfContent? ==> m.node.index.ldb[x].md5 == x
    requires forall x :: x in md5s ==> exists day :: x in Logged(m.node.index.logDB, day)
    ensures forall e :: e in t.toPeers ==> e.md5.OfContent? && e.md5 in m.node.index.ldb && e == m.node.index.ldb[e.md5]
    ensures forall x :: x in m.node.index.ldb && x.OfContent? ==> (HasOne(t.toPeers, x) <==> x in md5s)
  {
    var ldb := m.node.index.ldb;
    assert t.toPeers[0..] == t.toPeers;
    forall x | x in md5s ensures x in ldb && x.OfContent? {
      var day :| x in Logged(m.node.index.logDB, day);
      assert LogKey(day, Files, x) in m.node.index.logDB;
    }
    forall e | e in t.toPeers ensures e.md5 in md5s && e == ldb[e.md5] { assert e in Elems(t.toPeers); }
    forall x | x in md5s ensures HasOne(t.toPeers, x) { assert ldb[x] in Indexed(ldb, md5s); }
  }

  /** The node logs the content under the day of its record, and no other. */
  lemma LoggedOnce(m: Member, day: nat, x: Sum)
    requires Aligned(m.node.index) && x in DaySet(m, day)
    ensures x.OfContent? && x in m.node.index.ldb && forall t :: x in Logged(m.node.index.logDB, t) <==> t == day
  {
    assert LogKey(day, Files, x) in m.node.index.logDB;
    forall t | x in Logged(m.node.index.logDB, t) ensures t == day { assert LogKey(t, Files, x) in m.node.index.logDB; }
  }

  lemma PeerRepairs(conf: Conf, c: World, r: string, day: nat, q: string, stat: Option<seq<Stat.Row>>, after: Node)
    requires Ready(conf, c, day) && r in conf && q in conf[r].peers && q != r && q in conf
    requires day in c.members[r].node.index.counts && stat.Some? && Lists(stat.value, day)
    requires Repaired(c.members[r].node, c.members[q].node, after, stat, true)
    ensures MemberRepairs(conf, c, r, day, q, c.members[q].(node := after))
  {
    hide Aligned, Adds, PullAll, Lists, Logged, QuietMember, Union;
    var m, s := c.members[q], c.members[r].node;
    assert MemberReady(m) && QuietMember(m);
    var md5s := PullAll(s, m.node, stat.value, true);
    forall x | x in md5s ensures exists t :: x in Logged(m.node.index.logDB, t) {
      PulledIsLogged(s, m.node, stat.value, true, x);
    }
    AddsOwn(m, after, md5s);
    AddsFrame(m.node, after, md5s);
    forall e | e in after.toPeers && e.timeStamp.day == day ensures e.md5 in Union(c, day) { OwnDay(c, q, day, e); }
    forall x | x in DaySet(m, day) ensures HasOne(after.toPeers, x) <==> Offers(conf, c, r, day, x, q) {
      LoggedOnce(m, day, x);
      PullOfDay(s, m.node, stat.value, day, x);
    }
  }

  /** A record that carries the day is of a content that the node logs for it. */
  lemma OwnDay(c: World, q: string, day: nat, e: FileInfo)
    requires q in c.members && Aligned(c.members[q].node.index)
    requires var ldb := c.members[q].node.index.ldb; e.md5.OfContent? && e.md5 in ldb && e == ldb[e.md5]
    ensures e.timeStamp.day == day ==> e.md5 in Union(c, day)
  {
    if e.timeStamp.day == day {
      ReadyDay(c, q, day, e.md5);
      assert e.md5 in DaySet(c.members[q], day);
    }
  }

  lemma AddsFrame(s: Node, t: Node, md5s: set<Sum>)
    requires Adds(s, t, md5s)
    ensures t == s.(toPeers := t.toPeers)
  {
  }

  lemma SelfRepairs(conf: Conf, c: World, r: string, day: nat, stats: seq<Option<seq<Stat.Row>>>, before: seq<Node>,
      after: Node)
    requires Ready(conf, c, day) && r in conf && day in c.members[r].node.index.counts
    requires |conf[r].peers| == |stats| == |before|
    requires forall i :: 0 <= i < |stats| ==> stats[i].Some? && Lists(stats[i].value, day)
    requires forall i :: 0 <= i < |stats| ==>
        conf[r].peers[i] in c.members && before[i] == c.members[conf[r].peers[i]].node
    requires Adds(c.members[r].node, after, PushEvery(c.members[r].node, before, stats, true))
    ensures MemberRepairs(conf, c, r, day, r, c.members[r].(node := after))
  {
    hide Aligned, Adds, PushAll, PushEvery, Lists, Logged, QuietMember, Union;
    var m := c.members[r];
    var s := m.node;
    assert MemberReady(m) && QuietMember(m);
    var md5s := PushEvery(s, before, stats, true);
    forall x | x in md5s ensures exists t :: x in Logged(s.index.logDB, t) {
      PushedToSome(s, before, stats, true, x);
      var i :| 0 <= i < |before| && stats[i].Some? && x in PushAll(s, before[i], stats[i].value, true);
      PushedIsLogged(s, before[i], stats[i].value, true, x);
    }
    AddsOwn(m, after, md5s);
    AddsFrame(s, after, md5s);
    forall e | e in after.toPeers && e.timeStamp.day == day ensures e.md5 in Union(c, day) { OwnDay(c, r, day, e); }
    forall x | x in DaySet(m, day) ensures HasOne(after.toPeers, x) <==> Offers(conf, c, r, day, x, r) {
      LoggedOnce(m, day, x);
      PushedToSome(s, before, stats, true, x);
      forall i | 0 <= i < |before|
        ensures x in PushAll(s, before[i], stats[i].value, true) <==> x !in DaySet(c.members[conf[r].peers[i]], day)
      {
        PushOfDay(s, before[i], stats[i].value, day, x);
      }
      OffersToSome(conf, c, r, day, x);
    }
  }

  lemma OffersToSome(conf: Conf, c: World, r: string, day: nat, x: Sum)
    requires r in conf && r in c.members && x in DaySet(c.members[r], day)
    requires forall p :: p in conf[r].peers ==> p in c.members
    ensures Offers(conf, c, r, day, x, r) <==>
              exists i :: 0 <= i < |conf[r].peers| && x !in DaySet(c.members[conf[r].peers[i]], day)
  {
    hide Logged;
    if i :| 0 <= i < |conf[r].peers| && x !in DaySet(c.members[conf[r].peers[i]], day) {
      assert conf[r].peers[i] in conf[r].peers;
    }
  }

  function Nodes(c: World, hosts: seq<string>): seq<Node>
    requires forall p :: p in hosts ==> p in c.members
  {
    seq(|hosts|, i requires 0 <= i < |hosts| => c.members[hosts[i]].node)
  }

  /** What a forced AutoRepair by r leaves, with the peers of its configuration and their
      answers. */
  ghost predicate Forced(conf: Conf, c: World, d: World, r: string, stats: seq<Option<seq<Stat.Row>>>) {
    && r in conf && r in c.members && |stats| == |conf[r].peers| && (forall p :: p in conf[r].peers ==> p in c.members)
    && d.members.Keys == c.members.Keys
    && (forall q :: q in c.members ==> d.members[q] == c.members[q].(node := d.members[q].node))
    && (forall q :: q in c.members && q != r && q !in conf[r].peers ==> d.members[q] == c.members[q])
    && var s, ps := c.members[r].node, Nodes(c, conf[r].peers);
    && Queued(s, d.members[r].node, PushEvery(s, ps, stats, true), PushEveryDue(s, ps, stats, true))
    && forall i :: 0 <= i < |stats| ==>
         Repaired(s, ps[i], d.members[conf[r].peers[i]].node, stats[i], true)
  }

  /** The day is known to the node that repairs, and all peers answer and list it. */
  predicate Covers(c: World, r: string, day: nat, stats: seq<Option<seq<Stat.Row>>>) {
    && r in c.members && day in c.members[r].node.index.counts
    && forall i :: 0 <= i < |stats| ==> stats[i].Some? && Lists(stats[i].value, day)
  }

  /** A forced AutoRepair is a repair of the days that it covers, whatever other days the peers
      list, and whichever of those are compared too or are not known to r. */
  lemma AutoRepairRepairs(conf: Conf, c: World, d: World, r: string, day: nat, stats: seq<Option<seq<Stat.Row>>>)
    requires Proper(conf) && Closed(conf) && Ready(conf, c, day)
    requires Forced(conf, c, d, r, stats) && Covers(c, r, day, stats)
    ensures Repairs(conf, c, d, r, day)
  {
    hide Repaired, Adds, PushEvery, MemberRepairs, Lists, Ready;
    forall q | q in c.members ensures MemberRepairs(conf, c, r, day, q, d.members[q]) {
      if q == r {
        SelfRepairs(conf, c, r, day, stats, Nodes(c, conf[r].peers), d.members[r].node);
      } else if q in conf[r].peers {
        var i :| 0 <= i < |stats| && conf[r].peers[i] == q;
        PeerRepairs(conf, c, r, day, q, stats[i], d.members[q].node);
      } else {
        AloneRepairs(conf, c, r, day, q);
      }
    }
  }

  lemma AloneRepairs(conf: Conf, c: World, r: string, day: nat, q: string)
    requires Ready(conf, c, day) && q in c.members && r in conf && q != r && q !in conf[r].peers
    ensures MemberRepairs(conf, c, r, day, q, c.members[q])
  {
    hide Aligned, Logged;
    assert QuietMember(c.members[q]);
  }

  /** After a forced AutoRepair, every drain can be continued until nothing is on its way, or has
      come there already; and then the nodes agree on the union of what they logged for the day
      if and only if each of them logged each of its contents before, or is sent it. In an
      ordinary cluster, they do if and only if no content of the day is anywhere under another
      one. */
  lemma ForcedRepairAgrees(conf: Conf, c: World, d: World, r: string, day: nat, stats: seq<Option<seq<Stat.Row>>>,
                           actions: seq<Action>) returns (more: seq<Action>)
    requires Proper(conf) && Closed(conf) && Unified(conf) && Ready(conf, c, day)
    requires Forced(conf, c, d, r, stats) && Covers(c, r, day, stats) && Clear(conf, c, d, day)
    requires Drain(conf, d, actions).Some?
    ensures Quiet(Drain(conf, d, actions).value) ==> more == []
    ensures Drain(conf, d, actions + more).Some?
    ensures var e := Drain(conf, d, actions + more).value;
      && Quiet(e)
      && (Agree(c, e, day) <==>
            forall q, md5 :: q in c.members && md5 in Union(c, day) ==> CanLog(conf, c, r, day, md5, q))
      && (Ordinary(conf, c, day) ==>
            (Agree(c, e, day) <==> forall md5 :: md5 in Union(c, day) ==> OneDay(c, day, md5)))
  {
    hide *;
    AutoRepairRepairs(conf, c, d, r, day, stats);
    RepairStarts(conf, c, d, r, day);
    assert r in conf by { ForcedBy(conf, c, d, r, stats); }
    more := DrainRests(conf, d, actions);
    RepairConvergesIff(conf, c, d, r, day, actions + more);
    if Ordinary(conf, c, day) { OrdinaryConvergesIff(conf, c, d, r, day, actions + more); }
  }

  lemma ForcedBy(conf: Conf, c: World, d: World, r: string, stats: seq<Option<seq<Stat.Row>>>)
    requires Forced(conf, c, d, r, stats)
    ensures r in conf
  {
  }
}
