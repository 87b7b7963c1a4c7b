/** Nodes that are left to finish what is on its way, and that they come to rest. */
module Draining {
  import opened Types
  import opened Index
  import opened Text
  import opened Totals
  import opened Protocol
  import opened Cluster
  import opened Obligation
  import Transfer

  // ---- The steps of a drain ------------------------------------------------

  /** The length of the body that the record announces: that of the file, or in a blob that of
      the content behind its marker. */
  function Expected(info: FileInfo): int { if info.offSet >= 0 then info.size - 1 else info.size }

  /** The transfer succeeds, and brings what the record announces. */
  predicate Arrives(info: FileInfo, net: Transfer.Net) {
    net.body.Some? && !net.renameFails && (Expected(info) >= 0 ==> |net.body.value| == Expected(info))
  }

  /** In this turn the peer is asked whether it has the file. */
  predicate Consults(cfg: Config, m: Member, pass: Pass)
    requires pass.next < |cfg.peers|
  {
    && AsksFirst(cfg, pass.info) && cfg.peers[pass.next] !in pass.info.peers
    && Transfer.Local(cfg, m.disk, pass.info).Some?
  }

  /** Every peer answers: that it has the file, if it is asked and has it, and otherwise that
      it takes the offer; one that has lost the file forgets it first. Every file that is
      requested arrives; whether it is requested is for the node to decide. */
  predicate Succeeds(conf: Conf, c: World, a: Action) {
    && Enabled(conf, c, a)
    && match a
       case Exchange(h, i, answer) =>
         var pass := c.members[h].flight[i];
         var peer := conf[h].peers[pass.next];
         && peer in conf
         && if !Consults(conf[h], c.members[h], pass) then answer == Accepted
            else !Stale(conf[peer], c.members[peer], pass.info.md5)
                 && answer == if Knows(conf[peer], c.members[peer], pass.info.md5) then Found else Accepted
       case Fetch(h, net) => Arrives(c.members[h].node.fromPeers[0], net)
       case _ => a.Start? || a.End? || a.WriteLog? || a.Ask?
  }

  function Drain(conf: Conf, c: World, actions: seq<Action>): Option<World> {
    if actions == [] then Some(c) else
    var before := Drain(conf, c, actions[..|actions| - 1]);
    if before.Some? && Succeeds(conf, before.value, actions[|actions| - 1])
    then Some(Next(conf, before.value, actions[|actions| - 1])) else None
  }

  predicate QuietMember(m: Member) {
    m.node.toPeers == [] && m.node.fromPeers == [] && m.node.pending == [] && m.flight == []
  }

  predicate Quiet(c: World) { forall h :: h in c.members ==> QuietMember(c.members[h]) }

  // ---- Times ---------------------------------------------------------------

  /** The files on disk are of these times. */
  predicate DiskWithin(times: set<int>, disk: map<string, Transfer.OnDisk>) {
    forall p :: p in disk ==> disk[p].modified.unix in times
  }

  predicate Within(times: set<int>, c: World) { forall h :: h in c.members ==> DiskWithin(times, c.members[h].disk) }

  /** So are the files that arrive. */
  predicate ClockWithin(times: set<int>, actions: seq<Action>) {
    forall a :: a in actions && a.Fetch? ==> a.net.now.unix in times
  }

  /** How many of the times are later. */
  function Rank(times: set<int>, t: int): nat { |set v | v in times && v > t| }

  lemma RankFalls(times: set<int>, t: int, u: int)
    requires u in times && t < u
    ensures Rank(times, u) < Rank(times, t)
  {
    var a, b := set v | v in times && v > u, set v | v in times && v > t;
    SubsetCount(a, b);
    assert u in b && u !in a;
  }

  // ---- Work that is left ---------------------------------------------------

  /** A record to be fetched is fetched, and then logged; or the node offers a newer file of its
      own to at most n peers each of which then has a newer record to fetch. */
  function ItemWork(n: nat, rank: nat): (w: nat)
    ensures w >= 2
  {
    if rank == 0 then 2 else 2 + n * (ItemWork(n, rank - 1) + 2) + 1
  }

  /** Every peer still before the call may be offered the file and log that, fetch the file and
      log that. */
  function PassWork(times: set<int>, n: nat, k: nat, p: Pass): nat {
    if p.next < k then (k - p.next) * (ItemWork(n, Rank(times, p.info.timeStamp.unix)) + 2) + 1 else 1
  }

  function FlightWork(times: set<int>, n: nat, k: nat, flight: seq<Pass>): nat {
    if flight == [] then 0
    else FlightWork(times, n, k, flight[..|flight| - 1]) + PassWork(times, n, k, flight[|flight| - 1])
  }

  function ToWork(times: set<int>, n: nat, k: nat, queue: seq<FileInfo>): nat {
    if queue == [] then 0 else ToWork(times, n, k, queue[1..]) + PassWork(times, n, k, Pass(queue[0], 0)) + 1
  }

  function FromWork(times: set<int>, n: nat, queue: seq<FileInfo>): nat {
    if queue == [] then 0
    else FromWork(times, n, queue[..|queue| - 1]) + ItemWork(n, Rank(times, queue[|queue| - 1].timeStamp.unix))
  }

  function Load(times: set<int>, n: nat, cfg: Config, m: Member): nat {
    |m.node.pending| + FromWork(times, n, m.node.fromPeers)
      + ToWork(times, n, |cfg.peers|, m.node.toPeers) + FlightWork(times, n, |cfg.peers|, m.flight)
  }

  /** A node may also be asked for each content that it indexes; and each piece of work may add two
      records to the index. */
  function Work(times: set<int>, n: nat, cfg: Config, m: Member): nat {
    3 * Load(times, n, cfg, m) + |m.node.index.ldb|
  }

  function Works(times: set<int>, n: nat, conf: Conf, c: World): map<string, int> {
    map h | h in c.members && h in conf :: Work(times, n, conf[h], c.members[h])
  }

  lemma FlightWorkAppend(times: set<int>, n: nat, k: nat, flight: seq<Pass>, p: Pass)
    ensures FlightWork(times, n, k, flight + [p]) == FlightWork(times, n, k, flight) + PassWork(times, n, k, p)
  {
    assert (flight + [p])[..|flight|] == flight;
  }

  lemma {:induction false} FlightWorkAt(times: set<int>, n: nat, k: nat, flight: seq<Pass>, i: nat, p: Pass)
    requires i < |flight|
    ensures FlightWork(times, n, k, flight[i := p]) ==
        FlightWork(times, n, k, flight) - PassWork(times, n, k, flight[i]) + PassWork(times, n, k, p)
    ensures FlightWork(times, n, k, Without(flight, i)) ==
        FlightWork(times, n, k, flight) - PassWork(times, n, k, flight[i])
  {
    hide PassWork;
    var init, last := flight[..|flight| - 1], flight[|flight| - 1];
    if i == |init| {
      assert flight[i := p] == init + [p] && Without(flight, i) == init;
      FlightWorkAppend(times, n, k, init, p);
    } else {
      FlightWorkAt(times, n, k, init, i, p);
      assert flight[i := p] == init[i := p] + [last] && Without(flight, i) == Without(init, i) + [last];
      FlightWorkAppend(times, n, k, init[i := p], last);
      FlightWorkAppend(times, n, k, Without(init, i), last);
    }
  }

  lemma FromWorkAppend(times: set<int>, n: nat, queue: seq<FileInfo>, e: FileInfo)
    ensures FromWork(times, n, queue + [e]) ==
        FromWork(times, n, queue) + ItemWork(n, Rank(times, e.timeStamp.unix))
  {
    assert (queue + [e])[..|queue|] == queue;
  }

  lemma {:induction false} FromWorkHead(times: set<int>, n: nat, queue: seq<FileInfo>)
    requires queue != []
    ensures FromWork(times, n, queue) ==
        ItemWork(n, Rank(times, queue[0].timeStamp.unix)) + FromWork(times, n, queue[1..])
  {
    hide ItemWork, Rank;
    var init := queue[..|queue| - 1];
    if init == [] {
      assert queue[1..] == [];
    } else {
      FromWorkHead(times, n, init);
      assert queue[1..] == init[1..] + [queue[|queue| - 1]];
      FromWorkAppend(times, n, init[1..], queue[|queue| - 1]);
    }
  }

  // ---- Every step lowers it ------------------------------------------------

  lemma PutSize(s: State, key: Sum, info: FileInfo)
    ensures |PutIndex(s, key, info).ldb| <= |s.ldb| + 1
  {
    var t := PutIndex(s, key, info);
    assert t.ldb.Keys == s.ldb.Keys + {key};
  }

  lemma SavedSize(s: State, info: FileInfo, log: Log)
    ensures |SaveLog(s, info, log).ldb| <= |s.ldb| + 2
  {
    hide FileInfo.FullPath;
    var t := SaveLog(s, info, log);
    if log.Removes? { SubsetCount(t.ldb.Keys, s.ldb.Keys); }
    else if !info.md5.Unset? && log.Files? { assert t.ldb.Keys == s.ldb.Keys + {info.md5, OfPath(info.FullPath())}; }
  }

  /** A successful turn of the worker: the record is gone from the queue, and it is to be logged,
      or in the index, or neither; or a call for the node's own, newer file has started. */
  lemma ReceivedWell(cfg: Config, m: Member, net: Transfer.Net)
    requires m.node.fromPeers != [] && Arrives(m.node.fromPeers[0], net)
    ensures var n, info := Received(cfg, m, net), m.node.fromPeers[0];
      && n.node.toPeers == m.node.toPeers && n.node.fromPeers == m.node.fromPeers[1..]
      && (n.node.pending == m.node.pending
          || (!OffersOwn(cfg, m) && info.offSet != MIGRATED
              && n.node.pending == m.node.pending + [LogEntry(Transfer.Tried(info), Files)]))
      && (n.node.index == m.node.index
          || (info.offSet == MIGRATED && n.node.index == PutIndex(m.node.index, info.md5, Transfer.Tried(info))))
      && (if OffersOwn(cfg, m)
          then n.disk == m.disk && info.DiskPath(cfg) in m.disk && (cfg.distinct ==> info.offSet == MIGRATED)
               && var modified := m.disk[info.DiskPath(cfg)].modified;
               modified.unix > info.timeStamp.unix
               && n.flight == m.flight + [Pass(Transfer.Tried(info).(timeStamp := modified), 0)]
          else n.flight == m.flight)
  {
    hide FileInfo.DiskPath, Transfer.TmpPath, Transfer.PeerOf, Transfer.AlreadyThere, Replica.WriteAt, Text.Split;
    hide PutIndex;
    Transfer.TmpIsOther(cfg, m.node.fromPeers[0]);
  }

  lemma NewerWork(times: set<int>, n: nat, k: nat, t: int, p: Pass)
    requires p.info.timeStamp.unix in times && p.info.timeStamp.unix > t && p.next == 0 && k <= n
    ensures PassWork(times, n, k, p) + 2 <= ItemWork(n, Rank(times, t))
  {
    var r, u := Rank(times, t), Rank(times, p.info.timeStamp.unix);
    RankFalls(times, t, p.info.timeStamp.unix);
    ItemWorkRises(n, u, r - 1);
    Times(k, n, ItemWork(n, u) + 2, ItemWork(n, r - 1) + 2);
  }

  lemma {:induction false} ItemWorkRises(n: nat, a: nat, b: nat)
    requires a <= b
    ensures ItemWork(n, a) <= ItemWork(n, b)
  {
    if a > 0 {
      ItemWorkRises(n, a - 1, b - 1);
      Times(n, n, ItemWork(n, a - 1) + 2, ItemWork(n, b - 1) + 2);
    }
  }

  lemma Times(k: nat, n: nat, v: nat, w: nat)
    requires k <= n && v <= w
    ensures k * v <= n * w
  {
    assert k * v <= n * v <= n * w;
  }

  lemma FetchWork(times: set<int>, n: nat, cfg: Config, m: Member, net: Transfer.Net)
    requires m.node.fromPeers != [] && Arrives(m.node.fromPeers[0], net)
    requires |cfg.peers| <= n && DiskWithin(times, m.disk)
    ensures Work(times, n, cfg, Received(cfg, m, net)) < Work(times, n, cfg, m)
  {
    hide Received, OffersOwn, FlightWork, FromWork, ToWork, PassWork, FileInfo.DiskPath, Rank, PutIndex;
    var info, d := m.node.fromPeers[0], Received(cfg, m, net);
    ReceivedWell(cfg, m, net);
    PutSize(m.node.index, info.md5, Transfer.Tried(info));
    FromWorkHead(times, n, m.node.fromPeers);
    if OffersOwn(cfg, m) {
      var p := d.flight[|m.flight|];
      assert d.flight == m.flight + [p];
      FlightWorkAppend(times, n, |cfg.peers|, m.flight, p);
      NewerWork(times, n, |cfg.peers|, info.timeStamp.unix, p);
    }
  }

  lemma LocalWork(times: set<int>, n: nat, conf: Conf, c: World, a: Action)
    requires Succeeds(conf, c, a) && !a.Exchange? && |conf[a.h].peers| <= n && DiskWithin(times, c.members[a.h].disk)
    ensures a.h in Next(conf, c, a).members
    ensures Work(times, n, conf[a.h], Next(conf, c, a).members[a.h]) < Work(times, n, conf[a.h], c.members[a.h])
  {
    hide SaveLog, FlightWork, Without, Received, StillOwed, FromWork, PassWork;
    var k, m := |conf[a.h].peers|, c.members[a.h];
    match a
    case Start(h) => FlightWorkAppend(times, n, k, m.flight, Pass(m.node.toPeers[0], 0));
    case End(h, i) =>
      FlightWorkAt(times, n, k, m.flight, i, m.flight[i]);
      OverWork(times, n, k, m.flight[i]);
    case WriteLog(h) => SavedSize(m.node.index, m.node.pending[0].info, m.node.pending[0].log);
    case Fetch(h, net) => FetchWork(times, n, conf[h], m, net);
    case Ask(h, md5) => assert (m.node.index.ldb - {md5}).Keys == m.node.index.ldb.Keys - {md5};
    case _ =>
  }

  lemma OverWork(times: set<int>, n: nat, k: nat, p: Pass)
    ensures PassWork(times, n, k, p) >= 1
  {
    if p.next < k { Times(0, k - p.next, 0, ItemWork(n, Rank(times, p.info.timeStamp.unix)) + 2); }
  }

  lemma LocalOnly(conf: Conf, c: World, a: Action)
    requires Succeeds(conf, c, a) && !a.Exchange?
    ensures Next(conf, c, a).members == c.members[a.h := Next(conf, c, a).members[a.h]]
  {
    hide SaveLog, Consumed, Received, StillOwed;
  }

  lemma TurnQueues(cfg: Config, s: Node, info: FileInfo, peer: string, local: Option<nat>, answer: Answer)
    requires answer.Found? || answer.Accepted?
    ensures var r := Turn(cfg, s, info, peer, local, answer);
      && r.node == s.(index := r.node.index) && r.info.timeStamp == info.timeStamp
      && |r.node.index.ldb| <= |s.index.ldb| + 1
  {
    hide PutIndex;
    PutSize(s.index, info.md5, WithPeer(if local.Some? then Measured(info, local.value) else info, peer));
  }

  lemma TakenSize(s: Node, info: FileInfo)
    ensures |Taken(s, info).index.ldb| <= |s.index.ldb| + 1
  {
    hide PutIndex;
    PutSize(s.index, info.md5, info);
  }

  lemma TurnWork(times: set<int>, n: nat, k: nat, p: Pass, q: Pass)
    requires p.next < k && q.next == p.next + 1 && q.info.timeStamp == p.info.timeStamp
    ensures PassWork(times, n, k, p) == PassWork(times, n, k, q) + ItemWork(n, Rank(times, p.info.timeStamp.unix)) + 2
  {
    hide Rank, ItemWork;
    var w := ItemWork(n, Rank(times, p.info.timeStamp.unix)) + 2;
    assert (k - p.next) * w == (k - q.next) * w + w;
  }

  /** The offering node loses more than the peer gains. */
  lemma ExchangeWork(times: set<int>, n: nat, conf: Conf, c: World, h: string, i: nat, answer: Answer)
    requires Proper(conf) && Succeeds(conf, c, Exchange(h, i, answer))
    ensures
      var d, p := Exchanged(conf[h], c, h, i, answer), conf[h].peers[c.members[h].flight[i].next];
      var w := ItemWork(n, Rank(times, c.members[h].flight[i].info.timeStamp.unix)) + 2;
      && p != h && h in d.members && p in d.members
      && Work(times, n, conf[h], d.members[h]) <= Work(times, n, conf[h], c.members[h]) - 3 * w + 1
      && (p in conf ==> Work(times, n, conf[p], d.members[p]) <= Work(times, n, conf[p], c.members[p]) + 3 * w - 2)
      && d.members == c.members[h := d.members[h]][p := d.members[p]]
  {
    hide Turn, FlightWork, ToWork, PassWork, FromWork, ItemWork, Rank, Transfer.Local, Knows, Stale, Consults;
    var cfg, m := conf[h], c.members[h];
    var pass := m.flight[i];
    var peer, local := cfg.peers[pass.next], Transfer.Local(cfg, m.disk, pass.info);
    assert peer in cfg.peers;
    var r := Turn(cfg, m.node, pass.info, peer, local, answer);
    TurnQueues(cfg, m.node, pass.info, peer, local, answer);
    FlightWorkAt(times, n, |cfg.peers|, m.flight, i, Pass(r.info, pass.next + 1));
    TurnWork(times, n, |cfg.peers|, pass, Pass(r.info, pass.next + 1));
    if local.Some? {
      TakenSize(c.members[peer].node, Stored(Measured(pass.info, local.value)));
      FromWorkAppend(times, n, c.members[peer].node.fromPeers, Stored(Measured(pass.info, local.value)));
    }
  }

  /** The total when one member is replaced. */
  lemma WorksUpdated(times: set<int>, n: nat, conf: Conf, c: World, d: World, h: string)
    requires c.members.Keys == conf.Keys && h in conf && h in d.members && d.members == c.members[h := d.members[h]]
    ensures MapTotal(Works(times, n, conf, d)) ==
        MapTotal(Works(times, n, conf, c)) - Work(times, n, conf[h], c.members[h])
          + Work(times, n, conf[h], d.members[h])
  {
    hide Work, MapTotal;
    var u := Work(times, n, conf[h], d.members[h]);
    assert Works(times, n, conf, d) == Works(times, n, conf, c)[h := u];
    TotalUpdated(Works(times, n, conf, c), h, u);
  }

  /** No node has more than n peers. */
  predicate AtMost(conf: Conf, n: nat) { forall h :: h in conf ==> |conf[h].peers| <= n }

  lemma StepWork(times: set<int>, n: nat, conf: Conf, c: World, a: Action)
    requires Proper(conf) && AtMost(conf, n) && c.members.Keys == conf.Keys && Within(times, c) && Succeeds(conf, c, a)
    ensures MapTotal(Works(times, n, conf, Next(conf, c, a))) < MapTotal(Works(times, n, conf, c))
    ensures Next(conf, c, a).members.Keys == conf.Keys
  {
    hide Work, Works, MapTotal, Exchanged, Next, DiskWithin, ItemWork, Rank;
    var d := Next(conf, c, a);
    StepFrame(conf, c, a);
    if a.Exchange? {
      ExchangeStep(conf, c, a);
      ExchangeWork(times, n, conf, c, a.h, a.i, a.answer);
      var p := conf[a.h].peers[c.members[a.h].flight[a.i].next];
      var b := c.(members := c.members[a.h := d.members[a.h]]);
      WorksUpdated(times, n, conf, c, b, a.h);
      WorksUpdated(times, n, conf, b, d, p);
    } else {
      LocalOnly(conf, c, a);
      LocalWork(times, n, conf, c, a);
      WorksUpdated(times, n, conf, c, d, a.h);
    }
  }

  /** A fetch leaves on disk what was there, and what arrived, if anything. */
  lemma ReceivedWithin(times: set<int>, cfg: Config, m: Member, net: Transfer.Net)
    requires DiskWithin(times, m.disk) && net.now.unix in times && m.node.fromPeers != []
    ensures DiskWithin(times, Received(cfg, m, net).disk)
  {
    hide FileInfo.DiskPath, Transfer.TmpPath, Transfer.PeerOf, Transfer.AlreadyThere, Replica.WriteAt, Text.Split;
    hide PutIndex;
  }

  lemma StepWithin(times: set<int>, conf: Conf, c: World, a: Action)
    requires Within(times, c) && Succeeds(conf, c, a) && (a.Fetch? ==> a.net.now.unix in times)
    ensures Within(times, Next(conf, c, a))
  {
    hide DiskWithin, Received, Turn, Taken, Consumed, StillOwed;
    if a.Fetch? { ReceivedWithin(times, conf[a.h], c.members[a.h], a.net); }
  }

  /** No drain takes more steps than there is work at its start. The times of the files on disk
      and of those that arrive count, since a node may offer a newer file of its own instead of
      fetching one, and its peers may do so in turn. */
  lemma {:induction false} DrainBounded(times: set<int>, n: nat, conf: Conf, c: World, actions: seq<Action>)
    requires Proper(conf) && AtMost(conf, n) && c.members.Keys == conf.Keys && Drain(conf, c, actions).Some?
    requires Within(times, c) && ClockWithin(times, actions)
    ensures
      var d := Drain(conf, c, actions).value;
      && d.members.Keys == conf.Keys && Within(times, d)
      && |actions| + MapTotal(Works(times, n, conf, d)) <= MapTotal(Works(times, n, conf, c))
  {
    hide Works, MapTotal, Next, Succeeds, Within, AtMost;
    if actions != [] {
      var init, a := actions[..|actions| - 1], actions[|actions| - 1];
      assert a in actions && forall b :: b in init ==> b in actions;
      DrainBounded(times, n, conf, c, init);
      StepWork(times, n, conf, Drain(conf, c, init).value, a);
      StepWithin(times, conf, Drain(conf, c, init).value, a);
    }
  }

  lemma {:induction false} TotalNat<K>(m: map<K, int>)
    requires forall k :: k in m ==> m[k] >= 0
    ensures MapTotal(m) >= 0
  {
    if m != map[] {
      var k :| k in m;
      TotalWithout(m, k);
      TotalNat(m - {k});
    }
  }

  // ---- It is never stuck ---------------------------------------------------

  /** All peers are nodes of the cluster. */
  predicate Closed(conf: Conf) {
    forall h, p :: h in conf && p in conf[h].peers ==> p in conf
  }

  /** What arrives, at the given time. */
  function Arriving(info: FileInfo, now: Stamp): (net: Transfer.Net)
    ensures Arrives(info, net) && net.now == now
  {
    Transfer.Net(Some(if Expected(info) >= 0 then seq(Expected(info), i => 0) else []), false, now, [])
  }

  /** As long as something is on its way, some step that succeeds can be taken, at any time. */
  lemma NeverStuck(conf: Conf, c: World, now: Stamp) returns (a: Action)
    requires Closed(conf) && c.members.Keys == conf.Keys && !Quiet(c)
    ensures Succeeds(conf, c, a) && (a.Fetch? ==> a.net.now == now)
  {
    hide Expected, FileInfo.DiskPath, Transfer.Local;
    var h :| h in c.members && !QuietMember(c.members[h]);
    var m := c.members[h];
    if m.node.toPeers != [] {
      a := Start(h);
    } else if m.node.fromPeers != [] {
      a := Fetch(h, Arriving(m.node.fromPeers[0], now));
    } else if m.node.pending != [] {
      a := WriteLog(h);
    } else if m.flight[0].next >= |conf[h].peers| {
      a := End(h, 0);
    } else {
      var pass, p := m.flight[0], conf[h].peers[m.flight[0].next];
      assert p in conf[h].peers;
      if !Consults(conf[h], m, pass) {
        a := Exchange(h, 0, Accepted);
      } else if Stale(conf[p], c.members[p], pass.info.md5) {
        a := Ask(p, pass.info.md5);
      } else {
        a := Exchange(h, 0, if Knows(conf[p], c.members[p], pass.info.md5) then Found else Accepted);
      }
    }
  }

  /** From every state whatsoever the nodes come to rest: a drain can be continued until
      nothing is on its way, and it gets there within the work that there was at its start. */
  lemma {:induction false} DrainEnds(times: set<int>, n: nat, conf: Conf, c: World, actions: seq<Action>, now: Stamp)
    returns (more: seq<Action>)
    requires Proper(conf) && Closed(conf) && AtMost(conf, n) && c.members.Keys == conf.Keys
    requires Drain(conf, c, actions).Some?
    requires Within(times, c) && ClockWithin(times, actions) && now.unix in times
    ensures Drain(conf, c, actions + more).Some? && Quiet(Drain(conf, c, actions + more).value)
    ensures |actions + more| <= MapTotal(Works(times, n, conf, c))
    ensures Quiet(Drain(conf, c, actions).value) ==> more == []
    decreases MapTotal(Works(times, n, conf, c)) - |actions|
  {
    hide Works, MapTotal, Next, Succeeds, Quiet, Closed, AtMost, Within;
    DrainBounded(times, n, conf, c, actions);
    var d := Drain(conf, c, actions).value;
    WorksNat(times, n, conf, d);
    if Quiet(d) {
      more := [];
      assert actions + more == actions;
    } else {
      var a := NeverStuck(conf, d, now);
      assert (actions + [a])[..|actions|] == actions;
      DrainBounded(times, n, conf, c, actions + [a]);
      WorksNat(times, n, conf, Drain(conf, c, actions + [a]).value);
      var rest := DrainEnds(times, n, conf, c, actions + [a], now);
      more := [a] + rest;
      assert actions + more == (actions + [a]) + rest;
    }
  }

  /** So every drain can be continued until nothing is on its way. */
  lemma DrainRests(conf: Conf, c: World, actions: seq<Action>) returns (more: seq<Action>)
    requires Proper(conf) && Closed(conf) && c.members.Keys == conf.Keys && Drain(conf, c, actions).Some?
    ensures Drain(conf, c, actions + more).Some? && Quiet(Drain(conf, c, actions + more).value)
    ensures Quiet(Drain(conf, c, actions).value) ==> more == []
  {
    var n := SomeBound(conf);
    var files := set h, p | h in c.members && p in c.members[h].disk :: c.members[h].disk[p].modified.unix;
    var clocks := set a | a in actions && a.Fetch? :: a.net.now.unix;
    var times := files + clocks + {0};
    assert Within(times, c) && ClockWithin(times, actions);
    more := DrainEnds(times, n, conf, c, actions, Stamp(0, 0));
  }

  lemma {:induction false} SomeBound(conf: Conf) returns (n: nat)
    ensures AtMost(conf, n)
  {
    n := 0;
    if conf != map[] {
      var h :| h in conf;
      var k := SomeBound(conf - {h});
      n := k + |conf[h].peers|;
      forall x | x in conf ensures |conf[x].peers| <= n {
        if x != h { assert x in conf - {h} && (conf - {h})[x] == conf[x]; }
      }
    }
  }

  lemma WorksNat(times: set<int>, n: nat, conf: Conf, c: World)
    ensures MapTotal(Works(times, n, conf, c)) >= 0
  {
    hide MapTotal;
    TotalNat(Works(times, n, conf, c));
  }
}
