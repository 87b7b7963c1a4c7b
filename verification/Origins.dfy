/** What may come to a node while everything that is queued is sent, and what this may do to
    the files that are there. */
module Origins {
  import opened Types
  import opened Index
  import opened Text
  import opened Protocol
  import opened Cluster
  import opened Obligation
  import opened Draining
  import Transfer
  import Replica

  // ---- Where a record comes from -------------------------------------------

  /** The same file, with its size, if that was known, whatever has become of the rest of its
      record on the way. */
  predicate Kin(e: FileInfo, f: FileInfo) {
    && e == f.(size := e.size, peers := e.peers, timeStamp := e.timeStamp, retry := e.retry)
    && (f.size != 0 ==> e.size == f.size)
  }

  predicate Queues(c: World, p: string, f: FileInfo) { p in c.members && f in c.members[p].node.toPeers }

  /** The node may offer the file: it has queued the record, or the file was migrated, and then
      a node that is offered it may offer a newer one of its own. */
  ghost predicate Offerable(c: World, p: string, f: FileInfo) {
    Queues(c, p, f) || (f.offSet == MIGRATED && exists x :: Queues(c, x, f))
  }

  /** A fetch of the record deletes nothing at the path. */
  predicate Leaves(cfg: Config, f: FileInfo, path: string) {
    f.offSet >= 0 || (Transfer.TmpPath(cfg, f) != path && (f.offSet == MIGRATED ==> f.DiskPath(cfg) != path))
  }

  /** The node knows that it has the content, and will: it indexes it, as a whole file only if
      that is on disk and nothing that is queued anywhere can delete it; and what it has queued
      of it is the record that it indexes. */
  ghost predicate Firm(conf: Conf, c: World, h: string, md5: Sum) {
    && h in c.members && h in conf && md5.OfContent? && md5 in c.members[h].node.index.ldb
    && var r := c.members[h].node.index.ldb[md5];
    && !r.md5.Unset? && (forall f :: f in c.members[h].node.toPeers && f.md5 == md5 ==> f == r)
    && (r.offSet == WHOLE ==>
          && r.DiskPath(conf[h]) in c.members[h].disk
          && forall p, f :: Queues(c, p, f) ==> Leaves(conf[h], f, r.DiskPath(conf[h])))
  }

  /** The node may be offered the file: it is a peer of one that may offer it, and does not answer
      that it has it. */
  ghost predicate Reaches(conf: Conf, c: World, h: string, f: FileInfo) {
    h in c.members && exists p :: p in conf && Offerable(c, p, f) && h in conf[p].peers
                              && (f.offSet == MIGRATED || !Firm(conf, c, h, f.md5))
  }

  lemma ReachesQueued(conf: Conf, c: World, h: string, f: FileInfo)
    requires Reaches(conf, c, h, f)
    ensures exists p :: Queues(c, p, f)
  {
    var p :| p in conf && Offerable(c, p, f);
    if !Queues(c, p, f) { var x :| Queues(c, x, f); }
  }

  ghost predicate Stems(c: World, p: string, e: FileInfo) { exists f :: Kin(e, f) && Offerable(c, p, f) }

  ghost predicate Came(conf: Conf, c: World, h: string, e: FileInfo) { exists f :: Kin(e, f) && Reaches(conf, c, h, f) }

  /** It still knows it, and has the file. */
  predicate StillKnows(conf: Conf, c: World, h: string, m: Member, md5: Sum) {
    && h in c.members && h in conf && md5 in c.members[h].node.index.ldb
    && var r := c.members[h].node.index.ldb[md5];
    && md5 in m.node.index.ldb && !m.node.index.ldb[md5].md5.Unset?
    && (m.node.index.ldb[md5].offSet == WHOLE ==>
          r.offSet == WHOLE && m.node.index.ldb[md5].DiskPath(conf[h]) == r.DiskPath(conf[h]))
    && (r.offSet == WHOLE ==> r.DiskPath(conf[h]) in m.disk)
  }

  /** What the node offers stems from the start, and so does what it is to fetch or has fetched;
      and it still knows what it knew. */
  ghost predicate Origin(conf: Conf, c: World, h: string, m: Member)
    requires h in c.members && h in conf
  {
    && (forall e :: e in m.node.toPeers ==> Stems(c, h, e))
    && (forall x :: x in m.flight ==> Stems(c, h, x.info))
    && (forall e :: e in m.node.fromPeers ==> Came(conf, c, h, e))
    && (forall e :: e in m.node.pending ==>
          e.log in {Files, Queue} && (e.log == Files ==> Came(conf, c, h, e.info) && e.info.offSet != MIGRATED))
    && (forall k :: Firm(conf, c, h, k) ==> StillKnows(conf, c, h, m, k))
  }

  ghost predicate AllOrigin(conf: Conf, c: World, d: World) {
    c.members.Keys == d.members.Keys == conf.Keys
      && forall h :: h in d.members ==> Origin(conf, c, h, d.members[h])
  }

  /** Nothing is on its way yet. */
  predicate OnlyQueued(m: Member) { m.node.fromPeers == [] && m.node.pending == [] && m.flight == [] }

  lemma StartOrigin(conf: Conf, c: World)
    requires c.members.Keys == conf.Keys && forall h :: h in c.members ==> OnlyQueued(c.members[h])
    ensures AllOrigin(conf, c, c)
  {
    hide Leaves, FileInfo.DiskPath;
    forall h, e | h in c.members && e in c.members[h].node.toPeers ensures Stems(c, h, e) {
      assert Kin(e, e) && Queues(c, h, e);
    }
  }

  // ---- The steps of one member ---------------------------------------------

  lemma StemsKin(c: World, p: string, e: FileInfo, d: FileInfo)
    requires Stems(c, p, e) && Kin(d, e)
    ensures Stems(c, p, d)
  {
    var f :| Kin(e, f) && Offerable(c, p, f);
    assert Kin(d, f);
  }

  lemma CameKin(conf: Conf, c: World, h: string, e: FileInfo, d: FileInfo)
    requires Came(conf, c, h, e) && Kin(d, e)
    ensures Came(conf, c, h, d)
  {
    hide Reaches;
    var f :| Kin(e, f) && Reaches(conf, c, h, f);
    assert Kin(d, f);
  }

  /** A migrated file that may come to a node may be offered by it. */
  lemma CameStems(conf: Conf, c: World, h: string, e: FileInfo)
    requires Came(conf, c, h, e) && e.offSet == MIGRATED
    ensures Stems(c, h, e)
  {
    hide Firm;
    var f :| Kin(e, f) && Reaches(conf, c, h, f);
    assert Offerable(c, h, f);
  }

  /** A fetch of what may come to a node does not delete what the node knows it has. */
  lemma FirmLeft(conf: Conf, c: World, h: string, e: FileInfo, md5: Sum)
    requires Came(conf, c, h, e) && Firm(conf, c, h, md5)
    ensures var r := c.members[h].node.index.ldb[md5];
      r.offSet == WHOLE ==> Leaves(conf[h], e, r.DiskPath(conf[h]))
  {
    hide Reaches, FileInfo.DiskPath, Transfer.TmpPath, Transfer.OfferPath;
    var f :| Kin(e, f) && Reaches(conf, c, h, f);
    ReachesQueued(conf, c, h, f);
    KinTouches(conf[h], e, f, "");
  }

  lemma ReceivedOrigin(conf: Conf, c: World, h: string, m: Member, net: Transfer.Net)
    requires h in c.members && h in conf && conf[h].distinct && Origin(conf, c, h, m)
    requires m.node.fromPeers != [] && Arrives(m.node.fromPeers[0], net)
    ensures Origin(conf, c, h, Received(conf[h], m, net))
  {
    hide Received, OffersOwn, Stems, Came, FileInfo.DiskPath, Firm, Leaves;
    var n, info := Received(conf[h], m, net), m.node.fromPeers[0];
    ReceivedWell(conf[h], m, net);
    assert info in m.node.fromPeers;
    CameKin(conf, c, h, info, Transfer.Tried(info));
    if OffersOwn(conf[h], m) {
      CameStems(conf, c, h, info);
      StemsKin(c, h, info, n.flight[|m.flight|].info);
    }
    forall k | Firm(conf, c, h, k) ensures StillKnows(conf, c, h, n, k) {
      FirmContent(conf, c, h, k);
      FirmLeft(conf, c, h, info, k);
      FetchKeeps(conf[h], m, net, c.members[h].node.index.ldb[k].DiskPath(conf[h]));
    }
  }

  lemma FirmContent(conf: Conf, c: World, h: string, md5: Sum)
    requires Firm(conf, c, h, md5)
    ensures md5.OfContent? && h in c.members && h in conf && md5 in c.members[h].node.index.ldb
  {
  }

  lemma WrittenOrigin(conf: Conf, c: World, h: string, m: Member)
    requires h in c.members && h in conf && Origin(conf, c, h, m) && m.node.pending != []
    ensures Origin(conf, c, h, m.(node := Consumed(m.node)))
  {
    hide Stems, Came, FileInfo.FullPath, Firm;
    var e := m.node.pending[0];
    assert e in m.node.pending;
    forall k | Firm(conf, c, h, k) ensures StillKnows(conf, c, h, m.(node := Consumed(m.node)), k) {
      FirmContent(conf, c, h, k);
      if e.log == Files && e.info.md5 == k { FirmNotCome(conf, c, h, e.info); }
    }
  }

  lemma FirmNotCome(conf: Conf, c: World, h: string, e: FileInfo)
    requires Came(conf, c, h, e) && e.offSet != MIGRATED
    ensures !Firm(conf, c, h, e.md5)
  {
    hide Firm;
    var f :| Kin(e, f) && Reaches(conf, c, h, f);
  }

  lemma ForgottenOrigin(conf: Conf, c: World, h: string, m: Member, md5: Sum)
    requires h in c.members && h in conf && Origin(conf, c, h, m) && Stale(conf[h], m, md5)
    ensures Origin(conf, c, h, Forgetting(m, md5))
  {
    hide Stems, Came, FileInfo.DiskPath, Firm;
    forall k | Firm(conf, c, h, k) ensures StillKnows(conf, c, h, Forgetting(m, md5), k) {
      FirmContent(conf, c, h, k);
      assert StillKnows(conf, c, h, m, k);
    }
  }

  // ---- An exchange ---------------------------------------------------------

  /** The member that offers, after the turn. */
  function Offered(cfg: Config, m: Member, i: nat, answer: Answer): Member
    requires i < |m.flight| && m.flight[i].next < |cfg.peers|
  {
    var pass := m.flight[i];
    var r := Turn(cfg, m.node, pass.info, cfg.peers[pass.next], Transfer.Local(cfg, m.disk, pass.info), answer);
    m.(node := r.node, flight := m.flight[i := Pass(r.info, pass.next + 1)])
  }

  /** The peer takes the offer in this turn. */
  predicate Delivers(cfg: Config, m: Member, i: nat, answer: Answer)
    requires i < |m.flight| && m.flight[i].next < |cfg.peers|
  {
    && cfg.peers[m.flight[i].next] !in m.flight[i].info.peers
    && Transfer.Local(cfg, m.disk, m.flight[i].info).Some? && answer.Accepted?
  }

  /** The record that it takes. */
  function Announced(cfg: Config, m: Member, i: nat): FileInfo
    requires i < |m.flight| && Transfer.Local(cfg, m.disk, m.flight[i].info).Some?
  {
    Stored(Measured(m.flight[i].info, Transfer.Local(cfg, m.disk, m.flight[i].info).value))
  }

  /** The members an exchange leads to: the two partners change, and nobody else. */
  lemma Exchanging(conf: Conf, c: World, h: string, i: nat, answer: Answer)
    requires Proper(conf) && Enabled(conf, c, Exchange(h, i, answer)) && (answer.Found? || answer.Accepted?)
    ensures
      var d, m := Exchanged(conf[h], c, h, i, answer), c.members[h];
      var peer := conf[h].peers[m.flight[i].next];
      && peer != h && peer in c.members && peer in conf[h].peers
      && d.members.Keys == c.members.Keys
      && d.members[h] == Offered(conf[h], m, i, answer)
      && d.members[peer] == (if Delivers(conf[h], m, i, answer)
           then c.members[peer].(node := Taken(c.members[peer].node, Announced(conf[h], m, i)))
           else c.members[peer])
      && forall q :: q in c.members && q != h && q != peer ==> d.members[q] == c.members[q]
  {
    hide Turn, Taken, Measured, Stored, Transfer.Local;
    assert conf[h].peers[c.members[h].flight[i].next] in conf[h].peers;
  }

  /** An answered turn: the record is written back with one more peer, unless it names the
      peer already or the node has no copy; nothing else changes at the node. */
  lemma Answered(cfg: Config, s: Node, info: FileInfo, peer: string, local: Option<nat>, answer: Answer)
    requires answer.Found? || answer.Accepted?
    ensures var r := Turn(cfg, s, info, peer, local, answer);
      && r.node == s.(index := r.node.index)
      && Like(r.info, info) && r.info.retry == info.retry
      && (r.info.size == info.size || (local.Some? && r.info.size == Measured(info, local.value).size))
      && (if peer in info.peers || local.None? then r.info.peers == info.peers && r.node.index == s.index
          else r.info.peers == info.peers + [peer] && r.node.index == PutIndex(s.index, info.md5, r.info))
  {
    hide PutIndex;
  }

  lemma PassReplaced(flight: seq<Pass>, i: nat, x: Pass)
    requires i < |flight|
    ensures x in flight[i := x] && flight[i] in flight
    ensures forall y :: y in flight ==> y == flight[i] || y in flight[i := x]
    ensures forall y :: y in flight[i := x] ==> y == x || y in flight
  {
    var g := flight[i := x];
    assert g[i] == x;
    forall y | y in flight ensures y == flight[i] || y in g {
      var j :| 0 <= j < |flight| && flight[j] == y;
      if j != i { assert g[j] == y; }
    }
  }

  lemma OfferedOrigin(conf: Conf, c: World, h: string, m: Member, i: nat, answer: Answer)
    requires h in c.members && h in conf && Origin(conf, c, h, m)
    requires i < |m.flight| && m.flight[i].next < |conf[h].peers| && (answer.Found? || answer.Accepted?)
    ensures Origin(conf, c, h, Offered(conf[h], m, i, answer))
  {
    hide Stems, Came, Turn, Transfer.Local, Firm, FileInfo.DiskPath;
    var pass, n := m.flight[i], Offered(conf[h], m, i, answer);
    Answered(conf[h], m.node, pass.info, conf[h].peers[pass.next], Transfer.Local(conf[h], m.disk, pass.info), answer);
    PassReplaced(m.flight, i, n.flight[i]);
    StemsKin(c, h, pass.info, n.flight[i].info);
    StemsKin(c, h, pass.info, Stored(n.flight[i].info));
    forall k | Firm(conf, c, h, k) ensures StillKnows(conf, c, h, n, k) {
      FirmContent(conf, c, h, k);
      if n.flight[i].info.md5 == k { FirmStems(conf, c, h, Stored(n.flight[i].info)); }
    }
  }

  /** What a node offers of a content that it knows is of the file that it indexed. */
  lemma FirmStems(conf: Conf, c: World, h: string, e: FileInfo)
    requires Stems(c, h, e) && Firm(conf, c, h, e.md5)
    ensures var r := c.members[h].node.index.ldb[e.md5];
      e.offSet == WHOLE ==> r.offSet == WHOLE && e.DiskPath(conf[h]) == r.DiskPath(conf[h])
  {
    var f :| Kin(e, f) && Offerable(c, h, f);
  }

  lemma TakenOrigin(conf: Conf, c: World, h: string, m: Member, e: FileInfo)
    requires h in c.members && h in conf && Origin(conf, c, h, m) && Came(conf, c, h, e)
    ensures Origin(conf, c, h, m.(node := Taken(m.node, e)))
  {
    hide Stems, Came, Firm, FileInfo.DiskPath;
    forall k | Firm(conf, c, h, k) ensures StillKnows(conf, c, h, m.(node := Taken(m.node, e)), k) {
      FirmContent(conf, c, h, k);
    }
  }

  /** What a peer takes may come to it: if it knew the content, it would have said so. */
  lemma AnnouncedCame(conf: Conf, c: World, d: World, h: string, i: nat, answer: Answer)
    requires Proper(conf) && AllOrigin(conf, c, d) && Succeeds(conf, d, Exchange(h, i, answer)) && conf[h].distinct
    requires Delivers(conf[h], d.members[h], i, answer)
    ensures Came(conf, c, conf[h].peers[d.members[h].flight[i].next], Announced(conf[h], d.members[h], i))
  {
    hide Transfer.Local, Origin, Came, Stems, Firm, FileInfo.DiskPath;
    var m, pass := d.members[h], d.members[h].flight[i];
    var peer := conf[h].peers[pass.next];
    assert peer in conf[h].peers;
    assert Stems(c, h, pass.info) by {
      assert pass in m.flight && Origin(conf, c, h, m);
      FlightStems(conf, c, h, m, i);
    }
    if pass.info.offSet != MIGRATED && Firm(conf, c, peer, pass.info.md5) {
      FirmContent(conf, c, peer, pass.info.md5);
      FirmKnown(conf, c, peer, d.members[peer], pass.info.md5);
    }
    StemsCame(conf, c, h, peer, pass.info, Announced(conf[h], m, i));
  }

  lemma FlightStems(conf: Conf, c: World, h: string, m: Member, i: nat)
    requires h in c.members && h in conf && Origin(conf, c, h, m) && i < |m.flight|
    ensures Stems(c, h, m.flight[i].info)
  {
    hide Stems, Came, Firm, StillKnows;
    assert m.flight[i] in m.flight;
  }

  lemma FirmKnown(conf: Conf, c: World, h: string, m: Member, md5: Sum)
    requires h in c.members && h in conf && Origin(conf, c, h, m) && Firm(conf, c, h, md5)
    ensures Knows(conf[h], m, md5) && !Stale(conf[h], m, md5)
  {
    hide Stems, Came, Firm, FileInfo.DiskPath;
    FirmContent(conf, c, h, md5);
    assert StillKnows(conf, c, h, m, md5);
  }

  lemma StemsCame(conf: Conf, c: World, p: string, h: string, e: FileInfo, d: FileInfo)
    requires Stems(c, p, e) && Kin(d, e) && p in conf && h in conf[p].peers && h in c.members
    requires e.offSet == MIGRATED || !Firm(conf, c, h, e.md5)
    ensures Came(conf, c, h, d)
  {
    hide Offerable, Firm;
    var f :| Kin(e, f) && Offerable(c, p, f);
    assert Kin(d, f) && Reaches(conf, c, h, f);
  }

  // ---- Whole drains --------------------------------------------------------

  lemma MovedOrigin(conf: Conf, c: World, h: string, m: Member, n: Member)
    requires h in c.members && h in conf && Origin(conf, c, h, m)
    requires n.node == m.node.(toPeers := n.node.toPeers) && forall e :: e in n.node.toPeers ==> e in m.node.toPeers
    requires forall x :: x in n.flight ==> x in m.flight || x.info in m.node.toPeers
    requires n.disk == m.disk
    ensures Origin(conf, c, h, n)
  {
    hide Stems, Came, Firm, FileInfo.DiskPath;
  }

  lemma StepOrigin(conf: Conf, c: World, d: World, a: Action)
    requires Proper(conf) && Unified(conf) && AllOrigin(conf, c, d) && Succeeds(conf, d, a)
    ensures AllOrigin(conf, c, Next(conf, d, a))
  {
    hide Origin, Exchanged, Consumed, Received, StillOwed, Offered, Taken, Announced, Transfer.Local, Forgetting, Stale;
    var m, e := d.members[a.h], Next(conf, d, a);
    assert Origin(conf, c, a.h, m);
    match a
    case Start(h) => MovedOrigin(conf, c, h, m, e.members[h]);
    case End(h, i) => MovedOrigin(conf, c, h, m, e.members[h]);
    case WriteLog(h) => WrittenOrigin(conf, c, h, m);
    case Fetch(h, net) => ReceivedOrigin(conf, c, h, m, net);
    case Ask(h, md5) => ForgottenOrigin(conf, c, h, m, md5);
    case Exchange(h, i, answer) =>
      Exchanging(conf, d, h, i, answer);
      OfferedOrigin(conf, c, h, m, i, answer);
      var peer := conf[h].peers[m.flight[i].next];
      assert Origin(conf, c, peer, d.members[peer]);
      if Delivers(conf[h], m, i, answer) {
        AnnouncedCame(conf, c, d, h, i, answer);
        TakenOrigin(conf, c, peer, d.members[peer], Announced(conf[h], m, i));
      }
    case _ =>
  }

  /** Copies are unified everywhere: nodes are asked before they are offered a file. */
  predicate Unified(conf: Conf) { forall h :: h in conf ==> conf[h].distinct }

  /** However a drain goes, what a node offers or is to fetch at any time stems from a record that
      was queued at its start, at that node or at one that has it as a peer. */
  lemma {:induction false} DrainOrigin(conf: Conf, c: World, actions: seq<Action>)
    requires Proper(conf) && Unified(conf) && c.members.Keys == conf.Keys && Drain(conf, c, actions).Some?
    requires forall h :: h in c.members ==> OnlyQueued(c.members[h])
    ensures AllOrigin(conf, c, Drain(conf, c, actions).value)
  {
    hide AllOrigin, Next, Succeeds, OnlyQueued;
    if actions == [] {
      StartOrigin(conf, c);
    } else {
      var init := actions[..|actions| - 1];
      DrainOrigin(conf, c, init);
      StepOrigin(conf, c, Drain(conf, c, init).value, actions[|actions| - 1]);
    }
  }

  // ---- What a fetch does to a file -----------------------------------------

  function SizeAt(disk: map<string, Transfer.OnDisk>, path: string): Option<nat> {
    if path in disk then Some(|disk[path].bytes|) else None
  }

  /** A fetch of the record may write or delete at the path: the file, and the temporary one,
      or for a small file its blob. */
  predicate Touches(cfg: Config, f: FileInfo, path: string) {
    if f.offSet >= 0 then Split(f.DiskPath(cfg), ',')[0] == path
    else f.DiskPath(cfg) == path || Transfer.TmpPath(cfg, f) == path
  }

  lemma KinTouches(cfg: Config, e: FileInfo, f: FileInfo, path: string)
    requires Kin(e, f)
    ensures e.DiskPath(cfg) == f.DiskPath(cfg) && Transfer.TmpPath(cfg, e) == Transfer.TmpPath(cfg, f)
    ensures Transfer.OfferPath(cfg, e) == Transfer.OfferPath(cfg, f)
    ensures Touches(cfg, e, path) == Touches(cfg, f, path)
  {
  }

  /** A fetch touches nothing else, and in a blob it removes nothing. */
  lemma FetchLeaves(cfg: Config, m: Member, net: Transfer.Net, path: string)
    requires m.node.fromPeers != [] && cfg.distinct
    ensures !Touches(cfg, m.node.fromPeers[0], path) ==>
              SizeAt(Received(cfg, m, net).disk, path) == SizeAt(m.disk, path)
    ensures m.node.fromPeers[0].offSet >= 0 && path in m.disk ==> path in Received(cfg, m, net).disk
  {
    hide FileInfo.DiskPath, Transfer.TmpPath, Transfer.PeerOf, Transfer.AlreadyThere, Replica.WriteAt, Text.Split;
    hide PutIndex, Protocol.Posting;
    Transfer.TmpIsOther(cfg, m.node.fromPeers[0]);
  }

  /** A file stays unless it is the one that is replaced, or the temporary one. */
  lemma FetchKeeps(cfg: Config, m: Member, net: Transfer.Net, path: string)
    requires m.node.fromPeers != [] && cfg.distinct && Arrives(m.node.fromPeers[0], net)
    ensures Leaves(cfg, m.node.fromPeers[0], path) && path in m.disk ==> path in Received(cfg, m, net).disk
  {
    hide FileInfo.DiskPath, Transfer.TmpPath, Transfer.PeerOf, Transfer.AlreadyThere, Replica.WriteAt, Text.Split;
    hide PutIndex, Protocol.Posting;
    Transfer.TmpIsOther(cfg, m.node.fromPeers[0]);
  }
}
