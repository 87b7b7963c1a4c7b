/** Nodes that replicate to each other, as a machine whose steps may interleave in any way
    and whose exchanges may fail in any way. */
module Cluster {
  import opened Types
  import opened Index
  import opened Text
  import opened Totals
  import opened Protocol
  import Haystack
  import Replica
  import Transfer

  /** A call of postFileToPeer in progress: its record, and the position it has reached in
      the configured peers. */
  datatype Pass = Pass(info: FileInfo, next: nat)

  /** A content that was stored under a path: as a whole file, or from the offset on. */
  datatype Copy = Copy(md5: Sum, path: string, offSet: int)

  function CopyOf(cfg: Config, info: FileInfo): Copy {
    Copy(info.md5, Transfer.OfferPath(cfg, info), info.offSet)
  }

  /** The content is there. */
  predicate Holds(disk: map<string, Transfer.OnDisk>, x: Copy) {
    && x.md5.OfContent? && x.path in disk
    && var b := disk[x.path].bytes;
    if x.offSet < 0 then b == x.md5.bytes
    else x.offSet + |x.md5.bytes| < |b| && b[x.offSet..x.offSet + |x.md5.bytes| + 1] == [Haystack.MARKER] + x.md5.bytes
  }

  /** A node, the calls in progress there, and its disk. */
  datatype Member = Member(node: Node, flight: seq<Pass>, disk: map<string, Transfer.OnDisk>)

  /** The members; who has taken which content, by uploading it or by taking an offer of it;
      which contents were uploaded where; and which uploaded copies are still there: neither
      deleted nor overwritten since, by whatever step. An upload that was dropped as a
      duplicate is not one of these. */
  datatype World = World(
    members: map<string, Member>,
    accepted: set<(string, Sum)>,
    uploaded: set<(string, Sum)>,
    owed: set<(string, Copy)>)

  type Conf = map<string, Config>

  datatype Action =
    | Upload(h: string, info: FileInfo)
    | Start(h: string)
    | Exchange(h: string, i: nat, answer: Answer)
    | End(h: string, i: nat)
    | WriteLog(h: string)
    | Fetch(h: string, net: Transfer.Net)
    | Resend(h: string, md5: Sum, force: bool, toPeers: bool)
    | Repair(h: string, md5: Sum)
    | Remove(h: string, md5: Sum, fails: bool)
    | Ask(h: string, md5: Sum)
    | Stray(h: string, path: string, file: Transfer.OnDisk)

  // ---- The steps -----------------------------------------------------------

  function With(c: World, h: string, m: Member): World { c.(members := c.members[h := m]) }

  /** The uploaded copies that are still there, when the node's disk is this one. */
  function StillOwed(owed: set<(string, Copy)>, h: string, disk: map<string, Transfer.OnDisk>): set<(string, Copy)> {
    set x | x in owed && (x.0 == h ==> Holds(disk, x.1))
  }

  /** A step of h that may change its disk. */
  function Changed(c: World, h: string, m: Member): World { With(c, h, m).(owed := StillOwed(c.owed, h, m.disk)) }

  /** The peer takes the offer. */
  function Delivered(c: World, p: string, info: FileInfo): World {
    if p !in c.members then c else
    var m := c.members[p];
    With(c, p, m.(node := Taken(m.node, Stored(info)))).(accepted := c.accepted + {(p, info.md5)})
  }

  function Without<T>(s: seq<T>, i: nat): seq<T>
    requires i < |s|
  {
    s[..i] + s[i + 1..]
  }

  /** One turn of a call in progress, with its effect on the peer. */
  function Exchanged(cfg: Config, c: World, h: string, i: nat, answer: Answer): World
    requires h in c.members && i < |c.members[h].flight| && c.members[h].flight[i].next < |cfg.peers|
  {
    var m := c.members[h];
    var pass := m.flight[i];
    var peer := cfg.peers[pass.next];
    var local := Transfer.Local(cfg, m.disk, pass.info);
    var r := Turn(cfg, m.node, pass.info, peer, local, answer);
    var d := With(c, h, m.(node := r.node, flight := m.flight[i := Pass(r.info, pass.next + 1)]));
    if peer !in pass.info.peers && local.Some? && (answer.Accepted? || (answer.Lost? && answer.delivered))
    then Delivered(d, peer, Measured(pass.info, local.value)) else d
  }

  /** The content is indexed already: the upload answers from the index. */
  predicate Duplicate(cfg: Config, s: Node, md5: Sum) {
    cfg.distinct && md5 in s.index.ldb && !s.index.ldb[md5].md5.Unset?
  }

  /** A whole file of the announced size; or a small one, at the end of its blob. */
  predicate Stores(cfg: Config, disk: map<string, Transfer.OnDisk>, info: FileInfo) {
    && info.md5.OfContent?
    && if info.offSet < 0 then info.offSet == WHOLE && info.size == |info.md5.bytes|
       else info.reName != "" && info.offSet == |Transfer.Blob(disk, Transfer.OfferPath(cfg, info))|
            && info.size == |info.md5.bytes| + 1
  }

  function Storing(cfg: Config, disk: map<string, Transfer.OnDisk>, info: FileInfo): map<string, Transfer.OnDisk>
    requires Stores(cfg, disk, info)
  {
    var path := Transfer.OfferPath(cfg, info);
    var bytes := if info.offSet < 0 then info.md5.bytes
                 else Transfer.Blob(disk, path) + ([Haystack.MARKER] + info.md5.bytes);
    disk[path := Transfer.OnDisk(bytes, info.timeStamp)]
  }

  function Uploaded(cfg: Config, c: World, h: string, info: FileInfo): World
    requires h in c.members && Stores(cfg, c.members[h].disk, info)
  {
    var m := c.members[h];
    var n := m.node;
    var flight := m.flight + [Pass(info, 0)];
    var d := Changed(c, h, Member(n.(index := SaveLog(n.index, info, Files)), flight, Storing(cfg, m.disk, info)));
    d.(accepted := d.accepted + {(h, info.md5)},
       uploaded := d.uploaded + {(h, info.md5)},
       owed := d.owed + {(h, CopyOf(cfg, info))})
  }

  /** The node as DownloadFromPeer sees it, once the first record is out of its queue. */
  function Working(m: Member): Transfer.Node
    requires m.node.fromPeers != []
  {
    Transfer.Node(m.disk, m.node.index, m.node.pending, m.node.fromPeers[1..], m.node.toPeers)
  }

  /** In its next turn the download worker will offer the node's own, newer file. */
  predicate OffersOwn(cfg: Config, m: Member) {
    && m.node.fromPeers != [] && Transfer.PeerOf(cfg, m.node.fromPeers[0].peers).Some?
    && Transfer.KeepsOwn(cfg, Working(m), m.node.fromPeers[0])
  }

  /** One turn of the download worker. If the node keeps its own, newer file, it starts a call
      of postFileToPeer for it. */
  function Received(cfg: Config, m: Member, net: Transfer.Net): Member
    requires m.node.fromPeers != []
  {
    var info, s := m.node.fromPeers[0], Working(m);
    if Transfer.PeerOf(cfg, info.peers).None? then m.(node := Transfer.Base(s))
    else if OffersOwn(cfg, m) then
      Member(Transfer.Base(s), m.flight + [Pass(Transfer.Newer(cfg, s, Transfer.Tried(info)), 0)], m.disk)
    else
      var t := Transfer.Download(cfg, s, info, net);
      Member(Transfer.Base(t), m.flight, t.disk)
  }

  /** Asked whether it has the content, the node answers that it has: it is indexed, and if as a
      whole file, that is on disk. */
  predicate Knows(cfg: Config, m: Member, md5: Sum) {
    && md5 in m.node.index.ldb && !m.node.index.ldb[md5].md5.Unset?
    && (m.node.index.ldb[md5].offSet == WHOLE ==> m.node.index.ldb[md5].DiskPath(cfg) in m.disk)
  }

  /** It would be found to have lost the file, and taken from the index. */
  predicate Stale(cfg: Config, m: Member, md5: Sum) {
    && md5 in m.node.index.ldb && m.node.index.ldb[md5].offSet == WHOLE
    && m.node.index.ldb[md5].DiskPath(cfg) !in m.disk
  }

  /** The node has been asked for a content whose file is lost. */
  function Forgetting(m: Member, md5: Sum): Member {
    m.(node := m.node.(index := m.node.index.(ldb := m.node.index.ldb - {md5})))
  }

  /** But for the offer of a newer file, which takes turns of its own here, this is the turn of the
      worker with that answer of the peer. */
  lemma ReceivedIsConsumed(cfg: Config, m: Member, net: Transfer.Net)
    requires m.node.fromPeers != [] && !OffersOwn(cfg, m)
    ensures var n, s := m.node, Received(cfg, m, net);
      Transfer.Node(s.disk, s.node.index, s.node.pending, s.node.fromPeers, s.node.toPeers) ==
        Transfer.Consume(cfg, Transfer.Node(m.disk, n.index, n.pending, n.fromPeers, n.toPeers), _ => net)
    ensures Received(cfg, m, net).flight == m.flight
  {
    hide Transfer.Download, Transfer.PeerOf;
  }

  predicate Enabled(conf: Conf, c: World, a: Action) {
    && a.h in c.members && a.h in conf
    && var m := c.members[a.h];
    match a
    case Upload(h, info) =>
      info.peers == [h] && info.retry == 0 && Stores(conf[h], m.disk, info)
    case Start(_) => m.node.toPeers != []
    case Exchange(h, i, answer) =>
      && i < |m.flight| && m.flight[i].next < |conf[h].peers|
      && var peer := conf[h].peers[m.flight[i].next];
      && peer in c.members
      && (answer.Found? ==>
          AsksFirst(conf[h], m.flight[i].info) && peer in conf
          && Knows(conf[peer], c.members[peer], m.flight[i].info.md5))
    case End(h, i) => i < |m.flight| && m.flight[i].next >= |conf[h].peers|
    case WriteLog(_) => m.node.pending != []
    case Fetch(_, _) => m.node.fromPeers != []
    case Resend(h, md5, force, _) => Resendable(conf[h], m.node, md5, force).Some?
    case Repair(_, md5) => md5 in m.node.index.ldb
    case Remove(h, md5, _) =>
      && md5 in m.node.index.ldb && md5.OfContent?
      && var info := m.node.index.ldb[md5];
      info.offSet < 0 && info.path != "" && info.DiskPath(conf[h]) in m.disk
    case Ask(h, md5) => Stale(conf[h], m, md5)
    case Stray(_, _, _) => true
  }

  /** Nobody is asked about a migrated file, or where copies are not unified; and a peer that does
      not index the content, or has lost its file, does not say that it has it. */
  lemma NotFound(conf: Conf, c: World, h: string, i: nat)
    requires h in c.members && h in conf && i < |c.members[h].flight| && c.members[h].flight[i].next < |conf[h].peers|
    requires var info, peer := c.members[h].flight[i].info, conf[h].peers[c.members[h].flight[i].next];
      || !conf[h].distinct || info.offSet == MIGRATED
      || (peer in c.members && info.md5 !in c.members[peer].node.index.ldb)
      || (peer in c.members && peer in conf && Stale(conf[peer], c.members[peer], info.md5))
    ensures !Enabled(conf, c, Exchange(h, i, Found))
  {
  }

  function Next(conf: Conf, c: World, a: Action): World
    requires Enabled(conf, c, a)
  {
    var m := c.members[a.h];
    var n := m.node;
    match a
    case Upload(h, info) => if Duplicate(conf[h], n, info.md5) then c else Uploaded(conf[h], c, h, info)
    case Start(h) =>
      With(c, h, m.(node := n.(toPeers := n.toPeers[1..]), flight := m.flight + [Pass(n.toPeers[0], 0)]))
    case Exchange(h, i, answer) => Exchanged(conf[h], c, h, i, answer)
    case End(h, i) => With(c, h, m.(flight := Without(m.flight, i)))
    case WriteLog(h) => With(c, h, m.(node := Consumed(n)))
    case Fetch(h, net) => Changed(c, h, Received(conf[h], m, net))
    case Resend(h, md5, force, toPeers) =>
      var info := Resendable(conf[h], n, md5, force).value;
      With(c, h,
          m.(node := if toPeers then n.(toPeers := n.toPeers + [info]) else n.(fromPeers := n.fromPeers + [info])))
    case Repair(h, md5) => With(c, h, m.(node := n.(toPeers := n.toPeers + [n.index.ldb[md5]])))
    case Remove(h, md5, fails) =>
      var info := n.index.ldb[md5];
      Changed(c, h, m.(node := n.(pending := n.pending + [LogEntry(info, Removes)]),
                       disk := if fails then m.disk else m.disk - {info.DiskPath(conf[h])}))
    case Ask(h, md5) => With(c, h, Forgetting(m, md5))
    case Stray(h, path, file) => Changed(c, h, m.(disk := m.disk[path := file]))
  }

  /** An upload that is possible is dropped if the content is indexed and copies are unified.
      Otherwise it is on disk and indexed afterwards, with a call that has every peer before it,
      and its node counts as one that has taken it. */
  lemma UploadStores(conf: Conf, c: World, h: string, info: FileInfo)
    requires Enabled(conf, c, Upload(h, info))
    ensures var d, ldb := Next(conf, c, Upload(h, info)), c.members[h].node.index.ldb;
      if conf[h].distinct && info.md5 in ldb && ldb[info.md5].md5 != Unset then d == c
      else
        && h in d.members && d.members[h].flight == c.members[h].flight + [Pass(info, 0)]
        && info.md5 in d.members[h].node.index.ldb && d.members[h].node.index.ldb[info.md5] == info
        && (h, info.md5) in d.accepted && (h, info.md5) in d.uploaded && (h, CopyOf(conf[h], info)) in d.owed
        && (forall q :: q in c.members && q != h ==> q in d.members && d.members[q] == c.members[q])
  {
    hide Transfer.OfferPath, Holds, FileInfo.FullPath, Storing;
    Added(c.members[h].node.index, info);
  }

  /** A resend and a repair put the indexed record, as it is to be sent, at the end of a queue. */
  lemma QueuesRecord(conf: Conf, c: World, h: string, md5: Sum, force: bool, toPeers: bool)
    ensures Enabled(conf, c, Repair(h, md5)) ==>
              var s, d := c.members[h].node, Next(conf, c, Repair(h, md5));
              d == With(c, h, c.members[h].(node := s.(toPeers := s.toPeers + [s.index.ldb[md5]])))
    ensures Enabled(conf, c, Resend(h, md5, force, toPeers)) ==>
              var s, d := c.members[h].node, Next(conf, c, Resend(h, md5, force, toPeers));
              md5 in s.index.ldb && exists e ::
                && AsSent(conf[h], s.index.ldb[md5], e, force)
                && d == With(c, h, c.members[h].(node := if toPeers then s.(toPeers := s.toPeers + [e])
                                                         else s.(fromPeers := s.fromPeers + [e])))
  {
    if Enabled(conf, c, Resend(h, md5, force, toPeers)) { SentOne(conf[h], c.members[h].node, md5, force); }
  }

  function Fresh(conf: Conf, today: nat): World {
    World(map h | h in conf :: Member(Node(Index.Initial(today), [], [], []), [], map[]), {}, {}, {})
  }

  /** The state after the actions, if each of them was possible when it was taken. */
  function Run(conf: Conf, today: nat, actions: seq<Action>): Option<World> {
    if actions == [] then Some(Fresh(conf, today)) else
    var before := Run(conf, today, actions[..|actions| - 1]);
    if before.Some? && Enabled(conf, before.value, actions[|actions| - 1])
    then Some(Next(conf, before.value, actions[|actions| - 1])) else None
  }

  /** Every node is known by its own name, and is not its own peer. */
  predicate Proper(conf: Conf) {
    forall h :: h in conf ==> conf[h].host == h && h !in conf[h].peers
  }

  // ---- Lists of peers name only nodes that have taken the content ----------

  type Taking = set<(string, Sum)>

  /** The node h, and every node that the record names, has taken the content, which was
      not migrated. */
  predicate Vouched(taken: Taking, h: string, info: FileInfo) {
    && info.md5.OfContent? && info.offSet != MIGRATED && info.retry >= 0
    && (h, info.md5) in taken
    && info.peers != [] && Distinct(info.peers)
    && forall q :: q in info.peers ==> (q, info.md5) in taken
  }

  ghost predicate IndexVouched(taken: Taking, h: string, ldb: map<Sum, FileInfo>) {
    forall k :: k in ldb ==> Vouched(taken, h, ldb[k]) && (k.OfContent? ==> ldb[k].md5 == k) && ldb[k].retry == 0
  }

  /** Every record the node holds is vouched for. */
  ghost predicate NodeVouched(taken: Taking, h: string, s: Node) {
    && IndexVouched(taken, h, s.index.ldb)
    && (forall e :: e in s.pending ==> Vouched(taken, h, e.info))
    && (forall e :: e in s.toPeers ==> Vouched(taken, h, e))
    && (forall e :: e in s.fromPeers ==> Vouched(taken, h, e))
  }

  ghost predicate MemberVouched(taken: Taking, h: string, m: Member) {
    NodeVouched(taken, h, m.node) && forall p :: p in m.flight ==> Vouched(taken, h, p.info)
  }

  ghost predicate AllVouched(c: World) {
    && (forall h :: h in c.members ==> MemberVouched(c.accepted, h, c.members[h]))
    && (forall q: (string, Sum) :: q in c.accepted ==> q.0 in c.members)
  }

  lemma MemberGrows(taken: Taking, more: Taking, h: string, m: Member)
    requires MemberVouched(taken, h, m) && taken <= more
    ensures MemberVouched(more, h, m)
  {
  }

  /** It is enough to look at the member that changed. */
  lemma WithVouched(c: World, h: string, m: Member, more: Taking)
    requires AllVouched(c) && h in c.members && c.accepted <= more
    requires MemberVouched(more, h, m) && forall q: (string, Sum) :: q in more ==> q.0 in c.members
    ensures AllVouched(With(c, h, m).(accepted := more))
  {
    hide MemberVouched, Vouched;
    var d := With(c, h, m).(accepted := more);
    forall q | q in d.members ensures MemberVouched(more, q, d.members[q]) {
      if q != h { MemberGrows(c.accepted, more, q, c.members[q]); }
    }
  }

  lemma SavedVouched(taken: Taking, h: string, s: State, info: FileInfo, log: Log)
    requires IndexVouched(taken, h, s.ldb) && Vouched(taken, h, info)
    ensures IndexVouched(taken, h, SaveLog(s, info, log).ldb)
  {
    hide FileInfo.FullPath, Distinct;
    if log.Files? { Added(s, info); }
    else if log.Removes? { Removed(s, info); }
  }

  lemma TurnVouched(taken: Taking, h: string, cfg: Config, s: Node, info: FileInfo, peer: string,
                    local: Option<nat>, answer: Answer)
    requires NodeVouched(taken, h, s) && Vouched(taken, h, info)
    requires peer !in info.peers && local.Some? && (answer.Found? || answer.Accepted?) ==> (peer, info.md5) in taken
    ensures var r := Turn(cfg, s, info, peer, local, answer);
      NodeVouched(taken, h, r.node) && Vouched(taken, h, r.info)
  {
  }

  lemma TakenVouched(taken: Taking, h: string, s: Node, info: FileInfo)
    requires NodeVouched(taken, h, s) && Vouched(taken, h, info) && info.retry == 0
    ensures NodeVouched(taken, h, Taken(s, info))
  {
  }

  /** The peer takes an offer that is vouched for. */
  lemma DeliveredVouched(c: World, h: string, p: string, info: FileInfo)
    requires AllVouched(c) && p in c.members && Vouched(c.accepted, h, info)
    ensures AllVouched(Delivered(c, p, info))
  {
    hide NodeVouched, Taken;
    var more := c.accepted + {(p, info.md5)};
    var m := c.members[p];
    assert MemberVouched(c.accepted, p, m);
    MemberGrows(c.accepted, more, p, m);
    TakenVouched(more, p, m.node, Stored(info));
    WithVouched(c, p, m.(node := Taken(m.node, Stored(info))), more);
  }

  lemma AcceptingVouched(c: World, p: string, md5: Sum)
    requires AllVouched(c) && p in c.members
    ensures AllVouched(c.(accepted := c.accepted + {(p, md5)}))
  {
    hide MemberVouched;
    var more := c.accepted + {(p, md5)};
    MemberGrows(c.accepted, more, p, c.members[p]);
    WithVouched(c, p, c.members[p], more);
    assert c.members[p := c.members[p]] == c.members;
  }

  lemma ExchangeVouched(conf: Conf, c: World, h: string, i: nat, answer: Answer)
    requires AllVouched(c) && Enabled(conf, c, Exchange(h, i, answer))
    ensures AllVouched(Exchanged(conf[h], c, h, i, answer))
  {
    hide NodeVouched, Turn, Taken;
    var cfg, m := conf[h], c.members[h];
    var pass := m.flight[i];
    var peer, local := cfg.peers[pass.next], Transfer.Local(cfg, m.disk, pass.info);
    var takes := peer !in pass.info.peers && local.Some? && (answer.Accepted? || (answer.Lost? && answer.delivered));
    var e := if takes then c.(accepted := c.accepted + {(peer, pass.info.md5)}) else c;
    assert AllVouched(e) by {
      if takes { AcceptingVouched(c, peer, pass.info.md5); }
    }
    assert pass in m.flight;
    if answer.Found? { FoundTaken(conf, c, h, i, answer); }
    TurnVouched(e.accepted, h, cfg, m.node, pass.info, peer, local, answer);
    var r := Turn(cfg, m.node, pass.info, peer, local, answer);
    var d := With(e, h, m.(node := r.node, flight := m.flight[i := Pass(r.info, pass.next + 1)]));
    WithVouched(e, h, d.members[h], e.accepted);
    assert d == d.(accepted := e.accepted);
    if takes {
      DeliveredVouched(d, h, peer, Measured(pass.info, local.value));
    }
  }

  lemma FoundTaken(conf: Conf, c: World, h: string, i: nat, answer: Answer)
    requires AllVouched(c) && Enabled(conf, c, Exchange(h, i, answer)) && answer.Found?
    ensures var pass := c.members[h].flight[i]; (conf[h].peers[pass.next], pass.info.md5) in c.accepted
  {
  }

  lemma WrittenVouched(taken: Taking, h: string, s: Node)
    requires NodeVouched(taken, h, s)
    ensures NodeVouched(taken, h, Consumed(s))
  {
    hide SaveLog, Vouched;
    if s.pending != [] {
      var e := s.pending[0];
      assert e in s.pending;
      SavedVouched(taken, h, s.index, e.info, e.log);
    }
  }

  /** What a turn of the download worker can change, for a record that was not migrated. */
  lemma ReceivedShape(cfg: Config, m: Member, net: Transfer.Net)
    requires m.node.fromPeers != [] && m.node.fromPeers[0].offSet != MIGRATED
    ensures var n, info := Received(cfg, m, net), m.node.fromPeers[0];
      var rest, tried := m.node.fromPeers[1..], Transfer.Tried(info);
      && n.node.index == m.node.index && n.node.toPeers == m.node.toPeers
      && (n.node.pending == m.node.pending || n.node.pending == m.node.pending + [LogEntry(tried, Files)])
      && (n.node.fromPeers == rest || n.node.fromPeers == rest + [tried])
      && (!OffersOwn(cfg, m) ==> n.flight == m.flight)
      && (n.flight == m.flight
          || (n.flight != [] && n.flight[..|n.flight| - 1] == m.flight && n.flight[|m.flight|].next == 0
              && n.flight[|m.flight|].info == tried.(timeStamp := n.flight[|m.flight|].info.timeStamp)))
  {
    hide FileInfo.DiskPath, Transfer.TmpPath, Transfer.PeerOf, Transfer.AlreadyThere, Replica.WriteAt, Text.Split;
  }

  lemma ReceivedVouched(taken: Taking, h: string, cfg: Config, m: Member, net: Transfer.Net)
    requires MemberVouched(taken, h, m) && m.node.fromPeers != []
    ensures MemberVouched(taken, h, Received(cfg, m, net))
  {
    hide Received;
    var n, info := Received(cfg, m, net), m.node.fromPeers[0];
    assert info in m.node.fromPeers;
    ReceivedShape(cfg, m, net);
    if n.flight != m.flight {
      assert n.flight == m.flight + [n.flight[|m.flight|]];
    }
  }

  lemma ResendableVouched(taken: Taking, h: string, cfg: Config, s: Node, md5: Sum, force: bool)
    requires NodeVouched(taken, h, s) && cfg.host == h && Resendable(cfg, s, md5, force).Some?
    ensures Vouched(taken, h, Resendable(cfg, s, md5, force).value)
  {
  }

  /** Steps that change one member only, and add no acceptance. */
  lemma LocalVouched(conf: Conf, c: World, a: Action)
    requires Proper(conf) && AllVouched(c) && Enabled(conf, c, a)
    requires !a.Upload? && !a.Exchange? && !a.Remove?
    ensures MemberVouched(c.accepted, a.h, Next(conf, c, a).members[a.h])
  {
    hide Consumed, Resendable, Vouched, Received, StillOwed, FileInfo.DiskPath;
    var m := c.members[a.h];
    match a
    case WriteLog(h) => WrittenVouched(c.accepted, h, m.node);
    case Fetch(h, net) => ReceivedVouched(c.accepted, h, conf[h], m, net);
    case Start(h) => assert m.node.toPeers[0] in m.node.toPeers;
    case Resend(h, md5, force, _) => ResendableVouched(c.accepted, h, conf[h], m.node, md5, force);
    case _ =>
  }

  lemma StepVouched(conf: Conf, c: World, a: Action)
    requires Proper(conf) && AllVouched(c) && Enabled(conf, c, a)
    ensures AllVouched(Next(conf, c, a))
  {
    hide NodeVouched, Exchanged, Resendable, SaveLog, Received, StillOwed, Uploaded, FileInfo.DiskPath;
    var m, d := c.members[a.h], Next(conf, c, a);
    match a
    case Exchange(h, i, answer) => ExchangeVouched(conf, c, h, i, answer);
    case Upload(h, info) => if !Duplicate(conf[h], m.node, info.md5) { UploadVouched(conf, c, h, info); }
    case Remove(h, md5, _) =>
      assert MemberVouched(c.accepted, h, d.members[h]) by { RemoveVouched(c.accepted, h, m.node, md5); }
      WithVouched(c, h, d.members[h], c.accepted);
    case _ =>
      LocalVouched(conf, c, a);
      WithVouched(c, a.h, d.members[a.h], c.accepted);
      assert d.members == With(c, a.h, d.members[a.h]).members;
  }

  lemma UploadVouched(conf: Conf, c: World, h: string, info: FileInfo)
    requires AllVouched(c) && Enabled(conf, c, Upload(h, info))
    ensures AllVouched(Uploaded(conf[h], c, h, info))
  {
    hide SaveLog, CopyOf, StillOwed, Storing;
    var m, d := c.members[h], Uploaded(conf[h], c, h, info);
    MemberGrows(c.accepted, d.accepted, h, m);
    SavedVouched(d.accepted, h, m.node.index, info, Files);
    WithVouched(c, h, d.members[h], d.accepted);
  }

  lemma RemoveVouched(taken: Taking, h: string, s: Node, md5: Sum)
    requires NodeVouched(taken, h, s) && md5 in s.index.ldb
    ensures NodeVouched(taken, h, s.(pending := s.pending + [LogEntry(s.index.ldb[md5], Removes)]))
  {
  }

  lemma {:induction false} RunVouched(conf: Conf, today: nat, actions: seq<Action>)
    requires Proper(conf) && Run(conf, today, actions).Some?
    ensures AllVouched(Run(conf, today, actions).value)
  {
    hide Next, Enabled;
    if actions != [] {
      var init := actions[..|actions| - 1];
      RunVouched(conf, today, init);
      StepVouched(conf, Run(conf, today, init).value, actions[|actions| - 1]);
    }
  }
}
