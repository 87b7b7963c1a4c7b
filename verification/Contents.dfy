/** A store without duplicates on a node that also fetches: whether the indexed files still hold
    their contents. Queued log entries are written before the next request. */
module Contents {
  import opened Types
  import opened Index
  import Upload
  import Transfer
  import Protocol
  import Replica
  import Haystack
  import Text

  datatype Node = Node(disk: map<string, Transfer.OnDisk>, index: State)

  datatype Call = Put(req: Upload.Request) | Remove(key: Sum) | Fetch(info: FileInfo)

  /** What the environment adds: whether a file can be deleted, and what a transfer meets. */
  datatype Chance = Chance(removeFails: bool, net: Transfer.Net)

  /** What arrives is the content that was asked for. */
  predicate Honest(call: Call, x: Chance) {
    call.Fetch? && x.net.body.Some? ==> OfContent(x.net.body.value) == call.info.md5
  }

  // ---- The steps -----------------------------------------------------------

  function Stamped(was: map<string, Transfer.OnDisk>, files: map<string, Bytes>, stamp: Stamp)
    : map<string, Transfer.OnDisk>
  {
    map p | p in files :: if p in was && was[p].bytes == files[p] then was[p] else Transfer.OnDisk(files[p], stamp)
  }

  /** The queued log entries are written. */
  function WriteAll(s: State, pending: seq<LogEntry>): State
    decreases |pending|
  {
    if pending == [] then s else WriteAll(SaveLog(s, pending[0].info, pending[0].log), pending[1..])
  }

  /** One entry after the other, as ConsumerLog does it. */
  lemma WritesQueue(s: Protocol.Node)
    requires s.pending != []
    ensures WriteAll(s.index, s.pending) == WriteAll(Protocol.Consumed(s).index, Protocol.Consumed(s).pending)
    ensures WriteAll(s.index, []) == s.index
  {
  }

  function AsUpload(s: Node): Upload.Node { Upload.Node(Transfer.BytesOf(s.disk), s.index) }

  function AsTransfer(s: Node): Transfer.Node { Transfer.Node(s.disk, s.index, [], [], []) }

  function Step(cfg: Config, s: Node, call: Call, x: Chance): Node {
    match call
    case Put(req) =>
      var t := Upload.UploadStep(cfg, AsUpload(s), req).0;
      Node(Stamped(s.disk, t.disk, req.stamp), t.index)
    case Remove(key) =>
      var t := Upload.RemoveStep(cfg, AsUpload(s), key, x.removeFails).0;
      Node(s.disk - (s.disk.Keys - t.disk.Keys), t.index)
    case Fetch(info) =>
      var t := Transfer.Download(cfg, AsTransfer(s), info, x.net);
      Node(t.disk, WriteAll(t.index, t.pending))
  }

  // ---- What is claimed -----------------------------------------------------

  /** The content is indexed as a whole file. */
  predicate Whole(s: Node, m: Sum) { m.OfContent? && m in s.index.ldb && s.index.ldb[m].offSet < 0 }

  /** The file of its record holds it. */
  predicate Intact(cfg: Config, s: Node, m: Sum)
    requires Whole(s, m)
  {
    var path := s.index.ldb[m].DiskPath(cfg);
    s.index.ldb[m].md5 == m && path in s.disk && s.disk[path].bytes == m.bytes
  }

  ghost predicate AllIntact(cfg: Config, s: Node) { forall m :: Whole(s, m) ==> Intact(cfg, s, m) }

  /** The announced size is that of the content. */
  predicate Sized(i: FileInfo) { i.md5.OfContent? && |i.md5.bytes| == if i.offSet >= 0 then i.size - 1 else i.size }

  /** A fetch of i can damage the file of m: that is its temporary file; or it goes to the same path,
      to replace what is there; or it writes something else into that file as a blob. */
  predicate FetchEndangers(cfg: Config, s: Node, m: Sum, i: FileInfo)
    requires Whole(s, m)
  {
    && Transfer.Attempts(cfg, AsTransfer(s), i)
    && var path := s.index.ldb[m].DiskPath(cfg);
    if i.offSet >= 0 then
      && Sized(i) && Text.Split(i.DiskPath(cfg), ',')[0] == path
      && Replica.WriteAt(m.bytes, i.offSet, [Haystack.MARKER] + i.md5.bytes) != m.bytes
    else
      || Transfer.TmpPath(cfg, i) == path
      || (i.DiskPath(cfg) == path && (i.offSet == MIGRATED || Sized(i)))
  }

  /** A removal damages the file of m: it goes by another record with the same path. */
  predicate RemoveEndangers(cfg: Config, s: Node, m: Sum, key: Sum)
    requires Whole(s, m)
  {
    && key in s.index.ldb
    && var v := s.index.ldb[key];
    v.offSet < 0 && v.path != "" && v.md5 != m && v.DiskPath(cfg) == s.index.ldb[m].DiskPath(cfg)
  }

  predicate Endangers(cfg: Config, s: Node, m: Sum, call: Call)
    requires Whole(s, m)
  {
    match call
    case Put(_) => false
    case Remove(key) => RemoveEndangers(cfg, s, m, key)
    case Fetch(i) => FetchEndangers(cfg, s, m, i)
  }

  /** The node offers a newer file of its own in place of a migrated one, and may then index it
      under a checksum that is not its own. */
  predicate Mislabels(cfg: Config, s: Node, call: Call) {
    && call.Fetch?
    && var i := call.info;
    && Transfer.KeepsOwn(cfg, AsTransfer(s), i) && Transfer.Local(cfg, s.disk, i).Some?
    && (exists p :: p in cfg.peers && p !in i.peers)
    && i.md5.OfContent? && s.disk[i.DiskPath(cfg)].bytes != i.md5.bytes
  }

  ghost predicate Harmless(cfg: Config, s: Node, call: Call) {
    !Mislabels(cfg, s, call) && forall m :: Whole(s, m) ==> !Endangers(cfg, s, m, call)
  }

  // ---- Uploads and removals ------------------------------------------------

  /** A fresh upload leaves all files as they were; it may add one that no record names, or that
      of a new content. */
  lemma PutKeeps(cfg: Config, s: Node, req: Upload.Request, x: Chance)
    requires AllIntact(cfg, s) && Upload.Fresh(cfg, AsUpload(s), req)
    ensures AllIntact(cfg, Step(cfg, s, Put(req), x))
  {
    hide FileInfo.DiskPath, Upload.Chosen, Upload.Fresh, SaveLog, FileInfo.FullPath;
    var u, t := AsUpload(s), Step(cfg, s, Put(req), x);
    Upload.WrittenAside(cfg, u, req);
    Upload.FreshIsDistinct(cfg, u, req);
    var info := Upload.NewInfo(cfg, req, Upload.Chosen(cfg, u.disk, req).name);
    Added(s.index, info);
    forall m | Whole(t, m) ensures Intact(cfg, t, m) {
      if Whole(s, m) { assert Intact(cfg, s, m); }
    }
  }

  /** With their times: only a file that is added has the time of the upload. */
  lemma PutLeaves(cfg: Config, s: Node, req: Upload.Request, x: Chance)
    requires Upload.Inv(cfg, AsUpload(s)) && Upload.Fresh(cfg, AsUpload(s), req)
    ensures var t := Step(cfg, s, Put(req), x);
      && (forall p :: p in s.disk ==> p in t.disk && t.disk[p] == s.disk[p])
      && (forall p :: p in t.disk && p !in s.disk ==> t.disk[p].modified == req.stamp)
  {
    hide Upload.UploadStep, Upload.Fresh, Upload.Inv;
    Upload.UploadKeeps(cfg, AsUpload(s), req);
  }

  lemma RemoveKeeps(cfg: Config, s: Node, key: Sum, x: Chance)
    requires AllIntact(cfg, s) && forall m :: Whole(s, m) ==> !RemoveEndangers(cfg, s, m, key)
    ensures AllIntact(cfg, Step(cfg, s, Remove(key), x))
  {
    hide FileInfo.DiskPath, FileInfo.FullPath;
    var t := Step(cfg, s, Remove(key), x);
    forall m | Whole(t, m) ensures Intact(cfg, t, m) {
      assert Whole(s, m) && t.index.ldb[m] == s.index.ldb[m];
      assert Intact(cfg, s, m);
    }
  }

  lemma RemoveMeets(cfg: Config, s: Node, m: Sum, key: Sum, x: Chance)
    requires Whole(s, m) && Intact(cfg, s, m) && RemoveEndangers(cfg, s, m, key) && !x.removeFails
    ensures !AllIntact(cfg, Step(cfg, s, Remove(key), x))
  {
    hide FileInfo.DiskPath, FileInfo.FullPath;
    var t := Step(cfg, s, Remove(key), x);
    assert Whole(t, m) && !Intact(cfg, t, m);
  }

  // ---- Fetches -------------------------------------------------------------

  /** The transfer brings the announced number of bytes, and the file can be renamed. */
  predicate Brings(i: FileInfo, net: Transfer.Net) {
    && net.body.Some? && |net.body.value| == (if i.offSet >= 0 then i.size - 1 else i.size)
    && (i.offSet < 0 ==> !net.renameFails)
  }

  lemma {:induction false} ErrorsWritten(s: State, pending: seq<LogEntry>)
    requires forall e :: e in pending ==> e.log == Errors
    ensures WriteAll(s, pending).ldb == s.ldb
    decreases |pending|
  {
    if pending != [] {
      assert pending[0] in pending;
      ErrorsWritten(SaveLog(s, pending[0].info, pending[0].log), pending[1..]);
    }
  }

  lemma OneWritten(s: State, e: LogEntry)
    ensures WriteAll(s, [e]) == SaveLog(s, e.info, e.log) && WriteAll(s, []) == s
  {
    assert [e][1..] == [];
  }

  lemma FileSaved(s: State, e: FileInfo, m: Sum)
    requires e.md5.OfContent? && m.OfContent?
    ensures var t := SaveLog(s, e, Files);
      (m in t.ldb <==> m in s.ldb || m == e.md5)
      && (m in t.ldb ==> t.ldb[m] == if m == e.md5 then Stored(e) else s.ldb[m])
  {
    hide FileInfo.FullPath;
    Added(s, e);
  }

  /** An attempt indexes the record just if an honest transfer brings what was announced. */
  lemma FetchIndexes(cfg: Config, s: Node, i: FileInfo, x: Chance, m: Sum)
    requires Transfer.Attempts(cfg, AsTransfer(s), i) && Honest(Fetch(i), x) && m.OfContent?
    ensures var t := Step(cfg, s, Fetch(i), x);
      (m in t.index.ldb <==> m in s.index.ldb || (Brings(i, x.net) && m == i.md5))
      && (m in t.index.ldb ==>
            t.index.ldb[m] == if Brings(i, x.net) && m == i.md5 then Stored(Transfer.Tried(i)) else s.index.ldb[m])
  {
    hide FileInfo.DiskPath, Transfer.TmpPath, SaveLog, PutIndex, Replica.WriteAt, Text.Split;
    var e := LogEntry(Transfer.Tried(i), Files);
    OneWritten(s.index, e);
    assert [] + [e] == [e];
    if i.offSet == MIGRATED {
      Transfer.MigratedAllOrNothing(cfg, AsTransfer(s), i, x.net);
      if Brings(i, x.net) { IndexPut(s.index, Transfer.Tried(i), m); }
    } else {
      if i.offSet >= 0 { Transfer.SmallFileAllOrNothing(cfg, AsTransfer(s), i, x.net); }
      else { Transfer.WholeFileAllOrNothing(cfg, AsTransfer(s), i, x.net); }
      if Brings(i, x.net) { FileSaved(s.index, e.info, m); }
    }
  }

  lemma IndexPut(s: State, e: FileInfo, m: Sum)
    ensures var t := PutIndex(s, e.md5, e);
      (m in t.ldb <==> m in s.ldb || m == e.md5)
      && (m in t.ldb ==> t.ldb[m] == if m == e.md5 then Stored(e) else s.ldb[m])
  {
  }

  lemma UntouchedStays(cfg: Config, s: Node, i: FileInfo, x: Chance, m: Sum)
    requires cfg.distinct && Transfer.Attempts(cfg, AsTransfer(s), i) && Honest(Fetch(i), x)
    requires Whole(s, m) && Intact(cfg, s, m) && !FetchEndangers(cfg, s, m, i)
    ensures var t, path := Step(cfg, s, Fetch(i), x), s.index.ldb[m].DiskPath(cfg);
      path in t.disk && t.disk[path].bytes == m.bytes
  {
    hide FileInfo.DiskPath, Transfer.TmpPath, WriteAll, PutIndex, Replica.WriteAt, Text.Split;
    Transfer.TmpIsOther(cfg, i);
    if i.offSet >= 0 {
      Transfer.SmallFileAllOrNothing(cfg, AsTransfer(s), i, x.net);
    } else if i.offSet == MIGRATED {
      Transfer.MigratedAllOrNothing(cfg, AsTransfer(s), i, x.net);
    } else {
      Transfer.WholeFileAllOrNothing(cfg, AsTransfer(s), i, x.net);
    }
  }

  lemma FetchedIntact(cfg: Config, s: Node, i: FileInfo, x: Chance)
    requires Transfer.Attempts(cfg, AsTransfer(s), i) && Honest(Fetch(i), x) && Brings(i, x.net) && i.offSet < 0
    ensures var t := Step(cfg, s, Fetch(i), x);
      Whole(t, i.md5) && Intact(cfg, t, i.md5)
  {
    hide Transfer.TmpPath, WriteAll, PutIndex, Replica.WriteAt, Text.Split, Transfer.Download, FileInfo.DiskPath;
    Transfer.TmpIsOther(cfg, i);
    FetchIndexes(cfg, s, i, x, i.md5);
    Transfer.SamePath(cfg, i, Stored(Transfer.Tried(i)));
    if i.offSet == MIGRATED { Transfer.MigratedAllOrNothing(cfg, AsTransfer(s), i, x.net); }
    else { Transfer.WholeFileAllOrNothing(cfg, AsTransfer(s), i, x.net); }
  }

  /** If the node keeps a newer file of its own, its files stay as they are, and at most one record
      is new, which leads to that file. */
  lemma OwnIndexes(cfg: Config, s: Node, i: FileInfo, x: Chance, m: Sum)
    requires Transfer.KeepsOwn(cfg, AsTransfer(s), i) && m.OfContent?
    ensures var t := Step(cfg, s, Fetch(i), x);
      && t.disk == s.disk
      && (|| ((m in t.index.ldb <==> m in s.index.ldb) && (m in t.index.ldb ==> t.index.ldb[m] == s.index.ldb[m]))
          || (m == i.md5 && m in t.index.ldb && t.index.ldb[m].md5 == m && Transfer.Local(cfg, s.disk, i).Some?
              && t.index.ldb[m].DiskPath(cfg) == i.DiskPath(cfg) && exists p :: p in cfg.peers && p !in i.peers))
  {
    hide FileInfo.DiskPath, Protocol.Posting, Transfer.OfferPath, WriteAll;
    var u, tried, local := AsTransfer(s), Transfer.Tried(i), Transfer.Local(cfg, s.disk, i);
    var newer, answers, n := Transfer.Newer(cfg, u, tried), Transfer.Answers(cfg, x.net), |cfg.peers|;
    Transfer.SamePath(cfg, i, newer);
    Protocol.PostingIndexed(cfg, Transfer.Base(u), newer, local, answers, n);
    Protocol.PostingLogs(cfg, Transfer.Base(u), newer, local, answers, n);
    var p := Protocol.Posting(cfg, Transfer.Base(u), newer, local, answers, n);
    ErrorsWritten(p.node.index, p.node.pending);
    if p.info.peers != newer.peers {
      Transfer.OneMore(cfg, u, newer, local, answers, p.info);
      Transfer.SamePath(cfg, i, p.node.index.ldb[i.md5]);
    }
  }

  lemma FetchKeeps(cfg: Config, s: Node, i: FileInfo, x: Chance)
    requires cfg.distinct && AllIntact(cfg, s) && Honest(Fetch(i), x) && Harmless(cfg, s, Fetch(i))
    ensures AllIntact(cfg, Step(cfg, s, Fetch(i), x))
  {
    hide FileInfo.DiskPath, FetchEndangers, Step, Brings, Transfer.Local;
    var u, t := AsTransfer(s), Step(cfg, s, Fetch(i), x);
    forall m | Whole(t, m) ensures Intact(cfg, t, m) {
      if Transfer.Attempts(cfg, u, i) {
        FetchIndexes(cfg, s, i, x, m);
        if m == i.md5 && Brings(i, x.net) {
          if i.offSet < 0 { FetchedIntact(cfg, s, i, x); }
        } else {
          assert !Endangers(cfg, s, m, Fetch(i));
          UntouchedStays(cfg, s, i, x, m);
        }
      } else if Transfer.KeepsOwn(cfg, u, i) {
        OwnIndexes(cfg, s, i, x, m);
        if Whole(s, m) { assert Intact(cfg, s, m); }
      } else {
        assert t == s by { NothingFetched(cfg, s, i, x); }
      }
    }
  }

  lemma NothingFetched(cfg: Config, s: Node, i: FileInfo, x: Chance)
    requires !Transfer.Attempts(cfg, AsTransfer(s), i) && !Transfer.KeepsOwn(cfg, AsTransfer(s), i)
    ensures Step(cfg, s, Fetch(i), x) == s
  {
    hide FileInfo.DiskPath;
    Transfer.TmpIsOther(cfg, i);
  }

  /** What meets the danger: the transfer fails, or brings what was announced. */
  lemma FetchMeets(cfg: Config, s: Node, m: Sum, i: FileInfo) returns (x: Chance)
    requires cfg.distinct && Whole(s, m) && Intact(cfg, s, m) && FetchEndangers(cfg, s, m, i)
    ensures Honest(Fetch(i), x) && !AllIntact(cfg, Step(cfg, s, Fetch(i), x))
  {
    hide FileInfo.DiskPath, Transfer.TmpPath, WriteAll, PutIndex, Replica.WriteAt, Text.Split;
    Transfer.TmpIsOther(cfg, i);
    var path, now := s.index.ldb[m].DiskPath(cfg), Stamp(0, 0);
    x := Chance(false, Transfer.Net(Text.None, false, now, []));
    if i.offSet >= 0 || (i.offSet != MIGRATED && Transfer.TmpPath(cfg, i) != path) {
      x := Chance(false, Transfer.Net(Text.Some(i.md5.bytes), false, now, []));
    }
    FetchIndexes(cfg, s, i, x, m);
    var t := Step(cfg, s, Fetch(i), x);
    if i.offSet >= 0 {
      Transfer.SmallFileAllOrNothing(cfg, AsTransfer(s), i, x.net);
    } else if i.offSet == MIGRATED {
      Transfer.MigratedAllOrNothing(cfg, AsTransfer(s), i, x.net);
    } else {
      Transfer.WholeFileAllOrNothing(cfg, AsTransfer(s), i, x.net);
    }
    assert Whole(t, m) && !Intact(cfg, t, m);
  }

  lemma MislabelMeets(cfg: Config, s: Node, i: FileInfo) returns (x: Chance)
    requires cfg.distinct && Mislabels(cfg, s, Fetch(i))
    ensures Honest(Fetch(i), x) && !AllIntact(cfg, Step(cfg, s, Fetch(i), x))
  {
    hide FileInfo.DiskPath, Protocol.Posting, Transfer.OfferPath, WriteAll;
    x := Chance(false, Transfer.Net(Text.None, false, Stamp(0, 0), seq(|cfg.peers|, k => Protocol.Accepted)));
    var u, tried, local := AsTransfer(s), Transfer.Tried(i), Transfer.Local(cfg, s.disk, i);
    var newer, answers, n := Transfer.Newer(cfg, u, tried), Transfer.Answers(cfg, x.net), |cfg.peers|;
    Transfer.SamePath(cfg, i, newer);
    var q :| q in cfg.peers && q !in i.peers;
    var k :| 0 <= k < n && cfg.peers[k] == q;
    Protocol.PostingNames(cfg, Transfer.Base(u), newer, local, answers, n, q);
    assert Protocol.Answers(answers[k]);
    Protocol.PostingIndexed(cfg, Transfer.Base(u), newer, local, answers, n);
    Protocol.PostingLogs(cfg, Transfer.Base(u), newer, local, answers, n);
    var p := Protocol.Posting(cfg, Transfer.Base(u), newer, local, answers, n);
    ErrorsWritten(p.node.index, p.node.pending);
    Transfer.SamePath(cfg, i, p.node.index.ldb[i.md5]);
    var t := Step(cfg, s, Fetch(i), x);
    assert Whole(t, i.md5) && !Intact(cfg, t, i.md5);
  }

  // ---- Calls, and sequences of them ----------------------------------------

  /** An upload comes with a usable name, and finds its folder not overfull. */
  predicate Usable(cfg: Config, s: Node, call: Call) { call.Put? ==> Upload.Fresh(cfg, AsUpload(s), call.req) }

  /** Uploads are usable in every state that the earlier calls can lead to. */
  ghost predicate AllUsable(cfg: Config, s: Node, calls: seq<Call>)
    decreases |calls|
  {
    calls != [] ==>
      && Usable(cfg, s, calls[0])
      && forall x :: Honest(calls[0], x) ==> AllUsable(cfg, Step(cfg, s, calls[0], x), calls[1..])
  }

  /** One call leaves every indexed file intact, whatever it meets, if and only if it is
      harmless. */
  lemma IntactIff(cfg: Config, s: Node, call: Call)
    requires cfg.distinct && AllIntact(cfg, s) && Usable(cfg, s, call)
    ensures (forall x :: Honest(call, x) ==> AllIntact(cfg, Step(cfg, s, call, x))) <==> Harmless(cfg, s, call)
  {
    hide Step, Intact, AllIntact, FetchEndangers, RemoveEndangers, Mislabels, Upload.Fresh;
    if Harmless(cfg, s, call) {
      forall x | Honest(call, x) ensures AllIntact(cfg, Step(cfg, s, call, x)) {
        match call
        case Put(req) => PutKeeps(cfg, s, req, x);
        case Remove(key) => RemoveKeeps(cfg, s, key, x);
        case Fetch(i) => FetchKeeps(cfg, s, i, x);
      }
    } else if Mislabels(cfg, s, call) {
      assert call.Fetch? by { MislabelsFetch(cfg, s, call); }
      var x := MislabelMeets(cfg, s, call.info);
    } else {
      var m :| Whole(s, m) && Endangers(cfg, s, m, call);
      assert Intact(cfg, s, m) by { IntactAt(cfg, s, m); }
      match call
      case Remove(key) =>
        var x := Chance(false, Transfer.Net(Text.None, false, Stamp(0, 0), []));
        RemoveMeets(cfg, s, m, key, x);
      case Fetch(i) => var x := FetchMeets(cfg, s, m, i);
    }
  }

  lemma MislabelsFetch(cfg: Config, s: Node, call: Call)
    requires Mislabels(cfg, s, call)
    ensures call.Fetch?
  {
  }

  lemma IntactAt(cfg: Config, s: Node, m: Sum)
    requires AllIntact(cfg, s) && Whole(s, m)
    ensures Intact(cfg, s, m)
  {
  }

  /** Whatever the calls meet, every indexed whole file holds its content throughout. */
  ghost predicate Stay(cfg: Config, s: Node, calls: seq<Call>)
    decreases |calls|
  {
    && AllIntact(cfg, s)
    && (calls != [] ==> forall x :: Honest(calls[0], x) ==> Stay(cfg, Step(cfg, s, calls[0], x), calls[1..]))
  }

  /** Whatever the earlier calls met, each is harmless. */
  ghost predicate Safe(cfg: Config, s: Node, calls: seq<Call>)
    decreases |calls|
  {
    calls != [] ==>
      && Harmless(cfg, s, calls[0])
      && forall x :: Honest(calls[0], x) ==> Safe(cfg, Step(cfg, s, calls[0], x), calls[1..])
  }

  /** Over any sequence of uploads, removals and fetches, with any faults and honest replies, every
      indexed whole file holds the content it is indexed by throughout, if and only if no call
      is ever harmful: no fetch goes to the path of another indexed content, has it for its
      temporary file, or writes into it as a blob; no removal goes by a record with the path of
      another content; and no newer file is offered in place of a migrated one. */
  lemma {:induction false} ContentsStayIff(cfg: Config, s: Node, calls: seq<Call>)
    requires cfg.distinct && AllIntact(cfg, s) && AllUsable(cfg, s, calls)
    ensures Stay(cfg, s, calls) <==> Safe(cfg, s, calls)
    decreases |calls|
  {
    hide Step, AllIntact, Harmless, Usable, Honest;
    if calls != [] {
      IntactIff(cfg, s, calls[0]);
      if Harmless(cfg, s, calls[0]) {
        forall x | Honest(calls[0], x)
          ensures Stay(cfg, Step(cfg, s, calls[0], x), calls[1..]) == Safe(cfg, Step(cfg, s, calls[0], x), calls[1..])
        {
          ContentsStayIff(cfg, Step(cfg, s, calls[0], x), calls[1..]);
        }
      } else {
        var x :| Honest(calls[0], x) && !AllIntact(cfg, Step(cfg, s, calls[0], x));
        assert !Stay(cfg, Step(cfg, s, calls[0], x), calls[1..]);
      }
    }
  }
}
