/** How one node replicates its files: offering a file to every peer, keeping what failed
    for another try, and taking what peers offer. */
module Protocol {
  import opened Types
  import opened Index
  import opened Text
  import opened Totals

  /** The index, the queue of log entries, the queue of files to offer, and the queue of
      files to fetch. */
  datatype Node = Node(index: State, pending: seq<LogEntry>, toPeers: seq<FileInfo>, fromPeers: seq<FileInfo>)

  /** How a peer is met in one turn of the loop: it says that it has the file, it takes the
      offer, it answers something else, or the exchange fails, with or without the peer
      having taken the offer. */
  datatype Answer = Found | Accepted | Refused | Lost(delivered: bool)

  /** The peer is asked first, unless the file came by migration or copies are not unified. */
  predicate AsksFirst(cfg: Config, info: FileInfo) { info.offSet != MIGRATED && cfg.distinct }

  function Measured(info: FileInfo, size: nat): FileInfo { if info.size == 0 then info.(size := size) else info }

  function WithPeer(info: FileInfo, peer: string): FileInfo { info.(peers := info.peers + [peer]) }

  /** The record after a failed exchange, which is also what is queued again. */
  function Retried(cfg: Config, info: FileInfo): FileInfo {
    if info.retry <= cfg.retryCount then info.(retry := info.retry + 1) else info
  }

  datatype Posted = Posted(node: Node, info: FileInfo)

  /** One turn of the loop of postFileToPeer; local is the size of the node's own copy. */
  function Turn(cfg: Config, s: Node, info: FileInfo, peer: string, local: Option<nat>, answer: Answer): Posted {
    if peer in info.peers || local.None? then Posted(s, info) else
    var m := Measured(info, local.value);
    match answer
    case Lost(_) =>
      var r := Retried(cfg, m);
      Posted(s.(toPeers := if m.retry <= cfg.retryCount then s.toPeers + [r] else s.toPeers,
                pending := s.pending + [LogEntry(r, Errors)]), r)
    case Refused => Posted(s.(pending := s.pending + [LogEntry(m, Errors)]), m)
    case _ => Posted(s.(index := PutIndex(s.index, m.md5, WithPeer(m, peer))), WithPeer(m, peer))
  }

  /** The loop, over the first n of the configured peers. */
  function Posting(cfg: Config, s: Node, info: FileInfo, local: Option<nat>, answers: seq<Answer>, n: nat): Posted
    requires n <= |cfg.peers| == |answers|
  {
    if n == 0 then Posted(s, info) else
    var p := Posting(cfg, s, info, local, answers, n - 1);
    Turn(cfg, p.node, p.info, cfg.peers[n - 1], local, answers[n - 1])
  }

  /** SyncFileInfo at the receiving node. */
  function Taken(s: Node, info: FileInfo): Node {
    var kept := if info.offSet == MIGRATED then s.(index := PutIndex(s.index, info.md5, info))
                else s.(pending := s.pending + [LogEntry(info, Queue)]);
    kept.(fromPeers := kept.fromPeers + [info])
  }

  /** An offer that is taken waits at the end of the download queue. A migrated file is indexed and
      logged for its day at once; any other is to be noted in the queue log. */
  lemma TakenExactly(s: Node, info: FileInfo)
    ensures var t := Taken(s, info);
      && t.fromPeers == s.fromPeers + [info] && t.toPeers == s.toPeers
      && if info.offSet == MIGRATED then
           && t.pending == s.pending
           && t.index.ldb == s.index.ldb[info.md5 := info.(retry := 0)]
           && t.index.logDB == s.index.logDB[LogKey(info.timeStamp.day, Files, info.md5) := info.(retry := 0)]
         else t.index == s.index && t.pending == s.pending + [LogEntry(info, Queue)]
  {
  }

  /** One entry of the log queue is written. */
  function Consumed(s: Node): Node {
    if s.pending == [] then s
    else s.(index := SaveLog(s.index, s.pending[0].info, s.pending[0].log), pending := s.pending[1..])
  }

  /** What CheckFileAndSendToPeer queues for one checksum, if anything. */
  function Resendable(cfg: Config, s: Node, md5: Sum, force: bool): Option<FileInfo> {
    if md5 !in s.index.ldb || s.index.ldb[md5].md5.Unset? then None else
    var info := s.index.ldb[md5];
    var peers := if force then [] else info.peers;
    if |peers| > |cfg.peers| then None
    else Some(info.(peers := if cfg.host in peers then peers else peers + [cfg.host]))
  }

  function Resent(cfg: Config, s: Node, md5s: seq<Sum>, force: bool): seq<FileInfo> {
    if md5s == [] then [] else
    var before := Resent(cfg, s, md5s[..|md5s| - 1], force);
    match Resendable(cfg, s, md5s[|md5s| - 1], force) case None => before case Some(info) => before + [info]
  }

  /** The content is sent again: it is indexed, with a checksum, and the resend is forced or the
      record does not name more nodes than there are peers. */
  predicate SentAgain(cfg: Config, ldb: map<Sum, FileInfo>, md5: Sum, force: bool) {
    && md5 in ldb && ldb[md5].md5 != Unset
    && (force || |ldb[md5].peers| <= |cfg.peers|)
  }

  /** As the indexed record, which names the node alone if the resend is forced, and otherwise
      the node besides those it names. */
  predicate AsSent(cfg: Config, indexed: FileInfo, sent: FileInfo, force: bool) {
    && sent == indexed.(peers := sent.peers)
    && if force then sent.peers == [cfg.host]
       else if cfg.host in indexed.peers then sent.peers == indexed.peers
       else sent.peers == indexed.peers + [cfg.host]
  }

  /** In the order of the checksums, one record for each that is sent again; at says which these
      are. */
  ghost predicate SendsThese(cfg: Config, ldb: map<Sum, FileInfo>, md5s: seq<Sum>, force: bool, sent: seq<FileInfo>,
                             at: seq<nat>)
  {
    && |at| == |sent|
    && (forall j, k :: 0 <= j < k < |at| ==> at[j] < at[k])
    && (forall i :: i in at <==> 0 <= i < |md5s| && SentAgain(cfg, ldb, md5s[i], force))
    && (forall j :: 0 <= j < |at| ==>
          at[j] < |md5s| && md5s[at[j]] in ldb && AsSent(cfg, ldb[md5s[at[j]]], sent[j], force))
  }

  lemma SentOne(cfg: Config, s: Node, md5: Sum, force: bool)
    ensures Resendable(cfg, s, md5, force).Some? <==> SentAgain(cfg, s.index.ldb, md5, force)
    ensures Resendable(cfg, s, md5, force).Some? ==>
              md5 in s.index.ldb && AsSent(cfg, s.index.ldb[md5], Resendable(cfg, s, md5, force).value, force)
  {
  }

  lemma SkipsOne(cfg: Config, ldb: map<Sum, FileInfo>, md5s: seq<Sum>, md5: Sum, force: bool, sent: seq<FileInfo>,
                 at: seq<nat>)
    requires SendsThese(cfg, ldb, md5s, force, sent, at) && !SentAgain(cfg, ldb, md5, force)
    ensures SendsThese(cfg, ldb, md5s + [md5], force, sent, at)
  {
    hide SentAgain, AsSent;
  }

  lemma SendsOne(cfg: Config, ldb: map<Sum, FileInfo>, md5s: seq<Sum>, md5: Sum, force: bool, sent: seq<FileInfo>,
                 at: seq<nat>, e: FileInfo)
    requires SendsThese(cfg, ldb, md5s, force, sent, at) && SentAgain(cfg, ldb, md5, force)
    requires md5 in ldb && AsSent(cfg, ldb[md5], e, force)
    ensures SendsThese(cfg, ldb, md5s + [md5], force, sent + [e], at + [|md5s|])
  {
    hide SentAgain, AsSent;
    var more := md5s + [md5];
    assert more[|md5s|] == md5 && forall i :: 0 <= i < |md5s| ==> more[i] == md5s[i];
    assert forall i :: i in at + [|md5s|] <==> i in at || i == |md5s|;
  }

  lemma {:induction false} ResentExactly(cfg: Config, s: Node, md5s: seq<Sum>, force: bool) returns (at: seq<nat>)
    ensures SendsThese(cfg, s.index.ldb, md5s, force, Resent(cfg, s, md5s, force), at)
  {
    hide Resendable, SentAgain, AsSent;
    if md5s == [] {
      at := [];
    } else {
      hide SendsThese;
      var init, md5 := md5s[..|md5s| - 1], md5s[|md5s| - 1];
      at := ResentExactly(cfg, s, init, force);
      assert md5s == init + [md5];
      SentOne(cfg, s, md5, force);
      if SentAgain(cfg, s.index.ldb, md5, force) {
        SendsOne(cfg, s.index.ldb, init, md5, force, Resent(cfg, s, init, force), at,
                 Resendable(cfg, s, md5, force).value);
        at := at + [|init|];
      } else {
        SkipsOne(cfg, s.index.ldb, init, md5, force, Resent(cfg, s, init, force), at);
      }
    }
  }

  lemma NoneResent(cfg: Config, s: Node, force: bool)
    ensures Resent(cfg, s, [], force) == []
  {
  }

  lemma ResentNext(cfg: Config, s: Node, md5s: seq<Sum>, i: nat, force: bool)
    requires i < |md5s|
    ensures Resent(cfg, s, md5s[..i + 1], force) == Resent(cfg, s, md5s[..i], force)
              + (match Resendable(cfg, s, md5s[i], force) case None => [] case Some(e) => [e])
  {
    assert md5s[..i + 1][..i] == md5s[..i];
  }

  class Server {
    var index: State
    var pending: seq<LogEntry>
    var toPeers: seq<FileInfo>
    var fromPeers: seq<FileInfo>

    constructor (today: nat)
      ensures Value() == Node(Initial(today), [], [], [])
    {
      index, pending, toPeers, fromPeers := Initial(today), [], [], [];
    }

    function Value(): Node
      reads this
    {
      Node(index, pending, toPeers, fromPeers)
    }

    method PostFileToPeer(cfg: Config, f: FileInfoRef, local: Option<nat>, answers: seq<Answer>)
      requires |answers| == |cfg.peers|
      modifies this, f
      ensures Posted(Value(), f.info) == Posting(cfg, old(Value()), old(f.info), local, answers, |cfg.peers|)
    {
      hide PutIndex, Turn;
      var i := 0;
      while i < |cfg.peers|
        invariant 0 <= i <= |cfg.peers|
        invariant Posted(Value(), f.info) == Posting(cfg, old(Value()), old(f.info), local, answers, i)
      {
        Offer(cfg, f, cfg.peers[i], local, answers[i]);
        i := i + 1;
      }
    }

    /** The body of the loop. */
    method Offer(cfg: Config, f: FileInfoRef, peer: string, local: Option<nat>, answer: Answer)
      modifies this, f
      ensures Posted(Value(), f.info) == Turn(cfg, old(Value()), old(f.info), peer, local, answer)
    {
      hide PutIndex;
      if peer in f.info.peers || local.None? { return; }
      if f.info.size == 0 {
        f.info := f.info.(size := local.value);
      }
      if answer.Found? || answer.Accepted? {
        f.info := f.info.(peers := f.info.peers + [peer]);
        index := PutIndex(index, f.info.md5, f.info);
        return;
      }
      if answer.Lost? {
        if f.info.retry <= cfg.retryCount {
          f.info := f.info.(retry := f.info.retry + 1);
          toPeers := toPeers + [f.info];
        }
      }
      pending := pending + [LogEntry(f.info, Errors)];
    }

    method SyncFileInfo(info: FileInfo)
      modifies this
      ensures Value() == Taken(old(Value()), info)
    {
      if info.offSet == MIGRATED {
        index := PutIndex(index, info.md5, info);
      } else {
        pending := pending + [LogEntry(info, Queue)];
      }
      fromPeers := fromPeers + [info];
    }

    /** ConsumerLog, one entry. */
    method ConsumeLog()
      modifies this
      ensures Value() == Consumed(old(Value()))
    {
      if pending == [] { return; }
      index := SaveLog(index, pending[0].info, pending[0].log);
      pending := pending[1..];
    }

    /** The checksums of a day's log, in the order the set yields them. */
    method CheckFileAndSendToPeer(cfg: Config, md5s: seq<Sum>, log: Log, force: bool)
      modifies this
      ensures
        var sent := Resent(cfg, old(Value()), md5s, force);
        Value() == if log.Queue? then old(Value()).(fromPeers := old(fromPeers) + sent)
                   else old(Value()).(toPeers := old(toPeers) + sent)
      ensures
        var before := if log.Queue? then old(fromPeers) else old(toPeers);
        var after := if log.Queue? then fromPeers else toPeers;
        && before <= after
        && exists at :: SendsThese(cfg, old(index.ldb), md5s, force, after[|before|..], at)
    {
      hide SendsThese, Resent;
      ghost var s := Value();
      var i := 0;
      assert Resent(cfg, s, md5s[..0], force) == [] by { NoneResent(cfg, s, force); }
      while i < |md5s|
        invariant 0 <= i <= |md5s|
        invariant Value() == if log.Queue? then s.(fromPeers := s.fromPeers + Resent(cfg, s, md5s[..i], force))
                             else s.(toPeers := s.toPeers + Resent(cfg, s, md5s[..i], force))
      {
        ResentNext(cfg, s, md5s, i, force);
        if md5s[i] in index.ldb && !index.ldb[md5s[i]].md5.Unset? {
          var info := index.ldb[md5s[i]];
          if force {
            info := info.(peers := []);
          }
          if |info.peers| <= |cfg.peers| {
            if cfg.host !in info.peers {
              info := info.(peers := info.peers + [cfg.host]);
            }
            if log.Queue? {
              fromPeers := fromPeers + [info];
            } else {
              toPeers := toPeers + [info];
            }
          }
        }
        i := i + 1;
      }
      assert md5s[..|md5s|] == md5s;
      ghost var at := ResentExactly(cfg, s, md5s, force);
    }
  }

  // ---- What a call of postFileToPeer leads to ------------------------------

  predicate Answers(a: Answer) { a.Found? || a.Accepted? }

  /** The record names afterwards those it named before, and those that answered, and
      nobody else. */
  lemma {:induction false} PostingNames(cfg: Config, s: Node, info: FileInfo, local: Option<nat>,
                                        answers: seq<Answer>, n: nat, q: string)
    requires n <= |cfg.peers| == |answers|
    ensures q in Posting(cfg, s, info, local, answers, n).info.peers
       <==> q in info.peers || (local.Some? && exists k :: 0 <= k < n && cfg.peers[k] == q && Answers(answers[k]))
  {
    hide PutIndex;
    if n > 0 { PostingNames(cfg, s, info, local, answers, n - 1, q); }
  }

  /** The same record, with another size, other peers and another number of retries. */
  predicate Like(e: FileInfo, r: FileInfo) { e == r.(size := e.size, peers := e.peers, retry := e.retry) }

  /** The index has the record, measured, with just these names, unless none was added: then
      it is as it was. */
  lemma {:induction false} PostingIndexed(cfg: Config, s: Node, info: FileInfo, local: Option<nat>,
                                          answers: seq<Answer>, n: nat)
    requires n <= |cfg.peers| == |answers|
    ensures var p := Posting(cfg, s, info, local, answers, n);
      && Like(p.info, info) && info.peers <= p.info.peers
      && (p.info.size == info.size || (local.Some? && p.info.size == Measured(info, local.value).size))
      && (if p.info.peers == info.peers then p.node.index == s.index
          else local.Some? && info.md5 in p.node.index.ldb
               && p.node.index.ldb[info.md5] == Stored(Measured(info, local.value)).(peers := p.info.peers))
      && (forall k :: k != info.md5 ==>
            && (k in p.node.index.ldb <==> k in s.index.ldb)
            && (k in s.index.ldb ==> p.node.index.ldb[k] == s.index.ldb[k]))
  {
    hide Turn;
    if n > 0 {
      PostingIndexed(cfg, s, info, local, answers, n - 1);
      var q := Posting(cfg, s, info, local, answers, n - 1);
      TurnIndexed(cfg, q.node, q.info, cfg.peers[n - 1], local, answers[n - 1]);
    }
  }

  lemma TurnIndexed(cfg: Config, s: Node, info: FileInfo, peer: string, local: Option<nat>, answer: Answer)
    ensures var r := Turn(cfg, s, info, peer, local, answer);
      && Like(r.info, info)
      && (r.info.size == info.size || (local.Some? && r.info.size == Measured(info, local.value).size))
      && (if peer !in info.peers && local.Some? && Answers(answer)
          then r.info == WithPeer(Measured(info, local.value), peer)
               && r.node.index == PutIndex(s.index, info.md5, r.info)
          else r.info.peers == info.peers && r.node.index == s.index)
  {
    hide PutIndex;
  }

  /** Offering logs nothing but errors. */
  lemma {:induction false} PostingLogs(cfg: Config, s: Node, info: FileInfo, local: Option<nat>, answers: seq<Answer>,
                                       n: nat)
    requires n <= |cfg.peers| == |answers|
    ensures var p := Posting(cfg, s, info, local, answers, n);
      s.pending <= p.node.pending && forall e :: e in p.node.pending ==> e in s.pending || e.log == Errors
  {
    hide PutIndex;
    if n > 0 { PostingLogs(cfg, s, info, local, answers, n - 1); }
  }

  /** What offering queues or logs is the record, with its content and its time. */
  lemma {:induction false} PostingCarries(cfg: Config, s: Node, info: FileInfo, local: Option<nat>,
                                          answers: seq<Answer>, n: nat)
    requires n <= |cfg.peers| == |answers|
    ensures var p := Posting(cfg, s, info, local, answers, n);
      && (forall e :: e in p.node.pending ==> e in s.pending || Like(e.info, info))
      && (forall e :: e in p.node.toPeers ==> e in s.toPeers || Like(e, info))
  {
    hide PutIndex, Turn;
    if n > 0 {
      PostingCarries(cfg, s, info, local, answers, n - 1);
      PostingIndexed(cfg, s, info, local, answers, n - 1);
      var p := Posting(cfg, s, info, local, answers, n - 1);
      TurnCarries(cfg, p.node, p.info, cfg.peers[n - 1], local, answers[n - 1]);
    }
  }

  lemma TurnCarries(cfg: Config, s: Node, info: FileInfo, peer: string, local: Option<nat>, answer: Answer)
    ensures var r := Turn(cfg, s, info, peer, local, answer);
      && (forall e :: e in r.node.pending ==> e in s.pending || Like(e.info, info))
      && (forall e :: e in r.node.toPeers ==> e in s.toPeers || Like(e, info))
  {
    hide PutIndex;
  }

  /** Nothing is fetched by offering. */
  lemma {:induction false} PostingFetchesNothing(cfg: Config, s: Node, info: FileInfo, local: Option<nat>,
                                                 answers: seq<Answer>, n: nat)
    requires n <= |cfg.peers| == |answers|
    ensures Posting(cfg, s, info, local, answers, n).node.fromPeers == s.fromPeers
  {
    hide PutIndex;
    if n > 0 { PostingFetchesNothing(cfg, s, info, local, answers, n - 1); }
  }

  /** The peers among the first n that are asked and fail. */
  function Failures(cfg: Config, info: FileInfo, local: Option<nat>, answers: seq<Answer>, n: nat): seq<nat>
    requires n <= |cfg.peers| == |answers|
  {
    if n == 0 then [] else
    var before := Failures(cfg, info, local, answers, n - 1);
    if local.Some? && cfg.peers[n - 1] !in info.peers && !Answers(answers[n - 1]) then before + [n - 1] else before
  }

  function LostOnes(answers: seq<Answer>, failures: seq<nat>): nat {
    if failures == [] then 0
    else LostOnes(answers, failures[..|failures| - 1])
         + (if failures[|failures| - 1] < |answers| && answers[failures[|failures| - 1]].Lost? then 1 else 0)
  }

  /** The peer is asked in this turn, and fails. */
  predicate Fails(info: FileInfo, peer: string, local: Option<nat>, answer: Answer) {
    local.Some? && peer !in info.peers && !Answers(answer)
  }

  lemma TurnFails(cfg: Config, s: Node, info: FileInfo, peer: string, local: Option<nat>, answer: Answer)
    ensures var r := Turn(cfg, s, info, peer, local, answer);
      && r.info.md5 == info.md5
      && r.node.pending ==
          (if Fails(info, peer, local, answer) then s.pending + [LogEntry(r.info, Errors)] else s.pending)
      && (if Fails(info, peer, local, answer) && answer.Lost? && info.retry <= cfg.retryCount
          then r.info.retry == info.retry + 1 && r.node.toPeers == s.toPeers + [r.info]
          else r.info.retry == info.retry && r.node.toPeers == s.toPeers)
  {
    hide PutIndex;
  }

  /** Each peer that is asked and fails leaves one entry for the error log. */
  lemma {:induction false} PostingErrors(cfg: Config, s: Node, info: FileInfo, local: Option<nat>,
                                         answers: seq<Answer>, n: nat)
    requires n <= |cfg.peers| == |answers| && Distinct(cfg.peers)
    ensures var pending := Posting(cfg, s, info, local, answers, n).node.pending;
      && |pending| == |s.pending| + |Failures(cfg, info, local, answers, n)| && s.pending <= pending
      && (forall j :: |s.pending| <= j < |pending| ==> pending[j].log == Errors && pending[j].info.md5 == info.md5)
  {
    hide Turn;
    if n > 0 {
      PostingErrors(cfg, s, info, local, answers, n - 1);
      FailsAt(cfg, s, info, local, answers, n);
    }
  }

  /** Whether a peer fails is decided by the record that the call began with. */
  lemma FailsAt(cfg: Config, s: Node, info: FileInfo, local: Option<nat>, answers: seq<Answer>, n: nat)
    requires 0 < n <= |cfg.peers| == |answers| && Distinct(cfg.peers)
    ensures var p := Posting(cfg, s, info, local, answers, n - 1);
      var r := Turn(cfg, p.node, p.info, cfg.peers[n - 1], local, answers[n - 1]);
      var fails := local.Some? && cfg.peers[n - 1] !in info.peers && !Answers(answers[n - 1]);
      && Fails(p.info, cfg.peers[n - 1], local, answers[n - 1]) == fails
      && p.info.md5 == info.md5 && r.info.md5 == info.md5
      && r.node.pending == (if fails then p.node.pending + [LogEntry(r.info, Errors)] else p.node.pending)
      && (if fails && answers[n - 1].Lost? && p.info.retry <= cfg.retryCount
          then r.info.retry == p.info.retry + 1 && r.node.toPeers == p.node.toPeers + [r.info]
          else r.info.retry == p.info.retry && r.node.toPeers == p.node.toPeers)
  {
    hide Turn, Posting;
    var p := Posting(cfg, s, info, local, answers, n - 1);
    PostingNames(cfg, s, info, local, answers, n - 1, cfg.peers[n - 1]);
    PostingIndexed(cfg, s, info, local, answers, n - 1);
    TurnFails(cfg, p.node, p.info, cfg.peers[n - 1], local, answers[n - 1]);
  }

  /** How many copies a call queues: one for each failed exchange, while retries are left. */
  function Copies(cfg: Config, info: FileInfo, lost: nat): nat {
    if info.retry > cfg.retryCount then 0
    else if lost <= cfg.retryCount + 1 - info.retry then lost
    else cfg.retryCount + 1 - info.retry
  }

  lemma CopiesNext(cfg: Config, info: FileInfo, lost: nat)
    ensures Copies(cfg, info, 0) == 0
    ensures Copies(cfg, info, lost + 1)
         == Copies(cfg, info, lost) + (if info.retry + Copies(cfg, info, lost) <= cfg.retryCount then 1 else 0)
  {
  }

  lemma LostNext(cfg: Config, info: FileInfo, local: Option<nat>, answers: seq<Answer>, n: nat)
    requires 0 < n <= |cfg.peers| == |answers|
    ensures LostOnes(answers, Failures(cfg, info, local, answers, n))
         == LostOnes(answers, Failures(cfg, info, local, answers, n - 1))
            + (if local.Some? && cfg.peers[n - 1] !in info.peers && answers[n - 1].Lost? then 1 else 0)
  {
    var before := Failures(cfg, info, local, answers, n - 1);
    assert (before + [n - 1])[..|before|] == before;
  }

  /** The copies that a call queues have strictly rising numbers of retries, one more each
      time. */
  lemma {:induction false} PostingCopies(cfg: Config, s: Node, info: FileInfo, local: Option<nat>,
                                         answers: seq<Answer>, n: nat)
    requires n <= |cfg.peers| == |answers| && Distinct(cfg.peers)
    ensures var p := Posting(cfg, s, info, local, answers, n);
      var copies := Copies(cfg, info, LostOnes(answers, Failures(cfg, info, local, answers, n)));
      && |p.node.toPeers| == |s.toPeers| + copies && s.toPeers <= p.node.toPeers
      && p.info.retry == info.retry + copies
      && forall j :: |s.toPeers| <= j < |p.node.toPeers| ==>
           p.node.toPeers[j].md5 == info.md5 && p.node.toPeers[j].retry == info.retry + 1 + j - |s.toPeers|
  {
    hide Turn, Copies, LostOnes, Failures, Distinct;
    if n == 0 {
      assert LostOnes(answers, Failures(cfg, info, local, answers, 0)) == 0 by { NoneLost(cfg, info, local, answers); }
      CopiesNext(cfg, info, 0);
    } else {
      PostingCopies(cfg, s, info, local, answers, n - 1);
      FailsAt(cfg, s, info, local, answers, n);
      LostNext(cfg, info, local, answers, n);
      CopiesNext(cfg, info, LostOnes(answers, Failures(cfg, info, local, answers, n - 1)));
    }
  }

  lemma NoneLost(cfg: Config, info: FileInfo, local: Option<nat>, answers: seq<Answer>)
    requires |cfg.peers| == |answers|
    ensures LostOnes(answers, Failures(cfg, info, local, answers, 0)) == 0
  {
  }

  // ---- The length test -----------------------------------------------------

  function Hosts(hosts: seq<string>): set<string> { set h | h in hosts }

  lemma {:induction false} CountHosts(hosts: seq<string>)
    ensures |Hosts(hosts)| <= |hosts|
    ensures Distinct(hosts) ==> |Hosts(hosts)| == |hosts|
  {
    if hosts == [] {
      assert Hosts(hosts) == {};
    } else {
      var init, h := hosts[..|hosts| - 1], hosts[|hosts| - 1];
      CountHosts(init);
      assert hosts == init + [h];
      assert Hosts(hosts) == Hosts(init) + {h};
      assert Distinct(hosts) ==> h !in init;
    }
  }

  /** The test that skips a record because its list of peers is longer than the configured
      one is exact: for a list without duplicates that names the node itself and configured
      peers only, it holds just when every configured peer is in the list. */
  lemma SkipIffReplicated(cfg: Config, peers: seq<string>)
    requires Distinct(peers) && Distinct(cfg.peers) && cfg.host !in cfg.peers
    requires cfg.host in peers && forall p :: p in peers ==> p == cfg.host || p in cfg.peers
    ensures |peers| > |cfg.peers| <==> forall p :: p in cfg.peers ==> p in peers
  {
    CountHosts(peers);
    CountHosts(cfg.peers);
    var all := Hosts(cfg.peers) + {cfg.host};
    assert |all| == |cfg.peers| + 1;
    SubsetCount(Hosts(peers), all);
    if forall p :: p in cfg.peers ==> p in peers {
      assert Hosts(peers) == all;
    }
    if |peers| > |cfg.peers| {
      forall p | p in cfg.peers ensures p in peers { assert p in all; }
    }
  }

  /** Without the node itself in the list the test can only err towards sending again, and
      duplicates in the configuration do no harm either. */
  lemma SkipMeansReplicated(cfg: Config, peers: seq<string>)
    requires Distinct(peers) && forall p :: p in peers ==> p == cfg.host || p in cfg.peers
    requires |peers| > |cfg.peers|
    ensures forall p :: p in cfg.peers ==> p in peers
  {
    CountHosts(peers);
    CountHosts(cfg.peers);
    var all := Hosts(cfg.peers) + {cfg.host};
    assert |all| <= |cfg.peers| + 1;
    SubsetCount(Hosts(peers), all);
    forall p | p in cfg.peers ensures p in peers { assert p in all; }
  }
}
