/** How often one file can be offered when exchanges keep failing. */
module Fanout {
  import opened Types
  import opened Index
  import opened Text
  import opened Protocol
  import opened Cluster
  import Transfer

  /** The number of calls that an item with the given number of retries can lead to, itself
      included. */
  function Weight(limit: int, retry: int): (w: nat)
    ensures w >= 1
    decreases limit + 1 - retry
  {
    if retry > limit then 1 else 2 * Weight(limit, retry + 1)
  }

  function Pow2(n: nat): nat { if n == 0 then 1 else 2 * Pow2(n - 1) }

  lemma {:induction false} WeightIsPower(limit: int, retry: int)
    requires retry <= limit + 1
    ensures Weight(limit, retry) == Pow2(limit + 1 - retry)
    decreases limit + 1 - retry
  {
    if retry <= limit { WeightIsPower(limit, retry + 1); }
  }

  function QueueWeight(limit: int, queue: seq<FileInfo>): nat {
    if queue == [] then 0
    else QueueWeight(limit, queue[..|queue| - 1]) + Weight(limit, queue[|queue| - 1].retry)
  }

  /** A call in progress counts for what it may still put into the queue. */
  function FlightWeight(limit: int, flight: seq<Pass>): nat {
    if flight == [] then 0
    else FlightWeight(limit, flight[..|flight| - 1]) + Weight(limit, flight[|flight| - 1].info.retry) - 1
  }

  function Measure(cfg: Config, m: Member): nat {
    QueueWeight(cfg.retryCount, m.node.toPeers) + FlightWeight(cfg.retryCount, m.flight)
  }

  lemma QueueWeightAppend(limit: int, queue: seq<FileInfo>, info: FileInfo)
    ensures QueueWeight(limit, queue + [info]) == QueueWeight(limit, queue) + Weight(limit, info.retry)
  {
    assert (queue + [info])[..|queue|] == queue;
  }

  lemma {:induction false} QueueWeightHead(limit: int, queue: seq<FileInfo>)
    requires queue != []
    ensures QueueWeight(limit, queue) == Weight(limit, queue[0].retry) + QueueWeight(limit, queue[1..])
  {
    var init := queue[..|queue| - 1];
    if init == [] {
      assert queue[1..] == [];
    } else {
      QueueWeightHead(limit, init);
      assert queue[1..] == init[1..] + [queue[|queue| - 1]];
      QueueWeightAppend(limit, init[1..], queue[|queue| - 1]);
    }
  }

  lemma FlightWeightAppend(limit: int, flight: seq<Pass>, p: Pass)
    ensures FlightWeight(limit, flight + [p]) == FlightWeight(limit, flight) + Weight(limit, p.info.retry) - 1
  {
    assert (flight + [p])[..|flight|] == flight;
  }

  lemma {:induction false} FlightWeightAt(limit: int, flight: seq<Pass>, i: nat, p: Pass)
    requires i < |flight|
    ensures FlightWeight(limit, flight[i := p])
         == FlightWeight(limit, flight) - Weight(limit, flight[i].info.retry) + Weight(limit, p.info.retry)
    ensures FlightWeight(limit, Without(flight, i)) ==
        FlightWeight(limit, flight) - Weight(limit, flight[i].info.retry) + 1
  {
    var init, last := flight[..|flight| - 1], flight[|flight| - 1];
    if i == |init| {
      assert flight[i := p] == init + [p] && Without(flight, i) == init;
      FlightWeightAppend(limit, init, p);
    } else {
      FlightWeightAt(limit, init, i, p);
      assert flight[i := p] == init[i := p] + [last] && Without(flight, i) == Without(init, i) + [last];
      FlightWeightAppend(limit, init[i := p], last);
      FlightWeightAppend(limit, Without(init, i), last);
    }
  }

  // ---- Steps ---------------------------------------------------------------

  /** One turn: a failure that is queued again pays for the new item exactly. */
  lemma TurnMeasure(cfg: Config, s: Node, info: FileInfo, peer: string, local: Option<nat>, answer: Answer)
    ensures var r := Turn(cfg, s, info, peer, local, answer);
      QueueWeight(cfg.retryCount, r.node.toPeers) + Weight(cfg.retryCount, r.info.retry)
        == QueueWeight(cfg.retryCount, s.toPeers) + Weight(cfg.retryCount, info.retry)
  {
    var m := if local.Some? then Measured(info, local.value) else info;
    QueueWeightAppend(cfg.retryCount, s.toPeers, Retried(cfg, m));
  }

  /** Taking an item from the queue costs exactly one. */
  lemma StartMeasure(cfg: Config, m: Member)
    requires m.node.toPeers != []
    ensures Measure(cfg,
        m.(node := m.node.(toPeers := m.node.toPeers[1..]), flight := m.flight + [Pass(m.node.toPeers[0], 0)]))
         == Measure(cfg, m) - 1
  {
    QueueWeightHead(cfg.retryCount, m.node.toPeers);
    FlightWeightAppend(cfg.retryCount, m.flight, Pass(m.node.toPeers[0], 0));
  }

  /** An exchange costs nothing, neither here nor at the peer. */
  lemma ExchangeMeasure(conf: Conf, c: World, h: string, i: nat, answer: Answer, q: string)
    requires Proper(conf) && Enabled(conf, c, Exchange(h, i, answer)) && q in c.members
    ensures var d := Exchanged(conf[h], c, h, i, answer);
      q in d.members && q in conf ==> Measure(conf[q], d.members[q]) == Measure(conf[q], c.members[q])
  {
    hide Turn, QueueWeight, FlightWeight;
    var cfg, m := conf[h], c.members[h];
    var pass := m.flight[i];
    var local := Transfer.Local(cfg, m.disk, pass.info);
    var r := Turn(cfg, m.node, pass.info, cfg.peers[pass.next], local, answer);
    TurnMeasure(cfg, m.node, pass.info, cfg.peers[pass.next], local, answer);
    FlightWeightAt(cfg.retryCount, m.flight, i, Pass(r.info, pass.next + 1));
  }

  /** An upload that is not dropped as a duplicate. */
  predicate Uploads(conf: Conf, c: World, a: Action, h: string) {
    a.Upload? && a.h == h && h in conf && h in c.members && !Duplicate(conf[h], c.members[h].node, a.info.md5)
  }

  /** A fetch in which the node offers its own, newer file instead. */
  predicate Instead(conf: Conf, c: World, a: Action, h: string) {
    a.Fetch? && a.h == h && h in conf && h in c.members && OffersOwn(conf[h], c.members[h])
  }

  /** New work for h that the action brings: a file uploaded, one from the index queued again,
      or a newer one offered instead of being fetched. */
  function Brings(conf: Conf, c: World, a: Action, h: string): nat {
    if Uploads(conf, c, a, h) || Instead(conf, c, a, h) || (a.h == h && ((a.Resend? && a.toPeers) || a.Repair?))
    then 1 else 0
  }

  /** Calls of postFileToPeer that the action starts at h. */
  function Starts(conf: Conf, c: World, a: Action, h: string): nat {
    if Uploads(conf, c, a, h) || Instead(conf, c, a, h) || (a.h == h && a.Start?) then 1 else 0
  }

  lemma {:induction false} WeightFalls(limit: int, retry: int)
    requires retry >= 0
    ensures Weight(limit, retry) <= Weight(limit, 0)
  {
    if retry > 0 { WeightFalls(limit, retry - 1); }
  }

  lemma FetchMeasure(cfg: Config, m: Member, net: Transfer.Net)
    requires m.node.fromPeers != [] && m.node.fromPeers[0].offSet != MIGRATED && m.node.fromPeers[0].retry >= 0
    ensures Measure(cfg, Received(cfg, m, net))
         <= Measure(cfg, m) + (if OffersOwn(cfg, m) then Weight(cfg.retryCount, 0) - 1 else 0)
  {
    hide Received, OffersOwn, Weight, QueueWeight, FlightWeight;
    var n := Received(cfg, m, net);
    ReceivedShape(cfg, m, net);
    if n.flight != m.flight {
      var x := n.flight[|m.flight|];
      assert n.flight == m.flight + [x];
      FlightWeightAppend(cfg.retryCount, m.flight, x);
      WeightFalls(cfg.retryCount, x.info.retry);
    }
  }

  lemma QueuedAgain(taken: Taking, h: string, cfg: Config, s: Node, md5: Sum, force: bool)
    requires NodeVouched(taken, h, s)
    ensures md5 in s.index.ldb ==> s.index.ldb[md5].retry == 0
    ensures Resendable(cfg, s, md5, force).Some? ==> Resendable(cfg, s, md5, force).value.retry == 0
  {
  }

  lemma LocalMeasure(conf: Conf, c: World, a: Action)
    requires AllVouched(c) && Enabled(conf, c, a) && !a.Exchange? && !a.Start?
    ensures
      var d := Next(conf, c, a);
      && a.h in d.members
      && Measure(conf[a.h], d.members[a.h]) + Starts(conf, c, a, a.h)
           <= Measure(conf[a.h], c.members[a.h])
              + (if Brings(conf, c, a, a.h) == 1 then Weight(conf[a.h].retryCount, 0) else 0)
  {
    hide SaveLog, Consumed, Resendable, Vouched, QueueWeight, FlightWeight, Weight, Received, OffersOwn;
    hide StillOwed, Stores, Storing, FileInfo.DiskPath, Without;
    var cfg, m := conf[a.h], c.members[a.h];
    assert MemberVouched(c.accepted, a.h, m);
    match a
    case Upload(h, info) => FlightWeightAppend(cfg.retryCount, m.flight, Pass(info, 0));
    case End(h, i) => FlightWeightAt(cfg.retryCount, m.flight, i, m.flight[i]);
    case Resend(h, md5, force, toPeers) =>
      QueuedAgain(c.accepted, h, cfg, m.node, md5, force);
      QueueWeightAppend(cfg.retryCount, m.node.toPeers, Resendable(cfg, m.node, md5, force).value);
    case Repair(h, md5) =>
      QueuedAgain(c.accepted, h, cfg, m.node, md5, false);
      QueueWeightAppend(cfg.retryCount, m.node.toPeers, m.node.index.ldb[md5]);
    case WriteLog(_) => ConsumedQueues(m.node);
    case Fetch(h, net) =>
      assert m.node.fromPeers[0] in m.node.fromPeers;
      VouchedFirst(c.accepted, h, m.node.fromPeers[0]);
      FetchMeasure(cfg, m, net);
    case _ =>
  }

  lemma VouchedFirst(taken: Taking, h: string, info: FileInfo)
    requires Vouched(taken, h, info)
    ensures info.offSet != MIGRATED && info.retry >= 0
  {
  }

  lemma ConsumedQueues(s: Node)
    ensures Consumed(s).toPeers == s.toPeers
  {
  }

  /** The measure counts the calls still to come: a started call lowers it by one, and only
      new work raises it, by its weight. */
  lemma StepMeasure(conf: Conf, c: World, a: Action, h: string)
    requires Proper(conf) && AllVouched(c) && Enabled(conf, c, a) && h in c.members && h in conf
    ensures
      var d := Next(conf, c, a);
      && h in d.members
      && Measure(conf[h], d.members[h]) + Starts(conf, c, a, h)
           <= Measure(conf[h], c.members[h]) + (if Brings(conf, c, a, h) == 1 then Weight(conf[h].retryCount, 0) else 0)
  {
    hide Measure, SaveLog, Consumed, Resendable, Exchanged, Vouched, NodeVouched;
    if a.Exchange? {
      ExchangeMembers(conf[a.h], c, a.h, a.i, a.answer);
      ExchangeMeasure(conf, c, a.h, a.i, a.answer, h);
    } else if a.h == h {
      if a.Start? { StartMeasure(conf[h], c.members[h]); } else { LocalMeasure(conf, c, a); }
    }
  }

  lemma ExchangeMembers(cfg: Config, c: World, h: string, i: nat, answer: Answer)
    requires h in c.members && i < |c.members[h].flight| && c.members[h].flight[i].next < |cfg.peers|
    ensures Exchanged(cfg, c, h, i, answer).members.Keys == c.members.Keys
  {
    hide Turn, Taken;
  }

  // ---- Whole runs ----------------------------------------------------------

  function Started(conf: Conf, today: nat, actions: seq<Action>, h: string): nat {
    if actions == [] then 0 else
    var init, a := actions[..|actions| - 1], actions[|actions| - 1];
    Started(conf, today, init, h)
      + (match Cluster.Run(conf, today, init) case None => 0 case Some(c) => Starts(conf, c, a, h))
  }

  function Brought(conf: Conf, today: nat, actions: seq<Action>, h: string): nat {
    if actions == [] then 0 else
    var init, a := actions[..|actions| - 1], actions[|actions| - 1];
    Brought(conf, today, init, h)
      + (match Cluster.Run(conf, today, init) case None => 0 case Some(c) => Brings(conf, c, a, h))
  }

  /** In every run, with any number of calls interleaving and peers failing in any pattern,
      the calls of postFileToPeer at a node, and those its queue can still lead to, are at
      most 2^(RetryCount+1) for each file that was uploaded there, queued again from the index,
      or kept because it is newer than the one to be fetched. */
  lemma {:induction false} PassesBounded(conf: Conf, today: nat, actions: seq<Action>, h: string)
    requires Proper(conf) && h in conf && Cluster.Run(conf, today, actions).Some?
    ensures
      var c := Cluster.Run(conf, today, actions).value;
      && h in c.members
      && Started(conf, today, actions, h) + Measure(conf[h], c.members[h])
           <= Weight(conf[h].retryCount, 0) * Brought(conf, today, actions, h)
  {
    hide Next, Enabled, Measure, Weight, Starts, Brings;
    if actions == [] {
      assert Measure(conf[h], Fresh(conf, today).members[h]) == 0 by { FreshMeasure(conf, today, h); }
    } else {
      var init, a := actions[..|actions| - 1], actions[|actions| - 1];
      PassesBounded(conf, today, init, h);
      RunVouched(conf, today, init);
      var c := Cluster.Run(conf, today, init).value;
      StepMeasure(conf, c, a, h);
      var w, b := Weight(conf[h].retryCount, 0), Brought(conf, today, init, h);
      assert Brings(conf, c, a, h) <= 1 by { BringsOne(conf, c, a, h); }
      if Brings(conf, c, a, h) == 1 { assert w * (b + 1) == w * b + w; }
    }
  }

  lemma BringsOne(conf: Conf, c: World, a: Action, h: string)
    ensures Brings(conf, c, a, h) <= 1
  {
  }

  lemma FreshMeasure(conf: Conf, today: nat, h: string)
    requires h in conf
    ensures Measure(conf[h], Fresh(conf, today).members[h]) == 0
  {
  }

  // ---- The bound is met ----------------------------------------------------

  /** One worker empties the queue: every exchange fails, the offered files are on disk. */
  function Drain(cfg: Config, s: Node, size: nat): (calls: nat)
    decreases QueueWeight(cfg.retryCount, s.toPeers)
  {
    if s.toPeers == [] then 0 else
    DrainDecreases(cfg, s, size);
    1 + Drain(cfg, Failed(cfg, s, size).node, size)
  }

  /** The call for the first item of the queue, when nothing is answered. */
  function Failed(cfg: Config, s: Node, size: nat): Posted
    requires s.toPeers != []
  {
    Posting(cfg, s.(toPeers := s.toPeers[1..]), s.toPeers[0], Some(size), AllLost(cfg), |cfg.peers|)
  }

  function AllLost(cfg: Config): seq<Answer> { seq(|cfg.peers|, i => Lost(false)) }

  lemma {:induction false} PostingMeasure(cfg: Config, s: Node, info: FileInfo, local: Option<nat>,
                                          answers: seq<Answer>, n: nat)
    requires n <= |cfg.peers| == |answers|
    ensures var p := Posting(cfg, s, info, local, answers, n);
      QueueWeight(cfg.retryCount, p.node.toPeers) + Weight(cfg.retryCount, p.info.retry)
        == QueueWeight(cfg.retryCount, s.toPeers) + Weight(cfg.retryCount, info.retry)
  {
    hide Turn, QueueWeight, Weight;
    if n > 0 {
      PostingMeasure(cfg, s, info, local, answers, n - 1);
      var p := Posting(cfg, s, info, local, answers, n - 1);
      TurnMeasure(cfg, p.node, p.info, cfg.peers[n - 1], local, answers[n - 1]);
    }
  }

  lemma DrainDecreases(cfg: Config, s: Node, size: nat)
    requires s.toPeers != []
    ensures QueueWeight(cfg.retryCount, Failed(cfg, s, size).node.toPeers) < QueueWeight(cfg.retryCount, s.toPeers)
  {
    hide QueueWeight, Posting;
    QueueWeightHead(cfg.retryCount, s.toPeers);
    PostingMeasure(cfg, s.(toPeers := s.toPeers[1..]), s.toPeers[0], Some(size), AllLost(cfg), |cfg.peers|);
  }

  /** The items name none of the configured peers, and there are enough of those to fail
      as often as an item is queued again. */
  predicate Hopeless(cfg: Config, info: FileInfo) {
    && (forall p :: p in info.peers ==> p !in cfg.peers)
    && cfg.retryCount + 1 <= info.retry + |cfg.peers|
  }

  lemma {:induction false} FailedPosting(cfg: Config, s: Node, info: FileInfo, size: nat, n: nat)
    requires n <= |cfg.peers| && forall p :: p in info.peers ==> p !in cfg.peers
    ensures var p := Posting(cfg, s, info, Some(size), AllLost(cfg), n);
      && p.info.peers == info.peers
      && p.info.retry >= info.retry && (p.info.retry >= info.retry + n || p.info.retry > cfg.retryCount)
      && |s.toPeers| <= |p.node.toPeers| && p.node.toPeers[..|s.toPeers|] == s.toPeers
      && (forall j :: |s.toPeers| <= j < |p.node.toPeers| ==>
          p.node.toPeers[j].peers == info.peers && p.node.toPeers[j].retry > info.retry)
  {
    hide AllLost;
    assert n > 0 ==> AllLost(cfg)[n - 1] == Lost(false) by { LostAt(cfg); }
    if n > 0 {
      FailedPosting(cfg, s, info, size, n - 1);
      assert cfg.peers[n - 1] in cfg.peers;
    }
  }

  lemma LostAt(cfg: Config)
    ensures |AllLost(cfg)| == |cfg.peers| && forall i :: 0 <= i < |cfg.peers| ==> AllLost(cfg)[i] == Lost(false)
  {
  }

  /** When no peer ever answers, the bound is met exactly: an item with r retries leads to
      2^(RetryCount+1-r) calls. */
  lemma {:induction false} DrainExact(cfg: Config, s: Node, size: nat)
    requires forall e :: e in s.toPeers ==> Hopeless(cfg, e)
    ensures Drain(cfg, s, size) == QueueWeight(cfg.retryCount, s.toPeers)
    decreases QueueWeight(cfg.retryCount, s.toPeers)
  {
    hide Posting, QueueWeight;
    if s.toPeers == [] {
      assert QueueWeight(cfg.retryCount, s.toPeers) == 0 by { EmptyWeight(cfg.retryCount); }
    } else {
      var rest, info := s.(toPeers := s.toPeers[1..]), s.toPeers[0];
      var p := Failed(cfg, s, size);
      assert info in s.toPeers;
      FailedPosting(cfg, rest, info, size, |cfg.peers|);
      PostingMeasure(cfg, rest, info, Some(size), AllLost(cfg), |cfg.peers|);
      QueueWeightHead(cfg.retryCount, s.toPeers);
      DrainDecreases(cfg, s, size);
      forall e | e in p.node.toPeers ensures Hopeless(cfg, e) {
        var j :| 0 <= j < |p.node.toPeers| && p.node.toPeers[j] == e;
        if j < |rest.toPeers| { assert e == rest.toPeers[j] && e in s.toPeers; }
      }
      DrainExact(cfg, p.node, size);
    }
  }

  lemma EmptyWeight(limit: int)
    ensures QueueWeight(limit, []) == 0
  {
  }

  /** One file, never tried before, with enough peers and none of them ever answering. */
  lemma FreshFileExact(cfg: Config, s: Node, info: FileInfo, size: nat)
    requires cfg.retryCount >= 0 && info.retry == 0 && |cfg.peers| >= cfg.retryCount + 1
    requires forall p :: p in info.peers ==> p !in cfg.peers
    ensures Drain(cfg, s.(toPeers := [info]), size) == Pow2(cfg.retryCount + 1)
  {
    hide Drain;
    DrainExact(cfg, s.(toPeers := [info]), size);
    QueueWeightAppend(cfg.retryCount, [], info);
    assert [] + [info] == [info];
    WeightIsPower(cfg.retryCount, 0);
  }
}
