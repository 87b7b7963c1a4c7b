/** Two files of one size that are bound for one path. */
module Collisions {
  import opened Types
  import opened Index
  import opened Text
  import opened Protocol
  import opened Cluster
  import opened Obligation
  import opened Draining
  import opened Origins
  import opened Convergence
  import opened Agreement
  import Transfer
  import Replica

  // ---- A node that has neither ---------------------------------------------

  /** At q, a and b would be whole files of this size under this path, wherever they are queued,
      and no other file that may come there would touch the path. */
  ghost predicate Bound(conf: Conf, c: World, q: string, a: Sum, b: Sum, path: string, size: int)
    requires q in conf
  {
    forall p, r :: Queues(c, p, r) ==>
      if r.md5 == a || r.md5 == b
      then WHOLE == r.offSet && r.size == size && r.DiskPath(conf[q]) == path
      else Reaches(conf, c, q, r) ==> !Touches(conf[q], r, path)
  }

  /** The node has at most one of the two, and if it has one, a file of that size is in place. */
  ghost predicate AtMostOne(m: Member, a: Sum, b: Sum, path: string, size: int) {
    && !(Has(m, a) && Has(m, b))
    && (Has(m, a) || Has(m, b) ==> SizeAt(m.disk, path) == Some(size))
  }

  /** What is to be fetched of the two is bound for the path, and anything else leaves it. */
  lemma CameBound(conf: Conf, c: World, q: string, a: Sum, b: Sum, path: string, size: int, e: FileInfo)
    requires q in conf && Bound(conf, c, q, a, b, path, size) && size > 0 && Came(conf, c, q, e)
    ensures if e.md5 == a || e.md5 == b then e.offSet == WHOLE && e.size == size && e.DiskPath(conf[q]) == path
            else !Touches(conf[q], e, path)
  {
    hide Reaches, Touches, FileInfo.DiskPath, Transfer.TmpPath, Transfer.OfferPath;
    var f :| Kin(e, f) && Reaches(conf, c, q, f);
    ReachesQueued(conf, c, q, f);
    KinTouches(conf[q], e, f, path);
  }

  /** A fetch of a whole file that changes anything puts a file of the announced size into place,
      where there was none. */
  lemma WholeOutcome(cfg: Config, m: Member, net: Transfer.Net)
    requires m.node.fromPeers != [] && cfg.distinct && Arrives(m.node.fromPeers[0], net)
    requires m.node.fromPeers[0].offSet == WHOLE && m.node.fromPeers[0].size >= 0
    ensures var n, e := Received(cfg, m, net), m.node.fromPeers[0];
      var path := e.DiskPath(cfg);
      && n.node.index == m.node.index
      && (if n.node.pending == m.node.pending then SizeAt(n.disk, path) == SizeAt(m.disk, path)
          else n.node.pending == m.node.pending + [LogEntry(Transfer.Tried(e), Files)]
               && SizeAt(m.disk, path) != Some(e.size) && SizeAt(n.disk, path) == Some(e.size))
  {
    hide FileInfo.DiskPath, Transfer.TmpPath, Transfer.PeerOf, Replica.WriteAt, Text.Split;
    Transfer.TmpIsOther(cfg, m.node.fromPeers[0]);
  }

  lemma FetchOne(cfg: Config, m: Member, net: Transfer.Net, a: Sum, b: Sum, path: string, size: int)
    requires m.node.fromPeers != [] && cfg.distinct && Arrives(m.node.fromPeers[0], net) && a != b && size > 0
    requires var e := m.node.fromPeers[0];
      if e.md5 == a || e.md5 == b then e.offSet == WHOLE && e.size == size && e.DiskPath(cfg) == path
      else !Touches(cfg, e, path)
    requires AtMostOne(m, a, b, path, size)
    ensures AtMostOne(Received(cfg, m, net), a, b, path, size)
  {
    hide Received, Touches, FileInfo.DiskPath, Logs, LogsSome;
    var n, e := Received(cfg, m, net), m.node.fromPeers[0];
    if e.md5 == a || e.md5 == b {
      WholeOutcome(cfg, m, net);
      if n.node.pending != m.node.pending {
        forall x | x in n.node.pending ensures x in m.node.pending || x == LogEntry(Transfer.Tried(e), Files) {}
      }
    } else {
      FetchOther(cfg, m, net, a);
      AlikeHas(m, n, a);
      FetchOther(cfg, m, net, b);
      AlikeHas(m, n, b);
      FetchLeaves(cfg, m, net, path);
    }
  }

  lemma WriteHas(m: Member, md5: Sum)
    requires m.node.pending != [] && md5.OfContent? && m.node.pending[0].log in {Files, Queue}
    ensures Has(m.(node := Consumed(m.node)), md5) == Has(m, md5)
  {
    hide SaveLog, Logs;
    var e, n := m.node.pending[0], m.(node := Consumed(m.node));
    assert forall x :: x in m.node.pending ==> x == e || x in n.node.pending;
    assert forall x :: x in n.node.pending ==> x in m.node.pending;
    if e.info.md5 == md5 {
      SavedOwn(m.node.index, e.info, e.log);
      if e.log == Files { assert Logs(n.node.index, md5, e.info.timeStamp.day); }
    } else {
      SavedOther(m.node.index, e.info, e.log, md5);
    }
  }

  lemma TakenHas(m: Member, e: FileInfo, md5: Sum)
    requires e.offSet != MIGRATED || e.md5 != md5
    ensures Has(m.(node := Taken(m.node, e)), md5) == Has(m, md5)
  {
    hide Logs;
    var n := m.(node := Taken(m.node, e));
    if e.offSet == MIGRATED {
      PutOther(m.node.index, e, md5);
    } else {
      assert forall x :: x in n.node.pending ==> x in m.node.pending || x == LogEntry(e, Queue);
      assert forall x :: x in m.node.pending ==> x in n.node.pending;
    }
  }

  lemma PutOther(s: State, e: FileInfo, md5: Sum)
    requires e.md5 != md5
    ensures forall day :: Logs(PutIndex(s, e.md5, e), md5, day) == Logs(s, md5, day)
  {
  }

  /** The node does not send either of the two: it has queued no record of them. */
  lemma StemsNeither(conf: Conf, c: World, q: string, a: Sum, b: Sum, path: string, size: int, e: FileInfo)
    requires q in conf && q in c.members && Bound(conf, c, q, a, b, path, size) && Stems(c, q, e)
    requires Lacks(c, a, q) && Lacks(c, b, q) && Settled(c.members[q], a) && Settled(c.members[q], b)
    ensures e.md5 != a && e.md5 != b
  {
    hide Reaches, Touches, FileInfo.DiskPath, Logs;
    var f :| Kin(e, f) && Offerable(c, q, f);
    if !Queues(c, q, f) { var x :| Queues(c, x, f); }
  }

  lemma SameHas(m: Member, n: Member, a: Sum, b: Sum, path: string, size: int)
    requires AtMostOne(m, a, b, path, size) && Has(n, a) == Has(m, a) && Has(n, b) == Has(m, b)
    requires SizeAt(n.disk, path) == SizeAt(m.disk, path)
    ensures AtMostOne(n, a, b, path, size)
  {
  }

  lemma StepOne(conf: Conf, c: World, d: World, act: Action, q: string, a: Sum, b: Sum, path: string, size: int)
    requires Proper(conf) && Unified(conf) && AllOrigin(conf, c, d) && Succeeds(conf, d, act)
    requires q in conf && q in d.members && q in c.members && Bound(conf, c, q, a, b, path, size)
    requires a != b && a.OfContent? && b.OfContent? && size > 0
    requires Lacks(c, a, q) && Lacks(c, b, q) && Settled(c.members[q], a) && Settled(c.members[q], b)
    requires AtMostOne(d.members[q], a, b, path, size)
    ensures q in Next(conf, d, act).members && AtMostOne(Next(conf, d, act).members[q], a, b, path, size)
  {
    hide Bound, AtMostOne, Exchanged, Consumed, Received, StillOwed, Settled, Lacks, Came, Stems, Has;
    var m, e := d.members[q], Next(conf, d, act);
    if act.Exchange? {
      ExchangeOne(conf, c, d, act.h, act.i, act.answer, q, a, b, path, size);
    } else if q == act.h {
      assert Origin(conf, c, q, m);
      match act
      case Start(h) => StillHas(m, e.members[h], a, b, path, size);
      case End(h, i) => StillHas(m, e.members[h], a, b, path, size);
      case WriteLog(h) =>
        assert m.node.pending[0] in m.node.pending;
        WriteHas(m, a);
        WriteHas(m, b);
        SameHas(m, e.members[h], a, b, path, size);
      case Ask(h, asked) =>
        HasForgotten(m, asked, a);
        HasForgotten(m, asked, b);
        SameHas(m, e.members[h], a, b, path, size);
      case Fetch(h, net) =>
        assert m.node.fromPeers[0] in m.node.fromPeers;
        CameBound(conf, c, q, a, b, path, size, m.node.fromPeers[0]);
        FetchOne(conf[h], m, net, a, b, path, size);
      case _ =>
    }
  }

  lemma StillHas(m: Member, n: Member, a: Sum, b: Sum, path: string, size: int)
    requires AtMostOne(m, a, b, path, size)
    requires n.node.index == m.node.index && n.node.pending == m.node.pending && n.disk == m.disk
    ensures AtMostOne(n, a, b, path, size)
  {
    hide AtMostOne, Has;
    HasSame(m, n, a);
    HasSame(m, n, b);
    SameHas(m, n, a, b, path, size);
  }

  lemma ExchangeOne(conf: Conf, c: World, d: World, h: string, i: nat, answer: Answer, q: string, a: Sum, b: Sum,
                    path: string, size: int)
    requires Proper(conf) && Unified(conf) && AllOrigin(conf, c, d) && Succeeds(conf, d, Exchange(h, i, answer))
    requires q in conf && q in d.members && q in c.members && Bound(conf, c, q, a, b, path, size) && size > 0
    requires Lacks(c, a, q) && Lacks(c, b, q) && Settled(c.members[q], a) && Settled(c.members[q], b)
    requires AtMostOne(d.members[q], a, b, path, size)
    ensures var e := Exchanged(conf[h], d, h, i, answer);
      q in e.members && AtMostOne(e.members[q], a, b, path, size)
  {
    hide Bound, AtMostOne, Exchanged, Taken, Offered, Settled, Lacks, Came, Stems, Has, Origin, Announced;
    hide Transfer.Local;
    var m, e := d.members[h], Exchanged(conf[h], d, h, i, answer);
    Exchanging(conf, d, h, i, answer);
    if q == h {
      assert Origin(conf, c, h, m);
      FlightStems(conf, c, h, m, i);
      StemsNeither(conf, c, q, a, b, path, size, m.flight[i].info);
      OtherOffered(conf[h], m, i, answer, a);
      AlikeHas(m, e.members[q], a);
      OtherOffered(conf[h], m, i, answer, b);
      AlikeHas(m, e.members[q], b);
      SameHas(m, e.members[q], a, b, path, size);
    } else if q == conf[h].peers[m.flight[i].next] && Delivers(conf[h], m, i, answer) {
      AnnouncedCame(conf, c, d, h, i, answer);
      var f := Announced(conf[h], m, i);
      CameBound(conf, c, q, a, b, path, size, f);
      TakenHas(d.members[q], f, a);
      TakenHas(d.members[q], f, b);
      SameHas(d.members[q], e.members[q], a, b, path, size);
    }
  }

  /** Of two files of one size that are bound for one path, a node that has neither comes to log at
      most one, however everything that is queued is sent: the code takes the one that is
      there for the other. */
  lemma {:induction false} SharedPlace(conf: Conf, c: World, actions: seq<Action>, q: string, a: Sum, b: Sum,
                                       path: string, size: int)
    requires Proper(conf) && Unified(conf) && c.members.Keys == conf.Keys && Drain(conf, c, actions).Some?
    requires forall h :: h in c.members ==> OnlyQueued(c.members[h])
    requires q in c.members && Bound(conf, c, q, a, b, path, size) && size > 0
    requires a != b && a.OfContent? && b.OfContent?
    requires Lacks(c, a, q) && Lacks(c, b, q) && Settled(c.members[q], a) && Settled(c.members[q], b)
    ensures var e := Drain(conf, c, actions).value;
      q in e.members && AtMostOne(e.members[q], a, b, path, size)
  {
    hide Bound, AtMostOne, Next, Succeeds, Settled, OnlyQueued, AllOrigin, Unified;
    if actions == [] {
      assert OnlyQueued(c.members[q]);
      NeitherAtStart(c.members[q], a, b, path, size);
    } else {
      var init := actions[..|actions| - 1];
      SharedPlace(conf, c, init, q, a, b, path, size);
      DrainOrigin(conf, c, init);
      StepOne(conf, c, Drain(conf, c, init).value, actions[|actions| - 1], q, a, b, path, size);
    }
  }

  lemma NeitherAtStart(m: Member, a: Sum, b: Sum, path: string, size: int)
    requires OnlyQueued(m) && Settled(m, a) && Settled(m, b)
    requires a !in m.node.index.ldb && b !in m.node.index.ldb
    ensures AtMostOne(m, a, b, path, size)
  {
    hide Logs;
  }

  /** So after a repair of a day that two such files belong to, the nodes do not agree. */
  lemma SharedPlaceDisagrees(conf: Conf, c: World, d: World, r: string, day: nat, actions: seq<Action>, q: string,
                             a: Sum, b: Sum, path: string, size: int)
    requires Proper(conf) && Unified(conf) && Ready(conf, c, day) && Repairs(conf, c, d, r, day)
    requires Drain(conf, d, actions).Some?
    requires a in Union(c, day) && b in Union(c, day) && a != b && q in c.members
    requires Lacks(c, a, q) && Lacks(c, b, q) && Bound(conf, d, q, a, b, path, size) && size > 0
    ensures !Agree(c, Drain(conf, d, actions).value, day)
  {
    hide Drain, Ready, Repairs, Union, Bound, AtMostOne, Settled, OnlyQueued;
    RepairStarts(conf, c, d, r, day);
    RepairSettles(conf, c, d, r, day, a);
    RepairSettles(conf, c, d, r, day, b);
    RepairsIndex(conf, c, d, r, day, q);
    SharedPlace(conf, d, actions, q, a, b, path, size);
    var e := Drain(conf, d, actions).value;
    if Agree(c, e, day) {
      assert a in DaySet(e.members[q], day) && b in DaySet(e.members[q], day);
      LoggedHas(e.members[q], a, day);
      LoggedHas(e.members[q], b, day);
      NotBoth(e.members[q], a, b, path, size);
    }
  }

  lemma LoggedHas(m: Member, md5: Sum, day: nat)
    requires md5 in DaySet(m, day)
    ensures Has(m, md5)
  {
    assert Logs(m.node.index, md5, day);
  }

  lemma NotBoth(m: Member, a: Sum, b: Sum, path: string, size: int)
    requires AtMostOne(m, a, b, path, size)
    ensures !(Has(m, a) && Has(m, b))
  {
  }
}
