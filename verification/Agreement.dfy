/** The repair of a day: which nodes log what for it, when everything that was queued is sent. */
module Agreement {
  import opened Types
  import opened Index
  import opened Text
  import opened Protocol
  import opened Cluster
  import opened Obligation
  import opened Draining
  import opened Origins
  import opened Convergence
  import Transfer

  // ---- Nothing comes from nowhere ------------------------------------------

  predicate Other(e: FileInfo, md5: Sum, day: nat) { e.md5 != md5 || e.timeStamp.day != day }

  /** The node does not log the content for the day, nor has it such a record on its way. */
  ghost predicate Absent(m: Member, md5: Sum, day: nat) {
    && !Logs(m.node.index, md5, day)
    && (forall e :: e in m.node.pending ==> Other(e.info, md5, day))
    && (forall e :: e in m.node.toPeers ==> Other(e, md5, day))
    && (forall e :: e in m.node.fromPeers ==> Other(e, md5, day))
    && (forall p :: p in m.flight ==> Other(p.info, md5, day))
  }

  ghost predicate AllAbsent(c: World, md5: Sum, day: nat) {
    forall h :: h in c.members ==> Absent(c.members[h], md5, day)
  }

  lemma SavedAbsent(s: State, info: FileInfo, log: Log, md5: Sum, day: nat)
    requires !Logs(s, md5, day) && Other(info, md5, day)
    ensures !Logs(SaveLog(s, info, log), md5, day)
  {
    hide FileInfo.FullPath;
  }

  lemma WriteAbsent(m: Member, md5: Sum, day: nat)
    requires Absent(m, md5, day) && m.node.pending != []
    ensures Absent(m.(node := Consumed(m.node)), md5, day)
  {
    hide SaveLog, Logs;
    var e := m.node.pending[0];
    assert e in m.node.pending;
    SavedAbsent(m.node.index, e.info, e.log, md5, day);
  }

  lemma FetchAbsent(cfg: Config, m: Member, net: Transfer.Net, md5: Sum, day: nat)
    requires Absent(m, md5, day) && m.node.fromPeers != [] && Arrives(m.node.fromPeers[0], net)
    requires cfg.distinct && m.node.fromPeers[0].offSet != MIGRATED
    ensures Absent(Received(cfg, m, net), md5, day)
  {
    hide Received, OffersOwn, Logs, FileInfo.DiskPath;
    ReceivedWell(cfg, m, net);
    assert m.node.fromPeers[0] in m.node.fromPeers;
  }

  lemma OfferAbsent(cfg: Config, m: Member, i: nat, answer: Answer, md5: Sum, day: nat)
    requires i < |m.flight| && m.flight[i].next < |cfg.peers| && (answer.Found? || answer.Accepted?)
    requires Absent(m, md5, day)
    ensures Absent(Offered(cfg, m, i, answer), md5, day)
  {
    hide Turn, Transfer.Local;
    var pass, n := m.flight[i], Offered(cfg, m, i, answer);
    assert pass in m.flight;
    Answered(cfg, m.node, pass.info, cfg.peers[pass.next], Transfer.Local(cfg, m.disk, pass.info), answer);
    PassReplaced(m.flight, i, n.flight[i]);
  }

  lemma TakeAbsent(m: Member, info: FileInfo, md5: Sum, day: nat)
    requires Absent(m, md5, day) && Other(info, md5, day)
    ensures Absent(m.(node := Taken(m.node, info)), md5, day)
  {
  }

  lemma StepAbsent(conf: Conf, c: World, a: Action, md5: Sum, day: nat)
    requires Proper(conf) && Unified(conf) && AllAbsent(c, md5, day) && Succeeds(conf, c, a)
    requires a.Fetch? ==> c.members[a.h].node.fromPeers[0].offSet != MIGRATED
    ensures AllAbsent(Next(conf, c, a), md5, day)
  {
    hide Absent, Exchanged, Consumed, Received, StillOwed, Offered, Taken, Announced, Transfer.Local, Forgetting, Stale;
    var m, d := c.members[a.h], Next(conf, c, a);
    assert Absent(m, md5, day);
    match a
    case Start(h) => MovedAbsent(m, d.members[h], md5, day);
    case End(h, i) => MovedAbsent(m, d.members[h], md5, day);
    case WriteLog(h) => WriteAbsent(m, md5, day);
    case Fetch(h, net) => FetchAbsent(conf[h], m, net, md5, day);
    case Ask(h, asked) => AskAbsent(m, asked, md5, day);
    case Exchange(h, i, answer) =>
      Exchanging(conf, c, h, i, answer);
      OfferAbsent(conf[h], m, i, answer, md5, day);
      var peer := conf[h].peers[m.flight[i].next];
      assert Absent(c.members[peer], md5, day);
      if Delivers(conf[h], m, i, answer) {
        AnnouncedOther(conf[h], m, i, md5, day);
        TakeAbsent(c.members[peer], Announced(conf[h], m, i), md5, day);
      }
    case _ =>
  }

  lemma AskAbsent(m: Member, asked: Sum, md5: Sum, day: nat)
    requires Absent(m, md5, day)
    ensures Absent(Forgetting(m, asked), md5, day)
  {
  }

  lemma AnnouncedOther(cfg: Config, m: Member, i: nat, md5: Sum, day: nat)
    requires Absent(m, md5, day) && i < |m.flight| && Transfer.Local(cfg, m.disk, m.flight[i].info).Some?
    ensures Other(Announced(cfg, m, i), md5, day)
  {
    assert m.flight[i] in m.flight;
  }

  lemma MovedAbsent(m: Member, n: Member, md5: Sum, day: nat)
    requires Absent(m, md5, day) && n.node.index == m.node.index && n.node.pending == m.node.pending
    requires n.node.fromPeers == m.node.fromPeers && forall e :: e in n.node.toPeers ==> e in m.node.toPeers
    requires forall p :: p in n.flight ==> p in m.flight || p.info in m.node.toPeers
    ensures Absent(n, md5, day)
  {
  }

  /** No migrated file is queued. */
  ghost predicate Unmigrated(c: World) { forall p, f :: Queues(c, p, f) ==> f.offSet != MIGRATED }

  lemma FetchesUnmigrated(conf: Conf, c: World, d: World, h: string)
    requires AllOrigin(conf, c, d) && Unmigrated(c) && h in d.members && d.members[h].node.fromPeers != []
    ensures d.members[h].node.fromPeers[0].offSet != MIGRATED
  {
    var m := d.members[h];
    assert Origin(conf, c, h, m) && m.node.fromPeers[0] in m.node.fromPeers;
    var f :| Kin(m.node.fromPeers[0], f) && Reaches(conf, c, h, f);
  }

  /** What is neither logged for the day anywhere nor queued with it is not logged for it after any
      drain. A migrated file could be: a node that keeps a newer file offers that under the
      day of its own. */
  lemma {:induction false} DrainAbsent(conf: Conf, c: World, actions: seq<Action>, md5: Sum, day: nat)
    requires Proper(conf) && Unified(conf) && AllAbsent(c, md5, day) && Drain(conf, c, actions).Some?
    requires c.members.Keys == conf.Keys && Unmigrated(c) && forall h :: h in c.members ==> OnlyQueued(c.members[h])
    ensures AllAbsent(Drain(conf, c, actions).value, md5, day)
  {
    hide Next, AllAbsent, AllOrigin, OnlyQueued, Unmigrated, Unified;
    if actions != [] {
      var init, a := actions[..|actions| - 1], actions[|actions| - 1];
      DrainAbsent(conf, c, init, md5, day);
      DrainOrigin(conf, c, init);
      var d := Drain(conf, c, init).value;
      if a.Fetch? { FetchesUnmigrated(conf, c, d, a.h); }
      StepAbsent(conf, d, a, md5, day);
    }
  }

  // ---- The repair of a day -------------------------------------------------

  function DaySet(m: Member, day: nat): set<Sum> { Logged(m.node.index.logDB, day) }

  /** What the nodes log for the day together. */
  function Union(c: World, day: nat): set<Sum> {
    set h, m | h in c.members && m in DaySet(c.members[h], day) :: m
  }

  /** In a repair of the day by r, p is to offer the content: r itself, if one of its peers
      does not log it, or a peer of r that logs it while r does not. */
  predicate Offers(conf: Conf, c: World, r: string, day: nat, md5: Sum, p: string) {
    && r in conf && r in c.members && p in c.members && md5 in DaySet(c.members[p], day)
    && if p == r then exists q :: q in conf[r].peers && q in c.members && md5 !in DaySet(c.members[q], day)
       else p in conf[r].peers && md5 !in DaySet(c.members[r], day)
  }

  /** Before the repair nothing is on its way, indexes and logs agree, and no record is of a
      migrated file or has a negative size. */
  ghost predicate Ready(conf: Conf, c: World, day: nat) {
    && c.members.Keys == conf.Keys && Quiet(c)
    && forall h :: h in c.members ==> MemberReady(c.members[h])
  }

  ghost predicate MemberReady(m: Member) {
    && Aligned(m.node.index)
    && forall md5 :: md5 in m.node.index.ldb ==>
         && (md5.OfContent? ==> m.node.index.ldb[md5].md5 == md5)
         && m.node.index.ldb[md5].offSet != MIGRATED && m.node.index.ldb[md5].size >= 0
  }

  /** A repair that compares the day, and any other days besides: what a node has queued of the
      contents of the day is its own record of them, what it has queued that carries the day is
      of a content of the day, and of those that it logs for the day it has queued just those
      it is to offer. Of other days anything may be queued, but no migrated file. */
  ghost predicate Repairs(conf: Conf, c: World, d: World, r: string, day: nat) {
    && d.members.Keys == c.members.Keys
    && forall h :: h in c.members ==> MemberRepairs(conf, c, r, day, h, d.members[h])
  }

  ghost predicate MemberRepairs(conf: Conf, c: World, r: string, day: nat, h: string, n: Member)
    requires h in c.members
  {
    var m := c.members[h];
    && n == m.(node := m.node.(toPeers := n.node.toPeers))
    && (forall e :: e in n.node.toPeers && e.md5 in Union(c, day) ==>
          e.md5 in m.node.index.ldb && e == m.node.index.ldb[e.md5])
    && (forall e :: e in n.node.toPeers ==> e.offSet != MIGRATED && (e.timeStamp.day == day ==> e.md5 in Union(c, day)))
    && (forall md5 :: md5 in DaySet(m, day) ==> (HasOne(n.node.toPeers, md5) <==> Offers(conf, c, r, day, md5, h)))
  }

  /** The content of the day will get from p to q. */
  predicate Sends(conf: Conf, c: World, r: string, day: nat, md5: Sum, p: string, q: string) {
    && Offers(conf, c, r, day, md5, p) && md5 in c.members[p].node.index.ldb
    && Lands(conf, c, p, c.members[p].node.index.ldb[md5], q)
  }

  ghost predicate Sent(conf: Conf, c: World, r: string, day: nat, md5: Sum, q: string) {
    exists p :: Sends(conf, c, r, day, md5, p, q)
  }

  /** The node indexes the content, but under another day. */
  predicate Elsewhere(c: World, q: string, day: nat, md5: Sum) {
    q in c.members && md5 in c.members[q].node.index.ldb && DayAt(c, q, md5) != day
  }

  /** No file that the queues may bring to a node gets in the way of a content of the day there. */
  ghost predicate Clear(conf: Conf, c: World, d: World, day: nat) {
    forall md5 :: md5 in Union(c, day) ==> Undisturbed(conf, d, md5)
  }

  /** A content of the day is nowhere under another one. */
  ghost predicate OneDay(c: World, day: nat, md5: Sum) { forall q :: !Elsewhere(c, q, day, md5) }

  lemma ReadyDay(c: World, q: string, day: nat, md5: Sum)
    requires q in c.members && Aligned(c.members[q].node.index) && md5.OfContent?
    ensures md5 in DaySet(c.members[q], day) <==> md5 in c.members[q].node.index.ldb && DayAt(c, q, md5) == day
    ensures forall t ::
        Logs(c.members[q].node.index, md5, t) <==> md5 in c.members[q].node.index.ldb && DayAt(c, q, md5) == t
  {
    var s := c.members[q].node.index;
    forall t ensures Logs(s, md5, t) <==> md5 in s.ldb && s.ldb[md5].timeStamp.day == t {
      if Logs(s, md5, t) { assert LogKey(t, Files, md5) in s.logDB; }
    }
    assert md5 in DaySet(c.members[q], day) <==> Logs(s, md5, day);
  }

  lemma UnionContent(conf: Conf, c: World, day: nat, md5: Sum)
    requires Ready(conf, c, day) && md5 in Union(c, day)
    ensures md5.OfContent?
  {
    var h :| h in c.members && md5 in DaySet(c.members[h], day);
    assert MemberReady(c.members[h]);
    assert LogKey(day, Files, md5) in c.members[h].node.index.logDB;
  }

  lemma RepairSettles(conf: Conf, c: World, d: World, r: string, day: nat, md5: Sum)
    requires Ready(conf, c, day) && Repairs(conf, c, d, r, day) && md5 in Union(c, day)
    ensures md5.OfContent? && forall h :: h in d.members ==> Settled(d.members[h], md5)
  {
    hide Union, Aligned, Offers;
    UnionContent(conf, c, day, md5);
    forall h | h in d.members ensures Settled(d.members[h], md5) {
      assert MemberReady(c.members[h]) && MemberRepairs(conf, c, r, day, h, d.members[h]);
      ReadyDay(c, h, day, md5);
    }
  }

  lemma RepairBegins(conf: Conf, c: World, d: World, r: string, day: nat, md5: Sum)
    requires Ready(conf, c, day) && Repairs(conf, c, d, r, day) && Undisturbed(conf, d, md5) && md5 in Union(c, day)
    ensures Begins(conf, d, md5)
  {
    hide Union, Ready, Repairs, Settled, OnlyQueued, Undisturbed;
    RepairStarts(conf, c, d, r, day);
    RepairSettles(conf, c, d, r, day, md5);
  }

  /** For a content under one day, the sources after the repair are those that will send. */
  lemma SourceIsSends(conf: Conf, c: World, d: World, r: string, day: nat, md5: Sum, p: string, q: string)
    requires Ready(conf, c, day) && Repairs(conf, c, d, r, day) && md5 in Union(c, day) && OneDay(c, day, md5)
    ensures Source(conf, d, md5, q, p) <==> Sends(conf, c, r, day, md5, p, q)
  {
    hide Union, Aligned, Offers, Goes, Finds;
    UnionContent(conf, c, day, md5);
    if p in c.members && md5 in c.members[p].node.index.ldb {
      assert !Elsewhere(c, p, day, md5);
      assert MemberReady(c.members[p]) && MemberRepairs(conf, c, r, day, p, d.members[p]);
      ReadyDay(c, p, day, md5);
      var e := c.members[p].node.index.ldb[md5];
      assert HasOne(d.members[p].node.toPeers, md5) <==> e in d.members[p].node.toPeers;
      SameFinds(conf, c, d, r, day, p, e, q);
    }
    assert Sends(conf, c, r, day, md5, p, q) ==> p in c.members by { SendsMember(conf, c, r, day, md5, p, q); }
  }

  lemma SendsMember(conf: Conf, c: World, r: string, day: nat, md5: Sum, p: string, q: string)
    ensures Sends(conf, c, r, day, md5, p, q) ==> p in c.members
  {
  }

  lemma SameFinds(conf: Conf, c: World, d: World, r: string, day: nat, p: string, e: FileInfo, q: string)
    requires Repairs(conf, c, d, r, day)
    ensures Finds(conf, d, p, q, e) == Finds(conf, c, p, q, e)
  {
    hide Announces, Takes, Union, Offers;
    assert forall h :: h in c.members ==> MemberRepairs(conf, c, r, day, h, d.members[h]);
  }

  lemma RepairLawAt(conf: Conf, c: World, d: World, r: string, day: nat, actions: seq<Action>, md5: Sum, q: string)
    requires Proper(conf) && Unified(conf) && Ready(conf, c, day) && Repairs(conf, c, d, r, day)
    requires Undisturbed(conf, d, md5)
    requires Drain(conf, d, actions).Some? && Quiet(Drain(conf, d, actions).value)
    requires md5 in Union(c, day) && q in c.members
    ensures
      var e := Drain(conf, d, actions).value;
      && q in e.members
      && (md5 in c.members[q].node.index.ldb ==>
            (md5 in DaySet(e.members[q], day) <==> !Elsewhere(c, q, day, md5)))
      && (md5 !in c.members[q].node.index.ldb && OneDay(c, day, md5) ==>
            (md5 in DaySet(e.members[q], day) <==> Sent(conf, c, r, day, md5, q)))
  {
    hide Drain, Begins, Lands, Source, Ready, Union, Quiet, OneDay, GetsDay, Aligned, Sends, Undisturbed;
    var e := Drain(conf, d, actions).value;
    RepairBegins(conf, c, d, r, day, md5);
    assert q in d.members && d.members[q].node.index == c.members[q].node.index by {
      RepairsIndex(conf, c, d, r, day, q);
    }
    DrainLaw(conf, d, md5, actions, q);
    assert md5 in DaySet(e.members[q], day) <==> Logs(e.members[q].node.index, md5, day);
    if md5 !in c.members[q].node.index.ldb && OneDay(c, day, md5) {
      forall p ensures Source(conf, d, md5, q, p) <==> Sends(conf, c, r, day, md5, p, q) {
        SourceIsSends(conf, c, d, r, day, md5, p, q);
      }
      GetsOnlyDay(conf, c, d, r, day, md5, q);
    }
  }

  lemma RepairsIndex(conf: Conf, c: World, d: World, r: string, day: nat, q: string)
    requires Repairs(conf, c, d, r, day) && q in c.members
    ensures q in d.members && d.members[q].node.index == c.members[q].node.index
  {
    assert MemberRepairs(conf, c, r, day, q, d.members[q]);
  }

  lemma GetsOnlyDay(conf: Conf, c: World, d: World, r: string, day: nat, md5: Sum, q: string)
    requires Repairs(conf, c, d, r, day) && OneDay(c, day, md5)
    ensures forall t :: GetsDay(conf, d, md5, q, t) ==> t == day
  {
    hide Repairs, Goes, Announces;
    forall t | GetsDay(conf, d, md5, q, t) ensures t == day {
      var p :| Gets(conf, d, md5, q, p) && DayAt(d, p, md5) == t;
      assert p in d.members;
      assert d.members.Keys == c.members.Keys by { RepairsKeys(conf, c, d, r, day); }
      RepairsIndex(conf, c, d, r, day, p);
      assert !Elsewhere(c, p, day, md5);
    }
  }

  lemma RepairAbsent(conf: Conf, c: World, d: World, r: string, day: nat, md5: Sum)
    requires Ready(conf, c, day) && Repairs(conf, c, d, r, day) && md5 !in Union(c, day)
    ensures AllAbsent(d, md5, day)
  {
    hide Offers, Aligned;
    forall h | h in d.members ensures Absent(d.members[h], md5, day) {
      assert MemberReady(c.members[h]) && MemberRepairs(conf, c, r, day, h, d.members[h])
          && QuietMember(c.members[h]);
      assert md5 !in DaySet(c.members[h], day);
      if md5.OfContent? { ReadyDay(c, h, day, md5); }
    }
  }

  lemma AbsentDay(c: World, q: string, md5: Sum, day: nat)
    requires AllAbsent(c, md5, day) && q in c.members
    ensures md5 !in DaySet(c.members[q], day)
  {
    assert Absent(c.members[q], md5, day);
  }

  /** What a node logs for the day when nothing is on its way any more: nothing that no node
      logged for it before; and of each content that some node did, and that no other gets in
      the way of: if the node indexes it, it logs it just if it does so under this day; if it does
      not, and no node has it under another day, just if the repair sends it there. */
  lemma RepairConverges(conf: Conf, c: World, d: World, r: string, day: nat, actions: seq<Action>, q: string)
    requires Proper(conf) && Unified(conf) && Ready(conf, c, day) && Repairs(conf, c, d, r, day) && q in c.members
    requires Drain(conf, d, actions).Some? && Quiet(Drain(conf, d, actions).value)
    ensures
      var e := Drain(conf, d, actions).value;
      && q in e.members
      && (forall md5 :: md5 in DaySet(e.members[q], day) ==> md5 in Union(c, day))
      && (forall md5 :: md5 in Union(c, day) && Undisturbed(conf, d, md5) && md5 in c.members[q].node.index.ldb ==>
            (md5 in DaySet(e.members[q], day) <==> !Elsewhere(c, q, day, md5)))
      && (forall md5 :: md5 in Union(c, day) && Undisturbed(conf, d, md5) && md5 !in c.members[q].node.index.ldb
                        && OneDay(c, day, md5) ==>
            (md5 in DaySet(e.members[q], day) <==> Sent(conf, c, r, day, md5, q)))
  {
    hide Drain, Ready, Repairs, Union, Quiet, Undisturbed, OneDay, Sent, Elsewhere;
    var e := Drain(conf, d, actions).value;
    assert q in e.members by { DrainMembers(conf, d, actions); RepairsIndex(conf, c, d, r, day, q); }
    forall md5 | md5 in DaySet(e.members[q], day) ensures md5 in Union(c, day) {
      if md5 !in Union(c, day) {
        RepairAbsent(conf, c, d, r, day, md5);
        RepairStarts(conf, c, d, r, day);
        DrainAbsent(conf, d, actions, md5, day);
        AbsentDay(e, q, md5, day);
      }
    }
    forall md5 | md5 in Union(c, day) && Undisturbed(conf, d, md5)
      ensures md5 in c.members[q].node.index.ldb ==>
                (md5 in DaySet(e.members[q], day) <==> !Elsewhere(c, q, day, md5))
      ensures md5 !in c.members[q].node.index.ldb && OneDay(c, day, md5) ==>
                (md5 in DaySet(e.members[q], day) <==> Sent(conf, c, r, day, md5, q))
    {
      RepairLawAt(conf, c, d, r, day, actions, md5, q);
    }
  }

  lemma RepairStarts(conf: Conf, c: World, d: World, r: string, day: nat)
    requires Ready(conf, c, day) && Repairs(conf, c, d, r, day)
    ensures d.members.Keys == conf.Keys && Unmigrated(d) && forall h :: h in d.members ==> OnlyQueued(d.members[h])
  {
    hide Union, Offers, MemberReady;
    forall h | h in d.members ensures OnlyQueued(d.members[h]) {
      assert MemberRepairs(conf, c, r, day, h, d.members[h]) && QuietMember(c.members[h]);
    }
    forall p, f | Queues(d, p, f) ensures f.offSet != MIGRATED {
      assert MemberRepairs(conf, c, r, day, p, d.members[p]);
    }
  }

  lemma {:induction false} DrainMembers(conf: Conf, c: World, actions: seq<Action>)
    requires Drain(conf, c, actions).Some?
    ensures Drain(conf, c, actions).value.members.Keys == c.members.Keys
  {
    hide Next, Enabled;
    if actions != [] {
      DrainMembers(conf, c, actions[..|actions| - 1]);
      StepFrame(conf, Drain(conf, c, actions[..|actions| - 1]).value, actions[|actions| - 1]);
    }
  }

  /** All nodes log for the day what they logged for it together before. */
  predicate Agree(c: World, e: World, day: nat) {
    forall q :: q in c.members ==> q in e.members && DaySet(e.members[q], day) == Union(c, day)
  }

  /** A node can come to log the content for the day: it does, or it does not index it, and
      the repair sends it there. */
  ghost predicate CanLog(conf: Conf, c: World, r: string, day: nat, md5: Sum, q: string) {
    if Lacks(c, md5, q) then Sent(conf, c, r, day, md5, q) else !Elsewhere(c, q, day, md5)
  }

  /** Where no file gets in the way of another, all nodes agree on the union of what they logged
      for the day if and only if no content of it is anywhere under another day, and the repair
      sends each of its contents to each node that does not index it: from a node that logs
      and holds it, whose record does not name the receiver already, and names somebody to ask;
      and to a node that may write, and has no file of that size under that path. Other days may
      be compared in the same repair, and their files sent by the same queues. */
  lemma RepairConvergesIff(conf: Conf, c: World, d: World, r: string, day: nat, actions: seq<Action>)
    requires Proper(conf) && Unified(conf) && Ready(conf, c, day) && Repairs(conf, c, d, r, day)
    requires Clear(conf, c, d, day)
    requires Drain(conf, d, actions).Some? && Quiet(Drain(conf, d, actions).value)
    ensures
      var e := Drain(conf, d, actions).value;
      && e.members.Keys == c.members.Keys
      && (Agree(c, e, day) <==>
            forall q, md5 :: q in c.members && md5 in Union(c, day) ==> CanLog(conf, c, r, day, md5, q))
  {
    hide Drain, Ready, Repairs, Union, Quiet, Clear, Sent, Elsewhere;
    var e := Drain(conf, d, actions).value;
    DrainMembers(conf, d, actions);
    assert d.members.Keys == c.members.Keys by { RepairsKeys(conf, c, d, r, day); }
    if forall q, md5 :: q in c.members && md5 in Union(c, day) ==> CanLog(conf, c, r, day, md5, q) {
      forall q | q in c.members ensures DaySet(e.members[q], day) == Union(c, day) {
        CanLogAgrees(conf, c, d, r, day, actions, q);
      }
    }
    if Agree(c, e, day) {
      forall q, md5 | q in c.members && md5 in Union(c, day) ensures CanLog(conf, c, r, day, md5, q) {
        AgreesCanLog(conf, c, d, r, day, actions, md5, q);
      }
    }
  }

  lemma CanLogAgrees(conf: Conf, c: World, d: World, r: string, day: nat, actions: seq<Action>, q: string)
    requires Proper(conf) && Unified(conf) && Ready(conf, c, day) && Repairs(conf, c, d, r, day) && q in c.members
    requires Clear(conf, c, d, day)
    requires Drain(conf, d, actions).Some? && Quiet(Drain(conf, d, actions).value)
    requires forall h, md5 :: h in c.members && md5 in Union(c, day) ==> CanLog(conf, c, r, day, md5, h)
    ensures var e := Drain(conf, d, actions).value;
      q in e.members && DaySet(e.members[q], day) == Union(c, day)
  {
    hide Drain, Ready, Repairs, Union, Quiet, Undisturbed, Sent, Elsewhere, DaySet;
    var e := Drain(conf, d, actions).value;
    RepairConverges(conf, c, d, r, day, actions, q);
    forall md5 | md5 in Union(c, day) ensures md5 in DaySet(e.members[q], day) {
      assert CanLog(conf, c, r, day, md5, q);
      CanLogOneDay(conf, c, r, day, md5);
    }
  }

  lemma AgreesCanLog(conf: Conf, c: World, d: World, r: string, day: nat, actions: seq<Action>, md5: Sum, q: string)
    requires Proper(conf) && Unified(conf) && Ready(conf, c, day) && Repairs(conf, c, d, r, day)
    requires Clear(conf, c, d, day)
    requires Drain(conf, d, actions).Some? && Quiet(Drain(conf, d, actions).value)
    requires q in c.members && md5 in Union(c, day)
    requires Agree(c, Drain(conf, d, actions).value, day)
    ensures CanLog(conf, c, r, day, md5, q)
  {
    hide Drain, Ready, Repairs, Union, Quiet, Undisturbed, Sent, Elsewhere, DaySet;
    forall h ensures !Elsewhere(c, h, day, md5) {
      if Elsewhere(c, h, day, md5) {
        ElsewhereIndexes(c, h, day, md5);
        RepairConverges(conf, c, d, r, day, actions, h);
      }
    }
    RepairConverges(conf, c, d, r, day, actions, q);
  }

  lemma RepairsKeys(conf: Conf, c: World, d: World, r: string, day: nat)
    requires Repairs(conf, c, d, r, day)
    ensures d.members.Keys == c.members.Keys
  {
  }

  lemma ElsewhereIndexes(c: World, q: string, day: nat, md5: Sum)
    requires Elsewhere(c, q, day, md5)
    ensures q in c.members && md5 in c.members[q].node.index.ldb
  {
  }

  lemma CanLogOneDay(conf: Conf, c: World, r: string, day: nat, md5: Sum)
    requires forall q :: q in c.members ==> CanLog(conf, c, r, day, md5, q)
    ensures OneDay(c, day, md5)
  {
    hide Sent;
    forall q ensures !Elsewhere(c, q, day, md5) {
      if q in c.members { assert CanLog(conf, c, r, day, md5, q); }
    }
  }

  // ---- An ordinary cluster -------------------------------------------------

  /** A full mesh of nodes that may write and may be asked; the record of a content of the day
      names somebody, and only nodes that index the content; its node has the file on disk,
      and no node that does not index the content has a file of that size under its path. */
  ghost predicate Ordinary(conf: Conf, c: World, day: nat) {
    && FullMesh(conf) && (forall h :: h in conf ==> Clean(h) && !conf[h].readOnly)
    && forall p, md5 :: p in c.members && p in conf && md5 in DaySet(c.members[p], day)
                        && md5 in c.members[p].node.index.ldb ==>
         OrdinaryRecord(conf, c, p, md5, c.members[p].node.index.ldb[md5])
  }

  ghost predicate OrdinaryRecord(conf: Conf, c: World, p: string, md5: Sum, e: FileInfo)
    requires p in c.members && p in conf
  {
    && e.peers != [] && (forall n :: n in e.peers ==> n in c.members && md5 in c.members[n].node.index.ldb)
    && var size := Announces(conf[p], c.members[p].disk, e);
    && size.Some? && Expected(e.(size := size.value)) >= 0
    && forall q :: q in c.members && q in conf && md5 !in c.members[q].node.index.ldb && e.offSet < 0 ==>
         SizeAt(c.members[q].disk, e.DiskPath(conf[q])) != size
  }

  /** Somebody to offer the content: the repairing node, if it logs it, or else any node that
      does. */
  lemma OrdinaryOffers(conf: Conf, c: World, r: string, day: nat, md5: Sum, q: string) returns (p: string)
    requires Proper(conf) && FullMesh(conf) && c.members.Keys == conf.Keys && r in conf && q in c.members
    requires md5 in Union(c, day) && md5 !in DaySet(c.members[q], day)
    ensures p in c.members && p != q && md5 in DaySet(c.members[p], day) && Offers(conf, c, r, day, md5, p)
  {
    hide Logged;
    var h :| h in c.members && md5 in DaySet(c.members[h], day);
    p := if md5 in DaySet(c.members[r], day) then r else h;
  }

  lemma OrdinaryLands(conf: Conf, c: World, md5: Sum, p: string, q: string, e: FileInfo)
    requires Proper(conf) && FullMesh(conf) && c.members.Keys == conf.Keys && p in conf && q in conf && p != q
    requires forall h :: h in conf ==> Clean(h) && !conf[h].readOnly
    requires OrdinaryRecord(conf, c, p, md5, e) && md5 !in c.members[q].node.index.ldb
    ensures Lands(conf, c, p, e, q)
  {
    hide Clean, CleanBefore, Announces;
    assert conf[p].peers[0..] == conf[p].peers;
    assert e.peers[0] in e.peers;
  }

  lemma OrdinarySends(conf: Conf, c: World, r: string, day: nat, md5: Sum, q: string)
    requires Proper(conf) && Ready(conf, c, day) && Ordinary(conf, c, day) && r in conf && q in c.members
    requires md5 in Union(c, day) && Lacks(c, md5, q) && OneDay(c, day, md5)
    ensures Sent(conf, c, r, day, md5, q)
  {
    hide Clean, OrdinaryRecord, Aligned, Lands, Offers, FullMesh, QuietMember;
    UnionContent(conf, c, day, md5);
    assert MemberReady(c.members[q]);
    ReadyDay(c, q, day, md5);
    var p := OrdinaryOffers(conf, c, r, day, md5, q);
    assert MemberReady(c.members[p]);
    ReadyDay(c, p, day, md5);
    OrdinaryLands(conf, c, md5, p, q, c.members[p].node.index.ldb[md5]);
    assert Sends(conf, c, r, day, md5, p, q);
  }

  /** In an ordinary cluster the nodes agree on the union if and only if none has a content
      of it under another day. */
  lemma OrdinaryConvergesIff(conf: Conf, c: World, d: World, r: string, day: nat, actions: seq<Action>)
    requires Proper(conf) && Unified(conf) && Ready(conf, c, day) && Repairs(conf, c, d, r, day)
    requires Clear(conf, c, d, day)
    requires Ordinary(conf, c, day) && r in conf
    requires Drain(conf, d, actions).Some? && Quiet(Drain(conf, d, actions).value)
    ensures
      var e := Drain(conf, d, actions).value;
      && e.members.Keys == c.members.Keys
      && (Agree(c, e, day) <==> (forall md5 :: md5 in Union(c, day) ==> OneDay(c, day, md5)))
  {
    hide Drain, Ready, Repairs, Union, Quiet, Clear, Sent, Ordinary;
    RepairConvergesIff(conf, c, d, r, day, actions);
    if forall md5 :: md5 in Union(c, day) ==> OneDay(c, day, md5) {
      forall q, md5 | q in c.members && md5 in Union(c, day) ensures CanLog(conf, c, r, day, md5, q) {
        assert OneDay(c, day, md5);
        if Lacks(c, md5, q) { OrdinarySends(conf, c, r, day, md5, q); }
      }
    }
    if forall q, md5 :: q in c.members && md5 in Union(c, day) ==> CanLog(conf, c, r, day, md5, q) {
      forall md5 | md5 in Union(c, day) ensures OneDay(c, day, md5) { CanLogOneDay(conf, c, r, day, md5); }
    }
  }
}
