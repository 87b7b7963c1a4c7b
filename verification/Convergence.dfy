/** Where a content ends up when everything that is queued is sent: which nodes log it then, and
    under which day. */
module Convergence {
  import opened Types
  import opened Index
  import opened Text
  import opened Protocol
  import opened Cluster
  import opened Obligation
  import opened Draining
  import opened Origins
  import Transfer
  import Replica

  // ---- Which offers are followed up ----------------------------------------

  /** A name under which a node may be asked for a file. */
  predicate Clean(name: string) { !Transfer.Contains(name, "127.0.0.1") }

  predicate AnyClean(names: seq<string>) { exists n :: n in names && Clean(n) }

  /** Somebody who may be asked comes before q among those that are still to be offered the
      file: by the time q is offered it, the record names them. */
  predicate CleanBefore(rest: seq<string>, q: string) {
    rest != [] && rest[0] != q && (Clean(rest[0]) || CleanBefore(rest[1..], q))
  }

  /** A record that is to be offered to the peers from the next one on goes to q, and will
      name somebody to ask: q is among them, and not named yet. */
  predicate Goes(peers: seq<string>, info: FileInfo, next: nat, q: string) {
    && next <= |peers| && q in peers[next..] && q !in info.peers
    && (AnyClean(info.peers) || CleanBefore(peers[next..], q))
  }

  /** The node fetches the file: it may write, and for a whole file, it has none of that size
      under that path. */
  predicate Takes(cfg: Config, disk: map<string, Transfer.OnDisk>, info: FileInfo) {
    && !cfg.readOnly && Expected(info) >= 0
    && (info.offSet < 0 ==> SizeAt(disk, info.DiskPath(cfg)) != Some(info.size))
  }

  /** The size with which the node offers the record, if it has the file. */
  function Announces(cfg: Config, disk: map<string, Transfer.OnDisk>, info: FileInfo): Option<int> {
    match Transfer.Local(cfg, disk, info) case None => None case Some(size) => Some(Measured(info, size).size)
  }

  /** p has the file, and q fetches what p announces. */
  predicate Finds(conf: Conf, c: World, p: string, q: string, info: FileInfo) {
    && p in conf && q in conf && p in c.members && q in c.members
    && var size := Announces(conf[p], c.members[p].disk, info);
    size.Some? && Takes(conf[q], c.members[q].disk, info.(size := size.value))
  }

  /** If p offers the record to all its peers, q will fetch the file. */
  predicate Lands(conf: Conf, c: World, p: string, info: FileInfo, q: string) {
    p in conf && Goes(conf[p].peers, info, 0, q) && Finds(conf, c, p, q, info)
  }

  /** The node p has its record of the content in its queue. */
  predicate HasQueued(c: World, md5: Sum, p: string) {
    && p in c.members && md5 in c.members[p].node.index.ldb
    && c.members[p].node.index.ldb[md5] in c.members[p].node.toPeers
  }

  /** And it will land at q. */
  predicate Source(conf: Conf, c: World, md5: Sum, q: string, p: string) {
    HasQueued(c, md5, p) && Lands(conf, c, p, c.members[p].node.index.ldb[md5], q)
  }

  /** Or at least go there. */
  predicate Gets(conf: Conf, c: World, md5: Sum, q: string, p: string) {
    && HasQueued(c, md5, p) && p in conf
    && Announces(conf[p], c.members[p].disk, c.members[p].node.index.ldb[md5]).Some?
    && Goes(conf[p].peers, c.members[p].node.index.ldb[md5], 0, q)
  }

  function DayAt(c: World, p: string, md5: Sum): nat
    requires p in c.members && md5 in c.members[p].node.index.ldb
  {
    c.members[p].node.index.ldb[md5].timeStamp.day
  }

  ghost predicate GetsDay(conf: Conf, c: World, md5: Sum, q: string, day: nat) {
    exists p :: Gets(conf, c, md5, q, p) && DayAt(c, p, md5) == day
  }

  ghost predicate Reached(conf: Conf, c: World, md5: Sum, q: string) {
    exists p :: Source(conf, c, md5, q, p)
  }

  // ---- The start -----------------------------------------------------------

  predicate HasOne(queue: seq<FileInfo>, md5: Sum) { exists e :: e in queue && e.md5 == md5 }

  /** The node logs the content under the day of its record, if it has one, and the records of
      it that it has queued are that record. Of other contents anything may be queued. */
  ghost predicate Settled(m: Member, md5: Sum) {
    var s := m.node.index;
    && (forall day :: Logs(s, md5, day) <==> md5 in s.ldb && day == s.ldb[md5].timeStamp.day)
    && (forall e :: e in m.node.toPeers && e.md5 == md5 ==> md5 in s.ldb && e == s.ldb[md5])
    && (md5 in s.ldb ==> s.ldb[md5].md5 == md5 && s.ldb[md5].offSet != MIGRATED && s.ldb[md5].size >= 0)
  }

  /** A fetch of the whole file f does nothing as long as the path is as it is: a file of that size
      is there. */
  predicate Idle(cfg: Config, disk: map<string, Transfer.OnDisk>, f: FileInfo, path: string) {
    && f.offSet < 0 && f.offSet != MIGRATED && f.size > 0
    && f.DiskPath(cfg) == path && SizeAt(disk, path) == Some(f.size)
  }

  /** A fetch of the record f at h does not get in the way of the content. Where that is sent from,
      it leaves the file as it is, or lets the blob grow, if its size is not to be announced; where
      the content may come to, it leaves the path to which it would go. */
  ghost predicate Spares(conf: Conf, c: World, md5: Sum, h: string, f: FileInfo)
    requires h in c.members && h in conf
  {
    var cfg, disk := conf[h], c.members[h].disk;
    if md5 in c.members[h].node.index.ldb then
      var r := c.members[h].node.index.ldb[md5];
      var path := Transfer.OfferPath(cfg, r);
      r in c.members[h].node.toPeers && Touches(cfg, f, path) ==>
        || (r.offSet < 0 && Idle(cfg, disk, f, path))
        || (r.offSet >= 0 && f.offSet >= 0 && r.size != 0 && path in disk)
    else
      forall r :: Reaches(conf, c, h, r) && r.md5 == md5 && r.offSet < 0 && Touches(cfg, f, r.DiskPath(cfg)) ==>
        Idle(cfg, disk, f, r.DiskPath(cfg))
  }

  /** Each node that indexes the content has it for good; and no other content that may come to a
      node gets in the way of this one there. */
  ghost predicate Undisturbed(conf: Conf, c: World, md5: Sum) {
    && (forall h :: h in c.members && h in conf && md5 in c.members[h].node.index.ldb ==> Firm(conf, c, h, md5))
    && forall h, f :: h in c.members && h in conf && Reaches(conf, c, h, f) && f.md5 != md5 ==>
         Spares(conf, c, md5, h, f)
  }

  ghost predicate Begins(conf: Conf, c: World, md5: Sum) {
    && c.members.Keys == conf.Keys && md5.OfContent?
    && (forall h :: h in c.members ==> OnlyQueued(c.members[h]) && Settled(c.members[h], md5))
    && Undisturbed(conf, c, md5)
  }

  // ---- The invariant, for one content --------------------------------------

  predicate Saving(pending: seq<LogEntry>, md5: Sum) { exists e :: e in pending && e.log == Files && e.info.md5 == md5 }

  predicate Logs(s: State, md5: Sum, day: nat) { LogKey(day, Files, md5) in s.logDB }

  ghost predicate LogsSome(s: State, md5: Sum) { exists day :: Logs(s, md5, day) }

  /** The node logs the content, or is about to. */
  ghost predicate Has(m: Member, md5: Sum) { LogsSome(m.node.index, md5) || Saving(m.node.pending, md5) }

  /** An offer in the download queue that the node follows up, as long as its disk is this one. */
  predicate Follows(cfg: Config, disk: map<string, Transfer.OnDisk>, e: FileInfo) {
    AnyClean(e.peers) && Takes(cfg, disk, e)
  }

  /** The node's own record of the content, as it has come out of the calls so far: it goes
      nowhere that it did not go at the start. */
  ghost predicate OwnOffer(conf: Conf, c: World, md5: Sum, h: string, e: FileInfo, next: nat)
    requires h in c.members && h in conf && md5 in c.members[h].node.index.ldb
  {
    var r := c.members[h].node.index.ldb[md5];
    var size := Announces(conf[h], c.members[h].disk, r);
    && HasQueued(c, md5, h) && Like(e, r) && (e.size == r.size || size == Some(e.size))
    && (size.Some? ==> forall q :: Goes(conf[h].peers, e, next, q) ==> Goes(conf[h].peers, r, 0, q))
  }

  /** A node that had the content: it logs it as it did, sends only its own record, and is
      sent nothing. */
  ghost predicate Holder(conf: Conf, c: World, md5: Sum, h: string, m: Member)
    requires h in c.members && h in conf && md5 in c.members[h].node.index.ldb
  {
    var r := c.members[h].node.index.ldb[md5];
    && md5 in m.node.index.ldb
    && (forall day :: Logs(m.node.index, md5, day) <==> day == r.timeStamp.day)
    && (forall e :: e in m.node.fromPeers ==> e.md5 != md5)
    && (forall e :: e in m.node.pending ==> e.info.md5 != md5)
    && (forall e :: e in m.node.toPeers && e.md5 == md5 ==> OwnOffer(conf, c, md5, h, e, 0))
    && (forall x :: x in m.flight && x.info.md5 == md5 ==> OwnOffer(conf, c, md5, h, x.info, x.next))
  }

  /** Its file is there as it was, or its blob is there. */
  predicate HolderView(conf: Conf, c: World, md5: Sum, h: string, disk: map<string, Transfer.OnDisk>)
    requires h in c.members && h in conf && md5 in c.members[h].node.index.ldb
  {
    var r := c.members[h].node.index.ldb[md5];
    var path := Transfer.OfferPath(conf[h], r);
    HasQueued(c, md5, h) ==>
      || SizeAt(disk, path) == SizeAt(c.members[h].disk, path)
      || (r.offSet >= 0 && r.size != 0 && path in disk && path in c.members[h].disk)
  }

  /** An offer of the content that came from somewhere, and that is only followed up if the node
      was to be reached. */
  ghost predicate Offer(conf: Conf, c: World, md5: Sum, q: string, e: FileInfo)
    requires q in c.members && q in conf
  {
    && e.retry == 0 && e.offSet != MIGRATED && e.size >= 0 && conf[q].host !in e.peers
    && (AnyClean(e.peers) ==> GetsDay(conf, c, md5, q, e.timeStamp.day))
    && (Follows(conf[q], c.members[q].disk, e) ==> Reached(conf, c, md5, q))
  }

  /** A node that lacked the content: what it logs, or will log, was sent to it. */
  ghost predicate Lacker(conf: Conf, c: World, md5: Sum, q: string, m: Member)
    requires q in c.members && q in conf
  {
    && (forall e :: e in m.node.toPeers ==> e.md5 != md5)
    && (forall p :: p in m.flight ==> p.info.md5 != md5)
    && (md5 in m.node.index.ldb ==> LogsSome(m.node.index, md5))
    && (Has(m, md5) ==> Reached(conf, c, md5, q))
    && (forall day :: Logs(m.node.index, md5, day) ==> GetsDay(conf, c, md5, q, day))
    && (forall e :: e in m.node.pending && e.info.md5 == md5 ==>
          e.log in {Files, Queue} && (e.log == Files ==> GetsDay(conf, c, md5, q, e.info.timeStamp.day)))
    && (forall e :: e in m.node.fromPeers && e.md5 == md5 ==> Offer(conf, c, md5, q, e))
  }

  /** Where the content would go, the disk is as it was. */
  ghost predicate SameView(conf: Conf, c: World, md5: Sum, q: string, disk: map<string, Transfer.OnDisk>)
    requires q in c.members && q in conf
  {
    forall r :: Reaches(conf, c, q, r) && r.md5 == md5 && r.offSet < 0 ==>
      SizeAt(disk, r.DiskPath(conf[q])) == SizeAt(c.members[q].disk, r.DiskPath(conf[q]))
  }

  ghost predicate Fits(conf: Conf, c: World, md5: Sum, h: string, m: Member)
    requires h in c.members && h in conf
  {
    if md5 in c.members[h].node.index.ldb
    then Holder(conf, c, md5, h, m) && HolderView(conf, c, md5, h, m.disk)
    else Lacker(conf, c, md5, h, m) && (Has(m, md5) || SameView(conf, c, md5, h, m.disk))
  }

  /** The content is logged at q, or about to be, or about to be fetched. */
  ghost predicate Incoming(conf: Conf, c: World, md5: Sum, q: string, m: Member)
    requires q in c.members && q in conf
  {
    Has(m, md5) || exists e :: e in m.node.fromPeers && e.md5 == md5 && Follows(conf[q], c.members[q].disk, e)
  }

  /** p will offer the content to q, which takes it. */
  predicate WillOffer(conf: Conf, c: World, md5: Sum, p: string, m: Member, q: string) {
    && p in c.members && p in conf && md5 in c.members[p].node.index.ldb
    && Finds(conf, c, p, q, c.members[p].node.index.ldb[md5])
    && (|| (exists e :: e in m.node.toPeers && e.md5 == md5 && Goes(conf[p].peers, e, 0, q))
        || (exists x :: x in m.flight && x.info.md5 == md5 && Goes(conf[p].peers, x.info, x.next, q)))
  }

  ghost predicate Coming(conf: Conf, c: World, md5: Sum, d: World, q: string)
    requires q in c.members && q in conf && q in d.members
  {
    Incoming(conf, c, md5, q, d.members[q]) || exists p :: p in d.members && WillOffer(conf, c, md5, p, d.members[p], q)
  }

  predicate Lacks(c: World, md5: Sum, q: string) { q in c.members && md5 !in c.members[q].node.index.ldb }

  ghost predicate Inv(conf: Conf, c: World, md5: Sum, d: World) {
    && c.members.Keys == conf.Keys && d.members.Keys == conf.Keys
    && (forall h :: h in d.members ==> Fits(conf, c, md5, h, d.members[h]))
    && (forall q :: q in d.members && Lacks(c, md5, q) && Reached(conf, c, md5, q) ==> Coming(conf, c, md5, d, q))
  }

  lemma SettledFits(conf: Conf, c: World, md5: Sum, h: string)
    requires c.members.Keys == conf.Keys && h in c.members && OnlyQueued(c.members[h]) && Settled(c.members[h], md5)
    ensures Fits(conf, c, md5, h, c.members[h])
  {
    hide Goes, Logs, Offer, GetsDay, Reached, Announces;
    var m := c.members[h];
    if Lacks(c, md5, h) {
      assert forall day :: !Logs(m.node.index, md5, day);
      assert !Has(m, md5);
    }
  }

  lemma SourceOffers(conf: Conf, c: World, md5: Sum, p: string, q: string)
    requires Source(conf, c, md5, q, p) && Settled(c.members[p], md5)
    ensures WillOffer(conf, c, md5, p, c.members[p], q)
  {
    hide Goes, Logs, Announces, Takes;
  }

  lemma BeginsInv(conf: Conf, c: World, md5: Sum)
    requires Begins(conf, c, md5)
    ensures Inv(conf, c, md5, c)
  {
    hide Fits, WillOffer, Settled, Source, Incoming, Undisturbed;
    forall h | h in c.members ensures Fits(conf, c, md5, h, c.members[h]) { SettledFits(conf, c, md5, h); }
    forall q | q in c.members && Lacks(c, md5, q) && Reached(conf, c, md5, q) ensures Coming(conf, c, md5, c, q) {
      var p :| Source(conf, c, md5, q, p);
      assert p in c.members by { SourceMember(conf, c, md5, q, p); }
      SourceOffers(conf, c, md5, p, q);
    }
  }

  lemma SourceMember(conf: Conf, c: World, md5: Sum, q: string, p: string)
    requires Source(conf, c, md5, q, p)
    ensures p in c.members
  {
  }

  // ---- Steps keep it -------------------------------------------------------

  /** What comes in at q still does, and what p would offer it still does, or it has come in. */
  ghost predicate Keeps(conf: Conf, c: World, md5: Sum, d: World, h: string, m: Member)
    requires h in c.members && h in conf && h in d.members && c.members.Keys == conf.Keys == d.members.Keys
  {
    && Fits(conf, c, md5, h, d.members[h])
    && (Lacks(c, md5, h) && Incoming(conf, c, md5, h, m) ==> Incoming(conf, c, md5, h, d.members[h]))
    && (forall q :: q in d.members && Lacks(c, md5, q) && WillOffer(conf, c, md5, h, m, q) ==>
          WillOffer(conf, c, md5, h, d.members[h], q) || Incoming(conf, c, md5, q, d.members[q]))
  }

  lemma Together(conf: Conf, c: World, md5: Sum, d: World, e: World)
    requires Inv(conf, c, md5, d) && e.members.Keys == d.members.Keys
    requires forall h :: h in d.members ==> Keeps(conf, c, md5, e, h, d.members[h])
    ensures Inv(conf, c, md5, e)
  {
    hide Fits, Incoming, WillOffer, Reached;
    forall q | q in e.members && Lacks(c, md5, q) && Reached(conf, c, md5, q) ensures Coming(conf, c, md5, e, q) {
      assert Coming(conf, c, md5, d, q);
      if Incoming(conf, c, md5, q, d.members[q]) {
        assert Keeps(conf, c, md5, e, q, d.members[q]);
      } else {
        var p :| p in d.members && WillOffer(conf, c, md5, p, d.members[p], q);
        assert Keeps(conf, c, md5, e, p, d.members[p]);
      }
    }
    forall h | h in e.members ensures Fits(conf, c, md5, h, e.members[h]) {
      assert Keeps(conf, c, md5, e, h, d.members[h]);
    }
  }

  lemma FitsAt(conf: Conf, c: World, md5: Sum, d: World, h: string)
    requires Inv(conf, c, md5, d) && h in d.members
    ensures c.members.Keys == conf.Keys == d.members.Keys && Fits(conf, c, md5, h, d.members[h])
  {
  }

  /** What a step of h has to show of the member it leaves. */
  ghost predicate LocalStep(conf: Conf, c: World, md5: Sum, h: string, m: Member, n: Member)
    requires h in c.members && h in conf
  {
    && Fits(conf, c, md5, h, n)
    && (Lacks(c, md5, h) && Incoming(conf, c, md5, h, m) ==> Incoming(conf, c, md5, h, n))
    && forall q :: WillOffer(conf, c, md5, h, m, q) ==> WillOffer(conf, c, md5, h, n, q)
  }

  /** One member changes, and keeps what it had on its way. */
  lemma Locally(conf: Conf, c: World, md5: Sum, d: World, h: string, e: World)
    requires Inv(conf, c, md5, d) && c.members.Keys == conf.Keys == d.members.Keys && h in d.members
    requires h in e.members && e.members == d.members[h := e.members[h]]
    requires LocalStep(conf, c, md5, h, d.members[h], e.members[h])
    ensures Inv(conf, c, md5, e)
  {
    hide Inv, Fits, Incoming, WillOffer;
    forall q | q in d.members ensures Keeps(conf, c, md5, e, q, d.members[q]) { FitsAt(conf, c, md5, d, q); }
    Together(conf, c, md5, d, e);
  }

  // ---- Steps of one member -------------------------------------------------

  lemma StartStep(conf: Conf, c: World, md5: Sum, h: string, m: Member)
    requires h in c.members && h in conf && Fits(conf, c, md5, h, m) && m.node.toPeers != []
    ensures
      var n := m.(node := m.node.(toPeers := m.node.toPeers[1..]), flight := m.flight + [Pass(m.node.toPeers[0], 0)]);
      LocalStep(conf, c, md5, h, m, n)
  {
    hide Goes, Source, Offer, Follows, Has, Logs, Finds, OwnOffer, HolderView, SameView, GetsDay, Reached;
    var e := m.node.toPeers[0];
    var n := m.(node := m.node.(toPeers := m.node.toPeers[1..]), flight := m.flight + [Pass(e, 0)]);
    assert Pass(e, 0) in n.flight && e in m.node.toPeers;
    assert forall x :: x in m.node.toPeers ==> x == e || x in n.node.toPeers;
    assert forall x :: x in n.flight ==> x == Pass(e, 0) || x in m.flight;
    assert forall x :: x in m.flight ==> x in n.flight;
    HasSame(m, n, md5);
  }

  lemma HasSame(m: Member, n: Member, md5: Sum)
    requires n.node.index == m.node.index && n.node.pending == m.node.pending
    ensures Has(m, md5) == Has(n, md5)
  {
  }

  lemma FewerFits(conf: Conf, c: World, md5: Sum, h: string, m: Member, n: Member)
    requires h in c.members && h in conf && Fits(conf, c, md5, h, m)
    requires n == m.(flight := n.flight) && forall y :: y in n.flight ==> y in m.flight
    ensures Fits(conf, c, md5, h, n)
  {
    hide Goes, Source, Offer, Has, OwnOffer, HolderView, SameView, GetsDay, Reached;
    HasSame(m, n, md5);
  }

  lemma EndStep(conf: Conf, c: World, md5: Sum, h: string, m: Member, i: nat)
    requires h in c.members && h in conf && Fits(conf, c, md5, h, m)
    requires i < |m.flight| && m.flight[i].next >= |conf[h].peers|
    ensures LocalStep(conf, c, md5, h, m, m.(flight := Without(m.flight, i)))
  {
    hide Goes, Source, Follows, Has, Fits, Finds;
    var x, n := m.flight[i], m.(flight := Without(m.flight, i));
    assert forall q :: !Goes(conf[h].peers, x.info, x.next, q) by { EndGoesNowhere(conf[h].peers, x); }
    assert forall y :: y in m.flight ==> y == x || y in n.flight;
    assert forall y :: y in n.flight ==> y in m.flight;
    FewerFits(conf, c, md5, h, m, n);
    HasSame(m, n, md5);
  }

  lemma EndGoesNowhere(peers: seq<string>, x: Pass)
    requires x.next >= |peers|
    ensures forall q :: !Goes(peers, x.info, x.next, q)
  {
    hide AnyClean, CleanBefore;
  }

  /** An entry of another content changes nothing of this one. */
  lemma SavedOther(s: State, info: FileInfo, log: Log, md5: Sum)
    requires md5.OfContent? && info.md5 != md5
    ensures var t := SaveLog(s, info, log);
      (md5 in t.ldb <==> md5 in s.ldb) && forall day :: Logs(t, md5, day) <==> Logs(s, md5, day)
  {
    hide FileInfo.FullPath;
  }

  lemma SavedOwn(s: State, info: FileInfo, log: Log)
    requires info.md5.OfContent? && log in {Files, Queue}
    ensures var t, md5 := SaveLog(s, info, log), info.md5;
      && (md5 in t.ldb <==> md5 in s.ldb || log == Files)
      && forall day :: Logs(t, md5, day) <==> Logs(s, md5, day) || (log == Files && day == info.timeStamp.day)
  {
    hide FileInfo.FullPath;
    if log == Files { Added(s, info); }
  }

  lemma WriteStep(conf: Conf, c: World, md5: Sum, h: string, m: Member)
    requires h in c.members && h in conf && Fits(conf, c, md5, h, m) && m.node.pending != [] && md5.OfContent?
    ensures LocalStep(conf, c, md5, h, m, m.(node := Consumed(m.node)))
  {
    hide Goes, Source, GetsDay, Follows, SaveLog, Logs, Offer, OwnOffer, HolderView, SameView, Reached, Finds;
    var e, n := m.node.pending[0], m.(node := Consumed(m.node));
    assert e in m.node.pending;
    assert forall x :: x in m.node.pending ==> x == e || x in n.node.pending;
    assert forall x :: x in n.node.pending ==> x in m.node.pending;
    if e.info.md5 == md5 {
      PendingOf(conf, c, md5, h, m, e);
      SavedOwn(m.node.index, e.info, e.log);
      if e.log == Files { assert Logs(n.node.index, md5, e.info.timeStamp.day); }
    } else {
      SavedOther(m.node.index, e.info, e.log, md5);
    }
    assert Has(m, md5) <==> Has(n, md5);
  }

  lemma PendingOf(conf: Conf, c: World, md5: Sum, h: string, m: Member, e: LogEntry)
    requires h in c.members && h in conf && Fits(conf, c, md5, h, m) && e in m.node.pending && e.info.md5 == md5
    ensures e.log in {Files, Queue}
  {
    hide Goes, Source, GetsDay, Offer, Logs, OwnOffer, HolderView, SameView, Reached;
  }

  // ---- A fetch -------------------------------------------------------------

  lemma AskedIff(cfg: Config, e: FileInfo)
    requires cfg.host !in e.peers
    ensures Transfer.PeerOf(cfg, e.peers).Some? <==> AnyClean(e.peers)
  {
    hide Transfer.Contains;
    Transfer.FirstUsable(cfg, e.peers);
    if Transfer.PeerOf(cfg, e.peers).Some? { assert Clean(Transfer.PeerOf(cfg, e.peers).value); }
  }

  predicate Known(s: Node, md5: Sum) { md5 in s.index.ldb && s.index.ldb[md5].md5 == md5 }

  /** A first attempt at a file: it is fetched and logged if there is somebody to ask, the
      node takes it, and does not index it if it is a small one; otherwise it is dropped, and
      nothing changes. */
  lemma FetchOutcome(cfg: Config, m: Member, net: Transfer.Net)
    requires m.node.fromPeers != [] && cfg.distinct && Arrives(m.node.fromPeers[0], net)
    requires var e := m.node.fromPeers[0]; e.retry == 0 && e.offSet != MIGRATED && e.size >= 0 && cfg.host !in e.peers
    ensures var n, e := Received(cfg, m, net), m.node.fromPeers[0];
      var fetched := Follows(cfg, m.disk, e) && (e.offSet >= 0 ==> !Known(m.node, e.md5));
      && n.flight == m.flight
      && n.node == m.node.(fromPeers := m.node.fromPeers[1..],
             pending := if fetched then m.node.pending + [LogEntry(Transfer.Tried(e), Files)] else m.node.pending)
      && (!fetched ==> n.disk == m.disk)
  {
    hide FileInfo.DiskPath, Transfer.TmpPath, Transfer.PeerOf, Replica.WriteAt, Text.Split, AnyClean;
    var e := m.node.fromPeers[0];
    Transfer.TmpIsOther(cfg, e);
    AskedIff(cfg, e);
  }

  /** The members agree on all that is queued, logged and on its way of the content. */
  ghost predicate Alike(m: Member, n: Member, md5: Sum) {
    && (md5 in n.node.index.ldb <==> md5 in m.node.index.ldb)
    && (forall day :: Logs(n.node.index, md5, day) <==> Logs(m.node.index, md5, day))
    && (forall e: FileInfo :: e.md5 == md5 ==> (e in n.node.toPeers <==> e in m.node.toPeers))
    && (forall e: FileInfo :: e.md5 == md5 ==> (e in n.node.fromPeers <==> e in m.node.fromPeers))
    && (forall x: Pass :: x.info.md5 == md5 ==> (x in n.flight <==> x in m.flight))
    && (forall e: LogEntry :: e.info.md5 == md5 ==> (e in n.node.pending <==> e in m.node.pending))
  }

  lemma AlikeHas(m: Member, n: Member, md5: Sum)
    requires Alike(m, n, md5)
    ensures Has(m, md5) == Has(n, md5)
  {
    hide Logs;
  }

  /** What is observed of the disk for the content is as it was. */
  ghost predicate View(conf: Conf, c: World, md5: Sum, h: string, disk: map<string, Transfer.OnDisk>)
    requires h in c.members && h in conf
  {
    if md5 in c.members[h].node.index.ldb then HolderView(conf, c, md5, h, disk) else SameView(conf, c, md5, h, disk)
  }

  lemma AlikeFits(conf: Conf, c: World, md5: Sum, h: string, m: Member, n: Member)
    requires h in c.members && h in conf && Fits(conf, c, md5, h, m) && Alike(m, n, md5)
    requires View(conf, c, md5, h, m.disk) ==> View(conf, c, md5, h, n.disk)
    ensures LocalStep(conf, c, md5, h, m, n)
  {
    hide Goes, Source, Follows, Has, Logs, Offer, OwnOffer, HolderView, SameView, GetsDay, Reached, Finds;
    AlikeHas(m, n, md5);
    assert LogsSome(m.node.index, md5) == LogsSome(n.node.index, md5);
  }

  /** A fetch of another content leaves what the member has of this one. */
  lemma FetchOther(cfg: Config, m: Member, net: Transfer.Net, md5: Sum)
    requires m.node.fromPeers != [] && m.node.fromPeers[0].md5 != md5 && Arrives(m.node.fromPeers[0], net)
    ensures Alike(m, Received(cfg, m, net), md5)
  {
    hide Received, OffersOwn, FileInfo.DiskPath;
    var e := m.node.fromPeers[0];
    ReceivedWell(cfg, m, net);
    assert forall x :: x in m.node.fromPeers ==> x == e || x in m.node.fromPeers[1..];
  }

  /** If a file of the announced size is there, nothing happens to the disk. */
  lemma IdleLeaves(cfg: Config, m: Member, net: Transfer.Net, f: FileInfo, path: string)
    requires m.node.fromPeers != [] && cfg.distinct && Kin(m.node.fromPeers[0], f) && Idle(cfg, m.disk, f, path)
    ensures Received(cfg, m, net).disk == m.disk
  {
    hide FileInfo.DiskPath, Transfer.TmpPath, Transfer.PeerOf, Transfer.OfferPath;
    KinTouches(cfg, m.node.fromPeers[0], f, path);
    Transfer.TmpIsOther(cfg, m.node.fromPeers[0]);
  }

  /** And it does not get in its way. */
  lemma ViewKept(conf: Conf, c: World, md5: Sum, h: string, m: Member, net: Transfer.Net)
    requires h in c.members && h in conf && conf[h].distinct && Undisturbed(conf, c, md5)
    requires m.node.fromPeers != [] && m.node.fromPeers[0].md5 != md5 && Came(conf, c, h, m.node.fromPeers[0])
    requires View(conf, c, md5, h, m.disk)
    ensures View(conf, c, md5, h, Received(conf[h], m, net).disk)
  {
    hide Received, Reaches, Touches, FileInfo.DiskPath, Transfer.OfferPath, Transfer.TmpPath;
    var cfg, e, n := conf[h], m.node.fromPeers[0], Received(conf[h], m, net);
    var f :| Kin(e, f) && Reaches(conf, c, h, f);
    assert Spares(conf, c, md5, h, f);
    if md5 in c.members[h].node.index.ldb {
      var path := Transfer.OfferPath(cfg, c.members[h].node.index.ldb[md5]);
      KinTouches(cfg, e, f, path);
      FetchLeaves(cfg, m, net, path);
      if Idle(cfg, m.disk, f, path) { IdleLeaves(cfg, m, net, f, path); }
    } else {
      forall r | Reaches(conf, c, h, r) && r.md5 == md5 && r.offSet < 0
        ensures SizeAt(n.disk, r.DiskPath(cfg)) == SizeAt(m.disk, r.DiskPath(cfg))
      {
        KinTouches(cfg, e, f, r.DiskPath(cfg));
        FetchLeaves(cfg, m, net, r.DiskPath(cfg));
        if Idle(cfg, m.disk, f, r.DiskPath(cfg)) { IdleLeaves(cfg, m, net, f, r.DiskPath(cfg)); }
      }
    }
  }

  /** A node is asked for a content whose file it has lost; that is not one that it is to keep. */
  lemma AskStep(conf: Conf, c: World, md5: Sum, h: string, m: Member, asked: Sum)
    requires h in c.members && h in conf && Fits(conf, c, md5, h, m) && Origin(conf, c, h, m)
    requires Undisturbed(conf, c, md5) && Stale(conf[h], m, asked)
    ensures LocalStep(conf, c, md5, h, m, Forgetting(m, asked))
  {
    hide Goes, Source, GetsDay, Follows, Logs, Offer, OwnOffer, HolderView, SameView, Reached, Finds, Origin;
    hide Has, Spares, Reaches, Firm, Stale;
    var n := Forgetting(m, asked);
    HasForgotten(m, asked, md5);
    if asked == md5 {
      if md5 in c.members[h].node.index.ldb { FirmKnown(conf, c, h, m, md5); }
    } else {
      AlikeFits(conf, c, md5, h, m, n);
    }
  }

  lemma HasForgotten(m: Member, asked: Sum, md5: Sum)
    ensures forall day :: Logs(Forgetting(m, asked).node.index, md5, day) == Logs(m.node.index, md5, day)
    ensures Has(Forgetting(m, asked), md5) == Has(m, md5)
  {
  }

  lemma FetchStep(conf: Conf, c: World, md5: Sum, h: string, m: Member, net: Transfer.Net)
    requires h in c.members && h in conf && conf[h].distinct && Fits(conf, c, md5, h, m) && Origin(conf, c, h, m)
    requires Undisturbed(conf, c, md5) && m.node.fromPeers != [] && Arrives(m.node.fromPeers[0], net)
    ensures LocalStep(conf, c, md5, h, m, Received(conf[h], m, net))
  {
    hide Fits, Received, Follows, Has, View, Undisturbed, Came, Stems, LocalStep;
    var e := m.node.fromPeers[0];
    assert e in m.node.fromPeers;
    if e.md5 != md5 {
      FetchOther(conf[h], m, net, md5);
      if View(conf, c, md5, h, m.disk) { ViewKept(conf, c, md5, h, m, net); }
      AlikeFits(conf, c, md5, h, m, Received(conf[h], m, net));
    } else {
      FetchOwn(conf, c, md5, h, m, net);
    }
  }

  /** A fetch of the content itself. As long as the node does not have it, its disk is as it was
      where it matters, so that the offer is followed up or dropped as it would have been at
      the start. */
  lemma FetchOwn(conf: Conf, c: World, md5: Sum, q: string, m: Member, net: Transfer.Net)
    requires q in c.members && q in conf && conf[q].distinct && Fits(conf, c, md5, q, m)
    requires m.node.fromPeers != [] && Arrives(m.node.fromPeers[0], net)
    requires m.node.fromPeers[0].md5 == md5 && Came(conf, c, q, m.node.fromPeers[0])
    ensures LocalStep(conf, c, md5, q, m, Received(conf[q], m, net))
  {
    hide Received, Follows, GetsDay, Reached, Came, SameView, Logs, LogsSome, WillOffer, AnyClean;
    var n, e := Received(conf[q], m, net), m.node.fromPeers[0];
    assert e in m.node.fromPeers;
    assert Lacker(conf, c, md5, q, m);
    FetchOutcome(conf[q], m, net);
    if SameView(conf, c, md5, q, m.disk) { SameFollows(conf, c, md5, q, m.disk, e); }
    assert forall x :: x in m.node.fromPeers ==> x == e || x in n.node.fromPeers;
    assert forall x :: x in n.node.fromPeers ==> x in m.node.fromPeers;
    assert forall x :: x in m.node.pending ==> x in n.node.pending;
    if n.node.pending != m.node.pending {
      assert LogEntry(Transfer.Tried(e), Files) in n.node.pending;
      assert Saving(n.node.pending, md5);
      FollowsClean(conf[q], m.disk, e);
    }
    OffersSame(conf, c, md5, q, m, n);
  }

  lemma OffersSame(conf: Conf, c: World, md5: Sum, h: string, m: Member, n: Member)
    requires n.node.toPeers == m.node.toPeers && n.flight == m.flight
    ensures forall q :: WillOffer(conf, c, md5, h, m, q) ==> WillOffer(conf, c, md5, h, n, q)
  {
    hide Goes, Finds;
  }

  lemma FollowsClean(cfg: Config, disk: map<string, Transfer.OnDisk>, e: FileInfo)
    requires Follows(cfg, disk, e)
    ensures AnyClean(e.peers)
  {
  }

  lemma SameFollows(conf: Conf, c: World, md5: Sum, q: string, disk: map<string, Transfer.OnDisk>, e: FileInfo)
    requires q in c.members && q in conf && SameView(conf, c, md5, q, disk) && e.md5 == md5 && Came(conf, c, q, e)
    ensures Follows(conf[q], disk, e) == Follows(conf[q], c.members[q].disk, e)
  {
    hide AnyClean, Reaches, FileInfo.DiskPath;
    var f :| Kin(e, f) && Reaches(conf, c, q, f);
    KinTouches(conf[q], e, f, "");
  }

  // ---- An exchange ---------------------------------------------------------

  lemma OtherOffered(cfg: Config, m: Member, i: nat, answer: Answer, md5: Sum)
    requires i < |m.flight| && m.flight[i].next < |cfg.peers| && (answer.Found? || answer.Accepted?)
    requires m.flight[i].info.md5 != md5
    ensures Alike(m, Offered(cfg, m, i, answer), md5) && Offered(cfg, m, i, answer).disk == m.disk
  {
    hide Turn, Transfer.Local;
    var pass := m.flight[i];
    var local, peer := Transfer.Local(cfg, m.disk, pass.info), cfg.peers[pass.next];
    Answered(cfg, m.node, pass.info, peer, local, answer);
    var r := Turn(cfg, m.node, pass.info, peer, local, answer);
    PassReplaced(m.flight, i, Pass(r.info, pass.next + 1));
  }

  lemma OtherTaken(m: Member, info: FileInfo, md5: Sum)
    requires info.md5 != md5
    ensures Alike(m, m.(node := Taken(m.node, info)), md5)
  {
  }

  /** Where a record goes does not change while others are offered it. */
  lemma GoesOn(peers: seq<string>, e: FileInfo, f: FileInfo, next: nat, q: string)
    requires next < |peers| && f.peers == if peers[next] in e.peers then e.peers else e.peers + [peers[next]]
    ensures Goes(peers, f, next + 1, q) <==> Goes(peers, e, next, q) && q != peers[next]
  {
    hide Clean, CleanBefore, AnyClean;
    var peer := peers[next];
    assert peers[next..] == [peer] + peers[next + 1..];
    CleanNext(e.peers, f.peers, peers[next..], q);
    assert q in peers[next..] <==> q == peer || q in peers[next + 1..];
  }

  lemma CleanNext(names: seq<string>, more: seq<string>, rest: seq<string>, q: string)
    requires rest != [] && more == if rest[0] in names then names else names + [rest[0]]
    ensures rest[0] != q ==>
              (AnyClean(more) || CleanBefore(rest[1..], q) <==> AnyClean(names) || CleanBefore(rest, q))
    ensures rest[0] == q ==> (AnyClean(names) || CleanBefore(rest, q) <==> AnyClean(names))
  {
    hide Clean;
    if rest[0] in names && Clean(rest[0]) { assert AnyClean(names); }
    if rest[0] !in names {
      assert rest[0] in more;
      assert forall n :: n in more <==> n in names || n == rest[0];
    }
  }

  lemma LikeLocal(cfg: Config, disk: map<string, Transfer.OnDisk>, e: FileInfo, r: FileInfo)
    requires Like(e, r)
    ensures Transfer.Local(cfg, disk, e) == Transfer.Local(cfg, disk, r)
  {
  }

  /** A record on its way is offered with the size that was to be announced at the start. */
  lemma AnnouncedSize(cfg: Config, was: map<string, Transfer.OnDisk>, disk: map<string, Transfer.OnDisk>, r: FileInfo,
                      e: FileInfo)
    requires Like(e, r) && (e.size == r.size || Announces(cfg, was, r) == Some(e.size))
    requires Announces(cfg, disk, r) == Announces(cfg, was, r)
    ensures var local := Transfer.Local(cfg, disk, e);
      && local.Some? == Announces(cfg, was, r).Some?
      && (local.Some? ==> Announces(cfg, was, r) == Some(Measured(e, local.value).size))
  {
    hide Transfer.Local;
    LikeLocal(cfg, disk, e, r);
  }

  /** A turn for the content: the record goes on to where it would have gone, save to the peer
      of this turn. */
  lemma OwnTurn(conf: Conf, c: World, md5: Sum, h: string, m: Member, i: nat, answer: Answer)
    requires h in c.members && h in conf && Fits(conf, c, md5, h, m) && md5 in c.members[h].node.index.ldb
    requires i < |m.flight| && m.flight[i].next < |conf[h].peers| && (answer.Found? || answer.Accepted?)
    requires m.flight[i].info.md5 == md5
    ensures var pass, n := m.flight[i], Offered(conf[h], m, i, answer);
      var x, size := n.flight[i], Announces(conf[h], c.members[h].disk, c.members[h].node.index.ldb[md5]);
      && n.node == m.node.(index := n.node.index) && n.disk == m.disk
      && n.flight == m.flight[i := x] && x.next == pass.next + 1 && x.info.md5 == md5
      && OwnOffer(conf, c, md5, h, x.info, x.next)
      && (size.Some? ==> forall q :: Goes(conf[h].peers, x.info, x.next, q)
                                 <==> Goes(conf[h].peers, pass.info, pass.next, q) && q != conf[h].peers[pass.next])
      && md5 in n.node.index.ldb
      && (forall day :: Logs(n.node.index, md5, day) <==> Logs(m.node.index, md5, day))
  {
    hide Turn, Goes, Transfer.Local, Announces;
    var cfg, pass, r := conf[h], m.flight[i], c.members[h].node.index.ldb[md5];
    assert pass in m.flight;
    assert OwnOffer(conf, c, md5, h, pass.info, pass.next);
    var local, peer := Transfer.Local(cfg, m.disk, pass.info), cfg.peers[pass.next];
    ViewAnnounces(conf, c, md5, h, m.disk);
    AnnouncedSize(cfg, c.members[h].disk, m.disk, r, pass.info);
    Answered(cfg, m.node, pass.info, peer, local, answer);
    var x := Offered(cfg, m, i, answer).flight[i];
    forall q ensures local.Some? ==> (Goes(cfg.peers, x.info, x.next, q)
                                      <==> Goes(cfg.peers, pass.info, pass.next, q) && q != peer)
    {
      if local.Some? { GoesOn(cfg.peers, pass.info, x.info, pass.next, q); }
    }
  }

  lemma HolderOffers(conf: Conf, c: World, md5: Sum, h: string, m: Member, i: nat, answer: Answer)
    requires h in c.members && h in conf && Fits(conf, c, md5, h, m) && md5 in c.members[h].node.index.ldb
    requires i < |m.flight| && m.flight[i].next < |conf[h].peers| && (answer.Found? || answer.Accepted?)
    requires m.flight[i].info.md5 == md5
    ensures var pass := m.flight[i];
      var peer, n := conf[h].peers[pass.next], Offered(conf[h], m, i, answer);
      && Fits(conf, c, md5, h, n)
      && forall q :: WillOffer(conf, c, md5, h, m, q) ==>
           WillOffer(conf, c, md5, h, n, q) || (q == peer && Goes(conf[h].peers, pass.info, pass.next, q))
  {
    hide Logs, Goes, Offered, OwnOffer, Takes, Announces;
    var pass, n := m.flight[i], Offered(conf[h], m, i, answer);
    OwnTurn(conf, c, md5, h, m, i, answer);
    PassReplaced(m.flight, i, n.flight[i]);
  }

  lemma PassOf(conf: Conf, c: World, md5: Sum, h: string, m: Member, i: nat)
    requires h in c.members && h in conf && Fits(conf, c, md5, h, m)
    requires i < |m.flight| && m.flight[i].info.md5 == md5
    ensures var x := m.flight[i];
      md5 in c.members[h].node.index.ldb && OwnOffer(conf, c, md5, h, x.info, x.next)
      && HolderView(conf, c, md5, h, m.disk)
  {
    hide Goes, GetsDay, Logs, Offer, Has, Reached, SameView, OwnOffer, HolderView;
    assert m.flight[i] in m.flight;
  }

  /** Whether it is taken depends on the path, the kind and the size of a file alone. */
  lemma TakesSame(cfg: Config, disk: map<string, Transfer.OnDisk>, e: FileInfo, f: FileInfo)
    requires Kin(e, f) && e.size == f.size
    ensures Takes(cfg, disk, e) == Takes(cfg, disk, f)
  {
  }

  /** What the peer takes in a turn for the content is an offer that, if it goes anywhere, came from
      a record that goes there, and that is followed up just if the peer takes what was to be
      announced. */
  lemma AnnouncedOffer(conf: Conf, c: World, md5: Sum, h: string, m: Member, i: nat)
    requires Proper(conf) && h in c.members && h in conf && Fits(conf, c, md5, h, m) && Settled(c.members[h], md5)
    requires i < |m.flight| && m.flight[i].next < |conf[h].peers| && m.flight[i].info.md5 == md5
    requires var peer := conf[h].peers[m.flight[i].next];
      peer in conf && peer in c.members && peer !in m.flight[i].info.peers
    requires Transfer.Local(conf[h], m.disk, m.flight[i].info).Some?
    ensures var pass, e := m.flight[i], Announced(conf[h], m, i);
      var peer := conf[h].peers[pass.next];
      && md5 in c.members[h].node.index.ldb && e.md5 == md5 && Offer(conf, c, md5, peer, e)
      && (Follows(conf[peer], c.members[peer].disk, e) <==>
            Goes(conf[h].peers, pass.info, pass.next, peer)
            && Finds(conf, c, h, peer, c.members[h].node.index.ldb[md5]))
  {
    hide Goes, Transfer.Local, Announces, Takes, AnyClean, CleanBefore, HolderView, Logs;
    PassOf(conf, c, md5, h, m, i);
    var cfg, pass, e, r := conf[h], m.flight[i], Announced(conf[h], m, i), c.members[h].node.index.ldb[md5];
    var peer, was := cfg.peers[pass.next], c.members[h].disk;
    ViewAnnounces(conf, c, md5, h, m.disk);
    AnnouncedSize(cfg, was, m.disk, r, pass.info);
    assert e.size == Announces(cfg, was, r).value;
    AnnouncedPositive(cfg, was, r);
    TakesSame(conf[peer], c.members[peer].disk, e, r.(size := e.size));
    GoesHere(cfg.peers, pass.info, pass.next);
    if AnyClean(e.peers) {
      assert Goes(cfg.peers, r, 0, peer);
      assert Gets(conf, c, md5, peer, h) && DayAt(c, h, md5) == e.timeStamp.day;
      if Takes(conf[peer], c.members[peer].disk, e) { assert Source(conf, c, md5, peer, h); }
    }
  }

  lemma ViewAnnounces(conf: Conf, c: World, md5: Sum, h: string, disk: map<string, Transfer.OnDisk>)
    requires h in c.members && h in conf && md5 in c.members[h].node.index.ldb
    requires HasQueued(c, md5, h) && HolderView(conf, c, md5, h, disk)
    ensures var r := c.members[h].node.index.ldb[md5];
      Announces(conf[h], disk, r) == Announces(conf[h], c.members[h].disk, r)
  {
    hide Transfer.OfferPath;
  }

  lemma AnnouncedPositive(cfg: Config, disk: map<string, Transfer.OnDisk>, r: FileInfo)
    requires r.size >= 0
    ensures Announces(cfg, disk, r).Some? ==> Announces(cfg, disk, r).value >= 0
  {
    hide Transfer.Local;
  }

  /** At the peer whose turn it is, a record that does not name it goes there if it names somebody
      to ask. */
  lemma GoesHere(peers: seq<string>, info: FileInfo, next: nat)
    requires next < |peers| && peers[next] !in info.peers
    ensures Goes(peers, info, next, peers[next]) <==> AnyClean(info.peers)
  {
    hide AnyClean, Clean;
    assert peers[next..][0] == peers[next];
  }

  lemma LackerTakes(conf: Conf, c: World, md5: Sum, q: string, m: Member, e: FileInfo)
    requires q in c.members && q in conf && md5 !in c.members[q].node.index.ldb && Fits(conf, c, md5, q, m)
    requires e.md5 == md5 && Offer(conf, c, md5, q, e)
    ensures var n := m.(node := Taken(m.node, e));
      && Fits(conf, c, md5, q, n)
      && (Incoming(conf, c, md5, q, m) || Follows(conf[q], c.members[q].disk, e) ==> Incoming(conf, c, md5, q, n))
      && n.node.toPeers == m.node.toPeers && n.flight == m.flight
  {
    hide GetsDay, Follows, Logs, Reached, SameView;
    var n := m.(node := Taken(m.node, e));
    assert e in n.node.fromPeers;
    assert forall x :: x in n.node.fromPeers ==> x == e || x in m.node.fromPeers;
    assert forall x :: x in m.node.fromPeers ==> x in n.node.fromPeers;
    assert forall x :: x in m.node.pending ==> x in n.node.pending;
    assert forall x :: x in n.node.pending ==> x in m.node.pending || x == LogEntry(e, Queue);
    assert Has(m, md5) <==> Has(n, md5);
  }

  lemma IndexedLacker(conf: Conf, c: World, md5: Sum, q: string, m: Member)
    requires q in c.members && q in conf && Fits(conf, c, md5, q, m) && md5 !in c.members[q].node.index.ldb
    ensures md5 in m.node.index.ldb ==> Incoming(conf, c, md5, q, m)
  {
    hide Goes, GetsDay, Logs, Follows, LogsSome, Offer, Reached, SameView;
  }

  lemma FirmAt(conf: Conf, c: World, md5: Sum, d: World, q: string)
    requires AllOrigin(conf, c, d) && Undisturbed(conf, c, md5) && q in d.members
    ensures q in c.members && q in conf
    ensures md5 in c.members[q].node.index.ldb ==> Knows(conf[q], d.members[q], md5)
  {
    hide Firm, Spares, Reaches, Origin, Knows;
    if md5 in c.members[q].node.index.ldb { FirmKnown(conf, c, q, d.members[q], md5); }
  }

  lemma OwnNotMigrated(conf: Conf, c: World, md5: Sum, h: string, e: FileInfo, next: nat)
    requires h in c.members && h in conf && md5 in c.members[h].node.index.ldb && Settled(c.members[h], md5)
    requires OwnOffer(conf, c, md5, h, e, next)
    ensures e.offSet != MIGRATED
  {
    hide Goes, Announces;
  }

  /** The peer of a turn for the content: it fits, and if the offer lands, it comes in. */
  lemma PeerMeets(conf: Conf, c: World, md5: Sum, d: World, h: string, i: nat, answer: Answer)
    requires Proper(conf) && Unified(conf) && Inv(conf, c, md5, d) && AllOrigin(conf, c, d)
    requires Succeeds(conf, d, Exchange(h, i, answer)) && d.members[h].flight[i].info.md5 == md5
    requires c.members.Keys == conf.Keys == d.members.Keys
    requires Undisturbed(conf, c, md5) && forall x :: x in c.members ==> Settled(c.members[x], md5)
    ensures
      var pass := d.members[h].flight[i];
      var peer := conf[h].peers[pass.next];
      var n := Exchanged(conf[h], d, h, i, answer).members;
      && md5 in c.members[h].node.index.ldb
      && peer in n && Fits(conf, c, md5, peer, n[peer])
      && n[peer].node.toPeers == d.members[peer].node.toPeers && n[peer].flight == d.members[peer].flight
      && (Lacks(c, md5, peer)
          && (Incoming(conf, c, md5, peer, d.members[peer])
              || (Goes(conf[h].peers, pass.info, pass.next, peer)
                  && Finds(conf, c, h, peer, c.members[h].node.index.ldb[md5])))
          ==> Incoming(conf, c, md5, peer, n[peer]))
  {
    hide Inv, Fits, Incoming, Goes, Finds, Exchanged, Taken, OwnOffer, Offer, Follows, Settled, Announced;
    hide Transfer.Local;
    hide AllOrigin, Undisturbed, Stale, Reaches, Firm, FileInfo.DiskPath;
    FitsAt(conf, c, md5, d, h);
    var m, pass := d.members[h], d.members[h].flight[i];
    var peer := conf[h].peers[pass.next];
    Exchanging(conf, d, h, i, answer);
    FitsAt(conf, c, md5, d, peer);
    PassOf(conf, c, md5, h, m, i);
    var p := d.members[peer];
    OwnNotMigrated(conf, c, md5, h, pass.info, pass.next);
    if Delivers(conf[h], m, i, answer) {
      if md5 in c.members[peer].node.index.ldb { FirmAt(conf, c, md5, d, peer); }
      AnnouncedOffer(conf, c, md5, h, m, i);
      LackerTakes(conf, c, md5, peer, p, Announced(conf[h], m, i));
    } else if Lacks(c, md5, peer) {
      IndexedLacker(conf, c, md5, peer, p);
      if Goes(conf[h].peers, pass.info, pass.next, peer) { GoesUnnamed(conf[h].peers, pass.info, pass.next, peer); }
      if Finds(conf, c, h, peer, c.members[h].node.index.ldb[md5]) { FoundLocal(conf, c, md5, h, m, i, peer); }
    }
  }

  lemma GoesUnnamed(peers: seq<string>, info: FileInfo, next: nat, q: string)
    requires Goes(peers, info, next, q)
    ensures q !in info.peers
  {
  }

  lemma FoundLocal(conf: Conf, c: World, md5: Sum, h: string, m: Member, i: nat, q: string)
    requires h in c.members && h in conf && Fits(conf, c, md5, h, m)
    requires i < |m.flight| && m.flight[i].info.md5 == md5 && md5 in c.members[h].node.index.ldb
    requires Finds(conf, c, h, q, c.members[h].node.index.ldb[md5])
    ensures Transfer.Local(conf[h], m.disk, m.flight[i].info).Some?
  {
    hide Goes, Transfer.Local, Announces, Takes, Fits;
    PassOf(conf, c, md5, h, m, i);
    ViewAnnounces(conf, c, md5, h, m.disk);
    AnnouncedSize(conf[h], c.members[h].disk, m.disk, c.members[h].node.index.ldb[md5], m.flight[i].info);
  }

  lemma SucceedsExchanging(conf: Conf, c: World, md5: Sum, d: World, h: string, i: nat, answer: Answer)
    requires Begins(conf, c, md5) && Succeeds(conf, d, Exchange(h, i, answer))
    ensures Enabled(conf, d, Exchange(h, i, answer)) && (answer.Found? || answer.Accepted?)
    ensures h in conf && h in d.members && i < |d.members[h].flight| && d.members[h].flight[i].next < |conf[h].peers|
    ensures Undisturbed(conf, c, md5) && forall x :: x in c.members ==> Settled(c.members[x], md5)
  {
    hide Undisturbed, Settled, OnlyQueued, Knows, Stale, Consults;
  }

  lemma ExchangeStep(conf: Conf, c: World, md5: Sum, d: World, h: string, i: nat, answer: Answer)
    requires Proper(conf) && Unified(conf) && Begins(conf, c, md5) && Inv(conf, c, md5, d) && AllOrigin(conf, c, d)
    requires Succeeds(conf, d, Exchange(h, i, answer))
    ensures Inv(conf, c, md5, Exchanged(conf[h], d, h, i, answer))
  {
    hide Inv, Fits, Incoming, Goes, Exchanged, Taken, Offered, WillOffer, Finds, Settled, Undisturbed, Delivers, View;
    hide Succeeds, Enabled, AllOrigin, Firm, Begins;
    SucceedsExchanging(conf, c, md5, d, h, i, answer);
    FitsAt(conf, c, md5, d, h);
    var m, pass := d.members[h], d.members[h].flight[i];
    var peer := conf[h].peers[pass.next];
    Exchanging(conf, d, h, i, answer);
    var e := Exchanged(conf[h], d, h, i, answer);
    PeerKeeps(conf, c, md5, d, h, i, answer);
    assert Keeps(conf, c, md5, e, h, m) by { OffererKeeps(conf, c, md5, d, h, i, answer); }
    forall q | q in d.members ensures Keeps(conf, c, md5, e, q, d.members[q]) {
      FitsAt(conf, c, md5, d, q);
    }
    Together(conf, c, md5, d, e);
  }

  lemma OffererKeeps(conf: Conf, c: World, md5: Sum, d: World, h: string, i: nat, answer: Answer)
    requires Proper(conf) && Unified(conf) && Begins(conf, c, md5) && Inv(conf, c, md5, d) && AllOrigin(conf, c, d)
    requires Succeeds(conf, d, Exchange(h, i, answer)) && c.members.Keys == conf.Keys == d.members.Keys
    ensures var e := Exchanged(conf[h], d, h, i, answer);
      h in e.members && e.members.Keys == d.members.Keys && Keeps(conf, c, md5, e, h, d.members[h])
  {
    hide Inv, Fits, Incoming, Goes, Exchanged, Taken, Offered, Finds, Settled, Undisturbed, Delivers, View;
    hide Succeeds, Enabled, AllOrigin, Firm, Begins;
    SucceedsExchanging(conf, c, md5, d, h, i, answer);
    FitsAt(conf, c, md5, d, h);
    var m, pass := d.members[h], d.members[h].flight[i];
    var peer := conf[h].peers[pass.next];
    Exchanging(conf, d, h, i, answer);
    if pass.info.md5 == md5 {
      PeerMeets(conf, c, md5, d, h, i, answer);
      HolderOffers(conf, c, md5, h, m, i, answer);
    } else {
      OtherOffered(conf[h], m, i, answer, md5);
      AlikeFits(conf, c, md5, h, m, Offered(conf[h], m, i, answer));
    }
  }

  lemma PeerKeeps(conf: Conf, c: World, md5: Sum, d: World, h: string, i: nat, answer: Answer)
    requires Proper(conf) && Unified(conf) && Begins(conf, c, md5) && Inv(conf, c, md5, d) && AllOrigin(conf, c, d)
    requires Succeeds(conf, d, Exchange(h, i, answer)) && c.members.Keys == conf.Keys == d.members.Keys
    ensures var e, peer := Exchanged(conf[h], d, h, i, answer), conf[h].peers[d.members[h].flight[i].next];
      && peer in d.members && e.members.Keys == d.members.Keys && Keeps(conf, c, md5, e, peer, d.members[peer])
  {
    hide Inv, Fits, Incoming, Goes, Exchanged, Taken, Finds, Settled, Undisturbed, View, Announced, Transfer.Local;
    hide Succeeds, Enabled, AllOrigin, Firm, Begins;
    SucceedsExchanging(conf, c, md5, d, h, i, answer);
    var m, pass := d.members[h], d.members[h].flight[i];
    var peer := conf[h].peers[pass.next];
    Exchanging(conf, d, h, i, answer);
    FitsAt(conf, c, md5, d, peer);
    if pass.info.md5 == md5 {
      PeerMeets(conf, c, md5, d, h, i, answer);
    } else if Delivers(conf[h], m, i, answer) {
      var p, info := d.members[peer], Announced(conf[h], m, i);
      assert info.md5 == pass.info.md5 by { AnnouncedSum(conf[h], m, i); }
      OtherTaken(p, info, md5);
      AlikeFits(conf, c, md5, peer, p, p.(node := Taken(p.node, info)));
    }
  }

  lemma AnnouncedSum(cfg: Config, m: Member, i: nat)
    requires i < |m.flight| && Transfer.Local(cfg, m.disk, m.flight[i].info).Some?
    ensures Announced(cfg, m, i).md5 == m.flight[i].info.md5
  {
  }

  // ---- Whole drains --------------------------------------------------------

  lemma StepInv(conf: Conf, c: World, md5: Sum, d: World, a: Action)
    requires Proper(conf) && Unified(conf) && Begins(conf, c, md5) && Inv(conf, c, md5, d) && AllOrigin(conf, c, d)
    requires Succeeds(conf, d, a)
    ensures Inv(conf, c, md5, Next(conf, d, a))
  {
    hide Inv, Exchanged, LocalStep, Consumed, Received, StillOwed, Begins, Fits, Origin, Undisturbed, Forgetting, Stale;
    assert md5.OfContent? && Undisturbed(conf, c, md5) by { BeginsContent(conf, c, md5); }
    var e, m := Next(conf, d, a), d.members[a.h];
    FitsAt(conf, c, md5, d, a.h);
    match a
    case Start(h) =>
      StartStep(conf, c, md5, h, m);
      Locally(conf, c, md5, d, h, e);
    case End(h, i) =>
      EndStep(conf, c, md5, h, m, i);
      Locally(conf, c, md5, d, h, e);
    case WriteLog(h) =>
      WriteStep(conf, c, md5, h, m);
      Locally(conf, c, md5, d, h, e);
    case Fetch(h, net) =>
      assert Origin(conf, c, h, m);
      FetchStep(conf, c, md5, h, m, net);
      Locally(conf, c, md5, d, h, e);
    case Ask(h, asked) =>
      assert Origin(conf, c, h, m);
      AskStep(conf, c, md5, h, m, asked);
      Locally(conf, c, md5, d, h, e);
    case Exchange(h, i, answer) => ExchangeStep(conf, c, md5, d, h, i, answer);
    case _ =>
  }

  lemma BeginsContent(conf: Conf, c: World, md5: Sum)
    requires Begins(conf, c, md5)
    ensures md5.OfContent? && Undisturbed(conf, c, md5) && c.members.Keys == conf.Keys
    ensures forall h :: h in c.members ==> OnlyQueued(c.members[h])
  {
    hide Undisturbed, Settled, OnlyQueued;
  }

  lemma {:induction false} DrainInv(conf: Conf, c: World, md5: Sum, actions: seq<Action>)
    requires Proper(conf) && Unified(conf) && Begins(conf, c, md5) && Drain(conf, c, actions).Some?
    ensures Inv(conf, c, md5, Drain(conf, c, actions).value)
  {
    hide Inv, Next, Succeeds, Begins, AllOrigin, OnlyQueued;
    if actions == [] {
      BeginsInv(conf, c, md5);
    } else {
      var init := actions[..|actions| - 1];
      DrainInv(conf, c, md5, init);
      BeginsContent(conf, c, md5);
      DrainOrigin(conf, c, init);
      StepInv(conf, c, md5, Drain(conf, c, init).value, actions[|actions| - 1]);
    }
  }

  /** Where a content ends up. Whatever is queued, of this and of other contents and of any
      days, and in whatever order it is sent, fetched and logged until nothing is on its way: if
      no other content that comes to a node gets in the way there, a node that had the content
      logs it under its own day, and no other; a node that had not logs it if and only if some
      queued record of it lands there, and only under days of records that go there. */
  lemma DrainLaw(conf: Conf, c: World, md5: Sum, actions: seq<Action>, q: string)
    requires Proper(conf) && Unified(conf) && Begins(conf, c, md5) && q in c.members
    requires Drain(conf, c, actions).Some? && Quiet(Drain(conf, c, actions).value)
    ensures
      var e := Drain(conf, c, actions).value;
      && q in e.members
      && (if Lacks(c, md5, q)
          then (LogsSome(e.members[q].node.index, md5) <==> Reached(conf, c, md5, q))
               && forall day :: Logs(e.members[q].node.index, md5, day) ==> GetsDay(conf, c, md5, q, day)
          else forall day :: Logs(e.members[q].node.index, md5, day) <==> day == DayAt(c, q, md5))
  {
    hide Drain, Begins, Goes;
    DrainInv(conf, c, md5, actions);
    QuietLaw(conf, c, md5, Drain(conf, c, actions).value, q);
  }

  lemma QuietLaw(conf: Conf, c: World, md5: Sum, e: World, q: string)
    requires Inv(conf, c, md5, e) && Quiet(e) && q in c.members
    ensures
      && q in e.members
      && (if Lacks(c, md5, q)
          then (LogsSome(e.members[q].node.index, md5) <==> Reached(conf, c, md5, q))
               && forall day :: Logs(e.members[q].node.index, md5, day) ==> GetsDay(conf, c, md5, q, day)
          else forall day :: Logs(e.members[q].node.index, md5, day) <==> day == DayAt(c, q, md5))
  {
    hide Inv, Reached, Coming, Fits, Logs, GetsDay, QuietMember;
    InvKeys(conf, c, md5, e);
    FitsAt(conf, c, md5, e, q);
    assert QuietMember(e.members[q]);
    if Lacks(c, md5, q) {
      QuietLacker(conf, c, md5, q, e.members[q]);
      if Reached(conf, c, md5, q) { QuietReached(conf, c, md5, e, q); }
    } else {
      QuietHolder(conf, c, md5, q, e.members[q]);
    }
  }

  lemma InvKeys(conf: Conf, c: World, md5: Sum, d: World)
    requires Inv(conf, c, md5, d)
    ensures c.members.Keys == conf.Keys == d.members.Keys
  {
  }

  lemma QuietHolder(conf: Conf, c: World, md5: Sum, q: string, m: Member)
    requires q in c.members && q in conf && Fits(conf, c, md5, q, m) && !Lacks(c, md5, q)
    ensures forall day :: Logs(m.node.index, md5, day) <==> day == DayAt(c, q, md5)
  {
    hide Logs, OwnOffer, HolderView;
  }

  lemma QuietLacker(conf: Conf, c: World, md5: Sum, q: string, m: Member)
    requires q in c.members && q in conf && Fits(conf, c, md5, q, m) && Lacks(c, md5, q)
    ensures forall day :: Logs(m.node.index, md5, day) ==> GetsDay(conf, c, md5, q, day)
    ensures LogsSome(m.node.index, md5) ==> Reached(conf, c, md5, q)
  {
    hide Logs, GetsDay, Offer, LogsSome, SameView, Reached;
  }

  lemma QuietReached(conf: Conf, c: World, md5: Sum, e: World, q: string)
    requires Inv(conf, c, md5, e) && Quiet(e) && Lacks(c, md5, q) && Reached(conf, c, md5, q)
    ensures q in e.members && LogsSome(e.members[q].node.index, md5)
  {
    hide Fits, Goes, Finds, Follows, Logs, LogsSome, Reached;
    assert Coming(conf, c, md5, e, q);
    assert QuietMember(e.members[q]);
    forall p | p in e.members ensures !WillOffer(conf, c, md5, p, e.members[p], q) { assert QuietMember(e.members[p]); }
  }
}
