/** No node forgets what it has to send. */
module Obligation {
  import opened Types
  import opened Index
  import opened Text
  import opened Protocol
  import opened Cluster
  import Haystack
  import Transfer

  // ---- What keeps an obligation alive --------------------------------------

  predicate Queued(cfg: Config, queue: seq<FileInfo>, x: Copy) { exists e :: e in queue && CopyOf(cfg, e) == x }

  /** A call in progress that has the k-th peer still before it. */
  predicate Flying(cfg: Config, flight: seq<Pass>, x: Copy, k: nat) {
    exists p :: p in flight && CopyOf(cfg, p.info) == x && p.next <= k
  }

  predicate Failing(pending: seq<LogEntry>, md5: Sum) {
    exists e :: e in pending && e.log == Errors && e.info.md5 == md5
  }

  predicate LoggedError(logDB: map<LogKey, FileInfo>, md5: Sum) {
    exists k :: k in logDB && k.log == Errors && k.md5 == md5
  }

  /** The k-th peer has taken the content, or will be offered this copy of it, or the failure
      is on record or about to be. */
  predicate Served(cfg: Config, taken: Taking, m: Member, x: Copy, k: nat)
    requires k < |cfg.peers|
  {
    || (cfg.peers[k], x.md5) in taken
    || Queued(cfg, m.node.toPeers, x)
    || Flying(cfg, m.flight, x, k)
    || LoggedError(m.node.index.logDB, x.md5)
    || Failing(m.node.pending, x.md5)
  }

  /** Every uploaded copy that was neither deleted nor overwritten holds its content, and every
      peer is served. */
  ghost predicate Minded(cfg: Config, c: World, h: string)
    requires h in c.members
  {
    forall x :: (h, x) in c.owed ==>
      Holds(c.members[h].disk, x) && forall k :: 0 <= k < |cfg.peers| ==> Served(cfg, c.accepted, c.members[h], x, k)
  }

  ghost predicate NothingForgotten(conf: Conf, c: World) {
    forall h :: h in c.members && h in conf ==> Minded(conf[h], c, h)
  }

  // ---- Steps ---------------------------------------------------------------

  /** Whatever served a peer in one state of the member, for a copy that is there, serves it
      in the other. */
  ghost predicate Keeps(cfg: Config, taken: Taking, m: Member, more: Taking, n: Member) {
    forall x, k | 0 <= k < |cfg.peers| && Holds(m.disk, x) && Served(cfg, taken, m, x, k) :: Served(cfg, more, n, x, k)
  }

  /** Everything a member holds on to is kept, and more may come. */
  ghost predicate Grows(m: Member, n: Member) {
    && (forall e :: e in m.node.toPeers ==> e in n.node.toPeers)
    && (forall p :: p in m.flight ==> p in n.flight)
    && (forall k :: k in m.node.index.logDB && k.log == Errors ==> k in n.node.index.logDB)
    && (forall e :: e in m.node.pending && e.log == Errors ==> e in n.node.pending)
  }

  lemma GrowsKeeps(cfg: Config, taken: Taking, m: Member, more: Taking, n: Member)
    requires Grows(m, n) && taken <= more
    ensures Keeps(cfg, taken, m, more, n)
  {
    hide CopyOf, Holds;
  }

  /** The first queued item becomes a call in progress, with every peer before it. */
  lemma StartKeeps(cfg: Config, taken: Taking, m: Member)
    requires m.node.toPeers != []
    ensures
      var n := m.(node := m.node.(toPeers := m.node.toPeers[1..]), flight := m.flight + [Pass(m.node.toPeers[0], 0)]);
      Keeps(cfg, taken, m, taken, n)
  {
    hide CopyOf, Holds;
    var n := m.(node := m.node.(toPeers := m.node.toPeers[1..]), flight := m.flight + [Pass(m.node.toPeers[0], 0)]);
    var head := Pass(m.node.toPeers[0], 0);
    assert head in n.flight;
    assert forall p :: p in m.flight ==> p in n.flight;
    assert forall e :: e in m.node.toPeers ==> e == m.node.toPeers[0] || e in n.node.toPeers;
  }

  /** A call that has been through all peers serves none any more. */
  lemma EndKeeps(cfg: Config, taken: Taking, m: Member, i: nat)
    requires i < |m.flight| && m.flight[i].next >= |cfg.peers|
    ensures Keeps(cfg, taken, m, taken, m.(flight := Without(m.flight, i)))
  {
    hide CopyOf, Holds;
    var n := m.(flight := Without(m.flight, i));
    assert forall p :: p in m.flight ==> p == m.flight[i] || p in n.flight;
  }

  /** An entry for a failed exchange leaves the queue for the log. */
  lemma WriteKeeps(cfg: Config, taken: Taking, m: Member)
    requires m.node.pending != [] && m.node.pending[0].info.md5.OfContent?
    ensures Keeps(cfg, taken, m, taken, m.(node := Consumed(m.node)))
  {
    hide CopyOf, Holds;
  }

  lemma LikeCopy(cfg: Config, f: FileInfo, e: FileInfo)
    requires Like(f, e)
    ensures CopyOf(cfg, f) == CopyOf(cfg, e)
  {
  }

  /** A copy that is there is found by the call for it. */
  lemma HeldIsFound(cfg: Config, disk: map<string, Transfer.OnDisk>, info: FileInfo)
    requires Holds(disk, CopyOf(cfg, info))
    ensures Transfer.Local(cfg, disk, info).Some?
  {
    hide Transfer.OfferPath;
  }

  lemma TurnDoes(cfg: Config, s: Node, info: FileInfo, peer: string, local: Option<nat>, answer: Answer)
    ensures var r := Turn(cfg, s, info, peer, local, answer);
      && CopyOf(cfg, r.info) == CopyOf(cfg, info) && r.info.md5 == info.md5
      && (forall e :: e in s.toPeers ==> e in r.node.toPeers)
      && (forall k :: k in s.index.logDB && k.log == Errors ==> k in r.node.index.logDB)
      && (forall e :: e in s.pending ==> e in r.node.pending)
      && (peer in info.peers || local.None? || answer.Found? || answer.Accepted?
          || LogEntry(r.info, Errors) in r.node.pending)
  {
    hide CopyOf;
    LikeCopy(cfg, Turn(cfg, s, info, peer, local, answer).info, info);
  }

  /** One exchange: the peer has it, or the failure is about to be logged; a record that
      names the peer already is right about it. */
  lemma TurnKeeps(cfg: Config, taken: Taking, m: Member, i: nat, answer: Answer, more: Taking)
    requires i < |m.flight| && m.flight[i].next < |cfg.peers| && taken <= more
    requires
      var pass := m.flight[i];
      Transfer.Local(cfg, m.disk, pass.info).Some?
      && (cfg.peers[pass.next] in pass.info.peers || answer.Found? || answer.Accepted?)
      ==> (cfg.peers[pass.next], pass.info.md5) in more
    ensures
      var pass := m.flight[i];
      var r := Turn(cfg, m.node, pass.info, cfg.peers[pass.next], Transfer.Local(cfg, m.disk, pass.info), answer);
      Keeps(cfg, taken, m, more, m.(node := r.node, flight := m.flight[i := Pass(r.info, pass.next + 1)]))
  {
    hide Turn, CopyOf, Holds, Transfer.Local;
    var pass := m.flight[i];
    var local := Transfer.Local(cfg, m.disk, pass.info);
    var r := Turn(cfg, m.node, pass.info, cfg.peers[pass.next], local, answer);
    var n := m.(node := r.node, flight := m.flight[i := Pass(r.info, pass.next + 1)]);
    TurnDoes(cfg, m.node, pass.info, cfg.peers[pass.next], local, answer);
    assert n.flight[i] in n.flight;
    forall p | p in m.flight && p != pass ensures p in n.flight {
      var j :| 0 <= j < |m.flight| && m.flight[j] == p;
      assert n.flight[j] == p;
    }
    if Holds(m.disk, CopyOf(cfg, pass.info)) { HeldIsFound(cfg, m.disk, pass.info); }
    assert CopyOf(cfg, pass.info).md5 == pass.info.md5 by { CopySum(cfg, pass.info); }
  }

  lemma CopySum(cfg: Config, info: FileInfo)
    ensures CopyOf(cfg, info).md5 == info.md5
  {
  }

  lemma KeepsMinded(cfg: Config, c: World, d: World, h: string)
    requires h in c.members && h in d.members && Minded(cfg, c, h)
    requires Keeps(cfg, c.accepted, c.members[h], d.accepted, d.members[h])
    requires forall x :: (h, x) in d.owed ==> (h, x) in c.owed && Holds(d.members[h].disk, x)
    ensures Minded(cfg, d, h)
  {
    hide Served, Holds;
  }

  lemma ExchangeKeeps(conf: Conf, c: World, h: string, i: nat, answer: Answer, q: string)
    requires Proper(conf) && AllVouched(c) && Enabled(conf, c, Exchange(h, i, answer))
    requires q in c.members && q in conf
    ensures var d := Exchanged(conf[h], c, h, i, answer);
      q in d.members && Keeps(conf[q], c.accepted, c.members[q], d.accepted, d.members[q])
      && d.members[q].disk == c.members[q].disk
  {
    hide Turn, Keeps, Vouched, Transfer.Local, Knows, AsksFirst, MemberVouched;
    var cfg, m, d := conf[h], c.members[h], Exchanged(conf[h], c, h, i, answer);
    var pass := m.flight[i];
    var peer := cfg.peers[pass.next];
    assert peer != h;
    if q == h {
      assert MemberVouched(c.accepted, h, m);
      PassVouched(c.accepted, h, m, i);
      if peer in pass.info.peers { NamedTaken(c.accepted, h, pass.info, peer); }
      if answer.Found? { FoundTaken(conf, c, h, i, answer); }
      TurnKeeps(cfg, c.accepted, m, i, answer, d.accepted);
    } else {
      GrowsKeeps(conf[q], c.accepted, c.members[q], d.accepted, d.members[q]);
    }
  }

  lemma PassVouched(taken: Taking, h: string, m: Member, i: nat)
    requires MemberVouched(taken, h, m) && i < |m.flight|
    ensures Vouched(taken, h, m.flight[i].info)
  {
    hide Vouched;
    assert m.flight[i] in m.flight;
  }

  lemma NamedTaken(taken: Taking, h: string, info: FileInfo, peer: string)
    requires Vouched(taken, h, info) && peer in info.peers
    ensures (peer, info.md5) in taken
  {
  }

  lemma ReceivedGrows(cfg: Config, m: Member, net: Transfer.Net)
    requires m.node.fromPeers != [] && m.node.fromPeers[0].offSet != MIGRATED
    ensures Grows(m, Received(cfg, m, net))
  {
    hide Received;
    var n := Received(cfg, m, net);
    ReceivedShape(cfg, m, net);
    if n.flight != m.flight { assert n.flight == m.flight + [n.flight[|m.flight|]]; }
  }

  lemma StepKeeps(conf: Conf, c: World, a: Action)
    requires Proper(conf) && AllVouched(c) && Enabled(conf, c, a) && !a.Upload? && !a.Exchange?
    ensures Keeps(conf[a.h], c.accepted, c.members[a.h], c.accepted, Next(conf, c, a).members[a.h])
  {
    hide Keeps, Consumed, Resendable, Vouched, Received, StillOwed, FileInfo.DiskPath;
    var m, n := c.members[a.h], Next(conf, c, a).members[a.h];
    if a.Start? {
      StartKeeps(conf[a.h], c.accepted, m);
    } else if a.End? {
      EndKeeps(conf[a.h], c.accepted, m, a.i);
    } else if a.WriteLog? {
      assert m.node.pending[0] in m.node.pending && MemberVouched(c.accepted, a.h, m);
      VouchedContent(c.accepted, a.h, m.node.pending[0].info);
      WriteKeeps(conf[a.h], c.accepted, m);
    } else {
      if a.Fetch? {
        assert m.node.fromPeers[0] in m.node.fromPeers && MemberVouched(c.accepted, a.h, m);
        VouchedWhole(c.accepted, a.h, m.node.fromPeers[0]);
        ReceivedGrows(conf[a.h], m, a.net);
      }
      GrowsKeeps(conf[a.h], c.accepted, m, c.accepted, n);
    }
  }

  lemma VouchedContent(taken: Taking, h: string, info: FileInfo)
    requires Vouched(taken, h, info)
    ensures info.md5.OfContent?
  {
  }

  /** What is stored holds the content. */
  lemma StoredHolds(cfg: Config, disk: map<string, Transfer.OnDisk>, info: FileInfo)
    requires Stores(cfg, disk, info)
    ensures Holds(Storing(cfg, disk, info), CopyOf(cfg, info))
  {
    hide Transfer.OfferPath;
    var path := Transfer.OfferPath(cfg, info);
    var data := [Haystack.MARKER] + info.md5.bytes;
    if info.offSet >= 0 {
      var b := Transfer.Blob(disk, path) + data;
      assert b[info.offSet..info.offSet + |info.md5.bytes| + 1] == data;
    }
  }

  /** A new content has a call in progress that has every peer before it. */
  lemma UploadMinded(cfg: Config, c: World, h: string, info: FileInfo)
    requires h in c.members && Stores(cfg, c.members[h].disk, info) && Minded(cfg, c, h)
    ensures Minded(cfg, Uploaded(cfg, c, h, info), h)
  {
    hide SaveLog, CopyOf, Holds, Stores, Storing, Served;
    var m, d := c.members[h], Uploaded(cfg, c, h, info);
    var n := d.members[h];
    SavedErrors(m.node.index, info);
    GrowsKeeps(cfg, c.accepted, m, d.accepted, n);
    StoredHolds(cfg, m.disk, info);
    assert Pass(info, 0) in n.flight;
    forall k | 0 <= k < |cfg.peers| ensures Served(cfg, d.accepted, n, CopyOf(cfg, info), k) {
      NewServed(cfg, d.accepted, n, info, k);
    }
  }

  lemma NewServed(cfg: Config, taken: Taking, n: Member, info: FileInfo, k: nat)
    requires k < |cfg.peers| && Pass(info, 0) in n.flight
    ensures Served(cfg, taken, n, CopyOf(cfg, info), k)
  {
    hide CopyOf;
    assert Flying(cfg, n.flight, CopyOf(cfg, info), k);
  }

  lemma SavedErrors(s: State, info: FileInfo)
    ensures forall k :: k in s.logDB && k.log == Errors ==> k in SaveLog(s, info, Files).logDB
  {
    hide FileInfo.FullPath;
  }

  lemma StepFrame(conf: Conf, c: World, a: Action)
    requires Enabled(conf, c, a)
    ensures var d := Next(conf, c, a);
      && d.members.Keys == c.members.Keys
      && (!a.Upload? ==> d.owed <= c.owed)
      && (!a.Exchange? ==> forall q :: q in c.members && q != a.h ==> d.members[q] == c.members[q])
      && c.accepted <= d.accepted
  {
    hide Turn, Taken, SaveLog, Resendable, Consumed, CopyOf, Holds, Received, Storing;
  }

  lemma StepMinded(conf: Conf, c: World, a: Action)
    requires Proper(conf) && AllVouched(c) && NothingForgotten(conf, c) && Enabled(conf, c, a)
    ensures NothingForgotten(conf, Next(conf, c, a))
  {
    hide Keeps, Minded, Next, Enabled, AllVouched;
    var d := Next(conf, c, a);
    StepFrame(conf, c, a);
    forall q | q in d.members && q in conf ensures Minded(conf[q], d, q) {
      assert Minded(conf[q], c, q);
      StepMindedAt(conf, c, a, q);
    }
  }

  lemma StepMindedAt(conf: Conf, c: World, a: Action, q: string)
    requires Proper(conf) && AllVouched(c) && Enabled(conf, c, a)
    requires q in c.members && q in conf && Minded(conf[q], c, q)
    ensures q in Next(conf, c, a).members && Minded(conf[q], Next(conf, c, a), q)
  {
    hide Keeps, Minded, Enabled, AllVouched, Next, Uploaded, Stores;
    var d := Next(conf, c, a);
    StepFrame(conf, c, a);
    if a.Exchange? {
      ExchangeStep(conf, c, a);
      ExchangeKeeps(conf, c, a.h, a.i, a.answer, q);
      SameDiskOwed(conf[q], c, q);
      KeepsMinded(conf[q], c, d, q);
    } else if q != a.h {
      GrowsKeeps(conf[q], c.accepted, c.members[q], d.accepted, d.members[q]);
      OthersOwed(conf, c, a, q);
      SameDiskOwed(conf[q], c, q);
      KeepsMinded(conf[q], c, d, q);
    } else if a.Upload? {
      UploadStep(conf, c, a);
      if d != c { UploadMinded(conf[q], c, q, a.info); }
    } else {
      StepKeeps(conf, c, a);
      SameDiskOwed(conf[q], c, q);
      LocalOwed(conf, c, a);
      KeepsMinded(conf[q], c, d, q);
    }
  }

  lemma SameDiskOwed(cfg: Config, c: World, q: string)
    requires q in c.members && Minded(cfg, c, q)
    ensures forall x :: (q, x) in c.owed ==> Holds(c.members[q].disk, x)
  {
  }

  lemma UploadStep(conf: Conf, c: World, a: Action)
    requires Enabled(conf, c, a) && a.Upload?
    ensures Stores(conf[a.h], c.members[a.h].disk, a.info)
    ensures Next(conf, c, a) == if Duplicate(conf[a.h], c.members[a.h].node, a.info.md5) then c
                                else Uploaded(conf[a.h], c, a.h, a.info)
  {
  }

  lemma ExchangeStep(conf: Conf, c: World, a: Action)
    requires Enabled(conf, c, a) && a.Exchange?
    ensures Next(conf, c, a) == Exchanged(conf[a.h], c, a.h, a.i, a.answer)
    ensures Next(conf, c, a).owed == c.owed
  {
    hide Turn, Taken;
  }

  lemma OthersOwed(conf: Conf, c: World, a: Action, q: string)
    requires Enabled(conf, c, a) && q != a.h
    ensures forall x :: (q, x) in Next(conf, c, a).owed ==> (q, x) in c.owed
  {
    hide Turn, Taken, SaveLog, Resendable, Consumed, CopyOf, Holds, Received, Storing;
  }

  /** What is still owed after a step is still there. */
  lemma LocalOwed(conf: Conf, c: World, a: Action)
    requires Enabled(conf, c, a) && !a.Upload? && !a.Exchange?
    requires forall x :: (a.h, x) in c.owed ==> Holds(c.members[a.h].disk, x)
    ensures var d := Next(conf, c, a);
      && d.accepted == c.accepted && a.h in d.members
      && forall x :: (a.h, x) in d.owed ==> (a.h, x) in c.owed && Holds(d.members[a.h].disk, x)
  {
    hide SaveLog, Resendable, Consumed, CopyOf, Holds, Received;
  }

  /** Whatever is uploaded and removed, however the exchanges go and however the nodes
      interleave: a copy uploaded at a node, not dropped as a duplicate and not deleted
      or overwritten there, by whatever step, has its content on disk; and each of its peers
      has taken the content, or the copy is queued or on its way there, or the failure is in
      the error log or about to be. */
  lemma {:induction false} RunForgetsNothing(conf: Conf, today: nat, actions: seq<Action>)
    requires Proper(conf) && Cluster.Run(conf, today, actions).Some?
    ensures NothingForgotten(conf, Cluster.Run(conf, today, actions).value)
  {
    hide Next, Enabled;
    if actions != [] {
      var init := actions[..|actions| - 1];
      RunForgetsNothing(conf, today, init);
      RunVouched(conf, today, init);
      StepMinded(conf, Cluster.Run(conf, today, init).value, actions[|actions| - 1]);
    }
  }

  // ---- What is skipped, and what is not an obligation ----------------------

  predicate FullMesh(conf: Conf) {
    forall h, q :: h in conf && q in conf && h != q ==> q in conf[h].peers
  }

  lemma {:induction false} RunMembers(conf: Conf, today: nat, actions: seq<Action>)
    requires Cluster.Run(conf, today, actions).Some?
    ensures Cluster.Run(conf, today, actions).value.members.Keys == conf.Keys
  {
    hide Next, Enabled;
    if actions != [] {
      var init := actions[..|actions| - 1];
      RunMembers(conf, today, init);
      StepFrame(conf, Cluster.Run(conf, today, init).value, actions[|actions| - 1]);
    }
  }

  /** In a full mesh, a logged failure that is indexed and yet not sent again is of a
      content that every peer has taken. */
  lemma SkippedIsReplicated(conf: Conf, today: nat, actions: seq<Action>, h: string, md5: Sum)
    requires Proper(conf) && FullMesh(conf) && Cluster.Run(conf, today, actions).Some?
    requires h in conf && md5.OfContent?
    ensures
      var c := Cluster.Run(conf, today, actions).value;
      h in c.members && (md5 in c.members[h].node.index.ldb && Resendable(conf[h], c.members[h].node, md5, false).None?
        ==> forall q :: q in conf[h].peers ==> (q, md5) in c.accepted)
  {
    hide Cluster.Run;
    RunVouched(conf, today, actions);
    RunMembers(conf, today, actions);
    var c := Cluster.Run(conf, today, actions).value;
    var ldb := c.members[h].node.index.ldb;
    if md5 in ldb && Resendable(conf[h], c.members[h].node, md5, false).None? {
      assert MemberVouched(c.accepted, h, c.members[h]);
      var info := ldb[md5];
      forall q | q in info.peers ensures q == h || q in conf[h].peers {
        assert (q, md5) in c.accepted;
      }
      SkipMeansReplicated(conf[h], info.peers);
    }
  }

  // ---- Whose obligation a content is ---------------------------------------

  /** What a node has taken was uploaded somewhere. */
  ghost predicate AllSourced(c: World) {
    forall q: (string, Sum) :: q in c.accepted ==> exists h :: (h, q.1) in c.uploaded
  }

  lemma StepSourced(conf: Conf, c: World, a: Action)
    requires AllVouched(c) && AllSourced(c) && Enabled(conf, c, a)
    ensures AllSourced(Next(conf, c, a))
  {
    hide Next, Enabled, AllVouched;
    var d := Next(conf, c, a);
    UploadedGrows(conf, c, a);
    if a.Exchange? { ExchangeSourced(conf, c, a); }
    forall q: (string, Sum) | q in d.accepted ensures exists h :: (h, q.1) in d.uploaded {
      if q !in d.uploaded {
        var p :| (p, q.1) in c.accepted;
        var h :| (h, q.1) in c.uploaded;
        assert (h, q.1) in d.uploaded;
      }
    }
  }

  /** What an exchange makes a peer take, the offering node has taken. */
  lemma ExchangeSourced(conf: Conf, c: World, a: Action)
    requires AllVouched(c) && Enabled(conf, c, a) && a.Exchange?
    ensures forall q: (string, Sum) :: q in Next(conf, c, a).accepted ==> exists p :: (p, q.1) in c.accepted
  {
    hide Turn, Taken, Vouched, Transfer.Local;
    var m, d := c.members[a.h], Next(conf, c, a);
    var pass := m.flight[a.i];
    assert pass in m.flight && MemberVouched(c.accepted, a.h, m);
    assert (a.h, pass.info.md5) in c.accepted by { VouchedTaken(c.accepted, a.h, pass.info); }
    forall q: (string, Sum) | q in d.accepted ensures exists p :: (p, q.1) in c.accepted {
      if q in c.accepted { assert (q.0, q.1) in c.accepted; } else { assert q.1 == pass.info.md5; }
    }
  }

  lemma VouchedTaken(taken: Taking, h: string, info: FileInfo)
    requires Vouched(taken, h, info)
    ensures (h, info.md5) in taken
  {
  }

  lemma {:induction false} RunSourced(conf: Conf, today: nat, actions: seq<Action>)
    requires Proper(conf) && Cluster.Run(conf, today, actions).Some?
    ensures AllSourced(Cluster.Run(conf, today, actions).value)
  {
    hide Next, Enabled;
    if actions != [] {
      var init := actions[..|actions| - 1];
      RunSourced(conf, today, init);
      RunVouched(conf, today, init);
      StepSourced(conf, Cluster.Run(conf, today, init).value, actions[|actions| - 1]);
    }
  }

  /** What a node has taken, by whatever way, in any run of a full mesh: somebody uploaded it;
      and whoever uploaded a copy of it that was neither deleted nor overwritten still has
      that copy, and every other node has taken the content too, or that copy is queued or
      on its way to it, or the failure is on record. So a copy that was fetched, and that its
      own node will not pass on, needs no more than one such uploader. */
  lemma EveryHolderIsCovered(conf: Conf, today: nat, actions: seq<Action>, q: string, md5: Sum)
    requires Proper(conf) && FullMesh(conf) && Cluster.Run(conf, today, actions).Some?
    requires (q, md5) in Cluster.Run(conf, today, actions).value.accepted
    ensures
      var c := Cluster.Run(conf, today, actions).value;
      && c.members.Keys == conf.Keys
      && (exists h :: (h, md5) in c.uploaded)
      && (forall h, x :: (h, x) in c.owed && x.md5 == md5 && h in conf ==>
            && Holds(c.members[h].disk, x)
            && forall p :: p in conf && p != h ==>
                 exists k :: 0 <= k < |conf[h].peers| && conf[h].peers[k] == p
                          && Served(conf[h], c.accepted, c.members[h], x, k))
  {
    hide Cluster.Run, Served;
    RunMembers(conf, today, actions);
    RunSourced(conf, today, actions);
    RunForgetsNothing(conf, today, actions);
    var c := Cluster.Run(conf, today, actions).value;
    assert (q, md5) in c.accepted;
    forall h, x | (h, x) in c.owed && x.md5 == md5 && h in conf
      ensures Holds(c.members[h].disk, x)
      ensures forall p :: p in conf && p != h ==>
                exists k :: 0 <= k < |conf[h].peers| && conf[h].peers[k] == p
                         && Served(conf[h], c.accepted, c.members[h], x, k)
    {
      assert Minded(conf[h], c, h);
    }
  }

  // ---- Taken offers are on record ------------------------------------------

  /** The node has logged that it was offered the content, or is about to. */
  predicate Noted(s: Node, md5: Sum) {
    || (exists e :: e in s.pending && e.log == Queue && e.info.md5 == md5)
    || (exists k :: k in s.index.logDB && k.log == Queue && k.md5 == md5)
  }

  /** Every node that has taken a content has uploaded it or has noted the offer. */
  ghost predicate AllNoted(c: World) {
    forall q: (string, Sum) :: q in c.accepted ==>
        q in c.uploaded || (q.0 in c.members && Noted(c.members[q.0].node, q.1))
  }

  ghost predicate NotesKept(s: Node, t: Node) {
    && (forall e :: e in s.pending && e.log == Queue ==>
          e in t.pending || exists k :: k in t.index.logDB && k.log == Queue && k.md5 == e.info.md5)
    && (forall k :: k in s.index.logDB && k.log == Queue ==> k in t.index.logDB)
  }

  lemma NotesStay(s: Node, t: Node, md5: Sum)
    requires NotesKept(s, t) && Noted(s, md5)
    ensures Noted(t, md5)
  {
  }

  lemma WriteNotes(s: Node)
    requires s.pending != [] && s.pending[0].info.md5.OfContent?
    ensures NotesKept(s, Consumed(s))
  {
    hide FileInfo.FullPath, AddCount;
    var e, t := s.pending[0], Consumed(s);
    assert forall x :: x in s.pending ==> x == e || x in t.pending;
    assert e.log == Queue ==> LogKey(e.info.timeStamp.day, Queue, e.info.md5) in t.index.logDB;
  }

  lemma TurnNotes(cfg: Config, s: Node, info: FileInfo, peer: string, local: Option<nat>, answer: Answer)
    ensures NotesKept(s, Turn(cfg, s, info, peer, local, answer).node)
  {
  }

  lemma TakenNotes(s: Node, info: FileInfo)
    requires info.offSet != MIGRATED
    ensures NotesKept(s, Taken(s, info)) && Noted(Taken(s, info), info.md5)
  {
    assert LogEntry(info, Queue) in Taken(s, info).pending;
  }

  lemma SavedNotes(s: State, info: FileInfo)
    ensures forall k :: k in s.logDB && k.log == Queue ==> k in SaveLog(s, info, Files).logDB
  {
    hide FileInfo.FullPath;
  }

  lemma LocalNotes(conf: Conf, c: World, a: Action)
    requires AllVouched(c) && Enabled(conf, c, a) && !a.Exchange?
    ensures NotesKept(c.members[a.h].node, Next(conf, c, a).members[a.h].node)
  {
    hide SaveLog, Consumed, Resendable, Vouched, CopyOf, Received, StillOwed, Storing, FileInfo.DiskPath;
    var m := c.members[a.h];
    if a.WriteLog? {
      assert m.node.pending[0] in m.node.pending && MemberVouched(c.accepted, a.h, m);
      VouchedContent(c.accepted, a.h, m.node.pending[0].info);
      WriteNotes(m.node);
    } else if a.Fetch? {
      assert m.node.fromPeers[0] in m.node.fromPeers && MemberVouched(c.accepted, a.h, m);
      VouchedWhole(c.accepted, a.h, m.node.fromPeers[0]);
      ReceivedShape(conf[a.h], m, a.net);
    } else if a.Upload? {
      SavedNotes(m.node.index, a.info);
    }
  }

  lemma ExchangeNotes(conf: Conf, c: World, h: string, i: nat, answer: Answer, q: string)
    requires AllVouched(c) && Enabled(conf, c, Exchange(h, i, answer)) && q in c.members && Proper(conf)
    ensures var d := Exchanged(conf[h], c, h, i, answer);
      && q in d.members && NotesKept(c.members[q].node, d.members[q].node)
      && forall md5 :: (q, md5) in d.accepted && (q, md5) !in c.accepted ==> Noted(d.members[q].node, md5)
  {
    hide Turn, Taken, NotesKept, Noted, Vouched, Transfer.Local;
    var cfg, m := conf[h], c.members[h];
    var pass := m.flight[i];
    var peer, local := cfg.peers[pass.next], Transfer.Local(cfg, m.disk, pass.info);
    assert pass in m.flight && MemberVouched(c.accepted, h, m);
    assert pass.info.offSet != MIGRATED by { VouchedWhole(c.accepted, h, pass.info); }
    TurnNotes(cfg, m.node, pass.info, peer, local, answer);
    if local.Some? { TakenNotes(c.members[peer].node, Stored(Measured(pass.info, local.value))); }
    SameNotes(c.members[q].node);
  }

  lemma VouchedWhole(taken: Taking, h: string, info: FileInfo)
    requires Vouched(taken, h, info)
    ensures info.offSet != MIGRATED
  {
  }

  lemma SameNotes(s: Node)
    ensures NotesKept(s, s)
  {
  }

  lemma StepNoted(conf: Conf, c: World, a: Action)
    requires Proper(conf) && AllVouched(c) && AllNoted(c) && Enabled(conf, c, a)
    ensures AllNoted(Next(conf, c, a))
  {
    hide Next, Noted, NotesKept, Enabled, AllVouched;
    var d := Next(conf, c, a);
    StepFrame(conf, c, a);
    UploadedGrows(conf, c, a);
    forall q: (string, Sum) | q in d.accepted
      ensures q in d.uploaded || (q.0 in d.members && Noted(d.members[q.0].node, q.1))
    {
      StepNotedAt(conf, c, a, q);
    }
  }

  lemma UploadedGrows(conf: Conf, c: World, a: Action)
    requires Enabled(conf, c, a)
    ensures var d := Next(conf, c, a);
      && c.uploaded <= d.uploaded
      && (!a.Exchange? ==> d.accepted <= c.accepted + d.uploaded)
      && (a.Exchange? ==> d.uploaded == c.uploaded)
  {
    hide Turn, Taken, SaveLog, Resendable, Consumed, CopyOf, Received, StillOwed, Storing;
  }

  lemma StepNotedAt(conf: Conf, c: World, a: Action, q: (string, Sum))
    requires Proper(conf) && AllVouched(c) && AllNoted(c) && Enabled(conf, c, a) && q in Next(conf, c, a).accepted
    ensures var d := Next(conf, c, a); q in d.uploaded || (q.0 in d.members && Noted(d.members[q.0].node, q.1))
  {
    hide Next, Noted, NotesKept, Enabled;
    var d := Next(conf, c, a);
    StepFrame(conf, c, a);
    UploadedGrows(conf, c, a);
    StepVouched(conf, c, a);
    if q !in d.uploaded {
      assert q.0 in c.members;
      if a.Exchange? {
        ExchangeStep(conf, c, a);
        ExchangeNotes(conf, c, a.h, a.i, a.answer, q.0);
      } else if q.0 == a.h {
        LocalNotes(conf, c, a);
      } else {
        SameNotes(c.members[q.0].node);
      }
      if q in c.accepted { NotesStay(c.members[q.0].node, d.members[q.0].node, q.1); }
    }
  }

  /** In every run, a node that has taken a content, and may be named as a holder anywhere
      from then on, has uploaded it itself, or has noted in its own log that it is to fetch
      it, or is about to note it. */
  lemma {:induction false} RunNotesOffers(conf: Conf, today: nat, actions: seq<Action>)
    requires Proper(conf) && Cluster.Run(conf, today, actions).Some?
    ensures AllNoted(Cluster.Run(conf, today, actions).value)
  {
    hide Next, Enabled, Noted;
    if actions != [] {
      var init := actions[..|actions| - 1];
      RunNotesOffers(conf, today, init);
      RunVouched(conf, today, init);
      StepNoted(conf, Cluster.Run(conf, today, init).value, actions[|actions| - 1]);
    }
  }
}
