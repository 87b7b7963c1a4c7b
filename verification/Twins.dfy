/** Two nodes with one file each, of one size and under one path. */
module Twins {
  import opened Types
  import opened Index
  import opened Text
  import opened Protocol
  import opened Cluster
  import opened Obligation
  import opened Draining
  import opened Origins
  import opened Convergence
  import opened Agreement
  import Transfer

  const A := "a"
  const B := "b"

  const DAY: nat := 1

  function Named(cfg: Config, h: string, peer: string): Config {
    cfg.(host := h, peers := [peer], distinct := true, readOnly := false)
  }

  /** Two nodes that are each other's peers, whatever else is configured. */
  function Two(cfg: Config): Conf { map[A := Named(cfg, A, B), B := Named(cfg, B, A)] }

  /** The record of a file of one byte, uploaded at the node under a path of the client's choice. */
  function Record(h: string, x: Byte): FileInfo {
    FileInfo("f", "", "files/p", OfContent([x]), 1, [h], Stamp(0, DAY), WHOLE, 0)
  }

  function Path(cfg: Config): string { Record(A, 1).DiskPath(cfg) }

  /** A node that has that file, with the given queue of files to offer. */
  function Has(cfg: Config, h: string, x: Byte, queue: seq<FileInfo>): Member {
    var e := Record(h, x);
    var s := State(map[e.md5 := e], map[LogKey(DAY, Files, e.md5) := e], map[DAY := 1], map[DAY := 1]);
    Member(Node(s, [], queue, []), [], map[Path(cfg) := Transfer.OnDisk([x], Stamp(0, DAY))])
  }

  /** Each node has uploaded a file; nothing is on its way. */
  function Before(cfg: Config): World {
    World(map[A := Has(cfg, A, 1, []), B := Has(cfg, B, 2, [])], {}, {}, {})
  }

  /** A repair of the day has queued both. */
  function Repaired(cfg: Config): World {
    World(map[A := Has(cfg, A, 1, [Record(A, 1)]), B := Has(cfg, B, 2, [Record(B, 2)])], {}, {}, {})
  }

  lemma Names()
    ensures A != B && OfContent([1]) != OfContent([2])
  {
    assert [1][0] != [2][0];
  }

  lemma IsProper(cfg: Config)
    ensures Proper(Two(cfg)) && Unified(Two(cfg)) && Closed(Two(cfg)) && FullMesh(Two(cfg))
    ensures forall h :: h in Two(cfg) ==> Clean(h) && !Two(cfg)[h].readOnly
  {
    Names();
    forall h | h in Two(cfg) ensures Clean(h) {
      assert h == A || h == B;
      forall i | 0 <= i <= |h| ensures !Transfer.HasAt(h, "127.0.0.1", i) { assert |h[i..]| <= 1; }
    }
  }

  lemma Logged(cfg: Config)
    ensures DaySet(Before(cfg).members[A], DAY) == {OfContent([1])}
    ensures DaySet(Before(cfg).members[B], DAY) == {OfContent([2])}
    ensures Union(Before(cfg), DAY) == {OfContent([1]), OfContent([2])}
  {
    Names();
    var c := Before(cfg);
    assert LogKey(DAY, Files, OfContent([1])) in c.members[A].node.index.logDB;
    assert LogKey(DAY, Files, OfContent([2])) in c.members[B].node.index.logDB;
  }

  lemma HasReady(cfg: Config, h: string, x: Byte)
    ensures MemberReady(Has(cfg, h, x, [])) && QuietMember(Has(cfg, h, x, []))
  {
    hide Path, FileInfo.DiskPath;
  }

  lemma IsReady(cfg: Config)
    ensures Ready(Two(cfg), Before(cfg), DAY)
    ensures forall md5 :: OneDay(Before(cfg), DAY, md5)
  {
    hide MemberReady, QuietMember, Path;
    Names();
    HasReady(cfg, A, 1);
    HasReady(cfg, B, 2);
  }

  lemma IsRepaired(cfg: Config)
    ensures Repairs(Two(cfg), Before(cfg), Repaired(cfg), A, DAY)
  {
    Names();
    Logged(cfg);
    var conf, c, d := Two(cfg), Before(cfg), Repaired(cfg);
    hide Union, Index.Logged, DaySet;
    assert conf[A].peers[0] == B && conf[B].peers[0] == A;
    forall h | h in c.members ensures MemberRepairs(conf, c, A, DAY, h, d.members[h]) {
      if h == A { assert d.members[A].node.toPeers[0] == Record(A, 1); }
      else { assert h == B && d.members[B].node.toPeers[0] == Record(B, 2); }
    }
  }

  /** What is queued is one of the two records, and would find a file of its size in place at
      either node. */
  lemma QueuedIdle(cfg: Config, p: string, f: FileInfo, h: string)
    requires Queues(Repaired(cfg), p, f) && h in Two(cfg)
    ensures f.offSet == WHOLE && Idle(Two(cfg)[h], Repaired(cfg).members[h].disk, f, Path(cfg))
    ensures Transfer.OfferPath(Two(cfg)[h], f) == Path(cfg)
  {
    Names();
  }

  lemma IndexedRecord(cfg: Config, h: string, md5: Sum)
    requires h in Two(cfg) && h in Repaired(cfg).members && md5 in Repaired(cfg).members[h].node.index.ldb
    ensures var d := Repaired(cfg);
      var r := d.members[h].node.index.ldb[md5];
      && Queues(d, h, r) && !r.md5.Unset? && forall f :: f in d.members[h].node.toPeers ==> f == r
  {
    Names();
  }

  /** Each node has its file for good: the other file has that path, not this one's temporary one. */
  lemma IsFirm(cfg: Config, h: string, md5: Sum)
    requires h in Two(cfg) && h in Repaired(cfg).members && md5.OfContent?
    requires md5 in Repaired(cfg).members[h].node.index.ldb
    ensures Firm(Two(cfg), Repaired(cfg), h, md5)
  {
    hide Repaired, Two, Path, Idle, Transfer.TmpPath, FileInfo.DiskPath, Transfer.OfferPath;
    var conf, d := Two(cfg), Repaired(cfg);
    IndexedRecord(cfg, h, md5);
    var r := d.members[h].node.index.ldb[md5];
    QueuedIdle(cfg, h, r, h);
    IdlePath(conf[h], d.members[h].disk, r, Path(cfg));
    forall p, f | Queues(d, p, f) ensures Leaves(conf[h], f, r.DiskPath(conf[h])) {
      QueuedIdle(cfg, p, f, h);
      IdlePath(conf[h], d.members[h].disk, f, Path(cfg));
      Transfer.TmpIsOther(conf[h], f);
    }
  }

  lemma IsClear(cfg: Config)
    ensures Clear(Two(cfg), Before(cfg), Repaired(cfg), DAY)
  {
    hide Union, Touches, Idle, Repaired, Two, Path, Firm;
    var conf, d := Two(cfg), Repaired(cfg);
    SameNodes(cfg);
    assert forall md5 :: md5 in Union(Before(cfg), DAY) ==> md5.OfContent? by { Logged(cfg); }
    forall md5: Sum, h | md5.OfContent? && h in d.members && md5 in d.members[h].node.index.ldb
      ensures Firm(conf, d, h, md5)
    {
      IsFirm(cfg, h, md5);
    }
    forall md5, h, f | h in d.members && h in conf && Reaches(conf, d, h, f) && f.md5 != md5
      ensures Spares(conf, d, md5, h, f)
    {
      ReachesQueued(conf, d, h, f);
      var p :| Queues(d, p, f);
      QueuedIdle(cfg, p, f, h);
      if md5 in d.members[h].node.index.ldb {
        IndexedRecord(cfg, h, md5);
        QueuedIdle(cfg, h, d.members[h].node.index.ldb[md5], h);
      } else {
        forall r | Reaches(conf, d, h, r) && r.offSet < 0 ensures r.DiskPath(conf[h]) == Path(cfg) {
          ReachesQueued(conf, d, h, r);
          var x :| Queues(d, x, r);
          QueuedIdle(cfg, x, r, h);
          assert Idle(conf[h], d.members[h].disk, r, Path(cfg));
          IdlePath(conf[h], d.members[h].disk, r, Path(cfg));
        }
      }
    }
  }

  lemma SameNodes(cfg: Config)
    ensures Repaired(cfg).members.Keys == Two(cfg).Keys
  {
  }

  lemma IdlePath(cfg: Config, disk: map<string, Transfer.OnDisk>, f: FileInfo, path: string)
    requires Idle(cfg, disk, f, path)
    ensures f.DiskPath(cfg) == path && path in disk
  {
  }

  /** B does not take A's file: it has one of that size there. */
  lemma NotSent(cfg: Config)
    ensures !CanLog(Two(cfg), Before(cfg), A, DAY, OfContent([1]), B)
  {
    Names();
    Logged(cfg);
    var conf, c := Two(cfg), Before(cfg);
    hide Union, Index.Logged, DaySet;
    forall p ensures !Sends(conf, c, A, DAY, OfContent([1]), p, B) {}
  }

  /** A full mesh of nodes that may write and may be asked, with records that name their own nodes,
      files on disk, each content under one day, and none in the way of another. Yet however
      the queues are drained after the repair, when nothing is on its way any more the nodes do
      not agree: each takes its own file for the other's. */
  lemma TwinsDisagree(cfg: Config, actions: seq<Action>)
    requires Drain(Two(cfg), Repaired(cfg), actions).Some? && Quiet(Drain(Two(cfg), Repaired(cfg), actions).value)
    ensures var conf, c, d := Two(cfg), Before(cfg), Repaired(cfg);
      && Proper(conf) && Unified(conf) && Closed(conf) && FullMesh(conf)
      && (forall h :: h in conf ==> Clean(h) && !conf[h].readOnly)
      && Ready(conf, c, DAY) && Repairs(conf, c, d, A, DAY) && Clear(conf, c, d, DAY)
      && (forall md5 :: OneDay(c, DAY, md5))
      && !Agree(c, Drain(conf, d, actions).value, DAY)
  {
    hide *;
    var conf, c, d := Two(cfg), Before(cfg), Repaired(cfg);
    IsProper(cfg);
    IsReady(cfg);
    IsRepaired(cfg);
    IsClear(cfg);
    RepairConvergesIff(conf, c, d, A, DAY, actions);
    NotSent(cfg);
    Logged(cfg);
    assert B in c.members by { HasB(cfg); }
  }

  lemma HasB(cfg: Config)
    ensures B in Before(cfg).members
  {
  }
}
