/** Files that were fetched and recorded, while other files are fetched. */
module Publication {
  import opened Types
  import opened Transfer
  import Index
  import Protocol
  import Text

  /** Every recorded whole file is in place. */
  ghost predicate AllInPlace(cfg: Config, s: Node) {
    forall e :: Recorded(s, e) && e.offSet < 0 ==> InPlace(cfg, s, e)
  }

  /** Fetching the record i may put the file of e out of place: the temporary file of i is
      that file; or i goes to the same path, which is emptied first, or has a size that the
      file there does not have; or i is a small file whose blob is that file, and reaches
      beyond its end. */
  predicate Threatens(cfg: Config, s: Node, e: FileInfo, i: FileInfo) {
    && Attempts(cfg, s, i)
    && var path := e.DiskPath(cfg);
    if i.offSet >= 0 then
      || (!cfg.distinct && i.DiskPath(cfg) == path)
      || (Text.Split(i.DiskPath(cfg), ',')[0] == path && i.size > 0 && i.offSet + i.size > e.size)
    else
      || TmpPath(cfg, i) == path
      || (i.DiskPath(cfg) == path && (!cfg.distinct || i.offSet == MIGRATED || i.size >= 0))
  }

  /** A file named tmp__x is the temporary file of one in the same folder named x. */
  lemma TmpNamed(cfg: Config, e: FileInfo, i: FileInfo)
    requires e.path == i.path && e.OutName() == "tmp__" + i.OutName()
    ensures TmpPath(cfg, i) == e.DiskPath(cfg)
  {
    assert cfg.dockerDir + i.path + "/" + e.OutName() == cfg.dockerDir + (i.path + "/" + e.OutName());
  }

  lemma UnthreatenedStays(cfg: Config, s: Node, e: FileInfo, i: FileInfo, net: Net)
    requires InPlace(cfg, s, e) && !Threatens(cfg, s, e, i)
    ensures InPlace(cfg, Download(cfg, s, i, net), e)
  {
    hide FileInfo.DiskPath, TmpPath, Text.Split, Index.PutIndex, Offer;
    TmpIsOther(cfg, i);
    if Attempts(cfg, s, i) {
      if i.offSet >= 0 { UnthreatenedSmall(cfg, s, e, i, net); }
      else if i.offSet == MIGRATED { MigratedAllOrNothing(cfg, s, i, net); }
      else { WholeFileAllOrNothing(cfg, s, i, net); }
    }
  }

  lemma UnthreatenedSmall(cfg: Config, s: Node, e: FileInfo, i: FileInfo, net: Net)
    requires InPlace(cfg, s, e) && !Threatens(cfg, s, e, i) && Attempts(cfg, s, i) && i.offSet >= 0
    ensures InPlace(cfg, Download(cfg, s, i, net), e)
  {
    hide FileInfo.DiskPath, TmpPath, Text.Split, Index.PutIndex;
    TmpIsOther(cfg, i);
  }

  /** What meets the threat: the transfer fails, or brings the announced number of bytes. */
  lemma ThreatMeets(cfg: Config, s: Node, e: FileInfo, i: FileInfo, now: Stamp) returns (net: Net)
    requires InPlace(cfg, s, e) && Threatens(cfg, s, e, i)
    ensures var t := Download(cfg, s, i, net);
      !InPlace(cfg, t, e) && t.index == s.index && s.pending <= t.pending
  {
    hide FileInfo.DiskPath, TmpPath, Text.Split, Index.PutIndex;
    TmpIsOther(cfg, i);
    var path := e.DiskPath(cfg);
    net := Net(Text.None, false, now, []);
    if i.offSet >= 0 {
      if cfg.distinct || i.DiskPath(cfg) != path {
        net := Net(Text.Some(seq(i.size - 1, k => 0)), false, now, []);
      }
      SmallFileAllOrNothing(cfg, s, i, net);
    } else if i.offSet == MIGRATED {
      MigratedAllOrNothing(cfg, s, i, net);
    } else {
      if cfg.distinct && TmpPath(cfg, i) != path {
        net := Net(Text.Some(seq(i.size, k => 0)), false, now, []);
      }
      WholeFileAllOrNothing(cfg, s, i, net);
    }
  }

  /** A file in place stays so whatever a call meets if and only if the call does not threaten
      it. */
  lemma StaysIff(cfg: Config, s: Node, e: FileInfo, i: FileInfo)
    requires InPlace(cfg, s, e)
    ensures (forall net :: InPlace(cfg, Download(cfg, s, i, net), e)) <==> !Threatens(cfg, s, e, i)
  {
    hide InPlace, Threatens, Download;
    if Threatens(cfg, s, e, i) {
      var net := ThreatMeets(cfg, s, e, i, Stamp(0, 0));
      assert !InPlace(cfg, Download(cfg, s, i, net), e);
    } else {
      forall net ensures InPlace(cfg, Download(cfg, s, i, net), e) { UnthreatenedStays(cfg, s, e, i, net); }
    }
  }

  /** So a published file named tmp__x can be lost by a fetch of the file x beside it. */
  lemma TmpIsLost(cfg: Config, s: Node, e: FileInfo, i: FileInfo) returns (net: Net)
    requires e.path == i.path && e.OutName() == "tmp__" + i.OutName() && i.offSet < 0
    requires InPlace(cfg, s, e) && Attempts(cfg, s, i)
    ensures net.body.None? && e.DiskPath(cfg) !in Download(cfg, s, i, net).disk
  {
    hide FileInfo.DiskPath, TmpPath, Text.Split, Index.PutIndex, FileInfo.OutName;
    TmpNamed(cfg, e, i);
    TmpIsOther(cfg, i);
    net := Net(Text.None, false, Stamp(0, 0), []);
    if i.offSet == MIGRATED { MigratedAllOrNothing(cfg, s, i, net); } else { WholeFileAllOrNothing(cfg, s, i, net); }
  }

  // ---- Any sequence of fetches ---------------------------------------------

  /** No call, whatever the earlier ones met, threatens a recorded file, or may record one
      with a size that is not its own. */
  ghost predicate Safe(cfg: Config, s: Node, infos: seq<FileInfo>)
    decreases |infos|
  {
    infos != [] ==>
      && !Misrecords(cfg, s, infos[0])
      && (forall e :: Recorded(s, e) && e.offSet < 0 ==> !Threatens(cfg, s, e, infos[0]))
      && forall net :: Safe(cfg, Download(cfg, s, infos[0], net), infos[1..])
  }

  /** Recorded files are in place throughout, whatever the calls meet. */
  ghost predicate Stay(cfg: Config, s: Node, infos: seq<FileInfo>)
    decreases |infos|
  {
    && AllInPlace(cfg, s)
    && (infos != [] ==> forall net :: Stay(cfg, Download(cfg, s, infos[0], net), infos[1..]))
  }

  lemma CallKeeps(cfg: Config, s: Node, i: FileInfo, net: Net)
    requires AllInPlace(cfg, s) && !Misrecords(cfg, s, i)
    requires forall e :: Recorded(s, e) && e.offSet < 0 ==> !Threatens(cfg, s, e, i)
    ensures AllInPlace(cfg, Download(cfg, s, i, net))
  {
    hide Threatens, Download, Recorded, Misrecords;
    var t := Download(cfg, s, i, net);
    forall e | Recorded(t, e) && e.offSet < 0 ensures InPlace(cfg, t, e) {
      if Recorded(s, e) { UnthreatenedStays(cfg, s, e, i, net); } else { RecordedOnlyInPlace(cfg, s, i, net, e); }
    }
  }

  /** What brings a false record about: every peer takes the offer. */
  lemma MisrecordMeets(cfg: Config, s: Node, i: FileInfo) returns (net: Net, e: FileInfo)
    requires Misrecords(cfg, s, i)
    ensures var t := Download(cfg, s, i, net);
      Recorded(t, e) && e.offSet < 0 && !InPlace(cfg, t, e)
  {
    hide FileInfo.DiskPath, Protocol.Posting, OfferPath, TmpPath;
    net := Net(Text.None, false, Stamp(0, 0), seq(|cfg.peers|, k => Protocol.Accepted));
    var tried, local := Tried(i), Local(cfg, s.disk, i);
    var newer, answers, n := Newer(cfg, s, tried), Answers(cfg, net), |cfg.peers|;
    TmpIsOther(cfg, i);
    SamePath(cfg, i, newer);
    var t, p := Download(cfg, s, i, net), Protocol.Posting(cfg, Base(s), newer, local, answers, n);
    assert t == With(s, p.node);
    var q :| q in cfg.peers && q !in i.peers;
    var k :| 0 <= k < n && cfg.peers[k] == q;
    Protocol.PostingNames(cfg, Base(s), newer, local, answers, n, q);
    assert Protocol.Answers(answers[k]);
    assert q in p.info.peers && p.info.peers != newer.peers;
    Protocol.PostingIndexed(cfg, Base(s), newer, local, answers, n);
    e := p.node.index.ldb[newer.md5];
    SamePath(cfg, i, e);
  }

  lemma StillRecorded(s: Node, t: Node, e: FileInfo)
    requires Recorded(s, e) && t.index == s.index && s.pending <= t.pending
    ensures Recorded(t, e)
  {
  }

  /** Over any sequence of fetches, every recorded whole file stays in place, whatever the
      transfers meet, if and only if no call ever threatens a recorded file, or may record a
      newer file of its own with an announced size that is not that file's. */
  lemma {:induction false} RecordedStayIff(cfg: Config, s: Node, infos: seq<FileInfo>)
    requires AllInPlace(cfg, s)
    ensures Stay(cfg, s, infos) <==> Safe(cfg, s, infos)
    decreases |infos|
  {
    hide Threatens, Download, Recorded, InPlace, Misrecords;
    if infos != [] {
      if e :| Recorded(s, e) && e.offSet < 0 && Threatens(cfg, s, e, infos[0]) {
        var net := ThreatMeets(cfg, s, e, infos[0], Stamp(0, 0));
        StillRecorded(s, Download(cfg, s, infos[0], net), e);
        assert !Stay(cfg, Download(cfg, s, infos[0], net), infos[1..]);
      } else if Misrecords(cfg, s, infos[0]) {
        var net, e := MisrecordMeets(cfg, s, infos[0]);
        assert !Stay(cfg, Download(cfg, s, infos[0], net), infos[1..]);
      } else {
        forall net ensures Stay(cfg, Download(cfg, s, infos[0], net), infos[1..])
                           == Safe(cfg, Download(cfg, s, infos[0], net), infos[1..])
        {
          CallKeeps(cfg, s, infos[0], net);
          RecordedStayIff(cfg, Download(cfg, s, infos[0], net), infos[1..]);
        }
      }
    }
  }
}
