/** Three nodes on which a fetched copy is not passed on. */
module FetchedCopies {
  import opened Types
  import opened Index
  import opened Text
  import opened Protocol
  import opened Cluster
  import opened Obligation
  import Transfer

  const A := "a"
  const B := "b"
  const C := "c"

  function Named(cfg: Config, h: string, peers: seq<string>): Config {
    cfg.(host := h, peers := peers, distinct := true, readOnly := false)
  }

  /** A full mesh of three nodes, whatever else is configured. */
  function Three(cfg: Config): Conf {
    map[A := Named(cfg, A, [B, C]), B := Named(cfg, B, [A, C]), C := Named(cfg, C, [A, B])]
  }

  const FILE := FileInfo("f", "", "files/p", OfContent([0]), 1, [A], Stamp(0, 0), WHOLE, 0)

  const FETCHED := FILE.(retry := 1)

  /** The body arrives. */
  const NET := Transfer.Net(Some([0]), false, Stamp(0, 0), [])

  /** A uploads a file; B takes it, fetches it, and writes its two log entries. */
  function Fetching(): seq<Action> {
    [Upload(A, FILE), Exchange(A, 0, Accepted), Fetch(B, NET), WriteLog(B), WriteLog(B)]
  }

  /** And then A's copy is removed while the call for C is still under way. */
  function Removing(): seq<Action> {
    Fetching() + [Remove(A, FILE.md5, false), Exchange(A, 0, Refused), End(A, 0)]
  }

  lemma Names()
    ensures A != B && B != C && A != C
  {
  }

  lemma IsMesh(cfg: Config)
    ensures Proper(Three(cfg)) && FullMesh(Three(cfg))
  {
    Names();
  }

  lemma Askable(cfg: Config)
    ensures Transfer.PeerOf(Named(cfg, B, [A, C]), [A]) == Some(A)
  {
    Names();
    forall i | 0 <= i <= |A| ensures !Transfer.HasAt(A, "127.0.0.1", i) {
      assert |A[i..]| <= 1;
    }
  }

  /** The copy that an upload stores, and a disk that holds it, and nothing else. */
  function Thing(cfg: Config): Copy { Copy(FILE.md5, FILE.DiskPath(cfg), WHOLE) }

  function Disk(cfg: Config): map<string, Transfer.OnDisk> {
    map[FILE.DiskPath(cfg) := Transfer.OnDisk([0], Stamp(0, 0))]
  }

  lemma ThingHeld(cfg: Config, h: string, peers: seq<string>, e: FileInfo)
    requires e == FILE || e == FETCHED || e == POSTED
    ensures e.DiskPath(Named(cfg, h, peers)) == FILE.DiskPath(cfg)
    ensures CopyOf(Named(cfg, h, peers), e) == Thing(cfg) && Holds(Disk(cfg), Thing(cfg)) && !Holds(map[], Thing(cfg))
    ensures Transfer.Local(Named(cfg, h, peers), Disk(cfg), e) == Some(1)
    ensures Transfer.Local(Named(cfg, h, peers), map[], e) == None
  {
  }

  /** The member as it is when a file has been uploaded there. */
  function Uploader(cfg: Config, today: nat): Member {
    Member(Node(SaveLog(Index.Initial(today), FILE, Files), [], [], []), [Pass(FILE, 0)], Disk(cfg))
  }

  function Empty(today: nat): Member { Member(Node(Index.Initial(today), [], [], []), [], map[]) }

  lemma OneStep(conf: Conf, today: nat, actions: seq<Action>, k: nat, c: World)
    requires k < |actions| && Cluster.Run(conf, today, actions[..k]) == Some(c) && Enabled(conf, c, actions[k])
    ensures Cluster.Run(conf, today, actions[..k + 1]) == Some(Next(conf, c, actions[k]))
  {
    hide Enabled, Next;
    assert actions[..k + 1][..k] == actions[..k];
  }

  function Members(a: Member, b: Member, c: Member): map<string, Member> { map[A := a, B := b, C := c] }

  lemma Replaced(a: Member, b: Member, c: Member, x: Member)
    ensures Members(a, b, c)[A] == a && Members(a, b, c)[B] == b && Members(a, b, c)[C] == c
    ensures Members(a, b, c)[A := x] == Members(x, b, c) && Members(a, b, c)[B := x] == Members(a, x, c)
  {
    Names();
  }

  function Uploading(cfg: Config, today: nat): World {
    World(Members(Uploader(cfg, today), Empty(today), Empty(today)), {(A, FILE.md5)}, {(A, FILE.md5)}, Owing(cfg))
  }

  function Owing(cfg: Config): set<(string, Copy)> { {(A, Thing(cfg))} }

  /** One action leads from the one state to the other. */
  predicate Leads(conf: Conf, c: World, a: Action, d: World) { Enabled(conf, c, a) && Next(conf, c, a) == d }

  lemma UploadLeads(cfg: Config, today: nat)
    ensures Leads(Three(cfg), Fresh(Three(cfg), today), Upload(A, FILE), Uploading(cfg, today))
  {
    hide SaveLog, CopyOf, FileInfo.DiskPath, Transfer.OfferPath;
    var conf, f := Three(cfg), Fresh(Three(cfg), today);
    assert f.members == Members(Empty(today), Empty(today), Empty(today)) by { Names(); }
    Replaced(Empty(today), Empty(today), Empty(today), Uploader(cfg, today));
    ThingHeld(cfg, A, [B, C], FILE);
    assert !Duplicate(conf[A], f.members[A].node, FILE.md5);
    assert Storing(conf[A], map[], FILE) == Disk(cfg) by { FileStored(cfg); }
    assert Next(conf, f, Upload(A, FILE)) == Uploaded(conf[A], f, A, FILE);
    assert {} + {(A, FILE.md5)} == {(A, FILE.md5)};
    assert StillOwed(f.owed, A, Disk(cfg)) + {(A, Thing(cfg))} == {(A, Thing(cfg))};
    assert f.members[A].flight + [Pass(FILE, 0)] == [Pass(FILE, 0)];
  }

  lemma FileStored(cfg: Config)
    ensures Stores(Named(cfg, A, [B, C]), map[], FILE) && Storing(Named(cfg, A, [B, C]), map[], FILE) == Disk(cfg)
  {
  }

  /** A's record and its call, once B has taken the offer. */
  const POSTED := FILE.(peers := [A, B])

  function Poster(cfg: Config, today: nat): Member {
    var u := Uploader(cfg, today);
    Member(u.node.(index := PutIndex(u.node.index, FILE.md5, POSTED)), [Pass(POSTED, 1)], u.disk)
  }

  function Taker(today: nat): Member {
    Member(Node(Index.Initial(today), [LogEntry(FILE, Queue)], [], [FILE]), [], map[])
  }

  /** B has taken the file; A and B are as given, and C knows nothing of it. */
  function Both(a: Member, b: Member, today: nat, owed: set<(string, Copy)>): World {
    World(Members(a, b, Empty(today)), {(A, FILE.md5), (B, FILE.md5)}, {(A, FILE.md5)}, owed)
  }

  lemma OfferLeads(cfg: Config, today: nat)
    ensures Leads(Three(cfg), Uploading(cfg, today), Exchange(A, 0, Accepted),
        Both(Poster(cfg, today), Taker(today), today, Owing(cfg)))
  {
    hide SaveLog, PutIndex, CopyOf, Fresh, Disk, Transfer.Local;
    Names();
    var conf, c := Three(cfg), Uploading(cfg, today);
    Replaced(Uploader(cfg, today), Empty(today), Empty(today), Poster(cfg, today));
    Replaced(Poster(cfg, today), Empty(today), Empty(today), Taker(today));
    ThingHeld(cfg, A, [B, C], FILE);
    assert conf[A].peers[0] == B;
    assert WithPeer(FILE, B) == POSTED;
    assert c.accepted + {(B, FILE.md5)} == {(A, FILE.md5), (B, FILE.md5)};
    assert Stored(FILE) == FILE;
    assert [Pass(FILE, 0)][0 := Pass(POSTED, 1)] == [Pass(POSTED, 1)];
    var u := Uploader(cfg, today);
    assert Turn(conf[A], u.node, FILE, B, Some(1), Accepted) == Posted(Poster(cfg, today).node, POSTED);
    assert Taken(Empty(today).node, FILE) == Taker(today).node;
    var d := With(c, A, Poster(cfg, today));
    assert d.members == Members(Poster(cfg, today), Empty(today), Empty(today));
    assert Delivered(d, B, FILE) == Both(Poster(cfg, today), Taker(today), today, Owing(cfg));
    assert Enabled(conf, c, Exchange(A, 0, Accepted));
    assert Exchanged(conf[A], c, A, 0, Accepted) == Delivered(d, B, FILE);
  }

  function Fetcher(cfg: Config, today: nat): Member {
    Member(Node(Index.Initial(today), [LogEntry(FILE, Queue), LogEntry(FETCHED, Files)], [], []), [], Disk(cfg))
  }

  lemma FetchLeads(cfg: Config, today: nat)
    ensures Leads(Three(cfg), Both(Poster(cfg, today), Taker(today), today, Owing(cfg)), Fetch(B, NET),
                  Both(Poster(cfg, today), Fetcher(cfg, today), today, Owing(cfg)))
  {
    hide SaveLog, PutIndex, CopyOf, Transfer.PeerOf, Poster, Fresh, Received, Holds;
    Names();
    Replaced(Poster(cfg, today), Taker(today), Empty(today), Fetcher(cfg, today));
    var conf, c := Three(cfg), Both(Poster(cfg, today), Taker(today), today, Owing(cfg));
    assert Received(conf[B], Taker(today), NET) == Fetcher(cfg, today) by { TakerFetches(cfg, today); }
    assert StillOwed(c.owed, B, Disk(cfg)) == c.owed;
  }

  lemma TakerFetches(cfg: Config, today: nat)
    ensures Received(Named(cfg, B, [A, C]), Taker(today), NET) == Fetcher(cfg, today)
  {
    hide CopyOf, Transfer.PeerOf, FileInfo.DiskPath, Transfer.TmpPath;
    Askable(cfg);
    var m, conf := Taker(today), Named(cfg, B, [A, C]);
    ThingHeld(cfg, B, [A, C], FETCHED);
    Transfer.TmpIsOther(conf, FETCHED);
    assert m.node.fromPeers[0] == FILE && m.node.fromPeers[1..] == [];
    assert Transfer.Tried(FILE) == FETCHED;
    assert m.node.pending + [LogEntry(FETCHED, Files)] == [LogEntry(FILE, Queue), LogEntry(FETCHED, Files)];
    var written := Transfer.OnDisk([0], Stamp(0, 0));
    assert (map[Transfer.TmpPath(conf, FETCHED) := written] - {Transfer.TmpPath(conf, FETCHED)})
        [FETCHED.DiskPath(conf) := written] == Disk(cfg);
  }

  function Noter(cfg: Config, today: nat): Member {
    Member(Node(SaveLog(Index.Initial(today), FILE, Queue), [LogEntry(FETCHED, Files)], [], []), [], Disk(cfg))
  }

  /** B, when it has fetched and logged the file. */
  function Holder(cfg: Config, today: nat): Member {
    Member(Node(SaveLog(SaveLog(Index.Initial(today), FILE, Queue), FETCHED, Files), [], [], []), [], Disk(cfg))
  }

  lemma LogsLead(cfg: Config, today: nat, a: Member, owed: set<(string, Copy)>)
    ensures Leads(Three(cfg), Both(a, Fetcher(cfg, today), today, owed), WriteLog(B),
                  Both(a, Noter(cfg, today), today, owed))
    ensures Leads(Three(cfg), Both(a, Noter(cfg, today), today, owed), WriteLog(B),
                  Both(a, Holder(cfg, today), today, owed))
  {
    hide SaveLog, CopyOf, Fresh, Disk;
    Names();
    Replaced(a, Fetcher(cfg, today), Empty(today), Noter(cfg, today));
    Replaced(a, Noter(cfg, today), Empty(today), Holder(cfg, today));
    assert Consumed(Fetcher(cfg, today).node) == Noter(cfg, today).node;
    assert Consumed(Noter(cfg, today).node) == Holder(cfg, today).node;
  }

  /** A, when its copy is removed, and when its call is over. */
  function Remover(cfg: Config, today: nat): Member {
    var p := Poster(cfg, today);
    Member(p.node.(pending := [LogEntry(POSTED, Removes)]), [Pass(POSTED, 1)], map[])
  }

  function Idler(cfg: Config, today: nat, flight: seq<Pass>): Member { Remover(cfg, today).(flight := flight) }

  lemma PosterHas(cfg: Config, today: nat)
    ensures var m := Poster(cfg, today);
      && FILE.md5 in m.node.index.ldb && m.node.index.ldb[FILE.md5] == POSTED && POSTED.offSet < 0
      && m == Member(m.node, [Pass(POSTED, 1)], Disk(cfg)) && m.node.pending == []
  {
    hide SaveLog;
  }

  lemma RemoveLeads(cfg: Config, today: nat)
    ensures Leads(Three(cfg), Both(Poster(cfg, today), Holder(cfg, today), today, Owing(cfg)),
                  Remove(A, FILE.md5, false), Both(Remover(cfg, today), Holder(cfg, today), today, {}))
  {
    hide SaveLog, Fresh, Holder, Poster, CopyOf, Empty, FileInfo.DiskPath, Holds;
    Names();
    Replaced(Poster(cfg, today), Holder(cfg, today), Empty(today), Remover(cfg, today));
    PosterHas(cfg, today);
    ThingHeld(cfg, A, [B, C], POSTED);
    var m := Poster(cfg, today);
    assert m.disk - {FILE.DiskPath(cfg)} == map[];
    assert m.node.pending + [LogEntry(POSTED, Removes)] == [LogEntry(POSTED, Removes)];
    assert StillOwed(Owing(cfg), A, map[]) == {};
  }

  lemma IdleLeads(cfg: Config, today: nat)
    ensures Leads(Three(cfg), Both(Remover(cfg, today), Holder(cfg, today), today, {}), Exchange(A, 0, Refused),
                  Both(Idler(cfg, today, [Pass(POSTED, 2)]), Holder(cfg, today), today, {}))
    ensures Leads(Three(cfg), Both(Idler(cfg, today, [Pass(POSTED, 2)]), Holder(cfg, today), today, {}), End(A, 0),
                  Both(Idler(cfg, today, []), Holder(cfg, today), today, {}))
  {
    hide SaveLog, PutIndex, Fresh, Holder, CopyOf, Transfer.Local, Disk;
    Names();
    Replaced(Remover(cfg, today), Holder(cfg, today), Empty(today), Idler(cfg, today, [Pass(POSTED, 2)]));
    Replaced(Idler(cfg, today, [Pass(POSTED, 2)]), Holder(cfg, today), Empty(today), Idler(cfg, today, []));
    ThingHeld(cfg, A, [B, C], POSTED);
    assert [Pass(POSTED, 1)][0 := Pass(POSTED, 2)] == [Pass(POSTED, 2)];
    assert Without([Pass(POSTED, 2)], 0) == [];
    assert Three(cfg)[A].peers[1] == C;
  }

  // ---- The two runs --------------------------------------------------------

  lemma Reaches(conf: Conf, today: nat, actions: seq<Action>, k: nat, c: World, d: World)
    requires k < |actions| && Cluster.Run(conf, today, actions[..k]) == Some(c) && Leads(conf, c, actions[k], d)
    ensures Cluster.Run(conf, today, actions[..k + 1]) == Some(d)
  {
    OneStep(conf, today, actions, k, c);
  }

  lemma Acts()
    ensures |Fetching()| == 5 && |Removing()| == 8 && Removing()[..5] == Fetching() && Removing()[..8] == Removing()
    ensures Removing()[0] == Upload(A, FILE) && Removing()[1] == Exchange(A, 0, Accepted)
    ensures Removing()[2] == Fetch(B, NET) && Removing()[3] == WriteLog(B) && Removing()[4] == WriteLog(B)
    ensures Removing()[5] == Remove(A, FILE.md5, false) && Removing()[6] == Exchange(A, 0, Refused)
    ensures Removing()[7] == End(A, 0)
  {
  }

  lemma RunsLead(cfg: Config, today: nat)
    ensures Cluster.Run(Three(cfg), today, Fetching()) ==
        Some(Both(Poster(cfg, today), Holder(cfg, today), today, Owing(cfg)))
    ensures Cluster.Run(Three(cfg), today, Removing()) ==
        Some(Both(Idler(cfg, today, []), Holder(cfg, today), today, {}))
  {
    hide *;
    var conf, s := Three(cfg), Removing();
    Acts();
    Begins(conf, today);
    UploadLeads(cfg, today);
    Reaches(conf, today, s, 0, Fresh(conf, today), Uploading(cfg, today));
    OfferLeads(cfg, today);
    Reaches(conf, today, s, 1, Uploading(cfg, today), Both(Poster(cfg, today), Taker(today), today, Owing(cfg)));
    FetchLeads(cfg, today);
    Reaches(conf, today, s, 2, Both(Poster(cfg, today), Taker(today), today, Owing(cfg)),
        Both(Poster(cfg, today), Fetcher(cfg, today), today, Owing(cfg)));
    LogsLead(cfg, today, Poster(cfg, today), Owing(cfg));
    Reaches(conf, today, s, 3, Both(Poster(cfg, today), Fetcher(cfg, today), today, Owing(cfg)),
        Both(Poster(cfg, today), Noter(cfg, today), today, Owing(cfg)));
    Reaches(conf, today, s, 4, Both(Poster(cfg, today), Noter(cfg, today), today, Owing(cfg)),
        Both(Poster(cfg, today), Holder(cfg, today), today, Owing(cfg)));
    RemoveLeads(cfg, today);
    Reaches(conf, today, s, 5, Both(Poster(cfg, today), Holder(cfg, today), today, Owing(cfg)),
        Both(Remover(cfg, today), Holder(cfg, today), today, {}));
    IdleLeads(cfg, today);
    Reaches(conf, today, s, 6, Both(Remover(cfg, today), Holder(cfg, today), today, {}),
        Both(Idler(cfg, today, [Pass(POSTED, 2)]), Holder(cfg, today), today, {}));
    Reaches(conf, today, s, 7, Both(Idler(cfg, today, [Pass(POSTED, 2)]), Holder(cfg, today), today, {}),
        Both(Idler(cfg, today, []), Holder(cfg, today), today, {}));
  }

  lemma Begins(conf: Conf, today: nat)
    ensures Cluster.Run(conf, today, Removing()[..0]) == Some(Fresh(conf, today))
  {
    assert Removing()[..0] == [];
  }

  lemma HolderServes(base: Config, cfg: Config, taken: Taking, today: nat, k: nat)
    requires k < |cfg.peers|
    ensures FILE.md5 in Holder(base, today).node.index.ldb && Holds(Holder(base, today).disk, Thing(base))
    ensures Served(cfg, taken, Holder(base, today), Thing(base), k) <==> (cfg.peers[k], FILE.md5) in taken
  {
    hide FileInfo.FullPath;
    ThingHeld(base, B, [A, C], FILE);
  }

  lemma IdlerServes(base: Config, cfg: Config, taken: Taking, today: nat, k: nat)
    requires k < |cfg.peers|
    ensures Served(cfg, taken, Idler(base, today, []), Thing(base), k) <==> (cfg.peers[k], FILE.md5) in taken
  {
    hide FileInfo.FullPath;
  }

  /** Five actions after which a node has a file on disk and in its index, and yet does
      nothing for a peer that has not taken it: what it fetched it does not pass on. The
      uploader does. */
  lemma FetchedIsNotPassedOn(cfg: Config, today: nat)
    ensures Proper(Three(cfg)) && FullMesh(Three(cfg)) && Cluster.Run(Three(cfg), today, Fetching()).Some?
    ensures
      var c := Cluster.Run(Three(cfg), today, Fetching()).value;
      && B in c.members && Holds(c.members[B].disk, Thing(cfg)) && FILE.md5 in c.members[B].node.index.ldb
      && Three(cfg)[B].peers[1] == C && !Served(Three(cfg)[B], c.accepted, c.members[B], Thing(cfg), 1)
      && (A, Thing(cfg)) in c.owed
  {
    hide Poster, Holder, Served, Holds, Cluster.Run, CopyOf, Fetching, Thing;
    RunsLead(cfg, today);
    IsMesh(cfg);
    Names();
    Replaced(Poster(cfg, today), Holder(cfg, today), Empty(today), Poster(cfg, today));
    var c := Both(Poster(cfg, today), Holder(cfg, today), today, Owing(cfg));
    HolderServes(cfg, Three(cfg)[B], c.accepted, today, 1);
  }

  /** And three more after which the uploader has removed its copy, and nobody does anything
      for that peer, although a node still has the file on disk and in its index. */
  lemma RemovedIsNotPassedOn(cfg: Config, today: nat)
    ensures Proper(Three(cfg)) && FullMesh(Three(cfg)) && Cluster.Run(Three(cfg), today, Removing()).Some?
    ensures
      var c := Cluster.Run(Three(cfg), today, Removing()).value;
      && A in c.members && B in c.members && (C, FILE.md5) !in c.accepted
      && Holds(c.members[B].disk, Thing(cfg)) && FILE.md5 in c.members[B].node.index.ldb
      && Three(cfg)[B].peers[1] == C && !Served(Three(cfg)[B], c.accepted, c.members[B], Thing(cfg), 1)
      && Three(cfg)[A].peers[1] == C && !Served(Three(cfg)[A], c.accepted, c.members[A], Thing(cfg), 1)
  {
    hide Idler, Holder, Served, Holds, Cluster.Run, CopyOf, Removing, Thing;
    RunsLead(cfg, today);
    IsMesh(cfg);
    Names();
    Replaced(Idler(cfg, today, []), Holder(cfg, today), Empty(today), Holder(cfg, today));
    var c := Both(Idler(cfg, today, []), Holder(cfg, today), today, {});
    HolderServes(cfg, Three(cfg)[B], c.accepted, today, 1);
    IdlerServes(cfg, Three(cfg)[A], c.accepted, today, 1);
  }
}
