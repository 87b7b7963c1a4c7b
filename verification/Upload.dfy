/** Uploads that keep one copy of each content, and removals. Merging of small files is off,
    and queued log entries are written before the next request. */
module Upload {
  import opened Types
  import opened Totals
  import opened Index
  import FreshName
  import DownloadUrl
  import Text

  /** Files by path on disk, and the index. */
  datatype Node = Node(disk: map<string, Bytes>, index: State)

  datatype Fault = NoFault | CreateFails | CopyStops(copied: nat)

  /** One upload: the name without directories, the name the caller asks for or "", the
      folder below the store's parent, the content, the checksum the caller claims, the time,
      the directories that exist, and where the writing of the file stops. */
  datatype Request = Request(
    name: string, reName: string, path: string, content: Bytes, claimed: Sum, stamp: Stamp,
    dirs: set<string>, fault: Fault)

  datatype Reply = Refused | Accepted(info: FileInfo)

  function Folder(cfg: Config, req: Request): string { cfg.dockerDir + req.path }

  function Chosen(cfg: Config, disk: map<string, Bytes>, req: Request): FreshName.Choice {
    FreshName.Choose(Folder(cfg, req), req.name, req.reName, disk.Keys + req.dirs, cfg.distinct)
  }

  function NewInfo(cfg: Config, req: Request, name: string): FileInfo {
    FileInfo(name, req.reName, Text.ReplaceFirst(Folder(cfg, req), cfg.dockerDir, ""),
             OfContent(req.content), |req.content|, [cfg.host], req.stamp, WHOLE, 0)
  }

  /** What SaveUploadFile leaves on disk. */
  function Written(cfg: Config, disk: map<string, Bytes>, req: Request): map<string, Bytes> {
    match req.fault
    case CreateFails => disk
    case CopyStops(n) => disk[Chosen(cfg, disk, req).outPath := Copied(req.content, n)]
    case NoFault => disk[Chosen(cfg, disk, req).outPath := req.content]
  }

  function UploadStep(cfg: Config, s: Node, req: Request): (Node, Reply) {
    var disk := Written(cfg, s.disk, req);
    if !req.fault.NoFault? then (s.(disk := disk), Refused) else
    var info := NewInfo(cfg, req, Chosen(cfg, s.disk, req).name);
    if cfg.distinct && info.md5 in s.index.ldb && !s.index.ldb[info.md5].md5.Unset? then
      var v := s.index.ldb[info.md5];
      (s.(disk := if info.DiskPath(cfg) != v.DiskPath(cfg) then disk - {info.DiskPath(cfg)} else disk), Accepted(v))
    else if !req.claimed.Unset? && info.md5 != req.claimed then (s.(disk := disk), Refused)
    else (Node(disk, SaveLog(s.index, info, Files)), if info.size <= 0 then Refused else Accepted(info))
  }

  /** RemoveFile with its log entry written, for a checksum of a content or of a path. */
  function RemoveStep(cfg: Config, s: Node, key: Sum, removeFails: bool): (Node, bool) {
    if key !in s.index.ldb then (s, false) else
    var info := s.index.ldb[key];
    if info.offSet >= 0 || info.path == "" || info.DiskPath(cfg) !in s.disk then (s, false)
    else (Node(if removeFails then s.disk else s.disk - {info.DiskPath(cfg)}, SaveLog(s.index, info, Removes)),
        !removeFails)
  }

  class Server {
    var disk: map<string, Bytes>
    const db: Database

    constructor (today: nat)
      ensures fresh(db) && Value() == Node(map[], Initial(today))
    {
      disk := map[];
      db := new Database(today);
    }

    function Value(): Node
      reads this, db
    {
      Node(disk, db.Value())
    }

    method SaveUploadFile(cfg: Config, req: Request, f: FileInfoRef) returns (ok: bool)
      requires f.info.reName == req.reName && f.info.offSet == WHOLE && f.info.peers == []
               && f.info.timeStamp == req.stamp && f.info.retry == 0
      modifies this`disk, f
      ensures ok <==> req.fault.NoFault?
      ensures disk == Written(cfg, old(disk), req)
      ensures ok ==> f.info == NewInfo(cfg, req, Chosen(cfg, old(disk), req).name)
    {
      hide FreshName.Choose;
      var folder := Folder(cfg, req);
      var outPath, name := FreshName.ChooseName(folder, req.name, req.reName, disk.Keys + req.dirs, cfg.distinct);
      f.info := f.info.(name := name);
      if req.fault.CreateFails? { return false; }
      var copied := if req.fault.CopyStops? then Copied(req.content, req.fault.copied) else req.content;
      disk := disk[outPath := copied];
      f.info := f.info.(size := |copied|);
      if req.fault.CopyStops? { return false; }
      f.info := f.info.(md5 := OfContent(disk[outPath]));
      f.info := f.info.(path := Text.ReplaceFirst(folder, cfg.dockerDir, ""));
      f.info := f.info.(peers := f.info.peers + [cfg.host]);
      return true;
    }

    method Upload(cfg: Config, req: Request) returns (reply: Reply)
      modifies this`disk, db
      ensures (Value(), reply) == UploadStep(cfg, old(Value()), req)
    {
      hide FreshName.Choose, FileInfo.DiskPath, Written, SaveLog;
      var f := new FileInfoRef(FileInfo("", req.reName, "", req.claimed, 0, [], req.stamp, WHOLE, 0));
      var ok := SaveUploadFile(cfg, req, f);
      if !ok { return Refused; }
      if cfg.distinct && f.info.md5 in db.ldb && !db.ldb[f.info.md5].md5.Unset? {
        var v := db.ldb[f.info.md5];
        if f.info.DiskPath(cfg) != v.DiskPath(cfg) {
          disk := disk - {f.info.DiskPath(cfg)};
        }
        return Accepted(v);
      }
      if !req.claimed.Unset? && f.info.md5 != req.claimed { return Refused; }
      db.SaveFileMd5Log(f.info, Files);
      if f.info.size <= 0 { return Refused; }
      return Accepted(f.info);
    }

    method RemoveFile(cfg: Config, key: Sum, removeFails: bool) returns (ok: bool)
      modifies this`disk, db
      ensures (Value(), ok) == RemoveStep(cfg, old(Value()), key, removeFails)
    {
      hide FileInfo.DiskPath, SaveLog;
      if key !in db.ldb { return false; }
      var info := db.ldb[key];
      if info.offSet >= 0 { return false; }
      if info.path != "" && info.DiskPath(cfg) in disk {
        db.SaveFileMd5Log(info, Removes);
        if removeFails { return false; }
        disk := disk - {info.DiskPath(cfg)};
        return true;
      }
      return false;
    }
  }

  // ---- The invariant of a store without duplicates -------------------------

  /** The record of a content names a file that holds it, and is the record of that path. */
  predicate Holds(cfg: Config, s: Node, m: Sum)
    requires m in s.index.ldb
  {
    var info := s.index.ldb[m];
    && info.md5 == m
    && info.DiskPath(cfg) in s.disk && OfContent(s.disk[info.DiskPath(cfg)]) == m
    && OfPath(info.FullPath()) in s.index.ldb && s.index.ldb[OfPath(info.FullPath())] == info
  }

  /** The record of a path is that of the content stored there. */
  predicate Names(s: Node, p: Sum)
    requires p in s.index.ldb && p.OfPath?
  {
    var info := s.index.ldb[p];
    && info.FullPath() == p.path
    && info.md5.OfContent? && info.md5 in s.index.ldb && s.index.ldb[info.md5] == info
  }

  ghost predicate Inv(cfg: Config, s: Node) {
    && (forall m :: m in s.index.ldb && m.OfContent? ==> Holds(cfg, s, m))
    && (forall p :: p in s.index.ldb && p.OfPath? ==> Names(s, p))
  }

  /** The name is not empty, the folder is not overfull, and a name chosen by the caller is
      not taken. */
  predicate Fresh(cfg: Config, s: Node, req: Request) {
    var used := s.disk.Keys + req.dirs;
    && cfg.distinct
    && req.name != "" && '/' !in req.name
    && (req.reName == "" ==> |FreshName.Entries(Folder(cfg, req), used)| <= FreshName.TRIES)
    && (req.reName != "" ==> FreshName.In(Folder(cfg, req), req.reName) !in used)
  }

  /** A fresh upload is written to an unused path, which its record names. */
  lemma WrittenAside(cfg: Config, s: Node, req: Request)
    requires Fresh(cfg, s, req)
    ensures var c := Chosen(cfg, s.disk, req);
      c.outPath !in s.disk && NewInfo(cfg, req, c.name).DiskPath(cfg) == c.outPath
  {
    hide FreshName.Choose, FreshName.Entries;
    var c := Chosen(cfg, s.disk, req);
    var folder := Folder(cfg, req);
    if req.reName == "" {
      FreshName.FreshPath(folder, req.name, s.disk.Keys + req.dirs);
      NamesNotEmpty(folder, req.name, s.disk.Keys + req.dirs);
    } else {
      FreshCallersName(folder, req.name, req.reName, s.disk.Keys + req.dirs);
    }
    PathRestored(cfg, req);
    var info := NewInfo(cfg, req, c.name);
    assert cfg.dockerDir + (req.path + "/" + info.OutName()) == folder + "/" + info.OutName();
  }

  lemma NamesNotEmpty(folder: string, name: string, used: set<string>)
    requires name != "" && |FreshName.Entries(folder, used)| <= FreshName.TRIES && '/' !in name
    ensures FreshName.Choose(folder, name, "", used, true).name != ""
  {
    FreshName.FreshPath(folder, name, used);
    var k :| 0 <= k <= FreshName.TRIES
             && FreshName.Choose(folder, name, "", used, true).name == FreshName.Tried(name, k);
    if k > 0 { FreshName.CandidatesGrow(name, 0, k); }
  }

  lemma FreshCallersName(folder: string, name: string, reName: string, used: set<string>)
    requires reName != "" && FreshName.In(folder, reName) !in used
    ensures FreshName.Choose(folder, name, reName, used, true) == FreshName.Choice(FreshName.In(folder, reName), name)
  {
  }

  lemma PathRestored(cfg: Config, req: Request)
    ensures Text.ReplaceFirst(Folder(cfg, req), cfg.dockerDir, "") == req.path
  {
    assert cfg.dockerDir <= Folder(cfg, req);
    assert Folder(cfg, req)[|cfg.dockerDir|..] == req.path;
  }

  lemma PathOnDisk(cfg: Config, a: FileInfo, b: FileInfo)
    ensures a.DiskPath(cfg) == b.DiskPath(cfg) <==> a.FullPath() == b.FullPath()
  {
    assert a.DiskPath(cfg)[|cfg.dockerDir|..] == a.FullPath();
    assert b.DiskPath(cfg)[|cfg.dockerDir|..] == b.FullPath();
  }

  /** A file written to an unused path disturbs no record. */
  lemma OrphanKeeps(cfg: Config, s: Node, path: string, content: Bytes)
    requires Inv(cfg, s) && path !in s.disk
    ensures Inv(cfg, s.(disk := s.disk[path := content]))
  {
    hide FileInfo.DiskPath, FileInfo.FullPath;
    var t := s.(disk := s.disk[path := content]);
    forall m | m in t.index.ldb && m.OfContent? ensures Holds(cfg, t, m) { assert Holds(cfg, s, m); }
    forall p | p in t.index.ldb && p.OfPath? ensures Names(t, p) { assert Names(s, p); }
  }

  /** Uploading a content that is stored already changes nothing at all, and answers with
      the record it is stored under. */
  lemma DuplicateIsDropped(cfg: Config, s: Node, req: Request)
    requires Inv(cfg, s) && Fresh(cfg, s, req) && req.fault.NoFault? && OfContent(req.content) in s.index.ldb
    ensures UploadStep(cfg, s, req) == (s, Accepted(s.index.ldb[OfContent(req.content)]))
  {
    hide FreshName.Choose, FileInfo.DiskPath, FileInfo.FullPath, Chosen, Fresh;
    WrittenAside(cfg, s, req);
    var c := Chosen(cfg, s.disk, req);
    assert Holds(cfg, s, OfContent(req.content));
    assert s.disk[c.outPath := req.content] - {c.outPath} == s.disk;
    FreshIsDistinct(cfg, s, req);
  }

  lemma FreshIsDistinct(cfg: Config, s: Node, req: Request)
    requires Fresh(cfg, s, req)
    ensures cfg.distinct
  {
  }

  lemma NewContentInv(cfg: Config, s: Node, info: FileInfo, content: Bytes)
    requires Inv(cfg, s) && info.md5 == OfContent(content) && info.md5 !in s.index.ldb
    requires info.DiskPath(cfg) !in s.disk && info.retry == 0
    ensures Inv(cfg, Node(s.disk[info.DiskPath(cfg) := content], SaveLog(s.index, info, Files)))
  {
    hide FileInfo.DiskPath, FileInfo.FullPath, SaveLog;
    var t := Node(s.disk[info.DiskPath(cfg) := content], SaveLog(s.index, info, Files));
    Added(s.index, info);
    PathUnindexed(cfg, s, info);
    forall m | m in t.index.ldb && m.OfContent? ensures Holds(cfg, t, m) {
      if m != info.md5 { assert Holds(cfg, s, m); }
    }
    forall p | p in t.index.ldb && p.OfPath? ensures Names(t, p) {
      if p != OfPath(info.FullPath()) { assert Names(s, p); }
    }
  }

  lemma PathUnindexed(cfg: Config, s: Node, info: FileInfo)
    requires Inv(cfg, s) && info.DiskPath(cfg) !in s.disk
    ensures OfPath(info.FullPath()) !in s.index.ldb
  {
    var p := OfPath(info.FullPath());
    if p in s.index.ldb {
      assert Names(s, p);
      assert Holds(cfg, s, s.index.ldb[p].md5);
      PathOnDisk(cfg, info, s.index.ldb[p]);
      assert false;
    }
  }

  /** An upload keeps the store consistent, leaves every file that was on disk as it was,
      and answers only with a record whose file holds the uploaded bytes. */
  lemma UploadKeeps(cfg: Config, s: Node, req: Request)
    requires Inv(cfg, s) && Fresh(cfg, s, req)
    ensures var (t, reply) := UploadStep(cfg, s, req);
      && Inv(cfg, t)
      && (forall p :: p in s.disk ==> p in t.disk && t.disk[p] == s.disk[p])
      && (reply.Accepted? ==>
            reply.info.md5 == OfContent(req.content)
            && reply.info.DiskPath(cfg) in t.disk && t.disk[reply.info.DiskPath(cfg)] == req.content)
  {
    hide FreshName.Choose, FileInfo.DiskPath, FileInfo.FullPath, Chosen, Fresh, SaveLog, Inv;
    WrittenAside(cfg, s, req);
    FreshIsDistinct(cfg, s, req);
    var c := Chosen(cfg, s.disk, req);
    var info := NewInfo(cfg, req, c.name);
    if req.fault.CopyStops? {
      OrphanKeeps(cfg, s, c.outPath, Copied(req.content, req.fault.copied));
    } else if req.fault.NoFault? {
      if info.md5 in s.index.ldb {
        DuplicateIsDropped(cfg, s, req);
        StoredContent(cfg, s, info.md5);
      } else {
        OrphanKeeps(cfg, s, c.outPath, req.content);
        NewContentInv(cfg, s, info, req.content);
      }
    }
  }

  /** What a stored upload leaves: the content's record, under its checksum and its path, in the
      day's log and in the counters; its file; and nothing else. */
  ghost predicate Records(cfg: Config, s: Node, t: Node, req: Request, v: FileInfo) {
    var md5, day := OfContent(req.content), req.stamp.day;
    && v.md5 == md5 && v.size == |req.content| && v.peers == [cfg.host] && v.timeStamp == req.stamp
    && v.offSet == WHOLE && v.retry == 0 && v.path == req.path && (req.reName != "" ==> v.OutName() == req.reName)
    && t.index.ldb == s.index.ldb[md5 := v][OfPath(v.FullPath()) := v]
    && t.index.logDB == s.index.logDB[LogKey(day, Files, md5) := v]
    && (forall d :: Get(t.index.counts, d) ==
          Get(s.index.counts, d) + (if d == day && md5 !in s.index.ldb then 1 else 0))
    && (forall d :: Get(t.index.sizes, d) ==
          Get(s.index.sizes, d) + (if d == day && md5 !in s.index.ldb then |req.content| else 0))
    && t.disk == s.disk[v.DiskPath(cfg) := req.content]
  }

  /** The caller claims no checksum, or the right one. */
  predicate ClaimHolds(req: Request) { req.claimed.Unset? || req.claimed == OfContent(req.content) }

  lemma RecordStored(cfg: Config, s: Node, req: Request)
    requires req.fault.NoFault? && ClaimHolds(req)
    requires cfg.distinct ==> OfContent(req.content) !in s.index.ldb
    requires var c := Chosen(cfg, s.disk, req); NewInfo(cfg, req, c.name).DiskPath(cfg) == c.outPath
    ensures var (t, reply) := UploadStep(cfg, s, req);
      exists v :: Records(cfg, s, t, req, v) && v.DiskPath(cfg) == Chosen(cfg, s.disk, req).outPath
               && reply == if req.content == [] then Refused else Accepted(v)
  {
    hide FreshName.Choose, FileInfo.DiskPath, FileInfo.FullPath, Chosen;
    var (t, reply) := UploadStep(cfg, s, req);
    var v := NewInfo(cfg, req, Chosen(cfg, s.disk, req).name);
    Added(s.index, v);
    AddedCounters(s.index, v);
    PathRestored(cfg, req);
    assert Records(cfg, s, t, req, v);
  }

  /** A content that is not stored yet is: under an unused path, indexed by its checksum and that
      path, logged for the day of the upload, and counted; and it is answered with that record,
      unless it is empty. */
  lemma NewIsStored(cfg: Config, s: Node, req: Request)
    requires Fresh(cfg, s, req) && req.fault.NoFault? && ClaimHolds(req) && OfContent(req.content) !in s.index.ldb
    ensures var (t, reply) := UploadStep(cfg, s, req);
      exists v :: Records(cfg, s, t, req, v) && v.DiskPath(cfg) !in s.disk
               && reply == if req.content == [] then Refused else Accepted(v)
  {
    hide FreshName.Choose, FileInfo.DiskPath, FileInfo.FullPath, Chosen, Fresh, Records, UploadStep, NewInfo;
    WrittenAside(cfg, s, req);
    RecordStored(cfg, s, req);
  }

  /** With copies not unified, every upload is stored so, under the name it comes with, whatever is
      indexed and whatever is there. */
  lemma RepeatIsStored(cfg: Config, s: Node, req: Request)
    requires !cfg.distinct && req.fault.NoFault? && ClaimHolds(req)
    ensures var (t, reply) := UploadStep(cfg, s, req);
      exists v :: Records(cfg, s, t, req, v)
               && v.DiskPath(cfg) ==
                    cfg.dockerDir + req.path + "/" + (if req.reName != "" then req.reName else req.name)
               && reply == if req.content == [] then Refused else Accepted(v)
  {
    hide Records, UploadStep;
    var info := NewInfo(cfg, req, Chosen(cfg, s.disk, req).name);
    PathRestored(cfg, req);
    assert cfg.dockerDir + (req.path + "/" + info.OutName()) == Folder(cfg, req) + "/" + info.OutName();
    RecordStored(cfg, s, req);
  }

  /** What is refused leaves index and logs alone. All files stay as they were; at most one is
      added, under an unused path, which holds the content as far as it was copied. */
  lemma RefusedIsNotIndexed(cfg: Config, s: Node, req: Request)
    requires Fresh(cfg, s, req)
    requires !req.fault.NoFault? || (OfContent(req.content) !in s.index.ldb && !ClaimHolds(req))
    ensures var (t, reply) := UploadStep(cfg, s, req);
      && reply == Refused && t.index == s.index
      && (if req.fault.CreateFails? then t.disk == s.disk
          else exists path ::
            && path !in s.disk && path in t.disk && t.disk == s.disk[path := t.disk[path]]
            && t.disk[path] <= req.content
            && |t.disk[path]| == if req.fault.CopyStops? && req.fault.copied < |req.content| then req.fault.copied
                                 else |req.content|)
  {
    hide FreshName.Choose, FileInfo.DiskPath, FileInfo.FullPath, Chosen, Fresh, SaveLog;
    WrittenAside(cfg, s, req);
    var path := Chosen(cfg, s.disk, req).outPath;
    assert !req.fault.CreateFails? ==> path in UploadStep(cfg, s, req).0.disk;
  }

  lemma StoredContent(cfg: Config, s: Node, m: Sum)
    requires Inv(cfg, s) && m in s.index.ldb && m.OfContent?
    ensures var v := s.index.ldb[m];
      v.md5 == m && v.DiskPath(cfg) in s.disk && s.disk[v.DiskPath(cfg)] == m.bytes
  {
    assert Holds(cfg, s, m);
  }

  /** Two contents are never indexed under one path. */
  lemma OnePathEach(cfg: Config, s: Node, m: Sum, n: Sum)
    requires Inv(cfg, s) && m in s.index.ldb && n in s.index.ldb && m.OfContent? && n.OfContent?
    requires s.index.ldb[m].FullPath() == s.index.ldb[n].FullPath()
    ensures m == n
  {
    hide FileInfo.FullPath, FileInfo.DiskPath;
    assert Holds(cfg, s, m) && Holds(cfg, s, n);
  }

  /** A content has one indexed path: whatever path has a record of it is the one in the
      content's own record. */
  lemma OnePathOnly(cfg: Config, s: Node, p: Sum)
    requires Inv(cfg, s) && p in s.index.ldb && p.OfPath?
    ensures var m := s.index.ldb[p].md5;
      m.OfContent? && m in s.index.ldb && s.index.ldb[m].FullPath() == p.path
  {
    assert Names(s, p);
  }

  /** A removal keeps the store consistent and touches no other record's file. */
  lemma RemoveKeeps(cfg: Config, s: Node, key: Sum, removeFails: bool)
    requires Inv(cfg, s) && (key.OfContent? || key.OfPath?)
    ensures var t := RemoveStep(cfg, s, key, removeFails).0;
      && Inv(cfg, t)
      && (forall m :: m in t.index.ldb && m.OfContent? ==>
            m in s.index.ldb && t.index.ldb[m] == s.index.ldb[m]
            && t.index.ldb[m].DiskPath(cfg) in t.disk && t.disk[t.index.ldb[m].DiskPath(cfg)] == m.bytes)
  {
    hide FileInfo.DiskPath, FileInfo.FullPath, SaveLog;
    var t := RemoveStep(cfg, s, key, removeFails).0;
    if t != s {
      var info := s.index.ldb[key];
      assert key.OfContent? ==> Holds(cfg, s, key);
      assert key.OfPath? ==> Names(s, key);
      Removed(s.index, info);
      assert Holds(cfg, s, info.md5);
      forall m | m in t.index.ldb && m.OfContent? ensures Holds(cfg, t, m) {
        assert Holds(cfg, s, m);
        if s.index.ldb[m].FullPath() == info.FullPath() { OnePathEach(cfg, s, m, info.md5); }
        PathOnDisk(cfg, s.index.ldb[m], info);
      }
      forall p | p in t.index.ldb && p.OfPath? ensures Names(t, p) { assert Names(s, p); }
    }
    forall m | m in t.index.ldb && m.OfContent?
      ensures m in s.index.ldb && t.index.ldb[m] == s.index.ldb[m]
      ensures t.index.ldb[m].DiskPath(cfg) in t.disk && t.disk[t.index.ldb[m].DiskPath(cfg)] == m.bytes
    {
      assert Holds(cfg, t, m);
    }
  }

  /** A removal succeeds if the checksum, of a content or of a path, is indexed with a whole file
      that is on disk, and that file can be deleted. Then the file is gone, and the content and
      the path are neither indexed nor logged for the record's day. If the file cannot be deleted,
      they are not either, but the file stays. In all other cases nothing changes. */
  lemma RemovedExactly(cfg: Config, s: Node, key: Sum, removeFails: bool)
    ensures var (t, ok) := RemoveStep(cfg, s, key, removeFails);
      var possible := key in s.index.ldb && s.index.ldb[key].offSet < 0 && s.index.ldb[key].path != ""
                      && s.index.ldb[key].DiskPath(cfg) in s.disk;
      && (ok <==> possible && !removeFails)
      && (!possible ==> t == s)
      && (possible ==>
            var v := s.index.ldb[key];
            && t.disk == (if ok then s.disk - {v.DiskPath(cfg)} else s.disk)
            && (v.md5 != Unset ==>
                  && t.index.ldb == s.index.ldb - {v.md5, OfPath(v.FullPath())}
                  && LogKey(v.timeStamp.day, Files, v.md5) !in t.index.logDB
                  && forall k: LogKey :: k.log != Removes && k != LogKey(v.timeStamp.day, Files, v.md5) ==>
                       (k in t.index.logDB <==> k in s.index.logDB)
                       && (k in s.index.logDB ==> t.index.logDB[k] == s.index.logDB[k])))
  {
    hide FileInfo.DiskPath, FileInfo.FullPath, AddCount;
  }

  // ---- Whole runs ----------------------------------------------------------

  datatype Op = Put(req: Request) | Remove(key: Sum, removeFails: bool)

  function Step(cfg: Config, s: Node, op: Op): Node {
    match op
    case Put(req) => UploadStep(cfg, s, req).0
    case Remove(key, fails) => RemoveStep(cfg, s, key, fails).0
  }

  predicate Proper(cfg: Config, s: Node, op: Op) {
    match op
    case Put(req) => Fresh(cfg, s, req)
    case Remove(key, _) => !key.Unset?
  }

  function Run(cfg: Config, today: nat, ops: seq<Op>): Node {
    if ops == [] then Node(map[], Initial(today)) else Step(cfg, Run(cfg, today, ops[..|ops| - 1]), ops[|ops| - 1])
  }

  predicate AllProper(cfg: Config, today: nat, ops: seq<Op>) {
    ops != [] ==>
        AllProper(cfg, today, ops[..|ops| - 1]) && Proper(cfg, Run(cfg, today, ops[..|ops| - 1]), ops[|ops| - 1])
  }

  lemma {:induction false} RunInv(cfg: Config, today: nat, ops: seq<Op>)
    requires AllProper(cfg, today, ops)
    ensures Inv(cfg, Run(cfg, today, ops))
  {
    hide Inv, UploadStep, RemoveStep, Fresh;
    if ops == [] {
      InitialInv(cfg, today);
    } else {
      RunInv(cfg, today, ops[..|ops| - 1]);
      var s := Run(cfg, today, ops[..|ops| - 1]);
      match ops[|ops| - 1]
      case Put(req) => UploadKeeps(cfg, s, req);
      case Remove(key, fails) => RemoveKeeps(cfg, s, key, fails);
    }
  }

  /** The path is indexed, for this content. */
  predicate IndexedAt(s: Node, path: string, m: Sum) {
    OfPath(path) in s.index.ldb && s.index.ldb[OfPath(path)].md5 == m
  }

  /** After any sequence of uploads and removals, with any faults: every indexed content has
      exactly one indexed path, and the file there hashes to it; and an indexed path is that
      of an indexed content. */
  lemma RunKeeps(cfg: Config, today: nat, ops: seq<Op>)
    requires AllProper(cfg, today, ops)
    ensures
      var s := Run(cfg, today, ops);
      && (forall m :: m in s.index.ldb && m.OfContent? ==>
            exists path ::
              && IndexedAt(s, path, m)
              && cfg.dockerDir + path in s.disk && OfContent(s.disk[cfg.dockerDir + path]) == m
              && forall other :: IndexedAt(s, other, m) ==> other == path)
      && (forall path :: OfPath(path) in s.index.ldb ==>
            exists m :: IndexedAt(s, path, m) && m.OfContent? && m in s.index.ldb)
  {
    hide Run, FileInfo.FullPath;
    RunInv(cfg, today, ops);
    var s := Run(cfg, today, ops);
    forall m | m in s.index.ldb && m.OfContent?
      ensures exists path ::
        && IndexedAt(s, path, m)
        && cfg.dockerDir + path in s.disk && OfContent(s.disk[cfg.dockerDir + path]) == m
        && forall other :: IndexedAt(s, other, m) ==> other == path
    {
      assert Holds(cfg, s, m);
      var path := s.index.ldb[m].FullPath();
      assert IndexedAt(s, path, m);
      forall other | IndexedAt(s, other, m) ensures other == path { OnePathOnly(cfg, s, OfPath(other)); }
    }
    forall path | OfPath(path) in s.index.ldb
      ensures exists m :: IndexedAt(s, path, m) && m.OfContent? && m in s.index.ldb
    {
      OnePathOnly(cfg, s, OfPath(path));
      assert IndexedAt(s, path, s.index.ldb[OfPath(path)].md5);
    }
  }

  lemma InitialInv(cfg: Config, today: nat)
    ensures Inv(cfg, Node(map[], Initial(today)))
  {
  }

  /** The URL an upload is answered with leads to a file that holds the uploaded bytes. */
  lemma AnswerLeadsToContent(cfg: Config, s: Node, req: Request, p: string)
    requires Inv(cfg, s) && Fresh(cfg, s, req)
    requires UploadStep(cfg, s, req).1.Accepted?
    requires var v := UploadStep(cfg, s, req).1.info;
      && DownloadUrl.Stored(cfg, v, p)
      && !(LARGE_DIR_NAME + "/" <= p + "/" + v.OutName() + DownloadUrl.ResultQuery(cfg, v))
      && '%' !in v.DiskPath(cfg) && '?' !in p && '?' !in v.OutName()
    ensures var (t, reply) := UploadStep(cfg, s, req);
      var uri := DownloadUrl.ResultURI(cfg, reply.info);
      && uri != ""
      && var path := DownloadUrl.GetFilePathFromRequest(cfg, uri).0;
      path in t.disk && t.disk[path] == req.content
  {
    hide *;
    UploadKeeps(cfg, s, req);
    DownloadUrl.WholeFileRoundTrip(cfg, UploadStep(cfg, s, req).1.info, p);
  }
}
