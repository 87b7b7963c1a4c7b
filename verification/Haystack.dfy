/** Small files merged into shared blobs: a marker byte and the content are appended, and
    the record's name says where. A reader takes the marker to tell data from a hole. */
module Haystack {
  import opened Text
  import opened Types
  import opened DownloadUrl
  import SmallFileName

  /** '1' */
  const MARKER: Byte := 49

  /** Blobs by their path on disk. */
  type Blobs = map<string, Bytes>

  function At(blobs: Blobs, path: string): Bytes {
    if path in blobs then blobs[path] else []
  }

  // ---- Appending -----------------------------------------------------------

  /** Where the saving of a small file stops, if it does. */
  datatype Fault = NoFault | OpenFails | MarkerFails | SeekFails | CopyFails(copied: nat)

  function LargeDir(cfg: Config): string {
    cfg.dockerDir + STORE_DIR_NAME + "/" + LARGE_DIR_NAME + "/" + cfg.peerId
  }

  /** path.Ext */
  function PathExt(name: string): (ext: string)
    ensures '/' !in ext
  {
    if name == "" || name[|name| - 1] == '/' then ""
    else if name[|name| - 1] == '.' then "."
    else
      var ext := PathExt(name[..|name| - 1]);
      if ext == "" then "" else ext + [name[|name| - 1]]
  }

  /** It is what follows the last slash from its last dot on, with that dot. */
  lemma {:induction false} ExtIs(dir: string, name: string, ext: string)
    requires '.' !in ext && '/' !in ext && (dir == "" || dir[|dir| - 1] == '/')
    ensures PathExt(dir + name + "." + ext) == "." + ext
    ensures PathExt(dir + ext) == ""
  {
    if ext == "" {
      assert dir + name + "." + ext == dir + name + ".";
      assert dir + ext == dir;
    } else {
      var init, c := ext[..|ext| - 1], ext[|ext| - 1];
      ExtIs(dir, name, init);
      assert (dir + name + "." + ext)[..|dir + name + "." + ext| - 1] == dir + name + "." + init;
      assert (dir + ext)[..|dir + ext| - 1] == dir + init;
      assert "." + init + [c] == "." + ext;
    }
  }

  /** What reaches the end of the blob. */
  function Written(content: Bytes, fault: Fault): Bytes {
    match fault
    case NoFault => [MARKER] + content
    case CopyFails(n) => [MARKER] + Copied(content, n)
    case SeekFails => [MARKER]
    case _ => []
  }

  /** The caller's record once the blob's length at the start is known; a seek that fails
      reports offset 0. */
  function Located(info: FileInfo, offset: nat, reName: string, fault: Fault): FileInfo {
    if fault.OpenFails? then info
    else if fault.MarkerFails? then info.(offSet := offset)
    else if fault.SeekFails? then info.(offSet := 0)
    else info.(
      offSet := offset,
      size := info.size + 1,
      reName := SmallFileName.Print(reName, offset, info.size + 1, PathExt(info.name)))
  }

  datatype Saved = Saved(blobs: Blobs, info: FileInfo, ok: bool)

  /** What SaveSmallFile leaves behind: the blobs, the caller's record, and whether it
      reports success. The content is what the uploaded file holds, if it is still there. */
  function SaveSmall(cfg: Config, blobs: Blobs, info: FileInfo, content: Option<Bytes>, no: nat, fault: Fault): Saved {
    if content.None? then Saved(blobs, info, true) else
    if fault.OpenFails? then Saved(blobs, info, false) else
    var dest := LargeDir(cfg) + "/" + PrintNat(no);
    var b := At(blobs, dest);
    var located := Located(info, |b|, PrintNat(no), fault);
    Saved(
      blobs[dest := b + Written(content.value, fault)],
      if fault.NoFault? then located.(path := ReplaceFirst(LargeDir(cfg), cfg.dockerDir, "")) else located,
      fault.NoFault?)
  }

  /** A save that fails leaves at the end of the blob no more than the beginning of the marker and
      the content, the uploaded file where it was, and the record under its own path: as far as it
      got. Nothing but that blob changes. */
  lemma FailedSave(cfg: Config, blobs: Blobs, info: FileInfo, content: Bytes, no: nat, fault: Fault)
    requires !fault.NoFault?
    ensures var r, dest := SaveSmall(cfg, blobs, info, Some(content), no, fault), LargeDir(cfg) + "/" + PrintNat(no);
      var n := match fault
               case SeekFails => 1
               case CopyFails(k) => 1 + (if k < |content| then k else |content|)
               case _ => 0;
      && !r.ok && At(r.blobs, dest) == At(blobs, dest) + ([MARKER] + content)[..n]
      && (forall p :: p != dest ==> (p in r.blobs <==> p in blobs) && (p in blobs ==> r.blobs[p] == blobs[p]))
      && r.info.path == info.path && r.info.md5 == info.md5 && r.info.name == info.name
      && (!fault.CopyFails? ==> r.info.size == info.size && r.info.reName == info.reName)
      && r.info.offSet == (match fault
                           case OpenFails => info.offSet
                           case SeekFails => 0
                           case _ => |At(blobs, dest)|)
  {
    hide Text.PrintNat, SmallFileName.Print, PathExt, LargeDir;
    if fault.OpenFails? || fault.MarkerFails? { assert ([MARKER] + content)[..0] == []; }
    if fault.CopyFails? { CopiedBytes(content, fault.copied); }
  }

  lemma CopiedBytes(content: Bytes, k: nat)
    ensures [MARKER] + Copied(content, k) == ([MARKER] + content)[..1 + (if k < |content| then k else |content|)]
  {
  }

  /** If the uploaded file is not there any more, nothing happens, and that is no failure. */
  lemma NothingToSave(cfg: Config, blobs: Blobs, info: FileInfo, no: nat, fault: Fault)
    ensures SaveSmall(cfg, blobs, info, None, no, fault) == Saved(blobs, info, true)
  {
  }

  class Disk {
    /** Uploaded files and blobs, each by path. An upload into the directory of the blobs is not modelled. */
    var files: map<string, Bytes>
    var blobs: Blobs

    constructor ()
      ensures files == map[] && blobs == map[]
    {
      files, blobs := map[], map[];
    }

    /** The random blob number and the fault are the environment's choice. */
    method SaveSmallFile(cfg: Config, f: FileInfoRef, no: nat, fault: Fault) returns (ok: bool)
      modifies this, f
      ensures
        var fpath := old(f.info).DiskPath(cfg);
        var content := if fpath in old(files) then Some(old(files)[fpath]) else None;
        && Saved(blobs, f.info, ok) == SaveSmall(cfg, old(blobs), old(f.info), content, no, fault)
        && files == if ok then old(files) - {fpath} else old(files)
    {
      hide Text.PrintNat, SmallFileName.Print, ReplaceFirst, LargeDir, PathExt, FileInfo.DiskPath;
      var fpath := f.info.DiskPath(cfg);
      var largeDir := LargeDir(cfg);
      var reName := PrintNat(no);
      if fpath !in files || fault.OpenFails? {
        return fpath !in files;
      }
      ok := AppendSmall(cfg, f, largeDir, reName, files[fpath], fault);
      if ok {
        files := files - {fpath};
        f.info := f.info.(path := ReplaceFirst(largeDir, cfg.dockerDir, ""));
      }
    }

    /** The part of SaveSmallFile that writes to the open blob. */
    method AppendSmall(cfg: Config, f: FileInfoRef, largeDir: string, reName: string, src: Bytes, fault: Fault)
      returns (ok: bool)
      requires !fault.OpenFails?
      modifies this`blobs, f
      ensures ok <==> fault.NoFault?
      ensures
        var dest := largeDir + "/" + reName;
        var b := old(At(blobs, dest));
        && blobs == old(blobs)[dest := b + Written(src, fault)]
        && f.info == Located(old(f.info), |b|, reName, fault)
    {
      hide SmallFileName.Print, PathExt;
      var dest := largeDir + "/" + reName;
      var des := At(blobs, dest);
      ghost var start := des;
      blobs := blobs[dest := des];
      f.info := f.info.(offSet := |des|);
      if fault.MarkerFails? {
        assert start + [] == start;
        return false;
      }
      des := des + [MARKER];
      blobs := blobs[dest := des];
      assert blobs == old(blobs)[dest := des];
      if fault.SeekFails? {
        f.info := f.info.(offSet := 0);
        return false;
      }
      f.info := f.info.(offSet := |des| - 1, size := f.info.size + 1);
      f.info := f.info.(reName := SmallFileName.Print(reName, f.info.offSet, f.info.size, PathExt(f.info.name)));
      var copied := if fault.CopyFails? then Copied(src, fault.copied) else src;
      blobs := blobs[dest := des + copied];
      assert start + [MARKER] + copied == start + ([MARKER] + copied);
      return fault.NoFault?;
    }
  }

  // ---- Reading -------------------------------------------------------------

  /** What a request for a small file is answered with. A name that claims no byte at all
      makes the reader index an empty slice; the request handler recovers from that. */
  datatype Answer = Content(bytes: Bytes) | NotFound | Panics

  /** ReadFileByOffSet and the marker test. The end of the extent is a 64-bit sum. */
  function ReadExtent(blob: Bytes, offset: int, length: int): Answer
    requires 0 <= offset <= INT64_MAX && INT64_MIN <= length <= INT64_MAX
  {
    var end := if offset + length > INT64_MAX then offset + length + 2 * INT64_MIN else offset + length;
    if |blob| < end then NotFound
    else if length < 0 then Panics
    else if |blob| < offset + length then NotFound
    else if length == 0 then Panics
    else if blob[offset] == MARKER then Content(blob[offset + 1..offset + length])
    else NotFound
  }

  /** What is read is an extent that lies inside the blob and begins with the marker; and any such
      extent is read. A claim of no byte at all, or of fewer, that does not reach beyond the blob,
      makes the reader panic. */
  lemma ReadsIff(blob: Bytes, offset: int, length: int, bytes: Bytes)
    requires 0 <= offset <= INT64_MAX && INT64_MIN <= length <= INT64_MAX && |blob| <= INT64_MAX
    ensures ReadExtent(blob, offset, length) == Content(bytes) <==>
              0 < length && offset + length <= |blob| && blob[offset..offset + length] == [MARKER] + bytes
    ensures ReadExtent(blob, offset, length) == Panics <==> length <= 0 && offset + length <= |blob|
  {
    if 0 < length && offset + length <= |blob| {
      var data := blob[offset..offset + length];
      assert data[0] == blob[offset] && data[1..] == blob[offset + 1..offset + length];
      assert data == [data[0]] + data[1..];
    }
  }

  /** GetSmallFileByURI and DownloadSmallFileByURI */
  function Download(cfg: Config, blobs: Blobs, uri: string): Answer
    requires uri != ""
  {
    match SmallFileName.ParseSmallFile(uri)
    case Err(_) => NotFound
    case Ok(e) =>
      ParsedRange(uri);
      var fullpath := GetFilePathFromRequest(cfg, uri).0;
      if fullpath !in blobs then NotFound else ReadExtent(blobs[fullpath], e.offset, e.length)
  }

  lemma ParsedRange(name: string)
    ensures match SmallFileName.ParseSmallFile(name)
            case Err(_) => true
            case Ok(e) => 0 <= e.offset <= INT64_MAX && INT64_MIN <= e.length <= SmallFileName.SMALL_FILE_SIZE
  {
    hide Text.Split, Text.AfterLast;
  }

  /** The reader of resumable uploads, for a record whose literal path is not a file. */
  function TusDownload(cfg: Config, blobs: Blobs, info: FileInfo): Answer {
    match SmallFileName.TusExtent(info.DiskPath(cfg))
    case Err(_) => NotFound
    case Ok(e) =>
      if e.blob !in blobs then NotFound
      else if e.length < 0 then Panics
      else if e.offset < 0 then NotFound
      else if e.length == 0 then Panics
      else if |blobs[e.blob]| < e.offset + e.length then NotFound
      else if blobs[e.blob][e.offset] == MARKER then Content(blobs[e.blob][e.offset + 1..e.offset + e.length])
      else NotFound
  }

  /** It reads the same extents, of the blob that its split of the whole path finds. But without a
      test against the blob's length, it panics on any claim of no byte, wherever it begins, and
      of fewer. */
  lemma TusReadsIff(cfg: Config, blobs: Blobs, info: FileInfo, bytes: Bytes)
    ensures match SmallFileName.TusExtent(info.DiskPath(cfg))
            case Err(_) => TusDownload(cfg, blobs, info) == NotFound
            case Ok(e) =>
              && (TusDownload(cfg, blobs, info) == Content(bytes) <==>
                    && e.blob in blobs && 0 <= e.offset < e.offset + e.length <= |blobs[e.blob]|
                    && blobs[e.blob][e.offset..e.offset + e.length] == [MARKER] + bytes)
              && (TusDownload(cfg, blobs, info) == Panics <==>
                    e.blob in blobs && (e.length < 0 || (e.length == 0 && 0 <= e.offset)))
  {
    hide FileInfo.DiskPath, SmallFileName.TusExtent;
    match SmallFileName.TusExtent(info.DiskPath(cfg))
    case Err(_) =>
    case Ok(e) =>
      if e.blob in blobs && 0 <= e.offset < e.offset + e.length <= |blobs[e.blob]| {
        var data := blobs[e.blob][e.offset..e.offset + e.length];
        assert data[0] == blobs[e.blob][e.offset];
        assert data[1..] == blobs[e.blob][e.offset + 1..e.offset + e.length];
        assert data == [data[0]] + data[1..];
      }
  }

  // ---- Runs of the node that merges ----------------------------------------

  /** One call of SaveSmallFile for a file just uploaded. */
  datatype Save = Save(info: FileInfo, content: Bytes, no: nat, fault: Fault)

  /** A record that was committed, with what it stands for. */
  datatype Record = Record(info: FileInfo, content: Bytes, no: nat)
  {
    function End(): int { info.offSet + info.size }

    /** The path of its blob on the disk of a node. */
    function Key(cfg: Config): string { BlobPath(cfg, info, PrintNat(no)) }
  }

  datatype Primary = Primary(blobs: Blobs, records: seq<Record>)

  /** The caller measured the file, found it small, and the blob stays within the range of
      a file offset. */
  predicate Admits(cfg: Config, s: Primary, op: Save) {
    && op.info.size == |op.content| < SmallFileName.SMALL_FILE_SIZE
    && |At(s.blobs, LargeDir(cfg) + "/" + PrintNat(op.no))| + 1 + |op.content| <= INT64_MAX
  }

  function Step(cfg: Config, s: Primary, op: Save): Primary {
    var r := SaveSmall(cfg, s.blobs, op.info, Some(op.content), op.no, op.fault);
    Primary(r.blobs, if r.ok then s.records + [Record(r.info, op.content, op.no)] else s.records)
  }

  function Run(cfg: Config, ops: seq<Save>): Primary {
    if ops == [] then Primary(map[], []) else Step(cfg, Run(cfg, ops[..|ops| - 1]), ops[|ops| - 1])
  }

  predicate Possible(cfg: Config, ops: seq<Save>) {
    ops != [] ==> Possible(cfg, ops[..|ops| - 1]) && Admits(cfg, Run(cfg, ops[..|ops| - 1]), ops[|ops| - 1])
  }

  /** The extent of the record holds the marker and the content. */
  predicate Holds(blobs: Blobs, key: string, r: Record) {
    && key in blobs
    && 0 <= r.info.offSet < r.End() <= |blobs[key]|
    && blobs[key][r.info.offSet..r.End()] == [MARKER] + r.content
  }

  predicate Disjoint(a: Record, b: Record) {
    a.End() <= b.info.offSet || b.End() <= a.info.offSet
  }

  /** The record names its own extent, in a blob of the node with that id. */
  ghost predicate Named(peerId: string, r: Record) {
    && r.info.path == STORE_DIR_NAME + "/" + (LARGE_DIR_NAME + "/" + peerId)
    && 0 <= r.info.offSet <= INT64_MAX
    && r.info.size == |r.content| + 1 <= SmallFileName.SMALL_FILE_SIZE
    && exists ext ::
        '/' !in ext && r.info.reName == SmallFileName.Print(PrintNat(r.no), r.info.offSet, r.info.size, ext)
  }

  ghost predicate Inv(cfg: Config, s: Primary) {
    && (forall i :: 0 <= i < |s.records| ==> Named(cfg.peerId, s.records[i]))
    && (forall i :: 0 <= i < |s.records| ==> Holds(s.blobs, s.records[i].Key(cfg), s.records[i]))
    && (forall i, j :: 0 <= i < j < |s.records| && s.records[i].no == s.records[j].no
          ==> Disjoint(s.records[i], s.records[j]))
  }

  lemma LargeKey(cfg: Config, r: Record)
    requires r.info.path == STORE_DIR_NAME + "/" + (LARGE_DIR_NAME + "/" + cfg.peerId)
    ensures r.Key(cfg) == LargeDir(cfg) + "/" + PrintNat(r.no)
  {
  }

  lemma LargePath(cfg: Config)
    ensures ReplaceFirst(LargeDir(cfg), cfg.dockerDir, "") == STORE_DIR_NAME + "/" + (LARGE_DIR_NAME + "/" + cfg.peerId)
  {
    assert cfg.dockerDir <= LargeDir(cfg);
    assert LargeDir(cfg)[|cfg.dockerDir|..] == STORE_DIR_NAME + "/" + (LARGE_DIR_NAME + "/" + cfg.peerId);
  }

  lemma SameKey(dir: string, a: nat, b: nat)
    ensures dir + PrintNat(a) == dir + PrintNat(b) <==> a == b
  {
    assert (dir + PrintNat(a))[|dir|..] == PrintNat(a) && (dir + PrintNat(b))[|dir|..] == PrintNat(b);
    PrintedNat(a);
    PrintedNat(b);
  }

  /** Blobs only grow, so what a record holds stays. */
  lemma GrowthKeeps(blobs: Blobs, key: string, r: Record, dest: string, more: Bytes)
    requires Holds(blobs, key, r)
    ensures Holds(blobs[dest := At(blobs, dest) + more], key, r)
  {
    if key == dest {
      assert (blobs[key] + more)[r.info.offSet..r.End()] == blobs[key][r.info.offSet..r.End()];
    }
  }

  /** Whatever is appended and wherever the append stops, no committed record is touched. */
  lemma StepGrows(cfg: Config, s: Primary, op: Save)
    ensures var t, dest := Step(cfg, s, op), LargeDir(cfg) + "/" + PrintNat(op.no);
      && s.records <= t.records
      && (op.fault.OpenFails? ==> t.blobs == s.blobs)
      && (!op.fault.OpenFails? ==> t.blobs == s.blobs[dest := At(s.blobs, dest) + Written(op.content, op.fault)])
  {
    hide Text.PrintNat, SmallFileName.Print, PathExt, ReplaceFirst, LargeDir;
  }

  lemma StepKeepsHolds(cfg: Config, s: Primary, op: Save)
    requires Inv(cfg, s)
    ensures forall i :: 0 <= i < |s.records| ==> Holds(Step(cfg, s, op).blobs, s.records[i].Key(cfg), s.records[i])
  {
    hide Step, Holds, Record.Key, Record.End, LargeDir, Text.PrintNat;
    StepGrows(cfg, s, op);
    var t := Step(cfg, s, op);
    var dest := LargeDir(cfg) + "/" + PrintNat(op.no);
    if !op.fault.OpenFails? {
      forall i | 0 <= i < |s.records|
        ensures Holds(t.blobs, s.records[i].Key(cfg), s.records[i])
      {
        GrowthKeeps(s.blobs, s.records[i].Key(cfg), s.records[i], dest, Written(op.content, op.fault));
      }
    }
  }

  /** A committed record names its extent, which begins where the blob used to end. */
  lemma NewRecord(cfg: Config, s: Primary, op: Save)
    requires Admits(cfg, s, op) && op.fault.NoFault?
    ensures var t := Step(cfg, s, op);
      && |t.records| == |s.records| + 1
      && var r := t.records[|s.records|];
      && Named(cfg.peerId, r) && r.no == op.no && r.content == op.content
      && r.Key(cfg) == LargeDir(cfg) + "/" + PrintNat(op.no)
      && r.info.offSet == |At(s.blobs, LargeDir(cfg) + "/" + PrintNat(op.no))|
      && r.info.reName == SmallFileName.Print(PrintNat(op.no), r.info.offSet, |op.content| + 1, PathExt(op.info.name))
      && Holds(t.blobs, r.Key(cfg), r)
  {
    hide Text.PrintNat, SmallFileName.Print, PathExt, ReplaceFirst, LargeDir, Record.Key;
    var t := Step(cfg, s, op);
    var r := t.records[|s.records|];
    LargePath(cfg);
    LargeKey(cfg, r);
    assert r.info.reName == SmallFileName.Print(PrintNat(r.no), r.info.offSet, r.info.size, PathExt(op.info.name));
    var b := At(s.blobs, LargeDir(cfg) + "/" + PrintNat(op.no));
    assert (b + ([MARKER] + op.content))[|b|..] == [MARKER] + op.content;
  }

  lemma StepInv(cfg: Config, s: Primary, op: Save)
    requires Inv(cfg, s) && Admits(cfg, s, op)
    ensures Inv(cfg, Step(cfg, s, op))
  {
    hide Text.PrintNat, LargeDir, Named, Record.Key;
    var t := Step(cfg, s, op);
    StepKeepsHolds(cfg, s, op);
    if op.fault.NoFault? {
      NewRecord(cfg, s, op);
      forall i | 0 <= i < |s.records| && s.records[i].no == op.no
        ensures Disjoint(t.records[i], t.records[|s.records|])
      {
        KeyOf(cfg, s.records[i]);
      }
    }
  }

  lemma KeyOf(cfg: Config, r: Record)
    requires Named(cfg.peerId, r)
    ensures r.Key(cfg) == LargeDir(cfg) + "/" + PrintNat(r.no)
  {
    LargeKey(cfg, r);
  }

  lemma {:induction false} RunInv(cfg: Config, ops: seq<Save>)
    requires Possible(cfg, ops)
    ensures Inv(cfg, Run(cfg, ops))
  {
    if ops != [] {
      RunInv(cfg, ops[..|ops| - 1]);
      StepInv(cfg, Run(cfg, ops[..|ops| - 1]), ops[|ops| - 1]);
    }
  }

  // ---- Reading back --------------------------------------------------------

  /** The node's directories can be told apart from a name's fields, an escape or a query. */
  predicate Servable(cfg: Config, peerId: string, info: FileInfo) {
    && Stored(cfg, info, LARGE_DIR_NAME + "/" + peerId)
    && ',' !in cfg.dockerDir && '%' !in cfg.dockerDir
    && ',' !in peerId && '%' !in peerId && '?' !in peerId
  }

  lemma PlainNat(n: nat)
    ensures forall c :: c in PrintNat(n) ==> IsDigit(c)
  {
    PrintedNat(n);
  }

  lemma QueryIsSlashFree(cfg: Config, info: FileInfo)
    ensures '/' !in ResultQuery(cfg, info)
  {
    EscapedIsSlashFree(info.name);
  }

  /** The request printed for a record asks for exactly its extent of its blob. */
  lemma RequestedExtent(cfg: Config, peerId: string, r: Record)
    requires Named(peerId, r) && Servable(cfg, peerId, r.info)
    ensures var uri := ResultURI(cfg, r.info);
      && uri != ""
      && GetFilePathFromRequest(cfg, uri).0 == r.Key(cfg)
      && SmallFileName.ParseSmallFile(uri) ==
          SmallFileName.Ok(SmallFileName.Extent(PrintNat(r.no), r.info.offSet, r.info.size))
  {
    hide Text.PrintNat, GetFilePathFromRequest, SmallFileName.ParseSmallFile, SmallFileName.Print, ResultQuery,
         ResultURI;
    var blob := PrintNat(r.no);
    var ext := ExtOf(peerId, r);
    PlainNat(r.no);
    var name := SmallFileName.Print(blob, r.info.offSet, r.info.size, ext);
    assert r.info.OutName() == name by { NameNotEmpty(blob, r.info.offSet, r.info.size, ext); }
    BlobOfRequest(cfg, r.info, peerId, blob, r.info.offSet, r.info.size, ext);
    ParsedRequest(cfg, peerId, r.info, blob, r.info.offSet, r.info.size, ext);
  }

  lemma ParsedRequest(cfg: Config, peerId: string, info: FileInfo, blob: string, offset: int, size: int, ext: string)
    requires info.path == STORE_DIR_NAME + "/" + (LARGE_DIR_NAME + "/" + peerId)
    requires SmallFileName.Printable(blob, offset, size, ext) && size <= SmallFileName.SMALL_FILE_SIZE
    requires info.OutName() == SmallFileName.Print(blob, offset, size, ext)
    ensures SmallFileName.ParseSmallFile(ResultURI(cfg, info)) ==
        SmallFileName.Ok(SmallFileName.Extent(blob, offset, size))
  {
    hide SmallFileName.ParseSmallFile, SmallFileName.Print, ResultQuery, Root, ReplaceFirst, StorePath, Text.PrintNat;
    var q := ResultQuery(cfg, info);
    var dir := Root(cfg) + (LARGE_DIR_NAME + "/" + peerId + "/");
    QueryIsSlashFree(cfg, info);
    assert dir[|dir| - 1] == '/';
    SmallFileName.RoundTrip(dir, blob, offset, size, ext, q);
    StoredUnder(info, LARGE_DIR_NAME + "/" + peerId);
    assert ResultURI(cfg, info) == dir + info.OutName() + q;
  }

  lemma ExtOf(peerId: string, r: Record) returns (ext: string)
    requires Named(peerId, r)
    ensures '/' !in ext && r.info.reName == SmallFileName.Print(PrintNat(r.no), r.info.offSet, r.info.size, ext)
  {
    ext :| '/' !in ext && r.info.reName == SmallFileName.Print(PrintNat(r.no), r.info.offSet, r.info.size, ext);
  }

  lemma NameNotEmpty(blob: string, offset: int, size: int, ext: string)
    ensures SmallFileName.Print(blob, offset, size, ext) != ""
  {
  }

  lemma ReadsHeld(cfg: Config, blobs: Blobs, r: Record)
    requires Holds(blobs, r.Key(cfg), r)
    requires 0 <= r.info.offSet <= INT64_MAX && 0 < r.info.size == |r.content| + 1 <= INT64_MAX
    ensures ReadExtent(blobs[r.Key(cfg)], r.info.offSet, r.info.size) == Content(r.content)
  {
    var blob := blobs[r.Key(cfg)];
    var data := blob[r.info.offSet..r.End()];
    assert data[0] == MARKER && data[1..] == r.content;
    assert blob[r.info.offSet + 1..r.End()] == data[1..];
  }

  /** Every record committed in a run, including runs in which appends stop half-way, is
      read back as exactly the content it was saved with, by the URL printed for it and by
      the reader of resumable uploads, whatever was appended since. */
  lemma ReadBack(cfg: Config, ops: seq<Save>, i: nat)
    requires Possible(cfg, ops) && i < |Run(cfg, ops).records|
    requires Servable(cfg, cfg.peerId, Run(cfg, ops).records[i].info)
    ensures var s, r := Run(cfg, ops), Run(cfg, ops).records[i];
      && ResultURI(cfg, r.info) != ""
      && Download(cfg, s.blobs, ResultURI(cfg, r.info)) == Content(r.content)
      && TusDownload(cfg, s.blobs, r.info) == Content(r.content)
  {
    hide Run, Possible, Text.PrintNat, SmallFileName.ParseSmallFile, GetFilePathFromRequest, ReadExtent, ResultURI;
    RunInv(cfg, ops);
    var s := Run(cfg, ops);
    RequestedExtent(cfg, cfg.peerId, s.records[i]);
    ReadsHeld(cfg, s.blobs, s.records[i]);
    TusReadsHeld(cfg, s.blobs, s.records[i]);
  }

  lemma TusReadsHeld(cfg: Config, blobs: Blobs, r: Record)
    requires Named(cfg.peerId, r) && Servable(cfg, cfg.peerId, r.info) && Holds(blobs, r.Key(cfg), r)
    ensures TusDownload(cfg, blobs, r.info) == Content(r.content)
  {
    hide Text.PrintNat, SmallFileName.TusExtent, SmallFileName.Print;
    var blob := PrintNat(r.no);
    var ext := ExtOf(cfg.peerId, r);
    PlainNat(r.no);
    NameNotEmpty(blob, r.info.offSet, r.info.size, ext);
    SmallFileName.TusReaderAgrees(cfg.dockerDir + r.info.path, blob, r.info.offSet, r.info.size, ext);
    assert r.info.DiskPath(cfg) == cfg.dockerDir + r.info.path + "/" + r.info.reName;
    var e := blobs[r.Key(cfg)];
    var data := e[r.info.offSet..r.End()];
    assert data[0] == MARKER && data[1..] == r.content;
    assert e[r.info.offSet + 1..r.End()] == data[1..];
  }

  /** The extents of committed records lie inside their blobs, begin with the marker and
      never overlap; and a later state keeps every earlier record. */
  lemma Extents(cfg: Config, ops: seq<Save>)
    requires Possible(cfg, ops)
    ensures var s := Run(cfg, ops);
      && (forall i :: 0 <= i < |s.records| ==>
            var r := s.records[i];
            r.Key(cfg) in s.blobs && 0 <= r.info.offSet < r.End() <= |s.blobs[r.Key(cfg)]|
            && s.blobs[r.Key(cfg)][r.info.offSet] == MARKER)
      && (forall i, j :: 0 <= i < j < |s.records| && s.records[i].Key(cfg) == s.records[j].Key(cfg)
            ==> Disjoint(s.records[i], s.records[j]))
  {
    hide Run, Possible, Text.PrintNat, Record.Key;
    RunInv(cfg, ops);
    var s := Run(cfg, ops);
    forall i | 0 <= i < |s.records|
      ensures s.records[i].Key(cfg) in s.blobs
          && 0 <= s.records[i].info.offSet < s.records[i].End() <= |s.blobs[s.records[i].Key(cfg)]|
      ensures s.blobs[s.records[i].Key(cfg)][s.records[i].info.offSet] == MARKER
    {
      var r := s.records[i];
      assert s.blobs[r.Key(cfg)][r.info.offSet..r.End()][0] == MARKER;
    }
    forall i, j | 0 <= i < j < |s.records| && s.records[i].Key(cfg) == s.records[j].Key(cfg)
      ensures Disjoint(s.records[i], s.records[j])
    {
      KeyOf(cfg, s.records[i]);
      KeyOf(cfg, s.records[j]);
      SameKey(LargeDir(cfg) + "/", s.records[i].no, s.records[j].no);
    }
  }
}
