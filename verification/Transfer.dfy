/** A node fetching a file it was told of: the worker loop, and DownloadFromPeer. */
module Transfer {
  import opened Types
  import Text
  import Index
  import Protocol
  import Replica
  import Haystack
  import SmallFileName

  datatype OnDisk = OnDisk(bytes: Bytes, modified: Stamp)

  /** Disk, index, the queue of log entries, and the queues of files to fetch and to offer. */
  datatype Node = Node(
    disk: map<string, OnDisk>,
    index: Index.State,
    pending: seq<Index.LogEntry>,
    fromPeers: seq<FileInfo>,
    toPeers: seq<FileInfo>)

  function Base(s: Node): Protocol.Node { Protocol.Node(s.index, s.pending, s.toPeers, s.fromPeers) }

  function With(s: Node, base: Protocol.Node): Node {
    Node(s.disk, base.index, base.pending, base.fromPeers, base.toPeers)
  }

  /** What the environment does: the body arrives or the transfer fails; a rename of an
      existing file may fail; the time; and how the peers answer if the node offers them its
      own file instead. */
  datatype Net = Net(body: Text.Option<Bytes>, renameFails: bool, now: Stamp, answers: seq<Protocol.Answer>)

  /** An answer for each peer. */
  function Answers(cfg: Config, net: Net): (answers: seq<Protocol.Answer>)
    ensures |answers| == |cfg.peers|
  {
    seq(|cfg.peers|, i requires 0 <= i => if i < |net.answers| then net.answers[i] else Protocol.Lost(false))
  }

  // ---- The steps -----------------------------------------------------------

  /** The retry guard: without a limit the first transfer is still tried. */
  predicate GivesUp(cfg: Config, info: FileInfo) {
    if cfg.retryCount > 0 then info.retry >= cfg.retryCount else info.retry > 0
  }

  /** CheckFileExistByInfo */
  predicate AlreadyThere(cfg: Config, s: Node, info: FileInfo) {
    if info.offSet >= 0 then info.md5 in s.index.ldb && s.index.ldb[info.md5].md5 == info.md5
    else info.DiskPath(cfg) in s.disk && |s.disk[info.DiskPath(cfg)].bytes| == info.size
  }

  /** The format "%s_%s" puts a second underscore behind "tmp_". */
  function TmpName(name: string): string { "tmp_" + "_" + name }

  function TmpPath(cfg: Config, info: FileInfo): string { cfg.dockerDir + info.path + "/" + TmpName(info.OutName()) }

  /** Where postFileToPeer looks for the file: for a small file, its blob. */
  function OfferPath(cfg: Config, info: FileInfo): string {
    if info.reName != "" && info.offSet != WHOLE
    then cfg.dockerDir + (info.path + "/" + Text.Split(info.reName, ',')[0])
    else info.DiskPath(cfg)
  }

  /** The size of what lies there. */
  function Local(cfg: Config, disk: map<string, OnDisk>, info: FileInfo): Text.Option<nat> {
    if OfferPath(cfg, info) in disk then Text.Some(|disk[OfferPath(cfg, info)].bytes|) else Text.None
  }

  /** The node keeps its own copy of a file that may be overwritten, when that is newer. */
  predicate KeepsNewer(cfg: Config, s: Node, info: FileInfo) {
    && (!cfg.distinct || info.offSet == MIGRATED)
    && info.DiskPath(cfg) in s.disk && s.disk[info.DiskPath(cfg)].modified.unix > info.timeStamp.unix
  }

  /** An older copy is deleted before the transfer starts. */
  function WithoutOlder(cfg: Config, s: Node, info: FileInfo): Node {
    if !cfg.distinct || info.offSet == MIGRATED then s.(disk := s.disk - {info.DiskPath(cfg)}) else s
  }

  function Requeue(s: Node, info: FileInfo): Node { s.(fromPeers := s.fromPeers + [info]) }

  /** os.Rename(tmp, path): it fails when there is no such file. */
  function Rename(disk: map<string, OnDisk>, tmp: string, path: string, fails: bool): (map<string, OnDisk>, bool) {
    if tmp !in disk || fails then (disk, false) else ((disk - {tmp})[path := disk[tmp]], true)
  }

  /** The branch for migrated files: a temporary file of the wrong size is removed, and
      then renaming it fails. */
  function FetchMigrated(cfg: Config, s: Node, info: FileInfo, net: Net): Node {
    var path, tmp := info.DiskPath(cfg), TmpPath(cfg, info);
    if path in s.disk && |s.disk[path].bytes| == info.size
    then s.(index := Index.PutIndex(s.index, info.md5, info)) else
    if net.body.None? then Requeue(s.(disk := s.disk - {tmp}), info) else
    var written := s.disk[tmp := OnDisk(net.body.value, net.now)];
    var checked := if |net.body.value| != info.size then written - {tmp} else written;
    var (disk, renamed) := Rename(checked, tmp, path, net.renameFails);
    s.(disk := disk, index := if renamed then Index.PutIndex(s.index, info.md5, info) else s.index)
  }

  function Blob(disk: map<string, OnDisk>, path: string): Bytes { if path in disk then disk[path].bytes else [] }

  /** The branch for small files inside blobs. */
  function FetchSmall(cfg: Config, s: Node, info: FileInfo, net: Net): Node
    requires info.offSet >= 0
  {
    if net.body.None? then Requeue(s, info) else
    var data := [Haystack.MARKER] + net.body.value;
    if |data| != info.size then s else
    var path := Text.Split(info.DiskPath(cfg), ',')[0];
    s.(disk := s.disk[path := OnDisk(Replica.WriteAt(Blob(s.disk, path), info.offSet, data), net.now)],
       pending := s.pending + [Index.LogEntry(info, Index.Files)])
  }

  function FetchWhole(cfg: Config, s: Node, info: FileInfo, net: Net): Node {
    var path, tmp := info.DiskPath(cfg), TmpPath(cfg, info);
    if net.body.None? then Requeue(s.(disk := s.disk - {tmp}), info) else
    var written := s.disk[tmp := OnDisk(net.body.value, net.now)];
    if |net.body.value| != info.size then s.(disk := written - {tmp}) else
    var (disk, renamed) := Rename(written, tmp, path, net.renameFails);
    s.(disk := disk, pending := if renamed then s.pending + [Index.LogEntry(info, Index.Files)] else s.pending)
  }

  function Fetch(cfg: Config, s: Node, info: FileInfo, net: Net): Node {
    if info.offSet == MIGRATED then FetchMigrated(cfg, s, info, net)
    else if info.offSet >= 0 then FetchSmall(cfg, s, info, net)
    else FetchWhole(cfg, s, info, net)
  }

  /** The record as it is once an attempt has started. */
  function Tried(info: FileInfo): FileInfo { info.(retry := info.retry + 1) }

  /** The file is neither refused, nor there already, nor newer here. */
  predicate Attempts(cfg: Config, s: Node, info: FileInfo) {
    && !cfg.readOnly && !GivesUp(cfg, info)
    && !(info.offSet != MIGRATED && cfg.distinct && AlreadyThere(cfg, s, info))
    && !KeepsNewer(cfg, s, info)
  }

  /** The record that is offered when the node keeps its own, newer file. */
  function Newer(cfg: Config, s: Node, info: FileInfo): FileInfo
    requires info.DiskPath(cfg) in s.disk
  {
    info.(timeStamp := s.disk[info.DiskPath(cfg)].modified)
  }

  /** The call of postFileToPeer for it. */
  function Offer(cfg: Config, s: Node, info: FileInfo, net: Net): Protocol.Posted
    requires info.DiskPath(cfg) in s.disk
  {
    var newer := Newer(cfg, s, info);
    Protocol.Posting(cfg, Base(s), newer, Local(cfg, s.disk, newer), Answers(cfg, net), |cfg.peers|)
  }

  /** DownloadFromPeer */
  function Download(cfg: Config, s: Node, info: FileInfo, net: Net): Node {
    if cfg.readOnly || GivesUp(cfg, info) then s else
    var tried := Tried(info);
    if info.offSet != MIGRATED && cfg.distinct && AlreadyThere(cfg, s, tried) then s else
    if KeepsNewer(cfg, s, tried) then With(s, Offer(cfg, s, tried, net).node)
    else Fetch(cfg, WithoutOlder(cfg, s, tried), tried, net)
  }

  /** What becomes of the caller's record. */
  function After(cfg: Config, s: Node, info: FileInfo, net: Net): FileInfo {
    if cfg.readOnly || GivesUp(cfg, info) then info
    else if info.offSet != MIGRATED && cfg.distinct && AlreadyThere(cfg, s, Tried(info)) then Tried(info)
    else if KeepsNewer(cfg, s, Tried(info)) then Offer(cfg, s, Tried(info), net).info
    else Tried(info)
  }

  // ---- The worker ----------------------------------------------------------

  predicate HasAt(s: string, sub: string, i: nat)
    requires i <= |s|
  {
    sub <= s[i..]
  }

  /** strings.Contains */
  predicate Contains(s: string, sub: string) { exists i :: 0 <= i <= |s| && HasAt(s, sub, i) }

  predicate Usable(cfg: Config, peer: string) { !Contains(peer, "127.0.0.1") && peer != cfg.host }

  /** Only the first usable peer of the list is asked. */
  function PeerOf(cfg: Config, peers: seq<string>): Text.Option<string> {
    if peers == [] then Text.None
    else if Usable(cfg, peers[0]) then Text.Some(peers[0])
    else PeerOf(cfg, peers[1..])
  }

  /** No peer before the one asked can be used; a peer can be if its name has no loopback address
      and is not the node's own. */
  lemma {:induction false} FirstUsable(cfg: Config, peers: seq<string>)
    ensures match PeerOf(cfg, peers)
            case None => forall p :: p in peers ==> Contains(p, "127.0.0.1") || p == cfg.host
            case Some(peer) => exists i ::
              && 0 <= i < |peers| && peers[i] == peer && !Contains(peer, "127.0.0.1") && peer != cfg.host
              && forall j :: 0 <= j < i ==> Contains(peers[j], "127.0.0.1") || peers[j] == cfg.host
  {
    hide Contains;
    if peers != [] && !Usable(cfg, peers[0]) {
      FirstUsable(cfg, peers[1..]);
      if PeerOf(cfg, peers).Some? {
        var i :| 0 <= i < |peers| - 1 && peers[1..][i] == PeerOf(cfg, peers).value
                 && forall j :: 0 <= j < i ==> Contains(peers[1..][j], "127.0.0.1") || peers[1..][j] == cfg.host;
        assert peers[i + 1] == PeerOf(cfg, peers).value;
        forall j | 0 <= j < i + 1 ensures Contains(peers[j], "127.0.0.1") || peers[j] == cfg.host {
          if j > 0 { assert peers[1..][j - 1] == peers[j]; }
        }
      }
    }
  }

  /** One turn of the worker: the network's behaviour may depend on the peer asked. */
  function Consume(cfg: Config, s: Node, net: string -> Net): Node {
    if s.fromPeers == [] then s else
    var rest := s.(fromPeers := s.fromPeers[1..]);
    match PeerOf(cfg, s.fromPeers[0].peers)
    case None => rest
    case Some(peer) => Download(cfg, rest, s.fromPeers[0], net(peer))
  }

  class Receiver {
    var disk: map<string, OnDisk>
    const server: Protocol.Server

    constructor (today: nat)
      ensures fresh(server) && Value() == Node(map[], Index.Initial(today), [], [], [])
    {
      disk := map[];
      server := new Protocol.Server(today);
    }

    function Value(): Node
      reads this, server
    {
      Node(disk, server.index, server.pending, server.fromPeers, server.toPeers)
    }

    method DownloadFromPeer(cfg: Config, f: FileInfoRef, net: Net)
      modifies this, server, f
      ensures Value() == Download(cfg, old(Value()), old(f.info), net)
      ensures f.info == After(cfg, old(Value()), old(f.info), net)
    {
      hide FileInfo.DiskPath, TmpPath, Index.PutIndex, AlreadyThere, Replica.WriteAt, Text.Split;
      if cfg.readOnly { return; }
      if cfg.retryCount > 0 {
        if f.info.retry >= cfg.retryCount { return; }
      } else if f.info.retry > 0 { return; }
      f.info := Tried(f.info);
      if f.info.offSet != MIGRATED && cfg.distinct && AlreadyThere(cfg, Value(), f.info) { return; }
      if (!cfg.distinct || f.info.offSet == MIGRATED) && f.info.DiskPath(cfg) in disk {
        if disk[f.info.DiskPath(cfg)].modified.unix > f.info.timeStamp.unix {
          f.info := f.info.(timeStamp := disk[f.info.DiskPath(cfg)].modified);
          server.PostFileToPeer(cfg, f, Local(cfg, disk, f.info), Answers(cfg, net));
          return;
        }
        disk := disk - {f.info.DiskPath(cfg)};
      }
      assert Value() == WithoutOlder(cfg, old(Value()), f.info);
      if f.info.offSet == MIGRATED {
        DownloadMigrated(cfg, f.info, net);
      } else if f.info.offSet >= 0 {
        DownloadSmall(cfg, f.info, net);
      } else {
        DownloadWhole(cfg, f.info, net);
      }
    }

    method DownloadMigrated(cfg: Config, info: FileInfo, net: Net)
      modifies this, server
      ensures Value() == FetchMigrated(cfg, old(Value()), info, net)
    {
      hide FileInfo.DiskPath, TmpPath, Index.PutIndex;
      var fpath, tmp := info.DiskPath(cfg), TmpPath(cfg, info);
      if fpath in disk && |disk[fpath].bytes| == info.size {
        server.index := Index.PutIndex(server.index, info.md5, info);
        return;
      }
      if net.body.None? {
        server.fromPeers := server.fromPeers + [info];
        disk := disk - {tmp};
        return;
      }
      disk := disk[tmp := OnDisk(net.body.value, net.now)];
      if |disk[tmp].bytes| != info.size {
        disk := disk - {tmp};
      }
      if tmp in disk && !net.renameFails {
        disk := (disk - {tmp})[fpath := disk[tmp]];
        server.index := Index.PutIndex(server.index, info.md5, info);
      }
    }

    method DownloadSmall(cfg: Config, info: FileInfo, net: Net)
      requires info.offSet >= 0
      modifies this, server
      ensures Value() == FetchSmall(cfg, old(Value()), info, net)
    {
      hide FileInfo.DiskPath, Replica.WriteAt, Text.Split;
      if net.body.None? {
        server.fromPeers := server.fromPeers + [info];
        return;
      }
      var data2 := new Byte[|net.body.value| + 1];
      data2[0] := Haystack.MARKER;
      var i := 0;
      while i < |net.body.value|
        invariant 0 <= i <= |net.body.value| && Value() == old(Value())
        invariant data2[0] == Haystack.MARKER
        invariant forall k :: 0 <= k < i ==> data2[k + 1] == net.body.value[k]
      {
        data2[i + 1] := net.body.value[i];
        i := i + 1;
      }
      var data := data2[..];
      assert data == [Haystack.MARKER] + net.body.value;
      if |data| != info.size { return; }
      var fpath := Text.Split(info.DiskPath(cfg), ',')[0];
      disk := disk[fpath := OnDisk(Replica.WriteAt(Blob(disk, fpath), info.offSet, data), net.now)];
      server.pending := server.pending + [Index.LogEntry(info, Index.Files)];
    }

    method DownloadWhole(cfg: Config, info: FileInfo, net: Net)
      modifies this, server
      ensures Value() == FetchWhole(cfg, old(Value()), info, net)
    {
      hide FileInfo.DiskPath, TmpPath;
      var fpath, tmp := info.DiskPath(cfg), TmpPath(cfg, info);
      if net.body.None? {
        server.fromPeers := server.fromPeers + [info];
        disk := disk - {tmp};
        return;
      }
      disk := disk[tmp := OnDisk(net.body.value, net.now)];
      if |disk[tmp].bytes| != info.size {
        disk := disk - {tmp};
        return;
      }
      if !net.renameFails {
        disk := (disk - {tmp})[fpath := disk[tmp]];
        server.pending := server.pending + [Index.LogEntry(info, Index.Files)];
      }
    }

    method ConsumerDownLoad(cfg: Config, net: string -> Net)
      modifies this, server
      ensures Value() == Consume(cfg, old(Value()), net)
    {
      hide Download, Usable;
      if server.fromPeers == [] { return; }
      var f := new FileInfoRef(server.fromPeers[0]);
      server.fromPeers := server.fromPeers[1..];
      var peers := f.info.peers;
      var i := 0;
      while i < |peers|
        invariant 0 <= i <= |peers|
        invariant Value() == old(Value()).(fromPeers := old(server.fromPeers)[1..])
        invariant f.info == old(server.fromPeers)[0]
        invariant PeerOf(cfg, peers) == PeerOf(cfg, peers[i..])
      {
        if Usable(cfg, peers[i]) {
          DownloadFromPeer(cfg, f, net(peers[i]));
          return;
        }
        i := i + 1;
      }
    }
  }

  // ---- Where the offering node looks ---------------------------------------

  /** A small file is offered if its blob is there, and any other if it is itself. */
  lemma OfferFindsBlob(cfg: Config, peerId: string, r: Haystack.Record)
    requires Haystack.Named(peerId, r)
    ensures OfferPath(cfg, r.info) == r.Key(cfg)
    ensures forall e: FileInfo :: e.offSet == WHOLE ==> OfferPath(cfg, e) == e.DiskPath(cfg)
  {
    hide Text.PrintNat, Text.Split, Text.PrintInt, FileInfo.DiskPath;
    var blob := Text.PrintNat(r.no);
    var ext := Haystack.ExtOf(peerId, r);
    Haystack.PlainNat(r.no);
    var rest := SmallFileName.Field(Text.PrintInt(r.info.size), ext);
    var fields := SmallFileName.Field(Text.PrintInt(r.info.offSet), rest);
    assert r.info.reName == blob + [','] + fields;
    Text.SplitField(blob, fields, ',');
    assert cfg.dockerDir + (r.info.path + "/" + blob) == cfg.dockerDir + r.info.path + "/" + blob;
  }

  // ---- Publication ---------------------------------------------------------

  /** The whole file of the record is in place: under its path, with the announced size. */
  predicate InPlace(cfg: Config, s: Node, info: FileInfo) {
    info.DiskPath(cfg) in s.disk && |s.disk[info.DiskPath(cfg)].bytes| == info.size
  }

  lemma TmpIsOther(cfg: Config, info: FileInfo)
    ensures TmpPath(cfg, info) != info.DiskPath(cfg)
    ensures Tried(info).DiskPath(cfg) == info.DiskPath(cfg) && TmpPath(cfg, Tried(info)) == TmpPath(cfg, info)
  {
    assert |TmpPath(cfg, info)| == |info.DiskPath(cfg)| + 5;
  }

  /** What an attempt for a whole file leads to. It is published and recorded exactly when
      a body of the announced size arrived and was renamed; otherwise the path holds what
      was there, or nothing if that was an older copy. No other path changes, save that of
      the temporary file, which stays only if the rename failed. */
  lemma WholeFileAllOrNothing(cfg: Config, s: Node, info: FileInfo, net: Net)
    requires Attempts(cfg, s, info) && info.offSet < 0 && info.offSet != MIGRATED
    ensures var t, path, tmp := Download(cfg, s, info, net), info.DiskPath(cfg), TmpPath(cfg, info);
      && (if net.body.Some? && |net.body.value| == info.size && !net.renameFails
          then path in t.disk && t.disk[path].bytes == net.body.value
               && t.pending == s.pending + [Index.LogEntry(Tried(info), Index.Files)]
          else t.pending == s.pending
               && (if cfg.distinct && path in s.disk
                   then path in t.disk && t.disk[path] == s.disk[path] else path !in t.disk))
      && t.index == s.index && t.toPeers == s.toPeers
      && t.fromPeers == (if net.body.None? then s.fromPeers + [Tried(info)] else s.fromPeers)
      && (tmp in t.disk ==> net.body.Some? && |net.body.value| == info.size && net.renameFails)
      && (forall p :: p != path && p != tmp ==>
          (p in t.disk <==> p in s.disk) && (p in s.disk ==> t.disk[p] == s.disk[p]))
  {
    hide FileInfo.DiskPath, TmpPath;
    TmpIsOther(cfg, info);
  }

  /** The same for a migrated file, whose record goes straight to the index, although its
      branch does not return when the size is wrong: the temporary file is gone by then. */
  lemma MigratedAllOrNothing(cfg: Config, s: Node, info: FileInfo, net: Net)
    requires Attempts(cfg, s, info) && info.offSet == MIGRATED
    ensures var t, path, tmp := Download(cfg, s, info, net), info.DiskPath(cfg), TmpPath(cfg, info);
      && (if net.body.Some? && |net.body.value| == info.size && !net.renameFails
          then path in t.disk && t.disk[path].bytes == net.body.value
               && t.index == Index.PutIndex(s.index, info.md5, Tried(info))
          else t.index == s.index && path !in t.disk)
      && t.pending == s.pending && t.toPeers == s.toPeers
      && t.fromPeers == (if net.body.None? then s.fromPeers + [Tried(info)] else s.fromPeers)
      && (tmp in t.disk ==> net.body.Some? && |net.body.value| == info.size && net.renameFails)
      && (forall p :: p != path && p != tmp ==>
          (p in t.disk <==> p in s.disk) && (p in s.disk ==> t.disk[p] == s.disk[p]))
  {
    hide FileInfo.DiskPath, TmpPath, Index.PutIndex;
    TmpIsOther(cfg, info);
  }

  /** A small file is recorded exactly when a body of the announced size arrived, and then
      its blob holds the marker and the body in the announced place. */
  lemma SmallFileAllOrNothing(cfg: Config, s: Node, info: FileInfo, net: Net)
    requires Attempts(cfg, s, info) && info.offSet >= 0
    ensures var t, path := Download(cfg, s, info, net), Text.Split(info.DiskPath(cfg), ',')[0];
      var disk := WithoutOlder(cfg, s, info).disk;
      && (if net.body.Some? && |net.body.value| + 1 == info.size
          then path in t.disk && info.offSet + info.size <= |t.disk[path].bytes|
               && t.disk[path].bytes[info.offSet..info.offSet + info.size] == [Haystack.MARKER] + net.body.value
               && t.pending == s.pending + [Index.LogEntry(Tried(info), Index.Files)]
               && t.disk == disk[path := t.disk[path]]
          else t.pending == s.pending && t.disk == disk)
      && t.index == s.index && t.toPeers == s.toPeers
      && t.fromPeers == (if net.body.None? then s.fromPeers + [Tried(info)] else s.fromPeers)
  {
    hide FileInfo.DiskPath, TmpPath, Text.Split;
    TmpIsOther(cfg, info);
  }

  function BytesOf(disk: map<string, OnDisk>): Haystack.Blobs { map p | p in disk :: disk[p].bytes }

  /** What the branch does to the bytes on disk is what the replica of a haystack does. */
  lemma FetchSmallReceives(cfg: Config, s: Node, info: FileInfo, net: Net)
    requires info.offSet >= 0 && net.body.Some?
    ensures BytesOf(FetchSmall(cfg, s, info, net).disk) == Replica.Receive(cfg, BytesOf(s.disk), info, net.body.value)
  {
    hide Text.Split, Replica.WriteAt, FileInfo.DiskPath;
    var path := Text.Split(info.DiskPath(cfg), ',')[0];
    assert Haystack.At(BytesOf(s.disk), path) == Blob(s.disk, path);
  }

  // ---- What is recorded ----------------------------------------------------

  /** The record is in the index, or about to be. */
  predicate Recorded(s: Node, e: FileInfo) {
    || Index.LogEntry(e, Index.Files) in s.pending
    || exists k :: k in s.index.ldb && s.index.ldb[k] == e
  }

  /** The call offers the node's own, newer file to its peers. */
  predicate KeepsOwn(cfg: Config, s: Node, info: FileInfo) {
    && !cfg.readOnly && !GivesUp(cfg, info)
    && !(info.offSet != MIGRATED && cfg.distinct && AlreadyThere(cfg, s, Tried(info)))
    && KeepsNewer(cfg, s, Tried(info))
  }

  /** In doing so it may record the announced size for a file that has another one: some peer
      is not named yet, and may take the offer. */
  predicate Misrecords(cfg: Config, s: Node, info: FileInfo) {
    && KeepsOwn(cfg, s, info) && info.offSet < 0
    && (exists p :: p in cfg.peers && p !in info.peers)
    && var local := Local(cfg, s.disk, info);
    local.Some? && Protocol.Measured(info, local.value).size != |s.disk[info.DiskPath(cfg)].bytes|
  }

  lemma SamePath(cfg: Config, i: FileInfo, e: FileInfo)
    requires Protocol.Like(e.(timeStamp := i.timeStamp), i)
    ensures e.DiskPath(cfg) == i.DiskPath(cfg) && OfferPath(cfg, e) == OfferPath(cfg, i) && e.offSet == i.offSet
  {
  }

  /** What the call of postFileToPeer leaves: the disk as it was, and in the index at most one
      record more, of the file's own size if none was announced. */
  lemma OwnRecorded(cfg: Config, s: Node, info: FileInfo, net: Net)
    requires KeepsOwn(cfg, s, info)
    ensures var t, local := Download(cfg, s, info, net), Local(cfg, s.disk, info);
      && t.disk == s.disk && t.fromPeers == s.fromPeers && s.pending <= t.pending
      && forall e :: Recorded(t, e) && !Recorded(s, e) ==>
           && local.Some? && e.size == Protocol.Measured(info, local.value).size
           && Protocol.Like(e.(timeStamp := info.timeStamp), info)
           && exists p :: p in cfg.peers && p !in info.peers
  {
    hide FileInfo.DiskPath, Protocol.Posting, OfferPath;
    var tried, local := Tried(info), Local(cfg, s.disk, info);
    var newer, answers, n := Newer(cfg, s, tried), Answers(cfg, net), |cfg.peers|;
    SamePath(cfg, info, newer);
    Protocol.PostingIndexed(cfg, Base(s), newer, local, answers, n);
    Protocol.PostingLogs(cfg, Base(s), newer, local, answers, n);
    Protocol.PostingFetchesNothing(cfg, Base(s), newer, local, answers, n);
    var p := Protocol.Posting(cfg, Base(s), newer, local, answers, n);
    if p.info.peers != newer.peers {
      var q := p.info.peers[|newer.peers|];
      OneMore(cfg, s, newer, local, answers, p.info);
    }
  }

  lemma OneMore(cfg: Config, s: Node, info: FileInfo, local: Text.Option<nat>, answers: seq<Protocol.Answer>,
                after: FileInfo)
    requires |answers| == |cfg.peers|
    requires after == Protocol.Posting(cfg, Base(s), info, local, answers, |cfg.peers|).info
    requires after.peers != info.peers
    ensures exists p :: p in cfg.peers && p !in info.peers
  {
    hide Protocol.Posting;
    if forall p :: p in cfg.peers ==> p in info.peers {
      NoMore(cfg, Base(s), info, local, answers, |cfg.peers|);
    }
  }

  lemma {:induction false} NoMore(cfg: Config, s: Protocol.Node, info: FileInfo, local: Text.Option<nat>,
                                  answers: seq<Protocol.Answer>, n: nat)
    requires n <= |cfg.peers| == |answers| && forall p :: p in cfg.peers ==> p in info.peers
    ensures Protocol.Posting(cfg, s, info, local, answers, n) == Protocol.Posted(s, info)
  {
    if n > 0 {
      NoMore(cfg, s, info, local, answers, n - 1);
      assert cfg.peers[n - 1] in cfg.peers;
    }
  }

  /** Whatever a call does that does not misrecord, a new record of a whole file is of one
      that is in place. */
  lemma RecordedOnlyInPlace(cfg: Config, s: Node, info: FileInfo, net: Net, e: FileInfo)
    requires !Misrecords(cfg, s, info) && e.offSet < 0
    requires Recorded(Download(cfg, s, info, net), e) && !Recorded(s, e)
    ensures InPlace(cfg, Download(cfg, s, info, net), e)
  {
    hide FileInfo.DiskPath, TmpPath, Index.PutIndex, Offer, Text.Split, Replica.WriteAt, Local;
    TmpIsOther(cfg, info);
    if KeepsOwn(cfg, s, info) {
      hide Download;
      OwnRecorded(cfg, s, info, net);
      SamePath(cfg, info, e);
    } else {
      FetchRecorded(cfg, s, info, net, e);
    }
  }

  lemma FetchRecorded(cfg: Config, s: Node, info: FileInfo, net: Net, e: FileInfo)
    requires !KeepsOwn(cfg, s, info) && Recorded(Download(cfg, s, info, net), e) && !Recorded(s, e)
    ensures var t := Download(cfg, s, info, net);
      && Attempts(cfg, s, info) && (e == Tried(info) || e == Index.Stored(Tried(info)))
      && e.DiskPath(cfg) == info.DiskPath(cfg)
      && (e.offSet < 0 ==> info.DiskPath(cfg) in t.disk && |t.disk[info.DiskPath(cfg)].bytes| == info.size)
  {
    hide FileInfo.DiskPath, TmpPath, Text.Split, Replica.WriteAt, Offer;
    TmpIsOther(cfg, info);
    SamePath(cfg, info, e);
  }

  // ---- Which of two copies survives ----------------------------------------

  /** The node has a file under the record's path that may be overwritten, may write, and has
      tries left for the record. */
  predicate Meets(cfg: Config, s: Node, info: FileInfo) {
    && !cfg.readOnly && (!cfg.distinct || info.offSet == MIGRATED)
    && (if cfg.retryCount > 0 then info.retry < cfg.retryCount else info.retry <= 0)
    && info.DiskPath(cfg) in s.disk
  }

  /** A file of a later time than the record survives, and with it everything else on disk. It is
      what is offered then: all that is queued, logged or indexed anew carries that file's time,
      and the index names each peer that has or takes it, if the offer finds the file. */
  lemma NewerSurvives(cfg: Config, s: Node, info: FileInfo, net: Net)
    requires Meets(cfg, s, info) && s.disk[info.DiskPath(cfg)].modified.unix > info.timeStamp.unix
    ensures var t, own := Download(cfg, s, info, net), s.disk[info.DiskPath(cfg)].modified;
      && t.disk == s.disk && t.fromPeers == s.fromPeers
      && (forall e :: e in t.pending ==> e in s.pending || (e.info.timeStamp == own && e.info.md5 == info.md5))
      && (forall e :: e in t.toPeers ==> e in s.toPeers || (e.timeStamp == own && e.md5 == info.md5))
      && (forall k :: k in t.index.ldb ==>
            || (k in s.index.ldb && t.index.ldb[k] == s.index.ldb[k])
            || (k == info.md5 && t.index.ldb[k].timeStamp == own))
      && (Local(cfg, s.disk, info).Some? ==>
            forall i ::
              0 <= i < |cfg.peers| && cfg.peers[i] !in info.peers && Protocol.Answers(Answers(cfg, net)[i]) ==>
              && info.md5 in t.index.ldb && cfg.peers[i] in t.index.ldb[info.md5].peers
              && t.index.ldb[info.md5].timeStamp == own)
      && After(cfg, s, info, net).timeStamp == own && After(cfg, s, info, net).md5 == info.md5
  {
    hide FileInfo.DiskPath, Protocol.Posting, OfferPath, Answers;
    TmpIsOther(cfg, info);
    var newer, answers, n := Newer(cfg, s, Tried(info)), Answers(cfg, net), |cfg.peers|;
    var local := Local(cfg, s.disk, newer);
    SamePath(cfg, info, newer);
    assert Download(cfg, s, info, net) == With(s, Protocol.Posting(cfg, Base(s), newer, local, answers, n).node);
    Protocol.PostingIndexed(cfg, Base(s), newer, local, answers, n);
    Protocol.PostingCarries(cfg, Base(s), newer, local, answers, n);
    Protocol.PostingFetchesNothing(cfg, Base(s), newer, local, answers, n);
    forall i | 0 <= i < n && cfg.peers[i] !in info.peers && Protocol.Answers(answers[i])
      ensures local.Some? ==> cfg.peers[i] in Protocol.Posting(cfg, Base(s), newer, local, answers, n).info.peers
    {
      Protocol.PostingNames(cfg, Base(s), newer, local, answers, n, cfg.peers[i]);
    }
  }

  /** A file that is not of a later time does not survive: afterwards there is nothing under the
      path, or what the transfer brought. */
  lemma OlderIsReplaced(cfg: Config, s: Node, info: FileInfo, net: Net)
    requires Meets(cfg, s, info) && s.disk[info.DiskPath(cfg)].modified.unix <= info.timeStamp.unix
    ensures var t, path := Download(cfg, s, info, net), info.DiskPath(cfg);
      path in t.disk ==>
        && net.body.Some? && t.disk[path].modified == net.now
        && t.disk[path].bytes ==
             if info.offSet >= 0 then Replica.WriteAt([], info.offSet, [Haystack.MARKER] + net.body.value)
             else net.body.value
    ensures After(cfg, s, info, net) == info.(retry := info.retry + 1)
  {
    hide FileInfo.DiskPath, TmpPath, Index.PutIndex, Text.Split, Replica.WriteAt;
    TmpIsOther(cfg, info);
  }

  /** A node that may not write, or has used up its tries, does nothing at all. */
  lemma NothingIsTried(cfg: Config, s: Node, info: FileInfo, net: Net)
    requires cfg.readOnly || (if cfg.retryCount > 0 then info.retry >= cfg.retryCount else info.retry > 0)
    ensures Download(cfg, s, info, net) == s && After(cfg, s, info, net) == info
  {
  }

  /** With copies unified, a file of the announced size under the path is taken for the one
      announced, whatever its time is, and so is a small file that is indexed. */
  lemma TakenForIt(cfg: Config, s: Node, info: FileInfo, net: Net)
    requires cfg.distinct && info.offSet != MIGRATED
    requires if info.offSet >= 0 then info.md5 in s.index.ldb && s.index.ldb[info.md5].md5 == info.md5
             else info.DiskPath(cfg) in s.disk && |s.disk[info.DiskPath(cfg)].bytes| == info.size
    ensures Download(cfg, s, info, net) == s
  {
    hide FileInfo.DiskPath;
    TmpIsOther(cfg, info);
  }

  /** In all other cases the file is requested: the node may write and has tries left; and if
      copies are unified and the file was not migrated, it is not there already, and otherwise
      there is none under its path that is newer. */
  lemma RequestedIff(cfg: Config, s: Node, info: FileInfo)
    ensures Attempts(cfg, s, info) <==>
              && !cfg.readOnly && (if cfg.retryCount > 0 then info.retry < cfg.retryCount else info.retry <= 0)
              && if cfg.distinct && info.offSet != MIGRATED then
                   if info.offSet >= 0 then !(info.md5 in s.index.ldb && s.index.ldb[info.md5].md5 == info.md5)
                   else !(info.DiskPath(cfg) in s.disk && |s.disk[info.DiskPath(cfg)].bytes| == info.size)
                 else info.DiskPath(cfg) in s.disk ==>
                        s.disk[info.DiskPath(cfg)].modified.unix <= info.timeStamp.unix
  {
    hide FileInfo.DiskPath;
  }

  /** The worker takes the first record out of its queue. It is put back, at the end, only if it
      was requested from a peer and the transfer failed; if nobody can be asked for it, it is
      dropped. */
  lemma ConsumesHead(cfg: Config, s: Node, net: string -> Net)
    requires s.fromPeers != []
    ensures var t, info := Consume(cfg, s, net), s.fromPeers[0];
      && (t.fromPeers == s.fromPeers[1..] || t.fromPeers == s.fromPeers[1..] + [info.(retry := info.retry + 1)])
      && (t.fromPeers != s.fromPeers[1..] <==>
            Attempts(cfg, s, info) && exists p :: PeerOf(cfg, info.peers) == Text.Some(p) && net(p).body.None?)
      && (PeerOf(cfg, info.peers).None? ==> t == s.(fromPeers := s.fromPeers[1..]))
  {
    hide FileInfo.DiskPath, Download, PeerOf;
    var rest, info := s.(fromPeers := s.fromPeers[1..]), s.fromPeers[0];
    match PeerOf(cfg, info.peers)
    case None =>
    case Some(p) => PutBackIff(cfg, rest, info, net(p));
  }

  // ---- Attempts ------------------------------------------------------------

  function Max(a: int, b: int): int { if a > b then a else b }

  /** The call puts the record back into the download queue. */
  predicate PutsBack(cfg: Config, s: Node, info: FileInfo, net: Net) {
    Download(cfg, s, info, net).fromPeers != s.fromPeers
  }

  lemma PutBackIff(cfg: Config, s: Node, info: FileInfo, net: Net)
    ensures PutsBack(cfg, s, info, net) <==> Attempts(cfg, s, info) && net.body.None?
    ensures PutsBack(cfg, s, info, net) ==> Download(cfg, s, info, net).fromPeers == s.fromPeers + [Tried(info)]
  {
    hide FileInfo.DiskPath, TmpPath, Index.PutIndex, Text.Split, Replica.WriteAt, Protocol.Posting;
    TmpIsOther(cfg, info);
    if KeepsOwn(cfg, s, info) { OwnRecorded(cfg, s, info, net); }
    assert s.fromPeers + [Tried(info)] != s.fromPeers by { assert |s.fromPeers + [Tried(info)]| > |s.fromPeers|; }
  }

  /** What was met when the record was taken from the queue. */
  datatype Visit = Visit(s: Node, net: Net)

  /** The life of one queue item: every visit but the last puts the record back, and the
      next visit finds it as it was put back. */
  predicate Life(cfg: Config, info: FileInfo, visits: seq<Visit>)
    decreases |visits|
  {
    visits == [] ||
    (visits[1..] != [] ==> PutsBack(cfg, visits[0].s, info, visits[0].net) && Life(cfg, Tried(info), visits[1..]))
  }

  function AttemptsIn(cfg: Config, info: FileInfo, visits: seq<Visit>): nat
    decreases |visits|
  {
    if visits == [] then 0
    else (if Attempts(cfg, visits[0].s, info) then 1 else 0) + AttemptsIn(cfg, Tried(info), visits[1..])
  }

  /** However the transfers fail and whatever the node looks like meanwhile, one item in the
      queue is transferred at most RetryCount times, or once if retries are off. */
  lemma {:induction false} AttemptsBounded(cfg: Config, info: FileInfo, visits: seq<Visit>)
    requires 0 <= info.retry && Life(cfg, info, visits)
    ensures AttemptsIn(cfg, info, visits) <= Max(0, Max(1, cfg.retryCount) - info.retry)
    ensures |visits| <= Max(0, Max(1, cfg.retryCount) - info.retry) + 1
    decreases |visits|
  {
    hide Download, AlreadyThere, KeepsNewer;
    if visits != [] {
      if visits[1..] != [] {
        GivenUpIsNotPutBack(cfg, visits[0].s, info, visits[0].net);
        AttemptsBounded(cfg, Tried(info), visits[1..]);
      } else {
        assert AttemptsIn(cfg, Tried(info), visits[1..]) == 0;
      }
    }
  }

  lemma GivenUpIsNotPutBack(cfg: Config, s: Node, info: FileInfo, net: Net)
    requires PutsBack(cfg, s, info, net)
    ensures !GivesUp(cfg, info)
  {
  }

  /** The bound is met: a file that is missing everywhere is tried exactly that often. */
  lemma {:induction false} AttemptsExact(cfg: Config, s: Node, info: FileInfo, net: Net, visits: seq<Visit>)
    requires !cfg.readOnly && net.body.None? && 0 <= info.retry <= Max(1, cfg.retryCount)
    requires info.DiskPath(cfg) !in s.disk && info.offSet == WHOLE
    requires visits == seq(Max(1, cfg.retryCount) - info.retry + 1, i => Visit(s, net))
    ensures Life(cfg, info, visits) && AttemptsIn(cfg, info, visits) == Max(1, cfg.retryCount) - info.retry
    decreases |visits|
  {
    hide FileInfo.DiskPath, TmpPath, Download;
    var more := seq(Max(1, cfg.retryCount) - info.retry, i => Visit(s, net));
    assert visits[1..] == more;
    TmpIsOther(cfg, info);
    if info.retry < Max(1, cfg.retryCount) {
      PutBackIff(cfg, s, info, net);
      AttemptsExact(cfg, s, Tried(info), net, more);
    } else {
      assert AttemptsIn(cfg, Tried(info), visits[1..]) == 0;
    }
  }
}
