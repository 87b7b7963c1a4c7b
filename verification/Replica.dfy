/** A node that pulls the small files of another one, in any order and as often as it
    likes, into blobs of its own that may have holes. */
module Replica {
  import opened Text
  import opened Types
  import opened DownloadUrl
  import opened Haystack

  /** WriteFileByOffSet: what a write at an offset makes of a file; a gap reads as zeros. */
  function WriteAt(b: Bytes, offset: nat, data: Bytes): (w: Bytes)
    ensures |w| == (if |b| > offset + |data| then |b| else offset + |data|)
    ensures w[offset..offset + |data|] == data
    ensures forall k :: 0 <= k < |w| && !(offset <= k < offset + |data|) ==> w[k] == (if k < |b| then b[k] else 0)
  {
    var head := if offset <= |b| then b[..offset] else b + seq(offset - |b|, _ => 0);
    var tail := if offset + |data| < |b| then b[offset + |data|..] else [];
    assert (head + data + tail)[offset..offset + |data|] == data;
    head + data + tail
  }

  /** The small-file branch of DownloadFromPeer, for a reply that arrived. The blob is the
      record's path up to the first comma; only the length of the reply is checked. */
  function Receive(cfg: Config, blobs: Blobs, info: FileInfo, reply: Bytes): Blobs {
    var data := [MARKER] + reply;
    if |data| != info.size || info.offSet < 0 then blobs else
    var fpath := Split(info.DiskPath(cfg), ',')[0];
    blobs[fpath := WriteAt(At(blobs, fpath), info.offSet, data)]
  }

  // ---- The primary and one replica -----------------------------------------

  datatype Pair = Pair(primary: Primary, replica: Blobs, applied: set<nat>)

  /** An append at the primary, the transfer of a record as the primary serves it at that
      moment, or the arrival of anything else, such as a page that reports an error. */
  datatype Event = Append(op: Save) | Pull(i: nat) | Garbled(i: nat, reply: Bytes)

  /** The two nodes may keep their stores in different places. */
  datatype Nodes = Nodes(source: Config, target: Config)

  ghost predicate Enabled(n: Nodes, s: Pair, e: Event) {
    match e
    case Append(op) => Admits(n.source, s.primary, op)
    case Pull(i) =>
      && i < |s.primary.records|
      && Servable(n.source, n.source.peerId, s.primary.records[i].info)
      && Servable(n.target, n.source.peerId, s.primary.records[i].info)
    case Garbled(i, reply) =>
      // a reply of the announced length is not told from the content
      i < |s.primary.records| && |reply| + 1 != s.primary.records[i].info.size
  }

  function Next(n: Nodes, s: Pair, e: Event): Pair {
    match e
    case Append(op) => s.(primary := Step(n.source, s.primary, op))
    case Pull(i) =>
      if i < |s.primary.records| && ResultURI(n.source, s.primary.records[i].info) != "" then
        match Download(n.source, s.primary.blobs, ResultURI(n.source, s.primary.records[i].info))
        case Content(bytes) =>
          s.(replica := Receive(n.target, s.replica, s.primary.records[i].info, bytes), applied := s.applied + {i})
        case _ => s
      else s
    case Garbled(i, reply) =>
      if i < |s.primary.records| then s.(replica := Receive(n.target, s.replica, s.primary.records[i].info, reply))
      else s
  }

  function Replay(n: Nodes, events: seq<Event>): Pair {
    if events == [] then Pair(Primary(map[], []), map[], {})
    else Next(n, Replay(n, events[..|events| - 1]), events[|events| - 1])
  }

  ghost predicate Possible(n: Nodes, events: seq<Event>) {
    events != [] ==>
      Possible(n, events[..|events| - 1]) && Enabled(n, Replay(n, events[..|events| - 1]), events[|events| - 1])
  }

  // ---- The invariant -------------------------------------------------------

  predicate Covers(r: Record, k: int) { r.info.offSet <= k < r.End() }

  /** Position k of the blob belongs to a record that was applied. */
  ghost predicate Applied(n: Nodes, s: Pair, key: string, k: int) {
    exists i :: i in s.applied && i < |s.primary.records|
             && s.primary.records[i].Key(n.target) == key && Covers(s.primary.records[i], k)
  }

  /** A blob of the replica ends where its last applied record ends, and is zero wherever
      no applied record lies. */
  ghost predicate BlobInv(n: Nodes, s: Pair, key: string)
    requires key in s.replica
  {
    && |s.replica[key]| > 0
    && Applied(n, s, key, |s.replica[key]| - 1)
    && (forall k :: 0 <= k < |s.replica[key]| ==> Applied(n, s, key, k) || s.replica[key][k] == 0)
  }

  ghost predicate PairInv(n: Nodes, s: Pair) {
    && Inv(n.source, s.primary)
    && (forall i :: i in s.applied ==>
          i < |s.primary.records| && Holds(s.replica, s.primary.records[i].Key(n.target), s.primary.records[i]))
    && (forall key :: key in s.replica ==> BlobInv(n, s, key))
  }

  lemma TargetKeys(n: Nodes, a: Record, b: Record)
    requires Named(n.source.peerId, a) && Named(n.source.peerId, b)
    ensures a.Key(n.target) == b.Key(n.target) <==> a.no == b.no
  {
    SameKey(n.target.dockerDir + a.info.path + "/", a.no, b.no);
  }

  lemma PlainJoin(a: string, b: string)
    requires ',' !in a && ',' !in b
    ensures ',' !in a + b
  {
  }

  /** Neither the directory nor the name of the blob has a comma. */
  lemma PlainBlob(n: Nodes, r: Record)
    requires Named(n.source.peerId, r) && Servable(n.target, n.source.peerId, r.info)
    ensures ',' !in n.target.dockerDir + r.info.path + "/" + PrintNat(r.no)
    ensures r.Key(n.target) == n.target.dockerDir + r.info.path + "/" + PrintNat(r.no)
  {
    hide Text.PrintNat, SmallFileName.Print, ResultURI;
    var dir, large := n.target.dockerDir, LARGE_DIR_NAME + "/";
    PlainNat(r.no);
    assert ',' !in PrintNat(r.no);
    PlainJoin(large, n.source.peerId);
    PlainJoin(STORE_DIR_NAME + "/", large + n.source.peerId);
    PlainJoin(dir, r.info.path);
    PlainJoin(dir + r.info.path, "/");
    PlainJoin(dir + r.info.path + "/", PrintNat(r.no));
  }

  /** The replica writes where the record says, into the blob of the same number. */
  lemma ReceivedBlob(n: Nodes, r: Record)
    requires Named(n.source.peerId, r) && Servable(n.target, n.source.peerId, r.info)
    ensures Split(r.info.DiskPath(n.target), ',')[0] == r.Key(n.target)
  {
    hide Text.Split, Text.PrintNat, SmallFileName.Print, Named, Servable, Record.Key;
    var ext := ExtOf(n.source.peerId, r);
    PlainBlob(n, r);
    NameNotEmpty(PrintNat(r.no), r.info.offSet, r.info.size, ext);
    var dir := n.target.dockerDir + r.info.path;
    BlobOfPath(dir, PrintNat(r.no), r.info.offSet, r.info.size, ext);
    assert r.info.DiskPath(n.target) == dir + "/" + r.info.reName;
  }

  lemma PullReceives(n: Nodes, s: Pair, i: nat)
    requires PairInv(n, s) && Enabled(n, s, Pull(i))
    ensures var r := s.primary.records[i];
      Next(n, s, Pull(i)) == s.(
        replica := s.replica[r.Key(n.target) :=
            WriteAt(At(s.replica, r.Key(n.target)), r.info.offSet, [MARKER] + r.content)],
        applied := s.applied + {i})
  {
    hide Text.Split, Text.PrintNat, Record.Key, ResultURI, Haystack.ReadExtent, WriteAt, FileInfo.DiskPath,
         SmallFileName.ParseSmallFile, GetFilePathFromRequest, Servable, BlobInv;
    var r := s.primary.records[i];
    RequestedExtent(n.source, n.source.peerId, r);
    ReadsHeld(n.source, s.primary.blobs, r);
    ReceivedBlob(n, r);
  }

  /** Writing one record's extent leaves every other record's extent as it was. */
  lemma WriteKeepsHolds(b: Bytes, r: Record, other: Record)
    requires 0 <= other.info.offSet < other.End() <= |b|
    requires b[other.info.offSet..other.End()] == [MARKER] + other.content
    requires 0 <= r.info.offSet && r.info.size == |r.content| + 1 && Disjoint(r, other)
    ensures var w := WriteAt(b, r.info.offSet, [MARKER] + r.content);
      other.End() <= |w| && w[other.info.offSet..other.End()] == [MARKER] + other.content
  {
    var w := WriteAt(b, r.info.offSet, [MARKER] + r.content);
    assert w[other.info.offSet..other.End()] == b[other.info.offSet..other.End()];
  }

  lemma SameRecordsDisjoint(n: Nodes, s: Pair, i: nat, j: nat)
    requires Inv(n.source, s.primary) && i < |s.primary.records| && j < |s.primary.records| && i != j
    requires s.primary.records[i].Key(n.target) == s.primary.records[j].Key(n.target)
    ensures Disjoint(s.primary.records[i], s.primary.records[j])
  {
    hide Named, Record.Key;
    TargetKeys(n, s.primary.records[i], s.primary.records[j]);
  }

  lemma PullKeepsHolds(n: Nodes, s: Pair, i: nat, j: nat)
    requires PairInv(n, s) && Enabled(n, s, Pull(i)) && j in s.applied + {i}
    ensures Holds(Next(n, s, Pull(i)).replica, s.primary.records[j].Key(n.target), s.primary.records[j])
  {
    hide Named, Record.Key, Next, WriteAt, BlobInv, Servable;
    var r, other := s.primary.records[i], s.primary.records[j];
    PullReceives(n, s, i);
    assert Named(n.source.peerId, r);
    SizeOf(n.source.peerId, r);
    if i != j && r.Key(n.target) == other.Key(n.target) {
      SameRecordsDisjoint(n, s, i, j);
      WriteKeepsHolds(s.replica[r.Key(n.target)], r, other);
    }
  }

  lemma SizeOf(peerId: string, r: Record)
    requires Named(peerId, r)
    ensures 0 <= r.info.offSet && r.info.size == |r.content| + 1
  {
  }

  lemma PullKeepsBlob(n: Nodes, s: Pair, i: nat, key: string)
    requires PairInv(n, s) && Enabled(n, s, Pull(i)) && key in Next(n, s, Pull(i)).replica
    ensures BlobInv(n, Next(n, s, Pull(i)), key)
  {
    hide Named, Record.Key, Next, WriteAt, Servable, Haystack.Holds;
    var r, t := s.primary.records[i], Next(n, s, Pull(i));
    PullReceives(n, s, i);
    SizeOf(n.source.peerId, r);
    assert forall kk, k :: Applied(n, s, kk, k) ==> Applied(n, t, kk, k);
    if key == r.Key(n.target) {
      var w := t.replica[key];
      assert forall k :: Covers(r, k) ==> Applied(n, t, key, k);
      if |w| == r.End() {
        assert Covers(r, |w| - 1);
      }
    }
  }

  lemma AppendKeepsBlob(n: Nodes, s: Pair, op: Save, key: string)
    requires PairInv(n, s) && key in s.replica
    ensures BlobInv(n, Next(n, s, Append(op)), key)
  {
    hide Named, Record.Key, Haystack.Step, Haystack.Holds;
    var t := Next(n, s, Append(op));
    StepGrows(n.source, s.primary, op);
    forall k | Applied(n, s, key, k)
      ensures Applied(n, t, key, k)
    {
      var i :| i in s.applied && i < |s.primary.records|
               && s.primary.records[i].Key(n.target) == key && Covers(s.primary.records[i], k);
      assert t.primary.records[i] == s.primary.records[i];
    }
  }

  lemma NextInv(n: Nodes, s: Pair, e: Event)
    requires PairInv(n, s) && Enabled(n, s, e)
    ensures PairInv(n, Next(n, s, e))
  {
    hide Named, Record.Key, Haystack.Step, Haystack.Holds, Haystack.Admits, BlobInv, WriteAt, Download, Text.Split,
         Servable, FileInfo.DiskPath;
    match e
    case Append(op) =>
      StepInv(n.source, s.primary, op);
      StepGrows(n.source, s.primary, op);
      forall key | key in s.replica ensures BlobInv(n, Next(n, s, e), key) { AppendKeepsBlob(n, s, op, key); }
    case Pull(i) =>
      PullReceives(n, s, i);
      forall j | j in s.applied + {i}
        ensures Holds(Next(n, s, e).replica, s.primary.records[j].Key(n.target), s.primary.records[j])
      {
        PullKeepsHolds(n, s, i, j);
      }
      forall key | key in Next(n, s, e).replica ensures BlobInv(n, Next(n, s, e), key) { PullKeepsBlob(n, s, i, key); }
    case Garbled(i, reply) =>
  }

  lemma {:induction false} ReplayInv(n: Nodes, events: seq<Event>)
    requires Possible(n, events)
    ensures PairInv(n, Replay(n, events))
  {
    if events != [] {
      ReplayInv(n, events[..|events| - 1]);
      NextInv(n, Replay(n, events[..|events| - 1]), events[|events| - 1]);
    }
  }

  // ---- What the replica serves ---------------------------------------------

  lemma HoleIsNotFound(n: Nodes, s: Pair, i: nat)
    requires PairInv(n, s) && i < |s.primary.records| && i !in s.applied
    requires s.primary.records[i].Key(n.target) in s.replica
    ensures var r := s.primary.records[i];
      0 <= r.info.offSet <= INT64_MAX && 0 < r.info.size <= INT64_MAX
      && ReadExtent(s.replica[r.Key(n.target)], r.info.offSet, r.info.size) == NotFound
  {
    hide Named, Record.Key, Haystack.Holds;
    var r := s.primary.records[i];
    var key := r.Key(n.target);
    NamedRange(n.source.peerId, r);
    if Applied(n, s, key, r.info.offSet) {
      var j :| j in s.applied && j < |s.primary.records|
               && s.primary.records[j].Key(n.target) == key && Covers(s.primary.records[j], r.info.offSet);
      SameRecordsDisjoint(n, s, i, j);
      assert false;
    }
  }

  lemma NamedRange(peerId: string, r: Record)
    requires Named(peerId, r)
    ensures 0 <= r.info.offSet <= INT64_MAX && 0 < r.info.size == |r.content| + 1 <= INT64_MAX
  {
  }

  /** After any interleaving of appends, transfers in any order with any repeats, and
      garbled replies, the replica serves every record that was transferred exactly as the
      primary does, and answers "not found" for every other one. */
  lemma ReplicaServes(n: Nodes, events: seq<Event>, i: nat)
    requires Possible(n, events) && i < |Replay(n, events).primary.records|
    requires Servable(n.target, n.source.peerId, Replay(n, events).primary.records[i].info)
    ensures var s, r := Replay(n, events), Replay(n, events).primary.records[i];
      && ResultURI(n.target, r.info) != ""
      && Download(n.target, s.replica, ResultURI(n.target, r.info)) ==
           if i in s.applied then Content(r.content) else NotFound
  {
    hide Replay, Possible, Record.Key, Haystack.ReadExtent, ResultURI, SmallFileName.ParseSmallFile,
         GetFilePathFromRequest, BlobInv, Named, Haystack.Holds, Servable;
    ReplayInv(n, events);
    var s := Replay(n, events);
    var r := s.primary.records[i];
    RequestedExtent(n.target, n.source.peerId, r);
    NamedRange(n.source.peerId, r);
    if i in s.applied {
      ReadsHeld(n.target, s.replica, r);
      assert r.Key(n.target) in s.replica by { HeldKey(s.replica, r.Key(n.target), r); }
    } else if r.Key(n.target) in s.replica {
      HoleIsNotFound(n, s, i);
    }
  }

  lemma HeldKey(blobs: Blobs, key: string, r: Record)
    requires Holds(blobs, key, r)
    ensures key in blobs
  {
  }

  /** The order of the transfers does not matter at all: two replicas of one primary that
      have applied the same records hold the same bytes. */
  lemma OrderDoesNotMatter(n: Nodes, e1: seq<Event>, e2: seq<Event>)
    requires Possible(n, e1) && Possible(n, e2)
    requires Replay(n, e1).primary == Replay(n, e2).primary && Replay(n, e1).applied == Replay(n, e2).applied
    ensures Replay(n, e1).replica == Replay(n, e2).replica
  {
    hide Replay, Possible, Record.Key, BlobInv, Haystack.Holds, Haystack.Inv;
    ReplayInv(n, e1);
    ReplayInv(n, e2);
    var s1, s2 := Replay(n, e1), Replay(n, e2);
    forall key | key in s1.replica
      ensures key in s2.replica && s1.replica[key] == s2.replica[key]
    {
      SameBlob(n, s1, s2, key);
    }
    forall key | key in s2.replica ensures key in s1.replica { SameBlob(n, s2, s1, key); }
  }

  lemma SameBlob(n: Nodes, s: Pair, t: Pair, key: string)
    requires PairInv(n, s) && PairInv(n, t) && s.primary == t.primary && s.applied == t.applied && key in s.replica
    ensures key in t.replica && s.replica[key] == t.replica[key]
  {
    hide Record.Key, Haystack.Inv;
    var b := s.replica[key];
    AppliedByte(n, s, t, key, |b| - 1);
    var c := t.replica[key];
    AppliedByte(n, t, s, key, |c| - 1);
    forall k | 0 <= k < |b|
      ensures b[k] == c[k]
    {
      if Applied(n, s, key, k) {
        AppliedByte(n, s, t, key, k);
      } else {
        assert !Applied(n, t, key, k);
      }
    }
  }

  lemma AppliedByte(n: Nodes, s: Pair, t: Pair, key: string, k: int)
    requires PairInv(n, s) && PairInv(n, t) && s.primary == t.primary && s.applied == t.applied
    requires Applied(n, s, key, k)
    ensures key in s.replica && key in t.replica
    ensures 0 <= k < |s.replica[key]| && k < |t.replica[key]| && s.replica[key][k] == t.replica[key][k]
  {
    hide Record.Key, Haystack.Inv, BlobInv;
    var i :| i in s.applied && i < |s.primary.records|
             && s.primary.records[i].Key(n.target) == key && Covers(s.primary.records[i], k);
    var r := s.primary.records[i];
    assert Holds(s.replica, key, r) && Holds(t.replica, key, r);
    assert s.replica[key][k] == s.replica[key][r.info.offSet..r.End()][k - r.info.offSet];
    assert t.replica[key][k] == t.replica[key][r.info.offSet..r.End()][k - r.info.offSet];
  }
}
