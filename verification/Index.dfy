/** The index of contents and paths, the log database, and the counters kept per day. */
module Index {
  import opened Types
  import opened Totals

  datatype Log = Files | Removes | Errors | Queue

  /** Keys of the log database; DayLog.KeyInjective justifies taking them apart. */
  datatype LogKey = LogKey(day: nat, log: Log, md5: Sum)

  /** An entry waiting in the log queue. */
  datatype LogEntry = LogEntry(info: FileInfo, log: Log)

  datatype State = State(
    ldb: map<Sum, FileInfo>,
    logDB: map<LogKey, FileInfo>,
    counts: map<nat, int>,
    sizes: map<nat, int>)

  // ---- The operations ------------------------------------------------------

  /** What a record becomes when it is stored or sent: the number of retries is not serialised. */
  function Stored(info: FileInfo): FileInfo { info.(retry := 0) }

  /** AddCountInt64 */
  function AddCount(m: map<nat, int>, day: nat, n: int): map<nat, int> {
    m[day := Get(m, day) + n]
  }

  /** SaveFileInfoToLevelDB(key, fileInfo, ldb): the record also goes to its day's log. */
  function PutIndex(s: State, key: Sum, info: FileInfo): State {
    s.(ldb := s.ldb[key := Stored(info)],
       logDB := s.logDB[LogKey(info.timeStamp.day, Files, info.md5) := Stored(info)])
  }

  /** saveFileMd5Log */
  function SaveLog(s: State, info: FileInfo, log: Log): State {
    var day := info.timeStamp.day;
    if info.md5.Unset? then s
    else if log.Files? then
      var counted := if info.md5 in s.ldb then s
                     else s.(counts := AddCount(s.counts, day, 1), sizes := AddCount(s.sizes, day, info.size));
      PutIndex(PutIndex(counted, info.md5, info), OfPath(info.FullPath()), info)
    else if log.Removes? then
      var counted := if info.md5 !in s.ldb then s
                     else s.(counts := AddCount(s.counts, day, -1), sizes := AddCount(s.sizes, day, -info.size));
      counted.(
        ldb := counted.ldb - {info.md5, OfPath(info.FullPath())},
        logDB := counted.logDB - {LogKey(day, Removes, info.md5), LogKey(day, Files, info.md5)})
    else s.(logDB := s.logDB[LogKey(day, log, info.md5) := Stored(info)])
  }

  // ---- The database object -------------------------------------------------

  class Database {
    var ldb: map<Sum, FileInfo>
    var logDB: map<LogKey, FileInfo>
    var counts: map<nat, int>
    var sizes: map<nat, int>

    /** A new server counts nothing for the current day. */
    constructor (today: nat)
      ensures Value() == Initial(today)
    {
      ldb, logDB, counts, sizes := map[], map[], map[today := 0], map[today := 0];
    }

    function Value(): State
      reads this
    {
      State(ldb, logDB, counts, sizes)
    }

    method SaveFileInfoToLevelDB(key: Sum, info: FileInfo)
      modifies this`ldb, this`logDB
      ensures Value() == PutIndex(old(Value()), key, info)
    {
      ldb := ldb[key := Stored(info)];
      logDB := logDB[LogKey(info.timeStamp.day, Files, info.md5) := Stored(info)];
    }

    method SaveFileMd5Log(info: FileInfo, log: Log)
      modifies this
      ensures Value() == SaveLog(old(Value()), info, log)
    {
      hide FileInfo.FullPath, AddCount;
      if info.md5.Unset? { return; }
      var logDate := info.timeStamp.day;
      if log.Files? {
        if info.md5 !in ldb {
          counts := AddCount(counts, logDate, 1);
          sizes := AddCount(sizes, logDate, info.size);
        }
        logDB := logDB[LogKey(logDate, Files, info.md5) := Stored(info)];
        SaveFileInfoToLevelDB(info.md5, info);
        SaveFileInfoToLevelDB(OfPath(info.FullPath()), info);
        return;
      }
      if log.Removes? {
        if info.md5 in ldb {
          counts := AddCount(counts, logDate, -1);
          sizes := AddCount(sizes, logDate, -info.size);
        }
        logDB := logDB - {LogKey(logDate, Removes, info.md5)};
        ldb := ldb - {info.md5};
        ldb := ldb - {OfPath(info.FullPath())};
        logDB := logDB - {LogKey(logDate, Files, info.md5)};
        assert ldb == old(ldb) - {info.md5, OfPath(info.FullPath())};
        return;
      }
      logDB := logDB[LogKey(logDate, log, info.md5) := Stored(info)];
    }

    /** RepairStatByDate. The iterator yields the keys of the day's files.md5 log in some
        order; exists says which paths are on disk. */
    method RepairStatByDate(cfg: Config, date: nat, order: seq<LogKey>, onDisk: set<string>)
      requires forall k :: k in order ==> k in logDB
      modifies this`counts, this`sizes
      ensures Value() == Repaired(cfg, old(Value()), date, order, onDisk)
    {
      var fileCount, fileSize := 0, 0;
      var filePathSet := {};
      var i := 0;
      while i < |order|
        invariant 0 <= i <= |order| && Value() == old(Value())
        invariant Recount(fileCount, fileSize, filePathSet) == Recounted(cfg, logDB, order[..i], onDisk)
      {
        assert order[..i + 1][..i] == order[..i];
        assert order[i] in order;
        var info := logDB[order[i]];
        var filePath := info.DiskPath(cfg);
        if filePath in onDisk && filePath !in filePathSet {
          fileCount := fileCount + 1;
          fileSize := fileSize + info.size;
          filePathSet := filePathSet + {filePath};
        }
        i := i + 1;
      }
      assert order[..|order|] == order;
      counts := counts[date := fileCount];
      sizes := sizes[date := fileSize];
    }
  }

  function Initial(today: nat): State { State(map[], map[], map[today := 0], map[today := 0]) }

  // ---- Counters and logs agree ---------------------------------------------

  /** The sizes logged for a day's contents. */
  function DayLog(logDB: map<LogKey, FileInfo>, day: nat): map<Sum, int> {
    map m | m in Logged(logDB, day) :: logDB[LogKey(day, Files, m)].size
  }

  function Logged(logDB: map<LogKey, FileInfo>, day: nat): (ms: set<Sum>)
    ensures forall m :: m in ms <==> LogKey(day, Files, m) in logDB
  {
    set k | k in logDB && k.day == day && k.log == Files :: k.md5
  }

  /** The counters of the day are the number and the summed size of what is logged for it. */
  ghost predicate DayCounted(s: State, day: nat) {
    Get(s.counts, day) == |DayLog(s.logDB, day)| && Get(s.sizes, day) == MapTotal(DayLog(s.logDB, day))
  }

  /** A content is indexed just when it is logged, and only under the day and with the size
      the index has for it. */
  ghost predicate Aligned(s: State) {
    && (forall k :: k in s.logDB && k.log == Files ==>
          k.md5.OfContent? && k.md5 in s.ldb && s.ldb[k.md5].timeStamp.day == k.day
          && s.ldb[k.md5].size == s.logDB[k].size)
    && (forall m :: m in s.ldb && m.OfContent? ==> LogKey(s.ldb[m].timeStamp.day, Files, m) in s.logDB)
  }

  ghost predicate Counted(s: State) {
    Aligned(s) && forall day :: DayCounted(s, day)
  }

  /** The record is new, or repeats the day and the size that the index has. */
  predicate Repeats(s: State, info: FileInfo) {
    info.md5 in s.ldb ==> s.ldb[info.md5].timeStamp.day == info.timeStamp.day && s.ldb[info.md5].size == info.size
  }

  lemma PutLogged(db: map<LogKey, FileInfo>, d: nat, m: Sum, info: FileInfo, day: nat)
    ensures DayLog(db[LogKey(d, Files, m) := info], day) ==
      if day == d then DayLog(db, day)[m := info.size] else DayLog(db, day)
  {
  }

  lemma CutLogged(db: map<LogKey, FileInfo>, d: nat, m: Sum, day: nat)
    ensures DayLog(db - {LogKey(d, Removes, m), LogKey(d, Files, m)}, day)
         == if day == d then DayLog(db, day) - {m} else DayLog(db, day)
  {
  }

  lemma Added(s: State, info: FileInfo)
    requires info.md5.OfContent?
    ensures var t := SaveLog(s, info, Files);
      && t.ldb == s.ldb[info.md5 := Stored(info)][OfPath(info.FullPath()) := Stored(info)]
      && t.logDB == s.logDB[LogKey(info.timeStamp.day, Files, info.md5) := Stored(info)]
  {
    hide FileInfo.FullPath;
  }

  lemma Removed(s: State, info: FileInfo)
    requires info.md5.OfContent?
    ensures var t := SaveLog(s, info, Removes);
      && t.ldb == s.ldb - {info.md5, OfPath(info.FullPath())}
      && t.logDB ==
          s.logDB - {LogKey(info.timeStamp.day, Removes, info.md5), LogKey(info.timeStamp.day, Files, info.md5)}
  {
  }

  lemma LoggedDay(s: State, m: Sum, day: nat)
    requires Aligned(s) && m.OfContent?
    ensures m in DayLog(s.logDB, day) <==> m in s.ldb && s.ldb[m].timeStamp.day == day
    ensures m in DayLog(s.logDB, day) ==> DayLog(s.logDB, day)[m] == s.ldb[m].size
  {
  }

  /** Adding a record keeps the counters right exactly when its content is new or comes
      with the day and the size it is indexed under. */
  lemma AddKeepsIff(s: State, info: FileInfo)
    requires Counted(s) && info.md5.OfContent?
    ensures Counted(SaveLog(s, info, Files)) <==> Repeats(s, info)
  {
    hide DayLog, SaveLog, Aligned, MapTotal, FileInfo.FullPath;
    var t, d := SaveLog(s, info, Files), info.timeStamp.day;
    Added(s, info);
    forall day
      ensures DayLog(t.logDB, day) ==
        if day == d then DayLog(s.logDB, day)[info.md5 := info.size] else DayLog(s.logDB, day)
    {
      PutLogged(s.logDB, d, info.md5, Stored(info), day);
    }
    AddedCounters(s, info);
    LoggedDay(s, info.md5, d);
    TotalUpdated(DayLog(s.logDB, d), info.md5, info.size);
    SizeUpdated(DayLog(s.logDB, d), info.md5, info.size);
    assert DayCounted(s, d);
    if Repeats(s, info) {
      AddAligned(s, info);
      forall day ensures DayCounted(t, day) { assert DayCounted(s, day); }
    } else {
      assert !DayCounted(t, d);
    }
  }

  lemma AddedCounters(s: State, info: FileInfo)
    requires info.md5.OfContent?
    ensures var t, d := SaveLog(s, info, Files), info.timeStamp.day;
      forall day :: Get(t.counts, day) == Get(s.counts, day) + (if day == d && info.md5 !in s.ldb then 1 else 0)
                 && Get(t.sizes, day) == Get(s.sizes, day) + (if day == d && info.md5 !in s.ldb then info.size else 0)
  {
  }

  lemma AddAligned(s: State, info: FileInfo)
    requires Aligned(s) && info.md5.OfContent? && Repeats(s, info)
    ensures Aligned(SaveLog(s, info, Files))
  {
    hide SaveLog, FileInfo.FullPath;
    Added(s, info);
  }

  /** Removing a record keeps the counters right exactly when its content is not indexed or
      is indexed under the same day and size. */
  lemma RemoveKeepsIff(s: State, info: FileInfo)
    requires Counted(s) && info.md5.OfContent?
    ensures Counted(SaveLog(s, info, Removes)) <==> Repeats(s, info)
  {
    hide DayCounted, SaveLog, Aligned;
    var t := SaveLog(s, info, Removes);
    forall day
      ensures DayCounted(t, day) <==> day != info.timeStamp.day || Repeats(s, info)
    {
      RemovedDay(s, info, day);
    }
    if Repeats(s, info) {
      RemoveAligned(s, info);
    } else {
      assert !DayCounted(t, info.timeStamp.day);
    }
  }

  lemma RemovedDay(s: State, info: FileInfo, day: nat)
    requires Aligned(s) && DayCounted(s, day) && info.md5.OfContent?
    ensures DayCounted(SaveLog(s, info, Removes), day) <==> day != info.timeStamp.day || Repeats(s, info)
  {
    hide DayLog, SaveLog, Aligned, MapTotal, FileInfo.FullPath;
    var t, d := SaveLog(s, info, Removes), info.timeStamp.day;
    RemovedCounters(s, info);
    Removed(s, info);
    CutLogged(s.logDB, d, info.md5, day);
    LoggedDay(s, info.md5, d);
    TotalRemoved(DayLog(s.logDB, d), info.md5);
  }

  lemma RemovedCounters(s: State, info: FileInfo)
    requires info.md5.OfContent?
    ensures var t, d := SaveLog(s, info, Removes), info.timeStamp.day;
      forall day :: Get(t.counts, day) == Get(s.counts, day) - (if day == d && info.md5 in s.ldb then 1 else 0)
                 && Get(t.sizes, day) == Get(s.sizes, day) - (if day == d && info.md5 in s.ldb then info.size else 0)
  {
  }

  lemma RemoveAligned(s: State, info: FileInfo)
    requires Aligned(s) && info.md5.OfContent? && Repeats(s, info)
    ensures Aligned(SaveLog(s, info, Removes))
  {
    hide SaveLog, FileInfo.FullPath;
    Removed(s, info);
  }

  /** Writing a record back with more peers, past the counters, keeps them right exactly
      when the content is still indexed, under the same day and size. */
  lemma UpdateKeepsIff(s: State, info: FileInfo)
    requires Counted(s) && info.md5.OfContent?
    ensures Counted(PutIndex(s, info.md5, info)) <==> info.md5 in s.ldb && Repeats(s, info)
  {
    hide DayLog, Aligned, MapTotal;
    var t, d := PutIndex(s, info.md5, info), info.timeStamp.day;
    forall day
      ensures DayLog(t.logDB, day) ==
        if day == d then DayLog(s.logDB, day)[info.md5 := info.size] else DayLog(s.logDB, day)
    {
      PutLogged(s.logDB, d, info.md5, Stored(info), day);
    }
    LoggedDay(s, info.md5, d);
    TotalUpdated(DayLog(s.logDB, d), info.md5, info.size);
    SizeUpdated(DayLog(s.logDB, d), info.md5, info.size);
    assert DayCounted(s, d);
    if info.md5 in s.ldb && Repeats(s, info) {
      UpdateAligned(s, info);
      forall day ensures DayCounted(t, day) { assert DayCounted(s, day); }
    } else {
      assert !DayCounted(t, d);
    }
  }

  lemma UpdateAligned(s: State, info: FileInfo)
    requires Aligned(s) && info.md5.OfContent? && info.md5 in s.ldb && Repeats(s, info)
    ensures Aligned(PutIndex(s, info.md5, info))
  {
  }

  // ---- Whole runs ----------------------------------------------------------

  /** A call of saveFileMd5Log, or the write-back of a record whose peers have changed. */
  datatype Op = Save(info: FileInfo, log: Log) | Update(info: FileInfo)

  function Step(s: State, op: Op): State {
    match op
    case Save(info, log) => SaveLog(s, info, log)
    case Update(info) => PutIndex(s, info.md5, info)
  }

  function Run(today: nat, ops: seq<Op>): State {
    if ops == [] then Initial(today) else Step(Run(today, ops[..|ops| - 1]), ops[|ops| - 1])
  }

  /** What the caller can check before the call. */
  predicate Allowed(s: State, op: Op) {
    match op
    case Save(info, log) => log in {Files, Removes} ==> Repeats(s, info)
    case Update(info) => info.md5 in s.ldb && Repeats(s, info)
  }

  predicate AllAllowed(today: nat, ops: seq<Op>) {
    ops != [] ==> AllAllowed(today, ops[..|ops| - 1]) && Allowed(Run(today, ops[..|ops| - 1]), ops[|ops| - 1])
  }

  /** The counters are right now and were right after every earlier call. */
  ghost predicate AlwaysCounted(today: nat, ops: seq<Op>) {
    Counted(Run(today, ops)) && (ops != [] ==> AlwaysCounted(today, ops[..|ops| - 1]))
  }

  lemma OtherLogKeeps(s: State, info: FileInfo, log: Log)
    requires Counted(s) && log != Files && log != Removes
    ensures Counted(SaveLog(s, info, log))
  {
    hide MapTotal, DayLog;
    var t := SaveLog(s, info, log);
    forall day ensures DayCounted(t, day) {
      OtherLogged(s.logDB, LogKey(info.timeStamp.day, log, info.md5), Stored(info), day);
      assert DayCounted(s, day);
    }
  }

  lemma OtherLogged(db: map<LogKey, FileInfo>, k: LogKey, info: FileInfo, day: nat)
    requires k.log != Files
    ensures DayLog(db[k := info], day) == DayLog(db, day)
  {
  }

  lemma StepKeepsIff(s: State, op: Op)
    requires Counted(s) && op.info.md5.OfContent?
    ensures Counted(Step(s, op)) <==> Allowed(s, op)
  {
    hide Counted, SaveLog, PutIndex;
    match op
    case Save(info, log) =>
      if log.Files? { AddKeepsIff(s, info); }
      else if log.Removes? { RemoveKeepsIff(s, info); }
      else { OtherLogKeeps(s, info, log); }
    case Update(info) => UpdateKeepsIff(s, info);
  }

  lemma InitialCounted(today: nat)
    ensures Counted(Initial(today))
  {
    forall day ensures DayCounted(Initial(today), day) {
      assert DayLog(Initial(today).logDB, day) == map[];
    }
  }

  /** The incremental counters equal the number and summed size of each day's log entries
      throughout a run exactly when no call re-adds, removes or rewrites a present content
      under another day or with another size, and none rewrites an absent one. */
  lemma {:induction false} CountersExact(today: nat, ops: seq<Op>)
    requires forall op :: op in ops ==> op.info.md5.OfContent?
    ensures AlwaysCounted(today, ops) <==> AllAllowed(today, ops)
  {
    hide Counted, Step, Allowed, Initial;
    if ops == [] {
      InitialCounted(today);
    } else {
      var init, op := ops[..|ops| - 1], ops[|ops| - 1];
      assert op in ops;
      CountersExact(today, init);
      if AlwaysCounted(today, init) {
        StepKeepsIff(Run(today, init), op);
      }
    }
  }

  // ---- The recount ---------------------------------------------------------

  datatype Recount = Recount(count: int, size: int, seen: set<string>)

  function Recounted(cfg: Config, logDB: map<LogKey, FileInfo>, order: seq<LogKey>, onDisk: set<string>): Recount {
    if order == [] then Recount(0, 0, {}) else
    var r, k := Recounted(cfg, logDB, order[..|order| - 1], onDisk), order[|order| - 1];
    if k !in logDB then r else
    var p := logDB[k].DiskPath(cfg);
    if p in onDisk && p !in r.seen then Recount(r.count + 1, r.size + logDB[k].size, r.seen + {p}) else r
  }

  function Repaired(cfg: Config, s: State, date: nat, order: seq<LogKey>, onDisk: set<string>): State {
    var r := Recounted(cfg, s.logDB, order, onDisk);
    s.(counts := s.counts[date := r.count], sizes := s.sizes[date := r.size])
  }

  ghost predicate Lists(order: seq<LogKey>, s: State, date: nat) {
    && Distinct(order)
    && forall k :: k in order <==> k in s.logDB && k.day == date && k.log == Files
  }

  /** Every logged path is on disk, and no two records share one. */
  predicate AllThere(cfg: Config, logDB: map<LogKey, FileInfo>, order: seq<LogKey>, onDisk: set<string>)
    requires forall k :: k in order ==> k in logDB
  {
    && (forall i :: 0 <= i < |order| ==> logDB[order[i]].DiskPath(cfg) in onDisk)
    && (forall i, j :: 0 <= i < j < |order| ==> logDB[order[i]].DiskPath(cfg) != logDB[order[j]].DiskPath(cfg))
  }

  function Sizes(order: seq<LogKey>, logDB: map<LogKey, FileInfo>): int
    requires forall k :: k in order ==> k in logDB
  {
    if order == [] then 0 else
    var k := order[|order| - 1];
    assert k in order;
    Sizes(order[..|order| - 1], logDB) + logDB[k].size
  }

  lemma {:induction false} RecountedAll(cfg: Config, logDB: map<LogKey, FileInfo>, order: seq<LogKey>,
                                        onDisk: set<string>)
    requires forall k :: k in order ==> k in logDB
    ensures var r := Recounted(cfg, logDB, order, onDisk);
      && r.count <= |order|
      && r.seen <= onDisk
      && (forall i :: 0 <= i < |order| && logDB[order[i]].DiskPath(cfg) in onDisk ==>
          logDB[order[i]].DiskPath(cfg) in r.seen)
      && (forall p :: p in r.seen ==> exists i :: 0 <= i < |order| && logDB[order[i]].DiskPath(cfg) == p)
      && (r.count == |order| <==> AllThere(cfg, logDB, order, onDisk))
      && (r.count == |order| ==> r.size == Sizes(order, logDB))
  {
    hide FileInfo.DiskPath;
    if order != [] {
      var init, k := order[..|order| - 1], order[|order| - 1];
      assert k in order;
      RecountedAll(cfg, logDB, init, onDisk);
    }
  }

  /** The sizes of the listed records add up to those logged for the day. */
  lemma ListedSizes(s: State, date: nat, order: seq<LogKey>)
    requires Lists(order, s, date)
    ensures |order| == |DayLog(s.logDB, date)| && Sizes(order, s.logDB) == MapTotal(DayLog(s.logDB, date))
  {
    hide MapTotal, DayLog;
    var ms := seq(|order|, i requires 0 <= i < |order| => order[i].md5);
    var m := DayLog(s.logDB, date);
    DayLogOf(s, date);
    forall i, j | 0 <= i < j < |ms| ensures ms[i] != ms[j] {
      assert order[i] in order && order[j] in order;
      assert order[i] == LogKey(date, Files, ms[i]) && order[j] == LogKey(date, Files, ms[j]);
    }
    forall x ensures x in ms <==> x in m {
      if x in m {
        assert LogKey(date, Files, x) in order;
        var i :| 0 <= i < |order| && order[i] == LogKey(date, Files, x);
        assert ms[i] == x;
      }
      if x in ms {
        var i :| 0 <= i < |ms| && ms[i] == x;
        assert order[i] in order;
      }
    }
    ListedTotal(ms, m);
    SizesOf(s, date, order, ms);
  }

  lemma DayLogOf(s: State, date: nat)
    ensures forall x :: x in DayLog(s.logDB, date) <==> LogKey(date, Files, x) in s.logDB
    ensures forall x :: x in DayLog(s.logDB, date) ==> DayLog(s.logDB, date)[x] == s.logDB[LogKey(date, Files, x)].size
  {
  }

  lemma {:induction false} SizesOf(s: State, date: nat, order: seq<LogKey>, ms: seq<Sum>)
    requires forall k :: k in order ==> k in s.logDB && k.day == date && k.log == Files
    requires |ms| == |order| && forall i :: 0 <= i < |ms| ==> ms[i] == order[i].md5
    ensures Sizes(order, s.logDB) == SeqTotal(ms, DayLog(s.logDB, date))
  {
    hide DayLog;
    if order != [] {
      SizesOf(s, date, order[..|order| - 1], ms[..|ms| - 1]);
      assert order[|order| - 1] in order;
      DayLogOf(s, date);
    }
  }

  /** On counters that are right, the recount of a day gives the same number of files
      exactly when every record of the day has its own file on disk, and then it changes
      nothing. A small file inside a blob has none, so its day loses it. */
  lemma RecountKeepsIff(cfg: Config, s: State, date: nat, order: seq<LogKey>, onDisk: set<string>)
    requires Counted(s) && Lists(order, s, date)
    ensures var t := Repaired(cfg, s, date, order, onDisk);
      && (Get(t.counts, date) == Get(s.counts, date) <==> AllThere(cfg, s.logDB, order, onDisk))
      && (AllThere(cfg, s.logDB, order, onDisk) ==>
            Counted(t) && forall day ::
              Get(t.counts, day) == Get(s.counts, day) && Get(t.sizes, day) == Get(s.sizes, day))
  {
    hide MapTotal, DayLog, Recounted, AllThere, Sizes;
    var t := Repaired(cfg, s, date, order, onDisk);
    assert DayCounted(s, date);
    ListedSizes(s, date, order);
    RecountedAll(cfg, s.logDB, order, onDisk);
    if AllThere(cfg, s.logDB, order, onDisk) {
      forall day ensures DayCounted(t, day) {
        assert DayCounted(s, day);
      }
      assert Aligned(t);
    }
  }

  // ---- What a recount counts, whatever is missing --------------------------

  /** The paths of the listed records that are on disk. */
  function Present(cfg: Config, logDB: map<LogKey, FileInfo>, order: seq<LogKey>, onDisk: set<string>): set<string> {
    set k | k in order && k in logDB && logDB[k].DiskPath(cfg) in onDisk :: logDB[k].DiskPath(cfg)
  }

  /** The i-th listed record is on disk, and is the first of those listed with its path. */
  predicate IsFirst(cfg: Config, logDB: map<LogKey, FileInfo>, order: seq<LogKey>, onDisk: set<string>, i: int) {
    && 0 <= i < |order| && order[i] in logDB && logDB[order[i]].DiskPath(cfg) in onDisk
    && forall j :: 0 <= j < i && order[j] in logDB ==> logDB[order[j]].DiskPath(cfg) != logDB[order[i]].DiskPath(cfg)
  }

  function FirstSizes(cfg: Config, logDB: map<LogKey, FileInfo>, order: seq<LogKey>, onDisk: set<string>)
    : map<int, int>
  {
    map i | 0 <= i < |order| && IsFirst(cfg, logDB, order, onDisk, i) :: logDB[order[i]].size
  }

  lemma SeenIsPresent(cfg: Config, logDB: map<LogKey, FileInfo>, order: seq<LogKey>, onDisk: set<string>)
    requires order != []
    ensures var init, k := order[..|order| - 1], order[|order| - 1];
      Present(cfg, logDB, order, onDisk) == Present(cfg, logDB, init, onDisk)
        + (if k in logDB && logDB[k].DiskPath(cfg) in onDisk then {logDB[k].DiskPath(cfg)} else {})
  {
    hide FileInfo.DiskPath;
    var init, k := order[..|order| - 1], order[|order| - 1];
    assert forall x :: x in order <==> x in init || x == k;
  }

  lemma FirstAppended(cfg: Config, logDB: map<LogKey, FileInfo>, order: seq<LogKey>, onDisk: set<string>)
    requires order != []
    ensures var init, n := order[..|order| - 1], |order| - 1;
      FirstSizes(cfg, logDB, order, onDisk) ==
        if IsFirst(cfg, logDB, order, onDisk, n) then FirstSizes(cfg, logDB, init, onDisk)[n := logDB[order[n]].size]
        else FirstSizes(cfg, logDB, init, onDisk)
  {
    hide FileInfo.DiskPath;
    var init, n := order[..|order| - 1], |order| - 1;
    forall i | i != n ensures IsFirst(cfg, logDB, order, onDisk, i) == IsFirst(cfg, logDB, init, onDisk, i) {
      if 0 <= i < n { assert init[i] == order[i] && forall j :: 0 <= j < i ==> init[j] == order[j]; }
    }
  }

  /** A new path is one that no earlier record has. */
  lemma NewIsFirst(cfg: Config, logDB: map<LogKey, FileInfo>, order: seq<LogKey>, onDisk: set<string>)
    requires order != []
    ensures var init, n := order[..|order| - 1], |order| - 1;
      IsFirst(cfg, logDB, order, onDisk, n) <==>
        && order[n] in logDB && logDB[order[n]].DiskPath(cfg) in onDisk
        && logDB[order[n]].DiskPath(cfg) !in Present(cfg, logDB, init, onDisk)
  {
    hide FileInfo.DiskPath;
    var init, n := order[..|order| - 1], |order| - 1;
    forall j | 0 <= j < n ensures init[j] == order[j] && init[j] in init {}
    forall k | k in init ensures exists j :: 0 <= j < n && order[j] == k {
      var j :| 0 <= j < |init| && init[j] == k;
      assert order[j] == k;
    }
  }

  lemma {:induction false} RecountedExact(cfg: Config, logDB: map<LogKey, FileInfo>, order: seq<LogKey>,
                                          onDisk: set<string>)
    ensures var r := Recounted(cfg, logDB, order, onDisk);
      && r.seen == Present(cfg, logDB, order, onDisk) && r.count == |Present(cfg, logDB, order, onDisk)|
      && r.size == MapTotal(FirstSizes(cfg, logDB, order, onDisk))
  {
    hide FileInfo.DiskPath, MapTotal, Present, FirstSizes, IsFirst;
    if order == [] {
      NoneListed(cfg, logDB, onDisk);
    } else {
      var init, n := order[..|order| - 1], |order| - 1;
      RecountedExact(cfg, logDB, init, onDisk);
      SeenIsPresent(cfg, logDB, order, onDisk);
      FirstAppended(cfg, logDB, order, onDisk);
      NewIsFirst(cfg, logDB, order, onDisk);
      if IsFirst(cfg, logDB, order, onDisk, n) {
        TotalUpdated(FirstSizes(cfg, logDB, init, onDisk), n, logDB[order[n]].size);
        NotYet(cfg, logDB, init, onDisk, n);
      }
    }
  }

  lemma NotYet(cfg: Config, logDB: map<LogKey, FileInfo>, order: seq<LogKey>, onDisk: set<string>, i: int)
    requires i >= |order|
    ensures i !in FirstSizes(cfg, logDB, order, onDisk)
  {
  }

  lemma NoneListed(cfg: Config, logDB: map<LogKey, FileInfo>, onDisk: set<string>)
    ensures Present(cfg, logDB, [], onDisk) == {} && FirstSizes(cfg, logDB, [], onDisk) == map[]
    ensures MapTotal(FirstSizes(cfg, logDB, [], onDisk)) == 0
  {
  }

  /** A recount gives the day the number of different paths that its listed records have on disk,
      and the sizes of the records, one for each such path: the first that is listed. No other
      day changes, and no record. */
  lemma RecountExact(cfg: Config, s: State, date: nat, order: seq<LogKey>, onDisk: set<string>)
    ensures var t := Repaired(cfg, s, date, order, onDisk);
      && t.ldb == s.ldb && t.logDB == s.logDB
      && Get(t.counts, date) == |Present(cfg, s.logDB, order, onDisk)|
      && Get(t.sizes, date) == MapTotal(FirstSizes(cfg, s.logDB, order, onDisk))
      && forall day :: day != date ==>
           Get(t.counts, day) == Get(s.counts, day) && Get(t.sizes, day) == Get(s.sizes, day)
  {
    hide Recounted, Present, FirstSizes, MapTotal;
    RecountedExact(cfg, s.logDB, order, onDisk);
  }

  // ---- What the logs hold --------------------------------------------------

  /** Every entry is filed under the day and the checksum of its own record. */
  predicate Filed(logDB: map<LogKey, FileInfo>) {
    forall k :: k in logDB ==> k.day == logDB[k].timeStamp.day && k.md5 == logDB[k].md5 && logDB[k].retry == 0
  }

  lemma PutFiled(db: map<LogKey, FileInfo>, info: FileInfo, log: Log)
    requires Filed(db)
    ensures Filed(db[LogKey(info.timeStamp.day, log, info.md5) := Stored(info)])
  {
  }

  lemma CutFiled(db: map<LogKey, FileInfo>, ks: set<LogKey>)
    requires Filed(db)
    ensures Filed(db - ks)
  {
  }

  lemma StepFiled(s: State, op: Op)
    requires Filed(s.logDB)
    ensures Filed(Step(s, op).logDB)
  {
    hide FileInfo.FullPath, AddCount, Filed;
    var info := op.info;
    if op.Update? || op.log.Files? {
      PutFiled(s.logDB, info, Files);
      PutFiled(s.logDB[LogKey(info.timeStamp.day, Files, info.md5) := Stored(info)], info, Files);
    } else if op.log.Removes? {
      CutFiled(s.logDB, {LogKey(info.timeStamp.day, Removes, info.md5), LogKey(info.timeStamp.day, Files, info.md5)});
    } else {
      PutFiled(s.logDB, info, op.log);
    }
  }

  lemma StepFiles(s: State, op: Op, d: nat, log: Log, m: Sum)
    requires log in {Errors, Queue}
    ensures LogKey(d, log, m) in Step(s, op).logDB <==>
              || LogKey(d, log, m) in s.logDB
              || (m != Unset && op.Save? && op.log == log && op.info.md5 == m && op.info.timeStamp.day == d)
  {
    hide FileInfo.FullPath, AddCount;
  }

  /** Over any run, the error log and the queue log of a day hold exactly the contents that were
      logged there with a record of that day, and forget none, but for records without a checksum,
      which are not logged; and every entry of any log is filed under its own record's day and
      checksum. */
  lemma {:induction false} LogsForgetNothing(today: nat, ops: seq<Op>, d: nat, log: Log, m: Sum)
    requires log in {Errors, Queue}
    ensures Filed(Run(today, ops).logDB)
    ensures LogKey(d, log, m) in Run(today, ops).logDB <==>
              m != Unset && exists i ::
                && 0 <= i < |ops| && ops[i].Save? && ops[i].log == log
                && ops[i].info.md5 == m && ops[i].info.timeStamp.day == d
  {
    hide Step;
    if ops != [] {
      var init := ops[..|ops| - 1];
      LogsForgetNothing(today, init, d, log, m);
      StepFiled(Run(today, init), ops[|ops| - 1]);
      StepFiles(Run(today, init), ops[|ops| - 1], d, log, m);
      assert forall i :: 0 <= i < |init| ==> init[i] == ops[i];
    }
  }

  /** And nothing stays in the log of removals: the branch that is to write it deletes the key. */
  lemma {:induction false} RemovalsAreNotLogged(today: nat, ops: seq<Op>)
    ensures forall k :: k in Run(today, ops).logDB ==> k.log != Removes
  {
    hide FileInfo.FullPath, AddCount;
    if ops != [] { RemovalsAreNotLogged(today, ops[..|ops| - 1]); }
  }
}
