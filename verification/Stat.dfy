/** The statistics shown per day, and what their total counts. */
module Stat {
  import opened Types
  import opened Totals
  import opened Index

  datatype Date = Day(day: nat) | All

  datatype Row = Row(date: Date, totalSize: int, fileCount: int)

  const FIRST_DAY: nat := 20190101

  function Days(rows: seq<Row>): (ds: seq<nat>)
    ensures |ds| == |rows| && forall i :: 0 <= i < |rows| && rows[i].date.Day? ==> ds[i] == rows[i].date.day
  {
    seq(|rows|, i requires 0 <= i < |rows| => match rows[i].date case Day(d) => d case All => 0)
  }

  /** A row for each day that has a size, in ascending order, and nothing else. */
  ghost predicate DayRows(counts: map<nat, int>, sizes: map<nat, int>, rows: seq<Row>) {
    && (forall i :: 0 <= i < |rows| ==>
          rows[i].date.Day? && rows[i].date.day in sizes
          && rows[i] == Row(Day(rows[i].date.day), sizes[rows[i].date.day], Get(counts, rows[i].date.day)))
    && (forall i, j :: 0 <= i < j < |rows| ==> rows[i].date.day < rows[j].date.day)
  }

  /** Every day that has a size is listed once, in ascending order, and the last row is the
      total of the rows before it. */
  ghost predicate IsStat(counts: map<nat, int>, sizes: map<nat, int>, rows: seq<Row>) {
    && |rows| > 0
    && var days := rows[..|rows| - 1];
    && DayRows(counts, sizes, days)
    && (forall d :: d in sizes <==> d in Days(days))
    && rows[|rows| - 1] == Row(All, SeqTotal(Days(days), sizes), SeqTotal(Days(days), counts))
  }

  /** The first and the last day among the keys, which are never later and never earlier
      than the first day of the statistics. */
  method Range(counts: map<nat, int>, sizes: map<nat, int>) returns (min: nat, max: nat)
    ensures min <= max
    ensures forall d :: d in counts || d in sizes ==> min <= d <= max
    ensures min == FIRST_DAY || min in counts || min in sizes
    ensures max == FIRST_DAY || max in counts || max in sizes
  {
    min, max := FIRST_DAY, FIRST_DAY;
    var keys := counts.Keys + sizes.Keys;
    var todo := keys;
    while todo != {}
      invariant todo <= keys && min <= FIRST_DAY <= max
      invariant forall d :: d in keys && d !in todo ==> min <= d <= max
      invariant min == FIRST_DAY || min in keys
      invariant max == FIRST_DAY || max in keys
    {
      var i :| i in todo;
      if i >= max { max := i; }
      if i < min { min := i; }
      todo := todo - {i};
    }
  }

  lemma RowAppended(counts: map<nat, int>, sizes: map<nat, int>, rows: seq<Row>, d: nat)
    requires DayRows(counts, sizes, rows) && d in sizes
    requires forall i :: 0 <= i < |rows| ==> rows[i].date.day < d
    ensures var more := rows + [Row(Day(d), sizes[d], Get(counts, d))];
      && DayRows(counts, sizes, more)
      && Days(more) == Days(rows) + [d]
      && SeqTotal(Days(more), counts) == SeqTotal(Days(rows), counts) + Get(counts, d)
      && SeqTotal(Days(more), sizes) == SeqTotal(Days(rows), sizes) + sizes[d]
  {
    assert (Days(rows) + [d])[..|rows|] == Days(rows);
  }

  method GetStat(counts: map<nat, int>, sizes: map<nat, int>) returns (rows: seq<Row>)
    ensures IsStat(counts, sizes, rows)
  {
    hide SeqTotal;
    var min, max := Range(counts, sizes);
    rows := [];
    var totalSize, totalCount := 0, 0;
    var i := min;
    EmptyTotals(counts, sizes);
    while i <= max
      invariant min <= i <= max + 1
      invariant DayRows(counts, sizes, rows)
      invariant forall d :: d in Days(rows) <==> d in sizes && d < i
      invariant totalSize == SeqTotal(Days(rows), sizes) && totalCount == SeqTotal(Days(rows), counts)
    {
      if i in sizes {
        forall k | 0 <= k < |rows| ensures rows[k].date.day < i {
          assert Days(rows)[k] in Days(rows);
        }
        RowAppended(counts, sizes, rows, i);
        totalSize := totalSize + sizes[i];
        totalCount := totalCount + Get(counts, i);
        rows := rows + [Row(Day(i), sizes[i], Get(counts, i))];
      }
      i := i + 1;
    }
    ghost var days := rows;
    rows := rows + [Row(All, totalSize, totalCount)];
    assert rows[..|rows| - 1] == days;
  }

  lemma EmptyTotals(counts: map<nat, int>, sizes: map<nat, int>)
    ensures SeqTotal(Days([]), sizes) == 0 && SeqTotal(Days([]), counts) == 0
  {
  }

  // ---- What the total counts -----------------------------------------------

  /** The contents that are indexed. */
  function Contents(ldb: map<Sum, FileInfo>): set<Sum> {
    set m | m in ldb && m.OfContent?
  }

  /** The counters of all days add up to the number of indexed contents. */
  ghost predicate Conserved(s: State) {
    s.counts.Keys == s.sizes.Keys && MapTotal(s.counts) == |Contents(s.ldb)|
  }

  lemma AddConserves(s: State, info: FileInfo)
    requires Conserved(s) && info.md5.OfContent?
    ensures Conserved(SaveLog(s, info, Files))
  {
    hide MapTotal, FileInfo.FullPath;
    var t, d := SaveLog(s, info, Files), info.timeStamp.day;
    Added(s, info);
    assert Contents(t.ldb) == Contents(s.ldb) + {info.md5};
    if info.md5 in s.ldb {
      assert Contents(t.ldb) == Contents(s.ldb);
    } else {
      TotalUpdated(s.counts, d, Get(s.counts, d) + 1);
    }
  }

  lemma RemoveConserves(s: State, info: FileInfo)
    requires Conserved(s) && info.md5.OfContent?
    ensures Conserved(SaveLog(s, info, Removes))
  {
    hide MapTotal, FileInfo.FullPath;
    var t, d := SaveLog(s, info, Removes), info.timeStamp.day;
    assert Contents(t.ldb) == Contents(s.ldb) - {info.md5};
    TotalUpdated(s.counts, d, Get(s.counts, d) - 1);
  }

  /** Each call conserves the count, across days and sizes; writing a record back does
      exactly when its content is still indexed. */
  lemma StepConservesIff(s: State, op: Op)
    requires Conserved(s) && op.info.md5.OfContent?
    ensures Conserved(Step(s, op)) <==> (op.Update? ==> op.info.md5 in s.ldb)
  {
    hide MapTotal, SaveLog;
    match op
    case Save(info, log) =>
      if log.Files? { AddConserves(s, info); }
      else if log.Removes? { RemoveConserves(s, info); }
      else { OtherLogIndex(s, info, log); }
    case Update(info) =>
      assert Contents(Step(s, op).ldb) == Contents(s.ldb) + {info.md5};
  }

  lemma OtherLogIndex(s: State, info: FileInfo, log: Log)
    requires log != Files && log != Removes
    ensures var t := SaveLog(s, info, log); t.ldb == s.ldb && t.counts == s.counts && t.sizes == s.sizes
  {
  }

  predicate UpdatesPresent(today: nat, ops: seq<Op>) {
    ops != [] ==>
      && UpdatesPresent(today, ops[..|ops| - 1])
      && (ops[|ops| - 1].Update? ==> ops[|ops| - 1].info.md5 in Run(today, ops[..|ops| - 1]).ldb)
  }

  lemma {:induction false} RunConserves(today: nat, ops: seq<Op>)
    requires UpdatesPresent(today, ops) && forall op :: op in ops ==> op.info.md5.OfContent?
    ensures Conserved(Run(today, ops))
  {
    hide Conserved, Step;
    if ops == [] {
      InitialConserved(today);
    } else {
      assert ops[|ops| - 1] in ops;
      RunConserves(today, ops[..|ops| - 1]);
      StepConservesIff(Run(today, ops[..|ops| - 1]), ops[|ops| - 1]);
    }
  }

  lemma InitialConserved(today: nat)
    ensures Conserved(Initial(today))
  {
    TotalUpdated(map[], today, 0);
    assert (map[])[today := 0] == map[today := 0];
  }

  lemma AscendingDays(counts: map<nat, int>, sizes: map<nat, int>, rows: seq<Row>)
    requires DayRows(counts, sizes, rows)
    ensures Distinct(Days(rows))
  {
  }

  /** After any run of adds, removes and re-adds, on whatever days and with whatever sizes,
      the "all" row counts exactly the contents that are indexed, its size is the sum of the
      sizes of all days, and each day appears once, in order. */
  lemma AllRowCountsContents(today: nat, ops: seq<Op>, rows: seq<Row>)
    requires UpdatesPresent(today, ops) && forall op :: op in ops ==> op.info.md5.OfContent?
    requires IsStat(Run(today, ops).counts, Run(today, ops).sizes, rows)
    ensures var s := Run(today, ops);
      rows[|rows| - 1] == Row(All, MapTotal(s.sizes), |Contents(s.ldb)|)
  {
    hide Run, MapTotal, SeqTotal, UpdatesPresent;
    RunConserves(today, ops);
    var s := Run(today, ops);
    var days := rows[..|rows| - 1];
    AscendingDays(s.counts, s.sizes, days);
    ListedTotal(Days(days), s.counts);
    ListedTotal(Days(days), s.sizes);
  }
}
