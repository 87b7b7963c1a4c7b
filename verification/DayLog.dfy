/** The log database, whose keys are "date_log_md5", and the daily backup of one log. */
module DayLog {
  import opened Text

  const FILES := "files.md5"

  /** The fields of a stored record that a backup prints. */
  datatype Entry = Entry(md5: string, size: int, timeStamp: int, fullPath: string)

  /** A stored value: the text itself, and the record it decodes to, if it does. */
  datatype Value = Value(text: string, entry: Option<Entry>)

  type Db = map<string, Value>

  // ---- Keys ----------------------------------------------------------------

  function Prefix(date: string, log: string): string { date + ['_'] + (log + ['_']) }

  function Key(date: string, log: string, md5: string): string { date + ['_'] + (log + ['_'] + md5) }

  predicate Plain(part: string) { '_' !in part }

  lemma KeyParts(date: string, log: string, md5: string)
    requires Plain(date) && Plain(log)
    ensures Split(Key(date, log, md5), '_') == [date, log] + Split(md5, '_')
    ensures Prefix(date, log) <= Key(date, log, md5)
  {
    hide Split;
    SplitField(log, md5, '_');
    SplitField(date, log + ['_'] + md5, '_');
    assert [date] + ([log] + Split(md5, '_')) == [date, log] + Split(md5, '_');
    assert Key(date, log, md5) == Prefix(date, log) + md5;
  }

  /** Two keys are equal only if all their parts are; the checksum may be any string. */
  lemma KeyInjective(d1: string, l1: string, m1: string, d2: string, l2: string, m2: string)
    requires Plain(d1) && Plain(l1) && Plain(d2) && Plain(l2) && Key(d1, l1, m1) == Key(d2, l2, m2)
    ensures d1 == d2 && l1 == l2 && m1 == m2
  {
    hide Split;
    KeyParts(d1, l1, m1);
    KeyParts(d2, l2, m2);
    assert Split(Key(d1, l1, m1), '_')[0] == d1 && Split(Key(d2, l2, m2), '_')[0] == d2;
    assert Split(Key(d1, l1, m1), '_')[1] == l1 && Split(Key(d2, l2, m2), '_')[1] == l2;
    assert m1 == Key(d1, l1, m1)[|Prefix(d1, l1)|..];
    assert m2 == Key(d2, l2, m2)[|Prefix(d2, l2)|..];
  }

  /** A key starts with the prefix of a log only if it belongs to that log. */
  lemma PrefixExact(date: string, log: string, d: string, l: string, m: string)
    requires Plain(date) && Plain(log) && Plain(d) && Plain(l)
    requires Prefix(date, log) <= Key(d, l, m)
    ensures d == date && l == log
  {
    var rest := Key(d, l, m)[|Prefix(date, log)|..];
    assert Key(d, l, m) == Key(date, log, rest);
    KeyInjective(d, l, m, date, log, rest);
  }

  /** What GetMd5sByDate collects: the third part of every key with the log's prefix. */
  function Md5sOf(db: Db, date: string, log: string): set<string> {
    set k | k in db && Prefix(date, log) <= k && |Split(k, '_')| >= 3 :: Split(k, '_')[2]
  }

  // ---- Any sequence of writes ----------------------------------------------

  datatype Write =
    | Put(date: string, log: string, md5: string, value: Value)
    | Delete(date: string, log: string, md5: string)

  predicate PlainWrite(w: Write) { Plain(w.date) && Plain(w.log) && Plain(w.md5) }

  function Written(ws: seq<Write>): Db {
    if ws == [] then map[] else
    var db, w := Written(ws[..|ws| - 1]), ws[|ws| - 1];
    match w
    case Put(d, l, m, v) => db[Key(d, l, m) := v]
    case Delete(d, l, m) => db - {Key(d, l, m)}
  }

  /** The checksums logged under (date, log): put there and not deleted since. */
  function LoggedAfter(ws: seq<Write>, date: string, log: string): set<string> {
    if ws == [] then {} else
    var before, w := LoggedAfter(ws[..|ws| - 1], date, log), ws[|ws| - 1];
    if w.date != date || w.log != log then before
    else if w.Put? then before + {w.md5} else before - {w.md5}
  }

  lemma {:induction false} WrittenKeys(ws: seq<Write>, date: string, log: string, k: string)
    requires Plain(date) && Plain(log) && forall w :: w in ws ==> PlainWrite(w)
    ensures k in Written(ws) && Prefix(date, log) <= k ==>
        exists m :: m in LoggedAfter(ws, date, log) && k == Key(date, log, m)
  {
    if ws != [] && k in Written(ws) && Prefix(date, log) <= k {
      hide Split, Key, Prefix;
      var w := ws[|ws| - 1];
      assert w in ws;
      WrittenKeys(ws[..|ws| - 1], date, log, k);
      if k == Key(w.date, w.log, w.md5) {
        PrefixExact(date, log, w.date, w.log, w.md5);
        assert w.md5 in LoggedAfter(ws, date, log);
      } else {
        var m :| m in LoggedAfter(ws[..|ws| - 1], date, log) && k == Key(date, log, m);
        assert m in LoggedAfter(ws, date, log);
      }
    }
  }

  lemma {:induction false} LoggedIsWritten(ws: seq<Write>, date: string, log: string, m: string)
    requires Plain(date) && Plain(log) && forall w :: w in ws ==> PlainWrite(w)
    ensures m in LoggedAfter(ws, date, log) ==> Plain(m) && Key(date, log, m) in Written(ws)
  {
    if ws != [] && m in LoggedAfter(ws, date, log) {
      hide Split, Key, Prefix;
      var w := ws[|ws| - 1];
      assert w in ws;
      LoggedIsWritten(ws[..|ws| - 1], date, log, m);
      if m in LoggedAfter(ws[..|ws| - 1], date, log) && Key(date, log, m) == Key(w.date, w.log, w.md5) {
        KeyInjective(date, log, m, w.date, w.log, w.md5);
      }
    }
  }

  /** After any sequence of writes to any of the logs, the listing of one of them is
      exactly what is logged there: nothing is lost, and nothing of another date, log, or
      of a log whose name merely begins alike, is taken in. */
  lemma ListingExact(ws: seq<Write>, date: string, log: string)
    requires Plain(date) && Plain(log) && forall w :: w in ws ==> PlainWrite(w)
    ensures Md5sOf(Written(ws), date, log) == LoggedAfter(ws, date, log)
  {
    hide Split, Key, Prefix, Written, LoggedAfter;
    var db := Written(ws);
    forall k | k in db && Prefix(date, log) <= k && |Split(k, '_')| >= 3
      ensures Split(k, '_')[2] in LoggedAfter(ws, date, log)
    {
      WrittenKeys(ws, date, log, k);
      var m :| m in LoggedAfter(ws, date, log) && k == Key(date, log, m);
      LoggedIsWritten(ws, date, log, m);
      PlainKey(date, log, m);
    }
    forall m | m in LoggedAfter(ws, date, log)
      ensures m in Md5sOf(db, date, log)
    {
      LoggedIsWritten(ws, date, log, m);
      PlainKey(date, log, m);
    }
  }

  lemma PlainKey(date: string, log: string, md5: string)
    requires Plain(date) && Plain(log) && Plain(md5)
    ensures Split(Key(date, log, md5), '_') == [date, log, md5] && Prefix(date, log) <= Key(date, log, md5)
  {
    KeyParts(date, log, md5);
    SplitWhole(md5, '_');
  }

  // ---- Backup --------------------------------------------------------------

  function Line(e: Entry): string {
    e.md5 + ['|'] + (PrintInt(e.size) + ['|'] + (PrintInt(e.timeStamp) + ['|'] + e.fullPath))
  }

  /** The log file for the values the iterator yields, in its order; a value that does not
      decode is skipped. */
  function LogLines(vs: seq<Value>): string {
    if vs == [] then ""
    else LogLines(vs[..|vs| - 1]) + LogLine(vs[|vs| - 1])
  }

  function LogLine(v: Value): string {
    match v.entry case None => "" case Some(e) => Line(e) + "\n"
  }

  /** The metadata file: each record under its checksum and under that of its path. */
  function MetaLine(sum: string -> string, v: Value): string {
    match v.entry
    case None => ""
    case Some(e) => e.md5 + "\t" + v.text + "\n" + sum(e.fullPath) + "\t" + v.text + "\n"
  }

  function MetaLines(sum: string -> string, vs: seq<Value>): string {
    if vs == [] then ""
    else MetaLines(sum, vs[..|vs| - 1]) + MetaLine(sum, vs[|vs| - 1])
  }

  predicate Counts(line: string) {
    var cols := Split(line, '|');
    |cols| > 2 && ParseInt64(cols[1]).Some?
  }

  /** What GetMd5sMapByDate makes of the lines of a file. */
  function Parsed(lines: seq<string>): set<string> {
    if lines == [] then {}
    else (if Counts(lines[0]) then {Split(lines[0], '|')[0]} else {}) + Parsed(lines[1..])
  }

  /** The values an iterator yields for these keys. */
  function Yielded(db: Db, order: seq<string>): (vs: seq<Value>)
    ensures |vs| == |order|
    ensures forall i :: 0 <= i < |order| && order[i] in db ==> vs[i] == db[order[i]]
  {
    seq(|order|, i requires 0 <= i < |order| => if order[i] in db then db[order[i]] else Value("", None))
  }

  function DayFile(dataDir: string, date: string, name: string): string { dataDir + "/" + date + "/" + name }

  /** A file that would be empty is removed. */
  function FileOrNone(files: map<string, string>, path: string, content: string): map<string, string> {
    if content == "" then files - {path} else files[path := content]
  }

  lemma NoLines(sum: string -> string)
    ensures LogLines([]) == "" && MetaLines(sum, []) == ""
  {
  }

  lemma LogLinesAppended(vs: seq<Value>, v: Value)
    ensures LogLines(vs + [v]) == LogLines(vs) + LogLine(v)
  {
    assert (vs + [v])[..|vs|] == vs;
  }

  lemma MetaLinesAppended(sum: string -> string, vs: seq<Value>, v: Value)
    ensures MetaLines(sum, vs + [v]) == MetaLines(sum, vs) + MetaLine(sum, v)
  {
    assert (vs + [v])[..|vs|] == vs;
  }

  class Store {
    var logDB: Db
    var files: map<string, string>
    const dataDir: string

    constructor (dataDir: string)
      ensures logDB == map[] && files == map[] && this.dataDir == dataDir
    {
      logDB, files := map[], map[];
      this.dataDir := dataDir;
    }

    method Put(date: string, log: string, md5: string, v: Value)
      modifies this`logDB
      ensures logDB == old(logDB)[Key(date, log, md5) := v]
    {
      logDB := logDB[Key(date, log, md5) := v];
    }

    method Delete(date: string, log: string, md5: string)
      modifies this`logDB
      ensures logDB == old(logDB) - {Key(date, log, md5)}
    {
      logDB := logDB - {Key(date, log, md5)};
    }

    method GetMd5sByDate(date: string, log: string) returns (md5set: set<string>)
      ensures md5set == Md5sOf(logDB, date, log)
    {
      md5set := {};
      var keyPrefix := Prefix(date, log);
      var todo := set k | k in logDB && keyPrefix <= k;
      while todo != {}
        invariant todo <= set k | k in logDB && keyPrefix <= k
        invariant md5set == set k | k in logDB && keyPrefix <= k && k !in todo && |Split(k, '_')| >= 3 ::
            Split(k, '_')[2]
      {
        var k :| k in todo;
        var keys := Split(k, '_');
        if |keys| >= 3 {
          md5set := md5set + {keys[2]};
        }
        todo := todo - {k};
      }
    }

    /** The iterator yields the values of the day's files.md5 log in the order of its keys;
        sum is the checksum of a path. */
    method BackUpMetaDataByDate(date: string, order: seq<string>, sum: string -> string)
      requires forall k :: k in order <==> k in logDB && Prefix(date, FILES) <= k
      modifies this`files
      ensures
        files == BackedUp(old(files), dataDir, date, sum, Yielded(logDB, order))
    {
      hide LogLine, LogLines, MetaLine, MetaLines, DayFile, Prefix, Yielded;
      var logName, metaName := DayFile(dataDir, date, FILES), DayFile(dataDir, date, "meta.data");
      ghost var vs := Yielded(logDB, order);
      var log, meta := "", "";
      var i := 0;
      NoLines(sum);
      while i < |order|
        invariant 0 <= i <= |order| && files == old(files) && logDB == old(logDB)
        invariant log == LogLines(vs[..i]) && meta == MetaLines(sum, vs[..i])
      {
        assert order[i] in order;
        var v := logDB[order[i]];
        assert vs[..i + 1] == vs[..i] + [v];
        LogLinesAppended(vs[..i], v);
        MetaLinesAppended(sum, vs[..i], v);
        log := log + LogLine(v);
        meta := meta + MetaLine(sum, v);
        i := i + 1;
      }
      assert vs[..|order|] == vs;
      assert log == LogLines(vs) && meta == MetaLines(sum, vs);
      files := if log == "" then files - {logName} else files[logName := log];
      files := if meta == "" then files - {metaName} else files[metaName := meta];
    }

    method GetMd5sMapByDate(date: string, filename: string) returns (result: set<string>, found: bool)
      ensures
        var path := DayFile(dataDir, date, if filename == "" then FILES else filename);
        && found == (path in files)
        && result == if found then Parsed(Split(files[path], '\n')) else {}
    {
      hide Split, Counts, DayFile;
      result := {};
      var fpath := DayFile(dataDir, date, if filename == "" then FILES else filename);
      found := fpath in files;
      if !found { return; }
      var lines := Split(files[fpath], '\n');
      var i := 0;
      while i < |lines|
        invariant 0 <= i <= |lines|
        invariant result + Parsed(lines[i..]) == Parsed(lines)
      {
        if Counts(lines[i]) {
          result := result + {Split(lines[i], '|')[0]};
        }
        i := i + 1;
      }
    }
  }

  predicate Printable(v: Value) {
    v.entry.Some? ==>
      var e := v.entry.value;
      && '\n' !in e.fullPath && '\n' !in e.md5 && '|' !in e.md5
      && INT64_MIN <= e.size <= INT64_MAX && INT64_MIN <= e.timeStamp <= INT64_MAX
  }

  function Md5s(vs: seq<Value>): set<string> {
    set v | v in vs && v.entry.Some? :: v.entry.value.md5
  }

  lemma LineParses(e: Entry)
    requires Printable(Value("", Some(e)))
    ensures Counts(Line(e)) && Split(Line(e), '|')[0] == e.md5 && '\n' !in Line(e)
  {
    hide Split, PrintInt;
    PrintedInt(e.size);
    PrintedInt(e.timeStamp);
    var tail := PrintInt(e.timeStamp) + ['|'] + e.fullPath;
    SplitField(PrintInt(e.size), tail, '|');
    SplitField(PrintInt(e.timeStamp), e.fullPath, '|');
    SplitField(e.md5, PrintInt(e.size) + ['|'] + tail, '|');
  }

  /** Read from a file is the first field of each line that has three or more, the second of them
      an integer. */
  lemma {:induction false} ParsedExactly(lines: seq<string>, m: string)
    ensures m in Parsed(lines) <==>
              exists i :: 0 <= i < |lines| && |Split(lines[i], '|')| >= 3
                       && ParseInt64(Split(lines[i], '|')[1]).Some? && Split(lines[i], '|')[0] == m
  {
    hide Split, ParseInt64;
    if lines != [] {
      ParsedExactly(lines[1..], m);
      assert forall i :: 0 <= i < |lines| - 1 ==> lines[1..][i] == lines[i + 1];
      assert forall i :: 0 < i < |lines| ==> lines[i] == lines[1..][i - 1];
    }
  }

  lemma {:induction false} ParsedConcat(a: seq<string>, b: seq<string>)
    ensures Parsed(a + b) == Parsed(a) + Parsed(b)
  {
    if a == [] {
      assert a + b == b;
    } else {
      hide Counts, Split;
      ParsedConcat(a[1..], b);
      assert (a + b)[1..] == a[1..] + b;
    }
  }

  lemma LastIsEmpty(text: string)
    requires text == "" || text[|text| - 1] == '\n'
    ensures Split(text, '\n')[|Split(text, '\n')| - 1] == ""
  {
    hide Split;
    LinesAppended(text, "");
    SplitWhole("", '\n');
    assert text + "" == text;
  }

  predicate Lines(text: string) { text == "" || text[|text| - 1] == '\n' }

  lemma {:induction false} LogLinesParse(vs: seq<Value>)
    requires forall v :: v in vs ==> Printable(v)
    ensures Lines(LogLines(vs)) && Parsed(Split(LogLines(vs), '\n')) == Md5s(vs)
  {
    if vs == [] {
      EmptyParses();
    } else {
      hide *;
      var init, v := vs[..|vs| - 1], vs[|vs| - 1];
      assert v in vs;
      LogLinesParse(init);
      LogLinesAppended(init, v);
      Md5sAppended(init, v);
      assert vs == init + [v];
      LineParsed(LogLines(init), v);
    }
  }

  lemma LineParsed(text: string, v: Value)
    requires Lines(text) && Printable(v)
    ensures Lines(text + LogLine(v))
    ensures Parsed(Split(text + LogLine(v), '\n'))
         == Parsed(Split(text, '\n')) + (if v.entry.Some? then {v.entry.value.md5} else {})
  {
    hide Split, Counts, Line, Parsed;
    if v.entry.Some? {
      LineAppended(text, v.entry.value);
    } else {
      assert text + "" == text;
    }
  }

  lemma Md5sAppended(vs: seq<Value>, v: Value)
    ensures Md5s(vs + [v]) == Md5s(vs) + (if v.entry.Some? then {v.entry.value.md5} else {})
  {
    assert forall u :: u in vs + [v] <==> u in vs || u == v;
  }

  lemma EmptyParses()
    ensures Parsed(Split("", '\n')) == {} && Parsed([""]) == {}
  {
    SplitWhole("", '\n');
    SplitWhole("", '|');
    assert [""][1..] == [];
  }

  lemma OneLineParsed(line: string)
    requires Counts(line)
    ensures Parsed([line, ""]) == {Split(line, '|')[0]}
  {
    hide Split, Counts, Parsed;
    EmptyParses();
    ParsedConcat([line], [""]);
    assert [line] + [""] == [line, ""];
    assert Parsed([line]) == {Split(line, '|')[0]} by { SingleParsed(line); }
  }

  lemma SingleParsed(line: string)
    requires Counts(line)
    ensures Parsed([line]) == {Split(line, '|')[0]}
  {
    hide Split, Counts;
  }

  lemma LineAppended(text: string, e: Entry)
    requires text == "" || text[|text| - 1] == '\n'
    requires Printable(Value("", Some(e)))
    ensures Parsed(Split(text + (Line(e) + "\n"), '\n')) == Parsed(Split(text, '\n')) + {e.md5}
  {
    hide Split, Counts, Line, Parsed, Printable;
    var lines := Split(text, '\n');
    LineParses(e);
    LastIsEmpty(text);
    EmptyParses();
    assert lines == lines[..|lines| - 1] + [""];
    ParsedConcat(lines[..|lines| - 1], [""]);
    TextAppended(text, Line(e));
    ParsedConcat(lines[..|lines| - 1], [Line(e), ""]);
    OneLineParsed(Line(e));
  }

  lemma TextAppended(text: string, line: string)
    requires text == "" || text[|text| - 1] == '\n'
    requires '\n' !in line
    ensures Split(text + (line + "\n"), '\n') == Split(text, '\n')[..|Split(text, '\n')| - 1] + [line, ""]
  {
    hide Split;
    LinesAppended(text, line + "\n");
    SplitField(line, "", '\n');
    SplitWhole("", '\n');
    assert line + ['\n'] + "" == line + "\n";
  }

  /** Splitting a text to which something is appended after a complete line. */
  lemma {:induction false} LinesAppended(text: string, rest: string)
    requires text == "" || text[|text| - 1] == '\n'
    ensures Split(text + rest, '\n') == Split(text, '\n')[..|Split(text, '\n')| - 1] + Split(rest, '\n')
    decreases |text|
  {
    hide Split, IndexOf;
    var c := '\n';
    if text == "" {
      assert text + rest == rest;
      SplitWhole("", c);
    } else {
      var line, more := FirstLine(text);
      LinesAppended(more, rest);
      SplitField(line, more, c);
      assert text + rest == line + [c] + (more + rest);
      SplitField(line, more + rest, c);
    }
  }

  lemma FirstLine(text: string) returns (line: string, more: string)
    requires text != "" && text[|text| - 1] == '\n'
    ensures text == line + ['\n'] + more && '\n' !in line
    ensures more == "" || more[|more| - 1] == '\n'
  {
    var i := IndexOf(text, '\n');
    assert text[..|text|] == text && text[|text| - 1] in text;
    line, more := text[..i], text[i + 1..];
  }

  /** Every key of the log is that of the record it holds. */
  predicate Keyed(db: Db, date: string) {
    forall k :: k in db && Prefix(date, FILES) <= k ==>
      db[k].entry.Some? && Plain(db[k].entry.value.md5) && k == Key(date, FILES, db[k].entry.value.md5)
  }

  /** What the reader of the day's backup file returns. */
  function ReadBackup(files: map<string, string>, dataDir: string, date: string): set<string> {
    var path := DayFile(dataDir, date, FILES);
    if path in files then Parsed(Split(files[path], '\n')) else {}
  }

  /** What BackUpMetaDataByDate makes of the files. */
  function BackedUp(files: map<string, string>, dataDir: string, date: string, sum: string -> string,
                    vs: seq<Value>): map<string, string> {
    FileOrNone(FileOrNone(files, DayFile(dataDir, date, FILES), LogLines(vs)),
               DayFile(dataDir, date, "meta.data"), MetaLines(sum, vs))
  }

  /** Reading the backup of a day gives exactly the checksums logged for that day, also
      when nothing is logged and an older backup existed. Paths may hold '|', and the order
      of the iterator does not matter. */
  lemma BackupRoundTrip(db: Db, files: map<string, string>, dataDir: string, date: string, order: seq<string>,
                        sum: string -> string)
    requires Plain(date) && Keyed(db, date)
    requires forall k :: k in order <==> k in db && Prefix(date, FILES) <= k
    requires forall k :: k in order ==> Printable(db[k])
    ensures ReadBackup(BackedUp(files, dataDir, date, sum, Yielded(db, order)), dataDir, date) ==
        Md5sOf(db, date, FILES)
  {
    hide Split, LogLines, MetaLines, Key, Prefix, Parsed, Md5sOf, Printable;
    var vs := Yielded(db, order);
    assert forall v :: v in vs ==> exists i :: 0 <= i < |order| && order[i] in order && v == db[order[i]];
    LogLinesParse(vs);
    YieldedMd5s(db, date, order);
    OtherFile(dataDir, date);
    if LogLines(vs) == "" {
      EmptyParses();
    }
  }

  lemma OtherFile(dataDir: string, date: string)
    ensures DayFile(dataDir, date, FILES) != DayFile(dataDir, date, "meta.data")
  {
    var dir := dataDir + "/" + date + "/";
    assert DayFile(dataDir, date, FILES)[|dir|] == 'f' && DayFile(dataDir, date, "meta.data")[|dir|] == 'm';
  }

  lemma YieldedMd5s(db: Db, date: string, order: seq<string>)
    requires Plain(date) && Keyed(db, date)
    requires forall k :: k in order <==> k in db && Prefix(date, FILES) <= k
    ensures Md5s(Yielded(db, order)) == Md5sOf(db, date, FILES)
  {
    hide Split, Key, Prefix;
    var vs := Yielded(db, order);
    forall v | v in vs && v.entry.Some?
      ensures v.entry.value.md5 in Md5sOf(db, date, FILES)
    {
      var i :| 0 <= i < |vs| && vs[i] == v;
      assert order[i] in order;
      PlainKey(date, FILES, v.entry.value.md5);
    }
    forall k | k in db && Prefix(date, FILES) <= k && |Split(k, '_')| >= 3
      ensures Split(k, '_')[2] in Md5s(vs)
    {
      PlainKey(date, FILES, db[k].entry.value.md5);
      assert k in order;
      var i :| 0 <= i < |order| && order[i] == k;
      assert vs[i] == db[k] && vs[i] in vs;
    }
  }

  // ---- What the two files hold ---------------------------------------------

  /** A line of the log is the checksum, the size, the time and the path; the last may hold the
      separator. */
  lemma LineFields(e: Entry)
    requires '|' !in e.md5 && INT64_MIN <= e.size <= INT64_MAX && INT64_MIN <= e.timeStamp <= INT64_MAX
    ensures var fields := Split(Line(e), '|');
      && fields == [e.md5, PrintInt(e.size), PrintInt(e.timeStamp)] + Split(e.fullPath, '|')
      && ParseInt64(fields[1]) == Some(e.size) && ParseInt64(fields[2]) == Some(e.timeStamp)
  {
    hide Split, PrintInt, ParseInt64;
    PrintedInt(e.size);
    PrintedInt(e.timeStamp);
    var tail := PrintInt(e.timeStamp) + ['|'] + e.fullPath;
    SplitField(PrintInt(e.timeStamp), e.fullPath, '|');
    SplitField(PrintInt(e.size), tail, '|');
    SplitField(e.md5, PrintInt(e.size) + ['|'] + tail, '|');
  }

  /** The value decodes, and neither its text nor its checksums break a line. */
  predicate OneLine(sum: string -> string, v: Value) {
    && v.entry.Some? && '\n' !in v.entry.value.md5 && '\n' !in v.text
    && '\n' !in sum(v.entry.value.fullPath) && '\n' !in Line(v.entry.value)
  }

  /** The log file has one line for each value, in the iterator's order. */
  lemma {:induction false} LogFileLines(sum: string -> string, vs: seq<Value>)
    requires forall i :: 0 <= i < |vs| ==> OneLine(sum, vs[i])
    ensures var lines := Split(LogLines(vs), '\n');
      && Lines(LogLines(vs)) && |lines| == |vs| + 1
      && forall i :: 0 <= i < |vs| ==> vs[i].entry.Some? && lines[i] == Line(vs[i].entry.value)
  {
    hide Split, Line, LogLine;
    if vs == [] {
      SplitWhole("", '\n');
    } else {
      var init, v := vs[..|vs| - 1], vs[|vs| - 1];
      LogFileLines(sum, init);
      LogLinesAppended(init, v);
      assert vs == init + [v];
      LogAppended(sum, LogLines(init), v);
    }
  }

  lemma LogAppended(sum: string -> string, text: string, v: Value)
    requires Lines(text) && OneLine(sum, v)
    ensures Lines(text + LogLine(v))
    ensures Split(text + LogLine(v), '\n') == Split(text, '\n')[..|Split(text, '\n')| - 1] + [Line(v.entry.value), ""]
  {
    hide Split, Line;
    TextAppended(text, Line(v.entry.value));
  }

  /** The metadata file has two lines for each value: the stored text under the checksum of the
      content, and then under that of the path. */
  lemma {:induction false} MetaFileLines(sum: string -> string, vs: seq<Value>)
    requires forall i :: 0 <= i < |vs| ==> OneLine(sum, vs[i])
    ensures var lines := Split(MetaLines(sum, vs), '\n');
      && Lines(MetaLines(sum, vs)) && |lines| == 2 * |vs| + 1
      && forall i :: 0 <= i < |vs| ==>
           && vs[i].entry.Some?
           && lines[2 * i] == vs[i].entry.value.md5 + "\t" + vs[i].text
           && lines[2 * i + 1] == sum(vs[i].entry.value.fullPath) + "\t" + vs[i].text
  {
    hide Split, Line, MetaLine;
    if vs == [] {
      SplitWhole("", '\n');
    } else {
      var init, v := vs[..|vs| - 1], vs[|vs| - 1];
      MetaFileLines(sum, init);
      MetaLinesAppended(sum, init, v);
      assert vs == init + [v];
      MetaAppended(sum, MetaLines(sum, init), v);
    }
  }

  lemma MetaAppended(sum: string -> string, text: string, v: Value)
    requires Lines(text) && OneLine(sum, v)
    ensures var e := v.entry.value;
      && Lines(text + MetaLine(sum, v))
      && Split(text + MetaLine(sum, v), '\n') == Split(text, '\n')[..|Split(text, '\n')| - 1]
           + [e.md5 + "\t" + v.text, sum(e.fullPath) + "\t" + v.text, ""]
  {
    hide Split, Line;
    var e := v.entry.value;
    var first, second := e.md5 + "\t" + v.text, sum(e.fullPath) + "\t" + v.text;
    TextAppended(text, first);
    TextAppended(text + (first + "\n"), second);
    assert text + MetaLine(sum, v) == text + (first + "\n") + (second + "\n");
  }

  /** A backup writes no other file; and if no record of the day decodes, it leaves neither of
      its two, whatever was there. */
  lemma NothingToBackUp(files: map<string, string>, dataDir: string, date: string, sum: string -> string,
                        vs: seq<Value>)
    ensures var t, log, meta := BackedUp(files, dataDir, date, sum, vs), DayFile(dataDir, date, FILES),
                                DayFile(dataDir, date, "meta.data");
      && (forall p :: p != log && p != meta ==> (p in t <==> p in files) && (p in files ==> t[p] == files[p]))
      && ((forall v :: v in vs ==> v.entry.None?) ==> log !in t && meta !in t)
  {
    hide DayFile;
    OtherFile(dataDir, date);
    if forall v :: v in vs ==> v.entry.None? { NoLinesFrom(sum, vs); }
  }

  lemma {:induction false} NoLinesFrom(sum: string -> string, vs: seq<Value>)
    requires forall v :: v in vs ==> v.entry.None?
    ensures LogLines(vs) == "" && MetaLines(sum, vs) == ""
  {
    if vs != [] {
      assert vs[|vs| - 1] in vs;
      NoLinesFrom(sum, vs[..|vs| - 1]);
    }
  }

  // ---- Over runs of writes -------------------------------------------------

  /** A record that is logged goes under the key of its own checksum, and prints. */
  predicate OwnKey(w: Write) {
    PlainWrite(w)
        && (w.Put? && w.log == FILES ==> w.value.entry.Some? && w.value.entry.value.md5 == w.md5 && Printable(w.value))
  }

  lemma {:induction false} WrittenKeyed(ws: seq<Write>, date: string, k: string)
    requires Plain(date) && forall w :: w in ws ==> OwnKey(w)
    requires k in Written(ws) && Prefix(date, FILES) <= k
    ensures var v := Written(ws)[k];
      v.entry.Some? && Plain(v.entry.value.md5) && k == Key(date, FILES, v.entry.value.md5) && Printable(v)
  {
    hide Split, Key, Prefix, Printable;
    var w := ws[|ws| - 1];
    assert w in ws;
    if k == Key(w.date, w.log, w.md5) {
      PrefixExact(date, FILES, w.date, w.log, w.md5);
    } else {
      WrittenKeyed(ws[..|ws| - 1], date, k);
    }
  }

  /** After any sequence of writes to any logs, in which each record goes under its own key,
      the backup of a day, read back, gives exactly the checksums that were logged for the day
      and not removed since, whatever order the iterator yields them in. */
  lemma BackupOfRun(ws: seq<Write>, files: map<string, string>, dataDir: string, date: string, order: seq<string>,
                    sum: string -> string)
    requires Plain(date) && forall w :: w in ws ==> OwnKey(w)
    requires forall k :: k in order <==> k in Written(ws) && Prefix(date, FILES) <= k
    ensures ReadBackup(BackedUp(files, dataDir, date, sum, Yielded(Written(ws), order)), dataDir, date)
         == LoggedAfter(ws, date, FILES)
  {
    hide Split, Key, Prefix, Printable, Md5sOf, Written, ReadBackup, BackedUp, Yielded, LoggedAfter;
    var db := Written(ws);
    forall k | k in db && Prefix(date, FILES) <= k
      ensures db[k].entry.Some? && Plain(db[k].entry.value.md5) && k == Key(date, FILES, db[k].entry.value.md5)
      ensures Printable(db[k])
    {
      WrittenKeyed(ws, date, k);
    }
    BackupRoundTrip(db, files, dataDir, date, order, sum);
    ListingExact(ws, date, FILES);
  }
}
