/** The URL printed for a record, and the two paths a request for it is mapped to. */
module DownloadUrl {
  import opened Text
  import opened Types
  import SmallFileName

  // ---- Percent encoding (net/url) ------------------------------------------

  predicate IsHex(c: char) { '0' <= c <= '9' || 'a' <= c <= 'f' || 'A' <= c <= 'F' }

  function HexValue(c: char): nat
    requires IsHex(c)
  {
    if '0' <= c <= '9' then c as int - '0' as int
    else if 'a' <= c <= 'f' then c as int - 'a' as int + 10
    else c as int - 'A' as int + 10
  }

  function HexDigit(d: int): char {
    var v := d % 16;
    if v < 10 then ('0' as int + v) as char else ('A' as int + v - 10) as char
  }

  /** The characters url.PathEscape leaves alone. */
  predicate IsPathChar(c: char) {
    'a' <= c <= 'z' || 'A' <= c <= 'Z' || '0' <= c <= '9' || c in "-_.~$&+:=@"
  }

  function PathEscape(s: string): string {
    if s == [] then []
    else (if IsPathChar(s[0]) then [s[0]] else ['%', HexDigit(s[0] as int / 16), HexDigit(s[0] as int)])
         + PathEscape(s[1..])
  }

  function PathUnescape(s: string): Option<string> {
    if s == [] then Some([])
    else if s[0] != '%' then
      match PathUnescape(s[1..]) case None => None case Some(t) => Some([s[0]] + t)
    else if |s| < 3 || !IsHex(s[1]) || !IsHex(s[2]) then None
    else
      match PathUnescape(s[3..])
      case None => None
      case Some(t) => Some([(16 * HexValue(s[1]) + HexValue(s[2])) as char] + t)
  }

  /** A decoded string is shorter than what was decoded, unless there was nothing to decode. */
  lemma {:induction false} UnescapeShrinks(s: string)
    ensures '%' !in s ==> PathUnescape(s) == Some(s)
    ensures '%' in s && PathUnescape(s).Some? ==> |PathUnescape(s).value| < |s|
  {
    if s != [] {
      UnescapeShrinks(s[1..]);
      assert s == [s[0]] + s[1..];
      if s[0] == '%' && |s| >= 3 {
        UnescapeShrinks(s[3..]);
      }
    }
  }

  /** A character that is a byte, and the two digits it is escaped by. */
  lemma HexDigits(c: char)
    requires c as int < 256
    ensures IsHex(HexDigit(c as int / 16)) && IsHex(HexDigit(c as int))
    ensures (16 * HexValue(HexDigit(c as int / 16)) + HexValue(HexDigit(c as int))) as char == c
  {
    HexDigitValue(c as int / 16);
    HexDigitValue(c as int);
  }

  lemma HexDigitValue(d: int)
    ensures IsHex(HexDigit(d)) && HexValue(HexDigit(d)) == d % 16
  {
  }

  /** What was escaped is read back, and nothing but path characters and escapes was printed. */
  lemma {:induction false} EscapeRoundTrip(s: string)
    requires forall i :: 0 <= i < |s| ==> s[i] as int < 256
    ensures PathUnescape(PathEscape(s)) == Some(s)
    ensures forall c :: c in PathEscape(s) ==> IsPathChar(c) || c == '%'
  {
    hide IsPathChar, HexDigit, HexValue, IsHex;
    if s != [] {
      EscapeRoundTrip(s[1..]);
      EscapedFirst(s[0], PathEscape(s[1..]));
      assert s == [s[0]] + s[1..];
    }
  }

  /** One character is read back in front of any other. */
  lemma EscapedFirst(c: char, rest: string)
    requires c as int < 256 && PathUnescape(rest).Some?
    ensures var e := if IsPathChar(c) then [c] else ['%', HexDigit(c as int / 16), HexDigit(c as int)];
      && PathUnescape(e + rest) == Some([c] + PathUnescape(rest).value)
      && forall x :: x in e ==> IsPathChar(x) || x == '%'
  {
    if IsPathChar(c) {
      assert ([c] + rest)[1..] == rest;
    } else {
      HexDigits(c);
      var e := ['%', HexDigit(c as int / 16), HexDigit(c as int)];
      assert (e + rest)[3..] == rest;
    }
  }

  lemma {:induction false} EscapedIsSlashFree(s: string)
    ensures '/' !in PathEscape(s)
  {
    if s != [] { EscapedIsSlashFree(s[1..]); }
  }

  // ---- Printing and reading a request --------------------------------------

  /** What stands before the path inside the store: the group, if there is one. */
  function Root(cfg: Config): string {
    if cfg.supportGroup then "/" + cfg.group + "/" else "/"
  }

  /** The path inside the store. */
  function StorePath(info: FileInfo): string {
    ReplaceFirst(info.path, STORE_DIR_NAME + "/", "") + "/" + info.OutName()
  }

  /** BuildFileResult: the Path of the result. */
  function ResultPath(cfg: Config, info: FileInfo): string {
    Root(cfg) + StorePath(info)
  }

  /** BuildFileResult: what follows the path in the URL of the result. */
  function ResultQuery(cfg: Config, info: FileInfo): string {
    if cfg.defaultDownload then "?name=" + PathEscape(info.name) + "&download=1" else ""
  }

  function ResultURI(cfg: Config, info: FileInfo): string {
    ResultPath(cfg, info) + ResultQuery(cfg, info)
  }

  function LargePrefix(cfg: Config): string {
    Root(cfg) + (LARGE_DIR_NAME + "/")
  }

  /** What follows the group in a request. */
  function Ungrouped(cfg: Config, uri: string): string
    requires uri != ""
  {
    if "/" + cfg.group + "/" <= uri then uri[|cfg.group| + 2..] else uri[1..]
  }

  /** GetFilePathFromRequest: the path of the file or blob asked for, and the full path
      of the small file, which is empty when a whole file is asked for. */
  function GetFilePathFromRequest(cfg: Config, uri: string): (string, string)
    requires uri != ""
  {
    var full := cfg.dockerDir + STORE_DIR_NAME + "/" + Split(Ungrouped(cfg, uri), '?')[0];
    if LargePrefix(cfg) <= uri then (Unescaped(Split(full, ',')[0]), full) else (Unescaped(full), "")
  }

  /** url.PathUnescape returns the empty string with an error, and the error is ignored. */
  function Unescaped(s: string): string {
    match PathUnescape(s) case None => "" case Some(t) => t
  }

  // ---- Round trips ---------------------------------------------------------

  lemma UnescapedLength(s: string)
    ensures |Unescaped(s)| <= |s|
    ensures s != "" ==> ('%' !in s <==> Unescaped(s) == s)
  {
    UnescapeShrinks(s);
  }

  /** Cutting at '?' gives back what precedes the query exactly when that has no '?'. */
  lemma CutQuery(a: string, query: string)
    requires query == "" || query[0] == '?'
    ensures if '?' in a then |Split(a + query, '?')[0]| < |a| else Split(a + query, '?')[0] == a
  {
    var s := a + query;
    var i := IndexOf(s, '?');
    assert s[..|a|] == a;
    if '?' !in a {
      if query == "" {
        SplitWhole(a, '?');
        assert s == a;
      } else {
        assert query == ['?'] + query[1..];
        assert s == a + ['?'] + query[1..];
        IndexOfAt(a, query[1..], '?');
      }
    } else {
      var k :| 0 <= k < |a| && a[k] == '?';
      assert s[k] == '?';
      assert forall j :: 0 <= j < i ==> s[j] == s[..i][j];
      assert i <= k;
    }
  }

  function BlobPath(cfg: Config, info: FileInfo, blob: string): string {
    cfg.dockerDir + info.path + "/" + blob
  }

  /** A record of a file stored under files/ in folder p. */
  predicate Stored(cfg: Config, info: FileInfo, p: string) {
    && info.path == STORE_DIR_NAME + "/" + p
    // without groups, a first folder named like the group is taken for the group
    && (cfg.supportGroup || !("/" + cfg.group + "/" <= ResultURI(cfg, info)))
  }

  lemma UngroupedResult(cfg: Config, info: FileInfo, p: string)
    requires Stored(cfg, info, p)
    ensures ResultURI(cfg, info) != ""
    ensures Ungrouped(cfg, ResultURI(cfg, info)) == p + "/" + info.OutName() + ResultQuery(cfg, info)
    ensures LargePrefix(cfg) <= ResultURI(cfg, info)
        <==> LARGE_DIR_NAME + "/" <= p + "/" + info.OutName() + ResultQuery(cfg, info)
  {
    hide Root, ResultQuery;
    StoredUnder(info, p);
    var tail, q := StorePath(info), ResultQuery(cfg, info);
    assert Root(cfg) + tail + q == Root(cfg) + (tail + q);
    PrefixShift(Root(cfg), LARGE_DIR_NAME + "/", tail + q);
    RootIsCut(cfg, tail + q);
  }

  lemma StoredUnder(info: FileInfo, p: string)
    requires info.path == STORE_DIR_NAME + "/" + p
    ensures StorePath(info) == p + "/" + info.OutName()
  {
    assert info.path == STORE_DIR_NAME + "/" + p;
    assert info.path[|STORE_DIR_NAME + "/"|..] == p;
  }

  lemma RootIsCut(cfg: Config, rest: string)
    requires cfg.supportGroup || !("/" + cfg.group + "/" <= Root(cfg) + rest)
    ensures Root(cfg) + rest != "" && Ungrouped(cfg, Root(cfg) + rest) == rest
  {
    PrefixShift(Root(cfg), "", rest);
  }

  lemma PrefixShift(g: string, a: string, b: string)
    ensures g + a <= g + b <==> a <= b
    ensures g <= g + b && (g + b)[|g|..] == b
  {
    if a <= b {
      assert g + b == g + a + b[|a|..];
    }
    if g + a <= g + b {
      assert b[..|a|] == (g + b)[|g|..|g| + |a|] == (g + a)[|g|..] == a;
    }
  }

  /** The URL printed is the group, if there is one, the folder below files/ and the name; and for
      a download the name once more, so that it can be read back. */
  lemma PrintedUrl(cfg: Config, info: FileInfo, p: string)
    requires info.path == "files/" + p && forall i :: 0 <= i < |info.name| ==> info.name[i] as int < 256
    ensures exists name ::
      && PathUnescape(name) == Some(info.name)
      && ResultURI(cfg, info) == (if cfg.supportGroup then "/" + cfg.group else "") + "/" + p + "/" + info.OutName()
                                 + (if cfg.defaultDownload then "?name=" + name + "&download=1" else "")
  {
    hide FileInfo.OutName;
    StoredUnder(info, p);
    EscapeRoundTrip(info.name);
    var group, tail := if cfg.supportGroup then "/" + cfg.group else "", p + "/" + info.OutName();
    assert Root(cfg) == group + "/";
    assert group + "/" + tail == group + "/" + p + "/" + info.OutName();
  }

  /** A request for a whole file, printed with or without a download query, is mapped to
      the record's own path exactly when nothing in that path can be read as an escape
      and nothing the client sends can be read as a query. */
  lemma WholeFileRoundTrip(cfg: Config, info: FileInfo, p: string)
    requires Stored(cfg, info, p)
    requires !(LARGE_DIR_NAME + "/" <= p + "/" + info.OutName() + ResultQuery(cfg, info))
    ensures ResultURI(cfg, info) != ""
    ensures GetFilePathFromRequest(cfg, ResultURI(cfg, info)) == (info.DiskPath(cfg), "")
        <==> '%' !in info.DiskPath(cfg) && '?' !in p && '?' !in info.OutName()
  {
    hide Text.Split, PathUnescape, PathEscape, Ungrouped, Unescaped, LargePrefix, ResultURI;
    var tail, q := p + "/" + info.OutName(), ResultQuery(cfg, info);
    UngroupedResult(cfg, info, p);
    CutQuery(tail, q);
    var base := cfg.dockerDir + STORE_DIR_NAME + "/";
    assert info.DiskPath(cfg) == base + tail;
    var head := Split(tail + q, '?')[0];
    UnescapedLength(base + head);
  }

  /** A request for a small file is mapped to its blob together with the full small path
      exactly when no comma can be taken for the one that ends the blob's name, nothing in
      the blob's path can be read as an escape, and nothing in the name as a query. The
      extension may hold any of '%' and ','. */
  lemma SmallFileRoundTrip(cfg: Config, info: FileInfo, p: string, blob: string, offset: int, size: int, ext: string)
    requires Stored(cfg, info, LARGE_DIR_NAME + "/" + p)
    requires SmallFileName.Printable(blob, offset, size, ext)
    requires info.OutName() == SmallFileName.Print(blob, offset, size, ext)
    ensures ResultURI(cfg, info) != ""
    ensures GetFilePathFromRequest(cfg, ResultURI(cfg, info)) == (BlobPath(cfg, info, blob), info.DiskPath(cfg))
        <==> (',' !in BlobPath(cfg, info, blob) && '%' !in BlobPath(cfg, info, blob)
              && '?' !in p && '?' !in info.OutName())
  {
    hide Text.Split, PathUnescape, PathEscape, Ungrouped, Unescaped, ResultURI, LargePrefix, SmallFileName.Print;
    var pp := LARGE_DIR_NAME + "/" + p;
    var tail, q := pp + "/" + info.OutName(), ResultQuery(cfg, info);
    UngroupedResult(cfg, info, pp);
    CutQuery(tail, q);
    assert '?' in tail <==> '?' in p || '?' in info.OutName();
    var base := cfg.dockerDir + STORE_DIR_NAME + "/";
    var blobPath := BlobPath(cfg, info, blob);
    if '?' !in tail {
      assert info.DiskPath(cfg) == cfg.dockerDir + info.path + "/" + info.OutName() == base + tail;
      BlobOfPath(cfg.dockerDir + info.path, blob, offset, size, ext);
      UnescapedLength(Split(info.DiskPath(cfg), ',')[0]);
    } else {
      assert |info.DiskPath(cfg)| == |base| + |tail|;
    }
  }

  /** The blob alone is found under weaker terms: nothing is asked of the extension. */
  lemma BlobOfRequest(cfg: Config, info: FileInfo, p: string, blob: string, offset: int, size: int, ext: string)
    requires Stored(cfg, info, LARGE_DIR_NAME + "/" + p)
    requires SmallFileName.Printable(blob, offset, size, ext)
    requires info.OutName() == SmallFileName.Print(blob, offset, size, ext)
    ensures ResultURI(cfg, info) != ""
    ensures GetFilePathFromRequest(cfg, ResultURI(cfg, info)).0 == BlobPath(cfg, info, blob)
        <==> ',' !in BlobPath(cfg, info, blob) && '%' !in BlobPath(cfg, info, blob) && '?' !in p && '?' !in blob
  {
    hide Text.Split, PathUnescape, PathEscape, Ungrouped, Unescaped, ResultURI, LargePrefix, Text.PrintInt,
         SmallFileName.Print;
    var pp := LARGE_DIR_NAME + "/" + p;
    var fields := SmallFileName.Field(PrintInt(offset), SmallFileName.Field(PrintInt(size), ext));
    var dir, q := pp + "/" + blob, ResultQuery(cfg, info);
    UngroupedResult(cfg, info, pp);
    assert pp + "/" + info.OutName() == dir + [','] + fields by {
      SmallFileName.PrintAround(pp + "/", blob, offset, size, ext, "");
      assert SmallFileName.Print(dir, offset, size, ext) == dir + [','] + fields by {
        PrintedFields(dir, offset, size, ext);
      }
    }
    assert dir + [','] + fields + q == dir + ([','] + fields + q);
    var base := cfg.dockerDir + STORE_DIR_NAME + "/";
    assert BlobPath(cfg, info, blob) == base + dir;
    CutBlob(base, dir, fields + q);
    assert [','] + fields + q == [','] + (fields + q);
    UnescapedLength(Split(base + Split(dir + [','] + (fields + q), '?')[0], ',')[0]);
    assert '?' in dir <==> '?' in p || '?' in blob;
    assert dir + ([','] + fields + q) == dir + [','] + (fields + q);
  }

  lemma PrintedFields(blob: string, offset: int, size: int, ext: string)
    ensures SmallFileName.Print(blob, offset, size, ext)
         == blob + [','] + SmallFileName.Field(PrintInt(offset), SmallFileName.Field(PrintInt(size), ext))
  {
  }

  /** Cutting first at '?' and then at ',' leaves the blob's path or something shorter. */
  lemma CutBlob(base: string, dir: string, rest: string)
    ensures var head := Split(base + Split(dir + [','] + rest, '?')[0], ',')[0];
            if '?' in dir || ',' in base + dir then |head| < |base + dir| else head == base + dir
  {
    hide Text.Split;
    var cut := Split(dir + [','] + rest, '?')[0];
    SplitHead(base + cut, ',');
    SplitHead(dir + [','] + rest, '?');
    if '?' in dir {
      assert (dir + [','] + rest)[..|dir|] == dir;
      assert |cut| < |dir|;
    } else {
      CutAfter(dir + [','], rest);
      assert dir + [','] <= cut;
      var more := cut[|dir| + 1..];
      assert base + cut == (base + dir) + [','] + more;
      if ',' in base + dir {
        assert (base + cut)[..|base + dir|] == base + dir;
      } else {
        SplitField(base + dir, more, ',');
      }
    }
  }

  lemma CutAfter(a: string, rest: string)
    requires '?' !in a
    ensures a <= Split(a + rest, '?')[0]
  {
    var s := a + rest;
    var i := IndexOf(s, '?');
    assert forall k :: 0 <= k < |a| ==> s[k] == a[k];
    assert i >= |a|;
    assert s[..i][..|a|] == a;
  }

  /** What precedes the first comma of a small file's path is its blob's path exactly when
      that path is free of commas; otherwise it is shorter. */
  lemma BlobOfPath(dir: string, blob: string, offset: int, size: int, ext: string)
    requires ',' !in blob
    ensures var head := Split(dir + "/" + SmallFileName.Print(blob, offset, size, ext), ',')[0];
            if ',' in dir + "/" + blob then |head| < |dir + "/" + blob| else head == dir + "/" + blob
  {
    hide Text.Split, Text.PrintInt;
    SmallFileName.PrintAround(dir + "/", blob, offset, size, ext, "");
    var s := SmallFileName.Print(dir + "/" + blob, offset, size, ext);
    var rest := SmallFileName.Field(PrintInt(offset), SmallFileName.Field(PrintInt(size), ext));
    if ',' !in dir + "/" + blob {
      SplitField(dir + "/" + blob, rest, ',');
    } else {
      SplitHead(s, ',');
      assert s[..|dir + "/" + blob|] == dir + "/" + blob;
    }
  }
}
