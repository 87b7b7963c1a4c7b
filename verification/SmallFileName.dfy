/** The name "blob,offset,size,ext" under which a small file inside a blob is known,
    and its two readers. */
module SmallFileName {
  import opened Text

  const SMALL_FILE_SIZE: int := 1024 * 1024

  datatype Extent = Extent(blob: string, offset: int, length: int)

  datatype ParseError = TooShort | TooFewFields | BadOffset | BadLength | OutOfRange

  datatype Parsed = Ok(extent: Extent) | Err(error: ParseError)

  /** One field of a name, and what follows it. */
  function Field(f: string, rest: string): string { f + [','] + rest }

  /** fmt.Sprintf("%s,%d,%d,%s", blob, offset, size, ext) */
  function Print(blob: string, offset: int, size: int, ext: string): string {
    Field(blob, Field(PrintInt(offset), Field(PrintInt(size), ext)))
  }

  /** ParseSmallFile: offset and length of the name after the last slash. */
  function ParseSmallFile(filename: string): Parsed {
    if |filename| < 3 then Err(TooShort) else
    var pos := Split(AfterLast(filename, '/'), ',');
    if |pos| < 3 then Err(TooFewFields) else
    var offset := ParseInt64(pos[1]);
    if offset.None? then Err(BadOffset) else
    var length := ParseInt64(pos[2]);
    if length.None? then Err(BadLength) else
    if length.value > SMALL_FILE_SIZE || offset.value < 0 then Err(OutOfRange)
    else Ok(Extent(pos[0], offset.value, length.value))
  }

  /** The reader of resumable uploads: it splits the whole path, and checks no bound. */
  function TusExtent(fp: string): Parsed {
    var ps := Split(fp, ',');
    if |ps| <= 2 then Err(TooFewFields) else
    var length := ParseInt64(ps[2]);
    if length.None? then Err(BadLength) else
    var offset := ParseInt64(ps[1]);
    if offset.None? then Err(BadOffset) else Ok(Extent(ps[0], offset.value, length.value))
  }

  predicate Printable(blob: string, offset: int, size: int, ext: string) {
    && '/' !in blob && ',' !in blob && '/' !in ext
    && 0 <= offset <= INT64_MAX && 0 <= size <= INT64_MAX
  }

  lemma FieldAround(dir: string, f: string, rest: string, query: string)
    ensures dir + Field(f, rest) == Field(dir + f, rest)
    ensures Field(f, rest) + query == Field(f, rest + query)
  {
  }

  lemma PrintAround(dir: string, blob: string, offset: int, size: int, ext: string, query: string)
    ensures dir + Print(blob, offset, size, ext) == Print(dir + blob, offset, size, ext)
    ensures Print(blob, offset, size, ext) + query == Print(blob, offset, size, ext + query)
  {
    FieldAround("", PrintInt(size), ext, query);
    FieldAround("", PrintInt(offset), Field(PrintInt(size), ext), query);
    FieldAround(dir, blob, Field(PrintInt(offset), Field(PrintInt(size), ext)), query);
  }

  lemma FieldsOf(blob: string, offset: int, size: int, ext: string)
    requires 0 <= offset <= INT64_MAX && 0 <= size <= INT64_MAX && ',' !in blob
    ensures Split(Print(blob, offset, size, ext), ',') == [blob, PrintInt(offset), PrintInt(size)] + Split(ext, ',')
  {
    hide Text.Split, Text.PrintInt, Text.PrintNat;
    var inner := Field(PrintInt(size), ext);
    assert Split(inner, ',') == [PrintInt(size)] + Split(ext, ',') by {
      PrintedInt(size);
      SplitField(PrintInt(size), ext, ',');
    }
    var tail := Field(PrintInt(offset), inner);
    assert Split(tail, ',') == [PrintInt(offset)] + Split(inner, ',') by {
      PrintedInt(offset);
      SplitField(PrintInt(offset), inner, ',');
    }
    SplitField(blob, tail, ',');
  }

  lemma SlashFree(blob: string, offset: int, size: int, ext: string)
    requires Printable(blob, offset, size, ext)
    ensures '/' !in Print(blob, offset, size, ext) && |Print(blob, offset, size, ext)| >= 3
  {
    PrintedInt(offset);
    PrintedInt(size);
    assert '/' !in Field(PrintInt(size), ext);
    assert '/' !in Field(PrintInt(offset), Field(PrintInt(size), ext));
  }

  /** Whatever directory precedes the name and whatever slash-free query follows it, the
      name parses to exactly what was printed, as long as the size is within the limit;
      one byte more and it does not parse at all. */
  lemma RoundTrip(dir: string, blob: string, offset: int, size: int, ext: string, query: string)
    requires Printable(blob, offset, size, ext) && '/' !in query
    requires dir == "" || dir[|dir| - 1] == '/'
    ensures ParseSmallFile(dir + Print(blob, offset, size, ext) + query)
         == if size <= SMALL_FILE_SIZE then Ok(Extent(blob, offset, size)) else Err(OutOfRange)
  {
    var name := Print(blob, offset, size, ext + query);
    hide Text.Split, Text.PrintInt, Text.PrintNat, Text.AfterLast;
    PrintAround(dir, blob, offset, size, ext, query);
    SlashFree(blob, offset, size, ext + query);
    AfterLastOf(dir, name, '/');
    assert dir + Print(blob, offset, size, ext) + query == dir + name;
    FieldsOf(blob, offset, size, ext + query);
    PrintedInt(offset);
    PrintedInt(size);
  }

  /** The reader of resumable uploads finds the same extent in the same blob, exactly
      when no directory above the blob has a comma in its name. */
  lemma TusReaderAgrees(dir: string, blob: string, offset: int, size: int, ext: string)
    requires Printable(blob, offset, size, ext)
    ensures TusExtent(dir + "/" + Print(blob, offset, size, ext)) == Ok(Extent(dir + "/" + blob, offset, size))
            <==> ',' !in dir
  {
    hide Text.Split, Text.PrintInt, Text.PrintNat, Text.ParseInt64;
    PrintAround(dir + "/", blob, offset, size, ext, "");
    if ',' !in dir {
      FieldsOf(dir + "/" + blob, offset, size, ext);
      PrintedInt(offset);
      PrintedInt(size);
    } else {
      var fp := Print(dir + "/" + blob, offset, size, ext);
      SplitHead(fp, ',');
      assert (dir + "/" + blob)[..|dir|] == dir;
    }
  }
}
