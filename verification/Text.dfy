/** The parts of Go's strings and strconv packages that the names, keys and URLs
    of the file server are printed and parsed with. A string is a sequence of
    single-byte characters. */
module Text {

  datatype Option<+T> = None | Some(value: T)

  // ---- Decimal numbers -----------------------------------------------------

  const INT64_MAX: int := 0x7FFF_FFFF_FFFF_FFFF
  const INT64_MIN: int := -0x8000_0000_0000_0000

  predicate IsDigit(c: char) { '0' <= c <= '9' }

  predicate AllDigits(s: string) { forall i :: 0 <= i < |s| ==> IsDigit(s[i]) }

  function DigitChar(d: nat): (c: char)
    requires d < 10
  {
    ('0' as int + d) as char
  }

  function DigitValue(c: char): nat
    requires IsDigit(c)
  {
    c as int - '0' as int
  }

  function PrintNat(n: nat): (s: string) {
    if n < 10 then [DigitChar(n)] else PrintNat(n / 10) + [DigitChar(n % 10)]
  }

  /** The %d verb of fmt.Sprintf. */
  function PrintInt(n: int): string {
    if n < 0 then ['-'] + PrintNat(-n) else PrintNat(n)
  }

  function NatValue(s: string): nat
    requires AllDigits(s)
  {
    if s == [] then 0 else 10 * NatValue(s[..|s| - 1]) + DigitValue(s[|s| - 1])
  }

  /** strconv.ParseInt(s, 10, 64); strconv.Atoi on a 64-bit platform agrees with it. */
  function ParseInt64(s: string): Option<int> {
    if s == [] then None else
    var body := if s[0] == '-' || s[0] == '+' then s[1..] else s;
    if body == [] || !AllDigits(body) then None else
    var v := if s[0] == '-' then 0 - NatValue(body) else NatValue(body);
    if INT64_MIN <= v <= INT64_MAX then Some(v) else None
  }

  lemma {:induction false} PrintedNat(n: nat)
    ensures |PrintNat(n)| > 0 && AllDigits(PrintNat(n)) && NatValue(PrintNat(n)) == n
  {
    if n >= 10 {
      PrintedNat(n / 10);
      assert PrintNat(n)[..|PrintNat(n)| - 1] == PrintNat(n / 10);
    } else {
      assert PrintNat(n)[..0] == [];
    }
  }

  /** A printed number is read back, and holds no character but digits and a sign. */
  lemma PrintedInt(n: int)
    requires INT64_MIN <= n <= INT64_MAX
    ensures ParseInt64(PrintInt(n)) == Some(n)
    ensures forall c :: c in PrintInt(n) ==> IsDigit(c) || c == '-'
  {
    if n < 0 {
      PrintedNat(-n);
      assert PrintInt(n)[1..] == PrintNat(-n);
    } else {
      PrintedNat(n);
      assert IsDigit(PrintNat(n)[0]);
    }
  }

  // ---- Searching and splitting ---------------------------------------------

  /** Position of the first c, or |s| when there is none. */
  function IndexOf(s: string, c: char): (i: nat)
    ensures i <= |s|
    ensures c !in s[..i]
    ensures i < |s| ==> s[i] == c
  {
    if s == [] || s[0] == c then 0 else
    var i := IndexOf(s[1..], c) + 1;
    assert s[..i] == [s[0]] + s[1..][..i - 1];
    i
  }

  /** strings.Split with a one-character separator. */
  function Split(s: string, c: char): (parts: seq<string>)
    ensures |parts| > 0
  {
    var i := IndexOf(s, c);
    if i == |s| then [s] else [s[..i]] + Split(s[i + 1..], c)
  }

  lemma IndexOfAt(a: string, b: string, c: char)
    requires c !in a
    ensures IndexOf(a + [c] + b, c) == |a|
  {
    var s := a + [c] + b;
    var i := IndexOf(s, c);
    assert forall k :: 0 <= k < |a| ==> s[k] == a[k];
    assert s[|a|] == c;
    assert forall k :: 0 <= k < i ==> s[k] == s[..i][k];
  }

  lemma SplitField(a: string, b: string, c: char)
    requires c !in a
    ensures Split(a + [c] + b, c) == [a] + Split(b, c)
  {
    IndexOfAt(a, b, c);
    assert (a + [c] + b)[..|a|] == a;
    assert (a + [c] + b)[|a| + 1..] == b;
  }

  lemma SplitWhole(s: string, c: char)
    requires c !in s
    ensures IndexOf(s, c) == |s| && Split(s, c) == [s]
  {
    assert forall k :: 0 <= k < |s| ==> s[k] in s;
  }

  /** The first part is the prefix before the first separator; it is the whole
      string exactly when there is no separator. */
  lemma SplitHead(s: string, c: char)
    ensures c !in Split(s, c)[0] && Split(s, c)[0] <= s
    ensures c !in s <==> Split(s, c)[0] == s
  {
    var i := IndexOf(s, c);
    if i == |s| {
      assert s[..i] == s;
    } else {
      assert s[i] in s;
    }
  }

  /** filename[strings.LastIndex(filename, c)+1:] */
  function AfterLast(s: string, c: char): (t: string) {
    var i := IndexOf(s, c);
    if i == |s| then s else AfterLast(s[i + 1..], c)
  }

  lemma {:induction false} AfterLastOf(dir: string, name: string, c: char)
    requires c !in name
    requires dir == [] || dir[|dir| - 1] == c
    ensures AfterLast(dir + name, c) == name
    decreases |dir|
  {
    if dir == [] {
      assert dir + name == name;
      SplitWhole(name, c);
    } else {
      var i := IndexOf(dir, c);
      assert dir[..|dir|] == dir && dir[|dir| - 1] in dir;
      assert dir == dir[..i] + [c] + dir[i + 1..];
      assert dir + name == dir[..i] + [c] + (dir[i + 1..] + name);
      IndexOfAt(dir[..i], dir[i + 1..] + name, c);
      AfterLastOf(dir[i + 1..], name, c);
    }
  }

  // ---- Replacing -----------------------------------------------------------

  /** strings.Replace(s, pat, with, 1) */
  function ReplaceFirst(s: string, pat: string, with: string): string
    decreases |s|
  {
    if pat <= s then with + s[|pat|..]
    else if s == [] then []
    else [s[0]] + ReplaceFirst(s[1..], pat, with)
  }

  /** The pattern stands at this place. */
  predicate StandsAt(s: string, pat: string, i: nat) { i <= |s| && pat <= s[i..] }

  lemma StandsInTail(s: string, pat: string, i: nat)
    requires i < |s|
    ensures StandsAt(s[1..], pat, i) == StandsAt(s, pat, i + 1)
  {
    assert s[1..][i..] == s[i + 1..];
  }

  lemma StandsFirst(s: string, pat: string, with: string)
    ensures StandsAt(s, pat, 0) ==> ReplaceFirst(s, pat, with) == with + s[|pat|..]
    ensures !StandsAt(s, pat, 0) && s != [] ==> ReplaceFirst(s, pat, with) == [s[0]] + ReplaceFirst(s[1..], pat, with)
    ensures !StandsAt(s, pat, 0) && s == [] ==> ReplaceFirst(s, pat, with) == s
  {
    assert s[0..] == s;
  }

  /** What stands first is replaced, and nothing else; without it, nothing is. */
  lemma {:induction false} FirstReplaced(a: string, pat: string, b: string, with: string)
    requires forall i :: 0 <= i < |a| ==> !StandsAt(a + pat + b, pat, i)
    ensures ReplaceFirst(a + pat + b, pat, with) == a + with + b
    decreases |a|
  {
    hide StandsAt, ReplaceFirst;
    var s := a + pat + b;
    StandsFirst(s, pat, with);
    if a == [] {
      assert s == pat + b && s[|pat|..] == b;
      assert StandsAt(s, pat, 0) by { Stands(pat, b); }
    } else {
      var t := a[1..] + pat + b;
      assert s[1..] == t;
      forall i | 0 <= i < |a| - 1 ensures !StandsAt(t, pat, i) { StandsInTail(s, pat, i); }
      FirstReplaced(a[1..], pat, b, with);
      assert [a[0]] + (a[1..] + with + b) == a + with + b;
    }
  }

  lemma Stands(pat: string, b: string)
    ensures StandsAt(pat + b, pat, 0)
  {
    assert (pat + b)[0..] == pat + b;
  }

  lemma {:induction false} NothingReplaced(s: string, pat: string, with: string)
    requires forall i :: 0 <= i <= |s| ==> !StandsAt(s, pat, i)
    ensures ReplaceFirst(s, pat, with) == s
    decreases |s|
  {
    hide StandsAt, ReplaceFirst;
    StandsFirst(s, pat, with);
    if s != [] {
      forall i | 0 <= i <= |s| - 1 ensures !StandsAt(s[1..], pat, i) { StandsInTail(s, pat, i); }
      NothingReplaced(s[1..], pat, with);
    }
  }

  /** strings.Replace(s, pat, "", -1) */
  function DeleteAll(s: string, pat: string): string
    requires pat != []
    decreases |s|
  {
    if pat <= s then DeleteAll(s[|pat|..], pat)
    else if s == [] then []
    else [s[0]] + DeleteAll(s[1..], pat)
  }
}
