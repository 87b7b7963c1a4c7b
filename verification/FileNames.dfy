/** The normalisation of uploaded file names. */
module FileNames {
  import opened Text

  /** The characters of the regular expression; its \s is tab, newline, form feed, return
      and space. */
  predicate IsSpecial(c: char) {
    c in "/\\:*?\"<>|()[]{},;'#@%&$^~=+-!" || c in "\t\n\r " || c as int == 12
  }

  function Strip(s: string): string {
    if s == [] then [] else if IsSpecial(s[0]) then Strip(s[1..]) else [s[0]] + Strip(s[1..])
  }

  /** TrimFileNameSpecialChar */
  function Trim(s: string): string {
    DeleteAll(DeleteAll(Strip(s), "..."), "..")
  }

  // ---- What the result is --------------------------------------------------

  predicate Subsequence(t: string, s: string) {
    t == [] || (s != [] && ((t[0] == s[0] && Subsequence(t[1..], s[1..])) || Subsequence(t, s[1..])))
  }

  predicate Plain(s: string) { forall i :: 0 <= i < |s| ==> !IsSpecial(s[i]) }

  predicate NoTwoDots(s: string) { forall i :: 0 <= i < |s| - 1 ==> !(s[i] == '.' && s[i + 1] == '.') }

  lemma {:induction false} SubsequenceTransitive(u: string, t: string, s: string)
    requires Subsequence(u, t) && Subsequence(t, s)
    ensures Subsequence(u, s)
    decreases |t| + |s|
  {
    if u != [] {
      if t[0] == s[0] && Subsequence(t[1..], s[1..]) {
        if u[0] == t[0] && Subsequence(u[1..], t[1..]) {
          SubsequenceTransitive(u[1..], t[1..], s[1..]);
        } else {
          SubsequenceTransitive(u, t[1..], s[1..]);
        }
      } else {
        SubsequenceTransitive(u, t, s[1..]);
      }
    }
  }

  lemma {:induction false} DropIsSubsequence(t: string, s: string, n: nat)
    requires n <= |s| && Subsequence(t, s[n..])
    ensures Subsequence(t, s)
  {
    if n > 0 && t != [] {
      assert s[1..][n - 1..] == s[n..];
      DropIsSubsequence(t, s[1..], n - 1);
    }
  }

  lemma {:induction false} Stripped(s: string)
    ensures Plain(Strip(s)) && Subsequence(Strip(s), s)
    ensures Plain(s) ==> Strip(s) == s
  {
    if s != [] {
      Stripped(s[1..]);
      DropIsSubsequence(Strip(s[1..]), s, 1);
      if Plain(s) {
        assert Plain(s[1..]) && s == [s[0]] + s[1..];
      }
    }
  }

  /** Each character is kept or dropped on its own: kept unless it is special. */
  lemma {:induction false} StripsEach(a: string, c: char, b: string)
    ensures Strip(a + [c] + b) == Strip(a) + (if IsSpecial(c) then "" else [c]) + Strip(b)
  {
    if a == [] {
      assert [c] + b == a + [c] + b && Strip(a) == [];
    } else {
      assert (a + [c] + b)[1..] == a[1..] + [c] + b;
      StripsEach(a[1..], c, b);
    }
  }

  lemma {:induction false} Deleted(s: string, pat: string)
    requires pat != []
    ensures Subsequence(DeleteAll(s, pat), s)
    ensures Plain(s) ==> Plain(DeleteAll(s, pat))
    decreases |s|
  {
    if pat <= s {
      Deleted(s[|pat|..], pat);
      DropIsSubsequence(DeleteAll(s, pat), s, |pat|);
    } else if s != [] {
      Deleted(s[1..], pat);
    }
  }

  lemma {:induction false} TwoDotsDeleted(s: string)
    ensures NoTwoDots(DeleteAll(s, ".."))
    ensures s != [] && s[0] != '.' ==> DeleteAll(s, "..") != [] && DeleteAll(s, "..")[0] == s[0]
    decreases |s|
  {
    if ".." <= s {
      TwoDotsDeleted(s[2..]);
    } else if s != [] {
      TwoDotsDeleted(s[1..]);
      if s[0] == '.' && |s| > 1 {
        assert s == ".." + s[2..] || s[1] != '.';
      }
    }
  }

  lemma PrefixAt(p: string, s: string)
    ensures p <= s ==> forall i :: 0 <= i < |p| ==> p[i] == s[i]
  {
  }

  lemma {:induction false} NothingToDelete(s: string, pat: string)
    requires NoTwoDots(s) && ".." <= pat
    ensures DeleteAll(s, pat) == s
    decreases |s|
  {
    if s != [] {
      assert NoTwoDots(s[1..]);
      PrefixAt(pat, s);
      PrefixAt("..", pat);
      NothingToDelete(s[1..], pat);
      assert s == [s[0]] + s[1..];
    }
  }

  /** The result is made of characters of the name in their order, none of them special,
      without two dots in a row; and normalising again changes nothing. */
  lemma Normalised(s: string)
    ensures var t := Trim(s);
      && Subsequence(t, s)
      && Plain(t)
      && NoTwoDots(t)
      && Trim(t) == t
  {
    var a := Strip(s);
    var b := DeleteAll(a, "...");
    var t := DeleteAll(b, "..");
    Stripped(s);
    Deleted(a, "...");
    Deleted(b, "..");
    SubsequenceTransitive(b, a, s);
    SubsequenceTransitive(t, b, s);
    TwoDotsDeleted(b);
    Stripped(t);
    NothingToDelete(t, "...");
    NothingToDelete(t, "..");
  }

  /** A name in which no two dots meet, once its special characters are gone, loses nothing else. */
  lemma OnlyStripped(s: string)
    requires NoTwoDots(Strip(s))
    ensures Trim(s) == Strip(s)
  {
    NothingToDelete(Strip(s), "...");
    NothingToDelete(Strip(s), "..");
  }

  // ---- What becomes of each run of dots ------------------------------------

  function Dots(n: nat): (d: string)
    ensures |d| == n
    ensures forall i :: 0 <= i < n ==> d[i] == '.'
  {
    seq(n, _ => '.')
  }

  predicate EndsRun(a: string) { a == [] || a[|a| - 1] != '.' }

  predicate BeginsRun(b: string) { b == [] || b[0] != '.' }

  /** n mod k, by repeated subtraction. */
  function Left(n: nat, k: nat): nat
    requires k > 0
  {
    if n < k then n else Left(n - k, k)
  }

  lemma {:induction false} LeftIsMod(n: nat)
    ensures Left(n, 3) == n % 3 && Left(n, 2) == n % 2
  {
    if n >= 2 { LeftIsMod(n - 2); }
    if n >= 3 { LeftIsMod(n - 3); }
  }

  /** In front of what is not a dot, a run of n dots keeps n mod k of them when each k are
      deleted. */
  lemma {:induction false} RunDeleted(n: nat, b: string, k: nat)
    requires k > 0 && BeginsRun(b)
    ensures DeleteAll(Dots(n) + b, Dots(k)) == Dots(Left(n, k)) + DeleteAll(b, Dots(k))
    decreases n
  {
    hide Dots;
    if n >= k {
      var s := Dots(n) + b;
      assert s[..k] == Dots(k);
      assert s[k..] == Dots(n - k) + b;
      RunDeleted(n - k, b, k);
    } else {
      ShortRun(n, b, k);
    }
  }

  lemma {:induction false} ShortRun(n: nat, b: string, k: nat)
    requires n < k && BeginsRun(b)
    ensures DeleteAll(Dots(n) + b, Dots(k)) == Dots(n) + DeleteAll(b, Dots(k))
  {
    hide Dots;
    var s, rest := Dots(n) + b, DeleteAll(b, Dots(k));
    if n == 0 {
      assert s == b && Dots(0) + rest == rest;
    } else {
      NoRunAt(n, b, k);
      assert s[0] == '.' && s[1..] == Dots(n - 1) + b;
      ShortRun(n - 1, b, k);
      assert ['.'] + (Dots(n - 1) + rest) == Dots(n) + rest;
    }
  }

  lemma NoRunAt(n: nat, b: string, k: nat)
    requires n < k && BeginsRun(b)
    ensures !(Dots(k) <= Dots(n) + b)
  {
    PrefixAt(Dots(k), Dots(n) + b);
    assert b != [] ==> (Dots(n) + b)[n] == b[0];
  }

  /** What ends with something other than a dot is treated on its own. */
  lemma {:induction false} Isolated(a: string, rest: string, k: nat)
    requires k > 0 && EndsRun(a)
    ensures DeleteAll(a + rest, Dots(k)) == DeleteAll(a, Dots(k)) + DeleteAll(rest, Dots(k))
    decreases |a|
  {
    hide Dots;
    var s, pat := a + rest, Dots(k);
    if a == [] {
      assert s == rest && DeleteAll(a, pat) == [];
    } else if pat <= a {
      assert pat <= s && s[k..] == a[k..] + rest;
      Isolated(a[k..], rest, k);
    } else {
      NotAcross(a, rest, k);
      assert s[1..] == a[1..] + rest;
      Isolated(a[1..], rest, k);
    }
  }

  /** A maximal run of dots is treated on its own. */
  lemma RunIsolated(a: string, n: nat, b: string, k: nat)
    requires k > 0 && EndsRun(a) && BeginsRun(b)
    ensures DeleteAll(a + Dots(n) + b, Dots(k)) == DeleteAll(a, Dots(k)) + Dots(Left(n, k)) + DeleteAll(b, Dots(k))
  {
    hide Dots, DeleteAll, Left;
    assert a + Dots(n) + b == a + (Dots(n) + b);
    Isolated(a, Dots(n) + b, k);
    RunDeleted(n, b, k);
  }

  lemma NotAcross(a: string, rest: string, k: nat)
    requires a != [] && EndsRun(a) && !(Dots(k) <= a)
    ensures !(Dots(k) <= a + rest)
  {
    PrefixAt(Dots(k), a + rest);
    assert (a + rest)[|a| - 1] == a[|a| - 1];
    assert k <= |a| ==> (a + rest)[..k] == a[..k];
  }

  lemma {:induction false} EndsKept(a: string, k: nat)
    requires k > 0 && EndsRun(a)
    ensures EndsRun(DeleteAll(a, Dots(k))) && (a != [] ==> DeleteAll(a, Dots(k)) != [])
    decreases |a|
  {
    if a != [] {
      if Dots(k) <= a {
        PrefixAt(Dots(k), a);
        EndsKept(a[k..], k);
      } else {
        EndsKept(a[1..], k);
      }
    }
  }

  lemma BeginsKept(b: string, k: nat)
    requires k > 0 && BeginsRun(b)
    ensures BeginsRun(DeleteAll(b, Dots(k)))
  {
    PrefixAt(Dots(k), b);
  }

  /** Of a maximal run of n dots, (n mod 3) mod 2 are left, whatever surrounds it. */
  lemma RunLeft(s: string, a: string, n: nat, b: string)
    requires Strip(s) == a + Dots(n) + b && EndsRun(a) && BeginsRun(b)
    ensures Trim(s) == Trim(a) + Dots((n % 3) % 2) + Trim(b)
  {
    hide Strip, DeleteAll, Left;
    LeftIsMod(n);
    LeftIsMod(n % 3);
    assert "..." == Dots(3) && ".." == Dots(2);
    Stripped(s);
    assert Plain(a) && Plain(b) by {
      assert forall i :: 0 <= i < |a| ==> a[i] == Strip(s)[i];
      assert forall i :: 0 <= i < |b| ==> b[i] == Strip(s)[|a| + n + i];
    }
    Stripped(a);
    Stripped(b);
    RunIsolated(a, n, b, 3);
    EndsKept(a, 3);
    BeginsKept(b, 3);
    RunIsolated(DeleteAll(a, Dots(3)), Left(n, 3), DeleteAll(b, Dots(3)), 2);
  }
}
