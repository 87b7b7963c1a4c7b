/** How an upload whose name is taken finds another one. */
module FreshName {
  import opened Text
  import opened Totals

  const TRIES: nat := 10000

  /** filepath.Base, for a name without a slash. */
  function Base(name: string): string { if name == "" then "." else name }

  function Numbered(i: nat, name: string): string { PrintNat(i) + "_" + name }

  function In(folder: string, name: string): string { folder + "/" + name }

  datatype Choice = Choice(outPath: string, name: string)

  /** The loop of SaveUploadFile from its i-th turn: the names pile up. */
  function Search(folder: string, name: string, i: nat, onDisk: set<string>): Choice
    requires i < TRIES
    decreases TRIES - i
  {
    var outPath := In(folder, Numbered(i, Base(name)));
    if outPath !in onDisk || i + 1 == TRIES then Choice(outPath, Numbered(i, name))
    else Search(folder, Numbered(i, name), i + 1, onDisk)
  }

  /** The path an upload is written to, and the name its record gets. */
  function Choose(folder: string, name: string, reName: string, onDisk: set<string>, distinct: bool): Choice {
    var wanted := In(folder, if reName != "" then reName else name);
    if wanted in onDisk && distinct then Search(folder, name, 0, onDisk) else Choice(wanted, name)
  }

  method ChooseName(folder: string, name: string, reName: string, onDisk: set<string>, distinct: bool)
    returns (outPath: string, newName: string)
    ensures Choice(outPath, newName) == Choose(folder, name, reName, onDisk, distinct)
  {
    hide Numbered, In, Base;
    newName := name;
    outPath := In(folder, name);
    if reName != "" {
      outPath := In(folder, reName);
    }
    if outPath in onDisk && distinct {
      var i := 0;
      while i < TRIES
        invariant 0 <= i <= TRIES
        invariant i < TRIES ==> Search(folder, name, 0, onDisk) == Search(folder, newName, i, onDisk)
        invariant i == TRIES ==> Search(folder, name, 0, onDisk) == Choice(outPath, newName)
      {
        outPath := In(folder, Numbered(i, Base(newName)));
        newName := Numbered(i, newName);
        if outPath !in onDisk { break; }
        i := i + 1;
      }
    }
  }

  // ---- The names tried -----------------------------------------------------

  /** The record's name after i turns. */
  function Tried(name: string, i: nat): string {
    if i == 0 then name else Numbered(i - 1, Tried(name, i - 1))
  }

  /** Candidates only get longer, so none comes twice. */
  lemma {:induction false} CandidatesGrow(name: string, i: nat, j: nat)
    requires i < j
    ensures |Tried(name, i)| < |Tried(name, j)|
    decreases j
  {
    if i < j - 1 { CandidatesGrow(name, i, j - 1); }
    PrintedNat(j - 1);
  }

  /** The search ends at a candidate, having passed only paths that exist. */
  lemma {:induction false} SearchFinds(folder: string, name: string, i: nat, onDisk: set<string>) returns (k: nat)
    requires i < TRIES && Tried(name, i) != ""
    ensures i < k <= TRIES
    ensures Search(folder, Tried(name, i), i, onDisk) == Choice(In(folder, Tried(name, k)), Tried(name, k))
    ensures forall j :: i < j < k ==> In(folder, Tried(name, j)) in onDisk
    ensures k < TRIES ==> In(folder, Tried(name, k)) !in onDisk
    decreases TRIES - i
  {
    hide In;
    k := i + 1;
    assert Tried(name, k) == Numbered(i, Tried(name, i)) != "";
    if In(folder, Tried(name, k)) in onDisk && k < TRIES {
      k := SearchFinds(folder, name, k, onDisk);
    }
  }

  /** The entries of a folder among the existing paths. */
  function Entries(folder: string, onDisk: set<string>): set<string> {
    set p | p in onDisk && In(folder, "") <= p
  }

  lemma {:induction false} ManyEntries(folder: string, name: string, onDisk: set<string>, k: nat)
    returns (taken: set<string>)
    requires forall j :: 0 <= j <= k ==> In(folder, Tried(name, j)) in onDisk
    ensures taken <= Entries(folder, onDisk) && |taken| == k + 1
    ensures forall p :: p in taken ==> |p| <= |In(folder, Tried(name, k))|
  {
    assert In(folder, "") <= In(folder, Tried(name, k));
    if k == 0 {
      taken := {In(folder, Tried(name, 0))};
    } else {
      taken := ManyEntries(folder, name, onDisk, k - 1);
      CandidatesGrow(name, k - 1, k);
      var p := In(folder, Tried(name, k));
      assert p !in taken;
      taken := taken + {p};
    }
  }

  /** With at most as many entries in the folder as there are tries, an upload under its
      own name is written to an unused path, and that path is the one its record names. */
  lemma FreshPath(folder: string, name: string, onDisk: set<string>)
    requires name != "" && '/' !in name
    requires |Entries(folder, onDisk)| <= TRIES
    ensures var c := Choose(folder, name, "", onDisk, true);
      && c.outPath !in onDisk
      && c.outPath == In(folder, c.name)
      && exists k :: 0 <= k <= TRIES && c.name == Tried(name, k)
  {
    hide In, Entries, Search;
    assert Tried(name, 0) == name;
    if In(folder, name) in onDisk {
      var k := SearchFinds(folder, name, 0, onDisk);
      if In(folder, Tried(name, k)) in onDisk {
        var taken := ManyEntries(folder, name, onDisk, TRIES);
        SubsetCount(taken, Entries(folder, onDisk));
        assert false;
      }
    }
  }

  /** The first free name of all is taken: the upload's own, or the first of the numbered ones. */
  lemma FirstFree(folder: string, name: string, onDisk: set<string>) returns (k: nat)
    requires name != "" && '/' !in name
    ensures k <= TRIES
    ensures Choose(folder, name, "", onDisk, true) == Choice(In(folder, Tried(name, k)), Tried(name, k))
    ensures forall j :: 0 <= j < k ==> In(folder, Tried(name, j)) in onDisk
    ensures k < TRIES ==> In(folder, Tried(name, k)) !in onDisk
  {
    hide In, Search;
    assert Tried(name, 0) == name;
    k := 0;
    if In(folder, name) in onDisk { k := SearchFinds(folder, name, 0, onDisk); }
  }

  /** A name that is free, or copies that are not unified: the upload goes where it asks to. */
  lemma Wanted(folder: string, name: string, reName: string, onDisk: set<string>, distinct: bool)
    requires !distinct || In(folder, if reName != "" then reName else name) !in onDisk
    ensures Choose(folder, name, reName, onDisk, distinct)
         == Choice(In(folder, if reName != "" then reName else name), name)
  {
  }

  /** The bound is tight: with one entry more, the file at the last candidate is overwritten. */
  lemma Exhausted(folder: string, name: string, onDisk: set<string>)
    requires name != "" && '/' !in name
    requires forall j :: 0 <= j <= TRIES ==> In(folder, Tried(name, j)) in onDisk
    ensures Choose(folder, name, "", onDisk, true).outPath in onDisk
  {
    hide In, Search;
    assert Tried(name, 0) == name;
    var k := SearchFinds(folder, name, 0, onDisk);
  }

  /** Whether the record names the path that was written, when the upload keeps its own
      name: always, except that an empty name is written as "0_." and recorded as "0_"
      when the folder does not have that file yet. */
  lemma RecordedPathIff(folder: string, name: string, onDisk: set<string>)
    requires '/' !in name
    requires In(folder, "") in onDisk
    ensures var c := Choose(folder, name, "", onDisk, true);
      c.outPath == In(folder, c.name) <==> name != "" || In(folder, "0_.") in onDisk
  {
    hide Search;
    assert Tried(name, 0) == name && PrintNat(0) == "0";
    if name != "" {
      var k := SearchFinds(folder, name, 0, onDisk);
    } else {
      EmptyName(folder, onDisk);
    }
  }

  lemma EmptyName(folder: string, onDisk: set<string>)
    ensures var c := Search(folder, "", 0, onDisk);
      c.outPath == In(folder, c.name) <==> In(folder, "0_.") in onDisk
  {
    assert Numbered(0, ".") == "0_." && Numbered(0, "") == "0_" == Tried("", 1);
    assert |In(folder, "0_.")| > |In(folder, "0_")|;
    var k := SearchFinds(folder, "", 1, onDisk);
  }

  /** The name on disk that the search tries in its j-th turn, counted from 1. */
  function Candidate(name: string, j: nat): string
    requires j > 0
  {
    Numbered(j - 1, Base(Tried(name, j - 1)))
  }

  lemma {:induction false} SearchTries(folder: string, name: string, i: nat, onDisk: set<string>) returns (k: nat)
    requires i < TRIES
    ensures i < k <= TRIES
    ensures Search(folder, Tried(name, i), i, onDisk).outPath == In(folder, Candidate(name, k))
    ensures forall j :: i < j < k ==> In(folder, Candidate(name, j)) in onDisk
    ensures k < TRIES ==> In(folder, Candidate(name, k)) !in onDisk
    decreases TRIES - i
  {
    hide In, Base;
    k := i + 1;
    assert Tried(name, k) == Numbered(i, Tried(name, i));
    if In(folder, Candidate(name, k)) in onDisk && k < TRIES {
      k := SearchTries(folder, name, k, onDisk);
    }
  }

  lemma InInjective(folder: string, a: string, b: string)
    ensures In(folder, a) == In(folder, b) <==> a == b
  {
    assert In(folder, a)[|folder| + 1..] == a && In(folder, b)[|folder| + 1..] == b;
  }

  /** With a name chosen by the caller, the record names the path that was written exactly
      when that path was unused: otherwise a numbered name is written, and the record keeps
      the caller's. The one exception is a caller who chose the last of the numbered names,
      in a folder that has them all: that file is overwritten. */
  lemma CallersNameIff(folder: string, name: string, reName: string, onDisk: set<string>)
    requires reName != ""
    ensures Choose(folder, name, reName, onDisk, true).outPath == In(folder, reName) <==>
              || In(folder, reName) !in onDisk
              || (reName == Candidate(name, TRIES)
                  && forall j :: 0 < j <= TRIES ==> In(folder, Candidate(name, j)) in onDisk)
  {
    hide Search, In, Candidate;
    if In(folder, reName) in onDisk {
      assert Tried(name, 0) == name;
      var k := SearchTries(folder, name, 0, onDisk);
      InInjective(folder, Candidate(name, k), reName);
    }
  }
}
