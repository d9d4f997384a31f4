/**
 * The helpers of the generate command that decide which files a commit
 * touches and how its change list is laid out: min, the Fisher-Yates
 * selection of files and the bullet list of changes, plus the guard that
 * bounds the number of files by the number available.
 */
module Generate {
  import opened Rand
  import opened Text
  import opened Dates
  import opened ProjectPatterns
  import opened CommitPatterns

  /** min(a, b): no larger than either argument and equal to one of them. */
  function Min(a: int, b: int): (r: int)
    ensures r <= a && r <= b
    ensures r == a || r == b
  {
    if a < b then a else b
  }

  // ---------------------------------------------------------------------------
  // selectRandomFiles
  // ---------------------------------------------------------------------------

  /** The sequence with the elements at i and j exchanged. */
  function Swap<T>(s: seq<T>, i: nat, j: nat): (r: seq<T>)
    requires i < |s| && j < |s|
    ensures |r| == |s|
  {
    s[i := s[j]][j := s[i]]
  }

  /** Exchanging two elements keeps the multiset. */
  lemma SwapPermutes<T>(s: seq<T>, i: nat, j: nat)
    requires i < |s| && j < |s|
    ensures multiset(Swap(s, i, j)) == multiset(s)
  {
    var t := s[i := s[j]];
    assert multiset(t) == multiset(s) - multiset{s[i]} + multiset{s[j]};
    assert multiset(t[j := s[i]]) == multiset(t) - multiset{t[j]} + multiset{s[i]};
  }

  /** The partner index of the swap that moves index i: rand.Intn(i + 1), so 0 <= j <= i. */
  function SwapIndex(draws: nat -> nat, i: nat): (j: nat)
    ensures j <= i
  {
    Intn(draws(i), i + 1)
  }

  /**
   * The shuffle state when index i is next: every index above i, from the
   * last one down, has been swapped with its partner. draws(i) is the raw
   * draw of the step that moves index i.
   */
  function ShuffleDown(s: seq<string>, draws: nat -> nat, i: int): (r: seq<string>)
    requires -1 <= i
    ensures |r| == |s|
    decreases |s| - i
  {
    if i >= |s| - 1 then s
    else Swap(ShuffleDown(s, draws, i + 1), i + 1, SwapIndex(draws, i + 1))
  }

  /** The whole shuffle: every index from the last one down to 1 has been moved. */
  function Shuffled(s: seq<string>, draws: nat -> nat): seq<string> {
    ShuffleDown(s, draws, 0)
  }

  /** Every shuffle state is a permutation of the input. */
  lemma {:induction false} ShuffleDownPermutes(s: seq<string>, draws: nat -> nat, i: int)
    requires -1 <= i
    ensures multiset(ShuffleDown(s, draws, i)) == multiset(s)
    decreases |s| - i
  {
    if i < |s| - 1 {
      ShuffleDownPermutes(s, draws, i + 1);
      SwapPermutes(ShuffleDown(s, draws, i + 1), i + 1, SwapIndex(draws, i + 1));
    }
  }

  /** Exchanging two elements of a sequence without repetitions keeps it without repetitions. */
  lemma SwapDistinct(s: seq<string>, i: nat, j: nat)
    requires i < |s| && j < |s|
    requires forall a, b :: 0 <= a < b < |s| ==> s[a] != s[b]
    ensures var r := Swap(s, i, j); forall a, b :: 0 <= a < b < |r| ==> r[a] != r[b]
  {
    var r := Swap(s, i, j);
    assert forall a :: 0 <= a < |s| ==> r[a] == (if a == j then s[i] else if a == i then s[j] else s[a]);
  }

  /** Distinct files stay distinct through the shuffle. */
  lemma {:induction false} ShuffleDownDistinct(s: seq<string>, draws: nat -> nat, i: int)
    requires -1 <= i
    requires forall a, b :: 0 <= a < b < |s| ==> s[a] != s[b]
    ensures forall a, b :: 0 <= a < b < |s| ==> ShuffleDown(s, draws, i)[a] != ShuffleDown(s, draws, i)[b]
    decreases |s| - i
  {
    if i < |s| - 1 {
      ShuffleDownDistinct(s, draws, i + 1);
      SwapDistinct(ShuffleDown(s, draws, i + 1), i + 1, SwapIndex(draws, i + 1));
    }
  }

  /**
   * The first n files of a shuffle: exactly n of them, drawn without
   * replacement from the input (a sub-multiset), and pairwise different when
   * the input has no repetitions.
   */
  lemma ShuffledPrefix(files: seq<string>, draws: nat -> nat, n: nat)
    requires n <= |files|
    ensures |Shuffled(files, draws)[..n]| == n
    ensures multiset(Shuffled(files, draws)[..n]) <= multiset(files)
    ensures (forall a, b :: 0 <= a < b < |files| ==> files[a] != files[b]) ==>
      forall a, b :: 0 <= a < b < n ==> Shuffled(files, draws)[..n][a] != Shuffled(files, draws)[..n][b]
  {
    var t := Shuffled(files, draws);
    ShuffleDownPermutes(files, draws, 0);
    assert t == t[..n] + t[n..];
    assert multiset(t) == multiset(t[..n]) + multiset(t[n..]);
    if forall a, b :: 0 <= a < b < |files| ==> files[a] != files[b] {
      ShuffleDownDistinct(files, draws, 0);
    }
  }

  /**
   * selectRandomFiles: shuffles a copy of the files in place, from the last
   * index down to 1 swapping each with a partner at or below it, then takes
   * the first n. The input sequence is a value and is not changed.
   */
  method SelectRandomFiles(files: seq<string>, n: int, draws: nat -> nat) returns (selected: seq<string>)
    requires 0 <= n <= |files|
    ensures selected == Shuffled(files, draws)[..n]
    ensures |selected| == n && multiset(selected) <= multiset(files)
  {
    var result := new string[|files|](k requires 0 <= k < |files| => files[k]);
    assert result[..] == files;
    var i := |files| - 1;
    while i > 0
      invariant 0 <= i < |files| || (i == -1 && |files| == 0)
      invariant result[..] == ShuffleDown(files, draws, i)
      decreases i
    {
      var j := Intn(draws(i), i + 1);
      result[i], result[j] := result[j], result[i];
      i := i - 1;
    }
    selected := result[..n];
    ShuffledPrefix(files, draws, n);
  }

  // ---------------------------------------------------------------------------
  // formatChanges
  // ---------------------------------------------------------------------------

  /** The change list as bullet lines: "- " + change + "\n" for each change, in order. */
  function Bulleted(changes: seq<string>): string {
    if |changes| == 0 then ""
    else Bulleted(changes[..|changes| - 1]) + "- " + changes[|changes| - 1] + "\n"
  }

  /** The first bullet line comes first. */
  lemma {:induction false} BulletedCons(c: string, rest: seq<string>)
    ensures Bulleted([c] + rest) == "- " + c + "\n" + Bulleted(rest)
    decreases |rest|
  {
    var cs := [c] + rest;
    if |rest| > 0 {
      var front := rest[..|rest| - 1];
      assert cs[..|cs| - 1] == [c] + front;
      BulletedCons(c, front);
    } else {
      assert cs[..|cs| - 1] == [];
    }
  }

  /** The lines of a bullet list, without their line breaks. */
  function BulletLines(changes: seq<string>): (lines: seq<string>)
    ensures |lines| == |changes|
  {
    seq(|changes|, k requires 0 <= k < |changes| => "- " + changes[k])
  }

  /** One bullet line splits off the front of a list. */
  lemma BulletSplit(c: string, rest: string)
    requires '\n' !in c
    ensures Split("- " + c + "\n" + rest, '\n') == ["- " + c] + Split(rest, '\n')
  {
    var head := "- " + c;
    assert '\n' !in head by {
      assert forall k :: 0 <= k < |head| ==> head[k] == (if k < 2 then "- "[k] else c[k - 2]);
    }
    SplitCons(head, '\n', rest);
    assert head + "\n" + rest == head + ['\n'] + rest;
  }

  /**
   * The list splits back into its bullet lines followed by one empty piece,
   * so the changes can be read back from it when none contains a line break.
   */
  lemma {:induction false} BulletedLines(changes: seq<string>)
    requires forall k :: 0 <= k < |changes| ==> '\n' !in changes[k]
    ensures Split(Bulleted(changes), '\n') == BulletLines(changes) + [""]
    decreases |changes|
  {
    if |changes| > 0 {
      var c := changes[0];
      var rest := changes[1..];
      assert changes == [c] + rest;
      BulletedCons(c, rest);
      BulletedLines(rest);
      BulletSplit(c, Bulleted(rest));
      BulletLinesCons(c, rest);
      calc {
        Split(Bulleted(changes), '\n');
        Split("- " + c + "\n" + Bulleted(rest), '\n');
        ["- " + c] + (BulletLines(rest) + [""]);
        (["- " + c] + BulletLines(rest)) + [""];
      }
    }
  }

  lemma BulletLinesCons(c: string, rest: seq<string>)
    ensures BulletLines([c] + rest) == ["- " + c] + BulletLines(rest)
  {
  }

  /** formatChanges: the bullet lines appended one by one. */
  method FormatChanges(changes: seq<string>) returns (result: string)
    ensures result == Bulleted(changes)
  {
    result := "";
    for i := 0 to |changes|
      invariant result == Bulleted(changes[..i])
    {
      assert changes[..i + 1][..i] == changes[..i];
      result := result + "- " + changes[i] + "\n";
    }
    assert changes[..|changes|] == changes;
  }

  // ---------------------------------------------------------------------------
  // The file-count guard
  // ---------------------------------------------------------------------------

  /**
   * The guard min(record's file count, available files), applied to any
   * record of a run when some file is available: it is a legal count for
   * selectRandomFiles; it is at least one for the categories of the table;
   * and it is zero for the others, so such a record selects no file.
   */
  lemma GuardedFileCount(startDate: Date, endDate: Date, personaName: string, draws: Draws, files: seq<string>, k: nat)
    requires personaName == "" ==> Enumerates(draws.personaOrder, Personas.Keys)
    requires ValidCycleDraws(draws, ResolvePersona(personaName, draws), GenerateSprintCycles(startDate, endDate))
    requires |files| > 0
    requires k < |Patterns(startDate, endDate, personaName, draws)|
    ensures var c := Patterns(startDate, endDate, personaName, draws)[k];
      var n := Min(c.numFiles, |files|);
      && 0 <= n <= |files|
      && (c.commitType in CommitTypes ==> 1 <= n)
      && (c.commitType !in CommitTypes ==> n == 0)
  {
    var persona := ResolvePersona(personaName, draws);
    var r := Patterns(startDate, endDate, personaName, draws);
    PatternsFit(startDate, endDate, personaName, draws);
    assert Fits(persona, AdjustedStyle(persona.codingStyle, FeatureDevelopment), startDate, endDate, r[k]);
  }
}
