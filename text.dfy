/**
 * The pieces of Go's strings and path/filepath packages that the generator and
 * the file analyser use, on strings as sequences of characters.
 */
module Text {

  /** Index of the first occurrence of `c` in `s`. */
  function IndexOf(s: string, c: char): (i: nat)
    requires c in s
    ensures i < |s| && s[i] == c && c !in s[..i]
  {
    if s[0] == c then 0
    else
      var j := IndexOf(s[1..], c);
      assert s[..j + 1] == [s[0]] + s[1..][..j];
      1 + j
  }

  /** The first occurrence is unique: a position holding `c` with no `c` before it. */
  lemma IndexOfUnique(s: string, c: char, i: nat)
    requires i < |s| && s[i] == c && c !in s[..i]
    ensures IndexOf(s, c) == i
  {
    var j := IndexOf(s, c);
    assert forall k :: 0 <= k < i ==> s[..i][k] == s[k];
    assert forall k :: 0 <= k < j ==> s[..j][k] == s[k];
  }

  /**
   * strings.Split with a one-character separator: the pieces between
   * separators, left to right. There is at least one piece, and no piece
   * contains the separator.
   */
  function Split(s: string, sep: char): (parts: seq<string>)
    ensures |parts| >= 1
    ensures forall k :: 0 <= k < |parts| ==> sep !in parts[k]
    decreases |s|
  {
    if sep !in s then
      [s]
    else
      var i := IndexOf(s, sep);
      [s[..i]] + Split(s[i + 1..], sep)
  }

  /** There is one more piece than there are separators. */
  lemma {:induction false} SplitCount(s: string, sep: char)
    ensures |Split(s, sep)| == multiset(s)[sep] + 1
    decreases |s|
  {
    if sep !in s {
      assert multiset(s)[sep] == 0;
    } else {
      var i := IndexOf(s, sep);
      SplitCount(s[i + 1..], sep);
      assert s == s[..i] + [s[i]] + s[i + 1..];
      assert multiset(s) == multiset(s[..i]) + multiset([s[i]]) + multiset(s[i + 1..]);
      assert multiset(s[..i])[sep] == 0;
    }
  }

  /** strings.Join: the pieces with `sep` between each pair. */
  function Join(parts: seq<string>, sep: string): string
  {
    if |parts| == 0 then ""
    else if |parts| == 1 then parts[0]
    else parts[0] + sep + Join(parts[1..], sep)
  }

  /** Joining the pieces of a split with the separator gives back the string. */
  lemma {:induction false} JoinSplit(s: string, sep: char)
    ensures Join(Split(s, sep), [sep]) == s
    decreases |s|
  {
    if sep in s {
      var i := IndexOf(s, sep);
      var rest := s[i + 1..];
      JoinSplit(rest, sep);
      var parts := Split(s, sep);
      assert parts == [s[..i]] + Split(rest, sep);
      assert parts[1..] == Split(rest, sep);
      assert Join(parts, [sep]) == s[..i] + [sep] + Join(Split(rest, sep), [sep]);
      assert s == s[..i] + [sep] + rest;
    }
  }

  /** Splitting a join of separator-free pieces gives back the pieces. */
  lemma {:induction false} SplitJoin(parts: seq<string>, sep: char)
    requires |parts| >= 1
    requires forall k :: 0 <= k < |parts| ==> sep !in parts[k]
    ensures Split(Join(parts, [sep]), sep) == parts
  {
    if |parts| > 1 {
      var rest := Join(parts[1..], [sep]);
      var s := parts[0] + [sep] + rest;
      assert s[..|parts[0]|] == parts[0];
      IndexOfUnique(s, sep, |parts[0]|);
      assert s[|parts[0]| + 1..] == rest;
      SplitJoin(parts[1..], sep);
    }
  }

  /** Splitting a separator-free head off a string. */
  lemma SplitCons(head: string, sep: char, rest: string)
    requires sep !in head
    ensures Split(head + [sep] + rest, sep) == [head] + Split(rest, sep)
  {
    var s := head + [sep] + rest;
    assert s[..|head|] == head;
    IndexOfUnique(s, sep, |head|);
    assert s[|head| + 1..] == rest;
  }

  /** Two separator-free pieces around one separator split into those two pieces. */
  lemma SplitPair(head: string, sep: char, tail: string)
    requires sep !in head && sep !in tail
    ensures Split(head + [sep] + tail, sep) == [head, tail]
  {
    SplitCons(head, sep, tail);
  }

  /** strings.HasPrefix. */
  predicate HasPrefix(s: string, prefix: string) {
    |prefix| <= |s| && s[..|prefix|] == prefix
  }

  /**
   * strings.ReplaceAll for a non-empty pattern: every non-overlapping
   * occurrence of `pat`, scanning left to right, is replaced by `rep`.
   */
  function ReplaceAll(s: string, pat: string, rep: string): string
    requires |pat| > 0
    decreases |s|
  {
    if |s| < |pat| then s
    else if s[..|pat|] == pat then rep + ReplaceAll(s[|pat|..], pat, rep)
    else [s[0]] + ReplaceAll(s[1..], pat, rep)
  }

  /** A string without the pattern's first character is left as it is. */
  lemma {:induction false} ReplaceAllAbsent(s: string, pat: string, rep: string)
    requires |pat| > 0 && pat[0] !in s
    ensures ReplaceAll(s, pat, rep) == s
    decreases |s|
  {
    if |s| >= |pat| {
      assert s[..|pat|][0] == s[0];
      ReplaceAllAbsent(s[1..], pat, rep);
    }
  }

  /** A head without the pattern's first character passes through unchanged. */
  lemma {:induction false} ReplaceAllSkip(head: string, tail: string, pat: string, rep: string)
    requires |pat| > 0 && pat[0] !in head
    ensures ReplaceAll(head + tail, pat, rep) == head + ReplaceAll(tail, pat, rep)
    decreases |head|
  {
    if head != [] {
      var s := head + tail;
      if |s| >= |pat| {
        assert s[..|pat|][0] == head[0];
        assert s[1..] == head[1..] + tail;
        ReplaceAllSkip(head[1..], tail, pat, rep);
        assert ReplaceAll(s, pat, rep) == [head[0]] + ReplaceAll(head[1..] + tail, pat, rep);
        assert head == [head[0]] + head[1..];
      } else {
        assert ReplaceAll(tail, pat, rep) == tail;
      }
    } else {
      assert head + tail == tail;
    }
  }

  /** An occurrence at the front is replaced and the scan resumes after it. */
  lemma ReplaceAllHere(pat: string, tail: string, rep: string)
    requires |pat| > 0
    ensures ReplaceAll(pat + tail, pat, rep) == rep + ReplaceAll(tail, pat, rep)
  {
    var s := pat + tail;
    assert s[..|pat|] == pat;
    assert s[|pat|..] == tail;
  }

  /** A front character that does not start an occurrence is kept. */
  lemma ReplaceAllKeep(s: string, pat: string, rep: string, k: nat)
    requires |pat| > 0 && k < |pat| <= |s| && s[k] != pat[k]
    ensures ReplaceAll(s, pat, rep) == [s[0]] + ReplaceAll(s[1..], pat, rep)
  {
    assert s[..|pat|][k] == s[k];
  }

  /** A single occurrence, with no other start character around it, is replaced. */
  lemma ReplaceAllOnce(head: string, tail: string, pat: string, rep: string)
    requires |pat| > 0 && pat[0] !in head && pat[0] !in tail
    ensures ReplaceAll(head + pat + tail, pat, rep) == head + rep + tail
  {
    assert head + pat + tail == head + (pat + tail);
    ReplaceAllSkip(head, pat + tail, pat, rep);
    ReplaceAllHere(pat, tail, rep);
    ReplaceAllAbsent(tail, pat, rep);
  }

  /**
   * A piece that starts like the pattern but differs from it at position k,
   * and has no other start character, is passed over unchanged.
   */
  lemma ReplaceAllPast(other: string, tail: string, pat: string, rep: string, k: nat)
    requires 0 < k < |other| && k < |pat| && other[k] != pat[k]
    requires pat[0] !in other[1..]
    ensures ReplaceAll(other + tail, pat, rep) == other + ReplaceAll(tail, pat, rep)
  {
    var s := other + tail;
    if |s| < |pat| {
      assert ReplaceAll(tail, pat, rep) == tail;
    } else {
      var after := ReplaceAll(tail, pat, rep);
      assert ReplaceAll(s, pat, rep) == [s[0]] + ReplaceAll(s[1..], pat, rep) by {
        ReplaceAllKeep(s, pat, rep, k);
      }
      assert ReplaceAll(s[1..], pat, rep) == other[1..] + after by {
        assert s[1..] == other[1..] + tail;
        ReplaceAllSkip(other[1..], tail, pat, rep);
      }
      assert [s[0]] + (other[1..] + after) == other + after;
    }
  }

  /**
   * One occurrence of the pattern after a piece that starts like it but is
   * not it: only the occurrence is replaced.
   */
  lemma ReplaceAllAfter(head: string, other: string, mid: string, tail: string, pat: string, rep: string)
    requires 1 < |other| && 1 < |pat| && other[1] != pat[1] && pat[0] !in other[1..]
    requires pat[0] !in head && pat[0] !in mid && pat[0] !in tail
    ensures ReplaceAll(head + other + mid + pat + tail, pat, rep) == head + other + (mid + rep + tail)
  {
    var rest := mid + pat + tail;
    var done := mid + rep + tail;
    calc {
      ReplaceAll(head + other + mid + pat + tail, pat, rep);
      { assert head + other + mid + pat + tail == head + (other + rest); }
      ReplaceAll(head + (other + rest), pat, rep);
      { ReplaceAllSkip(head, other + rest, pat, rep); }
      head + ReplaceAll(other + rest, pat, rep);
      { ReplaceAllPast(other, rest, pat, rep, 1); }
      head + (other + ReplaceAll(rest, pat, rep));
      { ReplaceAllOnce(mid, tail, pat, rep); }
      head + (other + done);
      { assert head + (other + done) == head + other + done; }
      head + other + done;
    }
  }

  /** TrimLeft with a cutset: drops the longest prefix made of cutset characters. */
  function TrimLeft(s: string, cut: set<char>): (r: string)
    ensures |r| <= |s|
  {
    if |s| > 0 && s[0] in cut then TrimLeft(s[1..], cut) else s
  }

  /** TrimLeft leaves a suffix, strips only cutset characters, and stops at the first other one. */
  lemma {:induction false} TrimLeftFacts(s: string, cut: set<char>)
    ensures var r := TrimLeft(s, cut);
      && r == s[|s| - |r|..]
      && (forall k :: 0 <= k < |s| - |r| ==> s[k] in cut)
      && (|r| > 0 ==> r[0] !in cut)
  {
    if |s| > 0 && s[0] in cut {
      TrimLeftFacts(s[1..], cut);
    }
  }

  /** TrimRight with a cutset: drops the longest suffix made of cutset characters. */
  function TrimRight(s: string, cut: set<char>): (r: string)
    ensures |r| <= |s|
  {
    if |s| > 0 && s[|s| - 1] in cut then TrimRight(s[..|s| - 1], cut) else s
  }

  /** TrimRight leaves a prefix, strips only cutset characters, and stops at the last other one. */
  lemma {:induction false} TrimRightFacts(s: string, cut: set<char>)
    ensures var r := TrimRight(s, cut);
      && r == s[..|r|]
      && (forall k :: |r| <= k < |s| ==> s[k] in cut)
      && (|r| > 0 ==> r[|r| - 1] !in cut)
  {
    if |s| > 0 && s[|s| - 1] in cut {
      TrimRightFacts(s[..|s| - 1], cut);
    }
  }

  /** The characters unicode.IsSpace accepts. */
  const SpaceChars: set<char> := {
    ' ', '\t', '\n', '\r', '\U{000B}', '\U{000C}', '\U{0085}', '\U{00A0}', '\U{1680}',
    '\U{2000}', '\U{2001}', '\U{2002}', '\U{2003}', '\U{2004}', '\U{2005}', '\U{2006}',
    '\U{2007}', '\U{2008}', '\U{2009}', '\U{200A}', '\U{2028}', '\U{2029}', '\U{202F}',
    '\U{205F}', '\U{3000}'
  }

  /** strings.TrimSpace: both ends stripped of white space. */
  function TrimSpace(s: string): string {
    TrimRight(TrimLeft(s, SpaceChars), SpaceChars)
  }

  /**
   * filepath.Ext on a slash-separated path: the suffix beginning at the last
   * '.' of the final path element, or "" when that element has no '.'.
   */
  function Ext(path: string): (e: string)
    ensures |e| <= |path| && e == path[|path| - |e|..]
    ensures e != [] ==> e[0] == '.' && '.' !in e[1..] && '/' !in e
    ensures e == [] ==> forall k :: 0 <= k < |path| && path[k] == '.' ==> '/' in path[k + 1..]
  {
    ExtFrom(path, |path|)
  }

  /** The scan of filepath.Ext, from position `i` down to the start. */
  function ExtFrom(path: string, i: nat): (e: string)
    requires i <= |path|
    requires '.' !in path[i..] && '/' !in path[i..]
    ensures |e| <= |path| && e == path[|path| - |e|..]
    ensures e != [] ==> e[0] == '.' && '.' !in e[1..] && '/' !in e
    ensures e == [] ==> forall k :: 0 <= k < |path| && path[k] == '.' ==> '/' in path[k + 1..]
    decreases i
  {
    if i == 0 then
      []
    else if path[i - 1] == '/' then
      []
    else if path[i - 1] == '.' then
      path[i - 1..]
    else
      assert path[i - 1..] == [path[i - 1]] + path[i..];
      ExtFrom(path, i - 1)
  }
}
