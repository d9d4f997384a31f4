/**
 * The line-level file analysis that precedes an edit: splitting a file into
 * lines, grouping comment lines into blocks, finding function definitions by
 * a per-language pattern and the indentation that follows them, finding
 * variable declarations, and the dispatch over the change generators.
 *
 * Regular expressions are abstract: a compiled pattern is a function from a
 * line to its submatches (None for no match, otherwise the whole match
 * followed by one string per capture group).
 */
module FileModifier {
  import opened Wrappers
  import opened Text

  /** A compiled regular expression with `groups` capture groups. */
  datatype Regexp = Regexp(groups: nat, find: string -> Option<seq<string>>)

  /** FindStringSubmatch answers with the whole match and one entry per group. */
  ghost predicate Compiled(re: Regexp) {
    forall line: string :: re.find(line).Some? ==> |re.find(line).value| == re.groups + 1
  }

  /** A pattern whose first group can be read. */
  ghost predicate Capturing(re: Regexp) {
    Compiled(re) && re.groups >= 1
  }

  /** One suggested edit: the text before and after, a description and the line span. */
  datatype CodeChange = CodeChange(original: string, modified: string, description: string, lineNumbers: (int, int))

  datatype FunctionInfo = FunctionInfo(name: string, startLine: int, endLine: int, content: string)

  datatype VariableInfo = VariableInfo(name: string, lineNum: int, varType: string)

  /** A comment block: the first and the last line, both inclusive. */
  type Block = (int, int)

  datatype FileMetadata = FileMetadata(
    lines: seq<string>,
    functions: seq<FunctionInfo>,
    comments: seq<Block>,
    variables: seq<VariableInfo>)

  /**
   * The declaration patterns findVariables compiles on each call: one for Go,
   * one shared by JavaScript and TypeScript, and one for Python.
   */
  datatype VarRegexps = VarRegexps(goVar: Regexp, scriptVar: Regexp, pyVar: Regexp)

  /**
   * The analyser: the comment prefix and the function pattern of each
   * extension it knows, and the declaration patterns.
   */
  datatype FileModifier = FileModifier(
    commentStyles: map<string, string>,
    funcPatterns: map<string, Regexp>,
    varPatterns: VarRegexps)

  ghost predicate Valid(fm: FileModifier) {
    && (forall ext :: ext in fm.funcPatterns ==> Capturing(fm.funcPatterns[ext]))
    && Capturing(fm.varPatterns.goVar)
    && Capturing(fm.varPatterns.scriptVar)
    && Capturing(fm.varPatterns.pyVar)
  }

  /** The comment prefix of each extension NewFileModifier knows. */
  const CommentStyles: map<string, string> :=
    map[".py" := "#", ".js" := "//", ".ts" := "//", ".go" := "//", ".java" := "//", ".cpp" := "//", ".rs" := "//"]

  /** The function pattern of each extension NewFileModifier knows. */
  function FuncPatterns(pyFunc: Regexp, jsFunc: Regexp, tsFunc: Regexp, goFunc: Regexp): map<string, Regexp> {
    map[".py" := pyFunc, ".js" := jsFunc, ".ts" := tsFunc, ".go" := goFunc]
  }

  /** NewFileModifier, with the four function patterns and the declaration patterns given. */
  function NewFileModifier(pyFunc: Regexp, jsFunc: Regexp, tsFunc: Regexp, goFunc: Regexp, vars: VarRegexps): FileModifier {
    FileModifier(CommentStyles, FuncPatterns(pyFunc, jsFunc, tsFunc, goFunc), vars)
  }

  /**
   * Every extension with a function pattern also has a comment prefix; Java,
   * C++ and Rust get comment blocks but no function detection; Python's
   * prefix is "#" and every other known prefix is "//".
   */
  lemma NewFileModifierTables(pyFunc: Regexp, jsFunc: Regexp, tsFunc: Regexp, goFunc: Regexp, vars: VarRegexps)
    ensures var fm := NewFileModifier(pyFunc, jsFunc, tsFunc, goFunc, vars);
      && (forall ext :: ext in fm.funcPatterns ==> ext in fm.commentStyles)
      && (forall ext :: ext in {".java", ".cpp", ".rs"} ==> ext in fm.commentStyles && ext !in fm.funcPatterns)
      && (forall ext :: ext in fm.commentStyles ==> fm.commentStyles[ext] == if ext == ".py" then "#" else "//")
    ensures (Capturing(pyFunc) && Capturing(jsFunc) && Capturing(tsFunc) && Capturing(goFunc)
             && Capturing(vars.goVar) && Capturing(vars.scriptVar) && Capturing(vars.pyVar)) ==>
      Valid(NewFileModifier(pyFunc, jsFunc, tsFunc, goFunc, vars))
  {
    var fm := NewFileModifier(pyFunc, jsFunc, tsFunc, goFunc, vars);
    assert fm.commentStyles == CommentStyles && fm.funcPatterns == FuncPatterns(pyFunc, jsFunc, tsFunc, goFunc);
    CommentStylesTable();
    FuncPatternsTable(pyFunc, jsFunc, tsFunc, goFunc);
  }

  lemma CommentStylesTable()
    ensures CommentStyles.Keys == {".py", ".js", ".ts", ".go", ".java", ".cpp", ".rs"}
    ensures forall ext :: ext in {".java", ".cpp", ".rs"} ==> ext in CommentStyles
    ensures forall ext :: ext in CommentStyles ==> CommentStyles[ext] == if ext == ".py" then "#" else "//"
  {
  }

  lemma FuncPatternsTable(pyFunc: Regexp, jsFunc: Regexp, tsFunc: Regexp, goFunc: Regexp)
    ensures FuncPatterns(pyFunc, jsFunc, tsFunc, goFunc).Keys == {".py", ".js", ".ts", ".go"}
    ensures forall ext :: ext in {".java", ".cpp", ".rs"} ==> ext !in FuncPatterns(pyFunc, jsFunc, tsFunc, goFunc)
    ensures forall ext :: ext in FuncPatterns(pyFunc, jsFunc, tsFunc, goFunc) ==>
      FuncPatterns(pyFunc, jsFunc, tsFunc, goFunc)[ext] in {pyFunc, jsFunc, tsFunc, goFunc}
  {
  }

  // ---------------------------------------------------------------------------
  // Comment blocks
  // ---------------------------------------------------------------------------

  /** A comment line: after stripping white space it begins with the prefix. */
  predicate IsComment(line: string, style: string) {
    HasPrefix(TrimSpace(line), style)
  }

  /** The comment flag of each line. */
  function CommentFlags(lines: seq<string>, style: string): (flags: seq<bool>)
    ensures |flags| == |lines|
    ensures forall i :: 0 <= i < |lines| ==> flags[i] == IsComment(lines[i], style)
  {
    seq(|lines|, i requires 0 <= i < |lines| => IsComment(lines[i], style))
  }

  /** Every line from s to e (inclusive) is flagged. */
  ghost predicate AllSet(flags: seq<bool>, s: int, e: int)
    requires e < |flags|
  {
    forall j :: 0 <= s <= j <= e ==> flags[j]
  }

  /** Line j lies in one of the blocks. */
  ghost predicate InBlocks(blocks: seq<Block>, j: int) {
    exists k :: 0 <= k < |blocks| && blocks[k].0 <= j <= blocks[k].1
  }

  /** The state of the scan of findComments: the closed blocks and the block being grown. */
  datatype CommentState = CommentState(blocks: seq<Block>, current: Option<Block>)

  /** The scan over the first n lines, given each line's comment flag. */
  function CommentScan(flags: seq<bool>, n: nat): CommentState
    requires n <= |flags|
  {
    if n == 0 then CommentState([], None)
    else
      var st := CommentScan(flags, n - 1);
      var i := n - 1;
      if flags[i] then
        CommentState(st.blocks, Some((if st.current.None? then i else st.current.value.0, i)))
      else if st.current.Some? then
        CommentState(st.blocks + [st.current.value], None)
      else
        st
  }

  /** The blocks of a scan: the closed ones and a block still open at the end. */
  function ScanBlocks(flags: seq<bool>): seq<Block> {
    var st := CommentScan(flags, |flags|);
    if st.current.Some? then st.blocks + [st.current.value] else st.blocks
  }

  /** The blocks findComments reports. */
  function CommentBlocksOf(lines: seq<string>, style: string): seq<Block> {
    ScanBlocks(CommentFlags(lines, style))
  }

  /** A block closed before line n: the line after it is a line before n and not flagged. */
  ghost predicate ClosedBlock(flags: seq<bool>, b: Block, n: nat) {
    && 0 <= b.0 <= b.1 && b.1 + 1 < n <= |flags|
    && AllSet(flags, b.0, b.1)
    && !flags[b.1 + 1]
    && (b.0 == 0 || !flags[b.0 - 1])
  }

  /** The block still open after n lines: it ends at line n - 1. */
  ghost predicate OpenBlock(flags: seq<bool>, b: Block, n: nat) {
    && 0 <= b.0 <= b.1 && b.1 + 1 == n <= |flags|
    && AllSet(flags, b.0, b.1)
    && (b.0 == 0 || !flags[b.0 - 1])
  }

  /** What the scan has established after n lines. */
  ghost predicate ScanInvariant(flags: seq<bool>, n: nat, st: CommentState)
    requires n <= |flags|
  {
    var bs := st.blocks;
    && (forall k :: 0 <= k < |bs| ==> ClosedBlock(flags, bs[k], n))
    && (forall k :: 0 <= k < |bs| - 1 ==> bs[k].1 + 1 < bs[k + 1].0)
    && (st.current.Some? <==> n > 0 && flags[n - 1])
    && (st.current.Some? ==>
          OpenBlock(flags, st.current.value, n) && (|bs| > 0 ==> bs[|bs| - 1].1 + 1 < st.current.value.0))
    && (forall j :: 0 <= j < n && flags[j] ==>
          InBlocks(bs, j) || (st.current.Some? && st.current.value.0 <= j))
  }

  lemma InBlocksAppend(blocks: seq<Block>, b: Block, j: int)
    requires InBlocks(blocks, j) || b.0 <= j <= b.1
    ensures InBlocks(blocks + [b], j)
  {
    if InBlocks(blocks, j) {
      var k :| 0 <= k < |blocks| && blocks[k].0 <= j <= blocks[k].1;
      assert (blocks + [b])[k] == blocks[k];
    } else {
      assert (blocks + [b])[|blocks|] == b;
    }
  }

  /** The scan keeps its invariant line by line. */
  lemma {:induction false} CommentScanInvariant(flags: seq<bool>, n: nat)
    requires n <= |flags|
    ensures ScanInvariant(flags, n, CommentScan(flags, n))
  {
    if n > 0 {
      CommentScanInvariant(flags, n - 1);
      var st := CommentScan(flags, n - 1);
      var bs := st.blocks;
      forall k | 0 <= k < |bs|
        ensures ClosedBlock(flags, bs[k], n)
      {
        assert ClosedBlock(flags, bs[k], n - 1);
      }
      if flags[n - 1] {
        CommentStepComment(flags, n, st);
      } else if st.current.Some? {
        CommentStepClose(flags, n, st);
      }
    }
  }

  /** A comment line opens a block or extends the open one. */
  lemma CommentStepComment(flags: seq<bool>, n: nat, st: CommentState)
    requires 0 < n <= |flags| && flags[n - 1]
    requires ScanInvariant(flags, n - 1, st)
    requires forall k :: 0 <= k < |st.blocks| ==> ClosedBlock(flags, st.blocks[k], n)
    ensures ScanInvariant(flags, n, CommentState(st.blocks, Some((if st.current.None? then n - 1 else st.current.value.0, n - 1))))
  {
    var s := if st.current.None? then n - 1 else st.current.value.0;
    var bs := st.blocks;
    if st.current.None? && |bs| > 0 {
      assert ClosedBlock(flags, bs[|bs| - 1], n - 1);
    }
    assert OpenBlock(flags, (s, n - 1), n);
  }

  /** A line that is not a comment closes the open block. */
  lemma CommentStepClose(flags: seq<bool>, n: nat, st: CommentState)
    requires 0 < n <= |flags| && !flags[n - 1] && st.current.Some?
    requires ScanInvariant(flags, n - 1, st)
    requires forall k :: 0 <= k < |st.blocks| ==> ClosedBlock(flags, st.blocks[k], n)
    ensures ScanInvariant(flags, n, CommentState(st.blocks + [st.current.value], None))
  {
    var bs := st.blocks;
    var b := st.current.value;
    var bs' := bs + [b];
    assert OpenBlock(flags, b, n - 1);
    assert ClosedBlock(flags, b, n);
    forall k | 0 <= k < |bs'|
      ensures ClosedBlock(flags, bs'[k], n)
    {
      if k < |bs| {
        assert bs'[k] == bs[k];
      }
    }
    forall k | 0 <= k < |bs'| - 1
      ensures bs'[k].1 + 1 < bs'[k + 1].0
    {
      assert bs'[k] == bs[k];
    }
    forall j | 0 <= j < n && flags[j]
      ensures InBlocks(bs', j)
    {
      InBlocksAppend(bs, b, j);
    }
  }

  /** A block that is a maximal run of flagged lines: all flagged, unflagged (or the file's edge) on both sides. */
  ghost predicate MaximalRun(flags: seq<bool>, b: Block) {
    && 0 <= b.0 <= b.1 < |flags|
    && AllSet(flags, b.0, b.1)
    && (b.0 == 0 || !flags[b.0 - 1])
    && (b.1 == |flags| - 1 || !flags[b.1 + 1])
  }

  /** The blocks are maximal runs, in increasing order with gaps, and every flagged line is in one. */
  ghost predicate MaximalRuns(flags: seq<bool>, r: seq<Block>) {
    && (forall k :: 0 <= k < |r| ==> MaximalRun(flags, r[k]))
    && (forall k :: 0 <= k < |r| - 1 ==> r[k].1 + 1 < r[k + 1].0)
    && (forall j :: 0 <= j < |flags| && flags[j] ==> InBlocks(r, j))
  }

  /** The blocks of a scan are the maximal runs of flagged lines. */
  lemma ScanBlocksMaximalRuns(flags: seq<bool>)
    ensures MaximalRuns(flags, ScanBlocks(flags))
  {
    CommentScanInvariant(flags, |flags|);
    var st := CommentScan(flags, |flags|);
    var bs := st.blocks;
    forall k | 0 <= k < |bs|
      ensures MaximalRun(flags, bs[k])
    {
      assert ClosedBlock(flags, bs[k], |flags|);
    }
    if st.current.Some? {
      var b := st.current.value;
      assert OpenBlock(flags, b, |flags|);
      RunsWithOpenBlock(flags, bs, b);
    }
  }

  /** The closed blocks followed by the block still open at the end of the file. */
  lemma RunsWithOpenBlock(flags: seq<bool>, bs: seq<Block>, b: Block)
    requires forall k :: 0 <= k < |bs| ==> MaximalRun(flags, bs[k])
    requires forall k :: 0 <= k < |bs| - 1 ==> bs[k].1 + 1 < bs[k + 1].0
    requires MaximalRun(flags, b) && (|bs| > 0 ==> bs[|bs| - 1].1 + 1 < b.0) && b.1 == |flags| - 1
    requires forall j :: 0 <= j < |flags| && flags[j] ==> InBlocks(bs, j) || b.0 <= j
    ensures MaximalRuns(flags, bs + [b])
  {
    var r := bs + [b];
    forall k | 0 <= k < |r|
      ensures MaximalRun(flags, r[k])
    {
      if k < |bs| {
        assert r[k] == bs[k];
      }
    }
    forall k | 0 <= k < |r| - 1
      ensures r[k].1 + 1 < r[k + 1].0
    {
      assert r[k] == bs[k];
    }
    forall j | 0 <= j < |flags| && flags[j]
      ensures InBlocks(r, j)
    {
      InBlocksAppend(bs, b, j);
    }
  }

  /**
   * findComments' blocks are exactly the maximal runs of comment lines: each
   * block lies inside the file and holds only comment lines, the lines just
   * before and after it are not comments (or it touches the start or the end
   * of the file), consecutive blocks are in increasing order with at least
   * one line between them, and every comment line lies in a block.
   */
  lemma CommentBlocksMaximalRuns(lines: seq<string>, style: string)
    ensures var r := CommentBlocksOf(lines, style);
      && (forall k :: 0 <= k < |r| ==>
            && 0 <= r[k].0 <= r[k].1 < |lines|
            && (forall j :: r[k].0 <= j <= r[k].1 ==> IsComment(lines[j], style))
            && (r[k].0 == 0 || !IsComment(lines[r[k].0 - 1], style))
            && (r[k].1 == |lines| - 1 || !IsComment(lines[r[k].1 + 1], style)))
      && (forall k :: 0 <= k < |r| - 1 ==> r[k].1 + 1 < r[k + 1].0)
      && (forall j :: 0 <= j < |lines| && IsComment(lines[j], style) ==> InBlocks(r, j))
  {
    var flags := CommentFlags(lines, style);
    ScanBlocksMaximalRuns(flags);
    var r := ScanBlocks(flags);
    forall k | 0 <= k < |r|
      ensures forall j :: r[k].0 <= j <= r[k].1 ==> IsComment(lines[j], style)
    {
      assert MaximalRun(flags, r[k]);
      assert AllSet(flags, r[k].0, r[k].1);
    }
  }

  /** findComments: one pass over the lines, growing the open block and closing it at a non-comment line. */
  method FindComments(lines: seq<string>, commentStyle: string) returns (comments: seq<Block>)
    ensures comments == CommentBlocksOf(lines, commentStyle)
  {
    comments := [];
    var currentBlock: Option<Block> := None;
    ghost var flags := CommentFlags(lines, commentStyle);
    for i := 0 to |lines|
      invariant comments == CommentScan(flags, i).blocks
      invariant currentBlock == CommentScan(flags, i).current
    {
      assert flags[i] == IsComment(lines[i], commentStyle);
      if IsComment(lines[i], commentStyle) {
        if currentBlock.None? {
          currentBlock := Some((i, i));
        }
        currentBlock := Some((currentBlock.value.0, i));
      } else if currentBlock.Some? {
        comments := comments + [currentBlock.value];
        currentBlock := None;
      }
    }
    if currentBlock.Some? {
      comments := comments + [currentBlock.value];
    }
  }

  // ---------------------------------------------------------------------------
  // Functions
  // ---------------------------------------------------------------------------

  /** The characters strings.TrimLeft(line, " \t") strips. */
  const Blanks: set<char> := {' ', '\t'}

  /** The number of leading spaces and tabs. */
  function Indent(line: string): nat {
    |line| - |TrimLeft(line, Blanks)|
  }

  /**
   * A line that keeps a function body going: an empty line, or one whose text
   * after its leading blanks is longer than the definition line's indentation.
   */
  predicate Continues(line: string, indent: nat) {
    |line| == 0 || |TrimLeft(line, Blanks)| > indent
  }

  /** The scan for the end of a body, from line e: the first line that does not continue it, or the end of the file. */
  function EndFrom(lines: seq<string>, indent: nat, e: nat): (end: nat)
    requires e <= |lines|
    ensures e <= end <= |lines|
    ensures forall j :: e <= j < end ==> Continues(lines[j], indent)
    ensures end < |lines| ==> !Continues(lines[end], indent)
    decreases |lines| - e
  {
    if e < |lines| && Continues(lines[e], indent) then EndFrom(lines, indent, e + 1) else e
  }

  /** The end (exclusive) of the function defined on line i. */
  function FunctionEnd(lines: seq<string>, i: nat): nat
    requires i < |lines|
  {
    EndFrom(lines, Indent(lines[i]), i + 1)
  }

  /** The entry for a matching line i: the first captured group, the span and its text. */
  function FunctionAt(lines: seq<string>, re: Regexp, i: nat): FunctionInfo
    requires i < |lines| && Capturing(re) && re.find(lines[i]).Some?
  {
    var end := FunctionEnd(lines, i);
    FunctionInfo(re.find(lines[i]).value[1], i, end, Join(lines[i..end], "\n"))
  }

  /** findFunctions over the first n lines. */
  function FunctionsIn(lines: seq<string>, re: Regexp, n: nat): seq<FunctionInfo>
    requires n <= |lines| && Capturing(re)
  {
    if n == 0 then []
    else FunctionsIn(lines, re, n - 1) + (if re.find(lines[n - 1]).Some? then [FunctionAt(lines, re, n - 1)] else [])
  }

  /**
   * The entry of a matching line names the first captured group, starts at
   * the line, ends before the first later line that is non-empty and whose
   * text after its blanks is no longer than the definition's indentation (or
   * at the end of the file), and holds the lines of that span joined by "\n".
   */
  lemma FunctionAtFacts(lines: seq<string>, re: Regexp, i: nat)
    requires i < |lines| && Capturing(re) && re.find(lines[i]).Some?
    ensures var f := FunctionAt(lines, re, i);
      && f.name == re.find(lines[i]).value[1]
      && f.startLine == i
      && i < f.endLine <= |lines|
      && (forall j :: i < j < f.endLine ==> Continues(lines[j], Indent(lines[i])))
      && (f.endLine < |lines| ==> !Continues(lines[f.endLine], Indent(lines[i])))
      && f.content == Join(lines[i..f.endLine], "\n")
  {
  }

  /** Each entry is FunctionAt of a matching line before n. */
  ghost predicate FunctionEntries(lines: seq<string>, re: Regexp, n: nat, r: seq<FunctionInfo>)
    requires n <= |lines| && Capturing(re)
  {
    forall k :: 0 <= k < |r| ==>
      0 <= r[k].startLine < n && re.find(lines[r[k].startLine]).Some? && r[k] == FunctionAt(lines, re, r[k].startLine)
  }

  /** Entries in strictly increasing line order. */
  ghost predicate FunctionsAscending(r: seq<FunctionInfo>) {
    forall k, l :: 0 <= k < l < |r| ==> r[k].startLine < r[l].startLine
  }

  /** Every matching line before n has an entry. */
  ghost predicate FunctionsComplete(lines: seq<string>, re: Regexp, n: nat, r: seq<FunctionInfo>)
    requires n <= |lines|
  {
    forall i :: 0 <= i < n && re.find(lines[i]).Some? ==> exists k :: 0 <= k < |r| && r[k].startLine == i
  }

  lemma {:induction false} FunctionsInEntries(lines: seq<string>, re: Regexp, n: nat)
    requires n <= |lines| && Capturing(re)
    ensures FunctionEntries(lines, re, n, FunctionsIn(lines, re, n))
  {
    if n > 0 {
      FunctionsInEntries(lines, re, n - 1);
      var front := FunctionsIn(lines, re, n - 1);
      var r := FunctionsIn(lines, re, n);
      assert r == front + (if re.find(lines[n - 1]).Some? then [FunctionAt(lines, re, n - 1)] else []);
      forall k | 0 <= k < |r|
        ensures 0 <= r[k].startLine < n && re.find(lines[r[k].startLine]).Some? && r[k] == FunctionAt(lines, re, r[k].startLine)
      {
        if k < |front| {
          assert r[k] == front[k];
        }
      }
    }
  }

  lemma {:induction false} FunctionsInOrdered(lines: seq<string>, re: Regexp, n: nat)
    requires n <= |lines| && Capturing(re)
    ensures FunctionsAscending(FunctionsIn(lines, re, n))
  {
    if n > 0 {
      FunctionsInOrdered(lines, re, n - 1);
      FunctionsInEntries(lines, re, n - 1);
      var front := FunctionsIn(lines, re, n - 1);
      var r := FunctionsIn(lines, re, n);
      assert r == front + (if re.find(lines[n - 1]).Some? then [FunctionAt(lines, re, n - 1)] else []);
      forall k, l | 0 <= k < l < |r|
        ensures r[k].startLine < r[l].startLine
      {
        assert r[k] == front[k];
        if l < |front| {
          assert r[l] == front[l];
        }
      }
    }
  }

  lemma {:induction false} FunctionsInComplete(lines: seq<string>, re: Regexp, n: nat)
    requires n <= |lines| && Capturing(re)
    ensures FunctionsComplete(lines, re, n, FunctionsIn(lines, re, n))
  {
    if n > 0 {
      FunctionsInComplete(lines, re, n - 1);
      var front := FunctionsIn(lines, re, n - 1);
      var r := FunctionsIn(lines, re, n);
      assert r == front + (if re.find(lines[n - 1]).Some? then [FunctionAt(lines, re, n - 1)] else []);
      forall i | 0 <= i < n && re.find(lines[i]).Some?
        ensures exists k :: 0 <= k < |r| && r[k].startLine == i
      {
        if i < n - 1 {
          var k :| 0 <= k < |front| && front[k].startLine == i;
          assert r[k] == front[k];
        } else {
          assert r[|front|] == FunctionAt(lines, re, n - 1);
        }
      }
    }
  }

  /**
   * findFunctions reports exactly the matching lines, one entry each, in
   * strictly increasing line order, each entry being that line's FunctionAt.
   */
  lemma FunctionsInFacts(lines: seq<string>, re: Regexp)
    requires Capturing(re)
    ensures FunctionEntries(lines, re, |lines|, FunctionsIn(lines, re, |lines|))
    ensures FunctionsAscending(FunctionsIn(lines, re, |lines|))
    ensures FunctionsComplete(lines, re, |lines|, FunctionsIn(lines, re, |lines|))
  {
    FunctionsInEntries(lines, re, |lines|);
    FunctionsInOrdered(lines, re, |lines|);
    FunctionsInComplete(lines, re, |lines|);
  }

  /** findFunctions: each matching line, then a scan for the end of its body. */
  method FindFunctions(lines: seq<string>, pattern: Regexp) returns (functions: seq<FunctionInfo>)
    requires Capturing(pattern)
    ensures functions == FunctionsIn(lines, pattern, |lines|)
  {
    functions := [];
    for i := 0 to |lines|
      invariant functions == FunctionsIn(lines, pattern, i)
    {
      var line := lines[i];
      var found := pattern.find(line);
      if found.Some? {
        var end := ScanFunctionEnd(lines, i);
        functions := functions + [FunctionInfo(found.value[1], i, end, Join(lines[i..end], "\n"))];
      }
    }
  }

  /** The inner loop of findFunctions: from the line after a definition, skip the lines that continue its body. */
  method ScanFunctionEnd(lines: seq<string>, i: nat) returns (end: nat)
    requires i < |lines|
    ensures end == FunctionEnd(lines, i)
  {
    var line := lines[i];
    end := i + 1;
    var indent := |line| - |TrimLeft(line, Blanks)|;
    while end < |lines| && (|lines[end]| == 0 || |TrimLeft(lines[end], Blanks)| > indent)
      invariant i + 1 <= end <= |lines|
      invariant EndFrom(lines, indent, end) == EndFrom(lines, indent, i + 1)
      decreases |lines| - end
    {
      end := end + 1;
    }
  }

  // ---------------------------------------------------------------------------
  // Variables
  // ---------------------------------------------------------------------------

  /** The declaration pattern for an extension: Go, JavaScript/TypeScript, Python, or none. */
  function VariablePattern(vars: VarRegexps, ext: string): (re: Option<Regexp>)
    ensures re.None? <==> ext !in {".go", ".js", ".ts", ".py"}
  {
    if ext == ".go" then Some(vars.goVar)
    else if ext == ".js" || ext == ".ts" then Some(vars.scriptVar)
    else if ext == ".py" then Some(vars.pyVar)
    else None
  }

  /** A declaration on line i: the last submatch is the name, the first the kind when there are two groups. */
  function VariableAt(lines: seq<string>, re: Regexp, i: nat): VariableInfo
    requires i < |lines| && re.find(lines[i]).Some? && |re.find(lines[i]).value| > 0
  {
    var m := re.find(lines[i]).value;
    VariableInfo(m[|m| - 1], i, if |m| > 2 then m[1] else "var")
  }

  /** A line with a non-empty submatch list. */
  predicate Declares(re: Regexp, line: string) {
    re.find(line).Some? && |re.find(line).value| > 0
  }

  /** findVariables' loop over the first n lines. */
  function VariablesIn(lines: seq<string>, re: Regexp, n: nat): seq<VariableInfo>
    requires n <= |lines|
  {
    if n == 0 then []
    else VariablesIn(lines, re, n - 1) + (if Declares(re, lines[n - 1]) then [VariableAt(lines, re, n - 1)] else [])
  }

  /** findVariables: nothing for an unsupported extension, otherwise the declarations line by line. */
  function Variables(vars: VarRegexps, lines: seq<string>, ext: string): seq<VariableInfo> {
    match VariablePattern(vars, ext)
    case None => []
    case Some(re) => VariablesIn(lines, re, |lines|)
  }

  /**
   * Each entry is VariableAt of a declaring line before n: with a pattern of
   * two groups the kind is the first group and the name the second, and with
   * one group the name is that group and the kind is "var".
   */
  ghost predicate VariableEntries(lines: seq<string>, re: Regexp, n: nat, r: seq<VariableInfo>)
    requires n <= |lines|
  {
    forall k :: 0 <= k < |r| ==>
      0 <= r[k].lineNum < n && Declares(re, lines[r[k].lineNum]) && r[k] == VariableAt(lines, re, r[k].lineNum)
  }

  /** Entries in strictly increasing line order. */
  ghost predicate VariablesAscending(r: seq<VariableInfo>) {
    forall k, l :: 0 <= k < l < |r| ==> r[k].lineNum < r[l].lineNum
  }

  /** Every declaring line before n has an entry. */
  ghost predicate VariablesComplete(lines: seq<string>, re: Regexp, n: nat, r: seq<VariableInfo>)
    requires n <= |lines|
  {
    forall i :: 0 <= i < n && Declares(re, lines[i]) ==> exists k :: 0 <= k < |r| && r[k].lineNum == i
  }

  /** A declaration's name and kind as the pattern's group count decides them. */
  lemma VariableAtFacts(lines: seq<string>, re: Regexp, i: nat)
    requires i < |lines| && Compiled(re) && re.find(lines[i]).Some?
    ensures Declares(re, lines[i])
    ensures var m := re.find(lines[i]).value;
      && VariableAt(lines, re, i).lineNum == i
      && (re.groups == 2 ==> VariableAt(lines, re, i) == VariableInfo(m[2], i, m[1]))
      && (re.groups == 1 ==> VariableAt(lines, re, i) == VariableInfo(m[1], i, "var"))
  {
  }

  lemma {:induction false} VariablesInEntries(lines: seq<string>, re: Regexp, n: nat)
    requires n <= |lines|
    ensures VariableEntries(lines, re, n, VariablesIn(lines, re, n))
  {
    if n > 0 {
      VariablesInEntries(lines, re, n - 1);
      var front := VariablesIn(lines, re, n - 1);
      var r := VariablesIn(lines, re, n);
      assert r == front + (if Declares(re, lines[n - 1]) then [VariableAt(lines, re, n - 1)] else []);
      forall k | 0 <= k < |r|
        ensures 0 <= r[k].lineNum < n && Declares(re, lines[r[k].lineNum]) && r[k] == VariableAt(lines, re, r[k].lineNum)
      {
        if k < |front| {
          assert r[k] == front[k];
        }
      }
    }
  }

  lemma {:induction false} VariablesInOrdered(lines: seq<string>, re: Regexp, n: nat)
    requires n <= |lines|
    ensures VariablesAscending(VariablesIn(lines, re, n))
  {
    if n > 0 {
      VariablesInOrdered(lines, re, n - 1);
      VariablesInEntries(lines, re, n - 1);
      var front := VariablesIn(lines, re, n - 1);
      var r := VariablesIn(lines, re, n);
      assert r == front + (if Declares(re, lines[n - 1]) then [VariableAt(lines, re, n - 1)] else []);
      forall k, l | 0 <= k < l < |r|
        ensures r[k].lineNum < r[l].lineNum
      {
        assert r[k] == front[k];
        if l < |front| {
          assert r[l] == front[l];
        }
      }
    }
  }

  lemma {:induction false} VariablesInComplete(lines: seq<string>, re: Regexp, n: nat)
    requires n <= |lines|
    ensures VariablesComplete(lines, re, n, VariablesIn(lines, re, n))
  {
    if n > 0 {
      VariablesInComplete(lines, re, n - 1);
      var front := VariablesIn(lines, re, n - 1);
      var r := VariablesIn(lines, re, n);
      assert r == front + (if Declares(re, lines[n - 1]) then [VariableAt(lines, re, n - 1)] else []);
      forall i | 0 <= i < n && Declares(re, lines[i])
        ensures exists k :: 0 <= k < |r| && r[k].lineNum == i
      {
        if i < n - 1 {
          var k :| 0 <= k < |front| && front[k].lineNum == i;
          assert r[k] == front[k];
        } else {
          assert r[|front|] == VariableAt(lines, re, n - 1);
        }
      }
    }
  }

  /**
   * findVariables reports nothing for an extension other than .go, .js, .ts
   * and .py, and otherwise exactly the declaring lines, one entry each, in
   * strictly increasing line order.
   */
  lemma VariablesFacts(vars: VarRegexps, lines: seq<string>, ext: string)
    ensures ext !in {".go", ".js", ".ts", ".py"} ==> Variables(vars, lines, ext) == []
    ensures VariablePattern(vars, ext).Some? ==>
      var re := VariablePattern(vars, ext).value;
      && VariableEntries(lines, re, |lines|, Variables(vars, lines, ext))
      && VariablesAscending(Variables(vars, lines, ext))
      && VariablesComplete(lines, re, |lines|, Variables(vars, lines, ext))
  {
    if VariablePattern(vars, ext).Some? {
      var re := VariablePattern(vars, ext).value;
      VariablesInEntries(lines, re, |lines|);
      VariablesInOrdered(lines, re, |lines|);
      VariablesInComplete(lines, re, |lines|);
    }
  }

  /** findVariables. */
  method FindVariables(fm: FileModifier, lines: seq<string>, ext: string) returns (variables: seq<VariableInfo>)
    ensures variables == Variables(fm.varPatterns, lines, ext)
    ensures ext !in {".go", ".js", ".ts", ".py"} ==> variables == []
  {
    variables := [];
    var pattern := VariablePattern(fm.varPatterns, ext);
    if pattern.None? {
      return;
    }
    var re := pattern.value;
    for i := 0 to |lines|
      invariant variables == VariablesIn(lines, re, i)
    {
      var matches := re.find(lines[i]);
      if matches.Some? && |matches.value| > 0 {
        var varType := "var";
        var name := matches.value[|matches.value| - 1];
        if |matches.value| > 2 {
          varType := matches.value[1];
        }
        variables := variables + [VariableInfo(name, i, varType)];
      }
    }
  }

  // ---------------------------------------------------------------------------
  // Whole-file analysis and change suggestions
  // ---------------------------------------------------------------------------

  /**
   * PrepareFileContent: the lines are the content split at "\n" (so joining
   * them back gives the content); functions are looked for only for an
   * extension with a function pattern, comment blocks only for one with a
   * comment prefix; the declarations as findVariables finds them; and there
   * is never an error.
   */
  method PrepareFileContent(fm: FileModifier, filePath: string, content: string)
    returns (metadata: FileMetadata, err: Option<string>)
    requires Valid(fm)
    ensures err == None
    ensures metadata.lines == Split(content, '\n')
    ensures Join(metadata.lines, "\n") == content
    ensures var ext := Ext(filePath);
      && metadata.functions == (if ext in fm.funcPatterns then FunctionsIn(metadata.lines, fm.funcPatterns[ext], |metadata.lines|) else [])
      && metadata.comments == (if ext in fm.commentStyles then CommentBlocksOf(metadata.lines, fm.commentStyles[ext]) else [])
      && metadata.variables == Variables(fm.varPatterns, metadata.lines, ext)
  {
    var ext := Ext(filePath);
    var lines := Split(content, '\n');
    JoinSplit(content, '\n');
    metadata := FileMetadata(lines, [], [], []);
    if ext in fm.funcPatterns {
      var functions := FindFunctions(lines, fm.funcPatterns[ext]);
      metadata := metadata.(functions := functions);
    }
    if ext in fm.commentStyles {
      var comments := FindComments(lines, fm.commentStyles[ext]);
      metadata := metadata.(comments := comments);
    }
    var variables := FindVariables(fm, lines, ext);
    metadata := metadata.(variables := variables);
    err := None;
  }

  /** The change generators; none of them is implemented, so each suggests nothing. */
  function ImproveComments(ext: string, metadata: FileMetadata): seq<CodeChange> { [] }
  function EnhanceErrorHandling(ext: string, metadata: FileMetadata): seq<CodeChange> { [] }
  function RenameVariables(ext: string, metadata: FileMetadata): seq<CodeChange> { [] }
  function AddLogging(ext: string, metadata: FileMetadata): seq<CodeChange> { [] }
  function OptimizeCode(ext: string, metadata: FileMetadata): seq<CodeChange> { [] }

  /** The generator list of SuggestChanges, by position. */
  function ChangeType(k: nat, ext: string, metadata: FileMetadata): seq<CodeChange>
    requires k < 5
  {
    if k == 0 then ImproveComments(ext, metadata)
    else if k == 1 then EnhanceErrorHandling(ext, metadata)
    else if k == 2 then RenameVariables(ext, metadata)
    else if k == 3 then AddLogging(ext, metadata)
    else OptimizeCode(ext, metadata)
  }

  /** Two generators for a file with more than one function, one otherwise. */
  function NumChanges(metadata: FileMetadata): nat {
    if |metadata.functions| > 1 then 2 else 1
  }

  /** The changes of the first n generator calls, cycling through the list. */
  function ChangesFrom(ext: string, metadata: FileMetadata, n: nat): seq<CodeChange> {
    if n == 0 then []
    else ChangesFrom(ext, metadata, n - 1) + ChangeType((n - 1) % 5, ext, metadata)
  }

  /** However many generators run, the stubs contribute nothing. */
  lemma {:induction false} ChangesFromNone(ext: string, metadata: FileMetadata, n: nat)
    ensures ChangesFrom(ext, metadata, n) == []
  {
    if n > 0 {
      ChangesFromNone(ext, metadata, n - 1);
    }
  }

  /**
   * SuggestChanges: the concatenation of the first NumChanges generators'
   * suggestions (two for a file with more than one function, else one),
   * which is always empty.
   */
  method SuggestChanges(filePath: string, metadata: FileMetadata) returns (changes: seq<CodeChange>)
    ensures changes == ChangesFrom(Ext(filePath), metadata, NumChanges(metadata))
    ensures changes == []
  {
    changes := [];
    var ext := Ext(filePath);
    var numChanges := 1;
    if |metadata.functions| > 1 {
      numChanges := 2;
    }
    for i := 0 to numChanges
      invariant changes == ChangesFrom(ext, metadata, i)
    {
      var newChanges := ChangeType(i % 5, ext, metadata);
      if |newChanges| > 0 {
        changes := changes + newChanges;
      }
    }
    ChangesFromNone(ext, metadata, numChanges);
  }
}
