/** Python indentation rewritten to one space per level: the tokenizer's indent stack, which
    lines may move it, and when the rewrite keeps the block structure. */
module PythonIndent {
  import opened Items
  import opened SourceTokens

  // ---- The indent stack ---------------------------------------------------------------

  predicate Rising(stack: seq<nat>) {
    && stack != [] && stack[0] == 0
    && forall i, j :: 0 <= i < j < |stack| ==> stack[i] < stack[j]
  }

  /** The entries a line of this width leaves open. */
  function Popped(stack: seq<nat>, width: nat): seq<nat> {
    if stack == [] || stack[|stack| - 1] <= width then stack else Popped(stack[..|stack| - 1], width)
  }

  function Stacked(stack: seq<nat>, width: nat): seq<nat> {
    var left := Popped(stack, width);
    if left == [] || left[|left| - 1] < width then left + [width] else left
  }

  lemma {:induction false} PoppedKeeps(stack: seq<nat>, width: nat)
    requires Rising(stack)
    ensures Rising(Popped(stack, width)) && Popped(stack, width) <= stack
    ensures var left := Popped(stack, width);
            left[|left| - 1] <= width && (|left| < |stack| ==> width < stack[|left|])
    decreases |stack|
  {
    if stack[|stack| - 1] > width {
      var front := stack[..|stack| - 1];
      PoppedKeeps(front, width);
      assert Popped(front, width) <= front <= stack;
    }
  }

  /** The stack always rises from zero, and the level is the line's place in it. */
  lemma StackRises(stack: seq<nat>, width: nat)
    requires Rising(stack)
    ensures Rising(Stacked(stack, width))
    ensures var next := Stacked(stack, width); next[|next| - 1] == width && |next| <= |stack| + 1
  {
    PoppedKeeps(stack, width);
  }

  method PushLevel(stack: seq<nat>, width: nat) returns (next: seq<nat>, level: nat)
    requires Rising(stack)
    ensures next == Stacked(stack, width) && Rising(next) && level == |next| - 1
  {
    next := stack;
    while next[|next| - 1] > width
      invariant Rising(next)
      invariant Popped(next, width) == Popped(stack, width)
      decreases |next|
    {
      next := next[..|next| - 1];
    }
    if width > next[|next| - 1] {
      next := next + [width];
    }
    StackRises(stack, width);
    level := |next| - 1;
  }

  // ---- A run of logical lines -------------------------------------------------------------

  function StackOf(widths: seq<nat>): seq<nat> {
    if widths == [] then [0] else Stacked(StackOf(widths[..|widths| - 1]), widths[|widths| - 1])
  }

  lemma {:induction false} StackOfRises(widths: seq<nat>)
    ensures Rising(StackOf(widths))
  {
    if widths != [] {
      StackOfRises(widths[..|widths| - 1]);
      StackRises(StackOf(widths[..|widths| - 1]), widths[|widths| - 1]);
    }
  }

  function LevelOf(widths: seq<nat>): nat {
    StackOfRises(widths);
    |StackOf(widths)| - 1
  }

  /** The level of every line of a run. */
  function Levels(widths: seq<nat>): (levels: seq<nat>)
    ensures |levels| == |widths|
  {
    if widths == [] then [] else Levels(widths[..|widths| - 1]) + [LevelOf(widths)]
  }

  function Ladder(n: nat): seq<nat> {
    seq(n + 1, i => i)
  }

  lemma {:induction false} LadderStep(n: nat, level: nat)
    requires level <= n + 1
    ensures Stacked(Ladder(n), level) == Ladder(level)
    decreases n
  {
    if level < n {
      LadderStep(n - 1, level);
      assert Ladder(n)[..n] == Ladder(n - 1);
    } else if level == n + 1 {
      assert Ladder(n) + [level] == Ladder(level);
    }
  }

  /** Feeding the levels back in as widths climbs the same ladder. */
  lemma {:induction false} LevelsClimb(widths: seq<nat>)
    ensures StackOf(Levels(widths)) == Ladder(LevelOf(widths))
  {
    if widths == [] {
      assert Ladder(0) == [0];
    } else {
      var front, last := widths[..|widths| - 1], widths[|widths| - 1];
      LevelsClimb(front);
      StackOfRises(front);
      StackRises(StackOf(front), last);
      LadderStep(LevelOf(front), LevelOf(widths));
      assert Levels(widths)[..|front|] == Levels(front);
    }
  }

  /** The rewrite is a fixed point: the levels of the rewritten lines are their widths. */
  lemma {:induction false} RewriteIsFixed(widths: seq<nat>)
    ensures Levels(Levels(widths)) == Levels(widths)
  {
    if widths != [] {
      var front := widths[..|widths| - 1];
      RewriteIsFixed(front);
      LevelsClimb(widths);
      assert Levels(widths)[..|front|] == Levels(front);
    }
  }

  // ---- Blocks ---------------------------------------------------------------------------------

  /** What the language's tokenizer makes of a line: blocks closed, then perhaps one opened. */
  datatype Blocks = Blocks(dedents: nat, indent: bool)

  function BlocksOf(stack: seq<nat>, width: nat): Blocks
    requires Rising(stack)
  {
    PoppedKeeps(stack, width);
    var left := Popped(stack, width);
    Blocks(|stack| - |left|, left[|left| - 1] < width)
  }

  function AllBlocks(widths: seq<nat>): seq<Blocks> {
    if widths == [] then []
    else
      var front := widths[..|widths| - 1];
      StackOfRises(front);
      AllBlocks(front) + [BlocksOf(StackOf(front), widths[|widths| - 1])]
  }

  /** A line that closes blocks returns to an indentation still open; any other dedent is an
      error in the language. */
  predicate Consistent(widths: seq<nat>) {
    widths == [] ||
    (&& Consistent(widths[..|widths| - 1])
     && ReturnsToOpen(StackOf(widths[..|widths| - 1]), widths[|widths| - 1]))
  }

  predicate ReturnsToOpen(stack: seq<nat>, width: nat) {
    stack != [] && width < stack[|stack| - 1] ==> width in stack
  }

  lemma LadderBlocks(n: nat, level: nat)
    requires level <= n + 1
    ensures Rising(Ladder(n))
    ensures BlocksOf(Ladder(n), level) == if level <= n then Blocks(n - level, false) else Blocks(0, true)
  {
    LadderPops(n, level);
  }

  lemma {:induction false} LadderPops(n: nat, level: nat)
    ensures Popped(Ladder(n), level) == Ladder(if level <= n then level else n)
    decreases n
  {
    if level < n {
      assert Ladder(n)[..n] == Ladder(n - 1);
      LadderPops(n - 1, level);
    }
  }

  /** One line: the levels show the tokenizer the same blocks exactly when the line does not
      dedent to a width that was never open. */
  lemma SameBlocksExactly(stack: seq<nat>, width: nat)
    requires Rising(stack)
    ensures var level := |Stacked(stack, width)| - 1;
            && level <= |stack|
            && Rising(Ladder(|stack| - 1))
            && (BlocksOf(stack, width) == BlocksOf(Ladder(|stack| - 1), level) <==> ReturnsToOpen(stack, width))
  {
    PoppedKeeps(stack, width);
    StackRises(stack, width);
    LadderBlocks(|stack| - 1, |Stacked(stack, width)| - 1);
    var left := Popped(stack, width);
    if width in stack {
      var i :| 0 <= i < |stack| && stack[i] == width;
      assert i < |left|;
      assert left[i] == stack[i];
    }
    if left[|left| - 1] == width { assert stack[|left| - 1] == width; }
  }

  /** The rewrite preserves the block structure, line for line, exactly for the sources the
      language accepts: those whose every dedent returns to an open indentation. */
  lemma {:induction false} RewriteKeepsBlocksExactly(widths: seq<nat>)
    ensures AllBlocks(Levels(widths)) == AllBlocks(widths) <==> Consistent(widths)
  {
    if widths != [] {
      var front, last := widths[..|widths| - 1], widths[|widths| - 1];
      var levels := Levels(widths);
      RewriteKeepsBlocksExactly(front);
      StackOfRises(front);
      LevelsClimb(front);
      assert levels[..|front|] == Levels(front);
      SameBlocksExactly(StackOf(front), last);
      SnocsEqual(AllBlocks(Levels(front)), AllBlocks(front),
                 BlocksOf(Ladder(LevelOf(front)), LevelOf(widths)), BlocksOf(StackOf(front), last));
    }
  }

  lemma SnocsEqual(a: seq<Blocks>, b: seq<Blocks>, x: Blocks, y: Blocks)
    ensures a + [x] == b + [y] <==> a == b && x == y
  {
    if a + [x] == b + [y] {
      assert (a + [x])[..|a|] == a && (b + [y])[..|b|] == b;
      assert (a + [x])[|a|] == x && (b + [y])[|b|] == y;
    }
  }

  // ---- Which lines count -------------------------------------------------------------------------

  /** Bracket nesting makes a line break implicit. */
  function BracketDelta(source: string, tok: Token): int
    requires tok.start <= tok.end <= |source|
  {
    if tok.kind == Comment then 0
    else if Text(source, tok) in ["(", "[", "{"] then 1
    else if Text(source, tok) in [")", "]", "}"] then -1
    else 0
  }

  function Deepened(depth: nat, delta: int): nat {
    if depth + delta < 0 then 0 else depth + delta
  }

  /** Open brackets behind a run of tokens. */
  function DepthAfter(source: string, tokens: seq<Token>): nat
    requires Laid(source, tokens)
  {
    if tokens == [] then 0
    else
      var front, last := tokens[..|tokens| - 1], tokens[|tokens| - 1];
      Deepened(DepthAfter(source, front), BracketDelta(source, last))
  }

  /** Where the line of a position begins. */
  function LineStart(source: string, pos: nat): (start: nat)
    requires pos <= |source|
    ensures start <= pos && (start == 0 || source[start - 1] == '\n') && '\n' !in source[start..pos]
  {
    if pos == 0 || source[pos - 1] == '\n' then pos
    else
      var start := LineStart(source, pos - 1);
      assert source[start..pos] == source[start..pos - 1] + [source[pos - 1]];
      start
  }

  /** The last token is the first on its line, outside all brackets. */
  predicate BeginsLine(source: string, tokens: seq<Token>)
    requires Laid(source, tokens)
  {
    && |tokens| > 1
    && '\n' in source[tokens[|tokens| - 2].end..tokens[|tokens| - 1].start]
    && DepthAfter(source, tokens[..|tokens| - 1]) == 0
  }

  function WidthOf(source: string, tok: Token): nat
    requires tok.start <= tok.end <= |source|
  {
    tok.start - LineStart(source, tok.start)
  }

  /** The indentation of every logical line so far: comments and lines inside brackets have
      none. */
  function Widths(source: string, tokens: seq<Token>): seq<nat>
    requires Laid(source, tokens)
  {
    if tokens == [] then []
    else
      var front, last := tokens[..|tokens| - 1], tokens[|tokens| - 1];
      Widths(source, front)
      + if BeginsLine(source, tokens) && last.kind != Comment then [WidthOf(source, last)] else []
  }

  /** The level a token is given if it begins a line: its own logical line's, or, for a
      comment, the level in force. */
  function LevelAt(source: string, tokens: seq<Token>, i: nat): Option<nat>
    requires Laid(source, tokens) && i < |tokens|
  {
    if BeginsLine(source, tokens[..i + 1]) then Some(LevelOf(Widths(source, tokens[..i + 1]))) else None
  }

  lemma PrefixSnoc(source: string, tokens: seq<Token>, i: nat)
    requires Laid(source, tokens) && i < |tokens|
    ensures Laid(source, tokens[..i]) && Laid(source, tokens[..i + 1])
    ensures tokens[..i + 1][..i] == tokens[..i] && tokens[..i + 1][i] == tokens[i]
    ensures DepthAfter(source, tokens[..i + 1])
         == Deepened(DepthAfter(source, tokens[..i]), BracketDelta(source, tokens[i]))
    ensures Widths(source, tokens[..i + 1])
         == Widths(source, tokens[..i])
            + (if BeginsLine(source, tokens[..i + 1]) && tokens[i].kind != Comment
               then [WidthOf(source, tokens[i])] else [])
  {
    hide BracketDelta, LineStart;
    assert tokens[..i + 1][..i] == tokens[..i];
  }

  /** One token more, as the loop sees it. */
  lemma LevelStep(source: string, tokens: seq<Token>, i: nat)
    requires Laid(source, tokens) && i < |tokens|
    ensures Laid(source, tokens[..i]) && Laid(source, tokens[..i + 1])
    ensures var tok, before := tokens[i], Widths(source, tokens[..i]);
            var newLine := && i > 0 && '\n' in source[tokens[i - 1].end..tok.start]
                           && DepthAfter(source, tokens[..i]) == 0;
            && DepthAfter(source, tokens[..i + 1])
               == Deepened(DepthAfter(source, tokens[..i]), BracketDelta(source, tok))
            && Widths(source, tokens[..i + 1])
               == (if newLine && tok.kind != Comment then before + [WidthOf(source, tok)] else before)
            && LevelAt(source, tokens, i) == (if newLine then Some(LevelOf(Widths(source, tokens[..i + 1]))) else None)
  {
    hide BracketDelta, LineStart, DepthAfter, Widths, LevelOf, WidthOf;
    PrefixSnoc(source, tokens, i);
    assert Widths(source, tokens[..i]) + [] == Widths(source, tokens[..i]);
    if i > 0 { assert tokens[..i + 1][i - 1] == tokens[i - 1]; }
  }

  /** One level per token that begins a line. The stack the loop carries is that of the logical
      lines alone. */
  method PyLines(source: string, tokens: seq<Token>) returns (levels: seq<Option<nat>>)
    requires Laid(source, tokens)
    ensures |levels| == |tokens|
    ensures forall i :: 0 <= i < |tokens| ==> levels[i] == LevelAt(source, tokens, i)
  {
    hide BracketDelta, LineStart, DepthAfter, Widths, Stacked, BeginsLine, LevelAt, WidthOf, Rising, StackOf;
    var stack: seq<nat> := [0];
    var depth := 0;
    levels := [];
    assert tokens[..0] == [];
    NoTokens(source);
    for i := 0 to |tokens|
      invariant |levels| == i && Laid(source, tokens[..i])
      invariant stack == StackOf(Widths(source, tokens[..i])) && Rising(stack)
      invariant depth == DepthAfter(source, tokens[..i])
      invariant forall j :: 0 <= j < i ==> levels[j] == LevelAt(source, tokens, j)
    {
      var tok := tokens[i];
      LevelStep(source, tokens, i);
      var newLine := i > 0 && '\n' in source[tokens[i - 1].end..tok.start];
      var level := None;
      if newLine && depth == 0 {
        if tok.kind == Comment {
          level := Some(|stack| - 1);
        } else {
          var next, l := PushLevel(stack, WidthOf(source, tok));
          StackOfSnoc(Widths(source, tokens[..i]), WidthOf(source, tok));
          stack, level := next, Some(l);
        }
      }
      levels := levels + [level];
      depth := Deepened(depth, BracketDelta(source, tok));
    }
    assert tokens[..|tokens|] == tokens;
  }

  lemma StackOfSnoc(widths: seq<nat>, width: nat)
    ensures StackOf(widths + [width]) == Stacked(StackOf(widths), width)
  {
    assert (widths + [width])[..|widths|] == widths;
  }

  lemma NoTokens(source: string)
    ensures DepthAfter(source, []) == 0 && Widths(source, []) == []
    ensures StackOf([]) == [0] && Rising([0])
  {
  }

  /** The levels given to logical lines, in order: what the joined text is indented by. */
  function LineLevels(source: string, tokens: seq<Token>): seq<nat>
    requires Laid(source, tokens)
  {
    if tokens == [] then []
    else
      var front, last := tokens[..|tokens| - 1], tokens[|tokens| - 1];
      LineLevels(source, front)
      + if LevelAt(source, tokens, |front|).Some? && last.kind != Comment
        then [LevelAt(source, tokens, |front|).value] else []
  }

  /** Of all the tokens, only the logical lines count: the levels they are given are those of
      their own widths, so the rewritten text keeps the blocks of the source exactly when the
      source's dedents are consistent. */
  lemma LinesAlonePlace(source: string, tokens: seq<Token>)
    requires Laid(source, tokens)
    ensures LineLevels(source, tokens) == Levels(Widths(source, tokens))
    ensures AllBlocks(LineLevels(source, tokens)) == AllBlocks(Widths(source, tokens))
       <==> Consistent(Widths(source, tokens))
  {
    hide *;
    LineLevelsAre(source, tokens);
    RewriteKeepsBlocksExactly(Widths(source, tokens));
  }

  lemma {:induction false} LineLevelsAre(source: string, tokens: seq<Token>)
    requires Laid(source, tokens)
    ensures LineLevels(source, tokens) == Levels(Widths(source, tokens))
  {
    hide BeginsLine, WidthOf, LevelOf, Levels;
    if tokens == [] {
      NoLevels();
    } else {
      var front, last := tokens[..|tokens| - 1], tokens[|tokens| - 1];
      LineLevelsAre(source, front);
      assert tokens[..|front| + 1] == tokens;
      if BeginsLine(source, tokens) && last.kind != Comment {
        LevelsSnoc(Widths(source, front), WidthOf(source, last));
      } else {
        assert Widths(source, front) + [] == Widths(source, front);
        assert LineLevels(source, front) + [] == LineLevels(source, front);
      }
    }
  }

  lemma NoLevels()
    ensures Levels([]) == []
  {
  }

  lemma LevelsSnoc(widths: seq<nat>, width: nat)
    ensures Levels(widths + [width]) == Levels(widths) + [LevelOf(widths + [width])]
  {
    assert (widths + [width])[..|widths|] == widths;
  }

  // ---- Which tokens begin a line ----------------------------------------------------------

  predicate Within(source: string, tokens: seq<Token>) {
    forall i :: 0 <= i < |tokens| ==> tokens[i].start <= tokens[i].end <= |source|
  }

  /** How many tokens of code are opening brackets, and how many are closing ones. */
  function Opens(source: string, tokens: seq<Token>): nat
    requires Within(source, tokens)
  {
    if tokens == [] then 0
    else
      var last := tokens[|tokens| - 1];
      Opens(source, tokens[..|tokens| - 1])
      + (if last.kind == Code && source[last.start..last.end] in ["(", "[", "{"] then 1 else 0)
  }

  function Closes(source: string, tokens: seq<Token>): nat
    requires Within(source, tokens)
  {
    if tokens == [] then 0
    else
      var last := tokens[|tokens| - 1];
      Closes(source, tokens[..|tokens| - 1])
      + (if last.kind == Code && source[last.start..last.end] in [")", "]", "}"] then 1 else 0)
  }

  function Net(source: string, tokens: seq<Token>): int
    requires Within(source, tokens)
  {
    Opens(source, tokens) - Closes(source, tokens)
  }

  lemma NetSnoc(source: string, tokens: seq<Token>, j: nat)
    requires Within(source, tokens) && j < |tokens|
    ensures var front, last := tokens[..|tokens| - 1], tokens[|tokens| - 1];
            Net(source, tokens[j..]) == Net(source, front[j..]) + BracketDelta(source, last)
  {
    var front, last := tokens[..|tokens| - 1], tokens[|tokens| - 1];
    assert tokens[j..][..|tokens[j..]| - 1] == front[j..] && tokens[j..][|tokens[j..]| - 1] == last;
  }

  lemma NoNet(source: string, tokens: seq<Token>)
    requires tokens == []
    ensures Net(source, tokens) == 0
  {
  }

  lemma DepthSnoc(source: string, tokens: seq<Token>)
    requires Laid(source, tokens) && tokens != []
    ensures var front, last := tokens[..|tokens| - 1], tokens[|tokens| - 1];
            && Laid(source, front) && last.start <= last.end <= |source|
            && DepthAfter(source, tokens) == Deepened(DepthAfter(source, front), BracketDelta(source, last))
  {
    hide BracketDelta, Deepened;
  }

  /** The depth is the most brackets that any stretch up to here has left open: a closing bracket
      too many is forgotten. */
  lemma {:induction false} DepthExactly(source: string, tokens: seq<Token>) returns (k: nat)
    requires Laid(source, tokens)
    ensures forall j :: 0 <= j <= |tokens| ==> Net(source, tokens[j..]) <= DepthAfter(source, tokens)
    ensures k <= |tokens| && Net(source, tokens[k..]) == DepthAfter(source, tokens)
  {
    var n := |tokens|;
    NoNet(source, tokens[n..]);
    if n == 0 {
      k := 0;
      assert tokens[0..] == [];
    } else {
      DepthSnoc(source, tokens);
      hide Net, BracketDelta, DepthAfter;
      var front, last := tokens[..n - 1], tokens[n - 1];
      var before := DepthExactly(source, front);
      k := if DepthAfter(source, front) + BracketDelta(source, last) < 0 then n else before;
      NetSnoc(source, tokens, before);
      forall j | 0 <= j <= n
        ensures Net(source, tokens[j..]) <= DepthAfter(source, tokens)
      {
        if j < n { NetSnoc(source, tokens, j); }
      }
    }
  }

  /** A token is given a level exactly when it stands first on its line and nothing in front of it
      has left a bracket open. */
  lemma LogicalLinesExactly(source: string, tokens: seq<Token>, i: nat)
    requires Laid(source, tokens) && i < |tokens|
    ensures LevelAt(source, tokens, i).Some? <==>
            && i > 0 && '\n' in source[tokens[i - 1].end..tokens[i].start]
            && forall j :: 0 <= j <= i ==> Opens(source, tokens[j..i]) <= Closes(source, tokens[j..i])
  {
    hide DepthAfter, Opens, Closes, LevelOf, Widths;
    var front := tokens[..i];
    assert tokens[..i + 1][..i] == front && tokens[..i + 1][i] == tokens[i];
    assert i > 0 ==> tokens[..i + 1][i - 1] == tokens[i - 1];
    var k := DepthExactly(source, front);
    forall j | 0 <= j <= i
      ensures Net(source, tokens[j..i]) <= DepthAfter(source, front)
    {
      assert front[j..] == tokens[j..i];
    }
    assert front[k..] == tokens[k..i];
  }
}
