/** Joined Python, joined again: the text's own lines are indented by the levels of the source's,
    so the second joining changes nothing. */
module Reindent {
  import opened Items
  import opened SourceTokens
  import opened Join
  import opened PythonIndent

  // ---- What joining makes of the tokens -----------------------------------------------------

  /** The joined text of the first `n` tokens. */
  function OutText(source: string, tokens: seq<Token>, n: nat, keep: bool, letter: char -> bool): string
    requires Laid(source, tokens) && n <= |tokens|
  {
    PiecesInOrder(Python, source, tokens, n, keep, letter);
    JoinedText(source, Pieces(Python, source, tokens, n, keep, letter))
  }

  /** What stands in front of token `i` there, if it is kept. */
  function OutGap(source: string, tokens: seq<Token>, i: nat, keep: bool, letter: char -> bool): string
    requires Laid(source, tokens) && i < |tokens|
  {
    var prev := LastKept(tokens[..i], keep);
    if prev.None? then ""
    else
      match LevelAt(source, tokens, i)
      case Some(level) => "\n" + Spaces(level)
      case None =>
        if LineComment(source, tokens[prev.value]) then "\n"
        else BaseSeparator(Last(Text(source, tokens[prev.value])), First(Text(source, tokens[i])), letter)
  }

  /** Where the kept tokens stand in it. */
  function OutTokens(source: string, tokens: seq<Token>, n: nat, keep: bool, letter: char -> bool): seq<Token>
    requires Laid(source, tokens) && n <= |tokens|
  {
    if n == 0 then []
    else
      var front, tok := OutTokens(source, tokens, n - 1, keep, letter), tokens[n - 1];
      if Keeps(tok, keep) then
        var at := |OutText(source, tokens, n - 1, keep, letter) + OutGap(source, tokens, n - 1, keep, letter)|;
        front + [Token(at, at + (tok.end - tok.start), tok.kind)]
      else front
  }

  lemma BaseHasNoFeed(a: char, b: char, letter: char -> bool)
    ensures '\n' !in BaseSeparator(a, b, letter)
  {
  }

  lemma GapIs(source: string, tokens: seq<Token>, i: nat, keep: bool, letter: char -> bool)
    requires Laid(source, tokens) && i < |tokens|
    ensures var sep := SeparatorAt(Python, source, tokens, i, keep, letter);
            && !(sep.Some? && sep.value.Verbatim?)
            && SepText(source, sep) == OutGap(source, tokens, i, keep, letter)
  {
    hide BaseSeparator, LevelAt, LineComment;
    var prev := LastKept(tokens[..i], keep);
    if prev.Some? {
      var before, after := Text(source, tokens[prev.value]), Text(source, tokens[i]);
      BaseHasNoFeed(Last(before), First(after), letter);
      var level := LevelAt(source, tokens, i);
      if level.Some? { assert ("\n" + Spaces(level.value))[0] == '\n'; }
    }
  }

  lemma OutStep(source: string, tokens: seq<Token>, i: nat, keep: bool, letter: char -> bool)
    requires Laid(source, tokens) && i < |tokens|
    ensures OutText(source, tokens, i + 1, keep, letter)
         == OutText(source, tokens, i, keep, letter)
            + (if Keeps(tokens[i], keep)
               then OutGap(source, tokens, i, keep, letter) + Text(source, tokens[i]) else "")
  {
    var word := Text(source, tokens[i]);
    hide *;
    var front := Pieces(Python, source, tokens, i, keep, letter);
    PiecesInOrder(Python, source, tokens, i, keep, letter);
    PiecesInOrder(Python, source, tokens, i + 1, keep, letter);
    PiecesStep(Python, source, tokens, i, keep, letter);
    TokenAdds(Python, source, tokens, i, keep, letter, front);
    GapIs(source, tokens, i, keep, letter);
    OutIs(source, tokens, i, keep, letter);
    OutIs(source, tokens, i + 1, keep, letter);
    var before := JoinedText(source, front);
    assert before + "" == before;
    Assoc(before, OutGap(source, tokens, i, keep, letter), word);
  }

  lemma OutIs(source: string, tokens: seq<Token>, n: nat, keep: bool, letter: char -> bool)
    requires Laid(source, tokens) && n <= |tokens|
    ensures var pieces := Pieces(Python, source, tokens, n, keep, letter);
            InOrder(source, pieces) && OutText(source, tokens, n, keep, letter) == JoinedText(source, pieces)
    ensures n == 0 ==> OutText(source, tokens, n, keep, letter) == ""
  {
    PiecesInOrder(Python, source, tokens, n, keep, letter);
    if n == 0 { NothingJoined(Python, source, tokens, keep, letter); }
  }

  // ---- A longer text ------------------------------------------------------------------------------

  lemma LaidLonger(text: string, more: string, toks: seq<Token>)
    requires Laid(text, toks)
    ensures Laid(text + more, toks)
    ensures forall i :: 0 <= i < |toks| ==>
              && toks[i].start <= toks[i].end <= |text|
              && Text(text + more, toks[i]) == Text(text, toks[i])
  {
  }

  lemma {:induction false} LineStartLonger(text: string, more: string, pos: nat)
    requires pos <= |text|
    ensures LineStart(text + more, pos) == LineStart(text, pos)
  {
    if pos > 0 {
      assert (text + more)[pos - 1] == text[pos - 1];
      LineStartLonger(text, more, pos - 1);
    }
  }

  lemma {:induction false} LineStartIs(text: string, pos: nat, start: nat)
    requires start <= pos <= |text| && '\n' !in text[start..pos] && (start == 0 || text[start - 1] == '\n')
    ensures LineStart(text, pos) == start
    decreases pos
  {
    if start < pos {
      assert text[start..pos][pos - 1 - start] == text[pos - 1];
      assert text[start..pos - 1] == text[start..pos][..pos - 1 - start];
      LineStartIs(text, pos - 1, start);
    }
  }

  lemma FrontLaid(text: string, toks: seq<Token>)
    requires Laid(text, toks) && toks != []
    ensures Laid(text, toks[..|toks| - 1])
  {
  }

  lemma BeginsLonger(text: string, more: string, toks: seq<Token>)
    requires Laid(text, toks) && Laid(text + more, toks) && toks != []
    requires Laid(text, toks[..|toks| - 1]) && Laid(text + more, toks[..|toks| - 1])
    requires DepthAfter(text + more, toks[..|toks| - 1]) == DepthAfter(text, toks[..|toks| - 1])
    ensures BeginsLine(text + more, toks) == BeginsLine(text, toks)
  {
    hide DepthAfter;
    if |toks| > 1 {
      var a, b := toks[|toks| - 2].end, toks[|toks| - 1].start;
      assert (text + more)[a..b] == text[a..b];
    }
  }

  /** Depth and widths look no further than the tokens reach. */
  lemma {:induction false} LinesLonger(text: string, more: string, toks: seq<Token>)
    requires Laid(text, toks)
    ensures Laid(text + more, toks)
    ensures DepthAfter(text + more, toks) == DepthAfter(text, toks)
    ensures Widths(text + more, toks) == Widths(text, toks)
  {
    LaidLonger(text, more, toks);
    if toks != [] {
      var front, last := toks[..|toks| - 1], toks[|toks| - 1];
      FrontLaid(text, toks);
      LinesLonger(text, more, front);
      BeginsLonger(text, more, toks);
      LineStartLonger(text, more, last.start);
      hide BeginsLine, LineStart;
    }
  }

  lemma LevelLonger(text: string, more: string, toks: seq<Token>, rest: seq<Token>, j: nat)
    requires Laid(text, toks) && Laid(text + more, toks + rest) && j < |toks|
    ensures LevelAt(text + more, toks + rest, j) == LevelAt(text, toks, j)
  {
    hide DepthAfter, Widths, LineStart, LevelOf;
    PrefixSnoc(text, toks, j);
    assert (toks + rest)[..j + 1] == toks[..j + 1];
    LinesLonger(text, more, toks[..j + 1]);
    LinesLonger(text, more, toks[..j]);
    assert toks[..j + 1][..|toks[..j + 1]| - 1] == toks[..j];
    BeginsLonger(text, more, toks[..j + 1]);
  }

  // ---- The lines of the joined text ---------------------------------------------------------------

  /** A line comment ends its line. */
  predicate CommentsEnd(source: string, tokens: seq<Token>)
    requires Laid(source, tokens)
  {
    forall i :: 1 <= i < |tokens| && LineComment(source, tokens[i - 1]) ==>
      '\n' in source[tokens[i - 1].end..tokens[i].start]
  }

  /** The first token kept, if it begins a line behind comments that are dropped, is not
      indented: the language allows no other program. */
  predicate OpensFlush(source: string, tokens: seq<Token>, keep: bool)
    requires Laid(source, tokens)
  {
    forall i :: 0 <= i < |tokens| && OpensText(tokens, i, keep) && LevelAt(source, tokens, i).Some? ==>
      WidthOf(source, tokens[i]) == 0
  }

  /** The levels given to the lines of the source are the widths of the lines of the text, but for
      the line the text opens on, which is none of its lines. */
  predicate Indented(levels: seq<nat>, widths: seq<nat>) {
    levels == widths || levels == [0] + widths
  }

  lemma {:induction false} LeadingZero(widths: seq<nat>)
    ensures StackOf([0] + widths) == StackOf(widths)
  {
    if widths == [] {
      assert ([0] + widths)[..0] == [];
    } else {
      var front := widths[..|widths| - 1];
      LeadingZero(front);
      assert ([0] + widths)[..|widths|] == [0] + front;
    }
  }

  /** So indented, both show the same level. */
  lemma SameLevel(widths: seq<nat>, out: seq<nat>)
    requires Indented(Levels(widths), out)
    ensures LevelOf(out) == LevelOf(widths)
  {
    hide Stacked, Levels;
    LevelsClimb(widths);
    LeadingZero(out);
  }

  lemma IndentedSnoc(levels: seq<nat>, widths: seq<nat>, level: nat)
    requires Indented(levels, widths)
    ensures Indented(levels + [level], widths + [level])
  {
    if levels == [0] + widths { assert levels + [level] == [0] + (widths + [level]); }
  }

  /** What joining has made of the first `n` tokens. */
  ghost predicate Rejoins(source: string, tokens: seq<Token>, n: nat, keep: bool, letter: char -> bool)
    requires Laid(source, tokens) && n <= |tokens|
  {
    var text, out := OutText(source, tokens, n, keep, letter), OutTokens(source, tokens, n, keep, letter);
    var prev := LastKept(tokens[..n], keep);
    && Laid(text, out) && Laid(source, tokens[..n])
    && (if prev.None? then out == [] && text == ""
        else && out != [] && out[|out| - 1].end == |text|
             && Text(text, out[|out| - 1]) == Text(source, tokens[prev.value])
             && out[|out| - 1].kind == tokens[prev.value].kind)
    && DepthAfter(text, out) == DepthAfter(source, tokens[..n])
    && Indented(LineLevels(source, tokens[..n]), Widths(text, out))
  }

  lemma LineLevelsSnoc(source: string, tokens: seq<Token>, i: nat)
    requires Laid(source, tokens) && i < |tokens|
    ensures Laid(source, tokens[..i]) && Laid(source, tokens[..i + 1])
    ensures LineLevels(source, tokens[..i + 1])
         == LineLevels(source, tokens[..i])
            + (if LevelAt(source, tokens, i).Some? && tokens[i].kind != Comment
               then [LevelAt(source, tokens, i).value] else [])
  {
    hide LevelAt;
    PrefixSnoc(source, tokens, i);
    LevelOfPrefix(source, tokens, i);
  }

  lemma LevelOfPrefix(source: string, tokens: seq<Token>, i: nat)
    requires Laid(source, tokens) && i < |tokens| && Laid(source, tokens[..i + 1])
    ensures LevelAt(source, tokens[..i + 1], i) == LevelAt(source, tokens, i)
  {
    hide BeginsLine, Widths, LevelOf;
    assert tokens[..i + 1][..i + 1] == tokens[..i + 1];
  }

  /** One token more, behind its gap. */
  lemma NewToken(text: string, out: seq<Token>, gap: string, word: string, kind: TokenKind)
    requires Laid(text, out) && word != ""
    requires if out == [] then text == "" && gap == "" else out[|out| - 1].end == |text|
    ensures var more := text + gap + word;
            var tok := Token(|text + gap|, |more|, kind);
            var all := out + [tok];
            && Laid(more, all) && Text(more, tok) == word
            && DepthAfter(more, all) == Deepened(DepthAfter(text, out), BracketDelta(more, tok))
            && (BeginsLine(more, all) <==> out != [] && '\n' in gap && DepthAfter(text, out) == 0)
            && Widths(more, all)
               == Widths(text, out) + (if BeginsLine(more, all) && kind != Comment then [WidthOf(more, tok)] else [])
  {
    hide *;
    var more := text + gap + word;
    var tok := Token(|text + gap|, |more|, kind);
    var all := out + [tok];
    TokenLaid(text, out, gap, word, tok);
    SnocSlices(out, tok);
    Assoc(text, gap, word);
    LinesLonger(text, gap + word, out);
    PrefixSnoc(more, all, |out|);
    NewLine(text, out, gap, word, tok);
  }

  lemma SnocSlices(out: seq<Token>, tok: Token)
    ensures var all := out + [tok];
            |all| == |out| + 1 && all[|out|] == tok && all[..|out|] == out && all[..|out| + 1] == all
  {
  }

  lemma TokenLaid(text: string, out: seq<Token>, gap: string, word: string, tok: Token)
    requires Laid(text, out) && word != "" && tok.start == |text + gap| && tok.end == |text + gap + word|
    ensures var more := text + gap + word; Laid(more, out + [tok]) && Laid(more, out) && Text(more, tok) == word
  {
    var more := text + gap + word;
    assert more[|text + gap|..] == word;
    assert forall i :: 0 <= i < |out| ==> (out + [tok])[i] == out[i];
  }

  lemma NewLine(text: string, out: seq<Token>, gap: string, word: string, tok: Token)
    requires Laid(text, out) && word != "" && tok.start == |text + gap| && tok.end == |text + gap + word|
    requires if out == [] then text == "" && gap == "" else out[|out| - 1].end == |text|
    requires Laid(text + gap + word, out + [tok]) && Laid(text + gap + word, out)
    requires DepthAfter(text + gap + word, out) == DepthAfter(text, out)
    ensures BeginsLine(text + gap + word, out + [tok]) <==> out != [] && '\n' in gap && DepthAfter(text, out) == 0
  {
    hide DepthAfter;
    var more, all := text + gap + word, out + [tok];
    assert all[..|all| - 1] == out;
    if out != [] {
      assert all[|all| - 2] == out[|out| - 1] && all[|all| - 1] == tok;
      assert more[|text|..|text + gap|] == gap;
    }
  }

  /** A token behind a line feed and spaces is as wide as they are. */
  lemma IndentIsWidth(text: string, level: nat, word: string, tok: Token)
    requires var gap := "\n" + Spaces(level); tok.start == |text + gap| && tok.end == |text + gap + word|
    ensures WidthOf(text + ("\n" + Spaces(level)) + word, tok) == level
  {
    var gap := "\n" + Spaces(level);
    var more := text + gap + word;
    assert more[|text|] == '\n';
    assert more[|text| + 1..tok.start] == Spaces(level);
    LineStartIs(more, tok.start, |text| + 1);
  }

  /** The token the text opens on. */
  predicate OpensText(tokens: seq<Token>, i: nat, keep: bool)
    requires i < |tokens|
  {
    LastKept(tokens[..i], keep).None? && Keeps(tokens[i], keep)
  }

  lemma SameDelta(source: string, text: string, tok: Token, out: Token)
    requires tok.start <= tok.end <= |source| && out.start <= out.end <= |text|
    requires Text(text, out) == Text(source, tok) && out.kind == tok.kind
    ensures BracketDelta(text, out) == BracketDelta(source, tok)
  {
  }

  // ---- Step by step ---------------------------------------------------------------------------------

  lemma {:induction false} OnlyComments(source: string, tokens: seq<Token>, n: nat, keep: bool)
    requires Laid(source, tokens) && n <= |tokens| && LastKept(tokens[..n], keep).None?
    ensures Laid(source, tokens[..n]) && Widths(source, tokens[..n]) == [] && LineLevels(source, tokens[..n]) == []
  {
    hide LevelAt, BeginsLine, WidthOf;
    if n > 0 {
      LastKeptSnoc(tokens, n - 1, keep);
      OnlyComments(source, tokens, n - 1, keep);
      PrefixSnoc(source, tokens, n - 1);
      LineLevelsSnoc(source, tokens, n - 1);
    }
  }

  /** The first token kept is at level zero, or begins no line. */
  lemma OpensAtZero(source: string, tokens: seq<Token>, i: nat, keep: bool)
    requires Laid(source, tokens) && i < |tokens| && OpensFlush(source, tokens, keep)
    requires OpensText(tokens, i, keep) && tokens[i].kind != Comment
    ensures LevelAt(source, tokens, i).Some? ==> LevelAt(source, tokens, i).value == 0
  {
    OnlyComments(source, tokens, i, keep);
    LevelStep(source, tokens, i);
    FlatLevel();
    hide *;
  }

  lemma FlatLevel()
    ensures LevelOf([0]) == 0 && [] + [0] == [0]
  {
    assert [0][..0] == [];
    assert StackOf([0]) == Stacked([0], 0);
  }

  lemma KeptBefore(tokens: seq<Token>, i: nat)
    requires 0 < i <= |tokens|
    ensures LastKept(tokens[..i], true) == Some(i - 1)
  {
    LastKeptSnoc(tokens, i - 1, true);
    assert tokens[..i - 1 + 1] == tokens[..i];
  }

  /** Outside brackets the gap breaks the line exactly where the source's line begins. */
  lemma GapBreaks(source: string, tokens: seq<Token>, i: nat, keep: bool, letter: char -> bool)
    requires Laid(source, tokens) && i < |tokens| && (keep ==> CommentsEnd(source, tokens))
    requires LastKept(tokens[..i], keep).Some?
    ensures Laid(source, tokens[..i])
    ensures var level, gap := LevelAt(source, tokens, i), OutGap(source, tokens, i, keep, letter);
            && (level.Some? <==> '\n' in gap && DepthAfter(source, tokens[..i]) == 0)
            && (level.Some? ==> gap == "\n" + Spaces(level.value))
  {
    LevelStep(source, tokens, i);
    var prev, level := LastKept(tokens[..i], keep).value, LevelAt(source, tokens, i);
    GapUnfolds(source, tokens, i, keep, letter);
    BaseHasNoFeed(Last(Text(source, tokens[prev])), First(Text(source, tokens[i])), letter);
    if level.None? && LineComment(source, tokens[prev]) {
      CommentsAreKept(tokens, i, prev, keep);
      CommentBreaks(source, tokens, i);
    }
    hide *;
    if level.Some? { FeedFirst(level.value); }
  }

  lemma GapUnfolds(source: string, tokens: seq<Token>, i: nat, keep: bool, letter: char -> bool)
    requires Laid(source, tokens) && i < |tokens| && LastKept(tokens[..i], keep).Some?
    ensures var prev := tokens[LastKept(tokens[..i], keep).value];
            OutGap(source, tokens, i, keep, letter)
            == match LevelAt(source, tokens, i)
               case Some(level) => "\n" + Spaces(level)
               case None =>
                 if LineComment(source, prev) then "\n"
                 else BaseSeparator(Last(Text(source, prev)), First(Text(source, tokens[i])), letter)
  {
    hide LevelAt, LineComment, BaseSeparator, LastKept, Last, First;
  }

  lemma CommentBreaks(source: string, tokens: seq<Token>, i: nat)
    requires Laid(source, tokens) && 0 < i < |tokens| && CommentsEnd(source, tokens)
    requires LineComment(source, tokens[i - 1])
    ensures '\n' in source[tokens[i - 1].end..tokens[i].start]
  {
    hide LineComment;
  }

  lemma FeedFirst(level: nat)
    ensures '\n' in "\n" + Spaces(level)
  {
    assert ("\n" + Spaces(level))[0] == '\n';
  }

  lemma CommentsAreKept(tokens: seq<Token>, i: nat, prev: nat, keep: bool)
    requires i < |tokens| && LastKept(tokens[..i], keep) == Some(prev) && tokens[prev].kind == Comment
    ensures keep && i > 0 && prev == i - 1
  {
    KeptBefore(tokens, i);
  }

  lemma OutUnfolds(source: string, tokens: seq<Token>, i: nat, keep: bool, letter: char -> bool)
    requires Laid(source, tokens) && i < |tokens|
    ensures var text, gap := OutText(source, tokens, i, keep, letter), OutGap(source, tokens, i, keep, letter);
            var word, tok := Text(source, tokens[i]), tokens[i];
            && word != ""
            && OutTokens(source, tokens, i + 1, keep, letter)
               == OutTokens(source, tokens, i, keep, letter)
                  + (if Keeps(tok, keep) then [Token(|text + gap|, |text + gap + word|, tok.kind)] else [])
            && OutText(source, tokens, i + 1, keep, letter) == (if Keeps(tok, keep) then text + gap + word else text)
  {
    WordOf(source, tokens, i);
    var text, gap := OutText(source, tokens, i, keep, letter), OutGap(source, tokens, i, keep, letter);
    var word := Text(source, tokens[i]);
    assert |word| == tokens[i].end - tokens[i].start;
    TokensUnfold(source, tokens, i, keep, letter);
    hide *;
    OutStep(source, tokens, i, keep, letter);
    assert text + "" == text;
    Assoc(text, gap, word);
  }

  lemma TokensUnfold(source: string, tokens: seq<Token>, i: nat, keep: bool, letter: char -> bool)
    requires Laid(source, tokens) && i < |tokens|
    ensures var at := |OutText(source, tokens, i, keep, letter) + OutGap(source, tokens, i, keep, letter)|;
            OutTokens(source, tokens, i + 1, keep, letter)
            == OutTokens(source, tokens, i, keep, letter)
               + (if Keeps(tokens[i], keep)
                  then [Token(at, at + (tokens[i].end - tokens[i].start), tokens[i].kind)] else [])
  {
    hide OutText, OutGap, Keeps;
    assert OutTokens(source, tokens, i, keep, letter) + [] == OutTokens(source, tokens, i, keep, letter);
  }

  lemma NoGapFirst(source: string, tokens: seq<Token>, i: nat, keep: bool, letter: char -> bool)
    requires Laid(source, tokens) && i < |tokens|
    ensures LastKept(tokens[..i], keep).None? ==> OutGap(source, tokens, i, keep, letter) == ""
  {
    hide LevelAt, LineComment, BaseSeparator, LastKept;
  }

  lemma NothingOut(source: string, tokens: seq<Token>, keep: bool, letter: char -> bool)
    requires Laid(source, tokens)
    ensures Rejoins(source, tokens, 0, keep, letter)
  {
    OutIs(source, tokens, 0, keep, letter);
    hide OutText, OutGap;
    NoTokens(source);
    NoTokens("");
  }

  lemma DroppedRejoins(source: string, tokens: seq<Token>, i: nat, keep: bool, letter: char -> bool)
    requires Laid(source, tokens) && i < |tokens| && !Keeps(tokens[i], keep)
    requires Rejoins(source, tokens, i, keep, letter)
    ensures Rejoins(source, tokens, i + 1, keep, letter)
  {
    OutUnfolds(source, tokens, i, keep, letter);
    LastKeptSnoc(tokens, i, keep);
    PrefixSnoc(source, tokens, i);
    LineLevelsSnoc(source, tokens, i);
    CommentsAreFlat(source, tokens[i]);
    hide OutText, OutGap, OutTokens, LastKept, DepthAfter, Widths, LineLevels, LevelAt, BracketDelta, BeginsLine;
    assert OutTokens(source, tokens, i, keep, letter) + [] == OutTokens(source, tokens, i, keep, letter);
    assert LineLevels(source, tokens[..i]) + [] == LineLevels(source, tokens[..i]);
  }

  lemma CommentsAreFlat(source: string, tok: Token)
    requires tok.start <= tok.end <= |source|
    ensures tok.kind == Comment ==> BracketDelta(source, tok) == 0
  {
  }

  /** What the new token's line comes to. */
  lemma KeptLine(source: string, tokens: seq<Token>, i: nat, keep: bool, letter: char -> bool)
    requires Laid(source, tokens) && i < |tokens| && Keeps(tokens[i], keep)
    requires (keep ==> CommentsEnd(source, tokens)) && OpensFlush(source, tokens, keep)
    requires Rejoins(source, tokens, i, keep, letter)
    ensures var text, gap := OutText(source, tokens, i, keep, letter), OutGap(source, tokens, i, keep, letter);
            var out, level := OutTokens(source, tokens, i, keep, letter), LevelAt(source, tokens, i);
            && (out != [] ==> (level.Some? <==> '\n' in gap && DepthAfter(text, out) == 0))
            && (out != [] && level.Some? ==> gap == "\n" + Spaces(level.value))
            && (out == [] ==> gap == "" && text == "")
            && (out == [] && tokens[i].kind != Comment ==>
                  && Laid(source, tokens[..i]) && LineLevels(source, tokens[..i]) == []
                  && (level.Some? ==> level.value == 0))
  {
    NoGapFirst(source, tokens, i, keep, letter);
    if LastKept(tokens[..i], keep).None? {
      OnlyComments(source, tokens, i, keep);
      if tokens[i].kind != Comment { OpensAtZero(source, tokens, i, keep); }
    } else {
      GapBreaks(source, tokens, i, keep, letter);
    }
    hide OutText, OutGap, OutTokens, LastKept, DepthAfter, Widths, LineLevels, LevelAt, BracketDelta, BeginsLine,
         CommentsEnd, OpensFlush, OpensText;
  }

  lemma KeptRejoins(source: string, tokens: seq<Token>, i: nat, keep: bool, letter: char -> bool)
    requires Laid(source, tokens) && i < |tokens| && Keeps(tokens[i], keep)
    requires (keep ==> CommentsEnd(source, tokens)) && OpensFlush(source, tokens, keep)
    requires Rejoins(source, tokens, i, keep, letter)
    ensures Rejoins(source, tokens, i + 1, keep, letter)
  {
    hide *;
    var text, gap := OutText(source, tokens, i, keep, letter), OutGap(source, tokens, i, keep, letter);
    var out, level := OutTokens(source, tokens, i, keep, letter), LevelAt(source, tokens, i);
    WordOf(source, tokens, i);
    var word := Text(source, tokens[i]);
    RejoinsDef(source, tokens, i, keep, letter);
    RejoinsDef(source, tokens, i + 1, keep, letter);
    OutUnfolds(source, tokens, i, keep, letter);
    KeptLine(source, tokens, i, keep, letter);
    LastKeptSnoc(tokens, i, keep);
    PrefixSnoc(source, tokens, i);
    LineLevelsSnoc(source, tokens, i);
    NewToken(text, out, gap, word, tokens[i].kind);
    var tok := Token(|text + gap|, |text + gap + word|, tokens[i].kind);
    SnocSlices(out, tok);
    SameDelta(source, text + gap + word, tokens[i], tok);
    if out != [] && level.Some? { IndentIsWidth(text, level.value, word, tok); }
    var levels, widths := LineLevels(source, tokens[..i]), Widths(text, out);
    assert levels + [] == levels && widths + [] == widths;
    if level.Some? && tokens[i].kind != Comment {
      if out == [] {
        FlatIndented(levels, widths, text);
      } else {
        IndentedSnoc(levels, widths, level.value);
      }
    }
  }

  lemma WordOf(source: string, tokens: seq<Token>, i: nat)
    requires Laid(source, tokens) && i < |tokens|
    ensures tokens[i].start < tokens[i].end <= |source|
  {
  }

  /** The line the text opens on. */
  lemma FlatIndented(levels: seq<nat>, widths: seq<nat>, text: string)
    requires levels == [] && widths == Widths(text, [])
    ensures Indented(levels + [0], widths)
  {
  }

  lemma RejoinsDef(source: string, tokens: seq<Token>, n: nat, keep: bool, letter: char -> bool)
    requires Laid(source, tokens) && n <= |tokens|
    ensures var text, out := OutText(source, tokens, n, keep, letter), OutTokens(source, tokens, n, keep, letter);
            var prev := LastKept(tokens[..n], keep);
            Rejoins(source, tokens, n, keep, letter) <==>
              && Laid(text, out) && Laid(source, tokens[..n])
              && (if prev.None? then out == [] && text == ""
                  else && out != [] && out[|out| - 1].end == |text|
                       && Text(text, out[|out| - 1]) == Text(source, tokens[prev.value])
                       && out[|out| - 1].kind == tokens[prev.value].kind)
              && DepthAfter(text, out) == DepthAfter(source, tokens[..n])
              && Indented(LineLevels(source, tokens[..n]), Widths(text, out))
  {
    hide OutText, OutTokens, LastKept, DepthAfter, LineLevels, Widths, Indented;
  }

  lemma {:induction false} AllRejoins(source: string, tokens: seq<Token>, n: nat, keep: bool, letter: char -> bool)
    requires Laid(source, tokens) && n <= |tokens|
    requires (keep ==> CommentsEnd(source, tokens)) && OpensFlush(source, tokens, keep)
    ensures Rejoins(source, tokens, n, keep, letter)
  {
    hide *;
    if n == 0 {
      NothingOut(source, tokens, keep, letter);
    } else {
      AllRejoins(source, tokens, n - 1, keep, letter);
      if Keeps(tokens[n - 1], keep) {
        KeptRejoins(source, tokens, n - 1, keep, letter);
      } else {
        DroppedRejoins(source, tokens, n - 1, keep, letter);
      }
    }
  }

  // ---- Joining again ----------------------------------------------------------------------------------

  lemma {:induction false} OutGrows(source: string, tokens: seq<Token>, m: nat, n: nat, keep: bool,
                                    letter: char -> bool)
    requires Laid(source, tokens) && m <= n <= |tokens|
    ensures OutText(source, tokens, m, keep, letter) <= OutText(source, tokens, n, keep, letter)
    ensures OutTokens(source, tokens, m, keep, letter) <= OutTokens(source, tokens, n, keep, letter)
    decreases n
  {
    hide *;
    if m < n {
      var i := n - 1;
      OutGrows(source, tokens, m, i, keep, letter);
      OutGrowsOnce(source, tokens, i, keep, letter);
      PrefixTrans(OutText(source, tokens, m, keep, letter), OutText(source, tokens, i, keep, letter),
                  OutText(source, tokens, n, keep, letter));
      PrefixTrans(OutTokens(source, tokens, m, keep, letter), OutTokens(source, tokens, i, keep, letter),
                  OutTokens(source, tokens, n, keep, letter));
    }
  }

  lemma PrefixTrans<T>(a: seq<T>, b: seq<T>, c: seq<T>)
    requires a <= b && b <= c
    ensures a <= c
  {
  }

  lemma PrefixConcat<T>(a: seq<T>, b: seq<T>, c: seq<T>)
    ensures a <= a + b && a <= a + b + c
  {
  }

  lemma OutGrowsOnce(source: string, tokens: seq<Token>, i: nat, keep: bool, letter: char -> bool)
    requires Laid(source, tokens) && i < |tokens|
    ensures OutText(source, tokens, i, keep, letter) <= OutText(source, tokens, i + 1, keep, letter)
    ensures OutTokens(source, tokens, i, keep, letter) <= OutTokens(source, tokens, i + 1, keep, letter)
  {
    WordOf(source, tokens, i);
    var text, gap := OutText(source, tokens, i, keep, letter), OutGap(source, tokens, i, keep, letter);
    var word, tok := Text(source, tokens[i]), tokens[i];
    hide *;
    OutUnfolds(source, tokens, i, keep, letter);
    PrefixConcat(text, gap, word);
    PrefixConcat(OutTokens(source, tokens, i, keep, letter),
                 if Keeps(tok, keep) then [Token(|text + gap|, |text + gap + word|, tok.kind)] else [], []);
  }

  lemma {:induction false} OutIsKept(source: string, tokens: seq<Token>, n: nat, keep: bool, letter: char -> bool)
    requires Laid(source, tokens) && n <= |tokens|
    ensures forall j :: 0 <= j < |OutTokens(source, tokens, n, keep, letter)| ==>
              Keeps(OutTokens(source, tokens, n, keep, letter)[j], keep)
  {
    if n > 0 {
      OutIsKept(source, tokens, n - 1, keep, letter);
      hide OutText, OutGap;
    }
  }

  lemma LastOfKept(out: seq<Token>, j: nat, keep: bool)
    requires j <= |out| && forall k :: 0 <= k < |out| ==> Keeps(out[k], keep)
    ensures LastKept(out[..j], keep) == if j == 0 then None else Some(j - 1)
  {
    if j > 0 { assert out[..j][j - 1] == out[j - 1]; }
  }

  /** The text gives each of its lines the level the source gave it. */
  lemma SameLevelOut(source: string, tokens: seq<Token>, i: nat, keep: bool, letter: char -> bool)
    requires Laid(source, tokens) && i < |tokens| && Keeps(tokens[i], keep)
    requires (keep ==> CommentsEnd(source, tokens)) && OpensFlush(source, tokens, keep)
    requires OutTokens(source, tokens, i, keep, letter) != []
    ensures var text := OutText(source, tokens, i + 1, keep, letter);
            var all := OutTokens(source, tokens, i + 1, keep, letter);
            var j := |OutTokens(source, tokens, i, keep, letter)|;
            Laid(text, all) && j < |all| && LevelAt(text, all, j) == LevelAt(source, tokens, i)
  {
    hide *;
    var text, gap := OutText(source, tokens, i, keep, letter), OutGap(source, tokens, i, keep, letter);
    var out := OutTokens(source, tokens, i, keep, letter);
    WordOf(source, tokens, i);
    var word := Text(source, tokens[i]);
    AllRejoins(source, tokens, i, keep, letter);
    AllRejoins(source, tokens, i + 1, keep, letter);
    RejoinsDef(source, tokens, i, keep, letter);
    RejoinsDef(source, tokens, i + 1, keep, letter);
    OutUnfolds(source, tokens, i, keep, letter);
    KeptLine(source, tokens, i, keep, letter);
    NewToken(text, out, gap, word, tokens[i].kind);
    var tok := Token(|text + gap|, |text + gap + word|, tokens[i].kind);
    SnocSlices(out, tok);
    LineLevelsAre(source, tokens[..i + 1]);
    SameLevel(Widths(source, tokens[..i + 1]), Widths(text + gap + word, out + [tok]));
    LevelUnfolds(source, tokens, i);
    LevelUnfolds(text + gap + word, out + [tok], |out|);
  }

  lemma LevelUnfolds(source: string, tokens: seq<Token>, i: nat)
    requires Laid(source, tokens) && i < |tokens|
    ensures Laid(source, tokens[..i + 1])
    ensures LevelAt(source, tokens, i)
         == if BeginsLine(source, tokens[..i + 1]) then Some(LevelOf(Widths(source, tokens[..i + 1]))) else None
  {
    hide BeginsLine, Widths, LevelOf;
  }

  /** The tokens of the text are those of the source. */
  lemma SameWord(source: string, tokens: seq<Token>, i: nat, keep: bool, letter: char -> bool)
    requires Laid(source, tokens) && i < |tokens| && Keeps(tokens[i], keep)
    requires (keep ==> CommentsEnd(source, tokens)) && OpensFlush(source, tokens, keep)
    ensures var text := OutText(source, tokens, |tokens|, keep, letter);
            var out := OutTokens(source, tokens, |tokens|, keep, letter);
            var front, prev := OutTokens(source, tokens, i, keep, letter), LastKept(tokens[..i], keep);
            && Laid(text, out) && |front| < |out| && Keeps(out[|front|], keep)
            && Text(text, out[|front|]) == Text(source, tokens[i])
            && LastKept(out[..|front|], keep) == (if front == [] then None else Some(|front| - 1))
            && (prev.None? <==> front == [])
            && (front != [] ==>
                  && Text(text, out[|front| - 1]) == Text(source, tokens[prev.value])
                  && out[|front| - 1].kind == tokens[prev.value].kind)
  {
    hide *;
    var n := |tokens|;
    var text, out := OutText(source, tokens, n, keep, letter), OutTokens(source, tokens, n, keep, letter);
    AllRejoins(source, tokens, n, keep, letter);
    AllRejoins(source, tokens, i, keep, letter);
    AllRejoins(source, tokens, i + 1, keep, letter);
    RejoinsDef(source, tokens, n, keep, letter);
    RejoinsDef(source, tokens, i, keep, letter);
    RejoinsDef(source, tokens, i + 1, keep, letter);
    OutUnfolds(source, tokens, i, keep, letter);
    OutGrows(source, tokens, i, i + 1, keep, letter);
    OutGrows(source, tokens, i + 1, n, keep, letter);
    LastKeptSnoc(tokens, i, keep);
    TextStays(OutText(source, tokens, i, keep, letter), OutText(source, tokens, i + 1, keep, letter), text,
              OutTokens(source, tokens, i, keep, letter), OutTokens(source, tokens, i + 1, keep, letter), out);
    OutIsKept(source, tokens, n, keep, letter);
    LastOfKept(out, |OutTokens(source, tokens, i, keep, letter)|, keep);
  }

  /** And so are their levels. */
  lemma SameLevelLater(source: string, tokens: seq<Token>, i: nat, keep: bool, letter: char -> bool)
    requires Laid(source, tokens) && i < |tokens| && Keeps(tokens[i], keep)
    requires (keep ==> CommentsEnd(source, tokens)) && OpensFlush(source, tokens, keep)
    requires OutTokens(source, tokens, i, keep, letter) != []
    ensures var text := OutText(source, tokens, |tokens|, keep, letter);
            var out := OutTokens(source, tokens, |tokens|, keep, letter);
            var j := |OutTokens(source, tokens, i, keep, letter)|;
            && Laid(text, out) && j < |out|
            && LevelAt(text, out, j) == LevelAt(source, tokens, i)
  {
    hide *;
    var n := |tokens|;
    var text, out := OutText(source, tokens, n, keep, letter), OutTokens(source, tokens, n, keep, letter);
    var after, more := OutText(source, tokens, i + 1, keep, letter), OutTokens(source, tokens, i + 1, keep, letter);
    AllRejoins(source, tokens, n, keep, letter);
    RejoinsDef(source, tokens, n, keep, letter);
    OutGrows(source, tokens, i + 1, n, keep, letter);
    SameLevelOut(source, tokens, i, keep, letter);
    assert text == after + text[|after|..] && out == more + out[|more|..];
    LevelLonger(after, text[|after|..], more, out[|more|..], |OutTokens(source, tokens, i, keep, letter)|);
  }

  /** So the second joining writes the same gaps. */
  lemma SameGap(source: string, tokens: seq<Token>, i: nat, keep: bool, letter: char -> bool)
    requires Laid(source, tokens) && i < |tokens| && Keeps(tokens[i], keep)
    requires (keep ==> CommentsEnd(source, tokens)) && OpensFlush(source, tokens, keep)
    ensures var text := OutText(source, tokens, |tokens|, keep, letter);
            var out := OutTokens(source, tokens, |tokens|, keep, letter);
            var j := |OutTokens(source, tokens, i, keep, letter)|;
            && Laid(text, out) && j < |out| && Keeps(out[j], keep)
            && Text(text, out[j]) == Text(source, tokens[i])
            && OutGap(text, out, j, keep, letter) == OutGap(source, tokens, i, keep, letter)
  {
    hide *;
    var text := OutText(source, tokens, |tokens|, keep, letter);
    var out := OutTokens(source, tokens, |tokens|, keep, letter);
    var j := |OutTokens(source, tokens, i, keep, letter)|;
    SameWord(source, tokens, i, keep, letter);
    NoGapFirst(source, tokens, i, keep, letter);
    NoGapFirst(text, out, j, keep, letter);
    if j > 0 {
      SameLevelLater(source, tokens, i, keep, letter);
      GapUnfolds(source, tokens, i, keep, letter);
      GapUnfolds(text, out, j, keep, letter);
      var prev := LastKept(tokens[..i], keep).value;
      WordOf(source, tokens, prev);
      WordOf(text, out, j - 1);
      SameComment(source, text, tokens[prev], out[j - 1]);
    }
  }

  lemma TextStays(before: string, after: string, text: string, front: seq<Token>, more: seq<Token>, out: seq<Token>)
    requires Laid(before, front) && Laid(after, more) && Laid(text, out)
    requires before <= after <= text && front <= more <= out
    ensures front != [] ==>
              && out[|front| - 1] == front[|front| - 1]
              && front[|front| - 1].start <= front[|front| - 1].end <= |before|
              && Text(text, out[|front| - 1]) == Text(before, front[|front| - 1])
    ensures |front| < |more| ==>
              && out[|front|] == more[|front|]
              && more[|front|].start <= more[|front|].end <= |after|
              && Text(text, out[|front|]) == Text(after, more[|front|])
  {
  }

  lemma SameComment(source: string, text: string, tok: Token, out: Token)
    requires tok.start <= tok.end <= |source| && out.start <= out.end <= |text|
    requires Text(text, out) == Text(source, tok) && out.kind == tok.kind
    ensures LineComment(text, out) == LineComment(source, tok)
  {
  }

  lemma {:induction false} JoinsAgain(source: string, tokens: seq<Token>, n: nat, keep: bool, letter: char -> bool)
    requires Laid(source, tokens) && n <= |tokens|
    requires (keep ==> CommentsEnd(source, tokens)) && OpensFlush(source, tokens, keep)
    ensures var text := OutText(source, tokens, |tokens|, keep, letter);
            var out := OutTokens(source, tokens, |tokens|, keep, letter);
            var j := |OutTokens(source, tokens, n, keep, letter)|;
            && Laid(text, out) && j <= |out|
            && OutText(text, out, j, keep, letter) == OutText(source, tokens, n, keep, letter)
  {
    hide *;
    var text := OutText(source, tokens, |tokens|, keep, letter);
    var out := OutTokens(source, tokens, |tokens|, keep, letter);
    AllRejoins(source, tokens, |tokens|, keep, letter);
    RejoinsDef(source, tokens, |tokens|, keep, letter);
    OutGrows(source, tokens, n, |tokens|, keep, letter);
    if n == 0 {
      OutIs(source, tokens, 0, keep, letter);
      OutIs(text, out, 0, keep, letter);
      NoOutTokens(source, tokens, keep, letter);
    } else {
      var i := n - 1;
      var j := |OutTokens(source, tokens, i, keep, letter)|;
      JoinsAgain(source, tokens, i, keep, letter);
      OutUnfolds(source, tokens, i, keep, letter);
      if Keeps(tokens[i], keep) {
        SameGap(source, tokens, i, keep, letter);
        OutUnfolds(text, out, j, keep, letter);
      }
    }
  }

  lemma NoOutTokens(source: string, tokens: seq<Token>, keep: bool, letter: char -> bool)
    requires Laid(source, tokens)
    ensures OutTokens(source, tokens, 0, keep, letter) == []
  {
  }

  /** Minifying Python twice is minifying it once. The joined text's own lines are as wide as the
      levels of the source's lines, and joining its tokens again gives the very same text; with
      comments kept or dropped, if line comments end their lines and the program's first line is
      not indented. */
  lemma MinifiesOnce(source: string, tokens: seq<Token>, keep: bool, letter: char -> bool)
    requires Laid(source, tokens)
    requires (keep ==> CommentsEnd(source, tokens)) && OpensFlush(source, tokens, keep)
    ensures var text := OutText(source, tokens, |tokens|, keep, letter);
            var out := OutTokens(source, tokens, |tokens|, keep, letter);
            && Laid(text, out)
            && Indented(Levels(Widths(source, tokens)), Widths(text, out))
            && InOrder(text, Pieces(Python, text, out, |out|, keep, letter))
            && JoinedText(text, Pieces(Python, text, out, |out|, keep, letter)) == text
  {
    hide *;
    var text := OutText(source, tokens, |tokens|, keep, letter);
    var out := OutTokens(source, tokens, |tokens|, keep, letter);
    AllRejoins(source, tokens, |tokens|, keep, letter);
    RejoinsDef(source, tokens, |tokens|, keep, letter);
    assert tokens[..|tokens|] == tokens;
    LineLevelsAre(source, tokens);
    JoinsAgain(source, tokens, |tokens|, keep, letter);
    OutIs(text, out, |out|, keep, letter);
  }
}
