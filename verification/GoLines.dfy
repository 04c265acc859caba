/** Where Go ends a statement at the end of a line, and where the joiner writes the semicolon that
    says so: the rule of the section "Semicolons" of The Go Programming Language Specification. */
module GoLines {
  import opened Items
  import opened SourceTokens
  import opened Join

  // ---- The language's rule ------------------------------------------------------

  /** The keywords a line may end a statement on. */
  const ENDING_KEYWORDS: seq<string> := ["break", "continue", "fallthrough", "return"]

  /** The other keywords. */
  const OPEN_KEYWORDS: seq<string> := [
    "case", "chan", "const", "default", "defer", "else", "for", "func", "go", "goto", "if", "import", "interface",
    "map", "package", "range", "select", "struct", "switch", "type", "var"]

  predicate Digit(c: char) {
    '0' <= c <= '9'
  }

  /** A word that is no keyword. */
  predicate Identifier(text: string, letter: char -> bool) {
    && text != "" && Wordy(text[0], letter) && !Digit(text[0])
    && text !in ENDING_KEYWORDS && text !in OPEN_KEYWORDS
  }

  /** A number that opens on its point. */
  predicate PointFirst(text: string) {
    |text| >= 2 && text[0] == '.' && Digit(text[1])
  }

  predicate Literal(text: string) {
    PointFirst(text) || (text != "" && (Digit(text[0]) || text[0] in ['"', '`', '\'']))
  }

  /** The language ends the statement when a line ends on this token. */
  predicate EndsStatement(text: string, letter: char -> bool) {
    || Identifier(text, letter) || Literal(text) || text in ENDING_KEYWORDS
    || text in ["++", "--", ")", "]", "}"]
  }

  // ---- What the joiner makes of it ------------------------------------------------

  /** What tells the other keywords from everything a line may end on. */
  predicate Shape(text: string) {
    && |text| >= 2 && |text| != 8 && |text| != 11 && 'a' <= text[0] <= 'z'
    && (|text| == 5 ==> text[0] != 'b') && (|text| == 6 ==> text[0] != 'r')
  }

  lemma OpenKeywordsHaveShape()
    ensures forall text :: text in OPEN_KEYWORDS ==> Shape(text)
  {
    var words := OPEN_KEYWORDS;
    assert Shape(words[0]) && Shape(words[1]) && Shape(words[2]) && Shape(words[3]) && Shape(words[4]);
    assert Shape(words[5]) && Shape(words[6]) && Shape(words[7]) && Shape(words[8]) && Shape(words[9]);
    assert Shape(words[10]) && Shape(words[11]) && Shape(words[12]) && Shape(words[13]) && Shape(words[14]);
    assert Shape(words[15]) && Shape(words[16]) && Shape(words[17]) && Shape(words[18]) && Shape(words[19]);
    assert Shape(words[20]);
    hide Shape;
    forall text | text in words
      ensures Shape(text)
    {
      var k :| 0 <= k < |words| && words[k] == text;
      assert Shape(words[k]);
    }
  }

  lemma OpenKeywordsAreWords(text: string, letter: char -> bool)
    requires Shape(text)
    ensures text != "" && Wordy(text[0], letter) && !Digit(text[0]) && !PointFirst(text)
    ensures text !in ENDING_KEYWORDS && text !in ["++", "--", ")", "]", "}"]
  {
    assert |"break"| == 5 && |"continue"| == 8 && |"fallthrough"| == 11 && |"return"| == 6;
  }

  /** The joiner's test is the language's, but for every other keyword, which it takes for the end of
      a statement, and a number that opens on its point, which it does not. */
  lemma EndsAlikeExactly(text: string, letter: char -> bool)
    ensures (GoEndsLine(text, letter) <==> EndsStatement(text, letter))
            <==> text !in OPEN_KEYWORDS && !PointFirst(text)
  {
    OpenKeywordsHaveShape();
    if text in OPEN_KEYWORDS {
      OpenKeywordsAreWords(text, letter);
      hide Shape, OPEN_KEYWORDS;
    } else if PointFirst(text) {
      assert !Wordy('.', letter);
    }
  }

  /** Between two tokens of code the joiner writes a semicolon exactly where the language has one,
      unless one is not needed in front of a closing bracket, or the line ends on one of those. */
  lemma SemicolonsExactly(source: string, prev: Token, next: Token, level: Option<nat>, letter: char -> bool)
    requires prev.start <= prev.end <= next.start <= next.end <= |source| && prev.kind != Comment
    ensures var text := Text(source, prev);
            var breaks := (exists i :: prev.end <= i < next.start && source[i] == '\n')
                          && Text(source, next) !in ["}", ")", "]"];
            (Separator(Go, source, prev, next, level, letter) == Synthetic(";")
             <==> breaks && EndsStatement(text, letter))
            <==> !(breaks && (text in OPEN_KEYWORDS || PointFirst(text)))
  {
    var gap := source[prev.end..next.start];
    assert '\n' in gap <==> exists i :: prev.end <= i < next.start && source[i] == '\n' by {
      if '\n' in gap {
        var j :| 0 <= j < |gap| && gap[j] == '\n';
        assert source[prev.end + j] == '\n';
      }
      if i :| prev.end <= i < next.start && source[i] == '\n' { assert gap[i - prev.end] == '\n'; }
    }
    EndsAlikeExactly(Text(source, prev), letter);
    hide GoEndsLine, EndsStatement, PointFirst;
    assert BaseSeparator(Last(Text(source, prev)), First(Text(source, next)), letter) != ";";
  }

  // ---- A comment at the end of a line ----------------------------------------------

  /** Two statements, the first with a comment behind it on its line. */
  const COMMENTED := "a/**/\nb"

  function CommentedTokens(): seq<Token> {
    [Token(0, 1, Code), Token(1, 5, Comment), Token(6, 7, Code)]
  }

  lemma CommentedTexts()
    ensures Laid(COMMENTED, CommentedTokens())
    ensures var all := CommentedTokens();
            Text(COMMENTED, all[0]) == "a" && Text(COMMENTED, all[1]) == "/**/" && Text(COMMENTED, all[2]) == "b"
    ensures COMMENTED[1..1] == "" && COMMENTED[5..6] == "\n" && COMMENTED[1..6] == "/**/\n"
  {
    assert COMMENTED[0..1] == "a" && COMMENTED[1..5] == "/**/" && COMMENTED[6..7] == "b";
  }

  lemma CommentEndsNothing(letter: char -> bool)
    ensures !GoEndsLine("/**/", letter) && GoEndsLine("a", letter)
    ensures !("//" <= "/**/") && !("#" <= "/**/")
  {
    assert "/**/"[1] == '*' && "//"[1] == '/';
  }

  lemma BaseSeparators(letter: char -> bool)
    ensures BaseSeparator('a', '/', letter) == "" && BaseSeparator('/', 'b', letter) == ""
  {
  }

  lemma CommentedSeparators(letter: char -> bool)
    requires Laid(COMMENTED, CommentedTokens())
    ensures var all := CommentedTokens();
            && Separator(Go, COMMENTED, all[0], all[1], None, letter) == Synthetic("")
            && Separator(Go, COMMENTED, all[1], all[2], None, letter) == Synthetic("")
            && Separator(Go, COMMENTED, all[0], all[2], None, letter) == Synthetic(";")
  {
    CommentedTexts();
    CommentEndsNothing(letter);
    BaseSeparators(letter);
    hide GoEndsLine, BaseSeparator, Text;
  }

  /** Kept, the comment stands between the token that ends the statement and the line's end, and
      the two statements come out as one line without a semicolon. */
  lemma KeptCommentTakesSemicolon(letter: char -> bool)
    ensures Laid(COMMENTED, CommentedTokens())
    ensures Pieces(Go, COMMENTED, CommentedTokens(), 3, false, letter)
         == [Copied(0, 1), Invented(";"), Copied(6, 7)]
    ensures Pieces(Go, COMMENTED, CommentedTokens(), 3, true, letter)
         == [Copied(0, 1), Invented(""), Copied(1, 5), Invented(""), Copied(6, 7)]
  {
    CommentedTexts();
    CommentedSeparators(letter);
    CommentedPieces(false, letter);
    CommentedPieces(true, letter);
    hide *;
    var all := CommentedTokens();
    assert [Copied(0, 1)] + [] + ([Invented(";")] + [Copied(6, 7)]) == [Copied(0, 1), Invented(";"), Copied(6, 7)];
  }

  lemma CommentedPieces(keep: bool, letter: char -> bool)
    requires Laid(COMMENTED, CommentedTokens())
    ensures var all := CommentedTokens();
            var first, second := GapPiece(Separator(Go, COMMENTED, all[0], all[1], None, letter)),
                                 GapPiece(Separator(Go, COMMENTED, all[if keep then 1 else 0], all[2], None, letter));
            Pieces(Go, COMMENTED, all, 3, keep, letter)
            == [Copied(0, 1)] + (if keep then [first] + [Copied(1, 5)] else []) + ([second] + [Copied(6, 7)])
  {
    hide Separator, GapPiece, Text;
    var all := CommentedTokens();
    NothingJoined(Go, COMMENTED, all, keep, letter);
    PiecesStep(Go, COMMENTED, all, 0, keep, letter);
    PiecesStep(Go, COMMENTED, all, 1, keep, letter);
    PiecesStep(Go, COMMENTED, all, 2, keep, letter);
    LastKeptSnoc(all, 0, keep);
    LastKeptSnoc(all, 1, keep);
    hide Pieces, LastKept;
    assert [] + [Copied(0, 1)] == [Copied(0, 1)];
  }
}
