/** Joining tokens with the smallest separators, and the map from the joined text back to the
    source. */
module Join {
  import opened Items
  import opened SourceTokens
  import P = PythonIndent

  const OPERATOR_CHARS := "+-*/%<>=!&|^~.?:#@"

  /** Languages, with what the grammar told us of each: where a gap is copied and where a
      statement ends. */
  datatype Lang =
    | Go
    | Python
    | Rust
    | Script(verbatimGap: (nat, nat) -> bool, endsStatement: nat -> bool)

  /** What goes between two tokens: text of our own, or a stretch of the source. */
  datatype Sep = Synthetic(text: string) | Verbatim(start: nat, end: nat)

  // ---- Separators -----------------------------------------------------------------------

  predicate Letter(c: char) {
    'a' <= c <= 'z' || 'A' <= c <= 'Z' || '0' <= c <= '9'
  }

  /** Letters and digits, of any script, and the underscore; `letter` says which characters
      beyond ASCII are either. */
  predicate Wordy(c: char, letter: char -> bool) {
    Letter(c) || c == '_' || (c as int >= 128 && letter(c))
  }

  predicate Operator(c: char) {
    c in OPERATOR_CHARS
  }

  function BaseSeparator(prevLast: char, nextFirst: char, letter: char -> bool): string {
    if (Wordy(prevLast, letter) && Wordy(nextFirst, letter)) || (Operator(prevLast) && Operator(nextFirst)) then " "
    else ""
  }

  function Last(text: string): char {
    if text == "" then ' ' else text[|text| - 1]
  }

  function First(text: string): char {
    if text == "" then ' ' else text[0]
  }

  predicate GoEndsLine(text: string, letter: char -> bool) {
    || text in ["break", "continue", "fallthrough", "return", "++", "--", ")", "]", "}"]
    || (text != "" && (Wordy(text[0], letter) || text[0] in ['"', '`', '\'']))
  }

  predicate Closer(text: string) {
    text in ["}", ")", "]"]
  }

  function Spaces(n: nat): string {
    seq(n, i => ' ')
  }

  /** A kept line comment swallows the rest of its line. */
  predicate LineComment(source: string, tok: Token)
    requires tok.start <= tok.end <= |source|
  {
    tok.kind == Comment && ("//" <= Text(source, tok) || "#" <= Text(source, tok))
  }

  function LangSeparator(lang: Lang, source: string, prev: Token, next: Token, level: Option<nat>,
                         letter: char -> bool): Sep
    requires prev.start <= prev.end <= next.start <= next.end <= |source|
  {
    var base := Synthetic(BaseSeparator(Last(Text(source, prev)), First(Text(source, next)), letter));
    var breaks := '\n' in source[prev.end..next.start] && !Closer(Text(source, next));
    match lang
    case Go => if breaks && GoEndsLine(Text(source, prev), letter) then Synthetic(";") else base
    case Python => if level.Some? then Synthetic("\n" + Spaces(level.value)) else base
    case Rust => base
    case Script(verbatimGap, endsStatement) =>
      if verbatimGap(prev.end, next.start) then Verbatim(prev.end, next.start)
      else if breaks && endsStatement(prev.end) then Synthetic(";")
      else base
  }

  /** The separator of a gap: the language's own, unless a kept line comment needs a newline. */
  function Separator(lang: Lang, source: string, prev: Token, next: Token, level: Option<nat>,
                     letter: char -> bool): Sep
    requires prev.start <= prev.end <= next.start <= next.end <= |source|
  {
    var sep := LangSeparator(lang, source, prev, next, level, letter);
    var text := if sep.Synthetic? then sep.text else source[prev.end..next.start];
    if LineComment(source, prev) && '\n' !in text then Synthetic("\n") else sep
  }

  /** Everything the joiner may invent. */
  predicate Invention(text: string) {
    text == "" || text == " " || text == ";" || ("\n" <= text && text == "\n" + Spaces(|text| - 1))
  }

  /** A separator is one of the few things the joiner may invent, or the gap itself. A kept line
      comment always has its line to itself; a script's gap is copied exactly where its grammar says,
      and ends its statement exactly where its grammar ends one and its line does too. */
  lemma SeparatorIsInvented(lang: Lang, source: string, prev: Token, next: Token, level: Option<nat>,
                            letter: char -> bool)
    requires prev.start <= prev.end <= next.start <= next.end <= |source|
    ensures var sep := Separator(lang, source, prev, next, level, letter);
            if sep.Synthetic? then Invention(sep.text) else sep.start == prev.end && sep.end == next.start
    ensures var sep := Separator(lang, source, prev, next, level, letter);
            LineComment(source, prev) ==>
              '\n' in if sep.Synthetic? then sep.text else source[prev.end..next.start]
    ensures var sep := Separator(lang, source, prev, next, level, letter);
            lang.Script? && !LineComment(source, prev) ==>
              && (sep.Verbatim? <==> lang.verbatimGap(prev.end, next.start))
              && (sep == Synthetic(";") <==>
                    && !lang.verbatimGap(prev.end, next.start) && lang.endsStatement(prev.end)
                    && '\n' in source[prev.end..next.start] && Text(source, next) !in ["}", ")", "]"])
  {
    assert "\n" + Spaces(0) == "\n";
    if level.Some? {
      var text := "\n" + Spaces(level.value);
      assert text[0] == '\n' && "\n" <= text && |text| - 1 == level.value;
    }
  }

  // ---- Pieces -----------------------------------------------------------------------------

  datatype Piece = Copied(start: nat, end: nat) | Invented(text: string)

  /** An empty stretch of source is as good as nothing: it leaves no trace. */
  function GapPiece(sep: Sep): Piece {
    match sep
    case Synthetic(text) => Invented(text)
    case Verbatim(start, end) => if start < end then Copied(start, end) else Invented("")
  }

  predicate Keeps(tok: Token, keepComments: bool) {
    tok.kind != Comment || keepComments
  }

  /** Index of the last token kept so far. */
  function LastKept(tokens: seq<Token>, keepComments: bool): (k: Option<nat>)
    ensures k.Some? ==> k.value < |tokens| && Keeps(tokens[k.value], keepComments)
    ensures k.None? <==> forall i :: 0 <= i < |tokens| ==> !Keeps(tokens[i], keepComments)
  {
    if tokens == [] then None
    else if Keeps(tokens[|tokens| - 1], keepComments) then Some(|tokens| - 1)
    else LastKept(tokens[..|tokens| - 1], keepComments)
  }

  function LevelIn(lang: Lang, source: string, tokens: seq<Token>, i: nat): Option<nat>
    requires Laid(source, tokens) && i < |tokens|
  {
    if lang.Python? then P.LevelAt(source, tokens, i) else None
  }

  /** The separator in front of token `i`, if any token before it was kept. */
  function SeparatorAt(lang: Lang, source: string, all: seq<Token>, i: nat, keepComments: bool,
                       letter: char -> bool): Option<Sep>
    requires Laid(source, all) && i < |all|
  {
    var prev := LastKept(all[..i], keepComments);
    if prev.None? then None
    else Some(Separator(lang, source, all[prev.value], all[i], LevelIn(lang, source, all, i), letter))
  }

  /** What token `i` adds: itself, if kept, behind its separator. */
  function Added(lang: Lang, source: string, all: seq<Token>, i: nat, keepComments: bool,
                 letter: char -> bool): seq<Piece>
    requires Laid(source, all) && i < |all|
  {
    var tok, sep := all[i], SeparatorAt(lang, source, all, i, keepComments, letter);
    if !Keeps(tok, keepComments) then []
    else if sep.None? then [Copied(tok.start, tok.end)]
    else [GapPiece(sep.value)] + [Copied(tok.start, tok.end)]
  }

  /** The joined text, piece by piece. */
  function Pieces(lang: Lang, source: string, all: seq<Token>, n: nat, keepComments: bool,
                  letter: char -> bool): seq<Piece>
    requires Laid(source, all) && n <= |all|
  {
    if n == 0 then []
    else Pieces(lang, source, all, n - 1, keepComments, letter) + Added(lang, source, all, n - 1, keepComments, letter)
  }

  // ---- Text and segments --------------------------------------------------------------------

  /** `len` bytes at `outStart` of the text are the source's from `srcStart` on. */
  datatype Segment = Segment(outStart: nat, len: nat, srcStart: nat)

  /** A piece copied from within the source. */
  predicate Fits(source: string, piece: Piece) {
    piece.Copied? ==> piece.start < piece.end <= |source|
  }

  function PieceText(source: string, piece: Piece): string
    requires Fits(source, piece)
  {
    if piece.Copied? then source[piece.start..piece.end] else piece.text
  }

  /** Where copying has got to in the source. */
  function Reached(pieces: seq<Piece>): nat {
    if pieces == [] then 0
    else if pieces[|pieces| - 1].Copied? then pieces[|pieces| - 1].end
    else Reached(pieces[..|pieces| - 1])
  }

  /** Pieces copied from the source in its own order, and inventions. */
  predicate InOrder(source: string, pieces: seq<Piece>) {
    pieces == [] ||
    (&& InOrder(source, pieces[..|pieces| - 1])
     && Fits(source, pieces[|pieces| - 1])
     && (pieces[|pieces| - 1].Copied? ==> Reached(pieces[..|pieces| - 1]) <= pieces[|pieces| - 1].start)
     && (pieces[|pieces| - 1].Invented? ==> Invention(pieces[|pieces| - 1].text)))
  }

  function JoinedText(source: string, pieces: seq<Piece>): string
    requires InOrder(source, pieces)
  {
    if pieces == [] then "" else JoinedText(source, pieces[..|pieces| - 1]) + PieceText(source, pieces[|pieces| - 1])
  }

  /** One segment for each copied piece. */
  function SegmentsOf(source: string, pieces: seq<Piece>): seq<Segment>
    requires InOrder(source, pieces)
  {
    if pieces == [] then []
    else
      var front, last := pieces[..|pieces| - 1], pieces[|pieces| - 1];
      SegmentsOf(source, front)
      + if last.Copied? then [Segment(|JoinedText(source, front)|, last.end - last.start, last.start)] else []
  }

  lemma PieceSnoc(source: string, pieces: seq<Piece>, piece: Piece)
    requires InOrder(source, pieces) && Fits(source, piece)
    requires if piece.Copied? then Reached(pieces) <= piece.start else Invention(piece.text)
    ensures InOrder(source, pieces + [piece])
    ensures Reached(pieces + [piece]) == if piece.Copied? then piece.end else Reached(pieces)
    ensures JoinedText(source, pieces + [piece]) == JoinedText(source, pieces) + PieceText(source, piece)
    ensures SegmentsOf(source, pieces + [piece])
         == SegmentsOf(source, pieces)
            + (if piece.Copied?
               then [Segment(|JoinedText(source, pieces)|, piece.end - piece.start, piece.start)] else [])
  {
    hide *;
    SnocInOrder(source, pieces, piece);
    SnocText(source, pieces, piece);
  }

  lemma SnocInOrder(source: string, pieces: seq<Piece>, piece: Piece)
    requires InOrder(source, pieces) && Fits(source, piece)
    requires if piece.Copied? then Reached(pieces) <= piece.start else Invention(piece.text)
    ensures InOrder(source, pieces + [piece])
    ensures Reached(pieces + [piece]) == if piece.Copied? then piece.end else Reached(pieces)
  {
    hide Invention, Fits;
    assert (pieces + [piece])[..|pieces|] == pieces;
  }

  lemma SnocText(source: string, pieces: seq<Piece>, piece: Piece)
    requires InOrder(source, pieces) && InOrder(source, pieces + [piece]) && Fits(source, piece)
    ensures JoinedText(source, pieces + [piece]) == JoinedText(source, pieces) + PieceText(source, piece)
    ensures SegmentsOf(source, pieces + [piece])
         == SegmentsOf(source, pieces)
            + (if piece.Copied?
               then [Segment(|JoinedText(source, pieces)|, piece.end - piece.start, piece.start)] else [])
  {
    hide Invention, InOrder, Reached, PieceText, Fits;
    assert (pieces + [piece])[..|pieces|] == pieces;
  }

  function EndOf(tokens: seq<Token>, k: Option<nat>): nat
    requires k.Some? ==> k.value < |tokens|
  {
    if k.Some? then tokens[k.value].end else 0
  }

  /** One token more: text, segments, and how far the source has been copied. */
  lemma TokenAdds(lang: Lang, source: string, all: seq<Token>, i: nat, keepComments: bool, letter: char -> bool,
                  front: seq<Piece>)
    requires Laid(source, all) && i < |all|
    requires InOrder(source, front) && Reached(front) == EndOf(all[..i], LastKept(all[..i], keepComments))
    ensures var tok, sep := all[i], SeparatorAt(lang, source, all, i, keepComments, letter);
            var prev := LastKept(all[..i], keepComments);
            var whole := front + Added(lang, source, all, i, keepComments, letter);
            && InOrder(source, whole)
            && Reached(whole) == EndOf(all[..i + 1], LastKept(all[..i + 1], keepComments))
            && (!Keeps(tok, keepComments) ==> whole == front)
            && (Keeps(tok, keepComments) ==>
                  && (sep.None? <==> prev.None?)
                  && (sep.Some? && sep.value.Verbatim? ==> sep.value.start <= sep.value.end <= |source|)
                  && JoinedText(source, whole) == JoinedText(source, front) + SepText(source, sep) + Text(source, tok)
                  && SegmentsOf(source, whole)
                     == SegmentsOf(source, front) + SepSegment(source, sep, |JoinedText(source, front)|)
                        + [Segment(|JoinedText(source, front) + SepText(source, sep)|, tok.end - tok.start, tok.start)])
  {
    hide Separator, Invention, LevelIn, InOrder, Reached, JoinedText, SegmentsOf, Keeps, LastKept;
    var tok, prev := all[i], LastKept(all[..i], keepComments);
    var sep := SeparatorAt(lang, source, all, i, keepComments, letter);
    LastKeptSnoc(all, i, keepComments);
    if !Keeps(tok, keepComments) {
      assert front + [] == front;
    } else if prev.None? {
      PieceSnoc(source, front, Copied(tok.start, tok.end));
      assert JoinedText(source, front) + "" == JoinedText(source, front);
      assert SegmentsOf(source, front) + [] == SegmentsOf(source, front);
    } else {
      SeparatorIsInvented(lang, source, all[prev.value], tok, LevelIn(lang, source, all, i), letter);
      EmptyInvention();
      GapAndToken(source, front, GapPiece(sep.value), Copied(tok.start, tok.end));
    }
  }

  /** A gap and the token behind it. */
  lemma GapAndToken(source: string, front: seq<Piece>, gap: Piece, piece: Piece)
    requires InOrder(source, front) && Fits(source, gap) && Fits(source, piece) && piece.Copied?
    requires if gap.Copied? then Reached(front) <= gap.start else Invention(gap.text)
    requires (if gap.Copied? then gap.end else Reached(front)) <= piece.start
    ensures var whole := front + ([gap] + [piece]); InOrder(source, whole) && Reached(whole) == piece.end
    ensures var whole := front + ([gap] + [piece]);
            var before := JoinedText(source, front);
            && JoinedText(source, whole) == before + PieceText(source, gap) + PieceText(source, piece)
            && SegmentsOf(source, whole)
               == SegmentsOf(source, front)
                  + (if gap.Copied? then [Segment(|before|, gap.end - gap.start, gap.start)] else [])
                  + [Segment(|before + PieceText(source, gap)|, piece.end - piece.start, piece.start)]
  {
    hide Invention, InOrder, Reached, JoinedText, SegmentsOf, Fits, PieceText;
    PieceSnoc(source, front, gap);
    PieceSnoc(source, front + [gap], piece);
    assert front + ([gap] + [piece]) == front + [gap] + [piece];
  }

  lemma LastKeptSnoc(all: seq<Token>, i: nat, keepComments: bool)
    requires i < |all|
    ensures LastKept(all[..i + 1], keepComments)
         == if Keeps(all[i], keepComments) then Some(i) else LastKept(all[..i], keepComments)
  {
    assert all[..i + 1][..i] == all[..i];
  }

  function SepText(source: string, sep: Option<Sep>): string
    requires sep.Some? && sep.value.Verbatim? ==> sep.value.start <= sep.value.end <= |source|
  {
    match sep
    case None => ""
    case Some(Synthetic(text)) => text
    case Some(Verbatim(start, end)) => if start < end then source[start..end] else ""
  }

  function SepSegment(source: string, sep: Option<Sep>, at: nat): seq<Segment>
    requires sep.Some? && sep.value.Verbatim? ==> sep.value.start <= sep.value.end <= |source|
  {
    match sep
    case Some(Verbatim(start, end)) => if start < end then [Segment(at, end - start, start)] else []
    case _ => []
  }

  /** The last kept token is where copying has got to. */
  lemma {:induction false} PiecesInOrder(lang: Lang, source: string, all: seq<Token>, n: nat, keepComments: bool,
                                         letter: char -> bool)
    requires Laid(source, all) && n <= |all|
    ensures var pieces := Pieces(lang, source, all, n, keepComments, letter);
            InOrder(source, pieces) && Reached(pieces) == EndOf(all[..n], LastKept(all[..n], keepComments))
  {
    hide *;
    if n == 0 {
      NoPieces(source);
      NothingKept(all, keepComments);
      NothingJoined(lang, source, all, keepComments, letter);
    } else {
      PiecesStep(lang, source, all, n - 1, keepComments, letter);
      PiecesInOrder(lang, source, all, n - 1, keepComments, letter);
      TokenAdds(lang, source, all, n - 1, keepComments, letter, Pieces(lang, source, all, n - 1, keepComments, letter));
    }
  }

  lemma NothingKept(all: seq<Token>, keepComments: bool)
    ensures EndOf(all[..0], LastKept(all[..0], keepComments)) == 0
  {
  }

  lemma NoPieces(source: string)
    ensures InOrder(source, []) && Reached([]) == 0
  {
  }

  lemma EmptyInvention()
    ensures Invention("")
  {
  }

  // ---- The joiner -----------------------------------------------------------------------------

  method GapSeparator(lang: Lang, source: string, prev: Token, next: Token, level: Option<nat>, letter: char -> bool)
    returns (sep: Sep)
    requires prev.start <= prev.end <= next.start <= next.end <= |source|
    ensures sep == Separator(lang, source, prev, next, level, letter)
  {
    sep := LangSeparator(lang, source, prev, next, level, letter);
    if LineComment(source, prev) {
      var text := if sep.Synthetic? then sep.text else source[prev.end..next.start];
      if '\n' !in text { sep := Synthetic("\n"); }
    }
  }

  /** Emit every kept token behind its separator, recording each copied stretch. */
  method JoinTokens(lang: Lang, source: string, tokens: seq<Token>, keepComments: bool, letter: char -> bool)
    returns (text: string, segments: seq<Segment>)
    requires Laid(source, tokens)
    ensures var pieces := Pieces(lang, source, tokens, |tokens|, keepComments, letter);
            InOrder(source, pieces) && text == JoinedText(source, pieces) && segments == SegmentsOf(source, pieces)
  {
    hide Separator, Invention, LevelIn, InOrder, Reached, JoinedText, SegmentsOf, P.LevelAt, Added, Pieces, LastKept;
    var levels: seq<Option<nat>> := [];
    if lang.Python? { levels := P.PyLines(source, tokens); }
    text, segments := "", [];
    var prev: Option<nat> := None;
    NothingJoined(lang, source, tokens, keepComments, letter);
    for i := 0 to |tokens|
      invariant prev == LastKept(tokens[..i], keepComments)
      invariant InOrder(source, Pieces(lang, source, tokens, i, keepComments, letter))
      invariant text == JoinedText(source, Pieces(lang, source, tokens, i, keepComments, letter))
      invariant segments == SegmentsOf(source, Pieces(lang, source, tokens, i, keepComments, letter))
    {
      var tok := tokens[i];
      PiecesInOrder(lang, source, tokens, i, keepComments, letter);
      PiecesStep(lang, source, tokens, i, keepComments, letter);
      LastKeptSnoc(tokens, i, keepComments);
      LevelInIs(lang, source, tokens, i);
      TokenAdds(lang, source, tokens, i, keepComments, letter, Pieces(lang, source, tokens, i, keepComments, letter));
      if !Keeps(tok, keepComments) { continue; }
      if prev.Some? {
        var level := if lang.Python? then levels[i] else None;
        var sep := GapSeparator(lang, source, tokens[prev.value], tok, level, letter);
        segments := segments + SepSegment(source, Some(sep), |text|);
        text := text + SepText(source, Some(sep));
      }
      segments := segments + [Segment(|text|, tok.end - tok.start, tok.start)];
      text := text + source[tok.start..tok.end];
      prev := Some(i);
    }
  }

  lemma PiecesStep(lang: Lang, source: string, all: seq<Token>, i: nat, keepComments: bool, letter: char -> bool)
    requires Laid(source, all) && i < |all|
    ensures Pieces(lang, source, all, i + 1, keepComments, letter)
         == Pieces(lang, source, all, i, keepComments, letter) + Added(lang, source, all, i, keepComments, letter)
  {
    hide Added;
  }

  lemma NothingJoined(lang: Lang, source: string, tokens: seq<Token>, keepComments: bool, letter: char -> bool)
    requires Laid(source, tokens)
    ensures Pieces(lang, source, tokens, 0, keepComments, letter) == []
    ensures InOrder(source, []) && JoinedText(source, []) == "" && SegmentsOf(source, []) == []
    ensures LastKept(tokens[..0], keepComments) == None
  {
  }

  lemma LevelInIs(lang: Lang, source: string, tokens: seq<Token>, i: nat)
    requires Laid(source, tokens) && i < |tokens|
    ensures LevelIn(lang, source, tokens, i) == if lang.Python? then P.LevelAt(source, tokens, i) else None
  {
    hide P.LevelAt;
  }
}
