/** The joined text's segments are a faithful map of the source, spans project through it, and
    the joining loses nothing but whitespace. */
module SourceMap {
  import opened Items
  import opened SourceTokens
  import opened Join

  // ---- Faithful segments ------------------------------------------------------------------

  /** Segments are copies, in order and disjoint in the text and in the source alike. */
  predicate Faithful(source: string, text: string, segments: seq<Segment>) {
    && (forall k :: 0 <= k < |segments| ==> Copy(source, text, segments[k]))
    && (forall k, l :: 0 <= k < l < |segments| ==>
          && segments[k].outStart + segments[k].len <= segments[l].outStart
          && segments[k].srcStart + segments[k].len <= segments[l].srcStart)
  }

  predicate Copy(source: string, text: string, seg: Segment) {
    && 0 < seg.len
    && seg.outStart + seg.len <= |text| && seg.srcStart + seg.len <= |source|
    && text[seg.outStart..seg.outStart + seg.len] == source[seg.srcStart..seg.srcStart + seg.len]
  }

  lemma CopyKept(source: string, text: string, more: string, seg: Segment)
    requires Copy(source, text, seg)
    ensures Copy(source, text + more, seg)
  {
    assert (text + more)[seg.outStart..seg.outStart + seg.len] == text[seg.outStart..seg.outStart + seg.len];
  }

  predicate EndsBy(segments: seq<Segment>, out: nat, src: nat) {
    forall k :: 0 <= k < |segments| ==>
      segments[k].outStart + segments[k].len <= out && segments[k].srcStart + segments[k].len <= src
  }

  lemma FaithfulMore(source: string, text: string, segments: seq<Segment>, more: string)
    requires Faithful(source, text, segments)
    ensures Faithful(source, text + more, segments)
  {
    hide Copy;
    forall k | 0 <= k < |segments| ensures Copy(source, text + more, segments[k]) {
      CopyKept(source, text, more, segments[k]);
    }
  }

  lemma FaithfulSnoc(source: string, text: string, segments: seq<Segment>, src: nat, start: nat, end: nat)
    requires Faithful(source, text, segments) && EndsBy(segments, |text|, src)
    requires src <= start < end <= |source|
    ensures var seg := Segment(|text|, end - start, start);
            && Faithful(source, text + source[start..end], segments + [seg])
            && EndsBy(segments + [seg], |text + source[start..end]|, end)
  {
    hide Copy;
    var seg := Segment(|text|, end - start, start);
    FaithfulMore(source, text, segments, source[start..end]);
    NewCopy(source, text, start, end);
  }

  lemma NewCopy(source: string, text: string, start: nat, end: nat)
    requires start < end <= |source|
    ensures Copy(source, text + source[start..end], Segment(|text|, end - start, start))
  {
    var more := source[start..end];
    assert (text + more)[|text|..|text| + (end - start)] == more;
  }

  lemma {:induction false} SegmentsAreFaithful(source: string, pieces: seq<Piece>)
    requires InOrder(source, pieces)
    ensures Faithful(source, JoinedText(source, pieces), SegmentsOf(source, pieces))
    ensures EndsBy(SegmentsOf(source, pieces), |JoinedText(source, pieces)|, Reached(pieces))
  {
    if pieces != [] {
      hide *;
      InOrderSplits(source, pieces);
      SegmentsAreFaithful(source, pieces[..|pieces| - 1]);
      PieceFaithful(source, pieces);
    } else {
      NoSegments(source);
    }
  }

  lemma PieceFaithful(source: string, pieces: seq<Piece>)
    requires InOrder(source, pieces) && pieces != [] && InOrder(source, pieces[..|pieces| - 1])
    requires var front := pieces[..|pieces| - 1];
             && Faithful(source, JoinedText(source, front), SegmentsOf(source, front))
             && EndsBy(SegmentsOf(source, front), |JoinedText(source, front)|, Reached(front))
    ensures Faithful(source, JoinedText(source, pieces), SegmentsOf(source, pieces))
    ensures EndsBy(SegmentsOf(source, pieces), |JoinedText(source, pieces)|, Reached(pieces))
  {
    hide *;
    var front, last := pieces[..|pieces| - 1], pieces[|pieces| - 1];
    InOrderSplits(source, pieces);
    PieceLast(source, pieces);
    PieceTextIs(source, last);
    var text, segments := JoinedText(source, front), SegmentsOf(source, front);
    if last.Copied? {
      FaithfulSnoc(source, text, segments, Reached(front), last.start, last.end);
    } else {
      FaithfulMore(source, text, segments, last.text);
      EndsLater(segments, |text|, Reached(front), |last.text|);
    }
  }

  lemma PieceLast(source: string, pieces: seq<Piece>)
    requires InOrder(source, pieces) && pieces != []
    ensures var front, last := pieces[..|pieces| - 1], pieces[|pieces| - 1];
            && InOrder(source, front) && Fits(source, last)
            && JoinedText(source, pieces) == JoinedText(source, front) + PieceText(source, last)
            && Reached(pieces) == (if last.Copied? then last.end else Reached(front))
            && SegmentsOf(source, pieces)
               == if last.Copied?
                  then SegmentsOf(source, front)
                       + [Segment(|JoinedText(source, front)|, last.end - last.start, last.start)]
                  else SegmentsOf(source, front)
  {
    hide Invention;
    assert SegmentsOf(source, pieces[..|pieces| - 1]) + [] == SegmentsOf(source, pieces[..|pieces| - 1]);
  }

  lemma NoSegments(source: string)
    ensures InOrder(source, []) && Faithful(source, JoinedText(source, []), SegmentsOf(source, []))
    ensures EndsBy(SegmentsOf(source, []), |JoinedText(source, [])|, Reached([]))
  {
  }

  lemma EndsLater(segments: seq<Segment>, out: nat, src: nat, more: nat)
    requires EndsBy(segments, out, src)
    ensures EndsBy(segments, out + more, src)
  {
  }

  lemma InOrderSplits(source: string, pieces: seq<Piece>)
    requires InOrder(source, pieces) && pieces != []
    ensures var front, last := pieces[..|pieces| - 1], pieces[|pieces| - 1];
            && InOrder(source, front) && Fits(source, last)
            && (if last.Copied? then Reached(front) <= last.start < last.end <= |source| else Invention(last.text))
  {
    hide Invention;
  }

  lemma PieceTextIs(source: string, piece: Piece)
    requires Fits(source, piece)
    ensures piece.Copied? ==> piece.start < piece.end <= |source|
    ensures PieceText(source, piece) == if piece.Copied? then source[piece.start..piece.end] else piece.text
  {
  }

  /** For every source, every token list and every language: the segments are a faithful map,
      there is one for each kept token, and all the rest is separators of our own. */
  lemma JoinIsFaithful(lang: Lang, source: string, tokens: seq<Token>, keepComments: bool, letter: char -> bool)
    requires Laid(source, tokens)
    ensures var pieces := Pieces(lang, source, tokens, |tokens|, keepComments, letter);
            && InOrder(source, pieces)
            && Faithful(source, JoinedText(source, pieces), SegmentsOf(source, pieces))
            && (forall i :: 0 <= i < |tokens| && Keeps(tokens[i], keepComments) ==>
                  Mapped(SegmentsOf(source, pieces), tokens[i]))
            && (forall i :: 0 <= i < |pieces| && pieces[i].Invented? ==> Invention(pieces[i].text))
  {
    hide Pieces, Faithful, Mapped, Invention, SegmentsOf, JoinedText;
    PiecesInOrder(lang, source, tokens, |tokens|, keepComments, letter);
    var pieces := Pieces(lang, source, tokens, |tokens|, keepComments, letter);
    SegmentsAreFaithful(source, pieces);
    KeptAreMapped(lang, source, tokens, |tokens|, keepComments, letter);
    InventionsOnly(source, pieces);
  }

  predicate Mapped(segments: seq<Segment>, tok: Token) {
    exists k ::
      && 0 <= k < |segments|
      && segments[k].srcStart == tok.start && segments[k].srcStart + segments[k].len == tok.end
  }

  lemma {:induction false} KeptAreMapped(lang: Lang, source: string, tokens: seq<Token>, n: nat, keepComments: bool,
                                         letter: char -> bool)
    requires Laid(source, tokens) && n <= |tokens|
    ensures InOrder(source, Pieces(lang, source, tokens, n, keepComments, letter))
    ensures forall i :: 0 <= i < n && Keeps(tokens[i], keepComments) ==>
              Mapped(SegmentsOf(source, Pieces(lang, source, tokens, n, keepComments, letter)), tokens[i])
  {
    hide Pieces, Mapped, SegmentsOf, JoinedText, Added, InOrder, SeparatorAt, SepText, SepSegment, LastKept, Reached,
         Keeps;
    PiecesInOrder(lang, source, tokens, n, keepComments, letter);
    if n > 0 {
      var before, tok := Pieces(lang, source, tokens, n - 1, keepComments, letter), tokens[n - 1];
      KeptAreMapped(lang, source, tokens, n - 1, keepComments, letter);
      PiecesInOrder(lang, source, tokens, n - 1, keepComments, letter);
      PiecesStep(lang, source, tokens, n - 1, keepComments, letter);
      TokenAdds(lang, source, tokens, n - 1, keepComments, letter, before);
      if Keeps(tok, keepComments) {
        var sep := SeparatorAt(lang, source, tokens, n - 1, keepComments, letter);
        var segments := SegmentsOf(source, before);
        var gap := SepSegment(source, sep, |JoinedText(source, before)|);
        var seg := Segment(|JoinedText(source, before) + SepText(source, sep)|, tok.end - tok.start, tok.start);
        MappedLast(segments + gap, seg, tok);
        forall i | 0 <= i < n - 1 && Keeps(tokens[i], keepComments)
          ensures Mapped(segments + gap + [seg], tokens[i])
        {
          MappedMore(segments, gap, tokens[i]);
          MappedMore(segments + gap, [seg], tokens[i]);
        }
      }
    }
  }

  lemma MappedLast(segments: seq<Segment>, seg: Segment, tok: Token)
    requires seg.srcStart == tok.start && seg.srcStart + seg.len == tok.end
    ensures Mapped(segments + [seg], tok)
  {
    assert (segments + [seg])[|segments|] == seg;
  }

  lemma MappedMore(segments: seq<Segment>, more: seq<Segment>, tok: Token)
    requires Mapped(segments, tok)
    ensures Mapped(segments + more, tok)
  {
    var k :| && 0 <= k < |segments|
             && segments[k].srcStart == tok.start && segments[k].srcStart + segments[k].len == tok.end;
    assert (segments + more)[k] == segments[k];
  }

  lemma {:induction false} InventionsOnly(source: string, pieces: seq<Piece>)
    requires InOrder(source, pieces)
    ensures forall i :: 0 <= i < |pieces| && pieces[i].Invented? ==> Invention(pieces[i].text)
  {
    hide Invention;
    if pieces != [] {
      var front := pieces[..|pieces| - 1];
      InventionsOnly(source, front);
      assert forall i :: 0 <= i < |front| ==> front[i] == pieces[i];
    }
  }

  // ---- Projecting a span -----------------------------------------------------------------------

  predicate Overlaps(seg: Segment, start: nat, end: nat) {
    seg.outStart < end && seg.outStart + seg.len > start
  }

  /** Position `at` of the text is position `from` of the source. */
  predicate ComesFrom(segments: seq<Segment>, at: nat, from: int) {
    exists k :: 0 <= k < |segments| && segments[k].outStart <= at < segments[k].outStart + segments[k].len
                && from == segments[k].srcStart + (at - segments[k].outStart)
  }

  /** The range copies this position of the source. */
  ghost predicate CopiesFrom(segments: seq<Segment>, start: nat, end: nat, from: int) {
    exists at: nat :: start <= at < end && ComesFrom(segments, at, from)
  }

  /** The least stretch of the source that holds everything the range copies. */
  ghost predicate Projects(segments: seq<Segment>, start: nat, end: nat, a: int, b: int) {
    && (forall at: nat, from: int :: start <= at < end && ComesFrom(segments, at, from) ==> a <= from < b)
    && CopiesFrom(segments, start, end, a)
    && CopiesFrom(segments, start, end, b - 1)
  }

  /** Map a range of the text to the least range of the source that covers every copied byte in
      it; refuse exactly when it copies nothing. */
  method ProjectSpan(segments: seq<Segment>, start: nat, end: nat, ghost source: string, ghost text: string)
    returns (span: Option<(nat, nat)>)
    requires Faithful(source, text, segments)
    ensures span.None? <==> forall at: nat, from: int :: start <= at < end ==> !ComesFrom(segments, at, from)
    ensures span.Some? ==> span.value.0 < span.value.1 <= |source|
    ensures span.Some? ==> Projects(segments, start, end, span.value.0, span.value.1)
  {
    hide Copy, ComesFrom;
    Shape(source, text, segments);
    if start >= end { return None; }
    var first := 0;
    while first < |segments| && !Overlaps(segments[first], start, end)
      invariant 0 <= first <= |segments|
      invariant forall k :: 0 <= k < first ==> !Overlaps(segments[k], start, end)
    {
      first := first + 1;
    }
    if first == |segments| {
      NothingCopied(segments, start, end);
      return None;
    }
    var last := |segments| - 1;
    while !Overlaps(segments[last], start, end)
      invariant first <= last < |segments|
      invariant forall k :: last < k < |segments| ==> !Overlaps(segments[k], start, end)
      decreases last
    {
      last := last - 1;
    }
    var f, l := segments[first], segments[last];
    var a := f.srcStart + (if start > f.outStart then start - f.outStart else 0);
    var upto := if end < l.outStart + l.len then end else l.outStart + l.len;
    var b := l.srcStart + (upto - l.outStart);
    EndsProject(segments, start, end, first, last, a, b, source, text);
    span := Some((a, b));
  }

  lemma Shape(source: string, text: string, segments: seq<Segment>)
    requires Faithful(source, text, segments)
    ensures forall k :: 0 <= k < |segments| ==>
              0 < segments[k].len && segments[k].srcStart + segments[k].len <= |source|
  {
  }

  lemma NothingCopied(segments: seq<Segment>, start: nat, end: nat)
    requires forall k :: 0 <= k < |segments| ==> !Overlaps(segments[k], start, end)
    ensures forall at: nat, from: int :: start <= at < end ==> !ComesFrom(segments, at, from)
  {
  }

  lemma EndsProject(segments: seq<Segment>, start: nat, end: nat, first: nat, last: nat, a: nat, b: nat,
                    source: string, text: string)
    requires Faithful(source, text, segments) && start < end && first <= last < |segments|
    requires Overlaps(segments[first], start, end) && Overlaps(segments[last], start, end)
    requires forall k :: 0 <= k < first ==> !Overlaps(segments[k], start, end)
    requires forall k :: last < k < |segments| ==> !Overlaps(segments[k], start, end)
    requires a == segments[first].srcStart
                  + (if start > segments[first].outStart then start - segments[first].outStart else 0)
    requires var l := segments[last];
             b == l.srcStart + ((if end < l.outStart + l.len then end else l.outStart + l.len) - l.outStart)
    ensures Projects(segments, start, end, a, b) && a < b <= |source|
    ensures exists at: nat, from: int :: start <= at < end && ComesFrom(segments, at, from)
  {
    var low, high := OutermostBytes(segments, start, end, first, last, a, b, source, text);
    hide ComesFrom, Copy, Faithful;
    forall at: nat, from: int | start <= at < end && ComesFrom(segments, at, from)
      ensures a <= from < b
    {
      WithinEnds(segments, start, end, first, last, a, b, at, from, source, text);
    }
  }

  /** The first and the last byte of the span that are copies. */
  lemma OutermostBytes(segments: seq<Segment>, start: nat, end: nat, first: nat, last: nat, a: nat, b: nat,
                       source: string, text: string) returns (low: nat, high: nat)
    requires Faithful(source, text, segments) && start < end && first <= last < |segments|
    requires Overlaps(segments[first], start, end) && Overlaps(segments[last], start, end)
    requires a == segments[first].srcStart
                  + (if start > segments[first].outStart then start - segments[first].outStart else 0)
    requires var l := segments[last];
             b == l.srcStart + ((if end < l.outStart + l.len then end else l.outStart + l.len) - l.outStart)
    ensures start <= low < end && ComesFrom(segments, low, a)
    ensures start <= high < end && b > 0 && ComesFrom(segments, high, b - 1) && b <= |source|
  {
    Shape(source, text, segments);
    hide Copy, Faithful;
    var f, l := segments[first], segments[last];
    low := if start > f.outStart then start else f.outStart;
    high := (if end < l.outStart + l.len then end else l.outStart + l.len) - 1;
  }

  lemma WithinEnds(segments: seq<Segment>, start: nat, end: nat, first: nat, last: nat, a: nat, b: nat, at: nat,
                   from: int,
                   source: string, text: string)
    requires Faithful(source, text, segments) && first <= last < |segments|
    requires Overlaps(segments[first], start, end) && Overlaps(segments[last], start, end)
    requires forall k :: 0 <= k < first ==> !Overlaps(segments[k], start, end)
    requires forall k :: last < k < |segments| ==> !Overlaps(segments[k], start, end)
    requires a == segments[first].srcStart
                  + (if start > segments[first].outStart then start - segments[first].outStart else 0)
    requires var l := segments[last];
             b == l.srcStart + ((if end < l.outStart + l.len then end else l.outStart + l.len) - l.outStart)
    requires start <= at < end && ComesFrom(segments, at, from)
    ensures a <= from < b
  {
    Apart(source, text, segments);
    hide Copy, Faithful, ComesFrom;
    var k := SegmentAt(segments, at, from);
    assert Overlaps(segments[k], start, end);
    assert first <= k <= last;
  }

  lemma SegmentAt(segments: seq<Segment>, at: nat, from: int) returns (k: nat)
    requires ComesFrom(segments, at, from)
    ensures k < |segments| && segments[k].outStart <= at < segments[k].outStart + segments[k].len
    ensures from == segments[k].srcStart + (at - segments[k].outStart)
  {
    k :| 0 <= k < |segments| && segments[k].outStart <= at < segments[k].outStart + segments[k].len
         && from == segments[k].srcStart + (at - segments[k].outStart);
  }

  lemma Apart(source: string, text: string, segments: seq<Segment>)
    requires Faithful(source, text, segments)
    ensures forall k, l :: 0 <= k < l < |segments| ==>
              && segments[k].outStart + segments[k].len <= segments[l].outStart
              && segments[k].srcStart + segments[k].len <= segments[l].srcStart
  {
    hide Copy;
  }

  /** Inside one segment the projection is exact: the same text, byte for byte. */
  lemma WithinOneSegment(segments: seq<Segment>, start: nat, end: nat, a: nat, b: nat, k: nat, source: string,
                         text: string)
    requires Faithful(source, text, segments) && Projects(segments, start, end, a, b) && a < b <= |source|
    requires k < |segments| && segments[k].outStart <= start < end <= segments[k].outStart + segments[k].len
    ensures end <= |text| && source[a..b] == text[start..end]
  {
    hide Copy, Faithful, CopiesFrom;
    var seg := segments[k];
    FaithfulAt(source, text, segments, k);
    var from := seg.srcStart + (start - seg.outStart);
    var upto := seg.srcStart + (end - 1 - seg.outStart);
    assert ComesFrom(segments, start, from) && ComesFrom(segments, end - 1, upto);
    OnlyFrom(segments, start, end, k, a, source, text);
    OnlyFrom(segments, start, end, k, b - 1, source, text);
    assert a == from && b == upto + 1;
    CopySlice(source, text, seg, start, end);
  }

  lemma FaithfulAt(source: string, text: string, segments: seq<Segment>, k: nat)
    requires Faithful(source, text, segments) && k < |segments|
    ensures Copy(source, text, segments[k])
    ensures segments[k].outStart + segments[k].len <= |text|
  {
  }

  lemma OnlyFrom(segments: seq<Segment>, start: nat, end: nat, k: nat, from: int, source: string, text: string)
    requires Faithful(source, text, segments)
    requires k < |segments| && segments[k].outStart <= start < end <= segments[k].outStart + segments[k].len
    requires CopiesFrom(segments, start, end, from)
    ensures segments[k].srcStart + (start - segments[k].outStart) <= from
    ensures from <= segments[k].srcStart + (end - 1 - segments[k].outStart)
  {
    hide Copy, Faithful, ComesFrom;
    var at: nat :| start <= at < end && ComesFrom(segments, at, from);
    var l := SegmentAt(segments, at, from);
    Apart(source, text, segments);
    assert l == k;
  }

  lemma CopySlice(source: string, text: string, seg: Segment, start: nat, end: nat)
    requires Copy(source, text, seg) && seg.outStart <= start < end <= seg.outStart + seg.len
    ensures source[seg.srcStart + (start - seg.outStart)..seg.srcStart + (end - seg.outStart)] == text[start..end]
  {
    var i, j := start - seg.outStart, end - seg.outStart;
    SliceOfSlice(text, seg.outStart, seg.len, i, j);
    SliceOfSlice(source, seg.srcStart, seg.len, i, j);
  }

  lemma SliceOfSlice(s: string, o: nat, n: nat, i: nat, j: nat)
    requires o + n <= |s| && i <= j <= n
    ensures s[o..o + n][i..j] == s[o + i..o + j]
  {
    var x, y := s[o..o + n][i..j], s[o + i..o + j];
    forall m | 0 <= m < |x| ensures x[m] == y[m] {
      assert x[m] == s[o..o + n][i + m];
    }
  }

  // ---- Nothing but whitespace is lost ------------------------------------------------------------

  /** Whitespace as Unicode has it. */
  predicate White(c: char) {
    var n := c as int;
    || 9 <= n <= 13 || n == 32 || n == 0x85 || n == 0xA0 || n == 0x1680
    || 0x2000 <= n <= 0x200A || n in {0x2028, 0x2029, 0x202F, 0x205F, 0x3000}
  }

  function Ink(text: string): string {
    if text == "" then ""
    else Ink(text[..|text| - 1]) + (if White(text[|text| - 1]) then "" else [text[|text| - 1]])
  }

  lemma {:induction false} InkConcat(a: string, b: string)
    ensures Ink(a + b) == Ink(a) + Ink(b)
  {
    if b == "" {
      assert a + b == a;
    } else {
      InkConcat(a, b[..|b| - 1]);
      assert (a + b)[..|a + b| - 1] == a + b[..|b| - 1];
      Assoc(Ink(a), Ink(b[..|b| - 1]), if White(b[|b| - 1]) then "" else [b[|b| - 1]]);
    }
  }

  lemma {:induction false} WhiteHasNoInk(text: string)
    requires forall i :: 0 <= i < |text| ==> White(text[i])
    ensures Ink(text) == ""
  {
    if text != "" { WhiteHasNoInk(text[..|text| - 1]); }
  }

  /** What the leaf walk checks before joining: every byte outside the tokens is whitespace. */
  predicate Covered(source: string, tokens: seq<Token>)
    requires Laid(source, tokens)
  {
    forall i :: 0 <= i < |source| && !White(source[i]) ==>
      exists k :: 0 <= k < |tokens| && tokens[k].start <= i < tokens[k].end
  }

  /** Between kept tokens, and behind the last, a covered source is blank. */
  lemma BlankBetween(source: string, tokens: seq<Token>, n: nat, from: nat, upto: nat)
    requires Laid(source, tokens) && Covered(source, tokens) && n <= |tokens|
    requires from == (if n == 0 then 0 else tokens[n - 1].end)
    requires from <= upto <= |source| && (n < |tokens| ==> upto <= tokens[n].start)
    ensures Ink(source[from..upto]) == ""
  {
    forall i | 0 <= i < |source[from..upto]|
      ensures White(source[from..upto][i])
    {
      var at := from + i;
      assert source[from..upto][i] == source[at];
      assert forall k :: 0 <= k < n ==> tokens[k].end <= from;
      assert forall k :: n <= k < |tokens| ==> upto <= tokens[k].start;
    }
    WhiteHasNoInk(source[from..upto]);
  }

  /** Separators that carry no ink: all but the semicolons of Go and the scripts. */
  lemma SeparatorHasNoInk(lang: Lang, source: string, tokens: seq<Token>, i: nat, keepComments: bool,
                          letter: char -> bool)
    requires Laid(source, tokens) && i < |tokens| && (lang.Rust? || lang.Python?)
    ensures var sep := SeparatorAt(lang, source, tokens, i, keepComments, letter);
            sep.Some? ==> sep.value.Synthetic? && Ink(sep.value.text) == ""
  {
    var sep := SeparatorAt(lang, source, tokens, i, keepComments, letter);
    hide Ink, LevelIn, LastKept;
    if sep.Some? {
      assert sep.value.Synthetic?;
      WhiteHasNoInk(sep.value.text);
    }
  }

  lemma {:induction false} InkSoFar(lang: Lang, source: string, tokens: seq<Token>, n: nat, letter: char -> bool)
    requires Laid(source, tokens) && Covered(source, tokens) && n <= |tokens| && (lang.Rust? || lang.Python?)
    ensures InOrder(source, Pieces(lang, source, tokens, n, true, letter))
    ensures Ink(JoinedText(source, Pieces(lang, source, tokens, n, true, letter)))
         == Ink(source[..if n == 0 then 0 else tokens[n - 1].end])
  {
    hide *;
    PiecesInOrder(lang, source, tokens, n, true, letter);
    if n == 0 {
      NothingJoined(lang, source, tokens, true, letter);
      assert source[..0] == "";
    } else {
      var before, tok := Pieces(lang, source, tokens, n - 1, true, letter), tokens[n - 1];
      var from := if n == 1 then 0 else tokens[n - 2].end;
      LaidAt(source, tokens, n - 1);
      InkSoFar(lang, source, tokens, n - 1, letter);
      PiecesInOrder(lang, source, tokens, n - 1, true, letter);
      PiecesStep(lang, source, tokens, n - 1, true, letter);
      TokenAdds(lang, source, tokens, n - 1, true, letter, before);
      SeparatorHasNoInk(lang, source, tokens, n - 1, true, letter);
      SeparatorText(source, SeparatorAt(lang, source, tokens, n - 1, true, letter));
      BlankBetween(source, tokens, n - 1, from, tok.start);
      InkStep(JoinedText(source, before), SepText(source, SeparatorAt(lang, source, tokens, n - 1, true, letter)),
              source, from, tok.start, tok.end);
      AllKept(source, tok);
    }
  }

  lemma LaidAt(source: string, tokens: seq<Token>, i: nat)
    requires Laid(source, tokens) && i < |tokens|
    ensures tokens[i].start < tokens[i].end <= |source| && (i > 0 ==> tokens[i - 1].end <= tokens[i].start)
  {
  }

  lemma AllKept(source: string, tok: Token)
    requires tok.start <= tok.end <= |source|
    ensures Keeps(tok, true) && Text(source, tok) == source[tok.start..tok.end]
  {
  }

  lemma SeparatorText(source: string, sep: Option<Sep>)
    requires sep.Some? ==> sep.value.Synthetic? && Ink(sep.value.text) == ""
    ensures Ink(SepText(source, sep)) == ""
  {
    hide Ink;
    NoInkAtAll();
  }

  lemma InkStep(joined: string, sep: string, source: string, from: nat, start: nat, end: nat)
    requires from <= start <= end <= |source|
    requires Ink(joined) == Ink(source[..from]) && Ink(sep) == "" && Ink(source[from..start]) == ""
    ensures Ink(joined + sep + source[start..end]) == Ink(source[..end])
  {
    hide Ink;
    InkConcat(joined + sep, source[start..end]);
    InkConcat(joined, sep);
    assert source[..end] == source[..from] + source[from..start] + source[start..end];
    InkConcat(source[..from] + source[from..start], source[start..end]);
    InkConcat(source[..from], source[from..start]);
  }

  lemma NoInkAtAll()
    ensures Ink("") == ""
  {
  }

  /** With comments kept, minifying Rust or Python changes whitespace and nothing else. */
  lemma OnlyWhitespaceChanges(lang: Lang, source: string, tokens: seq<Token>, letter: char -> bool)
    requires Laid(source, tokens) && Covered(source, tokens) && (lang.Rust? || lang.Python?)
    ensures InOrder(source, Pieces(lang, source, tokens, |tokens|, true, letter))
    ensures Ink(JoinedText(source, Pieces(lang, source, tokens, |tokens|, true, letter))) == Ink(source)
  {
    hide Pieces, JoinedText, InOrder, Ink, Covered;
    InkSoFar(lang, source, tokens, |tokens|, letter);
    var end := if tokens == [] then 0 else tokens[|tokens| - 1].end;
    BlankBetween(source, tokens, |tokens|, end, |source|);
    assert source == source[..end] + source[end..|source|];
    InkConcat(source[..end], source[end..|source|]);
  }
}
