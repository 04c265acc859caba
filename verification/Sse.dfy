/** Splitting a server-sent event stream as it arrives: where its boundary falls on any bytes;
    that however a stream is cut, the events are those of the whole, as long as the boundary is
    right; and that they are those of the standard up to two kinds of line. */
module Sse {
  import Items

  newtype Byte = x: int | 0 <= x < 256

  type Bytes = seq<Byte>

  const LF: Byte := 10
  const CR: Byte := 13
  const SPACE: Byte := 32
  const COLON: Byte := 58
  const DATA: Bytes := [100, 97, 116, 97]
  const MARK: Bytes := [0xEF, 0xBB, 0xBF]

  // ---- Lines and events ---------------------------------------------------------------

  /** Index of the first line feed, or the length. */
  function LineEnd(buf: Bytes): (k: nat)
    ensures k <= |buf|
    ensures k < |buf| ==> buf[k] == LF
    ensures forall i :: 0 <= i < k ==> buf[i] != LF
  {
    if buf == [] || buf[0] == LF then 0 else 1 + LineEnd(buf[1..])
  }

  function TrimCr(line: Bytes): Bytes {
    if line != [] && line[|line| - 1] == CR then TrimCr(line[..|line| - 1]) else line
  }

  /** The data lines a line adds: its value, less one leading space, if it is a `data:` line. */
  function DataOf(line: Bytes): seq<Bytes> {
    if DATA + [COLON] <= line then
      var rest := line[5..];
      [if rest != [] && rest[0] == SPACE then rest[1..] else rest]
    else []
  }

  function Join(data: seq<Bytes>): Bytes {
    if data == [] then [] else if |data| == 1 then data[0] else data[0] + [LF] + Join(data[1..])
  }

  function Dispatch(data: seq<Bytes>): seq<Bytes> {
    if data == [] then [] else [Join(data)]
  }

  /** The complete lines of a stream, carriage returns trimmed. */
  function Lines(buf: Bytes): seq<Bytes>
    decreases |buf|
  {
    var k := LineEnd(buf);
    if k == |buf| then [] else [TrimCr(buf[..k])] + Lines(buf[k + 1..])
  }

  /** What the lines deliver, with `data` pending: a blank line ends the event. */
  function Interpret(lines: seq<Bytes>, data: seq<Bytes>): seq<Bytes>
    decreases |lines|
  {
    if lines == [] then []
    else if lines[0] == [] then Dispatch(data) + Interpret(lines[1..], [])
    else Interpret(lines[1..], data + DataOf(lines[0]))
  }

  function Events(buf: Bytes): seq<Bytes> {
    Interpret(Lines(buf), [])
  }

  /** How far the last blank line reaches, or zero. */
  function Consumed(buf: Bytes): (n: nat)
    ensures n <= |buf|
    decreases |buf|
  {
    var k := LineEnd(buf);
    if k == |buf| then 0
    else
      var rest := Consumed(buf[k + 1..]);
      if rest > 0 || TrimCr(buf[..k]) == [] then k + 1 + rest else 0
  }

  // ---- Splitting a buffer -----------------------------------------------------------------

  method FindLf(buf: Bytes, pos: nat) returns (end: nat)
    requires pos <= |buf|
    ensures end == pos + LineEnd(buf[pos..])
  {
    end := pos;
    while end < |buf| && buf[end] != LF
      invariant pos <= end <= |buf|
      invariant pos + LineEnd(buf[pos..]) == end + LineEnd(buf[end..])
    {
      assert buf[end..][1..] == buf[end + 1..];
      end := end + 1;
    }
  }

  method TrimEnd(line: Bytes) returns (trimmed: Bytes)
    ensures trimmed == TrimCr(line)
  {
    trimmed := line;
    while trimmed != [] && trimmed[|trimmed| - 1] == CR
      invariant TrimCr(trimmed) == TrimCr(line)
      decreases |trimmed|
    {
      trimmed := trimmed[..|trimmed| - 1];
    }
  }

  /** The complete events of a text and the bytes they take; a trailing partial event stays. */
  method SplitText(buf: Bytes) returns (events: seq<Bytes>, consumed: nat)
    ensures events == Events(buf) && consumed == Consumed(buf)
  {
    hide *;
    EventsIs(buf);
    events, consumed := [], 0;
    var data: seq<Bytes> := [];
    var pos := 0;
    assert buf[0..] == buf;
    while true
      invariant consumed <= pos <= |buf|
      invariant Events(buf) == events + Interpret(Lines(buf[pos..]), data)
      invariant Consumed(buf) == if Consumed(buf[pos..]) > 0 then pos + Consumed(buf[pos..]) else consumed
      decreases |buf| - pos
    {
      var end := FindLf(buf, pos);
      if end == |buf| { break; }
      LineStep(buf, pos, end, data);
      var line := TrimEnd(buf[pos..end]);
      if line == [] {
        if data != [] {
          events := events + [Join(data)];
          data := [];
        }
        consumed := end + 1;
      } else {
        data := data + DataOf(line);
      }
      pos := end + 1;
    }
    NothingLeft(buf, pos, data);
    assert events + [] == events;
  }

  lemma EventsIs(buf: Bytes)
    ensures Events(buf) == Interpret(Lines(buf), [])
  {
    hide Interpret, Lines;
  }

  /** One line of the loop: a blank one delivers what is pending and is consumed, a `data:` one
      adds to it, and any other is passed over. */
  lemma LineStep(buf: Bytes, pos: nat, end: nat, data: seq<Bytes>)
    requires pos <= |buf| && end == pos + LineEnd(buf[pos..]) < |buf|
    ensures var line, later := TrimCr(buf[pos..end]), Lines(buf[end + 1..]);
            forall events: seq<Bytes> ::
              events + Interpret(Lines(buf[pos..]), data)
              == if line == [] then (if data == [] then events else events + [Join(data)]) + Interpret(later, [])
                 else events + Interpret(later, data + DataOf(line))
    ensures var line, later := TrimCr(buf[pos..end]), Consumed(buf[end + 1..]);
            Consumed(buf[pos..]) == if later > 0 || line == [] then end + 1 - pos + later else 0
  {
    hide LineEnd, TrimCr, Join, DataOf;
    var rest := buf[pos..];
    assert rest[..LineEnd(rest)] == buf[pos..end];
    assert rest[LineEnd(rest) + 1..] == buf[end + 1..];
    var line, later := TrimCr(buf[pos..end]), Lines(buf[end + 1..]);
    assert Lines(rest) == [line] + later;
    assert ([line] + later)[1..] == later;
    forall events: seq<Bytes>
      ensures line == [] ==> events + Interpret(Lines(rest), data)
                             == (if data == [] then events else events + [Join(data)]) + Interpret(later, [])
    {
      assert events + (Dispatch(data) + Interpret(later, [])) == events + Dispatch(data) + Interpret(later, []);
      assert events + [] == events;
    }
  }

  lemma NothingLeft(buf: Bytes, pos: nat, data: seq<Bytes>)
    requires pos <= |buf| && pos + LineEnd(buf[pos..]) == |buf|
    ensures Interpret(Lines(buf[pos..]), data) == [] && Consumed(buf[pos..]) == 0
  {
  }

  // ---- Decoding --------------------------------------------------------------------------------

  const REPLACEMENT: Bytes := [0xEF, 0xBF, 0xBD]

  predicate Within(buf: Bytes, i: nat, low: Byte, high: Byte) {
    i < |buf| && low <= buf[i] <= high
  }

  predicate Continues(buf: Bytes, i: nat) {
    Within(buf, i, 0x80, 0xBF)
  }

  /** What a lead byte makes of the byte behind it. */
  predicate SecondOk(buf: Bytes)
    requires buf != []
  {
    var lead := buf[0];
    if lead == 0xE0 then Within(buf, 1, 0xA0, 0xBF)
    else if lead == 0xED then Within(buf, 1, 0x80, 0x9F)
    else if lead == 0xF0 then Within(buf, 1, 0x90, 0xBF)
    else if lead == 0xF4 then Within(buf, 1, 0x80, 0x8F)
    else Continues(buf, 1)
  }

  /** How long the character at the front is meant to be; zero for a byte that starts none. */
  function LeadLen(lead: Byte): nat {
    if lead < 0x80 then 1 else if lead < 0xC2 then 0 else if lead < 0xE0 then 2 else if lead < 0xF0 then 3
    else if lead < 0xF5 then 4 else 0
  }

  /** How much of it is there: the character whole, or its longest beginning. */
  function CharLen(buf: Bytes): (n: nat)
    requires buf != []
    ensures 0 < n <= |buf|
  {
    var want := LeadLen(buf[0]);
    if want <= 1 || !SecondOk(buf) then 1
    else if want == 2 || !Continues(buf, 2) then 2
    else if want == 3 || !Continues(buf, 3) then 3
    else 4
  }

  predicate CharOk(buf: Bytes)
    requires buf != []
  {
    CharLen(buf) == LeadLen(buf[0])
  }

  /** Well-formed UTF-8. */
  predicate WellFormed(buf: Bytes)
    decreases |buf|
  {
    buf == [] || (CharOk(buf) && WellFormed(buf[CharLen(buf)..]))
  }

  /** The text of a buffer: each ill-formed stretch becomes one replacement character. */
  function Lossy(buf: Bytes): Bytes
    decreases |buf|
  {
    if buf == [] then []
    else (if CharOk(buf) then buf[..CharLen(buf)] else REPLACEMENT) + Lossy(buf[CharLen(buf)..])
  }

  method Decode(buf: Bytes) returns (text: Bytes)
    ensures text == Lossy(buf)
  {
    hide *;
    NothingLossy([]);
    text := [];
    var pos := 0;
    assert buf[0..] == buf;
    assert [] + Lossy(buf) == Lossy(buf);
    while pos < |buf|
      invariant pos <= |buf|
      invariant text + Lossy(buf[pos..]) == Lossy(buf)
      decreases |buf| - pos
    {
      var rest := buf[pos..];
      var n := CharLen(rest);
      var next := if CharOk(rest) then rest[..n] else REPLACEMENT;
      assert rest[n..] == buf[pos + n..];
      LossyStep(rest, next);
      assert text + (next + Lossy(buf[pos + n..])) == text + next + Lossy(buf[pos + n..]);
      text := text + next;
      pos := pos + n;
    }
    assert buf[pos..] == [];
    assert text + [] == text;
  }

  lemma LossyStep(buf: Bytes, next: Bytes)
    requires buf != [] && next == if CharOk(buf) then buf[..CharLen(buf)] else REPLACEMENT
    ensures Lossy(buf) == next + Lossy(buf[CharLen(buf)..])
  {
    hide CharLen, CharOk;
  }

  /** How many bytes the text's events take, as many as there are. */
  function Dropped(buf: Bytes): (n: nat)
    ensures n <= |buf|
  {
    if Consumed(Lossy(buf)) <= |buf| then Consumed(Lossy(buf)) else |buf|
  }

  /** The complete events of a buffer's text, and how many of the buffer's bytes to drop: as many
      as the text's events take. */
  method SplitSse(buf: Bytes) returns (events: seq<Bytes>, consumed: nat)
    ensures events == Events(Lossy(buf)) && consumed == Dropped(buf)
  {
    hide Lossy, Consumed, Events;
    var text := Decode(buf);
    events, consumed := SplitText(text);
    if consumed > |buf| { consumed := |buf|; }
  }

  // ---- Where the boundary falls ------------------------------------------------------------

  /** Every ill-formed stretch is as long as what replaces it. */
  predicate ThreeByte(buf: Bytes)
    decreases |buf|
  {
    buf == [] || ((CharOk(buf) || CharLen(buf) == |REPLACEMENT|) && ThreeByte(buf[CharLen(buf)..]))
  }

  lemma IllFormedIsShort(buf: Bytes)
    requires buf != [] && !CharOk(buf)
    ensures CharLen(buf) <= 3
  {
  }

  /** Decoding never shrinks a buffer. */
  lemma {:induction false} LossyNeverShrinks(buf: Bytes)
    ensures |buf| <= |Lossy(buf)|
    ensures |buf| == |Lossy(buf)| <==> ThreeByte(buf)
    decreases |buf|
  {
    if buf != [] {
      if !CharOk(buf) { IllFormedIsShort(buf); }
      hide CharLen, CharOk;
      LossyNeverShrinks(buf[CharLen(buf)..]);
    }
  }

  /** A line feed ends whatever character is unfinished in front of it. */
  lemma CharAtFeed(a: Bytes, b: Bytes)
    requires a != []
    ensures var all := a + [LF] + b;
            && CharLen(all) == CharLen(a) && CharOk(all) == CharOk(a)
            && all[..CharLen(a)] == a[..CharLen(a)] && all[CharLen(a)..] == a[CharLen(a)..] + [LF] + b
  {
    CutBeforeFeed(a, b, CharLen(a));
    var all := a + [LF] + b;
    assert all[0] == a[0];
    assert |a| > 1 ==> all[1] == a[1];
    assert |a| > 2 ==> all[2] == a[2];
    assert |a| > 3 ==> all[3] == a[3];
    assert all[|a|] == LF;
  }

  lemma CutBeforeFeed(a: Bytes, b: Bytes, n: nat)
    requires n <= |a|
    ensures var all := a + [LF] + b; all[..n] == a[..n] && all[n..] == a[n..] + [LF] + b
  {
  }

  lemma LossyFeed(b: Bytes)
    ensures Lossy([LF] + b) == [LF] + Lossy(b)
  {
    var all := [LF] + b;
    assert CharLen(all) == 1 && CharOk(all) && all[1..] == b && all[..1] == [LF];
  }

  /** Decoding goes line by line. */
  lemma {:induction false} LossyAtFeed(a: Bytes, b: Bytes)
    ensures Lossy(a + [LF] + b) == Lossy(a) + [LF] + Lossy(b)
    decreases |a|
  {
    hide *;
    NothingLossy([]);
    if a == [] {
      assert a + [LF] + b == [LF] + b;
      LossyFeed(b);
      assert [] + [LF] + Lossy(b) == [LF] + Lossy(b);
    } else {
      var next, rest := if CharOk(a) then a[..CharLen(a)] else REPLACEMENT, a[CharLen(a)..];
      CharAtFeed(a, b);
      LossyStep(a, next);
      LossyStep(a + [LF] + b, next);
      LossyAtFeed(rest, b);
      assert next + (Lossy(rest) + [LF] + Lossy(b)) == next + Lossy(rest) + [LF] + Lossy(b);
    }
  }

  lemma {:induction false} LossyKeepsFeedless(buf: Bytes)
    requires LF !in buf
    ensures LF !in Lossy(buf)
    decreases |buf|
  {
    if buf != [] {
      var next, rest := if CharOk(buf) then buf[..CharLen(buf)] else REPLACEMENT, buf[CharLen(buf)..];
      LossyStep(buf, next);
      NoFeedInReplacement();
      hide *;
      LossyKeepsFeedless(rest);
    }
  }

  predicate AllCr(line: Bytes) {
    forall i :: 0 <= i < |line| ==> line[i] == CR
  }

  lemma {:induction false} TrimsToNothing(line: Bytes)
    ensures TrimCr(line) == [] <==> AllCr(line)
    decreases |line|
  {
    if line != [] && line[|line| - 1] == CR {
      var front := line[..|line| - 1];
      TrimsToNothing(front);
      assert forall i :: 0 <= i < |line| ==> line[i] == if i < |front| then front[i] else CR;
    }
  }

  /** A line decodes to carriage returns only if it is nothing else. */
  lemma {:induction false} LossyCr(line: Bytes)
    ensures AllCr(Lossy(line)) <==> AllCr(line)
    decreases |line|
  {
    if line != [] {
      var n := CharLen(line);
      var next, rest := if CharOk(line) then line[..n] else REPLACEMENT, line[n..];
      LossyStep(line, next);
      LossyCr(rest);
      FirstCr(line, next);
      hide Lossy, CharLen, CharOk;
      AllCrConcat(next, Lossy(rest));
      AllCrConcat(line[..n], rest);
      assert line == line[..n] + rest;
    }
  }

  lemma FirstCr(line: Bytes, next: Bytes)
    requires line != [] && next == if CharOk(line) then line[..CharLen(line)] else REPLACEMENT
    ensures AllCr(next) <==> AllCr(line[..CharLen(line)])
  {
    assert REPLACEMENT[0] != CR;
    if !CharOk(line) { assert line[..CharLen(line)][0] == line[0] != CR; }
  }

  lemma AllCrConcat(a: Bytes, b: Bytes)
    ensures AllCr(a + b) <==> AllCr(a) && AllCr(b)
  {
    var all := a + b;
    assert forall i :: 0 <= i < |a| ==> all[i] == a[i];
    assert forall i :: 0 <= i < |b| ==> all[|a| + i] == b[i];
  }

  lemma LineSplits(buf: Bytes)
    requires LineEnd(buf) < |buf|
    ensures var k := LineEnd(buf); LF !in buf[..k] && buf == buf[..k] + [LF] + buf[k + 1..]
  {
    hide *;
    var k := LineEnd(buf);
    NotBefore(buf, k);
    CutAt(buf, k);
  }

  lemma NotBefore(buf: Bytes, k: nat)
    requires k <= |buf| && forall i :: 0 <= i < k ==> buf[i] != LF
    ensures LF !in buf[..k]
  {
  }

  lemma CutAt(buf: Bytes, k: nat)
    requires k < |buf|
    ensures buf == buf[..k] + [buf[k]] + buf[k + 1..]
  {
  }

  lemma LineEndBehind(line: Bytes, rest: Bytes)
    requires LF !in line
    ensures var all := line + [LF] + rest;
            LineEnd(all) == |line| < |all| && all[..|line|] == line && all[|line| + 1..] == rest
  {
    var all := line + [LF] + rest;
    LineEndIs(all, |line|);
    assert all[..|line|] == line && all[|line| + 1..] == rest;
  }

  lemma NoLine(buf: Bytes)
    ensures LineEnd(buf) == |buf| <==> LF !in buf
  {
    hide LineEnd;
  }

  /** The text's events take what the bytes up to the last blank line decode to. */
  lemma {:induction false} BoundaryOfText(buf: Bytes)
    ensures Consumed(Lossy(buf)) == |Lossy(buf[..Consumed(buf)])|
    decreases |buf|
  {
    hide *;
    var k := LineEnd(buf);
    LinesStep(buf);
    NoLine(buf);
    NothingLossy([]);
    if k == |buf| {
      LossyKeepsFeedless(buf);
      NoLine(Lossy(buf));
      LinesStep(Lossy(buf));
      assert buf[..0] == [];
    } else {
      var line, rest := buf[..k], buf[k + 1..];
      var c := Consumed(rest);
      LineSplits(buf);
      LossyKeepsFeedless(line);
      LossyAtFeed(line, rest);
      LineEndBehind(Lossy(line), Lossy(rest));
      LinesStep(Lossy(buf));
      TrimsToNothing(line);
      TrimsToNothing(Lossy(line));
      LossyCr(line);
      BoundaryOfText(rest);
      LossyNeverShrinks(rest[..c]);
      assert rest[..0] == [] && buf[..0] == [];
      if c > 0 || TrimCr(line) == [] {
        LossyAtFeed(line, rest[..c]);
        assert buf[..k + 1 + c] == line + [LF] + rest[..c];
      }
    }
  }

  /** On any bytes: the boundary never falls before the last blank line. It falls right behind
      it exactly when nothing is behind it or every ill-formed stretch before it is three bytes
      long, as long as the replacement character; otherwise it falls later. */
  lemma BoundaryExactly(buf: Bytes)
    ensures Consumed(buf) <= Dropped(buf)
    ensures Dropped(buf) == Consumed(buf) <==> Consumed(buf) == |buf| || ThreeByte(buf[..Consumed(buf)])
  {
    hide *;
    BoundaryOfText(buf);
    LossyNeverShrinks(buf[..Consumed(buf)]);
    DroppedIs(buf);
  }

  lemma DroppedIs(buf: Bytes)
    ensures Dropped(buf) == if Consumed(Lossy(buf)) <= |buf| then Consumed(Lossy(buf)) else |buf|
  {
    hide Consumed, Lossy;
  }

  /** No byte of a longer character is a line feed. */
  lemma CharHasNoFeed(buf: Bytes, i: nat)
    requires buf != [] && CharOk(buf) && i < CharLen(buf) && CharLen(buf) > 1
    ensures buf[i] != LF
  {
  }

  /** A character's front decides it, whatever follows. */
  lemma CharKept(buf: Bytes, rest: Bytes)
    requires buf != [] && CharOk(buf + rest)
    ensures CharLen(buf + rest) <= |buf| ==> CharLen(buf) == CharLen(buf + rest) && CharOk(buf)
    ensures CharLen(buf + rest) > |buf| ==> CharLen(buf) == |buf| && !CharOk(buf) && LF !in buf
  {
    var all := buf + rest;
    assert all[0] == buf[0];
    assert forall i :: 0 <= i < |buf| ==> all[i] == buf[i];
    if CharLen(all) > |buf| {
      forall i: nat | i < |buf| ensures buf[i] != LF { CharHasNoFeed(all, i); }
    }
  }

  /** What has arrived of a well-formed stream is decoded as it stands, up to a character still
      cut short, which holds no line feed. */
  lemma {:induction false} Arrived(buf: Bytes, rest: Bytes) returns (whole: Bytes, cut: Bytes)
    requires WellFormed(buf + rest)
    ensures buf == whole + cut && LF !in cut
    ensures Lossy(buf) == whole + (if cut == [] then [] else REPLACEMENT)
    decreases |buf|
  {
    if buf == [] {
      whole, cut := [], [];
    } else {
      CharKept(buf, rest);
      var n, next := CharLen(buf), if CharOk(buf) then buf[..CharLen(buf)] else REPLACEMENT;
      LossyStep(buf, next);
      FormedStep(buf + rest);
      hide *;
      Split(buf, rest, n);
      if CharLen(buf + rest) <= |buf| {
        var w, c := Arrived(buf[n..], rest);
        Items.Assoc(next, w, c);
        Items.Assoc(next, w, if c == [] then [] else REPLACEMENT);
        whole, cut := next + w, c;
      } else {
        whole, cut := [], buf;
        NothingLossy(next);
      }
    }
  }

  lemma FormedStep(buf: Bytes)
    requires WellFormed(buf) && buf != []
    ensures CharOk(buf) && WellFormed(buf[CharLen(buf)..])
  {
    hide CharLen, CharOk;
  }

  lemma Split(buf: Bytes, rest: Bytes, n: nat)
    requires n <= |buf|
    ensures buf == buf[..n] + buf[n..] && (buf + rest)[n..] == buf[n..] + rest
    ensures n == |buf| ==> buf[n..] == []
    ensures [] + buf == buf
  {
  }

  lemma NothingLossy(next: Bytes)
    ensures Lossy([]) == [] && next + [] == next && [] + next == next
  {
  }

  lemma {:induction false} UnfinishedLine(buf: Bytes, more: Bytes)
    requires LF !in more
    ensures Lines(buf + more) == Lines(buf) && Consumed(buf + more) == Consumed(buf)
    decreases |buf|
  {
    hide *;
    LineEndStays(buf, more);
    LinesStep(buf);
    LinesStep(buf + more);
    if LineEnd(buf) < |buf| {
      LineEndKept(buf, more);
      UnfinishedLine(buf[LineEnd(buf) + 1..], more);
    }
  }

  lemma LineEndStays(buf: Bytes, more: Bytes)
    requires LF !in more
    ensures LineEnd(buf) == |buf| ==> LineEnd(buf + more) == |buf + more|
    ensures LineEnd(buf) < |buf| ==> LineEnd(buf + more) < |buf + more|
  {
    hide LineEnd;
    var all := buf + more;
    if LineEnd(buf) < |buf| {
      LineEndKept(buf, more);
    } else {
      assert forall i :: 0 <= i < |all| ==> all[i] == if i < |buf| then buf[i] else more[i - |buf|];
    }
  }

  lemma LinesStep(buf: Bytes)
    ensures LineEnd(buf) == |buf| ==> Lines(buf) == [] && Consumed(buf) == 0
    ensures LineEnd(buf) < |buf| ==>
              var line, rest := TrimCr(buf[..LineEnd(buf)]), buf[LineEnd(buf) + 1..];
              && Lines(buf) == [line] + Lines(rest)
              && Consumed(buf) == if Consumed(rest) > 0 || line == [] then LineEnd(buf) + 1 + Consumed(rest) else 0
  {
    hide LineEnd, TrimCr;
  }

  /** So splitting what has arrived of a well-formed stream never notices the decoding. */
  lemma LossyIsHarmless(buf: Bytes, rest: Bytes)
    requires WellFormed(buf + rest)
    ensures Events(Lossy(buf)) == Events(buf) && Consumed(Lossy(buf)) == Consumed(buf)
  {
    hide *;
    var whole, cut := Arrived(buf, rest);
    NoFeedInReplacement();
    UnfinishedLine(whole, cut);
    UnfinishedLine(whole, REPLACEMENT);
    assert whole + [] == whole;
    EventsIs(buf);
    EventsIs(whole);
    EventsIs(Lossy(buf));
  }

  lemma NoFeedInReplacement()
    ensures LF !in REPLACEMENT
  {
  }

  /** Behind a line feed a well-formed stream is well-formed again. */
  lemma {:induction false} WellFormedBehindFeed(buf: Bytes, c: nat)
    requires WellFormed(buf) && 0 < c <= |buf| && buf[c - 1] == LF
    ensures WellFormed(buf[c..])
    decreases |buf|
  {
    var n := CharLen(buf);
    if n > 1 && c <= n { CharHasNoFeed(buf, c - 1); }
    hide CharLen, CharOk;
    if c == n {
      assert buf[c..] == buf[n..];
    } else {
      WellFormedBehindFeed(buf[n..], c - n);
      assert buf[n..][c - n..] == buf[c..];
    }
  }

  lemma {:induction false} ConsumedEndsOnFeed(buf: Bytes)
    ensures Consumed(buf) > 0 ==> buf[Consumed(buf) - 1] == LF
    decreases |buf|
  {
    hide TrimCr;
    var k := LineEnd(buf);
    if k < |buf| { ConsumedEndsOnFeed(buf[k + 1..]); }
  }

  lemma PendingWellFormed(stream: Bytes, rest: Bytes)
    requires WellFormed(stream + rest)
    ensures WellFormed(Pending(stream) + rest)
  {
    hide Consumed, WellFormed;
    var c := Consumed(stream);
    ConsumedEndsOnFeed(stream);
    assert Pending(stream) + rest == (stream + rest)[c..];
    if c > 0 {
      WellFormedBehindFeed(stream + rest, c);
    } else {
      assert (stream + rest)[0..] == stream + rest;
    }
  }

  // ---- Any chunks ------------------------------------------------------------------------------

  lemma LineEndKept(a: Bytes, b: Bytes)
    requires LineEnd(a) < |a|
    ensures LineEnd(a + b) == LineEnd(a)
    ensures (a + b)[..LineEnd(a)] == a[..LineEnd(a)]
    ensures (a + b)[LineEnd(a) + 1..] == a[LineEnd(a) + 1..] + b
  {
    var k := LineEnd(a);
    assert (a + b)[k] == LF;
    assert forall i :: 0 <= i < k ==> (a + b)[i] == a[i];
    assert (a + b)[k + 1..] == a[k + 1..] + b;
  }

  /** What was split off stays split off; the rest is split again with what follows it. */
  lemma {:induction false} SplitExtends(a: Bytes, b: Bytes, data: seq<Bytes>)
    ensures var c := Consumed(a);
            && Interpret(Lines(a + b), data)
               == Interpret(Lines(a), data) + Interpret(Lines(a[c..] + b), if c == 0 then data else [])
            && Consumed(a + b) == c + Consumed(a[c..] + b)
            && (c == 0 ==> Interpret(Lines(a), data) == [])
    decreases |a|
  {
    hide Interpret, Lines, Consumed, TrimCr, DataOf, LineEnd, Join;
    var k := LineEnd(a);
    var all := a + b;
    assert a[0..] == a;
    Whole(a, data);
    assert [] + Interpret(Lines(a + b), data) == Interpret(Lines(a + b), data);
    if k < |a| {
      var rest, line := a[k + 1..], TrimCr(a[..k]);
      LineEndKept(a, b);
      Whole(all, data);
      var next := if line == [] then [] else data + DataOf(line);
      SplitExtends(rest, b, next);
      var c := Consumed(rest);
      assert c > 0 || line == [] ==> a[k + 1 + c..] == rest[c..];
      if line == [] {
        Concat3(Dispatch(data), Interpret(Lines(rest), []), Interpret(Lines(rest[c..] + b), []));
      }
    }
  }

  lemma Concat3(a: seq<Bytes>, b: seq<Bytes>, c: seq<Bytes>)
    ensures a + (b + c) == a + b + c
  {
  }

  /** The first line of a buffer, seen by the splitter. */
  lemma Whole(buf: Bytes, data: seq<Bytes>)
    ensures LineEnd(buf) == |buf| ==> Interpret(Lines(buf), data) == [] && Consumed(buf) == 0
    ensures LineEnd(buf) < |buf| ==>
              var line, rest := TrimCr(buf[..LineEnd(buf)]), buf[LineEnd(buf) + 1..];
              && Interpret(Lines(buf), data)
                 == (if line == [] then Dispatch(data) + Interpret(Lines(rest), [])
                     else Interpret(Lines(rest), data + DataOf(line)))
              && Consumed(buf) == if Consumed(rest) > 0 || line == [] then LineEnd(buf) + 1 + Consumed(rest) else 0
  {
    hide TrimCr, DataOf, Dispatch;
    if LineEnd(buf) < |buf| {
      var line, later := TrimCr(buf[..LineEnd(buf)]), Lines(buf[LineEnd(buf) + 1..]);
      assert ([line] + later)[1..] == later;
    }
  }

  function Stream(chunks: seq<Bytes>): Bytes {
    if chunks == [] then [] else Stream(chunks[..|chunks| - 1]) + chunks[|chunks| - 1]
  }

  /** The bytes of a stream behind its last complete event. */
  function Pending(stream: Bytes): Bytes {
    stream[Consumed(stream)..]
  }

  /** Chunk `k` does not fit behind what is pending when it arrives. */
  predicate Overflows(chunks: seq<Bytes>, k: nat, cap: nat)
    requires k < |chunks|
  {
    |Pending(Stream(chunks[..k]))| + |chunks[k]| > cap
  }

  lemma ArrivalStep(stream: Bytes, chunk: Bytes)
    ensures var buf := Pending(stream) + chunk;
            && Events(stream + chunk) == Events(stream) + Events(buf)
            && Pending(stream + chunk) == buf[Consumed(buf)..]
  {
    hide Interpret, Lines, Consumed;
    SplitExtends(stream, chunk, []);
    var c, buf := Consumed(stream), Pending(stream) + chunk;
    assert (stream + chunk)[c..] == buf;
    assert (stream + chunk)[c + Consumed(buf)..] == (stream + chunk)[c..][Consumed(buf)..];
  }

  lemma StreamSnoc(chunks: seq<Bytes>, i: nat)
    requires i < |chunks|
    ensures Stream(chunks[..i + 1]) == Stream(chunks[..i]) + chunks[i]
  {
    assert chunks[..i + 1][..i] == chunks[..i];
  }

  lemma NothingYet()
    ensures Events([]) == [] && Pending([]) == [] && Stream([]) == []
  {
  }

  /** All of the stream from chunk `i` on. */
  lemma {:induction false} StreamTail(chunks: seq<Bytes>, i: nat) returns (rest: Bytes)
    requires i <= |chunks|
    ensures Stream(chunks) == Stream(chunks[..i]) + rest
    decreases |chunks|
  {
    if i == |chunks| {
      rest := [];
      assert chunks[..i] == chunks;
    } else {
      var front, last := chunks[..|chunks| - 1], chunks[|chunks| - 1];
      rest := StreamTail(front, i);
      assert front[..i] == chunks[..i];
      assert Stream(front) + last == Stream(chunks[..i]) + (rest + last);
      rest := rest + last;
    }
  }

  /** What the splitter sees when chunk `k` has come. */
  function Buffered(chunks: seq<Bytes>, k: nat): Bytes
    requires k < |chunks|
  {
    Pending(Stream(chunks[..k])) + chunks[k]
  }

  /** At every chunk the boundary falls right behind the last blank line. */
  predicate Bounded(chunks: seq<Bytes>) {
    forall k :: 0 <= k < |chunks| ==> Dropped(Buffered(chunks, k)) == Consumed(Buffered(chunks, k))
  }

  /** Well-formed streams are bounded, wherever they are cut. */
  lemma WellFormedIsBounded(chunks: seq<Bytes>)
    requires WellFormed(Stream(chunks))
    ensures Bounded(chunks)
    ensures forall k :: 0 <= k <= |chunks| ==> Events(Lossy(Stream(chunks[..k]))) == Events(Stream(chunks[..k]))
  {
    forall k | 0 <= k < |chunks|
      ensures Dropped(Buffered(chunks, k)) == Consumed(Buffered(chunks, k))
    {
      ChunkIsHarmless(chunks, k);
    }
    hide *;
    forall k | 0 <= k <= |chunks|
      ensures Events(Lossy(Stream(chunks[..k]))) == Events(Stream(chunks[..k]))
    {
      var rest := StreamTail(chunks, k);
      LossyIsHarmless(Stream(chunks[..k]), rest);
    }
    BoundedIs(chunks);
  }

  lemma BoundedIs(chunks: seq<Bytes>)
    ensures Bounded(chunks) <==>
              forall k :: 0 <= k < |chunks| ==> Dropped(Buffered(chunks, k)) == Consumed(Buffered(chunks, k))
  {
    hide Dropped, Buffered, Consumed;
  }

  lemma ChunkIsHarmless(chunks: seq<Bytes>, k: nat)
    requires k < |chunks| && WellFormed(Stream(chunks))
    ensures Dropped(Buffered(chunks, k)) == Consumed(Buffered(chunks, k))
  {
    hide *;
    var rest := StreamTail(chunks, k + 1);
    var before := Stream(chunks[..k]);
    StreamSnoc(chunks, k);
    BufferedIs(chunks, k);
    assert before + chunks[k] + rest == before + (chunks[k] + rest);
    PendingWellFormed(before, chunks[k] + rest);
    assert Pending(before) + (chunks[k] + rest) == Pending(before) + chunks[k] + rest;
    LossyIsHarmless(Pending(before) + chunks[k], rest);
    DroppedIs(Buffered(chunks, k));
  }

  lemma BufferedIs(chunks: seq<Bytes>, k: nat)
    requires k < |chunks|
    ensures Buffered(chunks, k) == Pending(Stream(chunks[..k])) + chunks[k]
  {
    hide Pending, Stream;
  }

  /** The events of a stream's text are those of the text up to its last blank line. */
  lemma PendingIsSilent(stream: Bytes)
    ensures var c := Consumed(stream);
            && Events(Lossy(stream)) == Events(Lossy(stream[..c]))
            && stream == stream[..c] + Pending(stream)
  {
    hide *;
    PendingIs(stream);
    NothingPending(stream);
    TextSplits(stream, Pending(stream));
    SilentTail(Pending(stream));
    assert Events(Lossy(stream[..Consumed(stream)])) + [] == Events(Lossy(stream[..Consumed(stream)]));
  }

  lemma PendingIs(stream: Bytes)
    ensures Pending(stream) == stream[Consumed(stream)..]
    ensures stream == stream[..Consumed(stream)] + Pending(stream)
  {
    hide Consumed;
  }

  lemma SilentTail(tail: Bytes)
    requires Consumed(tail) == 0
    ensures Events(Lossy(tail)) == []
  {
    hide *;
    BoundaryOfText(tail);
    NothingLossy([]);
    assert tail[..0] == [];
    SplitExtends(Lossy(tail), [], []);
    EventsIs(Lossy(tail));
  }

  /** Nothing complete is pending. */
  lemma NothingPending(stream: Bytes)
    ensures Consumed(Pending(stream)) == 0
    ensures Consumed(stream[..Consumed(stream)]) == Consumed(stream)
  {
    hide *;
    PendingIs(stream);
    SplitExtends(stream, [], []);
    assert stream + [] == stream && Pending(stream) + [] == Pending(stream);
    PrefixIsWhole(stream);
  }

  lemma {:induction false} PrefixIsWhole(stream: Bytes)
    ensures Consumed(stream[..Consumed(stream)]) == Consumed(stream)
    decreases |stream|
  {
    hide *;
    LinesStep(stream);
    var k := LineEnd(stream);
    NothingFinished();
    assert stream[..0] == [];
    if k < |stream| {
      var line, rest := stream[..k], stream[k + 1..];
      PrefixIsWhole(rest);
      var c := Consumed(rest);
      assert rest[..0] == [];
      if c > 0 || TrimCr(line) == [] {
        LineSplits(stream);
        LineEndBehind(line, rest[..c]);
        assert stream[..k + 1 + c] == line + [LF] + rest[..c];
        LinesStep(line + [LF] + rest[..c]);
      }
    }
  }

  /** What is behind a stream's last blank line is decoded, and delivers, on its own. */
  lemma TextSplits(stream: Bytes, more: Bytes)
    ensures var c := Consumed(stream);
            Events(Lossy(stream[..c] + more)) == Events(Lossy(stream[..c])) + Events(Lossy(more))
  {
    hide *;
    var c := Consumed(stream);
    var done := stream[..c];
    NothingLossy([]);
    if c == 0 {
      assert done == [] && done + more == more;
      NothingFinished();
      assert [] + Events(Lossy(more)) == Events(Lossy(more));
    } else {
      ConsumedEndsOnFeed(stream);
      assert done == stream[..c - 1] + [LF] + [];
      assert done + more == stream[..c - 1] + [LF] + more;
      LossyAtFeed(stream[..c - 1], []);
      LossyAtFeed(stream[..c - 1], more);
      assert Lossy(stream[..c - 1]) + [LF] + [] == Lossy(stream[..c - 1]) + [LF];
      PrefixIsWhole(stream);
      BoundaryOfText(done);
      assert done[..c] == done;
      var text := Lossy(done);
      SplitExtends(text, Lossy(more), []);
      assert text[|text|..] + Lossy(more) == Lossy(more);
      EventsIs(text + Lossy(more));
      EventsIs(text);
      EventsIs(Lossy(more));
    }
  }

  /** What a chunk leaves of the buffer, and delivers, where the boundary falls right. */
  lemma ChunkArrives(chunks: seq<Bytes>, i: nat)
    requires i < |chunks| && Dropped(Buffered(chunks, i)) == Consumed(Buffered(chunks, i))
    ensures var buf := Buffered(chunks, i);
            && buf == Pending(Stream(chunks[..i])) + chunks[i]
            && Events(Lossy(Stream(chunks[..i + 1]))) == Events(Lossy(Stream(chunks[..i]))) + Events(Lossy(buf))
            && Pending(Stream(chunks[..i + 1])) == buf[Dropped(buf)..]
  {
    hide *;
    var before, buf := Stream(chunks[..i]), Buffered(chunks, i);
    StreamSnoc(chunks, i);
    BufferedIs(chunks, i);
    ArrivalStep(before, chunks[i]);
    PendingIsSilent(before);
    TextSplits(before, buf);
    assert before[..Consumed(before)] + (Pending(before) + chunks[i]) == before + chunks[i];
  }

  /** Deliver every event of a body as its chunks arrive. However a stream is cut, in the middle
      of a character or not, exactly the events of the whole stream's text are delivered, in
      order, as long as the boundary falls right at every chunk, as it always does on well-formed
      UTF-8; the loop gives up exactly at the first chunk that overflows the buffer, having
      delivered exactly what came before it. */
  method ForwardSse(chunks: seq<Bytes>, cap: nat) returns (delivered: seq<Bytes>, died: Items.Option<nat>)
    ensures WellFormed(Stream(chunks)) ==> Bounded(chunks)
    ensures Bounded(chunks) && died.None? ==> delivered == Events(Lossy(Stream(chunks)))
    ensures WellFormed(Stream(chunks)) && died.None? ==> delivered == Events(Stream(chunks))
    ensures Bounded(chunks) ==>
              (died.None? <==> forall k :: 0 <= k < |chunks| ==> !Overflows(chunks, k, cap))
    ensures Bounded(chunks) && died.Some? ==>
              var k := died.value;
              && k < |chunks| && Overflows(chunks, k, cap)
              && (forall j :: 0 <= j < k ==> !Overflows(chunks, j, cap))
              && delivered == Events(Lossy(Stream(chunks[..k])))
              && (WellFormed(Stream(chunks)) ==> delivered == Events(Stream(chunks[..k])))
    ensures died.None? || died.value < |chunks|
  {
    hide Events, Pending, Stream, Consumed, Lossy, WellFormed, Bounded, Buffered, Dropped;
    if WellFormed(Stream(chunks)) { WellFormedIsBounded(chunks); }
    BoundedIs(chunks);
    NothingYet();
    NothingLossy([]);
    delivered := [];
    var buf: Bytes := [];
    assert chunks[..0] == [];
    for i := 0 to |chunks|
      invariant Bounded(chunks) ==>
                  && delivered == Events(Lossy(Stream(chunks[..i])))
                  && buf == Pending(Stream(chunks[..i]))
                  && forall j :: 0 <= j < i ==> !Overflows(chunks, j, cap)
    {
      if Bounded(chunks) { ChunkArrives(chunks, i); }
      buf := buf + chunks[i];
      if |buf| > cap {
        assert Bounded(chunks) ==> Overflows(chunks, i, cap);
        return delivered, Items.Some(i);
      }
      var events, consumed := SplitSse(buf);
      buf := buf[consumed..];
      delivered := delivered + events;
    }
    assert chunks[..|chunks|] == chunks;
    died := Items.None;
  }

  /** A byte that is no UTF-8, a blank line, and the first letters of a `data` field. */
  const SPOILED: Bytes := [0xFF, LF, LF, 100, 97]

  /** The rest of the field, and the blank line that ends its event. */
  const REST_OF_FIELD: Bytes := [116, 97, COLON, 120, LF, LF]

  /** An ill-formed byte grows as it is decoded, so the bytes dropped with it are more than its
      events took: of the field cut in two behind it nothing is left to deliver. */
  lemma SpoiledByteSwallows()
    ensures Events(Lossy(SPOILED + REST_OF_FIELD)) == [[120]]
    ensures Events(Lossy(SPOILED)) == [] && Consumed(Lossy(SPOILED)) == |SPOILED|
    ensures Events(Lossy(REST_OF_FIELD)) == []
  {
    hide *;
    var field := Field();
    SpoiledIs(field);
    SpoiledText(field.0);
    SpoiledText(field.1);
    SpoiledEvents(field.0);
    SpoiledEvents(field.1);
    PlainText(REST_OF_FIELD);
    FieldEvents(field.0, field.1);
  }

  /** The letters that arrive first, and the whole field with its blank line. */
  function Field(): (Bytes, Bytes) {
    (DATA[..2], DATA + [COLON, 120, LF, LF])
  }

  lemma SpoiledIs(field: (Bytes, Bytes))
    requires field == Field()
    ensures SPOILED == [0xFF, LF, LF] + field.0 && SPOILED + REST_OF_FIELD == [0xFF, LF, LF] + field.1
    ensures |SPOILED| == 5
    ensures forall i :: 0 <= i < |field.0| ==> field.0[i] < 0x80
    ensures forall i :: 0 <= i < |field.1| ==> field.1[i] < 0x80
    ensures forall i :: 0 <= i < |REST_OF_FIELD| ==> REST_OF_FIELD[i] < 0x80
  {
  }

  lemma {:induction false} PlainText(text: Bytes)
    requires forall i :: 0 <= i < |text| ==> text[i] < 0x80
    ensures Lossy(text) == text
  {
    if text != [] {
      PlainText(text[1..]);
      assert CharLen(text) == 1 && CharOk(text);
      assert text == text[..1] + text[1..];
    }
  }

  lemma SpoiledText(tail: Bytes)
    requires forall i :: 0 <= i < |tail| ==> tail[i] < 0x80
    ensures Lossy([0xFF, LF, LF] + tail) == REPLACEMENT + ([LF, LF] + tail)
  {
    hide *;
    SpoiledChar(tail);
    PlainText([LF, LF] + tail);
    LossyStep([0xFF, LF, LF] + tail, REPLACEMENT);
  }

  lemma SpoiledChar(tail: Bytes)
    requires forall i :: 0 <= i < |tail| ==> tail[i] < 0x80
    ensures var all := [0xFF, LF, LF] + tail;
            CharLen(all) == 1 && !CharOk(all) && all[1..] == [LF, LF] + tail
    ensures var rest := [LF, LF] + tail; forall i :: 0 <= i < |rest| ==> rest[i] < 0x80
  {
  }

  lemma SpoiledEvents(tail: Bytes)
    ensures var text := REPLACEMENT + ([LF, LF] + tail);
            Events(text) == Events(tail) && Consumed(text) == 5 + Consumed(tail)
  {
    hide LineEnd, TrimCr, Lines, Interpret, Consumed, Join, DataOf;
    var text := REPLACEMENT + ([LF, LF] + tail);
    LineEndIs(text, 3);
    LineEndIs([LF] + tail, 0);
    assert text[..3] == REPLACEMENT && text[4..] == [LF] + tail;
    assert ([LF] + tail)[..0] == [] && ([LF] + tail)[1..] == tail;
    Whole(text, []);
    Whole([LF] + tail, []);
    ReplacementIsPassed();
    assert [] + DataOf(REPLACEMENT) == [];
    assert [] + Interpret(Lines(tail), []) == Interpret(Lines(tail), []);
  }

  lemma ReplacementIsPassed()
    ensures TrimCr(REPLACEMENT) == REPLACEMENT != [] && DataOf(REPLACEMENT) == []
    ensures TrimCr([]) == [] && Dispatch([]) == []
  {
    assert (DATA + [COLON])[0] != REPLACEMENT[0];
  }

  lemma FieldEvents(letters: Bytes, field: Bytes)
    requires (letters, field) == Field()
    ensures Events(letters) == [] && Consumed(letters) == 0
    ensures Events(field) == [[120]] && Events(REST_OF_FIELD) == []
  {
    hide Lines, Interpret, Consumed, DataOf;
    UnfinishedLine([], letters);
    assert [] + letters == letters;
    NothingFinished();
    var line: Bytes := DATA + [COLON, 120];
    assert line + [LF, LF] == field && REST_OF_FIELD[..4] + [LF, LF] == REST_OF_FIELD;
    TwoLines(line);
    TwoLines(REST_OF_FIELD[..4]);
    OneInterpreted(line);
    OneInterpreted(REST_OF_FIELD[..4]);
    FieldData(line);
  }

  lemma NothingFinished()
    ensures Events([]) == [] && Consumed([]) == 0
  {
  }

  lemma FieldData(line: Bytes)
    requires line == DATA + [COLON, 120]
    ensures Dispatch(DataOf(line)) == [[120]] && Dispatch(DataOf(REST_OF_FIELD[..4])) == []
  {
    assert line[..5] == DATA + [COLON] && line[5..] == [120];
    assert DataOf(line) == [[120]];
    assert REST_OF_FIELD[..4][0] != DATA[0] && (DATA + [COLON])[0] == DATA[0];
  }

  // ---- The standard ---------------------------------------------------------------------------

  // "Interpreting an event stream", section 9.2.6 of the WHATWG HTML standard, for streams
  // whose line ends are LF or CRLF. The stream is decoded first, and decoding takes one leading
  // byte order mark off.

  predicate Marked(buf: Bytes) {
    MARK <= buf
  }

  /** The stream the standard parses. */
  function Body(buf: Bytes): Bytes {
    if Marked(buf) then buf[|MARK|..] else buf
  }

  function DropCr(line: Bytes): Bytes {
    if line != [] && line[|line| - 1] == CR then line[..|line| - 1] else line
  }

  function StandardLines(buf: Bytes): seq<Bytes>
    decreases |buf|
  {
    var k := LineEnd(buf);
    if k == |buf| then [] else [DropCr(buf[..k])] + StandardLines(buf[k + 1..])
  }

  function Colon(line: Bytes): (k: nat)
    ensures k <= |line|
    ensures k < |line| ==> line[k] == COLON
    ensures forall i :: 0 <= i < k ==> line[i] != COLON
  {
    if line == [] || line[0] == COLON then 0 else 1 + Colon(line[1..])
  }

  function FieldName(line: Bytes): Bytes {
    line[..Colon(line)]
  }

  /** What follows the colon, less one leading space; nothing if there is no colon. */
  function FieldValue(line: Bytes): Bytes {
    if Colon(line) == |line| then []
    else
      var value := line[Colon(line) + 1..];
      if value != [] && value[0] == SPACE then value[1..] else value
  }

  /** Lines against the data buffer: a `data` field appends its value and a line feed, and a
      blank line dispatches the buffer, less its last line feed, unless it is empty. */
  function StandardInterpret(lines: seq<Bytes>, buffer: Bytes): seq<Bytes>
    decreases |lines|
  {
    if lines == [] then []
    else if lines[0] == [] then
      (if buffer == [] then [] else [buffer[..|buffer| - 1]]) + StandardInterpret(lines[1..], [])
    else
      var more := if FieldName(lines[0]) == DATA then buffer + FieldValue(lines[0]) + [LF] else buffer;
      StandardInterpret(lines[1..], more)
  }

  function StandardEvents(buf: Bytes): seq<Bytes> {
    StandardInterpret(StandardLines(Body(buf)), [])
  }

  /** Carriage returns only as part of a CRLF. */
  predicate PlainCr(buf: Bytes) {
    forall i :: 0 <= i < |buf| && buf[i] == CR ==> i + 1 < |buf| && buf[i + 1] == LF
  }

  lemma {:induction false} LinesAreStandard(buf: Bytes)
    requires PlainCr(buf)
    ensures Lines(buf) == StandardLines(buf)
    decreases |buf|
  {
    hide *;
    LinesStep(buf);
    StandardStep(buf);
    var k := LineEnd(buf);
    if k < |buf| {
      LineSplits(buf);
      PlainLine(buf, k);
      LinesAreStandard(buf[k + 1..]);
    }
  }

  lemma StandardStep(buf: Bytes)
    ensures LineEnd(buf) == |buf| ==> StandardLines(buf) == []
    ensures LineEnd(buf) < |buf| ==>
              StandardLines(buf) == [DropCr(buf[..LineEnd(buf)])] + StandardLines(buf[LineEnd(buf) + 1..])
  {
    hide LineEnd, DropCr;
  }

  /** A line of such a stream has at most the one carriage return at its end. */
  lemma PlainLine(buf: Bytes, k: nat)
    requires PlainCr(buf) && k < |buf| && LF !in buf[..k]
    ensures TrimCr(buf[..k]) == DropCr(buf[..k]) && PlainCr(buf[k + 1..])
  {
    hide TrimCr;
    var line, rest := buf[..k], buf[k + 1..];
    assert forall i :: 0 <= i < |rest| ==> rest[i] == buf[k + 1 + i];
    assert forall i :: 0 <= i < k ==> line[i] == buf[i] && buf[i] != LF;
    forall i | 0 <= i < k - 1
      ensures buf[i] != CR
    {
      assert line[i + 1] == buf[i + 1];
    }
    TrimStep(line);
    if line != [] && line[k - 1] == CR { TrimStep(line[..k - 1]); }
  }

  lemma TrimStep(line: Bytes)
    ensures TrimCr(line) == if line != [] && line[|line| - 1] == CR then TrimCr(line[..|line| - 1]) else line
  {
  }

  /** A `data` line with no colon: the standard reads an empty value, the splitter nothing. */
  function StandardData(line: Bytes): seq<Bytes> {
    if FieldName(line) == DATA then [FieldValue(line)] else []
  }

  lemma {:induction false} ColonAt(line: Bytes, k: nat)
    requires k < |line| && line[k] == COLON && forall i :: 0 <= i < k ==> line[i] != COLON
    ensures Colon(line) == k
  {
    if k > 0 { ColonAt(line[1..], k - 1); }
  }

  lemma DataPrefix(line: Bytes)
    ensures DATA + [COLON] <= line <==> Colon(line) < |line| && FieldName(line) == DATA
  {
    hide Colon;
    if DATA + [COLON] <= line { DataLine(line); }
    if Colon(line) < |line| && FieldName(line) == DATA {
      assert line[..5] == line[..4] + [line[4]];
    }
  }

  lemma DataLine(line: Bytes)
    requires DATA + [COLON] <= line
    ensures Colon(line) == 4 && line[..4] == DATA
  {
    hide Colon;
    assert forall i :: 0 <= i < 5 ==> line[i] == (DATA + [COLON])[i];
    ColonAt(line, 4);
    assert line[..4] == DATA;
  }

  lemma StandardDataIs(line: Bytes)
    ensures StandardData(line) == if line == DATA then [[]] else DataOf(line)
  {
    DataPrefix(line);
    assert line[..|line|] == line;
    if line == DATA { NoColon(line); }
  }

  lemma NoColon(line: Bytes)
    requires line == DATA
    ensures FieldName(line) == DATA && Colon(line) == |line|
  {
    assert line[..Colon(line)] == line;
  }

  /** The standard's buffer for a list of values. */
  function Buffer(data: seq<Bytes>): Bytes {
    if data == [] then [] else Buffer(data[..|data| - 1]) + data[|data| - 1] + [LF]
  }

  lemma {:induction false} BufferIsJoin(data: seq<Bytes>)
    requires data != []
    ensures Buffer(data) == Join(data) + [LF]
    decreases |data|
  {
    if |data| == 1 {
      assert data[..0] == [];
      assert Buffer(data) == [] + data[0] + [LF];
    } else {
      BufferIsJoin(data[..|data| - 1]);
      JoinSnoc(data[..|data| - 1], data[|data| - 1]);
      assert data == data[..|data| - 1] + [data[|data| - 1]];
    }
  }

  lemma {:induction false} JoinSnoc(data: seq<Bytes>, last: Bytes)
    requires data != []
    ensures Join(data + [last]) == Join(data) + [LF] + last
  {
    if |data| == 1 {
      assert (data + [last])[1..] == [last];
    } else {
      JoinSnoc(data[1..], last);
      assert (data + [last])[1..] == data[1..] + [last];
    }
  }

  /** The standard in terms of the values pending. */
  function InterpretStandard(lines: seq<Bytes>, data: seq<Bytes>): seq<Bytes>
    decreases |lines|
  {
    if lines == [] then []
    else if lines[0] == [] then Dispatch(data) + InterpretStandard(lines[1..], [])
    else InterpretStandard(lines[1..], data + StandardData(lines[0]))
  }

  lemma {:induction false} StandardIs(lines: seq<Bytes>, data: seq<Bytes>)
    ensures StandardInterpret(lines, Buffer(data)) == InterpretStandard(lines, data)
    decreases |lines|
  {
    hide FieldName, FieldValue, Join;
    if lines != [] {
      var rest := lines[1..];
      if lines[0] == [] {
        StandardIs(rest, []);
        if data != [] {
          BufferIsJoin(data);
          assert Buffer(data)[..|Buffer(data)| - 1] == Join(data);
        }
      } else {
        StandardIs(rest, data + StandardData(lines[0]));
        if FieldName(lines[0]) == DATA {
          BufferSnoc(data, FieldValue(lines[0]));
        } else {
          assert data + [] == data;
        }
      }
    }
  }

  lemma BufferSnoc(data: seq<Bytes>, value: Bytes)
    ensures Buffer(data + [value]) == Buffer(data) + value + [LF]
  {
    assert (data + [value])[..|data|] == data;
  }

  // ---- Where the splitter leaves the standard ----------------------------------------------------

  /** Data lines without a colon in the events delivered, `pending` of them not yet. */
  function BareCount(lines: seq<Bytes>, pending: nat): nat
    decreases |lines|
  {
    if lines == [] then 0
    else if lines[0] == [] then pending + BareCount(lines[1..], 0)
    else BareCount(lines[1..], pending + (if lines[0] == DATA then 1 else 0))
  }

  predicate BareData(lines: seq<Bytes>) {
    exists i, j :: 0 <= i < j < |lines| && lines[i] == DATA && lines[j] == []
  }

  predicate HasBlank(lines: seq<Bytes>) {
    exists j :: 0 <= j < |lines| && lines[j] == []
  }

  lemma {:induction false} BareCountMeans(lines: seq<Bytes>, pending: nat)
    ensures BareCount(lines, pending) > 0 <==> BareData(lines) || (pending > 0 && HasBlank(lines))
    decreases |lines|
  {
    if lines != [] {
      var first, rest := lines[0], lines[1..];
      BareCountMeans(rest, if first == [] then 0 else pending + (if first == DATA then 1 else 0));
      assert forall i :: 0 <= i < |rest| ==> rest[i] == lines[i + 1];
      hide BareCount;
      BareCons(first, rest);
      assert lines == [first] + rest;
    }
  }

  lemma BareCons(first: Bytes, rest: seq<Bytes>)
    ensures HasBlank([first] + rest) <==> first == [] || HasBlank(rest)
    ensures BareData([first] + rest) <==> BareData(rest) || (first == DATA && HasBlank(rest))
  {
    var lines := [first] + rest;
    assert forall i :: 0 < i < |lines| ==> lines[i] == rest[i - 1];
    if HasBlank(lines) && first != [] {
      var j :| 0 <= j < |lines| && lines[j] == [];
      assert rest[j - 1] == [];
    }
    if first == [] { assert lines[0] == []; }
    if HasBlank(rest) {
      var j :| 0 <= j < |rest| && rest[j] == [];
      assert lines[j + 1] == [];
      if first == DATA { assert lines[0] == DATA; }
    }
    if BareData(rest) {
      var i, j :| 0 <= i < j < |rest| && rest[i] == DATA && rest[j] == [];
      assert lines[i + 1] == DATA && lines[j + 1] == [];
    }
  }

  function LineFeeds(text: Bytes): nat {
    if text == [] then 0 else LineFeeds(text[..|text| - 1]) + (if text[|text| - 1] == LF then 1 else 0)
  }

  lemma {:induction false} LineFeedsConcat(a: Bytes, b: Bytes)
    ensures LineFeeds(a + b) == LineFeeds(a) + LineFeeds(b)
    decreases |b|
  {
    if b == [] {
      assert a + b == a;
    } else {
      LineFeedsConcat(a, b[..|b| - 1]);
      assert (a + b)[..|a + b| - 1] == a + b[..|b| - 1];
    }
  }

  /** How many data lines a list of events was made of, when no value holds a line feed. */
  function Weight(events: seq<Bytes>): nat {
    if events == [] then 0 else 1 + LineFeeds(events[0]) + Weight(events[1..])
  }

  lemma {:induction false} WeightConcat(a: seq<Bytes>, b: seq<Bytes>)
    ensures Weight(a + b) == Weight(a) + Weight(b)
  {
    if a == [] {
      assert a + b == b;
    } else {
      WeightConcat(a[1..], b);
      assert (a + b)[1..] == a[1..] + b;
    }
  }

  predicate NoFeeds(data: seq<Bytes>) {
    forall i :: 0 <= i < |data| ==> LineFeeds(data[i]) == 0
  }

  lemma {:induction false} JoinFeeds(data: seq<Bytes>)
    requires data != [] && NoFeeds(data)
    ensures LineFeeds(Join(data)) == |data| - 1
    decreases |data|
  {
    if |data| > 1 {
      JoinFeeds(data[1..]);
      LineFeedsConcat(data[0] + [LF], Join(data[1..]));
      LineFeedsConcat(data[0], [LF]);
      assert [LF][..0] == [];
      assert LineFeeds([LF]) == 1;
    }
  }

  lemma DispatchWeight(data: seq<Bytes>)
    requires NoFeeds(data)
    ensures Weight(Dispatch(data)) == |data|
  {
    if data != [] {
      JoinFeeds(data);
      assert Dispatch(data)[1..] == [];
    }
  }

  lemma {:induction false} SliceFeeds(text: Bytes, i: nat, j: nat)
    requires i <= j <= |text| && LineFeeds(text) == 0
    ensures LineFeeds(text[i..j]) == 0
  {
    assert text == text[..i] + text[i..j] + text[j..];
    LineFeedsConcat(text[..i] + text[i..j], text[j..]);
    LineFeedsConcat(text[..i], text[i..j]);
  }

  lemma DataFeeds(line: Bytes)
    requires LineFeeds(line) == 0
    ensures NoFeeds(DataOf(line)) && NoFeeds(StandardData(line))
    ensures |StandardData(line)| == |DataOf(line)| + (if line == DATA then 1 else 0)
  {
    hide StandardData, LineFeeds;
    StandardDataIs(line);
    FeedsNone();
    if DATA + [COLON] <= line {
      SliceFeeds(line, 5, |line|);
      assert line[5..|line|] == line[5..];
      if |line| > 5 {
        SliceFeeds(line, 6, |line|);
        assert line[6..|line|] == line[5..][1..];
      }
    }
  }

  lemma FeedsNone()
    ensures LineFeeds([]) == 0
  {
  }

  lemma NoFeedsConcat(a: seq<Bytes>, b: seq<Bytes>)
    requires NoFeeds(a) && NoFeeds(b)
    ensures NoFeeds(a + b)
  {
  }

  /** Every bare data line delivered adds one line to the standard's events. */
  lemma {:induction false} StandardWeighsMore(lines: seq<Bytes>, mine: seq<Bytes>, theirs: seq<Bytes>)
    requires NoFeeds(lines) && NoFeeds(mine) && NoFeeds(theirs) && |mine| <= |theirs|
    ensures Weight(InterpretStandard(lines, theirs))
         == Weight(Interpret(lines, mine)) + BareCount(lines, |theirs| - |mine|)
    decreases |lines|
  {
    hide Weight, Dispatch, NoFeeds, DataOf, StandardData;
    EmptyWeight();
    if lines != [] {
      NoFeedsTail(lines);
      if lines[0] == [] {
        StandardWeighsMore(lines[1..], [], []);
        DispatchWeight(mine);
        DispatchWeight(theirs);
        WeightConcat(Dispatch(mine), Interpret(lines[1..], []));
        WeightConcat(Dispatch(theirs), InterpretStandard(lines[1..], []));
      } else {
        DataFeeds(lines[0]);
        NoFeedsConcat(mine, DataOf(lines[0]));
        NoFeedsConcat(theirs, StandardData(lines[0]));
        StandardWeighsMore(lines[1..], mine + DataOf(lines[0]), theirs + StandardData(lines[0]));
      }
    }
  }

  lemma EmptyWeight()
    ensures Weight([]) == 0 && NoFeeds([])
  {
  }

  lemma NoFeedsTail(lines: seq<Bytes>)
    requires NoFeeds(lines) && lines != []
    ensures NoFeeds(lines[1..]) && LineFeeds(lines[0]) == 0
  {
  }

  lemma {:induction false} QuietLines(lines: seq<Bytes>, mine: seq<Bytes>, theirs: seq<Bytes>)
    requires !HasBlank(lines)
    ensures Interpret(lines, mine) == [] == InterpretStandard(lines, theirs)
    decreases |lines|
  {
    hide DataOf, StandardData;
    if lines != [] {
      assert forall i :: 0 <= i < |lines[1..]| ==> lines[1..][i] == lines[i + 1];
      assert lines[0] != [];
      QuietLines(lines[1..], mine + DataOf(lines[0]), theirs + StandardData(lines[0]));
    }
  }

  lemma {:induction false} AgreeWithoutBare(lines: seq<Bytes>, data: seq<Bytes>)
    requires !BareData(lines)
    ensures Interpret(lines, data) == InterpretStandard(lines, data)
    decreases |lines|
  {
    hide DataOf, StandardData, Dispatch, BareData, HasBlank;
    if lines != [] {
      var first, rest := lines[0], lines[1..];
      assert lines == [first] + rest;
      BareCons(first, rest);
      if first == [] {
        AgreeWithoutBare(rest, []);
      } else {
        StandardDataIs(first);
        if first == DATA {
          QuietLines(rest, data + DataOf(first), data + StandardData(first));
        } else {
          AgreeWithoutBare(rest, data + DataOf(first));
        }
      }
    }
  }

  lemma {:induction false} LinesHaveNoFeeds(buf: Bytes)
    ensures NoFeeds(Lines(buf))
    decreases |buf|
  {
    hide TrimCr;
    var k := LineEnd(buf);
    if k < |buf| {
      LinesHaveNoFeeds(buf[k + 1..]);
      NoFeedsIn(buf[..k]);
      TrimFeeds(buf[..k]);
    }
  }

  lemma {:induction false} NoFeedsIn(text: Bytes)
    requires LF !in text
    ensures LineFeeds(text) == 0
  {
    if text != [] { NoFeedsIn(text[..|text| - 1]); }
  }

  lemma {:induction false} TrimFeeds(line: Bytes)
    requires LineFeeds(line) == 0
    ensures LineFeeds(TrimCr(line)) == 0
    decreases |line|
  {
    if line != [] && line[|line| - 1] == CR { TrimFeeds(line[..|line| - 1]); }
  }

  /** The lines the standard reads and the splitter does not: one that says `data` and nothing
      more, and a `data` field behind a byte order mark. */
  predicate Unread(buf: Bytes, lines: seq<Bytes>, i: nat)
    requires i < |lines|
  {
    lines[i] == DATA || (i == 0 && Marked(buf) && FieldName(lines[0]) == DATA)
  }

  /** An event the standard delivers has such a line in it. */
  predicate Misses(buf: Bytes) {
    var lines := Lines(Body(buf));
    exists i, j :: 0 <= i < j < |lines| && Unread(buf, lines, i) && lines[j] == []
  }

  /** Lines against lines: with `theirs` pending on the standard's side alone, the two agree
      exactly when no line is missed. */
  lemma LinesAgreeExactly(lines: seq<Bytes>, theirs: seq<Bytes>)
    requires NoFeeds(lines) && NoFeeds(theirs)
    ensures Interpret(lines, []) == InterpretStandard(lines, theirs)
       <==> !(BareData(lines) || (theirs != [] && HasBlank(lines)))
  {
    hide *;
    BareCountMeans(lines, |theirs|);
    EmptyWeight();
    StandardWeighsMore(lines, [], theirs);
    if !(BareData(lines) || (theirs != [] && HasBlank(lines))) {
      if theirs == [] {
        AgreeWithoutBare(lines, []);
      } else {
        QuietLines(lines, [], theirs);
      }
    }
  }

  /** A mark hides the first line from the splitter, and nothing else. */
  lemma MarkedLines(buf: Bytes)
    requires Marked(buf)
    ensures var lines := Lines(Body(buf));
            && (lines == [] ==> Lines(buf) == [])
            && (lines != [] ==> Lines(buf) == [MARK + lines[0]] + lines[1..])
  {
    hide LineEnd, TrimCr, Lines, Consumed;
    var body := Body(buf);
    assert buf == MARK + body;
    MarkedEnd(body);
    LinesStep(body);
    LinesStep(buf);
    var k := LineEnd(body);
    if k < |body| {
      MarkedTrim(body[..k]);
      assert (MARK + body)[..|MARK| + k] == MARK + body[..k];
      assert (MARK + body)[|MARK| + k + 1..] == body[k + 1..];
    }
  }

  lemma MarkedEnd(body: Bytes)
    ensures LineEnd(MARK + body) == |MARK| + LineEnd(body)
  {
    var all := MARK + body;
    assert all[1..][1..][1..] == body;
    assert all[0] != LF && all[1..][0] != LF && all[1..][1..][0] != LF;
  }

  lemma {:induction false} MarkedTrim(line: Bytes)
    ensures TrimCr(MARK + line) == MARK + TrimCr(line)
    decreases |line|
  {
    var all := MARK + line;
    if line == [] {
      assert all == MARK;
    } else {
      assert all[|all| - 1] == line[|line| - 1];
      assert all[..|all| - 1] == MARK + line[..|line| - 1];
      MarkedTrim(line[..|line| - 1]);
    }
  }

  /** A line behind a mark adds no data and ends no event. */
  lemma MarkedLineIsPassed(line: Bytes, rest: seq<Bytes>)
    ensures Interpret([MARK + line] + rest, []) == Interpret(rest, [])
  {
    hide Interpret;
    assert (MARK + line)[0] == MARK[0] && (DATA + [COLON])[0] == DATA[0] && MARK[0] != DATA[0];
    assert DataOf(MARK + line) == [];
    InterpretStep(MARK + line, rest);
  }

  lemma InterpretStep(first: Bytes, rest: seq<Bytes>)
    requires first != []
    ensures Interpret([first] + rest, []) == Interpret(rest, DataOf(first))
  {
    hide DataOf;
    assert ([first] + rest)[1..] == rest;
    assert [] + DataOf(first) == DataOf(first);
  }

  lemma StandardFirst(first: Bytes, rest: seq<Bytes>)
    ensures InterpretStandard([first] + rest, []) == InterpretStandard(rest, StandardData(first))
  {
    assert ([first] + rest)[1..] == rest;
    if first == [] {
      assert FieldName(first) == [];
    } else {
      assert [] + StandardData(first) == StandardData(first);
    }
  }

  lemma MissesMarked(buf: Bytes, first: Bytes, rest: seq<Bytes>)
    requires Marked(buf) && Lines(Body(buf)) == [first] + rest
    ensures Misses(buf) <==> BareData(rest) || (StandardData(first) != [] && HasBlank(rest))
  {
    hide Lines, Body, Marked, FieldName, FieldValue;
    var lines := [first] + rest;
    assert forall i :: 0 < i < |lines| ==> lines[i] == rest[i - 1];
    BareName(first);
    if Misses(buf) {
      var i, j :| 0 <= i < j < |lines| && Unread(buf, lines, i) && lines[j] == [];
      assert rest[j - 1] == [];
      if i > 0 { assert rest[i - 1] == DATA; }
    }
    if BareData(rest) {
      var i, j :| 0 <= i < j < |rest| && rest[i] == DATA && rest[j] == [];
      assert Unread(buf, lines, i + 1) && lines[j + 1] == [];
    }
    if StandardData(first) != [] && HasBlank(rest) {
      var j :| 0 <= j < |rest| && rest[j] == [];
      assert Unread(buf, lines, 0) && lines[j + 1] == [];
    }
  }

  lemma BareName(line: Bytes)
    ensures line == DATA ==> FieldName(line) == DATA
    ensures StandardData(line) != [] <==> FieldName(line) == DATA
  {
    if line == DATA { NoColon(line); }
  }

  lemma MissesPlain(buf: Bytes)
    requires !Marked(buf)
    ensures Misses(buf) <==> BareData(Lines(buf))
  {
    hide Lines, Marked, FieldName;
    var lines := Lines(buf);
    if Misses(buf) {
      var i, j :| 0 <= i < j < |lines| && Unread(buf, lines, i) && lines[j] == [];
      assert lines[i] == DATA;
    }
    if BareData(lines) {
      var i, j :| 0 <= i < j < |lines| && lines[i] == DATA && lines[j] == [];
      assert Unread(buf, lines, i);
    }
  }

  /** On LF and CRLF streams the splitter delivers what the standard does, exactly when no event
      the standard delivers has a line the splitter does not read. */
  lemma StandardExactly(buf: Bytes)
    requires PlainCr(buf)
    ensures Events(buf) == StandardEvents(buf) <==> !Misses(buf)
  {
    hide *;
    var lines := Lines(Body(buf));
    BodyIsPlain(buf);
    LinesAreStandard(Body(buf));
    LinesHaveNoFeeds(Body(buf));
    EventsIs(buf);
    StandardEventsIs(buf);
    StandardIs(lines, []);
    EmptyWeight();
    if !Marked(buf) {
      LinesAgreeExactly(lines, []);
      MissesPlain(buf);
    } else if lines == [] {
      MarkedLines(buf);
      NoLines(buf);
    } else {
      var first, rest := lines[0], lines[1..];
      MarkedLines(buf);
      assert lines == [first] + rest;
      MarkedLineIsPassed(first, rest);
      StandardFirst(first, rest);
      NoFeedsTail(lines);
      DataFeeds(first);
      LinesAgreeExactly(rest, StandardData(first));
      MissesMarked(buf, first, rest);
    }
  }

  lemma BodyIsPlain(buf: Bytes)
    requires PlainCr(buf)
    ensures PlainCr(Body(buf))
    ensures !Marked(buf) ==> Body(buf) == buf
  {
    if Marked(buf) { assert forall i :: 0 <= i < |Body(buf)| ==> Body(buf)[i] == buf[|MARK| + i]; }
  }

  lemma NoLines(buf: Bytes)
    requires Lines(Body(buf)) == []
    ensures Interpret([], []) == [] == InterpretStandard([], []) && !Misses(buf)
  {
  }

  lemma StandardEventsIs(buf: Bytes)
    ensures StandardEvents(buf) == StandardInterpret(StandardLines(Body(buf)), Buffer([]))
  {
    hide StandardInterpret, StandardLines, Body;
  }

  // ---- Streams that show it ---------------------------------------------------------------------

  /** `data`, a line feed, a blank line: the standard delivers an empty event. */
  const BARE: Bytes := DATA + [LF, LF]

  /** A byte order mark, `data:x`, a blank line: the standard delivers `x`. */
  const BEHIND_MARK: Bytes := MARK + DATA + [COLON, 120, LF, LF]

  lemma TwoLines(line: Bytes)
    requires LF !in line && CR !in line && line != []
    ensures Lines(line + [LF, LF]) == [line, []]
  {
    var buf := line + [LF, LF];
    LineEndIs(buf, |line|);
    assert buf[..|line|] == line;
    assert buf[|line| + 1..] == [LF];
    assert [LF][0 + 1..] == [] && [LF][..0] == [];
    assert Lines([LF]) == [[]];
    assert TrimCr(line) == line;
  }

  lemma {:induction false} LineEndIs(buf: Bytes, k: nat)
    requires k < |buf| && buf[k] == LF && forall i :: 0 <= i < k ==> buf[i] != LF
    ensures LineEnd(buf) == k
  {
    if k > 0 { LineEndIs(buf[1..], k - 1); }
  }

  /** A line that reads only `data` goes missing, and with it the event. */
  lemma BareDataGoesMissing()
    ensures PlainCr(BARE) && Events(BARE) == [] && StandardEvents(BARE) == [[]]
  {
    assert BARE[0] != MARK[0];
    assert !Marked(BARE);
    OneEvent(BARE, DATA);
    NoColon(DATA);
    assert DataOf(DATA) == [];
    assert StandardData(DATA) == [[]];
  }

  /** So does the first `data` field behind a byte order mark. */
  lemma MarkHidesFirstField()
    ensures PlainCr(BEHIND_MARK) && Events(BEHIND_MARK) == [] && StandardEvents(BEHIND_MARK) == [[120]]
  {
    var line: Bytes := DATA + [COLON, 120];
    assert BEHIND_MARK == MARK + line + [LF, LF];
    assert BEHIND_MARK[..3] == MARK;
    assert Body(BEHIND_MARK) == line + [LF, LF];
    OneEvent(BEHIND_MARK, line);
    DataPrefix(line);
    assert line[..5] == DATA + [COLON];
    assert line[5..] == [120];
    ColonAt(line, 4);
    assert StandardData(line) == [[120]];
  }

  /** A stream of one line and a blank one. */
  lemma OneEvent(buf: Bytes, line: Bytes)
    requires Body(buf) == line + [LF, LF] && LF !in line && CR !in line && line != []
    ensures PlainCr(buf)
    ensures StandardEvents(buf) == Dispatch(StandardData(line))
    ensures Events(buf) == if Marked(buf) then [] else Dispatch(DataOf(line))
  {
    hide *;
    EventsIs(buf);
    StandardEventsIs(buf);
    TwoLines(line);
    OnePlain(buf, line);
    BodyIsPlain(buf);
    LinesAreStandard(Body(buf));
    StandardIs([line, []], []);
    EmptyWeight();
    OneInterpreted(line);
    assert [line, []][1..] == [[]];
    if Marked(buf) {
      MarkedLines(buf);
      MarkedLineIsPassed(line, [[]]);
      BlankDelivers([]);
    }
  }

  lemma OnePlain(buf: Bytes, line: Bytes)
    requires Body(buf) == line + [LF, LF] && CR !in line
    ensures PlainCr(buf)
  {
    if Marked(buf) { assert buf == MARK + (line + [LF, LF]); }
  }

  lemma BlankDelivers(data: seq<Bytes>)
    ensures Interpret([[]], data) == Dispatch(data) == InterpretStandard([[]], data)
    ensures Dispatch([]) == []
  {
    assert Dispatch([]) == [];
    hide Dispatch;
    assert Dispatch(data) + [] == Dispatch(data);
    assert Interpret([], []) == [] && InterpretStandard([], []) == [];
  }

  lemma OneInterpreted(line: Bytes)
    requires line != []
    ensures Interpret([line, []], []) == Dispatch(DataOf(line))
    ensures InterpretStandard([line, []], []) == Dispatch(StandardData(line))
  {
    hide Dispatch, DataOf, StandardData;
    assert [line, []][1..] == [[]];
    assert [] + DataOf(line) == DataOf(line) && [] + StandardData(line) == StandardData(line);
    BlankDelivers(DataOf(line));
    BlankDelivers(StandardData(line));
  }
}
