/** What the stream's decoder takes for UTF-8 is UTF-8, as section 3 of RFC 3629 lays it down, and
    what it replaces is the longest stretch that begins a character. */
module Utf8 {
  import Items
  import opened Sse

  // ---- The encoding ---------------------------------------------------------------

  /** The numbers that stand for characters: no surrogate among them. */
  predicate Scalar(c: nat) {
    c < 0xD800 || 0xE000 <= c < 0x11_0000
  }

  /** The bytes of a character: its bits by sixes, behind the marks of lead and continuation. */
  function Encode(c: nat): Sse.Bytes
    requires Scalar(c)
  {
    if c < 0x80 then [c as Byte]
    else if c < 0x800 then [(0xC0 + c / 64) as Byte, Next(c)]
    else if c < 0x1_0000 then [(0xE0 + c / 4096) as Byte, Next(c / 64), Next(c)]
    else [(0xF0 + c / 26_2144) as Byte, Next(c / 4096), Next(c / 64), Next(c)]
  }

  /** A continuation byte: its mark and the last six bits. */
  function Next(c: nat): Byte {
    (0x80 + c % 64) as Byte
  }

  /** The bits behind a byte's mark. */
  function Bits(b: Byte, mark: Byte): nat
    requires b >= mark
  {
    (b - mark) as nat
  }

  predicate Scalars(text: seq<nat>) {
    forall i :: 0 <= i < |text| ==> Scalar(text[i])
  }

  function EncodeAll(text: seq<nat>): Sse.Bytes
    requires Scalars(text)
  {
    if text == [] then [] else Encode(text[0]) + EncodeAll(text[1..])
  }

  /** Some character's bytes stand at the front, or begin on it. */
  ghost predicate Encoded(buf: Sse.Bytes, c: nat) {
    Scalar(c) && Encode(c) <= buf
  }

  ghost predicate Begun(front: Sse.Bytes, c: nat) {
    Scalar(c) && front <= Encode(c) && front != Encode(c)
  }

  // ---- One character ----------------------------------------------------------------

  /** The number that the bits at the front of a buffer spell. */
  function Decoded(buf: Sse.Bytes): nat
    requires buf != [] && CharOk(buf)
  {
    var n := CharLen(buf);
    if n == 1 then buf[0] as nat
    else if n == 2 then Bits(buf[0], 0xC0) * 64 + Bits(buf[1], 0x80)
    else if n == 3 then Bits(buf[0], 0xE0) * 4096 + Bits(buf[1], 0x80) * 64 + Bits(buf[2], 0x80)
    else Bits(buf[0], 0xF0) * 26_2144 + Bits(buf[1], 0x80) * 4096 + Bits(buf[2], 0x80) * 64 + Bits(buf[3], 0x80)
  }

  lemma Six(q: nat, r: nat)
    requires r < 64
    ensures (q * 64 + r) / 64 == q && (q * 64 + r) % 64 == r
  {
  }

  lemma Quotients(n: nat)
    ensures n / 4096 == n / 64 / 64 && n / 26_2144 == n / 64 / 64 / 64
  {
  }

  lemma Sixes(a: nat, b: nat, c: nat, d: nat)
    requires b < 64 && c < 64 && d < 64
    ensures var n := a * 26_2144 + b * 4096 + c * 64 + d;
            n / 26_2144 == a && n / 4096 % 64 == b && n / 64 % 64 == c && n % 64 == d
  {
    var n := a * 26_2144 + b * 4096 + c * 64 + d;
    assert n == ((a * 64 + b) * 64 + c) * 64 + d;
    Quotients(n);
    Six((a * 64 + b) * 64 + c, d);
    Six(a * 64 + b, c);
    Six(a, b);
  }

  lemma AcceptedTwo(buf: Sse.Bytes)
    requires buf != [] && CharOk(buf) && CharLen(buf) == 2
    ensures Scalar(Decoded(buf)) && Encode(Decoded(buf)) == buf[..2]
  {
    Six(Bits(buf[0], 0xC0), Bits(buf[1], 0x80));
  }

  lemma AcceptedThree(buf: Sse.Bytes)
    requires buf != [] && CharOk(buf) && CharLen(buf) == 3
    ensures Scalar(Decoded(buf)) && Encode(Decoded(buf)) == buf[..3]
  {
    Sixes(0, Bits(buf[0], 0xE0), Bits(buf[1], 0x80), Bits(buf[2], 0x80));
  }

  lemma AcceptedFour(buf: Sse.Bytes)
    requires buf != [] && CharOk(buf) && CharLen(buf) == 4
    ensures Scalar(Decoded(buf)) && Encode(Decoded(buf)) == buf[..4]
  {
    Sixes(Bits(buf[0], 0xF0), Bits(buf[1], 0x80), Bits(buf[2], 0x80), Bits(buf[3], 0x80));
  }

  lemma CharAtMostFour(buf: Sse.Bytes)
    requires buf != [] && CharOk(buf)
    ensures CharLen(buf) <= 4
    ensures CharLen(buf) == 1 ==> Scalar(Decoded(buf)) && Encode(Decoded(buf)) == buf[..1]
  {
  }

  lemma AcceptedIsEncoded(buf: Sse.Bytes)
    requires buf != [] && CharOk(buf)
    ensures Scalar(Decoded(buf)) && Encode(Decoded(buf)) == buf[..CharLen(buf)]
  {
    hide *;
    CharAtMostFour(buf);
    var n := CharLen(buf);
    if n == 2 { AcceptedTwo(buf); }
    if n == 3 { AcceptedThree(buf); }
    if n == 4 { AcceptedFour(buf); }
  }

  lemma EncodedIsAccepted(buf: Sse.Bytes, c: nat)
    requires Encoded(buf, c)
    ensures buf != [] && CharOk(buf) && CharLen(buf) == |Encode(c)|
  {
    var e := Encode(c);
    assert forall i :: 0 <= i < |e| ==> buf[i] == e[i];
  }

  /** A character is taken whole exactly when some character's encoding stands there, and then it
      is that one's bytes. */
  lemma CharExactly(buf: Sse.Bytes)
    requires buf != []
    ensures CharOk(buf) <==> exists c: nat :: Encoded(buf, c)
    ensures forall c: nat | Encoded(buf, c) :: CharOk(buf) && buf[..CharLen(buf)] == Encode(c)
  {
    hide CharLen, CharOk, Encode;
    if CharOk(buf) {
      AcceptedIsEncoded(buf);
      assert Encoded(buf, Decoded(buf));
    }
    forall c: nat | Encoded(buf, c)
      ensures CharOk(buf) && buf[..CharLen(buf)] == Encode(c)
    {
      EncodedIsAccepted(buf, c);
    }
  }

  // ---- Whole texts --------------------------------------------------------------------

  lemma {:induction false} WellFormedDecodes(buf: Sse.Bytes) returns (text: seq<nat>)
    requires WellFormed(buf)
    ensures Scalars(text) && buf == EncodeAll(text)
    decreases |buf|
  {
    hide *;
    if buf == [] {
      text := [];
      NoText();
    } else {
      WellFormedTail(buf);
      AcceptedIsEncoded(buf);
      var rest := WellFormedDecodes(buf[CharLen(buf)..]);
      text := [Decoded(buf)] + rest;
      EncodeAllCons(Decoded(buf), rest);
      assert buf == buf[..CharLen(buf)] + buf[CharLen(buf)..];
    }
  }

  lemma NoText()
    ensures Scalars([]) && EncodeAll([]) == []
  {
  }

  lemma WellFormedTail(buf: Sse.Bytes)
    requires buf != [] && WellFormed(buf)
    ensures CharOk(buf) && WellFormed(buf[CharLen(buf)..])
  {
  }

  lemma EncodeAllCons(first: nat, rest: seq<nat>)
    requires Scalar(first) && Scalars(rest)
    ensures Scalars([first] + rest) && EncodeAll([first] + rest) == Encode(first) + EncodeAll(rest)
  {
    hide Encode;
    assert ([first] + rest)[1..] == rest;
  }

  lemma {:induction false} EncodedIsWellFormed(text: seq<nat>)
    requires Scalars(text)
    ensures WellFormed(EncodeAll(text))
  {
    if text != [] {
      EncodedIsWellFormed(text[1..]);
      var buf := EncodeAll(text);
      EncodedIsAccepted(buf, text[0]);
      hide CharLen, CharOk, Encode;
      assert buf[CharLen(buf)..] == EncodeAll(text[1..]);
    }
  }

  /** Well-formed is what encodes some text. */
  lemma WellFormedExactly(buf: Sse.Bytes)
    ensures WellFormed(buf) <==> exists text: seq<nat> :: Scalars(text) && buf == EncodeAll(text)
  {
    hide WellFormed, EncodeAll;
    if WellFormed(buf) {
      var text := WellFormedDecodes(buf);
    }
    if text: seq<nat> :| Scalars(text) && buf == EncodeAll(text) { EncodedIsWellFormed(text); }
  }

  // ---- What is replaced -----------------------------------------------------------------

  /** Three bytes and their lead: some character begins like that. */
  lemma BegunByLead(buf: Sse.Bytes)
    requires buf != [] && !CharOk(buf) && CharLen(buf) > 1
    ensures exists c: nat :: Begun(buf[..CharLen(buf)], c)
  {
    var n, lead := CharLen(buf), buf[0];
    var third := if n > 2 then Bits(buf[2], 0x80) else 0;
    var c := if LeadLen(lead) == 3 then Bits(lead, 0xE0) * 4096 + Bits(buf[1], 0x80) * 64
             else Bits(lead, 0xF0) * 26_2144 + Bits(buf[1], 0x80) * 4096 + third * 64;
    if LeadLen(lead) == 3 {
      Sixes(0, Bits(lead, 0xE0), Bits(buf[1], 0x80), 0);
    } else {
      Sixes(Bits(lead, 0xF0), Bits(buf[1], 0x80), third, 0);
    }
    assert Begun(buf[..n], c);
  }

  /** What begins some character is taken as far as it goes. */
  lemma BegunIsTaken(buf: Sse.Bytes, c: nat, m: nat)
    requires 0 < m <= |buf| && Scalar(c) && buf[..m] <= Encode(c)
    ensures CharLen(buf) >= m
  {
    var e := Encode(c);
    assert buf[0] == e[0];
    assert m > 1 ==> buf[1] == e[1];
    assert m > 2 ==> buf[2] == e[2];
    assert m > 3 ==> buf[3] == e[3];
  }

  /** An ill-formed stretch is the longest that begins some character, or a byte that begins
      none; and one replacement character stands for it. */
  lemma ReplacedExactly(buf: Sse.Bytes)
    requires buf != [] && !CharOk(buf)
    ensures var n := CharLen(buf);
            && (n > 1 ==> exists c: nat :: Begun(buf[..n], c))
            && (n < |buf| ==> forall c: nat | Scalar(c) :: !(buf[..n + 1] <= Encode(c)))
            && Lossy(buf) == Encode(0xFFFD) + Lossy(buf[n..])
  {
    LossyStep(buf, REPLACEMENT);
    ReplacementIs();
    hide *;
    if CharLen(buf) > 1 { BegunByLead(buf); }
    if CharLen(buf) < |buf| {
      forall c: nat | Scalar(c)
        ensures !(buf[..CharLen(buf) + 1] <= Encode(c))
      {
        if buf[..CharLen(buf) + 1] <= Encode(c) { BegunIsTaken(buf, c, CharLen(buf) + 1); }
      }
    }
  }

  lemma ReplacementIs()
    ensures Scalar(0xFFFD) && Encode(0xFFFD) == REPLACEMENT
  {
  }

  // ---- Sizes ----------------------------------------------------------------------------

  function Numbers(text: string): (r: seq<nat>) {
    seq(|text|, i requires 0 <= i < |text| => text[i] as int)
  }

  lemma CharsAreScalars(text: string)
    ensures Scalars(Numbers(text))
  {
  }

  lemma {:induction false} EncodeAllSnoc(text: seq<nat>, last: nat)
    requires Scalars(text) && Scalar(last)
    ensures Scalars(text + [last]) && EncodeAll(text + [last]) == EncodeAll(text) + Encode(last)
  {
    hide Encode;
    if text == [] {
      assert [last][1..] == [] && text + [last] == [last];
      assert Encode(last) + [] == Encode(last);
    } else {
      EncodeAllSnoc(text[1..], last);
      assert (text + [last])[1..] == text[1..] + [last];
    }
  }

  /** The sizes that caps and stubs count are those of the encoding. */
  lemma {:induction false} BytesCountEncoding(text: string)
    ensures Scalars(Numbers(text)) && Items.Bytes(text) == |EncodeAll(Numbers(text))|
  {
    CharsAreScalars(text);
    if text != [] {
      var n := |text| - 1;
      BytesCountEncoding(text[..n]);
      EncodeAllSnoc(Numbers(text[..n]), text[n] as int);
      assert Numbers(text) == Numbers(text[..n]) + [text[n] as int];
    }
  }
}
