/** The two bounded waiting rooms: steers held for a boundary, and prompts queued behind a
    turn. Past their caps both fold into the last entry and say so in-band. */
module HeldBuffer {
  import opened Items

  const QUEUE_MAX := 64
  const HELD_BYTES_MAX := 64 * 1024
  const HELD_IMAGE_B64_MAX := 4 * 1024 * 1024
  const FOLD_MARK := "\n[\U{2026} later text truncated]"

  datatype HeldSteer = HeldSteer(text: string, images: seq<Image>, synthetic: Reason, key: Option<string>)

  datatype QueuedPrompt = QueuedPrompt(text: string, images: seq<Image>, synthetic: Option<Reason>)

  // ---- Folding text -----------------------------------------------------------

  predicate Marked(text: string) {
    |text| >= |FOLD_MARK| && text[|text| - |FOLD_MARK|..] == FOLD_MARK
  }

  function StripMark(text: string): string {
    if Marked(text) then text[..|text| - |FOLD_MARK|] else text
  }

  /** What a fold would hold with no cap. */
  function Joined(dst: string, text: string): string {
    var base := StripMark(dst);
    if base == [] then text else base + "\n\n" + text
  }

  /** Length of the longest prefix of at most `max` bytes. */
  function Longest(text: string, max: nat): (n: nat)
    ensures n <= |text|
    ensures Bytes(text[..n]) <= max
    ensures n < |text| ==> Bytes(text[..n + 1]) > max
    decreases |text|
  {
    assert text[..|text|] == text;
    if Bytes(text) <= max then |text|
    else
      var n := Longest(text[..|text| - 1], max);
      assert text[..|text| - 1][..n] == text[..n];
      assert n < |text| - 1 ==> text[..|text| - 1][..n + 1] == text[..n + 1];
      n
  }

  function Folded(dst: string, text: string, max: nat): string {
    var joined := Joined(dst, text);
    if Bytes(joined) > max then joined[..Longest(joined, max)] + FOLD_MARK else joined
  }

  /** A fold as it is promised: the old words less one mark, the new ones behind a blank line if
      there were any, and nothing else. What does not fit is cut at the cap, and the mark says so. */
  predicate FoldsTo(dst: string, text: string, max: nat, out: string) {
    var cut := |dst| - |FOLD_MARK|;
    var base := if cut >= 0 && dst[cut..] == FOLD_MARK then dst[..cut] else dst;
    var gap := if base == [] then [] else ['\n', '\n'];
    var whole := base + gap + text;
    if Bytes(base) + |gap| + Bytes(text) <= max
    then out == whole
    else CutTo(whole, max, out)
  }

  /** The longest beginning within the cap, and the mark. */
  predicate CutTo(whole: string, max: nat, out: string) {
    var n := |out| - |FOLD_MARK|;
    && 0 <= n <= |whole| && out == whole[..n] + FOLD_MARK
    && Bytes(whole[..n]) <= max
    && forall m :: n < m <= |whole| ==> Bytes(whole[..m]) > max
  }

  lemma WholeBytes(base: string, gap: string, text: string)
    requires gap == [] || gap == ['\n', '\n']
    ensures Bytes(base + gap + text) == Bytes(base) + |gap| + Bytes(text)
  {
    BytesConcat(base + gap, text);
    BytesConcat(base, gap);
    assert ['\n', '\n'][..1] == ['\n'] && ['\n'][..0] == [];
  }

  lemma CutIsLongest(whole: string, max: nat, out: string)
    requires Bytes(whole) > max
    ensures CutTo(whole, max, out) <==> out == whole[..Longest(whole, max)] + FOLD_MARK
  {
    hide Bytes, Longest;
    var n := Longest(whole, max);
    forall m | n < m <= |whole|
      ensures Bytes(whole[..m]) > max
    {
      BytesGrow(whole, n + 1, m);
    }
    if CutTo(whole, max, out) {
      var k := |out| - |FOLD_MARK|;
      assert k < |whole| ==> Bytes(whole[..k + 1]) > max;
      LongestUnique(whole, max, k);
    }
  }

  /** That promise is met by one text, and that is what a fold makes. */
  lemma FoldsExactly(dst: string, text: string, max: nat, out: string)
    ensures FoldsTo(dst, text, max, out) <==> out == Folded(dst, text, max)
  {
    hide Bytes, CutTo, Longest;
    var base := StripMark(dst);
    var gap := if base == [] then [] else ['\n', '\n'];
    var whole := base + gap + text;
    WholeBytes(base, gap, text);
    assert Joined(dst, text) == whole by {
      assert ['\n', '\n'] == "\n\n";
      if base == [] { assert base + gap + text == text; }
    }
    if Bytes(whole) > max { CutIsLongest(whole, max, out); }
  }

  method FoldInto(dst: string, text: string, max: nat) returns (out: string)
    ensures out == Folded(dst, text, max)
    ensures FoldsTo(dst, text, max, out)
  {
    FoldsExactly(dst, text, max, Folded(dst, text, max));
    hide Bytes, FoldsTo;
    out := dst;
    if Marked(out) {
      out := out[..|out| - |FOLD_MARK|];
    }
    if out != [] {
      out := out + "\n\n";
    }
    out := out + text;
    assert out == Joined(dst, text);
    if Bytes(out) > max {
      hide Joined, Marked;
      var end := |out|;
      assert out[..end] == out;
      EmptyBytes(out[..0]);
      while Bytes(out[..end]) > max
        invariant 0 <= end <= |out|
        invariant end < |out| ==> Bytes(out[..end + 1]) > max
        decreases end
      {
        end := end - 1;
      }
      LongestUnique(out, max, end);
      out := out[..end] + FOLD_MARK;
    }
  }

  lemma EmptyBytes(text: string)
    requires text == []
    ensures Bytes(text) == 0
  {
  }

  lemma {:induction false} BytesGrow(text: string, m: nat, n: nat)
    requires m <= n <= |text|
    ensures Bytes(text[..m]) <= Bytes(text[..n])
  {
    assert text[..n] == text[..m] + text[m..n];
    BytesConcat(text[..m], text[m..n]);
  }

  lemma LongestUnique(text: string, max: nat, n: nat)
    requires n <= |text| && Bytes(text[..n]) <= max
    requires n < |text| ==> Bytes(text[..n + 1]) > max
    ensures n == Longest(text, max)
  {
    var m := Longest(text, max);
    if m < n { BytesGrow(text, m + 1, n); }
    if n < m { BytesGrow(text, n + 1, m); }
  }

  lemma MarkOn(kept: string)
    ensures Marked(kept + FOLD_MARK) && StripMark(kept + FOLD_MARK) == kept
  {
    assert (kept + FOLD_MARK)[|kept|..] == FOLD_MARK;
    assert (kept + FOLD_MARK)[..|kept|] == kept;
  }

  /** A fold loses nothing, or keeps the longest prefix that fits and says so; either way it
      is bounded, and what it holds besides the mark is a prefix of the words it was given. So a
      cut stacks a second mark exactly when the words it keeps end in one themselves. */
  lemma FoldKeepsHeadAndDiscloses(dst: string, text: string, max: nat)
    ensures var joined, out := Joined(dst, text), Folded(dst, text, max);
            && Bytes(out) <= max + Bytes(FOLD_MARK)
            && (Bytes(joined) <= max ==> out == joined)
            && (Bytes(joined) > max ==>
                  && Marked(out)
                  && StripMark(out) == joined[..Longest(joined, max)]
                  && Bytes(StripMark(out)) <= max)
            && StripMark(out) <= joined
  {
    var joined := Joined(dst, text);
    hide Joined, Bytes;
    if Bytes(joined) > max {
      var kept := joined[..Longest(joined, max)];
      BytesConcat(kept, FOLD_MARK);
      MarkOn(kept);
    }
  }

  // ---- One mark at most ---------------------------------------------------------

  predicate MarkAt(text: string, i: nat) {
    i + |FOLD_MARK| <= |text| && text[i..i + |FOLD_MARK|] == FOLD_MARK
  }

  /** The mark is nowhere in the text. */
  ghost predicate Free(text: string) {
    forall i: nat :: !MarkAt(text, i)
  }

  /** A message that neither quotes the mark nor opens on what follows its line feed, which the
      separator would complete. */
  ghost predicate Unquoted(text: string) {
    Free(text) && !(FOLD_MARK[1..] <= text)
  }

  /** The mark stands in the text at most once, as its last words. */
  ghost predicate MarkedOnce(text: string) {
    Free(StripMark(text))
  }

  lemma MarkShape()
    ensures |FOLD_MARK| == 25 && FOLD_MARK[0] == '\n' && FOLD_MARK[2] == '\U{2026}'
    ensures FOLD_MARK[|FOLD_MARK| - 1] == ']'
    ensures forall k :: 1 <= k < |FOLD_MARK| ==> FOLD_MARK[k] != '\n'
  {
  }

  lemma FreeIsUnmarked(text: string)
    requires Free(text)
    ensures !Marked(text) && StripMark(text) == text
  {
    if Marked(text) { assert MarkAt(text, |text| - |FOLD_MARK|); }
  }

  lemma MarksInPrefix(text: string, n: nat)
    requires n <= |text|
    ensures forall i: nat | MarkAt(text[..n], i) :: MarkAt(text, i)
  {
    forall i: nat | MarkAt(text[..n], i)
      ensures MarkAt(text, i)
    {
      assert text[..n][i..i + |FOLD_MARK|] == text[i..i + |FOLD_MARK|];
    }
  }

  lemma FreePrefix(text: string, n: nat)
    requires Free(text) && n <= |text|
    ensures Free(text[..n])
  {
    MarksInPrefix(text, n);
  }

  /** A mark in a concatenation stands in either part, or holds the second one's first
      character. */
  lemma MarksInBoth(a: string, b: string)
    requires b != []
    ensures forall i: nat | MarkAt(a + b, i) ::
              || MarkAt(a, i)
              || (i >= |a| && MarkAt(b, i - |a|))
              || (i < |a| < i + |FOLD_MARK| && FOLD_MARK[|a| - i] == b[0])
  {
    var all := a + b;
    forall i: nat | MarkAt(all, i)
      ensures || MarkAt(a, i)
              || (i >= |a| && MarkAt(b, i - |a|))
              || (i < |a| < i + |FOLD_MARK| && FOLD_MARK[|a| - i] == b[0])
    {
      if i + |FOLD_MARK| <= |a| {
        assert all[i..i + |FOLD_MARK|] == a[i..i + |FOLD_MARK|];
      } else if i >= |a| {
        assert all[i..i + |FOLD_MARK|] == b[i - |a|..i - |a| + |FOLD_MARK|];
      } else {
        assert all[i..i + |FOLD_MARK|][|a| - i] == all[|a|];
      }
    }
  }

  /** No mark can straddle a line feed. */
  lemma FreeAcrossFeed(a: string, b: string)
    requires Free(a) && Free(b) && b != [] && b[0] == '\n'
    ensures Free(a + b)
  {
    hide MarkAt;
    MarkShape();
    MarksInBoth(a, b);
  }

  /** Only what follows its line feed can complete a mark. */
  lemma FreeBehindFeed(text: string)
    requires Unquoted(text)
    ensures Free("\n" + text)
  {
    hide MarkAt;
    MarksBehindFeed(text);
  }

  lemma MarksBehindFeed(text: string)
    ensures forall i: nat | MarkAt("\n" + text, i) ::
              if i == 0 then FOLD_MARK[1..] <= text else MarkAt(text, i - 1)
  {
    MarkShape();
    var all := "\n" + text;
    forall i: nat | MarkAt(all, i)
      ensures if i == 0 then FOLD_MARK[1..] <= text else MarkAt(text, i - 1)
    {
      if i == 0 {
        assert all[..|FOLD_MARK|][1..] == text[..|FOLD_MARK| - 1];
      } else {
        assert all[i..i + |FOLD_MARK|] == text[i - 1..i - 1 + |FOLD_MARK|];
      }
    }
  }

  lemma JoinedFree(dst: string, text: string)
    requires MarkedOnce(dst) && Unquoted(text)
    ensures Free(Joined(dst, text))
  {
    hide Free, Unquoted;
    UnquotedIsFree(text);
    var base := StripMark(dst);
    if base != [] {
      FreeBehindFeed(text);
      OneFeed();
      FreeAcrossFeed("\n", "\n" + text);
      FreeAcrossFeed(base, "\n" + ("\n" + text));
      assert base + "\n\n" + text == base + ("\n" + ("\n" + text));
    }
  }

  lemma UnquotedIsFree(text: string)
    requires Unquoted(text)
    ensures Free(text)
  {
  }

  lemma OneFeed()
    ensures Free("\n")
  {
    MarkShape();
  }

  /** Folding such a message into such an entry leaves one mark at most, at its end. */
  lemma FoldMarksOnce(dst: string, text: string, max: nat)
    requires MarkedOnce(dst) && Unquoted(text)
    ensures MarkedOnce(Folded(dst, text, max)) && !Marked(StripMark(Folded(dst, text, max)))
  {
    hide Joined, Bytes, Free, Unquoted, MarkedOnce;
    OnceIs(dst);
    JoinedFree(dst, text);
    var joined, out := Joined(dst, text), Folded(dst, text, max);
    FoldKeepsHeadAndDiscloses(dst, text, max);
    if Bytes(joined) > max { FreePrefix(joined, Longest(joined, max)); }
    FreeIsUnmarked(if Bytes(joined) > max then joined[..Longest(joined, max)] else joined);
    OnceIs(out);
  }

  lemma OnceIs(text: string)
    ensures MarkedOnce(text) <==> Free(StripMark(text))
  {
  }

  /** A message that quotes the mark where the cut falls comes out with two. */
  lemma QuotedMarkStacks(a: string, b: string)
    requires b != []
    ensures Folded("", a + FOLD_MARK + b, Bytes(a) + Bytes(FOLD_MARK)) == a + FOLD_MARK + FOLD_MARK
  {
    hide Bytes, Longest;
    var text, kept := a + FOLD_MARK + b, a + FOLD_MARK;
    MarkShape();
    assert StripMark("") == "";
    BytesConcat(a, FOLD_MARK);
    CutAt(kept, b);
    assert Joined("", text) == text;
  }

  lemma CutAt(kept: string, b: string)
    requires b != []
    ensures Longest(kept + b, Bytes(kept)) == |kept| && Bytes(kept + b) > Bytes(kept)
    ensures (kept + b)[..|kept|] == kept
  {
    var text := kept + b;
    assert text[..|kept|] == kept;
    assert text[..|kept| + 1] == kept + [b[0]];
    BytesConcat(kept, [b[0]]);
    assert [b[0]][..0] == [];
    BytesConcat(kept + [b[0]], b[1..]);
    assert text == kept + [b[0]] + b[1..];
    LongestUnique(text, Bytes(kept), |kept|);
  }

  // ---- Folding images -----------------------------------------------------------

  /** The images kept under `max` bytes, first come first served, and how many were not. */
  function KeptImages(dst: seq<Image>, src: seq<Image>, max: nat): (seq<Image>, nat)
    decreases |src|
  {
    if src == [] then (dst, 0)
    else if ImagesBytes(dst) + |src[0].data| > max then
      var (out, dropped) := KeptImages(dst, src[1..], max);
      (out, dropped + 1)
    else KeptImages(dst + [src[0]], src[1..], max)
  }

  lemma {:induction false} ImagesBytesSnoc(images: seq<Image>, image: Image)
    ensures ImagesBytes(images + [image]) == ImagesBytes(images) + |image.data|
  {
    if images == [] {
      assert images + [image] == [image];
    } else {
      ImagesBytesSnoc(images[1..], image);
      assert (images + [image])[1..] == images[1..] + [image];
    }
  }

  /** The images a mask picks. */
  function Picked(src: seq<Image>, keep: seq<bool>): seq<Image>
    requires |keep| == |src|
  {
    if src == [] then [] else (if keep[0] then [src[0]] else []) + Picked(src[1..], keep[1..])
  }

  /** An image is picked exactly when it fits beside those picked before it. */
  predicate PickedIfFits(dst: seq<Image>, src: seq<Image>, max: nat, keep: seq<bool>, i: nat)
    requires i < |src| == |keep|
  {
    keep[i] <==> ImagesBytes(dst + Picked(src[..i], keep[..i])) + |src[i].data| <= max
  }

  predicate PicksWhatFits(dst: seq<Image>, src: seq<Image>, max: nat, keep: seq<bool>) {
    |keep| == |src| && forall i :: 0 <= i < |src| ==> PickedIfFits(dst, src, max, keep, i)
  }

  /** What a fold keeps, as it is promised: behind what was there, in order, each image that
      fits; and it counts the others. */
  ghost predicate KeepsWhatFits(dst: seq<Image>, src: seq<Image>, max: nat, out: seq<Image>, dropped: nat) {
    exists keep: seq<bool> ::
      PicksWhatFits(dst, src, max, keep) && out == dst + Picked(src, keep) && |out| + dropped == |dst| + |src|
  }

  lemma PickedCons(dst: seq<Image>, x: Image, xs: seq<Image>, k: bool, ks: seq<bool>)
    requires |xs| == |ks|
    ensures dst + Picked([x] + xs, [k] + ks) == (if k then dst + [x] else dst) + Picked(xs, ks)
  {
    assert ([x] + xs)[1..] == xs && ([k] + ks)[1..] == ks;
  }

  lemma PickedStep(dst: seq<Image>, src: seq<Image>, max: nat, rest: seq<bool>, i: nat)
    requires i < |src| == |rest| + 1
    ensures var fits := ImagesBytes(dst) + |src[0].data| <= max;
            var grown, keep := if fits then dst + [src[0]] else dst, [fits] + rest;
            && dst + Picked(src, keep) == grown + Picked(src[1..], rest)
            && (i == 0 || PickedIfFits(grown, src[1..], max, rest, i - 1) ==> PickedIfFits(dst, src, max, keep, i))
  {
    hide ImagesBytes;
    var fits := ImagesBytes(dst) + |src[0].data| <= max;
    var x, xs := src[0], src[1..];
    assert src == [x] + xs;
    PickedCons(dst, x, xs, fits, rest);
    if i == 0 {
      assert dst + Picked(src[..0], ([fits] + rest)[..0]) == dst;
    } else {
      assert src[..i] == [x] + xs[..i - 1] && ([fits] + rest)[..i] == [fits] + rest[..i - 1];
      PickedCons(dst, x, xs[..i - 1], fits, rest[..i - 1]);
    }
  }

  lemma {:induction false} KeptMask(dst: seq<Image>, src: seq<Image>, max: nat) returns (keep: seq<bool>)
    ensures PicksWhatFits(dst, src, max, keep)
    ensures KeptImages(dst, src, max).0 == dst + Picked(src, keep)
    decreases |src|
  {
    hide ImagesBytes, PickedIfFits;
    if src == [] {
      keep := [];
      assert dst + Picked(src, keep) == dst;
    } else {
      var fits := ImagesBytes(dst) + |src[0].data| <= max;
      var rest := KeptMask(if fits then dst + [src[0]] else dst, src[1..], max);
      hide Picked;
      keep := [fits] + rest;
      PickedStep(dst, src, max, rest, 0);
      forall i | 0 <= i < |src|
        ensures PickedIfFits(dst, src, max, keep, i)
      {
        PickedStep(dst, src, max, rest, i);
      }
    }
  }

  lemma KeptImagesExactly(dst: seq<Image>, src: seq<Image>, max: nat)
    ensures KeepsWhatFits(dst, src, max, KeptImages(dst, src, max).0, KeptImages(dst, src, max).1)
  {
    var keep := KeptMask(dst, src, max);
    KeptImagesBounds(dst, src, max);
  }

  method FoldImages(dst: seq<Image>, src: seq<Image>, max: nat) returns (out: seq<Image>, dropped: nat)
    ensures (out, dropped) == KeptImages(dst, src, max)
    ensures KeepsWhatFits(dst, src, max, out, dropped)
  {
    KeptImagesExactly(dst, src, max);
    hide KeepsWhatFits;
    var total := ImagesBytes(dst);
    out, dropped := dst, 0;
    for i := 0 to |src|
      invariant total == ImagesBytes(out)
      invariant var (kept, lost) := KeptImages(out, src[i..], max);
                KeptImages(dst, src, max) == (kept, dropped + lost)
    {
      assert src[i..][1..] == src[i + 1..];
      var img := src[i];
      if total + |img.data| > max {
        dropped := dropped + 1;
        continue;
      }
      ImagesBytesSnoc(out, img);
      total := total + |img.data|;
      out := out + [img];
    }
    assert src[|src|..] == [];
  }

  /** What fits is kept in order behind what was there; nothing is both kept and dropped. */
  lemma {:induction false} KeptImagesBounds(dst: seq<Image>, src: seq<Image>, max: nat)
    ensures var (out, dropped) := KeptImages(dst, src, max);
            && dst <= out
            && |out| + dropped == |dst| + |src|
            && (ImagesBytes(out) <= max || (out == dst && ImagesBytes(dst) > max))
    decreases |src|
  {
    if src != [] {
      if ImagesBytes(dst) + |src[0].data| > max {
        KeptImagesBounds(dst, src[1..], max);
      } else {
        ImagesBytesSnoc(dst, src[0]);
        KeptImagesBounds(dst + [src[0]], src[1..], max);
      }
    }
  }

  // ---- Held steers ---------------------------------------------------------------

  function TextTotal(held: seq<HeldSteer>): nat {
    if held == [] then 0 else TextTotal(held[..|held| - 1]) + Bytes(held[|held| - 1].text)
  }

  function ImageTotal(held: seq<HeldSteer>): nat {
    if held == [] then 0 else ImageTotal(held[..|held| - 1]) + ImagesBytes(held[|held| - 1].images)
  }

  predicate Full(held: seq<HeldSteer>, steer: HeldSteer) {
    || TextTotal(held) >= HELD_BYTES_MAX
    || ImageTotal(held) + ImagesBytes(steer.images) > HELD_IMAGE_B64_MAX
  }

  function DropNote(dropped: nat, place: string): string {
    if dropped == 0 then ""
    else "\n[" + Decimal(dropped) + " image(s) not attached: " + place + " full]"
  }

  function FoldSteer(last: HeldSteer, steer: HeldSteer): HeldSteer {
    var (images, dropped) := KeptImages(last.images, steer.images, HELD_IMAGE_B64_MAX);
    last.(images := images,
          text := Folded(last.text, steer.text + DropNote(dropped, "steer buffer"), HELD_BYTES_MAX))
  }

  function Pushed(held: seq<HeldSteer>, steer: HeldSteer): seq<HeldSteer> {
    if held != [] && Full(held, steer)
    then held[..|held| - 1] + [FoldSteer(held[|held| - 1], steer)]
    else held + [steer]
  }

  /** One message folded behind an entry's text and images: the images that fit, and the words
      with a count of the images that do not. */
  ghost predicate TakesIn(text: string, images: seq<Image>, more: string, moreImages: seq<Image>, place: string,
                          outText: string, outImages: seq<Image>)
  {
    exists dropped: nat ::
      && KeepsWhatFits(images, moreImages, HELD_IMAGE_B64_MAX, outImages, dropped)
      && FoldsTo(text, more + (if dropped == 0 then ""
                               else "\n[" + Decimal(dropped) + " image(s) not attached: " + place + " full]"),
                 HELD_BYTES_MAX, outText)
  }

  lemma TakenIn(text: string, images: seq<Image>, more: string, moreImages: seq<Image>, place: string)
    ensures var (kept, dropped) := KeptImages(images, moreImages, HELD_IMAGE_B64_MAX);
            TakesIn(text, images, more, moreImages, place,
                    Folded(text, more + DropNote(dropped, place), HELD_BYTES_MAX), kept)
  {
    hide KeptImages, KeepsWhatFits, FoldsTo, Folded;
    var (kept, dropped) := KeptImages(images, moreImages, HELD_IMAGE_B64_MAX);
    KeptImagesExactly(images, moreImages, HELD_IMAGE_B64_MAX);
    FoldsExactly(text, more + DropNote(dropped, place), HELD_BYTES_MAX,
                 Folded(text, more + DropNote(dropped, place), HELD_BYTES_MAX));
  }

  /** What becomes of a steer that has to wait: room in an entry of its own, or a place in the
      last one, which keeps its own kind and key. */
  ghost predicate SteerWaits(held: seq<HeldSteer>, steer: HeldSteer, out: seq<HeldSteer>) {
    if held == []
       || (TextTotal(held) < HELD_BYTES_MAX
           && ImageTotal(held) + ImagesBytes(steer.images) <= HELD_IMAGE_B64_MAX)
    then out == held + [steer]
    else
      && |out| == |held| && out[..|held| - 1] == held[..|held| - 1]
      && var was, now := held[|held| - 1], out[|held| - 1];
         && now.synthetic == was.synthetic && now.key == was.key
         && TakesIn(was.text, was.images, steer.text, steer.images, "steer buffer", now.text, now.images)
  }

  lemma PushedWaits(held: seq<HeldSteer>, steer: HeldSteer)
    ensures SteerWaits(held, steer, Pushed(held, steer))
  {
    hide TakesIn, KeptImages, Folded, DropNote;
    if held != [] && Full(held, steer) {
      var was := held[|held| - 1];
      TakenIn(was.text, was.images, steer.text, steer.images, "steer buffer");
    }
  }

  /** Admit a steer to the buffer. Whatever room there is, no earlier entry is touched but the
      last, whose own words stay in front; a bounded buffer stays bounded, and one mark per entry
      stays one. */
  method PushOrFoldSteer(held: seq<HeldSteer>, steer: HeldSteer) returns (out: seq<HeldSteer>)
    ensures out == Pushed(held, steer)
    ensures SteerWaits(held, steer, out)
    ensures held != [] ==> held[..|held| - 1] <= out
    ensures |out| == |held| + (if held != [] && Full(held, steer) then 0 else 1)
    ensures forall m: nat | Bounded(held, m) && Incoming(steer, m) :: Bounded(out, m)
    ensures AllMarkedOnce(held) && Unquoted(steer.text) ==> AllMarkedOnce(out)
  {
    forall m: nat | Bounded(held, m) && Incoming(steer, m)
      ensures Bounded(Pushed(held, steer), m)
    {
      PushedBounded(held, steer, m);
    }
    if AllMarkedOnce(held) && Unquoted(steer.text) { PushedMarksOnce(held, steer); }
    PushedWaits(held, steer);
    hide SteerWaits, KeepsWhatFits, FoldsTo, Bounded, Incoming, AllMarkedOnce, Unquoted, Bytes, KeptImages, Folded;
    var full := Full(held, steer);
    if held != [] && full {
      var last := held[|held| - 1];
      var images, dropped := FoldImages(last.images, steer.images, HELD_IMAGE_B64_MAX);
      var text := steer.text;
      if dropped > 0 {
        text := text + DropNote(dropped, "steer buffer");
      } else {
        assert text + DropNote(dropped, "steer buffer") == text;
      }
      text := FoldInto(last.text, text, HELD_BYTES_MAX);
      out := held[..|held| - 1] + [last.(images := images, text := text)];
    } else {
      out := held + [steer];
    }
  }

  /** `Unnotify`: withdraw what a key names, if it is still held. */
  function Withdrawn(held: seq<HeldSteer>, key: string): seq<HeldSteer> {
    if held == [] then []
    else
      var front := Withdrawn(held[..|held| - 1], key);
      if held[|held| - 1].key == Some(key) then front else front + [held[|held| - 1]]
  }

  function Max(a: nat, b: nat): nat {
    if a > b then a else b
  }

  /** The most a single held entry's text can weigh, for messages of at most `m` bytes. */
  function EntryMax(m: nat): nat {
    Max(m, HELD_BYTES_MAX + Bytes(FOLD_MARK))
  }

  /** Each message from outside is within the per-message limits its surface enforces. */
  predicate Incoming(steer: HeldSteer, m: nat) {
    Bytes(steer.text) <= m && ImagesBytes(steer.images) <= HELD_IMAGE_B64_MAX
  }

  predicate Bounded(held: seq<HeldSteer>, m: nat) {
    held == [] ||
    var front, last := held[..|held| - 1], held[|held| - 1];
    && TextTotal(front) < HELD_BYTES_MAX
    && ImageTotal(front) <= HELD_IMAGE_B64_MAX
    && Bytes(last.text) <= EntryMax(m)
    && ImagesBytes(last.images) <= HELD_IMAGE_B64_MAX
    && Bounded(front, m)
  }

  lemma TotalsSnoc(front: seq<HeldSteer>, last: HeldSteer)
    ensures (front + [last])[..|front|] == front
    ensures TextTotal(front + [last]) == TextTotal(front) + Bytes(last.text)
    ensures ImageTotal(front + [last]) == ImageTotal(front) + ImagesBytes(last.images)
  {
    assert (front + [last])[..|front|] == front;
  }

  lemma PushedBounded(held: seq<HeldSteer>, steer: HeldSteer, m: nat)
    requires Bounded(held, m) && Incoming(steer, m)
    ensures Bounded(Pushed(held, steer), m)
  {
    hide Bytes, TextTotal, ImageTotal, ImagesBytes, KeptImages, Folded, DropNote;
    if held != [] && Full(held, steer) {
      var front, last := held[..|held| - 1], held[|held| - 1];
      var (images, dropped) := KeptImages(last.images, steer.images, HELD_IMAGE_B64_MAX);
      KeptImagesBounds(last.images, steer.images, HELD_IMAGE_B64_MAX);
      FoldKeepsHeadAndDiscloses(last.text, steer.text + DropNote(dropped, "steer buffer"), HELD_BYTES_MAX);
      TotalsSnoc(front, FoldSteer(last, steer));
    } else {
      TotalsSnoc(held, steer);
      if held == [] { EmptyTotals(held); }
    }
  }

  lemma EmptyTotals(held: seq<HeldSteer>)
    requires held == []
    ensures TextTotal(held) == 0 && ImageTotal(held) == 0
  {
  }

  lemma {:induction false} WithdrawnBounded(held: seq<HeldSteer>, key: string, m: nat)
    requires Bounded(held, m)
    ensures Bounded(Withdrawn(held, key), m)
    ensures TextTotal(Withdrawn(held, key)) <= TextTotal(held)
    ensures ImageTotal(Withdrawn(held, key)) <= ImageTotal(held)
  {
    if held != [] {
      var front, last := held[..|held| - 1], held[|held| - 1];
      WithdrawnBounded(front, key, m);
      TotalsSnoc(Withdrawn(front, key), last);
    }
  }

  /** What a session can do to the buffer. */
  datatype Op = Push(steer: HeldSteer) | Withdraw(key: string) | Release

  function Do(held: seq<HeldSteer>, op: Op): seq<HeldSteer> {
    match op
    case Push(steer) => Pushed(held, steer)
    case Withdraw(key) => Withdrawn(held, key)
    case Release => []
  }

  function DoAll(ops: seq<Op>): seq<HeldSteer> {
    if ops == [] then [] else Do(DoAll(ops[..|ops| - 1]), ops[|ops| - 1])
  }

  // ---- What a withdrawal takes along ------------------------------------------------

  /** The entry that messages folded one behind the other make. */
  function Folding(group: seq<HeldSteer>): HeldSteer
    requires group != []
  {
    if |group| == 1 then group[0] else FoldSteer(Folding(group[..|group| - 1]), group[|group| - 1])
  }

  predicate AllGroups(groups: seq<seq<HeldSteer>>) {
    forall i :: 0 <= i < |groups| ==> groups[i] != []
  }

  /** The groups that do not open on the key. */
  function OpenedElsewhere(groups: seq<seq<HeldSteer>>, key: string): (r: seq<seq<HeldSteer>>)
    requires AllGroups(groups)
    ensures AllGroups(r)
  {
    if groups == [] then []
    else
      var front, last := OpenedElsewhere(groups[..|groups| - 1], key), groups[|groups| - 1];
      if last[0].key == Some(key) then front else front + [last]
  }

  /** Which messages the buffer's entries came from. */
  function Grouped(ops: seq<Op>): (r: seq<seq<HeldSteer>>)
    ensures AllGroups(r)
  {
    if ops == [] then []
    else
      var groups := Grouped(ops[..|ops| - 1]);
      match ops[|ops| - 1]
      case Push(steer) =>
        if groups != [] && Full(DoAll(ops[..|ops| - 1]), steer)
        then groups[..|groups| - 1] + [groups[|groups| - 1] + [steer]]
        else groups + [[steer]]
      case Withdraw(key) => OpenedElsewhere(groups, key)
      case Release => []
  }

  function Foldings(groups: seq<seq<HeldSteer>>): seq<HeldSteer>
    requires AllGroups(groups)
  {
    seq(|groups|, i requires 0 <= i < |groups| => Folding(groups[i]))
  }

  /** An entry goes by its first message's key, whatever is folded in behind. */
  lemma {:induction false} FoldingKey(group: seq<HeldSteer>)
    requires group != []
    ensures Folding(group).key == group[0].key
    decreases |group|
  {
    hide Folded, KeptImages, DropNote;
    if |group| > 1 { FoldingKey(group[..|group| - 1]); }
  }

  lemma FoldingSnoc(group: seq<HeldSteer>, steer: HeldSteer)
    requires group != []
    ensures Folding(group + [steer]) == FoldSteer(Folding(group), steer)
  {
    hide FoldSteer;
    assert (group + [steer])[..|group|] == group;
  }

  lemma FoldingsSnoc(groups: seq<seq<HeldSteer>>, group: seq<HeldSteer>)
    requires AllGroups(groups) && group != []
    ensures AllGroups(groups + [group]) && Foldings(groups + [group]) == Foldings(groups) + [Folding(group)]
  {
    hide Folding;
  }

  lemma {:induction false} WithdrawalTakesGroups(groups: seq<seq<HeldSteer>>, key: string)
    requires AllGroups(groups)
    ensures Withdrawn(Foldings(groups), key) == Foldings(OpenedElsewhere(groups, key))
    decreases |groups|
  {
    hide Folding;
    if groups != [] {
      var front, last := groups[..|groups| - 1], groups[|groups| - 1];
      assert groups == front + [last];
      FoldingsSnoc(front, last);
      FoldingKey(last);
      WithdrawalTakesGroups(front, key);
      FoldingsSnoc(OpenedElsewhere(front, key), last);
      assert Foldings(groups)[..|groups| - 1] == Foldings(front);
    }
  }

  lemma PushGroups(groups: seq<seq<HeldSteer>>, steer: HeldSteer)
    requires AllGroups(groups)
    ensures var held := Foldings(groups);
            Pushed(held, steer)
            == Foldings(if groups != [] && Full(held, steer)
                        then groups[..|groups| - 1] + [groups[|groups| - 1] + [steer]]
                        else groups + [[steer]])
  {
    hide Folding, FoldSteer, Full;
    var held := Foldings(groups);
    FoldingsSnoc(groups, [steer]);
    LoneFolding(steer);
    if groups != [] {
      var front, last := groups[..|groups| - 1], groups[|groups| - 1];
      assert groups == front + [last];
      FoldingsSnoc(front, last);
      FoldingsSnoc(front, last + [steer]);
      FoldingSnoc(last, steer);
      assert held[..|held| - 1] == Foldings(front);
    }
  }

  lemma LoneFolding(steer: HeldSteer)
    ensures Folding([steer]) == steer
  {
  }

  /** Over every mix of operations each held entry is its group of messages, folded in order, and
      a withdrawal takes exactly the groups whose first message carries the key: whatever was
      folded in behind one goes with it, and a message folded in behind another's stays. */
  lemma {:induction false} HeldInGroups(ops: seq<Op>)
    ensures DoAll(ops) == Foldings(Grouped(ops))
  {
    hide Pushed, Withdrawn, OpenedElsewhere, Foldings, Full;
    if ops == [] {
      NoFoldings();
    } else {
      var front, groups := ops[..|ops| - 1], Grouped(ops[..|ops| - 1]);
      HeldInGroups(front);
      match ops[|ops| - 1] {
        case Push(steer) => PushGroups(groups, steer);
        case Withdraw(key) => WithdrawalTakesGroups(groups, key);
        case Release => NoFoldings();
      }
    }
  }

  /** So what a human said is lost with a notification it was folded into. */
  lemma WithdrawalTakesOthers(text: string, key: string, said: string)
    requires Bytes(text) >= HELD_BYTES_MAX
    ensures DoAll([Push(HeldSteer(text, [], BackgroundJob, Some(key))), Push(HeldSteer(said, [], Steer, None)),
                   Withdraw(key)]) == []
  {
    hide DoAll, Pushed, Bytes;
    var first, second := HeldSteer(text, [], BackgroundJob, Some(key)), HeldSteer(said, [], Steer, None);
    var none: seq<Op> := [];
    DoAllSnoc(none, Push(first));
    DoAllSnoc([Push(first)], Push(second));
    DoAllSnoc([Push(first), Push(second)], Withdraw(key));
    assert none + [Push(first)] == [Push(first)] && [Push(first)] + [Push(second)] == [Push(first), Push(second)];
    assert [Push(first), Push(second)] + [Withdraw(key)] == [Push(first), Push(second), Withdraw(key)];
    HeavyTakes(first, second);
    LoneWithdrawn(FoldSteer(first, second), key);
  }

  lemma DoAllSnoc(ops: seq<Op>, op: Op)
    ensures DoAll(ops + [op]) == Do(DoAll(ops), op)
    ensures ops == [] ==> DoAll(ops) == []
  {
    hide Do;
    assert (ops + [op])[..|ops|] == ops;
  }

  /** Behind a heavy first entry the next message is folded into it. */
  lemma HeavyTakes(first: HeldSteer, second: HeldSteer)
    requires Bytes(first.text) >= HELD_BYTES_MAX
    ensures Pushed([], first) == [first] && Pushed([first], second) == [FoldSteer(first, second)]
    ensures FoldSteer(first, second).key == first.key
  {
    hide Bytes, Folded, KeptImages, DropNote, ImageTotal;
    assert [first][..0] == [];
    assert TextTotal([first]) == TextTotal([]) + Bytes(first.text);
  }

  lemma LoneWithdrawn(steer: HeldSteer, key: string)
    requires steer.key == Some(key)
    ensures Withdrawn([steer], key) == []
  {
    assert [steer][..0] == [];
  }

  lemma NoFoldings()
    ensures Foldings([]) == []
  {
  }

  lemma {:induction false} DoAllBounded(ops: seq<Op>, m: nat)
    requires forall i :: 0 <= i < |ops| && ops[i].Push? ==> Incoming(ops[i].steer, m)
    ensures Bounded(DoAll(ops), m)
  {
    if ops != [] {
      var front := ops[..|ops| - 1];
      DoAllBounded(front, m);
      match ops[|ops| - 1] {
        case Push(steer) => PushedBounded(DoAll(front), steer, m);
        case Withdraw(key) => WithdrawnBounded(DoAll(front), key, m);
        case Release =>
      }
    }
  }

  /** The buffer's bound over every mix of pushes, folds, withdrawals and releases. */
  lemma HeldStaysBounded(ops: seq<Op>, m: nat)
    requires forall i :: 0 <= i < |ops| && ops[i].Push? ==> Incoming(ops[i].steer, m)
    ensures TextTotal(DoAll(ops)) <= HELD_BYTES_MAX + EntryMax(m)
    ensures ImageTotal(DoAll(ops)) <= 2 * HELD_IMAGE_B64_MAX
  {
    DoAllBounded(ops, m);
  }

  // ---- Marks over a run --------------------------------------------------------------

  ghost predicate AllMarkedOnce(held: seq<HeldSteer>) {
    forall i :: 0 <= i < |held| ==> MarkedOnce(held[i].text)
  }

  lemma {:induction false} DecimalDigits(n: nat)
    ensures forall i :: 0 <= i < |Decimal(n)| ==> '0' <= Decimal(n)[i] <= '9'
  {
    if n >= 10 { DecimalDigits(n / 10); }
  }

  /** The note on dropped images brings no mark, and completes none. */
  lemma NoteUnquoted(text: string, dropped: nat, place: string)
    requires Unquoted(text) && place in {"steer buffer", "prompt queue"}
    ensures Unquoted(text + DropNote(dropped, place))
  {
    var note := DropNote(dropped, place);
    if dropped == 0 {
      assert text + note == text;
    } else {
      hide Free, DropNote;
      NoteFree(dropped, place);
      FreeAcrossFeed(text, note);
      MarkShape();
      OpensAcross(text, note);
    }
  }

  /** A prefix of a concatenation is one of its first part, or holds the second's first
      character. */
  lemma OpensAcross(text: string, note: string)
    requires note != []
    ensures FOLD_MARK[1..] <= text + note ==>
              || FOLD_MARK[1..] <= text
              || (|text| + 1 < |FOLD_MARK| && FOLD_MARK[|text| + 1] == note[0])
  {
    var tail := FOLD_MARK[1..];
    if tail <= text + note {
      assert tail == (text + note)[..|tail|];
      if |text| >= |tail| {
        assert (text + note)[..|tail|] == text[..|tail|];
      } else {
        assert tail[|text|] == (text + note)[|text|];
      }
    }
  }

  lemma NoteFree(dropped: nat, place: string)
    requires dropped > 0 && place in {"steer buffer", "prompt queue"}
    ensures Free(DropNote(dropped, place)) && DropNote(dropped, place) != []
    ensures DropNote(dropped, place)[0] == '\n'
  {
    DecimalDigits(dropped);
    MarkShape();
    var note, digits := DropNote(dropped, place), Decimal(dropped);
    var tail := " image(s) not attached: " + place + " full]";
    assert note == "\n[" + digits + tail;
    assert forall i :: 0 <= i < |tail| ==> tail[i] != '\U{2026}';
    assert forall i :: 0 <= i < |note| ==> note[i] != '\U{2026}';
    MarksHoldEllipsis(note);
  }

  lemma MarksHoldEllipsis(text: string)
    ensures forall i: nat | MarkAt(text, i) :: i + 2 < |text| && text[i + 2] == '\U{2026}'
  {
    MarkShape();
    forall i: nat | MarkAt(text, i)
      ensures i + 2 < |text| && text[i + 2] == '\U{2026}'
    {
      assert text[i..i + |FOLD_MARK|][2] == text[i + 2];
    }
  }

  lemma PushedMarksOnce(held: seq<HeldSteer>, steer: HeldSteer)
    requires AllMarkedOnce(held) && Unquoted(steer.text)
    ensures AllMarkedOnce(Pushed(held, steer))
  {
    hide KeptImages, Folded, DropNote, Free, Unquoted, MarkedOnce, Full, StripMark;
    if held != [] && Full(held, steer) {
      var last := held[|held| - 1];
      var (images, dropped) := KeptImages(last.images, steer.images, HELD_IMAGE_B64_MAX);
      NoteUnquoted(steer.text, dropped, "steer buffer");
      FoldMarksOnce(last.text, steer.text + DropNote(dropped, "steer buffer"), HELD_BYTES_MAX);
    } else {
      UnquotedOnce(steer.text);
    }
  }

  lemma UnquotedOnce(text: string)
    requires Unquoted(text)
    ensures MarkedOnce(text)
  {
    FreeIsUnmarked(text);
  }

  lemma {:induction false} WithdrawnMarksOnce(held: seq<HeldSteer>, key: string)
    requires AllMarkedOnce(held)
    ensures AllMarkedOnce(Withdrawn(held, key))
  {
    hide MarkedOnce;
    if held != [] { WithdrawnMarksOnce(held[..|held| - 1], key); }
  }

  /** Over every mix of operations on messages that do not quote it, no held text ever has more
      than the one mark at its end. */
  lemma {:induction false} MarksNeverStack(ops: seq<Op>)
    requires forall i :: 0 <= i < |ops| && ops[i].Push? ==> Unquoted(ops[i].steer.text)
    ensures AllMarkedOnce(DoAll(ops))
  {
    hide MarkedOnce, Unquoted;
    if ops != [] {
      var front := ops[..|ops| - 1];
      MarksNeverStack(front);
      match ops[|ops| - 1] {
        case Push(steer) => PushedMarksOnce(DoAll(front), steer);
        case Withdraw(key) => WithdrawnMarksOnce(DoAll(front), key);
        case Release =>
      }
    }
  }

  function Filler(n: nat): string {
    seq(n, _ => 'a')
  }

  lemma {:induction false} FillerBytes(n: nat)
    ensures Bytes(Filler(n)) == n
  {
    if n > 0 {
      assert Filler(n)[..n - 1] == Filler(n - 1);
      FillerBytes(n - 1);
    }
  }

  /** What the cap leaves in front of a mark. */
  function Room(): (n: nat)
    ensures n + Bytes(FOLD_MARK) == HELD_BYTES_MAX
  {
    MarkFits();
    HELD_BYTES_MAX - Bytes(FOLD_MARK)
  }

  /** A steer that fills the buffer and quotes the mark across its cap, and any steer behind
      it: the one held text ends in two marks. */
  lemma MarksCanStack(next: HeldSteer)
    ensures var kept := Filler(Room());
            var quoting := HeldSteer(kept + FOLD_MARK + "x", [], Steer, None);
            var held := DoAll([Push(quoting), Push(next)]);
            |held| == 1 && held[0].text == kept + FOLD_MARK + FOLD_MARK && !MarkedOnce(held[0].text)
  {
    hide *;
    var kept := Filler(Room());
    FillerBytes(Room());
    var quoting := HeldSteer(kept + FOLD_MARK + "x", [], Steer, None);
    DoAllPush([], quoting);
    DoAllPush([] + [Push(quoting)], next);
    assert [] + [Push(quoting)] + [Push(next)] == [Push(quoting), Push(next)];
    BytesConcat(kept, FOLD_MARK);
    BytesConcat(kept + FOLD_MARK, "x");
    var text := FullFolds(quoting, next);
    StackedFold(kept, text);
    TwoMarks(kept);
  }

  lemma FullFolds(last: HeldSteer, next: HeldSteer) returns (text: string)
    requires Bytes(last.text) >= HELD_BYTES_MAX
    ensures Pushed([], last) == [last]
    ensures |Pushed([last], next)| == 1 && Pushed([last], next)[0].text == Folded(last.text, text, HELD_BYTES_MAX)
  {
    hide Bytes, KeptImages, Folded, DropNote;
    assert [] + [last] == [last] && [last][..0] == [];
    TotalsSnoc([], last);
    EmptyTotals([]);
    assert Full([last], next);
    text := next.text + DropNote(KeptImages(last.images, next.images, HELD_IMAGE_B64_MAX).1, "steer buffer");
  }

  lemma MarkedEnd(text: string)
    ensures Marked(text) ==> text != [] && text[|text| - 1] == ']'
  {
    MarkShape();
    if Marked(text) { assert text[|text| - |FOLD_MARK|..][|FOLD_MARK| - 1] == text[|text| - 1]; }
  }

  lemma StackedFold(kept: string, text: string)
    requires Bytes(kept) + Bytes(FOLD_MARK) == HELD_BYTES_MAX
    ensures Folded(kept + FOLD_MARK + "x", text, HELD_BYTES_MAX) == kept + FOLD_MARK + FOLD_MARK
  {
    hide Bytes, Longest, Marked;
    var last, more := kept + FOLD_MARK + "x", "x" + "\n\n" + text;
    BytesConcat(kept, FOLD_MARK);
    MarkedEnd(last);
    assert last[|last| - 1] == 'x';
    assert StripMark(last) == last;
    assert last + "\n\n" + text == kept + FOLD_MARK + more;
    CutAt(kept + FOLD_MARK, more);
    assert Joined(last, text) == kept + FOLD_MARK + more;
  }

  lemma TwoMarks(kept: string)
    ensures !MarkedOnce(kept + FOLD_MARK + FOLD_MARK)
  {
    MarkOn(kept);
    MarkOn(kept + FOLD_MARK);
    if Free(kept + FOLD_MARK) { FreeIsUnmarked(kept + FOLD_MARK); }
  }

  lemma MarkFits()
    ensures Bytes(FOLD_MARK) <= HELD_BYTES_MAX
  {
    MarkShape();
    BytesAtMost(FOLD_MARK);
  }

  lemma {:induction false} BytesAtMost(text: string)
    ensures Bytes(text) <= 4 * |text|
  {
    if text != [] { BytesAtMost(text[..|text| - 1]); }
  }

  predicate WithinImageCap(held: seq<HeldSteer>) {
    ImageTotal(held) <= HELD_IMAGE_B64_MAX
  }

  /** The documented cap on images is not kept by every push: a fold measures only the entry
      it folds into. A buffer under the cap stays under it, whatever message comes next,
      exactly when no entry but the last carries image bytes. */
  lemma ImageCapKeptExactly(held: seq<HeldSteer>)
    requires held != [] && WithinImageCap(held)
    ensures (forall steer: HeldSteer | ImagesBytes(steer.images) <= HELD_IMAGE_B64_MAX ::
               WithinImageCap(Pushed(held, steer)))
            <==> ImageTotal(held[..|held| - 1]) == 0
  {
    var front, last := held[..|held| - 1], held[|held| - 1];
    assert held == front + [last];
    TotalsSnoc(front, last);
    if ImageTotal(front) == 0 {
      forall steer: HeldSteer | ImagesBytes(steer.images) <= HELD_IMAGE_B64_MAX
        ensures WithinImageCap(Pushed(held, steer))
      {
        if Full(held, steer) {
          KeptImagesBounds(last.images, steer.images, HELD_IMAGE_B64_MAX);
          TotalsSnoc(front, FoldSteer(last, steer));
        } else {
          TotalsSnoc(held, steer);
        }
      }
    } else {
      var steer := Overflowing(last);
      OverflowingFits(last);
      TotalsSnoc(front, FoldSteer(last, steer));
      assert !WithinImageCap(Pushed(held, steer));
    }
  }

  /** One image that exactly fills what the last entry has left. */
  function Overflowing(last: HeldSteer): HeldSteer
    requires ImagesBytes(last.images) <= HELD_IMAGE_B64_MAX
  {
    var room := HELD_IMAGE_B64_MAX - ImagesBytes(last.images);
    HeldSteer("", [Image(seq(room, _ => 'A'))], Steer, None)
  }

  lemma OverflowingFits(last: HeldSteer)
    requires ImagesBytes(last.images) <= HELD_IMAGE_B64_MAX
    ensures ImagesBytes(Overflowing(last).images) == HELD_IMAGE_B64_MAX - ImagesBytes(last.images)
    ensures ImagesBytes(FoldSteer(last, Overflowing(last)).images) == HELD_IMAGE_B64_MAX
  {
    var image := Overflowing(last).images[0];
    assert Overflowing(last).images[1..] == [];
    ImagesBytesSnoc(last.images, image);
    assert KeptImages(last.images, [image], HELD_IMAGE_B64_MAX)
        == KeptImages(last.images + [image], [], HELD_IMAGE_B64_MAX);
  }

  /** Twice the cap is reached: fill one entry, open a second, and fold images into it. */
  lemma TwiceTheCapIsReached()
    ensures exists ops: seq<Op> ::
              && (forall i :: 0 <= i < |ops| && ops[i].Push? ==> Incoming(ops[i].steer, 0))
              && ImageTotal(DoAll(ops)) == 2 * HELD_IMAGE_B64_MAX
  {
    hide *;
    var empty := HeldSteer("", [], Steer, None);
    var heavy := Heavy(empty);
    HeavyThenEmpty(heavy, empty);
    DoAllPush([], heavy);
    DoAllPush([] + [Push(heavy)], empty);
    DoAllPush([] + [Push(heavy)] + [Push(empty)], heavy);
    var ops := [] + [Push(heavy)] + [Push(empty)] + [Push(heavy)];
    assert forall i :: 0 <= i < |ops| ==> ops[i] == Push(heavy) || ops[i] == Push(empty);
  }

  lemma Heavy(empty: HeldSteer) returns (heavy: HeldSteer)
    requires empty.images == []
    ensures ImagesBytes(empty.images) <= HELD_IMAGE_B64_MAX
    ensures heavy == Overflowing(empty)
  {
    heavy := Overflowing(empty);
  }

  lemma HeavyThenEmpty(heavy: HeldSteer, empty: HeldSteer)
    requires empty == HeldSteer("", [], Steer, None) && ImagesBytes(empty.images) <= HELD_IMAGE_B64_MAX
    requires heavy == Overflowing(empty)
    ensures ImagesBytes(heavy.images) == HELD_IMAGE_B64_MAX && Incoming(heavy, 0) && Incoming(empty, 0)
    ensures Pushed([], heavy) == [heavy]
    ensures Pushed([heavy], empty) == [heavy, empty]
    ensures ImageTotal(Pushed([heavy, empty], heavy)) == 2 * HELD_IMAGE_B64_MAX
  {
    OverflowingFits(empty);
    hide KeptImages, Folded, DropNote, Overflowing;
    assert [] + [heavy] == [heavy];
    TotalsSnoc([], heavy);
    assert [heavy] + [empty] == [heavy, empty];
    TotalsSnoc([heavy], empty);
    assert [heavy, empty][..1] == [heavy];
    TotalsSnoc([heavy], FoldSteer(empty, heavy));
  }

  lemma DoAllPush(ops: seq<Op>, steer: HeldSteer)
    ensures DoAll([]) == []
    ensures DoAll(ops + [Push(steer)]) == Pushed(DoAll(ops), steer)
  {
    assert (ops + [Push(steer)])[..|ops|] == ops;
  }

  // ---- Queued prompts -----------------------------------------------------------

  function FoldPrompt(last: QueuedPrompt, prompt: QueuedPrompt): QueuedPrompt {
    var (images, dropped) := KeptImages(last.images, prompt.images, HELD_IMAGE_B64_MAX);
    last.(images := images,
          text := Folded(last.text, prompt.text + DropNote(dropped, "prompt queue"), HELD_BYTES_MAX))
  }

  function Queued(queue: seq<QueuedPrompt>, prompt: QueuedPrompt): seq<QueuedPrompt> {
    if queue != [] && |queue| >= QUEUE_MAX
    then queue[..|queue| - 1] + [FoldPrompt(queue[|queue| - 1], prompt)]
    else queue + [prompt]
  }

  /** What becomes of a prompt that has to wait: the last place in the queue, or, past the limit, a
      place in the prompt that has it. */
  ghost predicate PromptWaits(queue: seq<QueuedPrompt>, prompt: QueuedPrompt, out: seq<QueuedPrompt>) {
    if |queue| < QUEUE_MAX
    then out == queue + [prompt]
    else
      && |out| == |queue| && out[..|queue| - 1] == queue[..|queue| - 1]
      && var was, now := queue[|queue| - 1], out[|queue| - 1];
         && now.synthetic == was.synthetic
         && TakesIn(was.text, was.images, prompt.text, prompt.images, "prompt queue", now.text, now.images)
  }

  lemma QueuedWaits(queue: seq<QueuedPrompt>, prompt: QueuedPrompt)
    ensures PromptWaits(queue, prompt, Queued(queue, prompt))
  {
    hide TakesIn, KeptImages, Folded, DropNote;
    if |queue| >= QUEUE_MAX {
      var was := queue[|queue| - 1];
      TakenIn(was.text, was.images, prompt.text, prompt.images, "prompt queue");
    }
  }

  predicate QueueBounded(queue: seq<QueuedPrompt>, m: nat) {
    && |queue| <= QUEUE_MAX
    && forall i :: 0 <= i < |queue| ==>
         Bytes(queue[i].text) <= EntryMax(m) && ImagesBytes(queue[i].images) <= HELD_IMAGE_B64_MAX
  }

  predicate QueueIncoming(prompt: QueuedPrompt, m: nat) {
    Bytes(prompt.text) <= m && ImagesBytes(prompt.images) <= HELD_IMAGE_B64_MAX
  }

  ghost predicate QueueMarkedOnce(queue: seq<QueuedPrompt>) {
    forall i :: 0 <= i < |queue| ==> MarkedOnce(queue[i].text)
  }

  lemma QueuedMarksOnce(queue: seq<QueuedPrompt>, prompt: QueuedPrompt)
    requires QueueMarkedOnce(queue) && Unquoted(prompt.text)
    ensures QueueMarkedOnce(Queued(queue, prompt))
  {
    hide KeptImages, Folded, DropNote, Unquoted, MarkedOnce;
    if queue != [] && |queue| >= QUEUE_MAX {
      var last := queue[|queue| - 1];
      var (images, dropped) := KeptImages(last.images, prompt.images, HELD_IMAGE_B64_MAX);
      NoteUnquoted(prompt.text, dropped, "prompt queue");
      FoldMarksOnce(last.text, prompt.text + DropNote(dropped, "prompt queue"), HELD_BYTES_MAX);
    } else {
      UnquotedOnce(prompt.text);
    }
  }

  /** Admit a prompt behind a running turn: the queue keeps its bounds, and every prompt but
      the last keeps its place and its words. */
  method QueuePrompt(queue: seq<QueuedPrompt>, prompt: QueuedPrompt) returns (out: seq<QueuedPrompt>)
    ensures out == Queued(queue, prompt)
    ensures PromptWaits(queue, prompt, out)
    ensures queue != [] ==> queue[..|queue| - 1] <= out
    ensures |out| == |queue| + (if |queue| < QUEUE_MAX then 1 else 0)
    ensures forall m: nat | QueueBounded(queue, m) && QueueIncoming(prompt, m) :: QueueBounded(out, m)
    ensures QueueMarkedOnce(queue) && Unquoted(prompt.text) ==> QueueMarkedOnce(out)
  {
    forall m: nat | QueueBounded(queue, m) && QueueIncoming(prompt, m)
      ensures QueueBounded(Queued(queue, prompt), m)
    {
      QueueStaysBounded(queue, prompt, m);
    }
    if QueueMarkedOnce(queue) && Unquoted(prompt.text) { QueuedMarksOnce(queue, prompt); }
    QueuedWaits(queue, prompt);
    hide PromptWaits, KeepsWhatFits, FoldsTo, QueueBounded, QueueIncoming, QueueMarkedOnce, Unquoted, Bytes,
         KeptImages, Folded;
    var full := |queue| >= QUEUE_MAX;
    if queue != [] && full {
      var last := queue[|queue| - 1];
      var images, dropped := FoldImages(last.images, prompt.images, HELD_IMAGE_B64_MAX);
      var text := prompt.text;
      if dropped > 0 {
        text := text + DropNote(dropped, "prompt queue");
      } else {
        assert text + DropNote(dropped, "prompt queue") == text;
      }
      text := FoldInto(last.text, text, HELD_BYTES_MAX);
      out := queue[..|queue| - 1] + [last.(images := images, text := text)];
    } else {
      out := queue + [prompt];
    }
  }

  /** The prompt queue never outgrows its length or its per-entry bounds, and promotion from
      the front keeps it so. */
  lemma QueueStaysBounded(queue: seq<QueuedPrompt>, prompt: QueuedPrompt, m: nat)
    requires QueueBounded(queue, m)
    requires QueueIncoming(prompt, m)
    ensures QueueBounded(Queued(queue, prompt), m)
    ensures queue != [] ==> QueueBounded(queue[1..], m)
  {
    hide Bytes, ImagesBytes, KeptImages, Folded, DropNote;
    if queue != [] && |queue| >= QUEUE_MAX {
      var last := queue[|queue| - 1];
      var (images, dropped) := KeptImages(last.images, prompt.images, HELD_IMAGE_B64_MAX);
      KeptImagesBounds(last.images, prompt.images, HELD_IMAGE_B64_MAX);
      FoldKeepsHeadAndDiscloses(last.text, prompt.text + DropNote(dropped, "prompt queue"), HELD_BYTES_MAX);
    }
  }
}
