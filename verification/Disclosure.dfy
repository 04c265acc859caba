/** Whether what a waiting room drops is told: an entry without the mark holds every word of every
    message folded into it, unless a message shorter than the cut's slack took the mark away. */
module Disclosure {
  import opened Items
  import opened HeldBuffer

  lemma JoinedBytes(dst: string, text: string)
    ensures Bytes(Joined(dst, text))
         == Bytes(StripMark(dst)) + (if StripMark(dst) == [] then 0 else 2) + Bytes(text)
  {
    hide Bytes;
    var base := StripMark(dst);
    var gap := if base == [] then [] else ['\n', '\n'];
    WholeBytes(base, gap, text);
    assert ['\n', '\n'] == "\n\n";
    assert Joined(dst, text) == base + gap + text by {
      if base == [] { assert base + [] + text == text; }
    }
  }

  /** The mark follows a fold exactly when the words did not fit: one that was there before does
      not keep it. */
  lemma MarkFollowsExactly(dst: string, text: string, max: nat)
    requires MarkedOnce(dst) && Unquoted(text)
    ensures Marked(Folded(dst, text, max)) <==>
            Bytes(StripMark(dst)) + (if StripMark(dst) == [] then 0 else 2) + Bytes(text) > max
  {
    hide Bytes, MarkedOnce, Unquoted, Free, Longest, Marked, Joined;
    var joined := Joined(dst, text);
    JoinedBytes(dst, text);
    JoinedFree(dst, text);
    FreeIsUnmarked(joined);
    if Bytes(joined) > max { MarkOn(joined[..Longest(joined, max)]); }
  }

  lemma WidthAtMost(c: char)
    ensures Bytes([c]) <= 4
  {
    assert [c][..0] == [];
  }

  /** A cut leaves less room than one character takes. */
  lemma CutIsTight(dst: string, text: string, max: nat)
    requires Bytes(Joined(dst, text)) > max
    ensures Bytes(StripMark(Folded(dst, text, max))) + 4 > max
  {
    hide Joined, Bytes, Marked;
    var joined := Joined(dst, text);
    var n := Longest(joined, max);
    assert joined[..|joined|] == joined;
    assert joined[..n + 1] == joined[..n] + [joined[n]];
    BytesConcat(joined[..n], [joined[n]]);
    WidthAtMost(joined[n]);
    MarkOn(joined[..n]);
  }

  /** The entry tells: it holds all that was said, or it ends in the mark with no room left. */
  ghost predicate Tells(said: string, text: string, max: nat) {
    && MarkedOnce(text)
    && if Marked(text) then Bytes(StripMark(text)) + 4 > max else text == said && said != []
  }

  lemma NonEmptyBytes(text: string)
    ensures Bytes(text) > 0 <==> text != []
  {
  }

  /** One more message of two bytes or more, and the entry still tells. */
  lemma TellsOn(said: string, dst: string, text: string, max: nat)
    requires Tells(said, dst, max) && Unquoted(text) && Bytes(text) >= 2 && max >= 4
    ensures Tells(said + "\n\n" + text, Folded(dst, text, max), max)
  {
    hide Bytes, MarkedOnce, Unquoted, Longest, Joined;
    var out := Folded(dst, text, max);
    FoldMarksOnce(dst, text, max);
    JoinedBytes(dst, text);
    MarkFollowsExactly(dst, text, max);
    NonEmptyBytes(StripMark(dst));
    hide StripMark, Marked, Folded;
    if Bytes(Joined(dst, text)) > max {
      CutIsTight(dst, text, max);
      FoldKeepsHeadAndDiscloses(dst, text, max);
    } else {
      FitsAsJoined(dst, text, max);
    }
  }

  lemma FitsAsJoined(dst: string, text: string, max: nat)
    requires Bytes(Joined(dst, text)) <= max && !Marked(dst) && dst != []
    ensures Folded(dst, text, max) == dst + "\n\n" + text
  {
  }

  /** Everything the messages of a group said, and how many images each left behind. */
  function Said(group: seq<HeldSteer>): string
    requires group != []
  {
    if |group| == 1 then group[0].text
    else
      var front, last := group[..|group| - 1], group[|group| - 1];
      var dropped := KeptImages(Folding(front).images, last.images, HELD_IMAGE_B64_MAX).1;
      Said(front) + "\n\n" + (last.text + DropNote(dropped, "steer buffer"))
  }

  /** A message that does not quote the mark and is longer than what a cut can leave free. */
  ghost predicate Plain(text: string) {
    Unquoted(text) && Bytes(text) >= 2
  }

  lemma PlainNote(text: string, dropped: nat, place: string)
    requires Plain(text) && place in {"steer buffer", "prompt queue"}
    ensures Plain(text + DropNote(dropped, place))
  {
    hide Bytes, Unquoted, DropNote;
    NoteUnquoted(text, dropped, place);
    BytesConcat(text, DropNote(dropped, place));
  }

  lemma FoldingUnfolds(group: seq<HeldSteer>)
    requires |group| > 1
    ensures var front, last := Folding(group[..|group| - 1]), group[|group| - 1];
            var dropped := KeptImages(front.images, last.images, HELD_IMAGE_B64_MAX).1;
            var more := last.text + DropNote(dropped, "steer buffer");
            && Folding(group).text == Folded(front.text, more, HELD_BYTES_MAX)
            && Said(group) == Said(group[..|group| - 1]) + "\n\n" + more
  {
    hide Folded, DropNote;
  }

  lemma {:induction false} GroupTells(group: seq<HeldSteer>)
    requires group != [] && forall i :: 0 <= i < |group| ==> Plain(group[i].text)
    ensures Tells(Said(group), Folding(group).text, HELD_BYTES_MAX)
    decreases |group|
  {
    hide Plain, Tells, Folding, Said, DropNote, KeptImages, Folded;
    if |group| == 1 {
      LoneTells(group);
    } else {
      var front, last := group[..|group| - 1], group[|group| - 1];
      GroupTells(front);
      FoldingUnfolds(group);
      var dropped := KeptImages(Folding(front).images, last.images, HELD_IMAGE_B64_MAX).1;
      PlainNote(last.text, dropped, "steer buffer");
      PlainIs(last.text + DropNote(dropped, "steer buffer"));
      TellsOn(Said(front), Folding(front).text, last.text + DropNote(dropped, "steer buffer"), HELD_BYTES_MAX);
    }
  }

  lemma PlainIs(text: string)
    requires Plain(text)
    ensures Unquoted(text) && Bytes(text) >= 2 && text != [] && MarkedOnce(text) && !Marked(text)
  {
    hide Free;
    UnquotedOnce(text);
    UnquotedIsFree(text);
    FreeIsUnmarked(text);
  }

  lemma LoneTells(group: seq<HeldSteer>)
    requires |group| == 1 && Plain(group[0].text)
    ensures Tells(Said(group), Folding(group).text, HELD_BYTES_MAX)
  {
    hide Plain, Bytes, MarkedOnce;
    PlainIs(group[0].text);
  }

  /** The messages pushed into a held buffer. */
  function Pushes(ops: seq<Op>): seq<HeldSteer> {
    if ops == [] then []
    else Pushes(ops[..|ops| - 1]) + (if ops[|ops| - 1].Push? then [ops[|ops| - 1].steer] else [])
  }

  lemma {:induction false} GroupsHoldPushes(ops: seq<Op>)
    ensures forall i, j :: 0 <= i < |Grouped(ops)| && 0 <= j < |Grouped(ops)[i]| ==> Grouped(ops)[i][j] in Pushes(ops)
  {
    hide Full, DoAll;
    if ops != [] {
      GroupsHoldPushes(ops[..|ops| - 1]);
      var groups := Grouped(ops[..|ops| - 1]);
      match ops[|ops| - 1] {
        case Push(steer) =>
        case Withdraw(key) =>
          ElsewhereAmong(groups, key);
          forall i, j | 0 <= i < |Grouped(ops)| && 0 <= j < |Grouped(ops)[i]|
            ensures Grouped(ops)[i][j] in Pushes(ops)
          {
            assert OpenedElsewhere(groups, key)[i] in groups;
          }
        case Release =>
      }
    }
  }

  lemma {:induction false} ElsewhereAmong(groups: seq<seq<HeldSteer>>, key: string)
    requires AllGroups(groups)
    ensures forall group :: group in OpenedElsewhere(groups, key) ==> group in groups
  {
    if groups != [] { ElsewhereAmong(groups[..|groups| - 1], key); }
  }

  /** Over every mix of operations on such messages, an entry without the mark is its messages'
      words, every one of them and in order. */
  lemma UnmarkedHoldsAll(ops: seq<Op>, i: nat)
    requires forall k :: 0 <= k < |Pushes(ops)| ==> Plain(Pushes(ops)[k].text)
    requires i < |DoAll(ops)|
    ensures |DoAll(ops)| == |Grouped(ops)|
    ensures !Marked(DoAll(ops)[i].text) ==> DoAll(ops)[i].text == Said(Grouped(ops)[i])
  {
    HeldInGroups(ops);
    GroupsHoldPushes(ops);
    hide Plain, Tells, Folding, Said, DoAll, Grouped, Pushes;
    GroupTells(Grouped(ops)[i]);
    TellsIs(Said(Grouped(ops)[i]), Folding(Grouped(ops)[i]).text, HELD_BYTES_MAX);
  }

  lemma TellsIs(said: string, text: string, max: nat)
    requires Tells(said, text, max)
    ensures !Marked(text) ==> text == said
  {
  }

  // ---- A mark that goes -------------------------------------------------------------

  const WIDE := "\U{1F600}"

  /** A text that fills the buffer up to a character the cap cuts through. */
  function Brimming(): string {
    Filler(HELD_BYTES_MAX - 3) + WIDE
  }

  lemma WideBytes()
    ensures Bytes(WIDE) == 4 && Bytes("x") == 1
  {
    assert WIDE[..0] == [] && "x"[..0] == [];
  }

  lemma BrimmingCut(rest: string)
    ensures var whole := Brimming() + rest;
            Bytes(whole) > HELD_BYTES_MAX && Longest(whole, HELD_BYTES_MAX) == HELD_BYTES_MAX - 3
            && whole[..HELD_BYTES_MAX - 3] == Filler(HELD_BYTES_MAX - 3)
  {
    hide Bytes, Filler;
    var kept := Filler(HELD_BYTES_MAX - 3);
    FillerBytes(HELD_BYTES_MAX - 3);
    FillerLength(HELD_BYTES_MAX - 3);
    WideBytes();
    var whole := Brimming() + rest;
    assert whole == kept + WIDE + rest;
    BytesConcat(kept, WIDE);
    BytesConcat(kept + WIDE, rest);
    assert whole[..|kept|] == kept && whole[..|kept| + 1] == kept + WIDE;
    LongestUnique(whole, HELD_BYTES_MAX, |kept|);
  }

  lemma FillerLength(n: nat)
    ensures |Filler(n)| == n
  {
  }

  /** A steer that brims, one that is cut away behind it, and one of a single byte: the mark the
      second left is gone, and so are its words and the first one's last character. */
  lemma MarkCanGo(lost: string)
    requires Unquoted(lost)
    ensures var held := DoAll([Push(HeldSteer(Brimming(), [], Steer, None)), Push(HeldSteer(lost, [], Steer, None)),
                               Push(HeldSteer("x", [], Steer, None))]);
            |held| == 1 && held[0].text == Filler(HELD_BYTES_MAX - 3) + "\n\nx" && !Marked(held[0].text)
  {
    hide *;
    var first, second := HeldSteer(Brimming(), [], Steer, None), HeldSteer(lost, [], Steer, None);
    var third, none: seq<Op> := HeldSteer("x", [], Steer, None), [];
    DoAllPush(none, first);
    DoAllPush([Push(first)], second);
    DoAllPush([Push(first), Push(second)], third);
    assert none + [Push(first)] == [Push(first)] && [Push(first)] + [Push(second)] == [Push(first), Push(second)];
    assert [Push(first), Push(second)] + [Push(third)] == [Push(first), Push(second), Push(third)];
    BrimmingCut([]);
    assert Brimming() + [] == Brimming();
    TakesWords(first, lost);
    Loses(lost);
    var cut := first.(text := Filler(HELD_BYTES_MAX - 3) + FOLD_MARK);
    TakesWords(cut, "x");
    UnmarkedEnd(Filler(HELD_BYTES_MAX - 3) + "\n\nx");
  }

  lemma UnmarkedEnd(text: string)
    requires text != [] && text[|text| - 1] == 'x'
    ensures !Marked(text)
  {
    hide Marked;
    MarkedEnd(text);
  }

  /** Behind a full entry without images the words of one without images are folded in. */
  lemma TakesWords(last: HeldSteer, text: string)
    requires Bytes(last.text) >= HELD_BYTES_MAX && last.images == []
    ensures Pushed([], last) == [last]
    ensures Pushed([last], HeldSteer(text, [], Steer, None))
         == [last.(text := Folded(last.text, text, HELD_BYTES_MAX))]
  {
    hide Bytes, Folded;
    assert [] + [last] == [last] && [last][..0] == [];
    TotalsSnoc([], last);
    EmptyTotals([]);
    assert text + DropNote(0, "steer buffer") == text;
  }

  lemma Loses(lost: string)
    requires Unquoted(lost)
    ensures var kept := Filler(HELD_BYTES_MAX - 3);
            && Folded(Brimming(), lost, HELD_BYTES_MAX) == kept + FOLD_MARK
            && Folded(kept + FOLD_MARK, "x", HELD_BYTES_MAX) == kept + "\n\nx"
            && Bytes(kept + FOLD_MARK) >= HELD_BYTES_MAX
  {
    hide Bytes, Longest, Filler, Marked, Unquoted;
    var kept := Filler(HELD_BYTES_MAX - 3);
    FillerBytes(HELD_BYTES_MAX - 3);
    FillerLength(HELD_BYTES_MAX - 3);
    BrimmingCut("\n\n" + lost);
    BrimmingUnmarked();
    assert Brimming() + "\n\n" + lost == Brimming() + ("\n\n" + lost);
    MarkOn(kept);
    WideBytes();
    WholeBytes(kept, ['\n', '\n'], "x");
    assert ['\n', '\n'] == "\n\n" && kept + "\n\n" + "x" == kept + "\n\nx";
    BytesConcat(kept, FOLD_MARK);
    MarkWeighs();
  }

  lemma MarkWeighs()
    ensures Bytes(FOLD_MARK) >= 3
  {
    BytesConcat(FOLD_MARK[..3], FOLD_MARK[3..]);
    assert FOLD_MARK == FOLD_MARK[..3] + FOLD_MARK[3..];
    BytesAtLeast(FOLD_MARK[..3]);
    MarkShape();
  }

  lemma {:induction false} BytesAtLeast(text: string)
    ensures Bytes(text) >= |text|
  {
    if text != [] { BytesAtLeast(text[..|text| - 1]); }
  }

  lemma BrimmingUnmarked()
    ensures !Marked(Brimming()) && Brimming() != []
  {
    hide Filler;
    MarkShape();
    var text := Brimming();
    assert text[|text| - 1] == WIDE[0];
    if Marked(text) { MarkedEnd(text); }
  }
}
