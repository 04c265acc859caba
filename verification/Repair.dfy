/** History repair on resume: regrouping results behind the calls they answer, then
    answering the calls nothing ever answered. */
module Repair {
  import opened Items

  const NOT_EXECUTED := "Not executed (the turn ended first)."

  // ---- Regrouping ----------------------------------------------------------

  predicate Anchor(item: Item) {
    item.Assistant? || item.ToolResults?
  }

  /** Index of the first assistant or results item, or the length. */
  function NextAnchor(items: seq<Item>): (k: nat)
    ensures k <= |items|
    ensures forall j :: 0 <= j < k ==> !Anchor(items[j])
    ensures k < |items| ==> Anchor(items[k])
  {
    if items == [] || Anchor(items[0]) then 0 else 1 + NextAnchor(items[1..])
  }

  /** Results reach `items` before the next assistant turn does. */
  predicate AnswerAhead(items: seq<Item>) {
    var k := NextAnchor(items);
    k < |items| && items[k].ToolResults?
  }

  predicate FirstIsResults(items: seq<Item>) {
    items != [] && items[0].ToolResults?
  }

  /** What regrouping means: behind each calling turn, the first results that come before
      another assistant turn move up to it; everything else keeps its place. */
  function Regroup(items: seq<Item>): seq<Item>
    decreases |items|
  {
    if items == [] then []
    else
      var rest := items[1..];
      if !Calls(items[0]) then [items[0]] + Regroup(rest)
      else
        var k := NextAnchor(rest);
        if AnswerAhead(rest) then [items[0], rest[k]] + rest[..k] + Regroup(rest[k + 1..])
        else [items[0]] + rest[..k] + Regroup(rest[k..])
  }

  lemma {:induction false} NextAnchorAt(quiet: seq<Item>, rest: seq<Item>)
    requires forall j :: 0 <= j < |quiet| ==> !Anchor(quiet[j])
    requires rest != [] ==> Anchor(rest[0])
    ensures NextAnchor(quiet + rest) == |quiet|
  {
    if quiet == [] {
      assert quiet + rest == rest;
    } else {
      assert (quiet + rest)[1..] == quiet[1..] + rest;
      NextAnchorAt(quiet[1..], rest);
    }
  }

  /** Where regrouping stands with a calling turn still open and `quiet` set aside. */
  lemma RegroupOpen(call: Item, quiet: seq<Item>, rest: seq<Item>)
    requires Calls(call)
    requires forall j :: 0 <= j < |quiet| ==> !Anchor(quiet[j])
    requires rest != [] ==> Anchor(rest[0])
    ensures Regroup([call] + quiet + rest)
         == if FirstIsResults(rest)
            then [call, rest[0]] + quiet + Regroup(rest[1..])
            else [call] + quiet + Regroup(rest)
  {
    var all := [call] + quiet + rest;
    assert all[1..] == quiet + rest;
    NextAnchorAt(quiet, rest);
    assert (quiet + rest)[..|quiet|] == quiet;
    assert (quiet + rest)[|quiet|..] == rest;
    if rest != [] {
      assert (quiet + rest)[|quiet|] == rest[0];
      assert (quiet + rest)[|quiet| + 1..] == rest[1..];
    }
  }

  /** A history cut at its first assistant or results item. */
  lemma CutQuiet(more: seq<Item>) returns (quiet: seq<Item>, rest: seq<Item>)
    ensures more == quiet + rest
    ensures forall j :: 0 <= j < |quiet| ==> !Anchor(quiet[j])
    ensures rest != [] ==> Anchor(rest[0])
    ensures FirstIsResults(rest) == AnswerAhead(more)
  {
    var k := NextAnchor(more);
    quiet, rest := more[..k], more[k..];
  }

  /** A history that opens on a calling turn, cut at the next assistant or results item. */
  lemma Cut(items: seq<Item>) returns (quiet: seq<Item>, rest: seq<Item>)
    requires items != [] && Calls(items[0])
    ensures items == [items[0]] + quiet + rest
    ensures items[1..] == quiet + rest
    ensures forall j :: 0 <= j < |quiet| ==> !Anchor(quiet[j])
    ensures rest != [] ==> Anchor(rest[0])
    ensures FirstIsResults(rest) ==> rest != [] && rest[0].ToolResults? && rest == [rest[0]] + rest[1..]
    ensures AnswerAhead(items[1..]) <==> FirstIsResults(rest)
    ensures Regroup(items)
         == if FirstIsResults(rest)
            then [items[0], rest[0]] + quiet + Regroup(rest[1..])
            else [items[0]] + quiet + Regroup(rest)
  {
    hide *;
    quiet, rest := CutQuiet(items[1..]);
    assert items == [items[0]] + items[1..];
    Assoc([items[0]], quiet, rest);
    FirstIs(rest);
    RegroupOpen(items[0], quiet, rest);
  }

  lemma FirstIs(rest: seq<Item>)
    ensures FirstIsResults(rest) ==> rest != [] && rest[0].ToolResults? && rest == [rest[0]] + rest[1..]
  {
  }

  /** What the loop still owes, with `out` written and `stranded` set aside. */
  ghost predicate Owed(items: seq<Item>, out: seq<Item>, stranded: seq<Item>, rest: seq<Item>) {
    && (forall j :: 0 <= j < |stranded| ==> !Anchor(stranded[j]))
    && if Awaiting(out)
       then Regroup(items) == out[..|out| - 1] + Regroup([out[|out| - 1]] + stranded + rest)
       else stranded == [] && Regroup(items) == out + Regroup(rest)
  }

  lemma RegroupCons(item: Item, rest: seq<Item>)
    requires !Calls(item)
    ensures Regroup([item] + rest) == [item] + Regroup(rest)
  {
    assert ([item] + rest)[1..] == rest;
  }

  lemma OwedPush(items: seq<Item>, out: seq<Item>, item: Item, rest: seq<Item>)
    requires Regroup(items) == out + Regroup([item] + rest)
    ensures Owed(items, out + [item], [], rest)
  {
    hide Regroup, ToolUses, NextAnchor, AnswerAhead;
    if !Calls(item) { RegroupCons(item, rest); }
    assert (out + [item])[..|out|] == out;
    assert [item] + [] + rest == [item] + rest;
    assert out + ([item] + Regroup(rest)) == out + [item] + Regroup(rest);
  }

  lemma OwedPlain(items: seq<Item>, out: seq<Item>, item: Item, rest: seq<Item>)
    requires Owed(items, out, [], [item] + rest)
    requires !Awaiting(out)
    ensures Owed(items, out + [item], [], rest)
  {
    hide Regroup, ToolUses, NextAnchor;
    OwedPush(items, out, item, rest);
  }

  lemma EndsOnNoCall(out: seq<Item>, quiet: seq<Item>)
    requires out != [] && !Calls(out[|out| - 1])
    requires forall j :: 0 <= j < |quiet| ==> !Anchor(quiet[j])
    ensures !Awaiting(out + quiet)
  {
    var all := out + quiet;
    assert quiet != [] ==> all[|all| - 1] == quiet[|quiet| - 1];
    assert quiet == [] ==> all == out;
  }

  lemma OwedResults(items: seq<Item>, out: seq<Item>, item: Item, quiet: seq<Item>, rest: seq<Item>)
    requires Owed(items, out, quiet, [item] + rest)
    requires Awaiting(out) && item.ToolResults?
    ensures Owed(items, out + [item] + quiet, [], rest)
  {
    hide Regroup, ToolUses, NextAnchor;
    var was, call := out[..|out| - 1], out[|out| - 1];
    RegroupOpen(call, quiet, [item] + rest);
    hide AnswerAhead, Awaiting;
    assert ([item] + rest)[1..] == rest && ([item] + rest)[0] == item;
    assert out == was + [call];
    EndsOnNoCall(out + [item], quiet);
    assert was + ([call, item] + quiet + Regroup(rest)) == out + [item] + quiet + Regroup(rest);
  }

  lemma OwedAssistant(items: seq<Item>, out: seq<Item>, item: Item, quiet: seq<Item>, rest: seq<Item>)
    requires Owed(items, out, quiet, [item] + rest)
    requires Awaiting(out) && item.Assistant?
    ensures Owed(items, out + quiet + [item], [], rest)
  {
    hide Regroup, ToolUses, NextAnchor;
    var was, call := out[..|out| - 1], out[|out| - 1];
    RegroupOpen(call, quiet, [item] + rest);
    assert out == was + [call];
    assert was + ([call] + quiet + Regroup([item] + rest)) == out + quiet + Regroup([item] + rest);
    OwedPush(items, out + quiet, item, rest);
  }

  lemma OwedQuiet(items: seq<Item>, out: seq<Item>, item: Item, quiet: seq<Item>, rest: seq<Item>)
    requires Owed(items, out, quiet, [item] + rest)
    requires Awaiting(out) && !Anchor(item)
    ensures Owed(items, out, quiet + [item], rest)
  {
    hide Regroup, ToolUses, NextAnchor;
    var call := out[|out| - 1];
    assert [call] + quiet + ([item] + rest) == [call] + (quiet + [item]) + rest;
  }

  lemma OwedNothing(items: seq<Item>, out: seq<Item>, quiet: seq<Item>)
    requires Owed(items, out, quiet, [])
    ensures Regroup(items) == out + quiet
  {
    assert Regroup([]) == [];
    hide Regroup, ToolUses, NextAnchor;
    if Awaiting(out) {
      RegroupOpen(out[|out| - 1], quiet, []);
      assert out == out[..|out| - 1] + [out[|out| - 1]];
    }
  }

  method PairToolResults(items: seq<Item>) returns (out: seq<Item>)
    ensures out == Regroup(items)
  {
    out := [];
    var stranded: seq<Item> := [];
    assert Owed(items, out, stranded, items);
    assert items[0..] == items;
    hide Regroup, ToolUses, NextAnchor;
    for i := 0 to |items|
      invariant Owed(items, out, stranded, items[i..])
    {
      var item := items[i];
      ghost var rest := items[i + 1..];
      assert items[i..] == [item] + rest;
      if !Awaiting(out) && stranded == [] {
        OwedPlain(items, out, item, rest);
        out := out + [item];
      } else {
        match item {
          case ToolResults(_) =>
            OwedResults(items, out, item, stranded, rest);
            out := out + [item];
            out, stranded := out + stranded, [];
          case Assistant(_) =>
            OwedAssistant(items, out, item, stranded, rest);
            out, stranded := out + stranded, [];
            out := out + [item];
          case _ =>
            OwedQuiet(items, out, item, stranded, rest);
            stranded := stranded + [item];
        }
      }
    }
    assert items[|items|..] == [];
    OwedNothing(items, out, stranded);
    out := out + stranded;
  }

  // ---- What regrouping keeps ------------------------------------------------

  /** Three ways of reading a history that regrouping must not disturb. */
  datatype View = OnlyResults | OnlyOthers | OnlyAnchors

  predicate Shows(view: View, item: Item) {
    match view
    case OnlyResults => item.ToolResults?
    case OnlyOthers => !item.ToolResults?
    case OnlyAnchors => Anchor(item)
  }

  function Keep(view: View, items: seq<Item>): seq<Item> {
    if items == [] then []
    else if Shows(view, items[0]) then [items[0]] + Keep(view, items[1..])
    else Keep(view, items[1..])
  }

  lemma {:induction false} KeepConcat(view: View, a: seq<Item>, b: seq<Item>)
    ensures Keep(view, a + b) == Keep(view, a) + Keep(view, b)
  {
    if a == [] {
      assert a + b == b;
    } else {
      KeepConcat(view, a[1..], b);
      assert (a + b)[1..] == a[1..] + b;
    }
  }

  lemma {:induction false} KeepQuiet(view: View, quiet: seq<Item>)
    requires forall j :: 0 <= j < |quiet| ==> !Anchor(quiet[j])
    ensures Keep(view, quiet) == if view.OnlyOthers? then quiet else []
  {
    if quiet != [] { KeepQuiet(view, quiet[1..]); }
  }

  /** Moving a results item ahead of quiet items is invisible in every view. */
  lemma KeepSwap(view: View, r: Item, quiet: seq<Item>)
    requires r.ToolResults? && forall j :: 0 <= j < |quiet| ==> !Anchor(quiet[j])
    ensures Keep(view, [r] + quiet) == Keep(view, quiet + [r])
  {
    KeepQuiet(view, quiet);
    KeepConcat(view, [r], quiet);
    KeepConcat(view, quiet, [r]);
  }

  lemma KeepMoved(view: View, call: Item, r: Item, quiet: seq<Item>, a: seq<Item>, b: seq<Item>)
    requires Keep(view, a) == Keep(view, b)
    requires r.ToolResults? && forall j :: 0 <= j < |quiet| ==> !Anchor(quiet[j])
    ensures Keep(view, [call, r] + quiet + a) == Keep(view, [call] + quiet + ([r] + b))
  {
    KeepSwap(view, r, quiet);
    KeepWithin(view, [call], [r] + quiet, quiet + [r], a, b);
    assert [call, r] + quiet + a == [call] + ([r] + quiet) + a;
    assert [call] + quiet + ([r] + b) == [call] + (quiet + [r]) + b;
  }

  lemma KeepWithin(view: View, front: seq<Item>, x: seq<Item>, y: seq<Item>, a: seq<Item>, b: seq<Item>)
    requires Keep(view, x) == Keep(view, y) && Keep(view, a) == Keep(view, b)
    ensures Keep(view, front + x + a) == Keep(view, front + y + b)
  {
    KeepSuffix(view, front, x, y);
    KeepConcat(view, front + x, a);
    KeepConcat(view, front + y, b);
  }

  lemma KeepSuffix(view: View, front: seq<Item>, a: seq<Item>, b: seq<Item>)
    requires Keep(view, a) == Keep(view, b)
    ensures Keep(view, front + a) == Keep(view, front + b)
  {
    KeepConcat(view, front, a);
    KeepConcat(view, front, b);
  }

  lemma {:induction false} RegroupKeeps(view: View, items: seq<Item>)
    ensures Keep(view, Regroup(items)) == Keep(view, items)
    decreases |items|
  {
    if items != [] {
      hide *;
      if Calls(items[0]) {
        var quiet, rest := Cut(items);
        if FirstIsResults(rest) {
          RegroupKeeps(view, rest[1..]);
          KeepMoved(view, items[0], rest[0], quiet, Regroup(rest[1..]), rest[1..]);
        } else {
          RegroupKeeps(view, rest);
          KeepSuffix(view, [items[0]] + quiet, Regroup(rest), rest);
        }
      } else {
        RegroupKeeps(view, items[1..]);
        assert items == [items[0]] + items[1..];
        RegroupCons(items[0], items[1..]);
        KeepSuffix(view, [items[0]], Regroup(items[1..]), items[1..]);
      }
    }
  }

  /** Nothing is dropped or invented; the order of results, of everything that is not a
      result, and of assistant turns against results all survive. */
  lemma RegroupIsStablePermutation(items: seq<Item>, view: View)
    ensures multiset(Regroup(items)) == multiset(items)
    ensures Keep(view, Regroup(items)) == Keep(view, items)
  {
    RegroupMultiset(items);
    RegroupKeeps(view, items);
  }

  lemma MultisetMoved(call: Item, r: Item, quiet: seq<Item>, a: seq<Item>, b: seq<Item>)
    requires multiset(a) == multiset(b)
    ensures multiset([call, r] + quiet + a) == multiset([call] + quiet + ([r] + b))
  {
  }

  lemma {:induction false} RegroupMultiset(items: seq<Item>)
    ensures multiset(Regroup(items)) == multiset(items)
    decreases |items|
  {
    if items != [] {
      hide *;
      if Calls(items[0]) {
        var quiet, rest := Cut(items);
        if FirstIsResults(rest) {
          RegroupMultiset(rest[1..]);
          MultisetMoved(items[0], rest[0], quiet, Regroup(rest[1..]), rest[1..]);
        } else {
          RegroupMultiset(rest);
        }
      } else {
        RegroupMultiset(items[1..]);
        RegroupCons(items[0], items[1..]);
        assert items == [items[0]] + items[1..];
      }
    }
  }

  // ---- What regrouping achieves ----------------------------------------------

  /** Every calling turn has its results right behind it, or has none to come. */
  predicate Tight(items: seq<Item>) {
    items == [] ||
    (Tight(items[1..]) && (Calls(items[0]) ==> FirstIsResults(items[1..]) || !AnswerAhead(items[1..])))
  }

  lemma TightCons(first: Item, rest: seq<Item>)
    ensures Tight([first] + rest) <==>
            Tight(rest) && (Calls(first) ==> FirstIsResults(rest) || !AnswerAhead(rest))
  {
    assert ([first] + rest)[1..] == rest;
  }

  lemma {:induction false} TightQuiet(quiet: seq<Item>, rest: seq<Item>)
    requires forall j :: 0 <= j < |quiet| ==> !Anchor(quiet[j])
    requires Tight(rest)
    ensures Tight(quiet + rest)
  {
    if quiet == [] {
      assert quiet + rest == rest;
    } else {
      TightQuiet(quiet[1..], rest);
      assert (quiet + rest)[1..] == quiet[1..] + rest;
    }
  }

  lemma PairThen(a: Item, b: Item, quiet: seq<Item>, rest: seq<Item>)
    ensures [a, b] + quiet + rest == [a] + ([b] + (quiet + rest))
  {
    Assoc([a, b], quiet, rest);
    assert [a, b] == [a] + [b];
    Assoc([a], [b], quiet + rest);
  }

  lemma AnswerAheadAt(quiet: seq<Item>, rest: seq<Item>)
    requires forall j :: 0 <= j < |quiet| ==> !Anchor(quiet[j])
    requires rest != [] ==> Anchor(rest[0])
    ensures AnswerAhead(quiet + rest) == FirstIsResults(rest)
  {
    NextAnchorAt(quiet, rest);
  }

  lemma TightAnswered(call: Item, r: Item, quiet: seq<Item>, rest: seq<Item>)
    requires r.ToolResults?
    requires forall j :: 0 <= j < |quiet| ==> !Anchor(quiet[j])
    requires Tight(rest)
    ensures Tight([call, r] + quiet + rest)
  {
    hide Tight, ToolUses, NextAnchor, AnswerAhead;
    TightQuiet(quiet, rest);
    TightCons(r, quiet + rest);
    TightCons(call, [r] + (quiet + rest));
    PairThen(call, r, quiet, rest);
  }

  lemma TightUnanswered(call: Item, quiet: seq<Item>, rest: seq<Item>)
    requires forall j :: 0 <= j < |quiet| ==> !Anchor(quiet[j])
    requires rest != [] ==> rest[0].Assistant?
    requires Tight(rest)
    ensures Tight([call] + quiet + rest)
  {
    hide Tight, ToolUses, NextAnchor, AnswerAhead;
    TightQuiet(quiet, rest);
    AnswerAheadAt(quiet, rest);
    TightCons(call, quiet + rest);
    Assoc([call], quiet, rest);
  }

  lemma {:induction false} RegroupTight(items: seq<Item>)
    ensures Tight(Regroup(items))
    ensures items == [] ==> Regroup(items) == []
    ensures items != [] ==> Regroup(items) != [] && Regroup(items)[0] == items[0]
    decreases |items|
  {
    if items != [] {
      hide Regroup, Tight, ToolUses, NextAnchor, AnswerAhead;
      if Calls(items[0]) {
        var quiet, rest := Cut(items);
        if FirstIsResults(rest) {
          RegroupTight(rest[1..]);
          TightAnswered(items[0], rest[0], quiet, Regroup(rest[1..]));
        } else {
          RegroupTight(rest);
          TightUnanswered(items[0], quiet, Regroup(rest));
        }
      } else {
        RegroupTight(items[1..]);
        assert items == [items[0]] + items[1..];
        RegroupCons(items[0], items[1..]);
        TightCons(items[0], Regroup(items[1..]));
      }
    }
  }

  lemma TightCut(call: Item, quiet: seq<Item>, rest: seq<Item>)
    requires Calls(call)
    requires forall j :: 0 <= j < |quiet| ==> !Anchor(quiet[j])
    requires rest != [] ==> Anchor(rest[0])
    requires Tight([call] + (quiet + rest))
    ensures Tight(rest)
    ensures FirstIsResults(rest) ==> quiet == [] && Tight(rest[1..])
  {
    TightCons(call, quiet + rest);
    AnswerAheadAt(quiet, rest);
    hide ToolUses, NextAnchor, AnswerAhead;
    TightSuffix(quiet + rest, |quiet|);
    assert (quiet + rest)[|quiet|..] == rest;
    if FirstIsResults(rest) {
      assert FirstIsResults(quiet + rest);
    }
  }

  lemma {:induction false} TightIsFixed(items: seq<Item>)
    requires Tight(items)
    ensures Regroup(items) == items
    decreases |items|
  {
    if items != [] {
      hide Regroup, Tight, ToolUses, NextAnchor, AnswerAhead;
      var rest := items[1..];
      assert items == [items[0]] + rest;
      TightCons(items[0], rest);
      if Calls(items[0]) {
        var quiet, more := Cut(items);
        TightCut(items[0], quiet, more);
        if FirstIsResults(more) {
          TightIsFixed(more[1..]);
          assert [items[0], more[0]] + [] + more[1..] == items;
        } else {
          TightIsFixed(more);
        }
      } else {
        TightIsFixed(rest);
        RegroupCons(items[0], rest);
      }
    }
  }

  lemma {:induction false} TightSuffix(items: seq<Item>, k: nat)
    requires Tight(items) && k <= |items|
    ensures Tight(items[k..])
  {
    if k > 0 {
      TightSuffix(items[1..], k - 1);
      assert items[1..][k - 1..] == items[k..];
    } else {
      assert items[0..] == items;
    }
  }

  lemma RegroupIdempotent(items: seq<Item>)
    ensures Regroup(Regroup(items)) == Regroup(items)
  {
    RegroupTight(items);
    TightIsFixed(Regroup(items));
  }

  // ---- Closing dangling batches ----------------------------------------------

  /** One error result for each call of a batch nothing will answer. */
  function UnansweredResults(blocks: seq<Block>): (r: seq<ToolResult>)
    ensures |r| == |ToolUses(blocks)|
    ensures forall i :: 0 <= i < |r| ==> r[i].toolUseId == ToolUses(blocks)[i] && r[i].isError
  {
    if blocks == [] then []
    else
      (if blocks[0].ToolUse? then [ToolResult(blocks[0].id, NOT_EXECUTED, true)] else [])
      + UnansweredResults(blocks[1..])
  }

  /** An output item and where it came from. */
  datatype Mark = Kept(item: Item) | Inserted(item: Item)

  predicate Dangling(items: seq<Item>)
    requires items != []
  {
    Calls(items[0]) && !FirstIsResults(items[1..])
  }

  function Stub(item: Item): Item
    requires item.Assistant?
  {
    ToolResults(UnansweredResults(item.blocks))
  }

  lemma StubAnswers(item: Item)
    requires item.Assistant?
    ensures Answers(item, Stub(item))
  {
    assert ResultIds(UnansweredResults(item.blocks)) == ToolUses(item.blocks);
  }

  /** The repaired history with the repair visible. */
  function Close(items: seq<Item>): seq<Mark> {
    if items == [] then []
    else if Dangling(items) then [Kept(items[0]), Inserted(Stub(items[0]))] + Close(items[1..])
    else [Kept(items[0])] + Close(items[1..])
  }

  function AllOf(marks: seq<Mark>): seq<Item> {
    if marks == [] then [] else [marks[0].item] + AllOf(marks[1..])
  }

  function KeptOf(marks: seq<Mark>): seq<Item> {
    if marks == [] then []
    else if marks[0].Kept? then [marks[0].item] + KeptOf(marks[1..])
    else KeptOf(marks[1..])
  }

  lemma MarksCons(mark: Mark, marks: seq<Mark>)
    ensures AllOf([mark] + marks) == [mark.item] + AllOf(marks)
    ensures KeptOf([mark] + marks) == (if mark.Kept? then [mark.item] + KeptOf(marks) else KeptOf(marks))
  {
    assert ([mark] + marks)[1..] == marks;
  }

  lemma MarksTwo(item: Item, stub: Item, marks: seq<Mark>)
    ensures AllOf([Kept(item), Inserted(stub)] + marks) == [item, stub] + AllOf(marks)
    ensures KeptOf([Kept(item), Inserted(stub)] + marks) == [item] + KeptOf(marks)
  {
    MarksCons(Inserted(stub), marks);
    MarksCons(Kept(item), [Inserted(stub)] + marks);
    assert [Kept(item), Inserted(stub)] + marks == [Kept(item)] + ([Inserted(stub)] + marks);
    assert [item] + ([stub] + AllOf(marks)) == [item, stub] + AllOf(marks);
  }

  function Closed(items: seq<Item>): seq<Item> {
    AllOf(Close(items))
  }

  lemma ClosedStep(items: seq<Item>)
    requires items != []
    ensures Closed(items)
         == if Dangling(items) then [items[0], Stub(items[0])] + Closed(items[1..])
            else [items[0]] + Closed(items[1..])
    ensures KeptOf(Close(items)) == [items[0]] + KeptOf(Close(items[1..]))
  {
    var tail := Close(items[1..]);
    if Dangling(items) {
      MarksTwo(items[0], Stub(items[0]), tail);
    } else {
      MarksCons(Kept(items[0]), tail);
    }
  }

  method CloseDanglingBatches(items: seq<Item>) returns (out: seq<Item>)
    ensures out == Closed(items)
  {
    out := [];
    for i := 0 to |items|
      invariant Closed(items) == out + Closed(items[i..])
    {
      var item := items[i];
      ghost var rest, was := items[i..], out;
      assert rest[1..] == items[i + 1..];
      ClosedStep(rest);
      if item.Assistant? {
        var results := UnansweredResults(item.blocks);
        if results != [] && !(i + 1 < |items| && items[i + 1].ToolResults?) {
          out := out + [item] + [ToolResults(results)];
          assert was + ([item, Stub(item)] + Closed(items[i + 1..])) == out + Closed(items[i + 1..]);
          continue;
        }
      }
      out := out + [item];
      assert was + ([item] + Closed(items[i + 1..])) == out + Closed(items[i + 1..]);
    }
    assert items[|items|..] == [];
  }

  /** Erasing the inserted results gives back the input. */
  lemma {:induction false} CloseErases(items: seq<Item>)
    ensures KeptOf(Close(items)) == items
  {
    if items != [] {
      ClosedStep(items);
      CloseErases(items[1..]);
    }
  }

  lemma AnsweredCons(first: Item, tail: seq<Item>)
    requires Answered(tail)
    requires Calls(first) ==> FirstIsResults(tail)
    ensures Answered([first] + tail)
  {
    hide ToolUses;
    var all := [first] + tail;
    forall i | 0 <= i < |all| - 1 && Calls(all[i])
      ensures all[i + 1].ToolResults?
    {
      if i > 0 { assert all[i] == tail[i - 1] && all[i + 1] == tail[i]; }
    }
  }

  lemma {:induction false} ClosedAnswers(items: seq<Item>)
    ensures Answered(Closed(items))
    ensures items != [] ==> Closed(items) != [] && Closed(items)[0] == items[0]
  {
    if items != [] {
      ClosedStep(items);
      ClosedAnswers(items[1..]);
      hide Closed, ToolUses, Close;
      var tail := Closed(items[1..]);
      if Dangling(items) {
        AnsweredCons(Stub(items[0]), tail);
        AnsweredCons(items[0], [Stub(items[0])] + tail);
        assert [items[0], Stub(items[0])] + tail == [items[0]] + ([Stub(items[0])] + tail);
      } else {
        AnsweredCons(items[0], tail);
      }
    }
  }

  /** Closing is a no-op exactly on answered histories. */
  lemma {:induction false} ClosedFixed(items: seq<Item>)
    ensures Closed(items) == items <==> Answered(items)
  {
    ClosedAnswers(items);
    if Answered(items) && items != [] {
      ClosedStep(items);
      var rest := items[1..];
      assert forall i :: 0 <= i < |rest| ==> rest[i] == items[i + 1];
      assert Answered(rest) by {
        forall i | 0 <= i < |rest| - 1 && Calls(rest[i])
          ensures rest[i + 1].ToolResults?
        {
          assert Calls(items[i + 1]);
        }
      }
      ClosedFixed(rest);
      assert Calls(items[0]) ==> FirstIsResults(rest);
    }
  }

  // ---- The whole repair -------------------------------------------------------

  function Resume(items: seq<Item>): seq<Item> {
    Closed(Regroup(items))
  }

  lemma {:induction false} AnsweredIsTight(items: seq<Item>)
    requires Answered(items)
    ensures Tight(items)
  {
    if items != [] {
      var rest := items[1..];
      assert forall i :: 0 <= i < |rest| ==> rest[i] == items[i + 1];
      forall i | 0 <= i < |rest| - 1 && Calls(rest[i])
        ensures rest[i + 1].ToolResults?
      {
        assert Calls(items[i + 1]);
      }
      AnsweredIsTight(rest);
    }
  }

  /** Repair always yields an answered history, and repairing again changes nothing. */
  lemma ResumeAnswersAndSettles(items: seq<Item>)
    ensures Answered(Resume(items))
    ensures Resume(Resume(items)) == Resume(items)
    ensures Answered(items) ==> Resume(items) == items
  {
    var out := Resume(items);
    ClosedAnswers(Regroup(items));
    AnsweredIsTight(out);
    TightIsFixed(out);
    ClosedFixed(out);
    if Answered(items) {
      AnsweredIsTight(items);
      TightIsFixed(items);
      ClosedFixed(items);
    }
  }

  /** Each insertion sits right behind the calls it answers, and no real results come
      before the next assistant turn. */
  predicate InsertedOnlyWhereDangling(marks: seq<Mark>) {
    marks == [] ||
    (&& InsertedOnlyWhereDangling(marks[1..])
     && marks[0].Kept?
     && (|marks| > 1 && marks[1].Inserted? ==>
           && Calls(marks[0].item)
           && marks[1].item == Stub(marks[0].item)
           && !AnswerAhead(KeptOf(marks[2..]))))
    || (marks[0].Inserted? && InsertedOnlyWhereDangling(marks[1..]))
  }

  lemma {:induction false} CloseInsertsOnlyWhereDangling(items: seq<Item>)
    requires Tight(items)
    ensures InsertedOnlyWhereDangling(Close(items))
    ensures items != [] ==> Close(items) != [] && Close(items)[0] == Kept(items[0])
  {
    if items != [] {
      var rest := items[1..];
      CloseInsertsOnlyWhereDangling(rest);
      CloseErases(rest);
      var marks := Close(items);
      if Dangling(items) {
        assert marks[1..] == [marks[1]] + Close(rest);
        assert marks[1..][1..] == Close(rest);
        assert marks[2..] == Close(rest);
      } else {
        assert marks[1..] == Close(rest);
      }
    }
  }

  /** Repair invents results only for calls that never got any: the real ones, in their
      order against the assistant turns, are exactly those of the input. */
  lemma ResumeInventsOnlyMissingResults(items: seq<Item>)
    ensures KeptOf(Close(Regroup(items))) == Regroup(items)
    ensures InsertedOnlyWhereDangling(Close(Regroup(items)))
  {
    RegroupTight(items);
    CloseErases(Regroup(items));
    CloseInsertsOnlyWhereDangling(Regroup(items));
  }

  // ---- When repair restores full pairing --------------------------------------

  /** Scanning left to right, every results item belongs to the nearest assistant turn
      before it: `open` says whether that turn still has calls to answer. */
  predicate Attributable(items: seq<Item>, open: bool) {
    items == [] ||
    match items[0]
    case Assistant(_) => Attributable(items[1..], Calls(items[0]))
    case ToolResults(_) => open && Attributable(items[1..], false)
    case _ => Attributable(items[1..], open)
  }

  /** `NoOrphans`, scanned: `calls` says whether the item before was a calling turn. */
  predicate OrphanFree(items: seq<Item>, calls: bool) {
    items == [] || ((items[0].ToolResults? ==> calls) && OrphanFree(items[1..], Calls(items[0])))
  }

  lemma OrphanFreeCons(first: Item, rest: seq<Item>, calls: bool)
    ensures OrphanFree([first] + rest, calls) <==>
            (first.ToolResults? ==> calls) && OrphanFree(rest, Calls(first))
  {
    assert ([first] + rest)[1..] == rest;
  }

  lemma AttributableCons(first: Item, rest: seq<Item>, open: bool)
    ensures Attributable([first] + rest, open)
         == match first
            case Assistant(_) => Attributable(rest, Calls(first))
            case ToolResults(_) => open && Attributable(rest, false)
            case _ => Attributable(rest, open)
  {
    assert ([first] + rest)[1..] == rest;
  }

  lemma {:induction false} OrphanFreeIsNoOrphans(items: seq<Item>, calls: bool)
    ensures OrphanFree(items, calls) <==>
            (FirstIsResults(items) ==> calls) &&
            (forall i :: 1 <= i < |items| && items[i].ToolResults? ==> Calls(items[i - 1]))
  {
    if items != [] {
      var rest := items[1..];
      OrphanFreeIsNoOrphans(rest, Calls(items[0]));
      if forall i :: 1 <= i < |items| && items[i].ToolResults? ==> Calls(items[i - 1]) {
        forall i | 1 <= i < |rest| && rest[i].ToolResults?
          ensures Calls(rest[i - 1])
        {
          assert items[i + 1].ToolResults?;
        }
        assert FirstIsResults(rest) ==> items[1].ToolResults?;
      }
      if OrphanFree(items, calls) {
        forall i | 1 <= i < |items| && items[i].ToolResults?
          ensures Calls(items[i - 1])
        {
          assert rest[i - 1].ToolResults?;
        }
      }
    }
  }

  lemma {:induction false} OrphanFreeQuiet(quiet: seq<Item>, rest: seq<Item>, calls: bool)
    requires forall j :: 0 <= j < |quiet| ==> !Anchor(quiet[j])
    requires quiet == [] ==> !calls
    ensures OrphanFree(quiet + rest, calls) == OrphanFree(rest, false)
  {
    if quiet == [] {
      assert quiet + rest == rest;
    } else {
      assert (quiet + rest)[1..] == quiet[1..] + rest;
      OrphanFreeQuiet(quiet[1..], rest, false);
    }
  }

  lemma {:induction false} AttributableQuiet(quiet: seq<Item>, rest: seq<Item>, open: bool)
    requires forall j :: 0 <= j < |quiet| ==> !Anchor(quiet[j])
    ensures Attributable(quiet + rest, open) == Attributable(rest, open)
  {
    if quiet == [] {
      assert quiet + rest == rest;
    } else {
      assert (quiet + rest)[1..] == quiet[1..] + rest;
      AttributableQuiet(quiet[1..], rest, open);
    }
  }

  lemma OrphanFreeBehindCall(call: Item, quiet: seq<Item>, more: seq<Item>)
    requires Calls(call)
    requires forall j :: 0 <= j < |quiet| ==> !Anchor(quiet[j])
    requires more != [] ==> more[0].Assistant?
    ensures OrphanFree([call] + (quiet + more), false) == OrphanFree(more, false)
  {
    OrphanFreeCons(call, quiet + more, false);
    if quiet == [] {
      assert quiet + more == more;
    } else {
      OrphanFreeQuiet(quiet, more, true);
    }
  }

  lemma AttributableBehindCall(call: Item, quiet: seq<Item>, rest: seq<Item>)
    requires Calls(call)
    requires forall j :: 0 <= j < |quiet| ==> !Anchor(quiet[j])
    ensures Attributable([call] + (quiet + rest), false) == Attributable(rest, true)
  {
    AttributableCons(call, quiet + rest, false);
    AttributableQuiet(quiet, rest, true);
  }

  lemma RegroupOrphansAnswered(call: Item, r: Item, quiet: seq<Item>, more: seq<Item>, was: seq<Item>)
    requires Calls(call) && r.ToolResults?
    requires forall j :: 0 <= j < |quiet| ==> !Anchor(quiet[j])
    requires OrphanFree(more, false) == Attributable(was, false)
    ensures OrphanFree([call, r] + quiet + more, false) == Attributable([call] + quiet + ([r] + was), false)
  {
    hide OrphanFree, Attributable, ToolUses;
    PairThen(call, r, quiet, more);
    OrphanFreeCons(call, [r] + (quiet + more), false);
    OrphanFreeCons(r, quiet + more, true);
    OrphanFreeQuiet(quiet, more, false);
    Assoc([call], quiet, [r] + was);
    AttributableBehindCall(call, quiet, [r] + was);
    AttributableCons(r, was, true);
  }

  lemma AttributableAtAssistant(items: seq<Item>)
    requires items != [] ==> items[0].Assistant?
    ensures Attributable(items, true) == Attributable(items, false)
  {
  }

  lemma RegroupOrphansOpen(call: Item, quiet: seq<Item>, more: seq<Item>, was: seq<Item>)
    requires Calls(call)
    requires forall j :: 0 <= j < |quiet| ==> !Anchor(quiet[j])
    requires was != [] ==> was[0].Assistant?
    requires more != [] ==> more[0].Assistant?
    requires OrphanFree(more, false) == Attributable(was, false)
    ensures OrphanFree([call] + quiet + more, false) == Attributable([call] + quiet + was, false)
  {
    hide OrphanFree, Attributable, ToolUses;
    AttributableAtAssistant(was);
    OrphanFreeBehindCall(call, quiet, more);
    AttributableBehindCall(call, quiet, was);
    Assoc([call], quiet, more);
    Assoc([call], quiet, was);
  }

  lemma {:induction false} RegroupOrphans(items: seq<Item>)
    ensures OrphanFree(Regroup(items), false) == Attributable(items, false)
    decreases |items|
  {
    if items != [] {
      hide *;
      if Calls(items[0]) {
        var quiet, rest := Cut(items);
        if FirstIsResults(rest) {
          RegroupOrphans(rest[1..]);
          RegroupOrphansAnswered(items[0], rest[0], quiet, Regroup(rest[1..]), rest[1..]);
        } else {
          RegroupOrphans(rest);
          RegroupTight(rest);
          RegroupOrphansOpen(items[0], quiet, Regroup(rest), rest);
        }
      } else {
        RegroupOrphans(items[1..]);
        assert items == [items[0]] + items[1..];
        RegroupCons(items[0], items[1..]);
        OrphanFreeCons(items[0], Regroup(items[1..]), false);
        AttributableCons(items[0], items[1..], false);
      }
    }
  }

  lemma {:induction false} ClosedOrphans(items: seq<Item>, calls: bool)
    ensures OrphanFree(Closed(items), calls) == OrphanFree(items, calls)
  {
    if items != [] {
      ClosedStep(items);
      var tail := Closed(items[1..]);
      ClosedAnswers(items[1..]);
      if Dangling(items) {
        var gap := Stub(items[0]);
        assert Closed(items)[1..] == [gap] + tail;
        assert Closed(items)[1..][1..] == tail;
        ClosedOrphans(items[1..], false);
        if items[1..] != [] {
          assert OrphanFree(items[1..], false) == OrphanFree(items[1..], true);
        }
      } else {
        assert Closed(items)[1..] == tail;
        ClosedOrphans(items[1..], Calls(items[0]));
      }
    }
  }

  /** Repair restores full pairing exactly when every results item belongs to the assistant
      turn before it, however many other items landed in between. */
  lemma ResumePairsExactlyAttributable(items: seq<Item>)
    ensures Paired(Resume(items)) <==> Attributable(items, false)
  {
    RegroupOrphans(items);
    ClosedOrphans(Regroup(items), false);
    OrphanFreeIsNoOrphans(Resume(items), false);
    ResumeAnswersAndSettles(items);
  }

  lemma MatchedCons(first: Item, rest: seq<Item>)
    ensures Matched([first] + rest) <==>
              Matched(rest) && (Calls(first) && FirstIsResults(rest) ==> Answers(first, rest[0]))
  {
    hide Calls, Answers;
    var all := [first] + rest;
    assert forall i :: 0 <= i < |rest| ==> all[i + 1] == rest[i];
    assert all[0] == first && (rest != [] ==> all[1] == rest[0]);
    if Matched(all) {
      forall i | 0 <= i < |rest| - 1 && Calls(rest[i]) && rest[i + 1].ToolResults?
        ensures Answers(rest[i], rest[i + 1])
      {
        assert all[i + 1] == rest[i] && all[i + 2] == rest[i + 1];
      }
    }
    if Matched(rest) && (Calls(first) && FirstIsResults(rest) ==> Answers(first, rest[0])) {
      forall i | 0 <= i < |all| - 1 && Calls(all[i]) && all[i + 1].ToolResults?
        ensures Answers(all[i], all[i + 1])
      {
        if i > 0 { assert all[i] == rest[i - 1] && all[i + 1] == rest[i]; }
      }
    }
  }

  lemma {:induction false} ClosedMatched(items: seq<Item>)
    ensures Matched(Closed(items)) <==> Matched(items)
  {
    if items != [] {
      ClosedMatched(items[1..]);
      ClosedStep(items);
      ClosedAnswers(items[1..]);
      hide *;
      var first, tail := items[0], Closed(items[1..]);
      assert items == [first] + items[1..];
      MatchedCons(first, items[1..]);
      DanglingDef(items);
      if Dangling(items) {
        var stub := Stub(first);
        assert [first, stub] + tail == [first] + ([stub] + tail);
        MatchedCons(first, [stub] + tail);
        MatchedCons(stub, tail);
        StubAnswers(first);
        StubIsResults(first);
      } else {
        MatchedCons(first, tail);
        FirstResultsKept(items[1..], tail);
      }
    }
  }

  lemma DanglingDef(items: seq<Item>)
    requires items != []
    ensures Dangling(items) <==> Calls(items[0]) && !FirstIsResults(items[1..])
    ensures Dangling(items) ==> items[0].Assistant?
  {
    hide ToolUses;
  }

  lemma StubIsResults(item: Item)
    requires item.Assistant?
    ensures Stub(item).ToolResults? && !Calls(Stub(item))
    ensures forall tail: seq<Item> :: FirstIsResults([Stub(item)] + tail)
    ensures forall tail: seq<Item> :: ([Stub(item)] + tail)[0] == Stub(item)
  {
  }

  lemma FirstResultsKept(a: seq<Item>, b: seq<Item>)
    requires a == [] ==> b == []
    requires a != [] ==> b != [] && b[0] == a[0]
    ensures FirstIsResults(a) == FirstIsResults(b)
    ensures FirstIsResults(a) ==> a[0] == b[0]
  {
  }

  /** Repair answers every call by its id exactly when the regrouped history's own results do:
      what it inserts always does. */
  lemma ResumeMatchesExactly(items: seq<Item>)
    ensures Matched(Resume(items)) <==> Matched(Regroup(items))
  {
    hide Matched, Regroup, Closed;
    ClosedMatched(Regroup(items));
  }

  /** A paired log needs no regrouping: only its last turn can be missing results. */
  lemma ResumeOfPaired(items: seq<Item>)
    requires Paired(items)
    ensures Paired(Resume(items)) && Answered(Resume(items))
    ensures Resume(items) == if Awaiting(items)
                             then items + [Stub(items[|items| - 1])]
                             else items
  {
    ResumeAnswersAndSettles(items);
    if Awaiting(items) {
      PairedAppend(items, [Stub(items[|items| - 1])]);
      AdjacentIsTight(items);
      TightIsFixed(items);
      ClosedOfAdjacent(items);
    }
  }

  lemma {:induction false} AdjacentIsTight(items: seq<Item>)
    requires Adjacent(items)
    ensures Tight(items)
  {
    if items != [] {
      var rest := items[1..];
      forall i | 0 <= i < |rest| - 1 && Calls(rest[i])
        ensures rest[i + 1].ToolResults?
      {
        assert Calls(items[i + 1]);
      }
      AdjacentIsTight(rest);
      assert rest == [] ==> !AnswerAhead(rest);
    }
  }

  lemma {:induction false} ClosedOfAdjacent(items: seq<Item>)
    requires Adjacent(items) && Awaiting(items)
    ensures Closed(items) == items + [Stub(items[|items| - 1])]
  {
    ClosedStep(items);
    var rest := items[1..];
    if rest != [] {
      forall i | 0 <= i < |rest| - 1 && Calls(rest[i])
        ensures rest[i + 1].ToolResults?
      {
        assert Calls(items[i + 1]);
      }
      assert rest[|rest| - 1] == items[|items| - 1];
      ClosedOfAdjacent(rest);
    } else {
      assert Closed(rest) == [];
    }
  }
}
