/** The projection's items and the adjacency law every provider imposes on them:
    an assistant turn that called tools is answered by the very next message. */
module Items {
  datatype Option<+T> = None | Some(value: T)

  lemma Assoc<T>(a: seq<T>, b: seq<T>, c: seq<T>)
    ensures a + b + c == a + (b + c)
  {
  }

  /** `out` is the entries of `from` at the places `at`, in order. */
  predicate Picks<T(==)>(from: seq<T>, at: seq<nat>, out: seq<T>) {
    && |at| == |out|
    && (forall j :: 0 <= j < |at| ==> at[j] < |from| && out[j] == from[at[j]])
    && (forall j, k :: 0 <= j < k < |at| ==> at[j] < at[k])
  }

  lemma PicksSnoc<T>(from: seq<T>, at: seq<nat>, out: seq<T>, last: T, take: bool) returns (more: seq<nat>)
    requires Picks(from, at, out)
    ensures Picks(from + [last], more, if take then out + [last] else out)
    ensures forall i :: i in more <==> i in at || (take && i == |from|)
  {
    more := if take then at + [|from|] else at;
    var all, outs := from + [last], if take then out + [last] else out;
    forall j | 0 <= j < |more|
      ensures more[j] < |all| && outs[j] == all[more[j]]
    {
      if j < |at| { assert more[j] == at[j] && outs[j] == out[j]; }
    }
  }

  lemma PicksBelow<T>(from: seq<T>, at: seq<nat>, out: seq<T>)
    requires Picks(from, at, out)
    ensures forall i :: i in at ==> i < |from|
  {
  }

  /** Why the harness, rather than a person, wrote a user item. */
  datatype Reason =
    | Steer
    | ProjectInstructions
    | Memory
    | CompactionSummary
    | SystemReminder
    | GoalGuidance
    | BackgroundJob

  /** An attached image: its base64 payload. */
  datatype Image = Image(data: string)

  /** A provider content block; only a well-formed `tool_use` block carries a call id. */
  datatype Block = ToolUse(id: string) | OtherBlock(text: string)

  datatype ToolResult = ToolResult(toolUseId: string, content: string, isError: bool)

  datatype Item =
    | System(text: string)
    | User(text: string, synthetic: Option<Reason>, images: seq<Image>)
    | Assistant(blocks: seq<Block>)
    | ToolResults(results: seq<ToolResult>)
    | Unknown

  /** The ids of the tool calls an assistant turn makes, in source order. */
  function ToolUses(blocks: seq<Block>): seq<string> {
    if blocks == [] then []
    else (if blocks[0].ToolUse? then [blocks[0].id] else []) + ToolUses(blocks[1..])
  }

  lemma ToolUsesCons(first: Block, blocks: seq<Block>)
    ensures ToolUses([first] + blocks) == (if first.ToolUse? then [first.id] else []) + ToolUses(blocks)
  {
    assert ([first] + blocks)[1..] == blocks;
  }

  lemma {:induction false} ToolUsesSnoc(blocks: seq<Block>, last: Block)
    ensures ToolUses(blocks + [last]) == ToolUses(blocks) + (if last.ToolUse? then [last.id] else [])
  {
    hide *;
    NoToolUses();
    if blocks == [] {
      ToolUsesCons(last, []);
      assert blocks + [last] == [last] + [];
    } else {
      var first, rest := blocks[0], blocks[1..];
      ToolUsesSnoc(rest, last);
      ToolUsesCons(first, rest);
      ToolUsesCons(first, rest + [last]);
      assert blocks == [first] + rest && blocks + [last] == [first] + (rest + [last]);
    }
  }

  /** Every well-formed call is listed by its id, in order and as often as it is made. */
  lemma {:induction false} ToolUsesExactly(blocks: seq<Block>) returns (at: seq<nat>, uses: seq<Block>)
    ensures Picks(blocks, at, uses)
    ensures forall i :: 0 <= i < |blocks| ==> (i in at <==> blocks[i].ToolUse?)
    ensures |ToolUses(blocks)| == |uses|
    ensures forall j :: 0 <= j < |uses| ==> uses[j] == ToolUse(ToolUses(blocks)[j])
  {
    hide *;
    if blocks == [] {
      at, uses := [], [];
      NoToolUses();
    } else {
      var n := |blocks| - 1;
      var front, last := blocks[..n], blocks[n];
      assert blocks == front + [last];
      ToolUsesSnoc(front, last);
      var before, used := ToolUsesExactly(front);
      at, uses := OneMoreUse(front, before, used, last);
    }
  }

  lemma NoToolUses()
    ensures ToolUses([]) == [] && Picks<Block>([], [], [])
  {
  }

  lemma OneMoreUse(front: seq<Block>, before: seq<nat>, used: seq<Block>, last: Block)
      returns (at: seq<nat>, uses: seq<Block>)
    requires Picks(front, before, used)
    requires forall i :: 0 <= i < |front| ==> (i in before <==> front[i].ToolUse?)
    requires |ToolUses(front)| == |used| && forall j :: 0 <= j < |used| ==> used[j] == ToolUse(ToolUses(front)[j])
    requires ToolUses(front + [last]) == ToolUses(front) + (if last.ToolUse? then [last.id] else [])
    ensures Picks(front + [last], at, uses)
    ensures forall i :: 0 <= i <= |front| ==> (i in at <==> (front + [last])[i].ToolUse?)
    ensures |ToolUses(front + [last])| == |uses|
    ensures forall j :: 0 <= j < |uses| ==> uses[j] == ToolUse(ToolUses(front + [last])[j])
  {
    hide Picks, ToolUses;
    PicksBelow(front, before, used);
    at := PicksSnoc(front, before, used, last, last.ToolUse?);
    uses := if last.ToolUse? then used + [last] else used;
    assert forall i :: i in at <==> i in before || (last.ToolUse? && i == |front|);
  }

  predicate Calls(item: Item) {
    item.Assistant? && ToolUses(item.blocks) != []
  }

  /** A turn calls exactly if one of its blocks does. */
  lemma CallsExactly(item: Item)
    ensures Calls(item) <==> item.Assistant? && exists i :: 0 <= i < |item.blocks| && item.blocks[i].ToolUse?
  {
    if item.Assistant? {
      var at, uses := ToolUsesExactly(item.blocks);
      hide ToolUses;
      if at != [] { assert item.blocks[at[0]].ToolUse?; }
      if i :| 0 <= i < |item.blocks| && item.blocks[i].ToolUse? { assert i in at; }
    }
  }

  /** The projection ends on an assistant turn whose calls have no results yet. */
  predicate Awaiting(items: seq<Item>) {
    items != [] && Calls(items[|items| - 1])
  }

  /** Nothing but results sits directly behind a calling assistant turn. */
  predicate Adjacent(items: seq<Item>) {
    forall i :: 0 <= i < |items| - 1 && Calls(items[i]) ==> items[i + 1].ToolResults?
  }

  /** Every results item sits directly behind the assistant turn it answers. */
  predicate NoOrphans(items: seq<Item>) {
    forall i :: 0 <= i < |items| && items[i].ToolResults? ==> i > 0 && Calls(items[i - 1])
  }

  /** Both halves of the law; only the last turn may still be waiting. */
  predicate Paired(items: seq<Item>) {
    Adjacent(items) && NoOrphans(items)
  }

  /** The ids a results item answers, in order. */
  function ResultIds(results: seq<ToolResult>): seq<string> {
    seq(|results|, i requires 0 <= i < |results| => results[i].toolUseId)
  }

  /** The results answer exactly the calls, one each and in their order. */
  predicate Answers(call: Item, answer: Item) {
    call.Assistant? && answer.ToolResults? && ResultIds(answer.results) == ToolUses(call.blocks)
  }

  /** Results directly behind calls are the answers to those very calls. */
  predicate Matched(items: seq<Item>) {
    forall i :: 0 <= i < |items| - 1 && Calls(items[i]) && items[i + 1].ToolResults? ==>
      Answers(items[i], items[i + 1])
  }

  /** A projection a request can be built from: no call is left unanswered. */
  predicate Answered(items: seq<Item>) {
    Adjacent(items) && !Awaiting(items)
  }

  /** What may be appended behind `open` (the projection is mid-batch): a paired run
      that starts with results exactly when results are owed. */
  predicate Follows(open: bool, more: seq<Item>) {
    && (more != [] ==> (more[0].ToolResults? <==> open))
    && Adjacent(more)
    && forall i :: 1 <= i < |more| && more[i].ToolResults? ==> Calls(more[i - 1])
  }

  /** Where the items of a concatenation come from. */
  lemma Appended(items: seq<Item>, more: seq<Item>)
    ensures var all := items + more;
            && |all| == |items| + |more|
            && (forall i :: 0 <= i < |items| ==> all[i] == items[i])
            && (forall i :: |items| <= i < |all| ==> all[i] == more[i - |items|])
            && (more == [] ==> all == items)
  {
  }

  lemma FollowingPairs(items: seq<Item>, more: seq<Item>)
    requires Paired(items) && Follows(Awaiting(items), more)
    ensures Paired(items + more)
  {
    hide Calls;
    Appended(items, more);
    var all := items + more;
    forall i | 0 <= i < |all| - 1 && Calls(all[i])
      ensures all[i + 1].ToolResults?
    {
    }
    forall i | 0 <= i < |all| && all[i].ToolResults?
      ensures i > 0 && Calls(all[i - 1])
    {
    }
  }

  lemma PairedFollows(items: seq<Item>, more: seq<Item>)
    requires Paired(items) && Paired(items + more)
    ensures Follows(Awaiting(items), more)
  {
    hide Calls;
    Appended(items, more);
    var all := items + more;
    if more != [] { assert all[|items|] == more[0]; }
    forall i | 0 <= i < |more| - 1 && Calls(more[i])
      ensures more[i + 1].ToolResults?
    {
      assert all[|items| + i] == more[i] && all[|items| + i + 1] == more[i + 1];
    }
    forall i | 1 <= i < |more| && more[i].ToolResults?
      ensures Calls(more[i - 1])
    {
      assert all[|items| + i] == more[i] && all[|items| + i - 1] == more[i - 1];
    }
  }

  lemma PairedAppend(items: seq<Item>, more: seq<Item>)
    requires Paired(items)
    ensures Paired(items + more) <==> Follows(Awaiting(items), more)
    ensures more == [] ==> items + more == items
    ensures Awaiting(items + more) == if more == [] then Awaiting(items) else Awaiting(more)
  {
    hide Calls, Paired, Follows;
    Appended(items, more);
    if Follows(Awaiting(items), more) { FollowingPairs(items, more); }
    if Paired(items + more) { PairedFollows(items, more); }
  }

  /** UTF-8 size of a character and of a text. */
  function Width(c: char): nat {
    if c as int < 0x80 then 1 else if c as int < 0x800 then 2 else if c as int < 0x1_0000 then 3 else 4
  }

  function Bytes(text: string): nat {
    if text == [] then 0 else Bytes(text[..|text| - 1]) + Width(text[|text| - 1])
  }

  lemma {:induction false} BytesConcat(a: string, b: string)
    ensures Bytes(a + b) == Bytes(a) + Bytes(b)
  {
    if b == [] {
      assert a + b == a;
    } else {
      BytesConcat(a, b[..|b| - 1]);
      assert (a + b)[..|a + b| - 1] == a + b[..|b| - 1];
    }
  }

  function Decimal(n: nat): string {
    if n < 10 then [('0' as int + n) as char] else Decimal(n / 10) + [('0' as int + n % 10) as char]
  }

  // ---- Costs -------------------------------------------------------------

  const ITEM_OVERHEAD := 8
  const RESULT_OVERHEAD := 6
  const BLOCK_OVERHEAD := 4
  const IMAGE_TOKENS := 1600

  /** Thirds of a token a text costs under the conservative profile: three ASCII
      characters to the token, one per other basic character, three per astral one. */
  function TextThirds(text: string): nat {
    if text == [] then 0
    else
      var c := text[0] as int;
      (if c < 0x80 then 1 else if c < 0x1_0000 then 3 else 9) + TextThirds(text[1..])
  }

  function TextTokens(text: string): nat {
    (TextThirds(text) + 2) / 3
  }

  function BlockTokens(blocks: seq<Block>): nat {
    if blocks == [] then 0
    else BLOCK_OVERHEAD + TextTokens(if blocks[0].ToolUse? then blocks[0].id else blocks[0].text)
         + BlockTokens(blocks[1..])
  }

  function ResultTokens(results: seq<ToolResult>): nat {
    if results == [] then 0
    else RESULT_OVERHEAD + TextTokens(results[0].content) + ResultTokens(results[1..])
  }

  function ItemTokens(item: Item): nat {
    ITEM_OVERHEAD + match item
      case System(text) => TextTokens(text)
      case User(text, _, images) => TextTokens(text) + |images| * IMAGE_TOKENS
      case Assistant(blocks) => BlockTokens(blocks)
      case ToolResults(results) => ResultTokens(results)
      case Unknown => 0
  }

  function Tokens(items: seq<Item>): nat {
    if items == [] then 0 else ItemTokens(items[0]) + Tokens(items[1..])
  }

  function ImagesBytes(images: seq<Image>): nat {
    if images == [] then 0 else |images[0].data| + ImagesBytes(images[1..])
  }

  function ImageBytes(items: seq<Item>): nat {
    if items == [] then 0
    else (if items[0].User? then ImagesBytes(items[0].images) else 0) + ImageBytes(items[1..])
  }

  lemma {:induction false} TokensConcat(a: seq<Item>, b: seq<Item>)
    ensures Tokens(a + b) == Tokens(a) + Tokens(b)
  {
    if a == [] {
      assert a + b == b;
    } else {
      TokensConcat(a[1..], b);
      assert (a + b)[1..] == a[1..] + b;
    }
  }

  lemma {:induction false} ImageBytesConcat(a: seq<Item>, b: seq<Item>)
    ensures ImageBytes(a + b) == ImageBytes(a) + ImageBytes(b)
  {
    if a == [] {
      assert a + b == b;
    } else {
      ImageBytesConcat(a[1..], b);
      assert (a + b)[1..] == a[1..] + b;
    }
  }
}
