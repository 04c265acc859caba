/** What folds and clears leave of the words they touch, told over the projection alone: every
    pinned result stands behind the digest in full, and a stub stands exactly where it was asked
    for and says what it stands for. */
module Contents {
  import opened Items
  import opened Compaction

  // ---- Pins ---------------------------------------------------------------------

  /** A result a pin keeps: which pin, which item, which of its results. */
  datatype Spot = Spot(pin: nat, item: nat, result: nat)

  predicate Before(a: Spot, b: Spot) {
    || a.pin < b.pin
    || (a.pin == b.pin && (a.item < b.item || (a.item == b.item && a.result < b.result)))
  }

  /** The pin names that result of the folded span. */
  predicate Names(items: seq<Item>, plan: Plan, pins: seq<string>, spot: Spot) {
    && spot.pin < |pins|
    && plan.prefixEnd <= spot.item < plan.keptFrom && spot.item < |items|
    && items[spot.item].ToolResults?
    && spot.result < |items[spot.item].results|
    && items[spot.item].results[spot.result].toolUseId == pins[spot.pin]
  }

  predicate Quotes(quote: Item, result: ToolResult) {
    && quote.User? && quote.synthetic == Some(CompactionSummary) && quote.images == []
    && quote.text == "<pinned tool_use_id=\"" + result.toolUseId + "\">\n" + result.content + "\n</pinned>"
  }

  predicate Ordered(spots: seq<Spot>) {
    forall i, j :: 0 <= i < j < |spots| ==> Before(spots[i], spots[j])
  }

  ghost predicate Finds(items: seq<Item>, plan: Plan, pins: seq<string>, spots: seq<Spot>) {
    forall spot: Spot :: Names(items, plan, pins, spot) <==> spot in spots
  }

  predicate QuotedAt(items: seq<Item>, plan: Plan, pins: seq<string>, spot: Spot, quote: Item) {
    Names(items, plan, pins, spot) && Quotes(quote, items[spot.item].results[spot.result])
  }

  predicate AllQuoted(items: seq<Item>, plan: Plan, pins: seq<string>, spots: seq<Spot>, quoted: seq<Item>) {
    && |quoted| == |spots|
    && forall i :: 0 <= i < |spots| ==> QuotedAt(items, plan, pins, spots[i], quoted[i])
  }

  /** A fold as it is promised: the prefix, the digest, one quote for each pinned result of the
      folded span by pin, item and place, and the tail. */
  ghost predicate FoldOf(items: seq<Item>, plan: Plan, digest: seq<Item>, pins: seq<string>, after: seq<Item>)
    requires plan.prefixEnd <= plan.keptFrom <= |items|
  {
    exists spots: seq<Spot>, quoted: seq<Item> ::
      && Ordered(spots) && Finds(items, plan, pins, spots)
      && AllQuoted(items, plan, pins, spots, quoted)
      && after == items[..plan.prefixEnd] + digest + quoted + items[plan.keptFrom..]
  }

  /** The spots from `low` on and before `high`, with their quotes. */
  ghost predicate Covers(items: seq<Item>, plan: Plan, pins: seq<string>, low: Spot, high: Spot,
                         spots: seq<Spot>, quoted: seq<Item>)
  {
    && Ordered(spots) && AllQuoted(items, plan, pins, spots, quoted)
    && (forall i :: 0 <= i < |spots| ==> !Before(spots[i], low) && Before(spots[i], high))
    && forall spot: Spot :: Names(items, plan, pins, spot) && !Before(spot, low) && Before(spot, high) ==>
         spot in spots
  }

  lemma OrderedJoin(a: seq<Spot>, b: seq<Spot>, mid: Spot)
    requires Ordered(a) && Ordered(b)
    requires forall i :: 0 <= i < |a| ==> Before(a[i], mid)
    requires forall i :: 0 <= i < |b| ==> !Before(b[i], mid)
    ensures Ordered(a + b)
  {
  }

  lemma QuotedJoin(items: seq<Item>, plan: Plan, pins: seq<string>, a: seq<Spot>, aq: seq<Item>,
                   b: seq<Spot>, bq: seq<Item>)
    requires AllQuoted(items, plan, pins, a, aq) && AllQuoted(items, plan, pins, b, bq)
    ensures AllQuoted(items, plan, pins, a + b, aq + bq)
  {
    hide QuotedAt;
    var spots, quoted := a + b, aq + bq;
    forall i | 0 <= i < |spots|
      ensures QuotedAt(items, plan, pins, spots[i], quoted[i])
    {
      if i < |a| {
        assert spots[i] == a[i] && quoted[i] == aq[i];
      } else {
        assert spots[i] == b[i - |a|] && quoted[i] == bq[i - |a|];
      }
    }
  }

  lemma WithinJoin(a: seq<Spot>, b: seq<Spot>, low: Spot, mid: Spot, high: Spot)
    requires !Before(mid, low) && !Before(high, mid)
    requires forall i :: 0 <= i < |a| ==> !Before(a[i], low) && Before(a[i], mid)
    requires forall i :: 0 <= i < |b| ==> !Before(b[i], mid) && Before(b[i], high)
    ensures forall i :: 0 <= i < |a + b| ==> !Before((a + b)[i], low) && Before((a + b)[i], high)
  {
  }

  lemma CoversJoin(items: seq<Item>, plan: Plan, pins: seq<string>, low: Spot, mid: Spot, high: Spot,
                   a: seq<Spot>, aq: seq<Item>, b: seq<Spot>, bq: seq<Item>)
    requires Covers(items, plan, pins, low, mid, a, aq) && Covers(items, plan, pins, mid, high, b, bq)
    requires !Before(mid, low) && !Before(high, mid)
    ensures Covers(items, plan, pins, low, high, a + b, aq + bq)
  {
    OrderedJoin(a, b, mid);
    QuotedJoin(items, plan, pins, a, aq, b, bq);
    WithinJoin(a, b, low, mid, high);
    hide Names, Quotes, Ordered, AllQuoted, Before;
    forall spot: Spot | Names(items, plan, pins, spot) && !Before(spot, low) && Before(spot, high)
      ensures spot in a + b
    {
      assert spot in a || spot in b;
    }
  }

  lemma CoversNone(items: seq<Item>, plan: Plan, pins: seq<string>, low: Spot, high: Spot)
    requires forall spot: Spot :: Names(items, plan, pins, spot) && !Before(spot, low) ==> !Before(spot, high)
    ensures Covers(items, plan, pins, low, high, [], [])
  {
  }

  lemma CoversOne(items: seq<Item>, plan: Plan, pins: seq<string>, low: Spot, high: Spot)
    requires Names(items, plan, pins, low) && high == low.(result := low.result + 1)
    ensures Covers(items, plan, pins, low, high, [low], [PinnedText(items[low.item].results[low.result])])
  {
    forall spot: Spot | !Before(spot, low) && Before(spot, high)
      ensures spot == low
    {
    }
  }

  /** The results of one item, from one of them on. */
  lemma {:induction false} ResultSpots(items: seq<Item>, plan: Plan, pins: seq<string>, at: Spot)
      returns (spots: seq<Spot>)
    requires at.pin < |pins| && plan.prefixEnd <= at.item < plan.keptFrom <= |items|
    requires items[at.item].ToolResults? && at.result <= |items[at.item].results|
    ensures Covers(items, plan, pins, at, Spot(at.pin, at.item + 1, 0), spots,
                   PinnedResults(items[at.item].results[at.result..], pins[at.pin]))
    decreases |items[at.item].results| - at.result
  {
    hide Covers;
    var results, end := items[at.item].results, Spot(at.pin, at.item + 1, 0);
    if at.result == |results| {
      CoversNone(items, plan, pins, at, end);
      spots := [];
    } else {
      var next := at.(result := at.result + 1);
      var rest := ResultSpots(items, plan, pins, next);
      var after := PinnedResults(results[next.result..], pins[at.pin]);
      assert results[at.result..][0] == results[at.result] && results[at.result..][1..] == results[next.result..];
      if results[at.result].toolUseId == pins[at.pin] {
        CoversOne(items, plan, pins, at, next);
        CoversJoin(items, plan, pins, at, next, end, [at], [PinnedText(results[at.result])], rest, after);
        spots := [at] + rest;
      } else {
        CoversNone(items, plan, pins, at, next);
        CoversJoin(items, plan, pins, at, next, end, [], [], rest, after);
        assert [] + after == after;
        spots := [] + rest;
      }
    }
  }

  /** One pin over the rest of the folded span. */
  lemma {:induction false} ItemSpots(items: seq<Item>, plan: Plan, pins: seq<string>, pin: nat, i: nat)
      returns (spots: seq<Spot>)
    requires pin < |pins| && plan.prefixEnd <= i <= plan.keptFrom <= |items|
    ensures Covers(items, plan, pins, Spot(pin, i, 0), Spot(pin + 1, plan.prefixEnd, 0), spots,
                   PinnedFor(items[i..plan.keptFrom], pins[pin]))
    decreases plan.keptFrom - i
  {
    hide Covers, PinnedResults;
    var low, end, folded := Spot(pin, i, 0), Spot(pin + 1, plan.prefixEnd, 0), items[i..plan.keptFrom];
    if i == plan.keptFrom {
      CoversNone(items, plan, pins, low, end);
      spots := [];
    } else {
      var next := Spot(pin, i + 1, 0);
      var rest := ItemSpots(items, plan, pins, pin, i + 1);
      assert folded[1..] == items[i + 1..plan.keptFrom];
      var here := [];
      if items[i].ToolResults? {
        here := ResultSpots(items, plan, pins, low);
        assert items[i].results[0..] == items[i].results;
      } else {
        CoversNone(items, plan, pins, low, next);
      }
      CoversJoin(items, plan, pins, low, next, end, here, PinnedIn(items[i], pins[pin]), rest,
                 PinnedFor(items[i + 1..plan.keptFrom], pins[pin]));
      spots := here + rest;
    }
  }

  /** The pins from one of them on. */
  lemma {:induction false} PinSpots(items: seq<Item>, plan: Plan, pins: seq<string>, pin: nat)
      returns (spots: seq<Spot>)
    requires pin <= |pins| && plan.prefixEnd <= plan.keptFrom <= |items|
    ensures Covers(items, plan, pins, Spot(pin, plan.prefixEnd, 0), Spot(|pins|, plan.prefixEnd, 0), spots,
                   PinnedItems(items[plan.prefixEnd..plan.keptFrom], pins[pin..]))
    decreases |pins| - pin
  {
    hide Covers, PinnedFor;
    var low, end := Spot(pin, plan.prefixEnd, 0), Spot(|pins|, plan.prefixEnd, 0);
    var folded := items[plan.prefixEnd..plan.keptFrom];
    if pin == |pins| {
      CoversNone(items, plan, pins, low, end);
      spots := [];
    } else {
      var here := ItemSpots(items, plan, pins, pin, plan.prefixEnd);
      var rest := PinSpots(items, plan, pins, pin + 1);
      assert pins[pin..][0] == pins[pin] && pins[pin..][1..] == pins[pin + 1..];
      CoversJoin(items, plan, pins, low, Spot(pin + 1, plan.prefixEnd, 0), end, here, PinnedFor(folded, pins[pin]),
                 rest, PinnedItems(folded, pins[pin + 1..]));
      spots := here + rest;
    }
  }

  lemma {:induction false} OrderedUnique(a: seq<Spot>, b: seq<Spot>)
    requires Ordered(a) && Ordered(b)
    requires forall spot: Spot :: spot in a <==> spot in b
    ensures a == b
  {
    assert (a != [] ==> a[0] in b) && (b != [] ==> b[0] in a);
    if a != [] {
      assert a[0] == b[0];
      forall spot: Spot
        ensures spot in a[1..] <==> spot in b[1..]
      {
        assert spot in a <==> spot == a[0] || spot in a[1..];
        assert spot in b <==> spot == b[0] || spot in b[1..];
      }
      OrderedUnique(a[1..], b[1..]);
    }
  }

  /** The promise leaves one projection only. */
  lemma FoldOfUnique(items: seq<Item>, plan: Plan, digest: seq<Item>, pins: seq<string>, a: seq<Item>, b: seq<Item>)
    requires plan.prefixEnd <= plan.keptFrom <= |items|
    requires FoldOf(items, plan, digest, pins, a) && FoldOf(items, plan, digest, pins, b)
    ensures a == b
  {
    hide Names, Before;
    var s, q :| && Ordered(s) && Finds(items, plan, pins, s) && AllQuoted(items, plan, pins, s, q)
                && a == items[..plan.prefixEnd] + digest + q + items[plan.keptFrom..];
    var t, r :| && Ordered(t) && Finds(items, plan, pins, t) && AllQuoted(items, plan, pins, t, r)
                && b == items[..plan.prefixEnd] + digest + r + items[plan.keptFrom..];
    assert forall spot: Spot :: spot in s <==> spot in t;
    OrderedUnique(s, t);
    assert q == r;
  }

  /** What the fold leaves is what is promised, and nothing else is: every pinned result of the
      folded span is quoted in full behind the digest, pin by pin. */
  lemma FoldKeepsPins(items: seq<Item>, plan: Plan, digest: seq<Item>, pins: seq<string>, after: seq<Item>)
    requires plan.prefixEnd <= plan.keptFrom <= |items|
    ensures FoldOf(items, plan, digest, pins, after) <==> after == Apply(items, plan, digest, pins)
  {
    var low, high := Spot(0, plan.prefixEnd, 0), Spot(|pins|, plan.prefixEnd, 0);
    var spots := PinSpots(items, plan, pins, 0);
    assert pins[0..] == pins;
    var quoted := PinnedItems(items[plan.prefixEnd..plan.keptFrom], pins);
    hide PinnedItems, Quotes;
    assert forall i :: 0 <= i < |spots| ==> QuotedAt(items, plan, pins, spots[i], quoted[i]);
    forall spot: Spot
      ensures Names(items, plan, pins, spot) <==> spot in spots
    {
      if Names(items, plan, pins, spot) { assert !Before(spot, low) && Before(spot, high); }
    }
    assert FoldOf(items, plan, digest, pins, Apply(items, plan, digest, pins)) by {
      assert Ordered(spots) && Finds(items, plan, pins, spots) && AllQuoted(items, plan, pins, spots, quoted);
    }
    if FoldOf(items, plan, digest, pins, after) {
      FoldOfUnique(items, plan, digest, pins, after, Apply(items, plan, digest, pins));
    }
  }

  /** So does the store's replay, on whatever indices it reads, clamped to what is there. */
  lemma ReplayKeepsPins(items: seq<Item>, digest: seq<Item>, prefixEnd: nat, keptFrom: nat, pins: seq<string>)
    ensures var p := if prefixEnd <= |items| then prefixEnd else |items|;
            var k := if keptFrom < p then p else if keptFrom <= |items| then keptFrom else |items|;
            FoldOf(items, Plan(p, k), digest, pins, ReplayFold(items, digest, prefixEnd, keptFrom, pins))
  {
    hide FoldOf, PinnedItems;
    var p := if prefixEnd <= |items| then prefixEnd else |items|;
    var k := if keptFrom < p then p else if keptFrom <= |items| then keptFrom else |items|;
    assert items[..k][..p] == items[..p] && items[..k][p..] == items[p..k];
    FoldKeepsPins(items, Plan(p, k), digest, pins, Apply(items, Plan(p, k), digest, pins));
  }

  // ---- Stubs --------------------------------------------------------------------

  /** What people said in these items. */
  function RealUsers(items: seq<Item>): nat {
    if items == [] then 0
    else RealUsers(items[..|items| - 1])
         + (if items[|items| - 1].User? && items[|items| - 1].synthetic == None then 1 else 0)
  }

  /** A result that was asked for and is no stub yet gives way to a stub with its id, its size
      and the number of things people said before it; any other stays. */
  predicate Stubbed(was: ToolResult, now: ToolResult, asked: bool, turn: nat) {
    if asked && !("<cleared tool_use_id=" <= was.content)
    then
      && now.toolUseId == was.toolUseId && now.isError == was.isError
      && now.content == "<cleared tool_use_id=\"" + was.toolUseId + "\" bytes=" + Decimal(Bytes(was.content))
                        + " turn=" + Decimal(turn) + "/>Result cleared to save context; recall "
                        + was.toolUseId + " to fetch it."
    else now == was
  }

  ghost predicate ClearedAt(was: Item, now: Item, ids: seq<string>, turn: nat) {
    if was.ToolResults?
    then
      && now.ToolResults? && |now.results| == |was.results|
      && forall j :: 0 <= j < |was.results| ==>
           Stubbed(was.results[j], now.results[j], exists k :: 0 <= k < |ids| && ids[k] == was.results[j].toolUseId,
                   turn)
    else now == was
  }

  /** A clear as it is promised, item by item. */
  ghost predicate ClearOf(items: seq<Item>, ids: seq<string>, after: seq<Item>) {
    && |after| == |items|
    && forall i :: 0 <= i < |items| ==> ClearedAt(items[i], after[i], ids, RealUsers(items[..i]))
  }

  lemma ClearOneIs(was: ToolResult, ids: seq<string>, turn: nat)
    ensures Stubbed(was, ClearOne(was, ids, turn), exists k :: 0 <= k < |ids| && ids[k] == was.toolUseId, turn)
  {
    var now := ClearOne(was, ids, turn);
    assert was.toolUseId in ids <==> exists k :: 0 <= k < |ids| && ids[k] == was.toolUseId;
    if Clearable(was, ids) {
      hide Bytes, Decimal;
      var id, rest := was.toolUseId, "/>Result cleared to save context; recall ";
      var bytes, at := Decimal(Bytes(was.content)), Decimal(turn);
      assert STUB_HEAD + ("\"" + id + "\" bytes=" + bytes + " turn=" + at + rest + id + " to fetch it.")
          == STUB_HEAD + "\"" + id + "\" bytes=" + bytes + " turn=" + at + rest + id + " to fetch it.";
      assert STUB_HEAD + "\"" == "<cleared tool_use_id=\"";
    }
  }

  lemma ClearFirst(items: seq<Item>, ids: seq<string>, turn: nat)
    requires items != []
    ensures var next := turn + RealUsers([items[0]]);
            var cleared := ClearFrom(items, ids, turn);
            cleared != [] && cleared[1..] == ClearFrom(items[1..], ids, next)
            && ClearedAt(items[0], cleared[0], ids, turn)
  {
    hide Stubbed, ClearOne;
    assert RealUsers([]) == 0 && [items[0]][..0] == [];
    if items[0].ToolResults? {
      forall j | 0 <= j < |items[0].results|
        ensures Stubbed(items[0].results[j], ClearOne(items[0].results[j], ids, turn),
                        exists k :: 0 <= k < |ids| && ids[k] == items[0].results[j].toolUseId, turn)
      {
        ClearOneIs(items[0].results[j], ids, turn);
      }
    }
  }

  lemma RealUsersSnoc(items: seq<Item>, item: Item)
    ensures RealUsers(items + [item]) == RealUsers(items) + RealUsers([item])
  {
    assert (items + [item])[..|items|] == items;
    assert [item][..0] == [] && RealUsers([]) == 0;
  }

  lemma {:induction false} ClearFromAt(items: seq<Item>, ids: seq<string>, seen: seq<Item>, i: nat)
    requires i < |items|
    ensures |ClearFrom(items, ids, RealUsers(seen))| == |items|
    ensures ClearedAt(items[i], ClearFrom(items, ids, RealUsers(seen))[i], ids, RealUsers(seen + items[..i]))
    decreases |items|
  {
    hide *;
    var more, rest := seen + [items[0]], items[1..];
    ClearFirst(items, ids, RealUsers(seen));
    RealUsersSnoc(seen, items[0]);
    if rest == [] {
      ClearNone(ids, RealUsers(more));
    } else {
      ClearFromAt(rest, ids, more, if i > 0 then i - 1 else 0);
    }
    if i == 0 {
      assert seen + items[..0] == seen;
    } else {
      assert rest[i - 1] == items[i];
      assert seen + items[..i] == more + rest[..i - 1];
    }
  }

  lemma ClearNone(ids: seq<string>, turn: nat)
    ensures ClearFrom([], ids, turn) == []
  {
  }

  lemma StubbedUnique(was: ToolResult, a: ToolResult, b: ToolResult, asked: bool, turn: nat)
    requires Stubbed(was, a, asked, turn) && Stubbed(was, b, asked, turn)
    ensures a == b
  {
  }

  lemma ClearedAtUnique(was: Item, a: Item, b: Item, ids: seq<string>, turn: nat)
    requires ClearedAt(was, a, ids, turn) && ClearedAt(was, b, ids, turn)
    ensures a == b
  {
    hide Stubbed;
    if was.ToolResults? {
      forall j | 0 <= j < |was.results|
        ensures a.results[j] == b.results[j]
      {
        StubbedUnique(was.results[j], a.results[j], b.results[j],
                      exists k :: 0 <= k < |ids| && ids[k] == was.results[j].toolUseId, turn);
      }
      assert a.results == b.results;
    }
  }

  /** A clear stubs what it was asked to and is no stub yet, says whose result each stub stands
      for, how big it was and when it came, and touches nothing else. */
  lemma ClearsExactly(items: seq<Item>, ids: seq<string>, after: seq<Item>)
    ensures ClearOf(items, ids, after) <==> after == ClearResults(items, ids)
  {
    var cleared := ClearResults(items, ids);
    assert ClearOf(items, ids, cleared) by {
      assert RealUsers([]) == 0;
      if items != [] { ClearFromAt(items, ids, [], 0); } else { assert cleared == []; }
      forall i | 0 <= i < |items|
        ensures ClearedAt(items[i], cleared[i], ids, RealUsers(items[..i]))
      {
        ClearFromAt(items, ids, [], i);
        assert [] + items[..i] == items[..i];
      }
    }
    if ClearOf(items, ids, after) {
      hide ClearResults, ClearedAt, RealUsers;
      forall i | 0 <= i < |items|
        ensures after[i] == cleared[i]
      {
        ClearedAtUnique(items[i], after[i], cleared[i], ids, RealUsers(items[..i]));
      }
      assert after == cleared;
    }
  }
}
