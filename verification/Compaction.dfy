/** Compaction and clearing: what a fold may cut, what the cut and the stubs leave of the
    pairing law, and the store's replay of both. */
module Compaction {
  import opened Items

  // ---- Choosing what to fold -------------------------------------------------

  /** Leading items `[..prefixEnd)` stay, `[prefixEnd..keptFrom)` folds, the tail stays. */
  datatype Plan = Plan(prefixEnd: nat, keptFrom: nat)

  predicate Preserved(item: Item) {
    || item.System?
    || (item.User? && item.synthetic in {Some(ProjectInstructions), Some(Memory)})
  }

  function PreservedPrefixLen(items: seq<Item>): (n: nat)
    ensures n <= |items|
    ensures forall i :: 0 <= i < n ==> Preserved(items[i])
    ensures n < |items| ==> !Preserved(items[n])
  {
    if items == [] || !Preserved(items[0]) then 0 else 1 + PreservedPrefixLen(items[1..])
  }

  /** A tail may start at `i`: results still sit behind the turn that called them. */
  predicate CleanBoundary(items: seq<Item>, i: nat)
    requires i < |items|
  {
    !(i + 1 < |items| && items[i + 1].ToolResults?) || items[i].Assistant?
  }

  predicate Boundary(items: seq<Item>, i: nat) {
    && PreservedPrefixLen(items) < i < |items|
    && (items[i].User? || items[i].Assistant?)
    && CleanBoundary(items, i)
  }

  predicate Fits(items: seq<Item>, i: nat, tailBudget: nat, imageBudget: nat)
    requires i <= |items|
  {
    Tokens(items[i..]) <= tailBudget && ImageBytes(items[i..]) <= imageBudget
  }

  lemma {:induction false} FitsMonotone(items: seq<Item>, i: nat, j: nat, tailBudget: nat, imageBudget: nat)
    requires i <= j <= |items|
    requires Fits(items, i, tailBudget, imageBudget)
    ensures Fits(items, j, tailBudget, imageBudget)
  {
    assert items[i..] == items[i..j] + items[j..];
    TokensConcat(items[i..j], items[j..]);
    ImageBytesConcat(items[i..j], items[j..]);
  }

  /** The choice the source documents: the earliest tail that fits both budgets, else the
      smallest clean tail there is. */
  ghost predicate BestPlan(items: seq<Item>, tailBudget: nat, imageBudget: nat, plan: Plan) {
    && plan.prefixEnd == PreservedPrefixLen(items)
    && Boundary(items, plan.keptFrom)
    && (forall b: nat :: Boundary(items, b) && Fits(items, b, tailBudget, imageBudget) ==> plan.keptFrom <= b)
    && (Fits(items, plan.keptFrom, tailBudget, imageBudget)
        || forall b: nat :: Boundary(items, b) ==> b <= plan.keptFrom)
  }

  /** A tail may start here: something in front of it can fold, a user or an assistant speaks, and
      results that follow answer an assistant turn. */
  predicate Starts(items: seq<Item>, k: nat) {
    && k < |items|
    && (exists i :: 0 <= i < k && !items[i].System?
                    && !(items[i].User? && (items[i].synthetic == Some(ProjectInstructions)
                                            || items[i].synthetic == Some(Memory))))
    && (items[k].User? || items[k].Assistant?)
    && (k + 1 < |items| && items[k + 1].ToolResults? ==> items[k].Assistant?)
  }

  predicate Affords(items: seq<Item>, k: nat, tailBudget: nat, imageBudget: nat)
    requires k <= |items|
  {
    !(Tokens(items[k..]) > tailBudget) && !(ImageBytes(items[k..]) > imageBudget)
  }

  /** The same choice, told over the items: everything in front that is never folded stays, and
      the longest tail the budgets afford does, or the shortest there is if they afford none. */
  ghost predicate Plans(items: seq<Item>, tailBudget: nat, imageBudget: nat, plan: Plan) {
    var p, k := plan.prefixEnd, plan.keptFrom;
    && p <= |items| && Starts(items, k)
    && (forall i :: 0 <= i < p ==> Preserved(items[i]))
    && (p < |items| ==> !Preserved(items[p]))
    && if Affords(items, k, tailBudget, imageBudget)
       then forall b: nat :: Starts(items, b) && Affords(items, b, tailBudget, imageBudget) ==> k <= b
       else forall b: nat :: Starts(items, b) ==> b <= k && !Affords(items, b, tailBudget, imageBudget)
  }

  lemma StartsExactly(items: seq<Item>, k: nat)
    ensures Starts(items, k) <==> Boundary(items, k)
  {
    var p := PreservedPrefixLen(items);
    if p < k && k < |items| { assert !Preserved(items[p]); }
  }

  lemma PlansExactly(items: seq<Item>, tailBudget: nat, imageBudget: nat, plan: Plan)
    ensures Plans(items, tailBudget, imageBudget, plan) <==> BestPlan(items, tailBudget, imageBudget, plan)
  {
    forall b: nat
      ensures Starts(items, b) <==> Boundary(items, b)
      ensures b <= |items| ==>
                (Affords(items, b, tailBudget, imageBudget) <==> Fits(items, b, tailBudget, imageBudget))
    {
      StartsExactly(items, b);
    }
    PrefixIs(items, plan.prefixEnd);
    hide Starts, Boundary, Affords, Fits, PreservedPrefixLen, Preserved;
    if BestPlan(items, tailBudget, imageBudget, plan) && !Affords(items, plan.keptFrom, tailBudget, imageBudget) {
      forall b: nat | Starts(items, b)
        ensures b <= plan.keptFrom && !Affords(items, b, tailBudget, imageBudget)
      {
        if Affords(items, b, tailBudget, imageBudget) { StartIn(items, b); }
      }
    }
  }

  lemma StartIn(items: seq<Item>, k: nat)
    requires Boundary(items, k)
    ensures k < |items|
  {
  }

  lemma PrefixIs(items: seq<Item>, p: nat)
    ensures p == PreservedPrefixLen(items) <==>
            && p <= |items| && (forall i :: 0 <= i < p ==> Preserved(items[i]))
            && (p < |items| ==> !Preserved(items[p]))
  {
  }

  /** Exactly the boundaries of `items`, in order. */
  ghost predicate Lists(items: seq<Item>, boundaries: seq<nat>) {
    && (forall k :: 0 <= k < |boundaries| ==> Boundary(items, boundaries[k]))
    && (forall k, l :: 0 <= k < l < |boundaries| ==> boundaries[k] < boundaries[l])
    && (forall b: nat :: Boundary(items, b) ==> b in boundaries)
  }

  method Boundaries(items: seq<Item>) returns (boundaries: seq<nat>)
    ensures Lists(items, boundaries)
  {
    boundaries := [];
    var i := PreservedPrefixLen(items) + 1;
    while i < |items|
      invariant PreservedPrefixLen(items) < i
      invariant forall k :: 0 <= k < |boundaries| ==> Boundary(items, boundaries[k]) && boundaries[k] < i
      invariant forall k, l :: 0 <= k < l < |boundaries| ==> boundaries[k] < boundaries[l]
      invariant forall b: nat :: Boundary(items, b) && b < i ==> b in boundaries
    {
      if (items[i].User? || items[i].Assistant?) && CleanBoundary(items, i) {
        boundaries := boundaries + [i];
      }
      i := i + 1;
    }
  }

  /** The budgets accept the tail at boundary `k`, and at no boundary before it. */
  lemma FirstFit(items: seq<Item>, boundaries: seq<nat>, k: nat, tailBudget: nat, imageBudget: nat)
    requires Lists(items, boundaries) && k < |boundaries|
    requires Fits(items, boundaries[k], tailBudget, imageBudget)
    requires k > 0 ==> !Fits(items, boundaries[k - 1], tailBudget, imageBudget)
    ensures BestPlan(items, tailBudget, imageBudget, Plan(PreservedPrefixLen(items), boundaries[k]))
  {
    forall c: nat | Boundary(items, c) && Fits(items, c, tailBudget, imageBudget)
      ensures boundaries[k] <= c
    {
      var l :| 0 <= l < |boundaries| && boundaries[l] == c;
      if l < k { FitsMonotone(items, c, boundaries[k - 1], tailBudget, imageBudget); }
    }
  }

  /** No tail fits when the smallest one does not. */
  lemma NoFit(items: seq<Item>, boundaries: seq<nat>, tailBudget: nat, imageBudget: nat)
    requires Lists(items, boundaries) && boundaries != []
    requires !Fits(items, boundaries[|boundaries| - 1], tailBudget, imageBudget)
    ensures BestPlan(items, tailBudget, imageBudget,
                     Plan(PreservedPrefixLen(items), boundaries[|boundaries| - 1]))
    ensures |boundaries| > 1 ==> !Fits(items, boundaries[|boundaries| - 2], tailBudget, imageBudget)
  {
    var latest := boundaries[|boundaries| - 1];
    forall c: nat | Boundary(items, c)
      ensures c <= latest && !Fits(items, c, tailBudget, imageBudget)
    {
      var l :| 0 <= l < |boundaries| && boundaries[l] == c;
      if Fits(items, c, tailBudget, imageBudget) { FitsMonotone(items, c, latest, tailBudget, imageBudget); }
    }
  }

  method PlanFold(items: seq<Item>, tailBudget: nat, imageBudget: nat) returns (plan: Option<Plan>)
    ensures plan.None? <==> forall b: nat :: !Boundary(items, b)
    ensures plan.None? <==> forall b: nat :: !Starts(items, b)
    ensures plan.Some? ==> BestPlan(items, tailBudget, imageBudget, plan.value)
    ensures plan.Some? ==> Plans(items, tailBudget, imageBudget, plan.value)
  {
    forall b: nat ensures Starts(items, b) <==> Boundary(items, b) { StartsExactly(items, b); }
    forall p: Plan
      ensures Plans(items, tailBudget, imageBudget, p) <==> BestPlan(items, tailBudget, imageBudget, p)
    {
      PlansExactly(items, tailBudget, imageBudget, p);
    }
    hide Plans, Starts, Affords, Tokens, ImageBytes, Fits, PreservedPrefixLen, CleanBoundary, BestPlan;
    var prefixEnd := PreservedPrefixLen(items);
    var boundaries := Boundaries(items);
    if boundaries == [] {
      return None;
    }
    var latest := boundaries[|boundaries| - 1];
    assert Boundary(items, latest);
    var chosen := latest;
    var k := |boundaries|;
    while k > 0
      invariant 0 <= k <= |boundaries|
      invariant k == |boundaries| ==> chosen == latest
      invariant k < |boundaries| && Fits(items, latest, tailBudget, imageBudget) ==>
                  chosen == boundaries[k] && Fits(items, chosen, tailBudget, imageBudget)
      invariant k < |boundaries| && !Fits(items, latest, tailBudget, imageBudget) ==>
                  chosen == latest && k == |boundaries| - 1
    {
      k := k - 1;
      var b := boundaries[k];
      if Fits(items, b, tailBudget, imageBudget) {
        if !Fits(items, latest, tailBudget, imageBudget) {
          NoFit(items, boundaries, tailBudget, imageBudget);
        }
        chosen := b;
      } else if chosen != latest || b != latest {
        k := k + 1;
        break;
      }
    }
    if Fits(items, latest, tailBudget, imageBudget) {
      FirstFit(items, boundaries, k, tailBudget, imageBudget);
    } else {
      NoFit(items, boundaries, tailBudget, imageBudget);
    }
    plan := Some(Plan(prefixEnd, chosen));
  }

  /** The choice is unique: two plans meeting the description are the same plan. */
  lemma BestPlanUnique(items: seq<Item>, tailBudget: nat, imageBudget: nat, p: Plan, q: Plan)
    requires BestPlan(items, tailBudget, imageBudget, p) && BestPlan(items, tailBudget, imageBudget, q)
    ensures p == q
  {
    if Fits(items, p.keptFrom, tailBudget, imageBudget) && p.keptFrom < q.keptFrom {
      FitsMonotone(items, p.keptFrom, q.keptFrom, tailBudget, imageBudget);
    }
    if Fits(items, q.keptFrom, tailBudget, imageBudget) && q.keptFrom < p.keptFrom {
      FitsMonotone(items, q.keptFrom, p.keptFrom, tailBudget, imageBudget);
    }
  }

  // ---- Folding ----------------------------------------------------------------

  /** The pinned results of a folded span, as user text: one item per matching result, pins
      in order. A results item with no call in front of it would be a wire error. */
  function PinnedIn(item: Item, pin: string): seq<Item> {
    if item.ToolResults? then PinnedResults(item.results, pin) else []
  }

  function PinnedResults(results: seq<ToolResult>, pin: string): (r: seq<Item>)
    ensures forall i :: 0 <= i < |r| ==> r[i].User?
  {
    if results == [] then []
    else if results[0].toolUseId == pin then [PinnedText(results[0])] + PinnedResults(results[1..], pin)
    else PinnedResults(results[1..], pin)
  }

  function PinnedText(result: ToolResult): Item {
    User("<pinned tool_use_id=\"" + result.toolUseId + "\">\n" + result.content + "\n</pinned>",
         Some(CompactionSummary), [])
  }

  function PinnedFor(folded: seq<Item>, pin: string): (r: seq<Item>)
    ensures forall i :: 0 <= i < |r| ==> r[i].User?
  {
    if folded == [] then [] else PinnedIn(folded[0], pin) + PinnedFor(folded[1..], pin)
  }

  function PinnedItems(folded: seq<Item>, pins: seq<string>): (r: seq<Item>)
    ensures forall i :: 0 <= i < |r| ==> r[i].User?
  {
    if pins == [] then [] else PinnedFor(folded, pins[0]) + PinnedItems(folded, pins[1..])
  }

  /** The projection after a fold: preserved prefix, digest, pinned text, verbatim tail. */
  function Apply(items: seq<Item>, plan: Plan, digest: seq<Item>, pins: seq<string>): seq<Item>
    requires plan.prefixEnd <= plan.keptFrom <= |items|
  {
    var pinned := PinnedItems(items[plan.prefixEnd..plan.keptFrom], pins);
    items[..plan.prefixEnd] + digest + pinned + items[plan.keptFrom..]
  }

  predicate AllUsers(items: seq<Item>) {
    forall i :: 0 <= i < |items| ==> items[i].User?
  }

  /** Items that neither call tools nor answer calls. */
  predicate Inert(items: seq<Item>) {
    forall i :: 0 <= i < |items| ==> !Calls(items[i]) && !items[i].ToolResults?
  }

  lemma PairedBehindInert(front: seq<Item>, tail: seq<Item>)
    requires Inert(front)
    ensures Paired(front + tail) <==> Follows(false, tail)
    ensures Awaiting(front + tail) == Awaiting(tail)
  {
    PairedAppend(front, tail);
    assert front + [] == front;
  }

  /** A tail of a paired projection follows quiet text exactly when it does not open on
      results. */
  lemma TailFollows(items: seq<Item>, k: nat)
    requires Paired(items) && k <= |items|
    ensures Follows(false, items[k..]) <==> !(k < |items| && items[k].ToolResults?)
    ensures k < |items| ==> Awaiting(items[k..]) == Awaiting(items)
  {
    var tail := items[k..];
    assert forall i :: 0 <= i < |tail| ==> tail[i] == items[k + i];
    forall i | 0 <= i < |tail| - 1 && Calls(tail[i])
      ensures tail[i + 1].ToolResults?
    {
      assert Calls(items[k + i]);
    }
    forall i | 1 <= i < |tail| && tail[i].ToolResults?
      ensures Calls(tail[i - 1])
    {
      assert items[k + i].ToolResults?;
    }
  }

  lemma FoldFrontInert(items: seq<Item>, plan: Plan, digest: seq<Item>, pins: seq<string>)
    requires plan.prefixEnd <= PreservedPrefixLen(items)
    requires plan.prefixEnd <= plan.keptFrom <= |items|
    requires AllUsers(digest)
    ensures Inert(items[..plan.prefixEnd] + digest + PinnedItems(items[plan.prefixEnd..plan.keptFrom], pins))
  {
    forall i | 0 <= i < plan.prefixEnd
      ensures Preserved(items[i]) && !Calls(items[i]) && !items[i].ToolResults?
    {
    }
  }

  /** A fold keeps a paired projection paired, pins and all, exactly when its tail does not
      open on results; and it never leaves a batch open that was not. */
  lemma ApplyKeepsPairing(items: seq<Item>, plan: Plan, digest: seq<Item>, pins: seq<string>)
    requires Paired(items)
    requires plan.prefixEnd == PreservedPrefixLen(items)
    requires plan.prefixEnd <= plan.keptFrom <= |items|
    requires AllUsers(digest)
    ensures Paired(Apply(items, plan, digest, pins)) <==>
            !(plan.keptFrom < |items| && items[plan.keptFrom].ToolResults?)
    ensures Awaiting(Apply(items, plan, digest, pins)) ==
            (plan.keptFrom < |items| && Awaiting(items))
  {
    FoldFrontInert(items, plan, digest, pins);
    hide ToolUses, PreservedPrefixLen, PinnedItems;
    var front := items[..plan.prefixEnd] + digest
                 + PinnedItems(items[plan.prefixEnd..plan.keptFrom], pins);
    PairedBehindInert(front, items[plan.keptFrom..]);
    TailFollows(items, plan.keptFrom);
  }

  /** Every fold the planner proposes is such a cut, also after the projection has grown
      past the one it was planned against. */
  lemma PlannedFoldKeepsPairing(planned: seq<Item>, items: seq<Item>, tailBudget: nat, imageBudget: nat,
                                plan: Plan, digest: seq<Item>, pins: seq<string>)
    requires planned <= items
    requires BestPlan(planned, tailBudget, imageBudget, plan)
    requires Paired(items) && AllUsers(digest)
    ensures plan.prefixEnd == PreservedPrefixLen(items) < plan.keptFrom < |items|
    ensures Paired(Apply(items, plan, digest, pins))
    ensures Awaiting(Apply(items, plan, digest, pins)) == Awaiting(items)
  {
    PrefixLenGrows(planned, items);
    ApplyKeepsPairing(items, plan, digest, pins);
  }

  lemma {:induction false} PrefixLenGrows(planned: seq<Item>, items: seq<Item>)
    requires planned <= items
    requires PreservedPrefixLen(planned) < |planned|
    ensures PreservedPrefixLen(items) == PreservedPrefixLen(planned)
  {
    if Preserved(planned[0]) { PrefixLenGrows(planned[1..], items[1..]); }
  }

  // ---- Clearing ------------------------------------------------------------------

  const STUB_HEAD := "<cleared tool_use_id="

  function ClearedStub(id: string, bytes: nat, turn: nat): string {
    STUB_HEAD + ("\"" + id + "\" bytes=" + Decimal(bytes) + " turn=" + Decimal(turn)
    + "/>Result cleared to save context; recall " + id + " to fetch it.")
  }

  predicate IsClearedStub(content: string) {
    STUB_HEAD <= content
  }

  predicate Clearable(result: ToolResult, ids: seq<string>) {
    result.toolUseId in ids && !IsClearedStub(result.content)
  }

  function ClearOne(result: ToolResult, ids: seq<string>, turn: nat): ToolResult {
    if Clearable(result, ids)
    then result.(content := ClearedStub(result.toolUseId, Bytes(result.content), turn))
    else result
  }

  function ClearAll(results: seq<ToolResult>, ids: seq<string>, turn: nat): (r: seq<ToolResult>)
    ensures |r| == |results|
    ensures forall i :: 0 <= i < |r| ==> r[i] == ClearOne(results[i], ids, turn)
  {
    seq(|results|, i requires 0 <= i < |results| => ClearOne(results[i], ids, turn))
  }

  /** The stubbed projection; `turn` counts the real user items seen so far. */
  function ClearFrom(items: seq<Item>, ids: seq<string>, turn: nat): seq<Item> {
    if items == [] then []
    else
      match items[0]
      case User(_, None, _) => [items[0]] + ClearFrom(items[1..], ids, turn + 1)
      case ToolResults(results) => [ToolResults(ClearAll(results, ids, turn))] + ClearFrom(items[1..], ids, turn)
      case _ => [items[0]] + ClearFrom(items[1..], ids, turn)
  }

  function ClearResults(items: seq<Item>, ids: seq<string>): seq<Item> {
    ClearFrom(items, ids, 0)
  }

  /** Two items alike but for the contents of their results. */
  predicate SameShape(a: Item, b: Item) {
    || a == b
    || (&& a.ToolResults? && b.ToolResults?
        && |a.results| == |b.results|
        && forall i :: 0 <= i < |a.results| ==>
             a.results[i].toolUseId == b.results[i].toolUseId && a.results[i].isError == b.results[i].isError)
  }

  predicate SameShapes(a: seq<Item>, b: seq<Item>) {
    |a| == |b| && forall i :: 0 <= i < |a| ==> SameShape(a[i], b[i])
  }

  lemma {:induction false} ClearKeepsShape(items: seq<Item>, ids: seq<string>, turn: nat)
    ensures SameShapes(items, ClearFrom(items, ids, turn))
  {
    if items != [] {
      var next := if items[0].User? && items[0].synthetic.None? then turn + 1 else turn;
      ClearKeepsShape(items[1..], ids, next);
      var cleared := ClearFrom(items, ids, turn);
      assert cleared[1..] == ClearFrom(items[1..], ids, next);
      assert forall i :: 1 <= i < |items| ==> items[i] == items[1..][i - 1] && cleared[i] == cleared[1..][i - 1];
    }
  }

  lemma SameShapesPair(a: seq<Item>, b: seq<Item>)
    requires SameShapes(a, b)
    ensures Paired(a) == Paired(b) && Awaiting(a) == Awaiting(b)
  {
    hide ToolUses;
    assert forall i :: 0 <= i < |a| ==>
        SameShape(a[i], b[i]) && Calls(a[i]) == Calls(b[i]) && a[i].ToolResults? == b[i].ToolResults?;
  }

  /** Clearing rewrites contents in place: every index still names the same item, the
      pairing survives, and so does the prefix a later fold preserves. */
  lemma ClearKeepsPairing(items: seq<Item>, ids: seq<string>)
    ensures SameShapes(items, ClearResults(items, ids))
    ensures Paired(ClearResults(items, ids)) == Paired(items)
    ensures Awaiting(ClearResults(items, ids)) == Awaiting(items)
  {
    ClearKeepsShape(items, ids, 0);
    SameShapesPair(items, ClearResults(items, ids));
  }

  lemma ClearedOnce(result: ToolResult, ids: seq<string>, turn: nat, again: nat)
    ensures ClearOne(ClearOne(result, ids, turn), ids, again) == ClearOne(result, ids, turn)
  {
    var stub := ClearedStub(result.toolUseId, Bytes(result.content), turn);
    assert STUB_HEAD <= stub;
  }

  lemma ClearFromStep(first: Item, rest: seq<Item>, ids: seq<string>, turn: nat)
    ensures ClearFrom([first] + rest, ids, turn)
         == match first
            case User(_, None, _) => [first] + ClearFrom(rest, ids, turn + 1)
            case ToolResults(results) => [ToolResults(ClearAll(results, ids, turn))] + ClearFrom(rest, ids, turn)
            case _ => [first] + ClearFrom(rest, ids, turn)
  {
    assert ([first] + rest)[1..] == rest;
  }

  /** Clearing is idempotent: a stub is never cleared again. */
  lemma {:induction false} ClearIdempotent(items: seq<Item>, ids: seq<string>, turn: nat)
    ensures ClearFrom(ClearFrom(items, ids, turn), ids, turn) == ClearFrom(items, ids, turn)
  {
    if items != [] {
      var next := if items[0].User? && items[0].synthetic.None? then turn + 1 else turn;
      ClearIdempotent(items[1..], ids, next);
      assert items == [items[0]] + items[1..];
      ClearFromStep(items[0], items[1..], ids, turn);
      hide ClearFrom, ClearOne;
      match items[0] {
        case ToolResults(results) =>
          var once := ClearAll(results, ids, turn);
          forall i | 0 <= i < |once|
            ensures ClearOne(once[i], ids, turn) == once[i]
          {
            ClearedOnce(results[i], ids, turn, turn);
          }
          assert ClearAll(once, ids, turn) == once;
          ClearFromStep(ToolResults(once), ClearFrom(items[1..], ids, turn), ids, turn);
        case _ =>
          ClearFromStep(items[0], ClearFrom(items[1..], ids, next), ids, turn);
      }
    }
  }

  // ---- Replay ---------------------------------------------------------------------

  /** Log entries, by what they do to the projection. */
  datatype Payload =
    | ItemEntry(item: Item)
    | CompactionEntry(digest: seq<Item>, prefixEnd: nat, keptFrom: nat, pinned: seq<string>)
    | ClearedEntry(ids: seq<string>)
    | LogOnly

  predicate Repoints(payload: Payload) {
    payload.CompactionEntry? || payload.ClearedEntry?
  }

  /** The store's splice, which clamps indices instead of trusting them. */
  function ReplayFold(items: seq<Item>, digest: seq<Item>, prefixEnd: nat, keptFrom: nat,
                      pinned: seq<string>): seq<Item> {
    var p := if prefixEnd <= |items| then prefixEnd else |items|;
    var k := if keptFrom < p then p else if keptFrom <= |items| then keptFrom else |items|;
    var tail := items[k..];
    var front := items[..k];
    front[..p] + digest + PinnedItems(front[p..], pinned) + tail
  }

  function ReplayOne(items: seq<Item>, payload: Payload): seq<Item> {
    match payload
    case ItemEntry(item) => items + [item]
    case CompactionEntry(digest, prefixEnd, keptFrom, pinned) =>
      ReplayFold(items, digest, prefixEnd, keptFrom, pinned)
    case ClearedEntry(ids) => ClearResults(items, ids)
    case LogOnly => items
  }

  function Replay(seed: seq<Item>, log: seq<Payload>): seq<Item> {
    if log == [] then seed
    else ReplayOne(Replay(seed, log[..|log| - 1]), log[|log| - 1])
  }

  lemma {:induction false} ReplayConcat(seed: seq<Item>, a: seq<Payload>, b: seq<Payload>)
    ensures Replay(seed, a + b) == Replay(Replay(seed, a), b)
  {
    if b == [] {
      assert a + b == a;
    } else {
      ReplayConcat(seed, a, b[..|b| - 1]);
      assert (a + b)[..|a + b| - 1] == a + b[..|b| - 1];
    }
  }

  /** On the indices a live fold writes, replay and the live fold agree. */
  lemma ReplayFoldIsApply(items: seq<Item>, plan: Plan, digest: seq<Item>, pins: seq<string>)
    requires plan.prefixEnd <= plan.keptFrom <= |items|
    ensures ReplayFold(items, digest, plan.prefixEnd, plan.keptFrom, pins) == Apply(items, plan, digest, pins)
  {
    assert items[..plan.keptFrom][..plan.prefixEnd] == items[..plan.prefixEnd];
    assert items[..plan.keptFrom][plan.prefixEnd..] == items[plan.prefixEnd..plan.keptFrom];
  }

  /** The items a run of entries carries, in order. */
  function ItemsOf(log: seq<Payload>): seq<Item> {
    if log == [] then []
    else
      var front := ItemsOf(log[..|log| - 1]);
      var last := log[|log| - 1];
      if last.ItemEntry? then front + [last.item] else front
  }

  lemma ItemsOfSnoc(log: seq<Payload>, payload: Payload)
    ensures ItemsOf(log + [payload]) == ItemsOf(log) + (if payload.ItemEntry? then [payload.item] else [])
  {
    assert (log + [payload])[..|log|] == log;
  }

  lemma {:induction false} ItemsOfConcat(a: seq<Payload>, b: seq<Payload>)
    ensures ItemsOf(a + b) == ItemsOf(a) + ItemsOf(b)
  {
    if b == [] {
      assert a + b == a;
    } else {
      var front, last := b[..|b| - 1], b[|b| - 1];
      ItemsOfConcat(a, front);
      assert a + b == (a + front) + [last];
      assert b == front + [last];
      ItemsOfSnoc(a + front, last);
      ItemsOfSnoc(front, last);
    }
  }

  predicate NoRepoint(log: seq<Payload>) {
    forall i :: 0 <= i < |log| ==> !Repoints(log[i])
  }

  /** Without folds and clears, replay just appends. */
  lemma {:induction false} ReplayAppends(seed: seq<Item>, log: seq<Payload>)
    requires NoRepoint(log)
    ensures Replay(seed, log) == seed + ItemsOf(log)
  {
    if log != [] { ReplayAppends(seed, log[..|log| - 1]); }
  }
}
