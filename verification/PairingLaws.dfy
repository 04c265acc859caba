/** Tool-call adjacency over whole runs: under what the turn promises the actor, nothing but
    results is ever appended behind unanswered calls, and an unsealed log never rests on
    them. */
module PairingLaws {
  import opened Items
  import opened Compaction
  import opened HeldBuffer
  import opened Session
  import CommitLaws
  import Repair

  // ---- The law --------------------------------------------------------------------

  /** What a session can only keep, not establish: that no results are without their calls, and
      that results answer the very calls in front of them. */
  datatype Law = Law(whole: bool, byId: bool)

  predicate Lawful(law: Law, items: seq<Item>) {
    Adjacent(items) && (law.whole ==> NoOrphans(items)) && (law.byId ==> Matched(items))
  }

  /** Behind `items`, the first of `more` answers what is open, and the rest answer each other. */
  predicate MatchedBehind(items: seq<Item>, more: seq<Item>) {
    && Matched(more)
    && (more != [] && Awaiting(items) ==> Answers(items[|items| - 1], more[0]))
  }

  /** The projection once everything forwarded has landed. */
  function Forwarded(s: State): seq<Item> {
    s.items + CommitLaws.OkItems(s.fifo)
  }

  /** The calls a projection waits for. */
  function OpenCalls(items: seq<Item>): seq<string> {
    if Awaiting(items) then ToolUses(items[|items| - 1].blocks) else []
  }

  /** No committed unit in flight ends on open calls. */
  predicate UnitsClosed(fifo: seq<PendingAck>) {
    forall i :: 0 <= i < |fifo| && fifo[i].ack ==> !Awaiting(fifo[i].items)
  }

  /** While the log lives, only the turn leaves calls open, and a unit that does is alone in
      flight. */
  predicate PairInv(law: Law, s: State) {
    && Lawful(law, Forwarded(s))
    && (s.fate > 0 ==> Awaiting(Forwarded(s)) == (s.running && s.turnOpen))
    && (s.fate > 0 && Awaiting(Forwarded(s)) ==> |s.fifo| <= 1)
    && (s.fate > 0 && (|s.fifo| > 1 || !s.running) ==> UnitsClosed(s.fifo))
    && (s.fate > 0 && !s.running ==> !Awaiting(s.items))
  }

  /** Between turns: whatever is still in flight, on a live log nothing waits and nothing will. */
  predicate Calm(law: Law, s: State) {
    && Lawful(law, Forwarded(s))
    && (s.fate > 0 ==> !Awaiting(Forwarded(s)) && !Awaiting(s.items) && UnitsClosed(s.fifo))
  }

  /** The same with nothing in flight. */
  predicate Rest(law: Law, s: State) {
    && s.fifo == []
    && Lawful(law, s.items)
    && (s.fate > 0 ==> !Awaiting(s.items))
  }

  // ---- Appending lawfully -------------------------------------------------------------

  lemma LawfulAppend(law: Law, items: seq<Item>, more: seq<Item>)
    requires Lawful(law, items) && Follows(Awaiting(items), more)
    requires law.byId ==> MatchedBehind(items, more)
    ensures Lawful(law, items + more)
    ensures Awaiting(items + more) == if more == [] then Awaiting(items) else Awaiting(more)
  {
    if law.byId { MatchedAppend(items, more); }
    hide ToolUses, Matched, MatchedBehind;
    var all := items + more;
    assert more == [] ==> all == items;
    assert more != [] ==> all[|items|] == more[0];
    assert forall i :: 0 <= i < |more| ==> all[|items| + i] == more[i];
    assert forall i :: 0 <= i < |items| ==> all[i] == items[i];
    forall i | 0 <= i < |all| - 1 && Calls(all[i])
      ensures all[i + 1].ToolResults?
    {
      if i >= |items| { assert all[i] == more[i - |items|]; }
    }
    if law.whole {
      forall i | 0 <= i < |all| && all[i].ToolResults?
        ensures i > 0 && Calls(all[i - 1])
      {
        if i >= |items| { assert all[i] == more[i - |items|]; }
      }
    }
  }

  lemma MatchedAppend(items: seq<Item>, more: seq<Item>)
    requires Matched(items) && Matched(more)
    ensures Matched(items + more) <==>
              (more != [] && Awaiting(items) && more[0].ToolResults? ==> Answers(items[|items| - 1], more[0]))
  {
    hide Calls, Answers;
    Appended(items, more);
    var all := items + more;
    if Matched(all) && more != [] && Awaiting(items) && more[0].ToolResults? {
      assert all[|items|] == more[0] && all[|items| - 1] == items[|items| - 1];
    }
    if more != [] && Awaiting(items) && more[0].ToolResults? ==> Answers(items[|items| - 1], more[0]) {
      forall i | 0 <= i < |all| - 1 && Calls(all[i]) && all[i + 1].ToolResults?
        ensures Answers(all[i], all[i + 1])
      {
        if i >= |items| { assert all[i] == more[i - |items|] && all[i + 1] == more[i - |items| + 1]; }
      }
    }
  }

  lemma MatchedSlice(items: seq<Item>, i: nat, j: nat)
    requires Matched(items) && i <= j <= |items|
    ensures Matched(items[i..j])
  {
    hide Calls, Answers;
    assert forall k :: 0 <= k < j - i ==> items[i..j][k] == items[i + k];
  }

  lemma {:induction false} FollowsPrefix(open: bool, more: seq<Item>, n: nat)
    requires Follows(open, more) && n <= |more|
    ensures Follows(open, more[..n])
  {
    hide ToolUses;
    assert forall i :: 0 <= i < n ==> more[..n][i] == more[i];
    forall i | 0 <= i < n - 1 && Calls(more[..n][i])
      ensures more[..n][i + 1].ToolResults?
    {
      assert Calls(more[i]);
    }
  }

  lemma QuietFollows(item: Item)
    requires !Calls(item) && !item.ToolResults?
    ensures Follows(false, [item]) && !Awaiting([item])
    ensures forall items: seq<Item> :: !Awaiting(items) ==> MatchedBehind(items, [item])
  {
  }

  /** A fold leaves the law and the open batch as they were when its cut keeps a tail, and
      closes the projection when it keeps none. */
  lemma ApplyLawful(law: Law, items: seq<Item>, plan: Plan, digest: seq<Item>, pins: seq<string>)
    requires Lawful(law, items) && AllUsers(digest)
    requires plan.prefixEnd == PreservedPrefixLen(items)
    requires plan.prefixEnd <= plan.keptFrom <= |items|
    requires plan.keptFrom < |items| ==> !items[plan.keptFrom].ToolResults?
    ensures Lawful(law, Apply(items, plan, digest, pins))
    ensures Awaiting(Apply(items, plan, digest, pins)) == (plan.keptFrom < |items| && Awaiting(items))
  {
    FoldFrontInert(items, plan, digest, pins);
    hide ToolUses, PreservedPrefixLen, PinnedItems, Matched;
    var front := items[..plan.prefixEnd] + digest + PinnedItems(items[plan.prefixEnd..plan.keptFrom], pins);
    var tail := items[plan.keptFrom..];
    InertLawful(law, front);
    TailFollowsQuiet(law, items, plan.keptFrom);
    LawfulTail(law, front, tail);
  }

  lemma InertLawful(law: Law, front: seq<Item>)
    requires Inert(front)
    ensures Lawful(law, front) && !Awaiting(front)
  {
    hide ToolUses;
  }

  /** What may stand behind quiet text: a run lawful on its own that does not open on results. */
  predicate TailOk(law: Law, tail: seq<Item>) {
    && (tail != [] ==> !tail[0].ToolResults?)
    && Adjacent(tail)
    && (law.whole ==> NoOrphans(tail))
    && (law.byId ==> Matched(tail))
  }

  lemma TailFollowsQuiet(law: Law, items: seq<Item>, k: nat)
    requires Lawful(law, items) && k <= |items|
    requires k < |items| ==> !items[k].ToolResults?
    ensures TailOk(law, items[k..])
    ensures k < |items| ==> Awaiting(items[k..]) == Awaiting(items)
  {
    if law.byId {
      MatchedSlice(items, k, |items|);
      assert items[k..|items|] == items[k..];
    }
    hide ToolUses, Matched;
    var tail := items[k..];
    assert forall i :: 0 <= i < |tail| ==> tail[i] == items[k + i];
    forall i | 0 <= i < |tail| - 1 && Calls(tail[i])
      ensures tail[i + 1].ToolResults?
    {
      assert Calls(items[k + i]);
    }
    if law.whole {
      forall i | 0 <= i < |tail| && tail[i].ToolResults?
        ensures i > 0 && Calls(tail[i - 1])
      {
        assert items[k + i].ToolResults?;
      }
    }
  }

  lemma LawfulTail(law: Law, front: seq<Item>, tail: seq<Item>)
    requires Lawful(law, front) && !Awaiting(front) && TailOk(law, tail)
    ensures Lawful(law, front + tail)
    ensures tail == [] ==> front + tail == front
    ensures Awaiting(front + tail) == (tail != [] && Awaiting(tail))
  {
    if law.byId { MatchedAppend(front, tail); }
    hide ToolUses, Matched;
    var all := front + tail;
    assert tail == [] ==> all == front;
    assert forall i :: 0 <= i < |tail| ==> all[|front| + i] == tail[i];
    assert forall i :: 0 <= i < |front| ==> all[i] == front[i];
    forall i | 0 <= i < |all| - 1 && Calls(all[i])
      ensures all[i + 1].ToolResults?
    {
      if i >= |front| { assert all[i] == tail[i - |front|]; }
    }
    if law.whole {
      forall i | 0 <= i < |all| && all[i].ToolResults?
        ensures i > 0 && Calls(all[i - 1])
      {
        if i >= |front| { assert all[i] == tail[i - |front|]; }
      }
    }
  }

  lemma ClearLawful(law: Law, items: seq<Item>, ids: seq<string>)
    requires Lawful(law, items)
    ensures Lawful(law, ClearResults(items, ids))
    ensures Awaiting(ClearResults(items, ids)) == Awaiting(items)
  {
    ClearKeepsShape(items, ids, 0);
    ShapesLawful(law, items, ClearResults(items, ids));
  }

  lemma ShapesLawful(law: Law, a: seq<Item>, b: seq<Item>)
    requires SameShapes(a, b) && Lawful(law, a)
    ensures Lawful(law, b) && Awaiting(a) == Awaiting(b)
  {
    if law.byId { ShapesMatched(a, b); }
    hide ToolUses, Matched;
    assert forall i :: 0 <= i < |a| ==>
        SameShape(a[i], b[i]) && Calls(a[i]) == Calls(b[i]) && a[i].ToolResults? == b[i].ToolResults?;
  }

  lemma ShapesMatched(a: seq<Item>, b: seq<Item>)
    requires SameShapes(a, b) && Matched(a)
    ensures Matched(b)
  {
    hide ToolUses;
    forall i | 0 <= i < |b| - 1 && Calls(b[i]) && b[i + 1].ToolResults?
      ensures Answers(b[i], b[i + 1])
    {
      assert SameShape(a[i], b[i]) && SameShape(a[i + 1], b[i + 1]);
      assert ResultIds(b[i + 1].results) == ResultIds(a[i + 1].results);
    }
  }

  // ---- What each step does to the forwarded projection ----------------------------------

  /** Everything a commit leaves alone. */
  predicate SameTurn(s: State, t: State) {
    && t.held == s.held && t.queue == s.queue && t.running == s.running
    && t.foldPending == s.foldPending && t.turnOpen == s.turnOpen
  }

  lemma DrainForwards(s: State, abort: bool)
    ensures var d := Drain(s, abort);
            && d.items == Forwarded(s) && d.fifo == [] && d.fate == s.fate && SameTurn(s, d)
            && Forwarded(d) == Forwarded(s)
  {
    hide Drain, CommitLaws.OkItems;
    CommitLaws.DrainEffect(s, abort);
    EmptyQueue(Drain(s, abort));
  }

  lemma EmptyQueue(s: State)
    ensures s.fifo == [] ==> Forwarded(s) == s.items
  {
  }

  function Entered(s: State, payload: Payload): seq<Item> {
    if s.fate > 0 && payload.ItemEntry? then [payload.item] else []
  }

  lemma AppendForwards(s: State, payload: Payload)
    ensures var t := Append(s, payload);
            && Forwarded(t) == Forwarded(s) + Entered(s, payload)
            && t.items == Forwarded(t) && t.fifo == []
            && t.fate == (if s.fate > 0 then s.fate - 1 else 0) && SameTurn(s, t)
  {
    hide *;
    DrainForwards(s, false);
    CommitLaws.AppendUnfolds(s, payload);
    CommitFields(Drain(s, false), payload);
    EnteredSame(s, Drain(s, false), payload);
    EmptyQueue(Append(s, payload));
    SameTurnTrans(s, Drain(s, false), Append(s, payload));
  }

  lemma CommitFields(s: State, payload: Payload)
    ensures var t := Commit(s, payload);
            && t.items == s.items + Entered(s, payload) && t.fifo == s.fifo
            && t.fate == (if s.fate > 0 then s.fate - 1 else 0) && SameTurn(s, t)
  {
    hide Tokens;
    assert s.items + [] == s.items;
  }

  lemma EnteredSame(s: State, t: State, payload: Payload)
    requires t.fate == s.fate
    ensures Entered(t, payload) == Entered(s, payload)
  {
  }

  lemma ForwardForwards(s: State, entries: seq<Payload>, refused: bool)
    ensures var t := Forward(s, entries, refused);
            && t.items == s.items && SameTurn(s, t)
            && Forwarded(t) == Forwarded(s) + (if s.fate > 0 then ItemsOf(entries) else [])
            && t.fate == (if s.fate > 0 then s.fate - 1 else 0)
            && |t.fifo| == |s.fifo| + (if s.fate == 0 && refused then 0 else 1)
            && (s.fate == 0 && refused ==> t.fifo == s.fifo)
  {
    hide CommitLaws.OkItems, ItemsOf;
    CommitLaws.ForwardUnfolds(s, entries, refused);
    assert Forwarded(s) + [] == Forwarded(s);
    if !(s.fate == 0 && refused) {
      var unit := PendingAck(s.fate > 0, ItemsOf(entries), entries, s.minted + |entries|);
      CommitLaws.OkEntriesSnoc(s.fifo, unit);
      Assoc(s.items, CommitLaws.OkItems(s.fifo), if unit.ack then unit.items else []);
    }
  }

  lemma LandedForwards(s: State)
    requires s.fifo != []
    ensures var t := Landed(s);
            Forwarded(t) == Forwarded(s) && t.fifo == s.fifo[1..] && t.fate == s.fate && SameTurn(s, t)
  {
    hide Tokens;
    var unit := s.fifo[0];
    Assoc(s.items, if unit.ack then unit.items else [], CommitLaws.OkItems(s.fifo[1..]));
    assert s.items + [] == s.items;
  }

  // ---- Between turns -----------------------------------------------------------------------

  lemma RestAppend(law: Law, s: State, payload: Payload)
    requires Rest(law, s)
    requires payload.ItemEntry? ==> !Calls(payload.item) && !payload.item.ToolResults?
    ensures Rest(law, Append(s, payload)) && SameTurn(s, Append(s, payload))
  {
    hide Append, Lawful, Awaiting, Calls, Forwarded, Follows, MatchedBehind;
    AppendForwards(s, payload);
    EmptyQueue(s);
    if Entered(s, payload) != [] {
      QuietFollows(payload.item);
      LawfulAppend(law, s.items, [payload.item]);
    }
    assert s.items + [] == s.items;
  }

  lemma {:induction false} RestSteers(law: Law, s: State, steers: seq<HeldSteer>)
    requires Rest(law, s)
    ensures Rest(law, AppendSteers(s, steers)) && SameTurn(s, AppendSteers(s, steers))
    decreases |steers|
  {
    hide *;
    CommitLaws.AppendSteersUnfolds(s, steers);
    SameTurnRefl(s);
    if steers != [] {
      SteerIsQuiet(steers[0]);
      RestAppend(law, s, SteerEntry(steers[0]));
      RestSteers(law, Append(s, SteerEntry(steers[0])), steers[1..]);
      SameTurnTrans(s, Append(s, SteerEntry(steers[0])), AppendSteers(s, steers));
    }
  }

  lemma SameTurnRefl(s: State)
    ensures SameTurn(s, s)
  {
  }

  lemma SameTurnTrans(s: State, t: State, u: State)
    requires SameTurn(s, t) && SameTurn(t, u)
    ensures SameTurn(s, u)
  {
  }

  lemma SteerIsQuiet(steer: HeldSteer)
    ensures SteerEntry(steer).ItemEntry?
    ensures !Calls(SteerEntry(steer).item) && !SteerEntry(steer).item.ToolResults?
  {
  }

  lemma RestFrame(law: Law, s: State, t: State)
    requires Rest(law, s) && t.fifo == s.fifo && t.items == s.items && t.fate == s.fate
    ensures Rest(law, t)
  {
    hide Lawful, Awaiting;
  }

  lemma RestIsCalm(law: Law, s: State)
    requires Rest(law, s)
    ensures Calm(law, s)
  {
    hide Lawful, Awaiting;
    EmptyQueue(s);
  }

  lemma CalmFrame(law: Law, s: State, t: State)
    requires Calm(law, s) && t.fifo == s.fifo && t.items == s.items && t.fate == s.fate
    ensures Calm(law, t)
  {
    hide Lawful, Awaiting, UnitsClosed;
    ForwardedFrame(s, t);
  }

  /** A calm session meets the run invariant, with its turn over or just begun. */
  lemma CalmIsPaired(law: Law, s: State)
    requires Calm(law, s) && (s.fate > 0 && s.running ==> !s.turnOpen)
    ensures PairInv(law, s)
  {
    hide Lawful, Awaiting, Forwarded, UnitsClosed;
  }

  lemma RestIsPaired(law: Law, s: State)
    requires Rest(law, s) && (s.fate > 0 && s.running ==> !s.turnOpen)
    ensures PairInv(law, s)
  {
    hide Calm, Rest, PairInv;
    RestIsCalm(law, s);
    CalmIsPaired(law, s);
  }

  lemma CalmAppends(law: Law, s: State, payload: Payload)
    requires Calm(law, s)
    requires payload.ItemEntry? ==> !Calls(payload.item) && !payload.item.ToolResults?
    ensures Rest(law, Append(s, payload)) && SameTurn(s, Append(s, payload))
  {
    hide Append, Lawful, Awaiting, Calls, Forwarded, UnitsClosed, Rest, SameTurn;
    QuietAppend(law, s, payload);
  }

  lemma CalmDrains(law: Law, s: State, abort: bool)
    requires Calm(law, s)
    ensures Rest(law, Drain(s, abort)) && SameTurn(s, Drain(s, abort))
  {
    hide Drain, Lawful, Awaiting, Forwarded, UnitsClosed, SameTurn;
    DrainForwards(s, abort);
  }

  // ---- Folds and clears between turns ---------------------------------------------------------

  /** A digest adopted from the turn was planned on a projection the head still extends. */
  ghost predicate SpecPlanned(items: seq<Item>, spec: Option<SpecDigest>) {
    spec.Some? ==>
      && spec.value.planned <= items
      && exists tailBudget: nat, imageBudget: nat ::
           BestPlan(spec.value.planned, tailBudget, imageBudget, spec.value.plan)
  }

  lemma BoundaryKept(planned: seq<Item>, items: seq<Item>, tailBudget: nat, imageBudget: nat, plan: Plan)
    requires planned <= items && BestPlan(planned, tailBudget, imageBudget, plan)
    ensures plan.prefixEnd == PreservedPrefixLen(items) < plan.keptFrom < |items|
    ensures !items[plan.keptFrom].ToolResults?
  {
    PrefixLenGrows(planned, items);
  }

  lemma ChoiceIsClean(items: seq<Item>, spec: Option<SpecDigest>, focus: Option<string>, input: FoldInput)
    requires SpecPlanned(items, spec)
    ensures var choice := FoldChoice(items, spec, focus, input);
            choice.Some? ==>
              var plan := choice.value.0;
              && plan.prefixEnd == PreservedPrefixLen(items)
              && (plan.keptFrom < |items| ==> !items[plan.keptFrom].ToolResults?)
  {
    hide PreservedPrefixLen, BestPlan, DigestOf;
    if spec.Some? {
      var tailBudget: nat, imageBudget: nat :| BestPlan(spec.value.planned, tailBudget, imageBudget, spec.value.plan);
      BoundaryKept(spec.value.planned, items, tailBudget, imageBudget, spec.value.plan);
    }
    var best := PlanOf(items, input.tailBudget, input.imageBudget);
    if best.Some? {
      assert BestPlan(items, input.tailBudget, input.imageBudget, best.value);
      BoundaryKept(items, items, input.tailBudget, input.imageBudget, best.value);
    }
  }

  lemma RepointRests(law: Law, s: State, payload: Payload, items: seq<Item>)
    requires Rest(law, s) && Lawful(law, items) && !Awaiting(items)
    requires Repoints(payload)
    ensures var t := if s.fate == 0 then Commit(s, payload) else Repoint(Commit(s, payload), items);
            Rest(law, t) && SameTurn(s, t)
  {
    hide Lawful, Awaiting, Tokens;
  }

  lemma FoldWithRests(law: Law, s: State, plan: Plan, digest: seq<Item>, pins: seq<string>)
    requires Rest(law, s) && AllUsers(digest)
    requires plan.prefixEnd == PreservedPrefixLen(s.items)
    requires plan.prefixEnd <= plan.keptFrom <= |s.items|
    requires plan.keptFrom < |s.items| ==> !s.items[plan.keptFrom].ToolResults?
    ensures Rest(law, FoldWith(s, plan, digest, pins)) && SameTurn(s, FoldWith(s, plan, digest, pins))
  {
    hide *;
    CommitLaws.FoldWithUnfolds(s, plan, digest, pins);
    RestDef(law, s);
    var entry := CompactionEntry(digest, plan.prefixEnd, plan.keptFrom, pins);
    if s.fate == 0 {
      SealedRests(law, s, entry);
    } else {
      ApplyLawful(law, s.items, plan, digest, pins);
      RepointRests(law, s, entry, Apply(s.items, plan, digest, pins));
    }
  }

  lemma SealedRests(law: Law, s: State, payload: Payload)
    requires Rest(law, s) && s.fate == 0
    ensures Rest(law, Commit(s, payload)) && SameTurn(s, Commit(s, payload))
  {
    hide Lawful, Awaiting, Tokens;
  }

  lemma RestDef(law: Law, s: State)
    ensures Rest(law, s) <==> s.fifo == [] && Lawful(law, s.items) && (s.fate > 0 ==> !Awaiting(s.items))
  {
    hide Lawful, Awaiting;
  }

  lemma CompactRests(law: Law, s: State, spec: Option<SpecDigest>, focus: Option<string>, input: FoldInput)
    requires Rest(law, s) && SpecPlanned(s.items, spec)
    ensures Rest(law, Compact(s, spec, focus, input)) && SameTurn(s, Compact(s, spec, focus, input))
  {
    hide *;
    CommitLaws.CompactUnfolds(s, spec, focus, input);
    RestDef(law, s);
    CommitLaws.DrainEmpty(s, true);
    SameTurnRefl(s);
    ChoiceIsClean(s.items, spec, focus, input);
    var choice := FoldChoice(s.items, spec, focus, input);
    if choice.Some? {
      FoldWithRests(law, s, choice.value.0, choice.value.1, input.pins);
    }
  }

  lemma CalmCompacts(law: Law, s: State, focus: Option<string>, input: FoldInput)
    requires Calm(law, s)
    ensures Rest(law, Compact(s, None, focus, input)) && SameTurn(s, Compact(s, None, focus, input))
  {
    hide *;
    var d := Drain(s, true);
    CalmDrains(law, s, true);
    NoSpecPlanned(d.items);
    CompactRests(law, d, None, focus, input);
    RestDef(law, d);
    CommitLaws.DrainEmpty(d, true);
    CommitLaws.CompactUnfolds(s, None, focus, input);
    CommitLaws.CompactUnfolds(d, None, focus, input);
    SameTurnTrans(s, d, Compact(s, None, focus, input));
  }

  lemma ClearRests(law: Law, s: State, ids: seq<string>)
    requires Rest(law, s)
    ensures Rest(law, Clear(s, ids)) && SameTurn(s, Clear(s, ids))
  {
    hide Lawful, Awaiting, Commit, Repoint, ClearResults, Drain;
    CommitLaws.DrainEmpty(s, true);
    if s.fate == 0 {
      SealedRests(law, s, ClearedEntry(ids));
    } else {
      ClearLawful(law, s.items, ids);
      RepointRests(law, s, ClearedEntry(ids), ClearResults(s.items, ids));
    }
  }

  // ---- Turns begin and end ------------------------------------------------------------------

  lemma PromptIsQuiet(prompt: QueuedPrompt, body: string)
    ensures !Calls(PromptItem(prompt)) && !PromptItem(prompt).ToolResults?
    ensures !Calls(Reminder(body)) && !Reminder(body).ToolResults?
  {
  }

  lemma StartTurnPairs(law: Law, s: State, prompt: QueuedPrompt, start: Start)
    requires Calm(law, s)
    ensures PairInv(law, StartTurn(s, prompt, start))
  {
    var item := PromptItem(prompt);
    PromptIsQuiet(prompt, if start.reminder.Some? then start.reminder.value else "");
    if start.fast && s.held == [] {
      FastPathPairs(law, s, item, start);
    } else {
      hide Append, Rest, Calm, PairInv, PromptItem, Reminder, Calls;
      var a := Append(s, ItemEntry(item));
      CalmAppends(law, s, ItemEntry(item));
      var t := StartTurn(s, prompt, start);
      if s.fate > 0 && start.reminder.Some? {
        RestAppend(law, a, ItemEntry(Reminder(start.reminder.value)));
        RestFrame(law, Append(a, ItemEntry(Reminder(start.reminder.value))), t);
      } else {
        RestFrame(law, a, t);
      }
      RestIsPaired(law, t);
    }
  }

  lemma FastPathPairs(law: Law, s: State, item: Item, start: Start)
    requires Calm(law, s) && !Calls(item) && !item.ToolResults?
    ensures var f := Forward(s, [ItemEntry(item)], start.refused);
            PairInv(law, f.(running := !(s.fate == 0 && start.refused), turnOpen := false))
  {
    hide Lawful, Awaiting, Calls, Forward, Follows, ItemsOf, Forwarded, MatchedBehind, UnitsClosed;
    var f := Forward(s, [ItemEntry(item)], start.refused);
    ForwardForwards(s, [ItemEntry(item)], start.refused);
    OneItem(item);
    assert Forwarded(s) + [] == Forwarded(s);
    if s.fate > 0 {
      QuietFollows(item);
      LawfulAppend(law, Forwarded(s), [item]);
      ForwardCloses(s, [ItemEntry(item)], start.refused);
    }
    var t := f.(running := !(s.fate == 0 && start.refused), turnOpen := false);
    ForwardedFrame(f, t);
  }

  /** A closed unit behind closed units. */
  lemma ForwardCloses(s: State, entries: seq<Payload>, refused: bool)
    requires s.fate > 0 && UnitsClosed(s.fifo) && !Awaiting(ItemsOf(entries))
    ensures UnitsClosed(Forward(s, entries, refused).fifo)
  {
    hide Awaiting, ItemsOf;
    CommitLaws.ForwardUnfolds(s, entries, refused);
  }

  lemma OneItem(item: Item)
    ensures ItemsOf([ItemEntry(item)]) == [item]
  {
    assert [ItemEntry(item)][..0] == [];
  }

  lemma ForwardedFrame(s: State, t: State)
    requires t.items == s.items && t.fifo == s.fifo
    ensures Forwarded(t) == Forwarded(s)
  {
  }

  lemma {:induction false} NotesCalm(law: Law, s: State, n: nat)
    requires Calm(law, s)
    ensures Calm(law, Notes(s, n)) && SameTurn(s, Notes(s, n))
    decreases n
  {
    hide *;
    CommitLaws.NotesUnfolds(s, n);
    SameTurnRefl(s);
    if n > 0 {
      NoteCalm(law, s);
      NotesCalm(law, Append(s, LogOnly), n - 1);
      SameTurnTrans(s, Append(s, LogOnly), Notes(s, n));
    }
  }

  lemma NoteCalm(law: Law, s: State)
    requires Calm(law, s)
    ensures Calm(law, Append(s, LogOnly)) && SameTurn(s, Append(s, LogOnly))
  {
    hide Rest, Calm, Append, SameTurn;
    CalmAppends(law, s, LogOnly);
    RestIsCalm(law, Append(s, LogOnly));
  }

  lemma NoteRests(law: Law, s: State)
    requires Rest(law, s)
    ensures Rest(law, Append(s, LogOnly)) && SameTurn(s, Append(s, LogOnly))
  {
    hide Rest, Append, SameTurn;
    RestAppend(law, s, LogOnly);
  }

  lemma EndTurnPairs(law: Law, s: State, f: Finish)
    requires Calm(law, s)
    ensures PairInv(law, EndTurn(s, f))
  {
    hide Rest, Calm, Append, StartTurn, Compact, PairInv;
    if f.annotate { NoteCalm(law, s); }
    var a := if f.annotate then Append(s, LogOnly) else s;
    var p := a.(foldPending := None);
    if a.foldPending.Some? {
      CalmFrame(law, a, p);
      CalmCompacts(law, p, a.foldPending.value, f.fold);
      RestIsCalm(law, Compact(p, None, a.foldPending.value, f.fold));
    }
    var b := if a.foldPending.Some? then FoldNow(p, a.foldPending.value, f.fold) else a;
    if b.queue != [] {
      CalmFrame(law, b, b.(queue := b.queue[1..]));
      StartTurnPairs(law, b.(queue := b.queue[1..]), b.queue[0], f.start);
    } else {
      CalmFrame(law, b, b.(running := false, turnOpen := false));
      CalmIsPaired(law, b.(running := false, turnOpen := false));
    }
  }

  lemma FinishedPairs(law: Law, s: State, f: Finish)
    requires Calm(law, s)
    ensures PairInv(law, Finished(s, f))
  {
    hide Calm, Notes, StartTurn, EndTurn, PairInv;
    NotesCalm(law, s, f.notes);
    match f.guidance {
      case Some(text) => StartTurnPairs(law, Notes(s, f.notes), QueuedPrompt(text, [], Some(GoalGuidance)), f.start);
      case None => EndTurnPairs(law, Notes(s, f.notes), f);
    }
  }

  lemma OnTurnFinishedPairs(law: Law, s: State, end: TurnEnd, f: Finish)
    requires Calm(law, s) && (end.Ended? || Rest(law, s))
    requires end.WantsFold? ==> SpecPlanned(s.items, end.spec)
    ensures PairInv(law, OnTurnFinished(s, end, f))
  {
    hide Rest, Calm, FoldForTurn, Finished, ClearWith, Drain, PairInv, SpecPlanned;
    match end {
      case Ended => FinishedPairs(law, s, f);
      case WantsFold(spec, skipped, cancel) =>
        var focus := ParkedFocus(s);
        var p := s.(foldPending := None);
        RestFrame(law, s, p);
        RestIsCalm(law, p);
        NoSpecPlanned(p.items);
        if skipped {
          FinishedPairs(law, p, f);
        } else {
          FoldForTurnPairs(law, p, if focus.None? then spec else None, focus, cancel, f);
        }
      case WantsClear(ids, interrupted) =>
        var c := Clear(s, ids);
        ClearRests(law, s, ids);
        RestFrame(law, c, c.(turnOpen := false));
        RestIsPaired(law, c.(turnOpen := false));
        RestIsCalm(law, c);
        FinishedPairs(law, c, f);
    }
  }

  /** Wherever a fold is cancelled, the projection it leaves is at rest. */
  lemma FoldForTurnPairs(law: Law, s: State, spec: Option<SpecDigest>, focus: Option<string>, cancel: Cancel, f: Finish)
    requires Rest(law, s) && SpecPlanned(s.items, spec)
    ensures PairInv(law, FoldForTurn(s, spec, focus, cancel, f))
  {
    hide Rest, Calm, Compact, CompactCut, Compacts, Finished, DrainSome, PairInv, SpecPlanned;
    match cancel {
      case Early(drained) =>
        RestDef(law, s);
        RestIsCalm(law, s);
        CommitLaws.DrainSomeUnfolds(s, drained);
        FinishedPairs(law, s, f);
      case AtEntry =>
        CompactCutRests(law, s, spec, focus, f.fold);
        RestIsCalm(law, CompactCut(s, spec, focus, f.fold));
        FinishedPairs(law, CompactCut(s, spec, focus, f.fold), f);
      case _ =>
        var c := Compact(s, spec, focus, f.fold);
        CompactRests(law, s, spec, focus, f.fold);
        RestFrame(law, c, c.(turnOpen := false));
        RestIsPaired(law, c.(turnOpen := false));
        RestIsCalm(law, c);
        FinishedPairs(law, c, f);
    }
  }

  lemma CompactCutRests(law: Law, s: State, spec: Option<SpecDigest>, focus: Option<string>, input: FoldInput)
    requires Rest(law, s)
    ensures Rest(law, CompactCut(s, spec, focus, input))
  {
    hide *;
    RestDef(law, s);
    CommitLaws.DrainEmpty(s, true);
    CommitLaws.CompactCutUnfolds(s, spec, focus, input);
    var choice := FoldChoice(s.items, spec, focus, input);
    if choice.Some? {
      var (plan, digest) := choice.value;
      StrandRests(law, s, CompactionEntry(digest, plan.prefixEnd, plan.keptFrom, input.pins));
    }
  }

  lemma StrandRests(law: Law, s: State, payload: Payload)
    requires Rest(law, s)
    ensures Rest(law, Strand(s, payload))
  {
    hide Lawful, Awaiting;
  }

  lemma NoSpecPlanned(items: seq<Item>)
    ensures SpecPlanned(items, None)
  {
  }

  /** Results that answer one turn answer another exactly when the two call the same. */
  lemma AnswersSame(call: Item, other: Item, answer: Item)
    requires Answers(call, answer) && other.Assistant?
    ensures Answers(other, answer) <==> ToolUses(call.blocks) == ToolUses(other.blocks)
  {
    hide ToolUses;
  }

  lemma NoOpenCalls(items: seq<Item>)
    ensures OpenCalls(items) == [] <==> !Awaiting(items)
  {
  }

  /** A turn may end here: what the head waits for is what everything forwarded waits for, and
      no unit but a lone one leaves calls open. */
  predicate Ready(law: Law, s: State) {
    && Lawful(law, Forwarded(s))
    && (s.fate > 0 ==> OpenCalls(s.items) == OpenCalls(Forwarded(s)))
    && (s.fate > 0 && |s.fifo| > 1 ==> UnitsClosed(s.fifo))
  }

  lemma LoneUnitCloses(s: State)
    requires |s.fifo| <= 1 && !Awaiting(Forwarded(s))
    ensures UnitsClosed(s.fifo)
  {
    hide ToolUses;
    if |s.fifo| == 1 && s.fifo[0].ack {
      assert CommitLaws.OkItems(s.fifo[1..]) == [];
      var more := s.fifo[0].items;
      assert CommitLaws.OkItems(s.fifo) == more + [] == more;
      if more != [] { assert Forwarded(s)[|Forwarded(s)| - 1] == more[|more| - 1]; }
    }
  }

  /** The stub answers exactly what the head is waiting for, and so what is forwarded. */
  lemma CloseCalm(law: Law, s: State)
    requires Ready(law, s)
    ensures Calm(law, CloseOpenBatch(s))
    ensures s.fifo == [] ==> Rest(law, CloseOpenBatch(s))
    ensures s.items <= CloseOpenBatch(s).items
  {
    hide *;
    ReadyDef(law, s);
    CloseUnfolds(s);
    AwaitingCalls(s.items);
    if Awaiting(s.items) {
      var stub := Repair.Stub(s.items[|s.items| - 1]);
      StubRests(law, s, stub);
      RestIsCalm(law, Append(s, ItemEntry(stub)));
    } else {
      NoOpenCalls(s.items);
      NoOpenCalls(Forwarded(s));
      if s.fate > 0 && |s.fifo| <= 1 { LoneUnitCloses(s); }
      CalmDef(law, s);
      RestDef(law, s);
      EmptyQueue(s);
    }
  }

  lemma ReadyDef(law: Law, s: State)
    ensures Ready(law, s) <==>
              && Lawful(law, Forwarded(s))
              && (s.fate > 0 ==> OpenCalls(s.items) == OpenCalls(Forwarded(s)))
              && (s.fate > 0 && |s.fifo| > 1 ==> UnitsClosed(s.fifo))
  {
    hide Lawful, Forwarded, OpenCalls, UnitsClosed;
  }

  lemma CalmDef(law: Law, s: State)
    ensures Calm(law, s) <==>
              && Lawful(law, Forwarded(s))
              && (s.fate > 0 ==> !Awaiting(Forwarded(s)) && !Awaiting(s.items) && UnitsClosed(s.fifo))
  {
    hide Lawful, Forwarded, Awaiting, UnitsClosed;
  }

  lemma AwaitingCalls(items: seq<Item>)
    ensures Awaiting(items) ==> items != [] && items[|items| - 1].Assistant?
  {
  }

  lemma CloseUnfolds(s: State)
    ensures CloseOpenBatch(s)
         == if Awaiting(s.items) then Append(s, ItemEntry(Repair.Stub(s.items[|s.items| - 1]))) else s
  {
    hide Append, Awaiting, Repair.Stub;
  }

  lemma StubRests(law: Law, s: State, stub: Item)
    requires Lawful(law, Forwarded(s)) && Awaiting(s.items) && stub == Repair.Stub(s.items[|s.items| - 1])
    requires s.fate > 0 ==> OpenCalls(s.items) == OpenCalls(Forwarded(s))
    ensures Rest(law, Append(s, ItemEntry(stub)))
    ensures s.items <= Append(s, ItemEntry(stub)).items
  {
    assert stub.ToolResults?;
    hide *;
    var a := Append(s, ItemEntry(stub));
    AppendForwards(s, ItemEntry(stub));
    StubEnters(s, stub);
    ForwardedExtends(s);
    StubFollows(stub);
    RestDef(law, a);
    if s.fate > 0 {
      NoOpenCalls(s.items);
      NoOpenCalls(Forwarded(s));
      StubMatches(s.items, Forwarded(s));
      LawfulAppend(law, Forwarded(s), [stub]);
    }
    assert Forwarded(s) + [] == Forwarded(s);
  }

  lemma StubEnters(s: State, stub: Item)
    ensures Entered(s, ItemEntry(stub)) == if s.fate > 0 then [stub] else []
    ensures Forwarded(s) <= Forwarded(s) + Entered(s, ItemEntry(stub))
  {
    hide Forwarded;
  }

  lemma ForwardedExtends(s: State)
    ensures s.items <= Forwarded(s)
  {
  }

  /** The stub has a result for each open call, by its id. */
  lemma StubMatches(items: seq<Item>, all: seq<Item>)
    requires Awaiting(items) && OpenCalls(items) == OpenCalls(all)
    ensures MatchedBehind(all, [Repair.Stub(items[|items| - 1])])
  {
    var call := items[|items| - 1];
    Repair.StubAnswers(call);
    hide ToolUses, Answers, Repair.Stub;
    if Awaiting(all) { AnswersSame(call, all[|all| - 1], Repair.Stub(call)); }
  }

  lemma StubFollows(stub: Item)
    requires stub.ToolResults?
    ensures Follows(true, [stub]) && !Awaiting([stub]) && [stub] != []
  {
  }

  lemma {:induction false} SteersGrow(s: State, steers: seq<HeldSteer>)
    ensures Forwarded(s) <= Forwarded(AppendSteers(s, steers))
    decreases |steers|
  {
    hide *;
    CommitLaws.AppendSteersUnfolds(s, steers);
    if steers != [] {
      AppendForwards(s, SteerEntry(steers[0]));
      SteersGrow(Append(s, SteerEntry(steers[0])), steers[1..]);
    }
  }

  /** The whole end of a turn, also one reported with units still in flight. */
  lemma TurnFinishedPairs(law: Law, s: State, end: TurnEnd, switched: bool, f: Finish)
    requires Ready(law, s) && (end.Ended? || s.fifo == [])
    requires end.WantsFold? ==> SpecPlanned(s.items, end.spec)
    ensures PairInv(law, TurnFinished(s, end, switched, f))
  {
    hide *;
    var c := CloseOpenBatch(s);
    CloseCalm(law, s);
    var r := ReleaseSteers(c);
    ReleaseCalm(law, c);
    var a := if switched then Append(r, LogOnly) else r;
    if switched {
      NoteCalm(law, r);
      AppendForwards(r, LogOnly);
      ForwardedExtends(r);
      ForwardedGrowth(r);
    }
    if s.fifo == [] {
      if switched { NoteRests(law, r); }
    }
    assert s.items <= a.items;
    if end.WantsFold? { SpecStillPlanned(s.items, a.items, end.spec); }
    OnTurnFinishedPairs(law, a, end, f);
    TurnFinishedUnfolds(s, end, switched, f);
  }

  lemma ForwardedGrowth(s: State)
    ensures Forwarded(s) <= Forwarded(s) + Entered(s, LogOnly)
  {
  }

  lemma TurnFinishedUnfolds(s: State, end: TurnEnd, switched: bool, f: Finish)
    ensures var r := ReleaseSteers(CloseOpenBatch(s));
            TurnFinished(s, end, switched, f) == OnTurnFinished(if switched then Append(r, LogOnly) else r, end, f)
  {
    hide Append, ReleaseSteers, CloseOpenBatch, OnTurnFinished;
  }

  /** What is held lands behind everything forwarded. */
  lemma ReleaseCalm(law: Law, s: State)
    requires Calm(law, s)
    ensures Calm(law, ReleaseSteers(s)) && (Rest(law, s) ==> Rest(law, ReleaseSteers(s)))
    ensures s.items <= ReleaseSteers(s).items
  {
    hide *;
    CommitLaws.ReleaseUnfolds(s);
    if s.held != [] && !Awaiting(s.items) {
      var h := s.(held := []);
      CalmDef(law, s);
      ForwardedFrame(s, h);
      SteersQuiet(law, h, s.held);
      RestIsCalm(law, AppendSteers(h, s.held));
      SteersGrow(h, s.held);
      ForwardedExtends(s);
      RestDef(law, AppendSteers(h, s.held));
      EmptyQueue(AppendSteers(h, s.held));
    }
  }

  lemma SpecStillPlanned(items: seq<Item>, later: seq<Item>, spec: Option<SpecDigest>)
    requires SpecPlanned(items, spec) && items <= later
    ensures SpecPlanned(later, spec)
  {
    hide BestPlan;
  }

  // ---- While a turn runs -----------------------------------------------------------------------

  lemma PairDef(law: Law, s: State)
    ensures PairInv(law, s) <==>
              && Lawful(law, Forwarded(s))
              && (s.fate > 0 ==> Awaiting(Forwarded(s)) == (s.running && s.turnOpen))
              && (s.fate > 0 && Awaiting(Forwarded(s)) ==> |s.fifo| <= 1)
              && (s.fate > 0 && (|s.fifo| > 1 || !s.running) ==> UnitsClosed(s.fifo))
              && (s.fate > 0 && !s.running ==> !Awaiting(s.items))
  {
    hide Lawful, Awaiting, Forwarded, UnitsClosed;
  }

  /** Quiet text may be appended at any point where nothing forwarded is unanswered. */
  lemma QuietAppend(law: Law, s: State, payload: Payload)
    requires Lawful(law, Forwarded(s)) && (s.fate > 0 ==> !Awaiting(Forwarded(s)))
    requires payload.ItemEntry? ==> !Calls(payload.item) && !payload.item.ToolResults?
    ensures Rest(law, Append(s, payload)) && SameTurn(s, Append(s, payload))
    ensures Append(s, payload).fate <= s.fate
  {
    hide Append, Lawful, Awaiting, Calls, Forwarded, Follows, MatchedBehind;
    AppendForwards(s, payload);
    if Entered(s, payload) != [] {
      QuietFollows(payload.item);
      LawfulAppend(law, Forwarded(s), [payload.item]);
    }
    assert Forwarded(s) + [] == Forwarded(s);
  }

  lemma SteersQuiet(law: Law, s: State, steers: seq<HeldSteer>)
    requires Lawful(law, Forwarded(s)) && (s.fate > 0 ==> !Awaiting(Forwarded(s)))
    requires steers != []
    ensures Rest(law, AppendSteers(s, steers)) && SameTurn(s, AppendSteers(s, steers))
    ensures AppendSteers(s, steers).fate <= s.fate
  {
    hide *;
    CommitLaws.AppendSteersUnfolds(s, steers);
    SteerIsQuiet(steers[0]);
    var a := Append(s, SteerEntry(steers[0]));
    QuietAppend(law, s, SteerEntry(steers[0]));
    RestSteers(law, a, steers[1..]);
    SteersSpend(a, steers[1..]);
    SameTurnTrans(s, a, AppendSteers(s, steers));
  }

  lemma {:induction false} SteersSpend(s: State, steers: seq<HeldSteer>)
    ensures AppendSteers(s, steers).fate <= s.fate
    decreases |steers|
  {
    hide *;
    CommitLaws.AppendSteersUnfolds(s, steers);
    if steers != [] {
      AppendForwards(s, SteerEntry(steers[0]));
      SteersSpend(Append(s, SteerEntry(steers[0])), steers[1..]);
    }
  }

  /** Releasing what is held is lawful wherever the head speaks for everything forwarded. */
  lemma ReleasePairs(law: Law, s: State)
    requires PairInv(law, s)
    requires s.fate > 0 && Awaiting(Forwarded(s)) ==> s.fifo == []
    ensures PairInv(law, ReleaseSteers(s))
  {
    hide *;
    CommitLaws.ReleaseUnfolds(s);
    PairDef(law, s);
    EmptyQueue(s);
    if s.held != [] && !Awaiting(s.items) {
      var h := s.(held := []);
      ForwardedFrame(s, h);
      SteersQuiet(law, h, s.held);
      SameTurnFields(h, AppendSteers(h, s.held));
      RestIsPaired(law, AppendSteers(h, s.held));
    }
  }

  lemma SameTurnFields(s: State, t: State)
    requires SameTurn(s, t)
    ensures t.running == s.running && t.turnOpen == s.turnOpen
  {
  }

  lemma PairFrame(law: Law, s: State, t: State)
    requires PairInv(law, s)
    requires t.items == s.items && t.fifo == s.fifo && t.fate == s.fate
    requires t.running == s.running && t.turnOpen == s.turnOpen
    ensures PairInv(law, t)
  {
    hide Lawful, Awaiting, UnitsClosed;
    ForwardedFrame(s, t);
  }

  /** The ack arm. A unit that leaves calls open is alone in the queue, so once it lands the
      head itself withholds the release. */
  lemma AckPairs(law: Law, s: State)
    requires PairInv(law, s) && s.fifo != []
    ensures PairInv(law, AckArrives(s))
  {
    hide *;
    var marked := s.(overtook := s.overtook || Overtakes(s));
    var l := Landed(marked);
    ForwardedFrame(s, marked);
    PairFrame(law, s, marked);
    LandedForwards(marked);
    LandedCloses(marked);
    SameTurnFields(marked, l);
    PairDef(law, s);
    PairDef(law, l);
    ReleasePairs(law, l);
    CommitLaws.AckUnfolds(s, ReleaseSteers(l));
    VisibleFrame(ReleaseSteers(l), s.fifo[0].at, Settle(s.fifo[0], false));
    PairFrame(law, ReleaseSteers(l), AckArrives(s));
  }

  lemma LandedCloses(s: State)
    requires s.fifo != []
    ensures UnitsClosed(s.fifo) ==> UnitsClosed(Landed(s).fifo)
    ensures UnitsClosed(s.fifo) && !Awaiting(s.items) ==> !Awaiting(Landed(s).items)
  {
    hide Tokens, ToolUses;
    var unit := s.fifo[0];
    var all := s.items + unit.items;
    assert unit.items == [] ==> all == s.items;
    assert unit.items != [] ==> all[|all| - 1] == unit.items[|unit.items| - 1];
    assert forall i :: 0 <= i < |s.fifo| - 1 ==> s.fifo[1..][i] == s.fifo[i + 1];
  }

  lemma VisibleFrame(r: State, ticket: nat, verdict: Verdict)
    ensures var t := Resolve(Publish(r), ticket, verdict);
            && t.items == r.items && t.fifo == r.fifo && t.fate == r.fate
            && t.running == r.running && t.turnOpen == r.turnOpen
  {
  }

  // ---- Proposals ------------------------------------------------------------------------------

  /** A synchronous group lands up to the first entry the log refuses. */
  lemma {:induction false} AppendAllForwards(s: State, entries: seq<Payload>) returns (n: nat)
    ensures n <= |entries|
    ensures var t := AppendAll(s, entries);
            && Forwarded(t) == Forwarded(s) + ItemsOf(entries[..n])
            && (t.fate > 0 ==> n == |entries|) && t.fate <= s.fate
            && (entries != [] ==> t.fifo == []) && (entries == [] ==> t == s)
            && SameTurn(s, t)
    decreases |entries|
  {
    hide *;
    CommitLaws.AppendAllUnfolds(s, entries);
    SameTurnRefl(s);
    ItemsOfNone(Forwarded(s));
    n := 0;
    if entries != [] {
      var a := Append(s, entries[0]);
      AppendForwards(s, entries[0]);
      EnteredOne(s, entries[0]);
      assert entries[..0] == [];
      if s.fate > 0 {
        var m := AppendAllForwards(a, entries[1..]);
        n := m + 1;
        SameTurnTrans(s, a, AppendAll(s, entries));
        assert entries[..n] == [entries[0]] + entries[1..][..m];
        ItemsOfConcat([entries[0]], entries[1..][..m]);
        Assoc(Forwarded(s), ItemsOf([entries[0]]), ItemsOf(entries[1..][..m]));
      }
    }
  }

  lemma ItemsOfNone(items: seq<Item>)
    ensures ItemsOf([]) == [] && items + [] == items
  {
  }

  lemma EnteredOne(s: State, payload: Payload)
    ensures Entered(s, payload) == if s.fate > 0 then ItemsOf([payload]) else []
  {
    assert [payload][..0] == [];
  }

  /** What the running turn promises when it proposes: it answers its own open batch and only
      that, it forwards nothing pipelined past an open batch still in flight, and it opens
      one only behind an empty queue. */
  ghost predicate TurnKeepsOrder(s: State, entries: seq<Payload>, pipelined: bool) {
    && s.running && entries != []
    && Follows(s.turnOpen, ItemsOf(entries))
    && (pipelined && (s.turnOpen || Awaiting(ItemsOf(entries))) ==> s.fifo == [])
  }

  /** And, when it does so by id: each results item answers the calls it lands behind. */
  ghost predicate TurnAnswersById(s: State, entries: seq<Payload>) {
    MatchedBehind(Forwarded(s), ItemsOf(entries))
  }

  lemma PipelinedPairs(law: Law, s: State, entries: seq<Payload>, refused: bool)
    requires PairInv(law, s) && TurnKeepsOrder(s, entries, true)
    requires law.byId ==> TurnAnswersById(s, entries)
    ensures PairInv(law, Forward(s.(turnOpen := OpenAfter(s.turnOpen, entries)), entries, refused))
  {
    hide Lawful, Awaiting, Forwarded, Follows, ItemsOf, Forward, MatchedBehind, UnitsClosed;
    var t := s.(turnOpen := OpenAfter(s.turnOpen, entries));
    ForwardForwards(t, entries, refused);
    ForwardedFrame(s, t);
    assert Forwarded(s) + [] == Forwarded(s);
    if s.fate > 0 {
      LawfulAppend(law, Forwarded(s), ItemsOf(entries));
      if s.fifo != [] {
        if |s.fifo| == 1 { LoneUnitCloses(s); }
        ForwardCloses(t, entries, refused);
      }
    }
  }

  lemma SyncPairs(law: Law, s: State, entries: seq<Payload>)
    requires PairInv(law, s) && TurnKeepsOrder(s, entries, false)
    requires law.byId ==> TurnAnswersById(s, entries)
    ensures PairInv(law, AppendAll(s.(turnOpen := OpenAfter(s.turnOpen, entries)), entries))
    ensures AppendAll(s.(turnOpen := OpenAfter(s.turnOpen, entries)), entries).fifo == []
  {
    hide Lawful, Awaiting, Forwarded, Follows, ItemsOf, AppendAll, MatchedBehind;
    var t := s.(turnOpen := OpenAfter(s.turnOpen, entries));
    var n := AppendAllForwards(t, entries);
    ForwardedFrame(s, t);
    assert Forwarded(s) + [] == Forwarded(s);
    if s.fate == 0 {
      SealedAppendsNothing(t, entries);
    } else {
      PartOfGroup(s.turnOpen, entries, n);
      if law.byId { PartMatches(Forwarded(s), entries, n); }
      LawfulAppend(law, Forwarded(s), ItemsOf(entries[..n]));
      assert n == |entries| ==> entries[..n] == entries;
    }
  }

  lemma SealedAppendsNothing(s: State, entries: seq<Payload>)
    requires s.fate == 0
    ensures Forwarded(AppendAll(s, entries)) == Forwarded(s)
  {
    hide *;
    CommitLaws.AppendAllUnfolds(s, entries);
    if entries != [] {
      AppendForwards(s, entries[0]);
      EnteredOne(s, entries[0]);
      ItemsOfNone(Forwarded(s));
    }
  }

  lemma PartMatches(items: seq<Item>, entries: seq<Payload>, n: nat)
    requires MatchedBehind(items, ItemsOf(entries)) && n <= |entries|
    ensures MatchedBehind(items, ItemsOf(entries[..n]))
  {
    hide Follows, ItemsOf, Matched, Answers, Awaiting;
    assert entries == entries[..n] + entries[n..];
    ItemsOfConcat(entries[..n], entries[n..]);
    var part, whole := ItemsOf(entries[..n]), ItemsOf(entries);
    MatchedSlice(whole, 0, |part|);
    assert whole[0..|part|] == part;
  }

  lemma PartOfGroup(open: bool, entries: seq<Payload>, n: nat)
    requires Follows(open, ItemsOf(entries)) && n <= |entries|
    ensures Follows(open, ItemsOf(entries[..n]))
  {
    hide Follows, ItemsOf;
    assert entries == entries[..n] + entries[n..];
    ItemsOfConcat(entries[..n], entries[n..]);
    var part := ItemsOf(entries[..n]);
    FollowsPrefix(open, ItemsOf(entries), |part|);
    assert ItemsOf(entries)[..|part|] == part;
  }

  // ---- Commands --------------------------------------------------------------------------------

  /** What the environment promises: the turn proposes in order; questions are log-only; a
      plan change does not come mid-batch; a turn that wants a fold or a clear reports so with
      nothing in flight, a fold with a digest of a projection the head still extends; and a turn
      that dies with units in flight dies where the head waits for no other calls than
      everything forwarded does. */
  ghost predicate Allowed(s: State, cmd: Cmd) {
    match cmd
    case ProposePreparedCmd(entries, stale, pipelined, _) => stale || TurnKeepsOrder(s, entries, pipelined)
    case ProposeCmd(entries) => ItemsOf(entries) == []
    case SetPlanCmd(_) => !Awaiting(Forwarded(s))
    case TurnFinishedCmd(end, _, _) =>
      && s.running && (end.Ended? || s.fifo == [])
      && (s.fate > 0 ==> OpenCalls(s.items) == OpenCalls(Forwarded(s)))
      && (end.WantsFold? ==> SpecPlanned(s.items, end.spec))
    case _ => true
  }

  lemma IdleCalm(law: Law, s: State)
    requires PairInv(law, s) && !s.running
    ensures Calm(law, s)
  {
    hide Lawful, Awaiting, Forwarded, UnitsClosed;
  }

  lemma NotePairs(law: Law, s: State)
    requires PairInv(law, s)
    ensures PairInv(law, Append(s, LogOnly))
  {
    hide Lawful, Awaiting, Forwarded, Append;
    AppendForwards(s, LogOnly);
    assert Forwarded(s) + [] == Forwarded(s);
  }

  lemma LogOnlyPairs(law: Law, s: State, entries: seq<Payload>)
    requires PairInv(law, s) && ItemsOf(entries) == []
    ensures PairInv(law, AppendAll(s, entries))
  {
    hide Lawful, Awaiting, Forwarded, AppendAll, ItemsOf;
    var n := AppendAllForwards(s, entries);
    assert entries == entries[..n] + entries[n..];
    ItemsOfConcat(entries[..n], entries[n..]);
    assert Forwarded(s) + [] == Forwarded(s);
    EmptyQueue(AppendAll(s, entries));
  }

  lemma SetPlanPairs(law: Law, s: State, body: string)
    requires PairInv(law, s) && !Awaiting(Forwarded(s))
    ensures PairInv(law, Append(Append(s, LogOnly), ItemEntry(Reminder(body))))
  {
    hide Lawful, Awaiting, Forwarded, Append, Reminder, Calls, Rest;
    PromptIsQuiet(QueuedPrompt("", [], None), body);
    var a := Append(s, LogOnly);
    QuietAppend(law, s, LogOnly);
    AppendForwards(a, ItemEntry(Reminder(body)));
    RestAppend(law, a, ItemEntry(Reminder(body)));
    RestIsPaired(law, Append(a, ItemEntry(Reminder(body))));
  }

  lemma SteerPairs(law: Law, s: State, steer: HeldSteer)
    requires PairInv(law, s)
    ensures PairInv(law, AdmitSteer(s, steer))
  {
    hide PairInv, Append, Calm, Rest, Pushed, Awaiting, SteerEntry;
    if s.running || Awaiting(s.items) {
      PairFrame(law, s, AdmitSteer(s, steer));
    } else {
      IdleCalm(law, s);
      SteerIsQuiet(steer);
      CalmAppends(law, s, SteerEntry(steer));
      RestIsPaired(law, Append(s, SteerEntry(steer)));
    }
  }

  lemma PromptPairs(law: Law, s: State, prompt: QueuedPrompt, start: Start)
    requires PairInv(law, s)
    ensures PairInv(law, AdmitPrompt(s, prompt, start))
  {
    hide PairInv, StartTurn, Calm, Queued;
    if s.running {
      PairFrame(law, s, AdmitPrompt(s, prompt, start));
    } else {
      IdleCalm(law, s);
      StartTurnPairs(law, s, prompt, start);
    }
  }

  lemma ProposePreparedPairs(law: Law, s: State, entries: seq<Payload>, stale: bool, pipelined: bool, refused: bool)
    requires PairInv(law, s) && (stale || TurnKeepsOrder(s, entries, pipelined))
    requires law.byId && !stale ==> TurnAnswersById(s, entries)
    ensures PairInv(law, ProposePrepared(s, entries, stale, pipelined, refused))
  {
    hide PairInv, TurnKeepsOrder, TurnAnswersById, Forward, AppendAll, ReleaseSteers, OpenAfter;
    if !stale {
      if pipelined {
        NonEmpty(s, entries, pipelined);
        PipelinedPairs(law, s, entries, refused);
      } else {
        SyncPairs(law, s, entries);
        ReleasePairs(law, AppendAll(s.(turnOpen := OpenAfter(s.turnOpen, entries)), entries));
      }
    }
  }

  lemma NonEmpty(s: State, entries: seq<Payload>, pipelined: bool)
    requires TurnKeepsOrder(s, entries, pipelined)
    ensures entries != []
  {
  }

  lemma FoldPairs(law: Law, s: State, focus: Option<string>, input: FoldInput)
    requires PairInv(law, s) && !s.running
    ensures PairInv(law, FoldNow(s, focus, input))
  {
    hide PairInv, Calm, Rest, Compact;
    IdleCalm(law, s);
    CalmCompacts(law, s, focus, input);
    RestIsPaired(law, Compact(s, None, focus, input));
  }

  lemma FinishPairs(law: Law, s: State, end: TurnEnd, switched: bool, f: Finish)
    requires PairInv(law, s) && Allowed(s, TurnFinishedCmd(end, switched, f))
    ensures PairInv(law, TurnFinished(s, end, switched, f))
  {
    hide Lawful, TurnFinished, SpecPlanned, Forwarded, OpenCalls, UnitsClosed, Awaiting;
    TurnFinishedPairs(law, s, end, switched, f);
  }

  /** The command answers by id, if it answers at all. */
  ghost predicate ById(s: State, cmd: Cmd) {
    cmd.ProposePreparedCmd? && !cmd.stale ==> TurnAnswersById(s, cmd.entries)
  }

  lemma StepPairs(law: Law, s: State, cmd: Cmd)
    requires PairInv(law, s) && Allowed(s, cmd) && (law.byId ==> ById(s, cmd))
    ensures PairInv(law, Step(s, cmd))
  {
    hide PairInv, AckArrives, Append, AdmitPrompt, AdmitSteer, Compact, ProposePrepared, TurnFinished, AppendAll,
         Awaiting, Pushed, Withdrawn, NeedsContinuation, Reminder, Forwarded, ItemsOf, TurnKeepsOrder,
         TurnAnswersById, SpecPlanned, Rest, Calm, OpenCalls;
    match cmd {
      case AckCmd => if s.fifo != [] { AckPairs(law, s); }
      case PromptCmd(prompt, start) => PromptPairs(law, s, prompt, start);
      case SteerCmd(steer) => SteerPairs(law, s, steer);
      case NotifyCmd(steer, start) =>
        if s.running || Awaiting(s.items) { PairFrame(law, s, Step(s, cmd)); }
        else { PromptPairs(law, s, NotifyPrompt(steer), start); }
      case UnnotifyCmd(key) => PairFrame(law, s, Step(s, cmd));
      case ContinueCmd =>
        if !s.running {
          IdleCalm(law, s);
          CalmFrame(law, s, s.(running := true, turnOpen := false));
          CalmIsPaired(law, s.(running := true, turnOpen := false));
        }
      case NoteCmd => NotePairs(law, s);
      case SetPlanCmd(body) => SetPlanPairs(law, s, body);
      case ProposeCmd(entries) => LogOnlyPairs(law, s, entries);
      case ProposePreparedCmd(entries, stale, pipelined, refused) =>
        ProposePreparedPairs(law, s, entries, stale, pipelined, refused);
      case FoldCmd(focus, input) =>
        if s.running { PairFrame(law, s, Step(s, cmd)); } else { FoldPairs(law, s, focus, input); }
      case TurnFinishedCmd(end, switched, finish) => FinishPairs(law, s, end, switched, finish);
    }
  }

  // ---- Runs ----------------------------------------------------------------------------------------

  /** Every command of a run is one its environment promises. */
  ghost predicate AllAllowed(s: State, cmds: seq<Cmd>) {
    forall i :: 0 <= i < |cmds| ==> Allowed(Run(s, cmds[..i]), cmds[i])
  }

  /** Every proposal of a run answers by id. */
  ghost predicate AllById(s: State, cmds: seq<Cmd>) {
    forall i :: 0 <= i < |cmds| ==> ById(Run(s, cmds[..i]), cmds[i])
  }

  /** What a session opened on this history has to keep. */
  predicate LawHolds(law: Law, history: seq<Item>) {
    && law.whole == Repair.Attributable(history, false)
    && (law.byId ==> Matched(Repair.Regroup(history)))
  }

  lemma OpenedPairs(law: Law, history: seq<Item>, fate: nat)
    requires LawHolds(law, history)
    ensures PairInv(law, Opened(history, fate))
    ensures Opened(history, fate).seed == Repair.Resume(history)
  {
    hide Repair.Resume, Repair.Regroup, Repair.Attributable, Tokens, Calls, Matched;
    Repair.ResumeAnswersAndSettles(history);
    Repair.ResumePairsExactlyAttributable(history);
    Repair.ResumeMatchesExactly(history);
    var s := Opened(history, fate);
    assert s.items + [] == s.items;
  }

  lemma {:induction false} RunPairs(law: Law, history: seq<Item>, fate: nat, cmds: seq<Cmd>)
    requires AllAllowed(Opened(history, fate), cmds) && LawHolds(law, history)
    requires law.byId ==> AllById(Opened(history, fate), cmds)
    ensures PairInv(law, Run(Opened(history, fate), cmds))
  {
    hide PairInv, Step, Opened, Allowed, ById, LawHolds;
    OpenedPairs(law, history, fate);
    if cmds != [] {
      var front := cmds[..|cmds| - 1];
      assert forall i :: 0 <= i < |front| ==> front[..i] == cmds[..i] && front[i] == cmds[i];
      RunPairs(law, history, fate, front);
      StepPairs(law, Run(Opened(history, fate), front), cmds[|cmds| - 1]);
    }
  }

  /** The safety law over every run, from any history: neither the head nor what has been
      forwarded ever holds a non-result item directly behind unanswered calls; with no turn
      running on a live log nothing is left unanswered; a history whose results all belong to
      calls stays fully paired; and if its results answer their calls by id, and the turn's do,
      every call is answered by its own id throughout. */
  lemma RunKeepsAdjacency(history: seq<Item>, fate: nat, cmds: seq<Cmd>)
    requires AllAllowed(Opened(history, fate), cmds)
    ensures var s := Run(Opened(history, fate), cmds);
            && Adjacent(s.items) && Adjacent(Forwarded(s))
            && (s.fate > 0 && !s.running ==> Answered(s.items))
            && (Repair.Attributable(history, false) ==> Paired(s.items) && Paired(Forwarded(s)))
            && (Matched(Repair.Regroup(history)) && AllById(Opened(history, fate), cmds) ==>
                  Matched(s.items) && Matched(Forwarded(s)))
  {
    hide Opened, Run, AllAllowed, AllById, Repair.Attributable, Repair.Regroup, ToolUses, CommitLaws.OkItems, Matched;
    var law := Law(Repair.Attributable(history, false),
                   Matched(Repair.Regroup(history)) && AllById(Opened(history, fate), cmds));
    RunPairs(law, history, fate, cmds);
    var s := Run(Opened(history, fate), cmds);
    EmptyQueue(s);
    LawfulPrefix(law, s.items, CommitLaws.OkItems(s.fifo));
    IdleAnswered(law, s);
  }

  lemma IdleAnswered(law: Law, s: State)
    requires PairInv(law, s)
    ensures s.fate > 0 && !s.running ==> !Awaiting(s.items) && !Awaiting(Forwarded(s))
  {
    hide Lawful, Awaiting, Forwarded, UnitsClosed;
  }

  lemma LawfulPrefix(law: Law, items: seq<Item>, more: seq<Item>)
    requires Lawful(law, items + more)
    ensures Lawful(law, items)
  {
    if law.byId {
      MatchedSlice(items + more, 0, |items|);
      assert (items + more)[0..|items|] == items;
    }
    hide ToolUses, Matched;
    var all := items + more;
    assert forall i :: 0 <= i < |items| ==> all[i] == items[i];
    forall i | 0 <= i < |items| - 1 && Calls(items[i])
      ensures items[i + 1].ToolResults?
    {
      assert Calls(all[i]);
    }
  }

  // ---- Where the promises are needed ---------------------------------------------------------------

  /** A plan change reminds the model without looking for an open batch. On a log that takes
      both of its entries it keeps the law exactly when no batch is open. */
  lemma SetPlanKeepsLawExactly(s: State, body: string)
    requires Adjacent(Forwarded(s))
    ensures Adjacent(Forwarded(Step(s, SetPlanCmd(body)))) <==> !(s.fate > 1 && Awaiting(Forwarded(s)))
  {
    hide Append, Forwarded, Reminder, ToolUses;
    var a := Append(s, LogOnly);
    AppendForwards(s, LogOnly);
    AppendForwards(a, ItemEntry(Reminder(body)));
    PromptIsQuiet(QueuedPrompt("", [], None), body);
    var before := Forwarded(s);
    assert before + [] == before;
    if s.fate > 1 {
      ReminderBehind(before, Reminder(body));
    }
  }

  lemma ReminderBehind(before: seq<Item>, reminder: Item)
    requires Adjacent(before) && !reminder.ToolResults? && !Calls(reminder)
    ensures Adjacent(before + [reminder]) <==> !Awaiting(before)
  {
    hide ToolUses;
    var all := before + [reminder];
    assert forall i :: 0 <= i < |before| ==> all[i] == before[i];
    if Awaiting(before) {
      assert Calls(all[|before| - 1]) && !all[|before|].ToolResults?;
    }
  }

  /** Closing the open batch reads the head without draining. On a live log it leaves
      everything forwarded answered, each call by its id, exactly when the head and the forwarded
      projection wait for the same calls, or neither waits. */
  lemma CloseOpenBatchExactly(s: State)
    requires Paired(Forwarded(s)) && Matched(Forwarded(s)) && s.fate > 0
    ensures var t := CloseOpenBatch(s);
            Paired(Forwarded(t)) && Answered(Forwarded(t)) && Matched(Forwarded(t))
            <==> OpenCalls(s.items) == OpenCalls(Forwarded(s))
  {
    hide Append, Forwarded, ToolUses, Matched, Answers, Paired;
    var before := Forwarded(s);
    if Awaiting(s.items) {
      var call := s.items[|s.items| - 1];
      var stub := Repair.Stub(call);
      AppendForwards(s, ItemEntry(stub));
      PairedAppend(before, [stub]);
      LoneMatched(stub);
      MatchedAppend(before, [stub]);
      Repair.StubAnswers(call);
      if Awaiting(before) { AnswersSame(call, before[|before| - 1], stub); }
      assert (before + [stub])[|before|] == stub;
      PairedAdjacent(before + [stub]);
    } else {
      PairedAdjacent(before);
    }
  }

  lemma PairedAdjacent(items: seq<Item>)
    ensures Paired(items) ==> Adjacent(items)
  {
    hide Adjacent, NoOrphans;
  }

  lemma LoneMatched(item: Item)
    ensures Matched([item])
  {
  }

  // ---- Runs that break it ---------------------------------------------------------------------------

  /** A turn's reply that calls a tool. */
  function Calling(id: string): Item {
    Assistant([ToolUse(id)])
  }

  /** A prompt lands, its turn's reply calls a tool, and before the result comes the plan
      changes. */
  function PlanChangeRun(): seq<Cmd> {
    [ContinueCmd,
     ProposePreparedCmd([ItemEntry(Calling("call"))], false, false, false),
     SetPlanCmd("plan")]
  }

  function Asked(): seq<Item> {
    [User("ask", None, [])]
  }

  lemma AskedOpens()
    ensures var s := Opened(Asked(), 5);
            && s.items == Asked() && s.fifo == [] && s.fate == 5 && s.held == [] && !s.running
  {
    hide Tokens;
    Repair.ResumeAnswersAndSettles(Asked());
    assert Answered(Asked());
  }

  /** Only the last command of that run is more than the environment promises, and it leaves a
      reminder between the call and its result. */
  lemma PlanChangeSplitsBatch()
    ensures var s := Opened(Asked(), 5);
            && AllAllowed(s, PlanChangeRun()[..2])
            && Adjacent(Run(s, PlanChangeRun()[..2]).items)
            && !Adjacent(Run(s, PlanChangeRun()).items)
  {
    hide Opened, Step, Run, Allowed, ToolUses;
    AskedOpens();
    var s := Opened(Asked(), 5);
    var cmds := PlanChangeRun();
    RunThree(s, cmds);
    AskedContinues(s);
    var r := Step(s, cmds[0]);
    ProposesCall(r);
    var o := Step(r, cmds[1]);
    assert cmds[..2][..0] == [] && cmds[..2][..1] == cmds[..1];
    CallStaysOpen(o);
    SetPlanKeepsLawExactly(o, "plan");
    SetPlanLands(o);
  }

  lemma RunThree(s: State, cmds: seq<Cmd>)
    requires |cmds| == 3
    ensures Run(s, cmds[..0]) == s
    ensures Run(s, cmds[..1]) == Step(s, cmds[0])
    ensures Run(s, cmds[..2]) == Step(Step(s, cmds[0]), cmds[1])
    ensures Run(s, cmds) == Step(Step(Step(s, cmds[0]), cmds[1]), cmds[2])
  {
    hide Step;
    assert cmds[..1][..0] == [] && cmds[..2][..1] == cmds[..1] && cmds[..3] == cmds;
  }

  lemma AskedContinues(s: State)
    requires s.items == Asked() && !s.running
    ensures Step(s, ContinueCmd) == s.(running := true, turnOpen := false)
    ensures Allowed(s, ContinueCmd)
  {
  }

  lemma ProposesCall(s: State)
    requires s.items == Asked() && s.fifo == [] && s.fate == 5 && s.held == [] && s.running && !s.turnOpen
    ensures var cmd := PlanChangeRun()[1];
            && Allowed(s, cmd)
            && Step(s, cmd).items == Asked() + [Calling("call")] && Step(s, cmd).fifo == [] && Step(s, cmd).fate == 4
  {
    hide Append, ToolUses, Forwarded;
    var entry := ItemEntry(Calling("call"));
    var t := s.(turnOpen := OpenAfter(s.turnOpen, [entry]));
    OneItem(Calling("call"));
    AppendForwards(t, entry);
    EmptyQueue(t);
    assert [entry][1..] == [];
    assert AppendAll(t, [entry]) == Append(t, entry);
    ReleasesNothing(Append(t, entry));
    EmptyQueue(Append(t, entry));
  }

  lemma ReleasesNothing(s: State)
    requires s.held == []
    ensures ReleaseSteers(s) == s
  {
  }

  lemma CallStaysOpen(s: State)
    requires s.items == Asked() + [Calling("call")] && s.fifo == [] && s.fate == 4
    ensures Adjacent(s.items) && Forwarded(s) == s.items && Awaiting(s.items)
  {
    EmptyQueue(s);
    assert ToolUses([ToolUse("call")]) == ["call"];
  }

  lemma SetPlanLands(s: State)
    requires s.fifo == []
    ensures var t := Step(s, SetPlanCmd("plan")); t.items == Forwarded(t)
  {
    hide Append, Forwarded, Reminder;
    AppendForwards(s, LogOnly);
    AppendForwards(Append(s, LogOnly), ItemEntry(Reminder("plan")));
  }
}
