/** What every command comes to on a log that lives through it: the entries it writes, word for
    word, and who waits, runs or is parked behind it. */
module Effects {
  import opened Items
  import opened Compaction
  import opened HeldBuffer
  import opened Session
  import CommitLaws
  import Contents
  import History
  import PairingLaws
  import Repair

  // ---- What is promised -----------------------------------------------------------

  /** What waits and what runs. */
  datatype Rooms = Rooms(held: seq<HeldSteer>, queue: seq<QueuedPrompt>, running: bool,
                         foldPending: Option<Option<string>>)

  function RoomsOf(s: State): Rooms {
    Rooms(s.held, s.queue, s.running, s.foldPending)
  }

  /** One entry to each steer, oldest first. */
  function SteerEntries(steers: seq<HeldSteer>): seq<Payload> {
    seq(|steers|, i requires 0 <= i < |steers| =>
      ItemEntry(User(steers[i].text, Some(steers[i].synthetic), steers[i].images)))
  }

  function Reminded(body: string): Payload {
    ItemEntry(User("<system-reminder>" + body + "</system-reminder>", Some(SystemReminder), []))
  }

  /** A turn begins on its prompt; a reminder follows unless the prompt went the straight way,
      which nothing held may stand in. */
  predicate Begins(held: seq<HeldSteer>, prompt: QueuedPrompt, start: Start, w: seq<Payload>) {
    w == [ItemEntry(User(prompt.text, prompt.synthetic, prompt.images))]
         + (if start.reminder.Some? && !(start.fast && held == []) then [Reminded(start.reminder.value)] else [])
  }

  /** The digest quotes the summary, or says that there is none. */
  predicate Digests(summary: Option<string>, digest: seq<Item>) {
    && |digest| == 1 && digest[0].User? && digest[0].synthetic == Some(CompactionSummary) && digest[0].images == []
    && digest[0].text
       == match summary
          case Some(s) =>
            "<compaction-summary>\n" + s + "\n</compaction-summary>\n"
            + ("Earlier conversation was compacted into the summary above; "
               + "the messages that follow it are verbatim; the folded span is "
               + "retrievable with recall (backend session-log).")
          case None =>
            "<compaction-summary degraded=\"true\">\n"
            + ("Earlier conversation was dropped to stay within the context "
               + "window; a summary could not be generated. Ask the user to "
               + "restate anything essential from before this point.")
            + "\n</compaction-summary>"
  }

  /** Where a fold cuts: as a digest made ahead planned it, if that may be adopted and still lies
      within the projection; else where the budgets say, which a reset overrides to keep no tail. */
  ghost predicate Cuts(proj: seq<Item>, spec: Option<SpecDigest>, focus: Option<string>, input: FoldInput,
                       plan: Plan, summary: Option<string>)
  {
    if spec.Some? && !input.reset && focus == None
       && spec.value.plan.prefixEnd < spec.value.plan.keptFrom <= |proj|
    then plan == spec.value.plan && summary == Some(spec.value.text)
    else
      && summary == input.summary
      && exists best: Plan ::
           && Plans(proj, input.tailBudget, input.imageBudget, best)
           && plan == Plan(best.prefixEnd, if input.reset then |proj| else best.keptFrom)
  }

  /** A fold writes its cut, its digest and its pins; without a cut it writes nothing. */
  ghost predicate FoldWrites(proj: seq<Item>, spec: Option<SpecDigest>, focus: Option<string>, input: FoldInput,
                             w: seq<Payload>)
  {
    if exists plan: Plan, summary: Option<string> :: Cuts(proj, spec, focus, input, plan, summary)
    then exists plan: Plan, summary: Option<string>, digest: seq<Item> ::
           && Cuts(proj, spec, focus, input, plan, summary) && Digests(summary, digest)
           && w == [CompactionEntry(digest, plan.prefixEnd, plan.keptFrom, input.pins)]
    else w == []
  }

  function NoteEntries(n: nat): seq<Payload> {
    seq(n, _ => LogOnly)
  }

  /** Behind its notes a session without a goal takes up the fold that is parked, if one is, and
      then the prompt that has waited longest, or nothing. */
  ghost predicate TakesUp(proj: seq<Item>, r: Rooms, f: Finish, fold: seq<Payload>, prompted: seq<Payload>,
                          t: Rooms)
  {
    && (if r.foldPending.Some? then FoldWrites(proj, None, r.foldPending.value, f.fold, fold) else fold == [])
    && if r.queue == []
       then prompted == [] && t == r.(foldPending := None, running := false)
       else Begins(r.held, r.queue[0], f.start, prompted)
            && t == r.(foldPending := None, running := true, queue := r.queue[1..])
  }

  predicate Pursues(r: Rooms, text: string, f: Finish, prompted: seq<Payload>, t: Rooms) {
    Begins(r.held, QueuedPrompt(text, [], Some(GoalGuidance)), f.start, prompted) && t == r.(running := true)
  }

  /** What the session goes on to: its goal, or whatever waits. */
  ghost predicate GoesOn(proj: seq<Item>, r: Rooms, f: Finish, w: seq<Payload>, t: Rooms) {
    match f.guidance
    case Some(text) =>
      exists prompted: seq<Payload> :: Pursues(r, text, f, prompted, t) && w == NoteEntries(f.notes) + prompted
    case None =>
      exists fold: seq<Payload>, prompted: seq<Payload> ::
        && TakesUp(proj, r, f, fold, prompted, t)
        && w == NoteEntries(f.notes) + (NoteEntries(if f.annotate then 1 else 0) + (fold + prompted))
  }

  /** How a turn's end is answered. A fold takes the parked one's focus along; only an
      uncancelled fold or clear lets the turn run on. */
  ghost predicate Outcome(proj: seq<Item>, r: Rooms, end: TurnEnd, f: Finish, w: seq<Payload>, t: Rooms) {
    match end
    case Ended => GoesOn(proj, r, f, w, t)
    case WantsFold(spec, skipped, cancel) =>
      var focus := if r.foldPending.Some? then r.foldPending.value else None;
      var on := r.(foldPending := None);
      if skipped || cancel.Early?
      then GoesOn(proj, on, f, w, t)
      else
        exists fold: seq<Payload>, rest: seq<Payload> ::
          && w == fold + rest
          && FoldWrites(proj, if focus == None then spec else None, focus, f.fold, fold)
          && if cancel.Never? && fold != [] then rest == [] && t == on else GoesOn(proj, on, f, rest, t)
    case WantsClear(ids, interrupted) =>
      exists rest: seq<Payload> ::
        && w == [ClearedEntry(ids)] + rest
        && if interrupted then GoesOn(ClearResults(proj, ids), r, f, rest, t) else rest == [] && t == r
  }

  /** A turn leaves: its open calls are answered, everything held gets in, in order, a switch is
      noted, and the outcome is answered. */
  function Leaves(s: State, switched: bool): seq<Payload> {
    (if Awaiting(s.items) then [ItemEntry(Repair.Stub(s.items[|s.items| - 1]))] else [])
    + (SteerEntries(s.held) + NoteEntries(if switched then 1 else 0))
  }

  ghost predicate Ends(s: State, end: TurnEnd, switched: bool, f: Finish, w: seq<Payload>, t: Rooms) {
    exists rest: seq<Payload> ::
      && w == Leaves(s, switched) + rest
      && Outcome(PairingLaws.Forwarded(s) + ItemsOf(Leaves(s, switched)), RoomsOf(s).(held := []), end, f, rest, t)
  }

  /** Every entry that does not go by the key, in order. */
  ghost predicate WithoutKey(held: seq<HeldSteer>, key: string, out: seq<HeldSteer>) {
    exists at: seq<nat> ::
      Picks(held, at, out) && forall i :: 0 <= i < |held| ==> (i in at <==> held[i].key != Some(key))
  }

  /** Steers that a boundary lets in: all that is held, unless the head there is mid-batch. */
  predicate LetsIn(head: seq<Item>, r: Rooms, w: seq<Payload>, t: Rooms) {
    if Awaiting(head) then w == [] && t == r else w == SteerEntries(r.held) && t == r.(held := [])
  }

  /** In session `s` the command writes `w` and leaves the rooms as `t`. */
  ghost predicate Does(s: State, cmd: Cmd, w: seq<Payload>, t: Rooms) {
    var r := RoomsOf(s);
    match cmd
    case AckCmd =>
      if s.fifo == [] then w == [] && t == r
      else LetsIn(if s.fifo[0].ack then s.items + s.fifo[0].items else s.items, r, w, t)
    case PromptCmd(prompt, start) =>
      if s.running then w == [] && PromptWaits(r.queue, prompt, t.queue) && t == r.(queue := t.queue)
      else Begins(r.held, prompt, start, w) && t == r.(running := true)
    case SteerCmd(steer) =>
      if s.running || Awaiting(s.items) then w == [] && SteerWaits(r.held, steer, t.held) && t == r.(held := t.held)
      else w == SteerEntries([steer]) && t == r
    case NotifyCmd(steer, start) =>
      if s.running || Awaiting(s.items) then w == [] && SteerWaits(r.held, steer, t.held) && t == r.(held := t.held)
      else Begins(r.held, QueuedPrompt(steer.text, [], Some(steer.synthetic)), start, w) && t == r.(running := true)
    case UnnotifyCmd(key) => w == [] && WithoutKey(r.held, key, t.held) && t == r.(held := t.held)
    case ContinueCmd =>
      w == [] && t == r.(running := s.running || (s.items != [] && (var last := s.items[|s.items| - 1];
                                                                    last.User? || last.ToolResults?)))
    case NoteCmd => w == [LogOnly] && t == r
    case SetPlanCmd(body) => w == [LogOnly, Reminded(body)] && t == r
    case ProposeCmd(entries) => w == entries && t == r
    case ProposePreparedCmd(entries, stale, pipelined, refused) =>
      if stale then w == [] && t == r
      else if pipelined then w == entries && t == r
      else
        exists released: seq<Payload> ::
          && w == entries + released
          && LetsIn(if entries == [] then s.items else PairingLaws.Forwarded(s) + ItemsOf(entries), r, released, t)
    case FoldCmd(focus, input) =>
      if s.running then w == [] && t == r.(foldPending := Some(focus))
      else FoldWrites(PairingLaws.Forwarded(s), None, focus, input, w) && t == r
    case TurnFinishedCmd(end, switched, finish) => Ends(s, end, switched, finish, w, t)
  }

  /** What the command wrote is what it promised, and commit orders number the entries of the log. */
  ghost predicate Did(s: State, cmd: Cmd, t: State) {
    && s.log <= t.log && t.minted - s.minted == |t.log| - |s.log|
    && Does(s, cmd, t.log[|s.log|..], RoomsOf(t))
  }

  // ---- Single entries ---------------------------------------------------------------

  /** `t` wrote `w` and nothing else, each entry under an order of its own, and its log was live all
      along. */
  predicate Wrote(s: State, w: seq<Payload>, t: State) {
    s.fate > 0 && t.log == s.log + w && t.minted == s.minted + |w|
  }

  lemma WroteNone(s: State, t: State)
    requires s.fate > 0 && t.log == s.log && t.minted == s.minted
    ensures Wrote(s, [], t)
  {
    assert s.log + [] == s.log;
  }

  lemma WroteMore(s: State, a: seq<Payload>, t: State, b: seq<Payload>, u: State)
    requires Wrote(s, a, t) && Wrote(t, b, u)
    ensures Wrote(s, a + b, u)
  {
    Assoc(s.log, a, b);
  }

  lemma WroteLog(s: State, w: seq<Payload>, t: State)
    requires Wrote(s, w, t)
    ensures s.log <= t.log && t.log[|s.log|..] == w && t.minted - s.minted == |t.log| - |s.log|
  {
  }

  /** Entries that only add: the forwarded projection takes their items. */
  predicate Adds(s: State, w: seq<Payload>, t: State) {
    && Wrote(s, w, t) && RoomsOf(t) == RoomsOf(s)
    && PairingLaws.Forwarded(t) == PairingLaws.Forwarded(s) + ItemsOf(w)
  }

  lemma AddsNone(s: State)
    requires s.fate > 0
    ensures Adds(s, [], s)
  {
    hide PairingLaws.Forwarded;
    WroteNone(s, s);
    NoItems();
    assert PairingLaws.Forwarded(s) + [] == PairingLaws.Forwarded(s);
  }

  lemma NoItems()
    ensures ItemsOf([]) == []
  {
  }

  lemma OneEntry(payload: Payload)
    ensures ItemsOf([payload]) == if payload.ItemEntry? then [payload.item] else []
  {
    assert [payload][..0] == [] && ItemsOf([]) == [];
  }

  lemma AddsMore(s: State, a: seq<Payload>, t: State, b: seq<Payload>, u: State)
    requires Adds(s, a, t) && Adds(t, b, u)
    ensures Adds(s, a + b, u)
  {
    hide PairingLaws.Forwarded, ItemsOf;
    WroteMore(s, a, t, b, u);
    ItemsOfConcat(a, b);
    Assoc(PairingLaws.Forwarded(s), ItemsOf(a), ItemsOf(b));
  }

  lemma AddsRooms(s: State, w: seq<Payload>, t: State)
    requires Adds(s, w, t)
    ensures Wrote(s, w, t) && RoomsOf(t) == RoomsOf(s)
    ensures PairingLaws.Forwarded(t) == PairingLaws.Forwarded(s) + ItemsOf(w)
  {
  }

  lemma AppendAdds(s: State, payload: Payload)
    requires Append(s, payload).fate > 0
    ensures Adds(s, [payload], Append(s, payload))
    ensures Append(s, payload).items == PairingLaws.Forwarded(s) + ItemsOf([payload])
  {
    hide Append, PairingLaws.Forwarded, ItemsOf;
    PairingLaws.AppendForwards(s, payload);
    OneEntry(payload);
    AppendLogs(s, payload);
  }

  lemma AppendLogs(s: State, payload: Payload)
    requires s.fate > 0
    ensures Append(s, payload).log == s.log + [payload] && Append(s, payload).minted == s.minted + 1
  {
    hide Drain, Tokens;
    CommitLaws.DrainEffect(s, false);
    DrainMints(s, false);
  }

  /** Draining mints nothing. */
  lemma {:induction false} DrainMints(s: State, abort: bool)
    ensures Drain(s, abort).minted == s.minted
    decreases |s.fifo|
  {
    hide *;
    CommitLaws.DrainEmpty(s, abort);
    if s.fifo != [] {
      CommitLaws.DrainUnfolds(s, abort);
      CommitLaws.DrainOneFields(s, abort);
      DrainOneMints(s, abort);
      DrainMints(DrainOne(s, abort), abort);
    }
  }

  lemma DrainOneMints(s: State, abort: bool)
    requires s.fifo != []
    ensures DrainOne(s, abort).minted == s.minted
  {
    hide Tokens, Settle;
  }

  /** Whatever lives now was live before. */
  lemma LivesBack(s: State, t: State)
    requires History.Continues(s, t) && t.fate > 0
    ensures s.fate > 0
  {
  }

  lemma GrowsBack(s: State, t: State)
    requires History.Grows(s, t) && t.fate > 0
    ensures s.fate > 0
  {
  }

  lemma {:induction false} AppendAllAdds(s: State, entries: seq<Payload>)
    requires AppendAll(s, entries).fate > 0
    ensures Adds(s, entries, AppendAll(s, entries))
    ensures AppendAll(s, entries).items
         == if entries == [] then s.items else PairingLaws.Forwarded(s) + ItemsOf(entries)
    decreases |entries|
  {
    hide *;
    CommitLaws.AppendAllUnfolds(s, entries);
    History.AppendAllGrows(s, entries);
    GrowsBack(s, AppendAll(s, entries));
    if entries == [] {
      AddsNone(s);
    } else {
      var a, rest := Append(s, entries[0]), entries[1..];
      assert [entries[0]] + rest == entries;
      History.AppendAllGrows(a, rest);
      GrowsBack(a, AppendAll(s, entries));
      AppendAdds(s, entries[0]);
      AppendAllAdds(a, rest);
      AddsMore(s, [entries[0]], a, rest, AppendAll(s, entries));
      ItemsOfConcat([entries[0]], rest);
      AddsRooms(s, [entries[0]], a);
      Assoc(PairingLaws.Forwarded(s), ItemsOf([entries[0]]), ItemsOf(rest));
      if rest == [] { NoItems(); }
    }
  }

  lemma {:induction false} NotesAdd(s: State, n: nat)
    requires Notes(s, n).fate > 0
    ensures Adds(s, NoteEntries(n), Notes(s, n))
    ensures ItemsOf(NoteEntries(n)) == []
    decreases n
  {
    hide *;
    CommitLaws.NotesUnfolds(s, n);
    History.NotesGrows(s, n);
    GrowsBack(s, Notes(s, n));
    if n == 0 {
      NoteCount(n);
      AddsNone(s);
      NoItems();
    } else {
      var a := Append(s, LogOnly);
      History.NotesGrows(a, n - 1);
      GrowsBack(a, Notes(s, n));
      AppendAdds(s, LogOnly);
      NotesAdd(a, n - 1);
      AddsMore(s, [LogOnly], a, NoteEntries(n - 1), Notes(s, n));
      NoteCount(n);
      ItemsOfConcat([LogOnly], NoteEntries(n - 1));
      OneEntry(LogOnly);
    }
  }

  lemma NoteCount(n: nat)
    ensures NoteEntries(n) == if n == 0 then [] else [LogOnly] + NoteEntries(n - 1)
    ensures NoteEntries(1) == [LogOnly]
  {
  }

  lemma {:induction false} SteersAdd(s: State, steers: seq<HeldSteer>)
    requires AppendSteers(s, steers).fate > 0
    ensures Adds(s, SteerEntries(steers), AppendSteers(s, steers))
    decreases |steers|
  {
    hide *;
    CommitLaws.AppendSteersUnfolds(s, steers);
    History.AppendSteersGrows(s, steers);
    GrowsBack(s, AppendSteers(s, steers));
    SteersCount(steers);
    if steers == [] {
      AddsNone(s);
    } else {
      var a, entry := Append(s, SteerEntry(steers[0])), SteerEntry(steers[0]);
      History.AppendSteersGrows(a, steers[1..]);
      GrowsBack(a, AppendSteers(s, steers));
      AppendAdds(s, entry);
      SteersAdd(a, steers[1..]);
      AddsMore(s, [entry], a, SteerEntries(steers[1..]), AppendSteers(s, steers));
    }
  }

  lemma SteersCount(steers: seq<HeldSteer>)
    ensures steers == [] ==> SteerEntries(steers) == []
    ensures steers != [] ==> SteerEntries(steers) == [SteerEntry(steers[0])] + SteerEntries(steers[1..])
  {
  }

  /** A boundary lets in what is held. */
  lemma ReleaseWrites(s: State)
    requires ReleaseSteers(s).fate > 0
    ensures var t := ReleaseSteers(s);
            var w := if Awaiting(s.items) then [] else SteerEntries(s.held);
            && Wrote(s, w, t) && LetsIn(s.items, RoomsOf(s), w, RoomsOf(t))
            && PairingLaws.Forwarded(t) == PairingLaws.Forwarded(s) + ItemsOf(w)
  {
    hide *;
    var t, h := ReleaseSteers(s), s.(held := []);
    CommitLaws.ReleaseUnfolds(s);
    History.ReleaseGrows(s);
    GrowsBack(s, t);
    AddsNone(s);
    AddsRooms(s, [], s);
    SteersCount(s.held);
    if s.held != [] && !Awaiting(s.items) {
      SteersAdd(h, s.held);
      AddsRooms(h, SteerEntries(s.held), t);
      EmptiedIs(s, h, SteerEntries(s.held), t);
    }
    LetsInIs(s.items, s, t);
  }

  lemma EmptiedIs(s: State, h: State, w: seq<Payload>, t: State)
    requires h == s.(held := []) && Wrote(h, w, t) && RoomsOf(t) == RoomsOf(h)
    ensures Wrote(s, w, t) && RoomsOf(t) == RoomsOf(s).(held := [])
    ensures PairingLaws.Forwarded(h) == PairingLaws.Forwarded(s)
  {
  }

  lemma LetsInIs(head: seq<Item>, s: State, t: State)
    requires RoomsOf(t) == if s.held == [] || Awaiting(head) then RoomsOf(s) else RoomsOf(s).(held := [])
    ensures LetsIn(head, RoomsOf(s), if Awaiting(head) then [] else SteerEntries(s.held), RoomsOf(t))
  {
  }

  // ---- Prompts ------------------------------------------------------------------------

  lemma StartWrites(s: State, prompt: QueuedPrompt, start: Start) returns (w: seq<Payload>)
    requires StartTurn(s, prompt, start).fate > 0
    ensures var t := StartTurn(s, prompt, start);
            && Wrote(s, w, t) && Begins(s.held, prompt, start, w) && RoomsOf(t) == RoomsOf(s).(running := true)
            && w != [] && NoRepoint(w)
  {
    hide *;
    var entry, t := ItemEntry(PromptItem(prompt)), StartTurn(s, prompt, start);
    History.StartTurnGrows(s, prompt, start);
    GrowsBack(s, t);
    PromptIs(prompt);
    if start.fast && s.held == [] {
      FastStart(s, prompt, start);
      w := [entry];
      BeginsAlone(s.held, prompt, start);
    } else {
      var a := Append(s, entry);
      SlowStart(s, prompt, start);
      if start.reminder.Some? {
        var more := ItemEntry(Reminder(start.reminder.value));
        History.AppendGrows(a, more);
        GrowsBack(a, Append(a, more));
        AppendAdds(s, entry);
        AppendAdds(a, more);
        AddsMore(s, [entry], a, [more], Append(a, more));
        AddsRooms(s, [entry] + [more], Append(a, more));
        RunsOn(s, [entry] + [more], Append(a, more), t);
        w := [entry] + [more];
        BeginsReminded(s.held, prompt, start);
      } else {
        AppendAdds(s, entry);
        AddsRooms(s, [entry], a);
        RunsOn(s, [entry], a, t);
        w := [entry];
        BeginsAlone(s.held, prompt, start);
      }
    }
    ItemsRepointNothing(w);
  }

  lemma ItemsRepointNothing(w: seq<Payload>)
    requires forall i :: 0 <= i < |w| ==> w[i].ItemEntry?
    ensures NoRepoint(w)
  {
  }

  lemma PromptIs(prompt: QueuedPrompt)
    ensures PromptItem(prompt) == User(prompt.text, prompt.synthetic, prompt.images)
  {
  }

  lemma BeginsAlone(held: seq<HeldSteer>, prompt: QueuedPrompt, start: Start)
    requires !(start.reminder.Some? && !(start.fast && held == []))
    ensures Begins(held, prompt, start, [ItemEntry(PromptItem(prompt))])
  {
    assert [ItemEntry(PromptItem(prompt))] + [] == [ItemEntry(PromptItem(prompt))];
  }

  lemma BeginsReminded(held: seq<HeldSteer>, prompt: QueuedPrompt, start: Start)
    requires start.reminder.Some? && !(start.fast && held == [])
    ensures Begins(held, prompt, start,
                   [ItemEntry(PromptItem(prompt))] + [ItemEntry(Reminder(start.reminder.value))])
  {
  }

  lemma RunsOn(s: State, w: seq<Payload>, a: State, t: State)
    requires Wrote(s, w, a) && RoomsOf(a) == RoomsOf(s) && t == a.(running := true, turnOpen := false)
    ensures Wrote(s, w, t) && RoomsOf(t) == RoomsOf(s).(running := true)
  {
  }

  lemma FastStart(s: State, prompt: QueuedPrompt, start: Start)
    requires s.fate > 0 && start.fast && s.held == []
    ensures var t := StartTurn(s, prompt, start);
            Wrote(s, [ItemEntry(PromptItem(prompt))], t) && RoomsOf(t) == RoomsOf(s).(running := true)
  {
    hide PromptItem, ItemsOf;
  }

  lemma SlowStart(s: State, prompt: QueuedPrompt, start: Start)
    requires s.fate > 0 && !(start.fast && s.held == [])
    ensures var a := Append(s, ItemEntry(PromptItem(prompt)));
            var r := if start.reminder.Some? then Append(a, ItemEntry(Reminder(start.reminder.value))) else a;
            StartTurn(s, prompt, start) == r.(running := true, turnOpen := false)
  {
    hide PromptItem, Reminder, Append;
  }

  // ---- Folds and clears ------------------------------------------------------------------

  lemma DigestIs(summary: Option<string>)
    ensures Digests(summary, DigestOf(summary))
  {
  }

  /** A digest made ahead is adopted. */
  predicate Adopts(proj: seq<Item>, spec: Option<SpecDigest>, focus: Option<string>, input: FoldInput) {
    spec.Some? && !input.reset && focus == None && spec.value.plan.prefixEnd < spec.value.plan.keptFrom <= |proj|
  }

  lemma CutsOnly(proj: seq<Item>, spec: Option<SpecDigest>, focus: Option<string>, input: FoldInput,
                 plan: Plan, summary: Option<string>)
    requires Cuts(proj, spec, focus, input, plan, summary) && !Adopts(proj, spec, focus, input)
    ensures exists best: Plan :: BestPlan(proj, input.tailBudget, input.imageBudget, best)
  {
    hide BestPlan, Plans;
    var best :| Plans(proj, input.tailBudget, input.imageBudget, best);
    PlansExactly(proj, input.tailBudget, input.imageBudget, best);
  }

  lemma FoldWritesBy(proj: seq<Item>, spec: Option<SpecDigest>, focus: Option<string>, input: FoldInput,
                     plan: Plan, summary: Option<string>, digest: seq<Item>)
    requires Cuts(proj, spec, focus, input, plan, summary) && Digests(summary, digest)
    ensures FoldWrites(proj, spec, focus, input,
                       [CompactionEntry(digest, plan.prefixEnd, plan.keptFrom, input.pins)])
  {
    hide Cuts, Digests;
  }

  lemma FoldWritesNone(proj: seq<Item>, spec: Option<SpecDigest>, focus: Option<string>, input: FoldInput)
    requires !exists plan: Plan, summary: Option<string> :: Cuts(proj, spec, focus, input, plan, summary)
    ensures FoldWrites(proj, spec, focus, input, [])
  {
    hide Cuts;
  }

  lemma ChoiceIs(proj: seq<Item>, spec: Option<SpecDigest>, focus: Option<string>, input: FoldInput)
    ensures Adopts(proj, spec, focus, input) ==> spec.Some?
    ensures var choice := FoldChoice(proj, spec, focus, input);
            if Adopts(proj, spec, focus, input)
            then choice == Some((spec.value.plan, DigestOf(Some(spec.value.text))))
            else match PlanOf(proj, input.tailBudget, input.imageBudget)
                 case None => choice == None
                 case Some(best) =>
                   choice == Some((Plan(best.prefixEnd, if input.reset then |proj| else best.keptFrom),
                                   DigestOf(input.summary)))
  {
    hide BestPlan, PlanOf, DigestOf;
  }

  lemma PlanOfIs(proj: seq<Item>, tailBudget: nat, imageBudget: nat)
    ensures match PlanOf(proj, tailBudget, imageBudget)
            case None => !exists p: Plan :: BestPlan(proj, tailBudget, imageBudget, p)
            case Some(p) => BestPlan(proj, tailBudget, imageBudget, p)
  {
    hide BestPlan;
  }

  lemma CutsAs(proj: seq<Item>, spec: Option<SpecDigest>, focus: Option<string>, input: FoldInput, best: Plan)
    requires Adopts(proj, spec, focus, input) || BestPlan(proj, input.tailBudget, input.imageBudget, best)
    ensures if Adopts(proj, spec, focus, input)
            then Cuts(proj, spec, focus, input, spec.value.plan, Some(spec.value.text))
            else Cuts(proj, spec, focus, input,
                      Plan(best.prefixEnd, if input.reset then |proj| else best.keptFrom), input.summary)
  {
    hide BestPlan, Plans;
    PlansExactly(proj, input.tailBudget, input.imageBudget, best);
  }

  /** The choice a fold makes is the one promised. */
  lemma ChoiceSays(proj: seq<Item>, spec: Option<SpecDigest>, focus: Option<string>, input: FoldInput)
    ensures var choice := FoldChoice(proj, spec, focus, input);
            choice.Some? ==>
              exists summary: Option<string> ::
                Cuts(proj, spec, focus, input, choice.value.0, summary) && Digests(summary, choice.value.1)
  {
    hide *;
    ChoiceIs(proj, spec, focus, input);
    PlanOfIs(proj, input.tailBudget, input.imageBudget);
    var choice, best := FoldChoice(proj, spec, focus, input), PlanOf(proj, input.tailBudget, input.imageBudget);
    if choice.Some? {
      CutsAs(proj, spec, focus, input, if best.Some? then best.value else Plan(0, 0));
      var summary := if Adopts(proj, spec, focus, input) then Some(spec.value.text) else input.summary;
      DigestIs(summary);
      assert Cuts(proj, spec, focus, input, choice.value.0, summary) && Digests(summary, choice.value.1);
    }
  }

  lemma ChoiceCuts(proj: seq<Item>, spec: Option<SpecDigest>, focus: Option<string>, input: FoldInput)
    ensures var choice := FoldChoice(proj, spec, focus, input);
            FoldWrites(proj, spec, focus, input,
                       if choice.None? then []
                       else [CompactionEntry(choice.value.1, choice.value.0.prefixEnd, choice.value.0.keptFrom,
                                             input.pins)])
  {
    hide *;
    ChoiceIs(proj, spec, focus, input);
    PlanOfIs(proj, input.tailBudget, input.imageBudget);
    var choice, best := FoldChoice(proj, spec, focus, input), PlanOf(proj, input.tailBudget, input.imageBudget);
    if choice.Some? {
      ChoiceSays(proj, spec, focus, input);
      var summary :| Cuts(proj, spec, focus, input, choice.value.0, summary) && Digests(summary, choice.value.1);
      FoldWritesBy(proj, spec, focus, input, choice.value.0, summary, choice.value.1);
    } else {
      forall plan: Plan, summary: Option<string>
        ensures !Cuts(proj, spec, focus, input, plan, summary)
      {
        if Cuts(proj, spec, focus, input, plan, summary) { CutsOnly(proj, spec, focus, input, plan, summary); }
      }
      FoldWritesNone(proj, spec, focus, input);
    }
  }

  lemma CompactWrites(s: State, spec: Option<SpecDigest>, focus: Option<string>, input: FoldInput)
      returns (w: seq<Payload>)
    requires Compact(s, spec, focus, input).fate > 0
    ensures var t := Compact(s, spec, focus, input);
            && Wrote(s, w, t) && RoomsOf(t) == RoomsOf(s)
            && FoldWrites(PairingLaws.Forwarded(s), spec, focus, input, w)
            && (w != [] <==> Compacts(s, spec, focus, input))
  {
    hide *;
    var d := Drain(s, true);
    History.CompactGrows(s, spec, focus, input);
    GrowsBack(s, Compact(s, spec, focus, input));
    CommitLaws.CompactUnfolds(s, spec, focus, input);
    PairingLaws.DrainForwards(s, true);
    CommitLaws.DrainEffect(s, true);
    DrainMints(s, true);
    RoomsStay(s, d);
    ChoiceCuts(d.items, spec, focus, input);
    CompactsIs(s, spec, focus, input);
    var choice := FoldChoice(d.items, spec, focus, input);
    if choice.None? {
      w := [];
      WroteNone(s, d);
    } else {
      var (plan, digest) := choice.value;
      w := [CompactionEntry(digest, plan.prefixEnd, plan.keptFrom, input.pins)];
      FoldLogs(d, plan, digest, input.pins);
      WroteSame(s, d, w, Compact(s, spec, focus, input));
    }
  }

  lemma CompactsIs(s: State, spec: Option<SpecDigest>, focus: Option<string>, input: FoldInput)
    ensures Compacts(s, spec, focus, input) <==>
            s.fate > 0 && FoldChoice(Drain(s, true).items, spec, focus, input).Some?
  {
  }

  lemma RoomsStay(s: State, t: State)
    requires PairingLaws.SameTurn(s, t)
    ensures RoomsOf(t) == RoomsOf(s)
  {
  }

  lemma WroteSame(s: State, d: State, w: seq<Payload>, t: State)
    requires Wrote(d, w, t) && d.log == s.log && d.fate == s.fate && d.minted == s.minted
    ensures Wrote(s, w, t)
  {
  }

  lemma FoldLogs(d: State, plan: Plan, digest: seq<Item>, pins: seq<string>)
    requires d.fate > 0 && plan.prefixEnd <= plan.keptFrom <= |d.items|
    ensures var t := FoldWith(d, plan, digest, pins);
            && Wrote(d, [CompactionEntry(digest, plan.prefixEnd, plan.keptFrom, pins)], t)
            && RoomsOf(t) == RoomsOf(d)
  {
    hide Tokens, Apply;
  }

  lemma CutWrites(s: State, spec: Option<SpecDigest>, focus: Option<string>, input: FoldInput)
      returns (w: seq<Payload>)
    requires CompactCut(s, spec, focus, input).fate > 0
    ensures var t := CompactCut(s, spec, focus, input);
            && Wrote(s, w, t) && RoomsOf(t) == RoomsOf(s)
            && FoldWrites(PairingLaws.Forwarded(s), spec, focus, input, w)
  {
    hide *;
    var d := Drain(s, true);
    History.CompactCutStrands(s, spec, focus, input);
    LivesBack(s, CompactCut(s, spec, focus, input));
    CommitLaws.CompactCutUnfolds(s, spec, focus, input);
    PairingLaws.DrainForwards(s, true);
    CommitLaws.DrainEffect(s, true);
    DrainMints(s, true);
    RoomsStay(s, d);
    ChoiceCuts(d.items, spec, focus, input);
    var choice := FoldChoice(d.items, spec, focus, input);
    if choice.None? {
      w := [];
      WroteNone(s, d);
    } else {
      var (plan, digest) := choice.value;
      w := [CompactionEntry(digest, plan.prefixEnd, plan.keptFrom, input.pins)];
      StrandLogs(d, w[0]);
      WroteSame(s, d, w, CompactCut(s, spec, focus, input));
    }
  }

  lemma StrandLogs(d: State, payload: Payload)
    requires d.fate > 0
    ensures Wrote(d, [payload], Strand(d, payload)) && RoomsOf(Strand(d, payload)) == RoomsOf(d)
  {
  }

  lemma ClearWrites(s: State, ids: seq<string>)
    requires Clear(s, ids).fate > 0
    ensures var t := Clear(s, ids);
            && Wrote(s, [ClearedEntry(ids)], t) && RoomsOf(t) == RoomsOf(s)
            && PairingLaws.Forwarded(t) == ClearResults(PairingLaws.Forwarded(s), ids)
  {
    PairingLaws.DrainForwards(s, true);
    CommitLaws.DrainEffect(s, true);
    DrainMints(s, true);
    hide Drain, ClearResults, Tokens, PairingLaws.Forwarded;
    var d, t := Drain(s, true), Clear(s, ids);
    PairingLaws.EmptyQueue(t);
  }

  lemma {:induction false} DrainSomeStays(s: State, n: nat)
    ensures var t := DrainSome(s, n);
            && t.log == s.log && t.fate == s.fate && t.minted == s.minted && RoomsOf(t) == RoomsOf(s)
            && PairingLaws.Forwarded(t) == PairingLaws.Forwarded(s)
    decreases n
  {
    hide *;
    CommitLaws.DrainSomeUnfolds(s, n);
    if n > 0 && s.fifo != [] {
      DrainOneStays(s);
      DrainSomeStays(DrainOne(s, true), n - 1);
    }
  }

  lemma DrainOneStays(s: State)
    requires s.fifo != []
    ensures var t := DrainOne(s, true);
            && t.log == s.log && t.fate == s.fate && t.minted == s.minted && RoomsOf(t) == RoomsOf(s)
            && PairingLaws.Forwarded(t) == PairingLaws.Forwarded(s)
  {
    PairingLaws.LandedForwards(s);
    hide Tokens, Settle, CommitLaws.OkItems;
  }

  // ---- The end of a turn --------------------------------------------------------------------

  function Annotated(s: State, f: Finish): State {
    if f.annotate then Append(s, LogOnly) else s
  }

  ghost function Folded(s: State, f: Finish): State {
    var a := Annotated(s, f);
    if a.foldPending.Some? then Compact(a.(foldPending := None), None, a.foldPending.value, f.fold) else a
  }

  function Promoted(b: State, f: Finish): State {
    if b.queue != [] then StartTurn(b.(queue := b.queue[1..]), b.queue[0], f.start)
    else b.(running := false, turnOpen := false)
  }

  lemma EndTurnUnfolds(s: State, f: Finish)
    ensures EndTurn(s, f) == Promoted(Folded(s, f), f)
  {
    hide Append, Compact, StartTurn;
  }

  lemma AnnotatedAdds(s: State, f: Finish)
    requires Annotated(s, f).fate > 0
    ensures var a := Annotated(s, f);
            && Wrote(s, NoteEntries(if f.annotate then 1 else 0), a) && RoomsOf(a) == RoomsOf(s)
            && PairingLaws.Forwarded(a) == PairingLaws.Forwarded(s)
  {
    hide Append, PairingLaws.Forwarded, NoteEntries;
    NoteCount(0);
    NoteCount(1);
    OneEntry(LogOnly);
    if f.annotate {
      AppendAdds(s, LogOnly);
      assert PairingLaws.Forwarded(s) + [] == PairingLaws.Forwarded(s);
    } else {
      WroteNone(s, s);
    }
  }

  lemma FoldedWrites(s: State, f: Finish) returns (fold: seq<Payload>)
    requires Folded(s, f).fate > 0
    ensures var b, r := Folded(s, f), RoomsOf(s);
            && Wrote(s, NoteEntries(if f.annotate then 1 else 0) + fold, b)
            && RoomsOf(b) == r.(foldPending := None)
            && if r.foldPending.Some?
               then FoldWrites(PairingLaws.Forwarded(s), None, r.foldPending.value, f.fold, fold) else fold == []
  {
    hide Append, Compact, PairingLaws.Forwarded, NoteEntries, FoldWrites, Wrote, Compacts;
    var a, b := Annotated(s, f), Folded(s, f);
    if a.foldPending.Some? {
      var p := a.(foldPending := None);
      History.CompactGrows(p, None, a.foldPending.value, f.fold);
      GrowsBack(p, b);
      AnnotatedAdds(s, f);
      fold := CompactWrites(p, None, a.foldPending.value, f.fold);
      ParkedOff(a, p, fold, b);
    } else {
      AnnotatedAdds(s, f);
      fold := [];
      WroteLives(s, NoteEntries(if f.annotate then 1 else 0), a);
      WroteNone(a, b);
    }
    WroteMore(s, NoteEntries(if f.annotate then 1 else 0), a, fold, b);
  }

  lemma WroteLives(s: State, w: seq<Payload>, t: State)
    requires Wrote(s, w, t)
    ensures s.fate > 0
  {
  }

  lemma ParkedOff(a: State, p: State, fold: seq<Payload>, b: State)
    requires p == a.(foldPending := None) && Wrote(p, fold, b)
    ensures Wrote(a, fold, b) && PairingLaws.Forwarded(p) == PairingLaws.Forwarded(a)
  {
  }

  lemma PromotedWrites(b: State, f: Finish) returns (prompted: seq<Payload>)
    requires Promoted(b, f).fate > 0
    ensures var t, r := Promoted(b, f), RoomsOf(b);
            && Wrote(b, prompted, t)
            && if r.queue == [] then prompted == [] && RoomsOf(t) == r.(running := false)
               else Begins(r.held, r.queue[0], f.start, prompted)
                    && RoomsOf(t) == r.(running := true, queue := r.queue[1..])
  {
    hide StartTurn, Begins;
    if b.queue == [] {
      prompted := [];
      WroteNone(b, Promoted(b, f));
    } else {
      prompted := StartWrites(b.(queue := b.queue[1..]), b.queue[0], f.start);
    }
  }

  lemma EndTurnWrites(s: State, f: Finish) returns (fold: seq<Payload>, prompted: seq<Payload>)
    requires EndTurn(s, f).fate > 0
    ensures var t := EndTurn(s, f);
            && Wrote(s, NoteEntries(if f.annotate then 1 else 0) + (fold + prompted), t)
            && TakesUp(PairingLaws.Forwarded(s), RoomsOf(s), f, fold, prompted, RoomsOf(t))
  {
    EndTurnUnfolds(s, f);
    PromotedLives(Folded(s, f), f);
    hide Folded, Promoted, EndTurn, FoldWrites, Begins, Wrote, NoteEntries, PairingLaws.Forwarded;
    fold := FoldedWrites(s, f);
    prompted := PromotedWrites(Folded(s, f), f);
    WroteMore(s, NoteEntries(if f.annotate then 1 else 0) + fold, Folded(s, f), prompted, EndTurn(s, f));
    Assoc(NoteEntries(if f.annotate then 1 else 0), fold, prompted);
  }

  lemma PromotedLives(b: State, f: Finish)
    ensures Promoted(b, f).fate > 0 ==> b.fate > 0
  {
    hide StartTurn, History.SameMarks;
    if b.queue != [] { History.StartTurnGrows(b.(queue := b.queue[1..]), b.queue[0], f.start); }
  }

  lemma FinishedWrites(s: State, f: Finish) returns (w: seq<Payload>)
    requires Finished(s, f).fate > 0
    ensures var t := Finished(s, f);
            Wrote(s, w, t) && GoesOn(PairingLaws.Forwarded(s), RoomsOf(s), f, w, RoomsOf(t))
  {
    FinishedLives(s, f);
    FinishedUnfolds(s, f);
    hide *;
    var g, t := Notes(s, f.notes), Finished(s, f);
    NotesAdd(s, f.notes);
    AddsRooms(s, NoteEntries(f.notes), g);
    assert PairingLaws.Forwarded(s) + [] == PairingLaws.Forwarded(s);
    if f.guidance.Some? {
      var prompt := QueuedPrompt(f.guidance.value, [], Some(GoalGuidance));
      var prompted := StartWrites(g, prompt, f.start);
      WroteMore(s, NoteEntries(f.notes), g, prompted, t);
      w := NoteEntries(f.notes) + prompted;
      HeldIs(g);
      GoesOnGoal(PairingLaws.Forwarded(s), RoomsOf(s), f, prompted, RoomsOf(t));
    } else {
      var fold, prompted := EndTurnWrites(g, f);
      var rest := NoteEntries(if f.annotate then 1 else 0) + (fold + prompted);
      WroteMore(s, NoteEntries(f.notes), g, rest, t);
      w := NoteEntries(f.notes) + rest;
      GoesOnQueue(PairingLaws.Forwarded(s), RoomsOf(s), f, fold, prompted, RoomsOf(t));
    }
  }

  lemma HeldIs(s: State)
    ensures RoomsOf(s).held == s.held
  {
  }

  lemma GoesOnGoal(proj: seq<Item>, r: Rooms, f: Finish, prompted: seq<Payload>, t: Rooms)
    requires f.guidance.Some? && t == r.(running := true)
    requires Begins(r.held, QueuedPrompt(f.guidance.value, [], Some(GoalGuidance)), f.start, prompted)
    ensures GoesOn(proj, r, f, NoteEntries(f.notes) + prompted, t)
  {
    hide Begins, NoteEntries;
    assert Pursues(r, f.guidance.value, f, prompted, t);
  }

  lemma GoesOnQueue(proj: seq<Item>, r: Rooms, f: Finish, fold: seq<Payload>, prompted: seq<Payload>, t: Rooms)
    requires f.guidance == None && TakesUp(proj, r, f, fold, prompted, t)
    ensures GoesOn(proj, r, f,
                   NoteEntries(f.notes) + (NoteEntries(if f.annotate then 1 else 0) + (fold + prompted)), t)
  {
    hide TakesUp, NoteEntries;
  }

  lemma FinishedLives(s: State, f: Finish)
    ensures Finished(s, f).fate > 0 ==> Notes(s, f.notes).fate > 0
  {
    hide *;
    var g, t := Notes(s, f.notes), Finished(s, f);
    FinishedUnfolds(s, f);
    if t.fate > 0 {
      if f.guidance.Some? {
        History.StartTurnGrows(g, QueuedPrompt(f.guidance.value, [], Some(GoalGuidance)), f.start);
      } else {
        History.EndTurnGrows(g, f);
      }
      GrowsBack(g, t);
    }
  }

  lemma FinishedUnfolds(s: State, f: Finish)
    ensures Finished(s, f)
         == if f.guidance.Some?
            then StartTurn(Notes(s, f.notes), QueuedPrompt(f.guidance.value, [], Some(GoalGuidance)), f.start)
            else EndTurn(Notes(s, f.notes), f)
  {
    hide StartTurn, EndTurn, Notes;
  }

  /** What answers a turn that wants a fold. */
  ghost predicate FoldAnswered(proj: seq<Item>, on: Rooms, spec: Option<SpecDigest>, focus: Option<string>,
                               cancel: Cancel, f: Finish, w: seq<Payload>, t: Rooms)
  {
    exists fold: seq<Payload>, rest: seq<Payload> ::
      && w == fold + rest
      && FoldWrites(proj, spec, focus, f.fold, fold)
      && if cancel.Never? && fold != [] then rest == [] && t == on else GoesOn(proj, on, f, rest, t)
  }

  /** Behind a fold nothing is parked, so the projection decides nothing more. */
  lemma GoesOnAnywhere(proj: seq<Item>, other: seq<Item>, r: Rooms, f: Finish, w: seq<Payload>, t: Rooms)
    requires GoesOn(proj, r, f, w, t) && r.foldPending == None
    ensures GoesOn(other, r, f, w, t)
  {
    hide Pursues, TakesUp, NoteEntries;
    if f.guidance == None {
      var fold, prompted :| TakesUp(proj, r, f, fold, prompted, t)
        && w == NoteEntries(f.notes) + (NoteEntries(if f.annotate then 1 else 0) + (fold + prompted));
      TakesUpAnywhere(proj, other, r, f, fold, prompted, t);
    }
  }

  lemma TakesUpAnywhere(proj: seq<Item>, other: seq<Item>, r: Rooms, f: Finish, fold: seq<Payload>,
                        prompted: seq<Payload>, t: Rooms)
    requires TakesUp(proj, r, f, fold, prompted, t) && r.foldPending == None
    ensures TakesUp(other, r, f, fold, prompted, t)
  {
    hide FoldWrites, Begins;
  }

  lemma FoldForTurnWrites(s: State, spec: Option<SpecDigest>, focus: Option<string>, cancel: Cancel, f: Finish)
      returns (w: seq<Payload>)
    requires s.foldPending == None && FoldForTurn(s, spec, focus, cancel, f).fate > 0
    ensures var t, proj := FoldForTurn(s, spec, focus, cancel, f), PairingLaws.Forwarded(s);
            && Wrote(s, w, t)
            && if cancel.Early? then GoesOn(proj, RoomsOf(s), f, w, RoomsOf(t))
               else FoldAnswered(proj, RoomsOf(s), spec, focus, cancel, f, w, RoomsOf(t))
  {
    hide Compact, CompactCut, Compacts, Finished, DrainSome, Wrote, GoesOn, FoldWrites, PairingLaws.Forwarded;
    var t, proj := FoldForTurn(s, spec, focus, cancel, f), PairingLaws.Forwarded(s);
    match cancel {
      case Early(drained) =>
        var d := DrainSome(s, drained);
        DrainSomeStays(s, drained);
        w := FinishedWrites(d, f);
        DrainedWrote(s, d, w, t);
      case AtEntry =>
        var c := CompactCut(s, spec, focus, f.fold);
        FinishedFrom(c, f);
        var fold := CutWrites(s, spec, focus, f.fold);
        var rest := FinishedWrites(c, f);
        GoesOnAnywhere(PairingLaws.Forwarded(c), proj, RoomsOf(c), f, rest, RoomsOf(t));
        WroteMore(s, fold, c, rest, t);
        w := fold + rest;
      case _ =>
        var c := Compact(s, spec, focus, f.fold);
        if cancel.Never? && Compacts(s, spec, focus, f.fold) {
          w := CompactWrites(s, spec, focus, f.fold);
          WroteFrame(s, w, c, t);
          FoldAloneAnswers(proj, RoomsOf(s), spec, focus, cancel, f, w);
        } else {
          FinishedFrom(c, f);
          var fold := CompactWrites(s, spec, focus, f.fold);
          var rest := FinishedWrites(c, f);
          GoesOnAnywhere(PairingLaws.Forwarded(c), proj, RoomsOf(c), f, rest, RoomsOf(t));
          WroteMore(s, fold, c, rest, t);
          w := fold + rest;
        }
    }
  }

  lemma FoldAloneAnswers(proj: seq<Item>, on: Rooms, spec: Option<SpecDigest>, focus: Option<string>,
                         cancel: Cancel, f: Finish, w: seq<Payload>)
    requires cancel.Never? && w != [] && FoldWrites(proj, spec, focus, f.fold, w)
    ensures FoldAnswered(proj, on, spec, focus, cancel, f, w, on)
  {
    hide FoldWrites, GoesOn;
    assert w == w + [];
  }

  lemma DrainedWrote(s: State, d: State, w: seq<Payload>, t: State)
    requires d.log == s.log && d.fate == s.fate && d.minted == s.minted && Wrote(d, w, t)
    ensures Wrote(s, w, t)
  {
  }

  lemma WroteFrame(s: State, w: seq<Payload>, c: State, t: State)
    requires Wrote(s, w, c) && t == c.(turnOpen := false)
    ensures Wrote(s, w, t) && RoomsOf(t) == RoomsOf(c)
  {
  }

  lemma FinishedFrom(c: State, f: Finish)
    ensures Finished(c, f).fate > 0 ==> c.fate > 0
  {
    hide *;
    History.FinishedGrows(c, f);
    if Finished(c, f).fate > 0 { GrowsBack(c, Finished(c, f)); }
  }

  lemma OutcomeWrites(s: State, end: TurnEnd, f: Finish) returns (w: seq<Payload>)
    requires OnTurnFinished(s, end, f).fate > 0
    ensures var t := OnTurnFinished(s, end, f);
            Wrote(s, w, t) && Outcome(PairingLaws.Forwarded(s), RoomsOf(s), end, f, w, RoomsOf(t))
  {
    hide FoldForTurn, Clear, Finished, Wrote, GoesOn, FoldWrites, PairingLaws.Forwarded, ClearResults;
    var t, proj := OnTurnFinished(s, end, f), PairingLaws.Forwarded(s);
    match end {
      case Ended => w := FinishedWrites(s, f);
      case WantsFold(spec, skipped, cancel) =>
        var p, focus := s.(foldPending := None), ParkedFocus(s);
        PairingLaws.ForwardedFrame(s, p);
        if skipped {
          w := FinishedWrites(p, f);
        } else {
          w := FoldForTurnWrites(p, if focus.None? then spec else None, focus, cancel, f);
        }
        WroteSame(s, p, w, t);
      case WantsClear(ids, interrupted) =>
        var c := Clear(s, ids);
        if s.fate > 0 && !interrupted {
          ClearWrites(s, ids);
          w := [ClearedEntry(ids)];
          assert w + [] == w;
          WroteFrame(s, w, c, t);
        } else {
          FinishedFrom(c, f);
          ClearWrites(s, ids);
          var rest := FinishedWrites(c, f);
          WroteMore(s, [ClearedEntry(ids)], c, rest, t);
          w := [ClearedEntry(ids)] + rest;
          WroteLives(s, w, t);
        }
    }
  }

  /** Closing, releasing and noting what was switched. */
  /** What closes an open batch. */
  function Closing(s: State): seq<Payload> {
    if Awaiting(s.items) then [ItemEntry(Repair.Stub(s.items[|s.items| - 1]))] else []
  }

  lemma LeavesWrites(s: State, switched: bool)
    requires History.AtOutcome(s, switched).fate > 0
    ensures var a := History.AtOutcome(s, switched);
            && Wrote(s, Leaves(s, switched), a) && RoomsOf(a) == RoomsOf(s).(held := [])
            && PairingLaws.Forwarded(a) == PairingLaws.Forwarded(s) + ItemsOf(Leaves(s, switched))
  {
    hide *;
    var c := CloseOpenBatch(s);
    var r := ReleaseSteers(c);
    var a := History.AtOutcome(s, switched);
    AtOutcomeParts(s, switched);
    var stub := Closing(s);
    var note := NoteEntries(if switched then 1 else 0);
    NoteCount(0);
    NoteCount(1);
    OneEntry(LogOnly);
    NoItems();
    if switched {
      History.AppendGrows(r, LogOnly);
      GrowsBack(r, a);
      AppendAdds(r, LogOnly);
      AddsRooms(r, [LogOnly], a);
    } else {
      WroteNone(r, a);
      assert PairingLaws.Forwarded(r) + [] == PairingLaws.Forwarded(r);
    }
    History.ReleaseGrows(c);
    GrowsBack(c, r);
    ClosesBatch(s);
    ReleaseWrites(c);
    LetsAllIn(c, RoomsOf(r));
    WroteMore(c, SteerEntries(s.held), r, note, a);
    WroteMore(s, stub, c, SteerEntries(s.held) + note, a);
    ItemsOfConcat(SteerEntries(s.held), note);
    ItemsOfConcat(stub, SteerEntries(s.held) + note);
    Assoc(PairingLaws.Forwarded(s), ItemsOf(stub), ItemsOf(SteerEntries(s.held) + note));
    assert PairingLaws.Forwarded(r) + ItemsOf(note) == PairingLaws.Forwarded(c) + ItemsOf(SteerEntries(s.held) + note)
    by { Assoc(PairingLaws.Forwarded(c), ItemsOf(SteerEntries(s.held)), ItemsOf(note)); }
    LeavesIs(s, switched);
  }

  lemma LeavesIs(s: State, switched: bool)
    ensures Leaves(s, switched)
         == Closing(s) + (SteerEntries(s.held) + NoteEntries(if switched then 1 else 0))
  {
  }

  lemma AtOutcomeParts(s: State, switched: bool)
    ensures var r := ReleaseSteers(CloseOpenBatch(s));
            History.AtOutcome(s, switched) == if switched then Append(r, LogOnly) else r
  {
  }

  lemma LetsAllIn(c: State, t: Rooms)
    requires !Awaiting(c.items) && LetsIn(c.items, RoomsOf(c), SteerEntries(c.held), t)
    ensures t == RoomsOf(c).(held := [])
  {
  }

  lemma ClosesBatch(s: State)
    requires CloseOpenBatch(s).fate > 0
    ensures var c := CloseOpenBatch(s);
            var w := Closing(s);
            && Wrote(s, w, c) && RoomsOf(c) == RoomsOf(s) && c.held == s.held && !Awaiting(c.items)
            && PairingLaws.Forwarded(c) == PairingLaws.Forwarded(s) + ItemsOf(w)
  {
    PairingLaws.AwaitingCalls(s.items);
    hide *;
    PairingLaws.CloseUnfolds(s);
    ClosingIs(s);
    if Awaiting(s.items) {
      var stub := Repair.Stub(s.items[|s.items| - 1]);
      History.AppendGrows(s, ItemEntry(stub));
      GrowsBack(s, Append(s, ItemEntry(stub)));
      AppendAdds(s, ItemEntry(stub));
      AddsRooms(s, [ItemEntry(stub)], Append(s, ItemEntry(stub)));
      OneEntry(ItemEntry(stub));
      PairingLaws.AppendForwards(s, ItemEntry(stub));
      SameHeld(s, Append(s, ItemEntry(stub)));
      StubCloses(s, PairingLaws.Forwarded(s));
    } else {
      AddsNone(s);
      AddsRooms(s, [], s);
    }
  }

  lemma ClosingIs(s: State)
    ensures Awaiting(s.items) ==> s.items != [] && s.items[|s.items| - 1].Assistant?
    ensures Closing(s) == if Awaiting(s.items) then [ItemEntry(Repair.Stub(s.items[|s.items| - 1]))] else []
  {
  }

  lemma SameHeld(s: State, t: State)
    requires PairingLaws.SameTurn(s, t)
    ensures t.held == s.held
  {
  }

  lemma StubCloses(s: State, before: seq<Item>)
    requires s.items != [] && s.items[|s.items| - 1].Assistant?
    ensures !Awaiting(before + [Repair.Stub(s.items[|s.items| - 1])])
  {
    hide ToolUses, Repair.UnansweredResults;
  }

  lemma TurnFinishedWrites(s: State, end: TurnEnd, switched: bool, f: Finish) returns (w: seq<Payload>)
    requires TurnFinished(s, end, switched, f).fate > 0
    ensures var t := TurnFinished(s, end, switched, f);
            Wrote(s, w, t) && Ends(s, end, switched, f, w, RoomsOf(t))
  {
    hide *;
    var a, t := History.AtOutcome(s, switched), TurnFinished(s, end, switched, f);
    History.AtOutcomeIs(s, end, switched, f);
    History.OnTurnFinishedMarks(a, end, f);
    LivesBack(a, t);
    LeavesWrites(s, switched);
    var rest := OutcomeWrites(a, end, f);
    WroteMore(s, Leaves(s, switched), a, rest, t);
    w := Leaves(s, switched) + rest;
    EndsIs(s, end, switched, f, rest, RoomsOf(t));
  }

  lemma EndsIs(s: State, end: TurnEnd, switched: bool, f: Finish, rest: seq<Payload>, t: Rooms)
    requires Outcome(PairingLaws.Forwarded(s) + ItemsOf(Leaves(s, switched)), RoomsOf(s).(held := []), end, f, rest, t)
    ensures Ends(s, end, switched, f, Leaves(s, switched) + rest, t)
  {
    hide Outcome, Leaves;
  }

  // ---- Every command -------------------------------------------------------------------------

  lemma AckWrites(s: State)
    requires s.fifo != [] && AckArrives(s).fate > 0
    ensures var t, head := AckArrives(s), if s.fifo[0].ack then s.items + s.fifo[0].items else s.items;
            exists w: seq<Payload> :: Wrote(s, w, t) && LetsIn(head, RoomsOf(s), w, RoomsOf(t))
  {
    hide *;
    var l, t := Landed(s.(overtook := s.overtook || Overtakes(s))), AckArrives(s);
    var r := ReleaseSteers(l);
    CommitLaws.AckUnfolds(s, r);
    ShownFields(r, t, s.fifo[0].at, Settle(s.fifo[0], false));
    ReleaseWrites(l);
    LandedFields(s, l);
    var w := if Awaiting(l.items) then [] else SteerEntries(l.held);
    WroteAcross(s, l, w, r, t);
  }

  lemma ShownFields(r: State, t: State, ticket: nat, verdict: Verdict)
    requires t == Resolve(Publish(r), ticket, verdict)
    ensures t.log == r.log && t.fate == r.fate && t.minted == r.minted && RoomsOf(t) == RoomsOf(r)
  {
  }

  lemma LandedFields(s: State, l: State)
    requires s.fifo != [] && l == Landed(s.(overtook := s.overtook || Overtakes(s)))
    ensures l.items == if s.fifo[0].ack then s.items + s.fifo[0].items else s.items
    ensures l.log == s.log && l.fate == s.fate && l.minted == s.minted && RoomsOf(l) == RoomsOf(s)
  {
    hide Tokens, Overtakes;
  }

  lemma WroteAcross(s: State, l: State, w: seq<Payload>, r: State, t: State)
    requires l.log == s.log && l.fate == s.fate && l.minted == s.minted
    requires Wrote(l, w, r) && t.log == r.log && t.minted == r.minted
    ensures Wrote(s, w, t)
  {
  }

  lemma ForwardWrites(s: State, entries: seq<Payload>, refused: bool)
    requires s.fate > 0
    ensures Wrote(s, entries, Forward(s, entries, refused))
    ensures RoomsOf(Forward(s, entries, refused)) == RoomsOf(s)
  {
    hide ItemsOf;
  }

  lemma ProposeWrites(s: State, entries: seq<Payload>, stale: bool, pipelined: bool, refused: bool)
      returns (w: seq<Payload>)
    requires ProposePrepared(s, entries, stale, pipelined, refused).fate > 0
    ensures var t := ProposePrepared(s, entries, stale, pipelined, refused);
            && Wrote(s, w, t)
            && Does(s, ProposePreparedCmd(entries, stale, pipelined, refused), w, RoomsOf(t))
  {
    hide *;
    var t, p := ProposePrepared(s, entries, stale, pipelined, refused), s.(turnOpen := OpenAfter(s.turnOpen, entries));
    History.ProposePreparedGrows(s, entries, stale, pipelined, refused);
    GrowsBack(s, t);
    ProposeUnfolds(s, p, entries, stale, pipelined, refused);
    if stale {
      w := [];
      WroteNone(s, t);
    } else if pipelined {
      w := entries;
      if entries == [] { WroteNone(s, t); } else { ForwardWrites(p, entries, refused); }
      WroteSame(s, p, w, t);
    } else {
      var a := AppendAll(p, entries);
      History.ReleaseGrows(a);
      GrowsBack(a, t);
      AppendAllAdds(p, entries);
      AddsRooms(p, entries, a);
      ReleaseWrites(a);
      var released := if Awaiting(a.items) then [] else SteerEntries(a.held);
      WroteMore(p, entries, a, released, t);
      w := entries + released;
      WroteSame(s, p, w, t);
      SyncDoes(s, entries, refused, released, RoomsOf(t));
    }
    StaleDoes(s, entries, stale, pipelined, refused, w, RoomsOf(t));
  }

  lemma ProposeUnfolds(s: State, p: State, entries: seq<Payload>, stale: bool, pipelined: bool, refused: bool)
    requires p == s.(turnOpen := OpenAfter(s.turnOpen, entries))
    ensures ProposePrepared(s, entries, stale, pipelined, refused)
         == if stale then s
            else if pipelined then (if entries == [] then p else Forward(p, entries, refused))
            else ReleaseSteers(AppendAll(p, entries))
    ensures RoomsOf(p) == RoomsOf(s) && PairingLaws.Forwarded(p) == PairingLaws.Forwarded(s)
  {
    hide Forward, AppendAll, ReleaseSteers, OpenAfter;
  }

  lemma StaleDoes(s: State, entries: seq<Payload>, stale: bool, pipelined: bool, refused: bool, w: seq<Payload>,
                  t: Rooms)
    requires stale || pipelined ==> w == (if stale then [] else entries) && t == RoomsOf(s)
    ensures stale || pipelined ==> Does(s, ProposePreparedCmd(entries, stale, pipelined, refused), w, t)
  {
    hide ItemsOf, Awaiting, PairingLaws.Forwarded;
  }

  lemma SyncDoes(s: State, entries: seq<Payload>, refused: bool, released: seq<Payload>, t: Rooms)
    requires LetsIn(if entries == [] then s.items else PairingLaws.Forwarded(s) + ItemsOf(entries), RoomsOf(s),
                    released, t)
    ensures Does(s, ProposePreparedCmd(entries, false, false, refused), entries + released, t)
  {
    hide ItemsOf, LetsIn, PairingLaws.Forwarded;
  }

  lemma {:induction false} WithdrawnKeeps(held: seq<HeldSteer>, key: string) returns (at: seq<nat>)
    ensures Picks(held, at, Withdrawn(held, key))
    ensures forall i :: 0 <= i < |held| ==> (i in at <==> held[i].key != Some(key))
  {
    if held == [] {
      at := [];
    } else {
      var n := |held| - 1;
      var front, last := held[..n], held[n];
      at := WithdrawnKeeps(front, key);
      PicksBelow(front, at, Withdrawn(front, key));
      assert front + [last] == held;
      at := PicksSnoc(front, at, Withdrawn(front, key), last, last.key != Some(key));
    }
  }

  lemma WithdrawnDoes(s: State, key: string)
    ensures WithoutKey(s.held, key, Withdrawn(s.held, key))
  {
    var at := WithdrawnKeeps(s.held, key);
  }

  lemma SteerWrites(s: State, steer: HeldSteer) returns (w: seq<Payload>)
    requires AdmitSteer(s, steer).fate > 0
    ensures var t := AdmitSteer(s, steer); Wrote(s, w, t) && Does(s, SteerCmd(steer), w, RoomsOf(t))
  {
    hide Append, Pushed, SteerWaits, SteerEntry, Awaiting, Wrote, SteerEntries;
    var t := AdmitSteer(s, steer);
    if s.running || Awaiting(s.items) {
      w := [];
      WroteNone(s, t);
      PushedWaits(s.held, steer);
    } else {
      w := [SteerEntry(steer)];
      AppendAdds(s, SteerEntry(steer));
      AddsRooms(s, w, t);
      SteersCount([steer]);
      SteersCount([]);
      assert [steer][1..] == [] && w + [] == w;
    }
  }

  lemma PromptWrites(s: State, prompt: QueuedPrompt, start: Start) returns (w: seq<Payload>)
    requires AdmitPrompt(s, prompt, start).fate > 0
    ensures var t := AdmitPrompt(s, prompt, start); Wrote(s, w, t) && Does(s, PromptCmd(prompt, start), w, RoomsOf(t))
  {
    hide StartTurn, Queued, PromptWaits, Begins, Wrote;
    if s.running {
      w := [];
      WroteNone(s, AdmitPrompt(s, prompt, start));
      QueuedWaits(s.queue, prompt);
    } else {
      w := StartWrites(s, prompt, start);
    }
  }

  lemma NotifyWrites(s: State, steer: HeldSteer, start: Start) returns (w: seq<Payload>)
    requires Step(s, NotifyCmd(steer, start)).fate > 0
    ensures var t := Step(s, NotifyCmd(steer, start)); Wrote(s, w, t) && Does(s, NotifyCmd(steer, start), w, RoomsOf(t))
  {
    hide StartTurn, Pushed, SteerWaits, Begins, Wrote, Awaiting;
    if s.running || Awaiting(s.items) {
      w := [];
      WroteNone(s, Step(s, NotifyCmd(steer, start)));
      PushedWaits(s.held, steer);
    } else {
      w := StartWrites(s, NotifyPrompt(steer), start);
    }
  }

  lemma PlanWrites(s: State, body: string)
    requires Append(Append(s, LogOnly), ItemEntry(Reminder(body))).fate > 0
    ensures var t := Append(Append(s, LogOnly), ItemEntry(Reminder(body)));
            Wrote(s, [LogOnly, Reminded(body)], t) && RoomsOf(t) == RoomsOf(s)
  {
    hide *;
    var a, plan := Append(s, LogOnly), ItemEntry(Reminder(body));
    History.AppendGrows(a, plan);
    GrowsBack(a, Append(a, plan));
    AppendAdds(s, LogOnly);
    AppendAdds(a, plan);
    AddsMore(s, [LogOnly], a, [plan], Append(a, plan));
    AddsRooms(s, [LogOnly] + [plan], Append(a, plan));
    RemindedIs(body);
    assert [LogOnly] + [plan] == [LogOnly, plan];
  }

  lemma RemindedIs(body: string)
    ensures Reminded(body) == ItemEntry(Reminder(body))
  {
  }

  lemma FoldCmdWrites(s: State, focus: Option<string>, input: FoldInput) returns (w: seq<Payload>)
    requires Step(s, FoldCmd(focus, input)).fate > 0
    ensures var t := Step(s, FoldCmd(focus, input)); Wrote(s, w, t) && Does(s, FoldCmd(focus, input), w, RoomsOf(t))
  {
    hide Compact, Compacts, FoldWrites, Wrote, PairingLaws.Forwarded;
    if s.running {
      w := [];
      WroteNone(s, Step(s, FoldCmd(focus, input)));
    } else {
      w := CompactWrites(s, None, focus, input);
    }
  }

  lemma StepWrites(s: State, cmd: Cmd) returns (w: seq<Payload>)
    requires Step(s, cmd).fate > 0
    ensures Wrote(s, w, Step(s, cmd)) && Does(s, cmd, w, RoomsOf(Step(s, cmd)))
  {
    hide AckArrives, AdmitPrompt, AdmitSteer, Append, AppendAll, ProposePrepared, Compact, TurnFinished, Withdrawn,
         Reminder, Reminded, Wrote, LetsIn, WithoutKey, Ends, PairingLaws.Forwarded, Adds;
    var t := Step(s, cmd);
    match cmd {
      case AckCmd =>
        if s.fifo == [] {
          w := [];
          WroteNone(s, t);
        } else {
          AckWrites(s);
          w :| Wrote(s, w, t) && LetsIn(if s.fifo[0].ack then s.items + s.fifo[0].items else s.items, RoomsOf(s), w,
                                        RoomsOf(t));
        }
      case PromptCmd(prompt, start) => w := PromptWrites(s, prompt, start);
      case SteerCmd(steer) => w := SteerWrites(s, steer);
      case NotifyCmd(steer, start) => w := NotifyWrites(s, steer, start);
      case UnnotifyCmd(key) =>
        w := [];
        WroteNone(s, t);
        WithdrawnDoes(s, key);
      case ContinueCmd =>
        w := [];
        WroteNone(s, t);
      case NoteCmd =>
        w := [LogOnly];
        AppendAdds(s, LogOnly);
        AddsRooms(s, w, t);
      case SetPlanCmd(body) =>
        w := [LogOnly, Reminded(body)];
        PlanWrites(s, body);
      case ProposeCmd(entries) =>
        w := entries;
        AppendAllAdds(s, entries);
        AddsRooms(s, w, t);
      case ProposePreparedCmd(entries, stale, pipelined, refused) =>
        w := ProposeWrites(s, entries, stale, pipelined, refused);
      case FoldCmd(focus, input) => w := FoldCmdWrites(s, focus, input);
      case TurnFinishedCmd(end, switched, finish) => w := TurnFinishedWrites(s, end, switched, finish);
    }
  }

  /** On a log that lives through it every command does what it promises, to the word. */
  lemma StepDid(s: State, cmd: Cmd)
    requires Step(s, cmd).fate > 0
    ensures Did(s, cmd, Step(s, cmd))
  {
    hide *;
    var w := StepWrites(s, cmd);
    WroteLog(s, w, Step(s, cmd));
    DidIs(s, cmd, Step(s, cmd));
  }

  lemma DidIs(s: State, cmd: Cmd, t: State)
    requires s.log <= t.log && Does(s, cmd, t.log[|s.log|..], RoomsOf(t))
    requires t.minted - s.minted == |t.log| - |s.log|
    ensures Did(s, cmd, t)
  {
    hide Does;
  }
}
