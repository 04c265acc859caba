/** The session actor as a transition system: one committer, a FIFO log writer, the unacked
    units between them, the head that advances only on acks, and the commands that move it. */
module Session {
  import opened Items
  import opened Compaction
  import opened HeldBuffer
  import Repair

  // ---- State -----------------------------------------------------------------

  datatype Verdict = Acked | Aborted | LogSealed

  /** What the outside sees, in order: heads published and tickets resolved. `units` counts
      the acked units the head stood on. */
  datatype Event =
    | Published(items: seq<Item>, epoch: nat, units: nat)
    | Resolved(ticket: nat, verdict: Verdict)

  /** A forwarded unit waiting for the writer: one entry or a whole group. `ack` is the
      answer the writer will give; `at` is the commit order of its last entry, which is
      also the ticket's. */
  datatype PendingAck = PendingAck(ack: bool, items: seq<Item>, entries: seq<Payload>, at: nat)

  /** A unit the actor has seen acked: its entries, and the commit order it ends on. */
  datatype Unit = Unit(at: nat, entries: seq<Payload>)

  /** `fate` is the number of further messages the writer will commit before it fails for
      good: a failed writer never commits again, and no answer is known in advance to the
      actor. `log` holds every entry the writer commits, acked yet or not. The last six
      fields are history: the acked units, the tickets issued, the visible events, whether
      the running turn's own last proposal left calls open, whether an ack was ever settled
      behind younger ones, and which entries of the log were committed with nobody left to
      read their acks. */
  datatype State = State(
    seed: seq<Item>,
    items: seq<Item>, estimated: nat, epoch: nat,
    fifo: seq<PendingAck>, minted: nat,
    fate: nat, log: seq<Payload>,
    held: seq<HeldSteer>, queue: seq<QueuedPrompt>, running: bool, foldPending: Option<Option<string>>,
    acked: seq<Unit>, issued: seq<nat>, trace: seq<Event>, turnOpen: bool, overtook: bool,
    stranded: set<nat>)

  /** A session opens on its repaired history and publishes it. */
  function Opened(history: seq<Item>, fate: nat): State {
    var seed := Repair.Resume(history);
    Publish(Blank(seed, fate))
  }

  function Blank(seed: seq<Item>, fate: nat): State {
    State(seed, seed, Tokens(seed), 0, [], 0, fate, [], [], [], false, None, [], [], [], false, false, {})
  }

  // ---- Head and pipeline --------------------------------------------------------

  function Publish(s: State): State {
    s.(trace := s.trace + [Published(s.items, s.epoch, |s.acked|)])
  }

  function Resolve(s: State, ticket: nat, verdict: Verdict): State {
    s.(trace := s.trace + [Resolved(ticket, verdict)])
  }

  function Settle(unit: PendingAck, abort: bool): Verdict {
    if !unit.ack then LogSealed else if abort then Aborted else Acked
  }

  /** The oldest unit leaves the queue; if the writer committed it, the head takes it whole. */
  function Landed(s: State): State
    requires s.fifo != []
  {
    var unit := s.fifo[0];
    var popped := s.(fifo := s.fifo[1..]);
    if unit.ack
    then popped.(items := s.items + unit.items,
                 estimated := s.estimated + Tokens(unit.items),
                 epoch := unit.at,
                 acked := s.acked + [Unit(unit.at, unit.entries)])
    else popped
  }

  function DrainOne(s: State, abort: bool): State
    requires s.fifo != []
  {
    Resolve(Publish(Landed(s)), s.fifo[0].at, Settle(s.fifo[0], abort))
  }

  function Drain(s: State, abort: bool): State
    decreases |s.fifo|
  {
    if s.fifo == [] then s else Drain(DrainOne(s, abort), abort)
  }

  /** The entry is minted, committed and, if it is an item, applied. */
  function Logged(s: State, payload: Payload): State
    requires s.fate > 0
  {
    var more := if payload.ItemEntry? then [payload.item] else [];
    s.(minted := s.minted + 1,
       fate := s.fate - 1,
       log := s.log + [payload],
       items := s.items + more,
       estimated := s.estimated + Tokens(more),
       epoch := s.minted + 1,
       acked := s.acked + [Unit(s.minted + 1, [payload])])
  }

  /** Mint one entry, hand it to the writer, and take its answer before going on. */
  function Commit(s: State, payload: Payload): State {
    if s.fate == 0 then s.(minted := s.minted + 1) else Publish(Logged(s, payload))
  }

  /** Every actor-built entry drains what was forwarded before it. */
  function Append(s: State, payload: Payload): State {
    Commit(Drain(s, false), payload)
  }

  /** Append in turn; stop at the first entry the log refuses. */
  function AppendAll(s: State, entries: seq<Payload>): State
    decreases |entries|
  {
    if entries == [] then s
    else
      var next := Append(s, entries[0]);
      if s.fate == 0 then next else AppendAll(next, entries[1..])
  }

  /** Mint a proposal's entries and forward them as one message, without waiting. A sealed
      log may refuse them on the spot. */
  function Forward(s: State, entries: seq<Payload>, refused: bool): State {
    var minted := s.(minted := s.minted + |entries|);
    if s.fate == 0 && refused then minted
    else Enqueued(s, PendingAck(s.fate > 0, ItemsOf(entries), entries, minted.minted))
  }

  function Enqueued(s: State, unit: PendingAck): State {
    s.(minted := unit.at,
       fate := if s.fate > 0 then s.fate - 1 else 0,
       log := s.log + (if unit.ack then unit.entries else []),
       fifo := s.fifo + [unit],
       issued := s.issued + [unit.at])
  }

  // ---- Steers ----------------------------------------------------------------------

  function SteerEntry(steer: HeldSteer): Payload {
    ItemEntry(User(steer.text, Some(steer.synthetic), steer.images))
  }

  function AppendSteers(s: State, steers: seq<HeldSteer>): State
    decreases |steers|
  {
    if steers == [] then s else AppendSteers(Append(s, SteerEntry(steers[0])), steers[1..])
  }

  /** Held steers land, oldest first, unless the head is mid-batch. */
  function ReleaseSteers(s: State): State {
    if s.held == [] || Awaiting(s.items) then s
    else AppendSteers(s.(held := []), s.held)
  }

  /** Releasing a steer drains the queue, so a unit whose ack is being settled is told only
      after every unit behind it. */
  predicate Overtakes(s: State)
    requires s.fifo != []
  {
    |s.fifo| > 1 && s.held != [] && !Awaiting(Landed(s).items)
  }

  /** The loop's ack arm: apply, release what waited for this boundary, publish, resolve. */
  function AckArrives(s: State): State
    requires s.fifo != []
  {
    var marked := s.(overtook := s.overtook || Overtakes(s));
    Resolve(Publish(ReleaseSteers(Landed(marked))), s.fifo[0].at, Settle(s.fifo[0], false))
  }

  function AdmitSteer(s: State, steer: HeldSteer): State {
    if s.running || Awaiting(s.items) then s.(held := Pushed(s.held, steer))
    else Append(s, SteerEntry(steer))
  }

  function CloseOpenBatch(s: State): State {
    if Awaiting(s.items) then Append(s, ItemEntry(Repair.Stub(s.items[|s.items| - 1]))) else s
  }

  // ---- Folds and clears ----------------------------------------------------------------

  const DIGEST_TAIL := "Earlier conversation was compacted into the summary above; "
                       + "the messages that follow it are verbatim; the folded span is "
                       + "retrievable with recall (backend session-log)."

  const FLOOR_TEXT := "Earlier conversation was dropped to stay within the context "
                      + "window; a summary could not be generated. Ask the user to "
                      + "restate anything essential from before this point."

  function DigestOf(summary: Option<string>): seq<Item> {
    var text := match summary
                case Some(s) => "<compaction-summary>\n" + s + "\n</compaction-summary>\n" + DIGEST_TAIL
                case None => "<compaction-summary degraded=\"true\">\n" + FLOOR_TEXT + "\n</compaction-summary>";
    [User(text, Some(CompactionSummary), [])]
  }

  function Repoint(s: State, items: seq<Item>): State {
    Publish(s.(items := items, estimated := Tokens(items)))
  }

  function FoldWith(s: State, plan: Plan, digest: seq<Item>, pins: seq<string>): State
    requires plan.prefixEnd <= plan.keptFrom <= |s.items|
  {
    var logged := Commit(s, CompactionEntry(digest, plan.prefixEnd, plan.keptFrom, pins));
    if s.fate == 0 then logged else Repoint(logged, Apply(s.items, plan, digest, pins))
  }

  /** A digest computed while the turn was running, and the projection it was planned on. */
  datatype SpecDigest = SpecDigest(plan: Plan, text: string, planned: seq<Item>)

  /** What the model, the hooks and the configuration bring to a fold. */
  datatype FoldInput = FoldInput(
    summary: Option<string>, pins: seq<string>, reset: bool,
    tailBudget: nat, imageBudget: nat)

  ghost function PlanOf(items: seq<Item>, tailBudget: nat, imageBudget: nat): Option<Plan> {
    if p: Plan :| BestPlan(items, tailBudget, imageBudget, p) then Some(p) else None
  }

  /** Where a fold cuts the drained projection, and with what digest. */
  ghost function FoldChoice(items: seq<Item>, spec: Option<SpecDigest>, focus: Option<string>, input: FoldInput)
    : (r: Option<(Plan, seq<Item>)>)
    ensures r.Some? ==> r.value.0.prefixEnd <= r.value.0.keptFrom <= |items| && AllUsers(r.value.1)
  {
    if !input.reset && focus.None? && spec.Some?
       && spec.value.plan.prefixEnd < spec.value.plan.keptFrom <= |items|
    then Some((spec.value.plan, DigestOf(Some(spec.value.text))))
    else
      match PlanOf(items, input.tailBudget, input.imageBudget)
      case None => None
      case Some(plan) =>
        var cut := if input.reset then Plan(plan.prefixEnd, |items|) else plan;
        Some((cut, DigestOf(input.summary)))
  }

  /** Drain first, then build against what the drain landed. */
  ghost function Compact(s: State, spec: Option<SpecDigest>, focus: Option<string>, input: FoldInput): State {
    var d := Drain(s, true);
    match FoldChoice(d.items, spec, focus, input)
    case None => d
    case Some((plan, digest)) => FoldWith(d, plan, digest, input.pins)
  }

  /** The first `n` units of a drain that was not let finish; the rest stay queued. */
  function DrainSome(s: State, n: nat): State
    decreases n
  {
    if n == 0 || s.fifo == [] then s else DrainSome(DrainOne(s, true), n - 1)
  }

  /** The entry reaches the writer, and its ack finds nobody: the head stays where it was. */
  function Strand(s: State, payload: Payload): State {
    if s.fate == 0 then s.(minted := s.minted + 1)
    else s.(minted := s.minted + 1, fate := s.fate - 1, log := s.log + [payload],
            stranded := s.stranded + {|s.log|})
  }

  /** A fold cut off while its entry waits for the ack. */
  ghost function CompactCut(s: State, spec: Option<SpecDigest>, focus: Option<string>, input: FoldInput): State {
    var d := Drain(s, true);
    match FoldChoice(d.items, spec, focus, input)
    case None => d
    case Some((plan, digest)) => Strand(d, CompactionEntry(digest, plan.prefixEnd, plan.keptFrom, input.pins))
  }

  ghost predicate Compacts(s: State, spec: Option<SpecDigest>, focus: Option<string>, input: FoldInput) {
    s.fate > 0 && FoldChoice(Drain(s, true).items, spec, focus, input).Some?
  }

  function ClearWith(s: State, ids: seq<string>): State {
    var logged := Commit(s, ClearedEntry(ids));
    if s.fate == 0 then logged else Repoint(logged, ClearResults(s.items, ids))
  }

  function Clear(s: State, ids: seq<string>): State {
    ClearWith(Drain(s, true), ids)
  }

  // ---- Turns ------------------------------------------------------------------------------

  /** How a prompt gets in: the ticketed fast path may be open, a sealed log may refuse it,
      and a hook may add a reminder behind it. */
  datatype Start = Start(fast: bool, refused: bool, reminder: Option<string>)

  function PromptItem(prompt: QueuedPrompt): Item {
    User(prompt.text, prompt.synthetic, prompt.images)
  }

  function Reminder(body: string): Item {
    User("<system-reminder>" + body + "</system-reminder>", Some(SystemReminder), [])
  }

  function StartTurn(s: State, prompt: QueuedPrompt, start: Start): State {
    var entry := ItemEntry(PromptItem(prompt));
    if start.fast && s.held == [] then
      var f := Forward(s, [entry], start.refused);
      f.(running := !(s.fate == 0 && start.refused), turnOpen := false)
    else
      var a := Append(s, entry);
      if s.fate == 0 then a.(running := false, turnOpen := false)
      else
        var r := if start.reminder.Some? then Append(a, ItemEntry(Reminder(start.reminder.value))) else a;
        r.(running := true, turnOpen := false)
  }

  function AdmitPrompt(s: State, prompt: QueuedPrompt, start: Start): State {
    if s.running then s.(queue := Queued(s.queue, prompt)) else StartTurn(s, prompt, start)
  }

  function Notes(s: State, n: nat): State
    decreases n
  {
    if n == 0 then s else Notes(Append(s, LogOnly), n - 1)
  }

  ghost function FoldNow(s: State, focus: Option<string>, input: FoldInput): State {
    Compact(s, None, focus, input)
  }

  /** Everything the end of a turn depends on that the actor does not decide: whether the
      outcome is annotated, how many goal entries are written, whether the goal continues,
      and the inputs of a parked fold and of the next prompt. */
  datatype Finish = Finish(annotate: bool, notes: nat, guidance: Option<string>, start: Start, fold: FoldInput)

  ghost function EndTurn(s: State, f: Finish): State {
    var a := if f.annotate then Append(s, LogOnly) else s;
    var b := if a.foldPending.Some?
             then FoldNow(a.(foldPending := None), a.foldPending.value, f.fold) else a;
    if b.queue != [] then StartTurn(b.(queue := b.queue[1..]), b.queue[0], f.start)
    else b.(running := false, turnOpen := false)
  }

  ghost function Finished(s: State, f: Finish): State {
    var g := Notes(s, f.notes);
    match f.guidance
    case Some(text) => StartTurn(g, QueuedPrompt(text, [], Some(GoalGuidance)), f.start)
    case None => EndTurn(g, f)
  }

  /** When a fold's turn is cancelled: not at all; before the fold hands its entry over, so many
      queued units drained; while the entry's ack is awaited; or behind the finished fold. */
  datatype Cancel = Never | Early(drained: nat) | AtEntry | Late

  datatype TurnEnd =
    | Ended
    | WantsFold(spec: Option<SpecDigest>, skipped: bool, cancel: Cancel)
    | WantsClear(ids: seq<string>, interrupted: bool)

  /** A human fold that waited for the turn's boundary lends it its focus. */
  function ParkedFocus(s: State): Option<string> {
    if s.foldPending.Some? then s.foldPending.value else None
  }

  /** The turn runs on behind a fold that goes through uncancelled, and ends otherwise. */
  ghost function FoldForTurn(s: State, spec: Option<SpecDigest>, focus: Option<string>, cancel: Cancel, f: Finish)
    : State
  {
    match cancel
    case Early(drained) => Finished(DrainSome(s, drained), f)
    case AtEntry => Finished(CompactCut(s, spec, focus, f.fold), f)
    case _ =>
      var c := Compact(s, spec, focus, f.fold);
      if cancel.Never? && Compacts(s, spec, focus, f.fold) then c.(turnOpen := false) else Finished(c, f)
  }

  ghost function OnTurnFinished(s: State, end: TurnEnd, f: Finish): State {
    match end
    case Ended => Finished(s, f)
    case WantsFold(spec, skipped, cancel) =>
      var focus := ParkedFocus(s);
      var p := s.(foldPending := None);
      if skipped then Finished(p, f) else FoldForTurn(p, if focus.None? then spec else None, focus, cancel, f)
    case WantsClear(ids, interrupted) =>
      var c := Clear(s, ids);
      if s.fate > 0 && !interrupted then c.(turnOpen := false) else Finished(c, f)
  }

  ghost function TurnFinished(s: State, end: TurnEnd, switched: bool, f: Finish): State {
    var released := ReleaseSteers(CloseOpenBatch(s));
    OnTurnFinished(if switched then Append(released, LogOnly) else released, end, f)
  }

  // ---- Commands -----------------------------------------------------------------------------

  datatype Cmd =
    | AckCmd
    | PromptCmd(prompt: QueuedPrompt, start: Start)
    | SteerCmd(steer: HeldSteer)
    | NotifyCmd(steer: HeldSteer, start: Start)
    | UnnotifyCmd(key: string)
    | ContinueCmd
    | NoteCmd
    | SetPlanCmd(body: string)
    | ProposeCmd(entries: seq<Payload>)
    | ProposePreparedCmd(entries: seq<Payload>, stale: bool, pipelined: bool, refused: bool)
    | FoldCmd(focus: Option<string>, input: FoldInput)
    | TurnFinishedCmd(end: TurnEnd, switched: bool, finish: Finish)

  function NotifyPrompt(steer: HeldSteer): QueuedPrompt {
    QueuedPrompt(steer.text, [], Some(steer.synthetic))
  }

  predicate NeedsContinuation(items: seq<Item>) {
    items != [] && (items[|items| - 1].User? || items[|items| - 1].ToolResults?)
  }

  /** What the turn's own record of its last proposal becomes. */
  function OpenAfter(open: bool, entries: seq<Payload>): bool {
    if ItemsOf(entries) == [] then open else Awaiting(ItemsOf(entries))
  }

  function ProposePrepared(s: State, entries: seq<Payload>, stale: bool, pipelined: bool, refused: bool): State {
    if stale then s
    else
      var t := s.(turnOpen := OpenAfter(s.turnOpen, entries));
      if pipelined then (if entries == [] then t else Forward(t, entries, refused))
      else ReleaseSteers(AppendAll(t, entries))
  }

  ghost function Step(s: State, cmd: Cmd): State {
    match cmd
    case AckCmd => if s.fifo == [] then s else AckArrives(s)
    case PromptCmd(prompt, start) => AdmitPrompt(s, prompt, start)
    case SteerCmd(steer) => AdmitSteer(s, steer)
    case NotifyCmd(steer, start) =>
      if s.running || Awaiting(s.items) then s.(held := Pushed(s.held, steer))
      else AdmitPrompt(s, NotifyPrompt(steer), start)
    case UnnotifyCmd(key) => s.(held := Withdrawn(s.held, key))
    case ContinueCmd =>
      if !s.running && NeedsContinuation(s.items) then s.(running := true, turnOpen := false) else s
    case NoteCmd => Append(s, LogOnly)
    case SetPlanCmd(body) => Append(Append(s, LogOnly), ItemEntry(Reminder(body)))
    case ProposeCmd(entries) => AppendAll(s, entries)
    case ProposePreparedCmd(entries, stale, pipelined, refused) =>
      ProposePrepared(s, entries, stale, pipelined, refused)
    case FoldCmd(focus, input) =>
      if s.running then s.(foldPending := Some(focus)) else FoldNow(s, focus, input)
    case TurnFinishedCmd(end, switched, finish) => TurnFinished(s, end, switched, finish)
  }

  ghost function Run(s: State, cmds: seq<Cmd>): State {
    if cmds == [] then s else Step(Run(s, cmds[..|cmds| - 1]), cmds[|cmds| - 1])
  }
}
