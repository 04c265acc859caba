/** The two waiting rooms over whole runs of the session: whatever commands arrive, held steers and
    queued prompts keep their bounds, and never more than one mark stands in a text. */
module WaitingRooms {
  import opened Items
  import opened Compaction
  import opened HeldBuffer
  import opened Session
  import CommitLaws
  import PairingLaws
  import Repair

  // ---- How the rooms move ---------------------------------------------------------------

  /** Nobody comes and nobody goes. */
  predicate Waits(s: State, t: State) {
    t.held == s.held && t.queue == s.queue
  }

  /** Nobody comes: steers may all be let in, and the first prompt may be. */
  predicate Drains(s: State, t: State) {
    && (t.held == s.held || t.held == [])
    && (t.queue == s.queue || (s.queue != [] && t.queue == s.queue[1..]))
  }

  /** What a command does to the rooms. */
  predicate Moves(s: State, t: State, cmd: Cmd) {
    match cmd
    case PromptCmd(prompt, _) => t.held == s.held && t.queue == if s.running then Queued(s.queue, prompt) else s.queue
    case SteerCmd(steer) => t.queue == s.queue && (t.held == s.held || t.held == Pushed(s.held, steer))
    case NotifyCmd(steer, _) => t.queue == s.queue && (t.held == s.held || t.held == Pushed(s.held, steer))
    case UnnotifyCmd(key) => t.queue == s.queue && t.held == Withdrawn(s.held, key)
    case _ => Drains(s, t)
  }

  lemma AppendWaits(s: State, payload: Payload)
    ensures Waits(s, Append(s, payload))
  {
    hide Append, PairingLaws.Forwarded, PairingLaws.Entered;
    PairingLaws.AppendForwards(s, payload);
  }

  lemma {:induction false} AppendAllWaits(s: State, entries: seq<Payload>)
    ensures Waits(s, AppendAll(s, entries))
    decreases |entries|
  {
    hide Append;
    CommitLaws.AppendAllUnfolds(s, entries);
    if entries != [] {
      AppendWaits(s, entries[0]);
      if s.fate > 0 { AppendAllWaits(Append(s, entries[0]), entries[1..]); }
    }
  }

  lemma {:induction false} SteersWait(s: State, steers: seq<HeldSteer>)
    ensures Waits(s, AppendSteers(s, steers))
    decreases |steers|
  {
    hide Append, SteerEntry;
    CommitLaws.AppendSteersUnfolds(s, steers);
    if steers != [] {
      AppendWaits(s, SteerEntry(steers[0]));
      SteersWait(Append(s, SteerEntry(steers[0])), steers[1..]);
    }
  }

  lemma ReleaseDrains(s: State)
    ensures ReleaseSteers(s).queue == s.queue && (ReleaseSteers(s).held == s.held || ReleaseSteers(s).held == [])
  {
    hide AppendSteers, Awaiting;
    SteersWait(s.(held := []), s.held);
  }

  lemma AckDrains(s: State)
    requires s.fifo != []
    ensures Drains(s, AckArrives(s))
  {
    hide ReleaseSteers, Overtakes, Settle, Tokens;
    ReleaseDrains(Landed(s.(overtook := s.overtook || Overtakes(s))));
  }

  lemma {:induction false} DrainSomeWaits(s: State, n: nat)
    ensures Waits(s, DrainSome(s, n))
    decreases n
  {
    CommitLaws.DrainSomeUnfolds(s, n);
    if n > 0 && s.fifo != [] {
      DrainOneWaits(s);
      hide DrainOne;
      DrainSomeWaits(DrainOne(s, true), n - 1);
    }
  }

  lemma DrainOneWaits(s: State)
    requires s.fifo != []
    ensures Waits(s, DrainOne(s, true))
  {
    hide Tokens, Settle;
  }

  lemma CommitWaits(s: State, payload: Payload, items: seq<Item>)
    ensures Waits(s, Commit(s, payload)) && Waits(s, Repoint(s, items)) && Waits(s, Strand(s, payload))
  {
    hide Tokens;
  }

  lemma CompactWaits(s: State, spec: Option<SpecDigest>, focus: Option<string>, input: FoldInput)
    ensures Waits(s, Compact(s, spec, focus, input)) && Waits(s, CompactCut(s, spec, focus, input))
  {
    hide Drain, FoldChoice, Commit, Repoint, Strand, Apply;
    CommitLaws.DrainEffect(s, true);
    var d := Drain(s, true);
    var choice := FoldChoice(d.items, spec, focus, input);
    if choice.Some? {
      var (plan, digest) := choice.value;
      var entry := CompactionEntry(digest, plan.prefixEnd, plan.keptFrom, input.pins);
      CommitWaits(d, entry, []);
      CommitWaits(Commit(d, entry), entry, Apply(d.items, plan, digest, input.pins));
    }
  }

  lemma ClearWaits(s: State, ids: seq<string>)
    ensures Waits(s, Clear(s, ids))
  {
    hide Drain, Commit, Repoint, ClearResults;
    CommitLaws.DrainEffect(s, true);
    var d := Drain(s, true);
    CommitWaits(d, ClearedEntry(ids), []);
    CommitWaits(Commit(d, ClearedEntry(ids)), LogOnly, ClearResults(d.items, ids));
  }

  lemma StartTurnWaits(s: State, prompt: QueuedPrompt, start: Start)
    ensures Waits(s, StartTurn(s, prompt, start))
  {
    hide Append, PromptItem, Reminder, ItemsOf;
    var entry := ItemEntry(PromptItem(prompt));
    AppendWaits(s, entry);
    if start.reminder.Some? {
      AppendWaits(Append(s, entry), ItemEntry(Reminder(start.reminder.value)));
    }
  }

  lemma {:induction false} NotesWait(s: State, n: nat)
    ensures Waits(s, Notes(s, n))
    decreases n
  {
    hide Append;
    CommitLaws.NotesUnfolds(s, n);
    if n > 0 {
      AppendWaits(s, LogOnly);
      NotesWait(Append(s, LogOnly), n - 1);
    }
  }

  lemma EndTurnDrains(s: State, f: Finish)
    ensures Drains(s, EndTurn(s, f))
  {
    hide Append, StartTurn, Compact;
    AppendWaits(s, LogOnly);
    var a := if f.annotate then Append(s, LogOnly) else s;
    if a.foldPending.Some? { CompactWaits(a.(foldPending := None), None, a.foldPending.value, f.fold); }
    var b := if a.foldPending.Some? then FoldNow(a.(foldPending := None), a.foldPending.value, f.fold) else a;
    if b.queue != [] { StartTurnWaits(b.(queue := b.queue[1..]), b.queue[0], f.start); }
  }

  lemma FinishedDrains(s: State, f: Finish)
    ensures Drains(s, Finished(s, f))
  {
    hide Notes, StartTurn, EndTurn;
    var g := Notes(s, f.notes);
    NotesWait(s, f.notes);
    match f.guidance {
      case Some(text) => StartTurnWaits(g, QueuedPrompt(text, [], Some(GoalGuidance)), f.start);
      case None => EndTurnDrains(g, f);
    }
  }

  lemma FoldForTurnDrains(s: State, spec: Option<SpecDigest>, focus: Option<string>, cancel: Cancel, f: Finish)
    ensures Drains(s, FoldForTurn(s, spec, focus, cancel, f))
  {
    hide Compact, CompactCut, Compacts, Finished, DrainSome;
    CompactWaits(s, spec, focus, f.fold);
    match cancel {
      case Early(drained) =>
        DrainSomeWaits(s, drained);
        FinishedDrains(DrainSome(s, drained), f);
      case AtEntry => FinishedDrains(CompactCut(s, spec, focus, f.fold), f);
      case _ => FinishedDrains(Compact(s, spec, focus, f.fold), f);
    }
  }

  lemma OnTurnFinishedDrains(s: State, end: TurnEnd, f: Finish)
    ensures Drains(s, OnTurnFinished(s, end, f))
  {
    hide FoldForTurn, Finished, Clear;
    match end {
      case Ended => FinishedDrains(s, f);
      case WantsFold(spec, skipped, cancel) =>
        var focus := ParkedFocus(s);
        var p := s.(foldPending := None);
        FinishedDrains(p, f);
        FoldForTurnDrains(p, if focus.None? then spec else None, focus, cancel, f);
      case WantsClear(ids, interrupted) =>
        ClearWaits(s, ids);
        FinishedDrains(Clear(s, ids), f);
    }
  }

  lemma TurnFinishedDrains(s: State, end: TurnEnd, switched: bool, f: Finish)
    ensures Drains(s, TurnFinished(s, end, switched, f))
  {
    hide Append, ReleaseSteers, OnTurnFinished, Repair.Stub, ToolUses;
    if Awaiting(s.items) { AppendWaits(s, ItemEntry(Repair.Stub(s.items[|s.items| - 1]))); }
    var c := CloseOpenBatch(s);
    ReleaseDrains(c);
    var r := ReleaseSteers(c);
    AppendWaits(r, LogOnly);
    OnTurnFinishedDrains(if switched then Append(r, LogOnly) else r, end, f);
  }

  lemma ProposePreparedDrains(s: State, entries: seq<Payload>, stale: bool, pipelined: bool, refused: bool)
    ensures Drains(s, ProposePrepared(s, entries, stale, pipelined, refused))
  {
    hide AppendAll, ReleaseSteers, Forward, OpenAfter, ItemsOf;
    var t := s.(turnOpen := OpenAfter(s.turnOpen, entries));
    AppendAllWaits(t, entries);
    ForwardDrains(t, entries, refused);
    ReleaseDrains(AppendAll(t, entries));
  }

  lemma ForwardDrains(s: State, entries: seq<Payload>, refused: bool)
    ensures Drains(s, Forward(s, entries, refused))
  {
    hide ItemsOf;
  }

  lemma StepMoves(s: State, cmd: Cmd)
    ensures Moves(s, Step(s, cmd), cmd)
  {
    hide AckArrives, StartTurn, Append, Compact, ProposePrepared, TurnFinished, AppendAll, SteerEntry, NotifyPrompt,
         Awaiting, Pushed, Queued, Withdrawn, NeedsContinuation, Reminder;
    match cmd {
      case AckCmd => if s.fifo != [] { AckDrains(s); }
      case PromptCmd(prompt, start) => StartTurnWaits(s, prompt, start);
      case SteerCmd(steer) => AppendWaits(s, SteerEntry(steer));
      case NotifyCmd(steer, start) => StartTurnWaits(s, NotifyPrompt(steer), start);
      case UnnotifyCmd(key) =>
      case ContinueCmd =>
      case NoteCmd => AppendWaits(s, LogOnly);
      case SetPlanCmd(body) =>
        AppendWaits(s, LogOnly);
        AppendWaits(Append(s, LogOnly), ItemEntry(Reminder(body)));
      case ProposeCmd(entries) => AppendAllWaits(s, entries);
      case ProposePreparedCmd(entries, stale, pipelined, refused) =>
        ProposePreparedDrains(s, entries, stale, pipelined, refused);
      case FoldCmd(focus, input) => CompactWaits(s, None, focus, input);
      case TurnFinishedCmd(end, switched, finish) => TurnFinishedDrains(s, end, switched, finish);
    }
  }

  // ---- Bounds over runs ------------------------------------------------------------------

  /** What arrives is within the per-message limits its surface enforces. */
  predicate ArrivesWithin(cmd: Cmd, m: nat) {
    match cmd
    case PromptCmd(prompt, _) => QueueIncoming(prompt, m)
    case SteerCmd(steer) => Incoming(steer, m)
    case NotifyCmd(steer, _) => Incoming(steer, m)
    case _ => true
  }

  predicate RoomsBounded(s: State, m: nat) {
    Bounded(s.held, m) && QueueBounded(s.queue, m)
  }

  lemma MovesKeepBounds(s: State, t: State, cmd: Cmd, m: nat)
    requires Moves(s, t, cmd) && RoomsBounded(s, m) && ArrivesWithin(cmd, m)
    ensures RoomsBounded(t, m)
  {
    BoundedNone(m);
    if s.queue != [] { QueueTailBounded(s.queue, m); }
    hide Bounded, QueueBounded, Pushed, Queued, Withdrawn, Incoming, QueueIncoming;
    match cmd {
      case PromptCmd(prompt, _) => QueueStaysBounded(s.queue, prompt, m);
      case SteerCmd(steer) => PushedBounded(s.held, steer, m);
      case NotifyCmd(steer, _) => PushedBounded(s.held, steer, m);
      case UnnotifyCmd(key) => WithdrawnBounded(s.held, key, m);
      case _ =>
    }
  }

  lemma BoundedNone(m: nat)
    ensures Bounded([], m) && QueueBounded([], m)
  {
  }

  lemma QueueTailBounded(queue: seq<QueuedPrompt>, m: nat)
    requires QueueBounded(queue, m) && queue != []
    ensures QueueBounded(queue[1..], m)
  {
    hide Bytes, ImagesBytes;
  }

  lemma OpenedRooms(history: seq<Item>, fate: nat)
    ensures Opened(history, fate).held == [] && Opened(history, fate).queue == []
  {
    hide Repair.Resume, Tokens;
  }

  lemma {:induction false} RunKeepsBounds(history: seq<Item>, fate: nat, cmds: seq<Cmd>, m: nat)
    requires forall i :: 0 <= i < |cmds| ==> ArrivesWithin(cmds[i], m)
    ensures RoomsBounded(Run(Opened(history, fate), cmds), m)
    decreases |cmds|
  {
    hide Step, Opened, Moves, ArrivesWithin, Bounded, QueueBounded;
    OpenedRooms(history, fate);
    BoundedNone(m);
    if cmds != [] {
      var front, last := cmds[..|cmds| - 1], cmds[|cmds| - 1];
      RunKeepsBounds(history, fate, front, m);
      StepMoves(Run(Opened(history, fate), front), last);
      MovesKeepBounds(Run(Opened(history, fate), front), Run(Opened(history, fate), cmds), last, m);
    }
  }

  /** Over every run of the session: held text, held images and the prompt queue stay bounded. */
  lemma RunRoomsBounded(history: seq<Item>, fate: nat, cmds: seq<Cmd>, m: nat)
    requires forall i :: 0 <= i < |cmds| ==> ArrivesWithin(cmds[i], m)
    ensures var s := Run(Opened(history, fate), cmds);
            && TextTotal(s.held) <= HELD_BYTES_MAX + EntryMax(m)
            && ImageTotal(s.held) <= 2 * HELD_IMAGE_B64_MAX
            && |s.queue| <= QUEUE_MAX
            && forall i :: 0 <= i < |s.queue| ==>
                 Bytes(s.queue[i].text) <= EntryMax(m) && ImagesBytes(s.queue[i].images) <= HELD_IMAGE_B64_MAX
  {
    hide Run, Opened, ArrivesWithin, Bytes, ImagesBytes, EntryMax;
    RunKeepsBounds(history, fate, cmds, m);
    BoundedTotals(Run(Opened(history, fate), cmds).held, m);
  }

  lemma BoundedTotals(held: seq<HeldSteer>, m: nat)
    requires Bounded(held, m)
    ensures TextTotal(held) <= HELD_BYTES_MAX + EntryMax(m) && ImageTotal(held) <= 2 * HELD_IMAGE_B64_MAX
  {
    hide Bytes, ImagesBytes, EntryMax;
  }

  // ---- Marks over runs --------------------------------------------------------------------

  /** What arrives does not quote the mark. */
  ghost predicate ArrivesUnquoted(cmd: Cmd) {
    match cmd
    case PromptCmd(prompt, _) => Unquoted(prompt.text)
    case SteerCmd(steer) => Unquoted(steer.text)
    case NotifyCmd(steer, _) => Unquoted(steer.text)
    case _ => true
  }

  ghost predicate RoomsMarkedOnce(s: State) {
    AllMarkedOnce(s.held) && QueueMarkedOnce(s.queue)
  }

  lemma MovesMarkOnce(s: State, t: State, cmd: Cmd)
    requires Moves(s, t, cmd) && RoomsMarkedOnce(s) && ArrivesUnquoted(cmd)
    ensures RoomsMarkedOnce(t)
  {
    hide MarkedOnce, Pushed, Queued, Withdrawn, Unquoted;
    match cmd {
      case PromptCmd(prompt, _) => QueuedMarksOnce(s.queue, prompt);
      case SteerCmd(steer) => PushedMarksOnce(s.held, steer);
      case NotifyCmd(steer, _) => PushedMarksOnce(s.held, steer);
      case UnnotifyCmd(key) => WithdrawnMarksOnce(s.held, key);
      case _ =>
    }
  }

  /** Over every run of the session on messages that do not quote it, no waiting text has more
      than the one mark at its end. */
  lemma {:induction false} RunMarksOnce(history: seq<Item>, fate: nat, cmds: seq<Cmd>)
    requires forall i :: 0 <= i < |cmds| ==> ArrivesUnquoted(cmds[i])
    ensures RoomsMarkedOnce(Run(Opened(history, fate), cmds))
    decreases |cmds|
  {
    hide Step, Opened, Moves, ArrivesUnquoted, MarkedOnce;
    OpenedRooms(history, fate);
    if cmds != [] {
      var front, last := cmds[..|cmds| - 1], cmds[|cmds| - 1];
      RunMarksOnce(history, fate, front);
      StepMoves(Run(Opened(history, fate), front), last);
      MovesMarkOnce(Run(Opened(history, fate), front), Run(Opened(history, fate), cmds), last);
    }
  }
}
