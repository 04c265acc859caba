/** What every command comes to on a log that is sealed: nothing is written and nothing joins the
    projection, and yet the rooms move. What was held is let go of, and the prompt that waited
    longest leaves the queue. */
module Sealed {
  import opened Items
  import opened Compaction
  import opened HeldBuffer
  import opened Session
  import CommitLaws
  import Effects
  import History
  import PairingLaws
  import Repair

  /** Nothing was written, nothing joined, and the log stays sealed. */
  predicate Stays(s: State, t: State) {
    t.fate == 0 && t.log == s.log && PairingLaws.Forwarded(t) == PairingLaws.Forwarded(s)
  }

  /** A turn runs on a sealed log only if its prompt went the straight way unrefused. */
  predicate RunsAnyway(r: Effects.Rooms, start: Start) {
    start.fast && r.held == [] && !start.refused
  }

  /** What is held leaves at a boundary, unless the head there is mid-batch. */
  function LetGo(head: seq<Item>, r: Effects.Rooms): Effects.Rooms {
    if Awaiting(head) then r else r.(held := [])
  }

  function GoesOn(r: Effects.Rooms, f: Finish): Effects.Rooms {
    if f.guidance.Some? then r.(running := RunsAnyway(r, f.start))
    else if r.queue == [] then r.(foldPending := None, running := false)
    else r.(foldPending := None, running := RunsAnyway(r, f.start), queue := r.queue[1..])
  }

  /** How the rooms stand behind a command on a sealed log. */
  ghost predicate Leaves(s: State, cmd: Cmd, t: Effects.Rooms) {
    var r := Effects.RoomsOf(s);
    match cmd
    case AckCmd =>
      t == if s.fifo == [] then r
           else LetGo(if s.fifo[0].ack then s.items + s.fifo[0].items else s.items, r)
    case PromptCmd(prompt, start) =>
      if s.running then PromptWaits(r.queue, prompt, t.queue) && t == r.(queue := t.queue)
      else t == r.(running := RunsAnyway(r, start))
    case SteerCmd(steer) =>
      if s.running || Awaiting(s.items) then SteerWaits(r.held, steer, t.held) && t == r.(held := t.held) else t == r
    case NotifyCmd(steer, start) =>
      if s.running || Awaiting(s.items) then SteerWaits(r.held, steer, t.held) && t == r.(held := t.held)
      else t == r.(running := RunsAnyway(r, start))
    case UnnotifyCmd(key) => Effects.WithoutKey(r.held, key, t.held) && t == r.(held := t.held)
    case ContinueCmd =>
      t == r.(running := s.running || (s.items != [] && (var last := s.items[|s.items| - 1];
                                                         last.User? || last.ToolResults?)))
    case NoteCmd => t == r
    case SetPlanCmd(_) => t == r
    case ProposeCmd(_) => t == r
    case ProposePreparedCmd(entries, stale, pipelined, _) =>
      t == if stale || pipelined then r
           else LetGo(if entries == [] then s.items else PairingLaws.Forwarded(s), r)
    case FoldCmd(focus, _) => t == if s.running then r.(foldPending := Some(focus)) else r
    case TurnFinishedCmd(end, _, f) =>
      var go := LetGo(if Awaiting(s.items) then PairingLaws.Forwarded(s) else s.items, r);
      t == GoesOn(if end.WantsFold? then go.(foldPending := None) else go, f)
  }

  // ---- Single steps ---------------------------------------------------------------

  lemma StaysRefl(s: State)
    requires s.fate == 0
    ensures Stays(s, s)
  {
  }

  lemma StaysTrans(s: State, t: State, u: State)
    requires Stays(s, t) && Stays(t, u)
    ensures Stays(s, u)
  {
  }

  lemma FrameStays(s: State, t: State)
    requires s.fate == 0 && CommitLaws.SameCommits(s, t)
    ensures Stays(s, t)
  {
  }

  lemma AppendStays(s: State, payload: Payload)
    requires s.fate == 0
    ensures var t := Append(s, payload);
            Stays(s, t) && Effects.RoomsOf(t) == Effects.RoomsOf(s) && t.items == PairingLaws.Forwarded(s)
  {
    PairingLaws.AppendForwards(s, payload);
    CommitLaws.DrainEffect(s, false);
    hide Drain, Tokens, PairingLaws.Forwarded;
    assert PairingLaws.Forwarded(s) + [] == PairingLaws.Forwarded(s);
  }

  lemma DrainStays(s: State)
    requires s.fate == 0
    ensures var d := Drain(s, true);
            Stays(s, d) && Effects.RoomsOf(d) == Effects.RoomsOf(s)
  {
    PairingLaws.DrainForwards(s, true);
    CommitLaws.DrainEffect(s, true);
    hide Drain, PairingLaws.Forwarded;
  }

  lemma AppendAllStays(s: State, entries: seq<Payload>)
    requires s.fate == 0
    ensures var t := AppendAll(s, entries);
            && Stays(s, t) && Effects.RoomsOf(t) == Effects.RoomsOf(s)
            && t.items == if entries == [] then s.items else PairingLaws.Forwarded(s)
  {
    CommitLaws.AppendAllUnfolds(s, entries);
    hide AppendAll, Append, Stays, PairingLaws.Forwarded;
    StaysRefl(s);
    if entries != [] { AppendStays(s, entries[0]); }
  }

  lemma {:induction false} SteersStay(s: State, steers: seq<HeldSteer>)
    requires s.fate == 0
    ensures var t := AppendSteers(s, steers); Stays(s, t) && Effects.RoomsOf(t) == Effects.RoomsOf(s)
    decreases |steers|
  {
    hide *;
    CommitLaws.AppendSteersUnfolds(s, steers);
    StaysRefl(s);
    if steers != [] {
      var a := Append(s, SteerEntry(steers[0]));
      AppendStays(s, SteerEntry(steers[0]));
      StaysSealed(s, a);
      SteersStay(a, steers[1..]);
      StaysTrans(s, a, AppendSteers(s, steers));
    }
  }

  lemma StaysSealed(s: State, t: State)
    requires Stays(s, t)
    ensures t.fate == 0 && t.log == s.log && PairingLaws.Forwarded(t) == PairingLaws.Forwarded(s)
  {
  }

  lemma ReleaseStays(s: State)
    requires s.fate == 0
    ensures var t := ReleaseSteers(s);
            Stays(s, t) && Effects.RoomsOf(t) == LetGo(s.items, Effects.RoomsOf(s))
  {
    var h := s.(held := []);
    FrameStays(s, h);
    SteersStay(h, s.held);
    StaysRefl(s);
    hide AppendSteers, Stays, Awaiting;
    StaysTrans(s, h, AppendSteers(h, s.held));
  }

  lemma ForwardStays(s: State, entries: seq<Payload>, refused: bool)
    requires s.fate == 0
    ensures var t := Forward(s, entries, refused); Stays(s, t) && Effects.RoomsOf(t) == Effects.RoomsOf(s)
  {
    PairingLaws.ForwardForwards(s, entries, refused);
    assert PairingLaws.Forwarded(s) + [] == PairingLaws.Forwarded(s);
    hide PairingLaws.Forwarded, ItemsOf;
    assert s.log + [] == s.log;
  }

  lemma StartStays(s: State, prompt: QueuedPrompt, start: Start)
    requires s.fate == 0
    ensures var t, r := StartTurn(s, prompt, start), Effects.RoomsOf(s);
            Stays(s, t) && Effects.RoomsOf(t) == r.(running := RunsAnyway(r, start))
  {
    var entry := ItemEntry(PromptItem(prompt));
    ForwardStays(s, [entry], start.refused);
    AppendStays(s, entry);
    StartFrames(s, prompt, start);
    hide Append, Forward, StartTurn, PromptItem, Stays;
    var m := if start.fast && s.held == [] then Forward(s, [entry], start.refused) else Append(s, entry);
    StaysSealed(s, m);
    FrameStays(m, StartTurn(s, prompt, start));
    StaysTrans(s, m, StartTurn(s, prompt, start));
  }

  lemma StartFrames(s: State, prompt: QueuedPrompt, start: Start)
    requires s.fate == 0
    ensures var entry := ItemEntry(PromptItem(prompt));
            var straight := start.fast && s.held == [];
            var m := if straight then Forward(s, [entry], start.refused) else Append(s, entry);
            StartTurn(s, prompt, start) == m.(running := straight && !start.refused, turnOpen := false)
            && CommitLaws.SameCommits(m, StartTurn(s, prompt, start))
  {
    hide Append, Forward, PromptItem;
  }

  lemma CompactStays(s: State, spec: Option<SpecDigest>, focus: Option<string>, input: FoldInput)
    requires s.fate == 0
    ensures Stays(s, Compact(s, spec, focus, input))
    ensures Effects.RoomsOf(Compact(s, spec, focus, input)) == Effects.RoomsOf(s)
    ensures Stays(s, CompactCut(s, spec, focus, input))
    ensures Effects.RoomsOf(CompactCut(s, spec, focus, input)) == Effects.RoomsOf(s)
  {
    DrainStays(s);
    StaysSealed(s, Drain(s, true));
    var d := Drain(s, true);
    CommitLaws.CompactUnfolds(s, spec, focus, input);
    CommitLaws.CompactCutUnfolds(s, spec, focus, input);
    hide *;
    var choice := FoldChoice(d.items, spec, focus, input);
    if choice.Some? {
      var (plan, digest) := choice.value;
      var entry := CompactionEntry(digest, plan.prefixEnd, plan.keptFrom, input.pins);
      RefusedEntry(d, entry);
      FoldRefused(d, plan, digest, input.pins);
      StaysTrans(s, d, d.(minted := d.minted + 1));
    }
  }

  /** A sealed log takes no entry of the actor's own. */
  lemma RefusedEntry(d: State, payload: Payload)
    requires d.fate == 0
    ensures Commit(d, payload) == d.(minted := d.minted + 1) && Strand(d, payload) == d.(minted := d.minted + 1)
    ensures Stays(d, d.(minted := d.minted + 1))
    ensures Effects.RoomsOf(d.(minted := d.minted + 1)) == Effects.RoomsOf(d)
  {
  }

  lemma FoldRefused(d: State, plan: Plan, digest: seq<Item>, pins: seq<string>)
    requires d.fate == 0 && plan.prefixEnd <= plan.keptFrom <= |d.items|
    ensures FoldWith(d, plan, digest, pins) == d.(minted := d.minted + 1)
  {
  }

  lemma ClearStays(s: State, ids: seq<string>)
    requires s.fate == 0
    ensures var t := Clear(s, ids); Stays(s, t) && Effects.RoomsOf(t) == Effects.RoomsOf(s)
  {
    DrainStays(s);
    StaysSealed(s, Drain(s, true));
    RefusedEntry(Drain(s, true), ClearedEntry(ids));
    hide Drain, Stays, ClearResults, Effects.RoomsOf;
    StaysTrans(s, Drain(s, true), Clear(s, ids));
  }

  // ---- The end of a turn --------------------------------------------------------------

  lemma {:induction false} NotesStay(s: State, n: nat)
    requires s.fate == 0
    ensures var t := Notes(s, n); Stays(s, t) && Effects.RoomsOf(t) == Effects.RoomsOf(s)
    decreases n
  {
    hide *;
    CommitLaws.NotesUnfolds(s, n);
    StaysRefl(s);
    if n > 0 {
      var a := Append(s, LogOnly);
      AppendStays(s, LogOnly);
      StaysSealed(s, a);
      NotesStay(a, n - 1);
      StaysTrans(s, a, Notes(s, n));
    }
  }

  lemma EndTurnStays(s: State, f: Finish)
    requires s.fate == 0 && f.guidance == None
    ensures var t := EndTurn(s, f); Stays(s, t) && Effects.RoomsOf(t) == GoesOn(Effects.RoomsOf(s), f)
  {
    Effects.EndTurnUnfolds(s, f);
    var b := Effects.Folded(s, f);
    FoldedStays(s, f);
    StaysSealed(s, b);
    PromotedStays(b, f);
    hide Effects.Folded, Effects.Promoted, EndTurn, Stays;
    StaysTrans(s, b, EndTurn(s, f));
  }

  lemma FoldedStays(s: State, f: Finish)
    requires s.fate == 0
    ensures var b := Effects.Folded(s, f);
            Stays(s, b) && Effects.RoomsOf(b) == Effects.RoomsOf(s).(foldPending := None)
  {
    StaysRefl(s);
    AppendStays(s, LogOnly);
    var a := Effects.Annotated(s, f);
    StaysSealed(s, a);
    hide Append, Stays, Compact;
    if a.foldPending.Some? {
      var p := a.(foldPending := None);
      FrameStays(a, p);
      CompactStays(p, None, a.foldPending.value, f.fold);
      StaysTrans(s, a, p);
      StaysTrans(s, p, Effects.Folded(s, f));
    }
  }

  lemma PromotedStays(b: State, f: Finish)
    requires b.fate == 0 && b.foldPending == None && f.guidance == None
    ensures var t := Effects.Promoted(b, f); Stays(b, t) && Effects.RoomsOf(t) == GoesOn(Effects.RoomsOf(b), f)
  {
    var t := Effects.Promoted(b, f);
    hide StartTurn, Stays;
    if b.queue != [] {
      var q := b.(queue := b.queue[1..]);
      FrameStays(b, q);
      StartStays(q, b.queue[0], f.start);
      StaysTrans(b, q, t);
    } else {
      FrameStays(b, t);
    }
  }

  lemma FinishedStays(s: State, f: Finish)
    requires s.fate == 0
    ensures var t := Finished(s, f); Stays(s, t) && Effects.RoomsOf(t) == GoesOn(Effects.RoomsOf(s), f)
  {
    Effects.FinishedUnfolds(s, f);
    var g := Notes(s, f.notes);
    NotesStay(s, f.notes);
    StaysSealed(s, g);
    hide Notes, StartTurn, EndTurn, Finished, Stays;
    if f.guidance.Some? {
      StartStays(g, QueuedPrompt(f.guidance.value, [], Some(GoalGuidance)), f.start);
    } else {
      EndTurnStays(g, f);
    }
    StaysTrans(s, g, Finished(s, f));
  }

  lemma DrainSomeSealed(s: State, n: nat)
    requires s.fate == 0
    ensures var t := DrainSome(s, n); Stays(s, t) && Effects.RoomsOf(t) == Effects.RoomsOf(s)
  {
    Effects.DrainSomeStays(s, n);
  }

  ghost function BehindFold(s: State, spec: Option<SpecDigest>, focus: Option<string>, cancel: Cancel, f: Finish)
    : State
  {
    if cancel.Early? then DrainSome(s, cancel.drained)
    else if cancel.AtEntry? then CompactCut(s, spec, focus, f.fold)
    else Compact(s, spec, focus, f.fold)
  }

  lemma FoldForTurnStays(s: State, spec: Option<SpecDigest>, focus: Option<string>, cancel: Cancel, f: Finish)
    requires s.fate == 0
    ensures var t := FoldForTurn(s, spec, focus, cancel, f);
            Stays(s, t) && Effects.RoomsOf(t) == GoesOn(Effects.RoomsOf(s), f)
  {
    var t := FoldForTurn(s, spec, focus, cancel, f);
    var c := BehindFold(s, spec, focus, cancel, f);
    if cancel.Early? { DrainSomeSealed(s, cancel.drained); } else { CompactStays(s, spec, focus, f.fold); }
    SealedFolds(s, spec, focus, cancel, f);
    hide *;
    StaysSealed(s, c);
    FinishedStays(c, f);
    StaysTrans(s, c, t);
  }

  lemma SealedFolds(s: State, spec: Option<SpecDigest>, focus: Option<string>, cancel: Cancel, f: Finish)
    requires s.fate == 0
    ensures FoldForTurn(s, spec, focus, cancel, f)
         == Finished(BehindFold(s, spec, focus, cancel, f), f)
  {
    hide Finished, DrainSome, CompactCut, Compact, FoldChoice;
  }

  lemma OutcomeStays(s: State, end: TurnEnd, f: Finish)
    requires s.fate == 0
    ensures var t, r := OnTurnFinished(s, end, f), Effects.RoomsOf(s);
            && Stays(s, t)
            && Effects.RoomsOf(t) == GoesOn(if end.WantsFold? then r.(foldPending := None) else r, f)
  {
    hide FoldForTurn, Clear, Finished, Stays, GoesOn;
    match end {
      case Ended => FinishedStays(s, f);
      case WantsFold(spec, skipped, cancel) =>
        var p, focus := s.(foldPending := None), ParkedFocus(s);
        FrameStays(s, p);
        FinishedStays(p, f);
        FoldForTurnStays(p, if focus.None? then spec else None, focus, cancel, f);
        StaysTrans(s, p, OnTurnFinished(s, end, f));
      case WantsClear(ids, interrupted) =>
        var c := Clear(s, ids);
        ClearStays(s, ids);
        StaysSealed(s, c);
        FinishedStays(c, f);
        StaysTrans(s, c, Finished(c, f));
    }
  }

  lemma CloseStays(s: State)
    requires s.fate == 0
    ensures var c := CloseOpenBatch(s);
            && Stays(s, c) && Effects.RoomsOf(c) == Effects.RoomsOf(s)
            && c.items == if Awaiting(s.items) then PairingLaws.Forwarded(s) else s.items
  {
    PairingLaws.AwaitingCalls(s.items);
    hide Append, Repair.Stub, Awaiting, Stays, PairingLaws.Forwarded;
    StaysRefl(s);
    if Awaiting(s.items) { AppendStays(s, ItemEntry(Repair.Stub(s.items[|s.items| - 1]))); }
  }

  lemma AtOutcomeStays(s: State, switched: bool)
    requires s.fate == 0
    ensures var a := History.AtOutcome(s, switched);
            && Stays(s, a)
            && Effects.RoomsOf(a) == LetGo(if Awaiting(s.items) then PairingLaws.Forwarded(s) else s.items,
                                           Effects.RoomsOf(s))
  {
    Effects.AtOutcomeParts(s, switched);
    hide *;
    var c := CloseOpenBatch(s);
    var r := ReleaseSteers(c);
    CloseStays(s);
    StaysSealed(s, c);
    ReleaseStays(c);
    StaysTrans(s, c, r);
    StaysSealed(s, r);
    if switched {
      AppendStays(r, LogOnly);
      StaysTrans(s, r, Append(r, LogOnly));
    }
  }

  lemma TurnFinishedStays(s: State, end: TurnEnd, switched: bool, f: Finish)
    requires s.fate == 0
    ensures var t := TurnFinished(s, end, switched, f);
            Stays(s, t) && Leaves(s, TurnFinishedCmd(end, switched, f), Effects.RoomsOf(t))
  {
    hide History.AtOutcome, OnTurnFinished, Stays, LetGo, GoesOn;
    var a := History.AtOutcome(s, switched);
    History.AtOutcomeIs(s, end, switched, f);
    AtOutcomeStays(s, switched);
    StaysSealed(s, a);
    OutcomeStays(a, end, f);
    StaysTrans(s, a, OnTurnFinished(a, end, f));
  }

  // ---- Every command --------------------------------------------------------------------

  lemma AckStays(s: State)
    requires s.fate == 0 && s.fifo != []
    ensures var t := AckArrives(s); Stays(s, t) && Leaves(s, AckCmd, Effects.RoomsOf(t))
  {
    var marked := s.(overtook := s.overtook || Overtakes(s));
    var l, t := Landed(marked), AckArrives(s);
    var r := ReleaseSteers(l);
    PairingLaws.LandedForwards(marked);
    PairingLaws.ForwardedFrame(s, marked);
    Effects.LandedFields(s, l);
    CommitLaws.AckUnfolds(s, r);
    ReleaseStays(l);
    hide AckArrives, ReleaseSteers, Landed, Overtakes, Settle, Awaiting, CommitLaws.OkItems;
  }

  lemma ProposeStays(s: State, entries: seq<Payload>, stale: bool, pipelined: bool, refused: bool)
    requires s.fate == 0
    ensures var t := ProposePrepared(s, entries, stale, pipelined, refused);
            Stays(s, t) && Leaves(s, ProposePreparedCmd(entries, stale, pipelined, refused), Effects.RoomsOf(t))
  {
    var t, p := ProposePrepared(s, entries, stale, pipelined, refused), s.(turnOpen := OpenAfter(s.turnOpen, entries));
    var a := AppendAll(p, entries);
    hide *;
    ProposeFrames(s, p, entries);
    Effects.ProposeUnfolds(s, p, entries, stale, pipelined, refused);
    StaysRefl(s);
    FrameStays(s, p);
    ForwardStays(p, entries, refused);
    AppendAllStays(p, entries);
    StaysSealed(p, a);
    ReleaseStays(a);
    if !stale {
      if !pipelined {
        StaysTrans(p, a, t);
        StaysTrans(s, p, t);
      } else if entries != [] {
        StaysTrans(s, p, t);
      }
    }
    ProposeLeaves(s, entries, stale, pipelined, refused, Effects.RoomsOf(t));
  }

  lemma ProposeFrames(s: State, p: State, entries: seq<Payload>)
    requires p == s.(turnOpen := OpenAfter(s.turnOpen, entries))
    ensures CommitLaws.SameCommits(s, p) && p.fate == s.fate && p.items == s.items
  {
    hide OpenAfter;
  }

  lemma ProposeLeaves(s: State, entries: seq<Payload>, stale: bool, pipelined: bool, refused: bool, t: Effects.Rooms)
    requires t == if stale || pipelined then Effects.RoomsOf(s)
                  else LetGo(if entries == [] then s.items else PairingLaws.Forwarded(s), Effects.RoomsOf(s))
    ensures Leaves(s, ProposePreparedCmd(entries, stale, pipelined, refused), t)
  {
    hide LetGo, PairingLaws.Forwarded;
  }

  /** On a sealed log no command writes or shows anything; what it does to the rooms is this. */
  lemma StepSealed(s: State, cmd: Cmd)
    requires s.fate == 0
    ensures Stays(s, Step(s, cmd)) && Leaves(s, cmd, Effects.RoomsOf(Step(s, cmd)))
  {
    hide AckArrives, StartTurn, Append, Compact, ProposePrepared, TurnFinished, AppendAll, SteerEntry, NotifyPrompt,
         Awaiting, Pushed, Queued, Withdrawn, Reminder, Stays, LetGo, GoesOn, SteerWaits, PromptWaits,
         Effects.WithoutKey, PairingLaws.Forwarded;
    StaysRefl(s);
    match cmd {
      case AckCmd => if s.fifo != [] { AckStays(s); }
      case PromptCmd(prompt, start) =>
        StartStays(s, prompt, start);
        QueuedWaits(s.queue, prompt);
        FrameStays(s, s.(queue := Queued(s.queue, prompt)));
      case SteerCmd(steer) =>
        AppendStays(s, SteerEntry(steer));
        PushedWaits(s.held, steer);
        FrameStays(s, s.(held := Pushed(s.held, steer)));
      case NotifyCmd(steer, start) =>
        StartStays(s, NotifyPrompt(steer), start);
        PushedWaits(s.held, steer);
        FrameStays(s, s.(held := Pushed(s.held, steer)));
      case UnnotifyCmd(key) =>
        Effects.WithdrawnDoes(s, key);
        FrameStays(s, s.(held := Withdrawn(s.held, key)));
      case ContinueCmd => FrameStays(s, s.(running := true, turnOpen := false));
      case NoteCmd => AppendStays(s, LogOnly);
      case SetPlanCmd(body) =>
        var a := Append(s, LogOnly);
        AppendStays(s, LogOnly);
        StaysSealed(s, a);
        AppendStays(a, ItemEntry(Reminder(body)));
        StaysTrans(s, a, Append(a, ItemEntry(Reminder(body))));
      case ProposeCmd(entries) => AppendAllStays(s, entries);
      case ProposePreparedCmd(entries, stale, pipelined, refused) =>
        ProposeStays(s, entries, stale, pipelined, refused);
      case FoldCmd(focus, input) =>
        CompactStays(s, None, focus, input);
        FrameStays(s, s.(foldPending := Some(focus)));
      case TurnFinishedCmd(end, switched, finish) => TurnFinishedStays(s, end, switched, finish);
    }
  }
}
