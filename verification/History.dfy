/** The session only ever adds to its past: nothing committed, shown or resolved is taken back,
    and a sealed log stays sealed. Exactly which steps let a ticket overtake, and which leave
    an entry in the log that the head never takes. */
module History {
  import opened Items
  import opened Compaction
  import opened HeldBuffer
  import opened Session
  import CommitLaws

  /** `t` continues `s`. */
  predicate Continues(s: State, t: State) {
    && t.seed == s.seed
    && s.log <= t.log && s.acked <= t.acked
    && s.trace <= t.trace && s.issued <= t.issued
    && s.minted <= t.minted && t.fate <= s.fate
    && (s.overtook ==> t.overtook) && s.stranded <= t.stranded
  }

  predicate SameMarks(s: State, t: State) {
    t.overtook == s.overtook && t.stranded == s.stranded
  }

  /** `t` continues `s`, and nothing overtook or was stranded on the way. */
  predicate Grows(s: State, t: State) {
    Continues(s, t) && SameMarks(s, t)
  }

  lemma ContinuesTrans(s: State, t: State, u: State)
    requires Continues(s, t) && Continues(t, u)
    ensures Continues(s, u)
  {
  }

  lemma GrowsTrans(s: State, t: State, u: State)
    requires Grows(s, t) && Grows(t, u)
    ensures Grows(s, u)
  {
  }

  lemma GrowsRefl(s: State)
    ensures Grows(s, s)
  {
  }

  lemma VisibleGrows(s: State, ticket: nat, verdict: Verdict, items: seq<Item>)
    ensures Grows(s, Publish(s)) && Grows(s, Resolve(s, ticket, verdict)) && Grows(s, Repoint(s, items))
  {
    hide Tokens;
  }

  lemma LandedGrows(s: State)
    requires s.fifo != []
    ensures Grows(s, Landed(s))
  {
    hide Tokens;
  }

  lemma {:induction false} DrainGrows(s: State, abort: bool)
    ensures Grows(s, Drain(s, abort))
    decreases |s.fifo|
  {
    hide *;
    CommitLaws.DrainEmpty(s, abort);
    GrowsRefl(s);
    if s.fifo != [] {
      var l, at, v := Landed(s), s.fifo[0].at, Settle(s.fifo[0], abort);
      CommitLaws.DrainUnfolds(s, abort);
      CommitLaws.DrainOneFields(s, abort);
      LandedGrows(s);
      VisibleGrows(l, at, v, []);
      VisibleGrows(Publish(l), at, v, []);
      GrowsTrans(s, l, Publish(l));
      GrowsTrans(s, Publish(l), DrainOne(s, abort));
      DrainGrows(DrainOne(s, abort), abort);
      GrowsTrans(s, DrainOne(s, abort), Drain(s, abort));
    }
  }

  lemma CommitGrows(s: State, payload: Payload)
    ensures Grows(s, Commit(s, payload))
  {
    hide Tokens;
  }

  lemma AppendGrows(s: State, payload: Payload)
    ensures Grows(s, Append(s, payload))
  {
    hide *;
    CommitLaws.AppendUnfolds(s, payload);
    DrainGrows(s, false);
    CommitGrows(Drain(s, false), payload);
    GrowsTrans(s, Drain(s, false), Append(s, payload));
  }

  lemma {:induction false} AppendAllGrows(s: State, entries: seq<Payload>)
    ensures Grows(s, AppendAll(s, entries))
    decreases |entries|
  {
    hide *;
    CommitLaws.AppendAllUnfolds(s, entries);
    GrowsRefl(s);
    if entries != [] {
      AppendGrows(s, entries[0]);
      if s.fate > 0 {
        AppendAllGrows(Append(s, entries[0]), entries[1..]);
        GrowsTrans(s, Append(s, entries[0]), AppendAll(s, entries));
      }
    }
  }

  lemma {:induction false} AppendSteersGrows(s: State, steers: seq<HeldSteer>)
    ensures Grows(s, AppendSteers(s, steers))
    decreases |steers|
  {
    hide *;
    CommitLaws.AppendSteersUnfolds(s, steers);
    GrowsRefl(s);
    if steers != [] {
      AppendGrows(s, SteerEntry(steers[0]));
      AppendSteersGrows(Append(s, SteerEntry(steers[0])), steers[1..]);
      GrowsTrans(s, Append(s, SteerEntry(steers[0])), AppendSteers(s, steers));
    }
  }

  /** Differing only in what is not history. */
  lemma FrameGrows(s: State, t: State)
    requires CommitLaws.SameCommits(s, t)
    ensures Grows(s, t)
  {
  }

  lemma ReleaseGrows(s: State)
    ensures Grows(s, ReleaseSteers(s))
  {
    hide AppendSteers, Awaiting;
    AppendSteersGrows(s.(held := []), s.held);
  }

  lemma ForwardGrows(s: State, entries: seq<Payload>, refused: bool)
    ensures Grows(s, Forward(s, entries, refused))
  {
    hide ItemsOf;
  }

  lemma AckGrows(s: State)
    requires s.fifo != []
    ensures Continues(s, AckArrives(s))
    ensures AckArrives(s).overtook == (s.overtook || Overtakes(s)) && AckArrives(s).stranded == s.stranded
  {
    hide *;
    var marked := s.(overtook := s.overtook || Overtakes(s));
    var l := Landed(marked);
    var r := ReleaseSteers(l);
    MarkGrows(s, marked);
    LandedGrows(marked);
    ReleaseGrows(l);
    CommitLaws.AckUnfolds(s, r);
    VisibleGrows(r, 0, Acked, []);
    VisibleGrows(Publish(r), s.fifo[0].at, Settle(s.fifo[0], false), []);
    GrowsTrans(marked, l, r);
    GrowsTrans(marked, r, Publish(r));
    GrowsTrans(marked, Publish(r), AckArrives(s));
    GrowsMeans(marked, AckArrives(s));
    ContinuesTrans(s, marked, AckArrives(s));
  }

  lemma MarkGrows(s: State, t: State)
    requires t == s.(overtook := t.overtook) && (s.overtook ==> t.overtook)
    ensures Continues(s, t)
  {
  }

  lemma GrowsMeans(s: State, t: State)
    requires Grows(s, t)
    ensures Continues(s, t) && t.overtook == s.overtook && t.stranded == s.stranded
  {
  }

  lemma RepointGrows(s: State, payload: Payload, items: seq<Item>)
    ensures Grows(s, if s.fate == 0 then Commit(s, payload) else Repoint(Commit(s, payload), items))
  {
    hide *;
    CommitGrows(s, payload);
    VisibleGrows(Commit(s, payload), 0, Acked, items);
    if s.fate > 0 { GrowsTrans(s, Commit(s, payload), Repoint(Commit(s, payload), items)); }
  }

  lemma CompactGrows(s: State, spec: Option<SpecDigest>, focus: Option<string>, input: FoldInput)
    ensures Grows(s, Compact(s, spec, focus, input))
  {
    hide *;
    CommitLaws.CompactUnfolds(s, spec, focus, input);
    DrainGrows(s, true);
    var d := Drain(s, true);
    var choice := FoldChoice(d.items, spec, focus, input);
    if choice.Some? {
      var plan := choice.value.0;
      CommitLaws.FoldWithUnfolds(d, plan, choice.value.1, input.pins);
      RepointGrows(d, CompactionEntry(choice.value.1, plan.prefixEnd, plan.keptFrom, input.pins),
                   Apply(d.items, plan, choice.value.1, input.pins));
      GrowsTrans(s, d, Compact(s, spec, focus, input));
    }
  }

  lemma ClearGrows(s: State, ids: seq<string>)
    ensures Grows(s, Clear(s, ids))
  {
    hide Drain, Commit, Repoint, ClearResults, Grows;
    DrainGrows(s, true);
    var d := Drain(s, true);
    RepointGrows(d, ClearedEntry(ids), ClearResults(d.items, ids));
    GrowsTrans(s, d, Clear(s, ids));
  }

  lemma StartTurnGrows(s: State, prompt: QueuedPrompt, start: Start)
    ensures Grows(s, StartTurn(s, prompt, start))
  {
    hide *;
    CommitLaws.StartTurnUnfolds(s, prompt, start);
    var entry := ItemEntry(PromptItem(prompt));
    var a := Append(s, entry);
    AppendGrows(s, entry);
    ForwardGrows(s, [entry], start.refused);
    var c := if start.fast && s.held == [] then Forward(s, [entry], start.refused)
             else if s.fate > 0 && start.reminder.Some? then Append(a, ItemEntry(Reminder(start.reminder.value)))
             else a;
    if s.fate > 0 && start.reminder.Some? {
      AppendGrows(a, ItemEntry(Reminder(start.reminder.value)));
      GrowsTrans(s, a, Append(a, ItemEntry(Reminder(start.reminder.value))));
    }
    FrameGrows(c, StartTurn(s, prompt, start));
    GrowsTrans(s, c, StartTurn(s, prompt, start));
  }

  lemma {:induction false} NotesGrows(s: State, n: nat)
    ensures Grows(s, Notes(s, n))
    decreases n
  {
    hide *;
    CommitLaws.NotesUnfolds(s, n);
    GrowsRefl(s);
    if n > 0 {
      AppendGrows(s, LogOnly);
      NotesGrows(Append(s, LogOnly), n - 1);
      GrowsTrans(s, Append(s, LogOnly), Notes(s, n));
    }
  }

  lemma EndTurnGrows(s: State, f: Finish)
    ensures Grows(s, EndTurn(s, f))
  {
    hide Append, StartTurn, Compact;
    var a := if f.annotate then Append(s, LogOnly) else s;
    AppendGrows(s, LogOnly);
    if a.foldPending.Some? { CompactGrows(a.(foldPending := None), None, a.foldPending.value, f.fold); }
    var b := if a.foldPending.Some?
             then FoldNow(a.(foldPending := None), a.foldPending.value, f.fold) else a;
    assert Grows(s, b);
    if b.queue != [] { StartTurnGrows(b.(queue := b.queue[1..]), b.queue[0], f.start); }
  }

  lemma FinishedGrows(s: State, f: Finish)
    ensures Grows(s, Finished(s, f))
  {
    hide Notes, StartTurn, EndTurn, Grows;
    var g := Notes(s, f.notes);
    NotesGrows(s, f.notes);
    match f.guidance {
      case Some(text) => StartTurnGrows(g, QueuedPrompt(text, [], Some(GoalGuidance)), f.start);
      case None => EndTurnGrows(g, f);
    }
    GrowsTrans(s, g, Finished(s, f));
  }

  lemma {:induction false} DrainSomeGrows(s: State, n: nat)
    ensures Grows(s, DrainSome(s, n))
    decreases n
  {
    hide *;
    CommitLaws.DrainSomeUnfolds(s, n);
    GrowsRefl(s);
    if n > 0 && s.fifo != [] {
      var l, at, v := Landed(s), s.fifo[0].at, Settle(s.fifo[0], true);
      CommitLaws.DrainOneFields(s, true);
      LandedGrows(s);
      VisibleGrows(l, at, v, []);
      VisibleGrows(Publish(l), at, v, []);
      GrowsTrans(s, l, Publish(l));
      GrowsTrans(s, Publish(l), DrainOne(s, true));
      DrainSomeGrows(DrainOne(s, true), n - 1);
      GrowsTrans(s, DrainOne(s, true), DrainSome(s, n));
    }
  }

  /** The entry a step strands is the next one in the log. */
  function Stranding(log: seq<Payload>, strands: bool): set<nat> {
    if strands then {|log|} else {}
  }

  /** A cut fold strands its entry exactly when it has one and the log takes it. */
  lemma CompactCutStrands(s: State, spec: Option<SpecDigest>, focus: Option<string>, input: FoldInput)
    ensures var t := CompactCut(s, spec, focus, input);
            && Continues(s, t) && t.overtook == s.overtook
            && t.stranded == s.stranded + Stranding(s.log, Compacts(s, spec, focus, input))
  {
    hide Drain, FoldChoice, SameMarks;
    DrainGrows(s, true);
    CommitLaws.DrainEffect(s, true);
    GrowsMeans(s, Drain(s, true));
  }

  /** What a fold behind a turn strands. */
  ghost predicate FoldStrands(s: State, spec: Option<SpecDigest>, focus: Option<string>, cancel: Cancel, f: Finish) {
    cancel.AtEntry? && Compacts(s, spec, focus, f.fold)
  }

  lemma FoldForTurnMarks(s: State, spec: Option<SpecDigest>, focus: Option<string>, cancel: Cancel, f: Finish)
    ensures var t := FoldForTurn(s, spec, focus, cancel, f);
            && Continues(s, t) && t.overtook == s.overtook
            && t.stranded == s.stranded + Stranding(s.log, FoldStrands(s, spec, focus, cancel, f))
  {
    hide Compact, CompactCut, Compacts, Finished, DrainSome, Continues;
    match cancel {
      case Early(drained) =>
        var d := DrainSome(s, drained);
        DrainSomeGrows(s, drained);
        FinishedGrows(d, f);
        ContinuesTrans(s, d, Finished(d, f));
      case AtEntry =>
        var c := CompactCut(s, spec, focus, f.fold);
        CompactCutStrands(s, spec, focus, f.fold);
        FinishedGrows(c, f);
        ContinuesTrans(s, c, Finished(c, f));
      case _ =>
        var c := Compact(s, spec, focus, f.fold);
        CompactGrows(s, spec, focus, f.fold);
        FinishedGrows(c, f);
        ContinuesTrans(s, c, Finished(c, f));
        FrameGrows(c, c.(turnOpen := false));
        ContinuesTrans(s, c, c.(turnOpen := false));
    }
  }

  /** What the end of a turn strands, once its batch is closed and its steers have landed. */
  ghost predicate EndStrands(s: State, end: TurnEnd, f: Finish) {
    && end.WantsFold? && !end.skipped
    && FoldStrands(s.(foldPending := None), if ParkedFocus(s).None? then end.spec else None, ParkedFocus(s),
                   end.cancel, f)
  }

  lemma OnTurnFinishedMarks(s: State, end: TurnEnd, f: Finish)
    ensures var t := OnTurnFinished(s, end, f);
            && Continues(s, t) && t.overtook == s.overtook
            && t.stranded == s.stranded + Stranding(s.log, EndStrands(s, end, f))
  {
    hide FoldForTurn, FoldStrands, Finished, Clear, Continues;
    match end {
      case Ended => FinishedGrows(s, f);
      case WantsFold(spec, skipped, cancel) =>
        var p, focus := s.(foldPending := None), ParkedFocus(s);
        var adopted := if focus.None? then spec else None;
        FrameGrows(s, p);
        if skipped {
          FinishedGrows(p, f);
          ContinuesTrans(s, p, Finished(p, f));
        } else {
          FoldForTurnMarks(p, adopted, focus, cancel, f);
          ContinuesTrans(s, p, FoldForTurn(p, adopted, focus, cancel, f));
        }
      case WantsClear(ids, interrupted) =>
        var c := Clear(s, ids);
        ClearGrows(s, ids);
        FinishedGrows(c, f);
        ContinuesTrans(s, c, Finished(c, f));
        FrameGrows(c, c.(turnOpen := false));
        ContinuesTrans(s, c, c.(turnOpen := false));
    }
  }

  /** The session as it meets the outcome of a turn. */
  function AtOutcome(s: State, switched: bool): State {
    var released := ReleaseSteers(CloseOpenBatch(s));
    if switched then Append(released, LogOnly) else released
  }

  lemma AtOutcomeGrows(s: State, switched: bool)
    ensures Grows(s, AtOutcome(s, switched))
  {
    hide Append, ReleaseSteers, Repair.Stub, Grows;
    var c := CloseOpenBatch(s);
    GrowsRefl(s);
    if Awaiting(s.items) { AppendGrows(s, ItemEntry(Repair.Stub(s.items[|s.items| - 1]))); }
    var r := ReleaseSteers(c);
    ReleaseGrows(c);
    GrowsTrans(s, c, r);
    AppendGrows(r, LogOnly);
    if switched { GrowsTrans(s, r, Append(r, LogOnly)); }
  }

  lemma TurnFinishedMarks(s: State, end: TurnEnd, switched: bool, f: Finish)
    ensures var t := TurnFinished(s, end, switched, f);
            && Continues(s, t) && t.overtook == s.overtook
            && t.stranded
               == s.stranded + Stranding(AtOutcome(s, switched).log, EndStrands(AtOutcome(s, switched), end, f))
  {
    hide AtOutcome, OnTurnFinished, EndStrands, Continues;
    var a := AtOutcome(s, switched);
    AtOutcomeIs(s, end, switched, f);
    AtOutcomeGrows(s, switched);
    OnTurnFinishedMarks(a, end, f);
    ContinuesTrans(s, a, OnTurnFinished(a, end, f));
  }

  lemma AtOutcomeIs(s: State, end: TurnEnd, switched: bool, f: Finish)
    ensures TurnFinished(s, end, switched, f) == OnTurnFinished(AtOutcome(s, switched), end, f)
  {
    hide OnTurnFinished, ReleaseSteers, CloseOpenBatch, Append;
  }

  lemma ProposePreparedGrows(s: State, entries: seq<Payload>, stale: bool, pipelined: bool, refused: bool)
    ensures Grows(s, ProposePrepared(s, entries, stale, pipelined, refused))
  {
    hide Forward, AppendAll, ReleaseSteers, OpenAfter;
    var t := s.(turnOpen := OpenAfter(s.turnOpen, entries));
    ForwardGrows(t, entries, refused);
    AppendAllGrows(t, entries);
    ReleaseGrows(AppendAll(t, entries));
  }

  /** An ack is settled behind younger units it could have waited for. */
  predicate AckOvertakes(s: State, cmd: Cmd) {
    cmd.AckCmd? && s.fifo != [] && Overtakes(s)
  }

  /** A turn's fold is cancelled while its entry waits for the ack. */
  ghost predicate Strands(s: State, cmd: Cmd) {
    cmd.TurnFinishedCmd? && EndStrands(AtOutcome(s, cmd.switched), cmd.end, cmd.finish)
  }

  /** The entries of the log a step strands: none, or the first it commits for the outcome. */
  ghost function StrandedBy(s: State, cmd: Cmd): set<nat> {
    if Strands(s, cmd) then {|AtOutcome(s, cmd.switched).log|} else {}
  }

  /** Every step continues its session. A ticket overtakes in an ack that has younger units
      behind it and steers to release, and nowhere else; an entry is stranded where a fold is
      cancelled with it on the way, and nowhere else. */
  lemma StepContinues(s: State, cmd: Cmd)
    ensures Continues(s, Step(s, cmd))
    ensures Step(s, cmd).overtook == (s.overtook || AckOvertakes(s, cmd))
    ensures Step(s, cmd).stranded
         == s.stranded + StrandedBy(s, cmd)
  {
    hide AckArrives, StartTurn, Append, Compact, ProposePrepared, TurnFinished, AppendAll, EndStrands, AtOutcome,
         Awaiting, Pushed, Queued, Withdrawn, NeedsContinuation, Reminder, Overtakes;
    match cmd {
      case AckCmd => if s.fifo != [] { AckGrows(s); }
      case PromptCmd(prompt, start) => StartTurnGrows(s, prompt, start);
      case SteerCmd(steer) => AppendGrows(s, SteerEntry(steer));
      case NotifyCmd(steer, start) => StartTurnGrows(s, NotifyPrompt(steer), start);
      case UnnotifyCmd(key) =>
      case ContinueCmd =>
      case NoteCmd => AppendGrows(s, LogOnly);
      case SetPlanCmd(body) =>
        AppendGrows(s, LogOnly);
        AppendGrows(Append(s, LogOnly), ItemEntry(Reminder(body)));
      case ProposeCmd(entries) => AppendAllGrows(s, entries);
      case ProposePreparedCmd(entries, stale, pipelined, refused) =>
        ProposePreparedGrows(s, entries, stale, pipelined, refused);
      case FoldCmd(focus, input) => CompactGrows(s, None, focus, input);
      case TurnFinishedCmd(end, switched, finish) => TurnFinishedMarks(s, end, switched, finish);
    }
  }

  /** Every run continues each of its own prefixes: the log, the acked units, the visible
      events and the tickets are append-only, and the writer's failure is permanent. */
  lemma {:induction false} RunGrows(s: State, cmds: seq<Cmd>, k: nat)
    requires k <= |cmds|
    ensures Continues(Run(s, cmds[..k]), Run(s, cmds))
  {
    hide Continues, Step;
    if k == |cmds| {
      assert cmds[..k] == cmds;
      ContinuesRefl(Run(s, cmds));
    } else {
      var front := cmds[..|cmds| - 1];
      RunGrows(s, front, k);
      assert front[..k] == cmds[..k];
      StepContinues(Run(s, front), cmds[|cmds| - 1]);
      ContinuesTrans(Run(s, cmds[..k]), Run(s, front), Run(s, cmds));
    }
  }

  lemma ContinuesRefl(s: State)
    ensures Continues(s, s)
  {
  }

  /** The `i`th command strands a fold, as entry `n` of the log. */
  ghost predicate StrandsAt(s: State, cmds: seq<Cmd>, i: nat, n: nat)
    requires i < |cmds|
  {
    n in StrandedBy(Run(s, cmds[..i]), cmds[i])
  }

  /** The entries a run leaves in its log without its head are exactly the folds its steps
      strand, each where the step's own entries begin. */
  lemma {:induction false} RunStrandsExactly(s: State, cmds: seq<Cmd>)
    ensures forall n :: n in Run(s, cmds).stranded <==>
              n in s.stranded || exists i: nat :: i < |cmds| && StrandsAt(s, cmds, i, n)
    decreases |cmds|
  {
    hide Step, StrandedBy, StrandsAt;
    if cmds != [] {
      var front, last := cmds[..|cmds| - 1], cmds[|cmds| - 1];
      RunStrandsExactly(s, front);
      StepContinues(Run(s, front), last);
      forall i: nat, n: nat | i < |front|
        ensures StrandsAt(s, front, i, n) == StrandsAt(s, cmds, i, n)
      {
        StrandsAlike(s, cmds, i, n);
      }
      forall n: nat
        ensures n in StrandedBy(Run(s, front), last) <==> StrandsAt(s, cmds, |cmds| - 1, n)
      {
        LastStrands(s, cmds, n);
      }
    }
  }

  lemma StrandsAlike(s: State, cmds: seq<Cmd>, i: nat, n: nat)
    requires i < |cmds| - 1
    ensures StrandsAt(s, cmds[..|cmds| - 1], i, n) == StrandsAt(s, cmds, i, n)
  {
    hide StrandedBy, Run;
    assert cmds[..|cmds| - 1][..i] == cmds[..i];
  }

  lemma LastStrands(s: State, cmds: seq<Cmd>, n: nat)
    requires cmds != []
    ensures StrandsAt(s, cmds, |cmds| - 1, n) <==> n in StrandedBy(Run(s, cmds[..|cmds| - 1]), cmds[|cmds| - 1])
  {
    hide StrandedBy, Run;
  }
}
