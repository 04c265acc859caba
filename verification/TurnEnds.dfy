/** The end of a turn that died with units still in flight: what it adds, exactly when it keeps
    the adjacency law, and a run in which it does not. */
module TurnEnds {
  import opened Items
  import opened Compaction
  import opened HeldBuffer
  import opened Session
  import opened PairingLaws
  import CommitLaws
  import CommitTheorems
  import Repair

  // ---- What an ending says ---------------------------------------------------------------

  /** `b` is `a` with nothing but text from the user's side behind it. */
  predicate Spoken(a: seq<Item>, b: seq<Item>) {
    a <= b && AllUsers(b[|a|..])
  }

  /** All that was forwarded between the two states is such text. */
  predicate Speaks(s: State, t: State) {
    Spoken(Forwarded(s), Forwarded(t))
  }

  lemma SpokenTrans(a: seq<Item>, b: seq<Item>, c: seq<Item>)
    requires Spoken(a, b) && Spoken(b, c)
    ensures Spoken(a, c)
  {
    assert c[|a|..] == b[|a|..] + c[|b|..];
  }

  lemma SpokenBehind(a: seq<Item>, more: seq<Item>)
    requires AllUsers(more)
    ensures Spoken(a, a + more)
  {
    assert (a + more)[|a|..] == more;
  }

  lemma SpeaksTrans(s: State, t: State, u: State)
    requires Speaks(s, t) && Speaks(t, u)
    ensures Speaks(s, u)
  {
    hide Spoken, Forwarded;
    SpokenTrans(Forwarded(s), Forwarded(t), Forwarded(u));
  }

  lemma SpeaksFrame(s: State, t: State)
    requires t.items == s.items && t.fifo == s.fifo
    ensures Speaks(s, t)
  {
    ForwardedFrame(s, t);
  }

  /** An entry the actor writes that is no answer and no reply. */
  predicate Spoke(payload: Payload) {
    payload.ItemEntry? ==> payload.item.User?
  }

  lemma AppendSpeaks(s: State, payload: Payload)
    requires Spoke(payload)
    ensures Speaks(s, Append(s, payload)) && SameTurn(s, Append(s, payload))
  {
    hide Append, Forwarded, Spoken, SameTurn;
    AppendForwards(s, payload);
    SpokenBehind(Forwarded(s), Entered(s, payload));
  }

  lemma {:induction false} SteersSpeak(s: State, steers: seq<HeldSteer>)
    ensures Speaks(s, AppendSteers(s, steers)) && SameTurn(s, AppendSteers(s, steers))
    decreases |steers|
  {
    hide *;
    CommitLaws.AppendSteersUnfolds(s, steers);
    SpeaksFrame(s, s);
    SameTurnRefl(s);
    if steers != [] {
      var a := Append(s, SteerEntry(steers[0]));
      SteerSpoke(steers[0]);
      AppendSpeaks(s, SteerEntry(steers[0]));
      SteersSpeak(a, steers[1..]);
      SpeaksTrans(s, a, AppendSteers(s, steers));
      SameTurnTrans(s, a, AppendSteers(s, steers));
    }
  }

  lemma SteerSpoke(steer: HeldSteer)
    ensures Spoke(SteerEntry(steer))
  {
  }

  lemma ReleaseSpeaks(s: State)
    ensures Speaks(s, ReleaseSteers(s)) && ReleaseSteers(s).foldPending == s.foldPending
  {
    hide *;
    CommitLaws.ReleaseUnfolds(s);
    SpeaksFrame(s, s);
    if s.held != [] && !Awaiting(s.items) {
      var h := s.(held := []);
      SpeaksFrame(s, h);
      SteersSpeak(h, s.held);
      SpeaksTrans(s, h, AppendSteers(h, s.held));
      SameFold(h, AppendSteers(h, s.held));
    }
  }

  lemma SameFold(s: State, t: State)
    requires SameTurn(s, t)
    ensures t.foldPending == s.foldPending && t.queue == s.queue && t.running == s.running
  {
  }

  lemma {:induction false} NotesSpeak(s: State, n: nat)
    ensures Speaks(s, Notes(s, n)) && SameTurn(s, Notes(s, n))
    decreases n
  {
    hide *;
    CommitLaws.NotesUnfolds(s, n);
    SpeaksFrame(s, s);
    SameTurnRefl(s);
    if n > 0 {
      var a := Append(s, LogOnly);
      NoteSpeaks(s);
      NotesSpeak(a, n - 1);
      SpeaksTrans(s, a, Notes(s, n));
      SameTurnTrans(s, a, Notes(s, n));
    }
  }

  lemma NoteSpeaks(s: State)
    ensures Speaks(s, Append(s, LogOnly)) && SameTurn(s, Append(s, LogOnly))
  {
    hide Append, Speaks, SameTurn;
    AppendSpeaks(s, LogOnly);
  }

  lemma StartSpeaks(s: State, prompt: QueuedPrompt, start: Start)
    ensures Speaks(s, StartTurn(s, prompt, start))
  {
    hide *;
    var entry := ItemEntry(PromptItem(prompt));
    PromptSpoke(prompt, if start.reminder.Some? then start.reminder.value else "");
    var a := Append(s, entry);
    AppendSpeaks(s, entry);
    ForwardSpeaks(s, PromptItem(prompt), start.refused);
    var c := if start.fast && s.held == [] then Forward(s, [entry], start.refused)
             else if s.fate > 0 && start.reminder.Some? then Append(a, ItemEntry(Reminder(start.reminder.value)))
             else a;
    if s.fate > 0 && start.reminder.Some? {
      AppendSpeaks(a, ItemEntry(Reminder(start.reminder.value)));
      SpeaksTrans(s, a, Append(a, ItemEntry(Reminder(start.reminder.value))));
    }
    CommitLaws.StartTurnUnfolds(s, prompt, start);
    SameCommitsSpeaks(c, StartTurn(s, prompt, start));
    SpeaksTrans(s, c, StartTurn(s, prompt, start));
  }

  lemma SameCommitsSpeaks(s: State, t: State)
    requires CommitLaws.SameCommits(s, t)
    ensures Speaks(s, t)
  {
    hide Speaks;
    SpeaksFrame(s, t);
  }

  lemma PromptSpoke(prompt: QueuedPrompt, body: string)
    ensures Spoke(ItemEntry(PromptItem(prompt))) && Spoke(ItemEntry(Reminder(body)))
    ensures PromptItem(prompt).User?
  {
  }

  lemma ForwardSpeaks(s: State, item: Item, refused: bool)
    requires item.User?
    ensures Speaks(s, Forward(s, [ItemEntry(item)], refused))
  {
    hide Forward, Forwarded, Spoken;
    ForwardForwards(s, [ItemEntry(item)], refused);
    OneItem(item);
    SpokenBehind(Forwarded(s), if s.fate > 0 then [item] else []);
  }

  lemma EndSpeaks(s: State, f: Finish)
    requires s.foldPending.None?
    ensures Speaks(s, EndTurn(s, f))
  {
    hide Append, StartTurn, Compact, Speaks;
    var a := if f.annotate then Append(s, LogOnly) else s;
    NoteSpeaks(s);
    SpeaksFrame(s, s);
    if a.queue != [] {
      var q := a.(queue := a.queue[1..]);
      SpeaksFrame(a, q);
      StartSpeaks(q, a.queue[0], f.start);
      SpeaksTrans(a, q, EndTurn(s, f));
    } else {
      SpeaksFrame(a, EndTurn(s, f));
    }
    SpeaksTrans(s, a, EndTurn(s, f));
  }

  lemma FinishSpeaks(s: State, f: Finish)
    requires s.foldPending.None?
    ensures Speaks(s, Finished(s, f))
  {
    hide Notes, StartTurn, EndTurn, Speaks;
    var g := Notes(s, f.notes);
    NotesSpeak(s, f.notes);
    match f.guidance {
      case Some(text) => StartSpeaks(g, QueuedPrompt(text, [], Some(GoalGuidance)), f.start);
      case None => EndSpeaks(g, f);
    }
    SpeaksTrans(s, g, Finished(s, f));
  }

  /** Behind the closing of its batch a turn's end adds text from the user's side, and no
      more, if no fold waits for it. */
  lemma DeadEndSpeaks(s: State, switched: bool, f: Finish)
    requires s.foldPending.None?
    ensures Speaks(CloseOpenBatch(s), TurnFinished(s, Ended, switched, f))
  {
    hide *;
    var c := CloseOpenBatch(s);
    var r := ReleaseSteers(c);
    var a := if switched then Append(r, LogOnly) else r;
    CloseKeepsFold(s);
    ReleaseSpeaks(c);
    NoteSpeaks(r);
    SameFold(r, Append(r, LogOnly));
    SpeaksTrans(c, r, Append(r, LogOnly));
    FinishSpeaks(a, f);
    TurnFinishedUnfolds(s, Ended, switched, f);
    EndedIsFinished(a, f);
    SpeaksTrans(c, a, Finished(a, f));
  }

  lemma CloseKeepsFold(s: State)
    ensures CloseOpenBatch(s).foldPending == s.foldPending
  {
    hide *;
    CloseUnfolds(s);
    AwaitingCalls(s.items);
    if Awaiting(s.items) {
      var entry := ItemEntry(Repair.Stub(s.items[|s.items| - 1]));
      AppendForwards(s, entry);
      SameFold(s, Append(s, entry));
    }
  }

  lemma EndedIsFinished(s: State, f: Finish)
    ensures OnTurnFinished(s, Ended, f) == Finished(s, f)
  {
    hide Finished;
  }

  // ---- Exactly when the law is kept ---------------------------------------------------------

  /** Every call answered by its own results, right behind it, with none left open. */
  predicate Whole(items: seq<Item>) {
    Paired(items) && Matched(items) && !Awaiting(items)
  }

  /** Speaking makes nothing whole that was not, and breaks nothing that was. */
  lemma SpokenKeepsWhole(a: seq<Item>, b: seq<Item>)
    requires Spoken(a, b)
    ensures Whole(b) <==> Whole(a)
  {
    var more := b[|a|..];
    assert b == a + more;
    UsersFollow(more);
    if Paired(a) { PairedAppend(a, more); }
    if Matched(a) { MatchedAppend(a, more); }
    if Paired(b) { LawfulPrefix(Law(true, false), a, more); }
    if Matched(b) {
      MatchedSlice(b, 0, |a|);
      assert b[0..|a|] == a;
    }
    hide ToolUses, Matched, Adjacent, NoOrphans, Follows;
    assert more == [] ==> a == b;
  }

  lemma UsersFollow(items: seq<Item>)
    requires AllUsers(items)
    ensures Matched(items) && Follows(false, items) && !Awaiting(items)
    ensures items != [] ==> !Follows(true, items) && !items[0].ToolResults?
  {
    hide ToolUses;
  }

  /** A turn that dies on a live log, whatever is in flight, leaves every call answered by its
      own results exactly when the head waits for the very calls that everything forwarded
      waits for. */
  lemma DeadTurnKeepsLawExactly(s: State, switched: bool, f: Finish)
    requires Paired(Forwarded(s)) && Matched(Forwarded(s)) && s.fate > 0 && s.foldPending.None?
    ensures Whole(Forwarded(TurnFinished(s, Ended, switched, f)))
       <==> OpenCalls(s.items) == OpenCalls(Forwarded(s))
  {
    hide *;
    var c, t := CloseOpenBatch(s), TurnFinished(s, Ended, switched, f);
    CloseOpenBatchExactly(s);
    DeadEndSpeaks(s, switched, f);
    SpeaksMeans(c, t);
    SpokenKeepsWhole(Forwarded(c), Forwarded(t));
    WholeIs(Forwarded(c));
  }

  lemma SpeaksMeans(s: State, t: State)
    requires Speaks(s, t)
    ensures Spoken(Forwarded(s), Forwarded(t))
  {
    hide Spoken, Forwarded;
  }

  lemma WholeIs(items: seq<Item>)
    ensures Whole(items) <==> Paired(items) && Answered(items) && Matched(items)
  {
    hide Matched, ToolUses;
    PairedAdjacent(items);
  }

  // ---- A turn that dies on its own call --------------------------------------------------------

  function Plainly(): Finish {
    Finish(true, 0, None, Start(false, false, None), FoldInput(None, [], false, 0, 0))
  }

  function Stop(): HeldSteer {
    HeldSteer("stop", [], Steer, None)
  }

  /** A turn's reply calls a tool and goes out pipelined, a steer is held, and the turn dies
      before the reply's ack is seen. */
  function DyingRun(): seq<Cmd> {
    [ContinueCmd,
     ProposePreparedCmd([ItemEntry(Calling("call"))], false, true, false),
     SteerCmd(Stop()),
     TurnFinishedCmd(Ended, false, Plainly())]
  }

  lemma DyingSteps(s: State)
    ensures var cmds := DyingRun();
            && Run(s, cmds[..0]) == s
            && Run(s, cmds[..1]) == Step(s, cmds[0])
            && Run(s, cmds[..2]) == Step(Step(s, cmds[0]), cmds[1])
            && Run(s, cmds[..3]) == Step(Step(Step(s, cmds[0]), cmds[1]), cmds[2])
            && Run(s, cmds) == Step(Step(Step(Step(s, cmds[0]), cmds[1]), cmds[2]), cmds[3])
  {
    hide Step;
    var cmds := DyingRun();
    assert cmds[..1][..0] == [] && cmds[..2][..1] == cmds[..1] && cmds[..3][..2] == cmds[..2];
    assert cmds[..4] == cmds && cmds[..4][..3] == cmds[..3];
  }

  lemma CallIsForwarded(s: State)
    requires s.items == Asked() && s.fifo == [] && s.fate == 5 && s.held == [] && s.running && !s.turnOpen
    requires s.foldPending.None? && s.queue == []
    ensures var cmd := DyingRun()[1];
            var t := Step(s, cmd);
            && Allowed(s, cmd)
            && t.items == Asked() && Forwarded(t) == Asked() + [Calling("call")] && t.fate == 4
            && t.held == [] && t.running && t.foldPending.None? && t.queue == []
  {
    hide Forward, Forwarded, ToolUses, ItemsOf;
    var entry := ItemEntry(Calling("call"));
    var t := s.(turnOpen := OpenAfter(s.turnOpen, [entry]));
    OneItem(Calling("call"));
    ForwardForwards(t, [entry], false);
    ForwardedFrame(s, t);
    EmptyQueue(s);
    CommitTheorems.PipelinedIsForward(s, [entry]);
  }

  lemma SteerIsHeld(s: State)
    requires s.held == [] && s.running
    ensures Step(s, SteerCmd(Stop())) == s.(held := [Stop()]) && Allowed(s, SteerCmd(Stop()))
  {
  }

  /** Only the last command of that run is more than the environment promises. It closes
      nothing, because the head waits for nothing, and the release drains the call into the
      head and puts the steer right behind it, with no turn left to answer. */
  lemma DeadTurnSplitsBatch()
    ensures var s := Opened(Asked(), 5);
            var t := Run(s, DyingRun());
            && AllAllowed(s, DyingRun()[..3]) && Adjacent(Forwarded(Run(s, DyingRun()[..3])))
            && t.items == Asked() + [Calling("call"), SteerEntry(Stop()).item]
            && !Adjacent(t.items) && !t.running
  {
    hide *;
    var s, cmds := Opened(Asked(), 5), DyingRun();
    AskedOpens();
    DyingCmds();
    DyingSteps(s);
    AskedIdle();
    AskedContinues(s);
    var r := Step(s, cmds[0]);
    CallIsForwarded(r);
    var o := Step(r, cmds[1]);
    SteerIsHeld(o);
    var h := Step(o, cmds[2]);
    ForwardedFrame(o, h);
    DyingPrefixes(s);
    CallOpens();
    DiesOnCall(h);
    SplitAfterAll();
  }

  lemma DyingCmds()
    ensures var cmds := DyingRun();
            && |cmds| == 4 && cmds[0] == ContinueCmd && cmds[2] == SteerCmd(Stop())
            && cmds[3] == TurnFinishedCmd(Ended, false, Plainly())
  {
  }

  lemma AskedIdle()
    ensures var s := Opened(Asked(), 5); s.foldPending.None? && s.queue == [] && !s.turnOpen
  {
    hide Repair.Resume, Tokens;
  }

  lemma DyingPrefixes(s: State)
    requires var cmds := DyingRun();
             && Allowed(s, cmds[0]) && Allowed(Step(s, cmds[0]), cmds[1])
             && Allowed(Step(Step(s, cmds[0]), cmds[1]), cmds[2])
    ensures AllAllowed(s, DyingRun()[..3])
  {
    hide Step, Allowed, Run;
    DyingSteps(s);
    var cmds := DyingRun();
    forall i | 0 <= i < 3
      ensures Allowed(Run(s, cmds[..3][..i]), cmds[..3][i])
    {
      assert cmds[..3][..i] == cmds[..i];
    }
  }

  lemma CallOpens()
    ensures Adjacent(Asked() + [Calling("call")]) && Awaiting(Asked() + [Calling("call")]) && !Awaiting(Asked())
  {
    assert ToolUses([ToolUse("call")]) == ["call"];
  }

  lemma SplitAfterAll()
    ensures !Adjacent(Asked() + [Calling("call"), SteerEntry(Stop()).item])
  {
    var items := Asked() + [Calling("call"), SteerEntry(Stop()).item];
    assert ToolUses([ToolUse("call")]) == ["call"];
    assert Calls(items[1]) && !items[2].ToolResults?;
  }

  lemma DiesOnCall(s: State)
    requires s.items == Asked() && Forwarded(s) == Asked() + [Calling("call")] && s.fate == 4
    requires s.held == [Stop()] && s.foldPending.None? && s.queue == [] && !Awaiting(Asked())
    ensures var t := Step(s, TurnFinishedCmd(Ended, false, Plainly()));
            t.items == Asked() + [Calling("call"), SteerEntry(Stop()).item] && !t.running
  {
    hide *;
    var h := s.(held := []);
    var r := Append(h, SteerEntry(Stop()));
    ForwardedFrame(s, h);
    CloseUnfolds(s);
    CommitLaws.ReleaseUnfolds(s);
    LoneSteer(h);
    SteerEnters(h);
    AppendForwards(h, SteerEntry(Stop()));
    SameFold(h, r);
    DiesInOrder(s, r);
    var a := Append(r, LogOnly);
    AppendForwards(r, LogOnly);
    SameFold(r, a);
    NoteEnters(r);
    EmptyQueue(r);
    EndsPlainly(r, a);
  }

  lemma LoneSteer(s: State)
    ensures AppendSteers(s, [Stop()]) == Append(s, SteerEntry(Stop()))
  {
    hide Append;
    assert [Stop()][1..] == [];
  }

  lemma SteerEnters(s: State)
    requires s.fate > 0
    ensures Entered(s, SteerEntry(Stop())) == [SteerEntry(Stop()).item]
    ensures var steer := SteerEntry(Stop()).item;
            Asked() + [Calling("call")] + [steer] == Asked() + [Calling("call"), steer]
  {
  }

  lemma NoteEnters(s: State)
    ensures Forwarded(s) + Entered(s, LogOnly) == Forwarded(s)
  {
    hide Forwarded;
  }

  lemma DiesInOrder(s: State, r: State)
    requires ReleaseSteers(CloseOpenBatch(s)) == r
    ensures Step(s, TurnFinishedCmd(Ended, false, Plainly())) == Finished(r, Plainly())
  {
    hide Finished, ReleaseSteers, CloseOpenBatch;
  }

  lemma EndsPlainly(s: State, a: State)
    requires a == Append(s, LogOnly) && a.foldPending.None? && a.queue == []
    ensures Finished(s, Plainly()) == a.(running := false, turnOpen := false)
  {
    hide Append;
    assert Notes(s, 0) == s;
  }
}
