/** Opening a session again. The repair is in memory only: the next resume replays the raw
    log and repairs it afresh. When the two agree, and exactly when they do not. */
module Restart {
  import opened Items
  import opened Compaction
  import opened HeldBuffer
  import opened Repair
  import opened Session
  import CommitLaws
  import CommitTheorems
  import History
  import PairingLaws
  import TurnEnds

  // ---- Repair and appending -----------------------------------------------------------

  lemma {:induction false} RegroupQuiet(quiet: seq<Item>, rest: seq<Item>)
    requires forall j :: 0 <= j < |quiet| ==> !Anchor(quiet[j])
    ensures Regroup(quiet + rest) == quiet + Regroup(rest)
  {
    hide Regroup, ToolUses;
    if quiet == [] {
      assert quiet + rest == rest;
      assert quiet + Regroup(rest) == Regroup(rest);
    } else {
      RegroupQuiet(quiet[1..], rest);
      assert quiet + rest == [quiet[0]] + (quiet[1..] + rest);
      RegroupCons(quiet[0], quiet[1..] + rest);
      assert [quiet[0]] + (quiet[1..] + Regroup(rest)) == quiet + Regroup(rest);
    }
  }

  /** Text behind a history whose next results, if any, answer its own calls is regrouped on
      its own. */
  lemma {:induction false} RegroupConcat(items: seq<Item>, more: seq<Item>)
    requires !AnswerAhead(more)
    ensures Regroup(items + more) == Regroup(items) + Regroup(more)
    decreases |items|
  {
    hide Regroup, ToolUses, AnswerAhead, NextAnchor;
    if items == [] {
      RegroupNone();
      assert items + more == more;
      assert [] + Regroup(more) == Regroup(more);
    } else if Calls(items[0]) {
      var quiet, rest := Cut(items);
      if rest == [] {
        RegroupOpenEnd(items[0], quiet, more);
        assert items == [items[0]] + quiet;
        RegroupNone();
        assert Regroup(items) == [items[0]] + quiet;
      } else {
        RegroupConcat(if FirstIsResults(rest) then rest[1..] else rest, more);
        RegroupCallConcat(items[0], quiet, rest, more);
      }
    } else {
      var rest := items[1..];
      RegroupConcat(rest, more);
      assert items == [items[0]] + rest;
      assert items + more == [items[0]] + (rest + more);
      RegroupCons(items[0], rest);
      RegroupCons(items[0], rest + more);
      Assoc([items[0]], Regroup(rest), Regroup(more));
    }
  }

  /** The calling case: whatever the open turn meets first, it meets before `more`. */
  lemma RegroupCallConcat(call: Item, quiet: seq<Item>, rest: seq<Item>, more: seq<Item>)
    requires Calls(call) && rest != [] && Anchor(rest[0])
    requires forall j :: 0 <= j < |quiet| ==> !Anchor(quiet[j])
    requires var tail := if FirstIsResults(rest) then rest[1..] else rest;
             Regroup(tail + more) == Regroup(tail) + Regroup(more)
    ensures Regroup([call] + quiet + rest + more) == Regroup([call] + quiet + rest) + Regroup(more)
  {
    hide *;
    RegroupOpen(call, quiet, rest);
    RegroupOpen(call, quiet, rest + more);
    Assoc([call] + quiet, rest, more);
    FirstIsKept(rest, more);
    if FirstIsResults(rest) {
      Assoc([call, rest[0]] + quiet, Regroup(rest[1..]), Regroup(more));
    } else {
      Assoc([call] + quiet, Regroup(rest), Regroup(more));
    }
  }

  lemma FirstIsKept(rest: seq<Item>, more: seq<Item>)
    requires rest != []
    ensures rest + more != [] && (rest + more)[0] == rest[0] && (rest + more)[1..] == rest[1..] + more
    ensures FirstIsResults(rest + more) == FirstIsResults(rest)
  {
  }

  lemma RegroupNone()
    ensures Regroup([]) == []
  {
  }

  lemma RegroupOpenEnd(call: Item, quiet: seq<Item>, more: seq<Item>)
    requires Calls(call) && !AnswerAhead(more)
    requires forall j :: 0 <= j < |quiet| ==> !Anchor(quiet[j])
    ensures Regroup([call] + quiet + more) == [call] + quiet + Regroup(more)
  {
    hide Regroup, ToolUses, NextAnchor, AnswerAhead;
    var calm, rest := CutQuiet(more);
    assert [call] + quiet + more == [call] + (quiet + calm) + rest;
    assert forall j :: 0 <= j < |quiet + calm| ==> !Anchor((quiet + calm)[j]);
    RegroupOpen(call, quiet + calm, rest);
    RegroupQuiet(calm, rest);
    Assoc([call], quiet, calm);
    Assoc([call] + quiet, calm, Regroup(rest));
  }

  lemma {:induction false} ClosedConcat(items: seq<Item>, more: seq<Item>)
    requires !FirstIsResults(more)
    ensures Closed(items + more) == Closed(items) + Closed(more)
    decreases |items|
  {
    hide Closed, ToolUses, Stub;
    if items == [] {
      ClosedNone();
      assert items + more == more;
      assert [] + Closed(more) == Closed(more);
    } else {
      var all := items + more;
      assert all[1..] == items[1..] + more;
      ClosedStep(items);
      ClosedStep(all);
      ClosedConcat(items[1..], more);
      assert Dangling(all) == Dangling(items) by {
        if items[1..] == [] { assert all[1..] == more; }
      }
      Assoc(if Dangling(items) then [items[0], Stub(items[0])] else [items[0]], Closed(items[1..]), Closed(more));
    }
  }

  lemma ClosedNone()
    ensures Closed([]) == []
  {
  }

  lemma AnswerAheadFirst(more: seq<Item>)
    ensures FirstIsResults(more) ==> AnswerAhead(more)
    ensures Regroup(more) != [] ==> more != [] && Regroup(more)[0] == more[0]
  {
    RegroupTight(more);
  }

  /** Repair distributes over such an append. */
  lemma ResumeConcat(items: seq<Item>, more: seq<Item>)
    requires !AnswerAhead(more)
    ensures Resume(items + more) == Resume(items) + Resume(more)
    ensures Resume(Resume(items) + more) == Resume(items) + Resume(more)
  {
    hide Regroup, Closed, AnswerAhead, ToolUses;
    AnswerAheadFirst(more);
    RegroupConcat(items, more);
    ClosedConcat(Regroup(items), Regroup(more));
    var repaired := Resume(items);
    ResumeAnswersAndSettles(items);
    RegroupConcat(repaired, more);
    ClosedConcat(Regroup(repaired), Regroup(more));
    assert Closed(Regroup(repaired)) == repaired;
  }

  // ---- A session without folds, opened again -------------------------------------------

  /** Between folds and clears the session only adds text from the user's side. */
  predicate Tells(s: State, t: State) {
    s.log <= t.log && (NoRepoint(t.log) ==> TurnEnds.Speaks(s, t))
  }

  lemma TellsTrans(s: State, t: State, u: State)
    requires Tells(s, t) && Tells(t, u)
    ensures Tells(s, u)
  {
    hide TurnEnds.Speaks;
    assert forall i :: 0 <= i < |t.log| ==> t.log[i] == u.log[i];
    if NoRepoint(u.log) { TurnEnds.SpeaksTrans(s, t, u); }
  }

  lemma TellsSpeaking(s: State, t: State)
    requires TurnEnds.Speaks(s, t) && s.log <= t.log
    ensures Tells(s, t)
  {
    hide TurnEnds.Speaks;
  }

  lemma TellsFrame(s: State, t: State)
    requires t.items == s.items && t.fifo == s.fifo && t.log == s.log
    ensures Tells(s, t)
  {
    hide TurnEnds.Speaks;
    TurnEnds.SpeaksFrame(s, t);
  }

  lemma GrownLog(s: State, t: State)
    requires History.Grows(s, t)
    ensures s.log <= t.log
  {
  }

  /** A fold or a clear that goes through shows in the log. */
  lemma CommitRepoints(s: State, payload: Payload, items: seq<Item>)
    requires Repoints(payload)
    ensures Tells(s, if s.fate == 0 then Commit(s, payload) else Repoint(Commit(s, payload), items))
  {
    hide Tokens, PairingLaws.Forwarded;
    if s.fate == 0 {
      PairingLaws.ForwardedFrame(s, Commit(s, payload));
    } else {
      assert (s.log + [payload])[|s.log|] == payload;
    }
  }

  lemma DrainTells(s: State, abort: bool)
    ensures Tells(s, Drain(s, abort))
  {
    hide Drain, PairingLaws.Forwarded;
    PairingLaws.DrainForwards(s, abort);
    CommitLaws.DrainEffect(s, abort);
  }

  lemma CompactTells(s: State, spec: Option<SpecDigest>, focus: Option<string>, input: FoldInput)
    ensures Tells(s, Compact(s, spec, focus, input))
  {
    hide *;
    var d := Drain(s, true);
    DrainTells(s, true);
    CommitLaws.CompactUnfolds(s, spec, focus, input);
    var choice := FoldChoice(d.items, spec, focus, input);
    if choice.Some? {
      var (plan, digest) := choice.value;
      CommitLaws.FoldWithUnfolds(d, plan, digest, input.pins);
      CommitRepoints(d, CompactionEntry(digest, plan.prefixEnd, plan.keptFrom, input.pins),
                     Apply(d.items, plan, digest, input.pins));
      TellsTrans(s, d, Compact(s, spec, focus, input));
    }
  }

  lemma CompactCutTells(s: State, spec: Option<SpecDigest>, focus: Option<string>, input: FoldInput)
    ensures Tells(s, CompactCut(s, spec, focus, input))
  {
    hide *;
    var d := Drain(s, true);
    DrainTells(s, true);
    CommitLaws.CompactCutUnfolds(s, spec, focus, input);
    var choice := FoldChoice(d.items, spec, focus, input);
    if choice.Some? {
      var (plan, digest) := choice.value;
      StrandTells(d, CompactionEntry(digest, plan.prefixEnd, plan.keptFrom, input.pins));
      TellsTrans(s, d, CompactCut(s, spec, focus, input));
    }
  }

  lemma StrandTells(s: State, payload: Payload)
    requires Repoints(payload)
    ensures Tells(s, Strand(s, payload))
  {
    hide PairingLaws.Forwarded;
    PairingLaws.ForwardedFrame(s, Strand(s, payload));
    assert (s.log + [payload])[|s.log|] == payload;
  }

  lemma ClearTells(s: State, ids: seq<string>)
    ensures Tells(s, Clear(s, ids))
  {
    hide Drain, Commit, Repoint, ClearResults, Tells;
    var d := Drain(s, true);
    DrainTells(s, true);
    CommitRepoints(d, ClearedEntry(ids), ClearResults(d.items, ids));
    TellsTrans(s, d, Clear(s, ids));
  }

  lemma {:induction false} DrainSomeTells(s: State, n: nat)
    ensures Tells(s, DrainSome(s, n))
    decreases n
  {
    hide *;
    CommitLaws.DrainSomeUnfolds(s, n);
    TellsFrame(s, s);
    if n > 0 && s.fifo != [] {
      DrainOneTells(s);
      DrainSomeTells(DrainOne(s, true), n - 1);
      TellsTrans(s, DrainOne(s, true), DrainSome(s, n));
    }
  }

  lemma DrainOneTells(s: State)
    requires s.fifo != []
    ensures Tells(s, DrainOne(s, true))
  {
    hide Landed, PairingLaws.Forwarded;
    PairingLaws.LandedForwards(s);
    History.LandedGrows(s);
    PairingLaws.ForwardedFrame(Landed(s), DrainOne(s, true));
  }

  lemma EndTells(s: State, f: Finish)
    ensures Tells(s, EndTurn(s, f))
  {
    hide Append, StartTurn, Compact, Tells, TurnEnds.Speaks, History.Grows;
    var a := if f.annotate then Append(s, LogOnly) else s;
    NoteTells(s);
    TellsFrame(s, s);
    var p := a.(foldPending := None);
    var b := if a.foldPending.Some? then FoldNow(p, a.foldPending.value, f.fold) else a;
    if a.foldPending.Some? {
      TellsFrame(a, p);
      CompactTells(p, None, a.foldPending.value, f.fold);
      TellsTrans(a, p, b);
      TellsTrans(s, a, b);
    }
    if b.queue != [] {
      var q := b.(queue := b.queue[1..]);
      TellsFrame(b, q);
      StartTells(q, b.queue[0], f.start);
      TellsTrans(b, q, EndTurn(s, f));
    } else {
      TellsFrame(b, EndTurn(s, f));
    }
    TellsTrans(s, b, EndTurn(s, f));
  }

  lemma NoteTells(s: State)
    ensures Tells(s, Append(s, LogOnly))
  {
    hide Append, Tells, TurnEnds.Speaks, History.Grows;
    TurnEnds.NoteSpeaks(s);
    History.AppendGrows(s, LogOnly);
    GrownLog(s, Append(s, LogOnly));
    TellsSpeaking(s, Append(s, LogOnly));
  }

  lemma AppendTells(s: State, payload: Payload)
    requires TurnEnds.Spoke(payload)
    ensures Tells(s, Append(s, payload))
  {
    hide Append, Tells, TurnEnds.Speaks, History.Grows;
    TurnEnds.AppendSpeaks(s, payload);
    History.AppendGrows(s, payload);
    GrownLog(s, Append(s, payload));
    TellsSpeaking(s, Append(s, payload));
  }

  lemma StartTells(s: State, prompt: QueuedPrompt, start: Start)
    ensures Tells(s, StartTurn(s, prompt, start))
  {
    hide StartTurn, Tells, TurnEnds.Speaks, History.Grows;
    TurnEnds.StartSpeaks(s, prompt, start);
    History.StartTurnGrows(s, prompt, start);
    GrownLog(s, StartTurn(s, prompt, start));
    TellsSpeaking(s, StartTurn(s, prompt, start));
  }

  lemma ReleaseTells(s: State)
    ensures Tells(s, ReleaseSteers(s))
  {
    hide ReleaseSteers, Tells, TurnEnds.Speaks, History.Grows;
    TurnEnds.ReleaseSpeaks(s);
    History.ReleaseGrows(s);
    GrownLog(s, ReleaseSteers(s));
    TellsSpeaking(s, ReleaseSteers(s));
  }

  lemma FinishTells(s: State, f: Finish)
    ensures Tells(s, Finished(s, f))
  {
    hide Notes, StartTurn, EndTurn, Tells, TurnEnds.Speaks, History.Grows;
    var g := Notes(s, f.notes);
    TurnEnds.NotesSpeak(s, f.notes);
    History.NotesGrows(s, f.notes);
    GrownLog(s, g);
    TellsSpeaking(s, g);
    match f.guidance {
      case Some(text) => StartTells(g, QueuedPrompt(text, [], Some(GoalGuidance)), f.start);
      case None => EndTells(g, f);
    }
    TellsTrans(s, g, Finished(s, f));
  }

  lemma FoldForTurnTells(s: State, spec: Option<SpecDigest>, focus: Option<string>, cancel: Cancel, f: Finish)
    ensures Tells(s, FoldForTurn(s, spec, focus, cancel, f))
  {
    hide Compact, CompactCut, Compacts, Finished, DrainSome, Tells;
    match cancel {
      case Early(drained) =>
        var d := DrainSome(s, drained);
        DrainSomeTells(s, drained);
        FinishTells(d, f);
        TellsTrans(s, d, Finished(d, f));
      case AtEntry =>
        var c := CompactCut(s, spec, focus, f.fold);
        CompactCutTells(s, spec, focus, f.fold);
        FinishTells(c, f);
        TellsTrans(s, c, Finished(c, f));
      case _ =>
        var c := Compact(s, spec, focus, f.fold);
        CompactTells(s, spec, focus, f.fold);
        FinishTells(c, f);
        TellsTrans(s, c, Finished(c, f));
        TellsFrame(c, c.(turnOpen := false));
        TellsTrans(s, c, c.(turnOpen := false));
    }
  }

  lemma OnTurnFinishedTells(s: State, end: TurnEnd, f: Finish)
    ensures Tells(s, OnTurnFinished(s, end, f))
  {
    hide FoldForTurn, Finished, Clear, Tells;
    match end {
      case Ended => FinishTells(s, f);
      case WantsFold(spec, skipped, cancel) =>
        var p, focus := s.(foldPending := None), ParkedFocus(s);
        var adopted := if focus.None? then spec else None;
        TellsFrame(s, p);
        if skipped {
          FinishTells(p, f);
          TellsTrans(s, p, Finished(p, f));
        } else {
          FoldForTurnTells(p, adopted, focus, cancel, f);
          TellsTrans(s, p, FoldForTurn(p, adopted, focus, cancel, f));
        }
      case WantsClear(ids, interrupted) =>
        var c := Clear(s, ids);
        ClearTells(s, ids);
        FinishTells(c, f);
        TellsTrans(s, c, Finished(c, f));
        TellsFrame(c, c.(turnOpen := false));
        TellsTrans(s, c, c.(turnOpen := false));
    }
  }

  lemma TurnEndTells(s: State, end: TurnEnd, switched: bool, f: Finish)
    ensures Tells(CloseOpenBatch(s), TurnFinished(s, end, switched, f))
  {
    hide *;
    var c := CloseOpenBatch(s);
    var r := ReleaseSteers(c);
    var a := if switched then Append(r, LogOnly) else r;
    ReleaseTells(c);
    NoteTells(r);
    TellsTrans(c, r, Append(r, LogOnly));
    OnTurnFinishedTells(a, end, f);
    TellsTrans(c, a, OnTurnFinished(a, end, f));
    PairingLaws.TurnFinishedUnfolds(s, end, switched, f);
  }

  // What is behind the repaired history never opens on results.

  /** What the session added to its seed, until something folds or clears. */
  predicate OpensClean(s: State) {
    NoRepoint(s.log) ==>
      s.seed <= PairingLaws.Forwarded(s) && !AnswerAhead(PairingLaws.Forwarded(s)[|s.seed|..])
  }

  lemma {:induction false} AheadConcat(x: seq<Item>, y: seq<Item>)
    ensures NextAnchor(x) < |x| ==> AnswerAhead(x + y) == AnswerAhead(x)
    ensures NextAnchor(x) == |x| ==> AnswerAhead(x + y) == AnswerAhead(y)
    decreases |x|
  {
    if x == [] {
      assert x + y == y;
    } else {
      assert (x + y)[1..] == x[1..] + y;
      AheadConcat(x[1..], y);
    }
  }

  lemma FollowingIsClean(more: seq<Item>)
    requires Follows(false, more)
    ensures !AnswerAhead(more)
  {
    hide ToolUses;
    var k := NextAnchor(more);
    if 0 < k < |more| { assert !Anchor(more[k - 1]); }
  }

  /** Appending what may follow keeps the opening clean: with no anchor added yet the seed is
      answered, so what follows opens on no results. */
  lemma FollowsClean(seed: seq<Item>, x: seq<Item>, more: seq<Item>)
    requires !Awaiting(seed) && !AnswerAhead(x) && Follows(Awaiting(seed + x), more)
    ensures !AnswerAhead(x + more)
  {
    hide ToolUses, Follows;
    AheadConcat(x, more);
    if NextAnchor(x) == |x| {
      assert x == [] ==> seed + x == seed;
      assert x != [] ==> (seed + x)[|seed + x| - 1] == x[|x| - 1] && !Anchor(x[|x| - 1]);
      FollowingIsClean(more);
    }
  }

  lemma CleanBehind(s: State, t: State, more: seq<Item>)
    requires OpensClean(s) && !Awaiting(s.seed) && t.seed == s.seed && s.log <= t.log
    requires PairingLaws.Forwarded(t) == PairingLaws.Forwarded(s) + more
    requires more == [] || Follows(Awaiting(PairingLaws.Forwarded(s)), more)
    ensures OpensClean(t)
  {
    hide PairingLaws.Forwarded, Follows, AnswerAhead, ToolUses;
    assert forall i :: 0 <= i < |s.log| ==> s.log[i] == t.log[i];
    if NoRepoint(t.log) {
      var before := PairingLaws.Forwarded(s);
      var x := before[|s.seed|..];
      assert before == s.seed + x;
      assert (before + more)[|s.seed|..] == x + more;
      assert more == [] ==> x + more == x;
      if more != [] { FollowsClean(s.seed, x, more); }
    }
  }

  lemma TellsClean(s: State, t: State)
    requires OpensClean(s) && Tells(s, t) && t.seed == s.seed
    ensures OpensClean(t)
  {
    hide PairingLaws.Forwarded, AnswerAhead, ToolUses;
    assert forall i :: 0 <= i < |s.log| ==> s.log[i] == t.log[i];
    if NoRepoint(t.log) {
      var before, after := PairingLaws.Forwarded(s), PairingLaws.Forwarded(t);
      var x, more := before[|s.seed|..], after[|before|..];
      assert before <= after;
      assert after[|s.seed|..] == x + more;
      AheadConcat(x, more);
      UsersAhead(more);
    }
  }

  lemma UsersAhead(items: seq<Item>)
    requires AllUsers(items)
    ensures !AnswerAhead(items)
  {
  }

  lemma ProposeClean(law: PairingLaws.Law, s: State, entries: seq<Payload>, stale: bool, pipelined: bool, refused: bool)
    requires OpensClean(s) && !Awaiting(s.seed) && PairingLaws.PairInv(law, s)
    requires stale || PairingLaws.TurnKeepsOrder(s, entries, pipelined)
    ensures OpensClean(ProposePrepared(s, entries, stale, pipelined, refused))
  {
    hide *;
    ProposeUnfolds(s, entries, stale, pipelined, refused);
    if !stale {
      var t := s.(turnOpen := OpenAfter(s.turnOpen, entries));
      PairingLaws.ForwardedFrame(s, t);
      PairingLaws.PairDef(law, s);
      KeepsOrderDef(s, entries, pipelined);
      PairingLaws.ItemsOfNone(PairingLaws.Forwarded(s));
      if pipelined {
        PairingLaws.ForwardForwards(t, entries, refused);
        History.ForwardGrows(t, entries, refused);
        GrownSeed(t, Forward(t, entries, refused));
        CleanBehind(s, Forward(t, entries, refused), if s.fate > 0 then ItemsOf(entries) else []);
      } else {
        var a := AppendAll(t, entries);
        var n := PairingLaws.AppendAllForwards(t, entries);
        History.AppendAllGrows(t, entries);
        GrownSeed(t, a);
        if s.fate > 0 {
          PairingLaws.PartOfGroup(s.turnOpen, entries, n);
          CleanBehind(s, a, ItemsOf(entries[..n]));
        } else {
          PairingLaws.SealedAppendsNothing(t, entries);
          CleanBehind(s, a, []);
        }
        ReleaseTells(a);
        History.ReleaseGrows(a);
        GrownSeed(a, ReleaseSteers(a));
        TellsClean(a, ReleaseSteers(a));
      }
    }
  }

  lemma GrownSeed(s: State, t: State)
    requires History.Grows(s, t)
    ensures t.seed == s.seed && s.log <= t.log
  {
  }

  lemma ProposeUnfolds(s: State, entries: seq<Payload>, stale: bool, pipelined: bool, refused: bool)
    ensures var t := s.(turnOpen := OpenAfter(s.turnOpen, entries));
            ProposePrepared(s, entries, stale, pipelined, refused)
            == if stale then s
               else if !pipelined then ReleaseSteers(AppendAll(t, entries))
               else if entries == [] then t else Forward(t, entries, refused)
  {
    hide OpenAfter, Forward, AppendAll, ReleaseSteers;
  }

  lemma KeepsOrderDef(s: State, entries: seq<Payload>, pipelined: bool)
    requires PairingLaws.TurnKeepsOrder(s, entries, pipelined)
    ensures s.running && entries != [] && Follows(s.turnOpen, ItemsOf(entries))
  {
    hide Follows, ItemsOf, Awaiting;
  }

  lemma CloseClean(s: State)
    requires OpensClean(s) && !Awaiting(s.seed)
    requires s.fate > 0 ==> PairingLaws.OpenCalls(s.items) == PairingLaws.OpenCalls(PairingLaws.Forwarded(s))
    ensures OpensClean(CloseOpenBatch(s)) && CloseOpenBatch(s).seed == s.seed
  {
    hide *;
    PairingLaws.CloseUnfolds(s);
    PairingLaws.AwaitingCalls(s.items);
    if Awaiting(s.items) {
      var stub := Stub(s.items[|s.items| - 1]);
      PairingLaws.AppendForwards(s, ItemEntry(stub));
      History.AppendGrows(s, ItemEntry(stub));
      GrownSeed(s, Append(s, ItemEntry(stub)));
      PairingLaws.NoOpenCalls(s.items);
      PairingLaws.NoOpenCalls(PairingLaws.Forwarded(s));
      StubIsResults(s.items[|s.items| - 1]);
      PairingLaws.StubFollows(stub);
      EntersIs(s, stub);
      CleanBehind(s, Append(s, ItemEntry(stub)), PairingLaws.Entered(s, ItemEntry(stub)));
    }
  }

  lemma StubIsResults(call: Item)
    requires call.Assistant?
    ensures Stub(call).ToolResults?
  {
  }

  lemma EntersIs(s: State, item: Item)
    ensures PairingLaws.Entered(s, ItemEntry(item)) == if s.fate > 0 then [item] else []
  {
  }

  lemma StepClean(law: PairingLaws.Law, s: State, cmd: Cmd)
    requires OpensClean(s) && !Awaiting(s.seed) && PairingLaws.PairInv(law, s) && PairingLaws.Allowed(s, cmd)
    ensures OpensClean(Step(s, cmd)) && Step(s, cmd).seed == s.seed
  {
    hide *;
    History.StepContinues(s, cmd);
    ContinuedSeed(s, Step(s, cmd));
    AllowedDef(s, cmd);
    match cmd {
      case ProposePreparedCmd(entries, stale, pipelined, refused) =>
        ProposeStep(s, entries, stale, pipelined, refused);
        ProposeClean(law, s, entries, stale, pipelined, refused);
      case ProposeCmd(entries) =>
        ProposeLogStep(s, entries);
        LogOnlyClean(s, entries);
      case TurnFinishedCmd(end, switched, f) =>
        EndStep(s, end, switched, f);
        CloseClean(s);
        TurnEndTells(s, end, switched, f);
        TellsClean(CloseOpenBatch(s), Step(s, cmd));
      case _ =>
        OtherTells(s, cmd);
        TellsClean(s, Step(s, cmd));
    }
  }

  lemma ContinuedSeed(s: State, t: State)
    requires History.Continues(s, t)
    ensures t.seed == s.seed && s.log <= t.log
  {
  }

  lemma AllowedDef(s: State, cmd: Cmd)
    requires PairingLaws.Allowed(s, cmd)
    ensures cmd.ProposePreparedCmd? ==> cmd.stale || PairingLaws.TurnKeepsOrder(s, cmd.entries, cmd.pipelined)
    ensures cmd.ProposeCmd? ==> ItemsOf(cmd.entries) == []
    ensures cmd.TurnFinishedCmd? && s.fate > 0 ==>
              PairingLaws.OpenCalls(s.items) == PairingLaws.OpenCalls(PairingLaws.Forwarded(s))
  {
    hide PairingLaws.TurnKeepsOrder, PairingLaws.SpecPlanned, PairingLaws.OpenCalls, PairingLaws.Forwarded, ItemsOf,
         Awaiting;
  }

  lemma ProposeStep(s: State, entries: seq<Payload>, stale: bool, pipelined: bool, refused: bool)
    ensures Step(s, ProposePreparedCmd(entries, stale, pipelined, refused))
         == ProposePrepared(s, entries, stale, pipelined, refused)
  {
    hide ProposePrepared;
  }

  lemma ProposeLogStep(s: State, entries: seq<Payload>)
    ensures Step(s, ProposeCmd(entries)) == AppendAll(s, entries)
  {
    hide AppendAll;
  }

  lemma EndStep(s: State, end: TurnEnd, switched: bool, f: Finish)
    ensures Step(s, TurnFinishedCmd(end, switched, f)) == TurnFinished(s, end, switched, f)
  {
    hide TurnFinished;
  }

  lemma LogOnlyClean(s: State, entries: seq<Payload>)
    requires OpensClean(s) && !Awaiting(s.seed) && ItemsOf(entries) == []
    ensures OpensClean(AppendAll(s, entries))
  {
    hide *;
    var n := PairingLaws.AppendAllForwards(s, entries);
    NoItemsPart(entries, n);
    History.AppendAllGrows(s, entries);
    GrownSeed(s, AppendAll(s, entries));
    CleanBehind(s, AppendAll(s, entries), []);
  }

  lemma NoItemsPart(entries: seq<Payload>, n: nat)
    requires ItemsOf(entries) == [] && n <= |entries|
    ensures ItemsOf(entries[..n]) == []
  {
    hide ItemsOf;
    assert entries == entries[..n] + entries[n..];
    ItemsOfConcat(entries[..n], entries[n..]);
  }

  /** Every other command at most speaks. */
  lemma OtherTells(s: State, cmd: Cmd)
    requires !cmd.ProposePreparedCmd? && !cmd.ProposeCmd? && !cmd.TurnFinishedCmd?
    ensures Tells(s, Step(s, cmd))
  {
    hide Tells, AckArrives, StartTurn, Append, Compact, Awaiting, Pushed, Queued, Withdrawn, NeedsContinuation,
         Reminder, SteerEntry, PromptItem, ProposePrepared, TurnFinished, AppendAll;
    match cmd {
      case AckCmd => if s.fifo != [] { AckTells(s); } else { TellsFrame(s, s); }
      case PromptCmd(prompt, start) => AdmitTells(s, prompt, start);
      case SteerCmd(steer) => SteerTells(s, steer);
      case NotifyCmd(steer, start) =>
        TellsFrame(s, s.(held := Pushed(s.held, steer)));
        AdmitTells(s, NotifyPrompt(steer), start);
      case UnnotifyCmd(key) => TellsFrame(s, Step(s, cmd));
      case ContinueCmd => TellsFrame(s, Step(s, cmd));
      case NoteCmd => NoteTells(s);
      case SetPlanCmd(body) =>
        var a := Append(s, LogOnly);
        NoteTells(s);
        TurnEnds.PromptSpoke(QueuedPrompt("", [], None), body);
        AppendTells(a, ItemEntry(Reminder(body)));
        TellsTrans(s, a, Append(a, ItemEntry(Reminder(body))));
      case FoldCmd(focus, input) =>
        TellsFrame(s, s.(foldPending := Some(focus)));
        CompactTells(s, None, focus, input);
    }
  }

  lemma AdmitTells(s: State, prompt: QueuedPrompt, start: Start)
    ensures Tells(s, AdmitPrompt(s, prompt, start))
  {
    hide Tells, StartTurn, Queued;
    TellsFrame(s, s.(queue := Queued(s.queue, prompt)));
    StartTells(s, prompt, start);
  }

  lemma SteerTells(s: State, steer: HeldSteer)
    ensures Tells(s, AdmitSteer(s, steer))
  {
    hide Tells, Append, Pushed, Awaiting;
    TellsFrame(s, s.(held := Pushed(s.held, steer)));
    TurnEnds.SteerSpoke(steer);
    AppendTells(s, SteerEntry(steer));
  }

  lemma AckTells(s: State)
    requires s.fifo != []
    ensures Tells(s, AckArrives(s))
  {
    hide *;
    var marked := s.(overtook := s.overtook || Overtakes(s));
    var l := Landed(marked);
    var r := ReleaseSteers(l);
    TellsFrame(s, marked);
    PairingLaws.LandedForwards(marked);
    History.LandedGrows(marked);
    GrownSeed(marked, l);
    TellsSame(marked, l);
    ReleaseTells(l);
    CommitLaws.AckUnfolds(s, r);
    VisibleTells(r, s.fifo[0].at, Settle(s.fifo[0], false));
    TellsTrans(s, marked, l);
    TellsTrans(s, l, r);
    TellsTrans(s, r, AckArrives(s));
  }

  lemma TellsSame(s: State, t: State)
    requires PairingLaws.Forwarded(t) == PairingLaws.Forwarded(s) && s.log <= t.log
    ensures Tells(s, t)
  {
    hide PairingLaws.Forwarded;
  }

  lemma VisibleTells(r: State, ticket: nat, verdict: Verdict)
    ensures Tells(r, Resolve(Publish(r), ticket, verdict))
  {
    hide Tells;
    TellsFrame(r, Resolve(Publish(r), ticket, verdict));
  }

  lemma {:induction false} RunOpensClean(history: seq<Item>, fate: nat, cmds: seq<Cmd>)
    requires PairingLaws.AllAllowed(Opened(history, fate), cmds)
    ensures OpensClean(Run(Opened(history, fate), cmds))
  {
    hide *;
    var o := Opened(history, fate);
    RunUnfolds(o, cmds);
    if cmds == [] {
      OpenedClean(history, fate);
    } else {
      var front, last := cmds[..|cmds| - 1], cmds[|cmds| - 1];
      var law := PairingLaws.Law(Attributable(history, false), false);
      AllowedFront(o, cmds);
      RunOpensClean(history, fate, front);
      AnyLaw(history);
      PairingLaws.RunPairs(law, history, fate, front);
      RunSeed(history, fate, front);
      ResumeAnswersAndSettles(history);
      AnsweredRests(Resume(history));
      StepClean(law, Run(o, front), last);
    }
  }

  lemma RunUnfolds(s: State, cmds: seq<Cmd>)
    ensures Run(s, cmds) == if cmds == [] then s else Step(Run(s, cmds[..|cmds| - 1]), cmds[|cmds| - 1])
  {
    hide Step;
  }

  lemma AllowedFront(s: State, cmds: seq<Cmd>)
    requires PairingLaws.AllAllowed(s, cmds) && cmds != []
    ensures PairingLaws.AllAllowed(s, cmds[..|cmds| - 1])
    ensures PairingLaws.Allowed(Run(s, cmds[..|cmds| - 1]), cmds[|cmds| - 1])
  {
    hide PairingLaws.Allowed, Run;
    var front := cmds[..|cmds| - 1];
    assert forall i :: 0 <= i < |front| ==> front[..i] == cmds[..i] && front[i] == cmds[i];
  }

  lemma AnyLaw(history: seq<Item>)
    ensures PairingLaws.LawHolds(PairingLaws.Law(Attributable(history, false), false), history)
  {
    hide Attributable, Regroup;
  }

  lemma AnsweredRests(items: seq<Item>)
    ensures Answered(items) ==> !Awaiting(items)
  {
    hide ToolUses;
  }

  lemma OpenedClean(history: seq<Item>, fate: nat)
    ensures OpensClean(Opened(history, fate))
  {
    hide Resume, Tokens;
    var s := Opened(history, fate);
    PairingLaws.EmptyQueue(s);
    assert s.items[|s.seed|..] == [];
  }

  /** Until something folds or clears, resuming from the raw log gives what resuming from the
      live session would: the repair, made again, comes out the same, whatever the history. */
  lemma RestartAgreesWithoutFolds(history: seq<Item>, fate: nat, cmds: seq<Cmd>)
    requires PairingLaws.AllAllowed(Opened(history, fate), cmds)
    requires forall i :: 0 <= i < |cmds| ==> CommitLaws.Plain(cmds[i])
    requires NoRepoint(Run(Opened(history, fate), cmds).log)
    ensures var s := Run(Opened(history, fate), cmds);
            Resume(Replay(history, s.log)) == Resume(PairingLaws.Forwarded(s))
  {
    hide *;
    var s := Run(Opened(history, fate), cmds);
    var more := ItemsOf(s.log);
    CommitTheorems.RunReplays(history, fate, cmds);
    NothingStranded(s);
    RunSeed(history, fate, cmds);
    ReplayAppends(s.seed, s.log);
    ReplayAppends(history, s.log);
    ForwardedIs(s);
    RunOpensClean(history, fate, cmds);
    CleanLog(s, more);
    ResumeConcat(history, more);
  }

  /** What is stranded folds or clears. */
  lemma NothingStranded(s: State)
    requires CommitLaws.StrandedOk(s.log, s.stranded) && NoRepoint(s.log)
    ensures s.stranded == {}
  {
    assert forall i :: i in s.stranded ==> !Repoints(s.log[i]);
  }

  lemma CleanLog(s: State, more: seq<Item>)
    requires OpensClean(s) && NoRepoint(s.log) && PairingLaws.Forwarded(s) == s.seed + more
    ensures !AnswerAhead(more)
  {
    hide AnswerAhead, PairingLaws.Forwarded;
    assert (s.seed + more)[|s.seed|..] == more;
  }

  lemma RunSeed(history: seq<Item>, fate: nat, cmds: seq<Cmd>)
    ensures Run(Opened(history, fate), cmds).seed == Resume(history)
  {
    hide Step, Opened, Resume;
    History.RunGrows(Opened(history, fate), cmds, 0);
    OpenedSeed(history, fate);
  }

  lemma OpenedSeed(history: seq<Item>, fate: nat)
    ensures Opened(history, fate).seed == Resume(history)
  {
    hide Resume, Tokens;
  }

  lemma ForwardedIs(s: State)
    ensures PairingLaws.Forwarded(s) == s.items + CommitLaws.OkItems(s.fifo)
  {
  }

  /** The run that strands a fold is one the environment may bring about. */
  lemma StrandingRunIsAllowed()
    ensures PairingLaws.AllAllowed(Opened(CommitTheorems.TwoMessages(), 5), CommitTheorems.StrandingRun())
  {
    hide Opened, Step, BestPlan;
    var s, cmds := Opened(CommitTheorems.TwoMessages(), 5), CommitTheorems.StrandingRun();
    CommitTheorems.MessagesOpen();
    CommitTheorems.ContinueRuns(s);
    CommitTheorems.DigestedIsPlanned();
    assert cmds[..0] == [] && cmds[..1][..0] == [] && cmds[..1] == [cmds[0]];
    assert Run(s, cmds[..1]) == Step(s, cmds[0]);
  }

  /** So is the run in which a ticket overtakes. */
  lemma OvertakingRunIsAllowed()
    ensures PairingLaws.AllAllowed(CommitTheorems.Fresh(), CommitTheorems.OvertakingRun())
  {
    hide Run, Step, Opened, PairingLaws.Allowed, Reminder;
    var cmds := CommitTheorems.OvertakingRun();
    CommitTheorems.ContinueStep();
    CommitTheorems.ReplyStep();
    CommitTheorems.ReplyItems();
    CommitTheorems.ReminderItems();
    PairingLaws.PromptIsQuiet(QueuedPrompt("", [], None), "not yet");
    ProposesInOrder(CommitTheorems.After(1), CommitTheorems.Reply(), Assistant([OtherBlock("done")]));
    ProposesInOrder(CommitTheorems.After(2), [ItemEntry(Reminder("not yet"))], Reminder("not yet"));
    forall i | 0 <= i < |cmds|
      ensures PairingLaws.Allowed(Run(CommitTheorems.Fresh(), cmds[..i]), cmds[i])
    {
      UnconditionallyAllowed(CommitTheorems.After(i), cmds[i]);
    }
  }

  lemma ProposesInOrder(s: State, entries: seq<Payload>, item: Item)
    requires s.running && !s.turnOpen && entries != [] && ItemsOf(entries) == [item]
    requires !Calls(item) && !item.ToolResults?
    ensures PairingLaws.Allowed(s, ProposePreparedCmd(entries, false, true, false))
  {
    hide ItemsOf;
  }

  lemma UnconditionallyAllowed(s: State, cmd: Cmd)
    ensures cmd.ContinueCmd? || cmd.SteerCmd? || cmd.AckCmd? ==> PairingLaws.Allowed(s, cmd)
  {
  }

  // ---- A fold over a repaired history ----------------------------------------------------

  /** How many calls of a history nothing answered. */
  function Danglings(items: seq<Item>): nat {
    if items == [] then 0 else (if Dangling(items) then 1 else 0) + Danglings(items[1..])
  }

  lemma {:induction false} ClosedLength(items: seq<Item>)
    ensures |Closed(items)| == |items| + Danglings(items)
  {
    if items == [] {
      ClosedNone();
    } else {
      hide Closed, ToolUses, Stub;
      ClosedStep(items);
      ClosedLength(items[1..]);
    }
  }

  /** Every call before index `k` has its results right behind it. */
  predicate AnsweredBefore(items: seq<Item>, k: nat) {
    forall i :: 0 <= i < k && i < |items| && Calls(items[i]) ==> i + 1 < |items| && items[i + 1].ToolResults?
  }

  lemma AnsweredShift(items: seq<Item>, k: nat)
    requires 0 < k <= |items|
    ensures AnsweredBefore(items, k) <==> !Dangling(items) && AnsweredBefore(items[1..], k - 1)
  {
    hide Calls;
    var rest := items[1..];
    assert forall i :: 0 <= i < |rest| ==> rest[i] == items[i + 1];
    if AnsweredBefore(items, k) {
      forall i | 0 <= i < k - 1 && i < |rest| && Calls(rest[i])
        ensures i + 1 < |rest| && rest[i + 1].ToolResults?
      {
        assert Calls(items[i + 1]);
      }
    }
    if AnsweredBefore(rest, k - 1) && !Dangling(items) {
      forall i | 0 <= i < k && i < |items| && Calls(items[i])
        ensures i + 1 < |items| && items[i + 1].ToolResults?
      {
        if i > 0 { assert Calls(rest[i - 1]); }
      }
    }
  }

  /** Cutting off `k` items loses a dangling call exactly when one came before the cut. */
  lemma {:induction false} DanglingsAfter(items: seq<Item>, k: nat)
    requires k <= |items|
    ensures Danglings(items[k..]) <= Danglings(items)
    ensures Danglings(items[k..]) == Danglings(items) <==> AnsweredBefore(items, k)
    decreases k
  {
    if k == 0 {
      assert items[0..] == items;
    } else {
      DanglingsAfter(items[1..], k - 1);
      AnsweredShift(items, k);
      hide AnsweredBefore, Dangling;
      assert items[1..][k - 1..] == items[k..];
    }
  }

  /** Up to the first dangling call, closing changes nothing. */
  lemma {:induction false} ClosedPrefix(items: seq<Item>, k: nat)
    requires k <= |items| && AnsweredBefore(items, k)
    ensures Closed(items) == items[..k] + Closed(items[k..])
    decreases k
  {
    hide Closed, Dangling, AnsweredBefore, Stub;
    if k == 0 {
      assert items[0..] == items && items[..0] == [];
      assert [] + Closed(items) == Closed(items);
    } else {
      var rest := items[1..];
      ClosedStep(items);
      AnsweredShift(items, k);
      ClosedPrefix(rest, k - 1);
      assert rest[k - 1..] == items[k..];
      assert items[..k] == [items[0]] + rest[..k - 1];
      Assoc([items[0]], rest[..k - 1], Closed(items[k..]));
    }
  }

  lemma {:induction false} PrefixLenIs(items: seq<Item>, p: nat)
    requires p < |items| && !Preserved(items[p]) && forall i :: 0 <= i < p ==> Preserved(items[i])
    ensures PreservedPrefixLen(items) == p
  {
    if p > 0 { PrefixLenIs(items[1..], p - 1); }
  }

  lemma {:induction false} ClosedQuiet(quiet: seq<Item>, rest: seq<Item>)
    requires forall j :: 0 <= j < |quiet| ==> !Anchor(quiet[j])
    ensures Closed(quiet + rest) == quiet + Closed(rest)
    decreases |quiet|
  {
    hide Closed, ToolUses, Stub;
    var all := quiet + rest;
    assert AnsweredBefore(all, |quiet|);
    ClosedPrefix(all, |quiet|);
    assert all[|quiet|..] == rest && all[..|quiet|] == quiet;
  }

  /** Resuming what the store makes of a fold: quiet front, the tail the raw indices name. */
  lemma ResumeQuietFront(front: seq<Item>, tail: seq<Item>)
    requires forall j :: 0 <= j < |front| ==> !Anchor(front[j])
    ensures Resume(front + tail) == front + Closed(Regroup(tail))
  {
    hide Closed, Regroup, ToolUses;
    RegroupQuiet(front, tail);
    ClosedQuiet(front, Regroup(tail));
  }

  // ---- A cut through a batch --------------------------------------------------------------

  /** Some calling turn has no assistant turn or results behind it. */
  predicate OpenCall(items: seq<Item>) {
    exists i :: 0 <= i < |items| && Calls(items[i]) && forall j :: i < j < |items| ==> !Anchor(items[j])
  }

  /** A batch of `a` finds its results in `b`, with something in between. */
  predicate Straddles(a: seq<Item>, b: seq<Item>) {
    OpenCall(a) && AnswerAhead(b) && !(Awaiting(a) && FirstIsResults(b))
  }

  /** A cut before index `k` tears a batch the repair would regroup. */
  predicate SplitsBatch(items: seq<Item>, k: nat) {
    k <= |items| && Straddles(items[..k], items[k..])
  }

  lemma OpenCallTail(items: seq<Item>, rest: seq<Item>)
    requires rest != [] && |rest| <= |items| && items[|items| - |rest|..] == rest
    ensures OpenCall(rest) ==> OpenCall(items)
  {
    hide Calls, Anchor;
    if OpenCall(rest) {
      var i :| 0 <= i < |rest| && Calls(rest[i]) && forall j :: i < j < |rest| ==> !Anchor(rest[j]);
      var d := |items| - |rest|;
      assert forall j :: 0 <= j < |rest| ==> rest[j] == items[d + j];
      assert Calls(items[d + i]);
      assert forall j :: d + i < j < |items| ==> items[j] == rest[j - d];
    }
  }

  lemma OpenCallQuiet(call: Item, quiet: seq<Item>)
    requires Calls(call) && forall j :: 0 <= j < |quiet| ==> !Anchor(quiet[j])
    ensures OpenCall([call] + quiet)
  {
    hide Calls, Anchor;
    var all := [call] + quiet;
    assert Calls(all[0]) && forall j :: 0 < j < |all| ==> all[j] == quiet[j - 1];
  }

  /** Behind a history with no open call, anything is regrouped on its own. */
  lemma {:induction false} RegroupSettled(items: seq<Item>, more: seq<Item>)
    requires !OpenCall(items)
    ensures Regroup(items + more) == Regroup(items) + Regroup(more)
    decreases |items|
  {
    hide *;
    if items == [] {
      RegroupNone();
      assert items + more == more;
      assert [] + Regroup(more) == Regroup(more);
    } else if Calls(items[0]) {
      var quiet, rest := Cut(items);
      assert items == [items[0]] + quiet + rest;
      OpenCallQuiet(items[0], quiet);
      assert [items[0]] + quiet + [] == [items[0]] + quiet;
      var tail := if FirstIsResults(rest) then rest[1..] else rest;
      assert items[|items| - |tail|..] == tail;
      if tail == [] { NoOpenCall(); } else { OpenCallTail(items, tail); }
      RegroupSettled(tail, more);
      RegroupCallConcat(items[0], quiet, rest, more);
    } else {
      var rest := items[1..];
      if rest == [] { NoOpenCall(); } else { OpenCallTail(items, rest); }
      RegroupSettled(rest, more);
      assert items == [items[0]] + rest;
      assert items + more == [items[0]] + (rest + more);
      RegroupCons(items[0], rest);
      RegroupCons(items[0], rest + more);
      Assoc([items[0]], Regroup(rest), Regroup(more));
    }
  }

  lemma NoOpenCall()
    ensures !OpenCall([])
  {
  }

  /** A calling turn starts a run that is regrouped on its own. */
  lemma CallStartsAnew(call: Item, rest: seq<Item>)
    requires Calls(call)
    ensures !AnswerAhead([call] + rest) && !FirstIsResults([call] + rest)
  {
    hide ToolUses;
    assert Anchor(([call] + rest)[0]);
  }

  /** A cut through no batch commutes with regrouping. */
  lemma RegroupAcross(a: seq<Item>, b: seq<Item>)
    requires !Straddles(a, b)
    ensures Regroup(a + b) == Regroup(a) + Regroup(b)
  {
    hide *;
    StraddlesDef(a, b);
    if !OpenCall(a) {
      RegroupSettled(a, b);
    } else if !AnswerAhead(b) {
      RegroupConcat(a, b);
    } else {
      var front, call := LastCall(a);
      FirstIs(b);
      assert a + b == front + ([call] + b);
      CallStartsAnew(call, b);
      CallStartsAnew(call, []);
      RegroupConcat(front, [call] + b);
      RegroupConcat(front, [call] + []);
      assert [call] + [] == [call];
      RegroupPair(call, b[0], b[1..]);
      Assoc(Regroup(front), [call], Regroup(b));
    }
  }

  lemma StraddlesDef(a: seq<Item>, b: seq<Item>)
    ensures Straddles(a, b) <==> OpenCall(a) && AnswerAhead(b) && !(Awaiting(a) && FirstIsResults(b))
  {
    hide OpenCall, AnswerAhead, Awaiting, FirstIsResults;
  }

  lemma LastCall(items: seq<Item>) returns (front: seq<Item>, call: Item)
    requires Awaiting(items)
    ensures items == front + [call] && Calls(call)
  {
    hide Calls;
    front, call := items[..|items| - 1], items[|items| - 1];
  }

  lemma RegroupPair(call: Item, r: Item, rest: seq<Item>)
    requires Calls(call) && r.ToolResults?
    ensures Regroup([call]) == [call]
    ensures Regroup([call] + ([r] + rest)) == [call] + Regroup([r] + rest)
  {
    hide Regroup, ToolUses;
    RegroupNone();
    RegroupOpen(call, [], []);
    assert [call] + [] + [] == [call] && [call] + [] + Regroup([]) == [call];
    RegroupOpen(call, [], [r] + rest);
    assert ([r] + rest)[1..] == rest;
    assert [call] + [] + ([r] + rest) == [call] + ([r] + rest);
    RegroupCons(r, rest);
    assert [call, r] + [] + Regroup(rest) == [call] + ([r] + Regroup(rest));
  }

  /** A torn batch, spread out. */
  lemma Torn(a: seq<Item>, b: seq<Item>)
    returns (front: seq<Item>, call: Item, q1: seq<Item>, q2: seq<Item>, r: Item, back: seq<Item>)
    requires Straddles(a, b)
    ensures a == front + [call] + q1 && b == q2 + [r] + back
    ensures Calls(call) && r.ToolResults? && q1 + q2 != []
    ensures forall j :: 0 <= j < |q1 + q2| ==> !Anchor((q1 + q2)[j])
    ensures forall j :: 0 <= j < |q2| ==> !Anchor(q2[j])
  {
    hide Calls;
    var i :| 0 <= i < |a| && Calls(a[i]) && forall j :: i < j < |a| ==> !Anchor(a[j]);
    front, call, q1 := a[..i], a[i], a[i + 1..];
    var k := NextAnchor(b);
    q2, r, back := b[..k], b[k], b[k + 1..];
    assert forall j :: 0 <= j < |q1 + q2| ==> (q1 + q2)[j] == if j < |q1| then a[i + 1 + j] else b[j - |q1|];
  }

  lemma RegroupTorn(front: seq<Item>, call: Item, q1: seq<Item>, q2: seq<Item>, r: Item, back: seq<Item>)
    requires Calls(call) && r.ToolResults?
    requires forall j :: 0 <= j < |q1 + q2| ==> !Anchor((q1 + q2)[j])
    requires forall j :: 0 <= j < |q2| ==> !Anchor(q2[j])
    ensures Regroup(front + [call] + q1 + (q2 + [r] + back))
         == Regroup(front) + ([call, r] + (q1 + q2) + Regroup(back))
    ensures Regroup(q2 + [r] + back) == q2 + ([r] + Regroup(back))
  {
    hide *;
    var rest := [r] + back;
    Spread(front, [call], q1, q2, [r], back);
    FirstOf(r, back);
    CallStartsAnew(call, (q1 + q2) + rest);
    RegroupConcat(front, [call] + ((q1 + q2) + rest));
    Assoc([call], q1 + q2, rest);
    RegroupOpen(call, q1 + q2, rest);
    Assoc(q2, [r], back);
    ResultsCallNothing(r);
    RegroupQuiet(q2, rest);
    RegroupCons(r, back);
  }

  lemma Spread<T>(a: seq<T>, b: seq<T>, c: seq<T>, d: seq<T>, e: seq<T>, f: seq<T>)
    ensures a + b + c + (d + e + f) == a + (b + ((c + d) + (e + f)))
  {
  }

  lemma FirstOf(r: Item, back: seq<Item>)
    ensures ([r] + back)[0] == r && ([r] + back)[1..] == back && [r] + back != []
    ensures r.ToolResults? ==> FirstIsResults([r] + back) && Anchor(r)
  {
  }

  lemma ResultsCallNothing(r: Item)
    ensures r.ToolResults? ==> !Calls(r)
  {
  }

  lemma ClosedResults(r: Item, rest: seq<Item>)
    requires r.ToolResults?
    ensures Closed([r] + rest) == [r] + Closed(rest)
  {
    hide *;
    FirstOf(r, rest);
    ResultsCallNothing(r);
    DanglingDef([r] + rest);
    ClosedStep([r] + rest);
  }

  lemma ClosedAnsweredCall(call: Item, r: Item, quiet: seq<Item>, rest: seq<Item>)
    requires Calls(call) && r.ToolResults? && forall j :: 0 <= j < |quiet| ==> !Anchor(quiet[j])
    ensures Closed([call, r] + quiet + rest) == [call, r] + quiet + Closed(rest)
  {
    hide *;
    var more := quiet + rest;
    Pairwise(call, r, quiet, rest);
    Pairwise(call, r, quiet, Closed(rest));
    FirstOf(call, [r] + more);
    FirstOf(r, more);
    DanglingDef([call] + ([r] + more));
    ClosedStep([call] + ([r] + more));
    ClosedResults(r, more);
    ClosedQuiet(quiet, rest);
  }

  lemma Pairwise<T>(a: T, b: T, c: seq<T>, d: seq<T>)
    ensures [a, b] + c + d == [a] + ([b] + (c + d))
  {
  }

  lemma RegroupLength(items: seq<Item>)
    ensures |Regroup(items)| == |items|
  {
    hide Regroup;
    RegroupMultiset(items);
    assert |multiset(items)| == |items| && |multiset(Regroup(items))| == |Regroup(items)|;
  }

  /** Behind a torn batch the live tail and the raw one disagree, in length or on where the
      results stand. */
  lemma TornTailsDiffer(front: seq<Item>, call: Item, q1: seq<Item>, q2: seq<Item>, r: Item, back: seq<Item>, k: nat)
    requires Calls(call) && r.ToolResults? && q1 + q2 != []
    requires forall j :: 0 <= j < |q1 + q2| ==> !Anchor((q1 + q2)[j])
    requires forall j :: 0 <= j < |q2| ==> !Anchor(q2[j])
    requires k == |front| + 1 + |q1|
    ensures var live := Closed(Regroup(front) + ([call, r] + (q1 + q2) + Regroup(back)));
            k <= |live| && live[k..] != Closed(q2 + ([r] + Regroup(back)))
  {
    hide Regroup, Closed, Danglings, ToolUses;
    var f, t := Regroup(front), Regroup(back);
    var batch := [call, r] + (q1 + q2) + t;
    assert batch == [call] + ([r] + (q1 + q2) + t);
    CallStartsAnew(call, [r] + (q1 + q2) + t);
    ClosedConcat(f, batch);
    ClosedAnsweredCall(call, r, q1 + q2, t);
    ClosedQuiet(q2, [r] + t);
    ClosedResults(r, t);
    ClosedLength(f);
    RegroupLength(front);
    var live, raw := Closed(f) + ([call, r] + (q1 + q2) + Closed(t)), q2 + ([r] + Closed(t));
    if Danglings(f) == 0 {
      assert live[k..][|q2|] == (q1 + q2)[|q1 + q2| - 1];
      assert raw[|q2|] == r;
    } else {
      assert |live[k..]| == |raw| + Danglings(f);
    }
  }

  /** Where the store, which clamps, makes a cut. */
  function Cutoff(items: seq<Item>, k: nat): (cut: nat)
    ensures cut <= |items|
  {
    if k <= |items| then k else |items|
  }

  // ---- Where raw and live folds agree ---------------------------------------------------------

  lemma CutoffIs(items: seq<Item>, k: nat)
    ensures k <= |items| ==> Cutoff(items, k) == k
  {
  }

  /** A closed history cut at `k` is the closed tail exactly when no call before the cut was
      left for the closing to answer. */
  lemma ClosedTails(items: seq<Item>, k: nat)
    requires k < |Closed(items)|
    ensures Closed(items[Cutoff(items, k)..]) == Closed(items)[k..] <==> AnsweredBefore(items, k)
    ensures AnsweredBefore(items, k) ==> k <= |items| && Closed(items)[..k] == items[..k]
  {
    hide Closed, ToolUses;
    var cut := Cutoff(items, k);
    var tail := items[cut..];
    DanglingsAfter(items, cut);
    ClosedLength(items);
    ClosedLength(tail);
    AnsweredCut(items, k, cut);
    NoDanglings();
    if AnsweredBefore(items, cut) {
      ClosedPrefix(items, cut);
      assert Closed(items)[k..] == Closed(tail);
    } else {
      assert |Closed(items)[k..]| == |items| + Danglings(items) - k;
    }
  }

  lemma NoDanglings()
    ensures Danglings([]) == 0
  {
  }

  lemma AnsweredCut(history: seq<Item>, k: nat, cut: nat)
    requires cut == Cutoff(history, k)
    ensures AnsweredBefore(history, cut) == AnsweredBefore(history, k)
  {
    hide Calls;
  }

  /** Cutting the raw history and repairing the tail is repairing and cutting there, exactly when
      the cut leaves nothing, or has no unanswered call before it and tears no batch. */
  lemma TailsAgreeExactly(history: seq<Item>, k: nat)
    requires k <= |Resume(history)|
    ensures Closed(Regroup(history[Cutoff(history, k)..])) == Resume(history)[k..]
       <==> k == |Resume(history)| || (AnsweredBefore(Regroup(history), k) && !SplitsBatch(history, k))
  {
    hide Closed, Regroup, Straddles, AnsweredBefore;
    var cut := Cutoff(history, k);
    var a, b, grouped := history[..cut], history[cut..], Regroup(history);
    assert history == a + b;
    RegroupLength(history);
    RegroupLength(a);
    ClosedLength(grouped);
    if k == |Resume(history)| {
      RegroupNone();
      ClosedNone();
      assert b == [];
    } else if Straddles(a, b) {
      StraddlesMore(a, b);
      var front, call, q1, q2, r, back := Torn(a, b);
      RegroupTorn(front, call, q1, q2, r, back);
      TornTailsDiffer(front, call, q1, q2, r, back, k);
    } else {
      RegroupAcross(a, b);
      assert grouped[cut..] == Regroup(b);
      ClosedTails(grouped, k);
    }
  }

  lemma StraddlesMore(a: seq<Item>, b: seq<Item>)
    requires Straddles(a, b)
    ensures a != [] && b != []
  {
  }

  lemma SameFront(front: seq<Item>, a: seq<Item>, b: seq<Item>)
    ensures front + a == front + b <==> a == b
  {
    assert a == (front + a)[|front|..] && b == (front + b)[|front|..];
  }

  /** A fold is logged with indices into the repaired projection, and replayed over the raw
      history. Resuming after it gives back the live projection exactly when the fold keeps no
      tail, or its cut has no unanswered call before it and tears no batch; otherwise the
      repair's own insertions and moves shift the indices, and items that were kept are folded
      away. */
  lemma FoldOverRepairExactly(history: seq<Item>, plan: Plan, digest: seq<Item>)
    requires AllUsers(digest)
    requires plan.prefixEnd == PreservedPrefixLen(Resume(history))
    requires plan.prefixEnd < plan.keptFrom <= |Resume(history)|
    ensures Resume(ReplayFold(history, digest, plan.prefixEnd, plan.keptFrom, []))
            == Apply(Resume(history), plan, digest, [])
       <==> || plan.keptFrom == |Resume(history)|
            || (AnsweredBefore(Regroup(history), plan.keptFrom) && !SplitsBatch(history, plan.keptFrom))
  {
    hide *;
    var p, k := plan.prefixEnd, plan.keptFrom;
    RepairedPrefix(history);
    var cut := Cutoff(history, k);
    RawFold(history, digest, p, k, cut);
    LiveFold(Resume(history), plan, digest);
    QuietFront(history, p, digest);
    ResumeQuietFront(history[..p] + digest, history[cut..]);
    TailsAgreeExactly(history, k);
    SameFront(history[..p] + digest, Closed(Regroup(history[cut..])), Resume(history)[k..]);
  }

  lemma RepairedPrefix(history: seq<Item>)
    requires PreservedPrefixLen(Resume(history)) < |Resume(history)|
    ensures var p := PreservedPrefixLen(Resume(history));
            && p <= |history| && Resume(history)[..p] == history[..p]
            && forall i :: 0 <= i < p ==> Preserved(history[i])
  {
    hide Closed, Regroup, ToolUses, PreservedPrefixLen;
    var q := PreservedPrefixLen(history);
    var front, rest := history[..q], history[q..];
    assert history == front + rest;
    ResumeQuietFront(front, rest);
    RegroupTight(rest);
    ClosedAnswers(Regroup(rest));
    var live := Resume(history);
    assert live[..q] == front;
    RegroupNone();
    ClosedNone();
    assert rest == [] ==> live == history;
    if rest != [] {
      assert live[q] == rest[0] == history[q];
      PrefixLenIs(live, q);
    }
  }

  lemma QuietFront(history: seq<Item>, p: nat, digest: seq<Item>)
    requires p <= |history| && AllUsers(digest) && forall i :: 0 <= i < p ==> Preserved(history[i])
    ensures forall j :: 0 <= j < |history[..p] + digest| ==> !Anchor((history[..p] + digest)[j])
  {
  }

  lemma RawFold(history: seq<Item>, digest: seq<Item>, p: nat, k: nat, cut: nat)
    requires p <= |history| && p < k && cut == Cutoff(history, k)
    ensures ReplayFold(history, digest, p, k, []) == history[..p] + digest + history[cut..]
  {
    assert history[..cut][..p] == history[..p];
    assert history[..p] + digest + [] == history[..p] + digest;
  }

  lemma LiveFold(live: seq<Item>, plan: Plan, digest: seq<Item>)
    requires plan.prefixEnd <= plan.keptFrom <= |live|
    ensures Apply(live, plan, digest, []) == live[..plan.prefixEnd] + digest + live[plan.keptFrom..]
  {
    assert live[..plan.prefixEnd] + digest + [] == live[..plan.prefixEnd] + digest;
  }

  // ---- Pins ------------------------------------------------------------------------------------

  /** Pinned text is read off the results alone, in their order. */
  lemma {:induction false} PinnedForResults(items: seq<Item>, pin: string)
    ensures PinnedFor(items, pin) == PinnedFor(Keep(OnlyResults, items), pin)
  {
    hide PinnedResults;
    if items != [] {
      PinnedForResults(items[1..], pin);
      if items[0].ToolResults? {
        assert Keep(OnlyResults, items)[1..] == Keep(OnlyResults, items[1..]);
      } else {
        assert [] + PinnedFor(items[1..], pin) == PinnedFor(items[1..], pin);
      }
    }
  }

  lemma {:induction false} PinnedSame(a: seq<Item>, b: seq<Item>, pins: seq<string>)
    requires Keep(OnlyResults, a) == Keep(OnlyResults, b)
    ensures PinnedItems(a, pins) == PinnedItems(b, pins)
    decreases |pins|
  {
    if pins != [] {
      PinnedForResults(a, pins[0]);
      PinnedForResults(b, pins[0]);
      PinnedSame(a, b, pins[1..]);
    }
  }

  /** Where the cut meets that condition, pinned results come back the same too. */
  lemma FoldOverRepairKeepsPins(history: seq<Item>, plan: Plan, digest: seq<Item>, pins: seq<string>)
    requires AllUsers(digest)
    requires plan.prefixEnd == PreservedPrefixLen(Resume(history))
    requires plan.prefixEnd < plan.keptFrom < |Resume(history)|
    requires AnsweredBefore(Regroup(history), plan.keptFrom) && !SplitsBatch(history, plan.keptFrom)
    ensures Resume(ReplayFold(history, digest, plan.prefixEnd, plan.keptFrom, pins))
         == Apply(Resume(history), plan, digest, pins)
  {
    hide *;
    var p, k := plan.prefixEnd, plan.keptFrom;
    var live := Resume(history);
    RepairedPrefix(history);
    TailsAgreeExactly(history, k);
    CutoffIs(history, k);
    SpanRegrouped(history, p, k);
    RegroupKeeps(OnlyResults, history[p..k]);
    PinnedSame(live[p..k], history[p..k], pins);
    PinnedFold(history, plan, digest, pins);
    ResumeQuietFront(history[..p] + digest + PinnedItems(history[p..k], pins), history[k..]);
    ApplyIs(live, plan, digest, pins);
  }

  /** The folded span of the live projection is the raw one regrouped. */
  lemma SpanRegrouped(history: seq<Item>, p: nat, k: nat)
    requires p <= k < |Resume(history)| && p <= |history|
    requires forall i :: 0 <= i < p ==> Preserved(history[i])
    requires AnsweredBefore(Regroup(history), k) && !SplitsBatch(history, k)
    ensures k <= |history| && Resume(history)[p..k] == Regroup(history[p..k])
  {
    hide Closed, Regroup, AnsweredBefore, Straddles;
    var grouped := Regroup(history);
    RegroupLength(history);
    ClosedTails(grouped, k);
    var a, b := history[..k], history[k..];
    assert history == a + b;
    RegroupAcross(a, b);
    RegroupLength(a);
    assert grouped[..k] == Regroup(a);
    var front, span := history[..p], history[p..k];
    assert a == front + span;
    RegroupQuiet(front, span);
    assert Resume(history)[p..k] == Resume(history)[..k][p..];
  }

  lemma PinnedFold(history: seq<Item>, plan: Plan, digest: seq<Item>, pins: seq<string>)
    requires plan.prefixEnd <= plan.keptFrom <= |history| && AllUsers(digest)
    requires forall i :: 0 <= i < plan.prefixEnd ==> Preserved(history[i])
    ensures var front := history[..plan.prefixEnd] + digest
                         + PinnedItems(history[plan.prefixEnd..plan.keptFrom], pins);
            && ReplayFold(history, digest, plan.prefixEnd, plan.keptFrom, pins) == front + history[plan.keptFrom..]
            && forall j :: 0 <= j < |front| ==> !Anchor(front[j])
  {
    hide PinnedItems;
    ReplayFoldIsApply(history, plan, digest, pins);
  }

  lemma ApplyIs(live: seq<Item>, plan: Plan, digest: seq<Item>, pins: seq<string>)
    requires plan.prefixEnd <= plan.keptFrom <= |live|
    ensures Apply(live, plan, digest, pins)
         == live[..plan.prefixEnd] + digest + PinnedItems(live[plan.prefixEnd..plan.keptFrom], pins)
            + live[plan.keptFrom..]
  {
    hide PinnedItems;
  }

  /** A crash leaves a call unanswered and the user speaks twice more. The next session
      answers the call in memory, folds everything before the two messages, and logs it. The
      session after that has lost the first of them. */
  lemma FoldOverRepairLosesText(ask: Item, call: Item, first: Item, second: Item, digest: Item)
    requires ask.User? && Calls(call) && first.User? && second.User? && digest.User?
    requires ask.synthetic.None?
    ensures var history := [ask, call, first, second];
            && Resume(history) == [ask, call, Stub(call), first, second]
            && (exists tailBudget: nat, imageBudget: nat ::
                  BestPlan(Resume(history), tailBudget, imageBudget, Plan(0, 3)))
            && Apply(Resume(history), Plan(0, 3), [digest], []) == [digest, first, second]
            && Resume(ReplayFold(history, [digest], 0, 3, [])) == [digest, second]
  {
    var history := [ask, call, first, second];
    hide ToolUses, Stub, BestPlan;
    ExampleRepairs(ask, call, first, second);
    StubIsResults(call);
    ExamplePlan(ask, call, Stub(call), first, second);
    assert ReplayFold(history, [digest], 0, 3, []) == [digest, second];
    ResumeQuietFront([digest, second], []);
    RegroupNone();
    ClosedNone();
    assert [digest, second] + [] == [digest, second];
  }

  /** Budgets the two messages just fill make that cut the planner's choice. */
  lemma ExamplePlan(ask: Item, call: Item, stub: Item, first: Item, second: Item)
    requires ask.User? && ask.synthetic.None? && Calls(call) && stub.ToolResults? && first.User? && second.User?
    ensures var items := [ask, call, stub, first, second];
            BestPlan(items, Tokens(items[3..]), ImageBytes(items[3..]), Plan(0, 3))
  {
    hide ToolUses, Tokens, ImageBytes;
    var items := [ask, call, stub, first, second];
    ExampleWeighs(call, stub, [first, second]);
    assert items[1..] == [call, stub] + [first, second] && items[3..] == [first, second];
    forall b: nat | Boundary(items, b) && Fits(items, b, Tokens(items[3..]), ImageBytes(items[3..]))
      ensures 3 <= b
    {
      assert b != 2;
    }
  }

  lemma ExampleWeighs(call: Item, stub: Item, tail: seq<Item>)
    ensures Tokens([call, stub] + tail) > Tokens(tail)
  {
    TokensConcat([call, stub], tail);
    assert ItemTokens(call) >= ITEM_OVERHEAD;
    assert Tokens([call, stub]) == ItemTokens(call) + Tokens([call, stub][1..]);
  }

  lemma ExampleRepairs(ask: Item, call: Item, first: Item, second: Item)
    requires ask.User? && Calls(call) && first.User? && second.User?
    ensures Resume([ask, call, first, second]) == [ask, call, Stub(call), first, second]
  {
    hide Closed, Regroup, Tight, ToolUses, Stub;
    var history, tail := [ask, call, first, second], [first, second];
    TightAlone(call, tail);
    TightIsFixed([call] + tail);
    ClosedNone();
    assert tail + [] == tail;
    ResumeQuietFront([ask], [call] + tail);
    assert [ask] + ([call] + tail) == history;
    ClosedStep([call] + tail);
    assert ([call] + tail)[1..] == tail;
    ClosedQuiet(tail, []);
  }

  lemma TightAlone(call: Item, tail: seq<Item>)
    requires forall j :: 0 <= j < |tail| ==> !Anchor(tail[j])
    ensures Tight([call] + tail) && Tight([])
  {
    hide ToolUses;
    TightQuiet(tail, []);
    assert tail + [] == tail;
    TightCons(call, tail);
    AnswerAheadAt(tail, []);
  }
}
