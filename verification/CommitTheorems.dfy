/** What the commit laws mean for a whole run, from the repaired history to its last command. */
module CommitTheorems {
  import opened Items
  import opened Compaction
  import opened HeldBuffer
  import opened Session
  import opened CommitLaws
  import History
  import Repair

  // ---- The head, the queue and the log -------------------------------------------------

  lemma {:induction false} QueueCarries(fifo: seq<PendingAck>)
    requires forall i :: 0 <= i < |fifo| ==> UnitOk(fifo[i])
    ensures NoRepoint(OkEntries(fifo)) && ItemsOf(OkEntries(fifo)) == OkItems(fifo)
  {
    if fifo != [] {
      assert UnitOk(fifo[0]);
      QueueCarries(fifo[1..]);
      ItemsOfConcat(if fifo[0].ack then fifo[0].entries else [], OkEntries(fifo[1..]));
    }
  }

  /** The log replays to the head followed by what is still in flight, once the folds nobody
      saw acked are left out of it. */
  lemma LogReplaysToHeadAndQueue(s: State)
    requires Inv(s)
    ensures Replay(s.seed, Kept(s.log, s.stranded)) == s.items + OkItems(s.fifo)
    ensures s.stranded == {} ==> Replay(s.seed, s.log) == s.items + OkItems(s.fifo)
  {
    hide *;
    InvDef(s);
    CoreDef(s, multiset{});
    HeadAndLog(s);
    FifoUnits(s);
    QueueCarries(s.fifo);
    ReplayConcat(s.seed, Flatten(s.acked), OkEntries(s.fifo));
    ReplayAppends(s.items, OkEntries(s.fifo));
    KeptAll(s.log);
  }

  lemma HeadAndLog(s: State)
    requires HeadOk(s) && LogOk(s)
    ensures s.items == Replay(s.seed, Flatten(s.acked)) && s.estimated == Tokens(s.items)
    ensures StrandedOk(s.log, s.stranded) && Kept(s.log, s.stranded) == Flatten(s.acked) + OkEntries(s.fifo)
  {
    hide Replay, Flatten, OkEntries, Tokens, Kept, StrandedOk;
  }

  lemma FifoUnits(s: State)
    requires FifoOk(s)
    ensures forall i :: 0 <= i < |s.fifo| ==> UnitOk(s.fifo[i]) && s.epoch < s.fifo[i].at <= s.minted
    ensures forall i, j :: 0 <= i < j < |s.fifo| ==> s.fifo[i].at < s.fifo[j].at
  {
    hide UnitOk, EpochOk;
    assert forall i :: 0 <= i < |s.fifo| ==> Tickets(s.fifo)[i] == s.fifo[i].at;
  }

  /** After any run: the head is the replay of the acked units over the repaired seed; with
      what is in flight it is the replay of the log, less the folds whose acks nobody read; the
      running estimate is the projection's; and the queue's commit orders ascend from the
      head's. */
  lemma RunReplays(history: seq<Item>, fate: nat, cmds: seq<Cmd>)
    requires forall i :: 0 <= i < |cmds| ==> Plain(cmds[i])
    ensures var s := Run(Opened(history, fate), cmds);
            && s.items == Replay(s.seed, Flatten(s.acked))
            && s.items + OkItems(s.fifo) == Replay(s.seed, Kept(s.log, s.stranded))
            && (s.stranded == {} ==> s.items + OkItems(s.fifo) == Replay(s.seed, s.log))
            && StrandedOk(s.log, s.stranded)
            && s.estimated == Tokens(s.items)
            && (forall i :: 0 <= i < |s.fifo| ==> s.epoch < s.fifo[i].at <= s.minted)
            && (forall i, j :: 0 <= i < j < |s.fifo| ==> s.fifo[i].at < s.fifo[j].at)
  {
    hide *;
    var s := Run(Opened(history, fate), cmds);
    RunInv(history, fate, cmds);
    LogReplaysToHeadAndQueue(s);
    InvDef(s);
    CoreDef(s, multiset{});
    HeadAndLog(s);
    FifoUnits(s);
  }

  // ---- Tickets -----------------------------------------------------------------------------

  /** After any run no ticket has been resolved twice, none is both resolved and still
      queued, every ticket issued is one or the other, and nothing else ever resolves. */
  lemma RunResolvesOnce(history: seq<Item>, fate: nat, cmds: seq<Cmd>, ticket: nat)
    requires forall i :: 0 <= i < |cmds| ==> Plain(cmds[i])
    ensures var s := Run(Opened(history, fate), cmds);
            && multiset(ResolvedTickets(s.trace))[ticket] + multiset(Tickets(s.fifo))[ticket]
               == (if ticket in s.issued then 1 else 0)
  {
    hide *;
    var s := Run(Opened(history, fate), cmds);
    RunInv(history, fate, cmds);
    InvDef(s);
    CoreDef(s, multiset{});
    IssuedOnce(s, ticket);
  }

  lemma IssuedOnce(s: State, ticket: nat)
    requires TicketsOk(s, multiset{})
    ensures multiset(ResolvedTickets(s.trace))[ticket] + multiset(Tickets(s.fifo))[ticket]
         == (if ticket in s.issued then 1 else 0)
  {
    AscendingOnce(s.issued, ticket);
    hide ResolvedTickets, Tickets, Ascending;
    var sum := multiset(ResolvedTickets(s.trace)) + multiset(Tickets(s.fifo)) + multiset{};
    assert sum == multiset(s.issued);
    assert sum[ticket] == multiset(ResolvedTickets(s.trace))[ticket] + multiset(Tickets(s.fifo))[ticket];
    assert ticket in s.issued <==> ticket in multiset(s.issued);
  }

  lemma {:induction false} ResolvedPrefix(trace: seq<Event>, more: seq<Event>)
    requires trace <= more
    ensures ResolvedTickets(trace) <= ResolvedTickets(more)
    decreases |more|
  {
    if |trace| < |more| {
      ResolvedPrefix(trace, more[..|more| - 1]);
    } else {
      assert trace == more;
    }
  }

  lemma OvertakenForGood(trace: seq<Event>, more: seq<Event>)
    requires trace <= more && !Ascending(ResolvedTickets(trace))
    ensures !Ascending(ResolvedTickets(more))
  {
    hide ResolvedTickets;
    ResolvedPrefix(trace, more);
    AscendingPrefix(ResolvedTickets(trace), ResolvedTickets(more));
  }

  lemma AscendingPrefix(ns: seq<nat>, more: seq<nat>)
    requires ns <= more
    ensures Ascending(more) ==> Ascending(ns)
  {
    assert forall i :: 0 <= i < |ns| ==> ns[i] == more[i];
  }

  /** An ack that overtakes resolves a younger ticket before its own. */
  lemma OvertakingDescends(s: State)
    requires Inv(s) && s.fifo != [] && Overtakes(s)
    ensures !Ascending(ResolvedTickets(AckArrives(s).trace))
  {
    hide *;
    AckLine(s);
    AckFifo(s);
    InvDef(s);
    CoreDef(s, multiset{});
    FifoUnits(s);
    OvertakesHasRest(s);
    NoTickets(AckArrives(s));
    Descends(ResolvedTickets(s.trace), Tickets(s.fifo[1..]), s.fifo[0].at);
  }

  lemma NoTickets(s: State)
    ensures s.fifo == [] ==> Line(s) == ResolvedTickets(s.trace)
  {
    hide ResolvedTickets;
  }

  lemma Descends(resolved: seq<nat>, rest: seq<nat>, at: nat)
    requires rest != [] && at < rest[0]
    ensures !Ascending(resolved + rest + [at])
  {
    var line := resolved + rest + [at];
    assert line[|resolved|] == rest[0] && line[|line| - 1] == at;
  }

  lemma {:induction false} RunOvertakes(history: seq<Item>, fate: nat, cmds: seq<Cmd>)
    requires forall i :: 0 <= i < |cmds| ==> Plain(cmds[i])
    ensures var s := Run(Opened(history, fate), cmds); s.overtook ==> !Ascending(ResolvedTickets(s.trace))
    decreases |cmds|
  {
    hide Step, Opened, Plain, Inv, Ascending, Overtakes, History.Continues, History.Strands;
    if cmds == [] {
      OpenedKept(history, fate);
    } else {
      var front, last := cmds[..|cmds| - 1], cmds[|cmds| - 1];
      var s := Run(Opened(history, fate), front);
      RunOvertakes(history, fate, front);
      RunInv(history, fate, front);
      History.StepContinues(s, last);
      StepTrace(s, Step(s, last));
      if s.overtook {
        OvertakenForGood(s.trace, Step(s, last).trace);
      } else if History.AckOvertakes(s, last) {
        OvertakingDescends(s);
        AckStep(s);
      }
    }
  }

  lemma OpenedKept(history: seq<Item>, fate: nat)
    ensures !Opened(history, fate).overtook
  {
    hide Repair.Resume, Tokens;
  }

  lemma StepTrace(s: State, t: State)
    requires History.Continues(s, t)
    ensures s.trace <= t.trace
  {
  }

  lemma AckStep(s: State)
    requires s.fifo != []
    ensures Step(s, AckCmd) == AckArrives(s)
  {
    hide AckArrives;
  }

  /** After any run tickets have resolved, and the rest are waiting, in the order they were
      issued, exactly when no ack was settled with younger units behind it and steers to
      release. */
  lemma RunResolvesInOrderExactly(history: seq<Item>, fate: nat, cmds: seq<Cmd>)
    requires forall i :: 0 <= i < |cmds| ==> Plain(cmds[i])
    ensures var s := Run(Opened(history, fate), cmds);
            ResolvedTickets(s.trace) + Tickets(s.fifo) == s.issued <==> !s.overtook
  {
    hide *;
    var s := Run(Opened(history, fate), cmds);
    RunInv(history, fate, cmds);
    InvLine(s);
    RunOvertakes(history, fate, cmds);
    InvDef(s);
    CoreDef(s, multiset{});
    IssuedAscend(s);
    assert ResolvedTickets(s.trace) <= ResolvedTickets(s.trace) + Tickets(s.fifo);
    AscendingPrefix(ResolvedTickets(s.trace), ResolvedTickets(s.trace) + Tickets(s.fifo));
  }

  lemma IssuedAscend(s: State)
    requires TicketsOk(s, multiset{})
    ensures Ascending(s.issued)
  {
    hide Ascending, ResolvedTickets, Tickets;
  }

  /** The ack arm keeps the order exactly when it does not overtake. */
  lemma AckKeepsOrderExactly(s: State)
    requires Inv(s) && s.fifo != [] && !s.overtook
    ensures Line(AckArrives(s)) == AckArrives(s).issued <==> !Overtakes(s)
  {
    hide *;
    AckLine(s);
    InvLine(s);
    TicketsCons(s.fifo);
    InvDef(s);
    CoreDef(s, multiset{});
    FifoUnits(s);
    var resolved, at, rest := ResolvedTickets(s.trace), s.fifo[0].at, Tickets(s.fifo[1..]);
    Assoc(resolved, [at], rest);
    if Overtakes(s) {
      OvertakesHasRest(s);
      var line := resolved + rest + [at];
      assert line[|resolved|] == rest[0] == s.fifo[1].at;
      assert (resolved + [at] + rest)[|resolved|] == at;
    }
  }

  lemma OvertakesHasRest(s: State)
    requires s.fifo != [] && Overtakes(s)
    ensures |s.fifo| > 1 && |Tickets(s.fifo[1..])| > 0 && Tickets(s.fifo[1..])[0] == s.fifo[1].at
  {
    hide Landed, Awaiting;
  }

  /** A reply that calls no tool, with its usage: one group. */
  function Reply(): seq<Payload> {
    [ItemEntry(Assistant([OtherBlock("done")])), LogOnly]
  }

  /** A turn's reply calls nothing and goes out pipelined, the gate's reminder is pipelined
      behind it, a steer is held while the turn runs, and then the reply's ack comes. */
  function OvertakingRun(): seq<Cmd> {
    [ContinueCmd,
     ProposePreparedCmd(Reply(), false, true, false),
     ProposePreparedCmd([ItemEntry(Reminder("not yet"))], false, true, false),
     SteerCmd(HeldSteer("stop", [], Steer, None)),
     AckCmd]
  }

  function Fresh(): State {
    Opened([Message("go")], 5)
  }

  ghost function After(k: nat): State
    requires k <= 5
  {
    Run(Fresh(), OvertakingRun()[..k])
  }

  lemma AfterStep(k: nat)
    requires k < 5
    ensures After(k + 1) == Step(After(k), OvertakingRun()[k])
  {
    hide Step, Opened;
    assert OvertakingRun()[..k + 1][..k] == OvertakingRun()[..k];
  }

  lemma FreshFacts()
    ensures var s := Fresh();
            && s.fate == 5 && s.fifo == [] && s.held == [] && !s.running && !s.turnOpen
            && s.minted == 0 && s.items == [Message("go")]
            && ResolvedTickets(s.trace) == [] && After(0) == s
  {
    hide Opened, ResolvedTickets, Answered, Step;
    UncalledIsAnswered(Message("go"), []);
    assert [Message("go")] + [] == [Message("go")];
    OpensOn([Message("go")], 5);
    TraceSnoc([], Published([Message("go")], 0, 0));
    assert [] + [Published([Message("go")], 0, 0)] == [Published([Message("go")], 0, 0)];
    NothingResolved();
    assert OvertakingRun()[..0] == [];
  }

  /** A session opens on an answered history as it is. */
  lemma OpensOn(history: seq<Item>, fate: nat)
    requires Answered(history)
    ensures var s := Opened(history, fate);
            && s.items == s.seed == history && s.fate == fate && s.minted == 0 && s.fifo == [] && s.log == []
            && s.held == [] && s.queue == [] && !s.running && !s.turnOpen && s.foldPending.None?
            && s.stranded == {} && s.trace == [Published(history, 0, 0)]
  {
    hide Tokens, Repair.Resume, Answered;
    Repair.ResumeAnswersAndSettles(history);
  }

  lemma UncalledIsAnswered(first: Item, rest: seq<Item>)
    requires first.User? && (rest == [] || (|rest| == 1 && rest[0].User?))
    ensures Answered([first] + rest)
  {
    hide ToolUses;
  }

  lemma NothingResolved()
    ensures ResolvedTickets([]) == []
  {
  }

  lemma ContinueStep()
    ensures var s := After(1);
            && s.fate == 5 && s.fifo == [] && s.held == [] && s.running && !s.turnOpen
            && s.minted == 0 && s.items == [Message("go")]
            && ResolvedTickets(s.trace) == []
  {
    hide Opened, ResolvedTickets, Run;
    FreshFacts();
    AfterStep(0);
  }

  lemma StepPipelined(s: State, entries: seq<Payload>)
    requires s.fate > 0 && entries != []
    ensures Step(s, ProposePreparedCmd(entries, false, true, false))
         == Enqueued(s.(turnOpen := OpenAfter(s.turnOpen, entries)),
                     PendingAck(true, ItemsOf(entries), entries, s.minted + |entries|))
  {
    hide *;
    var t := s.(turnOpen := OpenAfter(s.turnOpen, entries));
    PipelinedIsForward(s, entries);
    ForwardUnfolds(t, entries, false);
    assert t.fate == s.fate && t.minted == s.minted;
  }

  lemma PipelinedIsForward(s: State, entries: seq<Payload>)
    requires entries != []
    ensures Step(s, ProposePreparedCmd(entries, false, true, false))
         == Forward(s.(turnOpen := OpenAfter(s.turnOpen, entries)), entries, false)
  {
    hide Forward, OpenAfter;
  }

  lemma ReplyItems()
    ensures ItemsOf(Reply()) == [Assistant([OtherBlock("done")])]
    ensures !OpenAfter(false, Reply())
  {
    assert Reply()[..1] == [Reply()[0]] && Reply()[..1][..0] == [];
  }

  lemma ReminderItems()
    ensures ItemsOf([ItemEntry(Reminder("not yet"))]) == [Reminder("not yet")]
    ensures !OpenAfter(false, [ItemEntry(Reminder("not yet"))])
  {
    assert [ItemEntry(Reminder("not yet"))][..0] == [];
  }

  lemma ReplyStep()
    ensures var s := After(2);
            && |s.fifo| == 1 && s.fifo[0].ack && s.fifo[0].at == 2
            && s.fifo[0].items == [Assistant([OtherBlock("done")])]
            && s.fate == 4 && s.held == [] && s.running && !s.turnOpen && s.minted == 2
            && s.items == [Message("go")] && ResolvedTickets(s.trace) == []
  {
    hide ResolvedTickets, ItemsOf, Step, Run, Opened, OpenAfter;
    ContinueStep();
    AfterStep(1);
    StepPipelined(After(1), Reply());
    ReplyItems();
  }

  lemma ReminderStep()
    ensures var s := After(3);
            && |s.fifo| == 2 && s.fifo[0].ack && s.fifo[0].at == 2 && s.fifo[1].at == 3
            && s.fifo[0].items == [Assistant([OtherBlock("done")])]
            && s.held == [] && s.running && s.items == [Message("go")] && ResolvedTickets(s.trace) == []
  {
    hide ResolvedTickets, ItemsOf, Step, Run, Opened, OpenAfter, Reminder;
    ReplyStep();
    AfterStep(2);
    StepPipelined(After(2), [ItemEntry(Reminder("not yet"))]);
    ReminderItems();
  }

  lemma SteerStep()
    ensures var s := After(4);
            && |s.fifo| == 2 && s.fifo[0].ack && s.fifo[0].at == 2 && s.fifo[1].at == 3
            && s.fifo[0].items == [Assistant([OtherBlock("done")])]
            && s.held != [] && s.items == [Message("go")] && ResolvedTickets(s.trace) == []
  {
    hide ResolvedTickets, FoldSteer, Run, Opened;
    ReminderStep();
    AfterStep(3);
  }

  /** Tickets do come out of order: releasing the held steer at the reply's ack drains, and so
      resolves, the reminder behind it first. */
  lemma TicketsCanOvertake()
    ensures forall i :: 0 <= i < |OvertakingRun()| ==> Plain(OvertakingRun()[i])
    ensures ResolvedTickets(Run(Opened([Message("go")], 5), OvertakingRun()).trace) == [3, 2]
  {
    hide ResolvedTickets, Run, AckArrives, ReleaseSteers, Opened, Overtakes, Reminder;
    SteerStep();
    AfterStep(4);
    assert OvertakingRun()[..5] == OvertakingRun();
    ReplyLandsClosed(After(4));
    OvertakenAck(After(4));
  }

  lemma ReplyLandsClosed(s: State)
    requires |s.fifo| == 2 && s.fifo[0].ack && s.fifo[0].items == [Assistant([OtherBlock("done")])]
    requires s.held != []
    ensures Overtakes(s)
  {
    assert Landed(s).items == s.items + [Assistant([OtherBlock("done")])];
  }

  lemma OvertakenAck(s: State)
    requires |s.fifo| == 2 && s.fifo[0].at == 2 && s.fifo[1].at == 3 && Overtakes(s)
    requires ResolvedTickets(s.trace) == []
    ensures ResolvedTickets(AckArrives(s).trace) == [3, 2]
  {
    hide ResolvedTickets, AckArrives, Overtakes;
    AckLine(s);
    AckFifo(s);
    assert Tickets(s.fifo[1..]) == [3];
    assert Tickets([]) == [];
    assert Line(AckArrives(s)) == [] + [3] + [2];
    assert ResolvedTickets(AckArrives(s).trace) + [] == ResolvedTickets(AckArrives(s).trace);
  }

  lemma AckFifo(s: State)
    requires s.fifo != [] && Overtakes(s)
    ensures AckArrives(s).fifo == []
  {
    hide ReleaseSteers;
    ReleaseLine(Landed(s.(overtook := s.overtook || Overtakes(s))));
  }

  // ---- What is visible -----------------------------------------------------------------------

  lemma {:induction false} TraceOkPrefix(seed: seq<Item>, acked: seq<Unit>, trace: seq<Event>, i: nat)
    requires TraceOk(seed, acked, trace) && i < |trace|
    ensures EventOk(seed, acked, trace[..i], trace[i])
  {
    hide EventOk;
    if i < |trace| - 1 {
      TraceOkPrefix(seed, acked, trace[..|trace| - 1], i);
      assert trace[..|trace| - 1][..i] == trace[..i];
    }
  }

  /** The newest head published: nothing behind it is one. */
  lemma {:induction false} LastPublished(trace: seq<Event>) returns (j: nat)
    requires LastUnits(trace) > 0
    ensures j < |trace| && trace[j].Published? && trace[j].units == LastUnits(trace)
    ensures forall k :: j < k < |trace| ==> trace[k].Resolved?
  {
    if trace[|trace| - 1].Published? {
      j := |trace| - 1;
    } else {
      j := LastPublished(trace[..|trace| - 1]);
      assert forall k :: 0 <= k < |trace| - 1 ==> trace[..|trace| - 1][k] == trace[k];
    }
  }

  lemma RunSeen(history: seq<Item>, fate: nat, cmds: seq<Cmd>)
    requires forall i :: 0 <= i < |cmds| ==> Plain(cmds[i])
    ensures var s := Run(Opened(history, fate), cmds);
            TraceOk(s.seed, s.acked, s.trace) && Settled(s.seed, s.acked, s.trace)
  {
    hide Run, Opened, HeadOk, FifoOk, LogOk, TicketsOk, OrderOk, TraceOk, Settled, LastEpoch, Current;
    RunInv(history, fate, cmds);
  }

  /** A ticket is told its unit landed (or was carried past by an abort) only behind an
      already published head that is exactly the projection after a number of acked units, the
      ticket's own among them. */
  lemma RunPublishesBeforeResolving(history: seq<Item>, fate: nat, cmds: seq<Cmd>, i: nat)
    requires forall k :: 0 <= k < |cmds| ==> Plain(cmds[k])
    requires i < |Run(Opened(history, fate), cmds).trace|
    requires var e := Run(Opened(history, fate), cmds).trace[i];
             e.Resolved? && e.verdict != LogSealed
    ensures var s := Run(Opened(history, fate), cmds);
            exists j :: 0 <= j < i && Exact(s.seed, s.acked, s.trace[j])
                        && Contained(s.acked, s.trace[j].units, s.trace[i].ticket)
  {
    hide Run, Opened, TraceOk, LastEpoch, LastUnits, Exact, Lagging;
    var s := Run(Opened(history, fate), cmds);
    RunSeen(history, fate, cmds);
    TraceOkPrefix(s.seed, s.acked, s.trace, i);
    var j := LastPublished(s.trace[..i]);
    assert forall k :: 0 <= k < i ==> s.trace[..i][k] == s.trace[k];
    TraceOkPrefix(s.seed, s.acked, s.trace, j + 1);
    assert s.trace[..j + 1][|s.trace[..j + 1]| - 1] == s.trace[j];
    ExactIsPublished(s.seed, s.acked, s.trace[j + 1]);
  }

  /** A ticket told the log is sealed names a unit that never lands: it is in no head of the
      run, before or after. */
  lemma RunSealedNeverLands(history: seq<Item>, fate: nat, cmds: seq<Cmd>, i: nat)
    requires forall k :: 0 <= k < |cmds| ==> Plain(cmds[k])
    requires i < |Run(Opened(history, fate), cmds).trace|
    requires var e := Run(Opened(history, fate), cmds).trace[i];
             e.Resolved? && e.verdict == LogSealed
    ensures var s := Run(Opened(history, fate), cmds);
            forall k :: 0 <= k < |s.acked| ==> s.acked[k].at != s.trace[i].ticket
  {
    hide Run, Opened, TraceOk, LastEpoch, LastUnits, Exact, Lagging;
    var s := Run(Opened(history, fate), cmds);
    RunSeen(history, fate, cmds);
    TraceOkPrefix(s.seed, s.acked, s.trace, i);
    NotAmong(s.acked, s.trace[i].ticket);
  }

  lemma NotAmong(acked: seq<Unit>, ticket: nat)
    ensures !Contained(acked, |acked|, ticket) <==> forall k :: 0 <= k < |acked| ==> acked[k].at != ticket
  {
  }

  lemma ExactIsPublished(seed: seq<Item>, acked: seq<Unit>, e: Event)
    ensures Exact(seed, acked, e) ==> e.Published?
  {
    hide HeadAt;
  }

  /** In these terms a newer head is an older one's successor: a published epoch is the order
      its last unit ended on, so a head that contains a ticket's unit is at least as new. */
  lemma ContainedIsOld(s: State, e: Event, ticket: nat)
    requires Inv(s) && Exact(s.seed, s.acked, e) && Contained(s.acked, e.units, ticket)
    ensures ticket <= e.epoch
  {
    hide *;
    InvDef(s);
    CoreDef(s, multiset{});
    EpochsOf(s);
    ContainedBelow(s.seed, s.acked, e, ticket);
  }

  lemma EpochsOf(s: State)
    requires FifoOk(s)
    ensures forall i, j :: 0 <= i < j < |s.acked| ==> s.acked[i].at < s.acked[j].at
  {
    hide UnitOk, Tickets, Ascending;
  }

  lemma ContainedBelow(seed: seq<Item>, acked: seq<Unit>, e: Event, ticket: nat)
    requires forall i, j :: 0 <= i < j < |acked| ==> acked[i].at < acked[j].at
    requires Exact(seed, acked, e) && Contained(acked, e.units, ticket)
    ensures ticket <= e.epoch
  {
    hide HeadAt;
  }

  /** Every published head is the projection after some whole number of acked units, so none
      shows part of a group. It is the projection its own epoch stands for, except between a
      fold's entry and its re-point, and then the very next event publishes the correction. */
  lemma RunPublishesWholeUnits(history: seq<Item>, fate: nat, cmds: seq<Cmd>, i: nat)
    requires forall k :: 0 <= k < |cmds| ==> Plain(cmds[k])
    requires i < |Run(Opened(history, fate), cmds).trace|
    requires Run(Opened(history, fate), cmds).trace[i].Published?
    ensures var s := Run(Opened(history, fate), cmds);
            var e := s.trace[i];
            || Exact(s.seed, s.acked, e)
            || (&& Lagging(s.seed, s.acked, e)
                && i + 1 < |s.trace|
                && Exact(s.seed, s.acked, s.trace[i + 1])
                && s.trace[i + 1].epoch == e.epoch && s.trace[i + 1].units == e.units)
  {
    hide Run, Opened, TraceOk, LastEpoch, Exact, Lagging;
    var s := Run(Opened(history, fate), cmds);
    RunSeen(history, fate, cmds);
    TraceOkPrefix(s.seed, s.acked, s.trace, i);
    if i + 1 < |s.trace| {
      TraceOkPrefix(s.seed, s.acked, s.trace, i + 1);
      assert s.trace[..i + 1][|s.trace[..i + 1]| - 1] == s.trace[i];
    }
  }

  /** Published epochs never go back. */
  lemma {:induction false} PublishedEpochsRise(seed: seq<Item>, acked: seq<Unit>, trace: seq<Event>, i: nat, j: nat)
    requires TraceOk(seed, acked, trace) && i < j < |trace| && trace[i].Published? && trace[j].Published?
    ensures trace[i].epoch <= trace[j].epoch
  {
    hide TraceOk, Exact, Lagging;
    TraceOkPrefix(seed, acked, trace, j);
    EpochsReach(seed, acked, trace, i, j);
  }

  lemma {:induction false} EpochsReach(seed: seq<Item>, acked: seq<Unit>, trace: seq<Event>, i: nat, j: nat)
    requires TraceOk(seed, acked, trace) && i < j <= |trace| && trace[i].Published?
    ensures trace[i].epoch <= LastEpoch(trace[..j])
  {
    hide TraceOk, Exact, Lagging;
    assert trace[..j][|trace[..j]| - 1] == trace[j - 1];
    assert trace[..j][..|trace[..j]| - 1] == trace[..j - 1];
    if i < j - 1 {
      EpochsReach(seed, acked, trace, i, j - 1);
      TraceOkPrefix(seed, acked, trace, j - 1);
    }
  }

  // ---- Draining ------------------------------------------------------------------------------

  /** Draining under abort and draining under acknowledgement end in the same session but for
      what the tickets were told: same head, same log, empty queue. */
  lemma DrainIgnoresVerdict(s: State)
    ensures Drain(s, true).(trace := []) == Drain(s, false).(trace := [])
    ensures Drain(s, true).fifo == [] && Drain(s, true).items == s.items + OkItems(s.fifo)
  {
    hide Drain, OkItems;
    DrainSameHead(s, s);
    DrainEffect(s, true);
  }

  // ---- A fold cut short ----------------------------------------------------------------------

  /** A turn cancelled while its fold's entry waits for the ack leaves the entry in the log and
      the head where it was. The log still replays to that head exactly when the fold replaces a
      digest by the very same digest. */
  lemma StrandedFoldDiverges(s: State, plan: Plan, digest: seq<Item>, pins: seq<string>)
    requires Inv(s) && s.stranded == {} && s.fifo == [] && s.fate > 0
    requires plan.prefixEnd <= plan.keptFrom <= |s.items| && AllUsers(digest)
    ensures var t := Strand(s, CompactionEntry(digest, plan.prefixEnd, plan.keptFrom, pins));
            && t.items == s.items
            && (Replay(t.seed, t.log) == t.items <==> s.items[plan.prefixEnd..plan.keptFrom] == digest)
  {
    hide *;
    var entry := CompactionEntry(digest, plan.prefixEnd, plan.keptFrom, pins);
    LogReplaysToHeadAndQueue(s);
    NothingQueued(s);
    StrandFields(s, entry);
    ReplaySnoc(s.seed, s.log, entry);
    FoldWithUnfolds(s, plan, digest, pins);
    ReplayFoldIsApply(s.items, plan, digest, pins);
    ApplyIsIdentityExactly(s.items, plan, digest, pins);
  }

  lemma StrandFields(s: State, entry: Payload)
    requires s.fate > 0
    ensures var t := Strand(s, entry); t.items == s.items && t.seed == s.seed && t.log == s.log + [entry]
  {
  }

  lemma NothingQueued(s: State)
    requires s.fifo == []
    ensures s.items + OkItems(s.fifo) == s.items
  {
  }

  /** Pinned text is read out of results, and a digest is not. */
  lemma ApplyIsIdentityExactly(items: seq<Item>, plan: Plan, digest: seq<Item>, pins: seq<string>)
    requires plan.prefixEnd <= plan.keptFrom <= |items| && AllUsers(digest)
    ensures Apply(items, plan, digest, pins) == items <==> items[plan.prefixEnd..plan.keptFrom] == digest
  {
    hide PinnedItems;
    var p, k := plan.prefixEnd, plan.keptFrom;
    var front, span, tail := items[..p], items[p..k], items[k..];
    var middle := digest + PinnedItems(span, pins);
    Assoc(front, digest, PinnedItems(span, pins));
    assert items == front + span + tail;
    var spliced := front + middle + tail;
    if spliced == items {
      assert |middle| == |span|;
      assert spliced[p..k] == middle;
      assert AllUsers(span);
    }
    if spliced == items || span == digest {
      NothingPinned(span, pins);
      assert digest + [] == digest;
    }
  }

  lemma {:induction false} NothingPinned(span: seq<Item>, pins: seq<string>)
    requires AllUsers(span)
    ensures PinnedItems(span, pins) == []
  {
    if pins != [] {
      NonePinned(span, pins[0]);
      NothingPinned(span, pins[1..]);
    }
  }

  lemma {:induction false} NonePinned(span: seq<Item>, pin: string)
    requires AllUsers(span)
    ensures PinnedFor(span, pin) == []
  {
    if span != [] {
      assert span[0].User?;
      NonePinned(span[1..], pin);
    }
  }

  // A session of two messages, a turn on them that wants to fold the first, and a cancel while
  // the fold's entry waits for the ack.

  function Message(text: string): Item {
    User(text, None, [])
  }

  function TwoMessages(): seq<Item> {
    [Message("first"), Message("second")]
  }

  function Digested(): SpecDigest {
    SpecDigest(Plan(0, 1), "gist", TwoMessages())
  }

  function CutShort(): Finish {
    Finish(true, 0, None, Start(false, false, None), FoldInput(None, [], false, 0, 0))
  }

  function StrandingRun(): seq<Cmd> {
    [ContinueCmd, TurnFinishedCmd(WantsFold(Some(Digested()), false, AtEntry), false, CutShort())]
  }

  /** The digest the turn brought is the planner's own choice on those messages. */
  lemma DigestedIsPlanned()
    ensures BestPlan(TwoMessages(), 0, 0, Digested().plan)
  {
    hide Tokens, ImageBytes;
    TailsWeigh(TwoMessages());
  }

  lemma TailsWeigh(items: seq<Item>)
    ensures forall b: nat | b < |items| :: Tokens(items[b..]) > 0
  {
  }

  lemma MessagesOpen()
    ensures var s := Opened(TwoMessages(), 5);
            && s.items == s.seed == TwoMessages() && s.fate == 5 && s.fifo == [] && s.held == [] && s.queue == []
            && s.log == [] && !s.running && s.foldPending.None? && s.stranded == {}
  {
    hide *;
    TwoIs();
    UncalledIsAnswered(Message("first"), [Message("second")]);
    OpensOn(TwoMessages(), 5);
  }

  lemma TwoIs()
    ensures TwoMessages() == [Message("first")] + [Message("second")]
    ensures Message("first").User? && Message("second").User?
  {
  }

  /** The end of that turn, step by step: nothing to close, nothing held, the fold's entry
      stranded, the cancel noted. */
  lemma StrandingEnd(s: State)
    requires s.items == TwoMessages() && s.fate == 5 && s.fifo == [] && s.held == [] && s.queue == []
    requires s.foldPending.None? && s.log == [] && s.stranded == {}
    ensures var t := Step(s, StrandingRun()[1]);
            && t.items == TwoMessages() && t.stranded == {0} && t.fifo == [] && !t.running && t.fate == 3
            && t.log == [CompactionEntry(DigestOf(Some("gist")), 0, 1, []), LogOnly]
  {
    hide Step, Append, DigestOf, Tokens, CompactCut;
    var f := CutShort();
    var entry := CompactionEntry(DigestOf(Some("gist")), 0, 1, []);
    var stranded := Strand(s, entry);
    StrandingStep(s);
    CutStrands(s);
    assert s.log + [entry] == [entry];
    NoteAppends(stranded);
    EndsNoted(stranded, f);
  }

  lemma StrandingStep(s: State)
    requires s.items == TwoMessages() && s.held == [] && s.foldPending.None?
    ensures Step(s, StrandingRun()[1]) == Finished(CompactCut(s, Some(Digested()), None, CutShort().fold), CutShort())
  {
    hide CompactCut, Finished;
    assert s.(foldPending := None) == s;
    assert CloseOpenBatch(s) == s;
    assert ReleaseSteers(s) == s;
  }

  lemma CutStrands(s: State)
    requires s.items == TwoMessages() && s.fifo == []
    ensures CompactCut(s, Some(Digested()), None, CutShort().fold)
         == Strand(s, CompactionEntry(DigestOf(Some("gist")), 0, 1, []))
  {
    hide Strand, DigestOf;
    DrainEmpty(s, true);
  }

  lemma EndsNoted(s: State, f: Finish)
    requires f == CutShort() && s.foldPending.None? && s.queue == []
    requires Append(s, LogOnly).foldPending.None? && Append(s, LogOnly).queue == []
    ensures Finished(s, f) == Append(s, LogOnly).(running := false, turnOpen := false)
  {
    hide Append;
    assert Notes(s, 0) == s;
  }

  lemma NoteAppends(s: State)
    requires s.fate > 0 && s.fifo == []
    ensures var t := Append(s, LogOnly);
            && t.items == s.items && t.log == s.log + [LogOnly] && t.stranded == s.stranded
            && t.foldPending == s.foldPending && t.queue == s.queue && t.fifo == [] && t.fate == s.fate - 1
  {
    hide Tokens;
    DrainEmpty(s, false);
    assert s.items + [] == s.items;
  }

  /** After that run the head still shows both messages, and the log replays to the digest in
      place of the first. */
  lemma StrandedFoldLosesText()
    ensures forall i :: 0 <= i < |StrandingRun()| ==> Plain(StrandingRun()[i])
    ensures var s := Run(Opened(TwoMessages(), 5), StrandingRun());
            && s.stranded == {0} && s.items == TwoMessages() && s.fifo == [] && !s.running && s.fate == 3
            && Replay(s.seed, s.log) == DigestOf(Some("gist")) + [Message("second")]
  {
    hide Step, DigestOf, Opened;
    MessagesOpen();
    var s := Opened(TwoMessages(), 5);
    var r := Step(s, ContinueCmd);
    ContinueRuns(s);
    assert StrandingRun()[..0] == [] && StrandingRun()[..1][..0] == [];
    assert StrandingRun()[..1] == [ContinueCmd];
    assert Run(s, [ContinueCmd]) == r;
    StrandingEnd(r);
    History.RunGrows(s, StrandingRun(), 0);
    GistReplays();
  }

  lemma ContinueRuns(s: State)
    requires s.items == TwoMessages() && !s.running
    ensures Step(s, ContinueCmd) == s.(running := true, turnOpen := false)
  {
  }

  lemma GistReplays()
    ensures var digest := DigestOf(Some("gist"));
            Replay(TwoMessages(), [CompactionEntry(digest, 0, 1, []), LogOnly]) == digest + [Message("second")]
  {
    hide DigestOf, Replay, ReplayFold;
    var digest := DigestOf(Some("gist"));
    var entry := CompactionEntry(digest, 0, 1, []);
    ReplayNothing(TwoMessages());
    ReplaySnoc(TwoMessages(), [], entry);
    ReplaySnoc(TwoMessages(), [entry], LogOnly);
    assert [] + [entry] == [entry] && [entry] + [LogOnly] == [entry, LogOnly];
    ReplayFoldIsApply(TwoMessages(), Plan(0, 1), digest, []);
    assert TwoMessages()[1..] == [Message("second")] && TwoMessages()[..0] == [];
    assert [] + digest + [] == digest;
  }

  lemma ReplayNothing(seed: seq<Item>)
    ensures Replay(seed, []) == seed
  {
  }
}
