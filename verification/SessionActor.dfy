/** The session actor in its own form: fields updated in place by the command loop. A ghost
    `view` says which state of the transition system they stand for; each method moves it as that
    system says, and says besides what became of the fields and what outlived the call. */
module SessionActor {
  import opened Items
  import opened Compaction
  import opened HeldBuffer
  import Repair
  import S = Session
  import CommitLaws
  import CommitTheorems
  import Contents
  import Effects
  import History
  import PairingLaws
  import Sealed
  import Verdicts

  class Actor {
    // The head: what acks have made of the projection.
    var seed: seq<Item>
    var items: seq<Item>
    var estimated: nat
    var epoch: nat
    // The pipeline: what was forwarded and not yet acked, and the last commit order minted.
    var fifo: seq<S.PendingAck>
    var minted: nat
    // The writer: how much longer it will commit, and what it has committed.
    var fate: nat
    var log: seq<Payload>
    // The loop's own state.
    var held: seq<HeldSteer>
    var queue: seq<QueuedPrompt>
    var running: bool
    var foldPending: Option<Option<string>>

    ghost var view: S.State

    ghost predicate Valid()
      reads this
    {
      && seed == view.seed && items == view.items && estimated == view.estimated && epoch == view.epoch
      && fifo == view.fifo && minted == view.minted && fate == view.fate && log == view.log
      && held == view.held && queue == view.queue && running == view.running && foldPending == view.foldPending
    }

    /** The head once everything forwarded has landed. */
    ghost function Projected(): seq<Item>
      reads this
    {
      items + CommitLaws.OkItems(fifo)
    }

    /** Every ticket resolved so far, in the order it was. */
    ghost function Resolved(): seq<nat>
      reads this
    {
      CommitLaws.ResolvedTickets(view.trace)
    }

    /** What each ticket resolved so far was told, in order. */
    ghost function Told(): seq<(nat, S.Verdict)>
      reads this
    {
      Verdicts.Told(view.trace)
    }

    /** The commit laws hold, and what they say of the fields. */
    ghost predicate Sound()
      reads this
    {
      && CommitLaws.Inv(view)
      && estimated == Tokens(items)
      && Replay(seed, CommitLaws.Kept(log, view.stranded)) == Projected()
      && (view.stranded == {} ==> Replay(seed, log) == Projected())
    }

    lemma SoundIs()
      requires Valid() && CommitLaws.Inv(view)
      ensures Sound()
    {
      ValidFields();
      SoundFields(view);
      hide CommitLaws.Inv, Tokens, Replay, CommitLaws.Kept, CommitLaws.OkItems, PairingLaws.Forwarded;
    }

    lemma ValidFields()
      requires Valid()
      ensures seed == view.seed && items == view.items && estimated == view.estimated && fifo == view.fifo
      ensures log == view.log && fate == view.fate && epoch == view.epoch
      ensures Projected() == PairingLaws.Forwarded(view)
      ensures Resolved() == CommitLaws.ResolvedTickets(view.trace)
    {
    }

    /** Resumed history is repaired on the way in. */
    constructor (history: seq<Item>, writes: nat)
      ensures Valid() && view == S.Opened(history, writes)
      ensures items == Repair.Resume(history) && fifo == [] && log == []
    {
      var paired := Repair.PairToolResults(history);
      var repaired := Repair.CloseDanglingBatches(paired);
      seed, items, estimated, epoch := repaired, repaired, Tokens(repaired), 0;
      fifo, minted, fate, log := [], 0, writes, [];
      held, queue, running, foldPending := [], [], false, None;
      view := S.Opened(history, writes);
    }

    // ---- Head and pipeline ------------------------------------------------------------

    ghost method Publish()
      requires Valid()
      modifies this`view
      ensures Valid() && view == S.Publish(old(view))
    {
      view := S.Publish(view);
    }

    ghost method Resolve(ticket: nat, verdict: S.Verdict)
      requires Valid()
      modifies this`view
      ensures Valid() && view == S.Resolve(old(view), ticket, verdict)
    {
      view := S.Resolve(view, ticket, verdict);
    }

    /** Take the oldest unit off the queue and, if the writer committed it, apply it whole. What
        was forwarded is still all there, the estimate stays exact, and the head moves to the
        ticket's own order, or nowhere. */
    method ApplyAck(abort: bool) returns (ticket: nat, verdict: S.Verdict)
      requires Valid() && fifo != []
      modifies this
      ensures Valid() && view == S.Landed(old(view))
      ensures ticket == old(fifo[0].at)
      ensures verdict == if !old(fifo[0].ack) then S.LogSealed else if abort then S.Aborted else S.Acked
      ensures Projected() == old(Projected()) && fifo == old(fifo)[1..] && log == old(log)
      ensures old(estimated == Tokens(items)) ==> estimated == Tokens(items)
      ensures verdict == S.LogSealed ==> items == old(items) && epoch == old(epoch)
      ensures verdict != S.LogSealed ==> items == old(items + fifo[0].items) && epoch == ticket
    {
      LandedSays(view);
      ValidFields();
      ticket, verdict := TakeOff(abort);
      hide *;
      ValidFields();
    }

    method TakeOff(abort: bool) returns (ticket: nat, verdict: S.Verdict)
      requires Valid() && fifo != []
      modifies this
      ensures Valid() && view == S.Landed(old(view))
      ensures ticket == old(fifo[0].at)
      ensures verdict == if !old(fifo[0].ack) then S.LogSealed else if abort then S.Aborted else S.Acked
    {
      hide Tokens;
      var unit := fifo[0];
      fifo := fifo[1..];
      if unit.ack {
        items := items + unit.items;
        estimated := estimated + Tokens(unit.items);
        epoch := unit.at;
      }
      view := S.Landed(view);
      ticket, verdict := unit.at, if !unit.ack then S.LogSealed else if abort then S.Aborted else S.Acked;
    }

    /** Apply, publish and resolve until nothing is in flight: everything forwarded is in the
        head, and every ticket is resolved in order behind those resolved before. */
    method Drain(abort: bool)
      requires Valid()
      modifies this
      ensures Valid() && view == S.Drain(old(view), abort)
      ensures fifo == [] && items == old(Projected()) && log == old(log)
      ensures Resolved() == old(Resolved() + CommitLaws.Tickets(fifo))
      ensures Told() == old(Told() + Verdicts.Due(fifo, abort))
      ensures old(Sound()) ==> Sound()
    {
      ghost var start, sound := view, Sound();
      DrainSays(start, abort);
      Verdicts.DrainTells(start, abort);
      hide Verdicts.Told, Verdicts.Due, S.Landed, S.Publish, S.Resolve, S.Settle, CommitLaws.Inv, CommitLaws.Kept,
           Replay, CommitLaws.OkItems,
           CommitLaws.ResolvedTickets, CommitLaws.Tickets, Tokens;
      while fifo != []
        invariant Valid()
        invariant S.Drain(view, abort) == S.Drain(start, abort)
        decreases |fifo|
      {
        ghost var before := view;
        CommitLaws.DrainOneFields(before, abort);
        SettleIs(before.fifo[0], abort);
        var ticket, verdict := ApplyAck(abort);
        Publish();
        Resolve(ticket, verdict);
      }
      assert S.Drain(view, abort) == view;
      if sound { SoundIs(); }
    }

    /** Mint an entry, hand it to the writer, wait for its answer, and apply what it took. */
    method Commit(payload: Payload) returns (ok: bool)
      requires Valid()
      modifies this
      ensures Valid() && view == S.Commit(old(view), payload)
      ensures ok == (old(fate) > 0)
    {
      hide S.Logged, S.Publish, Tokens;
      ok := fate > 0;
      if ok {
        Take(payload);
        Publish();
      } else {
        minted := minted + 1;
        view := view.(minted := minted);
      }
    }

    /** The writer took the entry: it is durable, and an item joins the head. */
    method Take(payload: Payload)
      requires Valid() && fate > 0
      modifies this`minted, this`fate, this`log, this`items, this`estimated, this`epoch, this`view
      ensures Valid() && view == S.Logged(old(view), payload)
    {
      hide S.Logged, Tokens, CommitLaws.OkItems, CommitLaws.Inv, CommitLaws.Kept, Replay;
      LoggedFields(view, payload);
      view := S.Logged(view, payload);
      minted, fate, log := minted + 1, fate - 1, log + [payload];
      epoch := minted;
      if payload.ItemEntry? {
        items, estimated := items + [payload.item], estimated + Tokens([payload.item]);
      }
    }

    /** Everything forwarded lands first, then the entry, durable before it is seen. */
    method Append(payload: Payload) returns (ok: bool)
      requires Valid()
      modifies this
      ensures Valid() && view == S.Append(old(view), payload)
      ensures ok == (old(fate) > 0)
      ensures items == old(Projected()) + (if ok && payload.ItemEntry? then [payload.item] else [])
      ensures log == old(log) + (if ok then [payload] else []) && fifo == []
      ensures Resolved() == old(Resolved() + CommitLaws.Tickets(fifo))
      ensures Told() == old(Told() + Verdicts.Due(fifo, false))
      ensures held == old(held) && queue == old(queue) && running == old(running)
      ensures old(Sound()) && !Repoints(payload) ==> Sound()
    {
      ghost var was, sound := view, Sound() && !Repoints(payload);
      AppendSays(was, payload);
      Verdicts.AppendTells(was, payload);
      CommitLaws.DrainEffect(view, false);
      hide S.Drain, S.Commit, CommitLaws.Inv, CommitLaws.Kept, Replay, CommitLaws.OkItems, CommitLaws.ResolvedTickets,
           CommitLaws.Tickets, Tokens, Verdicts.Told, Verdicts.Due;
      Drain(false);
      ok := Commit(payload);
      if sound { SoundIs(); }
    }

    /** Append in turn; stop at the first entry the log refuses. */
    method AppendAll(entries: seq<Payload>) returns (ok: bool)
      requires Valid()
      modifies this
      ensures Valid() && view == S.AppendAll(old(view), entries)
      ensures log == old(log) + entries[..if old(fate) < |entries| then old(fate) else |entries|]
      ensures old(Sound()) && NoRepoint(entries) ==> Sound()
    {
      AppendAllLogs(view, entries);
      ghost var start, sound := view, Sound() && NoRepoint(entries);
      if sound { CommitLaws.ProposeInv(view, entries); }
      ok := true;
      hide S.AppendAll, S.Append, CommitLaws.Inv, CommitLaws.Kept, Replay, CommitLaws.OkItems,
           CommitLaws.ResolvedTickets, CommitLaws.Tickets, Tokens;
      for i := 0 to |entries|
        invariant Valid()
        invariant S.AppendAll(view, entries[i..]) == S.AppendAll(start, entries)
      {
        CommitLaws.AppendAllUnfolds(view, entries[i..]);
        assert entries[i..] != [] && entries[i..][0] == entries[i] && entries[i..][1..] == entries[i + 1..];
        ok := Append(entries[i]);
        if !ok {
          if sound { SoundIs(); }
          return;
        }
      }
      CommitLaws.AppendAllUnfolds(view, entries[|entries|..]);
      if sound { SoundIs(); }
    }

    /** Forward a proposal without waiting for it. */
    method Forward(entries: seq<Payload>, refused: bool) returns (ticket: Option<nat>)
      requires Valid()
      modifies this
      ensures Valid() && view == S.Forward(old(view), entries, refused)
      ensures ticket.None? <==> old(fate) == 0 && refused
      ensures ticket.Some? ==> ticket.value == minted == old(minted) + |entries|
      ensures items == old(items) && epoch == old(epoch) && Resolved() == old(Resolved())
      ensures Projected() == old(Projected()) + (if old(fate) > 0 then ItemsOf(entries) else [])
      ensures log == old(log) + (if old(fate) > 0 then entries else [])
      ensures fifo == old(fifo) + (if ticket.Some? then
                                     [S.PendingAck(old(fate) > 0, ItemsOf(entries), entries, ticket.value)] else [])
      ensures old(Sound()) && NoRepoint(entries) && entries != [] ==> Sound()
    {
      ghost var sound := Sound() && NoRepoint(entries) && entries != [];
      ForwardSays(view, entries, refused);
      if sound { SoundInv(); }
      ValidFields();
      ticket := Send(entries, refused);
      hide *;
      ValidFields();
      if sound { SoundIs(); }
    }

    method Send(entries: seq<Payload>, refused: bool) returns (ticket: Option<nat>)
      requires Valid()
      modifies this
      ensures Valid() && view == S.Forward(old(view), entries, refused)
      ensures ticket.None? <==> old(fate) == 0 && refused
      ensures ticket.Some? ==> ticket.value == minted == old(minted) + |entries|
      ensures log == old(log) + (if old(fate) > 0 then entries else [])
      ensures fifo == old(fifo) + (if ticket.Some? then
                                     [S.PendingAck(old(fate) > 0, ItemsOf(entries), entries, ticket.value)] else [])
    {
      hide ItemsOf;
      minted := minted + |entries|;
      ghost var start := view;
      view := S.Forward(view, entries, refused);
      if fate == 0 && refused { return None; }
      var acks := fate > 0;
      if acks {
        fate, log := fate - 1, log + entries;
      } else {
        assert log + [] == log;
      }
      fifo := fifo + [S.PendingAck(acks, ItemsOf(entries), entries, minted)];
      ticket := Some(minted);
    }

    // ---- Steers -----------------------------------------------------------------------------

    /** Held steers land, oldest first, unless the head is mid-batch. */
    method ReleaseSteers()
      requires Valid()
      modifies this
      ensures Valid() && view == S.ReleaseSteers(old(view))
      ensures old(Projected()) <= Projected()
      ensures old(held != [] && !Awaiting(items)) ==> held == [] && fifo == []
      ensures old(held == [] || Awaiting(items)) ==> items == old(items) && fifo == old(fifo) && held == old(held)
      ensures log == old(log) + (if old(Awaiting(items)) then []
                                 else FirstOf(Effects.SteerEntries(old(held)), old(fate)))
      ensures old(Sound()) ==> Sound()
    {
      ghost var sound := Sound();
      ReleaseSays(view);
      ReleaseLogs(view);
      if sound { SoundInv(); }
      hide *;
      ValidFields();
      HoldsField();
      CommitLaws.ReleaseUnfolds(view);
      if held == [] || Awaiting(items) { return; }
      var steers := held;
      ghost var start := view.(held := []);
      Hold([]);
      for i := 0 to |steers|
        invariant Valid()
        invariant S.AppendSteers(view, steers[i..]) == S.AppendSteers(start, steers)
      {
        CommitLaws.AppendSteersUnfolds(view, steers[i..]);
        assert steers[i..][0] == steers[i] && steers[i..][1..] == steers[i + 1..];
        var _ := Append(S.SteerEntry(steers[i]));
      }
      CommitLaws.AppendSteersUnfolds(view, steers[|steers|..]);
      ValidFields();
      HoldsField();
      if sound { SoundIs(); }
    }

    lemma SoundInv()
      requires Sound()
      ensures CommitLaws.Inv(view)
    {
    }

    lemma HoldsField()
      requires Valid()
      ensures held == view.held && items == view.items && fifo == view.fifo
    {
    }

    method Hold(steers: seq<HeldSteer>)
      requires Valid()
      modifies this`held, this`view
      ensures Valid() && view == old(view).(held := steers)
    {
      held, view := steers, view.(held := steers);
    }

    /** The loop's ack arm. Its own ticket is resolved next, unless releasing a held steer
        drains the rest of the queue ahead of it; nothing forwarded is lost either way. */
    method AckArrives()
      requires Valid() && fifo != []
      modifies this
      ensures Valid() && view == S.AckArrives(old(view))
      ensures old(Projected()) <= Projected()
      ensures var at, rest := old(fifo[0].at), old(CommitLaws.Tickets(fifo[1..]));
              if old(S.Overtakes(view)) then Resolved() == old(Resolved()) + rest + [at] && fifo == []
              else Resolved() + CommitLaws.Tickets(fifo) == old(Resolved()) + [at] + rest
      ensures var head := old(items + if fifo[0].ack then fifo[0].items else []);
              Told() == old(Told()) + (if old(held) == [] || Awaiting(head) then []
                                       else Verdicts.Due(old(fifo[1..]), false))
                        + Verdicts.Due(old(fifo[..1]), false)
      ensures old(Sound()) ==> Sound()
    {
      ghost var start, sound := view, Sound();
      AckSays(start);
      AckTold(start);
      if sound { SoundInv(); }
      ValidFields();
      SettleAck();
      hide *;
      ValidFields();
      if sound { SoundIs(); }
    }

    method SettleAck()
      requires Valid() && fifo != []
      modifies this
      ensures Valid() && view == S.AckArrives(old(view))
    {
      hide S.Landed, S.Overtakes, S.ReleaseSteers, S.Publish, S.Resolve, S.Settle, CommitLaws.Inv, CommitLaws.Kept,
           Replay, CommitLaws.OkItems, CommitLaws.ResolvedTickets, CommitLaws.Tickets, Tokens, Awaiting;
      SettleIs(view.fifo[0], false);
      view := view.(overtook := view.overtook || S.Overtakes(view));
      var ticket, verdict := ApplyAck(false);
      ReleaseSteers();
      Publish();
      Resolve(ticket, verdict);
    }

    /** While a turn runs or a batch is open nothing lands, and what is held stays bounded;
        otherwise the steer lands behind everything forwarded. */
    method AdmitSteer(steer: HeldSteer)
      requires Valid()
      modifies this
      ensures Valid() && view == S.AdmitSteer(old(view), steer)
      ensures old(running || Awaiting(items)) ==>
                && items == old(items) && fifo == old(fifo) && log == old(log) && Resolved() == old(Resolved())
                && SteerWaits(old(held), steer, held)
                && forall m: nat | Bounded(old(held), m) && Incoming(steer, m) :: Bounded(held, m)
      ensures !old(running || Awaiting(items)) ==>
                && held == old(held)
                && items == old(Projected())
                            + (if old(fate) > 0 then [User(steer.text, Some(steer.synthetic), steer.images)] else [])
      ensures old(Sound()) ==> Sound()
    {
      ghost var sound := Sound();
      if sound { SteerInv(view, steer); }
      SteerIsEntry(steer);
      hide SteerWaits, Awaiting, S.Append, Pushed, S.SteerEntry, CommitLaws.Inv, CommitLaws.Kept, Replay,
           CommitLaws.OkItems, Tokens, CommitLaws.ResolvedTickets, CommitLaws.Tickets, Bounded, Incoming,
           AllMarkedOnce, Unquoted;
      if running || Awaiting(items) {
        var more := PushOrFoldSteer(held, steer);
        Hold(more);
      } else {
        var _ := Append(S.SteerEntry(steer));
      }
      if sound { SoundIs(); }
    }

    /** Answer a batch nothing will answer any more: behind everything forwarded, one error
        result for each of the calls the head is waiting for. */
    method CloseOpenBatch()
      requires Valid()
      modifies this
      ensures Valid() && view == S.CloseOpenBatch(old(view))
      ensures !old(Awaiting(items)) ==> items == old(items) && fifo == old(fifo) && log == old(log)
      ensures old(Awaiting(items)) && old(fate) > 0 ==>
                && |items| == |old(Projected())| + 1 && old(Projected()) <= items && fifo == []
                && Answers(old(items)[|old(items)| - 1], items[|items| - 1])
      ensures old(Sound()) ==> Sound()
    {
      ghost var sound := Sound();
      hide S.Append, CommitLaws.Inv, CommitLaws.Kept, Replay, CommitLaws.OkItems, Tokens, CommitLaws.ResolvedTickets,
           CommitLaws.Tickets, ToolUses, Repair.UnansweredResults, Answers;
      if Awaiting(items) {
        Repair.StubAnswers(items[|items| - 1]);
        var _ := Append(ItemEntry(Repair.Stub(items[|items| - 1])));
      }
    }

    // ---- Folds and clears --------------------------------------------------------------------

    method Repoint(to: seq<Item>)
      requires Valid()
      modifies this
      ensures Valid() && view == S.Repoint(old(view), to)
    {
      hide Tokens;
      items, estimated := to, Tokens(to);
      view := S.Repoint(view, to);
    }

    /** Drain, choose, log, re-point: the cut is made on what the drain landed. */
    method Compact(spec: Option<S.SpecDigest>, focus: Option<string>, input: S.FoldInput) returns (folded: bool)
      requires Valid()
      modifies this
      ensures Valid() && view == S.Compact(old(view), spec, focus, input)
      ensures folded == S.Compacts(old(view), spec, focus, input)
      ensures !folded ==> items == old(Projected()) && log == old(log)
      ensures folded ==> |log| == |old(log)| + 1 && old(log) <= log
                         && FoldedAs(old(Projected()), spec, focus, input, log[|log| - 1], items)
      ensures Told() == old(Told() + Verdicts.Due(fifo, true)) && fifo == []
      ensures old(Sound()) ==> Sound()
    {
      ghost var was, sound := view, Sound();
      FoldSays(was, spec, focus, input);
      Verdicts.CompactTells(was, spec, focus, input);
      if sound {
        SoundInv();
        CommitLaws.CompactInv(was, spec, focus, input);
      }
      ValidFields();
      folded := Fold(spec, focus, input);
      hide *;
      ValidFields();
      ToldIs();
      if sound { SoundIs(); }
    }

    lemma ToldIs()
      requires Valid()
      ensures Told() == Verdicts.Told(view.trace)
    {
    }

    method Fold(spec: Option<S.SpecDigest>, focus: Option<string>, input: S.FoldInput) returns (folded: bool)
      requires Valid()
      modifies this
      ensures Valid() && view == S.Compact(old(view), spec, focus, input)
      ensures folded == S.Compacts(old(view), spec, focus, input)
    {
      hide S.Drain, S.FoldChoice, S.Commit, S.Repoint, Apply, CommitLaws.Inv, CommitLaws.Kept, Replay,
           CommitLaws.OkItems, Tokens, CommitLaws.ResolvedTickets, CommitLaws.Tickets, Verdicts.Told, Verdicts.Due;
      CommitLaws.DrainEffect(view, true);
      Drain(true);
      var choice := ChooseFold(items, spec, focus, input);
      if choice.None? { return false; }
      var (plan, digest) := choice.value;
      CommitKeepsItems(view, CompactionEntry(digest, plan.prefixEnd, plan.keptFrom, input.pins));
      folded := Commit(CompactionEntry(digest, plan.prefixEnd, plan.keptFrom, input.pins));
      if folded { Repoint(Apply(items, plan, digest, input.pins)); }
    }

    /** Contents are stubbed, and nothing else about the projection changes: every index still
        names the same item, and a batch that was open still is. */
    method TryClear(ids: seq<string>) returns (cleared: bool)
      requires Valid()
      modifies this
      ensures Valid() && view == S.Clear(old(view), ids)
      ensures cleared == (old(fate) > 0) && fifo == []
      ensures log == old(log) + (if cleared then [ClearedEntry(ids)] else [])
      ensures SameShapes(old(Projected()), items) && Awaiting(items) == Awaiting(old(Projected()))
      ensures !cleared ==> items == old(Projected())
      ensures cleared ==> Contents.ClearOf(old(Projected()), ids, items)
      ensures Told() == old(Told() + Verdicts.Due(fifo, true))
      ensures old(Sound()) ==> Sound()
    {
      ghost var sound := Sound();
      ClearSays(view, ids);
      Verdicts.ClearTells(view, ids);
      hide S.Drain, S.Commit, S.Repoint, ClearResults, CommitLaws.Inv, CommitLaws.Kept, Replay, CommitLaws.OkItems,
           Tokens, CommitLaws.ResolvedTickets, CommitLaws.Tickets, SameShapes, Awaiting, Contents.ClearOf,
           Verdicts.Told, Verdicts.Due;
      CommitLaws.DrainEffect(view, true);
      Drain(true);
      CommitKeepsItems(view, ClearedEntry(ids));
      cleared := Commit(ClearedEntry(ids));
      if cleared { Repoint(ClearResults(items, ids)); }
      if sound { SoundIs(); }
    }

    // ---- Turns -----------------------------------------------------------------------------------

    /** A turn begins or the session idles; either way no batch of its own is open. */
    method SetRunning(on: bool)
      requires Valid()
      modifies this`running, this`view
      ensures Valid() && view == old(view).(running := on, turnOpen := false) && running == on
    {
      running, view := on, view.(running := on, turnOpen := false);
    }

    /** On a live log the turn runs, and its prompt is the very next entry and the very next
        item; on a sealed one nothing is logged, and only an unrefused forward still runs. */
    method StartTurn(prompt: QueuedPrompt, start: S.Start)
      requires Valid()
      modifies this
      ensures Valid() && view == S.StartTurn(old(view), prompt, start)
      ensures old(fate) > 0 ==>
                && running
                && old(log) + [ItemEntry(User(prompt.text, prompt.synthetic, prompt.images))] <= log
                && old(Projected()) + [User(prompt.text, prompt.synthetic, prompt.images)] <= Projected()
      ensures fate > 0 ==> old(log) <= log && Effects.Begins(old(held), prompt, start, log[|old(log)|..])
      ensures old(fate) == 0 ==>
                && log == old(log) && Projected() == old(Projected())
                && (running <==> start.fast && old(held) == [] && !start.refused)
      ensures old(Sound()) ==> Sound()
    {
      ghost var sound := Sound();
      ghost var was := view;
      StartSays(was, prompt, start);
      PromptIsItem(prompt);
      StartBegins(was, prompt, start);
      if sound { SoundInv(); }
      ValidFields();
      Begin(prompt, start);
      hide *;
      ValidFields();
      RunningIs();
      if sound { SoundIs(); }
    }

    lemma RunningIs()
      requires Valid()
      ensures running == view.running && held == view.held
    {
    }

    method Begin(prompt: QueuedPrompt, start: S.Start)
      requires Valid()
      modifies this
      ensures Valid() && view == S.StartTurn(old(view), prompt, start)
    {
      hide S.Append, S.Forward, S.PromptItem, S.Reminder, CommitLaws.Inv, CommitLaws.Kept, Replay, CommitLaws.OkItems,
           Tokens, ItemsOf, CommitLaws.ResolvedTickets, CommitLaws.Tickets;
      var entry := ItemEntry(S.PromptItem(prompt));
      if start.fast && held == [] {
        var ticket := Forward([entry], start.refused);
        SetRunning(ticket.Some?);
      } else {
        var ok := Append(entry);
        if ok && start.reminder.Some? {
          var _ := Append(ItemEntry(S.Reminder(start.reminder.value)));
        }
        SetRunning(ok);
      }
    }

    /** Behind a running turn only the queue moves, and stays bounded; otherwise a turn starts. */
    method AdmitPrompt(prompt: QueuedPrompt, start: S.Start)
      requires Valid()
      modifies this
      ensures Valid() && view == S.AdmitPrompt(old(view), prompt, start)
      ensures old(running) ==>
                && items == old(items) && fifo == old(fifo) && log == old(log) && held == old(held) && running
                && PromptWaits(old(queue), prompt, queue)
                && forall m: nat | QueueBounded(old(queue), m) && QueueIncoming(prompt, m) :: QueueBounded(queue, m)
      ensures !old(running) && old(fate) > 0 ==>
                running && old(Projected()) + [User(prompt.text, prompt.synthetic, prompt.images)] <= Projected()
      ensures old(Sound()) ==> Sound()
    {
      ghost var sound := Sound();
      if sound { PromptInv(view, prompt, start); }
      hide PromptWaits, Effects.Begins, S.StartTurn, S.PromptItem, Queued, QueueBounded, QueueIncoming,
           QueueMarkedOnce, Unquoted, CommitLaws.Inv,
           Replay, CommitLaws.OkItems, Tokens, CommitLaws.ResolvedTickets;
      if running {
        var more := QueuePrompt(queue, prompt);
        Enqueue(more);
      } else {
        StartTurn(prompt, start);
      }
      if sound { SoundIs(); }
    }

    method Enqueue(prompts: seq<QueuedPrompt>)
      requires Valid()
      modifies this`queue, this`view
      ensures Valid() && view == old(view).(queue := prompts)
    {
      queue, view := prompts, view.(queue := prompts);
    }

    method Park(fold: Option<Option<string>>)
      requires Valid()
      modifies this`foldPending, this`view
      ensures Valid() && view == old(view).(foldPending := fold)
    {
      foldPending, view := fold, view.(foldPending := fold);
    }

    method Notes(n: nat)
      requires Valid()
      modifies this
      ensures Valid() && view == S.Notes(old(view), n)
    {
      hide *;
      ghost var start := view;
      for i := 0 to n
        invariant Valid()
        invariant S.Notes(view, n - i) == S.Notes(start, n)
      {
        CommitLaws.NotesUnfolds(view, n - i);
        var _ := Append(LogOnly);
      }
      CommitLaws.NotesUnfolds(view, 0);
    }

    method EndTurn(f: S.Finish)
      requires Valid()
      modifies this
      ensures Valid() && view == S.EndTurn(old(view), f)
      ensures old(foldPending) == None && fate > 0 ==>
                if old(queue) == [] then !running && queue == []
                else
                  var n := |old(log)| + if f.annotate then 1 else 0;
                  && running && queue == old(queue)[1..]
                  && n <= |log| && Effects.Begins(old(held), old(queue)[0], f.start, log[n..])
    {
      EndTurnSays(view, f);
      hide S.Append, S.Compact, S.StartTurn, S.Compacts, FoldedAs, Verdicts.Told, Verdicts.Due, Effects.Begins,
           CommitLaws.Inv, CommitLaws.Kept, Replay, CommitLaws.OkItems, Tokens, CommitLaws.ResolvedTickets;
      if f.annotate { var _ := Append(LogOnly); }
      if foldPending.Some? {
        var focus := foldPending.value;
        Park(None);
        var _ := Compact(None, focus, f.fold);
      }
      if queue != [] {
        var next := queue[0];
        Enqueue(queue[1..]);
        StartTurn(next, f.start);
      } else {
        SetRunning(false);
      }
    }

    method Finish(f: S.Finish)
      requires Valid()
      modifies this
      ensures Valid() && view == S.Finished(old(view), f)
      ensures fate > 0 ==>
                && old(log) <= log
                && Effects.GoesOn(old(Projected()), old(Effects.RoomsOf(view)), f, log[|old(log)|..],
                                  Effects.RoomsOf(view))
    {
      FinishedSays(view, f);
      hide S.Notes, S.StartTurn, S.EndTurn;
      Notes(f.notes);
      match f.guidance {
        case Some(text) => StartTurn(QueuedPrompt(text, [], Some(GoalGuidance)), f.start);
        case None => EndTurn(f);
      }
    }

    /** The turn goes on after a fold or a clear; the batch it left is closed. */
    ghost method Respawn()
      requires Valid()
      modifies this`view
      ensures Valid() && view == old(view).(turnOpen := false)
    {
      view := view.(turnOpen := false);
    }

    /** Drain until the turn's cancel drops the fold: the queue keeps what was not drained. */
    method DrainSome(n: nat)
      requires Valid()
      modifies this
      ensures Valid() && view == S.DrainSome(old(view), n)
    {
      hide *;
      ghost var start := view;
      var i := 0;
      HoldsField();
      while i < n && fifo != []
        invariant Valid() && i <= n
        invariant S.DrainSome(view, n - i) == S.DrainSome(start, n)
      {
        HoldsField();
        CommitLaws.DrainSomeUnfolds(view, n - i);
        CommitLaws.DrainOneFields(view, true);
        SettleIs(view.fifo[0], true);
        var ticket, verdict := ApplyAck(true);
        Publish();
        Resolve(ticket, verdict);
        i := i + 1;
      }
      HoldsField();
      CommitLaws.DrainSomeUnfolds(view, n - i);
    }

    /** The fold's entry reaches the writer, and the fold is dropped before its ack. */
    method CompactCut(spec: Option<S.SpecDigest>, focus: Option<string>, input: S.FoldInput)
      requires Valid()
      modifies this
      ensures Valid() && view == S.CompactCut(old(view), spec, focus, input)
      ensures items == old(Projected()) && fifo == []
      ensures |log| == |old(log)| + (if S.Compacts(old(view), spec, focus, input) then 1 else 0)
    {
      hide S.Drain, S.FoldChoice, CommitLaws.Inv, CommitLaws.Kept, Replay, CommitLaws.OkItems, Tokens,
           CommitLaws.ResolvedTickets, CommitLaws.Tickets;
      CommitLaws.DrainEffect(view, true);
      Drain(true);
      var choice := ChooseFold(items, spec, focus, input);
      if choice.Some? {
        var (plan, digest) := choice.value;
        Strand(CompactionEntry(digest, plan.prefixEnd, plan.keptFrom, input.pins));
      }
    }

    method Strand(payload: Payload)
      requires Valid()
      modifies this`minted, this`fate, this`log, this`view
      ensures Valid() && view == S.Strand(old(view), payload)
      ensures log == old(log) + (if old(fate) > 0 then [payload] else [])
    {
      minted := minted + 1;
      if fate > 0 { fate, log := fate - 1, log + [payload]; }
      view := S.Strand(view, payload);
    }

    /** A fold on behalf of a turn, wherever the turn's cancel catches it. */
    method FoldForTurn(spec: Option<S.SpecDigest>, focus: Option<string>, cancel: S.Cancel, f: S.Finish)
      requires Valid()
      modifies this
      ensures Valid() && view == S.FoldForTurn(old(view), spec, focus, cancel, f)
    {
      hide S.Compact, S.CompactCut, S.Compacts, S.DrainSome, S.Finished;
      match cancel {
        case Early(drained) =>
          DrainSome(drained);
          Finish(f);
        case AtEntry =>
          CompactCut(spec, focus, f.fold);
          Finish(f);
        case Never =>
          var folded := Compact(spec, focus, f.fold);
          if folded { Respawn(); } else { Finish(f); }
        case Late =>
          var _ := Compact(spec, focus, f.fold);
          Finish(f);
      }
    }

    method OnTurnFinished(end: S.TurnEnd, f: S.Finish)
      requires Valid()
      modifies this
      ensures Valid() && view == S.OnTurnFinished(old(view), end, f)
    {
      hide S.FoldForTurn, S.Clear, S.Finished;
      match end {
        case Ended => Finish(f);
        case WantsFold(spec, skipped, cancel) =>
          var focus := if foldPending.Some? then foldPending.value else None;
          Park(None);
          if skipped { Finish(f); } else { FoldForTurn(if focus.None? then spec else None, focus, cancel, f); }
        case WantsClear(ids, interrupted) =>
          var cleared := TryClear(ids);
          if cleared && !interrupted { Respawn(); } else { Finish(f); }
      }
    }

    method TurnFinished(end: S.TurnEnd, switched: bool, f: S.Finish)
      requires Valid()
      modifies this
      ensures Valid() && view == S.TurnFinished(old(view), end, switched, f)
      ensures fate > 0 ==>
                && old(log) <= log
                && Effects.Ends(old(view), end, switched, f, log[|old(log)|..], Effects.RoomsOf(view))
    {
      TurnFinishedSays(view, end, switched, f);
      hide S.CloseOpenBatch, S.ReleaseSteers, S.Append, S.OnTurnFinished;
      CloseOpenBatch();
      ReleaseSteers();
      if switched { var _ := Append(LogOnly); }
      OnTurnFinished(end, f);
    }

    /** A stale proposal commits nothing. A pipelined one moves no head and resolves no ticket:
        its items are only in flight. */
    method CommitPrepared(entries: seq<Payload>, stale: bool, pipelined: bool, refused: bool)
      requires Valid()
      modifies this
      ensures Valid() && view == S.ProposePrepared(old(view), entries, stale, pipelined, refused)
      ensures stale ==> view == old(view) && log == old(log) && fifo == old(fifo) && items == old(items)
      ensures !stale && pipelined ==>
                && items == old(items) && epoch == old(epoch) && Resolved() == old(Resolved())
                && Projected() == old(Projected()) + (if old(fate) > 0 then ItemsOf(entries) else [])
      ensures old(Sound()) && NoRepoint(entries) ==> Sound()
    {
      ghost var sound := Sound() && NoRepoint(entries);
      ghost var was := view;
      ProposeSays(was, entries, stale, pipelined, refused);
      if sound { SoundInv(); }
      ValidFields();
      Propose(entries, stale, pipelined, refused);
      hide *;
      ValidFields();
      if sound { SoundIs(); }
    }

    method Propose(entries: seq<Payload>, stale: bool, pipelined: bool, refused: bool)
      requires Valid()
      modifies this
      ensures Valid() && view == S.ProposePrepared(old(view), entries, stale, pipelined, refused)
    {
      hide S.Forward, S.AppendAll, S.ReleaseSteers, S.OpenAfter, CommitLaws.Inv, CommitLaws.Kept, Replay,
           CommitLaws.OkItems, Tokens, ItemsOf, CommitLaws.ResolvedTickets, CommitLaws.Tickets, NoRepoint, Awaiting;
      if stale { return; }
      view := view.(turnOpen := S.OpenAfter(view.turnOpen, entries));
      if pipelined {
        if entries != [] { var _ := Forward(entries, refused); }
      } else {
        var _ := AppendAll(entries);
        ReleaseSteers();
      }
    }

    // ---- The loop ----------------------------------------------------------------------------------

    /** One command. It only adds to the log and to the tickets resolved; it keeps the commit
        laws if the proposals are plain, and adjacency if the turn keeps its promises. */
    method Handle(cmd: S.Cmd)
      requires Valid()
      modifies this
      ensures Valid() && view == S.Step(old(view), cmd)
      ensures old(log) <= log && old(Resolved()) <= Resolved() && fate <= old(fate)
      ensures fate > 0 ==> Effects.Did(old(view), cmd, view)
      ensures old(fate) == 0 ==> Sealed.Stays(old(view), view) && Sealed.Leaves(old(view), cmd, Effects.RoomsOf(view))
      ensures old(Sound()) && CommitLaws.Plain(cmd) ==> Sound()
      ensures forall law: PairingLaws.Law
                | && PairingLaws.PairInv(law, old(view)) && PairingLaws.Allowed(old(view), cmd)
                  && (law.byId ==> PairingLaws.ById(old(view), cmd)) ::
                PairingLaws.PairInv(law, view)
    {
      hide Effects.Did, Sealed.Stays, Sealed.Leaves, PairingLaws.PairInv, PairingLaws.Allowed, PairingLaws.ById,
           S.Step, CommitLaws.Plain,
           CommitLaws.Inv, CommitLaws.Kept, Replay, CommitLaws.OkItems, Tokens, CommitLaws.ResolvedTickets;
      ghost var was, sound := view, Sound();
      Dispatch(cmd);
      StepSays(was, cmd);
      if sound && CommitLaws.Plain(cmd) { SoundIs(); }
    }

    method Dispatch(cmd: S.Cmd)
      requires Valid()
      modifies this
      ensures Valid() && view == S.Step(old(view), cmd)
    {
      hide S.AckArrives, S.AdmitPrompt, S.AdmitSteer, S.Append, S.AppendAll, S.ProposePrepared, S.Compact,
           S.TurnFinished, Pushed, Withdrawn, Awaiting, S.NeedsContinuation, S.Reminder, S.NotifyPrompt, S.Compacts,
           SteerWaits, PromptWaits, FoldedAs, Effects.Ends, Verdicts.Told, Verdicts.Due, FirstOf, Bounded,
           QueueBounded, Incoming, QueueIncoming, AllMarkedOnce, Unquoted;
      match cmd {
        case AckCmd => if fifo != [] { AckArrives(); }
        case PromptCmd(prompt, start) => AdmitPrompt(prompt, start);
        case SteerCmd(steer) => AdmitSteer(steer);
        case NotifyCmd(steer, start) =>
          if running || Awaiting(items) {
            var more := PushOrFoldSteer(held, steer);
            Hold(more);
          } else {
            AdmitPrompt(S.NotifyPrompt(steer), start);
          }
        case UnnotifyCmd(key) => Hold(Withdrawn(held, key));
        case ContinueCmd => if !running && S.NeedsContinuation(items) { SetRunning(true); }
        case NoteCmd => var _ := Append(LogOnly);
        case SetPlanCmd(body) =>
          var _ := Append(LogOnly);
          var _ := Append(ItemEntry(S.Reminder(body)));
        case ProposeCmd(entries) => var _ := AppendAll(entries);
        case ProposePreparedCmd(entries, stale, pipelined, refused) =>
          CommitPrepared(entries, stale, pipelined, refused);
        case FoldCmd(focus, input) =>
          if running { Park(Some(focus)); } else { var _ := Compact(None, focus, input); }
        case TurnFinishedCmd(end, switched, finish) => TurnFinished(end, switched, finish);
      }
    }

    /** The whole loop, from where the session stands. */
    method Serve(cmds: seq<S.Cmd>)
      requires Valid()
      modifies this
      ensures Valid() && view == S.Run(old(view), cmds)
    {
      hide *;
      ghost var start := view;
      RunNone(start);
      for i := 0 to |cmds|
        invariant Valid()
        invariant view == S.Run(start, cmds[..i])
      {
        RunSnoc(start, cmds[..i], cmds[i]);
        assert cmds[..i] + [cmds[i]] == cmds[..i + 1];
        Handle(cmds[i]);
      }
      assert cmds[..|cmds|] == cmds;
    }
  }

  // ---- What each operation of the transition system comes to ----------------------------------------

  lemma SoundFields(s: S.State)
    requires CommitLaws.Inv(s)
    ensures s.estimated == Tokens(s.items)
    ensures Replay(s.seed, CommitLaws.Kept(s.log, s.stranded)) == PairingLaws.Forwarded(s)
    ensures s.stranded == {} ==> Replay(s.seed, s.log) == PairingLaws.Forwarded(s)
  {
    hide *;
    CommitLaws.InvDef(s);
    CommitLaws.CoreDef(s, multiset{});
    CommitTheorems.HeadAndLog(s);
    CommitTheorems.LogReplaysToHeadAndQueue(s);
    ForwardedIs(s);
  }

  lemma ForwardedIs(s: S.State)
    ensures PairingLaws.Forwarded(s) == s.items + CommitLaws.OkItems(s.fifo)
  {
  }

  lemma DrainSays(s: S.State, abort: bool)
    ensures var t := S.Drain(s, abort);
            && t.items == s.items + CommitLaws.OkItems(s.fifo) && t.log == s.log
            && CommitLaws.ResolvedTickets(t.trace)
               == CommitLaws.ResolvedTickets(s.trace) + CommitLaws.Tickets(s.fifo)
    ensures CommitLaws.Inv(s) ==> CommitLaws.Inv(S.Drain(s, abort))
  {
    hide *;
    CommitLaws.DrainEffect(s, abort);
    CommitLaws.DrainResolvesInOrder(s, abort);
    if CommitLaws.Inv(s) { CommitLaws.DrainInv(s, abort); }
  }

  lemma AppendSays(s: S.State, payload: Payload)
    ensures var t := S.Append(s, payload);
            && t.items == s.items + CommitLaws.OkItems(s.fifo)
                          + (if s.fate > 0 && payload.ItemEntry? then [payload.item] else [])
            && t.fifo == [] && t.log == s.log + (if s.fate > 0 then [payload] else [])
            && t.held == s.held && t.queue == s.queue && t.running == s.running
            && CommitLaws.ResolvedTickets(t.trace)
               == CommitLaws.ResolvedTickets(s.trace) + CommitLaws.Tickets(s.fifo)
    ensures CommitLaws.Inv(s) && !Repoints(payload) ==> CommitLaws.Inv(S.Append(s, payload))
  {
    hide *;
    PairingLaws.AppendForwards(s, payload);
    ForwardedIs(s);
    EnteredIs(s, payload);
    CommitLaws.AppendLine(s, payload);
    CommitTheorems.NoTickets(S.Append(s, payload));
    LineIs(s);
    SameTurnIs(s, S.Append(s, payload));
    CommitLaws.AppendUnfolds(s, payload);
    CommitLaws.DrainEffect(s, false);
    CommitLogs(S.Drain(s, false), payload);
    if CommitLaws.Inv(s) && !Repoints(payload) { CommitLaws.AppendInv(s, payload); }
  }

  lemma EnteredIs(s: S.State, payload: Payload)
    ensures PairingLaws.Entered(s, payload) == if s.fate > 0 && payload.ItemEntry? then [payload.item] else []
  {
  }

  lemma LineIs(s: S.State)
    ensures CommitLaws.Line(s) == CommitLaws.ResolvedTickets(s.trace) + CommitLaws.Tickets(s.fifo)
  {
  }

  lemma SameTurnIs(s: S.State, t: S.State)
    requires PairingLaws.SameTurn(s, t)
    ensures t.held == s.held && t.queue == s.queue && t.running == s.running
  {
  }

  lemma CommitLogs(s: S.State, payload: Payload)
    ensures S.Commit(s, payload).log == s.log + (if s.fate > 0 then [payload] else [])
  {
    hide Tokens;
  }

  lemma ForwardSays(s: S.State, entries: seq<Payload>, refused: bool)
    ensures var t := S.Forward(s, entries, refused);
            && PairingLaws.Forwarded(t) == PairingLaws.Forwarded(s) + (if s.fate > 0 then ItemsOf(entries) else [])
            && t.items == s.items && t.epoch == s.epoch && t.trace == s.trace
    ensures CommitLaws.Inv(s) && NoRepoint(entries) && entries != [] ==> CommitLaws.Inv(S.Forward(s, entries, refused))
  {
    PairingLaws.ForwardForwards(s, entries, refused);
    if CommitLaws.Inv(s) && NoRepoint(entries) && entries != [] { CommitLaws.ForwardInv(s, entries, refused); }
    hide CommitLaws.Inv, PairingLaws.Forwarded, ItemsOf, NoRepoint;
  }

  lemma ReleaseSays(s: S.State)
    ensures var t := S.ReleaseSteers(s);
            && PairingLaws.Forwarded(s) <= PairingLaws.Forwarded(t)
            && (s.held != [] && !Awaiting(s.items) ==> t.held == [] && t.fifo == [])
            && (s.held == [] || Awaiting(s.items) ==> t == s)
    ensures CommitLaws.Inv(s) ==> CommitLaws.Inv(S.ReleaseSteers(s))
  {
    hide *;
    CommitLaws.ReleaseUnfolds(s);
    if CommitLaws.Inv(s) { CommitLaws.ReleaseSteersInv(s); }
    if s.held != [] && !Awaiting(s.items) {
      var h := s.(held := []);
      PairingLaws.ForwardedFrame(s, h);
      PairingLaws.SteersGrow(h, s.held);
      CommitLaws.AppendSteersLine(h, s.held);
      SteersStay(h, s.held);
    }
  }

  lemma {:induction false} SteersStay(s: S.State, steers: seq<HeldSteer>)
    ensures S.AppendSteers(s, steers).held == s.held
    decreases |steers|
  {
    hide *;
    CommitLaws.AppendSteersUnfolds(s, steers);
    if steers != [] {
      PairingLaws.AppendForwards(s, S.SteerEntry(steers[0]));
      SameTurnIs(s, S.Append(s, S.SteerEntry(steers[0])));
      SteersStay(S.Append(s, S.SteerEntry(steers[0])), steers[1..]);
    }
  }

  lemma AckSays(s: S.State)
    requires s.fifo != []
    ensures var at, rest, t := s.fifo[0].at, CommitLaws.Tickets(s.fifo[1..]), S.AckArrives(s);
            && PairingLaws.Forwarded(s) <= PairingLaws.Forwarded(t)
            && if S.Overtakes(s)
               then CommitLaws.ResolvedTickets(t.trace) == CommitLaws.ResolvedTickets(s.trace) + rest + [at]
                    && t.fifo == []
               else CommitLaws.ResolvedTickets(t.trace) + CommitLaws.Tickets(t.fifo)
                    == CommitLaws.ResolvedTickets(s.trace) + [at] + rest
    ensures CommitLaws.Inv(s) ==> CommitLaws.Inv(S.AckArrives(s))
  {
    hide *;
    var t, marked := S.AckArrives(s), s.(overtook := s.overtook || S.Overtakes(s));
    CommitLaws.AckLine(s);
    LineIs(t);
    CommitTheorems.NoTickets(t);
    if S.Overtakes(s) { CommitTheorems.AckFifo(s); }
    PairingLaws.ForwardedFrame(s, marked);
    PairingLaws.LandedForwards(marked);
    var r := S.ReleaseSteers(S.Landed(marked));
    ReleaseSays(S.Landed(marked));
    CommitLaws.AckUnfolds(s, r);
    PairingLaws.VisibleFrame(r, s.fifo[0].at, S.Settle(s.fifo[0], false));
    PairingLaws.ForwardedFrame(r, t);
    if CommitLaws.Inv(s) { CommitLaws.AckArrivesInv(s); }
  }

  lemma SteerIsEntry(steer: HeldSteer)
    ensures S.SteerEntry(steer) == ItemEntry(User(steer.text, Some(steer.synthetic), steer.images))
  {
  }

  lemma PromptIsItem(prompt: QueuedPrompt)
    ensures S.PromptItem(prompt) == User(prompt.text, prompt.synthetic, prompt.images)
  {
  }

  lemma SettleIs(unit: S.PendingAck, abort: bool)
    ensures S.Settle(unit, abort) == if !unit.ack then S.LogSealed else if abort then S.Aborted else S.Acked
  {
  }

  /** As many entries as the writer still takes. */
  function FirstOf(entries: seq<Payload>, fate: nat): seq<Payload> {
    entries[..if fate < |entries| then fate else |entries|]
  }

  lemma FirstSteps(entries: seq<Payload>, fate: nat)
    ensures fate == 0 || entries == [] ==> FirstOf(entries, fate) == []
    ensures fate > 0 && entries != [] ==> FirstOf(entries, fate) == [entries[0]] + FirstOf(entries[1..], fate - 1)
  {
  }

  lemma AppendFate(s: S.State, payload: Payload)
    ensures S.Append(s, payload).fate == if s.fate > 0 then s.fate - 1 else 0
    ensures S.Append(s, payload).log == s.log + (if s.fate > 0 then [payload] else [])
  {
    hide *;
    PairingLaws.AppendForwards(s, payload);
    AppendSays(s, payload);
  }

  lemma {:induction false} AppendAllLogs(s: S.State, entries: seq<Payload>)
    ensures S.AppendAll(s, entries).log == s.log + FirstOf(entries, s.fate)
    decreases |entries|
  {
    hide *;
    CommitLaws.AppendAllUnfolds(s, entries);
    FirstSteps(entries, s.fate);
    if entries != [] {
      AppendFate(s, entries[0]);
      if s.fate > 0 {
        AppendAllLogs(S.Append(s, entries[0]), entries[1..]);
        Assoc(s.log, [entries[0]], FirstOf(entries[1..], s.fate - 1));
      }
    }
  }

  lemma {:induction false} SteersLog(s: S.State, steers: seq<HeldSteer>)
    ensures S.AppendSteers(s, steers).log == s.log + FirstOf(Effects.SteerEntries(steers), s.fate)
    decreases |steers|
  {
    hide *;
    CommitLaws.AppendSteersUnfolds(s, steers);
    Effects.SteersCount(steers);
    FirstSteps(Effects.SteerEntries(steers), s.fate);
    if steers != [] {
      var a, rest := S.Append(s, S.SteerEntry(steers[0])), Effects.SteerEntries(steers[1..]);
      AppendFate(s, S.SteerEntry(steers[0]));
      SteersLog(a, steers[1..]);
      FirstSteps(rest, a.fate);
      assert Effects.SteerEntries(steers)[1..] == rest;
      if s.fate > 0 { Assoc(s.log, [S.SteerEntry(steers[0])], FirstOf(rest, s.fate - 1)); }
    }
  }

  lemma ReleaseLogs(s: S.State)
    ensures S.ReleaseSteers(s).log
         == s.log + (if Awaiting(s.items) then [] else FirstOf(Effects.SteerEntries(s.held), s.fate))
  {
    hide *;
    CommitLaws.ReleaseUnfolds(s);
    Effects.SteersCount(s.held);
    FirstSteps(Effects.SteerEntries(s.held), s.fate);
    if s.held != [] && !Awaiting(s.items) { SteersLog(s.(held := []), s.held); }
  }

  lemma AckTold(s: S.State)
    requires s.fifo != []
    ensures var head := s.items + if s.fifo[0].ack then s.fifo[0].items else [];
            Verdicts.Told(S.AckArrives(s).trace)
            == Verdicts.Told(s.trace)
               + (if s.held == [] || Awaiting(head) then [] else Verdicts.Due(s.fifo[1..], false))
               + Verdicts.Due(s.fifo[..1], false)
  {
    hide *;
    Verdicts.AckTells(s);
    assert s.items + [] == s.items;
  }

  lemma SteerInv(s: S.State, steer: HeldSteer)
    requires CommitLaws.Inv(s)
    ensures CommitLaws.Inv(S.AdmitSteer(s, steer))
  {
    hide CommitLaws.Inv, S.Append, Awaiting, Pushed;
    if s.running || Awaiting(s.items) {
      CommitLaws.FrameInv(s, S.AdmitSteer(s, steer));
    } else {
      CommitLaws.AppendInv(s, S.SteerEntry(steer));
    }
  }

  lemma PromptInv(s: S.State, prompt: QueuedPrompt, start: S.Start)
    requires CommitLaws.Inv(s)
    ensures CommitLaws.Inv(S.AdmitPrompt(s, prompt, start))
  {
    hide CommitLaws.Inv, S.StartTurn, Queued;
    if s.running {
      CommitLaws.FrameInv(s, S.AdmitPrompt(s, prompt, start));
    } else {
      CommitLaws.StartTurnInv(s, prompt, start);
    }
  }

  lemma LandedSays(s: S.State)
    requires s.fifo != []
    ensures var t, unit := S.Landed(s), s.fifo[0];
            && PairingLaws.Forwarded(t) == PairingLaws.Forwarded(s) && t.fifo == s.fifo[1..] && t.log == s.log
            && (s.estimated == Tokens(s.items) ==> t.estimated == Tokens(t.items))
            && (if unit.ack then s.items <= t.items && t.epoch == unit.at else t.items == s.items && t.epoch == s.epoch)
  {
    PairingLaws.LandedForwards(s);
    TokensConcat(s.items, s.fifo[0].items);
    hide Tokens, PairingLaws.Forwarded;
  }

  lemma ProposeSays(s: S.State, entries: seq<Payload>, stale: bool, pipelined: bool, refused: bool)
    ensures var t := S.ProposePrepared(s, entries, stale, pipelined, refused);
            && (stale ==> t == s)
            && (!stale && pipelined ==>
                  && t.items == s.items && t.epoch == s.epoch && t.trace == s.trace
                  && PairingLaws.Forwarded(t)
                     == PairingLaws.Forwarded(s) + (if s.fate > 0 then ItemsOf(entries) else []))
            && (CommitLaws.Inv(s) && NoRepoint(entries) ==> CommitLaws.Inv(t))
  {
    if CommitLaws.Inv(s) && NoRepoint(entries) {
      CommitLaws.ProposePreparedInv(s, entries, stale, pipelined, refused);
    }
    hide S.Forward, S.AppendAll, S.ReleaseSteers, S.OpenAfter, CommitLaws.Inv, PairingLaws.Forwarded, ItemsOf,
         NoRepoint;
    var t := s.(turnOpen := S.OpenAfter(s.turnOpen, entries));
    ForwardSays(t, entries, refused);
    PairingLaws.ForwardedFrame(s, t);
    PairingLaws.ItemsOfNone(PairingLaws.Forwarded(s));
  }

  lemma StartSays(s: S.State, prompt: QueuedPrompt, start: S.Start)
    ensures var t, item := S.StartTurn(s, prompt, start), S.PromptItem(prompt);
            && (s.fate > 0 ==>
                  && t.running && s.log + [ItemEntry(item)] <= t.log
                  && PairingLaws.Forwarded(s) + [item] <= PairingLaws.Forwarded(t))
            && (s.fate == 0 ==>
                  && t.log == s.log && PairingLaws.Forwarded(t) == PairingLaws.Forwarded(s)
                  && (t.running <==> start.fast && s.held == [] && !start.refused))
    ensures CommitLaws.Inv(s) ==> CommitLaws.Inv(S.StartTurn(s, prompt, start))
  {
    hide *;
    var entry := ItemEntry(S.PromptItem(prompt));
    var a := S.Append(s, entry);
    if CommitLaws.Inv(s) { CommitLaws.StartTurnInv(s, prompt, start); }
    StartRuns(s, prompt, start);
    CommitLaws.StartTurnUnfolds(s, prompt, start);
    PairingLaws.OneItem(S.PromptItem(prompt));
    PairingLaws.ItemsOfNone(PairingLaws.Forwarded(s));
    if start.fast && s.held == [] {
      PairingLaws.ForwardForwards(s, [entry], start.refused);
      ForwardLogs(s, [entry], start.refused);
      SameFields(S.Forward(s, [entry], start.refused), S.StartTurn(s, prompt, start));
    } else {
      AppendSays(s, entry);
      PairingLaws.AppendForwards(s, entry);
      EnteredIs(s, entry);
      if s.fate > 0 && start.reminder.Some? {
        var more := ItemEntry(S.Reminder(start.reminder.value));
        AppendSays(a, more);
        PairingLaws.AppendForwards(a, more);
        SameFields(S.Append(a, more), S.StartTurn(s, prompt, start));
      } else {
        SameFields(a, S.StartTurn(s, prompt, start));
      }
    }
  }

  lemma StartRuns(s: S.State, prompt: QueuedPrompt, start: S.Start)
    ensures S.StartTurn(s, prompt, start).running <==> s.fate > 0 || (start.fast && s.held == [] && !start.refused)
  {
    hide S.Append, S.Forward, S.PromptItem, S.Reminder;
  }

  lemma ForwardLogs(s: S.State, entries: seq<Payload>, refused: bool)
    ensures S.Forward(s, entries, refused).log == s.log + (if s.fate > 0 then entries else [])
  {
    assert s.log + [] == s.log;
  }

  lemma SameFields(s: S.State, t: S.State)
    requires CommitLaws.SameCommits(s, t)
    ensures t.log == s.log && PairingLaws.Forwarded(t) == PairingLaws.Forwarded(s)
  {
  }

  lemma ClearSays(s: S.State, ids: seq<string>)
    ensures var t, before := S.Clear(s, ids), s.items + CommitLaws.OkItems(s.fifo);
            && t.items == (if s.fate > 0 then ClearResults(before, ids) else before)
            && t.log == s.log + (if s.fate > 0 then [ClearedEntry(ids)] else []) && t.fifo == []
            && SameShapes(before, t.items) && Awaiting(t.items) == Awaiting(before)
            && (s.fate > 0 ==> Contents.ClearOf(before, ids, t.items))
    ensures CommitLaws.Inv(s) ==> CommitLaws.Inv(S.Clear(s, ids))
  {
    hide *;
    var d := S.Drain(s, true);
    CommitLaws.DrainEffect(s, true);
    ClearFields(s, ids);
    ClearKeepsPairing(d.items, ids);
    Contents.ClearsExactly(d.items, ids, ClearResults(d.items, ids));
    ShapesItself(d.items);
    if CommitLaws.Inv(s) {
      CommitLaws.DrainInv(s, true);
      CommitLaws.ClearWithInv(d, ids);
    }
  }

  lemma ShapesItself(items: seq<Item>)
    ensures SameShapes(items, items)
  {
  }

  lemma ClearFields(s: S.State, ids: seq<string>)
    ensures var t, d := S.Clear(s, ids), S.Drain(s, true);
            && t == S.ClearWith(d, ids)
            && t.items == (if d.fate > 0 then ClearResults(d.items, ids) else d.items)
            && t.log == d.log + (if d.fate > 0 then [ClearedEntry(ids)] else []) && t.fifo == d.fifo
  {
    hide S.Drain, ClearResults, Tokens;
  }

  lemma StepSays(s: S.State, cmd: S.Cmd)
    ensures S.Step(s, cmd).fate > 0 ==> Effects.Did(s, cmd, S.Step(s, cmd))
    ensures s.fate == 0 ==> Sealed.Stays(s, S.Step(s, cmd)) && Sealed.Leaves(s, cmd, Effects.RoomsOf(S.Step(s, cmd)))
    ensures var t := S.Step(s, cmd);
            && s.log <= t.log && t.fate <= s.fate
            && CommitLaws.ResolvedTickets(s.trace) <= CommitLaws.ResolvedTickets(t.trace)
            && (CommitLaws.Inv(s) && CommitLaws.Plain(cmd) ==> CommitLaws.Inv(t))
    ensures forall law: PairingLaws.Law
              | && PairingLaws.PairInv(law, s) && PairingLaws.Allowed(s, cmd)
                && (law.byId ==> PairingLaws.ById(s, cmd)) ::
              PairingLaws.PairInv(law, S.Step(s, cmd))
  {
    hide *;
    var t := S.Step(s, cmd);
    if t.fate > 0 { Effects.StepDid(s, cmd); }
    if s.fate == 0 { Sealed.StepSealed(s, cmd); }
    History.StepContinues(s, cmd);
    ContinuesIs(s, t);
    CommitTheorems.ResolvedPrefix(s.trace, t.trace);
    if CommitLaws.Inv(s) && CommitLaws.Plain(cmd) { CommitLaws.StepInv(s, cmd); }
    forall law: PairingLaws.Law
      | && PairingLaws.PairInv(law, s) && PairingLaws.Allowed(s, cmd)
        && (law.byId ==> PairingLaws.ById(s, cmd))
      ensures PairingLaws.PairInv(law, t)
    {
      PairingLaws.StepPairs(law, s, cmd);
    }
  }

  lemma ContinuesIs(s: S.State, t: S.State)
    requires History.Continues(s, t)
    ensures s.log <= t.log && t.fate <= s.fate && s.trace <= t.trace
  {
  }

  /** What a fold is, told over the projection it met: its cut, its digest, its pins, and what the
      entry and the head have of them. */
  ghost predicate FoldedAs(before: seq<Item>, spec: Option<S.SpecDigest>, focus: Option<string>, input: S.FoldInput,
                           entry: Payload, after: seq<Item>)
  {
    exists plan: Plan, summary: Option<string>, digest: seq<Item> ::
      && plan.prefixEnd <= plan.keptFrom <= |before|
      && Effects.Cuts(before, spec, focus, input, plan, summary) && Effects.Digests(summary, digest)
      && entry == CompactionEntry(digest, plan.prefixEnd, plan.keptFrom, input.pins)
      && Contents.FoldOf(before, plan, digest, input.pins, after)
  }

  lemma FoldSays(s: S.State, spec: Option<S.SpecDigest>, focus: Option<string>, input: S.FoldInput)
    ensures var before, t := s.items + CommitLaws.OkItems(s.fifo), S.Compact(s, spec, focus, input);
            && t.fifo == []
            && (!S.Compacts(s, spec, focus, input) ==> t.items == before && t.log == s.log)
            && (S.Compacts(s, spec, focus, input) ==>
                  && |t.log| == |s.log| + 1 && s.log <= t.log
                  && FoldedAs(before, spec, focus, input, t.log[|t.log| - 1], t.items))
  {
    hide *;
    var d, t := S.Drain(s, true), S.Compact(s, spec, focus, input);
    CommitLaws.DrainEffect(s, true);
    CommitLaws.CompactUnfolds(s, spec, focus, input);
    Effects.CompactsIs(s, spec, focus, input);
    Effects.ChoiceSays(d.items, spec, focus, input);
    var choice := S.FoldChoice(d.items, spec, focus, input);
    if choice.Some? {
      var (plan, digest) := choice.value;
      FoldWithFields(d, plan, digest, input.pins);
      Contents.FoldKeepsPins(d.items, plan, digest, input.pins, Apply(d.items, plan, digest, input.pins));
      if S.Compacts(s, spec, focus, input) {
        FoldedAsIs(d.items, spec, focus, input, plan, digest, t.items);
      }
    }
  }

  lemma FoldedAsIs(before: seq<Item>, spec: Option<S.SpecDigest>, focus: Option<string>, input: S.FoldInput,
                   plan: Plan, digest: seq<Item>, after: seq<Item>)
    requires plan.prefixEnd <= plan.keptFrom <= |before| && Contents.FoldOf(before, plan, digest, input.pins, after)
    requires exists summary: Option<string> ::
               Effects.Cuts(before, spec, focus, input, plan, summary) && Effects.Digests(summary, digest)
    ensures FoldedAs(before, spec, focus, input, CompactionEntry(digest, plan.prefixEnd, plan.keptFrom, input.pins),
                     after)
  {
    hide Effects.Cuts, Effects.Digests, Contents.FoldOf;
  }

  lemma FoldWithFields(d: S.State, plan: Plan, digest: seq<Item>, pins: seq<string>)
    requires plan.prefixEnd <= plan.keptFrom <= |d.items|
    ensures var t := S.FoldWith(d, plan, digest, pins);
            && t.fifo == d.fifo
            && (d.fate == 0 ==> t.items == d.items && t.log == d.log)
            && (d.fate > 0 ==>
                  && t.log == d.log + [CompactionEntry(digest, plan.prefixEnd, plan.keptFrom, pins)]
                  && t.items == Apply(d.items, plan, digest, pins))
  {
    hide Tokens, Apply;
  }

  lemma StartBegins(s: S.State, prompt: QueuedPrompt, start: S.Start)
    ensures var t := S.StartTurn(s, prompt, start);
            t.fate > 0 ==> s.log <= t.log && Effects.Begins(s.held, prompt, start, t.log[|s.log|..])
  {
    hide *;
    if S.StartTurn(s, prompt, start).fate > 0 {
      var w := Effects.StartWrites(s, prompt, start);
      Effects.WroteLog(s, w, S.StartTurn(s, prompt, start));
    }
  }

  lemma FinishedSays(s: S.State, f: S.Finish)
    ensures var t := S.Finished(s, f);
            t.fate > 0 ==>
              && s.log <= t.log
              && Effects.GoesOn(s.items + CommitLaws.OkItems(s.fifo), Effects.RoomsOf(s), f, t.log[|s.log|..],
                                Effects.RoomsOf(t))
  {
    hide *;
    if S.Finished(s, f).fate > 0 {
      var w := Effects.FinishedWrites(s, f);
      Effects.WroteLog(s, w, S.Finished(s, f));
      ForwardedIs(s);
    }
  }

  lemma TurnFinishedSays(s: S.State, end: S.TurnEnd, switched: bool, f: S.Finish)
    ensures var t := S.TurnFinished(s, end, switched, f);
            t.fate > 0 ==>
              s.log <= t.log && Effects.Ends(s, end, switched, f, t.log[|s.log|..], Effects.RoomsOf(t))
  {
    hide *;
    if S.TurnFinished(s, end, switched, f).fate > 0 {
      var w := Effects.TurnFinishedWrites(s, end, switched, f);
      Effects.WroteLog(s, w, S.TurnFinished(s, end, switched, f));
    }
  }

  lemma EndTurnSays(s: S.State, f: S.Finish)
    ensures var t, n := S.EndTurn(s, f), if f.annotate then 1 else 0;
            s.foldPending == None && t.fate > 0 ==>
              if s.queue == [] then !t.running && t.queue == []
              else && t.running && t.queue == s.queue[1..] && |s.log| + n <= |t.log|
                   && Effects.Begins(s.held, s.queue[0], f.start, t.log[|s.log| + n..])
  {
    hide *;
    var t, n := S.EndTurn(s, f), if f.annotate then 1 else 0;
    if s.foldPending == None && t.fate > 0 {
      var fold, prompted := Effects.EndTurnWrites(s, f);
      NotesWritten(s, n, fold + prompted, t);
      TakenUp(PairingLaws.Forwarded(s), s, f, fold, prompted, t);
      assert [] + prompted == prompted;
    }
  }

  lemma NotesWritten(s: S.State, n: nat, rest: seq<Payload>, t: S.State)
    requires Effects.Wrote(s, Effects.NoteEntries(n) + rest, t)
    ensures |s.log| + n <= |t.log| && t.log[|s.log| + n..] == rest
  {
  }

  lemma TakenUp(proj: seq<Item>, s: S.State, f: S.Finish, fold: seq<Payload>, prompted: seq<Payload>, t: S.State)
    requires s.foldPending == None
    requires Effects.TakesUp(proj, Effects.RoomsOf(s), f, fold, prompted, Effects.RoomsOf(t))
    ensures fold == []
    ensures if s.queue == [] then !t.running && t.queue == []
            else t.running && t.queue == s.queue[1..] && Effects.Begins(s.held, s.queue[0], f.start, prompted)
  {
    hide Effects.Begins, Effects.FoldWrites;
  }

  // ---- Small facts --------------------------------------------------------------------------------

  lemma LoggedFields(s: S.State, payload: Payload)
    requires s.fate > 0
    ensures var l := S.Logged(s, payload);
            && l.minted == s.minted + 1 && l.fate == s.fate - 1 && l.log == s.log + [payload] && l.epoch == s.minted + 1
            && l.items == (if payload.ItemEntry? then s.items + [payload.item] else s.items)
            && l.estimated == (if payload.ItemEntry? then s.estimated + Tokens([payload.item]) else s.estimated)
            && l.seed == s.seed && l.fifo == s.fifo && l.held == s.held && l.queue == s.queue
            && l.running == s.running && l.foldPending == s.foldPending
  {
    if !payload.ItemEntry? {
      assert s.items + [] == s.items;
      assert Tokens([]) == 0;
    }
  }

  lemma CommitKeepsItems(s: S.State, payload: Payload)
    requires !payload.ItemEntry?
    ensures S.Commit(s, payload).items == s.items
  {
    hide Tokens;
  }

  lemma RunNone(s: S.State)
    ensures S.Run(s, []) == s
  {
    hide S.Step;
  }

  lemma RunSnoc(s: S.State, cmds: seq<S.Cmd>, cmd: S.Cmd)
    ensures S.Run(s, cmds + [cmd]) == S.Step(S.Run(s, cmds), cmd)
  {
    hide S.Step;
    assert (cmds + [cmd])[..|cmds|] == cmds;
  }

  /** The planner's answer is the plan the transition system chooses. */
  lemma PlanOfIs(items: seq<Item>, tailBudget: nat, imageBudget: nat, plan: Option<Plan>)
    requires plan.None? <==> forall b: nat :: !Boundary(items, b)
    requires plan.Some? ==> BestPlan(items, tailBudget, imageBudget, plan.value)
    ensures S.PlanOf(items, tailBudget, imageBudget) == plan
  {
    if plan.Some? {
      forall q: Plan | BestPlan(items, tailBudget, imageBudget, q)
        ensures q == plan.value
      {
        BestPlanUnique(items, tailBudget, imageBudget, plan.value, q);
      }
    }
  }

  method ChooseFold(items: seq<Item>, spec: Option<S.SpecDigest>, focus: Option<string>, input: S.FoldInput)
    returns (choice: Option<(Plan, seq<Item>)>)
    ensures choice == S.FoldChoice(items, spec, focus, input)
  {
    hide BestPlan, Boundary, S.PlanOf, S.DigestOf;
    if !input.reset && focus.None? && spec.Some?
       && spec.value.plan.prefixEnd < spec.value.plan.keptFrom <= |items| {
      return Some((spec.value.plan, S.DigestOf(Some(spec.value.text))));
    }
    var plan := PlanFold(items, input.tailBudget, input.imageBudget);
    PlanOfIs(items, input.tailBudget, input.imageBudget, plan);
    match plan {
      case None => choice := None;
      case Some(p) =>
        var cut := if input.reset then Plan(p.prefixEnd, |items|) else p;
        choice := Some((cut, S.DigestOf(input.summary)));
    }
  }

  /** A session opened and driven by any commands its environment promises keeps both laws. */
  method Session(history: seq<Item>, writes: nat, cmds: seq<S.Cmd>) returns (actor: Actor)
    requires forall i :: 0 <= i < |cmds| ==> CommitLaws.Plain(cmds[i])
    requires PairingLaws.AllAllowed(S.Opened(history, writes), cmds)
    ensures fresh(actor)
    ensures actor.items + CommitLaws.OkItems(actor.fifo)
         == Replay(actor.seed, CommitLaws.Kept(actor.log, actor.view.stranded))
    ensures actor.view.stranded == {} ==>
              actor.items + CommitLaws.OkItems(actor.fifo) == Replay(actor.seed, actor.log)
    ensures Adjacent(actor.items) && (actor.fate > 0 && !actor.running ==> Answered(actor.items))
  {
    hide S.Opened, S.Run, CommitLaws.OkItems, CommitLaws.Kept, Replay, Adjacent, Answered, CommitLaws.Plain,
         PairingLaws.AllAllowed;
    actor := new Actor(history, writes);
    actor.Serve(cmds);
    CommitTheorems.RunReplays(history, writes, cmds);
    PairingLaws.RunKeepsAdjacency(history, writes, cmds);
  }
}
