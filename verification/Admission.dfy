/** What becomes of the prompts people send: over whole runs each of them is started once or still
    waits, in the order they came. */
module Admission {
  import opened Items
  import opened Compaction
  import opened HeldBuffer
  import opened Session
  import Disclosure
  import Effects
  import History
  import PairingLaws
  import Repair

  // ---- Who said what ----------------------------------------------------------------

  predicate Human(payload: Payload) {
    payload.ItemEntry? && payload.item.User? && payload.item.synthetic == None
  }

  /** What people said, as the log has it. */
  function Humans(log: seq<Payload>): seq<Item> {
    if log == [] then []
    else Humans(log[..|log| - 1]) + (if Human(log[|log| - 1]) then [log[|log| - 1].item] else [])
  }

  predicate HumanFree(log: seq<Payload>) {
    forall i :: 0 <= i < |log| ==> !Human(log[i])
  }

  function Said(prompt: QueuedPrompt): Item {
    User(prompt.text, prompt.synthetic, prompt.images)
  }

  function AllSaid(prompts: seq<QueuedPrompt>): seq<Item> {
    seq(|prompts|, i requires 0 <= i < |prompts| => Said(prompts[i]))
  }

  /** What was started, and behind it what waits. */
  function StartedThenWaiting(s: State): seq<Item> {
    Humans(s.log) + AllSaid(s.queue)
  }

  /** Prompts come from people, and proposals do not speak for them. */
  predicate Honest(cmd: Cmd) {
    match cmd
    case PromptCmd(prompt, _) => prompt.synthetic == None
    case ProposeCmd(entries) => HumanFree(entries)
    case ProposePreparedCmd(entries, _, _, _) => HumanFree(entries)
    case _ => true
  }

  /** The prompts that came, in order. */
  function Prompts(cmds: seq<Cmd>): seq<QueuedPrompt> {
    if cmds == [] then []
    else Prompts(cmds[..|cmds| - 1]) + (if cmds[|cmds| - 1].PromptCmd? then [cmds[|cmds| - 1].prompt] else [])
  }

  // ---- What an entry list says ----------------------------------------------------------

  lemma {:induction false} HumansConcat(a: seq<Payload>, b: seq<Payload>)
    ensures Humans(a + b) == Humans(a) + Humans(b)
  {
    if b == [] {
      assert a + b == a;
    } else {
      HumansConcat(a, b[..|b| - 1]);
      assert (a + b)[..|a + b| - 1] == a + b[..|b| - 1];
    }
  }

  lemma {:induction false} FreeSaysNothing(log: seq<Payload>)
    requires HumanFree(log)
    ensures Humans(log) == []
  {
    if log != [] { FreeSaysNothing(log[..|log| - 1]); }
  }

  lemma OneSays(payload: Payload)
    ensures Humans([payload]) == if Human(payload) then [payload.item] else []
  {
    assert [payload][..0] == [];
  }

  lemma NotesSayNothing(n: nat)
    ensures Humans(Effects.NoteEntries(n)) == []
  {
    FreeSaysNothing(Effects.NoteEntries(n));
  }

  lemma SteersSayNothing(steers: seq<HeldSteer>)
    ensures Humans(Effects.SteerEntries(steers)) == []
  {
    FreeSaysNothing(Effects.SteerEntries(steers));
  }

  lemma FoldSaysNothing(proj: seq<Item>, spec: Option<SpecDigest>, focus: Option<string>, input: FoldInput,
                        w: seq<Payload>)
    requires Effects.FoldWrites(proj, spec, focus, input, w)
    ensures Humans(w) == []
  {
    hide Effects.Cuts, Effects.Digests;
    FreeSaysNothing(w);
  }

  lemma BeginSays(held: seq<HeldSteer>, prompt: QueuedPrompt, start: Start, w: seq<Payload>)
    requires Effects.Begins(held, prompt, start, w)
    ensures Humans(w) == if prompt.synthetic == None then [Said(prompt)] else []
  {
    var first := ItemEntry(Said(prompt));
    OneSays(first);
    if start.reminder.Some? && !(start.fast && held == []) {
      HumansConcat([first], [Effects.Reminded(start.reminder.value)]);
      OneSays(Effects.Reminded(start.reminder.value));
    } else {
      assert w == [first];
    }
  }

  predicate AllHuman(queue: seq<QueuedPrompt>) {
    forall i :: 0 <= i < |queue| ==> queue[i].synthetic == None
  }

  lemma TakesUpSays(proj: seq<Item>, r: Effects.Rooms, f: Finish, fold: seq<Payload>, prompted: seq<Payload>,
                    t: Effects.Rooms)
    requires Effects.TakesUp(proj, r, f, fold, prompted, t) && AllHuman(r.queue)
    ensures Humans(fold) == []
    ensures Humans(prompted) + AllSaid(t.queue) == AllSaid(r.queue)
    ensures t.running <==> r.queue != []
  {
    hide Effects.FoldWrites, Effects.Begins, Humans;
    NoneSays();
    if r.foldPending.Some? { FoldSaysNothing(proj, None, r.foldPending.value, f.fold, fold); }
    if r.queue != [] { BeginSays(r.held, r.queue[0], f.start, prompted); }
  }

  lemma NoneSays()
    ensures Humans([]) == []
  {
  }

  /** Whatever the session goes on to, nothing is said twice and nothing is left unsaid. */
  lemma GoesOnSays(proj: seq<Item>, r: Effects.Rooms, f: Finish, w: seq<Payload>, t: Effects.Rooms)
    requires Effects.GoesOn(proj, r, f, w, t) && AllHuman(r.queue)
    ensures Humans(w) + AllSaid(t.queue) == AllSaid(r.queue)
    ensures t.queue != [] ==> t.running
  {
    hide Effects.TakesUp, Effects.Begins, Effects.NoteEntries, Humans;
    NotesSayNothing(f.notes);
    NotesSayNothing(if f.annotate then 1 else 0);
    match f.guidance {
      case Some(text) =>
        var prompted :| Effects.Pursues(r, text, f, prompted, t) && w == Effects.NoteEntries(f.notes) + prompted;
        BeginSays(r.held, QueuedPrompt(text, [], Some(GoalGuidance)), f.start, prompted);
        HumansConcat(Effects.NoteEntries(f.notes), prompted);
      case None =>
        var note := Effects.NoteEntries(if f.annotate then 1 else 0);
        var fold, prompted :| Effects.TakesUp(proj, r, f, fold, prompted, t)
          && w == Effects.NoteEntries(f.notes) + (note + (fold + prompted));
        TakesUpSays(proj, r, f, fold, prompted, t);
        HumansConcat(Effects.NoteEntries(f.notes), note + (fold + prompted));
        HumansConcat(note, fold + prompted);
        HumansConcat(fold, prompted);
        QueueShrinks(prompted, r, t);
    }
  }

  lemma QueueShrinks(prompted: seq<Payload>, r: Effects.Rooms, t: Effects.Rooms)
    requires Humans(prompted) + AllSaid(t.queue) == AllSaid(r.queue)
    ensures t.queue != [] ==> r.queue != []
  {
    hide Humans;
  }

  lemma OutcomeSays(proj: seq<Item>, r: Effects.Rooms, end: TurnEnd, f: Finish, w: seq<Payload>, t: Effects.Rooms)
    requires Effects.Outcome(proj, r, end, f, w, t) && AllHuman(r.queue)
    requires r.queue != [] ==> r.running
    ensures Humans(w) + AllSaid(t.queue) == AllSaid(r.queue)
    ensures t.queue != [] ==> t.running
  {
    hide Effects.GoesOn, Effects.FoldWrites, Humans, ClearResults;
    NoneSays();
    match end {
      case Ended => GoesOnSays(proj, r, f, w, t);
      case WantsFold(spec, skipped, cancel) =>
        var focus := if r.foldPending.Some? then r.foldPending.value else None;
        var adopted := if focus == None then spec else None;
        var on := r.(foldPending := None);
        if skipped || cancel.Early? {
          GoesOnSays(proj, on, f, w, t);
        } else {
          var fold, rest :| w == fold + rest && Effects.FoldWrites(proj, adopted, focus, f.fold, fold)
            && if cancel.Never? && fold != [] then rest == [] && t == on else Effects.GoesOn(proj, on, f, rest, t);
          FoldSaysNothing(proj, adopted, focus, f.fold, fold);
          HumansConcat(fold, rest);
          if !(cancel.Never? && fold != []) { GoesOnSays(proj, on, f, rest, t); }
        }
      case WantsClear(ids, interrupted) =>
        var rest :| w == [ClearedEntry(ids)] + rest
          && if interrupted then Effects.GoesOn(ClearResults(proj, ids), r, f, rest, t) else rest == [] && t == r;
        OneSays(ClearedEntry(ids));
        HumansConcat([ClearedEntry(ids)], rest);
        if interrupted { GoesOnSays(ClearResults(proj, ids), r, f, rest, t); }
    }
  }

  lemma EndsSays(s: State, end: TurnEnd, switched: bool, f: Finish, w: seq<Payload>, t: Effects.Rooms)
    requires Effects.Ends(s, end, switched, f, w, t) && AllHuman(s.queue)
    requires s.queue != [] ==> s.running
    ensures Humans(w) + AllSaid(t.queue) == AllSaid(s.queue)
    ensures t.queue != [] ==> t.running
  {
    hide Effects.Outcome, Effects.Leaves, Humans, ItemsOf, PairingLaws.Forwarded;
    var r, proj := Effects.RoomsOf(s).(held := []), PairingLaws.Forwarded(s) + ItemsOf(Effects.Leaves(s, switched));
    var rest :| w == Effects.Leaves(s, switched) + rest && Effects.Outcome(proj, r, end, f, rest, t);
    OutcomeSays(proj, r, end, f, rest, t);
    LeavesSaysNothing(s, switched);
    HumansConcat(Effects.Leaves(s, switched), rest);
  }

  lemma LeavesSaysNothing(s: State, switched: bool)
    ensures Humans(Effects.Leaves(s, switched)) == []
  {
    hide ToolUses, Repair.UnansweredResults;
    FreeSaysNothing(Effects.Leaves(s, switched));
  }

  // ---- One command --------------------------------------------------------------------

  /** Nobody waits while the session idles, and everybody who waits is a person. */
  predicate Orderly(s: State) {
    AllHuman(s.queue) && (s.queue != [] ==> s.running)
  }

  /** Any other command moves prompts from waiting to started, or not at all. */
  lemma OthersKeep(s: State, cmd: Cmd, w: seq<Payload>, t: Effects.Rooms)
    requires Effects.Does(s, cmd, w, t) && Orderly(s) && Honest(cmd) && !cmd.PromptCmd?
    ensures Humans(w) + AllSaid(t.queue) == AllSaid(s.queue)
    ensures t.queue != [] ==> t.running
  {
    hide Effects.Ends, Effects.FoldWrites, Effects.Begins, Effects.SteerEntries, Awaiting, PairingLaws.Forwarded,
         ItemsOf, SteerWaits, Humans, Effects.WithoutKey, Effects.Reminded;
    NoneSays();
    match cmd {
      case AckCmd => SteersSayNothing(s.held);
      case SteerCmd(steer) => SteersSayNothing([steer]);
      case NotifyCmd(steer, start) =>
        if !(s.running || Awaiting(s.items)) {
          BeginSays(s.held, QueuedPrompt(steer.text, [], Some(steer.synthetic)), start, w);
        }
      case UnnotifyCmd(key) =>
      case ContinueCmd =>
      case NoteCmd => FreeSaysNothing(w);
      case SetPlanCmd(body) => PlanSaysNothing(body);
      case ProposeCmd(entries) => FreeSaysNothing(entries);
      case ProposePreparedCmd(entries, stale, pipelined, refused) =>
        if !stale { FreeSaysNothing(entries); }
        if !stale && !pipelined {
          var head := if entries == [] then s.items else PairingLaws.Forwarded(s) + ItemsOf(entries);
          var released :| w == entries + released && Effects.LetsIn(head, Effects.RoomsOf(s), released, t);
          SteersSayNothing(s.held);
          HumansConcat(entries, released);
        }
      case FoldCmd(focus, input) =>
        if !s.running { FoldSaysNothing(PairingLaws.Forwarded(s), None, focus, input, w); }
      case TurnFinishedCmd(end, switched, finish) => EndsSays(s, end, switched, finish, w, t);
    }
  }

  lemma PlanSaysNothing(body: string)
    ensures Humans([LogOnly, Effects.Reminded(body)]) == []
  {
    FreeSaysNothing([LogOnly, Effects.Reminded(body)]);
  }

  /** A prompt is the next one started, the last one waiting, or part of the last one waiting. */
  lemma PromptJoins(s: State, prompt: QueuedPrompt, start: Start, w: seq<Payload>, t: Effects.Rooms)
    requires Effects.Does(s, PromptCmd(prompt, start), w, t) && Orderly(s) && prompt.synthetic == None
    ensures AllHuman(t.queue) && (t.queue != [] ==> t.running)
    ensures if |s.queue| < QUEUE_MAX
            then Humans(w) + AllSaid(t.queue) == AllSaid(s.queue) + [Said(prompt)]
            else w == [] && PromptWaits(s.queue, prompt, t.queue)
  {
    hide Effects.Begins, TakesIn, Humans;
    NoneSays();
    if !s.running { BeginSays(s.held, prompt, start, w); }
  }

  // ---- Whole runs ----------------------------------------------------------------------

  /** The entry that prompts folded one behind the other make. */
  ghost predicate FoldedTo(group: seq<QueuedPrompt>, prompt: QueuedPrompt)
    requires group != []
    decreases |group|
  {
    if |group| == 1 then prompt == group[0]
    else
      var last := group[|group| - 1];
      exists front: QueuedPrompt ::
        && FoldedTo(group[..|group| - 1], front) && prompt.synthetic == front.synthetic
        && TakesIn(front.text, front.images, last.text, last.images, "prompt queue", prompt.text, prompt.images)
  }

  function Flat(groups: seq<seq<QueuedPrompt>>): seq<QueuedPrompt> {
    if groups == [] then [] else Flat(groups[..|groups| - 1]) + groups[|groups| - 1]
  }

  /** Each entry comes from its own group of prompts, and the groups are all of them in order. */
  ghost predicate Accounts(prompts: seq<QueuedPrompt>, groups: seq<seq<QueuedPrompt>>, entries: seq<QueuedPrompt>) {
    && Flat(groups) == prompts && |groups| == |entries|
    && forall i :: 0 <= i < |groups| ==> groups[i] != [] && FoldedTo(groups[i], entries[i])
  }

  lemma FlatSnoc(groups: seq<seq<QueuedPrompt>>, group: seq<QueuedPrompt>)
    ensures Flat(groups + [group]) == Flat(groups) + group
  {
    assert (groups + [group])[..|groups|] == groups;
  }

  lemma AccountsMore(prompts: seq<QueuedPrompt>, groups: seq<seq<QueuedPrompt>>, entries: seq<QueuedPrompt>,
                     prompt: QueuedPrompt)
    requires Accounts(prompts, groups, entries)
    ensures Accounts(prompts + [prompt], groups + [[prompt]], entries + [prompt])
  {
    FlatSnoc(groups, [prompt]);
    hide Flat, TakesIn;
  }

  lemma FoldedMore(group: seq<QueuedPrompt>, front: QueuedPrompt, last: QueuedPrompt, prompt: QueuedPrompt)
    requires group != [] && FoldedTo(group, front) && prompt.synthetic == front.synthetic
    requires TakesIn(front.text, front.images, last.text, last.images, "prompt queue", prompt.text, prompt.images)
    ensures FoldedTo(group + [last], prompt)
  {
    hide TakesIn;
    assert (group + [last])[..|group|] == group;
  }

  lemma AccountsFolded(prompts: seq<QueuedPrompt>, groups: seq<seq<QueuedPrompt>>, entries: seq<QueuedPrompt>,
                       more: QueuedPrompt, folded: QueuedPrompt)
    requires Accounts(prompts, groups, entries) && entries != []
    requires var was := entries[|entries| - 1];
             && folded.synthetic == was.synthetic
             && TakesIn(was.text, was.images, more.text, more.images, "prompt queue", folded.text, folded.images)
    ensures var n := |groups| - 1;
            Accounts(prompts + [more], groups[..n] + [groups[n] + [more]], entries[..n] + [folded])
  {
    hide Flat, FoldedTo, TakesIn;
    var n := |groups| - 1;
    FoldedMore(groups[n], entries[n], more, folded);
    FlatGrows(groups, more);
    var longer, later := groups[..n] + [groups[n] + [more]], entries[..n] + [folded];
    forall i | 0 <= i < |longer|
      ensures longer[i] != [] && FoldedTo(longer[i], later[i])
    {
      if i < n { assert longer[i] == groups[i] && later[i] == entries[i]; }
    }
  }

  lemma FlatGrows(groups: seq<seq<QueuedPrompt>>, more: QueuedPrompt)
    requires groups != []
    ensures var n := |groups| - 1; Flat(groups[..n] + [groups[n] + [more]]) == Flat(groups) + [more]
  {
    hide Flat;
    var n := |groups| - 1;
    FlatSnoc(groups[..n], groups[n]);
    FlatSnoc(groups[..n], groups[n] + [more]);
    assert groups[..n] + [groups[n]] == groups;
    Assoc(Flat(groups[..n]), groups[n], [more]);
  }

  lemma AllSaidConcat(a: seq<QueuedPrompt>, b: seq<QueuedPrompt>)
    ensures AllSaid(a + b) == AllSaid(a) + AllSaid(b)
  {
  }

  /** The last that is said is the last that waits. */
  lemma LastWaits(said: seq<Item>, queue: seq<QueuedPrompt>, entries: seq<QueuedPrompt>)
    requires AllSaid(entries) == said + AllSaid(queue) && queue != []
    ensures |entries| >= |queue| && entries[|entries| - 1] == queue[|queue| - 1]
    ensures AllSaid(entries[..|entries| - 1]) == said + AllSaid(queue[..|queue| - 1])
  {
    var e, q := |entries| - 1, |queue| - 1;
    assert |AllSaid(entries)| == |said| + |queue|;
    assert AllSaid(entries)[e] == AllSaid(queue)[q];
    assert entries == entries[..e] + [entries[e]] && queue == queue[..q] + [queue[q]];
    AllSaidConcat(entries[..e], [entries[e]]);
    AllSaidConcat(queue[..q], [queue[q]]);
    assert AllSaid(entries)[..e] == (said + AllSaid(queue))[..e];
  }

  lemma RunFolds(cmds: seq<Cmd>)
    requires cmds != []
    ensures forall s :: Run(s, cmds) == Step(Run(s, cmds[..|cmds| - 1]), cmds[|cmds| - 1])
  {
    hide Step;
  }

  lemma LiveBefore(s: State, cmd: Cmd)
    requires Step(s, cmd).fate > 0
    ensures s.fate > 0
  {
    hide *;
    History.StepContinues(s, cmd);
    Effects.LivesBack(s, Step(s, cmd));
  }

  lemma DidDoes(s: State, cmd: Cmd)
    requires Step(s, cmd).fate > 0
    ensures var t := Step(s, cmd);
            s.log <= t.log && Effects.Does(s, cmd, t.log[|s.log|..], Effects.RoomsOf(t))
  {
    hide Effects.Does, Step;
    Effects.StepDid(s, cmd);
  }

  /** The prompts a command brings. */
  function Brings(cmd: Cmd): seq<QueuedPrompt> {
    if cmd.PromptCmd? then [cmd.prompt] else []
  }

  lemma PromptsSnoc(cmds: seq<Cmd>)
    requires cmds != []
    ensures Prompts(cmds) == Prompts(cmds[..|cmds| - 1]) + Brings(cmds[|cmds| - 1])
  {
  }

  lemma StepAccounts(s: State, cmd: Cmd, prompts: seq<QueuedPrompt>, groups: seq<seq<QueuedPrompt>>,
                     entries: seq<QueuedPrompt>)
      returns (groups': seq<seq<QueuedPrompt>>, entries': seq<QueuedPrompt>)
    requires Step(s, cmd).fate > 0 && Orderly(s) && Honest(cmd)
    requires Accounts(prompts, groups, entries) && AllSaid(entries) == StartedThenWaiting(s)
    ensures Orderly(Step(s, cmd))
    ensures Accounts(prompts + Brings(cmd), groups', entries') && AllSaid(entries') == StartedThenWaiting(Step(s, cmd))
  {
    hide Step, Effects.Does, Accounts, Humans, TakesIn;
    var t := Step(s, cmd);
    DidDoes(s, cmd);
    var w := t.log[|s.log|..];
    assert t.log == s.log + w;
    HumansConcat(s.log, w);
    Assoc(Humans(s.log), Humans(w), AllSaid(t.queue));
    if cmd.PromptCmd? {
      PromptJoins(s, cmd.prompt, cmd.start, w, Effects.RoomsOf(t));
      if |s.queue| < QUEUE_MAX {
        AccountsMore(prompts, groups, entries, cmd.prompt);
        groups', entries' := groups + [[cmd.prompt]], entries + [cmd.prompt];
        AllSaidConcat(entries, [cmd.prompt]);
        Assoc(Humans(s.log), AllSaid(s.queue), [Said(cmd.prompt)]);
        assert AllSaid([cmd.prompt]) == [Said(cmd.prompt)];
      } else {
        NoneSays();
        groups', entries' := FoldIn(s, cmd.prompt, t.queue, prompts, groups, entries);
      }
    } else {
      OthersKeep(s, cmd, w, Effects.RoomsOf(t));
      OrderlyStays(s, w, t);
      groups', entries' := groups, entries;
      assert prompts + [] == prompts;
    }
  }

  lemma OrderlyStays(s: State, w: seq<Payload>, t: State)
    requires Orderly(s) && Humans(w) + AllSaid(t.queue) == AllSaid(s.queue) && (t.queue != [] ==> t.running)
    ensures Orderly(t)
  {
    hide Humans;
    var said, n := AllSaid(s.queue), |Humans(w)|;
    forall i | 0 <= i < |t.queue|
      ensures t.queue[i].synthetic == None
    {
      assert AllSaid(t.queue)[i] == said[n + i] == Said(s.queue[n + i]);
    }
  }

  lemma FoldIn(s: State, prompt: QueuedPrompt, queue: seq<QueuedPrompt>, prompts: seq<QueuedPrompt>,
               groups: seq<seq<QueuedPrompt>>, entries: seq<QueuedPrompt>)
      returns (groups': seq<seq<QueuedPrompt>>, entries': seq<QueuedPrompt>)
    requires |s.queue| >= QUEUE_MAX && PromptWaits(s.queue, prompt, queue)
    requires Accounts(prompts, groups, entries) && AllSaid(entries) == StartedThenWaiting(s)
    ensures Accounts(prompts + [prompt], groups', entries') && AllSaid(entries') == Humans(s.log) + AllSaid(queue)
  {
    hide Humans, TakesIn;
    LastWaits(Humans(s.log), s.queue, entries);
    var n, q := |entries| - 1, |queue| - 1;
    var folded := queue[q];
    AccountsFolded(prompts, groups, entries, prompt, folded);
    groups', entries' := groups[..n] + [groups[n] + [prompt]], entries[..n] + [folded];
    assert queue == s.queue[..q] + [folded];
    AllSaidConcat(s.queue[..q], [folded]);
    AllSaidConcat(entries[..n], [folded]);
    hide AllSaid;
    Assoc(Humans(s.log), AllSaid(s.queue[..q]), AllSaid([folded]));
  }

  lemma OpenedSaysNothing(history: seq<Item>, fate: nat)
    ensures var s := Opened(history, fate); Orderly(s) && StartedThenWaiting(s) == []
  {
    hide Repair.Resume, Tokens;
  }

  /** Over every run the log lives through, the prompts started, in order, and behind them those
      that wait are all the prompts that came, in order: each in an entry of its own, or, past
      the queue's limit, folded behind the one before. */
  lemma {:induction false} RunAccounts(history: seq<Item>, fate: nat, cmds: seq<Cmd>)
      returns (groups: seq<seq<QueuedPrompt>>, entries: seq<QueuedPrompt>)
    requires Run(Opened(history, fate), cmds).fate > 0
    requires forall i :: 0 <= i < |cmds| ==> Honest(cmds[i])
    ensures var s := Run(Opened(history, fate), cmds);
            && Accounts(Prompts(cmds), groups, entries)
            && AllSaid(entries) == StartedThenWaiting(s)
            && Orderly(s)
    decreases |cmds|
  {
    hide Step, Opened, Honest, StartedThenWaiting, Orderly, FoldedTo;
    if cmds == [] {
      OpenedSaysNothing(history, fate);
      groups, entries := [], [];
    } else {
      var front, last := cmds[..|cmds| - 1], cmds[|cmds| - 1];
      RunFolds(cmds);
      LiveBefore(Run(Opened(history, fate), front), last);
      groups, entries := RunAccounts(history, fate, front);
      PromptsSnoc(cmds);
      groups, entries := StepAccounts(Run(Opened(history, fate), front), last, Prompts(front), groups, entries);
    }
  }

  /** No prompt of the run met a full queue. */
  ghost predicate Roomy(s: State, cmds: seq<Cmd>) {
    forall k :: 0 <= k < |cmds| && cmds[k].PromptCmd? ==> |Run(s, cmds[..k]).queue| < QUEUE_MAX
  }

  lemma RoomyFront(s: State, cmds: seq<Cmd>)
    requires Roomy(s, cmds) && cmds != []
    ensures Roomy(s, cmds[..|cmds| - 1])
    ensures cmds[|cmds| - 1].PromptCmd? ==> |Run(s, cmds[..|cmds| - 1]).queue| < QUEUE_MAX
  {
    hide Run;
    var front := cmds[..|cmds| - 1];
    forall k | 0 <= k < |front| && front[k].PromptCmd?
      ensures |Run(s, front[..k]).queue| < QUEUE_MAX
    {
      assert front[..k] == cmds[..k];
    }
  }

  /** Then each is started or waits word for word, once and in its turn. */
  lemma {:induction false} RunKeepsPrompts(history: seq<Item>, fate: nat, cmds: seq<Cmd>)
    requires Run(Opened(history, fate), cmds).fate > 0
    requires forall i :: 0 <= i < |cmds| ==> Honest(cmds[i])
    requires Roomy(Opened(history, fate), cmds)
    ensures StartedThenWaiting(Run(Opened(history, fate), cmds)) == AllSaid(Prompts(cmds))
    decreases |cmds|
  {
    hide Step, Opened, Honest, StartedThenWaiting, Orderly, Roomy, Accounts;
    if cmds == [] {
      OpenedSaysNothing(history, fate);
      assert AllSaid([]) == [];
    } else {
      var front, last := cmds[..|cmds| - 1], cmds[|cmds| - 1];
      var s := Run(Opened(history, fate), front);
      RunFolds(cmds);
      LiveBefore(s, last);
      RoomyFront(Opened(history, fate), cmds);
      RunKeepsPrompts(history, fate, front);
      var groups, entries := RunAccounts(history, fate, front);
      PromptsSnoc(cmds);
      StepKeeps(s, last);
      AllSaidConcat(Prompts(front), Brings(last));
    }
  }

  lemma StepKeeps(s: State, cmd: Cmd)
    requires Step(s, cmd).fate > 0 && Orderly(s) && Honest(cmd)
    requires cmd.PromptCmd? ==> |s.queue| < QUEUE_MAX
    ensures StartedThenWaiting(Step(s, cmd)) == StartedThenWaiting(s) + AllSaid(Brings(cmd))
  {
    hide Step, Effects.Does, Humans;
    var t := Step(s, cmd);
    DidDoes(s, cmd);
    var w := t.log[|s.log|..];
    assert t.log == s.log + w;
    HumansConcat(s.log, w);
    Assoc(Humans(s.log), Humans(w), AllSaid(t.queue));
    if cmd.PromptCmd? {
      PromptJoins(s, cmd.prompt, cmd.start, w, Effects.RoomsOf(t));
      Assoc(Humans(s.log), AllSaid(s.queue), [Said(cmd.prompt)]);
      assert AllSaid([cmd.prompt]) == [Said(cmd.prompt)];
    } else {
      OthersKeep(s, cmd, w, Effects.RoomsOf(t));
      assert AllSaid([]) == [] && StartedThenWaiting(s) + [] == StartedThenWaiting(s);
    }
  }

  // ---- What a folded prompt tells -------------------------------------------------------

  /** The words of a group, each behind a blank line, with the counts of images left behind. */
  ghost predicate SaidBy(group: seq<QueuedPrompt>, said: string)
    requires group != []
    decreases |group|
  {
    if |group| == 1 then said == group[0].text
    else
      exists front: string, dropped: nat ::
        && SaidBy(group[..|group| - 1], front)
        && said == front + "\n\n" + (group[|group| - 1].text + DropNote(dropped, "prompt queue"))
  }

  /** An entry without the mark holds its whole group's words, where no message is shorter than
      what a cut can leave free. */
  lemma {:induction false} GroupDiscloses(group: seq<QueuedPrompt>, prompt: QueuedPrompt) returns (said: string)
    requires group != [] && FoldedTo(group, prompt)
    requires forall i :: 0 <= i < |group| ==> Disclosure.Plain(group[i].text)
    ensures SaidBy(group, said) && Disclosure.Tells(said, prompt.text, HELD_BYTES_MAX)
    decreases |group|
  {
    hide TakesIn, Disclosure.Plain, Disclosure.Tells, DropNote;
    if |group| == 1 {
      said := prompt.text;
      PlainTells(said);
    } else {
      var rest, last := group[..|group| - 1], group[|group| - 1];
      var front: QueuedPrompt :|
        && FoldedTo(rest, front) && prompt.synthetic == front.synthetic
        && TakesIn(front.text, front.images, last.text, last.images, "prompt queue", prompt.text, prompt.images);
      var before := GroupDiscloses(rest, front);
      var dropped := TakenText(front.text, front.images, last.text, last.images, prompt.text, prompt.images);
      var more := last.text + DropNote(dropped, "prompt queue");
      Disclosure.PlainNote(last.text, dropped, "prompt queue");
      Disclosure.PlainIs(more);
      Disclosure.TellsOn(before, front.text, more, HELD_BYTES_MAX);
      said := before + "\n\n" + more;
    }
  }

  lemma PlainTells(text: string)
    requires Disclosure.Plain(text)
    ensures Disclosure.Tells(text, text, HELD_BYTES_MAX)
  {
    hide Disclosure.Plain, MarkedOnce, Marked;
    Disclosure.PlainIs(text);
  }

  lemma TakenText(text: string, images: seq<Image>, more: string, moreImages: seq<Image>, outText: string,
                  outImages: seq<Image>) returns (dropped: nat)
    requires TakesIn(text, images, more, moreImages, "prompt queue", outText, outImages)
    ensures outText == Folded(text, more + DropNote(dropped, "prompt queue"), HELD_BYTES_MAX)
  {
    hide KeepsWhatFits, FoldsTo, Folded;
    dropped :| && KeepsWhatFits(images, moreImages, HELD_IMAGE_B64_MAX, outImages, dropped)
               && FoldsTo(text, more + (if dropped == 0 then ""
                                        else "\n[" + Decimal(dropped) + " image(s) not attached: " + "prompt queue"
                                             + " full]"), HELD_BYTES_MAX, outText);
    FoldsExactly(text, more + DropNote(dropped, "prompt queue"), HELD_BYTES_MAX, outText);
  }
}
