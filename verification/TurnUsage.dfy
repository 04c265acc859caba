/** What a turn costs and what it reports: every token a model call spends is reported at a
    turn's end, still carried, or lost for a named reason. */
module TurnUsage {
  import opened Items

  const MAX_COMPACT_STREAK := 2
  const GOAL_STALL_TURNS := 8

  // ---- Usage ----------------------------------------------------------------------------

  datatype Usage = Usage(input: nat, output: nat, cacheRead: nat, cacheWrite: nat, write5m: nat, write1h: nat) {
    function Plus(more: Usage): Usage {
      Usage(input + more.input, output + more.output, cacheRead + more.cacheRead,
            cacheWrite + more.cacheWrite, write5m + more.write5m, write1h + more.write1h)
    }
  }

  function Zero(): Usage {
    Usage(0, 0, 0, 0, 0, 0)
  }

  /** Why spent tokens reach no report. */
  datatype Cause =
    | Focused        // a human focus: the digest never saw it
    | StreakCap      // folding no longer makes room
    | StaleIndices   // the digest's cut no longer fits the projection
    | ResetMode      // a wider fold than the digest covered
    | TurnOver       // the turn ended without asking for it
    | Unclaimed      // it stalled, came out blank, or a clear made it needless
    | Interrupted    // the turn was cancelled while folding
    | SealedLog      // the log refused the fold
    | SummaryTimedOut // summarizing ran out of time behind a blank, billed attempt
    | EvaluatorCut   // the goal's evaluator was cancelled or ran out of time
    | Panicked       // the turn died and reported nothing

  datatype Loss = Loss(cause: Cause, usage: Usage, speculative: bool)

  function Sum(losses: seq<Loss>): Usage {
    if losses == [] then Zero() else Sum(losses[..|losses| - 1]).Plus(losses[|losses| - 1].usage)
  }

  function SumAll(usages: seq<Usage>): Usage {
    if usages == [] then Zero() else SumAll(usages[..|usages| - 1]).Plus(usages[|usages| - 1])
  }

  // ---- State ------------------------------------------------------------------------------

  datatype Goal = Goal(spent: Usage, turns: nat, idle: nat)

  /** `carry` is billed by the next report. The rest is history: everything spent, every report
      and every loss; and, for the goal in force, everything spent under it and the part its own
      total leaves out. */
  datatype Books = Books(
    carry: Usage, streak: nat, parked: Option<bool>, goal: Option<Goal>,
    incurred: Usage, reports: seq<Usage>, losses: seq<Loss>, underGoal: Usage, unbilled: Usage)

  function Opened(goal: Option<Goal>): Books {
    Books(Zero(), 0, None, if goal.None? then None else Some(Goal(Zero(), 0, 0)), Zero(), [], [], Zero(), Zero())
  }

  function Spend(b: Books, usage: Usage): Books {
    b.(incurred := b.incurred.Plus(usage), underGoal := b.underGoal.Plus(usage))
  }

  function Lose(b: Books, loss: Loss): Books {
    b.(losses := b.losses + [loss], unbilled := b.unbilled.Plus(loss.usage))
  }

  function Carry(b: Books, usage: Usage): Books {
    b.(carry := b.carry.Plus(usage))
  }

  function BillGoal(b: Books, usage: Usage): Books {
    if b.goal.Some? then b.(goal := Some(b.goal.value.(spent := b.goal.value.spent.Plus(usage)))) else b
  }

  /** Spend the goal's total never sees. */
  function SkipGoal(b: Books, usage: Usage): Books {
    b.(unbilled := b.unbilled.Plus(usage))
  }

  // ---- Folding -------------------------------------------------------------------------------

  /** A digest the turn computed ahead: what it cost, and whether its cut still fits. */
  datatype Digest = Digest(usage: Usage, fits: bool)

  /** What a fold meets: configuration, whether there is anything to fold, what summarizing
      costs, whether it runs out of time on the way, whether the log takes the entry. */
  datatype FoldInput = FoldInput(reset: bool, planned: bool, summary: Usage, timedOut: bool, sealed: bool)

  datatype Folded = Folded(usage: Usage) | NotFolded

  function Compact(b: Books, spec: Option<Digest>, focused: bool, f: FoldInput): (Books, Folded) {
    if !f.reset && !focused && spec.Some? && spec.value.fits then
      if f.sealed then (Lose(b, Loss(SealedLog, spec.value.usage, true)), NotFolded)
      else (b, Folded(spec.value.usage))
    else
      var dropped := if spec.None? then b
                     else Lose(b, Loss(if f.reset then ResetMode else if focused then Focused else StaleIndices,
                                       spec.value.usage, true));
      if !f.planned then (dropped, NotFolded)
      else
        var spent := Summarize(dropped, f);
        if f.sealed then (Lose(spent, Loss(SealedLog, Summary(f), false)), NotFolded)
        else (spent, Folded(Summary(f)))
  }

  /** What summarizing reports of what it cost: a timeout folds the placeholder and knows of
      no cost. */
  function Summary(f: FoldInput): Usage {
    if f.timedOut then Zero() else f.summary
  }

  function Summarize(b: Books, f: FoldInput): Books {
    var s := Spend(b, f.summary);
    if f.timedOut then Lose(s, Loss(SummaryTimedOut, f.summary, false)) else s
  }

  /** A human fold: its digest joins the carry, and no goal. */
  function FoldNow(b: Books, focused: bool, f: FoldInput): Books {
    match Compact(b, None, focused, f)
    case (c, Folded(usage)) => SkipGoal(Carry(c, usage), usage)
    case (c, NotFolded) => c
  }

  /** When the turn's token is cancelled: not at all, while folding with so much spent, or
      behind a finished fold. */
  datatype Cancel = Never | During(spent: Usage) | After

  /** The digest a turn's fold may use: a parked focus rules it out. */
  function Adopted(b: Books, spec: Option<Digest>): Option<Digest> {
    if b.parked == Some(true) then None else spec
  }

  /** A fold on behalf of a turn takes up what was parked, and counts towards the streak. */
  function Primed(b: Books, spec: Option<Digest>, progressed: bool): Books {
    var p := b.(parked := None, streak := (if progressed then 0 else b.streak) + 1);
    if b.parked == Some(true) then Forgo(p, spec, Focused) else p
  }

  function Forgo(b: Books, spec: Option<Digest>, cause: Cause): Books {
    if spec.Some? then Lose(b, Loss(cause, spec.value.usage, true)) else b
  }

  /** What a turn that wants a fold comes to: `None` runs on. */
  datatype Verdict = Done | Stopped | Failed

  function TryCompact(b: Books, spec: Option<Digest>, progressed: bool, cancel: Cancel, f: FoldInput)
    : (Books, Usage, Option<Verdict>, bool)
  {
    var kept, r := Adopted(b, spec), Primed(b, spec, progressed);
    if r.streak > MAX_COMPACT_STREAK then (Forgo(r, kept, StreakCap), Zero(), Some(Failed), true)
    else if cancel.During? then
      var s := Forgo(r, kept, Interrupted);
      (Lose(Spend(s, cancel.spent), Loss(Interrupted, cancel.spent, false)), Zero(), Some(Stopped), false)
    else
      match Compact(r, kept, b.parked == Some(true), f)
      case (c, Folded(usage)) => (c, usage, if cancel.After? then Some(Stopped) else None, false)
      case (c, NotFolded) => (c, Zero(), Some(Failed), false)
  }

  // ---- The end of a turn -----------------------------------------------------------------------

  datatype TurnEnd =
    | Ended(verdict: Verdict)
    | Died(spent: Usage)
    | WantsFold(spec: Option<Digest>, progressed: bool, cancel: Cancel, fold: FoldInput)
    | WantsClear(abandoned: Usage, sealed: bool, cancelled: bool)

  datatype GoalVerdict = Met | Impossible | NotYet | NoVerdict

  /** Whether the gate opens (nothing queued, nothing running), what the evaluator cost and
      said, whether it was cut short, and whether any tool ran. */
  datatype Gate = Gate(open: bool, eval: Usage, verdict: GoalVerdict, cut: bool, toolsRan: bool)

  /** `ahead` is what work done ahead of need cost and the turn did not hand over. */
  datatype Finish = Finish(
    end: TurnEnd, usage: Usage, ahead: Usage, unrecoverable: bool, gate: Gate, fold: FoldInput)

  /** What the turn hands over: its own usage, and its digest's if it came with one. */
  function HandedOver(f: Finish): Usage {
    match f.end
    case WantsFold(Some(spec), _, _, _) => f.usage.Plus(spec.usage)
    case WantsClear(abandoned, _, _) => f.usage.Plus(abandoned)
    case Died(_) => Zero()
    case _ => f.usage
  }

  /** Spending that the turn's report does not mention. */
  function SpendUnseen(b: Books, usage: Usage, cause: Cause, speculative: bool): Books {
    Lose(Spend(b, usage), Loss(cause, usage, speculative))
  }

  /** Everything the turn spent: what it hands over is in hand, the rest is lost already. */
  function Arrived(b: Books, f: Finish): Books {
    var s := SpendUnseen(b, f.ahead, if f.end.Ended? || f.end.Died? then TurnOver else Unclaimed, true);
    Spend(if f.end.Died? then SpendUnseen(s, f.end.spent, Panicked, false) else s, HandedOver(f))
  }

  /** Report the turn: its own usage and everything carried. */
  function Report(b: Books, usage: Usage): Books {
    b.(carry := Zero(), reports := b.reports + [usage.Plus(b.carry)])
  }

  function EndTurn(b: Books, usage: Usage, fold: FoldInput): Books {
    var r := Report(b, usage);
    if r.parked.Some? then FoldNow(r.(parked := None), r.parked.value, fold) else r
  }

  /** A goal laid down leaves nothing to account for. */
  function DropGoal(b: Books): Books {
    b.(goal := None)
  }

  /** The evaluator's cost is carried and billed to the goal, unless it was cut short: then
      nobody learns of it. */
  function Evaluate(b: Books, gate: Gate): Books {
    if gate.cut then SpendUnseen(b, gate.eval, EvaluatorCut, false)
    else BillGoal(Carry(Spend(b, gate.eval), gate.eval), gate.eval)
  }

  function GateVerdict(gate: Gate): GoalVerdict {
    if gate.cut then NoVerdict else gate.verdict
  }

  /** The gate: bill the goal for the turn and the evaluator, and either run on or report. */
  function Judge(b: Books, goal: Goal, usage: Usage, f: Finish): Books {
    var billed := BillGoal(b.(goal := Some(goal.(turns := goal.turns + 1))), usage);
    var carried := Evaluate(billed, f.gate);
    var g := carried.goal.value;
    match GateVerdict(f.gate)
    case NotYet =>
      var idle := if f.gate.toolsRan then 0 else g.idle + 1;
      if idle >= GOAL_STALL_TURNS then EndTurn(carried.(goal := Some(g.(idle := 0))), usage, f.fold)
      else Carry(carried.(goal := Some(g.(idle := idle))), usage)
    case NoVerdict => EndTurn(carried, usage, f.fold)
    case _ => EndTurn(DropGoal(carried), usage, f.fold)
  }

  /** Behind the outcome: an unrecoverable failure lays the goal down; a turn that is done
      meets the gate; any other ends ungated, and its last usage is the goal's no more. */
  function Settle(b: Books, verdict: Verdict, usage: Usage, unrecoverable: bool, f: Finish): Books {
    var r := b.(streak := 0);
    var g := if unrecoverable && verdict == Failed then DropGoal(r) else r;
    if verdict == Done && f.gate.open && g.goal.Some? then Judge(g, g.goal.value, usage, f)
    else EndTurn(SkipGoal(g, usage), usage, f.fold)
  }

  function TurnFinished(b: Books, f: Finish): Books {
    var s := Arrived(b, f);
    match f.end
    case Ended(verdict) => Settle(s, verdict, f.usage, f.unrecoverable, f)
    case Died(_) => Settle(s, Failed, Zero(), false, f)
    case WantsFold(spec, progressed, cancel, fold) =>
      var (t, digest, verdict, capped) := TryCompact(s, spec, progressed, cancel, fold);
      var folded := f.usage.Plus(digest);
      var c := BillGoal(Carry(t, folded), folded);
      if verdict.None? then c else Settle(c, verdict.value, Zero(), f.unrecoverable || capped, f)
    case WantsClear(abandoned, sealed, cancelled) =>
      var folded := f.usage.Plus(abandoned);
      var c := BillGoal(Carry(s, folded), folded);
      if sealed then Settle(c, Failed, Zero(), f.unrecoverable, f)
      else if cancelled then Settle(c, Stopped, Zero(), f.unrecoverable, f)
      else c
  }

  datatype Op =
    | Finished(finish: Finish)
    | HumanFold(running: bool, focused: bool, fold: FoldInput)
    | SetGoal
    | ClearGoal

  /** A goal starts on a clean sheet. */
  function NewGoal(b: Books): Books {
    b.(goal := Some(Goal(Zero(), 0, 0)), underGoal := Zero(), unbilled := Zero())
  }

  function Do(b: Books, op: Op): Books {
    match op
    case Finished(finish) => TurnFinished(b, finish)
    case HumanFold(running, focused, fold) =>
      if running then b.(parked := Some(focused)) else FoldNow(b, focused, fold)
    case SetGoal => NewGoal(b)
    case ClearGoal => DropGoal(b)
  }

  function DoAll(b: Books, ops: seq<Op>): Books {
    if ops == [] then b else Do(DoAll(b, ops[..|ops| - 1]), ops[|ops| - 1])
  }

  // ---- Conservation --------------------------------------------------------------------------------

  /** Spent is reported, carried, lost, or in hand: `held` is what the caller still has to
      place. */
  predicate Balanced(b: Books, held: Usage) {
    b.incurred == SumAll(b.reports).Plus(b.carry).Plus(Sum(b.losses)).Plus(held)
  }

  /** Spent under the goal is billed to it, left out of its total, or in hand. */
  predicate GoalBalanced(b: Books, held: Usage) {
    b.goal.Some? ==> b.underGoal == b.goal.value.spent.Plus(b.unbilled).Plus(held)
  }

  predicate Even(b: Books, held: Usage, goalHeld: Usage) {
    Balanced(b, held) && GoalBalanced(b, goalHeld)
  }

  lemma LossSnoc(losses: seq<Loss>, loss: Loss)
    ensures Sum(losses + [loss]) == Sum(losses).Plus(loss.usage)
  {
    assert (losses + [loss])[..|losses|] == losses;
  }

  lemma ReportSnoc(reports: seq<Usage>, report: Usage)
    ensures SumAll(reports + [report]) == SumAll(reports).Plus(report)
  {
    assert (reports + [report])[..|reports|] == reports;
  }

  lemma SpendEven(b: Books, held: Usage, goalHeld: Usage, usage: Usage)
    requires Even(b, held, goalHeld)
    ensures Even(Spend(b, usage), held.Plus(usage), goalHeld.Plus(usage))
  {
  }

  lemma LoseEven(b: Books, held: Usage, goalHeld: Usage, loss: Loss)
    requires Even(b, held.Plus(loss.usage), goalHeld.Plus(loss.usage))
    ensures Even(Lose(b, loss), held, goalHeld)
  {
    LossSnoc(b.losses, loss);
  }

  lemma CarryEven(b: Books, held: Usage, goalHeld: Usage, usage: Usage)
    requires Even(b, held.Plus(usage), goalHeld)
    ensures Even(Carry(b, usage), held, goalHeld)
  {
  }

  lemma BillEven(b: Books, held: Usage, goalHeld: Usage, usage: Usage)
    requires Even(b, held, goalHeld.Plus(usage))
    ensures Even(BillGoal(b, usage), held, goalHeld)
  {
  }

  lemma SkipEven(b: Books, held: Usage, goalHeld: Usage, usage: Usage)
    requires Even(b, held, goalHeld.Plus(usage))
    ensures Even(SkipGoal(b, usage), held, goalHeld)
  {
  }

  lemma ReportEven(b: Books, usage: Usage)
    requires Even(b, usage, Zero())
    ensures Even(Report(b, usage), Zero(), Zero())
  {
    ReportSnoc(b.reports, usage.Plus(b.carry));
  }

  lemma CompactEven(b: Books, held: Usage, goalHeld: Usage, spec: Option<Digest>, focused: bool, f: FoldInput)
    requires var paid := if spec.Some? then spec.value.usage else Zero();
             Even(b, held.Plus(paid), goalHeld.Plus(paid))
    ensures var (c, folded) := Compact(b, spec, focused, f);
            var got := if folded.Folded? then folded.usage else Zero();
            Even(c, held.Plus(got), goalHeld.Plus(got))
  {
    hide Sum, SumAll, Even, Lose, Spend;
    PlusZero(held);
    PlusZero(goalHeld);
    if !f.reset && !focused && spec.Some? && spec.value.fits {
      if f.sealed { LoseEven(b, held, goalHeld, Loss(SealedLog, spec.value.usage, true)); }
    } else {
      var dropped := b;
      if spec.Some? {
        var cause := if f.reset then ResetMode else if focused then Focused else StaleIndices;
        var loss := Loss(cause, spec.value.usage, true);
        LoseEven(b, held, goalHeld, loss);
        dropped := Lose(b, loss);
      }
      if f.planned {
        SummarizeEven(dropped, held, goalHeld, f);
        if f.sealed { LoseEven(Summarize(dropped, f), held, goalHeld, Loss(SealedLog, Summary(f), false)); }
      }
    }
  }

  lemma SummarizeEven(b: Books, held: Usage, goalHeld: Usage, f: FoldInput)
    requires Even(b, held, goalHeld)
    ensures Even(Summarize(b, f), held.Plus(Summary(f)), goalHeld.Plus(Summary(f)))
  {
    hide Sum, SumAll, Even, Lose, Spend;
    PlusZero(held);
    PlusZero(goalHeld);
    SpendEven(b, held, goalHeld, f.summary);
    if f.timedOut { LoseEven(Spend(b, f.summary), held, goalHeld, Loss(SummaryTimedOut, f.summary, false)); }
  }

  /** Spending nobody learns of is lost as it is spent. */
  lemma SpendUnseenEven(b: Books, held: Usage, goalHeld: Usage, usage: Usage, cause: Cause, speculative: bool)
    requires Even(b, held, goalHeld)
    ensures Even(SpendUnseen(b, usage, cause, speculative), held, goalHeld)
  {
    hide Sum, SumAll, Even, Lose, Spend, Usage.Plus;
    SpendEven(b, held, goalHeld, usage);
    LoseEven(Spend(b, usage), held, goalHeld, Loss(cause, usage, speculative));
  }

  lemma ArrivedEven(b: Books, f: Finish)
    requires Even(b, Zero(), Zero())
    ensures Even(Arrived(b, f), HandedOver(f), HandedOver(f))
  {
    hide Sum, SumAll, Even, SpendUnseen, Spend, Usage.Plus, Zero, HandedOver;
    var cause := if f.end.Ended? || f.end.Died? then TurnOver else Unclaimed;
    SpendUnseenEven(b, Zero(), Zero(), f.ahead, cause, true);
    var s := SpendUnseen(b, f.ahead, cause, true);
    if f.end.Died? { SpendUnseenEven(s, Zero(), Zero(), f.end.spent, Panicked, false); }
    PlusZero(HandedOver(f));
    SpendEven(if f.end.Died? then SpendUnseen(s, f.end.spent, Panicked, false) else s, Zero(), Zero(), HandedOver(f));
  }

  lemma FoldNowEven(b: Books, focused: bool, f: FoldInput)
    requires Even(b, Zero(), Zero())
    ensures Even(FoldNow(b, focused, f), Zero(), Zero())
  {
    hide Sum, SumAll, Even, Compact, Carry, SkipGoal, Usage.Plus, Zero;
    PlusZero(Zero());
    CompactEven(b, Zero(), Zero(), None, focused, f);
    var (c, folded) := Compact(b, None, focused, f);
    if folded.Folded? {
      PlusZero(folded.usage);
      CarryEven(c, Zero(), folded.usage, folded.usage);
      SkipEven(Carry(c, folded.usage), Zero(), Zero(), folded.usage);
    }
  }

  lemma FrameEven(b: Books, c: Books, held: Usage, goalHeld: Usage)
    requires Even(b, held, goalHeld)
    requires c.carry == b.carry && c.incurred == b.incurred && c.reports == b.reports && c.losses == b.losses
    requires c.underGoal == b.underGoal && c.unbilled == b.unbilled
    requires c.goal.None? || (b.goal.Some? && c.goal.value.spent == b.goal.value.spent)
    ensures Even(c, held, goalHeld)
  {
  }

  lemma TryCompactEven(b: Books, usage: Usage, spec: Option<Digest>, progressed: bool, cancel: Cancel, f: FoldInput)
    requires var paid := if spec.Some? then spec.value.usage else Zero();
             Even(b, usage.Plus(paid), usage.Plus(paid))
    ensures var (c, digest, verdict, capped) := TryCompact(b, spec, progressed, cancel, f);
            Even(c, usage.Plus(digest), usage.Plus(digest))
  {
    hide Sum, SumAll, Even, Compact, Lose, Spend, Usage.Plus, Zero, Adopted, Primed, Forgo;
    PlusZero(usage);
    var kept, r := Adopted(b, spec), Primed(b, spec, progressed);
    PrimedEven(b, usage, spec, progressed);
    if r.streak > MAX_COMPACT_STREAK {
      ForgoEven(r, usage, kept, StreakCap);
    } else if cancel.During? {
      var s := Forgo(r, kept, Interrupted);
      ForgoEven(r, usage, kept, Interrupted);
      SpendEven(s, usage, usage, cancel.spent);
      LoseEven(Spend(s, cancel.spent), usage, usage, Loss(Interrupted, cancel.spent, false));
    } else {
      CompactEven(r, usage, usage, kept, b.parked == Some(true), f);
    }
  }

  lemma ForgoEven(b: Books, usage: Usage, spec: Option<Digest>, cause: Cause)
    requires var paid := if spec.Some? then spec.value.usage else Zero();
             Even(b, usage.Plus(paid), usage.Plus(paid))
    ensures Even(Forgo(b, spec, cause), usage, usage)
  {
    hide Sum, SumAll, Even, Lose, Usage.Plus, Zero;
    PlusZero(usage);
    if spec.Some? { LoseEven(b, usage, usage, Loss(cause, spec.value.usage, true)); }
  }

  lemma PrimedEven(b: Books, usage: Usage, spec: Option<Digest>, progressed: bool)
    requires var paid := if spec.Some? then spec.value.usage else Zero();
             Even(b, usage.Plus(paid), usage.Plus(paid))
    ensures var kept := Adopted(b, spec);
            var paid := if kept.Some? then kept.value.usage else Zero();
            Even(Primed(b, spec, progressed), usage.Plus(paid), usage.Plus(paid))
  {
    hide Sum, SumAll, Even, Forgo, Usage.Plus, Zero;
    PlusZero(usage);
    var paid := if spec.Some? then spec.value.usage else Zero();
    var p := b.(parked := None, streak := (if progressed then 0 else b.streak) + 1);
    FrameEven(b, p, usage.Plus(paid), usage.Plus(paid));
    if b.parked == Some(true) { ForgoEven(p, usage, spec, Focused); }
  }

  lemma EndTurnEven(b: Books, usage: Usage, fold: FoldInput)
    requires Even(b, usage, Zero())
    ensures Even(EndTurn(b, usage, fold), Zero(), Zero())
  {
    hide Sum, SumAll, Even, FoldNow;
    ReportEven(b, usage);
    var r := Report(b, usage);
    if r.parked.Some? {
      FrameEven(r, r.(parked := None), Zero(), Zero());
      FoldNowEven(r.(parked := None), r.parked.value, fold);
    }
  }

  lemma EvaluateEven(b: Books, held: Usage, gate: Gate)
    requires Even(b, held, Zero())
    ensures Even(Evaluate(b, gate), held, Zero())
  {
    hide Sum, SumAll, Even, SpendUnseen, Usage.Plus, Zero, Spend, Carry, BillGoal;
    if gate.cut {
      SpendUnseenEven(b, held, Zero(), gate.eval, EvaluatorCut, false);
    } else {
      SpendEven(b, held, Zero(), gate.eval);
      CarryEven(Spend(b, gate.eval), held, Zero().Plus(gate.eval), gate.eval);
      BillEven(Carry(Spend(b, gate.eval), gate.eval), held, Zero(), gate.eval);
    }
  }

  lemma EvaluateKeepsGoal(b: Books, gate: Gate)
    ensures Evaluate(b, gate).goal.Some? == b.goal.Some?
  {
    hide Usage.Plus;
  }

  lemma JudgeEven(b: Books, goal: Goal, usage: Usage, f: Finish)
    requires Even(b, usage, usage) && b.goal == Some(goal)
    ensures Even(Judge(b, goal, usage, f), Zero(), Zero())
  {
    hide Sum, SumAll, Even, EndTurn, Usage.Plus, Zero, SpendUnseen;
    PlusZero(usage);
    var counted := b.(goal := Some(goal.(turns := goal.turns + 1)));
    FrameEven(b, counted, usage, usage);
    BillEven(counted, usage, Zero(), usage);
    var billed := BillGoal(counted, usage);
    EvaluateEven(billed, usage, f.gate);
    EvaluateKeepsGoal(billed, f.gate);
    var carried := Evaluate(billed, f.gate);
    var g := carried.goal.value;
    match GateVerdict(f.gate) {
      case NotYet =>
        var idle := if f.gate.toolsRan then 0 else g.idle + 1;
        if idle >= GOAL_STALL_TURNS {
          FrameEven(carried, carried.(goal := Some(g.(idle := 0))), usage, Zero());
          EndTurnEven(carried.(goal := Some(g.(idle := 0))), usage, f.fold);
        } else {
          var on := carried.(goal := Some(g.(idle := idle)));
          FrameEven(carried, on, usage, Zero());
          CarryEven(on, Zero(), Zero(), usage);
        }
      case NoVerdict => EndTurnEven(carried, usage, f.fold);
      case _ =>
        FrameEven(carried, DropGoal(carried), usage, Zero());
        EndTurnEven(DropGoal(carried), usage, f.fold);
    }
  }

  lemma SettleEven(b: Books, verdict: Verdict, usage: Usage, unrecoverable: bool, f: Finish)
    requires Even(b, usage, usage)
    ensures Even(Settle(b, verdict, usage, unrecoverable, f), Zero(), Zero())
  {
    hide Sum, SumAll, Even, EndTurn, Judge;
    var r := b.(streak := 0);
    var g := if unrecoverable && verdict == Failed then DropGoal(r) else r;
    FrameEven(b, g, usage, usage);
    if verdict == Done && f.gate.open && g.goal.Some? {
      JudgeEven(g, g.goal.value, usage, f);
    } else {
      SkipEven(g, usage, Zero(), usage);
      EndTurnEven(SkipGoal(g, usage), usage, f.fold);
    }
  }

  lemma PlusZero(usage: Usage)
    ensures usage.Plus(Zero()) == usage && Zero().Plus(usage) == usage
  {
  }

  lemma TurnFinishedEven(b: Books, f: Finish)
    requires Even(b, Zero(), Zero())
    ensures Even(TurnFinished(b, f), Zero(), Zero())
  {
    hide Sum, SumAll, Even, Settle, TryCompact, Arrived;
    ArrivedEven(b, f);
    var s := Arrived(b, f);
    match f.end {
      case Ended(verdict) => SettleEven(s, verdict, f.usage, f.unrecoverable, f);
      case Died(_) => SettleEven(s, Failed, Zero(), false, f);
      case WantsFold(spec, progressed, cancel, fold) =>
        TryCompactEven(s, f.usage, spec, progressed, cancel, fold);
        var (t, digest, verdict, capped) := TryCompact(s, spec, progressed, cancel, fold);
        FoldedEven(t, f.usage.Plus(digest));
        if verdict.Some? {
          SettleEven(BillGoal(Carry(t, f.usage.Plus(digest)), f.usage.Plus(digest)), verdict.value, Zero(),
                     f.unrecoverable || capped, f);
        }
      case WantsClear(abandoned, sealed, cancelled) =>
        FoldedEven(s, f.usage.Plus(abandoned));
        var c := BillGoal(Carry(s, f.usage.Plus(abandoned)), f.usage.Plus(abandoned));
        SettleEven(c, Failed, Zero(), f.unrecoverable, f);
        SettleEven(c, Stopped, Zero(), f.unrecoverable, f);
    }
  }

  /** What a fold or a clear parks is carried, and billed to the goal at once. */
  lemma FoldedEven(b: Books, folded: Usage)
    requires Even(b, folded, folded)
    ensures Even(BillGoal(Carry(b, folded), folded), Zero(), Zero())
  {
    hide Sum, SumAll, Even;
    PlusZero(folded);
    CarryEven(b, Zero(), folded, folded);
    BillEven(Carry(b, folded), Zero(), Zero(), folded);
  }

  lemma DoEven(b: Books, op: Op)
    requires Even(b, Zero(), Zero())
    ensures Even(Do(b, op), Zero(), Zero())
  {
    hide Sum, SumAll, Even, TurnFinished, FoldNow;
    match op {
      case Finished(finish) => TurnFinishedEven(b, finish);
      case HumanFold(running, focused, fold) =>
        FoldNowEven(b, focused, fold);
        FrameEven(b, b.(parked := Some(focused)), Zero(), Zero());
      case SetGoal => NewGoalEven(b);
      case ClearGoal => FrameEven(b, DropGoal(b), Zero(), Zero());
    }
  }

  lemma NewGoalEven(b: Books)
    requires Even(b, Zero(), Zero())
    ensures Even(NewGoal(b), Zero(), Zero())
  {
    hide Sum, SumAll, Usage.Plus, Zero;
    PlusZero(Zero());
  }

  /** Conservation over every run of turns, folds and goals: whatever was spent has been
      reported, is carried to the next report, or was lost for a named reason; and a goal's own
      total, with what it leaves out, is everything spent while it was in force. */
  lemma {:induction false} UsageIsConserved(goal: Option<Goal>, ops: seq<Op>)
    ensures var b := DoAll(Opened(goal), ops);
            && b.incurred == SumAll(b.reports).Plus(b.carry).Plus(Sum(b.losses))
            && (b.goal.Some? ==> b.underGoal == b.goal.value.spent.Plus(b.unbilled))
  {
    AllEven(goal, ops);
    hide Sum, SumAll;
  }

  lemma {:induction false} AllEven(goal: Option<Goal>, ops: seq<Op>)
    ensures Even(DoAll(Opened(goal), ops), Zero(), Zero())
  {
    hide Even, Do, Opened;
    OpenedEven(goal);
    if ops != [] {
      AllEven(goal, ops[..|ops| - 1]);
      DoEven(DoAll(Opened(goal), ops[..|ops| - 1]), ops[|ops| - 1]);
    }
  }

  lemma OpenedEven(goal: Option<Goal>)
    ensures Even(Opened(goal), Zero(), Zero())
  {
    hide Usage.Plus, Zero;
    PlusZero(Zero());
    NothingSummed();
  }

  lemma NothingSummed()
    ensures Sum([]) == Zero() && SumAll([]) == Zero()
  {
  }

  /** The goal's own total covers a turn's last stretch exactly when the turn meets the gate: a
      turn that ends any other way, or with prompts waiting, costs the goal nothing on paper. */
  lemma GoalBilledAtTheGateOnly(b: Books, verdict: Verdict, f: Finish)
    requires b.goal.Some? && f.end == Ended(verdict)
    ensures var after := TurnFinished(b, f).goal;
            after.Some? ==>
              after.value.spent == if verdict == Done && f.gate.open
                                   then b.goal.value.spent.Plus(f.usage).Plus(Heard(f.gate))
                                   else b.goal.value.spent
  {
    PlusZero(b.goal.value.spent.Plus(f.usage));
    hide Usage.Plus, EndTurn;
    forall c: Books, u: Usage ensures EndTurn(c, u, f.fold).goal == c.goal { EndTurnKeepsGoal(c, u, f.fold); }
  }

  /** A turn the human stops, whatever it cost, is missing from its goal's total. */
  lemma StoppedTurnIsUnbilled(usage: Usage, gate: Gate, fold: FoldInput)
    requires usage != Zero()
    ensures var stopped := Finish(Ended(Stopped), usage, Zero(), false, gate, fold);
            var b := DoAll(Opened(Some(Goal(Zero(), 0, 0))), [Finished(stopped)]);
            && b.goal.Some? && b.goal.value.spent == Zero() && b.reports == [usage]
            && b.underGoal == usage
  {
    hide *;
    var stopped := Finish(Ended(Stopped), usage, Zero(), false, gate, fold);
    var start := Opened(Some(Goal(Zero(), 0, 0)));
    DoAllOne(start, Finished(stopped));
    OpenedFields();
    StoppedSettles(start, stopped);
    PlusZero(usage);
  }

  lemma DoAllOne(b: Books, op: Op)
    ensures DoAll(b, [op]) == Do(b, op)
  {
    hide Do;
    assert [op][..0] == [];
    assert DoAll(b, []) == b;
  }

  lemma OpenedFields()
    ensures var b := Opened(Some(Goal(Zero(), 0, 0)));
            && b.goal == Some(Goal(Zero(), 0, 0)) && b.carry == Zero() && b.reports == [] && b.underGoal == Zero()
            && b.parked.None?
  {
  }

  lemma StoppedSettles(b: Books, f: Finish)
    requires f.end == Ended(Stopped) && f.ahead == Zero() && !f.unrecoverable
    requires b.carry == Zero() && b.parked.None?
    ensures var c := Do(b, Finished(f));
            && c.goal == b.goal && c.reports == b.reports + [f.usage]
            && c.underGoal == b.underGoal.Plus(f.usage)
  {
    PlusZero(b.underGoal);
    PlusZero(f.usage);
    hide Usage.Plus, Zero;
  }

  lemma EndTurnKeepsGoal(b: Books, usage: Usage, fold: FoldInput)
    ensures EndTurn(b, usage, fold).goal == b.goal
  {
    hide Usage.Plus;
  }

  // ---- What is lost ---------------------------------------------------------------------------------

  /** Nothing at all, or work done ahead of need, and only because nothing needed it. */
  predicate Superseded(loss: Loss) {
    loss.usage == Zero() || (loss.speculative && Needless(loss.cause))
  }

  predicate Needless(cause: Cause) {
    cause in {Focused, StreakCap, StaleIndices, ResetMode, TurnOver, Unclaimed}
  }

  predicate AllSuperseded(losses: seq<Loss>) {
    forall i :: 0 <= i < |losses| ==> Superseded(losses[i])
  }

  /** The new losses are all of that kind. */
  predicate OnlySuperseded(b: Books, c: Books) {
    forall i :: |b.losses| <= i < |c.losses| ==> Superseded(c.losses[i])
  }

  /** Between the two, something else was lost exactly if `wasted`. */
  predicate Wastes(b: Books, c: Books, wasted: bool) {
    b.losses <= c.losses && (OnlySuperseded(b, c) <==> !wasted)
  }

  lemma WastesTrans(b: Books, c: Books, d: Books, x: bool, y: bool)
    requires Wastes(b, c, x) && Wastes(c, d, y)
    ensures Wastes(b, d, x || y)
  {
    hide Superseded;
    assert forall i :: |b.losses| <= i < |c.losses| ==> d.losses[i] == c.losses[i];
    if OnlySuperseded(b, d) {
      forall i | |b.losses| <= i < |c.losses|
        ensures Superseded(c.losses[i])
      {
        assert Superseded(d.losses[i]);
      }
    }
  }

  lemma WastesNothing(b: Books, c: Books)
    requires c.losses == b.losses
    ensures Wastes(b, c, false)
  {
  }

  lemma LoseWastes(b: Books, loss: Loss)
    ensures Wastes(b, Lose(b, loss), !Superseded(loss))
  {
    hide Superseded, Usage.Plus;
    var c := Lose(b, loss);
    assert c.losses[|b.losses|] == loss;
  }

  /** A fold throws paid work away exactly when the log refuses a digest it adopted, or when
      summarizing had a cost and the log refuses its result or it ran out of time. */
  predicate FoldWastes(spec: Option<Digest>, focused: bool, f: FoldInput) {
    if !f.reset && !focused && spec.Some? && spec.value.fits then f.sealed && spec.value.usage != Zero()
    else f.planned && (f.timedOut || f.sealed) && f.summary != Zero()
  }

  /** A turn's fold, too, when it is cancelled on the way, under the streak cap, with anything
      spent. */
  predicate TryWastes(b: Books, spec: Option<Digest>, progressed: bool, cancel: Cancel, f: FoldInput) {
    var kept := Adopted(b, spec);
    && (progressed || b.streak < MAX_COMPACT_STREAK)
    && if cancel.During? then (kept.Some? && kept.value.usage != Zero()) || cancel.spent != Zero()
       else FoldWastes(kept, b.parked == Some(true), f)
  }

  predicate MeetsGate(b: Books, verdict: Verdict, f: Finish) {
    verdict == Done && f.gate.open && b.goal.Some?
  }

  /** The goal runs on, and the turn's end does not come yet. */
  predicate RunsOn(b: Books, verdict: Verdict, f: Finish) {
    && MeetsGate(b, verdict, f)
    && GateVerdict(f.gate) == NotYet
    && (f.gate.toolsRan || b.goal.value.idle + 1 < GOAL_STALL_TURNS)
  }

  /** An outcome does, when its goal's evaluator is cut short behind a cost, or a fold parked for
      its end does. */
  predicate SettleWastes(b: Books, verdict: Verdict, f: Finish) {
    || (MeetsGate(b, verdict, f) && f.gate.cut && f.gate.eval != Zero())
    || (!RunsOn(b, verdict, f) && b.parked.Some? && FoldWastes(None, b.parked.value, f.fold))
  }

  /** What a turn's end, a fold or a goal throws away besides work done ahead. */
  predicate OpWastes(b: Books, op: Op) {
    match op
    case Finished(f) =>
      (match f.end
       case Ended(verdict) => SettleWastes(b, verdict, f)
       case Died(spent) => spent != Zero() || SettleWastes(b, Failed, f)
       case WantsFold(spec, progressed, cancel, fold) => TryWastes(b, spec, progressed, cancel, fold)
       case WantsClear(_, sealed, cancelled) => (sealed || cancelled) && SettleWastes(b, Failed, f))
    case HumanFold(running, focused, fold) => !running && FoldWastes(None, focused, fold)
    case _ => false
  }

  lemma CompactWastes(b: Books, spec: Option<Digest>, focused: bool, f: FoldInput)
    ensures Wastes(b, Compact(b, spec, focused, f).0, FoldWastes(spec, focused, f))
  {
    hide Usage.Plus, Zero, Lose, Summarize, Wastes, Superseded, OnlySuperseded;
    WastesNothing(b, b);
    if !f.reset && !focused && spec.Some? && spec.value.fits {
      LoseWastes(b, Loss(SealedLog, spec.value.usage, true));
      SealedIsWaste(spec.value.usage, true);
    } else {
      var dropped := b;
      if spec.Some? {
        var cause := if f.reset then ResetMode else if focused then Focused else StaleIndices;
        var loss := Loss(cause, spec.value.usage, true);
        LoseWastes(b, loss);
        DroppedIsSuperseded(loss);
        dropped := Lose(b, loss);
      }
      if f.planned {
        var s := Summarize(dropped, f);
        SummarizeWastes(dropped, f);
        SealedIsWaste(Summary(f), false);
        LoseWastes(s, Loss(SealedLog, Summary(f), false));
        WastesTrans(b, dropped, s, false, f.timedOut && f.summary != Zero());
        WastesTrans(b, s, Lose(s, Loss(SealedLog, Summary(f), false)), f.timedOut && f.summary != Zero(),
                    Summary(f) != Zero());
      }
    }
  }

  lemma SealedIsWaste(usage: Usage, speculative: bool)
    ensures Superseded(Loss(SealedLog, usage, speculative)) <==> usage == Zero()
  {
  }

  lemma DroppedIsSuperseded(loss: Loss)
    requires loss.speculative && Needless(loss.cause)
    ensures Superseded(loss)
  {
  }

  lemma SummarizeWastes(b: Books, f: FoldInput)
    ensures Wastes(b, Summarize(b, f), f.timedOut && f.summary != Zero())
  {
    hide Usage.Plus, Wastes, Lose;
    var s := Spend(b, f.summary);
    WastesNothing(b, s);
    if f.timedOut {
      LoseWastes(s, Loss(SummaryTimedOut, f.summary, false));
      WastesTrans(b, s, Summarize(b, f), false, f.summary != Zero());
    }
  }

  lemma FoldNowWastes(b: Books, focused: bool, f: FoldInput)
    ensures Wastes(b, FoldNow(b, focused, f), FoldWastes(None, focused, f))
  {
    hide Usage.Plus, Zero, Compact, FoldWastes, Superseded;
    CompactWastes(b, None, focused, f);
  }

  lemma TryCompactWastes(b: Books, spec: Option<Digest>, progressed: bool, cancel: Cancel, f: FoldInput)
    ensures Wastes(b, TryCompact(b, spec, progressed, cancel, f).0, TryWastes(b, spec, progressed, cancel, f))
    ensures TryCompact(b, spec, progressed, cancel, f).0.parked.None?
    ensures TryCompact(b, spec, progressed, cancel, f).2 != Some(Done)
  {
    hide Usage.Plus, Zero, Compact, Lose, Wastes, Superseded, FoldWastes, Spend, Adopted, Primed, Forgo;
    var kept, r := Adopted(b, spec), Primed(b, spec, progressed);
    PrimedWastes(b, spec, progressed);
    if r.streak > MAX_COMPACT_STREAK {
      ForgoWastes(r, kept, StreakCap);
      WastesTrans(b, r, Forgo(r, kept, StreakCap), false, false);
    } else if cancel.During? {
      CutWastes(r, kept, cancel.spent);
      WastesTrans(b, r, Lose(Spend(Forgo(r, kept, Interrupted), cancel.spent), Loss(Interrupted, cancel.spent, false)),
                  false, (kept.Some? && kept.value.usage != Zero()) || cancel.spent != Zero());
    } else {
      CompactWastes(r, kept, b.parked == Some(true), f);
      CompactParks(r, kept, b.parked == Some(true), f);
      WastesTrans(b, r, Compact(r, kept, b.parked == Some(true), f).0, false,
                  FoldWastes(kept, b.parked == Some(true), f));
    }
  }

  lemma ForgoWastes(b: Books, spec: Option<Digest>, cause: Cause)
    ensures var c := Forgo(b, spec, cause);
            && Wastes(b, c, spec.Some? && spec.value.usage != Zero() && !Needless(cause))
            && c.parked == b.parked && c.streak == b.streak
  {
    hide Usage.Plus, Wastes;
    WastesNothing(b, b);
    if spec.Some? { LoseWastes(b, Loss(cause, spec.value.usage, true)); }
  }

  lemma PrimedWastes(b: Books, spec: Option<Digest>, progressed: bool)
    ensures var r := Primed(b, spec, progressed);
            && Wastes(b, r, false) && r.parked.None? && r.streak == (if progressed then 0 else b.streak) + 1
  {
    hide Usage.Plus, Zero, Wastes, Forgo;
    var p := b.(parked := None, streak := (if progressed then 0 else b.streak) + 1);
    WastesNothing(b, p);
    ForgoWastes(p, spec, Focused);
    WastesTrans(b, p, Forgo(p, spec, Focused), false, false);
  }

  /** A fold cancelled on the way throws away its digest and what it had spent. */
  lemma CutWastes(r: Books, kept: Option<Digest>, spent: Usage)
    ensures var t := Lose(Spend(Forgo(r, kept, Interrupted), spent), Loss(Interrupted, spent, false));
            && Wastes(r, t, (kept.Some? && kept.value.usage != Zero()) || spent != Zero()) && t.parked == r.parked
  {
    hide Usage.Plus, Wastes, OnlySuperseded, Forgo, Zero;
    var s := Forgo(r, kept, Interrupted);
    ForgoWastes(r, kept, Interrupted);
    WastesNothing(s, Spend(s, spent));
    LoseWastes(Spend(s, spent), Loss(Interrupted, spent, false));
    var x := kept.Some? && kept.value.usage != Zero();
    WastesTrans(r, s, Spend(s, spent), x, false);
    WastesTrans(r, Spend(s, spent), Lose(Spend(s, spent), Loss(Interrupted, spent, false)), x, spent != Zero());
  }

  lemma CompactParks(b: Books, spec: Option<Digest>, focused: bool, f: FoldInput)
    ensures Compact(b, spec, focused, f).0.parked == b.parked
  {
    hide Usage.Plus, Zero;
  }

  lemma EndTurnWastes(b: Books, usage: Usage, fold: FoldInput)
    ensures Wastes(b, EndTurn(b, usage, fold), b.parked.Some? && FoldWastes(None, b.parked.value, fold))
  {
    hide Usage.Plus, Zero, FoldNow, FoldWastes, Wastes;
    var r := Report(b, usage);
    WastesNothing(b, r);
    if r.parked.Some? {
      var p := r.(parked := None);
      WastesNothing(b, p);
      FoldNowWastes(p, r.parked.value, fold);
      WastesTrans(b, p, EndTurn(b, usage, fold), false, FoldWastes(None, b.parked.value, fold));
    }
  }

  lemma EvaluateWastes(b: Books, gate: Gate)
    ensures Wastes(b, Evaluate(b, gate), gate.cut && gate.eval != Zero())
    ensures Evaluate(b, gate).parked == b.parked
    ensures Evaluate(b, gate).goal.Some? == b.goal.Some?
    ensures b.goal.Some? ==> Evaluate(b, gate).goal.value.idle == b.goal.value.idle
  {
    hide Usage.Plus, Wastes;
    WastesNothing(b, Spend(b, gate.eval));
    if gate.cut {
      LoseWastes(Spend(b, gate.eval), Loss(EvaluatorCut, gate.eval, false));
      WastesTrans(b, Spend(b, gate.eval), Evaluate(b, gate), false, gate.eval != Zero());
    } else {
      WastesNothing(b, Evaluate(b, gate));
    }
  }

  lemma JudgeWastes(b: Books, goal: Goal, usage: Usage, f: Finish)
    requires b.goal == Some(goal) && f.gate.open
    ensures Wastes(b, Judge(b, goal, usage, f), SettleWastes(b, Done, f))
  {
    hide Usage.Plus, Zero, EndTurn, Evaluate, Wastes, FoldWastes;
    var billed := BillGoal(b.(goal := Some(goal.(turns := goal.turns + 1))), usage);
    WastesNothing(b, billed);
    EvaluateWastes(billed, f.gate);
    var carried := Evaluate(billed, f.gate);
    var cut := f.gate.cut && f.gate.eval != Zero();
    WastesTrans(b, billed, carried, false, cut);
    var last := if RunsOn(b, Done, f) then Carry(carried, usage)
                else if GateVerdict(f.gate) == NotYet then carried.(goal := Some(carried.goal.value.(idle := 0)))
                else if GateVerdict(f.gate) == NoVerdict then carried else DropGoal(carried);
    WastesNothing(carried, last);
    WastesTrans(b, carried, last, cut, false);
    WastesNothing(carried, Judge(b, goal, usage, f).(losses := carried.losses));
    if RunsOn(b, Done, f) {
      WastesNothing(last, Judge(b, goal, usage, f));
      WastesTrans(b, last, Judge(b, goal, usage, f), cut, false);
    } else {
      EndTurnWastes(last, usage, f.fold);
      WastesTrans(b, last, EndTurn(last, usage, f.fold), cut,
                  last.parked.Some? && FoldWastes(None, last.parked.value, f.fold));
    }
  }

  lemma SettledWastes(b: Books, verdict: Verdict, usage: Usage, unrecoverable: bool, f: Finish)
    ensures Wastes(b, Settle(b, verdict, usage, unrecoverable, f), SettleWastes(b, verdict, f))
  {
    hide Usage.Plus, Zero, EndTurn, Judge, Wastes, FoldWastes;
    var r := b.(streak := 0);
    var g := if unrecoverable && verdict == Failed then DropGoal(r) else r;
    WastesNothing(b, g);
    if MeetsGate(b, verdict, f) {
      JudgeWastes(g, g.goal.value, usage, f);
      WastesTrans(b, g, Judge(g, g.goal.value, usage, f), false, SettleWastes(g, Done, f));
    } else {
      var k := SkipGoal(g, usage);
      WastesNothing(b, k);
      EndTurnWastes(k, usage, f.fold);
      WastesTrans(b, k, EndTurn(k, usage, f.fold), false, k.parked.Some? && FoldWastes(None, k.parked.value, f.fold));
    }
  }

  lemma ArrivedWastes(b: Books, f: Finish)
    ensures var s := Arrived(b, f);
            && Wastes(b, s, f.end.Died? && f.end.spent != Zero())
            && s.parked == b.parked && s.goal == b.goal && s.streak == b.streak
  {
    hide Usage.Plus, Wastes, OnlySuperseded;
    var cause := if f.end.Ended? || f.end.Died? then TurnOver else Unclaimed;
    WastesNothing(b, Spend(b, f.ahead));
    LoseWastes(Spend(b, f.ahead), Loss(cause, f.ahead, true));
    var s := SpendUnseen(b, f.ahead, cause, true);
    WastesTrans(b, Spend(b, f.ahead), s, false, false);
    var u := if f.end.Died? then SpendUnseen(s, f.end.spent, Panicked, false) else s;
    if f.end.Died? {
      WastesNothing(s, Spend(s, f.end.spent));
      LoseWastes(Spend(s, f.end.spent), Loss(Panicked, f.end.spent, false));
      WastesTrans(b, s, Spend(s, f.end.spent), false, false);
      WastesTrans(b, Spend(s, f.end.spent), u, false, f.end.spent != Zero());
    }
    WastesNothing(u, Arrived(b, f));
    WastesTrans(b, u, Arrived(b, f), f.end.Died? && f.end.spent != Zero(), false);
  }

  lemma SameSettling(b: Books, c: Books, verdict: Verdict, f: Finish)
    requires c.parked == b.parked && (c.goal.Some? == b.goal.Some?)
    requires b.goal.Some? ==> c.goal.value.idle == b.goal.value.idle
    ensures SettleWastes(c, verdict, f) == SettleWastes(b, verdict, f)
  {
    hide FoldWastes, Zero;
  }

  /** An operation loses more than work done ahead exactly when its guard says so. */
  lemma DoWastes(b: Books, op: Op)
    ensures Wastes(b, Do(b, op), OpWastes(b, op))
  {
    hide Usage.Plus, Zero, FoldNow, TurnFinished, Wastes, FoldWastes, SettleWastes, TryWastes;
    match op {
      case Finished(f) => EndWastes(b, f);
      case HumanFold(running, focused, fold) =>
        FoldNowWastes(b, focused, fold);
        WastesNothing(b, b.(parked := Some(focused)));
      case SetGoal => WastesNothing(b, Do(b, op));
      case ClearGoal => WastesNothing(b, Do(b, op));
    }
  }

  lemma EndWastes(b: Books, f: Finish)
    ensures Wastes(b, TurnFinished(b, f), OpWastes(b, Finished(f)))
  {
    hide Usage.Plus, Zero, Settle, TryCompact, Arrived, Wastes, SettleWastes, TryWastes;
    var s := Arrived(b, f);
    ArrivedWastes(b, f);
    match f.end {
      case Ended(verdict) =>
        SettledWastes(s, verdict, f.usage, f.unrecoverable, f);
        SameSettling(b, s, verdict, f);
        WastesTrans(b, s, TurnFinished(b, f), false, SettleWastes(s, verdict, f));
      case Died(spent) =>
        SettledWastes(s, Failed, Zero(), false, f);
        SameSettling(b, s, Failed, f);
        WastesTrans(b, s, TurnFinished(b, f), spent != Zero(), SettleWastes(s, Failed, f));
      case WantsFold(spec, progressed, cancel, fold) => FoldEndWastes(b, s, f);
      case WantsClear(abandoned, sealed, cancelled) =>
        var c := BillGoal(Carry(s, f.usage.Plus(abandoned)), f.usage.Plus(abandoned));
        WastesNothing(s, c);
        WastesTrans(b, s, c, false, false);
        SameSettling(b, c, Failed, f);
        SettledWastes(c, Failed, Zero(), f.unrecoverable, f);
        SettledWastes(c, Stopped, Zero(), f.unrecoverable, f);
        NeverAtTheGate(c, Stopped, f);
        if sealed || cancelled { WastesTrans(b, c, TurnFinished(b, f), false, SettleWastes(c, Failed, f)); }
    }
  }

  lemma NeverAtTheGate(b: Books, verdict: Verdict, f: Finish)
    requires verdict != Done
    ensures SettleWastes(b, verdict, f) == SettleWastes(b, Failed, f)
    ensures b.parked.None? ==> !SettleWastes(b, Failed, f)
  {
    hide FoldWastes, Zero;
  }

  /** A turn that wanted a fold: whatever is parked was taken up by it. */
  lemma FoldEndWastes(b: Books, s: Books, f: Finish)
    requires f.end.WantsFold? && s == Arrived(b, f) && Wastes(b, s, false)
    requires s.parked == b.parked && s.streak == b.streak
    ensures Wastes(b, TurnFinished(b, f), TryWastes(b, f.end.spec, f.end.progressed, f.end.cancel, f.end.fold))
  {
    hide Usage.Plus, Zero, Settle, TryCompact, Arrived, Wastes, SettleWastes, FoldWastes;
    TryCompactWastes(s, f.end.spec, f.end.progressed, f.end.cancel, f.end.fold);
    var (t, digest, verdict, capped) := TryCompact(s, f.end.spec, f.end.progressed, f.end.cancel, f.end.fold);
    var wasted := TryWastes(b, f.end.spec, f.end.progressed, f.end.cancel, f.end.fold);
    WastesTrans(b, s, t, false, wasted);
    var folded := f.usage.Plus(digest);
    var c := BillGoal(Carry(t, folded), folded);
    WastesNothing(t, c);
    WastesTrans(b, t, c, wasted, false);
    if verdict.Some? {
      SettledWastes(c, verdict.value, Zero(), f.unrecoverable || capped, f);
      NeverAtTheGate(c, verdict.value, f);
      WastesTrans(b, c, TurnFinished(b, f), wasted, false);
    }
  }

  /** Over every run, all spending is reported, carried, or was work done ahead that nothing came
      to need, exactly when no operation of it threw paid work away by one of its guards. */
  lemma {:induction false} OnlySpeculationIsLostExactly(goal: Option<Goal>, ops: seq<Op>)
    ensures AllSuperseded(DoAll(Opened(goal), ops).losses)
       <==> forall i :: 0 <= i < |ops| ==> !OpWastes(DoAll(Opened(goal), ops[..i]), ops[i])
  {
    hide Do, OpWastes, Superseded;
    if ops == [] {
      NoLossesYet(goal);
    } else {
      var front, last := ops[..|ops| - 1], ops[|ops| - 1];
      var before, after := DoAll(Opened(goal), front), DoAll(Opened(goal), ops);
      OnlySpeculationIsLostExactly(goal, front);
      assert forall i :: 0 <= i < |front| ==> front[..i] == ops[..i] && front[i] == ops[i];
      DoWastes(before, last);
      assert after == Do(before, last);
      SupersededSplits(before, after);
    }
  }

  lemma SupersededSplits(b: Books, c: Books)
    requires b.losses <= c.losses
    ensures AllSuperseded(c.losses) <==> AllSuperseded(b.losses) && OnlySuperseded(b, c)
  {
    hide Superseded;
    assert forall i :: 0 <= i < |b.losses| ==> c.losses[i] == b.losses[i];
    if AllSuperseded(c.losses) {
      forall i | 0 <= i < |b.losses|
        ensures Superseded(b.losses[i])
      {
        assert Superseded(c.losses[i]);
      }
    }
  }

  /** No fold is interrupted, refused or out of time, no evaluator is cut short, and the turn
      lives to report. */
  predicate Smooth(op: Op) {
    match op
    case Finished(f) =>
      && Folds(f.fold) && !f.gate.cut && !f.end.Died?
      && (f.end.WantsFold? ==> !f.end.cancel.During? && Folds(f.end.fold))
    case HumanFold(_, _, fold) => Folds(fold)
    case _ => true
  }

  /** The fold is neither refused by the log nor out of time. */
  predicate Folds(f: FoldInput) {
    !f.sealed && !f.timedOut
  }

  lemma SmoothWastesNothing(b: Books, op: Op)
    requires Smooth(op)
    ensures !OpWastes(b, op)
  {
  }

  /** So over every run of such operations nothing else is lost. */
  lemma SmoothRunsLoseNothingElse(goal: Option<Goal>, ops: seq<Op>)
    requires forall i :: 0 <= i < |ops| ==> Smooth(ops[i])
    ensures AllSuperseded(DoAll(Opened(goal), ops).losses)
  {
    hide Do, Smooth, OpWastes, Superseded;
    forall i | 0 <= i < |ops|
      ensures !OpWastes(DoAll(Opened(goal), ops[..i]), ops[i])
    {
      SmoothWastesNothing(DoAll(Opened(goal), ops[..i]), ops[i]);
    }
    OnlySpeculationIsLostExactly(goal, ops);
  }

  lemma NoLossesYet(goal: Option<Goal>)
    ensures Opened(goal).losses == []
  {
  }

  // ---- The accounts as the actor keeps them ------------------------------------------------------------

  class Accounts {
    var carry: Usage
    var streak: nat
    var parked: Option<bool>
    var goal: Option<Goal>
    ghost var books: Books

    ghost predicate Valid()
      reads this
    {
      carry == books.carry && streak == books.streak && parked == books.parked && goal == books.goal
    }

    /** Nothing spent is unaccounted for. */
    ghost predicate Conserved()
      reads this
    {
      Even(books, Zero(), Zero())
    }

    constructor (goal: Option<Goal>)
      ensures Valid() && books == Opened(goal)
    {
      carry, streak, parked := Zero(), 0, None;
      this.goal := if goal.None? then None else Some(Goal(Zero(), 0, 0));
      books := Opened(goal);
    }

    /** A human fold: what its digest costs joins the carry, and no goal's total. */
    method FoldHere(focused: bool, f: FoldInput)
      requires Valid()
      modifies this
      ensures Valid() && books == FoldNow(old(books), focused, f)
      ensures old(Conserved()) ==> Conserved()
      ensures carry == old(carry).Plus(match FoldCost(None, focused, f) case Some(usage) => usage case None => Zero())
      ensures goal == old(goal) && streak == old(streak) && parked == old(parked)
      ensures books.reports == old(books.reports)
    {
      ghost var was := books;
      if Conserved() { FoldNowEven(was, focused, f); }
      PlusZero(carry);
      hide Usage.Plus, Zero, Even;
      CompactKeeps(was, None, focused, f);
      FoldCostIs(was, None, focused, f);
      var cost := FoldCost(None, focused, f);
      books := FoldNow(books, focused, f);
      if cost.Some? { carry := carry.Plus(cost.value); }
    }

    /** Fold on behalf of a turn, unless its folds have stopped making room. Whatever a digest
        computed ahead cost is handed back or lost; the accounts themselves do not move. */
    method TryFold(spec: Option<Digest>, progressed: bool, cancel: Cancel, f: FoldInput)
      returns (digest: Usage, verdict: Option<Verdict>, capped: bool)
      requires Valid()
      modifies this
      ensures Valid() && (books, digest, verdict, capped) == TryCompact(old(books), spec, progressed, cancel, f)
      ensures carry == old(carry) && goal == old(goal) && parked == None && books.reports == old(books.reports)
      ensures var paid := if spec.Some? then spec.value.usage else Zero();
              forall held: Usage | Even(old(books), held.Plus(paid), held.Plus(paid)) ::
                Even(books, held.Plus(digest), held.Plus(digest))
      ensures capped <==> !progressed && old(streak) >= MAX_COMPACT_STREAK
      ensures streak == (if progressed then 1 else old(streak) + 1)
      ensures (digest, verdict) == FoldOutcome(old(parked), old(streak), spec, progressed, cancel, f)
    {
      ghost var was := books;
      TryCompactEvens(was, spec, progressed, cancel, f);
      TryCompactKeeps(was, spec, progressed, cancel, f);
      digest, verdict, capped := Attempt(spec, progressed, cancel, f);
      hide *;
      Mirrors(was, spec, progressed, cancel, f);
    }

    lemma Mirrors(was: Books, spec: Option<Digest>, progressed: bool, cancel: Cancel, f: FoldInput)
      requires Valid() && books == TryCompact(was, spec, progressed, cancel, f).0
      ensures carry == books.carry && goal == books.goal && parked == books.parked && streak == books.streak
    {
      hide TryCompact;
    }

    method Attempt(spec: Option<Digest>, progressed: bool, cancel: Cancel, f: FoldInput)
      returns (digest: Usage, verdict: Option<Verdict>, capped: bool)
      requires Valid()
      modifies this
      ensures Valid() && (books, digest, verdict, capped) == TryCompact(old(books), spec, progressed, cancel, f)
    {
      ghost var was, r := books, Primed(books, spec, progressed);
      hide Usage.Plus, Compact, Zero, Primed, Forgo, Lose, Spend;
      PrimedKeeps(books, spec, progressed);
      var focused := parked == Some(true);
      parked := None;
      var kept := if focused then None else spec;
      if progressed { streak := 0; }
      streak := streak + 1;
      ForgoKeeps(r, kept, cancel);
      CompactKeeps(r, kept, focused, f);
      books := TryCompact(was, spec, progressed, cancel, f).0;
      if streak > MAX_COMPACT_STREAK { return Zero(), Some(Failed), true; }
      if cancel.During? { return Zero(), Some(Stopped), false; }
      var folded := FoldCost(kept, focused, f);
      FoldCostIs(r, kept, focused, f);
      if folded.None? { return Zero(), Some(Failed), false; }
      return folded.value, if cancel.After? then Some(Stopped) else None, false;
    }

    /** A finished turn: carry and bill what a fold or a clear parks, then settle. It reports at
        most once, and a report leaves nothing carried but a fold that waited for it. */
    method OnTurnFinished(f: Finish)
      requires Valid()
      modifies this
      ensures Valid() && books == TurnFinished(old(books), f)
      ensures old(Conserved()) ==> Conserved()
      ensures books.reports == old(books.reports) || Reported(old(books.reports), f.fold)
      ensures books.reports == old(books.reports) <==> Continues(old(books), f)
      ensures Continues(old(books), f) && !f.end.Ended? ==> carry == old(carry).Plus(Brought(old(books), f))
      ensures !Continues(old(books), f) ==> books.reports[|books.reports| - 1] == Due(old(books), f) && streak == 0
    {
      ghost var was := books;
      if Conserved() { TurnFinishedEven(was, f); }
      FinishedSays(was, f);
      hide Continues, Brought, Due, Balanced, GoalBalanced, Even;
      Land(f);
    }

    method Land(f: Finish)
      requires Valid()
      modifies this
      ensures Valid() && books == TurnFinished(old(books), f)
      ensures books.reports == old(books.reports) || Reported(old(books.reports), f.fold)
    {
      hide Usage.Plus, TryCompact, Settle, Even, Arrived, Reported, FoldOutcome, RunsOn, MeetsGate;
      ArrivedKeeps(books, f);
      books := Arrived(books, f);
      match f.end {
        case Ended(verdict) => SettleTurn(verdict, f.usage, f.unrecoverable, f);
        case Died(_) => SettleTurn(Failed, Zero(), false, f);
        case WantsFold(spec, progressed, cancel, fold) =>
          var digest, verdict, capped := TryFold(spec, progressed, cancel, fold);
          Park(f.usage.Plus(digest));
          if verdict.Some? { SettleTurn(verdict.value, Zero(), f.unrecoverable || capped, f); }
        case WantsClear(abandoned, sealed, cancelled) =>
          Park(f.usage.Plus(abandoned));
          if sealed { SettleTurn(Failed, Zero(), f.unrecoverable, f); }
          else if cancelled { SettleTurn(Stopped, Zero(), f.unrecoverable, f); }
      }
    }

    /** One report was made, and it took everything carried. */
    ghost predicate Reported(before: seq<Usage>, fold: FoldInput)
      reads this
    {
      && |books.reports| == |before| + 1 && before <= books.reports
      && (carry == Zero() || exists focused: bool :: FoldCost(None, focused, fold) == Some(carry))
    }

    method Park(folded: Usage)
      requires Valid()
      modifies this
      ensures Valid() && books == BillGoal(Carry(old(books), folded), folded)
      ensures books.reports == old(books.reports) && carry == old(carry).Plus(folded)
    {
      hide Usage.Plus;
      books := BillGoal(Carry(books, folded), folded);
      carry := carry.Plus(folded);
      Bill(folded);
    }

    method Bill(usage: Usage)
      modifies this`goal
      ensures goal == match old(goal)
                      case Some(was) => Some(was.(spent := was.spent.Plus(usage)))
                      case None => None
    {
      if goal.Some? { goal := Some(goal.value.(spent := goal.value.spent.Plus(usage))); }
    }

    method SettleTurn(verdict: Verdict, usage: Usage, unrecoverable: bool, f: Finish)
      requires Valid()
      modifies this
      ensures Valid() && books == Settle(old(books), verdict, usage, unrecoverable, f)
      ensures books.reports == old(books.reports) || Reported(old(books.reports), f.fold)
      ensures books.reports == old(books.reports) <==> RunsOn(old(books), verdict, f)
      ensures !RunsOn(old(books), verdict, f) ==>
                books.reports[|books.reports| - 1]
                == usage.Plus(if MeetsGate(old(books), verdict, f) then old(carry).Plus(Heard(f.gate)) else old(carry))
      ensures streak == 0
    {
      hide Usage.Plus, EndTurn, Judge, Reported;
      streak, books := 0, books.(streak := 0);
      if unrecoverable && verdict == Failed {
        goal, books := None, DropGoal(books);
      }
      if verdict == Done && f.gate.open && goal.Some? {
        JudgeGoal(usage, f);
      } else {
        books := SkipGoal(books, usage);
        EndOfTurn(usage, f.fold);
      }
    }

    /** The goal gate. A goal that stays in force grows by the turn and by the evaluator, unless
        the evaluator was cut short; it is laid down exactly when it was judged met or
        impossible. A goal not yet met runs on with everything carried and nothing reported,
        until its turns have only talked for too long. */
    method JudgeGoal(usage: Usage, f: Finish)
      requires Valid() && goal.Some?
      modifies this
      ensures Valid() && books == Judge(old(books), old(goal).value, usage, f)
      ensures goal.None? <==> !f.gate.cut && f.gate.verdict in {Met, Impossible}
      ensures goal.Some? ==> goal.value.spent == old(goal).value.spent.Plus(usage).Plus(Heard(f.gate))
      ensures goal.Some? ==> goal.value.turns == old(goal).value.turns + 1
      ensures books.reports == old(books.reports) || Reported(old(books.reports), f.fold)
      ensures books.reports == old(books.reports) ==> carry == old(carry).Plus(Heard(f.gate)).Plus(usage)
      ensures books.reports != old(books.reports) ==>
                books.reports[|books.reports| - 1] == usage.Plus(old(carry).Plus(Heard(f.gate)))
      ensures books.reports == old(books.reports) <==>
                && !f.gate.cut && f.gate.verdict == NotYet
                && (f.gate.toolsRan || old(goal).value.idle + 1 < GOAL_STALL_TURNS)
      ensures goal.Some? ==>
                goal.value.idle == if f.gate.cut || f.gate.verdict != NotYet then old(goal).value.idle
                                   else if f.gate.toolsRan || old(goal).value.idle + 1 >= GOAL_STALL_TURNS then 0
                                   else old(goal).value.idle + 1
      ensures streak == old(streak)
    {
      hide Usage.Plus, EndTurn, Reported;
      goal := Some(goal.value.(turns := goal.value.turns + 1));
      books := books.(goal := goal);
      Bill(usage);
      books := BillGoal(books, usage);
      Evaluator(f.gate);
      match if f.gate.cut then NoVerdict else f.gate.verdict {
        case NotYet =>
          var idle := if f.gate.toolsRan then 0 else goal.value.idle + 1;
          if idle >= GOAL_STALL_TURNS {
            goal := Some(goal.value.(idle := 0));
            books := books.(goal := goal);
            EndOfTurn(usage, f.fold);
          } else {
            goal := Some(goal.value.(idle := idle));
            carry := carry.Plus(usage);
            books := Carry(books.(goal := goal), usage);
          }
        case NoVerdict => EndOfTurn(usage, f.fold);
        case _ =>
          goal, books := None, DropGoal(books);
          EndOfTurn(usage, f.fold);
      }
    }

    /** What the evaluator cost, as far as anyone learns. */
    method Evaluator(gate: Gate)
      requires Valid() && goal.Some?
      modifies this
      ensures Valid() && books == Evaluate(old(books), gate) && books.reports == old(books.reports)
      ensures carry == old(carry).Plus(Heard(gate)) && streak == old(streak)
      ensures goal == Some(old(goal).value.(spent := old(goal).value.spent.Plus(Heard(gate))))
    {
      PlusZero(carry);
      PlusZero(goal.value.spent);
      hide Usage.Plus, Zero;
      books := Evaluate(books, gate);
      if !gate.cut {
        carry := carry.Plus(gate.eval);
        Bill(gate.eval);
      }
    }

    /** One report of everything carried, then a fold that waited for it. */
    method EndOfTurn(usage: Usage, fold: FoldInput)
      requires Valid()
      modifies this
      ensures Valid() && books == EndTurn(old(books), usage, fold) && goal == old(goal) && streak == old(streak)
      ensures books.reports == old(books.reports) + [usage.Plus(old(carry))]
      ensures Reported(old(books.reports), fold)
    {
      PlusNothing();
      hide Usage.Plus, FoldNow, Zero, FoldCost;
      carry, books := Zero(), Report(books, usage);
      if parked.Some? {
        var focused := parked.value;
        parked, books := None, books.(parked := None);
        FoldHere(focused, fold);
        assert FoldCost(None, focused, fold).Some? ==> FoldCost(None, focused, fold) == Some(carry);
      }
    }

    method Handle(op: Op)
      requires Valid()
      modifies this
      ensures Valid() && books == Do(old(books), op)
      ensures old(Conserved()) ==> Conserved()
    {
      if Conserved() { DoEven(books, op); }
      hide Usage.Plus, TurnFinished, FoldNow, Even;
      match op {
        case Finished(finish) => OnTurnFinished(finish);
        case HumanFold(running, focused, fold) =>
          if running {
            parked, books := Some(focused), books.(parked := Some(focused));
          } else {
            FoldHere(focused, fold);
          }
        case SetGoal =>
          goal := Some(Goal(Zero(), 0, 0));
          books := NewGoal(books);
        case ClearGoal => goal, books := None, DropGoal(books);
      }
    }
  }

  lemma TryCompactEvens(b: Books, spec: Option<Digest>, progressed: bool, cancel: Cancel, f: FoldInput)
    ensures var paid := if spec.Some? then spec.value.usage else Zero();
            var (c, digest, verdict, capped) := TryCompact(b, spec, progressed, cancel, f);
            forall held: Usage | Even(b, held.Plus(paid), held.Plus(paid)) ::
              Even(c, held.Plus(digest), held.Plus(digest))
  {
    hide *;
    var paid := if spec.Some? then spec.value.usage else Zero();
    forall held: Usage | Even(b, held.Plus(paid), held.Plus(paid))
      ensures var (c, digest, verdict, capped) := TryCompact(b, spec, progressed, cancel, f);
              Even(c, held.Plus(digest), held.Plus(digest))
    {
      TryCompactEven(b, held, spec, progressed, cancel, f);
    }
  }

  lemma TryCompactKeeps(b: Books, spec: Option<Digest>, progressed: bool, cancel: Cancel, f: FoldInput)
    ensures var (c, digest, verdict, capped) := TryCompact(b, spec, progressed, cancel, f);
            && c.carry == b.carry && c.goal == b.goal && c.parked == None && c.reports == b.reports
            && (capped <==> !progressed && b.streak >= MAX_COMPACT_STREAK)
            && c.streak == (if progressed then 1 else b.streak + 1)
            && (digest, verdict) == FoldOutcome(b.parked, b.streak, spec, progressed, cancel, f)
  {
    FoldCostIs(Primed(b, spec, progressed), Adopted(b, spec), b.parked == Some(true), f);
    hide Compact, Usage.Plus, Primed, Forgo, Lose, Spend, FoldCost;
    var kept, r := Adopted(b, spec), Primed(b, spec, progressed);
    PrimedKeeps(b, spec, progressed);
    ForgoKeeps(r, kept, cancel);
    CompactKeeps(r, kept, b.parked == Some(true), f);
  }

  /** Equal in the accounts the actor keeps. */
  predicate SameAccounts(b: Books, c: Books) {
    c.carry == b.carry && c.goal == b.goal && c.parked == b.parked && c.streak == b.streak && c.reports == b.reports
  }

  lemma PrimedKeeps(b: Books, spec: Option<Digest>, progressed: bool)
    ensures var r := Primed(b, spec, progressed);
            && r.carry == b.carry && r.goal == b.goal && r.parked == None && r.reports == b.reports
            && r.streak == (if progressed then 0 else b.streak) + 1
  {
    hide Usage.Plus;
  }

  lemma ForgoKeeps(b: Books, spec: Option<Digest>, cancel: Cancel)
    ensures SameAccounts(b, Forgo(b, spec, StreakCap))
    ensures cancel.During? ==>
              SameAccounts(b, Lose(Spend(Forgo(b, spec, Interrupted), cancel.spent),
                                   Loss(Interrupted, cancel.spent, false)))
  {
    hide Usage.Plus;
  }

  /** What is learned of an evaluator's cost. */
  function Heard(gate: Gate): Usage {
    if gate.cut then Zero() else gate.eval
  }

  /** What a turn that asked for room brings to the carry. */
  function Brought(b: Books, f: Finish): Usage {
    match f.end
    case WantsFold(spec, progressed, cancel, fold) =>
      f.usage.Plus(FoldOutcome(b.parked, b.streak, spec, progressed, cancel, fold).0)
    case WantsClear(abandoned, _, _) => f.usage.Plus(abandoned)
    case _ => Zero()
  }

  /** The turn, or its goal, goes on, and nothing is reported yet. */
  predicate Continues(b: Books, f: Finish) {
    match f.end
    case Ended(verdict) => RunsOn(b, verdict, f)
    case Died(_) => false
    case WantsFold(spec, progressed, cancel, fold) =>
      FoldOutcome(b.parked, b.streak, spec, progressed, cancel, fold).1 == None
    case WantsClear(_, sealed, cancelled) => !sealed && !cancelled
  }

  /** What is reported when the turn does end: all that was carried, all it brings, its own
      usage, and what its goal's evaluator cost. */
  function Due(b: Books, f: Finish): Usage {
    match f.end
    case Ended(verdict) =>
      f.usage.Plus(if MeetsGate(b, verdict, f) then b.carry.Plus(Heard(f.gate)) else b.carry)
    case Died(_) => b.carry
    case _ => b.carry.Plus(Brought(b, f))
  }

  lemma EndTurnSays(b: Books, usage: Usage, fold: FoldInput)
    ensures var c := EndTurn(b, usage, fold);
            c.reports == b.reports + [usage.Plus(b.carry)] && c.streak == b.streak
  {
    hide Usage.Plus, Compact;
    var r := Report(b, usage).(parked := None);
    if b.parked.Some? { CompactKeeps(r, None, b.parked.value, fold); }
  }

  lemma JudgeSays(b: Books, usage: Usage, f: Finish)
    requires b.goal.Some?
    ensures var c, goes := Judge(b, b.goal.value, usage, f), RunsOn(b, Done, f.(gate := f.gate.(open := true)));
            && c.streak == b.streak
            && c.reports == if goes then b.reports else b.reports + [usage.Plus(b.carry.Plus(Heard(f.gate)))]
  {
    PlusZero(b.carry);
    hide Usage.Plus, EndTurn, Zero;
    forall c: Books
      ensures EndTurn(c, usage, f.fold).reports == c.reports + [usage.Plus(c.carry)]
      ensures EndTurn(c, usage, f.fold).streak == c.streak
    {
      EndTurnSays(c, usage, f.fold);
    }
  }

  lemma SettleSays(b: Books, verdict: Verdict, usage: Usage, unrecoverable: bool, f: Finish)
    ensures var c := Settle(b, verdict, usage, unrecoverable, f);
            && c.streak == 0
            && c.reports
               == if RunsOn(b, verdict, f) then b.reports
                  else b.reports + [usage.Plus(if MeetsGate(b, verdict, f) then b.carry.Plus(Heard(f.gate))
                                               else b.carry)]
  {
    hide Usage.Plus, EndTurn, Judge;
    var r := b.(streak := 0);
    if verdict == Done && f.gate.open && b.goal.Some? {
      JudgeSays(r, usage, f);
    } else {
      EndTurnSays(SkipGoal(if unrecoverable && verdict == Failed then DropGoal(r) else r, usage), usage, f.fold);
    }
  }

  /** A turn's end, told over what was carried: what goes on, what is reported, and how much. */
  lemma FinishedSays(b: Books, f: Finish)
    ensures var c := TurnFinished(b, f);
            && (c.reports == b.reports <==> Continues(b, f))
            && (Continues(b, f) && !f.end.Ended? ==> c.carry == b.carry.Plus(Brought(b, f)))
            && (!Continues(b, f) ==> c.reports == b.reports + [Due(b, f)] && c.streak == 0)
  {
    var s := Arrived(b, f);
    ArrivedKeeps(b, f);
    PlusNothing();
    hide Usage.Plus, Zero, TryCompact, Settle, Arrived, FoldOutcome, Heard;
    match f.end {
      case Ended(verdict) => SettleSays(s, verdict, f.usage, f.unrecoverable, f);
      case Died(_) => SettleSays(s, Failed, Zero(), false, f);
      case WantsFold(spec, progressed, cancel, fold) =>
        TryCompactKeeps(s, spec, progressed, cancel, fold);
        var (t, digest, verdict, capped) := TryCompact(s, spec, progressed, cancel, fold);
        var folded := f.usage.Plus(digest);
        var c := BillGoal(Carry(t, folded), folded);
        NeverDone(s, spec, progressed, cancel, fold);
        if verdict.Some? { SettleSays(c, verdict.value, Zero(), f.unrecoverable || capped, f); }
      case WantsClear(abandoned, sealed, cancelled) =>
        var folded := f.usage.Plus(abandoned);
        var c := BillGoal(Carry(s, folded), folded);
        SettleSays(c, Failed, Zero(), f.unrecoverable, f);
        SettleSays(c, Stopped, Zero(), f.unrecoverable, f);
    }
  }

  lemma NeverDone(b: Books, spec: Option<Digest>, progressed: bool, cancel: Cancel, f: FoldInput)
    ensures TryCompact(b, spec, progressed, cancel, f).2 != Some(Done)
  {
    hide Compact, Primed, Forgo, Usage.Plus, Lose;
  }

  lemma PlusNothing()
    ensures forall usage: Usage :: Zero().Plus(usage) == usage
  {
  }

  lemma ArrivedKeeps(b: Books, f: Finish)
    ensures var s := Arrived(b, f);
            && s.carry == b.carry && s.streak == b.streak && s.parked == b.parked && s.goal == b.goal
            && s.reports == b.reports
  {
    hide Usage.Plus;
  }

  /** Any run of the accounts, from an opened session: spending is conserved in the fields the
      actor keeps. */
  method Serve(goal: Option<Goal>, ops: seq<Op>) returns (accounts: Accounts)
    ensures fresh(accounts) && accounts.Valid() && accounts.books == DoAll(Opened(goal), ops)
    ensures accounts.books.incurred
         == SumAll(accounts.books.reports).Plus(accounts.carry).Plus(Sum(accounts.books.losses))
  {
    hide Usage.Plus, Opened, Do, Sum, SumAll;
    accounts := new Accounts(goal);
    for i := 0 to |ops|
      invariant fresh(accounts) && accounts.Valid() && accounts.books == DoAll(Opened(goal), ops[..i])
    {
      assert ops[..i + 1][..i] == ops[..i];
      accounts.Handle(ops[i]);
    }
    assert ops[..|ops|] == ops;
    UsageIsConserved(goal, ops);
  }

  /** What a turn's fold hands back, and how the turn ends by it, if it does: with its folds no
      longer making room, or its token cancelled, or nothing folded, or folded and cancelled. */
  function FoldOutcome(parked: Option<bool>, streak: nat, spec: Option<Digest>, progressed: bool, cancel: Cancel,
                       f: FoldInput) : (Usage, Option<Verdict>)
  {
    var focused := parked == Some(true);
    var cost := FoldCost(if focused then None else spec, focused, f);
    if !progressed && streak >= MAX_COMPACT_STREAK then (Zero(), Some(Failed))
    else if cancel.During? then (Zero(), Some(Stopped))
    else if cost.None? then (Zero(), Some(Failed))
    else (cost.value, if cancel.After? then Some(Stopped) else None)
  }

  /** What a fold that goes ahead costs. */
  function FoldCost(spec: Option<Digest>, focused: bool, f: FoldInput): Option<Usage> {
    if !f.reset && !focused && spec.Some? && spec.value.fits then (if f.sealed then None else Some(spec.value.usage))
    else if !f.planned || f.sealed then None
    else Some(Summary(f))
  }

  lemma FoldCostIs(b: Books, spec: Option<Digest>, focused: bool, f: FoldInput)
    ensures Compact(b, spec, focused, f).1
         == match FoldCost(spec, focused, f) case None => NotFolded case Some(usage) => Folded(usage)
  {
    hide Usage.Plus;
  }

  /** Folding itself moves no account. */
  lemma CompactKeeps(b: Books, spec: Option<Digest>, focused: bool, f: FoldInput)
    ensures var c := Compact(b, spec, focused, f).0;
            && c.carry == b.carry && c.streak == b.streak && c.parked == b.parked && c.goal == b.goal
            && c.reports == b.reports
  {
    hide Usage.Plus;
  }
}
