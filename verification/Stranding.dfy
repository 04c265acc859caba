/** What becomes of a log that holds a fold its head never took: how far the two are apart from
    then on, and exactly which later fold brings them together. */
module Stranding {
  import opened Items
  import opened Compaction
  import opened Session
  import opened CommitLaws
  import opened CommitTheorems
  import History

  /** What the next resume makes of the raw log. */
  function Reread(s: State): seq<Item> {
    Replay(s.seed, s.log)
  }

  /** What the session shows once everything in flight has landed. */
  function Shown(s: State): seq<Item> {
    s.items + OkItems(s.fifo)
  }

  // ---- From one stranded fold to the next ----------------------------------------------

  lemma MoreIs(s: State, t: State)
    requires History.Continues(s, t)
    ensures t.seed == s.seed && |s.log| <= |t.log| && t.log == s.log + t.log[|s.log|..]
  {
  }

  /** As long as nothing else is stranded, the log and the session take the same entries, each
      on top of what it had. */
  lemma BothTakeTheSame(s: State, t: State)
    requires Inv(s) && Inv(t) && History.Continues(s, t) && t.stranded == s.stranded
    ensures |s.log| <= |t.log|
    ensures Reread(t) == Replay(Reread(s), t.log[|s.log|..])
    ensures Shown(t) == Replay(Shown(s), t.log[|s.log|..])
  {
    hide *;
    MoreIs(s, t);
    var more := t.log[|s.log|..];
    ReadsAre(s);
    ReadsAre(t);
    ReplayConcat(s.seed, s.log, more);
    InvDef(s);
    CoreDef(s, multiset{});
    HeadAndLog(s);
    StrandedBelow(s);
    KeptAppend(s.log, more, s.stranded);
    ReplayConcat(s.seed, Kept(s.log, s.stranded), more);
    LogReplaysToHeadAndQueue(s);
    LogReplaysToHeadAndQueue(t);
  }

  lemma ReadsAre(s: State)
    ensures Reread(s) == Replay(s.seed, s.log) && Shown(s) == s.items + OkItems(s.fifo)
  {
    hide Replay, OkItems;
  }

  lemma StrandedBelow(s: State)
    requires StrandedOk(s.log, s.stranded)
    ensures forall i :: i in s.stranded ==> i < |s.log|
  {
  }

  lemma RunInto(history: seq<Item>, fate: nat, cmds: seq<Cmd>, k: nat)
    requires k <= |cmds| && forall i :: 0 <= i < |cmds| ==> Plain(cmds[i])
    ensures var s, t := Run(Opened(history, fate), cmds[..k]), Run(Opened(history, fate), cmds);
            Inv(s) && Inv(t) && History.Continues(s, t)
  {
    hide *;
    RunInv(history, fate, cmds[..k]);
    RunInv(history, fate, cmds);
    History.RunGrows(Opened(history, fate), cmds, k);
  }

  /** Log and session, once they agree, agree until another fold is stranded; and until the
      next fold or clear they stay as far apart as they were. */
  lemma AgreementLasts(history: seq<Item>, fate: nat, cmds: seq<Cmd>, k: nat)
    requires k <= |cmds| && forall i :: 0 <= i < |cmds| ==> Plain(cmds[i])
    requires var s, t := Run(Opened(history, fate), cmds[..k]), Run(Opened(history, fate), cmds);
             t.stranded == s.stranded
    ensures var s, t := Run(Opened(history, fate), cmds[..k]), Run(Opened(history, fate), cmds);
            && |s.log| <= |t.log|
            && (Reread(s) == Shown(s) ==> Reread(t) == Shown(t))
            && (NoRepoint(t.log[|s.log|..]) && Reread(t) == Shown(t) ==> Reread(s) == Shown(s))
  {
    hide *;
    var s, t := Run(Opened(history, fate), cmds[..k]), Run(Opened(history, fate), cmds);
    RunInto(history, fate, cmds, k);
    BothTakeTheSame(s, t);
    var more := t.log[|s.log|..];
    if NoRepoint(more) {
      ReplayAppends(Reread(s), more);
      ReplayAppends(Shown(s), more);
      SameEnd(Reread(s), Shown(s), ItemsOf(more));
    }
  }

  lemma SameEnd(a: seq<Item>, b: seq<Item>, end: seq<Item>)
    ensures a + end == b + end ==> a == b
  {
    if a + end == b + end {
      assert |a + end| == |b + end|;
      assert a == (a + end)[..|a|] && b == (b + end)[..|b|];
    }
  }

  // ---- A later fold -------------------------------------------------------------------------

  /** A fold that keeps everything from `k` finds the same to keep in both. */
  predicate SameTail(reread: seq<Item>, shown: seq<Item>, k: nat)
    requires k <= |shown|
  {
    || (k == |shown| && |reread| <= |shown|)
    || (|reread| == |shown| && reread[k..] == shown[k..])
  }

  /** A later fold without pins, behind a preserved prefix the log still has, makes log and head
      agree again exactly when it keeps nothing and the log has no more than the head, or when
      the two are equally long and the same from its cut on. */
  lemma LaterFoldHealsExactly(s: State, plan: Plan, digest: seq<Item>)
    requires Inv(s) && s.fifo == [] && s.fate > 0
    requires plan.prefixEnd <= plan.keptFrom <= |s.items|
    requires plan.prefixEnd <= |Reread(s)| && Reread(s)[..plan.prefixEnd] == s.items[..plan.prefixEnd]
    ensures var t := FoldWith(s, plan, digest, []);
            Reread(t) == t.items <==> SameTail(Reread(s), s.items, plan.keptFrom)
  {
    hide *;
    var entry := CompactionEntry(digest, plan.prefixEnd, plan.keptFrom, []);
    var t := FoldWith(s, plan, digest, []);
    FoldFields(s, plan, digest);
    ReadsAre(s);
    ReadsAre(t);
    ReplaySnoc(s.seed, s.log, entry);
    FoldReplays(Reread(s), plan, digest);
    SplicesAgree(Reread(s), s.items, plan, digest);
  }

  lemma FoldFields(s: State, plan: Plan, digest: seq<Item>)
    requires s.fate > 0 && plan.prefixEnd <= plan.keptFrom <= |s.items|
    ensures var t := FoldWith(s, plan, digest, []);
            && t.seed == s.seed && t.fifo == s.fifo && t.stranded == s.stranded
            && t.log == s.log + [CompactionEntry(digest, plan.prefixEnd, plan.keptFrom, [])]
            && t.items == Apply(s.items, plan, digest, [])
  {
    hide Apply, Tokens;
  }

  lemma FoldReplays(items: seq<Item>, plan: Plan, digest: seq<Item>)
    ensures ReplayOne(items, CompactionEntry(digest, plan.prefixEnd, plan.keptFrom, []))
         == ReplayFold(items, digest, plan.prefixEnd, plan.keptFrom, [])
  {
    hide ReplayFold;
  }

  lemma SplicesAgree(reread: seq<Item>, shown: seq<Item>, plan: Plan, digest: seq<Item>)
    requires plan.prefixEnd <= plan.keptFrom <= |shown|
    requires plan.prefixEnd <= |reread| && reread[..plan.prefixEnd] == shown[..plan.prefixEnd]
    ensures ReplayFold(reread, digest, plan.prefixEnd, plan.keptFrom, []) == Apply(shown, plan, digest, [])
            <==> SameTail(reread, shown, plan.keptFrom)
  {
    var p, k := plan.prefixEnd, plan.keptFrom;
    var cut := if k <= |reread| then k else |reread|;
    var front := shown[..p] + digest;
    assert reread[..cut][..p] == shown[..p];
    assert ReplayFold(reread, digest, p, k, []) == front + reread[cut..] by {
      assert front + [] == front;
    }
    assert Apply(shown, plan, digest, []) == front + shown[k..] by {
      assert front + [] == front;
    }
    assert (front + reread[cut..])[|front|..] == reread[cut..];
    assert (front + shown[k..])[|front|..] == shown[k..];
  }

  // ---- A run that comes together again ----------------------------------------------------------

  function ResetFold(): FoldInput {
    FoldInput(None, [], true, 0, 0)
  }

  /** The run that strands a fold, and then a fold that keeps no tail. */
  function HealingRun(): seq<Cmd> {
    StrandingRun() + [FoldCmd(None, ResetFold())]
  }

  /** Behind that fold the log replays to the head again, with the stranded entry still in it. */
  lemma LogComesTogether()
    ensures forall i :: 0 <= i < |HealingRun()| ==> Plain(HealingRun()[i])
    ensures var s := Run(Opened(TwoMessages(), 5), HealingRun());
            s.stranded == {0} && s.items == DigestOf(None) && Reread(s) == s.items
  {
    hide *;
    var o := Opened(TwoMessages(), 5);
    var s := Run(o, StrandingRun());
    HealingSteps(o);
    StrandedFoldLosesText();
    RunInv(TwoMessages(), 5, StrandingRun());
    ResetChoice(s);
    ReadsAre(s);
    GistLength();
    LaterFoldHealsExactly(s, Plan(0, 2), DigestOf(None));
    FoldFields(s, Plan(0, 2), DigestOf(None));
    FoldedAway(DigestOf(None));
  }

  lemma HealingSteps(o: State)
    ensures forall i :: 0 <= i < |HealingRun()| ==> Plain(HealingRun()[i])
    ensures Run(o, HealingRun()) == Step(Run(o, StrandingRun()), FoldCmd(None, ResetFold()))
  {
    hide Step;
    assert HealingRun()[..|HealingRun()| - 1] == StrandingRun();
  }

  lemma ResetChoice(s: State)
    requires s.items == TwoMessages() && !s.running && s.fifo == []
    ensures Step(s, FoldCmd(None, ResetFold())) == FoldWith(s, Plan(0, 2), DigestOf(None), [])
  {
    hide Drain, FoldWith, DigestOf, BestPlan;
    DrainEmpty(s, true);
    DigestedIsPlanned();
    forall q: Plan | BestPlan(TwoMessages(), 0, 0, q)
      ensures q == Plan(0, 1)
    {
      BestPlanUnique(TwoMessages(), 0, 0, q, Plan(0, 1));
    }
    assert PlanOf(s.items, 0, 0) == Some(Plan(0, 1));
  }

  lemma GistLength()
    ensures var reread := DigestOf(Some("gist")) + [Message("second")];
            && |TwoMessages()| == 2 && reread[..0] == TwoMessages()[..0] && SameTail(reread, TwoMessages(), 2)
  {
    hide DIGEST_TAIL, FLOOR_TEXT;
  }

  lemma FoldedAway(digest: seq<Item>)
    ensures Apply(TwoMessages(), Plan(0, 2), digest, []) == digest
  {
    var items := TwoMessages();
    assert items[..0] == [] && items[2..] == [];
    assert [] + digest + [] + [] == digest;
  }
}
