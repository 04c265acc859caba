/** What a ticket's holder is told: that its unit is in the log, that it is but the turn was cut
    short by a fold or a clear, or that the log refused it. */
module Verdicts {
  import opened Items
  import opened Compaction
  import opened HeldBuffer
  import opened Session
  import CommitLaws

  /** Every ticket resolved, with what was said of it, in order. */
  function Told(trace: seq<Event>): seq<(nat, Verdict)> {
    if trace == [] then []
    else
      var front, last := Told(trace[..|trace| - 1]), trace[|trace| - 1];
      if last.Resolved? then front + [(last.ticket, last.verdict)] else front
  }

  /** What a queue's tickets are to be told. */
  function Due(fifo: seq<PendingAck>, cut: bool): seq<(nat, Verdict)> {
    seq(|fifo|, i requires 0 <= i < |fifo| =>
      (fifo[i].at, if fifo[i].ack then (if cut then Aborted else Acked) else LogSealed))
  }

  lemma ToldSnoc(trace: seq<Event>, e: Event)
    ensures Told(trace + [e]) == Told(trace) + (if e.Resolved? then [(e.ticket, e.verdict)] else [])
  {
    assert (trace + [e])[..|trace|] == trace;
  }

  lemma DueTail(fifo: seq<PendingAck>, cut: bool)
    ensures fifo == [] ==> Due(fifo, cut) == []
    ensures fifo != [] ==> Due(fifo, cut) == Due(fifo[..1], cut) + Due(fifo[1..], cut)
  {
  }

  lemma LandedTells(s: State)
    requires s.fifo != []
    ensures Landed(s).trace == s.trace && Landed(s).fifo == s.fifo[1..]
  {
    hide Tokens;
  }

  lemma DrainOneTells(s: State, cut: bool)
    requires s.fifo != []
    ensures Told(DrainOne(s, cut).trace) == Told(s.trace) + Due(s.fifo[..1], cut)
    ensures DrainOne(s, cut).fifo == s.fifo[1..]
  {
    hide Landed, Told;
    LandedTells(s);
    var l := Landed(s);
    ToldSnoc(l.trace, Published(l.items, l.epoch, |l.acked|));
    ToldSnoc(Publish(l).trace, Resolved(s.fifo[0].at, Settle(s.fifo[0], cut)));
  }

  /** Draining tells every outstanding ticket, oldest first: its unit is in, or the log refused
      it; and a fold or a clear tells those that are in that their turn was cut. */
  lemma {:induction false} DrainTells(s: State, cut: bool)
    ensures Told(Drain(s, cut).trace) == Told(s.trace) + Due(s.fifo, cut)
    decreases |s.fifo|
  {
    hide *;
    CommitLaws.DrainEmpty(s, cut);
    DueTail(s.fifo, cut);
    if s.fifo != [] {
      CommitLaws.DrainUnfolds(s, cut);
      DrainOneTells(s, cut);
      DrainTells(DrainOne(s, cut), cut);
    }
  }

  lemma CommitTells(s: State, payload: Payload)
    ensures Told(Commit(s, payload).trace) == Told(s.trace)
  {
    hide Told, Tokens;
    if s.fate > 0 {
      var l := Logged(s, payload);
      ToldSnoc(s.trace, Published(l.items, l.epoch, |l.acked|));
    }
  }

  /** Any entry of the actor's own lets everything before it in. */
  lemma AppendTells(s: State, payload: Payload)
    ensures Told(Append(s, payload).trace) == Told(s.trace) + Due(s.fifo, false)
    ensures Append(s, payload).fifo == []
  {
    hide *;
    CommitLaws.AppendUnfolds(s, payload);
    CommitLaws.DrainEffect(s, false);
    DrainTells(s, false);
    CommitTells(Drain(s, false), payload);
  }

  lemma {:induction false} AppendSteersTells(s: State, steers: seq<HeldSteer>)
    ensures var t := AppendSteers(s, steers);
            && Told(t.trace) == (if steers == [] then Told(s.trace) else Told(s.trace) + Due(s.fifo, false))
            && t.fifo == (if steers == [] then s.fifo else [])
    decreases |steers|
  {
    hide *;
    CommitLaws.AppendSteersUnfolds(s, steers);
    if steers != [] {
      AppendTells(s, SteerEntry(steers[0]));
      AppendSteersTells(Append(s, SteerEntry(steers[0])), steers[1..]);
      DueTail([], false);
    }
  }

  lemma ReleaseTells(s: State)
    ensures Told(ReleaseSteers(s).trace)
         == if s.held == [] || Awaiting(s.items) then Told(s.trace) else Told(s.trace) + Due(s.fifo, false)
  {
    hide Told, Due, AppendSteers, Awaiting;
    if !(s.held == [] || Awaiting(s.items)) { AppendSteersTells(s.(held := []), s.held); }
  }

  /** An ack's own ticket is told what the writer said. Steers that were held let every younger
      unit in first, and their tickets are told so. */
  lemma AckTells(s: State)
    requires s.fifo != []
    ensures var head := if s.fifo[0].ack then s.items + s.fifo[0].items else s.items;
            Told(AckArrives(s).trace)
            == Told(s.trace) + (if s.held == [] || Awaiting(head) then [] else Due(s.fifo[1..], false))
               + Due(s.fifo[..1], false)
  {
    hide Told, Due, ReleaseSteers, Settle, Overtakes, Awaiting, Tokens;
    var l := Landed(s.(overtook := s.overtook || Overtakes(s)));
    var r := ReleaseSteers(l);
    ReleaseTells(l);
    ToldSnoc(r.trace, Published(r.items, r.epoch, |r.acked|));
    ToldSnoc(Publish(r).trace, Resolved(s.fifo[0].at, Settle(s.fifo[0], false)));
    DueOne(s);
    assert Told(s.trace) + [] == Told(s.trace);
  }

  lemma DueOne(s: State)
    requires s.fifo != []
    ensures Due(s.fifo[..1], false) == [(s.fifo[0].at, Settle(s.fifo[0], false))]
  {
  }

  lemma RepointTells(s: State, items: seq<Item>)
    ensures Told(Repoint(s, items).trace) == Told(s.trace)
  {
    hide Told, Tokens;
    ToldSnoc(s.trace, Published(items, s.epoch, |s.acked|));
  }

  /** A fold cuts the turns whose units it drains short. */
  lemma CompactTells(s: State, spec: Option<SpecDigest>, focus: Option<string>, input: FoldInput)
    ensures Told(Compact(s, spec, focus, input).trace) == Told(s.trace) + Due(s.fifo, true)
  {
    hide *;
    var d := Drain(s, true);
    DrainTells(s, true);
    CommitLaws.CompactUnfolds(s, spec, focus, input);
    var choice := FoldChoice(d.items, spec, focus, input);
    if choice.Some? {
      var (plan, digest) := choice.value;
      var entry := CompactionEntry(digest, plan.prefixEnd, plan.keptFrom, input.pins);
      CommitLaws.FoldWithUnfolds(d, plan, digest, input.pins);
      CommitTells(d, entry);
      RepointTells(Commit(d, entry), Apply(d.items, plan, digest, input.pins));
    }
  }

  /** So does a clear. */
  lemma ClearTells(s: State, ids: seq<string>)
    ensures Told(Clear(s, ids).trace) == Told(s.trace) + Due(s.fifo, true)
  {
    hide Told, Due, Drain, Commit, Repoint, ClearResults;
    var d := Drain(s, true);
    DrainTells(s, true);
    CommitTells(d, ClearedEntry(ids));
    RepointTells(Commit(d, ClearedEntry(ids)), ClearResults(d.items, ids));
  }
}
