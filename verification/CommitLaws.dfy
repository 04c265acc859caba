/** What every run of the session keeps: the head is the replay of the acked log, the log is
    the acked units and what is still in flight, tickets resolve exactly once and only behind
    a published head that contains them, and no published head shows part of a unit. */
module CommitLaws {
  import opened Items
  import opened Compaction
  import opened HeldBuffer
  import opened Session

  // ---- The invariant --------------------------------------------------------------

  function Flatten(units: seq<Unit>): seq<Payload> {
    if units == [] then [] else Flatten(units[..|units| - 1]) + units[|units| - 1].entries
  }

  /** The projection after the first `n` acked units. */
  function HeadAt(seed: seq<Item>, acked: seq<Unit>, n: nat): seq<Item>
    requires n <= |acked|
  {
    Replay(seed, Flatten(acked[..n]))
  }

  function OkEntries(fifo: seq<PendingAck>): seq<Payload> {
    if fifo == [] then [] else (if fifo[0].ack then fifo[0].entries else []) + OkEntries(fifo[1..])
  }

  function OkItems(fifo: seq<PendingAck>): seq<Item> {
    if fifo == [] then [] else (if fifo[0].ack then fifo[0].items else []) + OkItems(fifo[1..])
  }

  function Tickets(fifo: seq<PendingAck>): seq<nat> {
    seq(|fifo|, i requires 0 <= i < |fifo| => fifo[i].at)
  }

  function ResolvedTickets(trace: seq<Event>): seq<nat> {
    if trace == [] then []
    else
      var front, last := ResolvedTickets(trace[..|trace| - 1]), trace[|trace| - 1];
      if last.Resolved? then front + [last.ticket] else front
  }

  function LastEpoch(trace: seq<Event>): nat {
    if trace == [] then 0
    else if trace[|trace| - 1].Published? then trace[|trace| - 1].epoch
    else LastEpoch(trace[..|trace| - 1])
  }

  /** How many acked units the newest published head stood on. */
  function LastUnits(trace: seq<Event>): nat {
    if trace == [] then 0
    else if trace[|trace| - 1].Published? then trace[|trace| - 1].units
    else LastUnits(trace[..|trace| - 1])
  }

  /** The commit order the first `n` acked units end on. */
  function EpochAt(acked: seq<Unit>, n: nat): nat
    requires n <= |acked|
  {
    if n == 0 then 0 else acked[n - 1].at
  }

  /** The ticket's own unit is among the first `n` acked. */
  predicate Contained(acked: seq<Unit>, n: nat, ticket: nat) {
    exists k :: 0 <= k < n && k < |acked| && acked[k].at == ticket
  }

  predicate Ascending(ns: seq<nat>) {
    forall i, j :: 0 <= i < j < |ns| ==> ns[i] < ns[j]
  }

  /** A head published between a fold's log entry and its re-point: the new epoch over the
      projection from before it. */
  predicate Lagging(seed: seq<Item>, acked: seq<Unit>, e: Event) {
    && e.Published?
    && 0 < e.units <= |acked|
    && |acked[e.units - 1].entries| == 1 && Repoints(acked[e.units - 1].entries[0])
    && e.items == HeadAt(seed, acked, e.units - 1)
    && e.epoch == EpochAt(acked, e.units)
  }

  predicate Exact(seed: seq<Item>, acked: seq<Unit>, e: Event) {
    && e.Published?
    && e.units <= |acked|
    && e.items == HeadAt(seed, acked, e.units)
    && e.epoch == EpochAt(acked, e.units)
  }

  /** The laws of one visible event, given what was visible before it. */
  predicate EventOk(seed: seq<Item>, acked: seq<Unit>, before: seq<Event>, e: Event) {
    && (before != [] && before[|before| - 1].Published? && !Exact(seed, acked, before[|before| - 1]) ==>
          Exact(seed, acked, e) && e.epoch == before[|before| - 1].epoch && e.units == before[|before| - 1].units)
    && match e
       case Published(_, epoch, _) =>
         LastEpoch(before) <= epoch && (Exact(seed, acked, e) || Lagging(seed, acked, e))
       case Resolved(ticket, verdict) =>
         if verdict == LogSealed then !Contained(acked, |acked|, ticket)
         else Contained(acked, LastUnits(before), ticket)
  }

  predicate TraceOk(seed: seq<Item>, acked: seq<Unit>, trace: seq<Event>) {
    trace == [] ||
    (&& TraceOk(seed, acked, trace[..|trace| - 1])
     && EventOk(seed, acked, trace[..|trace| - 1], trace[|trace| - 1]))
  }

  /** The last visible event leaves nothing lagging. */
  predicate Settled(seed: seq<Item>, acked: seq<Unit>, trace: seq<Event>) {
    trace != [] && trace[|trace| - 1].Published? ==> Exact(seed, acked, trace[|trace| - 1])
  }

  predicate HeadOk(s: State) {
    && s.items == Replay(s.seed, Flatten(s.acked))
    && s.estimated == Tokens(s.items)
  }

  predicate UnitOk(unit: PendingAck) {
    NoRepoint(unit.entries) && unit.items == ItemsOf(unit.entries)
  }

  /** The head's epoch is the order its units end on, and they ended in order. */
  predicate EpochOk(s: State) {
    && s.epoch == EpochAt(s.acked, |s.acked|)
    && (forall i, j :: 0 <= i < j < |s.acked| ==> s.acked[i].at < s.acked[j].at)
  }

  predicate FifoOk(s: State) {
    && EpochOk(s)
    && s.epoch <= s.minted
    && Ascending(Tickets(s.fifo))
    && (forall i :: 0 <= i < |s.fifo| ==> s.epoch < s.fifo[i].at <= s.minted && UnitOk(s.fifo[i]))
    && (forall i, j :: 0 <= i < j < |s.fifo| && s.fifo[j].ack ==> s.fifo[i].ack)
    && (forall i :: 0 <= i < |s.fifo| && !s.fifo[i].ack ==> s.fate == 0)
  }

  /** The log without the entries whose acks nobody read. */
  function Kept(log: seq<Payload>, stranded: set<nat>): seq<Payload> {
    if log == [] then []
    else
      var front, i := Kept(log[..|log| - 1], stranded), |log| - 1;
      if i in stranded then front else front + [log[i]]
  }

  /** What is stranded is in the log, and re-points it. */
  predicate StrandedOk(log: seq<Payload>, stranded: set<nat>) {
    forall i :: i in stranded ==> i < |log| && Repoints(log[i])
  }

  /** But for stranded folds and clears, the log is what was acked and what is in flight. */
  predicate LogOk(s: State) {
    StrandedOk(s.log, s.stranded) && Kept(s.log, s.stranded) == Flatten(s.acked) + OkEntries(s.fifo)
  }

  /** Every ticket issued is resolved, queued, or among the `limbo` being settled. */
  predicate TicketsOk(s: State, limbo: multiset<nat>) {
    && Ascending(s.issued)
    && (forall i :: 0 <= i < |s.issued| ==> s.issued[i] <= s.minted)
    && multiset(ResolvedTickets(s.trace)) + multiset(Tickets(s.fifo)) + limbo == multiset(s.issued)
  }

  /** Tickets resolved, then tickets waiting. */
  function Line(s: State): seq<nat> {
    ResolvedTickets(s.trace) + Tickets(s.fifo)
  }

  /** Until an ack is overtaken, tickets resolve in the order they were issued. */
  predicate OrderOk(s: State, limbo: multiset<nat>) {
    limbo == multiset{} && !s.overtook ==> Line(s) == s.issued
  }

  /** What is visible is lawful, nothing visible is left lagging, and none of it runs ahead. */
  predicate SeenOk(s: State) {
    && TraceOk(s.seed, s.acked, s.trace)
    && Settled(s.seed, s.acked, s.trace)
    && LastEpoch(s.trace) <= s.epoch
  }

  predicate Core(s: State, limbo: multiset<nat>) {
    HeadOk(s) && FifoOk(s) && LogOk(s) && TicketsOk(s, limbo) && OrderOk(s, limbo) && SeenOk(s)
  }

  /** The newest published head is the current one. */
  predicate Current(s: State) {
    LastEpoch(s.trace) == s.epoch && LastUnits(s.trace) == |s.acked|
  }

  predicate Inv(s: State) {
    Core(s, multiset{}) && Current(s)
  }

  lemma CoreDef(s: State, limbo: multiset<nat>)
    ensures Core(s, limbo) <==>
              HeadOk(s) && FifoOk(s) && LogOk(s) && TicketsOk(s, limbo) && OrderOk(s, limbo) && SeenOk(s)
  {
    hide HeadOk, FifoOk, LogOk, TicketsOk, OrderOk, SeenOk;
  }

  // ---- Small facts ----------------------------------------------------------------------

  lemma FlattenSnoc(units: seq<Unit>, unit: Unit)
    ensures Flatten(units + [unit]) == Flatten(units) + unit.entries
  {
    assert (units + [unit])[..|units|] == units;
  }

  lemma TraceSnoc(trace: seq<Event>, e: Event)
    ensures (trace + [e])[..|trace|] == trace
    ensures LastEpoch(trace + [e]) == if e.Published? then e.epoch else LastEpoch(trace)
    ensures LastUnits(trace + [e]) == if e.Published? then e.units else LastUnits(trace)
    ensures ResolvedTickets(trace + [e])
         == if e.Resolved? then ResolvedTickets(trace) + [e.ticket] else ResolvedTickets(trace)
  {
    assert (trace + [e])[..|trace|] == trace;
  }

  lemma TraceOkSnoc(seed: seq<Item>, acked: seq<Unit>, trace: seq<Event>, e: Event)
    requires TraceOk(seed, acked, trace) && EventOk(seed, acked, trace, e)
    ensures TraceOk(seed, acked, trace + [e])
  {
    assert (trace + [e])[..|trace|] == trace;
  }

  lemma {:induction false} OkEntriesSnoc(fifo: seq<PendingAck>, unit: PendingAck)
    ensures OkEntries(fifo + [unit]) == OkEntries(fifo) + (if unit.ack then unit.entries else [])
    ensures OkItems(fifo + [unit]) == OkItems(fifo) + (if unit.ack then unit.items else [])
  {
    if fifo == [] {
      assert fifo + [unit] == [unit];
    } else {
      var first := fifo[0];
      OkEntriesSnoc(fifo[1..], unit);
      assert (fifo + [unit])[1..] == fifo[1..] + [unit];
      Assoc(if first.ack then first.entries else [], OkEntries(fifo[1..]), if unit.ack then unit.entries else []);
      Assoc(if first.ack then first.items else [], OkItems(fifo[1..]), if unit.ack then unit.items else []);
    }
  }

  lemma ExactGrows(seed: seq<Item>, acked: seq<Unit>, unit: Unit, e: Event)
    requires e.Published? && e.units <= |acked|
    ensures Exact(seed, acked + [unit], e) == Exact(seed, acked, e)
    ensures Lagging(seed, acked + [unit], e) == Lagging(seed, acked, e)
  {
    var more := acked + [unit];
    assert more[..e.units] == acked[..e.units];
    if e.units > 0 {
      assert more[..e.units - 1] == acked[..e.units - 1];
      assert more[e.units - 1] == acked[e.units - 1];
    }
  }

  lemma ContainedGrows(acked: seq<Unit>, unit: Unit, n: nat, ticket: nat)
    ensures Contained(acked, n, ticket) ==> Contained(acked + [unit], n, ticket)
    ensures unit.at != ticket && Contained(acked + [unit], |acked| + 1, ticket) ==> Contained(acked, |acked|, ticket)
  {
    var more := acked + [unit];
    if Contained(acked, n, ticket) {
      var k :| 0 <= k < n && k < |acked| && acked[k].at == ticket;
      assert more[k] == acked[k];
    }
    if unit.at != ticket && Contained(more, |acked| + 1, ticket) {
      var k :| 0 <= k < |acked| + 1 && k < |more| && more[k].at == ticket;
      assert acked[k] == more[k];
    }
  }

  /** Acking another unit, one no ticket was resolved for, leaves everything already visible
      lawful. */
  lemma {:induction false} TraceOkGrows(seed: seq<Item>, acked: seq<Unit>, unit: Unit, trace: seq<Event>)
    requires TraceOk(seed, acked, trace) && unit.at !in ResolvedTickets(trace)
    ensures TraceOk(seed, acked + [unit], trace)
    ensures Settled(seed, acked, trace) ==> Settled(seed, acked + [unit], trace)
  {
    if trace != [] {
      var front, last := trace[..|trace| - 1], trace[|trace| - 1];
      TraceOkGrows(seed, acked, unit, front);
      if last.Published? { ExactGrows(seed, acked, unit, last); }
      if last.Resolved? { ContainedGrows(acked, unit, LastUnits(front), last.ticket); }
      if front != [] && front[|front| - 1].Published? {
        TraceUnits(seed, acked, front);
        ExactGrows(seed, acked, unit, front[|front| - 1]);
      }
    }
  }

  lemma TraceUnits(seed: seq<Item>, acked: seq<Unit>, trace: seq<Event>)
    requires TraceOk(seed, acked, trace)
    requires trace != [] && trace[|trace| - 1].Published?
    ensures trace[|trace| - 1].units <= |acked|
  {
  }

  // ---- A unit lands ------------------------------------------------------------------------

  lemma LandedHead(s: State)
    requires HeadOk(s) && s.fifo != [] && UnitOk(s.fifo[0])
    ensures HeadOk(Landed(s))
  {
    var unit := s.fifo[0];
    hide Flatten, Tokens, Replay;
    if unit.ack {
      FlattenSnoc(s.acked, Unit(unit.at, unit.entries));
      ReplayConcat(s.seed, Flatten(s.acked), unit.entries);
      ReplayAppends(s.items, unit.entries);
      TokensConcat(s.items, unit.items);
    }
  }

  lemma AscendingTail(fifo: seq<PendingAck>)
    requires fifo != [] && Ascending(Tickets(fifo))
    ensures Ascending(Tickets(fifo[1..]))
    ensures forall i :: 1 <= i < |fifo| ==> fifo[0].at < fifo[i].at
  {
    var all, rest := Tickets(fifo), Tickets(fifo[1..]);
    assert forall i :: 0 <= i < |rest| ==> rest[i] == all[i + 1];
    assert forall i :: 0 <= i < |all| ==> all[i] == fifo[i].at;
  }

  lemma LandedFifo(s: State)
    requires FifoOk(s) && s.fifo != []
    ensures FifoOk(Landed(s))
  {
    hide NoRepoint, ItemsOf, Tokens, EpochOk;
    var t := Landed(s);
    LandedEpochOk(s);
    AscendingTail(s.fifo);
    assert forall i :: 0 <= i < |s.fifo| ==> Tickets(s.fifo)[i] == s.fifo[i].at;
    hide Ascending, UnitOk;
    assert forall i :: 0 <= i < |t.fifo| ==> t.fifo[i] == s.fifo[i + 1];
  }

  lemma LandedEpochOk(s: State)
    requires EpochOk(s) && s.fifo != [] && s.epoch < s.fifo[0].at
    ensures EpochOk(Landed(s))
  {
    hide Tokens;
    EpochSnoc(s.acked, Unit(s.fifo[0].at, s.fifo[0].entries));
  }

  lemma EpochSnoc(acked: seq<Unit>, unit: Unit)
    requires forall i, j :: 0 <= i < j < |acked| ==> acked[i].at < acked[j].at
    requires EpochAt(acked, |acked|) < unit.at
    ensures var more := acked + [unit];
            && EpochAt(more, |more|) == unit.at
            && (forall i, j :: 0 <= i < j < |more| ==> more[i].at < more[j].at)
  {
    var more := acked + [unit];
    assert forall i :: 0 <= i < |acked| ==> acked[i].at <= EpochAt(acked, |acked|);
    assert forall i :: 0 <= i < |acked| ==> more[i] == acked[i];
  }

  lemma LandedLog(s: State)
    requires LogOk(s) && s.fifo != []
    requires !s.fifo[0].ack ==> forall i :: 0 <= i < |s.fifo| ==> !s.fifo[i].ack
    ensures LogOk(Landed(s))
  {
    var unit, rest := s.fifo[0], s.fifo[1..];
    if unit.ack {
      FlattenSnoc(s.acked, Unit(unit.at, unit.entries));
      Assoc(Flatten(s.acked), unit.entries, OkEntries(rest));
    }
  }

  lemma TicketsTail(fifo: seq<PendingAck>)
    requires fifo != []
    ensures multiset(Tickets(fifo)) == multiset{fifo[0].at} + multiset(Tickets(fifo[1..]))
  {
    assert Tickets(fifo) == [fifo[0].at] + Tickets(fifo[1..]);
  }

  /** The oldest unit leaves the queue and its ticket is in limbo until it is resolved. */
  lemma LandedCore(s: State, limbo: multiset<nat>)
    requires Core(s, limbo) && s.fifo != []
    ensures Core(Landed(s), limbo + multiset{s.fifo[0].at})
  {
    hide *;
    CoreDef(s, limbo);
    FifoFront(s);
    LandedHead(s);
    LandedFifo(s);
    LandedLog(s);
    LandedTickets(s, limbo);
    QueuedUnresolved(s, limbo);
    LandedSeen(s);
    CoreDef(Landed(s), limbo + multiset{s.fifo[0].at});
  }

  lemma FifoFront(s: State)
    requires FifoOk(s) && s.fifo != []
    ensures UnitOk(s.fifo[0])
    ensures !s.fifo[0].ack ==> forall i :: 0 <= i < |s.fifo| ==> !s.fifo[i].ack
  {
    hide UnitOk, Tickets, Ascending;
  }

  lemma {:induction false} AscendingOnce(ns: seq<nat>, n: nat)
    requires Ascending(ns)
    ensures multiset(ns)[n] <= 1
  {
    if ns != [] {
      var front, last := ns[..|ns| - 1], ns[|ns| - 1];
      AscendingOnce(front, n);
      assert ns == front + [last];
      if n == last { assert n !in front; }
    }
  }

  /** A ticket still queued has not been resolved, nor has one not yet issued. */
  lemma QueuedUnresolved(s: State, limbo: multiset<nat>)
    requires TicketsOk(s, limbo)
    ensures s.fifo != [] ==> s.fifo[0].at !in ResolvedTickets(s.trace)
    ensures forall n :: n > s.minted ==> n !in ResolvedTickets(s.trace)
  {
    hide Ascending, ResolvedTickets;
    var resolved, queued, all := ResolvedTickets(s.trace), Tickets(s.fifo), multiset(s.issued);
    assert forall n :: multiset(resolved)[n] + multiset(queued)[n] <= all[n];
    forall n | n in resolved
      ensures n <= s.minted
    {
      assert n in all;
      assert n in s.issued;
    }
    if s.fifo != [] {
      var at := s.fifo[0].at;
      AscendingOnce(s.issued, at);
      assert queued[0] == at;
    }
  }

  lemma LandedTickets(s: State, limbo: multiset<nat>)
    requires TicketsOk(s, limbo) && s.fifo != []
    ensures TicketsOk(Landed(s), limbo + multiset{s.fifo[0].at})
    ensures OrderOk(Landed(s), limbo + multiset{s.fifo[0].at})
  {
    hide Ascending, ResolvedTickets, Tickets, Line;
    TicketsTail(s.fifo);
    assert s.fifo[0].at in limbo + multiset{s.fifo[0].at};
  }

  lemma LandedSeen(s: State)
    requires SeenOk(s) && FifoOk(s) && s.fifo != [] && s.fifo[0].at !in ResolvedTickets(s.trace)
    ensures SeenOk(Landed(s))
  {
    hide TraceOk, Settled, LastEpoch, FifoOk, ResolvedTickets;
    TraceOkGrows(s.seed, s.acked, Unit(s.fifo[0].at, s.fifo[0].entries), s.trace);
    LandedEpoch(s);
  }

  lemma LandedEpoch(s: State)
    requires FifoOk(s) && s.fifo != []
    ensures s.epoch <= Landed(s).epoch && s.acked <= Landed(s).acked
    ensures s.fifo[0].ack ==> Contained(Landed(s).acked, |Landed(s).acked|, s.fifo[0].at)
  {
    hide UnitOk, Tickets, Ascending, EpochOk;
    var l := Landed(s);
    if s.fifo[0].ack { assert l.acked[|s.acked|].at == s.fifo[0].at; }
  }

  // ---- Publishing and resolving ---------------------------------------------------------

  lemma PublishCore(s: State, limbo: multiset<nat>)
    requires Core(s, limbo)
    ensures Core(Publish(s), limbo) && Current(Publish(s))
  {
    hide *;
    CoreDef(s, limbo);
    EpochIs(s);
    PublishSeen(s);
    PublishFrame(s, limbo);
    CoreDef(Publish(s), limbo);
  }

  lemma EpochIs(s: State)
    requires FifoOk(s)
    ensures s.epoch == EpochAt(s.acked, |s.acked|)
  {
    hide UnitOk, Tickets, Ascending;
  }

  lemma PublishSeen(s: State)
    requires HeadOk(s) && SeenOk(s) && s.epoch == EpochAt(s.acked, |s.acked|)
    ensures SeenOk(Publish(s)) && Current(Publish(s))
  {
    hide TraceOk, LastEpoch, LastUnits, ResolvedTickets, Flatten, Replay;
    var e := Published(s.items, s.epoch, |s.acked|);
    assert s.acked[..|s.acked|] == s.acked;
    assert Exact(s.seed, s.acked, e);
    TraceSnoc(s.trace, e);
    assert EventOk(s.seed, s.acked, s.trace, e);
    TraceOkSnoc(s.seed, s.acked, s.trace, e);
  }

  lemma PublishFrame(s: State, limbo: multiset<nat>)
    requires HeadOk(s) && FifoOk(s) && LogOk(s) && TicketsOk(s, limbo) && OrderOk(s, limbo)
    ensures var t := Publish(s); HeadOk(t) && FifoOk(t) && LogOk(t) && TicketsOk(t, limbo) && OrderOk(t, limbo)
  {
    hide Flatten, Replay, ResolvedTickets, Tickets, Ascending, OkEntries, UnitOk, Tokens, Kept, StrandedOk;
    TraceSnoc(s.trace, Published(s.items, s.epoch, |s.acked|));
  }

  /** What a ticket may be told: landed where the newest head shows it, sealed where nothing
      acked is its own. */
  predicate TellsTruth(s: State, ticket: nat, verdict: Verdict) {
    if verdict == LogSealed then !Contained(s.acked, |s.acked|, ticket)
    else Contained(s.acked, LastUnits(s.trace), ticket)
  }

  lemma ResolveCore(s: State, limbo: multiset<nat>, ticket: nat, verdict: Verdict)
    requires Core(s, limbo) && ticket in limbo
    requires TellsTruth(s, ticket, verdict)
    requires limbo == multiset{ticket} && !s.overtook ==>
               ResolvedTickets(s.trace) + [ticket] + Tickets(s.fifo) == s.issued
    ensures Core(Resolve(s, ticket, verdict), limbo - multiset{ticket})
    ensures Current(s) ==> Current(Resolve(s, ticket, verdict))
  {
    hide *;
    CoreDef(s, limbo);
    ResolveSeen(s, ticket, verdict);
    ResolveFrame(s, ticket, verdict);
    ResolveTickets(s, limbo, ticket, verdict);
    CoreDef(Resolve(s, ticket, verdict), limbo - multiset{ticket});
  }

  lemma ResolveSeen(s: State, ticket: nat, verdict: Verdict)
    requires SeenOk(s) && TellsTruth(s, ticket, verdict)
    ensures SeenOk(Resolve(s, ticket, verdict))
    ensures Current(s) ==> Current(Resolve(s, ticket, verdict))
  {
    hide TraceOk, LastEpoch, LastUnits, ResolvedTickets, Exact, Lagging, Contained;
    var e := Resolved(ticket, verdict);
    TraceSnoc(s.trace, e);
    assert EventOk(s.seed, s.acked, s.trace, e);
    TraceOkSnoc(s.seed, s.acked, s.trace, e);
  }

  lemma ResolveFrame(s: State, ticket: nat, verdict: Verdict)
    requires HeadOk(s) && FifoOk(s) && LogOk(s)
    ensures var t := Resolve(s, ticket, verdict); HeadOk(t) && FifoOk(t) && LogOk(t)
  {
    hide Flatten, Replay, Tickets, Ascending, OkEntries, UnitOk, Tokens, Kept, StrandedOk;
  }

  lemma ResolveTickets(s: State, limbo: multiset<nat>, ticket: nat, verdict: Verdict)
    requires TicketsOk(s, limbo) && ticket in limbo
    requires limbo == multiset{ticket} && !s.overtook ==>
               ResolvedTickets(s.trace) + [ticket] + Tickets(s.fifo) == s.issued
    ensures TicketsOk(Resolve(s, ticket, verdict), limbo - multiset{ticket})
    ensures OrderOk(Resolve(s, ticket, verdict), limbo - multiset{ticket})
  {
    hide ResolvedTickets, Tickets, Ascending;
    TraceSnoc(s.trace, Resolved(ticket, verdict));
    MoveTicket(multiset(ResolvedTickets(s.trace)), multiset(Tickets(s.fifo)), limbo, ticket);
    MultisetSnoc(ResolvedTickets(s.trace), ticket);
  }

  lemma MultisetSnoc(ns: seq<nat>, n: nat)
    ensures multiset(ns + [n]) == multiset(ns) + multiset{n}
  {
  }

  lemma MoveTicket(resolved: multiset<nat>, queued: multiset<nat>, limbo: multiset<nat>, ticket: nat)
    requires ticket in limbo
    ensures resolved + multiset{ticket} + queued + (limbo - multiset{ticket}) == resolved + queued + limbo
    ensures limbo - multiset{ticket} == multiset{} ==> limbo == multiset{ticket}
  {
    if limbo - multiset{ticket} == multiset{} {
      assert forall n :: limbo[n] == (limbo - multiset{ticket})[n] + multiset{ticket}[n];
    }
  }

  // ---- Committing inline ------------------------------------------------------------------

  lemma ReplaySnoc(seed: seq<Item>, log: seq<Payload>, payload: Payload)
    ensures Replay(seed, log + [payload]) == ReplayOne(Replay(seed, log), payload)
  {
    assert (log + [payload])[..|log|] == log;
  }

  lemma LoggedReplay(s: State, payload: Payload)
    requires s.fate > 0 && HeadOk(s)
    ensures Replay(Logged(s, payload).seed, Flatten(Logged(s, payload).acked)) == ReplayOne(s.items, payload)
    ensures !Repoints(payload) ==> HeadOk(Logged(s, payload))
  {
    hide Flatten, Replay, Tokens, ReplayFold, ClearResults;
    assert s.items + [] == s.items;
    FlattenSnoc(s.acked, Unit(s.minted + 1, [payload]));
    ReplaySnoc(s.seed, Flatten(s.acked), payload);
    TokensConcat(s.items, if payload.ItemEntry? then [payload.item] else []);
  }

  /** Entries committed later are kept. */
  lemma {:induction false} KeptAppend(log: seq<Payload>, more: seq<Payload>, stranded: set<nat>)
    requires forall i :: i in stranded ==> i < |log|
    ensures Kept(log + more, stranded) == Kept(log, stranded) + more
    decreases |more|
  {
    if more == [] {
      assert log + more == log;
      assert Kept(log, stranded) + [] == Kept(log, stranded);
    } else {
      var front, last := more[..|more| - 1], more[|more| - 1];
      KeptAppend(log, front, stranded);
      assert (log + more)[..|log + more| - 1] == log + front;
      assert more == front + [last];
      Assoc(Kept(log, stranded), front, [last]);
    }
  }

  /** Only the indices of the log matter. */
  lemma {:induction false} KeptFrame(log: seq<Payload>, stranded: set<nat>, i: nat)
    requires i >= |log|
    ensures Kept(log, stranded + {i}) == Kept(log, stranded)
  {
    if log != [] { KeptFrame(log[..|log| - 1], stranded, i); }
  }

  lemma {:induction false} KeptAll(log: seq<Payload>)
    ensures Kept(log, {}) == log
  {
    if log != [] { KeptAll(log[..|log| - 1]); }
  }

  lemma LogGrows(s: State, t: State, more: seq<Payload>)
    requires StrandedOk(s.log, s.stranded) && t.log == s.log + more && t.stranded == s.stranded
    ensures StrandedOk(t.log, t.stranded) && Kept(t.log, t.stranded) == Kept(s.log, s.stranded) + more
  {
    hide Kept;
    KeptAppend(s.log, more, s.stranded);
  }

  lemma LoggedLog(s: State, payload: Payload)
    requires s.fate > 0 && LogOk(s) && s.fifo == []
    ensures LogOk(Logged(s, payload))
  {
    hide Kept, StrandedOk;
    FlattenSnoc(s.acked, Unit(s.minted + 1, [payload]));
    assert Flatten(s.acked) + [] == Flatten(s.acked);
    LogGrows(s, Logged(s, payload), [payload]);
  }

  lemma LoggedFifo(s: State, limbo: multiset<nat>, payload: Payload)
    requires s.fate > 0 && FifoOk(s) && TicketsOk(s, limbo) && OrderOk(s, limbo) && s.fifo == []
    ensures FifoOk(Logged(s, payload)) && TicketsOk(Logged(s, payload), limbo) && OrderOk(Logged(s, payload), limbo)
  {
    hide UnitOk, ResolvedTickets, Tickets, Ascending;
    EpochSnoc(s.acked, Unit(s.minted + 1, [payload]));
  }

  lemma LoggedSeen(s: State, limbo: multiset<nat>, payload: Payload)
    requires s.fate > 0 && FifoOk(s) && SeenOk(s) && TicketsOk(s, limbo)
    ensures SeenOk(Logged(s, payload))
  {
    hide *;
    QueuedUnresolved(s, limbo);
    LoggedVisible(s, payload);
    EpochMinted(s);
    SeenDef(s);
    SeenDef(Logged(s, payload));
    TraceOkGrows(s.seed, s.acked, Unit(s.minted + 1, [payload]), s.trace);
  }

  lemma EpochMinted(s: State)
    requires FifoOk(s)
    ensures s.epoch <= s.minted
  {
    hide UnitOk, Tickets, Ascending, EpochOk;
  }

  lemma LoggedVisible(s: State, payload: Payload)
    requires s.fate > 0
    ensures var l := Logged(s, payload);
            && l.seed == s.seed && l.trace == s.trace && l.epoch == s.minted + 1
            && l.acked == s.acked + [Unit(s.minted + 1, [payload])]
  {
    hide Tokens;
  }

  /** A commit with nothing in flight keeps everything and leaves its own head published. */
  lemma CommitCore(s: State, limbo: multiset<nat>, payload: Payload)
    requires Core(s, limbo) && s.fifo == [] && !Repoints(payload)
    ensures Core(Commit(s, payload), limbo)
    ensures Current(s) || s.fate > 0 ==> Current(Commit(s, payload))
    ensures s.acked <= Commit(s, payload).acked
  {
    hide *;
    CommitUnfolds(s, payload);
    if s.fate == 0 {
      MintedCore(s, limbo);
    } else {
      CoreDef(s, limbo);
      LoggedReplay(s, payload);
      LoggedLog(s, payload);
      LoggedFifo(s, limbo, payload);
      LoggedSeen(s, limbo, payload);
      LoggedAcked(s, payload);
      CoreDef(Logged(s, payload), limbo);
      PublishCore(Logged(s, payload), limbo);
    }
  }

  lemma CommitUnfolds(s: State, payload: Payload)
    ensures Commit(s, payload) == if s.fate == 0 then s.(minted := s.minted + 1) else Publish(Logged(s, payload))
    ensures s.fate > 0 ==> Publish(Logged(s, payload)).acked == Logged(s, payload).acked
  {
    hide Logged;
  }

  lemma LoggedAcked(s: State, payload: Payload)
    requires s.fate > 0
    ensures s.acked <= Logged(s, payload).acked
  {
  }

  lemma MintedCore(s: State, limbo: multiset<nat>)
    requires Core(s, limbo)
    ensures Core(s.(minted := s.minted + 1), limbo)
    ensures Current(s) ==> Current(s.(minted := s.minted + 1))
  {
    MintsCore(s, limbo, 1);
  }

  /** Commit orders may be skipped: a refused entry's is never used again. */
  lemma MintsCore(s: State, limbo: multiset<nat>, n: nat)
    requires Core(s, limbo)
    ensures Core(s.(minted := s.minted + n), limbo)
    ensures Current(s) ==> Current(s.(minted := s.minted + n))
  {
    hide Flatten, Replay, ResolvedTickets, Tickets, LastEpoch, LastUnits, TraceOk, OkEntries, UnitOk, Ascending,
         Settled,
         Tokens, EpochOk, Kept, StrandedOk;
    EpochFrame(s, s.(minted := s.minted + n));
  }

  /** A fold or a clear: log the entry, publish, re-point, publish again. The head in between
      lags, and the very next event corrects it. */
  lemma RepointCore(s: State, limbo: multiset<nat>, payload: Payload, items: seq<Item>)
    requires Core(s, limbo) && s.fifo == [] && s.fate > 0
    requires Repoints(payload) && items == ReplayOne(s.items, payload)
    ensures Core(Repoint(Commit(s, payload), items), limbo)
    ensures Current(Repoint(Commit(s, payload), items))
  {
    hide *;
    var l := Logged(s, payload);
    CoreDef(s, limbo);
    CommitUnfolds(s, payload);
    LoggedReplay(s, payload);
    LoggedLog(s, payload);
    LoggedFifo(s, limbo, payload);
    LoggedSeen(s, limbo, payload);
    EpochIs(l);
    RepointEvents(s, payload, items);
    RepointAssembles(l, limbo, items);
  }

  lemma RepointEvents(s: State, payload: Payload, items: seq<Item>)
    requires HeadOk(s) && s.fate > 0 && Repoints(payload)
    requires items == Replay(Logged(s, payload).seed, Flatten(Logged(s, payload).acked))
    requires var l := Logged(s, payload); SeenOk(l) && l.epoch == EpochAt(l.acked, |l.acked|)
    ensures var l := Logged(s, payload);
            && Lagging(l.seed, l.acked, Published(l.items, l.epoch, |l.acked|))
            && Exact(l.seed, l.acked, Published(items, l.epoch, |l.acked|))
  {
    hide Flatten, Replay, TraceOk, Settled, LastEpoch, Tokens;
    var l := Logged(s, payload);
    assert s.items + [] == s.items;
    assert l.acked[..|l.acked|] == l.acked && l.acked[..|l.acked| - 1] == s.acked;
  }

  lemma RepointAssembles(l: State, limbo: multiset<nat>, items: seq<Item>)
    requires items == Replay(l.seed, Flatten(l.acked))
    requires LogOk(l) && FifoOk(l) && TicketsOk(l, limbo) && OrderOk(l, limbo) && SeenOk(l)
    requires Lagging(l.seed, l.acked, Published(l.items, l.epoch, |l.acked|))
    requires Exact(l.seed, l.acked, Published(items, l.epoch, |l.acked|))
    ensures Core(Repoint(Publish(l), items), limbo)
    ensures Current(Repoint(Publish(l), items))
  {
    hide *;
    var r := Repoint(Publish(l), items);
    RepointFields(l, items);
    RepointSeen(l, items);
    RepointFrame(l, r, limbo);
    CoreDef(r, limbo);
  }

  lemma RepointFields(l: State, items: seq<Item>)
    ensures Repoint(Publish(l), items)
         == l.(items := items, estimated := Tokens(items),
               trace := l.trace + [Published(l.items, l.epoch, |l.acked|)] + [Published(items, l.epoch, |l.acked|)])
  {
    hide Tokens;
  }

  lemma RepointSeen(l: State, items: seq<Item>)
    requires SeenOk(l)
    requires Lagging(l.seed, l.acked, Published(l.items, l.epoch, |l.acked|))
    requires Exact(l.seed, l.acked, Published(items, l.epoch, |l.acked|))
    ensures SeenOk(Repoint(Publish(l), items)) && Current(Repoint(Publish(l), items))
    ensures ResolvedTickets(Repoint(Publish(l), items).trace) == ResolvedTickets(l.trace)
  {
    hide *;
    var first, second := Published(l.items, l.epoch, |l.acked|), Published(items, l.epoch, |l.acked|);
    RepointFields(l, items);
    SeenDef(l);
    TraceSnoc(l.trace, first);
    TraceSnoc(l.trace + [first], second);
    LaggingEventOk(l.seed, l.acked, l.trace, first);
    TraceOkSnoc(l.seed, l.acked, l.trace, first);
    ExactEventOk(l.seed, l.acked, l.trace, first, second);
    TraceOkSnoc(l.seed, l.acked, l.trace + [first], second);
    SeenDef(Repoint(Publish(l), items));
    ExactSettles(l.seed, l.acked, l.trace + [first], second);
    CurrentDef(Repoint(Publish(l), items));
  }

  lemma SeenDef(s: State)
    ensures SeenOk(s) <==>
              TraceOk(s.seed, s.acked, s.trace) && Settled(s.seed, s.acked, s.trace) && LastEpoch(s.trace) <= s.epoch
  {
    hide TraceOk, Settled, LastEpoch;
  }

  lemma CurrentDef(s: State)
    ensures Current(s) <==> LastEpoch(s.trace) == s.epoch && LastUnits(s.trace) == |s.acked|
  {
    hide LastEpoch, LastUnits;
  }

  lemma LaggingEventOk(seed: seq<Item>, acked: seq<Unit>, before: seq<Event>, e: Event)
    requires Settled(seed, acked, before) && e.Published? && LastEpoch(before) <= e.epoch
    requires Lagging(seed, acked, e)
    ensures EventOk(seed, acked, before, e)
  {
    hide LastEpoch, Exact, Lagging;
  }

  lemma ExactEventOk(seed: seq<Item>, acked: seq<Unit>, before: seq<Event>, first: Event, second: Event)
    requires first.Published? && second.Published?
    requires first.epoch == second.epoch && first.units == second.units
    requires LastEpoch(before + [first]) == first.epoch
    requires Exact(seed, acked, second)
    ensures EventOk(seed, acked, before + [first], second)
  {
    hide LastEpoch, Exact, Lagging;
  }

  lemma ExactSettles(seed: seq<Item>, acked: seq<Unit>, before: seq<Event>, e: Event)
    requires Exact(seed, acked, e)
    ensures Settled(seed, acked, before + [e])
  {
    hide Exact;
  }

  lemma RepointFrame(l: State, r: State, limbo: multiset<nat>)
    requires r == l.(items := r.items, estimated := r.estimated, trace := r.trace)
    requires ResolvedTickets(r.trace) == ResolvedTickets(l.trace)
    requires r.items == Replay(l.seed, Flatten(l.acked)) && r.estimated == Tokens(r.items)
    requires LogOk(l) && FifoOk(l) && TicketsOk(l, limbo) && OrderOk(l, limbo)
    ensures HeadOk(r) && LogOk(r) && FifoOk(r) && TicketsOk(r, limbo) && OrderOk(r, limbo)
  {
    hide Flatten, Replay, ResolvedTickets, Tickets, OkEntries, UnitOk, Ascending, Tokens, EpochOk, Kept, StrandedOk;
    EpochFrame(l, r);
  }

  lemma EpochFrame(s: State, t: State)
    requires t.epoch == s.epoch && t.acked == s.acked
    ensures EpochOk(t) == EpochOk(s)
  {
  }

  // ---- Forwarding -----------------------------------------------------------------------

  lemma ForwardFifo(s: State, unit: PendingAck)
    requires FifoOk(s) && UnitOk(unit) && s.minted < unit.at && unit.ack == (s.fate > 0)
    ensures FifoOk(Enqueued(s, unit))
  {
    hide NoRepoint, ItemsOf, EpochOk;
    var t := Enqueued(s, unit);
    EpochFrame(s, t);
    assert forall i :: 0 <= i < |s.fifo| ==> t.fifo[i] == s.fifo[i];
    assert forall i :: 0 <= i < |s.fifo| ==> Tickets(t.fifo)[i] == Tickets(s.fifo)[i];
    assert forall i :: 0 <= i < |t.fifo| ==> Tickets(t.fifo)[i] == t.fifo[i].at;
  }

  lemma ForwardLog(s: State, unit: PendingAck)
    requires LogOk(s)
    ensures LogOk(Enqueued(s, unit))
  {
    OkEntriesSnoc(s.fifo, unit);
    hide OkEntries, Flatten, Kept, StrandedOk;
    LogGrows(s, Enqueued(s, unit), if unit.ack then unit.entries else []);
    Assoc(Flatten(s.acked), OkEntries(s.fifo), if unit.ack then unit.entries else []);
  }

  lemma ForwardTickets(s: State, limbo: multiset<nat>, unit: PendingAck)
    requires TicketsOk(s, limbo) && OrderOk(s, limbo) && s.minted < unit.at
    ensures TicketsOk(Enqueued(s, unit), limbo) && OrderOk(Enqueued(s, unit), limbo)
  {
    hide Tickets, ResolvedTickets;
    TicketsSnoc(s.fifo, unit);
    Assoc(ResolvedTickets(s.trace), Tickets(s.fifo), [unit.at]);
  }

  lemma TicketsSnoc(fifo: seq<PendingAck>, unit: PendingAck)
    ensures Tickets(fifo + [unit]) == Tickets(fifo) + [unit.at]
    ensures multiset(Tickets(fifo + [unit])) == multiset(Tickets(fifo)) + multiset{unit.at}
  {
    assert Tickets(fifo + [unit]) == Tickets(fifo) + [unit.at];
  }

  /** Forwarding moves no head and resolves nothing; it issues one new ticket. */
  lemma ForwardCore(s: State, limbo: multiset<nat>, entries: seq<Payload>, refused: bool)
    requires Core(s, limbo) && NoRepoint(entries) && entries != []
    ensures Core(Forward(s, entries, refused), limbo)
    ensures Current(s) ==> Current(Forward(s, entries, refused))
  {
    hide *;
    var unit := PendingAck(s.fate > 0, ItemsOf(entries), entries, s.minted + |entries|);
    ForwardUnfolds(s, entries, refused);
    if s.fate == 0 && refused {
      MintsCore(s, limbo, |entries|);
    } else {
      CoreDef(s, limbo);
      ForwardUnit(unit);
      ForwardFifo(s, unit);
      ForwardLog(s, unit);
      ForwardTickets(s, limbo, unit);
      ForwardHead(s, unit);
      CoreDef(Enqueued(s, unit), limbo);
    }
  }

  lemma ForwardUnfolds(s: State, entries: seq<Payload>, refused: bool)
    ensures Forward(s, entries, refused)
         == if s.fate == 0 && refused then s.(minted := s.minted + |entries|)
            else Enqueued(s, PendingAck(s.fate > 0, ItemsOf(entries), entries, s.minted + |entries|))
  {
    hide Enqueued, ItemsOf;
  }

  lemma ForwardUnit(unit: PendingAck)
    requires NoRepoint(unit.entries) && unit.items == ItemsOf(unit.entries)
    ensures UnitOk(unit)
  {
  }

  lemma ForwardHead(s: State, unit: PendingAck)
    requires HeadOk(s) && SeenOk(s)
    ensures HeadOk(Enqueued(s, unit)) && SeenOk(Enqueued(s, unit))
    ensures Current(s) ==> Current(Enqueued(s, unit))
  {
    hide Flatten, Replay, TraceOk, Settled, LastEpoch, LastUnits, Tokens;
  }

  // ---- Draining ---------------------------------------------------------------------------

  /** With nothing else in limbo, the unit that landed is next in line. */
  lemma LandedLine(s: State, limbo: multiset<nat>)
    requires OrderOk(s, limbo) && s.fifo != []
    ensures limbo + multiset{s.fifo[0].at} == multiset{s.fifo[0].at} && !s.overtook ==>
              ResolvedTickets(Publish(Landed(s)).trace) + [s.fifo[0].at] + Tickets(s.fifo[1..]) == s.issued
  {
    hide Tickets, ResolvedTickets;
    var at := s.fifo[0].at;
    TraceSnoc(s.trace, Published(Landed(s).items, Landed(s).epoch, |Landed(s).acked|));
    if limbo + multiset{at} == multiset{at} && !s.overtook {
      assert limbo == limbo + multiset{at} - multiset{at} == multiset{};
      TicketsCons(s.fifo);
      Assoc(ResolvedTickets(s.trace), [at], Tickets(s.fifo[1..]));
    }
  }

  lemma TicketsCons(fifo: seq<PendingAck>)
    requires fifo != []
    ensures Tickets(fifo) == [fifo[0].at] + Tickets(fifo[1..])
  {
  }

  /** One turn of the drain loop: apply, publish, resolve. */
  lemma DrainOneCore(s: State, limbo: multiset<nat>, abort: bool)
    requires Core(s, limbo) && s.fifo != []
    ensures Core(DrainOne(s, abort), limbo) && Current(DrainOne(s, abort))
    ensures s.acked <= DrainOne(s, abort).acked
    ensures DrainOne(s, abort).fifo == s.fifo[1..]
  {
    hide *;
    var at, p := s.fifo[0].at, Publish(Landed(s));
    CoreDef(s, limbo);
    LandedCore(s, limbo);
    LandedEpoch(s);
    LandedLine(s, limbo);
    LandedFields(s);
    PublishCore(Landed(s), limbo + multiset{at});
    DrainOneFields(s, abort);
    LandedTells(s, p, Settle(s.fifo[0], abort));
    ResolveCore(p, limbo + multiset{at}, at, Settle(s.fifo[0], abort));
    assert limbo + multiset{at} - multiset{at} == limbo;
  }

  /** A unit the writer refused is behind everything acked. */
  lemma RefusedIsNew(s: State)
    requires FifoOk(s) && s.fifo != []
    ensures !Contained(s.acked, |s.acked|, s.fifo[0].at)
  {
    hide UnitOk, Tickets, Ascending;
    assert forall i :: 0 <= i < |s.acked| ==> s.acked[i].at <= s.epoch;
  }

  lemma LandedTells(s: State, p: State, verdict: Verdict)
    requires FifoOk(s) && s.fifo != [] && p.acked == Landed(s).acked && LastUnits(p.trace) == |p.acked|
    requires verdict != LogSealed <==> s.fifo[0].ack
    ensures TellsTruth(p, s.fifo[0].at, verdict)
  {
    LandedEpoch(s);
    RefusedIsNew(s);
    hide FifoOk, LastUnits, Contained;
  }

  lemma LandedFields(s: State)
    requires s.fifo != []
    ensures var p := Publish(Landed(s));
            && p.fifo == s.fifo[1..] && p.overtook == s.overtook && p.issued == s.issued
            && p.acked == Landed(s).acked
            && LastUnits(p.trace) == |p.acked|
  {
    hide LastUnits, ResolvedTickets, Tokens;
    TraceSnoc(s.trace, Published(Landed(s).items, Landed(s).epoch, |Landed(s).acked|));
  }

  lemma DrainOneFields(s: State, abort: bool)
    requires s.fifo != []
    ensures DrainOne(s, abort) == Resolve(Publish(Landed(s)), s.fifo[0].at, Settle(s.fifo[0], abort))
    ensures DrainOne(s, abort).acked == Landed(s).acked && DrainOne(s, abort).fifo == s.fifo[1..]
    ensures Settle(s.fifo[0], abort) != LogSealed <==> s.fifo[0].ack
  {
    hide Tokens;
  }

  lemma DrainUnfolds(s: State, abort: bool)
    requires s.fifo != []
    ensures Drain(s, abort) == Drain(DrainOne(s, abort), abort)
  {
  }

  /** Draining empties the queue, lands every committed unit in order, and leaves the same
      head whichever way the tickets are resolved. */
  lemma {:induction false} DrainCore(s: State, limbo: multiset<nat>, abort: bool)
    requires Core(s, limbo)
    ensures var d := Drain(s, abort);
            && Core(d, limbo) && (Current(s) || s.fifo != [] ==> Current(d))
            && d.fifo == [] && s.acked <= d.acked
    decreases |s.fifo|
  {
    assert s.fifo == [] ==> Drain(s, abort) == s;
    if s.fifo != [] {
      DrainOneCore(s, limbo, abort);
      hide *;
      DrainUnfolds(s, abort);
      DrainCore(DrainOne(s, abort), limbo, abort);
    }
  }

  /** The writer has failed, and nothing in flight was committed. */
  predicate Sealed(s: State) {
    s.fate == 0 && forall i :: 0 <= i < |s.fifo| ==> !s.fifo[i].ack
  }

  lemma {:induction false} DrainSealed(s: State, abort: bool)
    requires Sealed(s)
    ensures Drain(s, abort).acked == s.acked
    decreases |s.fifo|
  {
    hide Tokens;
    if s.fifo != [] { DrainSealed(DrainOne(s, abort), abort); }
  }

  lemma AppendSealed(s: State, payload: Payload)
    requires Sealed(s)
    ensures Append(s, payload).acked == s.acked && Sealed(Append(s, payload))
  {
    DrainSealed(s, false);
    DrainEffect(s, false);
    hide Drain, Logged;
  }

  lemma {:induction false} SteersSealed(s: State, steers: seq<HeldSteer>)
    requires Sealed(s)
    ensures AppendSteers(s, steers).acked == s.acked
    decreases |steers|
  {
    hide Append, Sealed;
    if steers != [] {
      AppendSealed(s, SteerEntry(steers[0]));
      SteersSealed(Append(s, SteerEntry(steers[0])), steers[1..]);
    }
  }

  /** On a sealed log releasing steers lands nothing. */
  lemma ReleaseSealed(s: State)
    requires Sealed(s)
    ensures ReleaseSteers(s).acked == s.acked
  {
    hide AppendSteers, Awaiting;
    SteersSealed(s.(held := []), s.held);
  }

  /** What a drain computes, independently of how it gets there. */
  lemma {:induction false} DrainEffect(s: State, abort: bool)
    ensures var d := Drain(s, abort);
            && d.items == s.items + OkItems(s.fifo)
            && d.fifo == [] && d.log == s.log && d.fate == s.fate && d.minted == s.minted
            && d.seed == s.seed && d.issued == s.issued && d.held == s.held && d.queue == s.queue
            && d.running == s.running && d.foldPending == s.foldPending && d.turnOpen == s.turnOpen
    decreases |s.fifo|
  {
    if s.fifo == [] {
      assert s.items + [] == s.items;
    } else {
      DrainEffect(DrainOne(s, abort), abort);
      Assoc(s.items, if s.fifo[0].ack then s.fifo[0].items else [], OkItems(s.fifo[1..]));
      if !s.fifo[0].ack { assert s.items + [] == s.items; }
    }
  }

  lemma DrainOneResolves(s: State, abort: bool)
    requires s.fifo != []
    ensures ResolvedTickets(DrainOne(s, abort).trace) == ResolvedTickets(s.trace) + [s.fifo[0].at]
    ensures DrainOne(s, abort).fifo == s.fifo[1..]
    ensures Tickets(s.fifo) == [s.fifo[0].at] + Tickets(s.fifo[1..])
  {
    hide ResolvedTickets, LastEpoch, LastUnits, Tokens, Tickets;
    TicketsCons(s.fifo);
    var l := Landed(s);
    var e := Published(l.items, l.epoch, |l.acked|);
    TraceSnoc(s.trace, e);
    TraceSnoc(s.trace + [e], Resolved(s.fifo[0].at, Settle(s.fifo[0], abort)));
  }

  /** Every ticket outstanding is resolved by a drain, in commit order, behind what was
      resolved before. */
  lemma {:induction false} DrainResolvesInOrder(s: State, abort: bool)
    ensures ResolvedTickets(Drain(s, abort).trace) == ResolvedTickets(s.trace) + Tickets(s.fifo)
    decreases |s.fifo|
  {
    if s.fifo == [] {
      assert ResolvedTickets(s.trace) + Tickets(s.fifo) == ResolvedTickets(s.trace);
    } else {
      DrainOneResolves(s, abort);
      hide ResolvedTickets, Tickets, DrainOne;
      DrainResolvesInOrder(DrainOne(s, abort), abort);
      Assoc(ResolvedTickets(s.trace), [s.fifo[0].at], Tickets(s.fifo[1..]));
    }
  }

  /** Acknowledging and aborting differ only in what the tickets are told. */
  lemma {:induction false} DrainSameHead(s: State, t: State)
    requires s.(trace := []) == t.(trace := [])
    ensures Drain(s, true).(trace := []) == Drain(t, false).(trace := [])
    decreases |s.fifo|
  {
    if s.fifo != [] {
      assert s.fifo == s.(trace := []).fifo == t.fifo;
      DrainOneSameHead(s, t);
      DrainSameHead(DrainOne(s, true), DrainOne(t, false));
    }
  }

  lemma DrainOneSameHead(s: State, t: State)
    requires s.(trace := []) == t.(trace := []) && s.fifo != []
    ensures t.fifo == s.fifo
    ensures DrainOne(s, true).(trace := []) == DrainOne(t, false).(trace := [])
  {
    hide Tokens;
    assert s.(trace := []).fifo == t.(trace := []).fifo;
    TracelessLanded(s);
    TracelessLanded(t);
    TracelessDrained(s, true);
    TracelessDrained(t, false);
  }

  lemma TracelessLanded(s: State)
    requires s.fifo != []
    ensures Landed(s).(trace := []) == Landed(s.(trace := []))
  {
    hide Tokens;
  }

  lemma TracelessDrained(s: State, abort: bool)
    requires s.fifo != []
    ensures DrainOne(s, abort).(trace := []) == Landed(s).(trace := [])
  {
    hide Landed;
  }

  // ---- Commands --------------------------------------------------------------------------

  lemma AppendCore(s: State, limbo: multiset<nat>, payload: Payload)
    requires Core(s, limbo) && !Repoints(payload)
    ensures Core(Append(s, payload), limbo)
    ensures Current(s) || s.fate > 0 ==> Current(Append(s, payload))
    ensures Append(s, payload).fifo == [] && s.acked <= Append(s, payload).acked
  {
    hide *;
    AppendUnfolds(s, payload);
    DrainCore(s, limbo, false);
    DrainEffect(s, false);
    CommitCore(Drain(s, false), limbo, payload);
  }

  lemma AppendUnfolds(s: State, payload: Payload)
    ensures Append(s, payload) == Commit(Drain(s, false), payload)
    ensures Append(s, payload).fifo == Drain(s, false).fifo
    ensures s.fifo == [] ==> Drain(s, false) == s
  {
    hide Tokens;
  }

  lemma {:induction false} AppendAllCore(s: State, limbo: multiset<nat>, entries: seq<Payload>)
    requires Core(s, limbo) && Current(s) && NoRepoint(entries)
    ensures Core(AppendAll(s, entries), limbo) && Current(AppendAll(s, entries))
    decreases |entries|
  {
    hide *;
    AppendAllUnfolds(s, entries);
    if entries != [] {
      NoRepointCons(entries);
      AppendCore(s, limbo, entries[0]);
      if s.fate > 0 {
        AppendAllCore(Append(s, entries[0]), limbo, entries[1..]);
      }
    }
  }

  lemma AppendAllUnfolds(s: State, entries: seq<Payload>)
    ensures AppendAll(s, entries)
         == if entries == [] then s
            else if s.fate == 0 then Append(s, entries[0])
            else AppendAll(Append(s, entries[0]), entries[1..])
  {
    hide Append;
  }

  lemma NoRepointCons(entries: seq<Payload>)
    requires NoRepoint(entries) && entries != []
    ensures !Repoints(entries[0]) && NoRepoint(entries[1..])
  {
  }

  lemma {:induction false} AppendSteersCore(s: State, limbo: multiset<nat>, steers: seq<HeldSteer>)
    requires Core(s, limbo)
    ensures Core(AppendSteers(s, steers), limbo)
    ensures Current(s) ==> Current(AppendSteers(s, steers))
    ensures s.acked <= AppendSteers(s, steers).acked
    decreases |steers|
  {
    hide *;
    AppendSteersUnfolds(s, steers);
    if steers != [] {
      AppendCore(s, limbo, SteerEntry(steers[0]));
      AppendSteersCore(Append(s, SteerEntry(steers[0])), limbo, steers[1..]);
    }
  }

  lemma AppendSteersUnfolds(s: State, steers: seq<HeldSteer>)
    ensures AppendSteers(s, steers)
         == if steers == [] then s else AppendSteers(Append(s, SteerEntry(steers[0])), steers[1..])
    ensures steers != [] ==> !Repoints(SteerEntry(steers[0]))
  {
    hide Append;
  }

  /** Fields the commit laws do not read may change freely. */
  lemma CoreFrame(s: State, t: State, limbo: multiset<nat>)
    requires Core(s, limbo)
    requires t.seed == s.seed && t.items == s.items && t.estimated == s.estimated && t.epoch == s.epoch
    requires t.fifo == s.fifo && t.minted == s.minted && t.fate == s.fate && t.log == s.log
    requires t.acked == s.acked && t.issued == s.issued && t.trace == s.trace && t.overtook == s.overtook
    requires t.stranded == s.stranded
    ensures Core(t, limbo) && (Current(s) ==> Current(t))
  {
    EpochFrame(s, t);
    hide Flatten, Replay, ResolvedTickets, Tickets, LastEpoch, LastUnits, TraceOk, OkEntries, UnitOk, Settled, Tokens,
         Ascending, EpochOk, Kept, StrandedOk;
  }

  lemma ReleaseSteersCore(s: State, limbo: multiset<nat>)
    requires Core(s, limbo)
    ensures Core(ReleaseSteers(s), limbo)
    ensures Current(s) ==> Current(ReleaseSteers(s))
    ensures s.acked <= ReleaseSteers(s).acked
  {
    hide *;
    ReleaseUnfolds(s);
    if s.held != [] && !Awaiting(s.items) {
      CoreFrame(s, s.(held := []), limbo);
      AppendSteersCore(s.(held := []), limbo, s.held);
    }
  }

  lemma ReleaseUnfolds(s: State)
    ensures ReleaseSteers(s)
         == if s.held == [] || Awaiting(s.items) then s else AppendSteers(s.(held := []), s.held)
  {
    hide AppendSteers, Awaiting;
  }

  lemma {:induction false} AppendSteersLine(s: State, steers: seq<HeldSteer>)
    ensures Line(AppendSteers(s, steers)) == Line(s)
    ensures AppendSteers(s, steers).fifo == if steers == [] then s.fifo else []
    ensures AppendSteers(s, steers).issued == s.issued && AppendSteers(s, steers).overtook == s.overtook
    decreases |steers|
  {
    if steers != [] {
      AppendLine(s, SteerEntry(steers[0]));
      hide Line, Append;
      AppendSteersLine(Append(s, SteerEntry(steers[0])), steers[1..]);
    }
  }

  lemma AppendLine(s: State, payload: Payload)
    ensures Line(Append(s, payload)) == Line(s)
    ensures Append(s, payload).fifo == []
    ensures Append(s, payload).issued == s.issued && Append(s, payload).overtook == s.overtook
  {
    DrainResolvesInOrder(s, false);
    DrainEffect(s, false);
    DrainOvertook(s, false);
    var d := Drain(s, false);
    hide Drain, ResolvedTickets, Replay;
    if d.fate > 0 {
      var l := Logged(d, payload);
      TraceSnoc(d.trace, Published(l.items, l.epoch, |l.acked|));
    }
    assert Tickets([]) == [];
  }

  lemma {:induction false} DrainOvertook(s: State, abort: bool)
    ensures Drain(s, abort).overtook == s.overtook
    decreases |s.fifo|
  {
    if s.fifo != [] { DrainOvertook(DrainOne(s, abort), abort); }
  }

  /** The order in which an ack's tickets come out: its own first, unless releasing a held
      steer drains the rest of the queue ahead of it. */
  lemma AckLine(s: State)
    requires s.fifo != []
    ensures var at, rest := s.fifo[0].at, Tickets(s.fifo[1..]);
            Line(AckArrives(s)) == if Overtakes(s) then ResolvedTickets(s.trace) + rest + [at]
                                   else ResolvedTickets(s.trace) + [at] + rest
    ensures AckArrives(s).issued == s.issued
    ensures AckArrives(s).overtook == (s.overtook || Overtakes(s))
  {
    hide *;
    var marked := s.(overtook := s.overtook || Overtakes(s));
    var l := Landed(marked);
    LandedLineFields(s, marked, l);
    ReleaseLine(l);
    AckLineShape(s, ReleaseSteers(l), s.fifo[0].at);
    AckLineUnfolds(s, ReleaseSteers(l), s.fifo[0].at);
  }

  lemma LandedLineFields(s: State, marked: State, l: State)
    requires s.fifo != [] && marked == s.(overtook := s.overtook || Overtakes(s)) && l == Landed(marked)
    ensures l.items == Landed(s).items && l.held == s.held && l.fifo == s.fifo[1..]
    ensures l.overtook == marked.overtook && l.issued == s.issued
    ensures Line(l) == ResolvedTickets(s.trace) + Tickets(s.fifo[1..])
  {
    hide Tickets, ResolvedTickets, Overtakes, Tokens;
  }

  lemma AckLineUnfolds(s: State, r: State, at: nat)
    requires s.fifo != [] && at == s.fifo[0].at
    requires r == ReleaseSteers(Landed(s.(overtook := s.overtook || Overtakes(s))))
    ensures Line(AckArrives(s)) == ResolvedTickets(r.trace) + [at] + Tickets(r.fifo)
    ensures AckArrives(s).issued == r.issued && AckArrives(s).overtook == r.overtook
  {
    hide ReleaseSteers, Landed, Overtakes, Tickets;
    var e := Published(r.items, r.epoch, |r.acked|);
    TraceSnoc(r.trace, e);
    TraceSnoc(r.trace + [e], Resolved(at, Settle(s.fifo[0], false)));
  }

  lemma ReleaseLine(l: State)
    ensures Line(ReleaseSteers(l)) == Line(l)
    ensures ReleaseSteers(l).fifo == if l.held != [] && !Awaiting(l.items) then [] else l.fifo
    ensures ReleaseSteers(l).issued == l.issued && ReleaseSteers(l).overtook == l.overtook
  {
    if l.held != [] && !Awaiting(l.items) {
      AppendSteersLine(l.(held := []), l.held);
    }
  }

  lemma AckLineShape(s: State, r: State, at: nat)
    requires s.fifo != [] && at == s.fifo[0].at
    requires Line(r) == ResolvedTickets(s.trace) + Tickets(s.fifo[1..])
    requires r.fifo == if s.held != [] && !Awaiting(Landed(s).items) then [] else s.fifo[1..]
    ensures ResolvedTickets(r.trace) + [at] + Tickets(r.fifo)
         == if Overtakes(s) then ResolvedTickets(s.trace) + Tickets(s.fifo[1..]) + [at]
            else ResolvedTickets(s.trace) + [at] + Tickets(s.fifo[1..])
  {
    hide ResolvedTickets, Landed;
    if r.fifo == [] {
      assert Tickets(r.fifo) == [];
      assert ResolvedTickets(r.trace) == ResolvedTickets(s.trace) + Tickets(s.fifo[1..]);
      if !Overtakes(s) { assert Tickets(s.fifo[1..]) == []; }
    } else {
      var a, b, c := ResolvedTickets(r.trace), ResolvedTickets(s.trace), Tickets(s.fifo[1..]);
      assert a + c == b + c;
      assert a == (a + c)[..|a|] && b == (b + c)[..|b|] && |a| == |b|;
    }
  }

  lemma AckArrivesInv(s: State)
    requires Inv(s) && s.fifo != []
    ensures Inv(AckArrives(s))
  {
    hide *;
    var at, marked := s.fifo[0].at, s.(overtook := s.overtook || Overtakes(s));
    var l, limbo := Landed(marked), multiset{} + multiset{at};
    InvDef(s);
    CoreFrameOrder(s, marked);
    CoreDef(marked, multiset{});
    LandedCore(marked, multiset{});
    LandedEpoch(marked);
    ReleaseSteersCore(l, limbo);
    PublishCore(ReleaseSteers(l), limbo);
    AckOrder(s);
    AckUnfolds(s, ReleaseSteers(l));
    AckTells(s, l, ReleaseSteers(l));
    AckSettles(s, Publish(ReleaseSteers(l)), limbo, at);
    assert limbo - multiset{at} == multiset{};
    InvDef(AckArrives(s));
  }

  /** What a settled ticket is told stays true of what the release lands behind it. */
  lemma AckTells(s: State, l: State, r: State)
    requires Core(s, multiset{}) && s.fifo != [] && r == ReleaseSteers(l) && l.acked <= r.acked
    requires l == Landed(s.(overtook := s.overtook || Overtakes(s)))
    requires s.fifo[0].ack ==> Contained(l.acked, |l.acked|, s.fifo[0].at)
    ensures Contained(r.acked, |r.acked|, s.fifo[0].at) <==> s.fifo[0].ack
  {
    hide *;
    CoreDef(s, multiset{});
    if s.fifo[0].ack {
      ContainedPrefix(l.acked, r.acked, s.fifo[0].at);
    } else {
      RefusedIsNew(s);
      RefusedSeals(s, l);
      ReleaseSealed(l);
    }
  }

  lemma RefusedSeals(s: State, l: State)
    requires FifoOk(s) && s.fifo != [] && !s.fifo[0].ack
    requires l == Landed(s.(overtook := s.overtook || Overtakes(s)))
    ensures Sealed(l) && l.acked == s.acked
  {
    hide UnitOk, Tickets, Ascending, Overtakes, EpochOk, Tokens;
  }

  lemma ContainedPrefix(acked: seq<Unit>, more: seq<Unit>, ticket: nat)
    requires acked <= more && Contained(acked, |acked|, ticket)
    ensures Contained(more, |more|, ticket)
  {
    var k :| 0 <= k < |acked| && acked[k].at == ticket;
    assert more[k] == acked[k];
  }

  lemma AckUnfolds(s: State, r: State)
    requires s.fifo != [] && r == ReleaseSteers(Landed(s.(overtook := s.overtook || Overtakes(s))))
    ensures AckArrives(s) == Resolve(Publish(r), s.fifo[0].at, Settle(s.fifo[0], false))
    ensures Publish(r).acked == r.acked
  {
    hide ReleaseSteers, Landed, Overtakes, Settle;
  }

  lemma InvDef(s: State)
    ensures Inv(s) <==> Core(s, multiset{}) && Current(s)
  {
    hide Core, Current;
  }

  lemma CoreFrameOrder(s: State, t: State)
    requires Core(s, multiset{}) && t == s.(overtook := t.overtook) && (s.overtook ==> t.overtook)
    ensures Core(t, multiset{}) && (Current(s) ==> Current(t))
  {
    EpochFrame(s, t);
    hide Flatten, Replay, ResolvedTickets, Tickets, LastEpoch, LastUnits, TraceOk, OkEntries, UnitOk, Settled, Tokens,
         Ascending, EpochOk, Kept, StrandedOk;
  }

  lemma AckSettles(s: State, p: State, limbo: multiset<nat>, at: nat)
    requires s.fifo != [] && at == s.fifo[0].at && limbo == multiset{at}
    requires Core(p, limbo) && Current(p)
    requires Contained(p.acked, |p.acked|, at) <==> s.fifo[0].ack
    requires AckArrives(s) == Resolve(p, at, Settle(s.fifo[0], false))
    requires !AckArrives(s).overtook ==> Line(AckArrives(s)) == AckArrives(s).issued
    ensures Core(AckArrives(s), limbo - multiset{at}) && Current(AckArrives(s))
  {
    hide AckArrives, ResolvedTickets, Tickets, LastEpoch, LastUnits, Core, Contained;
    var v := Settle(s.fifo[0], false);
    TraceSnoc(p.trace, Resolved(at, v));
    ResolveCore(p, limbo, at, v);
  }

  lemma AckOrder(s: State)
    requires Inv(s) && s.fifo != []
    ensures !AckArrives(s).overtook ==> Line(AckArrives(s)) == AckArrives(s).issued
  {
    hide *;
    AckLine(s);
    InvLine(s);
    TicketsCons(s.fifo);
    Assoc(ResolvedTickets(s.trace), [s.fifo[0].at], Tickets(s.fifo[1..]));
  }

  lemma InvLine(s: State)
    requires Inv(s)
    ensures !s.overtook ==> ResolvedTickets(s.trace) + Tickets(s.fifo) == s.issued
  {
    hide ResolvedTickets, Tickets, HeadOk, FifoOk, LogOk, TicketsOk, SeenOk, Current;
  }

  lemma AppendInv(s: State, payload: Payload)
    requires Inv(s) && !Repoints(payload)
    ensures Inv(Append(s, payload))
  {
    hide *;
    InvDef(s);
    AppendCore(s, multiset{}, payload);
    InvDef(Append(s, payload));
  }

  lemma NoteInv(s: State)
    requires Inv(s)
    ensures Inv(Append(s, LogOnly))
  {
    hide Inv, Append;
    AppendInv(s, LogOnly);
  }

  lemma ItemInv(s: State, item: Item)
    requires Inv(s)
    ensures Inv(Append(s, ItemEntry(item)))
  {
    hide Inv, Append;
    AppendInv(s, ItemEntry(item));
  }

  /** Equal in every field the commit laws read. */
  predicate SameCommits(s: State, t: State) {
    && t.seed == s.seed && t.items == s.items && t.estimated == s.estimated && t.epoch == s.epoch
    && t.fifo == s.fifo && t.minted == s.minted && t.fate == s.fate && t.log == s.log
    && t.acked == s.acked && t.issued == s.issued && t.trace == s.trace && t.overtook == s.overtook
    && t.stranded == s.stranded
  }

  lemma FrameInv(s: State, t: State)
    requires Inv(s) && SameCommits(s, t)
    ensures Inv(t)
  {
    hide Core, Current;
    CoreFrame(s, t, multiset{});
  }

  lemma ForwardInv(s: State, entries: seq<Payload>, refused: bool)
    requires Inv(s) && NoRepoint(entries) && entries != []
    ensures Inv(Forward(s, entries, refused))
  {
    hide *;
    InvDef(s);
    ForwardCore(s, multiset{}, entries, refused);
    InvDef(Forward(s, entries, refused));
  }

  lemma FoldWithInv(s: State, plan: Plan, digest: seq<Item>, pins: seq<string>)
    requires Inv(s) && s.fifo == []
    requires plan.prefixEnd <= plan.keptFrom <= |s.items|
    ensures Inv(FoldWith(s, plan, digest, pins))
  {
    hide *;
    var entry := CompactionEntry(digest, plan.prefixEnd, plan.keptFrom, pins);
    var after := Apply(s.items, plan, digest, pins);
    FoldWithUnfolds(s, plan, digest, pins);
    ReplayFoldIsApply(s.items, plan, digest, pins);
    RepointInv(s, entry, after);
  }

  lemma FoldWithUnfolds(s: State, plan: Plan, digest: seq<Item>, pins: seq<string>)
    requires plan.prefixEnd <= plan.keptFrom <= |s.items|
    ensures var entry := CompactionEntry(digest, plan.prefixEnd, plan.keptFrom, pins);
            && FoldWith(s, plan, digest, pins)
               == (if s.fate == 0 then Commit(s, entry)
                   else Repoint(Commit(s, entry), Apply(s.items, plan, digest, pins)))
            && Repoints(entry)
            && ReplayOne(s.items, entry) == ReplayFold(s.items, digest, plan.prefixEnd, plan.keptFrom, pins)
  {
    hide Commit, Repoint, Apply, ReplayFold;
  }

  lemma RepointInv(s: State, payload: Payload, items: seq<Item>)
    requires Inv(s) && s.fifo == []
    requires Repoints(payload) && items == ReplayOne(s.items, payload)
    ensures Inv(if s.fate == 0 then Commit(s, payload) else Repoint(Commit(s, payload), items))
  {
    hide *;
    InvDef(s);
    CommitUnfolds(s, payload);
    if s.fate == 0 {
      MintedCore(s, multiset{});
    } else {
      RepointCore(s, multiset{}, payload, items);
    }
    InvDef(if s.fate == 0 then Commit(s, payload) else Repoint(Commit(s, payload), items));
  }

  lemma ClearWithInv(s: State, ids: seq<string>)
    requires Inv(s) && s.fifo == []
    ensures Inv(ClearWith(s, ids))
  {
    hide Inv, Commit, Repoint, ClearResults;
    RepointInv(s, ClearedEntry(ids), ClearResults(s.items, ids));
  }

  lemma DrainInv(s: State, abort: bool)
    requires Inv(s)
    ensures Inv(Drain(s, abort)) && Drain(s, abort).fifo == []
  {
    hide *;
    InvDef(s);
    DrainCore(s, multiset{}, abort);
    InvDef(Drain(s, abort));
    DrainEmpty(s, abort);
  }

  lemma DrainEmpty(s: State, abort: bool)
    ensures s.fifo == [] ==> Drain(s, abort) == s
  {
  }

  lemma CompactInv(s: State, spec: Option<SpecDigest>, focus: Option<string>, input: FoldInput)
    requires Inv(s)
    ensures Inv(Compact(s, spec, focus, input))
  {
    hide *;
    DrainInv(s, true);
    CompactUnfolds(s, spec, focus, input);
    var choice := FoldChoice(Drain(s, true).items, spec, focus, input);
    if choice.Some? {
      FoldWithInv(Drain(s, true), choice.value.0, choice.value.1, input.pins);
    }
  }

  lemma CompactUnfolds(s: State, spec: Option<SpecDigest>, focus: Option<string>, input: FoldInput)
    ensures var d := Drain(s, true);
            var choice := FoldChoice(d.items, spec, focus, input);
            Compact(s, spec, focus, input)
            == if choice.None? then d else FoldWith(d, choice.value.0, choice.value.1, input.pins)
  {
    hide Drain, FoldChoice, FoldWith;
  }

  lemma StartTurnInv(s: State, prompt: QueuedPrompt, start: Start)
    requires Inv(s)
    ensures Inv(StartTurn(s, prompt, start))
  {
    hide *;
    StartTurnUnfolds(s, prompt, start);
    var item := PromptItem(prompt);
    var a := Append(s, ItemEntry(item));
    if start.fast && s.held == [] {
      ForwardInv(s, [ItemEntry(item)], start.refused);
      FrameInv(Forward(s, [ItemEntry(item)], start.refused), StartTurn(s, prompt, start));
    } else {
      ItemInv(s, item);
      if s.fate > 0 && start.reminder.Some? {
        ItemInv(a, Reminder(start.reminder.value));
        FrameInv(Append(a, ItemEntry(Reminder(start.reminder.value))), StartTurn(s, prompt, start));
      } else {
        FrameInv(a, StartTurn(s, prompt, start));
      }
    }
  }

  /** What starting a turn commits. */
  lemma StartTurnUnfolds(s: State, prompt: QueuedPrompt, start: Start)
    ensures var entry := ItemEntry(PromptItem(prompt));
            var a := Append(s, entry);
            SameCommits(
              if start.fast && s.held == [] then Forward(s, [entry], start.refused)
              else if s.fate > 0 && start.reminder.Some? then Append(a, ItemEntry(Reminder(start.reminder.value)))
              else a,
              StartTurn(s, prompt, start))
    ensures NoRepoint([ItemEntry(PromptItem(prompt))])
  {
    hide Append, Forward, PromptItem, Reminder;
  }

  lemma EndTurnInv(s: State, f: Finish)
    requires Inv(s)
    ensures Inv(EndTurn(s, f))
  {
    hide Inv, Append, StartTurn, Compact;
    if f.annotate { NoteInv(s); }
    var a := if f.annotate then Append(s, LogOnly) else s;
    if a.foldPending.Some? {
      FrameInv(a, a.(foldPending := None));
      CompactInv(a.(foldPending := None), None, a.foldPending.value, f.fold);
    }
    var b := if a.foldPending.Some?
             then FoldNow(a.(foldPending := None), a.foldPending.value, f.fold) else a;
    if b.queue != [] {
      FrameInv(b, b.(queue := b.queue[1..]));
      StartTurnInv(b.(queue := b.queue[1..]), b.queue[0], f.start);
    } else {
      FrameInv(b, b.(running := false, turnOpen := false));
    }
  }

  lemma {:induction false} NotesInv(s: State, n: nat)
    requires Inv(s)
    ensures Inv(Notes(s, n))
    decreases n
  {
    hide *;
    NotesUnfolds(s, n);
    if n > 0 {
      NoteInv(s);
      NotesInv(Append(s, LogOnly), n - 1);
    }
  }

  lemma NotesUnfolds(s: State, n: nat)
    ensures Notes(s, n) == if n == 0 then s else Notes(Append(s, LogOnly), n - 1)
  {
    hide Append;
  }

  lemma FinishedInv(s: State, f: Finish)
    requires Inv(s)
    ensures Inv(Finished(s, f))
  {
    hide Inv, Notes, StartTurn, EndTurn;
    NotesInv(s, f.notes);
    match f.guidance {
      case Some(text) => StartTurnInv(Notes(s, f.notes), QueuedPrompt(text, [], Some(GoalGuidance)), f.start);
      case None => EndTurnInv(Notes(s, f.notes), f);
    }
  }

  lemma {:induction false} DrainSomeInv(s: State, n: nat)
    requires Inv(s)
    ensures Inv(DrainSome(s, n))
    decreases n
  {
    hide *;
    DrainSomeUnfolds(s, n);
    if n > 0 && s.fifo != [] {
      InvDef(s);
      DrainOneCore(s, multiset{}, true);
      InvDef(DrainOne(s, true));
      DrainSomeInv(DrainOne(s, true), n - 1);
    }
  }

  lemma DrainSomeUnfolds(s: State, n: nat)
    ensures DrainSome(s, n) == if n == 0 || s.fifo == [] then s else DrainSome(DrainOne(s, true), n - 1)
  {
    hide DrainOne;
  }

  /** An entry whose ack is never read leaves the head lawful; only the log is ahead of it, by
      that entry. */
  lemma StrandInv(s: State, payload: Payload)
    requires Inv(s) && Repoints(payload)
    ensures Inv(Strand(s, payload))
  {
    hide *;
    InvDef(s);
    CoreDef(s, multiset{});
    StrandUnfolds(s, payload);
    if s.fate == 0 {
      MintedCore(s, multiset{});
    } else {
      StrandCore(s, payload);
      CoreDef(Strand(s, payload), multiset{});
    }
    InvDef(Strand(s, payload));
  }

  lemma StrandUnfolds(s: State, payload: Payload)
    ensures s.fate == 0 ==> Strand(s, payload) == s.(minted := s.minted + 1)
  {
  }

  lemma StrandCore(s: State, payload: Payload)
    requires s.fate > 0 && Repoints(payload)
    requires HeadOk(s) && FifoOk(s) && LogOk(s) && TicketsOk(s, multiset{}) && OrderOk(s, multiset{}) && SeenOk(s)
    ensures var t := Strand(s, payload);
            && HeadOk(t) && FifoOk(t) && LogOk(t) && TicketsOk(t, multiset{}) && OrderOk(t, multiset{}) && SeenOk(t)
            && (Current(s) ==> Current(t))
  {
    StrandLog(s, payload);
    StrandQueue(s, payload);
    hide Flatten, Replay, ResolvedTickets, Tickets, LastEpoch, LastUnits, TraceOk, OkEntries, FifoOk, Settled, Tokens,
         Ascending, Kept, StrandedOk;
  }

  lemma StrandQueue(s: State, payload: Payload)
    requires FifoOk(s) && s.fate > 0
    ensures FifoOk(Strand(s, payload))
  {
    hide Tickets, UnitOk, Ascending, EpochOk;
    EpochFrame(s, Strand(s, payload));
  }

  lemma StrandLog(s: State, payload: Payload)
    requires s.fate > 0 && Repoints(payload) && StrandedOk(s.log, s.stranded)
    ensures var t := Strand(s, payload);
            StrandedOk(t.log, t.stranded) && Kept(t.log, t.stranded) == Kept(s.log, s.stranded)
  {
    var t := Strand(s, payload);
    assert t.log[..|s.log|] == s.log;
    KeptFrame(s.log, s.stranded, |s.log|);
  }

  lemma CompactCutInv(s: State, spec: Option<SpecDigest>, focus: Option<string>, input: FoldInput)
    requires Inv(s)
    ensures Inv(CompactCut(s, spec, focus, input))
  {
    hide *;
    DrainInv(s, true);
    CompactCutUnfolds(s, spec, focus, input);
    var choice := FoldChoice(Drain(s, true).items, spec, focus, input);
    if choice.Some? {
      var (plan, digest) := choice.value;
      StrandInv(Drain(s, true), CompactionEntry(digest, plan.prefixEnd, plan.keptFrom, input.pins));
    }
  }

  lemma CompactCutUnfolds(s: State, spec: Option<SpecDigest>, focus: Option<string>, input: FoldInput)
    ensures var d := Drain(s, true);
            var choice := FoldChoice(d.items, spec, focus, input);
            CompactCut(s, spec, focus, input)
            == if choice.None? then d
               else
                 var (plan, digest) := choice.value;
                 Strand(d, CompactionEntry(digest, plan.prefixEnd, plan.keptFrom, input.pins))
    ensures forall digest: seq<Item>, p: nat, k: nat :: Repoints(CompactionEntry(digest, p, k, input.pins))
  {
    hide Drain, FoldChoice, Strand;
  }

  lemma FoldForTurnInv(s: State, spec: Option<SpecDigest>, focus: Option<string>, cancel: Cancel, f: Finish)
    requires Inv(s)
    ensures Inv(FoldForTurn(s, spec, focus, cancel, f))
  {
    hide Inv, Compact, CompactCut, Compacts, Finished, DrainSome;
    match cancel {
      case Early(drained) =>
        DrainSomeInv(s, drained);
        FinishedInv(DrainSome(s, drained), f);
      case AtEntry =>
        CompactCutInv(s, spec, focus, f.fold);
        FinishedInv(CompactCut(s, spec, focus, f.fold), f);
      case _ =>
        var c := Compact(s, spec, focus, f.fold);
        CompactInv(s, spec, focus, f.fold);
        FrameInv(c, c.(turnOpen := false));
        FinishedInv(c, f);
    }
  }

  lemma OnTurnFinishedInv(s: State, end: TurnEnd, f: Finish)
    requires Inv(s)
    ensures Inv(OnTurnFinished(s, end, f))
  {
    hide Inv, FoldForTurn, Finished, ClearWith, Drain;
    match end {
      case Ended => FinishedInv(s, f);
      case WantsFold(spec, skipped, cancel) =>
        var focus := ParkedFocus(s);
        var p := s.(foldPending := None);
        FrameInv(s, p);
        if skipped {
          FinishedInv(p, f);
        } else {
          FoldForTurnInv(p, if focus.None? then spec else None, focus, cancel, f);
        }
      case WantsClear(ids, interrupted) =>
        DrainInv(s, true);
        ClearWithInv(Drain(s, true), ids);
        var c := Clear(s, ids);
        FrameInv(c, c.(turnOpen := false));
        FinishedInv(c, f);
    }
  }

  lemma TurnFinishedInv(s: State, end: TurnEnd, switched: bool, f: Finish)
    requires Inv(s)
    ensures Inv(TurnFinished(s, end, switched, f))
  {
    hide Inv, ReleaseSteers, Append, OnTurnFinished, Repair.Stub;
    if Awaiting(s.items) { ItemInv(s, Repair.Stub(s.items[|s.items| - 1])); }
    var released := ReleaseSteers(CloseOpenBatch(s));
    ReleaseSteersInv(CloseOpenBatch(s));
    if switched { NoteInv(released); }
    OnTurnFinishedInv(if switched then Append(released, LogOnly) else released, end, f);
  }

  lemma ReleaseSteersInv(s: State)
    requires Inv(s)
    ensures Inv(ReleaseSteers(s))
  {
    hide *;
    InvDef(s);
    ReleaseSteersCore(s, multiset{});
    InvDef(ReleaseSteers(s));
  }

  // ---- Runs --------------------------------------------------------------------------------

  /** Only the actor re-points the projection: what others propose are plain entries. */
  predicate Plain(cmd: Cmd) {
    match cmd
    case ProposeCmd(entries) => NoRepoint(entries)
    case ProposePreparedCmd(entries, _, _, _) => NoRepoint(entries)
    case _ => true
  }

  lemma ProposePreparedInv(s: State, entries: seq<Payload>, stale: bool, pipelined: bool, refused: bool)
    requires Inv(s) && NoRepoint(entries)
    ensures Inv(ProposePrepared(s, entries, stale, pipelined, refused))
  {
    hide Inv, Forward, AppendAll, ReleaseSteers, OpenAfter, NoRepoint;
    if !stale {
      var t := s.(turnOpen := OpenAfter(s.turnOpen, entries));
      FrameInv(s, t);
      if pipelined {
        if entries != [] { ForwardInv(t, entries, refused); }
      } else {
        ProposeInv(t, entries);
        ReleaseSteersInv(AppendAll(t, entries));
      }
    }
  }

  lemma StepInv(s: State, cmd: Cmd)
    requires Inv(s) && Plain(cmd)
    ensures Inv(Step(s, cmd))
  {
    hide Inv, AckArrives, StartTurn, Append, Compact, ProposePrepared, TurnFinished, AppendAll,
         Awaiting, NoRepoint, Pushed, Queued, Withdrawn, NeedsContinuation, Reminder;
    match cmd {
      case AckCmd => if s.fifo != [] { AckArrivesInv(s); }
      case PromptCmd(prompt, start) =>
        if s.running { FrameInv(s, Step(s, cmd)); } else { StartTurnInv(s, prompt, start); }
      case SteerCmd(steer) =>
        if s.running || Awaiting(s.items) { FrameInv(s, Step(s, cmd)); }
        else { AppendInv(s, SteerEntry(steer)); }
      case NotifyCmd(steer, start) =>
        if s.running || Awaiting(s.items) { FrameInv(s, Step(s, cmd)); }
        else { StartTurnInv(s, NotifyPrompt(steer), start); }
      case UnnotifyCmd(key) => FrameInv(s, Step(s, cmd));
      case ContinueCmd => FrameInv(s, Step(s, cmd));
      case NoteCmd => NoteInv(s);
      case SetPlanCmd(body) =>
        NoteInv(s);
        ItemInv(Append(s, LogOnly), Reminder(body));
      case ProposeCmd(entries) => ProposeInv(s, entries);
      case ProposePreparedCmd(entries, stale, pipelined, refused) =>
        ProposePreparedInv(s, entries, stale, pipelined, refused);
      case FoldCmd(focus, input) =>
        if s.running { FrameInv(s, Step(s, cmd)); } else { CompactInv(s, None, focus, input); }
      case TurnFinishedCmd(end, switched, finish) => TurnFinishedInv(s, end, switched, finish);
    }
  }

  lemma ProposeInv(s: State, entries: seq<Payload>)
    requires Inv(s) && NoRepoint(entries)
    ensures Inv(AppendAll(s, entries))
  {
    hide *;
    InvDef(s);
    AppendAllCore(s, multiset{}, entries);
    InvDef(AppendAll(s, entries));
  }

  lemma OpenedInv(history: seq<Item>, fate: nat)
    ensures Inv(Opened(history, fate))
  {
    hide Repair.Resume, Tokens;
    var seed := Repair.Resume(history);
    var s := Blank(seed, fate);
    assert Core(s, multiset{});
    PublishCore(s, multiset{});
  }

  /** The invariant holds after every run of plain commands, whatever the writer's fate. */
  lemma {:induction false} RunInv(history: seq<Item>, fate: nat, cmds: seq<Cmd>)
    requires forall i :: 0 <= i < |cmds| ==> Plain(cmds[i])
    ensures Inv(Run(Opened(history, fate), cmds))
  {
    hide Inv, Step, Opened, Plain;
    OpenedInv(history, fate);
    if cmds != [] {
      RunInv(history, fate, cmds[..|cmds| - 1]);
      StepInv(Run(Opened(history, fate), cmds[..|cmds| - 1]), cmds[|cmds| - 1]);
    }
  }
}
