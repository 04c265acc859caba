/** Stagnation detectors: each pattern in a turn's calls is named once, at the first call that
    completes it, however the calls were batched. */
module Nudge {
  import opened Items

  const FILE_CHURN := 4
  const CYCLE_WINDOW := 4

  datatype Kind = ErrorStreak | Cycle | Churn

  /** One executed call, as the detectors read it. */
  datatype Call = Call(tool: string, args: nat, result: nat, isError: bool, target: Option<string>, errorLine: string)

  datatype Reminder =
    | StreakOf(tool: string, line: string)
    | CycleOf(a: string, b: string)
    | ChurnOf(file: string, edits: nat)

  /** The hashes the memo keys are made of. Nothing is assumed of them: two calls, files or
      cycles may share one. */
  datatype Hashes = Hashes(call: Call -> nat, file: string -> nat, cycle: (nat, nat) -> nat)

  // ---- Patterns ---------------------------------------------------------------------------

  function Edits(calls: seq<Call>, file: string): nat {
    if calls == [] then 0
    else Edits(calls[..|calls| - 1], file) + (if calls[|calls| - 1].target == Some(file) then 1 else 0)
  }

  /** The call at `i` edits a file for at least the fourth time. */
  predicate Churning(calls: seq<Call>, i: nat)
    requires i < |calls|
  {
    calls[i].target.Some? && Edits(calls[..i + 1], calls[i].target.value) >= FILE_CHURN
  }

  /** The call at `i` fails right behind a failure of the same call. */
  predicate Streaking(h: Hashes, calls: seq<Call>, i: nat)
    requires i < |calls|
  {
    i >= 1 && calls[i - 1].isError && calls[i].isError && h.call(calls[i]) == h.call(calls[i - 1])
  }

  /** The call at `i` closes an A-B-A-B whose results changed. */
  predicate Cycling(h: Hashes, calls: seq<Call>, i: nat)
    requires i < |calls|
  {
    && i >= 3
    && h.call(calls[i - 3]) != h.call(calls[i - 2])
    && h.call(calls[i - 1]) == h.call(calls[i - 3])
    && h.call(calls[i]) == h.call(calls[i - 2])
    && !(calls[i - 3].result == calls[i - 1].result && calls[i - 2].result == calls[i].result)
  }

  function CycleKey(h: Hashes, a: nat, b: nat): nat {
    if a < b then h.cycle(a, b) else h.cycle(b, a)
  }

  /** The call at `i` completes a pattern of this kind and signature. */
  predicate Completes(h: Hashes, calls: seq<Call>, i: nat, kind: Kind, signature: nat)
    requires i < |calls|
  {
    match kind
    case Churn => Churning(calls, i) && h.file(calls[i].target.value) == signature
    case ErrorStreak => Streaking(h, calls, i) && h.call(calls[i - 1]) == signature
    case Cycle => Cycling(h, calls, i) && CycleKey(h, h.call(calls[i - 3]), h.call(calls[i - 2])) == signature
  }

  /** And no call before it did. */
  predicate First(h: Hashes, calls: seq<Call>, i: nat, kind: Kind, signature: nat)
    requires i < |calls|
  {
    Completes(h, calls, i, kind, signature) && forall j :: 0 <= j < i ==> !Completes(h, calls, j, kind, signature)
  }

  /** What is worth saying at the call at `i`: each pattern it is the first to complete. */
  function ReportsAt(h: Hashes, calls: seq<Call>, i: nat): seq<Reminder>
    requires i < |calls|
  {
    (if Churning(calls, i) && First(h, calls, i, Churn, h.file(calls[i].target.value))
     then [ChurnOf(calls[i].target.value, Edits(calls[..i + 1], calls[i].target.value))] else [])
    + (if Streaking(h, calls, i) && First(h, calls, i, ErrorStreak, h.call(calls[i - 1]))
       then [StreakOf(calls[i - 1].tool, calls[i].errorLine)] else [])
    + (if Cycling(h, calls, i) && First(h, calls, i, Cycle, CycleKey(h, h.call(calls[i - 3]), h.call(calls[i - 2])))
       then [CycleOf(calls[i - 3].tool, calls[i - 2].tool)] else [])
  }

  /** The reminders of calls `from` to `upto` of a turn. */
  function Reports(h: Hashes, calls: seq<Call>, from: nat, upto: nat): seq<Reminder>
    requires from <= upto <= |calls|
    decreases upto - from
  {
    if from == upto then [] else Reports(h, calls, from, upto - 1) + ReportsAt(h, calls, upto - 1)
  }

  // ---- Later calls change nothing ------------------------------------------------------------

  lemma CompletesKept(h: Hashes, calls: seq<Call>, more: seq<Call>, i: nat, kind: Kind, signature: nat)
    requires i < |calls|
    ensures Completes(h, calls + more, i, kind, signature) == Completes(h, calls, i, kind, signature)
    ensures Churning(calls + more, i) == Churning(calls, i)
    ensures (calls + more)[..i + 1] == calls[..i + 1]
  {
    var all := calls + more;
    assert all[..i + 1] == calls[..i + 1];
    assert forall j :: 0 <= j <= i ==> all[j] == calls[j];
  }

  lemma FirstKept(h: Hashes, calls: seq<Call>, more: seq<Call>, i: nat, kind: Kind, signature: nat)
    requires i < |calls|
    ensures First(h, calls + more, i, kind, signature) == First(h, calls, i, kind, signature)
  {
    hide Completes;
    forall j | 0 <= j <= i
      ensures Completes(h, calls + more, j, kind, signature) == Completes(h, calls, j, kind, signature)
    {
      CompletesKept(h, calls, more, j, kind, signature);
    }
  }

  lemma ReportsAtKept(h: Hashes, calls: seq<Call>, more: seq<Call>, i: nat)
    requires i < |calls|
    ensures ReportsAt(h, calls + more, i) == ReportsAt(h, calls, i)
  {
    hide First, Completes, Edits, CycleKey;
    var all := calls + more;
    assert all[..i + 1] == calls[..i + 1];
    assert forall j :: 0 <= j <= i ==> all[j] == calls[j];
    if calls[i].target.Some? { FirstKept(h, calls, more, i, Churn, h.file(calls[i].target.value)); }
    if i >= 1 { FirstKept(h, calls, more, i, ErrorStreak, h.call(calls[i - 1])); }
    if i >= 3 { FirstKept(h, calls, more, i, Cycle, CycleKey(h, h.call(calls[i - 3]), h.call(calls[i - 2]))); }
  }

  lemma {:induction false} ReportsKept(h: Hashes, calls: seq<Call>, more: seq<Call>, from: nat, upto: nat)
    requires from <= upto <= |calls|
    ensures Reports(h, calls + more, from, upto) == Reports(h, calls, from, upto)
    decreases upto - from
  {
    hide ReportsAt;
    if from < upto {
      ReportsKept(h, calls, more, from, upto - 1);
      ReportsAtKept(h, calls, more, upto - 1);
    }
  }

  lemma {:induction false} ReportsSplit(h: Hashes, calls: seq<Call>, from: nat, mid: nat, upto: nat)
    requires from <= mid <= upto <= |calls|
    ensures Reports(h, calls, from, upto) == Reports(h, calls, from, mid) + Reports(h, calls, mid, upto)
    decreases upto - mid
  {
    hide ReportsAt;
    if mid == upto {
      assert Reports(h, calls, from, mid) + [] == Reports(h, calls, from, mid);
    } else {
      ReportsSplit(h, calls, from, mid, upto - 1);
      Assoc(Reports(h, calls, from, mid), Reports(h, calls, mid, upto - 1), ReportsAt(h, calls, upto - 1));
    }
  }

  // ---- The detectors -------------------------------------------------------------------------

  class Detectors {
    const h: Hashes
    var seen: set<(Kind, nat)>
    var window: seq<Call>
    var churn: map<string, nat>
    ghost var history: seq<Call>

    /** `seen` is what was completed, the window the trailing calls, the counts the edits. */
    ghost predicate Valid()
      reads this
    {
      && Said(h, history, seen)
      && window == Trailing(history)
      && Counts(churn, history)
    }

    constructor (h: Hashes)
      ensures Valid() && history == [] && this.h == h
    {
      this.h := h;
      seen, window, churn, history := {}, [], map[], [];
    }

    /** Fold one batch of finished calls in: exactly the reminders of those calls, given all the
        turn's calls before them. */
    method Observe(calls: seq<Call>) returns (out: seq<Reminder>)
      requires Valid()
      modifies this
      ensures Valid() && history == old(history) + calls
      ensures out == Reports(h, history, old(|history|), |history|)
    {
      hide Completes, ReportsAt, Trailing, Counts, Said;
      out := [];
      ghost var was := history;
      assert history == was + calls[..0];
      for k := 0 to |calls|
        invariant Valid() && history == was + calls[..k]
        invariant out == Reports(h, history, |was|, |history|)
      {
        ghost var before := history;
        var more := ObserveOne(calls[k]);
        ReportsKept(h, before, [calls[k]], |was|, |before|);
        ReportsSplit(h, history, |was|, |before|, |history|);
        OneReport(h, history, |before|);
        out := out + more;
        assert history == was + calls[..k + 1];
      }
      assert calls[..|calls|] == calls;
    }

    method ObserveOne(call: Call) returns (out: seq<Reminder>)
      requires Valid()
      modifies this
      ensures Valid() && history == old(history) + [call]
      ensures out == ReportsAt(h, history, old(|history|))
    {
      hide Completes, First, Edits, ReportsAt, Trailing, Counts, Said, Streak, Alternates, CycleKey, Streaking,
           Cycling, Churning,
           ChurnKeys, StreakKeys, CycleKeys, UnsaidChurn, UnsaidStreak, UnsaidCycle;
      ghost var before, said := history, seen;
      ghost var all := before + [call];
      var n := CountEdit(call);
      Remember(call);
      history := all;
      NewReports(h, before, call, said, n, window);
      var edits := SayChurn(call, n);
      var failures := SayStreak();
      var loops := SayCycle();
      KindsAreApart(h, call, said, n, window);
      out := edits + failures + loops;
    }

    method SayChurn(call: Call, n: nat) returns (out: seq<Reminder>)
      requires n >= FILE_CHURN ==> call.target.Some?
      modifies this`seen
      ensures seen == old(seen) + ChurnKeys(h, call, n) && out == UnsaidChurn(h, call, old(seen), n)
    {
      out := [];
      if n >= FILE_CHURN {
        var unsaid := Fires(Churn, h.file(call.target.value));
        if unsaid { out := [ChurnOf(call.target.value, n)]; }
      }
    }

    /** The same call failing the same way twice running. */
    method SayStreak() returns (out: seq<Reminder>)
      modifies this`seen
      ensures seen == old(seen) + StreakKeys(h, window) && out == UnsaidStreak(h, old(seen), window)
    {
      out := [];
      if Streak(h, window) {
        var unsaid := Fires(ErrorStreak, h.call(window[|window| - 2]));
        if unsaid { out := [StreakOf(window[|window| - 2].tool, window[|window| - 1].errorLine)]; }
      }
    }

    /** A-B-A-B whose results keep changing; either phase is one cycle. */
    method SayCycle() returns (out: seq<Reminder>)
      modifies this`seen
      ensures seen == old(seen) + CycleKeys(h, window) && out == UnsaidCycle(h, old(seen), window)
    {
      out := [];
      if Alternates(h, window) {
        var unsaid := Fires(Cycle, CycleKey(h, h.call(window[0]), h.call(window[1])));
        if unsaid { out := [CycleOf(window[0].tool, window[1].tool)]; }
      }
    }

    /** Has this not been said yet this turn? Saying it once is enough. */
    method Fires(kind: Kind, signature: nat) returns (unsaid: bool)
      modifies this`seen
      ensures unsaid == ((kind, signature) !in old(seen)) && seen == old(seen) + {(kind, signature)}
    {
      unsaid := (kind, signature) !in seen;
      seen := seen + {(kind, signature)};
    }

    /** The turn's edits of the file this call edits, or zero. */
    method CountEdit(call: Call) returns (n: nat)
      requires Counts(churn, history)
      modifies this`churn
      ensures Counts(churn, history + [call])
      ensures n == if call.target.Some? then Edits(history + [call], call.target.value) else 0
    {
      CountsStep(churn, history, call);
      n := 0;
      if call.target.Some? {
        var file := call.target.value;
        n := (if file in churn then churn[file] else 0) + 1;
        churn := churn[file := n];
      }
    }

    /** The window slides. */
    method Remember(call: Call)
      requires window == Trailing(history)
      modifies this`window
      ensures window == Trailing(history + [call])
    {
      TrailingStep(history, call);
      window := window + [call];
      ghost var full := window;
      while |window| > CYCLE_WINDOW
        invariant window == full || (|history| >= 4 && window == Trailing(history + [call]))
        decreases |window|
      {
        window := window[1..];
      }
    }

    /** A turn's calls in any batches. */
    method ObserveAll(batches: seq<seq<Call>>) returns (out: seq<Reminder>)
      requires Valid() && history == []
      modifies this
      ensures Valid() && history == Flattened(batches)
      ensures out == Reports(h, Flattened(batches), 0, |Flattened(batches)|)
    {
      hide Completes, ReportsAt, Trailing, Counts, Said;
      out := [];
      for k := 0 to |batches|
        invariant Valid() && history == Flattened(batches[..k])
        invariant out == Reports(h, history, 0, |history|)
      {
        assert batches[..k + 1][..k] == batches[..k];
        ghost var before := history;
        var more := Observe(batches[k]);
        ReportsKept(h, before, batches[k], 0, |before|);
        ReportsSplit(h, history, 0, |before|, |history|);
        out := out + more;
      }
      assert batches[..|batches|] == batches;
    }
  }

  function Flattened(batches: seq<seq<Call>>): seq<Call> {
    if batches == [] then [] else Flattened(batches[..|batches| - 1]) + batches[|batches| - 1]
  }

  lemma OneReport(h: Hashes, calls: seq<Call>, i: nat)
    requires i + 1 == |calls|
    ensures Reports(h, calls, i, i + 1) == ReportsAt(h, calls, i)
  {
    hide ReportsAt;
    assert Reports(h, calls, i, i) == [];
    assert [] + ReportsAt(h, calls, i) == ReportsAt(h, calls, i);
  }

  /** The last calls of a turn, at most a window of them. */
  function Trailing(calls: seq<Call>): seq<Call> {
    if |calls| <= CYCLE_WINDOW then calls else calls[|calls| - CYCLE_WINDOW..]
  }

  lemma TrailingStep(calls: seq<Call>, call: Call)
    ensures var all := calls + [call];
            && (|calls| < 4 ==> Trailing(calls) + [call] == Trailing(all))
            && (|calls| >= 4 ==> |Trailing(calls) + [call]| == 5 && (Trailing(calls) + [call])[1..] == Trailing(all))
            && |Trailing(all)| <= 4
  {
  }

  ghost predicate Counts(churn: map<string, nat>, calls: seq<Call>) {
    forall file: string :: (if file in churn then churn[file] else 0) == Edits(calls, file)
  }

  lemma CountsStep(churn: map<string, nat>, calls: seq<Call>, call: Call)
    requires Counts(churn, calls)
    ensures var all := calls + [call];
            if call.target.Some?
            then
              var file := call.target.value;
              Counts(churn[file := (if file in churn then churn[file] else 0) + 1], all)
            else Counts(churn, all)
    ensures forall file ::
              Edits(calls + [call], file) == Edits(calls, file) + (if call.target == Some(file) then 1 else 0)
  {
    assert (calls + [call])[..|calls|] == calls;
  }

  /** The window's last two calls are a failure and its repetition. */
  predicate Streak(h: Hashes, window: seq<Call>) {
    && |window| >= 2
    && window[|window| - 2].isError && window[|window| - 1].isError
    && h.call(window[|window| - 1]) == h.call(window[|window| - 2])
  }

  predicate Alternates(h: Hashes, window: seq<Call>) {
    && |window| >= CYCLE_WINDOW
    && h.call(window[0]) != h.call(window[1])
    && h.call(window[2]) == h.call(window[0]) && h.call(window[3]) == h.call(window[1])
    && !(window[0].result == window[2].result && window[1].result == window[3].result)
  }

  /** The window sees what the whole turn would. */
  lemma WindowTells(h: Hashes, calls: seq<Call>, window: seq<Call>)
    requires calls != [] && window == Trailing(calls)
    ensures var i := |calls| - 1;
            && (Streaking(h, calls, i) <==> Streak(h, window))
            && (Cycling(h, calls, i) <==> Alternates(h, window))
            && (i >= 1 ==> |window| >= 2 && window[|window| - 2] == calls[i - 1])
            && window != [] && window[|window| - 1] == calls[i]
            && (i >= 3 ==> |window| == 4 && window[0] == calls[i - 3] && window[1] == calls[i - 2])
  {
  }

  /** The keys a call completes. */
  function ChurnKeys(h: Hashes, call: Call, n: nat): set<(Kind, nat)>
    requires n >= FILE_CHURN ==> call.target.Some?
  {
    if n >= FILE_CHURN then {(Churn, h.file(call.target.value))} else {}
  }

  function StreakKeys(h: Hashes, window: seq<Call>): set<(Kind, nat)> {
    if Streak(h, window) then {(ErrorStreak, h.call(window[|window| - 2]))} else {}
  }

  function CycleKeys(h: Hashes, window: seq<Call>): set<(Kind, nat)> {
    if Alternates(h, window) then {(Cycle, CycleKey(h, h.call(window[0]), h.call(window[1])))} else {}
  }

  function Keys(h: Hashes, call: Call, n: nat, window: seq<Call>): set<(Kind, nat)>
    requires n >= FILE_CHURN ==> call.target.Some?
  {
    ChurnKeys(h, call, n) + StreakKeys(h, window) + CycleKeys(h, window)
  }

  /** The reminders not said before. */
  function UnsaidChurn(h: Hashes, call: Call, said: set<(Kind, nat)>, n: nat): seq<Reminder>
    requires n >= FILE_CHURN ==> call.target.Some?
  {
    if n >= FILE_CHURN && (Churn, h.file(call.target.value)) !in said then [ChurnOf(call.target.value, n)] else []
  }

  function UnsaidStreak(h: Hashes, said: set<(Kind, nat)>, window: seq<Call>): seq<Reminder> {
    if Streak(h, window) && (ErrorStreak, h.call(window[|window| - 2])) !in said
    then [StreakOf(window[|window| - 2].tool, window[|window| - 1].errorLine)] else []
  }

  function UnsaidCycle(h: Hashes, said: set<(Kind, nat)>, window: seq<Call>): seq<Reminder> {
    if Alternates(h, window) && (Cycle, CycleKey(h, h.call(window[0]), h.call(window[1]))) !in said
    then [CycleOf(window[0].tool, window[1].tool)] else []
  }

  function Unsaid(h: Hashes, call: Call, said: set<(Kind, nat)>, n: nat, window: seq<Call>): seq<Reminder>
    requires n >= FILE_CHURN ==> call.target.Some?
  {
    UnsaidChurn(h, call, said, n) + UnsaidStreak(h, said, window) + UnsaidCycle(h, said, window)
  }

  /** Saying one kind leaves the others to be said. */
  lemma KindsAreApart(h: Hashes, call: Call, said: set<(Kind, nat)>, n: nat, window: seq<Call>)
    requires n >= FILE_CHURN ==> call.target.Some?
    ensures var churned := said + ChurnKeys(h, call, n);
            var streaked := churned + StreakKeys(h, window);
            && UnsaidStreak(h, churned, window) == UnsaidStreak(h, said, window)
            && UnsaidCycle(h, streaked, window) == UnsaidCycle(h, said, window)
            && streaked + CycleKeys(h, window) == said + Keys(h, call, n, window)
  {
    hide Streak, Alternates, CycleKey;
  }

  predicate HasKey(h: Hashes, call: Call, n: nat, window: seq<Call>, kind: Kind, signature: nat)
    requires n >= FILE_CHURN ==> call.target.Some?
  {
    match kind
    case Churn => n >= FILE_CHURN && h.file(call.target.value) == signature
    case ErrorStreak => Streak(h, window) && h.call(window[|window| - 2]) == signature
    case Cycle => Alternates(h, window) && CycleKey(h, h.call(window[0]), h.call(window[1])) == signature
  }

  lemma KeysHold(h: Hashes, call: Call, n: nat, window: seq<Call>, kind: Kind, signature: nat)
    requires n >= FILE_CHURN ==> call.target.Some?
    ensures (kind, signature) in Keys(h, call, n, window) <==> HasKey(h, call, n, window, kind, signature)
  {
    hide Streak, Alternates, CycleKey;
  }

  ghost predicate Said(h: Hashes, calls: seq<Call>, said: set<(Kind, nat)>) {
    forall kind: Kind, signature: nat ::
      (kind, signature) in said <==> exists j: nat :: j < |calls| && Completes(h, calls, j, kind, signature)
  }

  /** What the detectors say at the new call is what the turn's history calls for. */
  lemma NewReports(h: Hashes, calls: seq<Call>, call: Call, said: set<(Kind, nat)>, n: nat, window: seq<Call>)
    requires Said(h, calls, said) && window == Trailing(calls + [call])
    requires n == if call.target.Some? then Edits(calls + [call], call.target.value) else 0
    ensures ReportsAt(h, calls + [call], |calls|) == Unsaid(h, call, said, n, window)
    ensures Said(h, calls + [call], said + Keys(h, call, n, window))
  {
    hide Completes, First, Streaking, Cycling, Churning, Said, Trailing, Edits, CycleKey, Streak, Alternates, Keys;
    var all, i := calls + [call], |calls|;
    assert all[..i + 1] == all && all[i] == call;
    WindowTells(h, all, window);
    NewCall(h, calls, call, said);
    forall kind: Kind, signature: nat
      ensures Completes(h, all, i, kind, signature) <==> (kind, signature) in Keys(h, call, n, window)
    {
      NewKey(h, all, call, n, window, kind, signature);
    }
    PatternsComplete(h, all, i);
    ChurnTells(all, call, n);
    SaidGrows(h, calls, call, said, Keys(h, call, n, window));
  }

  /** A pattern that holds at a call is completed there, under its own signature. */
  lemma PatternsComplete(h: Hashes, calls: seq<Call>, i: nat)
    requires i < |calls|
    ensures Churning(calls, i) ==> calls[i].target.Some? && Completes(h, calls, i, Churn, h.file(calls[i].target.value))
    ensures Streaking(h, calls, i) ==> i >= 1 && Completes(h, calls, i, ErrorStreak, h.call(calls[i - 1]))
    ensures Cycling(h, calls, i) ==>
              i >= 3 && Completes(h, calls, i, Cycle, CycleKey(h, h.call(calls[i - 3]), h.call(calls[i - 2])))
  {
    hide Edits, CycleKey;
  }

  lemma ChurnTells(all: seq<Call>, call: Call, n: nat)
    requires all != [] && all[|all| - 1] == call
    requires n == if call.target.Some? then Edits(all, call.target.value) else 0
    ensures Churning(all, |all| - 1) <==> n >= FILE_CHURN
  {
    hide Edits;
    assert all[..|all| - 1 + 1] == all;
  }

  /** The keys are what the new call completes. */
  lemma NewKey(h: Hashes, all: seq<Call>, call: Call, n: nat, window: seq<Call>, kind: Kind, signature: nat)
    requires all != [] && all[|all| - 1] == call && window == Trailing(all)
    requires n == if call.target.Some? then Edits(all, call.target.value) else 0
    ensures Completes(h, all, |all| - 1, kind, signature) <==> (kind, signature) in Keys(h, call, n, window)
  {
    hide Trailing, Edits, CycleKey, Streak, Alternates, Streaking, Cycling, Keys;
    WindowTells(h, all, window);
    PatternsComplete(h, all, |all| - 1);
    assert all[..|all| - 1 + 1] == all;
    KeysHold(h, call, n, window, kind, signature);
  }

  lemma SaidGrows(h: Hashes, calls: seq<Call>, call: Call, said: set<(Kind, nat)>, keys: set<(Kind, nat)>)
    requires Said(h, calls, said)
    requires forall kind: Kind, signature: nat ::
               Completes(h, calls + [call], |calls|, kind, signature) <==> (kind, signature) in keys
    ensures Said(h, calls + [call], said + keys)
  {
    hide Completes;
    NewCall(h, calls, call, said);
  }

  /** What the new call completes, and for the first time, told from what was completed before. */
  lemma NewCall(h: Hashes, calls: seq<Call>, call: Call, said: set<(Kind, nat)>)
    requires Said(h, calls, said)
    ensures var all, i := calls + [call], |calls|;
            && (forall kind: Kind, signature: nat ::
                  First(h, all, i, kind, signature)
                  <==> Completes(h, all, i, kind, signature) && (kind, signature) !in said)
            && (forall kind: Kind, signature: nat ::
                  (exists j: nat :: j < |all| && Completes(h, all, j, kind, signature))
                  <==> (kind, signature) in said || Completes(h, all, i, kind, signature))
  {
    hide Completes;
    var all, i := calls + [call], |calls|;
    forall kind: Kind, signature: nat, j: nat | j < |calls|
      ensures Completes(h, all, j, kind, signature) == Completes(h, calls, j, kind, signature)
    {
      CompletesKept(h, calls, [call], j, kind, signature);
    }
  }

  // ---- What a turn is told ----------------------------------------------------------------------

  /** Where a kind of reminder with a signature is given. */
  predicate Gives(h: Hashes, calls: seq<Call>, i: nat, kind: Kind, signature: nat)
    requires i < |calls|
  {
    match kind
    case Churn =>
      Churning(calls, i) && h.file(calls[i].target.value) == signature
      && ChurnOf(calls[i].target.value, Edits(calls[..i + 1], calls[i].target.value)) in ReportsAt(h, calls, i)
    case ErrorStreak =>
      Streaking(h, calls, i) && h.call(calls[i - 1]) == signature
      && StreakOf(calls[i - 1].tool, calls[i].errorLine) in ReportsAt(h, calls, i)
    case Cycle =>
      Cycling(h, calls, i) && CycleKey(h, h.call(calls[i - 3]), h.call(calls[i - 2])) == signature
      && CycleOf(calls[i - 3].tool, calls[i - 2].tool) in ReportsAt(h, calls, i)
  }

  /** Over a whole turn each kind and signature is told exactly once if any call ever completes
      its pattern, at the first that does, and never if none does. */
  lemma ToldExactlyOnce(h: Hashes, calls: seq<Call>, kind: Kind, signature: nat)
    ensures (exists j: nat :: j < |calls| && Completes(h, calls, j, kind, signature))
       <==> (exists i: nat :: i < |calls| && Gives(h, calls, i, kind, signature))
    ensures forall i: nat, j: nat ::
              && i < |calls| && j < |calls|
              && Gives(h, calls, i, kind, signature) && Completes(h, calls, j, kind, signature)
              ==> i <= j && (Gives(h, calls, j, kind, signature) ==> i == j)
  {
    forall i: nat | i < |calls|
      ensures Gives(h, calls, i, kind, signature) <==> First(h, calls, i, kind, signature)
    {
      GivesIsFirst(h, calls, i, kind, signature);
    }
    hide Completes, Gives;
    if exists j: nat :: j < |calls| && Completes(h, calls, j, kind, signature) {
      var j: nat :| j < |calls| && Completes(h, calls, j, kind, signature);
      var i := FirstOf(h, calls, j, kind, signature);
    }
  }

  /** A pattern completed by some call is completed by a first one. */
  lemma {:induction false} FirstOf(h: Hashes, calls: seq<Call>, j: nat, kind: Kind, signature: nat) returns (i: nat)
    requires j < |calls| && Completes(h, calls, j, kind, signature)
    ensures i <= j && First(h, calls, i, kind, signature)
    decreases j
  {
    hide Completes;
    if k: nat :| k < j && Completes(h, calls, k, kind, signature) {
      i := FirstOf(h, calls, k, kind, signature);
    } else {
      i := j;
    }
  }

  lemma GivesIsFirst(h: Hashes, calls: seq<Call>, i: nat, kind: Kind, signature: nat)
    requires i < |calls|
    ensures Gives(h, calls, i, kind, signature) <==> First(h, calls, i, kind, signature)
  {
    hide Edits, CycleKey;
    ReportsHold(h, calls, i);
    hide ReportsAt;
  }

  lemma ReportsHold(h: Hashes, calls: seq<Call>, i: nat)
    requires i < |calls|
    ensures Churning(calls, i) ==>
              (ChurnOf(calls[i].target.value, Edits(calls[..i + 1], calls[i].target.value)) in ReportsAt(h, calls, i)
               <==> First(h, calls, i, Churn, h.file(calls[i].target.value)))
    ensures Streaking(h, calls, i) ==>
              (StreakOf(calls[i - 1].tool, calls[i].errorLine) in ReportsAt(h, calls, i)
               <==> First(h, calls, i, ErrorStreak, h.call(calls[i - 1])))
    ensures Cycling(h, calls, i) ==>
              (CycleOf(calls[i - 3].tool, calls[i - 2].tool) in ReportsAt(h, calls, i)
               <==> First(h, calls, i, Cycle, CycleKey(h, h.call(calls[i - 3]), h.call(calls[i - 2]))))
  {
    hide First, Edits, CycleKey, Streaking, Cycling, Churning;
  }

  /** When files do not share a hash, churn is named exactly at a file's fourth edit. */
  lemma ChurnAtFourthEdit(h: Hashes, calls: seq<Call>, i: nat)
    requires i < |calls| && calls[i].target.Some?
    requires forall a, b :: h.file(a) == h.file(b) ==> a == b
    ensures Gives(h, calls, i, Churn, h.file(calls[i].target.value))
       <==> Edits(calls[..i + 1], calls[i].target.value) == FILE_CHURN
  {
    var file := calls[i].target.value;
    GivesIsFirst(h, calls, i, Churn, h.file(file));
    hide Gives;
    var n := Edits(calls[..i + 1], file);
    if n > FILE_CHURN {
      var j := NthEdit(calls, i + 1, file, FILE_CHURN);
      assert Completes(h, calls, j, Churn, h.file(file));
    }
    if n == FILE_CHURN {
      forall j | 0 <= j < i
        ensures !Completes(h, calls, j, Churn, h.file(file))
      {
        EarlierEdits(calls, j, i, file);
      }
    }
  }

  lemma {:induction false} NthEdit(calls: seq<Call>, k: nat, file: string, n: nat) returns (j: nat)
    requires k <= |calls| && 0 < n <= Edits(calls[..k], file)
    ensures j < k && calls[j].target == Some(file) && Edits(calls[..j + 1], file) == n
  {
    assert calls[..k][..k - 1] == calls[..k - 1];
    if calls[k - 1].target == Some(file) && Edits(calls[..k], file) == n {
      j := k - 1;
    } else {
      j := NthEdit(calls, k - 1, file, n);
    }
  }

  lemma {:induction false} EarlierEdits(calls: seq<Call>, j: nat, i: nat, file: string)
    requires j < i < |calls| && calls[i].target == Some(file)
    ensures Edits(calls[..j + 1], file) < Edits(calls[..i + 1], file)
  {
    assert calls[..i + 1][..i] == calls[..i];
    EditsGrow(calls, j + 1, i, file);
  }

  lemma {:induction false} EditsGrow(calls: seq<Call>, j: nat, i: nat, file: string)
    requires j <= i <= |calls|
    ensures Edits(calls[..j], file) <= Edits(calls[..i], file)
    decreases i
  {
    if j < i {
      assert calls[..i][..i - 1] == calls[..i - 1];
      EditsGrow(calls, j, i - 1, file);
    }
  }
}
