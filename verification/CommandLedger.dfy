/** The harness's record of commands and edits: counters that stand for the plain history of
    what ran and what changed. */
module CommandLedger {
  import opened Items
  import HeldBuffer

  const LEDGER_OUTPUT_BYTES := 4096

  /** What the harness observed, in order. */
  datatype Event = Ran(argv: seq<string>, exit: Option<int>, output: string) | Edited

  datatype CommandRun = CommandRun(argv: seq<string>, exit: Option<int>, seqNo: nat, output: Option<string>)

  datatype RunStatus = Green(seqNo: nat) | Red(exit: Option<int>) | Stale | Unrun

  // ---- What a history means -----------------------------------------------------------

  /** A run of nothing is not a run. */
  predicate Counts(e: Event) {
    e.Edited? || e.argv != []
  }

  predicate IsRun(e: Event, argv: seq<string>) {
    e.Ran? && e.argv == argv && argv != []
  }

  predicate EditedAfter(history: seq<Event>, i: nat) {
    exists j :: i < j < |history| && history[j].Edited?
  }

  /** `i` is the newest run of `argv`. */
  predicate NewestRun(history: seq<Event>, argv: seq<string>, i: nat) {
    && i < |history| && IsRun(history[i], argv)
    && forall j :: i < j < |history| ==> !IsRun(history[j], argv)
  }

  predicate NeverRun(history: seq<Event>, argv: seq<string>) {
    forall i :: 0 <= i < |history| ==> !IsRun(history[i], argv)
  }

  /** The sequence number of the event at `i`: how many events counted up to it. */
  function Number(history: seq<Event>, i: nat): nat
    requires i <= |history|
  {
    if i == 0 then 0 else Number(history, i - 1) + (if Counts(history[i - 1]) then 1 else 0)
  }

  function Kept(output: string): Option<string> {
    if output == "" then None else Some(output[..HeldBuffer.Longest(output, LEDGER_OUTPUT_BYTES)])
  }

  /** The longest beginning within the limit. */
  predicate Clipped(output: string, kept: string) {
    && kept <= output && Bytes(kept) <= LEDGER_OUTPUT_BYTES
    && forall m :: |kept| < m <= |output| ==> Bytes(output[..m]) > LEDGER_OUTPUT_BYTES
  }

  lemma KeptIsClipped(output: string)
    ensures output == "" <==> Kept(output) == None
    ensures output != "" ==> Clipped(output, Kept(output).value)
  {
    hide Bytes, HeldBuffer.Longest;
    if output != "" {
      var n := HeldBuffer.Longest(output, LEDGER_OUTPUT_BYTES);
      forall m | n < m <= |output|
        ensures Bytes(output[..m]) > LEDGER_OUTPUT_BYTES
      {
        HeldBuffer.BytesGrow(output, n + 1, m);
      }
    }
  }

  lemma {:induction false} NumberGrows(history: seq<Event>, i: nat, j: nat)
    requires i <= j <= |history|
    ensures Number(history, i) <= Number(history, j)
    ensures i < j && Counts(history[j - 1]) ==> Number(history, i) < Number(history, j)
    decreases j
  {
    if i < j { NumberGrows(history, i, j - 1); }
  }

  lemma {:induction false} NumberPrefix(history: seq<Event>, e: Event, i: nat)
    requires i <= |history|
    ensures Number(history + [e], i) == Number(history, i)
    decreases i
  {
    if i > 0 { NumberPrefix(history, e, i - 1); }
  }

  // ---- The ledger -------------------------------------------------------------------------

  /** `run` is what was kept of the event at `i`. */
  predicate RunAt(history: seq<Event>, run: CommandRun, i: nat) {
    && i < |history| && history[i].Ran? && history[i].argv != []
    && run == CommandRun(history[i].argv, history[i].exit, Number(history, i + 1), Kept(history[i].output))
  }

  /** Run `k` of `runs` is the event at `at[k]`, and every run in the history is one of them. */
  ghost predicate Records(history: seq<Event>, runs: seq<CommandRun>, at: seq<nat>) {
    && |at| == |runs|
    && (forall k, l :: 0 <= k < l < |at| ==> at[k] < at[l])
    && (forall k :: 0 <= k < |at| ==> RunAt(history, runs[k], at[k]))
    && (forall i :: 0 <= i < |history| && history[i].Ran? && history[i].argv != [] ==> i in at)
  }

  /** `last` is the number of the newest edit, or zero. */
  ghost predicate LastEdit(history: seq<Event>, last: nat) {
    && (last == 0 <==> forall j :: 0 <= j < |history| ==> !history[j].Edited?)
    && (last > 0 ==> exists j: nat :: NewestEdit(history, j) && last == Number(history, j + 1))
  }

  predicate NewestEdit(history: seq<Event>, j: nat) {
    j < |history| && history[j].Edited? && forall m :: j < m < |history| ==> !history[m].Edited?
  }

  /** A number past the last edit's is the number of an event with no edit after it. */
  lemma NumbersTellEdits(history: seq<Event>, last: nat, i: nat)
    requires LastEdit(history, last) && i < |history| && Counts(history[i]) && !history[i].Edited?
    ensures Number(history, i + 1) > last <==> !EditedAfter(history, i)
  {
    NumberGrows(history, 0, i + 1);
    if last > 0 {
      var j: nat :| NewestEdit(history, j) && last == Number(history, j + 1);
      if i < j {
        NumberGrows(history, i + 1, j + 1);
      } else {
        NumberGrows(history, j + 1, i + 1);
      }
    }
  }

  lemma RunAtGrows(history: seq<Event>, e: Event, run: CommandRun, i: nat)
    requires RunAt(history, run, i)
    ensures RunAt(history + [e], run, i)
  {
    NumberPrefix(history, e, i + 1);
  }

  lemma RunAtEnd(history: seq<Event>, e: Event)
    requires e.Ran? && e.argv != []
    ensures RunAt(history + [e], CommandRun(e.argv, e.exit, Number(history, |history|) + 1, Kept(e.output)), |history|)
  {
    var next := NumbersOf(history, e);
    assert (history + [e])[|history|] == e;
  }

  lemma RecordsRun(history: seq<Event>, runs: seq<CommandRun>, at: seq<nat>, e: Event)
    requires Records(history, runs, at) && e.Ran? && e.argv != []
    ensures Records(history + [e],
                    runs + [CommandRun(e.argv, e.exit, Number(history, |history|) + 1, Kept(e.output))],
                    at + [|history|])
  {
    hide Number, Kept, RunAt;
    var more, all := history + [e], at + [|history|];
    RunAtEnd(history, e);
    forall k | 0 <= k < |at|
      ensures RunAt(more, runs[k], all[k]) && all[k] < |history|
    {
      RunAtGrows(history, e, runs[k], at[k]);
      RunAtIn(history, runs[k], at[k]);
    }
    AllCovered(history, at, e);
  }

  lemma RunAtIn(history: seq<Event>, run: CommandRun, i: nat)
    requires RunAt(history, run, i)
    ensures i < |history| && history[i].Ran? && history[i].argv == run.argv != []
    ensures history[i].exit == run.exit && run.seqNo == Number(history, i + 1)
    ensures run.output == Kept(history[i].output)
  {
    hide Number, Kept;
  }

  lemma AllCovered(history: seq<Event>, at: seq<nat>, e: Event)
    requires forall i :: 0 <= i < |history| && history[i].Ran? && history[i].argv != [] ==> i in at
    ensures forall i :: 0 <= i < |history + [e]| && (history + [e])[i].Ran? && (history + [e])[i].argv != [] ==>
                        i in at + [|history|]
  {
  }

  lemma NumbersOf(history: seq<Event>, e: Event) returns (next: nat)
    ensures forall i :: 0 <= i <= |history| ==> Number(history + [e], i) == Number(history, i)
    ensures next == Number(history + [e], |history| + 1)
         == Number(history, |history|) + (if Counts(e) then 1 else 0)
  {
    forall i | 0 <= i <= |history|
      ensures Number(history + [e], i) == Number(history, i)
    {
      NumberPrefix(history, e, i);
    }
    next := Number(history + [e], |history| + 1);
    assert (history + [e])[|history|] == e;
  }

  lemma RecordsOther(history: seq<Event>, runs: seq<CommandRun>, at: seq<nat>, e: Event)
    requires Records(history, runs, at) && (e.Edited? || e.argv == [])
    ensures Records(history + [e], runs, at)
  {
    hide RunAt;
    forall k | 0 <= k < |at| ensures RunAt(history + [e], runs[k], at[k]) { RunAtGrows(history, e, runs[k], at[k]); }
    assert forall i :: 0 <= i < |history| ==> (history + [e])[i] == history[i];
  }

  lemma LastEditKept(history: seq<Event>, last: nat, e: Event)
    requires LastEdit(history, last) && !e.Edited?
    ensures LastEdit(history + [e], last)
  {
    var more := history + [e];
    assert forall i :: 0 <= i < |history| ==> more[i] == history[i];
    if last > 0 {
      var j: nat :| NewestEdit(history, j) && last == Number(history, j + 1);
      NumberPrefix(history, e, j + 1);
      assert NewestEdit(more, j);
    }
  }

  lemma LastEditMoves(history: seq<Event>)
    ensures LastEdit(history + [Edited], Number(history, |history|) + 1)
  {
    var more := history + [Edited];
    NumberPrefix(history, Edited, |history|);
    assert more[|history|] == Edited;
    assert NewestEdit(more, |history|);
    assert Number(more, |history| + 1) == Number(history, |history|) + 1;
  }

  /** The runs of a history and the runs recorded are the same, in the same order. */
  lemma RunsRecorded(history: seq<Event>, runs: seq<CommandRun>, at: seq<nat>)
    requires Records(history, runs, at)
    ensures |at| == |runs| && forall k, l :: 0 <= k < l < |at| ==> at[k] < at[l]
    ensures forall k :: 0 <= k < |at| ==> RunAt(history, runs[k], at[k])
    ensures forall k :: 0 <= k < |at| ==>
              at[k] < |history| && history[at[k]].Ran? && history[at[k]].argv == runs[k].argv != []
    ensures forall i :: 0 <= i < |history| && history[i].Ran? && history[i].argv != [] ==>
              exists k :: 0 <= k < |at| && at[k] == i
  {
    hide Number, Kept, RunAt;
    forall k | 0 <= k < |at|
      ensures at[k] < |history| && history[at[k]].Ran? && history[at[k]].argv == runs[k].argv != []
    {
      RunAtIn(history, runs[k], at[k]);
    }
  }

  lemma NewestIsOnly(history: seq<Event>, argv: seq<string>)
    ensures forall i: nat, j: nat :: NewestRun(history, argv, i) && NewestRun(history, argv, j) ==> i == j
    ensures NeverRun(history, argv) ==> forall i: nat :: !NewestRun(history, argv, i)
    ensures forall i: nat ::
              NewestRun(history, argv, i) ==> i < |history| && history[i].Ran? && !NeverRun(history, argv)
  {
  }

  class Ledger {
    var runs: seq<CommandRun>
    var lastEditSeq: nat
    var nextSeq: nat
    ghost var history: seq<Event>
    ghost var at: seq<nat>

    ghost predicate Valid()
      reads this
    {
      && nextSeq == Number(history, |history|)
      && Records(history, runs, at)
      && LastEdit(history, lastEditSeq)
    }

    constructor ()
      ensures Valid() && history == []
    {
      runs, lastEditSeq, nextSeq := [], 0, 0;
      history, at := [], [];
    }

    method RecordRun(argv: seq<string>, exit: Option<int>, output: string)
      requires Valid()
      modifies this
      ensures Valid() && history == old(history) + [Ran(argv, exit, output)]
    {
      hide Records, LastEdit;
      ghost var e := Ran(argv, exit, output);
      NumberPrefix(history, e, |history|);
      LastEditKept(history, lastEditSeq, e);
      if argv == [] {
        RecordsOther(history, runs, at, e);
        history := history + [e];
        return;
      }
      RecordsRun(history, runs, at, e);
      nextSeq := nextSeq + 1;
      runs := runs + [CommandRun(argv, exit, nextSeq, Kept(output))];
      at, history := at + [|history|], history + [e];
    }

    method RecordEdit()
      requires Valid()
      modifies this
      ensures Valid() && history == old(history) + [Edited]
    {
      hide Records, LastEdit;
      NumberPrefix(history, Edited, |history|);
      LastEditMoves(history);
      RecordsOther(history, runs, at, Edited);
      nextSeq := nextSeq + 1;
      lastEditSeq := nextSeq;
      history := history + [Edited];
    }

    /** Index in `runs` of the newest run of `argv`. */
    method Newest(argv: seq<string>) returns (found: Option<nat>)
      requires Valid()
      ensures found.None? <==> NeverRun(history, argv)
      ensures found.Some? ==> found.value < |runs| && NewestRun(history, argv, at[found.value])
    {
      hide Number, Kept, LastEdit, Records, RunAt;
      RunsRecorded(history, runs, at);
      var k := |runs|;
      while k > 0
        invariant 0 <= k <= |runs|
        invariant forall m :: k <= m < |runs| ==> runs[m].argv != argv
      {
        k := k - 1;
        if runs[k].argv == argv {
          assert NewestRun(history, argv, at[k]);
          return Some(k);
        }
      }
      found := None;
    }

    /** Green exactly when the newest run of this command exited zero with no edit since;
        stale when there was an edit since; red with its own exit otherwise. */
    method Status(argv: seq<string>) returns (status: RunStatus)
      requires Valid()
      ensures status == Unrun <==> NeverRun(history, argv)
      ensures forall i: nat :: NewestRun(history, argv, i) ==>
                && (status.Green? <==> history[i].exit == Some(0) && !EditedAfter(history, i))
                && (status.Stale? <==> history[i].exit == Some(0) && EditedAfter(history, i))
                && (status.Red? <==> history[i].exit != Some(0))
                && (status.Red? ==> status.exit == history[i].exit)
                && (status.Green? ==> status.seqNo == Number(history, i + 1))
    {
      hide Number, Kept, EditedAfter, LastEdit, Records, RunAt, NewestRun, NeverRun;
      var found := Newest(argv);
      NewestIsOnly(history, argv);
      RunsRecorded(history, runs, at);
      if found.None? { return Unrun; }
      var run := runs[found.value];
      ghost var i := at[found.value];
      RunAtIn(history, run, i);
      NumbersTellEdits(history, lastEditSeq, i);
      match run.exit {
        case Some(0) => status := if run.seqNo > lastEditSeq then Green(run.seqNo) else Stale;
        case other => status := Red(other);
      }
    }

    /** What the newest run of this command printed, if anything, cut to the limit and no shorter. */
    method Output(argv: seq<string>) returns (output: Option<string>)
      requires Valid()
      ensures NeverRun(history, argv) ==> output == None
      ensures forall i: nat :: NewestRun(history, argv, i) ==> output == Kept(history[i].output)
      ensures forall i: nat :: NewestRun(history, argv, i) ==>
                && (output == None <==> history[i].output == "")
                && (output.Some? ==> Clipped(history[i].output, output.value))
    {
      forall text: string
        ensures text == "" <==> Kept(text) == None
        ensures Kept(text).Some? ==> Clipped(text, Kept(text).value)
      {
        KeptIsClipped(text);
      }
      hide Clipped;
      hide Number, Kept, EditedAfter, LastEdit, Records, RunAt, NewestRun, NeverRun;
      var found := Newest(argv);
      NewestIsOnly(history, argv);
      RunsRecorded(history, runs, at);
      if found.None? { return None; }
      RunAtIn(history, runs[found.value], at[found.value]);
      output := runs[found.value].output;
    }

    /** Some run exited zero and nothing was edited after it. */
    method NoEditsSinceVerify() returns (still: bool)
      requires Valid()
      ensures still <==> exists i: nat :: VerifiedAt(history, i) && !EditedAfter(history, i)
    {
      hide Number, Kept, EditedAfter, LastEdit;
      for k := 0 to |runs|
        invariant forall m :: 0 <= m < k ==> !(runs[m].exit == Some(0) && runs[m].seqNo > lastEditSeq)
      {
        NumbersTellEdits(history, lastEditSeq, at[k]);
        if runs[k].exit == Some(0) && runs[k].seqNo > lastEditSeq {
          assert VerifiedAt(history, at[k]);
          return true;
        }
      }
      still := false;
      forall i | VerifiedAt(history, i)
        ensures EditedAfter(history, i)
      {
        assert i in at;
        var m :| 0 <= m < |at| && at[m] == i;
        NumbersTellEdits(history, lastEditSeq, i);
      }
    }
  }

  predicate VerifiedAt(history: seq<Event>, i: nat) {
    i < |history| && history[i].Ran? && history[i].argv != [] && history[i].exit == Some(0)
  }
}
