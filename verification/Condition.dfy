/** Completion conditions: an and/or tree over leaves the machine can settle and prose it
    cannot; what settling the machine's part decides, and reading the tree back from its
    tokens. */
module Condition {
  import opened Items
  import L = CommandLedger
  import W = Wildcard

  datatype Leaf =
    | TestsGreen(cmd: string)
    | FileExists(path: string)
    | OutputMatches(cmd: string, pattern: string)
    | NoEditsSinceVerify
    | TurnsLe(n: nat)
    | Prose(text: string)

  datatype Condition = And(parts: seq<Condition>) | Or(parts: seq<Condition>) | Is(leaf: Leaf)

  // ---- What a condition means ---------------------------------------------------------

  /** Truth, given what the machine finds of each machine leaf and which prose is true. */
  predicate Holds(c: Condition, machine: Leaf -> bool, prose: string -> bool) {
    match c
    case Is(Prose(text)) => prose(text)
    case Is(l) => machine(l)
    case And(parts) => forall i :: 0 <= i < |parts| ==> Holds(parts[i], machine, prose)
    case Or(parts) => exists i :: 0 <= i < |parts| && Holds(parts[i], machine, prose)
  }

  function Everything(): string -> bool {
    text => true
  }

  function Nothing(): string -> bool {
    text => false
  }

  function AllBut(left: string): string -> bool {
    text => text != left
  }

  /** More true prose never makes a condition false. */
  lemma {:induction false} HoldsGrows(c: Condition, machine: Leaf -> bool, less: string -> bool, more: string -> bool)
    requires forall text :: less(text) ==> more(text)
    requires Holds(c, machine, less)
    ensures Holds(c, machine, more)
  {
    match c {
      case Is(l) =>
      case And(parts) =>
        forall i | 0 <= i < |parts| ensures Holds(parts[i], machine, more) {
          HoldsGrows(parts[i], machine, less, more);
        }
      case Or(parts) =>
        var i :| 0 <= i < |parts| && Holds(parts[i], machine, less);
        HoldsGrows(parts[i], machine, less, more);
    }
  }

  // ---- Settling what the machine can ------------------------------------------------------

  datatype Partial = Partial(decided: Option<bool>, prose: seq<string>)

  /** What is decided of a run of parts, any one of which is enough to settle it as `stop`. */
  function Settle(parts: seq<Condition>, machine: Leaf -> bool, stop: bool): Partial
    decreases parts, |parts|
  {
    if parts == [] then Partial(Some(!stop), [])
    else Join(Settled(parts[0], machine), Settle(parts[1..], machine, stop), stop)
  }

  function Join(first: Partial, rest: Partial, stop: bool): Partial {
    if first.decided == Some(stop) || rest.decided == Some(stop) then Partial(Some(stop), [])
    else Partial(if first.decided.Some? then rest.decided else None, first.prose + rest.prose)
  }

  function Settled(c: Condition, machine: Leaf -> bool): Partial
    decreases c, 0
  {
    match c
    case Is(Prose(text)) => Partial(None, [text])
    case Is(l) => Partial(Some(machine(l)), [])
    case And(parts) => Settle(parts, machine, false)
    case Or(parts) => Settle(parts, machine, true)
  }

  /** What a settlement claims of a truth value `v` under the assignment `prose`. */
  ghost predicate Accounts(p: Partial, v: bool, prose: string -> bool) {
    && (p.decided.Some? ==> v == p.decided.value && p.prose == [])
    && (p.decided.None? ==> p.prose != [])
    && (p.decided.None? && (forall i :: 0 <= i < |p.prose| ==> prose(p.prose[i])) ==> v)
    && (p.decided.None? && (forall i :: 0 <= i < |p.prose| ==> !prose(p.prose[i])) ==> !v)
  }

  predicate Joined(stop: bool, v: bool, w: bool) {
    if stop then v || w else v && w
  }

  lemma JoinAccounts(first: Partial, rest: Partial, stop: bool, v: bool, w: bool, prose: string -> bool)
    requires Accounts(first, v, prose) && Accounts(rest, w, prose)
    ensures Accounts(Join(first, rest, stop), Joined(stop, v, w), prose)
  {
    var all := first.prose + rest.prose;
    assert forall i :: 0 <= i < |first.prose| ==> all[i] == first.prose[i];
    assert forall i :: 0 <= i < |rest.prose| ==> all[|first.prose| + i] == rest.prose[i];
  }

  /** The whole run's truth: all parts when `stop` is false, some part when it is true. */
  predicate RunHolds(parts: seq<Condition>, machine: Leaf -> bool, stop: bool, prose: string -> bool)
    decreases parts, |parts|
  {
    if parts == [] then !stop
    else Joined(stop, Holds(parts[0], machine, prose), RunHolds(parts[1..], machine, stop, prose))
  }

  lemma {:induction false} RunHoldsIs(parts: seq<Condition>, machine: Leaf -> bool, stop: bool, prose: string -> bool)
    ensures stop ==> (RunHolds(parts, machine, stop, prose) <==>
                        exists i :: 0 <= i < |parts| && Holds(parts[i], machine, prose))
    ensures !stop ==> (RunHolds(parts, machine, stop, prose) <==>
                         forall i :: 0 <= i < |parts| ==> Holds(parts[i], machine, prose))
    decreases |parts|
  {
    if parts != [] {
      var rest := parts[1..];
      RunHoldsIs(rest, machine, stop, prose);
      hide Holds;
      assert forall i :: 0 <= i < |rest| ==> rest[i] == parts[i + 1];
      assert forall i :: 0 < i < |parts| ==> parts[i] == rest[i - 1];
    }
  }

  lemma {:induction false} SettleAccounts(parts: seq<Condition>, machine: Leaf -> bool, stop: bool,
                                          prose: string -> bool)
    ensures Accounts(Settle(parts, machine, stop), RunHolds(parts, machine, stop, prose), prose)
    decreases parts, |parts|
  {
    if parts != [] {
      SettledAccounts(parts[0], machine, prose);
      SettleAccounts(parts[1..], machine, stop, prose);
      hide Holds, Settled, Accounts;
      JoinAccounts(Settled(parts[0], machine), Settle(parts[1..], machine, stop), stop,
                   Holds(parts[0], machine, prose), RunHolds(parts[1..], machine, stop, prose), prose);
    }
  }

  lemma {:induction false} SettledAccounts(c: Condition, machine: Leaf -> bool, prose: string -> bool)
    ensures Accounts(Settled(c, machine), Holds(c, machine, prose), prose)
    decreases c, 0
  {
    match c {
      case Is(Prose(text)) => assert [text][0] == text;
      case Is(l) =>
      case And(parts) =>
        SettleAccounts(parts, machine, false, prose);
        RunHoldsIs(parts, machine, false, prose);
      case Or(parts) =>
        SettleAccounts(parts, machine, true, prose);
        RunHoldsIs(parts, machine, true, prose);
    }
  }

  /** The machine's decision is exact: it decides a condition exactly when no judgement of the
      prose could change it, it decides it the way every judgement would, and it leaves prose
      to judge exactly when it does not decide. */
  lemma SettledIsExact(c: Condition, machine: Leaf -> bool)
    ensures var p := Settled(c, machine);
            && (p.decided.Some? <==> forall a: string -> bool, b: string -> bool ::
                                       Holds(c, machine, a) == Holds(c, machine, b))
            && (p.decided.Some? ==> forall a: string -> bool :: Holds(c, machine, a) == p.decided.value)
            && (p.decided.Some? <==> p.prose == [])
  {
    hide Holds, Settled;
    forall a: string -> bool
      ensures Accounts(Settled(c, machine), Holds(c, machine, a), a)
    {
      SettledAccounts(c, machine, a);
    }
    assert Accounts(Settled(c, machine), Holds(c, machine, Everything()), Everything());
    assert Accounts(Settled(c, machine), Holds(c, machine, Nothing()), Nothing());
    if Settled(c, machine).decided.None? {
      assert Holds(c, machine, Everything()) && !Holds(c, machine, Nothing());
    }
  }

  /** Judging every listed leaf true is enough, whatever is made of the rest. */
  lemma ListedProseSuffices(c: Condition, machine: Leaf -> bool, prose: string -> bool)
    requires Settled(c, machine).decided.None?
    requires forall i :: 0 <= i < |Settled(c, machine).prose| ==> prose(Settled(c, machine).prose[i])
    ensures Holds(c, machine, prose)
  {
    hide Holds, Settled;
    SettledAccounts(c, machine, prose);
  }

  // ---- The question the evaluator is asked ---------------------------------------------------

  /** The engine joins the listed leaves with "and" and asks whether that holds. */
  predicate Asked(c: Condition, machine: Leaf -> bool, prose: string -> bool) {
    forall i :: 0 <= i < |Settled(c, machine).prose| ==> prose(Settled(c, machine).prose[i])
  }

  /** A yes to the question is always a yes to the condition. The question is the condition
      itself exactly when each listed leaf is indispensable: false alone, it makes the
      condition false. An `or` with two open sides fails that test, and then the engine may
      go on working on a goal already met. */
  lemma QuestionIsFaithfulExactly(c: Condition, machine: Leaf -> bool)
    requires Settled(c, machine).decided.None?
    ensures (forall a: string -> bool :: Asked(c, machine, a) == Holds(c, machine, a))
       <==> forall i :: 0 <= i < |Settled(c, machine).prose| ==>
              !Holds(c, machine, AllBut(Settled(c, machine).prose[i]))
  {
    hide Holds, Settled;
    var listed := Settled(c, machine).prose;
    if forall a: string -> bool :: Asked(c, machine, a) == Holds(c, machine, a) {
      forall i | 0 <= i < |listed|
        ensures !Holds(c, machine, AllBut(listed[i]))
      {
        assert !AllBut(listed[i])(listed[i]);
        assert !Asked(c, machine, AllBut(listed[i]));
      }
    }
    if forall i :: 0 <= i < |listed| ==> !Holds(c, machine, AllBut(listed[i])) {
      forall a: string -> bool
        ensures Asked(c, machine, a) == Holds(c, machine, a)
      {
        if Asked(c, machine, a) {
          ListedProseSuffices(c, machine, a);
        } else {
          var i :| 0 <= i < |listed| && !a(listed[i]);
          if Holds(c, machine, a) { HoldsGrows(c, machine, a, AllBut(listed[i])); }
        }
      }
    }
  }

  /** The failing case, in small: either of two things would do, and one is done. */
  lemma OrIsAskedAsAnd(machine: Leaf -> bool, a: string, b: string)
    requires a != b
    ensures var c := Or([Is(Prose(a)), Is(Prose(b))]);
            && Settled(c, machine) == Partial(None, [a, b])
            && Holds(c, machine, AllBut(b)) && !Asked(c, machine, AllBut(b))
  {
    var x, y := Is(Prose(a)), Is(Prose(b));
    assert [x, y][1..] == [y] && [y][1..] == [];
    assert Settle([y], machine, true) == Partial(None, [b]);
    assert Settled(x, machine) == Partial(None, [a]);
    assert Settle([x, y], machine, true) == Partial(None, [a] + [b]);
    assert [a, b][1] == b;
    assert Holds([x, y][0], machine, AllBut(b));
  }

  // ---- The evaluator as the engine runs it ------------------------------------------------------

  /** What a machine leaf is resolved against. */
  class Oracle {
    const ledger: L.Ledger
    const fileExists: string -> bool
    const turns: nat
    const argv: string -> Option<seq<string>>

    constructor (ledger: L.Ledger, fileExists: string -> bool, turns: nat, argv: string -> Option<seq<string>>)
      ensures this.ledger == ledger && this.fileExists == fileExists && this.turns == turns && this.argv == argv
    {
      this.ledger, this.fileExists, this.turns, this.argv := ledger, fileExists, turns, argv;
    }

    /** The command's newest run exited zero and nothing was edited after it. */
    ghost predicate RanGreen(history: seq<L.Event>, cmd: string)
    {
      && argv(cmd).Some?
      && exists i: nat :: L.NewestRun(history, argv(cmd).value, i)
                          && history[i].exit == Some(0) && !L.EditedAfter(history, i)
    }

    /** And what it printed, as far as it was kept, matches. */
    ghost predicate RanMatching(history: seq<L.Event>, cmd: string, pattern: string)
    {
      && argv(cmd).Some?
      && exists i: nat :: L.NewestRun(history, argv(cmd).value, i)
                          && history[i].exit == Some(0) && !L.EditedAfter(history, i)
                          && L.Kept(history[i].output).Some?
                          && W.Matches(pattern, L.Kept(history[i].output).value, 0, 0)
    }

    /** What each machine leaf asserts about what actually happened. */
    ghost predicate Fact(history: seq<L.Event>, l: Leaf)
    {
      match l
      case TestsGreen(cmd) => RanGreen(history, cmd)
      case FileExists(path) => fileExists(path)
      case OutputMatches(cmd, pattern) => RanMatching(history, cmd, pattern)
      case NoEditsSinceVerify => exists i: nat :: L.VerifiedAt(history, i) && !L.EditedAfter(history, i)
      case TurnsLe(n) => turns <= n
      case Prose(_) => false
    }

    method MachineLeaf(l: Leaf) returns (r: bool)
      requires ledger.Valid()
      ensures r == Fact(ledger.history, l)
    {
      hide L.NewestRun, L.NeverRun, L.EditedAfter, L.Kept, L.Number, W.Matches;
      match l {
        case TestsGreen(cmd) =>
          r := false;
          if argv(cmd).Some? {
            L.NewestIsOnly(ledger.history, argv(cmd).value);
            SomeNewest(ledger.history, argv(cmd).value);
            var status := ledger.Status(argv(cmd).value);
            r := status.Green?;
          }
        case FileExists(path) => r := fileExists(path);
        case OutputMatches(cmd, pattern) =>
          r := false;
          if argv(cmd).Some? {
            L.NewestIsOnly(ledger.history, argv(cmd).value);
            SomeNewest(ledger.history, argv(cmd).value);
            var status := ledger.Status(argv(cmd).value);
            var output := ledger.Output(argv(cmd).value);
            if status.Green? && output.Some? {
              var matched, _ := W.Match(pattern, output.value);
              r := matched;
            }
          }
        case NoEditsSinceVerify => r := ledger.NoEditsSinceVerify();
        case TurnsLe(n) => r := turns <= n;
        case Prose(_) => r := false;
      }
    }

    ghost function Facts(history: seq<L.Event>): Leaf -> bool {
      l => Fact(history, l)
    }

    method EvaluateMachine(c: Condition) returns (p: Partial)
      requires ledger.Valid()
      ensures p == Settled(c, Facts(ledger.history))
      decreases c
    {
      ghost var facts := Facts(ledger.history);
      match c {
        case Is(Prose(text)) => return Partial(None, [text]);
        case Is(l) =>
          var decided := MachineLeaf(l);
          return Partial(Some(decided), []);
        case And(parts) =>
          p := EvaluateRun(parts, false);
        case Or(parts) =>
          p := EvaluateRun(parts, true);
      }
    }

    /** The loop of both operators: stop at the first part that settles the whole. */
    method EvaluateRun(parts: seq<Condition>, stop: bool) returns (p: Partial)
      requires ledger.Valid()
      ensures p == Settle(parts, Facts(ledger.history), stop)
      decreases parts
    {
      ghost var facts := Facts(ledger.history);
      hide Settled;
      var prose: seq<string> := [];
      var all := true;
      for i := 0 to |parts|
        invariant Settle(parts, facts, stop)
               == Join(Partial(if all then Some(!stop) else None, prose), Settle(parts[i..], facts, stop), stop)
        invariant all ==> prose == []
      {
        var r := EvaluateMachine(parts[i]);
        assert parts[i..][1..] == parts[i + 1..];
        if r.decided == Some(stop) {
          return Partial(Some(stop), []);
        }
        DecidedIsSilent(parts[i], facts);
        Assoc(prose, r.prose, Settle(parts[i + 1..], facts, stop).prose);
        if r.decided.None? { all := false; }
        prose := prose + r.prose;
      }
      assert parts[|parts|..] == [];
      assert prose + [] == prose;
      p := Partial(if all then Some(!stop) else None, prose);
    }
  }

  lemma SomeNewest(history: seq<L.Event>, argv: seq<string>)
    ensures !L.NeverRun(history, argv) ==> exists i: nat :: L.NewestRun(history, argv, i)
  {
    if !L.NeverRun(history, argv) { NewestFrom(history, argv, |history|); }
  }

  lemma {:induction false} NewestFrom(history: seq<L.Event>, argv: seq<string>, k: nat)
    requires k <= |history| && !L.NeverRun(history, argv)
    requires forall j :: k <= j < |history| ==> !L.IsRun(history[j], argv)
    ensures exists i: nat :: L.NewestRun(history, argv, i)
  {
    if k > 0 {
      if L.IsRun(history[k - 1], argv) { assert L.NewestRun(history, argv, k - 1); }
      else { NewestFrom(history, argv, k - 1); }
    }
  }

  lemma DecidedIsSilent(c: Condition, machine: Leaf -> bool)
    ensures Settled(c, machine).decided.Some? ==> Settled(c, machine).prose == []
  {
    SettledAccounts(c, machine, Nothing());
  }
}
