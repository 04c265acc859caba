/** What the parser makes of every token list, told from the tokens alone: exactly which lists
    are conditions, and that one drops none of its atoms. */
module ConditionTokens {
  import opened Condition
  import opened ConditionParser

  // ---- The tokens, left to right -------------------------------------------------------

  predicate EndsOperand(tok: Tok) {
    tok.Atom? || tok.RParen?
  }

  predicate StartsOperand(tok: Tok) {
    tok.Atom? || tok.LParen?
  }

  /** An operand starts at `k` right behind another, with no operator between them. */
  predicate SideAt(toks: seq<Tok>, k: nat) {
    0 < k < |toks| && EndsOperand(toks[k - 1]) && StartsOperand(toks[k])
  }

  ghost predicate SideBySide(toks: seq<Tok>) {
    exists k: nat :: SideAt(toks, k)
  }

  /** Parentheses opened less parentheses closed before `k`. */
  function Nesting(toks: seq<Tok>, k: nat): int
    requires k <= |toks|
  {
    if k == 0 then 0
    else Nesting(toks, k - 1) + if toks[k - 1].LParen? then 1 else if toks[k - 1].RParen? then -1 else 0
  }

  /** Some parenthesis closes nothing. */
  ghost predicate Unmatched(toks: seq<Tok>) {
    exists k: nat :: k <= |toks| && Nesting(toks, k) < 0
  }

  /** The operands from `k` on: the reading of every atom, and empty prose wherever one is expected
      and none comes. */
  function Operands(toks: seq<Tok>, k: nat, expecting: bool, leaf: Reader): seq<Leaf>
    requires k <= |toks|
    decreases |toks| - k
  {
    var missing := if expecting then [Prose("")] else [];
    if k == |toks| then missing
    else
      match toks[k]
      case Atom(text) => [leaf(text)] + Operands(toks, k + 1, false, leaf)
      case LParen => Operands(toks, k + 1, true, leaf)
      case RParen => missing + Operands(toks, k + 1, false, leaf)
      case _ => missing + Operands(toks, k + 1, true, leaf)
  }

  /** The leaves of a tree, left to right. */
  function LeavesOf(c: Condition): seq<Leaf>
    decreases c, 0
  {
    if c.Is? then [c.leaf] else LeavesAll(c.parts)
  }

  function LeavesAll(parts: seq<Condition>): seq<Leaf>
    decreases parts, |parts|
  {
    if parts == [] then [] else LeavesOf(parts[0]) + LeavesAll(parts[1..])
  }

  // ---- How far a parse reaches ----------------------------------------------------------

  /** Between `i` and `e` nothing closes what was opened before, and no operands touch. */
  predicate Clean(toks: seq<Tok>, i: nat, e: nat) {
    && i <= e <= |toks|
    && (forall k :: i <= k <= e ==> Nesting(toks, k) >= Nesting(toks, i))
    && (forall k :: i < k < e ==> !SideAt(toks, k))
  }

  /** A parse from `i` stops at the end, at a second operand, or at the level it began on. */
  predicate Stopped(toks: seq<Tok>, i: nat, e: nat)
    requires i <= e <= |toks|
  {
    e == |toks| || SideAt(toks, e) || Nesting(toks, e) == Nesting(toks, i)
  }

  /** What a parse from `i` to `e` that gave these leaves has read. */
  predicate Read(toks: seq<Tok>, i: nat, e: nat, expecting: bool, leaves: seq<Leaf>, leaf: Reader) {
    && Clean(toks, i, e) && Stopped(toks, i, e)
    && Operands(toks, i, expecting, leaf) == leaves + Operands(toks, e, false, leaf)
  }

  /** At `e` none of these tokens is left to take. */
  predicate Stuck(toks: seq<Tok>, e: nat, and: bool, or: bool) {
    e < |toks| && !SideAt(toks, e) ==>
      toks[e].RParen? || (and && toks[e].AndTok?) || (or && toks[e].OrTok?)
  }

  lemma CleanJoin(toks: seq<Tok>, i: nat, m: nat, e: nat)
    requires Clean(toks, i, m) && Clean(toks, m, e) && !SideAt(toks, m)
    ensures Clean(toks, i, e)
  {
    hide SideAt, Nesting;
  }

  lemma CleanEmpty(toks: seq<Tok>, i: nat)
    requires i <= |toks|
    ensures Clean(toks, i, i)
  {
    hide SideAt, Nesting;
  }

  lemma CleanOne(toks: seq<Tok>, i: nat)
    requires i < |toks| && !toks[i].RParen?
    ensures Clean(toks, i, i + 1)
  {
  }

  lemma NothingMore(toks: seq<Tok>, i: nat, leaf: Reader)
    requires i <= |toks|
    ensures Read(toks, i, i, false, [], leaf)
  {
    CleanEmpty(toks, i);
    assert [] + Operands(toks, i, false, leaf) == Operands(toks, i, false, leaf);
    hide *;
  }

  /** What was read, and behind it an operator and the operands it takes. */
  lemma ReadJoin(toks: seq<Tok>, i: nat, m: nat, e: nat, expecting: bool, a: seq<Leaf>, b: seq<Leaf>, leaf: Reader)
    requires Read(toks, i, m, expecting, a, leaf) && Read(toks, m, e, false, b, leaf)
    requires m < e ==> !SideAt(toks, m)
    ensures Read(toks, i, e, expecting, a + b, leaf)
  {
    hide Clean, Operands, Nesting;
    CleanBounds(toks, i, m);
    CleanBounds(toks, m, e);
    if m < e {
      CleanJoin(toks, i, m, e);
      EndsBefore(toks, m, e);
    }
    assert a + (b + Operands(toks, e, false, leaf)) == a + b + Operands(toks, e, false, leaf);
  }

  lemma CleanBounds(toks: seq<Tok>, i: nat, e: nat)
    requires Clean(toks, i, e)
    ensures i <= e <= |toks|
  {
    hide SideAt, Nesting;
  }

  lemma EndsBefore(toks: seq<Tok>, m: nat, e: nat)
    requires m < e <= |toks|
    ensures m != |toks|
  {
  }

  /** An operator in front of what was read. */
  lemma ReadOperator(toks: seq<Tok>, i: nat, e: nat, leaves: seq<Leaf>, leaf: Reader)
    requires i < |toks| && (toks[i].AndTok? || toks[i].OrTok?)
    requires Read(toks, i + 1, e, true, leaves, leaf)
    ensures Read(toks, i, e, false, leaves, leaf) && !SideAt(toks, i)
  {
    CleanOne(toks, i);
    CleanJoin(toks, i, i + 1, e);
    assert Nesting(toks, i + 1) == Nesting(toks, i);
    assert [] + Operands(toks, i + 1, true, leaf) == Operands(toks, i + 1, true, leaf);
    hide Clean, SideAt;
  }

  lemma {:induction false} AtomRead(toks: seq<Tok>, i: nat, leaf: Reader)
    requires i <= |toks|
    ensures var (c, e) := ParseAtom(toks, i, leaf);
            Read(toks, i, e, true, LeavesOf(c), leaf) && Stuck(toks, e, true, true)
    decreases |toks| - i, 0
  {
    hide *;
    AtomUnfolds(toks, i, leaf);
    if At(toks, i, LParen) {
      var (inner, next) := ParseOr(toks, i + 1, leaf);
      AtIs(toks, i, LParen);
      OrRead(toks, i + 1, leaf);
      ParenRead(toks, i, next, LeavesOf(inner), leaf);
    } else if i < |toks| && toks[i].Atom? {
      PlainRead(toks, i, leaf);
    } else {
      AtIs(toks, i, LParen);
      MissingRead(toks, i, leaf);
    }
  }

  lemma AtIs(toks: seq<Tok>, i: nat, tok: Tok)
    ensures At(toks, i, tok) <==> i < |toks| && toks[i] == tok
  {
  }

  lemma AtomUnfolds(toks: seq<Tok>, i: nat, leaf: Reader)
    requires i <= |toks|
    ensures ParseAtom(toks, i, leaf)
         == if At(toks, i, LParen) then
              var (inner, next) := ParseOr(toks, i + 1, leaf);
              (inner, if At(toks, next, RParen) then next + 1 else next)
            else if i < |toks| && toks[i].Atom? then (Is(leaf(toks[i].text)), i + 1)
            else (Is(Prose("")), i)
  {
    hide ParseOr;
  }

  lemma PlainRead(toks: seq<Tok>, i: nat, leaf: Reader)
    requires i < |toks| && toks[i].Atom?
    ensures Read(toks, i, i + 1, true, LeavesOf(Is(leaf(toks[i].text))), leaf) && Stuck(toks, i + 1, true, true)
  {
    CleanOne(toks, i);
    hide Clean;
  }

  lemma MissingRead(toks: seq<Tok>, i: nat, leaf: Reader)
    requires i <= |toks| && (i < |toks| ==> toks[i] != LParen && !toks[i].Atom?)
    ensures Read(toks, i, i, true, LeavesOf(Is(Prose(""))), leaf) && Stuck(toks, i, true, true)
  {
    CleanEmpty(toks, i);
    hide Clean, Nesting;
  }

  /** Behind an opening parenthesis, and past the one that closes it, if there is one. */
  lemma ParenRead(toks: seq<Tok>, i: nat, next: nat, leaves: seq<Leaf>, leaf: Reader)
    requires i < |toks| && toks[i].LParen?
    requires Read(toks, i + 1, next, true, leaves, leaf) && Stuck(toks, next, false, false)
    ensures var e := if At(toks, next, RParen) then next + 1 else next;
            Read(toks, i, e, true, leaves, leaf) && Stuck(toks, e, true, true)
  {
    CleanOne(toks, i);
    CleanJoin(toks, i, i + 1, next);
    assert Nesting(toks, i + 1) == Nesting(toks, i) + 1;
    if At(toks, next, RParen) {
      CleanClose(toks, i, next);
      assert [] + Operands(toks, next + 1, false, leaf) == Operands(toks, next + 1, false, leaf);
    }
    hide Clean;
  }

  lemma CleanClose(toks: seq<Tok>, i: nat, next: nat)
    requires Clean(toks, i, next) && next < |toks| && toks[next].RParen? && Nesting(toks, next) == Nesting(toks, i) + 1
    ensures Clean(toks, i, next + 1)
  {
  }

  lemma {:induction false} AndRead(toks: seq<Tok>, i: nat, leaf: Reader)
    requires i <= |toks|
    ensures var (c, e) := ParseAnd(toks, i, leaf);
            Read(toks, i, e, true, LeavesOf(c), leaf) && Stuck(toks, e, false, true)
    decreases |toks| - i, 2
  {
    hide *;
    var (first, next) := ParseAtom(toks, i, leaf);
    var (parts, end) := MoreAnd(toks, next, leaf);
    ParseAndUnfolds(toks, i, leaf);
    AtomRead(toks, i, leaf);
    MoreAndRead(toks, next, leaf);
    ReadJoin(toks, i, next, end, true, LeavesOf(first), LeavesAll(parts), leaf);
    OneLeaves(first, parts, false);
  }

  lemma {:induction false} MoreAndRead(toks: seq<Tok>, i: nat, leaf: Reader)
    requires i <= |toks| && Stuck(toks, i, true, true)
    ensures var (parts, e) := MoreAnd(toks, i, leaf);
            && Read(toks, i, e, false, LeavesAll(parts), leaf) && Stuck(toks, e, false, true)
            && (i < e ==> !SideAt(toks, i))
    decreases |toks| - i, 1
  {
    hide *;
    MoreAndUnfolds(toks, i, leaf);
    AtIs(toks, i, AndTok);
    if At(toks, i, AndTok) {
      var (c, next) := ParseAtom(toks, i + 1, leaf);
      var (parts, end) := MoreAnd(toks, next, leaf);
      AtomRead(toks, i + 1, leaf);
      MoreAndRead(toks, next, leaf);
      ReadJoin(toks, i + 1, next, end, true, LeavesOf(c), LeavesAll(parts), leaf);
      ReadOperator(toks, i, end, LeavesOf(c) + LeavesAll(parts), leaf);
      LeavesCons(c, parts);
    } else {
      NothingMore(toks, i, leaf);
      NoLeaves();
      StuckLess(toks, i, true, true, false, true);
    }
  }

  lemma MoreAndUnfolds(toks: seq<Tok>, i: nat, leaf: Reader)
    requires i <= |toks|
    ensures MoreAnd(toks, i, leaf)
         == if At(toks, i, AndTok) then
              var (c, next) := ParseAtom(toks, i + 1, leaf);
              var (parts, end) := MoreAnd(toks, next, leaf);
              ([c] + parts, end)
            else ([], i)
  {
    hide ParseAtom;
  }

  lemma MoreOrUnfolds(toks: seq<Tok>, i: nat, leaf: Reader)
    requires i <= |toks|
    ensures MoreOr(toks, i, leaf)
         == if At(toks, i, OrTok) then
              var (c, next) := ParseAnd(toks, i + 1, leaf);
              var (parts, end) := MoreOr(toks, next, leaf);
              ([c] + parts, end)
            else ([], i)
  {
    hide ParseAnd;
  }

  lemma StuckLess(toks: seq<Tok>, e: nat, and: bool, or: bool, and': bool, or': bool)
    requires Stuck(toks, e, and, or)
    requires e < |toks| && and && toks[e].AndTok? ==> and'
    requires e < |toks| && or && toks[e].OrTok? ==> or'
    ensures Stuck(toks, e, and', or')
  {
    hide SideAt;
  }

  lemma {:induction false} OrRead(toks: seq<Tok>, i: nat, leaf: Reader)
    requires i <= |toks|
    ensures var (c, e) := ParseOr(toks, i, leaf);
            Read(toks, i, e, true, LeavesOf(c), leaf) && Stuck(toks, e, false, false)
    decreases |toks| - i, 4
  {
    hide *;
    var (first, next) := ParseAnd(toks, i, leaf);
    var (parts, end) := MoreOr(toks, next, leaf);
    ParseOrUnfolds(toks, i, leaf);
    AndRead(toks, i, leaf);
    MoreOrRead(toks, next, leaf);
    ReadJoin(toks, i, next, end, true, LeavesOf(first), LeavesAll(parts), leaf);
    OneLeaves(first, parts, true);
  }

  lemma {:induction false} MoreOrRead(toks: seq<Tok>, i: nat, leaf: Reader)
    requires i <= |toks| && Stuck(toks, i, false, true)
    ensures var (parts, e) := MoreOr(toks, i, leaf);
            && Read(toks, i, e, false, LeavesAll(parts), leaf) && Stuck(toks, e, false, false)
            && (i < e ==> !SideAt(toks, i))
    decreases |toks| - i, 3
  {
    hide *;
    MoreOrUnfolds(toks, i, leaf);
    AtIs(toks, i, OrTok);
    if At(toks, i, OrTok) {
      var (c, next) := ParseAnd(toks, i + 1, leaf);
      var (parts, end) := MoreOr(toks, next, leaf);
      AndRead(toks, i + 1, leaf);
      MoreOrRead(toks, next, leaf);
      ReadJoin(toks, i + 1, next, end, true, LeavesOf(c), LeavesAll(parts), leaf);
      ReadOperator(toks, i, end, LeavesOf(c) + LeavesAll(parts), leaf);
      LeavesCons(c, parts);
    } else {
      NothingMore(toks, i, leaf);
      NoLeaves();
      StuckLess(toks, i, false, true, false, false);
    }
  }

  lemma OneLeaves(first: Condition, rest: seq<Condition>, or: bool)
    ensures LeavesOf(One([first] + rest, or)) == LeavesOf(first) + LeavesAll(rest)
  {
    LeavesCons(first, rest);
    if rest == [] { NoLeaves(); }
  }

  lemma LeavesCons(first: Condition, rest: seq<Condition>)
    ensures LeavesAll([first] + rest) == LeavesOf(first) + LeavesAll(rest)
  {
    hide LeavesOf;
    assert ([first] + rest)[1..] == rest;
  }

  lemma NoLeaves()
    ensures LeavesAll([]) == []
    ensures forall leaves: seq<Leaf> :: leaves + [] == leaves
  {
  }

  // ---- What every list parses to -----------------------------------------------------------

  /** A list is a condition exactly when no parenthesis closes nothing and no two operands stand
      side by side; the tree then holds the reading of every atom, in order, and empty prose for
      each operand missing. Any other list is prose, all of it. */
  lemma ParsesExactly(toks: seq<Tok>, text: string, leaf: Reader)
    ensures if Unmatched(toks) || SideBySide(toks) then Parse(toks, text, leaf) == Is(Prose(text))
            else LeavesOf(Parse(toks, text, leaf)) == Operands(toks, 0, true, leaf)
  {
    hide Operands, LeavesOf, ParseOr;
    var (c, e) := ParseOr(toks, 0, leaf);
    OrRead(toks, 0, leaf);
    assert Nesting(toks, 0) == 0;
    if e == |toks| {
      AllRead(toks, leaf);
      assert LeavesOf(c) + [] == LeavesOf(c);
    } else if !SideAt(toks, e) {
      assert Nesting(toks, e + 1) == -1;
    }
  }

  lemma AllRead(toks: seq<Tok>, leaf: Reader)
    requires Clean(toks, 0, |toks|)
    ensures !Unmatched(toks) && !SideBySide(toks) && Operands(toks, |toks|, false, leaf) == []
  {
  }
}
