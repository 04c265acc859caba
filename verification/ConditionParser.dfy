/** The condition parser: recursive descent over tokens, `or` loosest, `and` tighter, every
    input accepted. Printing a tree with no parenthesis it does not need and parsing it back
    gives the same tree. */
module ConditionParser {
  import opened Condition

  datatype Tok = LParen | RParen | AndTok | OrTok | Atom(text: string)

  /** How an atom is read; whatever is not recognised is prose. */
  type Reader = string -> Leaf

  // ---- Parsing ---------------------------------------------------------------------------

  predicate At(toks: seq<Tok>, i: nat, tok: Tok) {
    i < |toks| && toks[i] == tok
  }

  function One(parts: seq<Condition>, or: bool): Condition {
    if |parts| == 1 then parts[0] else if or then Or(parts) else And(parts)
  }

  function ParseOr(toks: seq<Tok>, i: nat, leaf: Reader): (r: (Condition, nat))
    requires i <= |toks|
    ensures i <= r.1 <= |toks|
    decreases |toks| - i, 4
  {
    var (first, next) := ParseAnd(toks, i, leaf);
    var (parts, end) := MoreOr(toks, next, leaf);
    (One([first] + parts, true), end)
  }

  /** The operands behind the first: each `or` takes one more. */
  function MoreOr(toks: seq<Tok>, i: nat, leaf: Reader): (r: (seq<Condition>, nat))
    requires i <= |toks|
    ensures i <= r.1 <= |toks|
    decreases |toks| - i, 3
  {
    if At(toks, i, OrTok) then
      var (c, next) := ParseAnd(toks, i + 1, leaf);
      var (parts, end) := MoreOr(toks, next, leaf);
      ([c] + parts, end)
    else ([], i)
  }

  function ParseAnd(toks: seq<Tok>, i: nat, leaf: Reader): (r: (Condition, nat))
    requires i <= |toks|
    ensures i <= r.1 <= |toks|
    decreases |toks| - i, 2
  {
    var (first, next) := ParseAtom(toks, i, leaf);
    var (parts, end) := MoreAnd(toks, next, leaf);
    (One([first] + parts, false), end)
  }

  function MoreAnd(toks: seq<Tok>, i: nat, leaf: Reader): (r: (seq<Condition>, nat))
    requires i <= |toks|
    ensures i <= r.1 <= |toks|
    decreases |toks| - i, 1
  {
    if At(toks, i, AndTok) then
      var (c, next) := ParseAtom(toks, i + 1, leaf);
      var (parts, end) := MoreAnd(toks, next, leaf);
      ([c] + parts, end)
    else ([], i)
  }

  function ParseAtom(toks: seq<Tok>, i: nat, leaf: Reader): (r: (Condition, nat))
    requires i <= |toks|
    ensures i <= r.1 <= |toks|
    decreases |toks| - i, 0
  {
    if At(toks, i, LParen) then
      var (inner, next) := ParseOr(toks, i + 1, leaf);
      (inner, if At(toks, next, RParen) then next + 1 else next)
    else if i < |toks| && toks[i].Atom? then (Is(leaf(toks[i].text)), i + 1)
    else (Is(Prose("")), i)
  }

  /** Trailing junk means this was never an expression: the whole text is prose. */
  function Parse(toks: seq<Tok>, text: string, leaf: Reader): Condition {
    var (c, rest) := ParseOr(toks, 0, leaf);
    if rest == |toks| then c else Is(Prose(text))
  }

  // ---- The loops the parser runs ------------------------------------------------------------

  method ParseOrLoop(toks: seq<Tok>, start: nat, leaf: Reader) returns (c: Condition, i: nat)
    requires start <= |toks|
    ensures (c, i) == ParseOr(toks, start, leaf)
    decreases |toks| - start, 2
  {
    var first;
    first, i := ParseAndLoop(toks, start, leaf);
    var parts := [first];
    ghost var more := MoreOr(toks, i, leaf);
    hide ParseAnd;
    while At(toks, i, OrTok)
      invariant start <= i <= |toks| && parts != []
      invariant parts + MoreOr(toks, i, leaf).0 == [first] + more.0
      invariant MoreOr(toks, i, leaf).1 == more.1
      decreases |toks| - i
    {
      var next, after := ParseAndLoop(toks, i + 1, leaf);
      AppendMoves(parts, next, MoreOr(toks, after, leaf).0);
      parts := parts + [next];
      i := after;
    }
    assert parts + [] == parts;
    c := One(parts, true);
  }

  method ParseAndLoop(toks: seq<Tok>, start: nat, leaf: Reader) returns (c: Condition, i: nat)
    requires start <= |toks|
    ensures (c, i) == ParseAnd(toks, start, leaf)
    decreases |toks| - start, 1
  {
    var first;
    first, i := ParseAtomStep(toks, start, leaf);
    var parts := [first];
    ghost var more := MoreAnd(toks, i, leaf);
    hide ParseAtom;
    while At(toks, i, AndTok)
      invariant start <= i <= |toks| && parts != []
      invariant parts + MoreAnd(toks, i, leaf).0 == [first] + more.0
      invariant MoreAnd(toks, i, leaf).1 == more.1
      decreases |toks| - i
    {
      var next, after := ParseAtomStep(toks, i + 1, leaf);
      AppendMoves(parts, next, MoreAnd(toks, after, leaf).0);
      parts := parts + [next];
      i := after;
    }
    assert parts + [] == parts;
    c := One(parts, false);
  }

  method ParseAtomStep(toks: seq<Tok>, start: nat, leaf: Reader) returns (c: Condition, i: nat)
    requires start <= |toks|
    ensures (c, i) == ParseAtom(toks, start, leaf)
    decreases |toks| - start, 0
  {
    if At(toks, start, LParen) {
      var inner, next := ParseOrLoop(toks, start + 1, leaf);
      c, i := inner, if At(toks, next, RParen) then next + 1 else next;
    } else if start < |toks| && toks[start].Atom? {
      c, i := Is(leaf(toks[start].text)), start + 1;
    } else {
      c, i := Is(Prose("")), start;
    }
  }

  lemma AppendMoves(parts: seq<Condition>, next: Condition, rest: seq<Condition>)
    ensures parts + ([next] + rest) == parts + [next] + rest
  {
  }

  // ---- Printing ------------------------------------------------------------------------------------

  /** Where a subtree stands: anywhere, under an `or`, or under an `and`. */
  datatype Place = Anywhere | UnderOr | UnderAnd

  /** A subtree needs parentheses under an operator that binds at least as tightly. */
  predicate NeedsParens(c: Condition, place: Place) {
    match place
    case Anywhere => false
    case UnderOr => c.Or?
    case UnderAnd => !c.Is?
  }

  function Print(c: Condition, place: Place, spell: Leaf -> string): seq<Tok>
    decreases c, 1
  {
    if NeedsParens(c, place) then [LParen] + Bare(c, spell) + [RParen] else Bare(c, spell)
  }

  function Bare(c: Condition, spell: Leaf -> string): seq<Tok>
    decreases c, 0
  {
    match c
    case Is(l) => [Atom(spell(l))]
    case And(parts) => PrintAll(parts, AndTok, UnderAnd, spell)
    case Or(parts) => PrintAll(parts, OrTok, UnderOr, spell)
  }

  function PrintAll(parts: seq<Condition>, op: Tok, place: Place, spell: Leaf -> string): seq<Tok>
    decreases parts, |parts|
  {
    if parts == [] then []
    else Print(parts[0], place, spell) + PrintMore(parts[1..], op, place, spell)
  }

  function PrintMore(parts: seq<Condition>, op: Tok, place: Place, spell: Leaf -> string): seq<Tok>
    decreases parts, |parts|
  {
    if parts == [] then []
    else [op] + Print(parts[0], place, spell) + PrintMore(parts[1..], op, place, spell)
  }

  /** Operators join at least two parts, and every leaf is read back from its spelling. */
  predicate Printable(c: Condition, leaf: Reader, spell: Leaf -> string) {
    match c
    case Is(l) => leaf(spell(l)) == l
    case And(parts) => |parts| >= 2 && forall i :: 0 <= i < |parts| ==> Printable(parts[i], leaf, spell)
    case Or(parts) => |parts| >= 2 && forall i :: 0 <= i < |parts| ==> Printable(parts[i], leaf, spell)
  }

  // ---- Parsing undoes printing ---------------------------------------------------------------

  predicate Reads(toks: seq<Tok>, i: nat, part: seq<Tok>) {
    i + |part| <= |toks| && toks[i..i + |part|] == part
  }

  lemma ReadsConcat(toks: seq<Tok>, i: nat, a: seq<Tok>, b: seq<Tok>)
    ensures Reads(toks, i, a + b) <==> Reads(toks, i, a) && Reads(toks, i + |a|, b)
  {
    if i + |a + b| <= |toks| {
      var whole := toks[i..i + |a + b|];
      assert whole[..|a|] == toks[i..i + |a|];
      assert whole[|a|..] == toks[i + |a|..i + |a| + |b|];
      assert whole == whole[..|a|] + whole[|a|..];
      if whole == a + b { assert whole[..|a|] == a && whole[|a|..] == b; }
    }
  }

  lemma ReadsOne(toks: seq<Tok>, i: nat, tok: Tok)
    ensures Reads(toks, i, [tok]) <==> At(toks, i, tok)
  {
    if i < |toks| { assert toks[i..i + 1] == [toks[i]]; }
  }

  /** A parenthesised subtree, read as an atom. */
  lemma {:induction false} AtomReads(c: Condition, toks: seq<Tok>, i: nat, leaf: Reader, spell: Leaf -> string)
    requires i <= |toks| && Printable(c, leaf, spell) && Reads(toks, i, Print(c, UnderAnd, spell))
    ensures ParseAtom(toks, i, leaf) == (c, i + |Print(c, UnderAnd, spell)|)
    decreases c, if c.Or? then 2 else 3
  {
    if c.Is? {
      ReadsOne(toks, i, Atom(spell(c.leaf)));
    } else {
      ParenReads(c, toks, i, leaf, spell);
    }
  }

  lemma {:induction false} ParenReads(c: Condition, toks: seq<Tok>, i: nat, leaf: Reader, spell: Leaf -> string)
    requires i <= |toks| && Printable(c, leaf, spell) && Reads(toks, i, [LParen] + Bare(c, spell) + [RParen])
    ensures ParseAtom(toks, i, leaf) == (c, i + |Bare(c, spell)| + 2)
    decreases c, if c.Or? then 2 else 3, 0
  {
    hide Printable, Bare, ParseOr;
    var bare := Bare(c, spell);
    ReadsConcat(toks, i, [LParen] + bare, [RParen]);
    ReadsConcat(toks, i, [LParen], bare);
    ReadsOne(toks, i, LParen);
    ReadsOne(toks, i + 1 + |bare|, RParen);
    OrReads(c, toks, i + 1, leaf, spell);
  }

  /** A subtree under `or`, read up to where no further `and` follows. */
  lemma {:induction false} AndReads(c: Condition, toks: seq<Tok>, i: nat, leaf: Reader, spell: Leaf -> string)
    requires i <= |toks| && Printable(c, leaf, spell) && Reads(toks, i, Print(c, UnderOr, spell))
    requires !At(toks, i + |Print(c, UnderOr, spell)|, AndTok)
    ensures ParseAnd(toks, i, leaf) == (c, i + |Print(c, UnderOr, spell)|)
    decreases c, if c.Or? then 3 else 1
  {
    match c {
      case Is(l) => ReadsOne(toks, i, Atom(spell(l)));
      case Or(_) => ParenReads(c, toks, i, leaf, spell);
      case And(_) => ProductReads(c, toks, i, leaf, spell);
    }
  }

  lemma {:induction false} ProductReads(c: Condition, toks: seq<Tok>, i: nat, leaf: Reader, spell: Leaf -> string)
    requires i <= |toks| && c.And? && Printable(c, leaf, spell) && Reads(toks, i, Bare(c, spell))
    requires !At(toks, i + |Bare(c, spell)|, AndTok)
    ensures ParseAnd(toks, i, leaf) == (c, i + |Bare(c, spell)|)
    decreases c, if c.Or? then 3 else 1, 0
  {
    hide *;
    var parts := c.parts;
    PrintableParts(c, leaf, spell);
    var first, rest := Print(parts[0], UnderAnd, spell), PrintMore(parts[1..], AndTok, UnderAnd, spell);
    PrintUnfolds(c, spell);
    ReadsConcat(toks, i, first, rest);
    ReadsFits(toks, i, first);
    AtomReads(parts[0], toks, i, leaf, spell);
    MoreAndReads(parts[1..], toks, i + |first|, leaf, spell);
    ParseAndUnfolds(toks, i, leaf);
    OneIs(parts);
  }

  lemma ReadsFits(toks: seq<Tok>, i: nat, part: seq<Tok>)
    requires Reads(toks, i, part)
    ensures i + |part| <= |toks|
  {
  }

  lemma ParseAndUnfolds(toks: seq<Tok>, i: nat, leaf: Reader)
    requires i <= |toks|
    ensures var (first, next) := ParseAtom(toks, i, leaf);
            var (rest, end) := MoreAnd(toks, next, leaf);
            ParseAnd(toks, i, leaf) == (One([first] + rest, false), end)
  {
    hide ParseAtom, MoreAnd;
  }

  lemma ParseOrUnfolds(toks: seq<Tok>, i: nat, leaf: Reader)
    requires i <= |toks|
    ensures var (first, next) := ParseAnd(toks, i, leaf);
            var (rest, end) := MoreOr(toks, next, leaf);
            ParseOr(toks, i, leaf) == (One([first] + rest, true), end)
  {
    hide ParseAnd, MoreOr;
  }

  lemma OneIs(parts: seq<Condition>)
    requires |parts| >= 2
    ensures One([parts[0]] + parts[1..], false) == And(parts) && One([parts[0]] + parts[1..], true) == Or(parts)
  {
    assert [parts[0]] + parts[1..] == parts;
  }

  lemma PrintUnfolds(c: Condition, spell: Leaf -> string)
    requires !c.Is? && c.parts != []
    ensures Bare(c, spell)
         == if c.And? then Print(c.parts[0], UnderAnd, spell) + PrintMore(c.parts[1..], AndTok, UnderAnd, spell)
            else Print(c.parts[0], UnderOr, spell) + PrintMore(c.parts[1..], OrTok, UnderOr, spell)
    ensures c.And? ==> Print(c, UnderOr, spell) == Bare(c, spell)
    ensures Print(c, Anywhere, spell) == Bare(c, spell)
  {
  }

  lemma PrintableParts(c: Condition, leaf: Reader, spell: Leaf -> string)
    requires !c.Is? && Printable(c, leaf, spell)
    ensures |c.parts| >= 2 && forall i :: 0 <= i < |c.parts| ==> Printable(c.parts[i], leaf, spell)
  {
  }

  lemma {:induction false} MoreAndReads(parts: seq<Condition>, toks: seq<Tok>, i: nat, leaf: Reader,
                                        spell: Leaf -> string)
    requires i <= |toks| && Reads(toks, i, PrintMore(parts, AndTok, UnderAnd, spell))
    requires forall k :: 0 <= k < |parts| ==> Printable(parts[k], leaf, spell)
    requires !At(toks, i + |PrintMore(parts, AndTok, UnderAnd, spell)|, AndTok)
    ensures MoreAnd(toks, i, leaf) == (parts, i + |PrintMore(parts, AndTok, UnderAnd, spell)|)
    decreases parts, |parts|
  {
    hide Printable, ParseAtom, Print;
    if parts != [] {
      var first, rest := Print(parts[0], UnderAnd, spell), PrintMore(parts[1..], AndTok, UnderAnd, spell);
      ReadsConcat(toks, i, [AndTok] + first, rest);
      ReadsConcat(toks, i, [AndTok], first);
      ReadsOne(toks, i, AndTok);
      AtomReads(parts[0], toks, i + 1, leaf, spell);
      MoreAndReads(parts[1..], toks, i + 1 + |first|, leaf, spell);
      assert [parts[0]] + parts[1..] == parts;
    }
  }

  /** A whole tree, read up to where neither operator follows. */
  lemma {:induction false} OrReads(c: Condition, toks: seq<Tok>, i: nat, leaf: Reader, spell: Leaf -> string)
    requires i <= |toks| && Printable(c, leaf, spell) && Reads(toks, i, Bare(c, spell))
    requires !At(toks, i + |Bare(c, spell)|, AndTok) && !At(toks, i + |Bare(c, spell)|, OrTok)
    ensures ParseOr(toks, i, leaf) == (c, i + |Bare(c, spell)|)
    decreases c, if c.Or? then 1 else 2
  {
    hide *;
    ParseOrUnfolds(toks, i, leaf);
    if c.Or? {
      var parts := c.parts;
      PrintableParts(c, leaf, spell);
      var first, rest := Print(parts[0], UnderOr, spell), PrintMore(parts[1..], OrTok, UnderOr, spell);
      PrintUnfolds(c, spell);
      ReadsConcat(toks, i, first, rest);
      ReadsFits(toks, i, first);
      FirstIsOperator(parts[1..], OrTok, UnderOr, spell, toks, i + |first|);
      AtOne(toks, i + |first|);
      AndReads(parts[0], toks, i, leaf, spell);
      MoreOrReads(parts[1..], toks, i + |first|, leaf, spell);
      OneIs(parts);
    } else {
      NoOrParens(c, spell);
      AndReads(c, toks, i, leaf, spell);
      NoMoreOr(toks, i + |Bare(c, spell)|, leaf, c);
    }
  }

  lemma AtOne(toks: seq<Tok>, i: nat)
    ensures At(toks, i, OrTok) ==> !At(toks, i, AndTok)
  {
  }

  lemma NoOrParens(c: Condition, spell: Leaf -> string)
    requires !c.Or?
    ensures Print(c, UnderOr, spell) == Bare(c, spell)
  {
    hide Bare;
  }

  lemma NoMoreOr(toks: seq<Tok>, i: nat, leaf: Reader, c: Condition)
    requires i <= |toks| && !At(toks, i, OrTok)
    ensures MoreOr(toks, i, leaf) == ([], i) && One([c] + [], true) == c
  {
    assert [c] + [] == [c];
  }

  /** What follows an operand starts with its operator, or ends the list. */
  lemma FirstIsOperator(parts: seq<Condition>, op: Tok, place: Place, spell: Leaf -> string, toks: seq<Tok>, i: nat)
    requires i <= |toks| && Reads(toks, i, PrintMore(parts, op, place, spell))
    ensures parts != [] ==> At(toks, i, op)
    ensures parts == [] ==> PrintMore(parts, op, place, spell) == []
  {
    hide Print;
    if parts != [] {
      var first, rest := Print(parts[0], place, spell), PrintMore(parts[1..], op, place, spell);
      ReadsConcat(toks, i, [op] + first, rest);
      ReadsConcat(toks, i, [op], first);
      ReadsOne(toks, i, op);
    }
  }

  lemma {:induction false} MoreOrReads(parts: seq<Condition>, toks: seq<Tok>, i: nat, leaf: Reader,
                                       spell: Leaf -> string)
    requires i <= |toks| && Reads(toks, i, PrintMore(parts, OrTok, UnderOr, spell))
    requires forall k :: 0 <= k < |parts| ==> Printable(parts[k], leaf, spell)
    requires !At(toks, i + |PrintMore(parts, OrTok, UnderOr, spell)|, AndTok)
    requires !At(toks, i + |PrintMore(parts, OrTok, UnderOr, spell)|, OrTok)
    ensures MoreOr(toks, i, leaf) == (parts, i + |PrintMore(parts, OrTok, UnderOr, spell)|)
    decreases parts, |parts|
  {
    hide Printable, ParseAnd, Print;
    if parts != [] {
      var first, rest := Print(parts[0], UnderOr, spell), PrintMore(parts[1..], OrTok, UnderOr, spell);
      ReadsConcat(toks, i, [OrTok] + first, rest);
      ReadsConcat(toks, i, [OrTok], first);
      ReadsOne(toks, i, OrTok);
      FirstIsOperator(parts[1..], OrTok, UnderOr, spell, toks, i + 1 + |first|);
      AndReads(parts[0], toks, i + 1, leaf, spell);
      MoreOrReads(parts[1..], toks, i + 1 + |first|, leaf, spell);
      assert [parts[0]] + parts[1..] == parts;
    }
  }

  /** Every tree printed with only the parentheses it needs parses back to itself, whatever
      text it came from. */
  lemma ParseOfPrint(c: Condition, text: string, leaf: Reader, spell: Leaf -> string)
    requires Printable(c, leaf, spell)
    ensures Parse(Print(c, Anywhere, spell), text, leaf) == c
  {
    hide Printable, ParseOr, Bare;
    var toks := Print(c, Anywhere, spell);
    assert toks[0..0 + |toks|] == toks;
    OrReads(c, toks, 0, leaf, spell);
  }

  // ---- What any input parses to --------------------------------------------------------------

  /** Operators join at least two parts. */
  predicate Proper(c: Condition) {
    c.Is? || (|c.parts| >= 2 && forall i :: 0 <= i < |c.parts| ==> Proper(c.parts[i]))
  }

  predicate AllProper(parts: seq<Condition>) {
    forall i :: 0 <= i < |parts| ==> Proper(parts[i])
  }

  lemma OneProper(first: Condition, rest: seq<Condition>, or: bool)
    requires Proper(first) && AllProper(rest)
    ensures Proper(One([first] + rest, or))
  {
    var parts := [first] + rest;
    assert forall i :: 1 <= i < |parts| ==> parts[i] == rest[i - 1];
  }

  lemma {:induction false} ParseOrProper(toks: seq<Tok>, i: nat, leaf: Reader)
    requires i <= |toks|
    ensures Proper(ParseOr(toks, i, leaf).0)
    decreases |toks| - i, 4
  {
    ParseAndProper(toks, i, leaf);
    var (first, next) := ParseAnd(toks, i, leaf);
    MoreOrProper(toks, next, leaf);
    hide Proper;
    OneProper(first, MoreOr(toks, next, leaf).0, true);
  }

  lemma {:induction false} MoreOrProper(toks: seq<Tok>, i: nat, leaf: Reader)
    requires i <= |toks|
    ensures AllProper(MoreOr(toks, i, leaf).0)
    decreases |toks| - i, 3
  {
    hide Proper;
    if At(toks, i, OrTok) {
      ParseAndProper(toks, i + 1, leaf);
      MoreOrProper(toks, ParseAnd(toks, i + 1, leaf).1, leaf);
    }
  }

  lemma {:induction false} ParseAndProper(toks: seq<Tok>, i: nat, leaf: Reader)
    requires i <= |toks|
    ensures Proper(ParseAnd(toks, i, leaf).0)
    decreases |toks| - i, 2
  {
    ParseAtomProper(toks, i, leaf);
    var (first, next) := ParseAtom(toks, i, leaf);
    MoreAndProper(toks, next, leaf);
    hide Proper;
    OneProper(first, MoreAnd(toks, next, leaf).0, false);
  }

  lemma {:induction false} MoreAndProper(toks: seq<Tok>, i: nat, leaf: Reader)
    requires i <= |toks|
    ensures AllProper(MoreAnd(toks, i, leaf).0)
    decreases |toks| - i, 1
  {
    hide Proper;
    if At(toks, i, AndTok) {
      ParseAtomProper(toks, i + 1, leaf);
      MoreAndProper(toks, ParseAtom(toks, i + 1, leaf).1, leaf);
    }
  }

  lemma {:induction false} ParseAtomProper(toks: seq<Tok>, i: nat, leaf: Reader)
    requires i <= |toks|
    ensures Proper(ParseAtom(toks, i, leaf).0)
    decreases |toks| - i, 0
  {
    if At(toks, i, LParen) { ParseOrProper(toks, i + 1, leaf); }
  }

  /** Any token list at all, junk included, parses to a proper tree. */
  lemma ParseIsProper(toks: seq<Tok>, text: string, leaf: Reader)
    ensures Proper(Parse(toks, text, leaf))
  {
    ParseOrProper(toks, 0, leaf);
  }

  // ---- `and` binds tighter ---------------------------------------------------------------------

  predicate Unparenthesised(toks: seq<Tok>) {
    LParen !in toks
  }

  predicate Product(c: Condition) {
    c.Is? || (c.And? && forall i :: 0 <= i < |c.parts| ==> c.parts[i].Is?)
  }

  predicate SumOfProducts(c: Condition) {
    Product(c) || (c.Or? && forall i :: 0 <= i < |c.parts| ==> Product(c.parts[i]))
  }

  predicate Leaves(parts: seq<Condition>) {
    forall k :: 0 <= k < |parts| ==> parts[k].Is?
  }

  lemma {:induction false} MoreAndLeaves(toks: seq<Tok>, i: nat, leaf: Reader)
    requires i <= |toks| && Unparenthesised(toks)
    ensures Leaves(MoreAnd(toks, i, leaf).0)
    decreases |toks| - i
  {
    hide ParseAtom, Unparenthesised;
    if At(toks, i, AndTok) {
      var (c, next) := ParseAtom(toks, i + 1, leaf);
      AtomIsLeaf(toks, i + 1, leaf);
      MoreAndLeaves(toks, next, leaf);
      var rest := MoreAnd(toks, next, leaf).0;
      assert forall k :: 1 <= k < |[c] + rest| ==> ([c] + rest)[k] == rest[k - 1];
      assert MoreAnd(toks, i, leaf).0 == [c] + rest;
    }
  }

  lemma AtomIsLeaf(toks: seq<Tok>, i: nat, leaf: Reader)
    requires i <= |toks| && Unparenthesised(toks)
    ensures ParseAtom(toks, i, leaf).0.Is?
  {
  }

  lemma OneProduct(first: Condition, rest: seq<Condition>)
    requires first.Is? && Leaves(rest)
    ensures Product(One([first] + rest, false))
  {
    var parts := [first] + rest;
    assert forall k :: 1 <= k < |parts| ==> parts[k] == rest[k - 1];
  }

  lemma AndIsProduct(toks: seq<Tok>, i: nat, leaf: Reader)
    requires i <= |toks| && Unparenthesised(toks)
    ensures Product(ParseAnd(toks, i, leaf).0)
  {
    hide *;
    var (first, next) := ParseAtom(toks, i, leaf);
    ParseAndUnfolds(toks, i, leaf);
    AtomIsLeaf(toks, i, leaf);
    MoreAndLeaves(toks, next, leaf);
    OneProduct(first, MoreAnd(toks, next, leaf).0);
  }

  predicate Products(parts: seq<Condition>) {
    forall k :: 0 <= k < |parts| ==> Product(parts[k])
  }

  lemma {:induction false} MoreOrProducts(toks: seq<Tok>, i: nat, leaf: Reader)
    requires i <= |toks| && Unparenthesised(toks)
    ensures Products(MoreOr(toks, i, leaf).0)
    decreases |toks| - i
  {
    hide Product, ParseAnd, Unparenthesised;
    if At(toks, i, OrTok) {
      AndIsProduct(toks, i + 1, leaf);
      MoreOrProducts(toks, ParseAnd(toks, i + 1, leaf).1, leaf);
    }
  }

  lemma OneSum(first: Condition, rest: seq<Condition>)
    requires Product(first) && Products(rest)
    ensures SumOfProducts(One([first] + rest, true))
  {
    hide Product;
    var parts := [first] + rest;
    assert forall k :: 1 <= k < |parts| ==> parts[k] == rest[k - 1];
  }

  /** Without parentheses a condition is an `or` of `and`s of leaves, never the other way. */
  lemma AndBindsTighter(toks: seq<Tok>, text: string, leaf: Reader)
    requires Unparenthesised(toks)
    ensures SumOfProducts(Parse(toks, text, leaf))
  {
    hide ParseOr, ParseAnd, MoreOr, Unparenthesised, One;
    var (first, next) := ParseAnd(toks, 0, leaf);
    ParseOrUnfolds(toks, 0, leaf);
    AndIsProduct(toks, 0, leaf);
    MoreOrProducts(toks, next, leaf);
    OneSum(first, MoreOr(toks, next, leaf).0);
  }
}
