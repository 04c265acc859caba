/** Joined Rust and the lexer: a maximal-munch lexer over words, operators, punctuation and string
    literals gets the kept tokens again from the joined text exactly when no word touches a
    literal that takes it up, and no separator could be dropped. */
module Relex {
  import opened Items
  import opened SourceTokens
  import opened Join
  import opened SourceMap

  // ---- The lexer ------------------------------------------------------------------------

  datatype Class = Word | Op | Blank | Quote | Punctuation

  const QUOTE := '"'
  const ESCAPE := '\\'

  /** What varies between readers: which characters beyond ASCII are letters, which words a string
      literal right behind them takes up as its prefix (since the 2021 edition every word is one,
      most of them in error), which of these make it raw, and whether a literal takes up a word
      right behind it as its suffix (chapter "Tokens" of the Rust Reference, sections "Suffixes"
      and "Reserved prefixes"). */
  datatype Dialect = Dialect(letter: char -> bool, prefix: string -> bool, raw: string -> bool, suffixes: bool)

  function ClassOf(c: char, letter: char -> bool): Class {
    if White(c) then Blank
    else if Wordy(c, letter) then Word
    else if Operator(c) then Op
    else if c == QUOTE then Quote
    else Punctuation
  }

  /** How far a run of one class reaches. */
  function RunLength(text: string, kind: Class, letter: char -> bool): (n: nat)
    ensures n <= |text|
    ensures forall i :: 0 <= i < n ==> ClassOf(text[i], letter) == kind
    ensures n < |text| ==> ClassOf(text[n], letter) != kind
  {
    if text == "" || ClassOf(text[0], letter) != kind then 0
    else
      var n := RunLength(text[1..], kind, letter);
      assert forall i :: 1 <= i < |text| ==> text[i] == text[1..][i - 1];
      1 + n
  }

  /** How far a literal's body reaches, its closing quote included. */
  function BodyLength(text: string, raw: bool): (n: nat)
    ensures n <= |text|
    decreases |text|
  {
    if text == "" then 0
    else if text[0] == QUOTE then 1
    else if !raw && text[0] == ESCAPE && |text| > 1 then 2 + BodyLength(text[2..], raw)
    else 1 + BodyLength(text[1..], raw)
  }

  /** The closing quote is there. */
  predicate Closes(text: string, raw: bool)
    decreases |text|
  {
    && text != ""
    && (text[0] == QUOTE
        || if !raw && text[0] == ESCAPE then |text| > 1 && Closes(text[2..], raw) else Closes(text[1..], raw))
  }

  /** How far a word reaches, if a literal behind it takes it up as its prefix. */
  function Opening(text: string, d: Dialect): (n: Option<nat>)
    ensures n.Some? ==> n.value < |text| && text[n.value] == QUOTE
  {
    var n := RunLength(text, Word, d.letter);
    if n < |text| && text[n] == QUOTE && (n == 0 || d.prefix(text[..n])) then Some(n) else None
  }

  /** Where the literal ends whose quote is at `n`, its suffix not counted. */
  function BodyEnd(text: string, n: nat, d: Dialect): (m: nat)
    requires n < |text| && text[n] == QUOTE
    ensures n < m <= |text|
  {
    n + 1 + BodyLength(text[n + 1..], n > 0 && d.raw(text[..n]))
  }

  function LiteralLength(text: string, n: nat, d: Dialect): (m: nat)
    requires n < |text| && text[n] == QUOTE
    ensures 0 < m <= |text|
  {
    var m := BodyEnd(text, n, d);
    if d.suffixes then m + RunLength(text[m..], Word, d.letter) else m
  }

  /** The longest token at the front of `text`. */
  function Munch(text: string, d: Dialect): (n: nat)
    requires text != ""
    ensures 0 < n <= |text|
  {
    var kind, quote := ClassOf(text[0], d.letter), Opening(text, d);
    if quote.Some? then LiteralLength(text, quote.value, d)
    else if kind == Word || kind == Op then RunLength(text, kind, d.letter)
    else 1
  }

  function Lex(text: string, d: Dialect): seq<string>
    decreases |text|
  {
    if text == "" then []
    else if ClassOf(text[0], d.letter) == Blank then Lex(text[1..], d)
    else
      var n := Munch(text, d);
      [text[..n]] + Lex(text[n..], d)
  }

  /** What the lexer could have produced: a run of one class, one mark of punctuation, or a
      closed literal. */
  predicate Lexeme(text: string, d: Dialect) {
    && text != "" && ClassOf(text[0], d.letter) != Blank
    && Munch(text, d) == |text|
    && var quote := Opening(text, d);
       quote.Some? ==> Closes(text[quote.value + 1..], quote.value > 0 && d.raw(text[..quote.value]))
  }

  // ---- Lexing a longer text ---------------------------------------------------------------

  lemma {:induction false} RunIs(text: string, kind: Class, n: nat, letter: char -> bool)
    requires n <= |text| && forall i :: 0 <= i < n ==> ClassOf(text[i], letter) == kind
    requires n < |text| ==> ClassOf(text[n], letter) != kind
    ensures RunLength(text, kind, letter) == n
    decreases n
  {
    hide ClassOf;
    if n > 0 { RunIs(text[1..], kind, n - 1, letter); }
  }

  /** A run that ends inside a text ends there whatever follows; one that does not, runs on if
      what follows is of its class. */
  lemma RunBehind(text: string, more: string, kind: Class, letter: char -> bool)
    ensures var n, m := RunLength(text, kind, letter), RunLength(text + more, kind, letter);
            && (n < |text| ==> m == n)
            && (n == |text| ==> m >= n)
            && (n == |text| ==> (m == n <==> more == "" || ClassOf(more[0], letter) != kind))
  {
    hide ClassOf;
    var all, n := text + more, RunLength(text, kind, letter);
    assert forall i :: 0 <= i < |text| ==> all[i] == text[i];
    if n < |text| {
      RunIs(all, kind, n, letter);
    } else {
      var k := RunLength(more, kind, letter);
      assert forall i :: 0 <= i < |more| ==> all[|text| + i] == more[i];
      forall i | 0 <= i < n + k
        ensures ClassOf(all[i], letter) == kind
      {
        if i >= n { assert all[i] == more[i - n]; }
      }
      RunIs(all, kind, n + k, letter);
    }
  }

  lemma {:induction false} BodyBehind(text: string, more: string, raw: bool)
    requires Closes(text, raw)
    ensures BodyLength(text + more, raw) == BodyLength(text, raw)
    decreases |text|
  {
    var all := text + more;
    assert all[0] == text[0];
    if text[0] != QUOTE {
      if !raw && text[0] == ESCAPE {
        assert all[2..] == text[2..] + more;
        BodyBehind(text[2..], more, raw);
      } else {
        assert all[1..] == text[1..] + more;
        BodyBehind(text[1..], more, raw);
      }
    }
  }

  /** The token goes on into what follows it: a word into a word, an operator into an operator, a
      prefix into its literal, a literal into its suffix. */
  predicate RunsOn(tok: string, more: string, d: Dialect)
    requires tok != ""
  {
    more != "" &&
    match ClassOf(more[0], d.letter)
    case Word => (if Opening(tok, d).Some? then d.suffixes else ClassOf(tok[0], d.letter) == Word)
    case Op => Opening(tok, d).None? && ClassOf(tok[0], d.letter) == Op
    case Quote => Opening(tok, d).None? && ClassOf(tok[0], d.letter) == Word && d.prefix(tok)
    case _ => false
  }

  lemma OpeningKept(tok: string, more: string, d: Dialect)
    requires tok != "" && Opening(tok, d).Some?
    ensures Opening(tok + more, d) == Opening(tok, d)
  {
    hide ClassOf;
    var all, n := tok + more, Opening(tok, d).value;
    RunBehind(tok, more, Word, d.letter);
    assert all[..n] == tok[..n] && all[n] == tok[n];
  }

  lemma BodyEndKept(tok: string, more: string, n: nat, d: Dialect)
    requires n < |tok| && tok[n] == QUOTE && Closes(tok[n + 1..], n > 0 && d.raw(tok[..n]))
    ensures (tok + more)[n] == QUOTE && BodyEnd(tok + more, n, d) == BodyEnd(tok, n, d)
  {
    var all := tok + more;
    assert all[..n] == tok[..n] && all[n] == tok[n];
    assert all[n + 1..] == tok[n + 1..] + more;
    BodyBehind(tok[n + 1..], more, n > 0 && d.raw(tok[..n]));
  }

  /** A literal runs on into a suffix, and into nothing else. */
  lemma LiteralBehind(tok: string, more: string, d: Dialect)
    requires Lexeme(tok, d) && Opening(tok, d).Some?
    ensures Munch(tok + more, d) >= |tok|
    ensures Munch(tok + more, d) == |tok| <==> !RunsOn(tok, more, d)
  {
    var all, n := tok + more, Opening(tok, d).value;
    OpeningKept(tok, more, d);
    BodyEndKept(tok, more, n, d);
    var m := BodyEnd(tok, n, d);
    LiteralMunch(tok, n, d);
    LiteralMunch(all, n, d);
    hide *;
    assert all[m..] == tok[m..] + more;
    RunBehind(tok[m..], more, Word, d.letter);
    LiteralRunsOn(tok, more, d);
  }

  lemma LiteralMunch(text: string, n: nat, d: Dialect)
    requires text != "" && Opening(text, d) == Some(n)
    ensures var m := BodyEnd(text, n, d);
            Munch(text, d) == if d.suffixes then m + RunLength(text[m..], Word, d.letter) else m
  {
    hide BodyEnd, Opening, ClassOf;
  }

  lemma LiteralRunsOn(tok: string, more: string, d: Dialect)
    requires tok != "" && Opening(tok, d).Some?
    ensures RunsOn(tok, more, d) <==> d.suffixes && more != "" && ClassOf(more[0], d.letter) == Word
  {
    hide Opening, ClassOf;
  }

  lemma PlainBehind(tok: string, more: string, d: Dialect)
    requires Lexeme(tok, d) && Opening(tok, d).None?
    ensures Munch(tok + more, d) >= |tok|
    ensures Munch(tok + more, d) == |tok| <==> !RunsOn(tok, more, d)
  {
    RunStarts(tok, d);
    if more == "" {
      assert tok + more == tok;
    } else if ClassOf(tok[0], d.letter) == Word {
      WordBehind(tok, more, d);
    } else {
      MarkBehind(tok, more, d);
    }
  }

  /** A word runs on into a word, and into a literal it is the prefix of. */
  lemma WordBehind(tok: string, more: string, d: Dialect)
    requires Lexeme(tok, d) && Opening(tok, d).None? && ClassOf(tok[0], d.letter) == Word && more != ""
    ensures Munch(tok + more, d) >= |tok|
    ensures Munch(tok + more, d) == |tok| <==> !RunsOn(tok, more, d)
  {
    hide ClassOf, LiteralLength, Lexeme;
    var all := tok + more;
    LexemeMunches(tok, d);
    assert all[0] == tok[0] && all[|tok|] == more[0] && all[..|tok|] == tok;
    RunBehind(tok, more, Word, d.letter);
    QuoteClass(d.letter);
    var m := RunLength(all, Word, d.letter);
    if m < |all| && all[m] == QUOTE { LiteralIsLonger(all, m, d); }
  }

  lemma LexemeMunches(tok: string, d: Dialect)
    requires Lexeme(tok, d)
    ensures tok != "" && Munch(tok, d) == |tok|
  {
    hide Munch, Opening, Closes, ClassOf;
  }

  /** An operator runs on into an operator; a mark of punctuation into nothing. */
  lemma MarkBehind(tok: string, more: string, d: Dialect)
    requires Lexeme(tok, d) && Opening(tok, d).None? && ClassOf(tok[0], d.letter) != Word && more != ""
    ensures Munch(tok + more, d) >= |tok|
    ensures Munch(tok + more, d) == |tok| <==> !RunsOn(tok, more, d)
  {
    hide ClassOf, LiteralLength, Lexeme, Opening;
    var all := tok + more;
    LexemeMunches(tok, d);
    assert all[0] == tok[0];
    RunBehind(tok, more, ClassOf(tok[0], d.letter), d.letter);
    RunStarts(tok, d);
    RunStarts(all, d);
  }

  lemma LiteralIsLonger(text: string, n: nat, d: Dialect)
    requires n < |text| && text[n] == QUOTE
    ensures LiteralLength(text, n, d) > n
  {
    hide ClassOf;
  }

  lemma RunStarts(text: string, d: Dialect)
    requires text != ""
    ensures ClassOf(text[0], d.letter) != Word <==> RunLength(text, Word, d.letter) == 0
    ensures text[0] == QUOTE ==> Opening(text, d).Some?
    ensures ClassOf(text[0], d.letter) != Word && text[0] != QUOTE ==> Opening(text, d).None?
  {
    QuoteClass(d.letter);
    hide ClassOf;
  }

  lemma QuoteClass(letter: char -> bool)
    ensures forall c: char :: ClassOf(c, letter) == Quote ==> c == QUOTE
    ensures ClassOf(QUOTE, letter) == Quote
  {
    OperatorsAreNoWords(QUOTE, letter);
  }

  /** A token at the front of a text is read as it stands exactly when it does not run on. */
  lemma FrontReads(tok: string, more: string, d: Dialect)
    requires Lexeme(tok, d)
    ensures !RunsOn(tok, more, d) ==> Lex(tok + more, d) == [tok] + Lex(more, d)
    ensures RunsOn(tok, more, d) ==> Lex(tok + more, d) != [] && Lex(tok + more, d)[0] != tok
  {
    if Opening(tok, d).Some? { LiteralBehind(tok, more, d); } else { PlainBehind(tok, more, d); }
    hide ClassOf, Munch, RunsOn, Opening, Closes;
    var all := tok + more;
    assert all[0] == tok[0];
    var n := Munch(all, d);
    assert Lex(all, d) == [all[..n]] + Lex(all[n..], d);
    assert n == |tok| ==> all[..n] == tok && all[n..] == more;
    assert |all[..n]| == n;
  }

  lemma SpaceIsBlank(more: string, d: Dialect)
    ensures ClassOf(' ', d.letter) == Blank
    ensures Lex(" " + more, d) == Lex(more, d)
  {
    hide Munch;
    assert (" " + more)[1..] == more;
  }

  lemma OperatorsAreNoWords(c: char, letter: char -> bool)
    ensures Operator(c) ==> !Wordy(c, letter) && !White(c)
  {
  }

  // ---- Where tokens would merge ------------------------------------------------------------

  /** A literal takes up the word behind it, or a word the literal behind it, and the joiner puts
      nothing between them. */
  predicate Merges(prev: string, next: string, d: Dialect) {
    && prev != "" && next != ""
    && (|| (d.suffixes && prev[|prev| - 1] == QUOTE && Wordy(next[0], d.letter))
        || (next[0] == QUOTE && Opening(prev, d).None? && ClassOf(prev[0], d.letter) == Word && d.prefix(prev)))
  }

  lemma {:induction false} ClosesOnQuote(text: string, raw: bool)
    requires Closes(text, raw)
    ensures 0 < BodyLength(text, raw) <= |text| && text[BodyLength(text, raw) - 1] == QUOTE
    decreases |text|
  {
    if text[0] != QUOTE {
      if !raw && text[0] == ESCAPE { ClosesOnQuote(text[2..], raw); } else { ClosesOnQuote(text[1..], raw); }
    }
  }

  /** The last character tells what a token is. */
  lemma LexemeEnds(tok: string, d: Dialect)
    requires Lexeme(tok, d)
    ensures var last := tok[|tok| - 1];
            if Opening(tok, d).Some? then last == QUOTE || (d.suffixes && ClassOf(last, d.letter) == Word)
            else last != QUOTE && ClassOf(last, d.letter) == ClassOf(tok[0], d.letter)
  {
    RunStarts(tok, d);
    QuoteClass(d.letter);
    var quote := Opening(tok, d);
    if quote.Some? {
      LiteralEnds(tok, quote.value, d);
    } else {
      hide ClassOf, LiteralLength;
    }
  }

  lemma LiteralEnds(tok: string, n: nat, d: Dialect)
    requires n < |tok| && tok[n] == QUOTE && LiteralLength(tok, n, d) == |tok|
    requires Closes(tok[n + 1..], n > 0 && d.raw(tok[..n]))
    ensures tok[|tok| - 1] == QUOTE || (d.suffixes && ClassOf(tok[|tok| - 1], d.letter) == Word)
  {
    hide ClassOf;
    var body, raw := tok[n + 1..], n > 0 && d.raw(tok[..n]);
    var m := BodyEnd(tok, n, d);
    ClosesOnQuote(body, raw);
    assert tok[m - 1] == body[BodyLength(body, raw) - 1];
    if m < |tok| { assert tok[m..][|tok| - m - 1] == tok[|tok| - 1]; }
  }

  /** Where the joiner writes nothing, a token runs on exactly where the two merge; where it
      writes a space, nothing does. */
  lemma TouchingRunsOn(prev: string, next: string, more: string, d: Dialect)
    requires Lexeme(prev, d) && Lexeme(next, d)
    requires BaseSeparator(Last(prev), First(next), d.letter) == ""
    ensures RunsOn(prev, next + more, d) <==> Merges(prev, next, d)
  {
    LexemeEnds(prev, d);
    RunStarts(prev, d);
    QuoteClass(d.letter);
    var last, first := prev[|prev| - 1], next[0];
    OperatorsAreNoWords(last, d.letter);
    OperatorsAreNoWords(first, d.letter);
    Classes(last, d.letter);
    Classes(first, d.letter);
    hide ClassOf, Opening, Munch, Wordy, Operator, Closes;
    assert (next + more)[0] == first;
  }

  lemma Classes(c: char, letter: char -> bool)
    ensures ClassOf(c, letter) == Word ==> Wordy(c, letter)
    ensures ClassOf(c, letter) == Op ==> Operator(c)
    ensures Wordy(c, letter) && ClassOf(c, letter) != Blank ==> ClassOf(c, letter) == Word
  {
  }

  lemma SpacedNeverRunsOn(tok: string, more: string, d: Dialect)
    requires tok != ""
    ensures !RunsOn(tok, " " + more, d)
  {
    SpaceIsBlank(more, d);
    hide ClassOf, Opening;
    assert (" " + more)[0] == ' ';
  }

  /** Where the joiner writes a space, two tokens that touch would run together. */
  lemma SeparatorIsNeeded(prev: string, next: string, d: Dialect)
    requires Lexeme(prev, d) && Lexeme(next, d)
    requires BaseSeparator(Last(prev), First(next), d.letter) != ""
    ensures RunsOn(prev, next, d)
  {
    LexemeEnds(prev, d);
    var last, first := prev[|prev| - 1], next[0];
    OperatorsAreNoWords(last, d.letter);
    OperatorsAreNoWords(first, d.letter);
    QuoteClass(d.letter);
    hide Opening, Munch, Closes;
  }

  lemma LexOne(tok: string, d: Dialect)
    requires Lexeme(tok, d)
    ensures Lex(tok, d) == [tok]
  {
    hide ClassOf, Munch, Lexeme;
    FrontReads(tok, "", d);
    LexemeMunches(tok, d);
    assert tok + "" == tok;
    assert Lex("", d) == [];
  }

  /** Two tokens side by side read back as themselves exactly when the joiner writes nothing
      between them and they do not merge: no separator it writes could have been left out, and
      the ones it is missing are those of words and literals. */
  lemma SeparatorIsNeededExactly(prev: string, next: string, d: Dialect)
    requires Lexeme(prev, d) && Lexeme(next, d)
    ensures Lex(prev + next, d) == [prev, next] <==>
              BaseSeparator(Last(prev), First(next), d.letter) == "" && !Merges(prev, next, d)
  {
    LexemeMunches(prev, d);
    LexemeMunches(next, d);
    hide *;
    FrontReads(prev, next, d);
    LexOne(next, d);
    assert next + "" == next;
    assert [prev] + [next] == [prev, next];
    if BaseSeparator(Last(prev), First(next), d.letter) == "" {
      TouchingRunsOn(prev, next, "", d);
    } else {
      SeparatorIsNeeded(prev, next, d);
    }
  }

  // ---- Joining ---------------------------------------------------------------------------------

  function JoinBase(toks: seq<string>, letter: char -> bool): string {
    if toks == [] then ""
    else if |toks| == 1 then toks[0]
    else
      var front, last := toks[..|toks| - 1], toks[|toks| - 1];
      JoinBase(front, letter) + BaseSeparator(Last(front[|front| - 1]), First(last), letter) + last
  }

  predicate Lexemes(toks: seq<string>, d: Dialect) {
    forall i :: 0 <= i < |toks| ==> Lexeme(toks[i], d)
  }

  /** Nowhere does a word touch a literal that takes it up, or the other way round. */
  predicate NoneMerge(toks: seq<string>, d: Dialect) {
    forall i :: 0 <= i < |toks| - 1 ==> !Merges(toks[i], toks[i + 1], d)
  }

  lemma {:induction false} JoinCons(first: string, rest: seq<string>, letter: char -> bool)
    requires rest != []
    ensures JoinBase([first] + rest, letter)
         == first + BaseSeparator(Last(first), First(rest[0]), letter) + JoinBase(rest, letter)
    decreases |rest|
  {
    hide BaseSeparator, Last, First;
    var toks := [first] + rest;
    if |rest| == 1 {
      assert toks[..1] == [first];
    } else {
      var front, last := rest[..|rest| - 1], rest[|rest| - 1];
      JoinCons(first, front, letter);
      assert toks[..|toks| - 1] == [first] + front;
      var sep := BaseSeparator(Last(front[|front| - 1]), First(last), letter);
      var head := first + BaseSeparator(Last(first), First(rest[0]), letter);
      assert head + (JoinBase(front, letter) + sep + last) == head + JoinBase(front, letter) + sep + last;
    }
  }

  lemma JoinStarts(toks: seq<string>, letter: char -> bool) returns (more: string)
    requires toks != []
    ensures JoinBase(toks, letter) == toks[0] + more
  {
    hide BaseSeparator, Last, First;
    if |toks| == 1 {
      more := "";
    } else {
      assert toks == [toks[0]] + toks[1..];
      JoinCons(toks[0], toks[1..], letter);
      more := BaseSeparator(Last(toks[0]), First(toks[1]), letter) + JoinBase(toks[1..], letter);
    }
  }

  lemma BaseIsOneOfTwo(a: char, b: char, letter: char -> bool)
    ensures BaseSeparator(a, b, letter) == "" || BaseSeparator(a, b, letter) == " "
  {
  }

  /** One token and its gap, in front of a text that begins with the next. */
  lemma GapReads(prev: string, next: string, more: string, d: Dialect)
    requires Lexeme(prev, d) && Lexeme(next, d) && prev != "" && next != ""
    ensures var all := prev + BaseSeparator(Last(prev), First(next), d.letter) + (next + more);
            && (!Merges(prev, next, d) ==> Lex(all, d) == [prev] + Lex(next + more, d))
            && (Merges(prev, next, d) ==> Lex(all, d) != [] && Lex(all, d)[0] != prev)
  {
    hide *;
    var sep := BaseSeparator(Last(prev), First(next), d.letter);
    BaseIsOneOfTwo(Last(prev), First(next), d.letter);
    if sep == "" {
      assert prev + sep + (next + more) == prev + (next + more);
      TouchingRunsOn(prev, next, more, d);
      FrontReads(prev, next + more, d);
    } else {
      assert prev + sep + (next + more) == prev + (" " + (next + more));
      SpacedNeverMerges(prev, next, d);
      SpacedNeverRunsOn(prev, next + more, d);
      SpaceIsBlank(next + more, d);
      FrontReads(prev, " " + (next + more), d);
    }
  }

  lemma SpacedNeverMerges(prev: string, next: string, d: Dialect)
    requires Lexeme(prev, d) && Lexeme(next, d) && prev != "" && next != ""
    requires BaseSeparator(Last(prev), First(next), d.letter) != ""
    ensures !Merges(prev, next, d)
  {
    QuoteClass(d.letter);
    Classes(QUOTE, d.letter);
    OperatorsAreNoWords(QUOTE, d.letter);
    hide Opening, Lexeme, Munch;
  }

  /** Joined with base separators, tokens read back exactly where none merge. */
  lemma {:induction false} JoinReadsBackExactly(toks: seq<string>, d: Dialect)
    requires Lexemes(toks, d)
    ensures Lex(JoinBase(toks, d.letter), d) == toks <==> NoneMerge(toks, d)
    decreases |toks|
  {
    hide *;
    if |toks| == 0 {
      NothingLexed(toks, d);
    } else {
      var first, rest := toks[0], toks[1..];
      LexemesCons(toks, d);
      assert toks == [first] + rest;
      if rest == [] {
        assert toks == [first];
        LoneJoin(first, d);
        LexOne(first, d);
      } else {
        JoinReadsBackExactly(rest, d);
        JoinCons(first, rest, d.letter);
        var more := JoinStarts(rest, d.letter);
        GapReads(first, rest[0], more, d);
        FirstDiffers(first, rest, Lex(JoinBase(rest, d.letter), d));
      }
    }
  }

  lemma NothingLexed(toks: seq<string>, d: Dialect)
    requires toks == []
    ensures Lex(JoinBase(toks, d.letter), d) == toks && NoneMerge(toks, d)
  {
  }

  lemma LoneJoin(tok: string, d: Dialect)
    ensures JoinBase([tok], d.letter) == tok && NoneMerge([tok], d)
  {
  }

  lemma LexemesCons(toks: seq<string>, d: Dialect)
    requires Lexemes(toks, d) && toks != []
    ensures Lexeme(toks[0], d) && toks[0] != "" && Lexemes(toks[1..], d)
    ensures |toks| > 1 ==>
              && Lexeme(toks[1], d) && toks[1] != ""
              && (NoneMerge(toks, d) <==> !Merges(toks[0], toks[1], d) && NoneMerge(toks[1..], d))
  {
    hide Lexeme, Merges, NoneMerge;
    var rest := toks[1..];
    forall i | 0 <= i < |rest|
      ensures Lexeme(rest[i], d)
    {
      assert rest[i] == toks[i + 1];
    }
    assert Lexeme(toks[0], d);
    LexemeMunches(toks[0], d);
    if |toks| > 1 {
      assert Lexeme(toks[1], d);
      LexemeMunches(toks[1], d);
      MergesCons(toks, d);
    }
  }

  lemma MergesCons(toks: seq<string>, d: Dialect)
    requires |toks| > 1
    ensures NoneMerge(toks, d) <==> !Merges(toks[0], toks[1], d) && NoneMerge(toks[1..], d)
  {
    hide Merges;
    var rest := toks[1..];
    assert forall i :: 0 <= i < |rest| ==> rest[i] == toks[i + 1];
    if NoneMerge(toks, d) {
      var i := 0;
      assert !Merges(toks[i], toks[i + 1], d);
      forall i | 0 <= i < |rest| - 1
        ensures !Merges(rest[i], rest[i + 1], d)
      {
        assert rest[i] == toks[i + 1] && rest[i + 1] == toks[i + 1 + 1];
      }
    }
    if !Merges(toks[0], toks[1], d) && NoneMerge(rest, d) {
      forall i | 0 <= i < |toks| - 1
        ensures !Merges(toks[i], toks[i + 1], d)
      {
        if i > 0 { assert rest[i - 1] == toks[i] && rest[i - 1 + 1] == toks[i + 1]; }
      }
    }
  }

  lemma FirstDiffers(first: string, rest: seq<string>, read: seq<string>)
    ensures [first] + read == [first] + rest <==> read == rest
    ensures forall all: seq<string> :: all != [] && all[0] != first ==> all != [first] + rest
  {
    if [first] + read == [first] + rest {
      assert ([first] + read)[1..] == read && ([first] + rest)[1..] == rest;
    }
  }

  // ---- Joined Rust -----------------------------------------------------------------------------

  /** The texts of the code tokens, in order. */
  function CodeTexts(source: string, tokens: seq<Token>): seq<string>
    requires Laid(source, tokens)
  {
    if tokens == [] then []
    else
      var front, last := tokens[..|tokens| - 1], tokens[|tokens| - 1];
      CodeTexts(source, front) + if last.kind == Comment then [] else [Text(source, last)]
  }

  lemma {:induction false} LastCodeText(source: string, tokens: seq<Token>)
    requires Laid(source, tokens)
    ensures var texts, k := CodeTexts(source, tokens), LastKept(tokens, false);
            if k.None? then texts == []
            else texts != [] && texts[|texts| - 1] == Text(source, tokens[k.value]) && tokens[k.value].kind != Comment
  {
    if tokens != [] {
      LastCodeText(source, tokens[..|tokens| - 1]);
    }
  }

  lemma CodeTextsSnoc(source: string, tokens: seq<Token>, i: nat)
    requires Laid(source, tokens) && i < |tokens|
    ensures Laid(source, tokens[..i]) && Laid(source, tokens[..i + 1])
    ensures CodeTexts(source, tokens[..i + 1])
         == CodeTexts(source, tokens[..i]) + (if tokens[i].kind == Comment then [] else [Text(source, tokens[i])])
  {
    assert tokens[..i + 1][..i] == tokens[..i];
  }

  lemma JoinBaseSnoc(toks: seq<string>, last: string, letter: char -> bool)
    ensures JoinBase(toks + [last], letter)
         == if toks == [] then last
            else JoinBase(toks, letter) + BaseSeparator(Last(toks[|toks| - 1]), First(last), letter) + last
  {
    hide BaseSeparator, Last, First;
    var whole := toks + [last];
    assert whole[..|whole| - 1] == toks && whole[|whole| - 1] == last;
  }

  /** In Rust, with comments dropped, every separator is the base one. */
  lemma RustSeparator(source: string, tokens: seq<Token>, i: nat, letter: char -> bool)
    requires Laid(source, tokens) && i < |tokens|
    ensures var k := LastKept(tokens[..i], false);
            SeparatorAt(Rust, source, tokens, i, false, letter)
            == if k.None? then None
               else
                 var before, after := Text(source, tokens[k.value]), Text(source, tokens[i]);
                 Some(Synthetic(BaseSeparator(Last(before), First(after), letter)))
  {
    hide BaseSeparator, LevelIn;
  }

  lemma {:induction false} RustJoins(source: string, tokens: seq<Token>, n: nat, letter: char -> bool)
    requires Laid(source, tokens) && n <= |tokens|
    ensures InOrder(source, Pieces(Rust, source, tokens, n, false, letter)) && Laid(source, tokens[..n])
    ensures JoinedText(source, Pieces(Rust, source, tokens, n, false, letter))
         == JoinBase(CodeTexts(source, tokens[..n]), letter)
  {
    hide Pieces, SegmentsOf, JoinedText, Added, InOrder, SeparatorAt, LastKept, Reached, BaseSeparator, JoinBase,
         CodeTexts,
         Last, First, SepSegment;
    PiecesInOrder(Rust, source, tokens, n, false, letter);
    if n == 0 {
      NothingJoined(Rust, source, tokens, false, letter);
      NothingBase(source, tokens, letter);
    } else {
      var i := n - 1;
      RustJoins(source, tokens, i, letter);
      PiecesInOrder(Rust, source, tokens, i, false, letter);
      PiecesStep(Rust, source, tokens, i, false, letter);
      TokenAdds(Rust, source, tokens, i, false, letter, Pieces(Rust, source, tokens, i, false, letter));
      RustSeparator(source, tokens, i, letter);
      LastCodeText(source, tokens[..i]);
      CodeTextsSnoc(source, tokens, i);
      if tokens[i].kind == Comment {
        assert CodeTexts(source, tokens[..i]) + [] == CodeTexts(source, tokens[..i]);
      } else {
        JoinBaseSnoc(CodeTexts(source, tokens[..i]), Text(source, tokens[i]), letter);
        FirstText(CodeTexts(source, tokens[..i]), Text(source, tokens[i]), letter);
      }
    }
  }

  lemma NothingBase(source: string, tokens: seq<Token>, letter: char -> bool)
    requires Laid(source, tokens)
    ensures Laid(source, tokens[..0]) && JoinBase(CodeTexts(source, tokens[..0]), letter) == ""
  {
  }

  lemma FirstText(before: seq<string>, text: string, letter: char -> bool)
    ensures before == [] ==> JoinBase(before, letter) + "" + text == text
  {
  }

  /** Minified Rust, comments dropped, lexes to exactly the code tokens it was made from, exactly
      when no word touches a literal that takes it up, and no literal a word. */
  lemma RustReadsBackExactly(source: string, tokens: seq<Token>, d: Dialect)
    requires Laid(source, tokens) && Lexemes(CodeTexts(source, tokens), d)
    ensures InOrder(source, Pieces(Rust, source, tokens, |tokens|, false, d.letter))
    ensures Lex(JoinedText(source, Pieces(Rust, source, tokens, |tokens|, false, d.letter)), d)
            == CodeTexts(source, tokens)
       <==> NoneMerge(CodeTexts(source, tokens), d)
  {
    hide *;
    RustJoins(source, tokens, |tokens|, d.letter);
    assert tokens[..|tokens|] == tokens;
    JoinReadsBackExactly(CodeTexts(source, tokens), d);
  }

  /** A byte string's prefix, alone in front of a string: the joined text is one literal. */
  lemma PrefixIsTakenUp(d: Dialect)
    requires d.prefix("b") && !d.raw("b") && !d.suffixes
    ensures var source, tokens := "b \"x\"", [Token(0, 1, Code), Token(2, 5, Code)];
            && Laid(source, tokens) && CodeTexts(source, tokens) == ["b", "\"x\""]
            && InOrder(source, Pieces(Rust, source, tokens, 2, false, d.letter))
            && JoinedText(source, Pieces(Rust, source, tokens, 2, false, d.letter)) == "b\"x\""
            && Lex("b\"x\"", d) == ["b\"x\""]
  {
    hide *;
    var source, tokens := "b \"x\"", [Token(0, 1, Code), Token(2, 5, Code)];
    BytesAreLaid(source, tokens);
    RustJoins(source, tokens, 2, d.letter);
    assert tokens[..2] == tokens;
    BytesJoin(d);
    BytesLex(d);
    LexOne("b\"x\"", d);
  }

  lemma BytesAreLaid(source: string, tokens: seq<Token>)
    requires source == "b \"x\"" && tokens == [Token(0, 1, Code), Token(2, 5, Code)]
    ensures Laid(source, tokens) && CodeTexts(source, tokens) == ["b", "\"x\""]
  {
    assert tokens[..1] == [tokens[0]] && tokens[..1][..0] == [];
    assert CodeTexts(source, tokens[..1]) == [Text(source, tokens[0])];
    assert Text(source, tokens[0]) == "b" && Text(source, tokens[1]) == "\"x\"";
  }

  lemma BytesJoin(d: Dialect)
    ensures JoinBase(["b", "\"x\""], d.letter) == "b\"x\""
  {
    var toks := ["b", "\"x\""];
    assert toks[..1] == ["b"];
    QuoteClass(d.letter);
    OperatorsAreNoWords(QUOTE, d.letter);
    assert !Wordy(QUOTE, d.letter);
    assert BaseSeparator('b', QUOTE, d.letter) == "";
  }

  lemma BytesLex(d: Dialect)
    requires d.prefix("b") && !d.raw("b") && !d.suffixes
    ensures Lexeme("b\"x\"", d)
  {
    var tok := "b\"x\"";
    QuoteClass(d.letter);
    assert ClassOf('b', d.letter) == Word;
    RunIs(tok, Word, 1, d.letter);
    assert tok[..1] == "b" && tok[2..] == "x\"";
    assert tok[2..][1..] == "\"";
    assert Opening(tok, d) == Some(1);
    assert BodyLength(tok[2..][1..], false) == 1;
    assert BodyLength(tok[2..], false) == 2;
    assert BodyEnd(tok, 1, d) == 4;
    assert Munch(tok, d) == LiteralLength(tok, 1, d);
  }
}
