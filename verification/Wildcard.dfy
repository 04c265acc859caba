/** Glob matching with a single backtrack point: it decides the recursive meaning of `*` and
    `?`, within a bound linear in both lengths. */
module Wildcard {
  /** The pattern from `i` on matches the text from `j` on, to its end: `*` stands for any run
      and `?` for any one character. */
  predicate Matches(p: string, t: string, i: nat, j: nat)
    requires i <= |p| && j <= |t|
    decreases |p| - i + |t| - j
  {
    if i == |p| then j == |t|
    else if p[i] == '*' then Matches(p, t, i + 1, j) || (j < |t| && Matches(p, t, i, j + 1))
    else j < |t| && (p[i] == '?' || p[i] == t[j]) && Matches(p, t, i + 1, j + 1)
  }

  /** The pattern from `i` on matches some end of the text that starts at `from` or later. */
  ghost predicate Reachable(p: string, t: string, i: nat, from: nat)
    requires i <= |p|
  {
    exists k :: from <= k <= |t| && Matches(p, t, i, k)
  }

  lemma ReachableStep(p: string, t: string, i: nat, from: nat)
    requires i <= |p| && from <= |t|
    ensures Reachable(p, t, i, from) <==> Matches(p, t, i, from) || Reachable(p, t, i, from + 1)
  {
    hide Matches;
  }

  /** `*` may give up any number of characters to what follows it. */
  lemma {:induction false} StarMeans(p: string, t: string, i: nat, j: nat)
    requires i < |p| && p[i] == '*' && j <= |t|
    ensures Matches(p, t, i, j) <==> Reachable(p, t, i + 1, j)
    decreases |t| - j
  {
    hide Reachable;
    ReachableStep(p, t, i + 1, j);
    if j < |t| {
      StarMeans(p, t, i, j + 1);
    } else {
      NothingPastEnd(p, t, i + 1);
    }
  }

  lemma NothingPastEnd(p: string, t: string, i: nat)
    requires i <= |p|
    ensures !Reachable(p, t, i, |t| + 1)
  {
  }

  predicate StarFree(p: string, i: nat, n: nat)
    requires i + n <= |p|
  {
    forall m :: i <= m < i + n ==> p[m] != '*'
  }

  /** A stretch without `*` consumes exactly its own length. */
  lemma {:induction false} StretchConsumes(p: string, t: string, i: nat, n: nat, j: nat)
    requires i + n <= |p| && j <= |t| && StarFree(p, i, n) && Matches(p, t, i, j)
    ensures j + n <= |t| && Matches(p, t, i + n, j + n)
    decreases n
  {
    if n > 0 { StretchConsumes(p, t, i + 1, n - 1, j + 1); }
  }

  predicate AllStars(p: string, i: nat)
    requires i <= |p|
  {
    forall m :: i <= m < |p| ==> p[m] == '*'
  }

  /** At the end of the text only `*` can remain. */
  lemma {:induction false} AtTheEnd(p: string, t: string, i: nat)
    requires i <= |p|
    ensures Matches(p, t, i, |t|) <==> AllStars(p, i)
    decreases |p| - i
  {
    if i < |p| { AtTheEnd(p, t, i + 1); }
  }

  /** A further `*` makes every earlier choice moot: whatever the older one could still reach,
      the newer one reaches from where it was first met. */
  lemma NewerStarSuffices(p: string, t: string, s: nat, resume: nat, i: nat, j: nat)
    requires s < i < |p| && p[i] == '*' && resume <= j <= |t| && i - (s + 1) == j - resume
    requires StarFree(p, s + 1, i - (s + 1))
    requires Matches(p, t, s + 1, resume) <==> Matches(p, t, i, j)
    ensures Reachable(p, t, s + 1, resume) <==> Reachable(p, t, i + 1, j)
  {
    hide Matches;
    StarMeans(p, t, i, j);
    if Reachable(p, t, s + 1, resume) {
      var k :| resume <= k <= |t| && Matches(p, t, s + 1, k);
      var n := i - (s + 1);
      StretchConsumes(p, t, s + 1, n, k);
      StarMeans(p, t, i, k + n);
      var l :| k + n <= l <= |t| && Matches(p, t, i + 1, l);
      assert j <= l;
    }
  }

  lemma Grow(a: nat, b: nat, w: nat)
    requires a <= b
    ensures a * w <= b * w
    ensures (a + 1) * w == a * w + w
  {
    assert (b - a) * w >= 0;
  }

  method Match(p: string, t: string) returns (r: bool, ghost steps: nat)
    ensures r == Matches(p, t, 0, 0)
    ensures steps <= (|t| + 1) * (|p| + 1)
  {
    hide Matches, Reachable;
    var pi, ti := 0, 0;
    var star, resume := -1, 0;
    ghost var w := |p| + 1;
    steps := 0;
    while ti < |t|
      invariant 0 <= pi <= |p| && 0 <= resume <= ti <= |t| && -1 <= star < pi
      invariant star == -1 ==> resume == 0 && (Matches(p, t, 0, 0) <==> Matches(p, t, pi, ti))
      invariant star >= 0 ==> p[star] == '*' && pi - (star + 1) == ti - resume && StarFree(p, star + 1, ti - resume)
      invariant star >= 0 ==> (Matches(p, t, 0, 0) <==> Reachable(p, t, star + 1, resume))
      invariant star >= 0 ==> (Matches(p, t, star + 1, resume) <==> Matches(p, t, pi, ti))
      invariant steps <= resume * w + pi
      decreases |t| - resume, |p| - pi
    {
      Grow(resume, ti, w);
      steps := steps + 1;
      HeadDecides(p, t, pi, ti);
      if pi < |p| && p[pi] == '*' {
        if star >= 0 {
          NewerStarSuffices(p, t, star, resume, pi, ti);
        } else {
          StarMeans(p, t, pi, ti);
        }
        star, resume := pi, ti;
        pi := pi + 1;
      } else if pi < |p| && (p[pi] == '?' || p[pi] == t[ti]) {
        pi, ti := pi + 1, ti + 1;
      } else if star >= 0 {
        ReachableStep(p, t, star + 1, resume);
        pi := star + 1;
        resume := resume + 1;
        ti := resume;
      } else {
        Grow(0, |t|, w);
        return false, steps;
      }
    }
    Grow(resume, |t|, w);
    AtTheEnd(p, t, pi);
    if star >= 0 { NothingFurther(p, t, star, resume, pi); }
    r := AllStars(p, pi);
  }

  /** What the next pattern character says about a match, unless it is `*`. */
  lemma HeadDecides(p: string, t: string, i: nat, j: nat)
    requires i <= |p| && j < |t|
    ensures !(i < |p| && p[i] == '*') ==>
              (Matches(p, t, i, j) <==> i < |p| && (p[i] == '?' || p[i] == t[j]) && Matches(p, t, i + 1, j + 1))
  {
  }

  /** With the text used up, starting the stretch any later would run past its end. */
  lemma NothingFurther(p: string, t: string, s: nat, resume: nat, i: nat)
    requires s < i <= |p| && resume <= |t| && i - (s + 1) == |t| - resume
    requires StarFree(p, s + 1, i - (s + 1))
    requires Matches(p, t, s + 1, resume) <==> Matches(p, t, i, |t|)
    ensures Reachable(p, t, s + 1, resume) <==> Matches(p, t, i, |t|)
  {
    hide Matches;
    if Reachable(p, t, s + 1, resume) {
      var k :| resume <= k <= |t| && Matches(p, t, s + 1, k);
      StretchConsumes(p, t, s + 1, i - (s + 1), k);
    }
  }

  // ---- What the usual pattern means ---------------------------------------------------

  predicate Literal(x: string) {
    forall m :: 0 <= m < |x| ==> x[m] != '*' && x[m] != '?'
  }

  predicate OccursAt(x: string, t: string, k: nat) {
    k + |x| <= |t| && t[k..k + |x|] == x
  }

  /** A literal stretch matches exactly itself. */
  lemma {:induction false} LiteralMatches(p: string, t: string, i: nat, x: string, j: nat)
    requires i + |x| <= |p| && p[i..i + |x|] == x && Literal(x) && j <= |t|
    ensures Matches(p, t, i, j) <==> OccursAt(x, t, j) && Matches(p, t, i + |x|, j + |x|)
    decreases |x|
  {
    if x == [] {
      assert t[j..j] == [];
    } else {
      var rest := x[1..];
      assert p[i] == x[0] && p[i + 1..i + 1 + |rest|] == rest;
      if j < |t| {
        LiteralMatches(p, t, i + 1, rest, j + 1);
        if OccursAt(x, t, j) {
          assert t[j..j + |x|][0] == t[j] && t[j..j + |x|][1..] == t[j + 1..j + 1 + |rest|];
        }
        if t[j] == x[0] && OccursAt(rest, t, j + 1) {
          assert t[j..j + |x|] == [t[j]] + t[j + 1..j + 1 + |rest|];
        }
      }
    }
  }

  /** `*x*` matches exactly the texts that contain `x`. */
  lemma StarredIsContains(x: string, t: string)
    requires Literal(x)
    ensures Matches("*" + x + "*", t, 0, 0) <==> exists k :: 0 <= k <= |t| && OccursAt(x, t, k)
  {
    hide Matches, OccursAt;
    var p := "*" + x + "*";
    assert p[1..1 + |x|] == x;
    StarMeans(p, t, 0, 0);
    forall k | 0 <= k <= |t|
      ensures Matches(p, t, 1, k) <==> OccursAt(x, t, k)
    {
      LiteralMatches(p, t, 1, x, k);
      if OccursAt(x, t, k) {
        OccursFits(x, t, k);
        LastStar(p, t, k + |x|);
      }
    }
  }

  lemma OccursFits(x: string, t: string, k: nat)
    requires OccursAt(x, t, k)
    ensures k + |x| <= |t|
  {
  }

  lemma LastStar(p: string, t: string, j: nat)
    requires p != [] && p[|p| - 1] == '*' && j <= |t|
    ensures Matches(p, t, |p| - 1, j)
  {
    hide Matches;
    StarMeans(p, t, |p| - 1, j);
    AtTheEnd(p, t, |p|);
    assert Matches(p, t, |p|, |t|);
  }
}
