/** Counting and success-rate arithmetic shared by the report generators:
    `len([r for r in rs if p(r)])`, `[r for r in rs if p(r)]` and
    `passed / total * 100`, with the rate kept exact (no float rounding). */
module Tally {

  /** `len([x for x in s if p(x)])`. */
  function Count<T>(s: seq<T>, p: T -> bool): (n: nat)
    ensures n <= |s|
  {
    if s == [] then 0 else Count(s[..|s| - 1], p) + (if p(s[|s| - 1]) then 1 else 0)
  }

  /** `[x for x in s if p(x)]`: the elements satisfying p, in order. */
  function Filter<T>(s: seq<T>, p: T -> bool): (r: seq<T>)
    ensures |r| == Count(s, p)
    ensures forall i :: 0 <= i < |r| ==> r[i] in s && p(r[i])
    ensures forall i :: 0 <= i < |s| && p(s[i]) ==> s[i] in r
  {
    if s == [] then [] else
      var rest := Filter(s[..|s| - 1], p);
      assert forall i :: 0 <= i < |s| - 1 ==> s[..|s| - 1][i] == s[i];
      if p(s[|s| - 1]) then rest + [s[|s| - 1]] else rest
  }

  /** The listing keeps every element satisfying p as many times as the
      input holds it, and nothing else. */
  lemma {:induction false} FilterMultiset<T>(s: seq<T>, p: T -> bool)
    ensures multiset(Filter(s, p)) <= multiset(s)
    ensures forall x :: x in s && p(x) ==> multiset(Filter(s, p))[x] == multiset(s)[x]
  {
    if s != [] {
      var init := s[..|s| - 1];
      var y := s[|s| - 1];
      FilterMultiset(init, p);
      assert s == init + [y];
      assert multiset(s) == multiset(init) + multiset{y};
      if p(y) {
        assert multiset(Filter(s, p)) == multiset(Filter(init, p)) + multiset{y};
      }
      forall x | x in s && p(x)
        ensures multiset(Filter(s, p))[x] == multiset(s)[x]
      {
        if x !in init {
          assert multiset(init)[x] == 0;
          assert multiset(Filter(init, p))[x] == 0;
        }
      }
    }
  }

  /** One more element is listed at the end when it satisfies p. */
  lemma FilterSnoc<T>(s: seq<T>, x: T, p: T -> bool)
    ensures Filter(s + [x], p) == Filter(s, p) + (if p(x) then [x] else [])
  {
    assert (s + [x])[..|s|] == s;
  }

  /** The listing of a concatenation is the two listings one after the
      other: the comprehension keeps the order of its input. */
  lemma {:induction false} FilterAppend<T>(a: seq<T>, b: seq<T>, p: T -> bool)
    ensures Filter(a + b, p) == Filter(a, p) + Filter(b, p)
  {
    if b == [] {
      assert a + b == a;
    } else {
      var c := b[..|b| - 1];
      assert b == c + [b[|b| - 1]];
      FilterAppend(a, c, p);
      FilterAppendStep(a, c, b[|b| - 1], p);
    }
  }

  /** The induction step of FilterAppend: one more element at the end. */
  lemma FilterAppendStep<T>(a: seq<T>, c: seq<T>, x: T, p: T -> bool)
    requires Filter(a + c, p) == Filter(a, p) + Filter(c, p)
    ensures Filter(a + (c + [x]), p) == Filter(a, p) + Filter(c + [x], p)
  {
    var last := if p(x) then [x] else [];
    ConcatAssoc(a, c, [x]);
    FilterSnoc(a + c, x, p);
    FilterSnoc(c, x, p);
    ConcatAssoc(Filter(a, p), Filter(c, p), last);
  }

  /** Proof step for FilterAppendStep: concatenation is associative. */
  lemma ConcatAssoc<T>(x: seq<T>, y: seq<T>, z: seq<T>)
    ensures (x + y) + z == x + (y + z)
  {
  }

  lemma CountSnoc<T>(s: seq<T>, x: T, p: T -> bool)
    ensures Count(s + [x], p) == Count(s, p) + (if p(x) then 1 else 0)
  {
    assert (s + [x])[..|s|] == s;
  }

  lemma {:induction false} CountAppend<T>(a: seq<T>, b: seq<T>, p: T -> bool)
    ensures Count(a + b, p) == Count(a, p) + Count(b, p)
  {
    if b != [] {
      var c := b[..|b| - 1];
      CountAppend(a, c, p);
      assert a + b == (a + c) + [b[|b| - 1]];
      assert b == c + [b[|b| - 1]];
      CountSnoc(a + c, b[|b| - 1], p);
      CountSnoc(c, b[|b| - 1], p);
    } else {
      assert a + b == a;
    }
  }

  /** Every element satisfies p exactly when all of them are counted. */
  lemma {:induction false} CountAll<T>(s: seq<T>, p: T -> bool)
    ensures Count(s, p) == |s| <==> forall i :: 0 <= i < |s| ==> p(s[i])
  {
    if s != [] {
      var init := s[..|s| - 1];
      CountAll(init, p);
      assert forall i :: 0 <= i < |init| ==> init[i] == s[i];
    }
  }

  /** No element satisfies p exactly when none is counted. */
  lemma {:induction false} CountNone<T>(s: seq<T>, p: T -> bool)
    ensures Count(s, p) == 0 <==> forall i :: 0 <= i < |s| ==> !p(s[i])
  {
    if s != [] {
      var init := s[..|s| - 1];
      CountNone(init, p);
      assert forall i :: 0 <= i < |init| ==> init[i] == s[i];
    }
  }

  /** Counting a stronger condition never gives more. */
  lemma {:induction false} CountMono<T>(s: seq<T>, p: T -> bool, q: T -> bool)
    requires forall x :: p(x) ==> q(x)
    ensures Count(s, p) <= Count(s, q)
  {
    if s != [] {
      CountMono(s[..|s| - 1], p, q);
    }
  }

  /** Counting a stronger condition gives as much exactly when, on the
      elements at hand, the weaker one implies the stronger. */
  lemma {:induction false} CountMonoEqual<T>(s: seq<T>, p: T -> bool, q: T -> bool)
    requires forall x :: p(x) ==> q(x)
    ensures Count(s, p) == Count(s, q) <==> forall i :: 0 <= i < |s| ==> q(s[i]) ==> p(s[i])
  {
    if s != [] {
      var init := s[..|s| - 1];
      CountMonoEqual(init, p, q);
      CountMono(init, p, q);
      assert forall i :: 0 <= i < |init| ==> init[i] == s[i];
    }
  }

  /** Two sequences matched element by element count alike. */
  lemma {:induction false} CountCorrespond<A, B>(a: seq<A>, b: seq<B>, p: A -> bool, q: B -> bool)
    requires |a| == |b|
    requires forall i :: 0 <= i < |a| ==> p(a[i]) == q(b[i])
    ensures Count(a, p) == Count(b, q)
  {
    if a != [] {
      var n := |a| - 1;
      assert forall i :: 0 <= i < n ==> a[..n][i] == a[i] && b[..n][i] == b[i];
      CountCorrespond(a[..n], b[..n], p, q);
    }
  }

  /** Three mutually exclusive conditions count at most every element once,
      and exactly once when one of them always holds. */
  lemma {:induction false} CountExclusive3<T>(s: seq<T>, p: T -> bool, q: T -> bool, r: T -> bool)
    requires forall x :: !(p(x) && q(x)) && !(p(x) && r(x)) && !(q(x) && r(x))
    ensures Count(s, p) + Count(s, q) + Count(s, r) <= |s|
    ensures (forall x :: p(x) || q(x) || r(x)) ==> Count(s, p) + Count(s, q) + Count(s, r) == |s|
  {
    if s != [] {
      CountExclusive3(s[..|s| - 1], p, q, r);
    }
  }

  /** `passed / total * 100 if total > 0 else 0`, exactly. */
  function SuccessRate(passed: nat, total: nat): (rate: real)
    ensures total == 0 ==> rate == 0.0
    ensures total > 0 ==> rate * (total as real) == (passed as real) * 100.0
    ensures passed <= total ==> 0.0 <= rate <= 100.0
  {
    if total > 0 then
      var q := (passed as real) / (total as real);
      assert q * (total as real) == passed as real;
      assert passed <= total ==> q <= 1.0;
      q * 100.0
    else 0.0
  }

  /** A threshold on the rate is the integer comparison
      `passed * 100 >= threshold * total`. */
  lemma RateAtLeast(passed: nat, total: nat, threshold: int)
    requires total > 0
    ensures SuccessRate(passed, total) >= threshold as real <==> passed * 100 >= threshold * total
  {
    var rate := SuccessRate(passed, total);
    var t := total as real;
    assert rate * t == (passed * 100) as real;
    assert (rate - threshold as real) * t == (passed * 100 - threshold * total) as real;
  }

  /** More passes out of the same total never lower the rate. */
  lemma RateMonotone(passed: nat, passed': nat, total: nat)
    requires passed <= passed'
    ensures SuccessRate(passed, total) <= SuccessRate(passed', total)
  {
    if total > 0 {
      var t := total as real;
      var d := SuccessRate(passed', total) - SuccessRate(passed, total);
      assert d * t == ((passed' - passed) * 100) as real;
    }
  }
}
