/** The nested `for` loops that fan one transaction or budget out over its
    allocation lists (sectors, countries, aid types, ...): the rows follow the
    Cartesian product of the lists, the first list outermost, and each row is
    scaled by the product of `percentage/100` over its allocations. */
module Fanout {
  import opened Iati

  /** One choice of allocation per list, outermost list first. */
  type Combo = seq<Allocation>

  /** `x` put in front of each combination. */
  function Cons(x: Allocation, cs: seq<Combo>): (r: seq<Combo>)
    ensures |r| == |cs| && forall i :: 0 <= i < |cs| ==> r[i] == [x] + cs[i]
  {
    seq(|cs|, i requires 0 <= i < |cs| => [x] + cs[i])
  }

  /** `for x in xs: for c in cs: ...`. */
  function Prefixed(xs: seq<Allocation>, cs: seq<Combo>): seq<Combo> {
    if xs == [] then [] else Cons(xs[0], cs) + Prefixed(xs[1..], cs)
  }

  /** The combinations the nested loops visit, in the order they visit them. */
  function Combos(axes: seq<seq<Allocation>>): seq<Combo> {
    if axes == [] then [[]] else Prefixed(axes[0], Combos(axes[1..]))
  }

  /** The product of the list lengths. */
  function CountProduct(axes: seq<seq<Allocation>>): nat {
    if axes == [] then 1 else |axes[0]| * CountProduct(axes[1..])
  }

  /** The product of `percentage/100` over a combination. */
  function Factor(c: Combo): real {
    if c == [] then 1.0 else (c[0].percentage / 100.0) * Factor(c[1..])
  }

  function FactorSum(cs: seq<Combo>): real {
    if cs == [] then 0.0 else Factor(cs[0]) + FactorSum(cs[1..])
  }

  /** The product over the lists of (their percentage total)/100. */
  function ShareProduct(axes: seq<seq<Allocation>>): real {
    if axes == [] then 1.0 else (SumPct(axes[0]) / 100.0) * ShareProduct(axes[1..])
  }

  // ------------------------------------------------------------ count and order

  lemma {:induction false} PrefixedLength(xs: seq<Allocation>, cs: seq<Combo>)
    ensures |Prefixed(xs, cs)| == |xs| * |cs|
  {
    if xs != [] {
      PrefixedLength(xs[1..], cs);
      assert |xs| * |cs| == |cs| + (|xs| - 1) * |cs|;
    }
  }

  /** Row `i * |cs| + j` of `for x in xs: for c in cs` is `xs[i]` in front of `cs[j]`. */
  lemma {:induction false} PrefixedAt(xs: seq<Allocation>, cs: seq<Combo>, i: nat, j: nat)
    requires i < |xs| && j < |cs|
    ensures |Prefixed(xs, cs)| == |xs| * |cs|
    ensures i * |cs| + j < |xs| * |cs|
    ensures Prefixed(xs, cs)[i * |cs| + j] == [xs[i]] + cs[j]
  {
    PrefixedLength(xs, cs);
    PrefixedLength(xs[1..], cs);
    assert i * |cs| + j < |xs| * |cs| by {
      assert i * |cs| <= (|xs| - 1) * |cs|;
      assert |xs| * |cs| == (|xs| - 1) * |cs| + |cs|;
    }
    if i > 0 {
      PrefixedAt(xs[1..], cs, i - 1, j);
      assert i * |cs| + j == |cs| + ((i - 1) * |cs| + j);
      assert xs[1..][i - 1] == xs[i];
    }
  }

  /** The nested loops visit `CountProduct(axes)` combinations, each with one
      allocation from each list in list order. */
  lemma {:induction false} CombosShape(axes: seq<seq<Allocation>>)
    ensures |Combos(axes)| == CountProduct(axes)
    ensures forall c :: c in Combos(axes) ==> |c| == |axes| && forall k :: 0 <= k < |c| ==> c[k] in axes[k]
  {
    if axes != [] {
      var rest := Combos(axes[1..]);
      CombosShape(axes[1..]);
      PrefixedLength(axes[0], rest);
      PrefixedMembers(axes[0], rest);
      forall c | c in Combos(axes)
        ensures |c| == |axes| && forall k :: 0 <= k < |c| ==> c[k] in axes[k]
      {
        var x, t :| x in axes[0] && t in rest && c == [x] + t;
        forall k | 0 <= k < |c| ensures c[k] in axes[k] {
          if k > 0 {
            assert c[k] == t[k - 1];
            assert axes[1..][k - 1] == axes[k];
          }
        }
      }
    }
  }

  lemma {:induction false} PrefixedMembers(xs: seq<Allocation>, cs: seq<Combo>)
    ensures forall c :: c in Prefixed(xs, cs) ==> exists x, t :: x in xs && t in cs && c == [x] + t
  {
    if xs != [] {
      PrefixedMembers(xs[1..], cs);
      forall c | c in Prefixed(xs, cs) ensures exists x, t :: x in xs && t in cs && c == [x] + t {
        if c in Cons(xs[0], cs) {
          var i :| 0 <= i < |cs| && Cons(xs[0], cs)[i] == c;
          assert c == [xs[0]] + cs[i] && xs[0] in xs && cs[i] in cs;
        } else {
          assert c in Prefixed(xs[1..], cs);
          var x, t :| x in xs[1..] && t in cs && c == [x] + t;
          assert x in xs && t in cs && c == [x] + t;
        }
      }
    }
  }

  // ------------------------------------------------------------ conservation

  lemma {:induction false} FactorSumAppend(a: seq<Combo>, b: seq<Combo>)
    ensures FactorSum(a + b) == FactorSum(a) + FactorSum(b)
  {
    if a == [] {
      assert a + b == b;
    } else {
      assert (a + b)[0] == a[0];
      assert (a + b)[1..] == a[1..] + b;
      FactorSumAppend(a[1..], b);
    }
  }

  lemma {:induction false} FactorSumCons(x: Allocation, cs: seq<Combo>)
    ensures FactorSum(Cons(x, cs)) == (x.percentage / 100.0) * FactorSum(cs)
  {
    if cs != [] {
      var r := Cons(x, cs);
      assert r[1..] == Cons(x, cs[1..]);
      FactorSumCons(x, cs[1..]);
      assert Factor(r[0]) == (x.percentage / 100.0) * Factor(cs[0]) by {
        assert r[0] == [x] + cs[0];
        assert r[0][1..] == cs[0];
      }
    }
  }

  lemma {:induction false} FactorSumPrefixed(xs: seq<Allocation>, cs: seq<Combo>)
    ensures FactorSum(Prefixed(xs, cs)) == (SumPct(xs) / 100.0) * FactorSum(cs)
  {
    if xs != [] {
      FactorSumPrefixed(xs[1..], cs);
      FactorSumStep(xs[0], cs, Prefixed(xs[1..], cs), SumPct(xs[1..]), SumPct(xs));
    }
  }

  /** One step of `FactorSumPrefixed`: the rows of the first item, then the
      rows of the others. */
  lemma FactorSumStep(x: Allocation, cs: seq<Combo>, rest: seq<Combo>, q: real, pq: real)
    requires pq == x.percentage + q
    requires FactorSum(rest) == (q / 100.0) * FactorSum(cs)
    ensures FactorSum(Cons(x, cs) + rest) == (pq / 100.0) * FactorSum(cs)
  {
    FactorSumAppend(Cons(x, cs), rest);
    FactorSumCons(x, cs);
    Distribute(x.percentage, q, pq, FactorSum(cs));
  }

  /** Two shares `p` and `q` of the same sum `s` add up to the share `p + q`. */
  lemma Distribute(p: real, q: real, pq: real, s: real)
    requires pq == p + q
    ensures (p / 100.0) * s + (q / 100.0) * s == (pq / 100.0) * s
  {
  }

  /** The factors of all the rows add up to the product of the lists'
      percentage totals, each over 100. */
  lemma {:induction false} FactorsSumToShares(axes: seq<seq<Allocation>>)
    ensures FactorSum(Combos(axes)) == ShareProduct(axes)
  {
    if axes == [] {
      assert Combos(axes) == [[]];
    } else {
      FactorsSumToShares(axes[1..]);
      FactorSumPrefixed(axes[0], Combos(axes[1..]));
    }
  }

  /** When every list is normalised to 100 the row factors add up to 1, so the
      rows of a fan-out together carry the whole value. */
  lemma {:induction false} NormalisedAxesConserve(axes: seq<seq<Allocation>>)
    requires forall k :: 0 <= k < |axes| ==> SumPct(axes[k]) == 100.0
    ensures FactorSum(Combos(axes)) == 1.0
  {
    FactorsSumToShares(axes);
    ShareProductOfFull(axes);
  }

  lemma {:induction false} ShareProductOfFull(axes: seq<seq<Allocation>>)
    requires forall k :: 0 <= k < |axes| ==> SumPct(axes[k]) == 100.0
    ensures ShareProduct(axes) == 1.0
  {
    if axes != [] {
      assert forall k :: 0 <= k < |axes[1..]| ==> axes[1..][k] == axes[k + 1];
      ShareProductOfFull(axes[1..]);
    }
  }

  /** `sum(v * factor)` over the rows. */
  function ScaledSum(cs: seq<Combo>, v: real): real {
    if cs == [] then 0.0 else v * Factor(cs[0]) + ScaledSum(cs[1..], v)
  }

  lemma {:induction false} ScaledSumIsScaled(cs: seq<Combo>, v: real)
    ensures ScaledSum(cs, v) == v * FactorSum(cs)
  {
    if cs != [] {
      ScaledSumIsScaled(cs[1..], v);
    }
  }

  /** A value fanned out over normalised lists: the rows' shares add up to it. */
  lemma FanOutConserves(axes: seq<seq<Allocation>>, v: real)
    requires forall k :: 0 <= k < |axes| ==> SumPct(axes[k]) == 100.0
    ensures ScaledSum(Combos(axes), v) == v
  {
    ScaledSumIsScaled(Combos(axes), v);
    NormalisedAxesConserve(axes);
  }
}
