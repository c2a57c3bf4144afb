/** Drawing distinct stake sections: a partial Fisher-Yates shuffle kept in a sparse map. */
module SectionDraw {
  import opened Collections

  /** An arbitrary random index in `lo..hi`, derived from whatever the generator yields. */
  function InRange(raw: nat, lo: nat, hi: nat): (r: nat)
    requires lo < hi
    ensures lo <= r < hi
  {
    lo + raw % (hi - lo)
  }

  /** The explicit permutation of `0..sections` after the first `n` swaps. */
  function Shuffled(sections: nat, rng: nat -> nat, n: nat): (p: seq<nat>)
    requires n <= sections
    ensures |p| == sections
  {
    if n == 0 then seq(sections, i => i) else
      var p := Shuffled(sections, rng, n - 1);
      var r := InRange(rng(n - 1), n - 1, sections);
      p[n - 1 := p[r]][r := p[n - 1]]
  }

  predicate IsPermutation(p: seq<nat>) {
    && (forall i :: 0 <= i < |p| ==> p[i] < |p|)
    && (forall i, j :: 0 <= i < j < |p| ==> p[i] != p[j])
  }

  lemma {:induction false} ShuffledIsPermutation(sections: nat, rng: nat -> nat, n: nat)
    requires n <= sections
    ensures IsPermutation(Shuffled(sections, rng, n))
    decreases n
  {
    if n > 0 {
      ShuffledIsPermutation(sections, rng, n - 1);
    }
  }

  /** Swaps after the `n`-th never touch the first `n` places. */
  lemma {:induction false} ShuffledPrefixIsFinal(sections: nat, rng: nat -> nat, n: nat, m: nat)
    requires n <= m <= sections
    ensures Shuffled(sections, rng, m)[..n] == Shuffled(sections, rng, n)[..n]
    decreases m
  {
    if n < m {
      ShuffledPrefixIsFinal(sections, rng, n, m - 1);
      assert forall i :: 0 <= i < n ==> Shuffled(sections, rng, m)[i] == Shuffled(sections, rng, m - 1)[i];
    }
  }

  /** Section `index` ends at the next multiple of the minimum stake. */
  function SectionEnd(index: nat, minJurorStake: nat): nat {
    (index + 1) * minJurorStake
  }

  /** The numbers drawn by the first `n` swaps of the explicit permutation. */
  function Drawn(sections: nat, rng: nat -> nat, n: nat): set<nat>
    requires n <= sections
  {
    set x | x in Shuffled(sections, rng, n)[..n]
  }

  function EndsOf(numbers: set<nat>, minJurorStake: nat): set<nat> {
    set x | x in numbers :: SectionEnd(x, minJurorStake)
  }

  /** Reading the sparse map at a place that was never swapped gives the place itself. */
  function At(swaps: map<nat, nat>, i: nat): nat {
    if i in swaps then swaps[i] else i
  }

  /** Reading through the sparse map is reading the explicit permutation. */
  predicate Represents(swaps: map<nat, nat>, p: seq<nat>) {
    forall k :: 0 <= k < |p| ==> At(swaps, k) == p[k]
  }

  method GetNRandomSectionEnds(n: nat, max: nat, minJurorStake: nat, rng: nat -> nat) returns (ends: set<nat>)
    requires minJurorStake > 0
    requires n <= max / minJurorStake
    ensures ends == EndsOf(Drawn(max / minJurorStake, rng, n), minJurorStake)
  {
    var sections := max / minJurorStake;
    var swaps: map<nat, nat> := map[];
    ends := {};
    for i := 0 to n
      invariant Represents(swaps, Shuffled(sections, rng, i))
      invariant ends == EndsOf(Drawn(sections, rng, i), minJurorStake)
    {
      var visited := At(swaps, i);
      var r := InRange(rng(i), i, sections);
      var unused := At(swaps, r);
      SwapKeepsRepresentation(swaps, sections, rng, i);
      swaps := swaps[i := unused];
      swaps := swaps[r := visited];
      DrawnStep(sections, rng, i);
      EndsOfPlus(Drawn(sections, rng, i), unused, minJurorStake);
      ends := ends + {SectionEnd(unused, minJurorStake)};
    }
  }

  lemma SwapKeepsRepresentation(swaps: map<nat, nat>, sections: nat, rng: nat -> nat, i: nat)
    requires i < sections && Represents(swaps, Shuffled(sections, rng, i))
    ensures var r := InRange(rng(i), i, sections);
            && Represents(swaps[i := At(swaps, r)][r := At(swaps, i)], Shuffled(sections, rng, i + 1))
            && At(swaps, r) == Shuffled(sections, rng, i + 1)[i]
  {}

  lemma EndsOfPlus(numbers: set<nat>, x: nat, minJurorStake: nat)
    ensures EndsOf(numbers + {x}, minJurorStake) == EndsOf(numbers, minJurorStake) + {SectionEnd(x, minJurorStake)}
  {}

  lemma DrawnStep(sections: nat, rng: nat -> nat, n: nat)
    requires n < sections
    ensures Drawn(sections, rng, n + 1) == Drawn(sections, rng, n) + {Shuffled(sections, rng, n + 1)[n]}
    ensures Shuffled(sections, rng, n + 1)[n] !in Drawn(sections, rng, n)
  {
    ShuffledPrefixIsFinal(sections, rng, n, n + 1);
    ShuffledIsPermutation(sections, rng, n + 1);
    var q := Shuffled(sections, rng, n + 1);
    assert q[..n + 1] == q[..n] + [q[n]];
  }

  lemma {:induction false} DrawnCount(sections: nat, rng: nat -> nat, n: nat)
    requires n <= sections
    ensures |Drawn(sections, rng, n)| == n
    decreases n
  {
    if n == 0 {
      assert Drawn(sections, rng, n) == {};
    } else {
      DrawnCount(sections, rng, n - 1);
      DrawnStep(sections, rng, n - 1);
    }
  }

  lemma DrawnAreSections(sections: nat, rng: nat -> nat, n: nat)
    requires n <= sections
    ensures forall x :: x in Drawn(sections, rng, n) ==> x < sections
  {
    ShuffledIsPermutation(sections, rng, n);
  }

  lemma SectionEndBounds(index: nat, max: nat, minJurorStake: nat)
    requires minJurorStake > 0 && index < max / minJurorStake
    ensures minJurorStake <= SectionEnd(index, minJurorStake) <= max
    ensures SectionEnd(index, minJurorStake) % minJurorStake == 0
  {
    var q := max / minJurorStake;
    assert max == q * minJurorStake + max % minJurorStake;
    MulMonotone(1, index + 1, minJurorStake);
    MulMonotone(index + 1, q, minJurorStake);
    MultipleHasNoRemainder(index + 1, minJurorStake);
  }

  lemma MulMonotone(a: nat, b: nat, m: nat)
    requires a <= b
    ensures a * m <= b * m
  {}

  lemma {:induction false} MultipleHasNoRemainder(k: nat, m: nat)
    requires m > 0
    ensures k * m % m == 0
  {
    if k > 0 {
      MultipleHasNoRemainder(k - 1, m);
      assert k * m == (k - 1) * m + m;
      AddingDivisorKeepsRemainder((k - 1) * m, m);
    }
  }

  lemma AddingDivisorKeepsRemainder(x: nat, m: nat)
    requires m > 0
    ensures (x + m) % m == x % m
  {
    assert x + m == (x / m + 1) * m + x % m;
    QuotientIsUnique(x + m, x / m + 1, x % m, m);
  }

  lemma QuotientIsUnique(x: nat, q: nat, r: nat, m: nat)
    requires m > 0 && x == q * m + r && r < m
    ensures x / m == q && x % m == r
  {
    var q', r' := x / m, x % m;
    assert x == q' * m + r';
    if q' < q {
      MulMonotone(q' + 1, q, m);
    } else if q < q' {
      MulMonotone(q + 1, q', m);
    }
  }

  lemma SectionEndIsInjective(a: nat, b: nat, minJurorStake: nat)
    requires minJurorStake > 0 && a < b
    ensures SectionEnd(a, minJurorStake) < SectionEnd(b, minJurorStake)
  {
    MulMonotone(a + 2, b + 1, minJurorStake);
  }

  lemma {:induction false} EndsOfCount(numbers: set<nat>, minJurorStake: nat)
    requires minJurorStake > 0
    ensures |EndsOf(numbers, minJurorStake)| == |numbers|
    decreases |numbers|
  {
    if numbers == {} {
      assert EndsOf(numbers, minJurorStake) == {};
    } else {
      var x :| x in numbers;
      var rest := numbers - {x};
      EndsOfCount(rest, minJurorStake);
      var e := SectionEnd(x, minJurorStake);
      assert numbers == rest + {x};
      EndsOfPlus(rest, x, minJurorStake);
      if e in EndsOf(rest, minJurorStake) {
        var y :| y in rest && SectionEnd(y, minJurorStake) == e;
        SectionEndIsInjective(Min(x, y), Max(x, y), minJurorStake);
        assert false;
      }
    }
  }

  /** Exactly `n` distinct multiples of the minimum stake, all between it and `max`, for every generator. */
  lemma DrawnEndsAreDistinctSections(max: nat, minJurorStake: nat, rng: nat -> nat, n: nat)
    requires minJurorStake > 0
    requires n <= max / minJurorStake
    ensures var ends := EndsOf(Drawn(max / minJurorStake, rng, n), minJurorStake);
            && |ends| == n
            && forall e :: e in ends ==> minJurorStake <= e <= max && e % minJurorStake == 0
  {
    var numbers := Drawn(max / minJurorStake, rng, n);
    DrawnCount(max / minJurorStake, rng, n);
    DrawnAreSections(max / minJurorStake, rng, n);
    EndsOfCount(numbers, minJurorStake);
    forall e | e in EndsOf(numbers, minJurorStake) ensures minJurorStake <= e <= max && e % minJurorStake == 0 {
      var x :| x in numbers && SectionEnd(x, minJurorStake) == e;
      SectionEndBounds(x, max, minJurorStake);
    }
  }
}
