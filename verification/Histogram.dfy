/** Counter and histogram increases and quantiles (infra/llm-status/promtext.py). Every number the
    parser keeps is finite, so numbers are reals and only a bucket bound can be infinite. */
module Histogram {
  import opened Options

  datatype Bound = Fin(v: real) | PosInf

  datatype Hist = Hist(bounds: seq<Bound>, cum: seq<real>, count: real, total: Option<real>)

  /** Non-negative bounds that rise strictly and end in +Inf, and counts for the first of them. */
  predicate Shaped(h: Hist) { 0 < |h.cum| <= |h.bounds| && Rising(h.bounds, |h.bounds| - 1) }

  /** The first n bounds are finite, not negative and rise strictly; the last one is +Inf. */
  predicate Rising(bounds: seq<Bound>, n: nat)
    requires n < |bounds|
  {
    if n == 0 then bounds[|bounds| - 1].PosInf?
    else
      && Rising(bounds, n - 1)
      && bounds[n - 1].Fin? && bounds[n - 1].v >= 0.0
      && (n > 1 ==> bounds[n - 2].Fin? && bounds[n - 2].v < bounds[n - 1].v)
  }

  lemma {:induction false} RisingFacts(bounds: seq<Bound>, n: nat)
    requires n < |bounds| && Rising(bounds, n)
    ensures bounds[|bounds| - 1].PosInf?
    ensures forall i :: 0 <= i < n ==> bounds[i].Fin? && bounds[i].v >= 0.0
    ensures forall i, j :: 0 <= i < j < n ==> bounds[i].v < bounds[j].v
  {
    if n > 0 {
      RisingFacts(bounds, n - 1);
    }
  }

  /** What `histogram` hands out: a count for every bound. */
  type Read = h: Hist | Shaped(h) && |h.cum| == |h.bounds|
    witness Hist([PosInf], [0.0], 0.0, None)

  // ---------------------------------------------------------------- increases

  function CounterDelta(a: Option<real>, b: Option<real>): (d: Option<real>)
    ensures d.Some? <==> a.Some? && b.Some? && a.value <= b.value
    ensures d.Some? ==> d.value >= 0.0 && a.value + d.value == b.value
  {
    if a.None? || b.None? || b.value < a.value then None else Some(b.value - a.value)
  }

  function Minus(xs: seq<real>, ys: seq<real>): (r: seq<real>)
    requires |xs| == |ys|
    ensures |r| == |xs| && forall i :: 0 <= i < |r| ==> r[i] == ys[i] - xs[i]
  {
    seq(|xs|, i requires 0 <= i < |xs| => ys[i] - xs[i])
  }

  /** zip: the longer list is cut. */
  function Plus(xs: seq<real>, ys: seq<real>): (r: seq<real>)
    ensures |r| == if |xs| < |ys| then |xs| else |ys|
    ensures forall i :: 0 <= i < |r| ==> r[i] == xs[i] + ys[i]
  {
    var n := if |xs| < |ys| then |xs| else |ys|;
    seq(n, i requires 0 <= i < n => xs[i] + ys[i])
  }

  /** The increase between two readings; None when a count fell or the buckets changed. */
  function HistDelta(a: Option<Read>, b: Option<Read>): (d: Option<Read>)
    ensures d.Some? ==> a.Some? && b.Some? && d.value.bounds == a.value.bounds == b.value.bounds
    ensures d.Some? ==> forall i :: 0 <= i < |d.value.cum| ==>
                          d.value.cum[i] >= 0.0 && a.value.cum[i] + d.value.cum[i] == b.value.cum[i]
    ensures d.Some? ==> d.value.count >= 0.0 && a.value.count + d.value.count == b.value.count
  {
    if a.None? || b.None? || a.value.bounds != b.value.bounds then None
    else if b.value.count < a.value.count
         || exists i :: 0 <= i < |a.value.cum| && b.value.cum[i] < a.value.cum[i] then None
    else
      Some(Hist(b.value.bounds, Minus(a.value.cum, b.value.cum), b.value.count - a.value.count,
                CounterDelta(a.value.total, b.value.total)))
  }

  function HistAdd(a: Option<Hist>, b: Read): (r: Hist)
    requires a.Some? ==> Shaped(a.value)
    ensures Shaped(r)
    ensures a.None? ==> r == b
    ensures a.Some? ==> r.bounds == b.bounds && |r.cum| <= |a.value.cum| && |r.cum| <= |b.cum|
                        && r.count == a.value.count + b.count
                        && (|a.value.cum| == |b.cum| ==> |r.cum| == |b.cum|)
                        && forall i :: 0 <= i < |r.cum| ==> r.cum[i] == a.value.cum[i] + b.cum[i]
  {
    if a.None? then b
    else
      Hist(b.bounds, Plus(a.value.cum, b.cum), a.value.count + b.count,
           if a.value.total.None? || b.total.None? then None else Some(a.value.total.value + b.total.value))
  }

  // ---------------------------------------------------------------- quantiles

  /** The first bucket at or after `from` whose cumulative count reaches rank. */
  function ReachingFrom(cum: seq<real>, rank: real, from: nat): (i: nat)
    requires from < |cum| && rank <= cum[|cum| - 1]
    ensures from <= i < |cum| && cum[i] >= rank
    ensures forall j :: from <= j < i ==> cum[j] < rank
    decreases |cum| - from
  {
    if cum[from] >= rank then from else ReachingFrom(cum, rank, from + 1)
  }

  function FirstReaching(cum: seq<real>, rank: real): (i: nat)
    requires |cum| > 0 && rank <= cum[|cum| - 1]
    ensures i < |cum| && cum[i] >= rank
    ensures forall j :: 0 <= j < i ==> cum[j] < rank
  {
    ReachingFrom(cum, rank, 0)
  }

  /** The upper end of bucket i, which is not the +Inf one. */
  function Top(h: Hist, i: nat): (r: real)
    requires Shaped(h) && i < |h.bounds| - 1
    ensures h.bounds[i] == Fin(r) && r >= 0.0
  {
    RisingFacts(h.bounds, |h.bounds| - 1);
    h.bounds[i].v
  }

  /** The lower end of bucket i. */
  function Lower(h: Hist, i: nat): (r: real)
    requires Shaped(h) && i < |h.bounds|
    ensures r >= 0.0
  {
    if i > 0 then Top(h, i - 1) else 0.0
  }

  /** The count below bucket i. */
  function Prev(h: Hist, i: nat): real
    requires i <= |h.cum|
  {
    if i > 0 then h.cum[i - 1] else 0.0
  }

  function Total(h: Hist): real
    requires |h.cum| > 0
  {
    h.cum[|h.cum| - 1]
  }

  function Rank(q: real, total: real): (r: real)
    requires 0.0 <= q <= 1.0 && total > 0.0
    ensures 0.0 <= r <= total
    ensures q > 0.0 ==> r > 0.0
  {
    AtMostAll(q, total);
    q * total
  }

  /** The point between lo and hi that x out of d reaches. */
  function Between(lo: real, hi: real, x: real, d: real): real
    requires d != 0.0
  {
    lo + (hi - lo) * x / d
  }

  function Quantile(q: real, h: Hist): Option<real>
    requires Shaped(h)
  {
    if Total(h) <= 0.0 || q < 0.0 || q > 1.0 then None
    else
      var rank := Rank(q, Total(h));
      var i := FirstReaching(h.cum, rank);
      if i == |h.bounds| - 1 then if i > 0 then Some(Top(h, i - 1)) else None
      else
        var inside := h.cum[i] - Prev(h, i);
        if inside <= 0.0 then Some(Top(h, i))
        else Some(Between(Lower(h, i), Top(h, i), rank - Prev(h, i), inside))
  }

  lemma AtMostAll(q: real, total: real)
    requires 0.0 <= q <= 1.0 && total > 0.0
    ensures 0.0 <= q * total <= total
    ensures q > 0.0 ==> q * total > 0.0
  {
    assert (1.0 - q) * total >= 0.0;
  }

  lemma ProductOrder(w: real, x: real, y: real)
    requires w >= 0.0 && x <= y
    ensures w * x <= w * y
  {
    assert w * (y - x) >= 0.0;
  }

  lemma RankOrder(q: real, r: real, total: real)
    requires 0.0 <= q <= r <= 1.0 && total > 0.0
    ensures Rank(q, total) <= Rank(r, total)
  {
    var gap := r - q;
    assert gap * total >= 0.0;
    assert r * total == (q + gap) * total == q * total + gap * total;
  }

  lemma QuotientOrder(x: real, y: real, d: real)
    requires x <= y && d > 0.0
    ensures x / d <= y / d
  {
  }

  lemma QuotientOfProduct(w: real, d: real)
    requires d > 0.0
    ensures w * d / d == w
  {
  }

  lemma BetweenOrder(lo: real, hi: real, x: real, y: real, d: real)
    requires lo <= hi && x <= y && d > 0.0
    ensures Between(lo, hi, x, d) <= Between(lo, hi, y, d)
  {
    ProductOrder(hi - lo, x, y);
    QuotientOrder((hi - lo) * x, (hi - lo) * y, d);
  }

  lemma BetweenEnds(lo: real, hi: real, d: real)
    requires d > 0.0
    ensures Between(lo, hi, 0.0, d) == lo && Between(lo, hi, d, d) == hi
  {
    assert (hi - lo) * 0.0 / d == 0.0;
    QuotientOfProduct(hi - lo, d);
  }

  lemma BetweenInside(lo: real, hi: real, x: real, d: real)
    requires lo <= hi && 0.0 <= x <= d && d > 0.0
    ensures lo <= Between(lo, hi, x, d) <= hi
  {
    BetweenEnds(lo, hi, d);
    BetweenOrder(lo, hi, 0.0, x, d);
    BetweenOrder(lo, hi, x, d, d);
  }

  /** Bounds rise from 0: the lower end of a bucket is at most its upper end. */
  lemma LowerAtMost(h: Hist, i: nat, j: nat)
    requires Shaped(h) && i < j < |h.bounds|
    ensures Lower(h, i) <= Top(h, i) <= Lower(h, j)
    ensures j < |h.bounds| - 1 ==> Lower(h, j) <= Top(h, j)
    ensures i > 0 ==> Lower(h, i) < Top(h, i)
  {
    RisingFacts(h.bounds, |h.bounds| - 1);
  }

  /** A quantile lies in the bucket i its rank falls into, or at the largest finite bound. */
  ghost predicate InBucket(h: Hist, i: nat, v: real)
    requires Shaped(h) && i < |h.bounds|
  {
    Lower(h, i) <= v && (if i < |h.bounds| - 1 then v <= Top(h, i) else v == Lower(h, i))
  }

  lemma QuantileInBucket(q: real, h: Hist)
    requires Shaped(h) && Total(h) > 0.0 && 0.0 <= q <= 1.0 && |h.bounds| > 1
    ensures Quantile(q, h).Some?
    ensures InBucket(h, FirstReaching(h.cum, Rank(q, Total(h))), Quantile(q, h).value)
  {
    var rank := Rank(q, Total(h));
    var i := FirstReaching(h.cum, rank);
    if i < |h.bounds| - 1 {
      var inside := h.cum[i] - Prev(h, i);
      LowerAtMost(h, i, |h.bounds| - 1);
      if inside > 0.0 {
        BetweenInside(Lower(h, i), Top(h, i), rank - Prev(h, i), inside);
      }
    }
  }

  lemma BucketsInOrder(h: Hist, i: nat, j: nat, v: real, w: real)
    requires Shaped(h) && i <= j < |h.bounds| && InBucket(h, i, v) && InBucket(h, j, w) && |h.bounds| > 1
    ensures i < j ==> v <= w
    ensures w <= Top(h, |h.bounds| - 2)
  {
    if i < j {
      LowerAtMost(h, i, j);
    }
    if j < |h.bounds| - 1 {
      LowerAtMost(h, j, |h.bounds| - 1);
    }
  }

  /** Quantiles keep the order of their ranks and lie between 0 and the largest finite bound.
      Nothing is asked of the cumulative counts, which need not even rise. */
  lemma QuantileMonotone(q: real, r: real, h: Hist)
    requires Shaped(h) && Total(h) > 0.0 && 0.0 <= q <= r <= 1.0 && |h.bounds| > 1
    ensures Quantile(q, h).Some? && Quantile(r, h).Some?
    ensures 0.0 <= Quantile(q, h).value <= Quantile(r, h).value <= Top(h, |h.bounds| - 2)
  {
    QuantileInBucket(q, h);
    QuantileInBucket(r, h);
    RankOrder(q, r, Total(h));
    var x, y := Rank(q, Total(h)), Rank(r, Total(h));
    var i, j := FirstReaching(h.cum, x), FirstReaching(h.cum, y);
    assert i <= j;
    BucketsInOrder(h, i, j, Quantile(q, h).value, Quantile(r, h).value);
    if i == j && i < |h.bounds| - 1 && h.cum[i] - Prev(h, i) > 0.0 {
      LowerAtMost(h, i, |h.bounds| - 1);
      BetweenOrder(Lower(h, i), Top(h, i), x - Prev(h, i), y - Prev(h, i), h.cum[i] - Prev(h, i));
    }
  }

  /** With only the +Inf bucket there is nothing to say. */
  lemma NoFiniteBound(q: real, h: Hist)
    requires Shaped(h) && |h.bounds| == 1
    ensures Quantile(q, h) == None
  {
  }

  // ---------------------------------------------------------------- the reference

  /** The first finite bucket from i on that x does not exceed; the +Inf bucket if x is above all of them. */
  function BucketOf(h: Hist, x: real, i: nat): (b: nat)
    requires Shaped(h) && i < |h.bounds|
    ensures i <= b < |h.bounds|
    ensures b < |h.bounds| - 1 ==> x <= Top(h, b)
    ensures forall j :: i <= j < b ==> Top(h, j) < x
    decreases |h.bounds| - i
  {
    if i == |h.bounds| - 1 || x <= Top(h, i) then i else BucketOf(h, x, i + 1)
  }

  /** The count of values up to x, spread evenly inside each bucket. */
  function CountUpTo(h: Read, x: real): real {
    var i := BucketOf(h, x, 0);
    if i == |h.bounds| - 1 || Top(h, i) <= Lower(h, i) then h.cum[i]
    else Between(Prev(h, i), h.cum[i], x - Lower(h, i), Top(h, i) - Lower(h, i))
  }

  lemma BetweenStrict(lo: real, hi: real, x: real, d: real)
    requires lo < hi && 0.0 < x && d > 0.0
    ensures lo < Between(lo, hi, x, d)
  {
    var t := x / d;
    assert t > 0.0;
    assert (hi - lo) * x / d == (hi - lo) * t;
    assert (hi - lo) * t > 0.0;
  }

  lemma BetweenInverts(lo: real, hi: real, x: real, d: real, base: real)
    requires lo < hi && d > 0.0
    ensures Between(base, base + d, Between(lo, hi, x, d) - lo, hi - lo) == base + x
  {
    var w := hi - lo;
    var step := w * x / d;
    assert d * step == w * x;
    QuotientOfProduct(x, w);
    assert d * step / w == x;
  }

  /** The rank falls into a finite bucket of some width. */
  ghost predicate ReachedBelowInf(q: real, h: Read) {
    && Total(h) > 0.0 && 0.0 < q <= 1.0 && |h.cum| > 1 && Top(h, 0) > 0.0
    && Rank(q, Total(h)) <= h.cum[|h.cum| - 2]
  }

  /** A quantile that falls into a finite bucket is the value up to which exactly q of the counts lie. */
  lemma QuantileInvertsCounts(q: real, h: Read)
    ensures ReachedBelowInf(q, h) ==>
              Quantile(q, h).Some? && CountUpTo(h, Quantile(q, h).value) == Rank(q, Total(h))
  {
    if ReachedBelowInf(q, h) {
      var rank := Rank(q, Total(h));
      var i := FirstReaching(h.cum, rank);
      assert i < |h.bounds| - 1;
      var lower, prev, top := Lower(h, i), Prev(h, i), Top(h, i);
      var inside := h.cum[i] - prev;
      LowerAtMost(h, i, |h.bounds| - 1);
      assert lower < top && inside > 0.0;
      var v := Between(lower, top, rank - prev, inside);
      BetweenInside(lower, top, rank - prev, inside);
      BetweenStrict(lower, top, rank - prev, inside);
      BucketIs(h, i, v);
      BetweenInverts(lower, top, rank - prev, inside, prev);
    }
  }

  lemma BucketIs(h: Hist, i: nat, v: real)
    requires Shaped(h) && i < |h.bounds| - 1 && Lower(h, i) < v <= Top(h, i)
    ensures BucketOf(h, v, 0) == i
  {
    var b := BucketOf(h, v, 0);
    if b < i {
      LowerAtMost(h, b, i);
    }
  }
}
