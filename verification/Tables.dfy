/** Rows keyed by time, as the sample store keeps them (infra/llm-status/samplestore.py): what its SQL
    statements select, replace and group, and the laws that make grouping in steps the same as grouping once. */
module Tables {

  datatype Entry<+T> = Entry(ts: int, val: T)

  // ---------------------------------------------------------------- WHERE, ORDER BY, INSERT OR REPLACE

  ghost predicate AllFrom<T>(t: seq<Entry<T>>, x: int) {
    t == [] || (AllFrom(t[..|t| - 1], x) && x <= t[|t| - 1].ts)
  }

  ghost predicate AllBelow<T>(t: seq<Entry<T>>, x: int) {
    t == [] || (AllBelow(t[..|t| - 1], x) && t[|t| - 1].ts < x)
  }

  /** A table: no time twice, rows in the order of time. */
  ghost predicate Ascending<T>(t: seq<Entry<T>>) {
    t == [] || (Ascending(t[..|t| - 1]) && AllBelow(t[..|t| - 1], t[|t| - 1].ts))
  }

  /** WHERE ts >= x. */
  function From<T>(t: seq<Entry<T>>, x: int): seq<Entry<T>> {
    if t == [] then []
    else if x <= t[|t| - 1].ts then From(t[..|t| - 1], x) + [t[|t| - 1]]
    else From(t[..|t| - 1], x)
  }

  /** WHERE ts < x. */
  function Until<T>(t: seq<Entry<T>>, x: int): seq<Entry<T>> {
    if t == [] then []
    else if t[|t| - 1].ts < x then Until(t[..|t| - 1], x) + [t[|t| - 1]]
    else Until(t[..|t| - 1], x)
  }

  /** WHERE ts >= x AND ts < y. */
  function Between<T>(t: seq<Entry<T>>, x: int, y: int): seq<Entry<T>> { From(Until(t, y), x) }

  /** INSERT OR REPLACE. */
  function Put<T>(t: seq<Entry<T>>, e: Entry<T>): seq<Entry<T>> { Until(t, e.ts) + [e] + From(t, e.ts + 1) }

  function PutAll<T>(t: seq<Entry<T>>, more: seq<Entry<T>>): seq<Entry<T>> {
    if more == [] then t else Put(PutAll(t, more[..|more| - 1]), more[|more| - 1])
  }

  lemma SnocInit<T>(t: seq<Entry<T>>, e: Entry<T>)
    ensures (t + [e])[..|t + [e]| - 1] == t && (t + [e])[|t + [e]| - 1] == e && t + [e] != []
  {
  }

  lemma ConcatInit<T>(a: seq<Entry<T>>, b: seq<Entry<T>>)
    requires b != []
    ensures a + b != [] && (a + b)[..|a + b| - 1] == a + b[..|b| - 1] && (a + b)[|a + b| - 1] == b[|b| - 1]
  {
  }

  lemma ConcatNil<T>(a: seq<Entry<T>>)
    ensures a + [] == a && [] + a == a
  {
  }

  lemma ConcatAssoc<T>(a: seq<Entry<T>>, b: seq<Entry<T>>, c: seq<Entry<T>>)
    ensures a + b + c == a + (b + c)
  {
  }

  lemma InitLast<T>(t: seq<Entry<T>>)
    requires t != []
    ensures t == t[..|t| - 1] + [t[|t| - 1]]
  {
  }

  lemma {:induction false} AllFromConcat<T>(a: seq<Entry<T>>, b: seq<Entry<T>>, x: int)
    ensures AllFrom(a + b, x) <==> AllFrom(a, x) && AllFrom(b, x)
    decreases |b|
  {
    if b == [] {
      ConcatNil(a);
    } else {
      ConcatInit(a, b);
      AllFromConcat(a, b[..|b| - 1], x);
    }
  }

  lemma {:induction false} AllBelowConcat<T>(a: seq<Entry<T>>, b: seq<Entry<T>>, x: int)
    ensures AllBelow(a + b, x) <==> AllBelow(a, x) && AllBelow(b, x)
    decreases |b|
  {
    if b == [] {
      ConcatNil(a);
    } else {
      ConcatInit(a, b);
      AllBelowConcat(a, b[..|b| - 1], x);
    }
  }

  lemma {:induction false} AllFromMono<T>(t: seq<Entry<T>>, x: int, y: int)
    requires AllFrom(t, y) && x <= y
    ensures AllFrom(t, x)
  {
    if t != [] {
      AllFromMono(t[..|t| - 1], x, y);
    }
  }

  lemma {:induction false} AllBelowMono<T>(t: seq<Entry<T>>, x: int, y: int)
    requires AllBelow(t, x) && x <= y
    ensures AllBelow(t, y)
  {
    if t != [] {
      AllBelowMono(t[..|t| - 1], x, y);
    }
  }

  /** The rows selected from x on lie at or after x, and below y if all rows did. */
  lemma {:induction false} FromSelects<T>(t: seq<Entry<T>>, x: int)
    ensures AllFrom(From(t, x), x)
    ensures forall y :: AllBelow(t, y) ==> AllBelow(From(t, x), y)
    ensures AllFrom(t, x) ==> From(t, x) == t
    ensures AllBelow(t, x) ==> From(t, x) == []
  {
    if t != [] {
      var pre, last := t[..|t| - 1], t[|t| - 1];
      InitLast(t);
      FromSelects(pre, x);
      SnocInit(From(pre, x), last);
    }
  }

  lemma {:induction false} UntilSelects<T>(t: seq<Entry<T>>, y: int)
    ensures AllBelow(Until(t, y), y)
    ensures forall x :: AllFrom(t, x) ==> AllFrom(Until(t, y), x)
    ensures forall x :: AllBelow(t, x) ==> AllBelow(Until(t, y), x)
    ensures AllBelow(t, y) ==> Until(t, y) == t
    ensures AllFrom(t, y) ==> Until(t, y) == []
  {
    if t != [] {
      var pre, last := t[..|t| - 1], t[|t| - 1];
      InitLast(t);
      UntilSelects(pre, y);
      SnocInit(Until(pre, y), last);
    }
  }

  /** Rows picked from rows that lie at or after x lie there too. */
  lemma {:induction false} PickedFrom<T>(t: seq<Entry<T>>, y: int, x: int)
    requires AllFrom(t, x)
    ensures AllFrom(From(t, y), x) && AllFrom(Until(t, y), x)
  {
    if t != [] {
      var pre, last := t[..|t| - 1], t[|t| - 1];
      PickedFrom(pre, y, x);
      SnocInit(From(pre, y), last);
      SnocInit(Until(pre, y), last);
    }
  }

  lemma PutFrom<T>(t: seq<Entry<T>>, e: Entry<T>, x: int)
    requires AllFrom(t, x) && x <= e.ts
    ensures AllFrom(Put(t, e), x)
  {
    PickedFrom(t, e.ts, x);
    PickedFrom(t, e.ts + 1, x);
    SnocInit(Until(t, e.ts), e);
    AllFromConcat(Until(t, e.ts) + [e], From(t, e.ts + 1), x);
  }

  lemma {:induction false} FromConcat<T>(a: seq<Entry<T>>, b: seq<Entry<T>>, x: int)
    ensures From(a + b, x) == From(a, x) + From(b, x)
    decreases |b|
  {
    if b == [] {
      ConcatNil(a);
      ConcatNil(From(a, x));
    } else {
      ConcatInit(a, b);
      FromConcat(a, b[..|b| - 1], x);
      ConcatAssoc(From(a, x), From(b[..|b| - 1], x), [b[|b| - 1]]);
    }
  }

  lemma {:induction false} UntilConcat<T>(a: seq<Entry<T>>, b: seq<Entry<T>>, x: int)
    ensures Until(a + b, x) == Until(a, x) + Until(b, x)
    decreases |b|
  {
    if b == [] {
      ConcatNil(a);
      ConcatNil(Until(a, x));
    } else {
      ConcatInit(a, b);
      UntilConcat(a, b[..|b| - 1], x);
      ConcatAssoc(Until(a, x), Until(b[..|b| - 1], x), [b[|b| - 1]]);
    }
  }

  /** A table cut at x. */
  lemma {:induction false} SplitSum<T>(t: seq<Entry<T>>, x: int)
    requires Ascending(t)
    ensures t == Until(t, x) + From(t, x)
  {
    if t == [] {
    } else if t[|t| - 1].ts < x {
      AllBelowMono(t[..|t| - 1], t[|t| - 1].ts, x);
      UntilSelects(t, x);
      FromSelects(t, x);
      ConcatNil(t);
    } else {
      var pre, last := t[..|t| - 1], t[|t| - 1];
      SplitSum(pre, x);
      InitLast(t);
      ConcatAssoc(Until(pre, x), From(pre, x), [last]);
    }
  }

  lemma {:induction false} ConcatAscends<T>(a: seq<Entry<T>>, b: seq<Entry<T>>)
    requires Ascending(a + b)
    ensures Ascending(a) && Ascending(b)
    decreases |b|
  {
    if b == [] {
      ConcatNil(a);
    } else {
      ConcatInit(a, b);
      AllBelowConcat(a, b[..|b| - 1], b[|b| - 1].ts);
      ConcatAscends(a, b[..|b| - 1]);
    }
  }

  lemma Split<T>(t: seq<Entry<T>>, x: int)
    requires Ascending(t)
    ensures t == Until(t, x) + From(t, x)
    ensures Ascending(Until(t, x)) && AllBelow(Until(t, x), x)
    ensures Ascending(From(t, x)) && AllFrom(From(t, x), x)
  {
    SplitSum(t, x);
    ConcatAscends(Until(t, x), From(t, x));
    UntilSelects(t, x);
    FromSelects(t, x);
  }

  /** Whatever cuts a table at x is its cut at x. */
  lemma SplitIs<T>(a: seq<Entry<T>>, b: seq<Entry<T>>, x: int)
    requires AllBelow(a, x) && AllFrom(b, x)
    ensures Until(a + b, x) == a && From(a + b, x) == b
  {
    FromConcat(a, b, x);
    UntilConcat(a, b, x);
    FromSelects(a, x);
    FromSelects(b, x);
    UntilSelects(a, x);
    UntilSelects(b, x);
    ConcatNil(a);
    ConcatNil(b);
  }

  lemma {:induction false} JoinAscends<T>(a: seq<Entry<T>>, b: seq<Entry<T>>, x: int)
    requires Ascending(a) && Ascending(b) && AllBelow(a, x) && AllFrom(b, x)
    ensures Ascending(a + b)
    decreases |b|
  {
    if b == [] {
      ConcatNil(a);
    } else {
      ConcatInit(a, b);
      JoinAscends(a, b[..|b| - 1], x);
      AllBelowMono(a, x, b[|b| - 1].ts);
      AllBelowConcat(a, b[..|b| - 1], b[|b| - 1].ts);
    }
  }

  lemma FromFrom<T>(t: seq<Entry<T>>, x: int, y: int)
    requires Ascending(t) && x <= y
    ensures From(From(t, x), y) == From(t, y)
  {
    Split(t, x);
    FromConcat(Until(t, x), From(t, x), y);
    AllBelowMono(Until(t, x), x, y);
    FromSelects(Until(t, x), y);
    ConcatNil(From(From(t, x), y));
  }

  lemma UntilUntil<T>(t: seq<Entry<T>>, x: int, y: int)
    requires Ascending(t) && x <= y
    ensures Until(Until(t, y), x) == Until(t, x)
  {
    Split(t, y);
    UntilConcat(Until(t, y), From(t, y), x);
    AllFromMono(From(t, y), x, y);
    UntilSelects(From(t, y), x);
    ConcatNil(Until(Until(t, y), x));
  }

  /** The rows up to y are those up to x and those between. */
  lemma UntilGrows<T>(t: seq<Entry<T>>, x: int, y: int)
    requires Ascending(t) && x <= y
    ensures Until(t, y) == Until(t, x) + Between(t, x, y)
    ensures Ascending(Between(t, x, y)) && AllFrom(Between(t, x, y), x) && AllBelow(Between(t, x, y), y)
  {
    Split(t, y);
    Split(Until(t, y), x);
    UntilUntil(t, x, y);
    FromSelects(Until(t, y), x);
  }

  lemma Thirds<T>(t: seq<Entry<T>>, x: int, y: int)
    requires Ascending(t) && x <= y
    ensures t == Until(t, x) + Between(t, x, y) + From(t, y)
    ensures AllBelow(Until(t, x), x) && AllFrom(Between(t, x, y), x) && AllBelow(Between(t, x, y), y)
    ensures AllFrom(From(t, y), y)
  {
    UntilGrows(t, x, y);
    UntilSelects(t, x);
    Split(t, y);
  }

  lemma UntilOfFrom<T>(t: seq<Entry<T>>, x: int, y: int)
    requires Ascending(t)
    ensures Until(From(t, x), y) == Between(t, x, y)
  {
    var low, high := Until(t, x), From(t, x);
    Split(t, x);
    UntilConcat(low, high, y);
    UntilSelects(low, y);
    UntilSelects(high, y);
    SplitIs(Until(low, y), Until(high, y), x);
  }

  /** Selecting rows between x and y commutes with an earlier cut below x. */
  lemma BetweenFrom<T>(t: seq<Entry<T>>, w: int, x: int, y: int)
    requires Ascending(t) && w <= x
    ensures Between(From(t, w), x, y) == Between(t, x, y)
  {
    UntilOfFrom(t, w, y);
    Split(t, y);
    FromFrom(Until(t, y), w, x);
  }

  lemma PutAscends<T>(t: seq<Entry<T>>, e: Entry<T>)
    requires Ascending(t)
    ensures Ascending(Put(t, e))
  {
    Split(t, e.ts);
    Split(t, e.ts + 1);
    var low := Until(t, e.ts) + [e];
    SnocInit(Until(t, e.ts), e);
    AllBelowMono(Until(t, e.ts), e.ts, e.ts + 1);
    JoinAscends(low, From(t, e.ts + 1), e.ts + 1);
  }

  lemma PutParts<T>(low: seq<Entry<T>>, mid: seq<Entry<T>>, e: Entry<T>, high: seq<Entry<T>>, x: int)
    requires AllBelow(low, x) && AllFrom(mid, x) && x <= e.ts && AllFrom(high, x)
    ensures Until((low + mid) + [e] + high, x) == low
    ensures From((low + mid) + [e] + high, x) == mid + [e] + high
  {
    SnocInit(mid, e);
    AllFromConcat(mid + [e], high, x);
    ConcatAssoc(low, mid, [e]);
    ConcatAssoc(low, mid + [e], high);
    SplitIs(low, mid + [e] + high, x);
  }

  lemma PutIntoRest<T>(t: seq<Entry<T>>, x: int, e: Entry<T>)
    requires Ascending(t) && x <= e.ts
    ensures Put(From(t, x), e) == Between(t, x, e.ts) + [e] + From(t, e.ts + 1)
  {
    UntilOfFrom(t, x, e.ts);
    FromFrom(t, x, e.ts + 1);
  }

  /** A row at or after x does not touch what lies before x. */
  lemma PutAbove<T>(t: seq<Entry<T>>, x: int, e: Entry<T>)
    requires Ascending(t) && x <= e.ts
    ensures Until(Put(t, e), x) == Until(t, x)
    ensures From(Put(t, e), x) == Put(From(t, x), e)
  {
    var high := From(t, e.ts + 1);
    UntilSelects(t, x);
    FromSelects(t, e.ts + 1);
    FromSelects(Until(t, e.ts), x);
    AllFromMono(high, x, e.ts + 1);
    PutParts(Until(t, x), Between(t, x, e.ts), e, high, x);
    PutIntoParts(t, x, e);
    PutIntoRest(t, x, e);
  }

  lemma PutIntoParts<T>(t: seq<Entry<T>>, x: int, e: Entry<T>)
    requires Ascending(t) && x <= e.ts
    ensures Put(t, e) == (Until(t, x) + Between(t, x, e.ts)) + [e] + From(t, e.ts + 1)
  {
    UntilGrows(t, x, e.ts);
  }

  lemma PutBehind<T>(t: seq<Entry<T>>, e: Entry<T>)
    requires AllBelow(t, e.ts)
    ensures Put(t, e) == t + [e]
  {
    UntilSelects(t, e.ts);
    AllBelowMono(t, e.ts, e.ts + 1);
    FromSelects(t, e.ts + 1);
    ConcatNil(t + [e]);
  }

  /** Rows behind all others are appended. */
  lemma {:induction false} PutAllBehind<T>(t: seq<Entry<T>>, more: seq<Entry<T>>, x: int)
    requires AllBelow(t, x) && AllFrom(more, x) && Ascending(more)
    ensures PutAll(t, more) == t + more
  {
    if more == [] {
      ConcatNil(t);
    } else {
      var pre, e := more[..|more| - 1], more[|more| - 1];
      PutAllBehind(t, pre, x);
      AllBelowMono(t, x, e.ts);
      AllBelowConcat(t, pre, e.ts);
      PutBehind(t + pre, e);
      InitLast(more);
      ConcatAssoc(t, pre, [e]);
    }
  }

  // ---------------------------------------------------------------- GROUP BY

  type Count = n: int | 1 <= n witness 1

  /** COUNT, SUM, MIN and MAX of some samples. */
  datatype Sum = Sum(n: Count, sum: real, mn: real, mx: real)

  function One(v: real): Sum { Sum(1, v, v, v) }

  function Min(a: real, b: real): real { if b < a then b else a }

  function Max(a: real, b: real): real { if a < b then b else a }

  function Merge(a: Sum, b: Sum): Sum { Sum(a.n + b.n, a.sum + b.sum, Min(a.mn, b.mn), Max(a.mx, b.mx)) }

  type Step = n: int | 1 <= n witness 1

  /** The start of the cell that holds ts. */
  function Floor(ts: int, step: Step): int { ts / step * step }

  lemma MulMono(p: int, q: int, step: Step)
    requires p <= q
    ensures p * step <= q * step
  {
  }

  lemma ModOfProduct(p: int, step: Step)
    ensures p * step % step == 0
  {
    var q, r := p * step / step, p * step % step;
    if r != 0 {
      assert (p - q) * step == r;
      if p - q >= 1 {
        MulMono(1, p - q, step);
      } else {
        MulMono(p - q, 0, step);
      }
      assert false;
    }
  }

  lemma Multiple(b: int, step: Step) returns (k: int)
    requires b % step == 0
    ensures b == k * step
  {
    k := b / step;
  }

  lemma FloorIs(ts: int, step: Step)
    ensures Floor(ts, step) <= ts < Floor(ts, step) + step && Floor(ts, step) % step == 0
  {
    ModOfProduct(ts / step, step);
  }

  lemma NextAligned(b: int, step: Step)
    requires b % step == 0
    ensures (b + step) % step == 0
  {
    var k := Multiple(b, step);
    assert b + step == (k + 1) * step;
    ModOfProduct(k + 1, step);
  }

  /** Two aligned times less than a step apart are one. */
  lemma AlignedApart(x: int, y: int, step: Step)
    requires x % step == 0 && y % step == 0 && x < y + step && y < x + step
    ensures x == y
  {
    var p := Multiple(x, step);
    var q := Multiple(y, step);
    if p + 1 <= q {
      MulMono(p + 1, q, step);
    } else if q + 1 <= p {
      MulMono(q + 1, p, step);
    }
  }

  /** An aligned x lies at or before a row exactly when it lies at or before the row's cell. */
  lemma FloorFrom(ts: int, x: int, step: Step)
    requires x % step == 0
    ensures x <= ts <==> x <= Floor(ts, step)
  {
    FloorIs(ts, step);
    if Floor(ts, step) < x <= ts {
      AlignedApart(x, Floor(ts, step), step);
    }
  }

  lemma FloorMono(a: int, b: int, step: Step)
    requires a <= b
    ensures Floor(a, step) <= Floor(b, step)
  {
    FloorIs(a, step);
    FloorFrom(b, Floor(a, step), step);
  }

  lemma FloorUnique(ts: int, x: int, step: Step)
    requires x % step == 0 && x <= ts < x + step
    ensures Floor(ts, step) == x
  {
    FloorIs(ts, step);
    AlignedApart(x, Floor(ts, step), step);
  }

  /** The cell of a cell of a finer step is the cell. */
  lemma FloorFloor(ts: int, fine: Step, step: Step)
    requires step % fine == 0
    ensures Floor(Floor(ts, fine), step) == Floor(ts, step)
  {
    FloorIs(ts, step);
    FloorIs(ts, fine);
    var m := Multiple(step, fine);
    assert Floor(ts, step) == ts / step * m * fine;
    ModOfProduct(ts / step * m, fine);
    FloorFrom(ts, Floor(ts, step), fine);
    FloorUnique(Floor(ts, fine), Floor(ts, step), step);
  }

  /** One more row of the cell that starts at b. */
  function AddAt(g: seq<Entry<Sum>>, b: int, s: Sum): seq<Entry<Sum>> {
    if g != [] && g[|g| - 1].ts == b then g[..|g| - 1] + [Entry(b, Merge(g[|g| - 1].val, s))] else g + [Entry(b, s)]
  }

  function AddTo(g: seq<Entry<Sum>>, e: Entry<Sum>, step: Step): seq<Entry<Sum>> { AddAt(g, Floor(e.ts, step), e.val) }

  /** Rows in the order of time, grouped by cell: the start of each cell and its totals. */
  function Group(c: seq<Entry<Sum>>, step: Step): seq<Entry<Sum>> {
    if c == [] then [] else AddTo(Group(c[..|c| - 1], step), c[|c| - 1], step)
  }

  /** SQLite's `ts / step * step`: its division truncates, so the cell around 0 is twice as wide. */
  function SqlFloor(ts: int, step: Step): int { if ts >= 0 then Floor(ts, step) else -Floor(-ts, step) }

  lemma SqlFloorIs(ts: int, step: Step)
    ensures var r := SqlFloor(ts, step);
            r % step == 0 && if ts >= 0 then r <= ts < r + step else r - step < ts <= r
  {
    FloorIs(ts, step);
    FloorIs(-ts, step);
    var k := -ts / step;
    ModOfProduct(-k, step);
    assert -Floor(-ts, step) == -k * step;
  }

  /** The same grouping as SQLite does it. */
  function SqlGroup(c: seq<Entry<Sum>>, step: Step): seq<Entry<Sum>> {
    if c == [] then []
    else
      var e := c[|c| - 1];
      AddAt(SqlGroup(c[..|c| - 1], step), SqlFloor(e.ts, step), e.val)
  }

  /** From 1970 on it makes no difference. */
  lemma {:induction false} SqlGroupIs(c: seq<Entry<Sum>>, step: Step)
    requires AllFrom(c, 0)
    ensures SqlGroup(c, step) == Group(c, step)
  {
    if c != [] {
      SqlGroupIs(c[..|c| - 1], step);
    }
  }

  /** The same rows with another value each. */
  function Map<T, U>(f: T -> U, t: seq<Entry<T>>): seq<Entry<U>> {
    if t == [] then [] else Map(f, t[..|t| - 1]) + [Entry(t[|t| - 1].ts, f(t[|t| - 1].val))]
  }

  /** Rows as cells of one sample each. */
  function Singles(t: seq<Entry<real>>): seq<Entry<Sum>> { Map(One, t) }

  lemma {:induction false} MapConcat<T, U>(f: T -> U, a: seq<Entry<T>>, b: seq<Entry<T>>)
    ensures Map(f, a + b) == Map(f, a) + Map(f, b)
    decreases |b|
  {
    if b == [] {
      ConcatNil(a);
      ConcatNil(Map(f, a));
    } else {
      var pre, last := b[..|b| - 1], b[|b| - 1];
      ConcatInit(a, b);
      MapConcat(f, a, pre);
      ConcatAssoc(Map(f, a), Map(f, pre), [Entry(last.ts, f(last.val))]);
    }
  }

  lemma MapSnoc<T, U>(f: T -> U, t: seq<Entry<T>>)
    ensures Map(f, t) == [] <==> t == []
    ensures t != [] ==> Map(f, t)[..|Map(f, t)| - 1] == Map(f, t[..|t| - 1])
                        && Map(f, t)[|Map(f, t)| - 1] == Entry(t[|t| - 1].ts, f(t[|t| - 1].val))
  {
    if t != [] {
      SnocInit(Map(f, t[..|t| - 1]), Entry(t[|t| - 1].ts, f(t[|t| - 1].val)));
    }
  }

  /** The times stay. */
  lemma {:induction false} MapTimes<T, U>(f: T -> U, t: seq<Entry<T>>)
    ensures forall x :: AllFrom(Map(f, t), x) == AllFrom(t, x)
    ensures forall x :: AllBelow(Map(f, t), x) == AllBelow(t, x)
    ensures Ascending(Map(f, t)) == Ascending(t)
  {
    MapSnoc(f, t);
    if t != [] {
      MapTimes(f, t[..|t| - 1]);
    }
  }

  lemma {:induction false} FromMap<T, U>(f: T -> U, t: seq<Entry<T>>, x: int)
    ensures From(Map(f, t), x) == Map(f, From(t, x))
  {
    MapSnoc(f, t);
    if t != [] {
      var pre, last := t[..|t| - 1], t[|t| - 1];
      FromMap(f, pre, x);
      SnocInit(From(pre, x), last);
    }
  }

  lemma {:induction false} UntilMap<T, U>(f: T -> U, t: seq<Entry<T>>, x: int)
    ensures Until(Map(f, t), x) == Map(f, Until(t, x))
  {
    MapSnoc(f, t);
    if t != [] {
      var pre, last := t[..|t| - 1], t[|t| - 1];
      UntilMap(f, pre, x);
      SnocInit(Until(pre, x), last);
    }
  }

  lemma {:induction false} GroupBelow(a: seq<Entry<Sum>>, x: int, step: Step)
    requires AllBelow(a, x)
    ensures AllBelow(Group(a, step), x)
  {
    if a != [] {
      var pre, e := a[..|a| - 1], a[|a| - 1];
      GroupBelow(pre, x, step);
      FloorIs(e.ts, step);
      AddBelow(Group(pre, step), e, x, step);
    }
  }

  /** Rows before an aligned x lie in cells that start a step before it or earlier. */
  lemma {:induction false} GroupBelowCell(a: seq<Entry<Sum>>, x: int, step: Step)
    requires AllBelow(a, x) && x % step == 0
    ensures AllBelow(Group(a, step), x - step + 1)
  {
    if a != [] {
      var pre, e := a[..|a| - 1], a[|a| - 1];
      GroupBelowCell(pre, x, step);
      CellBelow(e.ts, x, step);
      AddBelow(Group(pre, step), e, x - step + 1, step);
    }
  }

  lemma CellBelow(ts: int, x: int, step: Step)
    requires x % step == 0 && ts < x
    ensures Floor(ts, step) <= x - step
  {
    FloorIs(ts, step);
    NextAligned(Floor(ts, step), step);
    if Floor(ts, step) > x - step {
      AlignedApart(x, Floor(ts, step) + step, step);
    }
  }

  lemma AddBelow(g: seq<Entry<Sum>>, e: Entry<Sum>, x: int, step: Step)
    requires AllBelow(g, x) && Floor(e.ts, step) < x
    ensures AllBelow(AddTo(g, e, step), x)
  {
    var b := Floor(e.ts, step);
    if g != [] && g[|g| - 1].ts == b {
      SnocInit(g[..|g| - 1], Entry(b, Merge(g[|g| - 1].val, e.val)));
    } else {
      SnocInit(g, Entry(b, e.val));
    }
  }

  lemma AddConcat(g: seq<Entry<Sum>>, h: seq<Entry<Sum>>, e: Entry<Sum>, x: int, step: Step)
    requires AllBelow(g, x) && AllFrom(h, x) && x <= Floor(e.ts, step)
    ensures AddTo(g + h, e, step) == g + AddTo(h, e, step) && AllFrom(AddTo(h, e, step), x)
  {
    var b := Floor(e.ts, step);
    if h == [] {
      ConcatNil(g);
      SnocInit(h, Entry(b, e.val));
    } else {
      ConcatInit(g, h);
      var pre, last := h[..|h| - 1], h[|h| - 1];
      if last.ts == b {
        SnocInit(pre, Entry(b, Merge(last.val, e.val)));
        ConcatAssoc(g, pre, [Entry(b, Merge(last.val, e.val))]);
      } else {
        SnocInit(h, Entry(b, e.val));
        ConcatAssoc(g, h, [Entry(b, e.val)]);
      }
    }
  }

  /** Grouping rows on both sides of an aligned x is grouping each side. */
  lemma {:induction false} GroupConcat(a: seq<Entry<Sum>>, b: seq<Entry<Sum>>, x: int, step: Step)
    requires AllBelow(a, x) && AllFrom(b, x) && x % step == 0
    ensures Group(a + b, step) == Group(a, step) + Group(b, step)
    ensures AllBelow(Group(a, step), x) && AllFrom(Group(b, step), x)
    decreases |b|
  {
    GroupBelow(a, x, step);
    if b == [] {
      ConcatNil(a);
      ConcatNil(Group(a, step));
    } else {
      var pre, e := b[..|b| - 1], b[|b| - 1];
      ConcatInit(a, b);
      GroupConcat(a, pre, x, step);
      FloorFrom(e.ts, x, step);
      AddConcat(Group(a, step), Group(pre, step), e, x, step);
    }
  }

  /** The same for rows. */
  lemma BucketConcat(a: seq<Entry<real>>, b: seq<Entry<real>>, x: int, step: Step)
    requires AllBelow(a, x) && AllFrom(b, x) && x % step == 0
    ensures Group(Singles(a + b), step) == Group(Singles(a), step) + Group(Singles(b), step)
    ensures AllBelow(Group(Singles(a), step), x) && AllFrom(Group(Singles(b), step), x)
  {
    MapConcat(One, a, b);
    MapTimes(One, a);
    MapTimes(One, b);
    GroupConcat(Singles(a), Singles(b), x, step);
  }

  /** Re-grouping cells of a finer step loses nothing: it is grouping the rows. */
  lemma {:induction false} Regroup(c: seq<Entry<Sum>>, fine: Step, step: Step)
    requires step % fine == 0
    ensures Group(Group(c, fine), step) == Group(c, step)
  {
    if c != [] {
      var pre, e := c[..|c| - 1], c[|c| - 1];
      Regroup(pre, fine, step);
      FloorFloor(e.ts, fine, step);
      RegroupAdd(Group(pre, fine), e, fine, step);
    }
  }

  lemma RegroupAdd(h: seq<Entry<Sum>>, e: Entry<Sum>, fine: Step, step: Step)
    requires Floor(Floor(e.ts, fine), step) == Floor(e.ts, step)
    ensures Group(AddTo(h, e, fine), step) == AddTo(Group(h, step), e, step)
  {
    var b := Floor(e.ts, fine);
    if h != [] && h[|h| - 1].ts == b {
      var pre, last := h[..|h| - 1], h[|h| - 1];
      SnocInit(pre, Entry(b, Merge(last.val, e.val)));
      AddMerged(Group(pre, step), last, e, step);
    } else {
      SnocInit(h, Entry(b, e.val));
    }
  }

  /** Adding two cells of one group, or their merger. */
  lemma AddMerged(g: seq<Entry<Sum>>, c: Entry<Sum>, e: Entry<Sum>, step: Step)
    requires Floor(c.ts, step) == Floor(e.ts, step)
    ensures AddTo(g, Entry(c.ts, Merge(c.val, e.val)), step) == AddTo(AddTo(g, c, step), e, step)
  {
    var b := Floor(c.ts, step);
    if g != [] && g[|g| - 1].ts == b {
      SnocInit(g[..|g| - 1], Entry(b, Merge(g[|g| - 1].val, c.val)));
    } else {
      SnocInit(g, Entry(b, c.val));
    }
  }

  /** Groups come in the order of time, each at the start of its cell. */
  lemma {:induction false} GroupAscends(c: seq<Entry<Sum>>, step: Step)
    requires Ascending(c)
    ensures Ascending(Group(c, step))
    ensures c == [] <==> Group(c, step) == []
    ensures c != [] ==> Group(c, step)[|Group(c, step)| - 1].ts == Floor(c[|c| - 1].ts, step)
  {
    if c != [] {
      var pre, e := c[..|c| - 1], c[|c| - 1];
      GroupAscends(pre, step);
      if pre != [] {
        FloorMono(pre[|pre| - 1].ts, e.ts, step);
      }
      AddAscends(Group(pre, step), e, step);
    }
  }

  lemma AddAscends(g: seq<Entry<Sum>>, e: Entry<Sum>, step: Step)
    requires Ascending(g) && (g != [] ==> g[|g| - 1].ts <= Floor(e.ts, step))
    ensures var h := AddTo(g, e, step); Ascending(h) && h != [] && h[|h| - 1].ts == Floor(e.ts, step)
  {
    var b := Floor(e.ts, step);
    if g != [] && g[|g| - 1].ts == b {
      SnocInit(g[..|g| - 1], Entry(b, Merge(g[|g| - 1].val, e.val)));
    } else {
      SnocInit(g, Entry(b, e.val));
      if g != [] {
        AllBelowMono(g[..|g| - 1], g[|g| - 1].ts, b);
      }
    }
  }

  /** Every row stands at the start of a cell. */
  ghost predicate Aligned<T>(t: seq<Entry<T>>, step: Step) {
    t == [] || (Aligned(t[..|t| - 1], step) && t[|t| - 1].ts % step == 0)
  }

  lemma {:induction false} GroupAligned(c: seq<Entry<Sum>>, step: Step)
    ensures Aligned(Group(c, step), step)
  {
    if c != [] {
      var pre, e := c[..|c| - 1], c[|c| - 1];
      GroupAligned(pre, step);
      FloorIs(e.ts, step);
      var g, b := Group(pre, step), Floor(e.ts, step);
      if g != [] && g[|g| - 1].ts == b {
        SnocInit(g[..|g| - 1], Entry(b, Merge(g[|g| - 1].val, e.val)));
      } else {
        SnocInit(g, Entry(b, e.val));
      }
    }
  }

  lemma {:induction false} MapAligned<T, U>(f: T -> U, t: seq<Entry<T>>, step: Step)
    ensures Aligned(Map(f, t), step) == Aligned(t, step)
  {
    MapSnoc(f, t);
    if t != [] {
      MapAligned(f, t[..|t| - 1], step);
    }
  }

  // ---------------------------------------------------------------- what a group is

  /** The totals of some rows, all of them together. */
  function Total(t: seq<Entry<real>>): Sum
    requires t != []
  {
    if |t| == 1 then One(t[0].val) else Merge(Total(t[..|t| - 1]), One(t[|t| - 1].val))
  }

  /** Rows of one cell make one group, their total. */
  lemma {:induction false} OneGroup(t: seq<Entry<real>>, b: int, step: Step)
    requires t != [] && b % step == 0 && AllFrom(t, b) && AllBelow(t, b + step)
    ensures Group(Singles(t), step) == [Entry(b, Total(t))]
  {
    var pre, last := t[..|t| - 1], t[|t| - 1];
    FloorUnique(last.ts, b, step);
    MapSnoc(One, t);
    if pre != [] {
      OneGroup(pre, b, step);
    }
  }

  lemma GroupOfParts(low: seq<Entry<real>>, cell: seq<Entry<real>>, high: seq<Entry<real>>, b: int, step: Step)
    requires AllBelow(low, b) && AllFrom(cell, b) && AllBelow(cell, b + step) && AllFrom(high, b + step)
    requires b % step == 0
    ensures Between(Group(Singles(low + cell + high), step), b, b + step) == Group(Singles(cell), step)
  {
    AllBelowMono(low, b, b + step);
    AllBelowConcat(low, cell, b + step);
    NextAligned(b, step);
    BucketConcat(low + cell, high, b + step, step);
    BucketConcat(low, cell, b, step);
    var gl, gc := Group(Singles(low), step), Group(Singles(cell), step);
    SplitIs(gl + gc, Group(Singles(high), step), b + step);
    SplitIs(gl, gc, b);
  }

  /** Grouping, said cell by cell: an aligned b has a group exactly when a row lies in its cell, and the group
      totals the rows of that cell. */
  lemma GroupAt(t: seq<Entry<real>>, b: int, step: Step)
    requires Ascending(t) && b % step == 0
    ensures var cell := Between(t, b, b + step);
            Between(Group(Singles(t), step), b, b + step) == if cell == [] then [] else [Entry(b, Total(cell))]
  {
    var cell := Between(t, b, b + step);
    Thirds(t, b, b + step);
    GroupOfParts(Until(t, b), cell, From(t, b + step), b, step);
    if cell != [] {
      OneGroup(cell, b, step);
    }
  }
}
