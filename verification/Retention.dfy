/** One series of the sample store (infra/llm-status/samplestore.py): raw rows, five-minute cells folded from
    them, the mark up to which they are folded, and what the graph query makes of both. The reference is the
    history: every sample ever written, of which most raw rows are gone. */
module Retention {
  import opened Options
  import opened Tables

  const RAW_KEEP: int := 48 * 3600
  const ROLLUP: Step := 300
  const ROLLUP_KEEP: int := 35 * 86400
  const GRACE: int := 60

  // ---------------------------------------------------------------- times

  /** int(x) of a float: towards zero. */
  function Trunc(x: real): int { if x >= 0.0 then x.Floor else -((-x).Floor) }

  /** The end of the last cell that is complete at `now`. */
  function Upto(now: real): int { Floor(Trunc(now - GRACE as real), ROLLUP) }

  function RawCut(now: real): int { Trunc(now - RAW_KEEP as real) }

  function RollupCut(now: real): int { Trunc(now - ROLLUP_KEEP as real) }

  lemma TruncMono(x: real, y: real)
    requires x <= y
    ensures Trunc(x) <= Trunc(y)
  {
  }

  /** Nothing is deleted before it could have been folded. */
  lemma CutsAreOrdered(now: real)
    ensures RollupCut(now) <= RawCut(now) <= Upto(now) && Upto(now) % ROLLUP == 0
  {
    TruncMono(now - ROLLUP_KEEP as real, now - RAW_KEEP as real);
    FloorIs(Trunc(now - GRACE as real), ROLLUP);
    assert Trunc(now - RAW_KEEP as real) <= Trunc(now - GRACE as real) - ROLLUP;
  }

  /** n is what is left of t without its fraction. */
  predicate IsWholePart(n: int, t: real) {
    if t >= 0.0 then n as real <= t < (n + 1) as real else (n - 1) as real < t <= n as real
  }

  lemma TruncIs(t: real)
    ensures IsWholePart(Trunc(t), t)
  {
  }

  /** Only cells that ended a minute ago or more are folded, and all of those; raw rows are kept for 48 hours and cells
      for 35 days, to the second. */
  lemma TimesAre(now: real)
    ensures Upto(now) % 300 == 0 && Upto(now) <= Trunc(now - 60.0) < Upto(now) + 300
    ensures IsWholePart(Trunc(now - 60.0), now - 60.0)
    ensures IsWholePart(RawCut(now), now - 172800.0) && IsWholePart(RollupCut(now), now - 3024000.0)
  {
    FloorIs(Trunc(now - GRACE as real), ROLLUP);
    TruncIs(now - 60.0);
    TruncIs(now - 172800.0);
    TruncIs(now - 3024000.0);
  }

  lemma TimesMono(now: real, later: real)
    requires now <= later
    ensures Upto(now) <= Upto(later) && RawCut(now) <= RawCut(later) && RollupCut(now) <= RollupCut(later)
  {
    TruncMono(now - GRACE as real, later - GRACE as real);
    TruncMono(now - RAW_KEEP as real, later - RAW_KEEP as real);
    TruncMono(now - ROLLUP_KEEP as real, later - ROLLUP_KEEP as real);
    FloorMono(Trunc(now - GRACE as real), Trunc(later - GRACE as real), ROLLUP);
  }

  // ---------------------------------------------------------------- the tables of a series

  /** A row of the rollup table: how many samples, their mean, least and greatest. */
  datatype Stat = Stat(n: Count, avg: real, mn: real, mx: real)

  type Raw = seq<Entry<real>>
  type Rollup = seq<Entry<Stat>>

  function Avg(sum: real, n: Count): real { sum / n as real }

  function ToStat(s: Sum): Stat { Stat(s.n, Avg(s.sum, s.n), s.mn, s.mx) }

  /** A cell as the re-grouping query reads it: SUM(avg * n). */
  function ToSum(c: Stat): Sum { Sum(c.n, c.avg * c.n as real, c.mn, c.mx) }

  lemma AvgTimesCount(sum: real, n: Count)
    ensures Avg(sum, n) * n as real == sum
  {
  }

  lemma StatAndBack(s: Sum)
    ensures ToSum(ToStat(s)) == s
  {
    AvgTimesCount(s.sum, s.n);
  }

  /** No sum is lost in a mean stored with its count. */
  lemma {:induction false} StoredAndRead(g: seq<Entry<Sum>>)
    ensures Map(ToSum, Map(ToStat, g)) == g
  {
    MapSnoc(ToStat, g);
    if g != [] {
      var pre, last := g[..|g| - 1], g[|g| - 1];
      StoredAndRead(pre);
      StatAndBack(last.val);
      InitLast(g);
      assert Map(ToSum, Map(ToStat, g)) == Map(ToSum, Map(ToStat, pre)) + [Entry(last.ts, ToSum(ToStat(last.val)))];
    }
  }

  /** The cells of all rows before r. */
  function Cells(hist: Raw, r: int): seq<Entry<Sum>> { Group(Singles(Until(hist, r)), ROLLUP) }

  /** INSERT OR REPLACE INTO rollup SELECT ... FROM raw WHERE ts >= start AND ts < upto GROUP BY ts / 300. */
  function Fold(raw: Raw, rollup: Rollup, start: int, upto: int): Rollup {
    PutAll(rollup, Map(ToStat, SqlGroup(Singles(Between(raw, start, upto)), ROLLUP)))
  }

  /** What the tables hold of the history: all of it raw while nothing is folded, and from then on the raw rows
      since rawCut, and of the rows before the mark the cells since rollupCut. */
  ghost predicate Kept(raw: Raw, rollup: Rollup, hist: Raw, rolled: Option<int>, rawCut: int, rollupCut: int) {
    && Ascending(hist) && AllFrom(hist, 0)
    && match rolled
       case None => raw == hist && rollup == []
       case Some(r) => && r % ROLLUP == 0 && rollupCut <= rawCut <= r
                       && raw == From(hist, rawCut)
                       && rollup == Map(ToStat, From(Cells(hist, r), rollupCut))
  }

  lemma CellsAscend(hist: Raw, r: int)
    requires Ascending(hist)
    ensures Ascending(Cells(hist, r)) && AllBelow(Cells(hist, r), r)
  {
    var rows := Until(hist, r);
    Split(hist, r);
    MapTimes(One, rows);
    GroupAscends(Singles(rows), ROLLUP);
    GroupBelow(Singles(rows), r, ROLLUP);
  }

  /** A sample that is not late keeps the tables in step with the history. */
  lemma KeepAdd(raw: Raw, rollup: Rollup, hist: Raw, rolled: Option<int>, rawCut: int, rollupCut: int, e: Entry<real>)
    requires Kept(raw, rollup, hist, rolled, rawCut, rollupCut) && 0 <= e.ts && (rolled.Some? ==> rolled.value <= e.ts)
    ensures Kept(Put(raw, e), rollup, Put(hist, e), rolled, rawCut, rollupCut)
  {
    PutAscends(hist, e);
    PutFrom(hist, e, 0);
    if rolled.Some? {
      PutAbove(hist, rawCut, e);
      PutAbove(hist, rolled.value, e);
    }
  }

  lemma CellsGrow(hist: Raw, r: int, upto: int)
    requires Ascending(hist) && r % ROLLUP == 0 && r <= upto
    ensures var more := Group(Singles(Between(hist, r, upto)), ROLLUP);
            && Cells(hist, upto) == Cells(hist, r) + more
            && AllBelow(Cells(hist, r), r) && AllFrom(more, r) && Ascending(more)
  {
    var was, later := Until(hist, r), Between(hist, r, upto);
    UntilGrows(hist, r, upto);
    UntilSelects(hist, r);
    BucketConcat(was, later, r, ROLLUP);
    MapTimes(One, later);
    GroupAscends(Singles(later), ROLLUP);
  }

  /** Rows since 1970 are grouped alike by SQLite. */
  lemma BetweenIsGrouped(hist: Raw, x: int, y: int)
    requires AllFrom(hist, 0)
    ensures SqlGroup(Singles(Between(hist, x, y)), ROLLUP) == Group(Singles(Between(hist, x, y)), ROLLUP)
  {
    PickedFrom(hist, y, 0);
    PickedFrom(Until(hist, y), x, 0);
    MapTimes(One, Between(hist, x, y));
    SqlGroupIs(Singles(Between(hist, x, y)), ROLLUP);
  }

  /** Folding from the mark on. */
  lemma KeepFold(raw: Raw, rollup: Rollup, hist: Raw, r: int, rawCut: int, rollupCut: int, upto: int)
    requires Kept(raw, rollup, hist, Some(r), rawCut, rollupCut) && r <= upto && upto % ROLLUP == 0
    ensures Kept(raw, Fold(raw, rollup, r, upto), hist, Some(upto), rawCut, rollupCut)
  {
    BetweenFrom(hist, rawCut, r, upto);
    BetweenIsGrouped(hist, r, upto);
    CellsGrow(hist, r, upto);
    var was, more := Cells(hist, r), Group(Singles(Between(hist, r, upto)), ROLLUP);
    var kept := From(was, rollupCut);
    FromConcat(was, more, rollupCut);
    AllFromMono(more, rollupCut, r);
    FromSelects(more, rollupCut);
    FromSelects(was, rollupCut);
    MapTimes(ToStat, kept);
    MapTimes(ToStat, more);
    PutAllBehind(Map(ToStat, kept), Map(ToStat, more), r);
    MapConcat(ToStat, kept, more);
  }

  /** The first folding, from the earliest row on. */
  lemma KeepFirstFold(raw: Raw, hist: Raw, start: int, upto: int, low: int)
    requires Kept(raw, [], hist, None, low, low) && AllFrom(raw, start) && start % ROLLUP == 0
    requires upto % ROLLUP == 0 && low <= start && low <= upto
    ensures Kept(raw, Fold(raw, [], start, upto), hist, Some(upto), low, low)
  {
    AllFromMono(hist, low, start);
    BetweenIsGrouped(hist, start, upto);
    FromSelects(hist, low);
    UntilSelects(hist, upto);
    FromSelects(Until(hist, upto), start);
    var cells := Cells(hist, upto);
    MapTimes(One, Until(hist, upto));
    Split(hist, upto);
    GroupAscends(Singles(Until(hist, upto)), ROLLUP);
    ConcatNil(Singles(Until(hist, upto)));
    GroupConcat([], Singles(Until(hist, upto)), start, ROLLUP);
    AllFromMono(cells, low, start);
    FromSelects(cells, low);
    MapTimes(ToStat, cells);
    PutAllBehind([], Map(ToStat, cells), start);
    ConcatNil(Map(ToStat, cells));
  }

  /** Deleting old rows and old cells. */
  lemma KeepTrim(raw: Raw, rollup: Rollup, hist: Raw, r: int, rawCut: int, rollupCut: int, rawTo: int, rollupTo: int)
    requires Kept(raw, rollup, hist, Some(r), rawCut, rollupCut)
    requires rawCut <= rawTo <= r && rollupCut <= rollupTo <= rawTo
    ensures Kept(From(raw, rawTo), From(rollup, rollupTo), hist, Some(r), rawTo, rollupTo)
  {
    FromFrom(hist, rawCut, rawTo);
    CellsAscend(hist, r);
    FromFrom(Cells(hist, r), rollupCut, rollupTo);
    FromMap(ToStat, From(Cells(hist, r), rollupCut), rollupTo);
  }

  // ---------------------------------------------------------------- the graph query

  datatype Mean = Mean(mean: real, mx: real)

  function ToMean(s: Sum): Mean { Mean(Avg(s.sum, s.n), s.mx) }

  /** A cell read as it stands. */
  function Direct(c: Stat): Mean { Mean(c.avg, c.mx) }

  type Points = seq<Entry<Mean>>

  /** The folded part of a graph with points `step` apart. */
  function FoldedPoints(rollup: Rollup, since: int, step: Step): Points {
    if step == ROLLUP then Map(Direct, From(rollup, since))
    else Map(ToMean, SqlGroup(Map(ToSum, From(rollup, since)), step))
  }

  /** The points behind the last folded one. */
  function BehindLast(points: Points, folded: Points): Points {
    if folded == [] then points else From(points, folded[|folded| - 1].ts + 1)
  }

  /** The rest, from raw rows in cells of the same width; a cell that the folded part has is left out. */
  function Tail(rows: Raw, step: Step, folded: Points): Points {
    BehindLast(Map(ToMean, Group(Singles(rows), step)), folded)
  }

  /** series() for the ranges that read the rollup table. */
  function Graph(raw: Raw, rollup: Rollup, rolled: Option<int>, since: int, step: Step): Points {
    var folded := FoldedPoints(rollup, since, step);
    var mark := if rolled.Some? then rolled.value else since;
    folded + Tail(From(raw, if since < mark then mark else since), step, folded)
  }

  function Larger(a: int, b: int): int { if a < b then b else a }

  /** The first cell start at or after x. */
  function Ceil(x: int): int { Floor(x + ROLLUP - 1, ROLLUP) }

  /** The rows of the cells in the folded part. */
  function FoldedRows(hist: Raw, rolled: Option<int>, since: int): Raw {
    if rolled.Some? then Between(hist, Ceil(since), rolled.value) else []
  }

  /** The rows behind the last cell of `folded`. */
  function Behind(rows: Raw, folded: Raw, step: Step): Raw {
    if folded == [] then rows else From(rows, Floor(folded[|folded| - 1].ts, step) + step)
  }

  /** The samples a graph stands for, each once and in the order of time: those of the folded cells, and behind the
      mark those that do not fall into the last point of the folded part. */
  function Covered(hist: Raw, rolled: Option<int>, since: int, step: Step): Raw {
    var folded := FoldedRows(hist, rolled, since);
    folded + Behind(From(hist, if rolled.Some? then Larger(since, rolled.value) else since), folded, step)
  }

  lemma CeilIs(x: int)
    ensures x <= Ceil(x) < x + ROLLUP && Ceil(x) % ROLLUP == 0
  {
    FloorIs(x + ROLLUP - 1, ROLLUP);
  }

  /** The cells that start at or after `since` are the cells of the rows from Ceil(since) on. */
  lemma CellsSince(hist: Raw, r: int, since: int)
    requires Ascending(hist)
    ensures From(Cells(hist, r), since) == Group(Singles(Between(hist, Ceil(since), r)), ROLLUP)
  {
    var u, rows := Ceil(since), Until(hist, r);
    CeilIs(since);
    Split(hist, r);
    Split(rows, u);
    var low, high := Until(rows, u), From(rows, u);
    BucketConcat(low, high, u, ROLLUP);
    MapTimes(One, low);
    GroupBelowCell(Singles(low), u, ROLLUP);
    var gl, gh := Group(Singles(low), ROLLUP), Group(Singles(high), ROLLUP);
    AllBelowMono(gl, u - ROLLUP + 1, since);
    AllFromMono(gh, since, u);
    SplitIs(gl, gh, since);
  }

  /** A mean read as it stands is the mean of the cell. */
  lemma {:induction false} DirectIsMean(g: seq<Entry<Sum>>)
    ensures Map(Direct, Map(ToStat, g)) == Map(ToMean, g)
  {
    MapSnoc(ToStat, g);
    if g != [] {
      DirectIsMean(g[..|g| - 1]);
    }
  }

  /** The folded part is the grouping of its rows, though those rows may be gone. */
  lemma FoldedIsGroup(raw: Raw, rollup: Rollup, hist: Raw, rolled: Option<int>, rawCut: int, rollupCut: int,
                      since: int, step: Step)
    requires Kept(raw, rollup, hist, rolled, rawCut, rollupCut) && rollupCut <= since && step % ROLLUP == 0
    ensures FoldedPoints(rollup, since, step) == Map(ToMean, Group(Singles(FoldedRows(hist, rolled, since)), step))
  {
    if rolled.Some? {
      var r := rolled.value;
      var cells := Cells(hist, r);
      CellsAscend(hist, r);
      FromMap(ToStat, From(cells, rollupCut), since);
      FromFrom(cells, rollupCut, since);
      CellsSince(hist, r, since);
      var rows := FoldedRows(hist, rolled, since);
      var group := Group(Singles(rows), ROLLUP);
      assert From(rollup, since) == Map(ToStat, group);
      if step == ROLLUP {
        DirectIsMean(group);
      } else {
        StoredAndRead(group);
        PickedFrom(hist, r, 0);
        PickedFrom(Until(hist, r), Ceil(since), 0);
        BucketConcat([], rows, 0, ROLLUP);
        SqlGroupIs(group, step);
        Regroup(Singles(rows), ROLLUP, step);
      }
    }
  }

  lemma GroupBehindParts(low: Raw, high: Raw, last: int, step: Step)
    requires last % step == 0 && AllBelow(low, last + step) && AllFrom(high, last + step)
    ensures From(Group(Singles(low + high), step), last + 1) == Group(Singles(high), step)
  {
    var gl, gh := Group(Singles(low), step), Group(Singles(high), step);
    NextAligned(last, step);
    BucketConcat(low, high, last + step, step);
    GroupEndsBy(low, last, step);
    AllFromMono(gh, last + 1, last + step);
    SplitIs(gl, gh, last + 1);
  }

  /** Rows before the end of a cell are in that cell or in earlier ones. */
  lemma GroupEndsBy(low: Raw, last: int, step: Step)
    requires last % step == 0 && AllBelow(low, last + step)
    ensures AllBelow(Group(Singles(low), step), last + 1)
  {
    NextAligned(last, step);
    MapTimes(One, low);
    GroupBelowCell(Singles(low), last + step, step);
  }

  lemma GroupBehind(rows: Raw, last: int, step: Step)
    requires Ascending(rows) && last % step == 0
    ensures From(Map(ToMean, Group(Singles(rows), step)), last + 1)
         == Map(ToMean, Group(Singles(From(rows, last + step)), step))
  {
    Split(rows, last + step);
    GroupBehindParts(Until(rows, last + step), From(rows, last + step), last, step);
    FromMap(ToMean, Group(Singles(rows), step), last + 1);
  }

  lemma TailAt(rows: Raw, step: Step, points: Points, last: int)
    requires Ascending(rows) && last % step == 0 && points != [] && points[|points| - 1].ts == last
    ensures Tail(rows, step, points) == Map(ToMean, Group(Singles(From(rows, last + step)), step))
  {
    GroupBehind(rows, last, step);
  }

  /** The rest is the grouping of its rows from the first cell behind the folded part on. */
  lemma TailIsGroup(rows: Raw, folded: Raw, step: Step, points: Points, rest: Raw)
    requires Ascending(rows) && (points == [] <==> folded == []) && rest == Behind(rows, folded, step)
    requires folded != [] ==> points[|points| - 1].ts == Floor(folded[|folded| - 1].ts, step)
    ensures Tail(rows, step, points) == Map(ToMean, Group(Singles(rest), step))
  {
    if folded != [] {
      var last := Floor(folded[|folded| - 1].ts, step);
      FloorIs(folded[|folded| - 1].ts, step);
      assert rest == From(rows, last + step);
      TailAt(rows, step, points, last);
    } else {
      assert points == [] && rest == rows;
    }
  }

  lemma LastPoint(folded: Raw, step: Step)
    requires Ascending(folded)
    ensures var points := Map(ToMean, Group(Singles(folded), step));
            && (points == [] <==> folded == [])
            && (folded != [] ==> points[|points| - 1].ts == Floor(folded[|folded| - 1].ts, step))
  {
    MapTimes(One, folded);
    MapSnoc(One, folded);
    GroupAscends(Singles(folded), step);
    MapSnoc(ToMean, Group(Singles(folded), step));
  }

  lemma FoldedRowsAscend(hist: Raw, rolled: Option<int>, since: int)
    requires Ascending(hist)
    ensures Ascending(FoldedRows(hist, rolled, since))
    ensures rolled.Some? ==> AllBelow(FoldedRows(hist, rolled, since), rolled.value)
  {
    if rolled.Some? {
      Split(hist, rolled.value);
      Split(Until(hist, rolled.value), Ceil(since));
      FromSelects(Until(hist, rolled.value), Ceil(since));
    }
  }

  lemma {:induction false} BelowLastCell(t: Raw, step: Step)
    requires Ascending(t) && t != []
    ensures AllBelow(t, Floor(t[|t| - 1].ts, step) + step)
  {
    var last := t[|t| - 1].ts;
    FloorIs(last, step);
    AllBelowMono(t[..|t| - 1], last, Floor(last, step) + step);
  }

  lemma SeamIsGroup(rows: Raw, folded: Raw, step: Step)
    requires Ascending(folded)
    ensures Map(ToMean, Group(Singles(folded), step)) + Map(ToMean, Group(Singles(Behind(rows, folded, step)), step))
         == Map(ToMean, Group(Singles(folded + Behind(rows, folded, step)), step))
  {
    var rest := Behind(rows, folded, step);
    if folded == [] {
      ConcatNil(rest);
      ConcatNil(Map(ToMean, Group(Singles(rest), step)));
    } else {
      var last := Floor(folded[|folded| - 1].ts, step);
      FloorIs(folded[|folded| - 1].ts, step);
      NextAligned(last, step);
      BelowLastCell(folded, step);
      FromSelects(rows, last + step);
      BucketConcat(folded, rest, last + step, step);
      MapConcat(ToMean, Group(Singles(folded), step), Group(Singles(rest), step));
    }
  }

  /** A graph is the grouping of the samples it covers: the weighted means of folded cells, the cells of the
      rest and their seam lose nothing and count nothing twice. */
  lemma GraphIsGroup(raw: Raw, rollup: Rollup, hist: Raw, rolled: Option<int>, rawCut: int, rollupCut: int,
                     since: int, step: Step)
    requires Kept(raw, rollup, hist, rolled, rawCut, rollupCut) && rollupCut <= since && step % ROLLUP == 0
    ensures Graph(raw, rollup, rolled, since, step)
         == Map(ToMean, Group(Singles(Covered(hist, rolled, since, step)), step))
  {
    var folded := FoldedRows(hist, rolled, since);
    var start := if rolled.Some? then Larger(since, rolled.value) else since;
    FoldedIsGroup(raw, rollup, hist, rolled, rawCut, rollupCut, since, step);
    FoldedRowsAscend(hist, rolled, since);
    RestOfRaw(raw, rollup, hist, rolled, rawCut, rollupCut, start);
    LastPoint(folded, step);
    var rest := Behind(From(raw, start), folded, step);
    TailIsGroup(From(raw, start), folded, step, Map(ToMean, Group(Singles(folded), step)), rest);
    SeamIsGroup(From(raw, start), folded, step);
  }

  lemma RestOfRaw(raw: Raw, rollup: Rollup, hist: Raw, rolled: Option<int>, rawCut: int, rollupCut: int, start: int)
    requires Kept(raw, rollup, hist, rolled, rawCut, rollupCut) && (rolled.Some? ==> rolled.value <= start)
    ensures From(raw, start) == From(hist, start) && Ascending(From(raw, start))
  {
    Split(hist, start);
    if rolled.Some? {
      FromFrom(hist, rawCut, start);
    }
  }

  lemma FromFromLarger<T>(t: seq<Entry<T>>, x: int, y: int)
    requires Ascending(t)
    ensures From(From(t, x), y) == From(t, Larger(x, y))
  {
    if x <= y {
      FromFrom(t, x, y);
    } else {
      FromSelects(t, x);
      AllFromMono(From(t, x), y, x);
      FromSelects(From(t, x), y);
    }
  }

  lemma BehindIsFrom(hist: Raw, start: int, folded: Raw, step: Step) returns (cut: int)
    requires Ascending(hist)
    ensures start <= cut && Behind(From(hist, start), folded, step) == From(hist, cut)
    ensures cut == start || (folded != [] && cut == Floor(folded[|folded| - 1].ts, step) + step)
  {
    if folded == [] {
      cut := start;
    } else {
      var x := Floor(folded[|folded| - 1].ts, step) + step;
      FromFromLarger(hist, start, x);
      cut := Larger(start, x);
    }
  }

  lemma {:induction false} SubsetOfTable<T>(t: seq<Entry<T>>, x: int)
    ensures forall e :: e in From(t, x) ==> e in t
    ensures forall e :: e in Until(t, x) ==> e in t
  {
    if t != [] {
      SubsetOfTable(t[..|t| - 1], x);
      InitLast(t);
    }
  }

  /** The covered samples are samples of the history, none of them twice. */
  lemma CoveredOnce(hist: Raw, rolled: Option<int>, since: int, step: Step)
    requires Ascending(hist)
    ensures Ascending(Covered(hist, rolled, since, step))
    ensures forall e :: e in Covered(hist, rolled, since, step) ==> e in hist
  {
    var folded, start := FoldedRows(hist, rolled, since), if rolled.Some? then Larger(since, rolled.value) else since;
    var cut := BehindIsFrom(hist, start, folded, step);
    FoldedRowsAscend(hist, rolled, since);
    Split(hist, cut);
    SubsetOfTable(hist, cut);
    if rolled.Some? {
      AllBelowMono(folded, rolled.value, cut);
      SubsetOfTable(hist, rolled.value);
      SubsetOfTable(Until(hist, rolled.value), Ceil(since));
      JoinAscends(folded, From(hist, cut), cut);
    } else {
      ConcatNil(From(hist, cut));
    }
  }

  lemma {:induction false} RowsIn<T>(t: seq<Entry<T>>, x: int, e: Entry<T>)
    ensures e in From(t, x) <==> e in t && x <= e.ts
    ensures e in Until(t, x) <==> e in t && e.ts < x
  {
    if t != [] {
      RowsIn(t[..|t| - 1], x, e);
      InitLast(t);
    }
  }

  /** From the first whole cell on, a graph leaves a sample out exactly when it lies at or behind the mark, but still in
      the cell of the last folded point. */
  lemma LeftOutIff(hist: Raw, rolled: Option<int>, since: int, step: Step, e: Entry<real>)
    requires Ascending(hist) && e in hist && Ceil(since) <= e.ts
    ensures var folded := FoldedRows(hist, rolled, since);
            e !in Covered(hist, rolled, since, step) <==>
              && rolled.Some? && rolled.value <= e.ts
              && folded != [] && e.ts < Floor(folded[|folded| - 1].ts, step) + step
  {
    var folded, start := FoldedRows(hist, rolled, since), if rolled.Some? then Larger(since, rolled.value) else since;
    CeilIs(since);
    RowsIn(hist, start, e);
    if folded != [] {
      RowsIn(From(hist, start), Floor(folded[|folded| - 1].ts, step) + step, e);
    }
    if rolled.Some? {
      RowsIn(hist, rolled.value, e);
      RowsIn(Until(hist, rolled.value), Ceil(since), e);
    }
  }

  /** With the mark inside the window the five-minute graph covers every sample of the window, from the first
      whole cell on. */
  lemma DayCoversAll(hist: Raw, r: int, since: int)
    requires Ascending(hist) && r % ROLLUP == 0 && since <= r
    ensures Covered(hist, Some(r), since, ROLLUP) == From(hist, Ceil(since))
  {
    var folded := FoldedRows(hist, Some(r), since);
    CeilBefore(since, r);
    FoldedRowsAscend(hist, Some(r), since);
    EndsBefore(folded, r);
    var cut := BehindIsFrom(hist, r, folded, ROLLUP);
    FromInTwo(hist, Ceil(since), r);
  }

  lemma CeilBefore(since: int, r: int)
    requires since <= r && r % ROLLUP == 0
    ensures Ceil(since) <= r
  {
    CeilIs(since);
    if Ceil(since) > r {
      AlignedApart(Ceil(since), r, ROLLUP);
    }
  }

  lemma EndsBefore(folded: Raw, r: int)
    requires AllBelow(folded, r) && r % ROLLUP == 0
    ensures folded != [] ==> Floor(folded[|folded| - 1].ts, ROLLUP) + ROLLUP <= r
  {
    if folded != [] {
      CellBelow(folded[|folded| - 1].ts, r, ROLLUP);
    }
  }

  lemma FromInTwo<T>(t: seq<Entry<T>>, x: int, y: int)
    requires Ascending(t) && x <= y
    ensures From(t, x) == Between(t, x, y) + From(t, y)
  {
    Split(t, x);
    Split(From(t, x), y);
    UntilOfFrom(t, x, y);
    FromFrom(t, x, y);
  }

  // ---------------------------------------------------------------- what a graph shows

  ghost predicate IsGreatest(m: real, cell: Raw) {
    (exists i :: 0 <= i < |cell| && cell[i].val == m) && forall i :: 0 <= i < |cell| ==> cell[i].val <= m
  }

  ghost predicate IsLeast(m: real, cell: Raw) {
    (exists i :: 0 <= i < |cell| && cell[i].val == m) && forall i :: 0 <= i < |cell| ==> m <= cell[i].val
  }

  function SumOfRows(cell: Raw): real {
    if cell == [] then 0.0 else SumOfRows(cell[..|cell| - 1]) + cell[|cell| - 1].val
  }

  ghost predicate IsMean(m: real, cell: Raw) { m * |cell| as real == SumOfRows(cell) }

  lemma {:induction false} TotalCounts(cell: Raw)
    requires cell != []
    ensures Total(cell).n == |cell| && Total(cell).sum == SumOfRows(cell)
  {
    if |cell| == 1 {
      assert cell[..0] == [];
    } else {
      TotalCounts(cell[..|cell| - 1]);
    }
  }

  lemma GreatestSnoc(m: real, cell: Raw, e: Entry<real>, more: real)
    requires IsGreatest(m, cell) && m <= more && e.val <= more && (more == m || more == e.val)
    ensures IsGreatest(more, cell + [e])
  {
    var i :| 0 <= i < |cell| && cell[i].val == m;
    assert (cell + [e])[i].val == m && (cell + [e])[|cell|].val == e.val;
  }

  lemma LeastSnoc(m: real, cell: Raw, e: Entry<real>, less: real)
    requires IsLeast(m, cell) && less <= m && less <= e.val && (less == m || less == e.val)
    ensures IsLeast(less, cell + [e])
  {
    var i :| 0 <= i < |cell| && cell[i].val == m;
    assert (cell + [e])[i].val == m && (cell + [e])[|cell|].val == e.val;
  }

  /** A total counts the samples, adds them up, and has the least and the greatest of them. */
  lemma {:induction false} TotalIs(cell: Raw)
    requires cell != []
    ensures Total(cell).n == |cell| && Total(cell).sum == SumOfRows(cell)
    ensures IsLeast(Total(cell).mn, cell) && IsGreatest(Total(cell).mx, cell)
  {
    var n := |cell| - 1;
    TotalCounts(cell);
    if n == 0 {
      assert cell[0].val == Total(cell).mn == Total(cell).mx;
    } else {
      var pre := Total(cell[..n]);
      TotalIs(cell[..n]);
      LeastSnoc(pre.mn, cell[..n], cell[n], Total(cell).mn);
      GreatestSnoc(pre.mx, cell[..n], cell[n], Total(cell).mx);
      assert cell[..n] + [cell[n]] == cell;
    }
  }

  /** The points at a cell that starts at b: one with the mean and the maximum of its samples, or none for no sample. */
  ghost predicate ShowsCell(points: Points, b: int, cell: Raw) {
    if cell == [] then points == []
    else
      && |points| == 1 && points[0].ts == b
      && IsMean(points[0].val.mean, cell) && IsGreatest(points[0].val.mx, cell)
  }

  /** The points of a table of samples: in the order of time, at the starts of cells, and true of each cell. */
  ghost predicate Shows(points: Points, rows: Raw, step: Step) {
    Ascending(points) && Aligned(points, step) && forall b :: b % step == 0 ==> ShowsAt(points, rows, b, step)
  }

  ghost predicate ShowsAt(points: Points, rows: Raw, b: int, step: Step) {
    ShowsCell(Between(points, b, b + step), b, Between(rows, b, b + step))
  }

  lemma AvgIsMean(cell: Raw)
    requires cell != []
    ensures IsMean(Avg(Total(cell).sum, Total(cell).n), cell)
  {
    TotalCounts(cell);
    var s := Total(cell);
    AvgTimesCount(s.sum, s.n);
  }

  lemma MeanShows(b: int, cell: Raw)
    requires cell != []
    ensures ShowsCell([Entry(b, ToMean(Total(cell)))], b, cell)
  {
    TotalIs(cell);
    AvgIsMean(cell);
  }

  lemma StatStores(b: int, cell: Raw)
    requires cell != []
    ensures StoresCell([Entry(b, ToStat(Total(cell)))], b, cell)
  {
    TotalIs(cell);
    AvgIsMean(cell);
    var avg := Avg(Total(cell).sum, Total(cell).n);
    assert ToStat(Total(cell)).avg == avg && IsMean(avg, cell);
  }

  lemma PointsOf(rows: Raw, b: int, step: Step)
    requires Ascending(rows) && b % step == 0
    ensures var points, cell := Map(ToMean, Group(Singles(rows), step)), Between(rows, b, b + step);
            Between(points, b, b + step) == if cell == [] then [] else [Entry(b, ToMean(Total(cell)))]
  {
    var group, cell := Group(Singles(rows), step), Between(rows, b, b + step);
    GroupAt(rows, b, step);
    UntilMap(ToMean, group, b + step);
    FromMap(ToMean, Until(group, b + step), b);
    if cell != [] {
      MapSnoc(ToMean, [Entry(b, Total(cell))]);
    }
  }

  lemma PointsAt(rows: Raw, b: int, step: Step)
    requires Ascending(rows) && b % step == 0
    ensures ShowsAt(Map(ToMean, Group(Singles(rows), step)), rows, b, step)
  {
    PointsOf(rows, b, step);
    if Between(rows, b, b + step) != [] {
      MeanShows(b, Between(rows, b, b + step));
    }
  }

  lemma GroupShows(rows: Raw, step: Step)
    requires Ascending(rows)
    ensures Shows(Map(ToMean, Group(Singles(rows), step)), rows, step)
  {
    var group := Group(Singles(rows), step);
    MapTimes(One, rows);
    GroupAscends(Singles(rows), step);
    GroupAligned(Singles(rows), step);
    MapTimes(ToMean, group);
    MapAligned(ToMean, group, step);
    var points := Map(ToMean, group);
    forall b | b % step == 0
      ensures ShowsAt(points, rows, b, step)
    {
      PointsAt(rows, b, step);
    }
  }

  /** What the rollup table holds of a cell: how many samples the history has there, their mean, least and greatest. */
  ghost predicate StoresCell(rows: Rollup, b: int, cell: Raw) {
    if cell == [] then rows == []
    else
      && |rows| == 1 && rows[0].ts == b && rows[0].val.n == |cell|
      && IsMean(rows[0].val.avg, cell)
      && IsLeast(rows[0].val.mn, cell) && IsGreatest(rows[0].val.mx, cell)
  }

  lemma RowsOf(hist: Raw, r: int, low: int, b: int)
    requires Ascending(hist) && r % ROLLUP == 0 && b % ROLLUP == 0 && low <= b < r
    ensures var rows, cell := Map(ToStat, From(Cells(hist, r), low)), Between(hist, b, b + ROLLUP);
            Between(rows, b, b + ROLLUP) == if cell == [] then [] else [Entry(b, ToStat(Total(cell)))]
  {
    var cells, cell := Cells(hist, r), Between(hist, b, b + ROLLUP);
    CellsAscend(hist, r);
    Split(hist, r);
    BetweenFrom(cells, low, b, b + ROLLUP);
    UntilMap(ToStat, From(cells, low), b + ROLLUP);
    FromMap(ToStat, Until(From(cells, low), b + ROLLUP), b);
    GroupAt(Until(hist, r), b, ROLLUP);
    CellBelow(b, r, ROLLUP);
    FloorUnique(b, b, ROLLUP);
    UntilUntil(hist, b + ROLLUP, r);
    if cell != [] {
      MapSnoc(ToStat, [Entry(b, Total(cell))]);
    }
  }

  /** The rollup table is true of every cell between the cut and the mark. */
  lemma RollupStores(raw: Raw, rollup: Rollup, hist: Raw, r: int, rawCut: int, rollupCut: int, b: int)
    requires Kept(raw, rollup, hist, Some(r), rawCut, rollupCut) && b % ROLLUP == 0 && rollupCut <= b < r
    ensures StoresCell(Between(rollup, b, b + ROLLUP), b, Between(hist, b, b + ROLLUP))
  {
    RowsOf(hist, r, rollupCut, b);
    if Between(hist, b, b + ROLLUP) != [] {
      StatStores(b, Between(hist, b, b + ROLLUP));
    }
  }

  /** Whatever has been deleted: a graph shows the true mean and maximum of exactly the samples it covers, and it
      covers none twice. */
  lemma GraphShowsCovered(raw: Raw, rollup: Rollup, hist: Raw, rolled: Option<int>, rawCut: int, rollupCut: int,
                          since: int, step: Step)
    requires Kept(raw, rollup, hist, rolled, rawCut, rollupCut) && rollupCut <= since && step % ROLLUP == 0
    ensures Shows(Graph(raw, rollup, rolled, since, step), Covered(hist, rolled, since, step), step)
    ensures Ascending(Covered(hist, rolled, since, step))
    ensures forall e :: e in Covered(hist, rolled, since, step) ==> e in hist
  {
    GraphIsGroup(raw, rollup, hist, rolled, rawCut, rollupCut, since, step);
    CoveredOnce(hist, rolled, since, step);
    GroupShows(Covered(hist, rolled, since, step), step);
  }

  /** And with the mark inside the window the five-minute graph shows the whole history from the first cell that
      starts at or after `since`. */
  lemma DayGraph(raw: Raw, rollup: Rollup, hist: Raw, r: int, rawCut: int, rollupCut: int, since: int)
    requires Kept(raw, rollup, hist, Some(r), rawCut, rollupCut) && rollupCut <= since <= r
    ensures Shows(Graph(raw, rollup, Some(r), since, ROLLUP), From(hist, Ceil(since)), ROLLUP)
  {
    GraphShowsCovered(raw, rollup, hist, Some(r), rawCut, rollupCut, since, ROLLUP);
    DayCoversAll(hist, r, since);
  }

  // ---------------------------------------------------------------- the tail as the loop builds it

  function SumOf(vs: seq<real>): real { if vs == [] then 0.0 else SumOf(vs[..|vs| - 1]) + vs[|vs| - 1] }

  function MaxOf(vs: seq<real>): real {
    if vs == [] then 0.0
    else if |vs| == 1 then vs[0]
    else Max(MaxOf(vs[..|vs| - 1]), vs[|vs| - 1])
  }

  /** sum(vs) / len(vs) and max(vs). */
  function MeanOf(vs: seq<real>): Mean { if vs == [] then Mean(0.0, 0.0) else Mean(Avg(SumOf(vs), |vs|), MaxOf(vs)) }

  function Summed(vs: seq<real>): Sum {
    if vs == [] then One(0.0)
    else if |vs| == 1 then One(vs[0])
    else Merge(Summed(vs[..|vs| - 1]), One(vs[|vs| - 1]))
  }

  lemma {:induction false} SummedIs(vs: seq<real>)
    requires vs != []
    ensures Summed(vs).n == |vs| && Summed(vs).sum == SumOf(vs) && Summed(vs).mx == MaxOf(vs)
    ensures ToMean(Summed(vs)) == MeanOf(vs)
  {
    if |vs| > 1 {
      SummedIs(vs[..|vs| - 1]);
    } else {
      assert vs[..0] == [];
    }
  }

  type Lists = seq<Entry<seq<real>>>

  /** dict.get(b, []). */
  function ListAt(tail: Lists, b: int): seq<real> {
    if tail == [] then []
    else if tail[|tail| - 1].ts == b then tail[|tail| - 1].val
    else ListAt(tail[..|tail| - 1], b)
  }

  /** tail.setdefault(b, []).append(v), with the items of the dictionary kept in the order of their keys. */
  function Append(tail: Lists, b: int, v: real): Lists { Put(tail, Entry(b, ListAt(tail, b) + [v])) }

  function Listed(rows: Raw, step: Step): Lists {
    if rows == [] then []
    else Append(Listed(rows[..|rows| - 1], step), Floor(rows[|rows| - 1].ts, step), rows[|rows| - 1].val)
  }

  lemma {:induction false} ListBelow(tail: Lists, b: int)
    requires AllBelow(tail, b)
    ensures ListAt(tail, b) == []
  {
    if tail != [] {
      ListBelow(tail[..|tail| - 1], b);
    }
  }

  /** A row with the last row's time replaces it. */
  lemma PutLast<T>(pre: seq<Entry<T>>, last: Entry<T>, val: T)
    requires AllBelow(pre, last.ts)
    ensures Put(pre + [last], Entry(last.ts, val)) == pre + [Entry(last.ts, val)]
  {
    var b := last.ts;
    SnocInit(pre, last);
    UntilSelects(pre, b);
    AllBelowMono(pre, b, b + 1);
    FromSelects(pre, b + 1);
    ConcatNil(pre + [Entry(b, val)]);
  }

  lemma AppendToLast(tail: Lists, v: real)
    requires Ascending(tail) && tail != []
    ensures var last := tail[|tail| - 1];
            Append(tail, last.ts, v) == tail[..|tail| - 1] + [Entry(last.ts, last.val + [v])]
  {
    var pre, last := tail[..|tail| - 1], tail[|tail| - 1];
    InitLast(tail);
    PutLast(pre, last, last.val + [v]);
  }

  lemma AppendBehind(tail: Lists, b: int, v: real)
    requires Ascending(tail) && (tail != [] ==> tail[|tail| - 1].ts < b)
    ensures Append(tail, b, v) == tail + [Entry(b, [v])]
  {
    if tail != [] {
      AllBelowMono(tail[..|tail| - 1], tail[|tail| - 1].ts, b);
    }
    assert AllBelow(tail, b);
    ListBelow(tail, b);
    assert ListAt(tail, b) + [v] == [v];
    PutBehind(tail, Entry(b, [v]));
  }

  lemma {:induction false} SummedAppend(vs: seq<real>, v: real)
    requires vs != []
    ensures Summed(vs + [v]) == Merge(Summed(vs), One(v))
  {
    assert (vs + [v])[..|vs|] == vs;
  }

  ghost predicate Filled(tail: Lists) { tail == [] || (Filled(tail[..|tail| - 1]) && tail[|tail| - 1].val != []) }

  /** The lists the loop collects are the groups, sample by sample. */
  lemma {:induction false} ListedIsGroup(rows: Raw, step: Step)
    requires Ascending(rows)
    ensures Map(Summed, Listed(rows, step)) == Group(Singles(rows), step)
    ensures Ascending(Listed(rows, step)) && Filled(Listed(rows, step))
  {
    MapSnoc(One, rows);
    if rows != [] {
      var pre, e := rows[..|rows| - 1], rows[|rows| - 1];
      ListedIsGroup(pre, step);
      LastGroup(pre, e, step);
      ListedStep(Listed(pre, step), e, step);
    }
  }

  lemma LastGroup(pre: Raw, e: Entry<real>, step: Step)
    requires Ascending(pre) && AllBelow(pre, e.ts)
    ensures var g := Group(Singles(pre), step); Ascending(g) && (g != [] ==> g[|g| - 1].ts <= Floor(e.ts, step))
  {
    MapTimes(One, pre);
    MapSnoc(One, pre);
    GroupAscends(Singles(pre), step);
    if pre != [] {
      FloorMono(pre[|pre| - 1].ts, e.ts, step);
    }
  }

  lemma ListedStep(tail: Lists, e: Entry<real>, step: Step)
    requires Filled(tail) && Ascending(Map(Summed, tail))
    requires var g := Map(Summed, tail); g != [] ==> g[|g| - 1].ts <= Floor(e.ts, step)
    ensures var more := Append(tail, Floor(e.ts, step), e.val);
            && Map(Summed, more) == AddTo(Map(Summed, tail), Entry(e.ts, One(e.val)), step)
            && Filled(more) && Ascending(more)
  {
    var b := Floor(e.ts, step);
    MapSnoc(Summed, tail);
    MapTimes(Summed, tail);
    PutAscends(tail, Entry(b, ListAt(tail, b) + [e.val]));
    if tail != [] && tail[|tail| - 1].ts == b {
      var pre, last := tail[..|tail| - 1], tail[|tail| - 1];
      AppendToLast(tail, e.val);
      SummedAppend(last.val, e.val);
      SnocInit(pre, Entry(b, last.val + [e.val]));
    } else {
      AppendBehind(tail, b, e.val);
      SnocInit(tail, Entry(b, [e.val]));
    }
  }

  lemma {:induction false} MeanOfLists(tail: Lists)
    requires Filled(tail)
    ensures Map(MeanOf, tail) == Map(ToMean, Map(Summed, tail))
  {
    MapSnoc(Summed, tail);
    if tail != [] {
      MeanOfLists(tail[..|tail| - 1]);
      SummedIs(tail[|tail| - 1].val);
    }
  }

  method CollectTail(rows: Raw, step: Step) returns (tail: Lists)
    ensures tail == Listed(rows, step)
  {
    tail := [];
    assert rows[..0] == [] && rows[..|rows|] == rows;
    for i := 0 to |rows|
      invariant tail == Listed(rows[..i], step)
    {
      var b := Floor(rows[i].ts, step);
      assert rows[..i + 1][..i] == rows[..i];
      tail := Append(tail, b, rows[i].val);
    }
  }

  /** Append the cells behind the last point. */
  method AppendTail(tail: Lists, folded: Points) returns (points: Points)
    ensures points == folded + BehindLast(Map(MeanOf, tail), folded)
  {
    points := folded;
    assert tail[..0] == [] && tail[..|tail|] == tail;
    for i := 0 to |tail|
      invariant points == folded + BehindLast(Map(MeanOf, tail[..i]), folded)
    {
      ghost var before := Map(MeanOf, tail[..i]);
      var e := Entry(tail[i].ts, MeanOf(tail[i].val));
      assert tail[..i + 1][..i] == tail[..i];
      BehindStep(before, e, folded);
      ConcatAssoc(folded, BehindLast(before, folded), [e]);
      if folded == [] || folded[|folded| - 1].ts < e.ts {
        points := points + [e];
      }
    }
  }

  lemma BehindStep(points: Points, e: Entry<Mean>, folded: Points)
    ensures BehindLast(points + [e], folded)
         == BehindLast(points, folded) + if folded == [] || folded[|folded| - 1].ts < e.ts then [e] else []
  {
    SnocInit(points, e);
    ConcatNil(BehindLast(points, folded));
  }

  /** The loops of series() over the raw rows. */
  method TailOf(rows: Raw, step: Step, folded: Points) returns (points: Points)
    requires Ascending(rows)
    ensures points == folded + Tail(rows, step, folded)
  {
    var tail := CollectTail(rows, step);
    ListedIsGroup(rows, step);
    MeanOfLists(tail);
    points := AppendTail(tail, folded);
  }
}
