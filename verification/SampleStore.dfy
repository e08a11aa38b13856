/** The sample store (infra/llm-status/samplestore.py, class Store): its transactions, any statement of which may
    fail, its cache of series ids, and the graph query. The ghost field `past` is what the tables stand for. */
module SampleStore {
  import opened Options
  import opened Tables
  import opened Retention

  const MAINTAIN_EVERY: real := 300.0

  datatype Key = Key(target: string, metric: string)

  /** A row of the table `series`. */
  datatype SeriesRow = SeriesRow(id: nat, key: Key)

  /** The database: the tables raw and rollup as one table per series id, and the mark rolled_until. */
  datatype Db = Db(series: seq<SeriesRow>, raw: map<nat, Raw>, rollup: map<nat, Rollup>, rolled: Option<int>)

  /** What a reading may hold for a metric. */
  datatype Value = Absent | NotFinite | Num(v: real)

  datatype Reading = Reading(metric: string, value: Value)

  datatype Sample = Sample(metric: string, v: real)

  /** Every sample ever written, when the store was last maintained, and whether every sample and every
      maintenance came on time: none before 1970 or before the mark, the clock never back. */
  datatype Past = Past(hist: map<Key, Raw>, at: real, onTime: bool)

  function RawOf(db: Db, id: nat): Raw { if id in db.raw then db.raw[id] else [] }

  function RollupOf(db: Db, id: nat): Rollup { if id in db.rollup then db.rollup[id] else [] }

  function HistOf(past: Past, key: Key): Raw { if key in past.hist then past.hist[key] else [] }

  // ---------------------------------------------------------------- the table of series

  /** SELECT id FROM series WHERE target = ? AND metric = ?. */
  function Find(series: seq<SeriesRow>, key: Key): (r: Option<nat>)
    ensures r.Some? ==> exists i :: 0 <= i < |series| && series[i] == SeriesRow(r.value, key)
    ensures r.None? ==> forall i :: 0 <= i < |series| ==> series[i].key != key
  {
    if series == [] then None
    else
      var n := |series| - 1;
      if series[n].key == key then Some(series[n].id) else Find(series[..n], key)
  }

  /** The id SQLite gives to a new row: one more than the greatest. */
  function NewId(series: seq<SeriesRow>): (r: nat)
    ensures 0 < r && forall i :: 0 <= i < |series| ==> series[i].id < r
  {
    if series == [] then 1
    else
      var n := |series| - 1;
      var rest := NewId(series[..n]);
      if series[n].id < rest then rest else series[n].id + 1
  }

  ghost predicate IsId(series: seq<SeriesRow>, id: nat) { exists i :: 0 <= i < |series| && series[i].id == id }

  /** The new id is the one behind the greatest. */
  lemma {:induction false} NewIdIsNext(series: seq<SeriesRow>)
    requires series != []
    ensures IsId(series, NewId(series) - 1)
  {
    var n := |series| - 1;
    if n > 0 && series[n].id < NewId(series[..n]) {
      NewIdIsNext(series[..n]);
      IdsGrow(series[..n], series[n]);
      assert series[..n] + [series[n]] == series;
    } else {
      assert series[n].id == NewId(series) - 1;
    }
  }

  /** UNIQUE(target, metric) and the primary key. */
  ghost predicate Distinct(series: seq<SeriesRow>) {
    forall i, j :: 0 <= i < j < |series| ==> series[i].id != series[j].id && series[i].key != series[j].key
  }

  /** The cache holds exactly the series table. */
  ghost predicate CacheIs(sids: map<Key, nat>, series: seq<SeriesRow>) {
    forall key :: if key in sids then Find(series, key) == Some(sids[key]) else Find(series, key).None?
  }

  /** No two series share an id in the cache. */
  lemma CacheIsInjective(sids: map<Key, nat>, series: seq<SeriesRow>, a: Key, b: Key)
    requires CacheIs(sids, series) && Distinct(series) && a in sids && b in sids && sids[a] == sids[b]
    ensures a == b
  {
    assert Find(series, a) == Some(sids[a]) && Find(series, b) == Some(sids[b]);
    var i :| 0 <= i < |series| && series[i] == SeriesRow(sids[a], a);
    var j :| 0 <= j < |series| && series[j] == SeriesRow(sids[b], b);
    if i != j {
      DistinctRows(series, i, j);
    }
  }

  lemma DistinctRows(series: seq<SeriesRow>, i: int, j: int)
    requires Distinct(series) && 0 <= i < |series| && 0 <= j < |series| && i != j
    ensures series[i].id != series[j].id && series[i].key != series[j].key
  {
    if j < i {
      assert series[j].id != series[i].id;
    }
  }

  // ---------------------------------------------------------------- what the tables stand for

  ghost predicate KeptRow(db: Db, past: Past, row: SeriesRow) {
    Kept(RawOf(db, row.id), RollupOf(db, row.id), HistOf(past, row.key), db.rolled, RawCut(past.at), RollupCut(past.at))
  }

  ghost predicate AllKept(db: Db, past: Past) {
    && (db.rolled.Some? ==> db.rolled.value == Upto(past.at))
    && forall i :: 0 <= i < |db.series| ==> KeptRow(db, past, db.series[i])
  }

  ghost predicate TablesAscend(db: Db) { forall id :: Ascending(RawOf(db, id)) }

  /** Every row belongs to a series, and so does every sample of the past; (sid, ts) is the primary key of raw. */
  ghost predicate Sound(db: Db, past: Past) {
    && Distinct(db.series)
    && (forall id :: id in db.raw || id in db.rollup ==> IsId(db.series, id))
    && (forall key :: key in past.hist ==> Find(db.series, key).Some?)
    && TablesAscend(db)
  }

  ghost predicate Consistent(db: Db, past: Past) { Sound(db, past) && (past.onTime ==> AllKept(db, past)) }

  /** What is kept of a series depends on its own tables and its own history only. */
  lemma RowStays(db: Db, db2: Db, past: Past, past2: Past, row: SeriesRow)
    requires KeptRow(db, past, row) && db.rolled == db2.rolled && past.at == past2.at
    requires RawOf(db, row.id) == RawOf(db2, row.id) && RollupOf(db, row.id) == RollupOf(db2, row.id)
    requires HistOf(past, row.key) == HistOf(past2, row.key)
    ensures KeptRow(db2, past2, row)
  {
  }

  /** A new store file, with nothing in it and nothing behind it. */
  lemma NewFileIsConsistent()
    ensures Consistent(Db([], map[], map[], None), Past(map[], 0.0, true))
  {
  }

  // ---------------------------------------------------------------- add: the statements

  /** The samples of a reading that are numbers. */
  function Finite(values: seq<Reading>): seq<Sample> {
    if values == [] then []
    else
      var n := |values| - 1;
      var rest := Finite(values[..n]);
      if values[n].value.Num? then rest + [Sample(values[n].metric, values[n].value.v)] else rest
  }

  /** INSERT OR IGNORE INTO series. */
  function Register(db: Db, key: Key): Db {
    if Find(db.series, key).Some? then db else db.(series := db.series + [SeriesRow(NewId(db.series), key)])
  }

  function RegisterAll(db: Db, target: string, rows: seq<Sample>): Db {
    if rows == [] then db
    else Register(RegisterAll(db, target, rows[..|rows| - 1]), Key(target, rows[|rows| - 1].metric))
  }

  /** INSERT OR REPLACE INTO raw. */
  function Insert(db: Db, id: nat, e: Entry<real>): Db { db.(raw := db.raw[id := Put(RawOf(db, id), e)]) }

  /** The id a sample's series has. */
  function IdOf(series: seq<SeriesRow>, key: Key): nat {
    var found := Find(series, key);
    if found.Some? then found.value else 0
  }

  function InsertAll(db: Db, target: string, ts: int, rows: seq<Sample>): Db {
    if rows == [] then db
    else
      var last := rows[|rows| - 1];
      var id := IdOf(db.series, Key(target, last.metric));
      Insert(InsertAll(db, target, ts, rows[..|rows| - 1]), id, Entry(ts, last.v))
  }

  predicate OnTime(rolled: Option<int>, e: Entry<real>) { 0 <= e.ts && (rolled.None? || rolled.value <= e.ts) }

  /** What the history is after a sample of one series. */
  function Remember(past: Past, key: Key, e: Entry<real>, rolled: Option<int>): Past {
    Past(past.hist[key := Put(HistOf(past, key), e)], past.at,
         past.onTime && OnTime(rolled, e))
  }

  function RememberAll(past: Past, target: string, ts: int, rows: seq<Sample>, rolled: Option<int>): Past {
    if rows == [] then past
    else
      var last := rows[|rows| - 1];
      Remember(RememberAll(past, target, ts, rows[..|rows| - 1], rolled), Key(target, last.metric), Entry(ts, last.v),
               rolled)
  }

  lemma {:induction false} FindGrows(series: seq<SeriesRow>, row: SeriesRow, key: Key)
    ensures Find(series + [row], key) == if row.key == key then Some(row.id) else Find(series, key)
  {
    assert (series + [row])[..|series|] == series;
  }

  lemma EmptyIsKept(rolled: Option<int>, at: real)
    requires rolled.Some? ==> rolled.value == Upto(at)
    ensures Kept([], [], [], rolled, RawCut(at), RollupCut(at))
  {
    CutsAreOrdered(at);
  }

  lemma IdsGrow(series: seq<SeriesRow>, row: SeriesRow)
    ensures forall id :: IsId(series, id) ==> IsId(series + [row], id)
  {
    forall id | IsId(series, id)
      ensures IsId(series + [row], id)
    {
      var i :| 0 <= i < |series| && series[i].id == id;
      assert (series + [row])[i].id == id;
    }
  }

  lemma NewSeriesIsSound(db: Db, past: Past, key: Key)
    requires Sound(db, past) && Find(db.series, key).None?
    ensures Sound(Register(db, key), past) && NewId(db.series) !in db.raw && NewId(db.series) !in db.rollup
    ensures key !in past.hist
  {
    var row := SeriesRow(NewId(db.series), key);
    IdsGrow(db.series, row);
    assert forall id :: RawOf(Register(db, key), id) == RawOf(db, id);
    forall other {
      FindGrows(db.series, row, other);
    }
  }

  lemma FindAfterRegister(db: Db, key: Key)
    ensures Find(Register(db, key).series, key).Some? && Extends(db.series, Register(db, key).series)
  {
    forall other {
      FindGrows(db.series, SeriesRow(NewId(db.series), key), other);
    }
  }

  /** A new series starts with empty tables and no history. */
  lemma RegisterKeeps(db: Db, past: Past, key: Key)
    requires Consistent(db, past)
    ensures Consistent(Register(db, key), past)
  {
    if Find(db.series, key).None? {
      NewSeriesIsSound(db, past, key);
      if past.onTime {
        NewSeriesIsKept(db, past, key);
      }
    }
  }

  lemma NewRowIsKept(db: Db, past: Past, row: SeriesRow)
    requires db.rolled.Some? ==> db.rolled.value == Upto(past.at)
    requires row.id !in db.raw && row.id !in db.rollup && row.key !in past.hist
    ensures KeptRow(db, past, row)
  {
    EmptyIsKept(db.rolled, past.at);
  }

  lemma NewSeriesIsKept(db: Db, past: Past, key: Key)
    requires AllKept(db, past) && Find(db.series, key).None? && key !in past.hist
    requires NewId(db.series) !in db.raw && NewId(db.series) !in db.rollup
    ensures AllKept(Register(db, key), past)
  {
    var row := SeriesRow(NewId(db.series), key);
    assert Register(db, key) == db.(series := db.series + [row]);
    NewRowIsKept(db.(series := db.series + [row]), past, row);
    AllKeptGrows(db, past, row);
  }

  lemma AllKeptGrows(db: Db, past: Past, row: SeriesRow)
    requires AllKept(db, past) && KeptRow(db.(series := db.series + [row]), past, row)
    ensures AllKept(db.(series := db.series + [row]), past)
  {
    var db2, n := db.(series := db.series + [row]), |db.series|;
    forall i | 0 <= i < |db2.series|
      ensures KeptRow(db2, past, db2.series[i])
    {
      if i < n {
        RowStays(db, db2, past, past, db.series[i]);
      }
    }
  }

  /** A sample goes to the tables of its own series and to no other. */
  lemma InsertKeeps(db: Db, past: Past, id: nat, key: Key, e: Entry<real>)
    requires Consistent(db, past) && Find(db.series, key) == Some(id)
    ensures Consistent(Insert(db, id, e), Remember(past, key, e, db.rolled))
  {
    var k :| 0 <= k < |db.series| && db.series[k] == SeriesRow(id, key);
    assert IsId(db.series, id);
    InsertAscends(db, id, e);
    if past.onTime && OnTime(db.rolled, e) {
      InsertIsKept(db, past, k, e);
    }
  }

  lemma InsertAscends(db: Db, id: nat, e: Entry<real>)
    requires TablesAscend(db)
    ensures TablesAscend(Insert(db, id, e))
  {
    PutAscends(RawOf(db, id), e);
    assert forall other ::
        RawOf(Insert(db, id, e), other) == if other == id then Put(RawOf(db, id), e) else RawOf(db, other);
  }

  lemma InsertIsKept(db: Db, past: Past, k: nat, e: Entry<real>)
    requires Distinct(db.series) && AllKept(db, past) && k < |db.series| && OnTime(db.rolled, e)
    ensures AllKept(Insert(db, db.series[k].id, e), Remember(past, db.series[k].key, e, db.rolled))
  {
    var id, key := db.series[k].id, db.series[k].key;
    var db2, past2 := Insert(db, id, e), Remember(past, key, e, db.rolled);
    forall i | 0 <= i < |db2.series|
      ensures KeptRow(db2, past2, db2.series[i])
    {
      assert KeptRow(db, past, db.series[i]);
      if i == k {
        KeepAdd(RawOf(db, id), RollupOf(db, id), HistOf(past, key), db.rolled, RawCut(past.at), RollupCut(past.at), e);
      } else {
        DistinctRows(db.series, i, k);
        RowStays(db, db2, past, past2, db.series[i]);
      }
    }
  }

  ghost predicate AllFound(series: seq<SeriesRow>, target: string, rows: seq<Sample>) {
    forall k :: 0 <= k < |rows| ==> Find(series, Key(target, rows[k].metric)).Some?
  }

  /** Every series of a is one of b, under the same id. */
  ghost predicate Extends(a: seq<SeriesRow>, b: seq<SeriesRow>) {
    forall key :: Find(a, key).Some? ==> Find(b, key) == Find(a, key)
  }

  lemma FindsMore(a: seq<SeriesRow>, b: seq<SeriesRow>, target: string, rows: seq<Sample>, n: nat)
    requires n + 1 == |rows| && AllFound(a, target, rows[..n])
    requires Extends(a, b) && Find(b, Key(target, rows[n].metric)).Some?
    ensures AllFound(b, target, rows)
  {
    forall k | 0 <= k < |rows|
      ensures Find(b, Key(target, rows[k].metric)).Some?
    {
      if k < n {
        assert rows[..n][k] == rows[k];
      }
    }
  }

  lemma IdsMore(a: seq<SeriesRow>, b: seq<SeriesRow>, ids: seq<nat>, target: string, rows: seq<Sample>, n: nat, id: nat)
    requires n + 1 == |rows| && IdsAre(ids, a, target, rows[..n])
    requires Extends(a, b) && Find(b, Key(target, rows[n].metric)) == Some(id)
    ensures IdsAre(ids + [id], b, target, rows)
  {
    forall k | 0 <= k < |rows|
      ensures Find(b, Key(target, rows[k].metric)) == Some((ids + [id])[k])
    {
      if k < n {
        assert rows[..n][k] == rows[k];
      }
    }
  }

  lemma {:induction false} RegisterAllFinds(db: Db, target: string, rows: seq<Sample>)
    ensures AllFound(RegisterAll(db, target, rows).series, target, rows)
  {
    if rows != [] {
      var n := |rows| - 1;
      RegisterAllFinds(db, target, rows[..n]);
      var before := RegisterAll(db, target, rows[..n]);
      var key := Key(target, rows[n].metric);
      FindAfterRegister(before, key);
      FindsMore(before.series, Register(before, key).series, target, rows, n);
    }
  }

  lemma {:induction false} RegisterAllKeeps(db: Db, past: Past, target: string, rows: seq<Sample>)
    requires Consistent(db, past)
    ensures Consistent(RegisterAll(db, target, rows), past)
  {
    if rows != [] {
      var n := |rows| - 1;
      RegisterAllKeeps(db, past, target, rows[..n]);
      RegisterKeeps(RegisterAll(db, target, rows[..n]), past, Key(target, rows[n].metric));
    }
  }

  lemma {:induction false} InsertAllKeeps(db: Db, past: Past, target: string, ts: int, rows: seq<Sample>)
    requires Consistent(db, past) && AllFound(db.series, target, rows)
    ensures Consistent(InsertAll(db, target, ts, rows), RememberAll(past, target, ts, rows, db.rolled))
    ensures InsertAll(db, target, ts, rows).series == db.series && InsertAll(db, target, ts, rows).rolled == db.rolled
  {
    if rows != [] {
      var n := |rows| - 1;
      InsertAllKeeps(db, past, target, ts, rows[..n]);
      var key := Key(target, rows[n].metric);
      InsertKeeps(InsertAll(db, target, ts, rows[..n]), RememberAll(past, target, ts, rows[..n], db.rolled),
                  IdOf(db.series, key), key, Entry(ts, rows[n].v));
    }
  }

  lemma {:induction false} RegisterAllRolled(db: Db, target: string, rows: seq<Sample>)
    ensures RegisterAll(db, target, rows).rolled == db.rolled
  {
    if rows != [] {
      RegisterAllRolled(db, target, rows[..|rows| - 1]);
    }
  }

  lemma {:induction false} InsertAllSeries(db: Db, target: string, ts: int, rows: seq<Sample>)
    ensures InsertAll(db, target, ts, rows).series == db.series
  {
    if rows != [] {
      InsertAllSeries(db, target, ts, rows[..|rows| - 1]);
    }
  }

  /** A reading that is committed keeps the database in step. */
  lemma AddKeeps(db: Db, past: Past, target: string, ts: int, rows: seq<Sample>)
    requires Consistent(db, past)
    ensures Consistent(InsertAll(RegisterAll(db, target, rows), target, ts, rows),
                       RememberAll(past, target, ts, rows, db.rolled))
  {
    RegisterAllKeeps(db, past, target, rows);
    RegisterAllFinds(db, target, rows);
    RegisterAllRolled(db, target, rows);
    InsertAllKeeps(RegisterAll(db, target, rows), past, target, ts, rows);
  }

  // ---------------------------------------------------------------- maintain: the statements

  function MinTs(t: Raw): (m: int)
    requires t != []
    ensures forall i :: 0 <= i < |t| ==> m <= t[i].ts
    ensures exists i :: 0 <= i < |t| && t[i].ts == m
  {
    if |t| == 1 then t[0].ts
    else
      var rest := MinTs(t[..|t| - 1]);
      if t[|t| - 1].ts < rest then t[|t| - 1].ts else rest
  }

  function MaxTs<T>(t: seq<Entry<T>>): (m: int)
    requires t != []
    ensures forall i :: 0 <= i < |t| ==> t[i].ts <= m
    ensures exists i :: 0 <= i < |t| && t[i].ts == m
  {
    if |t| == 1 then t[0].ts
    else
      var rest := MaxTs(t[..|t| - 1]);
      if rest < t[|t| - 1].ts then t[|t| - 1].ts else rest
  }

  lemma {:induction false} MinTsIsLeast(t: Raw)
    requires t != []
    ensures AllFrom(t, MinTs(t))
  {
    if |t| > 1 {
      MinTsIsLeast(t[..|t| - 1]);
      AllFromMono(t[..|t| - 1], MinTs(t), MinTs(t[..|t| - 1]));
    } else {
      assert t[..0] == [];
    }
  }

  /** SELECT MIN(ts) FROM raw. */
  ghost predicate IsFirst(db: Db, first: Option<int>) {
    match first
    case None => forall id :: RawOf(db, id) == []
    case Some(f) => && (forall id :: AllFrom(RawOf(db, id), f))
                    && exists id :: RawOf(db, id) != [] && MinTs(RawOf(db, id)) == f
  }

  /** _last_bucket: the start of the latest folded cell before upto, over the series `ids`. */
  ghost predicate IsLastBucket(db: Db, ids: set<nat>, upto: int, best: Option<int>) {
    match best
    case None => forall id :: id in ids ==> Until(RollupOf(db, id), upto) == []
    case Some(b) =>
      && (forall id :: id in ids && Until(RollupOf(db, id), upto) != [] ==> MaxTs(Until(RollupOf(db, id), upto)) <= b)
      && exists id :: id in ids && Until(RollupOf(db, id), upto) != [] && MaxTs(Until(RollupOf(db, id), upto)) == b
  }

  /** From where maintain folds: the mark, or the last folded cell if the mark lies ahead of the clock, or the cell of
      the earliest row. */
  ghost predicate IsStart(db: Db, ids: set<nat>, upto: int, start: Option<int>) {
    if db.rolled.Some? && db.rolled.value <= upto then start == db.rolled
    else if db.rolled.Some? && start.Some? && IsLastBucket(db, ids, upto, start) then true
    else
      && (db.rolled.Some? ==> IsLastBucket(db, ids, upto, None))
      && exists first: Option<int> :: IsFirst(db, first)
           && start == if first.Some? then Some(Floor(first.value, ROLLUP)) else None
  }

  /** The mark after maintain. */
  function MarkAfter(rolled: Option<int>, start: Option<int>, upto: int): Option<int> {
    if start.None? || start.value < upto then Some(upto) else rolled
  }

  /** What maintain does to one series: fold, then delete. */
  function RollupAfter(raw: Raw, rollup: Rollup, start: Option<int>, now: real): Rollup {
    From(if start.Some? && start.value < Upto(now) then Fold(raw, rollup, start.value, Upto(now)) else rollup,
         RollupCut(now))
  }

  function RawAfter(raw: Raw, now: real): Raw { From(raw, RawCut(now)) }

  /** db2 is db maintained at `now`, folding from `start`. */
  ghost predicate Maintained(db: Db, db2: Db, ids: set<nat>, start: Option<int>, now: real) {
    && db2.series == db.series
    && db2.rolled == MarkAfter(db.rolled, start, Upto(now))
    && db2.raw.Keys <= db.raw.Keys + ids && db2.rollup.Keys <= db.rollup.Keys + ids
    && forall id :: id in ids ==> && RawOf(db2, id) == RawAfter(RawOf(db, id), now)
                                  && RollupOf(db2, id) == RollupAfter(RawOf(db, id), RollupOf(db, id), start, now)
  }

  function After(past: Past, rolled: Option<int>, now: real): Past {
    Past(past.hist, now, past.onTime && (rolled.None? || past.at <= now))
  }

  /** One series stays in step with its history through a maintenance that comes on time. */
  lemma MaintainSeries(db: Db, raw: Raw, rollup: Rollup, hist: Raw, rolled: Option<int>, at: real, ids: set<nat>,
                       start: Option<int>, now: real)
    requires Kept(raw, rollup, hist, rolled, RawCut(at), RollupCut(at)) && rolled == db.rolled
    requires rolled.Some? ==> rolled.value == Upto(at) && at <= now
    requires IsStart(db, ids, Upto(now), start) && exists id :: raw == RawOf(db, id)
    ensures Kept(RawAfter(raw, now), RollupAfter(raw, rollup, start, now), hist, MarkAfter(rolled, start, Upto(now)),
                 RawCut(now), RollupCut(now))
  {
    CutsAreOrdered(now);
    if rolled.Some? {
      TimesMono(at, now);
      MaintainFolded(raw, rollup, hist, rolled.value, at, now);
    } else {
      var first: Option<int> :|
        IsFirst(db, first) && start == if first.Some? then Some(Floor(first.value, ROLLUP)) else None;
      if first.None? {
        EmptyIsKept(Some(Upto(now)), now);
      } else {
        FloorIs(first.value, ROLLUP);
        AllFromMono(raw, start.value, first.value);
        MaintainFirst(raw, hist, start.value, now);
      }
    }
  }

  lemma MaintainFolded(raw: Raw, rollup: Rollup, hist: Raw, r: int, at: real, now: real)
    requires Kept(raw, rollup, hist, Some(r), RawCut(at), RollupCut(at)) && r == Upto(at) && at <= now
    ensures Kept(RawAfter(raw, now), RollupAfter(raw, rollup, Some(r), now), hist,
                 MarkAfter(Some(r), Some(r), Upto(now)), RawCut(now), RollupCut(now))
  {
    CutsAreOrdered(now);
    TimesMono(at, now);
    var folded := if r < Upto(now) then Fold(raw, rollup, r, Upto(now)) else rollup;
    if r < Upto(now) {
      KeepFold(raw, rollup, hist, r, RawCut(at), RollupCut(at), Upto(now));
    }
    KeepTrim(raw, folded, hist, Upto(now), RawCut(at), RollupCut(at), RawCut(now), RollupCut(now));
  }

  lemma MaintainFirst(raw: Raw, hist: Raw, start: int, now: real)
    requires Ascending(hist) && AllFrom(hist, 0) && raw == hist && AllFrom(raw, start) && start % ROLLUP == 0
    ensures Kept(RawAfter(raw, now), RollupAfter(raw, [], Some(start), now), hist,
                 MarkAfter(None, Some(start), Upto(now)), RawCut(now), RollupCut(now))
  {
    var upto := Upto(now);
    CutsAreOrdered(now);
    if start < upto {
      var low := if start < RollupCut(now) then start else RollupCut(now);
      KeepFirstFold(raw, hist, start, upto, low);
      KeepTrim(raw, Fold(raw, [], start, upto), hist, upto, low, low, RawCut(now), RollupCut(now));
    } else {
      AllFromMono(raw, RawCut(now), start);
      FromSelects(raw, RawCut(now));
    }
  }

  lemma MaintainIsSound(db: Db, db2: Db, past: Past, past2: Past, ids: set<nat>, start: Option<int>, now: real)
    requires Sound(db, past) && Maintained(db, db2, ids, start, now) && past2.hist == past.hist
    requires forall id :: id in ids <==> IsId(db.series, id)
    ensures Sound(db2, past2)
  {
    forall id
      ensures Ascending(RawOf(db2, id))
    {
      Split(RawOf(db, id), RawCut(now));
    }
  }

  lemma MaintainIsKept(db: Db, db2: Db, past: Past, ids: set<nat>, start: Option<int>, now: real)
    requires AllKept(db, past) && Maintained(db, db2, ids, start, now) && IsStart(db, ids, Upto(now), start)
    requires forall i :: 0 <= i < |db.series| ==> db.series[i].id in ids
    requires db.rolled.Some? ==> past.at <= now
    ensures AllKept(db2, After(past, db.rolled, now))
  {
    var past2 := After(past, db.rolled, now);
    forall i | 0 <= i < |db2.series|
      ensures KeptRow(db2, past2, db2.series[i])
    {
      var row := db.series[i];
      assert KeptRow(db, past, row) && row.id in ids;
      MaintainSeries(db, RawOf(db, row.id), RollupOf(db, row.id), HistOf(past, row.key), db.rolled, past.at, ids, start,
                     now);
    }
    MarkIsUpto(db, past.at, ids, start, now);
  }

  /** Maintenance keeps the whole database in step. */
  lemma MaintainKeeps(db: Db, db2: Db, past: Past, ids: set<nat>, start: Option<int>, now: real)
    requires Consistent(db, past) && Maintained(db, db2, ids, start, now) && IsStart(db, ids, Upto(now), start)
    requires forall id :: id in ids <==> IsId(db.series, id)
    ensures Consistent(db2, After(past, db.rolled, now))
  {
    MaintainIsSound(db, db2, past, After(past, db.rolled, now), ids, start, now);
    if After(past, db.rolled, now).onTime {
      MaintainIsKept(db, db2, past, ids, start, now);
    }
  }

  lemma MarkIsUpto(db: Db, at: real, ids: set<nat>, start: Option<int>, now: real)
    requires db.rolled.Some? ==> db.rolled.value == Upto(at) && at <= now
    requires IsStart(db, ids, Upto(now), start)
    ensures var mark := MarkAfter(db.rolled, start, Upto(now)); mark.Some? ==> mark.value == Upto(now)
  {
    if db.rolled.Some? {
      TimesMono(at, now);
    }
  }

  // ---------------------------------------------------------------- maintain, series by series

  /** `ids` are folded, the rest is as before. */
  ghost predicate FoldedAll(db: Db, db2: Db, ids: set<nat>, start: int, upto: int) {
    && db2 == db.(rollup := db2.rollup) && db2.rollup.Keys <= db.rollup.Keys + ids
    && forall id :: if id in ids then RollupOf(db2, id) == Fold(RawOf(db, id), RollupOf(db, id), start, upto)
                    else RollupOf(db2, id) == RollupOf(db, id)
  }

  lemma EmptyFold(db: Db, ids: set<nat>, start: int, upto: int)
    ensures FoldedAll(db, db, ids - ids, start, upto)
  {
  }

  lemma FoldStep(db: Db, mid: Db, done: set<nat>, id: nat, start: int, upto: int)
    requires FoldedAll(db, mid, done, start, upto) && id !in done
    ensures FoldedAll(db, mid.(rollup := mid.rollup[id := Fold(RawOf(mid, id), RollupOf(mid, id), start, upto)]),
                      done + {id}, start, upto)
  {
  }

  function TrimOne(db: Db, id: nat, now: real): Db {
    db.(raw := db.raw[id := RawAfter(RawOf(db, id), now)],
        rollup := db.rollup[id := From(RollupOf(db, id), RollupCut(now))])
  }

  ghost predicate TrimmedAll(db: Db, db2: Db, ids: set<nat>, now: real) {
    && db2 == db.(raw := db2.raw, rollup := db2.rollup)
    && db2.raw.Keys <= db.raw.Keys + ids && db2.rollup.Keys <= db.rollup.Keys + ids
    && forall id :: if id in ids then RawOf(db2, id) == RawAfter(RawOf(db, id), now)
                                      && RollupOf(db2, id) == From(RollupOf(db, id), RollupCut(now))
                    else RawOf(db2, id) == RawOf(db, id) && RollupOf(db2, id) == RollupOf(db, id)
  }

  lemma EmptyTrim(db: Db, now: real)
    ensures TrimmedAll(db, db, {}, now)
  {
  }

  lemma TrimStep(db: Db, mid: Db, done: set<nat>, id: nat, now: real)
    requires TrimmedAll(db, mid, done, now) && id !in done
    ensures TrimmedAll(db, TrimOne(mid, id, now), done + {id}, now)
  {
  }

  /** Folding, moving the mark and deleting are maintenance. */
  lemma FoldThenTrim(db: Db, folded: Db, marked: Db, db2: Db, ids: set<nat>, start: Option<int>, now: real)
    requires if start.Some? && start.value < Upto(now) then FoldedAll(db, folded, ids, start.value, Upto(now))
             else folded == db
    requires marked == folded.(rolled := MarkAfter(db.rolled, start, Upto(now)))
    requires TrimmedAll(marked, db2, ids, now)
    ensures Maintained(db, db2, ids, start, now)
  {
    forall id | id in ids
      ensures RawOf(db2, id) == RawAfter(RawOf(db, id), now)
      ensures RollupOf(db2, id) == RollupAfter(RawOf(db, id), RollupOf(db, id), start, now)
    {
      assert RawOf(marked, id) == RawOf(db, id) && RollupOf(marked, id) == RollupOf(folded, id);
    }
  }

  // ---------------------------------------------------------------- the query

  datatype Range = Hour | Day | Week | Month

  /** RANGES: how far back, and the width of a point. */
  function Span(rng: Range): int {
    match rng case Hour => 3600 case Day => 86400 case Week => 7 * 86400 case Month => 35 * 86400
  }

  function StepOf(rng: Range): Step {
    match rng case Hour => 15 case Day => ROLLUP case Week => 1800 case Month => 7200
  }

  function Since(rng: Range, now: real): int { Trunc(now - Span(rng) as real) }

  /** The four graphs: an hour as it came, a day in cells of five minutes, a week of half an hour, 35 days of two hours;
      each from the second that far back on. */
  lemma RangesAre(rng: Range, now: real)
    ensures var (back, width) := match rng
                                 case Hour => (3600, 15)
                                 case Day => (86400, 300)
                                 case Week => (604800, 1800)
                                 case Month => (3024000, 7200);
            && StepOf(rng) == width
            && IsWholePart(Since(rng, now), now - back as real)
  {
    TruncIs(now - Span(rng) as real);
  }

  /** A reading is on time unless it lies before 1970 or before the mark; a maintenance unless the clock went back. */
  lemma {:induction false} OnTimeIff(past: Past, target: string, ts: int, rows: seq<Sample>, rolled: Option<int>,
                                     now: real)
    ensures RememberAll(past, target, ts, rows, rolled).onTime
       <==> past.onTime && (rows != [] ==> 0 <= ts && (rolled.Some? ==> rolled.value <= ts))
    ensures After(past, rolled, now).onTime <==> past.onTime && (rolled.Some? ==> past.at <= now)
  {
    if rows != [] {
      OnTimeIff(past, target, ts, rows[..|rows| - 1], rolled, now);
    }
  }

  /** Points of raw values, or of means and maxima. */
  datatype Answer = Samples(rows: Raw) | Means(points: Points)

  lemma SinceIsKept(rng: Range, at: real, now: real)
    requires at <= now
    ensures RollupCut(at) <= Since(rng, now) && (rng.Hour? ==> RawCut(at) <= Since(rng, now))
  {
    TimesMono(at, now);
    TruncMono(now - ROLLUP_KEEP as real, now - Span(rng) as real);
    if rng.Hour? {
      TruncMono(now - RAW_KEEP as real, now - Span(rng) as real);
    }
  }

  /** What an answer owes to the past: the hour all samples of the window as they came, the other ranges the means
      and maxima of the samples they cover, and the day all of the window's whole cells. */
  ghost predicate Answers(answer: Answer, hist: Raw, rolled: Option<int>, rng: Range, now: real) {
    var since := Since(rng, now);
    if rng.Hour? then answer == Samples(From(hist, since))
    else
      && answer.Means?
      && Shows(answer.points, Covered(hist, rolled, since, StepOf(rng)), StepOf(rng))
      && Ascending(Covered(hist, rolled, since, StepOf(rng)))
      && (forall e :: e in Covered(hist, rolled, since, StepOf(rng)) ==> e in hist)
      && (rng.Day? && rolled.Some? && since <= rolled.value
          ==> Shows(answer.points, From(hist, Ceil(since)), ROLLUP))
  }

  lemma GraphAnswers(raw: Raw, rollup: Rollup, hist: Raw, rolled: Option<int>, at: real, rng: Range, now: real)
    requires Kept(raw, rollup, hist, rolled, RawCut(at), RollupCut(at)) && !rng.Hour?
    requires RollupCut(at) <= Since(rng, now)
    ensures Answers(Means(Graph(raw, rollup, rolled, Since(rng, now), StepOf(rng))), hist, rolled, rng, now)
  {
    var since := Since(rng, now);
    GraphShowsCovered(raw, rollup, hist, rolled, RawCut(at), RollupCut(at), since, StepOf(rng));
    if rng.Day? && rolled.Some? && since <= rolled.value {
      DayGraph(raw, rollup, hist, rolled.value, RawCut(at), RollupCut(at), since);
    }
  }

  lemma HourAnswers(raw: Raw, rollup: Rollup, hist: Raw, rolled: Option<int>, at: real, now: real)
    requires Kept(raw, rollup, hist, rolled, RawCut(at), RollupCut(at)) && RawCut(at) <= Since(Hour, now)
    ensures From(raw, Since(Hour, now)) == From(hist, Since(Hour, now))
  {
    if rolled.Some? {
      FromFrom(hist, RawCut(at), Since(Hour, now));
    }
  }

  /** What the tables of one series answer. */
  function AnswerOf(raw: Raw, rollup: Rollup, rolled: Option<int>, rng: Range, now: real): Answer {
    if rng.Hour? then Samples(From(raw, Since(rng, now)))
    else Means(Graph(raw, rollup, rolled, Since(rng, now), StepOf(rng)))
  }

  lemma TablesAnswer(raw: Raw, rollup: Rollup, hist: Raw, rolled: Option<int>, at: real, rng: Range, now: real)
    requires Kept(raw, rollup, hist, rolled, RawCut(at), RollupCut(at)) && at <= now
    ensures Answers(AnswerOf(raw, rollup, rolled, rng, now), hist, rolled, rng, now)
  {
    SinceIsKept(rng, at, now);
    if rng.Hour? {
      HourAnswers(raw, rollup, hist, rolled, at, now);
    } else {
      GraphAnswers(raw, rollup, hist, rolled, at, rng, now);
    }
  }

  lemma NothingToShow(rolled: Option<int>, rng: Range, now: real)
    ensures AnswerOf([], [], rolled, rng, now) == if rng.Hour? then Samples([]) else Means([])
  {
  }

  /** A series that was never written answers nothing, one that was answers from its own tables. */
  lemma UnknownAnswers(db: Db, past: Past, key: Key, rng: Range, now: real)
    requires Consistent(db, past) && Find(db.series, key).None?
    ensures past.onTime && (db.rolled.Some? ==> past.at <= now)
        ==> Answers(AnswerOf([], [], db.rolled, rng, now), HistOf(past, key), db.rolled, rng, now)
  {
    if past.onTime && (db.rolled.Some? ==> past.at <= now) {
      var at := if db.rolled.Some? then past.at else now;
      EmptyIsKept(db.rolled, at);
      TablesAnswer([], [], [], db.rolled, at, rng, now);
    }
  }

  lemma KnownAnswers(db: Db, past: Past, id: nat, key: Key, rng: Range, now: real)
    requires Consistent(db, past) && Find(db.series, key) == Some(id)
    ensures past.onTime && (db.rolled.Some? ==> past.at <= now)
        ==> Answers(AnswerOf(RawOf(db, id), RollupOf(db, id), db.rolled, rng, now),
                    HistOf(past, key), db.rolled, rng, now)
  {
    if past.onTime && (db.rolled.Some? ==> past.at <= now) {
      var k :| 0 <= k < |db.series| && db.series[k] == SeriesRow(id, key);
      assert KeptRow(db, past, db.series[k]);
      var at := if db.rolled.Some? then past.at else now;
      TablesAnswer(RawOf(db, id), RollupOf(db, id), HistOf(past, key), db.rolled, at, rng, now);
    }
  }

  // ---------------------------------------------------------------- the cache within a transaction

  /** The cache has grown by the keys `pending` (_fresh) only. */
  ghost predicate Grown(sids: map<Key, nat>, cached: map<Key, nat>, pending: seq<Key>) {
    && (forall key :: key in sids <==> key in cached || key in pending)
    && (forall key :: key in pending ==> key !in cached)
    && (forall key :: key in cached ==> sids[key] == cached[key])
  }

  lemma GrownAdd(sids: map<Key, nat>, cached: map<Key, nat>, pending: seq<Key>, key: Key, id: nat)
    requires Grown(sids, cached, pending) && key !in sids
    ensures Grown(sids[key := id], cached, pending + [key])
  {
  }

  /** A new row of the series table and its entry in the cache. */
  lemma CacheAdd(db: Db, sids: map<Key, nat>, key: Key)
    requires CacheIs(sids, db.series) && key !in sids
    ensures Find(Register(db, key).series, key) == Some(NewId(db.series))
    ensures CacheIs(sids[key := NewId(db.series)], Register(db, key).series)
  {
    forall other {
      FindGrows(db.series, SeriesRow(NewId(db.series), key), other);
    }
  }

  /** The ids of the rows' series. */
  ghost predicate IdsAre(ids: seq<nat>, series: seq<SeriesRow>, target: string, rows: seq<Sample>) {
    |ids| == |rows| && forall k :: 0 <= k < |rows| ==> Find(series, Key(target, rows[k].metric)) == Some(ids[k])
  }

  ghost predicate SidsSoFar(db: Db, mid: Db, ids: seq<nat>, target: string, rows: seq<Sample>) {
    mid == RegisterAll(db, target, rows) && IdsAre(ids, mid.series, target, rows)
  }

  lemma SidsStep(db: Db, mid: Db, next: Db, ids: seq<nat>, target: string, rows: seq<Sample>, i: nat, sid: nat)
    requires i < |rows| && SidsSoFar(db, mid, ids, target, rows[..i])
    requires next == Register(mid, Key(target, rows[i].metric))
    requires Find(next.series, Key(target, rows[i].metric)) == Some(sid)
    ensures SidsSoFar(db, next, ids + [sid], target, rows[..i + 1])
  {
    FindAfterRegister(mid, Key(target, rows[i].metric));
    assert rows[..i + 1][..i] == rows[..i];
    IdsMore(mid.series, next.series, ids, target, rows[..i + 1], i, sid);
  }

  // ---------------------------------------------------------------- class Store

  class Store {
    var db: Db
    var saved: Db            // what ROLLBACK restores
    var sids: map<Key, nat>
    var pending: seq<Key>
    var lastMaint: real
    var failed: bool
    ghost var past: Past

    /** Between two calls. */
    ghost predicate Valid()
      reads this
    {
      Consistent(db, past) && CacheIs(sids, db.series) && pending == []
    }

    /** Open a store file: it holds what an earlier process committed, or nothing. */
    constructor (file: Db, ghost before: Past)
      requires Consistent(file, before)
      ensures Valid() && db == file && past == before && !failed
    {
      db, saved, sids, pending, lastMaint, failed, past := file, file, map[], [], 0.0, false, before;
      new;
      assert file.series[..0] == [] && file.series[..|file.series|] == file.series;
      for i := 0 to |file.series|
        invariant db == file && past == before && pending == [] && !failed
        invariant CacheIs(sids, file.series[..i])
      {
        var row := file.series[i];
        assert file.series[..i + 1] == file.series[..i] + [row];
        forall key {
          FindGrows(file.series[..i], row, key);
        }
        sids := sids[row.key := row.id];
      }
    }

    method Begin(budget: nat) returns (left: nat, ok: bool)
      modifies this`saved
      ensures ok == (0 < budget) && left == (if ok then budget - 1 else 0)
      ensures saved == db
    {
      saved := db;
      ok := 0 < budget;
      left := if ok then budget - 1 else 0;
    }

    /** _rollback. */
    method Rollback(ghost cached: map<Key, nat>)
      requires Grown(sids, cached, pending)
      modifies this`db, this`sids, this`pending
      ensures db == saved && sids == cached && pending == []
    {
      db := saved;
      var i := 0;
      while i < |pending|
        invariant i <= |pending| && db == saved && pending == old(pending)
        invariant forall key :: key in sids <==> key in cached || (key in pending && key !in pending[..i])
        invariant forall key :: key in cached ==> key in sids && sids[key] == cached[key]
      {
        assert pending[..i + 1] == pending[..i] + [pending[i]];
        sids := sids - {pending[i]};
        i := i + 1;
      }
      pending := [];
    }

    /** _sid, its two statements. On failure only ROLLBACK is left. */
    method Sid(key: Key, budget: nat, ghost cached: map<Key, nat>) returns (sid: nat, left: nat, ok: bool)
      requires CacheIs(sids, db.series) && Grown(sids, cached, pending)
      modifies this`db, this`sids, this`pending
      ensures Grown(sids, cached, pending)
      ensures ok ==> db == Register(old(db), key) && CacheIs(sids, db.series) && Find(db.series, key) == Some(sid)
      ensures 2 <= budget ==> ok && budget - 2 <= left
    {
      if key in sids {
        return sids[key], budget, true;
      }
      CacheAdd(db, sids, key);
      GrownAdd(sids, cached, pending, key, NewId(db.series));
      if budget == 0 {
        return 0, 0, false;
      }
      db := Register(db, key);
      if budget == 1 {
        return 0, 0, false;
      }
      sid := Find(db.series, key).value;
      sids := sids[key := sid];
      pending := pending + [key];
      return sid, budget - 2, true;
    }

    /** The list comprehension in add: the ids of all rows, before any of them is inserted. */
    method Sids(target: string, rows: seq<Sample>, budget: nat, ghost cached: map<Key, nat>)
      returns (ids: seq<nat>, left: nat, ok: bool)
      requires CacheIs(sids, db.series) && Grown(sids, cached, pending)
      modifies this`db, this`sids, this`pending
      ensures Grown(sids, cached, pending)
      ensures ok ==> db == RegisterAll(old(db), target, rows) && CacheIs(sids, db.series)
      ensures ok ==> IdsAre(ids, db.series, target, rows)
      ensures 2 * |rows| <= budget ==> ok && budget - 2 * |rows| <= left
    {
      ids, left := [], budget;
      assert rows[..0] == [] && rows[..|rows|] == rows;
      for i := 0 to |rows|
        invariant Grown(sids, cached, pending) && CacheIs(sids, db.series)
        invariant SidsSoFar(old(db), db, ids, target, rows[..i])
        invariant 2 * |rows| <= budget ==> budget - 2 * i <= left
      {
        ghost var before := db;
        var key := Key(target, rows[i].metric);
        var sid;
        sid, left, ok := Sid(key, left, cached);
        if !ok {
          return;
        }
        SidsStep(old(db), before, db, ids, target, rows, i, sid);
        ids := ids + [sid];
      }
      ok := true;
    }

    /** executemany: one INSERT OR REPLACE per row. */
    method InsertRows(target: string, ts: int, rows: seq<Sample>, ids: seq<nat>, budget: nat)
      returns (left: nat, ok: bool)
      requires IdsAre(ids, db.series, target, rows)
      modifies this`db
      ensures ok ==> db == InsertAll(old(db), target, ts, rows)
      ensures |rows| <= budget ==> ok && left == budget - |rows|
    {
      left := budget;
      assert rows[..0] == [] && rows[..|rows|] == rows;
      for i := 0 to |rows|
        invariant db == InsertAll(old(db), target, ts, rows[..i]) && db.series == old(db.series)
        invariant |rows| <= budget ==> left == budget - i
      {
        if left == 0 {
          return 0, false;
        }
        left := left - 1;
        assert rows[..i + 1][..i] == rows[..i];
        db := Insert(db, ids[i], Entry(ts, rows[i].v));
      }
      ok := true;
    }

    /** The statements of add between BEGIN and COMMIT. */
    method AddAll(target: string, ts: int, rows: seq<Sample>, budget: nat, ghost cached: map<Key, nat>)
      returns (left: nat, ok: bool)
      requires CacheIs(sids, db.series) && Grown(sids, cached, pending)
      modifies this`db, this`sids, this`pending
      ensures Grown(sids, cached, pending)
      ensures ok ==> db == InsertAll(RegisterAll(old(db), target, rows), target, ts, rows) && CacheIs(sids, db.series)
      ensures 3 * |rows| <= budget ==> ok && budget - 3 * |rows| <= left
    {
      var ids;
      ids, left, ok := Sids(target, rows, budget, cached);
      if ok {
        InsertAllSeries(db, target, ts, rows);
        left, ok := InsertRows(target, ts, rows, ids, left);
      }
    }

    /** The transaction of add. */
    method AddRows(target: string, ts: int, rows: seq<Sample>, budget: nat) returns (ok: bool)
      requires Valid()
      modifies this
      ensures CacheIs(sids, db.series) && pending == [] && past == old(past) && lastMaint == old(lastMaint)
      ensures if ok then db == InsertAll(RegisterAll(old(db), target, rows), target, ts, rows) && !failed
              else db == old(db) && sids == old(sids) && failed
      ensures 3 * |rows| + 2 <= budget ==> ok
    {
      ghost var cached := sids;
      var left;
      left, ok := Begin(budget);
      if ok {
        left, ok := AddAll(target, ts, rows, left, cached);
        ok := ok && 0 < left;
      }
      if ok {
        pending := [];
      } else {
        Rollback(cached);
      }
      failed := !ok;
    }

    /** add: one reading of a target. `budget` statements succeed, the next one fails. */
    method Add(target: string, ts: real, values: seq<Reading>, budget: nat) returns (ok: bool)
      requires Valid()
      modifies this
      ensures Valid() && lastMaint == old(lastMaint)
      ensures var rows := Finite(values);
              if rows == [] then ok && db == old(db) && sids == old(sids) && past == old(past) && failed == old(failed)
              else if ok
              then && db == InsertAll(RegisterAll(old(db), target, rows), target, Trunc(ts), rows)
                   && past == RememberAll(old(past), target, Trunc(ts), rows, old(db).rolled) && !failed
              else db == old(db) && sids == old(sids) && past == old(past) && failed
      ensures 3 * |Finite(values)| + 2 <= budget ==> ok
    {
      var rows := FiniteRows(values);
      if rows == [] {
        return true;
      }
      AddKeeps(db, past, target, Trunc(ts), rows);
      ok := AddRows(target, Trunc(ts), rows, budget);
      if ok {
        past := RememberAll(past, target, Trunc(ts), rows, old(db).rolled);
      }
    }

    ghost function Ids(): set<nat>
      reads this`sids
    {
      set key | key in sids :: sids[key]
    }

    lemma IdsAreIds()
      requires CacheIs(sids, db.series)
      requires Distinct(db.series)
      ensures forall id :: id in Ids() <==> IsId(db.series, id)
    {
      forall id | IsId(db.series, id)
        ensures id in Ids()
      {
        var i :| 0 <= i < |db.series| && db.series[i].id == id;
        var key := db.series[i].key;
        assert Find(db.series, key).Some?;
        var j :| 0 <= j < |db.series| && db.series[j] == SeriesRow(sids[key], key);
        if i != j {
          DistinctRows(db.series, i, j);
        }
      }
      forall id | id in Ids()
        ensures IsId(db.series, id)
      {
        var key :| key in sids && sids[key] == id;
        assert Find(db.series, key) == Some(id);
      }
    }

    /** SELECT MIN(ts) FROM raw. */
    method FirstTs() returns (first: Option<int>)
      ensures IsFirst(db, first)
    {
      first := None;
      var todo := db.raw.Keys;
      while todo != {}
        invariant todo <= db.raw.Keys
        invariant match first
                  case None => forall id :: id in db.raw && id !in todo ==> db.raw[id] == []
                  case Some(f) => && (forall id :: id in db.raw && id !in todo ==> AllFrom(db.raw[id], f))
                                  && exists id :: RawOf(db, id) != [] && MinTs(RawOf(db, id)) == f
        decreases |todo|
      {
        var id :| id in todo;
        todo := todo - {id};
        var t := RawOf(db, id);
        if t != [] {
          MinTsIsLeast(t);
          var least := MinTs(t);
          if first.None? || least < first.value {
            ghost var f := first;
            first := Some(least);
            if f.Some? {
              forall other | other in db.raw && other !in todo && other != id
                ensures AllFrom(db.raw[other], least)
              {
                AllFromMono(db.raw[other], least, f.value);
              }
            }
          } else {
            AllFromMono(t, first.value, least);
          }
        }
      }
    }

    /** _last_bucket. */
    method LastBucket(upto: int) returns (best: Option<int>)
      ensures IsLastBucket(db, Ids(), upto, best)
    {
      best := None;
      var todo := sids.Values;
      assert todo == Ids();
      while todo != {}
        invariant todo <= Ids()
        invariant match best
                  case None => forall id :: id in Ids() - todo ==> Until(RollupOf(db, id), upto) == []
                  case Some(b) =>
                    && (forall id :: id in Ids() - todo && Until(RollupOf(db, id), upto) != []
                          ==> MaxTs(Until(RollupOf(db, id), upto)) <= b)
                    && exists id :: id in Ids() && Until(RollupOf(db, id), upto) != []
                         && MaxTs(Until(RollupOf(db, id), upto)) == b
        decreases |todo|
      {
        var id :| id in todo;
        todo := todo - {id};
        var t := Until(RollupOf(db, id), upto);
        if t != [] && (best.None? || best.value < MaxTs(t)) {
          best := Some(MaxTs(t));
        }
      }
    }

    /** From where to fold. */
    method Start(upto: int) returns (start: Option<int>)
      ensures IsStart(db, Ids(), upto, start)
    {
      start := db.rolled;
      if start.Some? && upto < start.value {
        start := LastBucket(upto);
      }
      if start.None? {
        var first := FirstTs();
        start := if first.Some? then Some(Floor(first.value, ROLLUP)) else None;
      }
    }

    /** Fold every series of the cache. */
    method FoldAll(ids: set<nat>, start: int, upto: int, budget: nat) returns (left: nat, ok: bool)
      modifies this`db
      ensures ok ==> FoldedAll(old(db), db, ids, start, upto)
      ensures |ids| <= budget ==> ok && left == budget - |ids|
    {
      left := budget;
      var todo := ids;
      EmptyFold(db, ids, start, upto);
      while todo != {}
        invariant todo <= ids && FoldedAll(old(db), db, ids - todo, start, upto)
        invariant |ids| <= budget ==> left == budget - |ids| + |todo|
        decreases |todo|
      {
        if left == 0 {
          return 0, false;
        }
        var id :| id in todo;
        FoldStep(old(db), db, ids - todo, id, start, upto);
        assert ids - todo + {id} == ids - (todo - {id});
        todo, left := todo - {id}, left - 1;
        db := db.(rollup := db.rollup[id := Fold(RawOf(db, id), RollupOf(db, id), start, upto)]);
      }
      assert ids - todo == ids;
      ok := true;
    }

    /** Delete old rows and old cells of every series of the cache. */
    method TrimAll(ids: set<nat>, now: real, budget: nat) returns (left: nat, ok: bool)
      modifies this`db
      ensures ok ==> TrimmedAll(old(db), db, ids, now)
      ensures 2 * |ids| <= budget ==> ok && left == budget - 2 * |ids|
    {
      left := budget;
      var todo := ids;
      EmptyTrim(db, now);
      assert ids - todo == {};
      while todo != {}
        invariant todo <= ids && TrimmedAll(old(db), db, ids - todo, now)
        invariant 2 * |ids| <= budget ==> left == budget - 2 * |ids| + 2 * |todo|
        decreases |todo|
      {
        if left < 2 {
          return 0, false;
        }
        var id :| id in todo;
        TrimStep(old(db), db, ids - todo, id, now);
        assert ids - todo + {id} == ids - (todo - {id});
        todo, left := todo - {id}, left - 2;
        db := TrimOne(db, id, now);
      }
      assert ids - todo == ids;
      ok := true;
    }

    /** The statements of maintain between BEGIN and COMMIT. The reads before folding count as one statement. */
    method MaintainAll(now: real, budget: nat) returns (ghost start: Option<int>, left: nat, ok: bool)
      modifies this`db
      ensures ok ==> IsStart(old(db), Ids(), Upto(now), start) && Maintained(old(db), db, Ids(), start, now)
      ensures 3 * |sids.Values| + 2 <= budget ==> ok && budget - 3 * |sids.Values| - 2 <= left
    {
      start := None;
      if budget == 0 {
        return start, 0, false;
      }
      left := budget - 1;
      var ids := sids.Values;
      var from := Start(Upto(now));
      assert ids == Ids();
      start := from;
      ok := true;
      if from.Some? && from.value < Upto(now) {
        left, ok := FoldAll(ids, from.value, Upto(now), left);
        if !ok {
          return;
        }
      }
      ghost var folded := db;
      if from.None? || from.value < Upto(now) {
        if left == 0 {
          return start, 0, false;
        }
        left := left - 1;
        db := db.(rolled := Some(Upto(now)));
      }
      ghost var marked := db;
      left, ok := TrimAll(ids, now, left);
      if ok {
        FoldThenTrim(old(db), folded, marked, db, ids, from, now);
      }
    }

    /** maintain. `budget` statements succeed, the next one fails. */
    method Maintain(now: real, force: bool, budget: nat) returns (ran: bool, ok: bool, ghost start: Option<int>)
      requires Valid()
      modifies this
      ensures Valid() && sids == old(sids)
      ensures ran == (force || !(0.0 <= now - old(lastMaint) < 300.0))
      ensures lastMaint == if ran then now else old(lastMaint)
      ensures !(ran && ok) ==> db == old(db) && past == old(past) && failed == (ran || old(failed))
      ensures ran && ok ==> past == After(old(past), old(db).rolled, now) && !failed
      ensures ran && ok ==> IsStart(old(db), Ids(), Upto(now), start) && Maintained(old(db), db, Ids(), start, now)
      ensures 3 * |sids.Values| + 4 <= budget ==> ok
    {
      ran, ok, start := force || !(0.0 <= now - lastMaint < MAINTAIN_EVERY), true, None;
      if !ran {
        return;
      }
      lastMaint := now;
      ghost var cached := sids;
      var left;
      left, ok := Begin(budget);
      if ok {
        start, left, ok := MaintainAll(now, left);
        ok := ok && 0 < left;
      }
      if ok {
        IdsAreIds();
        MaintainKeeps(old(db), db, past, Ids(), start, now);
        past := After(past, old(db).rolled, now);
        failed := false;
      } else {
        Rollback(cached);
        failed := true;
      }
    }

    /** series, its two SELECTs and the loops over the tail. */
    method Series(target: string, metric: string, rng: Range, now: real) returns (answer: Answer)
      requires Valid()
      ensures past.onTime && (db.rolled.Some? ==> past.at <= now)
          ==> Answers(answer, HistOf(past, Key(target, metric)), db.rolled, rng, now)
      ensures var key := Key(target, metric);
              answer == if key in sids then AnswerOf(RawOf(db, sids[key]), RollupOf(db, sids[key]), db.rolled, rng, now)
                        else if rng.Hour? then Samples([]) else Means([])
    {
      var key, since, step := Key(target, metric), Since(rng, now), StepOf(rng);
      if key !in sids {
        answer := if rng.Hour? then Samples([]) else Means([]);
        NothingToShow(db.rolled, rng, now);
        UnknownAnswers(db, past, key, rng, now);
        return;
      }
      var id := sids[key];
      KnownAnswers(db, past, id, key, rng, now);
      if rng.Hour? {
        answer := Samples(From(RawOf(db, id), since));
      } else {
        var points := GraphOf(RawOf(db, id), RollupOf(db, id), since, step);
        answer := Means(points);
      }
    }

    method GraphOf(raw: Raw, rollup: Rollup, since: int, step: Step) returns (points: Points)
      requires Ascending(raw)
      ensures points == Graph(raw, rollup, db.rolled, since, step)
    {
      var folded := FoldedPoints(rollup, since, step);
      var mark := if db.rolled.Some? then db.rolled.value else since;
      var from := if since < mark then mark else since;
      Split(raw, from);
      points := TailOf(From(raw, from), step, folded);
    }
  }

  /** The list comprehension in add that drops what is no finite number. */
  method FiniteRows(values: seq<Reading>) returns (rows: seq<Sample>)
    ensures rows == Finite(values)
  {
    rows := [];
    assert values[..0] == [] && values[..|values|] == values;
    for i := 0 to |values|
      invariant rows == Finite(values[..i])
    {
      assert values[..i + 1][..i] == values[..i];
      if values[i].value.Num? {
        rows := rows + [Sample(values[i].metric, values[i].value.v)];
      }
    }
  }
}
