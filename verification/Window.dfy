/** Windowed rates and quantiles of one server (infra/llm-status/collector.py, _pairs to derive). */
module Window {
  import opened Options
  import opened Histogram

  /** One reading of /metrics: counters, counters by label in the order read, whether a labelled
      family exists at all, histograms, and the mark of the server process. */
  datatype Snap = Snap(ts: real, counters: map<Name, real>, byLabel: map<Family, seq<(string, real)>>,
                       has: set<Family>, hists: map<HistName, Read>, ident: Option<real>)

  datatype Name = PromptTokens | GenerationTokens | Preemptions | PrefixQueries | PrefixHits

  datatype Family = Finished | Http

  datatype HistName = Ttft | E2e | Queue

  /** Thin: too few samples; `derive` words it by whether samples of other processes were left out. */
  datatype Why = Thin | NoCounter | Reset | Mixed | NoRequests | Blank

  /** A value, or why there is none. */
  datatype Reading = Known(v: real) | Unknown(why: Why)

  type Pair = (Snap, Snap)

  const RATE_WINDOW_S := 60.0
  const WINDOW_S := 300.0
  const JUST_BEFORE := 0.000001

  // ---------------------------------------------------------------- reading a snap

  function Get<K, V>(m: map<K, V>, k: K): Option<V> { if k in m then Some(m[k]) else None }

  function Counter(k: Name): Snap -> Option<real> { (s: Snap) => Get(s.counters, k) }

  function SumLabels(d: seq<(string, real)>, keys: Option<set<string>>): real {
    if d == [] then 0.0
    else SumLabels(d[..|d| - 1], keys)
         + (if keys.None? || d[|d| - 1].0 in keys.value then d[|d| - 1].1 else 0.0)
  }

  /** _labeled: the sum over some labels of a family; nothing when the family does not exist. */
  function Labeled(name: Family, keys: Option<set<string>>): Snap -> Option<real> {
    (s: Snap) =>
      if name !in s.byLabel || (s.byLabel[name] == [] && name !in s.has) then None
      else Some(SumLabels(s.byLabel[name], keys))
  }

  // ---------------------------------------------------------------- pairs

  ghost predicate Onward(pairs: seq<Pair>) { forall i :: 0 <= i < |pairs| ==> pairs[i].0.ts < pairs[i].1.ts }

  function Pairs(xs: seq<Snap>, since: real, maxGap: real): (r: seq<Pair>)
    ensures Onward(r)
  {
    var n := |xs|;
    if n < 2 then []
    else
      var rest := Pairs(xs[..n - 1], since, maxGap);
      if xs[n - 1].ts > since && 0.0 < xs[n - 1].ts - xs[n - 2].ts <= maxGap
      then rest + [(xs[n - 2], xs[n - 1])] else rest
  }

  /** Sample i and the one before it make a pair. */
  predicate Makes(xs: seq<Snap>, i: nat, since: real, maxGap: real) {
    0 < i < |xs| && xs[i].ts > since && 0.0 < xs[i].ts - xs[i - 1].ts <= maxGap
  }

  ghost predicate Rising(at: seq<nat>) { forall n, m :: 0 <= n < m < |at| ==> at[n] < at[m] }

  ghost predicate AllMake(xs: seq<Snap>, k: nat, since: real, maxGap: real, at: seq<nat>) {
    forall n :: 0 <= n < |at| ==> at[n] < k && Makes(xs, at[n], since, maxGap)
  }

  ghost predicate NoneIsLeft(xs: seq<Snap>, k: nat, since: real, maxGap: real, at: seq<nat>) {
    forall i :: 0 <= i < k && Makes(xs, i, since, maxGap) ==> i in at
  }

  /** `at` are those of the first k samples of xs that make a pair, in their order. */
  ghost predicate AreTheMakers(xs: seq<Snap>, k: nat, since: real, maxGap: real, at: seq<nat>) {
    Rising(at) && AllMake(xs, k, since, maxGap, at) && NoneIsLeft(xs, k, since, maxGap, at)
  }

  ghost predicate PairsOf(xs: seq<Snap>, at: seq<nat>, pairs: seq<Pair>) {
    |at| == |pairs| && forall n :: 0 <= n < |at| ==> 0 < at[n] < |xs| && pairs[n] == (xs[at[n] - 1], xs[at[n]])
  }

  lemma AllMakeAndMore(xs: seq<Snap>, k: nat, since: real, maxGap: real, at: seq<nat>)
    requires Rising(at) && AllMake(xs, k, since, maxGap, at)
    ensures var more := if Makes(xs, k, since, maxGap) then at + [k] else at;
            Rising(more) && AllMake(xs, k + 1, since, maxGap, more)
  {
  }

  lemma NoneIsLeftOfMore(xs: seq<Snap>, k: nat, since: real, maxGap: real, at: seq<nat>)
    requires NoneIsLeft(xs, k, since, maxGap, at)
    ensures NoneIsLeft(xs, k + 1, since, maxGap, if Makes(xs, k, since, maxGap) then at + [k] else at)
  {
    forall i | 0 <= i < k + 1 && Makes(xs, i, since, maxGap)
      ensures i in if Makes(xs, k, since, maxGap) then at + [k] else at
    {
      if i == k {
        assert (at + [k])[|at|] == k;
      } else {
        assert i in at;
      }
    }
  }

  lemma MakersOfMore(xs: seq<Snap>, k: nat, since: real, maxGap: real, at: seq<nat>)
    requires AreTheMakers(xs, k, since, maxGap, at)
    ensures AreTheMakers(xs, k + 1, since, maxGap, if Makes(xs, k, since, maxGap) then at + [k] else at)
  {
    NoneIsLeftOfMore(xs, k, since, maxGap, at);
    AllMakeAndMore(xs, k, since, maxGap, at);
  }

  lemma PairsOfOneMore(xs: seq<Snap>, k: nat, since: real, maxGap: real)
    requires k < |xs|
    ensures Pairs(xs[..k + 1], since, maxGap)
         == Pairs(xs[..k], since, maxGap) + if Makes(xs, k, since, maxGap) then [(xs[k - 1], xs[k])] else []
  {
    assert xs[..k + 1][..k] == xs[..k];
  }

  lemma PairsGrow(xs: seq<Snap>, at: seq<nat>, pairs: seq<Pair>, k: nat)
    requires PairsOf(xs, at, pairs) && 0 < k < |xs|
    ensures PairsOf(xs, at + [k], pairs + [(xs[k - 1], xs[k])])
  {
  }

  ghost predicate AreThePairs(xs: seq<Snap>, k: nat, since: real, maxGap: real, at: seq<nat>, pairs: seq<Pair>) {
    AreTheMakers(xs, k, since, maxGap, at) && PairsOf(xs, at, pairs)
  }

  lemma OneMore(xs: seq<Snap>, k: nat, since: real, maxGap: real, at: seq<nat>, pairs: seq<Pair>)
    returns (more: seq<nat>)
    requires k < |xs| && AreThePairs(xs, k, since, maxGap, at, pairs)
    ensures AreThePairs(xs, k + 1, since, maxGap, more,
                        pairs + if Makes(xs, k, since, maxGap) then [(xs[k - 1], xs[k])] else [])
  {
    more := if Makes(xs, k, since, maxGap) then at + [k] else at;
    MakersOfMore(xs, k, since, maxGap, at);
    if Makes(xs, k, since, maxGap) {
      PairsGrow(xs, at, pairs, k);
    } else {
      assert pairs + [] == pairs;
    }
  }

  lemma {:induction false} PairsOfFirst(xs: seq<Snap>, k: nat, since: real, maxGap: real) returns (at: seq<nat>)
    requires k <= |xs|
    ensures AreThePairs(xs, k, since, maxGap, at, Pairs(xs[..k], since, maxGap))
  {
    if k == 0 {
      return [];
    }
    at := PairsOfFirst(xs, k - 1, since, maxGap);
    at := OneMore(xs, k - 1, since, maxGap, at, Pairs(xs[..k - 1], since, maxGap));
    PairsOfOneMore(xs, k - 1, since, maxGap);
  }

  /** All pairs of neighbours that lie in the window with no gap between, and in their order. */
  lemma PairsAre(xs: seq<Snap>, since: real, maxGap: real) returns (at: seq<nat>)
    ensures AreTheMakers(xs, |xs|, since, maxGap, at) && PairsOf(xs, at, Pairs(xs, since, maxGap))
  {
    at := PairsOfFirst(xs, |xs|, since, maxGap);
    assert xs[..|xs|] == xs;
  }

  /** Label counts of a family as a lookup; an absent label counts 0. */
  function LabelValue(d: seq<(string, real)>, lab: string): real {
    if d == [] then 0.0
    else if d[|d| - 1].0 == lab then d[|d| - 1].1 else LabelValue(d[..|d| - 1], lab)
  }

  predicate LabelFell(d: seq<(string, real)>, e: seq<(string, real)>) {
    exists i :: 0 <= i < |d| && LabelValue(e, d[i].0) < d[i].1
  }

  /** _backwards: some counter, labelled counter or histogram fell between two readings. */
  predicate Backwards(a: Snap, b: Snap) {
    || (exists k :: k in a.counters && k in b.counters && b.counters[k] < a.counters[k])
    || (exists f :: f in a.byLabel && LabelFell(a.byLabel[f], if f in b.byLabel then b.byLabel[f] else []))
    || (exists k :: k in a.hists && k in b.hists && HistDelta(Some(a.hists[k]), Some(b.hists[k])).None?)
  }

  /** _went_back: some reading in the window fell from the one before it, however far apart they are. */
  predicate WentBack(xs: seq<Snap>, since: real) { exists j :: 0 < j < |xs| && WentBackAt(xs, j, since) }

  predicate WentBackAt(xs: seq<Snap>, j: nat, since: real) {
    0 < j < |xs| && xs[j].ts > since && Backwards(xs[j - 1], xs[j])
  }

  // ---------------------------------------------------------------- rates

  function Delta(p: Pair, get: Snap -> Option<real>): Option<real> { CounterDelta(get(p.0), get(p.1)) }

  function Increase(pairs: seq<Pair>, get: Snap -> Option<real>): real {
    if pairs == [] then 0.0
    else
      var d := Delta(pairs[|pairs| - 1], get);
      Increase(pairs[..|pairs| - 1], get) + (if d.Some? then d.value else 0.0)
  }

  function Duration(pairs: seq<Pair>, get: Snap -> Option<real>): real {
    if pairs == [] then 0.0
    else
      var p := pairs[|pairs| - 1];
      Duration(pairs[..|pairs| - 1], get) + (if Delta(p, get).Some? then p.1.ts - p.0.ts else 0.0)
  }

  function UsablePairs(pairs: seq<Pair>, get: Snap -> Option<real>): nat {
    if pairs == [] then 0
    else UsablePairs(pairs[..|pairs| - 1], get) + (if Delta(pairs[|pairs| - 1], get).Some? then 1 else 0)
  }

  /** Does any pair end in a value? */
  predicate Seen(pairs: seq<Pair>, get: Snap -> Option<real>) {
    pairs != [] && (Seen(pairs[..|pairs| - 1], get) || get(pairs[|pairs| - 1].1).Some?)
  }

  /** Does any pair have two values that do not give an increase? */
  predicate Fell(pairs: seq<Pair>, get: Snap -> Option<real>) {
    pairs != [] && (Fell(pairs[..|pairs| - 1], get)
                    || (var p := pairs[|pairs| - 1]; get(p.0).Some? && get(p.1).Some? && Delta(p, get).None?))
  }

  function Rate(pairs: seq<Pair>, get: Snap -> Option<real>, per: real): Reading
    requires Onward(pairs)
  {
    if UsablePairs(pairs, get) > 0 then
      DurationPositive(pairs, get);
      Known(Increase(pairs, get) / Duration(pairs, get) * per)
    else if pairs != [] && !Seen(pairs, get) then Unknown(NoCounter)
    else if Fell(pairs, get) then Unknown(Reset)
    else Unknown(Thin)
  }

  lemma {:induction false} DurationPositive(pairs: seq<Pair>, get: Snap -> Option<real>)
    requires Onward(pairs)
    ensures Duration(pairs, get) >= 0.0 && Increase(pairs, get) >= 0.0
    ensures UsablePairs(pairs, get) > 0 ==> Duration(pairs, get) > 0.0
  {
    if pairs != [] {
      var n := |pairs| - 1;
      DurationPositive(pairs[..n], get);
    }
  }

  /** _rate. */
  method MeasureRate(pairs: seq<Pair>, get: Snap -> Option<real>, per: real) returns (r: Reading)
    requires Onward(pairs)
    ensures r == Rate(pairs, get, per)
  {
    var inc, dur, n := 0.0, 0.0, 0;
    var seen, reset := false, false;
    for i := 0 to |pairs|
      invariant inc == Increase(pairs[..i], get) && dur == Duration(pairs[..i], get)
      invariant n == UsablePairs(pairs[..i], get)
      invariant seen == Seen(pairs[..i], get) && reset == Fell(pairs[..i], get)
    {
      assert pairs[..i + 1][..i] == pairs[..i];
      var x, y := get(pairs[i].0), get(pairs[i].1);
      if y.Some? {
        seen := true;
      }
      var d := CounterDelta(x, y);
      if d.None? {
        reset := reset || (x.Some? && y.Some?);
      } else {
        inc := inc + d.value;
        dur := dur + (pairs[i].1.ts - pairs[i].0.ts);
        n := n + 1;
      }
    }
    assert pairs[..|pairs|] == pairs;
    if n > 0 {
      DurationPositive(pairs, get);
      return Known(inc / dur * per);
    }
    if pairs != [] && !seen {
      return Unknown(NoCounter);
    }
    if reset {
      return Unknown(Reset);
    }
    r := Unknown(Thin);
  }

  lemma RateNonNegative(pairs: seq<Pair>, get: Snap -> Option<real>, per: real)
    requires Onward(pairs) && per >= 0.0
    ensures Rate(pairs, get, per).Known? ==> Rate(pairs, get, per).v >= 0.0
  {
    DurationPositive(pairs, get);
    if UsablePairs(pairs, get) > 0 {
      QuotientOrder(0.0, Increase(pairs, get), Duration(pairs, get));
      ProductOrder(per, 0.0, Increase(pairs, get) / Duration(pairs, get));
    }
  }

  /** The last sample at or before `since`, or the first one. */
  function WindowStart(xs: seq<Snap>, since: real): (k: nat)
    requires xs != []
    ensures k < |xs|
    ensures k > 0 ==> xs[k].ts <= since
  {
    var n := |xs| - 1;
    if n == 0 || xs[n].ts <= since then n else WindowStart(xs[..n], since)
  }

  lemma WindowStartIsEarlier(xs: seq<Snap>, since: real)
    requires |xs| >= 2 && xs[|xs| - 1].ts > since
    ensures WindowStart(xs, since) < |xs| - 1
  {
  }

  // ---------------------------------------------------------------- a steady window

  /** Sample j is no earlier than the one before it, and in a window from sample k on follows it without a gap. */
  ghost predicate Follows(xs: seq<Snap>, j: nat, k: nat, maxGap: real) {
    0 < j < |xs| && xs[j - 1].ts <= xs[j].ts && (j > k ==> 0.0 < xs[j].ts - xs[j - 1].ts <= maxGap)
  }

  /** So do all samples. */
  ghost predicate Gapless(xs: seq<Snap>, k: nat, maxGap: real) {
    forall j :: 0 < j < |xs| ==> Follows(xs, j, k, maxGap)
  }

  lemma GaplessPrefix(xs: seq<Snap>, k: nat, maxGap: real)
    requires |xs| > 1 && Gapless(xs, k, maxGap)
    ensures Follows(xs, |xs| - 1, k, maxGap) && Gapless(xs[..|xs| - 1], k, maxGap)
  {
    var ys := xs[..|xs| - 1];
    forall j: nat | 0 < j < |ys|
      ensures Follows(ys, j, k, maxGap)
    {
      assert Follows(xs, j, k, maxGap);
    }
  }

  /** From sample k on no value is missing and none falls. */
  ghost predicate Climbs(xs: seq<Snap>, get: Snap -> Option<real>, k: nat) {
    k < |xs| && get(xs[k]).Some? && forall j :: k < j < |xs| ==> Rises(xs, j, get)
  }

  ghost predicate Rises(xs: seq<Snap>, j: nat, get: Snap -> Option<real>) {
    0 < j < |xs| && Delta((xs[j - 1], xs[j]), get).Some?
  }

  /** In the window no gap, no missing value and no fall between neighbours. */
  ghost predicate Steady(xs: seq<Snap>, get: Snap -> Option<real>, since: real, maxGap: real)
    requires xs != []
  {
    Gapless(xs, WindowStart(xs, since), maxGap) && Climbs(xs, get, WindowStart(xs, since))
  }

  lemma {:induction false} NoPairs(xs: seq<Snap>, k: nat, since: real, maxGap: real)
    requires Gapless(xs, k, maxGap) && (|xs| > 1 ==> xs[|xs| - 1].ts <= since)
    ensures Pairs(xs, since, maxGap) == []
  {
    if |xs| > 1 {
      GaplessPrefix(xs, k, maxGap);
    }
    if |xs| > 2 {
      NoPairs(xs[..|xs| - 1], k, since, maxGap);
    }
  }

  /** What the last sample of a window adds. */
  lemma PairsSnoc(xs: seq<Snap>, since: real, maxGap: real)
    requires |xs| > 1 && xs[|xs| - 1].ts > since && Gapless(xs, WindowStart(xs, since), maxGap)
    ensures var ys := xs[..|xs| - 1];
            && WindowStart(xs, since) == WindowStart(ys, since) < |ys| && Gapless(ys, WindowStart(ys, since), maxGap)
            && Pairs(xs, since, maxGap) == Pairs(ys, since, maxGap) + [(xs[|xs| - 2], xs[|xs| - 1])]
  {
    GaplessPrefix(xs, WindowStart(xs, since), maxGap);
  }

  /** These pairs take the counter from one sample to the other, in the time between them. */
  ghost predicate Grows(pairs: seq<Pair>, get: Snap -> Option<real>, first: Snap, last: Snap) {
    && get(first).Some? && get(last).Some?
    && Increase(pairs, get) == get(last).value - get(first).value && Duration(pairs, get) == last.ts - first.ts
  }

  lemma GrowsSnoc(pairs: seq<Pair>, p: Pair, get: Snap -> Option<real>, first: Snap)
    requires Delta(p, get).Some? && Grows(pairs, get, first, p.0)
    ensures Grows(pairs + [p], get, first, p.1) && UsablePairs(pairs + [p], get) == UsablePairs(pairs, get) + 1
  {
    assert (pairs + [p])[..|pairs|] == pairs;
  }

  lemma SteadySnoc(xs: seq<Snap>, get: Snap -> Option<real>, since: real, maxGap: real)
    requires |xs| > 1 && Steady(xs, get, since, maxGap) && xs[|xs| - 1].ts > since
    ensures Steady(xs[..|xs| - 1], get, since, maxGap) && Delta((xs[|xs| - 2], xs[|xs| - 1]), get).Some?
  {
    var ys, k := xs[..|xs| - 1], WindowStart(xs, since);
    GaplessPrefix(xs, k, maxGap);
    assert Rises(xs, |xs| - 1, get);
    forall j: nat | k < j < |ys|
      ensures Rises(ys, j, get)
    {
      assert Rises(xs, j, get);
    }
  }

  /** The increases of a steady window are last minus first. */
  lemma {:induction false} SteadyTelescopes(xs: seq<Snap>, get: Snap -> Option<real>, since: real, maxGap: real)
    requires xs != [] && Steady(xs, get, since, maxGap)
    ensures Grows(Pairs(xs, since, maxGap), get, xs[WindowStart(xs, since)], xs[|xs| - 1])
    ensures UsablePairs(Pairs(xs, since, maxGap), get) == |xs| - 1 - WindowStart(xs, since)
  {
    var n := |xs| - 1;
    if n == 0 || xs[n].ts <= since {
      NoPairs(xs, n, since, maxGap);
    } else {
      PairsSnoc(xs, since, maxGap);
      SteadySnoc(xs, get, since, maxGap);
      SteadyTelescopes(xs[..n], get, since, maxGap);
      GrowsSnoc(Pairs(xs[..n], since, maxGap), (xs[n - 1], xs[n]), get, xs[WindowStart(xs, since)]);
    }
  }

  /** The rate that takes a counter from one sample to the other in the time between them. */
  ghost predicate GrowthRate(r: Reading, get: Snap -> Option<real>, first: Snap, last: Snap, per: real) {
    && get(first).Some? && get(last).Some? && first.ts < last.ts
    && r.Known? && r.v * (last.ts - first.ts) == (get(last).value - get(first).value) * per
  }

  lemma RateIsGrowth(pairs: seq<Pair>, get: Snap -> Option<real>, first: Snap, last: Snap, per: real)
    requires Onward(pairs)
    requires Grows(pairs, get, first, last) && UsablePairs(pairs, get) > 0
    ensures GrowthRate(Rate(pairs, get, per), get, first, last, per)
  {
    var growth, time := Increase(pairs, get), Duration(pairs, get);
    DurationPositive(pairs, get);
    Undivided(growth, time, per);
  }

  lemma Undivided(growth: real, time: real, per: real)
    requires time > 0.0
    ensures growth / time * per * time == growth * per
  {
    assert growth / time * time == growth;
  }

  /** A window without reset or gap: the rate is last minus first over the time between them. */
  lemma RateOfSteadyWindow(xs: seq<Snap>, get: Snap -> Option<real>, since: real, maxGap: real, per: real)
    requires |xs| >= 2 && Steady(xs, get, since, maxGap) && xs[|xs| - 1].ts > since
    ensures GrowthRate(Rate(Pairs(xs, since, maxGap), get, per), get, xs[WindowStart(xs, since)], xs[|xs| - 1], per)
  {
    SteadyTelescopes(xs, get, since, maxGap);
    WindowStartIsEarlier(xs, since);
    RateIsGrowth(Pairs(xs, since, maxGap), get, xs[WindowStart(xs, since)], xs[|xs| - 1], per);
  }

  // ---------------------------------------------------------------- histograms

  datatype HistReading = KnownHist(h: Hist) | NoHist(why: Why)

  function PairHist(p: Pair, name: HistName): Option<Read> { HistDelta(Get(p.0.hists, name), Get(p.1.hists, name)) }

  predicate NoneNegative(h: Hist) { h.count >= 0.0 && forall i :: 0 <= i < |h.cum| ==> h.cum[i] >= 0.0 }

  function HistSum(pairs: seq<Pair>, name: HistName): (acc: Option<Hist>)
    ensures acc.Some? ==> Shaped(acc.value) && NoneNegative(acc.value)
  {
    if pairs == [] then None
    else
      var rest, d := HistSum(pairs[..|pairs| - 1], name), PairHist(pairs[|pairs| - 1], name);
      if d.None? then rest else Some(HistAdd(rest, d.value))
  }

  predicate HistSeen(pairs: seq<Pair>, name: HistName) {
    pairs != [] && (HistSeen(pairs[..|pairs| - 1], name) || name in pairs[|pairs| - 1].1.hists)
  }

  predicate HistFell(pairs: seq<Pair>, name: HistName) {
    pairs != [] && (HistFell(pairs[..|pairs| - 1], name)
                    || (var p := pairs[|pairs| - 1];
                        name in p.0.hists && name in p.1.hists && PairHist(p, name).None?))
  }

  function HistWindow(pairs: seq<Pair>, name: HistName): (r: HistReading)
    ensures r.KnownHist? ==> Shaped(r.h) && NoneNegative(r.h) && Total(r.h) > 0.0
  {
    var acc := HistSum(pairs, name);
    if acc.Some? then if Total(acc.value) > 0.0 then KnownHist(acc.value) else NoHist(NoRequests)
    else if pairs != [] && !HistSeen(pairs, name) then NoHist(NoCounter)
    else if HistFell(pairs, name) then NoHist(Reset)
    else NoHist(Thin)
  }

  /** _hist_window. */
  method MeasureHist(pairs: seq<Pair>, name: HistName) returns (r: HistReading)
    ensures r == HistWindow(pairs, name)
  {
    var acc: Option<Hist> := None;
    var seen, reset := false, false;
    for i := 0 to |pairs|
      invariant acc == HistSum(pairs[..i], name)
      invariant seen == HistSeen(pairs[..i], name) && reset == HistFell(pairs[..i], name)
    {
      assert pairs[..i + 1][..i] == pairs[..i];
      var ha, hb := Get(pairs[i].0.hists, name), Get(pairs[i].1.hists, name);
      if hb.Some? {
        seen := true;
      }
      var d := HistDelta(ha, hb);
      if d.None? {
        reset := reset || (ha.Some? && hb.Some?);
      } else {
        acc := Some(HistAdd(acc, d.value));
      }
    }
    assert pairs[..|pairs|] == pairs;
    if acc.Some? {
      return if Total(acc.value) > 0.0 then KnownHist(acc.value) else NoHist(NoRequests);
    }
    if pairs != [] && !seen {
      return NoHist(NoCounter);
    }
    r := NoHist(if reset then Reset else Thin);
  }

  /** From sample k on the same buckets throughout and no count that falls. */
  ghost predicate HistClimbs(xs: seq<Snap>, name: HistName, k: nat) {
    k < |xs| && name in xs[k].hists && forall j :: k < j < |xs| ==> HistRises(xs, j, name)
  }

  ghost predicate HistRises(xs: seq<Snap>, j: nat, name: HistName) {
    0 < j < |xs| && PairHist((xs[j - 1], xs[j]), name).Some?
  }

  /** In the window no gap, no missing histogram, no other buckets and no count that falls. */
  ghost predicate SteadyHist(xs: seq<Snap>, name: HistName, since: real, maxGap: real)
    requires xs != []
  {
    Gapless(xs, WindowStart(xs, since), maxGap) && HistClimbs(xs, name, WindowStart(xs, since))
  }

  /** The summed increases are the counts of `last` minus those of `first`. */
  ghost predicate Telescoped(acc: Option<Hist>, first: Read, last: Read) {
    && first.bounds == last.bounds
    && (acc.None? ==> first == last)
    && (acc.Some? ==> IsGrowth(acc.value, first, last))
  }

  ghost predicate IsGrowth(h: Hist, first: Read, last: Read) {
    && h.bounds == first.bounds == last.bounds && |h.cum| == |last.cum| && h.count == last.count - first.count
    && forall i :: 0 <= i < |last.cum| ==> h.cum[i] == last.cum[i] - first.cum[i]
  }

  lemma TelescopeStep(acc: Option<Hist>, first: Read, mid: Read, last: Read)
    requires (acc.Some? ==> Shaped(acc.value)) && Telescoped(acc, first, mid)
    requires HistDelta(Some(mid), Some(last)).Some?
    ensures Telescoped(Some(HistAdd(acc, HistDelta(Some(mid), Some(last)).value)), first, last)
  {
  }

  lemma HistSnoc(pairs: seq<Pair>, p: Pair, name: HistName)
    requires PairHist(p, name).Some?
    ensures HistSum(pairs + [p], name) == Some(HistAdd(HistSum(pairs, name), PairHist(p, name).value))
  {
    assert (pairs + [p])[..|pairs|] == pairs;
  }

  /** The summed increases over these pairs take the histogram of one sample to that of the other. */
  ghost predicate HistGrows(pairs: seq<Pair>, name: HistName, first: Snap, last: Snap) {
    name in first.hists && name in last.hists
    && Telescoped(HistSum(pairs, name), first.hists[name], last.hists[name])
  }

  lemma NoneSummed(xs: seq<Snap>, name: HistName, since: real, maxGap: real)
    requires xs != [] && SteadyHist(xs, name, since, maxGap) && (|xs| > 1 ==> xs[|xs| - 1].ts <= since)
    ensures WindowStart(xs, since) == |xs| - 1
    ensures HistSum(Pairs(xs, since, maxGap), name).None?
    ensures HistGrows(Pairs(xs, since, maxGap), name, xs[|xs| - 1], xs[|xs| - 1])
  {
    NoPairs(xs, |xs| - 1, since, maxGap);
  }

  lemma HistTelescopeStep(pairs: seq<Pair>, p: Pair, name: HistName, first: Snap)
    requires PairHist(p, name).Some? && HistGrows(pairs, name, first, p.0)
    ensures HistSum(pairs + [p], name).Some? && HistGrows(pairs + [p], name, first, p.1)
  {
    HistSnoc(pairs, p, name);
    TelescopeStep(HistSum(pairs, name), first.hists[name], p.0.hists[name], p.1.hists[name]);
  }

  lemma SteadyHistSnoc(xs: seq<Snap>, name: HistName, since: real, maxGap: real)
    requires |xs| > 1 && SteadyHist(xs, name, since, maxGap) && xs[|xs| - 1].ts > since
    ensures SteadyHist(xs[..|xs| - 1], name, since, maxGap) && PairHist((xs[|xs| - 2], xs[|xs| - 1]), name).Some?
  {
    var ys, k := xs[..|xs| - 1], WindowStart(xs, since);
    GaplessPrefix(xs, k, maxGap);
    assert HistRises(xs, |xs| - 1, name);
    forall j: nat | k < j < |ys|
      ensures HistRises(ys, j, name)
    {
      assert HistRises(xs, j, name);
    }
  }

  /** In a steady window the summed increases of a histogram are its last counts minus its first. */
  lemma {:induction false} HistTelescopes(xs: seq<Snap>, name: HistName, since: real, maxGap: real)
    requires xs != [] && SteadyHist(xs, name, since, maxGap)
    ensures HistSum(Pairs(xs, since, maxGap), name).Some? <==> WindowStart(xs, since) < |xs| - 1
    ensures HistGrows(Pairs(xs, since, maxGap), name, xs[WindowStart(xs, since)], xs[|xs| - 1])
  {
    var n := |xs| - 1;
    if n == 0 || xs[n].ts <= since {
      NoneSummed(xs, name, since, maxGap);
    } else {
      PairsSnoc(xs, since, maxGap);
      SteadyHistSnoc(xs, name, since, maxGap);
      HistTelescopes(xs[..n], name, since, maxGap);
      HistTelescopeStep(Pairs(xs[..n], since, maxGap), (xs[n - 1], xs[n]), name, xs[WindowStart(xs, since)]);
    }
  }

  // ---------------------------------------------------------------- derive

  /** Hits and queries of the prefix cache over the pairs that have both. */
  datatype Prefix = Prefix(hits: real, queries: real, n: nat)

  function PrefixSum(pairs: seq<Pair>): (r: Prefix)
    ensures r.hits >= 0.0 && r.queries >= 0.0
  {
    if pairs == [] then Prefix(0.0, 0.0, 0)
    else
      var rest, p := PrefixSum(pairs[..|pairs| - 1]), pairs[|pairs| - 1];
      var h, q := Delta(p, Counter(PrefixHits)), Delta(p, Counter(PrefixQueries));
      if h.None? || q.None? then rest else Prefix(rest.hits + h.value, rest.queries + q.value, rest.n + 1)
  }

  function PrefixHit(pairs: seq<Pair>): Reading
    requires Onward(pairs)
  {
    var s := PrefixSum(pairs);
    if s.n > 0 && s.queries > 0.0 then Known(if s.hits / s.queries < 1.0 then s.hits / s.queries else 1.0)
    else if s.n > 0 then Unknown(NoRequests)
    else
      var r := Rate(pairs, Counter(PrefixHits), 1.0);
      var q := Rate(pairs, Counter(PrefixQueries), 1.0);
      if r.Unknown? then r else if q.Unknown? then q else Unknown(NoCounter)
  }

  method MeasurePrefix(pairs: seq<Pair>) returns (r: Reading)
    requires Onward(pairs)
    ensures r == PrefixHit(pairs)
  {
    var hits, qs, n := 0.0, 0.0, 0;
    for i := 0 to |pairs|
      invariant Prefix(hits, qs, n) == PrefixSum(pairs[..i])
    {
      assert pairs[..i + 1][..i] == pairs[..i];
      var dh := Delta(pairs[i], Counter(PrefixHits));
      var dq := Delta(pairs[i], Counter(PrefixQueries));
      if dh.None? || dq.None? {
        continue;
      }
      hits, qs, n := hits + dh.value, qs + dq.value, n + 1;
    }
    assert pairs[..|pairs|] == pairs;
    if n > 0 && qs > 0.0 {
      return Known(if hits / qs < 1.0 then hits / qs else 1.0);
    }
    if n > 0 {
      return Unknown(NoRequests);
    }
    r := MeasureRate(pairs, Counter(PrefixHits), 1.0);
    if r.Known? {
      r := MeasureRate(pairs, Counter(PrefixQueries), 1.0);
      if r.Known? {
        r := Unknown(NoCounter);
      }
    }
  }

  ghost predicate NotNegative(r: Reading) { r.Known? ==> r.v >= 0.0 }

  ghost predicate InOrder(lo: Reading, hi: Reading) {
    (lo.Known? <==> hi.Known?) && (lo.Known? ==> 0.0 <= lo.v <= hi.v)
  }

  function QuantileOf(q: real, h: HistReading): Reading
    requires h.KnownHist? ==> Shaped(h.h)
  {
    if h.NoHist? then Unknown(h.why)
    else match Quantile(q, h.h)
      case None => Unknown(Blank)
      case Some(v) => Known(v)
  }

  /** A histogram's p50 and p95 over a window; blank when another process may have answered. */
  function Quantiles(mixed: bool, pairs: seq<Pair>, name: HistName): (r: (Reading, Reading))
    ensures InOrder(r.0, r.1)
  {
    if mixed then (Unknown(Mixed), Unknown(Mixed))
    else
      var h := HistWindow(pairs, name);
      QuantilesInOrder(h);
      (QuantileOf(0.5, h), QuantileOf(0.95, h))
  }

  /** A rate over a window; blank when another process may have answered. */
  function RateUnless(mixed: bool, pairs: seq<Pair>, get: Snap -> Option<real>, per: real): (r: Reading)
    requires Onward(pairs) && per >= 0.0
    ensures NotNegative(r)
  {
    if mixed then Unknown(Mixed)
    else
      RateNonNegative(pairs, get, per);
      Rate(pairs, get, per)
  }

  function PrefixUnless(mixed: bool, pairs: seq<Pair>): (r: Reading)
    requires Onward(pairs)
    ensures r.Known? ==> 0.0 <= r.v <= 1.0
  {
    if mixed then Unknown(Mixed)
    else
      PrefixIsShare(pairs);
      PrefixHit(pairs)
  }

  /** The card's figures (`now`); p50 and p95 of each histogram. */
  datatype Figures = Figures(promptTps: Reading, genTps: Reading, preempt: Reading, requests: Reading, aborts: Reading,
                             http5xx: Reading, finishedError: Reading, prefixHit: Reading,
                             ttft50: Reading, ttft95: Reading, e2e50: Reading, e2e95: Reading,
                             queue50: Reading, queue95: Reading)

  /** The figures that are stored (`keep`). */
  datatype Kept = Kept(promptTps: Option<real>, genTps: Option<real>, preempt: Option<real>, http5xx: Option<real>,
                       finishedError: Option<real>, prefixHit: Option<real>, ttft50: Option<real>,
                       ttft95: Option<real>, e2e50: Option<real>, e2e95: Option<real>, queue95: Option<real>)

  function Value(r: Reading): Option<real> { if r.Known? then Some(r.v) else None }

  /** The samples of the process that gave the last one. */
  function SameProcess(hist: seq<Snap>, ident: Option<real>): seq<Snap> {
    if hist == [] then []
    else
      var rest := SameProcess(hist[..|hist| - 1], ident);
      if hist[|hist| - 1].ident == ident then rest + [hist[|hist| - 1]] else rest
  }

  function LastPair(pairs: seq<Pair>): seq<Pair> { if pairs == [] then [] else [pairs[|pairs| - 1]] }

  function RatePairs(xs: seq<Snap>, last: Snap, window: real, interval: real): (r: seq<Pair>)
    ensures Onward(r)
  {
    Pairs(xs, last.ts - window, 4.0 * interval)
  }

  /** Without a process mark: did a counter fall inside the window? */
  predicate MayMix(xs: seq<Snap>, last: Snap, window: real) { last.ident.None? && WentBack(xs, last.ts - window) }

  /** The card's rates: */
  datatype RateName = PromptTps | GenTps | Preempt | Requests | Aborts | Http5xx | FinishedError

  /** what each counts, */
  function Counts(n: RateName): Snap -> Option<real> {
    match n
    case PromptTps => Counter(PromptTokens)
    case GenTps => Counter(GenerationTokens)
    case Preempt => Counter(Preemptions)
    case Requests => Labeled(Finished, None)
    case Aborts => Labeled(Finished, Some({"abort"}))
    case Http5xx => Labeled(Http, Some({"5xx"}))
    case FinishedError => Labeled(Finished, Some({"error"}))
  }

  /** and over which window: per second over the short one, per minute over the long one. */
  function WindowOf(n: RateName): real { if n.PromptTps? || n.GenTps? then RATE_WINDOW_S else WINDOW_S }

  function Per(n: RateName): (p: real)
    ensures p > 0.0
  {
    if n.PromptTps? || n.GenTps? then 1.0 else 60.0
  }

  function RateFigure(xs: seq<Snap>, last: Snap, interval: real, n: RateName): (r: Reading)
    ensures NotNegative(r)
  {
    RateUnless(MayMix(xs, last, WindowOf(n)), RatePairs(xs, last, WindowOf(n), interval), Counts(n), Per(n))
  }

  /** p50 and p95 of a histogram. */
  function QuantileFigures(xs: seq<Snap>, last: Snap, interval: real, name: HistName): (r: (Reading, Reading))
    ensures InOrder(r.0, r.1)
  {
    Quantiles(MayMix(xs, last, WINDOW_S), RatePairs(xs, last, WINDOW_S, interval), name)
  }

  function PrefixFigure(xs: seq<Snap>, last: Snap, interval: real): (r: Reading)
    ensures r.Known? ==> 0.0 <= r.v <= 1.0
  {
    PrefixUnless(MayMix(xs, last, WINDOW_S), RatePairs(xs, last, WINDOW_S, interval))
  }

  /** The figures from the samples of one process. */
  function FiguresOf(xs: seq<Snap>, last: Snap, interval: real): (f: Figures)
    ensures RatesSane(f)
    ensures f.prefixHit.Known? ==> 0.0 <= f.prefixHit.v <= 1.0
    ensures InOrder(f.ttft50, f.ttft95) && InOrder(f.e2e50, f.e2e95) && InOrder(f.queue50, f.queue95)
  {
    var ttft, e2e := QuantileFigures(xs, last, interval, Ttft), QuantileFigures(xs, last, interval, E2e);
    var queue := QuantileFigures(xs, last, interval, Queue);
    Figures(RateFigure(xs, last, interval, PromptTps), RateFigure(xs, last, interval, GenTps),
            RateFigure(xs, last, interval, Preempt), RateFigure(xs, last, interval, Requests),
            RateFigure(xs, last, interval, Aborts), RateFigure(xs, last, interval, Http5xx),
            RateFigure(xs, last, interval, FinishedError), PrefixFigure(xs, last, interval),
            ttft.0, ttft.1, e2e.0, e2e.1, queue.0, queue.1)
  }

  ghost predicate RatesSane(f: Figures) {
    && NotNegative(f.promptTps) && NotNegative(f.genTps) && NotNegative(f.preempt) && NotNegative(f.requests)
    && NotNegative(f.aborts) && NotNegative(f.http5xx) && NotNegative(f.finishedError)
  }

  function KeptOf(xs: seq<Snap>, last: Snap, interval: real): Kept {
    var p1 := LastPair(RatePairs(xs, last, JUST_BEFORE, interval));
    var m60 := MayMix(xs, last, RATE_WINDOW_S);
    var f := FiguresOf(xs, last, interval);
    Kept(Value(RateUnless(m60, p1, Counter(PromptTokens), 1.0)),
         Value(RateUnless(m60, p1, Counter(GenerationTokens), 1.0)),
         Value(f.preempt), Value(f.http5xx), Value(f.finishedError), Value(f.prefixHit),
         Value(f.ttft50), Value(f.ttft95), Value(f.e2e50), Value(f.e2e95), Value(f.queue95))
  }

  /** What derive returns, and whether a thin window is put down to other processes. */
  datatype Result = Result(now: Figures, keep: Kept, othersLeftOut: bool)

  function Derived(hist: seq<Snap>, interval: real): Result
    requires hist != []
  {
    var last := hist[|hist| - 1];
    var xs := SameProcess(hist, last.ident);
    Result(FiguresOf(xs, last, interval), KeptOf(xs, last, interval), |xs| < |hist|)
  }

  lemma QuantilesInOrder(h: HistReading)
    requires h.KnownHist? ==> Shaped(h.h) && Total(h.h) > 0.0
    ensures var lo, hi := QuantileOf(0.5, h), QuantileOf(0.95, h);
            && (lo.Known? <==> hi.Known?)
            && (lo.Known? ==> 0.0 <= lo.v <= hi.v && |h.h.bounds| > 1 && hi.v <= Top(h.h, |h.h.bounds| - 2))
  {
    if h.KnownHist? {
      if |h.h.bounds| > 1 {
        QuantileMonotone(0.5, 0.95, h.h);
      } else {
        NoFiniteBound(0.5, h.h);
        NoFiniteBound(0.95, h.h);
      }
    }
  }

  lemma PrefixIsShare(pairs: seq<Pair>)
    requires Onward(pairs)
    ensures PrefixHit(pairs).Known? ==> 0.0 <= PrefixHit(pairs).v <= 1.0
  {
    var s := PrefixSum(pairs);
    if s.n > 0 && s.queries > 0.0 {
      QuotientOrder(0.0, s.hits, s.queries);
    }
  }

  /** derive: the samples of the last one's process, measured over both windows. */
  method Derive(hist: seq<Snap>, interval: real) returns (r: Result)
    requires hist != []
    ensures r == Derived(hist, interval)
  {
    var last := hist[|hist| - 1];
    var xs := SameProcess(hist, last.ident);
    var now := MeasureFigures(xs, last, interval);
    var p1 := LastPair(RatePairs(xs, last, JUST_BEFORE, interval));
    var m60 := MayMix(xs, last, RATE_WINDOW_S);
    var prompt := MeasureUnless(m60, p1, Counter(PromptTokens), 1.0);
    var gen := MeasureUnless(m60, p1, Counter(GenerationTokens), 1.0);
    var keep := Kept(Value(prompt), Value(gen), Value(now.preempt), Value(now.http5xx), Value(now.finishedError),
                     Value(now.prefixHit), Value(now.ttft50), Value(now.ttft95), Value(now.e2e50), Value(now.e2e95),
                     Value(now.queue95));
    r := Result(now, keep, |xs| < |hist|);
  }

  method MeasureUnless(mixed: bool, pairs: seq<Pair>, get: Snap -> Option<real>, per: real) returns (r: Reading)
    requires Onward(pairs) && per >= 0.0
    ensures r == RateUnless(mixed, pairs, get, per)
  {
    if mixed {
      return Unknown(Mixed);
    }
    r := MeasureRate(pairs, get, per);
  }

  method MeasureFigure(mixed: bool, pairs: seq<Pair>, n: RateName, ghost xs: seq<Snap>, ghost last: Snap,
                       ghost interval: real) returns (r: Reading)
    requires mixed == MayMix(xs, last, WindowOf(n)) && pairs == RatePairs(xs, last, WindowOf(n), interval)
    ensures r == RateFigure(xs, last, interval, n)
  {
    r := MeasureUnless(mixed, pairs, Counts(n), Per(n));
  }

  method MeasureQuantiles(mixed: bool, pairs: seq<Pair>, name: HistName) returns (p50: Reading, p95: Reading)
    ensures (p50, p95) == Quantiles(mixed, pairs, name)
  {
    if mixed {
      return Unknown(Mixed), Unknown(Mixed);
    }
    var h := MeasureHist(pairs, name);
    p50, p95 := QuantileOf(0.5, h), QuantileOf(0.95, h);
  }

  method MeasureFigures(xs: seq<Snap>, last: Snap, interval: real) returns (f: Figures)
    ensures f == FiguresOf(xs, last, interval)
  {
    var p60, p5 := RatePairs(xs, last, RATE_WINDOW_S, interval), RatePairs(xs, last, WINDOW_S, interval);
    var m60, m5 := MayMix(xs, last, RATE_WINDOW_S), MayMix(xs, last, WINDOW_S);
    var prompt := MeasureFigure(m60, p60, PromptTps, xs, last, interval);
    var gen := MeasureFigure(m60, p60, GenTps, xs, last, interval);
    var preempt := MeasureFigure(m5, p5, Preempt, xs, last, interval);
    var requests := MeasureFigure(m5, p5, Requests, xs, last, interval);
    var aborts := MeasureFigure(m5, p5, Aborts, xs, last, interval);
    var http5xx := MeasureFigure(m5, p5, Http5xx, xs, last, interval);
    var errors := MeasureFigure(m5, p5, FinishedError, xs, last, interval);
    var prefix := Unknown(Mixed);
    if !m5 {
      prefix := MeasurePrefix(p5);
    }
    var ttft50, ttft95 := MeasureQuantiles(m5, p5, Ttft);
    var e2e50, e2e95 := MeasureQuantiles(m5, p5, E2e);
    var queue50, queue95 := MeasureQuantiles(m5, p5, Queue);
    f := Figures(prompt, gen, preempt, requests, aborts, http5xx, errors, prefix,
                 ttft50, ttft95, e2e50, e2e95, queue50, queue95);
  }

  // ---------------------------------------------------------------- other processes

  lemma {:induction false} SameProcessSkips(a: seq<Snap>, s: Snap, b: seq<Snap>, ident: Option<real>)
    requires s.ident != ident
    ensures SameProcess(a + [s] + b, ident) == SameProcess(a + b, ident)
  {
    if b == [] {
      assert (a + [s] + b)[..|a|] == a == a + b;
    } else {
      var n := |b| - 1;
      assert (a + [s] + b)[..|a| + 1 + n] == a + [s] + b[..n];
      assert (a + b)[..|a| + n] == a + b[..n];
      SameProcessSkips(a, s, b[..n], ident);
    }
  }

  /** A sample of another process, put anywhere before the last sample, changes no figure. */
  lemma OtherProcessesDoNotMatter(a: seq<Snap>, s: Snap, b: seq<Snap>, interval: real)
    requires b != [] && s.ident != b[|b| - 1].ident
    ensures Derived(a + [s] + b, interval).now == Derived(a + b, interval).now
    ensures Derived(a + [s] + b, interval).keep == Derived(a + b, interval).keep
  {
    SameProcessSkips(a, s, b, b[|b| - 1].ident);
  }

  // ---------------------------------------------------------------- steady figures

  /** Over a steady window the reading is the counter's growth over the time between its ends. */
  ghost predicate RateIs(r: Reading, xs: seq<Snap>, get: Snap -> Option<real>, since: real, maxGap: real, per: real)
    requires xs != []
  {
    Steady(xs, get, since, maxGap) ==> GrowthRate(r, get, xs[WindowStart(xs, since)], xs[|xs| - 1], per)
  }

  /** The quantiles of the histogram h, which is that of `last` less that of `first`; none if nothing was counted. */
  ghost predicate QuantilesOfGrowth(lo: Reading, hi: Reading, h: Hist, first: Read, last: Read) {
    && Shaped(h) && IsGrowth(h, first, last)
    && if Total(h) > 0.0 then lo == QuantileOf(0.5, KnownHist(h)) && hi == QuantileOf(0.95, KnownHist(h))
       else lo == hi == Unknown(NoRequests)
  }

  ghost predicate QuantilesAre(lo: Reading, hi: Reading, xs: seq<Snap>, name: HistName, since: real, maxGap: real)
    requires xs != []
  {
    var first, last := xs[WindowStart(xs, since)], xs[|xs| - 1];
    SteadyHist(xs, name, since, maxGap) ==>
      && name in first.hists && name in last.hists
      && exists h: Hist :: QuantilesOfGrowth(lo, hi, h, first.hists[name], last.hists[name])
  }

  function Growth(get: Snap -> Option<real>, first: Snap, last: Snap): real
    requires get(first).Some? && get(last).Some?
  {
    get(last).value - get(first).value
  }

  /** The share of the hits in the queries of the window, if there are any. */
  ghost predicate ShareOfGrowth(r: Reading, first: Snap, last: Snap) {
    var hit, query := Counter(PrefixHits), Counter(PrefixQueries);
    && hit(first).Some? && hit(last).Some? && query(first).Some? && query(last).Some?
    && var hits, queries := Growth(hit, first, last), Growth(query, first, last);
       if queries <= 0.0 then r == Unknown(NoRequests)
       else r == Known(if hits / queries < 1.0 then hits / queries else 1.0)
  }

  ghost predicate ShareIs(r: Reading, xs: seq<Snap>, since: real, maxGap: real)
    requires xs != []
  {
    Steady(xs, Counter(PrefixHits), since, maxGap) && Steady(xs, Counter(PrefixQueries), since, maxGap) ==>
      ShareOfGrowth(r, xs[WindowStart(xs, since)], xs[|xs| - 1])
  }

  lemma SteadyRate(xs: seq<Snap>, get: Snap -> Option<real>, since: real, maxGap: real, per: real)
    requires |xs| > 1 && xs[|xs| - 1].ts > since && per >= 0.0
    ensures RateIs(RateUnless(false, Pairs(xs, since, maxGap), get, per), xs, get, since, maxGap, per)
  {
    if Steady(xs, get, since, maxGap) {
      RateOfSteadyWindow(xs, get, since, maxGap, per);
    }
  }

  lemma GrowthIsMeasured(pairs: seq<Pair>, name: HistName, first: Snap, last: Snap)
    requires HistGrows(pairs, name, first, last) && HistSum(pairs, name).Some?
    ensures var q := Quantiles(false, pairs, name);
            QuantilesOfGrowth(q.0, q.1, HistSum(pairs, name).value, first.hists[name], last.hists[name])
  {
  }

  lemma SteadyHistQuantiles(xs: seq<Snap>, name: HistName, since: real, maxGap: real)
    requires |xs| > 1 && xs[|xs| - 1].ts > since
    ensures var q := Quantiles(false, Pairs(xs, since, maxGap), name); QuantilesAre(q.0, q.1, xs, name, since, maxGap)
  {
    if SteadyHist(xs, name, since, maxGap) {
      HistTelescopes(xs, name, since, maxGap);
      WindowStartIsEarlier(xs, since);
      GrowthIsMeasured(Pairs(xs, since, maxGap), name, xs[WindowStart(xs, since)], xs[|xs| - 1]);
    }
  }

  /** Where both counters climb, every pair is counted for both. */
  ghost predicate BothSummed(pairs: seq<Pair>) {
    var hit, query := Counter(PrefixHits), Counter(PrefixQueries);
    PrefixSum(pairs) == Prefix(Increase(pairs, hit), Increase(pairs, query), UsablePairs(pairs, hit))
  }

  lemma BothSummedSnoc(pairs: seq<Pair>, p: Pair)
    requires BothSummed(pairs) && Delta(p, Counter(PrefixHits)).Some? && Delta(p, Counter(PrefixQueries)).Some?
    ensures BothSummed(pairs + [p])
  {
    assert (pairs + [p])[..|pairs|] == pairs;
  }

  lemma {:induction false} PrefixTelescopes(xs: seq<Snap>, since: real, maxGap: real)
    requires xs != []
    requires Steady(xs, Counter(PrefixHits), since, maxGap) && Steady(xs, Counter(PrefixQueries), since, maxGap)
    ensures BothSummed(Pairs(xs, since, maxGap))
  {
    var n := |xs| - 1;
    if n == 0 || xs[n].ts <= since {
      NoPairs(xs, n, since, maxGap);
    } else {
      PairsSnoc(xs, since, maxGap);
      SteadySnoc(xs, Counter(PrefixHits), since, maxGap);
      SteadySnoc(xs, Counter(PrefixQueries), since, maxGap);
      PrefixTelescopes(xs[..n], since, maxGap);
      BothSummedSnoc(Pairs(xs[..n], since, maxGap), (xs[n - 1], xs[n]));
    }
  }

  lemma SharesAreGrowth(pairs: seq<Pair>, first: Snap, last: Snap)
    requires Onward(pairs) && BothSummed(pairs) && UsablePairs(pairs, Counter(PrefixHits)) > 0
    requires Grows(pairs, Counter(PrefixHits), first, last) && Grows(pairs, Counter(PrefixQueries), first, last)
    ensures ShareOfGrowth(PrefixUnless(false, pairs), first, last)
  {
  }

  lemma SteadyShare(xs: seq<Snap>, since: real, maxGap: real)
    requires |xs| > 1 && xs[|xs| - 1].ts > since
    ensures ShareIs(PrefixUnless(false, Pairs(xs, since, maxGap)), xs, since, maxGap)
  {
    if Steady(xs, Counter(PrefixHits), since, maxGap) && Steady(xs, Counter(PrefixQueries), since, maxGap) {
      PrefixTelescopes(xs, since, maxGap);
      SteadyTelescopes(xs, Counter(PrefixHits), since, maxGap);
      SteadyTelescopes(xs, Counter(PrefixQueries), since, maxGap);
      WindowStartIsEarlier(xs, since);
      SharesAreGrowth(Pairs(xs, since, maxGap), xs[WindowStart(xs, since)], xs[|xs| - 1]);
    }
  }

  lemma {:induction false} OneProcess(hist: seq<Snap>, ident: Option<real>)
    requires forall i :: 0 <= i < |hist| ==> hist[i].ident == ident
    ensures SameProcess(hist, ident) == hist
  {
    if hist != [] {
      var n := |hist| - 1;
      OneProcess(hist[..n], ident);
      assert hist == hist[..n] + [hist[n]];
    }
  }

  /** A history of one process is measured as it is. */
  lemma OneProcessIsAll(hist: seq<Snap>, interval: real)
    requires hist != [] && forall i :: 0 <= i < |hist| ==> hist[i].ident == hist[|hist| - 1].ident
    ensures var last := hist[|hist| - 1];
            Derived(hist, interval) == Result(FiguresOf(hist, last, interval), KeptOf(hist, last, interval), false)
  {
    OneProcess(hist, hist[|hist| - 1].ident);
  }

  /** The samples of one process: where they are steady over a rate's window, and no other process may have answered,
      the rate is the growth between the ends of the window. */
  lemma SteadyRates(xs: seq<Snap>, last: Snap, interval: real, n: RateName)
    requires |xs| > 1 && xs[|xs| - 1] == last && !MayMix(xs, last, WindowOf(n))
    ensures RateIs(RateFigure(xs, last, interval, n), xs, Counts(n), last.ts - WindowOf(n), 4.0 * interval, Per(n))
  {
    var since, gap := last.ts - WindowOf(n), 4.0 * interval;
    var r := RateUnless(false, Pairs(xs, since, gap), Counts(n), Per(n));
    SteadyRate(xs, Counts(n), since, gap, Per(n));
    assert RateFigure(xs, last, interval, n) == r;
  }

  /** What the card shows: tokens a second over the last minute, and the rest a minute over the last five. */
  lemma FiguresShow(xs: seq<Snap>, last: Snap, interval: real)
    ensures var f := FiguresOf(xs, last, interval);
            && f.promptTps == RateFigure(xs, last, interval, PromptTps)
            && f.genTps == RateFigure(xs, last, interval, GenTps)
            && f.preempt == RateFigure(xs, last, interval, Preempt)
            && f.requests == RateFigure(xs, last, interval, Requests)
            && f.aborts == RateFigure(xs, last, interval, Aborts)
            && f.http5xx == RateFigure(xs, last, interval, Http5xx)
            && f.finishedError == RateFigure(xs, last, interval, FinishedError)
            && f.prefixHit == PrefixFigure(xs, last, interval)
            && (f.ttft50, f.ttft95) == QuantileFigures(xs, last, interval, Ttft)
            && (f.e2e50, f.e2e95) == QuantileFigures(xs, last, interval, E2e)
            && (f.queue50, f.queue95) == QuantileFigures(xs, last, interval, Queue)
  {
  }

  /** Over a steady minute a rate of tokens is the growth of their counter a second, */
  lemma SteadyTokens(xs: seq<Snap>, last: Snap, interval: real)
    requires |xs| > 1 && xs[|xs| - 1] == last && !MayMix(xs, last, 60.0)
    ensures RateIs(RateFigure(xs, last, interval, PromptTps), xs, Counter(PromptTokens), last.ts - 60.0,
                   4.0 * interval, 1.0)
    ensures RateIs(RateFigure(xs, last, interval, GenTps), xs, Counter(GenerationTokens), last.ts - 60.0,
                   4.0 * interval, 1.0)
  {
    SteadyRates(xs, last, interval, PromptTps);
    SteadyRates(xs, last, interval, GenTps);
  }

  /** and over five steady ones a rate of requests, errors or preemptions is that of theirs a minute. */
  lemma SteadyEvents(xs: seq<Snap>, last: Snap, interval: real, n: RateName)
    requires |xs| > 1 && xs[|xs| - 1] == last && !MayMix(xs, last, 300.0) && !n.PromptTps? && !n.GenTps?
    ensures RateIs(RateFigure(xs, last, interval, n), xs, Counts(n), last.ts - 300.0, 4.0 * interval, 60.0)
    ensures match n
            case Preempt => Counts(n) == Counter(Preemptions)
            case Requests => Counts(n) == Labeled(Finished, None)
            case Aborts => Counts(n) == Labeled(Finished, Some({"abort"}))
            case Http5xx => Counts(n) == Labeled(Http, Some({"5xx"}))
            case FinishedError => Counts(n) == Labeled(Finished, Some({"error"}))
            case _ => false
  {
    SteadyRates(xs, last, interval, n);
  }

  /** And p50 and p95 are those of the requests that were counted between the ends, */
  lemma SteadyQuantiles(xs: seq<Snap>, last: Snap, interval: real, name: HistName)
    requires |xs| > 1 && xs[|xs| - 1] == last && !MayMix(xs, last, WINDOW_S)
    ensures var q := QuantileFigures(xs, last, interval, name);
            QuantilesAre(q.0, q.1, xs, name, last.ts - WINDOW_S, 4.0 * interval)
  {
    var since, gap := last.ts - WINDOW_S, 4.0 * interval;
    var q := Quantiles(false, Pairs(xs, since, gap), name);
    SteadyHistQuantiles(xs, name, since, gap);
    assert QuantileFigures(xs, last, interval, name) == q;
  }

  /** and the share of prefix hits is that of their growth in the growth of the queries. */
  lemma SteadyPrefixHit(xs: seq<Snap>, last: Snap, interval: real)
    requires |xs| > 1 && xs[|xs| - 1] == last && !MayMix(xs, last, WINDOW_S)
    ensures ShareIs(PrefixFigure(xs, last, interval), xs, last.ts - WINDOW_S, 4.0 * interval)
  {
    var since, gap := last.ts - WINDOW_S, 4.0 * interval;
    var r := PrefixUnless(false, Pairs(xs, since, gap));
    SteadyShare(xs, since, gap);
    assert PrefixFigure(xs, last, interval) == r;
  }

  // ---------------------------------------------------------------- mixed processes

  /** The counter, the count of the label or the histogram is lower in b than in a; an absent label counts 0. */
  ghost predicate CounterFell(a: Snap, b: Snap, k: Name) {
    k in a.counters && k in b.counters && b.counters[k] < a.counters[k]
  }

  ghost predicate LabelLost(a: Snap, b: Snap, f: Family, i: int) {
    && f in a.byLabel && 0 <= i < |a.byLabel[f]|
    && var lab, v := a.byLabel[f][i].0, a.byLabel[f][i].1;
       if f in b.byLabel && exists j :: IsLast(b.byLabel[f], lab, j)
       then exists j :: IsLast(b.byLabel[f], lab, j) && b.byLabel[f][j].1 < v
       else 0.0 < v
  }

  /** Entry j is the last for that label, which is its only one as they are read. */
  ghost predicate IsLast(d: seq<(string, real)>, lab: string, j: int) {
    0 <= j < |d| && d[j].0 == lab && forall k :: j < k < |d| ==> d[k].0 != lab
  }

  ghost predicate HistFellAt(a: Snap, b: Snap, k: HistName) {
    && k in a.hists && k in b.hists
    && (a.hists[k].bounds != b.hists[k].bounds || b.hists[k].count < a.hists[k].count
        || exists i :: 0 <= i < |a.hists[k].cum| && i < |b.hists[k].cum| && b.hists[k].cum[i] < a.hists[k].cum[i])
  }

  ghost predicate AnyFell(a: Snap, b: Snap) {
    || (exists k :: CounterFell(a, b, k))
    || (exists f, i :: LabelLost(a, b, f, i))
    || (exists k :: HistFellAt(a, b, k))
  }

  lemma {:induction false} LabelValueIs(d: seq<(string, real)>, lab: string)
    ensures if exists j :: IsLast(d, lab, j) then exists j :: IsLast(d, lab, j) && LabelValue(d, lab) == d[j].1
            else LabelValue(d, lab) == 0.0
  {
    if d != [] {
      var n := |d| - 1;
      if d[n].0 == lab {
        assert IsLast(d, lab, n);
      } else {
        LabelValueIs(d[..n], lab);
        assert forall j :: 0 <= j < n ==> d[..n][j] == d[j];
        assert forall j :: IsLast(d, lab, j) <==> IsLast(d[..n], lab, j);
      }
    }
  }

  lemma LabelLostIs(a: Snap, b: Snap, f: Family, i: int)
    requires f in a.byLabel && 0 <= i < |a.byLabel[f]|
    ensures var e := if f in b.byLabel then b.byLabel[f] else [];
            LabelLost(a, b, f, i) <==> LabelValue(e, a.byLabel[f][i].0) < a.byLabel[f][i].1
  {
    LabelValueIs(if f in b.byLabel then b.byLabel[f] else [], a.byLabel[f][i].0);
  }

  lemma FellIsBackwards(a: Snap, b: Snap)
    ensures AnyFell(a, b) <==> Backwards(a, b)
  {
    if f, i :| LabelLost(a, b, f, i) {
      LabelLostIs(a, b, f, i);
      assert LabelFell(a.byLabel[f], if f in b.byLabel then b.byLabel[f] else []);
    }
    if f :| f in a.byLabel && LabelFell(a.byLabel[f], if f in b.byLabel then b.byLabel[f] else []) {
      var e := if f in b.byLabel then b.byLabel[f] else [];
      var i :| 0 <= i < |a.byLabel[f]| && LabelValue(e, a.byLabel[f][i].0) < a.byLabel[f][i].1;
      LabelLostIs(a, b, f, i);
    }
    forall k | k in a.hists && k in b.hists
      ensures HistFellAt(a, b, k) <==> HistDelta(Some(a.hists[k]), Some(b.hists[k])).None?
    {
    }
    assert forall k :: CounterFell(a, b, k) <==> k in a.counters && k in b.counters && b.counters[k] < a.counters[k];
  }

  /** Samples without a process mark are blanked over a window exactly when something fell in it, in whatever gap: then
      another process may have answered. */
  lemma MayMixIff(xs: seq<Snap>, last: Snap, window: real)
    ensures MayMix(xs, last, window)
       <==> last.ident.None? && exists j :: 0 < j < |xs| && last.ts - window < xs[j].ts && AnyFell(xs[j - 1], xs[j])
  {
    forall j | 0 < j < |xs|
      ensures WentBackAt(xs, j, last.ts - window) <==> last.ts - window < xs[j].ts && AnyFell(xs[j - 1], xs[j])
    {
      FellIsBackwards(xs[j - 1], xs[j]);
    }
  }

  /** Nothing is shown over a window in which samples without a process mark fell: another process may have answered. */
  lemma MixedShowsNothing(xs: seq<Snap>, last: Snap, interval: real, j: nat, window: real)
    requires last.ident.None? && 0 < j < |xs| && last.ts - window < xs[j].ts
    requires AnyFell(xs[j - 1], xs[j])
    ensures forall n: RateName :: window <= WindowOf(n) ==> RateFigure(xs, last, interval, n) == Unknown(Mixed)
    ensures window <= WINDOW_S ==>
              && PrefixFigure(xs, last, interval) == Unknown(Mixed)
              && forall name :: QuantileFigures(xs, last, interval, name) == (Unknown(Mixed), Unknown(Mixed))
  {
    FellIsBackwards(xs[j - 1], xs[j]);
    forall w | window <= w
      ensures MayMix(xs, last, w)
    {
      assert WentBackAt(xs, j, last.ts - w);
    }
  }

  /** A family's count is added up label by label: those asked for, or all. */
  lemma {:induction false} LabelsAddUp(a: seq<(string, real)>, b: seq<(string, real)>, keys: Option<set<string>>)
    ensures SumLabels(a + b, keys) == SumLabels(a, keys) + SumLabels(b, keys)
    ensures |b| == 1 ==> SumLabels(b, keys) == if keys.None? || b[0].0 in keys.value then b[0].1 else 0.0
    decreases |b|
  {
    if b == [] {
      assert a + b == a;
    } else {
      var n := |b| - 1;
      assert (a + b)[..|a| + n] == a + b[..n];
      LabelsAddUp(a, b[..n], keys);
    }
  }

  /** A family counts if it exists: with labels, or known to exist without any, which counts 0. */
  lemma LabeledIs(name: Family, keys: Option<set<string>>, s: Snap)
    ensures Labeled(name, keys)(s).Some? <==> name in s.byLabel && (|s.byLabel[name]| > 0 || name in s.has)
    ensures name in s.byLabel && s.byLabel[name] == [] && name in s.has ==> Labeled(name, keys)(s) == Some(0.0)
  {
  }
}
