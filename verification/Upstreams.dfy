/** The servers of the LLM router (infra/llm-router/llm_router.py): what the router knows of one, how each event
    changes that, and which one a request goes to. */
module Upstreams {
  import opened Options

  const PROBE_TIMEOUTS_DOWN := 3
  const METRICS_KEEP_FAILS := 3

  datatype Metrics = Metrics(running: real, waiting: real, kv: Option<real>)

  /** A line of a model list: the id, and max_model_len if it is a number. */
  datatype Served = Served(id: string, window: Option<real>)

  /** The state of one server. */
  datatype Server = Server(
    metrics: Option<Metrics>, metricsFail: nat, inflightAtScrape: int, inflight: int,
    downUntil: real, downNoted: bool, downs: nat, probeTimeouts: nat,
    models: Option<seq<Served>>, modelsBad: bool,
    sent: int, connectFail: int, retriedAway: int, sticky: int, overflow: int)

  /** A server of which nothing is known yet. */
  const FRESH: Server := Server(None, 0, 0, 0, 0.0, false, 0, 0, None, false, 0, 0, 0, 0, 0)

  // ---------------------------------------------------------------- reading a server

  predicate IsUp(s: Server, now: real) { now >= s.downUntil }

  predicate Answers(s: Server) { s.probeTimeouts < PROBE_TIMEOUTS_DOWN }

  predicate Confirmed(s: Server) { s.models.Some? && Answers(s) }

  predicate Serves(s: Server, model: Option<string>) {
    s.models.Some? && model.Some? && exists i :: 0 <= i < |s.models.value| && s.models.value[i].id == model.value
  }

  function MaxReal(a: real, b: real): real { if a < b then b else a }

  function MaxInt(a: int, b: int): int { if a < b then b else a }

  /** The widest window of the lines for that model, or of all lines, if one gives a number. */
  function WidestOf(rows: seq<Served>, model: Option<string>): Option<real> {
    if rows == [] then None
    else
      var rest, row := WidestOf(rows[..|rows| - 1], model), rows[|rows| - 1];
      if row.window.None? || (model.Some? && row.id != model.value) then rest
      else if rest.None? then row.window
      else Some(MaxReal(rest.value, row.window.value))
  }

  /** The widest window there is; -1 if no line gives a number. */
  function Window(s: Server, model: Option<string>): real {
    var widest := WidestOf(if s.models.Some? then s.models.value else [], model);
    if widest.Some? then widest.value else -1.0
  }

  /** Running and waiting at the last scrape and what was sent since, but no less than what is out there now. */
  function Load(s: Server): real {
    if s.metrics.None? then s.inflight as real
    else
      var m := s.metrics.value;
      MaxReal(m.running + m.waiting + MaxInt(0, s.inflight - s.inflightAtScrape) as real, s.inflight as real)
  }

  function Kv(s: Server): real { if s.metrics.Some? && s.metrics.value.kv.Some? then s.metrics.value.kv.value else 0.0 }

  /** Row i is for the model, or no model is asked for, and gives a window. */
  ghost predicate GivesWindow(rows: seq<Served>, i: int, model: Option<string>) {
    0 <= i < |rows| && rows[i].window.Some? && (model.None? || rows[i].id == model.value)
  }

  lemma {:induction false} WidestOfIs(rows: seq<Served>, model: Option<string>)
    ensures var w := WidestOf(rows, model);
            && (w.None? <==> forall i :: 0 <= i < |rows| ==> !GivesWindow(rows, i, model))
            && (w.Some? ==>
                 && (exists i :: GivesWindow(rows, i, model) && rows[i].window == w)
                 && forall i :: GivesWindow(rows, i, model) ==> rows[i].window.value <= w.value)
  {
    if rows != [] {
      var n, pre := |rows| - 1, rows[..|rows| - 1];
      WidestOfIs(pre, model);
      assert forall i :: 0 <= i < n ==> (GivesWindow(pre, i, model) <==> GivesWindow(rows, i, model));
      var w := WidestOf(pre, model);
      if w.Some? {
        var i :| GivesWindow(pre, i, model) && pre[i].window == w;
        assert GivesWindow(rows, i, model) && rows[i].window == w;
      }
      assert GivesWindow(rows, n, model) <==> rows[n].window.Some? && (model.None? || rows[n].id == model.value);
    }
  }

  /** A window is the widest that a line for the model gives, and -1 if the list is unknown or no line gives one. */
  lemma WindowIs(s: Server, model: Option<string>)
    ensures var rows, w := if s.models.Some? then s.models.value else [], Window(s, model);
            if exists i :: GivesWindow(rows, i, model) then
              && (exists i :: GivesWindow(rows, i, model) && rows[i].window == Some(w))
              && forall i :: GivesWindow(rows, i, model) ==> rows[i].window.value <= w
            else w == -1.0
  {
    WidestOfIs(if s.models.Some? then s.models.value else [], model);
  }

  /** Never below what is out, and just that while there are no metrics. */
  lemma LoadIsAtLeastOut(s: Server)
    ensures s.inflight as real <= Load(s)
    ensures s.metrics.None? ==> Load(s) == s.inflight as real
  {
  }

  /** Where the metrics show more than what is out, each request that runs, waits or was sent since the scrape counts
      as one. */
  lemma EachCountsAsOne(s: Server, more: real)
    requires s.metrics.Some? && s.inflight as real < Load(s) && more >= 0.0
    ensures var m := s.metrics.value;
            && Load(s.(metrics := Some(m.(running := m.running + more)))) == Load(s) + more
            && Load(s.(metrics := Some(m.(waiting := m.waiting + more)))) == Load(s) + more
            && (s.inflightAtScrape <= s.inflight ==> Load(s.(inflight := s.inflight + 1)) == Load(s) + 1.0)
            && (s.inflight < s.inflightAtScrape && (s.inflight + 1) as real <= Load(s) ==>
                 Load(s.(inflight := s.inflight + 1)) == Load(s))
  {
    var m, d := s.metrics.value, s.inflight - s.inflightAtScrape;
    assert (s.inflight + 1) as real == s.inflight as real + 1.0;
    assert d >= 0 ==> (d + 1) as real == d as real + 1.0;
    assert m.running + m.waiting + MaxInt(0, d) as real == Load(s);
  }

  /** Nothing was sent since the metrics came, and they show no less than what is out. */
  ghost predicate Settled(s: Server, busy: real) {
    && s.metrics.Some? && s.inflight <= s.inflightAtScrape
    && busy == s.metrics.value.running + s.metrics.value.waiting && s.inflight as real <= busy
  }

  lemma SettledLoad(s: Server, busy: real)
    requires Settled(s, busy)
    ensures Load(s) == busy
  {
  }

  // ---------------------------------------------------------------- candidates

  /** The server objects ever made; one beyond the table is as good as new. */
  type Table = seq<Server>

  function At(t: Table, u: nat): Server { if u < |t| then t[u] else FRESH }

  function Keep(s: seq<nat>, p: nat -> bool): (r: seq<nat>)
    ensures forall u :: u in r <==> u in s && p(u)
  {
    if s == [] then []
    else
      var n := |s| - 1;
      assert s == s[..n] + [s[n]];
      if p(s[n]) then Keep(s[..n], p) + [s[n]] else Keep(s[..n], p)
  }

  /** Those that p holds of, or all if it holds of none. */
  function OrAll(s: seq<nat>, p: nat -> bool): (r: seq<nat>)
    ensures forall u :: u in r <==> u in s && (p(u) || forall v :: v in s ==> !p(v))
  {
    var kept := Keep(s, p);
    if kept != [] then
      assert kept[0] in s && p(kept[0]);
      kept
    else
      assert forall v :: v in s && p(v) ==> v in kept;
      s
  }

  function WidestWindow(s: seq<nat>, t: Table, model: Option<string>): (w: real)
    requires s != []
    ensures forall u :: u in s ==> Window(At(t, u), model) <= w
    ensures exists u :: u in s && Window(At(t, u), model) == w
  {
    var n := |s| - 1;
    assert s == s[..n] + [s[n]];
    var last := Window(At(t, s[n]), model);
    if n == 0 then last else MaxReal(WidestWindow(s[..n], t, model), last)
  }

  function Widest(s: seq<nat>, t: Table, model: Option<string>): (r: seq<nat>)
    ensures forall u :: u in r <==>
              u in s && forall v :: v in s ==> Window(At(t, v), model) <= Window(At(t, u), model)
  {
    if s == [] then []
    else
      var w := WidestWindow(s, t, model);
      Keep(s, (u: nat) => Window(At(t, u), model) == w)
  }

  function Live(list: seq<nat>, t: Table, tried: seq<nat>, now: real): seq<nat> {
    OrAll(Keep(list, (u: nat) => u !in tried), (u: nat) => IsUp(At(t, u), now))
  }

  /** The candidates of _choose, in the order of the list. */
  function Cands(list: seq<nat>, t: Table, model: Option<string>, tried: seq<nat>, now: real): seq<nat> {
    var live := Live(list, t, tried, now);
    var up := Keep(live, (u: nat) => Confirmed(At(t, u)));
    if up != [] then
      var serving := Keep(up, (u: nat) => Serves(At(t, u), model));
      if serving != [] then Widest(serving, t, model) else Widest(up, t, None)
    else OrAll(OrAll(live, (u: nat) => Answers(At(t, u))), (u: nat) => Serves(At(t, u), model))
  }

  // ---------------------------------------------------------------- what a candidate is

  ghost predicate Untried(list: seq<nat>, tried: seq<nat>, u: nat) { u in list && u !in tried }

  /** Untried, and reachable if any untried one is. */
  ghost predicate IsLive(list: seq<nat>, t: Table, tried: seq<nat>, now: real, u: nat) {
    && Untried(list, tried, u)
    && (IsUp(At(t, u), now) || forall v :: Untried(list, tried, v) ==> !IsUp(At(t, v), now))
  }

  ghost predicate IsOn(list: seq<nat>, t: Table, tried: seq<nat>, now: real, u: nat) {
    IsLive(list, t, tried, now, u) && Confirmed(At(t, u))
  }

  /** On, and with the requested model if any that is on has it. */
  ghost predicate IsFit(list: seq<nat>, t: Table, model: Option<string>, tried: seq<nat>, now: real, u: nat) {
    && IsOn(list, t, tried, now, u)
    && (Serves(At(t, u), model) || forall v :: IsOn(list, t, tried, now, v) ==> !Serves(At(t, v), model))
  }

  /** If any is on: fit, and of the widest window among the fit. If none is: one that answers, if any does, and has
      the model, if any of those has. */
  ghost predicate IsCandidate(list: seq<nat>, t: Table, model: Option<string>, tried: seq<nat>, now: real, u: nat) {
    if exists v :: IsOn(list, t, tried, now, v) then
      && IsFit(list, t, model, tried, now, u)
      && forall v :: IsFit(list, t, model, tried, now, v) ==>
           var want := if Serves(At(t, u), model) then model else None;
           Window(At(t, v), want) <= Window(At(t, u), want)
    else IsFallback(list, t, model, tried, now, u)
  }

  ghost predicate IsBackup(list: seq<nat>, t: Table, tried: seq<nat>, now: real, u: nat) {
    && IsLive(list, t, tried, now, u)
    && (Answers(At(t, u)) || forall v :: IsLive(list, t, tried, now, v) ==> !Answers(At(t, v)))
  }

  ghost predicate IsFallback(list: seq<nat>, t: Table, model: Option<string>, tried: seq<nat>, now: real, u: nat) {
    && IsBackup(list, t, tried, now, u)
    && (Serves(At(t, u), model) || forall v :: IsBackup(list, t, tried, now, v) ==> !Serves(At(t, v), model))
  }

  lemma LiveIs(list: seq<nat>, t: Table, tried: seq<nat>, now: real, u: nat)
    ensures u in Live(list, t, tried, now) <==> IsLive(list, t, tried, now, u)
  {
    var rest := Keep(list, (v: nat) => v !in tried);
    assert forall v :: v in rest <==> Untried(list, tried, v);
  }

  lemma OnAre(list: seq<nat>, t: Table, tried: seq<nat>, now: real)
    ensures forall v :: v in Keep(Live(list, t, tried, now), (w: nat) => Confirmed(At(t, w)))
                        <==> IsOn(list, t, tried, now, v)
  {
    forall v {
      LiveIs(list, t, tried, now, v);
    }
  }

  /** The candidates if some server is on. */
  lemma FitAre(list: seq<nat>, t: Table, model: Option<string>, tried: seq<nat>, now: real, up: seq<nat>)
    requires forall v :: v in up <==> IsOn(list, t, tried, now, v)
    ensures var serving := Keep(up, (v: nat) => Serves(At(t, v), model));
            forall v :: v in (if serving != [] then serving else up) <==> IsFit(list, t, model, tried, now, v)
  {
    var serving := Keep(up, (v: nat) => Serves(At(t, v), model));
    if serving != [] {
      assert serving[0] in serving;
    } else {
      assert forall v :: v in up && Serves(At(t, v), model) ==> v in serving;
    }
  }

  /** And if none is. */
  lemma FallbacksAre(list: seq<nat>, t: Table, model: Option<string>, tried: seq<nat>, now: real, u: nat)
    ensures var backup := OrAll(Live(list, t, tried, now), (v: nat) => Answers(At(t, v)));
            u in OrAll(backup, (v: nat) => Serves(At(t, v), model)) <==> IsFallback(list, t, model, tried, now, u)
  {
    var live := Live(list, t, tried, now);
    forall v {
      LiveIs(list, t, tried, now, v);
    }
    var backup := OrAll(live, (v: nat) => Answers(At(t, v)));
    assert forall v :: v in backup <==> IsBackup(list, t, tried, now, v);
  }

  /** The widest of the fit. */
  lemma WidestFitAre(list: seq<nat>, t: Table, model: Option<string>, tried: seq<nat>, now: real, fit: seq<nat>,
                     want: Option<string>, on: nat, u: nat)
    requires IsOn(list, t, tried, now, on) && forall v :: v in fit <==> IsFit(list, t, model, tried, now, v)
    requires forall v :: v in fit ==> want == if Serves(At(t, v), model) then model else None
    ensures u in Widest(fit, t, want) <==> IsCandidate(list, t, model, tried, now, u)
  {
  }

  lemma OnCandidatesAre(list: seq<nat>, t: Table, model: Option<string>, tried: seq<nat>, now: real, up: seq<nat>,
                        u: nat)
    requires up != [] && forall v :: v in up <==> IsOn(list, t, tried, now, v)
    ensures var serving := Keep(up, (v: nat) => Serves(At(t, v), model));
            u in (if serving != [] then Widest(serving, t, model) else Widest(up, t, None))
            <==> IsCandidate(list, t, model, tried, now, u)
  {
    var serving := Keep(up, (v: nat) => Serves(At(t, v), model));
    assert up[0] in up;
    FitAre(list, t, model, tried, now, up);
    if serving != [] {
      WidestFitAre(list, t, model, tried, now, serving, model, up[0], u);
    } else {
      assert forall v :: v in up && Serves(At(t, v), model) ==> v in serving;
      WidestFitAre(list, t, model, tried, now, up, None, up[0], u);
    }
  }

  lemma CandidatesAre(list: seq<nat>, t: Table, model: Option<string>, tried: seq<nat>, now: real, u: nat)
    ensures u in Cands(list, t, model, tried, now) <==> IsCandidate(list, t, model, tried, now, u)
  {
    var up := Keep(Live(list, t, tried, now), (v: nat) => Confirmed(At(t, v)));
    OnAre(list, t, tried, now);
    if up != [] {
      OnCandidatesAre(list, t, model, tried, now, up, u);
    } else {
      FallbacksAre(list, t, model, tried, now, u);
    }
  }

  lemma CandidatesExist(list: seq<nat>, t: Table, model: Option<string>, tried: seq<nat>, now: real)
    ensures Cands(list, t, model, tried, now) == [] <==> forall u :: u in list ==> u in tried
  {
    var live := Live(list, t, tried, now);
    var rest := Keep(list, (v: nat) => v !in tried);
    if u :| u in list && u !in tried {
      assert u in rest;
      assert live != [];
      assert live[0] in live;
    }
  }

  // ---------------------------------------------------------------- the choice

  /** The order of (load, kv). */
  predicate Less(a: Server, b: Server) { Load(a) < Load(b) || (Load(a) == Load(b) && Kv(a) < Kv(b)) }

  /** min(cands, key = (load, kv, place in the list)): the first of the least. */
  function Best(cands: seq<nat>, t: Table): (b: nat)
    requires cands != []
    ensures b in cands && forall u :: u in cands ==> !Less(At(t, u), At(t, b))
    ensures exists i :: 0 <= i < |cands| && cands[i] == b && forall j :: 0 <= j < i ==> Less(At(t, b), At(t, cands[j]))
  {
    var n := |cands| - 1;
    assert cands == cands[..n] + [cands[n]];
    if n == 0 then cands[0]
    else
      var b := Best(cands[..n], t);
      if Less(At(t, cands[n]), At(t, b)) then cands[n] else b
  }

  /** max(cands, key = rank): the preferred server of a key. */
  function Preferred(cands: seq<nat>, rank: nat -> int): (p: nat)
    requires cands != []
    ensures p in cands && forall u :: u in cands ==> rank(u) <= rank(p)
  {
    var n := |cands| - 1;
    assert cands == cands[..n] + [cands[n]];
    if n == 0 then cands[0]
    else
      var p := Preferred(cands[..n], rank);
      if rank(p) < rank(cands[n]) then cands[n] else p
  }

  /** A request's key, as the rank it gives to each server, or none. */
  datatype Key = Keyless | Keyed(rank: nat -> int)

  datatype How = Least | Sticky | Overflow

  datatype Pick = Pick(u: nat, how: How, pref: nat)

  /** _choose. For a keyless request `pref` is the pick itself. */
  function Choose(list: seq<nat>, t: Table, key: Key, model: Option<string>, tried: seq<nat>, now: real, slack: real)
    : Option<Pick>
  {
    var cands := Cands(list, t, model, tried, now);
    if cands == [] then None else Some(Among(cands, t, key, slack))
  }

  function Among(cands: seq<nat>, t: Table, key: Key, slack: real): Pick
    requires cands != []
  {
    var best := Best(cands, t);
    if key.Keyless? then Pick(best, Least, best)
    else
      var pref := Preferred(cands, key.rank);
      if pref == best || Load(At(t, pref)) - Load(At(t, best)) < slack then Pick(pref, Sticky, pref)
      else Pick(best, Overflow, pref)
  }

  /** The choice fails exactly when every listed server was tried. Otherwise it is a candidate: of the least load
      without a key, else the key's preferred candidate unless that is busier than another by the slack or more,
      and then the least loaded. */
  lemma ChoiceIs(list: seq<nat>, t: Table, key: Key, model: Option<string>, tried: seq<nat>, now: real, slack: real)
    ensures var c := Choose(list, t, key, model, tried, now, slack);
            && (c.None? <==> forall u :: u in list ==> u in tried)
            && (c.Some? ==>
                 && IsCandidate(list, t, model, tried, now, c.value.u)
                 && IsCandidate(list, t, model, tried, now, c.value.pref)
                 && (key.Keyed? ==>
                      forall u :: IsCandidate(list, t, model, tried, now, u) ==>
                        key.rank(u) <= key.rank(c.value.pref))
                 && (c.value.how.Least? <==> key.Keyless?)
                 && (c.value.how.Sticky? ==> c.value.u == c.value.pref)
                 && (c.value.how.Sticky? ==>
                      forall u :: IsCandidate(list, t, model, tried, now, u) ==>
                        || Load(At(t, c.value.u)) <= Load(At(t, u))
                        || Load(At(t, c.value.u)) - Load(At(t, u)) < slack)
                 && (!c.value.how.Sticky? ==>
                      forall u :: IsCandidate(list, t, model, tried, now, u) ==>
                        Load(At(t, c.value.u)) <= Load(At(t, u)))
                 && (c.value.how.Overflow? ==> Load(At(t, c.value.u)) + slack <= Load(At(t, c.value.pref))))
  {
    CandidatesExist(list, t, model, tried, now);
    forall u: nat {
      CandidatesAre(list, t, model, tried, now, u);
    }
  }

  /** A request without a key, said without loads: of candidates with settled metrics it goes to one with the fewest
      requests running or waiting, and of those to one with the least use of its KV cache; of candidates without metrics
      to one with the fewest out. */
  lemma KeylessPickIs(list: seq<nat>, t: Table, model: Option<string>, tried: seq<nat>, now: real, slack: real, v: nat)
    ensures var c := Choose(list, t, Keyless, model, tried, now, slack);
            c.Some? && IsCandidate(list, t, model, tried, now, v) ==>
              var x, y := At(t, c.value.u), At(t, v);
              && (x.metrics.None? && y.metrics.None? ==> x.inflight <= y.inflight)
              && (forall a, b :: Settled(x, a) && Settled(y, b) ==>
                    a <= b && (a == b && x.metrics.value.kv.Some? && y.metrics.value.kv.Some?
                               ==> x.metrics.value.kv.value <= y.metrics.value.kv.value))
  {
    ChoiceIs(list, t, Keyless, model, tried, now, slack);
    CandidatesAre(list, t, model, tried, now, v);
    var c := Choose(list, t, Keyless, model, tried, now, slack);
    if c.Some? && IsCandidate(list, t, model, tried, now, v) {
      var x, y := At(t, c.value.u), At(t, v);
      assert !Less(y, x);
      forall a, b | Settled(x, a) && Settled(y, b)
        ensures a <= b
        ensures a == b && x.metrics.value.kv.Some? && y.metrics.value.kv.Some?
            ==> x.metrics.value.kv.value <= y.metrics.value.kv.value
      {
        SettledLoad(x, a);
        SettledLoad(y, b);
      }
    }
  }

  /** The pick and the preferred server are listed and untried. */
  lemma PickIsListed(list: seq<nat>, t: Table, key: Key, model: Option<string>, tried: seq<nat>, now: real, slack: real)
    ensures var c := Choose(list, t, key, model, tried, now, slack);
            c.Some? ==> Untried(list, tried, c.value.u) && Untried(list, tried, c.value.pref)
  {
    ChoiceIs(list, t, key, model, tried, now, slack);
  }

  /** A request goes to a server that is not on only when no untried reachable server is. */
  lemma UnconfirmedOnlyIfNoneIs(list: seq<nat>, t: Table, key: Key, model: Option<string>, tried: seq<nat>, now: real,
                                slack: real, v: nat)
    ensures var c := Choose(list, t, key, model, tried, now, slack);
            c.Some? && Untried(list, tried, v) && IsUp(At(t, v), now) ==>
              && IsUp(At(t, c.value.u), now)
              && (Confirmed(At(t, v)) ==> Confirmed(At(t, c.value.u)))
  {
    ChoiceIs(list, t, key, model, tried, now, slack);
    if Untried(list, tried, v) && IsUp(At(t, v), now) && Confirmed(At(t, v)) {
      assert IsOn(list, t, tried, now, v);
    }
  }

  // ---------------------------------------------------------------- bursts

  /** _count_pick, with the send counted at the server. */
  function CountPick(t: Table, p: Pick, d: int): Table {
    match p.how
    case Least => t
    case Sticky => Update(t, p.u, At(t, p.u).(sticky := At(t, p.u).sticky + d))
    case Overflow => Update(t, p.pref, At(t, p.pref).(overflow := At(t, p.pref).overflow + d))
  }

  function Update(t: Table, u: nat, s: Server): Table { if u < |t| then t[u := s] else t }

  /** One request leaves for its server. */
  function Sent(t: Table, p: Pick): Table {
    var s := At(t, p.u);
    CountPick(Update(t, p.u, s.(inflight := s.inflight + 1, sent := s.sent + 1)), p, 1)
  }

  /** Requests for one model that all leave before anything else happens. */
  function Burst(list: seq<nat>, t: Table, model: Option<string>, now: real, slack: real, keys: seq<Key>): Table {
    if keys == [] then t
    else
      var before := Burst(list, t, model, now, slack, keys[..|keys| - 1]);
      var c := Choose(list, before, keys[|keys| - 1], model, [], now, slack);
      if c.None? then before else Sent(before, c.value)
  }

  /** All that Cands looks at. */
  ghost predicate SameView(a: Server, b: Server) {
    a.downUntil == b.downUntil && a.probeTimeouts == b.probeTimeouts && a.models == b.models
  }

  lemma SentView(t: Table, p: Pick, u: nat)
    requires p.u < |t| && p.pref < |t|
    ensures |Sent(t, p)| == |t| && SameView(At(t, u), At(Sent(t, p), u))
    ensures At(Sent(t, p), u).metrics == At(t, u).metrics
    ensures At(Sent(t, p), u).inflightAtScrape == At(t, u).inflightAtScrape
    ensures At(Sent(t, p), u).inflight == At(t, u).inflight + if u == p.u then 1 else 0
  {
  }

  lemma {:induction false} KeepCongruent(s: seq<nat>, p: nat -> bool, q: nat -> bool)
    requires forall u :: u in s ==> p(u) == q(u)
    ensures Keep(s, p) == Keep(s, q)
  {
    if s != [] {
      assert s == s[..|s| - 1] + [s[|s| - 1]];
      KeepCongruent(s[..|s| - 1], p, q);
    }
  }

  lemma OrAllCongruent(s: seq<nat>, p: nat -> bool, q: nat -> bool)
    requires forall u :: u in s ==> p(u) == q(u)
    ensures OrAll(s, p) == OrAll(s, q)
  {
    KeepCongruent(s, p, q);
  }

  lemma {:induction false} WidestWindowCongruent(s: seq<nat>, t: Table, t2: Table, model: Option<string>)
    requires s != [] && forall u :: u in s ==> Window(At(t, u), model) == Window(At(t2, u), model)
    ensures WidestWindow(s, t, model) == WidestWindow(s, t2, model)
  {
    assert s == s[..|s| - 1] + [s[|s| - 1]];
    assert s[|s| - 1] in s;
    if |s| > 1 {
      WidestWindowCongruent(s[..|s| - 1], t, t2, model);
    }
  }

  lemma WidestCongruent(s: seq<nat>, t: Table, t2: Table, model: Option<string>)
    requires forall u :: SameView(At(t, u), At(t2, u))
    ensures Widest(s, t, model) == Widest(s, t2, model)
  {
    if s != [] {
      forall u: nat | u in s
        ensures Window(At(t, u), model) == Window(At(t2, u), model)
      {
        assert SameView(At(t, u), At(t2, u));
      }
      WidestWindowCongruent(s, t, t2, model);
      var w := WidestWindow(s, t, model);
      KeepCongruent(s, (u: nat) => Window(At(t, u), model) == w, (u: nat) => Window(At(t2, u), model) == w);
    }
  }

  lemma CandsCongruent(list: seq<nat>, t: Table, t2: Table, model: Option<string>, tried: seq<nat>, now: real)
    requires forall u :: SameView(At(t, u), At(t2, u))
    ensures Cands(list, t, model, tried, now) == Cands(list, t2, model, tried, now)
  {
    var rest := Keep(list, (u: nat) => u !in tried);
    OrAllCongruent(rest, (u: nat) => IsUp(At(t, u), now), (u: nat) => IsUp(At(t2, u), now));
    var live := Live(list, t, tried, now);
    KeepCongruent(live, (u: nat) => Confirmed(At(t, u)), (u: nat) => Confirmed(At(t2, u)));
    var up := Keep(live, (u: nat) => Confirmed(At(t, u)));
    KeepCongruent(up, (u: nat) => Serves(At(t, u), model), (u: nat) => Serves(At(t2, u), model));
    WidestCongruent(Keep(up, (u: nat) => Serves(At(t, u), model)), t, t2, model);
    WidestCongruent(up, t, t2, None);
    OrAllCongruent(live, (u: nat) => Answers(At(t, u)), (u: nat) => Answers(At(t2, u)));
    var backup := OrAll(live, (u: nat) => Answers(At(t, u)));
    OrAllCongruent(backup, (u: nat) => Serves(At(t, u), model), (u: nat) => Serves(At(t2, u), model));
  }

  /** No candidate is busier than another by more than `bound`. */
  ghost predicate Spread(cands: seq<nat>, t: Table, bound: real) {
    forall a, b :: a in cands && b in cands ==> Load(At(t, a)) - Load(At(t, b)) <= bound
  }

  predicate Whole(x: real) { x == x.Floor as real }

  ghost predicate WholeLoads(cands: seq<nat>, t: Table) { forall u :: u in cands ==> Whole(Load(At(t, u))) }

  function Ceiling(x: real): int { -((-x).Floor) }

  /** What a burst may come to: the slack rounded up between whole loads, and else one more than the slack. */
  ghost predicate Allows(cands: seq<nat>, t: Table, slack: real, bound: real) {
    1.0 <= bound && (slack + 1.0 <= bound || (WholeLoads(cands, t) && Ceiling(slack) as real <= bound))
  }

  lemma WholeBetween(x: real, n: int)
    requires Whole(x) && n as real <= x < n as real + 1.0
    ensures x == n as real
  {
    var i := x.Floor;
    assert i as real == x;
    assert n <= i < n + 1;
  }

  lemma WholeNext(x: real)
    requires Whole(x)
    ensures Whole(x + 1.0)
  {
    assert x + 1.0 == (x.Floor + 1) as real;
  }

  /** The larger of what was seen and of what is out, when one more goes out. */
  lemma MaxStep(seen: real, more: real, out: int)
    requires more == seen || more == seen + 1.0
    ensures var x, y := MaxReal(seen, out as real), MaxReal(more, (out + 1) as real);
            x <= y <= x + 1.0 && (Whole(x) ==> Whole(y))
  {
    var x, y := MaxReal(seen, out as real), MaxReal(more, (out + 1) as real);
    assert (out + 1) as real == out as real + 1.0;
    if Whole(x) && y != x {
      if y == x + 1.0 {
        WholeNext(x);
      } else {
        WholeBetween(x, out);
      }
    }
  }

  /** A send raises the load by one at most, and keeps a whole load whole. */
  lemma LoadAfterSend(s: Server)
    ensures Load(s) <= Load(s.(inflight := s.inflight + 1)) <= Load(s) + 1.0
    ensures Whole(Load(s)) ==> Whole(Load(s.(inflight := s.inflight + 1)))
  {
    if s.metrics.None? {
      WholeNext(s.inflight as real);
    } else {
      var base := s.metrics.value.running + s.metrics.value.waiting;
      var d, e := MaxInt(0, s.inflight - s.inflightAtScrape), MaxInt(0, s.inflight + 1 - s.inflightAtScrape);
      assert e as real == d as real || e as real == d as real + 1.0;
      MaxStep(base + d as real, base + e as real, s.inflight);
    }
  }

  lemma LoadOfView(a: Server, b: Server)
    requires a.metrics == b.metrics && a.inflight == b.inflight && a.inflightAtScrape == b.inflightAtScrape
    ensures Load(a) == Load(b)
  {
  }

  /** Where the load of the pick stands before it leaves. */
  lemma PickIsLow(cands: seq<nat>, t: Table, key: Key, slack: real, bound: real, b: nat)
    requires cands != [] && Allows(cands, t, slack, bound) && b in cands
    ensures Load(At(t, Among(cands, t, key, slack).u)) + 1.0 - Load(At(t, b)) <= bound
  {
    var best, p := Best(cands, t), Among(cands, t, key, slack).u;
    assert Load(At(t, best)) <= Load(At(t, b));
    if p != best && slack + 1.0 > bound {
      BelowCeiling(Load(At(t, p)), Load(At(t, best)), slack);
    }
  }

  lemma BelowCeiling(a: real, b: real, slack: real)
    requires Whole(a) && Whole(b) && a - b < slack
    ensures a + 1.0 - b <= Ceiling(slack) as real
  {
    var i, j, c := a.Floor, b.Floor, Ceiling(slack);
    assert slack <= c as real;
    assert (i - j) as real == a - b;
    assert i - j < c;
  }

  lemma StepKeepsSpread(cands: seq<nat>, t: Table, key: Key, slack: real, bound: real)
    requires cands != [] && (forall u :: u in cands ==> u < |t|)
    requires Allows(cands, t, slack, bound) && Spread(cands, t, bound)
    ensures var t2 := Sent(t, Among(cands, t, key, slack)); Allows(cands, t2, slack, bound) && Spread(cands, t2, bound)
  {
    var p := Among(cands, t, key, slack);
    var t2 := Sent(t, p);
    forall u | u in cands
      ensures Load(At(t, u)) <= Load(At(t2, u)) <= Load(At(t, u)) + if u == p.u then 1.0 else 0.0
      ensures Whole(Load(At(t, u))) ==> Whole(Load(At(t2, u)))
    {
      SentView(t, p, u);
      LoadAfterSend(At(t, u));
      LoadOfView(if u == p.u then At(t, u).(inflight := At(t, u).inflight + 1) else At(t, u), At(t2, u));
    }
    forall a, b | a in cands && b in cands
      ensures Load(At(t2, a)) - Load(At(t2, b)) <= bound
    {
      if a == p.u && b != a {
        PickIsLow(cands, t, key, slack, bound, b);
      }
    }
  }

  /** Whatever their keys, requests that leave in a burst never spread the loads of the candidates further than they
      were, than one, and than the slack rounded up (for loads that are no whole numbers: the slack and one). */
  lemma {:induction false} BurstKeepsSpread(list: seq<nat>, t: Table, model: Option<string>, now: real, slack: real,
                                            keys: seq<Key>, bound: real)
    requires forall u :: u in list ==> u < |t|
    requires var cands := Cands(list, t, model, [], now); Allows(cands, t, slack, bound) && Spread(cands, t, bound)
    ensures var t2, cands := Burst(list, t, model, now, slack, keys), Cands(list, t, model, [], now);
            && |t2| == |t| && (forall u :: SameView(At(t, u), At(t2, u)))
            && Cands(list, t2, model, [], now) == cands
            && Allows(cands, t2, slack, bound) && Spread(cands, t2, bound)
  {
    if keys != [] {
      var before := Burst(list, t, model, now, slack, keys[..|keys| - 1]);
      BurstKeepsSpread(list, t, model, now, slack, keys[..|keys| - 1], bound);
      if Cands(list, before, model, [], now) != [] {
        BurstStep(list, before, model, now, slack, keys[|keys| - 1], bound);
      }
    }
  }

  lemma BurstStep(list: seq<nat>, t: Table, model: Option<string>, now: real, slack: real, key: Key, bound: real)
    requires forall u :: u in list ==> u < |t|
    requires var cands := Cands(list, t, model, [], now);
             cands != [] && Allows(cands, t, slack, bound) && Spread(cands, t, bound)
    ensures var cands := Cands(list, t, model, [], now);
            var t2 := Sent(t, Among(cands, t, key, slack));
            && |t2| == |t| && (forall u :: SameView(At(t, u), At(t2, u)))
            && Cands(list, t2, model, [], now) == cands
            && Allows(cands, t2, slack, bound) && Spread(cands, t2, bound)
  {
    var cands := Cands(list, t, model, [], now);
    forall u | u in cands
      ensures u in list
    {
      CandidatesAre(list, t, model, [], now, u);
    }
    StepKeepsSpread(cands, t, key, slack, bound);
    var p := Among(cands, t, key, slack);
    forall u: nat {
      SentView(t, p, u);
    }
    CandsCongruent(list, t, Sent(t, p), model, [], now);
  }

  // ---------------------------------------------------------------- what happens to a server

  /** _mark_down; `request` when a request failed to connect. */
  function MarkDown(s: Server, now: real, cooldown: real, request: bool): Server {
    var counted := s.(connectFail := s.connectFail + if request then 1 else 0, downUntil := now + cooldown);
    if s.downNoted then counted
    else counted.(downNoted := true, downs := s.downs + 1, models := None, modelsBad := false)
  }

  function MetricsOk(s: Server, m: Metrics): Server {
    s.(metrics := Some(m), metricsFail := 0, inflightAtScrape := s.inflight)
  }

  function MetricsNone(s: Server): Server { s.(metrics := None, metricsFail := 0) }

  function MetricsMiss(s: Server): Server {
    s.(metricsFail := s.metricsFail + 1, metrics := if s.metricsFail + 1 < METRICS_KEEP_FAILS then s.metrics else None)
  }

  function ProbeTimedOut(s: Server): Server { s.(probeTimeouts := s.probeTimeouts + 1) }

  function ProbeAnswered(s: Server): Server { s.(probeTimeouts := 0) }

  /** How a read of /metrics ends. */
  datatype Scrape = NotConnected | Crashed | TimedOut | CutOff | Page(m: Option<Metrics>) | ServerError | Refused

  /** The end of _scrape: a probe that reached the server takes back `down` once the cooldown is over. */
  function Reached(s: Server, now: real): Server { if s.downNoted && IsUp(s, now) then s.(downNoted := false) else s }

  function Scraped(s: Server, scrape: Scrape, now: real, cooldown: real): Server {
    match scrape
    case NotConnected => MarkDown(s, now, cooldown, false)
    case Crashed => MarkDown(s, now, cooldown, false)
    case TimedOut => Reached(MetricsMiss(ProbeTimedOut(s)), now)
    case CutOff => Reached(MetricsMiss(s), now)
    case Page(None) => Reached(MetricsNone(ProbeAnswered(s)), now)
    case Page(Some(m)) => Reached(MetricsOk(ProbeAnswered(s), m), now)
    case ServerError => Reached(MetricsMiss(ProbeAnswered(s)), now)
    case Refused => Reached(MetricsNone(ProbeAnswered(s)), now)
  }

  /** How a read of /v1/models ends: without an answer, with an answer that is no list, or with a list. */
  datatype Reply = Silence(timeout: bool) | NoList | List(rows: seq<Served>)

  /** The end of _check_one; `downs` is the count of downs when it started. */
  function Checked(s: Server, downs: nat, reply: Reply): Server {
    if s.downs != downs then s
    else match reply
      case Silence(timeout) => if timeout then ProbeTimedOut(s) else s
      case NoList => ProbeAnswered(s).(models := None, modelsBad := true)
      case List(rows) => ProbeAnswered(s).(models := Some(rows), modelsBad := false)
  }

  /** A server as the router holds it, changed in place. */
  class Upstream {
    var metrics: Option<Metrics>
    var metricsFail: nat
    var inflightAtScrape: int
    var inflight: int
    var downUntil: real
    var downNoted: bool
    var downs: nat
    var probeTimeouts: nat
    var models: Option<seq<Served>>
    var modelsBad: bool
    var sent: int
    var connectFail: int
    var retriedAway: int
    var sticky: int
    var overflow: int

    function State(): Server
      reads this
    {
      Server(metrics, metricsFail, inflightAtScrape, inflight, downUntil, downNoted, downs, probeTimeouts, models,
             modelsBad, sent, connectFail, retriedAway, sticky, overflow)
    }

    constructor ()
      ensures State() == FRESH
    {
      metrics, metricsFail, inflightAtScrape, inflight := None, 0, 0, 0;
      downUntil, downNoted, downs, probeTimeouts := 0.0, false, 0, 0;
      models, modelsBad := None, false;
      sent, connectFail, retriedAway, sticky, overflow := 0, 0, 0, 0, 0;
    }

    /** _mark_down. */
    method NoteDown(now: real, cooldown: real, request: bool)
      modifies this
      ensures State() == MarkDown(old(State()), now, cooldown, request)
    {
      if request {
        connectFail := connectFail + 1;
      }
      downUntil := now + cooldown;
      if !downNoted {
        downNoted := true;
        downs := downs + 1;
        models, modelsBad := None, false;
      }
    }

    /** _metrics_miss. */
    method NoteMiss()
      modifies this
      ensures State() == MetricsMiss(old(State()))
    {
      metricsFail := metricsFail + 1;
      if metricsFail < METRICS_KEEP_FAILS {
        return;
      }
      metrics := None;
    }

    /** _metrics_ok and _metrics_none. */
    method NoteMetrics(m: Option<Metrics>)
      modifies this
      ensures State() == if m.Some? then MetricsOk(old(State()), m.value) else MetricsNone(old(State()))
    {
      metrics, metricsFail := m, 0;
      if m.Some? {
        inflightAtScrape := inflight;
      }
    }

    /** _scrape, once the probe has ended. */
    method EndScrape(scrape: Scrape, now: real, cooldown: real)
      modifies this
      ensures State() == Scraped(old(State()), scrape, now, cooldown)
    {
      match scrape {
        case NotConnected =>
          NoteDown(now, cooldown, false);
          return;
        case Crashed =>
          NoteDown(now, cooldown, false);
          return;
        case TimedOut =>
          probeTimeouts := probeTimeouts + 1;
          NoteMiss();
        case CutOff =>
          NoteMiss();
        case Page(m) =>
          probeTimeouts := 0;
          NoteMetrics(m);
        case ServerError =>
          probeTimeouts := 0;
          NoteMiss();
        case Refused =>
          probeTimeouts := 0;
          NoteMetrics(None);
      }
      if downNoted && now >= downUntil {
        downNoted := false;
      }
    }

    /** A send is counted, or taken back: here, and by _count_pick at this or at the preferred server. */
    method CountSend(how: How, pref: Upstream, d: int)
      modifies this, pref
      ensures how.Least? ==> State() == old(State()).(sent := old(sent) + d)
      ensures how.Sticky? ==> State() == old(State()).(sent := old(sent) + d, sticky := old(sticky) + d)
      ensures how.Overflow? && pref != this ==> State() == old(State()).(sent := old(sent) + d)
      ensures pref != this ==>
                pref.State() == old(pref.State()).(overflow := old(pref.overflow) + if how.Overflow? then d else 0)
      ensures how.Overflow? && pref == this ==>
                State() == old(State()).(sent := old(sent) + d, overflow := old(overflow) + d)
    {
      sent := sent + d;
      match how {
        case Least =>
        case Sticky => sticky := sticky + d;
        case Overflow => pref.overflow := pref.overflow + d;
      }
    }

    /** A forward to it begins or ends. */
    method CountForward(d: int)
      modifies this
      ensures State() == old(State()).(inflight := old(inflight) + d)
    {
      inflight := inflight + d;
    }

    /** _check_one, once the probe has ended, with _models_failed. */
    method EndCheck(before: nat, reply: Reply)
      modifies this
      ensures State() == Checked(old(State()), before, reply)
    {
      if downs != before {
        return;
      }
      match reply {
        case Silence(timeout) =>
          if timeout {
            probeTimeouts := probeTimeouts + 1;
          }
        case NoList =>
          probeTimeouts := 0;
          models, modelsBad := None, true;
        case List(rows) =>
          probeTimeouts := 0;
          models, modelsBad := Some(rows), false;
      }
    }
  }
}
