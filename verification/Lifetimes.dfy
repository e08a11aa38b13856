/** A server of the LLM router over time (infra/llm-router/llm_router.py): what its state is after any happenings, said
    of the happenings themselves. */
module Lifetimes {
  import opened Options
  import opened Upstreams

  /** What befalls a server, and when: it is marked down, a scrape of it ends, or a check that began at a count of downs
      of `before`, or forwards to it begin (d > 0) or end. */
  datatype Happening =
    | MarkedDown(now: real, request: bool)
    | ScrapeEnded(now: real, scrape: Scrape)
    | CheckEnded(before: nat, reply: Reply)
    | Forwarding(d: int)

  function After(s: Server, h: Happening, cooldown: real): Server {
    match h
    case MarkedDown(now, request) => MarkDown(s, now, cooldown, request)
    case ScrapeEnded(now, scrape) => Scraped(s, scrape, now, cooldown)
    case CheckEnded(before, reply) => Checked(s, before, reply)
    case Forwarding(d) => s.(inflight := s.inflight + d)
  }

  function Lived(s: Server, hs: seq<Happening>, cooldown: real): Server {
    if hs == [] then s else After(Lived(s, hs[..|hs| - 1], cooldown), hs[|hs| - 1], cooldown)
  }

  /** The model list is the one of a check that began at the present count of downs, or the one from the start with the
      count of downs unmoved. */
  ghost predicate ListIsCurrent(s: Server, hs: seq<Happening>, x: Server) {
    && s.downs <= x.downs
    && (x.models.Some? ==>
         || (x.models == s.models && x.downs == s.downs)
         || exists k :: 0 <= k < |hs| && hs[k] == CheckEnded(x.downs, List(x.models.value)))
  }

  lemma OneHappening(x: Server, h: Happening, cooldown: real)
    ensures var y := After(x, h, cooldown);
            && x.downs <= y.downs
            && (y.models.Some? ==>
                 (y.models == x.models && y.downs == x.downs) || h == CheckEnded(y.downs, List(y.models.value)))
  {
  }

  lemma CurrentSnoc(s: Server, hs: seq<Happening>, x: Server, h: Happening, y: Server)
    requires ListIsCurrent(s, hs, x) && x.downs <= y.downs
    requires y.models.Some? ==>
               (y.models == x.models && y.downs == x.downs) || h == CheckEnded(y.downs, List(y.models.value))
    ensures ListIsCurrent(s, hs + [h], y)
  {
    assert (hs + [h])[|hs|] == h;
    assert forall k :: 0 <= k < |hs| ==> (hs + [h])[k] == hs[k];
  }

  lemma {:induction false} HeldListIsCurrent(s: Server, hs: seq<Happening>, cooldown: real)
    ensures ListIsCurrent(s, hs, Lived(s, hs, cooldown))
  {
    if hs != [] {
      var n := |hs| - 1;
      var x := Lived(s, hs[..n], cooldown);
      HeldListIsCurrent(s, hs[..n], cooldown);
      OneHappening(x, hs[n], cooldown);
      CurrentSnoc(s, hs[..n], x, hs[n], After(x, hs[n], cooldown));
      assert hs[..n] + [hs[n]] == hs;
    }
  }

  // ---------------------------------------------------------------- what the happenings say

  predicate IsFailure(h: Happening) {
    h.MarkedDown? || (h.ScrapeEnded? && (h.scrape.NotConnected? || h.scrape.Crashed?))
  }

  /** When a connection to the server last failed. */
  function LastFailure(hs: seq<Happening>): Option<real> {
    if hs == [] then None
    else if IsFailure(hs[|hs| - 1]) then Some(hs[|hs| - 1].now)
    else LastFailure(hs[..|hs| - 1])
  }

  /** It failed, and no scrape has reached it since after the cooldown. */
  predicate StaysNoted(hs: seq<Happening>, cooldown: real): (noted: bool)
    ensures noted ==> LastFailure(hs).Some?
  {
    if hs == [] then false
    else
      var rest, h := hs[..|hs| - 1], hs[|hs| - 1];
      var failed := LastFailure(rest);
      IsFailure(h) || (StaysNoted(rest, cooldown)
                       && !(h.ScrapeEnded? && failed.value + cooldown <= h.now))
  }

  /** How often it went down: the failures at which it was not noted down already. */
  function TimesDown(hs: seq<Happening>, cooldown: real): nat {
    if hs == [] then 0
    else
      var rest := hs[..|hs| - 1];
      TimesDown(rest, cooldown) + if IsFailure(hs[|hs| - 1]) && !StaysNoted(rest, cooldown) then 1 else 0
  }

  /** A check counts if the server has not gone down since it began. */
  predicate InTime(h: Happening, rest: seq<Happening>, cooldown: real) {
    h.CheckEnded? && h.before == TimesDown(rest, cooldown)
  }

  /** How many probes have timed out since one was last answered. */
  function TimeoutsInARow(hs: seq<Happening>, cooldown: real): nat {
    if hs == [] then 0
    else
      var rest, h := hs[..|hs| - 1], hs[|hs| - 1];
      var before := TimeoutsInARow(rest, cooldown);
      var silent := InTime(h, rest, cooldown) && h.reply == Silence(true);
      var timedOut := silent || (h.ScrapeEnded? && h.scrape.TimedOut?);
      if timedOut then before + 1
      else if (InTime(h, rest, cooldown) && !h.reply.Silence?)
           || (h.ScrapeEnded? && (h.scrape.Page? || h.scrape.ServerError? || h.scrape.Refused?)) then 0
      else before
  }

  /** How many scrapes in a row have reached the server and brought no page. */
  function MissesInARow(hs: seq<Happening>): nat {
    if hs == [] then 0
    else
      var before, h := MissesInARow(hs[..|hs| - 1]), hs[|hs| - 1];
      if !h.ScrapeEnded? then before
      else if h.scrape.TimedOut? || h.scrape.CutOff? || h.scrape.ServerError? then before + 1
      else if h.scrape.Page? || h.scrape.Refused? then 0
      else before
  }

  /** What the last page said, if it was one with metrics. */
  function LastPage(hs: seq<Happening>): Option<Metrics> {
    if hs == [] then None
    else
      var h := hs[|hs| - 1];
      if h.ScrapeEnded? && h.scrape.Page? then h.scrape.m
      else if h.ScrapeEnded? && h.scrape.Refused? then None
      else LastPage(hs[..|hs| - 1])
  }

  /** How many forwards are out. */
  function Out(hs: seq<Happening>): int {
    if hs == [] then 0
    else
      var h := hs[|hs| - 1];
      Out(hs[..|hs| - 1]) + if h.Forwarding? then h.d else 0
  }

  /** How many were out when the last metrics came. */
  function OutAtPage(hs: seq<Happening>): int {
    if hs == [] then 0
    else
      var h := hs[|hs| - 1];
      if h.ScrapeEnded? && h.scrape.Page? && h.scrape.m.Some? then Out(hs[..|hs| - 1]) else OutAtPage(hs[..|hs| - 1])
  }

  /** The last answer in time to a check since the server last went down. */
  function LastAnswer(hs: seq<Happening>, cooldown: real): Option<Reply> {
    if hs == [] then None
    else
      var rest, h := hs[..|hs| - 1], hs[|hs| - 1];
      if IsFailure(h) && !StaysNoted(rest, cooldown) then None
      else if InTime(h, rest, cooldown) && !h.reply.Silence? then Some(h.reply)
      else LastAnswer(rest, cooldown)
  }

  function RequestsFailed(hs: seq<Happening>): nat {
    if hs == [] then 0
    else
      var h := hs[|hs| - 1];
      RequestsFailed(hs[..|hs| - 1]) + if h.MarkedDown? && h.request then 1 else 0
  }

  // ---------------------------------------------------------------- what the server is then

  ghost predicate Reachable(x: Server, hs: seq<Happening>, cooldown: real) {
    var failed := LastFailure(hs);
    && (forall t :: IsUp(x, t) <==> if failed.Some? then failed.value + cooldown <= t else 0.0 <= t)
    && x.downNoted == StaysNoted(hs, cooldown) && x.downs == TimesDown(hs, cooldown)
  }

  ghost predicate Measured(x: Server, hs: seq<Happening>) {
    && x.metrics == (if MissesInARow(hs) < METRICS_KEEP_FAILS then LastPage(hs) else None)
    && x.metricsFail == MissesInARow(hs)
    && x.inflight == Out(hs) && x.inflightAtScrape == OutAtPage(hs) && x.connectFail == RequestsFailed(hs)
  }

  ghost predicate Asked(x: Server, hs: seq<Happening>, cooldown: real) {
    var answer := LastAnswer(hs, cooldown);
    && x.probeTimeouts == TimeoutsInARow(hs, cooldown)
    && x.models == (if answer.Some? && answer.value.List? then Some(answer.value.rows) else None)
    && (x.modelsBad <==> answer == Some(NoList))
  }

  /** A server is reachable again a cooldown after the last failure and no sooner; its metrics are those of the last
      page until three scrapes in a row bring none; it counts what is out, and what was out at that page; and its model
      list is that of the last check that was answered since it last went down. */
  ghost predicate IsTrue(x: Server, hs: seq<Happening>, cooldown: real) {
    Reachable(x, hs, cooldown) && Measured(x, hs) && Asked(x, hs, cooldown)
  }

  lemma InitOf(hs: seq<Happening>, h: Happening)
    ensures (hs + [h])[..|hs + [h]| - 1] == hs && (hs + [h])[|hs + [h]| - 1] == h
  {
  }

  lemma StaysReachable(x: Server, hs: seq<Happening>, h: Happening, cooldown: real)
    requires Reachable(x, hs, cooldown)
    ensures Reachable(After(x, h, cooldown), hs + [h], cooldown)
  {
    InitOf(hs, h);
    var failed := LastFailure(hs);
    var up := if failed.Some? then failed.value + cooldown else 0.0;
    assert IsUp(x, up) && IsUp(x, x.downUntil);
    assert x.downUntil == up;
  }

  lemma ScrapeStaysMeasured(x: Server, hs: seq<Happening>, now: real, scrape: Scrape, cooldown: real)
    requires Measured(x, hs)
    ensures Measured(Scraped(x, scrape, now, cooldown), hs + [ScrapeEnded(now, scrape)])
  {
    InitOf(hs, ScrapeEnded(now, scrape));
    match scrape
    case NotConnected =>
    case Crashed =>
    case TimedOut =>
    case CutOff =>
    case Page(None) =>
    case Page(Some(_)) =>
    case ServerError =>
    case Refused =>
  }

  lemma StaysMeasured(x: Server, hs: seq<Happening>, h: Happening, cooldown: real)
    requires Measured(x, hs)
    ensures Measured(After(x, h, cooldown), hs + [h])
  {
    InitOf(hs, h);
    if h.ScrapeEnded? {
      ScrapeStaysMeasured(x, hs, h.now, h.scrape, cooldown);
    }
  }

  lemma StaysAsked(x: Server, hs: seq<Happening>, h: Happening, cooldown: real)
    requires Asked(x, hs, cooldown) && Reachable(x, hs, cooldown)
    ensures Asked(After(x, h, cooldown), hs + [h], cooldown)
  {
    InitOf(hs, h);
  }

  /** Whatever befalls a server from its beginning. */
  lemma {:induction false} LivedIsTrue(hs: seq<Happening>, cooldown: real)
    ensures IsTrue(Lived(FRESH, hs, cooldown), hs, cooldown)
  {
    if hs != [] {
      var rest, h := hs[..|hs| - 1], hs[|hs| - 1];
      var x := Lived(FRESH, rest, cooldown);
      LivedIsTrue(rest, cooldown);
      StaysReachable(x, rest, h, cooldown);
      StaysMeasured(x, rest, h, cooldown);
      StaysAsked(x, rest, h, cooldown);
      assert rest + [h] == hs;
    }
  }

  /** A server object keeps to that, whatever befalls it. */
  method LiveThrough(u: Upstream, hs: seq<Happening>, cooldown: real)
    modifies u
    ensures u.State() == Lived(old(u.State()), hs, cooldown)
    ensures ListIsCurrent(old(u.State()), hs, u.State())
    ensures old(u.State()) == FRESH ==> IsTrue(u.State(), hs, cooldown)
  {
    for i := 0 to |hs|
      invariant u.State() == Lived(old(u.State()), hs[..i], cooldown)
    {
      assert hs[..i + 1][..i] == hs[..i];
      match hs[i] {
        case MarkedDown(now, request) => u.NoteDown(now, cooldown, request);
        case ScrapeEnded(now, scrape) => u.EndScrape(scrape, now, cooldown);
        case CheckEnded(before, reply) => u.EndCheck(before, reply);
        case Forwarding(d) => u.CountForward(d);
      }
    }
    assert hs[..|hs|] == hs;
    HeldListIsCurrent(old(u.State()), hs, cooldown);
    LivedIsTrue(hs, cooldown);
  }
}
