/** The LLM router at work (infra/llm-router/llm_router.py): requests, scrapes, model probes, reloads and cancellations
    in any order, where each stretch of code between two awaits is one event. */
module RouterMachine {
  import opened Options
  import opened Upstreams
  import Lifetimes

  // ---------------------------------------------------------------- states

  /** Where a request is: not counted, in the loop of _forward between attempts, waiting for a server's response,
      answering or relaying with the server still held, answering that no server is left, or done with _forward. */
  datatype Phase =
    | Outside
    | Choosing(key: Key, model: Option<string>, tried: seq<nat>, failed: Option<nat>)
    | Sending(key: Key, model: Option<string>, tried: seq<nat>, pick: Pick)
    | Holding(u: nat)
    | Answering
    | Leaving

  /** A read of /v1/models under way: at which server, with which count of downs, and since when. */
  datatype Probe = Probe(u: nat, downs: nat, started: nat)

  /** When the server last went down (counted), when the probe started that gave its model list, and when a connection
      to it last failed. */
  datatype Mark = Mark(lastDown: nat, listFrom: nat, lastFailure: nat)

  /** servers: every server object ever made, with its address and its marks. keyless: the sends without a key that
      still count. step: the number of events so far. */
  datatype State = State(
    servers: seq<Server>, urls: seq<string>, marks: seq<Mark>, list: seq<nat>,
    inflight: int, phases: seq<Phase>, probes: map<nat, Probe>,
    now: real, step: nat, keyless: int)

  /** _choose over the list, the servers, a request's key and model, the servers it has tried, and the clock. */
  type Chooser = (seq<nat>, seq<Server>, Key, Option<string>, seq<nat>, real) -> Option<Pick>

  datatype Knobs = Knobs(choose: Chooser, cooldown: real)

  /** All that the machine needs of the choice: it fails only when every listed server was tried, and else gives a
      listed and untried one, at a listed preferred one. */
  ghost predicate Sound(k: Knobs) {
    forall list, t, key, model, tried, now ::
      var c := k.choose(list, t, key, model, tried, now);
      if c.None? then forall u :: u in list ==> u in tried
      else Untried(list, tried, c.value.u) && Untried(list, tried, c.value.pref)
           && (c.value.how.Least? <==> key.Keyless?) && (c.value.how.Sticky? ==> c.value.pref == c.value.u)
  }

  function RouterKnobs(slack: real, cooldown: real): Knobs {
    Knobs((list: seq<nat>, t: seq<Server>, key: Key, model: Option<string>, tried: seq<nat>, now: real) =>
            Choose(list, t, key, model, tried, now, slack), cooldown)
  }

  lemma RouterIsSound(slack: real, cooldown: real)
    ensures Sound(RouterKnobs(slack, cooldown))
  {
    forall list: seq<nat>, t: seq<Server>, key: Key, model: Option<string>, tried: seq<nat>, now: real {
      ChoiceIs(list, t, key, model, tried, now, slack);
    }
  }

  /** What happens to a request: it arrives, the loop chooses (and makes the request for that server, or cannot), the
      send ends in one of four ways, the answer or the relay ends, _proxy lets go of it, or it is cancelled. */
  datatype Stage =
    | Arrive(key: Key, model: Option<string>)
    | Choice(built: bool)
    | NotReached
    | BrokenOff
    | SendFailed
    | Responded
    | Finish
    | Leave
    | Cancel

  datatype Event =
    | Request(r: nat, stage: Stage)
    | EndScrape(u: nat, scrape: Scrape)
    | StartProbe(p: nat, u: nat)
    | EndProbe(p: nat, reply: Reply)
    | Reload(urls: seq<string>)
    | Tick(seconds: real)

  function Init(requests: nat): State {
    State([], [], [], [], 0, seq(requests, (i: nat) => Outside), map[], 0.0, 0, 0)
  }

  // ---------------------------------------------------------------- steps

  function To(s: State, r: nat, p: Phase): State
    requires r < |s.phases|
  {
    s.(phases := s.phases[r := p])
  }

  /** _mark_down at a server. */
  function Down(s: State, k: Knobs, u: nat, request: bool): State
    requires u < |s.servers| == |s.marks|
  {
    var before, mark := s.servers[u], s.marks[u];
    var down := if before.downNoted then mark.lastDown else s.step;
    s.(servers := s.servers[u := MarkDown(before, s.now, k.cooldown, request)],
       marks := s.marks[u := mark.(lastDown := down, lastFailure := s.step)])
  }

  function WithInflight(s: State, u: nat, d: int): State
    requires u < |s.servers|
  {
    s.(servers := s.servers[u := s.servers[u].(inflight := s.servers[u].inflight + d)])
  }

  /** The counts of a send, and of a send taken back. */
  function Counted(s: State, p: Pick, d: int): State
    requires p.u < |s.servers| && p.pref < |s.servers|
  {
    var sent := s.servers[p.u := s.servers[p.u].(sent := s.servers[p.u].sent + d)];
    s.(servers := CountPick(sent, p, d), keyless := s.keyless + if p.how.Least? then d else 0)
  }

  function RetriedAway(s: State, failed: Option<nat>): State {
    if failed.None? || failed.value >= |s.servers| then s
    else
      var x := s.servers[failed.value];
      s.(servers := s.servers[failed.value := x.(retriedAway := x.retriedAway + 1)])
  }

  /** One round of the loop of _forward. */
  function Chosen(s: State, k: Knobs, r: nat, built: bool): State
    requires Sized(s) && Sound(k) && r < |s.phases| && s.phases[r].Choosing?
  {
    var f := s.phases[r];
    var c := k.choose(s.list, s.servers, f.key, f.model, f.tried, s.now);
    if c.None? then To(s, r, Answering) else Tried(s, k, r, built, c.value)
  }

  /** What a round does with its choice: the request is made for that server, or cannot be. */
  function Tried(s: State, k: Knobs, r: nat, built: bool, p: Pick): State
    requires r < |s.phases| && s.phases[r].Choosing? && p.u < |s.servers| == |s.marks| && p.pref < |s.servers|
  {
    var f := s.phases[r];
    var again := RetriedAway(s, f.failed);
    if !built then To(Down(again, k, p.u, false), r, Choosing(f.key, f.model, f.tried + [p.u], Some(p.u)))
    else To(Counted(WithInflight(again, p.u, 1), p, 1), r, Sending(f.key, f.model, f.tried + [p.u], p))
  }

  /** No connection: the send is taken back, and the loop goes on. */
  function TakenBack(s: State, k: Knobs, r: nat): State
    requires r < |s.phases| && s.phases[r].Sending? && |s.servers| == |s.marks|
    requires s.phases[r].pick.u < |s.servers| && s.phases[r].pick.pref < |s.servers|
  {
    var f := s.phases[r];
    var u := f.pick.u;
    To(WithInflight(Down(Counted(s, f.pick, -1), k, u, true), u, -1), r, Choosing(f.key, f.model, f.tried, Some(u)))
  }

  /** The end of _forward, however it comes. */
  function Left(s: State, r: nat): State
    requires r < |s.phases|
    requires Held(s.phases[r]).Some? ==> Held(s.phases[r]).value < |s.servers|
  {
    var u := Held(s.phases[r]);
    To(if u.Some? then WithInflight(s, u.value, -1) else s, r, Leaving)
  }

  /** The server whose count of forwards the request is in. */
  function Held(p: Phase): Option<nat> {
    match p
    case Sending(_, _, _, pick) => Some(pick.u)
    case Holding(u) => Some(u)
    case _ => None
  }

  function Find(urls: seq<string>, list: seq<nat>, url: string): (r: Option<nat>)
    ensures r.Some? ==> r.value < |urls| && urls[r.value] == url
  {
    if list == [] then None
    else
      var u := list[|list| - 1];
      if u < |urls| && urls[u] == url then Some(u) else Find(urls, list[..|list| - 1], url)
  }

  /** The addresses of a new list that the old one does not have. */
  function NewUrls(urls: seq<string>, list: seq<nat>, more: seq<string>): seq<string> {
    if more == [] then []
    else
      var rest, url := NewUrls(urls, list, more[..|more| - 1]), more[|more| - 1];
      if Find(urls, list, url).Some? then rest else rest + [url]
  }

  /** The new list: the servers it shares with the old one, and new ones from number n on. */
  function NewList(urls: seq<string>, list: seq<nat>, more: seq<string>, n: nat): (r: seq<nat>)
    requires |urls| <= n
    ensures forall i :: 0 <= i < |r| ==> r[i] < n + |NewUrls(urls, list, more)|
  {
    if more == [] then []
    else
      var before := more[..|more| - 1];
      var same := Find(urls, list, more[|more| - 1]);
      NewList(urls, list, before, n) + [if same.Some? then same.value else n + |NewUrls(urls, list, before)|]
  }

  function Copies<T>(x: T, n: nat): (r: seq<T>)
    ensures |r| == n && forall i :: 0 <= i < n ==> r[i] == x
  {
    if n == 0 then [] else Copies(x, n - 1) + [x]
  }

  /** _reload: shared servers stay the objects they are. */
  function Listed(s: State, more: seq<string>): State
    requires |s.urls| <= |s.servers|
  {
    var added := NewUrls(s.urls, s.list, more);
    s.(servers := s.servers + Copies(FRESH, |added|), urls := s.urls + added,
       marks := s.marks + Copies(Mark(0, 0, 0), |added|), list := NewList(s.urls, s.list, more, |s.servers|))
  }

  /** A stage of a request, if it is in the phase for it. */
  function Handle(s: State, k: Knobs, r: nat, stage: Stage): State
    requires Sized(s) && Sound(k) && r < |s.phases|
  {
    var f := s.phases[r];
    assert PhaseIsSized(f, |s.servers|);
    match stage
    case Arrive(key, model) =>
      if f.Outside? then To(s.(inflight := s.inflight + 1), r, Choosing(key, model, [], None)) else s
    case Choice(built) => if f.Choosing? then Chosen(s, k, r, built) else s
    case NotReached => if f.Sending? then TakenBack(s, k, r) else s
    case BrokenOff => if f.Sending? then To(s, r, Holding(f.pick.u)) else s
    case SendFailed => if f.Sending? then To(Down(s, k, f.pick.u, false), r, Holding(f.pick.u)) else s
    case Responded => if f.Sending? then To(s, r, Holding(f.pick.u)) else s
    case Finish => if f.Holding? || f.Answering? then Left(s, r) else s
    case Leave => if f.Leaving? then To(s.(inflight := s.inflight - 1), r, Outside) else s
    case Cancel => if f.Outside? then s else Left(s, r)
  }

  function Scraping(s: State, k: Knobs, u: nat, scrape: Scrape): State
    requires u < |s.servers| == |s.marks|
  {
    if scrape.NotConnected? || scrape.Crashed? then Down(s, k, u, false)
    else s.(servers := s.servers[u := Scraped(s.servers[u], scrape, s.now, k.cooldown)])
  }

  function Probed(s: State, p: nat, reply: Reply): State
    requires Sized(s) && p in s.probes
  {
    var probe := s.probes[p];
    var before, mark := s.servers[probe.u], s.marks[probe.u];
    s.(probes := s.probes - {p},
       servers := s.servers[probe.u := Checked(before, probe.downs, reply)],
       marks := s.marks[probe.u := if before.downs == probe.downs && reply.List?
                                   then mark.(listFrom := probe.started) else mark])
  }

  function Do(s: State, k: Knobs, e: Event): State
    requires Sized(s) && Sound(k)
  {
    match e
    case Request(r, stage) => if r < |s.phases| then Handle(s, k, r, stage) else s
    case EndScrape(u, scrape) => if u < |s.servers| then Scraping(s, k, u, scrape) else s
    case StartProbe(p, u) =>
      if u < |s.servers| && p !in s.probes then s.(probes := s.probes[p := Probe(u, s.servers[u].downs, s.step)]) else s
    case EndProbe(p, reply) => if p in s.probes then Probed(s, p, reply) else s
    case Reload(urls) => if urls == [] then s else Listed(s, urls)
    case Tick(seconds) => if seconds >= 0.0 then s.(now := s.now + seconds) else s
  }

  /** The clock of the run. */
  function Advanced(s: State): State { s.(step := s.step + 1) }

  function Next(s: State, k: Knobs, e: Event): (r: State)
    requires Sized(s) && Sound(k)
    ensures Sized(r)
  {
    DoKeepsSized(Advanced(s), k, e);
    Do(Advanced(s), k, e)
  }

  function Run(s: State, k: Knobs, events: seq<Event>): (r: State)
    requires Sized(s) && Sound(k)
    ensures Sized(r)
  {
    if events == [] then s else Next(Run(s, k, events[..|events| - 1]), k, events[|events| - 1])
  }

  /** Every server that is mentioned exists. */
  ghost predicate Sized(s: State) {
    && |s.servers| == |s.urls| == |s.marks|
    && (forall i :: 0 <= i < |s.list| ==> s.list[i] < |s.servers|)
    && (forall r :: 0 <= r < |s.phases| ==> PhaseIsSized(s.phases[r], |s.servers|))
    && (forall p :: p in s.probes ==> s.probes[p].u < |s.servers|)
  }

  ghost predicate PhaseIsSized(p: Phase, n: nat) {
    match p
    case Sending(_, _, _, pick) => pick.u < n && pick.pref < n
    case Holding(u) => u < n
    case _ => true
  }

  lemma PhasesStaySized(phases: seq<Phase>, n: nat, m: nat)
    requires n <= m && forall r :: 0 <= r < |phases| ==> PhaseIsSized(phases[r], n)
    ensures forall r :: 0 <= r < |phases| ==> PhaseIsSized(phases[r], m)
  {
  }

  lemma ListedIsSized(s: State, more: seq<string>)
    requires Sized(s)
    ensures Sized(Listed(s, more))
  {
    PhasesStaySized(s.phases, |s.servers|, |s.servers| + |NewUrls(s.urls, s.list, more)|);
  }

  lemma ToIsSized(s: State, r: nat, p: Phase)
    requires Sized(s) && r < |s.phases| && PhaseIsSized(p, |s.servers|)
    ensures Sized(To(s, r, p))
  {
  }

  /** Only the tables of servers and marks change, not their length. */
  lemma SameSizeIsSized(s: State, t: State)
    requires Sized(s) && |t.servers| == |s.servers| && |t.marks| == |s.marks|
    requires t.urls == s.urls && t.list == s.list && t.phases == s.phases && t.probes == s.probes
    ensures Sized(t)
  {
  }

  lemma TriedIsSized(s: State, k: Knobs, r: nat, built: bool, p: Pick)
    requires Sized(s) && r < |s.phases| && s.phases[r].Choosing? && p.u < |s.servers| && p.pref < |s.servers|
    ensures Sized(Tried(s, k, r, built, p))
  {
    var f := s.phases[r];
    var again := RetriedAway(s, f.failed);
    SameSizeIsSized(s, again);
    if built {
      var sent := Counted(WithInflight(again, p.u, 1), p, 1);
      SameSizeIsSized(again, sent);
      ToIsSized(sent, r, Sending(f.key, f.model, f.tried + [p.u], p));
    } else {
      var down := Down(again, k, p.u, false);
      SameSizeIsSized(again, down);
      ToIsSized(down, r, Choosing(f.key, f.model, f.tried + [p.u], Some(p.u)));
    }
  }

  lemma TakenBackIsSized(s: State, k: Knobs, r: nat)
    requires Sized(s) && r < |s.phases| && s.phases[r].Sending?
    ensures PhaseIsSized(s.phases[r], |s.servers|) && Sized(TakenBack(s, k, r))
  {
    var f := s.phases[r];
    var t := WithInflight(Down(Counted(s, f.pick, -1), k, f.pick.u, true), f.pick.u, -1);
    SameSizeIsSized(s, t);
    ToIsSized(t, r, Choosing(f.key, f.model, f.tried, Some(f.pick.u)));
  }

  lemma LeftIsSized(s: State, r: nat)
    requires Sized(s) && r < |s.phases|
    ensures PhaseIsSized(s.phases[r], |s.servers|) && Sized(Left(s, r))
  {
    var u := Held(s.phases[r]);
    if u.Some? {
      SameSizeIsSized(s, WithInflight(s, u.value, -1));
      ToIsSized(WithInflight(s, u.value, -1), r, Leaving);
    }
  }

  lemma HandleKeepsSized(s: State, k: Knobs, r: nat, stage: Stage)
    requires Sized(s) && Sound(k) && r < |s.phases|
    ensures Sized(Handle(s, k, r, stage))
  {
    var f := s.phases[r];
    assert PhaseIsSized(f, |s.servers|);
    match stage
    case Choice(built) =>
      if f.Choosing? {
        var c := k.choose(s.list, s.servers, f.key, f.model, f.tried, s.now);
        if c.Some? {
          TriedIsSized(s, k, r, built, c.value);
        }
      }
    case NotReached => if f.Sending? { TakenBackIsSized(s, k, r); }
    case SendFailed => if f.Sending? { SameSizeIsSized(s, Down(s, k, f.pick.u, false)); }
    case Finish => LeftIsSized(s, r);
    case Cancel => LeftIsSized(s, r);
    case _ =>
  }

  lemma DoKeepsSized(s: State, k: Knobs, e: Event)
    requires Sized(s) && Sound(k)
    ensures Sized(Do(s, k, e))
  {
    match e
    case Request(r, stage) => if r < |s.phases| { HandleKeepsSized(s, k, r, stage); }
    case EndScrape(u, scrape) => if u < |s.servers| { SameSizeIsSized(s, Scraping(s, k, u, scrape)); }
    case Reload(urls) => ListedIsSized(s, urls);
    case _ =>
  }

  // ---------------------------------------------------------------- counts

  function One(b: bool): int { if b then 1 else 0 }

  /** How many requests are in a forward at server u. */
  function CountHeld(phases: seq<Phase>, u: nat): int {
    if phases == [] then 0 else CountHeld(phases[..|phases| - 1], u) + One(Held(phases[|phases| - 1]) == Some(u))
  }

  /** How many requests are counted by the router. */
  function CountIn(phases: seq<Phase>): int {
    if phases == [] then 0 else CountIn(phases[..|phases| - 1]) + One(!phases[|phases| - 1].Outside?)
  }

  lemma {:induction false} CountHeldUpdate(phases: seq<Phase>, r: nat, p: Phase, u: nat)
    requires r < |phases|
    ensures CountHeld(phases[r := p], u)
         == CountHeld(phases, u) - One(Held(phases[r]) == Some(u)) + One(Held(p) == Some(u))
  {
    var n := |phases| - 1;
    if r < n {
      assert phases[r := p][..n] == phases[..n][r := p];
      CountHeldUpdate(phases[..n], r, p, u);
    } else {
      assert phases[r := p][..n] == phases[..n];
    }
  }

  lemma {:induction false} CountInUpdate(phases: seq<Phase>, r: nat, p: Phase)
    requires r < |phases|
    ensures CountIn(phases[r := p]) == CountIn(phases) - One(!phases[r].Outside?) + One(!p.Outside?)
  {
    var n := |phases| - 1;
    if r < n {
      assert phases[r := p][..n] == phases[..n][r := p];
      CountInUpdate(phases[..n], r, p);
    } else {
      assert phases[r := p][..n] == phases[..n];
    }
  }

  /** What a server's counts leave unexplained: sends neither sticky nor overflow. */
  function NetOf(s: Server): int { s.sent - s.sticky - s.overflow }

  function Net(t: seq<Server>): int { if t == [] then 0 else Net(t[..|t| - 1]) + NetOf(t[|t| - 1]) }

  lemma {:induction false} NetUpdate(t: seq<Server>, u: nat, x: Server)
    requires u < |t|
    ensures Net(t[u := x]) == Net(t) - NetOf(t[u]) + NetOf(x)
  {
    var n := |t| - 1;
    if u < n {
      assert t[u := x][..n] == t[..n][u := x];
      NetUpdate(t[..n], u, x);
    } else {
      assert t[u := x][..n] == t[..n];
    }
  }

  ghost predicate ServersCount(t: seq<Server>, phases: seq<Phase>, keyless: int) {
    (forall u :: 0 <= u < |t| ==> t[u].inflight == CountHeld(phases, u)) && Net(t) == keyless
  }

  ghost predicate Counts(s: State) { ServersCount(s.servers, s.phases, s.keyless) && s.inflight == CountIn(s.phases) }

  /** The counts of t against those of s: at server u one forward more by d, and what is unexplained is explained by
      the keyless sends. */
  ghost predicate Shift(s: State, t: State, u: nat, d: int) {
    && |t.servers| == |s.servers| && t.phases == s.phases && t.inflight == s.inflight
    && (forall v :: 0 <= v < |s.servers| ==> t.servers[v].inflight == s.servers[v].inflight + if v == u then d else 0)
    && Net(t.servers) - Net(s.servers) == t.keyless - s.keyless
  }

  lemma ShiftTwice(s: State, m: State, t: State, u: nat, d: int, e: int)
    requires Shift(s, m, u, d) && Shift(m, t, u, e)
    ensures Shift(s, t, u, d + e)
  {
  }

  lemma DownShifts(s: State, k: Knobs, u: nat, request: bool)
    requires u < |s.servers| == |s.marks|
    ensures Shift(s, Down(s, k, u, request), u, 0)
  {
    NetUpdate(s.servers, u, MarkDown(s.servers[u], s.now, k.cooldown, request));
  }

  lemma InflightShifts(s: State, u: nat, d: int)
    requires u < |s.servers|
    ensures Shift(s, WithInflight(s, u, d), u, d)
  {
    NetUpdate(s.servers, u, s.servers[u].(inflight := s.servers[u].inflight + d));
  }

  lemma AwayShifts(s: State, failed: Option<nat>, u: nat)
    ensures Shift(s, RetriedAway(s, failed), u, 0)
  {
    if failed.Some? && failed.value < |s.servers| {
      var x := s.servers[failed.value];
      NetUpdate(s.servers, failed.value, x.(retriedAway := x.retriedAway + 1));
    }
  }

  lemma CountPickNet(t: seq<Server>, p: Pick, d: int)
    requires p.u < |t| && p.pref < |t|
    ensures var c := CountPick(t, p, d);
            && |c| == |t| && Net(c) == Net(t) - (if p.how.Least? then 0 else d)
            && forall v :: 0 <= v < |t| ==> c[v].inflight == t[v].inflight
  {
    match p.how
    case Least =>
    case Sticky => NetUpdate(t, p.u, t[p.u].(sticky := t[p.u].sticky + d));
    case Overflow => NetUpdate(t, p.pref, t[p.pref].(overflow := t[p.pref].overflow + d));
  }

  lemma SentNet(t: seq<Server>, p: Pick, d: int)
    requires p.u < |t| && p.pref < |t|
    ensures var c := CountPick(t[p.u := t[p.u].(sent := t[p.u].sent + d)], p, d);
            && |c| == |t| && Net(c) == Net(t) + (if p.how.Least? then d else 0)
            && forall v :: 0 <= v < |t| ==> c[v].inflight == t[v].inflight
  {
    var x := t[p.u].(sent := t[p.u].sent + d);
    NetUpdate(t, p.u, x);
    CountPickNet(t[p.u := x], p, d);
  }

  lemma CountedShifts(s: State, p: Pick, d: int)
    requires p.u < |s.servers| && p.pref < |s.servers|
    ensures Shift(s, Counted(s, p, d), p.u, 0)
  {
    SentNet(s.servers, p, d);
  }

  /** A request that moves from one phase to another takes its counts with it. */
  lemma MoveKeepsCounts(s: State, t: State, r: nat, p: Phase, u: nat)
    requires Counts(s) && r < |s.phases|
    requires Shift(s, t, u, One(Held(p) == Some(u)) - One(Held(s.phases[r]) == Some(u)))
    requires forall v :: v != u ==> Held(p) != Some(v) && Held(s.phases[r]) != Some(v)
    ensures Counts(To(t, r, p).(inflight := s.inflight + One(!p.Outside?) - One(!s.phases[r].Outside?)))
  {
    forall v | 0 <= v < |s.servers|
      ensures t.servers[v].inflight == CountHeld(s.phases[r := p], v)
    {
      CountHeldUpdate(s.phases, r, p, v);
    }
    CountInUpdate(s.phases, r, p);
  }

  lemma MadeKeepsCounts(s: State, k: Knobs, r: nat, p: Pick)
    requires Sized(s) && Counts(s) && r < |s.phases| && s.phases[r].Choosing?
    requires p.u < |s.servers| && p.pref < |s.servers|
    ensures Counts(Tried(s, k, r, true, p))
  {
    var f := s.phases[r];
    var again := RetriedAway(s, f.failed);
    var more := WithInflight(again, p.u, 1);
    AwayShifts(s, f.failed, p.u);
    InflightShifts(again, p.u, 1);
    CountedShifts(more, p, 1);
    ShiftTwice(s, again, more, p.u, 0, 1);
    ShiftTwice(s, more, Counted(more, p, 1), p.u, 1, 0);
    MoveKeepsCounts(s, Counted(more, p, 1), r, Sending(f.key, f.model, f.tried + [p.u], p), p.u);
  }

  lemma NotMadeKeepsCounts(s: State, k: Knobs, r: nat, p: Pick)
    requires Sized(s) && Counts(s) && r < |s.phases| && s.phases[r].Choosing?
    requires p.u < |s.servers| && p.pref < |s.servers|
    ensures Counts(Tried(s, k, r, false, p))
  {
    var f := s.phases[r];
    var again := RetriedAway(s, f.failed);
    AwayShifts(s, f.failed, p.u);
    DownShifts(again, k, p.u, false);
    ShiftTwice(s, again, Down(again, k, p.u, false), p.u, 0, 0);
    MoveKeepsCounts(s, Down(again, k, p.u, false), r, Choosing(f.key, f.model, f.tried + [p.u], Some(p.u)), p.u);
  }

  lemma TriedKeepsCounts(s: State, k: Knobs, r: nat, built: bool, p: Pick)
    requires Sized(s) && Counts(s) && r < |s.phases| && s.phases[r].Choosing?
    requires p.u < |s.servers| && p.pref < |s.servers|
    ensures Counts(Tried(s, k, r, built, p))
  {
    if built {
      MadeKeepsCounts(s, k, r, p);
    } else {
      NotMadeKeepsCounts(s, k, r, p);
    }
  }

  lemma TakenBackKeepsCounts(s: State, k: Knobs, r: nat)
    requires Sized(s) && Counts(s) && r < |s.phases| && s.phases[r].Sending?
    ensures PhaseIsSized(s.phases[r], |s.servers|) && Counts(TakenBack(s, k, r))
  {
    var f := s.phases[r];
    var u := f.pick.u;
    var back := Counted(s, f.pick, -1);
    var down := Down(back, k, u, true);
    CountedShifts(s, f.pick, -1);
    DownShifts(back, k, u, true);
    InflightShifts(down, u, -1);
    ShiftTwice(s, back, down, u, 0, 0);
    ShiftTwice(s, down, WithInflight(down, u, -1), u, 0, -1);
    MoveKeepsCounts(s, WithInflight(down, u, -1), r, Choosing(f.key, f.model, f.tried, Some(u)), u);
  }

  lemma LeftKeepsCounts(s: State, r: nat)
    requires Sized(s) && Counts(s) && r < |s.phases| && !s.phases[r].Outside?
    ensures PhaseIsSized(s.phases[r], |s.servers|) && Counts(Left(s, r))
  {
    var u := Held(s.phases[r]);
    if u.Some? {
      InflightShifts(s, u.value, -1);
      MoveKeepsCounts(s, WithInflight(s, u.value, -1), r, Leaving, u.value);
    } else {
      MoveKeepsCounts(s, s, r, Leaving, 0);
    }
  }

  /** The ways a send can end. */
  lemma EndedKeepsCounts(s: State, k: Knobs, r: nat, stage: Stage)
    requires Sized(s) && Sound(k) && Counts(s) && r < |s.phases| && s.phases[r].Sending?
    requires stage.NotReached? || stage.BrokenOff? || stage.SendFailed? || stage.Responded?
    ensures Counts(Handle(s, k, r, stage))
  {
    var f := s.phases[r];
    assert PhaseIsSized(f, |s.servers|);
    if stage.NotReached? {
      TakenBackKeepsCounts(s, k, r);
    } else if stage.SendFailed? {
      DownShifts(s, k, f.pick.u, false);
      MoveKeepsCounts(s, Down(s, k, f.pick.u, false), r, Holding(f.pick.u), f.pick.u);
    } else {
      MoveKeepsCounts(s, s, r, Holding(f.pick.u), f.pick.u);
    }
  }

  lemma HandleKeepsCounts(s: State, k: Knobs, r: nat, stage: Stage)
    requires Sized(s) && Sound(k) && Counts(s) && r < |s.phases|
    ensures Counts(Handle(s, k, r, stage))
  {
    var f := s.phases[r];
    assert PhaseIsSized(f, |s.servers|);
    match stage
    case Arrive(key, model) => if f.Outside? { MoveKeepsCounts(s, s, r, Choosing(key, model, [], None), 0); }
    case Choice(built) =>
      if f.Choosing? {
        var c := k.choose(s.list, s.servers, f.key, f.model, f.tried, s.now);
        if c.Some? {
          TriedKeepsCounts(s, k, r, built, c.value);
        } else {
          MoveKeepsCounts(s, s, r, Answering, 0);
        }
      }
    case NotReached => if f.Sending? { EndedKeepsCounts(s, k, r, stage); }
    case BrokenOff => if f.Sending? { EndedKeepsCounts(s, k, r, stage); }
    case SendFailed => if f.Sending? { EndedKeepsCounts(s, k, r, stage); }
    case Responded => if f.Sending? { EndedKeepsCounts(s, k, r, stage); }
    case Finish => if f.Holding? || f.Answering? { LeftKeepsCounts(s, r); }
    case Leave => if f.Leaving? { MoveKeepsCounts(s, s, r, Outside, 0); }
    case Cancel => if !f.Outside? { LeftKeepsCounts(s, r); }
  }

  lemma SameCounts(s: State, t: State, u: nat)
    requires Counts(s) && Shift(s, t, u, 0)
    ensures Counts(t)
  {
  }

  /** No forward is in a server that was not there. */
  lemma {:induction false} NoneHeld(phases: seq<Phase>, n: nat, u: nat)
    requires (forall r :: 0 <= r < |phases| ==> PhaseIsSized(phases[r], n)) && n <= u
    ensures CountHeld(phases, u) == 0
  {
    if phases != [] {
      assert PhaseIsSized(phases[|phases| - 1], n);
      NoneHeld(phases[..|phases| - 1], n, u);
    }
  }

  lemma {:induction false} NetOfFresh(t: seq<Server>, n: nat, x: Server)
    requires NetOf(x) == 0
    ensures Net(t + Copies(x, n)) == Net(t)
  {
    if n == 0 {
      assert t + Copies(x, 0) == t;
    } else {
      var more := t + Copies(x, n - 1);
      assert t + Copies(x, n) == more + [x];
      assert (more + [x])[..|more|] == more;
      NetOfFresh(t, n - 1, x);
    }
  }

  /** A new server object starts with no forward in it. */
  lemma NewKeepCounts(t: seq<Server>, more: seq<Server>, phases: seq<Phase>, keyless: int)
    requires ServersCount(t, phases, keyless) && forall r :: 0 <= r < |phases| ==> PhaseIsSized(phases[r], |t|)
    requires |t| <= |more| && (forall u :: 0 <= u < |t| ==> more[u] == t[u]) && Net(more) == Net(t)
    requires forall u :: |t| <= u < |more| ==> more[u].inflight == 0
    ensures ServersCount(more, phases, keyless)
  {
    forall u: nat | |t| <= u
      ensures CountHeld(phases, u) == 0
    {
      NoneHeld(phases, |t|, u);
    }
  }

  lemma ListedAdds(s: State, more: seq<string>) returns (n: nat)
    requires |s.urls| <= |s.servers|
    ensures var t := Listed(s, more);
            && t.servers == s.servers + Copies(FRESH, n)
            && t.phases == s.phases && t.keyless == s.keyless && t.inflight == s.inflight
  {
    n := |NewUrls(s.urls, s.list, more)|;
  }

  lemma ListedKeepsCounts(s: State, more: seq<string>)
    requires Sized(s) && Counts(s)
    ensures Counts(Listed(s, more))
  {
    var n := ListedAdds(s, more);
    CopiesKeepCounts(s.servers, s.phases, s.keyless, n, FRESH);
  }

  lemma CopiesKeepCounts(t: seq<Server>, phases: seq<Phase>, keyless: int, n: nat, x: Server)
    requires ServersCount(t, phases, keyless) && forall r :: 0 <= r < |phases| ==> PhaseIsSized(phases[r], |t|)
    requires x.inflight == 0 && NetOf(x) == 0
    ensures ServersCount(t + Copies(x, n), phases, keyless)
  {
    NetOfFresh(t, n, x);
    NewKeepCounts(t, t + Copies(x, n), phases, keyless);
  }

  lemma DoKeepsCounts(s: State, k: Knobs, e: Event)
    requires Sized(s) && Sound(k) && Counts(s)
    ensures Counts(Do(s, k, e))
  {
    match e
    case Request(r, stage) => if r < |s.phases| { HandleKeepsCounts(s, k, r, stage); }
    case EndScrape(u, scrape) => if u < |s.servers| { ScrapingKeepsCounts(s, k, u, scrape); }
    case EndProbe(p, reply) => if p in s.probes { ProbedKeepsCounts(s, p, reply); }
    case Reload(urls) => ListedKeepsCounts(s, urls);
    case _ =>
  }

  lemma ScrapedCounts(x: Server, scrape: Scrape, now: real, cooldown: real)
    ensures var y := Scraped(x, scrape, now, cooldown); NetOf(y) == NetOf(x) && y.inflight == x.inflight
  {
  }

  lemma ScrapeShifts(s: State, k: Knobs, u: nat, scrape: Scrape)
    requires u < |s.servers| == |s.marks| && !scrape.NotConnected? && !scrape.Crashed?
    ensures Shift(s, Scraping(s, k, u, scrape), u, 0)
  {
    ScrapedCounts(s.servers[u], scrape, s.now, k.cooldown);
    NetUpdate(s.servers, u, Scraped(s.servers[u], scrape, s.now, k.cooldown));
  }

  lemma ScrapingKeepsCounts(s: State, k: Knobs, u: nat, scrape: Scrape)
    requires Sized(s) && Counts(s) && u < |s.servers|
    ensures Counts(Scraping(s, k, u, scrape))
  {
    if scrape.NotConnected? || scrape.Crashed? {
      DownShifts(s, k, u, false);
    } else {
      ScrapeShifts(s, k, u, scrape);
    }
    SameCounts(s, Scraping(s, k, u, scrape), u);
  }

  lemma ProbedKeepsCounts(s: State, p: nat, reply: Reply)
    requires Sized(s) && Counts(s) && p in s.probes
    ensures Counts(Probed(s, p, reply))
  {
    var probe := s.probes[p];
    NetUpdate(s.servers, probe.u, Checked(s.servers[probe.u], probe.downs, reply));
    SameCounts(s, Probed(s, p, reply), probe.u);
  }

  // ---------------------------------------------------------------- counts over whole runs

  function SumInflight(t: seq<Server>): int { if t == [] then 0 else SumInflight(t[..|t| - 1]) + t[|t| - 1].inflight }

  function SumSent(t: seq<Server>): int { if t == [] then 0 else SumSent(t[..|t| - 1]) + t[|t| - 1].sent }

  function SumSticky(t: seq<Server>): int { if t == [] then 0 else SumSticky(t[..|t| - 1]) + t[|t| - 1].sticky }

  function SumOverflow(t: seq<Server>): int { if t == [] then 0 else SumOverflow(t[..|t| - 1]) + t[|t| - 1].overflow }

  lemma {:induction false} NetIs(t: seq<Server>)
    ensures Net(t) == SumSent(t) - SumSticky(t) - SumOverflow(t)
  {
    if t != [] {
      NetIs(t[..|t| - 1]);
    }
  }

  /** The requests held by the servers below n. */
  function HeldBelow(phases: seq<Phase>, n: nat): int {
    if n == 0 then 0 else HeldBelow(phases, n - 1) + CountHeld(phases, n - 1)
  }

  lemma {:induction false} HeldBelowSnoc(phases: seq<Phase>, n: nat)
    requires phases != []
    ensures var h := Held(phases[|phases| - 1]);
            HeldBelow(phases, n) == HeldBelow(phases[..|phases| - 1], n) + One(h.Some? && h.value < n)
  {
    if n > 0 {
      HeldBelowSnoc(phases, n - 1);
    }
  }

  /** Each request is held by one server at most, and only while it is counted. */
  lemma {:induction false} HeldIsIn(phases: seq<Phase>, n: nat)
    ensures 0 <= HeldBelow(phases, n) <= CountIn(phases)
  {
    if phases != [] {
      HeldIsIn(phases[..|phases| - 1], n);
      HeldBelowSnoc(phases, n);
    } else {
      NothingHeld(n);
    }
  }

  lemma {:induction false} NothingHeld(n: nat)
    ensures HeldBelow([], n) == 0
  {
    if n > 0 {
      NothingHeld(n - 1);
    }
  }

  lemma {:induction false} SumIsHeld(t: seq<Server>, phases: seq<Phase>)
    requires forall u :: 0 <= u < |t| ==> t[u].inflight == CountHeld(phases, u)
    ensures SumInflight(t) == HeldBelow(phases, |t|)
  {
    if t != [] {
      SumIsHeld(t[..|t| - 1], phases);
    }
  }

  lemma InitIsSized(n: nat)
    ensures Sized(Init(n))
  {
  }

  lemma {:induction false} NothingIn(phases: seq<Phase>)
    requires forall i :: 0 <= i < |phases| ==> phases[i].Outside?
    ensures CountIn(phases) == 0
  {
    if phases != [] {
      NothingIn(phases[..|phases| - 1]);
    }
  }

  lemma {:induction false} RunIsCounted(n: nat, k: Knobs, events: seq<Event>)
    requires Sound(k)
    ensures Sized(Init(n)) && Counts(Run(Init(n), k, events))
  {
    InitIsSized(n);
    if events == [] {
      NothingIn(Init(n).phases);
    } else {
      RunIsCounted(n, k, events[..|events| - 1]);
      DoKeepsCounts(Advanced(Run(Init(n), k, events[..|events| - 1])), k, events[|events| - 1]);
    }
  }

  // ---------------------------------------------------------------- tallies

  /** What the router counts of sends: at a server, sticky ones to it, overflows from it, those without a key,
      connections of requests to it that failed, and requests that went on from it to another. */
  datatype Tally =
    | Sends(u: nat) | Stickies(u: nat) | Overflows(u: nat) | Keyless
    | Failures(u: nat) | Retries(u: nat)

  function TallyOf(s: State, q: Tally): int {
    match q
    case Sends(u) => At(s.servers, u).sent
    case Stickies(u) => At(s.servers, u).sticky
    case Overflows(u) => At(s.servers, u).overflow
    case Keyless => s.keyless
    case Failures(u) => At(s.servers, u).connectFail
    case Retries(u) => At(s.servers, u).retriedAway
  }

  /** Does a send of that pick belong to the tally? */
  predicate Belongs(p: Pick, q: Tally) {
    match q
    case Sends(u) => p.u == u
    case Stickies(u) => p.how.Sticky? && p.u == u
    case Overflows(u) => p.how.Overflow? && p.pref == u
    case Keyless => p.how.Least?
    case _ => false
  }

  /** How many sends of the tally still wait for their server. */
  function Underway(phases: seq<Phase>, q: Tally): int {
    if phases == [] then 0
    else
      var last := phases[|phases| - 1];
      Underway(phases[..|phases| - 1], q) + One(last.Sending? && Belongs(last.pick, q))
  }

  /** The event counts for good: a send of the tally that is not known to have missed its server ends, a connection
      fails, or the loop goes on to another server. */
  predicate CountsFor(s: State, k: Knobs, e: Event, q: Tally) {
    && e.Request? && e.r < |s.phases|
    && var f := s.phases[e.r];
       match e.stage
       case BrokenOff => f.Sending? && Belongs(f.pick, q)
       case SendFailed => f.Sending? && Belongs(f.pick, q)
       case Responded => f.Sending? && Belongs(f.pick, q)
       case Cancel => f.Sending? && Belongs(f.pick, q)
       case NotReached => f.Sending? && q == Failures(f.pick.u)
       case Choice(_) =>
         && f.Choosing? && k.choose(s.list, s.servers, f.key, f.model, f.tried, s.now).Some?
         && f.failed.Some? && f.failed.value < |s.servers| && q == Retries(f.failed.value)
       case _ => false
  }

  function CountedIn(s: State, k: Knobs, events: seq<Event>, q: Tally): nat
    requires Sized(s) && Sound(k)
  {
    if events == [] then 0
    else
      var before := events[..|events| - 1];
      CountedIn(s, k, before, q) + if CountsFor(Run(s, k, before), k, events[|events| - 1], q) then 1 else 0
  }

  lemma {:induction false} UnderwayUpdate(phases: seq<Phase>, r: nat, p: Phase, q: Tally)
    requires r < |phases|
    ensures Underway(phases[r := p], q)
         == Underway(phases, q) - One(phases[r].Sending? && Belongs(phases[r].pick, q))
            + One(p.Sending? && Belongs(p.pick, q))
  {
    var n := |phases| - 1;
    if r < n {
      assert phases[r := p][..n] == phases[..n][r := p];
      UnderwayUpdate(phases[..n], r, p, q);
    } else {
      assert phases[r := p][..n] == phases[..n];
    }
  }

  lemma {:induction false} NoneUnderway(phases: seq<Phase>, q: Tally)
    requires forall i :: 0 <= i < |phases| ==> phases[i].Outside?
    ensures Underway(phases, q) == 0
  {
    if phases != [] {
      NoneUnderway(phases[..|phases| - 1], q);
    }
  }

  /** A tally less what is still under way. */
  function Settled(s: State, q: Tally): int { TallyOf(s, q) - Underway(s.phases, q) }

  lemma DownTally(s: State, k: Knobs, u: nat, request: bool, q: Tally)
    requires u < |s.servers| == |s.marks|
    ensures TallyOf(Down(s, k, u, request), q) == TallyOf(s, q) + One(request && q == Failures(u))
  {
  }

  lemma InflightTally(s: State, u: nat, d: int, q: Tally)
    requires u < |s.servers|
    ensures TallyOf(WithInflight(s, u, d), q) == TallyOf(s, q)
  {
  }

  lemma AwayTally(s: State, failed: Option<nat>, q: Tally)
    ensures TallyOf(RetriedAway(s, failed), q)
         == TallyOf(s, q) + One(failed.Some? && failed.value < |s.servers| && q == Retries(failed.value))
  {
  }

  lemma CountedTally(s: State, p: Pick, d: int, q: Tally)
    requires p.u < |s.servers| && p.pref < |s.servers|
    ensures TallyOf(Counted(s, p, d), q) == TallyOf(s, q) + if Belongs(p, q) then d else 0
  {
  }

  lemma MoveTally(s: State, r: nat, p: Phase, q: Tally)
    requires r < |s.phases|
    ensures var f := s.phases[r];
            Settled(To(s, r, p), q)
              == Settled(s, q) + One(f.Sending? && Belongs(f.pick, q)) - One(p.Sending? && Belongs(p.pick, q))
  {
    UnderwayUpdate(s.phases, r, p, q);
  }

  lemma TriedTally(s: State, k: Knobs, r: nat, built: bool, p: Pick, q: Tally)
    requires Sized(s) && r < |s.phases| && s.phases[r].Choosing? && p.u < |s.servers| && p.pref < |s.servers|
    ensures var failed := s.phases[r].failed;
            Settled(Tried(s, k, r, built, p), q)
              == Settled(s, q) + One(failed.Some? && failed.value < |s.servers| && q == Retries(failed.value))
  {
    var f := s.phases[r];
    var again := RetriedAway(s, f.failed);
    AwayTally(s, f.failed, q);
    if built {
      var more := WithInflight(again, p.u, 1);
      InflightTally(again, p.u, 1, q);
      CountedTally(more, p, 1, q);
      MoveTally(Counted(more, p, 1), r, Sending(f.key, f.model, f.tried + [p.u], p), q);
    } else {
      DownTally(again, k, p.u, false, q);
      MoveTally(Down(again, k, p.u, false), r, Choosing(f.key, f.model, f.tried + [p.u], Some(p.u)), q);
    }
  }

  /** A send that is taken back leaves its tallies as if it had never been. */
  lemma TakenBackTally(s: State, k: Knobs, r: nat, q: Tally)
    requires Sized(s) && r < |s.phases| && s.phases[r].Sending?
    ensures PhaseIsSized(s.phases[r], |s.servers|)
    ensures Settled(TakenBack(s, k, r), q) == Settled(s, q) + One(q == Failures(s.phases[r].pick.u))
  {
    var f := s.phases[r];
    var u := f.pick.u;
    var back := Counted(s, f.pick, -1);
    var down := Down(back, k, u, true);
    CountedTally(s, f.pick, -1, q);
    DownTally(back, k, u, true, q);
    InflightTally(down, u, -1, q);
    MoveTally(WithInflight(down, u, -1), r, Choosing(f.key, f.model, f.tried, Some(u)), q);
  }

  lemma LeftTally(s: State, r: nat, q: Tally)
    requires Sized(s) && r < |s.phases|
    ensures PhaseIsSized(s.phases[r], |s.servers|)
    ensures var f := s.phases[r]; Settled(Left(s, r), q) == Settled(s, q) + One(f.Sending? && Belongs(f.pick, q))
  {
    var u := Held(s.phases[r]);
    if u.Some? {
      InflightTally(s, u.value, -1, q);
      MoveTally(WithInflight(s, u.value, -1), r, Leaving, q);
    } else {
      MoveTally(s, r, Leaving, q);
    }
  }

  lemma HandleTallies(s: State, k: Knobs, r: nat, stage: Stage, q: Tally)
    requires Sized(s) && Sound(k) && r < |s.phases|
    ensures Settled(Handle(s, k, r, stage), q) == Settled(s, q) + One(CountsFor(s, k, Request(r, stage), q))
  {
    var f := s.phases[r];
    assert PhaseIsSized(f, |s.servers|);
    match stage
    case Arrive(key, model) => MoveTally(s, r, Choosing(key, model, [], None), q);
    case Choice(built) =>
      if f.Choosing? {
        var c := k.choose(s.list, s.servers, f.key, f.model, f.tried, s.now);
        if c.Some? {
          TriedTally(s, k, r, built, c.value, q);
        } else {
          MoveTally(s, r, Answering, q);
        }
      }
    case NotReached => if f.Sending? { TakenBackTally(s, k, r, q); }
    case BrokenOff => if f.Sending? { MoveTally(s, r, Holding(f.pick.u), q); }
    case SendFailed =>
      if f.Sending? {
        DownTally(s, k, f.pick.u, false, q);
        MoveTally(Down(s, k, f.pick.u, false), r, Holding(f.pick.u), q);
      }
    case Responded => if f.Sending? { MoveTally(s, r, Holding(f.pick.u), q); }
    case Finish => LeftTally(s, r, q);
    case Leave => MoveTally(s, r, Outside, q);
    case Cancel => LeftTally(s, r, q);
  }

  lemma ScrapingTally(s: State, k: Knobs, u: nat, scrape: Scrape, q: Tally)
    requires u < |s.servers| == |s.marks|
    ensures Settled(Scraping(s, k, u, scrape), q) == Settled(s, q)
  {
    if scrape.NotConnected? || scrape.Crashed? {
      DownTally(s, k, u, false, q);
    } else {
      SameFigures(s, u, Scraped(s.servers[u], scrape, s.now, k.cooldown), q);
    }
  }

  lemma ProbedTally(s: State, p: nat, reply: Reply, q: Tally)
    requires Sized(s) && p in s.probes
    ensures Settled(Probed(s, p, reply), q) == Settled(s, q)
  {
    var probe := s.probes[p];
    SameFigures(s, probe.u, Checked(s.servers[probe.u], probe.downs, reply), q);
  }

  /** Server u changes, but for its counts of sends. */
  lemma SameFigures(s: State, u: nat, x: Server, q: Tally)
    requires u < |s.servers| && x.sent == s.servers[u].sent && x.sticky == s.servers[u].sticky
    requires x.overflow == s.servers[u].overflow && x.connectFail == s.servers[u].connectFail
    requires x.retriedAway == s.servers[u].retriedAway
    ensures TallyOf(s.(servers := s.servers[u := x]), q) == TallyOf(s, q)
  {
  }

  lemma ListedTally(s: State, more: seq<string>, q: Tally)
    requires Sized(s)
    ensures Settled(Listed(s, more), q) == Settled(s, q)
  {
  }

  lemma DoTallies(s: State, k: Knobs, e: Event, q: Tally)
    requires Sized(s) && Sound(k)
    ensures Settled(Do(s, k, e), q) == Settled(s, q) + One(CountsFor(s, k, e, q))
  {
    match e
    case Request(r, stage) => if r < |s.phases| { HandleTallies(s, k, r, stage, q); }
    case EndScrape(u, scrape) => if u < |s.servers| { ScrapingTally(s, k, u, scrape, q); }
    case EndProbe(p, reply) => if p in s.probes { ProbedTally(s, p, reply, q); }
    case Reload(urls) => ListedTally(s, urls, q);
    case _ =>
  }

  lemma NextTallies(s: State, k: Knobs, e: Event, q: Tally)
    requires Sized(s) && Sound(k)
    ensures Settled(Next(s, k, e), q) == Settled(s, q) + if CountsFor(s, k, e, q) then 1 else 0
  {
    DoTallies(Advanced(s), k, e, q);
  }

  lemma {:induction false} RunTallies(n: nat, k: Knobs, events: seq<Event>, q: Tally)
    requires Sound(k)
    ensures Sized(Init(n)) && Settled(Run(Init(n), k, events), q) == CountedIn(Init(n), k, events, q)
  {
    InitIsSized(n);
    if events == [] {
      NoneUnderway(Init(n).phases, q);
    } else {
      var before, e := Run(Init(n), k, events[..|events| - 1]), events[|events| - 1];
      RunTallies(n, k, events[..|events| - 1], q);
      NextTallies(before, k, e, q);
    }
  }

  /** Every count of sends, in every run: the sends of the tally that are under way and those that ended in any way but
      an unreached server. A send that failed to connect is in none of them; it is in the failures alone. */
  ghost predicate TalliesAreTrue(s: State, start: State, k: Knobs, events: seq<Event>)
    requires Sized(start) && Sound(k)
  {
    forall q :: TallyOf(s, q) == Underway(s.phases, q) + CountedIn(start, k, events, q)
  }

  /** Whatever happens in whatever order: a server's inflight is the number of forwards in it, their sum is at most the
      router's own, and the sends add up: to sticky ones, overflows and those without a key, each of them counted for
      the sends that are under way or did not fail to connect. */
  lemma RunKeepsCounts(n: nat, k: Knobs, events: seq<Event>)
    requires Sound(k)
    ensures Sized(Init(n))
    ensures var s := Run(Init(n), k, events);
            && (forall u :: 0 <= u < |s.servers| ==> s.servers[u].inflight == CountHeld(s.phases, u))
            && 0 <= SumInflight(s.servers) <= s.inflight == CountIn(s.phases)
            && SumSent(s.servers) == SumSticky(s.servers) + SumOverflow(s.servers) + s.keyless
            && TalliesAreTrue(s, Init(n), k, events)
  {
    RunIsCounted(n, k, events);
    forall q
      ensures Settled(Run(Init(n), k, events), q) == CountedIn(Init(n), k, events, q)
    {
      RunTallies(n, k, events, q);
    }
    var s := Run(Init(n), k, events);
    SumIsHeld(s.servers, s.phases);
    HeldIsIn(s.phases, |s.servers|);
    NetIs(s.servers);
  }

  // ---------------------------------------------------------------- model lists

  /** What one event does to what is known of a server: nothing, */
  ghost predicate Kept(x: Server, m: Mark, y: Server, l: Mark) {
    y.models == x.models && y.downs == x.downs && l.listFrom == m.listFrom && l.lastDown == m.lastDown
  }

  /** or its going down is counted, */
  ghost predicate Noted(x: Server, m: Mark, y: Server, l: Mark, step: nat) {
    y.models.None? && y.downs == x.downs + 1 && l.listFrom == m.listFrom && l.lastDown == step
  }

  /** or a probe is believed. */
  ghost predicate Believed(x: Server, m: Mark, y: Server, l: Mark, p: Probe) {
    && p.downs == x.downs == y.downs && l.lastDown == m.lastDown && l.lastFailure == m.lastFailure
    && (y.models.Some? ==> l.listFrom == p.started)
  }

  /** A connection to server u fails: that is counted unless it is noted down already. */
  ghost predicate Fails(s: State, t: State, u: nat)
    requires u < |s.servers| == |s.marks| && u < |t.servers| == |t.marks|
  {
    var x, m, y, l := s.servers[u], s.marks[u], t.servers[u], t.marks[u];
    && t.probes == s.probes && l.lastFailure == s.step
    && if x.downNoted then Kept(x, m, y, l) else Noted(x, m, y, l, s.step)
  }

  ghost predicate NewProbesStartNow(s: State, t: State, u: nat)
    requires u < |s.servers|
  {
    forall p :: p in t.probes && t.probes[p].u == u ==>
      (p in s.probes && t.probes[p] == s.probes[p]) || t.probes[p] == Probe(u, s.servers[u].downs, s.step)
  }

  /** One event, as server u sees it. */
  ghost predicate Learns(s: State, t: State, u: nat)
    requires u < |s.servers| == |s.marks| && u < |t.servers| == |t.marks|
  {
    var x, m, y, l := s.servers[u], s.marks[u], t.servers[u], t.marks[u];
    && t.step == s.step && NewProbesStartNow(s, t, u)
    && (|| (Kept(x, m, y, l) && l.lastFailure == m.lastFailure)
        || Fails(s, t, u)
        || (exists p :: p in s.probes && s.probes[p].u == u && Believed(x, m, y, l, s.probes[p])))
  }

  /** Server u looks the same, as far as lists go. */
  ghost predicate SameAt(s: State, t: State, u: nat)
    requires u < |s.servers| == |s.marks| && u < |t.servers| == |t.marks|
  {
    && t.marks[u] == s.marks[u] && t.probes == s.probes && t.step == s.step
    && t.servers[u].models == s.servers[u].models && t.servers[u].downs == s.servers[u].downs
    && t.servers[u].downNoted == s.servers[u].downNoted
  }

  lemma DownLearns(s: State, k: Knobs, v: nat, request: bool, u: nat)
    requires Sized(s) && v < |s.servers| && u < |s.servers|
    ensures Learns(s, Down(s, k, v, request), u)
  {
  }

  lemma TriedLearns(s: State, k: Knobs, r: nat, built: bool, p: Pick, u: nat)
    requires Sized(s) && r < |s.phases| && s.phases[r].Choosing? && p.u < |s.servers| && p.pref < |s.servers|
    requires u < |s.servers|
    ensures Sized(Tried(s, k, r, built, p)) && |Tried(s, k, r, built, p).servers| == |s.servers|
    ensures Learns(s, Tried(s, k, r, built, p), u)
  {
    TriedIsSized(s, k, r, built, p);
    var again := RetriedAway(s, s.phases[r].failed);
    SameSizeIsSized(s, again);
    assert SameAt(s, again, u);
    if built {
      assert SameAt(again, Tried(s, k, r, built, p), u);
    } else {
      DownLearns(again, k, p.u, false, u);
      assert SameAt(Down(again, k, p.u, false), Tried(s, k, r, built, p), u);
    }
  }

  lemma TakenBackLearns(s: State, k: Knobs, r: nat, u: nat)
    requires Sized(s) && r < |s.phases| && s.phases[r].Sending? && u < |s.servers|
    ensures PhaseIsSized(s.phases[r], |s.servers|) && Sized(TakenBack(s, k, r))
    ensures |TakenBack(s, k, r).servers| == |s.servers| && Learns(s, TakenBack(s, k, r), u)
  {
    TakenBackIsSized(s, k, r);
    var f := s.phases[r];
    var back := Counted(s, f.pick, -1);
    SameSizeIsSized(s, back);
    assert SameAt(s, back, u);
    DownLearns(back, k, f.pick.u, true, u);
    assert SameAt(Down(back, k, f.pick.u, true), TakenBack(s, k, r), u);
  }

  lemma HandleLearns(s: State, k: Knobs, r: nat, stage: Stage, u: nat)
    requires Sized(s) && Sound(k) && r < |s.phases| && u < |s.servers|
    ensures Sized(Handle(s, k, r, stage)) && |Handle(s, k, r, stage).servers| == |s.servers|
    ensures Learns(s, Handle(s, k, r, stage), u)
  {
    HandleKeepsSized(s, k, r, stage);
    var f := s.phases[r];
    assert PhaseIsSized(f, |s.servers|);
    match stage
    case Choice(built) =>
      if f.Choosing? {
        var c := k.choose(s.list, s.servers, f.key, f.model, f.tried, s.now);
        if c.Some? {
          TriedLearns(s, k, r, built, c.value, u);
        }
      }
    case NotReached => if f.Sending? { TakenBackLearns(s, k, r, u); }
    case SendFailed => if f.Sending? { DownLearns(s, k, f.pick.u, false, u); }
    case _ => assert SameAt(s, Handle(s, k, r, stage), u);
  }

  lemma ScrapingLearns(s: State, k: Knobs, v: nat, scrape: Scrape, u: nat)
    requires Sized(s) && v < |s.servers| && u < |s.servers|
    ensures |Scraping(s, k, v, scrape).servers| == |s.servers| && Learns(s, Scraping(s, k, v, scrape), u)
  {
    if scrape.NotConnected? || scrape.Crashed? {
      DownLearns(s, k, v, false, u);
    }
  }

  lemma ProbedLearns(s: State, p: nat, reply: Reply, u: nat)
    requires Sized(s) && p in s.probes && u < |s.servers|
    ensures |Probed(s, p, reply).servers| == |s.servers| && Learns(s, Probed(s, p, reply), u)
  {
    var probe, t := s.probes[p], Probed(s, p, reply);
    if probe.u == u && probe.downs == s.servers[u].downs && !reply.Silence? {
      assert Believed(s.servers[u], s.marks[u], t.servers[u], t.marks[u], s.probes[p]);
    }
  }

  lemma DoLearns(s: State, k: Knobs, e: Event, u: nat)
    requires Sized(s) && Sound(k) && u < |s.servers|
    ensures Sized(Do(s, k, e)) && u < |Do(s, k, e).servers| && Learns(s, Do(s, k, e), u)
  {
    DoKeepsSized(s, k, e);
    match e
    case Request(r, stage) => if r < |s.phases| { HandleLearns(s, k, r, stage, u); }
    case EndScrape(v, scrape) => if v < |s.servers| { ScrapingLearns(s, k, v, scrape, u); }
    case EndProbe(p, reply) => if p in s.probes { ProbedLearns(s, p, reply, u); }
    case _ =>
  }

  /** A server that an event makes is as good as new. */
  lemma NewAreFresh(s: State, k: Knobs, e: Event, u: nat)
    requires Sized(s) && Sound(k)
    ensures var t := Do(s, k, e);
            && |t.servers| == |t.marks| && t.step == s.step
            && (|s.servers| <= u < |t.servers| ==>
                 t.servers[u] == FRESH && t.marks[u] == Mark(0, 0, 0) && t.probes == s.probes)
  {
    DoKeepsSized(s, k, e);
    if e.Request? && e.r < |s.phases| {
      HandleKeepsSized(s, k, e.r, e.stage);
    }
  }

  // ---------------------------------------------------------------- fresh lists

  /** The list of server u, if any, and those probes at u that will be believed all started at step b or later. */
  ghost predicate Since(s: State, u: nat, b: nat, step: nat)
    requires u < |s.servers| == |s.marks|
  {
    && (s.servers[u].models.Some? ==> b <= s.marks[u].listFrom <= step)
    && forall p :: p in s.probes && s.probes[p].u == u ==> ProbeSince(s.probes[p], s.servers[u].downs, b, step)
  }

  ghost predicate ProbeSince(p: Probe, downs: nat, b: nat, step: nat) {
    p.started <= step && p.downs <= downs && (p.downs == downs ==> b <= p.started)
  }

  lemma LearnsKeepsSince(s: State, t: State, u: nat, b: nat, before: nat)
    requires u < |s.servers| == |s.marks| && u < |t.servers| == |t.marks| && Learns(s, t, u)
    requires Since(s, u, b, before) && before < s.step && b <= s.step
    ensures Since(t, u, b, s.step)
    ensures t.marks[u].lastDown != s.marks[u].lastDown ==>
              t.marks[u].lastDown == s.step && Since(t, u, s.step + 1, s.step)
  {
    forall p | p in t.probes && t.probes[p].u == u
      ensures ProbeSince(t.probes[p], t.servers[u].downs, b, s.step)
    {
      if p in s.probes && t.probes[p] == s.probes[p] {
        assert ProbeSince(s.probes[p], s.servers[u].downs, b, before);
      }
    }
  }

  ghost predicate Fresh(s: State, u: nat, step: nat)
    requires Sized(s)
  {
    u < |s.servers| ==>
      s.marks[u].lastDown <= step && s.marks[u].lastFailure <= step && Since(s, u, s.marks[u].lastDown + 1, step)
  }

  lemma NextKeepsFresh(s: State, k: Knobs, e: Event, u: nat)
    requires Sized(s) && Sound(k) && Fresh(s, u, s.step)
    ensures Next(s, k, e).step == s.step + 1 && Fresh(Next(s, k, e), u, s.step + 1)
  {
    var a := Advanced(s);
    NewAreFresh(a, k, e, u);
    if u < |s.servers| {
      DoLearns(a, k, e, u);
      LearnsKeepsSince(a, Next(s, k, e), u, s.marks[u].lastDown + 1, s.step);
    }
  }

  lemma {:induction false} RunIsFresh(n: nat, k: Knobs, events: seq<Event>, u: nat)
    requires Sound(k)
    ensures Sized(Init(n)) && Run(Init(n), k, events).step == |events| && Fresh(Run(Init(n), k, events), u, |events|)
  {
    InitIsSized(n);
    if events != [] {
      RunIsFresh(n, k, events[..|events| - 1], u);
      NextKeepsFresh(Run(Init(n), k, events[..|events| - 1]), k, events[|events| - 1], u);
    }
  }

  /** Whatever happens in whatever order: a model list that a server is held to have comes from a probe that started
      after the server last went down, as far as that was counted. */
  lemma RunKeepsListsFresh(n: nat, k: Knobs, events: seq<Event>, u: nat)
    requires Sound(k)
    ensures Sized(Init(n))
    ensures var s := Run(Init(n), k, events);
            u < |s.servers| && s.servers[u].models.Some? ==> s.marks[u].lastDown < s.marks[u].listFrom
  {
    RunIsFresh(n, k, events, u);
  }

  // ---------------------------------------------------------------- old lists

  /** Server u has a list from a probe that started before step f. */
  ghost predicate HasOldList(s: State, u: nat, f: nat)
    requires Sized(s)
  {
    u < |s.servers| && s.servers[u].models.Some? && s.marks[u].listFrom < f
  }

  ghost predicate NeverAnOldList(s: State, k: Knobs, u: nat, f: nat)
    requires Sized(s) && Sound(k)
  {
    forall more :: !HasOldList(Run(s, k, more), u, f)
  }

  /** A connection to server u fails: a scrape does not reach it or crashes, no request can be made for it, a request
      does not reach it, or its send fails in a way nobody foresaw. */
  predicate ConnectionFails(s: State, k: Knobs, e: Event, u: nat) {
    match e
    case EndScrape(v, scrape) => v == u && (scrape.NotConnected? || scrape.Crashed?)
    case Request(r, stage) =>
      && r < |s.phases|
      && var f := s.phases[r];
         (match stage
          case NotReached => f.Sending? && f.pick.u == u
          case SendFailed => f.Sending? && f.pick.u == u
          case Choice(built) =>
            && f.Choosing? && !built
            && var c := k.choose(s.list, s.servers, f.key, f.model, f.tried, s.now);
               c.Some? && c.value.u == u
          case _ => false)
    case _ => false
  }

  lemma HandleMarks(s: State, k: Knobs, r: nat, stage: Stage, u: nat)
    requires Sized(s) && Sound(k) && r < |s.phases| && u < |s.servers|
    ensures |Handle(s, k, r, stage).marks| == |s.marks|
    ensures Handle(s, k, r, stage).marks[u].lastFailure
         == if ConnectionFails(s, k, Request(r, stage), u) then s.step else s.marks[u].lastFailure
  {
    assert PhaseIsSized(s.phases[r], |s.servers|);
  }

  /** The router marks a server down exactly when a connection to it fails. */
  lemma MarkedDownIff(s: State, k: Knobs, e: Event, u: nat)
    requires Sized(s) && Sound(k) && u < |s.servers|
    ensures Next(s, k, e).step == s.step + 1 && u < |Next(s, k, e).marks|
    ensures Next(s, k, e).marks[u].lastFailure
         == if ConnectionFails(s, k, e, u) then s.step + 1 else s.marks[u].lastFailure
  {
    DoLearns(Advanced(s), k, e, u);
    if e.Request? && e.r < |s.phases| {
      HandleMarks(Advanced(s), k, e.r, e.stage, u);
    }
  }

  /** Server u is not noted down, or nothing that was asked of it before is, or will be, believed. */
  predicate Forgets(s: State, u: nat)
    requires u < |s.servers|
  {
    || !s.servers[u].downNoted
    || (s.servers[u].models.None?
        && forall p :: p in s.probes && s.probes[p].u == u ==> s.probes[p].downs != s.servers[u].downs)
  }

  lemma {:induction false} SinceStays(s: State, k: Knobs, u: nat, f: nat, more: seq<Event>)
    requires Sized(s) && Sound(k) && u < |s.servers| && Since(s, u, f, s.step) && f <= s.step
    ensures var t := Run(s, k, more); u < |t.servers| && Since(t, u, f, t.step) && f <= t.step
  {
    if more != [] {
      var e := more[|more| - 1];
      SinceStays(s, k, u, f, more[..|more| - 1]);
      var before := Run(s, k, more[..|more| - 1]);
      DoLearns(Advanced(before), k, e, u);
      LearnsKeepsSince(Advanced(before), Next(before, k, e), u, f, before.step);
    }
  }

  /** A list as a server gives it. */
  const ONE_MODEL: Reply := List([Served("m", None)])

  lemma AProbeIsBelieved(s: State, k: Knobs, u: nat, p: nat)
    requires Sized(s) && Sound(k) && p in s.probes && s.probes[p].u == u && s.probes[p].downs == s.servers[u].downs
    ensures var t := Run(s, k, [EndProbe(p, ONE_MODEL)]);
            |t.servers| == |s.servers| && t.servers[u].models.Some? && t.marks[u].listFrom == s.probes[p].started
  {
    RunSnoc(s, k, [], EndProbe(p, ONE_MODEL));
    assert [] + [EndProbe(p, ONE_MODEL)] == [EndProbe(p, ONE_MODEL)];
  }

  lemma FailureIsLearned(s: State, k: Knobs, e: Event, u: nat)
    requires Sized(s) && Sound(k) && Fresh(s, u, s.step) && u < |s.servers| && ConnectionFails(s, k, e, u)
    ensures var t := Next(s, k, e); t.step == s.step + 1 && u < |t.servers| && Fails(Advanced(s), t, u)
  {
    DoLearns(Advanced(s), k, e, u);
    MarkedDownIff(s, k, e, u);
  }

  lemma OldListsAreForgotten(s: State, k: Knobs, e: Event, u: nat)
    requires Sized(s) && Sound(k) && Fresh(s, u, s.step) && u < |s.servers| && ConnectionFails(s, k, e, u)
    requires Forgets(s, u)
    ensures NeverAnOldList(Next(s, k, e), k, u, s.step + 1)
  {
    var t := Next(s, k, e);
    FailureIsLearned(s, k, e, u);
    assert Since(t, u, s.step + 1, s.step + 1);
    forall more
      ensures !HasOldList(Run(t, k, more), u, s.step + 1)
    {
      SinceStays(t, k, u, s.step + 1, more);
    }
  }

  lemma AnOldListComes(s: State, k: Knobs, e: Event, u: nat)
    requires Sized(s) && Sound(k) && Fresh(s, u, s.step) && u < |s.servers| && ConnectionFails(s, k, e, u)
    requires !Forgets(s, u)
    ensures !NeverAnOldList(Next(s, k, e), k, u, s.step + 1)
  {
    var t := Next(s, k, e);
    FailureIsLearned(s, k, e, u);
    if s.servers[u].models.Some? {
      assert HasOldList(Run(t, k, []), u, s.step + 1);
    } else {
      var p :| p in s.probes && s.probes[p].u == u && s.probes[p].downs == s.servers[u].downs;
      AProbeIsBelieved(t, k, u, p);
      assert HasOldList(Run(t, k, [EndProbe(p, ONE_MODEL)]), u, s.step + 1);
    }
  }

  /** After any run, when a connection to a server fails: no list that the router asked for before that is ever
      trusted again, whatever happens next, exactly when the server was not noted down already, or it had no list and
      no probe under way that carries its count of downs. */
  lemma OldListsAreForgottenIff(n: nat, k: Knobs, events: seq<Event>, e: Event, u: nat)
    requires Sound(k)
    ensures Sized(Init(n))
    ensures var s := Run(Init(n), k, events);
            u < |s.servers| && ConnectionFails(s, k, e, u) ==>
              (NeverAnOldList(Next(s, k, e), k, u, s.step + 1) <==> Forgets(s, u))
  {
    RunIsFresh(n, k, events, u);
    var s := Run(Init(n), k, events);
    if u < |s.servers| && ConnectionFails(s, k, e, u) {
      if Forgets(s, u) {
        OldListsAreForgotten(s, k, e, u);
      } else {
        AnOldListComes(s, k, e, u);
      }
    }
  }

  lemma RunSnoc(s: State, k: Knobs, events: seq<Event>, e: Event)
    requires Sized(s) && Sound(k)
    ensures Run(s, k, events + [e]) == Do(Advanced(Run(s, k, events)), k, e)
  {
    assert (events + [e])[..|events|] == events;
  }

  /** A server whose metrics cannot be read is noted down, and a probe of it starts. */
  function DownAndProbed(): seq<Event> { [Reload(["a"])] + [EndScrape(0, NotConnected)] + [StartProbe(0, 0)] }

  /** Its list comes before its metrics fail again, or after, which goes uncounted; then they are read. */
  function ListThenFailure(rows: seq<Served>, cooldown: real): seq<Event> {
    DownAndProbed() + [EndProbe(0, List(rows))] + [EndScrape(0, NotConnected)]
    + [Tick(cooldown)] + [EndScrape(0, Page(None))]
  }

  function FailureThenList(rows: seq<Served>, cooldown: real): seq<Event> {
    DownAndProbed() + [EndScrape(0, NotConnected)] + [EndProbe(0, List(rows))]
    + [Tick(cooldown)] + [EndScrape(0, Page(None))]
  }

  /** The server is up and confirmed by a list that is older than its last failure to connect. */
  ghost predicate TrustsAnOldList(s: State, rows: seq<Served>) {
    && |s.servers| == 1 == |s.marks| && IsUp(s.servers[0], s.now) && Confirmed(s.servers[0]) && !s.servers[0].downNoted
    && s.servers[0].models == Some(rows) && s.marks[0].listFrom < s.marks[0].lastFailure
  }

  lemma ProbeWhileDown(k: Knobs)
    requires Sound(k)
    ensures Sized(Init(0))
    ensures var s := Run(Init(0), k, DownAndProbed());
            && |s.servers| == 1 && s.servers[0].downNoted && s.servers[0].downs == 1 && s.servers[0].probeTimeouts == 0
            && s.probes == map[0 := Probe(0, 1, 3)] && s.step == 3 && s.now == 0.0
  {
    InitIsSized(0);
    OneServer(k);
    var e1 := [Reload(["a"])];
    RunSnoc(Init(0), k, e1, EndScrape(0, NotConnected));
    RunSnoc(Init(0), k, e1 + [EndScrape(0, NotConnected)], StartProbe(0, 0));
  }

  /** So a list read while a server is noted down outlives its next failure to connect, in spite of the purpose of
      forgetting it, */
  lemma AnOldListSurvives(rows: seq<Served>, k: Knobs)
    requires Sound(k) && k.cooldown >= 0.0
    ensures Sized(Init(0)) && TrustsAnOldList(Run(Init(0), k, ListThenFailure(rows, k.cooldown)), rows)
  {
    ProbeWhileDown(k);
    var e3 := DownAndProbed();
    var e4 := e3 + [EndProbe(0, List(rows))];
    var e5 := e4 + [EndScrape(0, NotConnected)];
    RunSnoc(Init(0), k, e3, EndProbe(0, List(rows)));
    RunSnoc(Init(0), k, e4, EndScrape(0, NotConnected));
    RunSnoc(Init(0), k, e5, Tick(k.cooldown));
    RunSnoc(Init(0), k, e5 + [Tick(k.cooldown)], EndScrape(0, Page(None)));
  }

  /** and a probe that starts while it is noted down is believed after that failure. */
  lemma AnOldProbeIsBelieved(rows: seq<Served>, k: Knobs)
    requires Sound(k) && k.cooldown >= 0.0
    ensures Sized(Init(0)) && TrustsAnOldList(Run(Init(0), k, FailureThenList(rows, k.cooldown)), rows)
  {
    ProbeWhileDown(k);
    var e3 := DownAndProbed();
    var e4 := e3 + [EndScrape(0, NotConnected)];
    var e5 := e4 + [EndProbe(0, List(rows))];
    RunSnoc(Init(0), k, e3, EndScrape(0, NotConnected));
    RunSnoc(Init(0), k, e4, EndProbe(0, List(rows)));
    RunSnoc(Init(0), k, e5, Tick(k.cooldown));
    RunSnoc(Init(0), k, e5 + [Tick(k.cooldown)], EndScrape(0, Page(None)));
  }

  lemma OneServer(k: Knobs)
    requires Sound(k)
    ensures Sized(Init(0))
    ensures var s := Run(Init(0), k, [Reload(["a"])]);
            s.servers == [FRESH] && s.marks == [Mark(0, 0, 0)] && s.probes == map[] && s.step == 1 && s.now == 0.0
  {
    InitIsSized(0);
    RunSnoc(Init(0), k, [], Reload(["a"]));
    assert [] + [Reload(["a"])] == [Reload(["a"])];
    assert ["a"][..0] == [];
    assert NewUrls([], [], ["a"]) == ["a"];
    assert Copies(FRESH, 1) == [FRESH];
  }

  // ---------------------------------------------------------------- requests

  /** No server twice, and the one that the request waits for, or goes on from, is the last. */
  ghost predicate TriedOnce(p: Phase) {
    match p
    case Choosing(_, _, tried, failed) => NoneTwice(tried) && failed == LastOf(tried)
    case Sending(_, _, tried, pick) => NoneTwice(tried) && LastOf(tried) == Some(pick.u)
    case _ => true
  }

  function LastOf(s: seq<nat>): Option<nat> { if s == [] then None else Some(s[|s| - 1]) }

  ghost predicate NoneTwice(tried: seq<nat>) { forall i, j :: 0 <= i < j < |tried| ==> tried[i] != tried[j] }

  lemma ChosenTriesOnce(s: State, k: Knobs, r: nat, built: bool)
    requires Sized(s) && Sound(k) && r < |s.phases| && s.phases[r].Choosing? && TriedOnce(s.phases[r])
    ensures var t := Chosen(s, k, r, built);
            && |t.phases| == |s.phases| && TriedOnce(t.phases[r])
            && forall q :: 0 <= q < |s.phases| && q != r ==> t.phases[q] == s.phases[q]
  {
  }

  lemma HandleTriesOnce(s: State, k: Knobs, r: nat, stage: Stage)
    requires Sized(s) && Sound(k) && r < |s.phases| && TriedOnce(s.phases[r])
    ensures |Handle(s, k, r, stage).phases| == |s.phases| && TriedOnce(Handle(s, k, r, stage).phases[r])
    ensures forall q :: 0 <= q < |s.phases| && q != r ==> Handle(s, k, r, stage).phases[q] == s.phases[q]
  {
    var f := s.phases[r];
    assert PhaseIsSized(f, |s.servers|);
    if stage.Choice? && f.Choosing? {
      ChosenTriesOnce(s, k, r, stage.built);
    }
  }

  lemma {:induction false} RunTriesOnce(n: nat, k: Knobs, events: seq<Event>)
    requires Sound(k)
    ensures Sized(Init(n)) && |Run(Init(n), k, events).phases| == n
    ensures forall r :: 0 <= r < n ==> TriedOnce(Run(Init(n), k, events).phases[r])
  {
    InitIsSized(n);
    if events != [] {
      RunTriesOnce(n, k, events[..|events| - 1]);
      var before, e := Advanced(Run(Init(n), k, events[..|events| - 1])), events[|events| - 1];
      if e.Request? && e.r < n {
        HandleTriesOnce(before, k, e.r, e.stage);
      } else {
        PhasesStay(before, k, e);
      }
    }
  }

  lemma PhasesStay(s: State, k: Knobs, e: Event)
    requires Sized(s) && Sound(k) && (e.Request? ==> e.r >= |s.phases|)
    ensures Do(s, k, e).phases == s.phases
  {
  }

  /** In any state: a request leaves for a server that is not up and confirmed only if no listed server that it has not
      tried is. */
  lemma LeavesForAServerThatIsOn(s: State, slack: real, cooldown: real, r: nat, v: nat)
    requires Sized(s) && Sound(RouterKnobs(slack, cooldown)) && r < |s.phases| && s.phases[r].Choosing?
    ensures var t := Handle(s, RouterKnobs(slack, cooldown), r, Choice(true));
            t.phases[r].Sending? && Untried(s.list, s.phases[r].tried, v) && IsUp(At(s.servers, v), s.now)
            && Confirmed(At(s.servers, v))
            ==> IsUp(At(s.servers, t.phases[r].pick.u), s.now) && Confirmed(At(s.servers, t.phases[r].pick.u))
  {
    var f := s.phases[r];
    UnconfirmedOnlyIfNoneIs(s.list, s.servers, f.key, f.model, f.tried, s.now, slack, v);
  }

  // ---------------------------------------------------------------- lifetimes

  /** What an event means for server u. */
  function BefallsIn(s: State, k: Knobs, e: Event, u: nat): seq<Lifetimes.Happening>
    requires Sized(s) && Sound(k)
  {
    if u >= |s.servers| then []
    else
      var failed := if ConnectionFails(s, k, e, u) then [Lifetimes.MarkedDown(s.now, IsTakenBack(e))] else [];
      var d := if e.Request? && e.r < |s.phases| then OutBy(s, k, s.phases[e.r], e.stage, u) else 0;
      failed + ProbedThen(s, e, u) + if d != 0 then [Lifetimes.Forwarding(d)] else []
  }

  predicate IsTakenBack(e: Event) { e.Request? && e.stage.NotReached? }

  /** A forward to u begins (1) or ends (-1). */
  function OutBy(s: State, k: Knobs, f: Phase, stage: Stage, u: nat): int {
    match stage
    case Choice(built) =>
      if !f.Choosing? || !built then 0
      else
        var c := k.choose(s.list, s.servers, f.key, f.model, f.tried, s.now);
        if c.Some? && c.value.u == u then 1 else 0
    case NotReached => if f.Sending? && f.pick.u == u then -1 else 0
    case Finish => if f == Holding(u) then -1 else 0
    case Cancel => if Held(f) == Some(u) then -1 else 0
    case _ => 0
  }

  function ProbedThen(s: State, e: Event, u: nat): seq<Lifetimes.Happening> {
    match e
    case EndScrape(v, scrape) =>
      if v == u && !scrape.NotConnected? && !scrape.Crashed? then [Lifetimes.ScrapeEnded(s.now, scrape)] else []
    case EndProbe(p, reply) =>
      if p in s.probes && s.probes[p].u == u then [Lifetimes.CheckEnded(s.probes[p].downs, reply)] else []
    case _ => []
  }

  /** What befell server u in a run. */
  function LifeOf(s: State, k: Knobs, events: seq<Event>, u: nat): seq<Lifetimes.Happening>
    requires Sized(s) && Sound(k)
  {
    if events == [] then []
    else
      var before := events[..|events| - 1];
      LifeOf(s, k, before, u) + BefallsIn(Run(s, k, before), k, events[|events| - 1], u)
  }

  /** The same but for what is counted of sends. */
  ghost predicate Alike(x: Server, y: Server) {
    && x.metrics == y.metrics && x.metricsFail == y.metricsFail && x.inflightAtScrape == y.inflightAtScrape
    && x.inflight == y.inflight && x.downUntil == y.downUntil && x.downNoted == y.downNoted && x.downs == y.downs
    && x.probeTimeouts == y.probeTimeouts && x.models == y.models && x.modelsBad == y.modelsBad
    && x.connectFail == y.connectFail
  }

  lemma {:induction false} LivedOn(x: Server, a: seq<Lifetimes.Happening>, b: seq<Lifetimes.Happening>, cooldown: real)
    ensures Lifetimes.Lived(x, a + b, cooldown) == Lifetimes.Lived(Lifetimes.Lived(x, a, cooldown), b, cooldown)
    decreases |b|
  {
    if b == [] {
      assert a + b == a;
    } else {
      assert (a + b)[..|a| + |b| - 1] == a + b[..|b| - 1];
      LivedOn(x, a, b[..|b| - 1], cooldown);
    }
  }

  lemma {:induction false} LivedAlike(x: Server, y: Server, hs: seq<Lifetimes.Happening>, cooldown: real)
    requires Alike(x, y)
    ensures Alike(Lifetimes.Lived(x, hs, cooldown), Lifetimes.Lived(y, hs, cooldown))
  {
    if hs != [] {
      var n := |hs| - 1;
      LivedAlike(x, y, hs[..n], cooldown);
      AfterAlike(Lifetimes.Lived(x, hs[..n], cooldown), Lifetimes.Lived(y, hs[..n], cooldown), hs[n], cooldown);
    }
  }

  lemma ScrapedAlike(x: Server, y: Server, scrape: Scrape, now: real, cooldown: real)
    requires Alike(x, y)
    ensures Alike(Scraped(x, scrape, now, cooldown), Scraped(y, scrape, now, cooldown))
  {
    match scrape
    case NotConnected =>
    case Crashed =>
    case TimedOut =>
    case CutOff =>
    case Page(None) =>
    case Page(Some(_)) =>
    case ServerError =>
    case Refused =>
  }

  lemma AfterAlike(x: Server, y: Server, h: Lifetimes.Happening, cooldown: real)
    requires Alike(x, y)
    ensures Alike(Lifetimes.After(x, h, cooldown), Lifetimes.After(y, h, cooldown))
  {
    match h
    case ScrapeEnded(now, scrape) => ScrapedAlike(x, y, scrape, now, cooldown);
    case MarkedDown(_, _) =>
    case CheckEnded(_, _) =>
    case Forwarding(_) =>
  }

  lemma AlikeThrice(x: Server, y: Server, z: Server)
    requires Alike(x, y) && Alike(y, z)
    ensures Alike(x, z)
  {
  }

  lemma LivesOnMore(x: Server, life: seq<Lifetimes.Happening>, y: Server, hs: seq<Lifetimes.Happening>, z: Server,
                    cooldown: real)
    requires LivesOn(x, life, cooldown, y) && LivesOn(y, hs, cooldown, z)
    ensures LivesOn(x, life + hs, cooldown, z)
  {
    var w := Lifetimes.Lived(x, life, cooldown);
    LivedAlike(y, w, hs, cooldown);
    LivedOn(x, life, hs, cooldown);
    AlikeThrice(z, Lifetimes.Lived(y, hs, cooldown), Lifetimes.Lived(w, hs, cooldown));
  }

  lemma AlikeIsTrue(x: Server, y: Server, hs: seq<Lifetimes.Happening>, cooldown: real)
    requires Alike(x, y) && Lifetimes.IsTrue(y, hs, cooldown)
    ensures Lifetimes.IsTrue(x, hs, cooldown)
  {
    assert x.downUntil == y.downUntil;
    assert forall t :: IsUp(x, t) == IsUp(y, t);
  }

  lemma LivedOnce(x: Server, h: Lifetimes.Happening, cooldown: real)
    ensures Lifetimes.Lived(x, [h], cooldown) == Lifetimes.After(x, h, cooldown)
  {
    assert [h][..0] == [];
  }

  lemma LivedTwice(x: Server, g: Lifetimes.Happening, h: Lifetimes.Happening, cooldown: real)
    ensures Lifetimes.Lived(x, [g] + [h], cooldown) == Lifetimes.After(Lifetimes.After(x, g, cooldown), h, cooldown)
  {
    LivedOn(x, [g], [h], cooldown);
    LivedOnce(x, g, cooldown);
    LivedOnce(Lifetimes.After(x, g, cooldown), h, cooldown);
  }

  /** The life of a server with what an event adds. */
  ghost predicate LivesOn(x: Server, hs: seq<Lifetimes.Happening>, cooldown: real, y: Server) {
    Alike(y, Lifetimes.Lived(x, hs, cooldown))
  }

  lemma NothingBefalls(x: Server, y: Server, cooldown: real)
    requires Alike(y, x)
    ensures LivesOn(x, [] + [] + [], cooldown, y)
  {
    var none: seq<Lifetimes.Happening> := [];
    assert none + none + none == none;
  }

  /** At most two things befall a server in one event: it is marked down, and a forward to it ends. */
  lemma OneBefalls(x: Server, h: Lifetimes.Happening, cooldown: real, y: Server)
    requires Alike(y, Lifetimes.After(x, h, cooldown))
    ensures LivesOn(x, [h] + [] + [], cooldown, y) && LivesOn(x, [] + [h] + [], cooldown, y)
    ensures LivesOn(x, [] + [] + [h], cooldown, y)
  {
    LivedOnce(x, h, cooldown);
    assert [h] + [] + [] == [] + [h] + [] == [] + [] + [h] == [h];
  }

  lemma TwoBefall(x: Server, g: Lifetimes.Happening, h: Lifetimes.Happening, cooldown: real, y: Server)
    requires Alike(y, Lifetimes.After(Lifetimes.After(x, g, cooldown), h, cooldown))
    ensures LivesOn(x, [g] + [] + [h], cooldown, y)
  {
    LivedTwice(x, g, h, cooldown);
    assert [g] + [] + [h] == [g] + [h];
  }

  lemma AwayAlike(s: State, failed: Option<nat>, u: nat)
    requires u < |s.servers| == |s.marks|
    ensures var t := RetriedAway(s, failed);
            |t.servers| == |s.servers| == |t.marks| && t.now == s.now && Alike(t.servers[u], s.servers[u])
  {
  }

  lemma CountedAlike(s: State, p: Pick, d: int, u: nat)
    requires p.u < |s.servers| && p.pref < |s.servers| && u < |s.servers|
    ensures |Counted(s, p, d).servers| == |s.servers| && Alike(Counted(s, p, d).servers[u], s.servers[u])
  {
  }

  lemma TriedLives(s: State, k: Knobs, r: nat, built: bool, p: Pick, u: nat)
    requires Sized(s) && r < |s.phases| && s.phases[r].Choosing? && p.u < |s.servers| && p.pref < |s.servers|
    requires u < |s.servers|
    ensures |Tried(s, k, r, built, p).servers| == |s.servers| && |Tried(s, k, r, built, p).phases| == |s.phases|
    ensures Held(Tried(s, k, r, built, p).phases[r]) == if built then Some(p.u) else None
    ensures var x, y := s.servers[u], Tried(s, k, r, built, p).servers[u];
            if u != p.u then Alike(y, x)
            else if built then Alike(y, x.(inflight := x.inflight + 1))
            else Alike(y, MarkDown(x, s.now, k.cooldown, false))
  {
    var again := RetriedAway(s, s.phases[r].failed);
    AwayAlike(s, s.phases[r].failed, u);
    if built {
      CountedAlike(WithInflight(again, p.u, 1), p, 1, u);
    } else if u == p.u {
      AfterAlike(again.servers[u], s.servers[u], Lifetimes.MarkedDown(s.now, false), k.cooldown);
    }
  }

  lemma TakenBackLives(s: State, k: Knobs, r: nat, u: nat)
    requires Sized(s) && r < |s.phases| && s.phases[r].Sending? && u < |s.servers|
    ensures PhaseIsSized(s.phases[r], |s.servers|) && |TakenBack(s, k, r).servers| == |s.servers|
    ensures |TakenBack(s, k, r).phases| == |s.phases| && TakenBack(s, k, r).phases[r].Choosing?
    ensures var x, y := s.servers[u], TakenBack(s, k, r).servers[u];
            if u != s.phases[r].pick.u then Alike(y, x)
            else Alike(y, MarkDown(x, s.now, k.cooldown, true).(inflight := x.inflight - 1))
  {
    assert PhaseIsSized(s.phases[r], |s.servers|);
    var p := s.phases[r].pick;
    var back := Counted(s, p, -1);
    assert back.now == s.now && |back.servers| == |s.servers| && Alike(back.servers[u], s.servers[u]);
  }

  lemma TriedBefalls(s: State, k: Knobs, r: nat, built: bool, p: Pick, u: nat)
    requires Sized(s) && Sound(k) && r < |s.phases| && u < |s.servers| && s.phases[r].Choosing?
    requires var f := s.phases[r]; k.choose(s.list, s.servers, f.key, f.model, f.tried, s.now) == Some(p)
    ensures p.u < |s.servers| && p.pref < |s.servers|
    ensures BefallsIn(s, k, Request(r, Choice(built)), u)
         == if u != p.u then [] + [] + []
            else if built then [] + [] + [Lifetimes.Forwarding(1)]
            else [Lifetimes.MarkedDown(s.now, false)] + [] + []
  {
    TriedLives(s, k, r, built, p, u);
  }

  lemma ChosenLives(s: State, k: Knobs, r: nat, built: bool, u: nat)
    requires Sized(s) && Sound(k) && r < |s.phases| && u < |s.servers| && s.phases[r].Choosing?
    ensures var e, t := Request(r, Choice(built)), Chosen(s, k, r, built);
            && |t.servers| == |s.servers|
            && LivesOn(s.servers[u], BefallsIn(s, k, e, u), k.cooldown, t.servers[u])
  {
    var f, x := s.phases[r], s.servers[u];
    var c := k.choose(s.list, s.servers, f.key, f.model, f.tried, s.now);
    if c.None? {
      NothingBefalls(x, x, k.cooldown);
    } else {
      var y := Tried(s, k, r, built, c.value).servers[u];
      TriedBefalls(s, k, r, built, c.value, u);
      TriedLives(s, k, r, built, c.value, u);
      if u != c.value.u {
        NothingBefalls(x, y, k.cooldown);
      } else {
        OneBefalls(x, if built then Lifetimes.Forwarding(1) else Lifetimes.MarkedDown(s.now, false), k.cooldown, y);
      }
    }
  }

  lemma BackLives(s: State, k: Knobs, r: nat, u: nat)
    requires Sized(s) && Sound(k) && r < |s.phases| && u < |s.servers| && s.phases[r].Sending?
    ensures PhaseIsSized(s.phases[r], |s.servers|)
    ensures var e, t := Request(r, NotReached), TakenBack(s, k, r);
            && |t.servers| == |s.servers|
            && LivesOn(s.servers[u], BefallsIn(s, k, e, u), k.cooldown, t.servers[u])
  {
    assert PhaseIsSized(s.phases[r], |s.servers|);
    TakenBackLives(s, k, r, u);
    var x, y := s.servers[u], TakenBack(s, k, r).servers[u];
    if u == s.phases[r].pick.u {
      TwoBefall(x, Lifetimes.MarkedDown(s.now, true), Lifetimes.Forwarding(-1), k.cooldown, y);
    } else {
      NothingBefalls(x, y, k.cooldown);
    }
  }

  lemma HandleLives(s: State, k: Knobs, r: nat, stage: Stage, u: nat)
    requires Sized(s) && Sound(k) && r < |s.phases| && u < |s.servers|
    ensures |Handle(s, k, r, stage).servers| == |s.servers|
    ensures LivesOn(s.servers[u], BefallsIn(s, k, Request(r, stage), u), k.cooldown, Handle(s, k, r, stage).servers[u])
  {
    var f := s.phases[r];
    assert PhaseIsSized(f, |s.servers|);
    if stage.Choice? && f.Choosing? {
      ChosenLives(s, k, r, stage.built, u);
    } else if stage.NotReached? && f.Sending? {
      BackLives(s, k, r, u);
    } else {
      OtherwiseLives(s, k, r, stage, u);
    }
  }

  lemma LeftLives(s: State, r: nat, u: nat, cooldown: real)
    requires Sized(s) && r < |s.phases| && u < |s.servers|
    ensures PhaseIsSized(s.phases[r], |s.servers|) && |Left(s, r).servers| == |s.servers|
    ensures var d := if Held(s.phases[r]) == Some(u) then [Lifetimes.Forwarding(-1)] else [];
            LivesOn(s.servers[u], [] + [] + d, cooldown, Left(s, r).servers[u])
  {
    assert PhaseIsSized(s.phases[r], |s.servers|);
    var x, y := s.servers[u], Left(s, r).servers[u];
    if Held(s.phases[r]) == Some(u) {
      OneBefalls(x, Lifetimes.Forwarding(-1), cooldown, y);
    } else {
      NothingBefalls(x, y, cooldown);
    }
  }

  lemma OtherwiseLives(s: State, k: Knobs, r: nat, stage: Stage, u: nat)
    requires Sized(s) && Sound(k) && r < |s.phases| && u < |s.servers|
    requires !(stage.Choice? && s.phases[r].Choosing?) && !(stage.NotReached? && s.phases[r].Sending?)
    ensures |Handle(s, k, r, stage).servers| == |s.servers|
    ensures LivesOn(s.servers[u], BefallsIn(s, k, Request(r, stage), u), k.cooldown, Handle(s, k, r, stage).servers[u])
  {
    var f, x := s.phases[r], s.servers[u];
    assert PhaseIsSized(f, |s.servers|);
    var y := Handle(s, k, r, stage).servers[u];
    if (stage.Finish? && (f.Holding? || f.Answering?)) || (stage.Cancel? && !f.Outside?) {
      LeftLives(s, r, u, k.cooldown);
    } else if stage.SendFailed? && f.Sending? && u == f.pick.u {
      OneBefalls(x, Lifetimes.MarkedDown(s.now, false), k.cooldown, y);
    } else {
      NothingBefalls(x, y, k.cooldown);
    }
  }

  lemma DoLives(s: State, k: Knobs, e: Event, u: nat)
    requires Sized(s) && Sound(k) && u < |s.servers|
    ensures u < |Do(s, k, e).servers|
    ensures LivesOn(s.servers[u], BefallsIn(s, k, e, u), k.cooldown, Do(s, k, e).servers[u])
  {
    var x := s.servers[u];
    match e
    case Request(r, stage) =>
      if r < |s.phases| {
        HandleLives(s, k, r, stage, u);
      } else {
        NothingBefalls(x, x, k.cooldown);
      }
    case EndScrape(v, scrape) => ScrapingLives(s, k, v, scrape, u);
    case EndProbe(p, reply) =>
      if p in s.probes && s.probes[p].u == u {
        OneBefalls(x, Lifetimes.CheckEnded(s.probes[p].downs, reply), k.cooldown, Do(s, k, e).servers[u]);
      } else {
        NothingBefalls(x, x, k.cooldown);
      }
    case _ => NothingBefalls(x, x, k.cooldown);
  }

  lemma ScrapingLives(s: State, k: Knobs, v: nat, scrape: Scrape, u: nat)
    requires Sized(s) && Sound(k) && u < |s.servers|
    ensures var t := Do(s, k, EndScrape(v, scrape));
            && |t.servers| == |s.servers|
            && LivesOn(s.servers[u], BefallsIn(s, k, EndScrape(v, scrape), u), k.cooldown, t.servers[u])
  {
    var x, y := s.servers[u], Do(s, k, EndScrape(v, scrape)).servers[u];
    if v != u {
      NothingBefalls(x, y, k.cooldown);
    } else if scrape.NotConnected? || scrape.Crashed? {
      OneBefalls(x, Lifetimes.MarkedDown(s.now, false), k.cooldown, y);
    } else {
      OneBefalls(x, Lifetimes.ScrapeEnded(s.now, scrape), k.cooldown, y);
    }
  }

  lemma NothingBefell(s: State, k: Knobs, events: seq<Event>, u: nat)
    requires Sized(s) && Sound(k) && s.servers == [] && |Run(s, k, events).servers| <= u
    ensures LifeOf(s, k, events, u) == []
  {
    if events != [] {
      var before, e := Run(s, k, events[..|events| - 1]), events[|events| - 1];
      ServersStay(before, k, e);
      NothingBefell(s, k, events[..|events| - 1], u);
    }
  }

  lemma ServersStay(s: State, k: Knobs, e: Event)
    requires Sized(s) && Sound(k)
    ensures |s.servers| <= |Next(s, k, e).servers|
  {
    if s.servers != [] {
      DoLives(Advanced(s), k, e, |s.servers| - 1);
    }
  }

  lemma {:induction false} RunLives(n: nat, k: Knobs, events: seq<Event>, u: nat)
    requires Sound(k)
    ensures Sized(Init(n))
    ensures u < |Run(Init(n), k, events).servers| ==>
              LivesOn(FRESH, LifeOf(Init(n), k, events, u), k.cooldown, Run(Init(n), k, events).servers[u])
  {
    InitIsSized(n);
    if events != [] {
      var pre, e := events[..|events| - 1], events[|events| - 1];
      var s := Run(Init(n), k, pre);
      var t := Next(s, k, e);
      RunLives(n, k, pre, u);
      NewAreFresh(Advanced(s), k, e, u);
      if u < |s.servers| {
        NextLives(s, k, e, LifeOf(Init(n), k, pre, u), u);
      } else if u < |t.servers| {
        NothingBefell(Init(n), k, pre, u);
        assert LifeOf(Init(n), k, events, u) == [];
      }
    }
  }

  lemma ClockDoesNotMatter(s: State, k: Knobs, e: Event, u: nat)
    requires Sized(s) && Sound(k)
    ensures BefallsIn(Advanced(s), k, e, u) == BefallsIn(s, k, e, u)
  {
  }

  lemma NextLives(s: State, k: Knobs, e: Event, life: seq<Lifetimes.Happening>, u: nat)
    requires Sized(s) && Sound(k) && u < |s.servers| && LivesOn(FRESH, life, k.cooldown, s.servers[u])
    ensures u < |Next(s, k, e).servers|
    ensures LivesOn(FRESH, life + BefallsIn(s, k, e, u), k.cooldown, Next(s, k, e).servers[u])
  {
    DoLives(Advanced(s), k, e, u);
    ClockDoesNotMatter(s, k, e, u);
    LivesOnMore(FRESH, life, s.servers[u], BefallsIn(s, k, e, u), Next(s, k, e).servers[u], k.cooldown);
  }

  /** In every run each server's state is true to what befell it: down for the cooldown from its last failure, with the
      metrics, model list, timeouts and forwards that its scrapes, checks and requests left it. */
  lemma RunIsTrue(n: nat, k: Knobs, events: seq<Event>, u: nat)
    requires Sound(k)
    ensures Sized(Init(n))
    ensures u < |Run(Init(n), k, events).servers| ==>
              Lifetimes.IsTrue(Run(Init(n), k, events).servers[u], LifeOf(Init(n), k, events, u), k.cooldown)
  {
    InitIsSized(n);
    var s, life := Run(Init(n), k, events), LifeOf(Init(n), k, events, u);
    RunLives(n, k, events, u);
    Lifetimes.LivedIsTrue(life, k.cooldown);
    if u < |s.servers| {
      AlikeIsTrue(s.servers[u], Lifetimes.Lived(FRESH, life, k.cooldown), life, k.cooldown);
    }
  }

  /** When a connection to server u last failed. */
  function LastFailed(s: State, k: Knobs, events: seq<Event>, u: nat): Option<real>
    requires Sized(s) && Sound(k)
  {
    if events == [] then None
    else
      var pre := events[..|events| - 1];
      var before := Run(s, k, pre);
      if u < |before.servers| && ConnectionFails(before, k, events[|events| - 1], u) then Some(before.now)
      else LastFailed(s, k, pre, u)
  }

  lemma {:induction false} FailedIsLast(s: State, k: Knobs, events: seq<Event>, u: nat)
    requires Sized(s) && Sound(k)
    ensures Lifetimes.LastFailure(LifeOf(s, k, events, u)) == LastFailed(s, k, events, u)
  {
    if events != [] {
      var pre, e := events[..|events| - 1], events[|events| - 1];
      FailedIsLast(s, k, pre, u);
      LastOfLife(LifeOf(s, k, pre, u), BefallsIn(Run(s, k, pre), k, e, u));
      LastOfOne(Run(s, k, pre), k, e, u);
    }
  }

  lemma {:induction false} LastOfLife(a: seq<Lifetimes.Happening>, b: seq<Lifetimes.Happening>)
    ensures Lifetimes.LastFailure(a + b)
         == if Lifetimes.LastFailure(b).Some? then Lifetimes.LastFailure(b) else Lifetimes.LastFailure(a)
    decreases |b|
  {
    if b == [] {
      assert a + b == a;
    } else {
      assert (a + b)[..|a| + |b| - 1] == a + b[..|b| - 1];
      LastOfLife(a, b[..|b| - 1]);
    }
  }

  lemma LastOfOne(s: State, k: Knobs, e: Event, u: nat)
    requires Sized(s) && Sound(k)
    ensures Lifetimes.LastFailure(BefallsIn(s, k, e, u))
         == if u < |s.servers| && ConnectionFails(s, k, e, u) then Some(s.now) else None
  {
    if u < |s.servers| {
      var hs := BefallsIn(s, k, e, u);
      LastOfLife(hs[..0], hs);
    }
  }

  /** In every run a server is out from its last failure until the cooldown is over, and no longer. */
  lemma OutForTheCooldown(n: nat, k: Knobs, events: seq<Event>, u: nat, t: real)
    requires Sound(k)
    ensures Sized(Init(n))
    ensures var s, failed := Run(Init(n), k, events), LastFailed(Init(n), k, events, u);
            u < |s.servers| ==>
              (IsUp(s.servers[u], t) <==> if failed.Some? then failed.value + k.cooldown <= t else 0.0 <= t)
  {
    RunIsTrue(n, k, events, u);
    FailedIsLast(Init(n), k, events, u);
  }

  /** And while it is out it gets a request only if no untried server is up. */
  lemma NotPickedWhileOut(n: nat, slack: real, cooldown: real, events: seq<Event>, r: nat, v: nat)
    ensures Sized(Init(n)) && Sound(RouterKnobs(slack, cooldown))
    ensures var k := RouterKnobs(slack, cooldown);
            var s := Run(Init(n), k, events);
            r < |s.phases| && s.phases[r].Choosing? ==>
              var f := Handle(s, k, r, Choice(true)).phases[r];
              f.Sending? && f.pick.u < |s.servers| && LastFailed(Init(n), k, events, f.pick.u).Some?
              && s.now < LastFailed(Init(n), k, events, f.pick.u).value + cooldown
              && Untried(s.list, s.phases[r].tried, v)
              ==> !IsUp(At(s.servers, v), s.now)
  {
    var k := RouterKnobs(slack, cooldown);
    RouterIsSound(slack, cooldown);
    InitIsSized(n);
    var s := Run(Init(n), k, events);
    if r < |s.phases| && s.phases[r].Choosing? {
      var p := s.phases[r];
      UnconfirmedOnlyIfNoneIs(s.list, s.servers, p.key, p.model, p.tried, s.now, slack, v);
      var f := Handle(s, k, r, Choice(true)).phases[r];
      if f.Sending? && f.pick.u < |s.servers| {
        OutForTheCooldown(n, k, events, f.pick.u, s.now);
      }
    }
  }

  /** The router itself: all of this for its own choice. */
  lemma RouterRuns(n: nat, slack: real, cooldown: real, events: seq<Event>, u: nat)
    ensures Sized(Init(n)) && Sound(RouterKnobs(slack, cooldown))
    ensures var s := Run(Init(n), RouterKnobs(slack, cooldown), events);
            && 0 <= SumInflight(s.servers) <= s.inflight == CountIn(s.phases)
            && SumSent(s.servers) == SumSticky(s.servers) + SumOverflow(s.servers) + s.keyless
            && TalliesAreTrue(s, Init(n), RouterKnobs(slack, cooldown), events)
            && (u < |s.servers| ==> s.servers[u].inflight == CountHeld(s.phases, u))
            && (u < |s.servers| && s.servers[u].models.Some? ==> s.marks[u].lastDown < s.marks[u].listFrom)
  {
    var k := RouterKnobs(slack, cooldown);
    RouterIsSound(slack, cooldown);
    RunKeepsCounts(n, k, events);
    RunKeepsListsFresh(n, k, events, u);
  }
}
