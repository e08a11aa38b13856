/** One client request in the LLM router (infra/llm-router/llm_router.py): the failover loop of _forward, and what
    the client gets to see of it (_relay, _proxy). */
module Forwarding {
  import opened Options
  import opened Upstreams

  type Bytes = seq<bv8>

  /** What the chosen server does with the request: no request could be made for its address, no connection, cut off
      before the head of a response, an unexpected error in between, or a response, whole or cut off. */
  datatype Ending =
    | NotBuilt | NotReached | BrokenOff | Failed
    | Responded(status: nat, chunks: seq<Bytes>, broken: bool)

  /** Past the stage of connecting: the request may have arrived. */
  predicate Arrived(e: Ending) { e.BrokenOff? || e.Failed? || e.Responded? }

  /** A round of the loop: the list, the servers and the clock it finds, and how its attempt ends. */
  datatype Round = Round(list: seq<nat>, table: Table, now: real, ending: Ending)

  datatype Attempt = Attempt(u: nat, ending: Ending)

  /** How the loop ends; Waiting while the script of rounds has not got there. */
  datatype End = Waiting | NoServers | AllFailed(n: nat) | Gone(last: Attempt)

  datatype Request = Request(key: Key, model: Option<string>, slack: real)

  datatype Run = Run(attempts: seq<Attempt>, end: End)

  /** _choose in a round, given whom the loop has tried. */
  type Chooser = (Round, seq<nat>) -> Option<nat>

  function ChooserOf(q: Request): Chooser {
    (w: Round, tried: seq<nat>) =>
      var c := Choose(w.list, w.table, q.key, q.model, tried, w.now, q.slack);
      if c.None? then None else Some(c.value.u)
  }

  /** What the loop needs of the choice: an untried listed server as long as there is one. */
  ghost predicate Picks(choose: Chooser) { forall w: Round, tried: seq<nat> :: PicksWell(choose(w, tried), w, tried) }

  ghost predicate PicksWell(c: Option<nat>, w: Round, tried: seq<nat>) {
    match c
    case None => forall u :: u in w.list ==> u in tried
    case Some(u) => u in w.list && u !in tried
  }

  lemma ChooserPicksWell(q: Request, w: Round, tried: seq<nat>)
    ensures PicksWell(ChooserOf(q)(w, tried), w, tried)
  {
    CandidatesExist(w.list, w.table, q.model, tried, w.now);
    PickIsListed(w.list, w.table, q.key, q.model, tried, w.now, q.slack);
  }

  lemma ChooserPicks(q: Request)
    ensures Picks(ChooserOf(q))
  {
    var choose := ChooserOf(q);
    forall w: Round, tried: seq<nat>
      ensures PicksWell(choose(w, tried), w, tried)
    {
      ChooserPicksWell(q, w, tried);
    }
  }

  function Tried(attempts: seq<Attempt>): (r: seq<nat>)
    ensures |r| == |attempts| && forall i :: 0 <= i < |r| ==> r[i] == attempts[i].u
  {
    if attempts == [] then [] else Tried(attempts[..|attempts| - 1]) + [attempts[|attempts| - 1].u]
  }

  /** The loop of _forward from round i on. */
  function Forward(choose: Chooser, script: seq<Round>, i: nat, attempts: seq<Attempt>): Run
    requires i <= |script|
    decreases |script| - i
  {
    if i == |script| then Run(attempts, Waiting)
    else
      var w := script[i];
      var c := choose(w, Tried(attempts));
      if c.None? then Run(attempts, if w.list == [] then NoServers else AllFailed(|attempts|))
      else
        var last := Attempt(c.value, w.ending);
        if Arrived(w.ending) then Run(attempts + [last], Gone(last))
        else Forward(choose, script, i + 1, attempts + [last])
  }

  lemma TriedSnoc(attempts: seq<Attempt>, last: Attempt)
    ensures Tried(attempts + [last]) == Tried(attempts) + [last.u]
  {
    assert (attempts + [last])[..|attempts|] == attempts;
  }

  /** _forward, up to the response. */
  method ForwardLoop(choose: Chooser, script: seq<Round>) returns (run: Run)
    ensures run == Forward(choose, script, 0, [])
  {
    var attempts: seq<Attempt>, tried: seq<nat> := [], [];
    for i := 0 to |script|
      invariant tried == Tried(attempts)
      invariant Forward(choose, script, 0, []) == Forward(choose, script, i, attempts)
    {
      var w := script[i];
      var c := choose(w, tried);
      if c.None? {
        return Run(attempts, if w.list == [] then NoServers else AllFailed(|tried|));
      }
      var last := Attempt(c.value, w.ending);
      TriedSnoc(attempts, last);
      tried, attempts := tried + [last.u], attempts + [last];
      if Arrived(w.ending) {
        return Run(attempts, Gone(last));
      }
    }
    return Run(attempts, Waiting);
  }

  // ---------------------------------------------------------------- failover

  /** The server got nothing: no request could be made for it, or no connection to it. */
  ghost predicate Unsent(a: Attempt) { a.ending.NotBuilt? || a.ending.NotReached? }

  /** No server is attempted twice, and only the last attempt may have arrived. */
  ghost predicate Careful(attempts: seq<Attempt>) {
    && (forall i, j :: 0 <= i < j < |attempts| ==> attempts[i].u != attempts[j].u)
    && (forall i :: 0 <= i < |attempts| - 1 ==> Unsent(attempts[i]))
  }

  ghost predicate NoneArrived(attempts: seq<Attempt>) {
    forall i :: 0 <= i < |attempts| ==> Unsent(attempts[i])
  }

  /** What the loop promises: `all failed` only when every listed server was tried and none reached, `no servers` only
      for an empty list, and otherwise that one server got the request, after the others could not be reached. */
  ghost predicate Honest(script: seq<Round>, run: Run) {
    && Careful(run.attempts)
    && match run.end
       case Waiting => NoneArrived(run.attempts) && |run.attempts| == |script|
       case NoServers => NoneArrived(run.attempts) && |run.attempts| < |script| && script[|run.attempts|].list == []
       case AllFailed(n) => && NoneArrived(run.attempts) && n == |run.attempts| < |script|
                            && script[n].list != []
                            && forall u :: u in script[n].list ==> exists i :: 0 <= i < n && run.attempts[i].u == u
       case Gone(last) => run.attempts != [] && last == run.attempts[|run.attempts| - 1] && !Unsent(last)
  }

  lemma CarefulSnoc(attempts: seq<Attempt>, last: Attempt)
    requires Careful(attempts) && NoneArrived(attempts) && last.u !in Tried(attempts)
    ensures Careful(attempts + [last])
    ensures !Arrived(last.ending) ==> NoneArrived(attempts + [last])
  {
    assert forall k :: 0 <= k < |attempts| ==> attempts[k].u == Tried(attempts)[k];
  }

  lemma AllTried(attempts: seq<Attempt>, list: seq<nat>)
    requires forall u :: u in list ==> u in Tried(attempts)
    ensures forall u :: u in list ==> exists i :: 0 <= i < |attempts| && attempts[i].u == u
  {
    forall u | u in list
      ensures exists i :: 0 <= i < |attempts| && attempts[i].u == u
    {
      var i :| 0 <= i < |attempts| && Tried(attempts)[i] == u;
      assert attempts[i].u == u;
    }
  }

  lemma {:induction false} ForwardIsHonest(choose: Chooser, script: seq<Round>, i: nat, attempts: seq<Attempt>)
    requires i <= |script| && |attempts| == i && Careful(attempts) && NoneArrived(attempts) && Picks(choose)
    ensures Honest(script, Forward(choose, script, i, attempts))
    decreases |script| - i
  {
    if i < |script| {
      var w := script[i];
      var c := choose(w, Tried(attempts));
      if c.Some? {
        var last := Attempt(c.value, w.ending);
        CarefulSnoc(attempts, last);
        if !Arrived(w.ending) {
          ForwardIsHonest(choose, script, i + 1, attempts + [last]);
        }
      } else {
        AllTried(attempts, w.list);
      }
    }
  }

  ghost predicate Listed(attempts: seq<Attempt>, list: seq<nat>) {
    forall k :: 0 <= k < |attempts| ==> attempts[k].u in list
  }

  lemma {:induction false} PicksAreListed(choose: Chooser, script: seq<Round>, i: nat, attempts: seq<Attempt>,
                                          list: seq<nat>)
    requires i <= |script| && (forall k :: 0 <= k < |script| ==> script[k].list == list) && Picks(choose)
    requires Listed(attempts, list)
    ensures Listed(Forward(choose, script, i, attempts).attempts, list)
    decreases |script| - i
  {
    if i < |script| {
      var w := script[i];
      var c := choose(w, Tried(attempts));
      if c.Some? {
        assert w.list == list && c.value in w.list;
        var more := attempts + [Attempt(c.value, w.ending)];
        assert Listed(more, list);
        if !Arrived(w.ending) {
          PicksAreListed(choose, script, i + 1, more, list);
        }
      }
    }
  }

  /** Distinct entries of a list are no more than the list is long. */
  lemma {:induction false} NoMoreThanListed(s: seq<nat>, list: seq<nat>)
    requires forall i, j :: 0 <= i < j < |s| ==> s[i] != s[j]
    requires forall i :: 0 <= i < |s| ==> s[i] in list
    ensures |s| <= |list|
  {
    if s != [] {
      var n := |s| - 1;
      var k :| 0 <= k < |list| && list[k] == s[n];
      var rest := list[..k] + list[k + 1..];
      forall i | 0 <= i < n
        ensures s[i] in rest
      {
        var m :| 0 <= m < |list| && list[m] == s[i];
        assert m != k;
        assert if m < k then rest[m] == s[i] else rest[m - 1] == s[i];
      }
      NoMoreThanListed(s[..n], rest);
    }
  }

  lemma AttemptsAreFew(attempts: seq<Attempt>, list: seq<nat>)
    requires Careful(attempts) && Listed(attempts, list)
    ensures |attempts| <= |list|
  {
    NoMoreThanListed(Tried(attempts), list);
  }

  lemma LoopEnds(choose: Chooser, script: seq<Round>, list: seq<nat>)
    requires Picks(choose) && (forall k :: 0 <= k < |script| ==> script[k].list == list) && |list| < |script|
    ensures var run := Forward(choose, script, 0, []);
            !run.end.Waiting? && |run.attempts| <= |list| && (run.end.NoServers? <==> list == [])
  {
    ForwardIsHonest(choose, script, 0, []);
    PicksAreListed(choose, script, 0, [], list);
    AttemptsAreFew(Forward(choose, script, 0, []).attempts, list);
  }

  /** Over any rounds, whatever fails in between and however the list changes. */
  lemma FailoverIsSafe(q: Request, script: seq<Round>)
    ensures Honest(script, Forward(ChooserOf(q), script, 0, []))
  {
    ChooserPicks(q);
    ForwardIsHonest(ChooserOf(q), script, 0, []);
  }

  /** Attempt n goes to the choice of its round among those not tried before. */
  ghost predicate ChosenAt(choose: Chooser, script: seq<Round>, attempts: seq<Attempt>, n: nat)
    requires n < |attempts| <= |script|
  {
    && choose(script[n], Tried(attempts[..n])) == Some(attempts[n].u)
    && attempts[n].ending == script[n].ending
  }

  ghost predicate AllChosen(choose: Chooser, script: seq<Round>, attempts: seq<Attempt>) {
    attempts == [] || (|attempts| <= |script| && ChosenAt(choose, script, attempts, |attempts| - 1)
                       && AllChosen(choose, script, attempts[..|attempts| - 1]))
  }

  lemma ChosenSnoc(choose: Chooser, script: seq<Round>, attempts: seq<Attempt>, last: Attempt)
    requires AllChosen(choose, script, attempts) && |attempts| < |script|
    requires choose(script[|attempts|], Tried(attempts)) == Some(last.u) && last.ending == script[|attempts|].ending
    ensures AllChosen(choose, script, attempts + [last])
  {
    assert (attempts + [last])[..|attempts|] == attempts;
  }

  lemma {:induction false} EachIsChosen(choose: Chooser, script: seq<Round>, attempts: seq<Attempt>, n: nat)
    requires AllChosen(choose, script, attempts) && n < |attempts|
    ensures |attempts| <= |script| && ChosenAt(choose, script, attempts, n)
  {
    var k := |attempts| - 1;
    if n < k {
      EachIsChosen(choose, script, attempts[..k], n);
      assert attempts[..k][..n] == attempts[..n];
    }
  }

  lemma {:induction false} LoopChooses(choose: Chooser, script: seq<Round>, i: nat, attempts: seq<Attempt>)
    requires i <= |script| && |attempts| == i && AllChosen(choose, script, attempts)
    ensures AllChosen(choose, script, Forward(choose, script, i, attempts).attempts)
    decreases |script| - i
  {
    if i < |script| {
      var w, c := script[i], choose(script[i], Tried(attempts));
      if c.Some? {
        var last := Attempt(c.value, w.ending);
        ChosenSnoc(choose, script, attempts, last);
        if !Arrived(w.ending) {
          LoopChooses(choose, script, i + 1, attempts + [last]);
        }
      }
    }
  }

  /** The server that the router picks in a round, by the request's key, model and slack. */
  ghost predicate IsPick(q: Request, w: Round, tried: seq<nat>, u: nat) {
    var c := Choose(w.list, w.table, q.key, q.model, tried, w.now, q.slack);
    c.Some? && c.value.u == u
  }

  /** Every attempt of the loop goes to the pick of its round among those not tried so far. */
  lemma AttemptsAreChosen(q: Request, script: seq<Round>)
    ensures var attempts := Forward(ChooserOf(q), script, 0, []).attempts;
            && |attempts| <= |script|
            && forall n :: 0 <= n < |attempts| ==> IsPick(q, script[n], Tried(attempts[..n]), attempts[n].u)
  {
    LoopChooses(ChooserOf(q), script, 0, []);
    var attempts := Forward(ChooserOf(q), script, 0, []).attempts;
    forall n | 0 <= n < |attempts|
      ensures IsPick(q, script[n], Tried(attempts[..n]), attempts[n].u)
    {
      EachIsChosen(ChooserOf(q), script, attempts, n);
    }
  }

  /** With a fixed list the loop ends after at most one attempt per listed server and one more round. */
  lemma FailoverEnds(q: Request, script: seq<Round>, list: seq<nat>)
    requires (forall k :: 0 <= k < |script| ==> script[k].list == list) && |list| < |script|
    ensures var run := Forward(ChooserOf(q), script, 0, []);
            !run.end.Waiting? && |run.attempts| <= |list| && (run.end.NoServers? <==> list == [])
  {
    ChooserPicks(q);
    LoopEnds(ChooserOf(q), script, list);
  }

  // ---------------------------------------------------------------- what the client sees

  datatype Message = Head(status: nat, from: Option<nat>) | Body(bytes: Bytes, more: bool)

  /** How a send ends: it may raise, or the request be cancelled there. */
  datatype Sending = Ok | Raised | Cancelled

  type Fault = s: Sending | !s.Ok? witness Raised

  /** The body messages of a relayed response. */
  function Chunks(chunks: seq<Bytes>): seq<Message> {
    if chunks == [] then []
    else
      var n := |chunks| - 1;
      if chunks[n] == [] then Chunks(chunks[..n]) else Chunks(chunks[..n]) + [Body(chunks[n], true)]
  }

  /** All that _relay has to say: the end marker only if the server's body came to its end. */
  function RelayPlan(u: nat, e: Ending): seq<Message>
    requires e.Responded?
  {
    [Head(e.status, Some(u))] + Chunks(e.chunks) + if e.broken then [] else [Body([], false)]
  }

  function JsonPlan(status: nat, body: Bytes): seq<Message> { [Head(status, None), Body(body, false)] }

  /** The response to the end of the loop. */
  function Plan(end: End, error: Bytes): seq<Message>
    requires !end.Waiting?
  {
    match end
    case NoServers => JsonPlan(503, error)
    case AllFailed(_) => JsonPlan(502, error)
    case Gone(last) => if last.ending.Responded? then RelayPlan(last.u, last.ending) else JsonPlan(502, error)
  }

  /** Whether an exception escapes from _forward of its own: before there is a response to give, or when the connection
      to a server that responded is closed. */
  datatype Crash = NoCrash | BeforeResponse | AtClose

  /** The response of the whole request: a crash at the close keeps the end marker back. */
  function ReplyPlan(end: End, error: Bytes, crash: Crash): seq<Message>
    requires crash.BeforeResponse? || !end.Waiting?
  {
    if crash.BeforeResponse? then JsonPlan(502, error)
    else if crash.AtClose? && end.Gone? && end.last.ending.Responded? then
      RelayPlan(end.last.u, end.last.ending.(broken := true))
    else Plan(end, error)
  }

  /** What comes through of a plan when the send number `at` does not. */
  function Cut(plan: seq<Message>, at: Option<nat>): seq<Message> {
    if at.Some? && at.value < |plan| then plan[..at.value] else plan
  }

  /** The client's side of a request: `log` is what reached it, `started` the flag of _proxy. The send number `faultAt`,
      if there is one, ends in `fault`. */
  class Client {
    var log: seq<Message>
    var started: bool
    var sends: nat
    const faultAt: Option<nat>
    const fault: Fault

    constructor (faultAt: Option<nat>, fault: Fault)
      ensures log == [] && !started && sends == 0 && this.faultAt == faultAt && this.fault == fault
    {
      log, started, sends, this.faultAt, this.fault := [], false, 0, faultAt, fault;
    }

    /** send_. */
    method Send(msg: Message) returns (r: Sending)
      modifies this
      ensures sends == old(sends) + 1 && started == (old(started) || msg.Head?)
      ensures if faultAt == Some(old(sends)) then r == fault && log == old(log) else r.Ok? && log == old(log) + [msg]
    {
      if msg.Head? {
        started := true;
      }
      r := if faultAt == Some(sends) then fault else Ok;
      sends := sends + 1;
      if r.Ok? {
        log := log + [msg];
      }
    }

    /** _send_json. */
    method SendJson(status: nat, body: Bytes) returns (r: Sending)
      requires sends == 0 && log == []
      modifies this
      ensures started && log == Cut(JsonPlan(status, body), faultAt)
      ensures r == if faultAt.Some? && faultAt.value < 2 then fault else Ok
    {
      r := Send(Head(status, None));
      if r.Ok? {
        r := Send(Body(body, false));
      }
    }

    /** The loop of _relay over the chunks of a response. */
    method SendChunks(chunks: seq<Bytes>, ghost head: Message) returns (r: Sending)
      requires sends == 1 && log == [head] && started && faultAt != Some(0)
      modifies this
      ensures started && log == Cut([head] + Chunks(chunks), faultAt)
      ensures r == (if faultAt.Some? && faultAt.value < 1 + |Chunks(chunks)| then fault else Ok)
      ensures r.Ok? ==> sends == 1 + |Chunks(chunks)|
    {
      r := Ok;
      assert chunks[..0] == [] && chunks[..|chunks|] == chunks;
      for i := 0 to |chunks|
        invariant r.Ok? && started && sends == 1 + |Chunks(chunks[..i])| && log == [head] + Chunks(chunks[..i])
        invariant faultAt.Some? ==> sends <= faultAt.value
      {
        ghost var before := Chunks(chunks[..i]);
        assert chunks[..i + 1][..i] == chunks[..i];
        if chunks[i] != [] {
          r := Send(Body(chunks[i], true));
          if !r.Ok? {
            ChunksGrow(chunks, i + 1);
            CutInside([head] + Chunks(chunks), [head] + before, faultAt);
            return;
          }
        }
      }
    }

    /** _relay: a break on either side ends it without the end marker, and quietly, unless closing the connection to
        the server raises; what the last send raises is raised. */
    method Relay(u: nat, e: Ending, crash: Crash) returns (r: Sending)
      requires e.Responded? && sends == 0 && log == []
      modifies this
      ensures started && log == Cut(RelayPlan(u, e.(broken := e.broken || crash.AtClose?)), faultAt)
    {
      ghost var head := Head(e.status, Some(u));
      ghost var plan := RelayPlan(u, e.(broken := e.broken || crash.AtClose?));
      r := Send(Head(e.status, Some(u)));
      if r.Ok? {
        r := SendChunks(e.chunks, head);
        CutInside(plan, [head] + Chunks(e.chunks), faultAt);
      }
      if r.Cancelled? {
        return;
      }
      var broken := e.broken || !r.Ok?;
      if crash.AtClose? {
        return Raised;
      }
      if broken {
        return Ok;
      }
      assert plan == [head] + Chunks(e.chunks) + [Body([], false)];
      r := Send(Body([], false));
    }

    /** The response part of _forward. */
    method Answer(end: End, error: Bytes, crash: Crash) returns (r: Sending)
      requires !end.Waiting? && !crash.BeforeResponse? && sends == 0 && log == []
      modifies this
      ensures started && log == Cut(ReplyPlan(end, error, crash), faultAt)
    {
      match end {
        case NoServers => r := SendJson(503, error);
        case AllFailed(_) => r := SendJson(502, error);
        case Gone(last) =>
          if last.ending.Responded? {
            r := Relay(last.u, last.ending, crash);
          } else {
            r := SendJson(502, error);
          }
      }
    }

    /** _proxy around _forward: an exception gets a response of its own, but only if none has started. */
    method Respond(end: End, error: Bytes, crash: Crash)
      requires (crash.BeforeResponse? || !end.Waiting?) && sends == 0 && log == [] && !started
      modifies this
      ensures log == Cut(ReplyPlan(end, error, crash), faultAt)
    {
      var r := Raised;
      if !crash.BeforeResponse? {
        r := Answer(end, error, crash);
      }
      if r.Raised? {
        if !started {
          r := SendJson(502, error);
        }
      }
    }
  }

  lemma {:induction false} ChunksGrow(chunks: seq<Bytes>, i: nat)
    requires i <= |chunks|
    ensures Chunks(chunks[..i]) <= Chunks(chunks)
    decreases |chunks| - i
  {
    if i < |chunks| {
      ChunksGrow(chunks, i + 1);
      assert chunks[..i + 1][..i] == chunks[..i];
    } else {
      assert chunks[..i] == chunks;
    }
  }

  lemma CutInside(plan: seq<Message>, part: seq<Message>, at: Option<nat>)
    requires part <= plan
    ensures at.Some? && at.value <= |part| && at.value < |plan| ==> Cut(plan, at) == part[..at.value]
    ensures at.Some? && at.value == |part| < |plan| ==> Cut(plan, at) == part
  {
  }

  // ---------------------------------------------------------------- what a response means

  function AllBytes(chunks: seq<Bytes>): Bytes {
    if chunks == [] then [] else AllBytes(chunks[..|chunks| - 1]) + chunks[|chunks| - 1]
  }

  function BytesOf(log: seq<Message>): Bytes {
    if log == [] then []
    else
      var last := log[|log| - 1];
      BytesOf(log[..|log| - 1]) + if last.Body? then last.bytes else []
  }

  /** At most one head, and it comes first. */
  ghost predicate OneHead(log: seq<Message>) { forall i :: 0 <= i < |log| ==> (log[i].Head? <==> i == 0) }

  ghost predicate Ended(log: seq<Message>) { log != [] && log[|log| - 1].Body? && !log[|log| - 1].more }

  lemma {:induction false} ChunksAre(chunks: seq<Bytes>)
    ensures BytesOf(Chunks(chunks)) == AllBytes(chunks)
    ensures forall i :: 0 <= i < |Chunks(chunks)| ==> Chunks(chunks)[i].Body? && Chunks(chunks)[i].more
  {
    if chunks != [] {
      var n := |chunks| - 1;
      ChunksAre(chunks[..n]);
      assert (Chunks(chunks[..n]) + [Body(chunks[n], true)])[..|Chunks(chunks[..n])|] == Chunks(chunks[..n]);
    }
  }

  lemma {:induction false} BytesConcat(a: seq<Message>, b: seq<Message>)
    ensures BytesOf(a + b) == BytesOf(a) + BytesOf(b)
    decreases |b|
  {
    if b == [] {
      assert a + b == a;
    } else {
      var n := |b| - 1;
      assert (a + b)[..|a| + n] == a + b[..n];
      BytesConcat(a, b[..n]);
    }
  }

  lemma BytesOfPrefix(log: seq<Message>, plan: seq<Message>)
    requires log <= plan
    ensures BytesOf(log) <= BytesOf(plan)
  {
    assert plan == log + plan[|log|..];
    BytesConcat(log, plan[|log|..]);
  }

  lemma RelayPlanIs(u: nat, e: Ending)
    requires e.Responded?
    ensures OneHead(RelayPlan(u, e)) && BytesOf(RelayPlan(u, e)) == AllBytes(e.chunks)
    ensures forall i :: 0 <= i < |RelayPlan(u, e)| && RelayPlan(u, e)[i].Body? && !RelayPlan(u, e)[i].more
                    ==> i == |RelayPlan(u, e)| - 1 && !e.broken
  {
    var head, tail := [Head(e.status, Some(u))], if e.broken then [] else [Body([], false)];
    ChunksAre(e.chunks);
    BytesConcat(head, Chunks(e.chunks));
    BytesConcat(head + Chunks(e.chunks), tail);
    assert head[..0] == [] && BytesOf(head) == [];
    assert tail != [] ==> tail[..0] == [];
    assert BytesOf(tail) == [];
  }

  /** However a relayed response is cut: one head at most, the bytes a prefix of the server's in their order, and the
      end marker only behind all of them and never after a break. */
  lemma RelayedIsFaithful(u: nat, e: Ending, at: Option<nat>)
    requires e.Responded?
    ensures var log := Cut(RelayPlan(u, e), at);
            && OneHead(log) && BytesOf(log) <= AllBytes(e.chunks)
            && (Ended(log) ==> BytesOf(log) == AllBytes(e.chunks) && !e.broken)
            && (at.None? && !e.broken ==> Ended(log))
  {
    var plan, log := RelayPlan(u, e), Cut(RelayPlan(u, e), at);
    RelayPlanIs(u, e);
    BytesOfPrefix(log, plan);
    if Ended(log) {
      assert plan[|log| - 1] == log[|log| - 1];
    }
  }

  lemma JsonIsOneHead(status: nat, body: Bytes, at: Option<nat>)
    ensures var log := Cut(JsonPlan(status, body), at);
            && OneHead(log) && (log != [] ==> log[0] == Head(status, None))
            && (Ended(log) ==> BytesOf(log) == body) && (at.None? ==> Ended(log))
  {
    var plan := JsonPlan(status, body);
    assert plan[..2] == plan && plan[..1] == [plan[0]] && [plan[0]][..0] == [];
    assert BytesOf([plan[0]]) == [];
    assert BytesOf(plan) == body;
  }

  /** What a cut response owes to the end of the loop: a head from a server only if that server responded, with its
      status, and then a prefix of its body, ended only if that is whole; and else a head of the router's own, 503 if
      there was no server and 502 for any failure, with the error behind it. */
  ghost predicate Faithful(log: seq<Message>, end: End, crash: Crash, error: Bytes) {
    && OneHead(log)
    && (log != [] && log[0].from.Some? ==>
         && !crash.BeforeResponse? && end.Gone? && end.last.u == log[0].from.value && end.last.ending.Responded?
         && log[0].status == end.last.ending.status
         && BytesOf(log) <= AllBytes(end.last.ending.chunks)
         && (Ended(log) ==> BytesOf(log) == AllBytes(end.last.ending.chunks) && !end.last.ending.broken))
    && (log != [] && log[0].from.None? ==>
         && (crash.BeforeResponse? || !(end.Gone? && end.last.ending.Responded?))
         && log[0].status == (if end.NoServers? && !crash.BeforeResponse? then 503 else 502)
         && (Ended(log) ==> BytesOf(log) == error))
  }

  lemma CutHead(u: nat, e: Ending, at: Option<nat>)
    requires e.Responded?
    ensures Cut(RelayPlan(u, e), at) != [] ==> Cut(RelayPlan(u, e), at)[0] == Head(e.status, Some(u))
  {
  }

  /** The response to the end of the loop, cut anywhere; if it is not cut, it has a head, and an end unless the server's
      own response had none or its connection could not be closed. */
  lemma ResponseIsFaithful(end: End, error: Bytes, crash: Crash, at: Option<nat>)
    requires crash.BeforeResponse? || !end.Waiting?
    ensures Faithful(Cut(ReplyPlan(end, error, crash), at), end, crash, error)
    ensures at.None? ==> Cut(ReplyPlan(end, error, crash), at) != []
    ensures at.None? && !crash.AtClose? && !(end.Gone? && end.last.ending.Responded? && end.last.ending.broken)
        ==> Ended(Cut(ReplyPlan(end, error, crash), at))
  {
    if !crash.BeforeResponse? && end.Gone? && end.last.ending.Responded? {
      var e := end.last.ending.(broken := end.last.ending.broken || crash.AtClose?);
      RelayedIsFaithful(end.last.u, e, at);
      CutHead(end.last.u, e, at);
    } else {
      JsonIsOneHead(if end.NoServers? && !crash.BeforeResponse? then 503 else 502, error, at);
    }
  }

  /** The whole request, over any rounds, its response cut anywhere, whatever escapes from _forward: a head from a
      server comes from the last server attempted, and no other attempt had reached its server. */
  lemma RequestIsFaithful(q: Request, script: seq<Round>, error: Bytes, crash: Crash, at: Option<nat>)
    requires crash.BeforeResponse? || !Forward(ChooserOf(q), script, 0, []).end.Waiting?
    ensures var run := Forward(ChooserOf(q), script, 0, []);
            Honest(script, run) && Faithful(Cut(ReplyPlan(run.end, error, crash), at), run.end, crash, error)
  {
    FailoverIsSafe(q, script);
    ResponseIsFaithful(Forward(ChooserOf(q), script, 0, []).end, error, crash, at);
  }
}
