/** The pool of workers that claim and answer tasks (infra/pipeline/hwax-risk-claude.js, workLoop).

    Workers run concurrently and share S. A stretch of code between two awaits is one step, so a
    step that ends in `continue` also runs the head of the loop up to the next claim. */
module WorkerPool {

  /** Where a worker is. Claiming waits for an agent that asks for a task at most `polls` times;
      Running is a worker inside a step, about to run the head of the loop. */
  datatype Place = Running | Claiming(act0: nat, polls: nat) | Handling | Stopped(idle: bool)

  /** quiet and fails are the loop's variables. used, for the proofs only, is the number of agents
      used since the last claim. */
  datatype Worker = Worker(place: Place, quiet: nat, fails: nat, used: nat)

  /** The shared state S; `claimed` counts the tasks handed over so far. */
  datatype Pool = Pool(stop: bool, taken: int, busy: int, activity: nat, agents: nat,
                       claimed: nat, workers: seq<Worker>)

  /** maxTasks = 0 means no limit. */
  datatype Limits = Limits(maxTasks: nat, idlePolls: nat, pollsPerAgent: nat, agentCap: nat, claimFailMax: nat)

  /** What a claim comes back with. */
  datatype Got = Task | NoTool | Error | Empty(polls: nat)

  // ---------------------------------------------------------------- steps

  /** The head of the loop: stop, or take a claim slot and start a claiming agent. */
  function Head(l: Limits, p: Pool, w: nat): Pool
    requires w < |p.workers|
  {
    var me := p.workers[w];
    if p.stop || (l.maxTasks > 0 && p.taken >= l.maxTasks) then
      p.(workers := p.workers[w := me.(place := Stopped(false))])
    else if p.agents >= l.agentCap then
      p.(stop := true, workers := p.workers[w := me.(place := Stopped(false))])
    else
      var left := if l.idlePolls > me.quiet then l.idlePolls - me.quiet else 0;
      var polls := if l.pollsPerAgent < left then l.pollsPerAgent else left;
      p.(taken := p.taken + 1, agents := p.agents + 1,
         workers := p.workers[w := me.(place := Claiming(p.activity, polls), used := 1)])
  }

  /** A claim comes back. */
  function Return(l: Limits, p: Pool, w: nat, got: Got): Pool
    requires w < |p.workers| && p.workers[w].place.Claiming?
  {
    var me := p.workers[w];
    match got
    case Task =>
      p.(activity := p.activity + 1, busy := p.busy + 1, claimed := p.claimed + 1,
         workers := p.workers[w := me.(place := Handling, quiet := 0, fails := 0)])
    case NoTool =>
      p.(taken := p.taken - 1, stop := true, workers := p.workers[w := me.(place := Stopped(false))])
    case Error =>
      var mine := me.(place := Running, fails := me.fails + 1);
      if mine.fails >= l.claimFailMax then
        p.(taken := p.taken - 1, stop := true, workers := p.workers[w := mine.(place := Stopped(false))])
      else
        Head(l, p.(taken := p.taken - 1, workers := p.workers[w := mine]), w)
    case Empty(polls) =>
      if p.activity != me.place.act0 || p.busy > 0 then
        var mine := me.(place := Running, quiet := 0, fails := 0);
        Head(l, p.(taken := p.taken - 1, workers := p.workers[w := mine]), w)
      else
        var mine := me.(place := Running, quiet := me.quiet + polls, fails := 0);
        if mine.quiet >= l.idlePolls then
          p.(taken := p.taken - 1, workers := p.workers[w := mine.(place := Stopped(true))])
        else
          Head(l, p.(taken := p.taken - 1, workers := p.workers[w := mine]), w)
  }

  /** A worker ends its task, or its handling throws and the worker stops. */
  function Finish(l: Limits, p: Pool, w: nat, threw: bool): Pool
    requires w < |p.workers| && p.workers[w].place.Handling?
  {
    var q := p.(busy := p.busy - 1, activity := p.activity + 1);
    if threw then q.(workers := q.workers[w := q.workers[w].(place := Stopped(false))])
    else Head(l, q.(workers := q.workers[w := q.workers[w].(place := Running)]), w)
  }

  /** A worker uses one more agent for the task it holds. */
  function UseAgent(p: Pool, w: nat): Pool
    requires w < |p.workers|
  {
    p.(agents := p.agents + 1, workers := p.workers[w := p.workers[w].(used := p.workers[w].used + 1)])
  }

  /** What can happen to a worker next, in the order a schedule picks. */
  datatype Event = Claimed(w: nat, got: Got) | AgentUsed(w: nat) | Ended(w: nat, threw: bool)

  /** An event that cannot happen to its worker leaves the pool as it is. The polls of an empty
      claim lie between 1 and the number asked for. */
  function Do(l: Limits, p: Pool, e: Event): Pool {
    if e.w >= |p.workers| then p
    else
      match p.workers[e.w].place
      case Claiming(_, polls) =>
        if e.Claimed? && (e.got.Empty? ==> 1 <= e.got.polls <= polls) then Return(l, p, e.w, e.got) else p
      case Handling =>
        if e.AgentUsed? then UseAgent(p, e.w) else if e.Ended? then Finish(l, p, e.w, e.threw) else p
      case _ => p
  }

  /** Before the first claim: every worker is about to run the head of the loop. */
  function Start(l: Limits, n: nat, started: nat): Pool
    requires started <= n
    ensures |Start(l, n, started).workers| == n
  {
    if started == 0 then
      Pool(false, 0, 0, 0, 0, 0, seq(n, _ => FRESH))
    else Head(l, Start(l, n, started - 1), started - 1)
  }

  /** The pool of n workers after the first k events of a schedule: any interleaving is a schedule. */
  function At(l: Limits, n: nat, sched: seq<Event>, k: nat): Pool
    requires k <= |sched|
  {
    if k == 0 then Start(l, n, n) else Do(l, At(l, n, sched, k - 1), sched[k - 1])
  }

  // ---------------------------------------------------------------- the invariant

  function Claims(ws: seq<Worker>): nat {
    if ws == [] then 0 else Claims(ws[..|ws| - 1]) + (if ws[|ws| - 1].place.Claiming? then 1 else 0)
  }

  function Holders(ws: seq<Worker>): nat {
    if ws == [] then 0 else Holders(ws[..|ws| - 1]) + (if ws[|ws| - 1].place.Handling? then 1 else 0)
  }

  function AgentsUsed(ws: seq<Worker>): nat {
    if ws == [] then 0 else AgentsUsed(ws[..|ws| - 1]) + ws[|ws| - 1].used
  }

  lemma {:induction false} UpdateCounts(ws: seq<Worker>, w: nat, me: Worker)
    requires w < |ws|
    ensures Claims(ws[w := me])
         == Claims(ws) - (if ws[w].place.Claiming? then 1 else 0) + (if me.place.Claiming? then 1 else 0)
    ensures Holders(ws[w := me])
         == Holders(ws) - (if ws[w].place.Handling? then 1 else 0) + (if me.place.Handling? then 1 else 0)
    ensures AgentsUsed(ws[w := me]) == AgentsUsed(ws) - ws[w].used + me.used
  {
    var n := |ws| - 1;
    if w == n {
      assert ws[w := me][..n] == ws[..n];
    } else {
      assert ws[w := me][..n] == ws[..n][w := me];
      UpdateCounts(ws[..n], w, me);
    }
  }

  /** What a place says of the worker's variables. */
  ghost predicate QuietOk(l: Limits, p: Pool, me: Worker) {
    match me.place
    case Running => me.quiet < l.idlePolls
    case Claiming(act0, polls) =>
      && act0 <= p.activity
      && me.quiet < l.idlePolls && polls <= l.idlePolls - me.quiet
    case Handling => me.quiet == 0
    case Stopped(idle) => true
  }

  ghost predicate Inv(l: Limits, p: Pool) {
    && p.taken == p.claimed + Claims(p.workers)
    && p.busy == Holders(p.workers)
    && (l.maxTasks > 0 ==> p.taken <= l.maxTasks)
    && p.agents <= (if l.agentCap > 0 then l.agentCap - 1 else 0) + AgentsUsed(p.workers)
    && (forall w :: 0 <= w < |p.workers| ==> QuietOk(l, p, p.workers[w]))
  }

  lemma HeadKeeps(l: Limits, p: Pool, w: nat)
    requires Inv(l, p) && w < |p.workers| && p.workers[w].place.Running?
    ensures Inv(l, Head(l, p, w))
  {
    var q := Head(l, p, w);
    UpdateCounts(p.workers, w, p.workers[w].(used := 0));
    UpdateCounts(p.workers, w, q.workers[w]);
    assert q.workers == p.workers[w := q.workers[w]];
  }

  lemma HeadTouches(l: Limits, p: Pool, w: nat)
    requires w < |p.workers|
    ensures var q := Head(l, p, w);
            |q.workers| == |p.workers| && forall v :: 0 <= v < |p.workers| && v != w ==> q.workers[v] == p.workers[v]
  {
  }

  /** Changing one worker keeps the invariant when the shared counters change with it. */
  lemma Reseat(l: Limits, p: Pool, q: Pool, w: nat, mine: Worker)
    requires Inv(l, p) && w < |p.workers| && q.workers == p.workers[w := mine]
    requires p.activity <= q.activity && QuietOk(l, q, mine) && (l.maxTasks > 0 ==> q.taken <= l.maxTasks)
    requires q.taken - q.claimed - (if mine.place.Claiming? then 1 else 0)
          == p.taken - p.claimed - (if p.workers[w].place.Claiming? then 1 else 0)
    requires q.busy - (if mine.place.Handling? then 1 else 0)
          == p.busy - (if p.workers[w].place.Handling? then 1 else 0)
    requires q.agents - mine.used == p.agents - p.workers[w].used
    ensures Inv(l, q)
  {
    UpdateCounts(p.workers, w, mine);
  }

  /** A worker gives its claim slot back and runs the head of the loop. */
  lemma AgainKeeps(l: Limits, p: Pool, w: nat, mine: Worker)
    requires Inv(l, p) && w < |p.workers| && p.workers[w].place.Claiming?
    requires mine.place.Running? && mine.quiet < l.idlePolls && mine.used == p.workers[w].used
    ensures Inv(l, Head(l, p.(taken := p.taken - 1, workers := p.workers[w := mine]), w))
  {
    var between := p.(taken := p.taken - 1, workers := p.workers[w := mine]);
    Reseat(l, p, between, w, mine);
    HeadKeeps(l, between, w);
  }

  lemma EmptyKeeps(l: Limits, p: Pool, w: nat, polls: nat)
    requires Inv(l, p) && w < |p.workers| && p.workers[w].place.Claiming?
    ensures Inv(l, Return(l, p, w, Empty(polls)))
  {
    var me, q := p.workers[w], Return(l, p, w, Empty(polls));
    var counts := p.activity == me.place.act0 && p.busy <= 0;
    var mine := me.(place := Running, quiet := if counts then me.quiet + polls else 0, fails := 0);
    if mine.quiet >= l.idlePolls {
      Reseat(l, p, q, w, q.workers[w]);
    } else {
      AgainKeeps(l, p, w, mine);
    }
  }

  lemma ErrorKeeps(l: Limits, p: Pool, w: nat)
    requires Inv(l, p) && w < |p.workers| && p.workers[w].place.Claiming?
    ensures Inv(l, Return(l, p, w, Error))
  {
    var me, q := p.workers[w], Return(l, p, w, Error);
    var mine := me.(place := Running, fails := me.fails + 1);
    if mine.fails >= l.claimFailMax {
      Reseat(l, p, q, w, q.workers[w]);
    } else {
      AgainKeeps(l, p, w, mine);
    }
  }

  lemma ReturnKeeps(l: Limits, p: Pool, w: nat, got: Got)
    requires Inv(l, p) && w < |p.workers| && p.workers[w].place.Claiming?
    ensures Inv(l, Return(l, p, w, got))
  {
    var q := Return(l, p, w, got);
    match got {
      case Task => Reseat(l, p, q, w, q.workers[w]);
      case NoTool => Reseat(l, p, q, w, q.workers[w]);
      case Error => ErrorKeeps(l, p, w);
      case Empty(polls) => EmptyKeeps(l, p, w, polls);
    }
  }

  lemma FinishKeeps(l: Limits, p: Pool, w: nat, threw: bool)
    requires Inv(l, p) && w < |p.workers| && p.workers[w].place.Handling? && l.idlePolls > 0
    ensures Inv(l, Finish(l, p, w, threw))
  {
    var mine := p.workers[w].(place := if threw then Stopped(false) else Running);
    var q := p.(busy := p.busy - 1, activity := p.activity + 1, workers := p.workers[w := mine]);
    Reseat(l, p, q, w, mine);
    if !threw {
      HeadKeeps(l, q, w);
    }
  }

  lemma UseAgentKeeps(l: Limits, p: Pool, w: nat)
    requires Inv(l, p) && w < |p.workers| && p.workers[w].place.Handling?
    ensures Inv(l, UseAgent(p, w))
  {
    Reseat(l, p, UseAgent(p, w), w, p.workers[w].(used := p.workers[w].used + 1));
  }

  lemma {:induction false} NobodyBusy(n: nat)
    ensures var ws := seq(n, _ => FRESH);
            Claims(ws) == Holders(ws) == AgentsUsed(ws) == 0
  {
    var ws := seq(n, _ => FRESH);
    if n > 0 {
      NobodyBusy(n - 1);
      assert ws[..n - 1] == seq(n - 1, _ => FRESH);
    }
  }

  const FRESH: Worker := Worker(Running, 0, 0, 0)

  /** Workers that have not started are as new. */
  lemma {:induction false} NotStarted(l: Limits, n: nat, started: nat)
    requires started <= n
    ensures forall w :: started <= w < n ==> Start(l, n, started).workers[w] == FRESH
  {
    if started > 0 {
      NotStarted(l, n, started - 1);
      HeadTouches(l, Start(l, n, started - 1), started - 1);
    }
  }

  lemma {:induction false} StartKeeps(l: Limits, n: nat, started: nat)
    requires started <= n && l.idlePolls > 0
    ensures Inv(l, Start(l, n, started))
  {
    if started == 0 {
      NobodyBusy(n);
    } else {
      NotStarted(l, n, started - 1);
      StartKeeps(l, n, started - 1);
      var p := Start(l, n, started - 1);
      assert p.workers[started - 1] == FRESH;
      HeadKeeps(l, p, started - 1);
    }
  }

  lemma DoKeeps(l: Limits, p: Pool, e: Event)
    requires Inv(l, p) && l.idlePolls > 0
    ensures Inv(l, Do(l, p, e))
  {
    if e.w < |p.workers| {
      if p.workers[e.w].place.Claiming? && e.Claimed? {
        ReturnKeeps(l, p, e.w, e.got);
      } else if p.workers[e.w].place.Handling? && e.AgentUsed? {
        UseAgentKeeps(l, p, e.w);
      } else if p.workers[e.w].place.Handling? && e.Ended? {
        FinishKeeps(l, p, e.w, e.threw);
      }
    }
  }

  /** Activity never falls, and a step that leaves it alone leaves `busy` alone. */
  lemma DoActivity(l: Limits, p: Pool, e: Event)
    ensures var q := Do(l, p, e);
            && |q.workers| == |p.workers|
            && p.activity <= q.activity
            && (p.activity == q.activity ==> p.busy == q.busy)
  {
  }

  // ---------------------------------------------------------------- whole runs

  /** Under every interleaving: `taken` is the tasks claimed plus the claims in flight, so no
      more than maxTasks tasks are ever claimed, and `busy` is the number of tasks held. */
  lemma {:induction false} RunKeepsCounts(l: Limits, n: nat, sched: seq<Event>, k: nat)
    requires k <= |sched| && l.idlePolls > 0
    ensures var p := At(l, n, sched, k);
            && Inv(l, p) && |p.workers| == n
            && p.taken == p.claimed + Claims(p.workers)
            && p.busy == Holders(p.workers)
            && (l.maxTasks > 0 ==> p.claimed <= l.maxTasks)
  {
    if k == 0 {
      StartKeeps(l, n, n);
    } else {
      RunKeepsCounts(l, n, sched, k - 1);
      DoKeeps(l, At(l, n, sched, k - 1), sched[k - 1]);
      DoActivity(l, At(l, n, sched, k - 1), sched[k - 1]);
    }
  }

  lemma {:induction false} AgentsUsedBound(ws: seq<Worker>, t: nat)
    requires forall w :: 0 <= w < |ws| ==> ws[w].used <= t
    ensures AgentsUsed(ws) <= |ws| * t
  {
    if ws != [] {
      AgentsUsedBound(ws[..|ws| - 1], t);
    }
  }

  /** The budget behind the soft cap: when a claim and its task use at most t agents together,
      n workers never start more than agentCap - 1 + n * t agents. */
  lemma AgentBudget(l: Limits, n: nat, sched: seq<Event>, k: nat, t: nat)
    requires k <= |sched| && l.idlePolls > 0 && l.agentCap > 0
    requires var p := At(l, n, sched, k); forall w :: 0 <= w < |p.workers| ==> p.workers[w].used <= t
    ensures At(l, n, sched, k).agents <= l.agentCap - 1 + n * t
  {
    RunKeepsCounts(l, n, sched, k);
    AgentsUsedBound(At(l, n, sched, k).workers, t);
  }

  // ---------------------------------------------------------------- quiet claims

  type Trace = nat -> Pool

  /** The pools of a run, moment by moment. */
  function Moments(l: Limits, n: nat, sched: seq<Event>): Trace {
    (k: nat) => At(l, n, sched, if k <= |sched| then k else |sched|)
  }

  predicate IsClaiming(p: Pool, w: nat) { w < |p.workers| && p.workers[w].place.Claiming? }

  /** Nobody takes, finishes or holds a task at any moment from a to m. */
  ghost predicate Quiet(run: Trace, a: nat, m: nat) {
    forall k: nat :: a <= k <= m ==> run(k).activity == run(m).activity && Holders(run(k).workers) == 0
  }

  /** The event is the return of worker w's claim. */
  predicate Comes(p: Pool, e: Event, w: nat) {
    && e.w == w && e.Claimed? && IsClaiming(p, w)
    && (e.got.Empty? ==> 1 <= e.got.polls <= p.workers[w].place.polls)
  }

  /** From moment a to m worker w waits for one and the same claim. */
  ghost predicate InClaim(run: Trace, sched: seq<Event>, w: nat, a: nat, m: nat)
    requires a <= m <= |sched|
  {
    IsClaiming(run(a), w) && forall k: nat :: a <= k < m ==> !Comes(run(k), sched[k], w)
  }

  /** Moment a is the first of the claim that worker w waits for. */
  ghost predicate First(run: Trace, sched: seq<Event>, w: nat, a: nat)
    requires a <= |sched|
  {
    IsClaiming(run(a), w) && (a == 0 || !IsClaiming(run(a - 1), w) || Comes(run(a - 1), sched[a - 1], w))
  }

  /** What one event can do, as far as worker w is concerned. */
  ghost predicate Follows(p: Pool, e: Event, q: Pool, w: nat) {
    && w < |p.workers| == |q.workers|
    && p.activity <= q.activity && (p.activity == q.activity ==> p.busy == q.busy)
    && if Comes(p, e, w) then
         IsClaiming(q, w) ==>
           && !e.got.Task? && !e.got.NoTool?
           && q.workers[w].place.act0 == q.activity == p.activity
           && q.workers[w].quiet == if e.got.Error? then p.workers[w].quiet
                                    else if Heard(p, w) then p.workers[w].quiet + e.got.polls else 0
       else if IsClaiming(p, w) then q.workers[w] == p.workers[w]
       else IsClaiming(q, w) ==> q.workers[w].place.act0 == q.activity && q.workers[w].quiet == 0
  }

  /** The test of the loop on an empty claim. */
  predicate Heard(p: Pool, w: nat)
    requires IsClaiming(p, w)
  {
    p.activity == p.workers[w].place.act0 && p.busy <= 0
  }

  lemma ReturnFollows(l: Limits, p: Pool, v: nat, got: Got, w: nat)
    requires Inv(l, p) && w < |p.workers| && IsClaiming(p, v)
    requires got.Empty? ==> 1 <= got.polls <= p.workers[v].place.polls
    ensures Follows(p, Claimed(v, got), Return(l, p, v, got), w)
  {
    match got
    case Task =>
    case NoTool =>
    case Error =>
    case Empty(polls) =>
  }

  lemma DoFollows(l: Limits, p: Pool, e: Event, w: nat)
    requires Inv(l, p) && w < |p.workers|
    ensures Follows(p, e, Do(l, p, e), w)
  {
    DoActivity(l, p, e);
    if Comes(p, e, e.w) {
      ReturnFollows(l, p, e.w, e.got, w);
    } else if e.w < |p.workers| {
      assert QuietOk(l, p, p.workers[e.w]);
    }
  }

  /** What the run of a pool is to one of its workers. */
  ghost predicate Lawful(run: Trace, sched: seq<Event>, w: nat) {
    && (IsClaiming(run(0), w) ==> run(0).workers[w].place.act0 == run(0).activity && run(0).workers[w].quiet == 0)
    && (forall k: nat :: k <= |sched| ==>
          && w < |run(k).workers| && run(k).busy == Holders(run(k).workers)
          && (IsClaiming(run(k), w) ==> run(k).workers[w].place.act0 <= run(k).activity))
    && (forall j: nat, k: nat :: j < k <= |sched| && k == j + 1 ==> Follows(run(j), sched[j], run(k), w))
  }

  lemma {:induction false} StartBegins(l: Limits, n: nat, started: nat, w: nat)
    requires started <= n && w < n
    ensures var p := Start(l, n, started);
            && p.activity == 0 && p.workers[w].quiet == 0
            && (p.workers[w].place.Claiming? ==> p.workers[w].place.act0 == 0)
  {
    if started > 0 {
      StartBegins(l, n, started - 1, w);
    }
  }

  lemma MomentIsLawful(l: Limits, n: nat, sched: seq<Event>, k: nat, w: nat)
    requires k <= |sched| && l.idlePolls > 0 && w < n
    ensures var p := At(l, n, sched, k);
            && |p.workers| == n && p.busy == Holders(p.workers)
            && (IsClaiming(p, w) ==> p.workers[w].place.act0 <= p.activity)
            && (k < |sched| ==> Follows(p, sched[k], At(l, n, sched, k + 1), w))
  {
    RunKeepsCounts(l, n, sched, k);
    assert QuietOk(l, At(l, n, sched, k), At(l, n, sched, k).workers[w]);
    if k < |sched| {
      DoFollows(l, At(l, n, sched, k), sched[k], w);
    }
  }

  lemma RunIsLawful(l: Limits, n: nat, sched: seq<Event>, w: nat)
    requires l.idlePolls > 0 && w < n
    ensures Lawful(Moments(l, n, sched), sched, w)
  {
    var run := Moments(l, n, sched);
    assert forall k: nat :: k <= |sched| ==> run(k) == At(l, n, sched, k);
    StartBegins(l, n, n, w);
    assert run(0) == Start(l, n, n);
    forall k: nat | k <= |sched|
      ensures w < |run(k).workers| && run(k).busy == Holders(run(k).workers)
      ensures IsClaiming(run(k), w) ==> run(k).workers[w].place.act0 <= run(k).activity
    {
      MomentIsLawful(l, n, sched, k, w);
    }
    forall j: nat, k: nat | j < k <= |sched| && k == j + 1
      ensures Follows(run(j), sched[j], run(k), w)
    {
      MomentIsLawful(l, n, sched, j, w);
    }
  }

  lemma {:induction false} StandsStill(run: Trace, sched: seq<Event>, w: nat, a: nat, m: nat)
    requires Lawful(run, sched, w) && a <= m <= |sched|
    ensures run(a).activity <= run(m).activity && (run(a).activity == run(m).activity ==> run(a).busy == run(m).busy)
    decreases m - a
  {
    if a < m {
      StandsStill(run, sched, w, a, m - 1);
      assert Follows(run(m - 1), sched[m - 1], run(m), w);
    }
  }

  /** While nobody is busy at the end, a stretch of a run is quiet exactly when the activity stood still over it. */
  lemma QuietIff(run: Trace, sched: seq<Event>, w: nat, a: nat, m: nat)
    requires Lawful(run, sched, w) && a <= m <= |sched| && run(m).busy == 0
    ensures Quiet(run, a, m) <==> run(a).activity == run(m).activity
  {
    if run(a).activity == run(m).activity {
      forall k: nat | a <= k <= m
        ensures run(k).activity == run(m).activity && Holders(run(k).workers) == 0
      {
        StandsStill(run, sched, w, a, k);
        StandsStill(run, sched, w, k, m);
      }
    }
  }

  lemma {:induction false} ClaimStays(run: Trace, sched: seq<Event>, w: nat, a: nat, m: nat)
    requires Lawful(run, sched, w) && a <= m <= |sched| && InClaim(run, sched, w, a, m)
    ensures run(m).workers[w] == run(a).workers[w]
    decreases m - a
  {
    if a < m {
      ClaimStays(run, sched, w, a, m - 1);
      assert Follows(run(m - 1), sched[m - 1], run(m), w);
    }
  }

  lemma FirstIsNow(run: Trace, sched: seq<Event>, w: nat, a: nat)
    requires Lawful(run, sched, w) && a <= |sched| && First(run, sched, w, a)
    ensures run(a).workers[w].place.act0 == run(a).activity
  {
    if a > 0 {
      assert Follows(run(a - 1), sched[a - 1], run(a), w);
    }
  }

  /** A claim in flight has a first moment. */
  lemma {:induction false} ClaimBegan(run: Trace, sched: seq<Event>, w: nat, m: nat) returns (a: nat)
    requires Lawful(run, sched, w) && m <= |sched| && IsClaiming(run(m), w)
    ensures a <= m && InClaim(run, sched, w, a, m) && First(run, sched, w, a)
  {
    a := m;
    if !First(run, sched, w, m) {
      a := ClaimBegan(run, sched, w, m - 1);
    }
  }

  lemma HeardIffQuiet(run: Trace, sched: seq<Event>, w: nat, a: nat, m: nat)
    requires Lawful(run, sched, w) && a <= m <= |sched| && InClaim(run, sched, w, a, m)
    ensures IsClaiming(run(m), w) && (Heard(run(m), w) ==> Quiet(run, a, m))
    ensures First(run, sched, w, a) ==> (Heard(run(m), w) <==> Quiet(run, a, m))
  {
    ClaimStays(run, sched, w, a, m);
    StandsStill(run, sched, w, a, m);
    if run(m).busy == 0 {
      QuietIff(run, sched, w, a, m);
    }
    if First(run, sched, w, a) {
      FirstIsNow(run, sched, w, a);
    }
  }

  /** An empty claim counts toward an idle stop only if nobody took, finished or held a task at any moment of it; and it
      counts if nobody did from its first moment on. */
  lemma CountedPollsWereQuiet(l: Limits, n: nat, sched: seq<Event>, w: nat, a: nat, m: nat, polls: nat)
    requires a <= m <= |sched| && l.idlePolls > 0 && w < n && polls > 0
    requires InClaim(Moments(l, n, sched), sched, w, a, m)
    ensures var run := Moments(l, n, sched);
            && IsClaiming(run(m), w)
            && var counted := Return(l, run(m), w, Empty(polls)).workers[w].quiet > run(m).workers[w].quiet;
               && (counted ==> Quiet(run, a, m))
               && (First(run, sched, w, a) ==> (counted <==> Quiet(run, a, m)))
  {
    RunIsLawful(l, n, sched, w);
    HeardIffQuiet(Moments(l, n, sched), sched, w, a, m);
    HeadTouchesQuiet(l, Moments(l, n, sched)(m), w, polls);
  }

  lemma HeadTouchesQuiet(l: Limits, p: Pool, w: nat, polls: nat)
    requires IsClaiming(p, w)
    ensures Return(l, p, w, Empty(polls)).workers[w].quiet == if Heard(p, w) then p.workers[w].quiet + polls else 0
  {
  }

  // ---------------------------------------------------------------- idle stops

  /** The stretch that ends at m: from moment a on worker w does nothing but wait for claims; a is the first moment of a
      claim before which no poll was counted, and in every later claim some were. */
  ghost predicate Stretch(run: Trace, sched: seq<Event>, w: nat, a: nat, m: nat)
    requires a <= m <= |sched|
  {
    && First(run, sched, w, a) && run(a).workers[w].quiet == 0
    && (forall k: nat :: a <= k <= m ==>
          IsClaiming(run(k), w) && (run(k).workers[w].quiet > 0 || InClaim(run, sched, w, a, k)))
  }

  /** At moment k a claim of worker w fails, and the activity is not what it was when the claim began. */
  ghost predicate FailsUnnoticed(run: Trace, sched: seq<Event>, w: nat, k: nat)
    requires k < |sched|
  {
    && Comes(run(k), sched[k], w) && sched[k].got.Error?
    && run(k).activity != run(k).workers[w].place.act0
  }

  lemma {:induction false} StretchBegan(run: Trace, sched: seq<Event>, w: nat, m: nat) returns (a: nat)
    requires Lawful(run, sched, w) && m <= |sched| && IsClaiming(run(m), w)
    ensures a <= m && Stretch(run, sched, w, a, m)
  {
    if run(m).workers[w].quiet == 0 {
      a := ClaimBegan(run, sched, w, m);
      forall k: nat | a <= k <= m
        ensures IsClaiming(run(k), w) && InClaim(run, sched, w, a, k)
      {
        ClaimStays(run, sched, w, a, k);
      }
      ClaimStays(run, sched, w, a, m);
    } else {
      assert m > 0 && Follows(run(m - 1), sched[m - 1], run(m), w);
      a := StretchBegan(run, sched, w, m - 1);
    }
  }

  /** There is one stretch that ends at m. */
  lemma StretchIsOne(run: Trace, sched: seq<Event>, w: nat, a: nat, b: nat, m: nat)
    requires a <= b <= m <= |sched| && Stretch(run, sched, w, a, m) && Stretch(run, sched, w, b, m)
    ensures a == b
  {
    assert InClaim(run, sched, w, a, b);
  }

  /** Without a claim that failed unnoticed, the current claim of a stretch began at the activity of the stretch. */
  lemma {:induction false} NothingMoved(run: Trace, sched: seq<Event>, w: nat, a: nat, m: nat)
    requires Lawful(run, sched, w) && a <= m <= |sched| && Stretch(run, sched, w, a, m)
    requires forall k: nat :: a <= k < m ==> !FailsUnnoticed(run, sched, w, k)
    ensures run(m).workers[w].place.act0 == run(a).activity
    decreases m - a
  {
    if a == m {
      FirstIsNow(run, sched, w, a);
    } else {
      NothingMoved(run, sched, w, a, m - 1);
      assert Follows(run(m - 1), sched[m - 1], run(m), w);
      assert !FailsUnnoticed(run, sched, w, m - 1);
    }
  }

  lemma StretchIsQuietIff(run: Trace, sched: seq<Event>, w: nat, a: nat, m: nat)
    requires Lawful(run, sched, w) && a <= m <= |sched| && Stretch(run, sched, w, a, m) && Heard(run(m), w)
    ensures Quiet(run, a, m) <==> forall k: nat :: a <= k < m ==> !FailsUnnoticed(run, sched, w, k)
  {
    QuietIff(run, sched, w, a, m);
    if Quiet(run, a, m) {
      forall k: nat | a <= k < m
        ensures !FailsUnnoticed(run, sched, w, k)
      {
        var b := ClaimOfStretch(run, sched, w, a, k, m);
        FirstIsNow(run, sched, w, b);
        ClaimStays(run, sched, w, b, k);
      }
    } else if forall k: nat :: a <= k < m ==> !FailsUnnoticed(run, sched, w, k) {
      NothingMoved(run, sched, w, a, m);
    }
  }

  /** The claim in flight at moment k of a stretch began in the stretch. */
  lemma {:induction false} ClaimOfStretch(run: Trace, sched: seq<Event>, w: nat, a: nat, k: nat, m: nat)
    returns (b: nat)
    requires Lawful(run, sched, w) && a <= k <= m <= |sched| && Stretch(run, sched, w, a, m)
    ensures a <= b <= k && InClaim(run, sched, w, b, k) && First(run, sched, w, b)
    decreases k
  {
    b := k;
    if k > a && !Comes(run(k - 1), sched[k - 1], w) {
      b := ClaimOfStretch(run, sched, w, a, k - 1, m);
    }
  }

  /** A worker that stops idle has counted its polls over one stretch. Nobody took, finished or held a task in all of it
      exactly when no claim of the worker failed with the activity moved since that claim began, which is the test
      that the loop makes on empty claims and leaves out on failed ones. */
  lemma IdleStopIsQuietIff(l: Limits, n: nat, sched: seq<Event>, w: nat, m: nat, polls: nat) returns (a: nat)
    requires m <= |sched| && l.idlePolls > 0 && w < n && IsClaiming(Moments(l, n, sched)(m), w)
    requires Return(l, Moments(l, n, sched)(m), w, Empty(polls)).workers[w].place == Stopped(true)
    ensures var run := Moments(l, n, sched);
            && a <= m && Stretch(run, sched, w, a, m)
            && (forall b: nat :: b <= m && Stretch(run, sched, w, b, m) ==> b == a)
            && (Quiet(run, a, m) <==> forall k: nat :: a <= k < m ==> !FailsUnnoticed(run, sched, w, k))
  {
    var run := Moments(l, n, sched);
    RunIsLawful(l, n, sched, w);
    StopWasHeard(l, run(m), w, polls);
    a := StretchBegan(run, sched, w, m);
    forall b: nat | b <= m && Stretch(run, sched, w, b, m)
      ensures b == a
    {
      if a <= b {
        StretchIsOne(run, sched, w, a, b, m);
      } else {
        StretchIsOne(run, sched, w, b, a, m);
      }
    }
    StretchIsQuietIff(run, sched, w, a, m);
  }

  lemma StopWasHeard(l: Limits, p: Pool, w: nat, polls: nat)
    requires IsClaiming(p, w) && Return(l, p, w, Empty(polls)).workers[w].place == Stopped(true)
    ensures Heard(p, w)
  {
  }

  /** Two workers; the first hears of nothing, then the second takes and finishes a task while a claim of the first
      fails, then the first hears of nothing again and stops idle. */
  const HIDDEN: seq<Event> := [Claimed(0, Empty(3)), Claimed(1, Task), Ended(1, false), Claimed(0, Error)]

  const SIX: Limits := Limits(0, 6, 6, 800, 3)

  /** The pool after k of these events. */
  function HiddenPool(k: nat): Pool {
    var waits := Worker(Claiming(0, 6), 0, 0, 1);
    var counted := Worker(Claiming(0, 3), 3, 0, 1);
    match k
    case 0 => Pool(false, 2, 0, 0, 2, 0, [waits, waits])
    case 1 => Pool(false, 2, 0, 0, 3, 0, [counted, waits])
    case 2 => Pool(false, 2, 1, 1, 3, 1, [counted, Worker(Handling, 0, 0, 1)])
    case 3 => Pool(false, 3, 0, 2, 4, 1, [counted, Worker(Claiming(2, 6), 0, 0, 1)])
    case _ => Pool(false, 3, 0, 2, 5, 1, [Worker(Claiming(2, 3), 3, 1, 1), Worker(Claiming(2, 6), 0, 0, 1)])
  }

  lemma HiddenStart()
    ensures Start(SIX, 2, 2) == HiddenPool(0)
  {
    var p := Start(SIX, 2, 0);
    assert p.workers == [FRESH, FRESH];
    assert Start(SIX, 2, 1) == Head(SIX, p, 0);
    assert Start(SIX, 2, 2) == Head(SIX, Start(SIX, 2, 1), 1);
  }

  lemma HiddenStep(k: nat)
    requires k < 4
    ensures Do(SIX, HiddenPool(k), HIDDEN[k]) == HiddenPool(k + 1)
  {
  }

  lemma {:induction false} HiddenAt(k: nat)
    requires k <= 4
    ensures At(SIX, 2, HIDDEN, k) == HiddenPool(k)
  {
    if k == 0 {
      HiddenStart();
    } else {
      HiddenAt(k - 1);
      HiddenStep(k - 1);
    }
  }

  lemma HiddenMoments()
    ensures var run := Moments(SIX, 2, HIDDEN);
            && forall k :: 0 <= k <= 4 ==> run(k) == HiddenPool(k)
  {
    forall k: nat | k <= 4
      ensures At(SIX, 2, HIDDEN, k) == HiddenPool(k)
    {
      HiddenAt(k);
    }
  }

  /** A reachable state in which a worker stops idle, although a task was held in the stretch of its counted polls. */
  lemma AFailedClaimHidesATask() returns (a: nat)
    ensures var run := Moments(SIX, 2, HIDDEN);
            && a <= 4 && Stretch(run, HIDDEN, 0, a, 4) && IsClaiming(run(4), 0)
            && Return(SIX, run(4), 0, Empty(3)).workers[0].place == Stopped(true)
            && !Quiet(run, a, 4)
  {
    HiddenMoments();
    var run := Moments(SIX, 2, HIDDEN);
    a := IdleStopIsQuietIff(SIX, 2, HIDDEN, 0, 4, 3);
  }

  // ---------------------------------------------------------------- the loop

  /** S and the workers' loop variables, changed in place by the stretches of workLoop. */
  class Shared {
    var stop: bool
    var taken: int
    var busy: int
    var activity: nat
    var agents: nat
    var claimed: nat
    var workers: seq<Worker>

    ghost function Now(): Pool
      reads this
    {
      Pool(stop, taken, busy, activity, agents, claimed, workers)
    }

    constructor (n: nat)
      ensures Now() == Pool(false, 0, 0, 0, 0, 0, seq(n, _ => FRESH))
    {
      stop, taken, busy, activity, agents, claimed := false, 0, 0, 0, 0, 0;
      workers := seq(n, _ => FRESH);
    }

    method LoopHead(l: Limits, w: nat)
      requires w < |workers|
      modifies this
      ensures Now() == Head(l, old(Now()), w)
    {
      var me := workers[w];
      if stop || (l.maxTasks > 0 && taken >= l.maxTasks) {
        workers := workers[w := me.(place := Stopped(false))];
        return;
      }
      if agents >= l.agentCap {
        stop := true;
        workers := workers[w := me.(place := Stopped(false))];
        return;
      }
      taken := taken + 1;
      agents := agents + 1;
      var left := if l.idlePolls > me.quiet then l.idlePolls - me.quiet else 0;
      var polls := if l.pollsPerAgent < left then l.pollsPerAgent else left;
      workers := workers[w := me.(place := Claiming(activity, polls), used := 1)];
    }

    method ClaimReturned(l: Limits, w: nat, got: Got)
      requires w < |workers| && workers[w].place.Claiming?
      modifies this
      ensures Now() == Return(l, old(Now()), w, got)
    {
      var me := workers[w];
      if got.Task? {
        activity := activity + 1;
        busy := busy + 1;
        claimed := claimed + 1;
        workers := workers[w := me.(place := Handling, quiet := 0, fails := 0)];
        return;
      }
      taken := taken - 1;
      if got.NoTool? {
        stop := true;
        workers := workers[w := me.(place := Stopped(false))];
        return;
      }
      var mine := me.(place := Running);
      if got.Error? {
        mine := mine.(fails := me.fails + 1);
        workers := workers[w := mine];
        if mine.fails >= l.claimFailMax {
          stop := true;
          workers := workers[w := mine.(place := Stopped(false))];
          return;
        }
      } else if activity != me.place.act0 || busy > 0 {
        workers := workers[w := mine.(quiet := 0, fails := 0)];
      } else {
        mine := mine.(quiet := me.quiet + got.polls, fails := 0);
        workers := workers[w := mine];
        if mine.quiet >= l.idlePolls {
          workers := workers[w := mine.(place := Stopped(true))];
          return;
        }
      }
      LoopHead(l, w);
    }

    method TaskEnded(l: Limits, w: nat, threw: bool)
      requires w < |workers| && workers[w].place.Handling?
      modifies this
      ensures Now() == Finish(l, old(Now()), w, threw)
    {
      busy := busy - 1;
      activity := activity + 1;
      if threw {
        workers := workers[w := workers[w].(place := Stopped(false))];
        return;
      }
      workers := workers[w := workers[w].(place := Running)];
      LoopHead(l, w);
    }

    /** One event, if it can happen to its worker. */
    method Step(l: Limits, e: Event)
      modifies this
      ensures Now() == Do(l, old(Now()), e)
    {
      if e.w >= |workers| {
        return;
      }
      match workers[e.w].place {
        case Claiming(_, polls) =>
          if e.Claimed? && (e.got.Empty? ==> 1 <= e.got.polls <= polls) {
            ClaimReturned(l, e.w, e.got);
          }
        case Handling =>
          if e.AgentUsed? {
            agents := agents + 1;
            workers := workers[e.w := workers[e.w].(used := workers[e.w].used + 1)];
          } else if e.Ended? {
            TaskEnded(l, e.w, e.threw);
          }
        case _ =>
      }
    }
  }

  /** n workers that share S run through a schedule: the theorems about runs are about this object. */
  method RunPool(l: Limits, n: nat, sched: seq<Event>) returns (s: Shared)
    requires l.idlePolls > 0
    ensures fresh(s) && s.Now() == At(l, n, sched, |sched|)
    ensures s.taken == s.claimed + Claims(s.workers) && s.busy == Holders(s.workers)
    ensures l.maxTasks > 0 ==> s.claimed <= l.maxTasks
  {
    s := new Shared(n);
    for w := 0 to n
      invariant fresh(s) && s.Now() == Start(l, n, w)
    {
      s.LoopHead(l, w);
    }
    for k := 0 to |sched|
      invariant fresh(s) && s.Now() == At(l, n, sched, k)
    {
      s.Step(l, sched[k]);
    }
    RunKeepsCounts(l, n, sched, |sched|);
  }
}
