/** Delivery of an external answer (infra/pipeline/hwax-risk-claude.js, chunkPlan and deliver).

    An answer goes to the engine in chunks through agents that carry text faithfully but
    whose reports can be lost in whole or in part. The engine appends a chunk whose offset
    is its length, restarts at offset 0 and refuses any other offset with its length. */
module Delivery {
  import opened Options

  // ---------------------------------------------------------------- chunks

  const CHUNK: nat := 15000

  datatype Chunk = Chunk(start: nat, end: nat)

  /** The last line break at or after `low` and before `high`, as the end of a chunk; `stop` if none. */
  function BreakBefore(cp: seq<char>, low: nat, high: nat, stop: nat): (e: nat)
    requires low <= high <= |cp|
    ensures || (e == stop && forall k :: low <= k < high ==> cp[k] != '\n')
            || (low < e <= high && cp[e - 1] == '\n' && forall k :: e <= k < high ==> cp[k] != '\n')
    decreases high
  {
    if high == low then stop
    else if cp[high - 1] == '\n' then high
    else BreakBefore(cp, low, high - 1, stop)
  }

  function ChunkEnd(cp: seq<char>, s: nat): (e: nat)
    requires s < |cp|
    ensures s < e <= |cp| && e <= s + CHUNK
  {
    if |cp| <= s + CHUNK then |cp|
    else BreakBefore(cp, s + CHUNK / 2, s + CHUNK, s + CHUNK)
  }

  function Plan(cp: seq<char>, s: nat): seq<Chunk>
    requires s <= |cp|
    decreases |cp| - s
  {
    if s == |cp| then [] else [Chunk(s, ChunkEnd(cp, s))] + Plan(cp, ChunkEnd(cp, s))
  }

  /** The chunks lie end to end from s to the end of the answer. */
  ghost predicate Chain(cp: seq<char>, plan: seq<Chunk>, s: nat) {
    && (plan == [] ==> s == |cp|)
    && (plan != [] ==> plan[0].start == s && plan[|plan| - 1].end == |cp|)
    && (forall j :: 0 <= j < |plan| ==> plan[j].start < plan[j].end <= |cp|)
    && (forall i, j :: 0 <= i < j < |plan| && j == i + 1 ==> plan[i].end == plan[j].start)
  }

  /** A chunk is at most 15000 long, and takes all that is left if that is no longer; one that is not the last is cut
      after the last line break of the back half of its window, or is full and has none there. */
  ghost predicate WellCut(cp: seq<char>, c: Chunk) {
    && c.start < c.end <= |cp| && c.end - c.start <= 15000
    && (|cp| - c.start <= 15000 ==> c.end == |cp|)
    && (c.end < |cp| ==>
          && (|| cp[c.end - 1] == '\n'
              || (c.end - c.start == 15000 && forall k :: c.start + 7500 <= k < c.end ==> cp[k] != '\n'))
          && c.end - c.start > 7500
          && (forall k :: c.end <= k < c.start + 15000 && k < |cp| ==> cp[k] != '\n'))
  }

  lemma {:induction false} PlanIsChain(cp: seq<char>, s: nat)
    requires s <= |cp|
    ensures Chain(cp, Plan(cp, s), s)
    ensures forall j :: 0 <= j < |Plan(cp, s)| ==> WellCut(cp, Plan(cp, s)[j])
    decreases |cp| - s
  {
    if s < |cp| {
      PlanIsChain(cp, ChunkEnd(cp, s));
    }
  }

  /** The inner loop of chunkPlan: the window's end, or just after its last line break. */
  method FindEnd(cp: seq<char>, s: nat) returns (e: nat)
    requires s < |cp|
    ensures e == ChunkEnd(cp, s)
  {
    e := if |cp| < s + CHUNK then |cp| else s + CHUNK;
    if e < |cp| {
      var k := e - 1;
      while k >= s + CHUNK / 2
        invariant s + CHUNK / 2 - 1 <= k < s + CHUNK
        invariant ChunkEnd(cp, s) == BreakBefore(cp, s + CHUNK / 2, k + 1, e)
      {
        if cp[k] == '\n' {
          return k + 1;
        }
        k := k - 1;
      }
    }
  }

  lemma PlanStep(cp: seq<char>, s: nat, out: seq<Chunk>, whole: seq<Chunk>)
    requires s < |cp| && out + Plan(cp, s) == whole
    ensures out + [Chunk(s, ChunkEnd(cp, s))] + Plan(cp, ChunkEnd(cp, s)) == whole
  {
  }

  /** chunkPlan. */
  method ChunkPlan(cp: seq<char>) returns (out: seq<Chunk>)
    ensures out == Plan(cp, 0) && Chain(cp, out, 0)
  {
    ghost var whole := Plan(cp, 0);
    PlanIsChain(cp, 0);
    out := [];
    var s := 0;
    while s < |cp|
      invariant s <= |cp|
      invariant out + Plan(cp, s) == whole
    {
      var e := FindEnd(cp, s);
      PlanStep(cp, s, out, whole);
      out := out + [Chunk(s, e)];
      s := e;
    }
  }

  /** The length at which chunk j starts; the whole length after the last chunk. */
  function Bound(cp: seq<char>, plan: seq<Chunk>, j: nat): nat
    requires j <= |plan|
  {
    if j < |plan| then plan[j].start else |cp|
  }

  lemma {:induction false} BoundsGrow(cp: seq<char>, plan: seq<Chunk>, i: nat, j: nat)
    requires Chain(cp, plan, 0) && i <= j <= |plan|
    ensures Bound(cp, plan, i) <= Bound(cp, plan, j) <= |cp|
    ensures i < j ==> Bound(cp, plan, i) < Bound(cp, plan, j)
    decreases j - i
  {
    if i < j {
      BoundsGrow(cp, plan, i, j - 1);
      assert j < |plan| ==> plan[j - 1].end == plan[j].start;
    }
  }

  // ---------------------------------------------------------------- the engine

  /** Open: the lease is ours. Released: the task went back to the queue. Gone: it ended without an answer. */
  datatype Phase = Open | Released | Gone | Finalised

  /** cap: the most the buffer holds. keep: how much of a finished answer is kept. */
  datatype Server = Server(buf: seq<char>, phase: Phase, cap: nat, keep: nat)

  datatype Reply =
    | Received(chars: nat)
    | Done(chars: nat, cut: nat)
    | LeaseLost
    | NoSuchTask
    | OffsetMismatch(received: nat)
    | TooLarge(max: nat)

  function Submit(s: Server, offset: nat, text: seq<char>, final: bool): (Server, Reply) {
    if s.phase.Released? then (s, LeaseLost)
    else if !s.phase.Open? then (s, NoSuchTask)
    else if offset != 0 && offset != |s.buf| then (s, OffsetMismatch(|s.buf|))
    else
      var buf := if offset == 0 then text else s.buf + text;
      if |buf| > s.cap then (s, TooLarge(s.cap))
      else if final then
        var kept := if |buf| < s.keep then |buf| else s.keep;
        (s.(buf := buf, phase := Finalised), Done(kept, |buf| - kept))
      else (s.(buf := buf), Received(|buf|))
  }

  /** What the engine does on its own while the task is open. */
  datatype Event = Nothing | Release | Expire

  function Happens(s: Server, e: Event): Server {
    if !s.phase.Open? || e.Nothing? then s
    else s.(phase := if e.Release? then Released else Gone)
  }

  // ---------------------------------------------------------------- the relay

  /** What becomes of one agent: does it make its first call, does it go on to the finishing
      call when it should, and which of the two results does its report keep? */
  datatype Fate = Fate(before: Event, between: Event, calls: bool, finishes: bool,
                       keepsFirst: bool, keepsFinal: bool)

  /** One agent's turn: the results it saw, the results it reported, the engine afterwards. */
  datatype Turn = Turn(first: Option<Reply>, final: Option<Reply>,
                       toldFirst: Option<Reply>, toldFinal: Option<Reply>, server: Server)

  function Told(seen: Option<Reply>, keeps: bool): Option<Reply> {
    if keeps then seen else None
  }

  /** An agent that only finishes (finalPrompt). */
  function FinishTurn(s: Server, fate: Fate, total: nat): Turn {
    var s1 := Happens(s, fate.before);
    if !fate.calls then Turn(None, None, None, None, s1)
    else
      var (s2, r) := Submit(s1, total, [], true);
      Turn(Some(r), None, Told(Some(r), fate.keepsFirst), None, s2)
  }

  /** An agent that carries a chunk and, after the last one, finishes if everything arrived (submitPrompt). */
  function ChunkTurn(s: Server, fate: Fate, offset: nat, text: seq<char>, last: bool, total: nat): Turn {
    var s1 := Happens(s, fate.before);
    if !fate.calls then Turn(None, None, None, None, s1)
    else
      var (s2, r) := Submit(s1, offset, text, false);
      var told := Told(Some(r), fate.keepsFirst);
      if last && fate.finishes && r == Received(total) then
        var (s3, f) := Submit(Happens(s2, fate.between), total, [], true);
        Turn(Some(r), Some(f), told, Told(Some(f), fate.keepsFinal), s3)
      else Turn(Some(r), None, told, None, s2)
  }

  // ---------------------------------------------------------------- the client

  datatype Outcome =
    | Answered(chars: nat, cut: nat)
    | NotClaimed
    | TaskNotFound
    | AnswerTooLarge(max: nat)
    | DeliveredMismatch
    | DeliveredUnconfirmed
    | SubmitFailed

  /** pos: the length the engine confirmed. sentEnd: the furthest end of a chunk sent so far.
      unsure: the finishing call may have been made by an agent whose report was lost. */
  datatype Client = Client(pos: nat, sentEnd: nat, unsure: bool)

  datatype Step = Go(client: Client) | Stop(outcome: Outcome)

  function Settled(r: Reply, total: nat): Outcome
    requires r.Done?
  {
    if r.chars + r.cut != total then DeliveredMismatch else Answered(r.chars, r.cut)
  }

  /** The place of the first chunk from `from` on that starts at pos; |plan| if there is none. */
  function ChunkFrom(plan: seq<Chunk>, pos: nat, from: nat): (j: nat)
    requires from <= |plan|
    ensures from <= j <= |plan|
    ensures j < |plan| ==> plan[j].start == pos
    ensures forall i :: from <= i < j ==> plan[i].start != pos
    decreases |plan| - from
  {
    if from == |plan| || plan[from].start == pos then from else ChunkFrom(plan, pos, from + 1)
  }

  function ChunkAt(plan: seq<Chunk>, pos: nat): (j: nat)
    ensures j <= |plan|
    ensures j < |plan| ==> plan[j].start == pos
    ensures forall i :: 0 <= i < j ==> plan[i].start != pos
  {
    ChunkFrom(plan, pos, 0)
  }

  /** pos is where a chunk starts or where the answer ends (`bounds`). */
  predicate AtBoundary(cp: seq<char>, plan: seq<Chunk>, pos: nat) {
    pos == |cp| || ChunkAt(plan, pos) < |plan|
  }

  function Resume(cp: seq<char>, plan: seq<Chunk>, sentEnd: nat, received: nat): (pos: nat)
    ensures pos == received || pos == 0
    ensures received <= sentEnd && (received == |cp| || exists j :: 0 <= j < |plan| && plan[j].start == received)
            ==> pos == received
    ensures pos > 0 ==> pos <= sentEnd && (pos == |cp| || exists j :: 0 <= j < |plan| && plan[j].start == pos)
  {
    if AtBoundary(cp, plan, received) && received <= sentEnd then received else 0
  }

  function Missing(unsure: bool): Outcome { if unsure then DeliveredUnconfirmed else TaskNotFound }

  /** How the loop goes on after the turn of an agent that only finishes. */
  function AfterFinish(cp: seq<char>, plan: seq<Chunk>, c: Client, t: Turn): Step {
    match t.toldFirst
    case None => Go(c.(unsure := true))
    case Some(Done(chars, cut)) => Stop(Settled(Done(chars, cut), |cp|))
    case Some(LeaseLost) => Stop(NotClaimed)
    case Some(NoSuchTask) => Stop(Missing(c.unsure))
    case Some(OffsetMismatch(received)) => Go(c.(pos := Resume(cp, plan, c.sentEnd, received)))
    case Some(_) => Go(c)
  }

  /** How the loop goes on after the turn of an agent that carried `chunk`. */
  function AfterChunk(cp: seq<char>, plan: seq<Chunk>, c0: Client, chunk: Chunk, t: Turn): Step {
    var c := c0.(sentEnd := if c0.sentEnd < chunk.end then chunk.end else c0.sentEnd);
    var last := chunk.end == |cp|;
    if t.toldFinal.Some? && t.toldFinal.value.Done? then Stop(Settled(t.toldFinal.value, |cp|))
    else
      match t.toldFirst
      case None => Go(c.(unsure := c.unsure || last))
      case Some(LeaseLost) => Stop(NotClaimed)
      case Some(NoSuchTask) => Stop(Missing(c.unsure))
      case Some(TooLarge(max)) => Stop(AnswerTooLarge(max))
      case Some(OffsetMismatch(received)) => Go(c.(pos := Resume(cp, plan, c.sentEnd, received)))
      case Some(Done(chars, cut)) => Stop(Settled(Done(chars, cut), |cp|))
      case Some(Received(received)) =>
        if received != chunk.end then Go(c.(pos := 0))
        else
          match t.toldFinal
          case Some(LeaseLost) => Stop(NotClaimed)
          case Some(NoSuchTask) => Stop(Missing(c.unsure))
          case Some(OffsetMismatch(r)) => Go(c.(pos := Resume(cp, plan, c.sentEnd, r)))
          case _ => Go(c.(pos := chunk.end))
  }

  datatype Result = Result(outcome: Outcome, server: Server, log: seq<Turn>)

  function MaxCalls(plan: seq<Chunk>): nat { 2 * |plan| + 4 }

  method FindChunk(plan: seq<Chunk>, pos: nat) returns (c: Chunk)
    requires ChunkAt(plan, pos) < |plan|
    ensures c == plan[ChunkAt(plan, pos)]
  {
    var i := 0;
    while plan[i].start != pos
      invariant i <= ChunkAt(plan, pos)
      decreases |plan| - i
    {
      i := i + 1;
    }
    c := plan[i];
  }

  function OneTurn(cp: seq<char>, plan: seq<Chunk>, c: Client, s: Server, fate: Fate): (Turn, Step)
    requires Chain(cp, plan, 0)
  {
    var j := ChunkAt(plan, c.pos);
    if c.pos == |cp| || j == |plan| then
      var t := FinishTurn(s, fate, |cp|);
      (t, AfterFinish(cp, plan, c, t))
    else
      var chunk := plan[j];
      var t := ChunkTurn(s, fate, chunk.start, cp[chunk.start..chunk.end], chunk.end == |cp|, |cp|);
      (t, AfterChunk(cp, plan, c, chunk, t))
  }

  /** The run of the delivery loop after the turns in `log`. */
  function Run(cp: seq<char>, plan: seq<Chunk>, c: Client, s: Server, fates: nat -> Fate, log: seq<Turn>): Result
    requires Chain(cp, plan, 0)
    decreases MaxCalls(plan) - |log|
  {
    if |log| >= MaxCalls(plan) then Result(SubmitFailed, s, log)
    else
      var (t, step) := OneTurn(cp, plan, c, s, fates(|log|));
      if step.Stop? then Result(step.outcome, t.server, log + [t])
      else Run(cp, plan, step.client, t.server, fates, log + [t])
  }

  const START := Client(0, 0, false)

  function DeliveryOf(cp: seq<char>, s0: Server, fates: nat -> Fate): Result {
    PlanIsChain(cp, 0);
    Run(cp, Plan(cp, 0), START, s0, fates, [])
  }

  lemma ZeroIsBoundary(cp: seq<char>, plan: seq<Chunk>)
    requires Chain(cp, plan, 0)
    ensures AtBoundary(cp, plan, 0)
  {
  }

  lemma ChunkEndsAreBoundaries(cp: seq<char>, plan: seq<Chunk>, j: nat)
    requires Chain(cp, plan, 0) && j < |plan|
    ensures AtBoundary(cp, plan, plan[j].end)
  {
    assert j + 1 < |plan| ==> plan[j + 1].start == plan[j].end;
  }

  /** The first half of the loop body: everything arrived and only the finish is missing. */
  method CallFinisher(cp: seq<char>, plan: seq<Chunk>, c: Client, s: Server, fate: Fate)
    returns (t: Turn, pos: nat, unsure: bool, end: Option<Outcome>)
    requires AtBoundary(cp, plan, c.pos)
    ensures t == FinishTurn(s, fate, |cp|)
    ensures AfterFinish(cp, plan, c, t)
         == if end.Some? then Stop(end.value) else Go(Client(pos, c.sentEnd, unsure))
    ensures AtBoundary(cp, plan, pos) || pos == 0
  {
    pos, unsure, end := c.pos, c.unsure, None;
    t := FinishTurn(s, fate, |cp|);
    match t.toldFirst
    case None => unsure := true;
    case Some(Done(_, _)) => end := Some(Settled(t.toldFirst.value, |cp|));
    case Some(LeaseLost) => end := Some(NotClaimed);
    case Some(NoSuchTask) => end := Some(Missing(unsure));
    case Some(OffsetMismatch(received)) => pos := Resume(cp, plan, c.sentEnd, received);
    case Some(_) =>
  }

  /** The second half of the loop body: an agent carries the chunk that starts at pos. */
  method CallCarrier(cp: seq<char>, plan: seq<Chunk>, c: Client, chunk: Chunk, s: Server, fate: Fate)
    returns (t: Turn, pos: nat, sentEnd: nat, unsure: bool, end: Option<Outcome>)
    requires AtBoundary(cp, plan, c.pos) && AtBoundary(cp, plan, chunk.end)
    requires chunk.start <= chunk.end <= |cp|
    ensures t == ChunkTurn(s, fate, chunk.start, cp[chunk.start..chunk.end], chunk.end == |cp|, |cp|)
    ensures AfterChunk(cp, plan, c, chunk, t)
         == if end.Some? then Stop(end.value) else Go(Client(pos, sentEnd, unsure))
    ensures AtBoundary(cp, plan, pos) || pos == 0
  {
    pos, sentEnd, unsure, end := c.pos, c.sentEnd, c.unsure, None;
    var last := chunk.end == |cp|;
    sentEnd := if sentEnd < chunk.end then chunk.end else sentEnd;
    t := ChunkTurn(s, fate, chunk.start, cp[chunk.start..chunk.end], last, |cp|);
    var fin := t.toldFinal;
    if fin.Some? && fin.value.Done? {
      end := Some(Settled(fin.value, |cp|));
      return;
    }
    match t.toldFirst
    case None => unsure := unsure || last;
    case Some(LeaseLost) => end := Some(NotClaimed);
    case Some(NoSuchTask) => end := Some(Missing(unsure));
    case Some(TooLarge(max)) => end := Some(AnswerTooLarge(max));
    case Some(OffsetMismatch(received)) => pos := Resume(cp, plan, sentEnd, received);
    case Some(Done(_, _)) => end := Some(Settled(t.toldFirst.value, |cp|));
    case Some(Received(received)) =>
      if received != chunk.end {
        pos := 0;
        return;
      }
      pos := chunk.end;
      match fin
      case Some(LeaseLost) => end := Some(NotClaimed);
      case Some(NoSuchTask) => end := Some(Missing(unsure));
      case Some(OffsetMismatch(r)) => pos := Resume(cp, plan, sentEnd, r);
      case _ =>
  }

  /** deliver: the loop as the source runs it, with each agent's fate read from `fates`. */
  method Deliver(cp: seq<char>, s0: Server, fates: nat -> Fate)
    returns (o: Outcome, s: Server, log: seq<Turn>)
    ensures Result(o, s, log) == DeliveryOf(cp, s0, fates)
    ensures BorneOut(cp, s0, s, o)
  {
    DeliveryIsSafe(cp, s0, fates);
    var plan := ChunkPlan(cp);
    var maxCalls := 2 * |plan| + 4;
    var pos: nat, sentEnd: nat, calls: nat, unsure := 0, 0, 0, false;
    s, log := s0, [];
    while calls < maxCalls
      invariant calls == |log| <= maxCalls
      invariant AtBoundary(cp, plan, pos)
      invariant Run(cp, plan, Client(pos, sentEnd, unsure), s, fates, log) == DeliveryOf(cp, s0, fates)
    {
      var fate, t, end := fates(calls), Turn(None, None, None, None, s), None;
      calls := calls + 1;
      if pos == |cp| {
        t, pos, unsure, end := CallFinisher(cp, plan, Client(pos, sentEnd, unsure), s, fate);
      } else {
        var c := FindChunk(plan, pos);
        ChunkEndsAreBoundaries(cp, plan, ChunkAt(plan, pos));
        t, pos, sentEnd, unsure, end := CallCarrier(cp, plan, Client(pos, sentEnd, unsure), c, s, fate);
      }
      ZeroIsBoundary(cp, plan);
      s, log := t.server, log + [t];
      if end.Some? {
        return end.value, s, log;
      }
    }
    o := SubmitFailed;
  }

  // ---------------------------------------------------------------- reading a log

  /** The finishing call was made and the engine took the answer. */
  ghost predicate Finishes(t: Turn) {
    (t.first.Some? && t.first.value.Done?) || (t.final.Some? && t.final.value.Done?)
  }

  ghost predicate ToldFinished(t: Turn) {
    (t.toldFirst.Some? && t.toldFirst.value.Done?) || (t.toldFinal.Some? && t.toldFinal.value.Done?)
  }

  /** The report came back without the result of the first call. */
  predicate Lost(t: Turn) { t.toldFirst.None? }

  /** The report kept the result of the first call and left out that the task was finished. */
  ghost predicate HidesFinish(t: Turn) { Finishes(t) && !Lost(t) && !ToldFinished(t) }

  function LostCount(log: seq<Turn>): nat {
    if log == [] then 0 else LostCount(log[..|log| - 1]) + (if Lost(log[|log| - 1]) then 1 else 0)
  }

  /** The engine's buffer is what it was at the start or a prefix of the answer that ends where a chunk does. */
  ghost predicate BoundaryPrefix(cp: seq<char>, plan: seq<Chunk>, s0: Server, s: Server) {
    s.buf == s0.buf || exists j :: 0 <= j <= |plan| && Bound(cp, plan, j) <= |cp| && s.buf == cp[..Bound(cp, plan, j)]
  }

  /** Nothing happens to the open task but what the agents do. */
  ghost predicate LeaseKept(fates: nat -> Fate) {
    forall i: nat :: fates(i).before.Nothing? && fates(i).between.Nothing?
  }

  // ---------------------------------------------------------------- one turn

  /** What ties the client to the engine between two turns. The client is about to send chunk j;
      the buffer holds i chunks, or is untouched and i is -1. */
  ghost predicate InStep(cp: seq<char>, plan: seq<Chunk>, s0: Server, c: Client, s: Server, j: nat, i: int) {
    && Chain(cp, plan, 0)
    && j <= |plan| && c.pos == Bound(cp, plan, j) <= |cp|
    && s.cap == s0.cap && s.keep == s0.keep
    && (if i < 0 then i == -1 && s.buf == s0.buf && j == 0
        else
          && j <= i <= j + 1 && i <= |plan| && (plan == [] || i > 0)
          && Bound(cp, plan, i) <= c.sentEnd && Bound(cp, plan, i) <= s.cap && Bound(cp, plan, i) <= |cp|
          && s.buf == cp[..Bound(cp, plan, i)])
    && (s.phase.Finalised? && !s0.phase.Finalised? ==> s.buf == cp)
    && (s0.phase.Finalised? ==> s.phase.Finalised?)
  }

  lemma ChunkAtBound(cp: seq<char>, plan: seq<Chunk>, j: nat)
    requires Chain(cp, plan, 0) && j < |plan|
    ensures ChunkAt(plan, plan[j].start) == j && plan[j].start < |cp|
    ensures plan[j].end == Bound(cp, plan, j + 1)
    ensures plan[j].end == |cp| <==> j + 1 == |plan|
    ensures plan[j].start == 0 <==> j == 0
  {
    var k := ChunkAt(plan, plan[j].start);
    if k < j {
      BoundsGrow(cp, plan, k, j);
    }
    BoundsGrow(cp, plan, 0, j);
    if j + 1 < |plan| {
      BoundsGrow(cp, plan, j + 1, |plan|);
    }
  }

  /** The engine keeps all of the answer, or as much as it keeps, and the rest is cut. */
  ghost predicate IsKept(cp: seq<char>, s: Server, chars: nat, cut: nat) {
    chars <= s.keep && chars + cut == |cp| && (cut > 0 ==> chars == s.keep)
  }

  /** What a turn of a finishing agent does to an engine that holds the answer, or to any engine
      when the answer is empty. */
  ghost predicate Finished(cp: seq<char>, s: Server, t: Turn) {
    && t.server.cap == s.cap && t.server.keep == s.keep
    && (t.server.buf == s.buf || t.server.buf == cp)
    && (Finishes(t) <==> t.server.phase.Finalised? && !s.phase.Finalised?)
    && (Finishes(t) ==> t.server.buf == cp)
    && (s.phase.Finalised? ==> t.server.phase.Finalised? && t.server.buf == s.buf)
    && t.final.None? && t.toldFinal.None?
    && (t.toldFirst.Some? ==> t.toldFirst == t.first)
    && (t.first.Some? ==>
          match t.first.value
          case Done(n, cut) => IsKept(cp, s, n, cut)
          case LeaseLost => t.server.phase.Released?
          case NoSuchTask => t.server.phase.Gone? || t.server.phase.Finalised?
          case _ => false)
  }

  lemma FinishTurnEffect(cp: seq<char>, s: Server, fate: Fate)
    requires (s.buf == cp && |cp| <= s.cap) || cp == []
    ensures Finished(cp, s, FinishTurn(s, fate, |cp|))
  {
  }

  /** What a turn of an agent that carries `chunk` does: the engine either keeps its buffer (and
      `arrived` is false) or holds the answer up to the chunk's end. */
  ghost predicate Carried(cp: seq<char>, chunk: Chunk, s: Server, t: Turn, arrived: bool) {
    && chunk.end <= |cp|
    && t.server.cap == s.cap && t.server.keep == s.keep
    && (if arrived then t.server.buf == cp[..chunk.end] && chunk.end <= s.cap else t.server.buf == s.buf)
    && (t.server.phase.Finalised? ==> s.phase.Finalised? || (arrived && chunk.end == |cp|))
    && (s.phase.Finalised? ==> t.server.phase.Finalised? && !arrived)
    && (Finishes(t) <==> t.server.phase.Finalised? && !s.phase.Finalised?)
    && (t.final.Some? ==> chunk.end == |cp| && t.first == Some(Received(chunk.end)))
    && (t.toldFirst.Some? ==> t.toldFirst == t.first)
    && (t.toldFinal.Some? ==> t.toldFinal == t.final)
    && (t.first.Some? ==>
          match t.first.value
          case Received(n) => n == chunk.end && arrived
          case OffsetMismatch(n) => n == chunk.end && arrived
          case TooLarge(max) => max == s.cap < |cp|
          case LeaseLost => t.server.phase.Released?
          case NoSuchTask => t.server.phase.Gone? || t.server.phase.Finalised?
          case Done(_, _) => false)
    && (t.final.Some? ==>
          match t.final.value
          case Done(n, cut) =>
            IsKept(cp, s, n, cut) && t.server.phase.Finalised? && !s.phase.Finalised? && t.server.buf == cp
          case LeaseLost => t.server.phase.Released?
          case NoSuchTask => t.server.phase.Gone?
          case _ => false)
  }

  /** What the engine does with chunk j when its buffer holds i chunks. */
  lemma SubmitChunk(cp: seq<char>, plan: seq<Chunk>, s: Server, j: nat, i: int)
    requires Chain(cp, plan, 0) && j < |plan|
    requires i == -1 ==> j == 0
    requires i != -1 ==> 0 < i && j <= i <= j + 1 && Bound(cp, plan, i) <= |cp| && s.buf == cp[..Bound(cp, plan, i)]
    requires i != -1 ==> Bound(cp, plan, i) <= s.cap
    ensures var (s', r) := Submit(s, plan[j].start, cp[plan[j].start..plan[j].end], false);
            match r
            case Received(n) => s.phase.Open? && n == plan[j].end <= s.cap && s' == s.(buf := cp[..plan[j].end])
            case OffsetMismatch(n) =>
              s.phase.Open? && n == plan[j].end <= s.cap && s' == s && s.buf == cp[..plan[j].end]
            case TooLarge(max) => s.phase.Open? && s' == s && max == s.cap < |cp|
            case LeaseLost => s.phase.Released? && s' == s
            case NoSuchTask => (s.phase.Gone? || s.phase.Finalised?) && s' == s
            case Done(_, _) => false
  {
    ChunkAtBound(cp, plan, j);
    assert cp[..plan[j].start] + cp[plan[j].start..plan[j].end] == cp[..plan[j].end];
  }

  lemma ChunkTurnEffect(cp: seq<char>, plan: seq<Chunk>, s: Server, j: nat, i: int, fate: Fate) returns (arrived: bool)
    requires Chain(cp, plan, 0) && j < |plan|
    requires i == -1 ==> j == 0
    requires i != -1 ==> 0 < i && j <= i <= j + 1 && Bound(cp, plan, i) <= |cp| && s.buf == cp[..Bound(cp, plan, i)]
    requires i != -1 ==> Bound(cp, plan, i) <= s.cap
    ensures var text, last := cp[plan[j].start..plan[j].end], plan[j].end == |cp|;
            Carried(cp, plan[j], s, ChunkTurn(s, fate, plan[j].start, text, last, |cp|), arrived)
  {
    var s1 := Happens(s, fate.before);
    SubmitChunk(cp, plan, s1, j, i);
    var (s2, r) := Submit(s1, plan[j].start, cp[plan[j].start..plan[j].end], false);
    arrived := fate.calls && (r.Received? || r.OffsetMismatch?);
    assert cp[..|cp|] == cp == cp + [];
  }

  /** The outcome says what happened: `answered` only when the engine took the whole answer. */
  ghost predicate BorneOut(cp: seq<char>, s0: Server, s: Server, o: Outcome) {
    match o
    case Answered(chars, cut) =>
      s.phase.Finalised? && !s0.phase.Finalised? && s.buf == cp && IsKept(cp, s0, chars, cut)
    case NotClaimed => s.phase.Released?
    case TaskNotFound => s.phase.Gone? || s.phase.Finalised?
    case DeliveredUnconfirmed => s.phase.Gone? || s.phase.Finalised?
    case AnswerTooLarge(max) => max == s0.cap < |cp|
    case DeliveredMismatch => false
    case SubmitFailed => true
  }

  /** All that a turn guarantees, for the turn of either kind of agent. */
  ghost predicate TurnOk(cp: seq<char>, plan: seq<Chunk>, s0: Server, c: Client, s: Server, t: Turn, step: Step) {
    && BoundaryPrefix(cp, plan, s0, t.server)
    && (t.server.phase.Finalised? && !s0.phase.Finalised? ==> t.server.buf == cp)
    && (Finishes(t) <==> t.server.phase.Finalised? && !s.phase.Finalised?)
    && (step.Go? ==> (c.unsure ==> step.client.unsure)
                     && (step.client.unsure ==> c.unsure || Lost(t))
                     && (Finishes(t) ==> step.client.unsure || HidesFinish(t)))
    && (step.Stop? ==> BorneOut(cp, s0, t.server, step.outcome))
    && (step == Stop(TaskNotFound) ==> !c.unsure && !Finishes(t))
  }

  lemma HeldPrefix(cp: seq<char>, plan: seq<Chunk>, s0: Server, s: Server, j: nat)
    requires j <= |plan| && Bound(cp, plan, j) <= |cp| && s.buf == cp[..Bound(cp, plan, j)]
    ensures BoundaryPrefix(cp, plan, s0, s)
  {
  }

  lemma FinishKeepsInStep(cp: seq<char>, plan: seq<Chunk>, s0: Server, c: Client, s: Server, i: int, t: Turn)
    returns (i': int)
    requires InStep(cp, plan, s0, c, s, |plan|, i) && Finished(cp, s, t)
    ensures var step := AfterFinish(cp, plan, c, t);
            && TurnOk(cp, plan, s0, c, s, t, step)
            && (step.Go? ==> InStep(cp, plan, s0, step.client, t.server, |plan|, i') && Lost(t))
  {
    assert cp[..|cp|] == cp;
    i' := if t.server.buf != s.buf then |plan| else i;
    if i' >= 0 {
      HeldPrefix(cp, plan, s0, t.server, i');
    }
  }

  lemma ChunkKeepsInStep(cp: seq<char>, plan: seq<Chunk>, s0: Server, c: Client, s: Server, j: nat, i: int,
                         t: Turn, arrived: bool)
    returns (j': nat, i': int)
    requires j < |plan| && InStep(cp, plan, s0, c, s, j, i) && Carried(cp, plan[j], s, t, arrived)
    ensures var step := AfterChunk(cp, plan, c, plan[j], t);
            && TurnOk(cp, plan, s0, c, s, t, step)
            && (step.Go? ==> InStep(cp, plan, s0, step.client, t.server, j', i'))
            && (step.Go? ==> j' == if Lost(t) then j else j + 1)
            && (step.Go? && !Lost(t) ==> i' == j')
  {
    ChunkAtBound(cp, plan, j);
    ChunkEndsAreBoundaries(cp, plan, j);
    assert cp[..|cp|] == cp;
    i' := if arrived then j + 1 else i;
    j' := if Lost(t) then j else j + 1;
    if i' >= 0 {
      HeldPrefix(cp, plan, s0, t.server, i');
    }
  }

  /** One turn keeps client and engine in step. A turn whose report arrives moves the client one chunk on,
      to where the buffer ends. */
  lemma OneTurnKeepsInStep(cp: seq<char>, plan: seq<Chunk>, s0: Server, c: Client, s: Server, j: nat, i: int,
                           fate: Fate)
    returns (j': nat, i': int)
    requires InStep(cp, plan, s0, c, s, j, i)
    ensures var (t, step) := OneTurn(cp, plan, c, s, fate);
            && TurnOk(cp, plan, s0, c, s, t, step)
            && (step.Go? ==> InStep(cp, plan, s0, step.client, t.server, j', i'))
            && (step.Go? ==> j' == if Lost(t) then j else j + 1)
            && (step.Go? && !Lost(t) ==> i' == j')
  {
    if j == |plan| {
      j' := j;
      assert cp[..|cp|] == cp;
      FinishTurnEffect(cp, s, fate);
      i' := FinishKeepsInStep(cp, plan, s0, c, s, i, FinishTurn(s, fate, |cp|));
    } else {
      ChunkAtBound(cp, plan, j);
      var arrived := ChunkTurnEffect(cp, plan, s, j, i, fate);
      var (t, step) := OneTurn(cp, plan, c, s, fate);
      j', i' := ChunkKeepsInStep(cp, plan, s0, c, s, j, i, t, arrived);
    }
  }

  // ---------------------------------------------------------------- whole runs

  ghost predicate Took(s0: Server, s: Server) { s.phase.Finalised? && !s0.phase.Finalised? }

  /** Every engine state of the log is a boundary prefix, and an answer taken is the whole answer. */
  ghost predicate LogSafe(cp: seq<char>, plan: seq<Chunk>, s0: Server, log: seq<Turn>) {
    forall t :: t in log ==> BoundaryPrefix(cp, plan, s0, t.server) && (Took(s0, t.server) ==> t.server.buf == cp)
  }

  lemma LogSafeSnoc(cp: seq<char>, plan: seq<Chunk>, s0: Server, log: seq<Turn>, t: Turn)
    requires LogSafe(cp, plan, s0, log)
    requires BoundaryPrefix(cp, plan, s0, t.server) && (Took(s0, t.server) ==> t.server.buf == cp)
    ensures LogSafe(cp, plan, s0, log + [t])
  {
  }

  ghost predicate Hidden(log: seq<Turn>) { exists t :: t in log && HidesFinish(t) }

  /** What a run has to keep: the log is safe, and an answer taken is remembered as uncertain or was hidden. */
  ghost predicate SoFar(cp: seq<char>, plan: seq<Chunk>, s0: Server, c: Client, s: Server, log: seq<Turn>) {
    && LogSafe(cp, plan, s0, log)
    && (Took(s0, s) ==> c.unsure || Hidden(log))
    && (Hidden(log) ==> Took(s0, s))
  }

  lemma TurnKeepsSafe(cp: seq<char>, plan: seq<Chunk>, s0: Server, c: Client, s: Server, fate: Fate, log: seq<Turn>,
                      j: nat, i: int)
    returns (j': nat, i': int)
    requires InStep(cp, plan, s0, c, s, j, i) && SoFar(cp, plan, s0, c, s, log)
    ensures var (t, step) := OneTurn(cp, plan, c, s, fate);
            && (step.Go? ==> InStep(cp, plan, s0, step.client, t.server, j', i')
                             && SoFar(cp, plan, s0, step.client, t.server, log + [t]))
            && (step.Stop? ==>
                 && LogSafe(cp, plan, s0, log + [t]) && BorneOut(cp, s0, t.server, step.outcome)
                 && (Took(s0, t.server) ==> t.server.buf == cp)
                 && (step.outcome == TaskNotFound ==> (Took(s0, t.server) <==> Hidden(log + [t]))))
  {
    var (t, step) := OneTurn(cp, plan, c, s, fate);
    j', i' := OneTurnKeepsInStep(cp, plan, s0, c, s, j, i, fate);
    HiddenSnoc(log, t);
    LogSafeSnoc(cp, plan, s0, log, t);
  }

  /** Safety of the rest of a run, with what it says about `task_not_found`. */
  lemma {:induction false} RunIsSafe(cp: seq<char>, plan: seq<Chunk>, s0: Server, c: Client, s: Server,
                                     fates: nat -> Fate, log: seq<Turn>, j: nat, i: int)
    requires InStep(cp, plan, s0, c, s, j, i) && SoFar(cp, plan, s0, c, s, log) && |log| <= MaxCalls(plan)
    ensures var r := Run(cp, plan, c, s, fates, log);
            && LogSafe(cp, plan, s0, r.log) && |r.log| <= MaxCalls(plan)
            && BorneOut(cp, s0, r.server, r.outcome)
            && (Took(s0, r.server) ==> r.server.buf == cp)
            && (r.outcome == TaskNotFound ==> (Took(s0, r.server) <==> Hidden(r.log)))
    decreases MaxCalls(plan) - |log|
  {
    if |log| < MaxCalls(plan) {
      var (t, step) := OneTurn(cp, plan, c, s, fates(|log|));
      var j', i' := TurnKeepsSafe(cp, plan, s0, c, s, fates(|log|), log, j, i);
      if step.Go? {
        RunIsSafe(cp, plan, s0, step.client, t.server, fates, log + [t], j', i');
      }
    }
  }

  lemma HiddenSnoc(log: seq<Turn>, t: Turn)
    ensures Hidden(log + [t]) <==> Hidden(log) || HidesFinish(t)
  {
    assert (log + [t])[|log|] == t;
    if Hidden(log) {
      var u :| u in log && HidesFinish(u);
      assert u in log + [t];
    }
  }

  /** Delivery, for every answer, every engine and every fate of the agents: at most 2n + 4
      agents are used, the engine's buffer is only ever a boundary prefix of the answer, the
      engine takes only the whole answer, and `answered` is returned only then, with the length the
      engine keeps and the length it cuts. `task_not_found`
      is returned for an answer the engine took exactly when a report kept the result of its
      chunk and left out the finish. */
  lemma DeliveryIsSafe(cp: seq<char>, s0: Server, fates: nat -> Fate)
    ensures var plan := Plan(cp, 0);
            var r := DeliveryOf(cp, s0, fates);
            && |r.log| <= 2 * |plan| + 4
            && LogSafe(cp, plan, s0, r.log)
            && (Took(s0, r.server) ==> r.server.buf == cp)
            && BorneOut(cp, s0, r.server, r.outcome)
            && (r.outcome == TaskNotFound ==> (Took(s0, r.server) <==> Hidden(r.log)))
  {
    PlanIsChain(cp, 0);
    RunIsSafe(cp, Plan(cp, 0), s0, START, s0, fates, [], 0, -1);
  }

  /** A report that would have told that the task was finished did not. */
  ghost predicate FinishUntold(log: seq<Turn>) { exists t :: t in log && Finishes(t) && !ToldFinished(t) }

  lemma FinishUntoldSnoc(log: seq<Turn>, t: Turn)
    ensures FinishUntold(log) || (Finishes(t) && !ToldFinished(t)) ==> FinishUntold(log + [t])
  {
    assert (log + [t])[|log|] == t;
    if FinishUntold(log) {
      var u :| u in log && Finishes(u) && !ToldFinished(u);
      assert u in log + [t];
    }
  }

  /** An undisturbed agent that carries a chunk never hears that the lease or the task is gone. */
  lemma UndisturbedReplies(s: Server, fate: Fate, offset: nat, text: seq<char>, last: bool, total: nat)
    requires s.phase.Open? && fate.before.Nothing? && fate.between.Nothing?
    requires offset + |text| <= s.cap
    ensures var t := ChunkTurn(s, fate, offset, text, last, total);
            && (t.toldFirst.Some? ==> t.toldFirst.value.Received? || t.toldFirst.value.OffsetMismatch?)
            && (t.toldFinal.Some? ==> t.toldFinal.value.Done?)
            && (!Finishes(t) ==> t.server.phase.Open?)
            && (Finishes(t) ==> t.final.Some? && t.final.value.Done?)
  {
  }

  /** With the lease kept and room for the answer, a turn ends the loop only by settling the answer. */
  lemma UndisturbedTurn(cp: seq<char>, plan: seq<Chunk>, s0: Server, c: Client, s: Server, j: nat, i: int, fate: Fate)
    requires InStep(cp, plan, s0, c, s, j, i) && s.phase.Open? && |cp| <= s.cap
    requires fate.before.Nothing? && fate.between.Nothing?
    ensures var (t, step) := OneTurn(cp, plan, c, s, fate);
            && (step.Stop? ==> step.outcome.Answered? || step.outcome.DeliveredMismatch?)
            && (step.Go? && !(Finishes(t) && !ToldFinished(t)) ==> t.server.phase.Open?)
  {
    if j < |plan| {
      UndisturbedChunk(cp, plan, s0, c, s, j, i, fate);
    }
  }

  lemma UndisturbedChunk(cp: seq<char>, plan: seq<Chunk>, s0: Server, c: Client, s: Server, j: nat, i: int, fate: Fate)
    requires InStep(cp, plan, s0, c, s, j, i) && s.phase.Open? && |cp| <= s.cap && j < |plan|
    requires fate.before.Nothing? && fate.between.Nothing?
    ensures var (t, step) := OneTurn(cp, plan, c, s, fate);
            && (step.Stop? ==> step.outcome.Answered? || step.outcome.DeliveredMismatch?)
            && (step.Go? && !(Finishes(t) && !ToldFinished(t)) ==> t.server.phase.Open?)
  {
    ChunkAtBound(cp, plan, j);
    UndisturbedReplies(s, fate, plan[j].start, cp[plan[j].start..plan[j].end], plan[j].end == |cp|, |cp|);
  }

  /** Progress of the rest of a run: every call either moves one chunk on or loses its report. */
  lemma {:induction false} RunMakesProgress(cp: seq<char>, plan: seq<Chunk>, s0: Server, c: Client, s: Server,
                                            fates: nat -> Fate, log: seq<Turn>, j: nat, i: int)
    requires InStep(cp, plan, s0, c, s, j, i) && s.phase.Open? && |cp| <= s.cap && LeaseKept(fates)
    requires |log| == j + LostCount(log) && |log| <= MaxCalls(plan)
    ensures var r := Run(cp, plan, c, s, fates, log);
            && (r.outcome.Answered? || FinishUntold(r.log)
                || (r.outcome == SubmitFailed && LostCount(r.log) >= |plan| + 4))
    decreases MaxCalls(plan) - |log|
  {
    if |log| < MaxCalls(plan) {
      var fate := fates(|log|);
      var (t, step) := OneTurn(cp, plan, c, s, fate);
      var j', i' := OneTurnKeepsInStep(cp, plan, s0, c, s, j, i, fate);
      UndisturbedTurn(cp, plan, s0, c, s, j, i, fate);
      assert (log + [t])[..|log|] == log;
      FinishUntoldSnoc(log, t);
      if step.Go? {
        if Finishes(t) && !ToldFinished(t) {
          UntoldStays(cp, plan, step.client, t.server, fates, log + [t]);
        } else {
          RunMakesProgress(cp, plan, s0, step.client, t.server, fates, log + [t], j', i');
        }
      }
    }
  }

  lemma {:induction false} UntoldStays(cp: seq<char>, plan: seq<Chunk>, c: Client, s: Server, fates: nat -> Fate,
                                       log: seq<Turn>)
    requires Chain(cp, plan, 0) && FinishUntold(log)
    ensures FinishUntold(Run(cp, plan, c, s, fates, log).log)
    decreases MaxCalls(plan) - |log|
  {
    if |log| < MaxCalls(plan) {
      var (t, step) := OneTurn(cp, plan, c, s, fates(|log|));
      FinishUntoldSnoc(log, t);
      if step.Go? {
        UntoldStays(cp, plan, step.client, t.server, fates, log + [t]);
      }
    }
  }

  /** Delivery succeeds: an answer of n chunks that fits, with the lease kept, at most n + 3
      reports lost and none of them that of the finishing call, ends `answered` within 2n + 4 calls. */
  lemma DeliverySucceeds(cp: seq<char>, s0: Server, fates: nat -> Fate)
    requires s0.phase.Open? && |cp| <= s0.cap && LeaseKept(fates)
    requires !FinishUntold(DeliveryOf(cp, s0, fates).log)
    requires LostCount(DeliveryOf(cp, s0, fates).log) <= |Plan(cp, 0)| + 3
    ensures var r := DeliveryOf(cp, s0, fates);
            && r.outcome.Answered? && r.server.phase.Finalised? && r.server.buf == cp
            && |r.log| <= 2 * |Plan(cp, 0)| + 4
  {
    DeliveryIsSafe(cp, s0, fates);
    PlanIsChain(cp, 0);
    RunMakesProgress(cp, Plan(cp, 0), s0, START, s0, fates, [], 0, -1);
  }

  // ---------------------------------------------------------------- a taken answer reported as missing

  /** The agent makes its first call and its report keeps the result. */
  predicate Reports(f: Fate) { f.calls && f.keepsFirst }

  function ReportedBefore(fates: nat -> Fate, i: nat): nat {
    if i == 0 then 0 else ReportedBefore(fates, i - 1) + if Reports(fates(i - 1)) then 1 else 0
  }

  /** Of n chunks, agent i is the first at the last one, with the agent before it heard and the lease kept; it finishes,
      and its report leaves that out; and the next agent's report comes back. */
  ghost predicate FinishUnheard(fates: nat -> Fate, n: nat, i: nat) {
    && n == ReportedBefore(fates, i) + 1 && i + 1 < 2 * n + 4
    && (i > 0 ==> Reports(fates(i - 1)))
    && (forall k :: 0 <= k <= i ==> fates(k).before.Nothing?)
    && Reports(fates(i)) && fates(i).finishes && fates(i).between.Nothing? && !fates(i).keepsFinal
    && Reports(fates(i + 1))
  }

  /** An agent with a chunk that is not the last finishes nothing; its report moves the client on. */
  lemma EarlyTurn(cp: seq<char>, plan: seq<Chunk>, s0: Server, c: Client, s: Server, j: nat, i: int, fate: Fate)
    requires InStep(cp, plan, s0, c, s, j, i) && j + 1 < |plan| && s.phase.Open? && fate.before.Nothing?
    ensures var (t, step) := OneTurn(cp, plan, c, s, fate);
            && (Lost(t) <==> !Reports(fate)) && t.server.phase.Open?
            && (step.Go? ==> step.client.unsure == c.unsure) && (|cp| <= s.cap ==> step.Go?)
  {
    ChunkAtBound(cp, plan, j);
    SubmitChunk(cp, plan, s, j, i);
    ChunkEndsAreBoundaries(cp, plan, j);
  }

  /** What an agent with the last chunk must have done if it finished and nobody heard. */
  lemma LastTurn(cp: seq<char>, plan: seq<Chunk>, s0: Server, c: Client, s: Server, j: nat, i: int, fate: Fate)
    requires InStep(cp, plan, s0, c, s, j, i) && j + 1 == |plan| && s.phase.Open? && fate.before.Nothing?
    ensures var (t, step) := OneTurn(cp, plan, c, s, fate);
            && (Lost(t) <==> !Reports(fate)) && (step.Go? && Lost(t) ==> step.client.unsure)
            && (step.Go? && !Lost(t) ==> step.client.unsure == c.unsure)
            && (step.Go? && Finishes(t) && !Lost(t) ==>
                 fate.finishes && fate.between.Nothing? && !fate.keepsFinal && |cp| <= s.cap)
  {
    ChunkAtBound(cp, plan, j);
    SubmitChunk(cp, plan, s, j, i);
    ChunkEndsAreBoundaries(cp, plan, j);
  }

  /** And it does if the buffer ends where the last chunk starts. */
  lemma LastTurnFinishes(cp: seq<char>, plan: seq<Chunk>, s0: Server, c: Client, s: Server, j: nat, i: int, fate: Fate)
    requires InStep(cp, plan, s0, c, s, j, i) && j + 1 == |plan| && (j > 0 ==> i == j)
    requires s.phase.Open? && |cp| <= s.cap && Reports(fate) && fate.finishes && !fate.keepsFinal
    requires fate.before.Nothing? && fate.between.Nothing?
    ensures var (t, step) := OneTurn(cp, plan, c, s, fate);
            t.server.phase.Finalised? && step.Go? && step.client.unsure == c.unsure && !Lost(t)
  {
    ChunkAtBound(cp, plan, j);
    var chunk := plan[j];
    var text := cp[chunk.start..chunk.end];
    assert s.buf[..] == s.buf && (j > 0 ==> s.buf + text == cp);
    assert j == 0 ==> text == cp;
    assert cp + [] == cp;
  }

  /** An agent that only finishes, at an engine that is open or has the answer already. */
  lemma FinisherTurn(cp: seq<char>, plan: seq<Chunk>, c: Client, s: Server, fate: Fate)
    requires Chain(cp, plan, 0) && c.pos == |cp| && ((s.buf == cp && |cp| <= s.cap) || cp == [])
    ensures var (t, step) := OneTurn(cp, plan, c, s, fate);
            && (step.Go? ==> step.client.unsure)
            && (s.phase.Finalised? && !c.unsure && Reports(fate) ==> step == Stop(TaskNotFound))
            && (s.phase.Finalised? ==> t.server.phase.Finalised?)
            && (s.phase.Open? && fate.before.Nothing? ==> step != Stop(TaskNotFound))
  {
  }

  /** A client that may have finished never says that the task is missing. */
  lemma {:induction false} UnsureIsNotMissing(cp: seq<char>, plan: seq<Chunk>, s0: Server, c: Client, s: Server,
                                              fates: nat -> Fate, log: seq<Turn>, j: nat, i: int)
    requires InStep(cp, plan, s0, c, s, j, i) && c.unsure
    ensures Run(cp, plan, c, s, fates, log).outcome != TaskNotFound
    decreases MaxCalls(plan) - |log|
  {
    if |log| < MaxCalls(plan) {
      var (t, step) := OneTurn(cp, plan, c, s, fates(|log|));
      var j', i' := OneTurnKeepsInStep(cp, plan, s0, c, s, j, i, fates(|log|));
      if step.Go? {
        UnsureIsNotMissing(cp, plan, s0, step.client, t.server, fates, log + [t], j', i');
      }
    }
  }

  /** A task that has left the agents is not finished by them. */
  lemma {:induction false} LeftIsNotTaken(cp: seq<char>, plan: seq<Chunk>, c: Client, s: Server, fates: nat -> Fate,
                                          log: seq<Turn>)
    requires Chain(cp, plan, 0) && (s.phase.Released? || s.phase.Gone?)
    ensures !Run(cp, plan, c, s, fates, log).server.phase.Finalised?
    decreases MaxCalls(plan) - |log|
  {
    if |log| < MaxCalls(plan) {
      var (t, step) := OneTurn(cp, plan, c, s, fates(|log|));
      assert t.server == s;
      if step.Go? {
        LeftIsNotTaken(cp, plan, step.client, t.server, fates, log + [t]);
      }
    }
  }

  lemma {:induction false} ReportedGrows(fates: nat -> Fate, i: nat, j: nat)
    requires i <= j
    ensures ReportedBefore(fates, i) <= ReportedBefore(fates, j)
    decreases j - i
  {
    if i < j {
      ReportedGrows(fates, i, j - 1);
    }
  }

  /** What is known before turn |log| of a run that may still give a taken answer up as missing. */
  ghost predicate Unharmed(cp: seq<char>, plan: seq<Chunk>, s0: Server, c: Client, s: Server, fates: nat -> Fate,
                           log: seq<Turn>, j: nat, i: int)
  {
    && InStep(cp, plan, s0, c, s, j, i) && s.phase.Open?
    && j == ReportedBefore(fates, |log|) && (forall k :: 0 <= k < |log| ==> fates(k).before.Nothing?)
  }

  /** From a turn that hid the finish: the next agent's report, if it comes back, ends the run. */
  lemma AfterUnheard(cp: seq<char>, plan: seq<Chunk>, s0: Server, c: Client, s: Server, fates: nat -> Fate,
                     log: seq<Turn>, i: int)
    requires InStep(cp, plan, s0, c, s, |plan|, i) && s.phase.Finalised? && !s0.phase.Finalised?
    requires !c.unsure && |log| <= MaxCalls(plan)
    ensures var r := Run(cp, plan, c, s, fates, log);
            && (r.outcome == TaskNotFound <==> |log| < MaxCalls(plan) && Reports(fates(|log|)))
            && (r.outcome == TaskNotFound ==> r.server.phase.Finalised?)
  {
    if |log| < MaxCalls(plan) {
      var fate := fates(|log|);
      var (t, step) := OneTurn(cp, plan, c, s, fate);
      var j', i' := OneTurnKeepsInStep(cp, plan, s0, c, s, |plan|, i, fate);
      FinisherTurn(cp, plan, c, s, fate);
      if step.Go? {
        UnsureIsNotMissing(cp, plan, s0, step.client, t.server, fates, log + [t], j', i');
      }
    }
  }

  /** Nor does one that has only the finish to do at an open engine, for an answer that was taken. */
  lemma FinisherIsNotMissing(cp: seq<char>, plan: seq<Chunk>, s0: Server, c: Client, s: Server, fates: nat -> Fate,
                             log: seq<Turn>, i: int)
    requires InStep(cp, plan, s0, c, s, |plan|, i) && s.phase.Open?
    ensures var r := Run(cp, plan, c, s, fates, log); r.outcome == TaskNotFound ==> !r.server.phase.Finalised?
  {
    if |log| < MaxCalls(plan) {
      var fate := fates(|log|);
      var (t, step) := OneTurn(cp, plan, c, s, fate);
      var j', i' := OneTurnKeepsInStep(cp, plan, s0, c, s, |plan|, i, fate);
      FinisherTurn(cp, plan, c, s, fate);
      if step.Go? {
        UnsureIsNotMissing(cp, plan, s0, step.client, t.server, fates, log + [t], j', i');
      }
    }
  }

  /** A turn with a chunk that is not the last. */
  lemma EarlyKeepsUnharmed(cp: seq<char>, plan: seq<Chunk>, s0: Server, c: Client, s: Server, fates: nat -> Fate,
                           log: seq<Turn>, j: nat, i: int)
    returns (j': nat, i': int)
    requires Unharmed(cp, plan, s0, c, s, fates, log, j, i)
    requires j + 1 < |plan| && fates(|log|).before.Nothing?
    ensures var (t, step) := OneTurn(cp, plan, c, s, fates(|log|));
            && t.server.phase.Open? && (|cp| <= s.cap ==> step.Go?)
            && (step.Go? ==>
                 && step.client.unsure == c.unsure
                 && Unharmed(cp, plan, s0, step.client, t.server, fates, log + [t], j', i')
                 && (j' + 1 == |plan| ==> Reports(fates(|log|))) && (Reports(fates(|log|)) ==> i' == j'))
  {
    EarlyTurn(cp, plan, s0, c, s, j, i, fates(|log|));
    j', i' := OneTurnKeepsInStep(cp, plan, s0, c, s, j, i, fates(|log|));
  }

  /** A run that goes on from the end of the answer, or unsure, gives a taken answer up as missing only from a sure
      client and an engine that has finished, at the next report. */
  lemma MissingAtEnd(cp: seq<char>, plan: seq<Chunk>, s0: Server, c: Client, s: Server, fates: nat -> Fate,
                     log: seq<Turn>, j: nat, i: int)
    requires InStep(cp, plan, s0, c, s, j, i) && s0.phase.Open? && |log| <= MaxCalls(plan) && (c.unsure || j == |plan|)
    ensures var r := Run(cp, plan, c, s, fates, log);
            r.outcome == TaskNotFound && Took(s0, r.server) ==>
              !c.unsure && s.phase.Finalised? && |log| < MaxCalls(plan) && Reports(fates(|log|))
  {
    if c.unsure {
      UnsureIsNotMissing(cp, plan, s0, c, s, fates, log, j, i);
    } else if s.phase.Finalised? {
      AfterUnheard(cp, plan, s0, c, s, fates, log, i);
    } else if s.phase.Open? {
      FinisherIsNotMissing(cp, plan, s0, c, s, fates, log, i);
    } else {
      LeftIsNotTaken(cp, plan, c, s, fates, log);
    }
  }

  /** What is left of a run after the turn with the last chunk. */
  lemma AfterLast(cp: seq<char>, plan: seq<Chunk>, s0: Server, c: Client, s: Server, j: nat, i: int, fate: Fate)
    returns (j': nat, i': int)
    requires InStep(cp, plan, s0, c, s, j, i) && j + 1 == |plan| && s.phase.Open? && s0.phase.Open?
    requires fate.before.Nothing?
    ensures var (t, step) := OneTurn(cp, plan, c, s, fate);
            && (step == Stop(TaskNotFound) ==> !t.server.phase.Finalised?)
            && (step.Go? ==>
                 && InStep(cp, plan, s0, step.client, t.server, j', i') && (step.client.unsure || j' == |plan|)
                 && (!step.client.unsure && t.server.phase.Finalised? ==>
                      && !c.unsure && Reports(fate) && fate.finishes && fate.between.Nothing? && !fate.keepsFinal
                      && |cp| <= s.cap))
  {
    LastTurn(cp, plan, s0, c, s, j, i, fate);
    j', i' := OneTurnKeepsInStep(cp, plan, s0, c, s, j, i, fate);
  }

  lemma MissingAtLast(cp: seq<char>, plan: seq<Chunk>, s0: Server, c: Client, s: Server, fates: nat -> Fate,
                      log: seq<Turn>, j: nat, i: int)
    requires s0.phase.Open? && Unharmed(cp, plan, s0, c, s, fates, log, j, i)
    requires j + 1 == |plan| && |log| < MaxCalls(plan) && fates(|log|).before.Nothing?
    requires !c.unsure && |log| > 0 ==> Reports(fates(|log| - 1))
    ensures var r := Run(cp, plan, c, s, fates, log);
            r.outcome == TaskNotFound && Took(s0, r.server) ==> |cp| <= s0.cap && FinishUnheard(fates, |plan|, |log|)
  {
    var (t, step) := OneTurn(cp, plan, c, s, fates(|log|));
    var j', i' := AfterLast(cp, plan, s0, c, s, j, i, fates(|log|));
    if step.Go? {
      MissingAtEnd(cp, plan, s0, step.client, t.server, fates, log + [t], j', i');
    }
  }

  lemma MissingAfterLeaving(cp: seq<char>, plan: seq<Chunk>, c: Client, s: Server, fates: nat -> Fate, log: seq<Turn>)
    requires Chain(cp, plan, 0) && s.phase.Open? && |log| < MaxCalls(plan) && !fates(|log|).before.Nothing?
    ensures !Run(cp, plan, c, s, fates, log).server.phase.Finalised?
  {
    var (t, step) := OneTurn(cp, plan, c, s, fates(|log|));
    if step.Go? {
      LeftIsNotTaken(cp, plan, step.client, t.server, fates, log + [t]);
    }
  }

  lemma {:induction false} MissingOnlyIf(cp: seq<char>, plan: seq<Chunk>, s0: Server, c: Client, s: Server,
                                         fates: nat -> Fate, log: seq<Turn>, j: nat, i: int)
    requires s0.phase.Open? && Unharmed(cp, plan, s0, c, s, fates, log, j, i)
    requires !c.unsure && j + 1 == |plan| && |log| > 0 ==> Reports(fates(|log| - 1))
    ensures var r := Run(cp, plan, c, s, fates, log);
            r.outcome == TaskNotFound && Took(s0, r.server) ==>
              |cp| <= s0.cap && exists k :: FinishUnheard(fates, |plan|, k)
    decreases MaxCalls(plan) - |log|
  {
    if |log| < MaxCalls(plan) {
      if !fates(|log|).before.Nothing? {
        MissingAfterLeaving(cp, plan, c, s, fates, log);
      } else if j == |plan| {
        FinisherIsNotMissing(cp, plan, s0, c, s, fates, log, i);
      } else if j + 1 == |plan| {
        MissingAtLast(cp, plan, s0, c, s, fates, log, j, i);
      } else {
        var (t, step) := OneTurn(cp, plan, c, s, fates(|log|));
        var j', i' := EarlyKeepsUnharmed(cp, plan, s0, c, s, fates, log, j, i);
        if step.Go? {
          MissingOnlyIf(cp, plan, s0, step.client, t.server, fates, log + [t], j', i');
        }
      }
    }
  }

  lemma UnheardIsMissing(cp: seq<char>, plan: seq<Chunk>, s0: Server, c: Client, s: Server, fates: nat -> Fate,
                         log: seq<Turn>, j: nat, i: int)
    requires Unharmed(cp, plan, s0, c, s, fates, log, j, i) && !c.unsure
    requires FinishUnheard(fates, |plan|, |log|) && |cp| <= s0.cap && (|log| > 0 ==> i == j)
    ensures var r := Run(cp, plan, c, s, fates, log); r.outcome == TaskNotFound && Took(s0, r.server)
  {
    var fate := fates(|log|);
    var (t, step) := OneTurn(cp, plan, c, s, fate);
    LastTurnFinishes(cp, plan, s0, c, s, j, i, fate);
    var j', i' := OneTurnKeepsInStep(cp, plan, s0, c, s, j, i, fate);
    AfterUnheard(cp, plan, s0, step.client, t.server, fates, log + [t], i');
  }

  lemma {:induction false} MissingIf(cp: seq<char>, plan: seq<Chunk>, s0: Server, c: Client, s: Server,
                                     fates: nat -> Fate, log: seq<Turn>, j: nat, i: int, q: nat)
    requires Unharmed(cp, plan, s0, c, s, fates, log, j, i) && !c.unsure
    requires FinishUnheard(fates, |plan|, q) && |cp| <= s0.cap && s0.phase.Open? && |log| <= q
    requires |log| > 0 && Reports(fates(|log| - 1)) ==> i == j
    ensures var r := Run(cp, plan, c, s, fates, log); r.outcome == TaskNotFound && Took(s0, r.server)
    decreases q - |log|
  {
    if |log| == q {
      UnheardIsMissing(cp, plan, s0, c, s, fates, log, j, i);
    } else {
      var (t, step) := OneTurn(cp, plan, c, s, fates(|log|));
      ReportedGrows(fates, |log|, q - 1);
      var j', i' := EarlyKeepsUnharmed(cp, plan, s0, c, s, fates, log, j, i);
      MissingIf(cp, plan, s0, step.client, t.server, fates, log + [t], j', i', q);
    }
  }

  /** The case on the input: the task is open, the answer fits, and some agent's finish goes unheard. */
  ghost predicate GoesMissing(cp: seq<char>, s0: Server, fates: nat -> Fate) {
    s0.phase.Open? && |cp| <= s0.cap && exists i :: FinishUnheard(fates, |Plan(cp, 0)|, i)
  }

  lemma MissingRunIff(cp: seq<char>, plan: seq<Chunk>, s0: Server, fates: nat -> Fate)
    requires Chain(cp, plan, 0)
    ensures var r := Run(cp, plan, START, s0, fates, []);
            r.outcome == TaskNotFound && Took(s0, r.server)
            <==> s0.phase.Open? && |cp| <= s0.cap && exists i :: FinishUnheard(fates, |plan|, i)
  {
    if s0.phase.Open? {
      MissingOnlyIf(cp, plan, s0, START, s0, fates, [], 0, -1);
      if |cp| <= s0.cap && exists i :: FinishUnheard(fates, |plan|, i) {
        var i: nat :| FinishUnheard(fates, |plan|, i);
        MissingIf(cp, plan, s0, START, s0, fates, [], 0, -1, i);
      }
    } else if !s0.phase.Finalised? {
      LeftIsNotTaken(cp, plan, START, s0, fates, []);
    }
  }

  /** For every answer, every engine and every fate of the agents: an answer that the engine took is given up as missing
      in exactly this case. */
  lemma TakenIsMissingIff(cp: seq<char>, s0: Server, fates: nat -> Fate)
    ensures var r := DeliveryOf(cp, s0, fates);
            r.outcome == TaskNotFound && Took(s0, r.server) <==> GoesMissing(cp, s0, fates)
  {
    PlanIsChain(cp, 0);
    MissingRunIff(cp, Plan(cp, 0), s0, fates);
  }

  ghost predicate EndsWith(r: Result, s: Server, log: seq<Turn>) {
    log <= r.log && r.server == if |log| < |r.log| then r.log[|r.log| - 1].server else s
  }

  lemma OneMoreTurn(r: Result, s: Server, log: seq<Turn>, t: Turn)
    requires EndsWith(r, t.server, log + [t])
    ensures EndsWith(r, s, log) && |log| < |r.log|
  {
    assert |log| < |log + [t]| <= |r.log| && (log + [t])[|log|] == r.log[|log|];
    assert forall k :: 0 <= k < |log| ==> (log + [t])[k] == r.log[k];
  }

  /** The log of a run holds every call of it, down to the last. */
  lemma {:induction false} LogIsWhole(cp: seq<char>, plan: seq<Chunk>, c: Client, s: Server, fates: nat -> Fate,
                                      log: seq<Turn>)
    requires Chain(cp, plan, 0)
    ensures var r := Run(cp, plan, c, s, fates, log);
            EndsWith(r, s, log) && (|log| < MaxCalls(plan) ==> |log| < |r.log|)
    decreases MaxCalls(plan) - |log|
  {
    if |log| < MaxCalls(plan) {
      var turn := OneTurn(cp, plan, c, s, fates(|log|));
      var next := log + [turn.0];
      if turn.1.Go? {
        LogIsWhole(cp, plan, turn.1.client, turn.0.server, fates, next);
      }
      OneMoreTurn(Run(cp, plan, c, s, fates, log), s, log, turn.0);
    }
  }

  /** The lease is let go, or the task ends, in some agent's time. */
  ghost predicate Happened(fates: nat -> Fate, e: Event) {
    exists i: nat :: fates(i).before == e || fates(i).between == e
  }

  ghost predicate IsCaused(s0: Server, s: Server, fates: nat -> Fate) {
    && (s.phase.Released? ==> s0.phase.Released? || Happened(fates, Release))
    && (s.phase.Gone? ==> s0.phase.Gone? || Happened(fates, Expire))
  }

  lemma EventIsCaused(s0: Server, s: Server, fates: nat -> Fate, e: Event)
    requires IsCaused(s0, s, fates) && Happened(fates, e)
    ensures IsCaused(s0, Happens(s, e), fates)
  {
  }

  lemma SubmitIsCaused(s0: Server, s: Server, fates: nat -> Fate, offset: nat, text: seq<char>, done: bool)
    requires IsCaused(s0, s, fates)
    ensures IsCaused(s0, Submit(s, offset, text, done).0, fates)
  {
  }

  lemma ChunkIsCaused(s0: Server, s: Server, fates: nat -> Fate, i: nat, offset: nat, text: seq<char>, last: bool,
                      total: nat)
    requires IsCaused(s0, s, fates)
    ensures IsCaused(s0, ChunkTurn(s, fates(i), offset, text, last, total).server, fates)
  {
    var s1, e := Happens(s, fates(i).before), fates(i).between;
    EventIsCaused(s0, s, fates, fates(i).before);
    SubmitIsCaused(s0, s1, fates, offset, text, false);
    var s2 := Submit(s1, offset, text, false).0;
    EventIsCaused(s0, s2, fates, e);
    SubmitIsCaused(s0, Happens(s2, e), fates, total, [], true);
  }

  lemma TurnIsCaused(cp: seq<char>, plan: seq<Chunk>, s0: Server, c: Client, s: Server, fates: nat -> Fate, i: nat)
    requires Chain(cp, plan, 0) && IsCaused(s0, s, fates)
    ensures IsCaused(s0, OneTurn(cp, plan, c, s, fates(i)).0.server, fates)
  {
    var j := ChunkAt(plan, c.pos);
    EventIsCaused(s0, s, fates, fates(i).before);
    SubmitIsCaused(s0, Happens(s, fates(i).before), fates, |cp|, [], true);
    if c.pos != |cp| && j < |plan| {
      var chunk := plan[j];
      ChunkIsCaused(s0, s, fates, i, chunk.start, cp[chunk.start..chunk.end], chunk.end == |cp|, |cp|);
    }
  }

  lemma {:induction false} RunIsCaused(cp: seq<char>, plan: seq<Chunk>, s0: Server, c: Client, s: Server,
                                       fates: nat -> Fate, log: seq<Turn>)
    requires Chain(cp, plan, 0) && IsCaused(s0, s, fates)
    ensures IsCaused(s0, Run(cp, plan, c, s, fates, log).server, fates)
    decreases MaxCalls(plan) - |log|
  {
    if |log| < MaxCalls(plan) {
      var (t, step) := OneTurn(cp, plan, c, s, fates(|log|));
      TurnIsCaused(cp, plan, s0, c, s, fates, |log|);
      if step.Go? {
        RunIsCaused(cp, plan, s0, step.client, t.server, fates, log + [t]);
      }
    }
  }

  /** `not_claimed` is returned only for a lease that was let go, and `task_not_found` for a task that was not taken
      only if it ended. */
  lemma GivenUpForAReason(cp: seq<char>, s0: Server, fates: nat -> Fate)
    ensures var r := DeliveryOf(cp, s0, fates);
            && (r.outcome.NotClaimed? ==> s0.phase.Released? || Happened(fates, Release))
            && (r.outcome.TaskNotFound? && !r.server.phase.Finalised? ==> s0.phase.Gone? || Happened(fates, Expire))
  {
    PlanIsChain(cp, 0);
    DeliveryIsSafe(cp, s0, fates);
    RunIsCaused(cp, Plan(cp, 0), s0, START, s0, fates, []);
  }

  /** The case the comment of `unsure` does not cover: the agent finishes and reports its chunk
      only, so the next call finds no task and an answer the engine took is given up as missing. */
  lemma ATakenAnswerReportedMissing()
    ensures var s0 := Server([], Open, 10, 10);
            var finishedUntold := Fate(Nothing, Nothing, true, true, true, false);
            var r := DeliveryOf(['x'], s0, _ => finishedUntold);
            r.outcome == TaskNotFound && r.server.phase.Finalised? && r.server.buf == ['x']
  {
    var cp := ['x'];
    var s0 := Server([], Open, 10, 10);
    var fate := Fate(Nothing, Nothing, true, true, true, false);
    var fates: nat -> Fate := _ => fate;
    assert Plan(cp, 0) == [Chunk(0, 1)];
    var plan := Plan(cp, 0);
    PlanIsChain(cp, 0);
    assert cp[0..1] == cp;
    var (t, step) := OneTurn(cp, plan, START, s0, fate);
    assert t.server.phase.Finalised? && t.server.buf == ['x'];
    assert step == Go(Client(1, 1, false));
    var (u, next) := OneTurn(cp, plan, step.client, t.server, fate);
    assert next == Stop(TaskNotFound);
    assert Run(cp, plan, step.client, t.server, fates, [t]).outcome == TaskNotFound;
  }
}
