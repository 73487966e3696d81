/** The continuous-batching scheduler as a state machine: the
    steps of its loop, and everything callers do between them. */
module Scheduling {
  import opened Options
  import opened Transformer
  import opened Sampling
  import opened KvCache
  import opened Batching
  import opened Invariant

  type Id = nat

  /** The engine, the two limits, and the tokenizer's decoder. */
  datatype Settings = Settings(engine: Config, maxBatch: nat, maxQueue: nat, decode: seq<Token> -> string)

  datatype Result = Result(text: string, promptTokens: nat, completionTokens: nat, reason: Reason)

  datatype Future = Pending | Cancelled | Failed | Settled(result: Result)

  /** What a stream consumer receives; `End` is the sentinel. */
  datatype Chunk = Text(text: string) | End

  /** A request's plumbing: its sequence as submitted, its future, its stream, and what has been published. */
  datatype Client = Client(
    request: Sequence, streaming: bool, future: Future, stream: seq<Chunk>, published: nat, publishedText: string)

  /** How a request left the scheduler. Bookkeeping of the model, with no counterpart in the code. */
  datatype Departure = Completed(final: Sequence) | StepFailed | Withdrawn | ShutDown

  /** Where the loop stands. `Launched`: an engine call is about to run. `Stepped`: it has run, the loop has not
      resumed. `Published`: eviction is about to run. `Evicted`: it has run, its results are not yet delivered. */
  datatype Phase =
    | Halted
    | Ready
    | Launched(newcomers: seq<Sequence>)
    | Stepped(admitted: seq<seq<Token>>)
    | Published
    | Evicted(done: seq<Sequence>)

  datatype Counters = Counters(
    steps: nat, batchedRows: nat, completed: nat, rejected: nat, tokensGenerated: nat, attended: nat, reused: nat)

  datatype Sched = Sched(
    nextId: Id,
    queue: seq<Sequence>,
    running: set<Id>,
    batch: Batch,
    phase: Phase,
    clients: map<Id, Client>,
    left: map<Id, Departure>,
    counters: Counters)

  const INITIAL: Sched := Sched(1, [], {}, EMPTY, Halted, map[], map[], Counters(0, 0, 0, 0, 0, 0, 0))

  datatype Event =
    | Submit(ids: seq<Token>, params: Params, streaming: bool)
    | Timeout(id: Id)
    | CallerGone(id: Id)
    | StreamGone(id: Id)
    | Launch
    | EngineReturns
    | Publish
    | EvictReturns
    | Complete
    | EngineRaises
    | Shutdown
    | Start

  function Newcomers(s: Sched): seq<Sequence> {
    if s.phase.Launched? then s.phase.newcomers else []
  }

  function Leaving(s: Sched): seq<Sequence> {
    if s.phase.Evicted? then s.phase.done else []
  }

  // ------------------------------------------------------------------
  // Callers
  // ------------------------------------------------------------------

  /** A new request joins the queue with a pending future, unless
      the queue is at its limit; either way its id is used up. */
  function DoSubmit(e: Settings, s: Sched, ids: seq<Token>, params: Params, streaming: bool): Sched {
    var request := Sequence(s.nextId, Encode(e.engine, ids), Clamp(params, e.engine.maxNewTokens), [], None);
    if |s.queue| >= e.maxQueue then
      s.(nextId := s.nextId + 1, counters := s.counters.(rejected := s.counters.rejected + 1))
    else
      s.(nextId := s.nextId + 1,
         queue := s.queue + [request],
         clients := s.clients[s.nextId := Client(request, streaming, Pending, [], 0, "")])
  }

  function Without(seqs: seq<Sequence>, id: Id): seq<Sequence> {
    if seqs == [] then []
    else if seqs[0].id == id then seqs[1..]
    else [seqs[0]] + Without(seqs[1..], id)
  }

  predicate Holds(seqs: seq<Sequence>, id: Id) {
    exists i :: 0 <= i < |seqs| && seqs[i].id == id
  }

  /** The caller is not waiting any more: a queued request is withdrawn, a running one marked finished. */
  function Abandon(s: Sched, id: Id): Sched {
    var s1 := if Holds(s.queue, id) then s.(queue := Without(s.queue, id), left := s.left[id := Withdrawn]) else s;
    if id in s1.running then
      s1.(batch := MarkBatch(s1.batch, id),
          phase := match s1.phase
            case Launched(ns) => Launched(MarkAll(ns, id))
            case Evicted(done) => Evicted(MarkAll(done, id))
            case p => p)
    else s1
  }

  function MarkIf(running: bool, seqs: seq<Sequence>, id: Id): seq<Sequence> {
    if running then MarkAll(seqs, id) else seqs
  }

  /** What abandoning changes, part by part: the queue if the request is in it, and its sequence wherever it runs. */
  lemma AbandonParts(s: Sched, id: Id)
    ensures var s', r, queued := Abandon(s, id), id in s.running, Holds(s.queue, id);
            && s'.queue == (if queued then Without(s.queue, id) else s.queue)
            && s'.left == (if queued then s.left[id := Withdrawn] else s.left)
            && s'.batch == (if r then MarkBatch(s.batch, id) else s.batch)
            && s'.batch.seqs == MarkIf(r, s.batch.seqs, id)
            && Newcomers(s') == MarkIf(r, Newcomers(s), id) && Leaving(s') == MarkIf(r, Leaving(s), id)
            && s'.clients == s.clients && s'.running == s.running && s'.nextId == s.nextId && s'.counters == s.counters
            && (s'.phase.Stepped? <==> s.phase.Stepped?) && (s'.phase.Published? <==> s.phase.Published?)
  {
    assert MarkAll([], id) == [];
    hide MarkAll, Without, Holds;
  }

  function Cancel(c: Client): Client {
    if c.future.Pending? then c.(future := Cancelled) else c
  }

  /** A blocking caller stops waiting: its future is cancelled; on a timeout the request is abandoned too. */
  function DoGone(s: Sched, id: Id, abandon: bool): Sched {
    if id in s.clients && !s.clients[id].streaming && s.clients[id].future.Pending? then
      var s1 := s.(clients := s.clients[id := Cancel(s.clients[id])]);
      if abandon then Abandon(s1, id) else s1
    else s
  }

  // ------------------------------------------------------------------
  // The loop
  // ------------------------------------------------------------------

  function IdSet(seqs: seq<Sequence>): set<Id> {
    set i | 0 <= i < |seqs| :: seqs[i].id
  }

  /** How many queued requests the next step admits. */
  function Admissions(e: Settings, s: Sched): nat {
    var capacity := e.maxBatch - |s.batch.seqs|;
    if capacity <= 0 then 0 else if capacity <= |s.queue| then capacity else |s.queue|
  }

  /** Choose admission or decode; with neither to do, the loop stays where it is. */
  function DoLaunch(e: Settings, s: Sched): Sched {
    var n := Admissions(e, s);
    if n > 0 then
      s.(queue := s.queue[n..], running := s.running + IdSet(s.queue[..n]), phase := Launched(s.queue[..n]))
    else if s.batch.seqs != [] then s.(phase := Launched([]))
    else s
  }

  /** The engine call: admit the newcomers, or decode. */
  function DoEngine(e: Settings, s: Sched): Sched
    requires s.phase.Launched? && WellShaped(e.engine, s.batch) && Prompted(s.phase.newcomers)
  {
    var ns := s.phase.newcomers;
    s.(batch := if ns != [] then Admit(e.engine, s.batch, ns) else Decode(e.engine, s.batch),
       phase := Stepped(Prompts(ns)))
  }

  function SumLengths(xs: seq<seq<Token>>): nat {
    if xs == [] then 0 else SumLengths(xs[..|xs| - 1]) + |xs[|xs| - 1]|
  }

  /** The counters after a step: an admission adds its prompts' lengths to `attended`, a decode
      step adds rows times columns, and all but one of the columns of each row to `reused`. */
  function Observe(s: Sched, admitted: seq<seq<Token>>): Counters {
    var rows, cached := |s.batch.seqs|, CacheLength(s.batch.cache);
    var k := s.counters.(steps := s.counters.steps + 1, batchedRows := s.counters.batchedRows + rows);
    if admitted != [] then k.(attended := k.attended + SumLengths(admitted))
    else k.(attended := k.attended + rows * cached, reused := k.reused + rows * Max(cached - 1, 0))
  }

  /** The slice `s[n:]`. */
  function Drop(s: string, n: nat): string {
    if n <= |s| then s[n..] else ""
  }

  function Push(stream: seq<Chunk>, delta: string): seq<Chunk> {
    if delta == "" then stream else stream + [Text(delta)]
  }

  /** A stream that lags behind its sequence gets the text beyond what was published. */
  function PublishOne(e: Settings, c: Client, q: Sequence): Client {
    if !c.streaming || |q.output| <= c.published then c
    else
      var text := e.decode(q.output);
      c.(stream := Push(c.stream, Drop(text, |c.publishedText|)), publishedText := text, published := |q.output|)
  }

  function PublishAll(e: Settings, running: set<Id>, clients: map<Id, Client>, seqs: seq<Sequence>): map<Id, Client> {
    if seqs == [] then clients
    else
      var before := PublishAll(e, running, clients, seqs[..|seqs| - 1]);
      var q := seqs[|seqs| - 1];
      if q.id in running && q.id in before then before[q.id := PublishOne(e, before[q.id], q)] else before
  }

  function DoPublish(e: Settings, s: Sched): Sched
    requires s.phase.Stepped?
  {
    s.(counters := Observe(s, s.phase.admitted),
       clients := PublishAll(e, s.running, s.clients, s.batch.seqs),
       phase := Published)
  }

  function DoEvict(e: Settings, s: Sched): Sched
    requires s.phase.Published? && WellShaped(e.engine, s.batch)
  {
    s.(batch := Evict(e.engine, s.batch), phase := Evicted(Done(s.batch)))
  }

  function ResultOf(e: Settings, q: Sequence): Result {
    Result(e.decode(q.output), |q.prompt|, |q.output|, if q.reason.Some? then q.reason.value else Stop)
  }

  /** A finished sequence reaches its client: the text not yet published
      and `End` on a stream, and a result for a pending future. */
  function Deliver(e: Settings, c: Client, q: Sequence): Client {
    var result := ResultOf(e, q);
    var delta := Drop(result.text, |c.publishedText|);
    c.(stream := if c.streaming then Push(c.stream, delta) + [End] else c.stream,
       publishedText := if c.streaming && delta != "" then result.text else c.publishedText,
       future := if c.future.Pending? then Settled(result) else c.future)
  }

  function CompleteOne(e: Settings, s: Sched, q: Sequence): Sched {
    var s1 := s.(counters := s.counters.(
      completed := s.counters.completed + 1, tokensGenerated := s.counters.tokensGenerated + |q.output|));
    if q.id in s.running && q.id in s.clients then
      s1.(running := s.running - {q.id},
          clients := s.clients[q.id := Deliver(e, s.clients[q.id], q)],
          left := s.left[q.id := Completed(q)])
    else s1
  }

  function CompleteAll(e: Settings, s: Sched, done: seq<Sequence>): Sched {
    if done == [] then s else CompleteOne(e, CompleteAll(e, s, done[..|done| - 1]), done[|done| - 1])
  }

  function DoComplete(e: Settings, s: Sched): Sched
    requires s.phase.Evicted?
  {
    CompleteAll(e, s, s.phase.done).(phase := Ready)
  }

  // ------------------------------------------------------------------
  // Failure and shutdown
  // ------------------------------------------------------------------

  function Fail(c: Client): Client {
    c.(future := if c.future.Pending? then Failed else c.future,
       stream := if c.streaming then c.stream + [End] else c.stream)
  }

  /** An engine call raised: every running request has failed and left; queued ones stay. */
  function DoFail(s: Sched): Sched {
    s.(clients := map id | id in s.clients :: if id in s.running then Fail(s.clients[id]) else s.clients[id],
       left := map id | id in s.left.Keys + s.running :: if id in s.running then StepFailed else s.left[id],
       running := {}, batch := EMPTY, phase := Ready)
  }

  /** Every queued or running request has left, its future cancelled if pending; no stream gets an `End`. */
  function DoStop(s: Sched): Sched {
    var gone := s.running + IdSet(s.queue);
    s.(clients := map id | id in s.clients :: if id in gone then Cancel(s.clients[id]) else s.clients[id],
       left := map id | id in s.left.Keys + gone :: if id in gone then ShutDown else s.left[id],
       queue := [], running := {}, batch := EMPTY, phase := Halted)
  }

  // ------------------------------------------------------------------
  // Steps and runs
  // ------------------------------------------------------------------

  /** Can the loop (or an engine call it waits for) take this step now? */
  predicate Enabled(s: Sched, ev: Event) {
    match ev
    case Launch => s.phase.Ready?
    case EngineReturns => s.phase.Launched?
    case Publish => s.phase.Stepped?
    case EvictReturns => s.phase.Published?
    case Complete => s.phase.Evicted?
    case EngineRaises => s.phase.Launched? || s.phase.Published?
    case Start => s.phase.Halted?
    case _ => true
  }

  /** What the engine needs of the state before its calls. */
  ghost predicate Callable(e: Settings, s: Sched) {
    WellShaped(e.engine, s.batch) && Prompted(Newcomers(s))
  }

  ghost function Step(e: Settings, s: Sched, ev: Event): Sched
    requires Callable(e, s)
  {
    if !Enabled(s, ev) then s
    else
      match ev
      case Submit(ids, params, streaming) => DoSubmit(e, s, ids, params, streaming)
      case Timeout(id) => DoGone(s, id, true)
      case CallerGone(id) => DoGone(s, id, false)
      case StreamGone(id) => if id in s.clients && s.clients[id].streaming then Abandon(s, id) else s
      case Launch => DoLaunch(e, s)
      case EngineReturns => DoEngine(e, s)
      case Publish => DoPublish(e, s)
      case EvictReturns => DoEvict(e, s)
      case Complete => DoComplete(e, s)
      case EngineRaises => DoFail(s)
      case Shutdown => DoStop(s)
      case Start => s.(phase := Ready)
  }
}
