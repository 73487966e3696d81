/** The scheduler as an object: its methods, each proved against the step of the state machine that it implements. */
module Batcher {
  import opened Options
  import opened Transformer
  import opened Sampling
  import opened KvCache
  import opened Batching
  import opened Invariant
  import opened Scheduling
  import opened Service
  import opened Runs
  import opened Progress

  class DynamicBatcher {
    const e: Settings
    var nextId: Id
    var queue: seq<Sequence>
    var running: set<Id>
    var batch: Batch
    var phase: Phase
    var clients: map<Id, Client>
    var counters: Counters
    ghost var left: map<Id, Departure>

    ghost function State(): Sched
      reads this
    {
      Sched(nextId, queue, running, batch, phase, clients, left, counters)
    }

    constructor (settings: Settings)
      ensures e == settings && State() == INITIAL
    {
      e := settings;
      nextId, queue, running, batch, phase, clients := 1, [], {}, EMPTY, Halted, map[];
      counters := Counters(0, 0, 0, 0, 0, 0, 0);
      left := map[];
    }

    // ----------------------------------------------------------------
    // Callers
    // ----------------------------------------------------------------

    /** `DoSubmit`; the answer is whether the request is now in the queue. */
    method Add(ids: seq<Token>, params: Params, streaming: bool) returns (accepted: bool)
      modifies this
      ensures State() == DoSubmit(e, old(State()), ids, params, streaming)
      ensures accepted <==> |old(queue)| < e.maxQueue
    {
      var request := Sequence(nextId, Encode(e.engine, ids), Clamp(params, e.engine.maxNewTokens), [], None);
      accepted := |queue| < e.maxQueue;
      if accepted {
        queue := queue + [request];
        clients := clients[nextId := Client(request, streaming, Pending, [], 0, "")];
      } else {
        counters := counters.(rejected := counters.rejected + 1);
      }
      nextId := nextId + 1;
    }

    /** `Without` by a search: only the first match goes. */
    method RemoveFromQueue(id: Id)
      modifies this`queue, this`left
      ensures queue == if Holds(old(queue), id) then Without(old(queue), id) else old(queue)
      ensures left == if Holds(old(queue), id) then old(left)[id := Withdrawn] else old(left)
    {
      var i := 0;
      while i < |queue| && queue[i].id != id
        invariant 0 <= i <= |queue| && queue == old(queue)
        invariant forall j :: 0 <= j < i ==> queue[j].id != id
      {
        i := i + 1;
      }
      if i < |queue| {
        WithoutAt(queue, id, i);
        queue := queue[..i] + queue[i + 1..];
        left := left[id := Withdrawn];
      }
    }

    /** `Abandon`: withdrawn if queued, marked finished if running. */
    method AbandonRequest(id: Id)
      modifies this
      ensures State() == Abandon(old(State()), id)
    {
      RemoveFromQueue(id);
      if id in running {
        batch := MarkBatch(batch, id);
        match phase {
          case Launched(ns) => phase := Launched(MarkAll(ns, id));
          case Evicted(done) => phase := Evicted(MarkAll(done, id));
          case _ =>
        }
      }
    }

    /** `DoGone` of a caller whose wait has timed out. */
    method TimeoutRequest(id: Id)
      modifies this
      ensures State() == DoGone(old(State()), id, true)
    {
      if id in clients && !clients[id].streaming && clients[id].future.Pending? {
        clients := clients[id := clients[id].(future := Cancelled)];
        AbandonRequest(id);
      }
    }

    // ----------------------------------------------------------------
    // One tick
    // ----------------------------------------------------------------

    /** A prefix of the queue, as long as `Admissions` allows. */
    method TakeAdmissions() returns (admitted: seq<Sequence>)
      modifies this`queue
      ensures admitted + queue == old(queue)
      ensures |admitted| == Admissions(e, old(State()))
    {
      var capacity := e.maxBatch - |batch.seqs|;
      if capacity <= 0 || queue == [] {
        return [];
      }
      var n := if capacity <= |queue| then capacity else |queue|;
      admitted, queue := queue[..n], queue[n..];
    }

    method BeginStep()
      requires phase.Ready?
      modifies this
      ensures State() == DoLaunch(e, old(State()))
    {
      var newcomers := TakeAdmissions();
      assert old(queue)[..|newcomers|] == newcomers && old(queue)[|newcomers|..] == queue;
      if newcomers != [] {
        for i := 0 to |newcomers|
          invariant running == old(running) + IdSet(newcomers[..i])
          invariant State() == old(State()).(queue := queue, running := running)
          invariant queue == old(queue)[|newcomers|..]
        {
          IdSetNext(newcomers, i);
          running := running + {newcomers[i].id};
        }
        assert newcomers[..|newcomers|] == newcomers;
        phase := Launched(newcomers);
      } else if batch.seqs != [] {
        phase := Launched([]);
      }
    }

    /** `DoEngine`. */
    method CallEngine()
      requires phase.Launched? && WellShaped(e.engine, batch) && Prompted(phase.newcomers)
      modifies this`batch, this`phase
      ensures State() == DoEngine(e, old(State()))
    {
      var newcomers := phase.newcomers;
      if newcomers != [] {
        batch := Admit(e.engine, batch, newcomers);
      } else {
        batch := Decode(e.engine, batch);
      }
      phase := Stepped(Prompts(newcomers));
    }

    /** The counters become `Observe`; nothing else changes. */
    method ObserveStep(admitted: seq<seq<Token>>)
      modifies this`counters
      ensures counters == Observe(old(State()), admitted)
    {
      var rows, cached := |batch.seqs|, CacheLength(batch.cache);
      counters := counters.(steps := counters.steps + 1, batchedRows := counters.batchedRows + rows);
      if admitted != [] {
        var attended := 0;
        for i := 0 to |admitted|
          invariant attended == SumLengths(admitted[..i])
        {
          assert admitted[..i + 1][..i] == admitted[..i];
          attended := attended + |admitted[i]|;
        }
        assert admitted[..|admitted|] == admitted;
        counters := counters.(attended := counters.attended + attended);
        return;
      }
      assert 0 <= rows * cached && 0 <= rows * Max(cached - 1, 0);
      counters := counters.(
        attended := counters.attended + rows * cached, reused := counters.reused + rows * Max(cached - 1, 0));
    }

    /** The clients become `PublishAll` over the rows; nothing else changes. */
    method PublishDeltas()
      modifies this`clients
      ensures clients == PublishAll(e, running, old(clients), batch.seqs)
    {
      for i := 0 to |batch.seqs|
        invariant clients == PublishAll(e, running, old(clients), batch.seqs[..i])
      {
        assert batch.seqs[..i + 1][..i] == batch.seqs[..i];
        var q := batch.seqs[i];
        if q.id in running && q.id in clients {
          var c := clients[q.id];
          if c.streaming && |q.output| > c.published {
            var text := e.decode(q.output);
            var delta := Drop(text, |c.publishedText|);
            clients := clients[q.id := c.(
              stream := Push(c.stream, delta), publishedText := text, published := |q.output|)];
          } else {
            clients := clients[q.id := c];
          }
        }
      }
      assert batch.seqs[..|batch.seqs|] == batch.seqs;
    }

    method ObserveAndPublish()
      requires phase.Stepped?
      modifies this
      ensures State() == DoPublish(e, old(State()))
    {
      ObserveStep(phase.admitted);
      PublishDeltas();
      phase := Published;
    }

    method EvictStep()
      requires phase.Published? && WellShaped(e.engine, batch)
      modifies this`batch, this`phase
      ensures State() == DoEvict(e, old(State()))
    {
      var done := Done(batch);
      batch := Evict(e.engine, batch);
      phase := Evicted(done);
    }

    /** `CompleteOne`: delivered if it is still running, counted in any case. */
    method CompleteRequest(q: Sequence)
      modifies this
      ensures State() == CompleteOne(e, old(State()), q)
    {
      counters := counters.(
        completed := counters.completed + 1, tokensGenerated := counters.tokensGenerated + |q.output|);
      if q.id !in running || q.id !in clients {
        return;
      }
      running := running - {q.id};
      left := left[q.id := Completed(q)];
      var c := clients[q.id];
      var result := ResultOf(e, q);
      if c.streaming {
        var delta := Drop(result.text, |c.publishedText|);
        if delta != "" {
          c := c.(stream := c.stream + [Text(delta)], publishedText := result.text);
        }
        c := c.(stream := c.stream + [End]);
      }
      if c.future.Pending? {
        c := c.(future := Settled(result));
      }
      clients := clients[q.id := c];
    }

    method CompleteStep()
      requires phase.Evicted?
      modifies this
      ensures State() == DoComplete(e, old(State()))
    {
      var done := phase.done;
      for i := 0 to |done|
        invariant State() == CompleteAll(e, old(State()), done[..i])
      {
        assert done[..i + 1][..i] == done[..i];
        CompleteRequest(done[i]);
      }
      assert done[..|done|] == done;
      phase := Ready;
    }

    /** A tick that no caller interrupts is a tick of the state machine. */
    method Tick()
      requires Standing(e) && Healthy(e, State()) && phase.Ready? && !Idle(State())
      modifies this
      ensures State() == RunFrom(e, old(State()), TICK)
    {
      ghost var s1, s2, s3, s4 := TickIs(e, State());
      hide Healthy, Idle, RunFrom, WellShaped, Prompted, DoLaunch, DoEngine, DoPublish, DoEvict, DoComplete;
      BeginStep();
      CallEngine();
      ObserveAndPublish();
      EvictStep();
      CompleteStep();
    }

    // ----------------------------------------------------------------
    // Failure and shutdown
    // ----------------------------------------------------------------

    /** `DoFail`. */
    method FailAll()
      requires running <= clients.Keys
      modifies this
      ensures State() == DoFail(old(State()))
    {
      clients := FailEach(clients, running);
      left := map id | id in left.Keys + running :: if id in running then StepFailed else left[id];
      running, batch, phase := {}, EMPTY, Ready;
    }

    /** `DoStop`. */
    method StopAll()
      requires running + IdSet(queue) <= clients.Keys
      modifies this
      ensures State() == DoStop(old(State()))
    {
      var gone := running + IdSet(queue);
      clients := CancelEach(clients, gone);
      left := map id | id in left.Keys + gone :: if id in gone then ShutDown else left[id];
      queue, running, batch, phase := [], {}, EMPTY, Halted;
    }
  }

  method FailEach(clients: map<Id, Client>, ids: set<Id>) returns (after: map<Id, Client>)
    requires ids <= clients.Keys
    ensures after == map id | id in clients :: if id in ids then Fail(clients[id]) else clients[id]
  {
    after := clients;
    var todo := ids;
    while todo != {}
      invariant todo <= ids && after.Keys == clients.Keys
      invariant forall id :: id in clients ==> after[id] == if id in ids - todo then Fail(clients[id]) else clients[id]
      decreases |todo|
    {
      var id :| id in todo;
      todo := todo - {id};
      var c := after[id];
      if c.future.Pending? {
        c := c.(future := Failed);
      }
      if c.streaming {
        c := c.(stream := c.stream + [End]);
      }
      after := after[id := c];
    }
  }

  method CancelEach(clients: map<Id, Client>, ids: set<Id>) returns (after: map<Id, Client>)
    requires ids <= clients.Keys
    ensures after == map id | id in clients :: if id in ids then Cancel(clients[id]) else clients[id]
  {
    after := clients;
    var todo := ids;
    while todo != {}
      invariant todo <= ids && after.Keys == clients.Keys
      invariant forall id :: id in clients ==>
                after[id] == if id in ids - todo then Cancel(clients[id]) else clients[id]
      decreases |todo|
    {
      var id :| id in todo;
      todo := todo - {id};
      if after[id].future.Pending? {
        after := after[id := after[id].(future := Cancelled)];
      }
    }
  }

  lemma {:induction false} WithoutAt(seqs: seq<Sequence>, id: Id, i: nat)
    requires i < |seqs| && seqs[i].id == id && forall j :: 0 <= j < i ==> seqs[j].id != id
    ensures Without(seqs, id) == seqs[..i] + seqs[i + 1..]
  {
    if i > 0 {
      WithoutAt(seqs[1..], id, i - 1);
      assert [seqs[0]] + (seqs[1..][..i - 1] + seqs[1..][i..]) == seqs[..i] + seqs[i + 1..];
    }
  }

  lemma IdSetNext(seqs: seq<Sequence>, i: nat)
    requires i < |seqs|
    ensures IdSet(seqs[..i + 1]) == IdSet(seqs[..i]) + {seqs[i].id}
  {
    forall x
      ensures x in IdSet(seqs[..i + 1]) <==> x in IdSet(seqs[..i]) + {seqs[i].id}
    {
      if x in IdSet(seqs[..i]) {
        var k :| 0 <= k < i && seqs[..i][k].id == x;
        assert seqs[..i + 1][k].id == x;
      }
      if x == seqs[i].id {
        assert seqs[..i + 1][i].id == x;
      }
    }
  }

  ghost predicate Steps(e: Settings, s: Sched, s1: Sched, s2: Sched, s3: Sched, s4: Sched, s5: Sched) {
    && s1 == DoLaunch(e, s)
    && s1.phase.Launched? && WellShaped(e.engine, s1.batch) && Prompted(s1.phase.newcomers) && s2 == DoEngine(e, s1)
    && s2.phase.Stepped? && s3 == DoPublish(e, s2)
    && s3.phase.Published? && WellShaped(e.engine, s3.batch) && s4 == DoEvict(e, s3)
    && s4.phase.Evicted? && s5 == DoComplete(e, s4)
  }

  /** The five steps of a tick, each in its turn. */
  lemma TickIs(e: Settings, s: Sched) returns (s1: Sched, s2: Sched, s3: Sched, s4: Sched)
    requires Standing(e) && Healthy(e, s) && s.phase.Ready? && !Idle(s)
    ensures Steps(e, s, s1, s2, s3, s4, RunFrom(e, s, TICK))
  {
    hide Healthy, RunFrom, CompletedTicks, Goes, Idle, DoLaunch, DoEngine, DoPublish, DoEvict, DoComplete, WellShaped,
         Prompted;
    s1, s2, s3, s4 := TickSteps(e, s);
    LaunchIs(e, s, s1);
    EngineIs(e, s1, s2);
    PublishIs(e, s2, s3);
    EvictIs(e, s3, s4);
    CompleteIs(e, s4, RunFrom(e, s, TICK));
  }
}
