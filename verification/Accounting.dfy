/** Cache accounting: what the counters say about the work done and the work saved. */
module Accounting {
  import opened Transformer
  import opened Sampling
  import opened KvCache
  import opened Batching
  import opened Invariant
  import opened Scheduling
  import opened Order
  import opened Service
  import opened Delivery
  import opened Runs

  /** The positions computed, rather than reused, by the engine call
      that `ev` finishes: the prompts admitted, or one per row. */
  function Computed(s: Sched, ev: Event): nat {
    if !(ev.EngineReturns? && s.phase.Launched?) then 0
    else if s.phase.newcomers != [] then SumLengths(Prompts(s.phase.newcomers))
    else |s.batch.seqs|
  }

  /** Of an engine call that has not been accounted for yet. */
  function Due(s: Sched): nat {
    if !s.phase.Stepped? then 0
    else if s.phase.admitted != [] then SumLengths(s.phase.admitted)
    else |s.batch.seqs|
  }

  function Net(k: Counters): int {
    k.attended - k.reused
  }

  /** A batch with rows has a cache with columns. */
  lemma CacheHasColumns(c: Config, b: Batch, fed: seq<seq<Token>>)
    requires 0 < c.model.layers && BatchOk(c, b, fed) && b.seqs != []
    ensures CacheLength(b.cache) == Width(b) >= 1
  {
    assert RowAt(c, b, fed, 0);
    ShapedWidths(b.cache, c.model.layers, |b.seqs|, Width(b));
  }

  lemma ObserveNet(e: Settings, s: Sched, fed: seq<seq<Token>>)
    requires Standing(e) && WorkOk(e, s, fed) && s.phase.Stepped?
    ensures Net(Observe(s, s.phase.admitted)) == Net(s.counters) + Due(s)
  {
    if s.batch.seqs != [] {
      CacheHasColumns(e.engine, s.batch, fed);
    }
    hide WorkOk, BatchOk;
    var rows, cached := |s.batch.seqs|, CacheLength(s.batch.cache);
    assert rows * cached - rows * Max(cached - 1, 0) == if cached >= 1 then rows else 0;
    if rows == 0 {
      assert rows * cached == 0 && rows * Max(cached - 1, 0) == 0;
    }
  }

  lemma {:induction false} CompleteNet(e: Settings, s: Sched, done: seq<Sequence>)
    ensures var k := CompleteAll(e, s, done).counters;
            k.attended == s.counters.attended && k.reused == s.counters.reused
  {
    if done != [] {
      CompleteNet(e, s, done[..|done| - 1]);
    }
  }

  /** Callers, launching, failing and eviction neither compute nor account. */
  ghost predicate SameBooks(s: Sched, s': Sched) {
    Net(s'.counters) == Net(s.counters) && Due(s') == Due(s)
  }

  lemma SubmitNet(e: Settings, s: Sched, ids: seq<Token>, params: Params, streaming: bool)
    ensures SameBooks(s, DoSubmit(e, s, ids, params, streaming))
  {
    hide Encode, Clamp, SumLengths;
  }

  lemma GoneNet(s: Sched, id: Id, abandon: bool)
    ensures SameBooks(s, DoGone(s, id, abandon)) && SameBooks(s, Abandon(s, id))
  {
    hide Without, Holds, SumLengths;
  }

  lemma LoopNet(e: Settings, s: Sched, ev: Event)
    requires Callable(e, s) && (ev.Launch? || ev.EngineReturns? || ev.EvictReturns? || ev.EngineRaises? || ev.Start?)
    ensures var s' := Step(e, s, ev); Net(s'.counters) + Due(s') == Net(s.counters) + Due(s) + Computed(s, ev)
  {
    hide WellShaped, Prompted, Evict, Done, SumLengths;
    hide Admit, Decode;
  }

  /** What one step adds to the books is what it computed. */
  lemma StepNet(e: Settings, s: Sched, ev: Event)
    requires Standing(e) && Healthy(e, s) && !ev.Shutdown?
    ensures Callable(e, s)
    ensures var s' := Step(e, s, ev); Net(s'.counters) + Due(s') == Net(s.counters) + Due(s) + Computed(s, ev)
  {
    hide Healthy, Sound, WorkOk, PlacesOk, ClientsOk, WellShaped, Prompted, Admit, Decode, Evict, DoSubmit, DoGone,
         Abandon;
    hide PublishAll, Observe, CompleteAll, SumLengths;
    var fed := Witness(e, s);
    match ev
    case Submit(ids, params, streaming) =>
      SubmitNet(e, s, ids, params, streaming);
    case Timeout(id) =>
      GoneNet(s, id, true);
    case CallerGone(id) =>
      GoneNet(s, id, false);
    case StreamGone(id) =>
      GoneNet(s, id, true);
    case Publish =>
      if s.phase.Stepped? {
        ObserveNet(e, s, fed);
      }
    case Complete =>
      if s.phase.Evicted? {
        CompleteNet(e, s, s.phase.done);
      }
    case _ =>
      hide Step, Due, Computed, Net;
      LoopNet(e, s, ev);
  }

  ghost predicate NoShutdown(events: seq<Event>) {
    forall i :: 0 <= i < |events| ==> !events[i].Shutdown?
  }

  /** The positions computed in a run: every admitted prompt in full, and one per row of every decode step. */
  ghost function AllComputed(e: Settings, s: Sched, events: seq<Event>): nat
    requires Standing(e) && Healthy(e, s)
  {
    if events == [] then 0
    else
      var front := events[..|events| - 1];
      AllComputed(e, s, front) + Computed(RunFrom(e, s, front), events[|events| - 1])
  }

  /** The books balance: what was attended to and not reused is exactly what
      was computed, over any run that is not shut down in the middle of a tick. */
  lemma {:induction false} BooksBalance(e: Settings, s: Sched, events: seq<Event>)
    requires Standing(e) && Healthy(e, s) && NoShutdown(events)
    ensures var s' := RunFrom(e, s, events);
            Net(s'.counters) + Due(s') == Net(s.counters) + Due(s) + AllComputed(e, s, events)
  {
    hide Healthy, Step, Due, Computed;
    if events != [] {
      var front := events[..|events| - 1];
      BooksBalance(e, s, front);
      StepNet(e, RunFrom(e, s, front), events[|events| - 1]);
    }
  }
}
