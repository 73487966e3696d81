/** A lone request: what the cache saves is exactly what full recomputation would have spent. */
module Lone {
  import opened Options
  import opened Transformer
  import opened Sampling
  import opened KvCache
  import opened Batching
  import opened Invariant
  import opened Generation
  import opened Scheduling
  import opened Order
  import opened Service
  import opened Delivery
  import opened Runs
  import opened Progress
  import opened Accounting

  // ------------------------------------------------------------------
  // Two ways of counting
  // ------------------------------------------------------------------

  /** The positions the uncached loop computes: at every step the whole window. */
  function Recomputed(c: Config, prompt: seq<Token>, output: seq<Token>): nat {
    if output == [] then 0
    else
      var before := output[..|output| - 1];
      Recomputed(c, prompt, before) + |Window(c, prompt + before)|
  }

  /** What the uncached loop spends on its way: one pass over the whole window per iteration. */
  function UncachedCost(c: Config, prompt: seq<Token>, generated: seq<Token>, left: nat): nat
    requires prompt != []
    decreases left
  {
    if left == 0 then 0
    else
      var window := Window(c, prompt + generated);
      var token := ArgMax(PlainLogits(c.model, window));
      |window| + if token == c.eos then 0 else UncachedCost(c, prompt, generated + [token], left - 1)
  }

  /** The loop spends what its output says. */
  lemma {:induction false} UncachedSpends(c: Config, prompt: seq<Token>, generated: seq<Token>, left: nat)
    requires prompt != []
    ensures Recomputed(c, prompt, generated) + UncachedCost(c, prompt, generated, left) ==
            Recomputed(c, prompt, UncachedFrom(c, prompt, generated, left))
    decreases left
  {
    hide PlainLogits, ArgMax, Window;
    if left > 0 {
      var token := ArgMax(PlainLogits(c.model, Window(c, prompt + generated)));
      assert (generated + [token])[..|generated|] == generated;
      if token != c.eos {
        UncachedSpends(c, prompt, generated + [token], left - 1);
      }
    }
  }

  /** Asked for fewer tokens the uncached loop stops sooner, and is the same until then. */
  lemma {:induction false} UncachedStops(c: Config, prompt: seq<Token>, generated: seq<Token>, left: nat, fewer: nat)
    requires prompt != [] && fewer <= left
    ensures generated <= UncachedFrom(c, prompt, generated, left)
    ensures var u := UncachedFrom(c, prompt, generated, left);
            UncachedFrom(c, prompt, generated, fewer) == u[..Min(|u|, |generated| + fewer)]
    decreases left
  {
    hide PlainLogits, ArgMax, Window;
    if left > 0 {
      var token := ArgMax(PlainLogits(c.model, Window(c, prompt + generated)));
      if token != c.eos {
        UncachedStops(c, prompt, generated + [token], left - 1, if fewer == 0 then 0 else fewer - 1);
      }
    }
  }

  /** P + (P + 1) + ... + (P + n - 1). */
  function Triangle(p: nat, n: nat): nat {
    if n == 0 then 0 else Triangle(p, n - 1) + p + n - 1
  }

  lemma {:induction false} TriangleClosed(p: nat, n: nat)
    ensures 2 * Triangle(p, n) == 2 * n * p + n * (n - 1)
  {
    if n > 0 {
      TriangleClosed(p, n - 1);
    }
  }

  /** Inside the context window the uncached loop recomputes everything at every step. */
  lemma {:induction false} RecomputedIsTriangle(c: Config, prompt: seq<Token>, output: seq<Token>)
    requires |prompt| + |output| <= c.maxContext + 1
    ensures Recomputed(c, prompt, output) == Triangle(|prompt|, |output|)
  {
    if output != [] {
      RecomputedIsTriangle(c, prompt, output[..|output| - 1]);
    }
  }

  // ------------------------------------------------------------------
  // One request, alone
  // ------------------------------------------------------------------

  /** The counters of a lone request after `m` of its tokens. */
  ghost predicate Paid(k: Counters, p: nat, m: nat) {
    k.attended == Triangle(p, m) && k.attended - k.reused == if m == 0 then 0 else p + m - 1
  }

  ghost predicate Queued(s: Sched, r: Sequence) {
    s.phase.Ready? && s.queue == [r] && s.batch.seqs == [] && Paid(s.counters, |r.prompt|, 0)
  }

  /** `r` runs alone and has generated `m` tokens. */
  ghost predicate Alone(s: Sched, r: Sequence, m: nat) {
    && s.phase.Ready? && s.queue == [] && |s.batch.seqs| == 1 && 1 <= m
    && Original(s.batch.seqs[0]) == r && !s.batch.seqs[0].Finished() && |s.batch.seqs[0].output| == m
    && Paid(s.counters, |r.prompt|, m)
  }

  /** `r` has run alone to its end. */
  ghost predicate Over(s: Sched, r: Sequence, m: nat) {
    && s.phase.Ready? && Idle(s)
    && r.id in s.left && s.left[r.id].Completed?
    && Original(s.left[r.id].final) == r && Ruled(s.left[r.id].final) && |s.left[r.id].final.output| == m
    && Paid(s.counters, |r.prompt|, m)
  }

  /** The engine call of a lone request: one more token, over one more column. */
  ghost predicate Called(e: Settings, s: Sched, r: Sequence, m: nat) {
    && s.phase.Stepped? && s.queue == [] && |s.batch.seqs| == 1
    && Original(s.batch.seqs[0]) == r && |s.batch.seqs[0].output| == m + 1 && s.batch.seqs[0].reason != Some(Abandoned)
    && (if m == 0 then s.phase.admitted == [r.prompt] else s.phase.admitted == [])
    && (m > 0 ==> CacheLength(s.batch.cache) == |r.prompt| + m)
    && Paid(s.counters, |r.prompt|, m)
  }

  lemma FirstLaunch(e: Settings, s: Sched, r: Sequence)
    requires Standing(e) && Queued(s, r)
    ensures DoLaunch(e, s) == s.(queue := [], running := s.running + IdSet([r]), phase := Launched([r]))
  {
    assert s.queue[..1] == [r] && s.queue[1..] == [];
  }

  lemma FirstCall(e: Settings, s: Sched, r: Sequence, s1: Sched, s2: Sched)
    requires Standing(e) && Queued(s, r) && Healthy(e, s)
    requires Goes(e, s, Launch, s1) && Goes(e, s1, EngineReturns, s2)
    ensures Called(e, s2, r, 0)
  {
    hide Sound, Healthy, PlacesOk, ClientsOk, BatchOk;
    var fed := Witness(e, s);
    assert Waiting(e, s.queue[0]);
    hide WorkOk, WellShaped, Prompted, Goes, DoEngine, Encode;
    FirstLaunch(e, s, r);
    LaunchIs(e, s, s1);
    EngineIs(e, s1, s2);
    FirstEngine(e, s1, r);
  }

  lemma FirstEngine(e: Settings, s1: Sched, r: Sequence)
    requires s1.phase == Launched([r]) && s1.queue == [] && s1.batch.seqs == [] && Paid(s1.counters, |r.prompt|, 0)
    requires Callable(e, s1) && r.output == [] && r.reason.None?
    ensures Called(e, DoEngine(e, s1), r, 0)
  {
    hide WellShaped, Prefill, OneStepEach, Paid;
    PrefillSteps(e.engine, [r]);
    SingleStep(Prefill(e.engine, [r]).seqs, r);
    assert Prompts([r]) == [r.prompt];
  }

  lemma SingleStep(after: seq<Sequence>, r: Sequence)
    requires OneStepEach(after, [r])
    ensures |after| == 1 && OneStep(after[0], r)
  {
    assert OneStep(after[0], [r][0]);
  }

  lemma NextCall(e: Settings, s: Sched, r: Sequence, m: nat, s1: Sched, s2: Sched)
    requires Standing(e) && Alone(s, r, m) && Healthy(e, s)
    requires Goes(e, s, Launch, s1) && Goes(e, s1, EngineReturns, s2)
    ensures Called(e, s2, r, m)
  {
    hide Sound, Healthy, ClientsOk, PlacesOk, WorkOk, WellShaped, Prompted;
    var fed := Witness(e, s);
    assert s1 == s.(phase := Launched([]));
    DecodedWidth(e, s, fed, m);
    DecodeSteps(e.engine, s.batch);
    hide Decode;
    assert OneStep(s2.batch.seqs[0], s.batch.seqs[0]);
    assert Prompts([]) == [];
  }

  lemma DecodedWidth(e: Settings, s: Sched, fed: seq<seq<Token>>, m: nat)
    requires Standing(e) && WorkOk(e, s, fed) && s.phase.Ready? && |s.batch.seqs| == 1
    requires !s.batch.seqs[0].Finished() && |s.batch.seqs[0].output| == m
    ensures WellShaped(e.engine, s.batch)
    ensures CacheLength(Decode(e.engine, s.batch).cache) == |s.batch.seqs[0].prompt| + m
  {
    assert Steady(e, s.batch, fed, 0);
    assert Width(s.batch) == |fed[0]|;
    DecodeShape(e.engine, s.batch);
    DecodeOk(e.engine, s.batch, fed);
    hide WorkOk, Decode;
    CacheHasColumns(e.engine, Decode(e.engine, s.batch), FedAfter(s.batch, fed));
  }

  /** Publishing accounts for the call. */
  ghost predicate CallShown(e: Settings, s: Sched, r: Sequence, m: nat) {
    && s.phase.Published? && s.queue == [] && |s.batch.seqs| == 1
    && Original(s.batch.seqs[0]) == r && |s.batch.seqs[0].output| == m && s.batch.seqs[0].reason != Some(Abandoned)
    && Paid(s.counters, |r.prompt|, m)
  }

  lemma CallPaid(e: Settings, s2: Sched, r: Sequence, m: nat, s3: Sched)
    requires Called(e, s2, r, m) && Goes(e, s2, Publish, s3) && r.prompt != []
    ensures CallShown(e, s3, r, m + 1)
  {
    hide PublishAll, WellShaped, Prompted;
    if m == 0 {
      assert [r.prompt][..0] == [];
      assert SumLengths([r.prompt]) == |r.prompt|;
    }
  }

  lemma {:induction false} OneRow(q: Sequence)
    ensures RowsWhere([q], true) == (if q.Finished() then [0] else [])
    ensures RowsWhere([q], false) == (if q.Finished() then [] else [0])
  {
    assert [q][..0] == [];
  }

  lemma CallEvicted(e: Settings, s: Sched, fed: seq<seq<Token>>, r: Sequence, m: nat)
    requires WorkOk(e, s, fed) && CallShown(e, s, r, m) && Callable(e, s)
    ensures var s' := DoEvict(e, s); var q := s.batch.seqs[0];
            && s'.batch.seqs == (if q.Finished() then [] else [q])
            && s'.phase == Evicted(if q.Finished() then [q] else [])
  {
    hide WorkOk, BatchOk, WellShaped, Evict, RowsWhere, Prompted;
    BatchOfWork(e, s, fed);
    EvictOk(e.engine, s.batch, fed);
    assert s.batch.seqs == [s.batch.seqs[0]];
    OneRow(s.batch.seqs[0]);
  }

  lemma CallCompleted(e: Settings, s: Sched, q: Sequence)
    requires PlacesOk(e, PlacesOf(s)) && s.phase == Evicted([q])
    ensures var s' := DoComplete(e, s);
            && s' == s.(
                 running := s'.running, clients := s'.clients, left := s'.left, counters := s'.counters, phase := Ready)
            && q.id in s'.left && s'.left[q.id] == Completed(q)
            && s'.counters.attended == s.counters.attended && s'.counters.reused == s.counters.reused
  {
    var mid := CompleteAll(e, s, [q]);
    assert Leaving(s) == [q];
    CompleteEach(e, s, [q]);
    CompleteNet(e, s, [q]);
    SameButDelivered(e, s, [q], mid);
    hide PlacesOk, CompleteAll, Deliver;
    assert DeliveredOne(e, s, [q][0], mid);
  }

  /** Eviction and delivery: on to the next tick, or over. */
  lemma CallDelivered(e: Settings, s3: Sched, r: Sequence, m: nat, s4: Sched, s5: Sched)
    requires Standing(e) && Healthy(e, s3) && CallShown(e, s3, r, m) && 1 <= m
    requires Goes(e, s3, EvictReturns, s4) && Goes(e, s4, Complete, s5) && Healthy(e, s4)
    ensures Alone(s5, r, m) || Over(s5, r, m)
  {
    hide Goes, Healthy, Sound, WorkOk, ClientsOk, PlacesOk, Callable;
    EvictIs(e, s3, s4);
    CompleteIs(e, s4, s5);
    var fed := Witness(e, s3);
    var fed' := Witness(e, s4);
    CallEvicted(e, s3, fed, r, m);
    hide DoEvict;
    if s3.batch.seqs[0].Finished() {
      CallCompleted(e, s4, s3.batch.seqs[0]);
      hide DoComplete;
    }
  }

  lemma TickOfLone(e: Settings, s: Sched, r: Sequence, m: nat)
    requires Standing(e) && Healthy(e, s) && r.prompt != []
    requires if m == 0 then Queued(s, r) else Alone(s, r, m)
    ensures var s' := RunFrom(e, s, TICK); Alone(s', r, m + 1) || Over(s', r, m + 1)
  {
    hide Healthy, Queued, Alone, Over, Called, CallShown, Goes, RunFrom, CompletedTicks;
    var s1, s2, s3, s4 := TickSteps(e, s);
    if m == 0 {
      FirstCall(e, s, r, s1, s2);
    } else {
      NextCall(e, s, r, m, s1, s2);
    }
    CallPaid(e, s2, r, m, s3);
    CallDelivered(e, s3, r, m + 1, s4, RunFrom(e, s, TICK));
  }

  /** While a lone sequence is unfinished, it has generated less than its solo generation. */
  lemma AloneIsShort(e: Settings, s: Sched, r: Sequence, m: nat)
    requires Healthy(e, s) && r.prompt != [] && (Alone(s, r, m) || Over(s, r, m))
    ensures if Alone(s, r, m) then m < |Solo(e.engine, r).output| else m == |Solo(e.engine, r).output|
    ensures Over(s, r, m) ==> s.left[r.id].final.output == Solo(e.engine, r).output
    ensures Over(s, r, m) ==> Admissible(e.engine, s.left[r.id].final) && m <= Budget(e.engine, r)
  {
    hide Sound, Healthy, PlacesOk, Solo, WorkOk, ClientsOk, Callable;
    var fed := Witness(e, s);
    if Alone(s, r, m) {
      UnfinishedIsShort(e, s, fed, r);
    } else {
      LeftHas(e, s, r.id);
      var q := s.left[r.id].final;
      LawfulMatchesSolo(e.engine, q);
      StoppingRules(e.engine, q);
    }
  }

  lemma UnfinishedIsShort(e: Settings, s: Sched, fed: seq<seq<Token>>, r: Sequence)
    requires WorkOk(e, s, fed) && |s.batch.seqs| == 1 && r.prompt != []
    requires Original(s.batch.seqs[0]) == r && !s.batch.seqs[0].Finished() && s.batch.seqs[0].output != []
    ensures |s.batch.seqs[0].output| < |Solo(e.engine, r).output|
  {
    assert RowAt(e.engine, s.batch, fed, 0);
    assert Lawful(e.engine, s.batch.seqs[0]);
    hide WorkOk, Lawful, Solo, RowAt;
    SoloIsLawful(e.engine, r);
    OpenIsShort(e.engine, s.batch.seqs[0], Solo(e.engine, r));
  }

  lemma OpenIsShort(c: Config, q: Sequence, t: Sequence)
    requires q.prompt == t.prompt && q.params == t.params
    requires Lawful(c, q) && !q.Finished() && q.output != [] && Lawful(c, t) && Ruled(t)
    ensures |q.output| < |t.output|
  {
    LawfulAgree(c, q, t);
    assert |q.output| == |t.output| ==> q.output == t.output;
    hide Stream;
  }

  lemma {:induction false} RoundsOfLone(e: Settings, s: Sched, r: Sequence, m: nat, n: nat)
    requires Standing(e) && Healthy(e, s) && r.prompt != [] && n == |Solo(e.engine, r).output|
    requires (if m == 0 then Queued(s, r) else Alone(s, r, m)) && m < n
    ensures Over(RunFrom(e, s, Rounds(n - m)), r, n)
    decreases n - m
  {
    hide Healthy, Queued, Alone, Over, Solo, RunFrom, CompletedTicks;
    TickOfLone(e, s, r, m);
    var s' := RunFrom(e, s, TICK);
    AloneIsShort(e, s', r, m + 1);
    RunConcat(e, s, TICK, Rounds(n - m - 1));
    if Alone(s', r, m + 1) {
      RoundsOfLone(e, s', r, m + 1, n);
    } else {
      RunNothing(e, s');
    }
  }

  lemma SoloIsSomething(c: Config, r: Sequence)
    requires r.prompt != [] && r.output == [] && r.reason.None?
    ensures Solo(c, r).output != []
  {
    hide Solo;
    SoloIsLawful(c, r);
  }

  /** The request that a scheduler makes of the first prompt it gets. */
  function FirstRequest(e: Settings, ids: seq<Token>, params: Params): Sequence {
    Sequence(1, Encode(e.engine, ids), Clamp(params, e.engine.maxNewTokens), [], None)
  }

  /** A fresh scheduler that gets one request and ticks as often as that request generates tokens alone. */
  ghost function LoneRun(e: Settings, ids: seq<Token>, params: Params, streaming: bool): (s: Sched)
    requires Standing(e)
    ensures Healthy(e, s)
  {
    FirstId(e, ids, params);
    Run(e, [Start, Submit(ids, params, streaming)] + Rounds(|Solo(e.engine, FirstRequest(e, ids, params)).output|))
  }

  lemma LoneRunOver(e: Settings, ids: seq<Token>, params: Params, streaming: bool)
    requires Standing(e) && 1 <= e.maxQueue
    ensures FirstRequest(e, ids, params).prompt != []
    ensures var r := FirstRequest(e, ids, params);
            Over(LoneRun(e, ids, params, streaming), r, |Solo(e.engine, r).output|)
  {
    hide Healthy, Solo, RunFrom, CompletedTicks, Queued, Over, FirstRequest, Rounds, Encode, Clamp;
    FirstId(e, ids, params);
    InitialHealthy(e);
    var r := FirstRequest(e, ids, params);
    SoloIsSomething(e.engine, r);
    var n := |Solo(e.engine, r).output|;
    QueuedFirst(e, ids, params, streaming);
    var ready := [Start, Submit(ids, params, streaming)];
    RunConcat(e, INITIAL, ready, Rounds(n));
    RoundsOfLone(e, RunFrom(e, INITIAL, ready), r, 0, n);
  }

  /** The cost of `n` tokens after a prompt of `p`: all positions attended to, and those among them computed. */
  predicate Costs(k: Counters, p: nat, n: nat) {
    2 * k.attended == 2 * n * p + n * (n - 1) && k.attended - k.reused == p + n - 1
  }

  lemma PaidCosts(k: Counters, p: nat, n: nat)
    requires Paid(k, p, n) && 1 <= n
    ensures Costs(k, p, n)
  {
    TriangleClosed(p, n);
  }

  /** A lone request on a fresh scheduler: after as many ticks as it generates tokens it has its solo
      generation, and the scheduler has attended to exactly the positions that the uncached loop would have
      recomputed for the same tokens, n * P + n * (n - 1) / 2, having computed only P + n - 1 of them. */
  lemma LoneRequestCost(e: Settings, ids: seq<Token>, params: Params, streaming: bool)
    requires Standing(e) && 1 <= e.maxQueue
    ensures FirstRequest(e, ids, params).prompt != []
    ensures var r := FirstRequest(e, ids, params);
            var solo := Solo(e.engine, r).output;
            var s := LoneRun(e, ids, params, streaming);
            && Idle(s) && 1 in s.left && s.left[1].Completed? && s.left[1].final.output == solo
            && s.counters.attended == Recomputed(e.engine, r.prompt, solo)
            && Costs(s.counters, |r.prompt|, |solo|)
  {
    LoneRunOver(e, ids, params, streaming);
    hide Healthy, Solo, LoneRun, FirstRequest, Costs, Idle, Encode;
    FirstId(e, ids, params);
    var r := FirstRequest(e, ids, params);
    OverCosts(e, LoneRun(e, ids, params, streaming), r, |Solo(e.engine, r).output|);
  }

  /** For greedy parameters, that is what the uncached loop spends when asked for as many tokens as the limits allow. */
  lemma LoneCostIsUncached(e: Settings, ids: seq<Token>, params: Params, n: int, streaming: bool)
    requires Standing(e) && 1 <= e.maxQueue && params.temperature <= 0.0 && 1 <= n
    ensures 1 <= CachedLimit(e.engine, ids, n) && Encode(e.engine, ids) != []
    ensures LoneRun(e, ids, params.(maxTokens := n), streaming).counters.attended ==
            UncachedCost(e.engine, Encode(e.engine, ids), [], CachedLimit(e.engine, ids, n))
  {
    hide Solo, LoneRun, Costs, Idle, Encode, UncachedFrom, UncachedCost;
    EncodeLeavesRoom(e.engine, ids);
    LoneRequestCost(e, ids, params.(maxTokens := n), streaming);
    CachingIsExact(e.engine, 1, ids, n, params);
    assert FirstRequest(e, ids, params.(maxTokens := n)) == CachedRequest(e.engine, 1, ids, n, params);
    var limit := CachedLimit(e.engine, ids, n);
    UncachedStops(e.engine, Encode(e.engine, ids), [], n, limit);
    UncachedSpends(e.engine, Encode(e.engine, ids), [], limit);
  }

  lemma OverCosts(e: Settings, s: Sched, r: Sequence, n: nat)
    requires Healthy(e, s) && r.prompt != [] && Over(s, r, n) && r.output == [] && r.reason.None?
    ensures Idle(s) && s.left[r.id].Completed? && s.left[r.id].final.output == Solo(e.engine, r).output
    ensures s.counters.attended == Recomputed(e.engine, r.prompt, Solo(e.engine, r).output)
    ensures Costs(s.counters, |r.prompt|, n)
  {
    hide Healthy, Solo, Costs, Idle;
    AloneIsShort(e, s, r, n);
    SoloIsSomething(e.engine, r);
    PaidCosts(s.counters, |r.prompt|, n);
    RecomputedIsTriangle(e.engine, r.prompt, Solo(e.engine, r).output);
  }

  lemma FirstId(e: Settings, ids: seq<Token>, params: Params)
    requires Standing(e)
    ensures FirstRequest(e, ids, params).id == 1 && FirstRequest(e, ids, params).prompt != []
    ensures FirstRequest(e, ids, params).output == [] && FirstRequest(e, ids, params).reason.None?
  {
    EncodeLeavesRoom(e.engine, ids);
  }

  lemma QueuedFirst(e: Settings, ids: seq<Token>, params: Params, streaming: bool)
    requires Standing(e) && 1 <= e.maxQueue
    ensures Healthy(e, INITIAL)
    ensures Queued(RunFrom(e, INITIAL, [Start, Submit(ids, params, streaming)]), FirstRequest(e, ids, params))
  {
    InitialHealthy(e);
    hide Encode, Clamp, Healthy;
    RunSnoc(e, INITIAL, [], Start);
    RunSnoc(e, INITIAL, [Start], Submit(ids, params, streaming));
    assert [] + [Start] == [Start]
           && [Start] + [Submit(ids, params, streaming)] == [Start, Submit(ids, params, streaming)];
    RunNothing(e, INITIAL);
  }
}
