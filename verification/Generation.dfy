/** Whole runs: batching is invisible, caching is exact, and every sequence stops where its rules say. */
module Generation {
  import opened Options
  import opened Transformer
  import opened Sampling
  import opened KvCache
  import opened Batching
  import opened Invariant

  // ------------------------------------------------------------------
  // Solo generation with a cache
  // ------------------------------------------------------------------

  /** Steps a lone sequence may still take. */
  function Patience(s: Sequence): nat {
    if s.Finished() then 0 else 1 + Max(0, s.params.maxTokens - |s.output|)
  }

  lemma DecodeLone(c: Config, b: Batch)
    requires WellShaped(c, b) && |b.seqs| == 1
    ensures WellShaped(c, Decode(c, b)) && |Decode(c, b).seqs| == 1
    ensures !b.seqs[0].Finished() ==> Patience(Decode(c, b).seqs[0]) < Patience(b.seqs[0])
  {
    DecodeShape(c, b);
  }

  /** Decode until the batch's only sequence is finished. */
  function SoloLoop(c: Config, b: Batch): Batch
    requires WellShaped(c, b) && |b.seqs| == 1
    decreases Patience(b.seqs[0])
  {
    DecodeLone(c, b);
    if b.seqs[0].Finished() then b else SoloLoop(c, Decode(c, b))
  }

  /** What a sequence becomes when it is generated alone, with the cache. */
  function Solo(c: Config, s: Sequence): Sequence
    requires s.prompt != []
  {
    PrefillShape(c, [s]);
    SoloKeepsOne(c, Prefill(c, [s]));
    SoloLoop(c, Prefill(c, [s])).seqs[0]
  }

  lemma {:induction false} SoloKeepsOne(c: Config, b: Batch)
    requires WellShaped(c, b) && |b.seqs| == 1
    ensures |SoloLoop(c, b).seqs| == 1
    decreases Patience(b.seqs[0])
  {
    DecodeLone(c, b);
    if !b.seqs[0].Finished() {
      SoloKeepsOne(c, Decode(c, b));
    }
  }

  /** Finished by a stopping rule, not abandoned. */
  predicate Ruled(s: Sequence) {
    s.Finished() && s.reason != Some(Abandoned)
  }

  predicate SameRequest(s: Sequence, t: Sequence) {
    s.id == t.id && s.prompt == t.prompt && s.params == t.params
  }

  lemma {:induction false} SoloLoopOk(c: Config, b: Batch, fed: seq<seq<Token>>)
    requires BatchOk(c, b, fed) && |b.seqs| == 1
    requires b.seqs[0].Finished() ==> Ruled(b.seqs[0])
    ensures |SoloLoop(c, b).seqs| == 1
    ensures var t := SoloLoop(c, b).seqs[0]; Lawful(c, t) && Ruled(t) && SameRequest(b.seqs[0], t)
    decreases Patience(b.seqs[0])
  {
    assert RowAt(c, b, fed, 0);
    DecodeLone(c, b);
    DecodeNamed(c, b, fed);
    hide BatchOk, WellShaped, Decode, Lawful;
    if !b.seqs[0].Finished() {
      DecodeOk(c, b, fed);
      SoloLoopOk(c, Decode(c, b), FedAfter(b, fed));
    }
  }

  /** A decode step of a lone unfinished sequence neither changes the request nor abandons it. */
  lemma DecodeNamed(c: Config, b: Batch, fed: seq<seq<Token>>)
    requires BatchOk(c, b, fed) && |b.seqs| == 1
    ensures WellShaped(c, b) && |fed| == |b.next| == 1 && |Decode(c, b).seqs| == 1
    ensures var s := Decode(c, b).seqs[0];
            SameRequest(b.seqs[0], s) && (!b.seqs[0].Finished() && s.Finished() ==> Ruled(s))
  {
    hide ForwardCache, ForwardLogits, SampleEach, NextLanes, RowAt, Tight;
  }

  /** Alone, every request runs to a stopping rule, on the uncached token stream. */
  lemma SoloIsLawful(c: Config, s: Sequence)
    requires s.prompt != [] && s.output == [] && s.reason.None?
    ensures Lawful(c, Solo(c, s)) && Ruled(Solo(c, s)) && SameRequest(s, Solo(c, s))
  {
    PrefillOk(c, [s]);
    SoloLoopOk(c, Prefill(c, [s]), Prompts([s]));
  }

  // ------------------------------------------------------------------
  // Lawful outputs are determined by prompt and parameters
  // ------------------------------------------------------------------

  lemma LawfulAgree(c: Config, s: Sequence, t: Sequence)
    requires s.prompt == t.prompt && s.params == t.params
    requires Lawful(c, s) && Lawful(c, t) && Ruled(t)
    ensures s.output <= t.output
    ensures Ruled(s) ==> s.output == t.output && s.reason == t.reason
  {
    hide Stream;
    if |t.output| < |s.output| {
      StreamPrefix(c, s.prompt, s.params, |s.output|, |t.output|);
    } else {
      StreamPrefix(c, s.prompt, s.params, |t.output|, |s.output|);
      assert t.output[..|s.output|] == s.output;
    }
  }

  /** The request as it was submitted. */
  function Original(s: Sequence): Sequence {
    s.(output := [], reason := None)
  }

  /** Where a sequence stands against its solo generation: always a prefix, and equal once a rule has stopped it. */
  ghost predicate MatchesSolo(c: Config, s: Sequence)
    requires s.prompt != []
  {
    var solo := Solo(c, Original(s));
    && s.output <= solo.output
    && (Ruled(s) ==> s.output == solo.output && s.reason == solo.reason)
  }

  lemma LawfulMatchesSolo(c: Config, s: Sequence)
    requires Lawful(c, s)
    ensures MatchesSolo(c, s)
  {
    SoloIsLawful(c, Original(s));
    LawfulAgree(c, s, Solo(c, Original(s)));
  }

  // ------------------------------------------------------------------
  // Engine runs: any interleaving of the engine's operations
  // ------------------------------------------------------------------

  datatype Op = AdmitOp(newcomers: seq<Sequence>) | DecodeOp | EvictOp | AbandonOp(id: nat)

  /** A batch, and everything evicted from it so far. */
  datatype World = World(batch: Batch, done: seq<Sequence>)

  ghost predicate LegalOp(op: Op) {
    op.AdmitOp? ==> forall i :: 0 <= i < |op.newcomers| ==> Fresh(op.newcomers[i])
  }

  ghost predicate Legal(ops: seq<Op>) {
    forall k :: 0 <= k < |ops| ==> LegalOp(ops[k])
  }

  lemma EvictShape(c: Config, b: Batch)
    requires WellShaped(c, b)
    ensures WellShaped(c, Evict(c, b))
  {
    if Done(b) != [] && Survivors(c, b).seqs != [] {
      CompactShape(c, Survivors(c, b), LeadingBlanks(Survivors(c, b).mask, Width(Survivors(c, b))));
    }
  }

  ghost function Apply(c: Config, w: World, op: Op): (after: World)
    requires 0 < c.model.layers && WellShaped(c, w.batch) && LegalOp(op)
    ensures WellShaped(c, after.batch)
  {
    match op
    case AdmitOp(newcomers) =>
      PrefillShape(c, newcomers);
      assert newcomers != [] && w.batch.seqs != [] ==> WellShaped(c, Splice(c, w.batch, Prefill(c, newcomers))) by {
        if newcomers != [] && w.batch.seqs != [] {
          SpliceShape(c, w.batch, Prefill(c, newcomers));
        }
      }
      w.(batch := Admit(c, w.batch, newcomers))
    case DecodeOp =>
      DecodeShape(c, w.batch);
      w.(batch := Decode(c, w.batch))
    case EvictOp =>
      EvictShape(c, w.batch);
      World(Evict(c, w.batch), w.done + Done(w.batch))
    case AbandonOp(id) =>
      w.(batch := MarkBatch(w.batch, id))
  }

  ghost function RunOps(c: Config, ops: seq<Op>): (w: World)
    requires 0 < c.model.layers && Legal(ops)
    ensures WellShaped(c, w.batch)
  {
    if ops == [] then World(EMPTY, [])
    else
      var n := |ops| - 1;
      Apply(c, RunOps(c, ops[..n]), ops[n])
  }

  ghost predicate WorldOk(c: Config, w: World, fed: seq<seq<Token>>) {
    && BatchOk(c, w.batch, fed)
    && forall i :: 0 <= i < |w.done| ==> Lawful(c, w.done[i]) && w.done[i].Finished()
  }

  lemma ApplyOk(c: Config, w: World, fed: seq<seq<Token>>, op: Op) returns (fed': seq<seq<Token>>)
    requires 0 < c.model.layers && WorldOk(c, w, fed) && LegalOp(op)
    ensures WorldOk(c, Apply(c, w, op), fed')
  {
    match op
    case AdmitOp(newcomers) =>
      AdmitOk(c, w.batch, fed, newcomers);
      fed' := FedAfterAdmit(fed, newcomers);
    case DecodeOp =>
      DecodeOk(c, w.batch, fed);
      fed' := FedAfter(w.batch, fed);
    case EvictOp =>
      EvictOk(c, w.batch, fed);
      fed' := FedAfterEvict(w.batch, fed);
      var rows := RowsWhere(w.batch.seqs, true);
      forall j | 0 <= j < |rows|
        ensures Lawful(c, Done(w.batch)[j]) && Done(w.batch)[j].Finished()
      {
        assert RowAt(c, w.batch, fed, rows[j]);
      }
    case AbandonOp(id) =>
      MarkOk(c, w.batch, fed, id);
      fed' := fed;
  }

  /** The representation invariant of every reachable batch. */
  lemma {:induction false} RunOpsOk(c: Config, ops: seq<Op>) returns (fed: seq<seq<Token>>)
    requires 0 < c.model.layers && Legal(ops)
    ensures WorldOk(c, RunOps(c, ops), fed)
  {
    if ops == [] {
      fed := [];
    } else {
      var n := |ops| - 1;
      var before := RunOpsOk(c, ops[..n]);
      fed := ApplyOk(c, RunOps(c, ops[..n]), before, ops[n]);
    }
  }

  /** Batching is invisible: under every interleaving of admissions, decode steps, evictions and
      abandonments, each sequence, whether still in the batch or already out of it, has generated a
      prefix of what it generates alone, and exactly that once it has finished by rule. */
  lemma BatchingIsInvisible(c: Config, ops: seq<Op>)
    requires 0 < c.model.layers && Legal(ops)
    ensures var w := RunOps(c, ops);
            forall s :: s in w.batch.seqs || s in w.done ==> s.prompt != [] && MatchesSolo(c, s)
  {
    var w := RunOps(c, ops);
    var fed := RunOpsOk(c, ops);
    forall s | s in w.batch.seqs || s in w.done
      ensures s.prompt != [] && MatchesSolo(c, s)
    {
      if s in w.batch.seqs {
        var i :| 0 <= i < |w.batch.seqs| && w.batch.seqs[i] == s;
        assert RowAt(c, w.batch, fed, i);
      }
      LawfulMatchesSolo(c, s);
    }
  }

  // ------------------------------------------------------------------
  // Stopping
  // ------------------------------------------------------------------

  /** A prompt that leaves room, and at least one token to generate. */
  ghost predicate Admissible(c: Config, s: Sequence) {
    1 <= |s.prompt| < c.maxContext && 1 <= s.params.maxTokens
  }

  function Budget(c: Config, s: Sequence): int {
    Min(s.params.maxTokens, c.maxContext - |s.prompt|)
  }

  /** EOS stops a sequence, so it can only be the last output. */
  lemma EosIsLast(c: Config, s: Sequence, i: nat)
    requires Lawful(c, s) && i < |s.output| && s.output[i] == c.eos
    ensures i == |s.output| - 1 && s.reason == Some(Stop)
  {
    hide Stream;
    assert i < |s.output| - 1 ==> Open(c, s.params, s.prompt, s.output[..i + 1]);
  }

  /** The rules let a sequence reach its budget, and not pass it. */
  lemma BudgetHolds(c: Config, s: Sequence)
    requires Admissible(c, s) && Lawful(c, s)
    ensures |s.output| <= Budget(c, s)
    ensures !Ruled(s) ==> |s.output| < Budget(c, s)
    ensures s.reason == Some(Length) ==> |s.output| == Budget(c, s)
    ensures Ruled(s) ==> 1 <= |s.output|
  {
    hide Stream;
    if s.output != [] {
      assert Open(c, s.params, s.prompt, s.output[..|s.output| - 1]);
    }
  }

  /** A sequence that ran to a rule has between one and `Budget` outputs; EOS occurs only last, and exactly
      when the reason is "stop"; the reason is "length" exactly when the budget is used up without EOS. */
  lemma StoppingRules(c: Config, s: Sequence)
    requires Admissible(c, s) && Lawful(c, s)
    ensures |s.output| <= Budget(c, s)
    ensures forall i :: 0 <= i < |s.output| && s.output[i] == c.eos ==> i == |s.output| - 1 && s.reason == Some(Stop)
    ensures !Ruled(s) ==> |s.output| < Budget(c, s)
    ensures Ruled(s) ==> 1 <= |s.output|
    ensures s.reason == Some(Stop) ==> s.output[|s.output| - 1] == c.eos
    ensures s.reason == Some(Length) <==> |s.output| == Budget(c, s) && c.eos !in s.output
  {
    hide Stream, Budget, Open;
    BudgetHolds(c, s);
    forall i | 0 <= i < |s.output| && s.output[i] == c.eos
      ensures i == |s.output| - 1 && s.reason == Some(Stop)
    {
      EosIsLast(c, s, i);
    }
  }

  // ------------------------------------------------------------------
  // Caching is exact
  // ------------------------------------------------------------------

  /** The last `maxContext` tokens. */
  function Window(c: Config, toks: seq<Token>): (w: seq<Token>)
    ensures toks != [] ==> w != []
  {
    if c.maxContext == 0 || |toks| <= c.maxContext then toks else toks[|toks| - c.maxContext..]
  }

  /** The naive loop: re-run the whole window every step, pick the best token, stop on EOS. */
  function UncachedFrom(c: Config, prompt: seq<Token>, generated: seq<Token>, left: nat): seq<Token>
    requires prompt != []
    decreases left
  {
    if left == 0 then generated
    else
      var token := ArgMax(PlainLogits(c.model, Window(c, prompt + generated)));
      if token == c.eos then generated + [token] else UncachedFrom(c, prompt, generated + [token], left - 1)
  }

  function Uncached(c: Config, prompt: seq<Token>, maxNewTokens: int): seq<Token>
    requires prompt != []
  {
    UncachedFrom(c, prompt, [], Max(0, maxNewTokens))
  }

  /** `u` continues `generated` by at most `left` tokens: it stops early exactly on EOS, which occurs
      only last, and inside the context window each token is the best one after everything before it. */
  ghost predicate Naive(c: Config, prompt: seq<Token>, generated: seq<Token>, left: nat, u: seq<Token>)
    requires prompt != []
  {
    && generated <= u && |u| <= |generated| + left
    && (|u| < |generated| + left ==> |generated| < |u| && u[|u| - 1] == c.eos)
    && (forall i :: |generated| <= i < |u| - 1 ==> u[i] != c.eos)
    && (forall i :: |generated| <= i < |u| && |prompt| + i <= c.maxContext ==>
          u[i] == ArgMax(PlainLogits(c.model, prompt + u[..i])))
  }

  lemma {:induction false} UncachedIsNaive(c: Config, prompt: seq<Token>, generated: seq<Token>, left: nat)
    requires prompt != []
    ensures Naive(c, prompt, generated, left, UncachedFrom(c, prompt, generated, left))
    decreases left
  {
    hide PlainLogits, ArgMax;
    if left > 0 {
      var token := ArgMax(PlainLogits(c.model, Window(c, prompt + generated)));
      var g := generated + [token];
      var u := UncachedFrom(c, prompt, generated, left);
      if token == c.eos {
        assert u == g && g[..|generated|] == generated;
      } else {
        UncachedIsNaive(c, prompt, g, left - 1);
        NaiveStep(c, prompt, generated, left, token, u);
      }
    }
  }

  lemma NaiveStep(c: Config, prompt: seq<Token>, generated: seq<Token>, left: nat, token: Token, u: seq<Token>)
    requires prompt != [] && 0 < left && token != c.eos
    requires token == ArgMax(PlainLogits(c.model, Window(c, prompt + generated)))
    requires Naive(c, prompt, generated + [token], left - 1, u)
    ensures Naive(c, prompt, generated, left, u)
  {
    hide PlainLogits, ArgMax;
    var g := generated + [token];
    assert u[|generated|] == g[|generated|] == token;
    assert u[..|generated|] == u[..|g|][..|generated|] == generated;
  }

  /** Inside the window a naive run follows the greedy stream. */
  lemma {:induction false} NaiveIsStream(c: Config, prompt: seq<Token>, params: Params, left: nat, u: seq<Token>,
      k: nat)
    requires prompt != [] && params.temperature <= 0.0
    requires Naive(c, prompt, [], left, u)
    requires k <= |u| && |prompt| + k <= c.maxContext + 1
    ensures u[..k] == Stream(c, prompt, params, k)
  {
    hide PlainLogits, ArgMax;
    if k > 0 {
      NaiveIsStream(c, prompt, params, left, u, k - 1);
      assert u[k - 1] == ArgMax(PlainLogits(c.model, prompt + u[..k - 1]));
      assert u[..k] == u[..k - 1] + [u[k - 1]];
    }
  }

  /** A cached run is the naive run, cut to its budget. */
  lemma CachedCutsNaive(c: Config, t: Sequence, left: nat, u: seq<Token>)
    requires Admissible(c, t) && Lawful(c, t) && Ruled(t) && t.params.temperature <= 0.0
    requires Naive(c, t.prompt, [], left, u) && t.params.maxTokens <= left
    ensures t.output == u[..Min(|u|, Budget(c, t))]
  {
    var o, budget := t.output, Budget(c, t);
    assert 1 <= |o| <= budget <= left && (|o| < budget ==> o[|o| - 1] == c.eos) by {
      StoppingRules(c, t);
    }
    assert forall i :: 0 <= i < |o| - 1 ==> o[i] != c.eos by {
      StoppingRules(c, t);
    }
    RunsAgree(c, t, left, u);
  }

  lemma RunsAgree(c: Config, t: Sequence, left: nat, u: seq<Token>)
    requires Admissible(c, t) && Lawful(c, t) && Ruled(t) && t.params.temperature <= 0.0
    requires Naive(c, t.prompt, [], left, u)
    ensures forall i :: 0 <= i < |t.output| && i < |u| ==> t.output[i] == u[i]
  {
    StoppingRules(c, t);
    hide Naive, Stream, StopRule, Open;
    forall i | 0 <= i < |t.output| && i < |u|
      ensures t.output[i] == u[i]
    {
      AgreeAt(c, t, left, u, i);
    }
  }

  lemma AgreeAt(c: Config, t: Sequence, left: nat, u: seq<Token>, i: nat)
    requires t.prompt != [] && t.output == Stream(c, t.prompt, t.params, |t.output|) && t.params.temperature <= 0.0
    requires Naive(c, t.prompt, [], left, u)
    requires i < |t.output| && i < |u| && |t.prompt| + i <= c.maxContext
    ensures t.output[i] == u[i]
  {
    hide Naive, Stream;
    NaiveIsStream(c, t.prompt, t.params, left, u, i + 1);
    StreamPrefix(c, t.prompt, t.params, |t.output|, i + 1);
    assert u[..i + 1][i] == t.output[..i + 1][i];
  }

  /** The request that `generate_with_kv_cache` makes of its arguments. */
  function CachedRequest(c: Config, id: nat, ids: seq<Token>, maxNewTokens: int, params: Params): Sequence {
    Sequence(id, Encode(c, ids), Clamp(params.(maxTokens := maxNewTokens), c.maxNewTokens), [], None)
  }

  /** How many tokens cached generation may produce. */
  function CachedLimit(c: Config, ids: seq<Token>, maxNewTokens: int): int {
    Min(Min(maxNewTokens, c.maxNewTokens), c.maxContext - |Encode(c, ids)|)
  }

  /** Caching is exact: for greedy parameters and at least one token asked for, cached generation
      is full recomputation cut to the limit that the settings and the context window impose. */
  lemma CachingIsExact(c: Config, id: nat, ids: seq<Token>, maxNewTokens: int, params: Params)
    requires 2 <= c.maxContext && 1 <= c.maxNewTokens
    requires params.temperature <= 0.0 && 1 <= maxNewTokens
    ensures Encode(c, ids) != []
    ensures var cached := Solo(c, CachedRequest(c, id, ids, maxNewTokens, params)).output;
            var uncached := Uncached(c, Encode(c, ids), maxNewTokens);
            cached == uncached[..Min(|uncached|, CachedLimit(c, ids, maxNewTokens))]
  {
    hide Lawful, Naive, UncachedFrom, Solo;
    EncodeLeavesRoom(c, ids);
    hide Encode;
    var s := CachedRequest(c, id, ids, maxNewTokens, params);
    SoloIsLawful(c, s);
    UncachedIsNaive(c, s.prompt, [], maxNewTokens);
    CachedCutsNaive(c, Solo(c, s), maxNewTokens, Uncached(c, s.prompt, maxNewTokens));
  }

  /** A cached run equals the naive run exactly when the budget covers it or EOS came first. */
  lemma CachedIsNaive(c: Config, t: Sequence, left: nat, u: seq<Token>)
    requires Admissible(c, t) && Lawful(c, t) && Ruled(t) && t.params.temperature <= 0.0
    requires Naive(c, t.prompt, [], left, u) && t.params.maxTokens <= left
    ensures t.output == u <==> left <= Budget(c, t) || t.reason == Some(Stop)
  {
    StoppingRules(c, t);
    CachedCutsNaive(c, t, left, u);
  }

  /** For one model, the two ways of generating agree exactly when at least one token is
      asked for and either the limits allow that many or the cached run stopped on EOS. */
  lemma AgreementOfRun(c: Config, id: nat, ids: seq<Token>, maxNewTokens: int, params: Params)
    requires 2 <= c.maxContext && 1 <= c.maxNewTokens && params.temperature <= 0.0
    ensures Encode(c, ids) != []
    ensures var t := Solo(c, CachedRequest(c, id, ids, maxNewTokens, params));
            t.output == Uncached(c, Encode(c, ids), maxNewTokens) <==>
            1 <= maxNewTokens && (maxNewTokens <= CachedLimit(c, ids, maxNewTokens) || t.reason == Some(Stop))
  {
    hide Lawful, Naive, Solo;
    EncodeLeavesRoom(c, ids);
    hide Encode;
    var s := CachedRequest(c, id, ids, maxNewTokens, params);
    var t := Solo(c, s);
    SoloIsLawful(c, s);
    StoppingRules(c, t);
    if 1 <= maxNewTokens {
      UncachedIsNaive(c, s.prompt, [], maxNewTokens);
      CachedIsNaive(c, t, maxNewTokens, Uncached(c, s.prompt, maxNewTokens));
    }
  }

  /** Cached and uncached generation give the same tokens. */
  ghost predicate Agree(c: Config, id: nat, ids: seq<Token>, maxNewTokens: int, params: Params) {
    Encode(c, ids) != [] &&
    Solo(c, CachedRequest(c, id, ids, maxNewTokens, params)).output == Uncached(c, Encode(c, ids), maxNewTokens)
  }

  /** Weights under which EOS is never the best token. */
  function Endless(c: Config): (e: Config) {
    c.(model := c.model.(head := _ => if c.eos == 0 then [0.0, 1.0] else [1.0]))
  }

  lemma EndlessNeverStops(c: Config, toks: seq<Token>)
    requires toks != []
    ensures ArgMax(PlainLogits(Endless(c).model, toks)) != c.eos
  {
    hide PlainHidden;
    var logits := PlainLogits(Endless(c).model, toks);
    assert logits == if c.eos == 0 then [0.0, 1.0] else [1.0];
  }

  lemma {:induction false} EndlessStream(c: Config, prompt: seq<Token>, params: Params, n: nat)
    requires prompt != [] && params.temperature <= 0.0
    ensures c.eos !in Stream(Endless(c), prompt, params, n)
  {
    hide PlainLogits, ArgMax, Endless;
    if n > 0 {
      var before := Stream(Endless(c), prompt, params, n - 1);
      EndlessStream(c, prompt, params, n - 1);
      EndlessNeverStops(c, prompt + before);
      EndlessKeeps(c);
    }
  }

  lemma EndlessKeeps(c: Config)
    ensures Endless(c) == c.(model := Endless(c).model)
  {
  }

  /** Under such weights greedy generation never stops on EOS. */
  lemma EndlessRun(c: Config, s: Sequence)
    requires s.prompt != [] && s.output == [] && s.reason.None? && s.params.temperature <= 0.0
    ensures Solo(Endless(c), s).reason != Some(Stop)
  {
    hide Stream, Open, Solo, Endless;
    SoloIsLawful(Endless(c), s);
    var t := Solo(Endless(c), s);
    EndlessStream(c, s.prompt, s.params, |t.output|);
    EndlessKeeps(c);
  }

  /** A condition to check before the call: greedy cached and uncached generation are guaranteed to give
      the same tokens, that is, they do so whatever the weights, exactly when at least one token is asked
      for and no more than the setting and the context window allow. */
  lemma CachedEqualsUncached(c: Config, id: nat, ids: seq<Token>, maxNewTokens: int, params: Params)
    requires 2 <= c.maxContext && 1 <= c.maxNewTokens && params.temperature <= 0.0
    ensures (forall m: Model :: Agree(c.(model := m), id, ids, maxNewTokens, params)) <==>
            1 <= maxNewTokens <= CachedLimit(c, ids, maxNewTokens)
  {
    hide Agree, CachedLimit, Endless;
    forall m: Model
      ensures 1 <= maxNewTokens <= CachedLimit(c, ids, maxNewTokens) ==>
              Agree(c.(model := m), id, ids, maxNewTokens, params)
    {
      AgreesWithin(c.(model := m), id, ids, maxNewTokens, params);
      SameLimit(c, m, ids, maxNewTokens);
    }
    EndlessDisagrees(c, id, ids, maxNewTokens, params);
    EndlessKeeps(c);
  }

  lemma SameLimit(c: Config, m: Model, ids: seq<Token>, maxNewTokens: int)
    ensures CachedLimit(c.(model := m), ids, maxNewTokens) == CachedLimit(c, ids, maxNewTokens)
  {
  }

  lemma AgreesWithin(c: Config, id: nat, ids: seq<Token>, maxNewTokens: int, params: Params)
    requires 2 <= c.maxContext && 1 <= c.maxNewTokens && params.temperature <= 0.0
    ensures 1 <= maxNewTokens <= CachedLimit(c, ids, maxNewTokens) ==> Agree(c, id, ids, maxNewTokens, params)
  {
    hide Solo, Encode, CachedLimit, CachedRequest, UncachedFrom;
    AgreementOfRun(c, id, ids, maxNewTokens, params);
  }

  lemma EndlessDisagrees(c: Config, id: nat, ids: seq<Token>, maxNewTokens: int, params: Params)
    requires 2 <= c.maxContext && 1 <= c.maxNewTokens && params.temperature <= 0.0
    ensures Agree(Endless(c), id, ids, maxNewTokens, params) ==> 1 <= maxNewTokens <= CachedLimit(c, ids, maxNewTokens)
  {
    EndlessKeeps(c);
    SameLimit(c, Endless(c).model, ids, maxNewTokens);
    RequestIsGreedy(Endless(c), id, ids, maxNewTokens, params);
    EncodeLeavesRoom(Endless(c), ids);
    hide Solo, Encode, CachedLimit, CachedRequest, UncachedFrom, Endless;
    AgreementOfRun(Endless(c), id, ids, maxNewTokens, params);
    EndlessRun(c, CachedRequest(Endless(c), id, ids, maxNewTokens, params));
  }

  lemma RequestIsGreedy(c: Config, id: nat, ids: seq<Token>, maxNewTokens: int, params: Params)
    requires params.temperature <= 0.0
    ensures var s := CachedRequest(c, id, ids, maxNewTokens, params);
            s.prompt == Encode(c, ids) && s.output == [] && s.reason.None? && s.params.temperature <= 0.0
  {
  }

  /** Asking for no tokens at all, cached generation still produces one: `clamp` raises the request to 1. */
  lemma ZeroTokensDiffer(c: Config, id: nat, ids: seq<Token>, params: Params)
    requires 2 <= c.maxContext && 1 <= c.maxNewTokens
    ensures Encode(c, ids) != []
    ensures Uncached(c, Encode(c, ids), 0) == []
    ensures |Solo(c, CachedRequest(c, id, ids, 0, params)).output| == 1
  {
    EncodeLeavesRoom(c, ids);
    var s := CachedRequest(c, id, ids, 0, params);
    SoloIsLawful(c, s);
    StoppingRules(c, Solo(c, s));
  }

  // ------------------------------------------------------------------
  // Positions
  // ------------------------------------------------------------------

  /** Prefill positions: the j-th prompt token of every row gets position j, below the context window. */
  lemma PrefillPositions(c: Config, seqs: seq<Sequence>, i: nat, j: nat)
    requires i < |seqs| && Prompted(seqs) && |seqs[i].prompt| < c.maxContext
    requires j < |seqs[i].prompt|
    ensures var row := PromptLanes(c, seqs)[i].row;
            var at := |row.tokens| - |seqs[i].prompt| + j;
            0 <= at < |row.tokens| && row.tokens[at] == seqs[i].prompt[j] && row.positions[at] == j < c.maxContext
  {
    assert |Prompts(seqs)[i]| <= MaxLength(Prompts(seqs));
    PositionOfToken(MaxLength(Prompts(seqs)), |seqs[i].prompt|, j);
  }

  lemma AlignedLength(c: Config, s: Sequence, next: Token, fed: seq<Token>)
    requires Aligned(s, next, fed) && Open(c, s.params, s.prompt, s.output)
    ensures |fed| == |s.prompt| + |s.output| - 1 < c.maxContext - 1
  {
  }

  /** Decode positions continue prefill positions without gap: the pending token, the last output, is at
      |prompt| + |output| - 1, and for an unstopped sequence that is below the context window. */
  lemma DecodePositions(c: Config, b: Batch, fed: seq<seq<Token>>, i: nat)
    requires BatchOk(c, b, fed) && i < |b.seqs|
    requires Aligned(b.seqs[i], b.next[i], fed[i])
    requires Open(c, b.seqs[i].params, b.seqs[i].prompt, b.seqs[i].output)
    ensures var s := b.seqs[i];
            NextLanes(c, b)[i].row.positions == [|s.prompt| + |s.output| - 1] &&
            |s.prompt| + |s.output| - 1 < c.maxContext - 1
  {
    BatchSizes(c, b, fed);
    hide BatchOk, RowAt, NextLanes, WellShaped, Decode, Aligned, Open;
    DecodeShape(c, b);
    DecodeRow(c, b, fed, i);
    AlignedLength(c, b.seqs[i], b.next[i], fed[i]);
  }

  /** 0, 1, ..., n - 1. */
  function UpTo(n: nat): seq<nat> {
    seq(n, j => j)
  }

  /** Row `i` of a prefill: its last columns are its prompt, at positions 0, 1, 2, ... */
  ghost predicate PromptPlaced(row: Row, prompt: seq<Token>) {
    && |prompt| <= |row.tokens| == |row.positions|
    && row.tokens[|row.tokens| - |prompt|..] == prompt
    && row.positions[|row.tokens| - |prompt|..] == UpTo(|prompt|)
  }

  lemma PromptTokens(c: Config, ns: seq<Sequence>, i: nat)
    requires i < |ns| && Prompted(ns) && |ns[i].prompt| < c.maxContext
    ensures PromptPlaced(PromptLanes(c, ns)[i].row, ns[i].prompt)
  {
    var row, prompt := PromptLanes(c, ns)[i].row, ns[i].prompt;
    assert |Prompts(ns)[i]| <= MaxLength(Prompts(ns));
    forall j | 0 <= j < |prompt|
      ensures row.tokens[|row.tokens| - |prompt| + j] == prompt[j]
      ensures row.positions[|row.tokens| - |prompt| + j] == UpTo(|prompt|)[j]
    {
      PrefillPositions(c, ns, i, j);
    }
  }

  /** Every position the model is about to be given for real tokens is below the context window: a prompt
      is at positions 0, 1, 2, ..., and each row's pending token follows all that the row has been fed. */
  ghost predicate PositionsOk(c: Config, b: Batch, ns: seq<Sequence>) {
    && WellShaped(c, b) && Prompted(ns)
    && (forall i :: 0 <= i < |ns| ==>
          |ns[i].prompt| < c.maxContext && PromptPlaced(PromptLanes(c, ns)[i].row, ns[i].prompt))
    && (forall i :: 0 <= i < |b.seqs| ==>
          NextLanes(c, b)[i].row.positions == [|b.seqs[i].prompt| + |b.seqs[i].output| - 1] &&
          |b.seqs[i].prompt| + |b.seqs[i].output| - 1 < c.maxContext - 1)
  }
}
