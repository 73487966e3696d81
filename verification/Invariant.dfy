/** What every reachable batch satisfies, and that prefill, decode, evict and admit keep it. */
module Invariant {
  import opened Options
  import opened Masks
  import opened Transformer
  import opened Sampling
  import opened KvCache
  import opened Batching

  // ------------------------------------------------------------------
  // The tokens a prompt deserves
  // ------------------------------------------------------------------

  /** The first `n` tokens of full recomputation without a cache, ignoring the stopping rules. */
  function Stream(c: Config, prompt: seq<Token>, params: Params, n: nat): (toks: seq<Token>)
    requires prompt != []
    ensures |toks| == n
  {
    if n == 0 then []
    else
      var before := Stream(c, prompt, params, n - 1);
      before + [SampleRow(c.sampler, PlainLogits(c.model, prompt + before), KeyOf(params))]
  }

  lemma {:induction false} StreamPrefix(c: Config, prompt: seq<Token>, params: Params, n: nat, k: nat)
    requires prompt != [] && k <= n
    ensures Stream(c, prompt, params, n)[..k] == Stream(c, prompt, params, k)
  {
    if k < n {
      var before := Stream(c, prompt, params, n - 1);
      var token := SampleRow(c.sampler, PlainLogits(c.model, prompt + before), KeyOf(params));
      assert (before + [token])[..k] == before[..k];
      StreamPrefix(c, prompt, params, n - 1, k);
    }
  }

  /** No stopping rule fires on `output`. */
  ghost predicate Open(c: Config, params: Params, prompt: seq<Token>, output: seq<Token>) {
    output == [] || StopRule(c, params, prompt, output).None?
  }

  /** The output is a run of the uncached token stream, no rule fired before its last token, and the
      finish reason is the one the rules give (an abandoned sequence is one that no rule has stopped). */
  ghost predicate Lawful(c: Config, s: Sequence) {
    && s.prompt != []
    && s.output == Stream(c, s.prompt, s.params, |s.output|)
    && (forall n :: 0 <= n < |s.output| ==> Open(c, s.params, s.prompt, s.output[..n]))
    && match s.reason {
       case None => Open(c, s.params, s.prompt, s.output)
       case Some(Abandoned) => Open(c, s.params, s.prompt, s.output)
       case Some(r) => s.output != [] && StopRule(c, s.params, s.prompt, s.output) == Some(r)
       }
  }

  /** A sequence that has not been admitted yet; its caller may already have gone away. */
  ghost predicate Fresh(s: Sequence) {
    s.prompt != [] && s.output == [] && (s.reason.None? || s.reason == Some(Abandoned))
  }

  /** The tokens fed so far are the prompt and all outputs but the last, which is pending. */
  ghost predicate Aligned(s: Sequence, next: Token, fed: seq<Token>) {
    s.output != [] && fed == s.prompt + s.output[..|s.output| - 1] && next == s.output[|s.output| - 1]
  }

  ghost predicate SeqOk(c: Config, s: Sequence, next: Token, fed: seq<Token>) {
    Lawful(c, s) && (s.reason.None? ==> Aligned(s, next, fed))
  }

  /** Emitting the token of the uncached logits keeps a sequence lawful and aligned. */
  lemma EmitKeepsSeqOk(c: Config, s: Sequence, token: Token, fed: seq<Token>)
    requires Lawful(c, s)
    requires !s.Finished() ==>
               fed == s.prompt + s.output && token == SampleRow(c.sampler, PlainLogits(c.model, fed), KeyOf(s.params))
    ensures SeqOk(c, EmitOne(c, s, token), token, fed)
  {
    if !s.Finished() {
      var s' := EmitOne(c, s, token);
      assert s'.output[..|s.output|] == s.output;
      forall n | 0 <= n < |s'.output|
        ensures Open(c, s.params, s.prompt, s'.output[..n])
      {
        assert s'.output[..n] == s.output[..n];
        assert n == |s.output| ==> s'.output[..n] == s.output;
      }
    }
  }

  // ------------------------------------------------------------------
  // Rows
  // ------------------------------------------------------------------

  /** Row `i` holds the cache of exactly the tokens fed to it, right-aligned, whatever its padding holds. */
  ghost predicate RowOk(c: Config, past: Past, mask: seq<bool>, fed: seq<Token>) {
    && 1 <= |fed| <= |mask|
    && mask == LeftMask(|mask|, |fed|)
    && Represents(c.model, past, mask, fed)
  }

  /** For a left-padded row, representing `fed` is a statement about the last columns only. */
  lemma RepresentsTail(m: Model, past: Past, width: nat, fed: seq<Token>)
    requires |fed| <= width && |past| == m.layers
    requires forall l :: 0 <= l < m.layers ==> |past[l]| == width
    ensures Represents(m, past, LeftMask(width, |fed|), fed) <==>
            forall l :: 0 <= l < m.layers ==> past[l][width - |fed|..] == PlainSlots(m, fed, l)
  {
    LeftMaskTotal(width, |fed|);
    forall l | 0 <= l < m.layers
      ensures RepresentsAt(m, past[l], LeftMask(width, |fed|), fed, l) <==>
              past[l][width - |fed|..] == PlainSlots(m, fed, l)
    {
      LeftMaskVisible(past[l], |fed|);
    }
  }

  /** A row may gain or lose padding columns freely. */
  lemma RowReframed(c: Config, past: Past, mask: seq<bool>, fed: seq<Token>, past': Past, width: nat)
    requires RowOk(c, past, mask, fed)
    requires |past'| == c.model.layers && |fed| <= width
    requires forall l :: 0 <= l < c.model.layers ==>
               |past'[l]| == width && |past[l]| == |mask| && past'[l][width - |fed|..] == past[l][|mask| - |fed|..]
    ensures RowOk(c, past', LeftMask(width, |fed|), fed)
  {
    RepresentsTail(c.model, past, |mask|, fed);
    RepresentsTail(c.model, past', width, fed);
  }

  /** One prompt, padded to any width, is prefilled as if alone and unpadded. */
  lemma PromptRow(c: Config, prompt: seq<Token>, width: nat)
    requires 0 < |prompt| <= width
    ensures var lane := PromptLane(c, prompt, width);
            && LaneFits(c.model, lane)
            && RowOk(c, Present(c.model, lane.past, lane.row), lane.row.mask, prompt)
            && RowLogits(c.model, lane.past, lane.row) == PlainLogits(c.model, prompt)
  {
    var lane := PromptLane(c, prompt, width);
    var row := lane.row;
    assert row.mask[0..] == row.mask && row.mask[..0] == [];
    forall l | 0 <= l < c.model.layers
      ensures RepresentsAt(c.model, lane.past[l], [], [], l)
    {
    }
    assert Represents(c.model, lane.past, row.mask[..0], []);
    forall j | 0 <= j < |row.tokens| && row.mask[j]
      ensures row.positions[j] == Count(row.mask[..j])
    {
      CountStep(row.mask, j);
    }
    LeftMaskVisible(row.tokens, |prompt|);
    assert row.tokens[width - |prompt|..] == prompt;
    assert [] + Fed(row) == prompt;
    PassIsPlain(c.model, lane.past, row, []);
    LogitsArePlain(c.model, lane.past, row, []);
  }

  /** The row a decode step computes feeds exactly the pending token, at the next position. */
  lemma NextRowSetup(c: Config, past: Past, mask: seq<bool>, fed: seq<Token>, next: Token)
    requires RowOk(c, past, mask, fed)
    ensures Count(mask + [true]) == |fed| + 1
    ensures var row := Row([next], [|fed|], mask + [true]);
            Fits(c.model, past, row) && Positioned(row) && Fed(row) == [next] && row.mask[..|mask|] == mask
  {
    var row := Row([next], [|fed|], mask + [true]);
    assert forall l :: 0 <= l < c.model.layers ==> RepresentsAt(c.model, past[l], mask, fed, l);
    assert row.mask[..|mask|] == mask && row.mask[|mask|..] == [true];
    CountConcat(mask, [true]);
    assert [next][..0] == [] && [true][..0] == [];
    assert Visible([next], [true]) == Visible([next][..0], [true][..0]) + [next];
  }

  /** One decode step of a row feeds exactly its pending token. */
  lemma NextRow(c: Config, past: Past, mask: seq<bool>, fed: seq<Token>, next: Token)
    requires RowOk(c, past, mask, fed)
    requires Count(mask + [true]) >= 1
    ensures var row := Row([next], [Count(mask + [true]) - 1], mask + [true]);
            && Fits(c.model, past, row)
            && RowOk(c, Present(c.model, past, row), mask + [true], fed + [next])
            && RowLogits(c.model, past, row) == PlainLogits(c.model, fed + [next])
            && row.positions[0] == |fed|
  {
    NextRowSetup(c, past, mask, fed, next);
    var row := Row([next], [Count(mask + [true]) - 1], mask + [true]);
    PassIsPlain(c.model, past, row, fed);
    LogitsArePlain(c.model, past, row, fed);
    assert mask + [true] == LeftMask(|mask| + 1, |fed| + 1);
  }

  // ------------------------------------------------------------------
  // Batches
  // ------------------------------------------------------------------

  ghost predicate RowAt(c: Config, b: Batch, fed: seq<seq<Token>>, i: nat)
    requires WellShaped(c, b) && i < |b.seqs| == |fed|
  {
    && RowOk(c, RowOf(b.cache, i), b.mask[i], fed[i])
    && SeqOk(c, b.seqs[i], b.next[i], fed[i])
  }

  /** The width of the batch is the number of real columns of its longest row. */
  ghost predicate Tight(b: Batch, fed: seq<seq<Token>>) {
    b.seqs != [] ==> exists i :: 0 <= i < |fed| && |fed[i]| == Width(b)
  }

  /** The invariant of every reachable batch; `fed[i]` lists the tokens fed to row `i`. */
  ghost predicate BatchOk(c: Config, b: Batch, fed: seq<seq<Token>>) {
    && WellShaped(c, b)
    && |fed| == |b.seqs|
    && (forall i :: 0 <= i < |b.seqs| ==> RowAt(c, b, fed, i))
    && Tight(b, fed)
  }

  lemma BatchSizes(c: Config, b: Batch, fed: seq<seq<Token>>)
    requires BatchOk(c, b, fed)
    ensures WellShaped(c, b) && |fed| == |b.seqs| == |b.mask| == |b.next|
  {
  }

  lemma ForwardRow(m: Model, lanes: seq<Lane>, i: nat)
    requires forall i :: 0 <= i < |lanes| ==> LaneFits(m, lanes[i])
    requires i < |lanes|
    ensures RowOf(ForwardCache(m, lanes), i) == Present(m, lanes[i].past, lanes[i].row)
  {
    assert LaneFits(m, lanes[i]);
  }

  /** A prefilled batch is sound: each row emits the token it would emit alone. */
  lemma PrefillOk(c: Config, seqs: seq<Sequence>)
    requires forall i :: 0 <= i < |seqs| ==> Fresh(seqs[i])
    ensures Prompted(seqs) && BatchOk(c, Prefill(c, seqs), Prompts(seqs))
  {
    PrefillShape(c, seqs);
    if seqs != [] {
      var b := Prefill(c, seqs);
      var lanes := PromptLanes(c, seqs);
      PromptLanesFit(c, seqs);
      forall i | 0 <= i < |seqs|
        ensures RowAt(c, b, Prompts(seqs), i)
      {
        assert |Prompts(seqs)[i]| <= Width(b);
        PromptRow(c, seqs[i].prompt, Width(b));
        ForwardRow(c.model, lanes, i);
        assert lanes[i] == PromptLane(c, seqs[i].prompt, Width(b));
        assert RowOf(b.cache, i) == Present(c.model, lanes[i].past, lanes[i].row);
        assert b.next[i] == SampleRow(c.sampler, PlainLogits(c.model, seqs[i].prompt), KeyOf(seqs[i].params));
        assert seqs[i].prompt + seqs[i].output == seqs[i].prompt;
        EmitKeepsSeqOk(c, seqs[i], b.next[i], seqs[i].prompt);
      }
    }
  }

  function FedAfter(b: Batch, fed: seq<seq<Token>>): seq<seq<Token>>
    requires |fed| == |b.next|
  {
    seq(|fed|, i requires 0 <= i < |fed| => fed[i] + [b.next[i]])
  }

  /** What a decode step computes for row `i`. */
  lemma DecodeRowValues(c: Config, b: Batch, i: nat)
    requires WellShaped(c, b) && i < |b.seqs|
    ensures forall l :: 0 <= l < |b.cache| ==> i < |b.cache[l]|
    ensures forall l :: 0 <= l < |Decode(c, b).cache| ==> i < |Decode(c, b).cache[l]|
    ensures var lane := NextLane(b, i);
            && NextLanes(c, b)[i] == lane && LaneFits(c.model, lane)
            && RowOf(Decode(c, b).cache, i) == Present(c.model, lane.past, lane.row)
            && |Decode(c, b).mask| == |Decode(c, b).next| == |b.seqs|
            && Decode(c, b).mask[i] == lane.row.mask
            && Decode(c, b).next[i] ==
                 SampleRow(c.sampler, RowLogits(c.model, lane.past, lane.row), KeyOf(b.seqs[i].params))
            && Decode(c, b).seqs[i] == EmitOne(c, b.seqs[i], Decode(c, b).next[i])
  {
    NextLanesFit(c, b);
    hide Hidden, PlainHidden, SampleRow;
    ForwardRow(c.model, NextLanes(c, b), i);
  }

  lemma DecodeRow(c: Config, b: Batch, fed: seq<seq<Token>>, i: nat)
    requires BatchOk(c, b, fed) && i < |b.seqs|
    requires WellShaped(c, Decode(c, b))
    ensures RowAt(c, Decode(c, b), FedAfter(b, fed), i)
    ensures NextLanes(c, b)[i].row.positions == [|fed[i]|]
  {
    hide Decode, NextLanes, RowOk, Lawful, EmitOne, SampleRow, PlainLogits, RowLogits, Present, Fits;
    assert RowAt(c, b, fed, i);
    DecodeRowValues(c, b, i);
    NextRow(c, RowOf(b.cache, i), b.mask[i], fed[i], b.next[i]);
    var s := b.seqs[i];
    if !s.Finished() {
      assert fed[i] + [b.next[i]] == s.prompt + s.output;
    }
    EmitKeepsSeqOk(c, s, Decode(c, b).next[i], fed[i] + [b.next[i]]);
  }

  /** A decode step keeps the invariant: every row, finished or not, has been fed one more token. */
  lemma DecodeOk(c: Config, b: Batch, fed: seq<seq<Token>>)
    requires BatchOk(c, b, fed)
    ensures BatchOk(c, Decode(c, b), FedAfter(b, fed))
  {
    DecodeShape(c, b);
    forall i | 0 <= i < |b.seqs|
      ensures RowAt(c, Decode(c, b), FedAfter(b, fed), i)
    {
      DecodeRow(c, b, fed, i);
    }
    if b.seqs != [] {
      var i :| 0 <= i < |fed| && |fed[i]| == Width(b);
      assert |FedAfter(b, fed)[i]| == Width(Decode(c, b));
    }
  }

  // ------------------------------------------------------------------
  // Eviction
  // ------------------------------------------------------------------

  lemma {:induction false} LeadingBlanksOf(b: Batch, fed: seq<seq<Token>>, longest: nat, n: nat)
    requires |fed| == |b.mask| && b.mask != []
    requires forall i :: 0 <= i < |b.mask| ==>
               |fed[i]| <= longest <= Width(b) == |b.mask[i]| && b.mask[i] == LeftMask(Width(b), |fed[i]|)
    requires exists i :: 0 <= i < |fed| && |fed[i]| == longest
    requires n <= Width(b)
    ensures LeadingBlanks(b.mask, n) == Min(n, Width(b) - longest)
  {
    if n > 0 {
      LeadingBlanksOf(b, fed, longest, n - 1);
      forall i | 0 <= i < |b.mask|
        ensures Count(b.mask[i][..n]) == if n <= Width(b) - |fed[i]| then 0 else n - (Width(b) - |fed[i]|)
      {
        LeftMaskCount(Width(b), |fed[i]|, n);
      }
      var top :| 0 <= top < |fed| && |fed[top]| == longest;
      assert n > Width(b) - longest ==> Count(b.mask[top][..n]) != 0;
      assert LeadingBlank(b.mask, n - 1) <==> n <= Width(b) - longest;
    }
  }

  /** Compaction removes exactly the left padding shared by every
      row: no real column is dropped and the result is tight. */
  lemma CompactOk(c: Config, b: Batch, fed: seq<seq<Token>>)
    requires WellShaped(c, b) && |fed| == |b.seqs|
    requires forall i :: 0 <= i < |b.seqs| ==> RowAt(c, b, fed, i)
    ensures BatchOk(c, Compact(c, b), fed)
    ensures b.seqs != [] ==> Width(Compact(c, b)) == MaxLength(fed)
  {
    if b.seqs != [] {
      var longest, w := MaxLength(fed), Width(b);
      forall i | 0 <= i < |b.mask|
        ensures |fed[i]| <= longest <= w && b.mask[i] == LeftMask(w, |fed[i]|)
      {
        assert RowAt(c, b, fed, i);
        var top :| 0 <= top < |fed| && |fed[top]| == longest;
        assert RowAt(c, b, fed, top);
      }
      LeadingBlanksOf(b, fed, longest, w);
      var lead := w - longest;
      var after := Compact(c, b);
      CompactShape(c, b, lead);
      forall i | 0 <= i < |b.seqs|
        ensures RowAt(c, after, fed, i)
      {
        CompactRow(c, b, fed, lead, i);
      }
    }
  }

  lemma CompactShape(c: Config, b: Batch, lead: nat)
    requires WellShaped(c, b) && b.seqs != []
    requires lead == LeadingBlanks(b.mask, Width(b))
    ensures WellShaped(c, Compact(c, b)) && Width(Compact(c, b)) == Width(b) - lead
    ensures |Compact(c, b).cache| == |b.cache|
    ensures forall l, i :: 0 <= l < |b.cache| && 0 <= i < |b.cache[l]| ==>
              lead <= |b.cache[l][i]| && i < |Compact(c, b).cache[l]|
                && Compact(c, b).cache[l][i] == b.cache[l][i][lead..]
  {
    ShapedWidths(b.cache, c.model.layers, |b.seqs|, Width(b));
    if lead > 0 {
      var dropped := DropColumns(b.cache, lead);
      forall l | 0 <= l < c.model.layers
        ensures LayerShaped(dropped[l], |b.seqs|, Width(b) - lead)
      {
      }
    }
  }

  lemma CompactRow(c: Config, b: Batch, fed: seq<seq<Token>>, lead: nat, i: nat)
    requires WellShaped(c, b) && |fed| == |b.seqs| && i < |b.seqs|
    requires RowAt(c, b, fed, i)
    requires lead == LeadingBlanks(b.mask, Width(b)) && lead + |fed[i]| <= Width(b)
    ensures WellShaped(c, Compact(c, b)) && RowAt(c, Compact(c, b), fed, i)
  {
    hide Lawful, Aligned, LeadingBlanks, Represents;
    CompactShape(c, b, lead);
    ShapedWidths(b.cache, c.model.layers, |b.seqs|, Width(b));
    var after := Compact(c, b);
    var past, past' := RowOf(b.cache, i), RowOf(after.cache, i);
    forall l | 0 <= l < c.model.layers
      ensures |past'[l]| == Width(b) - lead && |past[l]| == Width(b)
      ensures past'[l][Width(b) - lead - |fed[i]|..] == past[l][Width(b) - |fed[i]|..]
    {
      assert past'[l] == b.cache[l][i][lead..];
    }
    RowReframed(c, past, b.mask[i], fed[i], past', Width(b) - lead);
    assert after.mask[i] == b.mask[i][lead..];
    assert after.mask[i] == LeftMask(Width(b) - lead, |fed[i]|);
  }

  lemma SurvivorRow(c: Config, b: Batch, fed: seq<seq<Token>>, j: nat)
    requires BatchOk(c, b, fed)
    requires j < |RowsWhere(b.seqs, false)|
    ensures RowAt(c, Survivors(c, b), Select(fed, RowsWhere(b.seqs, false)), j)
    ensures Survivors(c, b).seqs[j] == b.seqs[RowsWhere(b.seqs, false)[j]]
  {
    var keep := RowsWhere(b.seqs, false);
    var after := Survivors(c, b);
    ShapedWidths(b.cache, c.model.layers, |b.seqs|, Width(b));
    assert RowAt(c, b, fed, keep[j]);
    assert RowOf(after.cache, j) == RowOf(b.cache, keep[j]);
  }

  function FedAfterEvict(b: Batch, fed: seq<seq<Token>>): seq<seq<Token>>
    requires |fed| == |b.seqs|
  {
    if Done(b) == [] then fed else Select(fed, RowsWhere(b.seqs, false))
  }

  /** Eviction keeps the invariant; what leaves is exactly the
      finished sequences and what stays exactly the others, in order. */
  lemma EvictOk(c: Config, b: Batch, fed: seq<seq<Token>>)
    requires BatchOk(c, b, fed)
    ensures BatchOk(c, Evict(c, b), FedAfterEvict(b, fed))
    ensures Evict(c, b).seqs == Select(b.seqs, RowsWhere(b.seqs, false))
    ensures forall i :: 0 <= i < |Evict(c, b).seqs| ==> !Evict(c, b).seqs[i].Finished()
  {
    var keep := RowsWhere(b.seqs, false);
    if Done(b) == [] {
      forall i | 0 <= i < |b.seqs|
        ensures !b.seqs[i].Finished()
      {
        if b.seqs[i].Finished() {
          RowsWhereComplete(b.seqs, true, i);
        }
      }
      AllRows(b.seqs, false);
      assert Select(b.seqs, keep) == b.seqs;
    } else {
      var fed' := Select(fed, keep);
      forall j | 0 <= j < |keep|
        ensures RowAt(c, Survivors(c, b), fed', j)
      {
        SurvivorRow(c, b, fed, j);
      }
      CompactOk(c, Survivors(c, b), fed');
    }
  }

  lemma {:induction false} AllRows(seqs: seq<Sequence>, finished: bool)
    requires forall i :: 0 <= i < |seqs| ==> seqs[i].Finished() == finished
    ensures |RowsWhere(seqs, finished)| == |seqs|
    ensures forall i :: 0 <= i < |seqs| ==> RowsWhere(seqs, finished)[i] == i
  {
    if seqs != [] {
      AllRows(seqs[..|seqs| - 1], finished);
    }
  }

  lemma {:induction false} NoRows(seqs: seq<Sequence>, finished: bool)
    requires forall i :: 0 <= i < |seqs| ==> seqs[i].Finished() != finished
    ensures RowsWhere(seqs, finished) == []
  {
    if seqs != [] {
      NoRows(seqs[..|seqs| - 1], finished);
    }
  }

  // ------------------------------------------------------------------
  // Admission
  // ------------------------------------------------------------------

  lemma SpliceShape(c: Config, b: Batch, f: Batch)
    requires 0 < c.model.layers
    requires WellShaped(c, b) && WellShaped(c, f) && b.seqs != [] && f.seqs != []
    ensures WellShaped(c, Splice(c, b, f)) && Width(Splice(c, b, f)) == Max(Width(b), Width(f))
  {
    StackedShape(b.cache, f.cache, c.model.layers, |b.seqs|, |f.seqs|, Width(b), Width(f));
  }

  /** Row `i` of `after` is row `k` of `from`, padded to the new width. */
  ghost predicate PaddedFrom(m: Model, from: Batch, k: nat, after: Batch, i: nat)
    requires k < |from.mask| == |from.seqs| == |from.next| && i < |after.mask| == |after.seqs| == |after.next|
    requires forall l :: 0 <= l < |from.cache| ==> k < |from.cache[l]|
    requires forall l :: 0 <= l < |after.cache| ==> i < |after.cache[l]|
  {
    && |from.mask[k]| == Width(from) <= Width(after)
    && after.mask[i] == PadMask(from.mask[k], Width(after))
    && after.seqs[i] == from.seqs[k] && after.next[i] == from.next[k]
    && |RowOf(after.cache, i)| == |RowOf(from.cache, k)| == m.layers
    && forall l :: 0 <= l < m.layers ==>
         |RowOf(from.cache, k)[l]| == Width(from) &&
         RowOf(after.cache, i)[l] == PadRow(RowOf(from.cache, k)[l], Width(after) - Width(from))
  }

  lemma ShapeOf(c: Config, b: Batch)
    requires WellShaped(c, b) && b.seqs != []
    ensures Shaped(b.cache, c.model.layers, |b.seqs|, Width(b))
    ensures |b.mask| == |b.seqs| == |b.next| && forall i :: 0 <= i < |b.mask| ==> |b.mask[i]| == Width(b)
    ensures |b.cache| == c.model.layers && forall l :: 0 <= l < |b.cache| ==> |b.cache[l]| == |b.seqs|
    ensures forall l, i :: 0 <= l < |b.cache| && 0 <= i < |b.cache[l]| ==> |b.cache[l][i]| == Width(b)
  {
    ShapedWidths(b.cache, c.model.layers, |b.seqs|, Width(b));
  }

  lemma SplicePart(c: Config, b: Batch, f: Batch, i: nat)
    requires 0 < c.model.layers
    requires WellShaped(c, b) && WellShaped(c, f) && b.seqs != [] && f.seqs != []
    requires i < |b.seqs| + |f.seqs|
    ensures WellShaped(c, Splice(c, b, f)) && Splice(c, b, f).seqs == b.seqs + f.seqs
    ensures forall l :: 0 <= l < |b.cache| ==> |b.cache[l]| == |b.seqs|
    ensures forall l :: 0 <= l < |f.cache| ==> |f.cache[l]| == |f.seqs|
    ensures forall l :: 0 <= l < |Splice(c, b, f).cache| ==> |Splice(c, b, f).cache[l]| == |b.seqs| + |f.seqs|
    ensures i < |b.seqs| ==> PaddedFrom(c.model, b, i, Splice(c, b, f), i)
    ensures i >= |b.seqs| ==> PaddedFrom(c.model, f, i - |b.seqs|, Splice(c, b, f), i)
  {
    hide WellShaped, Shaped, Stacked, PadMask, PadRow;
    SpliceShape(c, b, f);
    ShapeOf(c, b);
    ShapeOf(c, f);
    ShapeOf(c, Splice(c, b, f));
    StackedShape(b.cache, f.cache, c.model.layers, |b.seqs|, |f.seqs|, Width(b), Width(f));
  }

  /** Padding a sound row keeps it sound. */
  lemma PaddedRow(c: Config, past: Past, mask: seq<bool>, fed: seq<Token>, past': Past, width: nat)
    requires RowOk(c, past, mask, fed) && |mask| <= width
    requires |past'| == c.model.layers
    requires forall l :: 0 <= l < c.model.layers ==> |past[l]| == |mask| && past'[l] == PadRow(past[l], width - |mask|)
    ensures RowOk(c, past', PadMask(mask, width), fed)
  {
    forall l | 0 <= l < c.model.layers
      ensures |past'[l]| == width && past'[l][width - |fed|..] == past[l][|mask| - |fed|..]
    {
    }
    RowReframed(c, past, mask, fed, past', width);
    assert PadMask(mask, width) == LeftMask(width, |fed|);
  }

  lemma SpliceRow(c: Config, b: Batch, fb: seq<seq<Token>>, f: Batch, ff: seq<seq<Token>>, i: nat)
    requires 0 < c.model.layers
    requires BatchOk(c, b, fb) && BatchOk(c, f, ff) && b.seqs != [] && f.seqs != []
    requires i < |b.seqs| + |f.seqs|
    requires WellShaped(c, Splice(c, b, f))
    ensures RowAt(c, Splice(c, b, f), fb + ff, i)
  {
    hide Splice, RowOk, Lawful, Aligned, PadRow, PadMask;
    var after := Splice(c, b, f);
    SplicePart(c, b, f, i);
    if i < |b.seqs| {
      assert RowAt(c, b, fb, i);
      PaddedRow(c, RowOf(b.cache, i), b.mask[i], fb[i], RowOf(after.cache, i), Width(after));
    } else {
      var k := i - |b.seqs|;
      assert RowAt(c, f, ff, k);
      PaddedRow(c, RowOf(f.cache, k), f.mask[k], ff[k], RowOf(after.cache, i), Width(after));
    }
  }

  function FedAfterAdmit(fed: seq<seq<Token>>, newcomers: seq<Sequence>): seq<seq<Token>> {
    fed + Prompts(newcomers)
  }

  /** Admission keeps the invariant, for the rows already running and for the newcomers. */
  lemma AdmitOk(c: Config, b: Batch, fed: seq<seq<Token>>, newcomers: seq<Sequence>)
    requires 0 < c.model.layers
    requires BatchOk(c, b, fed)
    requires forall i :: 0 <= i < |newcomers| ==> Fresh(newcomers[i])
    ensures Prompted(newcomers)
    ensures BatchOk(c, Admit(c, b, newcomers), FedAfterAdmit(fed, newcomers))
    ensures Admit(c, b, newcomers).seqs == b.seqs + Prefill(c, newcomers).seqs
  {
    hide BatchOk, WellShaped, Prefill, Splice;
    BatchSizes(c, b, fed);
    PrefillOk(c, newcomers);
    PrefillShape(c, newcomers);
    var f := Prefill(c, newcomers);
    if newcomers == [] {
      assert fed + Prompts(newcomers) == fed && b.seqs + [] == b.seqs;
    } else if b.seqs == [] {
      assert fed + Prompts(newcomers) == Prompts(newcomers) && b.seqs + f.seqs == f.seqs;
    } else {
      SpliceOk(c, b, fed, f, Prompts(newcomers));
    }
  }

  /** Splicing two sound batches gives a sound batch. */
  lemma SpliceOk(c: Config, b: Batch, fb: seq<seq<Token>>, f: Batch, ff: seq<seq<Token>>)
    requires 0 < c.model.layers
    requires BatchOk(c, b, fb) && BatchOk(c, f, ff) && b.seqs != [] && f.seqs != []
    ensures WellShaped(c, b) && WellShaped(c, f)
    ensures BatchOk(c, Splice(c, b, f), fb + ff) && Splice(c, b, f).seqs == b.seqs + f.seqs
  {
    BatchSizes(c, b, fb);
    BatchSizes(c, f, ff);
    hide WellShaped, RowAt, Tight;
    SpliceShape(c, b, f);
    forall i | 0 <= i < |b.seqs| + |f.seqs|
      ensures RowAt(c, Splice(c, b, f), fb + ff, i)
    {
      SpliceRow(c, b, fb, f, ff, i);
    }
    SpliceShape(c, b, f);
    var i :| 0 <= i < |fb| && |fb[i]| == Width(b);
    var j :| 0 <= j < |ff| && |ff[j]| == Width(f);
    assert (fb + ff)[i] == fb[i] && (fb + ff)[|fb| + j] == ff[j];
  }

  // ------------------------------------------------------------------
  // Abandonment
  // ------------------------------------------------------------------

  /** The sequence with this id as its caller's departure leaves it: a reason already given stays. */
  function MarkOne(s: Sequence, id: nat): Sequence {
    if s.id == id && !s.Finished() then s.(reason := Some(Abandoned)) else s
  }

  function MarkAll(seqs: seq<Sequence>, id: nat): seq<Sequence> {
    seq(|seqs|, i requires 0 <= i < |seqs| => MarkOne(seqs[i], id))
  }

  function MarkBatch(b: Batch, id: nat): Batch {
    b.(seqs := MarkAll(b.seqs, id))
  }

  /** Marking a row finished between two steps disturbs nothing. */
  lemma MarkOk(c: Config, b: Batch, fed: seq<seq<Token>>, id: nat)
    requires BatchOk(c, b, fed)
    ensures BatchOk(c, MarkBatch(b, id), fed)
  {
    forall i | 0 <= i < |b.seqs|
      ensures RowAt(c, MarkBatch(b, id), fed, i)
    {
      assert RowAt(c, b, fed, i);
    }
  }

  // ------------------------------------------------------------------
  // Admit, then evict
  // ------------------------------------------------------------------

  /** If every newcomer finishes on its first token, admitting and evicting gives back the batch: cache (masked slots
      included), mask, pending tokens and row order. */
  lemma AdmitThenEvict(c: Config, b: Batch, fed: seq<seq<Token>>, newcomers: seq<Sequence>)
    requires 0 < c.model.layers
    requires BatchOk(c, b, fed) && b.seqs != []
    requires forall i :: 0 <= i < |b.seqs| ==> !b.seqs[i].Finished()
    requires newcomers != [] && Prompted(newcomers) && forall i :: 0 <= i < |newcomers| ==> Fresh(newcomers[i])
    requires forall i :: 0 <= i < |newcomers| ==> Prefill(c, newcomers).seqs[i].Finished()
    ensures WellShaped(c, Admit(c, b, newcomers))
    ensures Evict(c, Admit(c, b, newcomers)) == b
    ensures Done(Admit(c, b, newcomers)) == Prefill(c, newcomers).seqs
  {
    PrefillOk(c, newcomers);
    SpliceThenEvict(c, b, fed, Prefill(c, newcomers));
  }

  lemma SpliceThenEvict(c: Config, b: Batch, fed: seq<seq<Token>>, f: Batch)
    requires 0 < c.model.layers
    requires BatchOk(c, b, fed) && b.seqs != [] && WellShaped(c, f) && f.seqs != []
    requires forall i :: 0 <= i < |b.seqs| ==> !b.seqs[i].Finished()
    requires forall i :: 0 <= i < |f.seqs| ==> f.seqs[i].Finished()
    ensures WellShaped(c, Splice(c, b, f))
    ensures Evict(c, Splice(c, b, f)) == b && Done(Splice(c, b, f)) == f.seqs
  {
    hide BatchOk, WellShaped, RowsWhere, Survivors, Compact, Splice, Evict, Done;
    BatchSizes(c, b, fed);
    SpliceDone(c, b, f);
    SpliceSurvivors(c, b, f);
    PaddedThenCompact(c, b, fed, Survivors(c, Splice(c, b, f)));
  }

  lemma SpliceDone(c: Config, b: Batch, f: Batch)
    requires 0 < c.model.layers
    requires WellShaped(c, b) && b.seqs != [] && WellShaped(c, f) && f.seqs != []
    requires forall i :: 0 <= i < |b.seqs| ==> !b.seqs[i].Finished()
    requires forall i :: 0 <= i < |f.seqs| ==> f.seqs[i].Finished()
    ensures WellShaped(c, Splice(c, b, f)) && Done(Splice(c, b, f)) == f.seqs
    ensures Evict(c, Splice(c, b, f)) == Compact(c, Survivors(c, Splice(c, b, f)))
  {
    SpliceShape(c, b, f);
    SplitRows(b.seqs, f.seqs);
    assert Splice(c, b, f).seqs == b.seqs + f.seqs;
    assert Done(Splice(c, b, f)) == f.seqs;
  }

  lemma SpliceSurvivors(c: Config, b: Batch, f: Batch)
    requires 0 < c.model.layers
    requires WellShaped(c, b) && b.seqs != [] && WellShaped(c, f) && f.seqs != []
    requires forall i :: 0 <= i < |b.seqs| ==> !b.seqs[i].Finished()
    requires forall i :: 0 <= i < |f.seqs| ==> f.seqs[i].Finished()
    ensures WellShaped(c, Splice(c, b, f))
    ensures var mid := Survivors(c, Splice(c, b, f));
            && Width(b) <= Width(mid)
            && mid.seqs == b.seqs && mid.next == b.next && mid.mask == PadMasks(b.mask, Width(mid))
            && (forall l, i :: 0 <= l < |mid.cache| && 0 <= i < |mid.cache[l]| ==>
               Width(mid) - Width(b) <= |mid.cache[l][i]|)
            && DropColumns(mid.cache, Width(mid) - Width(b)) == b.cache
  {
    hide WellShaped, Shaped, Stacked, SelectRows, DropColumns, RowsWhere, PadMask;
    SpliceShape(c, b, f);
    SplitRows(b.seqs, f.seqs);
    ShapeOf(c, b);
    ShapeOf(c, f);
    var n, big := |b.seqs|, Splice(c, b, f);
    var keep := RowsWhere(big.seqs, false);
    var mid := Survivors(c, big);
    StackThenKeep(b.cache, f.cache, c.model.layers, n, |f.seqs|, Width(b), Width(f), keep);
    assert mid.seqs == b.seqs && mid.next == b.next;
    assert mid.mask == PadMasks(b.mask, Width(big));
    ShapeOf(c, mid);
  }

  /** Compaction undoes left padding of a tight batch. */
  lemma PaddedThenCompact(c: Config, b: Batch, fed: seq<seq<Token>>, mid: Batch)
    requires BatchOk(c, b, fed) && b.seqs != [] && WellShaped(c, mid)
    requires Width(b) <= Width(mid)
    requires mid.seqs == b.seqs && mid.next == b.next && mid.mask == PadMasks(b.mask, Width(mid))
    requires forall l, i :: 0 <= l < |mid.cache| && 0 <= i < |mid.cache[l]| ==>
             Width(mid) - Width(b) <= |mid.cache[l][i]|
    requires DropColumns(mid.cache, Width(mid) - Width(b)) == b.cache
    ensures Compact(c, mid) == b
  {
    var w, pad := Width(mid), Width(mid) - Width(b);
    forall i | 0 <= i < |b.seqs|
      ensures |b.mask| == |mid.mask| == |fed| == |b.seqs| && |fed[i]| <= Width(b) && |mid.mask[i]| == w
      ensures mid.mask[i] == LeftMask(w, |fed[i]|) && mid.mask[i][pad..] == b.mask[i]
    {
      PaddedMask(c, b, fed, mid, i);
    }
    BatchSizes(c, b, fed);
    hide BatchOk, WellShaped, DropColumns, PadMasks, Shaped;
    LeadingBlanksOf(mid, fed, Width(b), w);
    if pad == 0 {
      NothingDropped(mid.cache);
      assert forall i :: 0 <= i < |b.seqs| ==> mid.mask[i][0..] == mid.mask[i];
      assert mid.mask == b.mask;
    } else {
      assert Compact(c, mid).mask == b.mask;
    }
  }

  /** A padded row of a sound batch is still left-padded, and cutting the padding gives back its mask. */
  lemma PaddedMask(c: Config, b: Batch, fed: seq<seq<Token>>, mid: Batch, i: nat)
    requires BatchOk(c, b, fed) && i < |b.seqs| && Width(b) <= Width(mid)
    requires |b.mask| == |b.seqs| && (forall i :: 0 <= i < |b.mask| ==> |b.mask[i]| == Width(b))
    requires mid.mask == PadMasks(b.mask, Width(mid))
    ensures |fed| == |b.seqs| && |fed[i]| <= Width(b)
    ensures mid.mask[i] == LeftMask(Width(mid), |fed[i]|) && mid.mask[i][Width(mid) - Width(b)..] == b.mask[i]
  {
    hide Represents, SeqOk, Shaped;
    assert RowAt(c, b, fed, i);
    assert mid.mask[i] == PadMask(b.mask[i], Width(mid));
  }

  lemma NothingDropped(cache: Cache)
    ensures DropColumns(cache, 0) == cache
  {
    var same := DropColumns(cache, 0);
    forall l | 0 <= l < |cache|
      ensures same[l] == cache[l]
    {
      forall i | 0 <= i < |cache[l]|
        ensures same[l][i] == cache[l][i]
      {
      }
    }
  }

  /** In a stack of unfinished rows over finished ones, the first part stays and the second leaves. */
  lemma {:induction false} SplitRows(stay: seq<Sequence>, leave: seq<Sequence>)
    requires forall i :: 0 <= i < |stay| ==> !stay[i].Finished()
    requires forall i :: 0 <= i < |leave| ==> leave[i].Finished()
    ensures |RowsWhere(stay + leave, false)| == |stay| && |RowsWhere(stay + leave, true)| == |leave|
    ensures forall j :: 0 <= j < |stay| ==> RowsWhere(stay + leave, false)[j] == j
    ensures forall j :: 0 <= j < |leave| ==> RowsWhere(stay + leave, true)[j] == |stay| + j
  {
    if leave == [] {
      assert stay + leave == stay;
      AllRows(stay, false);
      NoRows(stay, true);
    } else {
      var n := |leave| - 1;
      assert (stay + leave)[..|stay| + n] == stay + leave[..n];
      SplitRows(stay, leave[..n]);
    }
  }
}
