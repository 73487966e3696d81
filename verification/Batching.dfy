/** What the engine's operations compute: prefill, decode, evict and admit over a left-padded batch. */
module Batching {
  import opened Options
  import opened Masks
  import opened Transformer
  import opened Sampling
  import opened KvCache

  datatype Reason = Stop | Length | Abandoned

  /** One generation request as the engine sees it. */
  datatype Sequence = Sequence(
    id: nat, prompt: seq<Token>, params: Params, output: seq<Token>, reason: Option<Reason>) {
    predicate Finished() { reason.Some? }
  }

  /** Parallel lists: per sequence one mask, one pending token, and one row of every cache layer. */
  datatype Batch = Batch(seqs: seq<Sequence>, cache: Cache, mask: seq<seq<bool>>, next: seq<Token>)

  const EMPTY: Batch := Batch([], [], [], [])

  /** The engine's fixed parts: weights, sampler, special tokens, context window and the `max_new_tokens` setting. */
  datatype Config = Config(
    model: Model, sampler: Sampler, eos: Token, pad: Token, maxContext: nat, maxNewTokens: int)

  /** Keep the last `maxContext - 1` tokens; an empty prompt is seeded with EOS. */
  function Encode(c: Config, ids: seq<Token>): seq<Token> {
    var seeded := if ids == [] then [c.eos] else ids;
    // The slice `[-(n):]` of a list keeps everything when n is 0.
    var start := if c.maxContext == 0 then 1
                 else if c.maxContext == 1 then 0
                 else |seeded| - (c.maxContext - 1);
    seeded[if start < 0 then 0 else if start > |seeded| then |seeded| else start..]
  }

  /** A prompt is non-empty and below the context window, whatever
      the ids, exactly when the window has two tokens or more. */
  lemma EncodeLeavesRoom(c: Config, ids: seq<Token>)
    ensures 1 <= |Encode(c, ids)| < c.maxContext <==> 2 <= c.maxContext
    ensures 2 <= c.maxContext && ids != [] ==> Encode(c, ids) <= ids[|ids| - |Encode(c, ids)|..]
  {
  }

  // ------------------------------------------------------------------
  // Emission
  // ------------------------------------------------------------------

  /** The stopping rules, applied to the last of `output`. */
  function StopRule(c: Config, params: Params, prompt: seq<Token>, output: seq<Token>): Option<Reason>
    requires output != []
  {
    if output[|output| - 1] == c.eos then Some(Stop)
    else if |output| >= params.maxTokens then Some(Length)
    else if |prompt| + |output| >= c.maxContext then Some(Length)
    else None
  }

  /** One more token and its stopping rule for an unfinished sequence; a finished one as it is. */
  function EmitOne(c: Config, s: Sequence, token: Token): Sequence {
    if s.Finished() then s
    else s.(output := s.output + [token], reason := StopRule(c, s.params, s.prompt, s.output + [token]))
  }

  function EmitAll(c: Config, seqs: seq<Sequence>, tokens: seq<Token>): seq<Sequence>
    requires |tokens| == |seqs|
  {
    seq(|seqs|, i requires 0 <= i < |seqs| => EmitOne(c, seqs[i], tokens[i]))
  }

  function ParamsOf(seqs: seq<Sequence>): seq<Params> {
    seq(|seqs|, i requires 0 <= i < |seqs| => seqs[i].params)
  }

  function Emit(c: Config, b: Batch, logits: seq<Logits>): Batch
    requires |logits| == |b.seqs|
  {
    var tokens := SampleEach(c.sampler, logits, ParamsOf(b.seqs));
    b.(seqs := EmitAll(c, b.seqs, tokens), next := tokens)
  }

  // ------------------------------------------------------------------
  // The model, one row at a time
  // ------------------------------------------------------------------

  /** Row `i` of one pass: its cached slots and the columns to compute. */
  datatype Lane = Lane(past: Past, row: Row)

  ghost predicate LaneFits(m: Model, lane: Lane) {
    Fits(m, lane.past, lane.row) && lane.row.tokens != []
  }

  function ForwardCache(m: Model, lanes: seq<Lane>): (cache: Cache)
    requires forall i :: 0 <= i < |lanes| ==> LaneFits(m, lanes[i])
    ensures |cache| == m.layers
    ensures forall l :: 0 <= l < |cache| ==> |cache[l]| == |lanes|
  {
    seq(m.layers, l requires 0 <= l < m.layers =>
      seq(|lanes|, i requires 0 <= i < |lanes| =>
        assert LaneFits(m, lanes[i]); Slots(m, lanes[i].past, lanes[i].row, l)))
  }

  function ForwardLogits(m: Model, lanes: seq<Lane>): (logits: seq<Logits>)
    requires forall i :: 0 <= i < |lanes| ==> LaneFits(m, lanes[i])
    ensures |logits| == |lanes|
  {
    seq(|lanes|, i requires 0 <= i < |lanes| =>
      assert LaneFits(m, lanes[i]); RowLogits(m, lanes[i].past, lanes[i].row))
  }

  // ------------------------------------------------------------------
  // Prefill and decode
  // ------------------------------------------------------------------

  function Prompts(seqs: seq<Sequence>): seq<seq<Token>> {
    seq(|seqs|, i requires 0 <= i < |seqs| => seqs[i].prompt)
  }

  function NoPast(m: Model): Past {
    seq(m.layers, _ => [])
  }

  function PromptLane(c: Config, prompt: seq<Token>, width: nat): Lane
    requires |prompt| <= width
  {
    var mask := LeftMask(width, |prompt|);
    Lane(NoPast(c.model), Row(PadIds(prompt, c.pad, width), Positions(mask), mask))
  }

  /** The lanes of a prefill: every prompt padded to the longest. */
  function PromptLanes(c: Config, seqs: seq<Sequence>): (lanes: seq<Lane>)
    ensures |lanes| == |seqs|
  {
    var width := MaxLength(Prompts(seqs));
    seq(|seqs|, i requires 0 <= i < |seqs| =>
      assert |Prompts(seqs)[i]| <= width; PromptLane(c, seqs[i].prompt, width))
  }

  ghost predicate Prompted(seqs: seq<Sequence>) {
    forall i :: 0 <= i < |seqs| ==> seqs[i].prompt != []
  }

  /** The batch after prefilling: the slots of every lane, and one token emitted per unfinished sequence. */
  function Prefill(c: Config, seqs: seq<Sequence>): (b: Batch)
    requires Prompted(seqs)
    ensures |b.seqs| == |seqs|
  {
    if seqs == [] then EMPTY
    else
      var lanes := PromptLanes(c, seqs);
      PromptLanesFit(c, seqs);
      var masks := seq(|lanes|, i requires 0 <= i < |lanes| => lanes[i].row.mask);
      Emit(c, Batch(seqs, ForwardCache(c.model, lanes), masks, []), ForwardLogits(c.model, lanes))
  }

  lemma PromptLanesFit(c: Config, seqs: seq<Sequence>)
    requires Prompted(seqs)
    ensures forall i :: 0 <= i < |seqs| ==> LaneFits(c.model, PromptLanes(c, seqs)[i])
  {
    forall i | 0 <= i < |seqs|
      ensures LaneFits(c.model, PromptLanes(c, seqs)[i])
    {
      assert |Prompts(seqs)[i]| <= MaxLength(Prompts(seqs));
    }
  }

  function Width(b: Batch): nat {
    if b.mask == [] then 0 else |b.mask[0]|
  }

  /** The representation invariant stated in the source, with the widths spelled out. */
  ghost predicate WellShaped(c: Config, b: Batch) {
    && |b.mask| == |b.next| == |b.seqs|
    && (b.seqs == [] ==> b == EMPTY)
    && (b.seqs != [] ==> Shaped(b.cache, c.model.layers, |b.seqs|, Width(b)))
    && forall i :: 0 <= i < |b.mask| ==> |b.mask[i]| == Width(b)
  }

  /** Row `i` of a decode step: its pending token, as one more real column at position `Count` of the mask so far. */
  function NextLane(b: Batch, i: nat): Lane
    requires i < |b.mask| == |b.next|
    requires forall l :: 0 <= l < |b.cache| ==> i < |b.cache[l]|
  {
    var mask := b.mask[i] + [true];
    CountConcat(b.mask[i], [true]);
    Lane(RowOf(b.cache, i), Row([b.next[i]], [Count(mask) - 1], mask))
  }

  function NextLanes(c: Config, b: Batch): (lanes: seq<Lane>)
    requires WellShaped(c, b)
    ensures |lanes| == |b.seqs|
    ensures forall i :: 0 <= i < |lanes| ==> LaneFits(c.model, lanes[i])
  {
    NextLanesFit(c, b);
    seq(|b.seqs|, i requires 0 <= i < |b.seqs| => NextLane(b, i))
  }

  lemma NextLanesFit(c: Config, b: Batch)
    requires WellShaped(c, b)
    ensures forall l :: 0 <= l < |b.cache| ==> |b.cache[l]| == |b.seqs|
    ensures forall i :: 0 <= i < |b.seqs| ==> LaneFits(c.model, NextLane(b, i))
  {
    if b.seqs != [] {
      ShapedWidths(b.cache, c.model.layers, |b.seqs|, Width(b));
    }
  }

  /** The batch after a decode step: one more column in every row, and one token emitted per unfinished sequence. */
  function Decode(c: Config, b: Batch): (after: Batch)
    requires WellShaped(c, b)
    ensures |after.seqs| == |b.seqs|
  {
    if b.seqs == [] then b
    else
      var lanes := NextLanes(c, b);
      var masks := seq(|lanes|, i requires 0 <= i < |lanes| => lanes[i].row.mask);
      Emit(c, Batch(b.seqs, ForwardCache(c.model, lanes), masks, b.next), ForwardLogits(c.model, lanes))
  }

  // ------------------------------------------------------------------
  // Eviction
  // ------------------------------------------------------------------

  /** The rows, in order, whose sequences are finished (or not). */
  function RowsWhere(seqs: seq<Sequence>, finished: bool): (rows: seq<nat>)
    ensures forall j :: 0 <= j < |rows| ==> rows[j] < |seqs| && seqs[rows[j]].Finished() == finished
    ensures forall i, j :: 0 <= i < j < |rows| ==> rows[i] < rows[j]
  {
    if seqs == [] then []
    else
      var n := |seqs| - 1;
      RowsWhere(seqs[..n], finished) + if seqs[n].Finished() == finished then [n] else []
  }

  lemma {:induction false} RowsWhereComplete(seqs: seq<Sequence>, finished: bool, i: nat)
    requires i < |seqs| && seqs[i].Finished() == finished
    ensures i in RowsWhere(seqs, finished)
  {
    if i < |seqs| - 1 {
      RowsWhereComplete(seqs[..|seqs| - 1], finished, i);
    }
  }

  /** Column `c` and everything before it is padding in every row. */
  predicate LeadingBlank(mask: seq<seq<bool>>, c: nat)
    requires forall i :: 0 <= i < |mask| ==> c < |mask[i]|
  {
    forall i :: 0 <= i < |mask| ==> Count(mask[i][..c + 1]) == 0
  }

  /** How many of the first `n` columns are leading blanks. */
  function LeadingBlanks(mask: seq<seq<bool>>, n: nat): (lead: nat)
    requires forall i :: 0 <= i < |mask| ==> n <= |mask[i]|
    ensures lead <= n
  {
    if n == 0 then 0 else LeadingBlanks(mask, n - 1) + if LeadingBlank(mask, n - 1) then 1 else 0
  }

  /** The batch without its leading blanks. */
  function Compact(c: Config, b: Batch): (after: Batch)
    requires WellShaped(c, b)
    ensures after.seqs == b.seqs
  {
    if b.seqs == [] then b
    else
      var lead := LeadingBlanks(b.mask, Width(b));
      if lead == 0 then b
      else
        ShapedWidths(b.cache, c.model.layers, |b.seqs|, Width(b));
        b.(mask := seq(|b.mask|, i requires 0 <= i < |b.mask| => b.mask[i][lead..]),
           cache := DropColumns(b.cache, lead))
  }

  lemma ShapedWidths(cache: Cache, layers: nat, rows: nat, width: nat)
    requires Shaped(cache, layers, rows, width)
    ensures forall l, i :: 0 <= l < |cache| && 0 <= i < |cache[l]| ==> |cache[l][i]| == width
    ensures forall l :: 0 <= l < |cache| ==> |cache[l]| == rows
  {
    forall l | 0 <= l < |cache|
      ensures |cache[l]| == rows && forall i :: 0 <= i < |cache[l]| ==> |cache[l][i]| == width
    {
      assert LayerShaped(cache[l], rows, width);
    }
  }

  /** The survivors before compaction. */
  function Survivors(c: Config, b: Batch): (after: Batch)
    requires WellShaped(c, b)
    ensures WellShaped(c, after)
  {
    var keep := RowsWhere(b.seqs, false);
    if keep == [] then EMPTY
    else
      ShapedWidths(b.cache, c.model.layers, |b.seqs|, Width(b));
      Batch(Select(b.seqs, keep), SelectRows(b.cache, keep), Select(b.mask, keep), Select(b.next, keep))
  }

  function Done(b: Batch): seq<Sequence> {
    Select(b.seqs, RowsWhere(b.seqs, true))
  }

  /** The batch of the unfinished rows; `Done` lists the others. */
  function Evict(c: Config, b: Batch): Batch
    requires WellShaped(c, b)
  {
    if Done(b) == [] then b else Compact(c, Survivors(c, b))
  }

  // ------------------------------------------------------------------
  // Admission
  // ------------------------------------------------------------------

  function PadMask(mask: seq<bool>, width: nat): seq<bool>
    requires |mask| <= width
  {
    seq(width - |mask|, _ => false) + mask
  }

  function PadMasks(masks: seq<seq<bool>>, width: nat): seq<seq<bool>>
    requires forall i :: 0 <= i < |masks| ==> |masks[i]| <= width
  {
    seq(|masks|, i requires 0 <= i < |masks| => PadMask(masks[i], width))
  }

  /** Splice a prefilled batch below a running one. */
  function Splice(c: Config, b: Batch, f: Batch): Batch
    requires WellShaped(c, b) && WellShaped(c, f)
    requires b.seqs != [] && f.seqs != []
  {
    var width := Max(Width(b), Width(f));
    Batch(b.seqs + f.seqs, Stacked(b.cache, f.cache),
          PadMasks(b.mask, width) + PadMasks(f.mask, width), b.next + f.next)
  }

  /** The running rows, then the newcomers with their first tokens. */
  function Admit(c: Config, b: Batch, newcomers: seq<Sequence>): Batch
    requires WellShaped(c, b) && Prompted(newcomers)
  {
    if newcomers == [] then b
    else
      PrefillShape(c, newcomers);
      if b.seqs == [] then Prefill(c, newcomers) else Splice(c, b, Prefill(c, newcomers))
  }

  lemma PrefillShape(c: Config, seqs: seq<Sequence>)
    requires Prompted(seqs)
    ensures WellShaped(c, Prefill(c, seqs))
    ensures seqs != [] ==> Width(Prefill(c, seqs)) == MaxLength(Prompts(seqs))
  {
    if seqs != [] {
      var b := Prefill(c, seqs);
      var lanes := PromptLanes(c, seqs);
      PromptLanesFit(c, seqs);
      forall l | 0 <= l < c.model.layers
        ensures LayerShaped(b.cache[l], |seqs|, Width(b))
      {
        forall i | 0 <= i < |seqs|
          ensures |b.cache[l][i]| == Width(b)
        {
          assert b.cache[l][i] == Slots(c.model, lanes[i].past, lanes[i].row, l);
        }
      }
    }
  }

  lemma DecodeShape(c: Config, b: Batch)
    requires WellShaped(c, b)
    ensures WellShaped(c, Decode(c, b))
    ensures b.seqs != [] ==> Width(Decode(c, b)) == Width(b) + 1
  {
    if b.seqs != [] {
      var after := Decode(c, b);
      var lanes := NextLanes(c, b);
      forall l | 0 <= l < c.model.layers
        ensures LayerShaped(after.cache[l], |b.seqs|, Width(b) + 1)
      {
        forall i | 0 <= i < |b.seqs|
          ensures |after.cache[l][i]| == Width(b) + 1
        {
          assert after.cache[l][i] == Slots(c.model, lanes[i].past, lanes[i].row, l);
        }
      }
    }
  }
}
