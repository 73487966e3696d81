/** A decoder-only transformer: what a forward pass computes, with and without a KV cache. */
module Transformer {
  import opened Masks

  type Token = int
  type Vec = seq<real>
  type Logits = s: seq<real> | |s| > 0 witness [0.0]

  /** One cached position of one layer. */
  datatype KV = KV(key: Vec, val: Vec)

  /** The weights, as the functions they compute. `blind` is
      whatever the kernel yields for a query that is itself padding. */
  datatype Model = Model(
    layers: nat,
    embed: (Token, nat) -> Vec,
    key: (nat, Vec) -> Vec,
    val: (nat, Vec) -> Vec,
    attend: (nat, Vec, seq<KV>) -> Vec,
    blind: (nat, Vec, seq<KV>) -> Vec,
    head: Vec -> Logits)

  function Project(m: Model, l: nat, h: Vec): KV {
    KV(m.key(l, h), m.val(l, h))
  }

  function ProjectAll(m: Model, l: nat, hs: seq<Vec>): (kvs: seq<KV>)
    ensures |kvs| == |hs|
  {
    seq(|hs|, j requires 0 <= j < |hs| => Project(m, l, hs[j]))
  }

  // ------------------------------------------------------------------
  // Reference: recompute everything, no padding, no cache
  // ------------------------------------------------------------------

  /** Hidden states entering layer `l` when `toks` alone occupy positions 0, 1, 2, ... */
  function PlainHidden(m: Model, toks: seq<Token>, l: nat): (hs: seq<Vec>)
    ensures |hs| == |toks|
  {
    if l == 0 then seq(|toks|, j requires 0 <= j < |toks| => m.embed(toks[j], j))
    else
      var below := PlainHidden(m, toks, l - 1);
      var slots := ProjectAll(m, l - 1, below);
      seq(|toks|, j requires 0 <= j < |toks| => m.attend(l - 1, below[j], slots[..j + 1]))
  }

  function PlainSlots(m: Model, toks: seq<Token>, l: nat): (kvs: seq<KV>)
    ensures |kvs| == |toks|
  {
    ProjectAll(m, l, PlainHidden(m, toks, l))
  }

  function PlainLogits(m: Model, toks: seq<Token>): Logits
    requires toks != []
  {
    m.head(PlainHidden(m, toks, m.layers)[|toks| - 1])
  }

  /** A hidden state depends only on the tokens at or before it. */
  lemma {:induction false} PlainIsCausal(m: Model, toks: seq<Token>, n: nat, l: nat)
    requires n <= |toks|
    ensures PlainHidden(m, toks[..n], l) == PlainHidden(m, toks, l)[..n]
    ensures PlainSlots(m, toks[..n], l) == PlainSlots(m, toks, l)[..n]
  {
    if l > 0 {
      PlainIsCausal(m, toks, n, l - 1);
      var short := PlainSlots(m, toks[..n], l - 1);
      var long := PlainSlots(m, toks, l - 1);
      forall j | 0 <= j < n
        ensures PlainHidden(m, toks[..n], l)[j] == PlainHidden(m, toks, l)[j]
      {
        assert short[..j + 1] == long[..j + 1];
      }
    }
  }

  // ------------------------------------------------------------------
  // One row of a batched pass over a cache
  // ------------------------------------------------------------------

  /** Per layer, the cached slots of one row. */
  type Past = seq<seq<KV>>

  /** The part of a row that one pass computes. `mask` covers the cached columns, then the new ones. */
  datatype Row = Row(tokens: seq<Token>, positions: seq<nat>, mask: seq<bool>)

  ghost predicate Fits(m: Model, past: Past, row: Row) {
    && |past| == m.layers
    && |row.positions| == |row.tokens| <= |row.mask|
    && forall l :: 0 <= l < m.layers ==> |past[l]| == |row.mask| - |row.tokens|
  }

  function Attend(m: Model, l: nat, h: Vec, slots: seq<KV>, mask: seq<bool>, c: nat): Vec
    requires |slots| == |mask|
    requires c < |mask|
  {
    if mask[c] then m.attend(l, h, Visible(slots[..c + 1], mask[..c + 1])) else m.blind(l, h, slots)
  }

  function Hidden(m: Model, past: Past, row: Row, l: nat): (hs: seq<Vec>)
    requires Fits(m, past, row)
    requires l <= m.layers
    ensures |hs| == |row.tokens|
  {
    if l == 0 then
      seq(|row.tokens|, j requires 0 <= j < |row.tokens| => m.embed(row.tokens[j], row.positions[j]))
    else
      var below := Hidden(m, past, row, l - 1);
      var slots := past[l - 1] + ProjectAll(m, l - 1, below);
      var held := |row.mask| - |row.tokens|;
      seq(|row.tokens|, j requires 0 <= j < |row.tokens| => Attend(m, l - 1, below[j], slots, row.mask, held + j))
  }

  /** The cache of layer `l` after the pass: the old slots, then one per new column. */
  function Slots(m: Model, past: Past, row: Row, l: nat): (kvs: seq<KV>)
    requires Fits(m, past, row)
    requires l < m.layers
    ensures |kvs| == |row.mask|
  {
    past[l] + ProjectAll(m, l, Hidden(m, past, row, l))
  }

  function Present(m: Model, past: Past, row: Row): (present: Past)
    requires Fits(m, past, row)
    ensures |present| == m.layers
    ensures forall l :: 0 <= l < m.layers ==> |present[l]| == |row.mask|
  {
    seq(m.layers, l requires 0 <= l < m.layers => Slots(m, past, row, l))
  }

  function RowLogits(m: Model, past: Past, row: Row): Logits
    requires Fits(m, past, row)
    requires row.tokens != []
  {
    m.head(Hidden(m, past, row, m.layers)[|row.tokens| - 1])
  }

  // ------------------------------------------------------------------
  // A cached, padded pass agrees with the reference on every real column
  // ------------------------------------------------------------------

  /** Read through its mask, the cached row is what an uncached, unpadded pass over `fed` computes. */
  ghost predicate Represents(m: Model, past: Past, mask: seq<bool>, fed: seq<Token>) {
    && |past| == m.layers
    && Count(mask) == |fed|
    && forall l :: 0 <= l < m.layers ==> RepresentsAt(m, past[l], mask, fed, l)
  }

  ghost predicate RepresentsAt(m: Model, slots: seq<KV>, mask: seq<bool>, fed: seq<Token>, l: nat) {
    |slots| == |mask| && Visible(slots, mask) == PlainSlots(m, fed, l)
  }

  /** Each real new column carries the number of real columns before it as its position. */
  ghost predicate Positioned(row: Row)
    requires |row.positions| == |row.tokens| <= |row.mask|
  {
    var held := |row.mask| - |row.tokens|;
    forall j :: 0 <= j < |row.tokens| && row.mask[held + j] ==> row.positions[j] == Count(row.mask[..held + j])
  }

  /** The tokens of the new real columns. */
  function Fed(row: Row): seq<Token>
    requires |row.tokens| <= |row.mask|
  {
    Visible(row.tokens, row.mask[|row.mask| - |row.tokens|..])
  }

  /** At layer `l` the j-th new column, if real, holds the reference hidden state of its place in `fed + Fed(row)`. */
  ghost predicate ColumnAgrees(m: Model, past: Past, row: Row, fed: seq<Token>, l: nat, j: nat)
    requires Fits(m, past, row) && l <= m.layers && j < |row.tokens|
  {
    var c := |row.mask| - |row.tokens| + j;
    var plain := PlainHidden(m, fed + Fed(row), l);
    row.mask[c] ==> Count(row.mask[..c]) < |plain| && Hidden(m, past, row, l)[j] == plain[Count(row.mask[..c])]
  }

  ghost predicate AgreesAt(m: Model, past: Past, row: Row, fed: seq<Token>, l: nat)
    requires Fits(m, past, row) && l <= m.layers
  {
    forall j :: 0 <= j < |row.tokens| ==> ColumnAgrees(m, past, row, fed, l, j)
  }

  /** Where the j-th new column lands among all real columns. */
  lemma NewColumnIndex(m: Model, past: Past, row: Row, fed: seq<Token>, j: nat)
    requires Fits(m, past, row)
    requires Represents(m, past, row.mask[..|row.mask| - |row.tokens|], fed)
    requires j < |row.tokens|
    ensures var held := |row.mask| - |row.tokens|;
            Count(row.mask[..held + j]) == |fed| + Count(row.mask[held..][..j])
  {
    var held := |row.mask| - |row.tokens|;
    assert row.mask[..held + j] == row.mask[..held] + row.mask[held..][..j];
    CountConcat(row.mask[..held], row.mask[held..][..j]);
  }

  /** The j-th new column, if real, is the token of its place in `fed + Fed(row)`. */
  lemma NewColumnToken(m: Model, past: Past, row: Row, fed: seq<Token>, j: nat)
    requires Fits(m, past, row)
    requires Represents(m, past, row.mask[..|row.mask| - |row.tokens|], fed)
    requires j < |row.tokens| && row.mask[|row.mask| - |row.tokens| + j]
    ensures var k := Count(row.mask[..|row.mask| - |row.tokens| + j]);
            k < |fed + Fed(row)| && (fed + Fed(row))[k] == row.tokens[j]
  {
    NewColumnIndex(m, past, row, fed, j);
    hide Visible, Count, Represents;
    VisibleAt(row.tokens, row.mask[|row.mask| - |row.tokens|..], j);
  }

  /** Embeddings agree: the positions computed from the mask are the reference positions. */
  lemma EmbeddingAgrees(m: Model, past: Past, row: Row, fed: seq<Token>)
    requires Fits(m, past, row)
    requires Represents(m, past, row.mask[..|row.mask| - |row.tokens|], fed)
    requires Positioned(row)
    ensures AgreesAt(m, past, row, fed, 0)
  {
    hide Represents, Count, Fed;
    forall j | 0 <= j < |row.tokens|
      ensures ColumnAgrees(m, past, row, fed, 0, j)
    {
      var c := |row.mask| - |row.tokens| + j;
      if row.mask[c] {
        NewColumnToken(m, past, row, fed, j);
        assert row.positions[j] == Count(row.mask[..c]);
      }
    }
  }

  lemma NewSlotAgrees(m: Model, past: Past, row: Row, fed: seq<Token>, l: nat, j: nat)
    requires Fits(m, past, row) && l < m.layers && j < |row.tokens|
    requires Represents(m, past, row.mask[..|row.mask| - |row.tokens|], fed)
    requires ColumnAgrees(m, past, row, fed, l, j)
    requires row.mask[|row.mask| - |row.tokens| + j]
    ensures var k := Count(row.mask[|row.mask| - |row.tokens|..][..j]);
            |fed| + k < |fed + Fed(row)| &&
            ProjectAll(m, l, Hidden(m, past, row, l))[j] == PlainSlots(m, fed + Fed(row), l)[|fed| + k]
  {
    hide Represents, Count, Fed, Hidden, PlainHidden;
    NewColumnIndex(m, past, row, fed, j);
  }

  /** The new slots of a layer whose hidden states agree are the reference slots of the new tokens. */
  lemma NewSlotsAgree(m: Model, past: Past, row: Row, fed: seq<Token>, l: nat)
    requires Fits(m, past, row) && l < m.layers
    requires Represents(m, past, row.mask[..|row.mask| - |row.tokens|], fed)
    requires AgreesAt(m, past, row, fed, l)
    ensures var held := |row.mask| - |row.tokens|;
            Visible(ProjectAll(m, l, Hidden(m, past, row, l)), row.mask[held..])
              == PlainSlots(m, fed + Fed(row), l)[|fed|..]
  {
    hide Represents, Visible, Count, ProjectAll, PlainSlots, ColumnAgrees;
    var held := |row.mask| - |row.tokens|;
    var nm := row.mask[held..];
    var added := ProjectAll(m, l, Hidden(m, past, row, l));
    var xs := PlainSlots(m, fed + Fed(row), l)[|fed|..];
    VisibleLength(row.tokens, nm);
    forall j | 0 <= j < |nm| && nm[j]
      ensures Count(nm[..j]) < |xs| && added[j] == xs[Count(nm[..j])]
    {
      NewSlotAgrees(m, past, row, fed, l, j);
    }
    VisibleIs(added, nm, xs);
  }

  /** If a layer's hidden states agree, so does the cache it leaves behind. */
  lemma CacheAgrees(m: Model, past: Past, row: Row, fed: seq<Token>, l: nat)
    requires Fits(m, past, row) && l < m.layers
    requires Represents(m, past, row.mask[..|row.mask| - |row.tokens|], fed)
    requires AgreesAt(m, past, row, fed, l)
    ensures RepresentsAt(m, Slots(m, past, row, l), row.mask, fed + Fed(row), l)
  {
    var held := |row.mask| - |row.tokens|;
    var pm, nm := row.mask[..held], row.mask[held..];
    var all := fed + Fed(row);
    var plain := PlainSlots(m, all, l);
    NewSlotsAgree(m, past, row, fed, l);
    VisibleConcat(past[l], pm, ProjectAll(m, l, Hidden(m, past, row, l)), nm);
    assert pm + nm == row.mask;
    assert RepresentsAt(m, past[l], pm, fed, l);
    PlainIsCausal(m, all, |fed|, l);
    assert all[..|fed|] == fed;
    assert plain == plain[..|fed|] + plain[|fed|..];
  }

  /** What the query in real column `c` sees: the visible list up to and including itself. */
  lemma SeenBy<T>(slots: seq<T>, mask: seq<bool>, c: nat)
    requires |slots| == |mask|
    requires c < |mask| && mask[c]
    ensures Count(mask[..c]) < |Visible(slots, mask)|
    ensures Visible(slots[..c + 1], mask[..c + 1]) == Visible(slots, mask)[..Count(mask[..c]) + 1]
  {
    CountStep(mask, c);
    VisiblePrefix(slots, mask, c + 1);
  }

  /** Padding is invisible: a real query attends to exactly the reference slots at or before it. */
  lemma AttentionAgrees(m: Model, past: Past, row: Row, fed: seq<Token>, l: nat, j: nat)
    requires Fits(m, past, row) && l < m.layers && j < |row.tokens|
    requires ColumnAgrees(m, past, row, fed, l, j)
    requires RepresentsAt(m, Slots(m, past, row, l), row.mask, fed + Fed(row), l)
    ensures ColumnAgrees(m, past, row, fed, l + 1, j)
  {
    hide Visible, Count, Represents, Fed;
    var c := |row.mask| - |row.tokens| + j;
    if row.mask[c] {
      var all := fed + Fed(row);
      var k := Count(row.mask[..c]);
      var h := Hidden(m, past, row, l)[j];
      SeenBy(Slots(m, past, row, l), row.mask, c);
      calc {
        Hidden(m, past, row, l + 1)[j];
        Attend(m, l, h, Slots(m, past, row, l), row.mask, c);
        m.attend(l, h, PlainSlots(m, all, l)[..k + 1]);
        PlainHidden(m, all, l + 1)[k];
      }
    }
  }

  lemma {:induction false} EveryLayerAgrees(m: Model, past: Past, row: Row, fed: seq<Token>, l: nat)
    requires Fits(m, past, row) && l <= m.layers
    requires Represents(m, past, row.mask[..|row.mask| - |row.tokens|], fed)
    requires Positioned(row)
    ensures AgreesAt(m, past, row, fed, l)
  {
    if l == 0 {
      EmbeddingAgrees(m, past, row, fed);
    } else {
      EveryLayerAgrees(m, past, row, fed, l - 1);
      CacheAgrees(m, past, row, fed, l - 1);
      forall j | 0 <= j < |row.tokens|
        ensures ColumnAgrees(m, past, row, fed, l, j)
      {
        AttentionAgrees(m, past, row, fed, l - 1, j);
      }
    }
  }

  /** The last column's logits are those of a full recomputation. */
  lemma LogitsArePlain(m: Model, past: Past, row: Row, fed: seq<Token>)
    requires Fits(m, past, row)
    requires Represents(m, past, row.mask[..|row.mask| - |row.tokens|], fed)
    requires Positioned(row)
    requires row.tokens != [] && row.mask[|row.mask| - 1]
    ensures fed + Fed(row) != []
    ensures RowLogits(m, past, row) == PlainLogits(m, fed + Fed(row))
  {
    var last := |row.tokens| - 1;
    EveryLayerAgrees(m, past, row, fed, m.layers);
    assert ColumnAgrees(m, past, row, fed, m.layers, last);
    FedCount(m, past, row, fed);
    var c := |row.mask| - 1;
    CountStep(row.mask, c);
    assert row.mask[..c + 1] == row.mask;
  }

  lemma FedCount(m: Model, past: Past, row: Row, fed: seq<Token>)
    requires Fits(m, past, row)
    requires Represents(m, past, row.mask[..|row.mask| - |row.tokens|], fed)
    ensures Count(row.mask) == |fed + Fed(row)|
  {
    var held := |row.mask| - |row.tokens|;
    CountConcat(row.mask[..held], row.mask[held..]);
    assert row.mask[..held] + row.mask[held..] == row.mask;
    VisibleLength(row.tokens, row.mask[held..]);
  }

  /** The main theorem of caching: whatever the padding holds, a pass over a cache that represents `fed` leaves a cache
      that represents `fed` followed by the new real tokens. */
  lemma PassIsPlain(m: Model, past: Past, row: Row, fed: seq<Token>)
    requires Fits(m, past, row)
    requires Represents(m, past, row.mask[..|row.mask| - |row.tokens|], fed)
    requires Positioned(row)
    ensures Represents(m, Present(m, past, row), row.mask, fed + Fed(row))
  {
    FedCount(m, past, row, fed);
    forall l | 0 <= l < m.layers
      ensures RepresentsAt(m, Present(m, past, row)[l], row.mask, fed + Fed(row), l)
    {
      EveryLayerAgrees(m, past, row, fed, l);
      CacheAgrees(m, past, row, fed, l);
    }
  }
}
