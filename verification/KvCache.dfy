/** Caches as rows of columns per layer: selecting, padding, stacking and cutting them, and padding prompts. */
module KvCache {
  import opened Masks
  import opened Transformer

  /** One layer, indexed by row, then by column. */
  type Layer = seq<seq<KV>>

  type Cache = seq<Layer>

  ghost predicate LayerShaped(layer: Layer, rows: nat, width: nat) {
    |layer| == rows && forall i :: 0 <= i < rows ==> |layer[i]| == width
  }

  /** Every layer holds `rows` rows of `width` columns. */
  ghost predicate Shaped(cache: Cache, layers: nat, rows: nat, width: nat) {
    |cache| == layers && forall l :: 0 <= l < layers ==> LayerShaped(cache[l], rows, width)
  }

  function CacheLength(cache: Cache): nat {
    if cache == [] || cache[0] == [] then 0 else |cache[0][0]|
  }

  /** What the cache holds for row `i`, layer by layer. */
  function RowOf(cache: Cache, i: nat): Past
    requires forall l :: 0 <= l < |cache| ==> i < |cache[l]|
  {
    seq(|cache|, l requires 0 <= l < |cache| => cache[l][i])
  }

  /** Every layer's rows at `rows`, in that order. */
  function SelectRows(cache: Cache, rows: seq<nat>): Cache
    requires forall l, j :: 0 <= l < |cache| && 0 <= j < |rows| ==> rows[j] < |cache[l]|
  {
    if rows == [] then [] else seq(|cache|, l requires 0 <= l < |cache| => Select(cache[l], rows))
  }

  function Zeros(v: Vec): Vec {
    seq(|v|, _ => 0.0)
  }

  /** A zeroed slot of the same dimensions as those of the row. */
  function BlankSlot(row: seq<KV>): KV {
    if row == [] then KV([], []) else KV(Zeros(row[0].key), Zeros(row[0].val))
  }

  function PadRow(row: seq<KV>, pad: nat): (padded: seq<KV>)
    ensures |padded| == pad + |row|
  {
    seq(pad, _ => BlankSlot(row)) + row
  }

  function PadLayer(layer: Layer, pad: nat): Layer {
    seq(|layer|, i requires 0 <= i < |layer| => PadRow(layer[i], pad))
  }

  /** Every row with `pad` zeroed slots in front. */
  function Padded(cache: Cache, pad: nat): Cache {
    if pad == 0 then cache else seq(|cache|, l requires 0 <= l < |cache| => PadLayer(cache[l], pad))
  }

  method LeftPad(cache: Cache, pad: int) returns (padded: Cache)
    ensures padded == Padded(cache, if pad < 0 then 0 else pad)
  {
    if pad <= 0 || cache == [] {
      return cache;
    }
    padded := [];
    for l := 0 to |cache|
      invariant padded == Padded(cache, pad)[..l]
    {
      padded := padded + [PadLayer(cache[l], pad)];
    }
  }

  /** The rows of `a`, then those of `b`, all as wide as the wider of the two; an empty cache adds nothing. */
  function Stacked(a: Cache, b: Cache): Cache
    requires a == [] || b == [] || |a| == |b|
  {
    if a == [] then b
    else if b == [] then a
    else
      var la, lb := CacheLength(a), CacheLength(b);
      var a', b' := if la < lb then Padded(a, lb - la) else a, if lb < la then Padded(b, la - lb) else b;
      seq(|a|, l requires 0 <= l < |a| => a'[l] + b'[l])
  }

  method ConcatBatch(a: Cache, b: Cache) returns (c: Cache)
    requires a == [] || b == [] || |a| == |b|
    ensures c == Stacked(a, b)
  {
    if a == [] {
      return b;
    }
    if b == [] {
      return a;
    }
    var la, lb := CacheLength(a), CacheLength(b);
    var a', b' := a, b;
    if la < lb {
      a' := LeftPad(a, lb - la);
    } else if lb < la {
      b' := LeftPad(b, la - lb);
    }
    c := seq(|a'|, l requires 0 <= l < |a'| => a'[l] + b'[l]);
  }

  /** Drop the first `lead` columns of every row. */
  function DropColumns(cache: Cache, lead: nat): Cache
    requires forall l, i :: 0 <= l < |cache| && 0 <= i < |cache[l]| ==> lead <= |cache[l][i]|
  {
    seq(|cache|, l requires 0 <= l < |cache| =>
      seq(|cache[l]|, i requires 0 <= i < |cache[l]| => cache[l][i][lead..]))
  }

  // ------------------------------------------------------------------
  // Prompts
  // ------------------------------------------------------------------

  function MaxLength<T>(xs: seq<seq<T>>): (width: nat)
    ensures forall i :: 0 <= i < |xs| ==> |xs[i]| <= width
    ensures xs != [] ==> exists i :: 0 <= i < |xs| && |xs[i]| == width
  {
    if xs == [] then 0
    else
      var rest := MaxLength(xs[..|xs| - 1]);
      assert forall i :: 0 <= i < |xs| - 1 ==> xs[..|xs| - 1][i] == xs[i];
      if |xs[|xs| - 1]| > rest || |xs| == 1 then |xs[|xs| - 1]| else rest
  }

  function PadIds(ids: seq<Token>, pad: Token, width: nat): (padded: seq<Token>)
    requires |ids| <= width
    ensures |padded| == width
  {
    seq(width - |ids|, _ => pad) + ids
  }

  /** Row by row, `PadIds` and `LeftMask` at the length of the longest list. */
  method LeftPadSequences(sequences: seq<seq<Token>>, pad: Token) returns (ids: array2<Token>, mask: array2<bool>)
    requires sequences != []
    ensures ids.Length0 == mask.Length0 == |sequences|
    ensures ids.Length1 == mask.Length1 == MaxLength(sequences)
    ensures forall i, c :: 0 <= i < ids.Length0 && 0 <= c < ids.Length1 ==>
              ids[i, c] == PadIds(sequences[i], pad, ids.Length1)[c]
                && mask[i, c] == LeftMask(ids.Length1, |sequences[i]|)[c]
  {
    var width := MaxLength(sequences);
    ids := new Token[|sequences|, width]((i, c) => pad);
    mask := new bool[|sequences|, width]((i, c) => false);
    for row := 0 to |sequences|
      invariant forall i, c :: 0 <= i < row && 0 <= c < width ==>
        ids[i, c] == PadIds(sequences[i], pad, width)[c] && mask[i, c] == LeftMask(width, |sequences[i]|)[c]
      invariant forall i, c :: row <= i < |sequences| && 0 <= c < width ==> ids[i, c] == pad && !mask[i, c]
    {
      var tail := width - |sequences[row]|;
      for c := tail to width
        invariant forall i, d :: 0 <= i < row && 0 <= d < width ==>
          ids[i, d] == PadIds(sequences[i], pad, width)[d] && mask[i, d] == LeftMask(width, |sequences[i]|)[d]
        invariant forall i, d :: row < i < |sequences| && 0 <= d < width ==> ids[i, d] == pad && !mask[i, d]
        invariant forall d :: 0 <= d < c ==>
          ids[row, d] == PadIds(sequences[row], pad, width)[d] && mask[row, d] == LeftMask(width, |sequences[row]|)[d]
        invariant forall d :: c <= d < width ==> ids[row, d] == pad && !mask[row, d]
      {
        ids[row, c] := sequences[row][c - tail];
        mask[row, c] := true;
      }
    }
  }

  /** A real column's position is the number of real columns before it; padding in front is at 0. */
  function Positions(mask: seq<bool>): (positions: seq<nat>)
    ensures |positions| == |mask|
  {
    seq(|mask|, c requires 0 <= c < |mask| =>
      var seen := Count(mask[..c + 1]) as int - 1;
      if seen < 0 then 0 else seen)
  }

  /** The j-th real token of a left-padded row gets position j, whatever the padding. */
  lemma PositionOfToken(width: nat, used: nat, j: nat)
    requires j < used <= width
    ensures Positions(LeftMask(width, used))[width - used + j] == j
  {
    LeftMaskCount(width, used, width - used + j + 1);
  }

  // ------------------------------------------------------------------
  // Surgery laws
  // ------------------------------------------------------------------

  /** Keeping the first rows of a stack and dropping the columns
      it added gives back the original, masked slots included. */
  lemma StackThenKeep(a: Cache, b: Cache, layers: nat, n: nat, k: nat, wa: nat, wb: nat, rows: seq<nat>)
    requires 0 < layers && 0 < n && 0 < k
    requires Shaped(a, layers, n, wa) && Shaped(b, layers, k, wb)
    requires |rows| == n && forall j :: 0 <= j < n ==> rows[j] == j
    ensures var width := if wa < wb then wb else wa;
            && Shaped(Stacked(a, b), layers, n + k, width)
            && Shaped(SelectRows(Stacked(a, b), rows), layers, n, width)
            && DropColumns(SelectRows(Stacked(a, b), rows), width - wa) == a
  {
    StackedShape(a, b, layers, n, k, wa, wb);
    var width := if wa < wb then wb else wa;
    var kept := SelectRows(Stacked(a, b), rows);
    var back := DropColumns(kept, width - wa);
    forall l | 0 <= l < layers
      ensures back[l] == a[l]
    {
      forall i | 0 <= i < n
        ensures back[l][i] == a[l][i]
      {
        assert kept[l][i] == Stacked(a, b)[l][i];
      }
    }
  }

  lemma StackedShape(a: Cache, b: Cache, layers: nat, n: nat, k: nat, wa: nat, wb: nat)
    requires 0 < layers && 0 < n && 0 < k
    requires Shaped(a, layers, n, wa) && Shaped(b, layers, k, wb)
    ensures Shaped(Stacked(a, b), layers, n + k, if wa < wb then wb else wa)
    ensures forall l, i :: 0 <= l < layers && 0 <= i < n ==>
              Stacked(a, b)[l][i] == PadRow(a[l][i], if wa < wb then wb - wa else 0)
    ensures forall l, i :: 0 <= l < layers && n <= i < n + k ==>
              Stacked(a, b)[l][i] == PadRow(b[l][i - n], if wb < wa then wa - wb else 0)
  {
    var s := Stacked(a, b);
    forall l | 0 <= l < layers
      ensures |a| == |b| == |s| == layers && LayerShaped(s[l], n + k, if wa < wb then wb else wa)
      ensures |a[l]| == n && |b[l]| == k
      ensures forall i :: 0 <= i < n ==> s[l][i] == PadRow(a[l][i], if wa < wb then wb - wa else 0)
      ensures forall i :: n <= i < n + k ==> s[l][i] == PadRow(b[l][i - n], if wb < wa then wa - wb else 0)
    {
      StackedLayer(a, b, layers, n, k, wa, wb, l);
    }
    hide Stacked, LayerShaped, PadRow;
  }

  lemma StackedLayer(a: Cache, b: Cache, layers: nat, n: nat, k: nat, wa: nat, wb: nat, l: nat)
    requires 0 < layers && 0 < n && 0 < k && l < layers
    requires Shaped(a, layers, n, wa) && Shaped(b, layers, k, wb)
    ensures |a| == |b| == |Stacked(a, b)| == layers && |a[l]| == n && |b[l]| == k
    ensures LayerShaped(Stacked(a, b)[l], n + k, if wa < wb then wb else wa)
    ensures forall i :: 0 <= i < n ==> Stacked(a, b)[l][i] == PadRow(a[l][i], if wa < wb then wb - wa else 0)
    ensures forall i :: n <= i < n + k ==> Stacked(a, b)[l][i] == PadRow(b[l][i - n], if wb < wa then wa - wb else 0)
  {
    hide Stacked, Shaped, PadRow;
    ShapedAt(a, layers, n, wa, l);
    ShapedAt(b, layers, k, wb, l);
    StackedAt(a, b, wa, wb, l);
    NoPad(a[l]);
    NoPad(b[l]);
  }

  lemma ShapedAt(cache: Cache, layers: nat, rows: nat, width: nat, l: nat)
    requires Shaped(cache, layers, rows, width) && l < layers && 0 < rows
    ensures |cache| == layers && |cache[l]| == rows && CacheLength(cache) == width
    ensures forall i :: 0 <= i < rows ==> |cache[l][i]| == width
  {
    assert LayerShaped(cache[0], rows, width) && LayerShaped(cache[l], rows, width);
  }

  lemma StackedAt(a: Cache, b: Cache, wa: nat, wb: nat, l: nat)
    requires l < |a| == |b| && CacheLength(a) == wa && CacheLength(b) == wb
    ensures |Stacked(a, b)| == |a|
    ensures Stacked(a, b)[l] ==
            (if wa < wb then PadLayer(a[l], wb - wa) else a[l]) + (if wb < wa then PadLayer(b[l], wa - wb) else b[l])
  {
    hide PadLayer, CacheLength;
  }

  lemma NoPad(layer: Layer)
    ensures forall i :: 0 <= i < |layer| ==> PadRow(layer[i], 0) == layer[i]
  {
  }
}
