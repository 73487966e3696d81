/** Attention masks: which columns of a left-padded row hold real tokens, and what a query sees through them. */
module Masks {

  /** The number of real columns; the last entry of the source's cumulative sum. */
  function Count(mask: seq<bool>): nat {
    if mask == [] then 0 else Count(mask[..|mask| - 1]) + (if mask[|mask| - 1] then 1 else 0)
  }

  /** The entries whose mask bit is set, in order. */
  function Visible<T>(slots: seq<T>, mask: seq<bool>): seq<T>
    requires |slots| == |mask|
  {
    if slots == [] then []
    else
      Visible(slots[..|slots| - 1], mask[..|mask| - 1]) +
      (if mask[|mask| - 1] then [slots[|slots| - 1]] else [])
  }

  /** A row of `width` columns of which the last `used` are real. */
  function LeftMask(width: nat, used: nat): (mask: seq<bool>)
    requires used <= width
    ensures |mask| == width
  {
    seq(width, c => c >= width - used)
  }

  lemma {:induction false} VisibleLength<T>(slots: seq<T>, mask: seq<bool>)
    requires |slots| == |mask|
    ensures |Visible(slots, mask)| == Count(mask)
  {
    if slots != [] {
      VisibleLength(slots[..|slots| - 1], mask[..|mask| - 1]);
    }
  }

  lemma {:induction false} CountMonotone(mask: seq<bool>, c: nat)
    requires c <= |mask|
    ensures Count(mask[..c]) <= Count(mask) <= Count(mask[..c]) + (|mask| - c)
  {
    if c == |mask| {
      assert mask[..c] == mask;
    } else {
      CountMonotone(mask[..|mask| - 1], c);
      assert mask[..|mask| - 1][..c] == mask[..c];
    }
  }

  lemma CountStep(mask: seq<bool>, c: nat)
    requires c < |mask|
    ensures Count(mask[..c + 1]) == Count(mask[..c]) + (if mask[c] then 1 else 0)
  {
    assert mask[..c + 1][..c] == mask[..c];
  }

  /** What a query sees is a prefix of what later queries see. */
  lemma {:induction false} VisiblePrefix<T>(slots: seq<T>, mask: seq<bool>, c: nat)
    requires |slots| == |mask|
    requires c <= |mask|
    ensures Count(mask[..c]) <= |Visible(slots, mask)|
    ensures Visible(slots[..c], mask[..c]) == Visible(slots, mask)[..Count(mask[..c])]
  {
    VisibleLength(slots, mask);
    VisibleLength(slots[..c], mask[..c]);
    CountMonotone(mask, c);
    if c == |mask| {
      assert slots[..c] == slots && mask[..c] == mask;
    } else {
      var s', m' := slots[..|slots| - 1], mask[..|mask| - 1];
      VisiblePrefix(s', m', c);
      assert s'[..c] == slots[..c] && m'[..c] == mask[..c];
    }
  }

  /** A real column appears at the place given by the number of real columns before it. */
  lemma VisibleAt<T>(slots: seq<T>, mask: seq<bool>, c: nat)
    requires |slots| == |mask|
    requires c < |mask| && mask[c]
    ensures Count(mask[..c]) < |Visible(slots, mask)|
    ensures Visible(slots, mask)[Count(mask[..c])] == slots[c]
  {
    VisiblePrefix(slots, mask, c + 1);
    CountStep(mask, c);
    VisibleLength(slots[..c], mask[..c]);
    var s', m' := slots[..c + 1], mask[..c + 1];
    assert s'[..c] == slots[..c] && m'[..c] == mask[..c];
    assert Visible(s', m') == Visible(slots[..c], mask[..c]) + [slots[c]];
    assert Visible(s', m')[Count(mask[..c])] == slots[c];
  }

  /** The visible list is determined by its real columns alone. */
  lemma {:induction false} VisibleIs<T>(slots: seq<T>, mask: seq<bool>, xs: seq<T>)
    requires |slots| == |mask|
    requires |xs| == Count(mask)
    requires forall c :: 0 <= c < |mask| && mask[c] ==> Count(mask[..c]) < |xs| && slots[c] == xs[Count(mask[..c])]
    ensures Visible(slots, mask) == xs
  {
    if slots != [] {
      var n := |slots| - 1;
      var s', m' := slots[..n], mask[..n];
      var xs' := if mask[n] then xs[..|xs| - 1] else xs;
      forall c | 0 <= c < n && m'[c]
        ensures Count(m'[..c]) < |xs'| && s'[c] == xs'[Count(m'[..c])]
      {
        assert m'[..c] == mask[..c];
        CountStep(m', c);
        CountMonotone(m', c + 1);
      }
      VisibleIs(s', m', xs');
    }
  }

  lemma {:induction false} CountConcat(a: seq<bool>, b: seq<bool>)
    ensures Count(a + b) == Count(a) + Count(b)
  {
    if b == [] {
      assert a + b == a;
    } else {
      assert (a + b)[..|a + b| - 1] == a + b[..|b| - 1];
      CountConcat(a, b[..|b| - 1]);
    }
  }

  lemma {:induction false} VisibleConcat<T>(s: seq<T>, a: seq<bool>, t: seq<T>, b: seq<bool>)
    requires |s| == |a| && |t| == |b|
    ensures Visible(s + t, a + b) == Visible(s, a) + Visible(t, b)
  {
    if t == [] {
      assert s + t == s && a + b == a;
    } else {
      var t', b' := t[..|t| - 1], b[..|b| - 1];
      assert (s + t)[..|s + t| - 1] == s + t' && (a + b)[..|a + b| - 1] == a + b';
      VisibleConcat(s, a, t', b');
    }
  }

  lemma {:induction false} AllBlank(mask: seq<bool>)
    requires forall c :: 0 <= c < |mask| ==> !mask[c]
    ensures Count(mask) == 0
  {
    if mask != [] {
      AllBlank(mask[..|mask| - 1]);
    }
  }

  /** In a left-padded row the number of real columns up to `c` ignores the padding. */
  lemma {:induction false} LeftMaskCount(width: nat, used: nat, c: nat)
    requires used <= width && c <= width
    ensures Count(LeftMask(width, used)[..c]) == if c <= width - used then 0 else c - (width - used)
  {
    var mask := LeftMask(width, used);
    if c > 0 {
      LeftMaskCount(width, used, c - 1);
      CountStep(mask, c - 1);
    }
  }

  lemma LeftMaskTotal(width: nat, used: nat)
    requires used <= width
    ensures Count(LeftMask(width, used)) == used
  {
    LeftMaskCount(width, used, width);
    assert LeftMask(width, used)[..width] == LeftMask(width, used);
  }

  /** Through a left-padded mask exactly the last `used` entries are seen. */
  lemma LeftMaskVisible<T>(slots: seq<T>, used: nat)
    requires used <= |slots|
    ensures Visible(slots, LeftMask(|slots|, used)) == slots[|slots| - used..]
  {
    var w := |slots|;
    var mask, xs := LeftMask(w, used), slots[w - used..];
    LeftMaskTotal(w, used);
    forall c | 0 <= c < w && mask[c]
      ensures Count(mask[..c]) < |xs| && slots[c] == xs[Count(mask[..c])]
    {
      LeftMaskCount(w, used, c);
      assert Count(mask[..c]) == if c <= w - used then 0 else c - (w - used);
    }
    VisibleIs(slots, mask, xs);
  }

  // ------------------------------------------------------------------
  // Lists of rows
  // ------------------------------------------------------------------

  /** The elements at `rows`, in that order. */
  function Select<T>(xs: seq<T>, rows: seq<nat>): (ys: seq<T>)
    requires forall j :: 0 <= j < |rows| ==> rows[j] < |xs|
    ensures |ys| == |rows|
  {
    seq(|rows|, j requires 0 <= j < |rows| => xs[rows[j]])
  }

  /** `rows` lists indices below `n` in increasing order. */
  ghost predicate Ascending(rows: seq<nat>, n: nat) {
    && (forall i, j :: 0 <= i < j < |rows| ==> rows[i] < rows[j])
    && forall k :: 0 <= k < |rows| ==> rows[k] < n
  }
}
