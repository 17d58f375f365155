/** Packed change bitmaps, and the projection of a block from its parent's values. */
module Projections {
  import opened Types
  import opened Chain

  /** The watched values of one block. `bitmap` is empty for a projection read from the provider. */
  datatype Projection = Projection(block: BlockMeta, generation: Generation, values: seq<Word>, bitmap: seq<bv8>)

  function BitmapSize(keys: nat): nat { (keys + 7) / 8 }

  function Mask(k: nat): bv8
    requires k < 8
  {
    if k == 0 then 1 else if k == 1 then 2 else if k == 2 then 4 else if k == 3 then 8
    else if k == 4 then 16 else if k == 5 then 32 else if k == 6 then 64 else 128
  }

  predicate Bit(bitmap: seq<bv8>, i: nat) {
    i / 8 < |bitmap| && bitmap[i / 8] & Mask(i % 8) != 0
  }

  lemma MaskedOr(b: bv8, k: nat, j: nat)
    requires k < 8 && j < 8
    ensures (b | Mask(k)) & Mask(j) != 0 <==> (j == k || b & Mask(j) != 0)
  {
    if k == j {
      assert (b | Mask(k)) & Mask(k) == Mask(k);
    } else {
      assert Mask(k) & Mask(j) == 0;
      assert (b | Mask(k)) & Mask(j) == (b & Mask(j)) | (Mask(k) & Mask(j));
    }
  }

  lemma BitAfterOr(bitmap: seq<bv8>, i: nat, j: nat)
    requires i / 8 < |bitmap|
    ensures Bit(bitmap[i / 8 := bitmap[i / 8] | Mask(i % 8)], j) <==> j == i || Bit(bitmap, j)
  {
    SameBit(i, j);
    var r := bitmap[i / 8 := bitmap[i / 8] | Mask(i % 8)];
    if j / 8 == i / 8 {
      MaskedOr(bitmap[i / 8], i % 8, j % 8);
    } else if j / 8 < |bitmap| {
      assert r[j / 8] == bitmap[j / 8];
    }
  }

  lemma SameBit(i: nat, j: nat)
    ensures i == j <==> i / 8 == j / 8 && i % 8 == j % 8
  {
  }

  function SetBit(bitmap: seq<bv8>, i: nat): (r: seq<bv8>)
    requires i / 8 < |bitmap|
    ensures |r| == |bitmap|
    ensures forall j: nat :: Bit(r, j) <==> j == i || Bit(bitmap, j)
  {
    assert forall j: nat :: Bit(bitmap[i / 8 := bitmap[i / 8] | Mask(i % 8)], j) <==> j == i || Bit(bitmap, j) by {
      forall j: nat { BitAfterOr(bitmap, i, j); }
    }
    bitmap[i / 8 := bitmap[i / 8] | Mask(i % 8)]
  }

  function Zeros(n: nat): (r: seq<bv8>)
    ensures |r| == n
    ensures forall j: nat :: !Bit(r, j)
  {
    seq(n, _ => 0 as bv8)
  }

  /** Bit `i` is set exactly when value `i` differs, and no bit stands beyond the values. */
  ghost predicate Exact(bitmap: seq<bv8>, before: seq<Word>, after: seq<Word>) {
    && |before| == |after|
    && |bitmap| == BitmapSize(|after|)
    && forall i: nat :: Bit(bitmap, i) <==> i < |after| && before[i] != after[i]
  }

  lemma SameBits(a: bv8, b: bv8)
    requires forall k: nat :: k < 8 ==> (a & Mask(k) != 0 <==> b & Mask(k) != 0)
    ensures a == b
  {
    assert a & Mask(0) == b & Mask(0) && a & Mask(1) == b & Mask(1);
    assert a & Mask(2) == b & Mask(2) && a & Mask(3) == b & Mask(3);
    assert a & Mask(4) == b & Mask(4) && a & Mask(5) == b & Mask(5);
    assert a & Mask(6) == b & Mask(6) && a & Mask(7) == b & Mask(7);
  }

  /** There is one exact bitmap between two value vectors. */
  lemma ExactUnique(a: seq<bv8>, b: seq<bv8>, before: seq<Word>, after: seq<Word>)
    requires Exact(a, before, after) && Exact(b, before, after)
    ensures a == b
  {
    forall i | 0 <= i < |a|
      ensures a[i] == b[i]
    {
      forall k: nat | k < 8
        ensures a[i] & Mask(k) != 0 <==> b[i] & Mask(k) != 0
      {
        assert Bit(a, 8 * i + k) <==> Bit(b, 8 * i + k);
        assert (8 * i + k) / 8 == i && (8 * i + k) % 8 == k;
      }
      SameBits(a[i], b[i]);
    }
  }

  /** Values and bitmap after a delta; a change outside the dictionary is an error. */
  datatype Delta = BadKey | Delta(values: seq<Word>, bitmap: seq<bv8>)

  function ApplyFrom(values: seq<Word>, bitmap: seq<bv8>, changes: seq<SlotChange>): Delta
    requires |bitmap| == BitmapSize(|values|)
    decreases |changes|
  {
    if changes == [] then Delta(values, bitmap)
    else
      var c := changes[0];
      if c.key >= |values| then BadKey
      else if values[c.key] == c.value then ApplyFrom(values, bitmap, changes[1..])
      else ApplyFrom(values[c.key := c.value], SetBit(bitmap, c.key), changes[1..])
  }

  function ApplyDelta(values: seq<Word>, changes: seq<SlotChange>): Delta {
    ApplyFrom(values, Zeros(BitmapSize(|values|)), changes)
  }

  /** A delta fails exactly if it names a key outside the dictionary. */
  lemma {:induction false} DeltaFailsExactly(values: seq<Word>, bitmap: seq<bv8>, changes: seq<SlotChange>)
    requires |bitmap| == BitmapSize(|values|)
    ensures ApplyFrom(values, bitmap, changes).BadKey? <==> exists i :: 0 <= i < |changes| && changes[i].key >= |values|
    decreases |changes|
  {
    if changes != [] {
      var c, rest := changes[0], changes[1..];
      assert forall i :: 0 < i < |changes| ==> changes[i] == rest[i - 1];
      if c.key < |values| {
        DeltaFailsExactly(values, bitmap, rest);
        DeltaFailsExactly(values[c.key := c.value], SetBit(bitmap, c.key), rest);
        assert forall i :: 0 <= i < |rest| ==> rest[i] == changes[i + 1];
      }
    }
  }

  /** A running bitmap that is exact so far, and says nothing yet about the keys still to come. */
  lemma {:induction false} ApplyFromExact(before: seq<Word>, values: seq<Word>, bitmap: seq<bv8>,
                                          changes: seq<SlotChange>)
    requires Exact(bitmap, before, values)
    requires ValidDelta(changes, |values|)
    requires forall i :: 0 <= i < |changes| ==> before[changes[i].key] == values[changes[i].key]
    ensures var d := ApplyFrom(values, bitmap, changes);
            d.Delta? && d.values == Overlay(values, changes) && Exact(d.bitmap, before, d.values)
    decreases |changes|
  {
    if changes != [] {
      var c := changes[0];
      if values[c.key] == c.value {
        assert values[c.key := c.value] == values;
        ApplyFromExact(before, values, bitmap, changes[1..]);
      } else {
        ApplyFromExact(before, values[c.key := c.value], SetBit(bitmap, c.key), changes[1..]);
      }
    }
  }

  /** A block's delta over its parent's values gives the block's values, with exactly its changed
      keys in the bitmap. */
  lemma DeltaExact(values: seq<Word>, changes: seq<SlotChange>)
    requires ValidDelta(changes, |values|)
    ensures var d := ApplyDelta(values, changes);
            d.Delta? && d.values == Overlay(values, changes) && Exact(d.bitmap, values, d.values)
  {
    ApplyFromExact(values, values, Zeros(BitmapSize(|values|)), changes);
  }

  /** The delta loop, as the publisher runs it. */
  method ComputeDelta(parentValues: seq<Word>, changes: seq<SlotChange>) returns (d: Delta)
    ensures d == ApplyDelta(parentValues, changes)
    ensures ValidDelta(changes, |parentValues|) ==> d.Delta? && Exact(d.bitmap, parentValues, d.values)
  {
    var values: seq<Word> := parentValues;
    var bitmap := Zeros(BitmapSize(|parentValues|));
    var i := 0;
    while i < |changes|
      invariant 0 <= i <= |changes|
      invariant |bitmap| == BitmapSize(|values|)
      invariant ApplyFrom(values, bitmap, changes[i..]) == ApplyDelta(parentValues, changes)
    {
      var c := changes[i];
      assert changes[i..][1..] == changes[i + 1..];
      if c.key >= |values| {
        if ValidDelta(changes, |parentValues|) {
          DeltaExact(parentValues, changes);
        }
        return BadKey;
      }
      if values[c.key] != c.value {
        bitmap := SetBit(bitmap, c.key);
        values := values[c.key := c.value];
      }
      i := i + 1;
    }
    if ValidDelta(changes, |parentValues|) {
      DeltaExact(parentValues, changes);
    }
    d := Delta(values, bitmap);
  }

  /** Full comparison of two value vectors. */
  function CompareFrom(before: seq<Word>, after: seq<Word>, i: nat): (r: seq<bv8>)
    requires |before| == |after| && i <= |after|
    ensures |r| == BitmapSize(|after|)
    ensures forall j: nat :: Bit(r, j) <==> i <= j < |after| && before[j] != after[j]
    decreases |after| - i
  {
    if i == |after| then Zeros(BitmapSize(|after|))
    else if before[i] != after[i] then SetBit(CompareFrom(before, after, i + 1), i)
    else CompareFrom(before, after, i + 1)
  }

  /** What the canonical transition changes: the candidate's own bitmap on a direct advance,
      otherwise the full comparison. */
  function CanonicalBitmap(previous: Projection, next: Projection): Option<seq<bv8>> {
    if previous.generation != next.generation || |previous.values| != |next.values| then None
    else if next.block.parent == previous.block.hash && |next.bitmap| == BitmapSize(|next.values|)
    then Some(next.bitmap)
    else Some(CompareFrom(previous.values, next.values, 0))
  }

  /** The comparison loop, with its shortcut. */
  method ComputeCanonicalBitmap(previous: Projection, next: Projection) returns (r: Option<seq<bv8>>)
    ensures r == CanonicalBitmap(previous, next)
  {
    if previous.generation != next.generation || |previous.values| != |next.values| {
      return None;
    }
    if next.block.parent == previous.block.hash && |next.bitmap| == BitmapSize(|next.values|) {
      return Some(next.bitmap);
    }
    var changed := Zeros(BitmapSize(|next.values|));
    var i := 0;
    while i < |next.values|
      invariant 0 <= i <= |next.values|
      invariant |changed| == BitmapSize(|next.values|)
      invariant forall j: nat :: Bit(changed, j) <==> j < i && previous.values[j] != next.values[j]
    {
      if previous.values[i] != next.values[i] {
        changed := SetBit(changed, i);
      }
      i := i + 1;
    }
    ExactUnique(changed, CompareFrom(previous.values, next.values, 0), previous.values, next.values);
    r := Some(changed);
  }

  /** The projection holds the block's true values; a non-empty bitmap is exact against its parent. */
  ghost predicate Faithful(c: Chain, p: Projection) {
    && p.block == c.meta(p.block.hash)
    && p.values == Truth(c, p.generation, p.block.hash)
    && (p.bitmap != [] ==> Exact(p.bitmap, Truth(c, p.generation, p.block.parent), p.values))
  }

  /** The shortcut returns what the full comparison would. */
  lemma CanonicalBitmapExact(c: Chain, previous: Projection, next: Projection)
    requires WellFormed(c) && Faithful(c, previous) && Faithful(c, next)
    requires previous.generation == next.generation
    ensures CanonicalBitmap(previous, next).Some?
    ensures Exact(CanonicalBitmap(previous, next).value, previous.values, next.values)
    ensures CanonicalBitmap(previous, next).value == CompareFrom(previous.values, next.values, 0)
  {
    TruthSize(c, previous.generation, previous.block.hash);
    TruthSize(c, next.generation, next.block.hash);
    var bitmap := CanonicalBitmap(previous, next).value;
    assert Exact(CompareFrom(previous.values, next.values, 0), previous.values, next.values);
    if next.bitmap == [] && BitmapSize(|next.values|) == 0 {
      assert Exact(bitmap, previous.values, next.values);
    }
    ExactUnique(bitmap, CompareFrom(previous.values, next.values, 0), previous.values, next.values);
  }
}
