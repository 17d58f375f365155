/** The block tree outside the feed: what a hash stands for, whatever the feed has seen of it. */
module Chain {
  import opened Types

  /** `meta` is the header a hash commits to. `delta` is the watched write set of a block under one
      watch generation, `base` the values of a block whose parent does not precede it, and `keys`
      the dictionary size of a generation. */
  datatype Chain = Chain(
    meta: Hash -> BlockMeta,
    delta: (Generation, Hash) -> seq<SlotChange>,
    base: (Generation, Hash) -> seq<Word>,
    keys: Generation -> nat)

  function Parent(c: Chain, h: Hash): Hash { c.meta(h).parent }

  function Number(c: Chain, h: Hash): nat { c.meta(h).number }

  /** Every change names a key of the dictionary, and no key is named twice. */
  ghost predicate ValidDelta(changes: seq<SlotChange>, keys: nat) {
    && (forall i :: 0 <= i < |changes| ==> changes[i].key < keys)
    && (forall i, j :: 0 <= i < j < |changes| ==> changes[i].key != changes[j].key)
  }

  ghost predicate WellFormed(c: Chain) {
    && (forall h :: c.meta(h).hash == h)
    && (forall g, h :: ValidDelta(c.delta(g, h), c.keys(g)))
    && (forall g, h :: |c.base(g, h)| == c.keys(g))
  }

  /** Overwrites `values` with the changes, in order. Changes outside the dictionary are ignored. */
  function Overlay(values: seq<Word>, changes: seq<SlotChange>): (r: seq<Word>)
    ensures |r| == |values|
    decreases |changes|
  {
    if changes == [] then values
    else
      var first := changes[0];
      Overlay(if first.key < |values| then values[first.key := first.value] else values, changes[1..])
  }

  /** The watched values after block `h`: its delta over the values after its parent. */
  function Truth(c: Chain, g: Generation, h: Hash): seq<Word>
    decreases Number(c, h)
  {
    if Number(c, h) == Number(c, Parent(c, h)) + 1
    then Overlay(Truth(c, g, Parent(c, h)), c.delta(g, h))
    else c.base(g, h)
  }

  lemma {:induction false} TruthSize(c: Chain, g: Generation, h: Hash)
    requires WellFormed(c)
    ensures |Truth(c, g, h)| == c.keys(g)
    decreases Number(c, h)
  {
    if Number(c, h) == Number(c, Parent(c, h)) + 1 {
      TruthSize(c, g, Parent(c, h));
    }
  }

  /** The k-th ancestor of `h`. */
  function Up(c: Chain, h: Hash, k: nat): Hash
    decreases k
  {
    if k == 0 then h else Up(c, Parent(c, h), k - 1)
  }

  /** `h` is `a` or a descendant of `a`. */
  ghost predicate Below(c: Chain, a: Hash, h: Hash) {
    exists k: nat :: Up(c, h, k) == a
  }

  lemma {:induction false} UpSum(c: Chain, h: Hash, j: nat, k: nat)
    ensures Up(c, h, j + k) == Up(c, Up(c, h, j), k)
    decreases j
  {
    if j > 0 {
      UpSum(c, Parent(c, h), j - 1, k);
    }
  }

  lemma BelowStep(c: Chain, a: Hash, h: Hash)
    requires Below(c, a, Parent(c, h))
    ensures Below(c, a, h)
  {
    var k: nat :| Up(c, Parent(c, h), k) == a;
    assert Up(c, h, k + 1) == a;
  }

  lemma BelowSelf(c: Chain, h: Hash)
    ensures Below(c, h, h)
  {
    assert Up(c, h, 0) == h;
  }

  lemma BelowTrans(c: Chain, a: Hash, b: Hash, h: Hash)
    requires Below(c, a, b) && Below(c, b, h)
    ensures Below(c, a, h)
  {
    var k: nat :| Up(c, h, k) == b;
    BelowUp(c, a, h, k);
  }

  lemma BelowUp(c: Chain, a: Hash, h: Hash, k: nat)
    requires Below(c, a, Up(c, h, k))
    ensures Below(c, a, h)
  {
    var j: nat :| Up(c, Up(c, h, k), j) == a;
    UpSum(c, h, k, j);
    assert Up(c, h, k + j) == a;
  }
}
