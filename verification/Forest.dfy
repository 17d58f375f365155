/** Subtrees of a forest that is given by its child-to-parent edges. */
module Forest {
  import opened Types

  /** `h` reaches `root` over `k` edges. */
  ghost predicate Reaches(edges: map<Hash, Hash>, root: Hash, h: Hash, k: nat)
    decreases k
  {
    if k == 0 then h == root
    else h in edges && Reaches(edges, root, edges[h], k - 1)
  }

  /** `h` is `root` or lies under it. */
  ghost predicate Under(edges: map<Hash, Hash>, root: Hash, h: Hash) {
    exists k: nat :: Reaches(edges, root, h, k)
  }

  lemma UnderSelf(edges: map<Hash, Hash>, root: Hash)
    ensures Under(edges, root, root)
  {
    assert Reaches(edges, root, root, 0);
  }

  lemma UnderStep(edges: map<Hash, Hash>, root: Hash, h: Hash)
    requires h in edges && Under(edges, root, edges[h])
    ensures Under(edges, root, h)
  {
    var k: nat :| Reaches(edges, root, edges[h], k);
    assert Reaches(edges, root, h, k + 1);
  }

  /** A set with `root` that takes in every child of a member takes in the whole subtree. */
  lemma {:induction false} ClosedTakesSubtree(edges: map<Hash, Hash>, root: Hash, taken: set<Hash>, h: Hash, k: nat)
    requires root in taken
    requires forall x :: x in edges && edges[x] in taken ==> x in taken
    requires Reaches(edges, root, h, k)
    ensures h in taken
    decreases k
  {
    if k > 0 {
      ClosedTakesSubtree(edges, root, taken, edges[h], k - 1);
    }
  }
}
