/** The reference consumer's candidate cache. */
module Consumer {
  import opened Types
  import opened Sequences
  import opened Forest
  import opened Store
  import opened StoreInvariants
  import opened Wire
  import opened Retention

  /** The children index is the inverse of the parents, except for lists already taken off. */
  ghost predicate Inverse(parents: Kept, children: map<Hash, seq<Hash>>, taken: set<Hash>) {
    && ListsProper(children)
    && (forall p, h :: Listed(children, p, h) ==> h in parents && parents[h] == p && p !in taken)
    && (forall h :: h in parents && parents[h] !in taken ==> Listed(children, parents[h], h))
  }

  ghost predicate Ordered(parents: Kept, order: seq<Hash>) { Distinct(order) && Elements(order) == parents.Keys }

  lemma UnlinkInverse(parents: Kept, children: map<Hash, seq<Hash>>, taken: set<Hash>, h: Hash)
    requires Inverse(parents, children, taken) && h in parents
    ensures Inverse(parents - {h}, Unlink(children, parents[h], h), taken)
  {
    var p := parents[h];
    var next := Unlink(children, p, h);
    if p in children {
      WithoutDistinct(children[p], h);
    }
    forall q, x | Listed(next, q, x)
      ensures x in parents - {h} && (parents - {h})[x] == q && q !in taken
    {
      assert Listed(children, q, x);
    }
  }

  lemma LinkInverse(parents: Kept, children: map<Hash, seq<Hash>>, h: Hash, parent: Hash)
    requires Inverse(parents, children, {}) && h !in parents
    ensures Inverse(parents[h := parent],
                    children[parent := (if parent in children then children[parent] else []) + [h]], {})
  {
    var list := if parent in children then children[parent] else [];
    var more, next := parents[h := parent], children[parent := list + [h]];
    assert h !in list by { assert h in list ==> Listed(children, parent, h); }
    AppendDistinct(list, h);
    assert ListsProper(next);
    forall x | x in more && x != h
      ensures Listed(next, more[x], x)
    {
      assert Listed(children, parents[x], x);
    }
    assert Listed(next, parent, h);
    forall q, x | Listed(next, q, x)
      ensures x in more && more[x] == q
    {
      if !(q == parent && x == h) {
        assert Listed(children, q, x);
      }
    }
  }

  lemma WithoutElements(order: seq<Hash>, h: Hash)
    requires Distinct(order)
    ensures Distinct(Without(order, h)) && Elements(Without(order, h)) == Elements(order) - {h}
  {
    WithoutDistinct(order, h);
  }

  lemma OrderedWithout(parents: Kept, order: seq<Hash>, h: Hash)
    requires Ordered(parents, order)
    ensures Ordered(parents - {h}, Without(order, h))
  {
    hide Distinct, Elements;
    WithoutElements(order, h);
  }

  /** The cache after an insertion: the newest entry, less the oldest if that is one too many. */
  ghost function Inserted(parents: Kept, order: seq<Hash>, limit: nat, h: Hash, parent: Hash): Kept {
    var all := parents[h := parent];
    var queue := if h in parents then order else order + [h];
    if |all| > limit && queue != [] then all - {queue[0]} else all
  }

  class CandidateTracker {
    const limit: nat
    var parents: map<Hash, Hash>
    var children: map<Hash, seq<Hash>>
    var insertionOrder: seq<Hash>

    ghost predicate Valid()
      reads this
    {
      Inverse(parents, children, {}) && Ordered(parents, insertionOrder) && |parents| <= limit
    }

    constructor (limit: nat)
      ensures Valid() && parents == map[] && this.limit == limit
    {
      this.limit := limit;
      parents, children, insertionOrder := map[], map[], [];
    }

    method Clear()
      modifies this
      ensures Valid() && parents == map[]
    {
      parents, children, insertionOrder := map[], map[], [];
    }

    /** Forgets one block, wherever it stands. */
    method RemoveExact(hash: Hash, ghost taken: set<Hash>)
      requires Inverse(parents, children, taken) && Ordered(parents, insertionOrder)
      modifies this
      ensures parents == old(parents) - {hash}
      ensures Inverse(parents, children, taken) && Ordered(parents, insertionOrder)
      ensures |children| <= |old(children)| && children.Keys <= old(children).Keys
    {
      hide Inverse, Ordered;
      OrderedWithout(parents, insertionOrder, hash);
      if hash in parents {
        var parent := parents[hash];
        UnlinkInverse(parents, children, taken, hash);
        parents := parents - {hash};
        if parent in children {
          var rest := Without(children[parent], hash);
          if rest == [] {
            children := children - {parent};
          } else {
            children := children[parent := rest];
          }
        }
        FewerKeys(children, old(children));
      }
      assert parents == old(parents) - {hash};
      insertionOrder := Without(insertionOrder, hash);
    }

    /** Notes a block and its parent. A known block moves under its new parent and keeps its age. */
    method Put(hash: Hash, parent: Hash)
      requires Inverse(parents, children, {}) && Ordered(parents, insertionOrder)
      modifies this
      ensures Inverse(parents, children, {}) && Ordered(parents, insertionOrder)
      ensures parents == old(parents)[hash := parent]
      ensures insertionOrder == if hash in old(parents) then old(insertionOrder) else old(insertionOrder) + [hash]
    {
      hide Inverse;
      if hash in parents {
        var previous := parents[hash];
        if previous != parent {
          UnlinkInverse(parents, children, {}, hash);
          LinkInverse(parents - {hash}, Unlink(children, previous, hash), hash, parent);
          children := Unlink(children, previous, hash);
          children := children[parent := (if parent in children then children[parent] else []) + [hash]];
          assert (parents - {hash})[hash := parent] == parents[hash := parent];
        } else {
          assert parents[hash := parent] == parents;
        }
      } else {
        LinkInverse(parents, children, hash, parent);
        AppendDistinct(insertionOrder, hash);
        insertionOrder := insertionOrder + [hash];
        children := children[parent := (if parent in children then children[parent] else []) + [hash]];
      }
      parents := parents[hash := parent];
    }

    /** Notes a block; the oldest one goes when there are too many. */
    method Insert(hash: Hash, parent: Hash)
      requires Valid()
      modifies this
      ensures Valid() && parents == Inserted(old(parents), old(insertionOrder), limit, hash, parent)
    {
      hide Inverse;
      Put(hash, parent);
      ghost var all, queue := parents, insertionOrder;
      OneMore(old(parents), hash, parent);
      while |parents| > limit
        invariant Inverse(parents, children, {}) && Ordered(parents, insertionOrder) && |parents| <= limit + 1
        invariant || (parents == all && insertionOrder == queue)
                  || (|all| > limit >= |parents| && queue != [] && parents == all - {queue[0]})
        decreases |parents|
      {
        OneFewer(parents, insertionOrder);
        RemoveExact(insertionOrder[0], {});
      }
    }

    /** Forgets a block and everything retained that descends from it. */
    method RemoveTree(root: Hash)
      requires Valid()
      modifies this
      ensures Valid() && parents == WithoutSubtree(old(parents), root)
    {
      hide Inverse, Under;
      ghost var edges := parents;
      var pending := [root];
      ghost var taken: set<Hash> := {};
      UnderSelf(edges, root);
      while pending != []
        invariant Inverse(parents, children, taken) && Ordered(parents, insertionOrder)
        invariant Pruning(edges, root, parents, pending, taken)
        decreases |children|, |pending|
      {
        var hash := pending[|pending| - 1];
        ghost var kids := if hash in children then children[hash] else [];
        TakeList(parents, children, taken, hash);
        PruneStep(edges, root, parents, pending, taken, hash, kids);
        pending := pending[..|pending| - 1];
        if hash in children {
          pending := pending + children[hash];
          children := children - {hash};
        } else {
          assert pending + kids == pending;
          assert children - {hash} == children;
        }
        taken := taken + {hash};
        RemoveExact(hash, taken);
      }
      Pruned(edges, root, parents, children, taken);
      FewerKeys(parents, edges);
    }

    /** Forgets each of the blocks. */
    method RemoveEach(hashes: seq<Hash>)
      requires Valid()
      modifies this
      ensures Valid() && parents == old(parents) - Elements(hashes)
    {
      hide Inverse, Ordered, Elements;
      var i := 0;
      NoneGone(parents, hashes);
      while i < |hashes|
        invariant 0 <= i <= |hashes|
        invariant Inverse(parents, children, {}) && Ordered(parents, insertionOrder)
        invariant parents == old(parents) - Elements(hashes[..i])
      {
        OneGone(old(parents), hashes, i);
        RemoveExact(hashes[i], {});
        i := i + 1;
      }
      assert hashes[..i] == hashes;
      FewerKeys(parents, old(parents));
    }

    /** What a frame does to the cache: exactly what an unbounded cache would do, while that fits. */
    method Apply(event: Event)
      requires Valid()
      modifies this
      ensures Valid()
      ensures |Keep(old(parents), event)| <= limit ==> parents == Keep(old(parents), event)
    {
      hide Inverse, WithoutSubtree;
      match event
      case Snapshot(p, _) =>
        Clear();
        Insert(p.block.hash, p.block.parent);
        assert map[p.block.hash := p.block.parent] == map[][p.block.hash := p.block.parent];
      case ConfigActivated(_) => Clear();
      case Gap(_) => Clear();
      case BlockState(p, _) => Insert(p.block.hash, p.block.parent);
      case CanonicalHead(_, p, _) => Insert(p.block.hash, p.block.parent);
      case BlockRejected(h) => RemoveTree(h);
      case CandidatesRetired(hashes, _) => RemoveEach(hashes);
      case _ =>
    }

    /** Follows a whole log: the cache is what an unbounded consumer retains, while that always fits. */
    method Follow(calls: seq<Call>)
      requires Valid()
      modifies this
      ensures Valid()
      ensures FitsThroughout(old(parents), calls, limit) ==> parents == Retained(old(parents), calls)
    {
      hide Inverse, Keep, Retained;
      ghost var first := parents;
      NoneRetained(first, calls);
      for i := 0 to |calls|
        invariant Valid()
        invariant FitsThroughout(first, calls, limit) ==> parents == Retained(first, calls[..i])
      {
        OneRetained(first, calls, i);
        if calls[i].encoded {
          Apply(calls[i].event);
        }
      }
      assert calls[..|calls|] == calls;
    }
  }

  /** After every prefix of the log, what an unbounded consumer retains is within the limit. */
  ghost predicate FitsThroughout(first: Kept, calls: seq<Call>, limit: nat) {
    forall k :: 0 <= k <= |calls| ==> |Retained(first, calls[..k])| <= limit
  }

  lemma NoneRetained(first: Kept, calls: seq<Call>)
    ensures Retained(first, calls[..0]) == first
  {
  }

  lemma OneRetained(first: Kept, calls: seq<Call>, i: nat)
    requires i < |calls|
    ensures var before := Retained(first, calls[..i]);
            Retained(first, calls[..i + 1]) == if calls[i].encoded then Keep(before, calls[i].event) else before
  {
    hide Keep;
    assert calls[..i + 1][..i] == calls[..i];
  }

  lemma OneMore(parents: Kept, h: Hash, parent: Hash)
    ensures |parents[h := parent]| <= |parents| + 1
  {
    assert parents[h := parent].Keys == parents.Keys + {h};
  }

  lemma OneFewer(parents: Kept, order: seq<Hash>)
    requires Ordered(parents, order) && |parents| > 0
    ensures order != [] && |parents - {order[0]}| == |parents| - 1
  {
    ElementsSize(order);
    assert order[0] in Elements(order);
    assert (parents - {order[0]}).Keys == parents.Keys - {order[0]};
  }

  lemma NoneGone(parents: Kept, hashes: seq<Hash>)
    ensures parents - Elements(hashes[..0]) == parents
  {
  }

  lemma OneGone(parents: Kept, hashes: seq<Hash>, i: nat)
    requires i < |hashes|
    ensures (parents - Elements(hashes[..i])) - {hashes[i]} == parents - Elements(hashes[..i + 1])
  {
    assert hashes[..i + 1] == hashes[..i] + [hashes[i]];
    assert Elements(hashes[..i + 1]) == Elements(hashes[..i]) + {hashes[i]};
  }

  /** A removal under way: what is gone or pending lies under the root, what is gone is taken, and
      retained children of taken blocks are pending. */
  ghost predicate Pruning(edges: Kept, root: Hash, parents: Kept, pending: seq<Hash>, taken: set<Hash>) {
    && (forall h :: h in parents ==> h in edges && parents[h] == edges[h] && h !in taken)
    && (forall h :: h in edges && h !in parents ==> h in taken)
    && (forall h :: h in taken || h in pending ==> Under(edges, root, h))
    && (forall h :: h in parents && edges[h] in taken ==> h in pending)
    && (root in taken || root in pending)
  }

  /** Taking a block's list off the index. */
  lemma TakeList(parents: Kept, children: map<Hash, seq<Hash>>, taken: set<Hash>, h: Hash)
    requires Inverse(parents, children, taken)
    ensures Inverse(parents, children - {h}, taken + {h})
    ensures var kids := if h in children then children[h] else [];
            && (forall x :: x in kids ==> x in parents && parents[x] == h)
            && (forall x :: x in parents && parents[x] == h && h !in taken ==> x in kids)
    ensures h in children ==> |children - {h}| < |children|
  {
    var kids := if h in children then children[h] else [];
    forall x | x in kids
      ensures x in parents && parents[x] == h
    {
      assert Listed(children, h, x);
    }
    forall q, x | Listed(children - {h}, q, x)
      ensures x in parents && parents[x] == q && q !in taken + {h}
    {
      assert Listed(children, q, x);
    }
    forall x | x in parents && parents[x] !in taken + {h}
      ensures Listed(children - {h}, parents[x], x)
    {
      assert Listed(children, parents[x], x);
    }
    if h in children {
      assert (children - {h}).Keys == children.Keys - {h};
    }
  }

  lemma PruneStep(edges: Kept, root: Hash, parents: Kept, pending: seq<Hash>, taken: set<Hash>, h: Hash,
                  kids: seq<Hash>)
    requires Pruning(edges, root, parents, pending, taken) && pending != [] && h == pending[|pending| - 1]
    requires forall x :: x in kids ==> x in parents && parents[x] == h
    requires forall x :: x in parents && parents[x] == h && h !in taken ==> x in kids
    ensures Pruning(edges, root, parents - {h}, pending[..|pending| - 1] + kids, taken + {h})
  {
    hide Under;
    var rest := pending[..|pending| - 1];
    assert forall x :: x in pending <==> x in rest || x == h;
    forall x | x in kids
      ensures Under(edges, root, x)
    {
      UnderStep(edges, root, x);
    }
  }

  lemma Pruned(edges: Kept, root: Hash, parents: Kept, children: map<Hash, seq<Hash>>, taken: set<Hash>)
    requires Pruning(edges, root, parents, [], taken) && Inverse(parents, children, taken)
    ensures parents == WithoutSubtree(edges, root) && Inverse(parents, children, {})
  {
    forall h | h in edges && Under(edges, root, h)
      ensures h !in parents
    {
      var k: nat :| Reaches(edges, root, h, k);
      ClosedTakesSubtree(edges, root, taken, h, k);
    }
    forall h | h in edges && h !in parents
      ensures Under(edges, root, h)
    {
    }
  }
}
