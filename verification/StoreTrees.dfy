/** Rejection: what a subtree removal takes away, and what it leaves. */
module StoreTrees {
  import opened Types
  import opened Sequences
  import opened Chain
  import opened Forest
  import opened Store
  import opened StoreInvariants

  /** The parent relation over the indexed records. */
  ghost function Edges(c: Chain, s: Store): map<Hash, Hash> {
    map h | h in s.candidates.Keys + s.deferred.Keys && Indexed(s.candidates, s.deferred, s.anchor, h) :: Parent(c, h)
  }

  /** `s` is `s0` with some records taken out and nothing else changed in the others. */
  ghost predicate Thinned(s0: Store, s: Store) {
    && (forall h :: h in s.candidates ==> h in s0.candidates && s.candidates[h] == s0.candidates[h])
    && (forall h :: h in s.deferred ==> h in s0.deferred && s.deferred[h] == s0.deferred[h])
    && s.anchor == s0.anchor && s.limits == s0.limits && s.head == s0.head && s.sweep == s0.sweep
    && s.lastFinalized == s0.lastFinalized && s.nextIncarnation == s0.nextIncarnation
  }

  predicate Gone(s0: Store, s: Store, h: Hash) { IsRecord(s0, h) && !IsRecord(s, h) }

  /** Only the subtree of `root` has gone, is pending or was made terminal. */
  ghost predicate OnlySubtree(edges: map<Hash, Hash>, s0: Store, root: Hash, s: Store, pending: seq<Hash>) {
    && (forall h :: h in pending ==> Under(edges, root, h))
    && (forall h :: Gone(s0, s, h) ==> Under(edges, root, h))
    && (forall h :: h in s.terminal ==> h in s0.terminal || Under(edges, root, h))
  }

  /** The root is being removed, and so is every indexed child of a removed record. */
  ghost predicate Closing(c: Chain, s0: Store, root: Hash, s: Store, pending: seq<Hash>, terminal: bool) {
    && (root in pending || Gone(s0, s, root))
    && (forall h :: Indexed(s.candidates, s.deferred, s.anchor, h) && Gone(s0, s, Parent(c, h)) ==> h in pending)
    && s0.terminal <= s.terminal
    && (terminal ==> forall h :: Gone(s0, s, h) ==> h in s.terminal)
  }

  ghost predicate Midway(c: Chain, s0: Store, root: Hash, s: Store, pending: seq<Hash>, terminal: bool) {
    && Almost(c, s, Elements(pending))
    && Thinned(s0, s)
    && OnlySubtree(Edges(c, s0), s0, root, s, pending)
    && Closing(c, s0, root, s, pending, terminal)
  }

  lemma TakeOutKeeps(c: Chain, s: Store, h: Hash, terminal: bool, pending: seq<Hash>)
    requires Almost(c, s, Elements(pending + [h]))
    ensures Almost(c, TakeOut(s, h, terminal), Elements(pending + Kids(s, h)))
  {
    var open := Elements(pending + [h] + Kids(s, h));
    var loose := s.(children := s.children - {h});
    forall p, x | Listed(loose.children, p, x)
      ensures Indexed(s.candidates, s.deferred, s.anchor, x) && Parent(c, x) == p
    {
      assert Listed(s.children, p, x);
    }
    forall x | Indexed(s.candidates, s.deferred, s.anchor, x) && x !in open
      ensures Listed(loose.children, Parent(c, x), x)
    {
      assert Listed(s.children, Parent(c, x), x);
      assert Parent(c, x) == h ==> x in Kids(s, h);
    }
    RemoveOneKeeps(c, loose, h, terminal, open);
    NarrowOpen(c, TakeOut(s, h, terminal), open, Elements(pending + Kids(s, h)), h);
  }

  lemma NarrowOpen(c: Chain, s: Store, open: set<Hash>, narrow: set<Hash>, h: Hash)
    requires Almost(c, s, open) && !IsRecord(s, h) && open <= narrow + {h}
    ensures Almost(c, s, narrow)
  {
  }

  lemma TakeOutFields(s: Store, h: Hash, terminal: bool)
    ensures var r := TakeOut(s, h, terminal);
            && r.candidates == s.candidates - {h} && r.deferred == s.deferred - {h}
            && r.terminal == (if terminal then s.terminal + {h} else s.terminal)
            && r.anchor == s.anchor && r.limits == s.limits && r.head == s.head && r.sweep == s.sweep
            && r.lastFinalized == s.lastFinalized && r.nextIncarnation == s.nextIncarnation
  {
  }

  lemma TakeOutOnlySubtree(c: Chain, s0: Store, root: Hash, s: Store, pending: seq<Hash>, h: Hash, terminal: bool)
    requires Thinned(s0, s) && IndexExcept(c, s.candidates, s.deferred, s.children, s.anchor, Elements(pending + [h]))
    requires OnlySubtree(Edges(c, s0), s0, root, s, pending + [h])
    ensures OnlySubtree(Edges(c, s0), s0, root, TakeOut(s, h, terminal), pending + Kids(s, h))
  {
    TakeOutFields(s, h, terminal);
    var edges := Edges(c, s0);
    assert Under(edges, root, h) by { assert h in pending + [h]; }
    forall x | x in pending + Kids(s, h)
      ensures Under(edges, root, x)
    {
      if x in pending {
        assert x in pending + [h];
      } else {
        assert Listed(s.children, h, x);
        assert x in edges && edges[x] == h;
        UnderStep(edges, root, x);
      }
    }
  }

  lemma TakeOutClosing(c: Chain, s0: Store, root: Hash, s: Store, pending: seq<Hash>, h: Hash, terminal: bool)
    requires Thinned(s0, s) && IndexExcept(c, s.candidates, s.deferred, s.children, s.anchor, Elements(pending + [h]))
    requires IsRecord(s0, root) && Closing(c, s0, root, s, pending + [h], terminal)
    ensures Closing(c, s0, root, TakeOut(s, h, terminal), pending + Kids(s, h), terminal)
  {
    TakeOutFields(s, h, terminal);
    var r := TakeOut(s, h, terminal);
    forall x | Indexed(r.candidates, r.deferred, r.anchor, x) && Gone(s0, r, Parent(c, x))
      ensures x in pending + Kids(s, h)
    {
      assert Indexed(s.candidates, s.deferred, s.anchor, x) && x != h;
      assert Parent(c, x) != h ==> Gone(s0, s, Parent(c, x)) && x in pending + [h];
      assert Parent(c, x) == h && x !in pending ==> Listed(s.children, h, x);
    }
  }

  lemma TakeOutMidway(c: Chain, s0: Store, root: Hash, s: Store, pending: seq<Hash>, h: Hash, terminal: bool)
    requires IsRecord(s0, root) && Midway(c, s0, root, s, pending + [h], terminal)
    ensures Midway(c, s0, root, TakeOut(s, h, terminal), pending + Kids(s, h), terminal)
  {
    TakeOutKeeps(c, s, h, terminal, pending);
    TakeOutFields(s, h, terminal);
    TakeOutOnlySubtree(c, s0, root, s, pending, h, terminal);
    TakeOutClosing(c, s0, root, s, pending, h, terminal);
  }

  lemma {:induction false} RemoveTreesExact(c: Chain, s0: Store, root: Hash, s: Store, pending: seq<Hash>,
                                            terminal: bool)
    requires IsRecord(s0, root) && Midway(c, s0, root, s, pending, terminal)
    ensures Midway(c, s0, root, RemoveTrees(s, pending, terminal), [], terminal)
    decreases |s.children|, |pending|
  {
    if pending != [] {
      var h := pending[|pending| - 1];
      var rest := pending[..|pending| - 1];
      assert pending == rest + [h];
      TakeOutMidway(c, s0, root, s, rest, h, terminal);
      RemoveTreesExact(c, s0, root, TakeOut(s, h, terminal), rest + Kids(s, h), terminal);
    }
  }

  lemma GoneIsSubtree(c: Chain, s: Store, root: Hash, r: Store, h: Hash)
    requires IsRecord(s, root) && Thinned(s, r) && Closing(c, s, root, r, [], true)
    requires s.candidates.Keys !! s.deferred.Keys && Under(Edges(c, s), root, h)
    ensures Gone(s, r, h) && h in r.terminal
  {
    var edges := Edges(c, s);
    var taken := set h | h in s.candidates.Keys + s.deferred.Keys && Gone(s, r, h);
    var k: nat :| Reaches(edges, root, h, k);
    forall x | x in edges && edges[x] in taken
      ensures x in taken
    {
      assert Gone(s, r, Parent(c, x));
      assert !Indexed(r.candidates, r.deferred, r.anchor, x);
    }
    ClosedTakesSubtree(edges, root, taken, h, k);
  }

  /** Rejection removes precisely the records reachable from the root, leaves every other record as
      it was, and keeps the invariant. */
  lemma RejectionExact(c: Chain, s: Store, root: Hash)
    requires Inv(c, s) && IsRecord(s, root) && root != s.head
    ensures var r := RemoveCandidateTree(s, root, true);
            && Inv(c, r) && Thinned(s, r)
            && (forall h :: IsRecord(r, h) <==> IsRecord(s, h) && !Under(Edges(c, s), root, h))
            && (forall h :: h in r.terminal <==> h in s.terminal || Under(Edges(c, s), root, h))
  {
    var edges := Edges(c, s);
    var r := RemoveCandidateTree(s, root, true);
    UnderSelf(edges, root);
    StartMidway(c, s, root);
    RemoveTreesExact(c, s, root, s, [root], true);
    assert Elements<Hash>([]) == {};
    forall h | Under(edges, root, h)
      ensures Gone(s, r, h) && h in r.terminal
    {
      GoneIsSubtree(c, s, root, r, h);
    }
    forall h
      ensures IsRecord(r, h) <==> IsRecord(s, h) && !Under(edges, root, h)
    {
      assert IsRecord(s, h) && !IsRecord(r, h) <==> Gone(s, r, h);
    }
  }

  lemma StartMidway(c: Chain, s: Store, root: Hash)
    requires Inv(c, s) && IsRecord(s, root)
    ensures Midway(c, s, root, s, [root], true)
  {
    UnderSelf(Edges(c, s), root);
  }
}
