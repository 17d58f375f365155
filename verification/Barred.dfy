/** A rejected subtree stays out: its tombstones outlast the rejection. */
module Barred {
  import opened Types
  import opened Sequences
  import opened Chain
  import opened Forest
  import opened Store
  import opened StoreInvariants
  import opened StoreTrees
  import opened FinalitySound
  import opened FinalityWork
  import opened FinalityLinear
  import opened FinalityComplete
  import opened Publisher
  import opened PublisherInvariants
  import opened Effects

  lemma LooseLasts(s: Store, recent: nat, children: map<Hash, seq<Hash>>)
    requires Lasting(s, recent)
    ensures Lasting(s.(children := children), recent)
    ensures forall x :: Recent(s.(children := children), recent, x) <==> Recent(s, recent, x)
  {
    hide Distinct, Elements;
    assert Records(s.(children := children)) == Records(s);
  }

  /** Taking out a hash that has a recent tombstone already changes neither records nor tombstones. */
  lemma BuriedAlready(s: Store, recent: nat, h: Hash)
    requires Lasting(s, recent) && !IsRecord(s, h) && Recent(s, recent, h)
    ensures var r := RemoveOne(s, h, true);
            Lasting(r, recent) && forall x :: Recent(s, recent, x) ==> Recent(r, recent, x)
  {
    hide RemoveOne, Distinct, Elements, Records;
    assert h in s.tombstones && |s.tombstones| <= s.limits.metadata by {
      InElements(s.tombstoneOrder, h);
      ElementsSize(s.tombstoneOrder);
    }
    BuryFields(s, h);
    RemoveOneFields(s, h);
    var r := RemoveOne(s, h, true);
    assert Records(r) == Records(s) by { SameRecords(s, r); }
  }

  /** Taking out a record, or a hash that has a recent tombstone already, keeps every recent tombstone. */
  lemma TakeOutLasts(s: Store, recent: nat, h: Hash) returns (recent': nat)
    requires Lasting(s, recent) && (IsRecord(s, h) || Recent(s, recent, h))
    ensures var r := TakeOut(s, h, true);
            Lasting(r, recent') && forall x :: Recent(s, recent, x) || x == h ==> Recent(r, recent', x)
  {
    hide RemoveOne, Lasting, Recent;
    var loose := s.(children := s.children - {h});
    LooseLasts(s, recent, s.children - {h});
    if IsRecord(s, h) {
      recent' := MoreRecent(loose, recent, h);
      BuryLasts(loose, recent, h);
    } else {
      recent' := recent;
      BuriedAlready(loose, recent, h);
    }
  }

  /** Every record taken out has a recent tombstone. */
  ghost predicate Buried(s0: Store, s: Store, recent: nat) {
    Lasting(s, recent) && forall x :: Gone(s0, s, x) ==> Recent(s, recent, x)
  }

  lemma {:induction false} TreesAreBuried(c: Chain, s0: Store, root: Hash, s: Store, pending: seq<Hash>, recent: nat)
    requires IsRecord(s0, root) && Midway(c, s0, root, s, pending, true) && Buried(s0, s, recent)
    ensures exists last: nat :: Buried(s0, RemoveTrees(s, pending, true), last)
    decreases |s.children|, |pending|
  {
    hide Midway, Buried, Lasting, TakeOut;
    if pending != [] {
      var h := pending[|pending| - 1];
      var rest := pending[..|pending| - 1];
      assert pending == rest + [h];
      TakeOutMidway(c, s0, root, s, rest, h, true);
      var recent' := TakeOutBuries(c, s0, root, s, pending, recent, h);
      TreesAreBuried(c, s0, root, TakeOut(s, h, true), rest + Kids(s, h), recent');
      assert RemoveTrees(s, pending, true) == RemoveTrees(TakeOut(s, h, true), rest + Kids(s, h), true);
    } else {
      assert Buried(s0, RemoveTrees(s, pending, true), recent);
    }
  }

  lemma TakeOutBuries(c: Chain, s0: Store, root: Hash, s: Store, pending: seq<Hash>, recent: nat, h: Hash)
    returns (recent': nat)
    requires IsRecord(s0, root) && Midway(c, s0, root, s, pending, true) && Buried(s0, s, recent) && h in pending
    ensures Buried(s0, TakeOut(s, h, true), recent')
  {
    hide Lasting, TakeOut, Almost, Closing;
    assert IsRecord(s0, h) by { UnderIsRecord(c, s0, root, h); }
    assert IsRecord(s, h) || Gone(s0, s, h);
    recent' := TakeOutLasts(s, recent, h);
    TakeOutFields(s, h, true);
  }

  lemma UnderIsRecord(c: Chain, s: Store, root: Hash, h: Hash)
    requires IsRecord(s, root) && Under(Edges(c, s), root, h)
    ensures IsRecord(s, h)
  {
    var k: nat :| Reaches(Edges(c, s), root, h, k);
  }

  /** When no record has a tombstone so old that it might age out, all the blocks a rejection removes have
      tombstones afterwards. */
  lemma RejectionBars(c: Chain, s: Store, root: Hash)
    requires Inv(c, s) && MetadataLen(s) <= s.limits.metadata && BuriedLate(s, Spared(s))
    requires IsRecord(s, root) && root != s.head
    ensures var r := RemoveCandidateTree(s, root, true);
            forall h :: Under(Edges(c, s), root, h) ==> h in r.tombstones
  {
    hide Inv, Midway, RemoveTrees, Under, Thinned, Distinct, Elements;
    var r := RemoveCandidateTree(s, root, true);
    StartMidway(c, s, root);
    assert Buried(s, s, Spared(s)) by { BeginLasts(c, s); }
    TreesAreBuried(c, s, root, s, [root], Spared(s));
    var last: nat :| Buried(s, r, last);
    RejectionExact(c, s, root);
    forall h | Under(Edges(c, s), root, h)
      ensures h in r.tombstones
    {
      UnderIsRecord(c, s, root, h);
      assert Gone(s, r, h);
      InElements(r.tombstoneOrder, h);
    }
  }

  /** The command announces the block as executed or validated, under the dictionary or an older one. */
  predicate Announcing(cmd: Command, g: Generation, h: Hash) {
    && (cmd.OnExecuted? || cmd.OnValidated? || cmd.OnValidatedFallback?) && cmd.generation <= g
    && (if cmd.OnValidated? then cmd.hash else cmd.block.hash) == h
  }

  /** After a rejection the events of every block it removed do nothing. */
  lemma RejectedStaysOut(env: Env, p: State, h: Hash, now: Time, x: Hash, cmd: Command, later: Time)
    requires Valid(env, p) && !p.broken && BuriedLate(p.store, Spared(p.store))
    requires Rejectable(p.store, h) && h != p.store.head && Handle(env, p, OnRejected(Active(p), h), now).ok
    requires Under(Edges(env.chain, p.store), h, x) && CommandTrue(env, cmd) && Announcing(cmd, Active(p), x)
    ensures var q := Handle(env, p, OnRejected(Active(p), h), now).state; Handle(env, q, cmd, later) == Done(q)
  {
    hide Valid, Handle, RemoveCandidateTree, Under, BuriedLate, Spared, IsRecord;
    var q, r := Handle(env, p, OnRejected(Active(p), h), now).state, RemoveCandidateTree(p.store, h, true);
    StoreSound(env, p);
    RejectionLeaves(env, p, h, now);
    RejectionBars(env.chain, p.store, h);
    assert !IsRecord(r, x) by { RejectionExact(env.chain, p.store, h); }
    TombstonedIsIdle(env, q, x, cmd, later);
  }

  lemma RejectionLeaves(env: Env, p: State, h: Hash, now: Time)
    requires Valid(env, p) && !p.broken && Rejectable(p.store, h) && Handle(env, p, OnRejected(Active(p), h), now).ok
    ensures var q := Handle(env, p, OnRejected(Active(p), h), now).state;
            Valid(env, q) && !q.broken && Active(q) == Active(p) && q.store == RemoveCandidateTree(p.store, h, true)
  {
    hide Valid, RemoveCandidateTree;
    RejectedKeeps(env, p, Active(p), h);
    var q := Handle(env, p, OnRejected(Active(p), h), now).state;
    assert q.(broken := false) == q;
  }

  lemma TombstonedIsIdle(env: Env, q: State, x: Hash, cmd: Command, later: Time)
    requires Valid(env, q) && !q.broken && !IsRecord(q.store, x) && x in q.store.tombstones
    requires CommandTrue(env, cmd) && Announcing(cmd, Active(q), x)
    ensures Handle(env, q, cmd, later) == Done(q)
  {
    hide Valid, Handle;
    IdleDoesNothing(env, q, cmd, later);
  }

  lemma StoreSound(env: Env, p: State)
    requires Valid(env, p) && !p.broken
    ensures Inv(env.chain, p.store) && MetadataLen(p.store) <= p.store.limits.metadata
    ensures forall h :: Rejectable(p.store, h) ==> IsRecord(p.store, h)
  {
  }
}
