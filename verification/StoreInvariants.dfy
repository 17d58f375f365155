/** What every operation on the candidate store keeps. */
module StoreInvariants {
  import opened Types
  import opened Sequences
  import opened Chain
  import opened Projections
  import opened Store

  type Entries = map<Hash, Entry>
  type Delayed = map<Hash, Deferred>

  // ----- The invariant, one predicate for each part of the store -----

  /** Every record is filed under its own hash, with the header that hash commits to. */
  ghost predicate Named(c: Chain, es: Entries, ds: Delayed) {
    && (forall h :: h in es ==> es[h].block == c.meta(h))
    && (forall h :: h in es && es[h].projection.Some? ==> es[h].projection.value.block == c.meta(h))
    && (forall h :: h in ds ==> ds[h].block == c.meta(h))
  }

  ghost function HeldSet(es: Entries): set<Hash> {
    set h | h in es && es[h].projection.Some?
  }

  ghost predicate Counted(es: Entries, ds: Delayed, count: nat) {
    es.Keys !! ds.Keys && count == |HeldSet(es)|
  }

  ghost predicate OlderThan(es: Entries, ds: Delayed, next: nat) {
    && (forall h :: h in es ==> es[h].incarnation < next)
    && (forall h :: h in ds ==> ds[h].incarnation < next)
  }

  ghost predicate TicketsOlderThan(q: seq<Ticket>, next: nat) {
    forall t :: t in q ==> t.incarnation < next
  }

  /** Each record has one live ticket. */
  ghost predicate MetadataQueue(es: Entries, ds: Delayed, q: seq<Ticket>) {
    && Distinct(q)
    && (forall h :: h in es ==> Ticket(es[h].incarnation, h) in q)
    && (forall h :: h in ds ==> Ticket(ds[h].incarnation, h) in q)
  }

  /** Each held projection has one live ticket, and no other record has one. */
  ghost predicate ProjectionQueue(es: Entries, ds: Delayed, q: seq<Ticket>) {
    && Distinct(q)
    && (forall h :: h in es ==> (es[h].projection.Some? <==> Ticket(es[h].incarnation, h) in q))
    && (forall h :: h in ds ==> Ticket(ds[h].incarnation, h) !in q)
  }

  ghost predicate TombstonesListed(tombstones: set<Hash>, order: seq<Hash>, limit: nat, terminal: set<Hash>) {
    Distinct(order) && tombstones == Elements(order) && |tombstones| <= limit && tombstones <= terminal
  }

  /** Consumers are expected to keep exactly the held projections. */
  ghost predicate TrackedIsHeld(es: Entries) {
    forall h :: h in es ==> (es[h].tracked <==> es[h].projection.Some?)
  }

  ghost predicate ListsProper(children: map<Hash, seq<Hash>>) {
    forall p :: p in children ==> children[p] != [] && Distinct(children[p])
  }

  predicate Listed(children: map<Hash, seq<Hash>>, p: Hash, h: Hash) { p in children && h in children[p] }

  /** A record other than the anchor. */
  predicate Indexed(es: Entries, ds: Delayed, anchor: nat, h: Hash) {
    (h in es && es[h].incarnation != anchor) || (h in ds && ds[h].incarnation != anchor)
  }

  /** The children index is the parent relation over indexed records, except that records in
      `open` may have been taken off their parent's list. */
  ghost predicate IndexExcept(c: Chain, es: Entries, ds: Delayed, children: map<Hash, seq<Hash>>, anchor: nat,
                              open: set<Hash>) {
    && (forall p, h :: Listed(children, p, h) ==> Indexed(es, ds, anchor, h) && Parent(c, h) == p)
    && (forall h :: Indexed(es, ds, anchor, h) && h !in open ==> Listed(children, Parent(c, h), h))
  }

  ghost predicate Filed(c: Chain, s: Store) {
    && Named(c, s.candidates, s.deferred)
    && Counted(s.candidates, s.deferred, s.projectionCount)
    && OlderThan(s.candidates, s.deferred, s.nextIncarnation)
    && TrackedIsHeld(s.candidates)
    && s.anchor < s.nextIncarnation
  }

  ghost predicate Queued(s: Store) {
    && TicketsOlderThan(s.metadataOrder, s.nextIncarnation)
    && TicketsOlderThan(s.projectionOrder, s.nextIncarnation)
    && MetadataQueue(s.candidates, s.deferred, s.metadataOrder)
    && ProjectionQueue(s.candidates, s.deferred, s.projectionOrder)
    && TombstonesListed(s.tombstones, s.tombstoneOrder, s.limits.metadata, s.terminal)
  }

  ghost predicate IndexedExcept(c: Chain, s: Store, open: set<Hash>) {
    && ListsProper(s.children)
    && IndexExcept(c, s.candidates, s.deferred, s.children, s.anchor, open)
  }

  ghost predicate Almost(c: Chain, s: Store, open: set<Hash>) {
    Filed(c, s) && Queued(s) && IndexedExcept(c, s, open)
  }

  ghost predicate Inv(c: Chain, s: Store) { Almost(c, s, {}) }

  /** Projections, records and tombstones are within their limits. */
  ghost predicate Bounded(s: Store) {
    && s.projectionCount <= s.limits.cache
    && MetadataLen(s) <= s.limits.metadata
    && |s.tombstones| <= s.limits.metadata
  }

  predicate ValidLimits(l: Limits) { 2 <= l.cache <= l.metadata && 0 < l.retention && 0 < l.budget }

  /** `r` is `s` without some records, and `retired` names the tracked ones among those. */
  ghost predicate Retires(s: Store, r: Store, retired: seq<Hash>) {
    && (forall h :: h in r.candidates ==> h in s.candidates && r.candidates[h] == s.candidates[h])
    && (forall h :: h in r.deferred ==> h in s.deferred && r.deferred[h] == s.deferred[h])
    && (forall h :: h in retired <==> Tracked(s, h) && !IsRecord(r, h))
  }

  lemma RetiresTrans(s: Store, m: Store, a: seq<Hash>, r: Store, b: seq<Hash>)
    requires s.candidates.Keys !! s.deferred.Keys
    requires Retires(s, m, a) && Retires(m, r, b)
    ensures Retires(s, r, a + b)
  {
    forall h
      ensures h in a + b <==> Tracked(s, h) && !IsRecord(r, h)
    {
    }
  }

  // ----- Removal -----

  lemma {:induction false} RetainedDistinct(s: Store, q: seq<Ticket>)
    requires Distinct(q)
    ensures Distinct(RetainMetadata(s, q)) && Distinct(RetainProjection(s, q))
  {
    if q != [] {
      RetainedDistinct(s, q[1..]);
      assert q[0] !in q[1..];
    }
  }

  lemma CompactKeeps(s: Store)
    requires Queued(s) && s.candidates.Keys !! s.deferred.Keys
    ensures Queued(Compact(s))
  {
    RetainedDistinct(s, s.metadataOrder);
    RetainedDistinct(s, s.projectionOrder);
    var r := Compact(s);
    forall h | h in s.candidates
      ensures Ticket(s.candidates[h].incarnation, h) in r.metadataOrder
    {
      assert LiveMetadata(s, Ticket(s.candidates[h].incarnation, h));
    }
    forall h | h in s.deferred
      ensures Ticket(s.deferred[h].incarnation, h) in r.metadataOrder
    {
      assert LiveMetadata(s, Ticket(s.deferred[h].incarnation, h));
    }
    forall h | h in s.candidates && s.candidates[h].projection.Some?
      ensures Ticket(s.candidates[h].incarnation, h) in r.projectionOrder
    {
      assert LiveProjection(s, Ticket(s.candidates[h].incarnation, h));
    }
  }

  lemma ListedOnce(tombstones: set<Hash>, order: seq<Hash>, h: Hash)
    requires Distinct(order) && tombstones == Elements(order)
    ensures var order' := if h in tombstones then order else order + [h];
            Distinct(order') && tombstones + {h} == Elements(order') && |tombstones + {h}| == |order'|
            && (order' != [] ==>
                  order'[0] in tombstones + {h} && Distinct(order'[1..])
                  && Elements(order'[1..]) == tombstones + {h} - {order'[0]})
  {
    var order' := if h in tombstones then order else order + [h];
    assert Distinct(order');
    assert tombstones + {h} == Elements(order');
    ElementsSize(order');
  }

  lemma AddTombstoneKeeps(s: Store, h: Hash)
    requires TombstonesListed(s.tombstones, s.tombstoneOrder, s.limits.metadata, s.terminal)
    ensures var r := AddTombstone(s, h); TombstonesListed(r.tombstones, r.tombstoneOrder, r.limits.metadata, r.terminal)
  {
    hide Distinct, Elements;
    ListedOnce(s.tombstones, s.tombstoneOrder, h);
    ElementsSize(s.tombstoneOrder);
    OneTombstoneMore(s.tombstones, h, TombstoneQueue(s, h));
  }

  lemma OneTombstoneMore(tombstones: set<Hash>, h: Hash, order: seq<Hash>)
    ensures |tombstones + {h}| <= |tombstones| + 1
    ensures order != [] && order[0] in tombstones + {h} ==> |tombstones + {h} - {order[0]}| <= |tombstones|
  {
    assert tombstones + {h} == if h in tombstones then tombstones else tombstones + {h};
  }

  lemma UnlinkKeepsProper(children: map<Hash, seq<Hash>>, p: Hash, h: Hash)
    requires ListsProper(children)
    ensures ListsProper(Unlink(children, p, h))
  {
    if p in children {
      WithoutDistinct(children[p], h);
    }
  }

  lemma RemoveRecordFiled(c: Chain, s: Store, h: Hash)
    requires Filed(c, s)
    ensures Filed(c, RemoveRecord(s, h))
  {
    var r := RemoveRecord(s, h);
    assert HeldSet(r.candidates) == HeldSet(s.candidates) - {h};
    assert Held(s, h) ==> h in HeldSet(s.candidates);
  }

  lemma RemoveRecordQueued(s: Store, h: Hash)
    requires Queued(s)
    ensures Queued(RemoveRecord(s, h))
  {
  }

  lemma RemoveRecordIndex(c: Chain, s: Store, h: Hash, open: set<Hash>)
    requires Filed(c, s) && IndexedExcept(c, s, open)
    ensures IndexedExcept(c, RemoveRecord(s, h), open)
  {
    var r := RemoveRecord(s, h);
    if IsRecord(s, h) {
      UnlinkKeepsProper(s.children, Meta(s, h).value.parent, h);
    }
    forall p, x | Listed(r.children, p, x)
      ensures Indexed(r.candidates, r.deferred, r.anchor, x) && Parent(c, x) == p
    {
      assert Listed(s.children, p, x);
    }
    forall x | Indexed(r.candidates, r.deferred, r.anchor, x) && x !in open
      ensures Listed(r.children, Parent(c, x), x)
    {
      assert Indexed(s.candidates, s.deferred, s.anchor, x);
      assert Listed(s.children, Parent(c, x), x);
    }
  }

  /** Removing a record keeps the invariant, whether or not the hash names one. */
  lemma RemoveOneKeeps(c: Chain, s: Store, h: Hash, terminal: bool, open: set<Hash>)
    requires Almost(c, s, open)
    ensures Almost(c, RemoveOne(s, h, terminal), open)
  {
    var a := RemoveRecord(s, h);
    RemoveRecordFiled(c, s, h);
    RemoveRecordQueued(s, h);
    RemoveRecordIndex(c, s, h, open);
    var b := if terminal then AddTombstone(a, h) else a;
    AddTombstoneKeeps(a, h);
    CompactKeeps(b);
  }

  // ----- Insertion -----

  lemma AddChildLists(children: map<Hash, seq<Hash>>, p: Hash, h: Hash)
    requires ListsProper(children)
    ensures ListsProper(AddChild(children, p, h))
    ensures forall q, x :: Listed(AddChild(children, p, h), q, x) <==> Listed(children, q, x) || (q == p && x == h)
  {
    var r := AddChild(children, p, h);
    forall q, x
      ensures Listed(r, q, x) <==> Listed(children, q, x) || (q == p && x == h)
    {
    }
  }

  lemma EntryFiled(c: Chain, es: Entries, ds: Delayed, count: nat, h: Hash, e: Entry)
    requires Named(c, es, ds) && Counted(es, ds, count) && TrackedIsHeld(es)
    requires e.block == c.meta(h) && e.projection.Some? && e.projection.value.block == c.meta(h) && e.tracked
    ensures Named(c, es[h := e], ds - {h}) && TrackedIsHeld(es[h := e])
    ensures Counted(es[h := e], ds - {h}, if h in es && es[h].projection.Some? then count else count + 1)
  {
    assert HeldSet(es[h := e]) == HeldSet(es) + {h};
    if h in HeldSet(es) {
      assert HeldSet(es) + {h} == HeldSet(es);
    }
  }

  lemma EntryQueued(es: Entries, ds: Delayed, metadata: seq<Ticket>, projections: seq<Ticket>, h: Hash, e: Entry)
    requires MetadataQueue(es, ds, metadata) && ProjectionQueue(es, ds, projections)
    requires h in es || h in ds ==> e.incarnation == if h in es then es[h].incarnation else ds[h].incarnation
    requires h !in es && h !in ds ==>
               TicketsOlderThan(metadata, e.incarnation) && TicketsOlderThan(projections, e.incarnation)
    requires e.projection.Some? && es.Keys !! ds.Keys
    ensures var t := Ticket(e.incarnation, h);
            && MetadataQueue(es[h := e], ds - {h}, if h in es || h in ds then metadata else metadata + [t])
            && ProjectionQueue(es[h := e], ds - {h}, if h in es
                               && es[h].projection.Some? then projections else projections + [t])
  {
    var t := Ticket(e.incarnation, h);
    if h !in es && h !in ds {
      AppendDistinct(metadata, t);
    }
    if !(h in es && es[h].projection.Some?) {
      AppendDistinct(projections, t);
    }
  }

  /** Filing a record that already has its incarnation leaves the index as it was. */
  lemma RefiledIndex(c: Chain, es: Entries, ds: Delayed, es': Entries, ds': Delayed, children: map<Hash, seq<Hash>>,
                     anchor: nat)
    requires IndexExcept(c, es, ds, children, anchor, {})
    requires forall x :: Indexed(es', ds', anchor, x) <==> Indexed(es, ds, anchor, x)
    ensures IndexExcept(c, es', ds', children, anchor, {})
  {
  }

  lemma EnlistedIndex(c: Chain, es: Entries, ds: Delayed, es': Entries, ds': Delayed, children: map<Hash, seq<Hash>>,
                      anchor: nat, h: Hash)
    requires ListsProper(children) && IndexExcept(c, es, ds, children, anchor, {})
    requires forall x :: Indexed(es', ds', anchor, x) <==> Indexed(es, ds, anchor, x) || x == h
    ensures ListsProper(AddChild(children, Parent(c, h), h))
    ensures IndexExcept(c, es', ds', AddChild(children, Parent(c, h), h), anchor, {})
  {
    AddChildLists(children, Parent(c, h), h);
  }

  lemma PutProjectionQueued(c: Chain, s: Store, p: Projection, stage: Stage, firstSequence: nat, now: Time)
    requires Filed(c, s) && Queued(s)
    ensures Queued(PutProjection(s, p, stage, firstSequence, now))
  {
    var h := p.block.hash;
    var e := NewEntry(s, p, stage, firstSequence, now);
    EntryQueued(s.candidates, s.deferred, s.metadataOrder, s.projectionOrder, h, e);
  }

  lemma PutProjectionIndexed(c: Chain, s: Store, p: Projection, stage: Stage, firstSequence: nat, now: Time)
    requires Filed(c, s) && IndexedExcept(c, s, {}) && p.block == c.meta(p.block.hash)
    ensures IndexedExcept(c, PutProjection(s, p, stage, firstSequence, now), {})
  {
    var h := p.block.hash;
    var e := NewEntry(s, p, stage, firstSequence, now);
    if IsRecord(s, h) {
      RefiledIndex(c, s.candidates, s.deferred, s.candidates[h := e], s.deferred - {h}, s.children, s.anchor);
    } else {
      EnlistedIndex(c, s.candidates, s.deferred, s.candidates[h := e], s.deferred - {h}, s.children, s.anchor, h);
    }
  }

  /** Storing a projection keeps the invariant: for a new record, a deferred one, one whose
      projection had been evicted, and one that still holds it. */
  lemma PutProjectionKeeps(c: Chain, s: Store, p: Projection, stage: Stage, firstSequence: nat, now: Time)
    requires Inv(c, s) && p.block == c.meta(p.block.hash)
    ensures Inv(c, PutProjection(s, p, stage, firstSequence, now))
  {
    hide Named, Counted, TrackedIsHeld, Queued, IndexedExcept;
    EntryFiled(c, s.candidates, s.deferred, s.projectionCount, p.block.hash, NewEntry(s, p, stage, firstSequence, now));
    PutProjectionQueued(c, s, p, stage, firstSequence, now);
    PutProjectionIndexed(c, s, p, stage, firstSequence, now);
  }

  lemma PutDeferredKeeps(c: Chain, s: Store, block: BlockMeta, changes: seq<SlotChange>, now: Time)
    requires Inv(c, s) && block == c.meta(block.hash) && block.hash !in s.candidates
    ensures Inv(c, PutDeferred(s, block, changes, now))
  {
    hide QueueFinalityCheck, AddChild, IndexExcept, ListsProper, HeldSet, Distinct;
    var h := block.hash;
    var r := PutDeferred(s, block, changes, now);
    if h in s.deferred {
      RefiledIndex(c, s.candidates, s.deferred, r.candidates, r.deferred, s.children, s.anchor);
    } else {
      EnlistedIndex(c, s.candidates, s.deferred, r.candidates, r.deferred, s.children, s.anchor, h);
      AppendDistinct(s.metadataOrder, Ticket(s.nextIncarnation, h));
    }
  }

  // ----- Limits -----

  lemma ScannedDistinct(q: seq<Ticket>, k: nat, head: Ticket)
    requires Distinct(q) && k <= |q|
    ensures Distinct(Scanned(q, k, head))
  {
    var j := Position(q, head);
    if j < k {
      assert head !in q[k..];
      AppendDistinct(q[k..], head);
    }
  }

  lemma ScannedHas(q: seq<Ticket>, k: nat, head: Ticket, t: Ticket)
    requires k <= |q|
    ensures t in Scanned(q, k, head) ==> t in q
    ensures t in q && (t == head || t !in q[..k]) ==> t in Scanned(q, k, head)
  {
    hide Position;
    assert q == q[..k] + q[k..];
    if Position(q, head) < k {
      assert head in q;
    }
  }

  /** The projection queue survives a scan over tickets that may not be evicted. */
  lemma ScanKeepsProjections(s: Store, k: nat)
    requires ProjectionQueue(s.candidates, s.deferred, s.projectionOrder)
    requires k <= FirstProjectionVictim(s, s.projectionOrder)
    ensures ProjectionQueue(s.candidates, s.deferred, Scanned(s.projectionOrder, k, HeadTicket(s)))
  {
    var q := s.projectionOrder;
    ScannedDistinct(q, k, HeadTicket(s));
    forall t: Ticket
      ensures t in Scanned(q, k, HeadTicket(s)) ==> t in q
      ensures LiveProjection(s, t) && t in q ==> t in Scanned(q, k, HeadTicket(s))
    {
      ScannedHas(q, k, HeadTicket(s), t);
    }
    forall h | h in s.candidates && s.candidates[h].projection.Some?
      ensures Ticket(s.candidates[h].incarnation, h) in Scanned(q, k, HeadTicket(s))
    {
      assert LiveProjection(s, Ticket(s.candidates[h].incarnation, h));
    }
  }

  lemma ScanKeepsMetadata(s: Store, k: nat)
    requires MetadataQueue(s.candidates, s.deferred, s.metadataOrder)
    requires s.candidates.Keys !! s.deferred.Keys
    requires k <= FirstMetadataVictim(s, s.metadataOrder)
    ensures MetadataQueue(s.candidates, s.deferred, Scanned(s.metadataOrder, k, HeadTicket(s)))
  {
    var q := s.metadataOrder;
    ScannedDistinct(q, k, HeadTicket(s));
    forall t: Ticket
      ensures LiveMetadata(s, t) && t in q ==> t in Scanned(q, k, HeadTicket(s))
    {
      ScannedHas(q, k, HeadTicket(s), t);
    }
    forall h | h in s.candidates
      ensures Ticket(s.candidates[h].incarnation, h) in Scanned(q, k, HeadTicket(s))
    {
      assert LiveMetadata(s, Ticket(s.candidates[h].incarnation, h));
    }
    forall h | h in s.deferred
      ensures Ticket(s.deferred[h].incarnation, h) in Scanned(q, k, HeadTicket(s))
    {
      assert LiveMetadata(s, Ticket(s.deferred[h].incarnation, h));
    }
  }

  lemma EvictionKeepsQueue(es: Entries, ds: Delayed, q: seq<Ticket>, h: Hash)
    requires ProjectionQueue(es, ds, q) && q != []
    requires h in es && q[0] == Ticket(es[h].incarnation, h)
    ensures ProjectionQueue(es[h := es[h].(projection := None, tracked := false)], ds, q[1..])
  {
    assert q == [q[0]] + q[1..];
  }

  lemma RemovalKeepsQueue(es: Entries, ds: Delayed, q: seq<Ticket>, h: Hash)
    requires MetadataQueue(es, ds, q) && q != [] && q[0].hash == h
    ensures MetadataQueue(es - {h}, ds - {h}, q[1..])
  {
    assert q == [q[0]] + q[1..];
  }

  lemma EvictProjectionQueued(s: Store)
    requires Queued(s)
    requires var i := FirstProjectionVictim(s, s.projectionOrder); i < |s.projectionOrder| && s.projectionCount > 0
    ensures Queued(EvictProjection(s, FirstProjectionVictim(s, s.projectionOrder)))
  {
    var i := FirstProjectionVictim(s, s.projectionOrder);
    var scanned := Scanned(s.projectionOrder, i, HeadTicket(s));
    ScanKeepsProjections(s, i);
    EvictionKeepsQueue(s.candidates, s.deferred, scanned, s.projectionOrder[i].hash);
    ScannedOlder(s.projectionOrder, i, HeadTicket(s), s.nextIncarnation);
    MetadataUnchanged(s.candidates, s.deferred, s.metadataOrder, s.projectionOrder[i].hash);
  }

  lemma ScannedOlder(q: seq<Ticket>, k: nat, head: Ticket, next: nat)
    requires TicketsOlderThan(q, next) && k <= |q|
    ensures TicketsOlderThan(Scanned(q, k, head), next)
    ensures TicketsOlderThan(if k < |q| then Scanned(q, k, head)[1..] else [], next)
  {
  }

  lemma MetadataUnchanged(es: Entries, ds: Delayed, q: seq<Ticket>, h: Hash)
    requires MetadataQueue(es, ds, q) && h in es
    ensures MetadataQueue(es[h := es[h].(projection := None, tracked := false)], ds, q)
  {
  }

  lemma DropProjectionFiled(c: Chain, s: Store, h: Hash)
    requires Filed(c, s) && Held(s, h) && s.projectionCount > 0
    ensures Filed(c, DropProjection(s, h))
  {
    var r := DropProjection(s, h);
    assert HeldSet(r.candidates) == HeldSet(s.candidates) - {h};
    assert h in HeldSet(s.candidates);
  }

  lemma EvictProjectionKeeps(c: Chain, s: Store)
    requires Inv(c, s)
    requires var i := FirstProjectionVictim(s, s.projectionOrder); i < |s.projectionOrder| && s.projectionCount > 0
    ensures Inv(c, EvictProjection(s, FirstProjectionVictim(s, s.projectionOrder)))
  {
    var i := FirstProjectionVictim(s, s.projectionOrder);
    EvictProjectionQueued(s);
    DropProjectionFiled(c, s, s.projectionOrder[i].hash);
    SameIndexed(c, s, DropProjection(s, s.projectionOrder[i].hash));
  }

  lemma RotateProjectionKeeps(c: Chain, s: Store, k: nat)
    requires Inv(c, s) && k <= FirstProjectionVictim(s, s.projectionOrder)
    ensures Inv(c, s.(projectionOrder := Scanned(s.projectionOrder, k, HeadTicket(s))))
  {
    ScanKeepsProjections(s, k);
    ScannedOlder(s.projectionOrder, k, HeadTicket(s), s.nextIncarnation);
  }

  lemma TrimProjectionsKeeps(c: Chain, s: Store)
    requires Inv(c, s)
    ensures Inv(c, TrimProjections(s).store)
  {
    hide Inv, EvictProjection, Scanned, FirstProjectionVictim, Position, HeadTicket;
    var q := s.projectionOrder;
    var i := FirstProjectionVictim(s, q);
    var j := Position(q, HeadTicket(s));
    if s.projectionCount > s.limits.cache && i < |q| {
      if j < i {
        RotateProjectionKeeps(c, s, j + 1);
      }
      EvictProjectionKeeps(c, s);
    }
  }

  /** Entries that change without changing incarnation leave the index as it was. */
  lemma SameIndexed(c: Chain, s: Store, r: Store)
    requires IndexedExcept(c, s, {})
    requires r.children == s.children && r.anchor == s.anchor && r.deferred == s.deferred
    requires r.candidates.Keys == s.candidates.Keys
    requires forall h :: h in s.candidates ==> r.candidates[h].incarnation == s.candidates[h].incarnation
    ensures IndexedExcept(c, r, {})
  {
    forall h
      ensures Indexed(r.candidates, r.deferred, r.anchor, h) == Indexed(s.candidates, s.deferred, s.anchor, h)
    {
    }
  }

  lemma EvictRecordQueued(c: Chain, s: Store)
    requires Filed(c, s) && Queued(s)
    requires FirstMetadataVictim(s, s.metadataOrder) < |s.metadataOrder|
    ensures Queued(EvictRecord(s, FirstMetadataVictim(s, s.metadataOrder)))
  {
    var i := FirstMetadataVictim(s, s.metadataOrder);
    var h := s.metadataOrder[i].hash;
    var scanned := Scanned(s.metadataOrder, i, HeadTicket(s));
    ScanKeepsMetadata(s, i);
    RemovalKeepsQueue(s.candidates, s.deferred, scanned, h);
    RemoveRecordQueued(s, h);
    ScannedOlder(s.metadataOrder, i, HeadTicket(s), s.nextIncarnation);
    CompactKeeps(RemoveRecord(s.(metadataOrder := scanned[1..]), h));
  }

  lemma TrimMetadataKeeps(c: Chain, s: Store)
    requires Inv(c, s)
    ensures Inv(c, TrimMetadata(s).store)
  {
    hide Queued, FirstMetadataVictim, Scanned;
    var q := s.metadataOrder;
    var i := FirstMetadataVictim(s, q);
    if MetadataLen(s) > s.limits.metadata && i < |q| {
      EvictRecordQueued(c, s);
      RemoveRecordFiled(c, s, q[i].hash);
      RemoveRecordIndex(c, s, q[i].hash, {});
    }
  }

  lemma AnchoredKeeps(c: Chain, limits: Limits, p: Projection, finalized: Option<Checkpoint>, incarnation: nat,
                      now: Time)
    requires ValidLimits(limits)
    requires p.block == c.meta(p.block.hash)
    ensures Inv(c, Anchored(limits, p, finalized, incarnation, now))
    ensures Bounded(Anchored(limits, p, finalized, incarnation, now))
  {
    var s := Anchored(limits, p, finalized, incarnation, now);
    assert HeldSet(s.candidates) == {p.block.hash};
  }
}
