/** The limits: what an insertion may evict, what it may not, and when eviction fails. */
module StoreLimits {
  import opened Types
  import opened Chain
  import opened Store
  import opened StoreInvariants

  // ----- The projection cache -----

  /** One of three projections is neither of two given hashes'. */
  lemma ThirdMember(all: set<Hash>, a: Hash, b: Hash) returns (x: Hash)
    requires |all| > |{a, b}|
    ensures x in all && x != a && x != b
  {
    assert all == (all - {a, b}) + (all * {a, b});
    assert {a, b} == (all * {a, b}) + ({a, b} - all);
    assert all - {a, b} != {};
    x :| x in all && x !in {a, b};
  }

  /** Once a third projection is held, some projection may be evicted, and it lies in front of the
      newest one. */
  lemma VictimBefore(c: Chain, s: Store, newest: Hash)
    requires Inv(c, s) && s.projectionCount > |{s.head, newest}|
    ensures var i := FirstProjectionVictim(s, s.projectionOrder);
            i < |s.projectionOrder|
            && (Held(s, newest) && s.projectionOrder[|s.projectionOrder| - 1].hash == newest
                && LiveProjection(s, s.projectionOrder[|s.projectionOrder| - 1])
                ==> s.projectionOrder[i].hash != newest)
  {
    var q := s.projectionOrder;
    var x := ThirdMember(HeldSet(s.candidates), s.head, newest);
    var t := Ticket(s.candidates[x].incarnation, x);
    assert ProjectionVictim(s, t);
    var k :| 0 <= k < |q| && q[k] == t;
    var i := FirstProjectionVictim(s, q);
    assert i <= k;
  }

  lemma EvictProjectionFields(s: Store, i: nat)
    requires i < |s.projectionOrder| && s.projectionOrder[i].hash in s.candidates && s.projectionCount > 0
    ensures var r := EvictProjection(s, i);
            var h := s.projectionOrder[i].hash;
            && r.candidates == s.candidates[h := s.candidates[h].(projection := None, tracked := false)]
            && r.deferred == s.deferred && r.projectionCount == s.projectionCount - 1
  {
  }

  /** A trim that succeeds brings the cache within its limit. It never touches the head, and it
      evicts at most one projection: the one it retires. */
  lemma TrimProjectionsBound(c: Chain, s: Store)
    requires Inv(c, s) && s.projectionCount <= s.limits.cache + 1 && s.limits.cache >= 1
    ensures var r := TrimProjections(s);
            && (r.ok ==> r.store.projectionCount <= s.limits.cache)
            && r.store.candidates.Keys == s.candidates.Keys && r.store.deferred == s.deferred
            && (forall h :: h in s.candidates && h !in r.retired && r.ok ==> r.store.candidates[h] == s.candidates[h])
            && (forall h :: h in r.retired ==> h != s.head && Held(s, h) && !Held(r.store, h))
            && (Held(s, s.head) ==> Held(r.store, s.head))
  {
    hide EvictProjection, FirstProjectionVictim, Position, Scanned;
    if s.projectionCount > s.limits.cache {
      assert {s.head, s.head} == {s.head};
      VictimBefore(c, s, s.head);
      EvictProjectionFields(s, FirstProjectionVictim(s, s.projectionOrder));
      assert TrackedIsHeld(s.candidates);
      hide Inv;
    }
  }

  /** The projection inserted last is not the one evicted, given room for two. */
  lemma NewestProjectionStays(c: Chain, s: Store, newest: Hash)
    requires Inv(c, s) && Held(s, newest)
    requires s.limits.cache >= 2 && s.projectionOrder != []
    requires s.projectionOrder[|s.projectionOrder| - 1] == Ticket(s.candidates[newest].incarnation, newest)
    ensures Held(TrimProjections(s).store, newest)
  {
    hide EvictProjection, FirstProjectionVictim, Position, Scanned;
    if s.projectionCount > s.limits.cache {
      VictimBefore(c, s, newest);
      EvictProjectionFields(s, FirstProjectionVictim(s, s.projectionOrder));
      hide Inv;
    }
  }

  /** The trim fails exactly when more tickets stand in front of the first evictable one than
      remain behind it, the head's ticket counting as remaining. */
  lemma TrimFailsExactly(c: Chain, s: Store)
    requires Inv(c, s) && Held(s, s.head) && s.projectionCount == s.limits.cache + 1 && s.limits.cache >= 1
    ensures var q := s.projectionOrder;
            var i := FirstProjectionVictim(s, q);
            var rotated := if HeadTicket(s) in q[..i] then 1 else 0;
            !TrimProjections(s).ok <==> i > |q| - i - 1 + rotated
  {
    hide Inv, FirstProjectionVictim, HeadTicket;
    assert {s.head, s.head} == {s.head};
    VictimBefore(c, s, s.head);
    var q := s.projectionOrder;
    var i := FirstProjectionVictim(s, q);
    PositionBefore(q, HeadTicket(s), i);
  }

  lemma PositionBefore(q: seq<Ticket>, t: Ticket, i: nat)
    requires i <= |q|
    ensures t in q[..i] <==> Position(q, t) < i
  {
    if t in q[..i] {
      var k :| 0 <= k < i && q[k] == t;
    }
  }

  /** With no stale ticket in the queue the trim succeeds. */
  lemma TrimSucceedsWithoutStale(c: Chain, s: Store)
    requires Inv(c, s) && Held(s, s.head) && s.projectionCount == s.limits.cache + 1 && s.limits.cache >= 1
    requires forall t :: t in s.projectionOrder ==> LiveProjection(s, t)
    ensures TrimProjections(s).ok
  {
    TrimFailsExactly(c, s);
    assert {s.head, s.head} == {s.head};
    VictimBefore(c, s, s.head);
    var q := s.projectionOrder;
    var i := FirstProjectionVictim(s, q);
    forall k | 0 <= k < i
      ensures q[k] == HeadTicket(s)
    {
      assert LiveProjection(s, q[k]);
    }
    assert i == 0 || (i == 1 && q[..1] == [q[0]]);
  }

  // ----- Records -----

  lemma RecordCount(s: Store)
    requires s.candidates.Keys !! s.deferred.Keys
    ensures |s.candidates.Keys + s.deferred.Keys| == MetadataLen(s)
  {
  }

  lemma ThirdRecord(s: Store, a: Hash, b: Hash) returns (x: Hash)
    requires s.candidates.Keys !! s.deferred.Keys && MetadataLen(s) > |{a, b}|
    ensures IsRecord(s, x) && x != a && x != b
  {
    RecordCount(s);
    x := ThirdMember(s.candidates.Keys + s.deferred.Keys, a, b);
  }

  lemma LiveTicket(s: Store, x: Hash) returns (k: nat)
    requires MetadataQueue(s.candidates, s.deferred, s.metadataOrder) && IsRecord(s, x)
    ensures k < |s.metadataOrder| && s.metadataOrder[k].hash == x && LiveMetadata(s, s.metadataOrder[k])
  {
    k :| 0 <= k < |s.metadataOrder| && s.metadataOrder[k] == Ticket(Incarnation(s, x).value, x);
  }

  lemma RecordVictimBefore(s: Store, newest: Hash)
    requires MetadataQueue(s.candidates, s.deferred, s.metadataOrder)
    requires s.candidates.Keys !! s.deferred.Keys && MetadataLen(s) > |{s.head, newest}|
    ensures var i := FirstMetadataVictim(s, s.metadataOrder);
            i < |s.metadataOrder|
            && (s.metadataOrder[|s.metadataOrder| - 1].hash == newest ==> i < |s.metadataOrder| - 1)
  {
    var x := ThirdRecord(s, s.head, newest);
    var k := LiveTicket(s, x);
    assert MetadataVictim(s, s.metadataOrder[k]);
  }

  lemma EvictRecordFields(s: Store, i: nat)
    requires s.candidates.Keys !! s.deferred.Keys && i < |s.metadataOrder|
    ensures var r := EvictRecord(s, i);
            var h := s.metadataOrder[i].hash;
            && r.candidates == s.candidates - {h} && r.deferred == s.deferred - {h}
            && r.projectionCount <= s.projectionCount
            && MetadataLen(r) == MetadataLen(s) - if IsRecord(s, h) then 1 else 0
  {
    var h := s.metadataOrder[i].hash;
    assert (s.candidates - {h}).Keys == s.candidates.Keys - {h};
    assert (s.deferred - {h}).Keys == s.deferred.Keys - {h};
  }

  /** The trim always succeeds, keeps the head, and removes at most one record. */
  lemma TrimMetadataBound(s: Store)
    requires MetadataQueue(s.candidates, s.deferred, s.metadataOrder)
    requires s.candidates.Keys !! s.deferred.Keys
    requires MetadataLen(s) <= s.limits.metadata + 1 && s.limits.metadata >= 1
    ensures var r := TrimMetadata(s);
            && r.ok && MetadataLen(r.store) <= s.limits.metadata
            && r.store.projectionCount <= s.projectionCount
            && (s.head in s.candidates ==> s.head in r.store.candidates)
            && (forall h :: h in r.store.candidates ==> h in s.candidates && r.store.candidates[h] == s.candidates[h])
            && (forall h :: h in s.candidates && h !in r.store.candidates ==>
                  (h in r.retired <==> s.candidates[h].tracked))
            && (forall h :: h in r.retired ==> h in s.candidates && h !in r.store.candidates)
  {
    hide EvictRecord, MetadataQueue, MetadataLen, FirstMetadataVictim;
    if MetadataLen(s) > s.limits.metadata {
      assert {s.head, s.head} == {s.head};
      RecordVictimBefore(s, s.head);
      EvictRecordFields(s, FirstMetadataVictim(s, s.metadataOrder));
    }
  }

  /** The record inserted last is not the one removed, given room for two. */
  lemma NewestRecordStays(s: Store, newest: Hash)
    requires MetadataQueue(s.candidates, s.deferred, s.metadataOrder)
    requires s.candidates.Keys !! s.deferred.Keys && newest in s.candidates
    requires s.limits.metadata >= 2 && s.metadataOrder != []
    requires s.metadataOrder[|s.metadataOrder| - 1] == Ticket(s.candidates[newest].incarnation, newest)
    ensures newest in TrimMetadata(s).store.candidates
  {
    if MetadataLen(s) > s.limits.metadata {
      RecordVictimBefore(s, newest);
      var q := s.metadataOrder;
      assert q[FirstMetadataVictim(s, q)] != q[|q| - 1];
    }
  }
}
