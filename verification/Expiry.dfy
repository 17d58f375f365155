/** Retention: what a tick expires and announces, and how long a record may stay. */
module Expiry {
  import opened Types
  import opened Sequences
  import opened Chain
  import opened Projections
  import opened Store
  import opened StoreInvariants
  import opened StoreLimits
  import opened StoreTrees
  import opened StoreFaith
  import opened Finality
  import opened FinalityLinear
  import opened FinalityComplete
  import opened Wire
  import opened Publisher
  import opened PublisherInvariants
  import opened Frames
  import opened HeadSurvival
  import opened Retention

  // ----- Announcements -----

  /** The call is a frame that went out and retires the hash for the reason. */
  predicate Retiring(call: Call, h: Hash, reason: Reason) {
    call.encoded && call.event.CandidatesRetired? && h in call.event.hashes && call.event.reason == reason
  }

  /** One of the calls made in between retires the hash for the reason. */
  ghost predicate Announces(before: seq<Call>, after: seq<Call>, h: Hash, reason: Reason) {
    before <= after && exists i :: |before| <= i < |after| && Retiring(after[i], h, reason)
  }

  lemma AnnouncesLater(a: seq<Call>, b: seq<Call>, c: seq<Call>, d: seq<Call>, h: Hash, reason: Reason)
    requires a <= b && Announces(b, c, h, reason) && c <= d
    ensures Announces(a, d, h, reason)
  {
    var i :| |b| <= i < |c| && Retiring(c[i], h, reason);
    assert d[i] == c[i];
  }

  /** Every hash handed over for retirement is announced, once everything went out. */
  lemma {:induction false} RetiredAreAnnounced(encodes: nat -> bool, batch: nat, sh: Shared, g: Generation,
                                               hashes: seq<Hash>, reason: Reason)
    ensures var sent := PublishRetired(encodes, batch, sh, g, hashes, reason);
            sent.ok ==> forall h :: h in hashes ==> Announces(sh.calls, sent.shared.calls, h, reason)
    decreases |hashes|
  {
    var sent := PublishRetired(encodes, batch, sh, g, hashes, reason);
    if hashes != [] && sent.ok {
      var n := if batch == 0 then 1 else if batch < |hashes| then batch else |hashes|;
      var first := Publish(encodes, sh, g, CandidatesRetired(hashes[..n], reason), None).shared;
      RetiredAreAnnounced(encodes, batch, first, g, hashes[n..], reason);
      RetiredGrows(encodes, batch, first, g, hashes[n..], reason);
      forall h | h in hashes
        ensures Announces(sh.calls, sent.shared.calls, h, reason)
      {
        assert hashes == hashes[..n] + hashes[n..];
        if h in hashes[..n] {
          assert Retiring(first.calls[|sh.calls|], h, reason);
          AnnouncesLater(sh.calls, sh.calls, first.calls, sent.shared.calls, h, reason);
        } else {
          AnnouncesLater(sh.calls, first.calls, sent.shared.calls, sent.shared.calls, h, reason);
        }
      }
    }
  }

  /** The hashes that a series of attempts names for retirement, in order. */
  function HashesIn(calls: seq<Call>): seq<Hash>
    decreases |calls|
  {
    if calls == [] then []
    else (if calls[0].event.CandidatesRetired? then calls[0].event.hashes else []) + HashesIn(calls[1..])
  }

  /** Frames of the reason, each but the last full: of the batch size, or of one hash if that is 0. */
  ghost predicate Batches(calls: seq<Call>, batch: nat, g: Generation, reason: Reason) {
    var size := if batch == 0 then 1 else batch;
    forall i :: 0 <= i < |calls| ==>
      && calls[i].event.CandidatesRetired? && calls[i].event.reason == reason && calls[i].generation == g
      && 0 < |calls[i].event.hashes| <= size && (i < |calls| - 1 ==> |calls[i].event.hashes| == size)
  }

  lemma OneBatchMore(call: Call, rest: seq<Call>, batch: nat, g: Generation, reason: Reason)
    requires call.event.CandidatesRetired? && Batches(rest, batch, g, reason) && Batches([call], batch, g, reason)
    requires rest == [] || |call.event.hashes| == if batch == 0 then 1 else batch
    ensures Batches([call] + rest, batch, g, reason) && HashesIn([call] + rest) == call.event.hashes + HashesIn(rest)
  {
    assert call == [call][0] && ([call] + rest)[1..] == rest;
  }

  /** Retirements go out in full batches and in order; without an error, all of them and nothing else. */
  lemma {:induction false} RetiredInBatches(encodes: nat -> bool, batch: nat, sh: Shared, g: Generation,
                                            hashes: seq<Hash>, reason: Reason)
    ensures var sent := PublishRetired(encodes, batch, sh, g, hashes, reason);
            && sh.calls <= sent.shared.calls && Batches(sent.shared.calls[|sh.calls|..], batch, g, reason)
            && (sent.ok ==> HashesIn(sent.shared.calls[|sh.calls|..]) == hashes)
            && (!sent.ok ==> HashesIn(sent.shared.calls[|sh.calls|..]) <= hashes)
    decreases |hashes|
  {
    hide Batches, HashesIn;
    var calls := PublishRetired(encodes, batch, sh, g, hashes, reason).shared.calls;
    if hashes == [] {
      NoBatch(batch, g, reason);
    } else {
      var n := if batch == 0 then 1 else if batch < |hashes| then batch else |hashes|;
      var first := Publish(encodes, sh, g, CandidatesRetired(hashes[..n], reason), None);
      var call := first.shared.calls[|sh.calls|];
      assert Batches([call], batch, g, reason) && HashesIn([call]) == hashes[..n] by {
        OneBatch(call, batch, g, reason);
      }
      assert hashes == hashes[..n] + hashes[n..];
      if first.ok {
        RetiredInBatches(encodes, batch, first.shared, g, hashes[n..], reason);
        var rest := calls[|first.shared.calls|..];
        assert calls[|sh.calls|..] == [call] + rest;
        OneBatchMore(call, rest, batch, g, reason);
      } else {
        assert calls[|sh.calls|..] == [call];
      }
    }
  }

  lemma NoBatch(batch: nat, g: Generation, reason: Reason)
    ensures Batches([], batch, g, reason) && HashesIn([]) == []
  {
  }

  lemma OneBatch(call: Call, batch: nat, g: Generation, reason: Reason)
    requires call.event.CandidatesRetired? && call.event.reason == reason && call.generation == g
    requires 0 < |call.event.hashes| <= if batch == 0 then 1 else batch
    ensures Batches([call], batch, g, reason) && HashesIn([call]) == call.event.hashes
  {
    assert [call][1..] == [];
    assert HashesIn([call]) == call.event.hashes + HashesIn([]);
  }

  lemma SentAreAnnounced(env: Env, p: State, g: Generation, hashes: seq<Hash>, reason: Reason)
    ensures var o := SendRetired(env, p, g, hashes, reason);
            o.ok ==> forall h :: h in hashes ==> Announces(p.shared.calls, o.state.shared.calls, h, reason)
  {
    hide PublishRetired, Announces;
    RetiredAreAnnounced(env.encodes, env.batch, p.shared, g, hashes, reason);
  }

  // ----- What a tick expires -----

  function ExpiresAt(s: Store, h: Hash): Time
    requires IsRecord(s, h)
  {
    if h in s.candidates then s.candidates[h].expiresAt else s.deferred[h].expiresAt
  }

  /** A record other than the head whose time has come. */
  predicate Over(s: Store, h: Hash, now: Time) { IsRecord(s, h) && h != s.head && ExpiresAt(s, h) <= now }

  lemma {:induction false} RemoveAllRemoves(s: Store, hashes: seq<Hash>)
    ensures var (r, tracked) := RemoveAll(s, hashes);
            && r.candidates == s.candidates - Elements(hashes) && r.deferred == s.deferred - Elements(hashes)
            && (forall h :: h in tracked <==> h in hashes && Tracked(s, h))
    decreases |hashes|
  {
    hide RemoveOne;
    if hashes != [] {
      PlainRemovalFields(s, hashes[0]);
      var m := RemoveOne(s, hashes[0], false);
      RemoveAllRemoves(m, hashes[1..]);
      assert Elements(hashes) == {hashes[0]} + Elements(hashes[1..]);
      assert hashes == [hashes[0]] + hashes[1..];
    }
  }

  lemma DisjointCount(a: set<Hash>, b: set<Hash>, gone: set<Hash>)
    requires a !! b && gone <= a + b
    ensures |a - gone| + |b - gone| == |a| + |b| - |gone|
  {
    assert |a + b| == |a| + |b| && |(a - gone) + (b - gone)| == |a - gone| + |b - gone|;
    assert (a - gone) + (b - gone) == (a + b) - gone;
  }

  /** Removing distinct records removes as many records. */
  lemma RemovedCount(s: Store, r: Store, hashes: seq<Hash>)
    requires s.candidates.Keys !! s.deferred.Keys && Distinct(hashes)
    requires forall h :: h in hashes ==> IsRecord(s, h)
    requires r.candidates == s.candidates - Elements(hashes) && r.deferred == s.deferred - Elements(hashes)
    ensures MetadataLen(s) - MetadataLen(r) == |hashes|
  {
    hide Distinct, Elements;
    var gone := Elements(hashes);
    ElementsSize(hashes);
    assert gone <= s.candidates.Keys + s.deferred.Keys by { ElementsAre(hashes); }
    assert r.candidates.Keys == s.candidates.Keys - gone && r.deferred.Keys == s.deferred.Keys - gone;
    DisjointCount(s.candidates.Keys, s.deferred.Keys, gone);
  }

  lemma ElementsAre(hashes: seq<Hash>)
    ensures forall h :: h in Elements(hashes) <==> h in hashes
  {
  }

  /** What the sweep of a tick leaves of its budget. */
  function BudgetLeft(s: Store): nat {
    var work := ProcessFinality(s, s.limits.budget).work;
    if work < s.limits.budget then s.limits.budget - work else 0
  }

  /** From the swept store to the next one: only expired records went, and none is left unless the rest of the
      budget was spent; deferred ones went last; and consumers were told of each that was tracked. */
  ghost predicate ExpiresFrom(s: Store, left: nat, before: seq<Call>, q: State, now: Time) {
    && Fewer(s, q.store)
    && (forall h :: Gone(s, q.store, h) ==> Over(s, h, now))
    && ((forall h :: Over(s, h, now) ==> !IsRecord(q.store, h)) || MetadataLen(s) - MetadataLen(q.store) == left)
    && (forall h, x :: Gone(s, q.store, h) && h in s.deferred && Over(s, x, now) ==> x !in q.store.candidates)
    && (forall h :: Gone(s, q.store, h) && Tracked(s, h) ==>
          Announces(before, q.shared.calls, h, RetentionExpired))
  }

  /** What a tick does that succeeds: consumers are told of each tracked record the sweep removed, and then
      what is left of the budget goes to expired records. */
  ghost predicate Expires(p: State, q: State, now: Time) {
    var swept := ProcessFinality(p.store, p.store.limits.budget).store;
    && (forall h :: Gone(p.store, swept, h) && Tracked(p.store, h) ==>
          Announces(p.shared.calls, q.shared.calls, h, FinalizedConflict))
    && ExpiresFrom(swept, BudgetLeft(p.store), p.shared.calls, q, now)
  }

  lemma DueParts(s: Store, due: seq<Hash>, now: Time, left: nat)
    requires Due(s, due, now, left)
    ensures Distinct(due) && |due| <= left && forall h :: h in due ==> Expired(s, h, now)
    ensures |due| < left ==> forall h :: Expired(s, h, now) ==> h in due
    ensures forall d, h :: d in due && d !in s.candidates && h in s.candidates && Expired(s, h, now) ==> h in due
  {
  }

  lemma DueRemoved(s: Store, due: seq<Hash>, left: nat, now: Time)
    requires s.candidates.Keys !! s.deferred.Keys && Due(s, due, now, left)
    ensures var (r, tracked) := RemoveAll(s, due);
            && (forall h :: Gone(s, r, h) <==> h in due)
            && (forall h :: Gone(s, r, h) && Tracked(s, h) ==> h in tracked)
            && MetadataLen(s) - MetadataLen(r) == |due|
  {
    hide RemoveAll, Due, Elements, Distinct, MetadataLen;
    DueParts(s, due, now, left);
    ElementsAre(due);
    RemoveAllRemoves(s, due);
    RemovedCount(s, RemoveAll(s, due).0, due);
  }

  lemma DueExpires(s: Store, due: seq<Hash>, left: nat, now: Time)
    requires s.candidates.Keys !! s.deferred.Keys && Due(s, due, now, left)
    ensures var (r, tracked) := RemoveAll(s, due);
            && (forall h :: Gone(s, r, h) ==> Over(s, h, now))
            && ((forall h :: Over(s, h, now) ==> !IsRecord(r, h)) || MetadataLen(s) - MetadataLen(r) == left)
            && (forall h, x :: Gone(s, r, h) && h in s.deferred && Over(s, x, now) ==> x !in r.candidates)
            && (forall h :: Gone(s, r, h) && Tracked(s, h) ==> h in tracked) && Fewer(s, r)
  {
    hide RemoveAll, Due, Distinct, MetadataLen;
    DueParts(s, due, now, left);
    assert forall h :: Over(s, h, now) <==> Expired(s, h, now);
    DueRemoved(s, due, left, now);
    RemoveAllRemoves(s, due);
  }

  /** Hashes sent for retirement after some other frames are announced, also counted from before those. */
  lemma AnnouncedSince(env: Env, calls: seq<Call>, p: State, g: Generation, hashes: seq<Hash>, reason: Reason)
    requires calls <= p.shared.calls
    ensures var o := SendRetired(env, p, g, hashes, reason);
            && calls <= o.state.shared.calls && o.state.store == p.store
            && (o.ok ==> forall h :: h in hashes ==> Announces(calls, o.state.shared.calls, h, reason))
  {
    hide Announces, PublishRetired;
    SendRetiredStore(env, p, g, hashes, reason);
    SendRetiredLaw(env, p, g, hashes, reason);
    SentAreAnnounced(env, p, g, hashes, reason);
    var o := SendRetired(env, p, g, hashes, reason);
    if o.ok {
      forall h | h in hashes
        ensures Announces(calls, o.state.shared.calls, h, reason)
      {
        AnnouncesLater(calls, p.shared.calls, o.state.shared.calls, o.state.shared.calls, h, reason);
      }
    }
  }

  lemma ExpiryAnnounced(env: Env, before: seq<Call>, p: State, due: seq<Hash>, left: nat, now: Time)
    requires p.store.candidates.Keys !! p.store.deferred.Keys && Due(p.store, due, now, left)
    requires before <= p.shared.calls
    ensures var (s, expired) := RemoveAll(p.store, due);
            var o := SendRetired(env, p.(store := s), Active(p), expired, RetentionExpired);
            o.ok ==> ExpiresFrom(p.store, left, before, o.state, now)
  {
    hide SendRetired, RemoveAll, Over, Announces, Due, Gone, Tracked, MetadataLen;
    var (s, expired) := RemoveAll(p.store, due);
    DueExpires(p.store, due, left, now);
    AnnouncedSince(env, before, p.(store := s), Active(p), expired, RetentionExpired);
  }

  lemma SweepAnnounced(env: Env, p: State)
    requires Valid(env, p) && !p.broken
    ensures var slice := ProcessFinality(p.store, p.store.limits.budget);
            var swept := SendRetired(env, p.(store := slice.store), Active(p), slice.retired, FinalizedConflict);
            && swept.state.store == slice.store && p.shared.calls <= swept.state.shared.calls
            && Active(swept.state) == Active(p) && slice.store.candidates.Keys !! slice.store.deferred.Keys
            && (swept.ok ==> forall h :: Gone(p.store, slice.store, h) && Tracked(p.store, h) ==>
                               Announces(p.shared.calls, swept.state.shared.calls, h, FinalizedConflict))
  {
    hide SharedTrue, Good, Bounded, ProcessFinality, SendRetired, Announces;
    var g, slice := Active(p), ProcessFinality(p.store, p.store.limits.budget);
    SweepGood(env.chain, g, p.store, p.store.limits.budget);
    GoodDisjoint(env.chain, g, slice.store);
    SendRetiredTrue(env, p.(store := slice.store), g, slice.retired, FinalizedConflict);
    AnnouncedSince(env, p.shared.calls, p.(store := slice.store), g, slice.retired, FinalizedConflict);
  }

  /** A tick that succeeds expires what is due. */
  lemma TickExpires(env: Env, p: State, due: seq<Hash>, now: Time)
    requires Valid(env, p) && !p.broken
    requires Due(ProcessFinality(p.store, p.store.limits.budget).store, due, now, BudgetLeft(p.store))
    ensures var o := Maintain(env, p, due, now); o.ok ==> Expires(p, o.state, now)
  {
    hide Valid, ProcessFinality, SendRetired, RemoveAll, Announces, Due, Gone, Tracked, ExpiresFrom;
    var g, slice := Active(p), ProcessFinality(p.store, p.store.limits.budget);
    SweepAnnounced(env, p);
    var swept := SendRetired(env, p.(store := slice.store), g, slice.retired, FinalizedConflict);
    ExpiryAnnounced(env, p.shared.calls, swept.state, due, BudgetLeft(p.store), now);
    var (s, expired) := RemoveAll(slice.store, due);
    var o := SendRetired(env, swept.state.(store := s), g, expired, RetentionExpired);
    AnnouncedSince(env, swept.state.shared.calls, swept.state.(store := s), g, expired, RetentionExpired);
    if swept.ok && o.ok {
      forall h | Gone(p.store, slice.store, h) && Tracked(p.store, h)
        ensures Announces(p.shared.calls, o.state.shared.calls, h, FinalizedConflict)
      {
        AnnouncesLater(p.shared.calls, p.shared.calls, swept.state.shared.calls, o.state.shared.calls, h,
                       FinalizedConflict);
      }
    }
  }

  /** While no sweep is under way, a tick leaves no expired record but the head, unless it removed as many
      records as the budget allows. */
  lemma IdleTickExpires(p: State, q: State, now: Time)
    requires p.store.sweep.None? && Expires(p, q, now)
    ensures (forall h :: Over(p.store, h, now) ==> !IsRecord(q.store, h))
            || MetadataLen(p.store) - MetadataLen(q.store) == p.store.limits.budget
    ensures forall h :: Gone(p.store, q.store, h) ==>
              Over(p.store, h, now)
              && (Tracked(p.store, h) ==> Announces(p.shared.calls, q.shared.calls, h, RetentionExpired))
  {
    hide Announces, Over, MetadataLen, IsRecord, Tracked;
    IdleSweep(p.store);
  }

  lemma IdleSweep(s: Store)
    requires s.sweep.None?
    ensures ProcessFinality(s, s.limits.budget) == Slice(s, [], 0) && BudgetLeft(s) == s.limits.budget
  {
  }

  // ----- What finality removes -----

  /** A forkchoice notice that moves finality: consumers are told of each tracked record that goes. If its
      sweep comes to an end at once, exactly the records go that conflict with the checkpoint. */
  lemma FinalityActs(env: Env, p: State, applied: AppliedView)
    requires Valid(env, p) && !p.broken && ForkchoiceAppliedTo(env, p, applied).ok
    requires var f := Coherent(applied.finalized, p.shared.published.canonical.block.number);
             f.Some? && f != p.store.lastFinalized
    ensures var q := ForkchoiceAppliedTo(env, p, applied).state;
            && q.store.lastFinalized == applied.finalized
            && (forall h :: Gone(p.store, q.store, h) && Tracked(p.store, h) ==>
                  Announces(p.shared.calls, q.shared.calls, h, FinalizedConflict))
            && (q.store.sweep.None? && Roomy(p.store) && Consecutive(p.store) && IsRecord(p.store, p.store.head) ==>
                  forall h :: IsRecord(p.store, h) ==>
                    (IsRecord(q.store, h) <==> h == p.store.head || !Conflicted(p.store, applied.finalized.value, h)))
  {
    hide SharedTrue, Good, Bounded, ProcessFinality, SendRetired, Send, Announces, Roomy, Consecutive, Conflicted,
         BeginSweep, Retires;
    var g, f, budget := Active(p), applied.finalized.value, p.store.limits.budget;
    var view := Resolve(applied, p.shared.published.canonical.block.number);
    var sent := Send(env, p, g, ForkchoiceApplied(view),
                     Some(NextState(p.shared.published.canonical, Some(view), false)));
    SentStays(env, p, g, ForkchoiceApplied(view), Some(NextState(p.shared.published.canonical, Some(view), false)));
    var slice := ProcessFinality(BeginSweep(p.store, f), budget);
    AnnouncedSince(env, p.shared.calls, sent.state.(store := slice.store), g, slice.retired, FinalizedConflict);
    SlicedAtOnce(env.chain, g, p.store, f, budget);
  }

  /** A notice that does not move finality leaves every record and the sweep alone. */
  lemma FinalityRests(env: Env, p: State, applied: AppliedView)
    requires var f := Coherent(applied.finalized, p.shared.published.canonical.block.number);
             f.None? || f == p.store.lastFinalized
    ensures ForkchoiceAppliedTo(env, p, applied).state.store == p.store
  {
  }

  lemma SentStays(env: Env, p: State, g: Generation, event: Event, next: Option<NextState>)
    ensures var sent := Send(env, p, g, event, next).state;
            sent.store == p.store && p.shared.calls <= sent.shared.calls
  {
  }

  lemma SlicedAtOnce(c: Chain, g: Generation, s: Store, f: Checkpoint, budget: nat)
    requires WellFormed(c) && Good(c, g, s) && Bounded(s)
    ensures var slice := ProcessFinality(BeginSweep(s, f), budget);
            && slice.store.lastFinalized == Some(f)
            && (forall h :: Gone(s, slice.store, h) && Tracked(s, h) ==> h in slice.retired)
            && (slice.store.sweep.None? && Roomy(s) && Consecutive(s) && IsRecord(s, s.head) ==>
                  forall h :: IsRecord(s, h) ==>
                    (IsRecord(slice.store, h) <==> h == s.head || !Conflicted(s, f, h)))
  {
    hide ProcessFinality, Roomy, Consecutive, Conflicted, Inv, Agrees;
    BeginSweepGood(c, g, s, f);
    SweepGood(c, g, BeginSweep(s, f), budget);
    var slice := ProcessFinality(BeginSweep(s, f), budget);
    if slice.store.sweep.None? && Roomy(s) && Consecutive(s) && IsRecord(s, s.head) {
      SweepIsExact(c, s, f, budget);
    }
  }

  // ----- What the limits evict -----

  lemma EnforceAnnounces(env: Env, before: seq<Call>, p: State, g: Generation, trim: Trim)
    requires before <= p.shared.calls
    ensures var o := Enforce(env, p, g, trim);
            && before <= o.state.shared.calls && o.state.store == trim.store
            && (o.ok ==> trim.ok && forall h :: h in trim.retired ==>
                                      Announces(before, o.state.shared.calls, h, CacheEvicted))
  {
    hide SendRetired, Announces;
    AnnouncedSince(env, before, p.(store := trim.store), g, trim.retired, CacheEvicted);
  }

  /** Storing a projection: consumers are told of every block they had and that is no longer held. */
  lemma EvictionAnnounced(env: Env, p: State, projection: Projection, stage: Stage, firstSequence: nat, now: Time)
    requires Valid(env, p) && !p.broken && projection.generation == Active(p) && Faithful(env.chain, projection)
    ensures var o := InsertCandidate(env, p, projection, stage, firstSequence, now);
            o.ok ==> forall h :: Tracked(p.store, h) && !Tracked(o.state.store, h) ==>
                       Announces(p.shared.calls, o.state.shared.calls, h, CacheEvicted)
  {
    hide SharedTrue, Good, PutProjection, TrimProjections, TrimMetadata, Enforce, Faithful, Announces, NewEntry;
    var g, put := projection.generation, PutProjection(p.store, projection, stage, firstSequence, now);
    PutGood(env.chain, g, p.store, projection, stage, firstSequence, now);
    PutTracks(p.store, projection, stage, firstSequence, now);
    EnforceAnnounces(env, p.shared.calls, p.(store := put), g, TrimProjections(put));
    TrimProjectionsGood(env.chain, g, put);
    var cached := Enforce(env, p.(store := put), g, TrimProjections(put));
    EnforceAnnounces(env, p.shared.calls, cached.state, g, TrimMetadata(cached.state.store));
    var o := Enforce(env, cached.state, g, TrimMetadata(cached.state.store));
    if cached.ok && o.ok {
      TrimsAnnounce(env.chain, g, put);
      EnforceAnnounces(env, cached.state.shared.calls, cached.state, g, TrimMetadata(cached.state.store));
      forall h | Tracked(p.store, h) && !Tracked(o.state.store, h)
        ensures Announces(p.shared.calls, o.state.shared.calls, h, CacheEvicted)
      {
        if h in TrimProjections(put).retired {
          AnnouncesLater(p.shared.calls, p.shared.calls, cached.state.shared.calls, o.state.shared.calls, h,
                         CacheEvicted);
        }
      }
    }
  }

  lemma PutTracks(s: Store, p: Projection, stage: Stage, firstSequence: nat, now: Time)
    ensures forall h :: Tracked(s, h) ==> Tracked(PutProjection(s, p, stage, firstSequence, now), h)
  {
    hide PutProjection;
    PutProjectionFields(s, p, stage, firstSequence, now);
  }

  /** What is tracked before the two trims and not after them is retired by one of them. */
  lemma TrimsAnnounce(c: Chain, g: Generation, s: Store)
    requires Good(c, g, s) && NearlyBounded(s) && TrimProjections(s).ok
    ensures var t := TrimProjections(s);
            forall h :: Tracked(s, h) && !Tracked(TrimMetadata(t.store).store, h) ==>
              h in t.retired || h in TrimMetadata(t.store).retired
  {
    hide TrimProjections, TrimMetadata, Inv, Agrees, MetadataQueue;
    var t := TrimProjections(s).store;
    TrimProjectionsGood(c, g, s);
    TrimProjectionsBound(c, s);
    TrimProjectionsOnlyDrops(s);
    InvQueue(c, t);
    TrimMetadataBound(t);
  }

  // ----- How long a record may stay -----

  /** Between two stores a record is filed, or the head leaves it or comes to it. */
  predicate Renews(s: Store, r: Store, h: Hash) {
    || Incarnation(r, h) != Incarnation(s, h) || (Held(r, h) && !Held(s, h))
    || (r.head != s.head && (h == s.head || h == r.head))
  }

  /** The record keeps its time, and is neither new nor newly held. */
  predicate AgesAt(s: Store, r: Store, h: Hash) {
    && IsRecord(s, h) && (IsRecord(r, h) ==> ExpiresAt(r, h) == ExpiresAt(s, h))
    && Incarnation(r, h) == Incarnation(s, h) && (Held(r, h) ==> Held(s, h))
  }

  /** Every record left keeps its time, and none is new or newly held. */
  ghost predicate Ages(s: Store, r: Store) {
    r.limits == s.limits && r.head == s.head && forall h :: IsRecord(r, h) ==> AgesAt(s, r, h)
  }

  /** One record is filed now, and the others keep their time. */
  ghost predicate Files(s: Store, r: Store, h: Hash, now: Time) {
    && r.limits == s.limits && r.head == s.head
    && (IsRecord(r, h) ==> ExpiresAt(r, h) == now + s.limits.retention)
    && forall x :: IsRecord(r, x) && x != h ==> AgesAt(s, r, x)
  }

  /** A record that was filed, or that the head left or came to, expires after the retention period from now;
      every other one, but for those filed again, expires when it would have. */
  ghost predicate Lasts(s: Store, r: Store, again: set<Hash>, now: Time) {
    && r.limits == s.limits
    && forall h :: IsRecord(r, h) ==>
         if Renews(s, r, h) then ExpiresAt(r, h) == now + s.limits.retention
         else IsRecord(s, h) && (h !in again ==> ExpiresAt(r, h) == ExpiresAt(s, h))
  }

  lemma AgesTwice(s: Store, m: Store, r: Store)
    requires Ages(s, m) && Ages(m, r)
    ensures Ages(s, r)
  {
  }

  lemma FilesThenAges(s: Store, m: Store, r: Store, h: Hash, now: Time)
    requires Files(s, m, h, now) && Ages(m, r)
    ensures Files(s, r, h, now)
  {
  }

  lemma AgesLast(s: Store, r: Store, again: set<Hash>, now: Time)
    requires Ages(s, r)
    ensures Lasts(s, r, again, now)
  {
  }

  lemma FewerAges(s: Store, r: Store)
    requires Fewer(s, r) && s.candidates.Keys !! s.deferred.Keys && r.limits == s.limits && r.head == s.head
    ensures Ages(s, r)
  {
  }

  /** Losing records afterwards changes nothing. */
  lemma LastsThenFewer(s: Store, m: Store, r: Store, again: set<Hash>, now: Time)
    requires Lasts(s, m, again, now) && Fewer(m, r) && m.candidates.Keys !! m.deferred.Keys
    requires r.head == m.head && r.limits == m.limits
    ensures Lasts(s, r, again, now)
  {
    forall h | IsRecord(r, h)
      ensures IsRecord(m, h) && ExpiresAt(r, h) == ExpiresAt(m, h) && Renews(s, r, h) == Renews(s, m, h)
    {
    }
  }

  lemma PutFiles(s: Store, p: Projection, stage: Stage, firstSequence: nat, now: Time)
    ensures Files(s, PutProjection(s, p, stage, firstSequence, now), p.block.hash, now)
  {
    hide PutProjection;
    PutProjectionFields(s, p, stage, firstSequence, now);
  }

  lemma PutDeferredFiles(s: Store, block: BlockMeta, changes: seq<SlotChange>, now: Time)
    requires block.hash !in s.candidates
    ensures Files(s, PutDeferred(s, block, changes, now), block.hash, now)
  {
    hide QueueFinalityCheck, AddChild;
  }

  lemma TrimProjectionsAges(s: Store)
    ensures Ages(s, TrimProjections(s).store)
  {
    hide FirstProjectionVictim, Position, Scanned, HeadTicket;
  }

  lemma TrimMetadataAges(s: Store)
    requires s.candidates.Keys !! s.deferred.Keys
    ensures Ages(s, TrimMetadata(s).store)
  {
    hide TrimMetadata;
    TrimMetadataOnlyRemoves(s);
    TrimMetadataEntries(s);
    FewerAges(s, TrimMetadata(s).store);
  }

  /** Storing a projection files its block and nothing else. */
  lemma InsertFiles(env: Env, p: State, projection: Projection, stage: Stage, firstSequence: nat, now: Time)
    requires Valid(env, p) && !p.broken && projection.generation == Active(p) && Faithful(env.chain, projection)
    ensures var o := InsertCandidate(env, p, projection, stage, firstSequence, now);
            o.ok ==> Files(p.store, o.state.store, projection.block.hash, now)
  {
    hide SharedTrue, Good, PutProjection, TrimProjections, TrimMetadata, Enforce, Faithful, Files, Ages;
    var g, h := projection.generation, projection.block.hash;
    var put := PutProjection(p.store, projection, stage, firstSequence, now);
    PutFiles(p.store, projection, stage, firstSequence, now);
    PutGood(env.chain, g, p.store, projection, stage, firstSequence, now);
    EnforceTrue(env, p.(store := put), g, TrimProjections(put));
    var cached := Enforce(env, p.(store := put), g, TrimProjections(put)).state;
    EnforceTrue(env, cached, g, TrimMetadata(cached.store));
    TrimProjectionsGood(env.chain, g, put);
    GoodDisjoint(env.chain, g, cached.store);
    TrimProjectionsAges(put);
    TrimMetadataAges(cached.store);
    FilesThenAges(p.store, put, cached.store, h, now);
    FilesThenAges(p.store, cached.store, TrimMetadata(cached.store).store, h, now);
  }

  lemma FiledLasts(s: Store, r: Store, h: Hash, again: set<Hash>, now: Time)
    requires Files(s, r, h, now) && (h in again || Renews(s, r, h))
    ensures Lasts(s, r, again, now)
  {
  }

  lemma DeferLasts(env: Env, p: State, block: BlockMeta, now: Time)
    requires Valid(env, p) && !p.broken && block == env.chain.meta(block.hash)
    ensures var o := InsertDeferred(env, p, block, env.chain.delta(Active(p), block.hash), now);
            o.ok ==> Lasts(p.store, o.state.store, {block.hash}, now)
  {
    hide SharedTrue, Good, PutDeferred, TrimMetadata, Enforce, Files, Ages;
    var h, changes := block.hash, env.chain.delta(Active(p), block.hash);
    if h in p.store.tombstones || h in p.store.candidates {
      StaysLasts(p.store, {h}, now);
    } else {
      var put := PutDeferred(p.store, block, changes, now);
      PutDeferredFiles(p.store, block, changes, now);
      PutDeferredGood(env.chain, Active(p), p.store, block, now);
      GoodDisjoint(env.chain, Active(p), put);
      EnforceTrue(env, p.(store := put), Active(p), TrimMetadata(put));
      TrimMetadataAges(put);
      FilesThenAges(p.store, put, TrimMetadata(put).store, h, now);
      FiledLasts(p.store, TrimMetadata(put).store, h, {h}, now);
    }
  }

  lemma StaysLasts(s: Store, again: set<Hash>, now: Time)
    ensures Lasts(s, s, again, now)
  {
  }

  lemma PublishLasts(env: Env, p: State, block: BlockMeta, stage: Stage, now: Time)
    requires Valid(env, p) && !p.broken && block == env.chain.meta(block.hash) && !Held(p.store, block.hash)
    requires block.number == Number(env.chain, block.parent) + 1
    ensures var g := Active(p);
            var o := PublishCandidate(env, p, g, block, Truth(env.chain, g, block.parent),
                                      env.chain.delta(g, block.hash), stage, now);
            o.ok ==> Lasts(p.store, o.state.store, {}, now)
  {
    hide SharedTrue, Healthy, Intact, Faithful, ApplyDelta, Exact, InsertCandidate, Send, Files, Lasts;
    var g := Active(p);
    ProjectedFaithful(env.chain, g, block.hash);
    var d := ApplyDelta(Truth(env.chain, g, block.parent), env.chain.delta(g, block.hash));
    var projection := Projection(block, g, d.values, d.bitmap);
    SendTrue(env, p, g, BlockState(projection, stage), None);
    var sent := Send(env, p, g, BlockState(projection, stage), None);
    SameHealth(env, p, sent.state);
    var sequence := |sent.state.shared.calls|;
    InsertFiles(env, sent.state, projection, stage, sequence, now);
    var o := InsertCandidate(env, sent.state, projection, stage, sequence, now);
    if sent.ok && o.ok {
      InsertHolds(env, sent.state, projection, stage, sequence, now);
      FiledLasts(p.store, o.state.store, block.hash, {}, now);
    }
  }

  lemma PromoteLasts(env: Env, p: State, g: Generation, h: Hash, now: Time)
    requires h in p.store.candidates
    ensures var o := PromoteKnown(env, p, g, h); Lasts(p.store, o.state.store, {}, now)
  {
    hide Publish;
  }

  /** Only an execution event can file a record again that is filed already. */
  lemma ProjectLasts(env: Env, p: State, g: Generation, block: BlockMeta, stage: Stage, loads: bool, now: Time)
    requires Valid(env, p) && !p.broken && block == env.chain.meta(block.hash)
    ensures var o := ProjectCandidate(env, p, g, block, env.chain.delta(g, block.hash), stage, loads, now);
            o.ok ==> Lasts(p.store, o.state.store, if stage == Executed then {block.hash} else {}, now)
  {
    hide SharedTrue, Healthy, Intact, PublishCandidate, InsertDeferred, PromoteKnown, Lasts;
    var h, again := block.hash, if stage == Executed then {block.hash} else {};
    StaysLasts(p.store, again, now);
    if g == Active(p) {
      if Held(p.store, h) {
        PromoteLasts(env, p, g, h, now);
      } else {
        HealthyParts(env, p);
        ParentValuesTrue(env, p, g, block, stage, loads);
        match ParentValues(env, p, g, block, stage, loads)
        case Values(_) =>
          PublishLasts(env, p, block, stage, now);
          var o := PublishCandidate(env, p, g, block, Truth(env.chain, g, block.parent), env.chain.delta(g, h), stage,
                                    now);
          if o.ok {
            LastsAnyway(p.store, o.state.store, again, now);
          }
        case Defer => DeferLasts(env, p, block, now);
        case Skip =>
        case Mismatch =>
      }
    }
  }

  lemma LastsAnyway(s: Store, r: Store, again: set<Hash>, now: Time)
    requires Lasts(s, r, {}, now)
    ensures Lasts(s, r, again, now)
  {
  }

  lemma ValidatedLasts(env: Env, p: State, g: Generation, h: Hash, loads: bool, now: Time)
    requires Valid(env, p) && !p.broken
    ensures var o := PromoteValidated(env, p, g, h, loads, now); o.ok ==> Lasts(p.store, o.state.store, {}, now)
  {
    hide SharedTrue, Healthy, Intact, ProjectCandidate, PromoteKnown, Lasts;
    StaysLasts(p.store, {}, now);
    if g == Active(p) {
      if h in p.store.candidates {
        PromoteLasts(env, p, g, h, now);
      } else if h in p.store.deferred {
        DeferredTrue(env, p, h);
        ProjectLasts(env, p, g, p.store.deferred[h].block, Validated, loads, now);
      }
    }
  }

  lemma RejectedLasts(env: Env, p: State, g: Generation, h: Hash, now: Time)
    requires Valid(env, p) && !p.broken
    ensures var o := Rejected(env, p, g, h); o.ok ==> Lasts(p.store, o.state.store, {}, now)
  {
    hide SharedTrue, Good, RemoveCandidateTree, Lasts, Ages, Publish;
    StaysLasts(p.store, {}, now);
    if g == Active(p) && Rejectable(p.store, h) {
      if h == p.store.head {
        HeadNotRemoved(p.store);
      } else {
        var r := RemoveCandidateTree(p.store, h, true);
        RemoveTreeGood(env.chain, g, p.store, h);
        GoodDisjoint(env.chain, g, p.store);
        FewerAges(p.store, r);
        AgesLast(p.store, r, {}, now);
      }
    }
  }

  /** Moving the head renews the record it leaves, and that of the head it comes to has just been filed. */
  lemma MoveLasts(s: Store, m: Store, h: Hash, sequence: nat, now: Time)
    requires Files(s, m, h, now) && IsRecord(m, h) && h != s.head
    ensures Lasts(s, NoteFirstSequence(ScheduleExpiry(m.(head := h), s.head, now), h, sequence), {}, now)
  {
    hide NoteFirstSequence;
    var r := ScheduleExpiry(m.(head := h), s.head, now);
    assert Lasts(s, r, {}, now) by {
      forall x | IsRecord(r, x)
        ensures if x == h || x == s.head then ExpiresAt(r, x) == now + s.limits.retention else AgesAt(s, r, x)
      {
        assert x != h && x != s.head ==> AgesAt(s, m, x);
      }
    }
    SequenceLasts(s, r, h, sequence, now);
  }

  lemma SequenceLasts(s: Store, m: Store, h: Hash, sequence: nat, now: Time)
    requires Lasts(s, m, {}, now)
    ensures Lasts(s, NoteFirstSequence(m, h, sequence), {}, now)
  {
    var r := NoteFirstSequence(m, h, sequence);
    forall x
      ensures IsRecord(r, x) == IsRecord(m, x) && (IsRecord(m, x) ==> ExpiresAt(r, x) == ExpiresAt(m, x))
      ensures Renews(s, r, x) == Renews(s, m, x)
    {
    }
  }

  lemma AdvanceLasts(env: Env, p: State, projection: Projection, now: Time)
    requires Valid(env, p) && !p.broken && projection.generation == Active(p) && Faithful(env.chain, projection)
    requires projection.block.hash != p.store.head
    ensures var o := AdvanceHead(env, p, projection, now); o.ok ==> Lasts(p.store, o.state.store, {}, now)
  {
    hide SharedTrue, Good, Publish, InsertCandidate, Faithful, CanonicalBitmap, Files, Lasts, NoteFirstSequence,
         ScheduleExpiry;
    InsertFiles(env, p, projection, Validated, 0, now);
    var inserted, changed := InsertCandidate(env, p, projection, Validated, 0, now),
                             CanonicalBitmap(p.shared.published.canonical, projection);
    if changed.Some? && inserted.ok {
      InsertHolds(env, p, projection, Validated, 0, now);
      var sent := Send(env, inserted.state, projection.generation,
                       CanonicalHead(p.store.head, projection, changed.value),
                       Some(NextState(projection, None, false)));
      MoveLasts(p.store, inserted.state.store, projection.block.hash, |sent.state.shared.calls|, now);
    }
  }

  lemma CanonicalLasts(env: Env, p: State, g: Generation, observedAt: Time, h: Hash, loads: bool, now: Time)
    requires Valid(env, p) && !p.broken
    ensures var o := Canonical(env, p, g, observedAt, h, loads, now); o.ok ==> Lasts(p.store, o.state.store, {}, now)
  {
    hide SharedTrue, Good, Bounded, AdvanceHead, HeadProjection, Faithful, Lasts;
    StaysLasts(p.store, {}, now);
    HeadProjectionTrue(env, p, g, h, loads);
    var r := HeadProjection(env, p, g, h, loads);
    if r.Some? && r.value.block.hash == h && h != p.store.head {
      AdvanceLasts(env, p, r.value, now);
    }
  }

  /** What a forkchoice notice does beyond the head only removes records. */
  lemma AppliedFewer(env: Env, p: State, applied: AppliedView)
    requires Valid(env, p) && !p.broken
    ensures var r := ForkchoiceAppliedTo(env, p, applied).state.store;
            Fewer(p.store, r) && r.head == p.store.head && r.limits == p.store.limits
  {
    hide SharedTrue, Good, Bounded, ProcessFinality, PublishRetired, Publish;
    var canonical := p.shared.published.canonical;
    var view := Resolve(applied, canonical.block.number);
    var finalized := view.finalized;
    if finalized.Some? {
      BeginSweepGood(env.chain, Active(p), p.store, finalized.value);
      SweepGood(env.chain, Active(p), BeginSweep(p.store, finalized.value), p.store.limits.budget);
    }
  }

  lemma ForkchoiceLasts(env: Env, p: State, g: Generation, observedAt: Time, applied: AppliedView, loads: bool,
                        now: Time)
    requires Valid(env, p) && !p.broken
    ensures var o := ForkchoiceChanged(env, p, g, observedAt, applied, loads, now);
            o.ok ==> Lasts(p.store, o.state.store, {}, now)
  {
    hide SharedTrue, Healthy, Intact, Canonical, ForkchoiceAppliedTo, Lasts, Fewer;
    StaysLasts(p.store, {}, now);
    ValidDisjoint(env, p);
    AppliedFewer(env, p, applied);
    LastsThenFewer(p.store, p.store, ForkchoiceAppliedTo(env, p, applied).state.store, {}, now);
    CanonicalKeeps(env, p, g, observedAt, applied.head, loads, now);
    CanonicalLasts(env, p, g, observedAt, applied.head, loads, now);
    CanonicalNotBroken(env, p, g, observedAt, applied.head, loads, now);
    var moved := Canonical(env, p, g, observedAt, applied.head, loads, now);
    if moved.ok {
      assert moved.state.(broken := false) == moved.state;
      ValidDisjoint(env, moved.state);
      AppliedFewer(env, moved.state, applied);
      LastsThenFewer(p.store, moved.state.store, ForkchoiceAppliedTo(env, moved.state, applied).state.store, {}, now);
    }
  }

  lemma ValidDisjoint(env: Env, p: State)
    requires Valid(env, p)
    ensures p.store.candidates.Keys !! p.store.deferred.Keys
    ensures OlderThan(p.store.candidates, p.store.deferred, p.store.nextIncarnation)
  {
  }

  /** A fresh anchor is filed now. */
  lemma ResetLasts(s: Store, p: Projection, finalized: Option<Checkpoint>, now: Time)
    requires OlderThan(s.candidates, s.deferred, s.nextIncarnation)
    ensures Lasts(s, Reset(s, p, finalized, now), {}, now)
  {
  }

  lemma ReanchorLasts(env: Env, p: State, load: Load, now: Time)
    requires OlderThan(p.store.candidates, p.store.deferred, p.store.nextIncarnation)
    ensures var o := Reanchor(env, p, load, now); o.ok ==> Lasts(p.store, o.state.store, {}, now)
  {
    hide Reset, LoadAt, OlderThan;
    if load.Loaded? {
      ResetLasts(p.store, LoadAt(env, Active(p), load.head), load.view.finalized, now);
    }
  }

  lemma ActivateLasts(env: Env, p: State, g: Generation, load: Load, now: Time)
    requires OlderThan(p.store.candidates, p.store.deferred, p.store.nextIncarnation)
    ensures Lasts(p.store, Activate(env, p, g, load, now).state.store, {}, now)
  {
    hide Reset, LoadAt, OlderThan, Publish, Lasts;
    StaysLasts(p.store, {}, now);
    if load.Loaded? {
      ResetLasts(p.store, LoadAt(env, g, load.head), load.view.finalized, now);
    }
  }

  lemma TickLasts(env: Env, p: State, due: seq<Hash>, now: Time)
    requires Valid(env, p) && !p.broken
    ensures Lasts(p.store, Maintain(env, p, due, now).state.store, {}, now)
  {
    hide SharedTrue, Good, Bounded, ProcessFinality, SendRetired, RemoveAll, Retires, Due, Lasts, Fewer;
    var g, slice := Active(p), ProcessFinality(p.store, p.store.limits.budget);
    StaysLasts(p.store, {}, now);
    ValidDisjoint(env, p);
    SweepGood(env.chain, g, p.store, p.store.limits.budget);
    LastsThenFewer(p.store, p.store, slice.store, {}, now);
    var swept := SendRetired(env, p.(store := slice.store), g, slice.retired, FinalizedConflict);
    SendRetiredStore(env, p.(store := slice.store), g, slice.retired, FinalizedConflict);
    GoodDisjoint(env.chain, g, slice.store);
    RemoveAllGood(env.chain, g, slice.store, due);
    var (s, expired) := RemoveAll(slice.store, due);
    assert Fewer(slice.store, s) by { RetiresFewer(slice.store, s, expired); }
    LastsThenFewer(p.store, slice.store, s, {}, now);
    SendRetiredStore(env, swept.state.(store := s), g, expired, RetentionExpired);
  }

  lemma RetiresFewer(s: Store, r: Store, retired: seq<Hash>)
    requires Retires(s, r, retired)
    ensures Fewer(s, r)
  {
  }

  /** The record an execution event may file again. */
  function Refiled(cmd: Command): set<Hash> {
    if cmd.OnExecuted? then {cmd.block.hash} else {}
  }

  lemma HandleLasts(env: Env, p: State, cmd: Command, now: Time)
    requires Valid(env, p) && !p.broken && CommandTrue(env, cmd) && Handle(env, p, cmd, now).ok
    ensures Lasts(p.store, Handle(env, p, cmd, now).state.store, Refiled(cmd), now)
  {
    hide Valid, OlderThan, ProjectCandidate, PromoteValidated, ForkchoiceChanged, Rejected, Activate, Maintain,
         Reanchor, Publish, Lasts;
    StaysLasts(p.store, Refiled(cmd), now);
    ValidDisjoint(env, p);
    match cmd
    case OnExecuted(_, g, block, _) => ProjectLasts(env, p, g, block, Executed, false, now);
    case OnValidated(g, h, loads) => ValidatedLasts(env, p, g, h, loads, now);
    case OnValidatedFallback(_, g, block, _, loads) => ProjectLasts(env, p, g, block, Validated, loads, now);
    case OnStateReset(at, g, load) => ReanchorLasts(env, AnnounceGap(env, p).state, load, now);
    case OnForkchoice(at, g, applied, loads) => ForkchoiceLasts(env, p, g, at, applied, loads, now);
    case OnRejected(g, h) => RejectedLasts(env, p, g, h, now);
    case OnActivate(g, load) => ActivateLasts(env, p, g, load, now);
    case OnTick(due) => TickLasts(env, p, due, now);
    case OnLoss =>
    case OnRetry(_) =>
  }

  /** Every turn after which no error is pending: a record that was filed in it, or that the head left or came
      to, expires after the retention period from then; every other record expires when it would have, but that
      an execution event may file its own block again. */
  lemma TurnSetsExpiry(env: Env, p: State, cmd: Command, now: Time)
    requires Valid(env, p) && CommandTrue(env, cmd) && !Step(env, p, cmd, now).broken
    ensures Lasts(p.store, Step(env, p, cmd, now).store, Refiled(cmd), now)
  {
    hide Valid, OlderThan, Handle, Reanchor, Publish, Lasts;
    if p.broken {
      ValidDisjoint(env, p);
      ReanchorLasts(env, p, cmd.load, now);
      ReanchorLasts(env, AnnounceGap(env, p).state, cmd.load, now);
    } else {
      HandleLasts(env, p, cmd, now);
    }
  }
}
