/** Memory: the queues that are cleaned lazily stay within a multiple of the limits. */
module QueueBounds {
  import opened Types
  import opened Sequences
  import opened Chain
  import opened Projections
  import opened Store
  import opened StoreInvariants
  import opened StoreFaith
  import opened Finality
  import opened FinalitySound
  import opened Wire
  import opened Publisher
  import opened PublisherInvariants

  /** Stale tickets number at most twice the limit: every record and every held projection has one
      live ticket, so the rest of a queue is stale. */
  ghost predicate Slim(s: Store) {
    && |s.metadataOrder| <= 2 * s.limits.metadata + MetadataLen(s)
    && |s.projectionOrder| <= 2 * s.limits.cache + s.projectionCount
  }

  /** Tickets a sweep may still have to look at: no more than three times the limit, each once. */
  ghost predicate FewPending(q: seq<Ticket>, limit: nat, next: nat) {
    |q| <= 3 * limit && Distinct(q) && TicketsOlderThan(q, next)
  }

  ghost predicate PendingSlim(s: Store) {
    s.sweep.Some? ==> FewPending(s.sweep.value.pending, s.limits.metadata, s.nextIncarnation)
  }

  /** What the count of live tickets rests on. */
  ghost predicate Tight(s: Store) {
    && Distinct(s.metadataOrder) && Distinct(s.projectionOrder)
    && Counted(s.candidates, s.deferred, s.projectionCount) && Slim(s)
  }

  // ----- Live tickets -----

  lemma {:induction false} DistinctHashes(tickets: seq<Ticket>, hashes: set<Hash>)
    requires forall i, j :: 0 <= i < j < |tickets| ==> tickets[i].hash != tickets[j].hash
    requires forall i :: 0 <= i < |tickets| ==> tickets[i].hash in hashes
    ensures |tickets| <= |hashes|
    decreases |tickets|
  {
    if tickets != [] {
      var rest, h := tickets[1..], tickets[0].hash;
      assert forall i :: 0 <= i < |rest| ==> rest[i] == tickets[i + 1];
      DistinctHashes(rest, hashes - {h});
    }
  }

  lemma LiveRecords(s: Store, q: seq<Ticket>)
    requires Distinct(q) && s.candidates.Keys !! s.deferred.Keys
    ensures |RetainMetadata(s, q)| <= MetadataLen(s)
  {
    var r := RetainMetadata(s, q);
    RetainedDistinct(s, q);
    forall i, j | 0 <= i < j < |r|
      ensures r[i].hash != r[j].hash
    {
      assert r[i] in r && r[j] in r;
    }
    forall i | 0 <= i < |r|
      ensures r[i].hash in s.candidates.Keys + s.deferred.Keys
    {
      assert r[i] in r;
    }
    DistinctHashes(r, s.candidates.Keys + s.deferred.Keys);
    assert |s.candidates.Keys + s.deferred.Keys| == |s.candidates| + |s.deferred|;
  }

  lemma LiveProjections(s: Store, q: seq<Ticket>)
    requires Distinct(q)
    ensures |RetainProjection(s, q)| <= |HeldSet(s.candidates)|
  {
    var r := RetainProjection(s, q);
    RetainedDistinct(s, q);
    forall i, j | 0 <= i < j < |r|
      ensures r[i].hash != r[j].hash
    {
      assert r[i] in r && r[j] in r;
    }
    forall i | 0 <= i < |r|
      ensures r[i].hash in HeldSet(s.candidates)
    {
      assert r[i] in r;
    }
    DistinctHashes(r, HeldSet(s.candidates));
  }

  /** Sweep, limits and incarnations are as they were. */
  predicate SameRest(s: Store, r: Store) {
    r.sweep == s.sweep && r.limits == s.limits && r.nextIncarnation == s.nextIncarnation
  }

  // ----- Removal -----

  /** Removing a record makes its tickets stale, and compaction keeps them few. */
  lemma CompactSlim(s: Store)
    requires Distinct(s.metadataOrder) && Distinct(s.projectionOrder)
             && Counted(s.candidates, s.deferred, s.projectionCount)
    requires |s.metadataOrder| <= 2 * s.limits.metadata + MetadataLen(s) + 1
    requires |s.projectionOrder| <= 2 * s.limits.cache + s.projectionCount + 1
    ensures Tight(Compact(s))
  {
    hide RetainMetadata, RetainProjection, Distinct;
    LiveRecords(s, s.metadataOrder);
    LiveProjections(s, s.projectionOrder);
    RetainedDistinct(s, s.metadataOrder);
    RetainedDistinct(s, s.projectionOrder);
  }

  lemma DropCount(es: Entries, ds: Delayed, h: Hash)
    requires es.Keys !! ds.Keys
    ensures |es| + |ds| <= |es - {h}| + |ds - {h}| + 1
  {
    assert (es - {h}).Keys == es.Keys - {h} && (ds - {h}).Keys == ds.Keys - {h};
  }

  lemma DropHeld(es: Entries, h: Hash)
    ensures |HeldSet(es - {h})| == |HeldSet(es)| - if h in es && es[h].projection.Some? then 1 else 0
  {
    assert HeldSet(es - {h}) == HeldSet(es) - {h};
  }

  lemma RemoveRecordCounts(s: Store, h: Hash)
    requires Counted(s.candidates, s.deferred, s.projectionCount)
    ensures var r := RemoveRecord(s, h);
            && Counted(r.candidates, r.deferred, r.projectionCount)
            && MetadataLen(s) <= MetadataLen(r) + 1 && s.projectionCount <= r.projectionCount + 1
            && r.metadataOrder == s.metadataOrder && r.projectionOrder == s.projectionOrder && r.limits == s.limits
  {
    hide HeldSet, Unlink;
    DropCount(s.candidates, s.deferred, h);
    DropHeld(s.candidates, h);
  }

  lemma RemoveOneTight(s: Store, h: Hash, terminal: bool)
    requires Tight(s)
    ensures Tight(RemoveOne(s, h, terminal)) && SameRest(s, RemoveOne(s, h, terminal))
  {
    hide Compact, RemoveRecord, Distinct;
    RemoveRecordCounts(s, h);
    var removed := RemoveRecord(s, h);
    CompactSlim(if terminal then AddTombstone(removed, h) else removed);
    RemoveOneSweep(s, h, terminal);
  }

  lemma RemoveOneSweep(s: Store, h: Hash, terminal: bool)
    ensures SameRest(s, RemoveOne(s, h, terminal))
  {
  }

  lemma {:induction false} RemoveTreesTight(s: Store, pending: seq<Hash>, terminal: bool)
    requires Tight(s)
    ensures var r := RemoveTrees(s, pending, terminal); Tight(r) && SameRest(s, r)
    decreases |s.children|, |pending|
  {
    hide RemoveOne, Tight;
    if pending != [] {
      var h := pending[|pending| - 1];
      var loose := s.(children := s.children - {h});
      assert Tight(loose) by { ChildrenAside(s, loose.children); }
      RemoveOneTight(loose, h, terminal);
      RemoveTreesTight(TakeOut(s, h, terminal), pending[..|pending| - 1] + Kids(s, h), terminal);
    }
  }

  lemma ChildrenAside(s: Store, children: map<Hash, seq<Hash>>)
    requires Tight(s)
    ensures Tight(s.(children := children))
  {
  }

  lemma {:induction false} RemoveAllTight(s: Store, hashes: seq<Hash>)
    requires Tight(s)
    ensures var r := RemoveAll(s, hashes).0; Tight(r) && SameRest(s, r)
    decreases |hashes|
  {
    hide RemoveOne, Tight;
    if hashes != [] {
      RemoveOneTight(s, hashes[0], false);
      RemoveAllTight(RemoveOne(s, hashes[0], false), hashes[1..]);
    }
  }

  // ----- The sweep -----

  lemma SweepAside(s: Store, sweep: Option<Sweep>)
    requires Tight(s)
    ensures Tight(s.(sweep := sweep))
  {
  }

  /** A unit takes at most tickets off the pending ones. */
  lemma UnitTight(s: Store)
    requires Tight(s) && Busy(s) && PendingSlim(s)
    ensures var r := SweepUnit(s).store; Tight(r) && PendingSlim(r)
  {
    hide RemoveOne, Tight, Memoised, AdvanceWalk, FewPending;
    var sweep := s.sweep.value;
    if sweep.active.Some? {
      ExamineTight(s, sweep.(active := None), sweep.active.value);
    } else {
      var t, rest := sweep.pending[0], sweep.(pending := sweep.pending[1..]);
      assert FewPending(rest.pending, s.limits.metadata, s.nextIncarnation)
      by { FewerPending(sweep.pending, s.limits.metadata, s.nextIncarnation); }
      SweepAside(s, Some(rest));
      if !Skipped(s, t) {
        ExamineTight(s, rest, Walk(t.incarnation, t.hash, t.hash, []));
      }
    }
  }

  lemma ExamineTight(s: Store, sweep: Sweep, w: Walk)
    requires Tight(s) && FewPending(sweep.pending, s.limits.metadata, s.nextIncarnation)
    ensures var r := Examine(s, sweep, w).store; Tight(r) && PendingSlim(r)
  {
    hide RemoveOne, Tight, Memoised, AdvanceWalk, Settle, FewPending;
    if w.current in sweep.verdicts {
      SettleTight(s, sweep, w, sweep.verdicts[w.current]);
    } else {
      var advance := AdvanceWalk(s, w, sweep.checkpoint);
      if advance.Settled? {
        SettleTight(s, sweep, w, advance.verdict);
      } else {
        SweepAside(s, Some(sweep.(active := Some(advance.walk))));
      }
    }
  }

  lemma SettleTight(s: Store, sweep: Sweep, w: Walk, verdict: Verdict)
    requires Tight(s) && FewPending(sweep.pending, s.limits.metadata, s.nextIncarnation)
    ensures var r := Settle(s, sweep, w, verdict).store; Tight(r) && PendingSlim(r)
  {
    hide RemoveOne, Tight, Memoised, FewPending;
    var noted := Some(sweep.(verdicts := Memoised(sweep.verdicts, w, verdict), active := None));
    SweepAside(s, noted);
    RemoveOneTight(s.(sweep := noted), w.root, true);
  }

  lemma {:induction false} UnitsTight(s: Store, budget: nat)
    requires Tight(s) && PendingSlim(s)
    ensures var r := SweepUnits(s, budget).store; Tight(r) && PendingSlim(r)
    decreases budget
  {
    hide SweepUnit, Tight, PendingSlim, Busy;
    if budget > 0 && Busy(s) {
      UnitTight(s);
      UnitsTight(SweepUnit(s).store, budget - 1);
    }
  }

  lemma SliceTight(s: Store, budget: nat)
    requires Tight(s) && PendingSlim(s)
    ensures var r := ProcessFinality(s, budget).store; Tight(r) && PendingSlim(r)
  {
    hide SweepUnits, Tight;
    UnitsTight(s, budget);
    SweepAside(SweepUnits(s, budget).store, None);
  }

  lemma FewerPending(q: seq<Ticket>, limit: nat, next: nat)
    requires FewPending(q, limit, next) && q != []
    ensures FewPending(q[1..], limit, next)
  {
    forall t | t in q[1..]
      ensures t.incarnation < next
    {
      assert t in q;
    }
  }

  // ----- Insertion and limits -----

  ghost predicate Lean(s: Store) { Slim(s) && PendingSlim(s) }

  lemma InvTight(c: Chain, s: Store)
    requires Inv(c, s) && Slim(s)
    ensures Tight(s)
  {
    hide Slim, Named, IndexedExcept, TombstonesListed;
  }

  lemma QueuedPending(s: Store, t: Ticket)
    requires s.candidates.Keys !! s.deferred.Keys && t.incarnation == s.nextIncarnation
    requires MetadataLen(s) <= s.limits.metadata + 1 && 2 <= s.limits.metadata && PendingSlim(s)
    ensures var q := QueueFinalityCheck(s, t);
            q.Some? ==> FewPending(q.value.pending, s.limits.metadata, s.nextIncarnation + 1)
  {
    hide RetainMetadata, MetadataLen;
    if s.sweep.Some? {
      var q := s.sweep.value.pending;
      assert t !in q;
      AppendDistinct(q, t);
      LiveRecords(s, q + [t]);
      RetainedDistinct(s, q + [t]);
    }
  }

  lemma PutLengths(s: Store, p: Projection, stage: Stage, firstSequence: nat, now: Time)
    requires s.candidates.Keys !! s.deferred.Keys
    ensures var r, h := PutProjection(s, p, stage, firstSequence, now), p.block.hash;
            var filed := s.(deferred := s.deferred - {h},
                            candidates := s.candidates[h := NewEntry(s, p, stage, firstSequence, now)]);
            var more := if IsRecord(s, h) then 0 else 1;
            && |r.metadataOrder| == |s.metadataOrder| + more && MetadataLen(r) == MetadataLen(s) + more
            && |r.projectionOrder| + s.projectionCount == |s.projectionOrder| + r.projectionCount
            && r.limits == s.limits && MetadataLen(filed) == MetadataLen(r)
            && (if IsRecord(s, h) then r.sweep == s.sweep && r.nextIncarnation == s.nextIncarnation
                else r.sweep == QueueFinalityCheck(filed, Ticket(s.nextIncarnation, h))
                     && r.nextIncarnation == s.nextIncarnation + 1)
  {
    hide QueueFinalityCheck, AddChild, NewEntry;
    PutCount(s.candidates, s.deferred, p.block.hash, NewEntry(s, p, stage, firstSequence, now));
  }

  lemma PutSlim(c: Chain, g: Generation, s: Store, p: Projection, stage: Stage, firstSequence: nat, now: Time)
    requires Good(c, g, s) && Bounded(s) && Lean(s)
    ensures Lean(PutProjection(s, p, stage, firstSequence, now))
  {
    hide Inv, Agrees, SweepSound, QueueFinalityCheck, FewPending, PutProjection, NewEntry, MetadataLen;
    GoodDisjoint(c, g, s);
    PutLengths(s, p, stage, firstSequence, now);
    var h := p.block.hash;
    if !IsRecord(s, h) {
      var filed := s.(deferred := s.deferred - {h},
                      candidates := s.candidates[h := NewEntry(s, p, stage, firstSequence, now)]);
      QueuedPending(filed, Ticket(s.nextIncarnation, h));
    }
  }

  lemma DeferSlim(c: Chain, g: Generation, s: Store, block: BlockMeta, changes: seq<SlotChange>, now: Time)
    requires Good(c, g, s) && Bounded(s) && Lean(s) && block.hash !in s.candidates
    ensures Lean(PutDeferred(s, block, changes, now))
  {
    hide Inv, Agrees, SweepSound, QueueFinalityCheck, AddChild, FewPending;
    GoodDisjoint(c, g, s);
    var h := block.hash;
    var d := Deferred(block, changes, if h in s.deferred then s.deferred[h].incarnation
                                      else s.nextIncarnation, now + s.limits.retention);
    DeferCount(s.deferred, h, d);
    if h !in s.deferred {
      QueuedPending(s.(deferred := s.deferred[h := d]), Ticket(s.nextIncarnation, h));
    }
  }

  lemma DeferCount(ds: Delayed, h: Hash, d: Deferred)
    ensures |ds[h := d]| == |ds| + if h in ds then 0 else 1
  {
    assert ds[h := d].Keys == ds.Keys + {h};
    assert h in ds ==> ds.Keys + {h} == ds.Keys;
  }

  lemma ScannedLength(q: seq<Ticket>, k: nat, head: Ticket)
    requires k <= |q|
    ensures |Scanned(q, k, head)| <= |q| && (k < |q| ==> |Scanned(q, k, head)[1..]| < |q|)
  {
  }

  lemma TrimProjectionsSlim(s: Store)
    requires Lean(s)
    ensures var r := TrimProjections(s).store; Lean(r) && r.limits == s.limits
  {
    hide FirstProjectionVictim, Position, Scanned, HeadTicket, FewPending;
    var q := s.projectionOrder;
    var i, j := FirstProjectionVictim(s, q), Position(q, HeadTicket(s));
    var r := TrimProjections(s).store;
    assert r.candidates.Keys == s.candidates.Keys;
    assert MetadataLen(r) == MetadataLen(s);
    if i < |q| {
      ScannedLength(q, i, HeadTicket(s));
      if j < i {
        ScannedLength(q, j + 1, HeadTicket(s));
      }
    }
  }

  lemma TrimMetadataSlim(c: Chain, s: Store)
    requires Inv(c, s) && Lean(s)
    ensures Lean(TrimMetadata(s).store)
  {
    hide Inv, FirstMetadataVictim, Scanned, HeadTicket, RemoveOne, FewPending, Distinct;
    InvTight(c, s);
    var q := s.metadataOrder;
    var i := FirstMetadataVictim(s, q);
    if i < |q| {
      var scanned := Scanned(q, i, HeadTicket(s));
      ScannedLength(q, i, HeadTicket(s));
      ScannedDistinct(q, i, HeadTicket(s));
      ShorterQueue(s, scanned);
      RemoveOneTight(s.(metadataOrder := scanned[1..]), q[i].hash, false);
    }
  }

  lemma ShorterQueue(s: Store, q: seq<Ticket>)
    requires Tight(s) && Distinct(q) && q != [] && |q| <= |s.metadataOrder| + 1
    ensures Tight(s.(metadataOrder := q[1..]))
  {
  }

  // ----- Handlers -----

  lemma EnforceStore(env: Env, p: State, g: Generation, trim: Trim)
    ensures Enforce(env, p, g, trim).state.store == trim.store
            && Enforce(env, p, g, trim).state.anchoredAt == p.anchoredAt
  {
    hide PublishRetired;
  }

  lemma InsertLean(env: Env, p: State, projection: Projection, stage: Stage, firstSequence: nat, now: Time)
    requires Valid(env, p) && !p.broken && Lean(p.store) && projection.generation == Active(p)
             && Faithful(env.chain, projection)
    ensures Lean(InsertCandidate(env, p, projection, stage, firstSequence, now).state.store)
  {
    hide SharedTrue, Inv, Agrees, SweepSound, PutProjection, TrimProjections, TrimMetadata, Enforce, Faithful, Lean;
    var g, put := projection.generation, PutProjection(p.store, projection, stage, firstSequence, now);
    PutSlim(env.chain, g, p.store, projection, stage, firstSequence, now);
    PutGood(env.chain, g, p.store, projection, stage, firstSequence, now);
    TrimProjectionsSlim(put);
    TrimProjectionsGood(env.chain, g, put);
    EnforceStore(env, p.(store := put), g, TrimProjections(put));
    var cached := Enforce(env, p.(store := put), g, TrimProjections(put)).state;
    TrimMetadataSlim(env.chain, cached.store);
    EnforceStore(env, cached, g, TrimMetadata(cached.store));
  }

  lemma DeferLean(env: Env, p: State, block: BlockMeta, now: Time)
    requires Valid(env, p) && !p.broken && Lean(p.store) && block == env.chain.meta(block.hash)
    ensures Lean(InsertDeferred(env, p, block, env.chain.delta(Active(p), block.hash), now).state.store)
  {
    hide SharedTrue, Inv, Agrees, SweepSound, PutDeferred, TrimMetadata, Enforce, Lean;
    if block.hash !in p.store.candidates {
      var g, changes := Active(p), env.chain.delta(Active(p), block.hash);
      DeferSlim(env.chain, g, p.store, block, changes, now);
      PutDeferredGood(env.chain, g, p.store, block, now);
      var put := PutDeferred(p.store, block, changes, now);
      TrimMetadataSlim(env.chain, put);
      EnforceStore(env, p.(store := put), g, TrimMetadata(put));
    }
  }

  lemma TouchedLean(s: Store, r: Store)
    requires Touched(s, r) && Lean(s)
    ensures Lean(r)
  {
    hide FewPending;
    assert |r.candidates.Keys| == |r.candidates| && |r.deferred.Keys| == |r.deferred|;
  }

  lemma CandidateLean(env: Env, p: State, block: BlockMeta, stage: Stage, now: Time)
    requires Valid(env, p) && !p.broken && Lean(p.store) && block == env.chain.meta(block.hash)
    requires block.number == Number(env.chain, block.parent) + 1
    ensures var g := Active(p);
            Lean(PublishCandidate(env, p, g, block, Truth(env.chain, g, block.parent), env.chain.delta(g, block.hash),
                                    stage, now).state.store)
  {
    hide SharedTrue, Good, Bounded, InsertCandidate, Faithful, Truth, Lean;
    var g := Active(p);
    ProjectedFaithful(env.chain, g, block.hash);
    var delta := ApplyDelta(Truth(env.chain, g, block.parent), env.chain.delta(g, block.hash));
    if delta.Delta? {
      var projection := Projection(block, g, delta.values, delta.bitmap);
      SendTrue(env, p, g, BlockState(projection, stage), None);
      var sent := Send(env, p, g, BlockState(projection, stage), None);
      InsertLean(env, sent.state, projection, stage, |sent.state.shared.calls|, now);
    }
  }

  lemma PromoteLean(env: Env, p: State, g: Generation, h: Hash)
    requires Lean(p.store) && h in p.store.candidates
    ensures Lean(PromoteKnown(env, p, g, h).state.store)
  {
    hide Publish, Lean;
    SetStageTouches(p.store, h);
    TouchedLean(p.store, SetStage(p.store, h));
  }

  lemma ProjectLean(env: Env, p: State, g: Generation, block: BlockMeta, stage: Stage, loads: bool, now: Time)
    requires Valid(env, p) && !p.broken && Lean(p.store) && block == env.chain.meta(block.hash)
    ensures Lean(ProjectCandidate(env, p, g, block, env.chain.delta(g, block.hash), stage, loads, now).state.store)
  {
    hide SharedTrue, Healthy, Intact, PublishCandidate, InsertDeferred, PromoteKnown, ParentValues, Lean, Truth;
    if g == Active(p) {
      if Held(p.store, block.hash) {
        PromoteLean(env, p, g, block.hash);
      } else {
        HealthyParts(env, p);
        ParentValuesTrue(env, p, g, block, stage, loads);
        match ParentValues(env, p, g, block, stage, loads)
        case Values(_) => CandidateLean(env, p, block, stage, now);
        case Defer => DeferLean(env, p, block, now);
        case Skip =>
        case Mismatch =>
      }
    }
  }

  lemma ValidatedLean(env: Env, p: State, g: Generation, h: Hash, loads: bool, now: Time)
    requires Valid(env, p) && !p.broken && Lean(p.store)
    ensures Lean(PromoteValidated(env, p, g, h, loads, now).state.store)
  {
    hide SharedTrue, Healthy, Intact, ProjectCandidate, PromoteKnown, Lean;
    if g == Active(p) {
      if h in p.store.candidates {
        PromoteLean(env, p, g, h);
      } else if h in p.store.deferred {
        DeferredTrue(env, p, h);
        ProjectLean(env, p, g, p.store.deferred[h].block, Validated, loads, now);
      }
    }
  }

  lemma RejectedLean(env: Env, p: State, g: Generation, h: Hash)
    requires Valid(env, p) && !p.broken && Lean(p.store)
    ensures Lean(Rejected(env, p, g, h).state.store)
  {
    hide SharedTrue, Inv, Agrees, SweepSound, Bounded, Publish, RemoveTrees, Tight, FewPending;
    InvTight(env.chain, p.store);
    RemoveTreesTight(p.store, [h], true);
    assert Slim(RemoveTrees(p.store, [h], true)) by { TightSlim(RemoveTrees(p.store, [h], true)); }
  }

  lemma TightSlim(s: Store)
    requires Tight(s)
    ensures Slim(s)
  {
  }

  lemma CanonicalLean(env: Env, p: State, g: Generation, observedAt: Time, h: Hash, loads: bool, now: Time)
    requires Valid(env, p) && !p.broken && Lean(p.store)
    ensures Lean(Canonical(env, p, g, observedAt, h, loads, now).state.store)
  {
    hide SharedTrue, Healthy, Intact, InsertCandidate, Publish, CanonicalBitmap, Faithful, Lean, ScheduleExpiry,
         NoteFirstSequence, HeadProjection, WellShaped;
    HeadProjectionTrue(env, p, g, h, loads);
    var r := HeadProjection(env, p, g, h, loads);
    if r.Some? && r.value.generation == Active(p) && r.value.block.hash == h {
      InsertLean(env, p, r.value, Validated, 0, now);
      var inserted := InsertCandidate(env, p, r.value, Validated, 0, now);
      if inserted.ok {
        var s := inserted.state.store;
        var sequence := |inserted.state.shared.calls| + 1;
        MovedHeadTouches(s, p.store.head, h, sequence, now);
        TouchedLean(s, NoteFirstSequence(ScheduleExpiry(s.(head := h), p.store.head, now), h, sequence));
        CallsGrowByOne(env, inserted.state, r.value, p.store.head);
      }
    }
  }

  lemma CallsGrowByOne(env: Env, p: State, projection: Projection, previous: Hash)
    ensures forall changed :: |Send(env, p, projection.generation, CanonicalHead(previous, projection, changed),
                                    Some(NextState(projection, None, false))).state.shared.calls|
                              == |p.shared.calls| + 1
  {
  }

  lemma SliceLean(c: Chain, s: Store, budget: nat)
    requires Inv(c, s) && Lean(s)
    ensures Tight(ProcessFinality(s, budget).store) && Lean(ProcessFinality(s, budget).store)
  {
    hide Inv, ProcessFinality, FewPending;
    InvTight(c, s);
    SliceTight(s, budget);
  }

  lemma BeginLean(c: Chain, g: Generation, s: Store, finalized: Checkpoint)
    requires Good(c, g, s) && Bounded(s) && Lean(s)
    ensures Lean(BeginSweep(s, finalized))
  {
    hide Agrees, SweepSound, Filed, IndexedExcept;
  }

  lemma NoteFinalizedLean(env: Env, p: State, finalized: Option<Checkpoint>)
    requires Valid(env, p) && !p.broken && Lean(p.store)
    ensures Lean(NoteFinalized(env, p, Active(p), finalized).state.store)
  {
    hide SharedTrue, Inv, Agrees, SweepSound, Bounded, ProcessFinality, PublishRetired, Lean, BeginSweep;
    if finalized.Some? {
      BeginLean(env.chain, Active(p), p.store, finalized.value);
      BeginSweepGood(env.chain, Active(p), p.store, finalized.value);
      SliceLean(env.chain, BeginSweep(p.store, finalized.value), p.store.limits.budget);
    }
  }

  lemma AppliedLean(env: Env, p: State, applied: AppliedView)
    requires Valid(env, p) && !p.broken && Lean(p.store)
    ensures Lean(ForkchoiceAppliedTo(env, p, applied).state.store)
  {
    hide SharedTrue, Good, Bounded, NoteFinalized, Send, Faithful, Lean;
    var canonical := p.shared.published.canonical;
    assert PublishedTrue(env.chain, p.shared.published) by { SharedPublished(env.chain, p.shared); }
    var view := Resolve(applied, canonical.block.number);
    if canonical.block.hash == applied.head && ValidView(view) {
      var next := Some(NextState(canonical, Some(view), false));
      SendTrue(env, p, canonical.generation, ForkchoiceApplied(view), next);
      var sent := Send(env, p, canonical.generation, ForkchoiceApplied(view), next);
      if sent.ok {
        NoteFinalizedLean(env, sent.state, view.finalized);
      }
    }
  }

  lemma ForkchoiceLean(env: Env, p: State, g: Generation, observedAt: Time, applied: AppliedView, loads: bool,
                       now: Time)
    requires Valid(env, p) && !p.broken && Lean(p.store)
    ensures Lean(ForkchoiceChanged(env, p, g, observedAt, applied, loads, now).state.store)
  {
    hide SharedTrue, Healthy, Intact, Canonical, ForkchoiceAppliedTo, Lean;
    AppliedLean(env, p, applied);
    CanonicalKeeps(env, p, g, observedAt, applied.head, loads, now);
    CanonicalNotBroken(env, p, g, observedAt, applied.head, loads, now);
    CanonicalLean(env, p, g, observedAt, applied.head, loads, now);
    var moved := Canonical(env, p, g, observedAt, applied.head, loads, now);
    if moved.ok {
      assert moved.state.(broken := false) == moved.state;
      AppliedLean(env, moved.state, applied);
    }
  }

  lemma AnchoredLean(limits: Limits, p: Projection, finalized: Option<Checkpoint>, incarnation: nat, now: Time)
    requires ValidLimits(limits)
    ensures Lean(Anchored(limits, p, finalized, incarnation, now))
  {
  }

  lemma ReanchorLean(env: Env, p: State, load: Load, now: Time)
    requires ValidLimits(p.store.limits) && Lean(p.store)
    ensures Lean(Reanchor(env, p, load, now).state.store)
  {
    hide Lean, Publish, LoadAt, Anchored;
    if Coheres(env, load) {
      AnchoredLean(p.store.limits, LoadAt(env, Active(p), load.head), load.view.finalized, p.store.nextIncarnation,
                   now);
    }
  }

  lemma GapStore(env: Env, p: State)
    ensures AnnounceGap(env, p).state.store == p.store
  {
  }

  lemma ActivateLean(env: Env, p: State, g: Generation, load: Load, now: Time)
    requires ValidLimits(p.store.limits) && Lean(p.store)
    ensures Lean(Activate(env, p, g, load, now).state.store)
  {
    hide Lean, Publish, LoadAt, Anchored;
    if Coheres(env, load) {
      AnchoredLean(p.store.limits, LoadAt(env, g, load.head), load.view.finalized, p.store.nextIncarnation, now);
    }
  }

  lemma MaintainLean(env: Env, p: State, due: seq<Hash>, now: Time)
    requires Valid(env, p) && !p.broken && Lean(p.store)
    ensures Lean(Maintain(env, p, due, now).state.store)
  {
    hide SharedTrue, Inv, Agrees, SweepSound, Bounded, ProcessFinality, PublishRetired, RemoveAll, Due, Tight,
         FewPending;
    SliceLean(env.chain, p.store, p.store.limits.budget);
    var swept := ProcessFinality(p.store, p.store.limits.budget).store;
    RemoveAllTight(swept, due);
    TightSlim(RemoveAll(swept, due).0);
  }

  // ----- Runs -----

  lemma HandleLean(env: Env, p: State, cmd: Command, now: Time)
    requires Valid(env, p) && !p.broken && CommandTrue(env, cmd) && Lean(p.store)
    ensures Lean(Handle(env, p, cmd, now).state.store)
  {
    hide Healthy, Intact, SharedTrue, ProjectCandidate, PromoteValidated, ForkchoiceChanged, Rejected, Activate,
         Maintain, Reanchor, AnnounceGap, Lean;
    match cmd
    case OnExecuted(_, g, block, _) => ProjectLean(env, p, g, block, Executed, false, now);
    case OnValidated(g, h, loads) => ValidatedLean(env, p, g, h, loads, now);
    case OnValidatedFallback(_, g, block, _, loads) => ProjectLean(env, p, g, block, Validated, loads, now);
    case OnStateReset(at, g, load) =>
      GapStore(env, p);
      ReanchorLean(env, AnnounceGap(env, p).state, load, now);
    case OnForkchoice(at, g, applied, loads) => ForkchoiceLean(env, p, g, at, applied, loads, now);
    case OnRejected(g, h) => RejectedLean(env, p, g, h);
    case OnActivate(g, load) => ActivateLean(env, p, g, load, now);
    case OnTick(due) => MaintainLean(env, p, due, now);
    case OnLoss =>
    case OnRetry(_) =>
  }

  lemma StepLean(env: Env, p: State, cmd: Command, now: Time)
    requires Valid(env, p) && CommandTrue(env, cmd) && Lean(p.store)
    ensures Lean(Step(env, p, cmd, now).store)
  {
    hide Healthy, Intact, SharedTrue, Handle, AnnounceGap, Reanchor, Lean;
    if p.broken {
      if cmd.OnRetry? {
        GapStore(env, p);
        ReanchorLean(env, p, cmd.load, now);
        ReanchorLean(env, AnnounceGap(env, p).state, cmd.load, now);
      }
    } else {
      HandleLean(env, p, cmd, now);
    }
  }

  lemma {:induction false} RunLean(env: Env, p: State, turns: seq<Turn>)
    requires Valid(env, p) && TurnsTrue(env, turns) && Lean(p.store)
    ensures Lean(Run(env, p, turns).store)
    decreases |turns|
  {
    hide Valid, Step, CommandTrue, Lean;
    if turns != [] {
      StepKeeps(env, p, turns[0].command, turns[0].now);
      StepLean(env, p, turns[0].command, turns[0].now);
      RunLean(env, Step(env, p, turns[0].command, turns[0].now), turns[1..]);
    }
  }

  /** Each list of the index is some record's parent's. */
  lemma {:induction false} ListsWithin(c: Chain, parents: set<Hash>, records: set<Hash>)
    requires forall p :: p in parents ==> exists h :: h in records && Parent(c, h) == p
    ensures |parents| <= |records|
    decreases |parents|
  {
    if parents != {} {
      var p :| p in parents;
      var h :| h in records && Parent(c, h) == p;
      forall q | q in parents - {p}
        ensures exists x :: x in records - {h} && Parent(c, x) == q
      {
        var x :| x in records && Parent(c, x) == q;
        assert x in records - {h};
      }
      ListsWithin(c, parents - {p}, records - {h});
    }
  }

  lemma ChildrenBounded(c: Chain, s: Store)
    requires Inv(c, s)
    ensures |s.children| <= MetadataLen(s)
  {
    var records := s.candidates.Keys + s.deferred.Keys;
    forall p | p in s.children
      ensures exists h :: h in records && Parent(c, h) == p
    {
      var h := s.children[p][0];
      assert Listed(s.children, p, h);
    }
    ListsWithin(c, s.children.Keys, records);
    InvQueue(c, s);
    assert |records| == |s.candidates| + |s.deferred|;
  }

  /** Memory: after every run the record and projection queues are within three times their limits and the
      index has no more lists than there may be records, each with one more while an error is pending; the
      sweep's queue and the tombstones are within their limits at all times, however many records came and
      went. At all times the stale tickets of a queue number at most twice its limit. */
  lemma MemoryBounded(env: Env, limits: Limits, g: Generation, load: Load, now: Time, turns: seq<Turn>)
    requires WellFormed(env.chain) && ValidLimits(limits) && Coheres(env, load) && TurnsTrue(env, turns)
    ensures var p := Run(env, Start(env, limits, g, load, now), turns);
            var over := if p.broken then 1 else 0;
            && Slim(p.store) && PendingSlim(p.store)
            && |p.store.metadataOrder| <= 3 * p.store.limits.metadata + over
            && |p.store.projectionOrder| <= 3 * p.store.limits.cache + over
            && (p.store.sweep.Some? ==> |p.store.sweep.value.pending| <= 3 * p.store.limits.metadata)
            && |p.store.children| <= p.store.limits.metadata + over
            && |p.store.tombstones| <= p.store.limits.metadata
  {
    hide Run, Inv, SharedTrue, Agrees, SweepSound;
    var start := Start(env, limits, g, load, now);
    StartValid(env, limits, g, load, now);
    AnchoredLean(limits, LoadAt(env, g, load.head), load.view.finalized, 1, now);
    RunLean(env, start, turns);
    RunKeeps(env, start, turns);
    var p := Run(env, start, turns);
    ChildrenBounded(env.chain, p.store);
    TombstonesBounded(env.chain, p.store);
  }
}
