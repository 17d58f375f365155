/** The candidate store and the broadcast log as they run: fields updated in place, loops, and every
    method tied to what the specification makes of the state. */
module LiveStore {
  import opened Types
  import opened Sequences
  import opened Chain
  import opened Projections
  import opened Store
  import opened StoreInvariants
  import opened StoreLimits
  import opened StoreFaith
  import opened Finality
  import opened Wire
  import opened Publisher
  import opened PublisherInvariants
  import S = Store

  // ----- Facts about queues under a scan -----

  lemma ScannedStep(q: seq<Ticket>, k: nat, head: Ticket)
    requires Distinct(q) && k < |q|
    ensures Scanned(q, k + 1, head) == Scanned(q, k, head)[1..] + if q[k] == head then [head] else []
  {
    var j := Position(q, head);
    if q[k] == head {
      assert j == k;
    }
    assert Scanned(q, k, head)[1..] == q[k + 1..] + if j < k then [head] else [];
  }

  lemma ScannedStart(q: seq<Ticket>, head: Ticket)
    ensures Scanned(q, 0, head) == q
  {
  }

  /** Removing a record does not look at the sweep. */
  lemma RemoveBesideSweep(s: Store, sweep: Option<Sweep>, h: Hash, terminal: bool)
    ensures RemoveOne(s.(sweep := sweep), h, terminal) == RemoveOne(s, h, terminal).(sweep := sweep)
  {
    var a, b := s, s.(sweep := sweep);
    var ra, rb := RemoveRecord(a, h), RemoveRecord(b, h);
    var ta := if terminal then AddTombstone(ra, h) else ra;
    var tb := if terminal then AddTombstone(rb, h) else rb;
    assert tb == ta.(sweep := sweep);
    RetainBesideSweep(ta, sweep, ta.metadataOrder, ta.projectionOrder);
  }

  lemma {:induction false} RetainBesideSweep(s: Store, sweep: Option<Sweep>, q: seq<Ticket>, p: seq<Ticket>)
    ensures RetainMetadata(s.(sweep := sweep), q) == RetainMetadata(s, q)
    ensures RetainProjection(s.(sweep := sweep), p) == RetainProjection(s, p)
    decreases |q| + |p|
  {
    if q != [] {
      RetainBesideSweep(s, sweep, q[1..], p);
    } else if p != [] {
      RetainBesideSweep(s, sweep, q, p[1..]);
    }
  }

  // ----- The shared part -----

  class Broadcaster {
    const encodes: nat -> bool
    var calls: seq<Call>
    var committed: nat
    var published: Published

    function Model(): Shared
      reads this
    {
      Shared(calls, committed, published)
    }

    constructor (encodes: nat -> bool, published: Published)
      ensures Model() == Shared([], 0, published) && this.encodes == encodes
    {
      this.encodes, calls, committed, this.published := encodes, [], 0, published;
    }

    /** Uses up a sequence; if the frame encodes, stores the state and then commits the sequence. */
    method PublishInner(generation: Generation, event: Event, next: Option<NextState>) returns (ok: bool)
      modifies this
      ensures Model() == Publish(encodes, old(Model()), generation, event, next).shared
      ensures ok == Publish(encodes, old(Model()), generation, event, next).ok
      ensures |calls| == |old(calls)| + 1 && old(calls) <= calls
      ensures ok ==> committed == |calls| && (next.None? ==> published == old(published))
      ensures !ok ==> committed == old(committed) && published == old(published)
    {
      var sequence := |calls| + 1;
      var state: Option<Published> := None;
      if next.Some? {
        state := Some(Published(next.value.canonical, next.value.forkchoice, sequence, next.value.recovering));
      }
      ok := Preflighted(event) || encodes(sequence);
      calls := calls + [Call(generation, event, state, ok)];
      if ok {
        if state.Some? {
          published := state.value;
        }
        committed := sequence;
      }
    }

    /** Announces retirements in batches. */
    method PublishRetired(batch: nat, generation: Generation, hashes: seq<Hash>, reason: Reason) returns (ok: bool)
      modifies this
      ensures Model() == Wire.PublishRetired(encodes, batch, old(Model()), generation, hashes, reason).shared
      ensures ok == Wire.PublishRetired(encodes, batch, old(Model()), generation, hashes, reason).ok
    {
      hide Publish;
      var i := 0;
      ok := true;
      assert hashes[0..] == hashes;
      while i < |hashes|
        invariant 0 <= i <= |hashes|
        invariant ok
        invariant Wire.PublishRetired(encodes, batch, Model(), generation, hashes[i..], reason)
               == Wire.PublishRetired(encodes, batch, old(Model()), generation, hashes, reason)
      {
        var n := if batch == 0 then 1 else if batch < |hashes| - i then batch else |hashes| - i;
        assert hashes[i..][..n] == hashes[i..i + n] && hashes[i..][n..] == hashes[i + n..];
        ok := PublishInner(generation, CandidatesRetired(hashes[i..i + n], reason), None);
        if !ok {
          return;
        }
        i := i + n;
      }
    }
  }

  // ----- The publisher -----

  class CandidateStore {
    const chain: Chain
    const limits: Limits
    var candidates: map<Hash, Entry>
    var deferred: map<Hash, Deferred>
    var children: map<Hash, seq<Hash>>
    var projectionOrder: seq<Ticket>
    var metadataOrder: seq<Ticket>
    var tombstones: set<Hash>
    var tombstoneOrder: seq<Hash>
    var nextIncarnation: nat
    var projectionCount: nat
    var head: Hash
    var lastFinalized: Option<Checkpoint>
    var sweep: Option<Sweep>
    ghost var anchor: nat
    ghost var terminal: set<Hash>

    constructor (chain: Chain, limits: Limits, initial: Projection, finalized: Option<Checkpoint>, now: Time)
      ensures Contents() == Anchored(limits, initial, finalized, 1, now)
      ensures this.chain == chain && this.limits == limits
    {
      this.chain, this.limits := chain, limits;
      var h := initial.block.hash;
      candidates := map[h := Entry(initial.block, Some(initial), Validated, true, 0, 1, now + limits.retention)];
      deferred, children := map[], map[];
      projectionOrder, metadataOrder := [Ticket(1, h)], [Ticket(1, h)];
      tombstones, tombstoneOrder := {}, [];
      nextIncarnation, projectionCount := 2, 1;
      head, lastFinalized, sweep := h, finalized, None;
      anchor, terminal := 1, {};
    }

    ghost function Contents(): Store
      reads this
    {
      Store(candidates, deferred, children, projectionOrder, metadataOrder, tombstones, tombstoneOrder,
            nextIncarnation, projectionCount, limits, head, lastFinalized, sweep, anchor, terminal)
    }

    /** No more tombstones than records, in one order, and no record filed twice. */
    ghost predicate Tidy()
      reads this
    {
      && Distinct(tombstoneOrder) && tombstones == Elements(tombstoneOrder) && |tombstones| <= limits.metadata
      && candidates.Keys !! deferred.Keys
    }

    function CurrentIncarnation(h: Hash): (r: Option<nat>)
      reads this
      ensures r == Incarnation(Contents(), h)
    {
      if h in candidates then Some(candidates[h].incarnation)
      else if h in deferred then Some(deferred[h].incarnation)
      else None
    }

    // ----- Removal -----

    method InsertTombstone(hash: Hash)
      requires Tidy() && 0 < limits.metadata
      modifies this
      ensures Contents() == AddTombstone(old(Contents()), hash) && Tidy()
    {
      ghost var s := Contents();
      if hash !in tombstones {
        tombstones, tombstoneOrder := tombstones + {hash}, tombstoneOrder + [hash];
        AppendDistinct(s.tombstoneOrder, hash);
        assert tombstones == Elements(tombstoneOrder);
      }
      terminal := terminal + {hash};
      assert tombstones == s.tombstones + {hash} && tombstoneOrder == TombstoneQueue(s, hash);
      ghost var full := |tombstones| > limits.metadata;
      assert full <==> TombstonesFull(s, hash);
      while |tombstones| > limits.metadata
        invariant Distinct(tombstoneOrder) && tombstones == Elements(tombstoneOrder)
        invariant |tombstones| <= limits.metadata + 1
        invariant Contents() == if full && |tombstones| <= limits.metadata
                                then AddTombstone(s, hash)
                                else s.(tombstones := s.tombstones + {hash}, tombstoneOrder := TombstoneQueue(s, hash),
                                        terminal := s.terminal + {hash})
        invariant |tombstones| > limits.metadata ==> full
        decreases |tombstones|
      {
        assert tombstoneOrder != [] by { ElementsSize(tombstoneOrder); }
        var oldest := tombstoneOrder[0];
        RestElements(tombstoneOrder);
        tombstoneOrder := tombstoneOrder[1..];
        tombstones := tombstones - {oldest};
      }
    }

    method CompactOrderQueues()
      modifies this
      ensures Contents() == Compact(old(Contents()))
      ensures tombstones == old(tombstones) && tombstoneOrder == old(tombstoneOrder)
      ensures candidates == old(candidates) && deferred == old(deferred)
    {
      if |metadataOrder| > 2 * limits.metadata {
        metadataOrder := RetainRecords(metadataOrder);
      }
      RetainSame(old(Contents()), Contents(), projectionOrder);
      if |projectionOrder| > 2 * limits.cache {
        projectionOrder := RetainProjections(projectionOrder);
      }
    }

    method RetainRecords(q: seq<Ticket>) returns (r: seq<Ticket>)
      ensures r == RetainMetadata(Contents(), q)
    {
      r := [];
      var i := 0;
      assert q[0..] == q;
      while i < |q|
        invariant 0 <= i <= |q|
        invariant r + RetainMetadata(Contents(), q[i..]) == RetainMetadata(Contents(), q)
      {
        assert q[i..][1..] == q[i + 1..];
        if CurrentIncarnation(q[i].hash) == Some(q[i].incarnation) {
          assert r + ([q[i]] + RetainMetadata(Contents(), q[i + 1..]))
                 == r + [q[i]] + RetainMetadata(Contents(), q[i + 1..]);
          r := r + [q[i]];
        }
        i := i + 1;
      }
    }

    method RetainProjections(q: seq<Ticket>) returns (r: seq<Ticket>)
      ensures r == RetainProjection(Contents(), q)
    {
      r := [];
      var i := 0;
      assert q[0..] == q;
      while i < |q|
        invariant 0 <= i <= |q|
        invariant r + RetainProjection(Contents(), q[i..]) == RetainProjection(Contents(), q)
      {
        assert q[i..][1..] == q[i + 1..];
        var h := q[i].hash;
        if h in candidates && candidates[h].incarnation == q[i].incarnation && candidates[h].projection.Some? {
          assert r + ([q[i]] + RetainProjection(Contents(), q[i + 1..]))
                 == r + [q[i]] + RetainProjection(Contents(), q[i + 1..]);
          r := r + [q[i]];
        }
        i := i + 1;
      }
    }

    /** Takes a record off the maps, the count and its parent's list. */
    method DropRecord(hash: Hash) returns (tracked: bool)
      requires candidates.Keys !! deferred.Keys
      modifies this
      ensures Contents() == RemoveRecord(old(Contents()), hash)
      ensures tracked == Tracked(old(Contents()), hash)
    {
      ghost var s := Contents();
      var parent: Option<Hash> := None;
      tracked := false;
      if hash in candidates {
        var entry := candidates[hash];
        parent, tracked := Some(entry.block.parent), entry.tracked;
        candidates := candidates - {hash};
        if entry.projection.Some? && projectionCount > 0 {
          projectionCount := projectionCount - 1;
        }
      }
      if hash in deferred {
        parent := Some(deferred[hash].block.parent);
        deferred := deferred - {hash};
      }
      assert candidates == s.candidates - {hash} && deferred == s.deferred - {hash};
      if parent.Some? && parent.value in children {
        var rest := Without(children[parent.value], hash);
        children := if rest == [] then children - {parent.value} else children[parent.value := rest];
      }
    }

    /** Removes one record and says whether consumers still tracked it. */
    method RemoveOne(hash: Hash, isTerminal: bool) returns (tracked: bool)
      requires Tidy() && 0 < limits.metadata
      modifies this
      ensures Contents() == S.RemoveOne(old(Contents()), hash, isTerminal) && Tidy()
      ensures tracked == Tracked(old(Contents()), hash)
    {
      hide AddTombstone, Compact, RemoveRecord;
      RemoveRecordFields(Contents(), hash);
      tracked := DropRecord(hash);
      if isTerminal {
        InsertTombstone(hash);
      }
      CompactOrderQueues();
    }

    /** Removes a record and its listed descendants. */
    method RemoveCandidateTree(root: Hash, isTerminal: bool)
      requires Tidy() && 0 < limits.metadata
      modifies this
      ensures Contents() == S.RemoveCandidateTree(old(Contents()), root, isTerminal) && Tidy()
    {
      hide S.RemoveOne, TakeOut, RemoveTrees, Kids;
      if root == head {
        return;
      }
      var pending := [root];
      while pending != []
        invariant Tidy()
        invariant RemoveTrees(Contents(), pending, isTerminal) == RemoveTrees(old(Contents()), [root], isTerminal)
        invariant old(head) == head
        decreases |children|, |pending|
      {
        var hash := pending[|pending| - 1];
        ghost var s := Contents();
        RemoveTreesStep(s, pending, isTerminal);
        pending := pending[..|pending| - 1];
        if hash in children {
          pending := pending + children[hash];
          children := children - {hash};
        }
        assert Contents() == s.(children := s.children - {hash});
        var _ := RemoveOne(hash, isTerminal);
        assert Contents() == TakeOut(s, hash, isTerminal);
        assert head == s.head by { RemoveKeepsHead(s.(children := s.children - {hash}), hash, isTerminal); }
      }
      NothingPending(Contents(), isTerminal);
    }

    // ----- Insertion -----

    /** An incarnation no record has. */
    method AllocateIncarnation() returns (incarnation: nat)
      modifies this
      ensures incarnation == old(nextIncarnation)
      ensures Contents() == old(Contents()).(nextIncarnation := incarnation + 1)
      ensures OlderThan(candidates, deferred, old(nextIncarnation)) ==>
                && (forall h :: Incarnation(Contents(), h) != Some(incarnation))
                && OlderThan(candidates, deferred, nextIncarnation)
    {
      incarnation := nextIncarnation;
      nextIncarnation := nextIncarnation + 1;
    }

    /** Lists one more child, and lists it once. */
    method AddChild(parent: Hash, child: Hash)
      modifies this
      ensures Contents() == old(Contents()).(children := S.AddChild(old(children), parent, child))
      ensures forall p, h :: Listed(children, p, h) <==> Listed(old(children), p, h) || (p == parent && h == child)
      ensures ListsProper(old(children)) ==> ListsProper(children)
    {
      var kids := if parent in children then children[parent] else [];
      if child !in kids {
        kids := kids + [child];
      }
      children := children[parent := kids];
    }

    method QueueFinalityCheck(incarnation: nat, hash: Hash)
      modifies this
      ensures Contents() == old(Contents()).(sweep := S.QueueFinalityCheck(old(Contents()), Ticket(incarnation, hash)))
    {
      var t := Ticket(incarnation, hash);
      if sweep.Some? {
        sweep := Some(sweep.value.(pending := sweep.value.pending + [t]));
      } else if lastFinalized.Some? {
        sweep := Some(Sweep(lastFinalized.value, [t], map[], None));
      }
      if sweep.Some? && |sweep.value.pending| > 2 * limits.metadata {
        RetainBesideSweep(old(Contents()), sweep, sweep.value.pending, []);
        var live := RetainRecords(sweep.value.pending);
        sweep := Some(sweep.value.(pending := live));
      }
    }

    /** A new record: its place under its parent, in the metadata queue and in the sweep. */
    method EnlistRecord(parent: Hash, hash: Hash, incarnation: nat)
      requires incarnation + 1 == nextIncarnation
      modifies this
      ensures Contents() == Enlist(old(Contents()).(nextIncarnation := incarnation), parent, hash)
    {
      hide S.QueueFinalityCheck, S.AddChild;
      ghost var s := Contents().(nextIncarnation := incarnation);
      QueueIgnores(s, nextIncarnation, S.AddChild(s.children, parent, hash),
                   s.metadataOrder + [Ticket(incarnation, hash)], Ticket(incarnation, hash));
      AddChild(parent, hash);
      metadataOrder := metadataOrder + [Ticket(incarnation, hash)];
      QueueFinalityCheck(incarnation, hash);
    }

    /** Files the entry of a projection and, if the record is new, enlists it. */
    method FileEntry(projection: Projection, stage: Stage, firstSequence: nat, now: Time)
      returns (incarnation: nat, gained: bool)
      requires candidates.Keys !! deferred.Keys
      modifies this
      ensures var s, h := old(Contents()), projection.block.hash;
              var entry := NewEntry(s, projection, stage, firstSequence, now);
              var filed := s.(deferred := s.deferred - {h}, candidates := s.candidates[h := entry]);
              && Contents() == (if IsRecord(s, h) then filed else Enlist(filed, projection.block.parent, h))
              && incarnation == entry.incarnation && gained == !Held(s, h)
    {
      hide Enlist;
      var hash, block := projection.block.hash, projection.block;
      var existing := CurrentIncarnation(hash);
      deferred := deferred - {hash};
      if existing.Some? {
        incarnation := existing.value;
      } else {
        incarnation := AllocateIncarnation();
      }
      gained := true;
      if hash in candidates {
        var entry := candidates[hash];
        gained := entry.projection.None?;
        candidates := candidates[hash := Entry(block, Some(projection), stage, true,
                                               if entry.tracked then entry.firstSequence else firstSequence,
                                               entry.incarnation, now + limits.retention)];
      } else {
        candidates := candidates[hash := Entry(block, Some(projection), stage, true, firstSequence, incarnation,
                                               now + limits.retention)];
        if existing.None? {
          EnlistRecord(block.parent, hash, incarnation);
        }
      }
    }

    /** Gives a record its projection, without enforcing any limit. */
    method FileProjection(projection: Projection, stage: Stage, firstSequence: nat, now: Time)
      requires candidates.Keys !! deferred.Keys
      modifies this
      ensures Contents() == PutProjection(old(Contents()), projection, stage, firstSequence, now)
    {
      hide Enlist, NewEntry;
      ghost var s, h := Contents(), projection.block.hash;
      ghost var filed := s.(deferred := s.deferred - {h},
                            candidates := s.candidates[h := NewEntry(s, projection, stage, firstSequence, now)]);
      EnlistKeeps(filed, projection.block.parent, h);
      var incarnation, gained := FileEntry(projection, stage, firstSequence, now);
      if gained {
        projectionCount := projectionCount + 1;
        projectionOrder := projectionOrder + [Ticket(incarnation, projection.block.hash)];
      }
    }

    method FileDeferred(block: BlockMeta, changes: seq<SlotChange>, now: Time)
      requires block.hash !in candidates
      modifies this
      ensures Contents() == PutDeferred(old(Contents()), block, changes, now)
      ensures block.hash in deferred && deferred[block.hash].changes == changes && old(metadataOrder) <= metadataOrder
      ensures forall h :: h != block.hash ==> Incarnation(Contents(), h) == Incarnation(old(Contents()), h)
      ensures if block.hash in old(deferred)
              then Incarnation(Contents(), block.hash) == Incarnation(old(Contents()), block.hash)
              else Ticket(deferred[block.hash].incarnation, block.hash) in metadataOrder
                   && deferred[block.hash].incarnation == old(nextIncarnation)
    {
      hide Enlist;
      DeferredGains(Contents(), block, changes, now);
      var hash := block.hash;
      var known := hash in deferred;
      var incarnation: nat;
      if known {
        incarnation := deferred[hash].incarnation;
      } else {
        incarnation := AllocateIncarnation();
      }
      deferred := deferred[hash := Deferred(block, changes, incarnation, now + limits.retention)];
      if !known {
        EnlistRecord(block.parent, hash, incarnation);
      }
    }

    // ----- Limits -----

    /** Takes a record's projection; consumers that were given it are to be told. */
    method EvictProjectionOf(hash: Hash) returns (retired: seq<Hash>)
      requires hash in candidates && projectionCount > 0
      modifies this
      ensures Contents() == DropProjection(old(Contents()), hash)
      ensures retired == if old(candidates)[hash].tracked then [hash] else []
    {
      var entry := candidates[hash];
      projectionCount := projectionCount - 1;
      retired := if entry.tracked then [hash] else [];
      candidates := candidates[hash := entry.(projection := None, tracked := false)];
    }

    /** Evicts projections until the cache is within its limit. */
    method TrimProjectionCache() returns (retired: seq<Hash>, ok: bool)
      requires Inv(chain, Contents()) && projectionCount <= limits.cache + 1 && limits.cache >= 1
      modifies this
      ensures Trim(Contents(), retired, ok) == TrimProjections(old(Contents()))
    {
      hide Inv, FirstProjectionVictim, Position, Scanned, HeadTicket;
      retired, ok := [], true;
      ghost var s := Contents();
      ghost var q, i := projectionOrder, FirstProjectionVictim(s, projectionOrder);
      ghost var t := HeadTicket(s);
      var examined := 0;
      ghost var done := false;
      if projectionCount > limits.cache {
        TrimStarts(chain, s);
      }
      ScannedStart(q, t);
      while projectionCount > limits.cache
        invariant 0 <= examined <= |q|
        invariant s.projectionCount <= limits.cache ==> examined == 0 && !done
        invariant s.projectionCount > limits.cache ==> done || examined <= i < |q|
        invariant !done ==>
                    Contents() == s.(projectionOrder := Scanned(q, examined, t)) && retired == []
                    && projectionCount == s.projectionCount
        invariant !done && s.projectionCount > limits.cache ==>
                    (Position(q, t) < examined ==> 2 * Position(q, t) <= |q|)
        invariant done ==> projectionCount <= limits.cache && s.projectionCount > limits.cache
                           && Trim(Contents(), retired, true) == TrimProjections(s)
        decreases |q| - examined
      {
        TrimAt(chain, s, examined);
        ScannedStep(q, examined, t);
        ScannedFront(q, examined, t);
        var ticket := projectionOrder[0];
        projectionOrder := projectionOrder[1..];
        examined := examined + 1;
        var oldest := ticket.hash;
        if oldest in candidates && candidates[oldest].incarnation == ticket.incarnation
           && candidates[oldest].projection.Some? {
          if oldest == head {
            projectionOrder := projectionOrder + [ticket];
          } else {
            retired := EvictProjectionOf(oldest);
            done := true;
          }
          if examined > |projectionOrder| + 1 {
            ok := false;
            return;
          }
        }
      }
    }

    /** Removes a record; consumers that track it are to be told. */
    method EvictRecordOf(hash: Hash) returns (retired: seq<Hash>)
      requires Tidy() && 0 < limits.metadata
      modifies this
      ensures Contents() == S.RemoveOne(old(Contents()), hash, false)
      ensures retired == if Tracked(old(Contents()), hash) then [hash] else []
    {
      var tracked := RemoveOne(hash, false);
      retired := if tracked then [hash] else [];
    }

    /** Removes records until there are no more than the limit. */
    method TrimRecords() returns (retired: seq<Hash>, ok: bool)
      requires Inv(chain, Contents()) && |candidates| + |deferred| <= limits.metadata + 1 && limits.metadata >= 1
      modifies this
      ensures Trim(Contents(), retired, ok) == TrimMetadata(old(Contents()))
    {
      hide Inv, FirstMetadataVictim, Position, Scanned, HeadTicket, S.RemoveOne, TrimMetadata, LiveMetadata, Distinct,
           Elements;
      retired, ok := [], true;
      ghost var s := Contents();
      ghost var q, i, t := metadataOrder, FirstMetadataVictim(s, metadataOrder), HeadTicket(s);
      ghost var examined := 0;
      TrimRecordsStarts(chain, s);
      ScannedStart(q, t);
      while |candidates| + |deferred| > limits.metadata
        invariant 0 <= examined <= i <= |q| && retired == [] && ok
        invariant Contents() == s.(metadataOrder := Scanned(q, examined, t))
        invariant MetadataLen(s) <= limits.metadata ==> examined == 0
        decreases |q| - examined
      {
        TrimRecordsAt(chain, s, examined);
        ScannedStep(q, examined, t);
        ScannedFront(q, examined, t);
        var ticket := metadataOrder[0];
        metadataOrder := metadataOrder[1..];
        if CurrentIncarnation(ticket.hash) == Some(ticket.incarnation) {
          if ticket.hash == head {
            metadataOrder := metadataOrder + [ticket];
          } else {
            TrimRecordsResult(chain, s);
            InvTidy(chain, s);
            assert Contents() == s.(metadataOrder := Scanned(q, i, t)[1..]);
            retired := EvictRecordOf(ticket.hash);
            return;
          }
        }
        examined := examined + 1;
      }
    }

    // ----- Finality -----

    /** One step towards the finalized height: a verdict, or the walk one block further up. */
    method AdvanceFinalityWalk(walk: Walk, finalized: Checkpoint) returns (verdict: Option<Verdict>, next: Walk)
      ensures verdict.Some? ==> AdvanceWalk(Contents(), walk, finalized) == Settled(verdict.value) && next == walk
      ensures verdict.None? ==> AdvanceWalk(Contents(), walk, finalized) == Moved(next)
    {
      next := walk;
      var block := BlockOf(walk.current);
      if block.None? {
        return Some(Unknown), next;
      }
      if block.value.number == finalized.number {
        return Some(if block.value.hash == finalized.hash then Compatible else Conflict), next;
      }
      if block.value.number < finalized.number {
        return Some(Compatible), next;
      }
      var parent := BlockOf(block.value.parent);
      if parent.None? {
        return Some(if block.value.parent in tombstones then Conflict else Unknown), next;
      }
      if parent.value.number + 1 != block.value.number {
        return Some(Unknown), next;
      }
      next := walk.(path := walk.path + [walk.current], current := parent.value.hash);
      verdict := None;
    }

    function BlockOf(h: Hash): (r: Option<BlockMeta>)
      reads this
      ensures r == Meta(Contents(), h)
    {
      if h in candidates then Some(candidates[h].block)
      else if h in deferred then Some(deferred[h].block)
      else None
    }

    /** One unit of the sweep that was taken out of the store. */
    method SweepOnce(taken: Sweep) returns (next: Sweep, retired: seq<Hash>)
      requires Tidy() && 0 < limits.metadata && Busy(Contents().(sweep := Some(taken)))
      modifies this
      ensures var unit := SweepUnit(old(Contents()).(sweep := Some(taken)));
              Contents().(sweep := Some(next)) == unit.store && retired == unit.retired
      ensures Tidy() && sweep == old(sweep)
    {
      hide S.RemoveOne, AdvanceWalk, Memoised, Settle;
      ghost var s := Contents();
      retired := [];
      next := taken;
      var walk: Walk;
      if next.active.Some? {
        walk := next.active.value;
        next := next.(active := None);
      } else {
        var ticket := next.pending[0];
        next := next.(pending := next.pending[1..]);
        if CurrentIncarnation(ticket.hash) != Some(ticket.incarnation) || ticket.hash == head {
          return;
        }
        walk := Walk(ticket.incarnation, ticket.hash, ticket.hash, []);
      }
      ghost var unit := SweepUnit(s.(sweep := Some(taken)));
      assert unit == Examine(s.(sweep := Some(taken)), next, walk);
      var verdict: Option<Verdict>;
      AdvanceBeside(s, Some(taken), walk, next.checkpoint);
      if walk.current in next.verdicts {
        verdict := Some(next.verdicts[walk.current]);
      } else {
        verdict, walk := AdvanceFinalityWalk(walk, next.checkpoint);
      }
      if verdict.None? {
        next := next.(active := Some(walk));
        return;
      }
      assert unit == Settle(s.(sweep := Some(taken)), next, walk, verdict.value);
      next, retired := SettleWalk(taken, next, walk, verdict.value);
    }

    /** Ends a walk: remembers its verdict, and removes a conflicting root that is still the same. */
    method SettleWalk(ghost taken: Sweep, before: Sweep, walk: Walk, verdict: Verdict)
      returns (next: Sweep, retired: seq<Hash>)
      requires Tidy() && 0 < limits.metadata
      modifies this
      ensures var unit := Settle(old(Contents()).(sweep := Some(taken)), before, walk, verdict);
              Contents().(sweep := Some(next)) == unit.store && retired == unit.retired
      ensures Tidy() && sweep == old(sweep)
    {
      hide S.RemoveOne, Memoised;
      ghost var s := Contents();
      next, retired := before.(active := None), [];
      NothingMemoised(before.verdicts, walk);
      if verdict != Unknown {
        var verdicts := Memoise(next.verdicts, walk, verdict);
        next := next.(verdicts := verdicts);
      }
      if verdict == Conflict && CurrentIncarnation(walk.root) == Some(walk.incarnation) {
        RemoveBesideSweep(s, Some(next), walk.root, true);
        RemoveKeepsSweep(s, walk.root, true);
        var tracked := RemoveOne(walk.root, true);
        if tracked {
          retired := [walk.root];
        }
      }
    }

    method Memoise(verdicts: map<Hash, Verdict>, walk: Walk, verdict: Verdict) returns (r: map<Hash, Verdict>)
      requires verdict != Unknown
      ensures r == Memoised(verdicts, walk, verdict)
    {
      r := verdicts[walk.current := verdict];
      var i := 0;
      while i < |walk.path|
        invariant 0 <= i <= |walk.path|
        invariant r.Keys == verdicts.Keys + {walk.current} + (set x | x in walk.path[..i])
        invariant forall h :: h in r ==>
                    r[h] == if h == walk.current || h in walk.path[..i] then verdict else verdicts[h]
      {
        assert walk.path[..i + 1] == walk.path[..i] + [walk.path[i]];
        r := r[walk.path[i] := verdict];
        i := i + 1;
      }
      assert walk.path[..i] == walk.path;
    }

    /** A slice of the sweep. */
    method ProcessBudget(budget: nat) returns (retired: seq<Hash>, work: nat)
      requires Tidy() && 0 < limits.metadata
      modifies this
      ensures Slice(Contents(), retired, work) == ProcessFinality(old(Contents()), budget) && Tidy()
    {
      hide SweepUnit, SweepUnits, Busy;
      ghost var s := Contents();
      retired, work := [], 0;
      if sweep.None? {
        NoSweep(s, budget);
        return;
      }
      var taken := sweep.value;
      sweep := None;
      ghost var current := Contents().(sweep := Some(taken));
      assert current == s;
      assert [] + SweepUnits(current, budget).retired == SweepUnits(current, budget).retired;
      while work < budget && (taken.active.Some? || taken.pending != [])
        invariant Tidy() && sweep == None && work <= budget
        invariant current == Contents().(sweep := Some(taken))
        invariant var rest := SweepUnits(current, budget - work);
                  SweepUnits(s, budget) == Slice(rest.store, retired + rest.retired, work + rest.work)
        decreases budget - work
      {
        assert Busy(current) by { BusyIs(current, taken); }
        UnitAccounts(current, budget - work, retired, work);
        var more;
        taken, more := SweepOnce(taken);
        current := Contents().(sweep := Some(taken));
        retired := retired + more;
        work := work + 1;
      }
      BusyIs(current, taken);
      SweepStops(current, budget - work);
      assert retired + [] == retired;
      if taken.pending != [] || taken.active.Some? {
        sweep := Some(taken);
      }
    }

    method BeginFinalitySweep(finalized: Checkpoint)
      modifies this
      ensures Contents() == BeginSweep(old(Contents()), finalized)
    {
      lastFinalized := Some(finalized);
      sweep := Some(Sweep(finalized, metadataOrder, map[], None));
    }

    // ----- Expiry -----

    /** Expired records other than the head, as many as the budget allows. */
    method CollectDue(now: Time, budget: nat) returns (due: seq<Hash>)
      requires candidates.Keys !! deferred.Keys
      ensures Due(Contents(), due, now, budget)
    {
      hide Due;
      var early := ExpiredAmong(map h | h in candidates :: candidates[h].expiresAt, now, budget);
      var late := ExpiredAmong(map h | h in deferred :: deferred[h].expiresAt, now, budget - |early|);
      EarlyAndLate(Contents(), early, late, now, budget);
      due := early + late;
    }

    /** The hashes, but the head, whose time has come, as many as the budget allows. */
    method ExpiredAmong(times: map<Hash, Time>, now: Time, budget: nat) returns (due: seq<Hash>)
      ensures Overdue(times, head, due, now, budget)
    {
      due := [];
      var rest := times.Keys;
      while rest != {} && |due| < budget
        invariant rest <= times.Keys && |due| <= budget && Distinct(due)
        invariant forall h :: h in due ==> h in times && h !in rest && h != head && times[h] <= now
        invariant forall h :: h in times && h !in rest && h != head && times[h] <= now ==> h in due
        decreases |rest|
      {
        var h :| h in rest;
        if h != head && times[h] <= now {
          due := due + [h];
        }
        rest := rest - {h};
      }
    }

    /** Removes each of the hashes and lists those that were tracked. */
    method RemoveEach(hashes: seq<Hash>) returns (tracked: seq<Hash>)
      requires Tidy() && 0 < limits.metadata
      modifies this
      ensures (Contents(), tracked) == RemoveAll(old(Contents()), hashes) && Tidy()
    {
      hide S.RemoveOne;
      tracked := [];
      var i := 0;
      assert hashes[0..] == hashes;
      assert [] + RemoveAll(Contents(), hashes).1 == RemoveAll(Contents(), hashes).1;
      while i < |hashes|
        invariant 0 <= i <= |hashes| && Tidy()
        invariant var rest := RemoveAll(Contents(), hashes[i..]);
                  RemoveAll(old(Contents()), hashes) == (rest.0, tracked + rest.1)
      {
        ghost var s := Contents();
        assert hashes[i..][1..] == hashes[i + 1..];
        var was := RemoveOne(hashes[i], false);
        ghost var rest := RemoveAll(Contents(), hashes[i + 1..]);
        assert RemoveAll(s, hashes[i..]) == (rest.0, if was then [hashes[i]] + rest.1 else rest.1);
        assert tracked + ([hashes[i]] + rest.1) == tracked + [hashes[i]] + rest.1;
        if was {
          tracked := tracked + [hashes[i]];
        }
        i := i + 1;
      }
      assert tracked + [] == tracked;
    }

    // ----- The head -----

    method MarkValidated(hash: Hash)
      requires hash in candidates
      modifies this
      ensures Contents() == SetStage(old(Contents()), hash)
    {
      candidates := candidates[hash := candidates[hash].(stage := Validated)];
    }

    /** Makes a stored block the head; the previous head begins to age. */
    method MoveHead(hash: Hash, sequence: nat, now: Time)
      modifies this
      ensures Contents() == NoteFirstSequence(ScheduleExpiry(old(Contents()).(head := hash), old(head), now), hash,
                                              sequence)
      ensures Touched(old(Contents()), Contents()) && head == hash
    {
      MovedHeadTouches(Contents(), head, hash, sequence, now);
      var previous := head;
      head := hash;
      if previous != head {
        if previous in candidates {
          candidates := candidates[previous := candidates[previous].(expiresAt := now + limits.retention)];
        } else if previous in deferred {
          deferred := deferred[previous := deferred[previous].(expiresAt := now + limits.retention)];
        }
      }
      if hash in candidates && candidates[hash].firstSequence == 0 {
        candidates := candidates[hash := candidates[hash].(firstSequence := sequence)];
      }
    }

    /** Forgets all records, queues and tombstones. */
    method ClearRecords()
      modifies this
      ensures candidates == map[] && deferred == map[] && children == map[]
      ensures projectionOrder == [] && metadataOrder == [] && tombstones == {} && tombstoneOrder == [] && terminal == {}
      ensures nextIncarnation == old(nextIncarnation)
    {
      candidates, deferred, children := map[], map[], map[];
      projectionOrder, metadataOrder := [], [];
      tombstones, tombstoneOrder, terminal := {}, [], {};
    }

    /** Starts over from a new anchor. */
    method ResetCandidates(projection: Projection, finalized: Option<Checkpoint>, now: Time)
      modifies this
      ensures Contents() == Reset(old(Contents()), projection, finalized, now)
      ensures forall h :: IsRecord(Contents(), h) <==> h == projection.block.hash
      ensures forall t: Ticket :: t.incarnation < old(nextIncarnation) ==> !LiveMetadata(Contents(), t)
      ensures ValidLimits(limits) ==> Bounded(Contents())
    {
      ClearRecords();
      var h := projection.block.hash;
      head, lastFinalized, sweep := h, finalized, None;
      projectionCount := 1;
      var incarnation := nextIncarnation;
      nextIncarnation := incarnation + 1;
      candidates := candidates[h := Entry(projection.block, Some(projection), Validated, true, 0, incarnation,
                                          now + limits.retention)];
      projectionOrder := projectionOrder + [Ticket(incarnation, h)];
      metadataOrder := metadataOrder + [Ticket(incarnation, h)];
      anchor := incarnation;
    }
  }

  lemma DeferredGains(s: Store, block: BlockMeta, changes: seq<SlotChange>, now: Time)
    requires block.hash !in s.candidates
    ensures var r, h := PutDeferred(s, block, changes, now), block.hash;
            && h in r.deferred && r.deferred[h].changes == changes && s.metadataOrder <= r.metadataOrder
            && (forall x :: x != h ==> Incarnation(r, x) == Incarnation(s, x))
            && (if h in s.deferred then Incarnation(r, h) == Incarnation(s, h)
                else Ticket(r.deferred[h].incarnation, h) in r.metadataOrder
                     && r.deferred[h].incarnation == s.nextIncarnation)
  {
  }

  lemma RemoveTreesStep(s: Store, pending: seq<Hash>, isTerminal: bool)
    requires pending != []
    ensures var h := pending[|pending| - 1];
            var r := TakeOut(s, h, isTerminal);
            && RemoveTrees(s, pending, isTerminal) == RemoveTrees(r, pending[..|pending| - 1] + Kids(s, h), isTerminal)
            && r == S.RemoveOne(s.(children := s.children - {h}), h, isTerminal)
            && |r.children| <= |s.children| && (h in s.children ==> |r.children| < |s.children|)
            && (h in s.children ==> Kids(s, h) == s.children[h])
            && (h !in s.children ==> pending[..|pending| - 1] + Kids(s, h) == pending[..|pending| - 1])
            && (h !in s.children ==> s.children - {h} == s.children)
  {
    hide S.RemoveOne;
  }

  /** Queueing a check looks only at the records and the sweep. */
  lemma QueueIgnores(s: Store, next: nat, children: map<Hash, seq<Hash>>, order: seq<Ticket>, t: Ticket)
    ensures S.QueueFinalityCheck(s.(nextIncarnation := next, children := children, metadataOrder := order), t)
            == S.QueueFinalityCheck(s, t)
  {
    var r := s.(nextIncarnation := next, children := children, metadataOrder := order);
    var queued :=
      if s.sweep.Some? then s.sweep.value.pending + [t] else [t];
    RetainSameRecords(s, r, queued);
  }

  lemma {:induction false} RetainSameRecords(s: Store, r: Store, q: seq<Ticket>)
    requires r.candidates == s.candidates && r.deferred == s.deferred
    ensures RetainMetadata(r, q) == RetainMetadata(s, q)
  {
    if q != [] {
      RetainSameRecords(s, r, q[1..]);
    }
  }

  lemma EnlistKeeps(s: Store, parent: Hash, h: Hash)
    ensures var r := Enlist(s, parent, h);
            r.projectionCount == s.projectionCount && r.projectionOrder == s.projectionOrder
  {
  }

  /** Some ticket may be evicted when one projection too many is held. */
  lemma TrimStarts(c: Chain, s: Store)
    requires Inv(c, s) && s.projectionCount > s.limits.cache >= 1
    ensures FirstProjectionVictim(s, s.projectionOrder) < |s.projectionOrder|
  {
    assert {s.head, s.head} == {s.head};
    VictimBefore(c, s, s.head);
  }

  lemma ScannedFront(q: seq<Ticket>, k: nat, head: Ticket)
    requires k < |q|
    ensures var r := Scanned(q, k, head);
            r != [] && r[0] == q[k] && |r| == |q| - k + if Position(q, head) < k then 1 else 0
  {
  }

  /** What the scan finds at position k, before or at the first victim. */
  lemma TrimAt(c: Chain, s: Store, k: nat)
    requires Inv(c, s) && k <= FirstProjectionVictim(s, s.projectionOrder) < |s.projectionOrder|
    requires s.projectionCount == s.limits.cache + 1
    ensures Distinct(s.projectionOrder)
    ensures var q, i, t := s.projectionOrder, FirstProjectionVictim(s, s.projectionOrder), HeadTicket(s);
            && (LiveProjection(s, q[k]) && q[k].hash == s.head <==> q[k] == t)
            && (k == i <==> ProjectionVictim(s, q[k]))
            && (q[k] == t <==> Position(q, t) == k)
  {
  }

  lemma TrimRecordsStarts(c: Chain, s: Store)
    requires Inv(c, s) && s.limits.metadata >= 1
    ensures MetadataLen(s) > s.limits.metadata ==> FirstMetadataVictim(s, s.metadataOrder) < |s.metadataOrder|
    ensures MetadataLen(s) <= s.limits.metadata ==> TrimMetadata(s) == Trim(s, [], true)
  {
    hide Named, IndexedExcept, ProjectionQueue;
    if MetadataLen(s) > s.limits.metadata {
      assert {s.head, s.head} == {s.head};
      InvQueue(c, s);
      RecordVictimBefore(s, s.head);
    }
  }

  /** One removal brings the records within their limit. */
  lemma TrimRecordsResult(c: Chain, s: Store)
    requires Inv(c, s) && MetadataLen(s) == s.limits.metadata + 1
    requires FirstMetadataVictim(s, s.metadataOrder) < |s.metadataOrder|
    ensures var q, i := s.metadataOrder, FirstMetadataVictim(s, s.metadataOrder);
            TrimMetadata(s) == Trim(S.RemoveOne(s.(metadataOrder := Scanned(q, i, HeadTicket(s))[1..]), q[i].hash,
                                                false),
                                    if Tracked(s, q[i].hash) then [q[i].hash] else [], true)
  {
  }

  lemma TrimRecordsAt(c: Chain, s: Store, k: nat)
    requires Inv(c, s) && k <= FirstMetadataVictim(s, s.metadataOrder) < |s.metadataOrder|
    ensures Distinct(s.metadataOrder)
    ensures var q, i, t := s.metadataOrder, FirstMetadataVictim(s, s.metadataOrder), HeadTicket(s);
            && (Incarnation(s, q[k].hash) == Some(q[k].incarnation) && q[k].hash == s.head <==> q[k] == t)
            && (k == i <==> Incarnation(s, q[k].hash) == Some(q[k].incarnation) && q[k].hash != s.head)
  {
    hide Named, IndexedExcept, Counted, ProjectionQueue;
    assert s.candidates.Keys !! s.deferred.Keys by { InvQueue(c, s); }
  }

  lemma AdvanceBeside(s: Store, sweep: Option<Sweep>, w: Walk, finalized: Checkpoint)
    ensures AdvanceWalk(s.(sweep := sweep), w, finalized) == AdvanceWalk(s, w, finalized)
  {
  }

  lemma NothingMemoised(verdicts: map<Hash, Verdict>, w: Walk)
    ensures Memoised(verdicts, w, Unknown) == verdicts
  {
  }

  lemma RemoveKeepsSweep(s: Store, h: Hash, isTerminal: bool)
    ensures S.RemoveOne(s, h, isTerminal).sweep == s.sweep
  {
  }

  lemma BusyIs(s: Store, taken: Sweep)
    requires s.sweep == Some(taken)
    ensures Busy(s) <==> taken.active.Some? || taken.pending != []
  {
  }

  lemma NoSweep(s: Store, budget: nat)
    requires s.sweep.None?
    ensures ProcessFinality(s, budget) == Slice(s, [], 0)
  {
  }

  lemma SweepStops(s: Store, budget: nat)
    ensures budget == 0 || !Busy(s) ==> SweepUnits(s, budget) == Slice(s, [], 0)
  {
  }

  lemma UnitAccounts(s: Store, budget: nat, retired: seq<Hash>, work: nat)
    requires budget > 0 && Busy(s)
    ensures var all, unit := SweepUnits(s, budget), SweepUnit(s);
            var rest := SweepUnits(unit.store, budget - 1);
            && all.store == rest.store && work + all.work == (work + 1) + rest.work
            && retired + all.retired == (retired + unit.retired) + rest.retired
  {
    hide SweepUnit, Busy;
    var unit := SweepUnit(s);
    var rest := SweepUnits(unit.store, budget - 1);
    assert retired + (unit.retired + rest.retired) == (retired + unit.retired) + rest.retired;
  }

  lemma InvTidy(c: Chain, s: Store)
    requires Inv(c, s)
    ensures Distinct(s.tombstoneOrder) && s.tombstones == Elements(s.tombstoneOrder)
            && |s.tombstones| <= s.limits.metadata
    ensures s.candidates.Keys !! s.deferred.Keys
  {
    InvQueue(c, s);
  }

  lemma RemoveRecordFields(s: Store, h: Hash)
    ensures var r := RemoveRecord(s, h);
            && r.candidates == s.candidates - {h} && r.deferred == s.deferred - {h}
            && r.tombstones == s.tombstones && r.tombstoneOrder == s.tombstoneOrder && r.limits == s.limits
  {
  }

  lemma NothingPending(s: Store, isTerminal: bool)
    ensures RemoveTrees(s, [], isTerminal) == s
  {
  }

  lemma RemoveKeepsHead(s: Store, h: Hash, isTerminal: bool)
    ensures S.RemoveOne(s, h, isTerminal).head == s.head
  {
  }

  lemma {:induction false} RetainSame(s: Store, r: Store, q: seq<Ticket>)
    requires r.candidates == s.candidates
    ensures RetainProjection(r, q) == RetainProjection(s, q)
  {
    if q != [] {
      RetainSame(s, r, q[1..]);
    }
  }

  /** Hashes other than the head whose time has come: each once, and all of them unless the budget is spent. */
  ghost predicate Overdue(times: map<Hash, Time>, head: Hash, due: seq<Hash>, now: Time, budget: nat) {
    && |due| <= budget && Distinct(due) && (forall h :: h in due ==> h in times && h != head && times[h] <= now)
    && (|due| < budget ==> forall h :: h in times && h != head && times[h] <= now ==> h in due)
  }

  lemma EarlyAndLate(s: Store, early: seq<Hash>, late: seq<Hash>, now: Time, budget: nat)
    requires s.candidates.Keys !! s.deferred.Keys && |early| <= budget
    requires Overdue(map h | h in s.candidates :: s.candidates[h].expiresAt, s.head, early, now, budget)
    requires Overdue(map h | h in s.deferred :: s.deferred[h].expiresAt, s.head, late, now, budget - |early|)
    ensures Due(s, early + late, now, budget)
  {
    var due := early + late;
    forall i | 0 <= i < |due|
      ensures Expired(s, due[i], now)
    {
      assert due[i] in early || due[i] in late;
    }
    forall i, j | 0 <= i < j < |due|
      ensures due[i] != due[j]
    {
      assert i < |early| <= j ==> due[i] in early && due[j] in late;
    }
    forall i, h | 0 <= i < |due| && h in s.candidates.Keys && due[i] !in s.candidates && Expired(s, h, now)
      ensures h in due
    {
      assert i < |early| ==> early[i] == due[i] && due[i] in early;
    }
  }
}
