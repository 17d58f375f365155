/** A setting for concrete runs: a block tree in which nothing is watched, and frames that always encode. */
module PlainRuns {
  import opened Types
  import opened Chain
  import opened Projections
  import opened Store
  import opened StoreInvariants
  import opened Finality
  import opened Wire
  import opened Publisher
  import opened PublisherInvariants
  import opened Shown

  // ----- The setting -----

  /** A small tree, in which block 1 has the children 2 to 5 and blocks 6 and 7 follow on 2, and from block 8
      on a line. */
  function Header(h: Hash): BlockMeta {
    if h <= 1 then BlockMeta(1, h, 0, 0)
    else if h <= 5 then BlockMeta(2, h, 1, 0)
    else if h == 6 then BlockMeta(3, h, 2, 0)
    else if h == 7 then BlockMeta(4, h, 6, 0)
    else BlockMeta(h, h, h - 1, 0)
  }

  /** Nothing is watched, and every frame encodes. */
  function Plain(): Env {
    Env(Chain(Header, (g, h) => [], (g, h) => [], g => 0), n => true, 1)
  }

  function Proj(h: Hash): Projection { Projection(Header(h), 0, [], []) }

  /** A publisher that starts at a block with nothing finalized. */
  function First(h: Hash, limits: Limits): State {
    Start(Plain(), limits, 0, Loaded(h, View(Checkpoint(Header(h).number, h), None, None), 0), 0)
  }

  function Executes(h: Hash): Command { OnExecuted(1, 0, Header(h), []) }

  function Next(p: State, cmd: Command): State { Step(Plain(), p, cmd, 0) }

  /** The state a list of commands leads to. */
  function After(p: State, cmds: seq<Command>): State { Run(Plain(), p, Turns(cmds)) }

  function Turns(cmds: seq<Command>): seq<Turn> { seq(|cmds|, i requires 0 <= i < |cmds| => Turn(cmds[i], 0)) }

  lemma AfterNone(p: State)
    ensures After(p, []) == p
  {
  }

  lemma {:induction false} AfterMore(p: State, cmds: seq<Command>, cmd: Command)
    ensures After(p, cmds + [cmd]) == Next(After(p, cmds), cmd)
    decreases |cmds|
  {
    hide Step;
    var more := cmds + [cmd];
    assert Turns(more)[1..] == Turns(more[1..]);
    if cmds == [] {
      AfterNone(p);
      AfterNone(Next(p, cmd));
      assert more[1..] == cmds && more[0] == cmd;
    } else {
      assert more[1..] == cmds[1..] + [cmd];
      assert Turns(cmds)[1..] == Turns(cmds[1..]);
      AfterMore(Next(p, cmds[0]), cmds[1..], cmd);
    }
  }

  lemma {:induction false} AfterValid(p: State, cmds: seq<Command>)
    requires Valid(Plain(), p) && forall i :: 0 <= i < |cmds| ==> CommandTrue(Plain(), cmds[i])
    ensures Valid(Plain(), After(p, cmds))
  {
    hide Valid, CommandTrue;
    RunKeeps(Plain(), p, Turns(cmds));
  }

  lemma FirstValid(h: Hash, limits: Limits)
    requires ValidLimits(limits)
    ensures Valid(Plain(), First(h, limits))
  {
    StartValid(Plain(), limits, 0, Loaded(h, View(Checkpoint(Header(h).number, h), None, None), 0), 0);
  }

  // ----- An execution event -----

  /** A store that sweeps nothing and defers nothing, with these records. */
  ghost predicate Simple(s: Store, known: set<Hash>) {
    Quiet(s) && s.candidates.Keys == known && |known| < s.limits.metadata
  }

  /** A healthy publisher of the first generation, anchored at time 0. */
  predicate Calm(p: State) { !p.broken && p.anchoredAt == 0 && Active(p) == 0 }

  predicate Stored(s: Store, h: Hash) {
    && h in s.candidates && s.candidates[h].block == Header(h)
    && (s.candidates[h].projection.Some? ==> s.candidates[h].projection.value == Proj(h))
  }

  function Put(p: State, h: Hash): Store { PutProjection(p.store, Proj(h), Executed, |p.shared.calls| + 1, 0) }

  lemma {:induction false} RetiredSent(batch: nat, sh: Shared, g: Generation, hashes: seq<Hash>, reason: Reason)
    ensures PublishRetired(Plain().encodes, batch, sh, g, hashes, reason).ok
    decreases |hashes|
  {
    if hashes != [] {
      var n := if batch == 0 then 1 else if batch < |hashes| then batch else |hashes|;
      var sent := Publish(Plain().encodes, sh, g, CandidatesRetired(hashes[..n], reason), None);
      RetiredSent(batch, sent.shared, g, hashes[n..], reason);
    }
  }

  lemma NoneRetired(sh: Shared)
    ensures PublishRetired(Plain().encodes, 1, sh, 0, [], CacheEvicted) == Sent(sh, true)
  {
  }

  lemma InsertPlainly(p: State, h: Hash, stage: Stage, n: nat)
    requires var trim := TrimProjections(PutProjection(p.store, Proj(h), stage, n, 0));
             MetadataLen(trim.store) <= trim.store.limits.metadata
    ensures var trim := TrimProjections(PutProjection(p.store, Proj(h), stage, n, 0));
            var o := InsertCandidate(Plain(), p, Proj(h), stage, n, 0);
            o.ok == trim.ok && o.state.store == trim.store && SameShown(p, o.state)
  {
    hide PutProjection, TrimProjections, PublishRetired;
    var trim := TrimProjections(PutProjection(p.store, Proj(h), stage, n, 0));
    RetiredSent(1, p.shared, 0, trim.retired, CacheEvicted);
    NoneRetired(PublishRetired(Plain().encodes, 1, p.shared, 0, trim.retired, CacheEvicted).shared);
    InsertShown(Plain(), p, Proj(h), stage, n, 0);
  }

  /** A block whose parent's projection is held is published, filed and trimmed for. */
  lemma ExecutedStep(p: State, known: set<Hash>, h: Hash)
    requires Calm(p) && Simple(p.store, known) && (forall x :: x in known ==> Stored(p.store, x)) && !Held(p.store, h)
             && h !in p.store.tombstones && Held(p.store, Header(h).parent)
    requires Header(h).number == Header(Header(h).parent).number + 1
    requires MetadataLen(TrimProjections(Put(p, h)).store) <= TrimProjections(Put(p, h)).store.limits.metadata
    ensures var r, trim := Next(p, Executes(h)), TrimProjections(Put(p, h));
            r.broken == !trim.ok && r.store == trim.store && SameShown(p, r)
  {
    hide PutProjection, TrimProjections, InsertCandidate;
    assert Stored(p.store, Header(h).parent);
    var sent := Send(Plain(), p, 0, BlockState(Proj(h), Executed), None);
    InsertPlainly(sent.state, h, Executed, |sent.state.shared.calls|);
    assert ApplyDelta([], []) == Delta([], []);
    assert h in p.store.candidates ==> Stored(p.store, h);
  }

  predicate Quiet(s: Store) { s.deferred == map[] && s.sweep.None? && s.lastFinalized.None? }

  lemma PutFields(p: State, h: Hash)
    requires h !in p.store.candidates && Quiet(p.store)
    ensures var s, r := p.store, Put(p, h);
            && r.candidates.Keys == s.candidates.Keys + {h} && Quiet(r) && r.limits == s.limits && r.head == s.head
            && r.tombstones == s.tombstones && r.tombstoneOrder == s.tombstoneOrder && r.anchor == s.anchor
            && r.projectionOrder == s.projectionOrder + [Ticket(s.nextIncarnation, h)]
            && r.metadataOrder == s.metadataOrder + [Ticket(s.nextIncarnation, h)]
            && r.projectionCount == s.projectionCount + 1 && r.nextIncarnation == s.nextIncarnation + 1
            && r.children.Keys == s.children.Keys + {Header(h).parent}
  {
  }

  lemma PutEntry(p: State, h: Hash, x: Hash)
    requires h !in p.store.candidates && Quiet(p.store)
    ensures var s, r := p.store, Put(p, h);
            && (x in s.candidates ==> x in r.candidates && r.candidates[x] == s.candidates[x])
            && h in r.candidates && r.candidates[h].block == Header(h) && r.candidates[h].projection == Some(Proj(h))
            && r.candidates[h].stage == Executed && r.candidates[h].incarnation == s.nextIncarnation
  {
  }

  // ----- A forkchoice event -----

  function Leads(h: Hash, finalized: Option<Checkpoint>): Command {
    OnForkchoice(1, 0, AppliedView(h, None, finalized), false)
  }

  /** The store once the head has moved to a block it holds. */
  function Led(s: Store, h: Hash, n: nat): Store {
    NoteFirstSequence(ScheduleExpiry(PutProjection(s, Proj(h), Validated, 0, 0).(head := h), s.head, 0), h, n)
  }

  lemma PutHead(s: Store, h: Hash)
    requires Held(s, h) && Stored(s, h) && s.deferred == map[]
    ensures var r := PutProjection(s, Proj(h), Validated, 0, 0);
            && r == s.(candidates := r.candidates) && r.candidates.Keys == s.candidates.Keys
            && Stored(r, h) && Held(r, h) && r.candidates[h].incarnation == s.candidates[h].incarnation
            && forall x :: x in s.candidates && x != h ==> r.candidates[x] == s.candidates[x]
  {
    assert PutProjection(s, Proj(h), Validated, 0, 0).candidates.Keys == s.candidates.Keys;
  }

  lemma AgedFields(s: Store, previous: Hash, h: Hash, n: nat)
    requires h in s.candidates && s.deferred == map[]
    ensures var r := NoteFirstSequence(ScheduleExpiry(s, previous, 0), h, n);
            && r == s.(candidates := r.candidates) && r.candidates.Keys == s.candidates.Keys
            && r.candidates[h] == s.candidates[h].(expiresAt := r.candidates[h].expiresAt,
                                                   firstSequence := r.candidates[h].firstSequence)
            && forall x :: x in s.candidates && x != h ==>
                 r.candidates[x] == s.candidates[x].(expiresAt := r.candidates[x].expiresAt)
  {
    assert NoteFirstSequence(ScheduleExpiry(s, previous, 0), h, n).candidates.Keys == s.candidates.Keys;
  }

  lemma LedFields(s: Store, h: Hash, n: nat)
    requires Held(s, h) && Stored(s, h) && s.deferred == map[]
    ensures var r := Led(s, h, n);
            && r == s.(candidates := r.candidates, head := h) && r.candidates.Keys == s.candidates.Keys
            && Stored(r, h) && Held(r, h) && r.candidates[h].incarnation == s.candidates[h].incarnation
            && forall x :: x in s.candidates && x != h ==>
                 r.candidates[x] == s.candidates[x].(expiresAt := r.candidates[x].expiresAt)
  {
    hide PutProjection, ScheduleExpiry, NoteFirstSequence, Header;
    PutHead(s, h);
    AgedFields(PutProjection(s, Proj(h), Validated, 0, 0).(head := h), s.head, h, n);
  }

  predicate WithinLimits(s: Store) { s.projectionCount <= s.limits.cache && MetadataLen(s) <= s.limits.metadata }

  /** A canonical block that is held moves the head. */
  lemma HeadMoves(p: State, h: Hash)
    requires Calm(p) && p.shared.published.canonical == Proj(p.store.head) && h != p.store.head
    requires Held(p.store, h) && Stored(p.store, h) && p.store.deferred == map[] && WithinLimits(p.store)
    ensures var o := Canonical(Plain(), p, 0, 1, h, false, 0);
            && o.ok && o.state.shared.published.canonical == Proj(h) && o.state.anchoredAt == 0
            && o.state.broken == p.broken && o.state.store == Led(p.store, h, |o.state.shared.calls|)
  {
    hide InsertCandidate, NoteFirstSequence, ScheduleExpiry, PutProjection;
    var put := PutProjection(p.store, Proj(h), Validated, 0, 0);
    PutHead(p.store, h);
    assert MetadataLen(put) == MetadataLen(p.store)
    by { assert |put.candidates.Keys| == |put.candidates| && |p.store.candidates.Keys| == |p.store.candidates|; }
    assert TrimProjections(put) == Trim(put, [], true);
    InsertPlainly(p, h, Validated, 0);
    CanonicalNotBroken(Plain(), p, 0, 1, h, false, 0);
  }

  /** What finality does to the store when a view is applied. */
  function Noted(s: Store, finalized: Option<Checkpoint>): Store {
    if finalized.None? || finalized == s.lastFinalized then s
    else ProcessFinality(BeginSweep(s, finalized.value), s.limits.budget).store
  }

  lemma ViewApplies(p: State, h: Hash, finalized: Option<Checkpoint>)
    requires Calm(p) && p.shared.published.canonical == Proj(h)
    requires finalized.Some? ==> finalized.value.number <= Header(h).number
    ensures var o := ForkchoiceAppliedTo(Plain(), p, AppliedView(h, None, finalized));
            && o.ok && Calm(o.state) && o.state.shared.published.canonical == Proj(h)
            && o.state.store == Noted(p.store, finalized)
  {
    hide ProcessFinality, PublishRetired, BeginSweep;
    if finalized.Some? && finalized != p.store.lastFinalized {
      var slice := ProcessFinality(BeginSweep(p.store, finalized.value), p.store.limits.budget);
      var view := Resolve(AppliedView(h, None, finalized), Header(h).number);
      var sent := Send(Plain(), p, 0, ForkchoiceApplied(view), Some(NextState(Proj(h), Some(view), false)));
      RetiredSent(1, sent.state.shared, 0, slice.retired, FinalizedConflict);
      RetiredShown(Plain().encodes, 1, sent.state.shared, 0, slice.retired, FinalizedConflict);
    }
  }

  lemma LeadStep(p: State, h: Hash, finalized: Option<Checkpoint>) returns (n: nat)
    requires Calm(p) && p.shared.published.canonical == Proj(p.store.head)
    requires finalized.Some? ==> finalized.value.number <= Header(h).number
    requires h != p.store.head ==>
               Held(p.store, h) && Stored(p.store, h) && p.store.deferred == map[] && WithinLimits(p.store)
    ensures var r := Next(p, Leads(h, finalized));
            && Calm(r) && r.shared.published.canonical == Proj(h)
            && r.store == Noted(if h == p.store.head then p.store else Led(p.store, h, n), finalized)
  {
    hide Canonical, ForkchoiceAppliedTo, Noted, Led;
    if h == p.store.head {
      n := 0;
      ViewApplies(p, h, finalized);
    } else {
      HeadMoves(p, h);
      var moved := Canonical(Plain(), p, 0, 1, h, false, 0).state;
      n := |moved.shared.calls|;
      ViewApplies(moved, h, finalized);
    }
  }

  // ----- A tick -----

  /** A tick at which nothing is due gives the sweep one slice. */
  lemma TickStep(p: State)
    requires Calm(p)
    ensures var r := Next(p, OnTick([]));
            && Calm(r) && SameShown(p, r) && r.store == ProcessFinality(p.store, p.store.limits.budget).store
  {
    hide ProcessFinality, PublishRetired;
    var slice := ProcessFinality(p.store, p.store.limits.budget);
    RetiredSent(1, p.shared, 0, slice.retired, FinalizedConflict);
    RetiredShown(Plain().encodes, 1, p.shared, 0, slice.retired, FinalizedConflict);
    var sent := PublishRetired(Plain().encodes, 1, p.shared, 0, slice.retired, FinalizedConflict).shared;
    NothingExpires(sent, slice.store);
  }

  lemma NothingExpires(sh: Shared, s: Store)
    ensures RemoveAll(s, []) == (s, [])
    ensures PublishRetired(Plain().encodes, 1, sh, 0, [], RetentionExpired) == Sent(sh, true)
  {
  }
}
