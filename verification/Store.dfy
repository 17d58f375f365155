/** The bounded candidate store: its data, and what each of its operations makes of it. */
module Store {
  import opened Types
  import opened Sequences
  import opened Projections

  datatype Stage = Executed | Validated

  /** A record published to consumers; its projection may have been evicted since. */
  datatype Entry = Entry(
    block: BlockMeta,
    projection: Option<Projection>,
    stage: Stage,
    tracked: bool,
    firstSequence: nat,
    incarnation: nat,
    expiresAt: Time)

  /** A record that waits for validation because its parent's values were not at hand. */
  datatype Deferred = Deferred(block: BlockMeta, changes: seq<SlotChange>, incarnation: nat, expiresAt: Time)

  /** A queue entry. It goes stale, in place, when its record is removed or replaced. */
  datatype Ticket = Ticket(incarnation: nat, hash: Hash)

  datatype Verdict = Compatible | Conflict | Unknown

  datatype Walk = Walk(incarnation: nat, root: Hash, current: Hash, path: seq<Hash>)

  datatype Sweep = Sweep(
    checkpoint: Checkpoint,
    pending: seq<Ticket>,
    verdicts: map<Hash, Verdict>,
    active: Option<Walk>)

  datatype Limits = Limits(cache: nat, metadata: nat, retention: nat, budget: nat)

  /** `anchor` and `terminal` are history that no operation reads: the incarnation of the record
      installed by the last reset, and every hash tombstoned since then. */
  datatype Store = Store(
    candidates: map<Hash, Entry>,
    deferred: map<Hash, Deferred>,
    children: map<Hash, seq<Hash>>,
    projectionOrder: seq<Ticket>,
    metadataOrder: seq<Ticket>,
    tombstones: set<Hash>,
    tombstoneOrder: seq<Hash>,
    nextIncarnation: nat,
    projectionCount: nat,
    limits: Limits,
    head: Hash,
    lastFinalized: Option<Checkpoint>,
    sweep: Option<Sweep>,
    anchor: nat,
    terminal: set<Hash>)

  // ----- Lookups -----

  function Incarnation(s: Store, h: Hash): Option<nat> {
    if h in s.candidates then Some(s.candidates[h].incarnation)
    else if h in s.deferred then Some(s.deferred[h].incarnation)
    else None
  }

  function Meta(s: Store, h: Hash): Option<BlockMeta> {
    if h in s.candidates then Some(s.candidates[h].block)
    else if h in s.deferred then Some(s.deferred[h].block)
    else None
  }

  function MetadataLen(s: Store): nat { |s.candidates| + |s.deferred| }

  predicate Held(s: Store, h: Hash) { h in s.candidates && s.candidates[h].projection.Some? }

  predicate Tracked(s: Store, h: Hash) { h in s.candidates && s.candidates[h].tracked }

  predicate IsRecord(s: Store, h: Hash) { h in s.candidates || h in s.deferred }

  predicate LiveMetadata(s: Store, t: Ticket) { Incarnation(s, t.hash) == Some(t.incarnation) }

  predicate LiveProjection(s: Store, t: Ticket) {
    Held(s, t.hash) && s.candidates[t.hash].incarnation == t.incarnation
  }

  // ----- Removal -----

  function Unlink(children: map<Hash, seq<Hash>>, parent: Hash, child: Hash): map<Hash, seq<Hash>> {
    if parent !in children then children
    else
      var rest := Without(children[parent], child);
      if rest == [] then children - {parent} else children[parent := rest]
  }

  function RemoveRecord(s: Store, h: Hash): Store {
    s.(candidates := s.candidates - {h},
       deferred := s.deferred - {h},
       children := if IsRecord(s, h) then Unlink(s.children, Meta(s, h).value.parent, h) else s.children,
       projectionCount := if Held(s, h) && s.projectionCount > 0 then s.projectionCount - 1 else s.projectionCount)
  }

  function TombstoneQueue(s: Store, h: Hash): seq<Hash> {
    if h in s.tombstones then s.tombstoneOrder else s.tombstoneOrder + [h]
  }

  predicate TombstonesFull(s: Store, h: Hash) {
    |s.tombstones + {h}| > s.limits.metadata && TombstoneQueue(s, h) != []
  }

  function AddTombstone(s: Store, h: Hash): Store {
    var order := TombstoneQueue(s, h);
    s.(tombstones := if TombstonesFull(s, h) then s.tombstones + {h} - {order[0]} else s.tombstones + {h},
       tombstoneOrder := if TombstonesFull(s, h) then order[1..] else order,
       terminal := s.terminal + {h})
  }

  function RetainMetadata(s: Store, q: seq<Ticket>): (r: seq<Ticket>)
    ensures forall t :: t in r <==> t in q && LiveMetadata(s, t)
  {
    if q == [] then []
    else if LiveMetadata(s, q[0]) then [q[0]] + RetainMetadata(s, q[1..])
    else RetainMetadata(s, q[1..])
  }

  function RetainProjection(s: Store, q: seq<Ticket>): (r: seq<Ticket>)
    ensures forall t :: t in r <==> t in q && LiveProjection(s, t)
  {
    if q == [] then []
    else if LiveProjection(s, q[0]) then [q[0]] + RetainProjection(s, q[1..])
    else RetainProjection(s, q[1..])
  }

  /** Drops stale tickets from a queue that has grown past twice its limit. */
  function Compact(s: Store): Store {
    s.(metadataOrder := if |s.metadataOrder| > 2 * s.limits.metadata
                        then RetainMetadata(s, s.metadataOrder) else s.metadataOrder,
       projectionOrder := if |s.projectionOrder| > 2 * s.limits.cache
                          then RetainProjection(s, s.projectionOrder) else s.projectionOrder)
  }

  function RemoveOne(s: Store, h: Hash, terminal: bool): Store {
    var removed := RemoveRecord(s, h);
    Compact(if terminal then AddTombstone(removed, h) else removed)
  }

  function Kids(s: Store, h: Hash): seq<Hash> {
    if h in s.children then s.children[h] else []
  }

  /** Takes a record's children off the index and removes the record. */
  function TakeOut(s: Store, h: Hash, terminal: bool): (r: Store)
    ensures |r.children| <= |s.children|
    ensures h in s.children ==> |r.children| < |s.children|
  {
    var r := RemoveOne(s.(children := s.children - {h}), h, terminal);
    FewerKeys(r.children, s.children - {h});
    r
  }

  /** Removes what is pending, and every listed descendant of it. */
  function RemoveTrees(s: Store, pending: seq<Hash>, terminal: bool): Store
    decreases |s.children|, |pending|
  {
    if pending == [] then s
    else
      var h := pending[|pending| - 1];
      var rest := pending[..|pending| - 1];
      RemoveTrees(TakeOut(s, h, terminal), rest + Kids(s, h), terminal)
  }

  lemma FewerKeys<V>(a: map<Hash, V>, b: map<Hash, V>)
    requires a.Keys <= b.Keys
    ensures |a| <= |b|
  {
    assert b.Keys == a.Keys + (b.Keys - a.Keys);
  }

  function RemoveCandidateTree(s: Store, root: Hash, terminal: bool): Store {
    if root == s.head then s else RemoveTrees(s, [root], terminal)
  }

  /** Removes each hash in turn; the second component lists those that were tracked. */
  function RemoveAll(s: Store, hashes: seq<Hash>): (Store, seq<Hash>)
    decreases |hashes|
  {
    if hashes == [] then (s, [])
    else
      var (after, rest) := RemoveAll(RemoveOne(s, hashes[0], false), hashes[1..]);
      (after, if Tracked(s, hashes[0]) then [hashes[0]] + rest else rest)
  }

  // ----- Insertion -----

  function AddChild(children: map<Hash, seq<Hash>>, parent: Hash, child: Hash): map<Hash, seq<Hash>> {
    var kids := if parent in children then children[parent] else [];
    children[parent := if child in kids then kids else kids + [child]]
  }

  /** The sweep after a new record was queued for it, in a store that already has the record. */
  function QueueFinalityCheck(s: Store, t: Ticket): Option<Sweep> {
    var queued :=
      if s.sweep.Some? then Some(s.sweep.value.(pending := s.sweep.value.pending + [t]))
      else if s.lastFinalized.Some? then Some(Sweep(s.lastFinalized.value, [t], map[], None))
      else None;
    if queued.Some? && |queued.value.pending| > 2 * s.limits.metadata
    then Some(queued.value.(pending := RetainMetadata(s, queued.value.pending)))
    else queued
  }

  /** A new record at the end of the metadata queue, under a new incarnation. */
  function Enlist(s: Store, parent: Hash, h: Hash): Store {
    var t := Ticket(s.nextIncarnation, h);
    s.(nextIncarnation := s.nextIncarnation + 1,
       children := AddChild(s.children, parent, h),
       metadataOrder := s.metadataOrder + [t],
       sweep := QueueFinalityCheck(s, t))
  }

  /** The entry a projection is filed in: a known record keeps its incarnation, and a tracked one
      the sequence it was first published at. */
  function NewEntry(s: Store, p: Projection, stage: Stage, firstSequence: nat, now: Time): Entry {
    var h := p.block.hash;
    Entry(p.block, Some(p), stage, true,
          if Tracked(s, h) then s.candidates[h].firstSequence else firstSequence,
          if IsRecord(s, h) then Incarnation(s, h).value else s.nextIncarnation,
          now + s.limits.retention)
  }

  /** Gives a record its projection, without enforcing any limit. */
  function PutProjection(s: Store, p: Projection, stage: Stage, firstSequence: nat, now: Time): Store {
    var h := p.block.hash;
    var entry := NewEntry(s, p, stage, firstSequence, now);
    var filed := s.(deferred := s.deferred - {h}, candidates := s.candidates[h := entry]);
    var listed := if IsRecord(s, h) then filed else Enlist(filed, p.block.parent, h);
    listed.(projectionCount := if Held(s, h) then s.projectionCount else s.projectionCount + 1,
            projectionOrder := if Held(s, h) then s.projectionOrder
                               else s.projectionOrder + [Ticket(entry.incarnation, h)])
  }

  function PutDeferred(s: Store, block: BlockMeta, changes: seq<SlotChange>, now: Time): Store {
    var h := block.hash;
    var i := if h in s.deferred then s.deferred[h].incarnation else s.nextIncarnation;
    var filed := s.(deferred := s.deferred[h := Deferred(block, changes, i, now + s.limits.retention)]);
    if h in s.deferred then filed else Enlist(filed, block.parent, h)
  }

  // ----- Limits -----

  datatype Trim = Trim(store: Store, retired: seq<Hash>, ok: bool)

  predicate ProjectionVictim(s: Store, t: Ticket) { LiveProjection(s, t) && t.hash != s.head }

  predicate MetadataVictim(s: Store, t: Ticket) { LiveMetadata(s, t) && t.hash != s.head }

  /** Position of the first ticket the cache may evict; the queue's length when there is none. */
  function FirstProjectionVictim(s: Store, q: seq<Ticket>): (i: nat)
    ensures i <= |q|
    ensures forall k :: 0 <= k < i ==> !ProjectionVictim(s, q[k])
    ensures i < |q| ==> ProjectionVictim(s, q[i])
  {
    if q == [] || ProjectionVictim(s, q[0]) then 0 else 1 + FirstProjectionVictim(s, q[1..])
  }

  function FirstMetadataVictim(s: Store, q: seq<Ticket>): (i: nat)
    ensures i <= |q|
    ensures forall k :: 0 <= k < i ==> !MetadataVictim(s, q[k])
    ensures i < |q| ==> MetadataVictim(s, q[i])
  {
    if q == [] || MetadataVictim(s, q[0]) then 0 else 1 + FirstMetadataVictim(s, q[1..])
  }

  function Position(q: seq<Ticket>, t: Ticket): (i: nat)
    ensures i <= |q|
    ensures forall k :: 0 <= k < i ==> q[k] != t
    ensures i < |q| ==> q[i] == t
  {
    if q == [] || q[0] == t then 0 else 1 + Position(q[1..], t)
  }

  /** The head's live ticket; a ticket no queue holds when the head has no record. */
  function HeadTicket(s: Store): Ticket {
    Ticket(if IsRecord(s, s.head) then Incarnation(s, s.head).value else s.nextIncarnation, s.head)
  }

  /** The queue after `k` tickets were used up, with the head's own ticket moved to the back. */
  function Scanned(q: seq<Ticket>, k: nat, head: Ticket): (r: seq<Ticket>)
    requires k <= |q|
    ensures k < |q| ==> r != [] && r[0] == q[k]
  {
    q[k..] + if Position(q, head) < k then [head] else []
  }

  function DropProjection(s: Store, h: Hash): Store
    requires h in s.candidates && s.projectionCount > 0
  {
    s.(candidates := s.candidates[h := s.candidates[h].(projection := None, tracked := false)],
       projectionCount := s.projectionCount - 1)
  }

  function EvictProjection(s: Store, i: nat): Store
    requires i < |s.projectionOrder| && s.projectionOrder[i].hash in s.candidates && s.projectionCount > 0
  {
    DropProjection(s, s.projectionOrder[i].hash).(projectionOrder := Scanned(s.projectionOrder, i, HeadTicket(s))[1..])
  }

  /** Evicts the oldest held projection that is not the head's, when one projection too many is
      held. Tickets in front of it are used up; the head's own ticket goes to the back. The scan
      fails when it has looked at more tickets than the queue still holds, be it at the head's
      ticket or after the eviction. */
  function TrimProjections(s: Store): Trim {
    var q := s.projectionOrder;
    var i := FirstProjectionVictim(s, q);
    var j := Position(q, HeadTicket(s));
    if s.projectionCount <= s.limits.cache then Trim(s, [], true)
    else if i == |q| then Trim(s, [], false)
    else if j < i && 2 * j > |q| then Trim(s.(projectionOrder := Scanned(q, j + 1, HeadTicket(s))), [], false)
    else
      var r := EvictProjection(s, i);
      Trim(r, if Tracked(s, q[i].hash) then [q[i].hash] else [], i <= |r.projectionOrder|)
  }

  function EvictRecord(s: Store, i: nat): Store
    requires i < |s.metadataOrder|
  {
    RemoveOne(s.(metadataOrder := Scanned(s.metadataOrder, i, HeadTicket(s))[1..]), s.metadataOrder[i].hash, false)
  }

  /** Removes the oldest record that is not the head, when one record too many is kept. */
  function TrimMetadata(s: Store): Trim {
    var q := s.metadataOrder;
    var i := FirstMetadataVictim(s, q);
    if MetadataLen(s) <= s.limits.metadata then Trim(s, [], true)
    else if i == |q| then Trim(s, [], false)
    else Trim(EvictRecord(s, i), if Tracked(s, q[i].hash) then [q[i].hash] else [], true)
  }

  // ----- Anchoring -----

  /** A store that holds one record: the canonical head it is anchored at. */
  function Anchored(limits: Limits, p: Projection, finalized: Option<Checkpoint>, incarnation: nat, now: Time): Store {
    var h := p.block.hash;
    Store(map[h := Entry(p.block, Some(p), Validated, true, 0, incarnation, now + limits.retention)],
          map[], map[], [Ticket(incarnation, h)], [Ticket(incarnation, h)], {}, [],
          incarnation + 1, 1, limits, h, finalized, None, incarnation, {})
  }

  function Reset(s: Store, p: Projection, finalized: Option<Checkpoint>, now: Time): Store {
    Anchored(s.limits, p, finalized, s.nextIncarnation, now)
  }
}
