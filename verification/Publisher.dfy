/** The publisher: what each engine event, timer tick and recovery attempt makes of its state. */
module Publisher {
  import opened Types
  import opened Chain
  import opened Projections
  import opened Store
  import opened Finality
  import opened Wire

  /** What the publisher cannot choose: the chain, which frames encode, and the batch size. */
  datatype Env = Env(chain: Chain, encodes: nat -> bool, batch: nat)

  /** `broken` is set from an error until a recovery succeeds; nothing else happens in between. */
  datatype State = State(store: Store, shared: Shared, anchoredAt: Time, broken: bool)

  datatype Outcome = Outcome(state: State, ok: bool)

  function Done(p: State): Outcome { Outcome(p, true) }

  function Fail(p: State): Outcome { Outcome(p, false) }

  function Active(p: State): Generation { p.shared.published.canonical.generation }

  /** The provider's projection at a block. */
  function LoadAt(env: Env, g: Generation, h: Hash): Projection {
    Projection(env.chain.meta(h), g, Truth(env.chain, g, h), [])
  }

  function Send(env: Env, p: State, g: Generation, event: Event, next: Option<NextState>): Outcome {
    var sent := Publish(env.encodes, p.shared, g, event, next);
    Outcome(p.(shared := sent.shared), sent.ok)
  }

  function SendRetired(env: Env, p: State, g: Generation, hashes: seq<Hash>, reason: Reason): Outcome {
    var sent := PublishRetired(env.encodes, env.batch, p.shared, g, hashes, reason);
    Outcome(p.(shared := sent.shared), sent.ok)
  }

  // ----- Insertion -----

  /** Takes a trimmed store and announces what it retired. */
  function Enforce(env: Env, p: State, g: Generation, trim: Trim): Outcome {
    if trim.ok then SendRetired(env, p.(store := trim.store), g, trim.retired, CacheEvicted)
    else Fail(p.(store := trim.store))
  }

  function InsertCandidate(env: Env, p: State, projection: Projection, stage: Stage, firstSequence: nat,
                           now: Time): Outcome {
    var put := PutProjection(p.store, projection, stage, firstSequence, now);
    var cached := Enforce(env, p.(store := put), projection.generation, TrimProjections(put));
    if cached.ok
    then Enforce(env, cached.state, projection.generation, TrimMetadata(cached.state.store))
    else cached
  }

  function InsertDeferred(env: Env, p: State, block: BlockMeta, changes: seq<SlotChange>, now: Time): Outcome {
    if block.hash in p.store.tombstones || block.hash in p.store.candidates then Done(p)
    else
      var put := PutDeferred(p.store, block, changes, now);
      Enforce(env, p.(store := put), Active(p), TrimMetadata(put))
  }

  // ----- Candidates -----

  /** The values a block is projected from. */
  datatype Base = Values(values: seq<Word>) | Defer | Skip | Mismatch

  function ParentValues(env: Env, p: State, g: Generation, block: BlockMeta, stage: Stage, loads: bool): Base {
    if Held(p.store, block.parent) then
      var parent := p.store.candidates[block.parent].projection.value;
      if block.number == parent.block.number + 1 && parent.generation == g && |parent.values| == env.chain.keys(g)
      then Values(parent.values) else Mismatch
    else if stage == Executed then Defer
    else if !loads then Skip
    else
      var parent := LoadAt(env, g, block.parent);
      if parent.block.hash == block.parent && parent.block.number + 1 == block.number
         && |parent.values| == env.chain.keys(g)
      then Values(parent.values) else Mismatch
  }

  function PublishCandidate(env: Env, p: State, g: Generation, block: BlockMeta, values: seq<Word>,
                            changes: seq<SlotChange>, stage: Stage, now: Time): Outcome {
    match ApplyDelta(values, changes)
    case BadKey => Fail(p)
    case Delta(after, bitmap) =>
      var projection := Projection(block, g, after, bitmap);
      var sent := Send(env, p, g, BlockState(projection, stage), None);
      if sent.ok then InsertCandidate(env, sent.state, projection, stage, |sent.state.shared.calls|, now) else sent
  }

  function SetStage(s: Store, h: Hash): Store
    requires h in s.candidates
  {
    s.(candidates := s.candidates[h := s.candidates[h].(stage := Validated)])
  }

  /** Promotes a candidate that is known and executed. */
  function PromoteKnown(env: Env, p: State, g: Generation, h: Hash): Outcome
    requires h in p.store.candidates
  {
    var promoted := p.(store := SetStage(p.store, h));
    if !Held(p.store, h) then Done(promoted)
    else if p.store.candidates[h].projection.value.generation != g then Done(p)
    else
      var sent := Send(env, p, g, BlockValidated(h), None);
      if sent.ok then Done(promoted.(shared := sent.state.shared)) else sent
  }

  function ProjectCandidate(env: Env, p: State, g: Generation, block: BlockMeta, changes: seq<SlotChange>, stage: Stage,
                            loads: bool, now: Time): Outcome {
    var h := block.hash;
    if g < Active(p) then Done(p)
    else if g > Active(p) then Fail(p)
    else if h in p.store.tombstones then Done(p)
    else if h in p.store.candidates && p.store.candidates[h].block != block then Fail(p)
    else if Held(p.store, h) then
      if stage == Validated && p.store.candidates[h].stage == Executed then PromoteKnown(env, p, g, h) else Done(p)
    else if block.number <= p.shared.published.canonical.block.number
            && block.parent !in p.store.candidates then Done(p)
    else
      match ParentValues(env, p, g, block, stage, loads)
      case Values(values) => PublishCandidate(env, p, g, block, values, changes, stage, now)
      case Defer => InsertDeferred(env, p, block, changes, now)
      case Skip => Done(p)
      case Mismatch => Fail(p)
  }

  function PromoteValidated(env: Env, p: State, g: Generation, h: Hash, loads: bool, now: Time): Outcome {
    if g < Active(p) then Done(p)
    else if g > Active(p) then Fail(p)
    else if h in p.store.candidates then
      if p.store.candidates[h].stage == Validated then Done(p) else PromoteKnown(env, p, g, h)
    else if h in p.store.deferred then
      ProjectCandidate(env, p, g, p.store.deferred[h].block, p.store.deferred[h].changes, Validated, loads, now)
    else Done(p)
  }

  predicate Rejectable(s: Store, h: Hash) {
    (h in s.candidates && s.candidates[h].stage == Executed) || h in s.deferred
  }

  function Rejected(env: Env, p: State, g: Generation, h: Hash): Outcome {
    if g < Active(p) then Done(p)
    else if g > Active(p) then Fail(p)
    else if !Rejectable(p.store, h) then Done(p)
    else
      var sent := Send(env, p, g, BlockRejected(h), None);
      if sent.ok then Done(sent.state.(store := RemoveCandidateTree(p.store, h, true))) else sent
  }

  // ----- The canonical head -----

  function ScheduleExpiry(s: Store, h: Hash, now: Time): Store {
    var at := now + s.limits.retention;
    s.(candidates := if h != s.head && h in s.candidates
                     then s.candidates[h := s.candidates[h].(expiresAt := at)] else s.candidates,
       deferred := if h != s.head && h !in s.candidates && h in s.deferred
                   then s.deferred[h := s.deferred[h].(expiresAt := at)] else s.deferred)
  }

  function NoteFirstSequence(s: Store, h: Hash, sequence: nat): Store {
    if h in s.candidates && s.candidates[h].firstSequence == 0
    then s.(candidates := s.candidates[h := s.candidates[h].(firstSequence := sequence)])
    else s
  }

  /** The new head's projection: the cached one, when it is of this generation, or the provider's. */
  function HeadProjection(env: Env, p: State, g: Generation, h: Hash, loads: bool): Option<Projection> {
    if g == Active(p) && Held(p.store, h) then p.store.candidates[h].projection
    else if loads then Some(LoadAt(env, Active(p), h))
    else None
  }

  predicate WellShaped(env: Env, p: Projection) {
    && |p.values| == env.chain.keys(p.generation)
    && (p.bitmap == [] || |p.bitmap| == BitmapSize(env.chain.keys(p.generation)))
  }

  function AdvanceHead(env: Env, p: State, projection: Projection, now: Time): Outcome {
    var previous := p.shared.published.canonical;
    var changed := CanonicalBitmap(previous, projection);
    if changed.None? then Fail(p)
    else
      var inserted := InsertCandidate(env, p, projection, Validated, 0, now);
      if !inserted.ok then inserted
      else
        var sent := Send(env, inserted.state, projection.generation,
                         CanonicalHead(p.store.head, projection, changed.value),
                         Some(NextState(projection, None, false)));
        if !sent.ok then sent
        else
          var h := projection.block.hash;
          var s := inserted.state.store.(head := h);
          Done(sent.state.(store := NoteFirstSequence(ScheduleExpiry(s, p.store.head, now), h,
                                                      |sent.state.shared.calls|)))
  }

  function Canonical(env: Env, p: State, g: Generation, observedAt: Time, h: Hash, loads: bool, now: Time): Outcome {
    if g > Active(p) then Fail(p)
    else if observedAt <= p.anchoredAt then Done(p)
    else if h == p.shared.published.canonical.block.hash then Done(p)
    else
      match HeadProjection(env, p, g, h, loads)
      case None => Fail(p)
      case Some(projection) =>
        if projection.generation == Active(p) && projection.block.hash == h && WellShaped(env, projection)
        then AdvanceHead(env, p, projection, now) else Fail(p)
  }

  /** Starts a sweep when the finalized checkpoint moved, and gives it one slice of budget. */
  function NoteFinalized(env: Env, p: State, g: Generation, finalized: Option<Checkpoint>): Outcome {
    if finalized.None? || finalized == p.store.lastFinalized then Done(p)
    else
      var slice := ProcessFinality(BeginSweep(p.store, finalized.value), p.store.limits.budget);
      SendRetired(env, p.(store := slice.store), g, slice.retired, FinalizedConflict)
  }

  function ForkchoiceAppliedTo(env: Env, p: State, applied: AppliedView): Outcome {
    var canonical := p.shared.published.canonical;
    var view := Resolve(applied, canonical.block.number);
    if canonical.block.hash != applied.head || !ValidView(view) then Fail(p)
    else
      var sent := Send(env, p, canonical.generation, ForkchoiceApplied(view),
                       Some(NextState(canonical, Some(view), false)));
      if sent.ok then NoteFinalized(env, sent.state, canonical.generation, view.finalized) else sent
  }

  function ForkchoiceChanged(env: Env, p: State, g: Generation, observedAt: Time, applied: AppliedView, loads: bool,
                             now: Time): Outcome {
    if g > Active(p) then Fail(p)
    else if observedAt <= p.anchoredAt then Done(p)
    else if p.store.head == applied.head then ForkchoiceAppliedTo(env, p, applied)
    else
      var moved := Canonical(env, p, g, observedAt, applied.head, loads, now);
      if moved.ok then ForkchoiceAppliedTo(env, moved.state, applied) else moved
  }

  // ----- Anchors -----

  /** What the provider returns for the latest head, if it returns anything that fits a frame. */
  datatype Load = Failed | Loaded(head: Hash, view: View, anchoredAt: Time)

  predicate Coheres(env: Env, load: Load) {
    load.Loaded? && load.view.head == Checkpoint(env.chain.meta(load.head).number, load.head) && ValidView(load.view)
  }

  function AnnounceGap(env: Env, p: State): Outcome {
    var published := p.shared.published;
    Send(env, p, published.canonical.generation, Gap(p.shared.committed),
         Some(NextState(published.canonical, None, true)))
  }

  function Reanchor(env: Env, p: State, load: Load, now: Time): Outcome {
    if !Coheres(env, load) then Fail(p)
    else
      var projection := LoadAt(env, Active(p), load.head);
      Send(env, p.(store := Reset(p.store, projection, load.view.finalized, now), anchoredAt := load.anchoredAt),
           projection.generation, Snapshot(projection, load.view),
           Some(NextState(projection, Some(load.view), false)))
  }

  function ResetCanonicalState(env: Env, p: State, g: Generation, observedAt: Time, load: Load, now: Time): Outcome {
    if g > Active(p) then Fail(p)
    else if observedAt <= p.anchoredAt then Done(p)
    else
      var gap := AnnounceGap(env, p);
      if gap.ok then Reanchor(env, gap.state, load, now) else gap
  }

  /** Switches to a newer dictionary; a failed read leaves everything as it was. */
  function Activate(env: Env, p: State, g: Generation, load: Load, now: Time): Outcome {
    if g <= Active(p) || !Coheres(env, load) then Done(p)
    else
      var projection := LoadAt(env, g, load.head);
      var reset := p.(store := Reset(p.store, projection, load.view.finalized, now), anchoredAt := load.anchoredAt);
      var config := Send(env, reset, g, ConfigActivated(env.chain.keys(g)),
                         Some(NextState(projection, Some(load.view), false)));
      if config.ok then Send(env, config.state, g, Snapshot(projection, load.view), None) else config
  }

  /** One round of the recovery loop: announce the gap unless that is done, then re-anchor. */
  function Attempt(env: Env, p: State, load: Load, now: Time): Outcome {
    if p.shared.published.recovering then Reanchor(env, p, load, now)
    else
      var gap := AnnounceGap(env, p);
      if gap.ok then Reanchor(env, gap.state, load, now) else gap
  }

  // ----- Maintenance -----

  predicate Expired(s: Store, h: Hash, now: Time) {
    h != s.head
    && ((h in s.candidates && s.candidates[h].expiresAt <= now) || (h in s.deferred && s.deferred[h].expiresAt <= now))
  }

  /** The expired records, each once and in whatever order the maps yield them, as many as the budget allows;
      deferred ones come after all the others. */
  predicate Due(s: Store, due: seq<Hash>, now: Time, budget: nat) {
    && |due| <= budget && (forall i :: 0 <= i < |due| ==> Expired(s, due[i], now))
    && (forall i, j :: 0 <= i < j < |due| ==> due[i] != due[j])
    && (|due| < budget ==> forall h | h in s.candidates.Keys + s.deferred.Keys :: Expired(s, h, now) ==> h in due)
    && (forall i, h | 0 <= i < |due| && h in s.candidates.Keys ::
          due[i] !in s.candidates && Expired(s, h, now) ==> h in due)
  }

  function Maintain(env: Env, p: State, due: seq<Hash>, now: Time): Outcome {
    var slice := ProcessFinality(p.store, p.store.limits.budget);
    var swept := SendRetired(env, p.(store := slice.store), Active(p), slice.retired, FinalizedConflict);
    var left := if slice.work < p.store.limits.budget then p.store.limits.budget - slice.work else 0;
    if !swept.ok then swept
    else if !Due(slice.store, due, now, left) then Done(swept.state)
    else
      var (s, expired) := RemoveAll(slice.store, due);
      SendRetired(env, swept.state.(store := s), Active(p), expired, RetentionExpired)
  }

  // ----- Runs -----

  datatype Command =
    | OnExecuted(observedAt: Time, generation: Generation, block: BlockMeta, changes: seq<SlotChange>)
    | OnValidated(generation: Generation, hash: Hash, loads: bool)
    | OnValidatedFallback(observedAt: Time, generation: Generation, block: BlockMeta, changes: seq<SlotChange>,
                          loads: bool)
    | OnStateReset(observedAt: Time, generation: Generation, load: Load)
    | OnForkchoice(observedAt: Time, generation: Generation, applied: AppliedView, loads: bool)
    | OnRejected(generation: Generation, hash: Hash)
    | OnActivate(generation: Generation, load: Load)
    | OnTick(due: seq<Hash>)
    | OnLoss
    | OnRetry(load: Load)

  function Handle(env: Env, p: State, cmd: Command, now: Time): Outcome {
    match cmd
    case OnExecuted(at, g, block, changes) =>
      if at <= p.anchoredAt then Done(p) else ProjectCandidate(env, p, g, block, changes, Executed, false, now)
    case OnValidated(g, h, loads) => PromoteValidated(env, p, g, h, loads, now)
    case OnValidatedFallback(at, g, block, changes, loads) =>
      if at <= p.anchoredAt then Done(p) else ProjectCandidate(env, p, g, block, changes, Validated, loads, now)
    case OnStateReset(at, g, load) => ResetCanonicalState(env, p, g, at, load, now)
    case OnForkchoice(at, g, applied, loads) => ForkchoiceChanged(env, p, g, at, applied, loads, now)
    case OnRejected(g, h) => Rejected(env, p, g, h)
    case OnActivate(g, load) => Activate(env, p, g, load, now)
    case OnTick(due) => Maintain(env, p, due, now)
    case OnLoss => Fail(p)
    case OnRetry(_) => Done(p)
  }

  /** One turn of the publisher thread: a broken publisher only retries its recovery. */
  function Step(env: Env, p: State, cmd: Command, now: Time): State {
    if p.broken then
      if cmd.OnRetry? then
        var tried := Attempt(env, p, cmd.load, now);
        tried.state.(broken := !tried.ok)
      else p
    else
      var handled := Handle(env, p, cmd, now);
      handled.state.(broken := !handled.ok)
  }

  function Start(env: Env, limits: Limits, g: Generation, load: Load, now: Time): State
    requires load.Loaded?
  {
    var projection := LoadAt(env, g, load.head);
    State(Anchored(limits, projection, load.view.finalized, 1, now),
          Shared([], 0, Published(projection, Some(load.view), 0, false)),
          load.anchoredAt, false)
  }

  datatype Turn = Turn(command: Command, now: Time)

  function Run(env: Env, p: State, turns: seq<Turn>): State
    decreases |turns|
  {
    if turns == [] then p else Run(env, Step(env, p, turns[0].command, turns[0].now), turns[1..])
  }
}
