/** Frames, and the state that reconnecting consumers are handed. */
module Wire {
  import opened Types
  import opened Projections
  import opened Store

  datatype Reason = CacheEvicted | RetentionExpired | FinalizedConflict

  datatype Event =
    | Hello
    | ConfigActivated(keys: nat)
    | Snapshot(projection: Projection, view: View)
    | BlockState(projection: Projection, stage: Stage)
    | BlockValidated(hash: Hash)
    | BlockRejected(hash: Hash)
    | CanonicalHead(previous: Hash, projection: Projection, changed: seq<bv8>)
    | ForkchoiceApplied(view: View)
    | CandidatesRetired(hashes: seq<Hash>, reason: Reason)
    | Gap(lastContiguous: nat)

  /** Canonical state for new handshakes, tagged with the sequence it took effect at. */
  datatype Published = Published(
    canonical: Projection,
    forkchoice: Option<View>,
    effectiveSequence: nat,
    recovering: bool)

  /** One attempt to publish. The sequence of the i-th attempt is i + 1, whether it encoded or not. */
  datatype Call = Call(generation: Generation, event: Event, next: Option<Published>, encoded: bool)

  /** All publication attempts so far, the last committed sequence, and the handshake state. */
  datatype Shared = Shared(calls: seq<Call>, committed: nat, published: Published)

  /** The handshake state an event installs. */
  datatype NextState = NextState(canonical: Projection, forkchoice: Option<View>, recovering: bool)

  datatype Sent = Sent(shared: Shared, ok: bool)

  /** Snapshot and dictionary frames are measured before anything depends on them. */
  predicate Preflighted(event: Event) { event.Snapshot? || event.ConfigActivated? }

  /** Allocates a sequence; then either the frame encodes and the state and the sequence are
      committed, or nothing but the sequence is used up. */
  function Publish(encodes: nat -> bool, sh: Shared, generation: Generation, event: Event,
                   next: Option<NextState>): Sent {
    var sequence := |sh.calls| + 1;
    var ok := Preflighted(event) || encodes(sequence);
    var state := if next.Some?
                 then Some(Published(next.value.canonical, next.value.forkchoice, sequence, next.value.recovering))
                 else None;
    Sent(Shared(sh.calls + [Call(generation, event, state, ok)],
                if ok then sequence else sh.committed,
                if ok && state.Some? then state.value else sh.published),
         ok)
  }

  /** Retirements go out in batches that fit a frame; the first batch that fails stops it. */
  function PublishRetired(encodes: nat -> bool, batch: nat, sh: Shared, generation: Generation, hashes: seq<Hash>,
                          reason: Reason): Sent
    decreases |hashes|
  {
    if hashes == [] then Sent(sh, true)
    else
      var n := if batch == 0 then 1 else if batch < |hashes| then batch else |hashes|;
      var sent := Publish(encodes, sh, generation, CandidatesRetired(hashes[..n], reason), None);
      if sent.ok then PublishRetired(encodes, batch, sent.shared, generation, hashes[n..], reason) else sent
  }
}
