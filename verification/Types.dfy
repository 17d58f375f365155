/** Identities and records shared by every component of the feed. */
module Types {

  type Hash = nat
  type Generation = nat
  type Word = nat
  type Time = nat

  datatype Option<+T> = None | Some(value: T)

  datatype BlockMeta = BlockMeta(number: nat, hash: Hash, parent: Hash, timestamp: nat)

  datatype Checkpoint = Checkpoint(number: nat, hash: Hash)

  /** A forkchoice view whose head number is known. */
  datatype View = View(head: Checkpoint, safe: Option<Checkpoint>, finalized: Option<Checkpoint>)

  /** A forkchoice view as the engine reports it: the head is only a hash. */
  datatype AppliedView = AppliedView(head: Hash, safe: Option<Checkpoint>, finalized: Option<Checkpoint>)

  /** Absolute post-state value of one dense key. */
  datatype SlotChange = SlotChange(key: nat, value: Word)

  function Coherent(checkpoint: Option<Checkpoint>, headNumber: nat): Option<Checkpoint> {
    if checkpoint.Some? && checkpoint.value.number <= headNumber then checkpoint else None
  }

  /** The checkpoint is the applied one if there is one at or below the head, and otherwise there is none. */
  predicate Retains(checkpoint: Option<Checkpoint>, applied: Option<Checkpoint>, headNumber: nat) {
    && (applied.Some? && applied.value.number <= headNumber ==> checkpoint == applied)
    && (applied.None? || applied.value.number > headNumber ==> checkpoint == None)
  }

  /** The view is the applied one, with the head's number and without checkpoints above it. */
  predicate Renders(view: View, applied: AppliedView, headNumber: nat) {
    && view.head.hash == applied.head && view.head.number == headNumber
    && Retains(view.safe, applied.safe, headNumber) && Retains(view.finalized, applied.finalized, headNumber)
  }

  /** Names the head's number and forgets checkpoints that lie above it. */
  function Resolve(applied: AppliedView, headNumber: nat): (view: View)
    ensures Renders(view, applied, headNumber)
  {
    View(Checkpoint(headNumber, applied.head),
         Coherent(applied.safe, headNumber),
         Coherent(applied.finalized, headNumber))
  }

  /** No checkpoint is ahead of the head, and finalized is not ahead of safe. */
  predicate ValidView(view: View) {
    && (view.safe.Some? ==> view.safe.value.number <= view.head.number)
    && (view.finalized.Some? ==> view.finalized.value.number <= view.head.number)
    && (view.safe.Some? && view.finalized.Some? ==> view.finalized.value.number <= view.safe.value.number)
  }
}
