/** One 64-bit word that is both the enqueue reservation and the count of dropped events. */
module LossWord {

  const LOCKED_BIT: nat := 0x8000_0000_0000_0000
  const COUNT_MAX: nat := 0x7FFF_FFFF_FFFF_FFFF

  predicate IsWord(w: nat) { w <= LOCKED_BIT + COUNT_MAX }

  predicate Locked(w: nat) { w >= LOCKED_BIT }

  function Count(w: nat): nat { if Locked(w) then w - LOCKED_BIT else w }

  /** A drop saturates the count and leaves the reservation as it is. */
  function Dropped(w: nat): (r: nat)
    requires IsWord(w)
    ensures IsWord(r) && (Locked(r) <==> Locked(w)) && Count(r) > 0
  {
    (if Locked(w) then LOCKED_BIT else 0) + (if Count(w) < COUNT_MAX then Count(w) + 1 else COUNT_MAX)
  }

  /** The word after an attempt to reserve, which succeeds on the zero word. */
  function Reserved(w: nat): nat { if w == 0 then LOCKED_BIT else w }

  /** The word after a reservation was given up. */
  function Released(w: nat): nat { Count(w) }

  /** What a take returns, and the word after it. */
  function Pending(w: nat): nat { if Locked(w) then 0 else w }

  function Taken(w: nat): nat { if Locked(w) then w else 0 }

  /** The atomic operations on the word. */
  class EnqueueState {
    var word: nat

    ghost predicate Valid()
      reads this
    {
      IsWord(word)
    }

    constructor ()
      ensures Valid() && word == 0
    {
      word := 0;
    }

    /** Succeeds exactly when nothing is reserved and nothing is lost. */
    method TryReserve() returns (ok: bool)
      requires Valid()
      modifies this
      ensures Valid() && ok == (!Locked(old(word)) && Count(old(word)) == 0)
      ensures ok ==> Locked(word) && Count(word) == 0
      ensures !ok ==> word == old(word)
      ensures word == Reserved(old(word))
    {
      ok := word == 0;
      if ok {
        word := LOCKED_BIT;
      }
    }

    method RecordDrop()
      requires Valid()
      modifies this
      ensures Valid() && (Locked(word) <==> Locked(old(word)))
      ensures Count(word) == if Count(old(word)) == COUNT_MAX then COUNT_MAX else Count(old(word)) + 1
      ensures word == Dropped(old(word))
    {
      word := Dropped(word);
    }

    /** Gives the reservation up and says whether drops were recorded meanwhile. */
    method Release() returns (owes: bool)
      requires Valid()
      modifies this
      ensures Valid() && !Locked(word) && Count(word) == Count(old(word))
      ensures owes <==> Count(old(word)) != 0
      ensures word == Released(old(word))
    {
      owes := Count(word) != 0;
      word := Count(word);
    }

    /** Takes all recorded drops, unless a producer is in its critical section. */
    method TakePendingLoss() returns (lost: nat)
      requires Valid()
      modifies this
      ensures Valid()
      ensures Locked(old(word)) ==> lost == 0 && word == old(word)
      ensures !Locked(old(word)) ==> lost == Count(old(word)) && word == 0
      ensures lost == Pending(old(word)) && word == Taken(old(word))
    {
      if Locked(word) || word == 0 {
        return 0;
      }
      lost, word := word, 0;
    }
  }
}
