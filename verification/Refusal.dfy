/** Which streams a reader accepts, said of the frames themselves, and so which it refuses. */
module Refusal {
  import opened Types
  import opened Projections
  import opened Wire
  import opened PublisherInvariants
  import opened Stream

  // ----- Streams in order -----

  /** The frame demands a snapshot at once. */
  predicate Demands(event: Event) { event.Gap? || event.ConfigActivated? }

  /** A frame in its place: Hello, dictionary and snapshot at one sequence and generation, and after them one
      sequence higher each time, but for a gap, which names the frame before it and may leap. A gap and a
      dictionary are followed at once by a snapshot. */
  predicate InPlace(frames: seq<Frame>, i: nat)
    requires i < |frames|
  {
    var f := frames[i];
    if i == 0 then f.event.Hello?
    else if i < 3 then
      && (if i == 1 then f.event.ConfigActivated? else f.event.Snapshot?)
      && f.sequence == frames[0].sequence && f.generation == frames[0].generation
    else
      var last := frames[i - 1];
      && !f.event.Hello?
      && (Demands(last.event) ==> f.event.Snapshot?)
      && (if f.event.Gap? then f.event.lastContiguous == last.sequence && f.sequence > last.sequence
          else f.sequence == last.sequence + 1)
  }

  // ----- Payloads -----

  /** Frame `j` is the last dictionary before frame `i`. */
  predicate InForce(frames: seq<Frame>, i: nat, j: nat)
    requires i <= |frames|
  {
    j < i && frames[j].event.ConfigActivated? && forall k :: j < k < i ==> !frames[k].event.ConfigActivated?
  }

  /** The payload has one value and one bit for each key. */
  predicate Sized(event: Event, keys: nat) {
    match event
    case Snapshot(p, view) => Heads(view, p.block) && |p.values| == keys
    case BlockState(p, _) => |p.bitmap| == BitmapSize(keys) && |p.values| == keys
    case CanonicalHead(_, p, changed) => (changed == [] || |changed| == BitmapSize(keys)) && |p.values| == keys
    case ForkchoiceApplied(view) => ValidView(view)
    case CandidatesRetired(hashes, _) => hashes != []
    case _ => true
  }

  /** Dictionaries do not go back, and every other frame is of the one in force. */
  ghost predicate Fits(frames: seq<Frame>, i: nat)
    requires i < |frames|
  {
    var f := frames[i];
    if f.event.Hello? then true
    else if f.event.ConfigActivated?
    then forall j: nat :: InForce(frames, i, j) ==> f.generation >= frames[j].generation
    else exists j: nat :: InForce(frames, i, j) && f.generation == frames[j].generation
                     && Sized(f.event, frames[j].event.keys)
  }

  ghost predicate Proper(frames: seq<Frame>) {
    forall i :: 0 <= i < |frames| ==> InPlace(frames, i) && Fits(frames, i)
  }

  // ----- The reader's state -----

  /** Where a reader stands after frames in their places. */
  function PhaseAfter(frames: seq<Frame>): Phase {
    if frames == [] then AwaitHello
    else
      var f := frames[|frames| - 1];
      if |frames| == 1 then AwaitConfig(f.sequence, f.generation)
      else if |frames| == 2 then AwaitSnapshot(f.sequence, f.generation)
      else Live(f.sequence, |frames| > 3 && Demands(f.event))
  }

  ghost predicate Holds(frames: seq<Frame>, active: Option<Generation>, keys: nat) {
    if active.None? then forall k :: 0 <= k < |frames| ==> !frames[k].event.ConfigActivated?
    else exists j: nat :: InForce(frames, |frames|, j) && frames[j].generation == active.value
                          && frames[j].event.keys == keys
  }

  lemma PlaceIsObserved(frames: seq<Frame>, f: Frame)
    requires forall i :: 0 <= i < |frames| ==> InPlace(frames, i)
    ensures var all := frames + [f];
            && (Observed(PhaseAfter(frames), f).Some? <==> InPlace(all, |frames|))
            && (InPlace(all, |frames|) ==> Observed(PhaseAfter(frames), f) == Some(PhaseAfter(all)))
  {
    var all := frames + [f];
    assert forall i :: 0 <= i < |frames| ==> all[i] == frames[i];
    if |frames| == 2 {
      assert InPlace(frames, 1);
    } else if |frames| >= 3 {
      assert InPlace(frames, |frames| - 1);
    }
  }

  lemma OneInForce(frames: seq<Frame>, i: nat, j: nat, k: nat)
    requires i <= |frames| && InForce(frames, i, j) && InForce(frames, i, k)
    ensures j == k
  {
  }

  lemma SamePrefix(frames: seq<Frame>, f: Frame, i: nat)
    requires i <= |frames|
    ensures forall j: nat :: InForce(frames + [f], i, j) <==> InForce(frames, i, j)
  {
    var all := frames + [f];
    assert forall k :: 0 <= k < |frames| ==> all[k] == frames[k];
  }

  lemma FitIsSound(frames: seq<Frame>, f: Frame, active: Option<Generation>, keys: nat)
    requires Holds(frames, active, keys)
    ensures Sound(active, keys, f) <==> Fits(frames + [f], |frames|)
  {
    var all, n := frames + [f], |frames|;
    SamePrefix(frames, f, n);
    assert all[n] == f && forall k :: 0 <= k < n ==> all[k] == frames[k];
    if active.Some? {
      var j: nat :| InForce(frames, n, j) && frames[j].generation == active.value && frames[j].event.keys == keys;
      assert InForce(all, n, j);
      forall k: nat | InForce(all, n, k)
        ensures k == j
      {
        OneInForce(all, n, j, k);
      }
    }
  }

  lemma HoldsOn(frames: seq<Frame>, f: Frame, active: Option<Generation>, keys: nat)
    requires Holds(frames, active, keys)
    ensures if f.event.ConfigActivated? then Holds(frames + [f], Some(f.generation), f.event.keys)
            else Holds(frames + [f], active, keys)
  {
    var all, n := frames + [f], |frames|;
    assert all[n] == f && forall k :: 0 <= k < n ==> all[k] == frames[k];
    if f.event.ConfigActivated? {
      assert InForce(all, n + 1, n);
    } else if active.Some? {
      var j: nat :| InForce(frames, n, j) && frames[j].generation == active.value && frames[j].event.keys == keys;
      assert InForce(all, n + 1, j);
    }
  }

  lemma ProperPrefix(frames: seq<Frame>, f: Frame)
    ensures Proper(frames + [f]) <==> Proper(frames) && InPlace(frames + [f], |frames|) && Fits(frames + [f], |frames|)
  {
    var all := frames + [f];
    assert forall k :: 0 <= k < |frames| ==> all[k] == frames[k];
    forall i | 0 <= i < |frames|
      ensures InPlace(all, i) <==> InPlace(frames, i)
      ensures Fits(all, i) <==> Fits(frames, i)
    {
      SamePrefix(frames, f, i);
    }
  }

  lemma {:induction false} ReadsProper(frames: seq<Frame>)
    ensures ReadAll(NEW_READER, frames).Some? <==> Proper(frames)
    ensures Proper(frames) ==>
              var r := ReadAll(NEW_READER, frames).value;
              r.phase == PhaseAfter(frames) && Holds(frames, r.active, r.keys)
    decreases |frames|
  {
    hide InPlace, Fits, Observed, Sound, PhaseAfter, Holds;
    if frames == [] {
      EmptyHolds();
    } else {
      var before, f := frames[..|frames| - 1], frames[|frames| - 1];
      assert frames == before + [f];
      ReadsProper(before);
      ProperPrefix(before, f);
      if Proper(before) {
        var r := ReadAll(NEW_READER, before).value;
        PlaceIsObserved(before, f);
        FitIsSound(before, f, r.active, r.keys);
        HoldsOn(before, f, r.active, r.keys);
      }
    }
  }

  lemma EmptyHolds()
    ensures PhaseAfter([]) == AwaitHello && Holds([], None, 0)
  {
  }

  // ----- Theorems -----

  /** A new reader accepts a stream exactly if every frame of it is in its place and fits the dictionary in force. */
  lemma AcceptedExactly(frames: seq<Frame>)
    ensures ReadAll(NEW_READER, frames).Some? <==> Proper(frames)
  {
    ReadsProper(frames);
  }

  /** A stream from which a live frame is missing is refused at the next one, even if that is a gap. */
  lemma MissingFrameIsRefused(frames: seq<Frame>, k: nat)
    requires ReadAll(NEW_READER, frames).Some? && 3 <= k && k + 1 < |frames|
    ensures ReadAll(NEW_READER, frames[..k] + frames[k + 1..]).None?
  {
    hide ReadAll, Fits;
    var shorter := frames[..k] + frames[k + 1..];
    AcceptedExactly(frames);
    AcceptedExactly(shorter);
    assert InPlace(frames, k) && InPlace(frames, k + 1);
    assert shorter[k] == frames[k + 1] && shorter[k - 1] == frames[k - 1];
    assert !InPlace(shorter, k);
  }

  /** A stream in which a frame is repeated is refused. */
  lemma RepeatedFrameIsRefused(frames: seq<Frame>, k: nat)
    requires ReadAll(NEW_READER, frames).Some? && k < |frames|
    ensures ReadAll(NEW_READER, frames[..k + 1] + frames[k..]).None?
  {
    hide ReadAll, Fits;
    var longer := frames[..k + 1] + frames[k..];
    AcceptedExactly(frames);
    AcceptedExactly(longer);
    assert InPlace(frames, k);
    assert longer[k] == frames[k] == longer[k + 1];
    assert !InPlace(longer, k + 1);
  }
}
