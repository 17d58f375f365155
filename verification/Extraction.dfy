/** What a block's execution bundle does to the watched slots, found from whichever side is smaller. */
module Extraction {
  import opened Types
  import opened Chain
  import opened Projections
  import opened Watch

  datatype Cell = Cell(original: Word, present: Word)

  datatype Account = Account(destroyed: bool, storage: map<Slot, Cell>)

  type Bundle = map<Address, Account>

  type World = (Address, Slot) -> Word

  // ----- The state transition -----

  /** Storage after a bundle: what it wrote, nothing left of destroyed accounts, the rest as before. */
  function Post(before: World, bundle: Bundle, a: Address, s: Slot): Word {
    if a !in bundle then before(a, s)
    else if s in bundle[a].storage then bundle[a].storage[s].present
    else if bundle[a].destroyed then 0
    else before(a, s)
  }

  /** Slots of accounts that were not destroyed are recorded with their value before the block. */
  ghost predicate Recorded(before: World, bundle: Bundle) {
    forall a, s :: a in bundle && !bundle[a].destroyed && s in bundle[a].storage ==>
      bundle[a].storage[s].original == before(a, s)
  }

  function Project(config: seq<Coordinate>, world: World): seq<Word> {
    seq<Word>(|config|, k requires 0 <= k < |config| => world(config[k].address, config[k].slot))
  }

  // ----- What to report -----

  function SlotUpdate(account: Account, slot: Slot): Option<Word> {
    if slot in account.storage then
      var cell := account.storage[slot];
      if cell.original != cell.present || account.destroyed then Some(cell.present) else None
    else if account.destroyed then Some(0)
    else None
  }

  /** The update of one watched coordinate, if the bundle has one. */
  function Update(bundle: Bundle, at: Coordinate): Option<Word> {
    if at.address in bundle then SlotUpdate(bundle[at.address], at.slot) else None
  }

  ghost predicate Mentions(changes: seq<SlotChange>, key: nat) {
    exists i :: 0 <= i < |changes| && changes[i].key == key
  }

  /** Of the keys in `done`, exactly those with an update are reported, once, with its value. */
  ghost predicate Reports(config: seq<Coordinate>, bundle: Bundle, done: set<nat>, changes: seq<SlotChange>) {
    && (forall k :: k in done ==> k < |config|)
    && (forall i :: 0 <= i < |changes| ==>
          changes[i].key in done && Update(bundle, config[changes[i].key]) == Some(changes[i].value))
    && (forall i, j :: 0 <= i < j < |changes| ==> changes[i].key != changes[j].key)
    && (forall k :: k in done && Update(bundle, config[k]).Some? ==> Mentions(changes, k))
  }

  function AllKeys(config: seq<Coordinate>): (r: set<nat>)
    ensures forall k :: k in r <==> 0 <= k < |config|
  {
    if config == [] then {} else AllKeys(config[..|config| - 1]) + {|config| - 1}
  }

  function KeysAt(config: seq<Coordinate>, a: Address): set<nat> { set k | 0 <= k < |config| && config[k].address == a }

  lemma ReportsGrow(config: seq<Coordinate>, bundle: Bundle, done: set<nat>, changes: seq<SlotChange>, key: nat)
    requires Reports(config, bundle, done, changes) && key < |config| && key !in done
    ensures var update := Update(bundle, config[key]);
            Reports(config, bundle, done + {key}, if update.Some? then changes + [SlotChange(key, update.value)]
                                                  else changes)
  {
    var update := Update(bundle, config[key]);
    if update.Some? {
      var longer := changes + [SlotChange(key, update.value)];
      assert longer[|changes|].key == key;
      forall k | k in done && Update(bundle, config[k]).Some?
        ensures Mentions(longer, k)
      {
        var i :| 0 <= i < |changes| && changes[i].key == k;
        assert longer[i].key == k;
      }
    }
  }

  /** Keys without an update need not be looked at. */
  lemma ReportsSkip(config: seq<Coordinate>, bundle: Bundle, done: set<nat>, changes: seq<SlotChange>, more: set<nat>)
    requires Reports(config, bundle, done, changes)
    requires forall k :: k in more ==> k < |config| && Update(bundle, config[k]).None?
    ensures Reports(config, bundle, done + more, changes)
  {
  }

  // ----- One account -----

  /** Scans the watched slots of an account. */
  method ScanWatched(config: seq<Coordinate>, bundle: Bundle, w: AddressWatch, ghost done: set<nat>,
                     changes: seq<SlotChange>)
    returns (r: seq<SlotChange>)
    requires Watch.Account(config, w) && w.address in bundle && done !! KeysAt(config, w.address)
    requires Reports(config, bundle, done, changes)
    ensures Reports(config, bundle, done + KeysAt(config, w.address), r)
  {
    hide Reports, Indexes;
    var account := bundle[w.address];
    r := changes;
    var j := 0;
    ghost var seen: set<nat> := {};
    assert done + {} == done;
    while j < |w.slots|
      invariant 0 <= j <= |w.slots|
      invariant forall i :: 0 <= i < j ==> w.slots[i].key in seen
      invariant forall k :: k in seen ==>
                  k in KeysAt(config, w.address) && exists i :: 0 <= i < j && w.slots[i].key == k
      invariant Reports(config, bundle, done + seen, r)
    {
      var watched := w.slots[j];
      assert watched.key !in seen by { FreshKey(config, w, j); }
      ReportsGrow(config, bundle, done + seen, r, watched.key);
      if watched.slot in account.storage {
        var cell := account.storage[watched.slot];
        if cell.original != cell.present || account.destroyed {
          r := r + [SlotChange(watched.key, cell.present)];
        }
      } else if account.destroyed {
        r := r + [SlotChange(watched.key, 0)];
      }
      assert done + seen + {watched.key} == done + (seen + {watched.key});
      seen := seen + {watched.key};
      j := j + 1;
    }
    assert seen == KeysAt(config, w.address) by { AllSeen(config, w, seen); }
  }

  lemma FreshKey(config: seq<Coordinate>, w: AddressWatch, j: nat)
    requires Watch.Account(config, w) && j < |w.slots|
    ensures forall i :: 0 <= i < j ==> w.slots[i].key != w.slots[j].key
  {
    forall i | 0 <= i < j
      ensures w.slots[i].key != w.slots[j].key
    {
      assert w.slots[i].slot < w.slots[j].slot;
    }
  }

  lemma AllSeen(config: seq<Coordinate>, w: AddressWatch, seen: set<nat>)
    requires Watch.Account(config, w) && seen <= KeysAt(config, w.address)
    requires forall i :: 0 <= i < |w.slots| ==> w.slots[i].key in seen
    ensures seen == KeysAt(config, w.address)
  {
    forall k | k in KeysAt(config, w.address)
      ensures k in seen
    {
      assert SlotWatch(config[k].slot, k) in w.slots;
    }
  }

  /** The key of a slot, by the reverse index if the account has one, else by binary search. */
  method FindKey(config: seq<Coordinate>, w: AddressWatch, slot: Slot) returns (key: Option<nat>)
    requires Watch.Account(config, w)
    ensures key.Some? ==> key.value < |config| && config[key.value] == Coordinate(w.address, slot)
    ensures key.None? ==> forall k :: 0 <= k < |config| ==> config[k] != Coordinate(w.address, slot)
  {
    if w.slotToKey == map[] {
      key := Search(w.slots, slot);
    } else if slot in w.slotToKey {
      key := Some(w.slotToKey[slot]);
    } else {
      key := None;
    }
    if key.None? {
      forall k | 0 <= k < |config|
        ensures config[k] != Coordinate(w.address, slot)
      {
        assert config[k].address == w.address ==> SlotWatch(config[k].slot, k) in w.slots;
      }
    }
  }

  /** Keys of the account whose slot is among these. */
  function KeysIn(config: seq<Coordinate>, a: Address, slots: set<Slot>): set<nat> {
    set k | 0 <= k < |config| && config[k].address == a && config[k].slot in slots
  }

  /** Looks at one slot the bundle holds for an account. */
  method ScanSlot(config: seq<Coordinate>, bundle: Bundle, w: AddressWatch, ghost done: set<nat>,
                  ghost past: set<Slot>, slot: Slot, changes: seq<SlotChange>)
    returns (r: seq<SlotChange>)
    requires Unique(config) && Watch.Account(config, w) && w.address in bundle && done !! KeysAt(config, w.address)
    requires !bundle[w.address].destroyed && slot in bundle[w.address].storage && slot !in past
    requires Reports(config, bundle, done + KeysIn(config, w.address, past), changes)
    ensures Reports(config, bundle, done + KeysIn(config, w.address, past + {slot}), r)
  {
    hide Reports, Watch.Account, KeysIn, KeysAt, Unique;
    r := changes;
    var key := FindKey(config, w, slot);
    ghost var before, more := done + KeysIn(config, w.address, past), KeysIn(config, w.address, {slot});
    SplitKeys(config, w.address, past, slot);
    assert done + KeysIn(config, w.address, past + {slot}) == before + more;
    if key.Some? {
      OneKey(config, w.address, slot, key.value);
      NewKey(config, w.address, done, past, slot, key.value);
      ReportsGrow(config, bundle, before, r, key.value);
    } else {
      NoKeys(config, w.address, {slot});
      assert before + {} == before;
    }
    var update := bundle[w.address].storage[slot];
    if update.original != update.present && key.Some? {
      r := r + [SlotChange(key.value, update.present)];
    }
  }

  /** Scans the slots the bundle holds for an account. */
  method ScanStorage(config: seq<Coordinate>, bundle: Bundle, w: AddressWatch, ghost done: set<nat>,
                     changes: seq<SlotChange>)
    returns (r: seq<SlotChange>)
    requires Unique(config) && Watch.Account(config, w) && w.address in bundle && done !! KeysAt(config, w.address)
    requires !bundle[w.address].destroyed
    requires Reports(config, bundle, done, changes)
    ensures Reports(config, bundle, done + KeysAt(config, w.address), r)
  {
    hide Reports, Watch.Account, KeysIn, KeysAt, Unique;
    var storage := bundle[w.address].storage;
    r := changes;
    var rest := storage.Keys;
    ghost var past: set<Slot> := {};
    NoKeys(config, w.address, {});
    assert done + {} == done;
    while rest != {}
      invariant rest <= storage.Keys && past == storage.Keys - rest
      invariant Reports(config, bundle, done + KeysIn(config, w.address, past), r)
      decreases |rest|
    {
      var slot :| slot in rest;
      r := ScanSlot(config, bundle, w, done, past, slot, r);
      past := past + {slot};
      rest := rest - {slot};
    }
    assert past == storage.Keys;
    StorageScanned(config, bundle, w.address, done, r);
  }

  /** The keys the bundle has no slot for need no report. */
  lemma StorageScanned(config: seq<Coordinate>, bundle: Bundle, a: Address, done: set<nat>, r: seq<SlotChange>)
    requires a in bundle && !bundle[a].destroyed
    requires Reports(config, bundle, done + KeysIn(config, a, bundle[a].storage.Keys), r)
    ensures Reports(config, bundle, done + KeysAt(config, a), r)
  {
    hide Reports, KeysIn, KeysAt;
    var met := KeysIn(config, a, bundle[a].storage.Keys);
    var others := KeysAt(config, a) - met;
    OtherKeys(config, bundle, a, others);
    ReportsSkip(config, bundle, done + met, r, others);
    KeysInAccount(config, a, bundle[a].storage.Keys);
    assert done + met + others == done + KeysAt(config, a);
  }

  lemma NoKeys(config: seq<Coordinate>, a: Address, slots: set<Slot>)
    requires forall k :: 0 <= k < |config| ==> config[k].address != a || config[k].slot !in slots
    ensures KeysIn(config, a, slots) == {}
  {
  }

  lemma KeysInAccount(config: seq<Coordinate>, a: Address, slots: set<Slot>)
    ensures KeysIn(config, a, slots) <= KeysAt(config, a)
  {
  }

  /** A key of the account that was not met yet. */
  lemma NewKey(config: seq<Coordinate>, a: Address, done: set<nat>, past: set<Slot>, slot: Slot, key: nat)
    requires done !! KeysAt(config, a) && slot !in past && key < |config| && config[key] == Coordinate(a, slot)
    ensures key !in done + KeysIn(config, a, past)
  {
  }

  /** Keys of the account that the bundle has no slot for are not updated. */
  lemma OtherKeys(config: seq<Coordinate>, bundle: Bundle, a: Address, others: set<nat>)
    requires a in bundle && !bundle[a].destroyed
    requires others == KeysAt(config, a) - KeysIn(config, a, bundle[a].storage.Keys)
    ensures forall k :: k in others ==> k < |config| && Update(bundle, config[k]).None?
  {
  }

  lemma SplitKeys(config: seq<Coordinate>, a: Address, past: set<Slot>, slot: Slot)
    ensures KeysIn(config, a, past + {slot}) == KeysIn(config, a, past) + KeysIn(config, a, {slot})
  {
  }

  lemma OneKey(config: seq<Coordinate>, a: Address, slot: Slot, key: nat)
    requires Unique(config) && key < |config| && config[key] == Coordinate(a, slot)
    ensures KeysIn(config, a, {slot}) == {key}
  {
  }

  method ExtractAccount(config: seq<Coordinate>, bundle: Bundle, w: AddressWatch, ghost done: set<nat>,
                        changes: seq<SlotChange>)
    returns (r: seq<SlotChange>)
    requires Unique(config) && Watch.Account(config, w) && w.address in bundle && done !! KeysAt(config, w.address)
    requires Reports(config, bundle, done, changes)
    ensures Reports(config, bundle, done + KeysAt(config, w.address), r)
  {
    var account := bundle[w.address];
    if account.destroyed || |w.slots| <= |account.storage| {
      r := ScanWatched(config, bundle, w, done, changes);
    } else {
      r := ScanStorage(config, bundle, w, done, changes);
    }
  }

  // ----- All accounts -----

  function KeysOf(config: seq<Coordinate>, accounts: set<Address>): set<nat> {
    set k | 0 <= k < |config| && config[k].address in accounts
  }

  lemma KeysOfMore(config: seq<Coordinate>, accounts: set<Address>, a: Address)
    ensures KeysOf(config, accounts + {a}) == KeysOf(config, accounts) + KeysAt(config, a)
    ensures a !in accounts ==> KeysOf(config, accounts) !! KeysAt(config, a)
  {
  }

  lemma NothingReported(config: seq<Coordinate>, bundle: Bundle)
    ensures Reports(config, bundle, {}, []) && KeysOf(config, {}) == {}
  {
  }

  /** Scans the watched accounts. */
  method ScanAccounts(w: WatchSet, bundle: Bundle) returns (r: seq<SlotChange>)
    requires Unique(w.keys) && Compiled(w.keys, w)
    ensures Reports(w.keys, bundle, AllKeys(w.keys), r)
  {
    hide Reports, Watch.Account, Unique;
    r := [];
    var i := 0;
    ghost var past: set<Address> := {};
    NothingReported(w.keys, bundle);
    while i < |w.addresses|
      invariant 0 <= i <= |w.addresses|
      invariant forall j :: 0 <= j < i ==> w.addresses[j].address in past
      invariant forall a :: a in past ==> exists j :: 0 <= j < i && w.addresses[j].address == a
      invariant Reports(w.keys, bundle, KeysOf(w.keys, past), r)
    {
      var account := w.addresses[i];
      var a := account.address;
      assert a !in past;
      KeysOfMore(w.keys, past, a);
      if a in bundle {
        r := ExtractAccount(w.keys, bundle, account, KeysOf(w.keys, past), r);
      } else {
        ReportsSkip(w.keys, bundle, KeysOf(w.keys, past), r, KeysAt(w.keys, a));
      }
      past := past + {a};
      i := i + 1;
    }
    assert KeysOf(w.keys, past) == AllKeys(w.keys);
  }

  /** An account is found exactly when some key is configured on it. */
  lemma LookupFits(w: WatchSet, a: Address)
    requires Compiled(w.keys, w)
    ensures Lookup(w, a).Some? ==> Watch.Account(w.keys, Lookup(w, a).value) && Lookup(w, a).value.address == a
    ensures Lookup(w, a).None? ==> KeysAt(w.keys, a) == {}
  {
    hide Watch.Account;
  }

  /** What lies outside the bundle has no update. */
  lemma RestUntouched(config: seq<Coordinate>, bundle: Bundle, changes: seq<SlotChange>)
    requires Reports(config, bundle, KeysOf(config, bundle.Keys), changes)
    ensures Reports(config, bundle, AllKeys(config), changes)
  {
    hide Reports;
    var past := KeysOf(config, bundle.Keys);
    var others := AllKeys(config) - past;
    ReportsSkip(config, bundle, past, changes, others);
    assert past + others == AllKeys(config);
  }

  /** Scans the accounts of the bundle. */
  method ScanBundle(w: WatchSet, bundle: Bundle) returns (r: seq<SlotChange>)
    requires Unique(w.keys) && Compiled(w.keys, w)
    ensures Reports(w.keys, bundle, AllKeys(w.keys), r)
  {
    hide Reports, Watch.Account, Unique, Compiled, KeysOf, KeysAt, Lookup, AllKeys;
    r := [];
    var rest := bundle.Keys;
    ghost var past: set<Address> := {};
    NothingReported(w.keys, bundle);
    while rest != {}
      invariant rest <= bundle.Keys && past == bundle.Keys - rest
      invariant Reports(w.keys, bundle, KeysOf(w.keys, past), r)
      decreases |rest|
    {
      var a :| a in rest;
      KeysOfMore(w.keys, past, a);
      LookupFits(w, a);
      var account := Lookup(w, a);
      if account.Some? {
        r := ExtractAccount(w.keys, bundle, account.value, KeysOf(w.keys, past), r);
      } else {
        assert KeysOf(w.keys, past) + {} == KeysOf(w.keys, past);
      }
      past := past + {a};
      rest := rest - {a};
    }
    assert past == bundle.Keys;
    RestUntouched(w.keys, bundle, r);
  }

  /** The watched write set of a bundle, whichever way it is found. */
  method ExtractChanges(w: WatchSet, bundle: Bundle) returns (changes: seq<SlotChange>)
    requires Unique(w.keys) && Compiled(w.keys, w)
    ensures Reports(w.keys, bundle, AllKeys(w.keys), changes)
  {
    if |w.addresses| <= |bundle| {
      changes := ScanAccounts(w, bundle);
    } else {
      changes := ScanBundle(w, bundle);
    }
  }

  // ----- Two reports agree -----

  /** Whatever the strategy and the order of the maps, the same changes are reported. */
  lemma StrategiesAgree(config: seq<Coordinate>, bundle: Bundle, a: seq<SlotChange>, b: seq<SlotChange>)
    requires Reports(config, bundle, AllKeys(config), a) && Reports(config, bundle, AllKeys(config), b)
    ensures (set c | c in a) == (set c | c in b)
  {
    ReportedBoth(config, bundle, a, b);
    ReportedBoth(config, bundle, b, a);
  }

  lemma ReportedBoth(config: seq<Coordinate>, bundle: Bundle, a: seq<SlotChange>, b: seq<SlotChange>)
    requires Reports(config, bundle, AllKeys(config), a) && Reports(config, bundle, AllKeys(config), b)
    ensures forall c :: c in a ==> c in b
  {
    forall i | 0 <= i < |a|
      ensures a[i] in b
    {
      assert Mentions(b, a[i].key);
      var j :| 0 <= j < |b| && b[j].key == a[i].key;
      assert b[j] == a[i];
    }
  }

  // ----- The square commutes -----

  lemma ReportsValid(config: seq<Coordinate>, bundle: Bundle, changes: seq<SlotChange>)
    requires Reports(config, bundle, AllKeys(config), changes)
    ensures ValidDelta(changes, |config|)
  {
  }

  /** Reading a valid delta's overlay key by key. */
  lemma {:induction false} OverlayAt(values: seq<Word>, changes: seq<SlotChange>, key: nat)
    requires ValidDelta(changes, |values|) && key < |values|
    ensures forall i :: 0 <= i < |changes| && changes[i].key == key ==>
              Overlay(values, changes)[key] == changes[i].value
    ensures !Mentions(changes, key) ==> Overlay(values, changes)[key] == values[key]
    decreases |changes|
  {
    if changes != [] {
      var first, rest := changes[0], changes[1..];
      var next := values[first.key := first.value];
      OverlayAt(next, rest, key);
      assert forall i :: 0 < i < |changes| ==> rest[i - 1] == changes[i];
      if first.key == key {
        assert !Mentions(rest, key);
      } else if !Mentions(changes, key) {
        assert !Mentions(rest, key) by { RestMentionsNo(changes, key); }
      }
    }
  }

  lemma RestMentionsNo(changes: seq<SlotChange>, key: nat)
    requires changes != [] && !Mentions(changes, key)
    ensures !Mentions(changes[1..], key)
  {
    assert forall i :: 0 <= i < |changes[1..]| ==> changes[1..][i] == changes[i + 1];
  }

  lemma SquareAt(config: seq<Coordinate>, before: World, bundle: Bundle, changes: seq<SlotChange>, key: nat)
    requires Recorded(before, bundle) && Reports(config, bundle, AllKeys(config), changes) && key < |config|
    ensures Overlay(Project(config, before), changes)[key]
            == Post(before, bundle, config[key].address, config[key].slot)
  {
    hide Overlay;
    ReportsValid(config, bundle, changes);
    OverlayAt(Project(config, before), changes, key);
    if Mentions(changes, key) {
      var i :| 0 <= i < |changes| && changes[i].key == key;
      assert Update(bundle, config[key]) == Some(changes[i].value);
    } else {
      assert Update(bundle, config[key]).None?;
    }
  }

  /** The extraction square: the reported changes, applied to the projected state before the block,
      give the projected state after it, with an exact bitmap. */
  lemma ExtractionSquare(config: seq<Coordinate>, before: World, after: World, bundle: Bundle, changes: seq<SlotChange>)
    requires Recorded(before, bundle) && Reports(config, bundle, AllKeys(config), changes)
    requires forall a, s :: after(a, s) == Post(before, bundle, a, s)
    ensures ValidDelta(changes, |config|)
    ensures Overlay(Project(config, before), changes) == Project(config, after)
    ensures var d := ApplyDelta(Project(config, before), changes);
            d.Delta? && d.values == Project(config, after)
            && Exact(d.bitmap, Project(config, before), Project(config, after))
  {
    hide Overlay, Post, Reports, ApplyDelta, Exact;
    ReportsValid(config, bundle, changes);
    DeltaExact(Project(config, before), changes);
    forall key | 0 <= key < |config|
      ensures Overlay(Project(config, before), changes)[key] == Project(config, after)[key]
    {
      SquareAt(config, before, bundle, changes, key);
    }
  }
}
