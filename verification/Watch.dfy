/** The configured storage coordinates, compiled for lookup from either side. */
module Watch {
  import opened Types

  type Address = nat
  type Slot = nat

  datatype Coordinate = Coordinate(address: Address, slot: Slot)

  datatype SlotWatch = SlotWatch(slot: Slot, key: nat)

  /** All watched slots of one account. */
  datatype AddressWatch = AddressWatch(address: Address, slots: seq<SlotWatch>, slotToKey: map<Slot, nat>)

  datatype WatchSet = WatchSet(
    generation: Generation,
    keys: seq<Coordinate>,
    addresses: seq<AddressWatch>,
    addressToIndex: map<Address, nat>)

  const SLOT_INDEX_THRESHOLD: nat := 8

  /** No coordinate is configured twice. */
  ghost predicate Unique(config: seq<Coordinate>) {
    forall i, j :: 0 <= i < j < |config| ==> config[i] != config[j]
  }

  // ----- What a compiled watch set is -----

  /** Exactly the configured keys below `n` of one account. */
  ghost predicate Gathers(config: seq<Coordinate>, n: nat, address: Address, slots: seq<SlotWatch>)
    requires n <= |config|
  {
    && (forall j :: 0 <= j < |slots| ==> slots[j].key < n && config[slots[j].key] == Coordinate(address, slots[j].slot))
    && (forall k :: 0 <= k < n && config[k].address == address ==> SlotWatch(config[k].slot, k) in slots)
  }

  ghost predicate Ascending(slots: seq<SlotWatch>) {
    forall i, j :: 0 <= i < j < |slots| ==> slots[i].slot < slots[j].slot
  }

  /** The reverse index holds all slots of a large account, and none of a small one. */
  ghost predicate Indexes(slots: seq<SlotWatch>, index: map<Slot, nat>) {
    if |slots| > SLOT_INDEX_THRESHOLD
    then (forall j :: 0 <= j < |slots| ==> slots[j].slot in index && index[slots[j].slot] == slots[j].key)
         && (forall s :: s in index ==> SlotWatch(s, index[s]) in slots)
    else index == map[]
  }

  ghost predicate Account(config: seq<Coordinate>, w: AddressWatch) {
    Gathers(config, |config|, w.address, w.slots) && Ascending(w.slots) && Indexes(w.slots, w.slotToKey)
  }

  /** A watch set in which every configured key is found, once, under its account. */
  ghost predicate Compiled(config: seq<Coordinate>, w: WatchSet) {
    && w.keys == config
    && (forall i :: 0 <= i < |w.addresses| ==> Account(config, w.addresses[i]))
    && InOrder(w.addresses) && Positions(w.addresses, w.addressToIndex)
    && (forall k :: 0 <= k < |config| ==> config[k].address in w.addressToIndex)
  }

  // ----- Sorting -----

  ghost predicate Rising(slots: seq<SlotWatch>) {
    forall i, j :: 0 <= i < j < |slots| ==> slots[i].slot <= slots[j].slot
  }

  /** Puts an entry after all that do not exceed it. */
  method InsertSorted(slots: seq<SlotWatch>, entry: SlotWatch) returns (r: seq<SlotWatch>)
    requires Rising(slots)
    ensures Rising(r) && multiset(r) == multiset(slots) + multiset{entry}
  {
    hide Rising;
    var i := |slots|;
    while i > 0 && slots[i - 1].slot > entry.slot
      invariant 0 <= i <= |slots|
      invariant forall j :: i <= j < |slots| ==> entry.slot < slots[j].slot
    {
      i := i - 1;
    }
    r := slots[..i] + [entry] + slots[i..];
    InsertRising(slots, i, entry);
    InsertCounts(slots, i, entry);
  }

  lemma InsertCounts(slots: seq<SlotWatch>, i: nat, entry: SlotWatch)
    requires i <= |slots|
    ensures multiset(slots[..i] + [entry] + slots[i..]) == multiset(slots) + multiset{entry}
  {
    assert slots == slots[..i] + slots[i..];
  }

  lemma InsertRising(slots: seq<SlotWatch>, i: nat, entry: SlotWatch)
    requires Rising(slots) && i <= |slots|
    requires forall j :: i <= j < |slots| ==> entry.slot < slots[j].slot
    requires i > 0 ==> slots[i - 1].slot <= entry.slot
    ensures Rising(slots[..i] + [entry] + slots[i..])
  {
    var r := slots[..i] + [entry] + slots[i..];
    forall a, b | 0 <= a < b < |r|
      ensures r[a].slot <= r[b].slot
    {
      assert r[a] == if a < i then slots[a] else if a == i then entry else slots[a - 1];
      assert r[b] == if b < i then slots[b] else if b == i then entry else slots[b - 1];
    }
  }

  method SortSlots(slots: seq<SlotWatch>) returns (r: seq<SlotWatch>)
    ensures Rising(r) && multiset(r) == multiset(slots)
  {
    r := [];
    var i := 0;
    while i < |slots|
      invariant 0 <= i <= |slots|
      invariant Rising(r) && multiset(r) == multiset(slots[..i])
    {
      r := InsertSorted(r, slots[i]);
      assert slots[..i + 1] == slots[..i] + [slots[i]];
      i := i + 1;
    }
    assert slots[..i] == slots;
  }

  lemma SameMembers(a: seq<SlotWatch>, b: seq<SlotWatch>)
    requires multiset(a) == multiset(b)
    ensures forall x :: x in a <==> x in b
  {
    forall x
      ensures x in a <==> x in b
    {
      assert x in a <==> x in multiset(a);
      assert x in b <==> x in multiset(b);
    }
  }

  /** What one account's keys gather, in any order, and without a key twice. */
  ghost predicate Once(slots: seq<SlotWatch>) {
    forall i, j :: 0 <= i < j < |slots| ==> slots[i].key != slots[j].key
  }

  lemma OnceByCount(slots: seq<SlotWatch>)
    requires Once(slots)
    ensures forall x :: multiset(slots)[x] <= 1
  {
    forall x
      ensures multiset(slots)[x] <= 1
    {
      CountOnce(slots, x);
    }
  }

  lemma {:induction false} CountOnce(slots: seq<SlotWatch>, x: SlotWatch)
    requires Once(slots)
    ensures multiset(slots)[x] <= 1
    decreases |slots|
  {
    if slots != [] {
      var rest := slots[1..];
      assert slots == [slots[0]] + rest;
      assert multiset(slots) == multiset{slots[0]} + multiset(rest);
      CountOnce(rest, x);
      if x == slots[0] {
        assert x !in rest;
      }
    }
  }

  lemma TwiceByCount(slots: seq<SlotWatch>, i: nat, j: nat)
    requires i < j < |slots| && slots[i] == slots[j]
    ensures multiset(slots)[slots[i]] >= 2
  {
    assert slots == slots[..j] + slots[j..];
    assert slots[..j][i] == slots[i] && slots[j..][0] == slots[i];
    assert slots[i] in multiset(slots[..j]) && slots[i] in multiset(slots[j..]);
  }

  /** Sorting one account's unique coordinates puts their slots in strict order. */
  lemma SortedIsAscending(config: seq<Coordinate>, address: Address, before: seq<SlotWatch>, after: seq<SlotWatch>)
    requires Unique(config) && Gathers(config, |config|, address, before) && Once(before)
    requires Rising(after) && multiset(after) == multiset(before)
    ensures Gathers(config, |config|, address, after) && Ascending(after)
  {
    SameMembers(before, after);
    OnceByCount(before);
    assert forall j :: 0 <= j < |after| ==> after[j] in before;
    forall i, j | 0 <= i < j < |after|
      ensures after[i].slot < after[j].slot
    {
      if after[i].slot == after[j].slot {
        assert config[after[i].key] == config[after[j].key];
        TwiceByCount(after, i, j);
      }
    }
  }

  // ----- Grouping -----

  /** The first `n` keys, grouped by account in order of configuration. */
  ghost predicate Grouped(config: seq<Coordinate>, n: nat, groups: map<Address, seq<SlotWatch>>)
    requires n <= |config|
  {
    && (forall k :: 0 <= k < n ==> config[k].address in groups)
    && (forall a :: a in groups ==> Gathers(config, n, a, groups[a]) && Once(groups[a]))
  }

  method Group(config: seq<Coordinate>) returns (groups: map<Address, seq<SlotWatch>>)
    ensures Grouped(config, |config|, groups)
  {
    groups := map[];
    var k := 0;
    while k < |config|
      invariant 0 <= k <= |config|
      invariant Grouped(config, k, groups)
    {
      var a := config[k].address;
      var entry := SlotWatch(config[k].slot, k);
      var slots := (if a in groups then groups[a] else []) + [entry];
      assert slots[|slots| - 1] == entry;
      GroupGrows(config, k, groups, slots);
      groups := groups[a := slots];
      k := k + 1;
    }
  }

  lemma GroupGrows(config: seq<Coordinate>, k: nat, groups: map<Address, seq<SlotWatch>>, slots: seq<SlotWatch>)
    requires k < |config| && Grouped(config, k, groups)
    requires var a := config[k].address;
             slots == (if a in groups then groups[a] else []) + [SlotWatch(config[k].slot, k)]
    ensures Grouped(config, k + 1, groups[config[k].address := slots])
  {
    var address := config[k].address;
    var entry := SlotWatch(config[k].slot, k);
    var before := if address in groups then groups[address] else [];
    assert Gathers(config, k, address, before) && Once(before);
    assert Gathers(config, k + 1, address, slots) by {
      assert slots[|before|] == entry;
      assert forall x :: x in before ==> x in slots;
    }
    forall a | a in groups && a != address
      ensures Gathers(config, k + 1, a, groups[a])
    {
    }
  }

  // ----- Compilation -----

  method IndexSlots(slots: seq<SlotWatch>) returns (index: map<Slot, nat>)
    requires Ascending(slots)
    ensures Indexes(slots, index)
  {
    index := map[];
    if |slots| > SLOT_INDEX_THRESHOLD {
      var j := 0;
      while j < |slots|
        invariant 0 <= j <= |slots|
        invariant forall i :: 0 <= i < j ==> slots[i].slot in index && index[slots[i].slot] == slots[i].key
        invariant forall s :: s in index ==> SlotWatch(s, index[s]) in slots
      {
        assert SlotWatch(slots[j].slot, slots[j].key) == slots[j];
        index := index[slots[j].slot := slots[j].key];
        j := j + 1;
      }
    }
  }

  predicate IsLeast(s: set<Address>, a: Address) { forall b :: b in s ==> a <= b }

  lemma {:induction false} HasLeast(s: set<Address>, x: Address)
    requires x in s
    ensures exists a :: a in s && IsLeast(s, a)
    decreases x
  {
    if b :| b in s && b < x {
      HasLeast(s, b);
    } else {
      assert IsLeast(s, x);
    }
  }

  ghost predicate InOrder(addresses: seq<AddressWatch>) {
    forall i, j :: 0 <= i < j < |addresses| ==> addresses[i].address < addresses[j].address
  }

  /** The index says where each account is listed. */
  ghost predicate Positions(addresses: seq<AddressWatch>, index: map<Address, nat>) {
    && (forall a :: a in index ==> index[a] < |addresses| && addresses[index[a]].address == a)
    && (forall i :: 0 <= i < |addresses| ==> addresses[i].address in index)
  }

  ghost predicate Below(addresses: seq<AddressWatch>, rest: set<Address>) {
    forall i, a :: 0 <= i < |addresses| && a in rest ==> addresses[i].address < a
  }

  lemma OrderGrows(addresses: seq<AddressWatch>, index: map<Address, nat>, rest: set<Address>, w: AddressWatch)
    requires InOrder(addresses) && Positions(addresses, index) && Below(addresses, rest)
    requires w.address in rest && IsLeast(rest, w.address)
    ensures InOrder(addresses + [w]) && Below(addresses + [w], rest - {w.address})
    ensures Positions(addresses + [w], index[w.address := |addresses|])
  {
    var longer, index2 := addresses + [w], index[w.address := |addresses|];
    forall i | 0 <= i < |longer|
      ensures longer[i].address in index2
    {
      assert i < |addresses| ==> longer[i] == addresses[i];
    }
  }

  /** The accounts in ascending order, each with its sorted slots and its reverse index. */
  method Compile(generation: Generation, config: seq<Coordinate>) returns (w: WatchSet)
    requires Unique(config)
    ensures Compiled(config, w) && w.generation == generation
  {
    hide Unique, Account, InOrder, Positions, Below, Grouped;
    var groups := Group(config);
    var addresses: seq<AddressWatch> := [];
    var index: map<Address, nat> := map[];
    var rest := groups.Keys;
    assert InOrder([]) && Positions([], map[]) && Below([], rest) by { NoneListed(rest); }
    while rest != {}
      invariant rest <= groups.Keys && index.Keys == groups.Keys - rest
      invariant forall i :: 0 <= i < |addresses| ==> Account(config, addresses[i])
      invariant InOrder(addresses) && Positions(addresses, index) && Below(addresses, rest)
      decreases |rest|
    {
      var some :| some in rest;
      HasLeast(rest, some);
      var a :| a in rest && IsLeast(rest, a);
      var slots := SortSlots(groups[a]);
      GroupFits(config, groups, a);
      SortedIsAscending(config, a, groups[a], slots);
      var slotToKey := IndexSlots(slots);
      var account := AddressWatch(a, slots, slotToKey);
      assert Account(config, account) by { AccountFits(config, account); }
      OrderGrows(addresses, index, rest, account);
      index := index[a := |addresses|];
      addresses := addresses + [account];
      rest := rest - {a};
    }
    w := WatchSet(generation, config, addresses, index);
    CompiledFits(config, groups, w);
  }

  lemma NoneListed(rest: set<Address>)
    ensures InOrder([]) && Positions([], map[]) && Below([], rest)
  {
  }

  lemma GroupFits(config: seq<Coordinate>, groups: map<Address, seq<SlotWatch>>, a: Address)
    requires Grouped(config, |config|, groups) && a in groups
    ensures Gathers(config, |config|, a, groups[a]) && Once(groups[a])
  {
  }

  lemma AccountFits(config: seq<Coordinate>, w: AddressWatch)
    requires Gathers(config, |config|, w.address, w.slots) && Ascending(w.slots) && Indexes(w.slots, w.slotToKey)
    ensures Account(config, w)
  {
  }

  lemma CompiledFits(config: seq<Coordinate>, groups: map<Address, seq<SlotWatch>>, w: WatchSet)
    requires Grouped(config, |config|, groups) && w.keys == config && w.addressToIndex.Keys == groups.Keys
    requires forall i :: 0 <= i < |w.addresses| ==> Account(config, w.addresses[i])
    requires InOrder(w.addresses) && Positions(w.addresses, w.addressToIndex)
    ensures Compiled(config, w)
  {
    hide Account, Gathers;
  }

  /** The account's watched slots, if it is watched: exactly when some key is configured on it. */
  function Lookup(w: WatchSet, a: Address): Option<AddressWatch> {
    if a in w.addressToIndex
       && w.addressToIndex[a] < |w.addresses| then Some(w.addresses[w.addressToIndex[a]]) else None
  }

  /** The position of a slot in ascending slots, if it is there. */
  method Search(slots: seq<SlotWatch>, slot: Slot) returns (key: Option<nat>)
    requires Ascending(slots)
    ensures key.Some? ==> SlotWatch(slot, key.value) in slots
    ensures key.None? ==> forall j :: 0 <= j < |slots| ==> slots[j].slot != slot
  {
    var lo, hi := 0, |slots|;
    while lo < hi
      invariant 0 <= lo <= hi <= |slots|
      invariant forall j :: 0 <= j < lo ==> slots[j].slot < slot
      invariant forall j :: hi <= j < |slots| ==> slot < slots[j].slot
    {
      var mid := (lo + hi) / 2;
      if slots[mid].slot == slot {
        assert slots[mid] == SlotWatch(slot, slots[mid].key);
        return Some(slots[mid].key);
      } else if slots[mid].slot < slot {
        lo := mid + 1;
      } else {
        hi := mid;
      }
    }
    key := None;
  }
}
