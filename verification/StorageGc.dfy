/** What garbage collection and resets remove from the store, and what they keep. */
module StorageGc {
  import opened Collections
  import opened Blocks
  import opened Sealing
  import opened Storage
  import opened StorageRuns

  /** The slots that garbage collection removes. */
  function Collectable(s: Store): set<nat> {
    s.replayed.Keys - DropWhileOver(s).replayed.Keys
  }

  /** `gone` are the smallest of the stored slots. */
  ghost predicate AreOldest(gone: set<nat>, stored: set<nat>) {
    gone <= stored && forall k, j :: k in gone && j in stored && j !in gone ==> k < j
  }

  /** `t` is the store without the slots in `gone`. */
  ghost predicate IsWithout(t: Store, s: Store, gone: set<nat>) {
    && t.replayed == s.replayed - gone && t.progressions == s.progressions - gone && t.processing == s.processing - gone
    && t.capacity == s.capacity && t.ready == s.ready && t.summaries == s.summaries && t.nextId == s.nextId
  }

  lemma OldestFirst(stored: set<nat>, oldest: nat, rest: set<nat>)
    requires oldest in stored && (forall k <- stored :: oldest <= k)
    requires AreOldest(rest, stored - {oldest})
    ensures AreOldest(rest + {oldest}, stored)
  {
  }

  lemma WithoutAgain<V>(m: map<nat, V>, x: nat, xs: set<nat>)
    ensures m - {x} - xs == m - (xs + {x})
  {
  }

  lemma KeysWithout<V>(m: map<nat, V>, gone: set<nat>)
    requires gone <= m.Keys
    ensures m.Keys - (m - gone).Keys == gone
  {
  }

  lemma WithoutOneMore(t: Store, s: Store, slot: nat, gone: set<nat>)
    requires IsWithout(t, Drop(s, slot), gone)
    ensures IsWithout(t, s, gone + {slot})
  {
    WithoutAgain(s.replayed, slot, gone);
    WithoutAgain(s.progressions, slot, gone);
    WithoutAgain(s.processing, slot, gone);
  }

  lemma GoneIs(t: Store, s: Store, gone: set<nat>)
    requires IsWithout(t, s, gone) && gone <= s.replayed.Keys
    ensures s.replayed.Keys - t.replayed.Keys == gone
  {
    KeysWithout(s.replayed, gone);
  }

  lemma OneMoreRemoved(s: Store, oldest: nat, t: Store, rest: set<nat>)
    requires oldest in s.replayed && forall k <- s.replayed :: oldest <= k
    requires AreOldest(rest, Drop(s, oldest).replayed.Keys) && IsWithout(t, Drop(s, oldest), rest)
    ensures AreOldest(rest + {oldest}, s.replayed.Keys) && IsWithout(t, s, rest + {oldest})
    ensures s.replayed.Keys - t.replayed.Keys == rest + {oldest}
  {
    WithoutOneMore(t, s, oldest, rest);
    assert Drop(s, oldest).replayed.Keys == s.replayed.Keys - {oldest};
    OldestFirst(s.replayed.Keys, oldest, rest);
    hide IsWithout;
    assert rest + {oldest} <= s.replayed.Keys;
    hide AreOldest;
    GoneIs(t, s, rest + {oldest});
  }

  lemma NothingRemoved(s: Store)
    ensures AreOldest({}, s.replayed.Keys) && IsWithout(s, s, {})
    ensures s.replayed.Keys - s.replayed.Keys == {}
  {
    assert s.replayed - {} == s.replayed && s.progressions - {} == s.progressions && s.processing - {} == s.processing;
  }

  lemma {:induction false} GcRemoves(s: Store)
    ensures AreOldest(Collectable(s), s.replayed.Keys) && IsWithout(DropWhileOver(s), s, Collectable(s))
    ensures OverCapacity(s) ==> Collectable(s) != {}
    decreases |s.replayed|
  {
    hide AreOldest;
    hide IsWithout;
    if OverCapacity(s) {
      var u := DropOldest(s);
      GcRemoves(u);
      assert DropWhileOver(u) == DropWhileOver(s);
      hide DropWhileOver;
      OneMoreRemoved(s, Smallest(s.replayed.Keys).value, DropWhileOver(u), Collectable(u));
    } else {
      NothingRemoved(s);
    }
  }

  lemma {:induction false} GcStops(s: Store)
    requires CountsAgree(s)
    ensures var t := DropWhileOver(s);
            && (|t.replayed| <= s.capacity || t.finalizedCount <= MINIMUM_FINALIZED_SLOT_TO_BUFFER)
            && (OverCapacity(s) ==> |t.replayed| >= s.capacity && t.finalizedCount >= MINIMUM_FINALIZED_SLOT_TO_BUFFER)
    decreases |s.replayed|
  {
    if OverCapacity(s) {
      var u := DropOldest(s);
      DropCounts(s, Smallest(s.replayed.Keys).value);
      hide CountsAgree;
      GcStops(u);
      assert |u.replayed| == |s.replayed| - 1 by {
        DroppedSize(s.replayed, Smallest(s.replayed.Keys).value);
      }
    }
  }

  lemma DroppedSize<V>(m: map<nat, V>, x: nat)
    requires x in m
    ensures |m - {x}| == |m| - 1
  {
    assert (m - {x}).Keys == m.Keys - {x};
    assert |m.Keys| == |m| && |(m - {x}).Keys| == |m - {x}|;
  }

  /** Garbage collection removes the smallest stored slots from every index and leaves all else. It
      ends with a store that fits its capacity or holds at most ten finalized slots, and does nothing
      to one that already did; and what it thins out is still filled to its capacity and still has
      ten finalized slots. */
  lemma GcRemovesOldest(s: Store)
    requires CountsAgree(s)
    ensures var t, gone := DropWhileOver(s), Collectable(s);
            && AreOldest(gone, s.replayed.Keys) && IsWithout(t, s, gone)
            && (|t.replayed| <= s.capacity || t.finalizedCount <= MINIMUM_FINALIZED_SLOT_TO_BUFFER)
            && (gone != {} <==> |s.replayed| > s.capacity && s.finalizedCount > MINIMUM_FINALIZED_SLOT_TO_BUFFER)
            && (gone == {} ==> t == s)
            && (gone != {} ==> |t.replayed| >= s.capacity && t.finalizedCount >= MINIMUM_FINALIZED_SLOT_TO_BUFFER)
  {
    GcRemoves(s);
    GcStops(s);
    hide IsWithout;
    hide AreOldest;
    if !OverCapacity(s) {
      assert DropWhileOver(s) == s;
      assert Collectable(s) == {};
    }
  }

  /** Finalized slots that are not stored still count towards the ten that are kept. */
  function Phantoms(s: Store): set<nat> {
    FinalizedSlots(s.progressions) - s.replayed.Keys
  }

  function StoredFinalized(s: Store): set<nat> {
    FinalizedSlots(s.progressions) * s.replayed.Keys
  }

  lemma CountIsSplit(s: Store)
    requires CountsAgree(s)
    ensures s.finalizedCount == |StoredFinalized(s)| + |Phantoms(s)|
  {
    var all := FinalizedSlots(s.progressions);
    assert all == StoredFinalized(s) + Phantoms(s);
  }

  lemma PhantomsStay(t: Store, s: Store, gone: set<nat>)
    requires IsWithout(t, s, gone) && gone <= s.replayed.Keys
    ensures Phantoms(t) == Phantoms(s)
  {
    hide Knows;
  }

  lemma {:induction false} GcKeepsCounts(s: Store)
    requires CountsAgree(s)
    ensures CountsAgree(DropWhileOver(s))
    decreases |s.replayed|
  {
    if OverCapacity(s) {
      DropCounts(s, Smallest(s.replayed.Keys).value);
      hide CountsAgree;
      GcKeepsCounts(DropOldest(s));
    }
  }

  /** How many finalized slots stay available for replay when garbage collection removes something: ten,
      less the finalized slots that are not stored. All ten are guaranteed if there are none of these. */
  lemma FinalizedStayStored(s: Store)
    requires CountsAgree(s) && Collectable(s) != {}
    ensures |StoredFinalized(DropWhileOver(s))| >= MINIMUM_FINALIZED_SLOT_TO_BUFFER - |Phantoms(s)|
    ensures FinalizedSlots(s.progressions) <= s.replayed.Keys ==>
              |StoredFinalized(DropWhileOver(s))| >= MINIMUM_FINALIZED_SLOT_TO_BUFFER
  {
    GcRemovesOldest(s);
    var t := DropWhileOver(s);
    PhantomsStay(t, s, Collectable(s));
    GcKeepsCounts(s);
    CountIsSplit(t);
    if FinalizedSlots(s.progressions) <= s.replayed.Keys {
      assert Phantoms(s) == {};
    }
  }

  /** The `n` greatest of the stored slots. */
  function NewestSlots(stored: set<nat>, n: nat): (newest: set<nat>)
    ensures newest <= stored && AreOldest(stored - newest, stored)
    ensures |newest| == if n <= |stored| then n else |stored|
  {
    if |stored| <= n then stored
    else
      var oldest := Smallest(stored).value;
      var newest := NewestSlots(stored - {oldest}, n);
      OldestFirst(stored, oldest, stored - {oldest} - newest);
      assert stored - {oldest} - newest + {oldest} == stored - newest;
      newest
  }

  /** What is left when the oldest slots go is the larger, the fewer go. */
  lemma FewerOldest(kept: set<nat>, more: set<nat>, stored: set<nat>)
    requires kept <= stored && more <= stored && AreOldest(stored - kept, stored) && AreOldest(stored - more, stored)
    requires |kept| <= |more|
    ensures kept <= more
  {
    if x :| x in kept && x !in more {
      assert x in stored - more && x !in stored - kept && |kept - {x}| == |kept| - 1;
      forall k <- more ensures k in kept {
        assert k !in stored - more && (k in kept || k in stored - kept);
      }
      SubsetCardinality(more, kept - {x});
    }
  }

  lemma SameSize(a: set<nat>, b: set<nat>)
    requires a <= b && |a| == |b|
    ensures a == b
  {
    SubsetCardinality(b - a, b - a);
    assert b == a + (b - a) && |b| == |a| + |b - a|;
  }

  lemma LeftStored(t: Store, s: Store, gone: set<nat>)
    requires IsWithout(t, s, gone) && AreOldest(gone, s.replayed.Keys)
    ensures t.replayed.Keys <= s.replayed.Keys && AreOldest(s.replayed.Keys - t.replayed.Keys, s.replayed.Keys)
    ensures StoredFinalized(t) == FinalizedSlots(s.progressions) * t.replayed.Keys
  {
    hide Knows;
    assert t.replayed.Keys == s.replayed.Keys - gone && t.progressions.Keys == s.progressions.Keys - gone;
    assert s.replayed.Keys - t.replayed.Keys == gone;
  }

  lemma KeptCount(counted: set<nat>, kept: set<nat>, newest: set<nat>, phantoms: nat, n: nat)
    requires newest <= kept && (|counted * kept| + phantoms > n ==> kept == newest)
    requires |counted * kept| + phantoms >= n
    ensures |counted * kept| >= n <==> phantoms == 0 || |counted * newest| >= n
  {
    SubsetCardinality(counted * newest, counted * kept);
  }

  /** When garbage collection removes something, ten finalized slots stay available for replay if and only
      if there are no finalized slots that are not stored, or ten finalized ones among the `capacity`
      newest stored slots. */
  lemma TenStayStored(s: Store)
    requires CountsAgree(s) && Collectable(s) != {}
    ensures |StoredFinalized(DropWhileOver(s))| >= MINIMUM_FINALIZED_SLOT_TO_BUFFER <==>
            || Phantoms(s) == {}
            || |FinalizedSlots(s.progressions) * NewestSlots(s.replayed.Keys, s.capacity)| >=
               MINIMUM_FINALIZED_SLOT_TO_BUFFER
  {
    var t, stored := DropWhileOver(s), s.replayed.Keys;
    var newest := NewestSlots(stored, s.capacity);
    GcRemovesOldest(s);
    PhantomsStay(t, s, Collectable(s));
    GcKeepsCounts(s);
    CountIsSplit(t);
    LeftStored(t, s, Collectable(s));
    assert |stored| == |s.replayed| && |t.replayed.Keys| == |t.replayed|;
    hide IsWithout;
    hide AreOldest;
    hide CountsAgree;
    hide Collectable;
    FewerOldest(newest, t.replayed.Keys, stored);
    if |t.replayed.Keys| == s.capacity {
      SameSize(newest, t.replayed.Keys);
    }
    KeptCount(FinalizedSlots(s.progressions), t.replayed.Keys, newest, |Phantoms(s)|, MINIMUM_FINALIZED_SLOT_TO_BUFFER);
  }

  // ---------- a store in which nothing finalized remains ----------

  /** The Finalized statuses of `n` slots. */
  function FinalizedStatuses(n: nat): seq<Input> {
    if n == 0 then [] else FinalizedStatuses(n - 1) + [FinalizedStatus(n - 1)]
  }

  function FinalizedStatus(slot: nat): Input {
    OutputIn(SlotStatus(StatusUpdate(slot, 0, Finalized)))
  }

  /** A block of one entry. */
  function BlockInputs(slot: nat): seq<Input> {
    [BlockDataIn(Entry(slot, 0), true)] + [BlockMetaIn(BlockMeta(slot, 0, "hash", 0, 1))] + [OutputIn(Frozen(slot))]
  }

  function ManyBlocks(first: nat, count: nat): seq<Input> {
    if count == 0 then [] else ManyBlocks(first, count - 1) + BlockInputs(first + count - 1)
  }

  /** `count` slots from `first` on. */
  function Slots(first: nat, count: nat): (slots: set<nat>)
    ensures forall k: nat :: k in slots <==> first <= k < first + count
    ensures |slots| == count
  {
    if count == 0 then {} else Slots(first, count - 1) + {first + count - 1}
  }

  lemma AcceptSnoc(start: Store, inputs: seq<Input>, i: Input)
    requires AcceptAll(start, inputs).Some? && LegalRun(start, inputs) && Legal(AcceptAll(start, inputs).value, i)
    requires i.OutputIn? ==> CanFreeze(AcceptAll(start, inputs).value, i.output)
    ensures LegalRun(start, inputs + [i])
    ensures AcceptAll(start, inputs + [i]) == Some(Accept(AcceptAll(start, inputs).value, i))
  {
    assert Front(inputs + [i]) == inputs;
  }

  /** The store holds the frozen slots from `n` on, and has seen the Finalized statuses of the `n` before. */
  ghost predicate HoldsBlocks(r: Option<Store>, capacity: nat, n: nat, count: nat) {
    && r.Some? && r.value.capacity == capacity && r.value.processing == map[]
    && r.value.replayed.Keys == Slots(n, count)
    && r.value.finalizedCount == n && forall k <- r.value.progressions :: k < n
  }

  lemma OneMoreStatus(s: Store, capacity: nat, n: nat)
    requires HoldsBlocks(Some(s), capacity, n, 0)
    ensures HoldsBlocks(Some(Accept(s, FinalizedStatus(n))), capacity, n + 1, 0)
  {
    var t := Record(s, StatusUpdate(n, 0, Finalized));
    assert |t.replayed| == |t.replayed.Keys| == 0;
    assert t.finalizedCount == n + 1 && DropWhileOver(t) == t;
  }

  lemma NothingYet(capacity: nat)
    ensures LegalRun(Initial(capacity), []) && AcceptAll(Initial(capacity), []).Some?
    ensures HoldsBlocks(AcceptAll(Initial(capacity), []), capacity, 0, 0)
  {
  }

  lemma IsLegal(s: Store, slot: nat)
    ensures Legal(s, FinalizedStatus(slot)) && CanFreeze(s, FinalizedStatus(slot).output)
  {
  }

  lemma StatusesSnoc(n: nat)
    ensures FinalizedStatuses(0) == [] && FinalizedStatuses(n + 1) == FinalizedStatuses(n) + [FinalizedStatus(n)]
  {
  }

  lemma {:induction false} OnlyStatuses(capacity: nat, n: nat)
    ensures LegalRun(Initial(capacity), FinalizedStatuses(n))
    ensures AcceptAll(Initial(capacity), FinalizedStatuses(n)).Some?
    ensures HoldsBlocks(AcceptAll(Initial(capacity), FinalizedStatuses(n)), capacity, n, 0)
  {
    hide *;
    if n == 0 {
      StatusesSnoc(0);
      NothingYet(capacity);
    } else {
      OnlyStatuses(capacity, n - 1);
      StatusesSnoc(n - 1);
      var before := FinalizedStatuses(n - 1);
      var s := AcceptAll(Initial(capacity), before).value;
      IsLegal(s, n - 1);
      OneMoreStatus(s, capacity, n - 1);
      AcceptSnoc(Initial(capacity), before, FinalizedStatus(n - 1));
    }
  }

  /** A block of one entry goes into the store. */
  lemma BlockIsStored(s: Store, slot: nat)
    requires slot !in s.replayed && s.processing == map[]
    ensures var b := BlockInputs(slot);
            var s1 := Accept(s, b[0]);
            var s2 := Accept(s1, b[1]);
            && Legal(s1, b[1]) && Legal(s2, b[2]) && CanFreeze(s2, Frozen(slot))
            && var s3 := Accept(s2, b[2]);
               && s3.replayed.Keys == s.replayed.Keys + {slot} && s3.processing == map[] && s3.capacity == s.capacity
               && s3.finalizedCount == s.finalizedCount && s3.progressions == s.progressions
  {
    var e, m := Entry(slot, 0), BlockMeta(slot, 0, "hash", 0, 1);
    var b := EMPTY_BUFFER.(messages := [e], entries := [e]);
    assert [] + [e] == [e] && AddEvent(EMPTY_BUFFER, e) == b;
    var s1 := Accept(s, BlockDataIn(e, true));
    assert s1.processing == map[slot := b];
    var s2 := Accept(s1, BlockMetaIn(m));
    assert s2.processing == map[slot := b.(meta := Some(m), isSealed := true)];
    hide Seal;
    assert Accept(s2, OutputIn(Frozen(slot))).replayed.Keys == s.replayed.Keys + {slot};
  }

  lemma BlockIsAccepted(start: Store, a: seq<Input>, slot: nat)
    requires LegalRun(start, a) && AcceptAll(start, a).Some?
    requires slot !in AcceptAll(start, a).value.replayed && AcceptAll(start, a).value.processing == map[]
    ensures LegalRun(start, a + BlockInputs(slot)) && AcceptAll(start, a + BlockInputs(slot)).Some?
    ensures var s, t := AcceptAll(start, a).value, AcceptAll(start, a + BlockInputs(slot)).value;
            && t.replayed.Keys == s.replayed.Keys + {slot} && t.processing == map[] && t.capacity == s.capacity
            && t.finalizedCount == s.finalizedCount && t.progressions == s.progressions
  {
    var b := BlockInputs(slot);
    BlockIsStored(AcceptAll(start, a).value, slot);
    assert a + b == a + [b[0]] + [b[1]] + [b[2]];
    hide *;
    AcceptSnoc(start, a, b[0]);
    AcceptSnoc(start, a + [b[0]], b[1]);
    AcceptSnoc(start, a + [b[0]] + [b[1]], b[2]);
  }

  lemma ManyBlocksSnoc(n: nat, count: nat)
    ensures ManyBlocks(n, 0) == [] && ManyBlocks(n, count + 1) == ManyBlocks(n, count) + BlockInputs(n + count)
  {
  }

  lemma SlotsSnoc(first: nat, count: nat)
    ensures Slots(first, count + 1) == Slots(first, count) + {first + count}
  {
  }

  lemma HoldsIs(s: Store, capacity: nat, n: nat, count: nat)
    ensures HoldsBlocks(Some(s), capacity, n, count) <==>
            && s.capacity == capacity && s.processing == map[] && s.replayed.Keys == Slots(n, count)
            && s.finalizedCount == n && forall k <- s.progressions :: k < n
  {
    hide Slots;
  }

  lemma OneMoreBlock(s: Store, t: Store, capacity: nat, n: nat, count: nat)
    requires HoldsBlocks(Some(s), capacity, n, count)
    requires t.replayed.Keys == s.replayed.Keys + {n + count} && t.processing == map[] && t.capacity == s.capacity
    requires t.finalizedCount == s.finalizedCount && t.progressions == s.progressions
    ensures HoldsBlocks(Some(t), capacity, n, count + 1)
  {
    hide *;
    SlotsSnoc(n, count);
    HoldsIs(s, capacity, n, count);
    HoldsIs(t, capacity, n, count + 1);
  }

  lemma NextIsNew(s: Store, capacity: nat, n: nat, count: nat)
    requires HoldsBlocks(Some(s), capacity, n, count)
    ensures n + count !in s.replayed && s.processing == map[]
  {
  }

  lemma {:induction false} BlocksAreStored(capacity: nat, n: nat, count: nat)
    ensures var inputs := FinalizedStatuses(n) + ManyBlocks(n, count);
            && LegalRun(Initial(capacity), inputs) && AcceptAll(Initial(capacity), inputs).Some?
            && HoldsBlocks(AcceptAll(Initial(capacity), inputs), capacity, n, count)
  {
    hide *;
    if count == 0 {
      ManyBlocksSnoc(n, 0);
      assert FinalizedStatuses(n) + [] == FinalizedStatuses(n);
      OnlyStatuses(capacity, n);
    } else {
      var before, slot := FinalizedStatuses(n) + ManyBlocks(n, count - 1), n + count - 1;
      BlocksAreStored(capacity, n, count - 1);
      ManyBlocksSnoc(n, count - 1);
      Associative(FinalizedStatuses(n), ManyBlocks(n, count - 1), BlockInputs(slot));
      var s := AcceptAll(Initial(capacity), before).value;
      NextIsNew(s, capacity, n, count - 1);
      BlockIsAccepted(Initial(capacity), before, slot);
      OneMoreBlock(s, AcceptAll(Initial(capacity), before + BlockInputs(slot)).value, capacity, n, count - 1);
    }
  }

  lemma SlotsRest(slots: set<nat>, first: nat, count: nat)
    requires slots == Slots(first, count + 1)
    ensures slots - {first} == Slots(first + 1, count) && |Slots(first + 1, count)| == count
    ensures Smallest(slots) == Some(first) && |slots| == count + 1
  {
  }

  lemma KeysCount<V>(m: map<nat, V>)
    ensures |m| == |m.Keys|
  {
  }

  lemma OneIsDropped(t: Store, n: nat)
    requires t.replayed.Keys == Slots(n, t.capacity + 1) && t.finalizedCount > MINIMUM_FINALIZED_SLOT_TO_BUFFER
    requires forall k <- t.progressions :: k <= n
    ensures var u := DropWhileOver(t);
            && u.replayed.Keys == Slots(n + 1, t.capacity) && forall k <- u.progressions :: k < n
  {
    SlotsRest(t.replayed.Keys, n, t.capacity);
    hide Slots;
    hide Smallest;
    var u := Drop(t, n);
    assert u.replayed.Keys == t.replayed.Keys - {n};
    KeysCount(t.replayed);
    KeysCount(u.replayed);
    assert DropOldest(t) == u && DropWhileOver(u) == u;
  }

  lemma NoneInCommon(s: Store, n: nat, count: nat)
    requires s.replayed.Keys == Slots(n + 1, count) && forall k <- s.progressions :: k < n
    ensures StoredFinalized(s) == {}
  {
    hide Knows;
  }

  /** The status that makes the first of the stored slots a finalized one. */
  lemma FirstIsCollected(s: Store, capacity: nat, n: nat)
    requires HoldsBlocks(Some(s), capacity, n, capacity + 1)
    ensures var t := Accept(s, FinalizedStatus(n));
            if n >= 10 then t.replayed.Keys == Slots(n + 1, capacity) && StoredFinalized(t) == {}
            else t.replayed.Keys == Slots(n, capacity + 1) && n in StoredFinalized(t)
  {
    var t := Record(s, StatusUpdate(n, 0, Finalized));
    FirstIsRecorded(s, capacity, n);
    hide Record;
    hide HoldsBlocks;
    hide Slots;
    if n >= 10 {
      OneIsDropped(t, n);
      NoneInCommon(DropWhileOver(t), n, capacity);
      hide StoredFinalized;
    } else {
      assert DropWhileOver(t) == t && n in Slots(n, capacity + 1);
    }
    hide DropWhileOver;
  }

  lemma FirstIsRecorded(s: Store, capacity: nat, n: nat)
    requires HoldsBlocks(Some(s), capacity, n, capacity + 1)
    ensures var t := Record(s, StatusUpdate(n, 0, Finalized));
            && t.finalizedCount == n + 1 && t.replayed.Keys == Slots(n, capacity + 1) && t.capacity == capacity
            && (forall k <- t.progressions :: k <= n)
            && n in t.progressions && Knows(t.progressions[n], Finalized)
  {
    hide Slots;
    var t := Record(s, StatusUpdate(n, 0, Finalized));
    assert t.progressions[n].commitment == [StatusUpdate(n, 0, Finalized)];
    assert t.progressions[n].commitment[0] in t.progressions[n].commitment;
  }

  /** Finalized statuses of ten slots that are never frozen are enough, at every capacity: after `n` of them,
      fill the store with one block more than it keeps, and let the first of these be finalized. If `n` is
      ten or more, exactly that one is removed, and no finalized slot remains stored. */
  lemma NoneFinalizedRemains(capacity: nat, n: nat)
    ensures var inputs := FinalizedStatuses(n) + ManyBlocks(n, capacity + 1) + [FinalizedStatus(n)];
            var r := AcceptAll(Initial(capacity), inputs);
            && LegalRun(Initial(capacity), inputs) && r.Some?
            && if n >= 10 then r.value.replayed.Keys == Slots(n + 1, capacity) && StoredFinalized(r.value) == {}
               else r.value.replayed.Keys == Slots(n, capacity + 1) && n in StoredFinalized(r.value)
  {
    hide *;
    var before := FinalizedStatuses(n) + ManyBlocks(n, capacity + 1);
    BlocksAreStored(capacity, n, capacity + 1);
    var s := AcceptAll(Initial(capacity), before).value;
    IsLegal(s, n);
    FirstIsCollected(s, capacity, n);
    AcceptSnoc(Initial(capacity), before, FinalizedStatus(n));
  }

  // ---------- what a reset forgets ----------

  ghost predicate Mentions(s: Store, slot: nat) {
    || slot in s.processing || slot in s.replayed || slot in s.progressions || s.minSlot == Some(slot)
    || exists r <- s.ready :: r.update.slot == slot || r.block.meta.slot == slot
  }

  ghost predicate SameElsewhere(t: Store, s: Store, slot: nat) {
    forall other | other != slot ::
      && Lookup(t.processing, other) == Lookup(s.processing, other)
      && Lookup(t.replayed, other) == Lookup(s.replayed, other)
      && Lookup(t.progressions, other) == Lookup(s.progressions, other)
  }

  lemma ResetReady(s: Store, slot: nat)
    requires SlotsAgree(s)
    ensures Reset(s, slot).ready == Filter(s.ready, (r: Ready) => r.update.slot != slot)
    ensures forall r <- Reset(s, slot).ready :: r.update.slot != slot && r.block.meta.slot != slot
  {
    assert forall r <- s.ready :: r.block.meta.slot == r.update.slot;
    FilterCong(s.ready, (r: Ready) => r.block.meta.slot != slot, (r: Ready) => r.update.slot != slot);
    hide SlotsAgree;
  }

  lemma PruneForgets(s: Store, slot: nat)
    ensures var t := Prune(s, slot);
            slot !in t.processing && slot !in t.replayed && slot !in t.progressions && t.minSlot != Some(slot)
    ensures SameElsewhere(Prune(s, slot), s, slot)
  {
    assert slot !in (s.replayed - {slot}).Keys;
  }

  /** After BankReset nothing mentions the slot, and every other slot is as it was. */
  lemma ResetForgets(s: Store, slot: nat)
    requires SlotsAgree(s)
    ensures !Mentions(Reset(s, slot), slot)
    ensures SameElsewhere(Reset(s, slot), s, slot)
    ensures Reset(s, slot).ready == Filter(s.ready, (r: Ready) => r.update.slot != slot)
  {
    PruneForgets(s, slot);
    ResetReady(s, slot);
    hide SlotsAgree;
    hide Filter;
    hide Prune;
  }

  // ---------- collecting is not disturbed by the other slots ----------

  /** What arrives for the slot, in order. */
  function ArrivalsOf(inputs: seq<Input>, slot: nat): seq<Arrival> {
    if inputs == [] then []
    else
      ArrivalsOf(Front(inputs), slot) +
      match Last(inputs)
      case BlockDataIn(e, tracked) => if tracked && e.slot == slot then [Data(e)] else []
      case BlockMetaIn(m) => if m.slot == slot then [Meta(m)] else []
      case OutputIn(_) => []
  }

  /** The state machine has said nothing about the slot but its statuses. */
  predicate Untouched(inputs: seq<Input>, slot: nat) {
    forall i <- inputs | i.OutputIn? :: i.output.SlotOf() == slot ==> i.output.SlotStatus? || i.output.BankCreated?
  }

  lemma ArriveBuffer(c: Collector, d: Collector, a: Arrival)
    requires c.buffer == d.buffer
    ensures Arrive(c, a).buffer == Arrive(d, a).buffer
  {
    hide AddEvent;
    hide TrySeal;
  }

  lemma CollectSkips(inputs: seq<Input>, slot: nat)
    requires inputs != []
    ensures var i := Last(inputs);
            var before, after := Collect(ArrivalsOf(Front(inputs), slot)), Collect(ArrivalsOf(inputs, slot));
            match i
            case BlockDataIn(e, tracked) =>
              after == if tracked && e.slot == slot then Arrive(before, Data(e)) else before
            case BlockMetaIn(m) => after == if m.slot == slot then Arrive(before, Meta(m)) else before
            case OutputIn(_) => after == before
  {
    var arrivals := ArrivalsOf(Front(inputs), slot);
    hide Arrive;
    assert arrivals + [] == arrivals;
    match Last(inputs) {
      case BlockDataIn(e, _) => CollectSnoc(arrivals, Data(e));
      case BlockMetaIn(m) => CollectSnoc(arrivals, Meta(m));
      case OutputIn(_) =>
    }
  }

  lemma StatusLeavesCollector(s: Store, u: StatusUpdate, slot: nat)
    requires slot !in s.replayed
    ensures Lookup(OnStatus(s, u).processing, slot) == Lookup(s.processing, slot) && slot !in OnStatus(s, u).replayed
  {
    if u.commitment.Finalized? {
      GcRemoves(Record(s, u));
      hide DropWhileOver;
    }
  }

  lemma OutputLeavesCollector(s: Store, o: Output, slot: nat)
    requires CanFreeze(s, o) && slot !in s.replayed
    requires o.SlotOf() == slot ==> o.SlotStatus? || o.BankCreated?
    ensures Lookup(OnOutput(s, o).processing, slot) == Lookup(s.processing, slot) && slot !in OnOutput(s, o).replayed
  {
    if o.SlotStatus? {
      StatusLeavesCollector(s, o.update, slot);
      hide OnStatus;
    }
  }

  lemma InputCollects(s: Store, i: Input, slot: nat, c: Collector)
    requires i.OutputIn? ==>
               CanFreeze(s, i.output) && (i.output.SlotOf() == slot ==> i.output.SlotStatus? || i.output.BankCreated?)
    requires slot !in s.replayed && Lookup(s.processing, slot) == c.buffer
    ensures slot !in Accept(s, i).replayed
    ensures Lookup(Accept(s, i).processing, slot) ==
            match i
            case BlockDataIn(e, tracked) => if tracked && e.slot == slot then Arrive(c, Data(e)).buffer else c.buffer
            case BlockMetaIn(m) => if m.slot == slot then Arrive(c, Meta(m)).buffer else c.buffer
            case OutputIn(_) => c.buffer
  {
    var d := Collector(Lookup(s.processing, slot), s.summaries);
    match i {
      case BlockDataIn(e, _) =>
        ArriveBuffer(c, d, Data(e));
        hide Attempt;
        hide AddEvent;
      case BlockMetaIn(m) =>
        ArriveBuffer(c, d, Meta(m));
        hide Attempt;
      case OutputIn(o) =>
        OutputLeavesCollector(s, o, slot);
        hide OnOutput;
    }
  }

  /** Until the state machine freezes or forgets a slot, its collector is what its own arrivals make of
      it, whatever happens to the other slots: garbage collection never touches parts being collected. */
  lemma {:induction false} CollectorOfRun(capacity: nat, inputs: seq<Input>, slot: nat)
    requires Untouched(inputs, slot) && AcceptAll(Initial(capacity), inputs).Some?
    ensures var s := AcceptAll(Initial(capacity), inputs).value;
            slot !in s.replayed && Lookup(s.processing, slot) == Collect(ArrivalsOf(inputs, slot)).buffer
  {
    if inputs != [] {
      var front, i := Front(inputs), Last(inputs);
      assert forall x <- front :: x in inputs;
      assert i in inputs;
      CollectorOfRun(capacity, front, slot);
      CollectSkips(inputs, slot);
      InputCollects(AcceptAll(Initial(capacity), front).value, i, slot, Collect(ArrivalsOf(front, slot)));
      hide Accept;
      hide Arrive;
      hide ArrivalsOf;
      hide Collect;
    }
  }

  /** From the parts of a slot to its frozen block: the block is of the BlockMeta in force and holds
      exactly the data that arrived for the slot, in order, without outdated accounts. */
  lemma FrozenIsWhatArrived(capacity: nat, inputs: seq<Input>, slot: nat)
    requires Untouched(inputs, slot) && AcceptAll(Initial(capacity), inputs).Some?
    requires var s := AcceptAll(Initial(capacity), inputs).value; slot in s.processing && CanFreeze(s, Frozen(slot))
    ensures var arrivals := ArrivalsOf(inputs, slot);
            var t := OnFrozen(AcceptAll(Initial(capacity), inputs).value, slot);
            && slot in t.replayed
            && t.replayed[slot].messages == WithoutOutdated(DataOf(arrivals))
            && Some(t.replayed[slot].meta) == MetaInForce(arrivals)
  {
    var s := AcceptAll(Initial(capacity), inputs).value;
    CollectorOfRun(capacity, inputs, slot);
    SealsWhenComplete(ArrivalsOf(inputs, slot));
    SealedBlock(s.processing[slot], s.nextId);
    hide AcceptAll;
    hide WithoutOutdated;
    hide Collect;
    hide ArrivalsOf;
    hide SealedRight;
  }
}
