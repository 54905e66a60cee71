/** The server's store of slots: those being collected, those frozen and replayable, and the
    commitment statuses seen for each. `BlockMachineStorage` updates in place what `Storage` is. */
module Storage {
  import opened Collections
  import opened Blocks
  import opened Sealing

  datatype CommitmentLevel = Processed | Confirmed | Finalized

  datatype Ordering = Less | Equal | Greater

  function CmpCommitmentLevel(a: CommitmentLevel, b: CommitmentLevel): Ordering {
    match (a, b)
    case (Processed, Processed) => Equal
    case (Confirmed, Confirmed) => Equal
    case (Finalized, Finalized) => Equal
    case (Processed, _) => Less
    case (_, Processed) => Greater
    case (Confirmed, Finalized) => Less
    case (Finalized, Confirmed) => Greater
  }

  datatype StatusUpdate = StatusUpdate(slot: nat, parentSlot: nat, commitment: CommitmentLevel)

  datatype Progression = Progression(commitment: seq<StatusUpdate>, maxCommitment: CommitmentLevel)

  /** A status whose block is frozen, waiting to be published. */
  datatype Ready = Ready(update: StatusUpdate, block: FrozenBlock)

  /** What the external state machine tells the store. */
  datatype Output =
    | Frozen(slot: nat)
    | SlotStatus(update: StatusUpdate)
    | ForksDetected(slot: nat)
    | DeadSlotDetected(slot: nat)
    | BankCreated(slot: nat)
    | BankReset(slot: nat)
  {
    function SlotOf(): nat {
      if SlotStatus? then update.slot else slot
    }
  }

  const MINIMUM_FINALIZED_SLOT_TO_BUFFER := 10

  datatype Store = Store(
    processing: map<nat, SlotBuffer>,
    replayed: map<nat, FrozenBlock>,
    progressions: map<nat, Progression>,
    capacity: nat,
    ready: seq<Ready>,
    minSlot: Option<nat>,
    finalizedCount: nat,
    summaries: seq<BlockMeta>,
    nextId: nat)

  function Initial(capacity: nat): Store {
    Store(map[], map[], map[], capacity, [], None, 0, [], 0)
  }

  function Lookup<V>(m: map<nat, V>, key: nat): Option<V> {
    if key in m then Some(m[key]) else None
  }

  lemma SmallestExists(s: set<nat>, x: nat)
    requires x in s
    ensures exists least :: least in s && forall y <- s :: least <= y
    decreases x
  {
    if y :| y in s && y < x {
      SmallestExists(s, y);
    } else {
      assert forall y <- s :: x <= y;
    }
  }

  /** The first key of an ordered map. */
  function Smallest(s: set<nat>): (r: Option<nat>)
    ensures r.None? <==> s == {}
    ensures r.Some? ==> r.value in s && forall y <- s :: r.value <= y
  {
    if s == {} then None
    else
      assert exists x :: x in s && forall y <- s :: x <= y by {
        var x :| x in s;
        SmallestExists(s, x);
      }
      var x :| x in s && forall y <- s :: x <= y;
      Some(x)
  }

  function RefreshMin(s: Store): Store {
    s.(minSlot := Smallest(s.replayed.Keys))
  }

  /** Forgets a slot. */
  function Drop(s: Store, slot: nat): Store {
    var finalized := slot in s.progressions && s.progressions[slot].maxCommitment.Finalized?;
    s.(processing := s.processing - {slot}, replayed := s.replayed - {slot}, progressions := s.progressions - {slot},
       finalizedCount := if finalized && s.finalizedCount > 0 then s.finalizedCount - 1 else s.finalizedCount)
  }

  function Prune(s: Store, slot: nat): Store {
    RefreshMin(Drop(s, slot))
  }

  function Reset(s: Store, slot: nat): Store {
    var t := Prune(s, slot);
    t.(ready := Filter(t.ready, (r: Ready) => r.block.meta.slot != slot))
  }

  predicate OverCapacity(s: Store) {
    |s.replayed| > s.capacity && s.finalizedCount > MINIMUM_FINALIZED_SLOT_TO_BUFFER
  }

  function DropOldest(s: Store): Store
    requires OverCapacity(s)
  {
    Drop(s, Smallest(s.replayed.Keys).value)
  }

  function DropWhileOver(s: Store): Store
    decreases |s.replayed|
  {
    if OverCapacity(s) then DropWhileOver(DropOldest(s)) else s
  }

  function Gc(s: Store): Store {
    RefreshMin(DropWhileOver(s))
  }

  /** What arrives for `slot` reaches its collector. */
  function Collected(s: Store, slot: nat, a: Arrival): Store {
    var c := Arrive(Collector(Lookup(s.processing, slot), s.summaries), a);
    s.(processing := if c.buffer.Some? then s.processing[slot := c.buffer.value] else s.processing,
       summaries := c.summaries)
  }

  function WithCollector(s: Store, slot: nat): Store {
    s.(processing := s.processing[slot := EMPTY_BUFFER])
  }

  lemma FirstEvent(s: Store, e: BlockData)
    requires e.slot !in s.processing
    ensures Collected(WithCollector(s, e.slot), e.slot, Data(e)) == Collected(s, e.slot, Data(e))
  {
    hide AddEvent;
    hide TrySeal;
    var b := Collected(s, e.slot, Data(e)).processing[e.slot];
    assert s.processing[e.slot := EMPTY_BUFFER][e.slot := b] == s.processing[e.slot := b];
  }

  function OnData(s: Store, e: BlockData, tracked: bool): Store {
    if !tracked || e.slot in s.replayed then s else Collected(s, e.slot, Data(e))
  }

  function OnMeta(s: Store, m: BlockMeta): Store {
    if m.slot !in s.processing then s else Collected(s, m.slot, Meta(m))
  }

  /** Freezing takes the BlockMeta out of the collector, and panics when it is not there. */
  predicate CanFreeze(s: Store, o: Output) {
    o.Frozen? && o.slot in s.processing ==> s.processing[o.slot].meta.Some?
  }

  function Stored(s: Store, slot: nat, block: FrozenBlock): Store {
    s.(replayed := s.replayed[slot := block],
       minSlot := if s.minSlot.None? || slot < s.minSlot.value then Some(slot) else s.minSlot,
       nextId := s.nextId + 1)
  }

  function OnFrozen(s: Store, slot: nat): Store
    requires CanFreeze(s, Frozen(slot))
  {
    if slot !in s.processing then s
    else Stored(s.(processing := s.processing - {slot}), slot, Seal(s.processing[slot], s.nextId))
  }

  predicate Knows(p: Progression, level: CommitmentLevel) {
    exists u <- p.commitment :: u.commitment == level
  }

  function Progress(p: Option<Progression>, u: StatusUpdate): Progression {
    match p
    case None => Progression([u], u.commitment)
    case Some(p) =>
      Progression(if Knows(p, u.commitment) then p.commitment else p.commitment + [u],
                  if CmpCommitmentLevel(u.commitment, p.maxCommitment).Greater? then u.commitment else p.maxCommitment)
  }

  function Record(s: Store, u: StatusUpdate): Store {
    var p := Lookup(s.progressions, u.slot);
    var counts := u.commitment.Finalized? && (p.None? || !Knows(p.value, Finalized));
    s.(progressions := s.progressions[u.slot := Progress(p, u)],
       finalizedCount := if counts then s.finalizedCount + 1 else s.finalizedCount,
       ready := if u.slot in s.replayed then s.ready + [Ready(u, s.replayed[u.slot])] else s.ready)
  }

  function OnStatus(s: Store, u: StatusUpdate): Store {
    if u.commitment.Finalized? then Gc(Record(s, u)) else Record(s, u)
  }

  function OnOutput(s: Store, o: Output): Store
    requires CanFreeze(s, o)
  {
    match o
    case Frozen(slot) => OnFrozen(s, slot)
    case SlotStatus(u) => OnStatus(s, u)
    case ForksDetected(slot) => Prune(s, slot)
    case DeadSlotDetected(slot) => Prune(s, slot)
    case BankCreated(_) => s
    case BankReset(slot) => Reset(s, slot)
  }

  /** The collectors' values. */
  ghost function Buffers(slots: map<nat, ProcessingSlot>): map<nat, SlotBuffer>
    reads slots.Values
  {
    map k | k in slots :: slots[k].Value()
  }

  ghost predicate OwnCollectors(slots: map<nat, ProcessingSlot>) {
    forall i, j :: i in slots && j in slots && i != j ==> slots[i] != slots[j]
  }

  lemma BuffersWithout(slots: map<nat, ProcessingSlot>, slot: nat)
    ensures Buffers(slots - {slot}) == Buffers(slots) - {slot}
    ensures (slots - {slot}).Items <= slots.Items
    ensures OwnCollectors(slots) ==> OwnCollectors(slots - {slot})
  {
  }

  /** Since `before`, only the collector of `slot` has changed. */
  lemma BuffersWith(slots: map<nat, ProcessingSlot>, before: map<nat, SlotBuffer>, slot: nat)
    requires slot in slots && before.Keys == slots.Keys
    requires forall k <- slots | k != slot :: slots[k].Value() == before[k]
    ensures Buffers(slots) == before[slot := slots[slot].Value()]
  {
  }

  lemma BuffersAdded(slots: map<nat, ProcessingSlot>, slot: nat, c: ProcessingSlot)
    requires slot !in slots && c !in slots.Values && OwnCollectors(slots)
    ensures OwnCollectors(slots[slot := c])
    ensures Buffers(slots[slot := c]) == Buffers(slots)[slot := c.Value()]
    ensures slots[slot := c].Values == slots.Values + {c}
  {
    var with := slots[slot := c];
    assert forall k <- slots :: slots[k] in slots.Values;
    forall x | x in slots.Values + {c} ensures x in with.Values {
      if x == c {
        assert with[slot] == c;
      } else {
        var k :| k in slots && slots[k] == x;
        assert with[k] == x;
      }
    }
  }

  class BlockMachineStorage {
    var processingSlots: map<nat, ProcessingSlot>
    var replayedSlot: map<nat, FrozenBlock>
    var slotCommitmentProgressionMap: map<nat, Progression>
    const replayedCapacity: nat
    var readyQueue: seq<Ready>
    var minSlot: Option<nat>
    var numBufferedFinalizedSlot: nat
    /** The summaries given to the state machine. */
    var summaries: seq<BlockMeta>
    /** Numbers the frozen blocks, which the source tells apart by their pointers. */
    var nextId: nat

    /** Every slot has a collector of its own. */
    ghost predicate Valid()
      reads this
    {
      OwnCollectors(processingSlots)
    }

    ghost function Value(): Store
      reads this, processingSlots.Values
    {
      Store(Buffers(processingSlots), replayedSlot, slotCommitmentProgressionMap,
            replayedCapacity, readyQueue, minSlot, numBufferedFinalizedSlot, summaries, nextId)
    }

    constructor (capacity: nat)
      ensures Valid() && Value() == Initial(capacity) && processingSlots == map[]
    {
      processingSlots, replayedSlot, slotCommitmentProgressionMap := map[], map[], map[];
      replayedCapacity, readyQueue, minSlot, numBufferedFinalizedSlot := capacity, [], None, 0;
      summaries, nextId := [], 0;
    }

    method RefreshMinSlot()
      requires Valid()
      modifies this`minSlot
      ensures Valid() && Value() == RefreshMin(old(Value()))
    {
      minSlot := Smallest(replayedSlot.Keys);
    }

    method RemoveCollector(slot: nat)
      requires Valid()
      modifies this`processingSlots
      ensures Valid() && processingSlots == old(processingSlots) - {slot}
      ensures Buffers(processingSlots) == old(Buffers(processingSlots)) - {slot}
    {
      BuffersWithout(processingSlots, slot);
      processingSlots := processingSlots - {slot};
    }

    method PruneSlot(slot: nat, refreshMinSlot: bool)
      requires Valid()
      modifies this
      ensures Valid() && processingSlots == old(processingSlots) - {slot}
      ensures Value() == if refreshMinSlot then Prune(old(Value()), slot) else Drop(old(Value()), slot)
    {
      hide Buffers;
      hide OwnCollectors;
      RemoveCollector(slot);
      replayedSlot := replayedSlot - {slot};
      if slot in slotCommitmentProgressionMap {
        var progression := slotCommitmentProgressionMap[slot];
        slotCommitmentProgressionMap := slotCommitmentProgressionMap - {slot};
        if progression.maxCommitment == Finalized {
          numBufferedFinalizedSlot := if numBufferedFinalizedSlot > 0 then numBufferedFinalizedSlot - 1 else 0;
        }
      }
      if refreshMinSlot {
        RefreshMinSlot();
      }
    }

    method SlotReset(slot: nat)
      requires Valid()
      modifies this
      ensures Valid() && processingSlots == old(processingSlots) - {slot}
      ensures Value() == Reset(old(Value()), slot)
    {
      hide Buffers;
      hide OwnCollectors;
      hide Prune;
      PruneSlot(slot, true);
      readyQueue := Filter(readyQueue, (r: Ready) => r.block.meta.slot != slot);
    }

    method RunGc()
      requires Valid()
      modifies this
      ensures Valid() && processingSlots.Items <= old(processingSlots.Items)
      ensures Value() == Gc(old(Value()))
    {
      while |replayedSlot| > replayedCapacity && numBufferedFinalizedSlot > MINIMUM_FINALIZED_SLOT_TO_BUFFER
        invariant Valid() && processingSlots.Items <= old(processingSlots.Items)
        invariant DropWhileOver(Value()) == DropWhileOver(old(Value()))
        decreases |replayedSlot|
      {
        var oldestSlot := Smallest(replayedSlot.Keys).value;
        PruneSlot(oldestSlot, false);
      }
      RefreshMinSlot();
    }

    /** The slot's collector, if there is one, tries to seal; success is reported to the state machine. */
    method TryToSeal(slot: nat)
      requires Valid()
      modifies this`summaries, if slot in processingSlots then {processingSlots[slot]} else {}
      ensures Valid()
      ensures slot in processingSlots ==>
                Collector(Some(processingSlots[slot].Value()), summaries) ==
                Attempt(Collector(None, old(summaries)), old(processingSlots[slot].Value()))
      ensures slot !in processingSlots ==> summaries == old(summaries)
    {
      if slot !in processingSlots {
        return;
      }
      var error := processingSlots[slot].TryToSeal();
      if error.None? {
        summaries := summaries + [processingSlots[slot].blockmeta.value];
      }
    }

    method HandleBlockMeta(blockMeta: BlockMeta)
      requires Valid()
      modifies this, processingSlots.Values
      ensures Valid() && processingSlots == old(processingSlots)
      ensures Value() == OnMeta(old(Value()), blockMeta)
    {
      if blockMeta.slot in processingSlots {
        SetMeta(blockMeta.slot, blockMeta);
      }
    }

    method SetMeta(slot: nat, blockMeta: BlockMeta)
      requires Valid() && slot in processingSlots
      modifies this`summaries, processingSlots[slot]
      ensures Valid()
      ensures Value() == Collected(old(Value()), slot, Meta(blockMeta))
    {
      ghost var before := Buffers(processingSlots);
      processingSlots[slot].blockmeta := Some(blockMeta);
      TryToSeal(slot);
      BuffersWith(processingSlots, before, slot);
      hide Attempt;
    }

    method HandleBlockData(event: BlockData, tracked: bool)
      requires Valid()
      modifies this, processingSlots.Values
      ensures Valid() && fresh(processingSlots.Values - old(processingSlots.Values))
      ensures Value() == OnData(old(Value()), event, tracked)
    {
      if !tracked {
        return;
      }
      var slot := event.slot;
      if slot in replayedSlot {
        return;
      }
      if slot !in processingSlots {
        FirstEvent(Value(), event);
        AddCollector(slot);
      }
      hide Buffers;
      hide OwnCollectors;
      hide Collected;
      AddTo(slot, event);
    }

    method AddCollector(slot: nat)
      requires Valid() && slot !in processingSlots
      modifies this`processingSlots
      ensures Valid() && slot in processingSlots && fresh(processingSlots.Values - old(processingSlots.Values))
      ensures Value() == WithCollector(old(Value()), slot)
    {
      var empty := new ProcessingSlot();
      BuffersAdded(processingSlots, slot, empty);
      hide Buffers;
      hide OwnCollectors;
      processingSlots := processingSlots[slot := empty];
    }

    method AddTo(slot: nat, event: BlockData)
      requires Valid() && slot in processingSlots && slot !in replayedSlot
      modifies this`summaries, processingSlots[slot]
      ensures Valid()
      ensures Value() == Collected(old(Value()), slot, Data(event))
    {
      ghost var before := Buffers(processingSlots);
      processingSlots[slot].Add(event);
      TryToSeal(slot);
      BuffersWith(processingSlots, before, slot);
      hide Buffers;
      hide OwnCollectors;
      hide AddEvent;
      hide Attempt;
    }

    /** The collector leaves the processing slots and becomes a frozen block. */
    method OnFrozenBlock(slot: nat)
      requires Valid() && CanFreeze(Value(), Frozen(slot))
      modifies this
      ensures Valid() && processingSlots == old(processingSlots) - {slot}
      ensures Value() == OnFrozen(old(Value()), slot)
    {
      if slot !in processingSlots {
        assert processingSlots - {slot} == processingSlots;
        return;
      }
      Freeze(slot);
    }

    method Freeze(slot: nat)
      requires Valid() && slot in processingSlots && CanFreeze(Value(), Frozen(slot))
      modifies this
      ensures Valid() && processingSlots == old(processingSlots) - {slot}
      ensures Value() == OnFrozen(old(Value()), slot)
    {
      hide Seal;
      assert Value().processing[slot] == processingSlots[slot].Value();
      hide Buffers;
      hide OwnCollectors;
      hide Stored;
      var frozen := Seal(processingSlots[slot].Value(), nextId);
      RemoveCollector(slot);
      StoreFrozen(slot, frozen);
    }

    method StoreFrozen(slot: nat, block: FrozenBlock)
      requires Valid()
      modifies this`minSlot, this`replayedSlot, this`nextId
      ensures Valid() && Value() == Stored(old(Value()), slot, block)
    {
      minSlot := if minSlot.Some? && minSlot.value <= slot then minSlot else Some(slot);
      replayedSlot := replayedSlot[slot := block];
      nextId := nextId + 1;
    }

    method OnSlotStatus(update: StatusUpdate)
      requires Valid()
      modifies this
      ensures Valid() && processingSlots.Items <= old(processingSlots.Items)
      ensures Value() == OnStatus(old(Value()), update)
    {
      hide Buffers;
      hide OwnCollectors;
      hide Gc;
      var slot := update.slot;
      if slot in slotCommitmentProgressionMap {
        var progression := slotCommitmentProgressionMap[slot];
        var commitment, maxCommitment := progression.commitment, progression.maxCommitment;
        if !exists s <- commitment :: s.commitment == update.commitment {
          commitment := commitment + [update];
          if update.commitment == Finalized {
            numBufferedFinalizedSlot := numBufferedFinalizedSlot + 1;
          }
        }
        if CmpCommitmentLevel(update.commitment, maxCommitment) == Greater {
          maxCommitment := update.commitment;
        }
        slotCommitmentProgressionMap := slotCommitmentProgressionMap[slot := Progression(commitment, maxCommitment)];
      } else {
        if update.commitment == Finalized {
          numBufferedFinalizedSlot := numBufferedFinalizedSlot + 1;
        }
        slotCommitmentProgressionMap := slotCommitmentProgressionMap[slot := Progression([update], update.commitment)];
      }
      if slot in replayedSlot {
        readyQueue := readyQueue + [Ready(update, replayedSlot[slot])];
      }
      assert Value() == Record(old(Value()), update);
      if update.commitment == Finalized {
        RunGc();
      }
    }

    method OnBlockmachineOutput(output: Output)
      requires Valid() && CanFreeze(Value(), output)
      modifies this
      ensures Valid() && processingSlots.Items <= old(processingSlots.Items)
      ensures Value() == OnOutput(old(Value()), output)
    {
      BuffersWithout(processingSlots, output.SlotOf());
      hide Buffers;
      hide OwnCollectors;
      hide Prune;
      hide Reset;
      hide OnFrozen;
      hide OnStatus;
      match output {
        case Frozen(slot) => OnFrozenBlock(slot);
        case SlotStatus(update) => OnSlotStatus(update);
        case ForksDetected(slot) => PruneSlot(slot, true);
        case DeadSlotDetected(slot) => PruneSlot(slot, true);
        case BankCreated(_) =>
        case BankReset(slot) => SlotReset(slot);
      }
    }

    method PopReadyBlock() returns (next: Option<Ready>)
      requires Valid()
      modifies this`readyQueue
      ensures Valid()
      ensures next == if old(readyQueue) == [] then None else Some(old(readyQueue)[0])
      ensures Value() == if old(readyQueue) == [] then old(Value()) else old(Value()).(ready := old(readyQueue)[1..])
    {
      if readyQueue == [] {
        return None;
      }
      next := Some(readyQueue[0]);
      readyQueue := readyQueue[1..];
    }
  }
}
