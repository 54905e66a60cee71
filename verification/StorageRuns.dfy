/** The indices of the store agree in every run, and what garbage collection keeps. */
module StorageRuns {
  import opened Collections
  import opened Blocks
  import opened Sealing
  import opened Storage

  datatype Input =
    | BlockDataIn(event: BlockData, tracked: bool)
    | BlockMetaIn(meta: BlockMeta)
    | OutputIn(output: Output)

  function Accept(s: Store, i: Input): Store
    requires i.OutputIn? ==> CanFreeze(s, i.output)
  {
    match i
    case BlockDataIn(e, tracked) => OnData(s, e, tracked)
    case BlockMetaIn(m) => OnMeta(s, m)
    case OutputIn(o) => OnOutput(s, o)
  }

  /** The state machine freezes only slots whose summary it was given: slots that are sealed. */
  predicate Legal(s: Store, i: Input) {
    i.OutputIn? && i.output.Frozen? && i.output.slot in s.processing ==> s.processing[i.output.slot].isSealed
  }

  /** The store after `inputs`, absent after a panic. */
  function AcceptAll(start: Store, inputs: seq<Input>): Option<Store> {
    if inputs == [] then Some(start)
    else
      match AcceptAll(start, Front(inputs))
      case None => None
      case Some(s) =>
        if Last(inputs).OutputIn? && !CanFreeze(s, Last(inputs).output) then None else Some(Accept(s, Last(inputs)))
  }

  predicate LegalRun(start: Store, inputs: seq<Input>) {
    inputs == [] ||
    (LegalRun(start, Front(inputs)) &&
     match AcceptAll(start, Front(inputs))
     case None => true
     case Some(s) => Legal(s, Last(inputs)))
  }

  // ---------- what the indices agree on ----------

  ghost predicate IsCollectorOf(b: SlotBuffer, slot: nat) {
    && Consistent(b)
    && (forall m <- b.messages :: m.slot == slot)
    && (b.meta.Some? ==> b.meta.value.slot == slot)
    && (b.isSealed ==> b.meta.Some?)
  }

  ghost predicate IsBlockOf(f: FrozenBlock, slot: nat) {
    && f.meta.slot == slot && f.block.meta == f.meta
    && (forall m <- f.messages :: m.slot == slot)
    && f.messages == WithoutOutdated(f.messages)
    && f.block.accounts == Accounts(f.messages)
    && f.block.transactions == Transactions(f.messages)
    && f.block.entries == Entries(f.messages)
  }

  /** No slot is both being collected and stored, and both kinds hold what is theirs. */
  ghost predicate SlotsAgree(s: Store) {
    && (forall k <- s.processing :: k !in s.replayed && IsCollectorOf(s.processing[k], k))
    && (forall k <- s.replayed :: IsBlockOf(s.replayed[k], k) && s.replayed[k].id < s.nextId)
    && (forall r <- s.ready :: IsBlockOf(r.block, r.update.slot) && r.block.id < s.nextId)
  }

  /** The levels of a progression are distinct and their maximum is recorded. */
  ghost predicate IsProgressionOf(p: Progression, slot: nat) {
    && (forall u <- p.commitment :: u.slot == slot && !CmpCommitmentLevel(u.commitment, p.maxCommitment).Greater?)
    && (forall i, j | 0 <= i < j < |p.commitment| :: p.commitment[i].commitment != p.commitment[j].commitment)
    && Knows(p, p.maxCommitment)
  }

  function FinalizedSlots(ps: map<nat, Progression>): set<nat> {
    set k | k in ps && Knows(ps[k], Finalized)
  }

  ghost predicate ProgressionsAgree(ps: map<nat, Progression>) {
    forall k <- ps :: IsProgressionOf(ps[k], k)
  }

  ghost predicate CountsAgree(s: Store) {
    && ProgressionsAgree(s.progressions)
    && s.finalizedCount == |FinalizedSlots(s.progressions)|
  }

  ghost predicate MinAgrees(s: Store) {
    s.minSlot == Smallest(s.replayed.Keys)
  }

  ghost predicate Agree(s: Store) {
    SlotsAgree(s) && CountsAgree(s) && MinAgrees(s)
  }

  // ---------- progressions and their count ----------

  lemma MaxIsFinalized(p: Progression, slot: nat)
    requires IsProgressionOf(p, slot)
    ensures p.maxCommitment.Finalized? <==> Knows(p, Finalized)
  {
  }

  lemma FinalizedAfter(ps: map<nat, Progression>, slot: nat, p: Progression)
    ensures FinalizedSlots(ps - {slot}) == FinalizedSlots(ps) - {slot}
    ensures FinalizedSlots(ps[slot := p]) ==
            if Knows(p, Finalized) then FinalizedSlots(ps) + {slot} else FinalizedSlots(ps) - {slot}
  {
    hide Knows;
  }

  lemma WithAndWithout(s: set<nat>, x: nat)
    ensures |s - {x}| == if x in s then |s| - 1 else |s|
    ensures |s + {x}| == if x in s then |s| else |s| + 1
  {
    if x in s {
      assert s + {x} == s;
    } else {
      assert s - {x} == s;
    }
  }

  lemma ProgressionsAfter(ps: map<nat, Progression>, slot: nat, p: Progression)
    requires ProgressionsAgree(ps)
    ensures ProgressionsAgree(ps - {slot})
    ensures IsProgressionOf(p, slot) ==> ProgressionsAgree(ps[slot := p])
  {
    hide IsProgressionOf;
  }

  lemma FinalizedInDrop(s: Store, slot: nat)
    requires CountsAgree(s)
    ensures slot in s.progressions && s.progressions[slot].maxCommitment.Finalized? <==>
            slot in FinalizedSlots(s.progressions)
    ensures slot in FinalizedSlots(s.progressions) ==> s.finalizedCount > 0
  {
    WithAndWithout(FinalizedSlots(s.progressions), slot);
    if slot in s.progressions {
      MaxIsFinalized(s.progressions[slot], slot);
    }
    hide IsProgressionOf;
  }

  lemma DropCounts(s: Store, slot: nat)
    requires CountsAgree(s)
    ensures CountsAgree(Drop(s, slot))
    ensures FinalizedSlots(Drop(s, slot).progressions) == FinalizedSlots(s.progressions) - {slot}
    ensures Drop(s, slot).finalizedCount >= s.finalizedCount - 1
  {
    FinalizedInDrop(s, slot);
    WithAndWithout(FinalizedSlots(s.progressions), slot);
    var any := Progression([], Processed);
    FinalizedAfter(s.progressions, slot, any);
    ProgressionsAfter(s.progressions, slot, any);
    hide FinalizedSlots;
    hide ProgressionsAgree;
  }

  lemma ProgressIs(p: Option<Progression>, u: StatusUpdate)
    requires p.Some? ==> IsProgressionOf(p.value, u.slot)
    ensures IsProgressionOf(Progress(p, u), u.slot)
    ensures Knows(Progress(p, u), u.commitment)
    ensures forall level ::
              Knows(Progress(p, u), level) <==> level == u.commitment || (p.Some? && Knows(p.value, level))
  {
    var r := Progress(p, u);
    if p.Some? && !Knows(p.value, u.commitment) {
      assert forall x :: x in r.commitment <==> x in p.value.commitment || x == u;
    }
  }

  lemma KnownBefore(s: Store, u: StatusUpdate)
    ensures var p := Lookup(s.progressions, u.slot);
            u.slot in FinalizedSlots(s.progressions) <==> p.Some? && Knows(p.value, Finalized)
  {
    hide Knows;
  }

  lemma RecordCounts(s: Store, u: StatusUpdate)
    requires CountsAgree(s)
    ensures CountsAgree(Record(s, u))
  {
    var p := Lookup(s.progressions, u.slot);
    assert p.Some? ==> IsProgressionOf(p.value, u.slot);
    ProgressIs(p, u);
    ProgressionsAfter(s.progressions, u.slot, Progress(p, u));
    hide ProgressionsAgree;
    hide IsProgressionOf;
    RecordedCount(s, u);
    hide FinalizedSlots;
    hide Knows;
    hide Progress;
  }

  lemma RecordedCount(s: Store, u: StatusUpdate)
    requires s.finalizedCount == |FinalizedSlots(s.progressions)|
    requires var p := Lookup(s.progressions, u.slot);
             forall level ::
               Knows(Progress(p, u), level) <==> level == u.commitment || (p.Some? && Knows(p.value, level))
    ensures Record(s, u).finalizedCount == |FinalizedSlots(Record(s, u).progressions)|
  {
    var p := Lookup(s.progressions, u.slot);
    FinalizedAfter(s.progressions, u.slot, Progress(p, u));
    KnownBefore(s, u);
    var before := FinalizedSlots(s.progressions);
    WithAndWithout(before, u.slot);
    hide Progress;
    hide FinalizedSlots;
    hide Knows;
    assert u.slot !in before ==> before - {u.slot} == before;
  }

  // ---------- each operation keeps the agreement ----------

  lemma DropSlots(s: Store, slot: nat)
    requires SlotsAgree(s)
    ensures SlotsAgree(Drop(s, slot))
  {
    hide IsCollectorOf;
    hide IsBlockOf;
  }

  lemma CollectorKeeps(b: SlotBuffer, slot: nat, a: Arrival, summaries: seq<BlockMeta>)
    requires IsCollectorOf(b, slot)
    requires match a case Data(e) => e.slot == slot case Meta(m) => m.slot == slot
    ensures var c := Arrive(Collector(Some(b), summaries), a);
            c.buffer.Some? && IsCollectorOf(c.buffer.value, slot)
  {
    var c := Collector(Some(b), summaries);
    ArriveIs(c, a);
    var o := Offered(c, a);
    AttemptIs(c, o.value);
    hide Consistent;
    match a {
      case Data(e) =>
        AddEventConsistent(b, e);
        AddEventFields(b, e);
        hide AddEvent;
        SealKeepsConsistent(o.value, Attempt(c, o.value).buffer.value.isSealed);
      case Meta(m) =>
        MetaKeepsConsistent(b, m);
        SealKeepsConsistent(o.value, Attempt(c, o.value).buffer.value.isSealed);
    }
    hide Attempt;
  }

  lemma SlotsWith(s: Store, slot: nat, b: SlotBuffer, summaries: seq<BlockMeta>)
    requires SlotsAgree(s) && slot !in s.replayed && IsCollectorOf(b, slot)
    ensures SlotsAgree(s.(processing := s.processing[slot := b], summaries := summaries))
  {
    hide IsCollectorOf;
    hide IsBlockOf;
  }

  lemma CollectorIn(s: Store, slot: nat)
    requires SlotsAgree(s) && slot in s.processing
    ensures slot !in s.replayed && IsCollectorOf(s.processing[slot], slot)
  {
  }

  lemma ReachedSlots(s: Store, slot: nat, a: Arrival)
    requires SlotsAgree(s) && slot in s.processing
    requires match a case Data(e) => e.slot == slot case Meta(m) => m.slot == slot
    ensures SlotsAgree(Collected(s, slot, a))
  {
    CollectorIn(s, slot);
    CollectorKeeps(s.processing[slot], slot, a, s.summaries);
    hide SlotsAgree;
    hide IsCollectorOf;
    hide Arrive;
    var c := Arrive(Collector(Some(s.processing[slot]), s.summaries), a);
    SlotsWith(s, slot, c.buffer.value, c.summaries);
  }

  lemma DataSlots(s: Store, e: BlockData)
    requires SlotsAgree(s) && e.slot !in s.replayed
    ensures SlotsAgree(Collected(s, e.slot, Data(e)))
  {
    assert IsCollectorOf(EMPTY_BUFFER, e.slot);
    hide SlotsAgree;
    hide IsCollectorOf;
    hide Collected;
    if e.slot !in s.processing {
      FirstEvent(s, e);
      SlotsWith(s, e.slot, EMPTY_BUFFER, s.summaries);
      ReachedSlots(WithCollector(s, e.slot), e.slot, Data(e));
    } else {
      ReachedSlots(s, e.slot, Data(e));
    }
  }

  lemma CollectedSlots(s: Store, i: Input)
    requires SlotsAgree(s) && !i.OutputIn?
    ensures SlotsAgree(Accept(s, i)) && Accept(s, i).replayed == s.replayed && Accept(s, i).minSlot == s.minSlot
    ensures Accept(s, i).progressions == s.progressions && Accept(s, i).finalizedCount == s.finalizedCount
  {
    hide SlotsAgree;
    hide Arrive;
    if i.BlockDataIn? {
      if i.tracked && i.event.slot !in s.replayed {
        DataSlots(s, i.event);
      }
    } else if i.meta.slot in s.processing {
      ReachedSlots(s, i.meta.slot, Meta(i.meta));
    }
  }

  lemma WithoutOutdatedTwice(ms: seq<BlockData>)
    ensures WithoutOutdated(WithoutOutdated(ms)) == WithoutOutdated(ms)
  {
    var once := WithoutOutdated(ms);
    assert forall m <- once :: !Outdated(once, m);
    FilterAll(once, m => !Outdated(once, m));
  }

  lemma SealMakesBlock(b: SlotBuffer, slot: nat, id: nat)
    requires IsCollectorOf(b, slot) && b.meta.Some?
    ensures IsBlockOf(Seal(b, id), slot)
  {
    SealedBlock(b, id);
    WithoutOutdatedTwice(b.messages);
  }

  lemma StoredSlots(s: Store, slot: nat, block: FrozenBlock)
    requires SlotsAgree(s) && slot !in s.processing && IsBlockOf(block, slot) && block.id == s.nextId
    ensures SlotsAgree(Stored(s, slot, block))
  {
    hide IsBlockOf;
    hide IsCollectorOf;
  }

  lemma TakenSlots(s: Store, slot: nat)
    requires SlotsAgree(s)
    ensures SlotsAgree(s.(processing := s.processing - {slot}))
  {
    hide IsBlockOf;
    hide IsCollectorOf;
  }

  lemma FrozenSlots(s: Store, slot: nat)
    requires SlotsAgree(s) && CanFreeze(s, Frozen(slot))
    ensures SlotsAgree(OnFrozen(s, slot))
  {
    if slot in s.processing {
      CollectorIn(s, slot);
      SealMakesBlock(s.processing[slot], slot, s.nextId);
      hide SlotsAgree;
      hide IsBlockOf;
      hide Stored;
      TakenSlots(s, slot);
      var block := Seal(s.processing[slot], s.nextId);
      assert block.id == s.nextId;
      hide Seal;
      StoredSlots(s.(processing := s.processing - {slot}), slot, block);
    }
  }

  lemma RecordSlots(s: Store, u: StatusUpdate)
    requires SlotsAgree(s)
    ensures SlotsAgree(Record(s, u))
  {
    hide IsBlockOf;
    hide IsCollectorOf;
  }

  lemma ResetSlots(s: Store, slot: nat)
    requires SlotsAgree(s)
    ensures SlotsAgree(Reset(s, slot))
  {
    DropSlots(s, slot);
    hide IsBlockOf;
    hide IsCollectorOf;
  }

  lemma {:induction false} GcAgrees(s: Store)
    requires SlotsAgree(s) && CountsAgree(s)
    ensures SlotsAgree(DropWhileOver(s)) && CountsAgree(DropWhileOver(s))
    decreases |s.replayed|
  {
    if OverCapacity(s) {
      var oldest := Smallest(s.replayed.Keys).value;
      DropSlots(s, oldest);
      DropCounts(s, oldest);
      hide SlotsAgree;
      hide CountsAgree;
      GcAgrees(DropOldest(s));
    }
  }

  lemma SmallestIs(s: set<nat>, x: nat)
    requires x in s && forall y <- s :: x <= y
    ensures Smallest(s) == Some(x)
  {
  }

  lemma FrozenMin(s: Store, slot: nat)
    requires MinAgrees(s) && CanFreeze(s, Frozen(slot))
    ensures MinAgrees(OnFrozen(s, slot))
  {
    if slot in s.processing {
      var t := OnFrozen(s, slot);
      assert t.replayed.Keys == s.replayed.Keys + {slot};
      SmallestIs(t.replayed.Keys, t.minSlot.value);
    }
  }

  lemma RefreshAgrees(s: Store)
    requires SlotsAgree(s) && CountsAgree(s)
    ensures Agree(RefreshMin(s))
  {
  }

  lemma PruneAgrees(s: Store, slot: nat)
    requires Agree(s)
    ensures Agree(Prune(s, slot))
  {
    DropSlots(s, slot);
    DropCounts(s, slot);
    hide SlotsAgree;
    hide CountsAgree;
    RefreshAgrees(Drop(s, slot));
  }

  lemma StatusAgrees(s: Store, u: StatusUpdate)
    requires Agree(s)
    ensures Agree(OnStatus(s, u))
  {
    RecordSlots(s, u);
    RecordCounts(s, u);
    hide SlotsAgree;
    hide CountsAgree;
    if u.commitment.Finalized? {
      GcAgrees(Record(s, u));
      RefreshAgrees(DropWhileOver(Record(s, u)));
    }
  }

  lemma OutputAgrees(s: Store, o: Output)
    requires Agree(s) && CanFreeze(s, o)
    ensures Agree(OnOutput(s, o))
  {
    match o {
      case Frozen(slot) =>
        FrozenSlots(s, slot);
        FrozenMin(s, slot);
        hide SlotsAgree;
        hide MinAgrees;
      case SlotStatus(u) => StatusAgrees(s, u);
      case ForksDetected(slot) => PruneAgrees(s, slot);
      case DeadSlotDetected(slot) => PruneAgrees(s, slot);
      case BankCreated(_) =>
      case BankReset(slot) =>
        PruneAgrees(s, slot);
        ResetSlots(s, slot);
        hide SlotsAgree;
    }
  }

  lemma AcceptAgrees(s: Store, i: Input)
    requires Agree(s) && (i.OutputIn? ==> CanFreeze(s, i.output))
    ensures Agree(Accept(s, i))
  {
    if i.OutputIn? {
      OutputAgrees(s, i.output);
    } else {
      CollectedSlots(s, i);
      hide SlotsAgree;
    }
  }

  lemma LegalCanFreeze(s: Store, i: Input)
    requires SlotsAgree(s) && Legal(s, i)
    ensures i.OutputIn? ==> CanFreeze(s, i.output)
  {
  }

  lemma InitialAgrees(capacity: nat)
    ensures Agree(Initial(capacity))
  {
    assert FinalizedSlots(map[]) == {};
  }

  /** In every run in which only sealed slots are frozen, the store never panics and its indices agree. */
  lemma {:induction false} IndicesAgree(start: Store, inputs: seq<Input>)
    requires Agree(start) && LegalRun(start, inputs)
    ensures AcceptAll(start, inputs).Some? && Agree(AcceptAll(start, inputs).value)
  {
    if inputs != [] {
      IndicesAgree(start, Front(inputs));
      var s := AcceptAll(start, Front(inputs)).value;
      LegalCanFreeze(s, Last(inputs));
      AcceptAgrees(s, Last(inputs));
      hide Agree;
      hide Accept;
      hide CanFreeze;
    }
  }
}
