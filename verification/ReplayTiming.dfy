/** A replay answers nothing that was not published: its answer is exactly what the channels have carried. */
module ReplayTiming {
  import opened Collections
  import opened Blocks
  import opened Storage
  import opened StorageRuns
  import opened StorageGc
  import opened StorageMeaning
  import opened Publication
  import opened ReplayHandoff

  /** The state machine reports the statuses of a slot only after its frozen block. */
  predicate BlockFirst(s: Store, i: Input) {
    i.OutputIn? && i.output.SlotStatus? ==> i.output.update.slot in s.replayed
  }

  predicate BlocksFirst(start: Store, inputs: seq<Input>) {
    inputs == [] ||
    (BlocksFirst(start, Front(inputs)) &&
     match AcceptAll(start, Front(inputs))
     case None => true
     case Some(s) => BlockFirst(s, Last(inputs)))
  }

  predicate BlocksFirstInRun(capacity: nat, batches: seq<seq<Input>>) {
    batches == [] ||
    (BlocksFirstInRun(capacity, Front(batches)) &&
     match RunHub(capacity, Front(batches))
     case None => true
     case Some(h) => BlocksFirst(h.store, Last(batches)))
  }

  ghost predicate Covers(rs: seq<Ready>, b: FrozenBlock, level: CommitmentLevel) {
    exists r <- rs :: r.block == b && r.update.commitment == level
  }

  /** The slot has statuses only if it is stored, and its block was announced at each of them. */
  ghost predicate Announced(s: Store, rs: seq<Ready>, k: nat) {
    k in s.progressions ==>
      k in s.replayed && forall u <- s.progressions[k].commitment :: Covers(rs, s.replayed[k], u.commitment)
  }

  lemma CoversMore(a: seq<Ready>, b: seq<Ready>, block: FrozenBlock, level: CommitmentLevel)
    requires Covers(a, block, level) && forall r <- a | r.block == block :: r in b
    ensures Covers(b, block, level)
  {
    var r :| r in a && r.block == block && r.update.commitment == level;
  }

  lemma AnnouncedMore(s: Store, a: seq<Ready>, b: seq<Ready>, k: nat)
    requires Announced(s, a, k)
    requires k in s.replayed ==> forall r <- a | r.block == s.replayed[k] :: r in b
    ensures Announced(s, b, k)
  {
    if k in s.progressions {
      forall u <- s.progressions[k].commitment ensures Covers(b, s.replayed[k], u.commitment) {
        CoversMore(a, b, s.replayed[k], u.commitment);
      }
    }
  }

  lemma AnnouncedSame(t: Store, s: Store, rs: seq<Ready>, k: nat)
    requires Announced(s, rs, k)
    requires k in t.progressions ==>
               k in s.progressions && t.progressions[k] == s.progressions[k]
               && Lookup(t.replayed, k) == Lookup(s.replayed, k)
    ensures Announced(t, rs, k)
  {
    hide Covers;
  }

  lemma FrozenAnnounced(s: Store, slot: nat, rs: seq<Ready>, k: nat)
    requires Announced(s, rs, k) && SlotsAgree(s) && CanFreeze(s, Frozen(slot))
    ensures Announced(OnFrozen(s, slot), rs, k)
  {
    if slot in s.processing {
      CollectorIn(s, slot);
    }
    hide SlotsAgree;
    hide Seal;
    AnnouncedSame(OnFrozen(s, slot), s, rs, k);
  }

  lemma PruneAnnounced(s: Store, slot: nat, rs: seq<Ready>, k: nat)
    requires Announced(s, rs, k)
    ensures Announced(Prune(s, slot), rs, k) && Prune(s, slot).ready == s.ready
  {
    AnnouncedSame(Prune(s, slot), s, rs, k);
  }

  lemma GcAnnounced(s: Store, rs: seq<Ready>, k: nat)
    requires Announced(s, rs, k)
    ensures Announced(Gc(s), rs, k)
  {
    GcRemoves(s);
    hide DropWhileOver;
    hide AreOldest;
    AnnouncedSame(Gc(s), s, rs, k);
  }

  lemma ProgressedAnnounced(s: Store, u: StatusUpdate, rs: seq<Ready>)
    requires Announced(s, rs, u.slot) && u.slot in s.replayed
    ensures Announced(Record(s, u), rs + [Ready(u, s.replayed[u.slot])], u.slot)
  {
    var entry := Ready(u, s.replayed[u.slot]);
    AnnouncedMore(s, rs, rs + [entry], u.slot);
    assert Covers(rs + [entry], s.replayed[u.slot], u.commitment) by {
      assert entry in rs + [entry];
    }
    hide Covers;
    hide Knows;
    hide CmpCommitmentLevel;
  }

  lemma RecordAnnounced(s: Store, u: StatusUpdate, rs: seq<Ready>, k: nat)
    requires Announced(s, rs, k) && u.slot in s.replayed
    ensures Announced(Record(s, u), rs + [Ready(u, s.replayed[u.slot])], k)
  {
    if k == u.slot {
      ProgressedAnnounced(s, u, rs);
    } else {
      AnnouncedMore(s, rs, rs + [Ready(u, s.replayed[u.slot])], k);
      hide Announced;
      hide Progress;
      AnnouncedSame(Record(s, u), s, rs + [Ready(u, s.replayed[u.slot])], k);
    }
  }

  lemma StatusAnnounced(s: Store, u: StatusUpdate, rs: seq<Ready>, k: nat)
    requires Announced(s, rs, k) && u.slot in s.replayed
    ensures Announced(OnStatus(s, u), rs + [Ready(u, s.replayed[u.slot])], k)
  {
    RecordAnnounced(s, u, rs, k);
    GcAnnounced(Record(s, u), rs + [Ready(u, s.replayed[u.slot])], k);
    hide Announced;
    hide Gc;
    hide Record;
  }

  lemma ResetAnnounced(s: Store, slot: nat, rs: seq<Ready>, k: nat)
    requires SlotsAgree(s) && Announced(s, rs + s.ready, k)
    ensures Announced(Reset(s, slot), rs + Reset(s, slot).ready, k)
  {
    var t := Reset(s, slot);
    if k != slot && k in s.replayed {
      BlockSlot(s, k);
      assert forall r <- s.ready | r.block == s.replayed[k] :: r in t.ready;
      AnnouncedMore(s, rs + s.ready, rs + t.ready, k);
    }
    hide Filter;
    hide SlotsAgree;
    hide Covers;
  }

  lemma OutputAnnounced(s: Store, o: Output, rs: seq<Ready>, k: nat)
    requires Agree(s) && CanFreeze(s, o) && BlockFirst(s, OutputIn(o)) && Announced(s, rs + s.ready, k)
    ensures Announced(OnOutput(s, o), rs + OnOutput(s, o).ready, k)
  {
    hide Announced;
    hide OnFrozen;
    hide OnStatus;
    hide Prune;
    hide Reset;
    match o {
      case Frozen(slot) =>
        FrozenAnnounced(s, slot, rs + s.ready, k);
        OutputReady(s, o);
      case SlotStatus(u) =>
        StatusAnnounced(s, u, rs + s.ready, k);
        StatusReady(s, u);
        Associative(rs, s.ready, [Ready(u, s.replayed[u.slot])]);
      case ForksDetected(slot) => PruneAnnounced(s, slot, rs + s.ready, k);
      case DeadSlotDetected(slot) => PruneAnnounced(s, slot, rs + s.ready, k);
      case BankCreated(_) =>
      case BankReset(slot) => ResetAnnounced(s, slot, rs, k);
    }
    hide Agree;
    hide CanFreeze;
  }

  lemma AcceptAnnounced(s: Store, i: Input, rs: seq<Ready>, k: nat)
    requires Agree(s) && (i.OutputIn? ==> CanFreeze(s, i.output)) && BlockFirst(s, i)
    requires Announced(s, rs + s.ready, k)
    ensures Announced(Accept(s, i), rs + Accept(s, i).ready, k)
  {
    if i.OutputIn? {
      OutputAnnounced(s, i.output, rs, k);
      hide Announced;
      hide OnOutput;
    } else {
      CollectedSlots(s, i);
      CollectedReady(s, i);
      hide Accept;
      hide SlotsAgree;
      AnnouncedSame(Accept(s, i), s, rs + s.ready, k);
    }
  }

  lemma {:induction false} RunAnnounced(start: Store, inputs: seq<Input>, rs: seq<Ready>, k: nat)
    requires Agree(start) && LegalRun(start, inputs) && BlocksFirst(start, inputs) && AcceptAll(start, inputs).Some?
    requires Announced(start, rs + start.ready, k)
    ensures var s := AcceptAll(start, inputs).value; Announced(s, rs + s.ready, k)
  {
    if inputs != [] {
      var front := Front(inputs);
      IndicesAgree(start, front);
      RunAnnounced(start, front, rs, k);
      hide Agree;
      hide Announced;
      hide Accept;
      hide CanFreeze;
      AcceptAnnounced(AcceptAll(start, front).value, Last(inputs), rs, k);
    }
  }

  lemma {:induction false} HubAnnounced(capacity: nat, batches: seq<seq<Input>>, k: nat)
    requires LegalHubRun(capacity, batches) && BlocksFirstInRun(capacity, batches) && RunHub(capacity, batches).Some?
    ensures var h := RunHub(capacity, batches).value; Announced(h.store, h.published, k)
  {
    if batches != [] {
      HubRunAgrees(capacity, Front(batches));
      HubAnnounced(capacity, Front(batches), k);
      var h := RunHub(capacity, Front(batches)).value;
      assert h.published + h.store.ready == h.published;
      hide Announced;
      hide Agree;
      hide AllRemembered;
      RunAnnounced(h.store, Last(batches), h.published, k);
      hide AcceptAll;
      PublishAnnounced(h.(store := AcceptAll(h.store, Last(batches)).value), k);
    }
  }

  lemma PublishAnnounced(h: Hub, k: nat)
    requires Announced(h.store, h.published + h.store.ready, k)
    ensures Announced(Publish(h).store, Publish(h).published, k)
  {
    AnnouncedSame(Publish(h).store, h.store, h.published + h.store.ready, k);
  }

  /** The block has been sent on the channel of the level or of a higher one. */
  ghost predicate SentAt(h: Hub, b: FrozenBlock, level: CommitmentLevel) {
    exists r <- h.published :: r.block == b && AtLeast(r.update.commitment, level)
  }

  lemma KnownHigher(s: Store, rs: seq<Ready>, k: nat, level: CommitmentLevel)
    requires k in s.progressions && Announced(s, rs, k)
    requires IsProgressionOf(s.progressions[k], k) && Qualifies(s, k, level)
    ensures k in s.replayed && Covers(rs, s.replayed[k], s.progressions[k].maxCommitment)
  {
    var u :| u in s.progressions[k].commitment && u.commitment == s.progressions[k].maxCommitment;
  }

  lemma HigherQualifies(p: Progression, slot: nat, known: CommitmentLevel, level: CommitmentLevel)
    requires IsProgressionOf(p, slot) && Knows(p, known) && AtLeast(known, level)
    ensures !CmpCommitmentLevel(p.maxCommitment, level).Less?
  {
    LevelsAreOrdered(known, p.maxCommitment);
    LevelsAreOrdered(p.maxCommitment, level);
  }

  lemma PublishedIsKnown(h: Hub, r: Ready)
    requires HubAgrees(h) && r in h.published && Lookup(h.store.replayed, r.block.meta.slot) == Some(r.block)
    ensures var k := r.block.meta.slot;
            && k in h.store.progressions && IsProgressionOf(h.store.progressions[k], k)
            && Knows(h.store.progressions[k], r.update.commitment)
  {
    hide SlotsAgree;
    hide Knows;
    hide IsProgressionOf;
    hide MinAgrees;
    assert Remembered(h.store, r) && r.update.slot == r.block.meta.slot;
  }

  lemma SentQualifies(h: Hub, b: FrozenBlock, level: CommitmentLevel)
    requires HubAgrees(h) && Lookup(h.store.replayed, b.meta.slot) == Some(b) && SentAt(h, b, level)
    ensures Qualifies(h.store, b.meta.slot, level)
  {
    var r :| r in h.published && r.block == b && AtLeast(r.update.commitment, level);
    PublishedIsKnown(h, r);
    hide HubAgrees;
    HigherQualifies(h.store.progressions[b.meta.slot], b.meta.slot, r.update.commitment, level);
    hide IsProgressionOf;
    hide Knows;
    hide CmpCommitmentLevel;
  }

  /** When statuses follow their blocks, a replay answers exactly the stored blocks from the requested
      slot on that subscribers of the level, or of a higher one, have already been sent. */
  lemma ReplayIsWhatWasSent(capacity: nat, batches: seq<seq<Input>>, b: FrozenBlock, from: nat, level: CommitmentLevel)
    requires LegalHubRun(capacity, batches) && BlocksFirstInRun(capacity, batches) && RunHub(capacity, batches).Some?
    ensures var h := RunHub(capacity, batches).value;
            IsWanted(h.store, b, from, level) <==>
            b.meta.slot >= from && Lookup(h.store.replayed, b.meta.slot) == Some(b) && SentAt(h, b, level)
  {
    HubRunAgrees(capacity, batches);
    var h := RunHub(capacity, batches).value;
    if IsWanted(h.store, b, from, level) {
      var k :| k in h.store.replayed && k >= from && Qualifies(h.store, k, level) && h.store.replayed[k] == b;
      HubAnnounced(capacity, batches, k);
      hide RunHub;
      assert IsProgressionOf(h.store.progressions[k], k);
      LevelsAreOrdered(h.store.progressions[k].maxCommitment, level);
      KnownHigher(h.store, h.published, k, level);
      BlockSlot(h.store, k);
      hide SlotsAgree;
    } else if b.meta.slot >= from && Lookup(h.store.replayed, b.meta.slot) == Some(b) && SentAt(h, b, level) {
      hide RunHub;
      SentQualifies(h, b, level);
      hide HubAgrees;
    }
  }
}
