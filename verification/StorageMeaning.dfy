/** What the store does with statuses and outputs, said by levels and kinds. */
module StorageMeaning {
  import opened Collections
  import opened Blocks
  import opened Sealing
  import opened Storage
  import opened StorageRuns
  import opened StorageGc

  // ---------- levels ----------

  /** `x` is the level, or a higher one. */
  predicate AtLeast(x: CommitmentLevel, level: CommitmentLevel) {
    match level
    case Processed => true
    case Confirmed => !x.Processed?
    case Finalized => x.Finalized?
  }

  /** Processed is below Confirmed, and Confirmed below Finalized. */
  lemma LevelsAreOrdered(a: CommitmentLevel, b: CommitmentLevel)
    ensures CmpCommitmentLevel(a, b).Less? <==> !AtLeast(a, b)
    ensures CmpCommitmentLevel(a, b).Greater? <==> !AtLeast(b, a)
    ensures CmpCommitmentLevel(a, b).Equal? <==> a == b
    ensures CmpCommitmentLevel(Processed, Confirmed).Less? && CmpCommitmentLevel(Confirmed, Finalized).Less?
  {
  }

  /** The record of the slot has a status of the level or of a higher one. */
  ghost predicate HasReached(s: Store, slot: nat, level: CommitmentLevel) {
    slot in s.progressions && exists u <- s.progressions[slot].commitment :: AtLeast(u.commitment, level)
  }

  /** The maximum on record tells exactly which levels the slot has reached. */
  lemma MaximumIsReached(s: Store, slot: nat, level: CommitmentLevel)
    requires ProgressionsAgree(s.progressions) && slot in s.progressions
    ensures HasReached(s, slot, level) <==> AtLeast(s.progressions[slot].maxCommitment, level)
  {
    var p := s.progressions[slot];
    assert IsProgressionOf(p, slot);
    forall u <- p.commitment ensures AtLeast(p.maxCommitment, u.commitment) {
      LevelsAreOrdered(u.commitment, p.maxCommitment);
    }
    var u :| u in p.commitment && u.commitment == p.maxCommitment;
    assert AtLeast(u.commitment, level) <==> AtLeast(p.maxCommitment, level);
  }

  // ---------- statuses ----------

  function StatusesOf(s: Store, slot: nat): seq<StatusUpdate> {
    if slot in s.progressions then s.progressions[slot].commitment else []
  }

  /** The first status of each level is put on record, in order of arrival. It is queued for publication, at
      whatever level and however often it comes, if the block of its slot is stored. */
  lemma StatusMeaning(s: Store, u: StatusUpdate)
    ensures var t := Record(s, u);
            && StatusesOf(t, u.slot) ==
               StatusesOf(s, u.slot)
               + (if exists x <- StatusesOf(s, u.slot) :: x.commitment == u.commitment then [] else [u])
            && (forall k | k != u.slot :: StatusesOf(t, k) == StatusesOf(s, k))
            && t.ready == s.ready + (if u.slot in s.replayed then [Ready(u, s.replayed[u.slot])] else [])
            && t.replayed == s.replayed && t.processing == s.processing
    ensures !u.commitment.Finalized? ==> OnStatus(s, u) == Record(s, u)
  {
    assert s.ready + [] == s.ready && StatusesOf(s, u.slot) + [] == StatusesOf(s, u.slot);
    assert [] + [u] == [u];
  }

  // ---------- outputs ----------

  /** A slot with forks and a dead slot are forgotten, but what waits for publication stays; a bank that is
      created changes nothing; and a frozen slot without a collector is passed over. */
  lemma OutputMeaning(s: Store, o: Output)
    requires CanFreeze(s, o)
    ensures o.ForksDetected? || o.DeadSlotDetected? ==>
              var t := OnOutput(s, o);
              && o.slot !in t.processing && o.slot !in t.replayed && o.slot !in t.progressions
              && SameElsewhere(t, s, o.slot) && t.ready == s.ready && t.summaries == s.summaries
    ensures o.BankCreated? || (o.Frozen? && o.slot !in s.processing) ==> OnOutput(s, o) == s
    ensures o.Frozen? && o.slot in s.processing ==>
              var t := OnOutput(s, o);
              && t.processing == s.processing - {o.slot} && o.slot in t.replayed
              && t.replayed == s.replayed[o.slot := t.replayed[o.slot]]
              && t.progressions == s.progressions && t.ready == s.ready
  {
    if o.ForksDetected? || o.DeadSlotDetected? {
      PruneForgets(s, o.slot);
    }
    hide Seal;
  }

  // ---------- summaries ----------

  function SummariesFor(summaries: seq<BlockMeta>, slot: nat): seq<BlockMeta> {
    Filter(summaries, (m: BlockMeta) => m.slot == slot)
  }

  lemma SummariesAppend(a: seq<BlockMeta>, b: seq<BlockMeta>, slot: nat)
    ensures SummariesFor(a + b, slot) == SummariesFor(a, slot) + SummariesFor(b, slot)
  {
    FilterAppend(a, b, (m: BlockMeta) => m.slot == slot);
  }

  /** The summary that the arrival makes the collector report, if any. */
  function Reports(buffer: Option<SlotBuffer>, a: Arrival): seq<BlockMeta> {
    Arrive(Collector(buffer, []), a).summaries
  }

  lemma ReportsAre(c: Collector, a: Arrival)
    ensures Arrive(c, a).summaries == c.summaries + Reports(c.buffer, a)
  {
    ArriveIs(c, a);
    ArriveIs(Collector(c.buffer, []), a);
    if Offered(c, a).Some? {
      AttemptIs(c, Offered(c, a).value);
      AttemptIs(Collector(c.buffer, []), Offered(c, a).value);
    }
    assert c.summaries + [] == c.summaries && forall m: BlockMeta :: [] + [m] == [m];
    hide Arrive;
    hide Attempt;
    hide CountsAreIn;
  }

  /** A summary is of the slot whose part arrived. */
  lemma ReportsOwnSlot(buffer: Option<SlotBuffer>, a: Arrival, slot: nat)
    requires buffer.Some? && buffer.value.meta.Some? ==> buffer.value.meta.value.slot == slot
    requires a.Meta? ==> a.meta.slot == slot
    ensures forall m <- Reports(buffer, a) :: m.slot == slot
  {
    var c := Collector(buffer, []);
    ArriveIs(c, a);
    if Offered(c, a).Some? {
      AttemptIs(c, Offered(c, a).value);
      assert Offered(c, a).value.meta.Some? ==> Offered(c, a).value.meta.value.slot == slot;
    }
    hide Attempt;
    hide Arrive;
    hide CountsAreIn;
  }

  lemma SummariesOfOne(ms: seq<BlockMeta>, t: nat, slot: nat)
    requires forall m <- ms :: m.slot == t
    ensures SummariesFor(ms, slot) == if t == slot then ms else []
  {
    if t == slot {
      FilterAll(ms, (m: BlockMeta) => m.slot == slot);
    } else {
      FilterNone(ms, (m: BlockMeta) => m.slot == slot);
    }
  }

  lemma CollectedSummaries(s: Store, t: nat, a: Arrival, slot: nat)
    requires SlotsAgree(s) && (a.Meta? ==> a.meta.slot == t)
    ensures SummariesFor(Collected(s, t, a).summaries, slot) ==
            SummariesFor(s.summaries, slot) + if t == slot then Reports(Lookup(s.processing, t), a) else []
  {
    var c := Collector(Lookup(s.processing, t), s.summaries);
    assert t in s.processing ==> IsCollectorOf(s.processing[t], t);
    ReportsAre(c, a);
    ReportsOwnSlot(c.buffer, a, t);
    SummariesOfOne(Reports(c.buffer, a), t, slot);
    SummariesAppend(s.summaries, Reports(c.buffer, a), slot);
    hide Arrive;
    hide Reports;
    hide SummariesFor;
    hide SlotsAgree;
    hide IsCollectorOf;
  }

  lemma OutputSummaries(s: Store, o: Output)
    requires CanFreeze(s, o)
    ensures OnOutput(s, o).summaries == s.summaries
  {
    if o.SlotStatus? && o.update.commitment.Finalized? {
      GcRemoves(Record(s, o.update));
      hide DropWhileOver;
    }
  }

  /** What the slot's own collector would report on the input. */
  function OwnReports(buffer: Option<SlotBuffer>, i: Input, slot: nat): seq<BlockMeta> {
    match i
    case BlockDataIn(e, tracked) => if tracked && e.slot == slot then Reports(buffer, Data(e)) else []
    case BlockMetaIn(m) => if m.slot == slot then Reports(buffer, Meta(m)) else []
    case OutputIn(_) => []
  }

  lemma NoCollectorNoReport(m: BlockMeta)
    ensures Reports(None, Meta(m)) == []
  {
  }

  lemma AcceptSummaries(s: Store, i: Input, slot: nat)
    requires SlotsAgree(s) && (i.OutputIn? ==> CanFreeze(s, i.output)) && slot !in s.replayed
    ensures SummariesFor(Accept(s, i).summaries, slot) ==
            SummariesFor(s.summaries, slot) + OwnReports(Lookup(s.processing, slot), i, slot)
  {
    assert SummariesFor(s.summaries, slot) + [] == SummariesFor(s.summaries, slot);
    match i {
      case BlockDataIn(e, tracked) =>
        if tracked && e.slot !in s.replayed {
          CollectedSummaries(s, e.slot, Data(e), slot);
        }
      case BlockMetaIn(m) =>
        NoCollectorNoReport(m);
        if m.slot in s.processing {
          CollectedSummaries(s, m.slot, Meta(m), slot);
        }
      case OutputIn(o) => OutputSummaries(s, o);
    }
    hide Collected;
    hide SummariesFor;
    hide SlotsAgree;
    hide Reports;
    hide OnOutput;
  }

  lemma CollectReports(inputs: seq<Input>, slot: nat)
    requires inputs != []
    ensures var before := Collect(ArrivalsOf(Front(inputs), slot));
            Collect(ArrivalsOf(inputs, slot)).summaries ==
            before.summaries + OwnReports(before.buffer, Last(inputs), slot)
  {
    CollectSkips(inputs, slot);
    var before := Collect(ArrivalsOf(Front(inputs), slot));
    match Last(inputs) {
      case BlockDataIn(e, _) => ReportsAre(before, Data(e));
      case BlockMetaIn(m) => ReportsAre(before, Meta(m));
      case OutputIn(_) =>
    }
    hide Arrive;
    hide Reports;
    hide Collect;
    hide ArrivalsOf;
    assert before.summaries + [] == before.summaries;
  }

  /** In every legal run, until a slot is frozen or forgotten, the state machine has been given of it the
      summaries that its own arrivals make its collector report: one, once it is complete, and of the
      BlockMeta that was then in force. */
  lemma {:induction false} SummariesOfRun(capacity: nat, inputs: seq<Input>, slot: nat)
    requires Untouched(inputs, slot)
    requires LegalRun(Initial(capacity), inputs) && AcceptAll(Initial(capacity), inputs).Some?
    ensures var given := SummariesFor(AcceptAll(Initial(capacity), inputs).value.summaries, slot);
            && given == Collect(ArrivalsOf(inputs, slot)).summaries
            && SealedRight(Collector(Lookup(AcceptAll(Initial(capacity), inputs).value.processing, slot), given),
                           ArrivalsOf(inputs, slot))
  {
    if inputs != [] {
      var front, i := Front(inputs), Last(inputs);
      assert forall x <- front :: x in inputs;
      SummariesOfRun(capacity, front, slot);
      CollectorOfRun(capacity, front, slot);
      InitialAgrees(capacity);
      IndicesAgree(Initial(capacity), front);
      AcceptSummaries(AcceptAll(Initial(capacity), front).value, i, slot);
      CollectReports(inputs, slot);
      hide Accept;
      hide OwnReports;
      hide Collect;
      hide ArrivalsOf;
      hide SummariesFor;
      hide SealedRight;
      hide SlotsAgree;
    }
    CollectorOfRun(capacity, inputs, slot);
    SealsWhenComplete(ArrivalsOf(inputs, slot));
    hide SealedRight;
    hide Collect;
  }
}
