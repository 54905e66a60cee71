/** What the block reconstruction loop sends to the subscribers of each commitment level, and what it
    answers to a client that asks for a replay. */
module Publication {
  import opened Collections
  import opened Blocks
  import opened Storage
  import opened StorageRuns

  datatype Item =
    | ContentOf(block: FrozenBlock)
    | BlockOf(block: FrozenBlock)
    | BlockMetaOf(block: FrozenBlock)
    | StatusOf(update: StatusUpdate)

  type Batch = seq<Item>

  /** What the subscribers of `level` are sent for one ready entry. */
  function Announcement(r: Ready, level: CommitmentLevel): seq<Batch> {
    if r.update.commitment != level then [[StatusOf(r.update)]]
    else
      (if level.Processed? then [] else [[ContentOf(r.block)]])
      + [[BlockOf(r.block), BlockMetaOf(r.block)], [StatusOf(r.update)]]
  }

  function Announcements(rs: seq<Ready>, level: CommitmentLevel): seq<Batch> {
    if rs == [] then [] else Announcements(Front(rs), level) + Announcement(Last(rs), level)
  }

  lemma AnnouncementsSnoc(rs: seq<Ready>, r: Ready, level: CommitmentLevel)
    ensures Announcements(rs + [r], level) == Announcements(rs, level) + Announcement(r, level)
  {
    assert Front(rs + [r]) == rs;
  }

  /** The loop at rest: its store, and the ready entries that it has published so far. */
  datatype Hub = Hub(store: Store, published: seq<Ready>) {
    function Channel(level: CommitmentLevel): seq<Batch> {
      Announcements(published, level)
    }
  }

  function Publish(h: Hub): Hub {
    Hub(h.store.(ready := []), h.published + h.store.ready)
  }

  /** The loop after one batch of inputs, absent after a panic. */
  function OnBatch(h: Hub, inputs: seq<Input>): Option<Hub> {
    match AcceptAll(h.store, inputs)
    case None => None
    case Some(s) => Some(Publish(h.(store := s)))
  }

  function RunHub(capacity: nat, batches: seq<seq<Input>>): Option<Hub> {
    if batches == [] then Some(Hub(Initial(capacity), []))
    else
      match RunHub(capacity, Front(batches))
      case None => None
      case Some(h) => OnBatch(h, Last(batches))
  }

  predicate LegalHubRun(capacity: nat, batches: seq<seq<Input>>) {
    batches == [] ||
    (LegalHubRun(capacity, Front(batches)) &&
     match RunHub(capacity, Front(batches))
     case None => true
     case Some(h) => LegalRun(h.store, Last(batches)))
  }

  // ---------- replay ----------

  datatype Replayed = Replayed(block: FrozenBlock, statuses: seq<StatusUpdate>)

  datatype Reply = Messages(items: seq<Item>) | Lagged(firstAvailable: nat) | NoReply

  predicate Qualifies(s: Store, slot: nat, level: CommitmentLevel) {
    slot in s.progressions && !CmpCommitmentLevel(s.progressions[slot].maxCommitment, level).Less?
  }

  function Ascending(slots: set<nat>): (r: seq<nat>)
    ensures forall k :: k in r <==> k in slots
    ensures forall i, j | 0 <= i < j < |r| :: r[i] < r[j]
  {
    if slots == {} then []
    else
      var first := Smallest(slots).value;
      var r := [first] + Ascending(slots - {first});
      r
  }

  function SlotsFrom(s: Store, from: nat): seq<nat> {
    Ascending(set k | k in s.replayed && k >= from)
  }

  /** The qualifying ones among `slots`, in order. */
  function ReplayOf(s: Store, slots: seq<nat>, level: CommitmentLevel): seq<Replayed>
    requires forall k <- slots :: k in s.replayed
  {
    if slots == [] then []
    else
      var k := slots[0];
      (if Qualifies(s, k, level) then [Replayed(s.replayed[k], s.progressions[k].commitment)] else [])
      + ReplayOf(s, slots[1..], level)
  }

  function Statuses(us: seq<StatusUpdate>): seq<Item> {
    if us == [] then [] else Statuses(Front(us)) + [StatusOf(Last(us))]
  }

  function ItemsOf(r: Replayed): seq<Item> {
    [ContentOf(r.block), BlockOf(r.block), BlockMetaOf(r.block)] + Statuses(r.statuses)
  }

  function AllItems(rs: seq<Replayed>): seq<Item> {
    if rs == [] then [] else AllItems(Front(rs)) + ItemsOf(Last(rs))
  }

  function Replay(s: Store, from: nat, level: CommitmentLevel): seq<Replayed> {
    ReplayOf(s, SlotsFrom(s, from), level)
  }

  function ReplyTo(s: Store, from: nat, level: CommitmentLevel): Reply {
    if s.minSlot.Some? && from < s.minSlot.value then Lagged(s.minSlot.value)
    else
      var items := AllItems(Replay(s, from, level));
      if items == [] then NoReply else Messages(items)
  }

  class ReplayIter {
    const storage: BlockMachineStorage
    /** The slots that the range over the stored blocks has still to visit. */
    var rest: seq<nat>
    const minCommitment: CommitmentLevel

    ghost predicate Valid()
      reads this, storage
    {
      forall k <- rest :: k in storage.replayedSlot
    }

    ghost function Remaining(): seq<Replayed>
      reads this, storage, storage.processingSlots.Values
      requires Valid()
    {
      ReplayOf(storage.Value(), rest, minCommitment)
    }

    constructor (storage: BlockMachineStorage, slot: nat, minCommitment: CommitmentLevel)
      ensures this.storage == storage && Valid()
      ensures Remaining() == Replay(storage.Value(), slot, minCommitment)
    {
      this.storage, this.minCommitment := storage, minCommitment;
      var slots := set k | k in storage.replayedSlot && k >= slot;
      rest := Ascending(slots);
      new;
      assert slots == set k | k in storage.Value().replayed && k >= slot;
    }

    method Next() returns (item: Option<Replayed>)
      requires Valid()
      modifies this
      ensures Valid()
      ensures old(Remaining()) == if item.None? then [] else [item.value] + Remaining()
      ensures item.None? ==> Remaining() == []
      ensures |rest| < |old(rest)| || item.None?
    {
      while rest != []
        invariant Valid() && |rest| <= |old(rest)|
        invariant Remaining() == old(Remaining())
        decreases |rest|
      {
        var slot := rest[0];
        assert slot in rest;
        rest := rest[1..];
        if slot in storage.slotCommitmentProgressionMap {
          var progression := storage.slotCommitmentProgressionMap[slot];
          if CmpCommitmentLevel(progression.maxCommitment, minCommitment) != Less {
            return Some(Replayed(storage.replayedSlot[slot], progression.commitment));
          }
        }
      }
      return None;
    }
  }

  lemma ItemsInclude<V>(a: map<nat, V>, b: map<nat, V>)
    requires a.Items <= b.Items
    ensures a.Values <= b.Values
  {
    forall v <- a.Values ensures v in b.Values {
      var k :| k in a && a[k] == v;
      assert (k, v) in a.Items;
    }
  }

  lemma AcceptAllSnoc(s: Store, inputs: seq<Input>, k: nat)
    requires k < |inputs| && AcceptAll(s, inputs).Some?
    ensures AcceptAll(s, inputs[..k]).Some?
    ensures var t := AcceptAll(s, inputs[..k]).value;
            && (inputs[k].OutputIn? ==> CanFreeze(t, inputs[k].output))
            && AcceptAll(s, inputs[..k + 1]) == Some(Accept(t, inputs[k]))
  {
    hide Accept;
    hide CanFreeze;
    assert Front(inputs[..k + 1]) == inputs[..k] && Last(inputs[..k + 1]) == inputs[k];
    if k + 1 == |inputs| {
      assert inputs[..k + 1] == inputs;
    } else {
      assert Front(inputs)[..k + 1] == inputs[..k + 1] && Front(inputs)[..k] == inputs[..k];
      assert Front(inputs)[k] == inputs[k];
      AcceptAllSnoc(s, Front(inputs), k);
    }
  }

  class ReconstructionLoop {
    const machine: BlockMachineStorage
    var processed: seq<Batch>
    var confirmed: seq<Batch>
    var finalized: seq<Batch>
    ghost var published: seq<Ready>

    /** Every channel has been sent the announcements of what was published. */
    ghost predicate Valid()
      reads this, machine
    {
      && machine.Valid()
      && processed == Announcements(published, Processed)
      && confirmed == Announcements(published, Confirmed)
      && finalized == Announcements(published, Finalized)
    }

    ghost function Value(): Hub
      reads this, machine, machine.processingSlots.Values
    {
      Hub(machine.Value(), published)
    }

    constructor (capacity: nat)
      ensures Valid() && Value() == Hub(Initial(capacity), [])
      ensures fresh(machine) && fresh(machine.processingSlots.Values)
    {
      machine := new BlockMachineStorage(capacity);
      processed, confirmed, finalized, published := [], [], [], [];
    }

    function Sent(level: CommitmentLevel): seq<Batch>
      reads this
    {
      match level
      case Processed => processed
      case Confirmed => confirmed
      case Finalized => finalized
    }

    method Send(level: CommitmentLevel, batch: Batch)
      modifies this`processed, this`confirmed, this`finalized
      ensures forall l: CommitmentLevel :: Sent(l) == old(Sent(l)) + if l == level then [batch] else []
    {
      match level {
        case Processed => processed := processed + [batch];
        case Confirmed => confirmed := confirmed + [batch];
        case Finalized => finalized := finalized + [batch];
      }
    }

    method Announce(update: StatusUpdate, block: FrozenBlock)
      modifies this`processed, this`confirmed, this`finalized
      ensures forall l: CommitmentLevel :: Sent(l) == old(Sent(l)) + Announcement(Ready(update, block), l)
    {
      if update.commitment != Processed {
        Send(update.commitment, [ContentOf(block)]);
      }
      Send(update.commitment, [BlockOf(block), BlockMetaOf(block)]);
      Send(Processed, [StatusOf(update)]);
      Send(Confirmed, [StatusOf(update)]);
      Send(Finalized, [StatusOf(update)]);
    }

    method PublishNext()
      requires Valid() && machine.readyQueue != []
      modifies this, machine`readyQueue
      ensures Valid()
      ensures Value() == Hub(old(machine.Value()).(ready := old(machine.readyQueue)[1..]),
                             old(published) + [old(machine.readyQueue)[0]])
    {
      hide Announcement;
      hide Buffers;
      hide OwnCollectors;
      var next := machine.PopReadyBlock();
      Announce(next.value.update, next.value.block);
      AnnouncementsSnoc(published, next.value, Processed);
      AnnouncementsSnoc(published, next.value, Confirmed);
      AnnouncementsSnoc(published, next.value, Finalized);
      hide Announcements;
      published := published + [next.value];
    }

    /** Publishes everything that is ready. */
    method PublishReady()
      requires Valid()
      modifies this, machine`readyQueue
      ensures Valid() && Value() == Publish(old(Value()))
    {
      hide Announcements;
      hide Buffers;
      while machine.readyQueue != []
        invariant Valid()
        invariant machine.Value() == old(machine.Value()).(ready := machine.readyQueue)
        invariant published + machine.readyQueue == old(published + machine.readyQueue)
        decreases |machine.readyQueue|
      {
        PublishNext();
      }
    }

    method Add(input: Input)
      requires Valid() && (input.OutputIn? ==> CanFreeze(machine.Value(), input.output))
      modifies machine, machine.processingSlots.Values
      ensures Valid() && machine.Value() == Accept(old(machine.Value()), input)
      ensures fresh(machine.processingSlots.Values - old(machine.processingSlots.Values))
    {
      match input {
        case BlockDataIn(event, tracked) => machine.HandleBlockData(event, tracked);
        case BlockMetaIn(meta) => machine.HandleBlockMeta(meta);
        case OutputIn(output) =>
          ghost var before := machine.processingSlots;
          machine.OnBlockmachineOutput(output);
          ItemsInclude(machine.processingSlots, before);
      }
    }

    /** One batch of messages, with what the state machine says in between; then the publication. */
    method OnMessages(inputs: seq<Input>)
      requires Valid() && AcceptAll(machine.Value(), inputs).Some?
      modifies this, machine, machine.processingSlots.Values
      ensures Valid() && Some(Value()) == OnBatch(old(Value()), inputs)
      ensures fresh(machine.processingSlots.Values - old(machine.processingSlots.Values))
    {
      ghost var start := machine.Value();
      var k := 0;
      while k < |inputs|
        invariant k <= |inputs| && Valid() && published == old(published)
        invariant AcceptAll(start, inputs[..k]) == Some(machine.Value())
        invariant fresh(machine.processingSlots.Values - old(machine.processingSlots.Values))
      {
        AcceptAllSnoc(start, inputs, k);
        hide Accept;
        hide AcceptAll;
        Add(inputs[k]);
        k := k + 1;
      }
      assert inputs[..k] == inputs;
      PublishReady();
    }

    /** Answers a client that wants everything from slot `from` on. */
    method Serve(level: CommitmentLevel, from: nat) returns (reply: Reply)
      requires Valid()
      ensures reply == ReplyTo(machine.Value(), from, level)
    {
      if machine.minSlot.Some? && from < machine.minSlot.value {
        return Lagged(machine.minSlot.value);
      }
      var iter := new ReplayIter(machine, from, level);
      hide Replay;
      hide AllItems;
      var items := Collect(iter);
      reply := if items == [] then NoReply else Messages(items);
    }
  }

  lemma AllItemsSnoc(rs: seq<Replayed>, r: Replayed)
    ensures AllItems(rs + [r]) == AllItems(rs) + ItemsOf(r)
  {
    assert Front(rs + [r]) == rs;
  }

  method Collect(iter: ReplayIter) returns (items: seq<Item>)
    requires iter.Valid()
    modifies iter
    ensures items == AllItems(old(iter.Remaining()))
  {
    items := [];
    ghost var all: seq<Replayed>, visited: seq<Replayed> := iter.Remaining(), [];
    assert AllItems(visited) == items;
    hide ReplayOf;
    hide ItemsOf;
    hide AllItems;
    var next := iter.Next();
    while next.Some?
      invariant iter.Valid()
      invariant items == AllItems(visited)
      invariant all == visited + (if next.Some? then [next.value] + iter.Remaining() else [])
      decreases if next.Some? then |iter.rest| + 1 else 0
    {
      items := PushReplayed(items, next.value);
      AllItemsSnoc(visited, next.value);
      Associative(visited, [next.value], iter.Remaining());
      visited := visited + [next.value];
      next := iter.Next();
    }
    assert all == visited;
  }

  /** A replayed slot: its content, its block, the block's summary, and its statuses. */
  method PushReplayed(items: seq<Item>, replayed: Replayed) returns (pushed: seq<Item>)
    ensures pushed == items + ItemsOf(replayed)
  {
    pushed := items + [ContentOf(replayed.block)];
    pushed := pushed + [BlockOf(replayed.block)];
    pushed := pushed + [BlockMetaOf(replayed.block)];
    ghost var block := pushed;
    var i := 0;
    while i < |replayed.statuses|
      invariant i <= |replayed.statuses|
      invariant pushed == block + Statuses(replayed.statuses[..i])
    {
      assert Front(replayed.statuses[..i + 1]) == replayed.statuses[..i];
      pushed := pushed + [StatusOf(replayed.statuses[i])];
      i := i + 1;
    }
    assert replayed.statuses[..i] == replayed.statuses;
    assert block == items + [ContentOf(replayed.block), BlockOf(replayed.block), BlockMetaOf(replayed.block)];
  }
}
