/** Replayed slots and live channels fit together: no gap, nothing before its time, blocks before statuses. */
module ReplayHandoff {
  import opened Collections
  import opened Blocks
  import opened Storage
  import opened StorageRuns
  import opened StorageGc
  import opened Publication

  // ---------- the order on the channels ----------

  ghost predicate SlotsMatch(rs: seq<Ready>) {
    forall r <- rs :: r.block.meta.slot == r.update.slot
  }

  /** At `i` the channel carries a status of its own level, right after the block of that slot. */
  ghost predicate StatusFollowsBlock(channel: seq<Batch>, i: nat, level: CommitmentLevel)
    requires i < |channel|
  {
    channel[i] != [] && channel[i][0].StatusOf? && channel[i][0].update.commitment == level ==>
      && i >= 1
      && |channel[i - 1]| == 2
      && channel[i - 1][0].BlockOf?
      && var b := channel[i - 1][0].block;
         && b.meta.slot == channel[i][0].update.slot
         && channel[i - 1] == [BlockOf(b), BlockMetaOf(b)]
         && (!level.Processed? ==> i >= 2 && channel[i - 2] == [ContentOf(b)])
  }

  /** At `i` the channel carries a block; its status comes next, and before it its content. */
  ghost predicate BlockBeforeStatus(channel: seq<Batch>, i: nat, level: CommitmentLevel)
    requires i < |channel|
  {
    |channel[i]| == 2 ==>
      && channel[i][0].BlockOf?
      && var b := channel[i][0].block;
         && channel[i] == [BlockOf(b), BlockMetaOf(b)]
         && (!level.Processed? ==> i >= 1 && channel[i - 1] == [ContentOf(b)])
         && i + 1 < |channel|
         && exists u :: channel[i + 1] == [StatusOf(u)] && u.commitment == level && u.slot == b.meta.slot
  }

  lemma AnnouncementInOrder(before: seq<Batch>, r: Ready, level: CommitmentLevel, i: nat)
    requires r.block.meta.slot == r.update.slot
    requires |before| <= i < |before| + |Announcement(r, level)|
    ensures StatusFollowsBlock(before + Announcement(r, level), i, level)
    ensures BlockBeforeStatus(before + Announcement(r, level), i, level)
  {
    var channel := before + Announcement(r, level);
    assert forall j | |before| <= j < |channel| :: channel[j] == Announcement(r, level)[j - |before|];
  }

  /** On every channel a status of the channel's level comes right after the block of its slot, and on
      Confirmed and Finalized that comes right after the slot's content; and the other way round. */
  lemma {:induction false} ChannelInOrder(rs: seq<Ready>, level: CommitmentLevel, i: nat)
    requires SlotsMatch(rs) && i < |Announcements(rs, level)|
    ensures StatusFollowsBlock(Announcements(rs, level), i, level)
    ensures BlockBeforeStatus(Announcements(rs, level), i, level)
  {
    var before := Announcements(Front(rs), level);
    if i < |before| {
      assert forall r <- Front(rs) :: r in rs;
      ChannelInOrder(Front(rs), level, i);
      assert Announcements(rs, level) == before + Announcement(Last(rs), level);
      hide Announcements;
      hide Announcement;
    } else {
      assert Last(rs) in rs;
      AnnouncementInOrder(before, Last(rs), level, i);
    }
  }

  // ---------- a published block that is stored is known at its level ----------

  /** If the block of the entry is still the stored one, its level is on record. */
  ghost predicate Remembered(s: Store, r: Ready) {
    && r.block.id < s.nextId
    && (Lookup(s.replayed, r.update.slot) == Some(r.block) ==>
          r.update.slot in s.progressions && Knows(s.progressions[r.update.slot], r.update.commitment))
  }

  lemma DropRemembers(s: Store, slot: nat, r: Ready)
    requires Remembered(s, r)
    ensures Remembered(Drop(s, slot), r)
  {
  }

  lemma GcRemembers(s: Store, r: Ready)
    requires Remembered(s, r)
    ensures Remembered(Gc(s), r)
  {
    GcRemoves(s);
    hide DropWhileOver;
    hide AreOldest;
  }

  lemma RecordRemembers(s: Store, u: StatusUpdate, r: Ready)
    requires Remembered(s, r) && CountsAgree(s)
    ensures Remembered(Record(s, u), r)
  {
    ProgressIs(Lookup(s.progressions, u.slot), u);
    hide Progress;
    hide Knows;
    hide IsProgressionOf;
  }

  lemma RecordedIsRemembered(s: Store, u: StatusUpdate)
    requires SlotsAgree(s) && CountsAgree(s) && u.slot in s.replayed
    ensures Remembered(Record(s, u), Ready(u, s.replayed[u.slot]))
  {
    ProgressIs(Lookup(s.progressions, u.slot), u);
    hide Progress;
    hide Knows;
    hide IsProgressionOf;
    hide IsBlockOf;
    hide IsCollectorOf;
  }

  lemma FrozenRemembers(s: Store, slot: nat, r: Ready)
    requires Remembered(s, r) && CanFreeze(s, Frozen(slot))
    ensures Remembered(OnFrozen(s, slot), r)
  {
  }

  lemma StatusRemembers(s: Store, u: StatusUpdate, r: Ready)
    requires Remembered(s, r) && CountsAgree(s)
    ensures Remembered(OnStatus(s, u), r)
  {
    RecordRemembers(s, u, r);
    GcRemembers(Record(s, u), r);
    hide Remembered;
    hide Record;
    hide Gc;
  }

  lemma OutputRemembers(s: Store, o: Output, r: Ready)
    requires Remembered(s, r) && CountsAgree(s) && CanFreeze(s, o)
    ensures Remembered(OnOutput(s, o), r)
  {
    match o {
      case Frozen(slot) => FrozenRemembers(s, slot, r);
      case SlotStatus(u) => StatusRemembers(s, u, r);
      case ForksDetected(slot) => DropRemembers(s, slot, r);
      case DeadSlotDetected(slot) => DropRemembers(s, slot, r);
      case BankCreated(_) =>
      case BankReset(slot) => DropRemembers(s, slot, r);
    }
    hide CanFreeze;
    hide CountsAgree;
    hide Drop;
    hide OnFrozen;
    hide OnStatus;
  }

  lemma AcceptRemembers(s: Store, i: Input, r: Ready)
    requires Remembered(s, r) && Agree(s) && (i.OutputIn? ==> CanFreeze(s, i.output))
    ensures Remembered(Accept(s, i), r)
  {
    if i.OutputIn? {
      OutputRemembers(s, i.output, r);
    } else {
      CollectedSlots(s, i);
      hide Collected;
      hide SlotsAgree;
    }
  }

  lemma CollectedReady(s: Store, i: Input)
    requires !i.OutputIn?
    ensures Accept(s, i).ready == s.ready
  {
  }

  lemma StatusReady(s: Store, u: StatusUpdate)
    ensures OnStatus(s, u).ready == s.ready + if u.slot in s.replayed then [Ready(u, s.replayed[u.slot])] else []
  {
    GcRemoves(Record(s, u));
    hide DropWhileOver;
    hide AreOldest;
    hide Collectable;
    assert s.ready + [] == s.ready;
  }

  lemma OutputReady(s: Store, o: Output)
    requires CanFreeze(s, o) && !o.SlotStatus?
    ensures OnOutput(s, o).ready ==
            if o.BankReset? then Filter(s.ready, (r: Ready) => r.block.meta.slot != o.slot) else s.ready
  {
    hide Filter;
  }

  /** An entry of the ready queue was there before, or is the status that came in. */
  lemma ReadyComesFrom(s: Store, i: Input, r: Ready)
    requires i.OutputIn? ==> CanFreeze(s, i.output)
    requires r in Accept(s, i).ready && r !in s.ready
    ensures i.OutputIn? && i.output.SlotStatus? && i.output.update.slot in s.replayed
    ensures r == Ready(i.output.update, s.replayed[i.output.update.slot])
  {
    if !i.OutputIn? {
      CollectedReady(s, i);
    } else if i.output.SlotStatus? {
      StatusReady(s, i.output.update);
      hide OnStatus;
    } else {
      OutputReady(s, i.output);
      hide OnOutput;
    }
  }

  ghost predicate AllRemembered(s: Store, rs: seq<Ready>) {
    forall r <- rs :: Remembered(s, r) && r.block.meta.slot == r.update.slot
  }

  lemma StatusIsRemembered(s: Store, u: StatusUpdate)
    requires SlotsAgree(s) && CountsAgree(s) && u.slot in s.replayed
    ensures Remembered(OnStatus(s, u), Ready(u, s.replayed[u.slot]))
  {
    RecordedIsRemembered(s, u);
    GcRemembers(Record(s, u), Ready(u, s.replayed[u.slot]));
    hide Remembered;
    hide Record;
    hide Gc;
  }

  lemma BlockSlot(s: Store, slot: nat)
    requires SlotsAgree(s) && slot in s.replayed
    ensures s.replayed[slot].meta.slot == slot
  {
  }

  lemma AcceptKeepsRemembered(s: Store, i: Input, rs: seq<Ready>)
    requires Agree(s) && AllRemembered(s, rs) && AllRemembered(s, s.ready) && (i.OutputIn? ==> CanFreeze(s, i.output))
    ensures AllRemembered(Accept(s, i), rs) && AllRemembered(Accept(s, i), Accept(s, i).ready)
  {
    hide Accept;
    hide Remembered;
    forall r | r in rs || r in s.ready ensures Remembered(Accept(s, i), r) {
      AcceptRemembers(s, i, r);
    }
    forall r <- Accept(s, i).ready
      ensures Remembered(Accept(s, i), r) && r.block.meta.slot == r.update.slot
    {
      if r !in s.ready {
        ReadyComesFrom(s, i, r);
        BlockSlot(s, i.output.update.slot);
        StatusIsRemembered(s, i.output.update);
        AcceptedStatus(s, i);
      }
    }
  }

  lemma AcceptedStatus(s: Store, i: Input)
    requires i.OutputIn? && i.output.SlotStatus?
    ensures CanFreeze(s, i.output) && Accept(s, i) == OnStatus(s, i.output.update)
  {
  }

  lemma {:induction false} RunRemembers(start: Store, inputs: seq<Input>, rs: seq<Ready>)
    requires Agree(start) && LegalRun(start, inputs) && AllRemembered(start, rs) && AllRemembered(start, start.ready)
    ensures AcceptAll(start, inputs).Some?
    ensures var s := AcceptAll(start, inputs).value; Agree(s) && AllRemembered(s, rs) && AllRemembered(s, s.ready)
  {
    if inputs != [] {
      var front := Front(inputs);
      RunRemembers(start, front, rs);
      IndicesAgree(start, inputs);
      var s := AcceptAll(start, front).value;
      hide Agree;
      hide AllRemembered;
      hide Accept;
      hide CanFreeze;
      AcceptKeepsRemembered(s, Last(inputs), rs);
    }
  }

  ghost predicate HubAgrees(h: Hub) {
    Agree(h.store) && h.store.ready == [] && AllRemembered(h.store, h.published)
  }

  lemma PublishAgrees(h: Hub)
    requires Agree(h.store) && AllRemembered(h.store, h.published) && AllRemembered(h.store, h.store.ready)
    ensures HubAgrees(Publish(h))
  {
    hide IsCollectorOf;
    hide IsBlockOf;
    hide IsProgressionOf;
  }

  /** In every legal run the loop is in order between two batches. */
  lemma {:induction false} HubRunAgrees(capacity: nat, batches: seq<seq<Input>>)
    requires LegalHubRun(capacity, batches)
    ensures RunHub(capacity, batches).Some? && HubAgrees(RunHub(capacity, batches).value)
  {
    if batches == [] {
      InitialAgrees(capacity);
    } else {
      HubRunAgrees(capacity, Front(batches));
      var h := RunHub(capacity, Front(batches)).value;
      assert AllRemembered(h.store, []);
      hide Agree;
      RunRemembers(h.store, Last(batches), h.published);
      PublishAgrees(h.(store := AcceptAll(h.store, Last(batches)).value));
      hide HubAgrees;
      hide AllRemembered;
      hide AcceptAll;
    }
  }

  /** In every legal run, each channel carries each status of its level right after the block of that
      slot, and each block right before its status. */
  lemma HubChannelInOrder(capacity: nat, batches: seq<seq<Input>>, level: CommitmentLevel, i: nat)
    requires LegalHubRun(capacity, batches) && RunHub(capacity, batches).Some?
    requires i < |RunHub(capacity, batches).value.Channel(level)|
    ensures StatusFollowsBlock(RunHub(capacity, batches).value.Channel(level), i, level)
    ensures BlockBeforeStatus(RunHub(capacity, batches).value.Channel(level), i, level)
  {
    HubRunAgrees(capacity, batches);
    ChannelInOrder(RunHub(capacity, batches).value.published, level, i);
    hide StatusFollowsBlock;
    hide BlockBeforeStatus;
    hide Announcements;
    hide RunHub;
  }

  /** A batch on a channel that the plugin also sends to, lifecycle statuses among others. */
  datatype SharedBatch = SharedBatch(own: bool, batch: Batch)

  /** The loop's own batches. */
  function OwnBatches(channel: seq<SharedBatch>): seq<Batch> {
    if channel == [] then []
    else OwnBatches(Front(channel)) + if Last(channel).own then [Last(channel).batch] else []
  }

  lemma {:induction false} OwnAt(channel: seq<SharedBatch>, i: nat)
    requires i < |channel| && channel[i].own
    ensures var n := |OwnBatches(channel[..i])|;
            n < |OwnBatches(channel)| && OwnBatches(channel)[n] == channel[i].batch
            && OwnBatches(channel)[..n] == OwnBatches(channel[..i])
  {
    if i == |channel| - 1 {
      assert channel[..i] == Front(channel);
    } else {
      OwnAt(Front(channel), i);
      assert Front(channel)[..i] == channel[..i];
    }
  }

  lemma {:induction false} OwnPosition(channel: seq<SharedBatch>, n: nat) returns (i: nat)
    requires n < |OwnBatches(channel)|
    ensures i < |channel| && channel[i].own && channel[i].batch == OwnBatches(channel)[n]
    ensures |OwnBatches(channel[..i])| == n
  {
    if n < |OwnBatches(Front(channel))| {
      i := OwnPosition(Front(channel), n);
      assert Front(channel)[..i] == channel[..i];
    } else {
      i := |channel| - 1;
      assert channel[..i] == Front(channel);
    }
  }

  /** Whatever else is sent in between: before each of the loop's statuses of the level, the block of that
      slot was sent, with nothing of the loop's in between, and before that, above Processed, its content. */
  lemma SharedChannelInOrder(rs: seq<Ready>, level: CommitmentLevel, channel: seq<SharedBatch>, i: nat,
                             u: StatusUpdate) returns (j: nat, b: FrozenBlock)
    requires SlotsMatch(rs) && OwnBatches(channel) == Announcements(rs, level)
    requires i < |channel| && channel[i] == SharedBatch(true, [StatusOf(u)]) && u.commitment == level
    ensures j < i && channel[j] == SharedBatch(true, [BlockOf(b), BlockMetaOf(b)]) && b.meta.slot == u.slot
    ensures OwnBatches(channel[..i]) == OwnBatches(channel[..j]) + [channel[j].batch]
    ensures !level.Processed? ==> exists k | 0 <= k < j :: channel[k] == SharedBatch(true, [ContentOf(b)])
  {
    var n := |OwnBatches(channel[..i])|;
    OwnAt(channel, i);
    ChannelInOrder(rs, level, n);
    hide Announcements;
    hide OwnBatches;
    b := OwnBatches(channel)[n - 1][0].block;
    j := OwnBatchBefore(channel, i, n - 1);
    if !level.Processed? {
      var k := OwnBatchBefore(channel, j, n - 2);
      assert channel[k] == SharedBatch(true, [ContentOf(b)]);
    }
  }

  /** The loop's batch before one of its batches. */
  lemma OwnBatchBefore(channel: seq<SharedBatch>, i: nat, n: nat) returns (j: nat)
    requires i < |channel| && channel[i].own && |OwnBatches(channel[..i])| == n + 1
    ensures n < |OwnBatches(channel)| && j < i && channel[j] == SharedBatch(true, OwnBatches(channel)[n])
    ensures |OwnBatches(channel[..j])| == n
    ensures OwnBatches(channel[..i]) == OwnBatches(channel[..j]) + [channel[j].batch]
  {
    var before := channel[..i];
    OwnAt(channel, i);
    j := OwnPosition(before, n);
    OwnAt(before, j);
    assert before[..j] == channel[..j];
    hide OwnBatches;
    assert OwnBatches(before) == OwnBatches(before)[..n] + [OwnBatches(before)[n]];
  }

  // ---------- what a replay answers ----------

  ghost predicate IsReplayed(s: Store, r: Replayed, k: nat, level: CommitmentLevel) {
    k in s.replayed && Qualifies(s, k, level) && r == Replayed(s.replayed[k], s.progressions[k].commitment)
  }

  lemma ReplayFirst(s: Store, slots: seq<nat>, level: CommitmentLevel)
    requires slots != [] && forall k <- slots :: k in s.replayed
    ensures forall k <- slots[1..] :: k in s.replayed
    ensures ReplayOf(s, slots, level) ==
            (if Qualifies(s, slots[0], level)
             then [Replayed(s.replayed[slots[0]], s.progressions[slots[0]].commitment)] else [])
            + ReplayOf(s, slots[1..], level)
  {
  }

  lemma {:induction false} ReplayHolds(s: Store, slots: seq<nat>, level: CommitmentLevel, r: Replayed)
    requires forall k <- slots :: k in s.replayed
    ensures r in ReplayOf(s, slots, level) <==> exists k <- slots :: IsReplayed(s, r, k, level)
  {
    if slots != [] {
      var k, rest := slots[0], slots[1..];
      ReplayFirst(s, slots, level);
      ReplayHolds(s, rest, level, r);
      assert slots == [k] + rest;
      assert IsReplayed(s, r, k, level) <==>
             Qualifies(s, k, level) && r == Replayed(s.replayed[k], s.progressions[k].commitment);
      hide ReplayOf;
      hide Qualifies;
      hide IsReplayed;
    }
  }

  ghost predicate OwnSlots(s: Store) {
    forall k <- s.replayed :: s.replayed[k].meta.slot == k
  }

  ghost predicate BlocksAscend(rs: seq<Replayed>) {
    forall i, j | 0 <= i < j < |rs| :: rs[i].block.meta.slot < rs[j].block.meta.slot
  }

  lemma BlocksAscendCons(first: Replayed, rs: seq<Replayed>)
    requires BlocksAscend(rs) && forall r <- rs :: first.block.meta.slot < r.block.meta.slot
    ensures BlocksAscend([first] + rs)
  {
  }

  lemma {:induction false} ReplayAscends(s: Store, slots: seq<nat>, level: CommitmentLevel)
    requires OwnSlots(s) && forall k <- slots :: k in s.replayed
    requires forall i, j | 0 <= i < j < |slots| :: slots[i] < slots[j]
    ensures var rs := ReplayOf(s, slots, level);
            (forall r <- rs :: r.block.meta.slot in slots) && BlocksAscend(rs)
  {
    if slots != [] {
      var k, rest := slots[0], slots[1..];
      ReplayFirst(s, slots, level);
      ReplayAscends(s, rest, level);
      assert forall x <- rest :: x in slots && k < x;
      assert s.replayed[k].meta.slot == k;
      hide ReplayOf;
      hide Qualifies;
      hide OwnSlots;
      hide BlocksAscend;
      if Qualifies(s, k, level) {
        BlocksAscendCons(Replayed(s.replayed[k], s.progressions[k].commitment), ReplayOf(s, rest, level));
      } else {
        assert [] + ReplayOf(s, rest, level) == ReplayOf(s, rest, level);
      }
    }
  }

  lemma {:induction false} StatusesAre(us: seq<StatusUpdate>, x: Item)
    ensures x in Statuses(us) <==> x.StatusOf? && x.update in us
  {
    if us != [] {
      StatusesAre(Front(us), x);
      assert us == Front(us) + [Last(us)];
    }
  }

  ghost predicate BlockAt(items: seq<Item>, j: nat, b: FrozenBlock) {
    j + 3 <= |items| && items[j..j + 3] == [ContentOf(b), BlockOf(b), BlockMetaOf(b)]
  }

  /** At `i` the answer carries a status: the whole block of its slot came before. */
  ghost predicate StatusAfterBlock(items: seq<Item>, i: nat)
    requires i < |items|
  {
    items[i].StatusOf? ==>
      exists j: nat, b :: BlockAt(items, j, b) && j + 3 <= i && b.meta.slot == items[i].update.slot
  }

  ghost predicate StatusesMatch(rs: seq<Replayed>) {
    forall r <- rs, u <- r.statuses :: u.slot == r.block.meta.slot
  }

  lemma {:induction false} AnswerInOrder(rs: seq<Replayed>, i: nat)
    requires StatusesMatch(rs) && i < |AllItems(rs)|
    ensures StatusAfterBlock(AllItems(rs), i)
  {
    var items, before, r := AllItems(rs), AllItems(Front(rs)), Last(rs);
    assert items == before + ItemsOf(r) && r in rs;
    if i < |before| {
      assert forall x <- Front(rs) :: x in rs;
      AnswerInOrder(Front(rs), i);
      hide AllItems;
      hide ItemsOf;
      if items[i].StatusOf? {
        var j: nat, b :| BlockAt(before, j, b) && j + 3 <= i && b.meta.slot == before[i].update.slot;
        assert items[j..j + 3] == before[j..j + 3];
        assert BlockAt(items, j, b);
      }
    } else if items[i].StatusOf? {
      var j := |before|;
      assert BlockAt(items, j, r.block);
      assert items[i] == Statuses(r.statuses)[i - j - 3];
      StatusesAre(r.statuses, items[i]);
    }
  }

  lemma {:induction false} AnswerHolds(rs: seq<Replayed>, b: FrozenBlock)
    ensures BlockOf(b) in AllItems(rs) <==> exists r <- rs :: r.block == b
  {
    if rs != [] {
      AnswerHolds(Front(rs), b);
      StatusesAre(Last(rs).statuses, BlockOf(b));
      assert rs == Front(rs) + [Last(rs)];
      hide Statuses;
    }
  }

  /** The block is stored, not below `from`, and has reached the level. */
  ghost predicate IsWanted(s: Store, b: FrozenBlock, from: nat, level: CommitmentLevel) {
    exists k <- s.replayed :: k >= from && Qualifies(s, k, level) && s.replayed[k] == b
  }

  lemma ReplayHasBlock(s: Store, from: nat, level: CommitmentLevel, b: FrozenBlock)
    ensures (exists r <- Replay(s, from, level) :: r.block == b) <==> IsWanted(s, b, from, level)
  {
    var rs, slots := Replay(s, from, level), SlotsFrom(s, from);
    assert forall k :: k in slots <==> k in s.replayed && k >= from;
    if r :| r in rs && r.block == b {
      ReplayHolds(s, slots, level, r);
    }
    if k :| k in s.replayed && k >= from && Qualifies(s, k, level) && s.replayed[k] == b {
      var r := Replayed(s.replayed[k], s.progressions[k].commitment);
      assert IsReplayed(s, r, k, level);
      ReplayHolds(s, slots, level, r);
    }
    hide ReplayOf;
    hide Qualifies;
    hide SlotsFrom;
  }

  lemma ReplayIs(s: Store, from: nat, level: CommitmentLevel, b: FrozenBlock)
    ensures BlockOf(b) in AllItems(Replay(s, from, level)) <==> IsWanted(s, b, from, level)
  {
    AnswerHolds(Replay(s, from, level), b);
    ReplayHasBlock(s, from, level, b);
    hide *;
  }

  lemma ItemsOfNone(rs: seq<Replayed>)
    ensures AllItems(rs) == [] <==> rs == []
  {
  }

  /** The answer is empty exactly when no stored block is wanted. */
  lemma NothingWanted(s: Store, from: nat, level: CommitmentLevel)
    ensures AllItems(Replay(s, from, level)) == [] <==> forall b :: !IsWanted(s, b, from, level)
  {
    var rs := Replay(s, from, level);
    hide *;
    forall b ensures AllItems(rs) == [] ==> !IsWanted(s, b, from, level) {
      ReplayIs(s, from, level, b);
    }
    ItemsOfNone(rs);
    if rs != [] {
      assert rs[0] in rs;
      ReplayHasBlock(s, from, level, rs[0].block);
    }
  }

  lemma ReplayedMatches(s: Store, r: Replayed, k: nat, level: CommitmentLevel)
    requires SlotsAgree(s) && ProgressionsAgree(s.progressions) && IsReplayed(s, r, k, level)
    ensures forall u <- r.statuses :: u.slot == r.block.meta.slot
  {
    BlockSlot(s, k);
    hide SlotsAgree;
    assert IsProgressionOf(s.progressions[k], k);
  }

  lemma ReplayStatusesMatch(s: Store, from: nat, level: CommitmentLevel)
    requires SlotsAgree(s) && ProgressionsAgree(s.progressions)
    ensures StatusesMatch(Replay(s, from, level))
  {
    forall r <- Replay(s, from, level) ensures forall u <- r.statuses :: u.slot == r.block.meta.slot {
      ReplayHolds(s, SlotsFrom(s, from), level, r);
      var k :| IsReplayed(s, r, k, level);
      ReplayedMatches(s, r, k, level);
    }
    hide SlotsAgree;
    hide ProgressionsAgree;
    hide Replay;
  }

  lemma LagsBelowAll(s: Store, from: nat, level: CommitmentLevel)
    requires MinAgrees(s)
    ensures var reply := ReplyTo(s, from, level);
            && (reply.Lagged? <==> s.replayed.Keys != {} && forall k <- s.replayed :: from < k)
            && (reply.Lagged? ==>
                  reply.firstAvailable in s.replayed && forall k <- s.replayed :: reply.firstAvailable <= k)
  {
    hide Replay;
    hide AllItems;
  }

  lemma StoredAreOwn(s: Store)
    requires SlotsAgree(s)
    ensures OwnSlots(s)
  {
    hide SlotsAgree;
    forall k <- s.replayed ensures s.replayed[k].meta.slot == k {
      BlockSlot(s, k);
    }
  }

  lemma ReplayBlocksAscend(s: Store, from: nat, level: CommitmentLevel)
    requires SlotsAgree(s)
    ensures BlocksAscend(Replay(s, from, level))
  {
    StoredAreOwn(s);
    hide SlotsAgree;
    hide OwnSlots;
    hide ReplayOf;
    hide BlocksAscend;
    ReplayAscends(s, SlotsFrom(s, from), level);
  }

  /** What a replay request is answered: a request from below every stored slot lags; otherwise the
      answer holds exactly the blocks stored from there on that have reached the level, in ascending
      slot order, each before its statuses; and there is no answer at all exactly when the request does not
      lag and there is no such block. */
  lemma ReplyIs(s: Store, from: nat, level: CommitmentLevel)
    requires Agree(s)
    ensures var reply := ReplyTo(s, from, level);
            && (reply.Lagged? <==> s.replayed.Keys != {} && forall k <- s.replayed :: from < k)
            && (reply.Lagged? ==>
                  reply.firstAvailable in s.replayed && forall k <- s.replayed :: reply.firstAvailable <= k)
            && (reply.NoReply? <==> !reply.Lagged? && forall b :: !IsWanted(s, b, from, level))
            && (reply.Messages? ==>
                  && (forall b :: BlockOf(b) in reply.items <==> IsWanted(s, b, from, level))
                  && (forall i | 0 <= i < |reply.items| :: StatusAfterBlock(reply.items, i))
                  && reply.items == AllItems(Replay(s, from, level)))
    ensures BlocksAscend(Replay(s, from, level))
  {
    ReplayStatusesMatch(s, from, level);
    ReplayBlocksAscend(s, from, level);
    LagsBelowAll(s, from, level);
    var rs := Replay(s, from, level);
    NothingWanted(s, from, level);
    forall b ensures BlockOf(b) in AllItems(rs) <==> IsWanted(s, b, from, level) {
      ReplayIs(s, from, level, b);
    }
    forall i | 0 <= i < |AllItems(rs)| ensures StatusAfterBlock(AllItems(rs), i) {
      AnswerInOrder(rs, i);
    }
    hide *;
    ReplyItems(s, from, level);
  }

  lemma ReplyItems(s: Store, from: nat, level: CommitmentLevel)
    ensures var reply, items := ReplyTo(s, from, level), AllItems(Replay(s, from, level));
            (reply.Messages? ==> reply.items == items) && (reply.NoReply? <==> !reply.Lagged? && items == [])
  {
    hide Replay;
    hide AllItems;
  }

  /** A request to an empty store is not answered: neither with messages nor with an error. */
  lemma EmptyStoreIsSilent(capacity: nat, from: nat, level: CommitmentLevel)
    ensures ReplyTo(Initial(capacity), from, level) == NoReply
  {
    var s := Initial(capacity);
    assert Replay(s, from, level) == [] by {
      assert forall k <- SlotsFrom(s, from) :: k in s.replayed;
      assert SlotsFrom(s, from) == [];
    }
  }

  // ---------- no gap between the replay and the live channel ----------

  lemma {:induction false} AnnouncementsAppend(a: seq<Ready>, b: seq<Ready>, level: CommitmentLevel)
    ensures Announcements(a + b, level) == Announcements(a, level) + Announcements(b, level)
  {
    if b == [] {
      assert a + b == a;
    } else {
      assert a + b == (a + Front(b)) + [Last(b)];
      AnnouncementsAppend(a, Front(b), level);
      AnnouncementsSnoc(a + Front(b), Last(b), level);
      Associative(Announcements(a, level), Announcements(Front(b), level), Announcement(Last(b), level));
    }
  }

  lemma {:induction false} PublishedExtends(capacity: nat, before: seq<seq<Input>>, after: seq<seq<Input>>)
    requires RunHub(capacity, before + after).Some?
    ensures RunHub(capacity, before).Some?
    ensures RunHub(capacity, before).value.published <= RunHub(capacity, before + after).value.published
  {
    if after == [] {
      assert before + after == before;
    } else {
      assert Front(before + after) == before + Front(after);
      PublishedExtends(capacity, before, Front(after));
    }
  }

  lemma {:induction false} LegalPrefix(capacity: nat, before: seq<seq<Input>>, after: seq<seq<Input>>)
    requires LegalHubRun(capacity, before + after)
    ensures LegalHubRun(capacity, before)
  {
    if after == [] {
      assert before + after == before;
    } else {
      assert Front(before + after) == before + Front(after);
      LegalPrefix(capacity, before, Front(after));
    }
  }

  /** A block on a channel, or its content, was published there. */
  lemma {:induction false} BlockWasPublished(rs: seq<Ready>, level: CommitmentLevel, i: nat, b: FrozenBlock)
    requires i < |Announcements(rs, level)|
    requires BlockOf(b) in Announcements(rs, level)[i] || ContentOf(b) in Announcements(rs, level)[i]
    ensures exists r <- rs :: r.block == b && r.update.commitment == level
  {
    var before, r := Announcements(Front(rs), level), Last(rs);
    assert Announcements(rs, level) == before + Announcement(r, level);
    if i < |before| {
      BlockWasPublished(Front(rs), level, i, b);
      var x :| x in Front(rs) && x.block == b && x.update.commitment == level;
      assert x in rs;
    } else {
      assert r in rs;
      assert Announcements(rs, level)[i] == Announcement(r, level)[i - |before|];
    }
  }

  lemma RememberedQualifies(s: Store, r: Ready, from: nat)
    requires ProgressionsAgree(s.progressions) && Remembered(s, r)
    requires Lookup(s.replayed, r.update.slot) == Some(r.block) && r.update.slot >= from
    ensures IsWanted(s, r.block, from, r.update.commitment)
  {
    var slot := r.update.slot;
    assert IsProgressionOf(s.progressions[slot], slot);
    assert Qualifies(s, slot, r.update.commitment);
  }

  /** The block on the channel is ahead of the receiver, or in the reply, or was no longer stored. */
  ghost predicate Reaches(h: Hub, reply: Reply, next: nat, i: nat, b: FrozenBlock) {
    || i >= next
    || (reply.Messages? && BlockOf(b) in reply.items)
    || Lookup(h.store.replayed, b.meta.slot) != Some(b)
  }

  /** No gap: a client whose receiver stands at `next` asks for everything from slot `from` on, and does
      not lag. Then every block from there on that its channel has carried or ever will is still ahead
      of its receiver, or in the answer, unless it was no longer stored when the answer was given. */
  lemma NoGap(capacity: nat, before: seq<seq<Input>>, after: seq<seq<Input>>, level: CommitmentLevel, from: nat,
              next: nat, i: nat, b: FrozenBlock)
    requires LegalHubRun(capacity, before + after)
    requires RunHub(capacity, before + after).Some? && RunHub(capacity, before).Some?
    requires next <= |RunHub(capacity, before).value.Channel(level)|
    requires var channel := RunHub(capacity, before + after).value.Channel(level);
             i < |channel| && BlockOf(b) in channel[i] && b.meta.slot >= from
    ensures var h := RunHub(capacity, before).value;
            var reply := ReplyTo(h.store, from, level);
            reply.Lagged? || Reaches(h, reply, next, i, b)
    ensures RunHub(capacity, before).value.Channel(level) <= RunHub(capacity, before + after).value.Channel(level)
  {
    LegalPrefix(capacity, before, after);
    HubRunAgrees(capacity, before);
    PublishedExtends(capacity, before, after);
    var h, g := RunHub(capacity, before).value, RunHub(capacity, before + after).value;
    hide RunHub;
    hide LegalHubRun;
    hide HubAgrees;
    ChannelExtends(h, g, level);
    if i < next && Lookup(h.store.replayed, b.meta.slot) == Some(b) {
      assert h.Channel(level)[i] == g.Channel(level)[i];
      BlockIsWanted(h, level, from, i, b);
    }
  }

  /** The same on the channel that the plugin also sends to: `shared` is the channel at any later time, when
      the loop may not have sent everything yet; when the request was answered it carried `served` batches,
      of which the client's receiver had passed `next`. */
  lemma NoGapShared(capacity: nat, before: seq<seq<Input>>, after: seq<seq<Input>>, level: CommitmentLevel, from: nat,
                    shared: seq<SharedBatch>, served: nat, next: nat, i: nat, b: FrozenBlock)
    requires LegalHubRun(capacity, before + after)
    requires RunHub(capacity, before + after).Some? && RunHub(capacity, before).Some?
    requires next <= served <= |shared|
    requires OwnBatches(shared) <= RunHub(capacity, before + after).value.Channel(level)
    requires OwnBatches(shared[..served]) == RunHub(capacity, before).value.Channel(level)
    requires i < |shared| && shared[i].own && BlockOf(b) in shared[i].batch && b.meta.slot >= from
    ensures var h := RunHub(capacity, before).value;
            var reply := ReplyTo(h.store, from, level);
            reply.Lagged? || Reaches(h, reply, next, i, b)
  {
    if i < next {
      var own := |OwnBatches(shared[..i])|;
      OwnAt(shared, i);
      assert shared[..served][i] == shared[i] && shared[..served][..i] == shared[..i];
      OwnAt(shared[..served], i);
      hide OwnBatches;
      hide RunHub;
      hide LegalHubRun;
      NoGap(capacity, before, after, level, from, |RunHub(capacity, before).value.Channel(level)|, own, b);
    }
  }

  lemma ChannelExtends(h: Hub, g: Hub, level: CommitmentLevel)
    requires h.published <= g.published
    ensures h.Channel(level) <= g.Channel(level)
  {
    AnnouncementsAppend(h.published, g.published[|h.published|..], level);
    assert g.published == h.published + g.published[|h.published|..];
    hide Announcements;
  }

  lemma BlockIsWanted(h: Hub, level: CommitmentLevel, from: nat, i: nat, b: FrozenBlock)
    requires HubAgrees(h) && i < |h.Channel(level)| && b.meta.slot >= from
    requires BlockOf(b) in h.Channel(level)[i] || ContentOf(b) in h.Channel(level)[i]
    requires Lookup(h.store.replayed, b.meta.slot) == Some(b)
    ensures var reply := ReplyTo(h.store, from, level);
            reply.Lagged? || (reply.Messages? && BlockOf(b) in reply.items)
  {
    BlockWasPublished(h.published, level, i, b);
    var r :| r in h.published && r.block == b && r.update.commitment == level;
    RememberedQualifies(h.store, r, from);
    ReplyIs(h.store, from, level);
    hide Announcements;
    hide Agree;
    hide Remembered;
    hide IsWanted;
  }
}
