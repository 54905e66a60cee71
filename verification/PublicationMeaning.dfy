/** What replays and channels carry, said by levels and kinds of messages. */
module PublicationMeaning {
  import opened Collections
  import opened Blocks
  import opened Storage
  import opened StorageRuns
  import opened StorageMeaning
  import opened Publication
  import opened ReplayHandoff

  // ---------- replays ----------

  /** The block is stored, not below `from`, and the record of its slot has a status of the level or of a
      higher one. */
  ghost predicate IsDue(s: Store, b: FrozenBlock, from: nat, level: CommitmentLevel) {
    exists k <- s.replayed :: k >= from && s.replayed[k] == b && HasReached(s, k, level)
  }

  lemma WantedIsDue(s: Store, b: FrozenBlock, from: nat, level: CommitmentLevel)
    requires ProgressionsAgree(s.progressions)
    ensures IsWanted(s, b, from, level) <==> IsDue(s, b, from, level)
  {
    forall k ensures Qualifies(s, k, level) <==> HasReached(s, k, level) {
      QualifiesIfReached(s, k, level);
    }
    hide Qualifies;
    hide HasReached;
  }

  /** In every run, an answer at Processed holds exactly the stored blocks from the slot on whose record has
      any status, at Confirmed those with a Confirmed or Finalized one, at Finalized those with a Finalized
      one; and there is no answer if and only if there is no such block, unless the request lags. */
  lemma AnswerAtLevel(capacity: nat, batches: seq<seq<Input>>, from: nat, level: CommitmentLevel)
    requires LegalHubRun(capacity, batches) && RunHub(capacity, batches).Some?
    ensures var s := RunHub(capacity, batches).value.store;
            var reply := ReplyTo(s, from, level);
            && (reply.Messages? ==> forall b :: BlockOf(b) in reply.items <==> IsDue(s, b, from, level))
            && (reply.NoReply? <==> !reply.Lagged? && forall b :: !IsDue(s, b, from, level))
  {
    HubRunAgrees(capacity, batches);
    var s := RunHub(capacity, batches).value.store;
    hide RunHub;
    ReplyIs(s, from, level);
    forall b ensures IsWanted(s, b, from, level) <==> IsDue(s, b, from, level) {
      WantedIsDue(s, b, from, level);
    }
    hide ReplyTo;
    hide SlotsAgree;
    hide ProgressionsAgree;
    hide MinAgrees;
    hide IsWanted;
    hide IsDue;
  }

  lemma ItemsAre(r: Replayed, x: Item)
    ensures x in ItemsOf(r) <==>
            match x
            case ContentOf(b) => b == r.block
            case BlockOf(b) => b == r.block
            case BlockMetaOf(b) => b == r.block
            case StatusOf(u) => u in r.statuses
  {
    StatusesAre(r.statuses, x);
    hide Statuses;
  }

  lemma {:induction false} AllItemsAre(rs: seq<Replayed>, x: Item)
    ensures x in AllItems(rs) <==> exists r <- rs :: x in ItemsOf(r)
  {
    if rs != [] {
      AllItemsAre(Front(rs), x);
      assert rs == Front(rs) + [Last(rs)];
      hide ItemsOf;
    }
  }

  lemma QualifiesIfReached(s: Store, slot: nat, level: CommitmentLevel)
    requires ProgressionsAgree(s.progressions)
    ensures Qualifies(s, slot, level) <==> HasReached(s, slot, level)
  {
    if slot in s.progressions {
      MaximumIsReached(s, slot, level);
      LevelsAreOrdered(s.progressions[slot].maxCommitment, level);
    }
  }

  lemma ReplayedIs(s: Store, r: Replayed, from: nat, level: CommitmentLevel)
    requires ProgressionsAgree(s.progressions)
    ensures r in Replay(s, from, level) <==>
            exists k <- s.replayed ::
              k >= from && HasReached(s, k, level) && r.block == s.replayed[k] && r.statuses == StatusesOf(s, k)
  {
    var slots := SlotsFrom(s, from);
    ReplayHolds(s, slots, level, r);
    forall k ensures k in s.replayed ==> (IsReplayed(s, r, k, level) <==>
                       HasReached(s, k, level) && r.block == s.replayed[k] && r.statuses == StatusesOf(s, k))
    {
      QualifiesIfReached(s, k, level);
    }
    assert forall k :: k in slots <==> k in s.replayed && k >= from;
    hide SlotsFrom;
    hide ReplayOf;
    hide IsReplayed;
    hide HasReached;
    hide StatusesOf;
    hide ProgressionsAgree;
  }

  /** An answer carries, besides the blocks, their content and summaries, exactly the statuses on record of
      their slots. */
  lemma AnswerHasStatuses(s: Store, from: nat, level: CommitmentLevel, u: StatusUpdate)
    requires ProgressionsAgree(s.progressions) && ReplyTo(s, from, level).Messages?
    ensures StatusOf(u) in ReplyTo(s, from, level).items <==>
            exists k <- s.replayed :: k >= from && HasReached(s, k, level) && u in StatusesOf(s, k)
  {
    var rs := Replay(s, from, level);
    AllItemsAre(rs, StatusOf(u));
    forall r ensures StatusOf(u) in ItemsOf(r) <==> u in r.statuses {
      ItemsAre(r, StatusOf(u));
    }
    assert ReplyTo(s, from, level).items == AllItems(rs);
    hide *;
    forall r ensures r in rs <==>
      exists k <- s.replayed ::
        k >= from && HasReached(s, k, level) && r.block == s.replayed[k] && r.statuses == StatusesOf(s, k)
    {
      ReplayedIs(s, r, from, level);
    }
    if k :| k in s.replayed && k >= from && HasReached(s, k, level) && u in StatusesOf(s, k) {
      var r := Replayed(s.replayed[k], StatusesOf(s, k));
      assert r in rs && u in r.statuses;
    }
  }

  // ---------- channels ----------

  datatype Kind = Content | Block | Summary | Status

  predicate IsOf(x: Item, kind: Kind) {
    match kind
    case Content => x.ContentOf?
    case Block => x.BlockOf?
    case Summary => x.BlockMetaOf?
    case Status => x.StatusOf?
  }

  /** The items of a kind that batches carry, in order. */
  function ItemsOfKind(batches: seq<Batch>, kind: Kind): seq<Item> {
    Filter(Flatten(batches), x => IsOf(x, kind))
  }

  /** What subscribers of the level are owed of a kind for one published entry: every status; and of those at
      their own level the block with its summary, and above Processed its content. */
  function Owed(r: Ready, level: CommitmentLevel, kind: Kind): seq<Item> {
    match kind
    case Status => [StatusOf(r.update)]
    case Block => if r.update.commitment == level then [BlockOf(r.block)] else []
    case Summary => if r.update.commitment == level then [BlockMetaOf(r.block)] else []
    case Content => if r.update.commitment == level && !level.Processed? then [ContentOf(r.block)] else []
  }

  function AllOwed(rs: seq<Ready>, level: CommitmentLevel, kind: Kind): seq<Item> {
    if rs == [] then [] else AllOwed(Front(rs), level, kind) + Owed(Last(rs), level, kind)
  }

  lemma OneOfKind(x: Item, kind: Kind)
    ensures Filter([x], y => IsOf(y, kind)) == if IsOf(x, kind) then [x] else []
  {
    assert Front([x]) == [];
  }

  lemma ItemsOfKindSnoc(batches: seq<Batch>, batch: Batch, kind: Kind)
    ensures ItemsOfKind(batches + [batch], kind) ==
            ItemsOfKind(batches, kind) + Filter(batch, y => IsOf(y, kind))
  {
    assert Front(batches + [batch]) == batches;
    FilterAppend(Flatten(batches), batch, y => IsOf(y, kind));
  }

  lemma {:induction false} ItemsOfKindAppend(a: seq<Batch>, b: seq<Batch>, kind: Kind)
    ensures ItemsOfKind(a + b, kind) == ItemsOfKind(a, kind) + ItemsOfKind(b, kind)
  {
    if b == [] {
      assert a + b == a && ItemsOfKind(b, kind) == [];
    } else {
      assert a + b == (a + Front(b)) + [Last(b)] && b == Front(b) + [Last(b)];
      ItemsOfKindAppend(a, Front(b), kind);
      ItemsOfKindSnoc(a + Front(b), Last(b), kind);
      ItemsOfKindSnoc(Front(b), Last(b), kind);
      hide ItemsOfKind;
      Associative(ItemsOfKind(a, kind), ItemsOfKind(Front(b), kind), Filter(Last(b), y => IsOf(y, kind)));
    }
  }

  lemma NoneOfKind(kind: Kind)
    ensures ItemsOfKind([], kind) == []
  {
  }

  lemma OneBatchOfKind(batch: Batch, kind: Kind)
    ensures ItemsOfKind([batch], kind) == Filter(batch, y => IsOf(y, kind))
  {
    assert [] + [batch] == [batch];
    ItemsOfKindSnoc([], batch, kind);
    NoneOfKind(kind);
  }

  lemma BlockBatchOfKind(b: FrozenBlock, kind: Kind)
    ensures Filter([BlockOf(b), BlockMetaOf(b)], y => IsOf(y, kind)) ==
            match kind
            case Block => [BlockOf(b)]
            case Summary => [BlockMetaOf(b)]
            case _ => []
  {
    assert [BlockOf(b), BlockMetaOf(b)] == [BlockOf(b)] + [BlockMetaOf(b)];
    FilterAppend([BlockOf(b)], [BlockMetaOf(b)], y => IsOf(y, kind));
    OneOfKind(BlockOf(b), kind);
    OneOfKind(BlockMetaOf(b), kind);
    hide Filter;
  }

  lemma AnnouncementOwes(r: Ready, level: CommitmentLevel, kind: Kind)
    ensures ItemsOfKind(Announcement(r, level), kind) == Owed(r, level, kind)
  {
    hide ItemsOfKind;
    hide Filter;
    var block: seq<Batch>, status: seq<Batch> := [[BlockOf(r.block), BlockMetaOf(r.block)]], [[StatusOf(r.update)]];
    var content: seq<Batch> := if level.Processed? then [] else [[ContentOf(r.block)]];
    OneBatchOfKind([StatusOf(r.update)], kind);
    OneOfKind(StatusOf(r.update), kind);
    if r.update.commitment == level {
      assert Announcement(r, level) == content + (block + status);
      ItemsOfKindAppend(content, block + status, kind);
      ItemsOfKindAppend(block, status, kind);
      OneBatchOfKind([BlockOf(r.block), BlockMetaOf(r.block)], kind);
      BlockBatchOfKind(r.block, kind);
      OneBatchOfKind([ContentOf(r.block)], kind);
      OneOfKind(ContentOf(r.block), kind);
      NoneOfKind(kind);
    }
  }

  /** A channel carries exactly what its subscribers are owed for the published entries, each kind in the order
      of publication. */
  lemma {:induction false} ChannelCarries(rs: seq<Ready>, level: CommitmentLevel, kind: Kind)
    ensures ItemsOfKind(Announcements(rs, level), kind) == AllOwed(rs, level, kind)
  {
    if rs == [] {
      NoneOfKind(kind);
    } else {
      ChannelCarries(Front(rs), level, kind);
      ItemsOfKindAppend(Announcements(Front(rs), level), Announcement(Last(rs), level), kind);
      AnnouncementOwes(Last(rs), level, kind);
      hide ItemsOfKind;
      hide Announcement;
    }
  }

  // ---------- what is published ----------

  lemma StillReady(s: Store, i: Input, r: Ready)
    requires (i.OutputIn? ==> CanFreeze(s, i.output)) && r in s.ready
    requires i.OutputIn? && i.output.BankReset? ==> i.output.slot != r.block.meta.slot
    ensures r in Accept(s, i).ready
  {
    if !i.OutputIn? {
      CollectedReady(s, i);
    } else if i.output.SlotStatus? {
      StatusReady(s, i.output.update);
      hide OnStatus;
    } else {
      OutputReady(s, i.output);
      hide OnOutput;
    }
  }

  ghost predicate NoResetSince(inputs: seq<Input>, slot: nat, i: nat) {
    forall j | i < j < |inputs| && inputs[j].OutputIn? && inputs[j].output.BankReset? :: inputs[j].output.slot != slot
  }

  /** The status at `i` finds the block of its slot stored, and no BankReset of the slot follows. */
  lemma {:induction false} StatusIsReady(start: Store, inputs: seq<Input>, i: nat, u: StatusUpdate, b: FrozenBlock)
    requires i < |inputs| && inputs[i] == OutputIn(SlotStatus(u)) && AcceptAll(start, inputs).Some?
    requires AcceptAll(start, inputs[..i]).Some?
    requires Lookup(AcceptAll(start, inputs[..i]).value.replayed, u.slot) == Some(b)
    requires NoResetSince(inputs, b.meta.slot, i)
    ensures Ready(u, b) in AcceptAll(start, inputs).value.ready
  {
    var front, last := Front(inputs), Last(inputs);
    var s := AcceptAll(start, front).value;
    if i == |inputs| - 1 {
      assert inputs[..i] == front;
      StatusReady(s, u);
      AcceptedStatus(s, last);
      hide OnStatus;
    } else {
      assert front[..i] == inputs[..i] && front[i] == inputs[i];
      assert forall j | i < j < |front| :: front[j] == inputs[j];
      StatusIsReady(start, front, i, u, b);
      assert last == inputs[|inputs| - 1];
      hide Accept;
      StillReady(s, last, Ready(u, b));
    }
  }

  /** Every status that finds the block of its slot stored is published with that block, and so sent to the
      subscribers as they are owed; unless a BankReset of the slot comes before the publication. */
  lemma StatusIsPublished(capacity: nat, batches: seq<seq<Input>>, inputs: seq<Input>, i: nat, u: StatusUpdate,
                          b: FrozenBlock)
    requires RunHub(capacity, batches).Some? && RunHub(capacity, batches + [inputs]).Some?
    requires var start := RunHub(capacity, batches).value.store;
             && i < |inputs| && inputs[i] == OutputIn(SlotStatus(u))
             && AcceptAll(start, inputs[..i]).Some?
             && Lookup(AcceptAll(start, inputs[..i]).value.replayed, u.slot) == Some(b)
             && NoResetSince(inputs, b.meta.slot, i)
    ensures Ready(u, b) in RunHub(capacity, batches + [inputs]).value.published
  {
    assert Front(batches + [inputs]) == batches;
    var h := RunHub(capacity, batches).value;
    assert AcceptAll(h.store, inputs).Some?;
    hide RunHub;
    StatusIsReady(h.store, inputs, i, u, b);
    hide AcceptAll;
  }
}
