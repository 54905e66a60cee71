/** Exactly once: what a slot hands out over a whole run, whatever its CreatedBank messages do. */
module DedupExactlyOnce {
  import opened Collections
  import opened Protocol
  import opened DedupModel
  import opened DedupSlots
  import opened DedupHistory

  /** What the window remembers of the payload handed out, which only a CreatedBank on the first
      connection makes it forget, and what follows for the keys handed out. */
  ghost predicate KeysKept(es: seq<Event>, slot: nat, keys: set<DedupKey>, block: seq<Message>) {
    && keys <= KeysOf(block)
    && (forall key <- KeysOf(block) :: key in keys || Behind(es, slot, key))
    && (forall key <- keys :: Behind(es, slot, key) ==> BringsAgain(es, slot, FirstCount(es, slot)))
    && (DistinctKeys(block) <==> !BringsAgain(es, slot, FirstCount(es, slot)))
  }

  /** What the machine of a slot knows before the slot's BlockMeta, once it has noticed that the
      connection is `count`: the payload of the first connection is delivered, that of the current
      one, if it is another, is held. */
  ghost predicate Unfinished(es: seq<Event>, slot: nat, count: nat, v: SlotView, out: seq<Message>) {
    var block := BlockPart(out, slot);
    var first := FirstCount(es, slot);
    && (forall m <- block :: IsPayloadOf(m, slot))
    && if !Named(es, slot) then v == UNKNOWN_SLOT && block == []
       else
         && v.phase.Live?
         && v.phase.st.replaying == (count != first)
         && v.held == (if count != first then PayloadOn(es, slot, count) else [])
         && KeysOf(block) == KeysOf(PayloadOn(es, slot, first))
         && KeysKept(es, slot, v.phase.st.keys, block)
  }

  lemma ResumeUnfinished(es: seq<Event>, slot: nat, count: nat, v: SlotView, out: seq<Message>)
    requires Monotone(es) && LastCount(es) <= count
    requires Unfinished(es, slot, LastCount(es), v, out)
    ensures Unfinished(es, slot, count, ViewResume(v, count != LastCount(es)), out)
  {
    if Named(es, slot) && count != LastCount(es) {
      FirstCountBound(es, slot);
      PayloadOnFuture(es, slot, count);
    }
  }

  /** A status touches the keys and the quarantine of an unfinished slot only by a CreatedBank. */
  lemma StatusView(v: SlotView, key: DedupKey, msg: Message)
    requires !v.phase.Done? && key.Slot?
    ensures var (v', o) := ViewStep(v, key, msg);
            var keep := v.phase.Live? && (key.status == SLOT_CREATED_BANK ==> v.phase.st.replaying);
            && v'.phase.Live? && v'.held == v.held && (o == [] || o == [msg])
            && v'.phase.st.replaying == (keep && v.phase.st.replaying)
            && v'.phase.st.keys == if keep then v.phase.st.keys else {}
  {
  }

  lemma PayloadView(v: SlotView, key: DedupKey, msg: Message)
    requires !v.phase.Done? && key.IsPayload()
    ensures var (v', o) := ViewStep(v, key, msg);
            && v'.phase.Live?
            && if v.phase.Live? && v.phase.st.replaying then
                 v'.phase == v.phase && v'.held == v.held + [msg] && o == []
               else
                 var keys := if v.phase.Live? then v.phase.st.keys else {};
                 && !v'.phase.st.replaying && v'.held == v.held
                 && v'.phase.st.keys == keys + {key} && o == if key in keys then [] else [msg]
  {
  }

  /** A CreatedBank on the first connection puts all keys behind it. */
  lemma KeysAfterBank(es: seq<Event>, e: Event, slot: nat, block: seq<Message>)
    requires Named(es, slot) && IsCreatedBankOf(e.msg, slot) && e.count == FirstCount(es, slot)
    requires KeysOf(block) == KeysOf(PayloadOn(es, slot, e.count))
    requires DistinctKeys(block) <==> !BringsAgain(es, slot, FirstCount(es, slot))
    ensures KeysKept(es + [e], slot, {}, block)
  {
    FirstCountAppend(es, e, slot);
    BringsAgainSnoc(es, e, slot, FirstCount(es, slot));
    BankIsStatus(e.msg, slot);
    hide *;
    KeysBehindBank(es, e, slot, block);
    KeysKeptNone(es + [e], slot, block);
  }

  lemma BankIsStatus(m: Message, slot: nat)
    ensures IsCreatedBankOf(m, slot) ==> OfSlot(m, slot) && !IsPayloadOf(m, slot) && !IsMetaOf(m, slot)
  {
  }

  lemma KeysKeptNone(es: seq<Event>, slot: nat, block: seq<Message>)
    requires forall key <- KeysOf(block) :: Behind(es, slot, key)
    requires DistinctKeys(block) <==> !BringsAgain(es, slot, FirstCount(es, slot))
    ensures KeysKept(es, slot, {}, block)
  {
  }

  lemma KeysBehindBank(es: seq<Event>, e: Event, slot: nat, block: seq<Message>)
    requires Named(es, slot) && IsCreatedBankOf(e.msg, slot) && e.count == FirstCount(es, slot)
    requires KeysOf(block) == KeysOf(PayloadOn(es, slot, e.count))
    ensures forall key <- KeysOf(block) :: Behind(es + [e], slot, key)
  {
    forall key <- KeysOf(block) ensures Behind(es + [e], slot, key) {
      PayloadOnMember(es, slot, e.count, key);
      BehindSnoc(es, e, slot, key);
    }
  }

  /** A message that neither is payload of the first connection nor a CreatedBank there changes nothing. */
  lemma KeysStay(es: seq<Event>, e: Event, slot: nat, keys: set<DedupKey>, block: seq<Message>)
    requires Named(es, slot) && KeysKept(es, slot, keys, block)
    requires IsCreatedBankOf(e.msg, slot) || IsPayloadOf(e.msg, slot) ==> e.count != FirstCount(es, slot)
    ensures KeysKept(es + [e], slot, keys, block)
  {
    FirstCountAppend(es, e, slot);
    BringsAgainSnoc(es, e, slot, FirstCount(es, slot));
    forall key ensures Behind(es + [e], slot, key) <==> Behind(es, slot, key) {
      BehindSnoc(es, e, slot, key);
    }
    hide Behind;
    hide BringsAgain;
    hide FirstCount;
    hide KeysOf;
    hide DistinctKeys;
    hide Named;
  }

  lemma BehindIsBrought(es: seq<Event>, slot: nat, key: DedupKey)
    requires Behind(es, slot, key)
    ensures BroughtOn(es, slot, FirstCount(es, slot), key)
  {
    var b :| 0 <= b < |es| && IsCreatedBankOf(es[b].msg, slot) && es[b].count == FirstCount(es, slot)
             && BroughtOn(es[..b], slot, es[b].count, key);
    var x :| x in es[..b] && x.count == es[b].count && ExtractKey(x.msg) == Some((slot, key));
    assert x in es;
  }

  /** Payload on the first connection. */
  lemma KeysGrow(es: seq<Event>, e: Event, slot: nat, keys: set<DedupKey>, block: seq<Message>)
    requires Named(es, slot) && KeysKept(es, slot, keys, block) && forall m <- block :: OfSlot(m, slot)
    requires IsPayloadOf(e.msg, slot) && e.count == FirstCount(es, slot)
    requires KeysOf(block) == KeysOf(PayloadOn(es, slot, e.count))
    ensures var key := ExtractKey(e.msg).value.1;
            KeysKept(es + [e], slot, keys + {key}, if key in keys then block else block + [e.msg])
  {
    var key := ExtractKey(e.msg).value.1;
    FirstCountAppend(es, e, slot);
    BringsAgainSnoc(es, e, slot, FirstCount(es, slot));
    forall k ensures Behind(es + [e], slot, k) <==> Behind(es, slot, k) {
      BehindSnoc(es, e, slot, k);
    }
    if Behind(es, slot, key) {
      BehindIsBrought(es, slot, key);
      PayloadOnMember(es, slot, e.count, key);
    }
    DistinctSnoc(block, e.msg, slot);
    KeysOfSnoc(block, e.msg);
    hide Behind;
    hide BringsAgain;
    hide FirstCount;
    hide KeysOf;
    hide DistinctKeys;
    hide Named;
    hide ExtractKey;
  }

  /** The slot's first message makes it known. */
  lemma KeysAtFirst(es: seq<Event>, e: Event, slot: nat, keys: set<DedupKey>, block: seq<Message>)
    requires !Named(es, slot) && OfSlot(e.msg, slot) && DistinctKeys(block) && KeysOf(block) == keys
    ensures KeysKept(es + [e], slot, keys, block)
    ensures FirstCount(es + [e], slot) == e.count
  {
    FirstCountAppend(es, e, slot);
    assert (es + [e])[..|es|] == es;
    forall key ensures !Behind(es + [e], slot, key) {
      NotBehindAtFirst(es, e, slot, key);
    }
    NothingAgain(es + [e], slot, e.count);
    hide Behind;
    hide BringsAgain;
    hide FirstCount;
    hide KeysOf;
    hide DistinctKeys;
    hide Named;
  }

  lemma NotBehindAtFirst(es: seq<Event>, e: Event, slot: nat, key: DedupKey)
    requires !Named(es, slot)
    ensures !Behind(es + [e], slot, key)
  {
    var all := es + [e];
    forall b: nat | b < |all| ensures !BroughtOn(all[..b], slot, all[b].count, key) {
      assert all[..b] == es[..b];
      if BroughtOn(es[..b], slot, all[b].count, key) {
        BroughtIsNamed(es[..b], slot, all[b].count, key);
        NamedPrefix(es, b, slot);
      }
    }
    hide BroughtOn;
  }

  lemma NothingAgain(es: seq<Event>, slot: nat, count: nat)
    requires forall key :: !Behind(es, slot, key)
    ensures !BringsAgain(es, slot, count)
  {
    forall j: nat, key | j <= |es| ensures !Behind(es[..j], slot, key) {
      if Behind(es[..j], slot, key) {
        BehindPrefix(es, j, slot, key);
      }
    }
    hide Behind;
  }

  /** The state of an unfinished slot that was named, put together. */
  lemma UnfinishedIs(es: seq<Event>, slot: nat, count: nat, v: SlotView, out: seq<Message>, block: seq<Message>)
    requires Named(es, slot) && v.phase.Live? && v.phase.st.replaying == (count != FirstCount(es, slot))
    requires v.held == if count != FirstCount(es, slot) then PayloadOn(es, slot, count) else []
    requires BlockPart(out, slot) == block && forall m <- block :: IsPayloadOf(m, slot)
    requires KeysOf(block) == KeysOf(PayloadOn(es, slot, FirstCount(es, slot)))
    requires KeysKept(es, slot, v.phase.st.keys, block)
    ensures Unfinished(es, slot, count, v, out)
  {
    hide KeysKept;
  }

  /** And taken apart. */
  lemma UnfinishedHas(es: seq<Event>, slot: nat, count: nat, v: SlotView, out: seq<Message>)
    requires Unfinished(es, slot, count, v, out) && Named(es, slot)
    ensures v.phase.Live? && v.phase.st.replaying == (count != FirstCount(es, slot))
    ensures v.held == if count != FirstCount(es, slot) then PayloadOn(es, slot, count) else []
    ensures forall m <- BlockPart(out, slot) :: IsPayloadOf(m, slot) && OfSlot(m, slot)
    ensures KeysOf(BlockPart(out, slot)) == KeysOf(PayloadOn(es, slot, FirstCount(es, slot)))
    ensures KeysKept(es, slot, v.phase.st.keys, BlockPart(out, slot))
  {
    hide KeysKept;
  }

  lemma StatusOfUnnamed(es: seq<Event>, e: Event, slot: nat, v: SlotView, out: seq<Message>)
    requires v == UNKNOWN_SLOT && BlockPart(out, slot) == [] && !Named(es, slot)
    requires OfSlot(e.msg, slot) && ExtractKey(e.msg).value.1.Slot?
    ensures var (v', o) := ViewStep(v, ExtractKey(e.msg).value.1, e.msg);
            Unfinished(es + [e], slot, e.count, v', out + o)
  {
    var (v', o) := ViewStep(v, ExtractKey(e.msg).value.1, e.msg);
    StatusView(v, ExtractKey(e.msg).value.1, e.msg);
    KindOf(e.msg, slot);
    StatusIsNotBlock(e.msg, slot);
    HistoryAppend(es, e, slot);
    BlockPartStep(out, o, e.msg, slot);
    NamedIfCarried(es, slot);
    NoPayloadOn(es, slot, e.count);
    NoKeys();
    NoneDistinct();
    KeysAtFirst(es, e, slot, {}, []);
    hide *;
    UnfinishedIs(es + [e], slot, e.count, v', out + o, []);
  }

  lemma StatusIsNotBlock(m: Message, slot: nat)
    requires OfSlot(m, slot) && ExtractKey(m).value.1.Slot?
    ensures !IsPayloadOf(m, slot) && !InBlock(m, slot)
    ensures IsCreatedBankOf(m, slot) <==> ExtractKey(m).value.1.status == SLOT_CREATED_BANK
  {
  }

  lemma NoneDistinct()
    ensures DistinctKeys([])
  {
  }

  lemma StatusOfNamed(es: seq<Event>, e: Event, slot: nat, v: SlotView, out: seq<Message>)
    requires Unfinished(es, slot, e.count, v, out) && Named(es, slot)
    requires OfSlot(e.msg, slot) && ExtractKey(e.msg).value.1.Slot?
    ensures var (v', o) := ViewStep(v, ExtractKey(e.msg).value.1, e.msg);
            Unfinished(es + [e], slot, e.count, v', out + o)
  {
    var (v', o) := ViewStep(v, ExtractKey(e.msg).value.1, e.msg);
    var block := BlockPart(out, slot);
    UnfinishedHas(es, slot, e.count, v, out);
    StatusView(v, ExtractKey(e.msg).value.1, e.msg);
    StatusIsNotBlock(e.msg, slot);
    HistoryAppend(es, e, slot);
    FirstCountAppend(es, e, slot);
    BlockPartStep(out, o, e.msg, slot);
    hide *;
    if IsCreatedBankOf(e.msg, slot) && e.count == FirstCount(es, slot) {
      KeptDistinct(es, slot, v.phase.st.keys, block);
      KeysAfterBank(es, e, slot, block);
    } else {
      KeysStay(es, e, slot, v.phase.st.keys, block);
    }
    UnfinishedIs(es + [e], slot, e.count, v', out + o, block);
  }

  lemma KeptDistinct(es: seq<Event>, slot: nat, keys: set<DedupKey>, block: seq<Message>)
    requires KeysKept(es, slot, keys, block)
    ensures keys <= KeysOf(block) && (DistinctKeys(block) <==> !BringsAgain(es, slot, FirstCount(es, slot)))
  {
    hide Behind;
    hide BringsAgain;
    hide DistinctKeys;
  }

  /** The payload that names the slot for the first time. */
  lemma FirstPayload(es: seq<Event>, e: Event, slot: nat)
    requires !Named(es, slot) && IsPayloadOf(e.msg, slot)
    ensures Named(es + [e], slot) && FirstCount(es + [e], slot) == e.count
    ensures PayloadOn(es + [e], slot, e.count) == [e.msg]
    ensures KeysKept(es + [e], slot, {ExtractKey(e.msg).value.1}, [e.msg])
  {
    KindOf(e.msg, slot);
    HistoryAppend(es, e, slot);
    NamedIfCarried(es, slot);
    NoPayloadOn(es, slot, e.count);
    NoKeys();
    KeysOfSnoc([], e.msg);
    assert [] + [e.msg] == [e.msg];
    OneDistinct(e.msg);
    KeysAtFirst(es, e, slot, {ExtractKey(e.msg).value.1}, [e.msg]);
    hide *;
  }

  lemma OneDistinct(m: Message)
    ensures DistinctKeys([m])
  {
  }

  lemma PayloadKind(m: Message, slot: nat)
    requires IsPayloadOf(m, slot)
    ensures OfSlot(m, slot) && InBlock(m, slot) && ExtractKey(m).Some? && ExtractKey(m).value.1.IsPayload()
  {
  }

  lemma UnknownPayload(v: SlotView, key: DedupKey, msg: Message)
    requires v == UNKNOWN_SLOT && key.IsPayload()
    ensures ViewStep(v, key, msg) == (SlotView(Live(SlotState({key}, false, {})), []), [msg])
  {
    assert {} + {key} == {key};
  }

  lemma PayloadOfUnnamed(es: seq<Event>, e: Event, slot: nat, v: SlotView, out: seq<Message>)
    requires v == UNKNOWN_SLOT && BlockPart(out, slot) == [] && !Named(es, slot) && IsPayloadOf(e.msg, slot)
    ensures var (v', o) := ViewStep(v, ExtractKey(e.msg).value.1, e.msg);
            Unfinished(es + [e], slot, e.count, v', out + o)
  {
    hide *;
    PayloadKind(e.msg, slot);
    var key := ExtractKey(e.msg).value.1;
    var (v', o) := ViewStep(v, key, e.msg);
    UnknownPayload(v, key, e.msg);
    assert [] + [e.msg] == [e.msg];
    BlockPartStep(out, o, e.msg, slot);
    FirstPayload(es, e, slot);
    UnfinishedIs(es + [e], slot, e.count, v', out + o, [e.msg]);
  }

  /** Payload on another connection than the first is held. */
  lemma PayloadHeld(es: seq<Event>, e: Event, slot: nat, v: SlotView, out: seq<Message>)
    requires Unfinished(es, slot, e.count, v, out) && Named(es, slot) && IsPayloadOf(e.msg, slot)
    requires e.count != FirstCount(es, slot)
    ensures var (v', o) := ViewStep(v, ExtractKey(e.msg).value.1, e.msg);
            Unfinished(es + [e], slot, e.count, v', out + o)
  {
    var (v', o) := ViewStep(v, ExtractKey(e.msg).value.1, e.msg);
    UnfinishedHas(es, slot, e.count, v, out);
    PayloadView(v, ExtractKey(e.msg).value.1, e.msg);
    HistoryAppend(es, e, slot);
    FirstCountAppend(es, e, slot);
    hide *;
    assert out + [] == out;
    KeysStay(es, e, slot, v.phase.st.keys, BlockPart(out, slot));
    UnfinishedIs(es + [e], slot, e.count, v', out + o, BlockPart(out, slot));
  }

  /** Payload on the first connection is delivered, unless its key is remembered. */
  lemma PayloadDelivered(es: seq<Event>, e: Event, slot: nat, v: SlotView, out: seq<Message>)
    requires Unfinished(es, slot, e.count, v, out) && Named(es, slot) && IsPayloadOf(e.msg, slot)
    requires e.count == FirstCount(es, slot)
    ensures var (v', o) := ViewStep(v, ExtractKey(e.msg).value.1, e.msg);
            Unfinished(es + [e], slot, e.count, v', out + o)
  {
    hide *;
    PayloadKind(e.msg, slot);
    var key := ExtractKey(e.msg).value.1;
    var (v', o) := ViewStep(v, key, e.msg);
    var block := BlockPart(out, slot);
    UnfinishedHas(es, slot, e.count, v, out);
    var keys, block' := v.phase.st.keys, if key in v.phase.st.keys then block else block + [e.msg];
    PayloadView(v, key, e.msg);
    HistoryAppend(es, e, slot);
    FirstCountAppend(es, e, slot);
    BlockPartStep(out, o, e.msg, slot);
    KeptDistinct(es, slot, keys, block);
    KeysGrow(es, e, slot, keys, block);
    PayloadOnSnoc(es, e, slot, e.count);
    KeysOfSnoc(block, e.msg);
    assert forall m <- block' :: m in block || m == e.msg;
    UnfinishedIs(es + [e], slot, e.count, v', out + o, block');
  }

  lemma UnfinishedUnnamed(es: seq<Event>, slot: nat, count: nat, v: SlotView, out: seq<Message>)
    requires !Named(es, slot)
    ensures Unfinished(es, slot, count, v, out) <==> v == UNKNOWN_SLOT && BlockPart(out, slot) == []
  {
    hide BlockPart;
  }

  lemma UnfinishedStep(es: seq<Event>, e: Event, slot: nat)
    requires Monotone(es + [e]) && !Completed(es + [e], slot)
    requires Unfinished(es, slot, LastCount(es), SlotRun(es, slot).view, SlotRun(es, slot).out)
    ensures Unfinished(es + [e], slot, e.count, SlotRun(es + [e], slot).view, SlotRun(es + [e], slot).out)
  {
    hide *;
    var r := SlotRun(es, slot);
    SlotRunCount(es, slot);
    SlotRunAppend(es, e, slot);
    var v := ViewResume(r.view, e.count != r.lastCount);
    FrontOrdered(es, e);
    KindOf(e.msg, slot);
    ResumeUnfinished(es, slot, e.count, r.view, r.out);
    HistoryAppend(es, e, slot);
    if !OfSlot(e.msg, slot) {
      SkipStep(es, e, slot, v, r.out);
    } else if IsPayloadOf(e.msg, slot) {
      if Named(es, slot) {
        if e.count == FirstCount(es, slot) {
          PayloadDelivered(es, e, slot, v, r.out);
        } else {
          PayloadHeld(es, e, slot, v, r.out);
        }
      } else {
        UnfinishedUnnamed(es, slot, e.count, v, r.out);
        PayloadOfUnnamed(es, e, slot, v, r.out);
      }
    } else if Named(es, slot) {
      StatusOfNamed(es, e, slot, v, r.out);
    } else {
      UnfinishedUnnamed(es, slot, e.count, v, r.out);
      StatusOfUnnamed(es, e, slot, v, r.out);
    }
  }

  lemma {:induction false} SlotRunCount(es: seq<Event>, slot: nat)
    ensures SlotRun(es, slot).lastCount == LastCount(es)
  {
  }

  lemma SkipStep(es: seq<Event>, e: Event, slot: nat, v: SlotView, out: seq<Message>)
    requires Unfinished(es, slot, e.count, v, out) && !OfSlot(e.msg, slot)
    ensures Unfinished(es + [e], slot, e.count, v, out)
  {
    HistoryAppend(es, e, slot);
    FirstCountAppend(es, e, slot);
    KindOf(e.msg, slot);
    BankIsStatus(e.msg, slot);
    if Named(es, slot) {
      UnfinishedHas(es, slot, e.count, v, out);
      hide *;
      KeysStay(es, e, slot, v.phase.st.keys, BlockPart(out, slot));
      UnfinishedIs(es + [e], slot, e.count, v, out, BlockPart(out, slot));
    } else {
      hide *;
      UnfinishedUnnamed(es, slot, e.count, v, out);
      UnfinishedUnnamed(es + [e], slot, e.count, v, out);
    }
  }

  /** Before its BlockMeta, the machine of a slot always is as `Unfinished` says. */
  lemma {:induction false} AlwaysUnfinished(es: seq<Event>, slot: nat)
    requires Monotone(es) && !Completed(es, slot)
    ensures Unfinished(es, slot, LastCount(es), SlotRun(es, slot).view, SlotRun(es, slot).out)
  {
    if es != [] {
      var front, e := Front(es), Last(es);
      assert es == front + [e];
      FrontOrdered(front, e);
      HistoryAppend(front, e, slot);
      AlwaysUnfinished(front, slot);
      UnfinishedStep(front, e, slot);
    } else {
      assert !Named(es, slot);
    }
  }

  /** `block` is the block of the slot: payload with the given keys, then the BlockMeta and nothing more. */
  ghost predicate DeliveredWhole(block: seq<Message>, slot: nat, keys: set<DedupKey>, meta: Message) {
    && block != [] && Last(block) == meta && IsMetaOf(meta, slot)
    && (forall m <- Front(block) :: IsPayloadOf(m, slot))
    && KeysOf(Front(block)) == keys
  }

  /** And each key comes once. */
  ghost predicate DeliveredOnce(block: seq<Message>, slot: nat, keys: set<DedupKey>, meta: Message) {
    DeliveredWhole(block, slot, keys, meta) && DistinctKeys(block)
  }

  ghost predicate SealedAs(v: SlotView, hash: string) {
    v.phase.Done? && v.phase.sealed.blockhash == Some(hash)
  }

  lemma MetaView(v: SlotView, key: DedupKey, msg: Message)
    requires !v.phase.Done? && key.BlockMeta?
    ensures var (v', o) := ViewStep(v, key, msg);
            && SealedAs(v', key.blockhash)
            && o == (if v.phase.Live? && v.phase.st.replaying then Reconciled(v.held, v.phase.st.keys) else []) + [msg]
  {
    assert [] + [msg] == [msg];
  }

  lemma MetaAfterBlock(block: seq<Message>, slot: nat, keys: set<DedupKey>, meta: Message)
    requires KeysOf(block) == keys && (forall m <- block :: IsPayloadOf(m, slot)) && IsMetaOf(meta, slot)
    ensures DeliveredWhole(block + [meta], slot, keys, meta)
    ensures DistinctKeys(block + [meta]) <==> DistinctKeys(block)
  {
    KeysOfMember(block, ExtractKey(meta).value.1);
    DistinctSnoc(block, meta, slot);
    assert Front(block + [meta]) == block;
    hide KeysOf;
    hide DistinctKeys;
  }

  /** What reconciliation adds to an unfinished block. */
  function Late(v: SlotView): seq<Message> {
    if v.phase.Live? && v.phase.st.replaying then Reconciled(v.held, v.phase.st.keys) else []
  }

  lemma LateKeys(es: seq<Event>, count: nat, slot: nat, v: SlotView, out: seq<Message>)
    requires Unfinished(es, slot, count, v, out) && Named(es, slot) && count != FirstCount(es, slot)
    ensures DistinctKeys(Late(v)) && KeysOf(Late(v)) == KeysOf(PayloadOn(es, slot, count)) - v.phase.st.keys
    ensures forall m <- Late(v) :: IsPayloadOf(m, slot)
  {
    PayloadOnIsPayload(es, slot, count);
    ReconciledCompletes(v.held, v.phase.st.keys, slot);
    hide KeysKept;
    hide DistinctKeys;
    hide KeysOf;
    hide Reconciled;
    hide PayloadOn;
    hide BlockPart;
  }

  /** What the completing connection adds repeats a delivered key if that is behind a CreatedBank. */
  lemma LateRepeats(es: seq<Event>, count: nat, slot: nat, keys: set<DedupKey>, block: seq<Message>)
    requires Monotone(es) && count > FirstCount(es, slot) && KeysKept(es, slot, keys, block)
    requires KeysOf(block) == KeysOf(PayloadOn(es, slot, FirstCount(es, slot)))
    ensures DistinctKeys(block) && KeysOf(block) !! (KeysOf(PayloadOn(es, slot, count)) - keys) <==>
            !BringsAgain(es, slot, count)
  {
    BringsAgainLater(es, slot, count);
    forall key: DedupKey
      ensures key in KeysOf(PayloadOn(es, slot, count)) <==> key.IsPayload() && BroughtOn(es, slot, count, key)
      ensures key.IsPayload() && Behind(es, slot, key) ==> key in KeysOf(block)
    {
      PayloadOnMember(es, slot, count, key);
      PayloadOnMember(es, slot, FirstCount(es, slot), key);
      if Behind(es, slot, key) {
        BehindIsBrought(es, slot, key);
      }
    }
    hide Behind;
    hide BringsAgain;
    hide BroughtOn;
    hide FirstCount;
    hide KeysOf;
    hide PayloadOn;
    hide DistinctKeys;
  }

  /** An unfinished block and what reconciliation adds to it are the deliverable payload. */
  lemma CompletedBlock(es: seq<Event>, count: nat, slot: nat, v: SlotView, out: seq<Message>)
    requires Unfinished(es, slot, count, v, out) && Monotone(es) && LastCount(es) <= count
    ensures var block := BlockPart(out, slot) + Late(v);
            && KeysOf(block) == DeliverableKeys(es, slot, count)
            && (forall m <- block :: IsPayloadOf(m, slot))
            && (DistinctKeys(block) <==> !BringsAgain(es, slot, count))
    ensures forall m <- Late(v) :: InBlock(m, slot)
  {
    var block := BlockPart(out, slot);
    NoKeys();
    if !Named(es, slot) {
      UnnamedDelivers(es, count, slot);
      assert block + Late(v) == [];
      forall key ensures !Behind(es, slot, key) {
        assert es[..|es|] == es;
        UnnamedNotBehind(es, |es|, slot, key);
      }
      NothingAgain(es, slot, count);
    } else if count != FirstCount(es, slot) {
      FirstCountBound(es, slot);
      LateKeys(es, count, slot, v, out);
      LateRepeats(es, count, slot, v.phase.st.keys, block);
      CompletedLater(es, count, slot, v, block);
    } else {
      assert block + Late(v) == block;
    }
    hide KeysKept;
    hide KeysOf;
    hide DistinctKeys;
    hide BringsAgain;
    hide PayloadOn;
    hide FirstCount;
  }

  lemma CompletedLater(es: seq<Event>, count: nat, slot: nat, v: SlotView, block: seq<Message>)
    requires v.phase.Live? && v.phase.st.keys <= KeysOf(block)
    requires KeysOf(block) == KeysOf(PayloadOn(es, slot, FirstCount(es, slot)))
    requires DistinctKeys(Late(v)) && KeysOf(Late(v)) == KeysOf(PayloadOn(es, slot, count)) - v.phase.st.keys
    requires forall m <- block :: IsPayloadOf(m, slot)
    requires forall m <- Late(v) :: IsPayloadOf(m, slot)
    ensures KeysOf(block + Late(v)) == DeliverableKeys(es, slot, count)
    ensures DistinctKeys(block + Late(v)) <==>
            DistinctKeys(block) && KeysOf(block) !! (KeysOf(PayloadOn(es, slot, count)) - v.phase.st.keys)
  {
    KeysOfAppend(block, Late(v));
    DistinctAppend(block, Late(v), slot);
    hide KeysOf;
    hide DistinctKeys;
    hide Late;
    hide PayloadOn;
    hide FirstCount;
  }

  /** The BlockMeta of an unfinished slot completes its block on the output. */
  lemma MetaStep(es: seq<Event>, e: Event, slot: nat, v: SlotView, out: seq<Message>)
    requires Unfinished(es, slot, e.count, v, out) && IsMetaOf(e.msg, slot) && Monotone(es) && LastCount(es) <= e.count
    ensures var (v', o) := ViewStep(v, ExtractKey(e.msg).value.1, e.msg);
            && SealedAs(v', ExtractKey(e.msg).value.1.blockhash)
            && DeliveredWhole(BlockPart(out + o, slot), slot, DeliverableKeys(es, slot, e.count), e.msg)
            && (DistinctKeys(BlockPart(out + o, slot)) <==> !BringsAgain(es, slot, e.count))
  {
    var (v', o) := ViewStep(v, ExtractKey(e.msg).value.1, e.msg);
    var block, late := BlockPart(out, slot), Late(v);
    UnfinishedIsOpen(es, e.count, slot, v, out);
    MetaView(v, ExtractKey(e.msg).value.1, e.msg);
    CompletedBlock(es, e.count, slot, v, out);
    KindOf(e.msg, slot);
    KindOfMeta(e.msg, slot);
    assert InBlock(e.msg, slot);
    hide *;
    assert forall m <- o :: m in late || m == e.msg;
    BlockPartAll(o, slot);
    BlockPartAppend(out, o, slot);
    Associative(block, late, [e.msg]);
    MetaAfterBlock(block + late, slot, DeliverableKeys(es, slot, e.count), e.msg);
  }

  lemma UnfinishedIsOpen(es: seq<Event>, count: nat, slot: nat, v: SlotView, out: seq<Message>)
    requires Unfinished(es, slot, count, v, out)
    ensures !v.phase.Done?
  {
    hide KeysKept;
  }

  /** A sealed slot adds nothing to its block, however often it is replayed. */
  lemma SealedStep(v: SlotView, msg: Message, slot: nat, hash: string, out: seq<Message>)
    requires SealedAs(v, hash) && OfSlot(msg, slot) && !IsCreatedBankOf(msg, slot)
    requires IsMetaOf(msg, slot) ==> ExtractKey(msg).value.1 == BlockMeta(hash)
    ensures var (v', o) := ViewStep(v, ExtractKey(msg).value.1, msg);
            SealedAs(v', hash) && BlockPart(out + o, slot) == BlockPart(out, slot)
  {
    var (v', o) := ViewStep(v, ExtractKey(msg).value.1, msg);
    BlockPartStep(out, o, msg, slot);
  }

  /** The BlockMeta of the slot comes for the first time. */
  lemma FirstMeta(es: seq<Event>, e: Event, slot: nat)
    requires Monotone(es + [e]) && IsMetaOf(e.msg, slot) && !Completed(es, slot)
    ensures SealedAs(SlotRun(es + [e], slot).view, ExtractKey(e.msg).value.1.blockhash)
    ensures var block := BlockPart(SlotRun(es + [e], slot).out, slot);
            && DeliveredWhole(block, slot, DeliverableKeys(es, slot, e.count), e.msg)
            && (DistinctKeys(block) <==> !BringsAgain(es, slot, e.count))
  {
    KindOfMeta(e.msg, slot);
    FrontOrdered(es, e);
    hide *;
    var r := SlotRun(es, slot);
    AlwaysUnfinished(es, slot);
    SlotRunCount(es, slot);
    SlotRunAppend(es, e, slot);
    ResumeUnfinished(es, slot, e.count, r.view, r.out);
    MetaStep(es, e, slot, ViewResume(r.view, e.count != r.lastCount), r.out);
  }

  lemma ResumedSealed(v: SlotView, newReplay: bool, hash: string)
    requires SealedAs(v, hash)
    ensures SealedAs(ViewResume(v, newReplay), hash)
  {
  }

  /** A message that comes after the BlockMeta of the slot. */
  lemma AfterMetaStep(es: seq<Event>, e: Event, slot: nat, hash: string)
    requires SealedAs(SlotRun(es, slot).view, hash) && !IsCreatedBankOf(e.msg, slot)
    requires IsMetaOf(e.msg, slot) ==> ExtractKey(e.msg).value.1 == BlockMeta(hash)
    ensures SealedAs(SlotRun(es + [e], slot).view, hash)
    ensures BlockPart(SlotRun(es + [e], slot).out, slot) == BlockPart(SlotRun(es, slot).out, slot)
  {
    hide *;
    var r := SlotRun(es, slot);
    SlotRunAppend(es, e, slot);
    ResumedSealed(r.view, e.count != r.lastCount, hash);
    if OfSlot(e.msg, slot) {
      SealedStep(ViewResume(r.view, e.count != r.lastCount), e.msg, slot, hash, r.out);
    }
  }

  /** From its first BlockMeta, event `m`, to the first CreatedBank after it, the block of a slot on the
      output stays what it was, whatever is replayed. */
  lemma {:induction false} AfterMeta(es: seq<Event>, slot: nat, m: nat, hash: string)
    requires OneHash(es, slot, hash) && m < |es| && SealedAs(SlotRun(es[..m + 1], slot).view, hash)
    requires forall x | m < x < |es| :: !IsCreatedBankOf(es[x].msg, slot)
    ensures SealedAs(SlotRun(es, slot).view, hash)
    ensures BlockPart(SlotRun(es, slot).out, slot) == BlockPart(SlotRun(es[..m + 1], slot).out, slot)
  {
    if m == |es| - 1 {
      assert es[..m + 1] == es;
    } else {
      var front, e := Front(es), Last(es);
      assert es == front + [e] && front[..m + 1] == es[..m + 1] && es[|es| - 1] == e && e in es;
      assert forall x <- front :: x in es;
      assert forall x | m < x < |front| :: front[x] == es[x];
      assert IsMetaOf(e.msg, slot) ==> ExtractKey(e.msg).value.1 == BlockMeta(hash);
      assert OneHash(front, slot, hash);
      hide *;
      AfterMeta(front, slot, m, hash);
      AfterMetaStep(front, e, slot, hash);
    }
  }

  // ---------- a CreatedBank after the BlockMeta ----------

  /** After a CreatedBank on connection `count`, the slot is open again and remembers no payload. */
  ghost predicate Reopened(v: SlotView, last: nat, count: nat) {
    v.phase.Live? && v.phase.st.keys == {} && v.phase.st.replaying == (last != count)
  }

  lemma BankReopens(v: SlotView, msg: Message, slot: nat)
    requires v.phase.Done? && IsCreatedBankOf(msg, slot)
    ensures var (v', o) := ViewStep(v, ExtractKey(msg).value.1, msg);
            v'.phase.Live? && v'.phase.st.keys == {} && !v'.phase.st.replaying && o == [msg]
  {
  }

  lemma ReopenedStays(v: SlotView, last: nat, e: Event, slot: nat, count: nat, out: seq<Message>)
    requires Reopened(v, last, count) && count <= last <= e.count && OfSlot(e.msg, slot)
    requires !IsMetaOf(e.msg, slot) && !(IsPayloadOf(e.msg, slot) && e.count == count)
    ensures var (v', o) := ViewStep(ViewResume(v, e.count != last), ExtractKey(e.msg).value.1, e.msg);
            Reopened(v', e.count, count) && BlockPart(out + o, slot) == BlockPart(out, slot)
  {
    var key := ExtractKey(e.msg).value.1;
    var v1 := ViewResume(v, e.count != last);
    KindOf(e.msg, slot);
    var (v', o) := ViewStep(v1, key, e.msg);
    if IsPayloadOf(e.msg, slot) {
      PayloadView(v1, key, e.msg);
    } else {
      StatusView(v1, key, e.msg);
    }
    hide ViewStep;
    BlockPartStep(out, o, e.msg, slot);
  }

  lemma ReopenedRepeats(v: SlotView, last: nat, e: Event, slot: nat, count: nat)
    requires Reopened(v, last, count) && count <= last <= e.count
    requires IsMetaOf(e.msg, slot) || (IsPayloadOf(e.msg, slot) && e.count == count)
    ensures var (v', o) := ViewStep(ViewResume(v, e.count != last), ExtractKey(e.msg).value.1, e.msg);
            o != [] && Last(o) == e.msg && InBlock(e.msg, slot)
  {
    var v1 := ViewResume(v, e.count != last);
    if IsMetaOf(e.msg, slot) {
      MetaView(v1, ExtractKey(e.msg).value.1, e.msg);
    } else {
      PayloadView(v1, ExtractKey(e.msg).value.1, e.msg);
    }
    hide ViewStep;
  }

  lemma BlockGrows(out: seq<Message>, o: seq<Message>, slot: nat)
    ensures BlockPart(out, slot) <= BlockPart(out + o, slot)
    ensures o != [] && InBlock(Last(o), slot) ==> BlockPart(out, slot) < BlockPart(out + o, slot)
  {
    BlockPartAppend(out, o, slot);
    if o != [] {
      assert o == Front(o) + [Last(o)];
      BlockPartAppend(Front(o), [Last(o)], slot);
      BlockPartSingle(Last(o), slot);
    }
    hide BlockPart;
  }

  /** What the slot's machine has become since event `b`, a CreatedBank that found the slot sealed. */
  ghost predicate SinceBank(es: seq<Event>, slot: nat, b: nat)
    requires b < |es|
  {
    var before, r := SlotRun(es[..b], slot), SlotRun(es, slot);
    if NothingFollows(es, slot, b)
    then Reopened(r.view, r.lastCount, es[b].count) && BlockPart(r.out, slot) == BlockPart(before.out, slot)
    else BlockPart(before.out, slot) < BlockPart(r.out, slot)
  }

  lemma NothingFollowsSnoc(es: seq<Event>, e: Event, slot: nat, b: nat)
    requires b < |es|
    ensures NothingFollows(es + [e], slot, b) <==>
            && NothingFollows(es, slot, b)
            && !IsMetaOf(e.msg, slot) && !(IsPayloadOf(e.msg, slot) && e.count == es[b].count)
  {
    var all := es + [e];
    hide IsMetaOf;
    hide IsPayloadOf;
    assert all[|es|] == e && forall x | 0 <= x < |es| :: all[x] == es[x];
  }

  lemma SinceBankStep(es: seq<Event>, e: Event, slot: nat, b: nat)
    requires Monotone(es + [e]) && b < |es| && SinceBank(es, slot, b)
    ensures SinceBank(es + [e], slot, b)
  {
    var all, r := es + [e], SlotRun(es, slot);
    assert all[..b] == es[..b] && all[b] == es[b];
    NothingFollowsSnoc(es, e, slot, b);
    FrontOrdered(es, e);
    SlotRunAppend(es, e, slot);
    SlotRunCount(es, slot);
    CountSince(es, b);
    KindOf(e.msg, slot);
    if OfSlot(e.msg, slot) {
      var o := ViewStep(ViewResume(r.view, e.count != r.lastCount), ExtractKey(e.msg).value.1, e.msg).1;
      BlockGrows(r.out, o, slot);
      if NothingFollows(es, slot, b) {
        if NothingFollows(all, slot, b) {
          ReopenedStays(r.view, r.lastCount, e, slot, es[b].count, r.out);
        } else {
          ReopenedRepeats(r.view, r.lastCount, e, slot, es[b].count);
        }
      }
    }
    hide NothingFollows;
    hide ViewStep;
    hide SlotRun;
    hide BlockPart;

  }

  lemma CountSince(es: seq<Event>, b: nat)
    requires Monotone(es) && b < |es|
    ensures es[b].count <= LastCount(es)
  {
  }

  lemma {:induction false} AfterBank(es: seq<Event>, slot: nat, b: nat)
    requires Monotone(es) && b < |es| && IsCreatedBankOf(es[b].msg, slot) && SlotRun(es[..b], slot).view.phase.Done?
    ensures SinceBank(es, slot, b)
  {
    var front, e := Front(es), Last(es);
    assert es == front + [e];
    if b == |es| - 1 {
      assert es[..b] == front && es[b] == e;
      var r := SlotRun(front, slot);
      SlotRunAppend(front, e, slot);
      BankIsStatus(e.msg, slot);
      BankReopens(ViewResume(r.view, e.count != r.lastCount), e.msg, slot);
      BlockPartStep(r.out, [e.msg], e.msg, slot);
      hide ViewStep;
      hide SlotRun;
      hide BlockPart;
    } else {
      assert front[..b] == es[..b] && front[b] == es[b];
      FrontOrdered(front, e);
      AfterBank(front, slot, b);
      SinceBankStep(front, e, slot, b);
    }
  }

  // ---------- the whole run ----------

  lemma FirstBank(es: seq<Event>, slot: nat, m: nat) returns (b: nat)
    requires m < |es| && exists x | m < x < |es| :: IsCreatedBankOf(es[x].msg, slot)
    ensures FirstBankAfter(es, slot, m, b)
  {
    b := m + 1;
    while !IsCreatedBankOf(es[b].msg, slot)
      invariant m < b < |es|
      invariant forall x | m < x < b :: !IsCreatedBankOf(es[x].msg, slot)
      invariant exists x | b <= x < |es| :: IsCreatedBankOf(es[x].msg, slot)
      decreases |es| - b
    {
      b := b + 1;
    }
  }

  /** A block that was delivered and has grown since holds its BlockMeta in the middle. */
  lemma GrownIsNotOnce(before: seq<Message>, block: seq<Message>, slot: nat, keys: set<DedupKey>, meta: Message)
    requires DeliveredWhole(before, slot, keys, meta) && before < block
    ensures !DeliveredOnce(block, slot, keys, meta)
  {
    assert Front(block)[|before| - 1] == meta && meta in Front(block);
    assert !IsPayloadOf(meta, slot);
    hide KeysOf;
  }

  /** From its first BlockMeta on, the block of a slot stays what it is if and only if no late CreatedBank
      does harm, and otherwise grows. */
  lemma MachineAfterMeta(es: seq<Event>, slot: nat, m: nat, hash: string)
    requires Monotone(es) && OneHash(es, slot, hash) && m < |es|
    requires SealedAs(SlotRun(es[..m + 1], slot).view, hash)
    ensures var whole, block := BlockPart(SlotRun(es[..m + 1], slot).out, slot), BlockPart(SlotRun(es, slot).out, slot);
            && (LateBanksAreHarmless(es, slot, m) ==> block == whole)
            && (!LateBanksAreHarmless(es, slot, m) ==> whole < block)
  {
    if exists x | m < x < |es| :: IsCreatedBankOf(es[x].msg, slot) {
      var b := FirstBank(es, slot, m);
      OneFirstBank(es, slot, m, b);
      hide IsCreatedBankOf;
      MachineAfterBank(es, slot, m, b, hash);
      hide NothingFollows;
    } else {
      assert LateBanksAreHarmless(es, slot, m);
      hide LateBanksAreHarmless;
      AfterMeta(es, slot, m, hash);
    }
    hide SlotRun;
    hide BlockPart;
  }

  /** The slot's machine over a whole run: it hands the block out once if and only if no CreatedBank does
      harm. */
  lemma MachineDeliversOnce(es: seq<Event>, slot: nat, m: nat, hash: string)
    requires Monotone(es) && OneHash(es, slot, hash)
    requires m < |es| && IsMetaOf(es[m].msg, slot) && !Completed(es[..m], slot)
    ensures DeliveredOnce(BlockPart(SlotRun(es, slot).out, slot), slot,
                          DeliverableKeys(es[..m], slot, es[m].count), es[m].msg)
            <==> BanksAreHarmless(es, slot, m)
  {
    MonotonePrefix(es, m + 1);
    assert es[..m + 1] == es[..m] + [es[m]];
    HashOf(es, slot, m, hash);
    FirstMeta(es[..m], es[m], slot);
    var keys := DeliverableKeys(es[..m], slot, es[m].count);
    var whole, block := BlockPart(SlotRun(es[..m + 1], slot).out, slot), BlockPart(SlotRun(es, slot).out, slot);
    hide *;
    MachineAfterMeta(es, slot, m, hash);
    WholeOrGrown(whole, block, slot, keys, es[m].msg, LateBanksAreHarmless(es, slot, m));
    HarmlessIs(es, slot, m);
  }

  lemma HarmlessIs(es: seq<Event>, slot: nat, m: nat)
    requires m < |es|
    ensures BanksAreHarmless(es, slot, m) <==>
            !BringsAgain(es[..m], slot, es[m].count) && LateBanksAreHarmless(es, slot, m)
  {
  }

  lemma WholeOrGrown(whole: seq<Message>, block: seq<Message>, slot: nat, keys: set<DedupKey>, meta: Message,
                     same: bool)
    requires DeliveredWhole(whole, slot, keys, meta)
    requires (same ==> block == whole) && (!same ==> whole < block)
    ensures DeliveredOnce(block, slot, keys, meta) <==> same && DistinctKeys(whole)
  {
    if !same {
      GrownIsNotOnce(whole, block, slot, keys, meta);
    }
  }

  lemma MachineAfterBank(es: seq<Event>, slot: nat, m: nat, b: nat, hash: string)
    requires Monotone(es) && OneHash(es, slot, hash) && FirstBankAfter(es, slot, m, b)
    requires SealedAs(SlotRun(es[..m + 1], slot).view, hash)
    ensures var whole, block := BlockPart(SlotRun(es[..m + 1], slot).out, slot), BlockPart(SlotRun(es, slot).out, slot);
            && (NothingFollows(es, slot, b) ==> block == whole)
            && (!NothingFollows(es, slot, b) ==> whole < block)
  {
    UntilBank(es, slot, m, b, hash);
    AfterBank(es, slot, b);
    hide SlotRun;
    hide BlockPart;
    hide NothingFollows;
    hide OneHash;
  }

  lemma OneFirstBank(es: seq<Event>, slot: nat, m: nat, b: nat)
    requires FirstBankAfter(es, slot, m, b)
    ensures forall c :: FirstBankAfter(es, slot, m, c) <==> c == b
  {
    hide IsCreatedBankOf;
  }

  lemma MonotonePrefix(es: seq<Event>, k: nat)
    requires Monotone(es) && k <= |es|
    ensures Monotone(es[..k])
  {
  }

  lemma UntilBank(es: seq<Event>, slot: nat, m: nat, b: nat, hash: string)
    requires FirstBankAfter(es, slot, m, b)
    requires OneHash(es, slot, hash) && SealedAs(SlotRun(es[..m + 1], slot).view, hash)
    ensures SealedAs(SlotRun(es[..b], slot).view, hash)
    ensures BlockPart(SlotRun(es[..b], slot).out, slot) == BlockPart(SlotRun(es[..m + 1], slot).out, slot)
  {
    var part := es[..b];
    assert m < b && part[..m + 1] == es[..m + 1];
    assert forall x <- part :: x in es;
    assert forall x | m < x < |part| :: part[x] == es[x];
    hide SlotRun;
    hide BlockPart;
    hide IsMetaOf;
    hide IsCreatedBankOf;
    hide SealedAs;
    AfterMeta(part, slot, m, hash);
  }

  /** A CreatedBank that comes before the payload of its slot, or while the slot, begun on an earlier
      connection, still lacks its BlockMeta, does no harm. */
  lemma BanksInOrderAreHarmless(es: seq<Event>, slot: nat, m: nat)
    requires BanksInOrder(es, slot) && m < |es| && IsMetaOf(es[m].msg, slot)
    ensures BanksAreHarmless(es, slot, m)
  {
    forall b | m < b < |es| ensures !IsCreatedBankOf(es[b].msg, slot) {
      assert es[..b][m] == es[m] && es[m] in es[..b];
    }
    forall key: DedupKey | key.IsPayload() ensures !Behind(es[..m], slot, key) {
      InOrderNotBehind(es, slot, m, key);
    }
    InOrderBringsNothing(es, slot, m);
    hide BringsAgain;
  }

  lemma InOrderNotBehind(es: seq<Event>, slot: nat, m: nat, key: DedupKey)
    requires BanksInOrder(es, slot) && m <= |es| && key.IsPayload()
    ensures !Behind(es[..m], slot, key)
  {
    var part := es[..m];
    forall b | 0 <= b < |part| && IsCreatedBankOf(part[b].msg, slot) && BroughtOn(part[..b], slot, part[b].count, key)
      ensures part[b].count != FirstCount(part, slot)
    {
      assert part[..b] == es[..b] && part[b] == es[b];
      BroughtIsNamed(es[..b], slot, es[b].count, key);
      FirstCountStays(part, b, slot);
      assert Carried(es[..b], slot);
    }
  }

  lemma InOrderBringsNothing(es: seq<Event>, slot: nat, m: nat)
    requires m < |es| && forall key: DedupKey | key.IsPayload() :: !Behind(es[..m], slot, key)
    ensures !BringsAgain(es[..m], slot, es[m].count)
  {
    var part := es[..m];
    forall j | 0 <= j < |part| && IsPayloadOf(part[j].msg, slot)
      ensures !Behind(part[..j], slot, ExtractKey(part[j].msg).value.1)
    {
      if Behind(part[..j], slot, ExtractKey(part[j].msg).value.1) {
        BehindPrefix(part, j, slot, ExtractKey(part[j].msg).value.1);
      }
    }
    hide Behind;
  }

  /** Exactly once. Let the slot not leave the window between two of its messages, let its BlockMeta
      agree, and let event `m` be the first of them. Then in every longer run, over any number of
      reconnects and replays, the output holds for the slot: payload with distinct keys, then that
      BlockMeta, and nothing more; if and only if no CreatedBank of the slot does harm. The payload keys
      are those of the first and of the completing connection; nothing that was carried is missing
      exactly when the completing connection replayed what connections in between had brought. */
  lemma ExactlyOnce(retention: nat, es: seq<Event>, slot: nat, m: nat, hash: string)
    requires TrackedThroughout(retention, es, slot) && Monotone(es) && OneHash(es, slot, hash)
    requires m < |es| && IsMetaOf(es[m].msg, slot) && !Completed(es[..m], slot)
    ensures var block := BlockPart(Run(retention, es).out, slot);
            var keys := DeliverableKeys(es[..m], slot, es[m].count);
            && (DeliveredOnce(block, slot, keys, es[m].msg) <==> BanksAreHarmless(es, slot, m))
            && (forall key <- keys :: CarriedKey(es[..m], slot, key))
            && ((forall key :: CarriedKey(es[..m], slot, key) ==> key in keys) <==>
                ReplayedInFull(es[..m], slot, es[m].count))
  {
    hide *;
    SlotsAreIndependent(retention, es, slot);
    MachineDeliversOnce(es, slot, m, hash);
    BlockPartOfSlotPart(Run(retention, es).out, slot);
    DeliverableIsCarried(es[..m], slot, es[m].count);
  }
}
