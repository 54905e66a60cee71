/** Inputs on which the replay layer does not deliver exactly once: why its theorems have hypotheses. */
module DedupLimits {
  import opened Collections
  import opened Protocol
  import opened DedupModel
  import opened DedupWindow
  import opened DedupSlots

  function EntryOf(slot: nat, index: nat): Message {
    Subscribe(SubscribeUpdate([], Some(EntryUpdate(slot, index, []))))
  }

  function BankOf(slot: nat): Message {
    Subscribe(SubscribeUpdate([], Some(SlotUpdate(slot, SLOT_CREATED_BANK))))
  }

  /** Payload that first comes after the BlockMeta of its slot is not handed out. */
  lemma LateFirstPayloadIsHeld(retention: nat)
    ensures Run(retention, [Event(0, MetaMessage(7)), Event(0, EntryOf(7, 0))]).out == [MetaMessage(7)]
  {
    var e0, e1 := Event(0, MetaMessage(7)), Event(0, EntryOf(7, 0));
    RunAppend(retention, [], e0);
    RunAppend(retention, [e0], e1);
    assert [] + [e0] == [e0] && [e0] + [e1] == [e0, e1];
  }

  lemma FirstConnection(es: seq<Event>)
    requires es == [Event(0, EntryOf(7, 0)), Event(0, MetaMessage(7))]
    ensures SlotRun(es, 7) ==
            SlotResult(SlotView(Done(SealedSlot(Some("hash"), {})), []), 0, [EntryOf(7, 0), MetaMessage(7)])
    ensures SlotsOf(es) == {7}
  {
    assert es == [es[0]] + [es[1]] && [es[0]] == [] + [es[0]];
    SlotRunAppend([], es[0], 7);
    SlotRunAppend([es[0]], es[1], 7);
    SlotsOfSnoc([], es[0]);
    SlotsOfSnoc([es[0]], es[1]);
  }

  lemma SecondConnection(before: seq<Event>, bank: Event, entry: Event, meta: Event)
    requires SlotRun(before, 7) ==
             SlotResult(SlotView(Done(SealedSlot(Some("hash"), {})), []), 0, [EntryOf(7, 0), MetaMessage(7)])
    requires SlotsOf(before) == {7}
    requires bank == Event(1, BankOf(7)) && entry == Event(1, EntryOf(7, 0)) && meta == Event(1, MetaMessage(7))
    ensures var es := before + [bank] + [entry] + [meta];
            && SlotRun(es, 7).out == [EntryOf(7, 0), MetaMessage(7), BankOf(7), EntryOf(7, 0), MetaMessage(7)]
            && SlotsOf(es) == {7}
  {
    hide SlotRun;
    hide SlotsOf;
    SlotRunAppend(before, bank, 7);
    SlotRunAppend(before + [bank], entry, 7);
    SlotRunAppend(before + [bank] + [entry], meta, 7);
    SlotsOfSnoc(before, bank);
    SlotsOfSnoc(before + [bank], entry);
    SlotsOfSnoc(before + [bank] + [entry], meta);
  }

  lemma ReplayWithBank(es: seq<Event>)
    requires es == [Event(0, EntryOf(7, 0)), Event(0, MetaMessage(7)), Event(1, BankOf(7)),
                    Event(1, EntryOf(7, 0)), Event(1, MetaMessage(7))]
    ensures SlotRun(es, 7).out == [EntryOf(7, 0), MetaMessage(7), BankOf(7), EntryOf(7, 0), MetaMessage(7)]
    ensures SlotsOf(es) == {7}
  {
    hide *;
    FirstConnection(es[..2]);
    SecondConnection(es[..2], es[2], es[3], es[4]);
    assert es == es[..2] + [es[2]] + [es[3]] + [es[4]];
  }

  lemma FewSlotsStay(es: seq<Event>, slot: nat, retention: nat)
    requires SlotsOf(es) == {slot} && retention > 0
    ensures TrackedThroughout(retention, es, slot)
  {
    assert es[0..|es|] == es;
    hide SlotsOf;
    SpanIsEnough(es, slot, retention, 0, |es|);
    ListedIsTracked(retention, es, slot);
  }

  /** A sealed slot that is replayed with its CreatedBank is handed out a second time. */
  lemma ReplayedBankRepeatsBlock(retention: nat, es: seq<Event>)
    requires retention > 0
    requires es == [Event(0, EntryOf(7, 0)), Event(0, MetaMessage(7)), Event(1, BankOf(7)),
                    Event(1, EntryOf(7, 0)), Event(1, MetaMessage(7))]
    ensures SlotPart(Run(retention, es).out, 7) ==
            [EntryOf(7, 0), MetaMessage(7), BankOf(7), EntryOf(7, 0), MetaMessage(7)]
  {
    hide *;
    ReplayWithBank(es);
    FewSlotsStay(es, 7, retention);
    SlotsAreIndependent(retention, es, 7);
  }

  lemma BankAmidPayload(es: seq<Event>)
    requires es == [Event(0, EntryOf(7, 0)), Event(0, BankOf(7)), Event(0, EntryOf(7, 0)), Event(0, MetaMessage(7))]
    ensures SlotRun(es, 7).out == [EntryOf(7, 0), BankOf(7), EntryOf(7, 0), MetaMessage(7)]
    ensures SlotsOf(es) == {7}
  {
    var a, b, c := [es[0]], [es[0]] + [es[1]], [es[0]] + [es[1]] + [es[2]];
    assert es == c + [es[3]] && a == [] + [es[0]];
    SlotRunAppend([], es[0], 7);
    SlotRunAppend(a, es[1], 7);
    SlotRunAppend(b, es[2], 7);
    SlotRunAppend(c, es[3], 7);
    SlotsOfSnoc([], es[0]);
    SlotsOfSnoc(a, es[1]);
    SlotsOfSnoc(b, es[2]);
    SlotsOfSnoc(c, es[3]);
    hide SlotRun;
    hide SlotsOf;
  }

  /** A CreatedBank in the middle of the payload makes the layer hand out a repeated key again. */
  lemma BankAmidPayloadRepeatsKey(retention: nat, es: seq<Event>)
    requires retention > 0
    requires es == [Event(0, EntryOf(7, 0)), Event(0, BankOf(7)), Event(0, EntryOf(7, 0)), Event(0, MetaMessage(7))]
    ensures SlotPart(Run(retention, es).out, 7) == [EntryOf(7, 0), BankOf(7), EntryOf(7, 0), MetaMessage(7)]
  {
    hide *;
    BankAmidPayload(es);
    FewSlotsStay(es, 7, retention);
    SlotsAreIndependent(retention, es, 7);
  }
}
