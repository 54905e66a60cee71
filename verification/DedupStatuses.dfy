/** What becomes of the statuses of a slot, over reconnects and replays, before and after its BlockMeta. */
module DedupStatuses {
  import opened Collections
  import opened Protocol
  import opened DedupModel
  import opened DedupSlots
  import opened DedupHistory
  import opened DedupExactlyOnce

  predicate IsStatusOf(m: Message, slot: nat) {
    OfSlot(m, slot) && ExtractKey(m).value.1.Slot?
  }

  function StatusIn(m: Message): int
    requires ExtractKey(m).Some? && ExtractKey(m).value.1.Slot?
  {
    ExtractKey(m).value.1.status
  }

  /** The statuses of the slot that the input has brought. */
  function StatusesSeen(es: seq<Event>, slot: nat): set<int> {
    if es == [] then {}
    else
      StatusesSeen(Front(es), slot) + if IsStatusOf(Last(es).msg, slot) then {StatusIn(Last(es).msg)} else {}
  }

  /** The status messages of the slot, each status at its first occurrence. */
  function FirstStatuses(es: seq<Event>, slot: nat): seq<Message> {
    if es == [] then []
    else
      var m := Last(es).msg;
      FirstStatuses(Front(es), slot) +
      if IsStatusOf(m, slot) && StatusIn(m) !in StatusesSeen(Front(es), slot) then [m] else []
  }

  function StatusPart(out: seq<Message>, slot: nat): seq<Message> {
    Filter(out, m => IsStatusOf(m, slot))
  }

  /** A CreatedBank of the slot is its first message, or comes on another connection than that while the
      BlockMeta of the slot is still missing. */
  ghost predicate BanksQuiet(es: seq<Event>, slot: nat) {
    forall i | 0 <= i < |es| && IsCreatedBankOf(es[i].msg, slot) ::
      Named(es[..i], slot) ==> !Completed(es[..i], slot) && es[i].count != FirstCount(es[..i], slot)
  }

  function Remembered(p: Phase): set<int> {
    match p
    case Absent => {}
    case Live(st) => st.statuses
    case Done(sealed) => sealed.statuses
  }

  lemma ResumeRemembers(v: SlotView, newReplay: bool)
    ensures Remembered(ViewResume(v, newReplay).phase) == Remembered(v.phase)
    ensures ViewResume(v, newReplay).held == [] || ViewResume(v, newReplay).held == v.held
  {
  }

  /** A status is handed out if it is new, and remembered; unless a CreatedBank makes the slot forget. */
  lemma StatusStep(v: SlotView, slot: nat, msg: Message)
    requires IsStatusOf(msg, slot)
    requires IsCreatedBankOf(msg, slot) ==> AwaitsReplay(v.phase) || v.phase.Absent?
    ensures var (v', o) := ViewStep(v, ExtractKey(msg).value.1, msg);
            && Remembered(v'.phase) == Remembered(v.phase) + {StatusIn(msg)} && v'.held == v.held
            && o == if StatusIn(msg) in Remembered(v.phase) then [] else [msg]
  {
  }

  /** A CreatedBank makes the slot forget everything, unless it awaits a replay. */
  lemma BankForgets(v: SlotView, slot: nat, msg: Message)
    requires IsCreatedBankOf(msg, slot) && !AwaitsReplay(v.phase)
    ensures var (v', o) := ViewStep(v, ExtractKey(msg).value.1, msg);
            v'.phase == Live(SlotState({}, false, {5})) && v'.held == v.held && o == [msg]
  {
    assert {} + {5} == {5};
  }

  lemma OtherStep(v: SlotView, slot: nat, msg: Message)
    requires OfSlot(msg, slot) && !IsStatusOf(msg, slot) && forall m <- v.held :: IsPayloadOf(m, slot)
    ensures var (v', o) := ViewStep(v, ExtractKey(msg).value.1, msg);
            && Remembered(v'.phase) == Remembered(v.phase)
            && (forall m <- v'.held :: IsPayloadOf(m, slot))
            && (forall m <- o :: !IsStatusOf(m, slot))
  {
    KindOf(msg, slot);
    var key := ExtractKey(msg).value.1;
    if v.phase.Live? && key.BlockMeta? {
      HeldReconciled(v.held, v.phase.st.keys, slot);
    }
    hide Reconciled;
  }

  lemma HeldReconciled(held: seq<Message>, keys: set<DedupKey>, slot: nat)
    requires forall m <- held :: IsPayloadOf(m, slot)
    ensures forall m <- Reconciled(held, keys) :: IsPayloadOf(m, slot)
  {
    ReconciledCompletes(held, keys, slot);
  }

  lemma SeenSnoc(es: seq<Event>, e: Event, slot: nat)
    ensures StatusesSeen(es + [e], slot) ==
            StatusesSeen(es, slot) + if IsStatusOf(e.msg, slot) then {StatusIn(e.msg)} else {}
    ensures FirstStatuses(es + [e], slot) ==
            FirstStatuses(es, slot) +
            if IsStatusOf(e.msg, slot) && StatusIn(e.msg) !in StatusesSeen(es, slot) then [e.msg] else []
  {
    assert Front(es + [e]) == es && Last(es + [e]) == e;
  }

  /** A CreatedBank where it is quiet finds its slot unknown or awaiting a replay. */
  lemma QuietBank(es: seq<Event>, e: Event, slot: nat)
    requires Monotone(es + [e]) && IsCreatedBankOf(e.msg, slot)
    requires Named(es, slot) ==> !Completed(es, slot) && e.count != FirstCount(es, slot)
    ensures var v := ViewResume(SlotRun(es, slot).view, e.count != SlotRun(es, slot).lastCount);
            AwaitsReplay(v.phase) || v.phase.Absent?
  {
    var r := SlotRun(es, slot);
    SlotRunCount(es, slot);
    FrontOrdered(es, e);
    if Named(es, slot) {
      AlwaysUnfinished(es, slot);
      hide *;
      ResumeUnfinished(es, slot, e.count, r.view, r.out);
      UnfinishedHas(es, slot, e.count, ViewResume(r.view, e.count != r.lastCount), r.out);
      IsAwaiting(ViewResume(r.view, e.count != r.lastCount).phase);
    } else {
      KnownIfNamed(es, slot);
      hide SlotRun;
    }
  }

  lemma IsAwaiting(p: Phase)
    requires p.Live? && p.st.replaying
    ensures AwaitsReplay(p)
  {
  }

  lemma StatusPartSnoc(out: seq<Message>, o: seq<Message>, slot: nat)
    ensures StatusPart(out + o, slot) == StatusPart(out, slot) + StatusPart(o, slot)
    ensures (forall m <- o :: !IsStatusOf(m, slot)) ==> StatusPart(o, slot) == []
    ensures forall m :: StatusPart([m], slot) == if IsStatusOf(m, slot) then [m] else []
  {
    var p := m => IsStatusOf(m, slot);
    FilterAppend(out, o, p);
    if forall m <- o :: !IsStatusOf(m, slot) {
      FilterNone(o, p);
    }
    assert forall m: Message :: Front([m]) == [];
  }

  /** What the view and the output say of the statuses. */
  ghost predicate StatusesAre(es: seq<Event>, slot: nat, v: SlotView, out: seq<Message>) {
    && Remembered(v.phase) == StatusesSeen(es, slot)
    && (forall m <- v.held :: IsPayloadOf(m, slot))
    && StatusPart(out, slot) == FirstStatuses(es, slot)
  }

  lemma NextStatus(es: seq<Event>, e: Event, slot: nat, v: SlotView, out: seq<Message>)
    requires StatusesAre(es, slot, v, out) && IsStatusOf(e.msg, slot)
    requires IsCreatedBankOf(e.msg, slot) ==> AwaitsReplay(v.phase) || v.phase.Absent?
    ensures var (v', o) := ViewStep(v, ExtractKey(e.msg).value.1, e.msg);
            StatusesAre(es + [e], slot, v', out + o)
  {
    StatusStep(v, slot, e.msg);
    SeenSnoc(es, e, slot);
    var o := ViewStep(v, ExtractKey(e.msg).value.1, e.msg).1;
    StatusPartSnoc(out, o, slot);
    hide ViewStep;
    hide StatusPart;
    hide StatusesSeen;
    hide FirstStatuses;
    hide IsCreatedBankOf;
    hide Remembered;
  }

  lemma NextOther(es: seq<Event>, e: Event, slot: nat, v: SlotView, out: seq<Message>)
    requires StatusesAre(es, slot, v, out) && OfSlot(e.msg, slot) && !IsStatusOf(e.msg, slot)
    ensures var (v', o) := ViewStep(v, ExtractKey(e.msg).value.1, e.msg);
            StatusesAre(es + [e], slot, v', out + o)
  {
    hide *;
    KindOf(e.msg, slot);
    StatusesHave(es, slot, v, out);
    OtherStep(v, slot, e.msg);
    SeenSnoc(es, e, slot);
    var (v', o) := ViewStep(v, ExtractKey(e.msg).value.1, e.msg);
    StatusPartSnoc(out, o, slot);
    assert FirstStatuses(es, slot) + [] == FirstStatuses(es, slot);
    assert StatusPart(out, slot) + [] == StatusPart(out, slot);
    StatusesMake(es + [e], slot, v', out + o);
  }

  lemma StatusesHave(es: seq<Event>, slot: nat, v: SlotView, out: seq<Message>)
    requires StatusesAre(es, slot, v, out)
    ensures Remembered(v.phase) == StatusesSeen(es, slot) && StatusPart(out, slot) == FirstStatuses(es, slot)
    ensures forall m <- v.held :: IsPayloadOf(m, slot)
  {
  }

  lemma StatusesMake(es: seq<Event>, slot: nat, v: SlotView, out: seq<Message>)
    requires Remembered(v.phase) == StatusesSeen(es, slot) && StatusPart(out, slot) == FirstStatuses(es, slot)
    requires forall m <- v.held :: IsPayloadOf(m, slot)
    ensures StatusesAre(es, slot, v, out)
  {
  }

  lemma NextElsewhere(es: seq<Event>, e: Event, slot: nat, v: SlotView, out: seq<Message>)
    requires StatusesAre(es, slot, v, out) && !OfSlot(e.msg, slot)
    ensures StatusesAre(es + [e], slot, v, out)
  {
    SeenSnoc(es, e, slot);
    hide StatusPart;
    hide StatusesSeen;
    hide FirstStatuses;
    hide Remembered;
    assert FirstStatuses(es, slot) + [] == FirstStatuses(es, slot);
  }

  lemma ResumedStatuses(es: seq<Event>, slot: nat, v: SlotView, out: seq<Message>, newReplay: bool)
    requires StatusesAre(es, slot, v, out)
    ensures StatusesAre(es, slot, ViewResume(v, newReplay), out)
  {
    ResumeRemembers(v, newReplay);
    hide StatusPart;
    hide StatusesSeen;
    hide FirstStatuses;
    hide Remembered;
    hide ViewResume;
  }

  lemma StatusesStep(es: seq<Event>, e: Event, slot: nat)
    requires Monotone(es + [e]) && StatusesAre(es, slot, SlotRun(es, slot).view, SlotRun(es, slot).out)
    requires IsCreatedBankOf(e.msg, slot) && Named(es, slot) ==> !Completed(es, slot) && e.count != FirstCount(es, slot)
    ensures StatusesAre(es + [e], slot, SlotRun(es + [e], slot).view, SlotRun(es + [e], slot).out)
  {
    hide *;
    var r := SlotRun(es, slot);
    var v := ViewResume(r.view, e.count != r.lastCount);
    SlotRunAppend(es, e, slot);
    ResumedStatuses(es, slot, r.view, r.out, e.count != r.lastCount);
    StatusIsOfSlot(e.msg, slot);
    if IsStatusOf(e.msg, slot) {
      if IsCreatedBankOf(e.msg, slot) {
        QuietBank(es, e, slot);
      }
      NextStatus(es, e, slot, v, r.out);
    } else if OfSlot(e.msg, slot) {
      NextOther(es, e, slot, v, r.out);
    } else {
      NextElsewhere(es, e, slot, v, r.out);
    }
  }

  lemma StatusIsOfSlot(m: Message, slot: nat)
    ensures IsStatusOf(m, slot) ==> OfSlot(m, slot)
  {
  }

  lemma QuietFront(es: seq<Event>, e: Event, slot: nat)
    requires BanksQuiet(es + [e], slot)
    ensures BanksQuiet(es, slot)
    ensures IsCreatedBankOf(e.msg, slot) && Named(es, slot) ==> !Completed(es, slot) && e.count != FirstCount(es, slot)
  {
    var all := es + [e];
    hide Named;
    hide Completed;
    hide FirstCount;
    hide IsCreatedBankOf;
    assert all[|es|] == e && all[..|es|] == es;
    assert forall i | 0 <= i < |es| :: all[i] == es[i] && all[..i] == es[..i];
  }

  lemma {:induction false} MachineStatuses(es: seq<Event>, slot: nat)
    requires Monotone(es) && BanksQuiet(es, slot)
    ensures StatusesAre(es, slot, SlotRun(es, slot).view, SlotRun(es, slot).out)
  {
    if es != [] {
      var front, e := Front(es), Last(es);
      assert es == front + [e];
      FrontOrdered(front, e);
      QuietFront(front, e, slot);
      hide *;
      MachineStatuses(front, slot);
      StatusesStep(front, e, slot);
    }
  }

  lemma {:induction false} StatusPartOfSlotPart(out: seq<Message>, slot: nat)
    ensures StatusPart(SlotPart(out, slot), slot) == StatusPart(out, slot)
  {
    if out != [] {
      StatusPartOfSlotPart(Front(out), slot);
      assert out == Front(out) + [Last(out)];
      FilterSnoc(Front(out), Last(out), m => OfSlot(m, slot));
      StatusPartSnoc(SlotPart(Front(out), slot), if OfSlot(Last(out), slot) then [Last(out)] else [], slot);
      StatusPartSnoc(Front(out), [Last(out)], slot);
    }
  }

  /** Statuses exactly once: as long as the window tracks the slot at each of its messages, the user is handed
      each status of the slot once, at its first occurrence and in that order, over any number of reconnects
      and replays, before and after the BlockMeta; if a CreatedBank comes only first, or from a replay of
      the unfinished slot. */
  lemma StatusesOnce(retention: nat, es: seq<Event>, slot: nat)
    requires TrackedThroughout(retention, es, slot) && Monotone(es) && BanksQuiet(es, slot)
    ensures StatusPart(Run(retention, es).out, slot) == FirstStatuses(es, slot)
  {
    SlotsAreIndependent(retention, es, slot);
    MachineStatuses(es, slot);
    StatusPartOfSlotPart(Run(retention, es).out, slot);
    hide TrackedThroughout;
    hide StatusPart;
    hide SlotRun;
    hide Run;
    hide FirstStatuses;
  }
}
