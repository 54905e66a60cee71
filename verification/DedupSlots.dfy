/** As long as a slot does not leave the window, the other slots do not interfere with it: the layer is a
    family of machines, one for each slot, that share nothing but the reconnect count. */
module DedupSlots {
  import opened Collections
  import opened Protocol
  import opened DedupModel
  import opened DedupWindow

  datatype Phase = Absent | Live(st: SlotState) | Done(sealed: SealedSlot)

  datatype SlotView = SlotView(phase: Phase, held: seq<Message>)

  datatype SlotResult = SlotResult(view: SlotView, lastCount: nat, out: seq<Message>)

  predicate AwaitsReplay(p: Phase) {
    p.Live? && p.st.replaying
  }

  function LiveState(p: Phase): SlotState
    requires !p.Done?
  {
    if p.Live? then p.st else FRESH_SLOT
  }

  function PhaseStatus(p: Phase, status: int): (Phase, Observation) {
    if p.Done? then
      if status in p.sealed.statuses then (p, Duplicate)
      else (Done(p.sealed.(statuses := p.sealed.statuses + {status})), New)
    else
      var st := LiveState(p);
      if status in st.statuses then (Live(st), Duplicate)
      else (Live(st.(statuses := st.statuses + {status})), New)
  }

  function PhaseMeta(p: Phase, blockhash: string): (Phase, Observation) {
    if p.Done? then
      (Done(p.sealed.(blockhash := Some(blockhash))), ReplayComplete(p.sealed.blockhash == Some(blockhash)))
    else
      var st := LiveState(p);
      (Done(SealedSlot(Some(blockhash), st.statuses)),
       if st.replaying then PartialReplayComplete(st.keys) else New)
  }

  function PhasePayload(p: Phase, key: DedupKey): (Phase, Observation) {
    if p.Done? || AwaitsReplay(p) then (p, Replay)
    else
      var st := LiveState(p);
      if key in st.keys then (Live(st), Duplicate)
      else (Live(st.(keys := st.keys + {key})), New)
  }

  function PhaseObserve(p: Phase, key: DedupKey): (Phase, Observation) {
    match key
    case Slot(status) =>
      PhaseStatus(if status == SLOT_CREATED_BANK && !AwaitsReplay(p) then Absent else p, status)
    case BlockMeta(blockhash) => PhaseMeta(p, blockhash)
    case _ => PhasePayload(p, key)
  }

  function SettleHeld(held: seq<Message>, obs: Observation, msg: Message): (seq<Message>, seq<Message>) {
    match obs
    case New => (held, [msg])
    case Duplicate => (held, [])
    case Replay => (held + [msg], [])
    case ReplayComplete(same) => ([], if same then [] else held + [msg])
    case PartialReplayComplete(keys) => ([], Reconciled(held, keys) + [msg])
  }

  function PhaseResume(p: Phase): Phase {
    if p.Live? then Live(p.st.(replaying := true)) else p
  }

  function ViewResume(v: SlotView, newReplay: bool): SlotView {
    if newReplay then SlotView(PhaseResume(v.phase), []) else v
  }

  function ViewStep(v: SlotView, key: DedupKey, msg: Message): (SlotView, seq<Message>) {
    var (phase, obs) := PhaseObserve(v.phase, key);
    var (held, out) := SettleHeld(v.held, obs, msg);
    (SlotView(phase, held), out)
  }

  /** The machine of one slot, which skips the messages of the others. */
  function SlotRun(es: seq<Event>, slot: nat): SlotResult {
    if es == [] then SlotResult(SlotView(Absent, []), 0, [])
    else
      var r := SlotRun(Front(es), slot);
      var e := Last(es);
      var v := ViewResume(r.view, e.count != r.lastCount);
      if OfSlot(e.msg, slot) then
        var (v', out) := ViewStep(v, ExtractKey(e.msg).value.1, e.msg);
        SlotResult(v', e.count, r.out + out)
      else SlotResult(v, e.count, r.out)
  }

  function PhaseOf(w: Window, slot: nat): Phase {
    if slot in w.sealed then Done(w.sealed[slot])
    else if slot in w.inflight then Live(w.inflight[slot])
    else Absent
  }

  function ViewOf(s: LayerState, slot: nat): SlotView {
    SlotView(PhaseOf(s.window, slot), Held(s.quarantine, slot))
  }

  /** The slots that keyed messages name. */
  function SlotsOf(es: seq<Event>): set<nat> {
    if es == [] then {}
    else
      var key := ExtractKey(Last(es).msg);
      SlotsOf(Front(es)) + if key.Some? then {key.value.0} else {}
  }

  /** The slots listed from `slot` on: with it, they are what stands between it and the end of the window. */
  function From(order: seq<nat>, slot: nat): set<nat> {
    if order == [] then {}
    else
      var before := From(Front(order), slot);
      if Last(order) == slot || before != {} then before + {Last(order)} else {}
  }

  lemma {:induction false} FromListed(order: seq<nat>, slot: nat)
    ensures slot in From(order, slot) <==> slot in order
    ensures From(order, slot) == {} <==> slot !in order
    ensures From(order, slot) <= Elements(order)
  {
    if order != [] {
      FromListed(Front(order), slot);
      assert order == Front(order) + [Last(order)];
    }
  }

  lemma FromSnoc(order: seq<nat>, t: nat, slot: nat)
    ensures From(order + [t], slot) <= From(order, slot) + {t}
  {
    assert Front(order + [t]) == order;
  }

  lemma {:induction false} FromFilter(order: seq<nat>, t: nat, slot: nat)
    ensures From(Filter(order, x => x != t), slot) <= From(order, slot)
  {
    if order != [] {
      var front, last := Front(order), Last(order);
      FromFilter(front, t, slot);
      assert order == front + [last];
      FilterSnoc(front, last, x => x != t);
      if last != t {
        FromSnoc(Filter(front, x => x != t), last, slot);
        FromLast(front, last, t, slot);
      } else {
        assert Filter(front, x => x != t) + [] == Filter(front, x => x != t);
      }
    }
  }

  lemma FromLast(front: seq<nat>, last: nat, t: nat, slot: nat)
    requires last != t && From(Filter(front, x => x != t), slot) <= From(front, slot)
    ensures From(Filter(front, x => x != t) + [last], slot) <= From(front + [last], slot)
  {
    var kept := Filter(front, x => x != t);
    assert Front(kept + [last]) == kept && Front(front + [last]) == front;
  }

  /** The slots listed from `slot` on are as many as there are places. */
  lemma {:induction false} FromCount(order: seq<nat>, slot: nat, i: nat)
    requires NoDuplicates(order) && i < |order| && order[i] == slot
    ensures |From(order, slot)| == |order| - i
  {
    var front, last := Front(order), Last(order);
    FromListed(front, slot);
    assert last !in front;
    if i < |front| {
      assert front[i] == slot && slot in front;
      FromCount(front, slot, i);
      assert last !in From(front, slot);
    }
  }

  lemma {:induction false} FromDrop(order: seq<nat>, k: nat, slot: nat)
    requires k <= |order|
    ensures From(order[k..], slot) <= From(order, slot)
  {
    if k < |order| {
      var front := Front(order);
      FromDrop(front, k, slot);
      assert order[k..] == front[k..] + [Last(order)];
      assert Front(order[k..]) == front[k..] && Last(order[k..]) == Last(order);
    }
  }

  /** Listing `t` pushes `slot` no further than the window reaches. */
  ghost predicate Kept(w: Window, t: nat, slot: nat) {
    |From(w.order, slot) + {t}| <= w.retention
  }

  /** Pruning leaves alone what is not listed, or listed close enough to the end. */
  lemma PrunePhase(w: Window, slot: nat)
    requires Structured(w) && |From(w.order, slot)| <= w.retention
    ensures PhaseOf(Prune(w), slot) == PhaseOf(w, slot)
    ensures From(Prune(w).order, slot) <= From(w.order, slot)
  {
    var k := |w.order| - w.retention;
    if k > 0 {
      FromDrop(w.order, k, slot);
      if slot in w.order[..k] {
        var i :| 0 <= i < k && w.order[i] == slot;
        FromCount(w.order, slot, i);
        assert false;
      }
    }
  }

  lemma ListedOnce(w: Window, t: nat, slot: nat)
    ensures From(SlotMut(w, t).order, slot) <= From(w.order, slot) + {t}
  {
    FromSnoc(w.order, t, slot);
  }

  lemma KeptListed(w: Window, v: Window, t: nat, slot: nat)
    requires Kept(w, t, slot) && From(v.order, slot) <= From(w.order, slot) + {t} && v.retention == w.retention
    ensures |From(v.order, slot)| <= v.retention && Kept(v, t, slot)
  {
    SubsetCardinality(From(v.order, slot), From(w.order, slot) + {t});
    SubsetCardinality(From(v.order, slot) + {t}, From(w.order, slot) + {t});
  }

  /** The slots that may stand behind `slot` after `t` was observed. */
  ghost predicate StaysClose(v: Window, w: Window, t: nat, slot: nat) {
    From(v.order, slot) <= From(w.order, slot) + {t}
  }

  /** `t` is in flight in state `s`, and the window was pruned. */
  function Touched(w: Window, t: nat, s: SlotState): Window {
    var w1 := SlotMut(w, t);
    Prune(w1.(inflight := w1.inflight[t := s]))
  }

  lemma TouchedListed(w: Window, t: nat, s: SlotState, slot: nat)
    requires Structured(w) && Kept(w, t, slot) && t !in w.sealed
    ensures StaysClose(Touched(w, t, s), w, t, slot)
    ensures PhaseOf(Touched(w, t, s), slot) == if slot == t then Live(s) else PhaseOf(w, slot)
  {
    var w1 := SlotMut(w, t);
    var w2 := w1.(inflight := w1.inflight[t := s]);
    ListedOnce(w, t, slot);
    SlotMutStructured(w, t);
    KeptListed(w, w2, t, slot);
    hide Kept;
    hide From;
    PrunePhase(w2, slot);
    hide Prune;
    hide Structured;
  }

  lemma RecordStatusPhase(w: Window, t: nat, status: int, slot: nat)
    requires Structured(w) && Kept(w, t, slot)
    ensures var (v, obs) := RecordStatus(w, t, status);
            && StaysClose(v, w, t, slot)
            && if slot == t then (PhaseOf(v, slot), obs) == PhaseStatus(PhaseOf(w, slot), status) && v.Tracks(t)
               else PhaseOf(v, slot) == PhaseOf(w, slot)
  {
    if t !in w.sealed {
      ListedOnce(w, t, slot);
      var s := SlotMut(w, t).inflight[t];
      TouchedListed(w, t, s.(statuses := s.statuses + {status}), slot);
      hide Kept;
      hide From;
      hide Prune;
      hide Structured;
    }
  }

  lemma ClearClose(w: Window, t: nat, status: int, slot: nat)
    requires Kept(w, t, slot)
    ensures From(BeforeStatus(w, t, status).order, slot) <= From(w.order, slot)
    ensures Kept(BeforeStatus(w, t, status), t, slot)
  {
    FromFilter(w.order, t, slot);
    SubsetCardinality(From(BeforeStatus(w, t, status).order, slot) + {t}, From(w.order, slot) + {t});
  }

  lemma BeforePhase(w: Window, t: nat, status: int, slot: nat)
    requires Structured(w)
    ensures PhaseOf(BeforeStatus(w, t, status), slot) ==
            if slot == t && status == SLOT_CREATED_BANK && !AwaitsReplay(PhaseOf(w, slot)) then Absent
            else PhaseOf(w, slot)
  {
    hide Filter;
  }

  lemma ObserveStatusPhase(w: Window, t: nat, status: int, slot: nat)
    requires Structured(w) && Kept(w, t, slot)
    ensures var (v, obs) := ObserveStatus(w, t, status);
            && StaysClose(v, w, t, slot)
            && if slot == t
               then (PhaseOf(v, slot), obs) == PhaseObserve(PhaseOf(w, slot), DedupKey.Slot(status)) && v.Tracks(t)
               else PhaseOf(v, slot) == PhaseOf(w, slot)
  {
    ClearStructured(w, t);
    ClearClose(w, t, status, slot);
    BeforePhase(w, t, status, slot);
    hide RecordStatus;
    hide Kept;
    hide From;
    hide BeforeStatus;
    hide PhaseOf;
    hide PhaseStatus;
    hide Structured;
    RecordStatusPhase(BeforeStatus(w, t, status), t, status, slot);
  }

  lemma ObserveMetaPhase(w: Window, t: nat, blockhash: string, slot: nat)
    requires Structured(w) && |w.order| <= w.retention
    ensures var (v, obs) := ObserveBlockMeta(w, t, blockhash);
            && StaysClose(v, w, t, slot)
            && if slot == t then (PhaseOf(v, slot), obs) == PhaseMeta(PhaseOf(w, slot), blockhash) && v.Tracks(t)
               else PhaseOf(v, slot) == PhaseOf(w, slot)
  {
  }

  lemma ObservePayloadPhase(w: Window, t: nat, key: DedupKey, slot: nat)
    requires Structured(w) && Kept(w, t, slot)
    ensures var (v, obs) := ObservePayload(w, t, key);
            && StaysClose(v, w, t, slot)
            && if slot == t then (PhaseOf(v, slot), obs) == PhasePayload(PhaseOf(w, slot), key) && v.Tracks(t)
               else PhaseOf(v, slot) == PhaseOf(w, slot)
  {
    if t !in w.sealed && !Replaying(w, t) {
      ListedOnce(w, t, slot);
      var s := SlotMut(w, t).inflight[t];
      if key !in s.keys {
        TouchedListed(w, t, s.(keys := s.keys + {key}), slot);
        assert ObservePayload(w, t, key) == (Touched(w, t, s.(keys := s.keys + {key})), New);
        hide Touched;
        hide ObservePayload;
      }
      hide Kept;
      hide From;
      hide Prune;
      hide Structured;
    }
  }

  lemma ObservePhase(w: Window, t: nat, key: DedupKey, slot: nat)
    requires Structured(w) && |w.order| <= w.retention && Kept(w, t, slot)
    ensures var (v, obs) := Observe(w, t, key);
            && StaysClose(v, w, t, slot)
            && if slot == t then (PhaseOf(v, slot), obs) == PhaseObserve(PhaseOf(w, slot), key) && v.Tracks(t)
               else PhaseOf(v, slot) == PhaseOf(w, slot)
  {
    hide Kept;
    hide StaysClose;
    hide Structured;
    hide ObserveStatus;
    match key {
      case Slot(status) => ObserveStatusPhase(w, t, status, slot);
      case BlockMeta(blockhash) => ObserveMetaPhase(w, t, blockhash, slot);
      case _ => ObservePayloadPhase(w, t, key, slot);
    }
  }

  lemma ResumeView(s: LayerState, count: nat, slot: nat)
    ensures ViewOf(Resume(s, count), slot) == ViewResume(ViewOf(s, slot), count != s.lastCount)
  {
  }

  /** One step of the layer, seen by one slot that does not leave the window. */
  lemma StepView(s: LayerState, e: Event, slot: nat)
    requires WellFormed(s)
    requires ExtractKey(e.msg).Some? ==> Kept(s.window, ExtractKey(e.msg).value.0, slot)
    ensures var r := Step(s, e);
            var v := ViewResume(ViewOf(s, slot), e.count != s.lastCount);
            if OfSlot(e.msg, slot) then (ViewOf(r.state, slot), r.out) == ViewStep(v, ExtractKey(e.msg).value.1, e.msg)
            else ViewOf(r.state, slot) == v
    ensures From(Step(s, e).state.window.order, slot) <=
            From(s.window.order, slot) + if ExtractKey(e.msg).Some? then {ExtractKey(e.msg).value.0} else {}
  {
    var s1 := Resume(s, e.count);
    ResumeView(s, e.count, slot);
    StepWellFormed(s, e);
    assert Structured(s1.window) by {
      assert s1.window.inflight.Keys == s.window.inflight.Keys;
    }
    if ExtractKey(e.msg).Some? {
      var (t, key) := ExtractKey(e.msg).value;
      var (w, obs) := Observe(s1.window, t, key);
      assert Kept(s1.window, t, slot);
      hide Observe;
      hide Kept;
      hide From;
      ObservePhase(s1.window, t, key, slot);
      SettleView(Retained(s1.quarantine, w), obs, t, e.msg, slot);
    }
  }

  lemma SettleView(q: map<nat, seq<Message>>, obs: Observation, t: nat, msg: Message, slot: nat)
    ensures var (q', out) := Settle(q, obs, t, msg);
            if slot == t then (Held(q', slot), out) == SettleHeld(Held(q, slot), obs, msg)
            else Held(q', slot) == Held(q, slot)
  {
  }

  lemma SlotsOfSnoc(es: seq<Event>, e: Event)
    ensures SlotsOf(es + [e]) == SlotsOf(es) + if ExtractKey(e.msg).Some? then {ExtractKey(e.msg).value.0} else {}
  {
    assert Front(es + [e]) == es;
  }

  /** The output, restricted to one slot. */
  function SlotPart(out: seq<Message>, slot: nat): seq<Message> {
    Filter(out, m => OfSlot(m, slot))
  }

  /** A step emits messages of the slot of its message only. */
  lemma StepOutSlot(s: LayerState, e: Event)
    requires QuarantineIsPayload(s.quarantine)
    ensures forall m <- Step(s, e).out ::
              if ExtractKey(e.msg).Some? then OfSlot(m, ExtractKey(e.msg).value.0) else ExtractKey(m).None?
  {
    StepQuarantineIsPayload(s, e);
  }

  ghost predicate Named(es: seq<Event>, slot: nat) {
    exists e <- es :: OfSlot(e.msg, slot)
  }

  const UNKNOWN_SLOT := SlotView(Absent, [])

  /** A slot that the layer does not know, and that a message of another slot does not bring in. */
  lemma OtherStep(s: LayerState, e: Event, slot: nat)
    requires WellFormed(s) && ViewOf(s, slot) == UNKNOWN_SLOT && slot !in s.window.order && !OfSlot(e.msg, slot)
    ensures ViewOf(Step(s, e).state, slot) == UNKNOWN_SLOT && slot !in Step(s, e).state.window.order
  {
    StepWellFormed(s, e);
    if ExtractKey(e.msg).Some? {
      ObserveOthers(Resume(s, e.count).window, ExtractKey(e.msg).value.0, ExtractKey(e.msg).value.1, slot);
      hide Observe;
    }
  }

  lemma ObserveOthers(w: Window, t: nat, key: DedupKey, slot: nat)
    requires !w.Tracks(slot) && t != slot
    ensures !Observe(w, t, key).0.Tracks(slot)
  {
    hide Filter;
    hide Elements;
    match key {
      case Slot(status) => RecordOthers(BeforeStatus(w, t, status), t, status, slot);
      case BlockMeta(_) =>
      case _ =>
    }
  }

  lemma RecordOthers(w: Window, t: nat, status: int, slot: nat)
    requires !w.Tracks(slot) && t != slot
    ensures !RecordStatus(w, t, status).0.Tracks(slot)
  {
    hide Elements;
  }

  lemma {:induction false} UnnamedIsUnknown(retention: nat, es: seq<Event>, slot: nat)
    requires !Named(es, slot)
    ensures var r := Run(retention, es);
            ViewOf(r.state, slot) == UNKNOWN_SLOT && slot !in r.state.window.order
    ensures SlotRun(es, slot) == SlotResult(UNKNOWN_SLOT, Run(retention, es).state.lastCount, [])
  {
    if es != [] {
      var front, e := Front(es), Last(es);
      assert es == front + [e] && e in es && forall x <- front :: x in es;
      UnnamedIsUnknown(retention, front, slot);
      RunWellFormed(retention, front);
      OtherStep(Run(retention, front).state, e, slot);
      StepCount(Run(retention, front).state, e);
      hide Step;
    }
  }

  lemma KnownIsTracked(s: LayerState, slot: nat)
    ensures ViewOf(s, slot).phase.Absent? <==> !s.window.Tracks(slot)
  {
  }

  lemma StepCount(s: LayerState, e: Event)
    ensures Step(s, e).state.lastCount == e.count
  {
  }

  /** From its first message, event `f`, until more slots were named than the window retains, the view of
      a slot is what its own machine computes. */
  lemma {:induction false} SlotIsIndependent(retention: nat, es: seq<Event>, slot: nat, f: nat)
    requires f <= |es| && !Named(es[..f], slot) && |SlotsOf(es[f..])| <= retention
    ensures var r := Run(retention, es);
            var m := SlotRun(es, slot);
            && ViewOf(r.state, slot) == m.view && r.state.lastCount == m.lastCount
            && From(r.state.window.order, slot) <= SlotsOf(es[f..])
  {
    if f == |es| {
      assert es[..f] == es;
      UnnamedIsUnknown(retention, es, slot);
      FromListed(Run(retention, es).state.window.order, slot);
    } else {
      var front, e := Front(es), Last(es);
      assert es == front + [e] && front[..f] == es[..f] && es[f..] == front[f..] + [e];
      SlotsOfSnoc(front[f..], e);
      SubsetCardinality(SlotsOf(front[f..]), SlotsOf(es[f..]));
      SlotIsIndependent(retention, front, slot, f);
      IndependentStep(retention, front, e, slot, f);
    }
  }

  lemma IndependentStep(retention: nat, front: seq<Event>, e: Event, slot: nat, f: nat)
    requires f <= |front| && |SlotsOf(front[f..] + [e])| <= retention
    requires var r := Run(retention, front);
             var m := SlotRun(front, slot);
             && ViewOf(r.state, slot) == m.view && r.state.lastCount == m.lastCount
             && From(r.state.window.order, slot) <= SlotsOf(front[f..])
    ensures var r := Run(retention, front + [e]);
            var m := SlotRun(front + [e], slot);
            && ViewOf(r.state, slot) == m.view && r.state.lastCount == m.lastCount
            && From(r.state.window.order, slot) <= SlotsOf(front[f..] + [e])
  {
    var s := Run(retention, front).state;
    RunWellFormed(retention, front);
    RunAppend(retention, front, e);
    SlotsOfSnoc(front[f..], e);
    if ExtractKey(e.msg).Some? {
      SubsetCardinality(From(s.window.order, slot) + {ExtractKey(e.msg).value.0}, SlotsOf(front[f..] + [e]));
    }
    StepView(s, e, slot);
    StepCount(s, e);
    SlotRunAppend(front, e, slot);
    hide Step;
    hide Run;
    hide From;
    hide SlotsOf;
    hide ViewStep;
    hide SlotRun;
  }

  lemma SlotRunAppend(es: seq<Event>, e: Event, slot: nat)
    ensures var r := SlotRun(es, slot);
            var v := ViewResume(r.view, e.count != r.lastCount);
            SlotRun(es + [e], slot) ==
            if OfSlot(e.msg, slot) then
              var (v', o) := ViewStep(v, ExtractKey(e.msg).value.1, e.msg);
              SlotResult(v', e.count, r.out + o)
            else SlotResult(v, e.count, r.out)
  {
    assert Front(es + [e]) == es;
  }

  /** What the slot's own machine emits for its next message. */
  function SlotStepOut(es: seq<Event>, e: Event, slot: nat): seq<Message>
    requires OfSlot(e.msg, slot)
  {
    var r := SlotRun(es, slot);
    ViewStep(ViewResume(r.view, e.count != r.lastCount), ExtractKey(e.msg).value.1, e.msg).1
  }

  /** Between any two messages of the slot, these included, no more slots are named than the window
      retains: the slot does not leave the window before its last message. */
  ghost predicate StaysListed(es: seq<Event>, slot: nat, retention: nat) {
    forall i, j | 0 <= i < j < |es| && OfSlot(es[i].msg, slot) && OfSlot(es[j].msg, slot) ::
      |SlotsOf(es[i..j + 1])| <= retention
  }

  lemma SlotsOfPart(a: seq<Event>, b: seq<Event>)
    requires forall e <- a :: e in b
    ensures SlotsOf(a) <= SlotsOf(b)
  {
    forall t <- SlotsOf(a) ensures t in SlotsOf(b) {
      var e := SlotNamer(a, t);
      NamerNames(b, e);
    }
  }

  lemma {:induction false} SlotNamer(es: seq<Event>, t: nat) returns (e: Event)
    requires t in SlotsOf(es)
    ensures e in es && OfSlot(e.msg, t)
  {
    e := Last(es);
    if !OfSlot(e.msg, t) {
      e := SlotNamer(Front(es), t);
    }
  }

  lemma {:induction false} NamerNames(es: seq<Event>, e: Event)
    requires e in es && ExtractKey(e.msg).Some?
    ensures ExtractKey(e.msg).value.0 in SlotsOf(es)
  {
    assert es == Front(es) + [Last(es)];
    if e != Last(es) {
      NamerNames(Front(es), e);
    }
  }

  /** It is enough that the slots named from the slot's first message to its last fit the window. */
  lemma SpanIsEnough(es: seq<Event>, slot: nat, retention: nat, f: nat, l: nat)
    requires f <= l <= |es| && !Named(es[..f], slot) && !Named(es[l..], slot) && |SlotsOf(es[f..l])| <= retention
    ensures StaysListed(es, slot, retention)
  {
    var span := es[f..l];
    NamedInSpan(es, slot, f, l);
    forall i, j | 0 <= i < j < |es| && OfSlot(es[i].msg, slot) && OfSlot(es[j].msg, slot)
      ensures |SlotsOf(es[i..j + 1])| <= retention
    {
      forall e <- es[i..j + 1] ensures e in span {
        var k :| i <= k < j + 1 && es[k] == e;
        assert span[k - f] == e;
      }
      SlotsOfPart(es[i..j + 1], span);
      SubsetCardinality(SlotsOf(es[i..j + 1]), SlotsOf(span));
    }
  }

  lemma NotNamedBefore(es: seq<Event>, slot: nat, f: nat)
    requires f <= |es| && !Named(es[..f], slot)
    ensures forall i | 0 <= i < f :: !OfSlot(es[i].msg, slot)
  {
    hide OfSlot;
    forall i | 0 <= i < f ensures !OfSlot(es[i].msg, slot) {
      assert es[..f][i] in es[..f];
    }
  }

  lemma NamedInSpan(es: seq<Event>, slot: nat, f: nat, l: nat)
    requires f <= l <= |es| && !Named(es[..f], slot) && !Named(es[l..], slot)
    ensures forall i | 0 <= i < |es| && OfSlot(es[i].msg, slot) :: f <= i < l
  {
    hide OfSlot;
    NotNamedBefore(es, slot, f);
    forall i | l <= i < |es| ensures !OfSlot(es[i].msg, slot) {
      assert es[l..][i - l] in es[l..];
    }
  }

  lemma {:induction false} FirstNaming(es: seq<Event>, slot: nat) returns (f: nat)
    requires Named(es, slot)
    ensures f < |es| && OfSlot(es[f].msg, slot) && !Named(es[..f], slot)
  {
    var front := Front(es);
    if Named(front, slot) {
      f := FirstNaming(front, slot);
      assert front[..f] == es[..f];
    } else {
      f := |es| - 1;
      assert es == front + [Last(es)] && es[..f] == front;
    }
  }

  // ---------- slots that stay tracked ----------

  /** Whenever another message of the slot comes, the window still tracks the slot. */
  ghost predicate TrackedThroughout(retention: nat, es: seq<Event>, slot: nat) {
    forall j | 0 <= j < |es| && OfSlot(es[j].msg, slot) && Named(es[..j], slot) ::
      Run(retention, es[..j]).state.window.Tracks(slot)
  }

  lemma TrackedFront(retention: nat, es: seq<Event>, e: Event, slot: nat)
    requires TrackedThroughout(retention, es + [e], slot)
    ensures TrackedThroughout(retention, es, slot)
    ensures OfSlot(e.msg, slot) && Named(es, slot) ==> Run(retention, es).state.window.Tracks(slot)
  {
    hide OfSlot;
    hide Named;
    hide Run;
    var all := es + [e];
    assert all[|es|] == e && all[..|es|] == es;
    forall j | 0 <= j < |es| && OfSlot(es[j].msg, slot) && Named(es[..j], slot)
      ensures Run(retention, es[..j]).state.window.Tracks(slot)
    {
      assert all[..j] == es[..j] && all[j] == es[j];
    }
  }

  /** The window with room to spare. */
  function Wide(w: Window): Window {
    w.(retention := |w.order| + 1)
  }

  /** What an observation does is what it would do with room to spare, and then pruning. */
  lemma ObserveWide(w: Window, t: nat, key: DedupKey)
    requires Structured(w) && |w.order| <= w.retention
    ensures var (far, obs) := Observe(Wide(w), t, key);
            Observe(w, t, key) == (Prune(far.(retention := w.retention)), obs)
  {
    hide Elements;
    match key {
      case Slot(status) =>
        hide RecordStatus;
        RecordWide(BeforeStatus(w, t, status), t, status, |w.order| + 1);
      case BlockMeta(_) =>
      case _ => PayloadWide(w, t, key);
    }
  }

  lemma PayloadWide(w: Window, t: nat, key: DedupKey)
    requires |w.order| <= w.retention
    ensures var (far, obs) := ObservePayload(Wide(w), t, key);
            ObservePayload(w, t, key) == (Prune(far.(retention := w.retention)), obs)
  {
    hide Elements;
  }

  lemma RecordWide(w: Window, t: nat, status: int, n: nat)
    requires |w.order| < n && |w.order| <= w.retention
    ensures var (far, obs) := RecordStatus(w.(retention := n), t, status);
            RecordStatus(w, t, status) == (Prune(far.(retention := w.retention)), obs)
  {
    hide Elements;
  }

  lemma WideKeeps(w: Window, t: nat, slot: nat)
    requires Structured(w)
    ensures Structured(Wide(w)) && Kept(Wide(w), t, slot)
  {
    FromListed(w.order, slot);
    NoDuplicatesCardinality(w.order);
    SubsetCardinality(From(w.order, slot), Elements(w.order));
  }

  /** Pruning changes nothing for a slot that it leaves tracked. */
  lemma PruneLeaves(w: Window, slot: nat)
    requires w.Tracks(slot) ==> Prune(w).Tracks(slot)
    ensures PhaseOf(Prune(w), slot) == PhaseOf(w, slot)
  {
  }

  /** The observation of the slot's own message. */
  lemma OwnObservation(w: Window, slot: nat, key: DedupKey)
    requires Structured(w) && |w.order| <= w.retention
    ensures Observe(w, slot, key).1 == PhaseObserve(PhaseOf(w, slot), key).1
    ensures key.BlockMeta? ==> Observe(w, slot, key).0.Tracks(slot)
  {
    assert PhaseOf(Wide(w), slot) == PhaseOf(w, slot);
    hide Observe;
    hide PhaseObserve;
    ObserveWide(w, slot, key);
    WideKeeps(w, slot, slot);
    ObservePhase(Wide(w), slot, key, slot);
    if key.BlockMeta? {
      hide Kept;
      hide Structured;
      MetaTracks(w, slot, key);
    }
  }

  lemma MetaTracks(w: Window, slot: nat, key: DedupKey)
    requires key.BlockMeta? && |w.order| <= w.retention
    ensures Observe(w, slot, key).0.Tracks(slot)
  {
  }

  /** An observation changes a slot that it leaves tracked, or that it does not concern, as its own machine
      says. */
  lemma ObservedPhase(w: Window, t: nat, key: DedupKey, slot: nat)
    requires Structured(w) && |w.order| <= w.retention
    requires w.Tracks(slot) || slot == t ==> Observe(w, t, key).0.Tracks(slot)
    ensures PhaseOf(Observe(w, t, key).0, slot) ==
            if slot == t then PhaseObserve(PhaseOf(w, slot), key).0 else PhaseOf(w, slot)
  {
    assert PhaseOf(Wide(w), slot) == PhaseOf(w, slot);
    hide Observe;
    hide PhaseObserve;
    ObserveWide(w, t, key);
    WideKeeps(w, t, slot);
    ObservePhase(Wide(w), t, key, slot);
    hide Kept;
    hide Structured;
    hide Prune;
    var far := Observe(Wide(w), t, key).0;
    var back := far.(retention := w.retention);
    assert PhaseOf(back, slot) == PhaseOf(far, slot);
    assert w.Tracks(slot) <==> !PhaseOf(w, slot).Absent?;
    assert back.Tracks(slot) <==> !PhaseOf(back, slot).Absent?;
    PruneLeaves(back, slot);
  }

  /** One step of the layer, seen by a slot that it leaves tracked. */
  lemma TrackedStep(s: LayerState, e: Event, slot: nat)
    requires WellFormed(s)
    requires s.window.Tracks(slot) || OfSlot(e.msg, slot) ==> Step(s, e).state.window.Tracks(slot)
    ensures var v := ViewResume(ViewOf(s, slot), e.count != s.lastCount);
            ViewOf(Step(s, e).state, slot) ==
            if OfSlot(e.msg, slot) then ViewStep(v, ExtractKey(e.msg).value.1, e.msg).0 else v
  {
    var s1 := Resume(s, e.count);
    ResumeView(s, e.count, slot);
    assert s1.window.inflight.Keys == s.window.inflight.Keys && Structured(s1.window);
    if ExtractKey(e.msg).Some? {
      var (t, key) := ExtractKey(e.msg).value;
      var (w, obs) := Observe(s1.window, t, key);
      hide Observe;
      hide PhaseObserve;
      ObservedPhase(s1.window, t, key, slot);
      if slot == t {
        OwnObservation(s1.window, slot, key);
      }
      SettleView(Retained(s1.quarantine, w), obs, t, e.msg, slot);
      hide Settle;
      hide SettleHeld;
      assert Held(Retained(s1.quarantine, w), slot) == Held(s1.quarantine, slot);
    }
  }

  /** What a step emits for a message is what the machine of its slot emits. */
  lemma OwnStepOut(s: LayerState, e: Event, slot: nat)
    requires WellFormed(s) && OfSlot(e.msg, slot)
    ensures Step(s, e).out ==
            ViewStep(ViewResume(ViewOf(s, slot), e.count != s.lastCount), ExtractKey(e.msg).value.1, e.msg).1
  {
    var s1 := Resume(s, e.count);
    var key := ExtractKey(e.msg).value.1;
    ResumeView(s, e.count, slot);
    assert s1.window.inflight.Keys == s.window.inflight.Keys && Structured(s1.window);
    var (w, obs) := Observe(s1.window, slot, key);
    OwnObservation(s1.window, slot, key);
    ObservationKind(s1.window, slot, key);
    hide Observe;
    hide PhaseObserve;
    if key.BlockMeta? {
      assert Held(Retained(s1.quarantine, w), slot) == Held(s1.quarantine, slot);
    }
    SettleView(Retained(s1.quarantine, w), obs, slot, e.msg, slot);
    hide Settle;
  }

  lemma ObservationKind(w: Window, slot: nat, key: DedupKey)
    ensures Observe(w, slot, key).1.ReplayComplete? || Observe(w, slot, key).1.PartialReplayComplete? ==> key.BlockMeta?
  {
    hide Prune;
    hide SlotMut;
  }

  lemma StillUnknown(s: LayerState, e: Event, slot: nat)
    requires WellFormed(s) && !s.window.Tracks(slot) && !OfSlot(e.msg, slot)
    ensures !Step(s, e).state.window.Tracks(slot)
  {
    if ExtractKey(e.msg).Some? {
      ObserveOthers(Resume(s, e.count).window, ExtractKey(e.msg).value.0, ExtractKey(e.msg).value.1, slot);
      hide Observe;
    }
  }

  /** As long as a slot was tracked at each of its messages, and still is, its view is what its own machine
      computes. */
  lemma {:induction false} TrackedView(retention: nat, es: seq<Event>, slot: nat)
    requires TrackedThroughout(retention, es, slot)
    requires Named(es, slot) ==> Run(retention, es).state.window.Tracks(slot)
    ensures ViewOf(Run(retention, es).state, slot) == SlotRun(es, slot).view
    ensures Run(retention, es).state.lastCount == SlotRun(es, slot).lastCount
  {
    if !Named(es, slot) {
      UnnamedIsUnknown(retention, es, slot);
    } else {
      var front, e := Front(es), Last(es);
      assert es == front + [e] && forall x :: x in es <==> x in front || x == e;
      TrackedFront(retention, front, e, slot);
      RunWellFormed(retention, front);
      var s := Run(retention, front).state;
      assert Run(retention, es).state == Step(s, e).state;
      assert OfSlot(e.msg, slot) || Named(front, slot);
      hide TrackedThroughout;
      hide Run;
      hide Step;
      if !OfSlot(e.msg, slot) && !s.window.Tracks(slot) {
        StillUnknown(s, e, slot);
      }
      hide Named;
      TrackedView(retention, front, slot);
      TrackedStep(s, e, slot);
      StepCount(s, e);
      SlotRunAppend(front, e, slot);
      hide SlotRun;
      hide ViewStep;
      hide WellFormed;
    }
  }

  /** While a slot stays tracked, what the layer emits for a message of the slot is what the slot's own
      machine emits. */
  lemma StepOutput(retention: nat, es: seq<Event>, e: Event, slot: nat)
    requires TrackedThroughout(retention, es + [e], slot) && OfSlot(e.msg, slot)
    ensures Step(Run(retention, es).state, e).out == SlotStepOut(es, e, slot)
  {
    RunWellFormed(retention, es);
    TrackedFront(retention, es, e, slot);
    hide TrackedThroughout;
    TrackedView(retention, es, slot);
    OwnStepOut(Run(retention, es).state, e, slot);
    hide Step;
    hide ViewStep;
    hide WellFormed;
    hide SlotRun;
  }

  /** It is enough that between two messages of the slot no more slots are named than the window retains. */
  lemma ListedIsTracked(retention: nat, es: seq<Event>, slot: nat)
    requires StaysListed(es, slot, retention)
    ensures TrackedThroughout(retention, es, slot)
  {
    hide StaysListed;
    forall j | 0 <= j < |es| && OfSlot(es[j].msg, slot) && Named(es[..j], slot)
      ensures Run(retention, es[..j]).state.window.Tracks(slot)
    {
      ListedAt(retention, es, slot, j);
    }
  }

  lemma ListedSince(es: seq<Event>, slot: nat, retention: nat, f: nat, j: nat)
    requires StaysListed(es, slot, retention)
    requires f < j < |es| && OfSlot(es[f].msg, slot) && OfSlot(es[j].msg, slot)
    ensures |SlotsOf(es[..j][f..] + [es[j]])| <= retention
  {
    hide OfSlot;
    hide SlotsOf;
    assert es[..j][f..] + [es[j]] == es[f..j + 1];
  }

  lemma ListedAt(retention: nat, es: seq<Event>, slot: nat, j: nat)
    requires StaysListed(es, slot, retention) && j < |es| && OfSlot(es[j].msg, slot) && Named(es[..j], slot)
    ensures Run(retention, es[..j]).state.window.Tracks(slot)
  {
    hide *;
    var part := es[..j];
    var f := FirstNaming(part, slot);
    assert es[f] == part[f];
    ListedSince(es, slot, retention, f, j);
    SlotsOfSnoc(part[f..], es[j]);
    SubsetCardinality(SlotsOf(part[f..]), SlotsOf(part[f..] + [es[j]]));
    SlotIsIndependent(retention, part, slot, f);
    KnownIfNamed(part, slot);
    KnownIsTracked(Run(retention, part).state, slot);
  }

  lemma NamedSnoc(es: seq<Event>, e: Event, slot: nat)
    ensures Named(es + [e], slot) <==> Named(es, slot) || OfSlot(e.msg, slot)
  {
    hide OfSlot;
    assert forall x :: x in es + [e] <==> x in es || x == e;
  }

  lemma {:induction false} KnownIfNamed(es: seq<Event>, slot: nat)
    ensures SlotRun(es, slot).view.phase.Absent? <==> !Named(es, slot)
  {
    if es != [] {
      var front, e := Front(es), Last(es);
      assert es == front + [e];
      KnownIfNamed(front, slot);
      SlotRunAppend(front, e, slot);
      NamedSnoc(front, e, slot);
      hide SlotRun;
      hide Named;
    }
  }

  /** While a slot stays tracked, the output restricted to it is the output of its own machine, however many
      slots come before, behind and in between. */
  lemma {:induction false} SlotsAreIndependent(retention: nat, es: seq<Event>, slot: nat)
    requires TrackedThroughout(retention, es, slot)
    ensures SlotPart(Run(retention, es).out, slot) == SlotRun(es, slot).out
  {
    if es != [] {
      var front, e := Front(es), Last(es);
      assert es == front + [e];
      TrackedFront(retention, front, e, slot);
      SlotsAreIndependent(retention, front, slot);
      IndependentOutput(retention, front, e, slot);
    }
  }

  lemma IndependentOutput(retention: nat, es: seq<Event>, e: Event, slot: nat)
    requires TrackedThroughout(retention, es + [e], slot)
    requires SlotPart(Run(retention, es).out, slot) == SlotRun(es, slot).out
    ensures SlotPart(Run(retention, es + [e]).out, slot) == SlotRun(es + [e], slot).out
  {
    var p := m => OfSlot(m, slot);
    var r := Run(retention, es);
    var out := Step(r.state, e).out;
    RunAppend(retention, es, e);
    RunQuarantineIsPayload(retention, es);
    StepOutSlot(r.state, e);
    SlotRunAppend(es, e, slot);
    FilterAppend(r.out, out, p);
    if OfSlot(e.msg, slot) {
      StepOutput(retention, es, e, slot);
      FilterAll(out, p);
    } else {
      FilterNone(out, p);
      assert SlotPart(r.out, slot) + [] == SlotPart(r.out, slot);
    }
    hide Run;
    hide Step;
    hide SlotRun;
    hide ViewStep;
    hide Filter;
  }
}
