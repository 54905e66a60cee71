/** What every run of the replay layer keeps true of its four coupled collections. */
module DedupWindow {
  import opened Collections
  import opened Protocol
  import opened DedupModel

  ghost predicate Structured(w: Window) {
    && w.inflight.Keys !! w.sealed.Keys
    && NoDuplicates(w.order)
    && (forall s <- w.order :: w.Tracks(s))
    && (forall s <- w.inflight :: s in w.order)
  }

  ghost predicate WellFormed(s: LayerState) {
    && Structured(s.window)
    && |s.window.order| <= s.window.retention
    && (forall slot <- s.quarantine :: s.window.Tracks(slot))
  }

  lemma SlotMutStructured(w: Window, slot: nat)
    requires Structured(w) && slot !in w.sealed
    ensures Structured(SlotMut(w, slot)) && slot in SlotMut(w, slot).inflight
  {
    var v := SlotMut(w, slot);
    assert forall s <- v.order :: s in w.order || s == slot;
    if w.Tracks(slot) {
      assert v == w;
    } else {
      assert slot !in w.order;
      assert Elements(v.order) == Elements(w.order) + {slot};
    }
  }

  lemma PruneStructured(w: Window)
    requires Structured(w)
    ensures Structured(Prune(w)) && |Prune(w).order| <= w.retention
  {
    var k := |w.order| - w.retention;
    if k > 0 {
      var v := Prune(w);
      forall s <- v.order ensures v.Tracks(s) {
        var i :| 0 <= i < |v.order| && v.order[i] == s;
        assert w.order[k + i] == s && s in w.order && w.Tracks(s);
        assert s !in Elements(w.order[..k]);
      }
      forall s <- v.inflight ensures s in v.order {
        var i :| 0 <= i < |w.order| && w.order[i] == s;
        if i >= k {
          assert s == v.order[i - k];
        }
      }
    }
  }

  lemma ClearStructured(w: Window, slot: nat)
    requires Structured(w)
    ensures Structured(ClearSlot(w, slot)) && |ClearSlot(w, slot).order| <= |w.order|
  {
    FilterNoDuplicates(w.order, x => x != slot);
  }

  lemma RecordStatusStructured(w: Window, slot: nat, status: int)
    requires Structured(w) && |w.order| <= w.retention
    ensures var v := RecordStatus(w, slot, status).0;
            Structured(v) && |v.order| <= v.retention == w.retention
  {
    if slot !in w.sealed {
      SlotMutStructured(w, slot);
      var w1 := SlotMut(w, slot);
      var s := w1.inflight[slot];
      PruneStructured(w1.(inflight := w1.inflight[slot := s.(statuses := s.statuses + {status})]));
    }
  }

  lemma ObserveStatusStructured(w: Window, slot: nat, status: int)
    requires Structured(w) && |w.order| <= w.retention
    ensures var v := ObserveStatus(w, slot, status).0;
            Structured(v) && |v.order| <= v.retention == w.retention
  {
    hide RecordStatus;
    ClearStructured(w, slot);
    RecordStatusStructured(BeforeStatus(w, slot, status), slot, status);
  }

  lemma ObserveBlockMetaStructured(w: Window, slot: nat, blockhash: string)
    requires Structured(w) && |w.order| <= w.retention
    ensures var v := ObserveBlockMeta(w, slot, blockhash).0;
            Structured(v) && |v.order| <= v.retention == w.retention
  {
  }

  lemma ObservePayloadStructured(w: Window, slot: nat, key: DedupKey)
    requires Structured(w) && |w.order| <= w.retention
    ensures var v := ObservePayload(w, slot, key).0;
            Structured(v) && |v.order| <= v.retention == w.retention
  {
    if slot !in w.sealed && !Replaying(w, slot) {
      SlotMutStructured(w, slot);
      var w1 := SlotMut(w, slot);
      var s := w1.inflight[slot];
      PruneStructured(w1.(inflight := w1.inflight[slot := s.(keys := s.keys + {key})]));
    }
  }

  lemma ObserveStructured(w: Window, slot: nat, key: DedupKey)
    requires Structured(w) && |w.order| <= w.retention
    ensures var (v, obs) := Observe(w, slot, key);
            && Structured(v) && |v.order| <= v.retention == w.retention
            && (obs == Replay ==> v == w && v.Tracks(slot))
  {
    hide Structured;
    match key {
      case Slot(status) => ObserveStatusStructured(w, slot, status);
      case BlockMeta(blockhash) => ObserveBlockMetaStructured(w, slot, blockhash);
      case _ => ObservePayloadStructured(w, slot, key);
    }
  }

  lemma StepWellFormed(s: LayerState, e: Event)
    requires WellFormed(s)
    ensures WellFormed(Step(s, e).state) && Step(s, e).state.window.retention == s.window.retention
  {
    var s1 := Resume(s, e.count);
    assert s1.window.inflight.Keys == s.window.inflight.Keys;
    assert WellFormed(s1);
    if ExtractKey(e.msg).Some? {
      var (slot, key) := ExtractKey(e.msg).value;
      ObserveStructured(s1.window, slot, key);
    }
  }

  /** In every run: no slot is both in flight and sealed, the order has no repeats and only tracked
      slots, every slot in flight is in it, it is no longer than the retention, and only tracked
      slots have a quarantine. */
  lemma {:induction false} RunWellFormed(retention: nat, es: seq<Event>)
    ensures WellFormed(Run(retention, es).state) && Run(retention, es).state.window.retention == retention
  {
    if es != [] {
      RunWellFormed(retention, Front(es));
      StepWellFormed(Run(retention, Front(es)).state, Last(es));
    }
  }

  /** The sealed slots whose sealing BlockMeta found no entry in flight. */
  ghost function BareSealed(retention: nat, es: seq<Event>): set<nat> {
    if es == [] then {}
    else
      var before := Run(retention, Front(es)).state.window;
      var after := Run(retention, es).state.window;
      var key := ExtractKey(Last(es).msg);
      var bare := if key.Some? && key.value.1.BlockMeta? && !before.Tracks(key.value.0) then {key.value.0} else {};
      (BareSealed(retention, Front(es)) + bare) * after.sealed.Keys
  }

  /** The sealed slots that the order does not list. */
  ghost function Unlisted(w: Window): set<nat> {
    w.sealed.Keys - Elements(w.order)
  }

  lemma PruneUnlisted(w: Window)
    requires Structured(w)
    ensures Unlisted(Prune(w)) == Unlisted(w)
    ensures Prune(w).sealed.Keys >= Unlisted(w)
  {
    var k := |w.order| - w.retention;
    if k > 0 {
      assert w.order == w.order[..k] + w.order[k..];
      assert Elements(w.order) == Elements(w.order[..k]) + Elements(w.order[k..]);
    }
  }

  lemma ClearElements(w: Window, slot: nat)
    ensures Elements(ClearSlot(w, slot).order) == Elements(w.order) - {slot}
  {
  }

  lemma SlotMutElements(w: Window, slot: nat)
    ensures Elements(SlotMut(w, slot).order) == Elements(w.order) + if w.Tracks(slot) then {} else {slot}
  {
  }

  lemma ClearSealed(w: Window, slot: nat)
    ensures ClearSlot(w, slot).sealed.Keys == w.sealed.Keys - {slot}
  {
  }

  lemma ClearUnlisted(w: Window, slot: nat)
    ensures Unlisted(ClearSlot(w, slot)) == Unlisted(w) - {slot}
  {
    ClearElements(w, slot);
  }

  lemma RecordStatusUnlisted(w: Window, slot: nat, status: int)
    requires Structured(w)
    ensures var v := RecordStatus(w, slot, status).0;
            Unlisted(v) == Unlisted(w) && Unlisted(w) <= v.sealed.Keys <= w.sealed.Keys
  {
    if slot !in w.sealed {
      SlotMutStructured(w, slot);
      SlotMutElements(w, slot);
      var w1 := SlotMut(w, slot);
      var s := w1.inflight[slot];
      var w2 := w1.(inflight := w1.inflight[slot := s.(statuses := s.statuses + {status})]);
      assert Unlisted(w2) == Unlisted(w);
      PruneUnlisted(w2);
    }
  }

  lemma ObserveStatusUnlisted(w: Window, slot: nat, status: int)
    requires Structured(w)
    ensures var v := ObserveStatus(w, slot, status).0;
            Unlisted(v) == Unlisted(w) * v.sealed.Keys
  {
    hide RecordStatus;
    hide ClearSlot;
    hide Unlisted;
    ClearStructured(w, slot);
    ClearUnlisted(w, slot);
    ClearSealed(w, slot);
    UnlistedSealed(w);
    RecordStatusUnlisted(BeforeStatus(w, slot, status), slot, status);
  }

  lemma UnlistedSealed(w: Window)
    ensures Unlisted(w) <= w.sealed.Keys
  {
  }

  lemma ObservePayloadUnlisted(w: Window, slot: nat, key: DedupKey)
    requires Structured(w)
    ensures var v := ObservePayload(w, slot, key).0;
            Unlisted(v) == Unlisted(w) && Unlisted(w) <= v.sealed.Keys
  {
    if slot !in w.sealed && !Replaying(w, slot) {
      SlotMutStructured(w, slot);
      SlotMutElements(w, slot);
      var w1 := SlotMut(w, slot);
      var s := w1.inflight[slot];
      var w2 := w1.(inflight := w1.inflight[slot := s.(keys := s.keys + {key})]);
      assert Unlisted(w2) == Unlisted(w);
      PruneUnlisted(w2);
    }
  }

  lemma ObserveUnlisted(w: Window, slot: nat, key: DedupKey)
    requires Structured(w) && |w.order| <= w.retention
    ensures var v := Observe(w, slot, key).0;
            Unlisted(v) == (Unlisted(w) + if key.BlockMeta? && !w.Tracks(slot) then {slot} else {}) * v.sealed.Keys
  {
    match key {
      case Slot(status) => ObserveStatusUnlisted(w, slot, status);
      case BlockMeta(blockhash) =>
      case _ => ObservePayloadUnlisted(w, slot, key);
    }
  }

  /** A sealed slot is outside the order exactly when its sealing BlockMeta found nothing in flight. */
  lemma {:induction false} UnlistedAreBare(retention: nat, es: seq<Event>)
    ensures Unlisted(Run(retention, es).state.window) == BareSealed(retention, es)
  {
    if es != [] {
      UnlistedAreBare(retention, Front(es));
      RunWellFormed(retention, Front(es));
      var s1 := Resume(Run(retention, Front(es)).state, Last(es).count);
      assert s1.window.inflight.Keys == Run(retention, Front(es)).state.window.inflight.Keys;
      if ExtractKey(Last(es).msg).Some? {
        var (slot, key) := ExtractKey(Last(es).msg).value;
        ObserveUnlisted(s1.window, slot, key);
      }
    }
  }

  lemma TrackedSlots(w: Window)
    requires Structured(w)
    ensures w.inflight.Keys + w.sealed.Keys == Elements(w.order) + Unlisted(w)
    ensures |Elements(w.order)| == |w.order|
  {
    NoDuplicatesCardinality(w.order);
  }

  lemma UnionCardinality<T>(a: set<T>, b: set<T>)
    requires a !! b
    ensures |a + b| == |a| + |b|
  {
  }

  /** How many slots the layer remembers: the retention bounds the listed ones only. */
  lemma TrackedCount(retention: nat, es: seq<Event>)
    ensures var w := Run(retention, es).state.window;
            && |w.inflight.Keys + w.sealed.Keys| == |w.order| + |BareSealed(retention, es)|
            && |w.order| <= retention
  {
    hide Run;
    hide BareSealed;
    hide Structured;
    var w := Run(retention, es).state.window;
    RunWellFormed(retention, es);
    UnlistedAreBare(retention, es);
    TrackedSlots(w);
    UnionCardinality(Elements(w.order), Unlisted(w));
  }

  function MetaMessage(slot: nat): Message {
    Subscribe(SubscribeUpdate([], Some(BlockMetaUpdate(slot, "hash"))))
  }

  /** A stream of nothing but the BlockMeta messages of `n` slots. */
  function MetaEvents(n: nat): seq<Event> {
    if n == 0 then [] else MetaEvents(n - 1) + [Event(0, MetaMessage(n - 1))]
  }

  lemma BareMetaStep(s: LayerState, slot: nat)
    requires s.lastCount == 0 && !s.window.Tracks(slot) && s.window.order == []
    ensures var t := Step(s, Event(0, MetaMessage(slot))).state;
            && t.lastCount == 0 && t.window.order == []
            && t.window.inflight == s.window.inflight
            && t.window.sealed == s.window.sealed[slot := SealedSlot(Some("hash"), {})]
  {
    assert ExtractKey(MetaMessage(slot)) == Some((slot, BlockMeta("hash")));
    assert s.window.inflight - {slot} == s.window.inflight;
  }

  lemma OneMoreSealed(sealed: map<nat, SealedSlot>, slot: nat, s: SealedSlot)
    requires forall k <- sealed :: k < slot
    ensures var after := sealed[slot := s];
            |after.Keys| == |sealed.Keys| + 1 && forall k <- after :: k < slot + 1
  {
    assert sealed[slot := s].Keys == sealed.Keys + {slot};
  }

  /** The layer remembers `n` slots, sealed and none of them listed. */
  ghost predicate Filled(s: LayerState, n: nat) {
    && (forall slot <- s.window.sealed :: slot < n) && |s.window.sealed.Keys| == n
    && s.window.order == [] && s.window.inflight == map[] && s.lastCount == 0
  }

  lemma FilledStep(s: LayerState, n: nat)
    requires Filled(s, n)
    ensures Filled(Step(s, Event(0, MetaMessage(n))).state, n + 1)
  {
    BareMetaStep(s, n);
    hide Step;
    OneMoreSealed(s.window.sealed, n, SealedSlot(Some("hash"), {}));
  }

  /** The retention does not bound the memory: whatever it is, `n` BlockMeta messages of untracked
      slots leave `n` sealed slots and an empty order. */
  lemma {:induction false} MetaEventsFillMemory(retention: nat, n: nat)
    ensures Filled(Run(retention, MetaEvents(n)).state, n)
  {
    if n > 0 {
      MetaEventsFillMemory(retention, n - 1);
      var events, e := MetaEvents(n - 1), Event(0, MetaMessage(n - 1));
      assert MetaEvents(n) == events + [e];
      hide *;
      RunAppend(retention, events, e);
      FilledStep(Run(retention, events).state, n - 1);
    }
  }

  /** The hash of the last BlockMeta of `slot` on the output. */
  function LastMetaHash(out: seq<Message>, slot: nat): Option<string> {
    if out == [] then None
    else if IsMetaOf(Last(out), slot) then Some(ExtractKey(Last(out)).value.1.blockhash)
    else LastMetaHash(Front(out), slot)
  }

  lemma {:induction false} LastMetaHashAppend(a: seq<Message>, b: seq<Message>, slot: nat)
    ensures LastMetaHash(a + b, slot) ==
            if LastMetaHash(b, slot).Some? then LastMetaHash(b, slot) else LastMetaHash(a, slot)
  {
    if b == [] {
      assert a + b == a;
    } else {
      assert Front(a + b) == a + Front(b);
      LastMetaHashAppend(a, Front(b), slot);
    }
  }

  /** Quarantined messages are payload of the slot that they are filed under. */
  ghost predicate QuarantineIsPayload(q: map<nat, seq<Message>>) {
    forall slot <- q :: forall m <- q[slot] :: IsPayloadOf(m, slot)
  }

  lemma {:induction false} ReconciledSubset(held: seq<Message>, keys: set<DedupKey>)
    ensures forall m <- Reconciled(held, keys) :: m in held
  {
    if held != [] {
      ReconciledSubset(Front(held), keys);
      assert held == Front(held) + [Last(held)];
    }
  }

  lemma StepQuarantineIsPayload(s: LayerState, e: Event)
    requires QuarantineIsPayload(s.quarantine)
    ensures QuarantineIsPayload(Step(s, e).state.quarantine)
    ensures forall m <- Step(s, e).out :: m == e.msg || exists slot: nat :: OfSlot(e.msg, slot) && IsPayloadOf(m, slot)
  {
    if ExtractKey(e.msg).Some? {
      var (slot, key) := ExtractKey(e.msg).value;
      var s1 := Resume(s, e.count);
      var (w, obs) := Observe(s1.window, slot, key);
      var q := Retained(s1.quarantine, w);
      if obs.PartialReplayComplete? {
        ReconciledSubset(Held(q, slot), obs.keys);
      }
      assert OfSlot(e.msg, slot);
    }
  }

  lemma {:induction false} RunQuarantineIsPayload(retention: nat, es: seq<Event>)
    ensures QuarantineIsPayload(Run(retention, es).state.quarantine)
  {
    if es != [] {
      RunQuarantineIsPayload(retention, Front(es));
      StepQuarantineIsPayload(Run(retention, Front(es)).state, Last(es));
    }
  }

  lemma {:induction false} NoMetaNoHash(out: seq<Message>, slot: nat)
    requires forall m <- out :: !IsMetaOf(m, slot)
    ensures LastMetaHash(out, slot) == None
  {
    if out != [] {
      NoMetaNoHash(Front(out), slot);
    }
  }

  lemma {:induction false} LastMetaHashOfLast(out: seq<Message>, slot: nat)
    requires out != [] && IsMetaOf(Last(out), slot)
    ensures LastMetaHash(out, slot) == Some(ExtractKey(Last(out)).value.1.blockhash)
  {
  }

  /** A BlockMeta is emitted last or not at all, and decides what is stored about its slot. */
  lemma StepOfMeta(s: LayerState, e: Event, slot: nat)
    requires IsMetaOf(e.msg, slot)
    ensures var r := Step(s, e);
            var hash := ExtractKey(e.msg).value.1.blockhash;
            if r.out != [] then
              && Last(r.out) == e.msg
              && (slot in r.state.window.sealed ==> r.state.window.sealed[slot].blockhash == Some(hash))
            else slot in s.window.sealed && s.window.sealed[slot].blockhash == Some(hash)
                 && slot in r.state.window.sealed && r.state.window.sealed[slot].blockhash == Some(hash)
  {
  }

  /** Only a BlockMeta of the slot changes the stored hash. */
  lemma StepOfOther(s: LayerState, e: Event, slot: nat)
    requires !IsMetaOf(e.msg, slot) && slot in Step(s, e).state.window.sealed
    ensures slot in s.window.sealed
    ensures Step(s, e).state.window.sealed[slot].blockhash == s.window.sealed[slot].blockhash
  {
    if ExtractKey(e.msg).Some? {
      var (t, key) := ExtractKey(e.msg).value;
      ObserveOther(Resume(s, e.count).window, t, key, slot);
      hide Observe;
    }
  }

  lemma ObserveOther(w: Window, t: nat, key: DedupKey, slot: nat)
    requires slot in Observe(w, t, key).0.sealed && (key.BlockMeta? ==> t != slot)
    ensures slot in w.sealed && Observe(w, t, key).0.sealed[slot].blockhash == w.sealed[slot].blockhash
  {
    match key {
      case Slot(status) =>
        hide ClearSlot;
        ClearedHash(w, t, slot);
        RecordStatusOther(BeforeStatus(w, t, status), t, status, slot);
      case BlockMeta(_) =>
      case _ =>
    }
  }

  lemma ClearedHash(w: Window, t: nat, slot: nat)
    ensures slot in ClearSlot(w, t).sealed ==> slot in w.sealed && ClearSlot(w, t).sealed[slot] == w.sealed[slot]
  {
  }

  lemma RecordStatusOther(w: Window, t: nat, status: int, slot: nat)
    requires slot in RecordStatus(w, t, status).0.sealed
    ensures slot in w.sealed && RecordStatus(w, t, status).0.sealed[slot].blockhash == w.sealed[slot].blockhash
  {
  }

  lemma StepOfOtherEmitsNoMeta(s: LayerState, e: Event, slot: nat)
    requires QuarantineIsPayload(s.quarantine) && !IsMetaOf(e.msg, slot)
    ensures LastMetaHash(Step(s, e).out, slot) == None
  {
    StepQuarantineIsPayload(s, e);
    NoMetaNoHash(Step(s, e).out, slot);
  }

  /** What one step does to the verdict about `slot`: it changes only together with the output. */
  lemma StepVerdict(s: LayerState, e: Event, slot: nat)
    requires QuarantineIsPayload(s.quarantine) && slot in Step(s, e).state.window.sealed
    ensures var hash := Step(s, e).state.window.sealed[slot].blockhash;
            var emitted := LastMetaHash(Step(s, e).out, slot);
            if emitted.Some? then hash == emitted
            else slot in s.window.sealed && hash == s.window.sealed[slot].blockhash
  {
    hide Step;
    if IsMetaOf(e.msg, slot) {
      StepOfMeta(s, e, slot);
      if Step(s, e).out != [] {
        LastMetaHashOfLast(Step(s, e).out, slot);
      }
    } else {
      StepOfOther(s, e, slot);
      StepOfOtherEmitsNoMeta(s, e, slot);
    }
  }

  /** In every run, the verdict stored for a sealed slot is the hash of the last BlockMeta of that
      slot that was made deliverable. */
  lemma {:induction false} VerdictMemory(retention: nat, es: seq<Event>, slot: nat)
    requires slot in Run(retention, es).state.window.sealed
    ensures LastMetaHash(Run(retention, es).out, slot) == Run(retention, es).state.window.sealed[slot].blockhash
    ensures LastMetaHash(Run(retention, es).out, slot).Some?
  {
    var before := Run(retention, Front(es));
    RunQuarantineIsPayload(retention, Front(es));
    StepVerdict(before.state, Last(es), slot);
    LastMetaHashAppend(before.out, Step(before.state, Last(es)).out, slot);
    if slot in before.state.window.sealed {
      VerdictMemory(retention, Front(es), slot);
    }
  }

  /** The verdict on a replayed BlockMeta of a sealed slot: the hash last delivered for the slot
      decides between silence and the whole quarantined list, in order, with the new BlockMeta. */
  lemma ReplayVerdict(retention: nat, es: seq<Event>, e: Event, slot: nat)
    requires slot in Run(retention, es).state.window.sealed && IsMetaOf(e.msg, slot)
    ensures var before := Run(retention, es);
            var after := Run(retention, es + [e]);
            var held := Held(Resume(before.state, e.count).quarantine, slot);
            && after.out == before.out +
                            (if LastMetaHash(before.out, slot) == Some(ExtractKey(e.msg).value.1.blockhash)
                             then [] else held + [e.msg])
            && slot !in after.state.quarantine
  {
    VerdictMemory(retention, es, slot);
    RunAppend(retention, es, e);
  }
}
