/** Which sealed slots the layer never forgets by pruning: exactly those whose BlockMeta came while the
    slot was not tracked. */
module DedupMemory {
  import opened Collections
  import opened Protocol
  import opened DedupModel
  import opened DedupWindow
  import opened DedupSlots

  /** After event `m` no CreatedBank of the slot came. */
  ghost predicate NoBankSince(es: seq<Event>, slot: nat, m: nat) {
    forall x | m < x < |es| :: !IsCreatedBankOf(es[x].msg, slot)
  }

  /** Event `m` is a BlockMeta of the slot, which was not tracked, and no CreatedBank of it came since. */
  ghost predicate BareAt(retention: nat, es: seq<Event>, slot: nat, m: nat) {
    && m < |es| && IsMetaOf(es[m].msg, slot) && !Run(retention, es[..m]).state.window.Tracks(slot)
    && NoBankSince(es, slot, m)
  }

  /** Event `m` is a BlockMeta, the first message of its slot, and no CreatedBank of the slot came since. */
  ghost predicate FirstMetaAt(es: seq<Event>, slot: nat, m: nat) {
    m < |es| && IsMetaOf(es[m].msg, slot) && !Named(es[..m], slot) && NoBankSince(es, slot, m)
  }

  /** A slot that is sealed without being listed stays so, until its CreatedBank. */
  lemma ObserveKeepsUnlisted(w: Window, t: nat, key: DedupKey, slot: nat)
    requires Structured(w) && |w.order| <= w.retention
    requires slot in Unlisted(w) || (t == slot && key.BlockMeta? && !w.Tracks(slot))
    ensures slot in Observe(w, t, key).0.sealed <==> !(t == slot && key == DedupKey.Slot(SLOT_CREATED_BANK))
  {
    match key {
      case Slot(status) =>
        hide RecordStatus;
        hide Unlisted;
        ClearStructured(w, t);
        ClearUnlisted(w, t);
        ClearSealed(w, t);
        UnlistedSealed(w);
        RecordStatusUnlisted(BeforeStatus(w, t, status), t, status);
        UnlistedIsDone(w, slot);
      case BlockMeta(hash) =>
      case _ => ObservePayloadUnlisted(w, t, key);
    }
  }

  lemma UnlistedIsDone(w: Window, slot: nat)
    requires Structured(w) && slot in Unlisted(w)
    ensures slot in w.sealed && !Replaying(w, slot)
  {
  }

  lemma BareStep(retention: nat, es: seq<Event>, e: Event, slot: nat)
    ensures slot in BareSealed(retention, es + [e]) <==>
            || (slot in BareSealed(retention, es) && !IsCreatedBankOf(e.msg, slot))
            || (IsMetaOf(e.msg, slot) && !Run(retention, es).state.window.Tracks(slot))
  {
    var s := Run(retention, es).state;
    var s1 := Resume(s, e.count);
    assert Front(es + [e]) == es;
    RunAppend(retention, es, e);
    RunWellFormed(retention, es);
    UnlistedAreBare(retention, es);
    assert s1.window.inflight.Keys == s.window.inflight.Keys;
    hide Run;
    hide Observe;
    UnlistedSealed(s.window);
    if ExtractKey(e.msg).Some? {
      var (t, key) := ExtractKey(e.msg).value;
      if slot in Unlisted(s1.window) || (t == slot && key.BlockMeta? && !s1.window.Tracks(slot)) {
        ObserveKeepsUnlisted(s1.window, t, key, slot);
      }
    }
  }

  lemma BareAtSnoc(retention: nat, es: seq<Event>, e: Event, slot: nat, m: nat)
    ensures BareAt(retention, es + [e], slot, m) <==>
            if m < |es| then BareAt(retention, es, slot, m) && !IsCreatedBankOf(e.msg, slot)
            else m == |es| && IsMetaOf(e.msg, slot) && !Run(retention, es).state.window.Tracks(slot)
  {
    var all := es + [e];
    hide Run;
    hide IsCreatedBankOf;
    hide IsMetaOf;
    assert all[|es|] == e && all[..|es|] == es && forall i | 0 <= i < |es| :: all[i] == es[i];
    if m < |es| {
      assert all[..m] == es[..m];
    }
  }

  /** The sealed slots that pruning never reaches, exactly. */
  lemma {:induction false} BareExactly(retention: nat, es: seq<Event>, slot: nat)
    ensures slot in BareSealed(retention, es) <==> exists m :: BareAt(retention, es, slot, m)
  {
    if es != [] {
      var front, e := Front(es), Last(es);
      assert es == front + [e];
      BareExactly(retention, front, slot);
      BareStep(retention, front, e, slot);
      forall m: nat
        ensures BareAt(retention, es, slot, m) <==>
                if m < |front| then BareAt(retention, front, slot, m) && !IsCreatedBankOf(e.msg, slot)
                else m == |front| && IsMetaOf(e.msg, slot) && !Run(retention, front).state.window.Tracks(slot)
      {
        BareAtSnoc(retention, front, e, slot, m);
      }
      hide BareSealed;
      hide IsMetaOf;
      hide IsCreatedBankOf;
      hide Run;
      BareIsEarlier(retention, front, slot);
      hide BareAt;
      assert IsMetaOf(e.msg, slot) && !Run(retention, front).state.window.Tracks(slot) ==>
               BareAt(retention, es, slot, |front|);
    }
  }

  lemma BareIsEarlier(retention: nat, es: seq<Event>, slot: nat)
    ensures forall m: nat | BareAt(retention, es, slot, m) :: m < |es|
  {
  }

  /** On the input alone: a BlockMeta that is the first message of its slot leaves the slot in memory for
      good, whatever the retention and however many slots follow, unless a CreatedBank of the slot comes. */
  lemma FirstMetaStays(retention: nat, es: seq<Event>, slot: nat, m: nat)
    requires FirstMetaAt(es, slot, m)
    ensures slot in BareSealed(retention, es) && slot in Run(retention, es).state.window.sealed
  {
    UnnamedIsUnknown(retention, es[..m], slot);
    KnownIsTracked(Run(retention, es[..m]).state, slot);
    assert BareAt(retention, es, slot, m);
    BareExactly(retention, es, slot);
    UnlistedAreBare(retention, es);
  }

  /** And while the slot has its place in the window, there is no other way for it to stay. */
  lemma OnlyFirstMetaStays(retention: nat, es: seq<Event>, slot: nat, f: nat)
    requires f <= |es| && !Named(es[..f], slot) && |SlotsOf(es[f..])| <= retention
    ensures slot in BareSealed(retention, es) <==> exists m :: FirstMetaAt(es, slot, m)
  {
    BareExactly(retention, es, slot);
    hide BareSealed;
    forall m: nat ensures BareAt(retention, es, slot, m) <==> FirstMetaAt(es, slot, m) {
      if m < |es| && IsMetaOf(es[m].msg, slot) {
        TrackedIfNamed(retention, es, slot, f, m);
      }
    }
    hide BareAt;
    hide FirstMetaAt;
  }

  lemma TrackedIfNamed(retention: nat, es: seq<Event>, slot: nat, f: nat, m: nat)
    requires f <= |es| && !Named(es[..f], slot) && |SlotsOf(es[f..])| <= retention
    requires m < |es| && OfSlot(es[m].msg, slot)
    ensures Run(retention, es[..m]).state.window.Tracks(slot) <==> Named(es[..m], slot)
  {
    NotNamedBefore(es, slot, f);
    assert f <= m;
    var part := es[..m];
    assert part[..f] == es[..f] && part[f..] == es[f..m];
    assert forall e <- part[f..] :: e in es[f..] by {
      assert part[f..] == es[f..][..m - f];
    }
    hide *;
    SlotsOfPart(part[f..], es[f..]);
    SubsetCardinality(SlotsOf(part[f..]), SlotsOf(es[f..]));
    SlotIsIndependent(retention, part, slot, f);
    KnownIsTracked(Run(retention, part).state, slot);
    KnownIfNamed(part, slot);
  }
}
