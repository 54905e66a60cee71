/** On an undisturbed stream the layer is the plain removal of repeated keys, exactly as far as no
    payload first comes after the BlockMeta of its slot. */
module DedupRefinement {
  import opened Collections
  import opened Protocol
  import opened DedupModel
  import opened DedupSlots
  import opened ProtocolKeys

  /** The slots and keys that the input has brought. */
  function Seen(es: seq<Event>): set<(nat, DedupKey)> {
    if es == [] then {}
    else
      var key := ExtractKey(Last(es).msg);
      Seen(Front(es)) + if key.Some? then {key.value} else {}
  }

  /** The input without second and later occurrences of a slot and key. */
  function FirstOccurrences(es: seq<Event>): seq<Message> {
    if es == [] then []
    else
      var key := ExtractKey(Last(es).msg);
      FirstOccurrences(Front(es)) + if key.Some? && key.value in Seen(Front(es)) then [] else [Last(es).msg]
  }

  /** A slot and key were seen exactly if the same message came before. */
  lemma {:induction false} SeenIsSame(es: seq<Event>, m: Message)
    requires !IsKeyless(m)
    ensures ExtractKey(m).Some?
    ensures ExtractKey(m).value in Seen(es) <==> exists e <- es :: !IsKeyless(e.msg) && SameMessage(e.msg, m)
  {
    KeysAreExact(m, m);
    hide SameMessage;
    hide IsKeyless;
    if es != [] {
      var front, e := Front(es), Last(es);
      assert es == front + [e] && forall x :: x in es <==> x in front || x == e;
      SeenIsSame(front, m);
      KeysAreExact(e.msg, m);
      hide ExtractKey;
    }
  }

  ghost predicate MetaSeen(seen: set<(nat, DedupKey)>, slot: nat) {
    exists hash :: (slot, BlockMeta(hash)) in seen
  }

  /** The message brings a payload key for the first time, and the BlockMeta of its slot came before. */
  ghost predicate Late(seen: set<(nat, DedupKey)>, m: Message) {
    && ExtractKey(m).Some?
    && var (slot, key) := ExtractKey(m).value;
       key.IsPayload() && MetaSeen(seen, slot) && (slot, key) !in seen
  }

  ghost predicate NoneLate(es: seq<Event>) {
    forall i | 0 <= i < |es| :: !Late(Seen(es[..i]), es[i].msg)
  }

  /** The first occurrences that are not late. */
  ghost function TimelyOccurrences(es: seq<Event>): seq<Message> {
    if es == [] then []
    else
      var key := ExtractKey(Last(es).msg);
      TimelyOccurrences(Front(es)) +
      if (key.Some? && key.value in Seen(Front(es))) || Late(Seen(Front(es)), Last(es).msg) then [] else [Last(es).msg]
  }

  /** `e` may follow a stream that brought `seen`: it is of the first connection, a CreatedBank opens
      its slot, and a BlockMeta repeats the hash of its slot. */
  ghost predicate Undisturbed(seen: set<(nat, DedupKey)>, e: Event) {
    && e.count == 0
    && (ExtractKey(e.msg).Some? ==>
          var (slot, key) := ExtractKey(e.msg).value;
          match key
          case Slot(status) => status == SLOT_CREATED_BANK ==> forall k :: (slot, k) !in seen
          case BlockMeta(hash) => forall h :: (slot, BlockMeta(h)) in seen ==> h == hash
          case _ => true)
  }

  ghost predicate Clean(es: seq<Event>) {
    forall i | 0 <= i < |es| :: Undisturbed(Seen(es[..i]), es[i])
  }

  /** The machine of a slot remembers exactly what the input has brought for the slot. */
  ghost predicate Remembers(v: SlotView, seen: set<(nat, DedupKey)>, slot: nat) {
    match v.phase
    case Absent => v.held == [] && forall k :: (slot, k) !in seen
    case Live(st) =>
      && v.held == [] && !st.replaying && !MetaSeen(seen, slot)
      && (forall k: DedupKey :: k.IsPayload() ==> (k in st.keys <==> (slot, k) in seen))
      && (forall s: int :: s in st.statuses <==> (slot, DedupKey.Slot(s)) in seen)
    case Done(sealed) =>
      && sealed.blockhash.Some? && (slot, BlockMeta(sealed.blockhash.value)) in seen
      && (forall h :: (slot, BlockMeta(h)) in seen ==> h == sealed.blockhash.value)
      && (forall s: int :: s in sealed.statuses <==> (slot, DedupKey.Slot(s)) in seen)
  }

  lemma RememberedStatus(v: SlotView, seen: set<(nat, DedupKey)>, slot: nat, e: Event, status: int)
    requires Remembers(v, seen, slot) && Undisturbed(seen, e)
    requires ExtractKey(e.msg) == Some((slot, DedupKey.Slot(status)))
    ensures var (v', out) := ViewStep(v, DedupKey.Slot(status), e.msg);
            && Remembers(v', seen + {(slot, DedupKey.Slot(status))}, slot)
            && out == if (slot, DedupKey.Slot(status)) in seen then [] else [e.msg]
  {
    var seen' := seen + {(slot, DedupKey.Slot(status))};
    assert MetaSeen(seen', slot) <==> MetaSeen(seen, slot);
  }

  lemma RememberedMeta(v: SlotView, seen: set<(nat, DedupKey)>, slot: nat, e: Event, hash: string)
    requires Remembers(v, seen, slot) && Undisturbed(seen, e) && ExtractKey(e.msg) == Some((slot, BlockMeta(hash)))
    ensures var (v', out) := ViewStep(v, BlockMeta(hash), e.msg);
            && Remembers(v', seen + {(slot, BlockMeta(hash))}, slot)
            && out == if (slot, BlockMeta(hash)) in seen then [] else [e.msg]
  {
    if !v.phase.Done? {
      assert (slot, BlockMeta(hash)) !in seen;
    }
  }

  lemma RememberedPayload(v: SlotView, seen: set<(nat, DedupKey)>, slot: nat, e: Event, key: DedupKey)
    requires Remembers(v, seen, slot) && Undisturbed(seen, e)
    requires ExtractKey(e.msg) == Some((slot, key)) && key.IsPayload()
    ensures var (v', out) := ViewStep(v, key, e.msg);
            && Remembers(v', seen + {(slot, key)}, slot)
            && out == if (slot, key) in seen || Late(seen, e.msg) then [] else [e.msg]
  {
    assert MetaSeen(seen + {(slot, key)}, slot) <==> MetaSeen(seen, slot);
  }

  lemma RememberedStep(v: SlotView, seen: set<(nat, DedupKey)>, slot: nat, e: Event)
    requires Remembers(v, seen, slot) && Undisturbed(seen, e) && OfSlot(e.msg, slot)
    ensures var key := ExtractKey(e.msg).value.1;
            var (v', out) := ViewStep(v, key, e.msg);
            && Remembers(v', seen + {(slot, key)}, slot)
            && out == if (slot, key) in seen || Late(seen, e.msg) then [] else [e.msg]
  {
    hide ViewStep;
    hide Remembers;
    var key := ExtractKey(e.msg).value.1;
    match key {
      case Slot(status) => RememberedStatus(v, seen, slot, e, status);
      case BlockMeta(hash) => RememberedMeta(v, seen, slot, e, hash);
      case _ => RememberedPayload(v, seen, slot, e, key);
    }
  }

  lemma RememberedByOthers(v: SlotView, seen: set<(nat, DedupKey)>, slot: nat, other: (nat, DedupKey))
    requires Remembers(v, seen, slot) && other.0 != slot
    ensures Remembers(v, seen + {other}, slot)
  {
    assert MetaSeen(seen + {other}, slot) <==> MetaSeen(seen, slot);
  }

  lemma NoneLateFront(es: seq<Event>)
    requires es != []
    ensures NoneLate(es) <==> NoneLate(Front(es)) && !Late(Seen(Front(es)), Last(es).msg)
  {
    hide Late;
    hide Seen;
    assert forall i | 0 <= i < |es| - 1 :: Front(es)[..i] == es[..i] && Front(es)[i] == es[i];
    assert es[..|es| - 1] == Front(es);
  }

  lemma {:induction false} TimelyIsShorter(es: seq<Event>)
    ensures NoneLate(es) ==> TimelyOccurrences(es) == FirstOccurrences(es)
    ensures !NoneLate(es) ==> |TimelyOccurrences(es)| < |FirstOccurrences(es)|
  {
    if es != [] {
      TimelyIsShorter(Front(es));
      NoneLateFront(es);
      LateIsFirst(Seen(Front(es)), Last(es).msg);
      hide Late;
      hide NoneLate;
      hide Seen;
    }
  }

  lemma LateIsFirst(seen: set<(nat, DedupKey)>, m: Message)
    ensures Late(seen, m) ==> ExtractKey(m).Some? && ExtractKey(m).value !in seen
  {
  }

  lemma CleanFront(es: seq<Event>)
    requires Clean(es) && es != []
    ensures Clean(Front(es)) && Undisturbed(Seen(Front(es)), Last(es))
  {
    assert forall i | 0 <= i < |es| - 1 :: Front(es)[..i] == es[..i] && Front(es)[i] == es[i];
  }

  lemma {:induction false} SlotRemembers(es: seq<Event>, slot: nat)
    requires Clean(es)
    ensures Remembers(SlotRun(es, slot).view, Seen(es), slot) && SlotRun(es, slot).lastCount == 0
  {
    if es != [] {
      var front, e := Front(es), Last(es);
      CleanFront(es);
      SlotRemembers(front, slot);
      hide Remembers;
      hide ViewStep;
      var v := SlotRun(front, slot).view;
      if OfSlot(e.msg, slot) {
        RememberedStep(v, Seen(front), slot, e);
      } else if ExtractKey(e.msg).Some? {
        RememberedByOthers(v, Seen(front), slot, ExtractKey(e.msg).value);
      }
    }
  }

  /** No slot leaves the window between two of its messages. */
  ghost predicate AllTrackedThroughout(retention: nat, es: seq<Event>) {
    forall slot: nat :: TrackedThroughout(retention, es, slot)
  }

  lemma AllTrackedFront(retention: nat, es: seq<Event>, e: Event)
    requires AllTrackedThroughout(retention, es + [e])
    ensures AllTrackedThroughout(retention, es)
  {
    hide TrackedThroughout;
    forall slot: nat ensures TrackedThroughout(retention, es, slot) {
      TrackedFront(retention, es, e, slot);
    }
  }

  lemma TimelyStep(retention: nat, es: seq<Event>, e: Event, slot: nat)
    requires Clean(es) && Undisturbed(Seen(es), e)
    requires TrackedThroughout(retention, es + [e], slot) && OfSlot(e.msg, slot)
    ensures Step(Run(retention, es).state, e).out ==
            if ExtractKey(e.msg).value in Seen(es) || Late(Seen(es), e.msg) then [] else [e.msg]
  {
    SlotRemembers(es, slot);
    RememberedStep(SlotRun(es, slot).view, Seen(es), slot, e);
    StepOutput(retention, es, e, slot);
    hide Step;
    hide Late;
    hide Remembers;
    hide ViewStep;
    hide TrackedThroughout;
  }

  lemma {:induction false} OutputIsTimely(retention: nat, es: seq<Event>)
    requires Clean(es) && AllTrackedThroughout(retention, es)
    ensures Run(retention, es).out == TimelyOccurrences(es)
  {
    if es != [] {
      var front, e := Front(es), Last(es);
      assert es == front + [e];
      CleanFront(es);
      AllTrackedFront(retention, front, e);
      OutputIsTimely(retention, front);
      hide TrackedThroughout;
      LateIsFirst(Seen(front), e.msg);
      if ExtractKey(e.msg).Some? {
        var slot := ExtractKey(e.msg).value.0;
        assert TrackedThroughout(retention, es, slot);
        TimelyStep(retention, front, e, slot);
        hide Step;
      }
      hide Late;
    }
  }

  /** Refinement: on a clean stream of one connection on which no slot leaves the window between two of
      its messages, the output is the input without repeated slots and keys, in order, if and only if no
      payload key first comes after the BlockMeta of its slot; otherwise such payload is what it lacks. */
  lemma OutputIsFirstOccurrences(retention: nat, es: seq<Event>)
    requires Clean(es) && AllTrackedThroughout(retention, es)
    ensures Run(retention, es).out == TimelyOccurrences(es)
    ensures Run(retention, es).out == FirstOccurrences(es) <==> NoneLate(es)
  {
    OutputIsTimely(retention, es);
    TimelyIsShorter(es);
  }
}
