/** When the collector of one slot seals, over all orders in which its parts can arrive. */
module Sealing {
  import opened Collections
  import opened Blocks

  datatype Arrival = Data(event: BlockData) | Meta(meta: BlockMeta)

  /** The collector of a slot, absent until data comes, and the summaries that sealing has reported. */
  datatype Collector = Collector(buffer: Option<SlotBuffer>, summaries: seq<BlockMeta>)

  /** Tries to seal, and reports a summary when that succeeds. */
  function Attempt(c: Collector, b: SlotBuffer): Collector {
    var (b', error) := TrySeal(b);
    Collector(Some(b'), if error.None? && b'.meta.Some? then c.summaries + [b'.meta.value] else c.summaries)
  }

  function Arrive(c: Collector, a: Arrival): Collector {
    match a
    case Data(e) => Attempt(c, AddEvent(c.buffer.GetOr(EMPTY_BUFFER), e))
    case Meta(m) => if c.buffer.None? then c else Attempt(c, c.buffer.value.(meta := Some(m)))
  }

  function Collect(arrivals: seq<Arrival>): Collector {
    if arrivals == [] then Collector(None, []) else Arrive(Collect(Front(arrivals)), Last(arrivals))
  }

  // ---------- what has arrived, without the collector ----------

  function DataOf(arrivals: seq<Arrival>): seq<BlockData> {
    if arrivals == [] then []
    else DataOf(Front(arrivals)) + if Last(arrivals).Data? then [Last(arrivals).event] else []
  }

  /** The last BlockMeta that some data preceded. */
  function MetaInForce(arrivals: seq<Arrival>): Option<BlockMeta> {
    if arrivals == [] then None
    else if Last(arrivals).Meta? && DataOf(Front(arrivals)) != [] then Some(Last(arrivals).meta)
    else MetaInForce(Front(arrivals))
  }

  /** The BlockMeta in force counts no more transactions and entries than have arrived. */
  predicate Complete(arrivals: seq<Arrival>) {
    && MetaInForce(arrivals).Some?
    && |Transactions(DataOf(arrivals))| >= MetaInForce(arrivals).value.executedTransactionCount
    && |Entries(DataOf(arrivals))| >= MetaInForce(arrivals).value.entriesCount
  }

  ghost predicate OnceComplete(arrivals: seq<Arrival>) {
    exists k | 0 <= k <= |arrivals| :: Complete(arrivals[..k])
  }

  /** The summary is of the BlockMeta that was in force when the slot was first complete. */
  ghost predicate FirstCompletedBy(arrivals: seq<Arrival>, summary: BlockMeta) {
    exists k | 0 <= k <= |arrivals| ::
      Complete(arrivals[..k]) && MetaInForce(arrivals[..k]) == Some(summary)
      && forall j | 0 <= j < k :: !Complete(arrivals[..j])
  }

  /** The collector holds what has arrived. */
  ghost predicate Holds(c: Collector, arrivals: seq<Arrival>) {
    && (c.buffer.Some? <==> DataOf(arrivals) != [])
    && (c.buffer.Some? ==>
          && c.buffer.value.messages == DataOf(arrivals)
          && c.buffer.value.meta == MetaInForce(arrivals)
          && Consistent(c.buffer.value))
  }

  ghost predicate SealedRight(c: Collector, arrivals: seq<Arrival>) {
    && (c.buffer.Some? && c.buffer.value.isSealed <==> OnceComplete(arrivals))
    && (OnceComplete(arrivals) ==> |c.summaries| == 1 && FirstCompletedBy(arrivals, c.summaries[0]))
    && (!OnceComplete(arrivals) ==> c.summaries == [])
  }

  lemma MetaNeedsData(arrivals: seq<Arrival>)
    ensures DataOf(arrivals) == [] ==> MetaInForce(arrivals) == None
  {
  }

  lemma AttemptIs(c: Collector, b: SlotBuffer)
    ensures var now := !b.isSealed && CountsAreIn(b);
            Attempt(c, b) == Collector(Some(b.(isSealed := b.isSealed || now)),
                                       c.summaries + if now then [b.meta.value] else [])
  {
  }

  lemma BufferBefore(c: Collector, front: seq<Arrival>)
    requires Holds(c, front)
    ensures var b := c.buffer.GetOr(EMPTY_BUFFER);
            b.messages == DataOf(front) && b.meta == MetaInForce(front) && Consistent(b)
    ensures DataOf(front) == [] <==> c.buffer.None?
  {
    MetaNeedsData(front);
    assert Consistent(EMPTY_BUFFER);
  }

  /** The buffer that the arrival leaves to be sealed, if there is one. */
  function Offered(c: Collector, a: Arrival): Option<SlotBuffer> {
    match a
    case Data(e) => Some(AddEvent(c.buffer.GetOr(EMPTY_BUFFER), e))
    case Meta(m) => if c.buffer.None? then None else Some(c.buffer.value.(meta := Some(m)))
  }

  lemma ArriveIs(c: Collector, a: Arrival)
    ensures Arrive(c, a) == if Offered(c, a).Some? then Attempt(c, Offered(c, a).value) else c
  {
    hide Attempt;
    hide AddEvent;
  }

  lemma DataOfSnoc(front: seq<Arrival>, a: Arrival)
    ensures DataOf(front + [a]) == DataOf(front) + if a.Data? then [a.event] else []
    ensures MetaInForce(front + [a]) == if a.Meta? && DataOf(front) != [] then Some(a.meta) else MetaInForce(front)
  {
    assert Front(front + [a]) == front && Last(front + [a]) == a;
  }

  ghost predicate OfferHolds(o: Option<SlotBuffer>, c: Collector, all: seq<Arrival>) {
    && (o.Some? <==> DataOf(all) != [])
    && (o.None? ==> c.buffer.None?)
    && (o.Some? ==>
          && o.value.messages == DataOf(all) && o.value.meta == MetaInForce(all)
          && Consistent(o.value) && o.value.isSealed == c.buffer.GetOr(EMPTY_BUFFER).isSealed)
  }

  lemma OfferedHolds(c: Collector, front: seq<Arrival>, a: Arrival)
    requires Holds(c, front)
    ensures OfferHolds(Offered(c, a), c, front + [a])
  {
    BufferBefore(c, front);
    DataOfSnoc(front, a);
    hide Consistent;
    hide Holds;
    hide DataOf;
    hide MetaInForce;
    var b := c.buffer.GetOr(EMPTY_BUFFER);
    if a.Data? {
      AddEventConsistent(b, a.event);
      AddEventFields(b, a.event);
      hide AddEvent;
    } else if c.buffer.Some? {
      MetaKeepsConsistent(c.buffer.value, a.meta);
      assert DataOf(front) + [] == DataOf(front);
    }
  }

  lemma AddEventFields(b: SlotBuffer, e: BlockData)
    ensures var c := AddEvent(b, e);
            c.messages == b.messages + [e] && c.meta == b.meta && c.isSealed == b.isSealed
  {
  }

  lemma MetaKeepsConsistent(b: SlotBuffer, m: BlockMeta)
    requires Consistent(b)
    ensures Consistent(b.(meta := Some(m)))
  {
  }

  lemma SealKeepsConsistent(b: SlotBuffer, isSealed: bool)
    requires Consistent(b)
    ensures Consistent(b.(isSealed := isSealed))
  {
  }

  lemma OfferedIsComplete(b: SlotBuffer, arrivals: seq<Arrival>)
    requires b.messages == DataOf(arrivals) && b.meta == MetaInForce(arrivals) && Consistent(b)
    ensures CountsAreIn(b) <==> Complete(arrivals)
  {
  }

  lemma OnceCompleteSnoc(front: seq<Arrival>, a: Arrival)
    ensures OnceComplete(front + [a]) <==> OnceComplete(front) || Complete(front + [a])
    ensures forall m :: FirstCompletedBy(front, m) ==> FirstCompletedBy(front + [a], m)
    ensures !OnceComplete(front) && Complete(front + [a]) ==>
            FirstCompletedBy(front + [a], MetaInForce(front + [a]).value)
  {
    hide Complete;
    var all := front + [a];
    assert forall k | 0 <= k <= |front| :: all[..k] == front[..k];
    assert all[..|all|] == all;
    if Complete(all) {
      assert MetaInForce(all).Some? by {
        CompleteHasMeta(all);
      }
    }
  }

  lemma CompleteHasMeta(arrivals: seq<Arrival>)
    requires Complete(arrivals)
    ensures MetaInForce(arrivals).Some?
  {
  }

  lemma ArriveHolds(c: Collector, front: seq<Arrival>, a: Arrival)
    requires Holds(c, front)
    ensures Holds(Arrive(c, a), front + [a])
  {
    ArriveIs(c, a);
    OfferedHolds(c, front, a);
    var o := Offered(c, a);
    hide Consistent;
    hide DataOf;
    hide MetaInForce;
    hide Offered;
    hide Arrive;
    if o.Some? {
      AttemptIs(c, o.value);
      hide Attempt;
      SealKeepsConsistent(o.value, Attempt(c, o.value).buffer.value.isSealed);
    } else {
      NoOffer(c, a);
      DataOfSnoc(front, a);
    }
  }

  lemma NoOffer(c: Collector, a: Arrival)
    requires Offered(c, a).None?
    ensures a.Meta? && c.buffer.None?
  {
  }

  lemma SealsRight(c: Collector, o: SlotBuffer, front: seq<Arrival>, a: Arrival)
    requires SealedRight(c, front) && OfferHolds(Some(o), c, front + [a])
    ensures SealedRight(Attempt(c, o), front + [a])
  {
    OnceCompleteSnoc(front, a);
    AttemptIs(c, o);
    OfferedIsComplete(o, front + [a]);
    hide Attempt;
    hide Complete;
    hide OnceComplete;
    hide FirstCompletedBy;
    hide Consistent;
    hide CountsAreIn;
  }

  lemma SealedRightStep(c: Collector, front: seq<Arrival>, a: Arrival)
    requires Holds(c, front) && SealedRight(c, front)
    ensures SealedRight(Arrive(c, a), front + [a])
  {
    ArriveIs(c, a);
    OfferedHolds(c, front, a);
    var o := Offered(c, a);
    if o.Some? {
      hide *;
      SealsRight(c, o.value, front, a);
    } else {
      NothingYet(c, front, a);
    }
  }

  lemma NothingYet(c: Collector, front: seq<Arrival>, a: Arrival)
    requires Holds(c, front) && SealedRight(c, front) && Offered(c, a).None?
    ensures SealedRight(c, front + [a])
  {
    NoOffer(c, a);
    DataOfSnoc(front, a);
    MetaNeedsData(front);
    OnceCompleteSnoc(front, a);
    hide DataOf;
    hide FirstCompletedBy;
    hide OnceComplete;
    hide Offered;
    hide MetaInForce;
  }

  /** A slot seals exactly when, at some moment, the BlockMeta in force and the parts it counts were
      all in; it then reports exactly one summary, of that BlockMeta, and never another. What it
      holds is the data in order and the BlockMeta in force; a BlockMeta that no data preceded is lost. */
  lemma {:induction false} SealsWhenComplete(arrivals: seq<Arrival>)
    ensures Holds(Collect(arrivals), arrivals)
    ensures SealedRight(Collect(arrivals), arrivals)
  {
    if arrivals == [] {
      assert arrivals[..0] == [];
    } else {
      var front, a := Front(arrivals), Last(arrivals);
      assert arrivals == front + [a];
      SealsWhenComplete(front);
      hide *;
      CollectSnoc(front, a);
      ArriveHolds(Collect(front), front, a);
      SealedRightStep(Collect(front), front, a);
    }
  }

  lemma CollectSnoc(front: seq<Arrival>, a: Arrival)
    ensures Collect(front + [a]) == Arrive(Collect(front), a)
  {
    assert Front(front + [a]) == front;
  }

  /** The usual order: one BlockMeta, as the `m`-th arrival. */
  ghost predicate OneMeta(arrivals: seq<Arrival>, m: nat) {
    m < |arrivals| && arrivals[m].Meta? && forall i | 0 <= i < |arrivals| && i != m :: arrivals[i].Data?
  }

  lemma {:induction false} OneMetaInForce(arrivals: seq<Arrival>, m: nat)
    requires OneMeta(arrivals, m)
    ensures MetaInForce(arrivals) == if m > 0 then Some(arrivals[m].meta) else None
  {
    if m == |arrivals| - 1 {
      OnlyData(Front(arrivals));
      NoMetaYet(Front(arrivals));
    } else {
      OneMetaInForce(Front(arrivals), m);
    }
  }

  lemma {:induction false} NoMetaYet(arrivals: seq<Arrival>)
    requires forall a <- arrivals :: a.Data?
    ensures MetaInForce(arrivals) == None
  {
    if arrivals != [] {
      NoMetaYet(Front(arrivals));
      assert Last(arrivals) in arrivals;
    }
  }

  lemma {:induction false} OnlyData(arrivals: seq<Arrival>)
    requires forall a <- arrivals :: a.Data?
    ensures |DataOf(arrivals)| == |arrivals|
  {
    if arrivals != [] {
      OnlyData(Front(arrivals));
    }
  }

  lemma {:induction false} DataGrows(arrivals: seq<Arrival>, k: nat)
    requires k <= |arrivals|
    ensures |Transactions(DataOf(arrivals[..k]))| <= |Transactions(DataOf(arrivals))|
    ensures |Entries(DataOf(arrivals[..k]))| <= |Entries(DataOf(arrivals))|
  {
    if k < |arrivals| {
      var front := Front(arrivals);
      assert front[..k] == arrivals[..k];
      DataGrows(front, k);
      if Last(arrivals).Data? {
        FilterSnoc(DataOf(front), Last(arrivals).event, (m: BlockData) => m.Transaction?);
        FilterSnoc(DataOf(front), Last(arrivals).event, (m: BlockData) => m.Entry?);
      } else {
        assert DataOf(front) + [] == DataOf(front);
      }
    } else {
      assert arrivals[..k] == arrivals;
    }
  }

  /** With one BlockMeta in the slot, in any place: the slot is sealed if and only if some data came
      first and as many transactions and entries as it counts are in. */
  lemma SealsInAnyOrder(arrivals: seq<Arrival>, m: nat)
    requires OneMeta(arrivals, m)
    ensures var c := Collect(arrivals);
            (c.buffer.Some? && c.buffer.value.isSealed) <==>
            && m > 0
            && |Transactions(DataOf(arrivals))| >= arrivals[m].meta.executedTransactionCount
            && |Entries(DataOf(arrivals))| >= arrivals[m].meta.entriesCount
    ensures m > 0 ==> Collect(arrivals).summaries == [] || Collect(arrivals).summaries == [arrivals[m].meta]
    ensures m == 0 ==> Collect(arrivals).summaries == []
  {
    SealsWhenComplete(arrivals);
    OneMetaInForce(arrivals, m);
    assert arrivals[..|arrivals|] == arrivals;
    forall k | 0 <= k <= |arrivals|
      ensures MetaInForce(arrivals[..k]) == if 0 < m < k then Some(arrivals[m].meta) else None
      ensures Complete(arrivals[..k]) ==> Complete(arrivals)
    {
      hide SealedRight;
      hide Holds;
      DataGrows(arrivals, k);
      if k <= m {
        NoMetaYet(arrivals[..k]);
      } else {
        OneMetaInForce(arrivals[..k], m);
      }
    }
  }
}
