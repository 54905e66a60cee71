/** What the history of pulled messages says about one slot, and the algebra of keys on the output. */
module DedupHistory {
  import opened Collections
  import opened Protocol
  import opened DedupModel
  import opened DedupWindow
  import opened DedupSlots

  /** Reconnect counts never go back. */
  ghost predicate Monotone(es: seq<Event>) {
    forall i, j :: 0 <= i <= j < |es| ==> es[i].count <= es[j].count
  }

  ghost predicate Carried(es: seq<Event>, slot: nat) {
    exists e <- es :: IsPayloadOf(e.msg, slot)
  }

  ghost predicate Completed(es: seq<Event>, slot: nat) {
    exists e <- es :: IsMetaOf(e.msg, slot)
  }

  /** The connection on which the slot was first named. */
  function FirstCount(es: seq<Event>, slot: nat): nat {
    if es == [] then 0
    else if OfSlot(es[0].msg, slot) then es[0].count
    else FirstCount(es[1..], slot)
  }

  /** The payload of the slot that one connection carried, in order. */
  function PayloadOn(es: seq<Event>, slot: nat, count: nat): seq<Message> {
    if es == [] then []
    else
      PayloadOn(Front(es), slot, count) +
      if Last(es).count == count && IsPayloadOf(Last(es).msg, slot) then [Last(es).msg] else []
  }

  /** The keys that messages carry. */
  function KeysOf(ms: seq<Message>): set<DedupKey> {
    if ms == [] then {}
    else
      var key := ExtractKey(Last(ms));
      KeysOf(Front(ms)) + if key.Some? then {key.value.1} else {}
  }

  ghost predicate DistinctKeys(ms: seq<Message>) {
    forall i, j :: 0 <= i < j < |ms| ==> ExtractKey(ms[i]) != ExtractKey(ms[j])
  }

  /** Payload and BlockMeta of the slot, without its statuses. */
  predicate InBlock(m: Message, slot: nat) {
    IsPayloadOf(m, slot) || IsMetaOf(m, slot)
  }

  function BlockPart(out: seq<Message>, slot: nat): seq<Message> {
    Filter(out, m => InBlock(m, slot))
  }

  /** Connection `count` has brought the key. */
  ghost predicate BroughtOn(es: seq<Event>, slot: nat, count: nat, key: DedupKey) {
    exists e <- es :: e.count == count && ExtractKey(e.msg) == Some((slot, key))
  }

  /** The first connection brought the key, and then a CreatedBank of the slot. */
  ghost predicate Behind(es: seq<Event>, slot: nat, key: DedupKey) {
    exists b | 0 <= b < |es| ::
      && IsCreatedBankOf(es[b].msg, slot) && es[b].count == FirstCount(es, slot)
      && BroughtOn(es[..b], slot, es[b].count, key)
  }

  /** A payload key came on the first connection, then a CreatedBank there, and then, still there or on
      connection `count`, the key again. */
  ghost predicate BringsAgain(es: seq<Event>, slot: nat, count: nat) {
    exists j | 0 <= j < |es| ::
      && IsPayloadOf(es[j].msg, slot) && es[j].count in {FirstCount(es, slot), count}
      && Behind(es[..j], slot, ExtractKey(es[j].msg).value.1)
  }

  /** `b` is the first CreatedBank of the slot after event `m`. */
  ghost predicate FirstBankAfter(es: seq<Event>, slot: nat, m: nat, b: nat) {
    m < b < |es| && IsCreatedBankOf(es[b].msg, slot) && forall x | m < x < b :: !IsCreatedBankOf(es[x].msg, slot)
  }

  /** After event `b` there is no BlockMeta of the slot, and on its connection no payload of the slot. */
  ghost predicate NothingFollows(es: seq<Event>, slot: nat, b: nat)
    requires b < |es|
  {
    forall x | b < x < |es| ::
      !IsMetaOf(es[x].msg, slot) && !(IsPayloadOf(es[x].msg, slot) && es[x].count == es[b].count)
  }

  ghost predicate LateBanksAreHarmless(es: seq<Event>, slot: nat, m: nat) {
    forall b | FirstBankAfter(es, slot, m, b) :: NothingFollows(es, slot, b)
  }

  /** No CreatedBank makes the block of a slot come twice, in part or whole: the slot's first BlockMeta
      is event `m`. */
  ghost predicate BanksAreHarmless(es: seq<Event>, slot: nat, m: nat)
    requires m < |es|
  {
    !BringsAgain(es[..m], slot, es[m].count) && LateBanksAreHarmless(es, slot, m)
  }

  /** A CreatedBank of the slot comes before its block, or while the slot, begun on an earlier
      connection, still lacks its BlockMeta. */
  ghost predicate BanksInOrder(es: seq<Event>, slot: nat) {
    forall i | 0 <= i < |es| && IsCreatedBankOf(es[i].msg, slot) ::
      !Completed(es[..i], slot) && (Carried(es[..i], slot) ==> FirstCount(es[..i], slot) != es[i].count)
  }

  /** All BlockMeta of the slot agree. */
  ghost predicate OneHash(es: seq<Event>, slot: nat, hash: string) {
    forall e <- es | IsMetaOf(e.msg, slot) :: ExtractKey(e.msg).value.1 == BlockMeta(hash)
  }

  lemma {:induction false} FirstCountAppend(es: seq<Event>, e: Event, slot: nat)
    ensures FirstCount(es + [e], slot) ==
            if Named(es, slot) then FirstCount(es, slot) else if OfSlot(e.msg, slot) then e.count else 0
  {
    if es != [] {
      assert (es + [e])[1..] == es[1..] + [e];
      FirstCountAppend(es[1..], e, slot);
      assert es == [es[0]] + es[1..];
      if Named(es[1..], slot) {
        assert Named(es, slot);
      }
    } else {
      assert ([e])[1..] == [];
    }
  }

  lemma {:induction false} FirstCountBound(es: seq<Event>, slot: nat)
    requires Monotone(es) && Named(es, slot)
    ensures FirstCount(es, slot) <= Last(es).count
  {
    if !OfSlot(es[0].msg, slot) {
      assert es == [es[0]] + es[1..];
      assert Monotone(es[1..]);
      FirstCountBound(es[1..], slot);
    }
  }

  lemma {:induction false} PayloadOnFuture(es: seq<Event>, slot: nat, count: nat)
    requires forall e <- es :: e.count != count
    ensures PayloadOn(es, slot, count) == []
  {
    if es != [] {
      PayloadOnFuture(Front(es), slot, count);
    }
  }

  lemma {:induction false} PayloadOnIsPayload(es: seq<Event>, slot: nat, count: nat)
    ensures forall m <- PayloadOn(es, slot, count) :: IsPayloadOf(m, slot)
  {
    if es != [] {
      PayloadOnIsPayload(Front(es), slot, count);
    }
  }

  lemma NoKeys()
    ensures KeysOf([]) == {}
  {
  }

  lemma KeysOfSnoc(ms: seq<Message>, m: Message)
    ensures KeysOf(ms + [m]) == KeysOf(ms) + if ExtractKey(m).Some? then {ExtractKey(m).value.1} else {}
  {
    assert Front(ms + [m]) == ms;
  }

  lemma {:induction false} KeysOfMember(ms: seq<Message>, key: DedupKey)
    ensures key in KeysOf(ms) <==> exists m <- ms :: ExtractKey(m).Some? && ExtractKey(m).value.1 == key
  {
    if ms != [] {
      KeysOfMember(Front(ms), key);
      assert ms == Front(ms) + [Last(ms)];
    }
  }

  lemma DistinctSnoc(ms: seq<Message>, m: Message, slot: nat)
    requires OfSlot(m, slot) && forall x <- ms :: OfSlot(x, slot)
    ensures DistinctKeys(ms + [m]) <==> DistinctKeys(ms) && ExtractKey(m).value.1 !in KeysOf(ms)
  {
    KeysOfMember(ms, ExtractKey(m).value.1);
    hide KeysOf;
    var all := ms + [m];
    assert forall i | 0 <= i < |ms| :: all[i] == ms[i] && ms[i] in ms;
    if DistinctKeys(all) {
      assert forall i | 0 <= i < |ms| :: ExtractKey(all[i]) != ExtractKey(all[|ms|]);
    }
  }

  lemma {:induction false} KeysOfAppend(a: seq<Message>, b: seq<Message>)
    ensures KeysOf(a + b) == KeysOf(a) + KeysOf(b)
  {
    if b == [] {
      assert a + b == a;
    } else {
      assert a + b == (a + Front(b)) + [Last(b)] && b == Front(b) + [Last(b)];
      KeysOfAppend(a, Front(b));
      KeysOfSnoc(a + Front(b), Last(b));
      KeysOfSnoc(Front(b), Last(b));
      hide KeysOf;
    }
  }

  /** Two parts of a block have distinct keys together if each has and they share none. */
  lemma {:induction false} DistinctAppend(a: seq<Message>, b: seq<Message>, slot: nat)
    requires (forall m <- a :: OfSlot(m, slot)) && forall m <- b :: OfSlot(m, slot)
    ensures DistinctKeys(a + b) <==> DistinctKeys(a) && DistinctKeys(b) && KeysOf(a) !! KeysOf(b)
  {
    if b == [] {
      assert a + b == a;
    } else {
      var front, m := Front(b), Last(b);
      assert b == front + [m] && a + b == (a + front) + [m];
      DistinctAppend(a, front, slot);
      DistinctSnoc(a + front, m, slot);
      DistinctSnoc(front, m, slot);
      KeysOfAppend(a, front);
      KeysOfSnoc(front, m);
      hide DistinctKeys;
      hide KeysOf;
    }
  }

  lemma {:induction false} ReconciledKeysAre(held: seq<Message>, keys: set<DedupKey>)
    ensures ReconciledKeys(held, keys) == keys + KeysOf(held)
  {
    if held != [] {
      ReconciledKeysAre(Front(held), keys);
    }
  }

  lemma ReconciledSnoc(held: seq<Message>, m: Message, keys: set<DedupKey>)
    requires ExtractKey(m).Some?
    ensures Reconciled(held + [m], keys) ==
            Reconciled(held, keys) + if ExtractKey(m).value.1 in keys + KeysOf(held) then [] else [m]
  {
    assert Front(held + [m]) == held && Last(held + [m]) == m;
    ReconciledKeysAre(held, keys);
    hide ReconciledKeys;
    hide KeysOf;
    assert Reconciled(held, keys) + [] == Reconciled(held, keys);
  }

  lemma OneMoreReconciled(held: seq<Message>, m: Message, keys: set<DedupKey>, slot: nat)
    requires OfSlot(m, slot) && forall x <- Reconciled(held, keys) :: OfSlot(x, slot)
    requires DistinctKeys(Reconciled(held, keys)) && KeysOf(Reconciled(held, keys)) == KeysOf(held) - keys
    ensures var after := Reconciled(held + [m], keys);
            DistinctKeys(after) && KeysOf(after) == KeysOf(held + [m]) - keys
  {
    KindOf(m, slot);
    hide *;
    var before, key := Reconciled(held, keys), ExtractKey(m).value.1;
    ReconciledSnoc(held, m, keys);
    KeysOfSnoc(held, m);
    if key in keys + KeysOf(held) {
      assert before + [] == before;
    } else {
      DistinctSnoc(before, m, slot);
      KeysOfSnoc(before, m);
    }
  }

  /** Reconciliation adds each held key that was not delivered, once. */
  lemma {:induction false} ReconciledCompletes(held: seq<Message>, keys: set<DedupKey>, slot: nat)
    requires forall m <- held :: IsPayloadOf(m, slot)
    ensures DistinctKeys(Reconciled(held, keys)) && KeysOf(Reconciled(held, keys)) == KeysOf(held) - keys
    ensures forall m <- Reconciled(held, keys) :: IsPayloadOf(m, slot)
  {
    ReconciledSubset(held, keys);
    NoKeys();
    if held != [] {
      var front, m := Front(held), Last(held);
      assert held == front + [m] && IsPayloadOf(m, slot);
      ReconciledCompletes(front, keys, slot);
      hide *;
      KindOf(m, slot);
      forall x <- Reconciled(front, keys) ensures OfSlot(x, slot) {
        KindOf(x, slot);
      }
      OneMoreReconciled(front, m, keys, slot);
    }
  }

  lemma BlockPartAppend(a: seq<Message>, b: seq<Message>, slot: nat)
    ensures BlockPart(a + b, slot) == BlockPart(a, slot) + BlockPart(b, slot)
  {
    FilterAppend(a, b, m => InBlock(m, slot));
  }

  lemma {:induction false} BlockPartOfSlotPart(out: seq<Message>, slot: nat)
    ensures BlockPart(SlotPart(out, slot), slot) == BlockPart(out, slot)
  {
    if out != [] {
      BlockPartOfSlotPart(Front(out), slot);
      var l := if OfSlot(Last(out), slot) then [Last(out)] else [];
      BlockPartAppend(SlotPart(Front(out), slot), l, slot);
      BlockPartSingle(Last(out), slot);
    }
  }

  lemma BlockPartSingle(m: Message, slot: nat)
    ensures BlockPart([m], slot) == if InBlock(m, slot) then [m] else []
  {
    assert Front([m]) == [];
  }

  lemma InFront<T>(s: seq<T>)
    requires s != []
    ensures forall x :: x in s <==> x in Front(s) || x == Last(s)
  {
    assert s == Front(s) + [Last(s)];
  }

  ghost function LastCount(es: seq<Event>): nat {
    if es == [] then 0 else Last(es).count
  }

  /** Appending one event to the history changes what the history says about the slot only if the
      event is of the slot. */
  lemma HistoryAppend(es: seq<Event>, e: Event, slot: nat)
    ensures Named(es + [e], slot) <==> Named(es, slot) || OfSlot(e.msg, slot)
    ensures Carried(es + [e], slot) <==> Carried(es, slot) || IsPayloadOf(e.msg, slot)
    ensures Completed(es + [e], slot) <==> Completed(es, slot) || IsMetaOf(e.msg, slot)
    ensures forall c :: PayloadOn(es + [e], slot, c) ==
                        if c == e.count && IsPayloadOf(e.msg, slot) then PayloadOn(es, slot, c) + [e.msg]
                        else PayloadOn(es, slot, c)
  {
    var all := es + [e];
    assert Front(all) == es && Last(all) == e;
    assert forall x :: x in all <==> x in es || x == e;
    assert e in all;
  }

  lemma {:induction false} NoPayloadOn(es: seq<Event>, slot: nat, count: nat)
    requires !Carried(es, slot)
    ensures PayloadOn(es, slot, count) == [] && KeysOf(PayloadOn(es, slot, count)) == {}
  {
    if es != [] {
      InFront(es);
      NoPayloadOn(Front(es), slot, count);
    }
  }

  lemma BlockPartStep(out: seq<Message>, o: seq<Message>, msg: Message, slot: nat)
    requires o == [] || o == [msg]
    ensures BlockPart(out + o, slot) == if o != [] && InBlock(msg, slot) then BlockPart(out, slot) + [msg]
                                        else BlockPart(out, slot)
  {
    BlockPartAppend(out, o, slot);
    BlockPartSingle(msg, slot);
    assert BlockPart(out, slot) + [] == BlockPart(out, slot);
  }

  lemma FrontOrdered(es: seq<Event>, e: Event)
    requires Monotone(es + [e])
    ensures Monotone(es) && LastCount(es) <= e.count
  {
    var all := es + [e];
    assert all[|es|] == e;
    assert forall i | 0 <= i < |es| :: all[i] == es[i];
  }

  lemma KindOf(m: Message, slot: nat)
    ensures IsPayloadOf(m, slot) ==> OfSlot(m, slot)
    ensures OfSlot(m, slot) ==> ExtractKey(m).Some?
    ensures OfSlot(m, slot) ==> IsPayloadOf(m, slot) || IsMetaOf(m, slot) || ExtractKey(m).value.1.Slot?
  {
  }

  lemma KindOfMeta(m: Message, slot: nat)
    requires IsMetaOf(m, slot)
    ensures OfSlot(m, slot) && ExtractKey(m).Some? && ExtractKey(m).value.1.BlockMeta?
  {
  }

  lemma HashOf(es: seq<Event>, slot: nat, m: nat, hash: string)
    requires OneHash(es, slot, hash) && m < |es| && IsMetaOf(es[m].msg, slot)
    ensures ExtractKey(es[m].msg).value.1 == BlockMeta(hash)
  {
    assert es[m] in es;
  }

  /** Every payload key of the slot that any connection carried was carried by the first one that
      named the slot or by connection `count`. */
  ghost predicate ReplayedInFull(es: seq<Event>, slot: nat, count: nat) {
    forall e <- es | IsPayloadOf(e.msg, slot) ::
      exists e' <- es :: e'.count in {FirstCount(es, slot), count} && ExtractKey(e'.msg) == ExtractKey(e.msg)
  }

  /** The keys of the slot that reach the user: those of the first connection that named the slot
      and those of the connection that brings its BlockMeta. */
  function DeliverableKeys(es: seq<Event>, slot: nat, count: nat): set<DedupKey> {
    KeysOf(PayloadOn(es, slot, FirstCount(es, slot))) + KeysOf(PayloadOn(es, slot, count))
  }

  ghost predicate CarriedKey(es: seq<Event>, slot: nat, key: DedupKey) {
    key.IsPayload() && exists e <- es :: ExtractKey(e.msg) == Some((slot, key))
  }

  lemma PayloadOnSnoc(es: seq<Event>, e: Event, slot: nat, count: nat)
    ensures KeysOf(PayloadOn(es + [e], slot, count)) ==
            KeysOf(PayloadOn(es, slot, count)) +
            if e.count == count && IsPayloadOf(e.msg, slot) then {ExtractKey(e.msg).value.1} else {}
  {
    assert Front(es + [e]) == es && Last(es + [e]) == e;
    var before := PayloadOn(es, slot, count);
    KeysOfSnoc(before, e.msg);
    assert before + [] == before;
    hide KeysOf;
  }

  lemma BroughtOnSnoc(es: seq<Event>, e: Event, slot: nat, count: nat, key: DedupKey)
    ensures BroughtOn(es + [e], slot, count, key) <==>
            BroughtOn(es, slot, count, key) || (e.count == count && ExtractKey(e.msg) == Some((slot, key)))
  {
    assert forall x :: x in es + [e] <==> x in es || x == e;
    hide ExtractKey;
  }

  lemma {:induction false} PayloadOnMember(es: seq<Event>, slot: nat, count: nat, key: DedupKey)
    ensures key in KeysOf(PayloadOn(es, slot, count)) <==> key.IsPayload() && BroughtOn(es, slot, count, key)
  {
    if es != [] {
      var front, e := Front(es), Last(es);
      assert es == front + [e];
      PayloadOnMember(front, slot, count, key);
      BroughtOnSnoc(front, e, slot, count, key);
      PayloadOnSnoc(front, e, slot, count);
      hide PayloadOn;
      hide KeysOf;
      hide BroughtOn;
    }
  }

  lemma DeliverableIsCarried(es: seq<Event>, slot: nat, count: nat)
    ensures forall key <- DeliverableKeys(es, slot, count) :: CarriedKey(es, slot, key)
    ensures (forall key :: CarriedKey(es, slot, key) ==> key in DeliverableKeys(es, slot, count)) <==>
            ReplayedInFull(es, slot, count)
  {
    var first := FirstCount(es, slot);
    var keys := DeliverableKeys(es, slot, count);
    forall key
      ensures key in keys <==>
              key.IsPayload() && exists e <- es :: e.count in {first, count} && ExtractKey(e.msg) == Some((slot, key))
    {
      PayloadOnMember(es, slot, first, key);
      PayloadOnMember(es, slot, count, key);
    }
    if ReplayedInFull(es, slot, count) {
      forall key | CarriedKey(es, slot, key) ensures key in keys {
        var e :| e in es && ExtractKey(e.msg) == Some((slot, key));
        assert IsPayloadOf(e.msg, slot);
      }
    }
    if forall key :: CarriedKey(es, slot, key) ==> key in keys {
      forall e <- es | IsPayloadOf(e.msg, slot)
        ensures exists e' <- es :: e'.count in {first, count} && ExtractKey(e'.msg) == ExtractKey(e.msg)
      {
        assert CarriedKey(es, slot, ExtractKey(e.msg).value.1);
      }
    }
  }

  lemma NamedIfCarried(es: seq<Event>, slot: nat)
    ensures Carried(es, slot) ==> Named(es, slot)
  {
  }

  lemma UnnamedDelivers(es: seq<Event>, count: nat, slot: nat)
    requires !Named(es, slot)
    ensures DeliverableKeys(es, slot, count) == {}
  {
    NamedIfCarried(es, slot);
    NoPayloadOn(es, slot, count);
    NoPayloadOn(es, slot, FirstCount(es, slot));
    hide PayloadOn;
    hide KeysOf;
  }

  lemma {:induction false} BlockPartAll(ms: seq<Message>, slot: nat)
    requires forall m <- ms :: InBlock(m, slot)
    ensures BlockPart(ms, slot) == ms
  {
    FilterAll(ms, m => InBlock(m, slot));
  }

  // ---------- what one more event changes ----------

  lemma BehindSnoc(es: seq<Event>, e: Event, slot: nat, key: DedupKey)
    requires Named(es, slot)
    ensures Behind(es + [e], slot, key) <==>
            || Behind(es, slot, key)
            || (IsCreatedBankOf(e.msg, slot) && e.count == FirstCount(es, slot) && BroughtOn(es, slot, e.count, key))
  {
    var all := es + [e];
    FirstCountAppend(es, e, slot);
    hide FirstCount;
    hide ExtractKey;
    hide Named;
    hide BroughtOn;
    hide IsCreatedBankOf;
    assert all[|es|] == e && all[..|es|] == es;
    assert forall b | 0 <= b < |es| :: all[b] == es[b] && all[..b] == es[..b];
  }

  lemma BroughtIsNamed(es: seq<Event>, slot: nat, count: nat, key: DedupKey)
    requires BroughtOn(es, slot, count, key)
    ensures Named(es, slot)
  {
  }

  lemma NamedPrefix(es: seq<Event>, j: nat, slot: nat)
    requires j <= |es| && Named(es[..j], slot)
    ensures Named(es, slot)
  {
  }

  lemma BehindIsNamed(es: seq<Event>, slot: nat, key: DedupKey)
    requires Behind(es, slot, key)
    ensures Named(es, slot)
  {
    var b :| 0 <= b < |es| && IsCreatedBankOf(es[b].msg, slot) && es[b].count == FirstCount(es, slot)
             && BroughtOn(es[..b], slot, es[b].count, key);
    BroughtIsNamed(es[..b], slot, es[b].count, key);
    NamedPrefix(es, b, slot);
  }

  lemma UnnamedNotBehind(es: seq<Event>, j: nat, slot: nat, key: DedupKey)
    requires j <= |es| && !Named(es, slot)
    ensures !Behind(es[..j], slot, key)
  {
    if Behind(es[..j], slot, key) {
      BehindIsNamed(es[..j], slot, key);
      NamedPrefix(es, j, slot);
    }
  }

  lemma FirstCountStays(es: seq<Event>, j: nat, slot: nat)
    requires j <= |es| && Named(es[..j], slot)
    ensures Named(es, slot) && FirstCount(es, slot) == FirstCount(es[..j], slot)
    decreases |es|
  {
    if j == |es| {
      assert es[..j] == es;
    } else {
      var front, e := Front(es), Last(es);
      assert es == front + [e] && front[..j] == es[..j];
      FirstCountStays(front, j, slot);
      FirstCountAppend(front, e, slot);
      HistoryAppend(front, e, slot);
    }
  }

  lemma BringsAgainSnoc(es: seq<Event>, e: Event, slot: nat, count: nat)
    ensures BringsAgain(es + [e], slot, count) <==>
            || BringsAgain(es, slot, count)
            || (IsPayloadOf(e.msg, slot) && e.count in {FirstCount(es, slot), count}
                && Behind(es, slot, ExtractKey(e.msg).value.1))
  {
    var all := es + [e];
    assert all[|es|] == e && all[..|es|] == es;
    assert forall j | 0 <= j < |es| :: all[j] == es[j] && all[..j] == es[..j];
    if Named(es, slot) {
      FirstCountAppend(es, e, slot);
    } else {
      forall j: nat, key | j <= |es| ensures !Behind(es[..j], slot, key) {
        UnnamedNotBehind(es, j, slot, key);
      }
      assert es[..|es|] == es;
    }
    hide Behind;
    hide FirstCount;
    hide IsPayloadOf;
    hide Named;
  }

  lemma BehindPrefix(es: seq<Event>, j: nat, slot: nat, key: DedupKey)
    requires j <= |es| && Behind(es[..j], slot, key)
    ensures Behind(es, slot, key)
  {
    var part := es[..j];
    BehindIsNamed(part, slot, key);
    FirstCountStays(es, j, slot);
    var b :| 0 <= b < |part| && IsCreatedBankOf(part[b].msg, slot) && part[b].count == FirstCount(part, slot)
             && BroughtOn(part[..b], slot, part[b].count, key);
    assert es[b] == part[b] && es[..b] == part[..b];
    hide BroughtOn;
    hide FirstCount;
    hide ExtractKey;
  }

  lemma BehindBefore(es: seq<Event>, j: nat, slot: nat, key: DedupKey)
    requires Monotone(es) && Behind(es, slot, key) && j < |es| && es[j].count > FirstCount(es, slot)
    ensures Behind(es[..j], slot, key)
  {
    var part := es[..j];
    var b :| 0 <= b < |es| && IsCreatedBankOf(es[b].msg, slot) && es[b].count == FirstCount(es, slot)
             && BroughtOn(es[..b], slot, es[b].count, key);
    assert b < j;
    assert part[b] == es[b] && part[..b] == es[..b];
    BroughtIsNamed(part[..b], slot, es[b].count, key);
    NamedPrefix(part, b, slot);
    FirstCountStays(es, j, slot);
    hide BroughtOn;
    hide FirstCount;
    hide ExtractKey;
  }

  ghost predicate LaterRepeats(es: seq<Event>, slot: nat, count: nat) {
    exists key: DedupKey :: key.IsPayload() && BroughtOn(es, slot, count, key) && Behind(es, slot, key)
  }

  /** What the completing connection repeats, if it is not the first one. */
  lemma BringsAgainLater(es: seq<Event>, slot: nat, count: nat)
    requires Monotone(es) && count > FirstCount(es, slot)
    ensures BringsAgain(es, slot, count) <==>
            BringsAgain(es, slot, FirstCount(es, slot)) || LaterRepeats(es, slot, count)
  {
    if BringsAgain(es, slot, count) {
      var j :| 0 <= j < |es| && IsPayloadOf(es[j].msg, slot) && es[j].count in {FirstCount(es, slot), count}
               && Behind(es[..j], slot, ExtractKey(es[j].msg).value.1);
      BehindPrefix(es, j, slot, ExtractKey(es[j].msg).value.1);
      assert es[j] in es;
    }
    if LaterRepeats(es, slot, count) {
      var key: DedupKey :| key.IsPayload() && BroughtOn(es, slot, count, key) && Behind(es, slot, key);
      var e :| e in es && e.count == count && ExtractKey(e.msg) == Some((slot, key));
      var j :| 0 <= j < |es| && es[j] == e;
      BehindBefore(es, j, slot, key);
      assert IsPayloadOf(es[j].msg, slot);
    }
  }
}
