/** Which messages the replay layer takes for the same, said by their kinds and fields. */
module ProtocolKeys {
  import opened Collections
  import opened Protocol

  /** A transaction signature counts only if it has 64 bytes. */
  predicate SameSignature(a: Option<Bytes>, b: Option<Bytes>) {
    if a.Some? && |a.value| == 64 then b == a else b.None? || |b.value| != 64
  }

  predicate SameUpdate(a: UpdateOneof, b: UpdateOneof) {
    match (a, b)
    case (SlotUpdate(s, x), SlotUpdate(t, y)) => s == t && x == y
    case (AccountUpdate(s, Some(x)), AccountUpdate(t, Some(y))) =>
      s == t && x.pubkey == y.pubkey && SameSignature(x.txnSignature, y.txnSignature)
    case (TransactionUpdate(s, Some(x)), TransactionUpdate(t, Some(y))) => s == t && x.index == y.index
    case (TransactionStatusUpdate(s, x), TransactionStatusUpdate(t, y)) => s == t && x == y
    case (EntryUpdate(s, x, _), EntryUpdate(t, y, _)) => s == t && x == y
    case (BlockMetaUpdate(s, x), BlockMetaUpdate(t, y)) => s == t && x == y
    case (BlockUpdate(s), BlockUpdate(t)) => s == t
    case _ => false
  }

  predicate SameDeshred(a: DeshredOneof, b: DeshredOneof) {
    match (a, b)
    case (DeshredTransactionUpdate(s, Some(x)), DeshredTransactionUpdate(t, Some(y))) =>
      s == t && x.signature == y.signature
    case (DeshredSlotUpdate(s, x), DeshredSlotUpdate(t, y)) => s == t && x == y
    case _ => false
  }

  predicate SameStatus(u: SubscribeUpdate, v: Option<DeshredOneof>) {
    match (u.updateOneof, v)
    case (Some(SlotUpdate(s, x)), Some(DeshredSlotUpdate(t, y))) => s == t && x == y
    case _ => false
  }

  /** The messages are of one kind and agree on the slot and on what identifies that kind. A stream
      carries messages of one of the two types only; their slot updates alone are of one kind. */
  predicate SameMessage(m: Message, n: Message) {
    match (m, n)
    case (Subscribe(u), Subscribe(v)) =>
      u.updateOneof.Some? && v.updateOneof.Some? && SameUpdate(u.updateOneof.value, v.updateOneof.value)
    case (Deshred(u), Deshred(v)) => u.Some? && v.Some? && SameDeshred(u.value, v.value)
    case (Subscribe(u), Deshred(v)) => SameStatus(u, v)
    case (Deshred(v), Subscribe(u)) => SameStatus(u, v)
  }

  /** A ping, a pong, empty, or malformed. */
  predicate IsKeyless(m: Message) {
    match m
    case Subscribe(u) =>
      (match u.updateOneof
       case None => true
       case Some(Ping) => true
       case Some(Pong) => true
       case Some(AccountUpdate(_, account)) => account.None? || |account.value.pubkey| != 32
       case Some(TransactionUpdate(_, transaction)) => transaction.None?
       case Some(_) => false)
    case Deshred(None) => true
    case Deshred(Some(DeshredPing)) => true
    case Deshred(Some(DeshredPong)) => true
    case Deshred(Some(DeshredTransactionUpdate(_, transaction))) =>
      transaction.None? || |transaction.value.signature| != 64
    case Deshred(Some(DeshredSlotUpdate(_, _))) => false
  }

  /** The slot that a message with a key names. */
  function NamedSlot(m: Message): nat
    requires !IsKeyless(m)
  {
    match m
    case Subscribe(u) => u.updateOneof.value.slot
    case Deshred(u) => u.value.slot
  }

  /** Keys are exact: a message has none if and only if it is a ping, a pong, empty or malformed, and two
      messages have the same slot and key if and only if they are of the same kind and agree on what
      identifies that kind. */
  lemma KeysAreExact(m: Message, n: Message)
    ensures ExtractKey(m).None? <==> IsKeyless(m)
    ensures !IsKeyless(m) && !IsKeyless(n) ==> (ExtractKey(m) == ExtractKey(n) <==> SameMessage(m, n))
    ensures !IsKeyless(m) ==> OfSlot(m, NamedSlot(m)) && SameMessage(m, m)
  {
    match m {
      case Subscribe(u) =>
        if n.Subscribe? && u.updateOneof.Some? && n.update.updateOneof.Some? {
          UpdatesAreExact(u.updateOneof.value, n.update.updateOneof.value);
        }
      case Deshred(u) =>
    }
  }

  lemma UpdatesAreExact(a: UpdateOneof, b: UpdateOneof)
    ensures ExtractSubscribeKey(a).Some? && ExtractSubscribeKey(b).Some? ==>
              (ExtractSubscribeKey(a) == ExtractSubscribeKey(b) <==> SameUpdate(a, b))
  {
  }

  /** Which kinds are the statuses, the BlockMeta and the payload of a slot. */
  lemma KindsAre(m: Message, slot: nat)
    requires !IsKeyless(m) && NamedSlot(m) == slot
    ensures IsMetaOf(m, slot) <==> m.Subscribe? && m.update.updateOneof.value.BlockMetaUpdate?
    ensures IsPayloadOf(m, slot) <==>
            match m
            case Subscribe(u) => !u.updateOneof.value.SlotUpdate? && !u.updateOneof.value.BlockMetaUpdate?
            case Deshred(u) => u.value.DeshredTransactionUpdate?
    ensures IsCreatedBankOf(m, slot) <==>
            match m
            case Subscribe(u) => u.updateOneof.value == SlotUpdate(slot, 5)
            case Deshred(u) => u.value == DeshredSlotUpdate(slot, 5)
  {
  }
}
