/** The messages of the subscribe streams and the keys by which a client recognises them. */
module Protocol {
  import opened Collections

  /** What `DedupKey` distinguishes inside one slot. */
  datatype DedupKey =
    | Slot(status: int)
    | Account(pubkey: Bytes, txnSignature: Option<Bytes>)
    | Transaction(index: nat)
    | TransactionStatus(index: nat)
    | Entry(index: nat)
    | BlockMeta(blockhash: string)
    | Block(slot: nat)
    | DeshredTransaction(signature: Bytes)
  {
    /** Neither a status nor the block meta: the content of a block. */
    predicate IsPayload() {
      !Slot? && !BlockMeta?
    }
  }

  const SLOT_CREATED_BANK := 5

  datatype AccountInfo = AccountInfo(pubkey: Bytes, txnSignature: Option<Bytes>, data: Bytes)

  datatype TransactionInfo = TransactionInfo(index: nat, signature: Bytes)

  datatype UpdateOneof =
    | SlotUpdate(slot: nat, status: int)
    | AccountUpdate(slot: nat, account: Option<AccountInfo>)
    | TransactionUpdate(slot: nat, transaction: Option<TransactionInfo>)
    | TransactionStatusUpdate(slot: nat, index: nat)
    | EntryUpdate(slot: nat, index: nat, hash: Bytes)
    | BlockMetaUpdate(slot: nat, blockhash: string)
    | BlockUpdate(slot: nat)
    | Ping
    | Pong

  datatype SubscribeUpdate = SubscribeUpdate(filters: seq<string>, updateOneof: Option<UpdateOneof>)

  datatype DeshredOneof =
    | DeshredTransactionUpdate(slot: nat, transaction: Option<TransactionInfo>)
    | DeshredSlotUpdate(slot: nat, status: int)
    | DeshredPing
    | DeshredPong

  /** The two message types for which the dedup stream is instantiated. */
  datatype Message =
    | Subscribe(update: SubscribeUpdate)
    | Deshred(deshredOneof: Option<DeshredOneof>)

  function Sized(bytes: Bytes, size: nat): Option<Bytes> {
    if |bytes| == size then Some(bytes) else None
  }

  function ExtractSubscribeKey(u: UpdateOneof): Option<(nat, DedupKey)> {
    match u
    case SlotUpdate(slot, status) => Some((slot, DedupKey.Slot(status)))
    case AccountUpdate(slot, account) =>
      if account.None? || Sized(account.value.pubkey, 32).None? then None
      else
        var sig := if account.value.txnSignature.None? then None else Sized(account.value.txnSignature.value, 64);
        Some((slot, Account(account.value.pubkey, sig)))
    case TransactionUpdate(slot, transaction) =>
      if transaction.None? then None else Some((slot, Transaction(transaction.value.index)))
    case TransactionStatusUpdate(slot, index) => Some((slot, TransactionStatus(index)))
    case EntryUpdate(slot, index, _) => Some((slot, Entry(index)))
    case BlockMetaUpdate(slot, blockhash) => Some((slot, BlockMeta(blockhash)))
    case BlockUpdate(slot) => Some((slot, Block(slot)))
    case Ping => None
    case Pong => None
  }

  function ExtractDeshredKey(u: DeshredOneof): Option<(nat, DedupKey)> {
    match u
    case DeshredTransactionUpdate(slot, transaction) =>
      if transaction.None? || Sized(transaction.value.signature, 64).None? then None
      else Some((slot, DeshredTransaction(transaction.value.signature)))
    case DeshredSlotUpdate(slot, status) => Some((slot, DedupKey.Slot(status)))
    case DeshredPing => None
    case DeshredPong => None
  }

  /** The `(slot, key)` pair of a message, absent for pings and malformed payloads. */
  function ExtractKey(m: Message): Option<(nat, DedupKey)> {
    match m
    case Subscribe(u) => if u.updateOneof.None? then None else ExtractSubscribeKey(u.updateOneof.value)
    case Deshred(u) => if u.None? then None else ExtractDeshredKey(u.value)
  }

  /** `m` belongs to `slot` for the dedup layer. */
  predicate OfSlot(m: Message, slot: nat) {
    ExtractKey(m).Some? && ExtractKey(m).value.0 == slot
  }

  predicate IsPayloadOf(m: Message, slot: nat) {
    OfSlot(m, slot) && ExtractKey(m).value.1.IsPayload()
  }

  predicate IsMetaOf(m: Message, slot: nat) {
    OfSlot(m, slot) && ExtractKey(m).value.1.BlockMeta?
  }

  predicate IsCreatedBankOf(m: Message, slot: nat) {
    ExtractKey(m) == Some((slot, DedupKey.Slot(SLOT_CREATED_BANK)))
  }
}
