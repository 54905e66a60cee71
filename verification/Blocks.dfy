/** How the server collects the parts of one slot and freezes them into a block. */
module Blocks {
  import opened Collections

  type Pubkey = nat

  datatype BlockMeta = BlockMeta(slot: nat, parentSlot: nat, blockhash: string,
                                 executedTransactionCount: nat, entriesCount: nat)

  datatype BlockData =
    | Account(slot: nat, pubkey: Pubkey, writeVersion: nat, content: nat)
    | Transaction(slot: nat, content: nat)
    | Entry(slot: nat, content: nat)

  datatype MessageBlock = MessageBlock(meta: BlockMeta, transactions: seq<BlockData>,
                                       accounts: seq<BlockData>, entries: seq<BlockData>)

  /** `id` tells two frozen blocks apart as the server's shared pointers do. */
  datatype FrozenBlock = FrozenBlock(id: nat, messages: seq<BlockData>, meta: BlockMeta, block: MessageBlock)

  datatype TrySealError = NotSealable | AlreadySealed

  /** The parts of a slot that is being collected. */
  datatype SlotBuffer = SlotBuffer(
    messages: seq<BlockData>,
    versions: map<Pubkey, nat>,
    meta: Option<BlockMeta>,
    transactions: seq<BlockData>,
    accounts: seq<BlockData>,
    entries: seq<BlockData>,
    isSealed: bool)

  const EMPTY_BUFFER := SlotBuffer([], map[], None, [], [], [], false)

  function AddEvent(b: SlotBuffer, e: BlockData): SlotBuffer {
    var c := b.(messages := b.messages + [e]);
    match e
    case Account(_, pubkey, version, _) =>
      c.(versions := if pubkey in b.versions && b.versions[pubkey] >= version then b.versions
                     else b.versions[pubkey := version],
         accounts := b.accounts + [e])
    case Transaction(_, _) => c.(transactions := b.transactions + [e])
    case Entry(_, _) => c.(entries := b.entries + [e])
  }

  /** Both counts of the BlockMeta are in. */
  predicate CountsAreIn(b: SlotBuffer) {
    && b.meta.Some?
    && |b.transactions| >= b.meta.value.executedTransactionCount
    && |b.entries| >= b.meta.value.entriesCount
  }

  function TrySeal(b: SlotBuffer): (SlotBuffer, Option<TrySealError>) {
    if b.isSealed then (b, Some(AlreadySealed))
    else if !CountsAreIn(b) then (b, Some(NotSealable))
    else (b.(isSealed := true), None)
  }

  /** The account is of the newest version that was recorded for its key. */
  predicate Newest(versions: map<Pubkey, nat>, m: BlockData) {
    m.Account? ==> m.pubkey in versions && versions[m.pubkey] == m.writeVersion
  }

  function Seal(b: SlotBuffer, id: nat): FrozenBlock
    requires b.meta.Some?
  {
    FrozenBlock(id, Filter(b.messages, m => Newest(b.versions, m)), b.meta.value,
                MessageBlock(b.meta.value, b.transactions, Filter(b.accounts, m => Newest(b.versions, m)), b.entries))
  }

  // ---------- what a frozen block is ----------

  function Accounts(ms: seq<BlockData>): seq<BlockData> {
    Filter(ms, (m: BlockData) => m.Account?)
  }

  function Transactions(ms: seq<BlockData>): seq<BlockData> {
    Filter(ms, (m: BlockData) => m.Transaction?)
  }

  function Entries(ms: seq<BlockData>): seq<BlockData> {
    Filter(ms, (m: BlockData) => m.Entry?)
  }

  /** A later version of the same account came, before or after. */
  predicate Outdated(ms: seq<BlockData>, m: BlockData) {
    m.Account? && exists x <- ms :: x.Account? && x.pubkey == m.pubkey && x.writeVersion > m.writeVersion
  }

  function WithoutOutdated(ms: seq<BlockData>): seq<BlockData> {
    Filter(ms, m => !Outdated(ms, m))
  }

  ghost predicate PartsAreProjections(b: SlotBuffer) {
    && b.accounts == Accounts(b.messages)
    && b.transactions == Transactions(b.messages)
    && b.entries == Entries(b.messages)
  }

  ghost predicate VersionsAreMaxima(b: SlotBuffer) {
    && (forall m <- b.messages | m.Account? :: m.pubkey in b.versions && m.writeVersion <= b.versions[m.pubkey])
    && (forall p <- b.versions ::
          exists m <- b.messages :: m.Account? && m.pubkey == p && m.writeVersion == b.versions[p])
  }

  /** The buffer's parts are projections of its messages, and the versions are the maxima. */
  ghost predicate Consistent(b: SlotBuffer) {
    PartsAreProjections(b) && VersionsAreMaxima(b)
  }

  lemma AddEventProjections(b: SlotBuffer, e: BlockData)
    requires PartsAreProjections(b)
    ensures PartsAreProjections(AddEvent(b, e))
  {
    FilterSnoc(b.messages, e, (m: BlockData) => m.Account?);
    FilterSnoc(b.messages, e, (m: BlockData) => m.Transaction?);
    FilterSnoc(b.messages, e, (m: BlockData) => m.Entry?);
    assert Accounts(b.messages) + [] == Accounts(b.messages);
    assert Transactions(b.messages) + [] == Transactions(b.messages);
    assert Entries(b.messages) + [] == Entries(b.messages);
  }

  lemma AddEventMaxima(b: SlotBuffer, e: BlockData)
    requires VersionsAreMaxima(b)
    ensures VersionsAreMaxima(AddEvent(b, e))
  {
    var c := AddEvent(b, e);
    assert forall m :: m in c.messages <==> m in b.messages || m == e;
    forall p <- c.versions
      ensures exists m <- c.messages :: m.Account? && m.pubkey == p && m.writeVersion == c.versions[p]
    {
      if p in b.versions && c.versions[p] == b.versions[p] {
        var m :| m in b.messages && m.Account? && m.pubkey == p && m.writeVersion == b.versions[p];
        assert m in c.messages;
      } else {
        assert e in c.messages;
      }
    }
  }

  lemma AddEventConsistent(b: SlotBuffer, e: BlockData)
    requires Consistent(b)
    ensures Consistent(AddEvent(b, e))
  {
    AddEventProjections(b, e);
    AddEventMaxima(b, e);
  }

  /** Among the messages of a consistent buffer, the newest accounts are those that are not outdated. */
  lemma NewestIsNotOutdated(b: SlotBuffer, m: BlockData)
    requires Consistent(b) && m in b.messages
    ensures Newest(b.versions, m) <==> !Outdated(b.messages, m)
  {
    if m.Account? {
      var x :| x in b.messages && x.Account? && x.pubkey == m.pubkey && x.writeVersion == b.versions[m.pubkey];
    }
  }

  lemma FilterOfFilter(ms: seq<BlockData>, versions: map<Pubkey, nat>)
    ensures Filter(Accounts(ms), m => Newest(versions, m)) == Accounts(Filter(ms, m => Newest(versions, m)))
    ensures Transactions(Filter(ms, m => Newest(versions, m))) == Transactions(ms)
    ensures Entries(Filter(ms, m => Newest(versions, m))) == Entries(ms)
  {
    FilterCommutes(ms, (m: BlockData) => m.Account?, m => Newest(versions, m));
    FilterSubsumed(ms, m => Newest(versions, m), (m: BlockData) => m.Transaction?);
    FilterSubsumed(ms, m => Newest(versions, m), (m: BlockData) => m.Entry?);
  }

  /** A frozen block holds the received messages without outdated accounts, in order; its transactions,
      accounts and entries are the projections of these messages; and every account seen survives in its
      newest version. */
  lemma SealedBlock(b: SlotBuffer, id: nat)
    requires Consistent(b) && b.meta.Some?
    ensures var f := Seal(b, id);
            && f.messages == WithoutOutdated(b.messages)
            && f.meta == f.block.meta == b.meta.value
            && f.block.accounts == Accounts(f.messages)
            && f.block.transactions == Transactions(f.messages) == Transactions(b.messages)
            && f.block.entries == Entries(f.messages) == Entries(b.messages)
            && (forall m <- b.messages | m.Account? ::
                  exists x <- f.messages :: x.Account? && x.pubkey == m.pubkey && x.writeVersion >= m.writeVersion)
  {
    forall m <- b.messages ensures Newest(b.versions, m) <==> !Outdated(b.messages, m) {
      NewestIsNotOutdated(b, m);
    }
    FilterCong(b.messages, m => Newest(b.versions, m), m => !Outdated(b.messages, m));
    FilterOfFilter(b.messages, b.versions);
    forall m <- b.messages | m.Account?
      ensures exists x <- Seal(b, id).messages :: x.Account? && x.pubkey == m.pubkey && x.writeVersion >= m.writeVersion
    {
      var x :| x in b.messages && x.Account? && x.pubkey == m.pubkey && x.writeVersion == b.versions[m.pubkey];
    }
  }

  /** The account is of the newest version that came for its key. */
  ghost predicate IsNewest(ms: seq<BlockData>, m: BlockData) {
    m.Account? ==> forall x <- ms | x.Account? && x.pubkey == m.pubkey :: x.writeVersion <= m.writeVersion
  }

  lemma KeptIs(ms: seq<BlockData>, x: BlockData)
    ensures x in WithoutOutdated(ms) <==> x in ms && IsNewest(ms, x)
  {
    hide Filter;
  }

  lemma KindsAre(ms: seq<BlockData>, x: BlockData)
    ensures x in Accounts(ms) <==> x in ms && x.Account?
    ensures x in Transactions(ms) <==> x in ms && x.Transaction?
    ensures x in Entries(ms) <==> x in ms && x.Entry?
  {
    hide Filter;
  }

  /** Which of the received messages a frozen block holds, and in which of its lists. */
  lemma SealedHolds(b: SlotBuffer, id: nat, x: BlockData)
    requires Consistent(b) && b.meta.Some?
    ensures var f := Seal(b, id);
            && (x in f.messages <==> x in b.messages && IsNewest(b.messages, x))
            && (x in f.block.accounts <==> x in b.messages && IsNewest(b.messages, x) && x.Account?)
            && (x in f.block.transactions <==> x in b.messages && x.Transaction?)
            && (x in f.block.entries <==> x in b.messages && x.Entry?)
  {
    hide *;
    SealedBlock(b, id);
    var f := Seal(b, id);
    KeptIs(b.messages, x);
    KindsAre(f.messages, x);
    KindsAre(b.messages, x);
  }

  /** The collector of one slot, as the server updates it in place. */
  class ProcessingSlot {
    var originalMessages: seq<BlockData>
    var accountWriteVersionMap: map<Pubkey, nat>
    var blockmeta: Option<BlockMeta>
    var transactions: seq<BlockData>
    var accounts: seq<BlockData>
    var entries: seq<BlockData>
    var isSealed: bool

    function Value(): SlotBuffer
      reads this
    {
      SlotBuffer(originalMessages, accountWriteVersionMap, blockmeta, transactions, accounts, entries, isSealed)
    }

    constructor ()
      ensures Value() == EMPTY_BUFFER
    {
      originalMessages, accountWriteVersionMap, blockmeta := [], map[], None;
      transactions, accounts, entries, isSealed := [], [], [], false;
    }

    method Add(event: BlockData)
      modifies this
      ensures Value() == AddEvent(old(Value()), event)
      ensures originalMessages == old(originalMessages) + [event]
      ensures transactions == old(transactions) + if event.Transaction? then [event] else []
      ensures accounts == old(accounts) + if event.Account? then [event] else []
      ensures entries == old(entries) + if event.Entry? then [event] else []
    {
      match event {
        case Account(_, pubkey, writeVersion, _) =>
          if pubkey in accountWriteVersionMap {
            if accountWriteVersionMap[pubkey] < writeVersion {
              accountWriteVersionMap := accountWriteVersionMap[pubkey := writeVersion];
            }
          } else {
            accountWriteVersionMap := accountWriteVersionMap[pubkey := writeVersion];
          }
          accounts := accounts + [event];
        case Transaction(_, _) => transactions := transactions + [event];
        case Entry(_, _) => entries := entries + [event];
      }
      originalMessages := originalMessages + [event];
    }

    method TryToSeal() returns (error: Option<TrySealError>)
      modifies this`isSealed
      ensures (Value(), error) == TrySeal(old(Value()))
      ensures error == if old(isSealed) then Some(AlreadySealed)
                       else if blockmeta.Some? && |transactions| >= blockmeta.value.executedTransactionCount
                               && |entries| >= blockmeta.value.entriesCount then None
                       else Some(NotSealable)
      ensures isSealed <==> old(isSealed) || error.None?
    {
      if isSealed {
        return Some(AlreadySealed);
      }
      if blockmeta.None? {
        return Some(NotSealable);
      }
      if |transactions| < blockmeta.value.executedTransactionCount {
        return Some(NotSealable);
      }
      if |entries| < blockmeta.value.entriesCount {
        return Some(NotSealable);
      }
      isSealed := true;
      return None;
    }
  }
}
