/** Where every message goes: handed out, held, or dropped for a stated reason. */
module DedupFate {
  import opened Collections
  import opened Protocol
  import opened DedupModel
  import opened DedupWindow
  import opened DedupSlots
  import opened DedupHistory
  import opened ProtocolKeys

  datatype Reason = RepeatedKey | SameHash | Reconnected | Forgotten

  datatype Drop = Drop(msg: Message, reason: Reason)

  /** The quarantined messages in order of arrival, and the messages that were dropped. */
  datatype Ledger = Ledger(held: seq<Message>, dropped: seq<Drop>)

  function Drops(ms: seq<Message>, reason: Reason): seq<Drop> {
    seq(|ms|, i requires 0 <= i < |ms| => Drop(ms[i], reason))
  }

  function DropMessages(ds: seq<Drop>): seq<Message> {
    seq(|ds|, i requires 0 <= i < |ds| => ds[i].msg)
  }

  predicate Tracked(w: Window, m: Message) {
    ExtractKey(m).Some? && w.Tracks(ExtractKey(m).value.0)
  }

  /** What reconciliation leaves out. */
  function Repeated(held: seq<Message>, keys: set<DedupKey>): seq<Message> {
    if held == [] then []
    else
      var rest := Repeated(Front(held), keys);
      var key := ExtractKey(Last(held));
      if key.None? || key.value.1 !in ReconciledKeys(Front(held), keys) then rest else rest + [Last(held)]
  }

  function OutsideSlot(ms: seq<Message>, slot: nat): seq<Message> {
    Filter(ms, m => !OfSlot(m, slot))
  }

  function TrackedPart(ms: seq<Message>, w: Window): seq<Message> {
    Filter(ms, m => Tracked(w, m))
  }

  function ForgottenPart(ms: seq<Message>, w: Window): seq<Message> {
    Filter(ms, m => !Tracked(w, m))
  }

  function LedgerResume(l: Ledger, newReplay: bool): Ledger {
    if newReplay then Ledger([], l.dropped + Drops(l.held, Reconnected)) else l
  }

  function LedgerRetain(l: Ledger, w: Window): Ledger {
    Ledger(TrackedPart(l.held, w), l.dropped + Drops(ForgottenPart(l.held, w), Forgotten))
  }

  function LedgerSettle(l: Ledger, obs: Observation, slot: nat, msg: Message): Ledger {
    match obs
    case New => l
    case Duplicate => l.(dropped := l.dropped + Drops([msg], RepeatedKey))
    case Replay => l.(held := l.held + [msg])
    case ReplayComplete(same) =>
      Ledger(OutsideSlot(l.held, slot),
             if same then l.dropped + Drops(SlotPart(l.held, slot) + [msg], SameHash) else l.dropped)
    case PartialReplayComplete(keys) =>
      Ledger(OutsideSlot(l.held, slot), l.dropped + Drops(Repeated(SlotPart(l.held, slot), keys), RepeatedKey))
  }

  function LedgerStep(s: LayerState, l: Ledger, e: Event): Ledger {
    var s1 := Resume(s, e.count);
    var l1 := LedgerResume(l, e.count != s.lastCount);
    match ExtractKey(e.msg)
    case None => l1
    case Some((slot, key)) =>
      var (w, obs) := Observe(s1.window, slot, key);
      LedgerSettle(LedgerRetain(l1, w), obs, slot, e.msg)
  }

  function LedgerRun(retention: nat, es: seq<Event>): Ledger {
    if es == [] then Ledger([], [])
    else LedgerStep(Run(retention, Front(es)).state, LedgerRun(retention, Front(es)), Last(es))
  }

  function Messages(es: seq<Event>): seq<Message> {
    seq(|es|, i requires 0 <= i < |es| => es[i].msg)
  }

  /** The ledger's held messages are the quarantine. */
  ghost predicate Agrees(q: map<nat, seq<Message>>, held: seq<Message>) {
    && (forall m <- held :: ExtractKey(m).Some?)
    && (forall slot: nat :: Held(q, slot) == SlotPart(held, slot))
  }

  lemma SlotPartSnoc(ms: seq<Message>, m: Message, slot: nat)
    ensures SlotPart(ms + [m], slot) == SlotPart(ms, slot) + if OfSlot(m, slot) then [m] else []
  {
    assert Front(ms + [m]) == ms;
  }

  lemma {:induction false} SlotPartOfTracked(held: seq<Message>, w: Window, slot: nat)
    ensures SlotPart(TrackedPart(held, w), slot) == if w.Tracks(slot) then SlotPart(held, slot) else []
  {
    if held != [] {
      SlotPartOfTracked(Front(held), w, slot);
      SlotPartSnoc(TrackedPart(Front(held), w), Last(held), slot);
      assert TrackedPart(Front(held), w) + [] == TrackedPart(Front(held), w);
      assert SlotPart(Front(held), slot) + [] == SlotPart(Front(held), slot);
    }
  }

  lemma {:induction false} SlotPartOfOutside(held: seq<Message>, slot: nat, other: nat)
    ensures SlotPart(OutsideSlot(held, slot), other) == if other == slot then [] else SlotPart(held, other)
  {
    if held != [] {
      SlotPartOfOutside(Front(held), slot, other);
      SlotPartSnoc(OutsideSlot(Front(held), slot), Last(held), other);
      assert OutsideSlot(Front(held), slot) + [] == OutsideSlot(Front(held), slot);
      assert SlotPart(Front(held), other) + [] == SlotPart(Front(held), other);
    }
  }

  lemma RetainAgrees(q: map<nat, seq<Message>>, l: Ledger, w: Window)
    requires Agrees(q, l.held)
    ensures Agrees(Retained(q, w), LedgerRetain(l, w).held)
  {
    forall slot: nat ensures Held(Retained(q, w), slot) == SlotPart(LedgerRetain(l, w).held, slot) {
      SlotPartOfTracked(l.held, w, slot);
    }
  }

  lemma SettleAgrees(q: map<nat, seq<Message>>, l: Ledger, obs: Observation, slot: nat, msg: Message)
    requires Agrees(q, l.held) && OfSlot(msg, slot)
    ensures Agrees(Settle(q, obs, slot, msg).0, LedgerSettle(l, obs, slot, msg).held)
  {
    forall t: nat ensures Held(Settle(q, obs, slot, msg).0, t) == SlotPart(LedgerSettle(l, obs, slot, msg).held, t) {
      SettleView(q, obs, slot, msg, t);
      SlotPartSnoc(l.held, msg, t);
      SlotPartOfOutside(l.held, slot, t);
    }
  }

  lemma {:induction false} LedgerAgrees(retention: nat, es: seq<Event>)
    ensures Agrees(Run(retention, es).state.quarantine, LedgerRun(retention, es).held)
  {
    if es != [] {
      LedgerAgrees(retention, Front(es));
      var s := Run(retention, Front(es)).state;
      var e := Last(es);
      var s1 := Resume(s, e.count);
      var l1 := LedgerResume(LedgerRun(retention, Front(es)), e.count != s.lastCount);
      if ExtractKey(e.msg).Some? {
        var (slot, key) := ExtractKey(e.msg).value;
        var (w, obs) := Observe(s1.window, slot, key);
        hide Observe;
        hide Settle;
        hide LedgerSettle;
        RetainAgrees(s1.quarantine, l1, w);
        SettleAgrees(Retained(s1.quarantine, w), LedgerRetain(l1, w), obs, slot, e.msg);
      }
    }
  }

  // ---------- conservation ----------

  lemma DropsMessages(ds: seq<Drop>, ms: seq<Message>, reason: Reason)
    ensures DropMessages(ds + Drops(ms, reason)) == DropMessages(ds) + ms
  {
  }

  lemma {:induction false} ReconciledPartition(held: seq<Message>, keys: set<DedupKey>)
    ensures multiset(held) == multiset(Reconciled(held, keys)) + multiset(Repeated(held, keys))
  {
    if held != [] {
      ReconciledPartition(Front(held), keys);
      assert held == Front(held) + [Last(held)];
    }
  }

  /** The messages that a ledger accounts for. */
  ghost function Accounted(l: Ledger): multiset<Message> {
    multiset(l.held) + multiset(DropMessages(l.dropped))
  }

  lemma ResumeConserves(l: Ledger, newReplay: bool)
    ensures Accounted(LedgerResume(l, newReplay)) == Accounted(l)
  {
    DropsMessages(l.dropped, l.held, Reconnected);
  }

  lemma TrackedPartition(held: seq<Message>, w: Window)
    ensures multiset(held) == multiset(TrackedPart(held, w)) + multiset(ForgottenPart(held, w))
  {
    FilterPartition(held, m => Tracked(w, m), m => !Tracked(w, m));
  }

  lemma RetainConserves(l: Ledger, w: Window)
    ensures Accounted(LedgerRetain(l, w)) == Accounted(l)
  {
    TrackedPartition(l.held, w);
    hide TrackedPart;
    hide ForgottenPart;
    DropsMessages(l.dropped, ForgottenPart(l.held, w), Forgotten);
  }

  lemma SlotPartition(held: seq<Message>, slot: nat)
    ensures multiset(held) == multiset(SlotPart(held, slot)) + multiset(OutsideSlot(held, slot))
  {
    FilterPartition(held, m => OfSlot(m, slot), m => !OfSlot(m, slot));
  }

  lemma DropsConserve(held: seq<Message>, dropped: seq<Drop>, gone: seq<Message>, reason: Reason)
    ensures Accounted(Ledger(held, dropped + Drops(gone, reason))) == Accounted(Ledger(held, dropped)) + multiset(gone)
  {
    DropsMessages(dropped, gone, reason);
    hide DropMessages;
    hide Drops;
  }

  lemma CompleteConserves(q: map<nat, seq<Message>>, l: Ledger, same: bool, slot: nat, msg: Message)
    requires Held(q, slot) == SlotPart(l.held, slot)
    ensures Accounted(l) + multiset{msg} ==
            Accounted(LedgerSettle(l, ReplayComplete(same), slot, msg))
            + multiset(Settle(q, ReplayComplete(same), slot, msg).1)
  {
    SlotPartition(l.held, slot);
    hide SlotPart;
    hide OutsideSlot;
    hide DropMessages;
    hide Drops;
    hide Held;
    if same {
      DropsConserve(OutsideSlot(l.held, slot), l.dropped, SlotPart(l.held, slot) + [msg], SameHash);
    }
  }

  lemma ReconcileConserves(q: map<nat, seq<Message>>, l: Ledger, keys: set<DedupKey>, slot: nat, msg: Message)
    requires Held(q, slot) == SlotPart(l.held, slot)
    ensures Accounted(l) + multiset{msg} ==
            Accounted(LedgerSettle(l, PartialReplayComplete(keys), slot, msg))
            + multiset(Settle(q, PartialReplayComplete(keys), slot, msg).1)
  {
    SlotPartition(l.held, slot);
    ReconciledPartition(SlotPart(l.held, slot), keys);
    hide SlotPart;
    hide OutsideSlot;
    hide DropMessages;
    hide Drops;
    hide Reconciled;
    hide Repeated;
    hide Held;
    DropsConserve(OutsideSlot(l.held, slot), l.dropped, Repeated(SlotPart(l.held, slot), keys), RepeatedKey);
  }

  lemma SettleConserves(q: map<nat, seq<Message>>, l: Ledger, obs: Observation, slot: nat, msg: Message)
    requires Agrees(q, l.held)
    ensures Accounted(l) + multiset{msg} ==
            Accounted(LedgerSettle(l, obs, slot, msg)) + multiset(Settle(q, obs, slot, msg).1)
  {
    assert Held(q, slot) == SlotPart(l.held, slot);
    hide Agrees;
    hide DropMessages;
    hide Drops;
    hide Held;
    match obs {
      case New =>
      case Duplicate => DropsConserve(l.held, l.dropped, [msg], RepeatedKey);
      case Replay =>
      case ReplayComplete(same) => CompleteConserves(q, l, same, slot, msg);
      case PartialReplayComplete(keys) => ReconcileConserves(q, l, keys, slot, msg);
    }
  }

  lemma MessagesSnoc(es: seq<Event>)
    requires es != []
    ensures Messages(es) == Messages(Front(es)) + [Last(es).msg]
  {
  }

  lemma LedgerStepConserves(s: LayerState, l: Ledger, e: Event)
    requires Agrees(s.quarantine, l.held)
    ensures Accounted(l) + multiset{e.msg} == Accounted(LedgerStep(s, l, e)) + multiset(Step(s, e).out)
  {
    hide Observe;
    hide Accounted;
    hide Settle;
    hide LedgerSettle;
    hide LedgerRetain;
    var s1 := Resume(s, e.count);
    var l1 := LedgerResume(l, e.count != s.lastCount);
    ResumeConserves(l, e.count != s.lastCount);
    if ExtractKey(e.msg).Some? {
      var (slot, key) := ExtractKey(e.msg).value;
      var (w, obs) := Observe(s1.window, slot, key);
      RetainConserves(l1, w);
      RetainAgrees(s1.quarantine, l1, w);
      SettleConserves(Retained(s1.quarantine, w), LedgerRetain(l1, w), obs, slot, e.msg);
    }
  }

  lemma RunsConserve(r: StepResult, l: Ledger, pulled: seq<Message>, e: Event)
    requires multiset(pulled) == multiset(r.out) + Accounted(l) && Agrees(r.state.quarantine, l.held)
    ensures multiset(pulled + [e.msg]) ==
            multiset(r.out + Step(r.state, e).out) + Accounted(LedgerStep(r.state, l, e))
  {
    hide Step;
    hide LedgerStep;
    hide Accounted;
    LedgerStepConserves(r.state, l, e);
    var o := Step(r.state, e).out;
    calc {
      multiset(pulled + [e.msg]);
      multiset(pulled) + multiset{e.msg};
      multiset(r.out) + (Accounted(l) + multiset{e.msg});
      multiset(r.out) + (Accounted(LedgerStep(r.state, l, e)) + multiset(o));
      multiset(r.out) + multiset(o) + Accounted(LedgerStep(r.state, l, e));
      multiset(r.out + o) + Accounted(LedgerStep(r.state, l, e));
    }
  }

  /** Conservation: in every run the messages pulled are, with their multiplicities, those made
      deliverable, those held and those dropped. */
  lemma {:induction false} MessagesAreConserved(retention: nat, es: seq<Event>)
    ensures multiset(Messages(es)) ==
            multiset(Run(retention, es).out) + Accounted(LedgerRun(retention, es))
  {
    if es == [] {
      assert DropMessages([]) == [] && Messages(es) == [];
    } else {
      MessagesAreConserved(retention, Front(es));
      LedgerAgrees(retention, Front(es));
      MessagesSnoc(es);
      RunsConserve(Run(retention, Front(es)), LedgerRun(retention, Front(es)), Messages(Front(es)), Last(es));
      hide Step;
      hide LedgerStep;
      hide Accounted;
      hide Messages;
    }
  }

  // ---------- the reasons are the true ones ----------

  /** The slots and keys on the output. */
  function Pairs(out: seq<Message>): set<(nat, DedupKey)> {
    if out == [] then {}
    else
      var key := ExtractKey(Last(out));
      Pairs(Front(out)) + if key.Some? then {key.value} else {}
  }

  lemma {:induction false} PairsAppend(a: seq<Message>, b: seq<Message>)
    ensures Pairs(a + b) == Pairs(a) + Pairs(b)
  {
    if b == [] {
      assert a + b == a;
    } else {
      assert Front(a + b) == a + Front(b);
      PairsAppend(a, Front(b));
    }
  }

  lemma PairsSnoc(a: seq<Message>, m: Message)
    ensures Pairs(a + [m]) == Pairs(a) + if ExtractKey(m).Some? then {ExtractKey(m).value} else {}
  {
    assert Front(a + [m]) == a;
  }

  /** Whatever the window remembers of a slot was delivered. */
  ghost predicate Known(w: Window, d: set<(nat, DedupKey)>) {
    && (forall s <- w.inflight ::
          && (forall key <- w.inflight[s].keys :: (s, key) in d)
          && (forall st <- w.inflight[s].statuses :: (s, DedupKey.Slot(st)) in d))
    && (forall s <- w.sealed ::
          && (forall st <- w.sealed[s].statuses :: (s, DedupKey.Slot(st)) in d)
          && (w.sealed[s].blockhash.Some? ==> (s, BlockMeta(w.sealed[s].blockhash.value)) in d))
  }

  lemma RecordStatusKnown(w: Window, slot: nat, status: int, d: set<(nat, DedupKey)>)
    requires Known(w, d)
    ensures var (v, obs) := RecordStatus(w, slot, status);
            && Known(v, d + {(slot, DedupKey.Slot(status))})
            && (obs == New || (obs == Duplicate && (slot, DedupKey.Slot(status)) in d))
  {
  }

  lemma ObservePayloadKnown(w: Window, slot: nat, key: DedupKey, d: set<(nat, DedupKey)>)
    requires Known(w, d)
    ensures var (v, obs) := ObservePayload(w, slot, key);
            && Known(v, d + {(slot, key)})
            && (obs == New || (obs == Replay && v == w) || (obs == Duplicate && (slot, key) in d))
  {
  }

  lemma ObserveMetaKnown(w: Window, slot: nat, hash: string, d: set<(nat, DedupKey)>)
    requires Known(w, d)
    ensures var (v, obs) := ObserveBlockMeta(w, slot, hash);
            && Known(v, d + {(slot, BlockMeta(hash))})
            && (obs == ReplayComplete(true) ==> (slot, BlockMeta(hash)) in d)
            && (obs.PartialReplayComplete? ==> forall key <- obs.keys :: (slot, key) in d)
            && (obs == New || obs.ReplayComplete? || obs.PartialReplayComplete?)
  {
  }

  /** What an observation says about earlier deliveries, and what it remembers. */
  lemma ObserveKnown(w: Window, slot: nat, key: DedupKey, d: set<(nat, DedupKey)>)
    requires Known(w, d)
    ensures var (v, obs) := Observe(w, slot, key);
            && Known(v, if obs.Replay? then d else d + {(slot, key)})
            && (obs == Duplicate || obs == ReplayComplete(true) ==> (slot, key) in d)
            && (obs.ReplayComplete? ==> key.BlockMeta?)
            && (obs.PartialReplayComplete? ==> forall k <- obs.keys :: (slot, k) in d)
  {
    hide Known;
    match key {
      case Slot(status) =>
        ClearKnown(w, slot, d);
        hide RecordStatus;
        hide ClearSlot;
        RecordStatusKnown(BeforeStatus(w, slot, status), slot, status, d);
      case BlockMeta(hash) => ObserveMetaKnown(w, slot, hash, d);
      case _ => ObservePayloadKnown(w, slot, key, d);
    }
  }

  lemma ClearKnown(w: Window, slot: nat, d: set<(nat, DedupKey)>)
    requires Known(w, d)
    ensures Known(ClearSlot(w, slot), d)
  {
  }

  lemma {:induction false} ReconciledPairs(held: seq<Message>, keys: set<DedupKey>, slot: nat, d: set<(nat, DedupKey)>)
    requires (forall m <- held :: OfSlot(m, slot)) && forall key <- keys :: (slot, key) in d
    ensures forall key <- ReconciledKeys(held, keys) :: (slot, key) in d + Pairs(Reconciled(held, keys))
    ensures forall m <- Repeated(held, keys) ::
              ExtractKey(m).Some? && ExtractKey(m).value in d + Pairs(Reconciled(held, keys))
  {
    if held != [] {
      assert held == Front(held) + [Last(held)];
      ReconciledPairs(Front(held), keys, slot, d);
      assert OfSlot(Last(held), slot);
      PairsSnoc(Reconciled(Front(held), keys), Last(held));
    }
  }

  /** The message came, and later one with another reconnect count. */
  ghost predicate CutOff(es: seq<Event>, m: Message) {
    exists i, j | 0 <= i < j < |es| :: es[i].msg == m && es[j].count != es[i].count
  }

  /** The message came on what is still the live connection. */
  ghost predicate CameLive(es: seq<Event>, m: Message) {
    exists i | 0 <= i < |es| :: es[i].msg == m && forall j | i <= j < |es| :: es[j].count == es[i].count
  }

  /** The message came before event `k`, with which its slot left the window. */
  ghost predicate ForgottenAt(retention: nat, es: seq<Event>, k: nat, m: Message) {
    && k < |es| && (exists e <- es[..k] :: e.msg == m)
    && Tracked(Run(retention, es[..k]).state.window, m) && !Tracked(Run(retention, es[..k + 1]).state.window, m)
  }

  /** Event `k` is a BlockMeta of the message's slot that repeats the hash that was then the last on the
      output, and the message is that BlockMeta, or payload that came before it. */
  ghost predicate ConfirmedAt(retention: nat, es: seq<Event>, k: nat, m: Message) {
    && k < |es| && ExtractKey(m).Some? && IsMetaOf(es[k].msg, ExtractKey(m).value.0)
    && LastMetaHash(Run(retention, es[..k]).out, ExtractKey(m).value.0) == Some(ExtractKey(es[k].msg).value.1.blockhash)
    && (m == es[k].msg || (IsPayloadOf(m, ExtractKey(m).value.0) && exists e <- es[..k] :: e.msg == m))
  }

  /** Why a message may be dropped: its key was delivered; a replay of its slot was confirmed after it; a
      new connection came after it; or its slot left the window after it. */
  ghost predicate Justified(drop: Drop, retention: nat, es: seq<Event>, d: set<(nat, DedupKey)>) {
    match drop.reason
    case RepeatedKey => ExtractKey(drop.msg).Some? && ExtractKey(drop.msg).value in d
    case SameHash => exists k :: ConfirmedAt(retention, es, k, drop.msg)
    case Reconnected => CutOff(es, drop.msg)
    case Forgotten => exists k :: ForgottenAt(retention, es, k, drop.msg)
  }

  ghost predicate AllJustified(l: Ledger, retention: nat, es: seq<Event>, d: set<(nat, DedupKey)>) {
    forall drop <- l.dropped :: Justified(drop, retention, es, d)
  }

  lemma CutOffLater(es: seq<Event>, e: Event, m: Message)
    ensures CutOff(es, m) ==> CutOff(es + [e], m)
    ensures CameLive(es, m) && e.count != LastCount(es) ==> CutOff(es + [e], m)
    ensures CameLive(es, m) && e.count == LastCount(es) ==> CameLive(es + [e], m)
    ensures CameLive(es + [e], e.msg)
  {
    var all := es + [e];
    assert all[|es|] == e && forall i | 0 <= i < |es| :: all[i] == es[i];
    if CameLive(es, m) {
      var i :| 0 <= i < |es| && es[i].msg == m && forall j | i <= j < |es| :: es[j].count == es[i].count;
      assert all[i].msg == m && es[|es| - 1].count == es[i].count;
    }
  }

  lemma ForgottenLater(retention: nat, es: seq<Event>, e: Event, k: nat, m: Message)
    requires ForgottenAt(retention, es, k, m)
    ensures ForgottenAt(retention, es + [e], k, m)
  {
    assert (es + [e])[..k] == es[..k] && (es + [e])[..k + 1] == es[..k + 1];
  }

  lemma ConfirmedLater(retention: nat, es: seq<Event>, e: Event, k: nat, m: Message)
    requires ConfirmedAt(retention, es, k, m)
    ensures ConfirmedAt(retention, es + [e], k, m)
  {
    assert (es + [e])[..k] == es[..k] && (es + [e])[k] == es[k];
    hide Run;
    hide ExtractKey;
  }

  lemma JustifiedLater(l: Ledger, retention: nat, es: seq<Event>, e: Event, d: set<(nat, DedupKey)>)
    requires AllJustified(l, retention, es, d)
    ensures AllJustified(l, retention, es + [e], d)
  {
    hide CutOff;
    hide ForgottenAt;
    hide ConfirmedAt;
    forall drop <- l.dropped ensures Justified(drop, retention, es + [e], d) {
      assert Justified(drop, retention, es, d);
      if drop.reason == Reconnected {
        CutOffLater(es, e, drop.msg);
      } else if drop.reason == Forgotten {
        var k :| ForgottenAt(retention, es, k, drop.msg);
        ForgottenLater(retention, es, e, k, drop.msg);
      } else if drop.reason == SameHash {
        var k :| ConfirmedAt(retention, es, k, drop.msg);
        ConfirmedLater(retention, es, e, k, drop.msg);
      }
    }
  }

  lemma {:induction false} RunCount(retention: nat, es: seq<Event>)
    ensures Run(retention, es).state.lastCount == LastCount(es)
  {
    if es != [] {
      StepCount(Run(retention, Front(es)).state, Last(es));
    }
  }

  lemma SettleHolds(l: Ledger, obs: Observation, slot: nat, msg: Message)
    ensures forall m <- LedgerSettle(l, obs, slot, msg).held :: m in l.held || m == msg
  {
  }

  lemma RetainHolds(l: Ledger, w: Window)
    ensures forall m <- LedgerRetain(l, w).held :: m in l.held
  {
  }

  /** A step holds back what was held, if there was no reconnect, and perhaps its own message. */
  lemma StepHolds(s: LayerState, l: Ledger, e: Event)
    ensures forall m <- LedgerStep(s, l, e).held :: (m in l.held && e.count == s.lastCount) || m == e.msg
  {
    var l1 := LedgerResume(l, e.count != s.lastCount);
    if ExtractKey(e.msg).Some? {
      var (slot, key) := ExtractKey(e.msg).value;
      var (w, obs) := Observe(Resume(s, e.count).window, slot, key);
      hide Observe;
      RetainHolds(l1, w);
      SettleHolds(LedgerRetain(l1, w), obs, slot, e.msg);
      hide LedgerSettle;
      hide LedgerRetain;
    }
  }

  /** What is held came on the live connection. */
  lemma {:induction false} HeldCameLive(retention: nat, es: seq<Event>)
    ensures forall m <- LedgerRun(retention, es).held :: CameLive(es, m)
  {
    if es != [] {
      var front, e := Front(es), Last(es);
      assert es == front + [e];
      HeldCameLive(retention, front);
      RunCount(retention, front);
      StepHolds(Run(retention, front).state, LedgerRun(retention, front), e);
      hide LedgerStep;
      forall m <- LedgerRun(retention, es).held ensures CameLive(es, m) {
        CutOffLater(front, e, m);
      }
    }
  }

  lemma ResumeJustified(retention: nat, es: seq<Event>, e: Event, d: set<(nat, DedupKey)>)
    requires AllJustified(LedgerRun(retention, es), retention, es + [e], d)
    ensures AllJustified(LedgerResume(LedgerRun(retention, es), e.count != Run(retention, es).state.lastCount),
                         retention, es + [e], d)
  {
    HeldCameLive(retention, es);
    RunCount(retention, es);
    hide CutOff;
    hide CameLive;
    hide ForgottenAt;
    forall m <- LedgerRun(retention, es).held ensures e.count != LastCount(es) ==> CutOff(es + [e], m) {
      CutOffLater(es, e, m);
    }
  }

  /** Quarantined messages whose slot the step puts out of the window are forgotten with this step. */
  lemma ForgottenNow(retention: nat, es: seq<Event>, e: Event)
    requires ExtractKey(e.msg).Some?
    ensures var s := Run(retention, es).state;
            var (slot, key) := ExtractKey(e.msg).value;
            var w := Observe(Resume(s, e.count).window, slot, key).0;
            var l := LedgerResume(LedgerRun(retention, es), e.count != s.lastCount);
            forall m <- ForgottenPart(l.held, w) :: ForgottenAt(retention, es + [e], |es|, m)
  {
    var s := Run(retention, es).state;
    var (slot, key) := ExtractKey(e.msg).value;
    var w := Observe(Resume(s, e.count).window, slot, key).0;
    var l := LedgerResume(LedgerRun(retention, es), e.count != s.lastCount);
    var all := es + [e];
    assert all[..|es|] == es && all[..|es| + 1] == all;
    RunAppend(retention, es, e);
    assert Run(retention, all).state.window == w;
    HeldCameLive(retention, es);
    HeldIsTracked(retention, es);
    hide Run;
    hide LedgerRun;
    hide Observe;
    hide Tracked;
    forall m <- ForgottenPart(l.held, w) ensures ForgottenAt(retention, all, |es|, m) {
      LiveCame(es, m);
    }
  }

  lemma LiveCame(es: seq<Event>, m: Message)
    requires CameLive(es, m)
    ensures exists e <- es :: e.msg == m
  {
  }

  lemma HeldIsTracked(retention: nat, es: seq<Event>)
    ensures forall m <- LedgerRun(retention, es).held :: Tracked(Run(retention, es).state.window, m)
  {
    var s, held := Run(retention, es).state, LedgerRun(retention, es).held;
    RunWellFormed(retention, es);
    LedgerAgrees(retention, es);
    hide Run;
    hide LedgerRun;
    forall m <- held ensures Tracked(s.window, m) {
      var t := ExtractKey(m).value.0;
      assert m in SlotPart(held, t);
      assert t in s.quarantine;
    }
  }

  /** What is held of a slot when its replay is confirmed was confirmed by this BlockMeta, which too is
      dropped. */
  lemma ConfirmedNow(retention: nat, es: seq<Event>, e: Event, slot: nat, m: Message)
    requires IsMetaOf(e.msg, slot) && slot in Run(retention, es).state.window.sealed
    requires Run(retention, es).state.window.sealed[slot].blockhash == Some(ExtractKey(e.msg).value.1.blockhash)
    requires m == e.msg || (IsPayloadOf(m, slot) && CameLive(es, m))
    ensures ConfirmedAt(retention, es + [e], |es|, m)
  {
    assert (es + [e])[..|es|] == es;
    VerdictMemory(retention, es, slot);
    hide Run;
    if m != e.msg {
      LiveCame(es, m);
    }
  }

  lemma ConfirmedMeansSealed(w: Window, slot: nat, key: DedupKey)
    requires Observe(w, slot, key).1 == ReplayComplete(true) && key.BlockMeta?
    ensures slot in w.sealed && w.sealed[slot].blockhash == Some(key.blockhash)
  {
  }

  /** Everything that the step drops as confirmed was. */
  lemma StepConfirms(retention: nat, es: seq<Event>, e: Event)
    requires ExtractKey(e.msg).Some?
    ensures var s := Run(retention, es).state;
            var (slot, key) := ExtractKey(e.msg).value;
            var (w, obs) := Observe(Resume(s, e.count).window, slot, key);
            var l := LedgerRetain(LedgerResume(LedgerRun(retention, es), e.count != s.lastCount), w);
            obs == ReplayComplete(true) && key.BlockMeta?
            && (forall m <- SlotPart(l.held, slot) :: IsPayloadOf(m, slot)) ==>
              forall m | m in SlotPart(l.held, slot) || m == e.msg :: ConfirmedAt(retention, es + [e], |es|, m)
  {
    var s := Run(retention, es).state;
    var (slot, key) := ExtractKey(e.msg).value;
    var (w, obs) := Observe(Resume(s, e.count).window, slot, key);
    var l1 := LedgerResume(LedgerRun(retention, es), e.count != s.lastCount);
    var held := SlotPart(LedgerRetain(l1, w).held, slot);
    if obs == ReplayComplete(true) && key.BlockMeta? && (forall m <- held :: IsPayloadOf(m, slot)) {
      ConfirmedMeansSealed(Resume(s, e.count).window, slot, key);
      HeldCameLive(retention, es);
      RetainHolds(l1, w);
      hide Observe;
      hide Run;
      hide LedgerRun;
      hide LedgerRetain;
      hide CameLive;
      hide ConfirmedAt;
      forall m | m in held || m == e.msg ensures ConfirmedAt(retention, es + [e], |es|, m) {
        ConfirmedNow(retention, es, e, slot, m);
      }
    }
  }

  lemma RetainJustified(l: Ledger, w: Window, retention: nat, es: seq<Event>, k: nat, d: set<(nat, DedupKey)>)
    requires AllJustified(l, retention, es, d)
    requires forall m <- ForgottenPart(l.held, w) :: ForgottenAt(retention, es, k, m)
    ensures AllJustified(LedgerRetain(l, w), retention, es, d)
  {
    hide ForgottenPart;
    hide ForgottenAt;
    var gone := ForgottenPart(l.held, w);
    forall drop <- LedgerRetain(l, w).dropped ensures Justified(drop, retention, es, d) {
      if drop in l.dropped {
        assert Justified(drop, retention, es, d);
      } else {
        assert drop in Drops(gone, Forgotten);
        assert drop.msg in gone;
      }
    }
  }

  lemma SettleJustified(q: map<nat, seq<Message>>, l: Ledger, obs: Observation, slot: nat, msg: Message,
                        retention: nat, es: seq<Event>, k: nat, d: set<(nat, DedupKey)>)
    requires AllJustified(l, retention, es, d) && Agrees(q, l.held) && OfSlot(msg, slot)
    requires forall m <- SlotPart(l.held, slot) :: IsPayloadOf(m, slot)
    requires obs == Duplicate ==> ExtractKey(msg).value in d
    requires obs == ReplayComplete(true) ==>
               forall m | m in SlotPart(l.held, slot) || m == msg :: ConfirmedAt(retention, es, k, m)
    requires obs.PartialReplayComplete? ==> forall key <- obs.keys :: (slot, key) in d
    ensures AllJustified(LedgerSettle(l, obs, slot, msg), retention, es, d + Pairs(Settle(q, obs, slot, msg).1))
  {
    var d' := d + Pairs(Settle(q, obs, slot, msg).1);
    var held := SlotPart(l.held, slot);
    hide ConfirmedAt;
    hide ForgottenAt;
    hide CutOff;
    assert Held(q, slot) == held;
    forall drop <- LedgerSettle(l, obs, slot, msg).dropped ensures Justified(drop, retention, es, d') {
      if drop in l.dropped {
        assert Justified(drop, retention, es, d);
      } else if obs == ReplayComplete(true) {
        assert drop in Drops(held + [msg], SameHash);
        assert drop.msg in held || drop.msg == msg;
        assert ConfirmedAt(retention, es, k, drop.msg);
      } else if obs.PartialReplayComplete? {
        ReconciledPairs(held, obs.keys, slot, d);
        PairsAppend(Reconciled(held, obs.keys), [msg]);
      }
    }
  }

  lemma HeldIsPayload(q: map<nat, seq<Message>>, held: seq<Message>, slot: nat)
    requires Agrees(q, held) && QuarantineIsPayload(q)
    ensures forall m <- SlotPart(held, slot) :: IsPayloadOf(m, slot)
  {
    assert Held(q, slot) == SlotPart(held, slot);
  }

  lemma StepKnown(s: LayerState, e: Event, d: set<(nat, DedupKey)>)
    requires Known(s.window, d)
    ensures Known(Step(s, e).state.window, d + Pairs(Step(s, e).out))
  {
    var s1 := Resume(s, e.count);
    assert Known(s1.window, d);
    if ExtractKey(e.msg).Some? {
      var (slot, key) := ExtractKey(e.msg).value;
      var (w, obs) := Observe(s1.window, slot, key);
      var out := Settle(Retained(s1.quarantine, w), obs, slot, e.msg).1;
      hide Known;
      hide Observe;
      ObserveKnown(s1.window, slot, key, d);
      if !obs.Replay? && obs != Duplicate && obs != ReplayComplete(true) {
        SettledPairs(Retained(s1.quarantine, w), obs, slot, e.msg);
      }
      hide Settle;
      hide Pairs;
      KnownMore(w, if obs.Replay? then d else d + {(slot, key)}, d + Pairs(out));
    } else {
      KnownMore(s1.window, d, d + Pairs(Step(s, e).out));
    }
  }

  lemma SettledPairs(q: map<nat, seq<Message>>, obs: Observation, slot: nat, msg: Message)
    requires ExtractKey(msg).Some? && !obs.Replay? && obs != Duplicate && obs != ReplayComplete(true)
    ensures ExtractKey(msg).value in Pairs(Settle(q, obs, slot, msg).1)
  {
    hide Pairs;
    hide ExtractKey;
    hide Held;
    hide Reconciled;
    match obs {
      case New =>
        assert [] + [msg] == [msg];
        PairsSnoc([], msg);
      case ReplayComplete(_) => PairsSnoc(Held(q, slot), msg);
      case PartialReplayComplete(keys) => PairsSnoc(Reconciled(Held(q, slot), keys), msg);
      case _ =>
    }
  }

  lemma KnownMore(w: Window, d: set<(nat, DedupKey)>, d': set<(nat, DedupKey)>)
    requires Known(w, d) && d <= d'
    ensures Known(w, d')
  {
  }

  lemma StepJustified(retention: nat, es: seq<Event>, e: Event, d: set<(nat, DedupKey)>)
    requires Known(Run(retention, es).state.window, d)
    requires AllJustified(LedgerRun(retention, es), retention, es, d)
    ensures AllJustified(LedgerStep(Run(retention, es).state, LedgerRun(retention, es), e), retention, es + [e],
                         d + Pairs(Step(Run(retention, es).state, e).out))
  {
    var s := Run(retention, es).state;
    var l := LedgerRun(retention, es);
    var all := es + [e];
    var s1 := Resume(s, e.count);
    var l1 := LedgerResume(l, e.count != s.lastCount);
    var d' := d + Pairs(Step(s, e).out);
    JustifiedLater(l, retention, es, e, d);
    ResumeJustified(retention, es, e, d);
    LedgerAgrees(retention, es);
    RunQuarantineIsPayload(retention, es);
    if ExtractKey(e.msg).Some? {
      var (slot, key) := ExtractKey(e.msg).value;
      var (w, obs) := Observe(s1.window, slot, key);
      var q := Retained(s1.quarantine, w);
      ForgottenNow(retention, es, e);
      assert Known(s1.window, d);
      ObserveKnown(s1.window, slot, key, d);
      RetainJustified(l1, w, retention, all, |es|, d);
      RetainAgrees(s1.quarantine, l1, w);
      HeldIsPayload(q, LedgerRetain(l1, w).held, slot);
      StepConfirms(retention, es, e);
      SettleJustified(q, LedgerRetain(l1, w), obs, slot, e.msg, retention, all, |es|, d);
    } else {
      JustifiedMore(l1, retention, all, d, d');
    }
  }

  lemma JustifiedMore(l: Ledger, retention: nat, es: seq<Event>, d: set<(nat, DedupKey)>, d': set<(nat, DedupKey)>)
    requires AllJustified(l, retention, es, d) && d <= d'
    ensures AllJustified(l, retention, es, d')
  {
    forall drop <- l.dropped ensures Justified(drop, retention, es, d') {
      assert Justified(drop, retention, es, d);
    }
  }

  lemma NothingDropped(retention: nat)
    ensures AllJustified(LedgerRun(retention, []), retention, [], Pairs(Run(retention, []).out))
    ensures Known(Run(retention, []).state.window, Pairs(Run(retention, []).out))
  {
  }

  /** In every run each dropped message was dropped for a reason that holds. */
  lemma {:induction false} DropsAreJustified(retention: nat, es: seq<Event>)
    ensures AllJustified(LedgerRun(retention, es), retention, es, Pairs(Run(retention, es).out))
    ensures Known(Run(retention, es).state.window, Pairs(Run(retention, es).out))
  {
    if es == [] {
      NothingDropped(retention);
    } else {
      var front, e := Front(es), Last(es);
      assert es == front + [e];
      hide *;
      DropsAreJustified(retention, front);
      DropsStayJustified(retention, front, e);
    }
  }

  lemma DropsStayJustified(retention: nat, es: seq<Event>, e: Event)
    requires AllJustified(LedgerRun(retention, es), retention, es, Pairs(Run(retention, es).out))
    requires Known(Run(retention, es).state.window, Pairs(Run(retention, es).out))
    ensures var all := es + [e];
            && AllJustified(LedgerRun(retention, all), retention, all, Pairs(Run(retention, all).out))
            && Known(Run(retention, all).state.window, Pairs(Run(retention, all).out))
  {
    hide Step;
    hide LedgerStep;
    hide AllJustified;
    hide Known;
    hide Pairs;
    var r := Run(retention, es);
    RunAppend(retention, es, e);
    assert LedgerRun(retention, es + [e]) == LedgerStep(r.state, LedgerRun(retention, es), e) by {
      assert Front(es + [e]) == es;
    }
    PairsAppend(r.out, Step(r.state, e).out);
    StepKnown(r.state, e, Pairs(r.out));
    StepJustified(retention, es, e, Pairs(r.out));
  }

  lemma StaysTracked(retention: nat, es: seq<Event>, e: Event, slot: nat, f: nat)
    requires f <= |es| && !Named(es[..f], slot) && |SlotsOf(es[f..] + [e])| <= retention
    requires Run(retention, es).state.window.Tracks(slot)
    ensures Run(retention, es + [e]).state.window.Tracks(slot)
  {
    var all := es + [e];
    assert all[f..] == es[f..] + [e] && all[..f] == es[..f];
    SlotsOfSnoc(es[f..], e);
    SubsetCardinality(SlotsOf(es[f..]), SlotsOf(es[f..] + [e]));
    KnownIsTracked(Run(retention, es).state, slot);
    KnownIsTracked(Run(retention, all).state, slot);
    hide *;
    SlotIsIndependent(retention, es, slot, f);
    SlotIsIndependent(retention, all, slot, f);
    StaysKnown(es, e, slot);
  }

  /** No slot is put out of the window before more slots than it retains were named, counted from the
      slot's first message. */
  lemma OnlyAFullWindowForgets(retention: nat, es: seq<Event>, e: Event, slot: nat, f: nat)
    requires f <= |es| && !Named(es[..f], slot)
    requires Run(retention, es).state.window.Tracks(slot) && !Run(retention, es + [e]).state.window.Tracks(slot)
    ensures |SlotsOf(es[f..] + [e])| > retention
  {
    if |SlotsOf(es[f..] + [e])| <= retention {
      StaysTracked(retention, es, e, slot, f);
    }
  }

  lemma StaysKnown(es: seq<Event>, e: Event, slot: nat)
    requires !SlotRun(es, slot).view.phase.Absent?
    ensures !SlotRun(es + [e], slot).view.phase.Absent?
  {
    SlotRunAppend(es, e, slot);
    hide SlotRun;
  }

  lemma ForgottenCame(retention: nat, es: seq<Event>, k: nat, m: Message, slot: nat, f: nat)
    requires ForgottenAt(retention, es, k, m) && OfSlot(m, slot)
    requires f <= |es| && !Named(es[..f], slot)
    ensures f <= k < |es|
  {
    NotNamedBefore(es, slot, f);
    var i :| 0 <= i < k && es[..k][i].msg == m;
    assert OfSlot(es[i].msg, slot);
    hide OfSlot;
    hide Run;
    hide Tracked;
    hide Named;
  }

  /** A forgotten message of the slot came before more slots were named than the window retains. */
  lemma ForgottenNeedsRoom(retention: nat, es: seq<Event>, k: nat, m: Message, slot: nat, f: nat)
    requires ForgottenAt(retention, es, k, m) && OfSlot(m, slot)
    requires f <= |es| && !Named(es[..f], slot)
    ensures |SlotsOf(es[f..])| > retention
  {
    hide *;
    ForgottenCame(retention, es, k, m, slot, f);
    var part := es[..k];
    PartsOf(es, f, k);
    WindowForgot(retention, part, es[k], es, k, m, slot);
    OnlyAFullWindowForgets(retention, part, es[k], slot, f);
    SlotsOfPart(part[f..] + [es[k]], es[f..]);
    SubsetCardinality(SlotsOf(part[f..] + [es[k]]), SlotsOf(es[f..]));
  }

  lemma PartsOf<T>(s: seq<T>, f: nat, k: nat)
    requires f <= k < |s|
    ensures s[..k][..f] == s[..f] && s[..k + 1] == s[..k] + [s[k]]
    ensures forall x <- s[..k][f..] + [s[k]] :: x in s[f..]
  {
    assert s[..k][f..] + [s[k]] == s[f..][..k + 1 - f];
  }

  lemma WindowForgot(retention: nat, part: seq<Event>, e: Event, es: seq<Event>, k: nat, m: Message, slot: nat)
    requires ForgottenAt(retention, es, k, m) && OfSlot(m, slot) && part == es[..k] && part + [e] == es[..k + 1]
    ensures Run(retention, part).state.window.Tracks(slot) && !Run(retention, part + [e]).state.window.Tracks(slot)
  {
    hide Run;
  }

  /** While a slot has its place in the window, nothing of it is dropped as forgotten. */
  lemma NothingForgotten(retention: nat, es: seq<Event>, slot: nat, f: nat)
    requires f <= |es| && !Named(es[..f], slot) && |SlotsOf(es[f..])| <= retention
    ensures forall drop <- LedgerRun(retention, es).dropped :: drop.reason == Forgotten ==> !OfSlot(drop.msg, slot)
  {
    DropsAreJustified(retention, es);
    hide Run;
    hide LedgerRun;
    hide Known;
    hide ForgottenAt;
    hide SlotsOf;
    forall drop <- LedgerRun(retention, es).dropped | drop.reason == Forgotten ensures !OfSlot(drop.msg, slot) {
      assert Justified(drop, retention, es, Pairs(Run(retention, es).out));
      var k :| ForgottenAt(retention, es, k, drop.msg);
      if OfSlot(drop.msg, slot) {
        ForgottenNeedsRoom(retention, es, k, drop.msg, slot, f);
        assert false;
      }
    }
  }

  /** Messages without a key are handed out at once, whatever came before. */
  lemma KeylessPasses(retention: nat, es: seq<Event>, e: Event)
    requires IsKeyless(e.msg)
    ensures Run(retention, es + [e]).out == Run(retention, es).out + [e.msg]
  {
    KeysAreExact(e.msg, e.msg);
    RunAppend(retention, es, e);
    hide ExtractKey;
    hide Run;
  }

  lemma {:induction false} PairOnOutput(out: seq<Message>, pair: (nat, DedupKey)) returns (m: Message)
    requires pair in Pairs(out)
    ensures m in out && ExtractKey(m) == Some(pair)
  {
    m := Last(out);
    if ExtractKey(m) != Some(pair) {
      m := PairOnOutput(Front(out), pair);
    }
    assert out == Front(out) + [Last(out)];
  }

  /** Only the same message suppresses a message: in every run, what is dropped as repeated is of the same
      kind as a message on the output, of the same slot, and agrees with it on what identifies that kind. */
  lemma RepeatIsTheSame(retention: nat, es: seq<Event>, drop: Drop) returns (m: Message)
    requires drop in LedgerRun(retention, es).dropped && drop.reason == RepeatedKey
    ensures m in Run(retention, es).out && !IsKeyless(m) && !IsKeyless(drop.msg) && SameMessage(m, drop.msg)
  {
    DropsAreJustified(retention, es);
    hide Run;
    hide LedgerRun;
    hide Known;
    assert Justified(drop, retention, es, Pairs(Run(retention, es).out));
    m := PairOnOutput(Run(retention, es).out, ExtractKey(drop.msg).value);
    hide Pairs;
    KeysAreExact(m, drop.msg);
    KeysAreExact(drop.msg, m);
  }
}
