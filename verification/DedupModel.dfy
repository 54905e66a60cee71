/** What the client's replay layer computes, as functions on values.

    `Run` is the whole layer seen as a function of the messages pulled from the wrapped stream;
    module `Dedup` holds the classes that compute it message by message. */
module DedupModel {
  import opened Collections
  import opened Protocol

  datatype Observation =
    | New
    | Duplicate
    | Replay
    | ReplayComplete(same: bool)
    | PartialReplayComplete(keys: set<DedupKey>)

  datatype SlotState = SlotState(keys: set<DedupKey>, replaying: bool, statuses: set<int>)

  const FRESH_SLOT := SlotState({}, false, {})

  datatype SealedSlot = SealedSlot(blockhash: Option<string>, statuses: set<int>)

  datatype Window = Window(inflight: map<nat, SlotState>, sealed: map<nat, SealedSlot>,
                           order: seq<nat>, retention: nat)
  {
    predicate Tracks(slot: nat) {
      slot in inflight || slot in sealed
    }
  }

  function SlotMut(w: Window, slot: nat): Window {
    w.(order := if w.Tracks(slot) then w.order else w.order + [slot],
       inflight := if slot in w.inflight then w.inflight else w.inflight[slot := FRESH_SLOT])
  }

  /** Forgets the oldest slots until the window has its size again. */
  function Prune(w: Window): Window {
    if |w.order| <= w.retention then w
    else
      var gone := Elements(w.order[..|w.order| - w.retention]);
      w.(order := w.order[|w.order| - w.retention..], inflight := w.inflight - gone, sealed := w.sealed - gone)
  }

  function ClearSlot(w: Window, slot: nat): Window {
    w.(inflight := w.inflight - {slot}, sealed := w.sealed - {slot}, order := Filter(w.order, x => x != slot))
  }

  function PrepareForReplay(w: Window): Window {
    w.(inflight := map s | s in w.inflight :: w.inflight[s].(replaying := true))
  }

  predicate Replaying(w: Window, slot: nat) {
    slot in w.inflight && w.inflight[slot].replaying
  }

  /** CreatedBank forgets a slot, unless the slot waits for its replay to be reconciled. */
  function BeforeStatus(w: Window, slot: nat, status: int): Window {
    if status == SLOT_CREATED_BANK && !Replaying(w, slot) then ClearSlot(w, slot) else w
  }

  function RecordStatus(w: Window, slot: nat, status: int): (Window, Observation) {
    if slot in w.sealed then
      var s := w.sealed[slot];
      if status in s.statuses then (w, Duplicate)
      else (w.(sealed := w.sealed[slot := s.(statuses := s.statuses + {status})]), New)
    else
      var w1 := SlotMut(w, slot);
      var s := w1.inflight[slot];
      if status in s.statuses then (w1, Duplicate)
      else (Prune(w1.(inflight := w1.inflight[slot := s.(statuses := s.statuses + {status})])), New)
  }

  function ObserveStatus(w: Window, slot: nat, status: int): (Window, Observation) {
    RecordStatus(BeforeStatus(w, slot, status), slot, status)
  }

  function ObserveBlockMeta(w: Window, slot: nat, blockhash: string): (Window, Observation) {
    if slot in w.sealed then
      var s := w.sealed[slot];
      (w.(sealed := w.sealed[slot := s.(blockhash := Some(blockhash))]),
       ReplayComplete(s.blockhash == Some(blockhash)))
    else
      var s := if slot in w.inflight then w.inflight[slot] else FRESH_SLOT;
      var w1 := w.(inflight := w.inflight - {slot},
                   sealed := w.sealed[slot := SealedSlot(Some(blockhash), s.statuses)]);
      (Prune(w1), if s.replaying then PartialReplayComplete(s.keys) else New)
  }

  function ObservePayload(w: Window, slot: nat, key: DedupKey): (Window, Observation) {
    if slot in w.sealed || Replaying(w, slot) then (w, Replay)
    else
      var w1 := SlotMut(w, slot);
      var s := w1.inflight[slot];
      if key in s.keys then (w1, Duplicate)
      else (Prune(w1.(inflight := w1.inflight[slot := s.(keys := s.keys + {key})])), New)
  }

  function Observe(w: Window, slot: nat, key: DedupKey): (Window, Observation) {
    match key
    case Slot(status) => ObserveStatus(w, slot, status)
    case BlockMeta(blockhash) => ObserveBlockMeta(w, slot, blockhash)
    case _ => ObservePayload(w, slot, key)
  }

  /** One message pulled from the wrapped stream, with the reconnect count seen after the pull. */
  datatype Event = Event(count: nat, msg: Message)

  datatype LayerState = LayerState(window: Window, quarantine: map<nat, seq<Message>>, lastCount: nat)

  datatype StepResult = StepResult(state: LayerState, out: seq<Message>)

  function Held(q: map<nat, seq<Message>>, slot: nat): seq<Message> {
    if slot in q then q[slot] else []
  }

  /** The quarantined messages that bring a key not in `keys` and not brought by an earlier one. */
  function Reconciled(held: seq<Message>, keys: set<DedupKey>): seq<Message> {
    if held == [] then []
    else
      var rest := Reconciled(Front(held), keys);
      var key := ExtractKey(Last(held));
      if key.None? || key.value.1 !in ReconciledKeys(Front(held), keys) then rest + [Last(held)] else rest
  }

  function ReconciledKeys(held: seq<Message>, keys: set<DedupKey>): set<DedupKey> {
    if held == [] then keys
    else
      var key := ExtractKey(Last(held));
      ReconciledKeys(Front(held), keys) + if key.Some? then {key.value.1} else {}
  }

  /** A changed reconnect count starts a new replay: partial quarantines are worthless. */
  function Resume(s: LayerState, count: nat): LayerState {
    if count == s.lastCount then s else LayerState(PrepareForReplay(s.window), map[], count)
  }

  function Retained(q: map<nat, seq<Message>>, w: Window): map<nat, seq<Message>> {
    map s | s in q && w.Tracks(s) :: q[s]
  }

  /** What the observation of `msg` does to the quarantine, and what becomes deliverable. */
  function Settle(q: map<nat, seq<Message>>, obs: Observation, slot: nat, msg: Message)
    : (map<nat, seq<Message>>, seq<Message>)
  {
    match obs
    case New => (q, [msg])
    case Duplicate => (q, [])
    case Replay => (q[slot := Held(q, slot) + [msg]], [])
    case ReplayComplete(same) => (q - {slot}, if same then [] else Held(q, slot) + [msg])
    case PartialReplayComplete(keys) => (q - {slot}, Reconciled(Held(q, slot), keys) + [msg])
  }

  /** The effect of one pulled message on the layer, and the messages it makes deliverable. */
  function Step(s: LayerState, e: Event): StepResult {
    var s1 := Resume(s, e.count);
    match ExtractKey(e.msg)
    case None => StepResult(s1, [e.msg])
    case Some((slot, key)) =>
      var (w, obs) := Observe(s1.window, slot, key);
      var (q, out) := Settle(Retained(s1.quarantine, w), obs, slot, e.msg);
      StepResult(LayerState(w, q, s1.lastCount), out)
  }

  function Initial(retention: nat): LayerState {
    LayerState(Window(map[], map[], [], retention), map[], 0)
  }

  /** The layer after pulling `es`, and everything it has made deliverable. */
  function Run(retention: nat, es: seq<Event>): StepResult {
    if es == [] then StepResult(Initial(retention), [])
    else
      var r := Run(retention, Front(es));
      var t := Step(r.state, Last(es));
      StepResult(t.state, r.out + t.out)
  }

  lemma RunAppend(retention: nat, es: seq<Event>, e: Event)
    ensures var r := Run(retention, es);
            var t := Step(r.state, e);
            Run(retention, es + [e]) == StepResult(t.state, r.out + t.out)
  {
    assert Front(es + [e]) == es;
  }
}
