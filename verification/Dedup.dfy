/** The client's replay layer in the form in which it runs: a slot window, a quarantine with a
    flush queue, and the stream that polls its inner stream through both. */
module Dedup {
  import opened Collections
  import opened Protocol
  import opened DedupModel

  class DedupState {
    var inflight: map<nat, SlotState>
    var sealed: map<nat, SealedSlot>
    var slotOrder: seq<nat>
    var slotRetention: nat

    function Value(): Window
      reads this
    {
      Window(inflight, sealed, slotOrder, slotRetention)
    }

    constructor WithSlotRetention(slotRetention: nat)
      ensures Value() == Initial(slotRetention).window
    {
      inflight, sealed, slotOrder := map[], map[], [];
      this.slotRetention := slotRetention;
    }

    /** Makes sure that `slot` has an entry in `inflight`. */
    method SlotEntry(slot: nat)
      modifies this
      ensures Value() == SlotMut(old(Value()), slot)
    {
      if slot !in inflight && slot !in sealed {
        slotOrder := slotOrder + [slot];
      }
      if slot !in inflight {
        inflight := inflight[slot := FRESH_SLOT];
      }
    }

    method PruneWindow()
      modifies this
      ensures Value() == Prune(old(Value()))
    {
      ghost var order := slotOrder;
      ghost var k := 0;
      while |slotOrder| > slotRetention
        invariant slotRetention == old(slotRetention)
        invariant 0 <= k <= |order| && slotOrder == order[k..]
        invariant k > 0 ==> |order| - k >= slotRetention
        invariant inflight == old(inflight) - Elements(order[..k])
        invariant sealed == old(sealed) - Elements(order[..k])
      {
        var slot := slotOrder[0];
        assert Elements(order[..k + 1]) == Elements(order[..k]) + {slot} by {
          assert order[..k + 1] == order[..k] + [slot];
        }
        slotOrder := slotOrder[1..];
        inflight := inflight - {slot};
        sealed := sealed - {slot};
        k := k + 1;
      }
    }

    method Clear(slot: nat)
      modifies this
      ensures Value() == ClearSlot(old(Value()), slot)
    {
      inflight := inflight - {slot};
      sealed := sealed - {slot};
      slotOrder := Filter(slotOrder, x => x != slot);
    }

    method MarkReplaying()
      modifies this
      ensures Value() == PrepareForReplay(old(Value()))
    {
      var todo := inflight.Keys;
      while todo != {}
        invariant sealed == old(sealed) && slotOrder == old(slotOrder) && slotRetention == old(slotRetention)
        invariant todo <= inflight.Keys == old(inflight.Keys)
        invariant forall s | s in inflight ::
          inflight[s] == if s in todo then old(inflight[s]) else old(inflight[s]).(replaying := true)
      {
        var slot :| slot in todo;
        inflight := inflight[slot := inflight[slot].(replaying := true)];
        todo := todo - {slot};
      }
    }

    method ObserveMessage(slot: nat, key: DedupKey) returns (observation: Observation)
      modifies this
      ensures (Value(), observation) == Observe(old(Value()), slot, key)
    {
      match key {
        case Slot(status) =>
          if status == SLOT_CREATED_BANK {
            if !(slot in inflight && inflight[slot].replaying) {
              Clear(slot);
            }
          }
          if slot in sealed {
            var s := sealed[slot];
            if status in s.statuses {
              return Duplicate;
            }
            sealed := sealed[slot := s.(statuses := s.statuses + {status})];
            return New;
          }
          SlotEntry(slot);
          var s := inflight[slot];
          if status in s.statuses {
            return Duplicate;
          }
          inflight := inflight[slot := s.(statuses := s.statuses + {status})];
          PruneWindow();
          return New;
        case BlockMeta(blockhash) =>
          if slot in sealed {
            var same := sealed[slot].blockhash == Some(blockhash);
            sealed := sealed[slot := sealed[slot].(blockhash := Some(blockhash))];
            return ReplayComplete(same);
          }
          var state := if slot in inflight then inflight[slot] else FRESH_SLOT;
          inflight := inflight - {slot};
          sealed := sealed[slot := SealedSlot(Some(blockhash), state.statuses)];
          PruneWindow();
          if state.replaying {
            return PartialReplayComplete(state.keys);
          }
          return New;
        case _ =>
          if slot in sealed || (slot in inflight && inflight[slot].replaying) {
            return Replay;
          }
          SlotEntry(slot);
          var s := inflight[slot];
          if key in s.keys {
            return Duplicate;
          }
          inflight := inflight[slot := s.(keys := s.keys + {key})];
          PruneWindow();
          return New;
      }
    }
  }

  class ReplayBuffer {
    var quarantine: map<nat, seq<Message>>
    var flushQueue: seq<Message>

    constructor ()
      ensures quarantine == map[] && flushQueue == []
    {
      quarantine, flushQueue := map[], [];
    }

    method Hold(slot: nat, msg: Message)
      modifies this`quarantine
      ensures quarantine == old(quarantine)[slot := Held(old(quarantine), slot) + [msg]]
    {
      if slot !in quarantine {
        quarantine := quarantine[slot := []];
      }
      quarantine := quarantine[slot := quarantine[slot] + [msg]];
    }

    method PrepareForReplay()
      modifies this`quarantine
      ensures quarantine == map[]
    {
      quarantine := map[];
    }

    method PruneTo(state: DedupState)
      modifies this`quarantine
      ensures quarantine == Retained(old(quarantine), state.Value())
    {
      quarantine := map s | s in quarantine && (s in state.inflight || s in state.sealed) :: quarantine[s];
    }

    method Flush(slot: nat, blockmeta: Message)
      modifies this
      ensures flushQueue == old(flushQueue) + (Held(old(quarantine), slot) + [blockmeta])
      ensures quarantine == old(quarantine) - {slot}
    {
      if slot in quarantine {
        flushQueue := flushQueue + quarantine[slot];
        quarantine := quarantine - {slot};
      }
      flushQueue := flushQueue + [blockmeta];
    }

    method Discard(slot: nat)
      modifies this`quarantine
      ensures quarantine == old(quarantine) - {slot}
    {
      quarantine := quarantine - {slot};
    }

    method Reconcile(slot: nat, delivered: set<DedupKey>, blockmeta: Message)
      modifies this
      ensures flushQueue == old(flushQueue) + (Reconciled(Held(old(quarantine), slot), delivered) + [blockmeta])
      ensures quarantine == old(quarantine) - {slot}
    {
      var keys := delivered;
      if slot in quarantine {
        var buffered := quarantine[slot];
        quarantine := quarantine - {slot};
        for i := 0 to |buffered|
          invariant quarantine == old(quarantine) - {slot}
          invariant keys == ReconciledKeys(buffered[..i], delivered)
          invariant flushQueue == old(flushQueue) + Reconciled(buffered[..i], delivered)
        {
          assert Front(buffered[..i + 1]) == buffered[..i] && Last(buffered[..i + 1]) == buffered[i];
          var key := ExtractKey(buffered[i]);
          if key.None? || key.value.1 !in keys {
            flushQueue := flushQueue + [buffered[i]];
          }
          if key.Some? {
            keys := keys + {key.value.1};
          }
        }
        assert buffered[..|buffered|] == buffered;
      }
      flushQueue := flushQueue + [blockmeta];
    }

    method DrainNext() returns (msg: Option<Message>)
      modifies this`flushQueue
      ensures old(flushQueue) == [] ==> msg == None && flushQueue == []
      ensures old(flushQueue) != [] ==> msg == Some(old(flushQueue)[0]) && flushQueue == old(flushQueue)[1..]
    {
      if flushQueue == [] {
        return None;
      }
      msg := Some(flushQueue[0]);
      flushQueue := flushQueue[1..];
    }
  }

  /** What one poll of a stream answers. */
  datatype Poll =
    | Item(event: Event)
    | Failed(code: nat)
    | Ended
    | Pending

  /** The messages among the answers of the inner stream. */
  function Items(polls: seq<Poll>): seq<Event> {
    if polls == [] then []
    else Items(Front(polls)) + if Last(polls).Item? then [Last(polls).event] else []
  }

  /** `inner` is what the wrapped stream will answer to the polls to come; once it has run out the
      wrapped stream is pending. `pulled` and `delivered` record the run. */
  class DedupStream {
    const state: DedupState
    const replay: ReplayBuffer
    var inner: seq<Poll>
    var lastReconnectCount: nat
    ghost const retention: nat
    ghost var pulled: seq<Event>
    ghost var delivered: seq<Message>

    function Value(): LayerState
      reads this, state, replay
    {
      LayerState(state.Value(), replay.quarantine, lastReconnectCount)
    }

    ghost predicate Valid()
      reads this, state, replay
    {
      Run(retention, pulled) == StepResult(Value(), delivered + replay.flushQueue)
    }

    /** Everything that the messages make deliverable has been handed out. */
    ghost predicate NothingQueued(messages: seq<Event>, handedOut: seq<Message>) {
      Run(retention, messages).out == handedOut
    }

    constructor (inner: seq<Poll>, slotRetention: nat)
      ensures Valid() && fresh(state) && fresh(replay)
      ensures this.inner == inner && retention == slotRetention && pulled == [] && delivered == []
    {
      state := new DedupState.WithSlotRetention(slotRetention);
      replay := new ReplayBuffer();
      this.inner := inner;
      lastReconnectCount := 0;
      retention, pulled, delivered := slotRetention, [], [];
    }

    /** Settles a keyed message. What must be handed out at once is returned; everything else that
        becomes deliverable is in the flush queue. */
    method AcceptKeyed(slot: nat, key: DedupKey, msg: Message) returns (now: seq<Message>)
      requires ExtractKey(msg) == Some((slot, key)) && replay.flushQueue == []
      modifies state, replay
      ensures var (w, obs) := Observe(old(state.Value()), slot, key);
              && state.Value() == w
              && (replay.quarantine, now + replay.flushQueue) ==
                 Settle(Retained(old(replay.quarantine), w), obs, slot, msg)
      ensures |now| <= 1 && (now != [] ==> replay.flushQueue == [])
    {
      now := [];
      var observation := state.ObserveMessage(slot, key);
      replay.PruneTo(state);
      match observation {
        case New => now := [msg];
        case Duplicate =>
        case Replay => replay.Hold(slot, msg);
        case ReplayComplete(same) =>
          if same {
            replay.Discard(slot);
          } else {
            replay.Flush(slot, msg);
          }
        case PartialReplayComplete(keys) => replay.Reconcile(slot, keys, msg);
      }
      assert forall s: seq<Message> :: [] + s == s && s + [] == s;
    }

    /** Takes one pulled message through the layer. */
    method Accept(event: Event) returns (now: seq<Message>)
      requires replay.flushQueue == []
      modifies this`lastReconnectCount, state, replay
      ensures StepResult(Value(), now + replay.flushQueue) == Step(old(Value()), event)
      ensures |now| <= 1 && (now != [] ==> replay.flushQueue == [])
    {
      var msg := event.msg;
      if event.count != lastReconnectCount {
        replay.PrepareForReplay();
        state.MarkReplaying();
        lastReconnectCount := event.count;
      }
      assert Value() == Resume(old(Value()), event.count);
      match ExtractKey(msg) {
        case None =>
          now := [msg];
          assert now + replay.flushQueue == now;
        case Some((slot, key)) => now := AcceptKeyed(slot, key, msg);
      }
    }

    /** Hands out the front of the flush queue, if there is one. */
    method DrainFlushed() returns (msg: Option<Message>)
      requires Valid()
      modifies this`delivered, replay`flushQueue
      ensures Valid()
      ensures msg.Some? ==> delivered == old(delivered) + [msg.value]
      ensures msg.None? ==> replay.flushQueue == [] && delivered == old(delivered)
    {
      ghost var pending := replay.flushQueue;
      msg := replay.DrainNext();
      if msg.Some? {
        assert delivered + pending == delivered + [msg.value] + replay.flushQueue;
        delivered := delivered + [msg.value];
      }
    }

    /** Takes one message that the inner stream answered. */
    method Pull(event: Event) returns (msg: Option<Message>)
      requires Valid() && replay.flushQueue == []
      modifies this`lastReconnectCount, this`pulled, this`delivered, state, replay
      ensures Valid()
      ensures pulled == old(pulled) + [event]
      ensures msg.Some? ==> delivered == old(delivered) + [msg.value]
      ensures msg.None? ==> delivered == old(delivered)
    {
      hide Step;
      RunAppend(retention, pulled, event);
      assert delivered + replay.flushQueue == delivered;
      var now := Accept(event);
      pulled := pulled + [event];
      assert delivered + (now + replay.flushQueue) == delivered + now + replay.flushQueue;
      delivered := delivered + now;
      msg := if now == [] then None else Some(now[0]);
    }

    /** The poll that users call. It takes `used` answers from the inner stream, which are all
        messages except perhaps the last, and at each of these polls the flush queue was empty. */
    method PollNext() returns (r: Poll, ghost used: nat)
      requires Valid()
      modifies this`inner, this`lastReconnectCount, this`pulled, this`delivered, state, replay
      ensures Valid()
      ensures used <= |old(inner)| && inner == old(inner)[used..]
      ensures pulled == old(pulled) + Items(old(inner)[..used])
      ensures forall k | 0 <= k < used :: NothingQueued(old(pulled) + Items(old(inner)[..k]), old(delivered))
      ensures r.Item? ==> delivered == old(delivered) + [r.event.msg]
      ensures !r.Item? ==> delivered == old(delivered) && replay.flushQueue == []
      ensures !r.Item? ==> if used == 0 || old(inner)[used - 1].Item? then used == |old(inner)| && r == Pending
                           else r == old(inner)[used - 1]
    {
      hide Run;
      used := 0;
      while true
        invariant Valid() && delivered == old(delivered)
        invariant used <= |old(inner)| && inner == old(inner)[used..]
        invariant pulled == old(pulled) + Items(old(inner)[..used])
        invariant used > 0 ==> old(inner)[used - 1].Item?
        invariant forall k | 0 <= k < used :: NothingQueued(old(pulled) + Items(old(inner)[..k]), old(delivered))
        decreases |inner|
      {
        var drained := DrainFlushed();
        if drained.Some? {
          return Item(Event(lastReconnectCount, drained.value)), used;
        }
        if inner == [] {
          return Pending, used;
        }
        assert NothingQueued(pulled, delivered);
        var answer := inner[0];
        inner := inner[1..];
        used := used + 1;
        assert Front(old(inner)[..used]) == old(inner)[..used - 1] && Last(old(inner)[..used]) == answer;
        if !answer.Item? {
          return answer, used;
        }
        var msg := Pull(answer.event);
        if msg.Some? {
          return Item(Event(lastReconnectCount, msg.value)), used;
        }
      }
    }
  }
}
