/** A subscriber's session: it follows one channel, and can ask for a replay when it changes its filter.
    `Session` updates in place what the functions on `Client` say. */
module ClientLoop {
  import opened Collections
  import opened Storage
  import opened Publication
  import opened ReplayHandoff

  datatype Outcome =
    | Open
    | FromSlotUnsupported
    | SlotUnavailable(firstAvailable: nat)
    | ReplayError
    | BroadcastLag
    | ClientChannelFull

  /** The broadcast channels of the three levels, with what the plugin sends to them as well. */
  datatype Channels = Channels(processed: seq<SharedBatch>, confirmed: seq<SharedBatch>, finalized: seq<SharedBatch>) {
    function At(level: CommitmentLevel): seq<SharedBatch> {
      match level
      case Processed => processed
      case Confirmed => confirmed
      case Finalized => finalized
    }
  }

  /** A session: `position` is the batch of its channel that its receiver gets next, `waiting` the slot from
      which it has asked for a replay that is not answered yet, and `replays` says whether the server was
      configured to replay at all. */
  datatype Client = Client(replays: bool, commitment: CommitmentLevel, position: nat, filter: Item -> bool,
                           sent: seq<Item>, outcome: Outcome, waiting: Option<nat>)
  {
    /** The session is not over, and does not wait for an answer. */
    predicate Idle() {
      outcome == Open && waiting.None?
    }
  }

  function Subscribed(replays: bool, commitment: CommitmentLevel, filter: Item -> bool, channelEnd: nat): Client {
    Client(replays, commitment, channelEnd, filter, [], Open, None)
  }

  /** A new filter, at the same or another commitment level, perhaps with a slot to replay from. */
  function Asked(c: Client, commitment: CommitmentLevel, filter: Item -> bool, from: Option<nat>,
                 channelEnd: nat): Client
  {
    c.(commitment := commitment, filter := filter,
       position := if commitment == c.commitment then c.position else channelEnd,
       waiting := if c.replays then from else None,
       outcome := if from.Some? && !c.replays then FromSlotUnsupported else c.outcome)
  }

  function Answered(c: Client, reply: Reply): Client {
    match reply
    case Messages(items) => c.(sent := c.sent + Filter(items, c.filter), waiting := None)
    case Lagged(slot) => c.(outcome := SlotUnavailable(slot), waiting := None)
    case NoReply => c.(outcome := ReplayError, waiting := None)
  }

  /** The receiver's next batch, unless the channel, which keeps `capacity` batches, has overwritten it. The
      client's own channel takes `room` more updates. */
  function Received(c: Client, channel: seq<SharedBatch>, capacity: nat, room: nat): Client
    requires c.position < |channel|
  {
    var items := Filter(channel[c.position].batch, c.filter);
    if |channel| - c.position > capacity then c.(outcome := BroadcastLag)
    else if |items| <= room then c.(sent := c.sent + items, position := c.position + 1)
    else c.(sent := c.sent + items[..room], position := c.position + 1, outcome := ClientChannelFull)
  }

  class Session {
    const capacity: nat
    const replays: bool
    var commitment: CommitmentLevel
    var position: nat
    var filter: Item -> bool
    var sent: seq<Item>
    var outcome: Outcome
    var waiting: Option<nat>

    ghost function Value(): Client
      reads this
    {
      Client(replays, commitment, position, filter, sent, outcome, waiting)
    }

    constructor (capacity: nat, replays: bool, commitment: CommitmentLevel, filter: Item -> bool, channels: Channels)
      ensures this.capacity == capacity
      ensures Value() == Subscribed(replays, commitment, filter, |channels.At(commitment)|)
      ensures position == |channels.At(commitment)| && sent == [] && outcome == Open && waiting == None
    {
      this.capacity, this.replays, this.commitment, this.filter := capacity, replays, commitment, filter;
      position, sent, outcome, waiting := |channels.At(commitment)|, [], Open, None;
    }

    /** Subscribes again when the level changes, and only then asks for the replay. */
    method OnRequest(newCommitment: CommitmentLevel, newFilter: Item -> bool, from: Option<nat>, channels: Channels)
      requires Value().Idle()
      modifies this
      ensures Value() == Asked(old(Value()), newCommitment, newFilter, from, |channels.At(newCommitment)|)
    {
      filter := newFilter;
      if newCommitment != commitment {
        commitment := newCommitment;
        position := |channels.At(commitment)|;
      }
      if from.Some? {
        if !replays {
          outcome := FromSlotUnsupported;
          return;
        }
        waiting := from;
      }
    }

    /** The loop has come to serve the request: sends what it answers, or ends the session. */
    method OnAnswer(reconstruction: ReconstructionLoop)
      requires outcome == Open && waiting.Some? && reconstruction.Valid()
      modifies this
      ensures Value() ==
              Answered(old(Value()), ReplyTo(reconstruction.machine.Value(), old(waiting).value, old(commitment)))
    {
      hide ReplyTo;
      hide Filter;
      hide Buffers;
      hide Announcements;
      hide OwnCollectors;
      var reply := reconstruction.Serve(commitment, waiting.value);
      waiting := None;
      match reply {
        case Messages(items) => sent := sent + Filter(items, filter);
        case Lagged(slot) => outcome := SlotUnavailable(slot);
        case NoReply => outcome := ReplayError;
      }
    }

    method OnBroadcast(channel: seq<SharedBatch>, room: nat)
      requires Value().Idle() && position < |channel|
      modifies this
      ensures Value() == Received(old(Value()), channel, capacity, room)
    {
      hide Filter;
      if |channel| - position > capacity {
        outcome := BroadcastLag;
        return;
      }
      var items := Filter(channel[position].batch, filter);
      position := position + 1;
      var i := 0;
      while i < |items|
        invariant i <= |items| && i <= room && position == old(position) + 1
        invariant Value() == old(Value()).(position := position, sent := old(sent) + items[..i])
      {
        if i == room {
          outcome := ClientChannelFull;
          return;
        }
        sent := sent + [items[i]];
        i := i + 1;
      }
      assert items[..i] == items;
    }
  }
}
