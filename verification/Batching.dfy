/** The batching in front of block reconstruction: buffers, the polling that fills them, and the loop that
    sends their content on. */
module Batching {
  import opened Collections

  datatype Message = BlockMetaMessage(content: nat) | OtherMessage(content: nat)

  datatype BlockReconstructionMessage = Single(message: Message) | Batch(messages: seq<Message>)

  const MESSAGE_BATCH_SIZE := 1024
  const BUFFERED_MESSAGES_CAPACITY := 32

  function MessagesOf(m: BlockReconstructionMessage): seq<Message> {
    match m
    case Single(message) => [message]
    case Batch(messages) => messages
  }

  /** The messages that a sequence of reconstruction messages carries, in order. */
  function AllMessages(ms: seq<BlockReconstructionMessage>): seq<Message> {
    if ms == [] then [] else AllMessages(Front(ms)) + MessagesOf(Last(ms))
  }

  lemma AllMessagesSnoc(ms: seq<BlockReconstructionMessage>, m: BlockReconstructionMessage)
    ensures AllMessages(ms + [m]) == AllMessages(ms) + MessagesOf(m)
  {
    assert Front(ms + [m]) == ms;
  }

  lemma {:induction false} AllMessagesAppend(a: seq<BlockReconstructionMessage>, b: seq<BlockReconstructionMessage>)
    ensures AllMessages(a + b) == AllMessages(a) + AllMessages(b)
  {
    if b == [] {
      assert a + b == a;
    } else {
      assert a + b == (a + Front(b)) + [Last(b)];
      AllMessagesAppend(a, Front(b));
      AllMessagesSnoc(a + Front(b), Last(b));
      Associative(AllMessages(a), AllMessages(Front(b)), MessagesOf(Last(b)));
    }
  }

  lemma FlattenSnoc<T>(ss: seq<seq<T>>, s: seq<T>)
    ensures Flatten(ss + [s]) == Flatten(ss) + s
  {
    assert Front(ss + [s]) == ss;
  }

  /** What subscribers at Processed are sent of the messages. */
  function WithoutBlockMeta(ms: seq<Message>): seq<Message> {
    Filter(ms, (m: Message) => m.OtherMessage?)
  }

  /** How many messages a partitioned buffer with room for `room` takes from the queue: it stops
      when it is full, and after a BlockMeta. */
  function Taken(queue: seq<Message>, room: nat): (n: nat)
    ensures n <= |queue|
  {
    if queue == [] || room == 0 then 0
    else if queue[0].BlockMetaMessage? then 1
    else 1 + Taken(queue[1..], room - 1)
  }

  lemma TakenNext(queue: seq<Message>, room: nat)
    requires queue != [] && room > 0
    ensures Taken(queue, room) == 1 + Taken(queue[1..], if queue[0].BlockMetaMessage? then 0 else room - 1)
  {
  }

  lemma NothingTaken(queue: seq<Message>, room: nat)
    requires queue == [] || room == 0
    ensures Taken(queue, room) == 0
  {
  }

  /** What is taken is one batch: all but its last message are no BlockMeta, it fits the room, and it
      ends for a reason. */
  lemma {:induction false} TakenIsOneBatch(queue: seq<Message>, room: nat)
    ensures var n := Taken(queue, room);
            && n <= room
            && (forall i | 0 <= i < n - 1 :: queue[i].OtherMessage?)
            && (n < |queue| ==> n == room || (n > 0 && queue[n - 1].BlockMetaMessage?))
  {
    if queue != [] && room > 0 && queue[0].OtherMessage? {
      TakenIsOneBatch(queue[1..], room - 1);
      TakenNext(queue, room);
      hide Taken;
      var n := Taken(queue, room);
      assert n > 1 ==> queue[n - 1] == queue[1..][n - 2];
      forall i | 0 <= i < n - 1 ensures queue[i].OtherMessage? {
        assert i > 0 ==> queue[i] == queue[1..][i - 1];
      }
    }
  }

  /** The queue of a channel at the moment it is polled, with what arrives while it is drained. */
  class Receiver<T> {
    var queue: seq<T>
    var closed: bool

    constructor (queue: seq<T>, closed: bool)
      ensures this.queue == queue && this.closed == closed
    {
      this.queue, this.closed := queue, closed;
    }

    method TryRecv() returns (item: Option<T>)
      modifies this`queue
      ensures item == if old(queue) == [] then None else Some(old(queue)[0])
      ensures queue == if old(queue) == [] then [] else old(queue)[1..]
    {
      if queue == [] {
        return None;
      }
      item, queue := Some(queue[0]), queue[1..];
    }
  }

  datatype PollResult = Pending | Closed | Ready(count: nat)

  class PartitionedBuffer {
    const capacity: nat
    var messageBatch: seq<Message>
    var blockmetaBatch: Option<Message>

    constructor (capacity: nat)
      ensures this.capacity == capacity && messageBatch == [] && blockmetaBatch == None
    {
      this.capacity, messageBatch, blockmetaBatch := capacity, [], None;
    }

    ghost predicate Valid()
      reads this
    {
      && |messageBatch| <= capacity
      && (forall m <- messageBatch :: m.OtherMessage?)
      && (blockmetaBatch.Some? ==> blockmetaBatch.value.BlockMetaMessage?)
    }

    /** What the buffer has accepted, in order: a BlockMeta is always the last. */
    function Contents(): seq<Message>
      reads this
    {
      messageBatch + if blockmetaBatch.Some? then [blockmetaBatch.value] else []
    }

    predicate IsReady()
      reads this
    {
      |messageBatch| < capacity && blockmetaBatch.None?
    }

    /** How many more messages fit. */
    function Room(): nat
      reads this
      requires |messageBatch| <= capacity
    {
      if blockmetaBatch.Some? then 0 else capacity - |messageBatch|
    }

    /** A ready buffer accepts any item; a full one gives the item back. */
    method Accumulate(item: Message) returns (rejected: Option<Message>)
      requires Valid()
      modifies this
      ensures Valid()
      ensures rejected == if |old(messageBatch)| == capacity then Some(item) else None
      ensures rejected.Some? ==> messageBatch == old(messageBatch) && blockmetaBatch == old(blockmetaBatch)
      ensures rejected.None? && item.BlockMetaMessage? ==>
                messageBatch == old(messageBatch) && blockmetaBatch == Some(item)
      ensures rejected.None? && item.OtherMessage? ==>
                messageBatch == old(messageBatch) + [item] && blockmetaBatch == old(blockmetaBatch)
      ensures old(IsReady()) ==> rejected.None? && Contents() == old(Contents()) + [item]
    {
      if |messageBatch| == capacity {
        return Some(item);
      }
      match item {
        case BlockMetaMessage(_) => blockmetaBatch := Some(item);
        case OtherMessage(_) => messageBatch := messageBatch + [item];
      }
      return None;
    }

    /** Takes what is queued, as long as the buffer is ready. */
    method TakeQueued(receiver: Receiver<Message>) returns (count: nat)
      requires Valid()
      modifies this, receiver`queue
      ensures Valid()
      ensures count == Taken(old(receiver.queue), old(Room()))
      ensures Contents() == old(Contents()) + old(receiver.queue)[..count]
      ensures receiver.queue == old(receiver.queue)[count..]
    {
      ghost var queue := receiver.queue;
      hide Taken;
      count := 0;
      while IsReady()
        invariant Valid()
        invariant count <= |queue| && receiver.queue == queue[count..]
        invariant Contents() == old(Contents()) + queue[..count]
        invariant Taken(queue, old(Room())) == count + Taken(queue[count..], Room())
        decreases |receiver.queue|
      {
        var item := receiver.TryRecv();
        if item.None? {
          break;
        }
        TakenNext(queue[count..], Room());
        assert queue[count..][1..] == queue[count + 1..];
        var rejected := Accumulate(item.value);
        if rejected.Some? {
          assert false;
        }
        count := count + 1;
      }
      NothingTaken(queue[count..], Room());
    }

    /** Fills the buffer from the receiver: nothing is rejected, lost or reordered. */
    method PollRecvBatch(receiver: Receiver<Message>) returns (result: PollResult)
      requires Valid()
      modifies this, receiver`queue
      ensures Valid()
      ensures var n := Taken(old(receiver.queue), old(Room()));
              && Contents() == old(Contents()) + old(receiver.queue)[..n]
              && receiver.queue == old(receiver.queue)[n..]
              && result == if !old(IsReady()) then Ready(0)
                           else if old(receiver.queue) != [] then Ready(n)
                           else if receiver.closed then Closed else Pending
    {
      ghost var queue := receiver.queue;
      if !IsReady() {
        NothingTaken(queue, Room());
        return Ready(0);
      }
      var item := receiver.TryRecv();
      if item.None? {
        NothingTaken(queue, Room());
        return if receiver.closed then Closed else Pending;
      }
      TakenNext(queue, Room());
      hide Taken;
      var rejected := Accumulate(item.value);
      if rejected.Some? {
        assert false;
      }
      assert queue == [queue[0]] + queue[1..];
      var more := TakeQueued(receiver);
      return Ready(1 + more);
    }
  }

  class VecBuffer<T> {
    const capacity: nat
    var items: seq<T>

    constructor (capacity: nat)
      ensures this.capacity == capacity && items == []
    {
      this.capacity, items := capacity, [];
    }

    predicate IsReady()
      reads this
    {
      |items| < capacity
    }

    method Accumulate(item: T) returns (rejected: Option<T>)
      modifies this
      ensures rejected == if old(IsReady()) then None else Some(item)
      ensures items == if old(IsReady()) then old(items) + [item] else old(items)
    {
      if |items| < capacity {
        items := items + [item];
        return None;
      }
      return Some(item);
    }

    /** Takes from the receiver until the buffer is full or the queue empty. */
    method PollRecvBatch(receiver: Receiver<T>) returns (result: PollResult)
      requires |items| <= capacity
      modifies this, receiver`queue
      ensures var room := capacity - |old(items)|;
              var n := if |old(receiver.queue)| <= room then |old(receiver.queue)| else room;
              && items == old(items) + old(receiver.queue)[..n]
              && receiver.queue == old(receiver.queue)[n..]
              && result == if !old(IsReady()) then Ready(0)
                           else if old(receiver.queue) != [] then Ready(n)
                           else if receiver.closed then Closed else Pending
    {
      if !IsReady() {
        assert receiver.queue[..0] == [] && receiver.queue[0..] == receiver.queue;
        return Ready(0);
      }
      ghost var queue := receiver.queue;
      var item := receiver.TryRecv();
      if item.None? {
        return if receiver.closed then Closed else Pending;
      }
      var rejected := Accumulate(item.value);
      if rejected.Some? {
        assert false;
      }
      var i := 1;
      while IsReady()
        invariant |items| <= capacity
        invariant 1 <= i <= |queue| && receiver.queue == queue[i..]
        invariant items == old(items) + queue[..i]
        decreases |receiver.queue|
      {
        item := receiver.TryRecv();
        if item.None? {
          break;
        }
        rejected := Accumulate(item.value);
        if rejected.Some? {
          assert false;
        }
        i := i + 1;
      }
      return Ready(i);
    }
  }

  /** Reconstruction was handed exactly the input, and subscribers at Processed its messages other than
      BlockMeta, in batches of bounded size. */
  ghost predicate IsSentOn(processed: seq<seq<Message>>, reconstruction: seq<BlockReconstructionMessage>,
                            input: seq<Message>) {
    && AllMessages(reconstruction) == input
    && Flatten(processed) == WithoutBlockMeta(input)
    && forall batch <- processed :: 0 < |batch| <= MESSAGE_BATCH_SIZE
  }

  lemma OthersStay(input: seq<Message>, batch: seq<Message>)
    requires forall m <- batch :: m.OtherMessage?
    ensures WithoutBlockMeta(input + batch) == WithoutBlockMeta(input) + batch
  {
    FilterAppend(input, batch, (m: Message) => m.OtherMessage?);
    FilterAll(batch, (m: Message) => m.OtherMessage?);
    hide Filter;
  }

  lemma BlockMetaGoes(input: seq<Message>, message: Message)
    requires message.BlockMetaMessage?
    ensures WithoutBlockMeta(input + [message]) == WithoutBlockMeta(input)
  {
    FilterSnoc(input, message, (m: Message) => m.OtherMessage?);
    hide Filter;
    assert WithoutBlockMeta(input) + [] == WithoutBlockMeta(input);
  }

  lemma BatchSentOn(processed: seq<seq<Message>>, reconstruction: seq<BlockReconstructionMessage>, input: seq<Message>,
                    batch: seq<Message>)
    requires IsSentOn(processed, reconstruction, input)
    requires 0 < |batch| <= MESSAGE_BATCH_SIZE && forall m <- batch :: m.OtherMessage?
    ensures IsSentOn(processed + [batch], reconstruction + [Batch(batch)], input + batch)
  {
    FlattenSnoc(processed, batch);
    AllMessagesSnoc(reconstruction, Batch(batch));
    OthersStay(input, batch);
    hide AllMessages;
    hide Flatten;
    hide WithoutBlockMeta;
  }

  lemma BlockMetaSentOn(processed: seq<seq<Message>>, reconstruction: seq<BlockReconstructionMessage>,
                        input: seq<Message>, message: Message)
    requires IsSentOn(processed, reconstruction, input) && message.BlockMetaMessage?
    ensures IsSentOn(processed, reconstruction + [Single(message)], input + [message])
  {
    AllMessagesSnoc(reconstruction, Single(message));
    BlockMetaGoes(input, message);
    hide AllMessages;
    hide Flatten;
    hide WithoutBlockMeta;
  }

  /** What a batch that was read becomes: its messages together, and a BlockMeta at its end by itself. */
  function Handed(batch: seq<Message>): seq<BlockReconstructionMessage> {
    if batch == [] then []
    else if !Last(batch).BlockMetaMessage? then [Batch(batch)]
    else (if |batch| > 1 then [Batch(Front(batch))] else []) + [Single(Last(batch))]
  }

  lemma AllOfOne(m: BlockReconstructionMessage)
    ensures AllMessages([m]) == MessagesOf(m)
  {
    assert Front([m]) == [] && AllMessages([]) == [];
  }

  lemma HandedIsAll(batch: seq<Message>)
    ensures AllMessages(Handed(batch)) == batch
  {
    hide AllMessages;
    if batch == [] {
      NoMessages();
    } else if !Last(batch).BlockMetaMessage? {
      AllOfOne(Batch(batch));
    } else if |batch| == 1 {
      AllOfOne(Single(Last(batch)));
      assert [] + [Single(Last(batch))] == [Single(Last(batch))];
    } else {
      AllOfOne(Batch(Front(batch)));
      AllMessagesSnoc([Batch(Front(batch))], Single(Last(batch)));
    }
  }

  lemma NoMessages()
    ensures AllMessages([]) == []
  {
  }

  lemma HandedInParts(messages: seq<Message>, meta: Option<Message>)
    requires (forall m <- messages :: m.OtherMessage?) && (meta.Some? ==> meta.value.BlockMetaMessage?)
    ensures Handed(messages + if meta.Some? then [meta.value] else []) ==
            (if messages != [] then [Batch(messages)] else []) + if meta.Some? then [Single(meta.value)] else []
  {
    if meta.Some? {
      assert Front(messages + [meta.value]) == messages;
    } else {
      assert messages + [] == messages;
      assert [Batch(messages)] + [] == [Batch(messages)];
      if messages != [] {
        assert Last(messages) in messages;
      }
    }
  }

  /** The loop that reads the plugin's messages, broadcasts them at Processed and hands them to reconstruction. */
  class GeyserLoop {
    const buffer: PartitionedBuffer
    var processed: seq<seq<Message>>
    var reconstruction: seq<BlockReconstructionMessage>
    /** Everything that was read. */
    ghost var input: seq<Message>

    ghost predicate SentOn()
      reads this
    {
      IsSentOn(processed, reconstruction, input)
    }

    /** Between two reads the buffer is empty. */
    ghost predicate Valid()
      reads this, buffer
    {
      && buffer.capacity == MESSAGE_BATCH_SIZE && buffer.messageBatch == [] && buffer.blockmetaBatch == None
      && SentOn()
    }

    constructor ()
      ensures Valid() && input == [] && fresh(buffer)
    {
      buffer := new PartitionedBuffer(MESSAGE_BATCH_SIZE);
      processed, reconstruction, input := [], [], [];
    }

    method SendBatch()
      requires buffer.Valid() && buffer.capacity == MESSAGE_BATCH_SIZE && SentOn()
      modifies this, buffer`messageBatch
      ensures buffer.messageBatch == [] && SentOn() && input == old(input) + old(buffer.messageBatch)
      ensures reconstruction ==
              old(reconstruction) + if old(buffer.messageBatch) != [] then [Batch(old(buffer.messageBatch))] else []
    {
      var batch := buffer.messageBatch;
      if batch != [] {
        BatchSentOn(processed, reconstruction, input, batch);
        processed := processed + [batch];
        buffer.messageBatch := [];
        reconstruction := reconstruction + [Batch(batch)];
        input := input + batch;
      }
      hide IsSentOn;
    }

    method SendBlockMeta()
      requires buffer.Valid() && SentOn()
      modifies this, buffer`blockmetaBatch
      ensures buffer.blockmetaBatch == None && SentOn() && processed == old(processed)
      ensures input == old(input) + if old(buffer.blockmetaBatch).Some? then [old(buffer.blockmetaBatch).value] else []
      ensures reconstruction ==
              old(reconstruction)
              + if old(buffer.blockmetaBatch).Some? then [Single(old(buffer.blockmetaBatch).value)] else []
    {
      if buffer.blockmetaBatch.Some? {
        var message := buffer.blockmetaBatch.value;
        BlockMetaSentOn(processed, reconstruction, input, message);
        buffer.blockmetaBatch := None;
        reconstruction := reconstruction + [Single(message)];
        input := input + [message];
      }
      hide IsSentOn;
    }

    method SendContents()
      requires buffer.Valid() && buffer.capacity == MESSAGE_BATCH_SIZE && SentOn()
      modifies this, buffer
      ensures Valid() && input == old(input) + old(buffer.Contents())
      ensures reconstruction == old(reconstruction) + Handed(old(buffer.Contents()))
    {
      hide IsSentOn;
      hide Handed;
      HandedInParts(buffer.messageBatch, buffer.blockmetaBatch);
      ghost var before := reconstruction;
      ghost var messages := if buffer.messageBatch != [] then [Batch(buffer.messageBatch)] else [];
      ghost var meta := if buffer.blockmetaBatch.Some? then [Single(buffer.blockmetaBatch.value)] else [];
      Associative(before, messages, meta);
      SendBatch();
      SendBlockMeta();
    }

    /** One turn of the loop; it ends the loop when the channel is closed and empty. */
    method Turn(receiver: Receiver<Message>) returns (closed: bool)
      requires Valid()
      modifies this, buffer, receiver`queue
      ensures Valid()
      ensures var n := Taken(old(receiver.queue), 1024);
              && input == old(input) + old(receiver.queue)[..n] && receiver.queue == old(receiver.queue)[n..]
              && reconstruction == old(reconstruction) + Handed(old(receiver.queue)[..n])
      ensures closed == (old(receiver.queue) == [] && receiver.closed)
    {
      hide Taken;
      hide IsSentOn;
      var result := buffer.PollRecvBatch(receiver);
      if result.Closed? {
        assert buffer.Contents() == [] && input + [] == input;
        assert Handed([]) == [] && reconstruction + [] == reconstruction;
        assert old(receiver.queue) == [] && old(receiver.queue)[..0] == [];
        return true;
      }
      hide Handed;
      assert buffer.Contents() == old(receiver.queue)[..Taken(old(receiver.queue), MESSAGE_BATCH_SIZE)];
      SendContents();
      return false;
    }

    /** Reads until the channel is drained. */
    method Drain(receiver: Receiver<Message>) returns (closed: bool)
      requires Valid()
      modifies this, buffer, receiver`queue
      ensures Valid() && receiver.queue == [] && input == old(input) + old(receiver.queue)
      ensures AllMessages(reconstruction) == old(input) + old(receiver.queue)
      ensures Flatten(processed) == WithoutBlockMeta(old(input) + old(receiver.queue))
      ensures forall m :: m in Flatten(processed) <==> m in old(input) + old(receiver.queue) && m.OtherMessage?
      ensures forall batch <- processed :: 0 < |batch| <= 1024
      ensures closed == receiver.closed
    {
      closed := false;
      while receiver.queue != []
        invariant Valid() && input + receiver.queue == old(input + receiver.queue)
        decreases |receiver.queue|
      {
        ghost var queue, n := receiver.queue, Taken(receiver.queue, MESSAGE_BATCH_SIZE);
        TakenNext(queue, MESSAGE_BATCH_SIZE);
        Associative(input, queue[..n], queue[n..]);
        assert queue[..n] + queue[n..] == queue;
        hide Taken;
        hide IsSentOn;
        closed := Turn(receiver);
      }
      closed := Turn(receiver);
    }
  }

  /** Reconstruction takes the buffered batches apart and adds their messages one by one. */
  method AddBuffered(buffer: VecBuffer<BlockReconstructionMessage>) returns (added: seq<Message>)
    modifies buffer
    ensures buffer.items == [] && added == AllMessages(old(buffer.items))
  {
    added := [];
    ghost var done: seq<BlockReconstructionMessage> := [];
    while buffer.items != []
      invariant done + buffer.items == old(buffer.items)
      invariant added == AllMessages(done)
      decreases |buffer.items|
    {
      var next := buffer.items[0];
      AllMessagesSnoc(done, next);
      added := AddMessages(added, next);
      Associative(done, [next], buffer.items[1..]);
      assert [next] + buffer.items[1..] == buffer.items;
      done := done + [next];
      buffer.items := buffer.items[1..];
    }
    assert done + [] == done;
  }

  method AddMessages(before: seq<Message>, next: BlockReconstructionMessage) returns (added: seq<Message>)
    ensures added == before + MessagesOf(next)
  {
    added := before;
    match next {
      case Batch(messages) =>
        var i := 0;
        while i < |messages|
          invariant i <= |messages| && added == before + messages[..i]
        {
          added := added + [messages[i]];
          i := i + 1;
        }
      case Single(message) => added := added + [message];
    }
  }

  /** The reading side of block reconstruction. */
  class ReconstructionReader {
    const buffer: VecBuffer<BlockReconstructionMessage>
    var added: seq<Message>
    ghost var read: seq<BlockReconstructionMessage>

    /** Between two reads the buffer is empty and everything read was added, in order. */
    ghost predicate Valid()
      reads this, buffer
    {
      buffer.capacity == BUFFERED_MESSAGES_CAPACITY && buffer.items == [] && added == AllMessages(read)
    }

    constructor ()
      ensures Valid() && added == [] && fresh(buffer)
    {
      buffer := new VecBuffer<BlockReconstructionMessage>(BUFFERED_MESSAGES_CAPACITY);
      added, read := [], [];
    }

    method Turn(receiver: Receiver<BlockReconstructionMessage>) returns (closed: bool)
      requires Valid()
      modifies this, buffer, receiver`queue
      ensures Valid()
      ensures var waiting := |old(receiver.queue)|;
              var n := if waiting <= 32 then waiting else 32;
              read == old(read) + old(receiver.queue)[..n] && receiver.queue == old(receiver.queue)[n..]
      ensures closed == (old(receiver.queue) == [] && receiver.closed)
    {
      hide AllMessages;
      var result := buffer.PollRecvBatch(receiver);
      ghost var taken := buffer.items;
      AllMessagesAppend(read, taken);
      var messages := AddBuffered(buffer);
      added := added + messages;
      read := read + taken;
      closed := result.Closed?;
    }
  }

  // ---------- the loop and the reader, in any interleaving ----------

  /** `fromPlugin` waits for the loop, `held` was read by the loop and is still to be handed on, and
      `handed` waits for the reader. */
  datatype Pipe = Pipe(fromPlugin: seq<Message>, held: seq<BlockReconstructionMessage>,
                       handed: seq<BlockReconstructionMessage>, added: seq<Message>)

  /** The plugin sends a message; the loop reads a batch, or hands on a part of it; the reader reads. */
  datatype PipeAction = Arrive(message: Message) | Take | HandOn | Read

  predicate PipePossible(p: Pipe, a: PipeAction) {
    match a
    case Arrive(_) => true
    case Take => p.held == []
    case HandOn => p.held != []
    case Read => true
  }

  function PipeStep(p: Pipe, a: PipeAction): Pipe
    requires PipePossible(p, a)
  {
    match a
    case Arrive(message) => p.(fromPlugin := p.fromPlugin + [message])
    case Take =>
      var n := Taken(p.fromPlugin, MESSAGE_BATCH_SIZE);
      p.(fromPlugin := p.fromPlugin[n..], held := Handed(p.fromPlugin[..n]))
    case HandOn => p.(held := p.held[1..], handed := p.handed + [p.held[0]])
    case Read =>
      var n := if |p.handed| <= BUFFERED_MESSAGES_CAPACITY then |p.handed| else BUFFERED_MESSAGES_CAPACITY;
      p.(handed := p.handed[n..], added := p.added + AllMessages(p.handed[..n]))
  }

  function PipeRun(actions: seq<PipeAction>): Option<Pipe> {
    if actions == [] then Some(Pipe([], [], [], []))
    else
      match PipeRun(Front(actions))
      case None => None
      case Some(p) => if PipePossible(p, Last(actions)) then Some(PipeStep(p, Last(actions))) else None
  }

  /** Everything that the plugin has sent. */
  function Arrived(actions: seq<PipeAction>): seq<Message> {
    if actions == [] then []
    else Arrived(Front(actions)) + if Last(actions).Arrive? then [Last(actions).message] else []
  }

  /** What is in the pipe, in the order of arrival. */
  ghost function InPipe(p: Pipe): seq<Message> {
    p.added + (AllMessages(p.handed + p.held) + p.fromPlugin)
  }

  lemma TakeConserves(p: Pipe)
    requires p.held == []
    ensures InPipe(PipeStep(p, Take)) == InPipe(p)
  {
    hide AllMessages;
    hide Handed;
    hide Taken;
    var n := Taken(p.fromPlugin, MESSAGE_BATCH_SIZE);
    var batch, rest := p.fromPlugin[..n], p.fromPlugin[n..];
    HandedIsAll(batch);
    AllMessagesAppend(p.handed, Handed(batch));
    Associative(AllMessages(p.handed), batch, rest);
    assert p.fromPlugin == batch + rest && p.handed + [] == p.handed;
  }

  lemma HandOnConserves(p: Pipe)
    requires p.held != []
    ensures InPipe(PipeStep(p, HandOn)) == InPipe(p)
  {
    Associative(p.handed, [p.held[0]], p.held[1..]);
    assert p.held == [p.held[0]] + p.held[1..];
    hide AllMessages;
  }

  lemma ReadConserves(p: Pipe)
    ensures InPipe(PipeStep(p, Read)) == InPipe(p)
  {
    var n := if |p.handed| <= BUFFERED_MESSAGES_CAPACITY then |p.handed| else BUFFERED_MESSAGES_CAPACITY;
    var first, rest := p.handed[..n], p.handed[n..];
    assert p.handed + p.held == first + (rest + p.held);
    AllMessagesAppend(first, rest + p.held);
    Associative(AllMessages(first), AllMessages(rest + p.held), p.fromPlugin);
    Associative(p.added, AllMessages(first), AllMessages(rest + p.held) + p.fromPlugin);
    hide AllMessages;
  }

  lemma ArriveExtends(p: Pipe, message: Message)
    ensures InPipe(PipeStep(p, Arrive(message))) == InPipe(p) + [message]
  {
    var inside := AllMessages(p.handed + p.held);
    Associative(inside, p.fromPlugin, [message]);
    Associative(p.added, inside + p.fromPlugin, [message]);
    hide AllMessages;
  }

  /** Nothing is lost, doubled or reordered on the way, however plugin, loop and reader interleave: what
      reconstruction has added, what is on the way, and what still waits is what the plugin has sent. */
  lemma {:induction false} PipelineConserves(actions: seq<PipeAction>)
    requires PipeRun(actions).Some?
    ensures var p := PipeRun(actions).value;
            && Arrived(actions) == p.added + (AllMessages(p.handed + p.held) + p.fromPlugin)
            && p.added <= Arrived(actions)
  {
    if actions == [] {
      assert PipeRun(actions) == Some(Pipe([], [], [], []));
    } else {
      PipelineConserves(Front(actions));
      var p := PipeRun(Front(actions)).value;
      assert Arrived(Front(actions)) == InPipe(p);
      hide AllMessages;
      match Last(actions) {
        case Arrive(message) => ArriveExtends(p, message);
        case Take => TakeConserves(p);
        case HandOn => HandOnConserves(p);
        case Read => ReadConserves(p);
      }
      hide PipeStep;
      assert Arrived(Front(actions)) + [] == Arrived(Front(actions));
      assert Arrived(actions) == InPipe(PipeStep(p, Last(actions)));
    }
  }
}
