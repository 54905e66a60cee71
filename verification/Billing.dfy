/** The sink that turns billing events into lines of JSON and posts them, one flush at a time. */
module Billing {
  import opened Collections

  const FLUSH_THRESHOLD_BYTES := 4096
  const NEWLINE: byte := 10

  /** An event of the source, with what the serializer makes of it: a failure can leave partial output. */
  datatype Serialized = Written(json: Bytes) | Failed(partial: Bytes)

  datatype SourceAnswer = SourcePending | SourceEvent(event: Serialized) | SourceClosed

  datatype FlushAnswer = FlushPending | FlushOk | FlushErr

  datatype PollResult = Pending | Complete

  datatype FlushBufferError = Empty | OngoingFlush

  /** A flush in progress: the body posted and the number of events in it. */
  datatype Flush = Flush(payload: Bytes, events: nat)

  function BytesOf(e: Serialized): Bytes {
    match e
    case Written(json) => json + [NEWLINE]
    case Failed(partial) => partial
  }

  /** What the events leave in the buffer. */
  function Encoded(events: seq<Serialized>): Bytes {
    if events == [] then [] else Encoded(Front(events)) + BytesOf(Last(events))
  }

  /** How many of the events were serialized. */
  function Accepted(events: seq<Serialized>): nat {
    if events == [] then 0 else Accepted(Front(events)) + if Last(events).Written? then 1 else 0
  }

  function Bodies(flushes: seq<Flush>): Bytes {
    if flushes == [] then [] else Bodies(Front(flushes)) + Last(flushes).payload
  }

  function EventsIn(flushes: seq<Flush>): nat {
    if flushes == [] then 0 else EventsIn(Front(flushes)) + Last(flushes).events
  }

  lemma EncodedSnoc(events: seq<Serialized>, e: Serialized)
    ensures Encoded(events + [e]) == Encoded(events) + BytesOf(e)
    ensures Accepted(events + [e]) == Accepted(events) + if e.Written? then 1 else 0
  {
    assert Front(events + [e]) == events;
  }

  lemma BodiesSnoc(flushes: seq<Flush>, f: Flush)
    ensures Bodies(flushes + [f]) == Bodies(flushes) + f.payload
    ensures EventsIn(flushes + [f]) == EventsIn(flushes) + f.events
  {
    assert Front(flushes + [f]) == flushes;
  }

  /** The bytes of an event that was serialized are its JSON and a newline, and of one that was not what the
      serializer had written; and this of each event in turn. */
  lemma EncodedIs(events: seq<Serialized>, e: Serialized)
    ensures Encoded([]) == [] && Accepted([]) == 0
    ensures Encoded(events + [e]) == Encoded(events) + match e case Written(json) => json + [10] case Failed(p) => p
    ensures Accepted(events + [e]) == Accepted(events) + match e case Written(_) => 1 case Failed(_) => 0
  {
    EncodedSnoc(events, e);
  }

  /** With serialization succeeding, the bytes are exactly the lines of the events. */
  lemma {:induction false} EncodedLines(events: seq<Serialized>)
    requires forall e <- events :: e.Written?
    ensures Accepted(events) == |events|
    ensures |events| > 0 ==> Encoded(events) != [] && Last(Encoded(events)) == NEWLINE
  {
    if events != [] {
      assert Last(events) in events;
      EncodedLines(Front(events));
    }
  }

  /** The events among the source's answers. */
  function SourceEvents(answers: seq<SourceAnswer>): seq<Serialized> {
    if answers == [] then []
    else (if answers[0].SourceEvent? then [answers[0].event] else []) + SourceEvents(answers[1..])
  }

  lemma SourceEventsCons(answer: SourceAnswer, rest: seq<SourceAnswer>, sourced: seq<Serialized>)
    ensures sourced + SourceEvents([answer] + rest) ==
            (if answer.SourceEvent? then sourced + [answer.event] else sourced) + SourceEvents(rest)
  {
    assert ([answer] + rest)[1..] == rest;
  }

  /** What the server answers to the next poll. */
  function FirstAnswer(answers: seq<FlushAnswer>): FlushAnswer {
    if answers == [] then FlushPending else answers[0]
  }

  function FirstOfSource(answers: seq<SourceAnswer>): SourceAnswer {
    if answers == [] then SourcePending else answers[0]
  }

  /** Of `answers` all but `rest` were taken, in order. */
  predicate Rest<T(==)>(answers: seq<T>, rest: seq<T>) {
    |rest| <= |answers| && rest == answers[|answers| - |rest|..]
  }

  /** The last poll was answered with `pending`, because that was the answer or because there were none left. */
  predicate LastSaid<T(==)>(answers: seq<T>, rest: seq<T>, pending: T) {
    rest == [] || (|rest| < |answers| && answers[|answers| - |rest| - 1] == pending)
  }

  lemma RestOfRest<T>(answers: seq<T>, before: seq<T>, rest: seq<T>, pending: T)
    requires Rest(answers, before) && (rest == before || (before != [] && rest == before[1..]))
    ensures Rest(answers, rest) && (LastSaid(before, rest, pending) ==> LastSaid(answers, rest, pending))
  {
  }

  /** What the source and the server answer to the next polls; a poll without an answer is pending. */
  class Environment {
    var sourceAnswers: seq<SourceAnswer>
    var flushAnswers: seq<FlushAnswer>

    constructor (sourceAnswers: seq<SourceAnswer>, flushAnswers: seq<FlushAnswer>)
      ensures this.sourceAnswers == sourceAnswers && this.flushAnswers == flushAnswers
    {
      this.sourceAnswers, this.flushAnswers := sourceAnswers, flushAnswers;
    }

    function Answers(): nat
      reads this
    {
      |sourceAnswers| + |flushAnswers|
    }

    method PollSource() returns (answer: SourceAnswer)
      modifies this`sourceAnswers
      ensures old(sourceAnswers) == [] ==> answer == SourcePending && sourceAnswers == []
      ensures old(sourceAnswers) != [] ==> old(sourceAnswers) == [answer] + sourceAnswers
    {
      if sourceAnswers == [] {
        return SourcePending;
      }
      answer, sourceAnswers := sourceAnswers[0], sourceAnswers[1..];
    }

    method PollFlush() returns (answer: FlushAnswer)
      modifies this`flushAnswers
      ensures old(flushAnswers) == [] ==> answer == FlushPending && flushAnswers == []
      ensures old(flushAnswers) != [] ==> old(flushAnswers) == [answer] + flushAnswers
    {
      if flushAnswers == [] {
        return FlushPending;
      }
      answer, flushAnswers := flushAnswers[0], flushAnswers[1..];
    }
  }

  class HttpBillingEventSink {
    var ndjsonBuffer: Bytes
    var sourceClosed: bool
    var ongoingFlush: Option<Flush>
    var eventsSinceLastFlush: nat
    var eventsFlushed: nat
    /** The events taken from the source. */
    ghost var sourced: seq<Serialized>
    /** The flushes started so far. */
    ghost var started: seq<Flush>
    ghost var eventsFailed: nat
    /** How many flushes had been started when the source closed. */
    ghost var startedAtClose: nat

    /** No byte is lost, repeated or reordered: the bodies posted and the buffer make up the source's
        events. No event is lost from the books: it waits, is in flight, was delivered or failed. */
    ghost predicate Conserves()
      reads this
    {
      && Bodies(started) + ndjsonBuffer == Encoded(sourced)
      && EventsIn(started) + eventsSinceLastFlush == Accepted(sourced)
      && EventsIn(started) ==
         eventsFlushed + eventsFailed + (if ongoingFlush.Some? then ongoingFlush.value.events else 0)
      && (ongoingFlush.Some? ==> started != [] && Last(started) == ongoingFlush.value)
      && eventsSinceLastFlush <= |ndjsonBuffer|
    }

    /** The buffer is below the threshold, and the source's end brings at most one more flush. */
    ghost predicate Bounded()
      reads this
    {
      && |ndjsonBuffer| < FLUSH_THRESHOLD_BYTES
      && (sourceClosed ==>
            startedAtClose <= |started| <= startedAtClose + 1 && (|started| > startedAtClose ==> ndjsonBuffer == []))
    }

    ghost predicate Valid()
      reads this
    {
      Conserves() && Bounded()
    }

    constructor ()
      ensures Valid() && sourced == [] && started == [] && !sourceClosed && ongoingFlush == None
    {
      ndjsonBuffer, sourceClosed, ongoingFlush, eventsSinceLastFlush, eventsFlushed := [], false, None, 0, 0;
      sourced, started, eventsFailed, startedAtClose := [], [], 0, 0;
    }

    /** Starts a flush of everything buffered, unless there is nothing or one is already in progress. */
    method TryFlushBufferWithoutPolling() returns (error: Option<FlushBufferError>)
      requires Conserves()
      modifies this
      ensures Conserves() && sourced == old(sourced) && (old(Valid()) ==> Valid())
      ensures eventsFlushed == old(eventsFlushed) && eventsFailed == old(eventsFailed)
      ensures sourceClosed == old(sourceClosed) && startedAtClose == old(startedAtClose)
      ensures error == if old(ndjsonBuffer) == [] then Some(Empty)
                       else if old(ongoingFlush).Some? then Some(OngoingFlush) else None
      ensures error.Some? ==>
                ndjsonBuffer == old(ndjsonBuffer) && ongoingFlush == old(ongoingFlush) && started == old(started)
      ensures error.None? ==>
                && ndjsonBuffer == [] && eventsSinceLastFlush == 0
                && ongoingFlush == Some(Flush(old(ndjsonBuffer), old(eventsSinceLastFlush)))
                && started == old(started) + [ongoingFlush.value]
    {
      hide Bodies;
      hide EventsIn;
      hide Encoded;
      hide Accepted;
      if ndjsonBuffer == [] {
        return Some(Empty);
      }
      if ongoingFlush.Some? {
        return Some(OngoingFlush);
      }
      var numEventsInNdjson := eventsSinceLastFlush;
      eventsSinceLastFlush := 0;
      var payload := ndjsonBuffer;
      ndjsonBuffer := [];
      ongoingFlush := Some(Flush(payload, numEventsInNdjson));
      BodiesSnoc(started, Flush(payload, numEventsInNdjson));
      assert Bodies(started) + payload + [] == Bodies(started) + payload;
      started := started + [Flush(payload, numEventsInNdjson)];
      return None;
    }

    /** Whether no flush is in progress any more; a failed flush is given up. */
    method PollOngoingFlush(environment: Environment) returns (ready: bool)
      requires Valid()
      modifies this`ongoingFlush, this`eventsFlushed, this`eventsFailed, environment`flushAnswers
      ensures Valid()
      ensures ready == ongoingFlush.None?
      ensures !ready ==> ongoingFlush == old(ongoingFlush)
      ensures environment.flushAnswers ==
              if old(ongoingFlush).Some? && old(environment.flushAnswers) != [] then old(environment.flushAnswers)[1..]
              else old(environment.flushAnswers)
      ensures ready <==> old(ongoingFlush).None? || FirstAnswer(old(environment.flushAnswers)) != FlushPending
      ensures eventsFlushed == old(eventsFlushed) + if old(ongoingFlush).Some?
                                                       && FirstAnswer(old(environment.flushAnswers)).FlushOk?
                                                    then old(ongoingFlush).value.events else 0
      ensures eventsFailed == old(eventsFailed) + if old(ongoingFlush).Some?
                                                     && FirstAnswer(old(environment.flushAnswers)).FlushErr?
                                                  then old(ongoingFlush).value.events else 0
    {
      hide Bodies;
      hide EventsIn;
      hide Encoded;
      hide Accepted;
      if ongoingFlush.None? {
        return true;
      }
      var answer := environment.PollFlush();
      match answer {
        case FlushOk =>
          eventsFlushed := eventsFlushed + ongoingFlush.value.events;
          ongoingFlush := None;
          return true;
        case FlushErr =>
          eventsFailed := eventsFailed + ongoingFlush.value.events;
          ongoingFlush := None;
          return true;
        case FlushPending =>
          return false;
      }
    }

    /** Serializes an event into the buffer, and starts a flush when that reaches the threshold. */
    method Accept(event: Serialized)
      requires Valid() && ongoingFlush.None? && !sourceClosed
      modifies this
      ensures Valid() && sourced == old(sourced) + [event] && old(started) <= started && !sourceClosed
      ensures ongoingFlush.Some? <==> |old(ndjsonBuffer)| + |BytesOf(event)| >= 4096
    {
      EncodedSnoc(sourced, event);
      Associative(Bodies(started), ndjsonBuffer, BytesOf(event));
      hide Bodies;
      hide EventsIn;
      hide Encoded;
      hide Accepted;
      match event {
        case Written(json) =>
          ndjsonBuffer := ndjsonBuffer + json;
          eventsSinceLastFlush := eventsSinceLastFlush + 1;
          ndjsonBuffer := ndjsonBuffer + [NEWLINE];
        case Failed(partial) =>
          ndjsonBuffer := ndjsonBuffer + partial;
      }
      sourced := sourced + [event];
      if |ndjsonBuffer| >= FLUSH_THRESHOLD_BYTES {
        var _ := TryFlushBufferWithoutPolling();
      }
    }

    /** One poll of the open source; it parks when there is nothing to do. */
    method PollSource(environment: Environment) returns (parked: bool)
      requires Valid() && ongoingFlush.None? && !sourceClosed
      modifies this, environment`sourceAnswers
      ensures Valid() && old(sourced) <= sourced && old(started) <= started
      ensures sourced + SourceEvents(environment.sourceAnswers) ==
              old(sourced + SourceEvents(environment.sourceAnswers))
      ensures sourceClosed <==> old(environment.sourceAnswers) != [] && old(environment.sourceAnswers)[0].SourceClosed?
      ensures sourceClosed ==> startedAtClose == |started| && started == old(started) && sourced == old(sourced)
      ensures environment.sourceAnswers ==
              if old(environment.sourceAnswers) == [] then [] else old(environment.sourceAnswers)[1..]
      ensures parked ==>
                && ndjsonBuffer == [] && !sourceClosed && ongoingFlush.None?
                && FirstOfSource(old(environment.sourceAnswers)) == SourcePending
      ensures environment.Answers() < old(environment.Answers())
              || (environment.Answers() == old(environment.Answers()) && (parked || ongoingFlush.Some?))
    {
      hide Bodies;
      hide EventsIn;
      hide Encoded;
      hide Accepted;
      hide SourceEvents;
      ghost var answers := environment.sourceAnswers;
      var answer := environment.PollSource();
      if answers != [] {
        SourceEventsCons(answer, environment.sourceAnswers, sourced);
      }
      match answer {
        case SourceEvent(event) => Accept(event);
        case SourceClosed =>
          startedAtClose := |started|;
          sourceClosed := true;
        case SourcePending =>
          var error := TryFlushBufferWithoutPolling();
          return error.Some?;
      }
      return false;
    }

    lemma AllPosted()
      requires Conserves() && ndjsonBuffer == [] && ongoingFlush.None?
      ensures Bodies(started) == Encoded(sourced) && Accepted(sourced) == eventsFlushed + eventsFailed
    {
      assert Bodies(started) + [] == Bodies(started);
    }

    /** One turn of the loop; without a result it goes on. */
    method Turn(environment: Environment) returns (result: Option<PollResult>)
      requires Valid()
      modifies this, environment
      ensures Valid() && old(sourced) <= sourced && old(started) <= started
      ensures sourced + SourceEvents(environment.sourceAnswers) ==
              old(sourced + SourceEvents(environment.sourceAnswers))
      ensures environment.sourceAnswers == old(environment.sourceAnswers)
              || (old(environment.sourceAnswers) != []
                  && environment.sourceAnswers == old(environment.sourceAnswers)[1..])
      ensures environment.flushAnswers == old(environment.flushAnswers)
              || (old(environment.flushAnswers) != [] && environment.flushAnswers == old(environment.flushAnswers)[1..])
      ensures result == Some(Pending) ==>
                if ongoingFlush.Some?
                then LastSaid(old(environment.flushAnswers), environment.flushAnswers, FlushPending)
                else && ndjsonBuffer == [] && !sourceClosed
                     && LastSaid(old(environment.sourceAnswers), environment.sourceAnswers, SourcePending)
      ensures result == Some(Complete) ==>
                && sourceClosed && ndjsonBuffer == [] && ongoingFlush.None?
                && Bodies(started) == Encoded(sourced)
                && Accepted(sourced) == eventsFlushed + eventsFailed
      ensures result.None? ==>
                environment.Answers() < old(environment.Answers())
                || (environment.Answers() == old(environment.Answers())
                    && old(ongoingFlush).None? && ongoingFlush.Some?)
    {
      hide Bodies;
      hide EventsIn;
      hide Encoded;
      hide Accepted;
      hide SourceEvents;
      hide Conserves;
      hide Bounded;
      var idle := PollOngoingFlush(environment);
      if !idle {
        return Some(Pending);
      }
      if sourceClosed {
        var error := TryFlushBufferWithoutPolling();
        match error {
          case None => return None;
          case Some(Empty) =>
            AllPosted();
            return Some(Complete);
          case Some(OngoingFlush) => assert false;
        }
      }
      var parked := PollSource(environment);
      return if parked then Some(Pending) else None;
    }

    /** Runs until the source or the server must be waited for, or everything is done. */
    method Poll(environment: Environment) returns (result: PollResult)
      requires Valid()
      modifies this, environment
      ensures Valid()
      // The source's events are taken in order, none is skipped.
      ensures old(sourced) <= sourced && old(started) <= started
      ensures sourced + SourceEvents(environment.sourceAnswers) ==
              old(sourced + SourceEvents(environment.sourceAnswers))
      ensures Rest(old(environment.sourceAnswers), environment.sourceAnswers)
      ensures Rest(old(environment.flushAnswers), environment.flushAnswers)
      // It waits for the flush in progress, or for the source with nothing to send; and only if the one it
      // waits for has just said so.
      ensures result.Pending? ==>
                if ongoingFlush.Some?
                then LastSaid(old(environment.flushAnswers), environment.flushAnswers, FlushPending)
                else && ndjsonBuffer == [] && !sourceClosed
                     && LastSaid(old(environment.sourceAnswers), environment.sourceAnswers, SourcePending)
      // Completion: the source has ended and every byte of it was posted, every event accounted for.
      ensures result.Complete? ==>
                && sourceClosed && ndjsonBuffer == [] && ongoingFlush.None?
                && Bodies(started) == Encoded(sourced)
                && Accepted(sourced) == eventsFlushed + eventsFailed
    {
      assert Rest(environment.sourceAnswers, environment.sourceAnswers);
      assert Rest(environment.flushAnswers, environment.flushAnswers);
      hide *;
      while true
        invariant Valid()
        invariant old(sourced) <= sourced && old(started) <= started
        invariant sourced + SourceEvents(environment.sourceAnswers) ==
                  old(sourced + SourceEvents(environment.sourceAnswers))
        invariant Rest(old(environment.sourceAnswers), environment.sourceAnswers)
        invariant Rest(old(environment.flushAnswers), environment.flushAnswers)
        decreases environment.Answers(), if ongoingFlush.None? then 1 else 0
      {
        ghost var source, flush := environment.sourceAnswers, environment.flushAnswers;
        var turn := Turn(environment);
        RestOfRest(old(environment.sourceAnswers), source, environment.sourceAnswers, SourcePending);
        RestOfRest(old(environment.flushAnswers), flush, environment.flushAnswers, FlushPending);
        if turn.Some? {
          return turn.value;
        }
      }
    }
  }
}
