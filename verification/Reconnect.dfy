/** The stream wrapper that reconnects after recoverable errors and resumes from a checkpoint. */
module Reconnect {
  import opened Collections
  import opened Protocol
  import opened DedupModel

  /** Slots that a checkpoint stays behind the last BlockMeta. */
  const CHECKPOINT_SLOT_BUFFER := 2

  const AUTORECONNECT_FILTER_KEY := "__autoreconnect"

  datatype Code =
    | Ok | Cancelled | Unknown | InvalidArgument | DeadlineExceeded | NotFound | AlreadyExists
    | PermissionDenied | ResourceExhausted | FailedPrecondition | Aborted | OutOfRange
    | Unimplemented | Internal | Unavailable | DataLoss | Unauthenticated

  /** Codes after which the wrapper reconnects. */
  predicate Recoverable(code: Code) {
    code in {Cancelled, Unknown, DeadlineExceeded, ResourceExhausted, Aborted, Internal, Unavailable, DataLoss,
             OutOfRange}
  }

  /** The slot that an update is about. */
  function ExtractSlot(u: SubscribeUpdate): Option<nat> {
    if u.updateOneof.None? || u.updateOneof.value.Ping? || u.updateOneof.value.Pong? then None
    else Some(u.updateOneof.value.slot)
  }

  predicate IsBlockMeta(u: SubscribeUpdate) {
    u.updateOneof.Some? && u.updateOneof.value.BlockMetaUpdate?
  }

  function Back(slot: nat): nat {
    if slot < CHECKPOINT_SLOT_BUFFER then 0 else slot - CHECKPOINT_SLOT_BUFFER
  }

  /** Matched nothing but the filter that the wrapper itself injected. */
  predicate InternalOnly(u: SubscribeUpdate) {
    u.filters != [] && forall f <- u.filters :: f == AUTORECONNECT_FILTER_KEY
  }

  function Strip(u: SubscribeUpdate): SubscribeUpdate {
    u.(filters := Filter(u.filters, f => f != AUTORECONNECT_FILTER_KEY))
  }

  // ---------- the history of a wrapper ----------

  /** What happened, poll by poll: a message came; the stream broke and a reconnect from a slot was
      asked for; the new stream opened; or the wrapper stopped, by a fatal error, by the end of the
      stream, or because the reconnect failed. */
  datatype Entry =
    | Got(update: SubscribeUpdate)
    | Cut(code: Code, fromSlot: Option<nat>)
    | Opened
    | Fatal(code: Code)
    | Finished
    | Refused
  {
    predicate Terminal() {
      Fatal? || Finished? || Refused?
    }

    predicate ClearsCheckpoint() {
      (Cut? || Fatal?) && code == OutOfRange
    }

    predicate Meta() {
      Got? && IsBlockMeta(update)
    }
  }

  datatype Phase = Streaming | Connecting | Stopped

  function PhaseAfter(log: seq<Entry>): Phase {
    if log == [] then Streaming
    else
      match Last(log)
      case Got(_) => Streaming
      case Opened => Streaming
      case Cut(_, _) => Connecting
      case _ => Stopped
  }

  function CheckpointAfter(log: seq<Entry>): Option<nat> {
    if log == [] then None
    else if Last(log).Meta() then Some(Back(Last(log).update.updateOneof.value.slot))
    else if Last(log).ClearsCheckpoint() then None
    else CheckpointAfter(Front(log))
  }

  /** How often a new stream has opened. */
  function Opens(log: seq<Entry>): nat {
    if log == [] then 0 else Opens(Front(log)) + if Last(log).Opened? then 1 else 0
  }

  /** The messages handed on, each with the reconnect count at that time. */
  function Forwarded(log: seq<Entry>): seq<Event> {
    if log == [] then []
    else
      Forwarded(Front(log)) +
      if Last(log).Got? && !InternalOnly(Last(log).update)
      then [Event(Opens(log), Subscribe(Strip(Last(log).update)))] else []
  }

  /** The histories that a wrapper with these settings can have. */
  ghost predicate Legal(log: seq<Entry>, resume: bool, maxRetries: nat) {
    log != [] ==>
      && Legal(Front(log), resume, maxRetries)
      && MayFollow(Last(log), PhaseAfter(Front(log)), if resume then CheckpointAfter(log) else None, maxRetries)
  }

  /** Whether `x` may come next, after a history that ends in `phase`. */
  ghost predicate MayFollow(x: Entry, phase: Phase, request: Option<nat>, maxRetries: nat) {
    match x
    case Got(_) => phase.Streaming?
    case Cut(code, fromSlot) => phase.Streaming? && Recoverable(code) && maxRetries > 0 && fromSlot == request
    case Opened => phase.Connecting?
    case Refused => phase.Connecting?
    case Fatal(code) => phase.Streaming? && (!Recoverable(code) || maxRetries == 0)
    case Finished => phase.Streaming?
  }

  /** What the functions on histories say about a history with one more entry. */
  lemma Extended(log: seq<Entry>, x: Entry)
    ensures CheckpointAfter(log + [x]) ==
            if x.Meta() then Some(Back(x.update.updateOneof.value.slot))
            else if x.ClearsCheckpoint() then None else CheckpointAfter(log)
    ensures Opens(log + [x]) == Opens(log) + if x.Opened? then 1 else 0
    ensures Forwarded(log + [x]) ==
            Forwarded(log) + if x.Got? && !InternalOnly(x.update)
                             then [Event(Opens(log + [x]), Subscribe(Strip(x.update)))] else []
    ensures PhaseAfter(log + [x]) == PhaseAfter([x])
    ensures forall resume, maxRetries :: Legal(log + [x], resume, maxRetries) <==>
              Legal(log, resume, maxRetries) &&
              MayFollow(x, PhaseAfter(log), if resume then CheckpointAfter(log + [x]) else None, maxRetries)
  {
    assert Front(log + [x]) == log;
  }

  // ---------- the wrapper ----------

  datatype StreamPoll = Received(update: SubscribeUpdate) | Broken(code: Code) | Exhausted | StreamNotReady

  datatype ConnectPoll = Connected | ConnectFailed | NotConnected

  /** What the environment answers in one turn of the poll loop, to whichever of the live stream and
      the connecting task is polled. */
  datatype Answer = Answer(stream: StreamPoll, connect: ConnectPoll)

  datatype Outcome = Forward(update: SubscribeUpdate) | Error(code: Code) | End | Pending

  // ---------- what the environment's answers bring ----------

  datatype Settings = Settings(resume: bool, maxRetries: nat)

  /** What the live stream's answer adds to the history. */
  function StreamEntries(log: seq<Entry>, settings: Settings, p: StreamPoll): seq<Entry> {
    match p
    case Received(u) => [Got(u)]
    case Broken(code) =>
      if Recoverable(code) && settings.maxRetries > 0
      then [Cut(code, if settings.resume && code != OutOfRange then CheckpointAfter(log) else None)]
      else [Fatal(code)]
    case Exhausted => [Finished]
    case StreamNotReady => []
  }

  function ConnectEntries(p: ConnectPoll): seq<Entry> {
    match p
    case Connected => [Opened]
    case ConnectFailed => [Refused]
    case NotConnected => []
  }

  /** The history after one turn: a stream that breaks lets the connecting task be polled in the same turn. */
  function AfterTurn(log: seq<Entry>, settings: Settings, a: Answer): seq<Entry> {
    var polled := if PhaseAfter(log).Streaming? then log + StreamEntries(log, settings, a.stream) else log;
    if PhaseAfter(polled).Connecting? then polled + ConnectEntries(a.connect) else polled
  }

  function AfterTurns(log: seq<Entry>, settings: Settings, answers: seq<Answer>): seq<Entry> {
    if answers == [] then log else AfterTurn(AfterTurns(log, settings, Front(answers)), settings, Last(answers))
  }

  /** What a turn that led from the first history to the second one answers to the user: the last event, if
      it is one to tell, or that nothing is ready, if the side that was polled last said so. */
  function TurnOutcome(before: seq<Entry>, after: seq<Entry>): Option<Outcome> {
    if |after| <= |before| then Some(Pending)
    else
      match Last(after)
      case Got(u) => if InternalOnly(u) then None else Some(Forward(Strip(u)))
      case Cut(_, _) => Some(Pending)
      case Opened => None
      case Fatal(code) => Some(Error(code))
      case Finished => Some(End)
      case Refused => Some(Error(Internal))
  }

  /** The `k`-th turn has no outcome: the loop goes on. */
  ghost predicate GoesOn(log: seq<Entry>, settings: Settings, turns: seq<Answer>, k: nat)
    requires k < |turns|
  {
    var before := AfterTurns(log, settings, turns[..k]);
    TurnOutcome(before, AfterTurn(before, settings, turns[k])).None?
  }

  lemma AfterTurnsSnoc(log: seq<Entry>, settings: Settings, answers: seq<Answer>, a: Answer)
    ensures AfterTurns(log, settings, answers + [a]) == AfterTurn(AfterTurns(log, settings, answers), settings, a)
  {
    assert Front(answers + [a]) == answers;
  }

  /** `answers` is what the environment will answer in the turns to come; when it has run out, nothing
      is ready. `log` and `forwarded` record the run. */
  class AutoReconnect {
    var lastCheckpoint: Option<nat>
    var stop: bool
    var hasStream: bool
    var pendingConnectingTask: Option<Option<nat>>
    var reconnectCount: nat
    const resumeFromCheckpoint: bool
    const maxRetries: nat
    var answers: seq<Answer>
    ghost var log: seq<Entry>
    ghost var forwarded: seq<Event>

    ghost predicate Valid()
      reads this
    {
      && Legal(log, resumeFromCheckpoint, maxRetries)
      && lastCheckpoint == CheckpointAfter(log)
      && reconnectCount == Opens(log)
      && forwarded == Forwarded(log)
      && var phase := PhaseAfter(log);
         && hasStream == phase.Streaming?
         && pendingConnectingTask.Some? == phase.Connecting?
         && stop == phase.Stopped?
         && (pendingConnectingTask.Some? ==> pendingConnectingTask.value == Last(log).fromSlot)
    }

    constructor (answers: seq<Answer>, maxRetries: nat, resumeFromCheckpoint: bool)
      ensures Valid() && log == [] && forwarded == [] && this.answers == answers
      ensures this.maxRetries == maxRetries && this.resumeFromCheckpoint == resumeFromCheckpoint
    {
      lastCheckpoint, stop, hasStream, pendingConnectingTask, reconnectCount := None, false, true, None, 0;
      this.resumeFromCheckpoint := resumeFromCheckpoint;
      this.maxRetries := maxRetries;
      this.answers := answers;
      log, forwarded := [], [];
    }

    function ConnectionRequest(): Option<nat>
      reads this
    {
      if resumeFromCheckpoint then lastCheckpoint else None
    }

    /** A message came. It is handed on unless only the injected filter matched. */
    method OnMessage(u: SubscribeUpdate) returns (r: Option<Outcome>)
      requires Valid() && hasStream
      modifies this`lastCheckpoint, this`log, this`forwarded
      ensures Valid() && log == old(log) + [Got(u)]
      ensures r == if InternalOnly(u) then None else Some(Forward(Strip(u)))
      ensures forwarded == old(forwarded) + if r.Some? then [Event(reconnectCount, Subscribe(Strip(u)))] else []
    {
      hide Legal;
      hide Forwarded;
      hide Opens;
      hide CheckpointAfter;
      Extended(log, Got(u));
      if IsBlockMeta(u) {
        var slot := ExtractSlot(u);
        if slot.Some? {
          lastCheckpoint := Some(Back(slot.value));
        }
      }
      log := log + [Got(u)];
      if InternalOnly(u) {
        return None;
      }
      var stripped := Strip(u);
      forwarded := forwarded + [Event(reconnectCount, Subscribe(stripped))];
      return Some(Forward(stripped));
    }

    /** The stream broke. The wrapper asks for a reconnect or stops. */
    method OnBroken(code: Code) returns (r: Option<Outcome>)
      requires Valid() && hasStream
      modifies this`lastCheckpoint, this`stop, this`hasStream, this`pendingConnectingTask, this`log
      ensures Valid()
      ensures if Recoverable(code) && maxRetries > 0
              then log == old(log) + [Cut(code, ConnectionRequest())] && r == None
              else log == old(log) + [Fatal(code)] && r == Some(Error(code))
    {
      hide Legal;
      hide Forwarded;
      hide Opens;
      hide CheckpointAfter;
      hasStream := false;
      if Recoverable(code) {
        if code == OutOfRange {
          lastCheckpoint := None;
        }
        if maxRetries == 0 {
          stop := true;
          Extended(log, Fatal(code));
          log := log + [Fatal(code)];
          return Some(Error(code));
        }
        pendingConnectingTask := Some(ConnectionRequest());
        Extended(log, Cut(code, ConnectionRequest()));
        log := log + [Cut(code, ConnectionRequest())];
        return None;
      }
      stop := true;
      Extended(log, Fatal(code));
      log := log + [Fatal(code)];
      return Some(Error(code));
    }

    /** Polls the live stream; without an outcome the loop goes on. */
    method PollStream(answer: StreamPoll) returns (r: Option<Outcome>)
      requires Valid() && hasStream
      modifies this`lastCheckpoint, this`stop, this`hasStream, this`pendingConnectingTask, this`log, this`forwarded
      ensures Valid()
      ensures forwarded == old(forwarded) + match r
                                            case Some(Forward(u)) => [Event(reconnectCount, Subscribe(u))]
                                            case _ => []
      ensures match answer
              case Received(u) =>
                log == old(log) + [Got(u)] && r == if InternalOnly(u) then None else Some(Forward(Strip(u)))
              case Broken(code) =>
                if Recoverable(code) && maxRetries > 0
                then log == old(log) + [Cut(code, ConnectionRequest())] && r == None
                else log == old(log) + [Fatal(code)] && r == Some(Error(code))
              case Exhausted => log == old(log) + [Finished] && r == Some(End)
              case StreamNotReady => log == old(log) && r == Some(Pending)
    {
      hide Legal;
      hide Forwarded;
      hide Opens;
      hide CheckpointAfter;
      match answer {
        case Received(u) =>
          r := OnMessage(u);
        case Broken(code) =>
          r := OnBroken(code);
        case Exhausted =>
          hasStream := false;
          stop := true;
          Extended(log, Finished);
          log := log + [Finished];
          return Some(End);
        case StreamNotReady =>
          return Some(Pending);
      }
    }

    /** Polls the connecting task; without an outcome the loop goes on. */
    method PollConnecting(answer: ConnectPoll) returns (r: Option<Outcome>)
      requires Valid() && pendingConnectingTask.Some?
      modifies this`stop, this`hasStream, this`pendingConnectingTask, this`reconnectCount, this`log
      ensures Valid()
      ensures log == old(log) + match answer
                                case Connected => [Opened]
                                case ConnectFailed => [Refused]
                                case NotConnected => []
      ensures r == match answer
                   case Connected => None
                   case ConnectFailed => Some(Error(Internal))
                   case NotConnected => Some(Pending)
    {
      hide Legal;
      hide Forwarded;
      hide Opens;
      hide CheckpointAfter;
      match answer {
        case Connected =>
          pendingConnectingTask := None;
          reconnectCount := reconnectCount + 1;
          hasStream := true;
          Extended(log, Opened);
          log := log + [Opened];
          return None;
        case ConnectFailed =>
          pendingConnectingTask := None;
          stop := true;
          Extended(log, Refused);
          log := log + [Refused];
          return Some(Error(Internal));
        case NotConnected =>
          return Some(Pending);
      }
    }

    ghost function SettingsOf(): Settings
      reads this
    {
      Settings(resumeFromCheckpoint, maxRetries)
    }

    /** One turn of the poll loop. */
    method Turn(answer: Answer) returns (r: Option<Outcome>)
      requires Valid() && !stop
      modifies this`lastCheckpoint, this`stop, this`hasStream, this`pendingConnectingTask, this`reconnectCount,
               this`log, this`forwarded
      ensures Valid()
      ensures log == AfterTurn(old(log), SettingsOf(), answer) && r == TurnOutcome(old(log), log)
      ensures forwarded == old(forwarded) + match r
                                            case Some(Forward(u)) => [Event(reconnectCount, Subscribe(u))]
                                            case _ => []
      ensures stop <==> r.Some? && (r.value.Error? || r.value.End?)
    {
      hide Forwarded;
      hide Opens;
      hide Legal;
      r := None;
      CutCheckpoint(log);
      if hasStream {
        r := PollStream(answer.stream);
        if r.Some? {
          return;
        }
      }
      if pendingConnectingTask.Some? {
        r := PollConnecting(answer.connect);
      }
    }

    /** The poll that users call. It takes the answers of `used` turns; the history grows by exactly what
        they bring, and no turn before the last has an outcome. What it answers is the outcome of the last
        turn, or that nothing is ready, when the environment has run out of answers. On return the wrapper
        streams, connects or is stopped, never two of these; once stopped it answers only the end of the
        stream and does nothing more. */
    method PollNext() returns (r: Outcome, ghost used: nat)
      requires Valid()
      modifies this
      ensures Valid()
      ensures used <= |old(answers)| && answers == old(answers)[used..]
      ensures log == AfterTurns(old(log), SettingsOf(), old(answers)[..used])
      ensures forall k | 0 <= k < used - 1 :: GoesOn(old(log), SettingsOf(), old(answers), k)
      ensures if old(stop) then used == 0 && r == End
              else if used > 0 && !GoesOn(old(log), SettingsOf(), old(answers), used - 1)
              then Some(r) == TurnOutcome(AfterTurns(old(log), SettingsOf(), old(answers)[..used - 1]), log)
              else used == |old(answers)| && r == Pending
      ensures hasStream || pendingConnectingTask.Some? || stop
      ensures !(hasStream && pendingConnectingTask.Some?)
      ensures !(hasStream && stop) && !(pendingConnectingTask.Some? && stop)
      ensures stop <==> r.Error? || r.End?
      ensures forwarded == old(forwarded) + if r.Forward? then [Event(reconnectCount, Subscribe(r.update))] else []
    {
      hide Forwarded;
      hide Opens;
      hide CheckpointAfter;
      hide Legal;
      hide AfterTurn;
      hide TurnOutcome;
      used := 0;
      if stop {
        return End, 0;
      }
      assert old(answers)[..0] == [];
      while true
        invariant Valid() && !stop && forwarded == old(forwarded)
        invariant used <= |old(answers)| && answers == old(answers)[used..]
        invariant log == AfterTurns(old(log), SettingsOf(), old(answers)[..used])
        invariant forall k | 0 <= k < used :: GoesOn(old(log), SettingsOf(), old(answers), k)
        decreases |answers|
      {
        if answers == [] {
          return Pending, used;
        }
        var answer := answers[0];
        answers := answers[1..];
        assert old(answers)[..used + 1] == old(answers)[..used] + [answer];
        AfterTurnsSnoc(old(log), SettingsOf(), old(answers)[..used], answer);
        used := used + 1;
        var outcome := Turn(answer);
        if outcome.Some? {
          return outcome.value, used;
        }
      }
    }
  }

  lemma CutCheckpoint(log: seq<Entry>)
    ensures forall code, from ::
              CheckpointAfter(log + [Cut(code, from)]) == if code == OutOfRange then None else CheckpointAfter(log)
  {
    assert forall x :: Front(log + [x]) == log;
  }
}
