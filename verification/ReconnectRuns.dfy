/** What holds of every history of the reconnecting wrapper. */
module ReconnectRuns {
  import opened Collections
  import opened Protocol
  import opened DedupModel
  import opened DedupHistory
  import opened Reconnect

  lemma {:induction false} LegalPrefix(log: seq<Entry>, resume: bool, maxRetries: nat, i: nat)
    requires Legal(log, resume, maxRetries) && i <= |log|
    ensures Legal(log[..i], resume, maxRetries)
  {
    if i < |log| {
      LegalPrefix(Front(log), resume, maxRetries, i);
      assert Front(log)[..i] == log[..i];
    } else {
      assert log[..i] == log;
    }
  }

  /** Only the last event can be terminal: afterwards the wrapper never polls or connects again. */
  lemma NothingAfterTheEnd(log: seq<Entry>, resume: bool, maxRetries: nat, i: nat)
    requires Legal(log, resume, maxRetries) && i + 1 < |log|
    ensures !log[i].Terminal()
  {
    LegalPrefix(log, resume, maxRetries, i + 2);
    assert Front(log[..i + 2]) == log[..i + 1] && Last(log[..i + 1]) == log[i];
  }

  /** A new stream opens only after a reconnect was asked for, and every request but the last has
      been followed by a new stream. */
  lemma {:induction false} RequestsAndStreams(log: seq<Entry>, resume: bool, maxRetries: nat)
    requires Legal(log, resume, maxRetries)
    ensures Cuts(log) == Opens(log) + if log != [] && (Last(log).Cut? || Last(log).Refused?) then 1 else 0
  {
    if log != [] {
      RequestsAndStreams(Front(log), resume, maxRetries);
    }
  }

  function MetaSlot(x: Entry): nat
    requires x.Meta()
  {
    x.update.updateOneof.value.slot
  }

  function Cuts(log: seq<Entry>): nat {
    if log == [] then 0 else Cuts(Front(log)) + if Last(log).Cut? then 1 else 0
  }

  /** `f` stays two slots behind the BlockMeta that is event `i`, at zero for the first two slots, and
      neither a BlockMeta nor an OutOfRange came since. */
  ghost predicate CheckpointFrom(log: seq<Entry>, i: int, f: nat) {
    && 0 <= i < |log| && log[i].Meta() && f == (if MetaSlot(log[i]) < 2 then 0 else MetaSlot(log[i]) - 2)
    && forall j | i < j < |log| :: !log[j].Meta() && !log[j].ClearsCheckpoint()
  }

  /** An OutOfRange came after every BlockMeta. */
  ghost predicate NoneSinceCleared(log: seq<Entry>) {
    forall i | 0 <= i < |log| && log[i].Meta() :: exists j :: i < j < |log| && log[j].ClearsCheckpoint()
  }

  lemma StillFrom(log: seq<Entry>, x: Entry, i: int, f: nat)
    requires CheckpointFrom(log, i, f) && !x.Meta() && !x.ClearsCheckpoint()
    ensures CheckpointFrom(log + [x], i, f)
  {
    assert (log + [x])[|log|] == x && forall j | 0 <= j < |log| :: (log + [x])[j] == log[j];
  }

  lemma StillCleared(log: seq<Entry>, x: Entry)
    requires x.ClearsCheckpoint() || (NoneSinceCleared(log) && !x.Meta())
    ensures NoneSinceCleared(log + [x])
  {
    var all := log + [x];
    assert all[|log|] == x && forall j | 0 <= j < |log| :: all[j] == log[j];
    forall i | 0 <= i < |all| && all[i].Meta() ensures exists j :: i < j < |all| && all[j].ClearsCheckpoint() {
      if x.ClearsCheckpoint() {
        assert all[|log|].ClearsCheckpoint();
      } else {
        var j :| i < j < |log| && log[j].ClearsCheckpoint();
        assert all[j].ClearsCheckpoint();
      }
    }
  }

  /** The meaning of the checkpoint: it stays two slots behind the last BlockMeta, at zero for the first two,
      and is absent if there was none or an OutOfRange came later. */
  lemma {:induction false} CheckpointMeaning(log: seq<Entry>)
    ensures CheckpointAfter(log).Some? ==> exists i :: CheckpointFrom(log, i, CheckpointAfter(log).value)
    ensures CheckpointAfter(log).None? ==> NoneSinceCleared(log)
  {
    if log != [] {
      var front, x := Front(log), Last(log);
      assert log == front + [x];
      CheckpointMeaning(front);
      if x.Meta() {
        assert CheckpointFrom(log, |front|, CheckpointAfter(log).value);
      } else if !x.ClearsCheckpoint() && CheckpointAfter(front).Some? {
        var i :| CheckpointFrom(front, i, CheckpointAfter(front).value);
        StillFrom(front, x, i, CheckpointAfter(front).value);
        assert CheckpointFrom(log, i, CheckpointAfter(log).value);
      } else {
        StillCleared(front, x);
      }
    }
  }

  // ---------- the checkpoint is safe ----------

  ghost predicate Heard(log: seq<Entry>, slot: nat) {
    exists x <- log :: x.Got? && ExtractSlot(x.update) == Some(slot)
  }

  predicate MetaFor(x: Entry, slot: nat) {
    x.Meta() && x.update.updateOneof.value.slot == slot
  }

  ghost predicate HasMeta(log: seq<Entry>, slot: nat) {
    exists x <- log :: MetaFor(x, slot)
  }

  ghost predicate StillUnfinished(log: seq<Entry>, slot: nat) {
    Heard(log, slot) && !HasMeta(log, slot)
  }

  /** Event `i` is the last BlockMeta before event `c`. */
  ghost predicate LastMetaBefore(log: seq<Entry>, i: int, c: int) {
    0 <= i < c < |log| && log[i].Meta() && forall j | i < j < c :: !log[j].Meta()
  }

  /** The stream breaks near the slot: whenever it breaks with the slot unfinished, the slot is not further
      behind the last BlockMeta than two, the checkpoint's distance. */
  ghost predicate BreaksNear(log: seq<Entry>, slot: nat) {
    forall i, c | LastMetaBefore(log, i, c) && log[c].Cut? && StillUnfinished(log[..c], slot) ::
      MetaSlot(log[i]) <= slot + 2
  }

  /** A requested slot is the checkpoint of an earlier BlockMeta. */
  lemma RequestedCheckpoint(log: seq<Entry>, resume: bool, maxRetries: nat, c: nat) returns (i: nat)
    requires Legal(log, resume, maxRetries)
    requires c < |log| && log[c].Cut? && log[c].fromSlot.Some?
    ensures resume && i < c && log[i].Meta()
    ensures log[c].fromSlot.value == if MetaSlot(log[i]) < 2 then 0 else MetaSlot(log[i]) - 2
    ensures forall j | i < j < c :: !log[j].Meta() && !log[j].ClearsCheckpoint()
    ensures log[c].code != OutOfRange
  {
    LegalPrefix(log, resume, maxRetries, c + 1);
    var upTo := log[..c + 1];
    assert Last(upTo) == log[c] && CheckpointAfter(upTo) == log[c].fromSlot;
    hide Legal;
    CheckpointMeaning(upTo);
    i :| CheckpointFrom(upTo, i, log[c].fromSlot.value);
    assert forall j | 0 <= j <= c :: upTo[j] == log[j];
    assert !upTo[c].ClearsCheckpoint();
  }

  /** A reconnect that resumes asks for the slot, or from below it, if and only if the last BlockMeta is not
      more than two slots ahead of it. */
  lemma RequestReaches(log: seq<Entry>, resume: bool, maxRetries: nat, c: nat, slot: nat)
    requires Legal(log, resume, maxRetries)
    requires c < |log| && log[c].Cut? && log[c].fromSlot.Some?
    ensures log[c].fromSlot.value <= slot <==>
            forall i | LastMetaBefore(log, i, c) :: MetaSlot(log[i]) <= slot + 2
  {
    var i := RequestedCheckpoint(log, resume, maxRetries, c);
    hide Legal;
    hide CheckpointAfter;
    assert LastMetaBefore(log, i, c);
    assert forall k | LastMetaBefore(log, k, c) :: k == i;
  }

  ghost predicate NeverAsksAbove(log: seq<Entry>, slot: nat) {
    forall c | 0 <= c < |log| && log[c].Cut? && log[c].fromSlot.Some? && StillUnfinished(log[..c], slot) ::
      log[c].fromSlot.value <= slot
  }

  /** The reconnects that find the slot unfinished resume from a checkpoint. */
  ghost predicate AlwaysResumes(log: seq<Entry>, slot: nat) {
    forall c | 0 <= c < |log| && log[c].Cut? && StillUnfinished(log[..c], slot) :: log[c].fromSlot.Some?
  }

  /** If the stream breaks near the slot, no reconnect asks for a slot above it while it is unfinished; and
      where reconnects resume, only then. */
  lemma CheckpointIsSafe(log: seq<Entry>, resume: bool, maxRetries: nat, slot: nat)
    requires Legal(log, resume, maxRetries)
    ensures BreaksNear(log, slot) ==> NeverAsksAbove(log, slot)
    ensures AlwaysResumes(log, slot) && NeverAsksAbove(log, slot) ==> BreaksNear(log, slot)
  {
    hide StillUnfinished;
    forall c: nat | c < |log| && log[c].Cut? && log[c].fromSlot.Some?
      ensures log[c].fromSlot.value <= slot <==>
              forall i | LastMetaBefore(log, i, c) :: MetaSlot(log[i]) <= slot + 2
    {
      RequestReaches(log, resume, maxRetries, c, slot);
    }
    hide Legal;
    if AlwaysResumes(log, slot) && NeverAsksAbove(log, slot) {
      forall i, c | LastMetaBefore(log, i, c) && log[c].Cut? && StillUnfinished(log[..c], slot)
        ensures MetaSlot(log[i]) <= slot + 2
      {
      }
    }
  }

  /** The wrapper's own report of the reconnects is fit for the replay layer behind it. */
  lemma {:induction false} ForwardedCounts(log: seq<Entry>)
    ensures Monotone(Forwarded(log)) && forall e <- Forwarded(log) :: e.count <= Opens(log)
  {
    if log != [] {
      ForwardedCounts(Front(log));
      var before := Forwarded(Front(log));
      forall i, j | 0 <= i <= j < |Forwarded(log)| ensures Forwarded(log)[i].count <= Forwarded(log)[j].count {
        if j < |before| {
        } else if i < |before| {
          assert before[i] in before;
        }
      }
    }
  }

  lemma {:induction false} ForwardedPrefix(log: seq<Entry>, i: nat)
    requires i <= |log|
    ensures Forwarded(log[..i]) <= Forwarded(log)
  {
    if i < |log| {
      ForwardedPrefix(Front(log), i);
      assert Front(log)[..i] == log[..i];
    } else {
      assert log[..i] == log;
    }
  }

  lemma ForwardedFront(log: seq<Entry>)
    ensures log == [] ==> Forwarded(log) == []
    ensures log != [] ==>
              Forwarded(log) == Forwarded(Front(log)) +
                                if Last(log).Got? && !InternalOnly(Last(log).update)
                                then [Event(Opens(log), Subscribe(Strip(Last(log).update)))] else []
  {
  }

  /** Every forwarded message stems from one received message. */
  lemma {:induction false} ForwardedSource(log: seq<Entry>, m: nat) returns (i: nat)
    requires m < |Forwarded(log)|
    ensures i < |log| && log[i].Got? && !InternalOnly(log[i].update)
    ensures Forwarded(log[..i]) == Forwarded(log)[..m]
    ensures Forwarded(log)[m] == Event(Opens(log[..i + 1]), Subscribe(Strip(log[i].update)))
  {
    var front := Front(log);
    ForwardedFront(log);
    hide Forwarded;
    if m < |Forwarded(front)| {
      i := ForwardedSource(front, m);
      assert front[..i] == log[..i] && front[..i + 1] == log[..i + 1] && front[i] == log[i];
      assert Forwarded(log)[..m] == Forwarded(front)[..m];
    } else {
      i := |log| - 1;
      assert log[..i] == front && log[..i + 1] == log;
      assert Forwarded(log)[..m] == Forwarded(front);
    }
  }

  lemma LastForwarded(log: seq<Entry>, u: SubscribeUpdate)
    requires log != [] && log[|log| - 1] == Got(u) && !InternalOnly(u)
    ensures |Forwarded(log)| > 0
    ensures Forwarded(log)[|Forwarded(log)| - 1] == Event(Opens(log), Subscribe(Strip(u)))
  {
  }

  /** Every received message that is not internal is forwarded. */
  lemma ForwardedTarget(log: seq<Entry>, i: nat)
    requires i < |log| && log[i].Got? && !InternalOnly(log[i].update)
    ensures Event(Opens(log[..i + 1]), Subscribe(Strip(log[i].update))) in Forwarded(log[..i + 1])
    ensures Event(Opens(log[..i + 1]), Subscribe(Strip(log[i].update))) in Forwarded(log)
  {
    hide *;
    ForwardedPrefix(log, i + 1);
    LastForwarded(log[..i + 1], log[i].update);
    var part := Forwarded(log[..i + 1]);
    assert part[|part| - 1] == Forwarded(log)[|part| - 1];
  }

  /** What the wrapper does to filters: it takes out its own, however often it is there, and keeps every
      other as often as it was; and it swallows a message exactly if there were filters and none remains. */
  lemma FiltersAre(u: SubscribeUpdate)
    ensures Strip(u).updateOneof == u.updateOneof
    ensures forall f ::
              multiset(Strip(u).filters)[f] == if f == "__autoreconnect" then 0 else multiset(u.filters)[f]
    ensures "__autoreconnect" !in u.filters ==> Strip(u) == u
    ensures InternalOnly(u) <==> u.filters != [] && Strip(u).filters == []
  {
    var other: string -> bool := f => f != AUTORECONNECT_FILTER_KEY;
    assert Strip(u).filters == Filter(u.filters, other);
    forall f ensures multiset(Strip(u).filters)[f] == if f == "__autoreconnect" then 0 else multiset(u.filters)[f] {
      FilterCount(u.filters, other, f);
    }
    if "__autoreconnect" !in u.filters {
      FilterAll(u.filters, other);
    }
    if InternalOnly(u) {
      FilterNone(u.filters, other);
    } else {
      assert forall f <- u.filters :: other(f) ==> f in Filter(u.filters, other);
    }
    hide Filter;
  }

  /** The codes after which the wrapper gives up. */
  lemma GivesUpOn(code: Code)
    ensures !Recoverable(code) <==>
            code in {Ok, InvalidArgument, NotFound, AlreadyExists, PermissionDenied, FailedPrecondition, Unimplemented,
                     Unauthenticated}
  {
  }

  /** A turn answers that nothing is ready if and only if the side that was polled last is not. */
  lemma PendingTurn(log: seq<Entry>, settings: Settings, a: Answer)
    requires !PhaseAfter(log).Stopped?
    ensures TurnOutcome(log, AfterTurn(log, settings, a)) == Some(Pending) <==>
            if PhaseAfter(log).Connecting? then a.connect.NotConnected?
            else a.stream.StreamNotReady? ||
                 (a.stream.Broken? && Recoverable(a.stream.code) && settings.maxRetries > 0 && a.connect.NotConnected?)
  {
    if PhaseAfter(log).Streaming? {
      assert log + [] == log;
      var polled := log + StreamEntries(log, settings, a.stream);
      assert polled + [] == polled;
    }
  }

  /** Stripping the internal filter changes no key, and leaves no trace of the filter. */
  lemma StripKeepsKey(u: SubscribeUpdate)
    ensures ExtractKey(Subscribe(Strip(u))) == ExtractKey(Subscribe(u))
    ensures AUTORECONNECT_FILTER_KEY !in Strip(u).filters
    ensures !InternalOnly(u) ==> (Strip(u).filters == [] <==> u.filters == [])
  {
  }
}
