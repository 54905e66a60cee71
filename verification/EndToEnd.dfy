/** The whole client: a reconnecting wrapper feeding the replay layer, against a server that replays
    from the slot it is asked for. */
module EndToEnd {
  import opened Collections
  import opened Protocol
  import opened DedupModel
  import opened DedupSlots
  import opened DedupHistory
  import opened DedupExactlyOnce
  import opened Reconnect
  import opened ReconnectRuns

  predicate Carries(x: Entry, slot: nat, key: DedupKey) {
    x.Got? && ExtractKey(Subscribe(x.update)) == Some((slot, key))
  }

  /** The slot that the last reconnect asked for, if there was one. */
  function LastRequest(log: seq<Entry>): Option<Option<nat>> {
    if log == [] then None
    else if Last(log).Cut? then Some(Last(log).fromSlot)
    else LastRequest(Front(log))
  }

  /** What the server owes for the slot: its block has a fixed content, and a connection that was asked for
      from the slot, or from below it, brings all of it before the slot's BlockMeta. */
  ghost predicate ServerReplays(log: seq<Entry>, slot: nat, content: set<DedupKey>) {
    && (forall x <- log, key | Carries(x, slot, key) && key.IsPayload() :: key in content)
    && (forall i: nat, key |
          && i < |log| && MetaFor(log[i], slot) && key in content
          && LastRequest(log[..i]).Some? && LastRequest(log[..i]).value.Some?
          && LastRequest(log[..i]).value.value <= slot ::
          BroughtNow(log[..i], slot, key))
  }

  /** The live connection has brought the key. */
  ghost predicate BroughtNow(log: seq<Entry>, slot: nat, key: DedupKey) {
    exists j :: 0 <= j < |log| && Carries(log[j], slot, key) && Opens(log[..j + 1]) == Opens(log)
  }

  /** Payload and BlockMeta of the slot matched a filter of the user. */
  ghost predicate Wanted(log: seq<Entry>, slot: nat) {
    forall x <- log | x.Got? && InBlock(Subscribe(x.update), slot) :: !InternalOnly(x.update)
  }

  lemma {:induction false} OpensGrow(log: seq<Entry>, a: nat, b: nat)
    requires a <= b <= |log|
    ensures Opens(log[..a]) <= Opens(log[..b])
  {
    if a < b {
      OpensGrow(log, a, b - 1);
      assert Front(log[..b]) == log[..b - 1];
    }
  }

  /** The reconnect that led to the live connection. */
  lemma {:induction false} LiveRequest(log: seq<Entry>, resume: bool, maxRetries: nat) returns (q: nat)
    requires Legal(log, resume, maxRetries) && PhaseAfter(log).Streaming? && Opens(log) > 0
    ensures q + 1 < |log| && log[q].Cut? && LastRequest(log) == Some(log[q].fromSlot)
    ensures Opens(log[..q]) < Opens(log) == Opens(log[..q + 2])
  {
    var front := Front(log);
    if Last(log).Opened? {
      q := |log| - 2;
      assert Last(front) == log[q] && front[..q] == log[..q] && Front(front) == log[..q];
      assert log[..q + 2] == log;
    } else {
      assert Last(log).Got?;
      q := LiveRequest(front, resume, maxRetries);
      assert front[..q] == log[..q] && front[..q + 2] == log[..q + 2];
    }
  }

  lemma WantedIsForwarded(log: seq<Entry>, slot: nat, j: nat, i: nat)
    requires Wanted(log, slot) && j < i <= |log| && log[j].Got? && InBlock(Subscribe(log[j].update), slot)
    ensures exists e <- Forwarded(log[..i]) ::
              e.count == Opens(log[..j + 1]) && ExtractKey(e.msg) == ExtractKey(Subscribe(log[j].update))
  {
    var part := log[..i];
    assert part[j] == log[j] && part[..j + 1] == log[..j + 1] && log[j] in log;
    ForwardedTarget(part, j);
    StripKeepsKey(log[j].update);
  }

  lemma UpdateOfMeta(x: Entry, slot: nat)
    ensures MetaFor(x, slot) <==> x.Got? && IsMetaOf(Subscribe(x.update), slot)
    ensures x.Got? && OfSlot(Subscribe(x.update), slot) ==> ExtractSlot(x.update) == Some(slot)
  {
  }

  /** The connection that completes a slot begun by an earlier one was asked for from that slot or
      from below it. */
  lemma RequestedFromBelow(log: seq<Entry>, resume: bool, maxRetries: nat, slot: nat, i: nat, j: nat, key: DedupKey)
    requires Legal(log, resume, maxRetries) && BreaksNear(log, slot) && AlwaysResumes(log, slot)
    requires j < i < |log| && log[i].Got? && !HasMeta(log[..i], slot)
    requires Carries(log[j], slot, key) && Opens(log[..j + 1]) < Opens(log[..i])
    ensures var request := LastRequest(log[..i]);
            request.Some? && request.value.Some? && request.value.value <= slot
  {
    hide StillUnfinished;
    hide HasMeta;
    hide BreaksNear;
    var part := log[..i];
    LegalPrefix(log, resume, maxRetries, i + 1);
    assert Front(log[..i + 1]) == part && Last(log[..i + 1]) == log[i];
    var q := LiveRequest(part, resume, maxRetries);
    assert part[..q] == log[..q] && part[..q + 2] == log[..q + 2] && part[q] == log[q];
    hide Legal;
    hide Opens;
    hide LastRequest;
    if j > q {
      OpensGrow(log, q + 2, j + 1);
    }
    BegunIsUnfinished(log, slot, j, q, i, key);
    CheckpointIsSafe(log, resume, maxRetries, slot);
  }

  /** A slot that an earlier connection began is replayed in full by the one that completes it. */
  lemma BegunIsReplayed(log: seq<Entry>, resume: bool, maxRetries: nat, content: set<DedupKey>,
                        slot: nat, i: nat, j: nat, key: DedupKey)
    requires Legal(log, resume, maxRetries) && BreaksNear(log, slot)
    requires ServerReplays(log, slot, content) && AlwaysResumes(log, slot)
    requires j < i < |log| && MetaFor(log[i], slot) && !HasMeta(log[..i], slot)
    requires Carries(log[j], slot, key) && key.IsPayload() && Opens(log[..j + 1]) < Opens(log[..i])
    ensures BroughtNow(log[..i], slot, key)
  {
    RequestedFromBelow(log, resume, maxRetries, slot, i, j, key);
    hide Legal;
    hide Opens;
    hide LastRequest;
    hide BreaksNear;
    hide BroughtNow;
    hide HasMeta;
    hide AlwaysResumes;
    assert log[j] in log;
  }

  lemma BegunIsUnfinished(log: seq<Entry>, slot: nat, j: nat, q: nat, i: nat, key: DedupKey)
    requires j < q <= i < |log| && Carries(log[j], slot, key) && !HasMeta(log[..i], slot)
    ensures StillUnfinished(log[..q], slot)
  {
    UpdateOfMeta(log[j], slot);
    assert log[j] in log[..q];
    assert forall x <- log[..q] :: x in log[..i];
  }

  lemma NotCompletedBefore(log: seq<Entry>, slot: nat, i: nat)
    requires Wanted(log, slot) && i <= |log| && !Completed(Forwarded(log[..i]), slot)
    ensures !HasMeta(log[..i], slot)
  {
    if HasMeta(log[..i], slot) {
      var p :| 0 <= p < i && MetaFor(log[p], slot);
      UpdateOfMeta(log[p], slot);
      WantedIsForwarded(log, slot, p, i);
    }
  }

  lemma SourceOf(log: seq<Entry>, i: nat, e: Event) returns (j: nat)
    requires i <= |log| && e in Forwarded(log[..i])
    ensures j < i && log[j].Got? && ExtractKey(Subscribe(log[j].update)) == ExtractKey(e.msg)
    ensures Opens(log[..j + 1]) == e.count
  {
    var m :| 0 <= m < |Forwarded(log[..i])| && Forwarded(log[..i])[m] == e;
    j := ForwardedSource(log[..i], m);
    StripKeepsKey(log[j].update);
    assert log[..i][..j + 1] == log[..j + 1];
  }

  /** One payload message that came before the BlockMeta was brought again by the connection of the
      BlockMeta, or came on it in the first place. */
  lemma BroughtByCompletion(log: seq<Entry>, resume: bool, maxRetries: nat, content: set<DedupKey>,
                            slot: nat, i: nat, e: Event)
    requires Legal(log, resume, maxRetries) && BreaksNear(log, slot)
    requires ServerReplays(log, slot, content) && AlwaysResumes(log, slot) && Wanted(log, slot)
    requires i < |log| && MetaFor(log[i], slot) && !Completed(Forwarded(log[..i]), slot)
    requires e in Forwarded(log[..i]) && IsPayloadOf(e.msg, slot)
    ensures exists e' <- Forwarded(log[..i]) :: e'.count == Opens(log[..i]) && ExtractKey(e'.msg) == ExtractKey(e.msg)
  {
    hide Legal;
    hide BreaksNear;
    hide ServerReplays;
    hide AlwaysResumes;
    hide HasMeta;
    hide Wanted;
    if e.count != Opens(log[..i]) {
      var key := ExtractKey(e.msg).value.1;
      var j := SourceOf(log, i, e);
      NotCompletedBefore(log, slot, i);
      OpensGrow(log, j + 1, i);
      BegunIsReplayed(log, resume, maxRetries, content, slot, i, j, key);
      var k :| 0 <= k < i && Carries(log[..i][k], slot, key) && Opens(log[..i][..k + 1]) == Opens(log[..i]);
      assert log[..i][k] == log[k] && log[..i][..k + 1] == log[..k + 1];
      WantedIsForwarded(log, slot, k, i);
    }
  }

  lemma CompletionIsInFull(log: seq<Entry>, resume: bool, maxRetries: nat, content: set<DedupKey>,
                           slot: nat, m: nat)
    requires Legal(log, resume, maxRetries) && BreaksNear(log, slot)
    requires ServerReplays(log, slot, content) && AlwaysResumes(log, slot) && Wanted(log, slot)
    requires var es := Forwarded(log);
             m < |es| && IsMetaOf(es[m].msg, slot) && !Completed(es[..m], slot)
    ensures ReplayedInFull(Forwarded(log)[..m], slot, Forwarded(log)[m].count)
  {
    var es := Forwarded(log);
    var i := ForwardedSource(log, m);
    StripKeepsKey(log[i].update);
    UpdateOfMeta(log[i], slot);
    assert Opens(log[..i + 1]) == Opens(log[..i]) by {
      assert Front(log[..i + 1]) == log[..i] && Last(log[..i + 1]) == log[i];
    }
    forall e <- es[..m] | IsPayloadOf(e.msg, slot)
      ensures exists e' <- es[..m] ::
                e'.count in {FirstCount(es[..m], slot), es[m].count} && ExtractKey(e'.msg) == ExtractKey(e.msg)
    {
      hide *;
      BroughtByCompletion(log, resume, maxRetries, content, slot, i, e);
    }
  }

  /** End to end. Take any history of the wrapper, and a slot whose messages the user wants, whose
      BlockMeta agree, of which one, event `m`, was handed on first, and which does not leave the window
      between two of its messages. Let the server replay the slot when it is asked for from there or
      below; and wherever the stream broke with the slot unfinished, let it have broken near the slot, with
      a checkpoint to resume from. Whatever happens to other slots and at other times, the user then gets
      each payload key that any connection carried before that BlockMeta exactly once, then the BlockMeta
      exactly once, and nothing more of the block; if and only if no CreatedBank does harm. */
  lemma NothingLostNothingTwice(log: seq<Entry>, resume: bool, maxRetries: nat, content: set<DedupKey>,
                                retention: nat, slot: nat, m: nat, hash: string)
    requires Legal(log, resume, maxRetries) && BreaksNear(log, slot)
    requires ServerReplays(log, slot, content) && AlwaysResumes(log, slot) && Wanted(log, slot)
    requires var es := Forwarded(log);
             && TrackedThroughout(retention, es, slot) && OneHash(es, slot, hash)
             && m < |es| && IsMetaOf(es[m].msg, slot) && !Completed(es[..m], slot)
    ensures var es := Forwarded(log);
            var keys := DeliverableKeys(es[..m], slot, es[m].count);
            && (DeliveredOnce(BlockPart(Run(retention, es).out, slot), slot, keys, es[m].msg) <==>
                BanksAreHarmless(es, slot, m))
            && forall key :: key in keys <==> CarriedKey(es[..m], slot, key)
  {
    ForwardedCounts(log);
    hide *;
    ExactlyOnce(retention, Forwarded(log), slot, m, hash);
    CompletionIsInFull(log, resume, maxRetries, content, slot, m);
  }
}
