/** A session, the reconstruction loop and the plugin in any interleaving. */
module ClientRuns {
  import opened Collections
  import opened Blocks
  import opened Storage
  import opened StorageRuns
  import opened Publication
  import opened ReplayHandoff
  import opened ClientLoop

  /** The loop takes a batch of inputs, and then sends what it has to announce; the plugin sends to the same
      channels; the session asks, is answered, and receives. */
  datatype Action =
    | Loop(inputs: seq<Input>)
    | Send(level: CommitmentLevel)
    | Plugin(level: CommitmentLevel, batch: Batch)
    | Ask(commitment: CommitmentLevel, filter: Item -> bool, from: Option<nat>)
    | Answer
    | Receive(room: nat)

  /** The last request that was answered: what had been sent and where the receiver stood when it was made,
      after how many batches of the loop it was answered, and how many the channel carried then. */
  datatype Served = Served(from: nat, base: seq<Item>, start: nat, at: nat, end: nat)

  /** `base` and `start` are what had been sent, and where the receiver stood, when the session made its last
      request, or opened. */
  datatype World = World(batches: seq<seq<Input>>, hub: Hub, channels: Channels, client: Client,
                         base: seq<Item>, start: nat, served: Option<Served>)
  {
    function Followed(): seq<SharedBatch> {
      channels.At(client.commitment)
    }
  }

  function SendTo(channels: Channels, level: CommitmentLevel, b: SharedBatch): Channels {
    match level
    case Processed => channels.(processed := channels.processed + [b])
    case Confirmed => channels.(confirmed := channels.confirmed + [b])
    case Finalized => channels.(finalized := channels.finalized + [b])
  }

  /** The loop has sent everything that it announces. */
  predicate AllSent(w: World) {
    && OwnBatches(w.channels.processed) == w.hub.Channel(Processed)
    && OwnBatches(w.channels.confirmed) == w.hub.Channel(Confirmed)
    && OwnBatches(w.channels.finalized) == w.hub.Channel(Finalized)
  }

  /** The loop takes inputs and serves requests only when it has sent everything; a session that waits for
      its answer does nothing else. */
  predicate Possible(w: World, a: Action) {
    match a
    case Loop(inputs) => AllSent(w) && LegalRun(w.hub.store, inputs) && AcceptAll(w.hub.store, inputs).Some?
    case Send(level) => |OwnBatches(w.channels.At(level))| < |w.hub.Channel(level)|
    case Plugin(_, _) => true
    case Ask(_, _, _) => w.client.Idle()
    case Answer => AllSent(w) && w.client.outcome == Open && w.client.waiting.Some?
    case Receive(_) => w.client.Idle() && w.client.position < |w.Followed()|
  }

  function Do(w: World, a: Action, lag: nat): World
    requires Possible(w, a)
  {
    match a
    case Loop(inputs) => w.(batches := w.batches + [inputs], hub := OnBatch(w.hub, inputs).value)
    case Send(level) =>
      var next := w.hub.Channel(level)[|OwnBatches(w.channels.At(level))|];
      w.(channels := SendTo(w.channels, level, SharedBatch(true, next)))
    case Plugin(level, batch) => w.(channels := SendTo(w.channels, level, SharedBatch(false, batch)))
    case Ask(commitment, filter, from) =>
      var asked := Asked(w.client, commitment, filter, from, |w.channels.At(commitment)|);
      w.(client := asked, base := w.client.sent, start := asked.position, served := None)
    case Answer =>
      var from := w.client.waiting.value;
      w.(client := Answered(w.client, ReplyTo(w.hub.store, from, w.client.commitment)),
         served := Some(Served(from, w.client.sent, w.client.position, |w.batches|, |w.Followed()|)))
    case Receive(room) => w.(client := Received(w.client, w.Followed(), lag, room))
  }

  /** The world after the actions, absent if one of them was not possible. */
  function DoAll(start: World, actions: seq<Action>, lag: nat): Option<World> {
    if actions == [] then Some(start)
    else
      match DoAll(start, Front(actions), lag)
      case None => None
      case Some(w) => if Possible(w, Last(actions)) then Some(Do(w, Last(actions), lag)) else None
  }

  ghost predicate ChannelsFit(hub: Hub, channels: Channels) {
    forall level: CommitmentLevel :: OwnBatches(channels.At(level)) <= hub.Channel(level)
  }

  ghost predicate HubIs(capacity: nat, batches: seq<seq<Input>>, hub: Hub) {
    LegalHubRun(capacity, batches) && RunHub(capacity, batches) == Some(hub)
  }

  /** A session opens at any time. */
  ghost predicate Opens(start: World, capacity: nat) {
    && HubIs(capacity, start.batches, start.hub) && ChannelsFit(start.hub, start.channels)
    && start.client.Idle() && start.client.sent == [] && start.served.None?
    && start.client.position == start.start == |start.Followed()| && start.base == []
  }

  /** What the filter lets through of the batches. */
  function Filtered(channel: seq<SharedBatch>, filter: Item -> bool): seq<Item> {
    if channel == [] then [] else Filtered(Front(channel), filter) + Filter(Last(channel).batch, filter)
  }

  lemma OneMore(channel: seq<SharedBatch>, start: nat, position: nat, filter: Item -> bool, base: seq<Item>)
    requires start <= position < |channel|
    ensures base + Filtered(channel[start..position], filter) + Filter(channel[position].batch, filter) ==
            base + Filtered(channel[start..position + 1], filter)
  {
    var followed := channel[start..position + 1];
    assert Front(followed) == channel[start..position] && Last(followed) == channel[position];
    assert Filtered(followed, filter) == Filtered(Front(followed), filter) + Filter(Last(followed).batch, filter);
    hide Filter;
    hide Filtered;
    Associative(base, Filtered(channel[start..position], filter), Filter(channel[position].batch, filter));
  }

  lemma NothingYet(channel: seq<SharedBatch>, position: nat, filter: Item -> bool, base: seq<Item>)
    requires position <= |channel|
    ensures base + Filtered(channel[position..position], filter) == base
  {
    assert channel[position..position] == [];
  }

  /** The session has been answered by the loop as it was then, `past`, and since been sent everything on its
      channel from where its receiver stood when it asked, filtered, in order. */
  ghost predicate Follows(past: Option<Hub>, channel: seq<SharedBatch>, c: Client, served: Served) {
    && past.Some? && served.start <= served.end <= |channel| && served.start <= c.position <= |channel|
    && OwnBatches(channel[..served.end]) == past.value.Channel(c.commitment)
    && var reply := ReplyTo(past.value.store, served.from, c.commitment);
       && reply.Messages?
       && c.sent == served.base + Filter(reply.items, c.filter)
                    + Filtered(channel[served.start..c.position], c.filter)
  }

  ghost predicate Answers(capacity: nat, w: World, served: Served) {
    && w.client.waiting.None? && served.at <= |w.batches|
    && Follows(RunHub(capacity, w.batches[..served.at]), w.Followed(), w.client, served)
  }

  /** The session waits for its answer; or has asked for none, and been sent everything on its channel from
      where its receiver stood, filtered, in order; or has been answered. */
  ghost predicate Streams(w: World)
    requires w.client.position <= |w.Followed()|
  {
    && (w.client.waiting.Some? ==> w.client.position == w.start && w.client.sent == w.base && w.served.None?)
    && (w.served.None? ==>
          && w.start <= w.client.position
          && w.client.sent == w.base + Filtered(w.Followed()[w.start..w.client.position], w.client.filter))
    && (w.served.Some? ==> w.served.value.base == w.base && w.served.value.start == w.start)
  }

  ghost predicate InStep(capacity: nat, w: World) {
    && HubIs(capacity, w.batches, w.hub) && ChannelsFit(w.hub, w.channels)
    && w.client.position <= |w.Followed()|
    && (w.client.outcome == Open ==> Streams(w))
    && (w.served.Some? && w.client.outcome == Open ==> Answers(capacity, w, w.served.value))
  }

  lemma LoopExtends(capacity: nat, batches: seq<seq<Input>>, hub: Hub, inputs: seq<Input>)
    requires HubIs(capacity, batches, hub) && LegalRun(hub.store, inputs) && AcceptAll(hub.store, inputs).Some?
    ensures OnBatch(hub, inputs).Some? && HubIs(capacity, batches + [inputs], OnBatch(hub, inputs).value)
    ensures forall level: CommitmentLevel :: hub.Channel(level) <= OnBatch(hub, inputs).value.Channel(level)
  {
    var t := OnBatch(hub, inputs).value;
    assert Front(batches + [inputs]) == batches;
    forall level: CommitmentLevel ensures hub.Channel(level) <= t.Channel(level) {
      ChannelExtends(hub, t, level);
    }
    hide AcceptAll;
    hide LegalRun;
    hide Announcements;
  }

  lemma FitsLonger(hub: Hub, longer: Hub, channels: Channels)
    requires ChannelsFit(hub, channels)
    requires forall level: CommitmentLevel :: hub.Channel(level) <= longer.Channel(level)
    ensures ChannelsFit(longer, channels)
  {
    hide OwnBatches;
    hide Announcements;
    forall level: CommitmentLevel ensures OwnBatches(channels.At(level)) <= longer.Channel(level) {
      assert OwnBatches(channels.At(level)) <= hub.Channel(level);
    }
  }

  lemma AnswersLater(capacity: nat, w: World, t: World, served: Served, inputs: seq<Input>)
    requires Answers(capacity, w, served)
    requires t.batches == w.batches + [inputs] && t.channels == w.channels && t.client == w.client
    ensures Answers(capacity, t, served)
  {
    assert t.batches[..served.at] == w.batches[..served.at];
    hide RunHub;
    hide Follows;
  }

  lemma LoopStep(capacity: nat, w: World, inputs: seq<Input>)
    requires InStep(capacity, w) && Possible(w, Loop(inputs))
    ensures InStep(capacity, Do(w, Loop(inputs), 0))
  {
    hide HubIs;
    hide ChannelsFit;
    hide Answers;
    hide OnBatch;
    hide LegalRun;
    hide AcceptAll;
    hide AllSent;
    LoopExtends(capacity, w.batches, w.hub, inputs);
    FitsLonger(w.hub, OnBatch(w.hub, inputs).value, w.channels);
    if w.served.Some? && w.client.outcome == Open {
      AnswersLater(capacity, w, Do(w, Loop(inputs), 0), w.served.value, inputs);
    }
  }

  lemma SentTo(channels: Channels, level: CommitmentLevel, b: SharedBatch, l: CommitmentLevel)
    ensures SendTo(channels, level, b).At(l) == channels.At(l) + if l == level then [b] else []
  {
    assert channels.At(l) + [] == channels.At(l);
  }

  lemma OwnSnoc(channel: seq<SharedBatch>, b: SharedBatch)
    ensures OwnBatches(channel + [b]) == OwnBatches(channel) + if b.own then [b.batch] else []
  {
    assert Front(channel + [b]) == channel;
  }

  lemma LongerFits(channel: seq<SharedBatch>, b: SharedBatch, hub: Hub, level: CommitmentLevel)
    requires OwnBatches(channel) <= hub.Channel(level)
    requires b.own ==>
               |OwnBatches(channel)| < |hub.Channel(level)| && b.batch == hub.Channel(level)[|OwnBatches(channel)|]
    ensures OwnBatches(channel + [b]) <= hub.Channel(level)
  {
    OwnSnoc(channel, b);
    hide OwnBatches;
    hide Announcements;
  }

  /** What was sent and followed does not change when the channel grows. */
  lemma FollowsOn(past: Option<Hub>, channel: seq<SharedBatch>, more: seq<SharedBatch>, c: Client, served: Served)
    requires Follows(past, channel, c, served)
    ensures Follows(past, channel + more, c, served)
  {
    var longer := channel + more;
    assert longer[..served.end] == channel[..served.end];
    assert longer[served.start..c.position] == channel[served.start..c.position];
    hide ReplyTo;
    hide Announcements;
    hide OwnBatches;
    hide Filter;
    hide Filtered;
  }

  lemma GrownStreams(w: World, t: World, level: CommitmentLevel, b: SharedBatch)
    requires t == w.(channels := SendTo(w.channels, level, b)) && w.client.position <= |w.Followed()| && Streams(w)
    ensures w.client.position <= |t.Followed()| && Streams(t)
  {
    SentTo(w.channels, level, b, w.client.commitment);
    hide Filtered;
    hide SendTo;
    if w.start <= w.client.position {
      SamePart(w.Followed(), t.Followed(), w.start, w.client.position);
    }
  }

  lemma SamePart<T>(a: seq<T>, b: seq<T>, start: nat, end: nat)
    requires a <= b && start <= end <= |a|
    ensures a[start..end] == b[start..end]
  {
  }

  lemma GrownStep(capacity: nat, w: World, level: CommitmentLevel, b: SharedBatch)
    requires InStep(capacity, w)
    requires var own := |OwnBatches(w.channels.At(level))|;
             b.own ==> own < |w.hub.Channel(level)| && b.batch == w.hub.Channel(level)[own]
    ensures InStep(capacity, w.(channels := SendTo(w.channels, level, b)))
  {
    var t := w.(channels := SendTo(w.channels, level, b));
    hide HubIs;
    hide RunHub;
    hide OwnBatches;
    hide SendTo;
    hide Announcements;
    SentTo(w.channels, level, b, w.client.commitment);
    LongerFits(w.channels.At(level), b, w.hub, level);
    forall l: CommitmentLevel ensures OwnBatches(t.channels.At(l)) <= w.hub.Channel(l) {
      SentTo(w.channels, level, b, l);
      assert w.channels.At(l) + [] == w.channels.At(l);
    }
    if w.client.outcome == Open {
      GrownStreams(w, t, level, b);
    }
    hide Streams;
    if w.served.Some? && w.client.outcome == Open {
      var served := w.served.value;
      FollowsOn(RunHub(capacity, w.batches[..served.at]), w.Followed(),
                if w.client.commitment == level then [b] else [], w.client, served);
    }
    hide Follows;
  }

  lemma SentIsAll(w: World, level: CommitmentLevel)
    requires AllSent(w)
    ensures OwnBatches(w.channels.At(level)) == w.hub.Channel(level)
  {
  }

  /** A session that is answered starts to follow. */
  lemma FollowsFromNow(hub: Hub, channel: seq<SharedBatch>, c: Client, from: nat, at: nat)
    requires OwnBatches(channel) == hub.Channel(c.commitment) && c.position <= |channel|
    requires ReplyTo(hub.store, from, c.commitment).Messages?
    ensures Follows(Some(hub), channel, Answered(c, ReplyTo(hub.store, from, c.commitment)),
                    Served(from, c.sent, c.position, at, |channel|))
  {
    hide Announcements;
    hide OwnBatches;
    hide ReplyTo;
    hide Filter;
    var items := ReplyTo(hub.store, from, c.commitment).items;
    assert channel[..|channel|] == channel;
    NothingYet(channel, c.position, c.filter, c.sent + Filter(items, c.filter));
    hide Filtered;
  }

  lemma AnswerStep(capacity: nat, w: World)
    requires InStep(capacity, w) && Possible(w, Answer)
    ensures InStep(capacity, Do(w, Answer, 0))
  {
    var c, from := w.client, w.client.waiting.value;
    assert RunHub(capacity, w.batches[..|w.batches|]) == Some(w.hub) by {
      assert w.batches[..|w.batches|] == w.batches;
    }
    hide RunHub;
    hide LegalHubRun;
    hide OwnBatches;
    hide Announcements;
    SentIsAll(w, c.commitment);
    hide HubIs;
    hide ChannelsFit;
    hide AllSent;
    hide ReplyTo;
    hide Filter;
    if ReplyTo(w.hub.store, from, c.commitment).Messages? {
      FollowsFromNow(w.hub, w.Followed(), c, from, |w.batches|);
    }
    hide Follows;
  }

  lemma ReceiveStep(capacity: nat, w: World, lag: nat, room: nat)
    requires InStep(capacity, w) && Possible(w, Receive(room))
    ensures InStep(capacity, Do(w, Receive(room), lag))
  {
    hide HubIs;
    hide ChannelsFit;
    hide Announcements;
    hide OwnBatches;
    hide RunHub;
    hide ReplyTo;
    hide Filter;
    hide Filtered;
    if w.served.Some? {
      var past, served := RunHub(capacity, w.batches[..w.served.value.at]).value, w.served.value;
      var reply := ReplyTo(past.store, served.from, w.client.commitment);
      OneMore(w.Followed(), served.start, w.client.position, w.client.filter,
              served.base + Filter(reply.items, w.client.filter));
    } else {
      OneMore(w.Followed(), w.start, w.client.position, w.client.filter, w.base);
    }
  }

  lemma ActionStep(capacity: nat, w: World, a: Action, lag: nat)
    requires InStep(capacity, w) && Possible(w, a)
    ensures InStep(capacity, Do(w, a, lag))
  {
    hide HubIs;
    hide ChannelsFit;
    hide Answers;
    hide Announcements;
    hide OwnBatches;
    match a {
      case Loop(inputs) => LoopStep(capacity, w, inputs);
      case Send(level) =>
        GrownStep(capacity, w, level, SharedBatch(true, w.hub.Channel(level)[|OwnBatches(w.channels.At(level))|]));
      case Plugin(level, batch) => GrownStep(capacity, w, level, SharedBatch(false, batch));
      case Ask(_, _, _) =>
      case Answer => AnswerStep(capacity, w);
      case Receive(room) => ReceiveStep(capacity, w, lag, room);
    }
  }

  /** However requests, answers, broadcasts, and what loop and plugin send interleave, the session has been
      sent, since its last answer, that answer and then its channel from where its receiver stood when it
      asked. */
  lemma {:induction false} AlwaysInStep(capacity: nat, start: World, actions: seq<Action>, lag: nat)
    requires Opens(start, capacity) && DoAll(start, actions, lag).Some?
    ensures InStep(capacity, DoAll(start, actions, lag).value)
  {
    if actions != [] {
      AlwaysInStep(capacity, start, Front(actions), lag);
      ActionStep(capacity, DoAll(start, Front(actions), lag).value, Last(actions), lag);
      hide InStep;
      hide Possible;
      hide Do;
      hide Opens;
    }
  }

  // ---------- what a session has been sent ----------

  lemma {:induction false} InFiltered(channel: seq<SharedBatch>, filter: Item -> bool, i: nat, x: Item)
    requires i < |channel| && x in channel[i].batch && filter(x)
    ensures x in Filtered(channel, filter)
  {
    if i < |channel| - 1 {
      InFiltered(Front(channel), filter, i, x);
    }
  }

  /** The block that was stored for the slot after the first `at` batches of the loop. */
  ghost function StoredAt(capacity: nat, batches: seq<seq<Input>>, at: nat, slot: nat): Option<FrozenBlock>
    requires at <= |batches|
  {
    match RunHub(capacity, batches[..at])
    case None => None
    case Some(h) => Lookup(h.store.replayed, slot)
  }

  /** What the session was sent since its answer, up to batch `i` of its channel. */
  ghost function SentUpTo(capacity: nat, w: World, served: Served, i: nat): seq<Item>
    requires Answers(capacity, w, served) && served.start <= i <= |w.Followed()|
  {
    var past := RunHub(capacity, w.batches[..served.at]).value;
    Filter(ReplyTo(past.store, served.from, w.client.commitment).items, w.client.filter)
    + Filtered(w.Followed()[served.start..i], w.client.filter)
  }

  lemma SentSince(capacity: nat, w: World, served: Served)
    requires Answers(capacity, w, served)
    ensures w.client.sent == served.base + SentUpTo(capacity, w, served, w.client.position)
  {
    hide Filter;
    hide Filtered;
    hide ReplyTo;
    hide OwnBatches;
    hide Announcements;
    hide RunHub;
  }

  /** What is in the answer, or on the followed part of the channel, was sent. */
  lemma SentHolds(capacity: nat, w: World, served: Served, i: nat, k: nat, x: Item)
    requires Answers(capacity, w, served) && served.start <= i <= |w.Followed()| && w.client.filter(x)
    requires var past := RunHub(capacity, w.batches[..served.at]).value;
             || x in ReplyTo(past.store, served.from, w.client.commitment).items
             || (served.start <= k < i && x in w.Followed()[k].batch)
    ensures x in SentUpTo(capacity, w, served, i)
  {
    hide OwnBatches;
    hide Announcements;
    hide RunHub;
    hide ReplyTo;
    if served.start <= k < i && x in w.Followed()[k].batch {
      assert w.Followed()[served.start..i][k - served.start] == w.Followed()[k];
      InFiltered(w.Followed()[served.start..i], w.client.filter, k - served.start, x);
    }
    hide Filtered;
  }

  /** The block is on the part of the channel that was followed, or in the answer. */
  lemma FollowedOrAnswered(capacity: nat, w: World, served: Served, i: nat, b: FrozenBlock)
    requires HubIs(capacity, w.batches, w.hub) && ChannelsFit(w.hub, w.channels) && Answers(capacity, w, served)
    requires i < |w.Followed()| && w.Followed()[i].own && BlockOf(b) in w.Followed()[i].batch
    requires b.meta.slot >= served.from && StoredAt(capacity, w.batches, served.at, b.meta.slot) == Some(b)
    ensures var past := RunHub(capacity, w.batches[..served.at]).value;
            i >= served.start || BlockOf(b) in ReplyTo(past.store, served.from, w.client.commitment).items
  {
    hide RunHub;
    hide ReplyTo;
    hide LegalHubRun;
    hide Announcements;
    hide OwnBatches;
    hide Filter;
    hide Filtered;
    var before, after := w.batches[..served.at], w.batches[served.at..];
    assert before + after == w.batches;
    assert RunHub(capacity, before).Some?;
    NoGapShared(capacity, before, after, w.client.commitment, served.from, w.Followed(), served.end, served.start,
                i, b);
  }

  /** No gap, over every run: a session that was answered, however late, has been sent since its request
      every block from the requested slot on that its filter lets through and its channel has carried up to
      where its receiver stands; unless the block was no longer stored when the request was answered. */
  lemma SessionHasNoGap(capacity: nat, start: World, actions: seq<Action>, lag: nat, i: nat, b: FrozenBlock)
    requires Opens(start, capacity) && DoAll(start, actions, lag).Some?
    requires var w := DoAll(start, actions, lag).value;
             && w.client.outcome == Open && w.served.Some? && w.served.value.at <= |w.batches|
             && i < w.client.position <= |w.Followed()|
             && w.Followed()[i].own && BlockOf(b) in w.Followed()[i].batch
             && b.meta.slot >= w.served.value.from && w.client.filter(BlockOf(b))
             && StoredAt(capacity, w.batches, w.served.value.at, b.meta.slot) == Some(b)
    ensures var w := DoAll(start, actions, lag).value;
            w.served.value.base <= w.client.sent && BlockOf(b) in w.client.sent[|w.served.value.base|..]
  {
    AlwaysInStep(capacity, start, actions, lag);
    var w := DoAll(start, actions, lag).value;
    var served, position := w.served.value, w.client.position;
    assert Answers(capacity, w, served);
    assert served.start <= position <= |w.Followed()|;
    hide *;
    FollowedOrAnswered(capacity, w, served, i, b);
    SentHolds(capacity, w, served, position, i, BlockOf(b));
    SentSince(capacity, w, served);
  }

  // ---------- blocks come whole ----------

  /** The content of a block is in every answer that holds the block. */
  lemma {:induction false} ContentComes(rs: seq<Replayed>, b: FrozenBlock)
    requires BlockOf(b) in AllItems(rs)
    ensures ContentOf(b) in AllItems(rs)
  {
    var before, items := AllItems(Front(rs)), ItemsOf(Last(rs));
    assert AllItems(rs) == before + items;
    if BlockOf(b) in before {
      ContentComes(Front(rs), b);
    } else {
      StatusesAre(Last(rs).statuses, BlockOf(b));
      assert items[1] == BlockOf(Last(rs).block) && items[0] == ContentOf(Last(rs).block);
      assert items[0] in items;
    }
  }

  lemma {:induction false} MetaBatch(rs: seq<Ready>, level: CommitmentLevel, i: nat, b: FrozenBlock)
    requires i < |Announcements(rs, level)| && BlockMetaOf(b) in Announcements(rs, level)[i]
    ensures Announcements(rs, level)[i] == [BlockOf(b), BlockMetaOf(b)]
  {
    var before, r := Announcements(Front(rs), level), Last(rs);
    assert Announcements(rs, level) == before + Announcement(r, level);
    if i < |before| {
      MetaBatch(Front(rs), level, i, b);
    }
  }

  lemma AllItemsOf(s: Store, from: nat, level: CommitmentLevel, b: FrozenBlock)
    requires ReplyTo(s, from, level).Messages? && BlockOf(b) in ReplyTo(s, from, level).items
    ensures ContentOf(b) in ReplyTo(s, from, level).items
  {
    hide Replay;
    hide AllItems;
    ContentComes(Replay(s, from, level), b);
  }

  lemma ContentBefore(rs: seq<Ready>, level: CommitmentLevel, n: nat, b: FrozenBlock)
    requires SlotsMatch(rs) && n < |Announcements(rs, level)| && BlockMetaOf(b) in Announcements(rs, level)[n]
    requires !level.Processed?
    ensures n >= 1 && Announcements(rs, level)[n - 1] == [ContentOf(b)]
  {
    MetaBatch(rs, level, n, b);
    ChannelInOrder(rs, level, n);
    hide Announcements;
  }

  lemma PublishedMatch(capacity: nat, batches: seq<seq<Input>>, hub: Hub)
    requires HubIs(capacity, batches, hub)
    ensures SlotsMatch(hub.published)
  {
    HubRunAgrees(capacity, batches);
    hide RunHub;
    hide LegalHubRun;
    hide Agree;
    hide Remembered;
  }

  /** Above Processed, the batch with the content comes before the one with the block. */
  lemma ContentBatch(capacity: nat, w: World, i: nat, b: FrozenBlock) returns (k: nat)
    requires HubIs(capacity, w.batches, w.hub) && ChannelsFit(w.hub, w.channels) && !w.client.commitment.Processed?
    requires i < |w.Followed()| && w.Followed()[i].own && BlockMetaOf(b) in w.Followed()[i].batch
    ensures k < i && w.Followed()[k] == SharedBatch(true, [ContentOf(b)])
  {
    var channel, level := w.Followed(), w.client.commitment;
    assert OwnBatches(channel) <= w.hub.Channel(level);
    hide *;
    PublishedMatch(capacity, w.batches, w.hub);
    k := OwnContent(channel, w.hub.published, level, i, b);
  }

  lemma OwnContent(channel: seq<SharedBatch>, rs: seq<Ready>, level: CommitmentLevel, i: nat, b: FrozenBlock)
    returns (k: nat)
    requires SlotsMatch(rs) && OwnBatches(channel) <= Announcements(rs, level) && !level.Processed?
    requires i < |channel| && channel[i].own && BlockMetaOf(b) in channel[i].batch
    ensures k < i && channel[k] == SharedBatch(true, [ContentOf(b)])
  {
    hide OwnBatches;
    hide Announcements;
    hide SlotsMatch;
    var n := |OwnBatches(channel[..i])|;
    OwnAt(channel, i);
    assert Announcements(rs, level)[n] == channel[i].batch;
    ContentBefore(rs, level, n, b);
    k := OwnBatchBefore(channel, i, n - 1);
  }

  /** The content was published when the request was answered, and so the answer has the block. */
  lemma ContentAnswered(capacity: nat, w: World, served: Served, k: nat, b: FrozenBlock)
    requires HubIs(capacity, w.batches, w.hub) && Answers(capacity, w, served)
    requires k < served.start && w.Followed()[k] == SharedBatch(true, [ContentOf(b)])
    requires b.meta.slot >= served.from && StoredAt(capacity, w.batches, served.at, b.meta.slot) == Some(b)
    ensures var past := RunHub(capacity, w.batches[..served.at]).value;
            ContentOf(b) in ReplyTo(past.store, served.from, w.client.commitment).items
  {
    var channel, level := w.Followed(), w.client.commitment;
    var before, after := w.batches[..served.at], w.batches[served.at..];
    assert before + after == w.batches;
    LegalPrefix(capacity, before, after);
    HubRunAgrees(capacity, before);
    var past, sent := RunHub(capacity, before).value, channel[..served.end];
    assert sent[k] == channel[k] && OwnBatches(sent) == past.Channel(level);
    assert Lookup(past.store.replayed, b.meta.slot) == Some(b);
    assert ReplyTo(past.store, served.from, level).Messages?;
    hide *;
    OwnAt(sent, k);
    PastAnswers(past, level, served.from, |OwnBatches(sent[..k])|, b);
  }

  lemma PastAnswers(past: Hub, level: CommitmentLevel, from: nat, n: nat, b: FrozenBlock)
    requires HubAgrees(past) && n < |past.Channel(level)| && past.Channel(level)[n] == [ContentOf(b)]
    requires b.meta.slot >= from && Lookup(past.store.replayed, b.meta.slot) == Some(b)
    requires ReplyTo(past.store, from, level).Messages?
    ensures ContentOf(b) in ReplyTo(past.store, from, level).items
  {
    hide HubAgrees;
    hide Announcements;
    hide ReplyTo;
    BlockIsWanted(past, level, from, n, b);
    AllItemsOf(past.store, from, level, b);
  }

  /** The session asked when its channel had carried the content of the block. */
  ghost predicate ContentBehind(w: World, served: Served, b: FrozenBlock)
    requires served.start <= |w.Followed()|
  {
    exists k | 0 <= k < served.start :: w.Followed()[k] == SharedBatch(true, [ContentOf(b)])
  }

  /** Blocks come whole, over every run: above Processed, when a session that was answered is sent the summary
      of a block from its channel, it has been sent the content of the block since its request, and before
      the summary; unless it asked between the two, for later slots or for a block that was no longer stored
      when the request was answered. */
  lemma BlocksComeWhole(capacity: nat, start: World, actions: seq<Action>, lag: nat, i: nat, b: FrozenBlock)
    requires Opens(start, capacity) && DoAll(start, actions, lag).Some?
    requires var w := DoAll(start, actions, lag).value;
             && w.client.outcome == Open && w.served.Some?
             && w.served.value.start <= i < w.client.position <= |w.Followed()|
             && !w.client.commitment.Processed? && w.client.filter(ContentOf(b))
             && w.Followed()[i].own && BlockMetaOf(b) in w.Followed()[i].batch
    ensures var w := DoAll(start, actions, lag).value;
            var served := w.served.value;
            && Answers(capacity, w, served)
            && w.client.sent == served.base + SentUpTo(capacity, w, served, w.client.position)
            && SentUpTo(capacity, w, served, i) <= SentUpTo(capacity, w, served, w.client.position)
            && (|| ContentOf(b) in SentUpTo(capacity, w, served, i)
                || (ContentBehind(w, served, b)
                    && (b.meta.slot < served.from
                        || StoredAt(capacity, w.batches, served.at, b.meta.slot) != Some(b))))
  {
    AlwaysInStep(capacity, start, actions, lag);
    var w := DoAll(start, actions, lag).value;
    var served := w.served.value;
    assert Answers(capacity, w, served);
    assert served.at <= |w.batches|;
    hide *;
    SentSince(capacity, w, served);
    SentGrows(capacity, w, served, i, w.client.position);
    var k := ContentBatch(capacity, w, i, b);
    ContentIsSent(capacity, w, served, i, k, b);
  }

  lemma ContentIsSent(capacity: nat, w: World, served: Served, i: nat, k: nat, b: FrozenBlock)
    requires HubIs(capacity, w.batches, w.hub) && Answers(capacity, w, served)
    requires served.start <= i <= |w.Followed()| && served.at <= |w.batches| && w.client.filter(ContentOf(b))
    requires k < i && w.Followed()[k] == SharedBatch(true, [ContentOf(b)])
    ensures || ContentOf(b) in SentUpTo(capacity, w, served, i)
            || (ContentBehind(w, served, b)
                && (b.meta.slot < served.from || StoredAt(capacity, w.batches, served.at, b.meta.slot) != Some(b)))
  {
    assert k < served.start ==> ContentBehind(w, served, b);
    hide *;
    if k >= served.start {
      SentHolds(capacity, w, served, i, k, ContentOf(b));
    } else if b.meta.slot >= served.from && StoredAt(capacity, w.batches, served.at, b.meta.slot) == Some(b) {
      ContentAnswered(capacity, w, served, k, b);
      SentHolds(capacity, w, served, i, k, ContentOf(b));
    }
  }

  lemma {:induction false} FilteredGrows(channel: seq<SharedBatch>, filter: Item -> bool, n: nat)
    requires n <= |channel|
    ensures Filtered(channel[..n], filter) <= Filtered(channel, filter)
  {
    if n < |channel| {
      FilteredGrows(Front(channel), filter, n);
      assert Front(channel)[..n] == channel[..n];
    } else {
      assert channel[..n] == channel;
    }
  }

  lemma SentGrows(capacity: nat, w: World, served: Served, i: nat, j: nat)
    requires Answers(capacity, w, served) && served.start <= i <= j <= |w.Followed()|
    ensures SentUpTo(capacity, w, served, i) <= SentUpTo(capacity, w, served, j)
  {
    hide Filter;
    hide ReplyTo;
    hide OwnBatches;
    hide Announcements;
    hide RunHub;
    var followed := w.Followed()[served.start..j];
    assert followed[..i - served.start] == w.Followed()[served.start..i];
    FilteredGrows(followed, w.client.filter, i - served.start);
    hide Filtered;
  }

  // ---------- a session without a replay ----------

  /** A request leaves the receiver where it is, unless the level changes: then it stands at the end of the
      channel of the new level. */
  lemma AskKeepsPlace(w: World, commitment: CommitmentLevel, filter: Item -> bool, from: Option<nat>, lag: nat)
    requires Possible(w, Ask(commitment, filter, from))
    ensures var t := Do(w, Ask(commitment, filter, from), lag);
            && t.client.commitment == commitment && t.client.filter == filter
            && t.base == t.client.sent == w.client.sent
            && t.start == t.client.position
            && t.start == (if commitment == w.client.commitment then w.client.position else |w.channels.At(commitment)|)
            && (t.client.outcome == FromSlotUnsupported <==> from.Some? && !w.client.replays)
            && t.client.waiting == if w.client.replays then from else None
  {
  }

  /** Nothing skipped, over every run: a session that has not asked for a replay has been sent, since its last
      request or since it opened, everything on its channel from where its receiver stood then up to where
      it stands now, as far as its filter lets it through, in order. */
  lemma NothingSkipped(capacity: nat, start: World, actions: seq<Action>, lag: nat)
    requires Opens(start, capacity) && DoAll(start, actions, lag).Some?
    requires var w := DoAll(start, actions, lag).value; w.client.outcome == Open && w.served.None?
    ensures var w := DoAll(start, actions, lag).value;
            && w.start <= w.client.position <= |w.Followed()|
            && w.client.sent == w.base + Filtered(w.Followed()[w.start..w.client.position], w.client.filter)
  {
    AlwaysInStep(capacity, start, actions, lag);
    hide DoAll;
    hide HubIs;
    hide ChannelsFit;
    hide Opens;
  }

  // ---------- when a session ends ----------

  /** The batch that the receiver gets next has been overwritten: more than `lag` batches are between the
      receiver and the end of the channel. */
  predicate IsBehind(w: World, lag: nat) {
    |w.Followed()| > w.client.position + lag
  }

  /** The items of the next batch that the filter lets through are more than the client's channel takes. */
  predicate Overflows(w: World, room: nat) {
    w.client.position < |w.Followed()| && |Filter(w.Followed()[w.client.position].batch, w.client.filter)| > room
  }

  /** What a receive does to an open session. */
  lemma ReceiveExactly(w: World, lag: nat, room: nat)
    requires Possible(w, Receive(room))
    ensures var t := Do(w, Receive(room), lag);
            && (t.client.outcome == BroadcastLag <==> IsBehind(w, lag))
            && (t.client.outcome == ClientChannelFull <==> !IsBehind(w, lag) && Overflows(w, room))
            && (t.client.outcome == Open <==> !IsBehind(w, lag) && !Overflows(w, room))
            && (t.client.outcome == Open ==>
                  t == w.(client := w.client.(position := w.client.position + 1,
                                              sent := w.client.sent + Filter(w.Followed()[w.client.position].batch,
                                                                             w.client.filter))))
            && (IsBehind(w, lag) ==> t.client.sent == w.client.sent)
            && (t.client.outcome == ClientChannelFull ==>
                  t.client.sent ==
                  w.client.sent + Filter(w.Followed()[w.client.position].batch, w.client.filter)[..room])
  {
    hide Filter;
  }

  /** An answer keeps the session open if and only if it has messages. */
  lemma AnswerExactly(w: World, lag: nat)
    requires Possible(w, Answer)
    ensures var reply := ReplyTo(w.hub.store, w.client.waiting.value, w.client.commitment);
            var t := Do(w, Answer, lag).client;
            && t.outcome == (match reply
                             case Messages(_) => Open
                             case Lagged(slot) => SlotUnavailable(slot)
                             case NoReply => ReplayError)
            && t.waiting.None? && t.position == w.client.position
  {
    hide ReplyTo;
    hide Filter;
  }

  datatype Reason = TooFarBehind | NoRoom

  predicate ThrownOff(w: World, lag: nat, room: nat, reason: Reason) {
    match reason
    case TooFarBehind => IsBehind(w, lag)
    case NoRoom => !IsBehind(w, lag) && Overflows(w, room)
  }

  /** Step `k` is a receive of the open session that it does not survive, for that reason. */
  ghost predicate EndsAt(start: World, actions: seq<Action>, lag: nat, k: nat, reason: Reason) {
    && k < |actions| && actions[k].Receive? && DoAll(start, actions[..k], lag).Some?
    && DoAll(start, actions[..k], lag).value.client.outcome == Open
    && ThrownOff(DoAll(start, actions[..k], lag).value, lag, actions[k].room, reason)
  }

  lemma EndsAtSnoc(start: World, actions: seq<Action>, a: Action, lag: nat, k: nat, reason: Reason)
    ensures EndsAt(start, actions + [a], lag, k, reason) <==>
            if k < |actions| then EndsAt(start, actions, lag, k, reason)
            else
              && k == |actions| && a.Receive? && DoAll(start, actions, lag).Some?
              && DoAll(start, actions, lag).value.client.outcome == Open
              && ThrownOff(DoAll(start, actions, lag).value, lag, a.room, reason)
  {
    var all := actions + [a];
    assert all[|actions|] == a && all[..|actions|] == actions;
    if k < |actions| {
      assert all[k] == actions[k] && all[..k] == actions[..k];
    }
    hide DoAll;
    hide ThrownOff;
  }

  function OutcomeOf(reason: Reason): Outcome {
    match reason
    case TooFarBehind => BroadcastLag
    case NoRoom => ClientChannelFull
  }

  lemma OutcomeStep(w: World, a: Action, lag: nat, reason: Reason)
    requires Possible(w, a)
    ensures Do(w, a, lag).client.outcome == OutcomeOf(reason) <==>
            || w.client.outcome == OutcomeOf(reason)
            || (w.client.outcome == Open && a.Receive? && ThrownOff(w, lag, a.room, reason))
  {
    if a.Receive? {
      ReceiveExactly(w, lag, a.room);
    }
    hide ReplyTo;
    hide Filter;
    hide OwnBatches;
    hide Announcements;
    hide AcceptAll;
    hide LegalRun;
    hide IsBehind;
    hide Overflows;
    hide Received;
  }

  /** Over every run: a session is thrown off for lagging if and only if it received when the next batch had
      been overwritten, and for its full channel if and only if it received a batch within reach of which
      more gets through its filter than there was room. */
  lemma {:induction false} EndsExactly(start: World, actions: seq<Action>, lag: nat, reason: Reason)
    requires start.client.outcome == Open && DoAll(start, actions, lag).Some?
    ensures DoAll(start, actions, lag).value.client.outcome == OutcomeOf(reason) <==>
            exists k :: EndsAt(start, actions, lag, k, reason)
  {
    if actions != [] {
      var front, a := Front(actions), Last(actions);
      assert actions == front + [a];
      EndsExactly(start, front, lag, reason);
      OutcomeStep(DoAll(start, front, lag).value, a, lag, reason);
      forall k: nat {
        EndsAtSnoc(start, front, a, lag, k, reason);
      }
      hide Do;
      hide ThrownOff;
      hide Possible;
      EarlierEnd(start, front, lag, reason);
      assert EndsAt(start, actions, lag, |front|, reason) <==>
             && a.Receive? && DoAll(start, front, lag).value.client.outcome == Open
             && ThrownOff(DoAll(start, front, lag).value, lag, a.room, reason);
    }
  }

  lemma EarlierEnd(start: World, actions: seq<Action>, lag: nat, reason: Reason)
    ensures forall k: nat | EndsAt(start, actions, lag, k, reason) :: k < |actions|
  {
    hide DoAll;
    hide ThrownOff;
  }

  // ---------- catching up ----------

  function Receives(rooms: seq<nat>): seq<Action> {
    seq(|rooms|, k requires 0 <= k < |rooms| => Receive(rooms[k]))
  }

  /** The receiver's next batches are within reach, and there is room for each. */
  ghost predicate CanReceive(w: World, lag: nat, rooms: seq<nat>) {
    && w.client.Idle() && w.client.position + |rooms| <= |w.Followed()| <= w.client.position + lag
    && forall k | 0 <= k < |rooms| :: |Filter(w.Followed()[w.client.position + k].batch, w.client.filter)| <= rooms[k]
  }

  /** The session has received the next `n` batches in full. */
  ghost function AfterReceiving(w: World, n: nat): World
    requires w.client.position + n <= |w.Followed()|
  {
    var position := w.client.position + n;
    var items := Filtered(w.Followed()[w.client.position..position], w.client.filter);
    w.(client := w.client.(position := position, sent := w.client.sent + items))
  }

  lemma AfterIs(w: World, n: nat)
    requires w.client.position + n <= |w.Followed()|
    ensures var v := AfterReceiving(w, n);
            && v.client.outcome == w.client.outcome && v.client.waiting == w.client.waiting
            && v.client.position == w.client.position + n && v.client.filter == w.client.filter
            && v.Followed() == w.Followed()
  {
    hide Filtered;
  }

  lemma AfterNext(w: World, n: nat)
    requires w.client.position + n < |w.Followed()|
    ensures var v := AfterReceiving(w, n);
            var items := Filter(w.Followed()[w.client.position + n].batch, w.client.filter);
            AfterReceiving(w, n + 1) ==
            v.(client := v.client.(position := v.client.position + 1, sent := v.client.sent + items))
  {
    hide Filter;
    hide Filtered;
    OneMore(w.Followed(), w.client.position, w.client.position + n, w.client.filter, w.client.sent);
  }

  lemma ReceivesNext(w: World, lag: nat, n: nat, room: nat)
    requires w.client.Idle() && w.client.position + n < |w.Followed()| <= w.client.position + lag
    requires |Filter(w.Followed()[w.client.position + n].batch, w.client.filter)| <= room
    ensures var v := AfterReceiving(w, n);
            Possible(v, Receive(room)) && Do(v, Receive(room), lag) == AfterReceiving(w, n + 1)
  {
    AfterIs(w, n);
    AfterNext(w, n);
    hide AfterReceiving;
    hide Do;
    hide Filter;
    ReceiveExactly(AfterReceiving(w, n), lag, room);
  }

  lemma ReceivesSnoc(rooms: seq<nat>)
    requires rooms != []
    ensures Receives(rooms) == Receives(Front(rooms)) + [Receive(Last(rooms))]
  {
  }

  lemma DoAllSnoc(start: World, actions: seq<Action>, a: Action, lag: nat)
    requires DoAll(start, actions, lag).Some? && Possible(DoAll(start, actions, lag).value, a)
    ensures DoAll(start, actions + [a], lag) == Some(Do(DoAll(start, actions, lag).value, a, lag))
  {
    assert Front(actions + [a]) == actions;
    hide Do;
    hide Possible;
  }

  lemma NothingReceived(w: World)
    requires w.client.position <= |w.Followed()|
    ensures AfterReceiving(w, 0) == w
  {
    NothingYet(w.Followed(), w.client.position, w.client.filter, w.client.sent);
  }

  lemma NothingDone(w: World, lag: nat)
    ensures DoAll(w, Receives([]), lag) == Some(w)
  {
  }

  lemma RoomIs(w: World, lag: nat, rooms: seq<nat>)
    requires CanReceive(w, lag, rooms)
    ensures w.client.outcome == Open && w.client.Idle()
    ensures w.client.position + |rooms| <= |w.Followed()| <= w.client.position + lag
  {
  }

  lemma RoomForFront(w: World, lag: nat, rooms: seq<nat>)
    requires CanReceive(w, lag, rooms) && rooms != []
    ensures |rooms| == |Front(rooms)| + 1 && CanReceive(w, lag, Front(rooms))
    ensures w.client.position + |Front(rooms)| < |w.Followed()|
    ensures |Filter(w.Followed()[w.client.position + |Front(rooms)|].batch, w.client.filter)| <= Last(rooms)
  {
    hide Filter;
  }

  /** A session that is not too far behind, with room for what comes, stays open and gets everything: after as
      many receives as batches are waiting it stands at the end of its channel, with all of them sent. */
  lemma {:induction false} CatchesUp(w: World, lag: nat, rooms: seq<nat>)
    requires CanReceive(w, lag, rooms)
    ensures DoAll(w, Receives(rooms), lag) == Some(AfterReceiving(w, |rooms|))
    ensures AfterReceiving(w, |rooms|).client.outcome == Open
    decreases |rooms|
  {
    hide *;
    RoomIs(w, lag, rooms);
    AfterIs(w, |rooms|);
    if rooms == [] {
      NothingReceived(w);
      NothingDone(w, lag);
    } else {
      var front := Front(rooms);
      RoomForFront(w, lag, rooms);
      CatchesUp(w, lag, front);
      ReceivesSnoc(rooms);
      ReceivesNext(w, lag, |front|, Last(rooms));
      DoAllSnoc(w, Receives(front), Receive(Last(rooms)), lag);
    }
  }
}
