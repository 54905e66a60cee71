/** Safety of the gossip handoff over all interleavings. */
module ContactInfoRuns {
  import opened Collections
  import opened ContactInfo

  ghost predicate WriterInv(s: System) {
    var n := |s.taken|;
    && |s.channel| <= n
    && (forall i | 0 <= i < |s.channel| :: s.channel[i] == Event(i + 1, s.taken[i].message))
    && (s.lock.TheWriter? <==> s.writer.Locked? || s.writer.Bumped? || s.writer.Mutated? || s.writer.Published?)
    && (s.complete ==> HasLive(s.taken) && StartupCount(s.taken) <= |s.channel|)
    && match s.writer
       case Idle => |s.channel| == s.version == n && s.nodes == TableAt(s.taken)
       case Published => |s.channel| == s.version == n > 0 && s.nodes == TableAt(s.taken)
       case Mutated => n > 0 && |s.channel| == n - 1 && s.version == n && s.nodes == TableAt(s.taken)
       case Bumped => n > 0 && |s.channel| == n - 1 && s.version == n && s.nodes == TableAt(Front(s.taken))
       case _ => n > 0 && |s.channel| == s.version == n - 1 && s.nodes == TableAt(Front(s.taken))
  }

  ghost function UpdateBonus(sent: seq<Sent>): nat {
    if HasUpdate(sent) then 1 else 0
  }

  /** What the task of one client knows, given `n` published events and whether it holds the lock. */
  ghost predicate ClientInv(taken: seq<Notification>, n: nat, complete: bool, mine: bool, c: Client) {
    var sent := c.sent;
    && n <= |taken|
    && ProperFeed(taken, sent) && Revision(sent) <= n
    && (mine <==> c.at.HoldsLock? || c.at.ReadVersion? || c.at.Copied?)
    && (c.at.Started? || c.at.Waiting? || c.at.Gone? || complete)
    && (c.at.Gone? || c.attempts <= MAX_RESNAPSHOT_ATTEMPTS)
    && (c.at.Gone? || SnapshotsAtEnd(sent) + UpdateBonus(sent) <= c.attempts + if c.at.Live? then 1 else 0)
    && match c.at
       case Subscribed(next) => next <= n
       case HoldsLock(next) => next <= n
       case ReadVersion(next, rev) => next <= rev == n
       case Copied(next, rev, topology) => next <= rev == n && topology == TableAt(taken[..rev])
       case Sending(next, rev, topology) =>
         && next <= rev <= n && topology == TableAt(taken[..rev])
         && Revision(sent) <= rev && HasLive(taken) && StartupCount(taken) <= rev
       case Live(next, rev) =>
         && next <= n && rev <= n && Revision(sent) == (if next < rev then rev else next)
         && exists x <- sent :: x.Snapshot?
       case _ => true
  }

  ghost predicate Inv(s: System) {
    && WriterInv(s)
    && (s.lock.TheClient? ==> s.lock.id in s.clients)
    && forall id <- s.clients :: ClientInv(s.taken, |s.channel|, s.complete, s.lock == TheClient(id), s.clients[id])
  }

  lemma {:induction false} StartupCountAppend(ns: seq<Notification>, n: Notification)
    ensures StartupCount(ns) <= |ns|
    ensures HasLive(ns) ==> StartupCount(ns + [n]) == StartupCount(ns)
    ensures !n.isStartup ==> StartupCount(ns + [n]) <= |ns|
  {
    if ns == [] {
      assert ([n])[1..] == [];
    } else {
      assert (ns + [n])[1..] == ns[1..] + [n];
      StartupCountAppend(ns[1..], n);
      assert ns == [ns[0]] + ns[1..];
    }
  }

  lemma {:induction false} ProperFeedLater(taken: seq<Notification>, n: Notification, sent: seq<Sent>)
    requires ProperFeed(taken, sent)
    ensures ProperFeed(taken + [n], sent)
  {
    if sent != [] {
      ProperFeedLater(taken, n, Front(sent));
      StartupCountAppend(taken, n);
      assert Proper(taken + [n], sent) by {
        if Last(sent).Snapshot? {
          assert (taken + [n])[..Last(sent).rev] == taken[..Last(sent).rev];
          assert HasLive(taken + [n]);
        }
      }
    }
  }

  lemma ClientInvLater(taken: seq<Notification>, x: Notification, n: nat, complete: bool, mine: bool, c: Client)
    requires ClientInv(taken, n, complete, mine, c)
    ensures ClientInv(taken + [x], n, complete, mine, c)
  {
    ProperFeedLater(taken, x, c.sent);
    StartupCountAppend(taken, x);
    match c.at {
      case Copied(next, rev, topology) => assert (taken + [x])[..rev] == taken[..rev];
      case Sending(next, rev, topology) =>
        assert (taken + [x])[..rev] == taken[..rev];
        assert HasLive(taken + [x]);
      case _ =>
    }
  }

  lemma TakeKeepsInv(s: System, x: Notification)
    requires Inv(s) && s.writer.Idle?
    ensures Inv(WriterStep(s, Take(x)))
  {
    var t := WriterStep(s, Take(x));
    StartupCountAppend(s.taken, x);
    assert Front(t.taken) == s.taken;
    assert WriterInv(t);
    forall id <- t.clients ensures ClientInv(t.taken, |t.channel|, t.complete, t.lock == TheClient(id), t.clients[id]) {
      ClientInvLater(s.taken, x, |s.channel|, s.complete, s.lock == TheClient(id), s.clients[id]);
    }
  }

  lemma FlagKeepsInv(s: System)
    requires Inv(s) && s.writer.Taken?
    ensures Inv(WriterStep(s, Flag))
  {
    var t := WriterStep(s, Flag);
    assert s.taken == Front(s.taken) + [Last(s.taken)];
    StartupCountAppend(Front(s.taken), Last(s.taken));
    assert WriterInv(t);
    forall id <- t.clients ensures ClientInv(t.taken, |t.channel|, t.complete, t.lock == TheClient(id), t.clients[id]) {
      assert ClientInv(s.taken, |s.channel|, s.complete, s.lock == TheClient(id), s.clients[id]);
    }
  }

  lemma CriticalWriter(s: System, a: Action)
    requires WriterInv(s) && WriterEnabled(s, a)
    requires a.WriterLock? || a.Bump? || a.Mutate? || a.Broadcast? || a.WriterUnlock?
    ensures WriterInv(WriterStep(s, a)) && WriterStep(s, a).clients == s.clients && WriterStep(s, a).taken == s.taken
    ensures WriterStep(s, a).complete == s.complete && |s.channel| <= |WriterStep(s, a).channel| <= |s.taken|
    ensures !s.lock.TheClient? && !WriterStep(s, a).lock.TheClient?
  {
    assert s.taken != [] ==> s.taken == Front(s.taken) + [Last(s.taken)];
  }

  lemma ClientInvOutside(taken: seq<Notification>, n: nat, n': nat, complete: bool, c: Client)
    requires ClientInv(taken, n, complete, false, c) && n <= n' <= |taken|
    ensures ClientInv(taken, n', complete, false, c)
  {
  }

  /** While the writer is in its critical section, no client is, and so none is disturbed. */
  lemma CriticalSectionKeepsInv(s: System, a: Action)
    requires Inv(s) && WriterEnabled(s, a) && (a.WriterLock? || a.Bump? || a.Mutate? || a.Broadcast? || a.WriterUnlock?)
    ensures Inv(WriterStep(s, a))
  {
    var t := WriterStep(s, a);
    CriticalWriter(s, a);
    hide WriterInv;
    hide ClientInv;
    hide WriterStep;
    forall id <- t.clients ensures ClientInv(t.taken, |t.channel|, t.complete, t.lock == TheClient(id), t.clients[id]) {
      assert ClientInv(s.taken, |s.channel|, s.complete, s.lock == TheClient(id), s.clients[id]);
      ClientInvOutside(s.taken, |s.channel|, |t.channel|, s.complete, s.clients[id]);
    }
  }

  lemma SentAppend(sent: seq<Sent>, x: Sent)
    ensures Front(sent + [x]) == sent && Last(sent + [x]) == x
    ensures UpdateBonus(sent + [x]) == if x.Update? then 1 else UpdateBonus(sent)
    ensures (exists y <- sent + [x] :: y.Snapshot?) <==> x.Snapshot? || exists y <- sent :: y.Snapshot?
  {
    assert forall y :: y in sent + [x] <==> y in sent || y == x;
    assert x in sent + [x];
  }

  /** The event after those a client has seen extends its feed without a hole. */
  lemma UpdateIsProper(taken: seq<Notification>, sent: seq<Sent>, m: ContactMessage)
    requires ProperFeed(taken, sent) && exists x <- sent :: x.Snapshot?
    requires Revision(sent) < |taken| && m == taken[Revision(sent)].message
    ensures var sent' := sent + [Update(Revision(sent) + 1, m)];
            ProperFeed(taken, sent') && Revision(sent') == Revision(sent) + 1 && SnapshotsAtEnd(sent') == 0
  {
    SentAppend(sent, Update(Revision(sent) + 1, m));
  }

  lemma GoodbyeIsProper(taken: seq<Notification>, sent: seq<Sent>)
    requires ProperFeed(taken, sent)
    ensures ProperFeed(taken, sent + [Goodbye]) && Revision(sent + [Goodbye]) == Revision(sent)
  {
    SentAppend(sent, Goodbye);
  }

  lemma LeaveKeepsInv(taken: seq<Notification>, n: nat, complete: bool, c: Client, attempts: nat)
    requires ClientInv(taken, n, complete, false, c)
    ensures ClientInv(taken, n, complete, false, Client(Gone, attempts, c.sent + [Goodbye]))
  {
    GoodbyeIsProper(taken, c.sent);
  }

  lemma UpdateKeepsInv(taken: seq<Notification>, n: nat, complete: bool, c: Client)
    requires ClientInv(taken, n, complete, false, c) && c.at.Live? && c.at.rev <= c.at.next < n
    ensures var next := c.at.next;
            ClientInv(taken, n, complete, false,
                      Client(Live(next + 1, c.at.rev), 0, c.sent + [Update(next + 1, taken[next].message)]))
  {
    SentAppend(c.sent, Update(c.at.next + 1, taken[c.at.next].message));
    UpdateIsProper(taken, c.sent, taken[c.at.next].message);
    hide ProperFeed;
  }

  lemma LagKeepsInv(taken: seq<Notification>, n: nat, complete: bool, c: Client)
    requires ClientInv(taken, n, complete, false, c) && c.at.Live?
    ensures c.attempts < MAX_RESNAPSHOT_ATTEMPTS ==>
              ClientInv(taken, n, complete, false, Client(Released, c.attempts + 1, c.sent))
  {
    hide ProperFeed;
    hide Revision;
    hide SnapshotsAtEnd;
  }

  lemma SkipKeepsInv(taken: seq<Notification>, n: nat, complete: bool, c: Client)
    requires ClientInv(taken, n, complete, false, c) && c.at.Live? && c.at.next < c.at.rev
    ensures ClientInv(taken, n, complete, false, c.(at := Live(c.at.next + 1, c.at.rev)))
  {
    hide ProperFeed;
    hide Revision;
    hide SnapshotsAtEnd;
  }

  lemma ChannelAt(s: System, i: nat)
    requires WriterInv(s) && i < |s.channel|
    ensures |s.channel| <= |s.taken| && s.channel[i] == Event(i + 1, s.taken[i].message)
  {
  }

  lemma LiveWithoutLock(taken: seq<Notification>, n: nat, complete: bool, mine: bool, c: Client)
    requires ClientInv(taken, n, complete, mine, c) && c.at.Live?
    ensures !mine && ClientInv(taken, n, complete, false, c)
  {
  }

  lemma ReceiveKeepsInv(s: System, id: nat, c: Client)
    requires WriterInv(s) && ClientInv(s.taken, |s.channel|, s.complete, s.lock == TheClient(id), c)
    requires c.at.Live? && c.at.next < |s.channel|
    ensures ClientInv(s.taken, |s.channel|, s.complete, s.lock == TheClient(id), ReceiveStep(s.channel, s.capacity, c))
  {
    hide WriterInv;
    hide ClientInv;
    var Live(next, rev) := c.at;
    ChannelAt(s, next);
    LiveWithoutLock(s.taken, |s.channel|, s.complete, s.lock == TheClient(id), c);
    LeaveKeepsInv(s.taken, |s.channel|, s.complete, c, c.attempts + 1);
    LagKeepsInv(s.taken, |s.channel|, s.complete, c);
    if next >= rev {
      UpdateKeepsInv(s.taken, |s.channel|, s.complete, c);
    } else {
      SkipKeepsInv(s.taken, |s.channel|, s.complete, c);
    }
  }

  lemma SnapshotKeepsInv(taken: seq<Notification>, n: nat, complete: bool, c: Client)
    requires ClientInv(taken, n, complete, false, c) && c.at.Sending?
    ensures var x := Snapshot(c.at.rev, c.at.topology);
            ClientInv(taken, n, complete, false,
                      Client(Live(c.at.next, c.at.rev), c.attempts, c.sent + [x]))
  {
    SentAppend(c.sent, Snapshot(c.at.rev, c.at.topology));
    assert n <= |taken|;
  }

  lemma CopyKeepsInv(s: System, id: nat, c: Client)
    requires WriterInv(s) && ClientInv(s.taken, |s.channel|, s.complete, s.lock == TheClient(id), c)
    requires c.at.ReadVersion?
    ensures ClientInv(s.taken, |s.channel|, s.complete, s.lock == TheClient(id),
                      c.(at := Copied(c.at.next, c.at.rev, s.nodes)))
  {
    assert s.taken[..|s.taken|] == s.taken;
    assert s.taken != [] ==> s.taken[..|s.taken| - 1] == Front(s.taken);
  }

  lemma ClientKeepsInv(s: System, a: Action, id: nat, c: Client)
    requires WriterInv(s) && ClientInv(s.taken, |s.channel|, s.complete, s.lock == TheClient(id), c)
    requires ClientEnabled(s, a, c)
    ensures ClientInv(s.taken, |s.channel|, s.complete, LockAfter(a, id, s.lock) == TheClient(id), ClientStep(s, a, c))
  {
    hide ProperFeed;
    hide Revision;
    hide SnapshotsAtEnd;
    match a {
      case Receive(_) => ReceiveKeepsInv(s, id, c);
      case SendSnapshot(_) => SnapshotKeepsInv(s.taken, |s.channel|, s.complete, c);
      case Leave(_) => LeaveKeepsInv(s.taken, |s.channel|, s.complete, c, c.attempts);
      case Copy(_) => CopyKeepsInv(s, id, c);
      case _ =>
    }
  }

  lemma ClientStepKeepsInv(s: System, a: Action)
    requires Inv(s) && !IsWriterAction(a) && !a.Connect? && a.id in s.clients && ClientEnabled(s, a, s.clients[a.id])
    ensures Inv(Do(s, a))
  {
    var t := Do(s, a);
    hide ClientInv;
    hide ClientStep;
    ClientKeepsInv(s, a, a.id, s.clients[a.id]);
    LockStaysApart(s, a, s.clients[a.id]);
    assert WriterInv(t);
    forall id <- t.clients ensures ClientInv(t.taken, |t.channel|, t.complete, t.lock == TheClient(id), t.clients[id]) {
    }
  }

  /** A client takes the lock only from nobody and gives back only its own. */
  lemma LockStaysApart(s: System, a: Action, c: Client)
    requires ClientEnabled(s, a, c) && ClientInv(s.taken, |s.channel|, s.complete, s.lock == TheClient(a.id), c)
    ensures a.ClientLock? ==> s.lock == Nobody
    ensures a.ClientUnlock? ==> s.lock == TheClient(a.id)
  {
  }

  lemma DoKeepsInv(s: System, a: Action)
    requires Inv(s)
    ensures Inv(Do(s, a))
  {
    if IsWriterAction(a) {
      if WriterEnabled(s, a) && (s.writer.Idle? || s.taken != []) {
        match a {
          case Take(x) => TakeKeepsInv(s, x);
          case Flag => FlagKeepsInv(s);
          case _ => CriticalSectionKeepsInv(s, a);
        }
      }
    } else if a.Connect? {
      if a.id !in s.clients {
        ConnectKeepsInv(s, a.id);
      }
    } else if a.id in s.clients && ClientEnabled(s, a, s.clients[a.id]) {
      ClientStepKeepsInv(s, a);
    }
  }

  lemma ConnectKeepsInv(s: System, id: nat)
    requires Inv(s) && id !in s.clients
    ensures Inv(Do(s, Connect(id)))
  {
    var t := Do(s, Connect(id));
    forall i <- t.clients ensures ClientInv(t.taken, |t.channel|, t.complete, t.lock == TheClient(i), t.clients[i]) {
      if i != id {
        assert ClientInv(s.taken, |s.channel|, s.complete, s.lock == TheClient(i), s.clients[i]);
      }
    }
  }

  lemma {:induction false} RunKeepsInv(capacity: nat, actions: seq<Action>)
    ensures Inv(Run(capacity, actions))
  {
    if actions != [] {
      RunKeepsInv(capacity, Front(actions));
      DoKeepsInv(Run(capacity, Front(actions)), Last(actions));
    }
  }

  lemma {:induction false} ProperView(taken: seq<Notification>, sent: seq<Sent>)
    requires ProperFeed(taken, sent)
    ensures Revision(sent) <= |taken| && View(sent) == TableAt(taken[..Revision(sent)])
  {
    if sent != [] {
      ProperView(taken, Front(sent));
      match Last(sent) {
        case Update(n, m) => assert taken[..n] == taken[..n - 1] + [taken[n - 1]];
                             assert Front(taken[..n]) == taken[..n - 1];
        case _ =>
      }
    }
  }

  lemma {:induction false} ProperPrefix(taken: seq<Notification>, sent: seq<Sent>, k: nat)
    requires ProperFeed(taken, sent) && k <= |sent|
    ensures ProperFeed(taken, sent[..k])
  {
    if k < |sent| {
      ProperPrefix(taken, Front(sent), k);
      assert Front(sent)[..k] == sent[..k];
    } else {
      assert sent[..k] == sent;
    }
  }

  /** Safety: under every interleaving, whatever a client has been sent so far adds up to the writer's
      table at the revision that the client believes to be at. */
  lemma EveryViewIsATable(capacity: nat, actions: seq<Action>, id: nat, k: nat)
    requires id in Run(capacity, actions).clients && k <= |Run(capacity, actions).clients[id].sent|
    ensures var s := Run(capacity, actions);
            var sent := s.clients[id].sent[..k];
            Revision(sent) <= |s.taken| && View(sent) == TableAt(s.taken[..Revision(sent)])
  {
    RunKeepsInv(capacity, actions);
    var s := Run(capacity, actions);
    ProperPrefix(s.taken, s.clients[id].sent, k);
    ProperView(s.taken, s.clients[id].sent[..k]);
  }

  /** A live client that has received everything published shows the table that the idle writer has. */
  lemma CaughtUpIsCurrent(capacity: nat, actions: seq<Action>, id: nat)
    requires var s := Run(capacity, actions);
             && id in s.clients && s.clients[id].at.Live? && s.clients[id].at.next == |s.channel|
             && s.writer.Idle?
    ensures var s := Run(capacity, actions);
            View(s.clients[id].sent) == s.nodes && Revision(s.clients[id].sent) == s.version
  {
    RunKeepsInv(capacity, actions);
    var s := Run(capacity, actions);
    ProperView(s.taken, s.clients[id].sent);
    assert s.taken[..|s.taken|] == s.taken;
  }

  /** The messages of a feed, one by one, under every interleaving: updates are numbered without holes
      from the revision before, snapshots never go back, contain all notifications before the first live
      one, and come at most three times between two updates (four times before the first). */
  lemma EveryFeedIsProper(capacity: nat, actions: seq<Action>, id: nat, k: nat)
    requires id in Run(capacity, actions).clients && k <= |Run(capacity, actions).clients[id].sent|
    ensures Proper(Run(capacity, actions).taken, Run(capacity, actions).clients[id].sent[..k])
  {
    RunKeepsInv(capacity, actions);
    ProperPrefix(Run(capacity, actions).taken, Run(capacity, actions).clients[id].sent, k);
  }
}
