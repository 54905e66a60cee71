/** The tasks of the gossip feed as sequential code: each runs the steps of the interleaved system. */
module ContactInfoTasks {
  import opened Collections
  import opened ContactInfo

  /** The steps of the writer for one notification. */
  function Iteration(n: Notification): seq<Action> {
    [Take(n), Flag, WriterLock, Bump, Mutate, Broadcast, WriterUnlock]
  }

  /** The steps that hand a released client its snapshot. */
  function Handoff(id: nat): seq<Action> {
    [Subscribe(id), ClientLock(id), Read(id), Copy(id), ClientUnlock(id), SendSnapshot(id)]
  }

  lemma SixSteps(s: System, a: seq<Action>)
    requires |a| == 6
    ensures DoAll(s, a) == Do(Do(Do(Do(Do(Do(s, a[0]), a[1]), a[2]), a[3]), a[4]), a[5])
  {
    hide Do;
    hide DoAll;
    DoAllSnoc(s, [], a[0]);
    DoAllSnoc(s, a[..1], a[1]);
    DoAllSnoc(s, a[..2], a[2]);
    DoAllSnoc(s, a[..3], a[3]);
    DoAllSnoc(s, a[..4], a[4]);
    DoAllSnoc(s, a[..5], a[5]);
    NoSteps(s);
    assert a[..1] == [] + [a[0]] && a[..2] == a[..1] + [a[1]] && a[..3] == a[..2] + [a[2]];
    assert a[..4] == a[..3] + [a[3]] && a[..5] == a[..4] + [a[4]] && a == a[..5] + [a[5]];
  }

  lemma NoSteps(s: System)
    ensures DoAll(s, []) == s
  {
  }

  lemma BeforeLock(s: System, n: Notification)
    requires s.writer.Idle?
    ensures Do(Do(s, Take(n)), Flag) ==
            s.(taken := s.taken + [n], writer := Flagged, complete := s.complete || (!n.isStartup && Watched(s)))
  {
    assert Watched(Do(s, Take(n))) == Watched(s);
  }

  lemma Applied(s: System)
    requires s.writer.Flagged? && s.lock.Nobody? && s.taken != []
    ensures Do(Do(Do(s, WriterLock), Bump), Mutate) ==
            s.(nodes := ApplyMessage(s.nodes, Last(s.taken).message), version := s.version + 1,
               lock := TheWriter, writer := Mutated)
  {
    hide Watched;
    hide ApplyMessage;
    hide ClientEnabled;
    hide ClientStep;
  }

  lemma Announced(s: System)
    requires s.writer.Mutated? && s.taken != []
    ensures Do(Do(s, Broadcast), WriterUnlock) ==
            s.(channel := s.channel + [Event(s.version, Last(s.taken).message)], lock := Nobody, writer := Idle)
  {
    hide Watched;
    hide ApplyMessage;
    hide ClientEnabled;
    hide ClientStep;
  }

  /** What an undisturbed iteration of the writer amounts to. */
  lemma IterationIs(s: System, n: Notification)
    requires s.writer.Idle? && s.lock.Nobody?
    ensures DoAll(s, Iteration(n)) ==
            s.(taken := s.taken + [n], nodes := ApplyMessage(s.nodes, n.message), version := s.version + 1,
               channel := s.channel + [Event(s.version + 1, n.message)],
               complete := s.complete || (!n.isStartup && Watched(s)))
  {
    hide *;
    var steps := [Take(n), Flag, WriterLock, Bump, Mutate, Broadcast];
    SixSteps(s, steps);
    DoAllSnoc(s, steps, WriterUnlock);
    IterationSteps(n);
    BeforeLock(s, n);
    var t := s.(taken := s.taken + [n], writer := Flagged, complete := s.complete || (!n.isStartup && Watched(s)));
    LastOfSnoc(s.taken, n);
    Applied(t);
    Announced(t.(nodes := ApplyMessage(s.nodes, n.message),
                 version := s.version + 1, lock := TheWriter, writer := Mutated));
  }

  lemma LastOfSnoc(ns: seq<Notification>, n: Notification)
    ensures Last(ns + [n]) == n
  {
  }

  lemma IterationSteps(n: Notification)
    ensures Iteration(n) == [Take(n), Flag, WriterLock, Bump, Mutate, Broadcast] + [WriterUnlock]
  {
  }

  lemma ClientDo(s: System, a: Action, c: Client)
    requires !IsWriterAction(a) && !a.Connect? && a.id in s.clients && s.clients[a.id] == c && ClientEnabled(s, a, c)
    ensures Do(s, a) == s.(clients := s.clients[a.id := ClientStep(s, a, c)], lock := LockAfter(a, a.id, s.lock))
  {
  }

  lemma UpdateTwice(m: map<nat, Client>, id: nat, c: Client, d: Client)
    ensures m[id := c][id := d] == m[id := d]
  {
  }

  lemma EnterLock(s: System, id: nat, c: Client)
    requires id in s.clients && s.clients[id] == c && c.at.Released? && s.lock.Nobody?
    ensures Do(Do(s, Subscribe(id)), ClientLock(id)) ==
            s.(clients := s.clients[id := c.(at := HoldsLock(|s.channel|))], lock := TheClient(id))
  {
    hide Do;
    ClientDo(s, Subscribe(id), c);
    var d := c.(at := Subscribed(|s.channel|));
    ClientDo(s.(clients := s.clients[id := d]), ClientLock(id), d);
    UpdateTwice(s.clients, id, d, c.(at := HoldsLock(|s.channel|)));
  }

  lemma CopyInLock(s: System, id: nat, c: Client)
    requires id in s.clients && s.clients[id] == c && c.at.HoldsLock?
    ensures Do(Do(s, Read(id)), Copy(id)) ==
            s.(clients := s.clients[id := c.(at := Copied(c.at.next, s.version, s.nodes))])
  {
    hide Do;
    ClientDo(s, Read(id), c);
    var d := c.(at := ReadVersion(c.at.next, s.version));
    ClientDo(s.(clients := s.clients[id := d]), Copy(id), d);
    UpdateTwice(s.clients, id, d, c.(at := Copied(c.at.next, s.version, s.nodes)));
  }

  lemma LeaveLock(s: System, id: nat, c: Client)
    requires id in s.clients && s.clients[id] == c && c.at.Copied?
    ensures Do(Do(s, ClientUnlock(id)), SendSnapshot(id)) ==
            s.(clients := s.clients[id := Client(Live(c.at.next, c.at.rev), c.attempts,
                                                 c.sent + [Snapshot(c.at.rev, c.at.topology)])], lock := Nobody)
  {
    hide Do;
    ClientDo(s, ClientUnlock(id), c);
    var d := c.(at := Sending(c.at.next, c.at.rev, c.at.topology));
    ClientDo(s.(clients := s.clients[id := d], lock := Nobody), SendSnapshot(id), d);
    UpdateTwice(s.clients, id, d,
                Client(Live(c.at.next, c.at.rev), c.attempts, c.sent + [Snapshot(c.at.rev, c.at.topology)]));
  }

  /** What an undisturbed handoff amounts to. */
  lemma HandoffIs(s: System, id: nat)
    requires id in s.clients && s.clients[id].at.Released? && s.lock.Nobody?
    ensures var c := s.clients[id];
            DoAll(s, Handoff(id)) ==
            s.(clients := s.clients[id := Client(Live(|s.channel|, s.version), c.attempts,
                                                 c.sent + [Snapshot(s.version, s.nodes)])])
  {
    SixSteps(s, Handoff(id));
    hide *;
    var c := s.clients[id];
    EnterLock(s, id, c);
    var c2 := c.(at := HoldsLock(|s.channel|));
    var s2 := s.(clients := s.clients[id := c2], lock := TheClient(id));
    CopyInLock(s2, id, c2);
    var c4 := c.(at := Copied(|s.channel|, s.version, s.nodes));
    UpdateTwice(s.clients, id, c2, c4);
    var s4 := s2.(clients := s.clients[id := c4]);
    LeaveLock(s4, id, c4);
    UpdateTwice(s.clients, id, c4,
                Client(Live(|s.channel|, s.version), c.attempts, c.sent + [Snapshot(s.version, s.nodes)]));
  }

  class ContactInfoState {
    const capacity: nat
    var nodes: Nodes
    var version: nat
    var channel: seq<Event>
    var complete: bool
    var clients: map<nat, Client>
    ghost var taken: seq<Notification>

    /** The system at rest: the writer idle and the lock free. */
    ghost function AtRest(): System
      reads this
    {
      System(capacity, taken, nodes, version, Nobody, channel, complete, Idle, clients)
    }

    constructor (capacity: nat)
      ensures AtRest() == Initial(capacity)
    {
      this.capacity := capacity;
      nodes, version, channel, complete, clients, taken := map[], 0, [], false, map[], [];
    }

    /** One iteration of the writer's loop. */
    method OnNotification(n: Notification)
      modifies this
      ensures AtRest() == DoAll(old(AtRest()), Iteration(n))
      ensures nodes == match n.message
                       case Node(pubkey, info) => old(nodes)[pubkey := info]
                       case Removed(pubkey) => old(nodes) - {pubkey}
      ensures version == old(version) + 1 && channel == old(channel) + [Event(version, n.message)]
      ensures complete <==> old(complete) || (!n.isStartup && exists id <- clients :: clients[id].at.Waiting?)
    {
      IterationIs(AtRest(), n);
      if !n.isStartup && !complete {
        var watched := exists id | id in clients :: clients[id].at.Waiting?;
        if watched {
          complete := true;
        }
      }
      version := version + 1;
      var sequence := version;
      match n.message {
        case Node(pubkey, info) => nodes := nodes[pubkey := info];
        case Removed(pubkey) => nodes := nodes - {pubkey};
      }
      channel := channel + [Event(sequence, n.message)];
      taken := taken + [n];
    }

    method SubscribeAndSnapshot() returns (next: nat, rev: nat, topology: Nodes)
      ensures next == |channel| && rev == version && topology == nodes
    {
      next := |channel|;
      rev, topology := version, nodes;
    }

    /** A released client subscribes and is sent its snapshot. */
    method HandOff(id: nat)
      requires id in clients && clients[id].at.Released?
      modifies this`clients
      ensures AtRest() == DoAll(old(AtRest()), Handoff(id))
      ensures id in clients && clients[id].at == Live(|channel|, version)
      ensures clients[id].sent == old(clients[id].sent) + [Snapshot(version, nodes)]
    {
      HandoffIs(AtRest(), id);
      var next, rev, topology := SubscribeAndSnapshot();
      var c := clients[id];
      clients := clients[id := Client(Live(next, rev), c.attempts, c.sent + [Snapshot(rev, topology)])];
    }

    /** One message of the receiver of a live client. A lagging client goes back to the handoff, or
        gives up after too many handoffs without an update in between. */
    method ReceiveOne(id: nat)
      requires id in clients && clients[id].at.Live? && clients[id].at.next < |channel|
      modifies this`clients
      ensures AtRest() == Do(old(AtRest()), Receive(id))
    {
      var c := clients[id];
      var Live(next, snapshotSeq) := c.at;
      if next + capacity < |channel| {
        var attempts := c.attempts + 1;
        if attempts > MAX_RESNAPSHOT_ATTEMPTS {
          clients := clients[id := Client(Gone, attempts, c.sent + [Goodbye])];
        } else {
          clients := clients[id := Client(Released, attempts, c.sent)];
        }
      } else {
        var event := channel[next];
        if event.sequence <= snapshotSeq {
          clients := clients[id := c.(at := Live(next + 1, snapshotSeq))];
        } else {
          clients := clients[id := Client(Live(next + 1, snapshotSeq), 0,
                                          c.sent + [Update(event.sequence, event.message)])];
        }
      }
    }

    /** A live client takes everything that its receiver has, through as many handoffs as that needs. */
    method Drain(id: nat)
      requires id in clients && clients[id].at.Live? && clients[id].at.next <= |channel|
      modifies this`clients
      ensures exists actions :: (forall a <- actions :: a == Receive(id) || a in Handoff(id))
                                && AtRest() == DoAll(old(AtRest()), actions)
      ensures id in clients && (clients[id].at.Gone? || (clients[id].at.Live? && clients[id].at.next == |channel|))
    {
      hide Do;
      hide Handoff;
      ghost var actions: seq<Action> := [];
      while clients[id].at.Live? && clients[id].at.next < |channel|
        invariant id in clients && (clients[id].at.Gone? || (clients[id].at.Live? && clients[id].at.next <= |channel|))
        invariant forall a <- actions :: a == Receive(id) || a in Handoff(id)
        invariant AtRest() == DoAll(old(AtRest()), actions)
        decreases if clients[id].at.Live? then |channel| - clients[id].at.next else 0
      {
        DoAllSnoc(old(AtRest()), actions, Receive(id));
        actions := actions + [Receive(id)];
        ReceiveEffect(AtRest(), id);
        ReceiveOne(id);
        if clients[id].at.Released? {
          DoAllAppend(old(AtRest()), actions, Handoff(id));
          HandoffIs(AtRest(), id);
          actions := actions + Handoff(id);
          HandOff(id);
        }
      }
    }
  }

  lemma ReceiveEffect(s: System, id: nat)
    requires id in s.clients && s.clients[id].at.Live? && s.clients[id].at.next < |s.channel|
    ensures var t := Do(s, Receive(id));
            && t == s.(clients := s.clients[id := ReceiveStep(s.channel, s.capacity, s.clients[id])])
            && var at := t.clients[id].at;
               at.Gone? || at.Released? || (at.Live? && at.next == s.clients[id].at.next + 1)
  {
  }
}
