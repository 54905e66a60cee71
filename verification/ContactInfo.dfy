/** The gossip table: one writer that publishes under a lock, and any number of subscribers that take a
    snapshot and follow the broadcast. The steps interleave freely. */
module ContactInfo {
  import opened Collections

  type Pubkey = nat

  datatype ContactMessage = Node(pubkey: Pubkey, info: nat) | Removed(pubkey: Pubkey)

  datatype Notification = Notification(message: ContactMessage, isStartup: bool)

  datatype Event = Event(sequence: nat, message: ContactMessage)

  type Nodes = map<Pubkey, nat>

  function ApplyMessage(nodes: Nodes, m: ContactMessage): Nodes {
    match m
    case Node(pubkey, info) => nodes[pubkey := info]
    case Removed(pubkey) => nodes - {pubkey}
  }

  /** The table after the given notifications: its value at version `|ns|`. */
  function TableAt(ns: seq<Notification>): Nodes {
    if ns == [] then map[] else ApplyMessage(TableAt(Front(ns)), Last(ns).message)
  }

  /** What a client is sent. */
  datatype Sent = Snapshot(rev: nat, topology: Nodes) | Update(sequence: nat, message: ContactMessage) | Goodbye

  const MAX_RESNAPSHOT_ATTEMPTS := 3

  datatype WriterAt = Idle | Taken | Flagged | Locked | Bumped | Mutated | Published

  datatype ClientAt =
    | Started
    | Waiting
    | Released
    | Subscribed(next: nat)
    | HoldsLock(next: nat)
    | ReadVersion(next: nat, rev: nat)
    | Copied(next: nat, rev: nat, topology: Nodes)
    | Sending(next: nat, rev: nat, topology: Nodes)
    | Live(next: nat, rev: nat)
    | Gone

  datatype Client = Client(at: ClientAt, attempts: nat, sent: seq<Sent>)

  datatype Owner = Nobody | TheWriter | TheClient(id: nat)

  /** `taken` are the notifications the writer has received, `channel` is everything ever broadcast, of
      which receivers can still get the last `capacity` events. */
  datatype System = System(
    capacity: nat,
    taken: seq<Notification>,
    nodes: Nodes,
    version: nat,
    lock: Owner,
    channel: seq<Event>,
    complete: bool,
    writer: WriterAt,
    clients: map<nat, Client>)

  datatype Action =
    | Take(notification: Notification)
    | Flag
    | WriterLock
    | Bump
    | Mutate
    | Broadcast
    | WriterUnlock
    | Connect(id: nat)
    | Wait(id: nat)
    | Release(id: nat)
    | Subscribe(id: nat)
    | ClientLock(id: nat)
    | Read(id: nat)
    | Copy(id: nat)
    | ClientUnlock(id: nat)
    | SendSnapshot(id: nat)
    | Receive(id: nat)
    | Leave(id: nat)

  function Initial(capacity: nat): System {
    System(capacity, [], map[], 0, Nobody, [], false, Idle, map[])
  }

  predicate Watched(s: System) {
    exists id <- s.clients :: s.clients[id].at.Waiting?
  }

  predicate WriterEnabled(s: System, a: Action) {
    match a
    case Take(_) => s.writer.Idle?
    case Flag => s.writer.Taken?
    case WriterLock => s.writer.Flagged? && s.lock.Nobody?
    case Bump => s.writer.Locked?
    case Mutate => s.writer.Bumped?
    case Broadcast => s.writer.Mutated?
    case WriterUnlock => s.writer.Published?
    case _ => false
  }

  /** The loop of the single writer, step by step. The flag is raised by a live notification, and only
      if a subscriber watches it: a watch channel without receivers does not store the value. */
  function WriterStep(s: System, a: Action): System
    requires WriterEnabled(s, a) && (s.writer.Idle? || s.taken != [])
  {
    match a
    case Take(n) => s.(taken := s.taken + [n], writer := Taken)
    case Flag =>
      s.(complete := s.complete || (!Last(s.taken).isStartup && Watched(s)), writer := Flagged)
    case WriterLock => s.(lock := TheWriter, writer := Locked)
    case Bump => s.(version := s.version + 1, writer := Bumped)
    case Mutate => s.(nodes := ApplyMessage(s.nodes, Last(s.taken).message), writer := Mutated)
    case Broadcast => s.(channel := s.channel + [Event(s.version, Last(s.taken).message)], writer := Published)
    case WriterUnlock => s.(lock := Nobody, writer := Idle)
    case _ => s
  }

  /** One poll of the receiver by a live client. */
  function ReceiveStep(channel: seq<Event>, capacity: nat, c: Client): Client
    requires c.at.Live? && c.at.next < |channel|
  {
    var Live(next, rev) := c.at;
    if next + capacity < |channel| then
      if c.attempts + 1 > MAX_RESNAPSHOT_ATTEMPTS then Client(Gone, c.attempts + 1, c.sent + [Goodbye])
      else Client(Released, c.attempts + 1, c.sent)
    else if channel[next].sequence <= rev then c.(at := Live(next + 1, rev))
    else Client(Live(next + 1, rev), 0, c.sent + [Update(channel[next].sequence, channel[next].message)])
  }

  predicate ClientEnabled(s: System, a: Action, c: Client) {
    match a
    case Wait(_) => c.at.Started?
    case Release(_) => c.at.Waiting? && s.complete
    case Subscribe(_) => c.at.Released?
    case ClientLock(_) => c.at.Subscribed? && s.lock.Nobody?
    case Read(_) => c.at.HoldsLock?
    case Copy(_) => c.at.ReadVersion?
    case ClientUnlock(_) => c.at.Copied?
    case SendSnapshot(_) => c.at.Sending?
    case Receive(_) => c.at.Live? && c.at.next < |s.channel|
    case Leave(_) => c.at.Started? || c.at.Waiting? || c.at.Sending? || c.at.Live?
    case _ => false
  }

  /** The client task: wait for the flag, subscribe, snapshot under the lock, send, follow. It may leave,
      with or without a farewell, wherever it waits or sends. */
  function ClientStep(s: System, a: Action, c: Client): Client
    requires ClientEnabled(s, a, c)
  {
    match a
    case Wait(_) => c.(at := Waiting)
    case Release(_) => c.(at := Released)
    case Subscribe(_) => c.(at := Subscribed(|s.channel|))
    case ClientLock(_) => c.(at := HoldsLock(c.at.next))
    case Read(_) => c.(at := ReadVersion(c.at.next, s.version))
    case Copy(_) => c.(at := Copied(c.at.next, c.at.rev, s.nodes))
    case ClientUnlock(_) => c.(at := Sending(c.at.next, c.at.rev, c.at.topology))
    case SendSnapshot(_) => c.(at := Live(c.at.next, c.at.rev), sent := c.sent + [Snapshot(c.at.rev, c.at.topology)])
    case Receive(_) => ReceiveStep(s.channel, s.capacity, c)
    case Leave(_) => c.(at := Gone, sent := c.sent + [Goodbye])
    case _ => c
  }

  function LockAfter(a: Action, id: nat, lock: Owner): Owner {
    match a
    case ClientLock(_) => TheClient(id)
    case ClientUnlock(_) => Nobody
    case _ => lock
  }

  predicate IsWriterAction(a: Action) {
    a.Take? || a.Flag? || a.WriterLock? || a.Bump? || a.Mutate? || a.Broadcast? || a.WriterUnlock?
  }

  /** One step of the system; an action that is not enabled does nothing. */
  function Do(s: System, a: Action): System {
    if IsWriterAction(a) then
      if WriterEnabled(s, a) && (s.writer.Idle? || s.taken != []) then WriterStep(s, a) else s
    else if a.Connect? then
      if a.id in s.clients then s else s.(clients := s.clients[a.id := Client(Started, 0, [])])
    else if a.id in s.clients && ClientEnabled(s, a, s.clients[a.id]) then
      s.(clients := s.clients[a.id := ClientStep(s, a, s.clients[a.id])], lock := LockAfter(a, a.id, s.lock))
    else s
  }

  function DoAll(s: System, actions: seq<Action>): System {
    if actions == [] then s else Do(DoAll(s, Front(actions)), Last(actions))
  }

  /** The system after any interleaving of steps. */
  function Run(capacity: nat, actions: seq<Action>): System {
    DoAll(Initial(capacity), actions)
  }

  lemma DoAllSnoc(s: System, actions: seq<Action>, a: Action)
    ensures DoAll(s, actions + [a]) == Do(DoAll(s, actions), a)
  {
    assert Front(actions + [a]) == actions;
  }

  lemma {:induction false} DoAllAppend(s: System, a: seq<Action>, b: seq<Action>)
    ensures DoAll(s, a + b) == DoAll(DoAll(s, a), b)
  {
    if b == [] {
      assert a + b == a;
    } else {
      assert Front(a + b) == a + Front(b) && Last(a + b) == Last(b);
      DoAllAppend(s, a, Front(b));
    }
  }

  // ---------- what a client is promised ----------

  /** The table that a client has built from what it was sent. */
  function View(sent: seq<Sent>): Nodes {
    if sent == [] then map[]
    else
      match Last(sent)
      case Snapshot(_, topology) => topology
      case Update(_, m) => ApplyMessage(View(Front(sent)), m)
      case Goodbye => View(Front(sent))
  }

  /** The revision that the client believes to be at. */
  function Revision(sent: seq<Sent>): nat {
    if sent == [] then 0
    else
      match Last(sent)
      case Snapshot(rev, _) => rev
      case Update(n, _) => n
      case Goodbye => Revision(Front(sent))
  }

  function SnapshotsAtEnd(sent: seq<Sent>): nat {
    if sent == [] || !Last(sent).Snapshot? then 0 else SnapshotsAtEnd(Front(sent)) + 1
  }

  ghost predicate HasUpdate(sent: seq<Sent>) {
    exists x <- sent :: x.Update?
  }

  /** The number of notifications before the first live one. */
  function StartupCount(ns: seq<Notification>): nat {
    if ns == [] || !ns[0].isStartup then 0 else 1 + StartupCount(ns[1..])
  }

  ghost predicate HasLive(ns: seq<Notification>) {
    exists n <- ns :: !n.isStartup
  }

  /** The last message of a feed is as it should be after the others: a snapshot is the table at its
      revision, which is not older than what was sent before and contains the startup replay; an update
      is the next notification; snapshots do not repeat too often without an update. */
  ghost predicate Proper(taken: seq<Notification>, sent: seq<Sent>) {
    sent != [] ==>
      match Last(sent)
      case Snapshot(rev, topology) =>
        && Revision(Front(sent)) <= rev <= |taken|
        && topology == TableAt(taken[..rev])
        && HasLive(taken) && StartupCount(taken) <= rev
        && SnapshotsAtEnd(sent) <= MAX_RESNAPSHOT_ATTEMPTS + if HasUpdate(sent) then 0 else 1
      case Update(n, m) =>
        && n == Revision(Front(sent)) + 1 && n <= |taken| && m == taken[n - 1].message
        && exists x <- Front(sent) :: x.Snapshot?
      case Goodbye => true
  }

  ghost predicate ProperFeed(taken: seq<Notification>, sent: seq<Sent>) {
    sent != [] ==> ProperFeed(taken, Front(sent)) && Proper(taken, sent)
  }
}
