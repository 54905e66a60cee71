/** What the gossip table, its lag and its flag are, said without the steps that compute them. */
module ContactInfoMeaning {
  import opened Collections
  import opened ContactInfo
  import opened ContactInfoRuns

  /** The last of the notifications about `p` says that it is `v`. */
  ghost predicate LastWord(ns: seq<Notification>, p: Pubkey, v: nat) {
    exists i | 0 <= i < |ns| :: ns[i].message == Node(p, v) && forall j | i < j < |ns| :: ns[j].message.pubkey != p
  }

  lemma LastWordSnoc(ns: seq<Notification>, n: Notification, p: Pubkey, v: nat)
    ensures LastWord(ns + [n], p, v) <==> n.message == Node(p, v) || (n.message.pubkey != p && LastWord(ns, p, v))
  {
    var all := ns + [n];
    assert all[|ns|] == n && forall i | 0 <= i < |ns| :: all[i] == ns[i];
    if n.message.pubkey != p && LastWord(ns, p, v) {
      var i :| 0 <= i < |ns| && ns[i].message == Node(p, v) && forall j | i < j < |ns| :: ns[j].message.pubkey != p;
      assert all[i].message == Node(p, v);
    }
  }

  ghost predicate Says(nodes: Nodes, p: Pubkey, v: nat) {
    p in nodes && nodes[p] == v
  }

  /** The table says of each node what the last notification about it says, and nothing of a node that was
      never announced or was removed last. */
  lemma {:induction false} TableMeaning(ns: seq<Notification>, p: Pubkey, v: nat)
    ensures Says(TableAt(ns), p, v) <==> LastWord(ns, p, v)
  {
    if ns != [] {
      TableMeaning(Front(ns), p, v);
      LastWordSnoc(Front(ns), Last(ns), p, v);
      assert ns == Front(ns) + [Last(ns)];
      hide LastWord;
    }
  }

  /** Under every interleaving, at every message of its feed, what a client has been sent adds up to the
      last words on each node among the notifications up to the revision that the client believes in. */
  lemma EveryViewIsTheLastWord(capacity: nat, actions: seq<Action>, id: nat, k: nat, p: Pubkey, v: nat)
    requires id in Run(capacity, actions).clients && k <= |Run(capacity, actions).clients[id].sent|
    ensures var s := Run(capacity, actions);
            var sent := s.clients[id].sent[..k];
            Revision(sent) <= |s.taken| && (Says(View(sent), p, v) <==> LastWord(s.taken[..Revision(sent)], p, v))
  {
    EveryViewIsATable(capacity, actions, id, k);
    var s := Run(capacity, actions);
    TableMeaning(s.taken[..Revision(s.clients[id].sent[..k])], p, v);
    hide Run;
    hide View;
    hide LastWord;
    hide Revision;
  }

  /** And when it has received everything, to the last words among all notifications. */
  lemma CaughtUpHasTheLastWord(capacity: nat, actions: seq<Action>, id: nat, p: Pubkey, v: nat)
    requires var s := Run(capacity, actions);
             && id in s.clients && s.clients[id].at.Live? && s.clients[id].at.next == |s.channel|
             && s.writer.Idle?
    ensures var s := Run(capacity, actions);
            Says(View(s.clients[id].sent), p, v) <==> LastWord(s.taken, p, v)
  {
    CaughtUpIsCurrent(capacity, actions, id);
    RunKeepsInv(capacity, actions);
    TableMeaning(Run(capacity, actions).taken, p, v);
    hide Run;
    hide View;
    hide LastWord;
    hide ClientInv;
  }

  // ---------- when a client lags ----------

  /** The next step is a poll of the client's receiver that has something. */
  predicate Polls(s: System, a: Action, id: nat) {
    a == Receive(id) && id in s.clients && s.clients[id].at.Live? && s.clients[id].at.next < |s.channel|
  }

  /** The client's next event was overwritten: it is more than `capacity` events behind. */
  predicate IsBehind(s: System, id: nat)
    requires id in s.clients && s.clients[id].at.Live?
  {
    |s.channel| - s.clients[id].at.next > s.capacity
  }

  /** The number of lags after the step, if there were `before` of them. */
  function LagsAfter(s: System, a: Action, id: nat, before: nat): nat {
    if !Polls(s, a, id) then before
    else if IsBehind(s, id) then before + 1
    else if s.channel[s.clients[id].at.next].sequence > s.clients[id].at.rev then 0
    else before
  }

  /** How often the client has lagged since it was last forwarded an update. */
  function Lags(capacity: nat, actions: seq<Action>, id: nat): nat {
    if actions == [] then 0
    else LagsAfter(Run(capacity, Front(actions)), Last(actions), id, Lags(capacity, Front(actions), id))
  }

  lemma PollDoes(s: System, id: nat)
    requires Polls(s, Receive(id), id)
    ensures id in Do(s, Receive(id)).clients
    ensures Do(s, Receive(id)).clients[id] == ReceiveStep(s.channel, s.capacity, s.clients[id])
  {
    hide ReceiveStep;
  }

  lemma OtherAttempts(s: System, a: Action, id: nat)
    requires id in s.clients && !Polls(s, a, id)
    ensures id in Do(s, a).clients && Do(s, a).clients[id].attempts == s.clients[id].attempts
  {
    hide Watched;
    hide ApplyMessage;
    hide ReceiveStep;
  }

  lemma NewAttempts(s: System, a: Action, id: nat)
    requires id !in s.clients && id in Do(s, a).clients
    ensures Do(s, a).clients[id].attempts == 0
  {
    hide Watched;
    hide ApplyMessage;
    hide ReceiveStep;
  }

  lemma AttemptsStep(s: System, a: Action, id: nat)
    requires id in s.clients
    ensures id in Do(s, a).clients
    ensures Do(s, a).clients[id].attempts == LagsAfter(s, a, id, s.clients[id].attempts)
  {
    if Polls(s, a, id) {
      PollDoes(s, id);
    } else {
      OtherAttempts(s, a, id);
    }
    hide Do;
  }

  lemma {:induction false} AttemptsAreLags(capacity: nat, actions: seq<Action>, id: nat)
    ensures var s := Run(capacity, actions);
            if id in s.clients then s.clients[id].attempts == Lags(capacity, actions, id)
            else Lags(capacity, actions, id) == 0
  {
    if actions != [] {
      var s, a := Run(capacity, Front(actions)), Last(actions);
      AttemptsAreLags(capacity, Front(actions), id);
      assert Run(capacity, actions) == Do(s, a);
      hide Do;
      hide DoAll;
      if id in s.clients {
        AttemptsStep(s, a, id);
      } else if id in Do(s, a).clients {
        NewAttempts(s, a, id);
      }
    }
  }

  /** In every run, a live client that polls its receiver stays live, one event further, if and only if it
      is not more than `capacity` events behind. Otherwise it takes a new snapshot; unless it has lagged
      three times already since its last update: then it is told goodbye. */
  lemma LagsExactly(capacity: nat, actions: seq<Action>, id: nat)
    requires Polls(Run(capacity, actions), Receive(id), id)
    ensures id in Run(capacity, actions + [Receive(id)]).clients
    ensures var s := Run(capacity, actions);
            var c, d := s.clients[id], Run(capacity, actions + [Receive(id)]).clients[id];
            && (d.at.Live? <==> !IsBehind(s, id))
            && (d.at.Live? ==> d.at.next == c.at.next + 1 && d.at.rev == c.at.rev)
            && (d.at.Gone? <==> IsBehind(s, id) && Lags(capacity, actions, id) >= 3)
            && (d.at.Gone? ==> d.sent == c.sent + [Goodbye])
            && (IsBehind(s, id) && !d.at.Gone? ==> d.at.Released? && d.sent == c.sent)
  {
    AttemptsAreLags(capacity, actions, id);
    DoAllSnoc(Initial(capacity), actions, Receive(id));
    PollDoes(Run(capacity, actions), id);
    hide Do;
    hide DoAll;
    hide Lags;
  }

  // ---------- when the startup is over ----------

  /** Step `k` raises the flag: a live notification was taken, and a client waits. */
  ghost predicate Raises(capacity: nat, actions: seq<Action>, k: nat) {
    && k < |actions| && actions[k].Flag?
    && var s := Run(capacity, actions[..k]);
       && s.writer.Taken? && s.taken != [] && !Last(s.taken).isStartup
       && exists id <- s.clients :: s.clients[id].at.Waiting?
  }

  lemma RaisesSnoc(capacity: nat, actions: seq<Action>, a: Action, k: nat)
    ensures Raises(capacity, actions + [a], k) <==>
            if k < |actions| then Raises(capacity, actions, k)
            else
              && k == |actions| && a.Flag?
              && var s := Run(capacity, actions);
                 && s.writer.Taken? && s.taken != [] && !Last(s.taken).isStartup
                 && exists id <- s.clients :: s.clients[id].at.Waiting?
  {
    var all := actions + [a];
    assert all[|actions|] == a && all[..|actions|] == actions;
    if k < |actions| {
      assert all[k] == actions[k] && all[..k] == actions[..k];
    }
    hide Run;
  }

  lemma FlagStep(s: System, a: Action)
    ensures Do(s, a).complete <==>
            || s.complete
            || (a.Flag? && s.writer.Taken? && s.taken != [] && !Last(s.taken).isStartup
                && exists id <- s.clients :: s.clients[id].at.Waiting?)
  {
  }

  /** In every run the startup counts as over if and only if a live notification came while a client was
      waiting for that. */
  lemma {:induction false} CompleteExactly(capacity: nat, actions: seq<Action>)
    ensures Run(capacity, actions).complete <==> exists k :: Raises(capacity, actions, k)
  {
    if actions != [] {
      var front, a := Front(actions), Last(actions);
      assert actions == front + [a];
      CompleteExactly(capacity, front);
      DoAllSnoc(Initial(capacity), front, a);
      FlagStep(Run(capacity, front), a);
      forall k: nat {
        RaisesSnoc(capacity, front, a, k);
      }
      hide Do;
      hide DoAll;
      assert Raises(capacity, actions, |front|) <==> a.Flag? && Raises(capacity, actions, |front|);
    }
  }
}
