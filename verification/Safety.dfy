/** The protocol's promises in every reachable state, each over any transport that is honest about the answers it rests
    on; the transport that passes values is honest about all. */
module Safety {
  import opened Types
  import opened Rules
  import opened Protocol
  import opened Runs
  import opened Invariants
  import opened InvariantSteps

  lemma DirectIsHonest(h: Honesty, net: set<Packet>)
    ensures Honest(h, Direct(), net)
  {
  }

  // From steps to runs

  /** Nothing that has been sent, created, entered or started is ever forgotten. */
  ghost predicate Remembers(s: Sys, s': Sys) {
    && s.net <= s'.net
    && (forall id | id in s.origin :: id in s'.origin && s'.origin[id] == s.origin[id])
    && (forall k | k in s.entries :: k in s'.entries)
    && (forall p | p in s.threads :: p in s'.threads && s'.threads[p].(phase := Finished) == s.threads[p].(phase := Finished))
  }

  predicate IsRequestEvent(e: Event) {
    e.ServeConnect? || e.ServeWitness?
  }

  predicate IsUpdateEvent(e: Event) {
    e.NameSelf? || e.ServeNotification? || e.ServeClose?
  }

  predicate IsSelectionEvent(e: Event) {
    e.RequestReceiver? || e.Choose? || e.Ask? || e.GiveUp? || e.Notify?
  }

  predicate IsAnswerEvent(e: Event) {
    e.TakeReceiverAnswer? || e.TakeCandidateAnswer? || e.FailCandidate?
  }

  ghost predicate KeepsKeys(s: Sys, s': Sys) {
    && s.net <= s'.net
    && (forall k | k in s.entries :: k in s'.entries)
    && (forall id | id in s.origin :: id in s'.origin && s'.origin[id] == s.origin[id])
  }

  /** A thread keeps its entry and role, and once finished stays so. */
  predicate KeepsThread(s: Sys, s': Sys, p: nat)
    requires p in s.threads
  {
    && p in s'.threads && s'.threads[p].(phase := Finished) == s.threads[p].(phase := Finished)
    && (s.threads[p].phase == Finished ==> s'.threads[p].phase == Finished)
  }

  /** The event can give entry k's lock back. */
  predicate Releases(s: Sys, e: Event, k: Key) {
    && (e.Abandon? || e.Commit? || e.TakeReceiverAnswer?)
    && e.pid in s.threads && KeyOf(s.threads[e.pid]) == k && Holding(s.threads[e.pid].phase)
  }

  /** What one event does to thread p and entry k. A thread changes by its own events only, and starts by a call or by
      serving a request, which makes the entry too. An entry changes while its lock is free or is being given back, and
      its connection only by an update or a commit. */
  ghost predicate Local(s: Sys, s': Sys, e: Event, p: nat, k: Key) {
    && KeepsKeys(s, s') && (IsRequestEvent(e) ==> e.pid !in s.threads)
    && (p in s.threads ==> KeepsThread(s, s', p))
    && (!IsBy(e, p) ==> (p in s'.threads <==> p in s.threads) && (p in s.threads ==> s'.threads[p] == s.threads[p]))
    && (p in s'.threads && p !in s.threads ==>
          e.Connect? || e.BeginClose?
          || (IsRequestEvent(e) && s'.threads[p].phase == Queued && KeyOf(s'.threads[p]) !in s.entries))
    && (k in s'.entries && k !in s.entries ==> (e.Connect? || IsRequestEvent(e)) && s'.entries[k].holder == None)
    && (k in s.entries && !Free(s, k) && !Releases(s, e, k) ==> s'.entries[k] == s.entries[k])
    && (k in s.entries && Free(s, k) && s'.entries[k].holder.Some? ==>
          e.Acquire? && e.pid in s.threads && KeyOf(s.threads[e.pid]) == k)
    && (k in s.entries && !IsUpdateEvent(e) && !e.Commit? ==> s'.entries[k].conn == s.entries[k].conn)
  }

  /** Serving a request adds at most an entry, a queued thread of its own for that entry, and packets. */
  ghost predicate OnlyAdds(s: Sys, s': Sys, pid: nat, p: nat, k: Key) {
    && KeepsKeys(s, s')
    && (p in s.threads ==> p in s'.threads && s'.threads[p] == s.threads[p])
    && (p in s'.threads && p !in s.threads ==>
          p == pid && s'.threads[p].phase == Queued && KeyOf(s'.threads[p]) !in s.entries)
    && (k in s.entries ==> s'.entries[k] == s.entries[k])
    && (k in s'.entries && k !in s.entries ==> s'.entries[k].holder == None)
  }

  lemma ConnectVerdictAdds(
    s: Sys, pid: nat, packet: Packet, r: ConnectRequest, v: Verdict<ConnectResponse>, p: nat, k: Key)
    requires r.sender.Some? && r.receiver.Some? && pid !in s.threads
    ensures OnlyAdds(s, AfterVerdictConnect(s, pid, packet, r, v), pid, p, k)
  {
  }

  lemma WitnessVerdictAdds(
    s: Sys, pid: nat, packet: Packet, r: WitnessRequest, v: Verdict<WitnessResponse>, p: nat, k: Key)
    requires r.sender.Some? && r.receiver.Some? && pid !in s.threads
    ensures OnlyAdds(s, AfterVerdictWitness(s, pid, packet, r, v), pid, p, k)
  {
  }

  lemma RequestLocal(c: Channel, s: Sys, e: Event, s': Sys, p: nat, k: Key)
    requires Step(c, s, e, s') && IsRequestEvent(e)
    ensures OnlyAdds(s, s', e.pid, p, k)
  {
    if e.ServeConnect? {
      var r := c(e.packet.body).value.connectRequest;
      var v := ConnectVerdict(e.packet.to, e.packet.from, r, e.found, e.userConnect);
      ConnectVerdictAdds(s, e.pid, e.packet, r, v, p, k);
    } else {
      var r := c(e.packet.body).value.witnessRequest;
      var v := WitnessVerdict(e.packet.to, e.packet.from, r, e.found, e.userWitness);
      WitnessVerdictAdds(s, e.pid, e.packet, r, v, p, k);
    }
  }

  lemma UpdateLocal(c: Channel, s: Sys, e: Event, s': Sys, p: nat, k: Key)
    requires Step(c, s, e, s') && IsUpdateEvent(e)
    ensures Local(s, s', e, p, k)
  {
  }

  lemma SelectionLocal(c: Channel, s: Sys, e: Event, s': Sys, p: nat, k: Key)
    requires Step(c, s, e, s') && IsSelectionEvent(e)
    ensures Local(s, s', e, p, k)
  {
  }

  lemma ReceiverAnswerLocal(c: Channel, s: Sys, e: Event, s': Sys, p: nat, k: Key)
    requires Step(c, s, e, s') && e.TakeReceiverAnswer?
    ensures Local(s, s', e, p, k)
  {
  }

  lemma CandidateAnswerLocal(c: Channel, s: Sys, e: Event, s': Sys, p: nat, k: Key)
    requires Step(c, s, e, s') && (e.TakeCandidateAnswer? || e.FailCandidate?)
    ensures Local(s, s', e, p, k)
  {
  }

  predicate IsClosingEvent(e: Event) {
    e.BeginClose? || e.StartClose? || e.TellOne? || e.EndTelling?
  }

  lemma ClosingLocal(c: Channel, s: Sys, e: Event, s': Sys, p: nat, k: Key)
    requires Step(c, s, e, s') && IsClosingEvent(e)
    ensures Local(s, s', e, p, k)
  {
  }

  lemma LockLocal(c: Channel, s: Sys, e: Event, s': Sys, p: nat, k: Key)
    requires Step(c, s, e, s') && (e.Connect? || e.Acquire? || e.Abandon? || e.Commit?)
    ensures Local(s, s', e, p, k)
  {
  }

  lemma StepLocal(c: Channel, s: Sys, e: Event, s': Sys, p: nat, k: Key)
    requires Step(c, s, e, s')
    ensures Local(s, s', e, p, k)
  {
    if IsRequestEvent(e) {
      RequestLocal(c, s, e, s', p, k);
    } else if IsUpdateEvent(e) {
      UpdateLocal(c, s, e, s', p, k);
    } else if IsSelectionEvent(e) {
      SelectionLocal(c, s, e, s', p, k);
    } else if e.TakeReceiverAnswer? {
      ReceiverAnswerLocal(c, s, e, s', p, k);
    } else if IsAnswerEvent(e) {
      CandidateAnswerLocal(c, s, e, s', p, k);
    } else if IsClosingEvent(e) {
      ClosingLocal(c, s, e, s', p, k);
    } else {
      LockLocal(c, s, e, s', p, k);
    }
  }

  lemma StepKeepsThread(c: Channel, s: Sys, e: Event, s': Sys, p: nat)
    requires Step(c, s, e, s')
    ensures KeepsKeys(s, s')
    ensures p in s.threads ==> KeepsThread(s, s', p)
  {
    StepLocal(c, s, e, s', p, if p in s.threads then KeyOf(s.threads[p]) else Key(PeerID('n', []), "0000000000000000"));
  }

  lemma StepRemembers(c: Channel, s: Sys, e: Event, s': Sys)
    requires Step(c, s, e, s')
    ensures Remembers(s, s')
  {
    StepKeepsThread(c, s, e, s', 0);
    forall p | p in s.threads
      ensures p in s'.threads && s'.threads[p].(phase := Finished) == s.threads[p].(phase := Finished)
    {
      StepKeepsThread(c, s, e, s', p);
    }
  }

  lemma {:induction false} RunRemembers(c: Channel, states: seq<Sys>, events: seq<Event>, i: nat, j: nat)
    requires IsRun(c, states, events) && i <= j < |states|
    ensures Remembers(states[i], states[j])
    decreases j
  {
    if i < j {
      RunRemembers(c, states, events, i, j - 1);
      StepRemembers(c, states[j - 1], events[j - 1], states[j]);
    }
  }

  lemma HonestBefore(h: Honesty, c: Channel, states: seq<Sys>, events: seq<Event>, i: nat, j: nat)
    requires IsRun(c, states, events) && i <= j < |states| && Honest(h, c, states[j].net)
    ensures Honest(h, c, states[i].net)
  {
    RunRemembers(c, states, events, i, j);
  }

  lemma StepAtKeeps(h: Honesty, c: Channel, states: seq<Sys>, events: seq<Event>, n: nat)
    requires IsRun(c, states, events) && n < |events| && Inv(h, states[n]) && Honest(h, c, states[n].net)
    ensures Inv(h, states[n + 1])
  {
    StepKeeps(h, c, states[n], events[n], states[n + 1]);
  }

  lemma {:induction false} RunKeeps(h: Honesty, c: Channel, states: seq<Sys>, events: seq<Event>, i: nat)
    requires IsRun(c, states, events) && states[0] == Initial() && i < |states|
    requires Honest(h, c, states[i].net)
    ensures Inv(h, states[i])
    decreases i
  {
    if i == 0 {
      InitialKeeps(h);
    } else {
      HonestBefore(h, c, states, events, i - 1, i);
      RunKeeps(h, c, states, events, i - 1);
      StepAtKeeps(h, c, states, events, i - 1);
    }
  }

  /** s is a state of a run from the initial state, with the transport honest about everything sent by then. */
  ghost predicate OnRun(h: Honesty, c: Channel, states: seq<Sys>, events: seq<Event>, s: Sys) {
    IsRun(c, states, events) && states[0] == Initial() && s in states && Honest(h, c, s.net)
  }

  lemma OnRunKeeps(h: Honesty, c: Channel, states: seq<Sys>, events: seq<Event>, s: Sys)
    requires OnRun(h, c, states, events, s)
    ensures Inv(h, s)
  {
    var i: nat :| i < |states| && states[i] == s;
    RunKeeps(h, c, states, events, i);
  }

  // Promises about one state

  /** When sender and receiver both name a witness, they name the same one. */
  lemma WitnessAgreement(h: Honesty, c: Channel, states: seq<Sys>, events: seq<Event>, s: Sys, id: ConnID)
    requires OnRun(h, c, states, events, s) && id in s.origin
    requires
      var o := s.origin[id];
      && Key(o.sender, id) in s.entries && Key(o.receiver, id) in s.entries
      && s.entries[Key(o.sender, id)].conn.wit.Some? && s.entries[Key(o.receiver, id)].conn.wit.Some?
    ensures
      var o := s.origin[id];
      s.entries[Key(o.sender, id)].conn.wit == s.entries[Key(o.receiver, id)].conn.wit
  {
    OnRunKeeps(h, c, states, events, s);
    assert EntryOK(h, s, Key(s.origin[id].sender, id)) && EntryOK(h, s, Key(s.origin[id].receiver, id));
  }

  /** A witness the sender or the receiver names is a third node that entered the same connection as its witness. */
  lemma NamedWitnessAccepted(h: Honesty, c: Channel, states: seq<Sys>, events: seq<Event>, s: Sys, k: Key)
    requires h.wit && OnRun(h, c, states, events, s) && k in s.entries
    requires k.node == s.entries[k].conn.sender || k.node == s.entries[k].conn.receiver
    requires s.entries[k].conn.wit.Some?
    ensures
      var conn := s.entries[k].conn;
      var wk := Key(conn.wit.value, k.id);
      && wk.node != conn.sender && wk.node != conn.receiver
      && wk in s.entries
      && var theirs := s.entries[wk].conn;
         theirs.sender == conn.sender && theirs.receiver == conn.receiver && theirs.wit == conn.wit
  {
    OnRunKeeps(h, c, states, events, s);
    assert EntryOK(h, s, k);
    ChosenHas(h, s, k.id);
    assert EntryOK(h, s, Key(s.chosen[k.id], k.id));
  }

  /** At the two ends the status says whether there is a witness, which is then neither end; a third node
      is never the one waiting, requesting or notifying, and names nobody but itself. */
  lemma StatusDeterminesWitness(h: Honesty, c: Channel, states: seq<Sys>, events: seq<Event>, s: Sys, k: Key)
    requires OnRun(h, c, states, events, s) && k in s.entries
    ensures
      var conn := s.entries[k].conn;
      if k.node == conn.sender || k.node == conn.receiver then
        && (conn.status in {RequestingReceiver, AwaitingWitness, RequestingWitness} ==> conn.wit == None)
        && (conn.status in {NotifyingOfWitness, Open} ==>
              conn.wit.Some? && conn.wit.value != conn.sender && conn.wit.value != conn.receiver)
        && conn.status != RequestingSender
      else
        conn.status in {Open, Closing, Closed} && (conn.wit == None || conn.wit == Some(k.node))
  {
    OnRunKeeps(h, c, states, events, s);
    assert EntryOK(h, s, k);
    if s.entries[k].conn.wit.Some? && IsEnd(s.origin[k.id], k.node) {
      ChosenHas(h, s, k.id);
    }
  }

  /** A sender that got past its request has a receiver that entered the connection. */
  lemma SenderImpliesReceiver(h: Honesty, c: Channel, states: seq<Sys>, events: seq<Event>, s: Sys, k: Key)
    requires h.connect && OnRun(h, c, states, events, s) && k in s.entries && k.node == s.entries[k].conn.sender
    requires s.entries[k].conn.status in {AwaitingWitness, RequestingWitness, NotifyingOfWitness, Open}
    ensures Key(s.entries[k].conn.receiver, k.id) in s.entries
  {
    OnRunKeeps(h, c, states, events, s);
    assert EntryOK(h, s, k);
  }

  /** The node about to notify is an end and has a witness to announce, so neither guard in the way of sending fails. */
  lemma NotifierIsAnEnd(h: Honesty, c: Channel, states: seq<Sys>, events: seq<Event>, s: Sys, pid: nat)
    requires OnRun(h, c, states, events, s) && pid in s.threads && s.threads[pid].phase.Notifying?
    ensures
      var t := s.threads[pid];
      (t.node == t.phase.conn.sender || t.node == t.phase.conn.receiver) && t.phase.conn.wit.Some?
  {
    OnRunKeeps(h, c, states, events, s);
    assert ThreadOK(h, s, pid);
  }

  /** Every notification ever sent goes from the end that was to choose to the other end. */
  lemma NotificationsCross(h: Honesty, c: Channel, states: seq<Sys>, events: seq<Event>, s: Sys, p: Packet)
    requires OnRun(h, c, states, events, s) && p in s.net && p.body.Notification?
    ensures p.body.notification.connectionID in s.origin
    ensures
      var o := s.origin[p.body.notification.connectionID];
      && {p.from, p.to} == {o.sender, o.receiver}
      && p.from == if o.selector == SenderSelects then o.sender else o.receiver
  {
    OnRunKeeps(h, c, states, events, s);
    assert PacketOK(s, p);
  }

  /** Every close request ever sent goes to a participant, and comes from another node that has entered the connection. */
  lemma CloseRequestsStay(h: Honesty, c: Channel, states: seq<Sys>, events: seq<Event>, s: Sys, p: Packet)
    requires OnRun(h, c, states, events, s) && p in s.net && p.body.CloseReq?
    ensures
      var id := p.body.closeRequest.connectionID;
      && Key(p.from, id) in s.entries && id in s.origin && p.to != p.from
      && (p.to == s.origin[id].sender || p.to == s.origin[id].receiver || (id in s.chosen && p.to == s.chosen[id]))
  {
    OnRunKeeps(h, c, states, events, s);
    assert PacketOK(s, p) && EntryOK(h, s, Key(p.from, p.body.closeRequest.connectionID));
  }

  /** Serving a notification opens the connection with the chosen witness exactly when the entry awaits one, the node
      finds itself and its user consents; the sender is never the wrong one. Otherwise nothing changes. */
  lemma NotificationOpens(h: Honesty, c: Channel, states: seq<Sys>, events: seq<Event>, s: Sys, e: Event, s': Sys)
    requires OnRun(h, c, states, events, s) && Step(c, s, e, s') && e.ServeNotification?
    ensures
      var id := e.packet.body.notification.connectionID;
      var k := Key(e.packet.to, id);
      && k in s.entries && id in s.chosen
      && var conn := s.entries[k].conn;
         s' == s.(entries := s.entries[k := Entry(
           if conn.status == AwaitingWitness && e.selfFound && e.userOk
           then conn.(wit := Some(s.chosen[id]), status := Open) else conn, None)])
  {
    OnRunKeeps(h, c, states, events, s);
    assert PacketOK(s, e.packet) && EntryOK(h, s, Key(e.packet.to, e.packet.body.notification.connectionID));
  }

  /** Serving a close request leaves a Closed entry alone and makes any other Closed, or Closing without the user's
      consent. */
  lemma CloseRequestEnds(h: Honesty, c: Channel, states: seq<Sys>, events: seq<Event>, s: Sys, e: Event, s': Sys)
    requires OnRun(h, c, states, events, s) && Step(c, s, e, s') && e.ServeClose?
    ensures
      var k := Key(e.packet.to, e.packet.body.closeRequest.connectionID);
      && k in s.entries
      && var conn := s.entries[k].conn;
         s' == s.(entries := s.entries[k := Entry(
           conn.(status := if conn.status == Closed || e.userOk then Closed else Closing), None)])
  {
    OnRunKeeps(h, c, states, events, s);
    assert e.packet in s.net && c(e.packet.body).value == e.packet.body;
  }

  // Promises about whole runs

  /** All entries for one ID, on all nodes and at all times, carry the same sender and receiver. */
  lemma EndsNeverDiffer(h: Honesty, c: Channel, states: seq<Sys>, events: seq<Event>, i: nat, k: Key, j: nat, l: Key)
    requires IsRun(c, states, events) && states[0] == Initial() && Honest(h, c, states[|events|].net)
    requires i <= j < |states| && k in states[i].entries && l in states[j].entries && k.id == l.id
    ensures
      var a, b := states[i].entries[k].conn, states[j].entries[l].conn;
      a.sender == b.sender && a.receiver == b.receiver
  {
    RunRemembers(c, states, events, i, |events|);
    RunRemembers(c, states, events, j, |events|);
    RunRemembers(c, states, events, i, j);
    RunKeeps(h, c, states, events, i);
    RunKeeps(h, c, states, events, j);
    assert EntryOK(h, states[i], k) && EntryOK(h, states[j], l);
  }

  /** No entry ever gets a second witness selection. */
  lemma SelectedAtMostOnce(h: Honesty, c: Channel, states: seq<Sys>, events: seq<Event>, i: nat, p: nat, j: nat, q: nat)
    requires IsRun(c, states, events) && states[0] == Initial() && Honest(h, c, states[|events|].net)
    requires i < |states| && j < |states| && p in states[i].threads && q in states[j].threads
    requires IsSelection(states[i].threads[p]) && IsSelection(states[j].threads[q])
    requires KeyOf(states[i].threads[p]) == KeyOf(states[j].threads[q])
    ensures p == q
  {
    RunRemembers(c, states, events, i, |events|);
    RunRemembers(c, states, events, j, |events|);
    RunKeeps(h, c, states, events, |events|);
  }
}
