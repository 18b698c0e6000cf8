/** Closed entries that open again: one on which the receiver's own selection is queued, and one on which Connect's
    update is. */
module Counterexamples {
  import opened Types
  import opened Serde
  import opened Rules
  import opened Protocol
  import opened Runs
  import opened Invariants
  import opened Safety
  import opened StatusOrder
  import opened Node
  import opened Solo
  import opened Reopening

  /** Everything a user's handlers and the network do not decide is allowed. */
  ghost predicate Benign(allowed: EventKind) {
    forall e | !IsRequestEvent(e) :: allowed(e)
  }

  const ALL_FOUND := Lookups(Found, Found, Found)

  /** The sender has asked; its request is in the network and its thread waits for the answer. */
  function Asked(sender: PeerID, receiver: PeerID, id: ConnID, w: WitnessSelector): Sys {
    var conn := Connection(id, sender, None, receiver, RequestingReceiver);
    Sys(
      map[Key(sender, id) := Entry(conn, Some(0))],
      map[0 := Thread(sender, id, Connector(w), AwaitingReceiver(conn))],
      {Packet(sender, receiver, None, ConnectReq(ConnectRequestFor(conn, w)))},
      map[id := Origin(sender, receiver, w)],
      map[])
  }

  lemma AskedIsReached(c: Channel, allowed: EventKind, sender: PeerID, receiver: PeerID, id: ConnID, w: WitnessSelector)
    requires Benign(allowed)
    ensures Leads(c, allowed, Initial(), Asked(sender, receiver, id, w))
  {
    var s0 := Initial();
    var s1 := DoConnect(s0, 0, sender, receiver, w, id);
    OneStep(c, allowed, s0, Connect(0, sender, receiver, w, id));
    var s2 := DoAcquire(s1, 0);
    OneStep(c, allowed, s1, Acquire(0));
    Onward(c, allowed, s0, s1, s2);
    OneStep(c, allowed, s2, RequestReceiver(0));
    Onward(c, allowed, s0, s2, DoRequestReceiver(s2, 0));
    assert DoRequestReceiver(s2, 0) == Asked(sender, receiver, id, w);
  }

  lemma LeadsReaches(c: Channel, allowed: EventKind, s: Sys)
    requires Leads(c, allowed, Initial(), s)
    ensures Reachable(c, s)
  {
    var states: seq<Sys>, events: seq<Event> :| Joins(c, allowed, states, events, Initial(), s);
  }

  lemma RunTo(c: Channel, allowed: EventKind, h: Honesty, s: Sys) returns (states: seq<Sys>, events: seq<Event>)
    requires Leads(c, allowed, Initial(), s) && Honest(h, c, s.net)
    ensures OnRun(h, c, states, events, s)
  {
    states, events :| Joins(c, allowed, states, events, Initial(), s);
  }

  // The node closes a connection and reaches everyone at once

  lemma CloseAt(s: Sys, pid: nat, node: PeerID, id: ConnID) returns (s': Sys)
    requires Leads(Direct(), Any(), Initial(), s) && CanBeginClose(s, pid, node, id) && Free(s, Key(node, id))
    requires StatusAt(s, Key(node, id)) != Closed
    ensures Leads(Direct(), Any(), Initial(), s') && Free(s', Key(node, id)) && StatusAt(s', Key(node, id)) == Closed
    ensures s'.threads == s.threads[pid := Thread(node, id, Closer, Finished)]
    ensures id in View(s, node) && StoreBecomes(s, s', node, View(s, node)[id := View(s, node)[id].SetStatus(Closed)])
  {
    var always: Luck := (i: nat) => true;
    var targets: seq<PeerID>;
    s', targets := CloseRunMatches(s, pid, node, id, true, always, always);
    ViewHas(s, node, id);
    ViewHas(s', node, id);
    Weaken(Direct(), By(pid), Any(), s, s');
    Onward(Direct(), Any(), Initial(), s, s');
  }

  // Connect's update, still waiting for the lock

  /** Connect creates the entry and then asks for its lock; a close may come between. The entry can leave Closed again
      exactly when a selector was given and the receiver is another node. */
  lemma ConnectorCanReopen(sender: PeerID, receiver: PeerID, id: ConnID, w: WitnessSelector)
    ensures exists s ::
      && Reachable(Direct(), s) && Key(sender, id) in s.entries && StatusAt(s, Key(sender, id)) == Closed
      && (CanReopen(s, Key(sender, id)) <==> w != NilSelector && receiver != sender)
  {
    var k := Key(sender, id);
    var s1 := DoConnect(Initial(), 0, sender, receiver, w, id);
    OneStep(Direct(), Any(), Initial(), Connect(0, sender, receiver, w, id));
    var s := CloseAt(s1, 1, sender, id);
    LeadsReaches(Direct(), Any(), s);
    DirectIsHonest(EVERY_ANSWER, s.net);
    var states, events := RunTo(Direct(), Any(), EVERY_ANSWER, s);
    ReopensExactly(states, events, s, k);
    ViewHas(s1, receiver, id);
    ViewHas(s, receiver, id);
    ViewHas(s, sender, id);
    OnlyConnector(states, events, s, k, w);
  }

  /** The connector is the one selection there, and has everything before it. */
  lemma OnlyConnector(states: seq<Sys>, events: seq<Event>, s: Sys, k: Key, w: WitnessSelector)
    requires OnRun(EVERY_ANSWER, Direct(), states, events, s) && k in s.entries && s.entries[k].conn.id == k.id
    requires s.threads == map[0 := Thread(k.node, k.id, Connector(w), Queued), 1 := Thread(k.node, k.id, Closer, Finished)]
    requires Key(s.entries[k].conn.receiver, k.id) in s.entries <==> s.entries[k].conn.receiver == k.node
    ensures (exists pid :: Persisting(s, k, pid)) <==> w != NilSelector && s.entries[k].conn.receiver != k.node
  {
    GoodOnRun(states, events, s);
    assert ThreadOK(EVERY_ANSWER, s, 0) && EntryOK(EVERY_ANSWER, s, k);
    assert Persisting(s, k, 0) <==> w != NilSelector && s.entries[k].conn.receiver != k.node;
  }

  // The receiver's selection, queued

  /** The receiver has accepted and queued its selection, and closes the connection before the selection runs. */
  lemma ClosedEntryWithQueuedSelection(sender: PeerID, receiver: PeerID, id: ConnID) returns (s: Sys)
    requires sender != receiver
    ensures Leads(Direct(), Any(), Initial(), s) && Key(receiver, id) in s.entries
    ensures StatusAt(s, Key(receiver, id)) == Closed
    ensures CanAcquire(s, 1) && s.threads[1].role.Chooser? && KeyOf(s.threads[1]) == Key(receiver, id)
  {
    var s1 := Asked(sender, receiver, id, ReceiverSelects);
    AskedIsReached(Direct(), Any(), sender, receiver, id, ReceiverSelects);
    var request := ConnectRequest(id, Some(sender), Some(receiver), ReceiverSelects);
    var packet := Packet(sender, receiver, None, ConnectReq(request));
    var resp := ConnectResponse(id, [], true, []);
    var s2 := DoServeConnect(Direct(), s1, 1, packet, ALL_FOUND, Handled(resp));
    OneStep(Direct(), Any(), s1, ServeConnect(1, packet, ALL_FOUND, Handled(resp)));
    Onward(Direct(), Any(), Initial(), s1, s2);
    AgreedAdmits(packet, request, ALL_FOUND, resp);
    s := CloseAt(s2, 2, receiver, id);
  }

  /** Closed is not final while a selection is queued: a reachable Closed entry leads to one that is not. */
  lemma ClosedCanReopen(sender: PeerID, receiver: PeerID, id: ConnID)
    requires sender != receiver
    ensures exists s, s' ::
      && Reachable(Direct(), s) && Reachable(Direct(), s')
      && Key(receiver, id) in s.entries && StatusAt(s, Key(receiver, id)) == Closed
      && Remembers(s, s') && StatusAt(s', Key(receiver, id)) == RequestingWitness
  {
    var s := ClosedEntryWithQueuedSelection(sender, receiver, id);
    DirectIsHonest(EVERY_ANSWER, s.net);
    var states, events := RunTo(Direct(), Any(), EVERY_ANSWER, s);
    QueuedSelectionReopens(EVERY_ANSWER, Direct(), states, events, s, 1);
    FourSteps(s);
    FourStepsRemember(Direct(), s);
    var s' := DoCommit(DoGiveUp(DoChoose(DoAcquire(s, 1), 1, []), 1), 1);
    LeadsReaches(Direct(), Any(), s);
    LeadsReaches(Direct(), Any(), s');
    assert StatusAt(s', Key(receiver, id)) == RequestingWitness;
  }

  predicate FourReady(s: Sys) {
    && CanAcquire(s, 1)
    && var s1 := DoAcquire(s, 1);
       && CanChoose(s1, 1, []) && CanGiveUp(DoChoose(s1, 1, []), 1)
       && CanCommit(DoGiveUp(DoChoose(s1, 1, []), 1), 1)
  }

  lemma FourSteps(s: Sys)
    requires FourReady(s) && Leads(Direct(), Any(), Initial(), s)
    ensures Leads(Direct(), Any(), Initial(), DoCommit(DoGiveUp(DoChoose(DoAcquire(s, 1), 1, []), 1), 1))
  {
    var s1 := DoAcquire(s, 1);
    var s2 := DoChoose(s1, 1, []);
    var s3 := DoGiveUp(s2, 1);
    OneStep(Direct(), Any(), s, Acquire(1));
    OneStep(Direct(), Any(), s1, Choose(1, []));
    OneStep(Direct(), Any(), s2, GiveUp(1));
    OneStep(Direct(), Any(), s3, Commit(1));
    Onward(Direct(), Any(), Initial(), s, s1);
    Onward(Direct(), Any(), Initial(), s1, s2);
    Onward(Direct(), Any(), Initial(), s2, s3);
    Onward(Direct(), Any(), Initial(), s3, DoCommit(s3, 1));
  }

  lemma FourStepsRemember(c: Channel, s: Sys)
    requires FourReady(s)
    ensures Remembers(s, DoCommit(DoGiveUp(DoChoose(DoAcquire(s, 1), 1, []), 1), 1))
  {
  }
}
