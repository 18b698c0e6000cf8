/** Which handler answers cost which promise over the wire. */
module LostRefusals {
  import opened Types
  import opened Serde
  import opened SerdeProofs
  import opened Rules
  import opened Protocol
  import opened Runs
  import opened Invariants
  import opened Safety
  import opened WireRefinement
  import opened Counterexamples
  import opened Reopening

  /** Connect handlers answer within A; witness handlers answer anything. */
  ghost function AnsweringConnect(A: iset<ConnectResponse>): EventKind {
    (e: Event) => e.ServeConnect? && e.userConnect.Handled? ==> e.userConnect.response in A
  }

  /** Witness handlers answer within A; connect handlers answer anything. */
  ghost function AnsweringWitness(A: iset<WitnessResponse>): EventKind {
    (e: Event) => e.ServeWitness? && e.userWitness.Handled? ==> e.userWitness.response in A
  }

  // The promises

  predicate SenderHasReceiver(s: Sys, k: Key)
    requires k in s.entries
  {
    var conn := s.entries[k].conn;
    k.node == conn.sender && conn.status in {AwaitingWitness, RequestingWitness, NotifyingOfWitness, Open} ==>
      Key(conn.receiver, k.id) in s.entries
  }

  predicate NamedWitnessEntered(s: Sys, k: Key)
    requires k in s.entries
  {
    var conn := s.entries[k].conn;
    (k.node == conn.sender || k.node == conn.receiver) && conn.wit.Some? ==>
      var wk := Key(conn.wit.value, k.id);
      && wk.node != conn.sender && wk.node != conn.receiver
      && wk in s.entries
      && var theirs := s.entries[wk].conn;
         theirs.sender == conn.sender && theirs.receiver == conn.receiver && theirs.wit == conn.wit
  }

  ghost predicate SendersHaveReceivers(allowed: EventKind) {
    forall s, k | Leads(Wire(), allowed, Initial(), s) && k in s.entries :: SenderHasReceiver(s, k)
  }

  ghost predicate NamedWitnessesEntered(allowed: EventKind) {
    forall s, k | Leads(Wire(), allowed, Initial(), s) && k in s.entries :: NamedWitnessEntered(s, k)
  }

  // Kept without such answers

  lemma SendersKept(A: iset<ConnectResponse>)
    requires forall r | r in A :: !Upgraded(EVERY_ANSWER, ConnectResp(r))
    ensures SendersHaveReceivers(AnsweringConnect(A))
  {
    var h := Honesty(true, false);
    forall s, k | Leads(Wire(), AnsweringConnect(A), Initial(), s) && k in s.entries ensures SenderHasReceiver(s, k) {
      var states: seq<Sys>, events: seq<Event> :| Joins(Wire(), AnsweringConnect(A), states, events, Initial(), s);
      forall e | e in events ensures FineHandlers(h, e) {
        assert AnsweringConnect(A)(e);
      }
      WireRunsAreHonest(h, states, events, |events|);
      if k.node == s.entries[k].conn.sender
        && s.entries[k].conn.status in {AwaitingWitness, RequestingWitness, NotifyingOfWitness, Open} {
        SenderImpliesReceiver(h, Wire(), states, events, s, k);
      }
    }
  }

  lemma WitnessesKept(A: iset<WitnessResponse>)
    requires forall r | r in A :: !Upgraded(EVERY_ANSWER, WitnessResp(r))
    ensures NamedWitnessesEntered(AnsweringWitness(A))
  {
    var h := Honesty(false, true);
    forall s, k | Leads(Wire(), AnsweringWitness(A), Initial(), s) && k in s.entries ensures NamedWitnessEntered(s, k) {
      var states: seq<Sys>, events: seq<Event> :| Joins(Wire(), AnsweringWitness(A), states, events, Initial(), s);
      forall e | e in events ensures FineHandlers(h, e) {
        assert AnsweringWitness(A)(e);
      }
      WireRunsAreHonest(h, states, events, |events|);
      var conn := s.entries[k].conn;
      if (k.node == conn.sender || k.node == conn.receiver) && conn.wit.Some? {
        NamedWitnessAccepted(h, Wire(), states, events, s, k);
      }
    }
  }

  // Lost with one

  function PlainGrant(id: ConnID): Message {
    ConnectResp(ConnectResponse(id, [], true, []))
  }

  /** What the runs below need of a transport: it delivers readable requests and plain grants as sent. */
  ghost predicate Usable(c: Channel) {
    && (forall m: Message | (m.ConnectReq? || m.WitnessReq?) && !HasNilSelector(m) :: c(m) == Some(m))
    && (forall id :: c(PlainGrant(id)) == Some(PlainGrant(id)))
  }

  predicate TurnsConnect(c: Channel, resp: ConnectResponse) {
    var m := ConnectResp(resp);
    c(m).Some? && c(m).value.ConnectResp? && ConnectGranted(resp.connectionID, c(m).value.connectResponse)
  }

  predicate TurnsWitness(c: Channel, resp: WitnessResponse) {
    var m := WitnessResp(resp);
    c(m).Some? && c(m).value.WitnessResp? && WitnessGranted(resp.connectionID, c(m).value.witnessResponse)
  }

  lemma WireIsUsable()
    ensures Usable(Wire())
  {
    forall m: Message | (m.ConnectReq? || m.WitnessReq?) && !HasNilSelector(m) ensures Wire()(m) == Some(m) {
      WireDelivers(m);
    }
    forall id ensures Wire()(PlainGrant(id)) == Some(PlainGrant(id)) {
      WireDelivers(PlainGrant(id));
    }
  }

  /** What the wire makes of such an answer is a grant. */
  lemma WireTurnsConnect(resp: ConnectResponse)
    requires Upgraded(EVERY_ANSWER, ConnectResp(resp))
    ensures TurnsConnect(Wire(), resp)
  {
    WireDelivers(ConnectResp(resp));
  }

  lemma WireTurnsWitness(resp: WitnessResponse)
    requires Upgraded(EVERY_ANSWER, WitnessResp(resp))
    ensures TurnsWitness(Wire(), resp)
  {
    WireDelivers(WitnessResp(resp));
  }

  /** The receiver's handler refuses so, and the refusal is on its way. */
  lemma RefusalIsSent(c: Channel, allowed: EventKind, sender: PeerID, receiver: PeerID, resp: ConnectResponse)
    returns (s: Sys, answer: Packet)
    requires Usable(c) && Benign(allowed) && resp.errors != []
    requires forall e: Event | e.ServeConnect? && e.userConnect == Handled(resp) :: allowed(e)
    ensures answer == Packet(receiver, sender,
      Some(ConnectReq(ConnectRequest(resp.connectionID, Some(sender), Some(receiver), ReceiverSelects))), ConnectResp(resp))
    ensures s == Post(Asked(sender, receiver, resp.connectionID, ReceiverSelects), answer)
    ensures Leads(c, allowed, Initial(), s)
  {
    var id := resp.connectionID;
    var s1 := Asked(sender, receiver, id, ReceiverSelects);
    AskedIsReached(c, allowed, sender, receiver, id, ReceiverSelects);
    var request := ConnectRequest(id, Some(sender), Some(receiver), ReceiverSelects);
    var packet := Packet(sender, receiver, None, ConnectReq(request));
    answer := Packet(receiver, sender, Some(ConnectReq(request)), ConnectResp(resp));
    s := Post(s1, answer);
    OneStep(c, allowed, s1, ServeConnect(1, packet, ALL_FOUND, Handled(resp)));
    RefusedAnswers(packet, request, resp);
    Onward(c, allowed, Initial(), s1, s);
  }

  lemma RefusedAnswers(packet: Packet, r: ConnectRequest, resp: ConnectResponse)
    requires r.sender == Some(packet.from) && r.receiver == Some(packet.to) && resp.errors != []
    ensures ConnectVerdict(packet.to, packet.from, r, ALL_FOUND, Handled(resp)) == Answer(resp)
  {
  }

  /** A refusal that arrives as a grant leaves the sender waiting for a witness. */
  lemma RefusalIsTaken(c: Channel, allowed: EventKind, sender: PeerID, receiver: PeerID, resp: ConnectResponse) returns (s: Sys)
    requires sender != receiver && Usable(c) && Benign(allowed) && resp.errors != [] && TurnsConnect(c, resp)
    requires forall e: Event | e.ServeConnect? && e.userConnect == Handled(resp) :: allowed(e)
    ensures Leads(c, allowed, Initial(), s) && Key(sender, resp.connectionID) in s.entries
    ensures s.entries[Key(sender, resp.connectionID)].conn ==
      Connection(resp.connectionID, sender, None, receiver, AwaitingWitness)
    ensures Key(receiver, resp.connectionID) !in s.entries
  {
    var s1, answer := RefusalIsSent(c, allowed, sender, receiver, resp);
    var s2 := DoTakeReceiverAnswer(c, s1, 0, answer);
    OneStep(c, allowed, s1, TakeReceiverAnswer(0, answer));
    Onward(c, allowed, Initial(), s1, s2);
    s := ThenWaits(c, allowed, s2);
  }

  /** A connector whose receiver is to choose settles on waiting. */
  lemma ThenWaits(c: Channel, allowed: EventKind, s: Sys) returns (s': Sys)
    requires Benign(allowed) && Leads(c, allowed, Initial(), s)
    requires Selects(s, 0) && s.threads[0].role == Connector(ReceiverSelects) && s.threads[0].phase.Choosing?
    requires s.threads[0].node != s.threads[0].phase.conn.receiver
    ensures Leads(c, allowed, Initial(), s')
    ensures s'.entries ==
      s.entries[KeyOf(s.threads[0]) := Entry(s.threads[0].phase.conn.SetStatus(AwaitingWitness), None)]
    ensures s'.threads == s.threads[0 := s.threads[0].(phase := Finished)] && s'.net == s.net
  {
    var s1 := DoChoose(s, 0, []);
    OneStep(c, allowed, s, Choose(0, []));
    Onward(c, allowed, Initial(), s, s1);
    s' := DoCommit(s1, 0);
    OneStep(c, allowed, s1, Commit(0));
    Onward(c, allowed, Initial(), s1, s');
  }

  /** For every such answer, a sender can wait for a witness on a connection its receiver never entered. */
  lemma WireCanLoseARefusal(allowed: EventKind, sender: PeerID, receiver: PeerID, resp: ConnectResponse) returns (s: Sys)
    requires sender != receiver && Benign(allowed) && Upgraded(EVERY_ANSWER, ConnectResp(resp))
    requires forall e: Event | e.ServeConnect? && e.userConnect == Handled(resp) :: allowed(e)
    ensures Leads(Wire(), allowed, Initial(), s) && Key(sender, resp.connectionID) in s.entries
    ensures s.entries[Key(sender, resp.connectionID)].conn ==
      Connection(resp.connectionID, sender, None, receiver, AwaitingWitness)
    ensures Key(receiver, resp.connectionID) !in s.entries
  {
    WireIsUsable();
    WireTurnsConnect(resp);
    s := RefusalIsTaken(Wire(), allowed, sender, receiver, resp);
  }

  /** The sender's promise holds over the wire, whatever witness handlers answer, if and only if no connect handler's
      answer is one the wire turns. */
  lemma SenderPromiseExactly(A: iset<ConnectResponse>)
    ensures SendersHaveReceivers(AnsweringConnect(A)) <==> forall r | r in A :: !Upgraded(EVERY_ANSWER, ConnectResp(r))
  {
    if r :| r in A && Upgraded(EVERY_ANSWER, ConnectResp(r)) {
      var sender, receiver := PeerID('s', []), PeerID('r', []);
      var s := WireCanLoseARefusal(AnsweringConnect(A), sender, receiver, r);
      assert !SenderHasReceiver(s, Key(sender, r.connectionID));
    } else {
      SendersKept(A);
    }
  }

  // A witness that refused

  /** Handlers answer connect requests anyhow, and witness requests also with resp. */
  ghost predicate Admits(allowed: EventKind, resp: WitnessResponse) {
    && (forall e: Event | !e.ServeWitness? :: allowed(e))
    && (forall e: Event | e.ServeWitness? && e.userWitness == Handled(resp) :: allowed(e))
  }

  function Ends(sender: PeerID, receiver: PeerID, id: ConnID): map<Key, Entry> {
    map[Key(sender, id) := Entry(Connection(id, sender, None, receiver, RequestingReceiver), Some(0)),
        Key(receiver, id) := Entry(Connection(id, sender, None, receiver, AwaitingWitness), None)]
  }

  /** Both ends have entered the connection, and the sender's update has come to this phase. */
  predicate Selecting(s: Sys, sender: PeerID, receiver: PeerID, id: ConnID, ph: Phase) {
    s.entries == Ends(sender, receiver, id) && s.threads == map[0 := Thread(sender, id, Connector(SenderSelects), ph)]
  }

  lemma BothEntered(c: Channel, allowed: EventKind, sender: PeerID, receiver: PeerID, resp: WitnessResponse) returns (s: Sys)
    requires sender != receiver && Usable(c) && Admits(allowed, resp)
    ensures Leads(c, allowed, Initial(), s)
    ensures
      var id := resp.connectionID;
      Selecting(s, sender, receiver, id, Choosing(Connection(id, sender, None, receiver, RequestingReceiver)))
  {
    var id := resp.connectionID;
    var s1 := Asked(sender, receiver, id, SenderSelects);
    AskedIsReached(c, allowed, sender, receiver, id, SenderSelects);
    var request := ConnectRequest(id, Some(sender), Some(receiver), SenderSelects);
    var packet := Packet(sender, receiver, None, ConnectReq(request));
    var ok := ConnectResponse(id, [], true, []);
    var s2 := DoServeConnect(c, s1, 1, packet, ALL_FOUND, Handled(ok));
    OneStep(c, allowed, s1, ServeConnect(1, packet, ALL_FOUND, Handled(ok)));
    Onward(c, allowed, Initial(), s1, s2);
    AgreedAdmits(packet, request, ALL_FOUND, ok);
    AdmittedEnters(s1, packet, request, ok, sender, receiver);
    assert c(PlainGrant(id)) == Some(PlainGrant(id));
    s := GrantTaken(c, allowed, s2, sender, receiver, id);
    Onward(c, allowed, Initial(), s2, s);
  }

  lemma GrantTaken(c: Channel, allowed: EventKind, s: Sys, sender: PeerID, receiver: PeerID, id: ConnID) returns (s': Sys)
    requires Benign(allowed)
    requires
      var conn := Connection(id, sender, None, receiver, RequestingReceiver);
      var request := ConnectReq(ConnectRequestFor(conn, SenderSelects));
      && Selecting(s, sender, receiver, id, AwaitingReceiver(conn))
      && Packet(receiver, sender, Some(request), PlainGrant(id)) in s.net && c(PlainGrant(id)) == Some(PlainGrant(id))
    ensures Leads(c, allowed, s, s')
    ensures Selecting(s', sender, receiver, id, Choosing(Connection(id, sender, None, receiver, RequestingReceiver)))
  {
    var conn := Connection(id, sender, None, receiver, RequestingReceiver);
    var answer := Packet(receiver, sender, Some(ConnectReq(ConnectRequestFor(conn, SenderSelects))), PlainGrant(id));
    s' := DoTakeReceiverAnswer(c, s, 0, answer);
    OneStep(c, allowed, s, TakeReceiverAnswer(0, answer));
  }

  lemma AdmittedEnters(
    s: Sys, packet: Packet, r: ConnectRequest, ok: ConnectResponse, sender: PeerID, receiver: PeerID)
    requires sender != receiver && r == ConnectRequest(r.connectionID, Some(sender), Some(receiver), SenderSelects)
    requires s == Asked(sender, receiver, r.connectionID, SenderSelects) && packet.to == receiver
    ensures
      var s' := AfterVerdictConnect(s, 1, packet, r, Admit(ok));
      && s'.entries == Ends(sender, receiver, r.connectionID) && s'.threads == s.threads
      && Packet(receiver, packet.from, Some(packet.body), ConnectResp(ok)) in s'.net
  {
  }

  function Wanting(sender: PeerID, receiver: PeerID, id: ConnID): Connection {
    Connection(id, sender, None, receiver, RequestingWitness)
  }

  function WitnessAsked(sender: PeerID, receiver: PeerID, id: ConnID, w: PeerID): Packet {
    Packet(sender, w, None, WitnessReq(WitnessRequest(id, Some(sender), Some(receiver), SenderSelects)))
  }

  lemma CandidateAsked(c: Channel, allowed: EventKind, sender: PeerID, receiver: PeerID, w: PeerID, resp: WitnessResponse)
    returns (s: Sys)
    requires sender != receiver && w != sender && w != receiver && Usable(c) && Admits(allowed, resp)
    ensures Leads(c, allowed, Initial(), s)
    ensures
      var id := resp.connectionID;
      && Selecting(s, sender, receiver, id, AwaitingCandidate(Wanting(sender, receiver, id), w, []))
      && WitnessAsked(sender, receiver, id, w) in s.net
  {
    var s1 := BothEntered(c, allowed, sender, receiver, resp);
    var s2 := DoChoose(s1, 0, [w]);
    OneStep(c, allowed, s1, Choose(0, [w]));
    Onward(c, allowed, Initial(), s1, s2);
    assert s2.threads[0].phase == Asking(Wanting(sender, receiver, resp.connectionID), [w]) && [w][1..] == [];
    s := DoAsk(s2, 0);
    OneStep(c, allowed, s2, Ask(0));
    Onward(c, allowed, Initial(), s2, s);
  }

  function WitnessRefused(sender: PeerID, receiver: PeerID, w: PeerID, resp: WitnessResponse): Packet {
    Packet(w, sender, Some(WitnessAsked(sender, receiver, resp.connectionID, w).body), WitnessResp(resp))
  }

  lemma CandidateRefused(c: Channel, allowed: EventKind, sender: PeerID, receiver: PeerID, w: PeerID, resp: WitnessResponse)
    returns (s: Sys)
    requires sender != receiver && w != sender && w != receiver && Usable(c) && Admits(allowed, resp)
    requires resp.errors != []
    ensures Leads(c, allowed, Initial(), s)
    ensures
      var id := resp.connectionID;
      && Selecting(s, sender, receiver, id, AwaitingCandidate(Wanting(sender, receiver, id), w, []))
      && WitnessRefused(sender, receiver, w, resp) in s.net
  {
    var id := resp.connectionID;
    var s1 := CandidateAsked(c, allowed, sender, receiver, w, resp);
    var packet := WitnessAsked(sender, receiver, id, w);
    s := DoServeWitness(c, s1, 1, packet, ALL_FOUND, Handled(resp));
    OneStep(c, allowed, s1, ServeWitness(1, packet, ALL_FOUND, Handled(resp)));
    RefusedWitnessAnswers(packet, packet.body.witnessRequest, resp);
    Onward(c, allowed, Initial(), s1, s);
  }

  lemma RefusedWitnessAnswers(packet: Packet, r: WitnessRequest, resp: WitnessResponse)
    requires r.sender == Some(packet.from) && r.sender != Some(packet.to) && r.receiver != Some(packet.to)
    requires resp.errors != []
    ensures WitnessVerdict(packet.to, packet.from, r, ALL_FOUND, Handled(resp)) == Answer(resp)
  {
  }

  /** A witness's refusal that arrives as a grant makes the sender name it. */
  lemma WitnessRefusalIsTaken(c: Channel, allowed: EventKind, sender: PeerID, receiver: PeerID, w: PeerID,
      resp: WitnessResponse)
    returns (s: Sys)
    requires sender != receiver && w != sender && w != receiver && Usable(c) && Admits(allowed, resp)
    requires resp.errors != [] && TurnsWitness(c, resp)
    ensures Leads(c, allowed, Initial(), s) && Key(sender, resp.connectionID) in s.entries
    ensures s.entries[Key(sender, resp.connectionID)].conn ==
      Connection(resp.connectionID, sender, Some(w), receiver, NotifyingOfWitness)
    ensures Key(w, resp.connectionID) !in s.entries
  {
    var s1 := CandidateRefused(c, allowed, sender, receiver, w, resp);
    var answer := WitnessRefused(sender, receiver, w, resp);
    var s2 := DoTakeCandidateAnswer(c, s1, 0, answer);
    OneStep(c, allowed, s1, TakeCandidateAnswer(0, answer));
    Onward(c, allowed, Initial(), s1, s2);
    s := ThenNames(c, allowed, s2);
  }

  /** A connector that has named a witness and fails to notify persists the name. */
  lemma ThenNames(c: Channel, allowed: EventKind, s: Sys) returns (s': Sys)
    requires Benign(allowed) && Leads(c, allowed, Initial(), s)
    requires HasThread(s, 0) && s.threads[0].phase.Notifying? && s.threads[0].node == s.threads[0].phase.conn.sender
    ensures Leads(c, allowed, Initial(), s')
    ensures s'.entries == s.entries[KeyOf(s.threads[0]) := Entry(s.threads[0].phase.conn, None)]
  {
    var s1 := DoNotify(s, 0, false, false);
    OneStep(c, allowed, s, Notify(0, false, false));
    Onward(c, allowed, Initial(), s, s1);
    s' := DoCommit(s1, 0);
    OneStep(c, allowed, s1, Commit(0));
    Onward(c, allowed, Initial(), s1, s');
  }

  /** For every such answer, a sender can name a witness that refused and never entered the connection. */
  lemma WireCanNameARefuser(allowed: EventKind, sender: PeerID, receiver: PeerID, w: PeerID, resp: WitnessResponse)
    returns (s: Sys)
    requires sender != receiver && w != sender && w != receiver && Admits(allowed, resp)
    requires Upgraded(EVERY_ANSWER, WitnessResp(resp))
    ensures Leads(Wire(), allowed, Initial(), s) && Key(sender, resp.connectionID) in s.entries
    ensures s.entries[Key(sender, resp.connectionID)].conn ==
      Connection(resp.connectionID, sender, Some(w), receiver, NotifyingOfWitness)
    ensures Key(w, resp.connectionID) !in s.entries
  {
    WireIsUsable();
    WireTurnsWitness(resp);
    s := WitnessRefusalIsTaken(Wire(), allowed, sender, receiver, w, resp);
  }

  /** The witness's promise holds over the wire, whatever connect handlers answer, if and only if no witness handler's
      answer is one the wire turns. */
  lemma WitnessPromiseExactly(A: iset<WitnessResponse>)
    ensures NamedWitnessesEntered(AnsweringWitness(A)) <==> forall r | r in A :: !Upgraded(EVERY_ANSWER, WitnessResp(r))
  {
    if r :| r in A && Upgraded(EVERY_ANSWER, WitnessResp(r)) {
      var sender, receiver, w := PeerID('s', []), PeerID('r', []), PeerID('w', []);
      var s := WireCanNameARefuser(AnsweringWitness(A), sender, receiver, w, r);
      assert !NamedWitnessEntered(s, Key(sender, r.connectionID));
    } else {
      WitnessesKept(A);
    }
  }
}
