/** What the protocol is for: when everyone consents and every message arrives, a connection gets open at both ends and
    at the witness, and closed again at all three. */
module Completion {
  import opened Types
  import opened Serde
  import opened SerdeProofs
  import opened Rules
  import opened Protocol
  import opened Runs
  import opened WireRefinement
  import opened Counterexamples
  import opened LostRefusals
  import opened Reopening

  /** The transport delivers what survives the wire as it was sent. */
  ghost predicate Delivers(c: Channel) {
    forall m: Message | WireSafe(m) :: c(m) == Some(m)
  }

  lemma BothDeliver()
    ensures Delivers(Direct()) && Delivers(Wire())
  {
    forall m: Message | WireSafe(m) ensures Wire()(m) == Some(m) {
      WireDelivers(m);
      MessageRoundTrip(m);
      ReadsBackExactlyWhenSafe(m);
    }
  }

  lemma DeliversIsUsable(c: Channel)
    requires Delivers(c)
    ensures Usable(c)
  {
  }

  /** The parties to one connection. */
  datatype Parties = Parties(sender: PeerID, receiver: PeerID, wit: PeerID, id: ConnID, selector: WitnessSelector) {
    predicate Apart() {
      sender != receiver && wit != sender && wit != receiver && selector != NilSelector
    }

    /** The end that chooses. */
    function Announcer(): PeerID {
      if selector == SenderSelects then sender else receiver
    }

    function Listener(): PeerID {
      if selector == SenderSelects then receiver else sender
    }

    function Conn(w: Option<PeerID>, status: Status): Connection {
      Connection(id, sender, w, receiver, status)
    }

    /** The three nodes hold the same connection, and nobody's lock is taken. */
    function AllHold(status: Status): map<Key, Entry> {
      map[Key(sender, id) := Entry(Conn(Some(wit), status), None),
          Key(receiver, id) := Entry(Conn(Some(wit), status), None),
          Key(wit, id) := Entry(Conn(Some(wit), status), None)]
    }

    function Request(): WitnessRequest {
      WitnessRequest(id, Some(sender), Some(receiver), selector)
    }

    function Asking(): Packet {
      Packet(Announcer(), wit, None, WitnessReq(Request()))
    }

    function Agreed(): WitnessResponse {
      WitnessResponse(id, [], true, [])
    }
  }

  /** The other threads have finished. */
  ghost predicate OthersDone(s: Sys, pid: nat) {
    forall q | q in s.threads && q != pid :: s.threads[q].phase == Finished
  }

  /** Both ends have entered the connection, and thread pid of the end that chooses has asked the witness. */
  ghost predicate WitnessAwaited(s: Sys, p: Parties, pid: nat) {
    && pid in s.threads && OthersDone(s, pid)
    && (s.threads[pid].role.Connector? || s.threads[pid].role.Chooser?) && s.threads[pid].role.selector == p.selector
    && s.threads[pid].node == p.Announcer() && s.threads[pid].id == p.id
    && s.threads[pid].phase == AwaitingCandidate(p.Conn(None, RequestingWitness), p.wit, [])
    && p.Asking() in s.net
    && s.entries.Keys == {Key(p.sender, p.id), Key(p.receiver, p.id)}
    && s.entries[Key(p.Listener(), p.id)] == Entry(p.Conn(None, AwaitingWitness), None)
  }

  // The witness

  /** The witness admits the request, enters the connection as its witness and answers. */
  lemma WitnessEnters(c: Channel, s: Sys, p: Parties, q: nat) returns (s': Sys)
    requires Delivers(c) && p.Apart() && p.Asking() in s.net && Key(p.wit, p.id) !in s.entries && q !in s.threads
    ensures Leads(c, Any(), s, s')
    ensures s'.entries == s.entries[Key(p.wit, p.id) := Entry(p.Conn(Some(p.wit), Open), None)]
    ensures q in s'.threads && s'.threads == s.threads[q := s'.threads[q]] && s'.threads[q].phase == Finished
    ensures s'.net == s.net + {Packet(p.wit, p.Announcer(), Some(p.Asking().body), WitnessResp(p.Agreed()))}
  {
    assert WireSafe(p.Asking().body);
    var s1 := DoServeWitness(c, s, q, p.Asking(), ALL_FOUND, Handled(p.Agreed()));
    OneStep(c, Any(), s, ServeWitness(q, p.Asking(), ALL_FOUND, Handled(p.Agreed())));
    WitnessAdmits(s, s1, p, q);
    s' := WitnessNamed(c, s1, p, q);
    Onward(c, Any(), s, s1, s');
  }

  lemma WitnessNamed(c: Channel, s: Sys, p: Parties, q: nat) returns (s': Sys)
    requires q in s.threads && Key(p.wit, p.id) in s.entries
    requires s.threads[q] == Thread(p.wit, p.id, Witnesser(p.Announcer(), p.Asking().body, p.Agreed()), Queued)
    requires s.entries[Key(p.wit, p.id)] == Entry(p.Conn(None, Open), None)
    ensures Leads(c, Any(), s, s')
    ensures s'.entries == s.entries[Key(p.wit, p.id) := Entry(p.Conn(Some(p.wit), Open), None)]
    ensures s'.threads == s.threads[q := s.threads[q].(phase := Finished)]
    ensures s'.net == s.net + {Packet(p.wit, p.Announcer(), Some(p.Asking().body), WitnessResp(p.Agreed()))}
  {
    s' := DoNameSelf(s, q, Found);
    OneStep(c, Any(), s, NameSelf(q, Found));
  }

  lemma WitnessAdmits(s: Sys, s1: Sys, p: Parties, q: nat)
    requires p.Apart() && Key(p.wit, p.id) !in s.entries && q !in s.threads
    requires
      var packet := p.Asking();
      s1 == AfterVerdictWitness(s, q, packet, p.Request(),
        WitnessVerdict(packet.to, packet.from, p.Request(), ALL_FOUND, Handled(p.Agreed())))
    ensures s1.entries == s.entries[Key(p.wit, p.id) := Entry(p.Conn(None, Open), None)] && s1.net == s.net
    ensures s1.threads ==
      s.threads[q := Thread(p.wit, p.id, Witnesser(p.Announcer(), p.Asking().body, p.Agreed()), Queued)]
  {
  }

  // The end that chooses

  function Announcement(p: Parties): Packet {
    Packet(p.Announcer(), p.Listener(), None, Notification(WitnessNotification(p.id, Some(p.wit))))
  }

  /** The witness's answer is taken, the other end is told, and the connection stored as open. */
  lemma Announces(c: Channel, s: Sys, p: Parties, pid: nat) returns (s': Sys)
    requires Delivers(c) && p.Apart() && pid in s.threads && HasThread(s, pid)
    requires (s.threads[pid].role.Connector? || s.threads[pid].role.Chooser?) && s.threads[pid].role.selector == p.selector
    requires s.threads[pid].node == p.Announcer() && s.threads[pid].id == p.id
    requires s.threads[pid].phase == AwaitingCandidate(p.Conn(None, RequestingWitness), p.wit, [])
    requires Packet(p.wit, p.Announcer(), Some(p.Asking().body), WitnessResp(p.Agreed())) in s.net
    ensures Leads(c, Any(), s, s')
    ensures s'.entries == s.entries[Key(p.Announcer(), p.id) := Entry(p.Conn(Some(p.wit), Open), None)]
    ensures s'.threads == s.threads[pid := s.threads[pid].(phase := Finished)]
    ensures s'.net == s.net + {Announcement(p)}
  {
    var answer := Packet(p.wit, p.Announcer(), Some(p.Asking().body), WitnessResp(p.Agreed()));
    var s1 := DoTakeCandidateAnswer(c, s, pid, answer);
    OneStep(c, Any(), s, TakeCandidateAnswer(pid, answer));
    s' := Tells(c, s1, p, pid);
    Onward(c, Any(), s, s1, s');
  }

  lemma Tells(c: Channel, s: Sys, p: Parties, pid: nat) returns (s': Sys)
    requires p.Apart() && HasThread(s, pid) && s.threads[pid].node == p.Announcer() && s.threads[pid].id == p.id
    requires s.threads[pid].phase == Notifying(p.Conn(Some(p.wit), NotifyingOfWitness))
    ensures Leads(c, Any(), s, s')
    ensures s'.entries == s.entries[Key(p.Announcer(), p.id) := Entry(p.Conn(Some(p.wit), Open), None)]
    ensures s'.threads == s.threads[pid := s.threads[pid].(phase := Finished)]
    ensures s'.net == s.net + {Announcement(p)}
  {
    var s1 := DoNotify(s, pid, true, true);
    OneStep(c, Any(), s, Notify(pid, true, true));
    s' := DoCommit(s1, pid);
    OneStep(c, Any(), s1, Commit(pid));
    Onward(c, Any(), s, s1, s');
  }

  /** The other end, awaiting a witness, hears of it. */
  lemma Hears(c: Channel, s: Sys, p: Parties) returns (s': Sys)
    requires Delivers(c) && p.Apart() && Announcement(p) in s.net
    requires Key(p.Listener(), p.id) in s.entries
    requires s.entries[Key(p.Listener(), p.id)] == Entry(p.Conn(None, AwaitingWitness), None)
    ensures Leads(c, Any(), s, s')
    ensures s' == s.(entries := s.entries[Key(p.Listener(), p.id) := Entry(p.Conn(Some(p.wit), Open), None)])
  {
    s' := DoServeNotification(c, s, Announcement(p), true, true);
    OneStep(c, Any(), s, ServeNotification(Announcement(p), true, true));
  }

  /** From the witness request on. */
  lemma Completes(c: Channel, s: Sys, p: Parties, pid: nat, q: nat) returns (s': Sys)
    requires Delivers(c) && p.Apart() && WitnessAwaited(s, p, pid) && q !in s.threads
    ensures Leads(c, Any(), s, s') && s'.entries == p.AllHold(Open) && AllDone(s')
  {
    var s1 := WitnessEnters(c, s, p, q);
    var s2 := Announces(c, s1, p, pid);
    Onward(c, Any(), s, s1, s2);
    s' := Hears(c, s2, p);
    Onward(c, Any(), s, s2, s');
    ThreeEntries(p, s.entries, s'.entries);
  }

  ghost predicate AllDone(s: Sys) {
    forall q | q in s.threads :: s.threads[q].phase == Finished
  }

  lemma ThreeEntries(p: Parties, before: map<Key, Entry>, after: map<Key, Entry>)
    requires p.Apart() && before.Keys == {Key(p.sender, p.id), Key(p.receiver, p.id)}
    requires after ==
      before[Key(p.wit, p.id) := Entry(p.Conn(Some(p.wit), Open), None)]
        [Key(p.Announcer(), p.id) := Entry(p.Conn(Some(p.wit), Open), None)]
        [Key(p.Listener(), p.id) := Entry(p.Conn(Some(p.wit), Open), None)]
    ensures after == p.AllHold(Open)
  {
  }

  // Up to the witness request

  /** The sender chooses: its own update goes on to ask. */
  lemma SenderAsks(c: Channel, p: Parties) returns (s: Sys)
    requires Delivers(c) && p.Apart() && p.selector == SenderSelects
    ensures Leads(c, Any(), Initial(), s) && WitnessAwaited(s, p, 0) && 1 !in s.threads
  {
    DeliversIsUsable(c);
    s := CandidateAsked(c, Any(), p.sender, p.receiver, p.wit, p.Agreed());
  }

  /** The receiver has entered the connection and queued its selection; its grant is on the way. */
  lemma ReceiverEnters(c: Channel, p: Parties) returns (s: Sys)
    requires Delivers(c) && p.Apart() && p.selector == ReceiverSelects
    ensures Leads(c, Any(), Initial(), s)
    ensures s.entries == map[
      Key(p.sender, p.id) := Entry(p.Conn(None, RequestingReceiver), Some(0)),
      Key(p.receiver, p.id) := Entry(p.Conn(None, AwaitingWitness), None)]
    ensures s.threads == map[
      0 := Thread(p.sender, p.id, Connector(ReceiverSelects), AwaitingReceiver(p.Conn(None, RequestingReceiver))),
      1 := Thread(p.receiver, p.id, Chooser(ReceiverSelects), Queued)]
    ensures Grant(p) in s.net
  {
    var s1 := Asked(p.sender, p.receiver, p.id, ReceiverSelects);
    AskedIsReached(c, Any(), p.sender, p.receiver, p.id, ReceiverSelects);
    var request := ConnectRequest(p.id, Some(p.sender), Some(p.receiver), ReceiverSelects);
    var packet := Packet(p.sender, p.receiver, None, ConnectReq(request));
    assert WireSafe(packet.body);
    var ok := ConnectResponse(p.id, [], true, []);
    s := DoServeConnect(c, s1, 1, packet, ALL_FOUND, Handled(ok));
    OneStep(c, Any(), s1, ServeConnect(1, packet, ALL_FOUND, Handled(ok)));
    Onward(c, Any(), Initial(), s1, s);
    ReceiverAdmits(s1, s, p);
  }

  function Grant(p: Parties): Packet {
    Packet(p.receiver, p.sender,
      Some(ConnectReq(ConnectRequest(p.id, Some(p.sender), Some(p.receiver), ReceiverSelects))), PlainGrant(p.id))
  }

  lemma ReceiverAdmits(s: Sys, s': Sys, p: Parties)
    requires p.Apart() && s == Asked(p.sender, p.receiver, p.id, ReceiverSelects)
    requires
      var request := ConnectRequest(p.id, Some(p.sender), Some(p.receiver), ReceiverSelects);
      var packet := Packet(p.sender, p.receiver, None, ConnectReq(request));
      s' == AfterVerdictConnect(s, 1, packet, request,
        ConnectVerdict(p.receiver, p.sender, request, ALL_FOUND, Handled(ConnectResponse(p.id, [], true, []))))
    ensures s'.entries == s.entries[Key(p.receiver, p.id) := Entry(p.Conn(None, AwaitingWitness), None)]
    ensures s'.threads == s.threads[1 := Thread(p.receiver, p.id, Chooser(ReceiverSelects), Queued)]
    ensures Grant(p) in s'.net
  {
  }

  /** The sender takes the grant and settles on waiting. */
  lemma SenderWaits(c: Channel, p: Parties) returns (s: Sys)
    requires Delivers(c) && p.Apart() && p.selector == ReceiverSelects
    ensures Leads(c, Any(), Initial(), s)
    ensures s.entries == map[
      Key(p.sender, p.id) := Entry(p.Conn(None, AwaitingWitness), None),
      Key(p.receiver, p.id) := Entry(p.Conn(None, AwaitingWitness), None)]
    ensures s.threads == map[
      0 := Thread(p.sender, p.id, Connector(ReceiverSelects), Finished),
      1 := Thread(p.receiver, p.id, Chooser(ReceiverSelects), Queued)]
  {
    var s1 := ReceiverEnters(c, p);
    assert WireSafe(Grant(p).body);
    var s2 := DoTakeReceiverAnswer(c, s1, 0, Grant(p));
    OneStep(c, Any(), s1, TakeReceiverAnswer(0, Grant(p)));
    Onward(c, Any(), Initial(), s1, s2);
    s := ThenWaits(c, Any(), s2);
  }

  /** The receiver chooses: the selection it queued asks. */
  lemma ReceiverAsks(c: Channel, p: Parties) returns (s: Sys)
    requires Delivers(c) && p.Apart() && p.selector == ReceiverSelects
    ensures Leads(c, Any(), Initial(), s) && WitnessAwaited(s, p, 1) && 2 !in s.threads
  {
    var s1 := SenderWaits(c, p);
    s := ChooserAsks(c, s1, p);
    Onward(c, Any(), Initial(), s1, s);
  }

  lemma ChooserAsks(c: Channel, s: Sys, p: Parties) returns (s': Sys)
    requires p.Apart() && p.selector == ReceiverSelects && 1 in s.threads
    requires s.threads[1] == Thread(p.receiver, p.id, Chooser(ReceiverSelects), Queued)
    requires Key(p.receiver, p.id) in s.entries
    requires s.entries[Key(p.receiver, p.id)] == Entry(p.Conn(None, AwaitingWitness), None)
    ensures Leads(c, Any(), s, s')
    ensures s'.entries == s.entries[Key(p.receiver, p.id) := Entry(p.Conn(None, AwaitingWitness), Some(1))]
    ensures s'.threads ==
      s.threads[1 := s.threads[1].(phase := AwaitingCandidate(p.Conn(None, RequestingWitness), p.wit, []))]
    ensures p.Asking() in s'.net
  {
    var s1 := DoAcquire(s, 1);
    OneStep(c, Any(), s, Acquire(1));
    var s2 := DoChoose(s1, 1, [p.wit]);
    OneStep(c, Any(), s1, Choose(1, [p.wit]));
    Onward(c, Any(), s, s1, s2);
    assert s2.threads[1].phase == Asking(p.Conn(None, RequestingWitness), [p.wit]) && [p.wit][1..] == [];
    s' := DoAsk(s2, 1);
    OneStep(c, Any(), s2, Ask(1));
    Onward(c, Any(), s, s2, s');
  }

  // From the call of Connect

  /** For either selector, with everyone consenting and every message delivered, the sender, the receiver and the witness
      come to hold the same open connection, and no thread is left at work. */
  lemma OpensForAll(c: Channel, p: Parties) returns (s: Sys)
    requires Delivers(c) && p.Apart()
    ensures Leads(c, Any(), Initial(), s) && AllDone(s)
    ensures
      var open := Entry(Connection(p.id, p.sender, Some(p.wit), p.receiver, Open), None);
      s.entries == map[Key(p.sender, p.id) := open, Key(p.receiver, p.id) := open, Key(p.wit, p.id) := open]
  {
    var s1: Sys;
    if p.selector == SenderSelects {
      s1 := SenderAsks(c, p);
      s := Completes(c, s1, p, 0, 1);
    } else {
      s1 := ReceiverAsks(c, p);
      s := Completes(c, s1, p, 1, 2);
    }
    Onward(c, Any(), Initial(), s1, s);
  }

  // And closed again

  /** The parties other than one, in the order it tells them. */
  function OtherTwo(p: Parties, closer: PeerID): (PeerID, PeerID) {
    if closer == p.sender then (p.wit, p.receiver)
    else if closer == p.receiver then (p.sender, p.wit)
    else (p.sender, p.receiver)
  }

  function ClosePacket(p: Parties, from: PeerID, to: PeerID): Packet {
    Packet(from, to, None, CloseReq(CloseRequest(p.id)))
  }

  predicate IsParty(p: Parties, n: PeerID) {
    n == p.sender || n == p.receiver || n == p.wit
  }

  lemma TargetsAreOthers(p: Parties, closer: PeerID)
    requires p.Apart() && IsParty(p, closer)
    ensures CloseTargets(closer, p.Conn(Some(p.wit), Open)) == [OtherTwo(p, closer).0, OtherTwo(p, closer).1]
  {
    CloseTargetsAre(closer, p.Conn(Some(p.wit), Open));
  }

  lemma LocksToClose(c: Channel, s: Sys, k: Key, conn: Connection, pid: nat) returns (s': Sys)
    requires pid !in s.threads && k in s.entries && s.entries[k] == Entry(conn, None)
    ensures Leads(c, Any(), s, s') && s'.net == s.net
    ensures s'.entries == s.entries[k := Entry(conn, Some(pid))]
    ensures s'.threads == s.threads[pid := Thread(k.node, k.id, Closer, Entered(conn))]
  {
    var s1 := DoBeginClose(s, pid, k.node, k.id);
    OneStep(c, Any(), s, BeginClose(pid, k.node, k.id));
    s' := DoAcquire(s1, pid);
    OneStep(c, Any(), s1, Acquire(pid));
    Onward(c, Any(), s, s1, s');
  }

  /** The closing thread gets the lock and has both others to tell. */
  lemma StartsClosing(c: Channel, s: Sys, p: Parties, closer: PeerID, pid: nat) returns (s': Sys)
    requires p.Apart() && IsParty(p, closer) && pid !in s.threads && Key(closer, p.id) in s.entries
    requires s.entries[Key(closer, p.id)] == Entry(p.Conn(Some(p.wit), Open), None)
    ensures Leads(c, Any(), s, s') && s'.net == s.net
    ensures
      var conn := p.Conn(Some(p.wit), Open);
      && s'.entries == s.entries[Key(closer, p.id) := Entry(conn, Some(pid))]
      && s'.threads == s.threads[pid := Thread(closer, p.id, Closer,
           FanOut(conn, [OtherTwo(p, closer).0, OtherTwo(p, closer).1], false))]
  {
    var s1 := LocksToClose(c, s, Key(closer, p.id), p.Conn(Some(p.wit), Open), pid);
    TargetsAreOthers(p, closer);
    s' := DoStartClose(s1, pid);
    OneStep(c, Any(), s1, StartClose(pid));
    Onward(c, Any(), s, s1, s');
  }

  /** The next target is told. */
  lemma TellsNext(c: Channel, s: Sys, p: Parties, pid: nat) returns (s': Sys)
    requires HasThread(s, pid) && s.threads[pid].id == p.id && s.threads[pid].phase.FanOut?
    requires s.threads[pid].phase.rest != [] && s.threads[pid].phase.conn.id == p.id
    ensures Leads(c, Any(), s, s') && s'.entries == s.entries
    ensures
      var t := s.threads[pid];
      && s'.threads == s.threads[pid := t.(phase := FanOut(t.phase.conn, t.phase.rest[1..], t.phase.failed))]
      && s'.net == s.net + {ClosePacket(p, t.node, t.phase.rest[0])}
  {
    s' := DoTellOne(s, pid, true, true);
    OneStep(c, Any(), s, TellOne(pid, true, true));
  }

  lemma EndsClosing(c: Channel, s: Sys, p: Parties, pid: nat) returns (s': Sys)
    requires HasThread(s, pid) && s.threads[pid].phase == FanOut(p.Conn(Some(p.wit), Open), [], false)
    ensures Leads(c, Any(), s, s') && s'.net == s.net
    ensures s'.entries == s.entries[KeyOf(s.threads[pid]) := Entry(p.Conn(Some(p.wit), Closed), None)]
    ensures s'.threads == s.threads[pid := s.threads[pid].(phase := Finished)]
  {
    var s1 := DoEndTelling(s, pid);
    OneStep(c, Any(), s, EndTelling(pid));
    s' := DoCommit(s1, pid);
    OneStep(c, Any(), s1, Commit(pid));
    Onward(c, Any(), s, s1, s');
  }

  lemma TellsBoth(c: Channel, s: Sys, p: Parties, closer: PeerID, pid: nat) returns (s': Sys)
    requires p.Apart() && IsParty(p, closer) && pid !in s.threads && Key(closer, p.id) in s.entries
    requires s.entries[Key(closer, p.id)] == Entry(p.Conn(Some(p.wit), Open), None)
    ensures Leads(c, Any(), s, s') && pid in s'.threads && s'.threads == s.threads[pid := s'.threads[pid]]
    ensures s'.threads[pid].phase == Finished
    ensures s'.entries == s.entries[Key(closer, p.id) := Entry(p.Conn(Some(p.wit), Closed), None)]
    ensures ClosePacket(p, closer, OtherTwo(p, closer).0) in s'.net && ClosePacket(p, closer, OtherTwo(p, closer).1) in s'.net
  {
    var s1 := StartsClosing(c, s, p, closer, pid);
    var s2 := TellsNext(c, s1, p, pid);
    Onward(c, Any(), s, s1, s2);
    var s3 := TellsNext(c, s2, p, pid);
    Onward(c, Any(), s, s2, s3);
    s' := EndsClosing(c, s3, p, pid);
    Onward(c, Any(), s, s3, s');
  }

  lemma HearsOfClose(c: Channel, s: Sys, p: Parties, from: PeerID, to: PeerID) returns (s': Sys)
    requires Delivers(c) && ClosePacket(p, from, to) in s.net && Key(to, p.id) in s.entries
    requires s.entries[Key(to, p.id)] == Entry(p.Conn(Some(p.wit), Open), None)
    ensures Leads(c, Any(), s, s')
    ensures s' == s.(entries := s.entries[Key(to, p.id) := Entry(p.Conn(Some(p.wit), Closed), None)])
  {
    s' := DoServeClose(c, s, ClosePacket(p, from, to), true);
    OneStep(c, Any(), s, ServeClose(ClosePacket(p, from, to), true));
  }

  /** Whoever of the three then closes the connection, with everyone consenting and every message delivered all three come
      to hold it closed. */
  lemma ClosesForAll(c: Channel, p: Parties, closer: PeerID) returns (s: Sys)
    requires Delivers(c) && p.Apart() && (closer == p.sender || closer == p.receiver || closer == p.wit)
    ensures Leads(c, Any(), Initial(), s) && AllDone(s)
    ensures
      var closed := Entry(Connection(p.id, p.sender, Some(p.wit), p.receiver, Closed), None);
      s.entries == map[Key(p.sender, p.id) := closed, Key(p.receiver, p.id) := closed, Key(p.wit, p.id) := closed]
  {
    var s1 := OpensForAll(c, p);
    var pid := Unused(s1.threads.Keys);
    var s2 := TellsBoth(c, s1, p, closer, pid);
    Onward(c, Any(), Initial(), s1, s2);
    var s3 := HearsOfClose(c, s2, p, closer, OtherTwo(p, closer).0);
    Onward(c, Any(), Initial(), s2, s3);
    s := HearsOfClose(c, s3, p, closer, OtherTwo(p, closer).1);
    Onward(c, Any(), Initial(), s3, s);
  }
}
