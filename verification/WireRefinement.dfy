/** Running the protocol over text. With handlers that never answer "accepted" with an error list
    holding only the empty text, the runs over the wire are exactly the runs that pass values and
    take no message with a nil selector from the network. */
module WireRefinement {
  import opened Types
  import opened Serde
  import opened SerdeProofs
  import opened Rules
  import opened Protocol
  import opened Invariants
  import opened Safety

  /** The text of a message as the far side takes it off its stream: a request up to the first ';',
      a response to the end. */
  function Received(m: Message): Option<Text> {
    if m.ConnectResp? || m.WitnessResp? || m.PeersResp? then Some(Serialize(m)) else ReadMessage(Serialize(m))
  }

  function OverWire(m: Message): Option<Message> {
    match Received(m)
    case None => None
    case Some(text) =>
      if text == [] then None
      else match Deserialize(text, KindOf(m))
        case Err(_) => None
        case Ok(d) => Some(d)
  }

  function Wire(): Channel {
    m => OverWire(m)
  }

  lemma WireDelivers(m: Message)
    ensures Wire()(m) == if HasNilSelector(m) then None else Some(KeptMessage(m))
  {
    MessageRoundTrip(m);
    ReadRecoversMessage(m, []);
    assert Serialize(m) + [] == Serialize(m);
  }

  /** A refusal that the wire turns into a grant, among the answers h speaks of. */
  predicate Upgraded(h: Honesty, m: Message) {
    match m
    case ConnectResp(r) => h.connect && Vanishes(r.errors) && r.accepted
    case WitnessResp(r) => h.wit && Vanishes(r.errors) && r.accepted
    case _ => false
  }

  /** The wire is honest about what was sent exactly when nothing sent is such a refusal. */
  lemma WireHonestExactly(h: Honesty, net: set<Packet>)
    ensures Honest(h, Wire(), net) <==> forall p | p in net :: !Upgraded(h, p.body)
  {
    forall p | p in net
      ensures (Wire()(p.body).Some? ==> HonestDelivery(h, p.body, Wire()(p.body).value)) <==> !Upgraded(h, p.body)
    {
      WireDelivers(p.body);
    }
  }

  // What handlers answer

  /** Nothing sent, and nothing a thread has yet to send, is such a refusal. */
  ghost predicate Clean(h: Honesty, s: Sys) {
    && (forall p | p in s.net :: !Upgraded(h, p.body))
    && (forall pid | pid in s.threads :: ThreadClean(s.threads[pid]))
  }

  predicate ThreadClean(t: Thread) {
    t.role.Witnesser? ==> t.role.response.errors == []
  }

  /** The user's handlers do not answer so. */
  predicate FineHandlers(h: Honesty, e: Event) {
    match e
    case ServeConnect(_, _, _, Handled(r)) => !Upgraded(h, ConnectResp(r))
    case ServeWitness(_, _, _, Handled(r)) => !Upgraded(h, WitnessResp(r))
    case _ => true
  }

  lemma RefusalsStay(errors: seq<Text>, e: Text)
    requires e != []
    ensures !Vanishes(errors + [e])
  {
    assert (errors + [e])[|errors|] == e;
  }

  lemma ConnectVerdictClean(
    h: Honesty, self: PeerID, from: PeerID, r: ConnectRequest, found: Lookups, user: Reply<ConnectResponse>)
    requires user.Handled? ==> !Upgraded(h, ConnectResp(user.response))
    ensures
      var v := ConnectVerdict(self, from, r, found, user);
      (v.Answer? ==> !Upgraded(h, ConnectResp(v.response))) && (v.Admit? ==> v.response.errors == [])
  {
  }

  lemma WitnessVerdictClean(
    h: Honesty, self: PeerID, from: PeerID, r: WitnessRequest, found: Lookups, user: Reply<WitnessResponse>)
    requires user.Handled? ==> !Upgraded(h, WitnessResp(user.response))
    ensures
      var v := WitnessVerdict(self, from, r, found, user);
      (v.Answer? ==> !Upgraded(h, WitnessResp(v.response))) && (v.Admit? ==> v.response.errors == [])
  {
  }

  lemma ServedConnectClean(h: Honesty, s: Sys, pid: nat, packet: Packet, r: ConnectRequest, v: Verdict<ConnectResponse>)
    requires Clean(h, s) && r.sender.Some? && r.receiver.Some?
    requires v.Answer? ==> !Upgraded(h, ConnectResp(v.response))
    requires v.Admit? ==> v.response.errors == []
    ensures Clean(h, AfterVerdictConnect(s, pid, packet, r, v))
  {
    if v.Admit? {
      RefusalsStay(v.response.errors, DuplicateError(r.connectionID));
    }
  }

  lemma ServedWitnessClean(h: Honesty, s: Sys, pid: nat, packet: Packet, r: WitnessRequest, v: Verdict<WitnessResponse>)
    requires Clean(h, s) && r.sender.Some? && r.receiver.Some?
    requires v.Answer? ==> !Upgraded(h, WitnessResp(v.response))
    requires v.Admit? ==> v.response.errors == []
    ensures Clean(h, AfterVerdictWitness(s, pid, packet, r, v))
  {
    if v.Admit? {
      RefusalsStay(v.response.errors, DuplicateError(r.connectionID));
    }
  }

  lemma ThreadsStayClean(h: Honesty, c: Channel, s: Sys, e: Event)
    requires Clean(h, s) && Enabled(c, s, e) && !IsRequestEvent(e)
    ensures forall pid | pid in Next(c, s, e).threads :: ThreadClean(Next(c, s, e).threads[pid])
  {
    forall pid | pid in Next(c, s, e).threads ensures ThreadClean(Next(c, s, e).threads[pid]) {
      StepKeepsThread(c, s, e, Next(c, s, e), pid);
    }
  }

  lemma NetStaysClean(h: Honesty, c: Channel, s: Sys, e: Event)
    requires Clean(h, s) && Enabled(c, s, e) && !IsRequestEvent(e)
    ensures forall p | p in Next(c, s, e).net :: !Upgraded(h, p.body)
  {
  }

  lemma StepStaysClean(h: Honesty, c: Channel, s: Sys, e: Event)
    requires Clean(h, s) && Enabled(c, s, e) && FineHandlers(h, e)
    ensures Clean(h, Next(c, s, e))
  {
    if e.ServeConnect? {
      var r := c(e.packet.body).value.connectRequest;
      ConnectVerdictClean(h, e.packet.to, e.packet.from, r, e.found, e.userConnect);
      var v := ConnectVerdict(e.packet.to, e.packet.from, r, e.found, e.userConnect);
      ServedConnectClean(h, s, e.pid, e.packet, r, v);
    } else if e.ServeWitness? {
      var r := c(e.packet.body).value.witnessRequest;
      WitnessVerdictClean(h, e.packet.to, e.packet.from, r, e.found, e.userWitness);
      var v := WitnessVerdict(e.packet.to, e.packet.from, r, e.found, e.userWitness);
      ServedWitnessClean(h, s, e.pid, e.packet, r, v);
    } else {
      ThreadsStayClean(h, c, s, e);
      NetStaysClean(h, c, s, e);
    }
  }

  lemma {:induction false} RunsStayClean(h: Honesty, c: Channel, states: seq<Sys>, events: seq<Event>, i: nat)
    requires IsRun(c, states, events) && states[0] == Initial() && i < |states|
    requires forall e | e in events :: FineHandlers(h, e)
    ensures Clean(h, states[i])
    decreases i
  {
    if i > 0 {
      RunsStayClean(h, c, states, events, i - 1);
      assert Step(c, states[i - 1], events[i - 1], states[i]);
      assert FineHandlers(h, events[i - 1]);
      StepStaysClean(h, c, states[i - 1], events[i - 1]);
    }
  }

  /** On a run whose handlers never answer so, the wire is honest about everything sent. */
  lemma WireRunsAreHonest(h: Honesty, states: seq<Sys>, events: seq<Event>, i: nat)
    requires IsRun(Wire(), states, events) && states[0] == Initial() && i < |states|
    requires forall e | e in events :: FineHandlers(h, e)
    ensures Honest(h, Wire(), states[i].net)
  {
    RunsStayClean(h, Wire(), states, events, i);
    WireHonestExactly(h, states[i].net);
  }

  // Steps

  /** The packets an event takes from the network. */
  function Taken(e: Event): Option<Packet> {
    match e
    case TakeReceiverAnswer(_, answer) => Some(answer)
    case TakeCandidateAnswer(_, answer) => Some(answer)
    case ServeConnect(_, packet, _, _) => Some(packet)
    case ServeWitness(_, packet, _, _) => Some(packet)
    case ServeNotification(packet, _, _) => Some(packet)
    case ServeClose(packet, _) => Some(packet)
    case _ => None
  }

  /** The event takes nothing from the network that the far side cannot read. */
  predicate Readable(e: Event) {
    Taken(e).Some? ==> !HasNilSelector(Taken(e).value.body)
  }

  predicate IsSelectionAnswer(e: Event) {
    e.TakeReceiverAnswer? || e.TakeCandidateAnswer?
  }

  lemma SameReceiverAnswer(s: Sys, e: Event)
    requires e.TakeReceiverAnswer? && !Upgraded(EVERY_ANSWER, e.answer.body)
    ensures Enabled(Wire(), s, e) <==> Enabled(Direct(), s, e) && Readable(e)
    ensures Enabled(Wire(), s, e) ==> Next(Wire(), s, e) == Next(Direct(), s, e)
  {
    WireDelivers(e.answer.body);
  }

  lemma SameCandidateAnswer(s: Sys, e: Event)
    requires e.TakeCandidateAnswer? && !Upgraded(EVERY_ANSWER, e.answer.body)
    ensures Enabled(Wire(), s, e) <==> Enabled(Direct(), s, e) && Readable(e)
    ensures Enabled(Wire(), s, e) ==> Next(Wire(), s, e) == Next(Direct(), s, e)
  {
    WireDelivers(e.answer.body);
  }

  lemma SameService(s: Sys, e: Event)
    requires Taken(e).Some? && !IsSelectionAnswer(e) && !Upgraded(EVERY_ANSWER, e.packet.body)
    ensures Enabled(Wire(), s, e) <==> Enabled(Direct(), s, e) && Readable(e)
    ensures Enabled(Wire(), s, e) ==> Next(Wire(), s, e) == Next(Direct(), s, e)
  {
    WireDelivers(e.packet.body);
  }

  lemma SameLocalStep(s: Sys, e: Event)
    requires Taken(e) == None
    ensures Enabled(Wire(), s, e) <==> Enabled(Direct(), s, e)
    ensures Enabled(Wire(), s, e) ==> Next(Wire(), s, e) == Next(Direct(), s, e)
  {
  }

  lemma SameStep(s: Sys, e: Event)
    requires Taken(e).Some? ==> !Upgraded(EVERY_ANSWER, Taken(e).value.body)
    ensures Enabled(Wire(), s, e) <==> Enabled(Direct(), s, e) && Readable(e)
    ensures Enabled(Wire(), s, e) ==> Next(Wire(), s, e) == Next(Direct(), s, e)
  {
    if IsSelectionAnswer(e) {
      if e.TakeReceiverAnswer? {
        SameReceiverAnswer(s, e);
      } else {
        SameCandidateAnswer(s, e);
      }
    } else if Taken(e).Some? {
      SameService(s, e);
    } else {
      SameLocalStep(s, e);
    }
  }

  lemma TakenWasSent(c: Channel, s: Sys, e: Event)
    requires Enabled(c, s, e)
    ensures Taken(e).Some? ==> Taken(e).value in s.net
  {
  }

  lemma StepsAgree(s: Sys, e: Event, s': Sys)
    requires Clean(EVERY_ANSWER, s)
    ensures Step(Wire(), s, e, s') <==> Step(Direct(), s, e, s') && Readable(e)
  {
    if Enabled(Wire(), s, e) {
      TakenWasSent(Wire(), s, e);
      SameStep(s, e);
    }
    if Enabled(Direct(), s, e) {
      TakenWasSent(Direct(), s, e);
      SameStep(s, e);
    }
  }

  // Runs

  /** The runs over the wire are the runs that pass values, same events and same states, in which nobody takes a request
      with a nil selector from the network. In particular every run over the wire is a run that passes values. */
  lemma WireRefinesValues(states: seq<Sys>, events: seq<Event>)
    requires states != [] && states[0] == Initial() && forall e | e in events :: FineHandlers(EVERY_ANSWER, e)
    ensures IsRun(Wire(), states, events) <==>
      IsRun(Direct(), states, events) && forall e | e in events :: Readable(e)
  {
    if IsRun(Wire(), states, events) {
      forall i | 0 <= i < |events| ensures Step(Direct(), states[i], events[i], states[i + 1]) && Readable(events[i]) {
        RunsStayClean(EVERY_ANSWER, Wire(), states, events, i);
        StepsAgree(states[i], events[i], states[i + 1]);
      }
    }
    if IsRun(Direct(), states, events) && forall e | e in events :: Readable(e) {
      forall i | 0 <= i < |events| ensures Step(Wire(), states[i], events[i], states[i + 1]) {
        RunsStayClean(EVERY_ANSWER, Direct(), states, events, i);
        assert Readable(events[i]);
        StepsAgree(states[i], events[i], states[i + 1]);
      }
    }
  }
}
