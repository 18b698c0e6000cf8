/** The decisions a go-clarinet node takes on its own, as functions of what its peer store, its
    user's handlers and the arriving message tell it. The node's methods and the protocol's
    steps are both written with them. */
module Rules {
  import opened Types
  import opened Strings

  // What the surroundings answer

  datatype Lookup = Found | Missing(message: Text)

  datatype Lookups = Lookups(sender: Lookup, receiver: Lookup, self: Lookup)

  datatype Reply<+R> = HandlerFailed | Handled(response: R)

  /** Say nothing, answer without touching the store, or try to enter the connection and then answer. */
  datatype Verdict<+R> = Silent | Answer(response: R) | Admit(response: R)

  // Connect and witness requests

  const NOT_A_PARTY: Text := "outsider"
  const NOT_OURS: Text := "not ours"
  const OWN_WITNESS: Text := "own end"

  function ConnectVerdict(
    self: PeerID, from: PeerID, r: ConnectRequest, found: Lookups, user: Reply<ConnectResponse>): Verdict<ConnectResponse>
  {
    if found.sender.Missing? then Answer(ConnectResponse(r.connectionID, [found.sender.message], false, []))
    else if found.receiver.Missing? then Answer(ConnectResponse(r.connectionID, [found.receiver.message], false, []))
    else if r.sender != Some(from) && r.receiver != Some(from) then
      Answer(ConnectResponse(r.connectionID, [], false, [NOT_A_PARTY]))
    else if found.self.Missing? then Answer(ConnectResponse(r.connectionID, [found.self.message], false, []))
    else if r.sender != Some(self) && r.receiver != Some(self) then
      Answer(ConnectResponse(r.connectionID, [], false, [NOT_OURS]))
    else match user
      case HandlerFailed => Silent
      case Handled(resp) => if |resp.errors| > 0 || !resp.accepted then Answer(resp) else Admit(resp)
  }

  function WitnessVerdict(
    self: PeerID, from: PeerID, r: WitnessRequest, found: Lookups, user: Reply<WitnessResponse>): Verdict<WitnessResponse>
  {
    if found.sender.Missing? then Answer(WitnessResponse(r.connectionID, [found.sender.message], false, []))
    else if found.receiver.Missing? then Answer(WitnessResponse(r.connectionID, [found.receiver.message], false, []))
    else if r.sender != Some(from) && r.receiver != Some(from) then
      Answer(WitnessResponse(r.connectionID, [], false, [NOT_A_PARTY]))
    else if found.self.Missing? then Answer(WitnessResponse(r.connectionID, [found.self.message], false, []))
    else if r.sender == Some(self) || r.receiver == Some(self) then
      Answer(WitnessResponse(r.connectionID, [], false, [OWN_WITNESS]))
    else match user
      case HandlerFailed => Silent
      case Handled(resp) => if |resp.errors| > 0 || !resp.accepted then Answer(resp) else Admit(resp)
  }

  const DUPLICATE: Text := "exists: "

  function DuplicateError(id: ConnID): (t: Text)
    ensures t != []
  {
    DUPLICATE + FormatID(id)
  }

  /** After entering the connection, the receiving side starts choosing a witness itself when that is its part. */
  predicate StartsSelection(self: PeerID, r: ConnectRequest) {
    (r.selector == ReceiverSelects && r.receiver == Some(self)) || (r.selector == SenderSelects && r.sender == Some(self))
  }

  /** What serving a request does: the connection entered if any, the answer if one is sent now, and whether work is
      left for a thread of its own. */
  datatype Served<+R> = Served(entered: Option<Connection>, response: Option<R>, starts: bool)

  /** known says that the node's store has the ID already; the store then refuses. */
  function ServedConnect(self: PeerID, known: bool, r: ConnectRequest, v: Verdict<ConnectResponse>): Served<ConnectResponse>
    requires r.sender.Some? && r.receiver.Some?
  {
    match v
    case Silent => Served(None, None, false)
    case Answer(resp) => Served(None, Some(resp), false)
    case Admit(resp) =>
      if known then
        Served(None, Some(resp.(errors := resp.errors + [DuplicateError(r.connectionID)])), false)
      else
        var conn := Connection(r.connectionID, r.sender.value, None, r.receiver.value, AwaitingWitness);
        Served(Some(conn), Some(resp), StartsSelection(self, r))
  }

  /** Up to Accept; an admitted request is answered only after the second store update. */
  function ServedWitness(known: bool, r: WitnessRequest, v: Verdict<WitnessResponse>): (served: Served<WitnessResponse>)
    requires r.sender.Some? && r.receiver.Some?
    ensures served.starts ==> v.Admit? && served.entered.Some?
  {
    match v
    case Silent => Served(None, None, false)
    case Answer(resp) => Served(None, Some(resp), false)
    case Admit(resp) =>
      if known then
        Served(None, Some(resp.(errors := resp.errors + [DuplicateError(r.connectionID)])), false)
      else
        var conn := Connection(r.connectionID, r.sender.value, None, r.receiver.value, Open);
        Served(Some(conn), None, true)
  }

  function ConnectRequestFor(conn: Connection, w: WitnessSelector): ConnectRequest {
    ConnectRequest(conn.id, Some(conn.sender), Some(conn.receiver), w)
  }

  function WitnessRequestFor(conn: Connection, w: WitnessSelector): WitnessRequest {
    WitnessRequest(conn.id, Some(conn.sender), Some(conn.receiver), w)
  }

  /** The answers that let the requester go on; errors are looked at before the accepted flag. */
  predicate ConnectGranted(id: ConnID, resp: ConnectResponse) {
    resp.connectionID == id && resp.errors == [] && resp.accepted
  }

  predicate WitnessGranted(id: ConnID, resp: WitnessResponse) {
    resp.connectionID == id && resp.errors == [] && resp.accepted
  }

  // Choosing and announcing a witness

  predicate Chooses(self: PeerID, conn: Connection, w: WitnessSelector) {
    (w == SenderSelects && self == conn.sender) || (w == ReceiverSelects && self == conn.receiver)
  }

  /** The other end of the connection, as the announcing side computes it. */
  function PeerToNotify(self: PeerID, conn: Connection): PeerID
    requires self == conn.sender || self == conn.receiver
  {
    if conn.sender == self then conn.receiver else conn.sender
  }

  function ExpectedAnnouncer(self: PeerID, conn: Connection): PeerID {
    if conn.sender == self then conn.receiver else conn.sender
  }

  /** The connection after a witness notification; unchanged when the notification is refused. */
  function AfterNotification(
    self: PeerID, from: PeerID, conn: Connection, n: WitnessNotification, selfFound: bool, userOk: bool): Connection
  {
    if conn.status == AwaitingWitness && selfFound && from == ExpectedAnnouncer(self, conn) && userOk
    then conn.(wit := n.wit).SetStatus(Open)
    else conn
  }

  // Closing

  function AfterCloseRequest(conn: Connection, userOk: bool): Connection {
    if conn.status == Closed then conn
    else if userOk then conn.SetStatus(Closed)
    else conn.SetStatus(Closing)
  }

  function Others(self: PeerID, ps: seq<Option<PeerID>>): seq<PeerID> {
    if ps == [] then []
    else if ps[0] == None || ps[0] == Some(self) then Others(self, ps[1..])
    else [ps[0].value] + Others(self, ps[1..])
  }

  lemma {:induction false} OthersAre(self: PeerID, ps: seq<Option<PeerID>>)
    ensures forall p :: p in Others(self, ps) <==> Some(p) in ps && p != self
  {
    if ps != [] {
      OthersAre(self, ps[1..]);
      assert ps == [ps[0]] + ps[1..];
    }
  }

  /** The participants a closing node tells, in the order it tells them. */
  function CloseTargets(self: PeerID, conn: Connection): seq<PeerID> {
    Others(self, [Some(conn.sender), conn.wit, Some(conn.receiver)])
  }

  function Other(self: PeerID, p: Option<PeerID>): seq<PeerID> {
    if p == None || p == Some(self) then [] else [p.value]
  }

  lemma OthersOfThree(self: PeerID, a: Option<PeerID>, b: Option<PeerID>, c: Option<PeerID>)
    ensures Others(self, [a, b, c]) == Other(self, a) + Other(self, b) + Other(self, c)
  {
    assert [a, b, c][1..] == [b, c] && [b, c][1..] == [c] && [c][1..] == [];
    assert Others(self, [c]) == Other(self, c);
    assert Others(self, [b, c]) == Other(self, b) + Other(self, c);
  }

  /** Sender, witness and receiver in this order, as far as there is one and it is not the node itself. */
  lemma CloseTargetsAre(self: PeerID, conn: Connection)
    ensures CloseTargets(self, conn) ==
      (if conn.sender != self then [conn.sender] else [])
      + (if conn.wit.Some? && conn.wit.value != self then [conn.wit.value] else [])
      + (if conn.receiver != self then [conn.receiver] else [])
    ensures forall p :: p in CloseTargets(self, conn) <==>
      p != self && (p == conn.sender || Some(p) == conn.wit || p == conn.receiver)
  {
    OthersOfThree(self, Some(conn.sender), conn.wit, Some(conn.receiver));
    OthersAre(self, [Some(conn.sender), conn.wit, Some(conn.receiver)]);
  }

  function AfterClosing(conn: Connection, failed: bool): Connection {
    conn.SetStatus(if failed then Closing else Closed)
  }
}
