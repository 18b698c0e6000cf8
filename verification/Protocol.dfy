/** Connection setup and teardown as a step system: any number of nodes, each with a store of
    locked entries; threads that hold an entry's lock across network exchanges; and a network
    that remembers every packet ever sent, so that packets may be lost, repeated or reordered.
    What a node's surroundings decide is part of the event that asks for it. */
module Protocol {
  import opened Types
  import opened Serde
  import opened Rules

  // Packets

  /** A response carries the request of the exchange it belongs to. */
  datatype Packet = Packet(from: PeerID, to: PeerID, re: Option<Message>, body: Message)

  /** How the transport hands a sent message to the far side, when it hands it over at all. */
  type Channel = Message -> Option<Message>

  /** The transport that passes values. */
  function Direct(): Channel {
    m => Some(m)
  }

  // State

  datatype Key = Key(node: PeerID, id: ConnID)

  /** A store entry: the committed connection, and the thread that holds the entry's lock. */
  datatype Entry = Entry(conn: Connection, holder: Option<nat>)

  datatype Role =
    | Connector(selector: WitnessSelector)
    | Chooser(selector: WitnessSelector)
    | Witnesser(to: PeerID, re: Message, response: WitnessResponse)
    | Closer

  /** Where a thread's store update stands; every phase but Queued and Finished holds the entry's lock. */
  datatype Phase =
    | Queued
    | Entered(conn: Connection)
    | AwaitingReceiver(conn: Connection)
    | Choosing(conn: Connection)
    | Asking(conn: Connection, rest: seq<PeerID>)
    | AwaitingCandidate(conn: Connection, candidate: PeerID, rest: seq<PeerID>)
    | Notifying(conn: Connection)
    | FanOut(conn: Connection, rest: seq<PeerID>, failed: bool)
    | Settling(conn: Connection)
    | Finished

  datatype Thread = Thread(node: PeerID, id: ConnID, role: Role, phase: Phase)

  /** Who created a connection ID, for whom, and who was to choose: history no node can see as a whole. */
  datatype Origin = Origin(sender: PeerID, receiver: PeerID, selector: WitnessSelector)

  datatype Sys = Sys(
    entries: map<Key, Entry>,
    threads: map<nat, Thread>,
    net: set<Packet>,
    origin: map<ConnID, Origin>,
    chosen: map<ConnID, PeerID>)

  function Initial(): Sys {
    Sys(map[], map[], {}, map[], map[])
  }

  // Phase changes

  /** handleWitnessSelection up to the search for a witness. */
  function ChoosePhase(self: PeerID, conn: Connection, w: WitnessSelector, candidates: seq<PeerID>): Phase {
    if w == NilSelector then Settling(conn)
    else if !Chooses(self, conn, w) then Settling(conn.SetStatus(AwaitingWitness))
    else Asking(conn.SetStatus(RequestingWitness), candidates)
  }

  /** One candidate's answer: the witness is named, or the search goes on. */
  function AnswerPhase(conn: Connection, candidate: PeerID, rest: seq<PeerID>, granted: bool): Phase {
    if granted then Notifying(conn.SetWitness(candidate).SetStatus(NotifyingOfWitness)) else Asking(conn, rest)
  }

  function NotifyPhase(conn: Connection, ok: bool): Phase {
    Settling(if ok then conn.SetStatus(Open) else conn)
  }

  function KeyOf(t: Thread): Key {
    Key(t.node, t.id)
  }

  function SetPhase(s: Sys, pid: nat, ph: Phase): Sys
    requires pid in s.threads
  {
    s.(threads := s.threads[pid := s.threads[pid].(phase := ph)])
  }

  function SetEntry(s: Sys, k: Key, e: Entry): Sys {
    s.(entries := s.entries[k := e])
  }

  function Post(s: Sys, p: Packet): Sys {
    s.(net := s.net + {p})
  }

  function Spawn(s: Sys, pid: nat, t: Thread): Sys {
    s.(threads := s.threads[pid := t])
  }

  predicate HasThread(s: Sys, pid: nat) {
    pid in s.threads && KeyOf(s.threads[pid]) in s.entries
  }

  predicate Free(s: Sys, k: Key) {
    k in s.entries && s.entries[k].holder == None
  }

  /** The lock is given back and, when there is something to persist, the entry's connection replaced. */
  function Release(s: Sys, pid: nat, updated: Option<Connection>): Sys
    requires HasThread(s, pid)
  {
    var k := KeyOf(s.threads[pid]);
    var conn := if updated.Some? then updated.value else s.entries[k].conn;
    SetEntry(SetPhase(s, pid, Finished), k, Entry(conn, None))
  }

  // Calls a node's user makes

  predicate CanConnect(s: Sys, pid: nat, node: PeerID, id: ConnID) {
    pid !in s.threads && id !in s.origin && Key(node, id) !in s.entries
  }

  /** Create under a fresh ID; the update that requests the connection is still to come. */
  function DoConnect(s: Sys, pid: nat, node: PeerID, receiver: PeerID, w: WitnessSelector, id: ConnID): Sys {
    var conn := Connection(id, node, None, receiver, RequestingReceiver);
    var s1 := s.(origin := s.origin[id := Origin(node, receiver, w)]);
    Spawn(SetEntry(s1, Key(node, id), Entry(conn, None)), pid, Thread(node, id, Connector(w), Queued))
  }

  predicate CanBeginClose(s: Sys, pid: nat, node: PeerID, id: ConnID) {
    pid !in s.threads && Key(node, id) in s.entries
  }

  function DoBeginClose(s: Sys, pid: nat, node: PeerID, id: ConnID): Sys {
    Spawn(s, pid, Thread(node, id, Closer, Queued))
  }

  // Locks

  predicate CanAcquire(s: Sys, pid: nat) {
    HasThread(s, pid) && s.threads[pid].phase.Queued? && !s.threads[pid].role.Witnesser? && Free(s, KeyOf(s.threads[pid]))
  }

  function DoAcquire(s: Sys, pid: nat): Sys
    requires CanAcquire(s, pid)
  {
    var t := s.threads[pid];
    var conn := s.entries[KeyOf(t)].conn;
    SetEntry(SetPhase(s, pid, if t.role.Chooser? then Choosing(conn) else Entered(conn)), KeyOf(t), Entry(conn, Some(pid)))
  }

  /** The points at which a callback returns nothing to persist. */
  predicate CanAbandon(s: Sys, pid: nat) {
    && HasThread(s, pid)
    && var t := s.threads[pid];
       match t.role
       case Connector(_) => t.phase.Entered? || t.phase.AwaitingReceiver? || t.phase.Choosing?
       case Chooser(_) => t.phase.Choosing?
       case Closer => t.phase.Entered?
       case Witnesser(_, _, _) => false
  }

  function DoAbandon(s: Sys, pid: nat): Sys
    requires CanAbandon(s, pid)
  {
    Release(s, pid, None)
  }

  predicate CanCommit(s: Sys, pid: nat) {
    HasThread(s, pid) && s.threads[pid].phase.Settling?
  }

  function DoCommit(s: Sys, pid: nat): Sys
    requires CanCommit(s, pid)
  {
    Release(s, pid, Some(s.threads[pid].phase.conn))
  }

  // Connect's update and witness selection

  predicate Selects(s: Sys, pid: nat) {
    HasThread(s, pid) && (s.threads[pid].role.Connector? || s.threads[pid].role.Chooser?)
  }

  predicate CanRequestReceiver(s: Sys, pid: nat) {
    HasThread(s, pid) && s.threads[pid].role.Connector? && s.threads[pid].phase.Entered?
  }

  function DoRequestReceiver(s: Sys, pid: nat): Sys
    requires CanRequestReceiver(s, pid)
  {
    var t := s.threads[pid];
    var request := ConnectReq(ConnectRequestFor(t.phase.conn, t.role.selector));
    Post(SetPhase(s, pid, AwaitingReceiver(t.phase.conn)), Packet(t.node, t.phase.conn.receiver, None, request))
  }

  /** An answer to the named request, from the node it was sent to. */
  predicate Answers(s: Sys, answer: Packet, from: PeerID, to: PeerID, request: Message) {
    answer in s.net && answer.from == from && answer.to == to && answer.re == Some(request)
  }

  predicate CanTakeReceiverAnswer(c: Channel, s: Sys, pid: nat, answer: Packet) {
    && HasThread(s, pid) && s.threads[pid].role.Connector? && s.threads[pid].phase.AwaitingReceiver?
    && var t := s.threads[pid];
       && Answers(s, answer, t.phase.conn.receiver, t.node, ConnectReq(ConnectRequestFor(t.phase.conn, t.role.selector)))
       && answer.body.ConnectResp? && c(answer.body).Some? && c(answer.body).value.ConnectResp?
  }

  function DoTakeReceiverAnswer(c: Channel, s: Sys, pid: nat, answer: Packet): Sys
    requires CanTakeReceiverAnswer(c, s, pid, answer)
  {
    var conn := s.threads[pid].phase.conn;
    if ConnectGranted(conn.id, c(answer.body).value.connectResponse) then SetPhase(s, pid, Choosing(conn))
    else Release(s, pid, None)
  }

  predicate CanChoose(s: Sys, pid: nat, candidates: seq<PeerID>) {
    && Selects(s, pid) && s.threads[pid].phase.Choosing?
    && var conn := s.threads[pid].phase.conn;
       forall p :: p in candidates ==> p != conn.sender && p != conn.receiver
  }

  function DoChoose(s: Sys, pid: nat, candidates: seq<PeerID>): Sys
    requires CanChoose(s, pid, candidates)
  {
    var t := s.threads[pid];
    SetPhase(s, pid, ChoosePhase(t.node, t.phase.conn, t.role.selector, candidates))
  }

  predicate CanAsk(s: Sys, pid: nat) {
    Selects(s, pid) && s.threads[pid].phase.Asking? && s.threads[pid].phase.rest != []
  }

  function DoAsk(s: Sys, pid: nat): Sys
    requires CanAsk(s, pid)
  {
    var t := s.threads[pid];
    var (conn, p, rest) := (t.phase.conn, t.phase.rest[0], t.phase.rest[1..]);
    Post(SetPhase(s, pid, AwaitingCandidate(conn, p, rest)),
         Packet(t.node, p, None, WitnessReq(WitnessRequestFor(conn, t.role.selector))))
  }

  predicate CanGiveUp(s: Sys, pid: nat) {
    HasThread(s, pid) && s.threads[pid].phase.Asking? && s.threads[pid].phase.rest == []
  }

  function DoGiveUp(s: Sys, pid: nat): Sys
    requires CanGiveUp(s, pid)
  {
    SetPhase(s, pid, Settling(s.threads[pid].phase.conn))
  }

  predicate CanTakeCandidateAnswer(c: Channel, s: Sys, pid: nat, answer: Packet) {
    && Selects(s, pid) && s.threads[pid].phase.AwaitingCandidate?
    && var t := s.threads[pid];
       && Answers(s, answer, t.phase.candidate, t.node, WitnessReq(WitnessRequestFor(t.phase.conn, t.role.selector)))
       && answer.body.WitnessResp? && c(answer.body).Some? && c(answer.body).value.WitnessResp?
  }

  function DoTakeCandidateAnswer(c: Channel, s: Sys, pid: nat, answer: Packet): Sys
    requires CanTakeCandidateAnswer(c, s, pid, answer)
  {
    var AwaitingCandidate(conn, p, rest) := s.threads[pid].phase;
    var granted := WitnessGranted(conn.id, c(answer.body).value.witnessResponse);
    var s1 := SetPhase(s, pid, AnswerPhase(conn, p, rest, granted));
    if granted then s1.(chosen := s.chosen[conn.id := p]) else s1
  }

  predicate CanFailCandidate(s: Sys, pid: nat) {
    HasThread(s, pid) && s.threads[pid].phase.AwaitingCandidate?
  }

  function DoFailCandidate(s: Sys, pid: nat): Sys
    requires CanFailCandidate(s, pid)
  {
    var AwaitingCandidate(conn, p, rest) := s.threads[pid].phase;
    SetPhase(s, pid, AnswerPhase(conn, p, rest, false))
  }

  /** Sending may fail after the notification has left, and may succeed although it never arrives. */
  predicate CanNotify(s: Sys, pid: nat, sent: bool, ok: bool) {
    && HasThread(s, pid) && s.threads[pid].phase.Notifying? && (ok ==> sent)
    && var t := s.threads[pid];
       t.node == t.phase.conn.sender || t.node == t.phase.conn.receiver
  }

  function DoNotify(s: Sys, pid: nat, sent: bool, ok: bool): Sys
    requires CanNotify(s, pid, sent, ok)
  {
    var t := s.threads[pid];
    var conn := t.phase.conn;
    var s1 := SetPhase(s, pid, NotifyPhase(conn, ok));
    if sent then
      Post(s1, Packet(t.node, PeerToNotify(t.node, conn), None, Notification(WitnessNotification(conn.id, conn.wit))))
    else s1
  }

  // CloseConnection's update

  predicate CanStartClose(s: Sys, pid: nat) {
    && HasThread(s, pid) && s.threads[pid].role.Closer? && s.threads[pid].phase.Entered?
    && s.threads[pid].phase.conn.status != Closed
  }

  function DoStartClose(s: Sys, pid: nat): Sys
    requires CanStartClose(s, pid)
  {
    var t := s.threads[pid];
    SetPhase(s, pid, FanOut(t.phase.conn, CloseTargets(t.node, t.phase.conn), false))
  }

  predicate CanTellOne(s: Sys, pid: nat, sent: bool, ok: bool) {
    HasThread(s, pid) && s.threads[pid].phase.FanOut? && s.threads[pid].phase.rest != [] && (ok ==> sent)
  }

  function DoTellOne(s: Sys, pid: nat, sent: bool, ok: bool): Sys
    requires CanTellOne(s, pid, sent, ok)
  {
    var t := s.threads[pid];
    var FanOut(conn, rest, failed) := t.phase;
    var s1 := SetPhase(s, pid, FanOut(conn, rest[1..], failed || !ok));
    if sent then Post(s1, Packet(t.node, rest[0], None, CloseReq(CloseRequest(conn.id)))) else s1
  }

  predicate CanEndTelling(s: Sys, pid: nat) {
    HasThread(s, pid) && s.threads[pid].phase.FanOut? && s.threads[pid].phase.rest == []
  }

  function DoEndTelling(s: Sys, pid: nat): Sys
    requires CanEndTelling(s, pid)
  {
    var FanOut(conn, _, failed) := s.threads[pid].phase;
    SetPhase(s, pid, Settling(AfterClosing(conn, failed)))
  }

  // Adapters

  predicate CanServeConnect(c: Channel, s: Sys, pid: nat, packet: Packet) {
    && pid !in s.threads && packet in s.net && packet.body.ConnectReq?
    && c(packet.body).Some? && c(packet.body).value.ConnectReq?
    && var r := c(packet.body).value.connectRequest;
       r.sender.Some? && r.receiver.Some?
  }

  function Enter(s: Sys, k: Key, conn: Option<Connection>): Sys {
    if conn.Some? then SetEntry(s, k, Entry(conn.value, None)) else s
  }

  function Answered(s: Sys, p: Option<Packet>): Sys {
    if p.Some? then Post(s, p.value) else s
  }

  /** A served request's answer, from the node that served it. */
  function ConnectReply(packet: Packet, response: Option<ConnectResponse>): Option<Packet> {
    if response.None? then None
    else Some(Packet(packet.to, packet.from, Some(packet.body), ConnectResp(response.value)))
  }

  function WitnessReply(packet: Packet, response: Option<WitnessResponse>): Option<Packet> {
    if response.None? then None
    else Some(Packet(packet.to, packet.from, Some(packet.body), WitnessResp(response.value)))
  }

  function AfterVerdictConnect(s: Sys, pid: nat, packet: Packet, r: ConnectRequest, v: Verdict<ConnectResponse>): Sys
    requires r.sender.Some? && r.receiver.Some?
  {
    var k := Key(packet.to, r.connectionID);
    var served := ServedConnect(packet.to, k in s.entries, r, v);
    var s1 := Enter(s, k, served.entered);
    var chooser := Thread(packet.to, r.connectionID, Chooser(r.selector), Queued);
    var s2 := if served.starts then Spawn(s1, pid, chooser) else s1;
    Answered(s2, ConnectReply(packet, served.response))
  }

  function DoServeConnect(c: Channel, s: Sys, pid: nat, packet: Packet, found: Lookups, user: Reply<ConnectResponse>): Sys
    requires CanServeConnect(c, s, pid, packet)
  {
    var r := c(packet.body).value.connectRequest;
    AfterVerdictConnect(s, pid, packet, r, ConnectVerdict(packet.to, packet.from, r, found, user))
  }

  predicate CanServeWitness(c: Channel, s: Sys, pid: nat, packet: Packet) {
    && pid !in s.threads && packet in s.net && packet.body.WitnessReq?
    && c(packet.body).Some? && c(packet.body).value.WitnessReq?
    && var r := c(packet.body).value.witnessRequest;
       r.sender.Some? && r.receiver.Some?
  }

  /** The adapter up to Accept; the thread left behind names the witness in a second store update. */
  function AfterVerdictWitness(s: Sys, pid: nat, packet: Packet, r: WitnessRequest, v: Verdict<WitnessResponse>): Sys
    requires r.sender.Some? && r.receiver.Some?
  {
    var k := Key(packet.to, r.connectionID);
    var served := ServedWitness(k in s.entries, r, v);
    var s1 := Enter(s, k, served.entered);
    var s2 :=
      if served.starts then
        Spawn(s1, pid, Thread(packet.to, r.connectionID, Witnesser(packet.from, packet.body, v.response), Queued))
      else s1;
    Answered(s2, WitnessReply(packet, served.response))
  }

  function DoServeWitness(c: Channel, s: Sys, pid: nat, packet: Packet, found: Lookups, user: Reply<WitnessResponse>): Sys
    requires CanServeWitness(c, s, pid, packet)
  {
    var r := c(packet.body).value.witnessRequest;
    AfterVerdictWitness(s, pid, packet, r, WitnessVerdict(packet.to, packet.from, r, found, user))
  }

  predicate CanNameSelf(s: Sys, pid: nat) {
    HasThread(s, pid) && s.threads[pid].role.Witnesser? && s.threads[pid].phase.Queued? && Free(s, KeyOf(s.threads[pid]))
  }

  function DoNameSelf(s: Sys, pid: nat, self: Lookup): Sys
    requires CanNameSelf(s, pid)
  {
    var t := s.threads[pid];
    var k := KeyOf(t);
    if self.Found? then
      var s1 := SetEntry(SetPhase(s, pid, Finished), k, Entry(s.entries[k].conn.SetWitness(t.node), None));
      Post(s1, Packet(t.node, t.role.to, Some(t.role.re), WitnessResp(t.role.response)))
    else
      var failure := WitnessResponse(t.id, [self.message], false, []);
      Post(SetPhase(s, pid, Finished), Packet(t.node, t.role.to, Some(t.role.re), WitnessResp(failure)))
  }

  predicate CanServeNotification(c: Channel, s: Sys, packet: Packet) {
    && packet in s.net && packet.body.Notification?
    && c(packet.body).Some? && c(packet.body).value.Notification?
    && Free(s, Key(packet.to, c(packet.body).value.notification.connectionID))
  }

  function DoServeNotification(c: Channel, s: Sys, packet: Packet, selfFound: bool, userOk: bool): Sys
    requires CanServeNotification(c, s, packet)
  {
    var n := c(packet.body).value.notification;
    var k := Key(packet.to, n.connectionID);
    SetEntry(s, k, Entry(AfterNotification(packet.to, packet.from, s.entries[k].conn, n, selfFound, userOk), None))
  }

  predicate CanServeClose(c: Channel, s: Sys, packet: Packet) {
    && packet in s.net && packet.body.CloseReq?
    && c(packet.body).Some? && c(packet.body).value.CloseReq?
    && Free(s, Key(packet.to, c(packet.body).value.closeRequest.connectionID))
  }

  function DoServeClose(c: Channel, s: Sys, packet: Packet, userOk: bool): Sys
    requires CanServeClose(c, s, packet)
  {
    var k := Key(packet.to, c(packet.body).value.closeRequest.connectionID);
    SetEntry(s, k, Entry(AfterCloseRequest(s.entries[k].conn, userOk), None))
  }

  // Events

  datatype Event =
    | Connect(pid: nat, node: PeerID, receiver: PeerID, selector: WitnessSelector, id: ConnID)
    | BeginClose(pid: nat, node: PeerID, id: ConnID)
    | Acquire(pid: nat)
    | Abandon(pid: nat)
    | Commit(pid: nat)
    | RequestReceiver(pid: nat)
    | TakeReceiverAnswer(pid: nat, answer: Packet)
    | Choose(pid: nat, candidates: seq<PeerID>)
    | Ask(pid: nat)
    | GiveUp(pid: nat)
    | TakeCandidateAnswer(pid: nat, answer: Packet)
    | FailCandidate(pid: nat)
    | Notify(pid: nat, sent: bool, ok: bool)
    | StartClose(pid: nat)
    | TellOne(pid: nat, sent: bool, ok: bool)
    | EndTelling(pid: nat)
    | ServeConnect(pid: nat, packet: Packet, found: Lookups, userConnect: Reply<ConnectResponse>)
    | ServeWitness(pid: nat, packet: Packet, found: Lookups, userWitness: Reply<WitnessResponse>)
    | NameSelf(pid: nat, self: Lookup)
    | ServeNotification(packet: Packet, selfFound: bool, userOk: bool)
    | ServeClose(packet: Packet, userOk: bool)

  predicate Enabled(c: Channel, s: Sys, e: Event) {
    match e
    case Connect(pid, node, receiver, w, id) => CanConnect(s, pid, node, id)
    case BeginClose(pid, node, id) => CanBeginClose(s, pid, node, id)
    case Acquire(pid) => CanAcquire(s, pid)
    case Abandon(pid) => CanAbandon(s, pid)
    case Commit(pid) => CanCommit(s, pid)
    case RequestReceiver(pid) => CanRequestReceiver(s, pid)
    case TakeReceiverAnswer(pid, answer) => CanTakeReceiverAnswer(c, s, pid, answer)
    case Choose(pid, candidates) => CanChoose(s, pid, candidates)
    case Ask(pid) => CanAsk(s, pid)
    case GiveUp(pid) => CanGiveUp(s, pid)
    case TakeCandidateAnswer(pid, answer) => CanTakeCandidateAnswer(c, s, pid, answer)
    case FailCandidate(pid) => CanFailCandidate(s, pid)
    case Notify(pid, sent, ok) => CanNotify(s, pid, sent, ok)
    case StartClose(pid) => CanStartClose(s, pid)
    case TellOne(pid, sent, ok) => CanTellOne(s, pid, sent, ok)
    case EndTelling(pid) => CanEndTelling(s, pid)
    case ServeConnect(pid, packet, found, user) => CanServeConnect(c, s, pid, packet)
    case ServeWitness(pid, packet, found, user) => CanServeWitness(c, s, pid, packet)
    case NameSelf(pid, self) => CanNameSelf(s, pid)
    case ServeNotification(packet, selfFound, userOk) => CanServeNotification(c, s, packet)
    case ServeClose(packet, userOk) => CanServeClose(c, s, packet)
  }

  function Next(c: Channel, s: Sys, e: Event): Sys
    requires Enabled(c, s, e)
  {
    match e
    case Connect(pid, node, receiver, w, id) => DoConnect(s, pid, node, receiver, w, id)
    case BeginClose(pid, node, id) => DoBeginClose(s, pid, node, id)
    case Acquire(pid) => DoAcquire(s, pid)
    case Abandon(pid) => DoAbandon(s, pid)
    case Commit(pid) => DoCommit(s, pid)
    case RequestReceiver(pid) => DoRequestReceiver(s, pid)
    case TakeReceiverAnswer(pid, answer) => DoTakeReceiverAnswer(c, s, pid, answer)
    case Choose(pid, candidates) => DoChoose(s, pid, candidates)
    case Ask(pid) => DoAsk(s, pid)
    case GiveUp(pid) => DoGiveUp(s, pid)
    case TakeCandidateAnswer(pid, answer) => DoTakeCandidateAnswer(c, s, pid, answer)
    case FailCandidate(pid) => DoFailCandidate(s, pid)
    case Notify(pid, sent, ok) => DoNotify(s, pid, sent, ok)
    case StartClose(pid) => DoStartClose(s, pid)
    case TellOne(pid, sent, ok) => DoTellOne(s, pid, sent, ok)
    case EndTelling(pid) => DoEndTelling(s, pid)
    case ServeConnect(pid, packet, found, user) => DoServeConnect(c, s, pid, packet, found, user)
    case ServeWitness(pid, packet, found, user) => DoServeWitness(c, s, pid, packet, found, user)
    case NameSelf(pid, self) => DoNameSelf(s, pid, self)
    case ServeNotification(packet, selfFound, userOk) => DoServeNotification(c, s, packet, selfFound, userOk)
    case ServeClose(packet, userOk) => DoServeClose(c, s, packet, userOk)
  }

  // Runs

  ghost predicate Step(c: Channel, s: Sys, e: Event, s': Sys) {
    Enabled(c, s, e) && s' == Next(c, s, e)
  }

  /** A run from any state: consecutive states are joined by the event between them. */
  ghost predicate IsRun(c: Channel, states: seq<Sys>, events: seq<Event>) {
    && |states| == |events| + 1
    && forall i :: 0 <= i < |events| ==> Step(c, states[i], events[i], states[i + 1])
  }

  ghost predicate Reachable(c: Channel, s: Sys) {
    exists states: seq<Sys>, events: seq<Event> ::
      IsRun(c, states, events) && states[0] == Initial() && states[|events|] == s
  }
}
