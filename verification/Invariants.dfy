/** What every step of the protocol keeps. A transport delivers requests and notifications as sent or not at all; the
    parts of the invariant that rest on connect or witness answers are there for the transports that never turn
    such an answer from a refusal into a grant. */
module Invariants {
  import opened Types
  import opened Serde
  import opened Rules
  import opened Protocol

  // Transports

  /** Which answers a transport never turns from a refusal into a grant. */
  datatype Honesty = Honesty(connect: bool, wit: bool)

  const EVERY_ANSWER := Honesty(true, true)

  predicate HonestDelivery(h: Honesty, m: Message, d: Message) {
    match m
    case ConnectResp(r) =>
      && d.ConnectResp?
      && (h.connect ==>
            && d.connectResponse.connectionID == r.connectionID
            && (d.connectResponse.errors == [] && d.connectResponse.accepted ==> r.errors == [] && r.accepted))
    case WitnessResp(r) =>
      && d.WitnessResp?
      && (h.wit ==>
            && d.witnessResponse.connectionID == r.connectionID
            && (d.witnessResponse.errors == [] && d.witnessResponse.accepted ==> r.errors == [] && r.accepted))
    case PeersResp(_) => true
    case _ => d == m
  }

  ghost predicate Honest(h: Honesty, c: Channel, net: set<Packet>) {
    forall p | p in net :: c(p.body).Some? ==> HonestDelivery(h, p.body, c(p.body).value)
  }

  // Parts of the invariant

  predicate Fits(s: Sys, conn: Connection) {
    conn.id in s.origin && conn.sender == s.origin[conn.id].sender && conn.receiver == s.origin[conn.id].receiver
  }

  predicate IsEnd(o: Origin, node: PeerID) {
    node == o.sender || node == o.receiver
  }

  /** Node w has entered the connection with itself as its witness. */
  predicate Witnesses(s: Sys, w: PeerID, id: ConnID) {
    Key(w, id) in s.entries && s.entries[Key(w, id)].conn.wit == Some(w)
  }

  predicate BeforeWitness(st: Status) {
    st == RequestingReceiver || st == AwaitingWitness || st == RequestingWitness
  }

  predicate WithWitness(st: Status) {
    st == NotifyingOfWitness || st == Open
  }

  predicate Ended(st: Status) {
    st == Closing || st == Closed
  }

  /** A connection value as a sender or receiver may store it. */
  predicate EndConn(h: Honesty, s: Sys, node: PeerID, conn: Connection)
    requires conn.id in s.origin
  {
    && (BeforeWitness(conn.status) || WithWitness(conn.status) || Ended(conn.status))
    && (BeforeWitness(conn.status) ==> conn.wit == None)
    && (WithWitness(conn.status) ==> conn.wit.Some?)
    && (conn.wit.Some? ==> conn.id in s.chosen && s.chosen[conn.id] == conn.wit.value)
    && (h.connect && node == s.origin[conn.id].sender && conn.status != RequestingReceiver && !Ended(conn.status) ==>
          Key(s.origin[conn.id].receiver, conn.id) in s.entries)
  }

  /** A connection value as a node outside the two ends may store it. */
  predicate OutsiderConn(node: PeerID, conn: Connection) {
    (conn.status == Open || Ended(conn.status)) && (conn.wit == None || conn.wit == Some(node))
  }

  predicate EntryOK(h: Honesty, s: Sys, k: Key)
    requires k in s.entries
  {
    var conn := s.entries[k].conn;
    && conn.id == k.id && Fits(s, conn)
    && (if IsEnd(s.origin[k.id], k.node) then EndConn(h, s, k.node, conn) else OutsiderConn(k.node, conn))
  }

  predicate OriginOK(s: Sys, id: ConnID)
    requires id in s.origin
  {
    Key(s.origin[id].sender, id) in s.entries
  }

  /** A chosen witness is an outsider, chosen by a party that had the choice; it really accepted. */
  predicate ChosenOK(h: Honesty, s: Sys, id: ConnID)
    requires id in s.chosen
  {
    && id in s.origin && !IsEnd(s.origin[id], s.chosen[id])
    && (h.wit ==> Witnesses(s, s.chosen[id], id))
    && (s.origin[id].selector == ReceiverSelects ==> Key(s.origin[id].receiver, id) in s.entries)
  }

  /** An end of the connection, or the witness chosen for it. */
  predicate Participates(s: Sys, node: PeerID, id: ConnID) {
    (id in s.origin && IsEnd(s.origin[id], node)) || (id in s.chosen && node == s.chosen[id])
  }

  predicate PacketOK(s: Sys, p: Packet) {
    match p.body
    case ConnectReq(r) =>
      && r.connectionID in s.origin
      && var o := s.origin[r.connectionID];
         && p.from == o.sender && p.to == o.receiver
         && r == ConnectRequest(r.connectionID, Some(o.sender), Some(o.receiver), o.selector)
    case ConnectResp(resp) =>
      && p.re.Some? && p.re.value.ConnectReq?
      && (ConnectGranted(resp.connectionID, resp) ==>
            var id := p.re.value.connectRequest.connectionID;
            Key(p.from, id) in s.entries && id in s.origin && p.from != s.origin[id].sender)
    case WitnessReq(r) =>
      && r.connectionID in s.origin
      && var o := s.origin[r.connectionID];
         && IsEnd(o, p.from) && !IsEnd(o, p.to)
         && r == WitnessRequest(r.connectionID, Some(o.sender), Some(o.receiver), o.selector)
    case WitnessResp(resp) =>
      && p.re.Some? && p.re.value.WitnessReq?
      && (WitnessGranted(resp.connectionID, resp) ==> Witnesses(s, p.from, p.re.value.witnessRequest.connectionID))
    case Notification(n) =>
      && n.connectionID in s.chosen && n.wit == Some(s.chosen[n.connectionID]) && n.connectionID in s.origin
      && (var o := s.origin[n.connectionID];
          if o.selector == SenderSelects then p.from == o.sender && p.to == o.receiver
          else p.from == o.receiver && p.to == o.sender)
    case CloseReq(r) => Key(p.from, r.connectionID) in s.entries && p.to != p.from && Participates(s, p.to, r.connectionID)
    case _ => true
  }

  predicate IsSelection(t: Thread) {
    t.role.Connector? || t.role.Chooser?
  }

  predicate Pending(t: Thread) {
    IsSelection(t) && t.phase != Finished
  }

  /** The selection threads that may name a witness. */
  predicate MayChoose(s: Sys, t: Thread) {
    || t.role.Chooser?
    || (t.role.Connector? && t.id in s.origin
        && var o := s.origin[t.id];
           t.role.selector == SenderSelects || (t.role.selector == ReceiverSelects && o.sender == o.receiver))
  }

  /** What a grant tells about the receiver. */
  predicate ReceiverEntered(h: Honesty, s: Sys, id: ConnID)
    requires id in s.origin
  {
    h.connect ==> s.origin[id].receiver != s.origin[id].sender && Key(s.origin[id].receiver, id) in s.entries
  }

  predicate BeforeChoice(ph: Phase) {
    ph.Queued? || ph.Entered? || ph.AwaitingReceiver? || ph.Choosing? || ph.Asking? || ph.AwaitingCandidate?
  }

  predicate Outsiders(o: Origin, ps: seq<PeerID>) {
    forall p :: p in ps ==> !IsEnd(o, p)
  }

  predicate RoleOK(s: Sys, t: Thread)
    requires t.id in s.origin
  {
    var o := s.origin[t.id];
    match t.role
    case Connector(w) => t.node == o.sender && w == o.selector
    case Chooser(w) => t.node == o.receiver != o.sender && w == o.selector == ReceiverSelects
    case Witnesser(_, re, _) => !IsEnd(o, t.node) && re.WitnessReq? && re.witnessRequest.connectionID == t.id
    case Closer => true
  }

  /** The working connection of a thread that holds the lock of entry e. */
  predicate PhaseOK(h: Honesty, s: Sys, t: Thread, committed: Connection)
    requires t.id in s.origin && committed.id == t.id
  {
    var o := s.origin[t.id];
    match t.phase
    case Queued => true
    case Finished => true
    case Entered(conn) => (t.role.Connector? || t.role.Closer?) && conn == committed
    case AwaitingReceiver(conn) => t.role.Connector? && conn == committed
    case Choosing(conn) => IsSelection(t) && conn == committed && ReceiverEntered(h, s, t.id)
    case Asking(conn, rest) =>
      && MayChoose(s, t) && Fits(s, conn) && conn.id == t.id && conn.status == RequestingWitness && conn.wit == None
      && Outsiders(o, rest) && ReceiverEntered(h, s, t.id)
    case AwaitingCandidate(conn, p, rest) =>
      && MayChoose(s, t) && Fits(s, conn) && conn.id == t.id && conn.status == RequestingWitness && conn.wit == None
      && !IsEnd(o, p) && Outsiders(o, rest) && ReceiverEntered(h, s, t.id)
    case Notifying(conn) =>
      && MayChoose(s, t) && Fits(s, conn) && conn.id == t.id && conn.status == NotifyingOfWitness
      && t.id in s.chosen && conn.wit == Some(s.chosen[t.id]) && ReceiverEntered(h, s, t.id)
    case FanOut(conn, rest, _) =>
      && t.role.Closer? && conn == committed && conn.status != Closed
      && forall p :: p in rest ==> p != t.node && Participates(s, p, t.id)
    case Settling(conn) =>
      if t.role.Closer? then
        committed.status != Closed && (conn == committed.SetStatus(Closing) || conn == committed.SetStatus(Closed))
      else IsSelection(t) && conn.id == t.id && Fits(s, conn) && EndConn(h, s, t.node, conn)
  }

  predicate Holding(ph: Phase) {
    ph != Queued && ph != Finished
  }

  predicate ThreadOK(h: Honesty, s: Sys, pid: nat)
    requires pid in s.threads
  {
    var t := s.threads[pid];
    && KeyOf(t) in s.entries && t.id in s.origin && RoleOK(s, t)
    && var e := s.entries[KeyOf(t)];
       && e.conn.id == t.id
       && PhaseOK(h, s, t, e.conn)
       && (Holding(t.phase) ==> e.holder == Some(pid))
       && (MayChoose(s, t) && BeforeChoice(t.phase) ==> t.id !in s.chosen)
       && (t.role.Connector? && t.phase != Finished ==>
             (e.conn.status == RequestingReceiver || Ended(e.conn.status)) && e.conn.wit == None)
  }

  /** Each entry has at most one selection thread. */
  ghost predicate OneSelection(s: Sys) {
    forall p, q | p in s.threads && q in s.threads && IsSelection(s.threads[p]) && IsSelection(s.threads[q])
      && KeyOf(s.threads[p]) == KeyOf(s.threads[q]) :: p == q
  }

  ghost predicate Inv(h: Honesty, s: Sys) {
    && (forall id {:trigger OriginOK(s, id)} | id in s.origin :: OriginOK(s, id))
    && (forall id {:trigger ChosenOK(h, s, id)} | id in s.chosen :: ChosenOK(h, s, id))
    && (forall k {:trigger EntryOK(h, s, k)} | k in s.entries :: EntryOK(h, s, k))
    && (forall pid {:trigger ThreadOK(h, s, pid)} | pid in s.threads :: ThreadOK(h, s, pid))
    && (forall p {:trigger PacketOK(s, p)} | p in s.net :: PacketOK(s, p))
    && OneSelection(s)
  }

  lemma ChosenHas(h: Honesty, s: Sys, id: ConnID)
    requires Inv(h, s) && id in s.chosen
    ensures ChosenOK(h, s, id)
  {
  }

  // Growth: what the parts of the invariant about untouched things need

  ghost predicate Grows(s: Sys, s': Sys) {
    && (forall id | id in s.origin :: id in s'.origin && s'.origin[id] == s.origin[id])
    && (forall id | id in s.chosen :: id in s'.chosen && s'.chosen[id] == s.chosen[id])
    && (forall k | k in s.entries :: k in s'.entries)
    && (forall k | k in s.entries && s.entries[k].conn.wit == Some(k.node) :: s'.entries[k].conn.wit == Some(k.node))
  }

  lemma PacketGrows(s: Sys, s': Sys, p: Packet)
    requires Grows(s, s') && PacketOK(s, p)
    ensures PacketOK(s', p)
  {
  }

  lemma ChosenGrows(h: Honesty, s: Sys, s': Sys, id: ConnID)
    requires Grows(s, s') && id in s.chosen && ChosenOK(h, s, id)
    ensures ChosenOK(h, s', id)
  {
  }

  lemma EntryGrows(h: Honesty, s: Sys, s': Sys, k: Key)
    requires Grows(s, s') && k in s.entries && EntryOK(h, s, k) && s'.entries[k].conn == s.entries[k].conn
    ensures EntryOK(h, s', k)
  {
  }

  lemma ThreadGrows(h: Honesty, s: Sys, s': Sys, pid: nat)
    requires Grows(s, s') && pid in s.threads && ThreadOK(h, s, pid)
    requires pid in s'.threads && s'.threads[pid] == s.threads[pid]
    requires s'.entries[KeyOf(s.threads[pid])] == s.entries[KeyOf(s.threads[pid])]
    requires MayChoose(s, s.threads[pid]) && BeforeChoice(s.threads[pid].phase) ==> s.threads[pid].id !in s'.chosen
    ensures ThreadOK(h, s', pid)
  {
  }

  /** Everything except what a step touched: entry k, thread pid and the new packets. */
  lemma Frame(h: Honesty, s: Sys, s': Sys, k: Option<Key>, pid: Option<nat>)
    requires Inv(h, s) && Grows(s, s')
    requires forall id | id in s'.origin && id !in s.origin :: OriginOK(s', id)
    requires forall id | id in s'.chosen && id !in s.chosen :: ChosenOK(h, s', id)
    requires forall j | j in s'.entries && Some(j) != k :: j in s.entries && s'.entries[j] == s.entries[j]
    requires forall q | q in s'.threads && Some(q) != pid :: q in s.threads && s'.threads[q] == s.threads[q]
    requires forall q {:trigger ThreadOK(h, s', q)} | q in s'.threads && (Some(q) == pid || Some(KeyOf(s'.threads[q])) == k
      || (s'.threads[q].id in s'.chosen && s'.threads[q].id !in s.chosen)) :: ThreadOK(h, s', q)
    requires k.Some? && k.value in s'.entries ==> EntryOK(h, s', k.value)
    requires forall p | p in s'.net && p !in s.net :: PacketOK(s', p)
    requires OneSelection(s')
    ensures Inv(h, s')
  {
    forall id | id in s'.origin ensures OriginOK(s', id) {
      if id in s.origin {
        assert OriginOK(s, id);
      }
    }
    forall id | id in s'.chosen ensures ChosenOK(h, s', id) {
      if id in s.chosen {
        ChosenGrows(h, s, s', id);
      }
    }
    forall j | j in s'.entries ensures EntryOK(h, s', j) {
      if Some(j) != k {
        EntryGrows(h, s, s', j);
      }
    }
    forall q | q in s'.threads ensures ThreadOK(h, s', q) {
      if Some(q) != pid && Some(KeyOf(s'.threads[q])) != k
        && !(s'.threads[q].id in s'.chosen && s'.threads[q].id !in s.chosen) {
        assert ThreadOK(h, s, q);
        ThreadGrows(h, s, s', q);
      }
    }
    forall p | p in s'.net ensures PacketOK(s', p) {
      if p in s.net {
        PacketGrows(s, s', p);
      }
    }
  }
}
