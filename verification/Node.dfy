/** The node's own operations, in the order and with the loops the Go methods have. Each is tied to
    the phases and decisions that the protocol's steps are made of. What the surroundings answer
    comes in as parameters: the k-th exchange, lookup or send gets the k-th answer. */
module Node {
  import opened Types
  import opened Rules
  import opened ConnectionStore
  import P = Protocol

  // Choosing a witness

  datatype Assessment = Trusted | Distrusted | AssessmentFailed

  /** The peers a node may ask, in peer-store order: neither end, and trusted. */
  function Eligible(peers: seq<PeerID>, conn: Connection, assess: PeerID -> Assessment): (cs: seq<PeerID>)
    ensures forall p :: p in cs <==> p in peers && p != conn.receiver && p != conn.sender && assess(p) == Trusted
  {
    if peers == [] then []
    else
      var p := peers[|peers| - 1];
      var front := Eligible(peers[..|peers| - 1], conn, assess);
      if p != conn.receiver && p != conn.sender && assess(p) == Trusted then front + [p] else front
  }

  function OneEligible(p: PeerID, conn: Connection, assess: PeerID -> Assessment): seq<PeerID> {
    if p != conn.receiver && p != conn.sender && assess(p) == Trusted then [p] else []
  }

  lemma EligibleNext(peers: seq<PeerID>, p: PeerID, conn: Connection, assess: PeerID -> Assessment)
    ensures Eligible(peers + [p], conn, assess) == Eligible(peers, conn, assess) + OneEligible(p, conn, assess)
  {
    assert (peers + [p])[..|peers|] == peers;
  }

  lemma {:induction false} EligibleConcat(
    front: seq<PeerID>, back: seq<PeerID>, conn: Connection, assess: PeerID -> Assessment)
    ensures Eligible(front + back, conn, assess) == Eligible(front, conn, assess) + Eligible(back, conn, assess)
  {
    if back == [] {
      assert front + back == front;
    } else {
      LastMoved(front, back);
      var (init, last) := (back[..|back| - 1], back[|back| - 1]);
      EligibleConcat(front, init, conn, assess);
      EligibleNext(front + init, last, conn, assess);
      EligibleNext(init, last, conn, assess);
    }
  }

  lemma LastMoved<T>(front: seq<T>, back: seq<T>)
    requires back != []
    ensures back == back[..|back| - 1] + [back[|back| - 1]]
    ensures front + back == front + back[..|back| - 1] + [back[|back| - 1]]
  {
  }

  /** The peers keep their order, and each is there as often as it is listed. */
  lemma EligibleInOrder(front: seq<PeerID>, p: PeerID, back: seq<PeerID>, conn: Connection, assess: PeerID -> Assessment)
    ensures Eligible([], conn, assess) == []
    ensures Eligible(front + [p] + back, conn, assess) ==
      Eligible(front, conn, assess)
      + (if p != conn.receiver && p != conn.sender && assess(p) == Trusted then [p] else [])
      + Eligible(back, conn, assess)
  {
    EligibleConcat(front + [p], back, conn, assess);
    EligibleNext(front, p, conn, assess);
  }

  method WitnessCandidates(peers: Result<seq<PeerID>>, conn: Connection, assess: PeerID -> Assessment)
    returns (candidates: Result<seq<PeerID>>)
    ensures candidates == if peers.Err? then Err(peers.message) else Ok(Eligible(peers.value, conn, assess))
  {
    if peers.Err? {
      return Err(peers.message);
    }
    var ps := peers.value;
    var cs := [];
    for i := 0 to |ps|
      invariant cs == Eligible(ps[..i], conn, assess)
    {
      assert ps[..i + 1][..i] == ps[..i];
      var p := ps[i];
      if p == conn.receiver || p == conn.sender {
        continue;
      }
      if assess(p) == Trusted {
        cs := cs + [p];
      }
    }
    assert ps[..|ps|] == ps;
    candidates := Ok(cs);
  }

  /** The answer to the i-th witness request of a search; None when the exchange failed. */
  type Replies = nat -> Option<WitnessResponse>

  predicate Grants(id: ConnID, replies: Replies, i: nat) {
    replies(i).Some? && WitnessGranted(id, replies(i).value)
  }

  /** Of the first exchanges, bound in number, the n-th is the first that brings a grant; n is the bound when none does. */
  ghost predicate FirstGrant(id: ConnID, replies: Replies, n: nat, bound: nat) {
    && n <= bound
    && (forall j: nat :: j < n ==>
          replies(j) == None || replies(j).value.connectionID != id || replies(j).value.errors != []
          || !replies(j).value.accepted)
    && (n < bound ==>
          replies(n).Some? && replies(n).value.connectionID == id && replies(n).value.errors == [] && replies(n).value.accepted)
  }

  /** The first candidate in order whose request succeeds, after all earlier ones were tried; without one
      the connection is left requesting. */
  method FindWitness(conn: Connection, peers: Result<seq<PeerID>>, assess: PeerID -> Assessment, replies: Replies)
    returns (updated: Connection, failed: bool, asked: seq<PeerID>)
    ensures
      var candidates := if peers.Ok? then Eligible(peers.value, conn, assess) else [];
      if failed then
        && updated == conn.(status := RequestingWitness) && asked == candidates
        && forall i: nat :: i < |candidates| ==>
             replies(i) == None || replies(i).value.connectionID != conn.id || replies(i).value.errors != []
             || !replies(i).value.accepted
      else
        && 0 < |asked| && asked <= candidates
        && updated == conn.(wit := Some(asked[|asked| - 1]), status := RequestingWitness)
        && (forall i: nat :: i < |asked| - 1 ==>
              replies(i) == None || replies(i).value.connectionID != conn.id || replies(i).value.errors != []
              || !replies(i).value.accepted)
        && replies(|asked| - 1).Some?
        && var answer := replies(|asked| - 1).value;
           answer.connectionID == conn.id && answer.errors == [] && answer.accepted
  {
    var requesting := conn.SetStatus(RequestingWitness);
    asked := [];
    var candidates := WitnessCandidates(peers, requesting, assess);
    assert peers.Ok? ==> Eligible(peers.value, requesting, assess) == Eligible(peers.value, conn, assess) by {
      if peers.Ok? {
        EligibleIgnoresStatus(peers.value, conn, RequestingWitness, assess);
      }
    }
    if candidates.Err? {
      return requesting, true, asked;
    }
    var cs := candidates.value;
    for i := 0 to |cs|
      invariant asked == cs[..i]
      invariant forall j: nat :: j < i ==>
        replies(j) == None || replies(j).value.connectionID != conn.id || replies(j).value.errors != []
        || !replies(j).value.accepted
    {
      asked := asked + [cs[i]];
      if Grants(conn.id, replies, i) {
        return requesting.SetWitness(cs[i]), false, asked;
      }
    }
    updated, failed := requesting, true;
  }

  lemma {:induction false} EligibleIgnoresStatus(
    peers: seq<PeerID>, conn: Connection, st: Status, assess: PeerID -> Assessment)
    ensures Eligible(peers, conn.SetStatus(st), assess) == Eligible(peers, conn, assess)
  {
    if peers != [] {
      EligibleIgnoresStatus(peers[..|peers| - 1], conn, st, assess);
    }
  }

  /** What a selection's surroundings answer. */
  datatype Surroundings = Surroundings(
    selfFound: bool, peers: Result<seq<PeerID>>, assess: PeerID -> Assessment, replies: Replies, notified: bool)

  function Candidates(conn: Connection, w: Surroundings): seq<PeerID> {
    if w.peers.Ok? then Eligible(w.peers.value, conn, w.assess) else []
  }

  /** The protocol's search phases, answered by the given replies from the i-th on. */
  function Search(ph: P.Phase, replies: Replies, i: nat): P.Phase
    decreases if ph.Asking? then |ph.rest| else 0
  {
    if ph.Asking? && ph.rest != [] then
      Search(P.AnswerPhase(ph.conn, ph.rest[0], ph.rest[1..], Grants(ph.conn.id, replies, i)), replies, i + 1)
    else if ph.Asking? then P.Settling(ph.conn)
    else ph
  }

  /** The connection the protocol's phases settle on, and whether an error is reported with it. */
  function Selection(self: PeerID, conn: Connection, s: WitnessSelector, w: Surroundings): Written<Connection> {
    if !w.selfFound then Written(None, true)
    else match Search(P.ChoosePhase(self, conn, s, Candidates(conn, w)), w.replies, 0)
      case Notifying(named) => Written(Some(P.NotifyPhase(named, w.notified).conn), !w.notified)
      case Settling(settled) => Written(Some(settled), s == NilSelector || Chooses(self, conn, s))
      case _ => Written(None, true)
  }

  /** Where the phases of a search end: at the first candidate that grants, or requesting still. */
  lemma {:induction false} SearchEnds(conn: Connection, rest: seq<PeerID>, replies: Replies, i: nat, n: nat)
    requires i <= n <= i + |rest|
    requires forall j: nat :: i <= j < n ==> !Grants(conn.id, replies, j)
    requires n < i + |rest| ==> Grants(conn.id, replies, n)
    ensures Search(P.Asking(conn, rest), replies, i) ==
      if n < i + |rest| then P.Notifying(conn.SetWitness(rest[n - i]).SetStatus(NotifyingOfWitness)) else P.Settling(conn)
    decreases |rest|
  {
    if i < n {
      SearchEnds(conn, rest[1..], replies, i + 1, n);
    }
  }

  /** A choosing side's result, given which of its candidates is the first to grant. */
  lemma SelectionEnds(self: PeerID, conn: Connection, s: WitnessSelector, w: Surroundings, n: nat)
    requires w.selfFound
    requires (s == SenderSelects && self == conn.sender) || (s == ReceiverSelects && self == conn.receiver)
    requires FirstGrant(conn.id, w.replies, n, |Candidates(conn, w)|)
    ensures
      var cs := Candidates(conn, w);
      Selection(self, conn, s, w) ==
        if n == |cs| then Written(Some(conn.(status := RequestingWitness)), true)
        else if w.notified then Written(Some(conn.(wit := Some(cs[n]), status := Open)), false)
        else Written(Some(conn.(wit := Some(cs[n]), status := NotifyingOfWitness)), true)
  {
    SearchEnds(conn.SetStatus(RequestingWitness), Candidates(conn, w), w.replies, 0, n);
  }

  method HandleWitnessSelection(self: PeerID, conn: Connection, s: WitnessSelector, w: Surroundings)
    returns (result: Written<Connection>)
    ensures result == Selection(self, conn, s, w)
    ensures !w.selfFound ==> result == Written(None, true)
    ensures w.selfFound && s == NilSelector ==> result == Written(Some(conn), true)
    ensures w.selfFound && ((s == SenderSelects && self != conn.sender) || (s == ReceiverSelects && self != conn.receiver)) ==>
      result == Written(Some(conn.(status := AwaitingWitness)), false)
  {
    if !w.selfFound {
      return Written(None, true);
    }
    var named: Connection;
    match s {
      case SenderSelects =>
        if self != conn.sender {
          return Written(Some(conn.SetStatus(AwaitingWitness)), false);
        }
      case ReceiverSelects =>
        if self != conn.receiver {
          return Written(Some(conn.SetStatus(AwaitingWitness)), false);
        }
      case NilSelector =>
        return Written(Some(conn), true);
    }
    var failed: bool, asked: seq<PeerID>;
    named, failed, asked := FindWitness(conn, w.peers, w.assess, w.replies);
    SelectionEnds(self, conn, s, w, if failed then |asked| else |asked| - 1);
    if failed {
      return Written(Some(named), true);
    }
    named := named.SetStatus(NotifyingOfWitness);
    if !w.notified {
      return Written(Some(named), true);
    }
    result := Written(Some(named.SetStatus(Open)), false);
  }

  /** What a selection may persist: waiting for the other side, still requesting, notifying or open with one
      of the eligible peers, or nothing. */
  lemma SelectionResult(self: PeerID, conn: Connection, s: WitnessSelector, w: Surroundings)
    requires Selection(self, conn, s, w).updated.Some? && s != NilSelector
    ensures
      var u := Selection(self, conn, s, w).updated.value;
      if self != (if s == SenderSelects then conn.sender else conn.receiver) then u == conn.(status := AwaitingWitness)
      else
        || u == conn.(status := RequestingWitness)
        || exists p ::
             && p in w.peers.value && p != conn.sender && p != conn.receiver && w.assess(p) == Trusted
             && u == conn.(wit := Some(p), status := if w.notified then Open else NotifyingOfWitness)
  {
    if Chooses(self, conn, s) {
      var cs := Candidates(conn, w);
      var n := NextGrant(conn.id, w.replies, 0, |cs|);
      assert FirstGrant(conn.id, w.replies, n, |cs|);
      SelectionEnds(self, conn, s, w, n);
      if n < |cs| {
        assert cs[n] in cs;
      }
    }
  }

  lemma {:induction false} NextGrant(id: ConnID, replies: Replies, i: nat, bound: nat) returns (n: nat)
    requires i <= bound
    ensures i <= n <= bound
    ensures forall j: nat :: i <= j < n ==>
      replies(j) == None || replies(j).value.connectionID != id || replies(j).value.errors != [] || !replies(j).value.accepted
    ensures n < bound ==> Grants(id, replies, n)
    decreases bound - i
  {
    if i == bound || Grants(id, replies, i) {
      n := i;
    } else {
      n := NextGrant(id, replies, i + 1, bound);
    }
  }

  // Closing

  /** The answer to the i-th lookup or send of a fan-out. */
  type Luck = nat -> bool

  /** Some target could not be looked up or told. */
  ghost predicate Missed(n: nat, found: Luck, sent: Luck) {
    exists j: nat :: j < n && !(found(j) && sent(j))
  }

  lemma MissedNext(n: nat, found: Luck, sent: Luck)
    ensures Missed(n + 1, found, sent) <==> Missed(n, found, sent) || !(found(n) && sent(n))
  {
  }

  /** The targets that were found, in order. */
  function Reached(targets: seq<PeerID>, found: Luck): seq<PeerID> {
    if targets == [] then []
    else
      var n := |targets| - 1;
      Reached(targets[..n], found) + if found(n) then [targets[n]] else []
  }

  lemma {:induction false} ReachedHas(targets: seq<PeerID>, found: Luck, p: PeerID)
    ensures p in Reached(targets, found) <==> exists i: nat :: i < |targets| && targets[i] == p && found(i)
  {
    if targets != [] {
      var n := |targets| - 1;
      var init := targets[..n];
      ReachedHas(init, found, p);
      assert forall i: nat :: i < n ==> init[i] == targets[i];
    }
  }

  lemma {:induction false} AllReached(targets: seq<PeerID>, found: Luck)
    requires forall i: nat :: i < |targets| ==> found(i)
    ensures Reached(targets, found) == targets
  {
    if targets != [] {
      var n := |targets| - 1;
      AllReached(targets[..n], found);
      assert targets == targets[..n] + [targets[n]];
    }
  }

  /** Those found, and no others, are reached; when all are found, all in order. */
  lemma ReachedAre(targets: seq<PeerID>, found: Luck)
    ensures forall p :: p in Reached(targets, found) <==> exists i: nat :: i < |targets| && targets[i] == p && found(i)
    ensures (forall i: nat :: i < |targets| ==> found(i)) ==> Reached(targets, found) == targets
  {
    forall p ensures p in Reached(targets, found) <==> exists i: nat :: i < |targets| && targets[i] == p && found(i) {
      ReachedHas(targets, found, p);
    }
    if forall i: nat :: i < |targets| ==> found(i) {
      AllReached(targets, found);
    }
  }

  lemma ReachedNext(targets: seq<PeerID>, p: PeerID, found: Luck)
    ensures Reached(targets + [p], found) == Reached(targets, found) + if found(|targets|) then [p] else []
  {
  }

  lemma {:induction false} OthersAppend(self: PeerID, ps: seq<Option<PeerID>>, p: Option<PeerID>)
    ensures Others(self, ps + [p]) == Others(self, ps) + (if p == None || p == Some(self) then [] else [p.value])
  {
    if ps == [] {
      assert ps + [p] == [p];
    } else {
      OthersAppend(self, ps[1..], p);
      assert (ps + [p])[1..] == ps[1..] + [p];
    }
  }

  /** Every other named participant is looked up and every one found is told, whatever failed before; the
      connection ends Closed when all went well and Closing otherwise. A Closed one is left in silence. */
  method CloseCallback(self: Option<PeerID>, conn: Connection, found: Luck, sent: Luck)
    returns (result: Written<Connection>, lookedUp: seq<PeerID>, told: seq<PeerID>)
    ensures conn.status == Closed ==> result == Written(None, false) && lookedUp == [] && told == []
    ensures conn.status != Closed && self == None ==> result == Written(None, true) && lookedUp == [] && told == []
    ensures conn.status != Closed && self.Some? ==>
      && lookedUp ==
           (if conn.sender != self.value then [conn.sender] else [])
           + (if conn.wit.Some? && conn.wit != self then [conn.wit.value] else [])
           + (if conn.receiver != self.value then [conn.receiver] else [])
    ensures told == Reached(lookedUp, found)
    ensures conn.status != Closed && self.Some? ==>
      result ==
        if exists j: nat :: j < |lookedUp| && !(found(j) && sent(j)) then Written(Some(conn.(status := Closing)), true)
        else Written(Some(conn.(status := Closed)), false)
  {
    lookedUp, told := [], [];
    if conn.status == Closed {
      return Written(None, false), [], [];
    }
    if self == None {
      return Written(None, true), [], [];
    }
    var participants := [Some(conn.sender), conn.wit, Some(conn.receiver)];
    var failed := false;
    for i := 0 to |participants|
      invariant lookedUp == Others(self.value, participants[..i])
      invariant told == Reached(lookedUp, found)
      invariant failed <==> Missed(|lookedUp|, found, sent)
    {
      var id := participants[i];
      OthersAppend(self.value, participants[..i], id);
      assert participants[..i] + [id] == participants[..i + 1];
      if id == self || id == None {
        continue;
      }
      var n := |lookedUp|;
      ReachedNext(lookedUp, id.value, found);
      MissedNext(n, found, sent);
      lookedUp := lookedUp + [id.value];
      if found(n) {
        told := told + [id.value];
      }
      if !found(n) || !sent(n) {
        failed := true;
      }
    }
    assert participants[..|participants|] == participants;
    CloseTargetsAre(self.value, conn);
    if failed {
      result := Written(Some(conn.SetStatus(Closing)), true);
    } else {
      result := Written(Some(conn.SetStatus(Closed)), false);
    }
  }
}
