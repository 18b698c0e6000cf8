/** One thread of the protocol, run alone from the call to the end, does to its node's store what the node's
    method does. Answers that others send are in the network from the start; a failed exchange takes none. */
module Solo {
  import opened Types
  import opened Rules
  import opened Serde
  import opened ConnectionStore
  import opened Node
  import opened NodeService
  import opened Protocol
  import opened Runs

  /** The events of one thread. */
  function By(pid: nat): EventKind {
    (e: Event) => IsBy(e, pid)
  }

  // What a run of one thread leaves

  /** The thread got to a phase and touched no entry. */
  ghost predicate Moves(s: Sys, s': Sys, pid: nat, ph: Phase) {
    && pid in s.threads && s'.threads == s.threads[pid := s.threads[pid].(phase := ph)]
    && s'.entries == s.entries && s.net <= s'.net
  }

  /** The thread finished, leaving its entry free with this connection. */
  ghost predicate Ends(s: Sys, s': Sys, pid: nat, conn: Connection) {
    && pid in s.threads && s'.threads == s.threads[pid := s.threads[pid].(phase := Finished)]
    && s'.entries == s.entries[KeyOf(s.threads[pid]) := Entry(conn, None)] && s.net <= s'.net
  }

  function Committed(s: Sys, pid: nat): Connection
    requires HasThread(s, pid)
  {
    s.entries[KeyOf(s.threads[pid])].conn
  }

  function Resulting(conn: Connection, w: Written<Connection>): Connection {
    if w.updated.Some? then w.updated.value else conn
  }

  lemma EndingMoves(s: Sys, s': Sys, s'': Sys, pid: nat, ph: Phase, conn: Connection)
    requires Moves(s, s', pid, ph) && Ends(s', s'', pid, conn)
    ensures Ends(s, s'', pid, conn)
  {
    assert s.threads[pid := s.threads[pid].(phase := ph)][pid := s.threads[pid].(phase := Finished)]
        == s.threads[pid := s.threads[pid].(phase := Finished)];
  }

  // The search for a witness

  function AnswerFrom(t: Thread, conn: Connection, p: PeerID, resp: WitnessResponse): Packet
    requires IsSelectionRole(t.role)
  {
    Packet(p, t.node, Some(WitnessReq(WitnessRequestFor(conn, t.role.selector))), WitnessResp(resp))
  }

  predicate IsSelectionRole(r: Role) {
    r.Connector? || r.Chooser?
  }

  /** The answer to each exchange from the i-th on, where there is one, is in the network. */
  ghost predicate WitnessAnswers(s: Sys, t: Thread, conn: Connection, candidates: seq<PeerID>, replies: Replies, i: nat)
    requires IsSelectionRole(t.role)
  {
    forall j: nat | j < |candidates| && replies(i + j).Some? ::
      AnswerFrom(t, conn, candidates[j], replies(i + j).value) in s.net
  }

  /** One exchange with the first candidate. */
  lemma AskOne(s: Sys, pid: nat, replies: Replies, i: nat) returns (s': Sys)
    requires Selects(s, pid) && s.threads[pid].phase.Asking? && s.threads[pid].phase.rest != []
    requires
      var t := s.threads[pid];
      replies(i).Some? ==> AnswerFrom(t, t.phase.conn, t.phase.rest[0], replies(i).value) in s.net
    ensures Leads(Direct(), By(pid), s, s')
    ensures
      var Asking(conn, rest) := s.threads[pid].phase;
      Moves(s, s', pid, AnswerPhase(conn, rest[0], rest[1..], Grants(conn.id, replies, i)))
  {
    var s1 := DoAsk(s, pid);
    OneStep(Direct(), By(pid), s, Ask(pid));
    var t := s.threads[pid];
    if replies(i).Some? {
      var answer := AnswerFrom(t, t.phase.conn, t.phase.rest[0], replies(i).value);
      s' := DoTakeCandidateAnswer(Direct(), s1, pid, answer);
      OneStep(Direct(), By(pid), s1, TakeCandidateAnswer(pid, answer));
    } else {
      s' := DoFailCandidate(s1, pid);
      OneStep(Direct(), By(pid), s1, FailCandidate(pid));
    }
    Onward(Direct(), By(pid), s, s1, s');
  }

  /** The protocol's steps take a searching thread where Search says. */
  lemma {:induction false} SearchRuns(s: Sys, pid: nat, replies: Replies, i: nat) returns (s': Sys)
    requires Selects(s, pid) && s.threads[pid].phase.Asking?
    requires
      var t := s.threads[pid];
      WitnessAnswers(s, t, t.phase.conn, t.phase.rest, replies, i)
    ensures Leads(Direct(), By(pid), s, s') && Moves(s, s', pid, Search(s.threads[pid].phase, replies, i))
    decreases |s.threads[pid].phase.rest|
  {
    var t := s.threads[pid];
    var Asking(conn, rest) := t.phase;
    if rest == [] {
      s' := DoGiveUp(s, pid);
      OneStep(Direct(), By(pid), s, GiveUp(pid));
    } else {
      var s1 := AskOne(s, pid, replies, i);
      if Grants(conn.id, replies, i) {
        s' := s1;
      } else {
        forall j: nat | j < |rest| - 1 && replies(i + 1 + j).Some?
          ensures AnswerFrom(t, conn, rest[1..][j], replies(i + 1 + j).value) in s1.net
        {
          assert AnswerFrom(t, conn, rest[j + 1], replies(i + (j + 1)).value) in s.net;
        }
        s' := SearchRuns(s1, pid, replies, i + 1);
        Onward(Direct(), By(pid), s, s1, s');
      }
    }
  }

  // Selection

  lemma CommitRuns(s: Sys, pid: nat) returns (s': Sys)
    requires HasThread(s, pid) && s.threads[pid].phase.Settling?
    ensures Leads(Direct(), By(pid), s, s') && Ends(s, s', pid, s.threads[pid].phase.conn)
  {
    s' := DoCommit(s, pid);
    OneStep(Direct(), By(pid), s, Commit(pid));
  }

  /** A thread that has named a witness, or settled, ends. */
  lemma NamedRuns(s: Sys, pid: nat, notified: bool) returns (s': Sys)
    requires HasThread(s, pid) && (s.threads[pid].phase.Settling? || s.threads[pid].phase.Notifying?)
    requires
      var t := s.threads[pid];
      t.phase.Notifying? ==> t.node == t.phase.conn.sender || t.node == t.phase.conn.receiver
    ensures Leads(Direct(), By(pid), s, s')
    ensures
      var ph := s.threads[pid].phase;
      Ends(s, s', pid, if ph.Notifying? then NotifyPhase(ph.conn, notified).conn else ph.conn)
  {
    if s.threads[pid].phase.Notifying? {
      var s1 := DoNotify(s, pid, notified, notified);
      OneStep(Direct(), By(pid), s, Notify(pid, notified, notified));
      s' := CommitRuns(s1, pid);
      Onward(Direct(), By(pid), s, s1, s');
      EndingMoves(s, s1, s', pid, s1.threads[pid].phase, s1.threads[pid].phase.conn);
    } else {
      s' := CommitRuns(s, pid);
    }
  }

  /** From the choice on, the thread persists what the selection gives. */
  lemma ChoosingRuns(s: Sys, pid: nat, w: Surroundings) returns (s': Sys)
    requires Selects(s, pid) && s.threads[pid].phase == Choosing(Committed(s, pid))
    requires WitnessAnswers(s, s.threads[pid], Committed(s, pid), Candidates(Committed(s, pid), w), w.replies, 0)
    ensures Leads(Direct(), By(pid), s, s')
    ensures
      var t := s.threads[pid];
      Ends(s, s', pid, Resulting(Committed(s, pid), Selection(t.node, Committed(s, pid), t.role.selector, w)))
  {
    if w.selfFound {
      var s1 := ChosenRuns(s, pid, w);
      s' := NamedRuns(s1, pid, w.notified);
      Onward(Direct(), By(pid), s, s1, s');
      EndingMoves(s, s1, s', pid, s1.threads[pid].phase, s'.entries[KeyOf(s.threads[pid])].conn);
    } else {
      s' := DoAbandon(s, pid);
      OneStep(Direct(), By(pid), s, Abandon(pid));
    }
  }

  /** The choice, and the search if this side is the one to search. */
  lemma ChosenRuns(s: Sys, pid: nat, w: Surroundings) returns (s': Sys)
    requires Selects(s, pid) && s.threads[pid].phase == Choosing(Committed(s, pid))
    requires WitnessAnswers(s, s.threads[pid], Committed(s, pid), Candidates(Committed(s, pid), w), w.replies, 0)
    ensures Leads(Direct(), By(pid), s, s')
    ensures
      var t := s.threads[pid];
      var conn := Committed(s, pid);
      var ph := Search(ChoosePhase(t.node, conn, t.role.selector, Candidates(conn, w)), w.replies, 0);
      && Moves(s, s', pid, ph) && (ph.Settling? || ph.Notifying?)
      && (ph.Notifying? ==> t.node == ph.conn.sender || t.node == ph.conn.receiver)
  {
    var conn := Committed(s, pid);
    var cs := Candidates(conn, w);
    s' := DoChoose(s, pid, cs);
    OneStep(Direct(), By(pid), s, Choose(pid, cs));
    if s'.threads[pid].phase.Asking? {
      var s1 := s';
      s' := SearchRuns(s1, pid, w.replies, 0);
      Onward(Direct(), By(pid), s, s1, s');
      SearchKeepsEnds(s1.threads[pid].phase, w.replies, 0);
    }
  }

  lemma {:induction false} SearchKeepsEnds(ph: Phase, replies: Replies, i: nat)
    requires ph.Asking?
    ensures
      var last := Search(ph, replies, i);
      && (last.Settling? || last.Notifying?)
      && last.conn.sender == ph.conn.sender && last.conn.receiver == ph.conn.receiver
    decreases |ph.rest|
  {
    if ph.rest != [] && !Grants(ph.conn.id, replies, i) {
      SearchKeepsEnds(Asking(ph.conn, ph.rest[1..]), replies, i + 1);
    }
  }

  // Stores

  /** One node's committed connections in a protocol state. */
  ghost function View(s: Sys, node: PeerID): map<ConnID, Connection> {
    map k | k in s.entries && k.node == node :: k.id := s.entries[k].conn
  }

  /** The node's store becomes this one, and no other node's changes. */
  ghost predicate StoreBecomes(s: Sys, s': Sys, node: PeerID, store: map<ConnID, Connection>) {
    View(s', node) == store && forall n | n != node :: View(s', n) == View(s, n)
  }

  lemma ViewHas(s: Sys, node: PeerID, id: ConnID)
    ensures id in View(s, node) <==> Key(node, id) in s.entries
    ensures id in View(s, node) ==> View(s, node)[id] == s.entries[Key(node, id)].conn
  {
  }

  lemma EntryChanged(s: Sys, s': Sys, k: Key, e: Entry)
    requires s'.entries == s.entries[k := e]
    ensures StoreBecomes(s, s', k.node, View(s, k.node)[k.id := e.conn])
  {
    forall n | n != k.node ensures View(s', n) == View(s, n) {
      forall id ensures id in View(s', n) <==> id in View(s, n) {
        ViewHas(s, n, id);
        ViewHas(s', n, id);
      }
      forall id | id in View(s', n) ensures View(s', n)[id] == View(s, n)[id] {
        ViewHas(s, n, id);
        ViewHas(s', n, id);
      }
    }
  }

  lemma EndedStore(s: Sys, s': Sys, pid: nat, w: Written<Connection>)
    requires HasThread(s, pid) && Ends(s, s', pid, Resulting(Committed(s, pid), w))
    ensures
      var t := s.threads[pid];
      t.id in View(s, t.node) && StoreBecomes(s, s', t.node, Persisted(View(s, t.node), t.id, w))
  {
    var t := s.threads[pid];
    ViewHas(s, t.node, t.id);
    EntryChanged(s, s', KeyOf(t), Entry(Resulting(Committed(s, pid), w), None));
  }

  // Whole threads

  /** A selection started by the connect adapter, from the queue to the end, does to the store what RunSelection does. */
  lemma SelectionRunMatches(s: Sys, pid: nat, w: Surroundings) returns (s': Sys)
    requires CanAcquire(s, pid) && s.threads[pid].role.Chooser?
    requires WitnessAnswers(s, s.threads[pid], Committed(s, pid), Candidates(Committed(s, pid), w), w.replies, 0)
    ensures Leads(Direct(), By(pid), s, s') && pid in s'.threads && s'.threads[pid].phase == Finished
    ensures
      var t := s.threads[pid];
      && t.id in View(s, t.node)
      && StoreBecomes(s, s', t.node,
           Persisted(View(s, t.node), t.id, Selection(t.node, View(s, t.node)[t.id], t.role.selector, w)))
  {
    var t, conn := s.threads[pid], Committed(s, pid);
    var s1 := DoAcquire(s, pid);
    OneStep(Direct(), By(pid), s, Acquire(pid));
    s' := ChoosingRuns(s1, pid, w);
    Onward(Direct(), By(pid), s, s1, s');
    var result := Selection(t.node, conn, t.role.selector, w);
    AfterAcquire(s, s1, s', pid, Resulting(conn, result));
    EndedStore(s, s', pid, result);
    ViewHas(s, t.node, t.id);
  }

  lemma AfterAcquire(s: Sys, s1: Sys, s': Sys, pid: nat, conn: Connection)
    requires CanAcquire(s, pid) && s1 == DoAcquire(s, pid) && Ends(s1, s', pid, conn)
    ensures Ends(s, s', pid, conn)
  {
  }

  function ConnectAnswer(node: PeerID, conn: Connection, sel: WitnessSelector, resp: ConnectResponse): Packet {
    Packet(conn.receiver, node, Some(ConnectReq(ConnectRequestFor(conn, sel))), ConnectResp(resp))
  }

  /** The callback of Connect's update, from the lock on. */
  lemma RequestRuns(s: Sys, pid: nat, receiverFound: bool, answer: Option<ConnectResponse>, w: Surroundings) returns (s': Sys)
    requires HasThread(s, pid) && s.threads[pid].role.Connector? && s.threads[pid].phase == Entered(Committed(s, pid))
    requires
      var t := s.threads[pid];
      var conn := Committed(s, pid);
      && conn == Requested(t.node, t.id, conn.receiver)
      && (answer.Some? ==> ConnectAnswer(t.node, conn, t.role.selector, answer.value) in s.net)
      && WitnessAnswers(s, t, conn, Candidates(conn, w), w.replies, 0)
    ensures Leads(Direct(), By(pid), s, s')
    ensures
      var t := s.threads[pid];
      var conn := Committed(s, pid);
      Ends(s, s', pid,
        Resulting(conn, Connected(t.node, t.id, conn.receiver, t.role.selector, receiverFound, answer, w)))
  {
    var t, conn := s.threads[pid], Committed(s, pid);
    if !receiverFound {
      s' := DoAbandon(s, pid);
      OneStep(Direct(), By(pid), s, Abandon(pid));
      return;
    }
    var s1 := DoRequestReceiver(s, pid);
    OneStep(Direct(), By(pid), s, RequestReceiver(pid));
    if answer == None {
      s' := DoAbandon(s1, pid);
      OneStep(Direct(), By(pid), s1, Abandon(pid));
      Onward(Direct(), By(pid), s, s1, s');
      return;
    }
    s' := AnsweredRuns(s1, pid, answer.value, w);
    Onward(Direct(), By(pid), s, s1, s');
    EndingMoves(s, s1, s', pid, AwaitingReceiver(conn), s'.entries[KeyOf(t)].conn);
  }

  lemma AnsweredRuns(s: Sys, pid: nat, resp: ConnectResponse, w: Surroundings) returns (s': Sys)
    requires HasThread(s, pid) && s.threads[pid].role.Connector? && s.threads[pid].phase == AwaitingReceiver(Committed(s, pid))
    requires
      var t := s.threads[pid];
      var conn := Committed(s, pid);
      && ConnectAnswer(t.node, conn, t.role.selector, resp) in s.net
      && WitnessAnswers(s, t, conn, Candidates(conn, w), w.replies, 0)
    ensures Leads(Direct(), By(pid), s, s')
    ensures
      var t := s.threads[pid];
      var conn := Committed(s, pid);
      Ends(s, s', pid,
        if ConnectGranted(conn.id, resp) then Resulting(conn, Selection(t.node, conn, t.role.selector, w)) else conn)
  {
    var t, conn := s.threads[pid], Committed(s, pid);
    var packet := ConnectAnswer(t.node, conn, t.role.selector, resp);
    var s1 := DoTakeReceiverAnswer(Direct(), s, pid, packet);
    OneStep(Direct(), By(pid), s, TakeReceiverAnswer(pid, packet));
    if ConnectGranted(conn.id, resp) {
      s' := ChoosingRuns(s1, pid, w);
      Onward(Direct(), By(pid), s, s1, s');
      EndingMoves(s, s1, s', pid, Choosing(conn), s'.entries[KeyOf(t)].conn);
    } else {
      s' := s1;
    }
  }

  /** A call of Connect, from the fresh ID to the end, does to the store what the method does. */
  lemma ConnectRunMatches(
    s: Sys, pid: nat, node: PeerID, id: ConnID, receiver: PeerID, sel: WitnessSelector,
    receiverFound: bool, answer: Option<ConnectResponse>, w: Surroundings) returns (s': Sys)
    requires CanConnect(s, pid, node, id)
    requires
      var conn := Requested(node, id, receiver);
      && (answer.Some? ==> ConnectAnswer(node, conn, sel, answer.value) in s.net)
      && WitnessAnswers(s, Thread(node, id, Connector(sel), Queued), conn, Candidates(conn, w), w.replies, 0)
    ensures Leads(Direct(), By(pid), s, s') && pid in s'.threads && s'.threads[pid].phase == Finished
    ensures id !in View(s, node)
    ensures StoreBecomes(s, s', node,
      Persisted(View(s, node)[id := Requested(node, id, receiver)], id,
        Connected(node, id, receiver, sel, receiverFound, answer, w)))
  {
    var conn := Requested(node, id, receiver);
    var s1 := DoConnect(s, pid, node, receiver, sel, id);
    OneStep(Direct(), By(pid), s, Connect(pid, node, receiver, sel, id));
    var s2 := DoAcquire(s1, pid);
    OneStep(Direct(), By(pid), s1, Acquire(pid));
    Onward(Direct(), By(pid), s, s1, s2);
    WitnessAnswersKept(s, s2, Thread(node, id, Connector(sel), Queued), s2.threads[pid], conn, Candidates(conn, w), w.replies);
    s' := RequestRuns(s2, pid, receiverFound, answer, w);
    Onward(Direct(), By(pid), s, s2, s');
    var result := Connected(node, id, receiver, sel, receiverFound, answer, w);
    AfterAcquire(s1, s2, s', pid, Resulting(conn, result));
    EndedStore(s1, s', pid, result);
    EntryChanged(s, s1, Key(node, id), Entry(conn, None));
    ViewHas(s, node, id);
  }

  lemma WitnessAnswersKept(
    s: Sys, s': Sys, t: Thread, t': Thread, conn: Connection, candidates: seq<PeerID>, replies: Replies)
    requires IsSelectionRole(t.role) && t'.role == t.role && t'.node == t.node && s.net <= s'.net
    requires WitnessAnswers(s, t, conn, candidates, replies, 0)
    ensures WitnessAnswers(s', t', conn, candidates, replies, 0)
  {
    forall j: nat | j < |candidates| && replies(0 + j).Some?
      ensures AnswerFrom(t', conn, candidates[j], replies(0 + j).value) in s'.net
    {
      assert AnswerFrom(t, conn, candidates[j], replies(0 + j).value) in s.net;
    }
  }

  // Closing

  function CloseTo(node: PeerID, p: PeerID, conn: Connection): Packet {
    Packet(node, p, None, CloseReq(CloseRequest(conn.id)))
  }

  /** The close requests sent to these nodes. */
  function Closes(node: PeerID, told: seq<PeerID>, conn: Connection): set<Packet> {
    set p | p in told :: CloseTo(node, p, conn)
  }

  lemma ClosesNext(node: PeerID, told: seq<PeerID>, p: PeerID, conn: Connection)
    ensures Closes(node, told + [p], conn) == Closes(node, told, conn) + {CloseTo(node, p, conn)}
    ensures Closes(node, told + [], conn) == Closes(node, told, conn)
  {
    assert told + [] == told;
  }

  /** The n first targets of a fan-out have been looked up, and those found told. */
  ghost predicate Told(s: Sys, s': Sys, pid: nat, conn: Connection, targets: seq<PeerID>, n: nat, found: Luck, sent: Luck)
    requires n <= |targets|
  {
    && pid in s.threads
    && s'.threads == s.threads[pid := s.threads[pid].(phase := FanOut(conn, targets[n..], Missed(n, found, sent)))]
    && s'.entries == s.entries
    && s'.net == s.net + Closes(s.threads[pid].node, Reached(targets[..n], found), conn)
  }

  /** One target is looked up and, if found, told. */
  lemma TellFirst(s: Sys, pid: nat, found: bool, sent: bool) returns (s': Sys)
    requires HasThread(s, pid) && s.threads[pid].phase.FanOut? && s.threads[pid].phase.rest != []
    ensures Leads(Direct(), By(pid), s, s') && s'.entries == s.entries
    ensures
      var t := s.threads[pid];
      var FanOut(conn, rest, failed) := t.phase;
      && s'.threads == s.threads[pid := t.(phase := FanOut(conn, rest[1..], failed || !(found && sent)))]
      && s'.net == s.net + if found then {CloseTo(t.node, rest[0], conn)} else {}
  {
    s' := DoTellOne(s, pid, found, found && sent);
    OneStep(Direct(), By(pid), s, TellOne(pid, found, found && sent));
  }

  lemma TellNext(
    s: Sys, s': Sys, pid: nat, conn: Connection, targets: seq<PeerID>, n: nat, found: Luck, sent: Luck) returns (s'': Sys)
    requires n < |targets| && HasThread(s, pid) && Told(s, s', pid, conn, targets, n, found, sent)
    ensures Leads(Direct(), By(pid), s', s'') && Told(s, s'', pid, conn, targets, n + 1, found, sent)
  {
    Advance(targets, n);
    s'' := TellFirst(s', pid, found(n), sent(n));
    MissedNext(n, found, sent);
    ReachedNext(targets[..n], targets[n], found);
    ClosesNext(s.threads[pid].node, Reached(targets[..n], found), targets[n], conn);
  }

  lemma Advance(targets: seq<PeerID>, n: nat)
    requires n < |targets|
    ensures targets[..n] + [targets[n]] == targets[..n + 1] && targets[n..][1..] == targets[n + 1..]
    ensures targets[n..] != [] && targets[n..][0] == targets[n]
  {
  }

  lemma {:induction false} TellRuns(
    s: Sys, pid: nat, conn: Connection, targets: seq<PeerID>, n: nat, found: Luck, sent: Luck) returns (s': Sys)
    requires n <= |targets| && HasThread(s, pid) && s.threads[pid].phase == FanOut(conn, targets, false)
    ensures Leads(Direct(), By(pid), s, s') && Told(s, s', pid, conn, targets, n, found, sent)
    decreases n
  {
    if n == 0 {
      s' := s;
      Stay(Direct(), By(pid), s);
      assert targets[0..] == targets;
    } else {
      var s1 := TellRuns(s, pid, conn, targets, n - 1, found, sent);
      s' := TellNext(s, s1, pid, conn, targets, n - 1, found, sent);
      Onward(Direct(), By(pid), s, s1, s');
    }
  }

  /** The callback of CloseConnection's update, from the lock on. */
  lemma CloseCallbackRuns(s: Sys, pid: nat, selfFound: bool, found: Luck, sent: Luck) returns (s': Sys)
    requires HasThread(s, pid) && s.threads[pid].role.Closer? && s.threads[pid].phase == Entered(Committed(s, pid))
    ensures Leads(Direct(), By(pid), s, s')
    ensures
      var t := s.threads[pid];
      var conn := Committed(s, pid);
      var targets := CloseTargets(t.node, conn);
      if conn.status == Closed || !selfFound then Ends(s, s', pid, conn) && s'.net == s.net
      else
        && Ends(s, s', pid, conn.SetStatus(if Missed(|targets|, found, sent) then Closing else Closed))
        && s'.net == s.net + Closes(t.node, Reached(targets, found), conn)
  {
    var t, conn := s.threads[pid], Committed(s, pid);
    if conn.status == Closed || !selfFound {
      s' := DoAbandon(s, pid);
      OneStep(Direct(), By(pid), s, Abandon(pid));
      return;
    }
    var targets := CloseTargets(t.node, conn);
    var s1 := DoStartClose(s, pid);
    OneStep(Direct(), By(pid), s, StartClose(pid));
    var s2 := TellRuns(s1, pid, conn, targets, |targets|, found, sent);
    Onward(Direct(), By(pid), s, s1, s2);
    assert targets[|targets|..] == [] && targets[..|targets|] == targets;
    s' := AllTold(s2, pid, conn);
    Onward(Direct(), By(pid), s, s2, s');
  }

  lemma AllTold(s: Sys, pid: nat, conn: Connection) returns (s': Sys)
    requires HasThread(s, pid) && s.threads[pid].phase.FanOut? && s.threads[pid].phase.rest == []
    requires s.threads[pid].phase.conn == conn
    ensures Leads(Direct(), By(pid), s, s') && s'.net == s.net
    ensures Ends(s, s', pid, AfterClosing(conn, s.threads[pid].phase.failed))
  {
    var s1 := DoEndTelling(s, pid);
    OneStep(Direct(), By(pid), s, EndTelling(pid));
    s' := DoCommit(s1, pid);
    OneStep(Direct(), By(pid), s1, Commit(pid));
    Onward(Direct(), By(pid), s, s1, s');
    EndingMoves(s, s1, s', pid, s1.threads[pid].phase, s1.threads[pid].phase.conn);
  }

  /** A fan-out's packets, target by target. */
  lemma ClosesAre(node: PeerID, targets: seq<PeerID>, found: Luck, conn: Connection)
    ensures Closes(node, Reached(targets, found), conn) ==
      set i | 0 <= i < |targets| && found(i) :: Packet(node, targets[i], None, CloseReq(CloseRequest(conn.id)))
  {
    var sent := set i | 0 <= i < |targets| && found(i) :: Packet(node, targets[i], None, CloseReq(CloseRequest(conn.id)));
    ReachedAre(targets, found);
    forall p | p in Closes(node, Reached(targets, found), conn) ensures p in sent {
      var i: nat :| i < |targets| && targets[i] == p.to && found(i);
      assert p == Packet(node, targets[i], None, CloseReq(CloseRequest(conn.id)));
    }
    forall p | p in sent ensures p in Closes(node, Reached(targets, found), conn) {
      var i :| 0 <= i < |targets| && found(i) && p == Packet(node, targets[i], None, CloseReq(CloseRequest(conn.id)));
      assert targets[i] in Reached(targets, found);
      assert p == CloseTo(node, targets[i], conn);
    }
  }

  lemma CloseEntered(s: Sys, pid: nat, node: PeerID, id: ConnID) returns (s': Sys)
    requires CanBeginClose(s, pid, node, id) && Free(s, Key(node, id))
    ensures Leads(Direct(), By(pid), s, s') && s'.net == s.net
    ensures
      var conn := s.entries[Key(node, id)].conn;
      && s'.threads == s.threads[pid := Thread(node, id, Closer, Entered(conn))]
      && s'.entries == s.entries[Key(node, id) := Entry(conn, Some(pid))]
  {
    var s1 := DoBeginClose(s, pid, node, id);
    OneStep(Direct(), By(pid), s, BeginClose(pid, node, id));
    s' := DoAcquire(s1, pid);
    OneStep(Direct(), By(pid), s1, Acquire(pid));
    Onward(Direct(), By(pid), s, s1, s');
  }

  lemma ClosedStore(s: Sys, s2: Sys, s': Sys, pid: nat, node: PeerID, id: ConnID)
    requires CanBeginClose(s, pid, node, id) && Free(s, Key(node, id))
    requires s2.entries == s.entries[Key(node, id) := Entry(s.entries[Key(node, id)].conn, Some(pid))]
    requires Key(node, id) in s'.entries && s'.entries == s2.entries[Key(node, id) := s'.entries[Key(node, id)]]
    ensures StoreBecomes(s, s', node, View(s, node)[id := s'.entries[Key(node, id)].conn])
  {
    EntryChanged(s, s', Key(node, id), s'.entries[Key(node, id)]);
  }

  lemma CloseRuns(
    s: Sys, pid: nat, node: PeerID, id: ConnID, selfFound: bool, found: Luck, sent: Luck) returns (s': Sys)
    requires CanBeginClose(s, pid, node, id) && Free(s, Key(node, id))
    ensures Leads(Direct(), By(pid), s, s')
    ensures s'.threads == s.threads[pid := Thread(node, id, Closer, Finished)] && Free(s', Key(node, id))
    ensures id in View(s, node)
    ensures
      var conn := View(s, node)[id];
      var targets := CloseTargets(node, conn);
      if conn.status == Closed || !selfFound then StoreBecomes(s, s', node, View(s, node)) && s'.net == s.net
      else
        && StoreBecomes(s, s', node,
             View(s, node)[id := conn.SetStatus(if Missed(|targets|, found, sent) then Closing else Closed)])
        && s'.net == s.net + Closes(node, Reached(targets, found), conn)
  {
    var s1 := CloseEntered(s, pid, node, id);
    s' := CloseCallbackRuns(s1, pid, selfFound, found, sent);
    Onward(Direct(), By(pid), s, s1, s');
    ClosedStore(s, s1, s', pid, node, id);
    ViewHas(s, node, id);
  }

  /** A call of CloseConnection, from the call to the end, does to the store what the method does, and the packets it
      adds are the close requests to the nodes the method says it told. */
  lemma CloseRunMatches(
    s: Sys, pid: nat, node: PeerID, id: ConnID, selfFound: bool, found: Luck, sent: Luck)
    returns (s': Sys, targets: seq<PeerID>)
    requires CanBeginClose(s, pid, node, id) && Free(s, Key(node, id))
    ensures Leads(Direct(), By(pid), s, s')
    ensures s'.threads == s.threads[pid := Thread(node, id, Closer, Finished)] && Free(s', Key(node, id))
    ensures id in View(s, node)
    ensures
      var conn := View(s, node)[id];
      targets ==
        (if conn.sender != node then [conn.sender] else [])
        + (if conn.wit.Some? && conn.wit.value != node then [conn.wit.value] else [])
        + (if conn.receiver != node then [conn.receiver] else [])
    ensures
      var conn := View(s, node)[id];
      if conn.status == Closed || !selfFound then StoreBecomes(s, s', node, View(s, node)) && s'.net == s.net
      else
        && StoreBecomes(s, s', node, View(s, node)[id := conn.(status :=
             if exists j: nat :: j < |targets| && !(found(j) && sent(j)) then Closing else Closed)])
        && s'.net == s.net + (set i | 0 <= i < |targets| && found(i) ::
             Packet(node, targets[i], None, CloseReq(CloseRequest(conn.id))))
  {
    s' := CloseRuns(s, pid, node, id, selfFound, found, sent);
    var conn := View(s, node)[id];
    targets := CloseTargets(node, conn);
    CloseTargetsAre(node, conn);
    ClosesAre(node, targets, found, conn);
  }

  // Adapters

  function AsSet(p: Option<Packet>): set<Packet> {
    if p.Some? then {p.value} else {}
  }

  /** s' holds the entries of s after one more has been entered, if any. */
  lemma EnteredStore(s: Sys, s': Sys, k: Key, conn: Option<Connection>)
    requires s'.entries == Enter(s, k, conn).entries
    ensures StoreBecomes(s, s', k.node, Stored(View(s, k.node), k.id, conn))
  {
    if conn.Some? {
      EntryChanged(s, s', k, Entry(conn.value, None));
    }
  }

  lemma ConnectVerdictActs(s: Sys, pid: nat, packet: Packet, r: ConnectRequest, v: Verdict<ConnectResponse>)
    requires r.sender.Some? && r.receiver.Some? && pid !in s.threads
    ensures
      var k := Key(packet.to, r.connectionID);
      var served := ServedConnect(packet.to, k in s.entries, r, v);
      var s' := AfterVerdictConnect(s, pid, packet, r, v);
      && s'.entries == Enter(s, k, served.entered).entries
      && (served.starts <==> pid in s'.threads)
      && s'.net == s.net + AsSet(ConnectReply(packet, served.response))
  {
  }

  /** A served connect request changes the node's store, starts a selection and answers as HandleConnect does. */
  lemma ConnectServiceMatches(
    c: Channel, s: Sys, pid: nat, packet: Packet, found: Lookups, user: Reply<ConnectResponse>)
    requires CanServeConnect(c, s, pid, packet)
    ensures
      var r := c(packet.body).value.connectRequest;
      var known := r.connectionID in View(s, packet.to);
      var served := ServedConnect(packet.to, known, r, ConnectVerdict(packet.to, packet.from, r, found, user));
      var s' := DoServeConnect(c, s, pid, packet, found, user);
      && StoreBecomes(s, s', packet.to, Stored(View(s, packet.to), r.connectionID, served.entered))
      && (served.starts <==> pid in s'.threads)
      && s'.net == s.net + AsSet(ConnectReply(packet, served.response))
  {
    var r := c(packet.body).value.connectRequest;
    var k := Key(packet.to, r.connectionID);
    var v := ConnectVerdict(packet.to, packet.from, r, found, user);
    ViewHas(s, packet.to, r.connectionID);
    ConnectVerdictActs(s, pid, packet, r, v);
    EnteredStore(s, AfterVerdictConnect(s, pid, packet, r, v), k, ServedConnect(packet.to, k in s.entries, r, v).entered);
  }

  lemma WitnessVerdictActs(s: Sys, pid: nat, packet: Packet, r: WitnessRequest, v: Verdict<WitnessResponse>)
    requires r.sender.Some? && r.receiver.Some? && pid !in s.threads
    ensures
      var k := Key(packet.to, r.connectionID);
      var served := ServedWitness(k in s.entries, r, v);
      var s' := AfterVerdictWitness(s, pid, packet, r, v);
      && s'.entries == Enter(s, k, served.entered).entries
      && (served.starts <==> pid in s'.threads)
      && (served.starts ==>
            s'.threads[pid] == Thread(k.node, k.id, Witnesser(packet.from, packet.body, v.response), Queued))
      && s'.net == s.net + AsSet(WitnessReply(packet, served.response))
  {
  }

  /** The second step of a witness. */
  lemma NamingRuns(s: Sys, pid: nat, self: Lookup) returns (s': Sys)
    requires CanNameSelf(s, pid)
    ensures Leads(Direct(), By(pid), s, s') && pid in s'.threads && s'.threads[pid].phase == Finished
    ensures
      var t := s.threads[pid];
      && s'.entries ==
           (if self.Missing? then s.entries
            else s.entries[KeyOf(t) := Entry(s.entries[KeyOf(t)].conn.SetWitness(t.node), None)])
      && s'.net == s.net + {Packet(t.node, t.role.to, Some(t.role.re), WitnessResp(
           if self.Found? then t.role.response else WitnessResponse(t.id, [self.message], false, [])))}
  {
    s' := DoNameSelf(s, pid, self);
    OneStep(Direct(), By(pid), s, NameSelf(pid, self));
  }

  /** A witness that has entered a connection names itself and answers. */
  lemma EnteredRuns(s: Sys, s1: Sys, pid: nat, packet: Packet, conn: Connection, resp: WitnessResponse, self: Lookup)
    returns (s': Sys)
    requires pid in s1.threads && s1.net == s.net
    requires s1.threads[pid] == Thread(packet.to, conn.id, Witnesser(packet.from, packet.body, resp), Queued)
    requires s1.entries == s.entries[Key(packet.to, conn.id) := Entry(conn, None)]
    ensures Leads(Direct(), By(pid), s1, s') && pid in s'.threads && s'.threads[pid].phase == Finished
    ensures
      var named := if self.Found? then conn.SetWitness(packet.to) else conn;
      StoreBecomes(s, s', packet.to, View(s, packet.to)[conn.id := named])
    ensures
      var answer := if self.Found? then resp else WitnessResponse(conn.id, [self.message], false, []);
      s'.net == s.net + AsSet(WitnessReply(packet, Some(answer)))
  {
    var k := Key(packet.to, conn.id);
    s' := NamingRuns(s1, pid, self);
    var named := if self.Found? then conn.SetWitness(packet.to) else conn;
    assert s'.entries == s.entries[k := Entry(named, None)];
    EntryChanged(s, s', k, Entry(named, None));
  }

  /** Both steps of a witness, run one after the other, change the node's store and answer as HandleWitness does. */
  lemma WitnessServiceMatches(
    s: Sys, pid: nat, packet: Packet, found: Lookups, user: Reply<WitnessResponse>, selfAgain: Lookup) returns (s': Sys)
    requires CanServeWitness(Direct(), s, pid, packet)
    ensures Leads(Direct(), By(pid), s, s') && (pid in s'.threads ==> s'.threads[pid].phase == Finished)
    ensures
      var r := packet.body.witnessRequest;
      var v := WitnessVerdict(packet.to, packet.from, r, found, user);
      var (store, response) := WitnessServed(packet.to, r, v, selfAgain, View(s, packet.to));
      StoreBecomes(s, s', packet.to, store) && s'.net == s.net + AsSet(WitnessReply(packet, response))
  {
    var r := packet.body.witnessRequest;
    var v := WitnessVerdict(packet.to, packet.from, r, found, user);
    var s1 := DoServeWitness(Direct(), s, pid, packet, found, user);
    OneStep(Direct(), By(pid), s, ServeWitness(pid, packet, found, user));
    s' := ServedRuns(s, s1, pid, packet, r, v, selfAgain);
    Onward(Direct(), By(pid), s, s1, s');
  }

  lemma ServedRuns(
    s: Sys, s1: Sys, pid: nat, packet: Packet, r: WitnessRequest, v: Verdict<WitnessResponse>, self: Lookup) returns (s': Sys)
    requires r.sender.Some? && r.receiver.Some? && pid !in s.threads && s1 == AfterVerdictWitness(s, pid, packet, r, v)
    ensures Leads(Direct(), By(pid), s1, s') && (pid in s'.threads ==> s'.threads[pid].phase == Finished)
    ensures
      var (store, response) := WitnessServed(packet.to, r, v, self, View(s, packet.to));
      StoreBecomes(s, s', packet.to, store) && s'.net == s.net + AsSet(WitnessReply(packet, response))
  {
    var k := Key(packet.to, r.connectionID);
    var served := ServedWitness(k in s.entries, r, v);
    ViewHas(s, packet.to, r.connectionID);
    WitnessVerdictActs(s, pid, packet, r, v);
    if served.starts {
      s' := EnteredRuns(s, s1, pid, packet, served.entered.value, v.response, self);
    } else {
      s' := s1;
      Stay(Direct(), By(pid), s1);
      EnteredStore(s, s', k, served.entered);
    }
  }
}
