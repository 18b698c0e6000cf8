/** When a Closed entry can stop being Closed: exactly when a selection pending on it can still persist something else. */
module Reopening {
  import opened Types
  import opened Rules
  import opened Serde
  import opened Node
  import opened Protocol
  import opened Runs
  import opened Invariants
  import opened InvariantSteps
  import opened Safety
  import opened StatusOrder
  import opened Traces
  import opened Solo

  // What a selection can still persist

  predicate BeforeGrant(ph: Phase) {
    ph.Queued? || ph.Entered? || ph.AwaitingReceiver?
  }

  /** The packet is the receiver's grant to the thread's request. */
  predicate IsGrant(s: Sys, t: Thread, p: Packet)
    requires t.id in s.origin && t.role.Connector?
  {
    var o := s.origin[t.id];
    && p.from == o.receiver && p.to == t.node
    && p.re == Some(ConnectReq(ConnectRequest(t.id, Some(o.sender), Some(o.receiver), t.role.selector)))
    && p.body.ConnectResp? && ConnectGranted(t.id, p.body.connectResponse)
  }

  /** The receiver has not entered the connection, or its grant is in the network. */
  ghost predicate CanBeGranted(s: Sys, t: Thread)
    requires t.id in s.origin && t.role.Connector?
  {
    Key(s.origin[t.id].receiver, t.id) !in s.entries || exists p :: p in s.net && IsGrant(s, t, p)
  }

  /** The thread can still persist something other than a Closed connection. */
  ghost predicate MayPersist(s: Sys, t: Thread)
    requires t.id in s.origin
  {
    match t.role
    case Chooser(_) => t.phase != Finished
    case Connector(w) =>
      && t.phase != Finished && w != NilSelector && s.origin[t.id].receiver != s.origin[t.id].sender
      && (BeforeGrant(t.phase) ==> CanBeGranted(s, t))
    case _ => false
  }

  ghost predicate CanReopen(s: Sys, k: Key) {
    exists s' :: Leads(Direct(), Any(), s, s') && k in s'.entries && StatusAt(s', k) != Closed
  }

  // A Closed entry on which no such selection is pending stays Closed

  ghost predicate Frozen(s: Sys, k: Key) {
    && k in s.entries && StatusAt(s, k) == Closed
    && forall pid | pid in s.threads && KeyOf(s.threads[pid]) == k && IsSelection(s.threads[pid]) ::
         s.threads[pid].id in s.origin && !MayPersist(s, s.threads[pid])
  }

  lemma FrozenStaysClosed(h: Honesty, c: Channel, s: Sys, e: Event, s': Sys, k: Key)
    requires h.connect && Inv(h, s) && Traced(s) && Step(c, s, e, s') && Frozen(s, k)
    ensures k in s'.entries && StatusAt(s', k) == Closed
  {
    if SelectionCommits(s, e, k) {
      assert ThreadOK(h, s, e.pid) && TrailOK(s, e.pid);
    } else {
      StepRaises(h, c, s, e, s', k);
    }
  }

  /** An event posts a grant only by entering the connection at the granting node. */
  lemma NoNewGrant(h: Honesty, c: Channel, s: Sys, e: Event, t: Thread, p: Packet)
    requires h.connect && Inv(h, s) && Honest(h, c, s.net) && Enabled(c, s, e)
    requires t.id in s.origin && t.role.Connector? && Key(s.origin[t.id].receiver, t.id) in s.entries
    requires p in Next(c, s, e).net && p !in s.net
    ensures !IsGrant(s, t, p)
  {
    if e.ServeConnect? {
      ServesNoGrant(c, s, e, t, p);
    } else {
      OthersGrantNothing(c, s, e, p);
    }
  }

  lemma ServesNoGrant(c: Channel, s: Sys, e: Event, t: Thread, p: Packet)
    requires e.ServeConnect? && Enabled(c, s, e) && c(e.packet.body).value == e.packet.body
    requires t.id in s.origin && t.role.Connector? && Key(s.origin[t.id].receiver, t.id) in s.entries
    requires p in Next(c, s, e).net && p !in s.net
    ensures !IsGrant(s, t, p)
  {
  }

  lemma OthersGrantNothing(c: Channel, s: Sys, e: Event, p: Packet)
    requires !e.ServeConnect? && Enabled(c, s, e) && p in Next(c, s, e).net && p !in s.net
    ensures !p.body.ConnectResp?
  {
    if IsSelectionEvent(e) || IsAnswerEvent(e) {
      SelectionGrantsNothing(c, s, e, p);
    } else if e.ServeWitness? || IsUpdateEvent(e) {
      WitnessGrantsNothing(c, s, e, p);
    }
  }

  lemma SelectionGrantsNothing(c: Channel, s: Sys, e: Event, p: Packet)
    requires (IsSelectionEvent(e) || IsAnswerEvent(e)) && Enabled(c, s, e) && p in Next(c, s, e).net && p !in s.net
    ensures !p.body.ConnectResp?
  {
  }

  lemma WitnessGrantsNothing(c: Channel, s: Sys, e: Event, p: Packet)
    requires (e.ServeWitness? || IsUpdateEvent(e)) && Enabled(c, s, e) && p in Next(c, s, e).net && p !in s.net
    ensures !p.body.ConnectResp?
  {
  }

  /** A connector that cannot be granted any more stays so. */
  lemma UngrantedStays(h: Honesty, c: Channel, s: Sys, e: Event, s': Sys, t: Thread)
    requires h.connect && Inv(h, s) && Honest(h, c, s.net) && Step(c, s, e, s')
    requires t.id in s.origin && t.role.Connector? && !CanBeGranted(s, t)
    ensures t.id in s'.origin && s'.origin[t.id] == s.origin[t.id] && !CanBeGranted(s', t)
  {
    StepKeepsThread(c, s, e, s', 0);
    forall p | p in s'.net ensures !IsGrant(s', t, p) {
      if p !in s.net {
        NoNewGrant(h, c, s, e, t, p);
      }
      assert IsGrant(s', t, p) == IsGrant(s, t, p);
    }
  }

  lemma NoAdvance(h: Honesty, c: Channel, s: Sys, e: Event, s': Sys, pid: nat)
    requires h.connect && Inv(h, s) && Honest(h, c, s.net) && Step(c, s, e, s') && pid in s.threads
    requires
      var t := s.threads[pid];
      t.id in s.origin && t.role.Connector? && BeforeGrant(t.phase) && !CanBeGranted(s, t)
    ensures pid in s'.threads && (BeforeGrant(s'.threads[pid].phase) || s'.threads[pid].phase == Finished)
  {
    assert ThreadOK(h, s, pid);
    if IsBy(e, pid) {
      if e.TakeReceiverAnswer? {
        AnswerIsNoGrant(h, c, s, e, pid);
      } else {
        EarlyMoves(c, s, e, pid);
      }
    } else {
      StepLocal(c, s, e, s', pid, KeyOf(s.threads[pid]));
    }
  }

  lemma AnswerIsNoGrant(h: Honesty, c: Channel, s: Sys, e: Event, pid: nat)
    requires h.connect && Honest(h, c, s.net) && e.TakeReceiverAnswer? && e.pid == pid && Enabled(c, s, e)
    requires Inv(h, s) && ThreadOK(h, s, pid) && s.threads[pid].role.Connector? && !CanBeGranted(s, s.threads[pid])
    ensures Next(c, s, e).threads[pid].phase == Finished
  {
    var t := s.threads[pid];
    assert EntryOK(h, s, KeyOf(t));
    if ConnectGranted(t.phase.conn.id, c(e.answer.body).value.connectResponse) {
      assert false;
    }
  }

  lemma EarlyMoves(c: Channel, s: Sys, e: Event, pid: nat)
    requires Enabled(c, s, e) && IsBy(e, pid) && pid in s.threads && BeforeGrant(s.threads[pid].phase)
    requires s.threads[pid].role.Connector? && !e.TakeReceiverAnswer?
    ensures
      var s' := Next(c, s, e);
      pid in s'.threads && (BeforeGrant(s'.threads[pid].phase) || s'.threads[pid].phase == Finished)
  {
  }

  lemma SameRequest(s: Sys, t: Thread, t': Thread)
    requires t.id in s.origin && t.role.Connector? && t'.(phase := Finished) == t.(phase := Finished)
    ensures CanBeGranted(s, t') <==> CanBeGranted(s, t)
  {
    forall p ensures IsGrant(s, t, p) == IsGrant(s, t', p) {
    }
  }

  lemma ConnectorStays(h: Honesty, c: Channel, s: Sys, e: Event, s': Sys, pid: nat)
    requires h.connect && Inv(h, s) && Honest(h, c, s.net) && Step(c, s, e, s') && pid in s.threads
    requires s.threads[pid].role.Connector? && s.threads[pid].id in s.origin && !MayPersist(s, s.threads[pid])
    ensures pid in s'.threads && s'.threads[pid].id in s'.origin && !MayPersist(s', s'.threads[pid])
  {
    var t := s.threads[pid];
    StepKeepsThread(c, s, e, s', pid);
    if t.phase != Finished && BeforeGrant(t.phase) && !CanBeGranted(s, t) {
      NoAdvance(h, c, s, e, s', pid);
      UngrantedStays(h, c, s, e, s', t);
      SameRequest(s', t, s'.threads[pid]);
    }
  }

  lemma StepKeepsFrozen(h: Honesty, c: Channel, s: Sys, e: Event, s': Sys, k: Key)
    requires h.connect && Inv(h, s) && Traced(s) && Honest(h, c, s.net) && Step(c, s, e, s') && Frozen(s, k)
    ensures Frozen(s', k)
  {
    FrozenStaysClosed(h, c, s, e, s', k);
    forall pid | pid in s'.threads && KeyOf(s'.threads[pid]) == k && IsSelection(s'.threads[pid])
      ensures s'.threads[pid].id in s'.origin && !MayPersist(s', s'.threads[pid])
    {
      if pid !in s.threads {
        SelectionsStartOnNewEntries(c, s, e, s', pid);
        assert false;
      }
      StepKeepsThread(c, s, e, s', pid);
      if s.threads[pid].role.Connector? {
        ConnectorStays(h, c, s, e, s', pid);
      }
    }
  }

  /** Along any run from a state where it holds, whatever the others do. */
  lemma {:induction false} FrozenForGood(h: Honesty, c: Channel, states: seq<Sys>, events: seq<Event>, i: nat, k: Key)
    requires h.connect && IsRun(c, states, events) && i < |states| && Honest(h, c, states[i].net)
    requires Inv(h, states[0]) && Traced(states[0]) && Frozen(states[0], k)
    ensures Inv(h, states[i]) && Traced(states[i]) && Frozen(states[i], k)
    decreases i
  {
    if i > 0 {
      HonestBefore(h, c, states, events, i - 1, i);
      FrozenForGood(h, c, states, events, i - 1, k);
      StepAtKeeps(h, c, states, events, i - 1);
      var s, e, s' := states[i - 1], events[i - 1], states[i];
      StepKeepsTraces(h, c, s, e, s');
      StepKeepsFrozen(h, c, s, e, s', k);
    }
  }

  // A selection that may still persist something can be led to do so

  ghost predicate Good(s: Sys) {
    Inv(EVERY_ANSWER, s) && Traced(s)
  }

  lemma GoodNext(s: Sys, e: Event, s': Sys)
    requires Good(s) && Step(Direct(), s, e, s')
    ensures Good(s')
  {
    DirectIsHonest(EVERY_ANSWER, s.net);
    StepKeeps(EVERY_ANSWER, Direct(), s, e, s');
    StepKeepsTraces(EVERY_ANSWER, Direct(), s, e, s');
  }

  lemma ReopensLater(s: Sys, s1: Sys, k: Key)
    requires Leads(Direct(), Any(), s, s1) && CanReopen(s1, k)
    ensures CanReopen(s, k)
  {
    var s' :| Leads(Direct(), Any(), s1, s') && k in s'.entries && StatusAt(s', k) != Closed;
    Onward(Direct(), Any(), s, s1, s');
  }

  lemma EndReopens(s: Sys, s': Sys, pid: nat, conn: Connection)
    requires HasThread(s, pid) && Leads(Direct(), By(pid), s, s') && Ends(s, s', pid, conn) && conn.status != Closed
    ensures CanReopen(s, KeyOf(s.threads[pid]))
  {
    Weaken(Direct(), By(pid), Any(), s, s');
    assert StatusAt(s', KeyOf(s.threads[pid])) != Closed;
  }

  const UNANSWERED: Replies := (i: nat) => None

  /** Surroundings in which the selection finds nobody to ask. */
  function Alone(): Surroundings {
    Surroundings(true, Ok([]), (p: PeerID) => Distrusted, UNANSWERED, false)
  }

  lemma ChoosingReopens(s: Sys, pid: nat)
    requires Selects(s, pid) && s.threads[pid].phase == Choosing(Committed(s, pid))
      && s.threads[pid].role.selector != NilSelector
    ensures CanReopen(s, KeyOf(s.threads[pid]))
  {
    var t, conn := s.threads[pid], Committed(s, pid);
    var s' := ChoosingRuns(s, pid, Alone());
    SelectionResult(t.node, conn, t.role.selector, Alone());
    EndReopens(s, s', pid, Resulting(conn, Selection(t.node, conn, t.role.selector, Alone())));
  }

  predicate AtEnd(s: Sys, pid: nat)
    requires pid in s.threads
  {
    var t := s.threads[pid];
    t.phase.Settling? || t.phase.Notifying? || t.phase.Asking? || t.phase.AwaitingCandidate? ==>
      t.node == t.phase.conn.sender || t.node == t.phase.conn.receiver
  }

  /** A thread that has settled or named a witness. */
  lemma NamedReopens(s: Sys, pid: nat)
    requires HasThread(s, pid) && (s.threads[pid].phase.Settling? || s.threads[pid].phase.Notifying?)
    requires s.threads[pid].phase.conn.status != Closed && AtEnd(s, pid)
    ensures CanReopen(s, KeyOf(s.threads[pid]))
  {
    var s' := NamedRuns(s, pid, false);
    EndReopens(s, s', pid, s.threads[pid].phase.conn);
  }

  lemma AskingReopens(s: Sys, pid: nat)
    requires Selects(s, pid) && s.threads[pid].phase.Asking? && s.threads[pid].phase.conn.status != Closed && AtEnd(s, pid)
    ensures CanReopen(s, KeyOf(s.threads[pid]))
  {
    var Asking(conn, rest) := s.threads[pid].phase;
    var s1 := SearchRuns(s, pid, UNANSWERED, 0);
    SearchEnds(conn, rest, UNANSWERED, 0, |rest|);
    NamedReopens(s1, pid);
    Weaken(Direct(), By(pid), Any(), s, s1);
    ReopensLater(s, s1, KeyOf(s.threads[pid]));
  }

  lemma AwaitingCandidateReopens(s: Sys, pid: nat)
    requires Selects(s, pid) && s.threads[pid].phase.AwaitingCandidate? && AtEnd(s, pid)
    requires s.threads[pid].phase.conn.status != Closed
    ensures CanReopen(s, KeyOf(s.threads[pid]))
  {
    var s1 := DoFailCandidate(s, pid);
    OneStep(Direct(), Any(), s, FailCandidate(pid));
    AskingReopens(s1, pid);
    ReopensLater(s, s1, KeyOf(s.threads[pid]));
  }

  /** From the choice on, by the invariant. */
  lemma ChosenReopens(s: Sys, pid: nat)
    requires Good(s) && pid in s.threads && IsSelection(s.threads[pid]) && s.threads[pid].role != Connector(NilSelector)
    requires !BeforeGrant(s.threads[pid].phase) && s.threads[pid].phase != Finished
    ensures HasThread(s, pid) && CanReopen(s, KeyOf(s.threads[pid]))
  {
    var t := s.threads[pid];
    assert ThreadOK(EVERY_ANSWER, s, pid) && TrailOK(s, pid) && EntryOK(EVERY_ANSWER, s, KeyOf(t));
    match t.phase
    case Choosing(_) => ChoosingReopens(s, pid);
    case Asking(_, _) => AskingReopens(s, pid);
    case AwaitingCandidate(_, _, _) => AwaitingCandidateReopens(s, pid);
    case Notifying(_) => NamedReopens(s, pid);
    case Settling(_) => NamedReopens(s, pid);
    case _ =>
  }

  // Up to the grant

  /** Only a closing call can be holding a Closed entry before a queued selection runs; it gives up. */
  lemma LockFreed(s: Sys, pid: nat) returns (s1: Sys)
    requires Good(s) && HasThread(s, pid) && IsSelection(s.threads[pid]) && s.threads[pid].phase == Queued
    requires Committed(s, pid).status == Closed
    ensures Good(s1) && Leads(Direct(), Any(), s, s1) && HasThread(s1, pid) && s1.threads[pid] == s.threads[pid]
    ensures Free(s1, KeyOf(s.threads[pid])) && Committed(s1, pid) == Committed(s, pid)
    ensures s1.net == s.net && s1.origin == s.origin && s1.entries.Keys == s.entries.Keys
  {
    var k := KeyOf(s.threads[pid]);
    if Free(s, k) {
      s1 := s;
      Stay(Direct(), Any(), s);
    } else {
      assert HolderOK(s, k);
      var p := s.entries[k].holder.value;
      assert ThreadOK(EVERY_ANSWER, s, p);
      s1 := DoAbandon(s, p);
      OneStep(Direct(), Any(), s, Abandon(p));
      GoodNext(s, Abandon(p), s1);
    }
  }

  lemma ChooserReopens(s: Sys, pid: nat)
    requires Good(s) && HasThread(s, pid) && s.threads[pid].role.Chooser? && s.threads[pid].phase == Queued
    requires Committed(s, pid).status == Closed
    ensures CanReopen(s, KeyOf(s.threads[pid]))
  {
    var s1 := LockFreed(s, pid);
    var s2 := DoAcquire(s1, pid);
    OneStep(Direct(), Any(), s1, Acquire(pid));
    GoodNext(s1, Acquire(pid), s2);
    ChosenReopens(s2, pid);
    Onward(Direct(), Any(), s, s1, s2);
    ReopensLater(s, s2, KeyOf(s.threads[pid]));
  }

  /** A connector that gets the lock, asks, or waits, with a grant still to be had. */
  ghost predicate Hopeful(s: Sys, pid: nat) {
    && Good(s) && HasThread(s, pid) && s.threads[pid].role.Connector? && s.threads[pid].role.selector != NilSelector
    && s.threads[pid].id in s.origin && CanBeGranted(s, s.threads[pid])
  }

  lemma GrantedReopens(s: Sys, pid: nat, p: Packet)
    requires Hopeful(s, pid) && s.threads[pid].phase.AwaitingReceiver? && p in s.net && IsGrant(s, s.threads[pid], p)
    ensures CanReopen(s, KeyOf(s.threads[pid]))
  {
    var t := s.threads[pid];
    assert ThreadOK(EVERY_ANSWER, s, pid) && EntryOK(EVERY_ANSWER, s, KeyOf(t));
    var s1 := DoTakeReceiverAnswer(Direct(), s, pid, p);
    OneStep(Direct(), Any(), s, TakeReceiverAnswer(pid, p));
    GoodNext(s, TakeReceiverAnswer(pid, p), s1);
    ChosenReopens(s1, pid);
    ReopensLater(s, s1, KeyOf(t));
  }

  /** The receiver's node can serve the request, its user agreeing. */
  lemma ReceiverGrants(s: Sys, pid: nat) returns (s1: Sys, p: Packet)
    requires Hopeful(s, pid) && s.threads[pid].phase.AwaitingReceiver?
    requires Key(s.origin[s.threads[pid].id].receiver, s.threads[pid].id) !in s.entries
    ensures Good(s1) && Leads(Direct(), Any(), s, s1) && HasThread(s1, pid) && s1.threads[pid] == s.threads[pid]
    ensures s1.origin == s.origin && p in s1.net && s.threads[pid].id in s1.origin && IsGrant(s1, s.threads[pid], p)
  {
    var t := s.threads[pid];
    assert ThreadOK(EVERY_ANSWER, s, pid) && TrailOK(s, pid) && EntryOK(EVERY_ANSWER, s, KeyOf(t));
    var request := ConnectRequestFor(t.phase.conn, t.role.selector);
    var packet := Packet(t.node, t.phase.conn.receiver, None, ConnectReq(request));
    var q := Unused(s.threads.Keys);
    var lookups := Lookups(Found, Found, Found);
    var resp := ConnectResponse(t.id, [], true, []);
    s1 := DoServeConnect(Direct(), s, q, packet, lookups, Handled(resp));
    OneStep(Direct(), Any(), s, ServeConnect(q, packet, lookups, Handled(resp)));
    GoodNext(s, ServeConnect(q, packet, lookups, Handled(resp)), s1);
    p := Packet(packet.to, packet.from, Some(packet.body), ConnectResp(resp));
    AgreedAdmits(packet, request, lookups, resp);
    AdmittedLeaves(s, q, packet, request, resp, pid);
  }

  lemma AgreedAdmits(packet: Packet, r: ConnectRequest, found: Lookups, resp: ConnectResponse)
    requires r.sender == Some(packet.from) && r.receiver == Some(packet.to) && found == Lookups(Found, Found, Found)
    requires resp.errors == [] && resp.accepted
    ensures ConnectVerdict(packet.to, packet.from, r, found, Handled(resp)) == Admit(resp)
  {
  }

  lemma AdmittedLeaves(s: Sys, q: nat, packet: Packet, r: ConnectRequest, resp: ConnectResponse, pid: nat)
    requires r.sender.Some? && r.receiver.Some? && q !in s.threads && HasThread(s, pid)
    requires Key(packet.to, r.connectionID) !in s.entries
    ensures
      var s1 := AfterVerdictConnect(s, q, packet, r, Admit(resp));
      && Packet(packet.to, packet.from, Some(packet.body), ConnectResp(resp)) in s1.net
      && HasThread(s1, pid) && s1.threads[pid] == s.threads[pid] && s1.origin == s.origin
  {
  }

  lemma {:induction false} Above(ks: set<nat>) returns (n: nat)
    ensures forall k | k in ks :: k < n
  {
    if ks == {} {
      n := 0;
    } else {
      var k :| k in ks;
      var m := Above(ks - {k});
      n := if m > k then m else k + 1;
      assert forall j | j in ks :: j == k || j in ks - {k};
    }
  }

  lemma Unused(ks: set<nat>) returns (n: nat)
    ensures n !in ks
  {
    n := Above(ks);
  }

  lemma WaitingReopens(s: Sys, pid: nat)
    requires Hopeful(s, pid) && s.threads[pid].phase.AwaitingReceiver?
    ensures CanReopen(s, KeyOf(s.threads[pid]))
  {
    var t := s.threads[pid];
    if p :| p in s.net && IsGrant(s, t, p) {
      GrantedReopens(s, pid, p);
    } else {
      var s1, p := ReceiverGrants(s, pid);
      GrantedReopens(s1, pid, p);
      ReopensLater(s, s1, KeyOf(t));
    }
  }

  lemma GrantStays(s: Sys, s1: Sys, t: Thread, t1: Thread)
    requires t.id in s.origin && t.role.Connector? && CanBeGranted(s, t) && t1.(phase := Finished) == t.(phase := Finished)
    requires s1.origin == s.origin && s1.entries.Keys == s.entries.Keys && s.net <= s1.net
    ensures CanBeGranted(s1, t1)
  {
    if p :| p in s.net && IsGrant(s, t, p) {
      assert IsGrant(s1, t1, p);
    }
  }

  lemma EnteredReopens(s: Sys, pid: nat)
    requires Hopeful(s, pid) && s.threads[pid].phase.Entered?
    ensures CanReopen(s, KeyOf(s.threads[pid]))
  {
    var s1 := DoRequestReceiver(s, pid);
    OneStep(Direct(), Any(), s, RequestReceiver(pid));
    GoodNext(s, RequestReceiver(pid), s1);
    GrantStays(s, s1, s.threads[pid], s1.threads[pid]);
    WaitingReopens(s1, pid);
    ReopensLater(s, s1, KeyOf(s.threads[pid]));
  }

  lemma QueuedReopens(s: Sys, pid: nat)
    requires Hopeful(s, pid) && s.threads[pid].phase == Queued && Committed(s, pid).status == Closed
    ensures CanReopen(s, KeyOf(s.threads[pid]))
  {
    var s1 := LockFreed(s, pid);
    var s2 := DoAcquire(s1, pid);
    OneStep(Direct(), Any(), s1, Acquire(pid));
    GoodNext(s1, Acquire(pid), s2);
    GrantStays(s, s2, s.threads[pid], s2.threads[pid]);
    EnteredReopens(s2, pid);
    Onward(Direct(), Any(), s, s1, s2);
    ReopensLater(s, s2, KeyOf(s.threads[pid]));
  }

  lemma PersisterReopens(s: Sys, pid: nat)
    requires Good(s) && pid in s.threads && s.threads[pid].id in s.origin && MayPersist(s, s.threads[pid])
    requires HasThread(s, pid) && Committed(s, pid).status == Closed
    ensures CanReopen(s, KeyOf(s.threads[pid]))
  {
    var t := s.threads[pid];
    assert ThreadOK(EVERY_ANSWER, s, pid);
    if !BeforeGrant(t.phase) {
      ChosenReopens(s, pid);
    } else if t.role.Chooser? {
      ChooserReopens(s, pid);
    } else if t.phase == Queued {
      QueuedReopens(s, pid);
    } else if t.phase.Entered? {
      EnteredReopens(s, pid);
    } else {
      WaitingReopens(s, pid);
    }
  }

  // The exact condition

  ghost predicate Persisting(s: Sys, k: Key, pid: nat) {
    && pid in s.threads && KeyOf(s.threads[pid]) == k && s.threads[pid].id in s.origin && MayPersist(s, s.threads[pid])
  }

  /** In a reachable state, a Closed entry can stop being Closed if and only if a selection pending on it may still
      persist something else. */
  lemma ReopensExactly(states: seq<Sys>, events: seq<Event>, s: Sys, k: Key)
    requires OnRun(EVERY_ANSWER, Direct(), states, events, s) && k in s.entries && StatusAt(s, k) == Closed
    ensures CanReopen(s, k) <==> exists pid :: Persisting(s, k, pid)
  {
    GoodOnRun(states, events, s);
    if pid :| Persisting(s, k, pid) {
      PersisterReopens(s, pid);
    } else if CanReopen(s, k) {
      FrozenCannotReopen(s, k);
    }
  }

  lemma GoodOnRun(states: seq<Sys>, events: seq<Event>, s: Sys)
    requires IsRun(Direct(), states, events) && states[0] == Initial() && s in states
    ensures Good(s)
  {
    var i: nat :| i < |states| && states[i] == s;
    DirectIsHonest(EVERY_ANSWER, s.net);
    RunKeeps(EVERY_ANSWER, Direct(), states, events, i);
    TracesKept(EVERY_ANSWER, Direct(), states, events, i);
  }

  lemma NonePersisting(h: Honesty, s: Sys, k: Key)
    requires Inv(h, s) && k in s.entries && StatusAt(s, k) == Closed && forall pid :: !Persisting(s, k, pid)
    ensures Frozen(s, k)
  {
    forall pid | pid in s.threads && KeyOf(s.threads[pid]) == k && IsSelection(s.threads[pid])
      ensures s.threads[pid].id in s.origin && !MayPersist(s, s.threads[pid])
    {
      assert ThreadOK(h, s, pid);
      assert !Persisting(s, k, pid);
    }
  }

  lemma FrozenCannotReopen(s: Sys, k: Key)
    requires Good(s) && k in s.entries && StatusAt(s, k) == Closed && forall pid :: !Persisting(s, k, pid)
    ensures !CanReopen(s, k)
  {
    NonePersisting(EVERY_ANSWER, s, k);
    forall s' | Leads(Direct(), Any(), s, s') ensures k in s'.entries && StatusAt(s', k) == Closed {
      var states: seq<Sys>, events: seq<Event> :| Joins(Direct(), Any(), states, events, s, s');
      DirectIsHonest(EVERY_ANSWER, s'.net);
      FrozenForGood(EVERY_ANSWER, Direct(), states, events, |events|, k);
    }
  }

  /** At the receiver: exactly while the selection that the connect adapter started is pending, in any phase. */
  lemma ReceiverReopensExactly(states: seq<Sys>, events: seq<Event>, s: Sys, k: Key)
    requires OnRun(EVERY_ANSWER, Direct(), states, events, s) && k in s.entries && StatusAt(s, k) == Closed
    requires k.node != s.entries[k].conn.sender
    ensures CanReopen(s, k) <==>
      exists pid :: pid in s.threads && KeyOf(s.threads[pid]) == k && s.threads[pid].role.Chooser?
        && s.threads[pid].phase != Finished
  {
    GoodOnRun(states, events, s);
    ReopensExactly(states, events, s, k);
    assert EntryOK(EVERY_ANSWER, s, k);
    forall pid | pid in s.threads && KeyOf(s.threads[pid]) == k
      ensures Persisting(s, k, pid) <==> s.threads[pid].role.Chooser? && s.threads[pid].phase != Finished
    {
      assert ThreadOK(EVERY_ANSWER, s, pid);
    }
  }

  /** Over any transport that is honest about connect answers: without such a selection, Closed is final. */
  lemma ClosedForGood(h: Honesty, c: Channel, states: seq<Sys>, events: seq<Event>, i: nat, j: nat, k: Key)
    requires h.connect && IsRun(c, states, events) && states[0] == Initial() && i <= j < |states| && Honest(h, c, states[j].net)
    requires k in states[i].entries && StatusAt(states[i], k) == Closed && forall pid :: !Persisting(states[i], k, pid)
    ensures k in states[j].entries && StatusAt(states[j], k) == Closed
  {
    HonestBefore(h, c, states, events, i, j);
    RunKeeps(h, c, states, events, i);
    TracesKept(h, c, states, events, i);
    PartIsRun(c, states, events, i, j);
    NonePersisting(h, states[i], k);
    FrozenForGood(h, c, states[i..j + 1], events[i..j], j - i, k);
  }
}
