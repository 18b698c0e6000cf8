/** Every event keeps the invariant. */
module InvariantSteps {
  import opened Types
  import opened Serde
  import opened Rules
  import opened Protocol
  import opened Invariants

  // Shapes of change

  /** Only thread pid and the network change. */
  lemma PhaseKeeps(h: Honesty, s: Sys, s': Sys, pid: nat, ph: Phase)
    requires Inv(h, s) && pid in s.threads
    requires s' == SetPhase(s, pid, ph).(net := s'.net)
    requires ThreadOK(h, s', pid)
    requires forall p | p in s'.net && p !in s.net :: PacketOK(s', p)
    ensures Inv(h, s')
  {
    Frame(h, s, s', None, Some(pid));
  }

  /** The connections a selection that has not run yet can be queued on. */
  predicate Unstarted(conn: Connection) {
    (conn.status == RequestingReceiver || Ended(conn.status)) && conn.wit == None
  }

  /** An entry changes while no thread works on it. */
  lemma EntryKeeps(h: Honesty, s: Sys, s': Sys, k: Key, e: Entry)
    requires Inv(h, s) && k in s.entries && s' == SetEntry(s, k, e) && EntryOK(h, s', k)
    requires s.entries[k].conn.wit == Some(k.node) ==> e.conn.wit == Some(k.node)
    requires forall q | q in s.threads && KeyOf(s.threads[q]) == k ::
      !Holding(s.threads[q].phase) && (s.threads[q].role.Connector? && s.threads[q].phase != Finished ==> Unstarted(e.conn))
    ensures Inv(h, s')
  {
    forall q {:trigger ThreadOK(h, s', q)} | q in s'.threads && KeyOf(s'.threads[q]) == k ensures ThreadOK(h, s', q) {
      assert ThreadOK(h, s, q);
    }
    Frame(h, s, s', Some(k), None);
  }

  lemma InstallKeeps(h: Honesty, s: Sys, s': Sys, k: Key, conn: Connection)
    requires Inv(h, s) && k !in s.entries && s' == SetEntry(s, k, Entry(conn, None)) && EntryOK(h, s', k)
    ensures Inv(h, s')
  {
    forall q | q in s.threads ensures KeyOf(s.threads[q]) in s.entries {
      assert ThreadOK(h, s, q);
    }
    Frame(h, s, s', Some(k), None);
  }

  lemma SpawnKeeps(h: Honesty, s: Sys, s': Sys, pid: nat, t: Thread)
    requires Inv(h, s) && pid !in s.threads && s' == Spawn(s, pid, t) && ThreadOK(h, s', pid)
    requires IsSelection(t) ==> forall q | q in s.threads :: KeyOf(s.threads[q]) != KeyOf(t)
    ensures Inv(h, s')
  {
    Frame(h, s, s', None, Some(pid));
  }

  lemma PostKeeps(h: Honesty, s: Sys, p: Packet)
    requires Inv(h, s) && PacketOK(s, p)
    ensures Inv(h, Post(s, p))
  {
    PacketGrows(s, Post(s, p), p);
    Frame(h, s, Post(s, p), None, None);
  }

  /** A holder gives its entry back. */
  lemma ReleaseKeeps(h: Honesty, s: Sys, pid: nat, updated: Option<Connection>)
    requires Inv(h, s) && HasThread(s, pid) && Holding(s.threads[pid].phase)
    requires updated.Some? ==>
      var k := KeyOf(s.threads[pid]);
      && EntryOK(h, Release(s, pid, updated), k)
      && (s.entries[k].conn.wit == Some(k.node) ==> updated.value.wit == Some(k.node))
      && (s.threads[pid].role.Closer? && Unstarted(s.entries[k].conn) ==> Unstarted(updated.value))
    ensures Inv(h, Release(s, pid, updated))
  {
    var s1, s' := SetPhase(s, pid, Finished), Release(s, pid, updated);
    var k := KeyOf(s.threads[pid]);
    assert ThreadOK(h, s, pid) && EntryOK(h, s, k);
    if updated == None {
      ReleasedAsItWas(h, s, pid);
    }
    PhaseKeeps(h, s, s1, pid, Finished);
    forall q | q in s1.threads && KeyOf(s1.threads[q]) == k
      ensures !Holding(s1.threads[q].phase)
      ensures s1.threads[q].role.Connector? && s1.threads[q].phase != Finished ==> Unstarted(s'.entries[k].conn)
    {
      OtherAfterRelease(h, s, pid, q, s'.entries[k].conn);
    }
    EntryKeeps(h, s1, s', k, s'.entries[k]);
  }

  lemma ReleasedAsItWas(h: Honesty, s: Sys, pid: nat)
    requires Inv(h, s) && HasThread(s, pid)
    ensures EntryOK(h, Release(s, pid, None), KeyOf(s.threads[pid]))
  {
    var k := KeyOf(s.threads[pid]);
    assert EntryOK(h, s, k);
    EntryGrows(h, s, Release(s, pid, None), k);
  }

  /** A thread on the holder's entry is not holding itself, and waits on an unstarted connection. */
  lemma OtherAfterRelease(h: Honesty, s: Sys, pid: nat, q: nat, conn: Connection)
    requires pid in s.threads && q in s.threads && ThreadOK(h, s, pid) && ThreadOK(h, s, q) && OneSelection(s)
    requires Holding(s.threads[pid].phase) && KeyOf(s.threads[q]) == KeyOf(s.threads[pid])
    requires conn == s.entries[KeyOf(s.threads[pid])].conn
      || (s.threads[pid].role.Closer? && Unstarted(s.entries[KeyOf(s.threads[pid])].conn) ==> Unstarted(conn))
    ensures q != pid ==> !Holding(s.threads[q].phase)
    ensures q != pid && s.threads[q].role.Connector? && s.threads[q].phase != Finished ==> Unstarted(conn)
  {
  }

  /** An unheld entry is changed in one step. */
  lemma UpdateKeeps(h: Honesty, s: Sys, s': Sys, k: Key, conn: Connection)
    requires Inv(h, s) && Free(s, k)
    requires s' == SetEntry(s, k, Entry(conn, None)) && EntryOK(h, s', k)
    requires s.entries[k].conn.wit == Some(k.node) ==> conn.wit == Some(k.node)
    requires Unstarted(s.entries[k].conn) ==> Unstarted(conn)
    ensures Inv(h, s')
  {
    forall q | q in s.threads && KeyOf(s.threads[q]) == k
      ensures !Holding(s.threads[q].phase)
      ensures s.threads[q].role.Connector? && s.threads[q].phase != Finished ==> Unstarted(conn)
    {
      assert ThreadOK(h, s, q);
    }
    EntryKeeps(h, s, s', k, Entry(conn, None));
  }

  // Calls

  lemma ConnectKeeps(h: Honesty, s: Sys, pid: nat, node: PeerID, receiver: PeerID, w: WitnessSelector, id: ConnID)
    requires Inv(h, s) && CanConnect(s, pid, node, id)
    ensures Inv(h, DoConnect(s, pid, node, receiver, w, id))
  {
    var s' := DoConnect(s, pid, node, receiver, w, id);
    var s1 := s'.(threads := s.threads);
    forall q | q in s.threads ensures s.threads[q].id != id {
      assert ThreadOK(h, s, q);
    }
    CreateKeeps(h, s, node, receiver, w, id);
    SpawnKeeps(h, s1, s', pid, s'.threads[pid]);
  }

  lemma CreateKeeps(h: Honesty, s: Sys, node: PeerID, receiver: PeerID, w: WitnessSelector, id: ConnID)
    requires Inv(h, s) && id !in s.origin && Key(node, id) !in s.entries
    ensures
      var s1 := s.(origin := s.origin[id := Origin(node, receiver, w)]);
      var s2 := SetEntry(s1, Key(node, id), Entry(Connection(id, node, None, receiver, RequestingReceiver), None));
      Inv(h, s2) && id !in s2.chosen
  {
    var s1 := s.(origin := s.origin[id := Origin(node, receiver, w)]);
    var s2 := SetEntry(s1, Key(node, id), Entry(Connection(id, node, None, receiver, RequestingReceiver), None));
    forall q | q in s.threads ensures KeyOf(s.threads[q]) in s.entries {
      assert ThreadOK(h, s, q);
    }
    if id in s.chosen {
      ChosenHas(h, s, id);
      assert false;
    }
    Frame(h, s, s2, Some(Key(node, id)), None);
  }

  lemma BeginCloseKeeps(h: Honesty, s: Sys, pid: nat, node: PeerID, id: ConnID)
    requires Inv(h, s) && CanBeginClose(s, pid, node, id)
    ensures Inv(h, DoBeginClose(s, pid, node, id))
  {
    assert EntryOK(h, s, Key(node, id));
    SpawnKeeps(h, s, DoBeginClose(s, pid, node, id), pid, Thread(node, id, Closer, Queued));
  }

  // Locks

  lemma AcquireKeeps(h: Honesty, s: Sys, pid: nat)
    requires Inv(h, s) && CanAcquire(s, pid)
    ensures Inv(h, DoAcquire(s, pid))
  {
    var s' := DoAcquire(s, pid);
    var k := KeyOf(s.threads[pid]);
    var s1 := SetEntry(s, k, s'.entries[k]);
    assert ThreadOK(h, s, pid) && EntryOK(h, s, k);
    EntryGrows(h, s, s1, k);
    forall q | q in s.threads && KeyOf(s.threads[q]) == k
      ensures !Holding(s.threads[q].phase)
      ensures s.threads[q].role.Connector? && s.threads[q].phase != Finished ==> Unstarted(s.entries[k].conn)
    {
      assert ThreadOK(h, s, q);
    }
    EntryKeeps(h, s, s1, k, s'.entries[k]);
    assert ThreadOK(h, s1, pid) && EntryOK(h, s1, k);
    PhaseKeeps(h, s1, s', pid, s'.threads[pid].phase);
  }

  lemma AbandonKeeps(h: Honesty, s: Sys, pid: nat)
    requires Inv(h, s) && CanAbandon(s, pid)
    ensures Inv(h, DoAbandon(s, pid))
  {
    ReleaseKeeps(h, s, pid, None);
  }

  lemma CommitKeeps(h: Honesty, s: Sys, pid: nat)
    requires Inv(h, s) && CanCommit(s, pid)
    ensures Inv(h, DoCommit(s, pid))
  {
    var t := s.threads[pid];
    var k := KeyOf(t);
    assert ThreadOK(h, s, pid) && EntryOK(h, s, k) && OriginOK(s, t.id);
    if IsSelection(t) && s.entries[k].conn.wit.Some? {
      ChosenHas(h, s, t.id);
    }
    ReleaseKeeps(h, s, pid, Some(t.phase.conn));
  }

  // Selection

  lemma RequestReceiverKeeps(h: Honesty, s: Sys, pid: nat)
    requires Inv(h, s) && CanRequestReceiver(s, pid)
    ensures Inv(h, DoRequestReceiver(s, pid))
  {
    var s' := DoRequestReceiver(s, pid);
    assert ThreadOK(h, s, pid) && EntryOK(h, s, KeyOf(s.threads[pid]));
    PhaseKeeps(h, s, s', pid, s'.threads[pid].phase);
  }

  lemma TakeReceiverAnswerKeeps(h: Honesty, c: Channel, s: Sys, pid: nat, answer: Packet)
    requires Inv(h, s) && Honest(h, c, s.net) && CanTakeReceiverAnswer(c, s, pid, answer)
    ensures Inv(h, DoTakeReceiverAnswer(c, s, pid, answer))
  {
    var s' := DoTakeReceiverAnswer(c, s, pid, answer);
    var conn := s.threads[pid].phase.conn;
    assert ThreadOK(h, s, pid) && EntryOK(h, s, KeyOf(s.threads[pid])) && PacketOK(s, answer);
    if ConnectGranted(conn.id, c(answer.body).value.connectResponse) {
      PhaseKeeps(h, s, s', pid, Choosing(conn));
    } else {
      ReleaseKeeps(h, s, pid, None);
    }
  }

  lemma ChooseKeeps(h: Honesty, s: Sys, pid: nat, candidates: seq<PeerID>)
    requires Inv(h, s) && CanChoose(s, pid, candidates)
    ensures Inv(h, DoChoose(s, pid, candidates))
  {
    var s' := DoChoose(s, pid, candidates);
    assert ThreadOK(h, s, pid) && EntryOK(h, s, KeyOf(s.threads[pid]));
    PhaseKeeps(h, s, s', pid, s'.threads[pid].phase);
  }

  lemma AskKeeps(h: Honesty, s: Sys, pid: nat)
    requires Inv(h, s) && CanAsk(s, pid)
    ensures Inv(h, DoAsk(s, pid))
  {
    var s' := DoAsk(s, pid);
    assert ThreadOK(h, s, pid);
    PhaseKeeps(h, s, s', pid, s'.threads[pid].phase);
  }

  lemma GiveUpKeeps(h: Honesty, s: Sys, pid: nat)
    requires Inv(h, s) && CanGiveUp(s, pid)
    ensures Inv(h, DoGiveUp(s, pid))
  {
    var s' := DoGiveUp(s, pid);
    assert ThreadOK(h, s, pid);
    PhaseKeeps(h, s, s', pid, s'.threads[pid].phase);
  }

  lemma FailCandidateKeeps(h: Honesty, s: Sys, pid: nat)
    requires Inv(h, s) && CanFailCandidate(s, pid)
    ensures Inv(h, DoFailCandidate(s, pid))
  {
    var s' := DoFailCandidate(s, pid);
    assert ThreadOK(h, s, pid);
    PhaseKeeps(h, s, s', pid, s'.threads[pid].phase);
  }

  lemma TakeCandidateAnswerKeeps(h: Honesty, c: Channel, s: Sys, pid: nat, answer: Packet)
    requires Inv(h, s) && Honest(h, c, s.net) && CanTakeCandidateAnswer(c, s, pid, answer)
    ensures Inv(h, DoTakeCandidateAnswer(c, s, pid, answer))
  {
    var s' := DoTakeCandidateAnswer(c, s, pid, answer);
    var t := s.threads[pid];
    assert ThreadOK(h, s, pid) && PacketOK(s, answer);
    if WitnessGranted(t.phase.conn.id, c(answer.body).value.witnessResponse) {
      NamingKeeps(h, s, s', pid, t.phase.candidate);
    } else {
      PhaseKeeps(h, s, s', pid, s'.threads[pid].phase);
    }
  }

  ghost predicate Names(h: Honesty, s: Sys, s': Sys, pid: nat, w: PeerID) {
    && pid in s.threads && s.threads[pid].phase.AwaitingCandidate?
    && var t := s.threads[pid];
       && t.id in s.origin && !IsEnd(s.origin[t.id], w) && (h.wit ==> Witnesses(s, w, t.id))
       && s' == SetPhase(s, pid, AnswerPhase(t.phase.conn, w, [], true)).(chosen := s.chosen[t.id := w])
  }

  lemma NamerKept(h: Honesty, s: Sys, s': Sys, pid: nat, w: PeerID)
    requires Inv(h, s) && Names(h, s, s', pid, w)
    ensures MayChoose(s, s.threads[pid]) && s.threads[pid].id !in s.chosen
    ensures Grows(s, s') && ThreadOK(h, s', pid) && ChosenOK(h, s', s.threads[pid].id)
  {
    assert ThreadOK(h, s, pid);
  }

  /** Naming a witness is the one step that decides; no other thread on the connection may still decide. */
  lemma NamingKeeps(h: Honesty, s: Sys, s': Sys, pid: nat, w: PeerID)
    requires Inv(h, s) && Names(h, s, s', pid, w)
    ensures Inv(h, s')
  {
    NamerKept(h, s, s', pid, w);
    forall q {:trigger ThreadOK(h, s', q)} | q in s'.threads && q != pid && s'.threads[q].id == s.threads[pid].id
      ensures ThreadOK(h, s', q)
    {
      OtherThreadKept(h, s, s', pid, q);
    }
    Frame(h, s, s', None, Some(pid));
  }

  lemma OtherThreadKept(h: Honesty, s: Sys, s': Sys, pid: nat, q: nat)
    requires Inv(h, s) && Grows(s, s') && pid in s.threads && MayChoose(s, s.threads[pid]) && q != pid
    requires q in s.threads && q in s'.threads && s'.threads[q] == s.threads[q] && s.threads[q].id == s.threads[pid].id
    requires s'.entries == s.entries
    ensures ThreadOK(h, s', q)
  {
    assert ThreadOK(h, s, q);
    if MayChoose(s, s.threads[q]) {
      OnlyOneMayChoose(h, s, pid, q);
    }
    ThreadGrows(h, s, s', q);
  }

  lemma OnlyOneMayChoose(h: Honesty, s: Sys, p: nat, q: nat)
    requires Inv(h, s) && p in s.threads && q in s.threads && s.threads[p].id == s.threads[q].id
    requires MayChoose(s, s.threads[p]) && MayChoose(s, s.threads[q])
    ensures p == q
  {
    assert ThreadOK(h, s, p) && ThreadOK(h, s, q);
  }

  lemma NotifyKeeps(h: Honesty, s: Sys, pid: nat, sent: bool, ok: bool)
    requires Inv(h, s) && CanNotify(s, pid, sent, ok)
    ensures Inv(h, DoNotify(s, pid, sent, ok))
  {
    var s' := DoNotify(s, pid, sent, ok);
    assert ThreadOK(h, s, pid);
    PhaseKeeps(h, s, s', pid, s'.threads[pid].phase);
  }

  // Closing

  lemma TargetsParticipate(h: Honesty, s: Sys, k: Key)
    requires k in s.entries && EntryOK(h, s, k)
    ensures forall p :: p in CloseTargets(k.node, s.entries[k].conn) ==> p != k.node && Participates(s, p, k.id)
  {
    var conn := s.entries[k].conn;
    OthersAre(k.node, [Some(conn.sender), conn.wit, Some(conn.receiver)]);
  }

  lemma StartCloseKeeps(h: Honesty, s: Sys, pid: nat)
    requires Inv(h, s) && CanStartClose(s, pid)
    ensures Inv(h, DoStartClose(s, pid))
  {
    var s' := DoStartClose(s, pid);
    assert ThreadOK(h, s, pid) && EntryOK(h, s, KeyOf(s.threads[pid]));
    TargetsParticipate(h, s, KeyOf(s.threads[pid]));
    PhaseKeeps(h, s, s', pid, s'.threads[pid].phase);
  }

  lemma TellOneKeeps(h: Honesty, s: Sys, pid: nat, sent: bool, ok: bool)
    requires Inv(h, s) && CanTellOne(s, pid, sent, ok)
    ensures Inv(h, DoTellOne(s, pid, sent, ok))
  {
    var s' := DoTellOne(s, pid, sent, ok);
    assert ThreadOK(h, s, pid);
    var rest := s.threads[pid].phase.rest;
    assert rest[0] in rest && forall p :: p in rest[1..] ==> p in rest;
    PhaseKeeps(h, s, s', pid, s'.threads[pid].phase);
  }

  lemma EndTellingKeeps(h: Honesty, s: Sys, pid: nat)
    requires Inv(h, s) && CanEndTelling(s, pid)
    ensures Inv(h, DoEndTelling(s, pid))
  {
    var s' := DoEndTelling(s, pid);
    assert ThreadOK(h, s, pid);
    PhaseKeeps(h, s, s', pid, s'.threads[pid].phase);
  }

  // Adapters

  lemma ServeConnectKeeps(
    h: Honesty, c: Channel, s: Sys, pid: nat, packet: Packet, found: Lookups, user: Reply<ConnectResponse>)
    requires Inv(h, s) && Honest(h, c, s.net) && CanServeConnect(c, s, pid, packet)
    ensures Inv(h, DoServeConnect(c, s, pid, packet, found, user))
  {
    var s' := DoServeConnect(c, s, pid, packet, found, user);
    var r := packet.body.connectRequest;
    assert c(packet.body).value == packet.body;
    assert PacketOK(s, packet) && OriginOK(s, r.connectionID);
    var k := Key(packet.to, r.connectionID);
    match ConnectVerdict(packet.to, packet.from, r, found, user)
    case Silent =>
    case Answer(resp) =>
      PostKeeps(h, s, Packet(packet.to, packet.from, Some(packet.body), ConnectResp(resp)));
    case Admit(resp) =>
      if k in s.entries {
        var refused := resp.(errors := resp.errors + [DuplicateError(r.connectionID)]);
        PostKeeps(h, s, Packet(packet.to, packet.from, Some(packet.body), ConnectResp(refused)));
      } else {
        EnterConnectionKeeps(h, s, s', pid, packet, resp);
      }
  }

  /** The receiver's entry is new, so no selection has run there and none has chosen. */
  lemma EnterConnectionKeeps(h: Honesty, s: Sys, s': Sys, pid: nat, packet: Packet, resp: ConnectResponse)
    requires Inv(h, s) && PacketOK(s, packet) && packet.body.ConnectReq?
    requires pid !in s.threads && Key(packet.to, packet.body.connectRequest.connectionID) !in s.entries
    requires
      var r := packet.body.connectRequest;
      var o := s.origin[r.connectionID];
      var conn := Connection(r.connectionID, o.sender, None, o.receiver, AwaitingWitness);
      var s1 := SetEntry(s, Key(packet.to, r.connectionID), Entry(conn, None));
      var s2 :=
        if StartsSelection(packet.to, r) then Spawn(s1, pid, Thread(packet.to, r.connectionID, Chooser(r.selector), Queued))
        else s1;
      s' == Post(s2, Packet(packet.to, packet.from, Some(packet.body), ConnectResp(resp)))
    ensures Inv(h, s')
  {
    var r := packet.body.connectRequest;
    var id := r.connectionID;
    var k := Key(packet.to, id);
    var o := s.origin[id];
    assert OriginOK(s, id);
    assert packet.to == o.receiver && packet.to != o.sender;
    var conn := Connection(id, o.sender, None, o.receiver, AwaitingWitness);
    var s1 := SetEntry(s, k, Entry(conn, None));
    InstallKeeps(h, s, s1, k, conn);
    var s2 := s1;
    if StartsSelection(packet.to, r) {
      var t := Thread(packet.to, id, Chooser(r.selector), Queued);
      s2 := Spawn(s1, pid, t);
      ChooserOK(h, s, s1, s2, pid, t);
      SpawnKeeps(h, s1, s2, pid, t);
    }
    PostKeeps(h, s2, Packet(packet.to, packet.from, Some(packet.body), ConnectResp(resp)));
  }

  lemma ChooserOK(h: Honesty, s: Sys, s1: Sys, s2: Sys, pid: nat, t: Thread)
    requires Inv(h, s) && t.id in s.origin && KeyOf(t) !in s.entries
    requires t.node == s.origin[t.id].receiver != s.origin[t.id].sender
    requires t.role == Chooser(ReceiverSelects) && s.origin[t.id].selector == ReceiverSelects && t.phase == Queued
    requires KeyOf(t) in s1.entries && s1.entries[KeyOf(t)].conn.id == t.id
    requires s1 == SetEntry(s, KeyOf(t), s1.entries[KeyOf(t)]) && s2 == Spawn(s1, pid, t)
    ensures ThreadOK(h, s2, pid)
    ensures forall q | q in s1.threads :: KeyOf(s1.threads[q]) != KeyOf(t)
  {
    forall q | q in s.threads ensures KeyOf(s.threads[q]) in s.entries {
      assert ThreadOK(h, s, q);
    }
    if t.id in s.chosen {
      ChosenHas(h, s, t.id);
    }
  }

  lemma ServeWitnessKeeps(
    h: Honesty, c: Channel, s: Sys, pid: nat, packet: Packet, found: Lookups, user: Reply<WitnessResponse>)
    requires Inv(h, s) && Honest(h, c, s.net) && CanServeWitness(c, s, pid, packet)
    ensures Inv(h, DoServeWitness(c, s, pid, packet, found, user))
  {
    var s' := DoServeWitness(c, s, pid, packet, found, user);
    var r := packet.body.witnessRequest;
    assert c(packet.body).value == packet.body;
    assert PacketOK(s, packet);
    var k := Key(packet.to, r.connectionID);
    match WitnessVerdict(packet.to, packet.from, r, found, user)
    case Silent =>
    case Answer(resp) =>
      PostKeeps(h, s, Packet(packet.to, packet.from, Some(packet.body), WitnessResp(resp)));
    case Admit(resp) =>
      if k in s.entries {
        var refused := resp.(errors := resp.errors + [DuplicateError(r.connectionID)]);
        PostKeeps(h, s, Packet(packet.to, packet.from, Some(packet.body), WitnessResp(refused)));
      } else {
        var s1 := SetEntry(s, k, s'.entries[k]);
        InstallKeeps(h, s, s1, k, s'.entries[k].conn);
        SpawnKeeps(h, s1, s', pid, s'.threads[pid]);
      }
  }

  lemma NameSelfKeeps(h: Honesty, s: Sys, pid: nat, self: Lookup)
    requires Inv(h, s) && CanNameSelf(s, pid)
    ensures Inv(h, DoNameSelf(s, pid, self))
  {
    var s' := DoNameSelf(s, pid, self);
    var t := s.threads[pid];
    var k := KeyOf(t);
    assert ThreadOK(h, s, pid) && EntryOK(h, s, k);
    var s1 := SetPhase(s, pid, Finished);
    PhaseKeeps(h, s, s1, pid, Finished);
    if self.Found? {
      var s2 := SetEntry(s1, k, s'.entries[k]);
      NotALockedEnd(h, s, pid);
      EntryKeeps(h, s1, s2, k, s'.entries[k]);
      PostKeeps(h, s2, Packet(t.node, t.role.to, Some(t.role.re), WitnessResp(t.role.response)));
    } else {
      var failure := WitnessResponse(t.id, [self.message], false, []);
      PostKeeps(h, s1, Packet(t.node, t.role.to, Some(t.role.re), WitnessResp(failure)));
    }
  }

  /** No selection runs at a witness, and a free entry has no holder. */
  lemma NotALockedEnd(h: Honesty, s: Sys, pid: nat)
    requires Inv(h, s) && CanNameSelf(s, pid)
    ensures forall q | q in s.threads && KeyOf(s.threads[q]) == KeyOf(s.threads[pid]) ::
      !Holding(s.threads[q].phase) && !s.threads[q].role.Connector?
  {
    forall q | q in s.threads && KeyOf(s.threads[q]) == KeyOf(s.threads[pid])
      ensures !Holding(s.threads[q].phase) && !s.threads[q].role.Connector?
    {
      assert ThreadOK(h, s, q) && ThreadOK(h, s, pid);
    }
  }

  lemma ServeNotificationKeeps(h: Honesty, c: Channel, s: Sys, packet: Packet, selfFound: bool, userOk: bool)
    requires Inv(h, s) && Honest(h, c, s.net) && CanServeNotification(c, s, packet)
    ensures Inv(h, DoServeNotification(c, s, packet, selfFound, userOk))
  {
    var s' := DoServeNotification(c, s, packet, selfFound, userOk);
    assert c(packet.body).value == packet.body;
    var k := Key(packet.to, packet.body.notification.connectionID);
    assert PacketOK(s, packet) && EntryOK(h, s, k) && ChosenOK(h, s, k.id);
    UpdateKeeps(h, s, s', k, s'.entries[k].conn);
  }

  lemma ServeCloseKeeps(h: Honesty, c: Channel, s: Sys, packet: Packet, userOk: bool)
    requires Inv(h, s) && Honest(h, c, s.net) && CanServeClose(c, s, packet)
    ensures Inv(h, DoServeClose(c, s, packet, userOk))
  {
    var s' := DoServeClose(c, s, packet, userOk);
    var k := Key(packet.to, c(packet.body).value.closeRequest.connectionID);
    assert EntryOK(h, s, k);
    UpdateKeeps(h, s, s', k, s'.entries[k].conn);
  }

  // All of them

  lemma InitialKeeps(h: Honesty)
    ensures Inv(h, Initial())
  {
  }

  predicate IsAdapterEvent(e: Event) {
    e.ServeConnect? || e.ServeWitness? || e.NameSelf? || e.ServeNotification? || e.ServeClose?
  }

  predicate IsPhaseEvent(e: Event) {
    || e.RequestReceiver? || e.TakeReceiverAnswer? || e.Choose? || e.Ask? || e.GiveUp?
    || e.TakeCandidateAnswer? || e.FailCandidate? || e.Notify?
  }

  lemma AdapterKeeps(h: Honesty, c: Channel, s: Sys, e: Event)
    requires Inv(h, s) && Honest(h, c, s.net) && Enabled(c, s, e) && IsAdapterEvent(e)
    ensures Inv(h, Next(c, s, e))
  {
    match e
    case ServeConnect(pid, packet, found, user) => ServeConnectKeeps(h, c, s, pid, packet, found, user);
    case ServeWitness(pid, packet, found, user) => ServeWitnessKeeps(h, c, s, pid, packet, found, user);
    case NameSelf(pid, self) => NameSelfKeeps(h, s, pid, self);
    case ServeNotification(packet, selfFound, userOk) => ServeNotificationKeeps(h, c, s, packet, selfFound, userOk);
    case ServeClose(packet, userOk) => ServeCloseKeeps(h, c, s, packet, userOk);
    case _ =>
  }

  lemma SelectionKeeps(h: Honesty, c: Channel, s: Sys, e: Event)
    requires Inv(h, s) && Honest(h, c, s.net) && Enabled(c, s, e) && IsPhaseEvent(e)
    ensures Inv(h, Next(c, s, e))
  {
    match e
    case RequestReceiver(pid) => RequestReceiverKeeps(h, s, pid);
    case TakeReceiverAnswer(pid, answer) => TakeReceiverAnswerKeeps(h, c, s, pid, answer);
    case Choose(pid, candidates) => ChooseKeeps(h, s, pid, candidates);
    case Ask(pid) => AskKeeps(h, s, pid);
    case GiveUp(pid) => GiveUpKeeps(h, s, pid);
    case TakeCandidateAnswer(pid, answer) => TakeCandidateAnswerKeeps(h, c, s, pid, answer);
    case FailCandidate(pid) => FailCandidateKeeps(h, s, pid);
    case Notify(pid, sent, ok) => NotifyKeeps(h, s, pid, sent, ok);
    case _ =>
  }

  lemma LocalKeeps(h: Honesty, c: Channel, s: Sys, e: Event)
    requires Inv(h, s) && Enabled(c, s, e) && !IsAdapterEvent(e) && !IsPhaseEvent(e)
    ensures Inv(h, Next(c, s, e))
  {
    match e
    case Connect(pid, node, receiver, w, id) => ConnectKeeps(h, s, pid, node, receiver, w, id);
    case BeginClose(pid, node, id) => BeginCloseKeeps(h, s, pid, node, id);
    case Acquire(pid) => AcquireKeeps(h, s, pid);
    case Abandon(pid) => AbandonKeeps(h, s, pid);
    case Commit(pid) => CommitKeeps(h, s, pid);
    case StartClose(pid) => StartCloseKeeps(h, s, pid);
    case TellOne(pid, sent, ok) => TellOneKeeps(h, s, pid, sent, ok);
    case EndTelling(pid) => EndTellingKeeps(h, s, pid);
    case _ =>
  }

  lemma StepKeeps(h: Honesty, c: Channel, s: Sys, e: Event, s': Sys)
    requires Inv(h, s) && Honest(h, c, s.net) && Step(c, s, e, s')
    ensures Inv(h, s')
  {
    if IsAdapterEvent(e) {
      AdapterKeeps(h, c, s, e);
    } else if IsPhaseEvent(e) {
      SelectionKeeps(h, c, s, e);
    } else {
      LocalKeeps(h, c, s, e);
    }
  }
}
