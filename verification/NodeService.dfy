/** A node object: its store, the adapters that serve arriving messages, and the calls its user makes.
    One call at a time; what other threads may do between two store operations is the protocol's part. */
module NodeService {
  import opened Types
  import opened Rules
  import opened ConnectionStore
  import opened Node

  function Requested(self: PeerID, id: ConnID, receiver: PeerID): Connection {
    Connection(id, self, None, receiver, RequestingReceiver)
  }

  /** The connection Connect leaves behind: the bare request unless the receiver granted it and the
      selection had something to persist. */
  function Connected(
    self: PeerID, id: ConnID, receiver: PeerID, s: WitnessSelector, receiverFound: bool,
    answer: Option<ConnectResponse>, w: Surroundings): Written<Connection>
  {
    if !receiverFound || answer.None? || !ConnectGranted(id, answer.value) then Written(None, true)
    else Selection(self, Requested(self, id, receiver), s, w)
  }

  /** Every way Connect's update can end. */
  lemma ConnectedIs(
    self: PeerID, id: ConnID, receiver: PeerID, s: WitnessSelector, receiverFound: bool,
    answer: Option<ConnectResponse>, w: Surroundings)
    ensures
      var result := Connected(self, id, receiver, s, receiverFound, answer, w);
      var requested := Connection(id, self, None, receiver, RequestingReceiver);
      var granted :=
        && receiverFound && answer.Some? && w.selfFound
        && answer.value.connectionID == id && answer.value.errors == [] && answer.value.accepted;
      && (!granted ==> result == Written(None, true))
      && (granted && s == NilSelector ==> result == Written(Some(requested), true))
      && (granted && s == ReceiverSelects && receiver != self ==>
            result == Written(Some(requested.(status := AwaitingWitness)), false))
      && (granted && (s == SenderSelects || (s == ReceiverSelects && receiver == self)) ==>
            var cs := if w.peers.Ok? then Eligible(w.peers.value, requested, w.assess) else [];
            forall n: nat | FirstGrant(id, w.replies, n, |cs|) ::
              result ==
                if n == |cs| then Written(Some(requested.(status := RequestingWitness)), true)
                else if w.notified then Written(Some(requested.(wit := Some(cs[n]), status := Open)), false)
                else Written(Some(requested.(wit := Some(cs[n]), status := NotifyingOfWitness)), true))
  {
    var requested := Connection(id, self, None, receiver, RequestingReceiver);
    forall n: nat | w.selfFound && Chooses(self, requested, s) && FirstGrant(id, w.replies, n, |Candidates(requested, w)|)
      ensures
        var cs := Candidates(requested, w);
        Selection(self, requested, s, w) ==
          if n == |cs| then Written(Some(requested.(status := RequestingWitness)), true)
          else if w.notified then Written(Some(requested.(wit := Some(cs[n]), status := Open)), false)
          else Written(Some(requested.(wit := Some(cs[n]), status := NotifyingOfWitness)), true)
    {
      SelectionEnds(self, requested, s, w, n);
    }
  }

  function Persisted(store: map<ConnID, Connection>, id: ConnID, w: Written<Connection>): map<ConnID, Connection> {
    if w.updated.Some? then store[id := w.updated.value] else store
  }

  lemma PersistedOver(store: map<ConnID, Connection>, id: ConnID, conn: Connection, w: Written<Connection>)
    ensures Persisted(store[id := conn], id, w) == store[id := if w.updated.Some? then w.updated.value else conn]
  {
  }

  function Stored(
    store: map<ConnID, Connection>, id: ConnID, conn: Option<Connection>): map<ConnID, Connection>
  {
    if conn.Some? then store[id := conn.value] else store
  }

  /** The store after both updates of a witness, and its answer. */
  function WitnessServed(
    self: PeerID, r: WitnessRequest, v: Verdict<WitnessResponse>, selfAgain: Lookup, store: map<ConnID, Connection>)
    : (map<ConnID, Connection>, Option<WitnessResponse>)
    requires r.sender.Some? && r.receiver.Some?
  {
    var served := ServedWitness(r.connectionID in store, r, v);
    if !served.starts then (Stored(store, r.connectionID, served.entered), served.response)
    else
      var conn := served.entered.value;
      if selfAgain.Found? then (store[r.connectionID := conn.SetWitness(self)], Some(v.response))
      else (store[r.connectionID := conn], Some(WitnessResponse(r.connectionID, [selfAgain.message], false, [])))
  }

  class ClarinetNode {
    const self: PeerID
    const store: Store
    /** Selections started by the connect adapter and not yet run. */
    var queued: seq<(ConnID, WitnessSelector)>

    constructor (self: PeerID)
      ensures this.self == self && fresh(store) && store.Valid() && store.Contents() == map[] && queued == []
    {
      this.self := self;
      store := new Store();
      queued := [];
    }

    // Calls

    /** id is None when the receiver's addresses cannot be recorded, the node does not find itself or no ID can be
        drawn; connID is None where the code returns the zero ID. */
    method Connect(
      id: Option<ConnID>, receiver: PeerID, s: WitnessSelector, receiverFound: bool, answer: Option<ConnectResponse>,
      w: Surroundings)
      returns (connID: Option<ConnID>, failed: bool)
      requires store.Valid()
      modifies store, store.conns.Values
      ensures store.Valid()
      ensures id.None? || id.value in old(store.Contents()) ==>
        failed && connID == None && store.Contents() == old(store.Contents())
      ensures id.Some? && id.value !in old(store.Contents()) ==>
        var r := Connected(self, id.value, receiver, s, receiverFound, answer, w);
        && failed == r.failed && connID == id
        && store.Contents() ==
             Persisted(old(store.Contents())[id.value := Requested(self, id.value, receiver)], id.value, r)
      ensures id.Some? && id.value !in old(store.Contents()) ==>
        var requested := Connection(id.value, self, None, receiver, RequestingReceiver);
        var granted :=
          && receiverFound && answer.Some? && w.selfFound
          && answer.value.connectionID == id.value && answer.value.errors == [] && answer.value.accepted;
        && (!granted || s == NilSelector ==> failed && store.Contents() == old(store.Contents())[id.value := requested])
        && (granted && s == ReceiverSelects && receiver != self ==>
              !failed && store.Contents() == old(store.Contents())[id.value := requested.(status := AwaitingWitness)])
        && (granted && (s == SenderSelects || (s == ReceiverSelects && receiver == self)) ==>
              var cs := if w.peers.Ok? then Eligible(w.peers.value, requested, w.assess) else [];
              forall n: nat | FirstGrant(id.value, w.replies, n, |cs|) ::
                && failed == (n == |cs| || !w.notified)
                && store.Contents() == old(store.Contents())[id.value :=
                     if n == |cs| then requested.(status := RequestingWitness)
                     else requested.(wit := Some(cs[n]), status := if w.notified then Open else NotifyingOfWitness)])
    {
      if id.None? {
        return None, true;
      }
      var created := store.Accept(id.value, self, receiver, RequestingReceiver);
      if !created {
        return None, true;
      }
      connID := id;
      var result: Written<Connection>;
      if !receiverFound || answer.None? || !ConnectGranted(id.value, answer.value) {
        result := Written(None, true);
      } else {
        result := HandleWitnessSelection(self, Requested(self, id.value, receiver), s, w);
      }
      failed := store.Update(id.value, _ => result);
      ConnectedIs(self, id.value, receiver, s, receiverFound, answer, w);
      PersistedOver(old(store.Contents()), id.value, Requested(self, id.value, receiver), result);
      assert failed == result.failed;
      assert store.Contents() == old(store.Contents())[id.value :=
        if result.updated.Some? then result.updated.value else Requested(self, id.value, receiver)];
    }

    /** A selection the connect adapter started. */
    method RunSelection(id: ConnID, s: WitnessSelector, w: Surroundings) returns (failed: bool)
      requires store.Valid()
      modifies store.conns.Values
      ensures store.Valid()
      ensures id !in old(store.Contents()) ==> failed && store.Contents() == old(store.Contents())
      ensures id in old(store.Contents()) ==>
        var r := Selection(self, old(store.Contents())[id], s, w);
        failed == r.failed && store.Contents() == Persisted(old(store.Contents()), id, r)
    {
      var conn := store.Read(id);
      if conn.None? {
        return true;
      }
      var result := HandleWitnessSelection(self, conn.value, s, w);
      failed := store.Update(id, _ => result);
    }

    method CloseConnection(id: ConnID, selfFound: bool, found: Luck, sent: Luck) returns (failed: bool, told: seq<PeerID>)
      requires store.Valid()
      modifies store.conns.Values
      ensures store.Valid()
      ensures id !in old(store.Contents()) ==> failed && told == [] && store.Contents() == old(store.Contents())
      ensures id in old(store.Contents()) ==>
        var conn := old(store.Contents())[id];
        var targets :=
          (if conn.sender != self then [conn.sender] else [])
          + (if conn.wit.Some? && conn.wit.value != self then [conn.wit.value] else [])
          + (if conn.receiver != self then [conn.receiver] else []);
        if conn.status == Closed || !selfFound then
          told == [] && failed == (conn.status != Closed) && store.Contents() == old(store.Contents())
        else
          && told == Reached(targets, found)
          && (failed <==> exists j: nat :: j < |targets| && !(found(j) && sent(j)))
          && store.Contents() == old(store.Contents())[id := conn.(status := if failed then Closing else Closed)]
    {
      var conn := store.Read(id);
      if conn.None? {
        return true, [];
      }
      var result, lookedUp, reached := CloseCallback(if selfFound then Some(self) else None, conn.value, found, sent);
      told := reached;
      failed := store.Update(id, _ => result);
    }

    // Adapters

    method HandleConnect(from: PeerID, r: ConnectRequest, found: Lookups, user: Reply<ConnectResponse>)
      returns (response: Option<ConnectResponse>)
      requires store.Valid() && r.sender.Some? && r.receiver.Some?
      modifies this, store
      ensures store.Valid()
      ensures
        var served :=
          ServedConnect(self, r.connectionID in old(store.Contents()), r, ConnectVerdict(self, from, r, found, user));
        && store.Contents() == Stored(old(store.Contents()), r.connectionID, served.entered)
        && response == served.response
        && queued == if served.starts then old(queued) + [(r.connectionID, r.selector)] else old(queued)
      ensures
        var allowed :=
          && found.sender.Found? && found.receiver.Found? && (r.sender == Some(from) || r.receiver == Some(from))
          && found.self.Found? && (r.sender == Some(self) || r.receiver == Some(self));
        var agreed := allowed && user.Handled? && user.response.errors == [] && user.response.accepted;
        var entered := agreed && r.connectionID !in old(store.Contents());
        var conn := Connection(r.connectionID, r.sender.value, None, r.receiver.value, AwaitingWitness);
        && store.Contents() == (if entered then old(store.Contents())[r.connectionID := conn] else old(store.Contents()))
        && queued ==
             (if entered && ((r.selector == ReceiverSelects && r.receiver == Some(self))
                             || (r.selector == SenderSelects && r.sender == Some(self)))
              then old(queued) + [(r.connectionID, r.selector)] else old(queued))
      ensures
        var allowed :=
          && found.sender.Found? && found.receiver.Found? && (r.sender == Some(from) || r.receiver == Some(from))
          && found.self.Found? && (r.sender == Some(self) || r.receiver == Some(self));
        var known := r.connectionID in old(store.Contents());
        && (response == None <==> allowed && user.HandlerFailed?)
        && (allowed && user.Handled? && (user.response.errors != [] || !user.response.accepted || !known) ==>
              response == Some(user.response))
        && (allowed && user.Handled? && user.response.errors == [] && user.response.accepted && known ==>
              response == Some(user.response.(errors := user.response.errors + [DuplicateError(r.connectionID)])))
        && (!allowed ==>
              response == Some(
                if found.sender.Missing? then ConnectResponse(r.connectionID, [found.sender.message], false, [])
                else if found.receiver.Missing? then ConnectResponse(r.connectionID, [found.receiver.message], false, [])
                else if r.sender != Some(from) && r.receiver != Some(from) then
                  ConnectResponse(r.connectionID, [], false, [NOT_A_PARTY])
                else if found.self.Missing? then ConnectResponse(r.connectionID, [found.self.message], false, [])
                else ConnectResponse(r.connectionID, [], false, [NOT_OURS])))
    {
      if found.sender.Missing? {
        return Some(ConnectResponse(r.connectionID, [found.sender.message], false, []));
      }
      if found.receiver.Missing? {
        return Some(ConnectResponse(r.connectionID, [found.receiver.message], false, []));
      }
      if r.sender != Some(from) && r.receiver != Some(from) {
        return Some(ConnectResponse(r.connectionID, [], false, [NOT_A_PARTY]));
      }
      if found.self.Missing? {
        return Some(ConnectResponse(r.connectionID, [found.self.message], false, []));
      }
      if r.sender != Some(self) && r.receiver != Some(self) {
        return Some(ConnectResponse(r.connectionID, [], false, [NOT_OURS]));
      }
      if user.HandlerFailed? {
        return None;
      }
      var resp := user.response;
      if |resp.errors| > 0 || !resp.accepted {
        return Some(resp);
      }
      var accepted := store.Accept(r.connectionID, r.sender.value, r.receiver.value, AwaitingWitness);
      if !accepted {
        return Some(resp.(errors := resp.errors + [DuplicateError(r.connectionID)]));
      }
      if (r.selector == ReceiverSelects && r.receiver == Some(self))
        || (r.selector == SenderSelects && r.sender == Some(self)) {
        queued := queued + [(r.connectionID, r.selector)];
      }
      response := Some(resp);
    }

    /** Accept, then an update that names this node; only after both is an admitted request answered. */
    method HandleWitness(from: PeerID, r: WitnessRequest, found: Lookups, user: Reply<WitnessResponse>, selfAgain: Lookup)
      returns (response: Option<WitnessResponse>)
      requires store.Valid() && r.sender.Some? && r.receiver.Some?
      modifies store, store.conns.Values
      ensures store.Valid()
      ensures
        var served := WitnessServed(self, r, WitnessVerdict(self, from, r, found, user), selfAgain, old(store.Contents()));
        store.Contents() == served.0 && response == served.1
      ensures
        var agreed :=
          && found.sender.Found? && found.receiver.Found? && (r.sender == Some(from) || r.receiver == Some(from))
          && found.self.Found? && r.sender != Some(self) && r.receiver != Some(self)
          && user.Handled? && user.response.errors == [] && user.response.accepted;
        var conn := Connection(r.connectionID, r.sender.value, None, r.receiver.value, Open);
        store.Contents() ==
          if agreed && r.connectionID !in old(store.Contents()) then
            old(store.Contents())[r.connectionID := if selfAgain.Found? then conn.(wit := Some(self)) else conn]
          else old(store.Contents())
      ensures
        var allowed :=
          && found.sender.Found? && found.receiver.Found? && (r.sender == Some(from) || r.receiver == Some(from))
          && found.self.Found? && r.sender != Some(self) && r.receiver != Some(self);
        var known := r.connectionID in old(store.Contents());
        && (response == None <==> allowed && user.HandlerFailed?)
        && (allowed && user.Handled? && (user.response.errors != [] || !user.response.accepted) ==>
              response == Some(user.response))
        && (allowed && user.Handled? && user.response.errors == [] && user.response.accepted ==>
              response == Some(
                if known then user.response.(errors := user.response.errors + [DuplicateError(r.connectionID)])
                else if selfAgain.Found? then user.response
                else WitnessResponse(r.connectionID, [selfAgain.message], false, [])))
        && (!allowed ==>
              response == Some(
                if found.sender.Missing? then WitnessResponse(r.connectionID, [found.sender.message], false, [])
                else if found.receiver.Missing? then WitnessResponse(r.connectionID, [found.receiver.message], false, [])
                else if r.sender != Some(from) && r.receiver != Some(from) then
                  WitnessResponse(r.connectionID, [], false, [NOT_A_PARTY])
                else if found.self.Missing? then WitnessResponse(r.connectionID, [found.self.message], false, [])
                else WitnessResponse(r.connectionID, [], false, [OWN_WITNESS])))
    {
      if found.sender.Missing? {
        return Some(WitnessResponse(r.connectionID, [found.sender.message], false, []));
      }
      if found.receiver.Missing? {
        return Some(WitnessResponse(r.connectionID, [found.receiver.message], false, []));
      }
      if r.sender != Some(from) && r.receiver != Some(from) {
        return Some(WitnessResponse(r.connectionID, [], false, [NOT_A_PARTY]));
      }
      if found.self.Missing? {
        return Some(WitnessResponse(r.connectionID, [found.self.message], false, []));
      }
      if r.sender == Some(self) || r.receiver == Some(self) {
        return Some(WitnessResponse(r.connectionID, [], false, [OWN_WITNESS]));
      }
      if user.HandlerFailed? {
        return None;
      }
      var resp := user.response;
      if |resp.errors| > 0 || !resp.accepted {
        return Some(resp);
      }
      var accepted := store.Accept(r.connectionID, r.sender.value, r.receiver.value, Open);
      if !accepted {
        return Some(resp.(errors := resp.errors + [DuplicateError(r.connectionID)]));
      }
      var failed := store.Update(r.connectionID,
        (conn: Connection) =>
          if selfAgain.Missing? then Written(None, true) else Written(Some(conn.SetWitness(self)), false));
      ghost var entered := Connection(r.connectionID, r.sender.value, None, r.receiver.value, Open);
      assert store.Contents() ==
        old(store.Contents())[r.connectionID := if selfAgain.Missing? then entered else entered.SetWitness(self)];
      if failed {
        return Some(WitnessResponse(r.connectionID, [selfAgain.message], false, []));
      }
      response := Some(resp);
    }

    method HandleNotification(from: PeerID, n: WitnessNotification, selfFound: bool, userOk: bool) returns (failed: bool)
      requires store.Valid()
      modifies store.conns.Values
      ensures store.Valid()
      ensures n.connectionID !in old(store.Contents()) ==> failed && store.Contents() == old(store.Contents())
      ensures n.connectionID in old(store.Contents()) ==>
        var conn := old(store.Contents())[n.connectionID];
        && store.Contents() ==
             old(store.Contents())[n.connectionID := AfterNotification(self, from, conn, n, selfFound, userOk)]
        && var opens :=
             && conn.status == AwaitingWitness && selfFound && userOk
             && from == (if self == conn.sender then conn.receiver else conn.sender);
           && failed == !opens
           && store.Contents() ==
                if opens then old(store.Contents())[n.connectionID := conn.(wit := n.wit, status := Open)]
                else old(store.Contents())
    {
      var me := self;
      failed := store.Update(n.connectionID, (conn: Connection) =>
        if conn.status != AwaitingWitness then Written(None, true)
        else if !selfFound then Written(None, true)
        else if from != (if conn.sender == me then conn.receiver else conn.sender) then Written(None, true)
        else if !userOk then Written(None, true)
        else Written(Some(conn.(wit := n.wit).SetStatus(Open)), false));
    }

    method HandleClose(from: PeerID, r: CloseRequest, userOk: bool) returns (failed: bool)
      requires store.Valid()
      modifies store.conns.Values
      ensures store.Valid()
      ensures r.connectionID !in old(store.Contents()) ==> failed && store.Contents() == old(store.Contents())
      ensures r.connectionID in old(store.Contents()) ==>
        var conn := old(store.Contents())[r.connectionID];
        && store.Contents() == old(store.Contents())[r.connectionID := AfterCloseRequest(conn, userOk)]
        && store.Contents() ==
             old(store.Contents())[r.connectionID :=
               conn.(status := if conn.status == Closed || userOk then Closed else Closing)]
        && (failed <==> conn.status != Closed && !userOk)
    {
      failed := store.Update(r.connectionID, (conn: Connection) =>
        if conn.status == Closed then Written(None, false)
        else if !userOk then Written(Some(conn.SetStatus(Closing)), true)
        else Written(Some(conn.SetStatus(Closed)), false));
    }
  }
}
