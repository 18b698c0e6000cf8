/** The in-memory connection store as one caller sees it: a map from IDs to entry objects that are
    installed once and whose connection each update replaces. */
module ConnectionStore {
  import opened Types

  /** What a write callback returns: the connection to persist, if any, and whether it also returns an error. */
  datatype Written<+V> = Written(updated: Option<V>, failed: bool)

  class ConnEntry {
    var conn: Connection

    constructor (conn: Connection)
      ensures this.conn == conn
    {
      this.conn := conn;
    }
  }

  class Store {
    var conns: map<ConnID, ConnEntry>

    /** No two IDs share an entry object. */
    ghost predicate Valid()
      reads this
    {
      forall i, j :: i in conns && j in conns && i != j ==> conns[i] != conns[j]
    }

    ghost function Contents(): map<ConnID, Connection>
      reads this, conns.Values
    {
      map id | id in conns :: conns[id].conn
    }

    constructor ()
      ensures Valid() && Contents() == map[]
    {
      conns := map[];
    }

    /** An ID already in the store is refused and its entry left as it is. */
    method Accept(id: ConnID, sender: PeerID, receiver: PeerID, status: Status) returns (ok: bool)
      requires Valid()
      modifies this
      ensures Valid()
      ensures ok <==> id !in old(Contents())
      ensures Contents() ==
        if ok then old(Contents())[id := Connection(id, sender, None, receiver, status)] else old(Contents())
      ensures forall i | i in old(conns) :: i in conns && conns[i] == old(conns[i])
      ensures fresh(conns.Values - old(conns.Values))
    {
      if id in conns {
        return false;
      }
      var e := new ConnEntry(Connection(id, sender, None, receiver, status));
      ghost var before := conns;
      conns := conns[id := e];
      assert forall i | i in before :: conns[i] == before[i];
      ok := true;
    }

    method Read(id: ConnID) returns (conn: Option<Connection>)
      ensures conn == if id in Contents() then Some(Contents()[id]) else None
    {
      if id in conns {
        assert Contents()[id] == conns[id].conn;
        conn := Some(conns[id].conn);
      } else {
        conn := None;
      }
    }

    /** A connection the callback returns is persisted even when it also returns an error. */
    method Update(id: ConnID, write: Connection -> Written<Connection>) returns (failed: bool)
      requires Valid()
      modifies conns.Values
      ensures Valid() && conns == old(conns)
      ensures id !in old(Contents()) ==> failed && Contents() == old(Contents())
      ensures id in old(Contents()) ==>
        var w := write(old(Contents())[id]);
        failed == w.failed &&
        Contents() == if w.updated.Some? then old(Contents())[id := w.updated.value] else old(Contents())
    {
      if id !in conns {
        return true;
      }
      var e := conns[id];
      assert old(Contents())[id] == e.conn;
      var w := write(e.conn);
      if w.updated.Some? {
        e.conn := w.updated.value;
      }
      failed := w.failed;
      assert Contents() == if w.updated.Some? then old(Contents())[id := w.updated.value] else old(Contents());
    }
  }
}
