/** The reputation store as one caller sees it: a peer's entry is made the first time it is asked for. */
module ReputationStore {
  import opened Types
  import opened ConnectionStore
  import opened LockedStore
  import opened Reputation

  class RepEntry {
    var rep: Proportional

    constructor (rep: Proportional)
      ensures this.rep == rep
    {
      this.rep := rep;
    }
  }

  class Store {
    var reps: map<PeerID, RepEntry>

    /** No two peers share an entry object. */
    ghost predicate Valid()
      reads this
    {
      forall p, q :: p in reps && q in reps && p != q ==> reps[p] != reps[q]
    }

    /** What each peer's reputation is: new until something was recorded. */
    ghost function Of(p: PeerID): Proportional
      reads this, reps.Values
    {
      if p in reps then reps[p].rep else NEW
    }

    constructor ()
      ensures Valid() && forall p :: Of(p) == NEW
    {
      reps := map[];
    }

    method EnsureRepExists(p: PeerID) returns (e: RepEntry)
      requires Valid()
      modifies this
      ensures Valid()
      ensures p in reps && reps[p] == e && reps.Keys == old(reps.Keys) + {p}
      ensures forall q :: q in old(reps) ==> q in reps && reps[q] == old(reps[q])
      ensures p !in old(reps) ==> fresh(e)
      ensures forall q :: Of(q) == old(Of(q))
    {
      if p in reps {
        return reps[p];
      }
      e := new RepEntry(NEW);
      ghost var before := reps;
      reps := reps[p := e];
      assert forall q | q in before :: reps[q] == before[q];
    }

    method Read(p: PeerID) returns (rep: Proportional)
      requires Valid()
      modifies this
      ensures Valid() && rep == old(Of(p)) && forall q :: Of(q) == old(Of(q))
    {
      var e := EnsureRepExists(p);
      rep := e.rep;
    }

    method Update(p: PeerID, write: Proportional -> Written<Proportional>) returns (failed: bool)
      requires Valid()
      modifies this, reps.Values
      ensures Valid() && failed == write(old(Of(p))).failed
      ensures
        var w := write(old(Of(p)));
        && Of(p) == (if w.updated.Some? then w.updated.value else old(Of(p))) == Apply(old(Of(p)), write)
        && forall q :: q != p ==> Of(q) == old(Of(q))
    {
      var e := EnsureRepExists(p);
      var w := write(e.rep);
      if w.updated.Some? {
        e.rep := w.updated.value;
      }
      failed := w.failed;
    }
  }
}
