/** The random sample of known peers that answers a peers request: peers are drawn and deleted from the
    list in place, and a drawn entry for the node itself is replaced by a second draw. */
module Sampling {
  import opened Types

  /** The results of the calls to Intn still to come; after the listed ones, all are 0. Every sequence of results that a
      run can see is one of these. */
  datatype Draws = Zeros | Draw(first: nat, rest: Draws) {
    /** A listed result out of range stands for 0. */
    function Intn(n: nat): (i: nat)
      requires n > 0
      ensures i < n
    {
      if Draw? && first < n then first else 0
    }

    function Later(): Draws {
      if Draw? then rest else Zeros
    }
  }

  /** Intn panics when there is nothing to draw from. */
  datatype Outcome = Chosen(peers: seq<Peer>) | Panicked

  function Remove<T>(s: seq<T>, i: nat): (r: seq<T>)
    requires i < |s|
    ensures |r| == |s| - 1
  {
    seq(|s| - 1, k requires 0 <= k < |s| - 1 => if k < i then s[k] else s[k + 1])
  }

  function Cons(p: Peer, o: Outcome): Outcome {
    if o.Panicked? then Panicked else Chosen([p] + o.peers)
  }

  /** One round of the loop: the peer to answer with, those left, and the draws still to come. */
  datatype Picked = Picked(peer: Peer, left: seq<Peer>, draws: Draws) | Stuck

  function Pick(peers: seq<Peer>, self: Option<PeerID>, draws: Draws): (r: Picked)
    requires peers != []
    ensures r.Picked? ==> |r.left| < |peers|
  {
    var i := draws.Intn(|peers|);
    var rest := Remove(peers, i);
    if peers[i].id != self then Picked(peers[i], rest, draws.Later())
    else if rest == [] then Stuck
    else
      var j := draws.Later().Intn(|rest|);
      Picked(rest[j], Remove(rest, j), draws.Later().Later())
  }

  function Sample(peers: seq<Peer>, self: Option<PeerID>, num: int, draws: Draws): Outcome
    decreases |peers|
  {
    if num <= 0 || peers == [] then Chosen([])
    else
      match Pick(peers, self, draws)
      case Stuck => Panicked
      case Picked(p, left, later) => Cons(p, Sample(left, self, num - 1, later))
  }

  /** Deletes the entry at ind from the first n, shifting the later ones down. */
  method Delete(a: array<Peer>, n: nat, ind: nat)
    requires ind < n <= a.Length
    modifies a
    ensures a[..n - 1] == old(a[..ind]) + old(a[ind + 1..n]) == Remove(old(a[..n]), ind)
  {
    for i := ind to n - 1
      invariant forall j :: 0 <= j < a.Length ==> a[j] == if ind <= j < i then old(a[j + 1]) else old(a[j])
    {
      a[i] := a[i + 1];
    }
  }

  /** Prepending to the rest of a sample is the same as appending to what was drawn so far. */
  function Extend(got: seq<Peer>, o: Outcome): Outcome {
    if o.Panicked? then Panicked else Chosen(got + o.peers)
  }

  lemma SampleAfterRound(peers: seq<Peer>, self: Option<PeerID>, num: int, draws: Draws, got: seq<Peer>)
    requires num > 0 && peers != []
    ensures Extend(got, Sample(peers, self, num, draws)) ==
      match Pick(peers, self, draws)
      case Stuck => Panicked
      case Picked(p, left, later) => Extend(got + [p], Sample(left, self, num - 1, later))
  {
  }

  lemma SampleDone(peers: seq<Peer>, self: Option<PeerID>, num: int, draws: Draws, got: seq<Peer>)
    requires num <= 0 || peers == []
    ensures Extend(got, Sample(peers, self, num, draws)) == Chosen(got)
  {
  }

  method TakeOne(a: array<Peer>, n: nat, draws: Draws) returns (p: Peer)
    requires 0 < n <= a.Length
    modifies a
    ensures p == old(a[..n])[draws.Intn(n)]
    ensures a[..n - 1] == Remove(old(a[..n]), draws.Intn(n))
  {
    var ind := draws.Intn(n);
    p := a[ind];
    Delete(a, n, ind);
  }

  /** The body of the loop, on the first n entries. */
  method Round(a: array<Peer>, n: nat, self: Option<PeerID>, draws: Draws)
    returns (p: Option<Peer>, left: nat, later: Draws)
    requires 0 < n <= a.Length
    modifies a
    ensures left < n
    ensures match Pick(old(a[..n]), self, draws)
            case Stuck => p == None
            case Picked(q, rest, ds) => p == Some(q) && a[..left] == rest && later == ds
  {
    var q := TakeOne(a, n, draws);
    left, later := n - 1, draws.Later();
    if q.id == self {
      if left == 0 {
        return None, left, later;
      }
      q := TakeOne(a, left, later);
      left, later := left - 1, later.Later();
    }
    p := Some(q);
  }

  method Handle(a: array<Peer>, self: Option<PeerID>, num: int, draws: Draws) returns (out: Outcome)
    modifies a
    ensures out == Sample(old(a[..]), self, num, draws)
  {
    var n, later, i := a.Length, draws, 0;
    var got: seq<Peer> := [];
    assert a[..n] == a[..];
    ghost var all := Sample(a[..], self, num, draws);
    while i < num && n > 0
      invariant 0 <= n <= a.Length && i >= 0
      invariant Extend(got, Sample(a[..n], self, num - i, later)) == all
      decreases n
    {
      SampleAfterRound(a[..n], self, num - i, later, got);
      var p: Option<Peer>;
      p, n, later := Round(a, n, self, later);
      if p == None {
        return Panicked;
      }
      got := got + [p.value];
      i := i + 1;
    }
    SampleDone(a[..n], self, num - i, later, got);
    out := Chosen(got);
  }

  // What the sample is

  ghost predicate Distinct(peers: seq<Peer>) {
    forall i, j :: 0 <= i < j < |peers| ==> peers[i].id != peers[j].id
  }

  /** How many of the peers are not the node itself. */
  function CountOthers(peers: seq<Peer>, self: Option<PeerID>): (n: nat)
    ensures n <= |peers|
  {
    if peers == [] then 0 else (if peers[0].id != self then 1 else 0) + CountOthers(peers[1..], self)
  }

  predicate Absent(peers: seq<Peer>, self: Option<PeerID>) {
    forall p :: p in peers ==> p.id != self
  }

  ghost predicate FairSample(got: seq<Peer>, peers: seq<Peer>, self: Option<PeerID>) {
    Distinct(got) && forall p :: p in got ==> p in peers && p.id != self
  }

  function Wanted(num: int, others: nat): nat {
    if num <= 0 then 0 else if num < others then num else others
  }

  lemma {:induction false} CountRemove(peers: seq<Peer>, self: Option<PeerID>, i: nat)
    requires i < |peers|
    ensures CountOthers(Remove(peers, i), self) == CountOthers(peers, self) - if peers[i].id != self then 1 else 0
  {
    var r := Remove(peers, i);
    if i == 0 {
      assert r == peers[1..];
    } else {
      CountRemove(peers[1..], self, i - 1);
      assert r[1..] == Remove(peers[1..], i - 1);
    }
  }

  lemma {:induction false} CountWhenAbsent(peers: seq<Peer>, self: Option<PeerID>)
    ensures Absent(peers, self) <==> CountOthers(peers, self) == |peers|
  {
    if peers != [] {
      CountWhenAbsent(peers[1..], self);
      assert peers == [peers[0]] + peers[1..];
    }
  }

  lemma {:induction false} CountWhenDistinct(peers: seq<Peer>, self: Option<PeerID>)
    requires Distinct(peers)
    ensures |peers| - 1 <= CountOthers(peers, self)
  {
    if peers != [] {
      if peers[0].id == self {
        CountWhenAbsent(peers[1..], self);
      } else {
        CountWhenDistinct(peers[1..], self);
      }
    }
  }

  lemma RemoveKeepsDistinct(peers: seq<Peer>, i: nat)
    requires i < |peers| && Distinct(peers)
    ensures Distinct(Remove(peers, i))
    ensures forall p :: p in Remove(peers, i) ==> p in peers && p.id != peers[i].id
  {
  }

  lemma FairCons(p: Peer, got: seq<Peer>, rest: seq<Peer>, peers: seq<Peer>, self: Option<PeerID>)
    requires FairSample(got, rest, self) && p in peers && p.id != self
    requires forall q :: q in rest ==> q in peers && q.id != p.id
    ensures FairSample([p] + got, peers, self)
  {
  }

  /** A round picks a peer other than the node and leaves the others; it is stuck only on the node alone. */
  lemma PickIsFair(peers: seq<Peer>, self: Option<PeerID>, draws: Draws)
    requires Distinct(peers) && peers != []
    ensures
      var r := Pick(peers, self, draws);
      && (r.Stuck? ==> |peers| == 1 && peers[0].id == self)
      && (r.Picked? ==>
            && r.peer in peers && r.peer.id != self && Distinct(r.left)
            && (forall q :: q in r.left ==> q in peers && q.id != r.peer.id)
            && CountOthers(r.left, self) == CountOthers(peers, self) - 1)
  {
    var i := draws.Intn(|peers|);
    var rest := Remove(peers, i);
    RemoveKeepsDistinct(peers, i);
    CountRemove(peers, self, i);
    if peers[i].id == self && rest != [] {
      var j := draws.Later().Intn(|rest|);
      assert rest[j] in rest;
      RemoveKeepsDistinct(rest, j);
      CountRemove(rest, self, j);
    }
  }

  lemma {:induction false} SampleSize(peers: seq<Peer>, self: Option<PeerID>, num: int, draws: Draws)
    requires Distinct(peers)
    ensures
      var out := Sample(peers, self, num, draws);
      out.Chosen? ==> |out.peers| == Wanted(num, CountOthers(peers, self))
    decreases |peers|
  {
    if num > 0 && peers != [] {
      PickIsFair(peers, self, draws);
      var r := Pick(peers, self, draws);
      if r.Picked? {
        SampleSize(r.left, self, num - 1, r.draws);
      }
    }
  }

  /** Whatever is drawn, the sample holds the wanted number of distinct known peers other than the node, unless Intn
      panics. */
  lemma {:induction false} SampleIsFair(peers: seq<Peer>, self: Option<PeerID>, num: int, draws: Draws)
    requires Distinct(peers)
    ensures
      var out := Sample(peers, self, num, draws);
      out.Chosen? ==> FairSample(out.peers, peers, self) && |out.peers| == Wanted(num, CountOthers(peers, self))
    decreases |peers|
  {
    SampleSize(peers, self, num, draws);
    if num > 0 && peers != [] {
      PickIsFair(peers, self, draws);
      var r := Pick(peers, self, draws);
      if r.Picked? {
        SampleIsFair(r.left, self, num - 1, r.draws);
        var o := Sample(r.left, self, num - 1, r.draws);
        if o.Chosen? {
          FairCons(r.peer, o.peers, r.left, peers, self);
        }
      }
    }
  }

  /** Intn cannot panic when the node is not listed or no more peers are asked for than there are others. */
  lemma {:induction false} EnoughOthers(peers: seq<Peer>, self: Option<PeerID>, num: int, draws: Draws)
    requires Distinct(peers) && (Absent(peers, self) || num <= CountOthers(peers, self))
    ensures Sample(peers, self, num, draws).Chosen?
    decreases |peers|
  {
    if num > 0 && peers != [] {
      PickIsFair(peers, self, draws);
      var r := Pick(peers, self, draws);
      if r.Stuck? {
        assert false;
      } else {
        EnoughOthers(r.left, self, num - 1, r.draws);
      }
    }
  }

  /** Draws that leave the entry at t of n until the end. */
  function LeavingLast(n: nat, t: nat): Draws
    requires t < n
  {
    if n == 1 then Zeros
    else if t < n - 1 then Draw(n - 1, LeavingLast(n - 1, t))
    else Draw(0, LeavingLast(n - 1, t - 1))
  }

  lemma {:induction false} SelfLeftLast(peers: seq<Peer>, self: Option<PeerID>, num: int, t: nat)
    requires Distinct(peers) && t < |peers| <= num && peers[t].id == self
    ensures Sample(peers, self, num, LeavingLast(|peers|, t)) == Panicked
    decreases |peers|
  {
    if |peers| > 1 {
      var i := LeavingLast(|peers|, t).Intn(|peers|);
      assert i != t;
      RemoveKeepsDistinct(peers, i);
      SelfLeftLast(Remove(peers, i), self, num - 1, if t < |peers| - 1 then t else t - 1);
    }
  }

  /** Every sequence of draws gives a sample exactly when the node is not listed or enough others are. */
  lemma SafeUnderEveryDrawExactly(peers: seq<Peer>, self: Option<PeerID>, num: int)
    requires Distinct(peers)
    ensures (forall draws :: Sample(peers, self, num, draws).Chosen?) <==>
      Absent(peers, self) || num <= CountOthers(peers, self)
  {
    if Absent(peers, self) || num <= CountOthers(peers, self) {
      forall draws ensures Sample(peers, self, num, draws).Chosen? {
        EnoughOthers(peers, self, num, draws);
      }
    } else {
      var p :| p in peers && p.id == self;
      var t :| 0 <= t < |peers| && peers[t] == p;
      CountWhenDistinct(peers, self);
      SelfLeftLast(peers, self, num, t);
      assert !Sample(peers, self, num, LeavingLast(|peers|, t)).Chosen?;
    }
  }

  /** The draw picks the peer at its place; one that hits the node itself costs a second draw among the others. */
  lemma DrawsDecide(peers: seq<Peer>, self: Option<PeerID>, num: int, i: nat, j: nat, later: Draws)
    requires num > 0 && i < |peers|
    ensures
      var rest := peers[..i] + peers[i + 1..];
      && (peers[i].id != self ==>
            Sample(peers, self, num, Draw(i, later)) == Cons(peers[i], Sample(rest, self, num - 1, later)))
      && (peers[i].id == self && j < |rest| ==>
            Sample(peers, self, num, Draw(i, Draw(j, later))) ==
              Cons(rest[j], Sample(rest[..j] + rest[j + 1..], self, num - 1, later)))
  {
    var rest := peers[..i] + peers[i + 1..];
    assert Remove(peers, i) == rest;
    if j < |rest| {
      assert Remove(rest, j) == rest[..j] + rest[j + 1..];
    }
  }

  // Every sample can be drawn

  lemma StillThere(peers: seq<Peer>, i: nat, p: Peer)
    requires i < |peers| && p in peers && p.id != peers[i].id
    ensures p in Remove(peers, i)
  {
    var j :| 0 <= j < |peers| && peers[j] == p;
    assert Remove(peers, i)[if j < i then j else j - 1] == p;
  }

  lemma FairTail(want: seq<Peer>, peers: seq<Peer>, self: Option<PeerID>, i: nat)
    requires want != [] && FairSample(want, peers, self) && i < |peers| && peers[i] == want[0]
    ensures FairSample(want[1..], Remove(peers, i), self)
  {
    forall p | p in want[1..] ensures p in Remove(peers, i) && p.id != self {
      StillThere(peers, i, p);
    }
  }

  lemma PickedFirst(peers: seq<Peer>, self: Option<PeerID>, want: seq<Peer>, later: Draws, i: nat)
    requires want != [] && i < |peers| && peers[i] == want[0] && peers[i].id != self
    requires Sample(Remove(peers, i), self, |want| - 1, later) == Chosen(want[1..])
    ensures Sample(peers, self, |want|, Draw(i, later)) == Chosen(want)
  {
  }

  /** Any list of the asked number of distinct known peers other than the node comes out for some draws. */
  lemma {:induction false} EverySampleDrawn(peers: seq<Peer>, self: Option<PeerID>, want: seq<Peer>) returns (draws: Draws)
    requires FairSample(want, peers, self)
    ensures Sample(peers, self, |want|, draws) == Chosen(want)
    decreases |want|
  {
    if want == [] {
      draws := Zeros;
    } else {
      assert want[0] in want;
      var i: nat :| i < |peers| && peers[i] == want[0];
      FairTail(want, peers, self, i);
      var later := EverySampleDrawn(Remove(peers, i), self, want[1..]);
      PickedFirst(peers, self, want, later, i);
      draws := Draw(i, later);
    }
  }

  // How many

  /** A number that is not positive asks for none. */
  lemma NoneAsked(peers: seq<Peer>, self: Option<PeerID>, num: int, draws: Draws)
    requires num <= 0
    ensures Sample(peers, self, num, draws) == Chosen([])
  {
  }

  predicate HasAllOthers(got: seq<Peer>, peers: seq<Peer>, self: Option<PeerID>) {
    forall p :: p in peers && p.id != self ==> p in got
  }

  lemma {:induction false} FairIsSmall(got: seq<Peer>, peers: seq<Peer>, self: Option<PeerID>)
    requires FairSample(got, peers, self)
    ensures |got| <= CountOthers(peers, self)
    decreases |got|
  {
    if got != [] {
      assert got[0] in got;
      var i: nat :| i < |peers| && peers[i] == got[0];
      FairTail(got, peers, self, i);
      CountRemove(peers, self, i);
      FairIsSmall(got[1..], Remove(peers, i), self);
    }
  }

  lemma {:induction false} AllOthersIsLarge(got: seq<Peer>, peers: seq<Peer>, self: Option<PeerID>)
    requires Distinct(peers) && HasAllOthers(got, peers, self)
    ensures CountOthers(peers, self) <= |got|
    decreases |peers|
  {
    if peers != [] {
      if peers[0].id == self {
        AllOthersIsLarge(got, peers[1..], self);
      } else {
        assert peers[0] in got;
        var i: nat :| i < |got| && got[i] == peers[0];
        forall p | p in peers[1..] && p.id != self ensures p in Remove(got, i) {
          StillThere(got, i, p);
        }
        AllOthersIsLarge(Remove(got, i), peers[1..], self);
      }
    }
  }

  /** A sample holds every other peer exactly when at least as many were asked for as there are. */
  lemma AllOthersExactly(peers: seq<Peer>, self: Option<PeerID>, num: int, draws: Draws)
    requires Distinct(peers) && Sample(peers, self, num, draws).Chosen?
    ensures HasAllOthers(Sample(peers, self, num, draws).peers, peers, self) <==>
      num >= CountOthers(peers, self) || CountOthers(peers, self) == 0
  {
    var got := Sample(peers, self, num, draws).peers;
    SampleIsFair(peers, self, num, draws);
    if HasAllOthers(got, peers, self) {
      AllOthersIsLarge(got, peers, self);
    } else {
      var p :| p in peers && p.id != self && p !in got;
      var i: nat :| i < |peers| && peers[i] == p;
      forall q | q in got ensures q in Remove(peers, i) {
        if q.id == p.id {
          SameIDSamePeer(peers, p, q);
        }
        StillThere(peers, i, q);
      }
      FairIsSmall(got, Remove(peers, i), self);
      CountRemove(peers, self, i);
    }
  }

  lemma SameIDSamePeer(peers: seq<Peer>, p: Peer, q: Peer)
    requires Distinct(peers) && p in peers && q in peers && p.id == q.id
    ensures p == q
  {
  }
}
