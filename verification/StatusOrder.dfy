/** How an entry's status moves. Once no witness selection is pending on it, it only moves up;
    Closed is then final, and the number of changes still to come is bounded. */
module StatusOrder {
  import opened Types
  import opened Protocol
  import opened Invariants
  import opened InvariantSteps
  import opened Safety

  function Rank(st: Status): nat {
    match st
    case RequestingReceiver => 0
    case RequestingSender => 0
    case AwaitingWitness => 1
    case RequestingWitness => 2
    case NotifyingOfWitness => 3
    case Open => 4
    case Closing => 5
    case Closed => 6
  }

  function StatusAt(s: Sys, k: Key): Status
    requires k in s.entries
  {
    s.entries[k].conn.status
  }

  ghost predicate NonePending(s: Sys, k: Key) {
    forall pid | pid in s.threads && KeyOf(s.threads[pid]) == k :: !Pending(s.threads[pid])
  }

  /** The one kind of step that can lower a status: a selection persists its result. */
  predicate SelectionCommits(s: Sys, e: Event, k: Key) {
    e.Commit? && e.pid in s.threads && IsSelection(s.threads[e.pid]) && KeyOf(s.threads[e.pid]) == k
  }

  lemma CommitRaises(h: Honesty, s: Sys, pid: nat, k: Key)
    requires Inv(h, s) && CanCommit(s, pid) && k in s.entries && !SelectionCommits(s, Commit(pid), k)
    ensures k in DoCommit(s, pid).entries && Rank(StatusAt(s, k)) <= Rank(StatusAt(DoCommit(s, pid), k))
  {
    assert ThreadOK(h, s, pid);
  }

  lemma HandlerRaises(c: Channel, s: Sys, e: Event, k: Key)
    requires Enabled(c, s, e) && (e.ServeNotification? || e.ServeClose?) && k in s.entries
    ensures k in Next(c, s, e).entries && Rank(StatusAt(s, k)) <= Rank(StatusAt(Next(c, s, e), k))
  {
  }

  lemma NamingRaises(c: Channel, s: Sys, e: Event, k: Key)
    requires Enabled(c, s, e) && e.NameSelf? && k in s.entries
    ensures k in Next(c, s, e).entries && Rank(StatusAt(s, k)) <= Rank(StatusAt(Next(c, s, e), k))
  {
  }

  lemma StepRaises(h: Honesty, c: Channel, s: Sys, e: Event, s': Sys, k: Key)
    requires Inv(h, s) && Step(c, s, e, s') && k in s.entries && !SelectionCommits(s, e, k)
    ensures k in s'.entries && Rank(StatusAt(s, k)) <= Rank(StatusAt(s', k))
  {
    if e.Commit? {
      CommitRaises(h, s, e.pid, k);
    } else if e.NameSelf? {
      NamingRaises(c, s, e, k);
    } else if IsUpdateEvent(e) {
      HandlerRaises(c, s, e, k);
    } else {
      StepLocal(c, s, e, s', 0, k);
    }
  }

  lemma SelectionsStartOnNewEntries(c: Channel, s: Sys, e: Event, s': Sys, pid: nat)
    requires Step(c, s, e, s') && pid !in s.threads && pid in s'.threads && IsSelection(s'.threads[pid])
    ensures KeyOf(s'.threads[pid]) !in s.entries
  {
    StepLocal(c, s, e, s', pid, KeyOf(s'.threads[pid]));
  }

  lemma StepLeavesNonePending(h: Honesty, c: Channel, s: Sys, e: Event, s': Sys, k: Key)
    requires Inv(h, s) && Step(c, s, e, s') && k in s.entries && NonePending(s, k)
    ensures NonePending(s', k)
  {
    forall pid | pid in s'.threads && KeyOf(s'.threads[pid]) == k ensures !Pending(s'.threads[pid]) {
      if pid in s.threads {
        StepKeepsThread(c, s, e, s', pid);
      } else if IsSelection(s'.threads[pid]) {
        SelectionsStartOnNewEntries(c, s, e, s', pid);
      }
    }
  }

  /** A Closed entry changes only when a selection that was started before the close persists its result. */
  lemma OnlySelectionReopens(h: Honesty, c: Channel, states: seq<Sys>, events: seq<Event>, s: Sys, e: Event, s': Sys, k: Key)
    requires OnRun(h, c, states, events, s) && Step(c, s, e, s') && k in s.entries && StatusAt(s, k) == Closed
    ensures k in s'.entries
    ensures StatusAt(s', k) != Closed ==> SelectionCommits(s, e, k)
  {
    OnRunKeeps(h, c, states, events, s);
    if SelectionCommits(s, e, k) {
      StepRemembers(c, s, e, s');
    } else {
      StepRaises(h, c, s, e, s', k);
    }
  }

  // Runs

  /** The number of status changes of entry k between the first state of a run and the last. */
  ghost function Changes(states: seq<Sys>, k: Key): nat
    requires forall s | s in states :: k in s.entries
  {
    if |states| < 2 then 0
    else (if StatusAt(states[0], k) != StatusAt(states[1], k) then 1 else 0) + Changes(states[1..], k)
  }

  ghost predicate KeepsFrom(h: Honesty, c: Channel, states: seq<Sys>, events: seq<Event>) {
    IsRun(c, states, events) && Inv(h, states[0]) && Honest(h, c, states[|events|].net)
  }

  /** From any point of a run at which no selection is pending on an entry: its status never falls, none becomes
      pending again, and every change uses up rank. */
  lemma {:induction false} SettledStatusOnlyRises(h: Honesty, c: Channel, states: seq<Sys>, events: seq<Event>, k: Key)
    requires KeepsFrom(h, c, states, events) && k in states[0].entries && NonePending(states[0], k)
    ensures forall s | s in states :: k in s.entries
    ensures NonePending(states[|events|], k)
    ensures Rank(StatusAt(states[0], k)) + Changes(states, k) <= Rank(StatusAt(states[|events|], k))
    decreases |events|
  {
    if events != [] {
      var s, s' := states[0], states[1];
      RunRemembers(c, states, events, 0, |events|);
      assert Step(c, s, events[0], s');
      StepKeeps(h, c, s, events[0], s');
      StepRaises(h, c, s, events[0], s', k);
      StepLeavesNonePending(h, c, s, events[0], s', k);
      SettledStatusOnlyRises(h, c, states[1..], events[1..], k);
      if Rank(StatusAt(s, k)) == Rank(StatusAt(s', k)) {
        SameRankSameStatus(h, s, s', k);
      }
      forall t | t in states ensures k in t.entries {
        assert t == s || t in states[1..];
      }
    }
  }

  /** Ranks tell apart all statuses an entry can have. */
  lemma SameRankSameStatus(h: Honesty, s: Sys, s': Sys, k: Key)
    requires Inv(h, s) && Inv(h, s') && k in s.entries && k in s'.entries
    requires Rank(StatusAt(s, k)) == Rank(StatusAt(s', k))
    ensures StatusAt(s, k) == StatusAt(s', k)
  {
    assert EntryOK(h, s, k) && EntryOK(h, s', k);
  }

  lemma PartIsRun(c: Channel, states: seq<Sys>, events: seq<Event>, i: nat, j: nat)
    requires IsRun(c, states, events) && i <= j < |states|
    ensures IsRun(c, states[i..j + 1], events[i..j])
  {
  }

  /** Of a whole run. */
  lemma SettledRun(h: Honesty, c: Channel, states: seq<Sys>, events: seq<Event>, k: Key)
    requires KeepsFrom(h, c, states, events) && k in states[0].entries && NonePending(states[0], k)
    ensures forall s | s in states :: k in s.entries
    ensures Rank(StatusAt(states[0], k)) <= Rank(StatusAt(states[|events|], k))
    ensures Changes(states, k) <= 6 - Rank(StatusAt(states[0], k))
  {
    SettledStatusOnlyRises(h, c, states, events, k);
  }

  lemma PartKeepsFrom(h: Honesty, c: Channel, states: seq<Sys>, events: seq<Event>, i: nat, j: nat)
    requires IsRun(c, states, events) && states[0] == Initial() && Honest(h, c, states[|events|].net) && i <= j < |states|
    ensures KeepsFrom(h, c, states[i..j + 1], events[i..j])
  {
    HonestBefore(h, c, states, events, i, |events|);
    HonestBefore(h, c, states, events, j, |events|);
    RunKeeps(h, c, states, events, i);
    PartIsRun(c, states, events, i, j);
  }

  /** Closed is final, and at most six status changes are left, once no selection is pending. */
  lemma ClosedIsFinal(h: Honesty, c: Channel, states: seq<Sys>, events: seq<Event>, i: nat, j: nat, k: Key)
    requires IsRun(c, states, events) && states[0] == Initial() && Honest(h, c, states[|events|].net)
    requires i <= j < |states| && k in states[i].entries && NonePending(states[i], k)
    ensures k in states[j].entries
    ensures Rank(StatusAt(states[i], k)) <= Rank(StatusAt(states[j], k))
    ensures StatusAt(states[i], k) == Closed ==> StatusAt(states[j], k) == Closed
    ensures forall s | s in states[i..j + 1] :: k in s.entries
    ensures Changes(states[i..j + 1], k) <= 6 - Rank(StatusAt(states[i], k))
  {
    PartKeepsFrom(h, c, states, events, i, j);
    var part := states[i..j + 1];
    assert part[0] == states[i] && part[j - i] == states[j] && part[j - i] in part;
    SettledRun(h, c, part, events[i..j], k);
  }

  // Closed is not final before that

  /** Whenever a receiver's selection is still queued on a Closed entry, four steps can take the entry out of Closed. */
  lemma QueuedSelectionReopens(h: Honesty, c: Channel, states: seq<Sys>, events: seq<Event>, s: Sys, pid: nat)
    requires OnRun(h, c, states, events, s) && CanAcquire(s, pid) && s.threads[pid].role.Chooser?
    ensures
      && var s1 := DoAcquire(s, pid);
      && CanChoose(s1, pid, [])
      && var s2 := DoChoose(s1, pid, []);
      && CanGiveUp(s2, pid)
      && var s3 := DoGiveUp(s2, pid);
      && CanCommit(s3, pid)
      && var s4 := DoCommit(s3, pid);
         StatusAt(s4, KeyOf(s.threads[pid])) == RequestingWitness
  {
    OnRunKeeps(h, c, states, events, s);
    assert ThreadOK(h, s, pid) && EntryOK(h, s, KeyOf(s.threads[pid]));
  }
}
