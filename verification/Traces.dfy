/** What else every step keeps, beside the invariant: who holds a lock, what has been asked, and what a selection can be
    about to persist. */
module Traces {
  import opened Types
  import opened Rules
  import opened Serde
  import opened Protocol
  import opened Invariants
  import opened Safety

  predicate HolderOK(s: Sys, k: Key)
    requires k in s.entries
  {
    s.entries[k].holder.Some? ==>
      var pid := s.entries[k].holder.value;
      pid in s.threads && KeyOf(s.threads[pid]) == k && Holding(s.threads[pid].phase)
  }

  predicate SettledOK(o: Origin, t: Thread, committed: Connection, conn: Connection) {
    && o.receiver != o.sender
    && (if t.role == Connector(NilSelector) then conn == committed
        else conn.status in {AwaitingWitness, RequestingWitness, NotifyingOfWitness, Open})
  }

  predicate TrailOK(s: Sys, pid: nat)
    requires pid in s.threads
  {
    var t := s.threads[pid];
    && (t.role.Connector? && t.phase.AwaitingReceiver? ==>
          Packet(t.node, t.phase.conn.receiver, None, ConnectReq(ConnectRequestFor(t.phase.conn, t.role.selector))) in s.net)
    && (IsSelection(t) && t.phase.Settling? ==>
          HasThread(s, pid) && t.id in s.origin
          && SettledOK(s.origin[t.id], t, s.entries[KeyOf(t)].conn, t.phase.conn))
  }

  ghost predicate Traced(s: Sys) {
    && (forall k {:trigger HolderOK(s, k)} | k in s.entries :: HolderOK(s, k))
    && (forall pid {:trigger TrailOK(s, pid)} | pid in s.threads :: TrailOK(s, pid))
  }

  // Traces are kept

  /** What is known about the acting thread before an event. */
  ghost predicate ActorOK(h: Honesty, s: Sys, e: Event) {
    !e.ServeNotification? && !e.ServeClose? && e.pid in s.threads ==> ThreadOK(h, s, e.pid) && TrailOK(s, e.pid)
  }

  /** The acting thread's own part after an event. */
  ghost predicate ActorTraced(s: Sys, s': Sys, pid: nat) {
    && pid in s'.threads && TrailOK(s', pid)
    && (pid in s.threads && KeyOf(s.threads[pid]) in s.entries ==>
          KeyOf(s.threads[pid]) in s'.entries && HolderOK(s', KeyOf(s.threads[pid])))
  }

  ghost predicate ActorReady(h: Honesty, s: Sys, e: Event) {
    && h.connect && !e.ServeNotification? && !e.ServeClose? && ActorOK(h, s, e)
    && (e.pid in s.threads && KeyOf(s.threads[e.pid]) in s.entries ==> HolderOK(s, KeyOf(s.threads[e.pid])))
  }

  lemma RequestTraced(h: Honesty, c: Channel, s: Sys, e: Event, s': Sys)
    requires Step(c, s, e, s') && e.RequestReceiver? && ActorReady(h, s, e)
    ensures ActorTraced(s, s', e.pid)
  {
  }

  lemma AskTraced(h: Honesty, c: Channel, s: Sys, e: Event, s': Sys)
    requires Step(c, s, e, s') && e.Ask? && ActorReady(h, s, e)
    ensures ActorTraced(s, s', e.pid)
  {
  }

  lemma NotifyTraced(h: Honesty, c: Channel, s: Sys, e: Event, s': Sys)
    requires Step(c, s, e, s') && e.Notify? && ActorReady(h, s, e)
    ensures ActorTraced(s, s', e.pid)
  {
  }

  lemma ChoiceTraced(h: Honesty, c: Channel, s: Sys, e: Event, s': Sys)
    requires Step(c, s, e, s') && (e.Choose? || e.GiveUp?) && ActorReady(h, s, e)
    ensures ActorTraced(s, s', e.pid)
  {
  }

  lemma ReceiverAnswerTraced(h: Honesty, c: Channel, s: Sys, e: Event, s': Sys)
    requires Step(c, s, e, s') && e.TakeReceiverAnswer? && ActorReady(h, s, e)
    ensures ActorTraced(s, s', e.pid)
  {
  }

  lemma CandidateAnswerTraced(h: Honesty, c: Channel, s: Sys, e: Event, s': Sys)
    requires Step(c, s, e, s') && (e.TakeCandidateAnswer? || e.FailCandidate?) && ActorReady(h, s, e)
    ensures ActorTraced(s, s', e.pid)
  {
  }

  lemma ClosingTraced(h: Honesty, c: Channel, s: Sys, e: Event, s': Sys)
    requires Step(c, s, e, s') && IsClosingEvent(e) && ActorReady(h, s, e)
    ensures ActorTraced(s, s', e.pid)
  {
  }

  lemma LockTraced(h: Honesty, c: Channel, s: Sys, e: Event, s': Sys)
    requires Step(c, s, e, s') && !IsRequestEvent(e) && !IsSelectionEvent(e) && !IsAnswerEvent(e) && !IsClosingEvent(e)
    requires ActorReady(h, s, e)
    ensures ActorTraced(s, s', e.pid)
  {
  }

  lemma StepTraced(h: Honesty, c: Channel, s: Sys, e: Event, s': Sys)
    requires Step(c, s, e, s') && ActorReady(h, s, e) && !IsRequestEvent(e)
    ensures ActorTraced(s, s', e.pid)
  {
    if e.Choose? || e.GiveUp? {
      ChoiceTraced(h, c, s, e, s');
    } else if e.RequestReceiver? {
      RequestTraced(h, c, s, e, s');
    } else if e.Ask? {
      AskTraced(h, c, s, e, s');
    } else if e.Notify? {
      NotifyTraced(h, c, s, e, s');
    } else if e.TakeReceiverAnswer? {
      ReceiverAnswerTraced(h, c, s, e, s');
    } else if IsAnswerEvent(e) {
      CandidateAnswerTraced(h, c, s, e, s');
    } else if IsClosingEvent(e) {
      ClosingTraced(h, c, s, e, s');
    } else {
      LockTraced(h, c, s, e, s');
    }
  }

  predicate IsThreadEvent(e: Event) {
    !e.ServeNotification? && !e.ServeClose? && !IsRequestEvent(e)
  }

  lemma ActorKept(h: Honesty, c: Channel, s: Sys, e: Event, s': Sys)
    requires h.connect && Inv(h, s) && Traced(s) && Step(c, s, e, s') && IsThreadEvent(e)
    ensures ActorTraced(s, s', e.pid)
  {
    if e.pid in s.threads {
      assert ThreadOK(h, s, e.pid) && TrailOK(s, e.pid) && HolderOK(s, KeyOf(s.threads[e.pid]));
    }
    StepTraced(h, c, s, e, s');
  }

  lemma HolderKept(s: Sys, e: Event, s': Sys, p: nat, k: Key)
    requires Local(s, s', e, p, k) && k in s'.entries && (k in s.entries ==> HolderOK(s, k))
    requires IsThreadEvent(e) ==> ActorTraced(s, s', e.pid)
    requires k in s.entries && s.entries[k].holder.Some? ==> p == s.entries[k].holder.value
    ensures HolderOK(s', k)
  {
  }

  lemma TrailKept(h: Honesty, s: Sys, e: Event, s': Sys, p: nat)
    requires p in s'.threads && Local(s, s', e, p, KeyOf(s'.threads[p]))
    requires IsThreadEvent(e) ==> ActorTraced(s, s', e.pid)
    requires p in s.threads ==> ThreadOK(h, s, p) && TrailOK(s, p)
    requires IsThreadEvent(e) && e.pid in s.threads ==> ThreadOK(h, s, e.pid)
    ensures TrailOK(s', p)
  {
  }

  lemma StepKeepsTraces(h: Honesty, c: Channel, s: Sys, e: Event, s': Sys)
    requires h.connect && Inv(h, s) && Traced(s) && Step(c, s, e, s')
    ensures Traced(s')
  {
    if IsThreadEvent(e) {
      ActorKept(h, c, s, e, s');
      if e.pid in s.threads {
        assert ThreadOK(h, s, e.pid);
      }
    }
    forall k | k in s'.entries ensures HolderOK(s', k) {
      var p := if k in s.entries && s.entries[k].holder.Some? then s.entries[k].holder.value else 0;
      StepLocal(c, s, e, s', p, k);
      assert k in s.entries ==> HolderOK(s, k);
      HolderKept(s, e, s', p, k);
    }
    forall p | p in s'.threads ensures TrailOK(s', p) {
      StepLocal(c, s, e, s', p, KeyOf(s'.threads[p]));
      assert p in s.threads ==> ThreadOK(h, s, p) && TrailOK(s, p);
      TrailKept(h, s, e, s', p);
    }
  }

  lemma {:induction false} TracesKept(h: Honesty, c: Channel, states: seq<Sys>, events: seq<Event>, i: nat)
    requires h.connect && IsRun(c, states, events) && states[0] == Initial() && i < |states| && Honest(h, c, states[i].net)
    ensures Traced(states[i])
    decreases i
  {
    if i > 0 {
      HonestBefore(h, c, states, events, i - 1, i);
      TracesKept(h, c, states, events, i - 1);
      RunKeeps(h, c, states, events, i - 1);
      StepKeepsTraces(h, c, states[i - 1], events[i - 1], states[i]);
    }
  }
}
