/** Putting runs of the protocol together: what a state leads to by events of an allowed kind. */
module Runs {
  import opened Protocol

  type EventKind = Event -> bool

  function Any(): EventKind {
    (e: Event) => true
  }

  predicate IsBy(e: Event, pid: nat) {
    !e.ServeNotification? && !e.ServeClose? && e.pid == pid
  }

  ghost predicate AllAllowed(allowed: EventKind, events: seq<Event>) {
    forall e | e in events :: allowed(e)
  }

  ghost predicate Joins(c: Channel, allowed: EventKind, states: seq<Sys>, events: seq<Event>, s: Sys, s': Sys) {
    IsRun(c, states, events) && states[0] == s && states[|events|] == s' && AllAllowed(allowed, events)
  }

  ghost predicate Leads(c: Channel, allowed: EventKind, s: Sys, s': Sys) {
    exists states: seq<Sys>, events: seq<Event> :: Joins(c, allowed, states, events, s, s')
  }

  lemma Stay(c: Channel, allowed: EventKind, s: Sys)
    ensures Leads(c, allowed, s, s)
  {
    assert Joins(c, allowed, [s], [], s, s);
  }

  lemma RunsAppend(
    c: Channel, states: seq<Sys>, events: seq<Event>, states': seq<Sys>, events': seq<Event>)
    requires IsRun(c, states, events) && IsRun(c, states', events') && states[|events|] == states'[0]
    ensures IsRun(c, states + states'[1..], events + events')
  {
    var all, es := states + states'[1..], events + events';
    forall i | 0 <= i < |es| ensures Step(c, all[i], es[i], all[i + 1]) {
      if i < |events| {
        assert Step(c, states[i], events[i], states[i + 1]);
      } else {
        assert Step(c, states'[i - |events|], events'[i - |events|], states'[i - |events| + 1]);
      }
    }
  }

  lemma Onward(c: Channel, allowed: EventKind, s: Sys, s': Sys, s'': Sys)
    requires Leads(c, allowed, s, s') && Leads(c, allowed, s', s'')
    ensures Leads(c, allowed, s, s'')
  {
    var states: seq<Sys>, events: seq<Event> :| Joins(c, allowed, states, events, s, s');
    var states': seq<Sys>, events': seq<Event> :| Joins(c, allowed, states', events', s', s'');
    RunsAppend(c, states, events, states', events');
    assert Joins(c, allowed, states + states'[1..], events + events', s, s'');
  }

  lemma OneStep(c: Channel, allowed: EventKind, s: Sys, e: Event)
    requires Enabled(c, s, e) && allowed(e)
    ensures Leads(c, allowed, s, Next(c, s, e))
  {
    assert Joins(c, allowed, [s, Next(c, s, e)], [e], s, Next(c, s, e));
  }

  lemma Weaken(c: Channel, narrow: EventKind, wide: EventKind, s: Sys, s': Sys)
    requires Leads(c, narrow, s, s') && forall e :: narrow(e) ==> wide(e)
    ensures Leads(c, wide, s, s')
  {
    var states: seq<Sys>, events: seq<Event> :| Joins(c, narrow, states, events, s, s');
    assert Joins(c, wide, states, events, s, s');
  }
}
