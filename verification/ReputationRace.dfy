/** Callers racing through the double-checked creation of reputation entries, one map read or lock
    operation at a time; the unlocked first look reads the map atomically. Once a caller has its entry it
    goes on as a caller of that entry's lock. */
module ReputationRace {
  import opened Types
  import opened ConnectionStore
  import L = LockedStore
  import opened Reputation

  /** How far a call has got: before its first look, after a miss, under the global lock before and after the
      second look, and with its entry. */
  datatype Phase = Looking | Missed | Rechecking | Creating | Got(entry: nat)

  /** locks is the state of the entries' own locks. made is history: the peer each entry was made for. */
  datatype State<!V> = State(
    reps: map<PeerID, nat>,
    guard: Option<nat>,
    tasks: map<nat, L.Job<PeerID, V>>,
    phases: map<nat, Phase>,
    locks: L.State<nat, V>,
    made: map<nat, PeerID>)

  function Empty<V>(): State<V> {
    State(map[], None, map[], map[], L.Empty(), map[])
  }

  datatype Event<!V> =
    | Call(call: nat, task: L.Job<PeerID, V>)
    | Look(call: nat)
    | TakeGuard(call: nat)
    | Recheck(call: nat)
    | Install(call: nat, entry: nat)
    | Lock(call: nat)
    | Finish(call: nat)

  function OnEntry<V>(task: L.Job<PeerID, V>, e: nat): L.Job<nat, V> {
    match task
    case Reading(_) => L.Reading(e)
    case Writing(_, write) => L.Writing(e, write)
  }

  predicate In<V>(s: State<V>, call: nat, phase: Phase) {
    call in s.tasks && call in s.phases && s.phases[call] == phase
  }

  /** The call has not begun on any entry. */
  predicate Unbegun<V>(s: State<V>, call: nat) {
    call !in s.locks.jobs && call !in s.locks.stages
  }

  predicate Enabled<V>(s: State<V>, e: Event<V>) {
    match e
    case Call(call, _) => call !in s.tasks && call !in s.phases
    case Look(call) => In(s, call, Looking) && Unbegun(s, call)
    case TakeGuard(call) => In(s, call, Missed) && s.guard == None
    case Recheck(call) => In(s, call, Rechecking) && Unbegun(s, call)
    case Install(call, entry) => In(s, call, Creating) && Unbegun(s, call) && entry !in s.locks.cells
    case Lock(call) => call in s.tasks && L.Enabled(s.locks, L.Lock(call))
    case Finish(call) => call in s.tasks && L.Enabled(s.locks, L.Finish(call))
  }

  /** The call has its entry and asks for that entry's lock. */
  function Arrive<V>(s: State<V>, call: nat, e: nat): State<V>
    requires call in s.tasks && Unbegun(s, call)
  {
    s.(phases := s.phases[call := Got(e)], locks := L.Next(s.locks, L.Begin(call, OnEntry(s.tasks[call], e))))
  }

  function Next<V>(create: PeerID -> V, s: State<V>, e: Event<V>): State<V>
    requires Enabled(s, e)
  {
    match e
    case Call(call, task) => s.(tasks := s.tasks[call := task], phases := s.phases[call := Looking])
    case Look(call) =>
      var p := s.tasks[call].key;
      if p in s.reps then Arrive(s, call, s.reps[p]) else s.(phases := s.phases[call := Missed])
    case TakeGuard(call) => s.(guard := Some(call), phases := s.phases[call := Rechecking])
    case Recheck(call) =>
      var p := s.tasks[call].key;
      if p in s.reps then Arrive(s, call, s.reps[p]).(guard := None) else s.(phases := s.phases[call := Creating])
    case Install(call, entry) =>
      var p := s.tasks[call].key;
      Arrive(Installed(create, s, p, entry), call, entry).(guard := None)
    case Lock(call) => s.(locks := L.Next(s.locks, L.Lock(call)))
    case Finish(call) => s.(locks := L.Next(s.locks, L.Finish(call)))
  }

  function Installed<V>(create: PeerID -> V, s: State<V>, p: PeerID, entry: nat): State<V> {
    s.(reps := s.reps[p := entry], made := s.made[entry := p], locks := L.Next(s.locks, L.Accept(entry, create(p))))
  }

  ghost predicate IsRun<V>(create: PeerID -> V, states: seq<State<V>>, events: seq<Event<V>>) {
    && |states| == |events| + 1 && states[0] == Empty()
    && forall i :: 0 <= i < |events| ==> Enabled(states[i], events[i]) && states[i + 1] == Next(create, states[i], events[i])
  }

  // The invariant

  ghost predicate RepOK<V>(s: State<V>, p: PeerID)
    requires p in s.reps
  {
    s.reps[p] in s.made && s.made[s.reps[p]] == p
  }

  ghost predicate MadeOK<V>(create: PeerID -> V, s: State<V>, e: nat)
    requires e in s.made
  {
    && s.made[e] in s.reps && s.reps[s.made[e]] == e
    && e in s.locks.first && s.locks.first[e] == create(s.made[e])
  }

  ghost predicate TaskOK<V>(s: State<V>, call: nat)
    requires call in s.tasks
  {
    && call in s.phases
    && var p := s.tasks[call].key;
       && (s.guard == Some(call) <==> s.phases[call].Rechecking? || s.phases[call].Creating?)
       && (s.phases[call].Creating? ==> p !in s.reps)
       && (match s.phases[call]
           case Got(e) =>
             && p in s.reps && s.reps[p] == e
             && call in s.locks.jobs && s.locks.jobs[call] == OnEntry(s.tasks[call], e)
             && call in s.locks.stages && !s.locks.stages[call].Refused?
           case _ => Unbegun(s, call))
  }

  ghost predicate Inv<V>(create: PeerID -> V, s: State<V>) {
    && L.Inv(s.locks)
    && s.phases.Keys == s.tasks.Keys && s.made.Keys == s.locks.cells.Keys && s.locks.jobs.Keys <= s.tasks.Keys
    && (s.guard.Some? ==> s.guard.value in s.tasks)
    && (forall p {:trigger RepOK(s, p)} | p in s.reps :: RepOK(s, p))
    && (forall e {:trigger MadeOK(create, s, e)} | e in s.made :: MadeOK(create, s, e))
    && (forall call {:trigger TaskOK(s, call)} | call in s.tasks :: TaskOK(s, call))
  }

  /** What the steps that install nothing do to the entries. */
  ghost predicate SameEntries<V>(s: State<V>, s': State<V>) {
    && s'.reps == s.reps && s'.made == s.made
    && s'.locks.first == s.locks.first && s'.locks.cells.Keys == s.locks.cells.Keys
  }

  lemma EntriesKept<V>(create: PeerID -> V, s: State<V>, s': State<V>)
    requires Inv(create, s) && SameEntries(s, s')
    ensures forall p {:trigger RepOK(s', p)} | p in s'.reps :: RepOK(s', p)
    ensures forall e {:trigger MadeOK(create, s', e)} | e in s'.made :: MadeOK(create, s', e)
  {
    forall p | p in s'.reps ensures RepOK(s', p) {
      assert RepOK(s, p);
    }
    forall e | e in s'.made ensures MadeOK(create, s', e) {
      assert MadeOK(create, s, e);
    }
  }

  /** A step of one call keeps what is said of another, as long as nothing is installed for its peer. */
  lemma OtherTask<V>(s: State<V>, s': State<V>, c: nat)
    requires c in s.tasks && TaskOK(s, c)
    requires c in s'.tasks && s'.tasks[c] == s.tasks[c] && c in s'.phases && s'.phases[c] == s.phases[c]
    requires (s'.guard == Some(c)) == (s.guard == Some(c))
    requires s.tasks[c].key in s.reps ==> s.tasks[c].key in s'.reps && s'.reps[s.tasks[c].key] == s.reps[s.tasks[c].key]
    requires s.phases[c].Creating? ==> s.tasks[c].key !in s'.reps
    requires c in s.locks.jobs ==> c in s'.locks.jobs && s'.locks.jobs[c] == s.locks.jobs[c]
    requires c in s.locks.stages ==> c in s'.locks.stages && (!s.locks.stages[c].Refused? ==> !s'.locks.stages[c].Refused?)
    requires Unbegun(s, c) ==> Unbegun(s', c)
    ensures TaskOK(s', c)
  {
  }

  lemma CallKeeps<V>(create: PeerID -> V, s: State<V>, call: nat, task: L.Job<PeerID, V>)
    requires Inv(create, s) && Enabled(s, Call(call, task))
    ensures Inv(create, Next(create, s, Call(call, task)))
  {
    var s' := Next(create, s, Call(call, task));
    EntriesKept(create, s, s');
    forall c | c in s'.tasks ensures TaskOK(s', c) {
      if c != call {
        OtherTask(s, s', c);
      }
    }
  }

  lemma ArriveKeeps<V>(create: PeerID -> V, s: State<V>, call: nat)
    requires Inv(create, s) && call in s.tasks && Unbegun(s, call) && s.tasks[call].key in s.reps
    requires s.guard == None || s.guard == Some(call) || s.phases[call].Looking?
    ensures
      var p := s.tasks[call].key;
      Inv(create, Arrive(s, call, s.reps[p]).(guard := if s.guard == Some(call) then None else s.guard))
  {
    var p := s.tasks[call].key;
    var s' := Arrive(s, call, s.reps[p]).(guard := if s.guard == Some(call) then None else s.guard);
    assert TaskOK(s, call) && RepOK(s, p);
    L.BeginKeeps(s.locks, call, OnEntry(s.tasks[call], s.reps[p]));
    EntriesKept(create, s, s');
    forall c | c in s'.tasks ensures TaskOK(s', c) {
      if c != call {
        OtherTask(s, s', c);
      }
    }
  }

  lemma MissKeeps<V>(create: PeerID -> V, s: State<V>, call: nat, phase: Phase, guard: Option<nat>)
    requires Inv(create, s) && call in s.tasks && Unbegun(s, call) && !phase.Got?
    requires guard == s.guard || (s.guard == None && guard == Some(call))
    requires guard == Some(call) <==> phase.Rechecking? || phase.Creating?
    requires phase.Creating? ==> s.tasks[call].key !in s.reps
    ensures Inv(create, s.(phases := s.phases[call := phase], guard := guard))
  {
    var s' := s.(phases := s.phases[call := phase], guard := guard);
    EntriesKept(create, s, s');
    forall c | c in s'.tasks ensures TaskOK(s', c) {
      if c != call {
        OtherTask(s, s', c);
      }
    }
  }

  lemma LookKeeps<V>(create: PeerID -> V, s: State<V>, call: nat)
    requires Inv(create, s) && Enabled(s, Look(call))
    ensures Inv(create, Next(create, s, Look(call)))
  {
    assert TaskOK(s, call);
    if s.tasks[call].key in s.reps {
      ArriveKeeps(create, s, call);
    } else {
      MissKeeps(create, s, call, Missed, s.guard);
    }
  }

  lemma GuardKeeps<V>(create: PeerID -> V, s: State<V>, call: nat)
    requires Inv(create, s) && Enabled(s, TakeGuard(call))
    ensures Inv(create, Next(create, s, TakeGuard(call)))
  {
    assert TaskOK(s, call);
    MissKeeps(create, s, call, Rechecking, Some(call));
  }

  lemma RecheckKeeps<V>(create: PeerID -> V, s: State<V>, call: nat)
    requires Inv(create, s) && Enabled(s, Recheck(call))
    ensures Inv(create, Next(create, s, Recheck(call)))
  {
    assert TaskOK(s, call);
    if s.tasks[call].key in s.reps {
      ArriveKeeps(create, s, call);
    } else {
      MissKeeps(create, s, call, Creating, s.guard);
    }
  }

  /** The installing call holds the global lock, so no other is about to install, and its peer has no entry. */
  lemma InstalledKeeps<V>(create: PeerID -> V, s: State<V>, call: nat, entry: nat)
    requires Inv(create, s) && Enabled(s, Install(call, entry))
    ensures
      var s1 := s.(phases := s.phases[call := Rechecking]);
      Inv(create, Installed(create, s1, s.tasks[call].key, entry))
  {
    var p := s.tasks[call].key;
    var s1 := s.(phases := s.phases[call := Rechecking]);
    var s' := Installed(create, s1, p, entry);
    assert TaskOK(s, call);
    L.AcceptKeeps(s.locks, entry, create(p));
    forall q | q in s'.reps ensures RepOK(s', q) {
      if q != p {
        assert RepOK(s, q);
      }
    }
    forall e | e in s'.made ensures MadeOK(create, s', e) {
      if e != entry {
        assert MadeOK(create, s, e);
      }
    }
    forall c | c in s'.tasks ensures TaskOK(s', c) {
      assert TaskOK(s, c);
      if c != call {
        OtherTask(s, s', c);
      }
    }
  }

  lemma InstallKeeps<V>(create: PeerID -> V, s: State<V>, call: nat, entry: nat)
    requires Inv(create, s) && Enabled(s, Install(call, entry))
    ensures Inv(create, Next(create, s, Install(call, entry)))
  {
    var p := s.tasks[call].key;
    var s1 := Installed(create, s.(phases := s.phases[call := Rechecking]), p, entry);
    InstalledKeeps(create, s, call, entry);
    assert TaskOK(s, call);
    ArriveKeeps(create, s1, call);
    assert s.phases[call := Rechecking][call := Got(entry)] == s.phases[call := Got(entry)];
    assert Arrive(s1, call, entry).(guard := None) == Next(create, s, Install(call, entry));
  }

  lemma LockStep<V>(l: L.State<nat, V>, e: L.Event<nat, V>)
    requires L.Inv(l) && (e.Lock? || e.Finish?) && L.Enabled(l, e)
    ensures
      var l' := L.Next(l, e);
      && L.Inv(l') && l'.jobs == l.jobs && l'.first == l.first
      && l'.cells.Keys == l.cells.Keys && l'.stages.Keys == l.stages.Keys
      && (forall c | c in l.stages && !l.stages[c].Refused? :: !l'.stages[c].Refused?)
  {
    if e.Lock? {
      L.LockKeeps(l, e.call);
    } else {
      L.FinishKeeps(l, e.call);
    }
  }

  lemma LocksKeep<V>(create: PeerID -> V, s: State<V>, e: L.Event<nat, V>)
    requires Inv(create, s) && (e.Lock? || e.Finish?) && L.Enabled(s.locks, e)
    ensures Inv(create, s.(locks := L.Next(s.locks, e)))
  {
    var s' := s.(locks := L.Next(s.locks, e));
    LockStep(s.locks, e);
    EntriesKept(create, s, s');
    forall c | c in s'.tasks ensures TaskOK(s', c) {
      assert TaskOK(s, c);
      OtherTask(s, s', c);
    }
  }

  lemma StepKeeps<V>(create: PeerID -> V, s: State<V>, e: Event<V>)
    requires Inv(create, s) && Enabled(s, e)
    ensures Inv(create, Next(create, s, e))
  {
    match e
    case Call(call, task) => CallKeeps(create, s, call, task);
    case Look(call) => LookKeeps(create, s, call);
    case TakeGuard(call) => GuardKeeps(create, s, call);
    case Recheck(call) => RecheckKeeps(create, s, call);
    case Install(call, entry) => InstallKeeps(create, s, call, entry);
    case Lock(call) => LocksKeep(create, s, L.Lock(call));
    case Finish(call) => LocksKeep(create, s, L.Finish(call));
  }

  lemma {:induction false} RunKeeps<V>(create: PeerID -> V, states: seq<State<V>>, events: seq<Event<V>>, i: nat)
    requires IsRun(create, states, events) && i < |states|
    ensures Inv(create, states[i])
    decreases i
  {
    if i > 0 {
      RunKeeps(create, states, events, i - 1);
      StepKeeps(create, states[i - 1], events[i - 1]);
    }
  }

  // What callers may rely on

  /** At most one entry is ever made for a peer. */
  lemma OneEntryPerPeer<V>(create: PeerID -> V, states: seq<State<V>>, events: seq<Event<V>>, i: nat, e: nat, f: nat)
    requires IsRun(create, states, events) && i < |states| && e in states[i].made && f in states[i].made
    requires states[i].made[e] == states[i].made[f]
    ensures e == f
  {
    RunKeeps(create, states, events, i);
    assert MadeOK(create, states[i], e) && MadeOK(create, states[i], f);
  }

  /** An installed entry stays installed for its peer. */
  lemma {:induction false} EntriesStay<V>(
    create: PeerID -> V, states: seq<State<V>>, events: seq<Event<V>>, i: nat, j: nat, p: PeerID)
    requires IsRun(create, states, events) && i <= j < |states| && p in states[i].reps
    ensures p in states[j].reps && states[j].reps[p] == states[i].reps[p]
    decreases j
  {
    if i < j {
      EntriesStay(create, states, events, i, j - 1, p);
      RunKeeps(create, states, events, j - 1);
      NoReplacement(create, states[j - 1], events[j - 1], p);
    }
  }

  lemma NoReplacement<V>(create: PeerID -> V, s: State<V>, e: Event<V>, p: PeerID)
    requires Inv(create, s) && Enabled(s, e) && p in s.reps
    ensures p in Next(create, s, e).reps && Next(create, s, e).reps[p] == s.reps[p]
  {
    if e.Install? {
      assert TaskOK(s, e.call);
    }
  }

  /** Any two calls for one peer, whenever each got its entry, got the same one: the installed one. */
  lemma CallersShareTheEntry<V>(
    create: PeerID -> V, states: seq<State<V>>, events: seq<Event<V>>, i: nat, j: nat, c: nat, d: nat)
    requires IsRun(create, states, events) && i <= j < |states|
    requires c in states[i].tasks && c in states[i].phases && states[i].phases[c].Got?
    requires d in states[j].tasks && d in states[j].phases && states[j].phases[d].Got?
    requires states[i].tasks[c].key == states[j].tasks[d].key
    ensures states[i].phases[c] == states[j].phases[d]
    ensures states[j].tasks[d].key in states[j].reps && states[j].phases[d].entry == states[j].reps[states[j].tasks[d].key]
  {
    RunKeeps(create, states, events, i);
    RunKeeps(create, states, events, j);
    assert TaskOK(states[i], c) && TaskOK(states[j], d);
    EntriesStay(create, states, events, i, j, states[i].tasks[c].key);
  }

  /** The call's callback has been given the entry's lock. */
  predicate Begun<V>(s: State<V>, call: nat) {
    call in s.locks.stages && (s.locks.stages[call].Holding? || s.locks.stages[call].Returned?)
  }

  /** An entry's callbacks come from update calls for its peer. */
  lemma OrderedTasks<V>(create: PeerID -> V, s: State<V>, p: PeerID, n: nat)
    requires Inv(create, s) && p in s.reps && s.reps[p] in s.locks.order && n < |s.locks.order[s.reps[p]]|
    ensures
      var a := s.locks.order[s.reps[p]][n];
      a.call in s.tasks && s.tasks[a.call] == L.Writing(p, a.write) && Begun(s, a.call)
  {
    var e := s.reps[p];
    var a := s.locks.order[e][n];
    assert L.OrderOK(s.locks, e) && RepOK(s, p);
    assert TaskOK(s, a.call) && MadeOK(create, s, e);
    assert RepOK(s, s.tasks[a.call].key);
  }

  lemma BegunIsOrdered<V>(create: PeerID -> V, s: State<V>, call: nat)
    requires Inv(create, s) && call in s.tasks && s.tasks[call].Writing? && Begun(s, call)
    ensures
      var p := s.tasks[call].key;
      && p in s.reps && s.reps[p] in s.locks.order
      && var order := s.locks.order[s.reps[p]];
         exists n :: 0 <= n < |order| && order[n] == L.Applied(call, s.tasks[call].write)
  {
    assert TaskOK(s, call);
    var p := s.tasks[call].key;
    var e := s.reps[p];
    assert RepOK(s, p) && L.OrderOK(s.locks, e);
    assert s.locks.jobs[call] == L.Writing(e, s.tasks[call].write);
    var n :| 0 <= n < |s.locks.order[e]| && s.locks.order[e][n].call == call;
    assert s.locks.order[e][n] == L.Applied(call, s.tasks[call].write);
  }

  /** No update is lost: with no update for the peer under way, its value is a new reputation put through the callbacks
      of exactly the update calls for that peer that got the lock, each once. */
  lemma NoUpdateLost<V>(create: PeerID -> V, states: seq<State<V>>, events: seq<Event<V>>, i: nat, p: PeerID)
    requires IsRun(create, states, events) && i < |states| && p in states[i].reps
    ensures states[i].reps[p] in states[i].locks.cells && states[i].reps[p] in states[i].locks.order
    ensures
      var (cell, order) := (states[i].locks.cells[states[i].reps[p]], states[i].locks.order[states[i].reps[p]]);
      && (cell.writer == None ==> cell.value == L.Fold(create(p), order))
      && (forall m, n :: 0 <= m < n < |order| ==> order[m].call != order[n].call)
      && (forall n :: 0 <= n < |order| ==>
            order[n].call in states[i].tasks && states[i].tasks[order[n].call] == L.Writing(p, order[n].write))
    ensures
      var order := states[i].locks.order[states[i].reps[p]];
      forall call | call in states[i].tasks && states[i].tasks[call].Writing? && states[i].tasks[call].key == p ::
        Begun(states[i], call) <==> exists n :: 0 <= n < |order| && order[n] == L.Applied(call, states[i].tasks[call].write)
  {
    var s := states[i];
    RunKeeps(create, states, events, i);
    var e := s.reps[p];
    assert RepOK(s, p) && MadeOK(create, s, e) && L.CellOK(s.locks, e) && L.OrderOK(s.locks, e);
    var order := s.locks.order[e];
    forall n | 0 <= n < |order|
      ensures order[n].call in s.tasks && s.tasks[order[n].call] == L.Writing(p, order[n].write)
    {
      OrderedTasks(create, s, p, n);
    }
    forall call | call in s.tasks && s.tasks[call].Writing? && s.tasks[call].key == p
      ensures Begun(s, call) <==> exists n :: 0 <= n < |order| && order[n] == L.Applied(call, s.tasks[call].write)
    {
      if Begun(s, call) {
        BegunIsOrdered(create, s, call);
      } else if n :| 0 <= n < |order| && order[n] == L.Applied(call, s.tasks[call].write) {
        OrderedTasks(create, s, p, n);
        assert false;
      }
    }
  }

  // One caller alone

  /** A caller finds an entry that is there at its first look. With none there and nobody under the global lock, it makes
      one with the starting value. Either way it then waits for that entry's lock alone. */
  lemma ArrivesAlone<V>(create: PeerID -> V, s: State<V>, call: nat, task: L.Job<PeerID, V>, entry: nat)
    returns (s1: State<V>, s2: State<V>, s3: State<V>, s4: State<V>, s': State<V>)
    requires Inv(create, s) && Enabled(s, Call(call, task)) && Unbegun(s, call)
    requires task.key !in s.reps ==> s.guard == None && entry !in s.locks.cells
    ensures s1 == Next(create, s, Call(call, task)) && Enabled(s1, Look(call)) && s2 == Next(create, s1, Look(call))
    ensures task.key in s.reps ==> s' == s2
    ensures task.key !in s.reps ==>
      && Enabled(s2, TakeGuard(call)) && s3 == Next(create, s2, TakeGuard(call))
      && Enabled(s3, Recheck(call)) && s4 == Next(create, s3, Recheck(call))
      && Enabled(s4, Install(call, entry)) && s' == Next(create, s4, Install(call, entry))
    ensures
      var e := if task.key in s.reps then s.reps[task.key] else entry;
      && call in s'.phases && s'.phases[call] == Got(e) && s'.guard == s.guard
      && s'.reps == s.reps[task.key := e]
      && (task.key !in s.reps ==> s'.locks.cells == s.locks.cells[e := L.Cell(create(task.key), None, {})])
      && call in s'.locks.stages && s'.locks.stages[call] == L.Waiting
  {
    s1 := Next(create, s, Call(call, task));
    s2 := Next(create, s1, Look(call));
    s3, s4, s' := s2, s2, s2;
    if task.key in s.reps {
      assert RepOK(s, task.key);
    } else {
      s3 := Next(create, s2, TakeGuard(call));
      s4 := Next(create, s3, Recheck(call));
      s' := Next(create, s4, Install(call, entry));
    }
  }

  // Racing marks on proportional reputations

  function Marking(m: Mark): Proportional -> Written<Proportional> {
    (r: Proportional) => Written(Some(Record(r, m)), false)
  }

  function MarksOf(order: seq<L.Applied<Proportional>>, mark: nat -> Mark): (marks: seq<Mark>)
    ensures |marks| == |order|
  {
    seq(|order|, n requires 0 <= n < |order| => mark(order[n].call))
  }

  lemma {:induction false} FoldOfMarks(order: seq<L.Applied<Proportional>>, mark: nat -> Mark)
    requires forall n :: 0 <= n < |order| ==> order[n].write == Marking(mark(order[n].call))
    ensures L.Fold(NEW, order) == After(MarksOf(order, mark))
  {
    if order != [] {
      var init := order[..|order| - 1];
      FoldOfMarks(init, mark);
      assert MarksOf(order, mark)[..|order| - 1] == MarksOf(init, mark);
    }
  }

  /** However rewards and penalties race, first use included, the value is the share the recorded marks come to. */
  lemma RacingMarks(states: seq<State<Proportional>>, events: seq<Event<Proportional>>, i: nat, p: PeerID, mark: nat -> Mark)
    requires IsRun((q: PeerID) => NEW, states, events) && i < |states| && p in states[i].reps
    requires forall c | c in states[i].tasks && states[i].tasks[c].Writing? :: states[i].tasks[c].write == Marking(mark(c))
    requires states[i].reps[p] in states[i].locks.cells && states[i].locks.cells[states[i].reps[p]].writer == None
    ensures states[i].reps[p] in states[i].locks.order
    ensures
      var marks := MarksOf(states[i].locks.order[states[i].reps[p]], mark);
      var (r, w, s) := (Count(marks, Good), Count(marks, Weak), Count(marks, Strong));
      states[i].locks.cells[states[i].reps[p]].value.Value() ==
        if marks == [] then 1.0 else r as real / (r + w + 3 * s) as real
  {
    var create := (q: PeerID) => NEW;
    NoUpdateLost(create, states, events, i, p);
    var order := states[i].locks.order[states[i].reps[p]];
    FoldOfMarks(order, mark);
    ValueAfter(MarksOf(order, mark));
  }
}
