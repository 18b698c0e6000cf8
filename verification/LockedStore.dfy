/** The connection store under concurrent callers, one lock operation at a time: a global lock guards the
    map, each entry has a readers-writer lock, and a callback runs while its entry is held. Whatever
    the interleaving, every entry's value is what its callbacks give when run one after another. */
module LockedStore {
  import opened Types
  import opened ConnectionStore

  datatype Job<K, !V> = Reading(key: K) | Writing(key: K, write: V -> Written<V>)

  datatype Stage<!V> = Waiting | Holding(seen: V) | Returned(failed: bool) | Refused

  datatype Cell<!V> = Cell(value: V, writer: Option<nat>, readers: set<nat>)

  /** A callback that was given its entry's lock, and the call it came from. */
  datatype Applied<!V> = Applied(call: nat, write: V -> Written<V>)

  /** first and order are history: the value an entry was installed with, and its callbacks in lock order. */
  datatype State<K, !V> = State(
    cells: map<K, Cell<V>>,
    jobs: map<nat, Job<K, V>>,
    stages: map<nat, Stage<V>>,
    first: map<K, V>,
    order: map<K, seq<Applied<V>>>)

  function Empty<K, V>(): State<K, V> {
    State(map[], map[], map[], map[], map[])
  }

  datatype Event<K, !V> =
    | Accept(k: K, v: V)
    | Begin(call: nat, job: Job<K, V>)
    | Lock(call: nat)
    | Finish(call: nat)

  /** A nil result keeps the old value; an error rolls nothing back. */
  function Apply<V>(v: V, write: V -> Written<V>): V {
    var w := write(v);
    if w.updated.Some? then w.updated.value else v
  }

  /** The callbacks of an entry run one after another. */
  function Fold<V>(v: V, order: seq<Applied<V>>): V {
    if order == [] then v else Apply(Fold(v, order[..|order| - 1]), order[|order| - 1].write)
  }

  predicate Known<K, V>(s: State<K, V>, call: nat) {
    call in s.jobs && call in s.stages && s.jobs[call].key in s.cells && s.jobs[call].key in s.order
  }

  predicate CanLock<K, V>(s: State<K, V>, call: nat) {
    && Known(s, call) && s.stages[call].Waiting?
    && var cell := s.cells[s.jobs[call].key];
       cell.writer == None && (s.jobs[call].Writing? ==> cell.readers == {})
  }

  predicate Enabled<K, V>(s: State<K, V>, e: Event<K, V>) {
    match e
    case Accept(_, _) => true
    case Begin(call, _) => call !in s.jobs && call !in s.stages
    case Lock(call) => CanLock(s, call)
    case Finish(call) => Known(s, call) && s.stages[call].Holding?
  }

  /** Accept runs under the global lock; so does the lookup that begins a read or an update. */
  function Next<K, V>(s: State<K, V>, e: Event<K, V>): State<K, V>
    requires Enabled(s, e)
  {
    match e
    case Accept(k, v) =>
      if k in s.cells then s
      else s.(cells := s.cells[k := Cell(v, None, {})], first := s.first[k := v], order := s.order[k := []])
    case Begin(call, job) =>
      s.(jobs := s.jobs[call := job], stages := s.stages[call := if job.key in s.cells then Waiting else Refused])
    case Lock(call) =>
      var job := s.jobs[call];
      var cell := s.cells[job.key];
      var s1 := s.(stages := s.stages[call := Holding(cell.value)]);
      (match job
       case Reading(k) => s1.(cells := s.cells[k := cell.(readers := cell.readers + {call})])
       case Writing(k, write) =>
         s1.(cells := s.cells[k := cell.(writer := Some(call))], order := s.order[k := s.order[k] + [Applied(call, write)]]))
    case Finish(call) =>
      var job := s.jobs[call];
      var cell := s.cells[job.key];
      var seen := s.stages[call].seen;
      (match job
       case Reading(k) =>
         s.(cells := s.cells[k := cell.(readers := cell.readers - {call})], stages := s.stages[call := Returned(false)])
       case Writing(k, write) =>
         s.(cells := s.cells[k := cell.(value := Apply(seen, write), writer := None)],
            stages := s.stages[call := Returned(write(seen).failed)]))
  }

  ghost predicate IsRun<K, V>(states: seq<State<K, V>>, events: seq<Event<K, V>>) {
    && |states| == |events| + 1 && states[0] == Empty()
    && forall i :: 0 <= i < |events| ==> Enabled(states[i], events[i]) && states[i + 1] == Next(states[i], events[i])
  }

  // The invariant

  /** The callbacks whose results are in the entry: all that were given the lock, less the one holding it. */
  function Settled<K, V>(s: State<K, V>, k: K): seq<Applied<V>>
    requires k in s.cells && k in s.order && (s.cells[k].writer.Some? ==> s.order[k] != [])
  {
    if s.cells[k].writer.Some? then s.order[k][..|s.order[k]| - 1] else s.order[k]
  }

  ghost predicate CellOK<K, V>(s: State<K, V>, k: K)
    requires k in s.cells
  {
    var cell := s.cells[k];
    && k in s.first && k in s.order
    && (cell.writer.Some? ==>
          s.order[k] != [] && s.order[k][|s.order[k]| - 1].call == cell.writer.value && cell.readers == {})
    && cell.value == Fold(s.first[k], Settled(s, k))
  }

  /** A call that holds is recorded as holding and saw the entry's present value; the callbacks in an entry's order
      are those of the update calls that got the lock, each once. */
  ghost predicate CallOK<K, V>(s: State<K, V>, call: nat)
    requires call in s.jobs
  {
    var job := s.jobs[call];
    && call in s.stages
    && (!s.stages[call].Refused? ==> job.key in s.cells)
    && (s.stages[call].Holding? && job.key in s.cells ==>
          && s.stages[call].seen == s.cells[job.key].value
          && (job.Reading? ==> call in s.cells[job.key].readers)
          && (job.Writing? ==> s.cells[job.key].writer == Some(call)))
  }

  ghost predicate OrderOK<K, V>(s: State<K, V>, k: K)
    requires k in s.order
  {
    && (forall i :: 0 <= i < |s.order[k]| ==>
          var a := s.order[k][i];
          && a.call in s.jobs && s.jobs[a.call] == Writing(k, a.write)
          && a.call in s.stages && (s.stages[a.call].Holding? || s.stages[a.call].Returned?))
    && (forall i, j :: 0 <= i < j < |s.order[k]| ==> s.order[k][i].call != s.order[k][j].call)
    && (forall call | call in s.jobs && s.jobs[call].Writing? && s.jobs[call].key == k && call in s.stages
          && (s.stages[call].Holding? || s.stages[call].Returned?) ::
          exists i :: 0 <= i < |s.order[k]| && s.order[k][i].call == call)
  }

  ghost predicate Inv<K, V>(s: State<K, V>) {
    && s.stages.Keys == s.jobs.Keys && s.order.Keys == s.cells.Keys && s.first.Keys == s.cells.Keys
    && (forall k {:trigger CellOK(s, k)} | k in s.cells :: CellOK(s, k))
    && (forall call {:trigger CallOK(s, call)} | call in s.jobs :: CallOK(s, call))
    && (forall k {:trigger OrderOK(s, k)} | k in s.order :: OrderOK(s, k))
  }

  lemma AcceptKeeps<K, V>(s: State<K, V>, k: K, v: V)
    requires Inv(s)
    ensures Inv(Next(s, Accept(k, v)))
  {
    var s' := Next(s, Accept(k, v));
    if k !in s.cells {
      OldCalls(s, s', k);
      NewOrder(s, s', k);
      forall j | j in s'.cells ensures CellOK(s', j) {
        if j != k {
          OldEntry(s, s', j);
        }
      }
      forall j | j in s'.order ensures OrderOK(s', j) {
        if j != k {
          OldEntry(s, s', j);
        }
      }
    }
  }

  lemma OldCalls<K, V>(s: State<K, V>, s': State<K, V>, k: K)
    requires Inv(s) && k !in s.cells && s'.jobs == s.jobs && s'.stages == s.stages
    requires k in s'.cells && s'.cells == s.cells[k := s'.cells[k]]
    ensures forall call {:trigger CallOK(s', call)} | call in s'.jobs :: CallOK(s', call)
  {
    forall call | call in s'.jobs ensures CallOK(s', call) {
      assert CallOK(s, call);
    }
  }

  lemma OldEntry<K, V>(s: State<K, V>, s': State<K, V>, j: K)
    requires Inv(s) && j in s.cells && s'.jobs == s.jobs && s'.stages == s.stages
    requires j in s'.cells && j in s'.order && j in s'.first
    requires s'.cells[j] == s.cells[j] && s'.order[j] == s.order[j] && s'.first[j] == s.first[j]
    ensures CellOK(s', j) && OrderOK(s', j)
  {
    assert CellOK(s, j) && OrderOK(s, j);
  }

  /** Calls that came before the entry was installed were refused. */
  lemma NewOrder<K, V>(s: State<K, V>, s': State<K, V>, k: K)
    requires Inv(s) && k !in s.cells && k in s'.order && s'.order[k] == [] && s'.jobs == s.jobs && s'.stages == s.stages
    ensures OrderOK(s', k)
  {
    forall call | call in s.jobs && s.jobs[call].key == k ensures s.stages[call].Refused? {
      assert CallOK(s, call);
    }
  }

  lemma BeginKeeps<K, V>(s: State<K, V>, call: nat, job: Job<K, V>)
    requires Inv(s) && Enabled(s, Begin(call, job))
    ensures Inv(Next(s, Begin(call, job)))
  {
    var s' := Next(s, Begin(call, job));
    forall c | c in s'.jobs ensures CallOK(s', c) {
      if c != call {
        assert CallOK(s, c);
      }
    }
    forall j | j in s'.cells ensures CellOK(s', j) && OrderOK(s', j) {
      assert CellOK(s, j) && OrderOK(s, j);
    }
  }

  /** A step of one call leaves the parts of the invariant about other entries and orders alone. */
  lemma OtherCell<K, V>(s: State<K, V>, s': State<K, V>, j: K)
    requires j in s.cells && CellOK(s, j) && s'.first == s.first
    requires j in s'.cells && s'.cells[j] == s.cells[j] && j in s'.order && s'.order[j] == s.order[j]
    ensures CellOK(s', j)
  {
  }

  lemma OtherOrder<K, V>(s: State<K, V>, s': State<K, V>, call: nat, j: K)
    requires j in s.order && OrderOK(s, j) && s'.jobs == s.jobs && call in s.stages && !s.stages[call].Refused?
    requires j in s'.order && s'.order[j] == s.order[j]
    requires call in s'.stages && s'.stages == s.stages[call := s'.stages[call]]
    requires s'.stages[call].Holding? || s'.stages[call].Returned?
    requires s.stages[call].Waiting? ==> call in s.jobs && (s.jobs[call].key != j || s.jobs[call].Reading?)
    ensures OrderOK(s', j)
  {
  }

  lemma LockCalls<K, V>(s: State<K, V>, call: nat, c: nat)
    requires Inv(s) && CanLock(s, call) && c in s.jobs
    ensures CallOK(Next(s, Lock(call)), c)
  {
    assert CallOK(s, c) && CellOK(s, s.jobs[call].key);
  }

  lemma LockCell<K, V>(s: State<K, V>, call: nat)
    requires Inv(s) && CanLock(s, call)
    ensures CellOK(Next(s, Lock(call)), s.jobs[call].key)
  {
    var s' := Next(s, Lock(call));
    var k := s.jobs[call].key;
    assert CellOK(s, k);
    if s.jobs[call].Writing? {
      assert s'.order[k][..|s'.order[k]| - 1] == s.order[k];
    }
  }

  lemma LockKeeps<K, V>(s: State<K, V>, call: nat)
    requires Inv(s) && CanLock(s, call)
    ensures Inv(Next(s, Lock(call)))
  {
    var s' := Next(s, Lock(call));
    var k := s.jobs[call].key;
    forall c | c in s'.jobs ensures CallOK(s', c) {
      LockCalls(s, call, c);
    }
    LockCell(s, call);
    forall j | j in s'.cells && j != k ensures CellOK(s', j) {
      OtherCell(s, s', j);
    }
    forall j | j in s'.order ensures OrderOK(s', j) {
      if j == k && s.jobs[call].Writing? {
        LockOrder(s, s', call);
      } else {
        OtherOrder(s, s', call, j);
      }
    }
  }

  lemma LockOrder<K, V>(s: State<K, V>, s': State<K, V>, call: nat)
    requires Inv(s) && CanLock(s, call) && s.jobs[call].Writing? && s' == Next(s, Lock(call))
    ensures OrderOK(s', s.jobs[call].key)
  {
    var k := s.jobs[call].key;
    var o, o' := s.order[k], s'.order[k];
    assert OrderOK(s, k);
    assert o'[|o|].call == call;
    forall c | c in s'.jobs && s'.jobs[c].Writing? && s'.jobs[c].key == k && (s'.stages[c].Holding? || s'.stages[c].Returned?)
      ensures exists i :: 0 <= i < |o'| && o'[i].call == c
    {
      if c != call {
        var i :| 0 <= i < |o| && o[i].call == c;
        assert o'[i].call == c;
      }
    }
  }

  lemma FinishCalls<K, V>(s: State<K, V>, call: nat, c: nat)
    requires Inv(s) && Enabled(s, Finish(call)) && c in s.jobs
    ensures CallOK(Next(s, Finish(call)), c)
  {
    assert CallOK(s, c) && CallOK(s, call) && CellOK(s, s.jobs[call].key);
  }

  lemma FinishCell<K, V>(s: State<K, V>, call: nat)
    requires Inv(s) && Enabled(s, Finish(call))
    ensures CellOK(Next(s, Finish(call)), s.jobs[call].key)
  {
    var k := s.jobs[call].key;
    assert CellOK(s, k) && CallOK(s, call) && OrderOK(s, k);
  }

  lemma FinishKeeps<K, V>(s: State<K, V>, call: nat)
    requires Inv(s) && Enabled(s, Finish(call))
    ensures Inv(Next(s, Finish(call)))
  {
    var s' := Next(s, Finish(call));
    var k := s.jobs[call].key;
    forall c | c in s'.jobs ensures CallOK(s', c) {
      FinishCalls(s, call, c);
    }
    FinishCell(s, call);
    forall j | j in s'.cells && j != k ensures CellOK(s', j) {
      OtherCell(s, s', j);
    }
    forall j | j in s'.order ensures OrderOK(s', j) {
      OtherOrder(s, s', call, j);
    }
  }

  lemma {:induction false} RunKeeps<K, V>(states: seq<State<K, V>>, events: seq<Event<K, V>>, i: nat)
    requires IsRun(states, events) && i < |states|
    ensures Inv(states[i])
    decreases i
  {
    if i > 0 {
      RunKeeps(states, events, i - 1);
      match events[i - 1]
      case Accept(k, v) => AcceptKeeps(states[i - 1], k, v);
      case Begin(call, job) => BeginKeeps(states[i - 1], call, job);
      case Lock(call) => LockKeeps(states[i - 1], call);
      case Finish(call) => FinishKeeps(states[i - 1], call);
    }
  }

  // What calls return

  /** The call behind the i-th callback of an entry's order has not returned, or returned what the callback did. */
  ghost predicate ReportOK<K, V>(s: State<K, V>, k: K, i: nat)
    requires k in s.first && k in s.order && i < |s.order[k]|
  {
    var a := s.order[k][i];
    a.call in s.stages && s.stages[a.call].Returned? ==>
      s.stages[a.call].failed == a.write(Fold(s.first[k], s.order[k][..i])).failed
  }

  ghost predicate Reported<K, V>(s: State<K, V>) {
    forall k, i: nat | k in s.first && k in s.order && i < |s.order[k]| :: ReportOK(s, k, i)
  }

  /** A finishing update is the last in its entry's order, and saw the fold of those before it. */
  lemma FinisherIsLast<K, V>(s: State<K, V>, call: nat, k: K, i: nat)
    requires Inv(s) && Enabled(s, Finish(call)) && k in s.order && i < |s.order[k]| && s.order[k][i].call == call
    ensures s.jobs[call] == Writing(k, s.order[k][i].write) && k in s.first
    ensures s.stages[call].seen == Fold(s.first[k], s.order[k][..i])
  {
    assert OrderOK(s, k) && CellOK(s, k) && CallOK(s, call);
  }

  lemma FinishReports<K, V>(s: State<K, V>, call: nat, k: K, i: nat)
    requires Inv(s) && Enabled(s, Finish(call)) && k in s.first && k in s.order && i < |s.order[k]| && ReportOK(s, k, i)
    ensures ReportOK(Next(s, Finish(call)), k, i)
  {
    if s.order[k][i].call == call {
      FinisherIsLast(s, call, k, i);
    }
  }

  lemma LockReports<K, V>(s: State<K, V>, call: nat, k: K, i: nat)
    requires Inv(s) && CanLock(s, call) && k in s.first && k in s.order && i < |Next(s, Lock(call)).order[k]|
    requires i < |s.order[k]| ==> ReportOK(s, k, i)
    ensures ReportOK(Next(s, Lock(call)), k, i)
  {
    if i < |s.order[k]| {
      assert Next(s, Lock(call)).order[k][..i] == s.order[k][..i];
    }
  }

  lemma StartReports<K, V>(s: State<K, V>, e: Event<K, V>, k: K, i: nat)
    requires Inv(s) && (e.Accept? || e.Begin?) && Enabled(s, e) && k in Next(s, e).order && i < |Next(s, e).order[k]|
    requires k in s.first && k in s.order && i < |s.order[k]| ==> ReportOK(s, k, i)
    ensures k in Next(s, e).first && ReportOK(Next(s, e), k, i)
  {
    assert k in s.order ==> OrderOK(s, k);
  }

  lemma {:induction false} RunReports<K, V>(states: seq<State<K, V>>, events: seq<Event<K, V>>, n: nat)
    requires IsRun(states, events) && n < |states|
    ensures Reported(states[n])
    decreases n
  {
    if n > 0 {
      var s, e, s' := states[n - 1], events[n - 1], states[n];
      RunReports(states, events, n - 1);
      RunKeeps(states, events, n - 1);
      forall k, i: nat | k in s'.first && k in s'.order && i < |s'.order[k]| ensures ReportOK(s', k, i) {
        match e
        case Accept(_, _) => StartReports(s, e, k, i);
        case Begin(_, _) => StartReports(s, e, k, i);
        case Lock(call) => LockReports(s, call, k, i);
        case Finish(call) => FinishReports(s, call, k, i);
      }
    }
  }

  // What callers may rely on

  /** With no update under way, an entry's value is the fold of its callbacks in the order they got the lock. */
  lemma ValueIsFold<K, V>(states: seq<State<K, V>>, events: seq<Event<K, V>>, i: nat, k: K)
    requires IsRun(states, events) && i < |states| && k in states[i].cells && states[i].cells[k].writer == None
    ensures k in states[i].first && k in states[i].order
    ensures states[i].cells[k].value == Fold(states[i].first[k], states[i].order[k])
  {
    RunKeeps(states, events, i);
    assert CellOK(states[i], k);
  }

  /** That order holds every update call that has got the lock, once, and no other callback. */
  lemma EveryUpdateCounts<K, V>(states: seq<State<K, V>>, events: seq<Event<K, V>>, i: nat, call: nat)
    requires IsRun(states, events) && i < |states| && call in states[i].jobs && states[i].jobs[call].Writing?
    requires states[i].jobs[call].key in states[i].order
    ensures call in states[i].stages
    ensures
      var order := states[i].order[states[i].jobs[call].key];
      (states[i].stages[call].Holding? || states[i].stages[call].Returned?) <==>
        exists n :: 0 <= n < |order| && order[n] == Applied(call, states[i].jobs[call].write)
    ensures
      var order := states[i].order[states[i].jobs[call].key];
      forall m, n :: 0 <= m < n < |order| ==> order[m].call != order[n].call
  {
    var s := states[i];
    var k := s.jobs[call].key;
    RunKeeps(states, events, i);
    assert OrderOK(s, k) && CallOK(s, call);
    if s.stages[call].Holding? || s.stages[call].Returned? {
      var n :| 0 <= n < |s.order[k]| && s.order[k][n].call == call;
      assert s.order[k][n] == Applied(call, s.jobs[call].write);
    }
  }

  /** While a reader reads, no update is under way, and what it sees is the fold of all updates so far. */
  lemma ReadersSeeCommitted<K, V>(states: seq<State<K, V>>, events: seq<Event<K, V>>, i: nat, call: nat)
    requires IsRun(states, events) && i < |states| && call in states[i].jobs && states[i].jobs[call].Reading?
    requires call in states[i].stages && states[i].stages[call].Holding?
    ensures
      var k := states[i].jobs[call].key;
      && k in states[i].cells && k in states[i].first && k in states[i].order
      && states[i].cells[k].writer == None
      && states[i].stages[call].seen == Fold(states[i].first[k], states[i].order[k])
  {
    RunKeeps(states, events, i);
    assert CallOK(states[i], call);
    assert CellOK(states[i], states[i].jobs[call].key);
  }

  /** An update's callback gets the fold of the callbacks before it. */
  lemma UpdatesSeeTheirPredecessors<K, V>(states: seq<State<K, V>>, events: seq<Event<K, V>>, i: nat, call: nat)
    requires IsRun(states, events) && i < |states| && call in states[i].jobs && states[i].jobs[call].Writing?
    requires call in states[i].stages && states[i].stages[call].Holding?
    ensures
      var k := states[i].jobs[call].key;
      && k in states[i].first && k in states[i].order && states[i].order[k] != []
      && var n := |states[i].order[k]| - 1;
         && states[i].order[k][n].call == call
         && states[i].stages[call].seen == Fold(states[i].first[k], states[i].order[k][..n])
  {
    RunKeeps(states, events, i);
    assert CallOK(states[i], call);
    assert CellOK(states[i], states[i].jobs[call].key);
  }

  /** A returned update reports the error its callback gave on the fold of the callbacks before it, whatever came since. */
  lemma UpdatesReport<K, V>(states: seq<State<K, V>>, events: seq<Event<K, V>>, i: nat, k: K, n: nat)
    requires IsRun(states, events) && i < |states| && k in states[i].order && n < |states[i].order[k]|
    ensures k in states[i].first && states[i].order[k][n].call in states[i].stages
    ensures
      var a := states[i].order[k][n];
      var before := Fold(states[i].first[k], states[i].order[k][..n]);
      states[i].stages[a.call].Returned? ==> states[i].stages[a.call].failed == a.write(before).failed
  {
    RunKeeps(states, events, i);
    RunReports(states, events, i);
    assert OrderOK(states[i], k) && ReportOK(states[i], k, n);
  }

  // One call alone

  /** On an entry nobody holds, an update runs to its end: what its callback returned is persisted, even beside an
      error, and the error is reported. On an unknown key it is refused. */
  lemma UpdateAlone<K, V>(s: State<K, V>, call: nat, k: K, write: V -> Written<V>)
    returns (s1: State<K, V>, s2: State<K, V>, s': State<K, V>)
    requires Enabled(s, Begin(call, Writing(k, write)))
    requires k in s.cells ==> k in s.order && s.cells[k].writer == None && s.cells[k].readers == {}
    ensures s1 == Next(s, Begin(call, Writing(k, write))) && call in s1.stages
    ensures k !in s.cells ==> s1.cells == s.cells && s1.stages[call] == Refused
    ensures k in s.cells ==>
      && Enabled(s1, Lock(call)) && s2 == Next(s1, Lock(call)) && Enabled(s2, Finish(call)) && s' == Next(s2, Finish(call))
      && var w := write(s.cells[k].value);
         && s'.cells == (if w.updated.Some? then s.cells[k := s.cells[k].(value := w.updated.value)] else s.cells)
         && call in s'.stages && s'.stages[call] == Returned(w.failed)
  {
    s1 := Next(s, Begin(call, Writing(k, write)));
    s2, s' := s1, s1;
    if k in s.cells {
      s2 := Next(s1, Lock(call));
      s' := Next(s2, Finish(call));
    }
  }

  /** While no update holds the entry, however many others read it, a read gets the value and leaves all as it was. */
  lemma ReadAlone<K, V>(s: State<K, V>, call: nat, k: K) returns (s1: State<K, V>, s2: State<K, V>, s': State<K, V>)
    requires Enabled(s, Begin(call, Reading(k))) && k in s.cells && k in s.order
    requires s.cells[k].writer == None && call !in s.cells[k].readers
    ensures s1 == Next(s, Begin(call, Reading(k))) && Enabled(s1, Lock(call)) && s2 == Next(s1, Lock(call))
    ensures call in s2.stages && s2.stages[call] == Holding(s.cells[k].value)
    ensures Enabled(s2, Finish(call)) && s' == Next(s2, Finish(call)) && s'.cells == s.cells && s'.order == s.order
  {
    s1 := Next(s, Begin(call, Reading(k)));
    s2 := Next(s1, Lock(call));
    s' := Next(s2, Finish(call));
    assert s.cells[k].readers + {call} - {call} == s.cells[k].readers;
  }

  /** An installed entry is never replaced: later states keep its first value and extend its order. */
  lemma {:induction false} EntriesStay<K, V>(states: seq<State<K, V>>, events: seq<Event<K, V>>, i: nat, j: nat, k: K)
    requires IsRun(states, events) && i <= j < |states| && k in states[i].cells
    ensures k in states[i].first && k in states[i].order
    ensures k in states[j].cells && k in states[j].first && k in states[j].order
    ensures states[j].first[k] == states[i].first[k] && states[i].order[k] <= states[j].order[k]
    decreases j
  {
    RunKeeps(states, events, j);
    RunKeeps(states, events, i);
    if i < j {
      EntriesStay(states, events, i, j - 1, k);
      assert Enabled(states[j - 1], events[j - 1]);
    }
  }
}
