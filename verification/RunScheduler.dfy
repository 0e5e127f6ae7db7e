/** The per-agent exclusive run queue: three priority lanes, one active run, and a
  * watchdog that turns a wedged run into a tracked zombie.
  *
  * The part of the file up to `Exec` is the machine: one `Action` is the code between
  * two suspension points (a call, a microtask or a timer callback). Then come the
  * invariant, the theorems over every run, and the class that performs the actions on
  * its own fields.
  */
module RunScheduler {
  import opened Prelude

  datatype Lane = User | Agent | Background

  /** Identity of an enqueued item: items are numbered in the order of their `enqueue` calls. */
  type TaskId = nat

  datatype Phase = Running | WatchdogGrace
  datatype Timer = NoTimer | WatchdogArmed | GraceArmed

  /** Progress of a dispatched task: its start microtask is queued, its body runs, or its
    * body has ended and the settling callback is queued. */
  datatype Stage = Dispatching | Executing | Finished

  datatype Run = Run(phase: Phase, timer: Timer, stage: Stage)

  datatype Event =
    | Enqueued(id: TaskId, lane: Lane)
    | Dispatched(id: TaskId, lane: Lane)
    | Started(id: TaskId)
    | Escaped(id: TaskId)
    | Settled(id: TaskId)

  /** `runs` holds the closures of dispatched, unsettled tasks; `released` the tasks whose
    * caller-facing promise has settled; `pumps` counts queued pump microtasks; `log` is a
    * history that no step reads. */
  datatype Queue = Queue(
    pendingUser: seq<TaskId>,
    pendingAgent: seq<TaskId>,
    pendingBackground: seq<TaskId>,
    active: Option<TaskId>,
    zombies: set<TaskId>,
    runs: map<TaskId, Run>,
    released: set<TaskId>,
    settled: set<TaskId>,
    pumps: nat,
    next: TaskId,
    disposed: bool,
    log: seq<Event>)

  function Empty(disposed: bool): Queue {
    Queue([], [], [], None, {}, map[], {}, {}, 0, 0, disposed, [])
  }

  function LaneOf(q: Queue, l: Lane): seq<TaskId> {
    match l
    case User => q.pendingUser
    case Agent => q.pendingAgent
    case Background => q.pendingBackground
  }

  function WithLane(q: Queue, l: Lane, s: seq<TaskId>): Queue {
    match l
    case User => q.(pendingUser := s)
    case Agent => q.(pendingAgent := s)
    case Background => q.(pendingBackground := s)
  }

  predicate Waiting(q: Queue, id: TaskId) {
    id in q.pendingUser || id in q.pendingAgent || id in q.pendingBackground
  }

  function WaitingLane(q: Queue, id: TaskId): (l: Lane)
    requires Waiting(q, id)
    ensures id in LaneOf(q, l)
  {
    if id in q.pendingUser then User else if id in q.pendingAgent then Agent else Background
  }

  predicate Higher(h: Lane, l: Lane) {
    (h.User? && !l.User?) || (h.Agent? && l.Background?)
  }

  // ---------------------------------------------------------------- actions

  datatype Action =
    | Enqueue(lane: Lane)
    | Pump
    | Start(id: TaskId)
    | Finish(id: TaskId)
    | Settle(id: TaskId)
    | WatchdogFires(id: TaskId)
    | GraceFires(id: TaskId)
    | Dispose

  /** Timer callbacks are macrotasks, so they never run while the task's start microtask is
    * still queued; nothing else about timing is assumed. */
  predicate Enabled(q: Queue, a: Action) {
    match a
    case Enqueue(_) => true
    case Pump => q.pumps > 0
    case Start(id) => id in q.runs && q.runs[id].stage.Dispatching?
    case Finish(id) => id in q.runs && q.runs[id].stage.Executing?
    case Settle(id) => id in q.runs && q.runs[id].stage.Finished?
    case WatchdogFires(id) => id in q.runs && q.runs[id].timer.WatchdogArmed? && !q.runs[id].stage.Dispatching?
    case GraceFires(id) => id in q.runs && q.runs[id].timer.GraceArmed? && !q.runs[id].stage.Dispatching?
    case Dispose => true
  }

  function AfterEnqueue(q: Queue, l: Lane): Queue {
    WithLane(q, l, LaneOf(q, l) + [q.next]).(
      next := q.next + 1, pumps := q.pumps + 1, log := q.log + [Enqueued(q.next, l)])
  }

  /** The lane a pump takes from, if any. */
  function PumpLane(q: Queue): Option<Lane> {
    if q.pendingUser != [] then Some(User)
    else if q.pendingAgent != [] then Some(Agent)
    else if q.pendingBackground != [] then Some(Background)
    else None
  }

  function Dispatch(q: Queue, l: Lane): Queue
    requires LaneOf(q, l) != []
  {
    var id := LaneOf(q, l)[0];
    WithLane(q, l, LaneOf(q, l)[1..]).(
      active := Some(id),
      runs := q.runs[id := Run(Running, WatchdogArmed, Dispatching)],
      log := q.log + [Dispatched(id, l)])
  }

  function AfterPump(q: Queue): Queue
    requires q.pumps > 0
  {
    var p := q.(pumps := q.pumps - 1);
    if q.disposed || q.active.Some? || PumpLane(q).None? then p else Dispatch(p, PumpLane(q).value)
  }

  function AfterSettle(q: Queue, id: TaskId): Queue {
    var p := if q.active == Some(id) then q.(active := None) else q.(zombies := q.zombies - {id});
    p.(runs := q.runs - {id}, released := q.released + {id}, settled := q.settled + {id},
       pumps := q.pumps + 1, log := q.log + [Settled(id)])
  }

  function AfterWatchdog(q: Queue, id: TaskId): Queue
    requires id in q.runs
  {
    var r := q.runs[id];
    if q.disposed || !r.phase.Running? then q.(runs := q.runs[id := r.(timer := NoTimer)])
    else q.(runs := q.runs[id := r.(phase := WatchdogGrace, timer := GraceArmed)])
  }

  function AfterGrace(q: Queue, id: TaskId): Queue
    requires id in q.runs
  {
    var r := q.runs[id];
    var p := q.(runs := q.runs[id := r.(timer := NoTimer)]);
    if q.disposed || !r.phase.WatchdogGrace? then p
    else p.(zombies := q.zombies + {id},
            active := if q.active == Some(id) then None else q.active,
            released := q.released + {id},
            log := q.log + [Escaped(id)])
  }

  function AfterDispose(q: Queue): Queue {
    var p := q.(disposed := true, active := None);
    if q.active.Some? && q.active.value in q.runs then
      p.(runs := q.runs[q.active.value := q.runs[q.active.value].(timer := NoTimer)])
    else p
  }

  function Next(q: Queue, a: Action): Queue
    requires Enabled(q, a)
  {
    match a
    case Enqueue(l) => AfterEnqueue(q, l)
    case Pump => AfterPump(q)
    case Start(id) => q.(runs := q.runs[id := q.runs[id].(stage := Executing)], log := q.log + [Started(id)])
    case Finish(id) => q.(runs := q.runs[id := q.runs[id].(stage := Finished)])
    case Settle(id) => AfterSettle(q, id)
    case WatchdogFires(id) => AfterWatchdog(q, id)
    case GraceFires(id) => AfterGrace(q, id)
    case Dispose => AfterDispose(q)
  }

  /** The state after performing `acts` from `q`, or `None` if some action is not enabled. */
  function Exec(q: Queue, acts: seq<Action>): Option<Queue>
    decreases |acts|
  {
    if acts == [] then Some(q)
    else if Enabled(q, acts[0]) then Exec(Next(q, acts[0]), acts[1..])
    else None
  }

  // ---------------------------------------------------------------- the history

  function EnqueuedIn(log: seq<Event>, l: Lane): seq<TaskId> {
    if log == [] then []
    else EnqueuedIn(Front(log), l) + (if Last(log).Enqueued? && Last(log).lane == l then [Last(log).id] else [])
  }

  function DispatchedIn(log: seq<Event>, l: Lane): seq<TaskId> {
    if log == [] then []
    else DispatchedIn(Front(log), l) + (if Last(log).Dispatched? && Last(log).lane == l then [Last(log).id] else [])
  }

  lemma LogSnoc(log: seq<Event>, e: Event, l: Lane)
    ensures EnqueuedIn(log + [e], l) == EnqueuedIn(log, l) + (if e.Enqueued? && e.lane == l then [e.id] else [])
    ensures DispatchedIn(log + [e], l) == DispatchedIn(log, l) + (if e.Dispatched? && e.lane == l then [e.id] else [])
  {
    assert Front(log + [e]) == log;
  }

  /** Whenever a task was dispatched, every task enqueued before that moment in a higher
    * lane had been dispatched already. */
  ghost predicate PriorityRespected(log: seq<Event>) {
    forall k, h :: 0 <= k < |log| && log[k].Dispatched? && Higher(h, log[k].lane) ==>
      DispatchedIn(log[..k], h) == EnqueuedIn(log[..k], h)
  }

  lemma PrioritySnoc(log: seq<Event>, e: Event)
    requires PriorityRespected(log)
    requires e.Dispatched? ==> forall h :: Higher(h, e.lane) ==> DispatchedIn(log, h) == EnqueuedIn(log, h)
    ensures PriorityRespected(log + [e])
  {
    forall k, h | 0 <= k < |log + [e]| && (log + [e])[k].Dispatched? && Higher(h, (log + [e])[k].lane)
      ensures DispatchedIn((log + [e])[..k], h) == EnqueuedIn((log + [e])[..k], h)
    {
      assert (log + [e])[..k] == log[..k];
      assert log[..|log|] == log;
    }
  }

  // ---------------------------------------------------------------- the invariant

  ghost predicate Ascending(s: seq<TaskId>) {
    forall i, j :: 0 <= i < j < |s| ==> s[i] < s[j]
  }

  ghost predicate LanesAscend(q: Queue) {
    forall l :: Ascending(LaneOf(q, l))
  }

  ghost predicate LanesFresh(q: Queue) {
    forall l, id: TaskId {:trigger id in LaneOf(q, l)} ::
      id in LaneOf(q, l) ==> id < q.next && id !in q.runs && id !in q.settled
  }

  ghost predicate LanesDisjoint(q: Queue) {
    forall l, m, id: TaskId {:trigger id in LaneOf(q, l), id in LaneOf(q, m)} ::
      id in LaneOf(q, l) && id in LaneOf(q, m) ==> l == m
  }

  /** Lanes hold fresh ids in order, and no id waits twice. */
  ghost predicate LanesOk(q: Queue) {
    LanesAscend(q) && LanesFresh(q) && LanesDisjoint(q)
  }

  ghost predicate RunsOk(q: Queue) {
    && (forall id :: id in q.runs ==> id < q.next && id !in q.settled)
    && (forall id :: id in q.settled ==> id < q.next)
    && (forall id: TaskId {:trigger Waiting(q, id)} :: id < q.next ==>
        id in q.runs || id in q.settled || Waiting(q, id))
    && (q.active.Some? ==> q.active.value in q.runs && q.active.value !in q.zombies && !q.disposed)
    && (forall id :: id in q.zombies ==> id in q.runs)
    && (!q.disposed ==> forall id :: id in q.runs ==> q.active == Some(id) || id in q.zombies)
    && q.released == q.settled + q.zombies
  }

  ghost predicate TimersOk(q: Queue) {
    forall id :: id in q.runs ==>
      var r := q.runs[id];
      if q.active == Some(id) then r.timer == (if r.phase.Running? then WatchdogArmed else GraceArmed)
      else r.timer.NoTimer? && (id in q.zombies ==> !r.stage.Dispatching?)
  }

  /** No lost wake-up: work that waits while nothing is active will be pumped, unless the
    * only run left to trigger the pump is a zombie. */
  ghost predicate WakeOk(q: Queue) {
    !q.disposed && q.active.None? && PumpLane(q).Some? ==> q.pumps > 0 || q.zombies != {}
  }

  ghost predicate HistoryOk(q: Queue) {
    && (forall l :: EnqueuedIn(q.log, l) == DispatchedIn(q.log, l) + LaneOf(q, l))
    && PriorityRespected(q.log)
  }

  /** Tasks whose body has started. */
  function Begun(q: Queue): set<TaskId> {
    q.settled + set id | id in q.runs && !q.runs[id].stage.Dispatching?
  }

  /** A task starts at most once, and the history records every escape and settlement. */
  ghost predicate StartsOk(q: Queue) {
    && (forall i, j :: 0 <= i < j < |q.log| && q.log[i].Started? && q.log[j].Started? ==> q.log[i].id != q.log[j].id)
    && (forall i :: 0 <= i < |q.log| && q.log[i].Started? ==>
          q.log[i].id in Begun(q))
    && (forall id :: id in q.zombies ==> Escaped(id) in q.log)
    && (forall id :: id in q.settled ==> Settled(id) in q.log)
  }

  ghost predicate Inv(q: Queue) {
    LanesOk(q) && RunsOk(q) && TimersOk(q) && WakeOk(q) && HistoryOk(q) && StartsOk(q)
  }

  /** How a step changes the lanes: an enqueue appends, a dispatch takes the head, nothing
    * else touches them. */
  function DispatchedLane(q: Queue, a: Action): Option<Lane> {
    if a.Pump? && !q.disposed && q.active.None? then PumpLane(q) else None
  }

  lemma LaneChange(q: Queue, a: Action, l: Lane)
    requires Enabled(q, a)
    ensures LaneOf(Next(q, a), l) ==
              if a == Enqueue(l) then LaneOf(q, l) + [q.next]
              else if DispatchedLane(q, a) == Some(l) then LaneOf(q, l)[1..]
              else LaneOf(q, l)
  {
  }

  lemma RunsChange(q: Queue, a: Action)
    requires Enabled(q, a)
    ensures forall id :: id in Next(q, a).runs || id in Next(q, a).settled ==>
      id in q.runs || id in q.settled || (DispatchedLane(q, a).Some? && id == LaneOf(q, DispatchedLane(q, a).value)[0])
    ensures q.settled <= Next(q, a).settled
    ensures Begun(q) <= Begun(Next(q, a)) || DispatchedLane(q, a).Some?
    ensures Next(q, a).next == (if a.Enqueue? then q.next + 1 else q.next)
  {
  }

  lemma AscendingStep(q: Queue, a: Action, l: Lane)
    requires LanesOk(q) && Enabled(q, a)
    ensures Ascending(LaneOf(Next(q, a), l))
  {
    LaneChange(q, a, l);
    assert Ascending(LaneOf(q, l));
    if a == Enqueue(l) {
      forall i | 0 <= i < |LaneOf(q, l)|
        ensures LaneOf(q, l)[i] < q.next
      {
        var id := LaneOf(q, l)[i];
        assert id in LaneOf(q, l);
      }
    }
  }

  lemma LanesStep(q: Queue, a: Action)
    requires LanesOk(q) && RunsOk(q) && Enabled(q, a)
    ensures LanesOk(Next(q, a))
  {
    hide Next, Enabled, RunsOk;
    var q' := Next(q, a);
    assert LanesAscend(q') by {
      forall l
        ensures Ascending(LaneOf(q', l))
      {
        AscendingStep(q, a, l);
      }
    }
    assert LanesFresh(q') by {
      forall l, id: TaskId | id in LaneOf(q', l)
        ensures id < q'.next && id !in q'.runs && id !in q'.settled
      {
        LaneFresh(q, a, l, id);
      }
    }
    assert LanesDisjoint(q') by {
      forall l, m, id: TaskId | id in LaneOf(q', l) && id in LaneOf(q', m)
        ensures l == m
      {
        LanesApart(q, a, l, m, id);
      }
    }
  }

  lemma LanesApart(q: Queue, a: Action, l: Lane, m: Lane, id: TaskId)
    requires LanesOk(q) && Enabled(q, a) && id in LaneOf(Next(q, a), l) && id in LaneOf(Next(q, a), m)
    ensures l == m
  {
    LaneChange(q, a, l);
    LaneChange(q, a, m);
    assert id in LaneOf(q, l) ==> id < q.next;
    assert id in LaneOf(q, m) ==> id < q.next;
    assert id !in LaneOf(q, l) ==> a == Enqueue(l) && id == q.next;
    assert id !in LaneOf(q, m) ==> a == Enqueue(m) && id == q.next;
  }

  lemma LaneFresh(q: Queue, a: Action, l: Lane, id: TaskId)
    requires LanesOk(q) && RunsOk(q) && Enabled(q, a) && id in LaneOf(Next(q, a), l)
    ensures id < Next(q, a).next && id !in Next(q, a).runs && id !in Next(q, a).settled
  {
    LaneChange(q, a, l);
    RunsChange(q, a);
    if id in LaneOf(q, l) {
      assert id < q.next;
      if DispatchedLane(q, a).Some? {
        var m := DispatchedLane(q, a).value;
        var head := LaneOf(q, m)[0];
        assert head in LaneOf(q, m);
        assert Ascending(LaneOf(q, m));
        assert id == head ==> l == m;
      }
    } else {
      assert id == q.next;
    }
  }

  lemma PlacedStep(q: Queue, a: Action, id: TaskId)
    requires LanesOk(q) && RunsOk(q) && Enabled(q, a) && id < Next(q, a).next
    ensures id in Next(q, a).runs || id in Next(q, a).settled || Waiting(Next(q, a), id)
  {
    var q' := Next(q, a);
    if a.Enqueue? && id == q.next {
      LaneChange(q, a, a.lane);
      assert id in LaneOf(q', a.lane);
    } else if id !in q.runs && id !in q.settled {
      var l := WaitingLane(q, id);
      LaneChange(q, a, l);
      assert id in LaneOf(q', l) || id in q'.runs;
    }
  }

  lemma RunIdsStep(q: Queue, a: Action)
    requires LanesOk(q) && RunsOk(q) && Enabled(q, a)
    ensures var q' := Next(q, a);
      && (forall id :: id in q'.runs ==> id < q'.next && id !in q'.settled)
      && (forall id :: id in q'.settled ==> id < q'.next)
  {
    if DispatchedLane(q, a).Some? {
      var m := DispatchedLane(q, a).value;
      assert LaneOf(q, m)[0] in LaneOf(q, m);
    }
  }

  lemma ActiveStep(q: Queue, a: Action)
    requires LanesOk(q) && RunsOk(q) && TimersOk(q) && Enabled(q, a)
    ensures var q' := Next(q, a);
      q'.active.Some? ==> q'.active.value in q'.runs && q'.active.value !in q'.zombies && !q'.disposed
  {
    if DispatchedLane(q, a).Some? {
      var m := DispatchedLane(q, a).value;
      assert LaneOf(q, m)[0] in LaneOf(q, m);
    }
  }

  lemma TrackedStep(q: Queue, a: Action)
    requires LanesOk(q) && RunsOk(q) && TimersOk(q) && Enabled(q, a)
    ensures var q' := Next(q, a);
      && (forall id :: id in q'.zombies ==> id in q'.runs)
      && (!q'.disposed ==> forall id :: id in q'.runs ==> q'.active == Some(id) || id in q'.zombies)
  {
  }

  lemma ReleasedStep(q: Queue, a: Action)
    requires LanesOk(q) && RunsOk(q) && Enabled(q, a)
    ensures Next(q, a).released == Next(q, a).settled + Next(q, a).zombies
  {
  }

  lemma RunsStep(q: Queue, a: Action)
    requires LanesOk(q) && RunsOk(q) && Enabled(q, a)
    requires TimersOk(q)
    ensures RunsOk(Next(q, a))
  {
    hide LanesOk, TimersOk, Next, Enabled;
    forall id: TaskId | id < Next(q, a).next
      ensures id in Next(q, a).runs || id in Next(q, a).settled || Waiting(Next(q, a), id)
    {
      PlacedStep(q, a, id);
    }
    RunIdsStep(q, a);
    ActiveStep(q, a);
    TrackedStep(q, a);
    ReleasedStep(q, a);
  }

  lemma WakeStep(q: Queue, a: Action)
    requires RunsOk(q) && TimersOk(q) && WakeOk(q) && Enabled(q, a)
    ensures WakeOk(Next(q, a))
  {
  }

  lemma TimersStep(q: Queue, a: Action)
    requires LanesOk(q) && RunsOk(q) && TimersOk(q) && WakeOk(q) && Enabled(q, a)
    ensures TimersOk(Next(q, a)) && WakeOk(Next(q, a))
  {
    hide WakeOk;
    WakeStep(q, a);
    if DispatchedLane(q, a).Some? {
      var m := DispatchedLane(q, a).value;
      assert LaneOf(q, m)[0] in LaneOf(q, m);
    }
  }

  /** What a step appends to the history. */
  function StepEvent(q: Queue, a: Action): seq<Event>
    requires Enabled(q, a)
  {
    match a
    case Enqueue(l) => [Enqueued(q.next, l)]
    case Pump =>
      var d := DispatchedLane(q, a);
      if d.Some? then [Dispatched(LaneOf(q, d.value)[0], d.value)] else []
    case Start(id) => [Started(id)]
    case Settle(id) => [Settled(id)]
    case GraceFires(id) => if !q.disposed && q.runs[id].phase.WatchdogGrace? then [Escaped(id)] else []
    case _ => []
  }

  lemma LogChange(q: Queue, a: Action)
    requires Enabled(q, a)
    ensures Next(q, a).log == q.log + StepEvent(q, a)
    ensures |StepEvent(q, a)| <= 1
  {
  }

  /** The effect of one event on one lane. */
  ghost predicate LaneFollows(evs: seq<Event>, l: Lane, lane: seq<TaskId>, lane': seq<TaskId>) {
    if evs != [] && evs[0].Enqueued? && evs[0].lane == l then lane' == lane + [evs[0].id]
    else if evs != [] && evs[0].Dispatched? && evs[0].lane == l then lane == [evs[0].id] + lane'
    else lane' == lane
  }

  lemma FifoSnoc(log: seq<Event>, e: Event, l: Lane, lane: seq<TaskId>, lane': seq<TaskId>)
    requires LaneFollows([e], l, lane, lane')
    requires EnqueuedIn(log, l) == DispatchedIn(log, l) + lane
    ensures EnqueuedIn(log + [e], l) == DispatchedIn(log + [e], l) + lane'
  {
    LogSnoc(log, e, l);
    var d := DispatchedIn(log, l);
    assert (d + lane) + [e.id] == d + (lane + [e.id]);
    assert d + ([e.id] + lane') == (d + [e.id]) + lane';
  }

  lemma LaneFollowsStep(q: Queue, a: Action, l: Lane)
    requires Enabled(q, a)
    ensures LaneFollows(StepEvent(q, a), l, LaneOf(q, l), LaneOf(Next(q, a), l))
  {
    LaneChange(q, a, l);
    if DispatchedLane(q, a) == Some(l) {
      assert LaneOf(q, l) == [LaneOf(q, l)[0]] + LaneOf(q, l)[1..];
    }
  }

  lemma FifoStep(q: Queue, a: Action)
    requires HistoryOk(q) && Enabled(q, a)
    ensures HistoryOk(Next(q, a))
  {
    LogChange(q, a);
    var evs := StepEvent(q, a);
    forall l
      ensures EnqueuedIn(Next(q, a).log, l) == DispatchedIn(Next(q, a).log, l) + LaneOf(Next(q, a), l)
    {
      LaneFollowsStep(q, a, l);
      if evs == [] {
        assert q.log + evs == q.log;
      } else {
        assert evs == [evs[0]];
        FifoSnoc(q.log, evs[0], l, LaneOf(q, l), LaneOf(Next(q, a), l));
      }
    }
    if StepEvent(q, a) == [] {
      assert Next(q, a).log == q.log;
    } else {
      forall h | StepEvent(q, a)[0].Dispatched? && Higher(h, StepEvent(q, a)[0].lane)
        ensures DispatchedIn(q.log, h) == EnqueuedIn(q.log, h)
      {
        assert LaneOf(q, h) == [];
      }
      PrioritySnoc(q.log, StepEvent(q, a)[0]);
    }
  }

  lemma StartsStep(q: Queue, a: Action)
    requires RunsOk(q) && LanesOk(q) && StartsOk(q) && Enabled(q, a)
    ensures StartsOk(Next(q, a))
  {
    LogChange(q, a);
    BegunChange(q, a);
    RecordStep(q, a);
    var q' := Next(q, a);
    forall i | 0 <= i < |q'.log| && q'.log[i].Started?
      ensures q'.log[i].id in Begun(q')
    {
      assert i < |q.log| ==> q'.log[i] == q.log[i];
    }
  }

  lemma BegunChange(q: Queue, a: Action)
    requires RunsOk(q) && LanesOk(q) && Enabled(q, a)
    ensures Begun(q) <= Begun(Next(q, a))
    ensures a.Start? ==> a.id !in Begun(q) && a.id in Begun(Next(q, a))
  {
    RunsChange(q, a);
    if DispatchedLane(q, a).Some? {
      var m := DispatchedLane(q, a).value;
      assert LaneOf(q, m)[0] in LaneOf(q, m);
    }
  }

  lemma RecordStep(q: Queue, a: Action)
    requires StartsOk(q) && Enabled(q, a)
    ensures forall id :: id in Next(q, a).zombies ==> Escaped(id) in Next(q, a).log
    ensures forall id :: id in Next(q, a).settled ==> Settled(id) in Next(q, a).log
  {
    LogChange(q, a);
    var evs := StepEvent(q, a);
    assert forall e :: e in q.log || e in evs ==> e in q.log + evs;
    forall id | id in Next(q, a).settled
      ensures Settled(id) in q.log + evs
    {
      assert id in q.settled || evs == [Settled(id)];
    }
    forall id | id in Next(q, a).zombies
      ensures Escaped(id) in q.log + evs
    {
      assert id in q.zombies || evs == [Escaped(id)];
    }
  }

  lemma InvStep(q: Queue, a: Action)
    requires Inv(q) && Enabled(q, a)
    ensures Inv(Next(q, a))
  {
    LanesStep(q, a);
    RunsStep(q, a);
    TimersStep(q, a);
    FifoStep(q, a);
    StartsStep(q, a);
  }

  /** The invariant holds in every reachable state. */
  lemma {:induction false} InvRun(q: Queue, acts: seq<Action>)
    requires Inv(q) && Exec(q, acts).Some?
    ensures Inv(Exec(q, acts).value)
    decreases |acts|
  {
    if acts != [] {
      InvStep(q, acts[0]);
      InvRun(Next(q, acts[0]), acts[1..]);
    }
  }

  lemma EmptyInv(disposed: bool)
    ensures Inv(Empty(disposed))
  {
    assert forall l :: LaneOf(Empty(disposed), l) == [];
  }

  // ---------------------------------------------------------------- every task is in one place

  datatype Place = Waits(lane: Lane) | IsActive | IsZombie | IsOrphan | IsSettled

  predicate At(q: Queue, id: TaskId, p: Place) {
    match p
    case Waits(l) => id in LaneOf(q, l)
    case IsActive => q.active == Some(id)
    case IsZombie => id in q.zombies
    case IsOrphan => id in q.runs && q.active != Some(id) && id !in q.zombies
    case IsSettled => id in q.settled
  }

  /** In every reachable state an enqueued task is in exactly one place; a task is cut off
    * from the queue (an orphan: still running, tracked by nothing) only after `dispose`. */
  lemma EveryTaskIsInOnePlace(acts: seq<Action>, id: TaskId) returns (p: Place)
    requires Exec(Empty(false), acts).Some?
    requires id < Exec(Empty(false), acts).value.next
    ensures At(Exec(Empty(false), acts).value, id, p)
    ensures forall p' :: At(Exec(Empty(false), acts).value, id, p') ==> p' == p
    ensures p.IsOrphan? ==> Exec(Empty(false), acts).value.disposed
  {
    EmptyInv(false);
    InvRun(Empty(false), acts);
    var q := Exec(Empty(false), acts).value;
    assert Waiting(q, id) || id in q.runs || id in q.settled;
    p := if Waiting(q, id) then Waits(WaitingLane(q, id))
         else if id in q.settled then IsSettled
         else if q.active == Some(id) then IsActive
         else if id in q.zombies then IsZombie
         else IsOrphan;
    forall l | id in LaneOf(q, l)
      ensures id !in q.runs && id !in q.settled && Waiting(q, id)
    {
    }
  }

  /** Over every run: each lane is served in the order of its enqueues, with the lane holding
    * exactly what was not dispatched yet; no dispatch overtakes a higher lane; no task
    * starts twice; and two bodies run at the same time only if one of them escaped. */
  lemma RunsAreOrderedAndExclusive(acts: seq<Action>)
    requires Exec(Empty(false), acts).Some?
    ensures var q := Exec(Empty(false), acts).value;
      && (forall l :: EnqueuedIn(q.log, l) == DispatchedIn(q.log, l) + LaneOf(q, l))
      && PriorityRespected(q.log)
      && (forall i, j :: 0 <= i < j < |q.log| && q.log[i].Started? && q.log[j].Started? ==> q.log[i].id != q.log[j].id)
      && (!q.disposed ==> forall id, id' :: id in q.runs && id' in q.runs && id != id' ==>
            Escaped(id) in q.log || Escaped(id') in q.log)
  {
    EmptyInv(false);
    InvRun(Empty(false), acts);
  }

  // ---------------------------------------------------------------- the actions of a run

  /** The lanes of the tasks enqueued in a run, by task. */
  function LanesOf(acts: seq<Action>): seq<Lane> {
    if acts == [] then [] else LanesOf(Front(acts)) + (if Last(acts).Enqueue? then [Last(acts).lane] else [])
  }

  /** Pumps queued less pumps performed: every enqueue and every settlement queues one. */
  function PumpsDue(acts: seq<Action>): int {
    if acts == [] then 0
    else
      var due := match Last(acts) { case Enqueue(_) => 1 case Settle(_) => 1 case Pump => -1 case _ => 0 };
      PumpsDue(Front(acts)) + due
  }

  /** The task an action is about. */
  function TaskOf(a: Action): Option<TaskId> {
    match a
    case Start(id) => Some(id)
    case Finish(id) => Some(id)
    case Settle(id) => Some(id)
    case WatchdogFires(id) => Some(id)
    case GraceFires(id) => Some(id)
    case _ => None
  }

  /** A tracked task is where the actions about it have brought it. */
  ghost predicate RunFollows(r: Run, done: seq<Action>, id: TaskId) {
    && (r.stage.Dispatching? <==> Start(id) !in done)
    && (r.stage.Finished? <==> Finish(id) in done)
    && (r.phase.WatchdogGrace? <==> WatchdogFires(id) in done)
  }

  ghost predicate TasksFollow(q: Queue, done: seq<Action>) {
    && (forall id :: id in q.runs ==> RunFollows(q.runs[id], done, id))
    && (forall id: TaskId :: id in q.settled <==> Settle(id) in done)
    && (forall id: TaskId :: id in q.zombies <==> GraceFires(id) in done && Settle(id) !in done)
    && (forall a :: a in done && TaskOf(a).Some? ==> TaskOf(a).value in q.runs || TaskOf(a).value in q.settled)
  }

  ghost predicate CountsFollow(q: Queue, done: seq<Action>) {
    && (q.disposed <==> Dispose in done)
    && q.pumps == PumpsDue(done)
    && q.next == |LanesOf(done)|
    && (forall id: TaskId :: id < q.next ==> id in EnqueuedIn(q.log, LanesOf(done)[id]))
  }

  lemma CountsFollowStep(q: Queue, done: seq<Action>, a: Action)
    requires CountsFollow(q, done) && Enabled(q, a)
    ensures CountsFollow(Next(q, a), done + [a])
  {
    var q' := Next(q, a);
    assert Front(done + [a]) == done;
    LogChange(q, a);
    var evs := StepEvent(q, a);
    if evs == [] {
      assert q'.log == q.log;
    } else {
      assert evs == [evs[0]];
      forall l
        ensures EnqueuedIn(q'.log, l) == EnqueuedIn(q.log, l) +
          (if evs[0].Enqueued? && evs[0].lane == l then [evs[0].id] else [])
      {
        LogSnoc(q.log, evs[0], l);
      }
    }
  }

  /** Only the active task of a scheduler that is not disposed has a timer. */
  lemma TimersAreLive(q: Queue, a: Action)
    requires Inv(q) && Enabled(q, a) && (a.WatchdogFires? || a.GraceFires?)
    ensures !q.disposed && q.active == Some(a.id)
    ensures q.runs[a.id].phase == (if a.GraceFires? then WatchdogGrace else Running)
  {
  }

  lemma FreshAtDispatch(q: Queue, done: seq<Action>, a: Action)
    requires Inv(q) && TasksFollow(q, done) && Enabled(q, a) && DispatchedLane(q, a).Some?
    ensures var id := LaneOf(q, DispatchedLane(q, a).value)[0];
      && id !in q.runs && id !in q.settled && id in Next(q, a).runs
      && forall b :: b in done ==> TaskOf(b) != Some(id)
  {
    var m := DispatchedLane(q, a).value;
    assert LaneOf(q, m)[0] in LaneOf(q, m);
  }

  lemma RunFollowsStep(q: Queue, done: seq<Action>, a: Action, id: TaskId)
    requires Inv(q) && TasksFollow(q, done) && Enabled(q, a) && id in Next(q, a).runs
    ensures RunFollows(Next(q, a).runs[id], done + [a], id)
  {
    hide Inv;
    if DispatchedLane(q, a).Some? {
      FreshAtDispatch(q, done, a);
    }
    if a.WatchdogFires? || a.GraceFires? {
      TimersAreLive(q, a);
    }
  }

  lemma PlacesFollowStep(q: Queue, done: seq<Action>, a: Action)
    requires Inv(q) && TasksFollow(q, done) && Enabled(q, a)
    ensures var q' := Next(q, a); var done' := done + [a];
      && (forall id: TaskId :: id in q'.settled <==> Settle(id) in done')
      && (forall id: TaskId :: id in q'.zombies <==> GraceFires(id) in done' && Settle(id) !in done')
      && (forall b :: b in done' && TaskOf(b).Some? ==> TaskOf(b).value in q'.runs || TaskOf(b).value in q'.settled)
  {
    hide LanesOk, WakeOk, HistoryOk, StartsOk;
    if a.WatchdogFires? || a.GraceFires? {
      TimersAreLive(q, a);
    }
  }

  lemma TasksFollowStep(q: Queue, done: seq<Action>, a: Action)
    requires Inv(q) && TasksFollow(q, done) && Enabled(q, a)
    ensures TasksFollow(Next(q, a), done + [a])
  {
    forall id | id in Next(q, a).runs
      ensures RunFollows(Next(q, a).runs[id], done + [a], id)
    {
      RunFollowsStep(q, done, a, id);
    }
    PlacesFollowStep(q, done, a);
  }

  lemma {:induction false} FollowRun(q: Queue, done: seq<Action>, acts: seq<Action>)
    requires Inv(q) && TasksFollow(q, done) && CountsFollow(q, done) && Exec(q, acts).Some?
    ensures var q' := Exec(q, acts).value; Inv(q') && TasksFollow(q', done + acts) && CountsFollow(q', done + acts)
    decreases |acts|
  {
    hide Inv, TasksFollow, CountsFollow, Next, Enabled;
    if acts == [] {
      assert done + acts == done;
    } else {
      InvStep(q, acts[0]);
      TasksFollowStep(q, done, acts[0]);
      CountsFollowStep(q, done, acts[0]);
      FollowRun(Next(q, acts[0]), done + [acts[0]], acts[1..]);
      assert done + [acts[0]] + acts[1..] == done + acts;
    }
  }

  lemma NothingFollows()
    ensures TasksFollow(Empty(false), []) && CountsFollow(Empty(false), [])
  {
  }

  /** Where a run has brought the queue, told by its actions alone: tasks are numbered in the order of
    * their enqueues and each was put into its own lane; a task has settled iff its settling callback
    * ran, is a zombie iff its grace timer fired and it has not settled, and its caller's promise is
    * settled iff one of the two happened; a tracked task has started, is in grace, or has finished iff
    * that happened to it; and the pumps on their way are one for each enqueue and settlement, less
    * those performed. */
  lemma QueueFollowsActions(acts: seq<Action>)
    requires Exec(Empty(false), acts).Some?
    ensures
      var q := Exec(Empty(false), acts).value;
      && q.next == |LanesOf(acts)|
      && (forall id: TaskId :: id < q.next ==> id in EnqueuedIn(q.log, LanesOf(acts)[id]))
      && (forall id: TaskId :: id in q.settled <==> Settle(id) in acts)
      && (forall id: TaskId :: id in q.zombies <==> GraceFires(id) in acts && Settle(id) !in acts)
      && (forall id: TaskId :: id in q.released <==> GraceFires(id) in acts || Settle(id) in acts)
      && (forall id :: id in q.runs ==> RunFollows(q.runs[id], acts, id))
      && (q.disposed <==> Dispose in acts)
      && q.pumps == PumpsDue(acts)
  {
    EmptyInv(false);
    NothingFollows();
    FollowRun(Empty(false), [], acts);
    assert [] + acts == acts;
  }

  // ---------------------------------------------------------------- wake-ups

  /** Work waits, nothing is active, and no pump is on its way. */
  predicate Stalled(q: Queue) {
    !q.disposed && q.active.None? && PumpLane(q).Some? && q.pumps == 0
  }

  /** A reachable queue stalls only behind a live zombie, whose settling queues a pump, as
    * does any new enqueue. */
  lemma StallsOnlyBehindZombies(acts: seq<Action>)
    requires Exec(Empty(false), acts).Some?
    ensures var q := Exec(Empty(false), acts).value;
      Stalled(q) ==>
        && q.zombies != {}
        && (forall l :: !Stalled(Next(q, Enqueue(l))))
        && (forall z :: z in q.zombies && Enabled(q, Settle(z)) ==> !Stalled(Next(q, Settle(z))))
  {
    EmptyInv(false);
    InvRun(Empty(false), acts);
  }

  /** The one step that can stall a queue is an escape, because the escape frees the run slot
    * without queueing a pump: it stalls the queue exactly when other work is already waiting
    * and no pump microtask happens to be left over. */
  lemma EscapeStallsExactlyWhen(q: Queue, a: Action)
    requires Inv(q) && Enabled(q, a) && !Stalled(q)
    ensures Stalled(Next(q, a)) <==>
      && a.GraceFires? && !q.disposed
      && q.active == Some(a.id) && PumpLane(q).Some? && q.pumps == 0
  {
  }

  /** With nothing active and a pump queued, the pump dispatches the front of the dispatch order. */
  function DispatchOrder(q: Queue): seq<TaskId> {
    q.pendingUser + q.pendingAgent + q.pendingBackground
  }

  /** The queue position that `enqueue` reports, and how many tasks it puts ahead. */
  function PositionOf(q: Queue, l: Lane): nat {
    (if q.active.Some? then 1 else 0) +
    match l
    case User => |q.pendingUser|
    case Agent => |q.pendingUser| + |q.pendingAgent|
    case Background => |q.pendingUser| + |q.pendingAgent| + |q.pendingBackground|
  }

  lemma DispatchTakesFront(q: Queue, a: Action)
    requires Enabled(q, a) && DispatchedLane(q, a).Some?
    ensures DispatchOrder(q) != [] && DispatchOrder(Next(q, a)) == DispatchOrder(q)[1..]
    ensures Next(q, a).active == Some(DispatchOrder(q)[0])
  {
    match DispatchedLane(q, a).value
    case User =>
      assert DispatchOrder(q)[1..] == q.pendingUser[1..] + q.pendingAgent + q.pendingBackground;
    case Agent =>
      assert DispatchOrder(q) == q.pendingAgent + q.pendingBackground;
    case Background =>
      assert DispatchOrder(q) == q.pendingBackground;
  }

  lemma InsertBetween(a: seq<TaskId>, b: seq<TaskId>, id: TaskId, before: seq<TaskId>, after: seq<TaskId>)
    requires before == a + b && after == a + [id] + b
    ensures after == before[..|a|] + [id] + before[|a|..]
  {
  }

  lemma EnqueueInsertsAt(q: Queue, l: Lane)
    ensures
      var ahead := PositionOf(q, l) - (if q.active.Some? then 1 else 0);
      DispatchOrder(Next(q, Enqueue(l))) == DispatchOrder(q)[..ahead] + [q.next] + DispatchOrder(q)[ahead..]
  {
    var u, g, b := q.pendingUser, q.pendingAgent, q.pendingBackground;
    match l
    case User => InsertBetween(u, g + b, q.next, u + g + b, (u + [q.next]) + g + b);
    case Agent => InsertBetween(u + g, b, q.next, u + g + b, u + (g + [q.next]) + b);
    case Background => InsertBetween(u + g + b, [], q.next, u + g + b, u + g + (b + [q.next]));
  }

  /** The position `enqueue` reports is the new task's place in the order in which pumps dispatch. */
  lemma PositionIsPlaceInDispatchOrder(q: Queue, l: Lane)
    ensures
      var ahead := PositionOf(q, l) - (if q.active.Some? then 1 else 0);
      DispatchOrder(Next(q, Enqueue(l))) == DispatchOrder(q)[..ahead] + [q.next] + DispatchOrder(q)[ahead..]
    ensures forall a :: Enabled(q, a) && DispatchedLane(q, a).Some? ==>
      && DispatchOrder(q) != [] && DispatchOrder(Next(q, a)) == DispatchOrder(q)[1..]
      && Next(q, a).active == Some(DispatchOrder(q)[0])
  {
    hide Next, DispatchOrder;
    EnqueueInsertsAt(q, l);
    forall a | Enabled(q, a) && DispatchedLane(q, a).Some?
      ensures DispatchOrder(q) != [] && DispatchOrder(Next(q, a)) == DispatchOrder(q)[1..]
      ensures Next(q, a).active == Some(DispatchOrder(q)[0])
    {
      DispatchTakesFront(q, a);
    }
  }

  // ---------------------------------------------------------------- drain

  /** What `drain` waits for: the true settlement of running and escaped tasks, but only the
    * caller-facing promise of pending ones. */
  datatype Await = Settlement(id: TaskId) | CallerPromise(id: TaskId)

  function DrainSnapshot(q: Queue): set<Await> {
    (if q.active.Some? then {Settlement(q.active.value)} else {}) +
    (set id | id in q.zombies :: Settlement(id)) +
    (set id | id in q.pendingUser :: CallerPromise(id)) +
    (set id | id in q.pendingAgent :: CallerPromise(id)) +
    (set id | id in q.pendingBackground :: CallerPromise(id))
  }

  predicate Done(q: Queue, w: Await) {
    match w
    case Settlement(id) => id in q.settled
    case CallerPromise(id) => id in q.released
  }

  predicate DrainResolved(call: Queue, now: Queue) {
    forall w | w in DrainSnapshot(call) :: Done(now, w)
  }

  /** A drain called in a reachable state and looked at any number of steps later has resolved
    * exactly when every task that was active or a zombie at the call has truly settled and
    * every task that was pending has settled or escaped. */
  lemma DrainMeaning(call: Queue, acts: seq<Action>)
    requires Inv(call) && Exec(call, acts).Some?
    ensures
      var now := Exec(call, acts).value;
      DrainResolved(call, now) <==>
        && (forall id: TaskId :: call.active == Some(id) || id in call.zombies ==> id in now.settled)
        && (forall id: TaskId :: Waiting(call, id) ==> id in now.settled || id in now.zombies)
  {
    InvRun(call, acts);
    var now := Exec(call, acts).value;
    assert now.released == now.settled + now.zombies;
    assert forall id: TaskId :: call.active == Some(id) || id in call.zombies <==>
        Settlement(id) in DrainSnapshot(call);
    assert forall id: TaskId :: Waiting(call, id) <==> CallerPromise(id) in DrainSnapshot(call);
  }

  /** The documented promise for one continuation: if the drain has resolved by its end, every task
    * that was known at the call has settled. */
  ghost predicate DrainKeepsPromise(call: Queue, acts: seq<Action>) {
    Exec(call, acts).Some? && DrainResolved(call, Exec(call, acts).value) ==>
      forall id: TaskId {:trigger id in Exec(call, acts).value.settled} ::
        call.active == Some(id) || id in call.zombies || Waiting(call, id) ==> id in Exec(call, acts).value.settled
  }

  ghost predicate NothingWaits(q: Queue) {
    forall id: TaskId :: !Waiting(q, id)
  }

  /** The promise can be relied on, whatever happens after the call, exactly when nothing is waiting
    * at the call, or the scheduler is disposed. */
  lemma DrainSettlesAllExactlyWhen(call: Queue)
    requires Inv(call)
    ensures (forall acts :: DrainKeepsPromise(call, acts)) <==> (NothingWaits(call) || call.disposed)
  {
    if NothingWaits(call) || call.disposed {
      forall acts
        ensures DrainKeepsPromise(call, acts)
      {
        if Exec(call, acts).Some? {
          if NothingWaits(call) {
            KnownTasksSettle(call, acts);
          } else {
            DisposedNeverResolves(call, acts);
          }
        }
      }
    } else {
      var acts := ResolvedTooEarly(call);
      assert !DrainKeepsPromise(call, acts);
    }
  }

  lemma KnownTasksSettle(call: Queue, acts: seq<Action>)
    requires Inv(call) && NothingWaits(call) && Exec(call, acts).Some?
    ensures DrainKeepsPromise(call, acts)
  {
    DrainMeaning(call, acts);
  }

  /** A disposed queue starts nothing, so a drain that awaits a pending task is never over. */
  lemma DisposedNeverResolves(call: Queue, acts: seq<Action>)
    requires Inv(call) && call.disposed && !NothingWaits(call) && Exec(call, acts).Some?
    ensures !DrainResolved(call, Exec(call, acts).value)
  {
    var id: TaskId :| Waiting(call, id);
    DisposedKeepsWaiting(call, acts, id);
    InvRun(call, acts);
    WaitingIsNotDone(Exec(call, acts).value, id);
    DrainMeaning(call, acts);
  }

  lemma WaitingIsNotDone(q: Queue, id: TaskId)
    requires Inv(q) && Waiting(q, id)
    ensures id !in q.settled && id !in q.zombies
  {
    assert id in LaneOf(q, WaitingLane(q, id));
  }

  lemma {:induction false} DisposedKeepsWaiting(q: Queue, acts: seq<Action>, id: TaskId)
    requires q.disposed && Waiting(q, id) && Exec(q, acts).Some?
    ensures Waiting(Exec(q, acts).value, id)
    decreases |acts|
  {
    if acts != [] {
      LaneChange(q, acts[0], WaitingLane(q, id));
      assert id in LaneOf(Next(q, acts[0]), WaitingLane(q, id));
      DisposedKeepsWaiting(Next(q, acts[0]), acts[1..], id);
    }
  }

  lemma {:induction false} ExecConcat(q: Queue, a: seq<Action>, b: seq<Action>)
    requires Exec(q, a).Some?
    ensures Exec(q, a + b) == Exec(Exec(q, a).value, b)
    decreases |a|
  {
    if a == [] {
      assert a + b == b;
    } else {
      assert (a + b)[0] == a[0] && (a + b)[1..] == a[1..] + b;
      ExecConcat(Next(q, a[0]), a[1..], b);
    }
  }

  lemma ExecOne(q: Queue, a: Action)
    requires Enabled(q, a)
    ensures Exec(q, [a]) == Some(Next(q, a))
  {
    assert Exec(q, [a]) == Exec(Next(q, a), []);
  }

  /** The next step towards the settling of run `id`. */
  function Onward(q: Queue, id: TaskId): Action
    requires id in q.runs
  {
    match q.runs[id].stage
    case Dispatching => Start(id)
    case Executing => Finish(id)
    case Finished => Settle(id)
  }

  function StepsLeft(s: Stage): nat {
    match s case Dispatching => 3 case Executing => 2 case Finished => 1
  }

  /** `later` has the lanes of `q`, has lost nothing that had settled, and is not disposed. */
  ghost predicate SameLanes(q: Queue, later: Queue) {
    && later.pendingUser == q.pendingUser && later.pendingAgent == q.pendingAgent
    && later.pendingBackground == q.pendingBackground
    && q.settled <= later.settled && !later.disposed
  }

  lemma OnwardTracks(q: Queue, id: TaskId)
    requires id in q.runs
    ensures var later := Next(q, Onward(q, id));
      && (!q.disposed ==> SameLanes(q, later))
      && (if q.runs[id].stage.Finished? then later.runs.Keys == q.runs.Keys - {id} && id in later.settled
          else later.runs.Keys == q.runs.Keys && StepsLeft(later.runs[id].stage) < StepsLeft(q.runs[id].stage))
  {
  }

  /** One run settles and nothing else changes place. */
  lemma {:induction false} SettleOne(q: Queue, id: TaskId) returns (acts: seq<Action>)
    requires Inv(q) && id in q.runs && !q.disposed
    ensures Exec(q, acts).Some?
    ensures var later := Exec(q, acts).value;
      Inv(later) && SameLanes(q, later) && later.runs.Keys == q.runs.Keys - {id} && id in later.settled
    decreases StepsLeft(q.runs[id].stage)
  {
    hide Inv, Exec;
    var a := Onward(q, id);
    InvStep(q, a);
    ExecOne(q, a);
    OnwardTracks(q, id);
    if q.runs[id].stage.Finished? {
      acts := [a];
    } else {
      var rest := SettleOne(Next(q, a), id);
      ExecConcat(q, [a], rest);
      acts := [a] + rest;
    }
  }

  /** All runs settle. */
  lemma {:induction false} SettleRuns(q: Queue) returns (acts: seq<Action>)
    requires Inv(q) && !q.disposed
    ensures Exec(q, acts).Some?
    ensures var later := Exec(q, acts).value;
      Inv(later) && SameLanes(q, later) && later.runs.Keys == {} && q.runs.Keys <= later.settled
    decreases |q.runs.Keys|
  {
    if q.runs.Keys == {} {
      acts := [];
    } else {
      var id :| id in q.runs.Keys;
      var first := SettleOne(q, id);
      var mid := Exec(q, first).value;
      assert mid.runs.Keys < q.runs.Keys;
      Fewer(mid.runs.Keys, q.runs.Keys);
      var rest := SettleRuns(mid);
      ExecConcat(q, first, rest);
      acts := first + rest;
    }
  }

  lemma Fewer<T>(a: set<T>, b: set<T>)
    requires a < b
    ensures |a| < |b|
  {
    assert b == a + (b - a);
  }

  /** With nothing running, the front of the dispatch order can be dispatched and started. */
  lemma StartFront(q: Queue) returns (acts: seq<Action>)
    requires Inv(q) && !q.disposed && q.runs.Keys == {} && DispatchOrder(q) != []
    ensures Exec(q, acts).Some?
    ensures var later := Exec(q, acts).value;
      && Inv(later) && !later.disposed && q.settled <= later.settled
      && DispatchOrder(later) == DispatchOrder(q)[1..]
      && later.active == Some(DispatchOrder(q)[0]) && later.runs.Keys == {DispatchOrder(q)[0]}
      && later.runs[DispatchOrder(q)[0]] == Run(Running, WatchdogArmed, Executing)
  {
    var id := DispatchOrder(q)[0];
    NothingTracked(q);
    DispatchTakesFront(q, Pump);
    InvStep(q, Pump);
    var mid := Next(q, Pump);
    InvStep(mid, Start(id));
    ExecOne(q, Pump);
    ExecOne(mid, Start(id));
    ExecConcat(q, [Pump], [Start(id)]);
    acts := [Pump] + [Start(id)];
  }

  /** With nothing running and something waiting, a pump is on its way. */
  lemma NothingTracked(q: Queue)
    requires Inv(q) && !q.disposed && q.runs.Keys == {} && DispatchOrder(q) != []
    ensures Enabled(q, Pump) && DispatchedLane(q, Pump).Some?
  {
    assert q.active.None? && q.zombies == {};
  }

  /** While a task runs, queued pumps do nothing. */
  lemma {:induction false} PumpOut(q: Queue) returns (acts: seq<Action>)
    requires q.active.Some?
    ensures Exec(q, acts) == Some(q.(pumps := 0))
    decreases q.pumps
  {
    if q.pumps == 0 {
      acts := [];
    } else {
      ExecOne(q, Pump);
      var rest := PumpOut(Next(q, Pump));
      ExecConcat(q, [Pump], rest);
      acts := [Pump] + rest;
    }
  }

  /** The running task escapes, its timers firing when no microtask is left. */
  lemma EscapeAtRest(q: Queue, id: TaskId) returns (acts: seq<Action>)
    requires Inv(q) && !q.disposed && q.active == Some(id) && q.runs[id] == Run(Running, WatchdogArmed, Executing)
    ensures Exec(q, acts).Some?
    ensures var later := Exec(q, acts).value;
      SameLanes(q, later) && id in later.zombies && later.settled == q.settled
  {
    hide Inv, Next, Enabled;
    var pump := PumpOut(q);
    InvRun(q, pump);
    Escape(q.(pumps := 0), id);
    ExecConcat(q, pump, [WatchdogFires(id), GraceFires(id)]);
    acts := pump + [WatchdogFires(id), GraceFires(id)];
  }

  lemma Escape(q: Queue, id: TaskId)
    requires Inv(q) && !q.disposed && q.active == Some(id) && q.runs[id] == Run(Running, WatchdogArmed, Executing)
    ensures Exec(q, [WatchdogFires(id), GraceFires(id)]).Some?
    ensures var later := Exec(q, [WatchdogFires(id), GraceFires(id)]).value;
      SameLanes(q, later) && id in later.zombies && later.settled == q.settled
  {
    var mid := Next(q, WatchdogFires(id));
    ExecOne(q, WatchdogFires(id));
    ExecOne(mid, GraceFires(id));
    ExecConcat(q, [WatchdogFires(id)], [GraceFires(id)]);
    assert [WatchdogFires(id)] + [GraceFires(id)] == [WatchdogFires(id), GraceFires(id)];
  }

  /** All that waits is run and settles, except the last, which escapes. */
  lemma {:induction false} EscapeLast(q: Queue) returns (acts: seq<Action>)
    requires Inv(q) && !q.disposed && q.runs.Keys == {} && DispatchOrder(q) != []
    ensures Exec(q, acts).Some?
    ensures var later := Exec(q, acts).value;
      && q.settled <= later.settled
      && (forall id :: id in DispatchOrder(q) ==> id in later.settled || id in later.zombies)
      && Last(DispatchOrder(q)) in later.zombies
    decreases |DispatchOrder(q)|
  {
    hide Inv, Exec, Enabled, Next;
    var id := DispatchOrder(q)[0];
    var start := StartFront(q);
    var mid := Exec(q, start).value;
    if |DispatchOrder(q)| == 1 {
      var escape := EscapeAtRest(mid, id);
      ExecConcat(q, start, escape);
      acts := start + escape;
    } else {
      var settle := SettleOne(mid, id);
      var next := Exec(mid, settle).value;
      assert DispatchOrder(next) == DispatchOrder(q)[1..];
      var rest := EscapeLast(next);
      ExecConcat(q, start, settle);
      ExecConcat(q, start + settle, rest);
      acts := start + settle + rest;
      assert DispatchOrder(q) == [id] + DispatchOrder(next);
    }
  }

  lemma WaitingIsOrdered(q: Queue, id: TaskId)
    ensures Waiting(q, id) <==> id in DispatchOrder(q)
  {
  }

  /** A continuation after which the drain has resolved and a task known at the call still runs. */
  lemma ResolvedTooEarly(call: Queue) returns (acts: seq<Action>)
    requires Inv(call) && !call.disposed && !NothingWaits(call)
    ensures Exec(call, acts).Some? && DrainResolved(call, Exec(call, acts).value)
    ensures !DrainKeepsPromise(call, acts)
  {
    var settle := SettleRuns(call);
    var mid := Exec(call, settle).value;
    forall id: TaskId
      ensures Waiting(call, id) <==> id in DispatchOrder(mid)
    {
      WaitingIsOrdered(call, id);
    }
    var rest := EscapeLast(mid);
    ExecConcat(call, settle, rest);
    acts := settle + rest;
    var now := Exec(call, acts).value;
    InvRun(call, acts);
    DrainMeaning(call, acts);
    var last := Last(DispatchOrder(mid));
    assert Waiting(call, last) && last in now.zombies && last !in now.settled;
  }

  // ---------------------------------------------------------------- witnesses

  /** One task escapes its wedged run while another waits: the waiting task is stuck, its
    * caller's promise unsettled, with no pump queued. */
  function StallWitness(): seq<Action> {
    [Enqueue(User), Enqueue(User), Pump, Pump, Start(0), WatchdogFires(0), GraceFires(0)]
  }

  lemma StallIsReachable()
    ensures Exec(Empty(false), StallWitness()).Some?
    ensures var q := Exec(Empty(false), StallWitness()).value;
      Stalled(q) && q.pendingUser == [1] && 1 !in q.released && q.zombies == {0}
  {
    var q := Next(Next(Next(Next(Empty(false), Enqueue(User)), Enqueue(User)), Pump), Pump);
    assert Exec(Empty(false), StallWitness()) == Exec(q, [Start(0), WatchdogFires(0), GraceFires(0)]);
  }

  /** The task pending at the call escapes, the drain resolves, and the task still runs. */
  function DrainWitness(): seq<Action> {
    [Pump, Start(0), WatchdogFires(0), GraceFires(0)]
  }

  lemma DrainLeavesATurnRunning()
    ensures
      var call := Next(Empty(false), Enqueue(User));
      && Inv(call) && Exec(call, DrainWitness()).Some?
      && var now := Exec(call, DrainWitness()).value;
         DrainResolved(call, now) && Waiting(call, 0) && 0 !in now.settled && now.runs[0].stage.Executing?
  {
    hide Inv, DrainSnapshot;
    EmptyInv(false);
    InvStep(Empty(false), Enqueue(User));
    var call := Next(Empty(false), Enqueue(User));
    var q1 := Next(call, Pump);
    var q2 := Next(q1, Start(0));
    var q3 := Next(q2, WatchdogFires(0));
    var q4 := Next(q3, GraceFires(0));
    ExecOne(call, Pump);
    ExecOne(q1, Start(0));
    ExecOne(q2, WatchdogFires(0));
    ExecOne(q3, GraceFires(0));
    ExecConcat(call, [Pump], [Start(0)]);
    ExecConcat(call, [Pump] + [Start(0)], [WatchdogFires(0)]);
    ExecConcat(call, [Pump] + [Start(0)] + [WatchdogFires(0)], [GraceFires(0)]);
    assert DrainWitness() == [Pump] + [Start(0)] + [WatchdogFires(0)] + [GraceFires(0)];
    DrainMeaning(call, DrainWitness());
  }

  // ---------------------------------------------------------------- the scheduler object

  /** The scheduler: one queue per agent, one disposed flag. Each method performs one action on
    * one agent's queue and leaves every other agent's queue alone. */
  class Scheduler {
    var queues: map<string, Queue>
    var disposed: bool

    ghost predicate Valid()
      reads this
    {
      forall a :: a in queues ==> queues[a].disposed == disposed
    }

    function QueueFor(agent: string): Queue
      reads this
    {
      if agent in queues then queues[agent] else Empty(disposed)
    }

    constructor ()
      ensures Valid() && queues == map[] && !disposed
    {
      queues, disposed := map[], false;
    }

    method EnqueueTask(agent: string, lane: Lane) returns (id: TaskId, position: nat)
      requires Valid()
      modifies this
      ensures Valid() && disposed == old(disposed)
      ensures id == old(QueueFor(agent)).next && position == PositionOf(old(QueueFor(agent)), lane)
      ensures queues == old(queues)[agent := Next(old(QueueFor(agent)), Enqueue(lane))]
    {
      var q := QueueFor(agent);
      id := q.next;
      match lane {
        case User => q := q.(pendingUser := q.pendingUser + [id]);
        case Agent => q := q.(pendingAgent := q.pendingAgent + [id]);
        case Background => q := q.(pendingBackground := q.pendingBackground + [id]);
      }
      var ahead := |q.pendingUser| + |q.pendingAgent| + |q.pendingBackground| - 1;
      if lane.User? {
        ahead := |q.pendingUser| - 1;
      } else if lane.Agent? {
        ahead := |q.pendingUser| + |q.pendingAgent| - 1;
      }
      position := (if q.active.Some? then 1 else 0) + ahead;
      queues := queues[agent := q.(next := id + 1, pumps := q.pumps + 1, log := q.log + [Enqueued(id, lane)])];
    }

    method PumpTask(agent: string)
      requires Valid() && Enabled(QueueFor(agent), Pump)
      modifies this
      ensures Valid() && disposed == old(disposed)
      ensures queues == old(queues)[agent := Next(old(QueueFor(agent)), Pump)]
    {
      var q := QueueFor(agent);
      q := q.(pumps := q.pumps - 1);
      if !disposed && q.active.None? {
        var next: Option<TaskId> := None;
        var lane := User;
        if |q.pendingUser| > 0 {
          next, q := Some(q.pendingUser[0]), q.(pendingUser := q.pendingUser[1..]);
        } else if |q.pendingAgent| > 0 {
          next, lane, q := Some(q.pendingAgent[0]), Agent, q.(pendingAgent := q.pendingAgent[1..]);
        } else if |q.pendingBackground| > 0 {
          next, lane, q := Some(q.pendingBackground[0]), Background, q.(pendingBackground := q.pendingBackground[1..]);
        }
        if next.Some? {
          q := q.(active := next,
                  runs := q.runs[next.value := Run(Running, WatchdogArmed, Dispatching)],
                  log := q.log + [Dispatched(next.value, lane)]);
        }
      }
      queues := queues[agent := q];
    }

    method SettleTask(agent: string, id: TaskId)
      requires Valid() && Enabled(QueueFor(agent), Settle(id))
      modifies this
      ensures Valid() && disposed == old(disposed)
      ensures queues == old(queues)[agent := Next(old(QueueFor(agent)), Settle(id))]
    {
      var q := QueueFor(agent);
      q := q.(released := q.released + {id});
      if q.active == Some(id) {
        q := q.(active := None);
      } else {
        q := q.(zombies := q.zombies - {id});
      }
      q := q.(runs := q.runs - {id});
      q := q.(settled := q.settled + {id}, pumps := q.pumps + 1, log := q.log + [Settled(id)]);
      queues := queues[agent := q];
    }

    method WatchdogTimer(agent: string, id: TaskId)
      requires Valid() && Enabled(QueueFor(agent), WatchdogFires(id))
      modifies this
      ensures Valid() && disposed == old(disposed)
      ensures queues == old(queues)[agent := Next(old(QueueFor(agent)), WatchdogFires(id))]
    {
      var q := QueueFor(agent);
      var run := q.runs[id].(timer := NoTimer);
      if !(disposed || !run.phase.Running?) {
        run := run.(phase := WatchdogGrace, timer := GraceArmed);
      }
      queues := queues[agent := q.(runs := q.runs[id := run])];
    }

    method GraceTimer(agent: string, id: TaskId) returns (escaped: bool)
      requires Valid() && Enabled(QueueFor(agent), GraceFires(id))
      modifies this
      ensures Valid() && disposed == old(disposed)
      ensures escaped <==> !disposed && old(QueueFor(agent)).runs[id].phase.WatchdogGrace?
      ensures queues == old(queues)[agent := Next(old(QueueFor(agent)), GraceFires(id))]
    {
      var q := QueueFor(agent);
      var run := q.runs[id].(timer := NoTimer);
      q := q.(runs := q.runs[id := run]);
      escaped := !(disposed || !run.phase.WatchdogGrace?);
      if escaped {
        q := q.(zombies := q.zombies + {id});
        if q.active == Some(id) {
          q := q.(active := None);
        }
        q := q.(released := q.released + {id}, log := q.log + [Escaped(id)]);
      }
      queues := queues[agent := q];
    }

    method DisposeAll()
      requires Valid()
      modifies this
      ensures Valid() && disposed
      ensures queues == map a | a in old(queues) :: Next(old(queues)[a], Dispose)
    {
      disposed := true;
      var rest := queues.Keys;
      while rest != {}
        invariant disposed && queues.Keys == old(queues).Keys && rest <= queues.Keys
        invariant forall a :: a in queues ==>
          queues[a] == if a in rest then old(queues)[a] else Next(old(queues)[a], Dispose)
        decreases rest
      {
        var a :| a in rest;
        rest := rest - {a};
        var q := queues[a];
        if q.active.Some? && q.active.value in q.runs {
          q := q.(runs := q.runs[q.active.value := q.runs[q.active.value].(timer := NoTimer)]);
        }
        queues := queues[a := q.(active := None, disposed := true)];
      }
    }
  }
}
