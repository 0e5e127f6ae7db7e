/** Run windows: overlapping runs of one agent collapse into one window, which completes when
  * the last of them ends. The second half attaches the windows to the run scheduler, the way
  * `attach` wraps `enqueue`.
  */
module RunLifecycle {
  import opened Prelude
  import opened RunScheduler

  datatype Completion = Completion(startedAt: int, sources: set<string>)

  datatype Mark = Begun(source: string, at: int) | Ended

  /** One agent's window bookkeeping; `completions` is what `onTurnCompleted` was told, `log`
    * a history that no step reads. */
  datatype Life = Life(
    count: nat,
    startedAt: Option<int>,
    sources: set<string>,
    completions: seq<Completion>,
    log: seq<Mark>)

  const IDLE := Life(0, None, {}, [], [])

  function AfterMark(l: Life, m: Mark): Life {
    match m
    case Begun(source, at) =>
      var w := if l.count == 0 then l.(startedAt := Some(at), sources := {}) else l;
      w.(sources := w.sources + {source}, count := l.count + 1, log := l.log + [m])
    case Ended =>
      if l.count > 1 then l.(count := l.count - 1, log := l.log + [m])
      else l.(count := 0, startedAt := None, sources := {}, log := l.log + [m],
              completions := if l.startedAt.None? then l.completions
                             else l.completions + [Completion(l.startedAt.value, l.sources)])
  }

  function Replay(marks: seq<Mark>): Life {
    if marks == [] then IDLE else AfterMark(Replay(Front(marks)), Last(marks))
  }

  // ---------------------------------------------------------------- windows of a history

  /** Runs begun and not yet ended; an end without a begin changes nothing. */
  function Depth(marks: seq<Mark>): nat {
    if marks == [] then 0
    else
      var d := Depth(Front(marks));
      if Last(marks).Begun? then d + 1 else if d > 0 then d - 1 else 0
  }

  /** `marks[i..j]` is a maximal stretch during which some run is open. */
  ghost predicate IsWindow(marks: seq<Mark>, i: nat, j: nat) {
    && i < j <= |marks|
    && Depth(marks[..i]) == 0 && Depth(marks[..j]) == 0
    && marks[i].Begun?
    && (forall k :: i < k < j ==> Depth(marks[..k]) > 0)
  }

  function SourcesOf(marks: seq<Mark>): set<string> {
    set m | m in marks && m.Begun? :: m.source
  }

  function Summary(marks: seq<Mark>, i: nat, j: nat): Completion
    requires i < j <= |marks| && marks[i].Begun?
  {
    Completion(marks[i].at, SourcesOf(marks[i..j]))
  }

  /** Where the window that is open at the end of `marks` began. */
  function OpenAt(marks: seq<Mark>): (i: nat)
    ensures i <= |marks|
  {
    if Depth(marks) == 0 then |marks|
    else if Depth(Front(marks)) == 0 then |marks| - 1
    else OpenAt(Front(marks))
  }

  function Windows(marks: seq<Mark>): seq<(nat, nat)> {
    if marks == [] then []
    else
      var f := Front(marks);
      Windows(f) + (if Depth(marks) == 0 && Depth(f) > 0 then [(OpenAt(f), |marks|)] else [])
  }

  lemma PrefixOfSnoc(marks: seq<Mark>, k: nat)
    requires marks != [] && k < |marks|
    ensures marks[..k] == Front(marks)[..k]
  {
  }

  lemma {:induction false} OpenWindow(marks: seq<Mark>)
    requires Depth(marks) > 0
    ensures
      var i := OpenAt(marks);
      && i < |marks| && marks[i].Begun? && Depth(marks[..i]) == 0
      && (forall k :: i < k <= |marks| ==> Depth(marks[..k]) > 0)
    decreases |marks|
  {
    assert marks[..|marks|] == marks;
    var f := Front(marks);
    if Depth(f) == 0 {
      assert marks[..|marks| - 1] == f;
    } else {
      OpenWindow(f);
      forall k | OpenAt(marks) < k <= |marks|
        ensures Depth(marks[..k]) > 0
      {
        if k < |marks| {
          PrefixOfSnoc(marks, k);
        }
      }
      PrefixOfSnoc(marks, OpenAt(marks));
    }
  }

  /** `Windows` lists precisely the windows of a history, in order. */
  lemma {:induction false} WindowsAreTheWindows(marks: seq<Mark>)
    ensures forall w :: w in Windows(marks) <==> IsWindow(marks, w.0, w.1)
    ensures forall a, b :: 0 <= a < b < |Windows(marks)| ==> Windows(marks)[a].1 <= Windows(marks)[b].0
    decreases |marks|
  {
    if marks != [] {
      var f := Front(marks);
      WindowsAreTheWindows(f);
      assert marks[..|marks|] == marks && marks[..|marks| - 1] == f;
      forall w: (nat, nat)
        ensures w in Windows(marks) <==> IsWindow(marks, w.0, w.1)
      {
        WindowOfSnoc(marks, w.0, w.1);
      }
      if Depth(marks) == 0 && Depth(f) > 0 {
        OpenWindow(f);
        forall a | 0 <= a < |Windows(f)|
          ensures Windows(f)[a].1 <= OpenAt(f)
        {
          var w := Windows(f)[a];
          assert w in Windows(f);
          assert f[..|f|] == f;
        }
      }
    }
  }

  lemma EarlierWindow(marks: seq<Mark>, i: nat, j: nat)
    requires marks != [] && j < |marks|
    ensures IsWindow(marks, i, j) <==> IsWindow(Front(marks), i, j)
  {
    var f := Front(marks);
    forall k | 0 <= k < |marks|
      ensures marks[..k] == f[..k]
    {
      PrefixOfSnoc(marks, k);
    }
  }

  lemma LastWindow(marks: seq<Mark>, i: nat)
    requires marks != []
    ensures IsWindow(marks, i, |marks|) <==> Depth(marks) == 0 && Depth(Front(marks)) > 0 && i == OpenAt(Front(marks))
  {
    var f := Front(marks);
    assert marks[..|marks|] == marks && marks[..|f|] == f && f[..|f|] == f;
    var atStart := if i <= |f| then Depth(f[..i]) else 0;
    if i <= |f| {
      PrefixOfSnoc(marks, i);
    }
    if Depth(f) > 0 {
      OpenWindow(f);
      var o := OpenAt(f);
      PrefixOfSnoc(marks, o);
      var atOpen := Depth(marks[..o]);
      forall k | o < k < |marks|
        ensures Depth(marks[..k]) > 0
      {
        PrefixOfSnoc(marks, k);
      }
      assert o < i < |marks| ==> atStart > 0;
    }
  }

  lemma WindowOfSnoc(marks: seq<Mark>, i: nat, j: nat)
    requires marks != []
    ensures IsWindow(marks, i, j) <==>
      || IsWindow(Front(marks), i, j)
      || (Depth(marks) == 0 && Depth(Front(marks)) > 0 && i == OpenAt(Front(marks)) && j == |marks|)
  {
    if j < |marks| {
      EarlierWindow(marks, i, j);
    } else if j == |marks| {
      LastWindow(marks, i);
    }
  }

  /** `l` is the bookkeeping of what is open at the end of a history. */
  ghost predicate Holds(l: Life, marks: seq<Mark>) {
    && l.log == marks && l.count == Depth(marks)
    && (l.count == 0 ==> l.startedAt.None? && l.sources == {})
    && (l.count > 0 ==>
          var i := OpenAt(marks);
          i < |marks| && marks[i].Begun? && l.startedAt == Some(marks[i].at) && l.sources == SourcesOf(marks[i..]))
  }

  lemma FirstBeginHolds(marks: seq<Mark>, l: Life, m: Mark)
    requires Holds(l, marks) && Depth(marks) == 0 && m.Begun?
    ensures Holds(AfterMark(l, m), marks + [m])
  {
    var all := marks + [m];
    assert Front(all) == marks;
    assert all[|marks|..] == [] + [m];
    SourcesSnoc([], m);
  }

  lemma LaterMarkHolds(marks: seq<Mark>, l: Life, m: Mark)
    requires Holds(l, marks) && Depth(marks) > 0
    ensures Holds(AfterMark(l, m), marks + [m])
  {
    var all := marks + [m];
    assert Front(all) == marks;
    var i := OpenAt(marks);
    assert all[i..] == marks[i..] + [m];
    SourcesSnoc(marks[i..], m);
  }

  /** What is open at the end of a history is what the bookkeeping holds. */
  lemma {:induction false} OpenWindowIsHeld(marks: seq<Mark>)
    ensures Holds(Replay(marks), marks)
    decreases |marks|
  {
    if marks != [] {
      var f, m := Front(marks), Last(marks);
      OpenWindowIsHeld(f);
      assert marks == f + [m];
      if Depth(f) > 0 {
        LaterMarkHolds(f, Replay(f), m);
      } else if m.Begun? {
        FirstBeginHolds(f, Replay(f), m);
      }
    }
  }

  ghost predicate AllReported(marks: seq<Mark>, windows: seq<(nat, nat)>, cs: seq<Completion>) {
    |cs| == |windows| && forall n :: 0 <= n < |windows| ==> Reported(marks, windows[n], cs[n])
  }

  lemma EarlierReported(marks: seq<Mark>, windows: seq<(nat, nat)>, cs: seq<Completion>)
    requires marks != [] && AllReported(Front(marks), windows, cs)
    ensures AllReported(marks, windows, cs)
  {
    forall n | 0 <= n < |windows|
      ensures Reported(marks, windows[n], cs[n])
    {
      ReportedSnoc(marks, windows[n], cs[n]);
    }
  }

  /** An end that closes a window reports it. */
  lemma ClosingReports(marks: seq<Mark>, i: nat, l: Life)
    requires i < |marks| - 1 && marks[i].Begun? && Last(marks).Ended?
    requires l.count <= 1 && l.startedAt == Some(marks[i].at) && l.sources == SourcesOf(Front(marks)[i..])
    ensures AfterMark(l, Last(marks)).completions == l.completions + [Summary(marks, i, |marks|)]
  {
    assert marks[i..|marks|] == Front(marks)[i..] + [Last(marks)];
    SourcesSnoc(Front(marks)[i..], Last(marks));
    assert SourcesOf(marks[i..|marks|]) == SourcesOf(Front(marks)[i..]);
  }

  /** The bookkeeping reports exactly one completion per maximal window, in order, with the
    * time the window opened and exactly the sources begun inside it. */
  lemma {:induction false} OneCompletionPerWindow(marks: seq<Mark>)
    ensures AllReported(marks, Windows(marks), Replay(marks).completions)
    decreases |marks|
  {
    if marks != [] {
      var f := Front(marks);
      OneCompletionPerWindow(f);
      EarlierReported(marks, Windows(f), Replay(f).completions);
      OpenWindowIsHeld(f);
      if Depth(marks) == 0 && Depth(f) > 0 {
        LastWindow(marks, OpenAt(f));
        assert f[OpenAt(f)] == marks[OpenAt(f)];
        ClosingReports(marks, OpenAt(f), Replay(f));
      }
    }
  }

  ghost predicate Reported(marks: seq<Mark>, w: (nat, nat), c: Completion) {
    IsWindow(marks, w.0, w.1) && c == Summary(marks, w.0, w.1)
  }

  lemma ReportedSnoc(marks: seq<Mark>, w: (nat, nat), c: Completion)
    requires marks != [] && Reported(Front(marks), w, c)
    ensures Reported(marks, w, c)
  {
    EarlierWindow(marks, w.0, w.1);
    assert marks[w.0..w.1] == Front(marks)[w.0..w.1];
  }

  lemma SourcesSnoc(marks: seq<Mark>, m: Mark)
    ensures SourcesOf(marks + [m]) == SourcesOf(marks) + (if m.Begun? then {m.source} else {})
  {
    assert forall x :: x in marks + [m] <==> x in marks || x == m;
  }

  // ---------------------------------------------------------------- attached to the scheduler

  /** A scheduler whose `enqueue` begins a run and whose wrapped task ends it when its body has
    * finished, one or more microtasks before the scheduler settles the task. */
  datatype Attached = Attached(q: Queue, life: Life)

  datatype Act = Submit(lane: Lane, source: string, at: int) | Sched(a: Action)

  predicate Allowed(s: Attached, act: Act) {
    act.Submit? || (!act.a.Enqueue? && Enabled(s.q, act.a))
  }

  function Perform(s: Attached, act: Act): Attached
    requires Allowed(s, act)
  {
    match act
    case Submit(lane, source, at) => Attached(Next(s.q, Enqueue(lane)), AfterMark(s.life, Begun(source, at)))
    case Sched(a) => Attached(Next(s.q, a), if a.Finish? then AfterMark(s.life, Ended) else s.life)
  }

  function ExecAttached(s: Attached, acts: seq<Act>): Option<Attached>
    decreases |acts|
  {
    if acts == [] then Some(s)
    else if Allowed(s, acts[0]) then ExecAttached(Perform(s, acts[0]), acts[1..])
    else None
  }

  /** Dispatched tasks whose body has ended and whose settling callback is still queued. */
  function Finishing(q: Queue): set<TaskId> {
    set id | id in q.runs && q.runs[id].stage.Finished?
  }

  ghost predicate CountOk(s: Attached) {
    && Inv(s.q)
    && s.life == Replay(s.life.log)
    && s.life.count == Outstanding(s.q)
  }

  lemma RunKeysChange(q: Queue, a: Action)
    requires LanesOk(q) && RunsOk(q) && Enabled(q, a)
    ensures
      var q' := Next(q, a);
      var d := DispatchedLane(q, a);
      if d.Some? then
        && LaneOf(q, d.value)[0] !in q.runs && q'.runs.Keys == q.runs.Keys + {LaneOf(q, d.value)[0]}
        && Finishing(q') == Finishing(q)
      else if a.Settle? then
        && a.id in q.runs.Keys && q'.runs.Keys == q.runs.Keys - {a.id}
        && Finishing(q') == Finishing(q) - {a.id}
      else q'.runs.Keys == q.runs.Keys && Finishing(q') == Finishing(q) + (if a.Finish? then {a.id} else {})
  {
    if DispatchedLane(q, a).Some? {
      var m := DispatchedLane(q, a).value;
      assert LaneOf(q, m)[0] in LaneOf(q, m);
    }
  }

  /** Enqueued tasks whose body has not ended. */
  function Outstanding(q: Queue): int {
    |DispatchOrder(q)| + |q.runs.Keys| - |Finishing(q)|
  }

  lemma LaneSumStep(q: Queue, a: Action)
    requires Enabled(q, a)
    ensures |DispatchOrder(Next(q, a))| ==
      |DispatchOrder(q)| + (if a.Enqueue? then 1 else if DispatchedLane(q, a).Some? then -1 else 0)
  {
    LaneChange(q, a, User);
    LaneChange(q, a, Agent);
    LaneChange(q, a, Background);
  }

  /** How many runs there are, and how many of them have finished, from how the two sets change. */
  lemma SizesChange<T>(before: set<T>, after: set<T>, x: T, d: int)
    requires d == 0 ==> after == before
    requires d == 1 ==> x !in before && after == before + {x}
    requires d == -1 ==> x in before && after == before - {x}
    requires -1 <= d <= 1
    ensures |after| == |before| + d
  {
  }

  lemma RunCountsStep(q: Queue, a: Action)
    requires LanesOk(q) && RunsOk(q) && Enabled(q, a)
    ensures |Next(q, a).runs.Keys| ==
      |q.runs.Keys| + (if DispatchedLane(q, a).Some? then 1 else if a.Settle? then -1 else 0)
    ensures |Finishing(Next(q, a))| ==
      |Finishing(q)| + (if a.Settle? then -1 else if a.Finish? then 1 else 0)
  {
    hide LanesOk, RunsOk;
    RunKeysChange(q, a);
    var k, k', f, f' := q.runs.Keys, Next(q, a).runs.Keys, Finishing(q), Finishing(Next(q, a));
    if DispatchedLane(q, a).Some? {
      SizesChange(k, k', LaneOf(q, DispatchedLane(q, a).value)[0], 1);
    } else if a.Settle? {
      SizesChange(k, k', a.id, -1);
      SizesChange(f, f', a.id, -1);
    } else if a.Finish? {
      SizesChange(f, f', a.id, 1);
    }
  }

  lemma OutstandingStep(q: Queue, a: Action)
    requires LanesOk(q) && RunsOk(q) && Enabled(q, a)
    ensures Outstanding(Next(q, a)) == Outstanding(q) + (if a.Enqueue? then 1 else if a.Finish? then -1 else 0)
  {
    RunCountsStep(q, a);
    LaneSumStep(q, a);
  }

  /** A body that is about to end is one of the tasks counted. */
  lemma SomeOutstanding(q: Queue, id: TaskId)
    requires id in q.runs && !q.runs[id].stage.Finished?
    ensures Outstanding(q) > 0
  {
    var rest := q.runs.Keys - Finishing(q);
    assert id in rest;
    assert q.runs.Keys == Finishing(q) + rest;
  }

  lemma CountStep(s: Attached, act: Act)
    requires CountOk(s) && Allowed(s, act)
    ensures CountOk(Perform(s, act))
  {
    var a := if act.Submit? then Enqueue(act.lane) else act.a;
    InvStep(s.q, a);
    OutstandingStep(s.q, a);
    hide Inv, Outstanding;
    var s' := Perform(s, act);
    if s'.life.log != s.life.log {
      assert Front(s'.life.log) == s.life.log;
    }
    if a.Finish? {
      SomeOutstanding(s.q, a.id);
    }
  }

  lemma {:induction false} CountRun(s: Attached, acts: seq<Act>)
    requires CountOk(s) && ExecAttached(s, acts).Some?
    ensures CountOk(ExecAttached(s, acts).value)
    decreases |acts|
  {
    if acts != [] {
      CountStep(s, acts[0]);
      CountRun(Perform(s, acts[0]), acts[1..]);
    }
  }

  /** In every reachable state before `dispose`, the in-flight count falls short of the pending,
    * active and zombie tasks by exactly the tasks whose body has ended but whose settling
    * callback has not run; the two agree exactly when there is no such task. Over the run, one
    * completion was reported per maximal window, carrying the sources enqueued in it. */
  lemma InFlightCountTracksScheduler(acts: seq<Act>)
    requires ExecAttached(Attached(Empty(false), IDLE), acts).Some?
    ensures
      var s := ExecAttached(Attached(Empty(false), IDLE), acts).value;
      var q := s.q;
      var tracked := |DispatchOrder(q)| + (if q.active.Some? then 1 else 0) + |q.zombies|;
      && (!q.disposed ==> s.life.count + |Finishing(q)| == tracked)
      && (!q.disposed ==> (s.life.count == tracked <==> forall id :: id in q.runs ==> !q.runs[id].stage.Finished?))
      && AllReported(s.life.log, Windows(s.life.log), s.life.completions)
  {
    EmptyInv(false);
    var s0 := Attached(Empty(false), IDLE);
    assert Finishing(Empty(false)) == {} && Empty(false).runs.Keys == {};
    CountRun(s0, acts);
    var s := ExecAttached(s0, acts).value;
    OneCompletionPerWindow(s.life.log);
    if !s.q.disposed {
      TrackedRuns(s.q);
    }
  }

  /** A submission begins a run, a body that finishes ends one. */
  function MarksIn(act: Act): seq<Mark> {
    match act
    case Submit(_, source, at) => [Begun(source, at)]
    case Sched(a) => if a.Finish? then [Ended] else []
  }

  function ActionIn(act: Act): Action {
    match act case Submit(lane, _, _) => Enqueue(lane) case Sched(a) => a
  }

  function MarksOf(acts: seq<Act>): seq<Mark> {
    if acts == [] then [] else MarksIn(acts[0]) + MarksOf(acts[1..])
  }

  function ActionsOf(acts: seq<Act>): seq<Action> {
    if acts == [] then [] else [ActionIn(acts[0])] + ActionsOf(acts[1..])
  }

  lemma AttachedStepIs(s: Attached, act: Act)
    requires Allowed(s, act)
    ensures Enabled(s.q, ActionIn(act)) && Perform(s, act).q == Next(s.q, ActionIn(act))
    ensures Perform(s, act).life.log == s.life.log + MarksIn(act)
  {
  }

  lemma {:induction false} MarksFollow(s: Attached, acts: seq<Act>)
    requires ExecAttached(s, acts).Some?
    ensures ExecAttached(s, acts).value.life.log == s.life.log + MarksOf(acts)
    decreases |acts|
  {
    hide Perform, Allowed, MarksIn;
    if acts == [] {
      assert s.life.log + [] == s.life.log;
    } else {
      AttachedStepIs(s, acts[0]);
      MarksFollow(Perform(s, acts[0]), acts[1..]);
      var first, rest := MarksIn(acts[0]), MarksOf(acts[1..]);
      assert (s.life.log + first) + rest == s.life.log + (first + rest);
    }
  }

  lemma {:induction false} ActionsFollow(s: Attached, acts: seq<Act>)
    requires ExecAttached(s, acts).Some?
    ensures Exec(s.q, ActionsOf(acts)) == Some(ExecAttached(s, acts).value.q)
    decreases |acts|
  {
    if acts != [] {
      hide Perform, Allowed, ActionIn, Next, Enabled;
      AttachedStepIs(s, acts[0]);
      ActionsFollow(Perform(s, acts[0]), acts[1..]);
      assert ActionsOf(acts)[0] == ActionIn(acts[0]) && ActionsOf(acts)[1..] == ActionsOf(acts[1..]);
    }
  }

  /** The windows of a run are those of its submissions and finished bodies, under their own sources and
    * times, and attaching them changes nothing for the scheduler. */
  lemma AttachedRunIs(acts: seq<Act>)
    requires ExecAttached(Attached(Empty(false), IDLE), acts).Some?
    ensures
      var s := ExecAttached(Attached(Empty(false), IDLE), acts).value;
      s.life.log == MarksOf(acts) && Exec(Empty(false), ActionsOf(acts)) == Some(s.q)
  {
    MarksFollow(Attached(Empty(false), IDLE), acts);
    ActionsFollow(Attached(Empty(false), IDLE), acts);
  }

  function CountWitness(): seq<Act> {
    [Submit(User, "user", 0), Sched(Pump), Sched(Start(0)), Sched(Finish(0))]
  }

  /** The difference is real: here the count is back at zero while the scheduler still has an
    * active task. */
  lemma CountFallsShort()
    ensures ExecAttached(Attached(Empty(false), IDLE), CountWitness()).Some?
    ensures
      var s := ExecAttached(Attached(Empty(false), IDLE), CountWitness()).value;
      s.life.count == 0 && s.q.active == Some(0)
  {
    var s0 := Attached(Empty(false), IDLE);
    var acts := CountWitness();
    var s1 := Perform(s0, acts[0]);
    var s2 := Perform(s1, acts[1]);
    var s3 := Perform(s2, acts[2]);
    var s4 := Perform(s3, acts[3]);
    assert s1.q.pendingUser == [0] && s1.life.count == 1;
    assert s2.q.active == Some(0) && s2.q.runs == map[0 := Run(Running, WatchdogArmed, Dispatching)];
    assert ExecAttached(s3, [acts[3]]) == ExecAttached(s4, []);
    assert ExecAttached(s2, [acts[2], acts[3]]) == ExecAttached(s3, [acts[3]]);
    assert ExecAttached(s1, [acts[1], acts[2], acts[3]]) == ExecAttached(s2, [acts[2], acts[3]]);
  }

  lemma TrackedRuns(q: Queue)
    requires RunsOk(q) && !q.disposed
    ensures |q.runs.Keys| == (if q.active.Some? then 1 else 0) + |q.zombies|
    ensures |Finishing(q)| == 0 <==> forall id :: id in q.runs ==> !q.runs[id].stage.Finished?
  {
    var act := if q.active.Some? then {q.active.value} else {};
    assert q.runs.Keys == act + q.zombies;
    if Finishing(q) == {} {
      assert forall id :: id in q.runs && q.runs[id].stage.Finished? ==> id in Finishing(q);
    } else {
      var id :| id in Finishing(q);
    }
  }

  // ---------------------------------------------------------------- the lifecycle object

  /** The bookkeeping of all agents; `completed` is what `onTurnCompleted` was told. */
  datatype Books = Books(
    windows: map<string, int>,
    sources: map<string, set<string>>,
    counts: map<string, nat>,
    completed: map<string, seq<Completion>>,
    history: map<string, seq<Mark>>)

  ghost predicate BooksOk(b: Books) {
    (forall a :: a in b.counts ==> b.counts[a] > 0) && b.counts.Keys == b.windows.Keys == b.sources.Keys
  }

  /** One agent's bookkeeping. */
  function LifeOf(b: Books, agent: string): Life {
    Life(if agent in b.counts then b.counts[agent] else 0,
         if agent in b.windows then Some(b.windows[agent]) else None,
         if agent in b.sources then b.sources[agent] else {},
         if agent in b.completed then b.completed[agent] else [],
         if agent in b.history then b.history[agent] else [])
  }

  function Noted(b: Books, agent: string, m: Mark): Books {
    b.(history := b.history[agent := LifeOf(b, agent).log + [m]])
  }

  function Opened(b: Books, agent: string, now: int): Books {
    b.(windows := b.windows[agent := now], sources := b.sources[agent := {}])
  }

  function Counted(b: Books, agent: string, source: string): Books {
    b.(sources := if agent in b.sources then b.sources[agent := b.sources[agent] + {source}] else b.sources,
       counts := b.counts[agent := LifeOf(b, agent).count + 1])
  }

  function AfterBegin(b: Books, agent: string, source: string, now: int): Books {
    var noted := Noted(b, agent, Begun(source, now));
    Counted(if LifeOf(b, agent).count > 0 then noted else Opened(noted, agent, now), agent, source)
  }

  function Closed(b: Books, agent: string): Books {
    var l := LifeOf(b, agent);
    Books(b.windows - {agent}, b.sources - {agent}, b.counts - {agent},
          if l.startedAt.None? then b.completed
          else b.completed[agent := l.completions + [Completion(l.startedAt.value, l.sources)]],
          b.history)
  }

  function AfterEnd(b: Books, agent: string): Books {
    var noted := Noted(b, agent, Ended);
    var count := LifeOf(b, agent).count;
    if count > 1 then noted.(counts := b.counts[agent := count - 1]) else Closed(noted, agent)
  }

  lemma BeginKeepsOk(b: Books, agent: string, source: string, now: int)
    requires BooksOk(b)
    ensures BooksOk(AfterBegin(b, agent, source, now))
  {
  }

  lemma EndKeepsOk(b: Books, agent: string)
    requires BooksOk(b)
    ensures BooksOk(AfterEnd(b, agent))
  {
  }

  lemma BeginIsLocal(b: Books, agent: string, source: string, now: int, other: string)
    requires other != agent
    ensures LifeOf(AfterBegin(b, agent, source, now), other) == LifeOf(b, other)
  {
  }

  lemma EndIsLocal(b: Books, agent: string, other: string)
    requires other != agent
    ensures LifeOf(AfterEnd(b, agent), other) == LifeOf(b, other)
  {
  }

  lemma BeginHere(b: Books, agent: string, source: string, now: int)
    requires BooksOk(b)
    ensures LifeOf(AfterBegin(b, agent, source, now), agent) == AfterMark(LifeOf(b, agent), Begun(source, now))
  {
  }

  lemma EndHere(b: Books, agent: string)
    requires BooksOk(b)
    ensures LifeOf(AfterEnd(b, agent), agent) == AfterMark(LifeOf(b, agent), Ended)
  {
  }

  /** Beginning a run is the begin step of that agent's bookkeeping, and of no other's. */
  lemma BeginIsMark(b: Books, agent: string, source: string, now: int)
    requires BooksOk(b)
    ensures LifeOf(AfterBegin(b, agent, source, now), agent) == AfterMark(LifeOf(b, agent), Begun(source, now))
    ensures forall a :: a != agent ==> LifeOf(AfterBegin(b, agent, source, now), a) == LifeOf(b, a)
  {
    hide LifeOf, AfterBegin, AfterMark;
    BeginHere(b, agent, source, now);
    forall a | a != agent
      ensures LifeOf(AfterBegin(b, agent, source, now), a) == LifeOf(b, a)
    {
      BeginIsLocal(b, agent, source, now, a);
    }
  }

  /** Ending a run is the end step of that agent's bookkeeping, and of no other's. */
  lemma EndIsMark(b: Books, agent: string)
    requires BooksOk(b)
    ensures LifeOf(AfterEnd(b, agent), agent) == AfterMark(LifeOf(b, agent), Ended)
    ensures forall a :: a != agent ==> LifeOf(AfterEnd(b, agent), a) == LifeOf(b, a)
  {
    hide LifeOf, AfterEnd, AfterMark;
    EndHere(b, agent);
    forall a | a != agent
      ensures LifeOf(AfterEnd(b, agent), a) == LifeOf(b, a)
    {
      EndIsLocal(b, agent, a);
    }
  }

  class Lifecycle {
    var windowStartedAt: map<string, int>
    var runSources: map<string, set<string>>
    var inFlight: map<string, nat>
    var completed: map<string, seq<Completion>>
    ghost var history: map<string, seq<Mark>>

    ghost function All(): Books
      reads this
    {
      Books(windowStartedAt, runSources, inFlight, completed, history)
    }

    ghost predicate Valid()
      reads this
    {
      BooksOk(All())
    }

    /** The agent's bookkeeping as a `Life`. */
    ghost function View(agent: string): Life
      reads this
    {
      LifeOf(All(), agent)
    }

    constructor ()
      ensures Valid() && forall a :: View(a) == IDLE
    {
      windowStartedAt, runSources, inFlight, completed := map[], map[], map[], map[];
      history := map[];
    }

    method BeginSessionRun(agent: string, source: string, now: int)
      requires Valid()
      modifies this
      ensures Valid() && All() == AfterBegin(old(All()), agent, source, now)
    {
      BeginKeepsOk(All(), agent, source, now);
      CountRun(agent, source, now);
    }

    method CountRun(agent: string, source: string, now: int)
      modifies this
      ensures All() == AfterBegin(old(All()), agent, source, now)
    {
      ghost var log := View(agent).log;
      var n := if agent in inFlight then inFlight[agent] else 0;
      if n == 0 {
        StartWindow(agent, now);
      }
      if agent in runSources {
        runSources := runSources[agent := runSources[agent] + {source}];
      }
      inFlight := inFlight[agent := n + 1];
      history := history[agent := log + [Begun(source, now)]];
    }

    method StartWindow(agent: string, now: int)
      modifies this`windowStartedAt, this`runSources
      ensures All() == Opened(old(All()), agent, now)
    {
      windowStartedAt := windowStartedAt[agent := now];
      runSources := runSources[agent := {}];
    }

    method EndSessionRun(agent: string)
      requires Valid()
      modifies this
      ensures Valid() && All() == AfterEnd(old(All()), agent)
    {
      EndKeepsOk(All(), agent);
      hide BooksOk, AfterMark;
      history := history[agent := View(agent).log + [Ended]];
      var count := if agent in inFlight then inFlight[agent] else 1;
      if count > 1 {
        inFlight := inFlight[agent := count - 1];
      } else {
        CloseWindow(agent);
      }
    }

    /** The last of the agent's runs ended. */
    method CloseWindow(agent: string)
      modifies this`inFlight, this`windowStartedAt, this`runSources, this`completed
      ensures All() == Closed(old(All()), agent)
    {
      inFlight := inFlight - {agent};
      if agent in windowStartedAt {
        var sources := if agent in runSources then runSources[agent] else {};
        var told := if agent in completed then completed[agent] else [];
        completed := completed[agent := told + [Completion(windowStartedAt[agent], sources)]];
      }
      windowStartedAt := windowStartedAt - {agent};
      runSources := runSources - {agent};
    }
  }
}
