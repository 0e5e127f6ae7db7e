/** Automations: the store and the sweep that fires what is due.
  *
  * One monotone clock serves both. A tick is cut into steps at its awaits, so other calls on the
  * store fall in between. A cron expression is taken as its first two fields, read as numbers.
  */
module Automations {
  import opened Prelude

  const MINUTE: int := 60000

  datatype Trigger =
    | Schedule(minute: Option<int>, hour: Option<int>)
    | Interval(minutes: int)
    | OnRequest

  type Id = nat

  datatype Automation = Automation(id: Id, trigger: Trigger, enabled: bool, created: int, lastRun: Option<int>,
      runCount: nat)

  /** `tick` is the time at which the sweep that dispatched began. */
  datatype Event = Dispatched(id: Id, trigger: Trigger, tick: int) | Recorded(id: Id, at: int)

  /** A sweep under way: when it began, what it has still to look at, what it waits for. */
  datatype Sweep = Sweep(now: int, rest: seq<Automation>, running: Option<Automation>)

  datatype State = State(items: seq<Automation>, nextId: nat, clock: int, sweep: Option<Sweep>, log: seq<Event>)

  datatype Patch = Patch(trigger: Option<Trigger>, enabled: Option<bool>)

  datatype Act =
    | Create(trigger: Trigger, enabled: bool, at: int)
    | Update(id: Id, patch: Patch, at: int)
    | Delete(id: Id, at: int)
    | Tick(at: int)
    | Look(at: int)
    | Finish(ok: bool, at: int)

  function Fresh(at: int): State {
    State([], 1, at, None, [])
  }

  // ---------------------------------------------------------------- what is due

  function HourOf(t: int): int {
    t / (60 * MINUTE) % 24
  }

  function MinuteOf(t: int): int {
    t / MINUTE % 60
  }

  predicate IsDue(a: Automation, now: int) {
    match a.trigger
    case Interval(m) =>
      var last := if a.lastRun.Some? then a.lastRun.value else a.created;
      now - last >= m * MINUTE
    case Schedule(minute, hour) =>
      var last := if a.lastRun.Some? then a.lastRun.value else 0;
      && minute.Some? && hour.Some?
      && HourOf(now) == hour.value && MinuteOf(now) == minute.value
      && now - last >= MINUTE
    case OnRequest => false
  }

  // ---------------------------------------------------------------- the machine

  predicate Has(items: seq<Automation>, id: Id) {
    exists i :: 0 <= i < |items| && items[i].id == id
  }

  function Patched(a: Automation, p: Patch): Automation {
    a.(trigger := if p.trigger.Some? then p.trigger.value else a.trigger,
       enabled := if p.enabled.Some? then p.enabled.value else a.enabled)
  }

  function UpdateIn(items: seq<Automation>, id: Id, p: Patch): seq<Automation> {
    seq(|items|, i requires 0 <= i < |items| => if items[i].id == id then Patched(items[i], p) else items[i])
  }

  function RecordIn(items: seq<Automation>, id: Id, at: int): seq<Automation> {
    seq(|items|, i requires 0 <= i < |items| =>
      if items[i].id == id then items[i].(lastRun := Some(at), runCount := items[i].runCount + 1) else items[i])
  }

  function DeleteIn(items: seq<Automation>, id: Id): seq<Automation> {
    if items == [] then []
    else if items[0].id == id then items[1..]
    else [items[0]] + DeleteIn(items[1..], id)
  }

  predicate Enabled(s: State, a: Act) {
    && a.at >= s.clock
    && match a
       case Look(_) => s.sweep.Some? && s.sweep.value.running.None?
       case Finish(_, _) => s.sweep.Some? && s.sweep.value.running.Some?
       case _ => true
  }

  function LookNext(s: State): State
    requires s.sweep.Some? && s.sweep.value.running.None?
  {
    var w := s.sweep.value;
    if w.rest == [] then s.(sweep := None)
    else
      var x := w.rest[0];
      if !x.enabled || !IsDue(x, w.now) then s.(sweep := Some(w.(rest := w.rest[1..])))
      else s.(sweep := Some(w.(rest := w.rest[1..], running := Some(x))),
              log := s.log + [Dispatched(x.id, x.trigger, w.now)])
  }

  function FinishRun(s: State, ok: bool): State
    requires s.sweep.Some? && s.sweep.value.running.Some?
  {
    var x := s.sweep.value.running.value;
    var done := s.(sweep := Some(s.sweep.value.(running := None)));
    if !ok || !Has(s.items, x.id) then done
    else done.(items := RecordIn(s.items, x.id, s.clock), log := s.log + [Recorded(x.id, s.clock)])
  }

  function Next(s0: State, a: Act): State
    requires Enabled(s0, a)
  {
    var s := s0.(clock := a.at);
    match a
    case Create(trigger, enabled, at) =>
      s.(items := s.items + [Automation(s.nextId, trigger, enabled, at, None, 0)], nextId := s.nextId + 1)
    case Update(id, patch, _) => s.(items := UpdateIn(s.items, id, patch))
    case Delete(id, _) => s.(items := DeleteIn(s.items, id))
    case Tick(at) => if s.sweep.Some? then s else s.(sweep := Some(Sweep(at, s.items, None)))
    case Look(_) => LookNext(s)
    case Finish(ok, _) => FinishRun(s, ok)
  }

  function Exec(s: State, acts: seq<Act>): State
    decreases |acts|
  {
    if acts == [] then s
    else Exec(if Enabled(s, acts[0]) then Next(s, acts[0]) else s, acts[1..])
  }

  // ---------------------------------------------------------------- invariant

  /** The times at which runs of `id` were recorded. */
  function Runs(log: seq<Event>, id: Id): seq<int> {
    if log == [] then []
    else if Last(log).Recorded? && Last(log).id == id then Runs(Front(log), id) + [Last(log).at]
    else Runs(Front(log), id)
  }

  /** The entry tells its recorded runs. */
  predicate Tells(a: Automation, log: seq<Event>) {
    var runs := Runs(log, a.id);
    a.runCount == |runs| && a.lastRun == if runs == [] then None else Some(Last(runs))
  }

  ghost predicate ItemsOk(items: seq<Automation>, nextId: nat, log: seq<Event>) {
    && DistinctIds(items)
    && (forall i :: 0 <= i < |items| ==> items[i].id < nextId && Tells(items[i], log))
  }

  ghost predicate SweepOk(s: State) {
    s.sweep.Some? ==>
      var w := s.sweep.value;
      && w.now <= s.clock && ItemsOk(w.rest, s.nextId, s.log)
      && (w.running.Some? ==> w.running.value.id < s.nextId)
      && (w.running.Some? ==> forall i :: 0 <= i < |w.rest| ==> w.rest[i].id != w.running.value.id)
  }

  /** What the trigger that fired promises about the runs recorded before. */
  predicate Spaced(e: Event, runs: seq<int>)
    requires e.Dispatched?
  {
    match e.trigger
    case Interval(m) => forall r :: r in runs ==> e.tick - r >= m * MINUTE
    case Schedule(minute, hour) =>
      && minute == Some(MinuteOf(e.tick)) && hour == Some(HourOf(e.tick))
      && (forall r :: r in runs ==> e.tick - r >= MINUTE)
      && (runs == [] ==> e.tick >= MINUTE)
    case OnRequest => false
  }

  ghost predicate LogOk(s: State) {
    && (forall i :: 0 <= i < |s.log| ==> s.log[i].id < s.nextId)
    && (forall i :: 0 <= i < |s.log| && s.log[i].Dispatched? ==>
      s.log[i].tick <= s.clock && Spaced(s.log[i], Runs(s.log[..i], s.log[i].id)))
    && (forall i, k :: 0 <= i < k < |s.log| && s.log[i].Dispatched? && s.log[k].Recorded? ==>
        s.log[i].tick <= s.log[k].at)
    && (forall i, k :: 0 <= i < k < |s.log| && s.log[i].Dispatched? && s.log[k].Dispatched? ==>
        s.log[i].tick <= s.log[k].tick)
    && (s.sweep.Some? ==> forall i :: 0 <= i < |s.log| && s.log[i].Dispatched? ==> s.log[i].tick <= s.sweep.value.now)
  }

  ghost predicate Sorted(runs: seq<int>, limit: int) {
    && (forall i, j :: 0 <= i < j < |runs| ==> runs[i] <= runs[j])
    && (forall i :: 0 <= i < |runs| ==> runs[i] <= limit)
  }

  ghost predicate RunsSorted(s: State) {
    forall id: Id :: Sorted(Runs(s.log, id), s.clock)
  }

  ghost predicate Inv(s: State) {
    ItemsOk(s.items, s.nextId, s.log) && SweepOk(s) && LogOk(s) && RunsSorted(s)
  }

  lemma {:induction false} NoRunsYet(log: seq<Event>, id: Id)
    requires forall i :: 0 <= i < |log| ==> log[i].id != id
    ensures Runs(log, id) == []
    decreases |log|
  {
    if log != [] {
      NoRunsYet(Front(log), id);
    }
  }

  ghost predicate DistinctIds(items: seq<Automation>) {
    forall i, j :: 0 <= i < j < |items| ==> items[i].id != items[j].id
  }

  lemma {:induction false} DeleteInPicks(items: seq<Automation>, id: Id)
    ensures forall i :: 0 <= i < |DeleteIn(items, id)| ==> DeleteIn(items, id)[i] in items
    ensures DistinctIds(items) ==> DistinctIds(DeleteIn(items, id))
    decreases |items|
  {
    if items != [] && items[0].id != id {
      var rest := DeleteIn(items[1..], id);
      DeleteInPicks(items[1..], id);
      forall j | 0 <= j < |rest|
        ensures DistinctIds(items) ==> rest[j].id != items[0].id
      {
        var k :| 0 <= k < |items[1..]| && items[1..][k] == rest[j];
        assert items[k + 1] == rest[j];
      }
      assert DistinctIds(items) ==> DistinctIds(items[1..]);
    }
  }

  /** Moving the clock alone keeps everything. */
  lemma ClockKeeps(s: State, at: int)
    requires Inv(s) && s.clock <= at
    ensures Inv(s.(clock := at))
  {
    assert forall id: Id :: Sorted(Runs(s.log, id), s.clock) ==> Sorted(Runs(s.log, id), at);
  }

  lemma CreateKeeps(s: State, trigger: Trigger, enabled: bool)
    requires Inv(s)
    ensures Inv(Next(s, Create(trigger, enabled, s.clock)))
  {
    NoRunsYet(s.log, s.nextId);
  }

  lemma DeleteKeeps(s: State, id: Id)
    requires Inv(s)
    ensures Inv(Next(s, Delete(id, s.clock)))
  {
    DeleteInPicks(s.items, id);
  }

  lemma DueIsSpaced(a: Automation, log: seq<Event>, now: int, limit: int)
    requires Tells(a, log) && IsDue(a, now) && Sorted(Runs(log, a.id), limit)
    ensures Spaced(Dispatched(a.id, a.trigger, now), Runs(log, a.id))
  {
    var runs := Runs(log, a.id);
    if runs != [] {
      assert forall r :: r in runs ==> r <= Last(runs);
    }
  }

  lemma DispatchedItems(items: seq<Automation>, n: nat, log: seq<Event>, e: Event)
    requires ItemsOk(items, n, log) && e.Dispatched?
    ensures ItemsOk(items, n, log + [e])
  {
  }

  lemma DispatchedSorted(s: State, e: Event)
    requires RunsSorted(s) && e.Dispatched?
    ensures RunsSorted(s.(log := s.log + [e]))
  {
    forall id: Id
      ensures Sorted(Runs(s.log + [e], id), s.clock)
    {
      assert Sorted(Runs(s.log, id), s.clock);
    }
  }

  lemma DispatchedLog(s: State, x: Automation)
    requires Inv(s) && s.sweep.Some? && x.id < s.nextId && Tells(x, s.log) && IsDue(x, s.sweep.value.now)
    ensures LogOk(s.(log := s.log + [Dispatched(x.id, x.trigger, s.sweep.value.now)]))
  {
    hide IsDue, Runs, Tells, Sorted;
    var e := Dispatched(x.id, x.trigger, s.sweep.value.now);
    var l := s.log + [e];
    assert Sorted(Runs(s.log, x.id), s.clock);
    DueIsSpaced(x, s.log, s.sweep.value.now, s.clock);
    assert forall i :: 0 <= i < |s.log| ==> l[..i] == s.log[..i];
    assert l[..|s.log|] == s.log;
  }

  lemma LookKeeps(s: State)
    requires Inv(s) && s.sweep.Some? && s.sweep.value.running.None?
    ensures Inv(LookNext(s))
  {
    hide IsDue, Runs, Tells;
    var w := s.sweep.value;
    if w.rest != [] && w.rest[0].enabled && IsDue(w.rest[0], w.now) {
      var x := w.rest[0];
      var e := Dispatched(x.id, x.trigger, w.now);
      var t := LookNext(s);
      DispatchedItems(s.items, s.nextId, s.log, e);
      DispatchedItems(w.rest, s.nextId, s.log, e);
      DispatchedLog(s, x);
      DispatchedSorted(s, e);
      var u := s.(log := s.log + [e]);
      assert forall id: Id :: Sorted(Runs(u.log, id), u.clock) ==> Sorted(Runs(t.log, id), t.clock);
    }
  }

  lemma RecordedRuns(log: seq<Event>, x: Id, at: int)
    ensures var l := log + [Recorded(x, at)];
      forall id: Id :: Runs(l, id) == if id == x then Runs(log, id) + [at] else Runs(log, id)
  {
    forall id: Id
      ensures Runs(log + [Recorded(x, at)], id) == if id == x then Runs(log, id) + [at] else Runs(log, id)
    {
    }
  }

  lemma RecordedItems(s: State, x: Id)
    requires Inv(s)
    ensures ItemsOk(RecordIn(s.items, x, s.clock), s.nextId, s.log + [Recorded(x, s.clock)])
  {
    RecordedRuns(s.log, x, s.clock);
  }

  lemma RecordedSorted(s: State, x: Id)
    requires Inv(s)
    ensures RunsSorted(s.(log := s.log + [Recorded(x, s.clock)]))
  {
    RecordedRuns(s.log, x, s.clock);
    forall id: Id
      ensures Sorted(Runs(s.log + [Recorded(x, s.clock)], id), s.clock)
    {
      assert Sorted(Runs(s.log, id), s.clock);
    }
  }

  lemma RecordedLog(s: State, x: Id)
    requires Inv(s) && x < s.nextId
    ensures LogOk(s.(log := s.log + [Recorded(x, s.clock)]))
  {
    var l := s.log + [Recorded(x, s.clock)];
    assert forall i :: 0 <= i < |s.log| ==> l[..i] == s.log[..i];
  }

  lemma FinishKeeps(s: State, ok: bool)
    requires Inv(s) && s.sweep.Some? && s.sweep.value.running.Some?
    ensures Inv(FinishRun(s, ok))
  {
    var x := s.sweep.value.running.value;
    if ok && Has(s.items, x.id) {
      RecordedItems(s, x.id);
      RecordedSorted(s, x.id);
      RecordedLog(s, x.id);
      var t := FinishRun(s, ok);
      assert RunsSorted(t) by {
        var u := s.(log := s.log + [Recorded(x.id, s.clock)]);
        assert forall id: Id :: Sorted(Runs(u.log, id), u.clock) ==> Sorted(Runs(t.log, id), t.clock);
      }
    }
  }

  lemma InvStep(s: State, a: Act)
    requires Inv(s) && Enabled(s, a)
    ensures Inv(Next(s, a))
  {
    ClockKeeps(s, a.at);
    var c := s.(clock := a.at);
    match a
    case Create(trigger, enabled, _) => CreateKeeps(c, trigger, enabled);
    case Update(id, p, _) =>
    case Delete(id, _) => DeleteKeeps(c, id);
    case Tick(_) =>
    case Look(_) => LookKeeps(c);
    case Finish(ok, _) => FinishKeeps(c, ok);
  }

  lemma {:induction false} InvRun(s: State, acts: seq<Act>)
    requires Inv(s)
    ensures Inv(Exec(s, acts))
    decreases |acts|
  {
    if acts != [] {
      if Enabled(s, acts[0]) {
        InvStep(s, acts[0]);
      }
      InvRun(if Enabled(s, acts[0]) then Next(s, acts[0]) else s, acts[1..]);
    }
  }

  // ---------------------------------------------------------------- theorems

  lemma {:induction false} RunListed(log: seq<Event>, k: nat)
    requires k < |log| && log[k].Recorded?
    ensures log[k].at in Runs(log, log[k].id)
    decreases |log|
  {
    if k < |log| - 1 {
      RunListed(Front(log), k);
    }
  }

  /** Whenever an interval automation is dispatched, at least its interval has passed since every
    * run recorded for it before. */
  lemma IntervalsAreKept(at: int, acts: seq<Act>, k: nat, j: nat)
    requires var log := Exec(Fresh(at), acts).log;
      k < j < |log| && log[k].Recorded? && log[j].Dispatched? && log[j].id == log[k].id && log[j].trigger.Interval?
    ensures var log := Exec(Fresh(at), acts).log; log[j].tick - log[k].at >= log[j].trigger.minutes * MINUTE
  {
    InvRun(Fresh(at), acts);
    var log := Exec(Fresh(at), acts).log;
    RunListed(log[..j], k);
    assert log[k].at in Runs(log[..j], log[j].id);
  }

  /** A scheduled automation is dispatched only by a tick in its own minute, and never twice for
    * one minute with a recorded run in between, however long dispatches take. */
  lemma OncePerDueMinute(at: int, acts: seq<Act>, i: nat, k: nat, j: nat)
    requires var log := Exec(Fresh(at), acts).log;
      && i < k < j < |log| && log[i].Dispatched? && log[k].Recorded? && log[j].Dispatched?
      && log[i].id == log[k].id == log[j].id && log[j].trigger.Schedule?
    ensures var log := Exec(Fresh(at), acts).log; log[i].tick / MINUTE < log[j].tick / MINUTE
    ensures var e := Exec(Fresh(at), acts).log[j];
      e.trigger.minute == Some(MinuteOf(e.tick)) && e.trigger.hour == Some(HourOf(e.tick))
  {
    InvRun(Fresh(at), acts);
    var log := Exec(Fresh(at), acts).log;
    RunListed(log[..j], k);
    assert log[k].at in Runs(log[..j], log[j].id);
  }

  ghost predicate RecordedAfter(log: seq<Event>, i: nat, id: Id) {
    exists k :: i < k < |log| && log[k].Recorded? && log[k].id == id
  }

  lemma {:induction false} RunsSince(log: seq<Event>, i: nat, id: Id)
    requires i <= |log| && forall k :: i <= k < |log| ==> !(log[k].Recorded? && log[k].id == id)
    ensures Runs(log, id) == Runs(log[..i], id)
    decreases |log|
  {
    if i == |log| {
      assert log[..i] == log;
    } else {
      assert Front(log)[..i] == log[..i];
      RunsSince(Front(log), i, id);
    }
  }

  /** Within the minute of an earlier dispatch the sweep dispatches a scheduled automation again
    * exactly when no run of it has been recorded since, that is, when dispatching failed. */
  lemma RefiresExactlyWhenUnrecorded(s: State, i: nat)
    requires Inv(s) && s.sweep.Some? && s.sweep.value.rest != [] && i < |s.log|
    requires var x, e, now := s.sweep.value.rest[0], s.log[i], s.sweep.value.now;
      && e.Dispatched? && e.id == x.id && e.trigger == x.trigger && x.trigger.Schedule? && x.enabled
      && e.tick / MINUTE == now / MINUTE
    ensures var w := s.sweep.value; IsDue(w.rest[0], w.now) <==> !RecordedAfter(s.log, i, w.rest[0].id)
  {
    var x, e, now := s.sweep.value.rest[0], s.log[i], s.sweep.value.now;
    assert Tells(x, s.log);
    SameMinute(e.tick, now);
    if RecordedAfter(s.log, i, x.id) {
      var k :| i < k < |s.log| && s.log[k].Recorded? && s.log[k].id == x.id;
      RunListed(s.log, k);
      var runs := Runs(s.log, x.id);
      assert Sorted(runs, s.clock);
      assert forall r :: r in runs ==> r <= Last(runs);
    } else {
      RunsSince(s.log, i, x.id);
      var runs := Runs(s.log[..i], x.id);
      assert Spaced(e, runs);
      assert runs != [] ==> Last(runs) in runs;
      assert e.tick <= now;
    }
  }

  lemma SameMinute(t: int, u: int)
    requires t / MINUTE == u / MINUTE
    ensures MinuteOf(t) == MinuteOf(u) && HourOf(t) == HourOf(u) && -MINUTE < u - t < MINUTE
  {
    assert t / (60 * MINUTE) == t / MINUTE / 60;
    assert u / (60 * MINUTE) == u / MINUTE / 60;
  }

  lemma {:induction false} ExecConcat(s: State, a: seq<Act>, b: seq<Act>)
    ensures Exec(s, a + b) == Exec(Exec(s, a), b)
    decreases |a|
  {
    if a == [] {
      assert a + b == b;
    } else {
      assert (a + b)[1..] == a[1..] + b;
      ExecConcat(if Enabled(s, a[0]) then Next(s, a[0]) else s, a[1..], b);
    }
  }

  function FailedSweep(at: int): seq<Act> {
    [Tick(at), Look(at), Finish(false, at), Look(at)]
  }

  /** A sweep over one due automation whose dispatch fails leaves the store as it was. */
  lemma FailedSweepLeavesStore(s: State, x: Automation, at: int)
    requires s.items == [x] && s.sweep.None? && s.clock <= at && x.enabled && IsDue(x, at)
    ensures Exec(s, FailedSweep(at)) == s.(clock := at, log := s.log + [Dispatched(x.id, x.trigger, at)])
  {
    var acts := FailedSweep(at);
    var s1 := s.(clock := at, sweep := Some(Sweep(at, [x], None)));
    var s2 := s.(clock := at, sweep := Some(Sweep(at, [], Some(x))), log := s.log + [Dispatched(x.id, x.trigger, at)]);
    var s3 := s2.(sweep := Some(Sweep(at, [], None)));
    assert [x][1..] == [];
    assert Next(s, acts[0]) == s1 && Next(s1, acts[1]) == s2 && Next(s2, acts[2]) == s3;
    ExecTakes(s3, acts, 3);
    ExecTakes(s2, acts, 2);
    ExecTakes(s1, acts, 1);
    ExecTakes(s, acts, 0);
    assert acts[0..] == acts && acts[4..] == [];
  }

  lemma ExecTakes(s: State, acts: seq<Act>, n: nat)
    requires n < |acts| && Enabled(s, acts[n])
    ensures Exec(s, acts[n..]) == Exec(Next(s, acts[n]), acts[n + 1..])
  {
    assert acts[n..][1..] == acts[n + 1..];
  }

  /** A failing dispatch is repeated within its minute. */
  lemma FailureFiresTwiceInAMinute() returns (acts: seq<Act>)
    ensures var log := Exec(Fresh(0), acts).log;
      && |log| == 2 && log[0].Dispatched? && log[1].Dispatched? && log[0].id == log[1].id
      && log[0].tick / MINUTE == log[1].tick / MINUTE
  {
    var daily := Schedule(Some(1), Some(0));
    var x := Automation(1, daily, true, 0, None, 0);
    var due, later := MINUTE, MINUTE + 1;
    assert IsDue(x, due) && IsDue(x, later);
    var create := [Create(daily, true, 0)];
    var s1 := State([x], 2, 0, None, []);
    assert Exec(Fresh(0), create) == s1 by {
      assert create[1..] == [] && [] + [x] == [x];
      assert Next(Fresh(0), create[0]) == s1;
    }
    ExecConcat(Fresh(0), create, FailedSweep(due));
    FailedSweepLeavesStore(s1, x, due);
    var s2 := Exec(s1, FailedSweep(due));
    ExecConcat(Fresh(0), create + FailedSweep(due), FailedSweep(later));
    FailedSweepLeavesStore(s2, x, later);
    acts := create + FailedSweep(due) + FailedSweep(later);
  }

  /** The store always tells how often each automation ran and when it last did. */
  lemma StoreTellsRuns(at: int, acts: seq<Act>, i: nat)
    requires i < |Exec(Fresh(at), acts).items|
    ensures var s := Exec(Fresh(at), acts); Tells(s.items[i], s.log)
  {
    InvRun(Fresh(at), acts);
  }

  // ---------------------------------------------------------------- what each step does

  /** What is due at `now`, told by the runs recorded so far: an interval that has passed since the last
    * run or the creation; the minute of the day that a schedule names, unless its last run is less
    * than a minute old. */
  predicate DueSince(x: Automation, runs: seq<int>, now: int) {
    match x.trigger
    case Interval(m) => now >= (if runs == [] then x.created else Last(runs)) + m * 60000
    case Schedule(minute, hour) =>
      && minute == Some(now / 60000 % 60) && hour == Some(now / 3600000 % 24)
      && now >= (if runs == [] then 0 else Last(runs)) + 60000
    case OnRequest => false
  }

  lemma DueIsDueSince(x: Automation, log: seq<Event>, now: int)
    requires Tells(x, log)
    ensures IsDue(x, now) <==> DueSince(x, Runs(log, x.id), now)
  {
  }

  /** Over every run: the sweep's next automation is dispatched iff it was enabled and due, as the runs
    * recorded so far have it; a look that dispatches nothing passes on, and the sweep ends behind the
    * last one. A tick looks at all that is in the store, unless a sweep is under way. */
  lemma LookDispatchesExactlyWhen(at: int, acts: seq<Act>, t: int)
    requires Enabled(Exec(Fresh(at), acts), Look(t))
    ensures
      var s := Exec(Fresh(at), acts);
      var w, s' := s.sweep.value, Next(s, Look(t));
      && s'.items == s.items
      && if w.rest == [] then s'.sweep.None? && s'.log == s.log
         else
           var x := w.rest[0];
           var fires := x.enabled && DueSince(x, Runs(s.log, x.id), w.now);
           && s'.sweep == Some(Sweep(w.now, w.rest[1..], if fires then Some(x) else None))
           && s'.log == s.log + (if fires then [Dispatched(x.id, x.trigger, w.now)] else [])
    ensures
      var s := Exec(Fresh(at), acts);
      Next(s, Tick(t)).sweep == if s.sweep.Some? then s.sweep else Some(Sweep(t, s.items, None))
  {
    InvRun(Fresh(at), acts);
    var s := Exec(Fresh(at), acts);
    if s.sweep.value.rest != [] {
      DueIsDueSince(s.sweep.value.rest[0], s.log, s.sweep.value.now);
    }
  }

  /** `x` is still to be looked at in the sweep that began at `now`, or has been dispatched in it. */
  ghost predicate Ahead(s: State, x: Automation, now: int) {
    || Dispatched(x.id, x.trigger, now) in s.log
    || (s.sweep.Some? && s.sweep.value.now == now && x in s.sweep.value.rest)
  }

  lemma AheadStep(s: State, a: Act, x: Automation, now: int)
    requires Enabled(s, a) && Ahead(s, x, now) && x.enabled && IsDue(x, now)
    ensures Ahead(Next(s, a), x, now)
  {
    hide IsDue;
    if a.Look? && s.sweep.value.rest != [] && s.sweep.value.rest[0] == x && s.sweep.value.now == now {
      assert Last(Next(s, a).log) == Dispatched(x.id, x.trigger, now);
    }
    assert forall e :: e in s.log ==> e in Next(s, a).log;
  }

  lemma {:induction false} AheadRun(s: State, acts: seq<Act>, x: Automation, now: int)
    requires Ahead(s, x, now) && x.enabled && IsDue(x, now)
    ensures Ahead(Exec(s, acts), x, now)
    decreases |acts|
  {
    hide IsDue;
    if acts != [] {
      if Enabled(s, acts[0]) {
        AheadStep(s, acts[0], x, now);
      }
      AheadRun(if Enabled(s, acts[0]) then Next(s, acts[0]) else s, acts[1..], x, now);
    }
  }

  /** No sweep passes over what is due: whatever happens meanwhile, and however dispatches end, when a
    * tick's sweep is over every automation that was enabled and due at the tick has been dispatched. */
  lemma EveryDueIsDispatched(at: int, before: seq<Act>, t: int, acts: seq<Act>, x: Automation)
    requires var s := Exec(Fresh(at), before);
      && s.sweep.None? && t >= s.clock && x in s.items && x.enabled && DueSince(x, Runs(s.log, x.id), t)
    requires Exec(Next(Exec(Fresh(at), before), Tick(t)), acts).sweep.None?
    ensures Dispatched(x.id, x.trigger, t) in Exec(Next(Exec(Fresh(at), before), Tick(t)), acts).log
  {
    InvRun(Fresh(at), before);
    var s := Exec(Fresh(at), before);
    DueIsDueSince(x, s.log, t);
    AheadRun(Next(s, Tick(t)), acts, x, t);
  }

  /** What a step makes of one automation of the store, if it keeps it. */
  ghost predicate Becomes(s: State, a: Act, x: Automation, y: Automation) {
    match a
    case Update(id, p, _) =>
      if x.id != id then y == x
      else
        && y.trigger == (if p.trigger.Some? then p.trigger.value else x.trigger)
        && y.enabled == (if p.enabled.Some? then p.enabled.value else x.enabled)
        && y.id == x.id && y.created == x.created && y.lastRun == x.lastRun && y.runCount == x.runCount
    case Delete(id, _) => x.id != id && y == x
    case Finish(ok, at) =>
      if !ok || s.sweep.None? || s.sweep.value.running.None? || s.sweep.value.running.value.id != x.id then y == x
      else
        && y.lastRun == Some(at) && y.runCount == x.runCount + 1
        && y.id == x.id && y.trigger == x.trigger && y.enabled == x.enabled && y.created == x.created
    case _ => y == x
  }

  lemma {:induction false} DeleteInKeeps(items: seq<Automation>, id: Id, x: Automation)
    requires DistinctIds(items)
    ensures x in DeleteIn(items, id) <==> x in items && x.id != id
    decreases |items|
  {
    if items != [] {
      assert items == [items[0]] + items[1..];
      if items[0].id == id {
        assert x in items[1..] ==> x.id != id;
      } else {
        DeleteInKeeps(items[1..], id, x);
      }
    }
  }

  lemma BecomesStep(s: State, a: Act, y: Automation)
    requires Inv(s) && Enabled(s, a)
    ensures y in Next(s, a).items <==>
      (exists x :: x in s.items && Becomes(s, a, x, y)) || (a.Create? && y == Last(Next(s, a).items))
  {
    hide Tells, LogOk, RunsSorted, IsDue;
    match a
    case Update(id, p, _) =>
      assert forall i :: 0 <= i < |s.items| ==> Becomes(s, a, s.items[i], UpdateIn(s.items, id, p)[i]);
    case Delete(id, _) => DeleteInKeeps(s.items, id, y);
    case Finish(ok, at) => FinishBecomes(s, ok, at);
    case _ =>
  }

  lemma FinishBecomes(s: State, ok: bool, at: int)
    requires Enabled(s, Finish(ok, at))
    ensures
      var items' := Next(s, Finish(ok, at)).items;
      |items'| == |s.items| && forall i :: 0 <= i < |s.items| ==> Becomes(s, Finish(ok, at), s.items[i], items'[i])
  {
  }

  /** What the store holds after a step of any run: a creation adds an enabled or disabled automation that
    * never ran, under the next number; an update changes what its patch names; a deletion takes out
    * that one automation; the end of a successful dispatch records a run; nothing else changes. */
  lemma StoreChangesExactly(at: int, acts: seq<Act>, a: Act, y: Automation)
    requires Enabled(Exec(Fresh(at), acts), a)
    ensures
      var s := Exec(Fresh(at), acts);
      && (y in Next(s, a).items <==>
            (exists x :: x in s.items && Becomes(s, a, x, y))
            || (a.Create? && y == Automation(s.nextId, a.trigger, a.enabled, a.at, None, 0)))
      && Next(s, a).nextId == s.nextId + (if a.Create? then 1 else 0)
      && (a.Create? ==> s.items < Next(s, a).items)
      && (!a.Create? && !a.Delete? ==>
            && |Next(s, a).items| == |s.items|
            && forall i :: 0 <= i < |s.items| ==> Next(s, a).items[i].id == s.items[i].id)
  {
    hide Inv;
    InvRun(Fresh(at), acts);
    BecomesStep(Exec(Fresh(at), acts), a, y);
  }

  // ---------------------------------------------------------------- the objects

  class AutomationService {
    var items: seq<Automation>
    var nextId: nat
    var clock: int
    var sweep: Option<Sweep>
    ghost var log: seq<Event>

    ghost function View(): State
      reads this
    {
      State(items, nextId, clock, sweep, log)
    }

    constructor (at: int)
      ensures View() == Fresh(at)
    {
      items, nextId, clock, sweep, log := [], 1, at, None, [];
    }

    method AddAutomation(trigger: Trigger, enabled: bool, at: int) returns (a: Automation)
      requires at >= clock
      modifies this
      ensures View() == Next(old(View()), Create(trigger, enabled, at))
      ensures items == old(items) + [a]
    {
      clock := at;
      a := Automation(nextId, trigger, enabled, at, None, 0);
      nextId := nextId + 1;
      items := items + [a];
    }

    /** The position of an entry. */
    method Find(id: Id) returns (i: nat)
      requires DistinctIds(items)
      ensures i <= |items| && (i < |items| <==> Has(items, id)) && (i < |items| ==> items[i].id == id)
      ensures forall j :: 0 <= j < |items| && j != i ==> items[j].id != id
    {
      i := 0;
      while i < |items| && items[i].id != id
        invariant i <= |items|
        invariant forall j :: 0 <= j < i ==> items[j].id != id
      {
        i := i + 1;
      }
    }

    method UpdateAutomation(id: Id, patch: Patch, at: int) returns (known: bool)
      requires at >= clock && DistinctIds(items)
      modifies this
      ensures View() == Next(old(View()), Update(id, patch, at))
      ensures known <==> Has(old(items), id)
    {
      clock := at;
      var i := Find(id);
      known := i < |items|;
      if known {
        items := items[i := Patched(items[i], patch)];
      }
      assert items == UpdateIn(old(items), id, patch);
    }

    method DeleteAutomation(id: Id, at: int) returns (known: bool)
      requires at >= clock && DistinctIds(items)
      modifies this
      ensures View() == Next(old(View()), Delete(id, at))
      ensures known <==> Has(old(items), id)
    {
      clock := at;
      var i := Find(id);
      known := i < |items|;
      DeleteAt(items, id, i);
      if known {
        items := items[..i] + items[i + 1..];
      }
    }

    method BeginTick(at: int)
      requires at >= clock
      modifies this
      ensures View() == Next(old(View()), Tick(at))
    {
      clock := at;
      if sweep.None? {
        sweep := Some(Sweep(at, items, None));
      }
    }

    /** Goes on to the next automation that is due and dispatches it, or ends the sweep. */
    method Advance(at: int) returns (fired: Option<Automation>)
      requires at >= clock && sweep.Some? && sweep.value.running.None?
      modifies this
      ensures View() == Scan(old(View()).(clock := at))
      ensures fired.Some? <==> sweep.Some?
      ensures fired.Some? ==> sweep.value.running == fired
    {
      clock := at;
      ghost var start := View();
      var w := sweep.value;
      while w.rest != []
        invariant sweep == Some(w) && w.running.None?
        invariant Scan(start) == Scan(View())
        decreases |w.rest|
      {
        var x := w.rest[0];
        w := w.(rest := w.rest[1..]);
        if x.enabled && IsDue(x, w.now) {
          sweep := Some(w.(running := Some(x)));
          log := log + [Dispatched(x.id, x.trigger, w.now)];
          return Some(x);
        }
        sweep := Some(w);
      }
      sweep := None;
      return None;
    }

    /** The dispatch ended; a failed one is not recorded. */
    method DispatchEnds(ok: bool, at: int)
      requires at >= clock && sweep.Some? && sweep.value.running.Some? && DistinctIds(items)
      modifies this
      ensures View() == Next(old(View()), Finish(ok, at))
    {
      clock := at;
      var id := sweep.value.running.value.id;
      sweep := Some(sweep.value.(running := None));
      if !ok {
        return;
      }
      var i := Find(id);
      if i < |items| {
        items := items[i := items[i].(lastRun := Some(at), runCount := items[i].runCount + 1)];
        assert items == RecordIn(old(items), id, at);
        log := log + [Recorded(id, at)];
      }
    }
  }

  /** Looking on until something is dispatched or the sweep is over. */
  function Scan(s: State): State
    requires s.sweep.Some? && s.sweep.value.running.None?
    decreases |s.sweep.value.rest|
  {
    var t := LookNext(s);
    if t.sweep.Some? && t.sweep.value.running.None? then Scan(t) else t
  }

  /** That is a run of the machine: it looks, at one and the same time, until something runs or the
    * sweep is over. */
  lemma {:induction false} ScanIsSteps(s: State) returns (acts: seq<Act>)
    requires s.sweep.Some? && s.sweep.value.running.None?
    ensures Exec(s, acts) == Scan(s) && forall a :: a in acts ==> a == Look(s.clock)
    decreases |s.sweep.value.rest|
  {
    var t := LookNext(s);
    assert Next(s, Look(s.clock)) == t;
    if t.sweep.Some? && t.sweep.value.running.None? {
      var rest := ScanIsSteps(t);
      acts := [Look(s.clock)] + rest;
    } else {
      acts := [Look(s.clock)];
      assert acts[1..] == [] && Exec(t, []) == t;
    }
  }

  lemma {:induction false} DeleteAt(items: seq<Automation>, id: Id, i: nat)
    requires i <= |items| && (forall j :: 0 <= j < i ==> items[j].id != id) && (i < |items| ==> items[i].id == id)
    ensures DeleteIn(items, id) == if i < |items| then items[..i] + items[i + 1..] else items
    decreases i
  {
    if i > 0 {
      DeleteAt(items[1..], id, i - 1);
      assert items == [items[0]] + items[1..];
      if i < |items| {
        assert items[..i] + items[i + 1..] == [items[0]] + (items[1..][..i - 1] + items[1..][i..]);
      }
    }
  }
}
