/** In what order agent messages wait and are taken, and what each step of the recipient's queue and
  * wakes does with them. The machine is that of `AgentMessaging`.
  */
module MessageOrder {
  import opened Prelude
  import opened AgentMessaging
  import R = RunScheduler

  // ---------------------------------------------------------------- the order

  /** New priority messages go before priority messages that came back from a batch, then come the
    * other messages that came back, then the new ones. */
  function Rank(m: Msg): nat {
    if m.priority then (if m.displayed then 1 else 0) else if m.displayed then 2 else 3
  }

  /** `a` may stand before `b`: of new priority messages the latest is first, of other new messages
    * the earliest. */
  predicate MayPrecede(a: Msg, b: Msg) {
    && Rank(a) <= Rank(b)
    && (Rank(a) == 0 && Rank(b) == 0 ==> a.id > b.id)
    && (Rank(a) == 3 && Rank(b) == 3 ==> a.id < b.id)
  }

  ghost predicate Ordered(ms: seq<Msg>) {
    forall i, j :: 0 <= i < j < |ms| ==> MayPrecede(ms[i], ms[j])
  }

  /** Every message carries the priority it was sent with, `flags[id]`, and one marked as displayed has
    * a transcript entry. */
  ghost predicate True(ms: seq<Msg>, flags: seq<bool>, entries: seq<nat>) {
    forall m :: m in ms ==> m.id < |flags| && m.priority == flags[m.id] && (m.displayed ==> m.id in entries)
  }

  ghost predicate Entered(ms: seq<Msg>, entries: seq<nat>) {
    forall m :: m in ms ==> m.id in entries
  }

  lemma OrderedConcat(a: seq<Msg>, b: seq<Msg>)
    requires Ordered(a) && Ordered(b)
    requires forall x, y :: x in a && y in b ==> MayPrecede(x, y)
    ensures Ordered(a + b)
  {
  }

  lemma OrderedIsPriorityFirst(ms: seq<Msg>)
    requires Ordered(ms)
    ensures PriorityFirst(ms) && ms == PriorityOf(ms) + RestOf(ms) && Prioritize(ms) == ms
    ensures Ordered(PriorityOf(ms)) && Ordered(RestOf(ms))
  {
    forall i, j | 0 <= i < j < |ms| && ms[j].priority
      ensures ms[i].priority
    {
      assert MayPrecede(ms[i], ms[j]);
    }
    PriorityFirstSplits(ms);
    var k := |PriorityOf(ms)|;
    assert PriorityOf(ms) == ms[..k] && RestOf(ms) == ms[k..];
  }

  lemma OrderedSend(ms: seq<Msg>, m: Msg)
    requires Ordered(ms) && !m.displayed && forall x :: x in ms ==> x.id < m.id
    ensures Ordered(QueueAfterSend(ms, m))
  {
    OrderedConcat(if m.priority then [m] else ms, if m.priority then ms else [m]);
  }

  ghost predicate AllDisplayed(ms: seq<Msg>) {
    forall m :: m in ms ==> m.displayed
  }

  lemma ConcatByRank(a: seq<Msg>, b: seq<Msg>, k: nat)
    requires Ordered(a) && Ordered(b) && 1 <= k <= 2
    requires (forall x :: x in a ==> Rank(x) <= k) && forall y :: y in b ==> Rank(y) >= k
    ensures Ordered(a + b)
  {
    OrderedConcat(a, b);
  }

  lemma SameRank(ms: seq<Msg>, k: nat)
    requires 1 <= k <= 2 && forall m :: m in ms ==> Rank(m) == k
    ensures Ordered(ms)
  {
  }

  lemma OrderedMerge(queued: seq<Msg>, deferred: seq<Msg>)
    requires Ordered(queued) && AllDisplayed(deferred)
    ensures Ordered(MergeQueues(queued, deferred))
  {
    hide PriorityOf, RestOf, Ordered;
    var pq, pd, rd, rq := PriorityOf(queued), PriorityOf(deferred), RestOf(deferred), RestOf(queued);
    OrderedIsPriorityFirst(queued);
    Sorts(queued);
    Sorts(deferred);
    SameRank(pd, 1);
    SameRank(rd, 2);
    ConcatByRank(pq, pd, 1);
    ConcatByRank(pq + pd, rd, 2);
    ConcatByRank(pq + pd + rd, rq, 2);
  }

  lemma Sorts(ms: seq<Msg>)
    ensures forall m :: m in PriorityOf(ms) ==> m in ms && m.priority
    ensures forall m :: m in RestOf(ms) ==> m in ms && !m.priority
  {
    PickedFrom(ms);
    FilterElements(ms);
    assert forall m :: m in PriorityOf(ms) ==> m.priority;
    assert forall m :: m in RestOf(ms) ==> !m.priority;
  }

  lemma {:induction false} SortedContents(ms: seq<Msg>)
    ensures multiset(PriorityOf(ms)) + multiset(RestOf(ms)) == multiset(ms)
    decreases |ms|
  {
    if ms != [] {
      SortedContents(Front(ms));
      assert ms == Front(ms) + [Last(ms)];
    }
  }

  lemma InMerge(queued: seq<Msg>, deferred: seq<Msg>, m: Msg)
    ensures m in MergeQueues(queued, deferred) <==> m in queued || m in deferred
  {
    SortedContents(queued);
    SortedContents(deferred);
    assert m in queued <==> m in multiset(PriorityOf(queued)) + multiset(RestOf(queued));
    assert m in deferred <==> m in multiset(PriorityOf(deferred)) + multiset(RestOf(deferred));
  }

  lemma InPrioritize(ms: seq<Msg>, m: Msg)
    ensures m in Prioritize(ms) <==> m in ms
  {
    SortedContents(ms);
    assert m in ms <==> m in multiset(PriorityOf(ms)) + multiset(RestOf(ms));
  }

  lemma {:induction false} InNotRedriven(ms: seq<Msg>, m: Msg)
    ensures m in NotRedriven(ms) <==> m in ms && !m.redriven
    decreases |ms|
  {
    if ms != [] {
      InNotRedriven(Front(ms), m);
      assert ms == Front(ms) + [Last(ms)];
    }
  }

  lemma InDisplayed(ms: seq<Msg>, m: Msg)
    ensures m in Displayed(ms) <==> exists x :: x in ms && m == x.(displayed := true)
  {
    forall x | x in ms
      ensures x.(displayed := true) in Displayed(ms)
    {
      var k :| 0 <= k < |ms| && ms[k] == x;
      assert Displayed(ms)[k] == x.(displayed := true);
    }
  }

  lemma InRedriven(ms: seq<Msg>, m: Msg)
    ensures m in Redriven(NotRedriven(ms)) <==>
      exists x :: x in ms && !x.redriven && m == x.(displayed := true, redriven := true)
  {
    var kept := NotRedriven(ms);
    forall x | x in kept
      ensures x.(displayed := true, redriven := true) in Redriven(kept)
    {
      var k :| 0 <= k < |kept| && kept[k] == x;
      assert Redriven(kept)[k] == x.(displayed := true, redriven := true);
    }
    forall x: Msg
      ensures x in kept <==> x in ms && !x.redriven
    {
      InNotRedriven(ms, x);
    }
  }

  // ---------------------------------------------------------------- over a run

  /** The priorities of the messages sent in a run, in order. */
  function Flags(acts: seq<Act>): seq<bool> {
    if acts == [] then [] else (if acts[0].Send? then [acts[0].priority] else []) + Flags(acts[1..])
  }

  ghost predicate QueueOk(ms: seq<Msg>, flags: seq<bool>, entries: seq<nat>) {
    Ordered(ms) && True(ms, flags, entries)
  }

  ghost predicate ReviverOk(r: Reviver, flags: seq<bool>, entries: seq<nat>) {
    && (r.Fetching? || r.Appending? ==> QueueOk(r.batch, flags, entries))
    && (r.Appending? ==> r.next <= |r.batch| && Entered(r.batch[..r.next], entries))
  }

  ghost predicate WakeOk(w: Wake, flags: seq<bool>, entries: seq<nat>, log: seq<R.Event>) {
    && QueueOk(w.batch, flags, entries) && Entered(w.batch, entries)
    && R.Enqueued(w.task, R.Agent) in log
  }

  ghost predicate OrderInv(s: Sys, flags: seq<bool>) {
    && s.sent == |flags|
    && QueueOk(s.pending, flags, s.entries)
    && ReviverOk(s.reviver, flags, s.entries)
    && (forall n :: 0 <= n < |s.wakes| ==> WakeOk(s.wakes[n], flags, s.entries, s.q.log))
    && (forall id :: id in s.ran ==> id in s.entries)
  }

  /** More flags, entries and events keep what held. */
  lemma StillOk(ms: seq<Msg>, flags: seq<bool>, entries: seq<nat>, flags': seq<bool>, entries': seq<nat>)
    requires QueueOk(ms, flags, entries) && flags <= flags' && entries <= entries'
    ensures QueueOk(ms, flags', entries')
  {
  }

  lemma SendOk(ms: seq<Msg>, flags: seq<bool>, entries: seq<nat>, priority: bool)
    requires QueueOk(ms, flags, entries)
    ensures QueueOk(QueueAfterSend(ms, Msg(|flags|, priority, false, false)), flags + [priority], entries)
  {
    var m := Msg(|flags|, priority, false, false);
    OrderedSend(ms, m);
    StillOk(ms, flags, entries, flags + [priority], entries);
    assert forall x :: x in QueueAfterSend(ms, m) ==> x == m || x in ms;
  }

  lemma MergeOk(queued: seq<Msg>, deferred: seq<Msg>, flags: seq<bool>, entries: seq<nat>)
    requires QueueOk(queued, flags, entries) && True(deferred, flags, entries) && AllDisplayed(deferred)
    ensures QueueOk(MergeQueues(queued, deferred), flags, entries)
  {
    OrderedMerge(queued, deferred);
    MergedFrom(queued, deferred);
  }

  lemma DisplayedOk(ms: seq<Msg>, flags: seq<bool>, entries: seq<nat>)
    requires True(ms, flags, entries) && Entered(ms, entries)
    ensures True(Displayed(ms), flags, entries) && AllDisplayed(Displayed(ms))
  {
    forall m | m in Displayed(ms)
      ensures m.displayed && m.id < |flags| && m.priority == flags[m.id] && m.id in entries
    {
      InDisplayed(ms, m);
    }
  }

  lemma RedrivenOk(ms: seq<Msg>, flags: seq<bool>, entries: seq<nat>)
    requires True(ms, flags, entries) && Entered(ms, entries)
    ensures var r := Redriven(NotRedriven(ms)); True(r, flags, entries) && AllDisplayed(r)
  {
    forall m | m in Redriven(NotRedriven(ms))
      ensures m.displayed && m.id < |flags| && m.priority == flags[m.id] && m.id in entries
    {
      InRedriven(ms, m);
    }
  }

  lemma HandBackOk(w: Wake, i: nat, flags: seq<bool>, entries: seq<nat>, log: seq<R.Event>)
    requires WakeOk(w, flags, entries, log) && i <= |w.batch|
    ensures var d := Displayed(w.batch[i..]); True(d, flags, entries) && AllDisplayed(d)
    ensures var r := Redriven(NotRedriven(w.batch[i..])); True(r, flags, entries) && AllDisplayed(r)
  {
    hide Ordered;
    var rest := w.batch[i..];
    assert forall m :: m in rest ==> m in w.batch;
    DisplayedOk(rest, flags, entries);
    RedrivenOk(rest, flags, entries);
  }

  lemma PendingOrder(s: Sys, act: Act, flags: seq<bool>)
    requires SysInv(s) && OrderInv(s, flags) && Allowed(s, act) && !act.Send?
    ensures QueueOk(Perform(s, act).pending, flags, Perform(s, act).entries)
  {
    hide PriorityOf, RestOf, NotRedriven, AlreadyRedriven, QueueOk, BatchesOk, WakesOk, R.Inv;
    match act
    case TurnEnds(n, _) =>
      var i := s.wakes[n].phase.index;
      HandBackOk(s.wakes[n], i + 1, flags, s.entries, s.q.log);
      MergeOk(s.pending, Displayed(s.wakes[n].batch[i + 1..]), flags, s.entries);
    case GoneAnswered(n, _) =>
      var i := s.wakes[n].phase.index;
      HandBackOk(s.wakes[n], i, flags, s.entries, s.q.log);
      MergeOk(s.pending, Redriven(NotRedriven(s.wakes[n].batch[i..])), flags, s.entries);
    case AppendEntry(_) => StillOk(s.pending, flags, s.entries, flags, Perform(s, act).entries);
    case Resume => NothingIsOk(flags, s.entries);
    case _ =>
  }

  lemma NothingIsOk(flags: seq<bool>, entries: seq<nat>)
    ensures QueueOk([], flags, entries)
  {
  }

  lemma SendOrder(s: Sys, priority: bool, flags: seq<bool>)
    requires SysInv(s) && OrderInv(s, flags)
    ensures var s' := Perform(s, Send(priority)); var flags' := flags + [priority];
      QueueOk(s'.pending, flags', s'.entries) && ReviverOk(s'.reviver, flags', s'.entries)
  {
    hide PriorityOf, RestOf, QueueOk, BatchesOk, WakesOk, R.Inv;
    var flags' := flags + [priority];
    var pending := QueueAfterSend(s.pending, Msg(s.sent, priority, false, false));
    SendOk(s.pending, flags, s.entries, priority);
    NothingIsOk(flags', s.entries);
    TakenWhole(pending, flags', s.entries);
    if s.reviver.Fetching? || s.reviver.Appending? {
      StillOk(s.reviver.batch, flags, s.entries, flags', s.entries);
    }
  }

  lemma TakenWhole(ms: seq<Msg>, flags: seq<bool>, entries: seq<nat>)
    requires QueueOk(ms, flags, entries)
    ensures Prioritize(ms) == ms
  {
    OrderedIsPriorityFirst(ms);
  }

  lemma ReviverOrder(s: Sys, act: Act, flags: seq<bool>)
    requires SysInv(s) && OrderInv(s, flags) && Allowed(s, act) && !act.Send?
    ensures ReviverOk(Perform(s, act).reviver, flags, Perform(s, act).entries)
  {
    hide PriorityOf, RestOf, NotRedriven, AlreadyRedriven, QueueOk, BatchesOk, WakesOk, R.Inv;
    match act
    case Resume => TakenWhole(s.pending, flags, s.entries);
    case AppendEntry(_) => AppendOrder(s, act, flags);
    case _ =>
  }

  lemma AppendOrder(s: Sys, act: Act, flags: seq<bool>)
    requires SysInv(s) && OrderInv(s, flags) && Allowed(s, act) && act.AppendEntry?
    ensures ReviverOk(Perform(s, act).reviver, flags, Perform(s, act).entries)
  {
    var r, s' := s.reviver, Perform(s, act);
    var m := r.batch[r.next];
    StillOk(r.batch, flags, s.entries, flags, s'.entries);
    assert r.batch[..r.next + 1] == r.batch[..r.next] + [m];
    assert m in r.batch;
  }

  lemma WakeOrder(s: Sys, act: Act, flags: seq<bool>, flags': seq<bool>, n: nat)
    requires SysInv(s) && OrderInv(s, flags) && Allowed(s, act) && n < |Perform(s, act).wakes| && flags <= flags'
    ensures var s' := Perform(s, act); WakeOk(s'.wakes[n], flags', s'.entries, s'.q.log)
  {
    var s' := Perform(s, act);
    WakeChange(s, act, n);
    QueueChange(s, act);
    EntriesGrow(s, act);
    hide Perform, R.Inv, BatchesOk, WakesOk, WellFormed, QueueOk;
    if n == |s.wakes| {
      NewWake(s, flags);
      StillOk(s.reviver.batch, flags, s.entries, flags', s'.entries);
    } else {
      StillOk(s.wakes[n].batch, flags, s.entries, flags', s'.entries);
    }
  }

  lemma NewWake(s: Sys, flags: seq<bool>)
    requires SysInv(s) && OrderInv(s, flags) && Allowed(s, EnqueueWake)
    ensures var s' := Perform(s, EnqueueWake);
      && Entered(s.reviver.batch, s.entries) && R.Enqueued(s.q.next, R.Agent) in s'.q.log
      && QueueOk(s.reviver.batch, flags, s.entries)
  {
    assert s.reviver.batch[..|s.reviver.batch|] == s.reviver.batch;
    R.LogChange(s.q, R.Enqueue(R.Agent));
    assert Last(s.q.log + [R.Enqueued(s.q.next, R.Agent)]) == R.Enqueued(s.q.next, R.Agent);
  }

  lemma EntriesGrow(s: Sys, act: Act)
    requires WellFormed(s) && Allowed(s, act)
    ensures s.entries <= Perform(s, act).entries
  {
    hide PriorityOf, RestOf, NotRedriven, AlreadyRedriven, R.Next, HasPriority;
  }

  /** The turns that a step begins: a wake's first one, or the next one unless a priority message
    * waits. */
  ghost predicate Begins(s: Sys, act: Act, ids: seq<nat>)
    requires WellFormed(s) && Allowed(s, act)
  {
    match act
    case StartWake(n) => ids == [s.wakes[n].batch[0].id]
    case TurnEnds(n, Completed) =>
      var batch, next := s.wakes[n].batch, s.wakes[n].phase.index + 1;
      if next < |batch| && forall m :: m in s.pending ==> !m.priority then ids == [batch[next].id] else ids == []
    case _ => ids == []
  }

  /** The phase a step leaves its wake in. */
  ghost predicate PhaseIsRight(s: Sys, act: Act, p: Phase)
    requires WellFormed(s) && Allowed(s, act) && (act.StartWake? || act.TurnEnds? || act.GoneAnswered?)
  {
    match act
    case StartWake(n) => p == Turn(0)
    case TurnEnds(n, Aborted) => p == Asking(s.wakes[n].phase.index)
    case TurnEnds(n, Completed) => if Begins(s, act, []) then p == Over else p == Turn(s.wakes[n].phase.index + 1)
    case _ => p == Over
  }

  lemma BeginStep(s: Sys, act: Act) returns (ids: seq<nat>)
    requires WellFormed(s) && Allowed(s, act)
    ensures Begins(s, act, ids) && Perform(s, act).ran == s.ran + ids
    ensures act.StartWake? || act.TurnEnds? || act.GoneAnswered? ==>
      act.n < |Perform(s, act).wakes| && PhaseIsRight(s, act, Perform(s, act).wakes[act.n].phase)
  {
    hide PriorityOf, RestOf, NotRedriven, AlreadyRedriven, R.Next, IdsOf;
    ids := Perform(s, act).ran[|s.ran|..];
  }

  lemma RanOrder(s: Sys, act: Act, flags: seq<bool>)
    requires SysInv(s) && OrderInv(s, flags) && Allowed(s, act)
    ensures forall id :: id in Perform(s, act).ran ==> id in Perform(s, act).entries
  {
    EntriesGrow(s, act);
    var ids := BeginStep(s, act);
    hide Perform, R.Inv, BatchesOk, WakesOk, QueueOk, Ordered;
    forall id | id in ids
      ensures id in s.entries
    {
      assert WakeOk(s.wakes[act.n], flags, s.entries, s.q.log);
    }
  }

  lemma OrderStep(s: Sys, act: Act, flags: seq<bool>)
    requires SysInv(s) && OrderInv(s, flags) && Allowed(s, act)
    ensures OrderInv(Perform(s, act), flags + (if act.Send? then [act.priority] else []))
  {
    hide WakesOk, BatchesOk, R.Inv, QueueOk, ReviverOk, WakeOk, Perform, Allowed;
    var s' := Perform(s, act);
    var flags' := flags + (if act.Send? then [act.priority] else []);
    RanOrder(s, act, flags);
    SentStep(s, act);
    if act.Send? {
      SendOrder(s, act.priority, flags);
    } else {
      assert flags' == flags;
      PendingOrder(s, act, flags);
      ReviverOrder(s, act, flags);
    }
    forall n | 0 <= n < |s'.wakes|
      ensures WakeOk(s'.wakes[n], flags', s'.entries, s'.q.log)
    {
      WakeOrder(s, act, flags, flags', n);
    }
  }

  lemma SentStep(s: Sys, act: Act)
    requires SysInv(s) && Allowed(s, act)
    ensures Perform(s, act).sent == s.sent + (if act.Send? then 1 else 0)
  {
    hide PriorityOf, RestOf, NotRedriven, AlreadyRedriven, R.Next, HasPriority;
  }

  lemma {:induction false} OrderRun(s: Sys, acts: seq<Act>, flags: seq<bool>)
    requires SysInv(s) && OrderInv(s, flags) && Exec(s, acts).Some?
    ensures SysInv(Exec(s, acts).value) && OrderInv(Exec(s, acts).value, flags + Flags(acts))
    decreases |acts|
  {
    hide SysInv, OrderInv, Perform, Allowed;
    if acts == [] {
      assert flags + Flags(acts) == flags;
    } else {
      var more := if acts[0].Send? then [acts[0].priority] else [];
      SysStep(s, acts[0]);
      OrderStep(s, acts[0], flags);
      OrderRun(Perform(s, acts[0]), acts[1..], flags + more);
      assert flags + more + Flags(acts[1..]) == flags + Flags(acts);
    }
  }

  lemma OrderAtStart()
    ensures SysInv(INITIAL) && OrderInv(INITIAL, [])
  {
    InitOk();
  }

  // ---------------------------------------------------------------- theorems

  /** The scheduler actions of a run, in order. */
  ghost function QueueActions(s: Sys, acts: seq<Act>): seq<R.Action>
    decreases |acts|
  {
    if acts == [] || !Allowed(s, acts[0]) || !WellFormed(s) then []
    else
      var a := QueueAction(s, acts[0]);
      (if a.Some? then [a.value] else []) + QueueActions(Perform(s, acts[0]), acts[1..])
  }

  lemma {:induction false} QueueFollowsRun(s: Sys, acts: seq<Act>)
    requires SysInv(s) && Exec(s, acts).Some?
    ensures R.Exec(s.q, QueueActions(s, acts)) == Some(Exec(s, acts).value.q)
    decreases |acts|
  {
    hide SysInv, Perform, Allowed, WellFormed, R.Next, R.Enabled;
    if acts != [] {
      var s' := Perform(s, acts[0]);
      var a, rest := QueueAction(s, acts[0]), QueueActions(s', acts[1..]);
      SysStep(s, acts[0]);
      QueueChange(s, acts[0]);
      QueueFollowsRun(s', acts[1..]);
      if a.Some? {
        assert QueueActions(s, acts)[0] == a.value && QueueActions(s, acts)[1..] == rest;
      } else {
        assert QueueActions(s, acts) == rest;
      }
    }
  }

  /** The queue of a run is what the scheduler makes of the run's scheduler actions: wakes are enqueued
    * on the agent lane, started and finished, everything else is the scheduler's own. */
  lemma QueueIsTheSchedulers(acts: seq<Act>)
    requires Exec(INITIAL, acts).Some?
    ensures R.Exec(R.Empty(false), QueueActions(INITIAL, acts)) == Some(Exec(INITIAL, acts).value.q)
  {
    hide SysInv;
    InitOk();
    QueueFollowsRun(INITIAL, acts);
  }

  /** The batch the reviver has in hand before its wake is queued. */
  function InHand(r: Reviver): seq<Msg> {
    if r.Fetching? || r.Appending? then r.batch else []
  }

  /** Over every run, in the waiting queue, in the batch that the reviver has taken and in every wake:
    * messages stand in the order of their ranks, new priority messages latest first, other new ones
    * earliest first, each with the priority it was sent with. What has come back, and what had a
    * turn, has a transcript entry, and wakes are tasks of the agent lane. */
  lemma MessagesWaitInOrder(acts: seq<Act>)
    requires Exec(INITIAL, acts).Some?
    ensures
      var s := Exec(INITIAL, acts).value;
      && s.sent == |Flags(acts)|
      && Ordered(s.pending) && True(s.pending, Flags(acts), s.entries)
      && Ordered(InHand(s.reviver)) && True(InHand(s.reviver), Flags(acts), s.entries)
      && (forall n :: 0 <= n < |s.wakes| ==>
            && Ordered(s.wakes[n].batch) && True(s.wakes[n].batch, Flags(acts), s.entries)
            && Entered(s.wakes[n].batch, s.entries) && R.Enqueued(s.wakes[n].task, R.Agent) in s.q.log)
      && (forall id :: id in s.ran ==> id in s.entries)
  {
    hide Exec, SysInv;
    OrderAtStart();
    OrderRun(INITIAL, acts, []);
    assert [] + Flags(acts) == Flags(acts);
    var s := Exec(INITIAL, acts).value;
    assert forall n :: 0 <= n < |s.wakes| ==> WakeOk(s.wakes[n], Flags(acts), s.entries, s.q.log);
  }

  /** Turns are begun one at a time and in batch order: the first when the wake starts, the next when
    * one has ended un-aborted and no priority message waits, and no others. */
  lemma TurnsBeginExactlyWhen(acts: seq<Act>, act: Act) returns (ids: seq<nat>)
    requires Exec(INITIAL, acts).Some? && Allowed(Exec(INITIAL, acts).value, act)
    ensures var s := Exec(INITIAL, acts).value;
      && WellFormed(s) && Begins(s, act, ids) && Perform(s, act).ran == s.ran + ids
      && (act.StartWake? || act.TurnEnds? || act.GoneAnswered? ==>
            act.n < |Perform(s, act).wakes| && PhaseIsRight(s, act, Perform(s, act).wakes[act.n].phase))
  {
    hide Exec, Perform, Allowed;
    InitOk();
    SysRun(INITIAL, acts);
    ids := BeginStep(Exec(INITIAL, acts).value, act);
  }

  /** A step takes the whole queue: the reviver comes back, or a send finds none. */
  predicate Takes(s: Sys, act: Act) {
    act.Resume? || (act.Send? && s.reviver.Absent?)
  }

  /** A step puts `m` into the queue: it is new, it waits behind a turn that a priority message cuts
    * off, or it is left over from an abort and had not come back from one before. */
  ghost predicate Puts(s: Sys, act: Act, m: Msg)
    requires WellFormed(s) && Allowed(s, act)
  {
    match act
    case Send(priority) => m == Msg(s.sent, priority, false, false)
    case TurnEnds(n, Completed) =>
      && (exists p :: p in s.pending && p.priority)
      && exists x :: x in s.wakes[n].batch[s.wakes[n].phase.index + 1..] && m == x.(displayed := true)
    case GoneAnswered(n, IsPresent) =>
      exists x :: x in s.wakes[n].batch[s.wakes[n].phase.index..] && !x.redriven
        && m == x.(displayed := true, redriven := true)
    case _ => false
  }

  /** What the reviver has in hand after a step. */
  ghost predicate ReviverIsRight(s: Sys, act: Act, r: Reviver, m: Msg)
    requires WellFormed(s) && Allowed(s, act)
  {
    if Takes(s, act) then m in InHand(r) <==> m in s.pending || Puts(s, act, m)
    else m in InHand(r) ==> m in InHand(s.reviver)
  }

  lemma QueueStep(s: Sys, act: Act, m: Msg)
    requires WellFormed(s) && Allowed(s, act)
    ensures m in Perform(s, act).pending <==> !Takes(s, act) && (m in s.pending || Puts(s, act, m))
    ensures ReviverIsRight(s, act, Perform(s, act).reviver, m)
  {
    hide PriorityOf, RestOf, NotRedriven, AlreadyRedriven, Displayed, R.Next, MergeQueues, Prioritize;
    match act
    case Send(priority) =>
      InPrioritize(QueueAfterSend(s.pending, Msg(s.sent, priority, false, false)), m);
    case Resume => InPrioritize(s.pending, m);
    case TurnEnds(n, r) =>
      if r.Completed? {
        var rest := s.wakes[n].batch[s.wakes[n].phase.index + 1..];
        InMerge(s.pending, Displayed(rest), m);
        InDisplayed(rest, m);
      }
    case GoneAnswered(n, answer) =>
      if answer.IsPresent? {
        var rest := s.wakes[n].batch[s.wakes[n].phase.index..];
        InMerge(s.pending, Redriven(NotRedriven(rest)), m);
        InRedriven(rest, m);
        assert NotRedriven(rest) == [] ==> Redriven(NotRedriven(rest)) == [];
      }
    case _ =>
  }

  /** What is in the queue after a step of a run, and in the reviver's hands: a step that takes takes
    * all, and messages are put into the queue only when sent, or handed back by a wake. */
  lemma QueueChangesExactly(acts: seq<Act>, act: Act, m: Msg)
    requires Exec(INITIAL, acts).Some? && Allowed(Exec(INITIAL, acts).value, act)
    ensures var s := Exec(INITIAL, acts).value;
      && WellFormed(s)
      && (m in Perform(s, act).pending <==> !Takes(s, act) && (m in s.pending || Puts(s, act, m)))
      && ReviverIsRight(s, act, Perform(s, act).reviver, m)
  {
    hide Exec, Perform, Allowed;
    InitOk();
    SysRun(INITIAL, acts);
    QueueStep(Exec(INITIAL, acts).value, act, m);
  }

  /** A step writes into the histories exactly what it does: a turn that ends un-aborted is completed, a
    * successful append enters a message that was not displayed, an abort hands back what it puts. */
  ghost predicate Records(s: Sys, act: Act, s': Sys)
    requires WellFormed(s) && Allowed(s, act)
  {
    && (var ends := act.TurnEnds? && act.result.Completed?;
        s'.completed == s.completed + (if ends then [Remainder(s, act.n)[0].id] else []))
    && (var enters := act == AppendEntry(true) && !s.reviver.batch[s.reviver.next].displayed;
        s'.entries == s.entries + (if enters then [s.reviver.batch[s.reviver.next].id] else []))
    && (forall id :: id in s'.handed <==>
          id in s.handed || (act.GoneAnswered? && exists m :: Puts(s, act, m) && m.id == id))
  }

  lemma RecordStep(s: Sys, act: Act)
    requires WellFormed(s) && Allowed(s, act)
    ensures Records(s, act, Perform(s, act))
  {
    hide PriorityOf, RestOf, NotRedriven, AlreadyRedriven, R.Next, MergeQueues, Prioritize;
    var s' := Perform(s, act);
    if act.GoneAnswered? && act.answer.IsPresent? {
      HandedAre(s, act);
      var kept := IdsOf(NotRedriven(Remainder(s, act.n)));
      assert NotRedriven(Remainder(s, act.n)) == [] ==> kept == {};
      assert s'.handed == s.handed + kept;
    } else {
      assert s'.handed == s.handed;
    }
    if act.AppendEntry? {
      assert s'.entries == s.entries || s'.entries == s.entries + [s.reviver.batch[s.reviver.next].id];
    } else {
      assert s'.entries == s.entries;
    }
  }

  lemma HandedAre(s: Sys, act: Act)
    requires WellFormed(s) && Allowed(s, act) && act.GoneAnswered? && act.answer.IsPresent?
    ensures forall id :: id in IdsOf(NotRedriven(Remainder(s, act.n))) <==> exists m :: Puts(s, act, m) && m.id == id
  {
    var rest := Remainder(s, act.n);
    forall x: Msg
      ensures x in NotRedriven(rest) <==> x in rest && !x.redriven
    {
      InNotRedriven(rest, x);
    }
    forall x | x in rest && !x.redriven
      ensures Puts(s, act, x.(displayed := true, redriven := true))
    {
    }
    hide NotRedriven;
    forall id | id in IdsOf(NotRedriven(rest))
      ensures exists m :: Puts(s, act, m) && m.id == id
    {
      var x :| x in NotRedriven(rest) && x.id == id;
      assert Puts(s, act, x.(displayed := true, redriven := true));
    }
  }

  lemma HistoriesAreRight(acts: seq<Act>, act: Act)
    requires Exec(INITIAL, acts).Some? && Allowed(Exec(INITIAL, acts).value, act)
    ensures var s := Exec(INITIAL, acts).value;
      WellFormed(s) && Records(s, act, Perform(s, act))
  {
    hide Exec, Perform, Allowed;
    InitOk();
    SysRun(INITIAL, acts);
    RecordStep(Exec(INITIAL, acts).value, act);
  }
}
