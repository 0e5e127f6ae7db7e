/** Agent-to-agent messages to one recipient, composed with that recipient's run scheduler.
  *
  * Messages queue up; one reviver per recipient drains the queue in batches; each batch is
  * one wake task on the scheduler's agent lane. A wake hands its remaining messages back when
  * a newer priority message arrives or when its turn is aborted.
  */
module AgentMessaging {
  import opened Prelude
  import opened RunScheduler

  /** `displayed`: the recipient's transcript has the entry. `redriven`: handed back after an abort. */
  datatype Msg = Msg(id: nat, priority: bool, displayed: bool, redriven: bool)

  // ---------------------------------------------------------------- queues

  function PriorityOf(ms: seq<Msg>): seq<Msg> {
    if ms == [] then []
    else PriorityOf(Front(ms)) + (if Last(ms).priority then [Last(ms)] else [])
  }

  function RestOf(ms: seq<Msg>): seq<Msg> {
    if ms == [] then []
    else RestOf(Front(ms)) + (if Last(ms).priority then [] else [Last(ms)])
  }

  function Prioritize(ms: seq<Msg>): seq<Msg> {
    PriorityOf(ms) + RestOf(ms)
  }

  function MergeQueues(queued: seq<Msg>, deferred: seq<Msg>): seq<Msg> {
    PriorityOf(queued) + PriorityOf(deferred) + RestOf(deferred) + RestOf(queued)
  }

  predicate HasPriority(ms: seq<Msg>) {
    exists m :: m in ms && m.priority
  }

  function NotRedriven(ms: seq<Msg>): seq<Msg> {
    if ms == [] then []
    else NotRedriven(Front(ms)) + (if Last(ms).redriven then [] else [Last(ms)])
  }

  function AlreadyRedriven(ms: seq<Msg>): seq<Msg> {
    if ms == [] then []
    else AlreadyRedriven(Front(ms)) + (if Last(ms).redriven then [Last(ms)] else [])
  }

  function Displayed(ms: seq<Msg>): seq<Msg> {
    seq(|ms|, i requires 0 <= i < |ms| => ms[i].(displayed := true))
  }

  function Redriven(ms: seq<Msg>): seq<Msg> {
    seq(|ms|, i requires 0 <= i < |ms| => ms[i].(displayed := true, redriven := true))
  }

  ghost predicate PriorityFirst(ms: seq<Msg>) {
    forall i, j :: 0 <= i < j < |ms| && ms[j].priority ==> ms[i].priority
  }

  ghost predicate AllPriority(ms: seq<Msg>, p: bool) {
    forall i :: 0 <= i < |ms| ==> ms[i].priority == p
  }

  lemma {:induction false} FilterElements(ms: seq<Msg>)
    ensures AllPriority(PriorityOf(ms), true) && AllPriority(RestOf(ms), false)
    decreases |ms|
  {
    if ms != [] {
      FilterElements(Front(ms));
    }
  }

  lemma {:induction false} NoRestBeforePriority(ms: seq<Msg>)
    requires PriorityFirst(ms) && ms != [] && Last(ms).priority
    ensures RestOf(ms) == []
    decreases |ms|
  {
    var f := Front(ms);
    if f != [] {
      assert Last(f).priority;
      NoRestBeforePriority(f);
    }
  }

  lemma {:induction false} PriorityFirstSplits(ms: seq<Msg>)
    requires PriorityFirst(ms)
    ensures ms == PriorityOf(ms) + RestOf(ms)
    decreases |ms|
  {
    if ms != [] {
      var f, m := Front(ms), Last(ms);
      PriorityFirstSplits(f);
      assert ms == f + [m];
      if m.priority {
        NoRestBeforePriority(ms);
        assert PriorityOf(f) + [] == PriorityOf(f);
      } else {
        assert (PriorityOf(f) + RestOf(f)) + [m] == PriorityOf(f) + (RestOf(f) + [m]);
      }
    }
  }

  lemma PrioritizedIsPriorityFirst(ms: seq<Msg>)
    ensures PriorityFirst(Prioritize(ms))
  {
    FilterElements(ms);
  }

  lemma MergeInserts(queued: seq<Msg>, deferred: seq<Msg>)
    requires PriorityFirst(deferred)
    ensures MergeQueues(queued, deferred) == PriorityOf(queued) + deferred + RestOf(queued)
  {
    PriorityFirstSplits(deferred);
    var pq, pd, rd, rq := PriorityOf(queued), PriorityOf(deferred), RestOf(deferred), RestOf(queued);
    assert pq + pd + rd + rq == pq + (pd + rd) + rq;
  }

  lemma MergedIsPriorityFirst(queued: seq<Msg>, deferred: seq<Msg>)
    ensures PriorityFirst(MergeQueues(queued, deferred))
  {
    var pq, pd, rd, rq := PriorityOf(queued), PriorityOf(deferred), RestOf(deferred), RestOf(queued);
    FilterElements(queued);
    FilterElements(deferred);
    assert pq + pd + rd + rq == (pq + pd) + (rd + rq);
  }

  /** Merging inserts the deferred batch, unchanged, between the queued priority messages and
    * the queued rest: a permutation that keeps the order of both queues. */
  lemma MergeIsStable(queued: seq<Msg>, deferred: seq<Msg>)
    requires PriorityFirst(queued) && PriorityFirst(deferred)
    ensures
      var k := |PriorityOf(queued)|;
      k <= |queued| && MergeQueues(queued, deferred) == queued[..k] + deferred + queued[k..]
    ensures multiset(MergeQueues(queued, deferred)) == multiset(queued) + multiset(deferred)
    ensures PriorityFirst(MergeQueues(queued, deferred))
  {
    PriorityFirstSplits(queued);
    MergeInserts(queued, deferred);
    MergedIsPriorityFirst(queued, deferred);
    var pq, rq := PriorityOf(queued), RestOf(queued);
    assert queued[..|pq|] == pq && queued[|pq|..] == rq;
  }

  // ---------------------------------------------------------------- the machine

  /** The reviver: fetching the recipient's session, appending the batch's transcript entries
    * (`next` is the next one), awaiting its wake task, or back from a batch it had to drop. */
  datatype Reviver =
    | Absent
    | Fetching(batch: seq<Msg>)
    | Appending(batch: seq<Msg>, next: nat)
    | Awaiting(task: TaskId)
    | Returned

  /** A wake task's body: not started, in the turn of message `index`, asking whether the agent
    * still exists after that turn was aborted, or over. */
  datatype Phase = Queued | Turn(index: nat) | Asking(index: nat) | Over

  datatype Wake = Wake(task: TaskId, batch: seq<Msg>, phase: Phase)

  /** Why a message left: its turn ran un-aborted, an exception ended its batch, its turn or one
    * before it was aborted for the second time, or the recipient was missing. */
  datatype Fate = Delivered | Threw | RedrivenAgain | Missing | AppendFailed

  /** `ran`, `completed`, `entries`, `gone` and `handed` are histories: the turns begun and those that
    * ended un-aborted, the inbound transcript entries appended, the messages that left and those an
    * abort handed back, by message id. */
  datatype Sys = Sys(
    q: Queue,
    pending: seq<Msg>,
    reviver: Reviver,
    wakes: seq<Wake>,
    sent: nat,
    ran: seq<nat>,
    completed: seq<nat>,
    entries: seq<nat>,
    gone: seq<(nat, Fate)>,
    handed: set<nat>)

  datatype TurnResult = Completed | Aborted | TurnThrew
  datatype Answer = IsGone | IsPresent | AskThrew

  datatype Act =
    | Send(priority: bool)
    | FetchSession(found: bool)
    | AppendEntry(ok: bool)
    | EnqueueWake
    | Resume
    | StartWake(n: nat)
    | TurnEnds(n: nat, result: TurnResult)
    | GoneAnswered(n: nat, answer: Answer)
    | FinishWake(n: nat)
    | Sched(a: Action)

  ghost predicate IsWakeTask(s: Sys, id: TaskId) {
    exists n :: 0 <= n < |s.wakes| && s.wakes[n].task == id
  }

  /** The scheduler moves on its own, except that a wake's body starts and ends with its wake.
    * A reviver awaiting a task continues once the task's caller-facing promise has settled. */
  ghost predicate Allowed(s: Sys, act: Act) {
    match act
    case Send(_) => true
    case FetchSession(_) => s.reviver.Fetching?
    case AppendEntry(_) => s.reviver.Appending? && s.reviver.next < |s.reviver.batch|
    case EnqueueWake => s.reviver.Appending? && s.reviver.next == |s.reviver.batch|
    case Resume => s.reviver.Returned? || (s.reviver.Awaiting? && s.reviver.task in s.q.released)
    case StartWake(n) => n < |s.wakes| && s.wakes[n].phase.Queued? && Enabled(s.q, Start(s.wakes[n].task))
    case TurnEnds(n, _) => n < |s.wakes| && s.wakes[n].phase.Turn?
    case GoneAnswered(n, _) => n < |s.wakes| && s.wakes[n].phase.Asking?
    case FinishWake(n) => n < |s.wakes| && s.wakes[n].phase.Over? && Enabled(s.q, Finish(s.wakes[n].task))
    case Sched(a) => Enabled(s.q, a) && (a.Start? || a.Finish? ==> !IsWakeTask(s, a.id))
  }

  function QueueAfterSend(pending: seq<Msg>, m: Msg): seq<Msg> {
    if m.priority then [m] + pending else pending + [m]
  }

  /** The reviver's loop head: take the whole queue, or stop. */
  function TakeBatch(s: Sys): Sys {
    if s.pending == [] then s.(reviver := Absent)
    else s.(reviver := Fetching(Prioritize(s.pending)), pending := [])
  }

  function Fates(ms: seq<Msg>, f: Fate): seq<(nat, Fate)> {
    seq(|ms|, i requires 0 <= i < |ms| => (ms[i].id, f))
  }

  function SetPhase(s: Sys, n: nat, p: Phase): Sys
    requires n < |s.wakes|
  {
    s.(wakes := s.wakes[n := s.wakes[n].(phase := p)])
  }

  ghost predicate WellFormed(s: Sys) {
    forall n :: 0 <= n < |s.wakes| ==>
      && s.wakes[n].batch != []
      && (s.wakes[n].phase.Turn? || s.wakes[n].phase.Asking? ==> s.wakes[n].phase.index < |s.wakes[n].batch|)
  }

  /** The loop of a wake after the turn of message `i` was not aborted. */
  function AfterTurn(s: Sys, n: nat, i: nat): Sys
    requires n < |s.wakes| && i < |s.wakes[n].batch|
  {
    var batch := s.wakes[n].batch;
    var d := s.(gone := s.gone + Fates([batch[i]], Delivered), completed := s.completed + [batch[i].id]);
    if i + 1 == |batch| then SetPhase(d, n, Over)
    else if HasPriority(s.pending) then
      SetPhase(d, n, Over).(pending := MergeQueues(s.pending, Displayed(batch[i + 1..])))
    else SetPhase(d, n, Turn(i + 1)).(ran := s.ran + [batch[i + 1].id])
  }

  function DropRest(s: Sys, n: nat, i: nat, f: Fate): Sys
    requires n < |s.wakes| && i < |s.wakes[n].batch|
  {
    SetPhase(s, n, Over).(gone := s.gone + Fates(s.wakes[n].batch[i..], f))
  }

  /** After an abort at message `i`: re-drive what was not re-driven before, drop the rest. */
  function Redrive(s: Sys, n: nat, i: nat): Sys
    requires n < |s.wakes| && i < |s.wakes[n].batch|
  {
    var rest := s.wakes[n].batch[i..];
    var d := SetPhase(s, n, Over).(gone := s.gone + Fates(AlreadyRedriven(rest), RedrivenAgain));
    if NotRedriven(rest) == [] then d
    else d.(pending := MergeQueues(s.pending, Redriven(NotRedriven(rest))),
            handed := s.handed + IdsOf(NotRedriven(rest)))
  }

  function IdsOf(ms: seq<Msg>): set<nat> {
    set m | m in ms :: m.id
  }

  ghost function Perform(s: Sys, act: Act): Sys
    requires Allowed(s, act) && WellFormed(s)
  {
    match act
    case Send(priority) =>
      var t := s.(pending := QueueAfterSend(s.pending, Msg(s.sent, priority, false, false)), sent := s.sent + 1);
      if s.reviver.Absent? then TakeBatch(t) else t
    case FetchSession(found) =>
      if found then s.(reviver := Appending(s.reviver.batch, 0))
      else s.(reviver := Returned, gone := s.gone + Fates(s.reviver.batch, Missing))
    case AppendEntry(ok) =>
      var m := s.reviver.batch[s.reviver.next];
      if m.displayed then s.(reviver := Appending(s.reviver.batch, s.reviver.next + 1))
      else if ok then s.(reviver := Appending(s.reviver.batch, s.reviver.next + 1), entries := s.entries + [m.id])
      else s.(reviver := Absent, gone := s.gone + Fates(s.reviver.batch, AppendFailed))
    case EnqueueWake =>
      s.(q := Next(s.q, Enqueue(Agent)), reviver := Awaiting(s.q.next),
         wakes := s.wakes + [Wake(s.q.next, s.reviver.batch, Queued)])
    case Resume => TakeBatch(s)
    case StartWake(n) =>
      SetPhase(s, n, Turn(0)).(q := Next(s.q, Start(s.wakes[n].task)), ran := s.ran + [s.wakes[n].batch[0].id])
    case TurnEnds(n, result) =>
      (match result
       case Completed => AfterTurn(s, n, s.wakes[n].phase.index)
       case Aborted => SetPhase(s, n, Asking(s.wakes[n].phase.index))
       case TurnThrew => DropRest(s, n, s.wakes[n].phase.index, Threw))
    case GoneAnswered(n, answer) =>
      (match answer
       case IsGone => DropRest(s, n, s.wakes[n].phase.index, Missing)
       case IsPresent => Redrive(s, n, s.wakes[n].phase.index)
       case AskThrew => DropRest(s, n, s.wakes[n].phase.index, Threw))
    case FinishWake(n) => s.(q := Next(s.q, Finish(s.wakes[n].task)))
    case Sched(a) => s.(q := Next(s.q, a))
  }

  const INITIAL := Sys(Empty(false), [], Absent, [], 0, [], [], [], [], {})

  ghost function Exec(s: Sys, acts: seq<Act>): Option<Sys>
    decreases |acts|
  {
    if acts == [] then Some(s)
    else if Allowed(s, acts[0]) && WellFormed(s) then Exec(Perform(s, acts[0]), acts[1..])
    else None
  }

  // ---------------------------------------------------------------- weighing messages

  /** Three ways to weigh a message: that it exists, how often it may still be run, and how many
    * transcript entries it may still get. */
  datatype Kind = Presence | Turns | Entries

  /** Weights are counted for one message id, or for all messages together (`None`). */
  type Who = Option<nat>

  predicate Counts(who: Who, id: nat) {
    who.None? || who.value == id
  }

  function Weigh(k: Kind, who: Who, m: Msg): nat {
    if !Counts(who, m.id) then 0
    else match k
      case Presence => 1
      case Turns => if m.redriven then 1 else 2
      case Entries => if m.displayed then 0 else 1
  }

  function Tally(k: Kind, who: Who, ms: seq<Msg>): nat {
    if ms == [] then 0 else Tally(k, who, Front(ms)) + Weigh(k, who, Last(ms))
  }

  lemma {:induction false} TallyConcat(k: Kind, who: Who, a: seq<Msg>, b: seq<Msg>)
    ensures Tally(k, who, a + b) == Tally(k, who, a) + Tally(k, who, b)
    decreases |b|
  {
    if b == [] {
      assert a + b == a;
    } else {
      assert Front(a + b) == a + Front(b) && Last(a + b) == Last(b);
      TallyConcat(k, who, a, Front(b));
    }
  }

  lemma TallySnoc(k: Kind, who: Who, ms: seq<Msg>, m: Msg)
    ensures Tally(k, who, ms + [m]) == Tally(k, who, ms) + Weigh(k, who, m)
  {
    assert Front(ms + [m]) == ms;
  }

  lemma TallyCons(k: Kind, who: Who, m: Msg, ms: seq<Msg>)
    ensures Tally(k, who, [m] + ms) == Weigh(k, who, m) + Tally(k, who, ms)
  {
    TallyConcat(k, who, [m], ms);
    TallySnoc(k, who, [], m);
    assert [] + [m] == [m];
  }

  lemma {:induction false} TallyPriority(k: Kind, who: Who, ms: seq<Msg>)
    ensures Tally(k, who, PriorityOf(ms)) + Tally(k, who, RestOf(ms)) == Tally(k, who, ms)
    decreases |ms|
  {
    if ms != [] {
      var f, m := Front(ms), Last(ms);
      TallyPriority(k, who, f);
      TallySnoc(k, who, PriorityOf(f), m);
      TallySnoc(k, who, RestOf(f), m);
      assert PriorityOf(f) + [] == PriorityOf(f) && RestOf(f) + [] == RestOf(f);
    }
  }

  lemma TallyPrioritize(k: Kind, who: Who, ms: seq<Msg>)
    ensures Tally(k, who, Prioritize(ms)) == Tally(k, who, ms)
  {
    TallyConcat(k, who, PriorityOf(ms), RestOf(ms));
    TallyPriority(k, who, ms);
  }

  lemma TallyMerge(k: Kind, who: Who, queued: seq<Msg>, deferred: seq<Msg>)
    ensures Tally(k, who, MergeQueues(queued, deferred)) == Tally(k, who, queued) + Tally(k, who, deferred)
  {
    var pq, pd, rd, rq := PriorityOf(queued), PriorityOf(deferred), RestOf(deferred), RestOf(queued);
    TallyConcat(k, who, pq + pd + rd, rq);
    TallyConcat(k, who, pq + pd, rd);
    TallyConcat(k, who, pq, pd);
    TallyPriority(k, who, queued);
    TallyPriority(k, who, deferred);
  }

  lemma {:induction false} TallyDisplayed(k: Kind, who: Who, ms: seq<Msg>)
    ensures Tally(k, who, Displayed(ms)) == if k.Entries? then 0 else Tally(k, who, ms)
    decreases |ms|
  {
    if ms != [] {
      TallyDisplayed(k, who, Front(ms));
      assert Front(Displayed(ms)) == Displayed(Front(ms));
    }
  }

  lemma {:induction false} TallyRedriven(k: Kind, who: Who, ms: seq<Msg>)
    ensures Tally(k, who, Redriven(ms)) == if k.Entries? then 0 else Tally(Presence, who, ms)
    decreases |ms|
  {
    if ms != [] {
      TallyRedriven(k, who, Front(ms));
      assert Front(Redriven(ms)) == Redriven(Front(ms));
    }
  }

  /** What an abort keeps and drops adds up, and re-driving costs each kept message a turn. */
  lemma {:induction false} TallyRedrive(who: Who, ms: seq<Msg>)
    ensures Tally(Presence, who, NotRedriven(ms)) + Tally(Presence, who, AlreadyRedriven(ms)) ==
        Tally(Presence, who, ms)
    ensures Tally(Presence, who, NotRedriven(ms)) + Tally(Presence, who, ms) == Tally(Turns, who, ms)
    decreases |ms|
  {
    if ms != [] {
      var f, m := Front(ms), Last(ms);
      TallyRedrive(who, f);
      TallySnoc(Presence, who, NotRedriven(f), m);
      TallySnoc(Presence, who, AlreadyRedriven(f), m);
      assert NotRedriven(f) + [] == NotRedriven(f) && AlreadyRedriven(f) + [] == AlreadyRedriven(f);
    }
  }

  /** How many elements of a history of ids are counted. */
  function Tick(who: Who, ids: seq<nat>): nat {
    if ids == [] then 0 else Tick(who, Front(ids)) + (if Counts(who, Last(ids)) then 1 else 0)
  }

  lemma TickSnoc(who: Who, ids: seq<nat>, id: nat)
    ensures Tick(who, ids + [id]) == Tick(who, ids) + (if Counts(who, id) then 1 else 0)
  {
    assert Front(ids + [id]) == ids;
  }

  function Gone(who: Who, gone: seq<(nat, Fate)>): nat {
    if gone == [] then 0 else Gone(who, Front(gone)) + (if Counts(who, Last(gone).0) then 1 else 0)
  }

  lemma {:induction false} GoneFates(who: Who, gone: seq<(nat, Fate)>, ms: seq<Msg>, f: Fate)
    ensures Gone(who, gone + Fates(ms, f)) == Gone(who, gone) + Tally(Presence, who, ms)
    decreases |ms|
  {
    var all := gone + Fates(ms, f);
    if ms == [] {
      assert all == gone;
    } else {
      GoneFates(who, gone, Front(ms), f);
      assert Fates(ms, f) == Fates(Front(ms), f) + [(Last(ms).id, f)];
      assert Front(all) == gone + Fates(Front(ms), f);
      assert Last(all) == (Last(ms).id, f);
    }
  }

  function ReviverTally(k: Kind, who: Who, r: Reviver): nat {
    match r
    case Fetching(batch) => Tally(k, who, batch)
    case Appending(batch, next) =>
      Tally(k, who, if k.Entries? then (if next <= |batch| then batch[next..] else []) else batch)
    case _ => 0
  }

  /** What is left of a wake: the message whose turn has begun has used up one turn. */
  function WakeTally(k: Kind, who: Who, w: Wake): int {
    if k.Entries? then 0
    else match w.phase
      case Queued => Tally(k, who, w.batch)
      case Turn(i) => Left(k, who, w.batch, i)
      case Asking(i) => Left(k, who, w.batch, i)
      case Over => 0
  }

  function Left(k: Kind, who: Who, batch: seq<Msg>, i: nat): int {
    if i >= |batch| then 0
    else Tally(k, who, batch[i..]) - (if k.Turns? && Counts(who, batch[i].id) then 1 else 0)
  }

  function WakesTally(k: Kind, who: Who, ws: seq<Wake>): int {
    if ws == [] then 0 else WakesTally(k, who, Front(ws)) + WakeTally(k, who, Last(ws))
  }

  lemma {:induction false} WakesUpdate(k: Kind, who: Who, ws: seq<Wake>, n: nat, w: Wake)
    requires n < |ws|
    ensures WakesTally(k, who, ws[n := w]) == WakesTally(k, who, ws) - WakeTally(k, who, ws[n]) + WakeTally(k, who, w)
    decreases |ws|
  {
    var ws' := ws[n := w];
    if n == |ws| - 1 {
      assert Front(ws') == Front(ws);
    } else {
      WakesUpdate(k, who, Front(ws), n, w);
      assert Front(ws') == Front(ws)[n := w];
    }
  }

  function Total(k: Kind, who: Who, s: Sys): int {
    Tally(k, who, s.pending) + ReviverTally(k, who, s.reviver) + WakesTally(k, who, s.wakes)
  }

  /** How many messages are counted: all that were sent, or the one message if it was sent. */
  function Sent(who: Who, n: nat): nat {
    if who.None? then n else if who.value < n then 1 else 0
  }

  // ---------------------------------------------------------------- conservation

  /** Every message ever sent is either somewhere in the system, once, or has left, once; turns
    * run and turns still possible stay within two per message, entries within one. */
  ghost predicate Ledger(who: Who, s: Sys) {
    && Total(Presence, who, s) + Gone(who, s.gone) == Sent(who, s.sent)
    && Tick(who, s.ran) + Total(Turns, who, s) <= 2 * Sent(who, s.sent)
    && Tick(who, s.entries) + Total(Entries, who, s) <= Sent(who, s.sent)
  }

  lemma TakeBatchTally(k: Kind, who: Who, s: Sys)
    ensures Total(k, who, TakeBatch(s)) == Total(k, who, s) - ReviverTally(k, who, s.reviver)
  {
    TallyPrioritize(k, who, s.pending);
  }

  lemma SetPhaseTally(k: Kind, who: Who, s: Sys, n: nat, p: Phase)
    requires n < |s.wakes|
    ensures Total(k, who, SetPhase(s, n, p)) ==
      Total(k, who, s) - WakeTally(k, who, s.wakes[n]) + WakeTally(k, who, s.wakes[n].(phase := p))
  {
    WakesUpdate(k, who, s.wakes, n, s.wakes[n].(phase := p));
  }

  /** Starting the turn of message `i` of a batch spends one of that message's turns. */
  lemma LeftHead(k: Kind, who: Who, batch: seq<Msg>, i: nat)
    requires i < |batch|
    ensures Tally(k, who, batch[i..]) == Weigh(k, who, batch[i]) + Tally(k, who, batch[i + 1..])
  {
    assert batch[i..] == [batch[i]] + batch[i + 1..];
    TallyCons(k, who, batch[i], batch[i + 1..]);
  }

  lemma SendTotal(k: Kind, who: Who, s: Sys, priority: bool)
    requires WellFormed(s)
    ensures Total(k, who, Perform(s, Send(priority))) ==
      Total(k, who, s) + Weigh(k, who, Msg(s.sent, priority, false, false))
  {
    hide Tally, WakesTally, Tick, Gone, PriorityOf, RestOf, NotRedriven, AlreadyRedriven, Displayed, Redriven;
    var m := Msg(s.sent, priority, false, false);
    var t := s.(pending := QueueAfterSend(s.pending, m), sent := s.sent + 1);
    if priority {
      TallyCons(k, who, m, s.pending);
    } else {
      TallySnoc(k, who, s.pending, m);
    }
    TakeBatchTally(k, who, t);
  }

  lemma SendLedger(who: Who, s: Sys, priority: bool)
    requires Ledger(who, s) && WellFormed(s)
    ensures Ledger(who, Perform(s, Send(priority)))
  {
    hide Tally, WakesTally;
    SendTotal(Presence, who, s, priority);
    SendTotal(Turns, who, s, priority);
    SendTotal(Entries, who, s, priority);
  }

  lemma AppendLedger(who: Who, s: Sys, ok: bool)
    requires Ledger(who, s) && WellFormed(s) && Allowed(s, AppendEntry(ok))
    ensures Ledger(who, Perform(s, AppendEntry(ok)))
  {
    hide Tally, WakesTally, Tick, Gone, PriorityOf, RestOf, NotRedriven, AlreadyRedriven, Displayed, Redriven;
    var batch, next := s.reviver.batch, s.reviver.next;
    LeftHead(Entries, who, batch, next);
    if !batch[next].displayed {
      if ok {
        TickSnoc(who, s.entries, batch[next].id);
      } else {
        GoneFates(who, s.gone, batch, AppendFailed);
      }
    }
  }

  lemma EnqueueWakeLedger(who: Who, s: Sys)
    requires Ledger(who, s) && WellFormed(s) && Allowed(s, EnqueueWake)
    ensures Ledger(who, Perform(s, EnqueueWake))
  {
    var w := Wake(s.q.next, s.reviver.batch, Queued);
  }

  lemma StartWakeLedger(who: Who, s: Sys, n: nat)
    requires Ledger(who, s) && WellFormed(s) && Allowed(s, StartWake(n))
    ensures Ledger(who, Perform(s, StartWake(n)))
  {
    hide Tally, WakesTally, Tick, Gone, PriorityOf, RestOf, NotRedriven, AlreadyRedriven, Displayed, Redriven;
    SetPhaseTally(Presence, who, s, n, Turn(0));
    SetPhaseTally(Turns, who, s, n, Turn(0));
    SetPhaseTally(Entries, who, s, n, Turn(0));
    assert s.wakes[n].batch[0..] == s.wakes[n].batch;
    TickSnoc(who, s.ran, s.wakes[n].batch[0].id);
  }

  /** Whether the loop goes on to the turn of message `i + 1`. */
  ghost predicate NextTurnStarts(s: Sys, n: nat, i: nat)
    requires n < |s.wakes|
  {
    i + 1 < |s.wakes[n].batch| && !HasPriority(s.pending)
  }

  lemma TallyEmpty(k: Kind, who: Who)
    ensures Tally(k, who, []) == 0
  {
  }

  lemma AfterTurnTotal(k: Kind, who: Who, s: Sys, n: nat, i: nat)
    requires WellFormed(s) && n < |s.wakes| && s.wakes[n].phase == Turn(i)
    ensures
      var spent := if Counts(who, s.wakes[n].batch[i].id) then 1 else 0;
      var starting := if NextTurnStarts(s, n, i) && Counts(who, s.wakes[n].batch[i + 1].id) then 1 else 0;
      var before, after := Total(k, who, s), Total(k, who, AfterTurn(s, n, i));
      match k
      case Presence => after == before - spent
      case Turns => after + starting <= before
      case Entries => after == before
  {
    hide Tally, WakesTally, Tick, Gone, PriorityOf, RestOf, NotRedriven, AlreadyRedriven, Displayed, Redriven;
    var batch := s.wakes[n].batch;
    var rest := batch[i + 1..];
    SetPhaseTally(k, who, s, n, AfterTurn(s, n, i).wakes[n].phase);
    LeftHead(k, who, batch, i);
    TallyEmpty(k, who);
    assert i + 1 == |batch| ==> rest == [];
    if i + 1 < |batch| && HasPriority(s.pending) {
      TallyMerge(k, who, s.pending, Displayed(rest));
      TallyDisplayed(k, who, rest);
    }
  }

  lemma AfterTurnLedger(who: Who, s: Sys, n: nat, i: nat)
    requires Ledger(who, s) && WellFormed(s) && n < |s.wakes| && s.wakes[n].phase == Turn(i)
    ensures Ledger(who, AfterTurn(s, n, i))
  {
    hide Tally, WakesTally, Tick, Gone, PriorityOf, RestOf, NotRedriven, AlreadyRedriven, Displayed, Redriven;
    var batch := s.wakes[n].batch;
    AfterTurnTotal(Presence, who, s, n, i);
    AfterTurnTotal(Turns, who, s, n, i);
    AfterTurnTotal(Entries, who, s, n, i);
    GoneFates(who, s.gone, [batch[i]], Delivered);
    TallyEmpty(Presence, who);
    TallySnoc(Presence, who, [], batch[i]);
    assert [] + [batch[i]] == [batch[i]];
    if NextTurnStarts(s, n, i) {
      TickSnoc(who, s.ran, batch[i + 1].id);
    }
  }

  lemma DropRestLedger(who: Who, s: Sys, n: nat, i: nat, f: Fate)
    requires Ledger(who, s) && WellFormed(s) && n < |s.wakes|
    requires i < |s.wakes[n].batch| && (s.wakes[n].phase == Turn(i) || s.wakes[n].phase == Asking(i))
    ensures Ledger(who, DropRest(s, n, i, f))
  {
    SetPhaseTally(Presence, who, s, n, Over);
    SetPhaseTally(Turns, who, s, n, Over);
    SetPhaseTally(Entries, who, s, n, Over);
    LeftHead(Turns, who, s.wakes[n].batch, i);
    GoneFates(who, s.gone, s.wakes[n].batch[i..], f);
  }

  lemma RedriveTotal(k: Kind, who: Who, s: Sys, n: nat, i: nat)
    requires WellFormed(s) && n < |s.wakes| && s.wakes[n].phase == Asking(i)
    ensures
      var before, after := Total(k, who, s), Total(k, who, Redrive(s, n, i));
      match k
      case Presence => after == before - Tally(Presence, who, AlreadyRedriven(s.wakes[n].batch[i..]))
      case Turns => after <= before
      case Entries => after == before
  {
    hide Tally, WakesTally, Tick, Gone, PriorityOf, RestOf, NotRedriven, AlreadyRedriven, Displayed, Redriven;
    var rest := s.wakes[n].batch[i..];
    var keep := NotRedriven(rest);
    TallyEmpty(Presence, who);
    SetPhaseTally(k, who, s, n, Over);
    LeftHead(Turns, who, s.wakes[n].batch, i);
    LeftHead(Presence, who, s.wakes[n].batch, i);
    TallyRedrive(who, rest);
    TallyMerge(k, who, s.pending, Redriven(keep));
    TallyRedriven(k, who, keep);
    TallyRedrive(who, s.wakes[n].batch[i + 1..]);
    KeptHead(who, s.wakes[n].batch, i);
  }

  lemma KeptHead(who: Who, batch: seq<Msg>, i: nat)
    requires i < |batch|
    ensures
      var spent := if Counts(who, batch[i].id) then 1 else 0;
      Tally(Presence, who, NotRedriven(batch[i..])) <= Tally(Turns, who, batch[i..]) - spent
  {
    TallyRedrive(who, batch[i..]);
    LeftHead(Presence, who, batch, i);
  }

  lemma RedriveLedger(who: Who, s: Sys, n: nat, i: nat)
    requires Ledger(who, s) && WellFormed(s) && n < |s.wakes| && s.wakes[n].phase == Asking(i)
    ensures Ledger(who, Redrive(s, n, i))
  {
    hide Tally, WakesTally, Tick, Gone, PriorityOf, RestOf, NotRedriven, AlreadyRedriven, Displayed, Redriven;
    RedriveTotal(Presence, who, s, n, i);
    RedriveTotal(Turns, who, s, n, i);
    RedriveTotal(Entries, who, s, n, i);
    GoneFates(who, s.gone, AlreadyRedriven(s.wakes[n].batch[i..]), RedrivenAgain);
  }

  lemma LedgerStep(who: Who, s: Sys, act: Act)
    requires Ledger(who, s) && WellFormed(s) && Allowed(s, act)
    ensures Ledger(who, Perform(s, act))
  {
    hide Tally, WakesTally, Tick, Gone, PriorityOf, RestOf, NotRedriven, AlreadyRedriven, Displayed, Redriven;
    match act
    case Send(priority) => SendLedger(who, s, priority);
    case FetchSession(found) => GoneFates(who, s.gone, s.reviver.batch, Missing);
      assert s.reviver.batch[0..] == s.reviver.batch;
    case AppendEntry(ok) => AppendLedger(who, s, ok);
    case EnqueueWake => EnqueueWakeLedger(who, s);
    case Resume =>
      TakeBatchTally(Presence, who, s);
      TakeBatchTally(Turns, who, s);
      TakeBatchTally(Entries, who, s);
    case StartWake(n) => StartWakeLedger(who, s, n);
    case TurnEnds(n, result) =>
      var i := s.wakes[n].phase.index;
      match result {
        case Completed => AfterTurnLedger(who, s, n, i);
        case Aborted =>
          SetPhaseTally(Presence, who, s, n, Asking(i));
          SetPhaseTally(Turns, who, s, n, Asking(i));
          SetPhaseTally(Entries, who, s, n, Asking(i));
        case TurnThrew => DropRestLedger(who, s, n, i, Threw);
      }
    case GoneAnswered(n, answer) =>
      var i := s.wakes[n].phase.index;
      match answer {
        case IsGone => DropRestLedger(who, s, n, i, Missing);
        case IsPresent => RedriveLedger(who, s, n, i);
        case AskThrew => DropRestLedger(who, s, n, i, Threw);
      }
    case FinishWake(_) =>
    case Sched(_) =>
  }

  // ---------------------------------------------------------------- wakes and the reviver

  /** A task whose body is not over, as the scheduler sees it. */
  ghost predicate Alive(q: Queue, t: TaskId, begun: bool) {
    && t < q.next && t !in q.settled
    && (if begun then t in q.runs && q.runs[t].stage.Executing?
        else t in q.runs ==> q.runs[t].stage.Dispatching?)
  }

  lemma AliveStep(q: Queue, a: Action, t: TaskId, begun: bool)
    requires LanesOk(q) && Enabled(q, a) && Alive(q, t, begun) && a != Start(t) && a != Finish(t)
    ensures Alive(Next(q, a), t, begun)
  {
    if DispatchedLane(q, a).Some? {
      var m := DispatchedLane(q, a).value;
      assert LaneOf(q, m)[0] in LaneOf(q, m);
    }
  }

  ghost predicate WakesOk(s: Sys) {
    && (forall n :: 0 <= n < |s.wakes| ==> s.wakes[n].task < s.q.next)
    && (forall n, m :: 0 <= n < m < |s.wakes| ==> s.wakes[n].task != s.wakes[m].task)
    && (forall n :: 0 <= n < |s.wakes| && !s.wakes[n].phase.Over? ==>
          && Alive(s.q, s.wakes[n].task, !s.wakes[n].phase.Queued?)
          && (s.reviver == Awaiting(s.wakes[n].task) || Escaped(s.wakes[n].task) in s.q.log))
  }

  ghost predicate BatchesOk(s: Sys) {
    && PriorityFirst(s.pending)
    && (s.reviver.Fetching? ==> s.reviver.batch != [] && PriorityFirst(s.reviver.batch))
    && (s.reviver.Appending? ==>
          s.reviver.batch != [] && PriorityFirst(s.reviver.batch) && s.reviver.next <= |s.reviver.batch|)
    && (forall n :: 0 <= n < |s.wakes| ==> PriorityFirst(s.wakes[n].batch))
  }

  /** Messages wait and nobody is going to take them. */
  predicate Stranded(s: Sys) {
    s.pending != [] && s.reviver.Absent?
  }

  ghost predicate SomeWakeEscaped(s: Sys) {
    exists n :: 0 <= n < |s.wakes| && Escaped(s.wakes[n].task) in s.q.log
  }

  ghost predicate SomeAppendFailed(s: Sys) {
    exists i :: 0 <= i < |s.gone| && s.gone[i].1.AppendFailed?
  }

  ghost predicate SysInv(s: Sys) {
    && Inv(s.q) && WellFormed(s) && WakesOk(s) && BatchesOk(s)
    && (Stranded(s) ==> SomeWakeEscaped(s) || SomeAppendFailed(s))
  }

  /** The scheduler action inside a step, if any. */
  function QueueAction(s: Sys, act: Act): Option<Action> {
    match act
    case EnqueueWake => Some(Enqueue(Agent))
    case StartWake(n) => if n < |s.wakes| then Some(Start(s.wakes[n].task)) else None
    case FinishWake(n) => if n < |s.wakes| then Some(Finish(s.wakes[n].task)) else None
    case Sched(a) => Some(a)
    case _ => None
  }

  lemma QueueChange(s: Sys, act: Act)
    requires SysInv(s) && Allowed(s, act)
    ensures var a := QueueAction(s, act);
      if a.Some? then Enabled(s.q, a.value) && Perform(s, act).q == Next(s.q, a.value) else Perform(s, act).q == s.q
    ensures Inv(Perform(s, act).q)
    ensures forall e :: e in s.q.log ==> e in Perform(s, act).q.log
    ensures Perform(s, act).q.next >= s.q.next
  {
    var a := QueueAction(s, act);
    if a.Some? {
      InvStep(s.q, a.value);
      LogChange(s.q, a.value);
      assert forall e :: e in s.q.log ==> e in s.q.log + StepEvent(s.q, a.value);
      RunsChange(s.q, a.value);
    }
  }

  /** A step of a wake changes its phase only. */
  lemma PhaseChange(s: Sys, act: Act) returns (p: Phase)
    requires WellFormed(s) && Allowed(s, act) && (act.StartWake? || act.TurnEnds? || act.GoneAnswered?)
    ensures act.n < |s.wakes| && !s.wakes[act.n].phase.Over? && !p.Queued?
    ensures s.wakes[act.n].phase.Queued? ==> act.StartWake?
    ensures Perform(s, act).wakes == s.wakes[act.n := s.wakes[act.n].(phase := p)]
    ensures p.Turn? || p.Asking? ==> p.index < |s.wakes[act.n].batch|
  {
    hide PriorityOf, RestOf, NotRedriven, AlreadyRedriven, Next, HasPriority, IdsOf;
    p := Perform(s, act).wakes[act.n].phase;
  }

  /** Any other step adds the reviver's wake, or leaves the wakes alone. */
  lemma WakesAppend(s: Sys, act: Act)
    requires WellFormed(s) && Allowed(s, act) && !(act.StartWake? || act.TurnEnds? || act.GoneAnswered?)
    ensures Perform(s, act).wakes ==
      if act.EnqueueWake? then s.wakes + [Wake(s.q.next, s.reviver.batch, Queued)] else s.wakes
  {
    hide PriorityOf, RestOf, Next;
  }

  /** Which wakes a step touches. */
  lemma WakeChange(s: Sys, act: Act, n: nat)
    requires SysInv(s) && Allowed(s, act) && n < |Perform(s, act).wakes|
    ensures var s' := Perform(s, act);
      if n == |s.wakes| then act.EnqueueWake? && s'.wakes[n] == Wake(s.q.next, s.reviver.batch, Queued)
      else
        && n < |s.wakes|
        && s'.wakes[n].task == s.wakes[n].task && s'.wakes[n].batch == s.wakes[n].batch
        && (s'.wakes[n].phase.Over? || s'.wakes[n].phase.Queued? == s.wakes[n].phase.Queued? || act == StartWake(n))
        && (s.wakes[n].phase.Over? ==> s'.wakes[n].phase.Over?)
    ensures |Perform(s, act).wakes| == |s.wakes| + (if act.EnqueueWake? then 1 else 0)
  {
    hide Perform, Inv, BatchesOk, WakesOk, WellFormed;
    if act.StartWake? || act.TurnEnds? || act.GoneAnswered? {
      var p := PhaseChange(s, act);
    } else {
      WakesAppend(s, act);
    }
  }

  lemma WakeShape(s: Sys, act: Act, n: nat)
    requires SysInv(s) && Allowed(s, act) && n < |Perform(s, act).wakes|
    ensures var w := Perform(s, act).wakes[n];
      && w.batch != []
      && (w.phase.Turn? || w.phase.Asking? ==> w.phase.index < |w.batch|)
  {
    hide Perform, Inv, WakesOk, Enabled, IsWakeTask;
    if act.StartWake? || act.TurnEnds? || act.GoneAnswered? {
      var p := PhaseChange(s, act);
    } else {
      WakesAppend(s, act);
    }
  }

  lemma WellFormedStep(s: Sys, act: Act)
    requires SysInv(s) && Allowed(s, act)
    ensures WellFormed(Perform(s, act))
  {
    forall n | 0 <= n < |Perform(s, act).wakes|
      ensures var w := Perform(s, act).wakes[n];
        w.batch != [] && (w.phase.Turn? || w.phase.Asking? ==> w.phase.index < |w.batch|)
    {
      WakeShape(s, act, n);
    }
  }

  lemma WakesStep(s: Sys, act: Act)
    requires SysInv(s) && Allowed(s, act)
    ensures WakesOk(Perform(s, act))
  {
    var s' := Perform(s, act);
    QueueChange(s, act);
    forall n | 0 <= n < |s'.wakes|
      ensures s'.wakes[n].task < s'.q.next
      ensures forall m :: 0 <= m < n ==> s'.wakes[m].task != s'.wakes[n].task
    {
      WakeChange(s, act, n);
      forall m | 0 <= m < n
        ensures s'.wakes[m].task != s'.wakes[n].task
      {
        WakeChange(s, act, m);
      }
    }
    forall n | 0 <= n < |s'.wakes| && !s'.wakes[n].phase.Over?
      ensures Alive(s'.q, s'.wakes[n].task, !s'.wakes[n].phase.Queued?)
      ensures s'.reviver == Awaiting(s'.wakes[n].task) || Escaped(s'.wakes[n].task) in s'.q.log
    {
      WakeStaysAlive(s, act, n);
    }
  }

  lemma WakeStaysAlive(s: Sys, act: Act, n: nat)
    requires SysInv(s) && Allowed(s, act)
    requires n < |Perform(s, act).wakes| && !Perform(s, act).wakes[n].phase.Over?
    ensures var s' := Perform(s, act);
      && Alive(s'.q, s'.wakes[n].task, !s'.wakes[n].phase.Queued?)
      && (s'.reviver == Awaiting(s'.wakes[n].task) || Escaped(s'.wakes[n].task) in s'.q.log)
  {
    var s' := Perform(s, act);
    WakeChange(s, act, n);
    QueueChange(s, act);
    if n == |s.wakes| {
      assert s.q.next !in s.q.runs && s.q.next !in s.q.settled;
    } else {
      var t := s.wakes[n].task;
      var a := QueueAction(s, act);
      if a.Some? && a.value != Start(t) && a.value != Finish(t) {
        AliveStep(s.q, a.value, t, !s.wakes[n].phase.Queued?);
      }
    }
  }

  lemma BatchesStep(s: Sys, act: Act)
    requires SysInv(s) && Allowed(s, act)
    ensures BatchesOk(Perform(s, act))
  {
    var s' := Perform(s, act);
    forall n | 0 <= n < |s'.wakes|
      ensures PriorityFirst(s'.wakes[n].batch)
    {
      WakeChange(s, act, n);
    }
    PendingStep(s, act);
    PrioritizedIsPriorityFirst(s.pending);
    if act.Send? {
      var m := Msg(s.sent, act.priority, false, false);
      PrioritizedIsPriorityFirst(QueueAfterSend(s.pending, m));
    }
  }

  lemma PendingStep(s: Sys, act: Act)
    requires SysInv(s) && Allowed(s, act)
    ensures PriorityFirst(Perform(s, act).pending)
  {
    match act
    case TurnEnds(n, _) =>
      MergedIsPriorityFirst(s.pending, Displayed(s.wakes[n].batch[s.wakes[n].phase.index + 1..]));
    case GoneAnswered(n, _) =>
      MergedIsPriorityFirst(s.pending, Redriven(NotRedriven(s.wakes[n].batch[s.wakes[n].phase.index..])));
    case _ =>
  }

  /** The step hands messages back to the queue. */
  ghost predicate HandsBack(s: Sys, act: Act)
    requires WellFormed(s)
  {
    || (act.TurnEnds? && act.result.Completed? && act.n < |s.wakes| && s.wakes[act.n].phase.Turn?
        && s.wakes[act.n].phase.index + 1 < |s.wakes[act.n].batch| && HasPriority(s.pending))
    || (act.GoneAnswered? && act.answer.IsPresent? && act.n < |s.wakes| && s.wakes[act.n].phase.Asking?
        && NotRedriven(s.wakes[act.n].batch[s.wakes[act.n].phase.index..]) != [])
  }

  lemma {:induction false} TallyAll(ms: seq<Msg>)
    ensures Tally(Presence, None, ms) == |ms|
    decreases |ms|
  {
    if ms != [] {
      TallyAll(Front(ms));
    }
  }

  /** A step strands messages exactly when it is a failed transcript append while messages wait,
    * or a wake handing messages back after its reviver has gone. */
  lemma StrandsExactlyWhen(s: Sys, act: Act)
    requires SysInv(s) && Allowed(s, act) && !Stranded(s)
    ensures Stranded(Perform(s, act)) <==>
      || (act == AppendEntry(false) && !s.reviver.batch[s.reviver.next].displayed && s.pending != [])
      || (s.reviver.Absent? && HandsBack(s, act))
  {
    match act
    case TurnEnds(n, result) =>
    case GoneAnswered(n, answer) =>
    case _ =>
  }

  lemma WakesGrow(s: Sys, act: Act)
    requires WellFormed(s) && Allowed(s, act)
    ensures |Perform(s, act).wakes| >= |s.wakes|
  {
    hide PriorityOf, RestOf, NotRedriven, AlreadyRedriven, Next;
  }

  lemma WhyStrandedPersists(s: Sys, act: Act)
    requires SysInv(s) && Allowed(s, act)
    ensures SomeWakeEscaped(s) ==> SomeWakeEscaped(Perform(s, act))
    ensures SomeAppendFailed(s) ==> SomeAppendFailed(Perform(s, act))
  {
    hide Inv, BatchesOk, WellFormed, Perform, Allowed;
    var s' := Perform(s, act);
    if SomeWakeEscaped(s) {
      QueueChange(s, act);
      var n :| 0 <= n < |s.wakes| && Escaped(s.wakes[n].task) in s.q.log;
      WakesGrow(s, act);
      WakeChange(s, act, n);
      assert Escaped(s'.wakes[n].task) in s'.q.log;
    }
    if SomeAppendFailed(s) {
      var i :| 0 <= i < |s.gone| && s.gone[i].1.AppendFailed?;
      GoneGrows(s, act);
      assert s'.gone[i] == s.gone[i];
    }
  }

  lemma FailedAppendShows(s: Sys)
    requires SysInv(s) && Allowed(s, AppendEntry(false)) && !s.reviver.batch[s.reviver.next].displayed
    ensures SomeAppendFailed(Perform(s, AppendEntry(false)))
  {
    assert Perform(s, AppendEntry(false)).gone[|s.gone|].1.AppendFailed?;
  }

  lemma StrandedStep(s: Sys, act: Act)
    requires SysInv(s) && Allowed(s, act)
    ensures Stranded(Perform(s, act)) ==> SomeWakeEscaped(Perform(s, act)) || SomeAppendFailed(Perform(s, act))
  {
    if Stranded(Perform(s, act)) {
      if !Stranded(s) {
        StrandsExactlyWhen(s, act);
        if act == AppendEntry(false) {
          FailedAppendShows(s);
        }
      }
      WhyStrandedPersists(s, act);
    }
  }

  lemma GoneGrows(s: Sys, act: Act)
    requires SysInv(s) && Allowed(s, act)
    ensures s.gone <= Perform(s, act).gone
  {
    hide PriorityOf, RestOf, NotRedriven, AlreadyRedriven, Displayed, Redriven, Next, Inv, BatchesOk, WakesOk;
  }

  lemma SysStep(s: Sys, act: Act)
    requires SysInv(s) && Allowed(s, act)
    ensures SysInv(Perform(s, act))
  {
    QueueChange(s, act);
    WellFormedStep(s, act);
    WakesStep(s, act);
    BatchesStep(s, act);
    StrandedStep(s, act);
  }

  lemma {:induction false} SysRun(s: Sys, acts: seq<Act>)
    requires SysInv(s) && Exec(s, acts).Some?
    ensures SysInv(Exec(s, acts).value)
    decreases |acts|
  {
    if acts != [] {
      SysStep(s, acts[0]);
      SysRun(Perform(s, acts[0]), acts[1..]);
    }
  }

  lemma {:induction false} LedgerRun(who: Who, s: Sys, acts: seq<Act>)
    requires SysInv(s) && Ledger(who, s) && Exec(s, acts).Some?
    ensures Ledger(who, Exec(s, acts).value)
    decreases |acts|
  {
    if acts != [] {
      SysStep(s, acts[0]);
      LedgerStep(who, s, acts[0]);
      LedgerRun(who, Perform(s, acts[0]), acts[1..]);
    }
  }

  lemma InitOk()
    ensures SysInv(INITIAL)
  {
    EmptyInv(false);
  }

  /** Nothing was sent, and nothing is anywhere. */
  lemma EmptyLedger(who: Who, s: Sys)
    requires s.pending == [] && s.reviver.Absent? && s.wakes == [] && s.sent == 0
    requires s.ran == [] && s.entries == [] && s.gone == []
    ensures Ledger(who, s)
  {
  }

  lemma InitLedger(who: Who)
    ensures Ledger(who, INITIAL)
  {
    hide Ledger;
    EmptyLedger(who, INITIAL);
  }

  // ---------------------------------------------------------------- theorems

  lemma {:induction false} TallyAtLeast(k: Kind, who: Who, ms: seq<Msg>)
    ensures !k.Entries? ==> Tally(k, who, ms) >= Tally(Presence, who, ms)
    decreases |ms|
  {
    if ms != [] {
      TallyAtLeast(k, who, Front(ms));
    }
  }

  function Unstarted(ws: seq<Wake>): nat {
    if ws == [] then 0 else Unstarted(Front(ws)) + (if Last(ws).phase.Queued? then 1 else 0)
  }

  lemma WakeWeighs(k: Kind, who: Who, w: Wake)
    requires w.batch != []
    ensures WakeTally(k, who, w) >= 0
    ensures k.Turns? && who.None? && w.phase.Queued? ==> WakeTally(k, who, w) >= 1
  {
    TallyAll(w.batch);
    TallyAtLeast(Turns, None, w.batch);
    if (w.phase.Turn? || w.phase.Asking?) && w.phase.index < |w.batch| {
      LeftHead(k, who, w.batch, w.phase.index);
    }
  }

  lemma {:induction false} WakesWeigh(k: Kind, who: Who, ws: seq<Wake>)
    requires forall n :: 0 <= n < |ws| ==> ws[n].batch != []
    ensures WakesTally(k, who, ws) >= 0
    ensures k.Turns? && who.None? ==> WakesTally(k, who, ws) >= Unstarted(ws)
    decreases |ws|
  {
    if ws != [] {
      WakesWeigh(k, who, Front(ws));
      WakeWeighs(k, who, Last(ws));
    }
  }

  lemma {:induction false} UnstartedUpdate(ws: seq<Wake>, n: nat, w: Wake)
    requires n < |ws|
    ensures Unstarted(ws[n := w]) ==
      Unstarted(ws) - (if ws[n].phase.Queued? then 1 else 0) + (if w.phase.Queued? then 1 else 0)
    decreases |ws|
  {
    var ws' := ws[n := w];
    if n == |ws| - 1 {
      assert Front(ws') == Front(ws);
    } else {
      UnstartedUpdate(Front(ws), n, w);
      assert Front(ws') == Front(ws)[n := w];
    }
  }

  /** Every wake that started has run a turn. */
  ghost predicate StartsPaid(s: Sys) {
    |s.wakes| - Unstarted(s.wakes) <= |s.ran|
  }

  lemma StartsPaidStep(s: Sys, act: Act)
    requires SysInv(s) && StartsPaid(s) && Allowed(s, act)
    ensures StartsPaid(Perform(s, act))
  {
    hide PriorityOf, RestOf, NotRedriven, AlreadyRedriven, Displayed, Redriven, Next, Inv, BatchesOk, WakesOk, Stranded;
    var s' := Perform(s, act);
    match act
    case EnqueueWake =>
      assert Front(s'.wakes) == s.wakes;
    case StartWake(n) =>
      UnstartedUpdate(s.wakes, n, s'.wakes[n]);
    case TurnEnds(n, _) =>
      UnstartedUpdate(s.wakes, n, s'.wakes[n]);
    case GoneAnswered(n, _) =>
      UnstartedUpdate(s.wakes, n, s'.wakes[n]);
    case _ =>
  }

  lemma {:induction false} StartsPaidRun(s: Sys, acts: seq<Act>)
    requires SysInv(s) && StartsPaid(s) && Exec(s, acts).Some?
    ensures StartsPaid(Exec(s, acts).value)
    decreases |acts|
  {
    if acts != [] {
      SysStep(s, acts[0]);
      StartsPaidStep(s, acts[0]);
      StartsPaidRun(Perform(s, acts[0]), acts[1..]);
    }
  }

  lemma {:induction false} TickAll(ids: seq<nat>)
    ensures Tick(None, ids) == |ids|
    decreases |ids|
  {
    if ids != [] {
      TickAll(Front(ids));
    }
  }

  /** Conservation. Whatever the schedule, preemptions, aborts, escapes and failures: a message
    * that was sent is in the system once and has not left, or has left once and is nowhere;
    * it is run at most twice and gets at most one inbound transcript entry. */
  lemma MessagesAreConserved(acts: seq<Act>, id: nat)
    requires Exec(INITIAL, acts).Some?
    ensures
      var s := Exec(INITIAL, acts).value;
      var present, left := Total(Presence, Some(id), s), Gone(Some(id), s.gone);
      && (id < s.sent ==> (present == 1 && left == 0) || (present == 0 && left == 1))
      && (id >= s.sent ==> present == 0 && left == 0)
      && Tick(Some(id), s.ran) <= 2
      && Tick(Some(id), s.entries) <= 1
  {
    InitOk();
    InitLedger(Some(id));
    SysRun(INITIAL, acts);
    LedgerRun(Some(id), INITIAL, acts);
    var s := Exec(INITIAL, acts).value;
    WakesWeigh(Presence, Some(id), s.wakes);
    WakesWeigh(Turns, Some(id), s.wakes);
    WakesWeigh(Entries, Some(id), s.wakes);
  }

  /** Termination: whatever happens, N sends cause at most 2N wakes and 2N turns. */
  lemma WakesAreBounded(acts: seq<Act>)
    requires Exec(INITIAL, acts).Some?
    ensures var s := Exec(INITIAL, acts).value;
      |s.wakes| <= 2 * s.sent && |s.ran| <= 2 * s.sent && |s.entries| <= s.sent
  {
    hide Tally, WakesTally, Tick, Gone, Exec, Perform, Inv, BatchesOk, WakesOk;
    InitOk();
    InitLedger(None);
    SysRun(INITIAL, acts);
    LedgerRun(None, INITIAL, acts);
    StartsPaidRun(INITIAL, acts);
    var s := Exec(INITIAL, acts).value;
    WakesWeigh(Turns, None, s.wakes);
    WakesWeigh(Entries, None, s.wakes);
    TickAll(s.ran);
    TickAll(s.entries);
  }

  /** In every reachable state the queue has its priority messages first, so prioritizing it
    * changes nothing; and messages wait without a reviver only if a wake task escaped its
    * watchdog or a transcript append failed. */
  lemma QueueIsOrderedAndRevived(acts: seq<Act>)
    requires Exec(INITIAL, acts).Some?
    ensures var s := Exec(INITIAL, acts).value;
      && PriorityFirst(s.pending) && Prioritize(s.pending) == s.pending
      && (Stranded(s) ==> SomeWakeEscaped(s) || SomeAppendFailed(s))
  {
    InitOk();
    SysRun(INITIAL, acts);
    PriorityFirstSplits(Exec(INITIAL, acts).value.pending);
  }

  /** An abort loses messages exactly when one of the remaining ones was re-driven before. */
  lemma AbortKeepsAllExactlyWhen(s: Sys, n: nat)
    requires SysInv(s) && Allowed(s, GoneAnswered(n, IsPresent))
    ensures
      var rest := s.wakes[n].batch[s.wakes[n].phase.index..];
      Perform(s, GoneAnswered(n, IsPresent)).gone == s.gone <==> forall m :: m in rest ==> !m.redriven
  {
    var rest := s.wakes[n].batch[s.wakes[n].phase.index..];
    RedrivenOnes(rest);
    var fates := Fates(AlreadyRedriven(rest), RedrivenAgain);
    assert |s.gone + fates| == |s.gone| + |AlreadyRedriven(rest)|;
    if fates == [] {
      assert s.gone + fates == s.gone;
    }
  }

  lemma {:induction false} RedrivenOnes(ms: seq<Msg>)
    ensures AlreadyRedriven(ms) == [] <==> forall m :: m in ms ==> !m.redriven
    decreases |ms|
  {
    if ms != [] {
      RedrivenOnes(Front(ms));
      assert ms == Front(ms) + [Last(ms)];
    }
  }

  // ---------------------------------------------------------------- why messages leave

  /** Messages marked as re-driven are ones an abort handed back. */
  ghost predicate MarksOk(ms: seq<Msg>, handed: set<nat>) {
    forall m :: m in ms && m.redriven ==> m.id in handed
  }

  ghost predicate AllMarksOk(s: Sys) {
    && MarksOk(s.pending, s.handed)
    && (s.reviver.Fetching? || s.reviver.Appending? ==> MarksOk(s.reviver.batch, s.handed))
    && (forall n :: 0 <= n < |s.wakes| ==> MarksOk(s.wakes[n].batch, s.handed))
  }

  /** The turn a wake is in, and every turn that ended un-aborted, was begun. */
  ghost predicate TurnsRan(s: Sys) {
    && (forall id :: id in s.completed ==> id in s.ran)
    && forall n :: 0 <= n < |s.wakes| && (s.wakes[n].phase.Turn? || s.wakes[n].phase.Asking?) ==>
      s.wakes[n].phase.index < |s.wakes[n].batch| && s.wakes[n].batch[s.wakes[n].phase.index].id in s.ran
  }

  ghost predicate FateOk(s: Sys, g: (nat, Fate)) {
    (g.1.Delivered? ==> g.0 in s.completed) && (g.1.RedrivenAgain? ==> g.0 in s.handed)
  }

  ghost predicate FatesOk(s: Sys) {
    AllMarksOk(s) && TurnsRan(s) && forall g :: g in s.gone ==> FateOk(s, g)
  }

  lemma {:induction false} PickedFrom(ms: seq<Msg>)
    ensures forall m :: m in PriorityOf(ms) || m in RestOf(ms) || m in NotRedriven(ms) ==> m in ms
    ensures forall m :: m in AlreadyRedriven(ms) ==> m in ms && m.redriven
    decreases |ms|
  {
    if ms != [] {
      PickedFrom(Front(ms));
      assert ms == Front(ms) + [Last(ms)];
    }
  }

  lemma MergedFrom(queued: seq<Msg>, deferred: seq<Msg>)
    ensures forall m :: m in MergeQueues(queued, deferred) ==> m in queued || m in deferred
  {
    PickedFrom(queued);
    PickedFrom(deferred);
  }

  lemma MergeKeepsMarks(queued: seq<Msg>, deferred: seq<Msg>, handed: set<nat>)
    requires MarksOk(queued, handed) && MarksOk(deferred, handed)
    ensures MarksOk(MergeQueues(queued, deferred), handed)
  {
    MergedFrom(queued, deferred);
  }

  lemma TakeKeepsMarks(ms: seq<Msg>, handed: set<nat>)
    requires MarksOk(ms, handed)
    ensures MarksOk(Prioritize(ms), handed)
  {
    PickedFrom(ms);
  }

  lemma SendFates(s: Sys, priority: bool)
    requires FatesOk(s) && WellFormed(s)
    ensures FatesOk(Perform(s, Send(priority)))
  {
    var m := Msg(s.sent, priority, false, false);
    var pending := QueueAfterSend(s.pending, m);
    assert MarksOk(pending, s.handed);
    TakeKeepsMarks(pending, s.handed);
  }

  lemma ReviverFates(s: Sys, act: Act)
    requires FatesOk(s) && WellFormed(s) && Allowed(s, act)
    requires act.FetchSession? || act.AppendEntry? || act.EnqueueWake? || act.Resume?
    ensures FatesOk(Perform(s, act))
  {
    hide PriorityOf, RestOf, Next, Inv, IsWakeTask;
    var s' := Perform(s, act);
    match act
    case Resume => TakeKeepsMarks(s.pending, s.handed);
    case _ =>
  }

  lemma AfterTurnFates(s: Sys, n: nat, i: nat)
    requires FatesOk(s) && WellFormed(s) && n < |s.wakes| && s.wakes[n].phase == Turn(i)
    ensures FatesOk(AfterTurn(s, n, i))
  {
    hide PriorityOf, RestOf;
    var s' := AfterTurn(s, n, i);
    var batch := s.wakes[n].batch;
    MergeKeepsMarks(s.pending, Displayed(batch[i + 1..]), s.handed);
  }

  lemma RedriveFates(s: Sys, n: nat, i: nat)
    requires FatesOk(s) && n < |s.wakes| && i < |s.wakes[n].batch|
    ensures FatesOk(Redrive(s, n, i))
  {
    hide PriorityOf, RestOf, NotRedriven, AlreadyRedriven;
    var s' := Redrive(s, n, i);
    var rest := s.wakes[n].batch[i..];
    PickedFrom(rest);
    if NotRedriven(rest) != [] {
      MergeKeepsMarks(s.pending, Redriven(NotRedriven(rest)), s'.handed);
    }
  }

  lemma DropFates(s: Sys, n: nat, i: nat, f: Fate)
    requires FatesOk(s) && n < |s.wakes| && i < |s.wakes[n].batch| && !f.Delivered? && !f.RedrivenAgain?
    ensures FatesOk(DropRest(s, n, i, f))
  {
  }

  lemma FatesStep(s: Sys, act: Act)
    requires FatesOk(s) && WellFormed(s) && Allowed(s, act)
    ensures FatesOk(Perform(s, act))
  {
    hide PriorityOf, RestOf, NotRedriven, AlreadyRedriven, Next, Inv, Enabled, IsWakeTask;
    match act
    case Send(priority) => SendFates(s, priority);
    case TurnEnds(n, result) =>
      if result.Completed? {
        AfterTurnFates(s, n, s.wakes[n].phase.index);
      } else if result.TurnThrew? {
        DropFates(s, n, s.wakes[n].phase.index, Threw);
      }
    case GoneAnswered(n, answer) =>
      if answer.IsPresent? {
        RedriveFates(s, n, s.wakes[n].phase.index);
      } else {
        DropFates(s, n, s.wakes[n].phase.index, if answer.IsGone? then Missing else Threw);
      }
    case FetchSession(_) => ReviverFates(s, act);
    case AppendEntry(_) => ReviverFates(s, act);
    case EnqueueWake => ReviverFates(s, act);
    case Resume => ReviverFates(s, act);
    case _ =>
  }

  lemma {:induction false} FatesRun(s: Sys, acts: seq<Act>)
    requires FatesOk(s) && Exec(s, acts).Some?
    ensures FatesOk(Exec(s, acts).value)
    decreases |acts|
  {
    if acts != [] {
      FatesStep(s, acts[0]);
      FatesRun(Perform(s, acts[0]), acts[1..]);
    }
  }

  lemma {:induction false} ExecConcat(s: Sys, a: seq<Act>, b: seq<Act>)
    requires Exec(s, a).Some?
    ensures Exec(s, a + b) == Exec(Exec(s, a).value, b)
    decreases |a|
  {
    if a == [] {
      assert a + b == b;
    } else {
      assert (a + b)[0] == a[0] && (a + b)[1..] == a[1..] + b;
      ExecConcat(Perform(s, a[0]), a[1..], b);
    }
  }

  /** The part of wake `n`'s batch from its current message on. */
  function Remainder(s: Sys, n: nat): seq<Msg>
    requires n < |s.wakes| && (s.wakes[n].phase.Turn? || s.wakes[n].phase.Asking?)
    requires s.wakes[n].phase.index < |s.wakes[n].batch|
  {
    s.wakes[n].batch[s.wakes[n].phase.index..]
  }

  /** The step makes message `id` leave, and why. */
  ghost predicate LeavesBy(s: Sys, act: Act, id: nat, f: Fate)
    requires WellFormed(s) && Allowed(s, act)
  {
    match act
    case TurnEnds(n, Completed) => f.Delivered? && id == Remainder(s, n)[0].id
    case TurnEnds(n, TurnThrew) => f.Threw? && id in IdsOf(Remainder(s, n))
    case GoneAnswered(n, AskThrew) => f.Threw? && id in IdsOf(Remainder(s, n))
    case GoneAnswered(n, IsGone) => f.Missing? && id in IdsOf(Remainder(s, n))
    case GoneAnswered(n, IsPresent) => f.RedrivenAgain? && exists m :: m in Remainder(s, n) && m.redriven && m.id == id
    case FetchSession(found) => !found && f.Missing? && id in IdsOf(s.reviver.batch)
    case AppendEntry(ok) =>
      !ok && !s.reviver.batch[s.reviver.next].displayed && f.AppendFailed? && id in IdsOf(s.reviver.batch)
    case _ => false
  }

  lemma {:induction false} RedrivenAre(ms: seq<Msg>)
    ensures forall m :: m in AlreadyRedriven(ms) <==> m in ms && m.redriven
    decreases |ms|
  {
    if ms != [] {
      RedrivenAre(Front(ms));
      assert ms == Front(ms) + [Last(ms)];
    }
  }

  lemma FatesAre(ms: seq<Msg>, f: Fate)
    ensures forall g :: g in Fates(ms, f) <==> g.1 == f && exists m :: m in ms && m.id == g.0
  {
    forall m | m in ms
      ensures (m.id, f) in Fates(ms, f)
    {
      var k :| 0 <= k < |ms| && ms[k] == m;
      assert Fates(ms, f)[k] == (m.id, f);
    }
  }

  /** A message leaves in a step exactly by one of these causes. */
  lemma LeavesStep(s: Sys, act: Act, id: nat, f: Fate)
    requires WellFormed(s) && Allowed(s, act)
    ensures (id, f) in Perform(s, act).gone <==> (id, f) in s.gone || LeavesBy(s, act, id, f)
  {
    hide PriorityOf, RestOf, NotRedriven, AlreadyRedriven, Next, Enabled, IsWakeTask, HasPriority, Fates;
    match act
    case TurnEnds(n, r) =>
      var rest := Remainder(s, n);
      FatesAre([rest[0]], Delivered);
      FatesAre(rest, Threw);
    case GoneAnswered(n, answer) =>
      var rest := Remainder(s, n);
      RedrivenAre(rest);
      FatesAre(rest, Threw);
      FatesAre(rest, Missing);
      FatesAre(AlreadyRedriven(rest), RedrivenAgain);
    case FetchSession(_) => FatesAre(s.reviver.batch, Missing);
    case AppendEntry(_) => FatesAre(s.reviver.batch, AppendFailed);
    case _ =>
  }

  /** At step `k` of the run message `id` leaves. */
  ghost predicate LeavesAt(acts: seq<Act>, k: nat, id: nat, f: Fate) {
    && k < |acts| && Exec(INITIAL, acts[..k]).Some?
    && var s := Exec(INITIAL, acts[..k]).value;
       WellFormed(s) && Allowed(s, acts[k]) && LeavesBy(s, acts[k], id, f)
  }

  /** The run up to its last step, and that step. */
  lemma ExecLast(acts: seq<Act>)
    requires acts != [] && Exec(INITIAL, acts).Some?
    ensures Exec(INITIAL, Front(acts)).Some?
    ensures var s := Exec(INITIAL, Front(acts)).value;
      WellFormed(s) && Allowed(s, Last(acts)) && Exec(INITIAL, acts) == Some(Perform(s, Last(acts)))
  {
    assert Front(acts) + [Last(acts)] == acts;
    ExecPrefix(INITIAL, Front(acts), [Last(acts)]);
    ExecConcat(INITIAL, Front(acts), [Last(acts)]);
    var s := Exec(INITIAL, Front(acts)).value;
    if WellFormed(s) && Allowed(s, Last(acts)) {
      assert Exec(s, [Last(acts)]) == Exec(Perform(s, Last(acts)), []);
    }
  }

  lemma {:induction false} ExecPrefix(s: Sys, a: seq<Act>, b: seq<Act>)
    requires Exec(s, a + b).Some?
    ensures Exec(s, a).Some?
    decreases |a|
  {
    if a != [] {
      assert (a + b)[0] == a[0] && (a + b)[1..] == a[1..] + b;
      ExecPrefix(Perform(s, a[0]), a[1..], b);
    }
  }

  lemma {:induction false} LeftInTheRun(acts: seq<Act>, id: nat, f: Fate)
    requires Exec(INITIAL, acts).Some?
    ensures (id, f) in Exec(INITIAL, acts).value.gone <==> exists k :: LeavesAt(acts, k, id, f)
    decreases |acts|
  {
    hide Perform, LeavesBy, Allowed, WellFormed;
    if acts != [] {
      var before := Front(acts);
      ExecLast(acts);
      LeftInTheRun(before, id, f);
      LeavesStep(Exec(INITIAL, before).value, Last(acts), id, f);
      forall k | 0 <= k < |before|
        ensures LeavesAt(acts, k, id, f) <==> LeavesAt(before, k, id, f)
      {
        assert acts[..k] == before[..k] && acts[k] == before[k];
      }
      assert acts[..|before|] == before && acts[|before|] == Last(acts);
      assert LeavesAt(acts, |before|, id, f) <==> LeavesBy(Exec(INITIAL, before).value, Last(acts), id, f);
    }
  }

  /** Why messages leave. Over every run a message has left with a fate exactly if a step of the run
    * made it: its own turn ended un-aborted; its turn, one before it in the batch, or the question
    * after such a turn threw; that question found the recipient gone, or the recipient was missing
    * when the batch was fetched; a transcript append of its batch failed; or an abort at or before
    * it found it handed back before. What left as delivered has completed a turn it had begun. */
  lemma MessagesLeaveForAReason(acts: seq<Act>, id: nat, f: Fate)
    requires Exec(INITIAL, acts).Some?
    ensures
      var s := Exec(INITIAL, acts).value;
      && ((id, f) in s.gone <==> exists k :: LeavesAt(acts, k, id, f))
      && ((id, f) in s.gone && f.Delivered? ==> id in s.completed)
      && ((id, f) in s.gone && f.RedrivenAgain? ==> id in s.handed)
      && (id in s.completed ==> id in s.ran)
  {
    FatesRun(INITIAL, acts);
    LeftInTheRun(acts, id, f);
    var s := Exec(INITIAL, acts).value;
    assert (id, f) in s.gone ==> FateOk(s, (id, f));
  }

  // ---------------------------------------------------------------- a lost message

  /** A queue with nothing waiting and nothing running, about to number its next task `n`. */
  ghost predicate Quiet(q: Queue, n: nat) {
    && q.pendingUser == [] && q.pendingAgent == [] && q.pendingBackground == []
    && q.active.None? && q.runs == map[] && q.next == n && !q.disposed
  }

  ghost predicate OnlyRuns(q: Queue, n: nat, stage: Stage) {
    && q.pendingUser == [] && q.pendingAgent == [] && q.pendingBackground == []
    && q.active == Some(n) && q.runs == map[n := Run(Running, WatchdogArmed, stage)] && q.next == n + 1 && !q.disposed
  }

  function EndTask(n: nat): seq<Act> {
    [FinishWake(n), Sched(Settle(n)), Resume]
  }

  /** Message 2 has neither been run nor left. */
  ghost predicate SecondUntouched(s: Sys) {
    Tick(Some(2), s.ran) == 0 && Gone(Some(2), s.gone) == 0
  }

  function WakeQueued(s: Sys, n: nat, batch: seq<Msg>): Sys {
    var q1 := Next(s.q, Enqueue(Agent));
    s.(q := if Enabled(q1, Pump) then Next(q1, Pump) else q1,
       reviver := Awaiting(n), wakes := s.wakes + [Wake(n, batch, Queued)])
  }

  lemma EnqueueWakeRuns(s: Sys, n: nat)
    requires Quiet(s.q, n) && WellFormed(s)
    requires s.reviver.Appending? && s.reviver.next == |s.reviver.batch| && s.reviver.batch != []
    ensures Exec(s, [EnqueueWake, Sched(Pump)]) == Some(WakeQueued(s, n, s.reviver.batch))
    ensures WellFormed(WakeQueued(s, n, s.reviver.batch))
  {
    var s1 := Perform(s, EnqueueWake);
    var s2 := WakeQueued(s, n, s.reviver.batch);
    assert s1.wakes == s2.wakes && WellFormed(s1) && WellFormed(s2);
    assert Perform(s1, Sched(Pump)) == s2;
    assert Exec(s1, [Sched(Pump)]) == Exec(s2, []);
    assert [EnqueueWake, Sched(Pump)][1..] == [Sched(Pump)];
  }

  lemma StartWakeRuns(s: Sys, n: nat)
    requires OnlyRuns(s.q, n, Dispatching) && WellFormed(s) && |s.wakes| == n + 1
    requires s.wakes[n].task == n && s.wakes[n].phase.Queued? && s.wakes[n].batch[0].id != 2 && SecondUntouched(s)
    ensures Exec(s, [StartWake(n)]).Some?
    ensures var s' := Exec(s, [StartWake(n)]).value;
      && OnlyRuns(s'.q, n, Executing) && WellFormed(s') && SecondUntouched(s')
      && s' == s.(q := s'.q, ran := s'.ran, wakes := s.wakes[n := s.wakes[n].(phase := Turn(0))])
  {
    hide Tick, Gone;
    var s1 := Perform(s, StartWake(n));
    TickSnoc(Some(2), s.ran, s.wakes[n].batch[0].id);
    assert Exec(s, [StartWake(n)]) == Exec(s1, []);
  }

  lemma EndTaskRuns(s: Sys, n: nat)
    requires OnlyRuns(s.q, n, Executing) && |s.wakes| == n + 1 && WellFormed(s) && s.pending != []
    requires s.wakes[n].phase.Over? && s.wakes[n].task == n && s.reviver == Awaiting(n)
    ensures Exec(s, EndTask(n)).Some?
    ensures var s' := Exec(s, EndTask(n)).value;
      && Quiet(s'.q, n + 1) && WellFormed(s')
      && s' == s.(q := s'.q, pending := [], reviver := Fetching(Prioritize(s.pending)))
  {
    hide PriorityOf, RestOf, Tick, Gone;
    var s1 := Perform(s, FinishWake(n));
    assert OnlyRuns(s1.q, n, Finished) && WellFormed(s1);
    var s2 := Perform(s1, Sched(Settle(n)));
    assert Quiet(s2.q, n + 1) && n in s2.q.released && WellFormed(s2);
    var s3 := Perform(s2, Resume);
    assert Exec(s, EndTask(n)) == Exec(s1, [Sched(Settle(n)), Resume]);
    assert Exec(s1, [Sched(Settle(n)), Resume]) == Exec(s2, [Resume]);
    assert Exec(s2, [Resume]) == Exec(s3, []);
  }

  function TwoMessages(redriven: bool): seq<Msg> {
    [Msg(1, false, redriven, redriven), Msg(2, false, redriven, redriven)]
  }

  /** Messages 1 and 2 have just been taken as a batch by an otherwise idle recipient. */
  ghost predicate TakenBoth(s: Sys, n: nat, redriven: bool) {
    && Quiet(s.q, n) && |s.wakes| == n && WellFormed(s) && SecondUntouched(s)
    && s.reviver == Fetching(TwoMessages(redriven)) && s.pending == []
  }

  lemma RedriveTwo(redriven: bool)
    ensures NotRedriven(TwoMessages(redriven)) == if redriven then [] else TwoMessages(false)
    ensures AlreadyRedriven(TwoMessages(redriven)) == if redriven then TwoMessages(true) else []
    ensures MergeQueues([], Redriven(TwoMessages(false))) == TwoMessages(true)
    ensures Prioritize(TwoMessages(redriven)) == TwoMessages(redriven)
  {
    var ms := TwoMessages(redriven);
    assert Front(ms) == [ms[0]] && Front([ms[0]]) == [];
    var rs := TwoMessages(true);
    assert Redriven(TwoMessages(false)) == rs;
    assert Front(rs) == [rs[0]] && Front([rs[0]]) == [];
    assert PriorityOf(rs) == [] && RestOf(rs) == rs;
    assert PriorityOf(ms) == [] && RestOf(ms) == ms;
  }

  lemma TallyTwo(redriven: bool)
    ensures Tally(Presence, Some(2), TwoMessages(redriven)) == 1 && Tally(Presence, Some(2), []) == 0
  {
    var ms := TwoMessages(redriven);
    assert Front(ms) == [ms[0]] && Front([ms[0]]) == [];
  }

  lemma AnsweredRuns(s: Sys, n: nat, redriven: bool)
    requires WellFormed(s) && |s.wakes| == n + 1 && s.wakes[n] == Wake(n, TwoMessages(redriven), Asking(0))
    requires s.pending == [] && Gone(Some(2), s.gone) == 0
    ensures var r := Redrive(s, n, 0);
      && Perform(s, GoneAnswered(n, IsPresent)) == r && WellFormed(r)
      && r.pending == (if redriven then [] else TwoMessages(true))
      && Gone(Some(2), r.gone) == (if redriven then 1 else 0)
  {
    hide Tally, Gone, PriorityOf, RestOf, NotRedriven, AlreadyRedriven, Redriven, MergeQueues, Fates;
    RedriveTwo(redriven);
    var ms := TwoMessages(redriven);
    assert ms[0..] == ms;
    GoneFates(Some(2), s.gone, AlreadyRedriven(ms), RedrivenAgain);
    TallyTwo(true);
  }

  /** The turn of message 1 is aborted: both messages are re-driven the first time, and both are
    * dropped the second time, although message 2 never had a turn. */
  lemma AbortRuns(s: Sys, n: nat, redriven: bool)
    requires WellFormed(s) && |s.wakes| == n + 1 && s.wakes[n] == Wake(n, TwoMessages(redriven), Turn(0))
    requires s.pending == [] && Gone(Some(2), s.gone) == 0
    ensures var r := Exec(s, [TurnEnds(n, Aborted), GoneAnswered(n, IsPresent)]);
      && r.Some? && WellFormed(r.value)
      && r.value == s.(wakes := s.wakes[n := s.wakes[n].(phase := Over)],
                             pending := r.value.pending, gone := r.value.gone,
                             handed := r.value.handed)
      && r.value.pending == (if redriven then [] else TwoMessages(true))
      && Gone(Some(2), r.value.gone) == (if redriven then 1 else 0)
  {
    hide Tally, Gone, PriorityOf, RestOf, NotRedriven, AlreadyRedriven;
    var s1 := SetPhase(s, n, Asking(0));
    assert Perform(s, TurnEnds(n, Aborted)) == s1 && WellFormed(s1);
    AnsweredRuns(s1, n, redriven);
    var s2 := Redrive(s1, n, 0);
    assert s1.wakes[n := s1.wakes[n].(phase := Over)] == s.wakes[n := s.wakes[n].(phase := Over)];
    assert Exec(s2, []) == Some(s2);
    assert Exec(s1, [GoneAnswered(n, IsPresent)]) == Some(s2);
    assert [TurnEnds(n, Aborted), GoneAnswered(n, IsPresent)][1..] == [GoneAnswered(n, IsPresent)];
  }

  function AbortedRound(n: nat): seq<Act> {
    [FetchSession(true), AppendEntry(true), AppendEntry(true)] + [EnqueueWake, Sched(Pump)] + [StartWake(n)]
    + [TurnEnds(n, Aborted), GoneAnswered(n, IsPresent)]
  }

  lemma AbortedRoundRuns(s: Sys, n: nat, redriven: bool)
    requires TakenBoth(s, n, redriven)
    ensures Exec(s, AbortedRound(n)).Some?
    ensures var s' := Exec(s, AbortedRound(n)).value;
      && OnlyRuns(s'.q, n, Executing) && |s'.wakes| == n + 1 && WellFormed(s')
      && s'.wakes[n].phase.Over? && s'.wakes[n].task == n && s'.reviver == Awaiting(n)
      && s'.pending == (if redriven then [] else TwoMessages(true))
      && Tick(Some(2), s'.ran) == 0 && Gone(Some(2), s'.gone) == (if redriven then 1 else 0)
      && s'.sent == s.sent
  {
    var a, b, c, d := [FetchSession(true), AppendEntry(true), AppendEntry(true)], [EnqueueWake, Sched(Pump)],
      [StartWake(n)], [TurnEnds(n, Aborted), GoneAnswered(n, IsPresent)];
    var s1 := Exec(s, a).value;
    EnqueueWakeRuns(s1, n);
    var s2 := WakeQueued(s1, n, TwoMessages(redriven));
    StartWakeRuns(s2, n);
    var s3 := Exec(s2, c).value;
    AbortRuns(s3, n, redriven);
    ExecConcat(s, a, b);
    ExecConcat(s, a + b, c);
    ExecConcat(s, a + b + c, d);
  }

  /** Three messages arrive; the first one's recipient is missing, and the reviver comes back. */
  function ThreeArrive(): seq<Act> {
    [Send(false), Send(false), Send(false), FetchSession(false), Resume]
  }

  function AfterThree(): Sys {
    INITIAL.(sent := 3, reviver := Fetching([Msg(0, false, false, false)]), pending := TwoMessages(false))
  }

  lemma OneIsPrioritized(m: Msg)
    requires !m.priority
    ensures Prioritize([m]) == [m]
  {
    assert Front([m]) == [];
    assert PriorityOf([m]) == [] && RestOf([m]) == [m];
  }

  lemma ThreeSends()
    ensures Exec(INITIAL, [Send(false), Send(false), Send(false)]) == Some(AfterThree())
  {
    hide PriorityOf, RestOf;
    var m0 := Msg(0, false, false, false);
    var ms := TwoMessages(false);
    OneIsPrioritized(m0);
    var s1 := INITIAL.(sent := 1, reviver := Fetching([m0]));
    assert [] + [m0] == [m0];
    assert Perform(INITIAL, Send(false)) == s1;
    var s2 := s1.(sent := 2, pending := [ms[0]]);
    assert Perform(s1, Send(false)) == s2;
    assert Perform(s2, Send(false)) == AfterThree();
    assert Exec(s2, [Send(false)]) == Exec(AfterThree(), []);
    assert Exec(s1, [Send(false), Send(false)]) == Exec(s2, [Send(false)]);
  }

  /** The recipient of the first message is missing, and the reviver takes the other two. */
  lemma DropAndTake(s: Sys, m: Msg)
    requires s.reviver == Fetching([m]) && m.id != 2 && s.pending == TwoMessages(false) && Quiet(s.q, 0)
    requires s.wakes == [] && s.ran == [] && s.gone == []
    ensures Exec(s, [FetchSession(false), Resume]).Some?
    ensures var r := Exec(s, [FetchSession(false), Resume]).value;
      TakenBoth(r, 0, false) && r.sent == s.sent
  {
    hide PriorityOf, RestOf, NotRedriven, AlreadyRedriven, Gone, Tick, Tally;
    RedriveTwo(false);
    var s1 := s.(reviver := Returned, gone := [(m.id, Missing)]);
    assert Fates([m], Missing) == [(m.id, Missing)] && [] + [(m.id, Missing)] == [(m.id, Missing)];
    assert Perform(s, FetchSession(false)) == s1;
    OneGone(m.id, Missing);
    NothingRan();
    var s2 := s1.(reviver := Fetching(TwoMessages(false)), pending := []);
    assert Perform(s1, Resume) == s2;
    assert Exec(s1, [Resume]) == Exec(s2, []);
  }

  lemma NothingRan()
    ensures Tick(Some(2), []) == 0
  {
  }

  lemma OneGone(id: nat, f: Fate)
    requires id != 2
    ensures Gone(Some(2), [(id, f)]) == 0
  {
    assert Front([(id, f)]) == [];
  }

  lemma ThreeArriveRuns()
    ensures Exec(INITIAL, ThreeArrive()).Some?
    ensures var s := Exec(INITIAL, ThreeArrive()).value;
      TakenBoth(s, 0, false) && s.sent == 3
  {
    hide PriorityOf, RestOf, TakenBoth;
    var a, b := [Send(false), Send(false), Send(false)], [FetchSession(false), Resume];
    ThreeSends();
    DropAndTake(AfterThree(), Msg(0, false, false, false));
    ExecConcat(INITIAL, a, b);
    assert ThreeArrive() == a + b;
  }

  function LossWitness(): seq<Act> {
    ThreeArrive() + AbortedRound(0) + EndTask(0) + AbortedRound(1)
  }

  /** The re-drive is not at-least-once: in this run message 2 was sent, has left the system,
    * and never had a turn. */
  lemma AMessageCanLeaveUnrun()
    ensures Exec(INITIAL, LossWitness()).Some?
    ensures var s := Exec(INITIAL, LossWitness()).value;
      s.sent == 3 && Gone(Some(2), s.gone) == 1 && Tick(Some(2), s.ran) == 0
  {
    ThreeArriveRuns();
    var s1 := Exec(INITIAL, ThreeArrive()).value;
    AbortedRoundRuns(s1, 0, false);
    var s2 := Exec(s1, AbortedRound(0)).value;
    EndTaskRuns(s2, 0);
    var s3 := Exec(s2, EndTask(0)).value;
    RedriveTwo(true);
    AbortedRoundRuns(s3, 1, true);
    ExecConcat(INITIAL, ThreeArrive(), AbortedRound(0));
    ExecConcat(INITIAL, ThreeArrive() + AbortedRound(0), EndTask(0));
    ExecConcat(INITIAL, ThreeArrive() + AbortedRound(0) + EndTask(0), AbortedRound(1));
  }

  // ---------------------------------------------------------------- a stranded message

  /** The wake escapes its watchdog, and its reviver finds the queue empty and goes. */
  lemma EscapeRuns(s: Sys, n: nat)
    requires OnlyRuns(s.q, n, Executing) && WellFormed(s) && s.reviver == Awaiting(n) && s.pending == []
    ensures var r := Exec(s, [Sched(WatchdogFires(n)), Sched(GraceFires(n)), Resume]);
      r.Some? && r.value == s.(q := r.value.q, reviver := Absent)
  {
    var s1 := Perform(s, Sched(WatchdogFires(n)));
    assert s1.q.runs[n] == Run(WatchdogGrace, GraceArmed, Executing) && WellFormed(s1);
    var s2 := Perform(s1, Sched(GraceFires(n)));
    assert n in s2.q.released && WellFormed(s2);
    var s3 := Perform(s2, Resume);
    assert Exec(s2, [Resume]) == Exec(s3, []);
    assert Exec(s1, [Sched(GraceFires(n)), Resume]) == Exec(s2, [Resume]);
  }

  /** The escaped turn is aborted, and the message is handed back to a queue nobody revives. */
  lemma LateAbortRuns(s: Sys, n: nat, m: Msg)
    requires WellFormed(s) && |s.wakes| == n + 1 && s.wakes[n] == Wake(n, [m], Turn(0))
    requires s.reviver.Absent? && s.pending == [] && !m.redriven
    ensures var r := Exec(s, [TurnEnds(n, Aborted), GoneAnswered(n, IsPresent)]);
      r.Some? && Stranded(r.value)
  {
    OneIsKept(m);
    hide PriorityOf, RestOf, NotRedriven, AlreadyRedriven;
    var s1 := SetPhase(s, n, Asking(0));
    assert Perform(s, TurnEnds(n, Aborted)) == s1 && WellFormed(s1);
    assert [m][0..] == [m];
    var s2 := Redrive(s1, n, 0);
    assert Exec(s1, [GoneAnswered(n, IsPresent)]) == Exec(s2, []);
    assert [TurnEnds(n, Aborted), GoneAnswered(n, IsPresent)][1..] == [GoneAnswered(n, IsPresent)];
  }

  lemma OneIsKept(m: Msg)
    requires !m.redriven
    ensures NotRedriven([m]) == [m]
  {
    assert Front([m]) == [];
  }

  /** One message arrives, is fetched and appended. */
  lemma OneArrives()
    ensures
      var m := Msg(0, false, false, false);
      Exec(INITIAL, [Send(false), FetchSession(true), AppendEntry(true)])
        == Some(INITIAL.(sent := 1, reviver := Appending([m], 1), entries := [0]))
  {
    hide PriorityOf, RestOf;
    var m := Msg(0, false, false, false);
    OneIsPrioritized(m);
    assert [] + [m] == [m];
    var s1 := INITIAL.(sent := 1, reviver := Fetching([m]));
    assert Perform(INITIAL, Send(false)) == s1;
    var s2 := s1.(reviver := Appending([m], 0));
    assert Perform(s1, FetchSession(true)) == s2;
    var s3 := s2.(reviver := Appending([m], 1), entries := [0]);
    assert [] + [0] == [0];
    assert Perform(s2, AppendEntry(true)) == s3;
    assert Exec(s2, [AppendEntry(true)]) == Exec(s3, []);
    assert Exec(s1, [FetchSession(true), AppendEntry(true)]) == Exec(s2, [AppendEntry(true)]);
  }

  function StrandWitness(): seq<Act> {
    [Send(false), FetchSession(true), AppendEntry(true)] + [EnqueueWake, Sched(Pump)] + [StartWake(0)]
    + [Sched(WatchdogFires(0)), Sched(GraceFires(0)), Resume] + [TurnEnds(0, Aborted), GoneAnswered(0, IsPresent)]
  }

  /** A message can wait for ever: this run ends with one queued and no reviver. */
  lemma AMessageCanBeStranded()
    ensures Exec(INITIAL, StrandWitness()).Some? && Stranded(Exec(INITIAL, StrandWitness()).value)
  {
    var m := Msg(0, false, false, false);
    var a, b, c := [Send(false), FetchSession(true), AppendEntry(true)], [EnqueueWake, Sched(Pump)], [StartWake(0)];
    var d := [Sched(WatchdogFires(0)), Sched(GraceFires(0)), Resume];
    var e := [TurnEnds(0, Aborted), GoneAnswered(0, IsPresent)];
    OneArrives();
    var s1 := Exec(INITIAL, a).value;
    EnqueueWakeRuns(s1, 0);
    var s2 := WakeQueued(s1, 0, [m]);
    StartWakeRuns(s2, 0);
    var s3 := Exec(s2, c).value;
    EscapeRuns(s3, 0);
    var s4 := Exec(s3, d).value;
    LateAbortRuns(s4, 0, m);
    ExecConcat(INITIAL, a, b);
    ExecConcat(INITIAL, a + b, c);
    ExecConcat(INITIAL, a + b + c, d);
    ExecConcat(INITIAL, a + b + c + d, e);
  }

  // ---------------------------------------------------------------- the messaging object

  /** `rest` is what wake `n` has from `ahead` messages after its current one, and is not empty. */
  ghost predicate IsRest(s: Sys, n: nat, ahead: nat, rest: seq<Msg>) {
    && n < |s.wakes| && (s.wakes[n].phase.Turn? || s.wakes[n].phase.Asking?)
    && s.wakes[n].phase.index + ahead < |s.wakes[n].batch|
    && rest == s.wakes[n].batch[s.wakes[n].phase.index + ahead..]
  }

  /** The queues of all recipients; each method is the synchronous code between two awaits, for
    * one recipient, and leaves every other recipient alone. */
  class Messaging {
    var pendingInbound: map<string, seq<Msg>>
    var reviving: set<string>

    function PendingOf(agent: string): seq<Msg>
      reads this
    {
      if agent in pendingInbound then pendingInbound[agent] else []
    }

    /** The agent's queue and reviver are those of `s`. */
    ghost predicate Shows(agent: string, s: Sys)
      reads this
    {
      PendingOf(agent) == s.pending && (agent in reviving <==> !s.reviver.Absent?)
    }

    twostate predicate OthersUnchanged(agent: string)
      reads this
    {
      forall a :: a != agent ==> PendingOf(a) == old(PendingOf(a)) && (a in reviving <==> a in old(reviving))
    }

    constructor ()
      ensures pendingInbound == map[] && reviving == {}
    {
      pendingInbound, reviving := map[], {};
    }

    /** The reviver's loop head: the next batch, or nothing and the reviver is gone. It is the machine's
      * `Resume`. */
    method TakeNextBatch(agent: string, ghost s: Sys) returns (batch: seq<Msg>)
      modifies this
      ensures old(Shows(agent, s)) && Allowed(s, Resume) && WellFormed(s) ==>
        Shows(agent, Perform(s, Resume)) && (batch != [] ==> Perform(s, Resume).reviver == Fetching(batch))
      ensures batch == Prioritize(old(PendingOf(agent)))
      ensures PendingOf(agent) == [] && OthersUnchanged(agent)
      ensures agent in reviving <==> agent in old(reviving) && old(PendingOf(agent)) != []
    {
      var queued := PendingOf(agent);
      if |queued| > 0 {
        batch := Prioritize(queued);
        pendingInbound := pendingInbound - {agent};
      } else {
        batch := [];
        reviving := reviving - {agent};
      }
    }

    /** Queue a message and wake the recipient if nobody is reviving it. It is the machine's `Send`. */
    method SendQueued(agent: string, m: Msg, ghost s: Sys) returns (batch: seq<Msg>)
      modifies this
      ensures old(Shows(agent, s)) && WellFormed(s) && m == Msg(s.sent, m.priority, false, false) ==>
        && Shows(agent, Perform(s, Send(m.priority)))
        && (s.reviver.Absent? ==> Perform(s, Send(m.priority)).reviver == Fetching(batch))
      ensures agent in reviving && OthersUnchanged(agent)
      ensures if agent in old(reviving) then batch == [] && PendingOf(agent) == QueueAfterSend(old(PendingOf(agent)), m)
              else PendingOf(agent) == [] && batch == Prioritize(QueueAfterSend(old(PendingOf(agent)), m))
    {
      var queued := PendingOf(agent);
      if m.priority {
        pendingInbound := pendingInbound[agent := [m] + queued];
      } else {
        queued := queued + [m];
        pendingInbound := pendingInbound[agent := queued];
      }
      batch := [];
      if agent !in reviving {
        reviving := reviving + {agent};
        batch := TakeNextBatch(agent, s);
      }
    }

    /** Between two messages of a wake: hand the rest back if a priority message has arrived. It is
      * what the machine's `TurnEnds` does to the queue after a turn that was not the batch's last. */
    method YieldToPriority(agent: string, rest: seq<Msg>, ghost s: Sys, ghost n: nat) returns (yielded: bool)
      modifies this
      ensures old(Shows(agent, s)) && WellFormed(s) && Allowed(s, TurnEnds(n, Completed)) && IsRest(s, n, 1, rest) ==>
        && Shows(agent, Perform(s, TurnEnds(n, Completed)))
        && (yielded <==> Perform(s, TurnEnds(n, Completed)).wakes[n].phase.Over?)
      ensures yielded <==> HasPriority(old(PendingOf(agent)))
      ensures PendingOf(agent) ==
        if yielded then MergeQueues(old(PendingOf(agent)), Displayed(rest)) else old(PendingOf(agent))
      ensures reviving == old(reviving) && OthersUnchanged(agent)
    {
      var queued := PendingOf(agent);
      yielded := exists m :: m in queued && m.priority;
      if yielded {
        pendingInbound := pendingInbound[agent := MergeQueues(queued, Displayed(rest))];
      }
    }

    /** After an aborted turn of a live agent: hand back what was not re-driven before. It is what the
      * machine's `GoneAnswered` does to the queue. */
    method RedriveRest(agent: string, rest: seq<Msg>, ghost s: Sys, ghost n: nat)
      modifies this
      ensures (old(Shows(agent, s)) && WellFormed(s) && Allowed(s, GoneAnswered(n, IsPresent)) && IsRest(s, n, 0, rest))
        ==> Shows(agent, Perform(s, GoneAnswered(n, IsPresent)))
      ensures PendingOf(agent) ==
        if NotRedriven(rest) == [] then old(PendingOf(agent))
        else MergeQueues(old(PendingOf(agent)), Redriven(NotRedriven(rest)))
      ensures reviving == old(reviving) && OthersUnchanged(agent)
    {
      var redrivable := Redriven(NotRedriven(rest));
      if |redrivable| == 0 {
        return;
      }
      pendingInbound := pendingInbound[agent := MergeQueues(PendingOf(agent), redrivable)];
    }
  }
}
