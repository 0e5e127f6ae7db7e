/** User prompts to one agent that has a runner, composed with that agent's run scheduler: each
  * prompt is appended to the transcript, bumps the agent's epoch and queues a turn on the user
  * lane; a turn whose epoch is stale when it starts skips itself.
  */
module Supersede {
  import opened Prelude
  import opened RunScheduler

  /** A send between its awaits: fetching the session, appending its transcript entry, about to
    * bump the epoch, awaiting its turn's caller-facing promise, or over (`ok` unless it failed
    * before its entry was appended). */
  datatype Stage = Fetching | Appending | Bumping | Waiting(task: TaskId) | Over(ok: bool)

  datatype Send = Send(nonce: Option<string>, stage: Stage)

  datatype Turn = Turn(epoch: nat, prompt: nat)

  /** A prompt is numbered by its send. `transcript`, `ran` and `skipped` are histories of
    * prompts; `calls` maps every `sendUserPrompt` call to the send that serves it. */
  datatype Host = Host(
    q: Queue,
    epoch: nat,
    sends: seq<Send>,
    inFlight: map<string, nat>,
    turns: map<TaskId, Turn>,
    transcript: seq<nat>,
    ran: seq<nat>,
    skipped: seq<nat>,
    calls: seq<nat>)

  const INITIAL := Host(Empty(false), 0, [], map[], map[], [], [], [], [])

  datatype Act =
    | Prompt(nonce: Option<string>)
    | SessionFetched(p: nat)
    | EntryAppended(p: nat)
    | Bump(p: nat)
    | StartTurn(task: TaskId)
    | Answered(p: nat)
    | Failed(p: nat)
    | Sched(a: Action)

  /** Other work reaches the scheduler on the other lanes only, and a turn's body is started by
    * `StartTurn`; whether and when it ends is left to the runner. */
  predicate Allowed(h: Host, act: Act) {
    match act
    case Prompt(_) => true
    case SessionFetched(p) => p < |h.sends| && h.sends[p].stage.Fetching?
    case EntryAppended(p) => p < |h.sends| && h.sends[p].stage.Appending?
    case Bump(p) => p < |h.sends| && h.sends[p].stage.Bumping?
    case StartTurn(task) => task in h.turns && Enabled(h.q, Start(task))
    case Answered(p) => p < |h.sends| && h.sends[p].stage.Waiting? && h.sends[p].stage.task in h.q.released
    case Failed(p) => p < |h.sends| && (h.sends[p].stage.Fetching? || h.sends[p].stage.Appending?)
    case Sched(a) => Enabled(h.q, a) && a != Enqueue(User) && (a.Start? ==> a.id !in h.turns)
  }

  function WithStage(h: Host, p: nat, s: Stage): Host
    requires p < |h.sends|
  {
    h.(sends := h.sends[p := h.sends[p].(stage := s)])
  }

  function Finish(h: Host, p: nat, ok: bool): Host
    requires p < |h.sends|
  {
    var s := WithStage(h, p, Over(ok));
    if h.sends[p].nonce.Some? then s.(inFlight := h.inFlight - {h.sends[p].nonce.value}) else s
  }

  function Perform(h: Host, act: Act): Host
    requires Allowed(h, act)
  {
    match act
    case Prompt(nonce) =>
      if nonce.Some? && nonce.value in h.inFlight then h.(calls := h.calls + [h.inFlight[nonce.value]])
      else
        h.(sends := h.sends + [Send(nonce, Fetching)], calls := h.calls + [|h.sends|],
           inFlight := if nonce.Some? then h.inFlight[nonce.value := |h.sends|] else h.inFlight)
    case SessionFetched(p) => WithStage(h, p, Appending)
    case EntryAppended(p) => WithStage(h, p, Bumping).(transcript := h.transcript + [p])
    case Bump(p) =>
      WithStage(h, p, Waiting(h.q.next)).(
        epoch := h.epoch + 1,
        q := Next(h.q, Enqueue(User)),
        turns := h.turns[h.q.next := Turn(h.epoch + 1, p)])
    case StartTurn(task) =>
      var turn := h.turns[task];
      var s := h.(q := Next(h.q, Start(task)));
      if turn.epoch != h.epoch then s.(skipped := h.skipped + [turn.prompt])
      else s.(ran := h.ran + [turn.prompt])
    case Answered(p) => Finish(h, p, true)
    case Failed(p) => Finish(h, p, false)
    case Sched(a) => h.(q := Next(h.q, a))
  }

  function Exec(h: Host, acts: seq<Act>): Option<Host>
    decreases |acts|
  {
    if acts == [] then Some(h)
    else if Allowed(h, acts[0]) then Exec(Perform(h, acts[0]), acts[1..])
    else None
  }

  // ---------------------------------------------------------------- epochs and the user lane

  /** The k-th turn ever queued carries epoch k, and a turn that was dispatched but has not
    * started is the latest turn dispatched. */
  ghost predicate EpochsOk(h: Host) {
    var queued := EnqueuedIn(h.q.log, User);
    var taken := DispatchedIn(h.q.log, User);
    && Inv(h.q)
    && |queued| == h.epoch
    && (forall i :: 0 <= i < h.epoch ==> queued[i] in h.turns && h.turns[queued[i]].epoch == i + 1)
    && (forall t :: t in h.turns ==> t < h.q.next && (t in h.q.pendingUser || t in h.q.runs || t in h.q.settled))
    && (forall t :: t in h.turns && t in h.q.runs && h.q.runs[t].stage.Dispatching? ==> taken != [] && Last(taken) == t)
  }

  /** The scheduler action inside a step, if any. */
  function QueueAction(act: Act): Option<Action> {
    match act
    case Bump(_) => Some(Enqueue(User))
    case StartTurn(task) => Some(Start(task))
    case Sched(a) => Some(a)
    case _ => None
  }

  lemma UserLaneStep(q: Queue, a: Action)
    requires Inv(q) && Enabled(q, a)
    ensures EnqueuedIn(Next(q, a).log, User) == EnqueuedIn(q.log, User) + (if a == Enqueue(User) then [q.next] else [])
    ensures DispatchedIn(Next(q, a).log, User) ==
      DispatchedIn(q.log, User) + (if DispatchedLane(q, a) == Some(User) then [q.pendingUser[0]] else [])
  {
    LogChange(q, a);
    var evs := StepEvent(q, a);
    if evs == [] {
      assert Next(q, a).log == q.log;
    } else {
      assert evs == [evs[0]];
      LogSnoc(q.log, evs[0], User);
    }
  }

  /** While a dispatched task has not started nothing else is dispatched. */
  lemma NothingUnstartedAtDispatch(q: Queue, a: Action)
    requires Inv(q) && Enabled(q, a) && DispatchedLane(q, a).Some?
    ensures forall t :: t in q.runs ==> !q.runs[t].stage.Dispatching?
  {
  }

  lemma UnstartedStep(q: Queue, a: Action, t: TaskId)
    requires Inv(q) && Enabled(q, a)
    requires t in Next(q, a).runs && Next(q, a).runs[t].stage.Dispatching?
    ensures (t in q.runs && q.runs[t].stage.Dispatching?) ||
      (DispatchedLane(q, a).Some? && t == LaneOf(q, DispatchedLane(q, a).value)[0])
  {
  }

  lemma UnstartedTurnIsLatest(h: Host, a: Action, t: TaskId)
    requires EpochsOk(h) && Enabled(h.q, a) && t in h.turns
    requires t in Next(h.q, a).runs && Next(h.q, a).runs[t].stage.Dispatching?
    ensures var taken := DispatchedIn(Next(h.q, a).log, User); taken != [] && Last(taken) == t
  {
    UserLaneStep(h.q, a);
    UnstartedStep(h.q, a, t);
    if DispatchedLane(h.q, a).Some? {
      NothingUnstartedAtDispatch(h.q, a);
      var l := DispatchedLane(h.q, a).value;
      assert t in LaneOf(h.q, l);
    }
  }

  lemma TurnPlaceStep(q: Queue, a: Action, t: TaskId)
    requires Enabled(q, a) && (t in q.pendingUser || t in q.runs || t in q.settled)
    ensures var q' := Next(q, a); t in q'.pendingUser || t in q'.runs || t in q'.settled
  {
    LaneChange(q, a, User);
    assert q.pendingUser == LaneOf(q, User);
  }

  lemma QueueStep(h: Host, act: Act)
    requires EpochsOk(h) && Allowed(h, act) && QueueAction(act).Some?
    ensures EpochsOk(Perform(h, act))
  {
    hide EnqueuedIn, DispatchedIn, HistoryOk, StartsOk, TimersOk, WakeOk, LanesOk;
    var a := QueueAction(act).value;
    var h' := Perform(h, act);
    InvStep(h.q, a);
    UserLaneStep(h.q, a);
    RunsChange(h.q, a);
    forall t | t in h'.turns
      ensures t < h'.q.next && (t in h'.q.pendingUser || t in h'.q.runs || t in h'.q.settled)
    {
      if t in h.turns {
        TurnPlaceStep(h.q, a, t);
      } else {
        LaneChange(h.q, a, User);
        assert t in LaneOf(h'.q, User);
      }
    }
    forall t | t in h'.turns && t in h'.q.runs && h'.q.runs[t].stage.Dispatching?
      ensures DispatchedIn(h'.q.log, User) != [] && Last(DispatchedIn(h'.q.log, User)) == t
    {
      assert t in h.turns || (t == h.q.next && t !in h.q.runs);
      UnstartedTurnIsLatest(h, a, t);
    }
  }

  // Every prompt has one transcript entry once its append is through, and at most one turn; a
  // send that is not over owns its nonce.

  ghost predicate TranscriptOk(h: Host) {
    && (forall p :: p in h.transcript ==> p < |h.sends| && Appended(h.sends[p].stage))
    && (forall p :: 0 <= p < |h.sends| && Appended(h.sends[p].stage) ==> p in h.transcript)
    && (forall i, j :: 0 <= i < j < |h.transcript| ==> h.transcript[i] != h.transcript[j])
  }

  ghost predicate TurnsOk(h: Host) {
    && (forall t :: t in h.turns ==> HasTurn(h, h.turns[t].prompt))
    && (forall p :: 0 <= p < |h.sends| && HasTurn(h, p) ==> exists t :: t in h.turns && h.turns[t].prompt == p)
    && (forall p :: 0 <= p < |h.sends| && h.sends[p].stage.Waiting? ==>
          h.sends[p].stage.task in h.turns && h.turns[h.sends[p].stage.task].prompt == p)
    && (forall t, u {:trigger h.turns[t], h.turns[u]} ::
          t in h.turns && u in h.turns && t != u ==> h.turns[t].prompt != h.turns[u].prompt)
  }

  ghost predicate NoncesOk(h: Host) {
    && (forall n :: n in h.inFlight ==> UnderWay(h, h.inFlight[n], n))
    && (forall p :: 0 <= p < |h.sends| && !h.sends[p].stage.Over? && h.sends[p].nonce.Some? ==>
          h.sends[p].nonce.value in h.inFlight && h.inFlight[h.sends[p].nonce.value] == p)
  }

  /** Send `p` carries the nonce `n` and is not over. */
  predicate UnderWay(h: Host, p: nat, n: string) {
    p < |h.sends| && h.sends[p].nonce == Some(n) && !h.sends[p].stage.Over?
  }

  predicate Appended(s: Stage) {
    s.Bumping? || s.Waiting? || (s.Over? && s.ok)
  }

  ghost predicate HostInv(h: Host) {
    EpochsOk(h) && TranscriptOk(h) && TurnsOk(h) && NoncesOk(h)
  }

  lemma TranscriptStep(h: Host, act: Act)
    requires TranscriptOk(h) && Allowed(h, act)
    ensures TranscriptOk(Perform(h, act))
  {
    if !act.EntryAppended? {
      assert Perform(h, act).transcript == h.transcript;
    }
  }

  /** A send that awaits its turn, or has had its answer. */
  predicate HasTurn(h: Host, p: nat) {
    p < |h.sends| && (h.sends[p].stage.Waiting? || h.sends[p].stage == Over(true))
  }

  lemma HasTurnStep(h: Host, act: Act, p: nat)
    requires Allowed(h, act) && HasTurn(h, p)
    ensures HasTurn(Perform(h, act), p)
  {
    hide Next, Enabled;
  }

  lemma TurnMapStep(h: Host, act: Act)
    requires Allowed(h, act)
    ensures if act.Bump? then Perform(h, act).turns == h.turns[h.q.next := Turn(h.epoch + 1, act.p)]
            else Perform(h, act).turns == h.turns
    ensures act.Bump? ==> !HasTurn(h, act.p) && HasTurn(Perform(h, act), act.p)
    ensures act.Bump? ==> Perform(h, act).sends[act.p].stage == Waiting(h.q.next)
  {
    hide Next, Enabled;
  }

  lemma NewTurnIsTheBumps(h: Host, act: Act, p: nat)
    requires Allowed(h, act) && HasTurn(Perform(h, act), p) && act != Bump(p)
    ensures HasTurn(h, p)
    ensures Perform(h, act).sends[p].stage.Waiting? ==> h.sends[p].stage == Perform(h, act).sends[p].stage
  {
    hide Next, Enabled;
  }

  lemma TurnOfSendStep(h: Host, act: Act, p: nat)
    requires TurnsOk(h) && Allowed(h, act) && p < |Perform(h, act).sends| && HasTurn(Perform(h, act), p)
    requires forall t :: t in h.turns ==> t < h.q.next
    ensures var h' := Perform(h, act);
      && (exists t :: t in h'.turns && h'.turns[t].prompt == p)
      && (h'.sends[p].stage.Waiting? ==>
            h'.sends[p].stage.task in h'.turns && h'.turns[h'.sends[p].stage.task].prompt == p)
  {
    hide Perform, Allowed;
    TurnMapStep(h, act);
    if act == Bump(p) {
      assert Perform(h, act).turns[h.q.next].prompt == p;
    } else {
      NewTurnIsTheBumps(h, act, p);
      var t :| t in h.turns && h.turns[t].prompt == p;
      assert Perform(h, act).turns[t] == h.turns[t];
    }
  }

  lemma TurnsStep(h: Host, act: Act)
    requires TurnsOk(h) && Allowed(h, act)
    requires forall t :: t in h.turns ==> t < h.q.next
    ensures TurnsOk(Perform(h, act))
  {
    hide Perform, Allowed;
    var h' := Perform(h, act);
    TurnMapStep(h, act);
    forall t | t in h'.turns
      ensures HasTurn(h', h'.turns[t].prompt)
    {
      if t in h.turns && h'.turns[t] == h.turns[t] {
        HasTurnStep(h, act, h.turns[t].prompt);
      }
    }
    forall p | 0 <= p < |h'.sends| && HasTurn(h', p)
      ensures exists t :: t in h'.turns && h'.turns[t].prompt == p
      ensures h'.sends[p].stage.Waiting? ==>
        h'.sends[p].stage.task in h'.turns && h'.turns[h'.sends[p].stage.task].prompt == p
    {
      TurnOfSendStep(h, act, p);
    }
    forall t, u | t in h'.turns && u in h'.turns && t != u
      ensures h'.turns[t].prompt != h'.turns[u].prompt
    {
      assert t in h.turns ==> HasTurn(h, h.turns[t].prompt);
      assert u in h.turns ==> HasTurn(h, h.turns[u].prompt);
    }
  }

  lemma NonceOwnerStep(h: Host, act: Act, p: nat)
    requires NoncesOk(h) && Allowed(h, act) && p < |Perform(h, act).sends|
    ensures var h' := Perform(h, act);
      !h'.sends[p].stage.Over? && h'.sends[p].nonce.Some? ==>
        h'.sends[p].nonce.value in h'.inFlight && h'.inFlight[h'.sends[p].nonce.value] == p
  {
    var h' := Perform(h, act);
    if p < |h.sends| {
      assert h'.sends[p].nonce == h.sends[p].nonce;
      assert h.sends[p].stage.Over? ==> h'.sends[p].stage.Over?;
    }
  }

  lemma NonceEntryStep(h: Host, act: Act, n: string)
    requires NoncesOk(h) && Allowed(h, act) && n in Perform(h, act).inFlight
    ensures UnderWay(Perform(h, act), Perform(h, act).inFlight[n], n)
  {
    assert n in h.inFlight || act == Prompt(Some(n));
  }

  lemma NoncesStep(h: Host, act: Act)
    requires NoncesOk(h) && Allowed(h, act)
    ensures NoncesOk(Perform(h, act))
  {
    var h' := Perform(h, act);
    forall p | 0 <= p < |h'.sends| && !h'.sends[p].stage.Over? && h'.sends[p].nonce.Some?
      ensures h'.sends[p].nonce.value in h'.inFlight && h'.inFlight[h'.sends[p].nonce.value] == p
    {
      NonceOwnerStep(h, act, p);
    }
    forall n | n in h'.inFlight
      ensures UnderWay(h', h'.inFlight[n], n)
    {
      NonceEntryStep(h, act, n);
    }
  }

  lemma OffQueueStep(h: Host, act: Act)
    requires Allowed(h, act) && QueueAction(act).None?
    ensures Perform(h, act).q == h.q && Perform(h, act).turns == h.turns && Perform(h, act).epoch == h.epoch
  {
  }

  lemma SameEpochs(h: Host, h': Host)
    requires EpochsOk(h) && h'.q == h.q && h'.turns == h.turns && h'.epoch == h.epoch
    ensures EpochsOk(h')
  {
    hide Inv, EnqueuedIn, DispatchedIn;
  }

  lemma HostStep(h: Host, act: Act)
    requires HostInv(h) && Allowed(h, act)
    ensures HostInv(Perform(h, act))
  {
    hide EpochsOk, TranscriptOk, NoncesOk;
    TranscriptStep(h, act);
    NoncesStep(h, act);
    TurnIdsAreOld(h);
    TurnsStep(h, act);
    if QueueAction(act).Some? {
      QueueStep(h, act);
    } else {
      OffQueueStep(h, act);
      SameEpochs(h, Perform(h, act));
    }
  }

  lemma TurnIdsAreOld(h: Host)
    requires EpochsOk(h)
    ensures forall t :: t in h.turns ==> t < h.q.next
  {
  }

  lemma {:induction false} HostRun(h: Host, acts: seq<Act>)
    requires HostInv(h) && Exec(h, acts).Some?
    ensures HostInv(Exec(h, acts).value)
    decreases |acts|
  {
    if acts != [] {
      HostStep(h, acts[0]);
      HostRun(Perform(h, acts[0]), acts[1..]);
    }
  }

  // ---------------------------------------------------------------- the steps of a run

  /** The scheduler actions of a run, in order. */
  function QueueActions(acts: seq<Act>): seq<Action> {
    if acts == [] then []
    else (if QueueAction(acts[0]).Some? then [QueueAction(acts[0]).value] else []) + QueueActions(acts[1..])
  }

  /** The send a step is about. */
  function SendOf(act: Act): Option<nat> {
    match act
    case SessionFetched(p) => Some(p)
    case EntryAppended(p) => Some(p)
    case Bump(p) => Some(p)
    case Answered(p) => Some(p)
    case Failed(p) => Some(p)
    case _ => None
  }

  /** The stage of send `p` is the one that the steps `done` have brought it to. */
  ghost predicate StageFollows(st: Stage, done: seq<Act>, p: nat) {
    && (st.Fetching? <==> SessionFetched(p) !in done && Failed(p) !in done)
    && (Appended(st) <==> EntryAppended(p) in done)
    && (st.Waiting? || st == Over(true) <==> Bump(p) in done)
    && (st == Over(true) <==> Answered(p) in done)
    && (st == Over(false) <==> Failed(p) in done)
  }

  ghost predicate SendsFollow(h: Host, done: seq<Act>) {
    && (forall p :: 0 <= p < |h.sends| ==> StageFollows(h.sends[p].stage, done, p))
    && (forall act :: act in done && SendOf(act).Some? ==> SendOf(act).value < |h.sends|)
  }

  lemma StageFollowsStep(h: Host, done: seq<Act>, act: Act, p: nat)
    requires SendsFollow(h, done) && Allowed(h, act) && p < |Perform(h, act).sends|
    ensures StageFollows(Perform(h, act).sends[p].stage, done + [act], p)
  {
    hide Next, Enabled;
    if p < |h.sends| {
      assert StageFollows(h.sends[p].stage, done, p);
      assert SendOf(act) != Some(p) ==> Perform(h, act).sends[p] == h.sends[p];
    } else {
      assert Perform(h, act).sends[p].stage.Fetching?;
    }
  }

  lemma SendsFollowStep(h: Host, done: seq<Act>, act: Act)
    requires SendsFollow(h, done) && Allowed(h, act)
    ensures SendsFollow(Perform(h, act), done + [act])
  {
    forall p | 0 <= p < |Perform(h, act).sends|
      ensures StageFollows(Perform(h, act).sends[p].stage, done + [act], p)
    {
      StageFollowsStep(h, done, act, p);
    }
  }

  lemma {:induction false} SendsFollowRun(h: Host, done: seq<Act>, acts: seq<Act>)
    requires SendsFollow(h, done) && Exec(h, acts).Some?
    ensures SendsFollow(Exec(h, acts).value, done + acts)
    decreases |acts|
  {
    if acts == [] {
      assert done + acts == done;
    } else {
      SendsFollowStep(h, done, acts[0]);
      SendsFollowRun(Perform(h, acts[0]), done + [acts[0]], acts[1..]);
      assert done + [acts[0]] + acts[1..] == done + acts;
    }
  }

  lemma {:induction false} QueueFollowsRun(h: Host, acts: seq<Act>)
    requires Exec(h, acts).Some?
    ensures RunScheduler.Exec(h.q, QueueActions(acts)) == Some(Exec(h, acts).value.q)
    decreases |acts|
  {
    if acts != [] {
      hide Next, Enabled;
      var rest := QueueActions(acts[1..]);
      QueueFollowsRun(Perform(h, acts[0]), acts[1..]);
      if QueueAction(acts[0]).Some? {
        assert QueueActions(acts)[0] == QueueAction(acts[0]).value && QueueActions(acts)[1..] == rest;
        QueueActionIsStep(h, acts[0]);
      } else {
        assert QueueActions(acts) == rest;
        OffQueueStep(h, acts[0]);
      }
    }
  }

  /** The prompts whose appends a run carries out, in order. */
  function Recorded(acts: seq<Act>): seq<nat> {
    if acts == [] then [] else RecordedBy(acts[0]) + Recorded(acts[1..])
  }

  function RecordedBy(act: Act): seq<nat> {
    if act.EntryAppended? then [act.p] else []
  }

  lemma RecordedStep(h: Host, act: Act)
    requires Allowed(h, act)
    ensures Perform(h, act).transcript == h.transcript + RecordedBy(act)
  {
    hide Next, Enabled;
  }

  lemma {:induction false} TranscriptFollowsRun(h: Host, acts: seq<Act>)
    requires Exec(h, acts).Some?
    ensures Exec(h, acts).value.transcript == h.transcript + Recorded(acts)
    decreases |acts|
  {
    hide Perform, Allowed, RecordedBy;
    if acts == [] {
      assert h.transcript + [] == h.transcript;
    } else {
      RecordedStep(h, acts[0]);
      TranscriptFollowsRun(Perform(h, acts[0]), acts[1..]);
      var first, rest := RecordedBy(acts[0]), Recorded(acts[1..]);
      assert (h.transcript + first) + rest == h.transcript + (first + rest);
    }
  }

  lemma QueueActionIsStep(h: Host, act: Act)
    requires Allowed(h, act) && QueueAction(act).Some?
    ensures Enabled(h.q, QueueAction(act).value) && Perform(h, act).q == Next(h.q, QueueAction(act).value)
  {
  }

  // ---------------------------------------------------------------- theorems

  /** What the steps `acts` have done to send `p`. */
  ghost predicate SendIsTold(h: Host, acts: seq<Act>, p: nat)
    requires p < |h.sends|
  {
    && (p in h.transcript <==> EntryAppended(p) in acts)
    && ((exists t :: t in h.turns && h.turns[t].prompt == p) <==> Bump(p) in acts)
    && (h.sends[p].stage == Over(true) <==> Answered(p) in acts)
    && (h.sends[p].stage == Over(false) <==> Failed(p) in acts)
    && (h.sends[p].stage.Fetching? <==> SessionFetched(p) !in acts && Failed(p) !in acts)
  }

  lemma SendTold(h: Host, acts: seq<Act>, p: nat)
    requires TranscriptOk(h) && TurnsOk(h) && SendsFollow(h, acts) && p < |h.sends|
    ensures SendIsTold(h, acts, p)
  {
    assert StageFollows(h.sends[p].stage, acts, p);
    assert HasTurn(h, p) <==> Bump(p) in acts;
  }

  /** What a run has done to each send, told by its steps alone: its prompt is in the transcript iff
    * its append went through, a turn is queued for it iff the epoch was bumped for it, it is over iff
    * it was answered or failed. The transcript is in the order of the appends, and the queue is the
    * scheduler's after the run's scheduler actions. */
  lemma SendsFollowTheirSteps(acts: seq<Act>)
    requires Exec(INITIAL, acts).Some?
    ensures
      var h := Exec(INITIAL, acts).value;
      && (forall p :: 0 <= p < |h.sends| ==> SendIsTold(h, acts, p))
      && h.transcript == Recorded(acts)
      && RunScheduler.Exec(Empty(false), QueueActions(acts)) == Some(h.q)
  {
    hide EpochsOk, NoncesOk, TranscriptOk, TurnsOk, SendsFollow, SendIsTold, Allowed, Perform;
    BootOk();
    HostRun(INITIAL, acts);
    NoSendsFollow();
    SendsFollowRun(INITIAL, [], acts);
    QueueFollowsRun(INITIAL, acts);
    TranscriptFollowsRun(INITIAL, acts);
    assert [] + acts == acts;
    var h := Exec(INITIAL, acts).value;
    forall p | 0 <= p < |h.sends|
      ensures SendIsTold(h, acts, p)
    {
      SendTold(h, acts, p);
    }
  }

  lemma NoSendsFollow()
    ensures SendsFollow(INITIAL, [])
  {
  }

  /** Over every run a nonce is held exactly while a send with it is under way: a finished send has
    * given its nonce back. */
  lemma NoncesAreHeldWhileUnderWay(acts: seq<Act>, n: string)
    requires Exec(INITIAL, acts).Some?
    ensures var h := Exec(INITIAL, acts).value;
      n in h.inFlight <==> exists p :: UnderWay(h, p, n)
  {
    BootOk();
    HostRun(INITIAL, acts);
    var h := Exec(INITIAL, acts).value;
    if n in h.inFlight {
      assert UnderWay(h, h.inFlight[n], n);
    }
  }

  /** A call is merged into the send under way with its nonce, if there is one, and starts a send of
    * its own if there is none: after a failure, too, the next call with that nonce is a new send. */
  lemma PromptMergesExactlyWhen(acts: seq<Act>, nonce: Option<string>)
    requires Exec(INITIAL, acts).Some?
    ensures
      var h := Exec(INITIAL, acts).value;
      var h' := Perform(h, Prompt(nonce));
      && |h'.calls| == |h.calls| + 1 && h'.calls[..|h.calls|] == h.calls
      && h'.transcript == h.transcript && h'.turns == h.turns && h'.q == h.q
      && if nonce.Some? && exists p :: UnderWay(h, p, nonce.value) then
           UnderWay(h, Last(h'.calls), nonce.value) && h'.sends == h.sends
         else Last(h'.calls) == |h.sends| && h'.sends == h.sends + [Send(nonce, Fetching)]
  {
    BootOk();
    HostRun(INITIAL, acts);
    if nonce.Some? {
      NoncesAreHeldWhileUnderWay(acts, nonce.value);
    }
  }

  /** Newer turns are the ones waiting: at the start of turn `task`, the user lane holds exactly
    * the turns of higher epoch, in increasing order of epoch. */
  lemma WaitingTurnsAreNewer(h: Host, task: TaskId)
    requires HostInv(h) && Allowed(h, StartTurn(task))
    ensures h.turns[task].epoch + |h.q.pendingUser| == h.epoch
    ensures forall i :: 0 <= i < |h.q.pendingUser| ==>
      h.q.pendingUser[i] in h.turns && h.turns[h.q.pendingUser[i]].epoch == h.turns[task].epoch + 1 + i
  {
    var queued := EnqueuedIn(h.q.log, User);
    var taken := DispatchedIn(h.q.log, User);
    assert queued == taken + LaneOf(h.q, User);
    var k := |taken| - 1;
    assert queued[k] == task;
    forall i | 0 <= i < |h.q.pendingUser|
      ensures h.q.pendingUser[i] in h.turns && h.turns[h.q.pendingUser[i]].epoch == h.turns[task].epoch + 1 + i
    {
      assert queued[|taken| + i] == h.q.pendingUser[i];
    }
  }

  /** What the start of a turn does, given what waits behind it. */
  ghost predicate SkipsIfSuperseded(h: Host, task: TaskId)
    requires Allowed(h, StartTurn(task))
  {
    var h' := Perform(h, StartTurn(task));
    var prompt := h.turns[task].prompt;
    if h.q.pendingUser == [] then h'.ran == h.ran + [prompt] && h'.skipped == h.skipped
    else
      var newest := Last(h.q.pendingUser);
      && h'.skipped == h.skipped + [prompt] && h'.ran == h.ran
      && newest in h.turns && h.turns[newest].epoch == h.epoch > h.turns[task].epoch
  }

  lemma SkipStep(h: Host, task: TaskId)
    requires HostInv(h) && Allowed(h, StartTurn(task))
    ensures SkipsIfSuperseded(h, task)
  {
    WaitingTurnsAreNewer(h, task);
    if h.q.pendingUser != [] {
      assert Last(h.q.pendingUser) == h.q.pendingUser[|h.q.pendingUser| - 1];
    }
  }

  /** In every reachable state: a turn that starts is skipped exactly when another user turn is
    * waiting behind it, and then the newest prompt's turn is the last one in the user lane,
    * with a strictly higher epoch. A turn with nothing behind it reaches the runner, so the
    * newest prompt is never lost. */
  lemma SkippedExactlyWhenSuperseded(acts: seq<Act>, task: TaskId)
    requires Exec(INITIAL, acts).Some? && Allowed(Exec(INITIAL, acts).value, StartTurn(task))
    ensures SkipsIfSuperseded(Exec(INITIAL, acts).value, task)
  {
    BootOk();
    HostRun(INITIAL, acts);
    SkipStep(Exec(INITIAL, acts).value, task);
  }

  /** Every prompt is appended to the transcript exactly once, and only by a send that got that
    * far; two sends with one nonce are never both under way. */
  lemma PromptsAreRecordedOnce(acts: seq<Act>)
    requires Exec(INITIAL, acts).Some?
    ensures
      var h := Exec(INITIAL, acts).value;
      && (forall p :: 0 <= p < |h.sends| ==> (p in h.transcript <==> Appended(h.sends[p].stage)))
      && (forall i, j :: 0 <= i < j < |h.transcript| ==> h.transcript[i] != h.transcript[j])
      && (forall t, u {:trigger h.turns[t], h.turns[u]} ::
            t in h.turns && u in h.turns && t != u ==> h.turns[t].prompt != h.turns[u].prompt)
      && (forall p, r :: 0 <= p < r < |h.sends| && h.sends[p].nonce.Some? && h.sends[p].nonce == h.sends[r].nonce ==>
            h.sends[p].stage.Over? || h.sends[r].stage.Over?)
  {
    BootOk();
    HostRun(INITIAL, acts);
  }

  lemma BootOk()
    ensures HostInv(INITIAL)
  {
    EmptyInv(false);
  }

  /** A prompt that failed and is sent again under its nonce is a send of its own. */
  lemma ARetryIsANewSend(nonce: string)
    ensures
      var acts := [Prompt(Some(nonce)), Failed(0), Prompt(Some(nonce))];
      Exec(INITIAL, acts).Some? && Exec(INITIAL, acts).value.calls == [0, 1]
  {
    var s1 := Perform(INITIAL, Prompt(Some(nonce)));
    var s2 := Perform(s1, Failed(0));
    var s3 := Perform(s2, Prompt(Some(nonce)));
    assert s1.sends == [Send(Some(nonce), Fetching)] && s2.calls == [0] && s3.calls == [0, 1];
    assert Exec(s2, [Prompt(Some(nonce))]) == Exec(s3, []);
    assert Exec(s1, [Failed(0), Prompt(Some(nonce))]) == Exec(s2, [Prompt(Some(nonce))]);
  }

  // ---------------------------------------------------------------- the runtime object

  /** The host's per-agent epochs and in-flight sends, over its scheduler. `nextSend` numbers sends. */
  class SessionRuntime {
    var epochs: map<string, nat>
    var inFlight: map<string, nat>
    var nextSend: nat
    const scheduler: Scheduler

    function EpochOf(agent: string): nat
      reads this
    {
      if agent in epochs then epochs[agent] else 0
    }

    constructor ()
      ensures epochs == map[] && inFlight == map[] && nextSend == 0
      ensures fresh(scheduler) && scheduler.Valid() && scheduler.queues == map[] && !scheduler.disposed
    {
      epochs, inFlight, nextSend := map[], map[], 0;
      scheduler := new Scheduler();
    }

    /** The sends are those of `h`. */
    ghost predicate Serves(h: Host)
      reads this
    {
      inFlight == h.inFlight && nextSend == |h.sends|
    }

    /** A duplicate nonce is merged into the send that is under way. It is the machine's `Prompt`. */
    method SendUserPrompt(nonce: Option<string>, ghost h: Host) returns (send: nat, merged: bool)
      modifies this`inFlight, this`nextSend
      ensures old(Serves(h)) ==> Serves(Perform(h, Prompt(nonce))) && send == Last(Perform(h, Prompt(nonce)).calls)
      ensures merged <==> nonce.Some? && nonce.value in old(inFlight)
      ensures merged ==> send == old(inFlight)[nonce.value] && inFlight == old(inFlight) && nextSend == old(nextSend)
      ensures !merged ==> send == old(nextSend) && nextSend == send + 1
      ensures !merged ==> inFlight == if nonce.Some? then old(inFlight)[nonce.value := send] else old(inFlight)
    {
      if nonce.Some? {
        if nonce.value in inFlight {
          return inFlight[nonce.value], true;
        }
      }
      send, merged := nextSend, false;
      nextSend := nextSend + 1;
      if nonce.Some? {
        inFlight := inFlight[nonce.value := send];
      }
    }

    /** A send that ends, well or not, gives its nonce back. It is the machine's `Answered` or `Failed`. */
    method SendSettles(nonce: Option<string>, ghost h: Host, ghost act: Act)
      modifies this`inFlight
      ensures old(Serves(h)) && (act.Answered? || act.Failed?) && Allowed(h, act) && h.sends[act.p].nonce == nonce ==>
        Serves(Perform(h, act))
      ensures nonce.Some? ==> nonce.value !in inFlight
      ensures forall n :: nonce != Some(n) ==>
        (n in inFlight <==> n in old(inFlight)) && (n in inFlight ==> inFlight[n] == old(inFlight)[n])
    {
      if nonce.Some? {
        inFlight := inFlight - {nonce.value};
      }
    }

    /** Bump the epoch and queue the turn, in one synchronous step. It is the machine's `Bump`. */
    method BumpAndEnqueue(agent: string, ghost h: Host, ghost p: nat) returns (epoch: nat, task: TaskId)
      requires scheduler.Valid()
      modifies this`epochs, scheduler
      ensures old(EpochOf(agent)) == h.epoch && old(scheduler.QueueFor(agent)) == h.q && Allowed(h, Bump(p)) ==>
        var h' := Perform(h, Bump(p));
        && EpochOf(agent) == h'.epoch && scheduler.QueueFor(agent) == h'.q
        && task in h'.turns && h'.turns[task] == Turn(epoch, p)
      ensures scheduler.Valid()
      ensures epoch == old(EpochOf(agent)) + 1 && epochs == old(epochs)[agent := epoch]
      ensures task == old(scheduler.QueueFor(agent)).next
      ensures scheduler.queues == old(scheduler.queues)[agent := Next(old(scheduler.QueueFor(agent)), Enqueue(User))]
    {
      epoch := EpochOf(agent) + 1;
      epochs := epochs[agent := epoch];
      var position;
      task, position := scheduler.EnqueueTask(agent, User);
    }
  }
}
