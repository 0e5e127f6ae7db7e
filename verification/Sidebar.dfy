/** The optimistic sidebar: what is shown, what the server confirmed, and the queue of writes.
  *
  * Signing in or out changes the session's user, starts an epoch and (signing in) asks for the
  * stored configuration, all in one step. A write leaves the queue when its answer arrives.
  */
module Sidebar {
  import opened Prelude

  datatype Group = Group(id: string, name: string, collapsed: bool)

  datatype Config = Config(groups: seq<Group>, width: real)

  /** A configuration as it arrives: `None` for a group list that is no list and for a width that
    * is no finite number. */
  datatype Raw = Raw(groups: Option<seq<Group>>, width: Option<real>)

  const DEFAULT := Config([], 280.0)

  function Clamp(w: real): real {
    var capped := if w < 420.0 then w else 420.0;
    if capped > 200.0 then capped else 200.0
  }

  function Clean(raw: Raw): Config {
    var groups := if raw.groups.Some? then raw.groups.value else [];
    var given := raw.width.Some? && raw.width.value != 0.0;
    Config(groups, Clamp(if given then raw.width.value else 280.0))
  }

  function AsRaw(c: Config): Raw {
    Raw(Some(c.groups), Some(c.width))
  }

  predicate IsClean(c: Config) {
    200.0 <= c.width <= 420.0
  }

  /** What is shown survives being sent, stored and read back. */
  lemma CleanIsStable(raw: Raw)
    ensures IsClean(Clean(raw)) && Clean(AsRaw(Clean(raw))) == Clean(raw)
    ensures forall c: Config :: Clean(AsRaw(c)) == c <==> IsClean(c)
  {
  }

  // ---------------------------------------------------------------- the machine

  type User = nat

  datatype Job = Job(epoch: nat, revision: nat, user: User, config: Config)

  /** What passed between client and server: writes sent, and configurations acknowledged. */
  datatype Note = Put(job: Job) | Ack(epoch: nat, user: User, config: Config)

  datatype State = State(
    user: Option<User>,
    epoch: nat,
    revision: nat,
    shown: Config,
    loaded: bool,
    confirmed: Config,
    queue: seq<Job>,
    sending: bool,
    loads: map<nat, User>,
    log: seq<Note>
  )

  const INITIAL := State(None, 0, 0, DEFAULT, false, DEFAULT, [], false, map[], [])

  datatype Act =
    | Session(user: Option<User>)
    | Loaded(ofEpoch: nat, config: Option<Raw>)
    | Save(next: Raw)
    | BeginWrite
    | Answered(saved: Option<Raw>)

  predicate IsCurrent(s: State, j: Job) {
    j.epoch == s.epoch && s.user == Some(j.user)
  }

  predicate Enabled(s: State, a: Act) {
    match a
    case Loaded(e, _) => e in s.loads
    case BeginWrite => s.queue != [] && !s.sending
    case Answered(_) => s.queue != [] && s.sending
    case _ => true
  }

  function StartSession(s: State, user: Option<User>): State {
    var e := s.epoch + 1;
    var loads := if user.Some? then s.loads[e := user.value] else s.loads;
    s.(user := user, epoch := e, revision := 0, shown := DEFAULT, loaded := false, confirmed := DEFAULT, loads := loads)
  }

  function LoadArrives(s: State, e: nat, raw: Option<Raw>): State
    requires e in s.loads
  {
    var rest := s.(loads := s.loads - {e});
    if raw.None? || e != s.epoch || s.user != Some(s.loads[e]) then rest
    else
      var c := Clean(raw.value);
      rest.(confirmed := c, shown := c, loaded := true, log := s.log + [Ack(e, s.loads[e], c)])
  }

  function SaveNext(s: State, next: Raw): State {
    if s.user.None? || !s.loaded then s
    else
      var c := Clean(next);
      s.(revision := s.revision + 1, shown := c, queue := s.queue + [Job(s.epoch, s.revision + 1, s.user.value, c)])
  }

  function Begin(s: State): State
    requires s.queue != []
  {
    if IsCurrent(s, s.queue[0]) then s.(sending := true, log := s.log + [Put(s.queue[0])])
    else s.(queue := s.queue[1..])
  }

  function Answer(s: State, saved: Option<Raw>): State
    requires s.queue != []
  {
    var j := s.queue[0];
    var rest := s.(queue := s.queue[1..], sending := false);
    if !IsCurrent(s, j) then rest
    else match saved
      case Some(raw) =>
        var c := Clean(raw);
        var shown := if j.revision == s.revision then c else s.shown;
        rest.(confirmed := c, shown := shown, log := s.log + [Ack(j.epoch, j.user, c)])
      case None =>
        rest.(shown := if j.revision == s.revision then s.confirmed else s.shown)
  }

  function Next(s: State, a: Act): State
    requires Enabled(s, a)
  {
    match a
    case Session(user) => StartSession(s, user)
    case Loaded(e, raw) => LoadArrives(s, e, raw)
    case Save(next) => SaveNext(s, next)
    case BeginWrite => Begin(s)
    case Answered(saved) => Answer(s, saved)
  }

  function Exec(s: State, acts: seq<Act>): State
    decreases |acts|
  {
    if acts == [] then s
    else Exec(if Enabled(s, acts[0]) then Next(s, acts[0]) else s, acts[1..])
  }

  // ---------------------------------------------------------------- invariant

  /** The configuration acknowledged last in epoch `e`. */
  function LastAck(log: seq<Note>, e: nat): Config {
    if log == [] then DEFAULT
    else match Last(log)
      case Ack(f, _, c) => if f == e then c else LastAck(Front(log), e)
      case Put(_) => LastAck(Front(log), e)
  }

  predicate Before(a: Job, b: Job) {
    a.epoch < b.epoch || (a.epoch == b.epoch && a.revision < b.revision)
  }

  ghost predicate JobsOk(s: State) {
    && (forall i, j :: 0 <= i < j < |s.queue| ==> Before(s.queue[i], s.queue[j]))
    && (forall i :: 0 <= i < |s.queue| ==> s.queue[i].epoch <= s.epoch)
    && (forall i :: 0 <= i < |s.queue| && s.queue[i].epoch == s.epoch ==>
      s.user == Some(s.queue[i].user) && s.loaded && s.queue[i].revision <= s.revision)
    && (s.sending ==> s.queue != [])
  }

  /** A write of the current epoch is still queued or under way. */
  predicate Busy(s: State) {
    s.queue != [] && Last(s.queue).epoch == s.epoch
  }

  ghost predicate ShownOk(s: State) {
    && s.confirmed == LastAck(s.log, s.epoch)
    && (Busy(s) ==> Last(s.queue).revision == s.revision && s.shown == Last(s.queue).config)
    && (!Busy(s) ==> s.shown == s.confirmed)
  }

  ghost predicate LogOk(s: State) {
    && (forall i, j :: 0 <= i < j < |s.log| && s.log[i].Put? && s.log[j].Put? ==> Before(s.log[i].job, s.log[j].job))
    && (forall i :: 0 <= i < |s.log| && s.log[i].Put? ==>
      s.log[i].job.epoch <= s.epoch && (s.log[i].job.epoch == s.epoch ==> s.log[i].job.revision <= s.revision))
    && (forall i, k :: 0 <= i < |s.log| && s.log[i].Put? && 0 <= k < |s.queue| ==>
      Before(s.log[i].job, s.queue[k]) || (s.sending && k == 0 && s.log[i].job == s.queue[0]))
    && (forall i :: 0 <= i < |s.log| && s.log[i].Ack? ==> s.log[i].epoch <= s.epoch)
    && (forall i :: 0 <= i < |s.log| && s.log[i].Ack? && s.log[i].epoch == s.epoch ==> s.user == Some(s.log[i].user))
  }

  ghost predicate LoadsOk(s: State) {
    && (forall e :: e in s.loads ==> e <= s.epoch)
    && (s.epoch in s.loads ==> !s.loaded && s.revision == 0 && s.user == Some(s.loads[s.epoch]))
    && (!s.loaded ==> s.revision == 0)
  }

  ghost predicate Inv(s: State) {
    JobsOk(s) && ShownOk(s) && LogOk(s) && LoadsOk(s)
  }

  lemma LastAckPush(log: seq<Note>, n: Note, e: nat)
    ensures LastAck(log + [n], e) == if n.Ack? && n.epoch == e then n.config else LastAck(log, e)
  {
    assert Front(log + [n]) == log;
  }

  lemma {:induction false} NoAckYet(log: seq<Note>, e: nat)
    requires forall i :: 0 <= i < |log| && log[i].Ack? ==> log[i].epoch < e
    ensures LastAck(log, e) == DEFAULT
    decreases |log|
  {
    if log != [] {
      NoAckYet(Front(log), e);
    }
  }

  lemma SessionKeeps(s: State, user: Option<User>)
    requires Inv(s)
    ensures Inv(StartSession(s, user))
  {
    NoAckYet(s.log, s.epoch + 1);
  }

  lemma LoadKeeps(s: State, e: nat, raw: Option<Raw>)
    requires Inv(s) && e in s.loads
    ensures Inv(LoadArrives(s, e, raw))
  {
    var t := LoadArrives(s, e, raw);
    if t.log != s.log {
      LastAckPush(s.log, Last(t.log), s.epoch);
    }
  }

  lemma SaveKeeps(s: State, next: Raw)
    requires Inv(s)
    ensures Inv(SaveNext(s, next))
  {
  }

  lemma BeginKeeps(s: State)
    requires Inv(s) && s.queue != [] && !s.sending
    ensures Inv(Begin(s))
  {
    hide LastAck;
    if IsCurrent(s, s.queue[0]) {
      LastAckPush(s.log, Put(s.queue[0]), s.epoch);
    }
  }

  lemma AnswerKeeps(s: State, saved: Option<Raw>)
    requires Inv(s) && s.queue != [] && s.sending
    ensures Inv(Answer(s, saved))
  {
    hide LastAck, Clean;
    var t := Answer(s, saved);
    if t.log != s.log {
      LastAckPush(s.log, Last(t.log), s.epoch);
    }
  }

  lemma {:induction false} InvRun(s: State, acts: seq<Act>)
    requires Inv(s)
    ensures Inv(Exec(s, acts))
    decreases |acts|
  {
    if acts != [] {
      if Enabled(s, acts[0]) {
        match acts[0]
        case Session(user) => SessionKeeps(s, user);
        case Loaded(e, raw) => LoadKeeps(s, e, raw);
        case Save(next) => SaveKeeps(s, next);
        case BeginWrite => BeginKeeps(s);
        case Answered(saved) => AnswerKeeps(s, saved);
      }
      InvRun(if Enabled(s, acts[0]) then Next(s, acts[0]) else s, acts[1..]);
    }
  }

  // ---------------------------------------------------------------- theorems

  /** For any saves, loads, sign-ins and outcomes: once no write of the current epoch is left, what
    * is shown is what the server acknowledged last in this epoch; until then it is the newest
    * save. Everything acknowledged in the epoch was asked for by its own user. */
  lemma SidebarConverges(acts: seq<Act>)
    ensures var s := Exec(INITIAL, acts);
      && s.shown == (if Busy(s) then Last(s.queue).config else LastAck(s.log, s.epoch))
      && (Busy(s) ==> forall i :: 0 <= i < |s.queue| && s.queue[i].epoch == s.epoch ==>
          s.queue[i].revision <= Last(s.queue).revision)
      && (forall i :: 0 <= i < |s.log| && s.log[i].Ack? && s.log[i].epoch == s.epoch ==> s.user == Some(s.log[i].user))
  {
    InvRun(INITIAL, acts);
  }

  /** The index of a log entry. */
  ghost predicate IsPut(s: State, i: nat) {
    i < |s.log| && s.log[i].Put?
  }

  /** Writes reach the server one at a time, each once, in the order they were made. */
  lemma WritesAreSentInOrder(acts: seq<Act>, i: nat, j: nat)
    requires i < j && IsPut(Exec(INITIAL, acts), i) && IsPut(Exec(INITIAL, acts), j)
    ensures Before(Exec(INITIAL, acts).log[i].job, Exec(INITIAL, acts).log[j].job)
  {
    InvRun(INITIAL, acts);
  }

  /** What a user of the page can see or save against. */
  ghost predicate SameForUser(s: State, t: State) {
    && s.user == t.user && s.epoch == t.epoch && s.revision == t.revision
    && s.shown == t.shown && s.loaded == t.loaded && s.confirmed == t.confirmed
  }

  /** The queued writes of the current epoch. */
  function Own(s: State): seq<Job> {
    OfEpoch(s.queue, s.epoch)
  }

  function OfEpoch(q: seq<Job>, e: nat): seq<Job> {
    if q == [] then [] else if q[0].epoch == e then [q[0]] + OfEpoch(q[1..], e) else OfEpoch(q[1..], e)
  }

  /** A step that only finishes older work. */
  predicate IsOld(s: State, a: Act)
    requires Enabled(s, a)
  {
    match a
    case Loaded(e, _) => e != s.epoch
    case BeginWrite => s.queue[0].epoch != s.epoch
    case Answered(_) => s.queue[0].epoch != s.epoch
    case _ => false
  }

  /** The steps of a run that are not about older epochs. */
  function OwnSteps(s: State, acts: seq<Act>): seq<Act>
    decreases |acts|
  {
    if acts == [] then []
    else if !Enabled(s, acts[0]) then OwnSteps(s, acts[1..])
    else
      var rest := OwnSteps(Next(s, acts[0]), acts[1..]);
      if IsOld(s, acts[0]) then rest else [acts[0]] + rest
  }

  /** `t` is `s` without its left-over work. */
  ghost predicate Rid(s: State, t: State) {
    && SameForUser(s, t) && t.queue == Own(s)
    && t.sending == (s.sending && s.queue != [] && s.queue[0].epoch == s.epoch)
    && (s.epoch in s.loads <==> s.epoch in t.loads)
    && (s.epoch in s.loads ==> t.loads[s.epoch] == s.loads[s.epoch])
  }

  lemma {:induction false} OfEpochPush(q: seq<Job>, j: Job, e: nat)
    ensures OfEpoch(q + [j], e) == if j.epoch == e then OfEpoch(q, e) + [j] else OfEpoch(q, e)
    decreases |q|
  {
    if q == [] {
      assert q + [j] == [j];
    } else {
      assert (q + [j])[1..] == q[1..] + [j];
      OfEpochPush(q[1..], j, e);
    }
  }

  /** One step of the page with left-over work, and of the page without. */
  lemma RidStep(s: State, t: State, a: Act)
    requires Inv(s) && Rid(s, t) && Enabled(s, a) && !a.Session?
    ensures IsOld(s, a) ==> Rid(Next(s, a), t)
    ensures !IsOld(s, a) ==> Enabled(t, a) && Rid(Next(s, a), Next(t, a))
  {
    hide LastAck, Clean, ShownOk, LogOk;
    if a.Save? && s.user.Some? && s.loaded {
      var c := Clean(a.next);
      OfEpochPush(s.queue, Job(s.epoch, s.revision + 1, s.user.value, c), s.epoch);
    }
  }

  /** Work left over from older epochs has no effect: within an epoch the page does exactly what
    * it would do had there been none of it. */
  lemma {:induction false} LeftoversDoNotInterfere(s: State, t: State, acts: seq<Act>)
    requires Inv(s) && Rid(s, t)
    requires forall a :: a in acts ==> !a.Session?
    ensures SameForUser(Exec(s, acts), Exec(t, OwnSteps(s, acts)))
    ensures Exec(t, OwnSteps(s, acts)).queue == Own(Exec(s, acts))
    decreases |acts|
  {
    if acts != [] {
      var a := acts[0];
      if !Enabled(s, a) {
        LeftoversDoNotInterfere(s, t, acts[1..]);
      } else {
        assert Exec(s, [a]) == Next(s, a);
        InvRun(s, [a]);
        RidStep(s, t, a);
        if IsOld(s, a) {
          LeftoversDoNotInterfere(Next(s, a), t, acts[1..]);
        } else {
          LeftoversDoNotInterfere(Next(s, a), Next(t, a), acts[1..]);
          assert OwnSteps(s, acts)[1..] == OwnSteps(Next(s, a), acts[1..]);
        }
      }
    }
  }

  // ---------------------------------------------------------------- what each step does

  /** The width is the given one within its bounds, 280 if none is given, and no group is lost. */
  lemma CleanIs(raw: Raw)
    ensures Clean(raw).groups == if raw.groups.Some? then raw.groups.value else []
    ensures
      var w := if raw.width.Some? && raw.width.value != 0.0 then raw.width.value else 280.0;
      && (w <= 200.0 ==> Clean(raw).width == 200.0)
      && (200.0 <= w <= 420.0 ==> Clean(raw).width == w)
      && (w >= 420.0 ==> Clean(raw).width == 420.0)
  {
  }

  /** The write at the head of the queue was made in this epoch. */
  predicate HeadIsOwn(s: State)
    requires s.queue != []
  {
    s.queue[0].epoch == s.epoch
  }

  /** What a step does that a user or the server can notice. */
  ghost predicate Does(s: State, a: Act, t: State)
    requires Enabled(s, a)
  {
    match a
    case Session(user) =>
      && t.user == user && t.epoch == s.epoch + 1 && t.shown == DEFAULT && !t.loaded && t.log == s.log
      && (t.epoch in t.loads <==> user.Some?) && t.queue == s.queue && t.sending == s.sending
    case Loaded(e, raw) =>
      && e !in t.loads && t.epoch == s.epoch && t.user == s.user && t.queue == s.queue && t.sending == s.sending
      && if e == s.epoch && raw.Some? then
           t.loaded && t.shown == Clean(raw.value) && t.log == s.log + [Ack(e, s.loads[e], Clean(raw.value))]
         else t.loaded == s.loaded && t.shown == s.shown && t.log == s.log
    case Save(next) =>
      if s.user.None? || !s.loaded then t == s
      else
        && t.shown == Clean(next) && t.log == s.log && t.epoch == s.epoch && t.user == s.user && t.loaded
        && |t.queue| == |s.queue| + 1 && t.queue[..|s.queue|] == s.queue && t.sending == s.sending
        && Last(t.queue).epoch == s.epoch && Some(Last(t.queue).user) == s.user && Last(t.queue).config == Clean(next)
    case BeginWrite =>
      && t.shown == s.shown && t.loaded == s.loaded && t.epoch == s.epoch && t.user == s.user
      && if HeadIsOwn(s) then t.sending && t.queue == s.queue && t.log == s.log + [Put(s.queue[0])]
         else !t.sending && t.queue == s.queue[1..] && t.log == s.log
    case Answered(saved) =>
      && !t.sending && t.queue == s.queue[1..] && t.loaded == s.loaded && t.epoch == s.epoch && t.user == s.user
      && if !HeadIsOwn(s) then t.shown == s.shown && t.log == s.log
         else
           var acked := if saved.Some? then Clean(saved.value) else LastAck(s.log, s.epoch);
           && t.log == s.log + (if saved.Some? then [Ack(s.epoch, s.queue[0].user, acked)] else [])
           && t.shown == if |s.queue| == 1 then acked else s.shown
  }

  lemma DoesStep(s: State, a: Act)
    requires Inv(s) && Enabled(s, a)
    ensures Does(s, a, Next(s, a))
  {
    hide LastAck, Clean, LogOk;
    if a.Answered? && HeadIsOwn(s) {
      NewestIsLast(s);
    }
  }

  /** The head of the queue is the newest save of its epoch iff nothing waits behind it. */
  lemma NewestIsLast(s: State)
    requires Inv(s) && s.queue != [] && HeadIsOwn(s)
    ensures s.queue[0].revision == s.revision <==> |s.queue| == 1
  {
    var last := Last(s.queue);
    if |s.queue| > 1 {
      assert Before(s.queue[0], s.queue[|s.queue| - 1]);
    }
  }

  /** What each step of a run does: a session starts with nothing loaded; a load of this epoch is shown; a
    * save is shown at once and queued as this user's; the next write is sent if it is of this epoch;
    * its answer is shown, or the last acknowledged state again if it failed, unless a newer save waits. */
  lemma StepsDoTheirWork(acts: seq<Act>, a: Act)
    requires Enabled(Exec(INITIAL, acts), a)
    ensures Does(Exec(INITIAL, acts), a, Next(Exec(INITIAL, acts), a))
  {
    InvRun(INITIAL, acts);
    DoesStep(Exec(INITIAL, acts), a);
  }

  // ---------------------------------------------------------------- the object

  class SidebarPage {
    var user: Option<User>
    var epoch: nat
    var revision: nat
    var shown: Config
    var loaded: bool
    var confirmed: Config
    var queue: seq<Job>
    var sending: bool
    var loads: map<nat, User>
    ghost var log: seq<Note>

    ghost function View(): State
      reads this
    {
      State(user, epoch, revision, shown, loaded, confirmed, queue, sending, loads, log)
    }

    constructor ()
      ensures View() == INITIAL
    {
      user, epoch, revision, shown, loaded, confirmed := None, 0, 0, DEFAULT, false, DEFAULT;
      queue, sending, loads, log := [], false, map[], [];
    }

    method EnterSession(newUser: Option<User>)
      modifies this
      ensures View() == StartSession(old(View()), newUser)
    {
      epoch, revision := epoch + 1, 0;
      user, shown, loaded, confirmed := newUser, DEFAULT, false, DEFAULT;
      if newUser.Some? {
        loads := loads[epoch := newUser.value];
      }
    }

    method ConfigLoaded(ofEpoch: nat, config: Option<Raw>)
      requires ofEpoch in loads
      modifies this
      ensures View() == LoadArrives(old(View()), ofEpoch, config)
    {
      var u := loads[ofEpoch];
      loads := loads - {ofEpoch};
      if config.None? || ofEpoch != epoch || user != Some(u) {
        return;
      }
      confirmed := Clean(config.value);
      shown, loaded := confirmed, true;
      log := log + [Ack(ofEpoch, u, confirmed)];
    }

    method SaveConfig(next: Raw) returns (queued: bool)
      modifies this
      ensures View() == SaveNext(old(View()), next)
      ensures queued <==> old(user.Some? && loaded)
    {
      if user.None? || !loaded {
        return false;
      }
      var config := Clean(next);
      revision := revision + 1;
      shown := config;
      queue := queue + [Job(epoch, revision, user.value, config)];
      queued := true;
    }

    method BeginNextWrite()
      requires queue != [] && !sending
      modifies this
      ensures View() == Begin(old(View()))
    {
      var j := queue[0];
      if j.epoch == epoch && user == Some(j.user) {
        sending := true;
        log := log + [Put(j)];
      } else {
        queue := queue[1..];
      }
    }

    method WriteAnswered(saved: Option<Raw>) returns (ok: bool)
      requires queue != [] && sending
      modifies this
      ensures View() == Answer(old(View()), saved)
      ensures ok <==> saved.Some? && old(IsCurrent(View(), queue[0]))
    {
      var j := queue[0];
      queue, sending := queue[1..], false;
      if !(j.epoch == epoch && user == Some(j.user)) {
        return false;
      }
      if saved.None? {
        if j.revision == revision {
          shown := confirmed;
        }
        return false;
      }
      confirmed := Clean(saved.value);
      if j.revision == revision {
        shown := confirmed;
      }
      log := log + [Ack(j.epoch, j.user, confirmed)];
      ok := true;
    }
  }
}
