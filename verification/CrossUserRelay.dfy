/** The cross-user relay: a sliding-window budget of transport calls, a backoff after a failure,
  * and stored results replayed by nonce.
  *
  * `executeRemoteTurn` is cut at its one await: `Begin` runs up to the transport call, `Arrived`
  * and `FailedAt` after it. Calls may be in flight at the same time.
  */
module CrossUserRelay {
  import opened Prelude

  const MAX_TEXTS := 2

  /** `window`, `max` and `backoff` are the configured limits. `log` is a history of transport
    * calls and failures, oldest first, that no step reads. */
  datatype Config = Config(window: int, max: int, backoff: int)

  datatype Event = Called(nonce: string, at: int) | FailedCall(at: int)

  datatype Relay = Relay(
    results: map<string, seq<string>>,
    timestamps: seq<int>,
    unreachableUntil: int,
    log: seq<Event>)

  const NEW_RELAY := Relay(map[], [], 0, [])

  datatype Decision = Replay(texts: seq<string>) | BackedOff(retryAfter: int) | OverBudget | Call

  datatype Act =
    | Begin(nonce: string, now: int)
    | Arrived(nonce: string, texts: seq<string>, now: int)
    | FailedAt(now: int)
    | Diagnose(now: int)

  function Prune(ts: seq<int>, now: int, window: int): seq<int> {
    if ts == [] then []
    else Prune(Front(ts), now, window) + (if now - Last(ts) < window then [Last(ts)] else [])
  }

  function Decide(r: Relay, cfg: Config, nonce: string, now: int): Decision {
    if nonce in r.results then Replay(r.results[nonce])
    else if now < r.unreachableUntil then BackedOff(r.unreachableUntil - now)
    else if |Prune(r.timestamps, now, cfg.window)| >= cfg.max then OverBudget
    else Call
  }

  function Capped(texts: seq<string>): seq<string> {
    if |texts| <= MAX_TEXTS then texts else texts[..MAX_TEXTS]
  }

  function Perform(r: Relay, cfg: Config, a: Act): Relay {
    match a
    case Begin(nonce, now) =>
      var pruned := Prune(r.timestamps, now, cfg.window);
      (match Decide(r, cfg, nonce, now)
       case OverBudget => r.(timestamps := pruned)
       case Call => r.(timestamps := pruned + [now], log := r.log + [Called(nonce, now)])
       case _ => r)
    case Arrived(nonce, texts, now) => r.(results := r.results[nonce := Capped(texts)])
    case FailedAt(now) => r.(unreachableUntil := now + cfg.backoff, log := r.log + [FailedCall(now)])
    case Diagnose(now) => r.(timestamps := Prune(r.timestamps, now, cfg.window))
  }

  function Run(r: Relay, cfg: Config, acts: seq<Act>): Relay
    decreases |acts|
  {
    if acts == [] then r else Run(Perform(r, cfg, acts[0]), cfg, acts[1..])
  }

  /** The clock never goes back. */
  ghost predicate Monotone(acts: seq<Act>, from: int) {
    && (forall i :: 0 <= i < |acts| ==> from <= acts[i].now)
    && (forall i, j :: 0 <= i < j < |acts| ==> acts[i].now <= acts[j].now)
  }

  // ---------------------------------------------------------------- counting calls

  function CallTimes(log: seq<Event>): seq<int> {
    if log == [] then []
    else CallTimes(Front(log)) + (if Last(log).Called? then [Last(log).at] else [])
  }

  lemma CallTimesSnoc(log: seq<Event>, e: Event)
    ensures CallTimes(log + [e]) == if e.Called? then CallTimes(log) + [e.at] else CallTimes(log)
  {
    assert Front(log + [e]) == log;
  }

  /** How many of the times lie in the half-open interval `[lo, hi)`. */
  function CountIn(ts: seq<int>, lo: int, hi: int): nat {
    if ts == [] then 0 else CountIn(Front(ts), lo, hi) + (if lo <= Last(ts) < hi then 1 else 0)
  }

  /** Calls in the window-long interval that starts at `lo`. */
  function InWindow(ts: seq<int>, lo: int, window: int): nat {
    CountIn(ts, lo, lo + window)
  }

  function Cap(cfg: Config): nat {
    if cfg.max > 0 then cfg.max else 0
  }

  lemma CountSnoc(ts: seq<int>, t: int, lo: int, hi: int)
    ensures CountIn(ts + [t], lo, hi) == CountIn(ts, lo, hi) + (if lo <= t < hi then 1 else 0)
  {
    assert Front(ts + [t]) == ts;
  }

  /** Pruning keeps exactly the times younger than the window. */
  lemma {:induction false} PruneCounts(ts: seq<int>, now: int, window: int, lo: int, hi: int)
    requires now - window < lo
    ensures CountIn(Prune(ts, now, window), lo, hi) == CountIn(ts, lo, hi)
    decreases |ts|
  {
    if ts != [] {
      PruneCounts(Front(ts), now, window, lo, hi);
      CountSnoc(Prune(Front(ts), now, window), Last(ts), lo, hi);
      assert Prune(Front(ts), now, window) + [] == Prune(Front(ts), now, window);
    }
  }

  lemma {:induction false} CountAtMostLength(ts: seq<int>, lo: int, hi: int)
    ensures CountIn(ts, lo, hi) <= |ts|
    decreases |ts|
  {
    if ts != [] {
      CountAtMostLength(Front(ts), lo, hi);
    }
  }

  lemma {:induction false} PruneSubset(ts: seq<int>, now: int, window: int, top: int)
    requires forall i :: 0 <= i < |ts| ==> ts[i] <= top
    ensures forall i :: 0 <= i < |Prune(ts, now, window)| ==> Prune(ts, now, window)[i] <= top
    decreases |ts|
  {
    if ts != [] {
      PruneSubset(Front(ts), now, window, top);
    }
  }

  // ---------------------------------------------------------------- budget

  /** At time `now`: nothing lies in the future; the kept times agree with all call times on
    * what is young enough to matter; and no window-long interval holds more than `max` calls. */
  ghost predicate BudgetOk(r: Relay, cfg: Config, now: int) {
    var calls := CallTimes(r.log);
    && (forall i :: 0 <= i < |calls| ==> calls[i] <= now)
    && (forall i :: 0 <= i < |r.timestamps| ==> r.timestamps[i] <= now)
    && (forall lo, hi :: now - cfg.window < lo ==> CountIn(r.timestamps, lo, hi) == CountIn(calls, lo, hi))
    && (forall lo :: InWindow(calls, lo, cfg.window) <= Cap(cfg))
  }

  lemma CallKeepsBudget(r: Relay, cfg: Config, nonce: string, now: int)
    requires BudgetOk(r, cfg, now) && Decide(r, cfg, nonce, now).Call?
    ensures forall lo :: InWindow(CallTimes(r.log) + [now], lo, cfg.window) <= Cap(cfg)
  {
    var calls := CallTimes(r.log);
    forall lo
      ensures InWindow(calls + [now], lo, cfg.window) <= Cap(cfg)
    {
      CountSnoc(calls, now, lo, lo + cfg.window);
      assert InWindow(calls, lo, cfg.window) <= Cap(cfg);
      if lo <= now < lo + cfg.window {
        var pruned := Prune(r.timestamps, now, cfg.window);
        PruneCounts(r.timestamps, now, cfg.window, lo, lo + cfg.window);
        CountAtMostLength(pruned, lo, lo + cfg.window);
      }
    }
  }

  lemma PruneKeepsBudget(r: Relay, cfg: Config, now: int)
    requires BudgetOk(r, cfg, now)
    ensures BudgetOk(r.(timestamps := Prune(r.timestamps, now, cfg.window)), cfg, now)
  {
    PruneSubset(r.timestamps, now, cfg.window, now);
    forall lo, hi | now - cfg.window < lo
      ensures CountIn(Prune(r.timestamps, now, cfg.window), lo, hi) == CountIn(CallTimes(r.log), lo, hi)
    {
      PruneCounts(r.timestamps, now, cfg.window, lo, hi);
    }
  }

  lemma CallStep(r: Relay, cfg: Config, nonce: string, now: int)
    requires BudgetOk(r, cfg, now) && Decide(r, cfg, nonce, now).Call?
    ensures BudgetOk(Perform(r, cfg, Begin(nonce, now)), cfg, now)
  {
    hide Prune, CountIn, InWindow, CallTimes;
    var calls := CallTimes(r.log);
    var pruned := Prune(r.timestamps, now, cfg.window);
    CallTimesSnoc(r.log, Called(nonce, now));
    CallKeepsBudget(r, cfg, nonce, now);
    PruneKeepsBudget(r, cfg, now);
    forall lo, hi | now - cfg.window < lo
      ensures CountIn(pruned + [now], lo, hi) == CountIn(calls + [now], lo, hi)
    {
      CountSnoc(pruned, now, lo, hi);
      CountSnoc(calls, now, lo, hi);
    }
  }

  lemma BudgetStep(r: Relay, cfg: Config, a: Act)
    requires BudgetOk(r, cfg, a.now)
    ensures BudgetOk(Perform(r, cfg, a), cfg, a.now)
  {
    hide Prune, CountIn, InWindow;
    var r' := Perform(r, cfg, a);
    PruneKeepsBudget(r, cfg, a.now);
    if a.Begin? && Decide(r, cfg, a.nonce, a.now).Call? {
      CallStep(r, cfg, a.nonce, a.now);
    } else if r'.log != r.log {
      CallTimesSnoc(r.log, Last(r'.log));
    }
  }

  /** As time passes less of the past matters. */
  lemma BudgetLater(r: Relay, cfg: Config, now: int, later: int)
    requires BudgetOk(r, cfg, now) && now <= later
    ensures BudgetOk(r, cfg, later)
  {
  }

  lemma {:induction false} BudgetRun(r: Relay, cfg: Config, acts: seq<Act>, now: int) returns (end: int)
    requires BudgetOk(r, cfg, now) && Monotone(acts, now)
    ensures BudgetOk(Run(r, cfg, acts), cfg, end) && end == (if acts == [] then now else Last(acts).now)
    decreases |acts|
  {
    end := now;
    if acts != [] {
      var t := acts[0].now;
      BudgetLater(r, cfg, now, t);
      BudgetStep(r, cfg, acts[0]);
      end := BudgetRun(Perform(r, cfg, acts[0]), cfg, acts[1..], t);
    }
  }

  // ---------------------------------------------------------------- backoff

  /** Calls come at or after the end of the backoff of every earlier failure. */
  ghost predicate BackoffKept(log: seq<Event>, backoff: int) {
    forall i, j :: 0 <= i < j < |log| && log[i].FailedCall? && log[j].Called? ==> log[j].at >= log[i].at + backoff
  }

  ghost predicate BackoffOk(r: Relay, cfg: Config, now: int) {
    && BackoffKept(r.log, cfg.backoff)
    && (forall i :: 0 <= i < |r.log| && r.log[i].FailedCall? ==>
        r.log[i].at <= now && r.log[i].at + cfg.backoff <= r.unreachableUntil)
  }

  lemma BackoffStep(r: Relay, cfg: Config, a: Act)
    requires BackoffOk(r, cfg, a.now)
    ensures BackoffOk(Perform(r, cfg, a), cfg, a.now)
  {
    var r' := Perform(r, cfg, a);
    if r'.log != r.log {
      var e := Last(r'.log);
      assert r'.log == r.log + [e];
    }
  }

  lemma {:induction false} BackoffRun(r: Relay, cfg: Config, acts: seq<Act>, now: int)
    requires BackoffOk(r, cfg, now) && Monotone(acts, now)
    ensures BackoffKept(Run(r, cfg, acts).log, cfg.backoff)
    decreases |acts|
  {
    if acts != [] {
      var t := acts[0].now;
      BackoffStep(r, cfg, acts[0]);
      BackoffRun(Perform(r, cfg, acts[0]), cfg, acts[1..], t);
    }
  }

  /** Under a clock that never goes back, and any interleaving of calls in flight: every
    * half-open interval as long as the window holds at most `max` transport calls, and no call
    * starts within the backoff after a failure. */
  lemma BudgetAndBackoffHold(cfg: Config, acts: seq<Act>, start: int)
    requires Monotone(acts, start)
    ensures
      var log := Run(NEW_RELAY, cfg, acts).log;
      && (forall lo :: InWindow(CallTimes(log), lo, cfg.window) <= Cap(cfg))
      && BackoffKept(log, cfg.backoff)
  {
    var end := BudgetRun(NEW_RELAY, cfg, acts, start);
    BackoffRun(NEW_RELAY, cfg, acts, start);
  }

  // ---------------------------------------------------------------- replay

  /** The calls made for one nonce. */
  function CallsFor(log: seq<Event>, nonce: string): nat {
    if log == [] then 0
    else CallsFor(Front(log), nonce) + (if Last(log).Called? && Last(log).nonce == nonce then 1 else 0)
  }

  /** Once a nonce has a stored result, no later step calls the transport for it, and asking
    * again is answered from the store, at once and without touching budget or backoff. */
  lemma {:induction false} StoredResultsAreReplayed(r: Relay, cfg: Config, acts: seq<Act>, nonce: string, now: int)
    requires nonce in r.results
    ensures var r' := Run(r, cfg, acts);
      && nonce in r'.results
      && CallsFor(r'.log, nonce) == CallsFor(r.log, nonce)
      && Decide(r', cfg, nonce, now) == Replay(r'.results[nonce])
      && Perform(r', cfg, Begin(nonce, now)) == r'
    decreases |acts|
  {
    if acts != [] {
      var r1 := Perform(r, cfg, acts[0]);
      if r1.log != r.log {
        assert Front(r1.log) == r.log;
      }
      StoredResultsAreReplayed(r1, cfg, acts[1..], nonce, now);
    }
  }

  // ---------------------------------------------------------------- decisions and the past

  /** The result that came last for a nonce, cut to what is stored of it. */
  function ResultOf(past: seq<Act>, nonce: string): Option<seq<string>> {
    if past == [] then None
    else
      var a := Last(past);
      if a.Arrived? && a.nonce == nonce then Some(if |a.texts| > 2 then a.texts[..2] else a.texts)
      else ResultOf(Front(past), nonce)
  }

  /** When the backoff after the last failure is over. */
  function BackoffEnd(cfg: Config, past: seq<Act>): int {
    if past == [] then 0
    else if Last(past).FailedAt? then Last(past).now + cfg.backoff
    else BackoffEnd(cfg, Front(past))
  }

  /** What a turn is answered, told by what has happened before: its stored result if it has one, else
    * a refusal while the last failure's backoff lasts or `max` calls are younger than the window. */
  function Answer(cfg: Config, past: seq<Act>, nonce: string, now: int): Decision
    decreases |past|, 1
  {
    if ResultOf(past, nonce).Some? then Replay(ResultOf(past, nonce).value)
    else if now < BackoffEnd(cfg, past) then BackedOff(BackoffEnd(cfg, past) - now)
    else if CountIn(CallsOf(cfg, past), now - cfg.window + 1, now + 1) >= cfg.max then OverBudget
    else Call
  }

  /** The times of the transport calls: those of the turns that were answered with a call. */
  function CallsOf(cfg: Config, past: seq<Act>): seq<int>
    decreases |past|, 0
  {
    if past == [] then []
    else
      var a := Last(past);
      CallsOf(cfg, Front(past)) +
      if a.Begin? && Answer(cfg, Front(past), a.nonce, a.now) == Call then [a.now] else []
  }

  lemma {:induction false} RunSnoc(r: Relay, cfg: Config, acts: seq<Act>, a: Act)
    ensures Run(r, cfg, acts + [a]) == Perform(Run(r, cfg, acts), cfg, a)
    decreases |acts|
  {
    if acts == [] {
      assert Run(r, cfg, [a]) == Run(Perform(r, cfg, a), cfg, []);
      assert acts + [a] == [a];
    } else {
      assert (acts + [a])[1..] == acts[1..] + [a];
      RunSnoc(Perform(r, cfg, acts[0]), cfg, acts[1..], a);
    }
  }

  lemma {:induction false} PruneLength(ts: seq<int>, now: int, window: int)
    requires forall i :: 0 <= i < |ts| ==> ts[i] <= now
    ensures |Prune(ts, now, window)| == CountIn(ts, now - window + 1, now + 1)
    decreases |ts|
  {
    if ts != [] {
      PruneLength(Front(ts), now, window);
    }
  }

  /** The state after `past` holds what decisions need of it. */
  ghost predicate Remembers(r: Relay, cfg: Config, past: seq<Act>) {
    && (forall n :: n in r.results <==> ResultOf(past, n).Some?)
    && (forall n :: n in r.results ==> ResultOf(past, n) == Some(r.results[n]))
    && r.unreachableUntil == BackoffEnd(cfg, past)
    && CallTimes(r.log) == CallsOf(cfg, past)
    && (forall t :: FailedCall(t) in r.log <==> FailedAt(t) in past)
  }

  lemma DecideIsAnswer(r: Relay, cfg: Config, past: seq<Act>, nonce: string, now: int)
    requires Remembers(r, cfg, past) && BudgetOk(r, cfg, now)
    ensures Decide(r, cfg, nonce, now) == Answer(cfg, past, nonce, now)
  {
    PruneLength(r.timestamps, now, cfg.window);
    assert CountIn(r.timestamps, now - cfg.window + 1, now + 1) ==
      CountIn(CallTimes(r.log), now - cfg.window + 1, now + 1);
  }

  lemma RemembersStep(r: Relay, cfg: Config, past: seq<Act>, a: Act)
    requires Remembers(r, cfg, past) && BudgetOk(r, cfg, a.now)
    ensures Remembers(Perform(r, cfg, a), cfg, past + [a])
  {
    hide Remembers, BudgetOk, Decide;
    match a
    case Begin(nonce, now) =>
      DecideIsAnswer(r, cfg, past, nonce, now);
      BeginRemembers(r, cfg, past, nonce, now);
    case Arrived(nonce, texts, now) => ResultRemembers(r, cfg, past, nonce, texts, now);
    case FailedAt(now) => FailureRemembers(r, cfg, past, now);
    case Diagnose(now) => DiagnoseRemembers(r, cfg, past, now);
  }

  lemma BeginRemembers(r: Relay, cfg: Config, past: seq<Act>, nonce: string, now: int)
    requires Remembers(r, cfg, past) && Decide(r, cfg, nonce, now) == Answer(cfg, past, nonce, now)
    ensures Remembers(Perform(r, cfg, Begin(nonce, now)), cfg, past + [Begin(nonce, now)])
  {
    hide Prune, Answer, Decide;
    assert Front(past + [Begin(nonce, now)]) == past;
    CallTimesSnoc(r.log, Called(nonce, now));
  }

  lemma ResultRemembers(r: Relay, cfg: Config, past: seq<Act>, nonce: string, texts: seq<string>, now: int)
    requires Remembers(r, cfg, past)
    ensures Remembers(Perform(r, cfg, Arrived(nonce, texts, now)), cfg, past + [Arrived(nonce, texts, now)])
  {
    hide Prune, Answer, Decide;
    assert Front(past + [Arrived(nonce, texts, now)]) == past;
  }

  lemma FailureRemembers(r: Relay, cfg: Config, past: seq<Act>, now: int)
    requires Remembers(r, cfg, past)
    ensures Remembers(Perform(r, cfg, FailedAt(now)), cfg, past + [FailedAt(now)])
  {
    hide Prune, Answer, Decide;
    assert Front(past + [FailedAt(now)]) == past;
    CallTimesSnoc(r.log, FailedCall(now));
  }

  lemma DiagnoseRemembers(r: Relay, cfg: Config, past: seq<Act>, now: int)
    requires Remembers(r, cfg, past)
    ensures Remembers(Perform(r, cfg, Diagnose(now)), cfg, past + [Diagnose(now)])
  {
    hide Prune, Answer, Decide;
    assert Front(past + [Diagnose(now)]) == past;
  }

  lemma {:induction false} RemembersRun(cfg: Config, acts: seq<Act>, start: int)
    requires Monotone(acts, start)
    ensures Remembers(Run(NEW_RELAY, cfg, acts), cfg, acts)
    decreases |acts|
  {
    if acts != [] {
      var past, a := Front(acts), Last(acts);
      RemembersRun(cfg, past, start);
      var end := BudgetRun(NEW_RELAY, cfg, past, start);
      BudgetLater(Run(NEW_RELAY, cfg, past), cfg, end, a.now);
      RemembersStep(Run(NEW_RELAY, cfg, past), cfg, past, a);
      RunSnoc(NEW_RELAY, cfg, past, a);
      assert past + [a] == acts;
    }
  }

  /** Under a clock that never goes back, every turn is answered as its past demands, and the transport
    * is called exactly for the turns whose answer is a call: pruning never shows. */
  lemma DecisionsFollowThePast(cfg: Config, acts: seq<Act>, start: int, nonce: string, now: int)
    requires Monotone(acts, start) && start <= now && forall i :: 0 <= i < |acts| ==> acts[i].now <= now
    ensures
      var r := Run(NEW_RELAY, cfg, acts);
      && Decide(r, cfg, nonce, now) == Answer(cfg, acts, nonce, now) && CallTimes(r.log) == CallsOf(cfg, acts)
      && (forall t :: FailedCall(t) in r.log <==> FailedAt(t) in acts)
  {
    hide Prune, Answer, Decide;
    RemembersRun(cfg, acts, start);
    var end := BudgetRun(NEW_RELAY, cfg, acts, start);
    BudgetLater(Run(NEW_RELAY, cfg, acts), cfg, end, now);
    DecideIsAnswer(Run(NEW_RELAY, cfg, acts), cfg, acts, nonce, now);
  }

  // ---------------------------------------------------------------- the relay object

  class Client {
    const cfg: Config
    var results: map<string, seq<string>>
    var timestamps: seq<int>
    var unreachableUntil: int
    ghost var log: seq<Event>

    ghost function View(): Relay
      reads this
    {
      Relay(results, timestamps, unreachableUntil, log)
    }

    constructor (cfg: Config)
      ensures View() == NEW_RELAY && this.cfg == cfg
    {
      this.cfg := cfg;
      results, timestamps, unreachableUntil, log := map[], [], 0, [];
    }

    method PruneWindow(now: int)
      modifies this`timestamps
      ensures timestamps == Prune(old(timestamps), now, cfg.window)
    {
      var kept: seq<int> := [];
      var all := timestamps;
      for i := 0 to |all|
        invariant kept == Prune(all[..i], now, cfg.window)
      {
        assert Front(all[..i + 1]) == all[..i] && Last(all[..i + 1]) == all[i];
        if now - all[i] < cfg.window {
          kept := kept + [all[i]];
        }
      }
      assert all[..|all|] == all;
      timestamps := kept;
    }

    method BeginTurn(nonce: string, now: int) returns (d: Decision)
      modifies this
      ensures d == Decide(old(View()), cfg, nonce, now)
      ensures View() == Perform(old(View()), cfg, Begin(nonce, now))
    {
      if nonce in results {
        return Replay(results[nonce]);
      }
      if now < unreachableUntil {
        return BackedOff(unreachableUntil - now);
      }
      PruneWindow(now);
      if |timestamps| >= cfg.max {
        return OverBudget;
      }
      timestamps := timestamps + [now];
      log := log + [Called(nonce, now)];
      d := Call;
    }

    method ResultArrives(nonce: string, texts: seq<string>, now: int) returns (capped: seq<string>)
      modifies this
      ensures View() == Perform(old(View()), cfg, Arrived(nonce, texts, now))
      ensures capped <= texts && |capped| <= MAX_TEXTS && (|texts| >= MAX_TEXTS ==> |capped| == MAX_TEXTS)
    {
      capped := if |texts| <= MAX_TEXTS then texts else texts[..MAX_TEXTS];
      results := results[nonce := capped];
    }

    method CallFails(now: int)
      modifies this
      ensures View() == Perform(old(View()), cfg, FailedAt(now))
    {
      unreachableUntil := now + cfg.backoff;
      log := log + [FailedCall(now)];
    }
  }
}
