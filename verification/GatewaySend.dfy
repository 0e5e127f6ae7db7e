/** The client's prompt send: one bounded attempt and at most one retry, and what the acceptance
  * ledger makes of the requests that arrive.
  *
  * What the network does is an argument: whether a connection resolves, what each POST comes
  * back with, and what happens to the client while the first attempt is under way.
  */
module GatewaySend {
  import opened Prelude
  import L = AcceptanceLedger

  /** `Lost`: a timeout, a dropped connection or an unreadable answer, whether or not the server
    * got the request. */
  datatype Reply = AcceptedReply | OtherReply | CommandError | Lost

  datatype Attempt = NoConnection | Posted(base: string, reply: Reply)

  /** What happens while the first attempt is in flight: bases that other sends prove, and close. */
  datatype Meanwhile = Meanwhile(proven: set<string>, closed: bool)

  predicate Succeeded(a: Attempt) {
    a.Posted? && (a.reply.AcceptedReply? || a.reply.OtherReply?)
  }

  function PostOf(a: Attempt): seq<string> {
    if a.Posted? then [a.base] else []
  }

  /** The retry rule: the nonce is there, the client is open, the gateway did not answer with an
    * error, and the request never left or went to a base proven to deduplicate. */
  predicate Retries(proven: set<string>, closed: bool, nonce: Option<string>, first: Attempt) {
    && !Succeeded(first) && !closed
    && nonce.Some? && nonce.value != ""
    && (first.Posted? ==> !first.reply.CommandError? && first.base in proven)
  }

  /** The bases that one call posts to, in order. */
  function PostsOf(proven: set<string>, closed: bool, nonce: Option<string>, first: Attempt, second: Attempt)
      : seq<string>
  {
    if Retries(proven, closed, nonce, first) then PostOf(first) + PostOf(second) else PostOf(first)
  }

  // ---------------------------------------------------------------- the client

  /** What a client goes through: an attempt of its own that ended, or a stretch of other work. */
  datatype Heard = Ended(a: Attempt) | Told(m: Meanwhile)

  /** The server behind `b` has answered a prompt with `accepted`, here or in another send. */
  ghost predicate SaidAccepted(log: seq<Heard>, b: string) {
    exists i :: 0 <= i < |log| && (log[i] == Ended(Posted(b, AcceptedReply)) || (log[i].Told? && b in log[i].m.proven))
  }

  ghost predicate ClosedIn(log: seq<Heard>) {
    exists i :: 0 <= i < |log| && log[i].Told? && log[i].m.closed
  }

  lemma HeardSnoc(log: seq<Heard>, h: Heard)
    ensures forall b :: SaidAccepted(log + [h], b) <==>
      SaidAccepted(log, b) || h == Ended(Posted(b, AcceptedReply)) || (h.Told? && b in h.m.proven)
    ensures ClosedIn(log + [h]) <==> ClosedIn(log) || (h.Told? && h.m.closed)
  {
    var all := log + [h];
    assert all[|log|] == h;
    assert forall i :: 0 <= i < |log| ==> all[i] == log[i];
  }

  class GatewayClient {
    var proven: set<string>
    var closed: bool
    /** Everything that has happened to this client, in order. */
    ghost var log: seq<Heard>

    /** Over any calls: the bases held as proven are exactly those that answered `accepted`. */
    ghost predicate Valid()
      reads this
    {
      && (forall b :: b in proven <==> SaidAccepted(log, b))
      && (closed <==> ClosedIn(log))
    }

    constructor ()
      ensures Valid() && log == [] && proven == {} && !closed
    {
      proven, closed, log := {}, false, [];
    }

    method AttemptSend(a: Attempt) returns (ok: bool, posts: seq<string>)
      requires Valid()
      modifies this
      ensures Valid() && log == old(log) + [Ended(a)] && closed == old(closed)
      ensures ok <==> a.Posted? && a.reply in {AcceptedReply, OtherReply}
      ensures posts == if a.Posted? then [a.base] else []
    {
      log := log + [Ended(a)];
      HeardSnoc(old(log), Ended(a));
      if a.NoConnection? {
        return false, [];
      }
      posts := [a.base];
      ok := a.reply.AcceptedReply? || a.reply.OtherReply?;
      if ok {
        if a.reply.AcceptedReply? {
          proven := proven + {a.base};
        }
      }
    }

    /** The world moves on between the first attempt's start and its end. */
    method Elapse(m: Meanwhile)
      requires Valid()
      modifies this
      ensures Valid() && log == old(log) + [Told(m)]
    {
      proven := proven + m.proven;
      closed := closed || m.closed;
      log := log + [Told(m)];
      HeardSnoc(old(log), Told(m));
    }

    /** One `sendPrompt` call. A second attempt is made exactly when the first failed with no answer,
      * the nonce is not empty, the client is open, and the first never left or went to a base whose
      * server has answered `accepted` by then. Nothing else is posted. */
    method SendPrompt(nonce: Option<string>, first: Attempt, m: Meanwhile, second: Attempt)
      returns (ok: bool, posts: seq<string>)
      requires Valid()
      modifies this
      ensures Valid()
      ensures
        var told := old(log) + [Told(m)];
        var retried := nonce.Some? && nonce.value != "" && !ClosedIn(told) &&
          (first.NoConnection? || (first.reply.Lost? && SaidAccepted(told, first.base)));
        && log == told + [Ended(first)] + (if retried then [Ended(second)] else [])
        && (|posts| == 2 <==> retried && first.Posted? && second.Posted?)
        && (|posts| == 0 <==> first.NoConnection? && !(retried && second.Posted?))
        && (ok <==> (first.Posted? && first.reply in {AcceptedReply, OtherReply})
                    || (retried && second.Posted? && second.reply in {AcceptedReply, OtherReply}))
      ensures |posts| <= 2
      ensures first.Posted? ==> 0 < |posts| && posts[0] == first.base
      ensures |posts| == 2 || (first.NoConnection? && |posts| == 1) ==> second.Posted? && Last(posts) == second.base
      ensures posts == PostsOf(old(proven) + m.proven, old(closed) || m.closed, nonce, first, second)
    {
      HeardSnoc(log, Told(m));
      Elapse(m);
      ok, posts := AttemptSend(first);
      HeardSnoc(old(log) + [Told(m)], Ended(first));
      if ok {
        return;
      }
      var neverDispatched := first.NoConnection?;
      var dedupeProven := first.Posted? && first.base in proven;
      var gatewayError := first.Posted? && first.reply.CommandError?;
      var retryable := !closed && nonce.Some? && |nonce.value| > 0 && !gatewayError
          && (neverDispatched || dedupeProven);
      if !retryable {
        return;
      }
      var more;
      ok, more := AttemptSend(second);
      posts := posts + more;
    }
  }

  // ---------------------------------------------------------------- where the retry goes

  /** The call makes no second post, or makes it to a base in `proven`. */
  predicate RetryIsProven(proven: set<string>, closed: bool, nonce: Option<string>, first: Attempt, second: Attempt) {
    var posts := PostsOf(proven, closed, nonce, first, second);
    |posts| > |PostOf(first)| ==> Last(posts) in proven
  }

  /** Of the retry's base the rule knows nothing. So whatever the nonce and the first attempt, where
    * resolving a connection can give any base in `bases`: every retry that is posted goes to a base
    * proven to deduplicate exactly when the rule does not retry or all of `bases` are proven.
    * `proven` and `closed` are the client's when the first attempt has ended. */
  lemma RetryIsProvenExactlyWhen(proven: set<string>, closed: bool, nonce: Option<string>, first: Attempt,
      bases: set<string>)
    ensures
      (forall second: Attempt :: (second.Posted? ==> second.base in bases) ==>
        RetryIsProven(proven, closed, nonce, first, second))
      <==> (!Retries(proven, closed, nonce, first) || bases <= proven)
  {
    if Retries(proven, closed, nonce, first) {
      forall b | b in bases
        ensures RetryIsProven(proven, closed, nonce, first, Posted(b, Lost)) <==> b in proven
      {
        assert PostsOf(proven, closed, nonce, first, Posted(b, Lost)) == PostOf(first) + [b];
      }
      if !(bases <= proven) {
        var b :| b in bases && b !in proven;
        assert !RetryIsProven(proven, closed, nonce, first, Posted(b, Lost));
      }
    }
  }

  // ---------------------------------------------------------------- what the ledgers answer

  /** A ledger that gets both requests of a call: whatever else it is asked between them, other
    * sends, marks, restarts or clears of other nonces, the second is no first sight, and a repeat is
    * recognized under the same digest. */
  lemma RepeatIsRecognized(before: seq<L.Op>, between: seq<L.Op>, slot: string, nonce: string, digest: string,
      t1: int, t2: int)
    requires L.ClearsAfterLoad(L.EMPTY, before)
    requires L.ClearsAfterLoad(L.Apply(L.Run(L.EMPTY, before), L.Admit(slot, nonce, digest, t1)), between)
    requires forall op :: op in between ==> op != L.Clear(nonce)
    ensures
      var l := L.Run(L.EMPTY, before);
      var first := L.AdmissionFor(l, nonce, slot, digest, t1);
      var later := L.Run(L.Apply(l, L.Admit(slot, nonce, digest, t1)), between);
      var second := L.AdmissionFor(later, nonce, slot, digest, t2);
      && !second.Admitted?
      && (first.Admitted? ==> second.Duplicate? && second.record.digest == digest)
      && (first.DigestMismatch? <==> second.DigestMismatch?)
  {
    L.EmptyIsFaithful();
    L.FaithfulRun(L.EMPTY, before);
    var l := L.Run(L.EMPTY, before);
    var after := L.Apply(l, L.Admit(slot, nonce, digest, t1));
    L.FaithfulStep(l, L.Admit(slot, nonce, digest, t1));
    L.AdmissionMeansFirstSight(before, slot, nonce, digest, t1);
    assert L.DigestOf(L.Known(after), nonce) == L.Standing(after.log, nonce);
    assert nonce in L.Known(after);
    L.DigestIsStable(after, between, nonce);
    L.FaithfulRun(after, between);
    var later := L.Run(after, between);
    assert L.DigestOf(L.Known(later), nonce) == L.Standing(later.log, nonce);
    assert later.file.Some? ==> map[] + later.file.value == later.file.value;
  }

  /** What happens around one call: what the ledger with each number is asked before the first
    * request and between the two, and which requests arrive, whatever the client hears of them. */
  datatype World = World(before: nat -> seq<L.Op>, between: nat -> seq<L.Op>, firstArrives: bool, secondArrives: bool)

  /** The wire input of the call. */
  datatype Input = Input(slot: string, nonce: string, digest: string, t1: int, t2: int)

  /** Ledger `k` when the second request leaves the client; `at` is the ledger behind each base. */
  function Between(w: World, at: string -> nat, first: Attempt, i: Input, k: nat): L.Ledger {
    var l := L.Run(L.EMPTY, w.before(k));
    var arrives := first.Posted? && w.firstArrives && at(first.base) == k;
    if arrives then L.Apply(l, L.Admit(i.slot, i.nonce, i.digest, i.t1)) else l
  }

  /** Nothing is cleared before a ledger's first load, and the call's own nonce not at all. */
  ghost predicate Usual(w: World, at: string -> nat, first: Attempt, i: Input) {
    forall k: nat ::
      && L.ClearsAfterLoad(L.EMPTY, w.before(k))
      && L.ClearsAfterLoad(Between(w, at, first, i, k), w.between(k))
      && forall op :: op in w.between(k) ==> op != L.Clear(i.nonce)
  }

  predicate FirstAccepted(w: World, at: string -> nat, first: Attempt, i: Input) {
    && first.Posted? && w.firstArrives
    && L.AdmissionFor(L.Run(L.EMPTY, w.before(at(first.base))), i.nonce, i.slot, i.digest, i.t1).Admitted?
  }

  predicate SecondAccepted(w: World, at: string -> nat, first: Attempt, second: Attempt, i: Input) {
    && second.Posted? && w.secondArrives
    && var k := at(second.base);
       L.AdmissionFor(L.Run(Between(w, at, first, i, k), w.between(k)), i.nonce, i.slot, i.digest, i.t2).Admitted?
  }

  /** The call's prompt is dispatched twice. */
  predicate AcceptedTwice(w: World, at: string -> nat, first: Attempt, second: Attempt, i: Input) {
    FirstAccepted(w, at, first, i) && SecondAccepted(w, at, first, second, i)
  }

  /** The posts of one call composed with the ledgers they reach: in no world, whichever requests
    * arrive, is one call accepted twice exactly when it makes at most one post, or both of its posts
    * go to bases that share a ledger. */
  lemma OneSendIsAcceptedOnceExactlyWhen(proven: set<string>, closed: bool, first: Attempt, second: Attempt,
      at: string -> nat, i: Input)
    ensures
      var posts := PostsOf(proven, closed, Some(i.nonce), first, second);
      (forall w :: Usual(w, at, first, i) ==>
        !(|posts| == 2 && AcceptedTwice(w, at, first, second, i)))
      <==> (|posts| < 2 || at(posts[0]) == at(posts[1]))
  {
    var posts := PostsOf(proven, closed, Some(i.nonce), first, second);
    if |posts| == 2 {
      assert posts == [first.base] + [second.base];
      if at(first.base) == at(second.base) {
        forall w | Usual(w, at, first, i)
          ensures !AcceptedTwice(w, at, first, second, i)
        {
          SharedLedgerRecognizes(w, at, first, second, i);
        }
      } else {
        QuietWorldAcceptsBoth(at, first, second, i);
        var none: seq<L.Op> := [];
        var w := World(k => none, k => none, true, true);
        assert Usual(w, at, first, i) && AcceptedTwice(w, at, first, second, i);
      }
    }
  }

  lemma SharedLedgerRecognizes(w: World, at: string -> nat, first: Attempt, second: Attempt, i: Input)
    requires first.Posted? && second.Posted? && at(first.base) == at(second.base) && Usual(w, at, first, i)
    ensures !AcceptedTwice(w, at, first, second, i)
  {
    var k := at(first.base);
    if w.firstArrives {
      RepeatIsRecognized(w.before(k), w.between(k), i.slot, i.nonce, i.digest, i.t1, i.t2);
    }
  }

  /** Two ledgers that are asked nothing else both take the prompt for new. */
  lemma QuietWorldAcceptsBoth(at: string -> nat, first: Attempt, second: Attempt, i: Input)
    requires first.Posted? && second.Posted? && at(first.base) != at(second.base)
    ensures
      var none: seq<L.Op> := [];
      var w := World(k => none, k => none, true, true);
      Usual(w, at, first, i) && AcceptedTwice(w, at, first, second, i)
  {
  }

  /** The rule looks at the base of the first attempt only: the retry may go to another base,
    * which nothing has proven to deduplicate. */
  method RetryMayReachAnUnprovenBase(client: GatewayClient)
    returns (posts: seq<string>)
    requires client.Valid() && !client.closed && client.proven == {"old"}
    modifies client
    ensures posts == ["old", "new"] && "new" !in client.proven
  {
    var first, second, m := Posted("old", Lost), Posted("new", OtherReply), Meanwhile({}, false);
    ghost var told := client.log + [Told(m)];
    HeardSnoc(client.log, Told(m));
    HeardSnoc(told, Ended(first));
    HeardSnoc(told + [Ended(first)], Ended(second));
    var ok;
    ok, posts := client.SendPrompt(Some("n"), first, m, second);
    assert posts == ["old"] + ["new"];
  }
}
