/** The coordinator port protocol: the server side, the client side, and the two composed over
  * one first-in first-out channel each way.
  *
  * Request ids `r1`, `r2`, ... are the numbers 1, 2, ...; payloads are strings. A value that is
  * no frame of the expected direction is `Malformed`.
  */
module Port {
  import opened Prelude

  datatype ToServer = Malformed | ClientReady | ClientShutdown | Request(id: nat, name: string)

  datatype Outcome = Ok(value: string) | Error(message: string)

  datatype ToClient =
    | Garbage
    | ServerReady
    | ServerShutdown(breach: bool)
    | Reply(id: nat, outcome: Outcome)
    | Event(family: string, payload: string)

  // ---------------------------------------------------------------- server

  /** `out` is everything posted to the client; `serving` the requests whose dispatch is under way. */
  datatype Server = Server(settled: bool, clean: bool, ready: bool, serving: seq<(nat, string)>, out: seq<ToClient>)

  const NEW_SERVER := Server(false, false, false, [], [])

  function Settle(s: Server, clean: bool): Server {
    if s.settled then s else s.(settled := true, clean := clean)
  }

  function Breach(s: Server): Server {
    Settle(s.(out := s.out + [ServerShutdown(true)]), false)
  }

  function ServerGets(s: Server, v: ToServer): Server {
    if s.settled then s
    else match v
      case Malformed => Breach(s)
      case ClientShutdown => Settle(s, true)
      case ClientReady => if s.ready then Breach(s) else s.(ready := true, out := s.out + [ServerReady])
      case Request(id, name) => if !s.ready then Breach(s) else s.(serving := s.serving + [(id, name)])
  }

  function Without<T>(s: seq<T>, n: nat): seq<T>
    requires n < |s|
  {
    s[..n] + s[n + 1..]
  }

  /** The dispatch of a request ends; the reply is posted unless the session has settled. */
  function DispatchEnds(s: Server, n: nat, o: Outcome): Server
    requires n < |s.serving|
  {
    var d := s.(serving := Without(s.serving, n));
    if s.settled then d else d.(out := s.out + [Reply(s.serving[n].0, o)])
  }

  function PostEvent(s: Server, family: string, payload: string): Server {
    if s.settled || !s.ready then s else s.(out := s.out + [Event(family, payload)])
  }

  // The shape of a server's output: `(ready (reply | event)*)? shutdown?`.

  datatype Phase = Fresh | Live | Closed | Wrong

  function Advance(p: Phase, f: ToClient): Phase {
    match f
    case ServerReady => if p.Fresh? then Live else Wrong
    case ServerShutdown(_) => if p.Fresh? || p.Live? then Closed else Wrong
    case Reply(_, _) => if p.Live? then Live else Wrong
    case Event(_, _) => if p.Live? then Live else Wrong
    case Garbage => Wrong
  }

  function PhaseOf(out: seq<ToClient>): Phase {
    if out == [] then Fresh else Advance(PhaseOf(Front(out)), Last(out))
  }

  lemma PhaseSnoc(out: seq<ToClient>, f: ToClient)
    ensures PhaseOf(out + [f]) == Advance(PhaseOf(out), f)
  {
    assert Front(out + [f]) == out;
  }

  /** What the shape means: the hello comes first, replies and events only after it, a shutdown last. */
  ghost predicate WellShaped(out: seq<ToClient>) {
    forall i :: 0 <= i < |out| ==>
      && !out[i].Garbage?
      && (out[i].ServerReady? ==> i == 0)
      && (out[i].Reply? || out[i].Event? ==> out[0].ServerReady?)
      && (out[i].ServerShutdown? ==> i == |out| - 1)
  }

  lemma {:induction false} ShapeIs(out: seq<ToClient>)
    ensures PhaseOf(out) != Wrong <==> WellShaped(out)
    ensures PhaseOf(out).Fresh? <==> out == []
    ensures PhaseOf(out).Live? <==> WellShaped(out) && out != [] && !Last(out).ServerShutdown?
    decreases |out|
  {
    if out != [] {
      var f, e := Front(out), Last(out);
      ShapeIs(f);
      assert out == f + [e];
      if f == [] {
        assert out == [e] && PhaseOf([]) == Fresh;
      } else {
        ShapeSnoc(f, e);
      }
    }
  }

  lemma ShapeSnoc(f: seq<ToClient>, e: ToClient)
    requires f != []
    ensures WellShaped(f + [e]) <==>
      && WellShaped(f) && !Last(f).ServerShutdown?
      && (if e.ServerShutdown? then true else (e.Reply? || e.Event?) && f[0].ServerReady?)
  {
    var out := f + [e];
    assert forall i :: 0 <= i < |f| ==> out[i] == f[i];
    assert out[|f|] == e && Last(f) == f[|f| - 1];
    if WellShaped(out) {
      assert !out[|f| - 1].ServerShutdown?;
    }
  }

  datatype ServerAct = Gets(v: ToServer) | Ends(n: nat, o: Outcome) | Posts(family: string, payload: string)
      | PortClosed

  function ServerStep(s: Server, a: ServerAct): Server {
    match a
    case Gets(v) => ServerGets(s, v)
    case Ends(n, o) => if n < |s.serving| then DispatchEnds(s, n, o) else s
    case Posts(family, payload) => PostEvent(s, family, payload)
    case PortClosed => Settle(s, true)
  }

  function ServerRun(s: Server, acts: seq<ServerAct>): Server
    decreases |acts|
  {
    if acts == [] then s else ServerRun(ServerStep(s, acts[0]), acts[1..])
  }

  ghost predicate ServerOk(s: Server) {
    && PhaseOf(s.out) != Wrong
    && (!s.settled ==> PhaseOf(s.out) == (if s.ready then Live else Fresh))
    && (!s.ready ==> s.serving == [])
    && (if s.settled then s.clean <==> ServerShutdown(true) !in s.out else ServerShutdown(true) !in s.out)
  }

  lemma GetsOk(s: Server, v: ToServer)
    requires ServerOk(s)
    ensures ServerOk(ServerGets(s, v))
  {
    hide PhaseOf;
    PhaseSnoc(s.out, ServerShutdown(true));
    PhaseSnoc(s.out, ServerReady);
    BreachShows(s.out);
  }

  lemma BreachShows(out: seq<ToClient>)
    ensures ServerShutdown(true) in out + [ServerShutdown(true)]
    ensures ServerShutdown(true) in out + [ServerReady] <==> ServerShutdown(true) in out
  {
    assert Last(out + [ServerShutdown(true)]) == ServerShutdown(true);
  }

  lemma EndsOk(s: Server, n: nat, o: Outcome)
    requires ServerOk(s) && n < |s.serving|
    ensures ServerOk(DispatchEnds(s, n, o))
  {
    PhaseSnoc(s.out, Reply(s.serving[n].0, o));
  }

  lemma PostsOk(s: Server, family: string, payload: string)
    requires ServerOk(s)
    ensures ServerOk(PostEvent(s, family, payload))
  {
    PhaseSnoc(s.out, Event(family, payload));
  }

  lemma ServerOkStep(s: Server, a: ServerAct)
    requires ServerOk(s)
    ensures ServerOk(ServerStep(s, a))
    ensures s.settled ==> ServerStep(s, a).out == s.out && ServerStep(s, a).settled
  {
    match a
    case Gets(v) => GetsOk(s, v);
    case Ends(n, o) =>
      if n < |s.serving| {
        EndsOk(s, n, o);
      }
    case Posts(family, payload) => PostsOk(s, family, payload);
    case PortClosed =>
  }

  /** Whatever a client sends, well-formed or not, and however dispatches, events and the closing
    * of the port interleave: the server's output has the protocol's shape, and once the session
    * has settled nothing more is ever sent. */
  lemma {:induction false} ServerKeepsProtocol(s: Server, acts: seq<ServerAct>)
    requires ServerOk(s)
    ensures WellShaped(ServerRun(s, acts).out) && ServerOk(ServerRun(s, acts))
    ensures s.settled ==> ServerRun(s, acts).out == s.out
    decreases |acts|
  {
    ShapeIs(s.out);
    if acts != [] {
      ServerOkStep(s, acts[0]);
      ServerKeepsProtocol(ServerStep(s, acts[0]), acts[1..]);
    }
  }

  lemma NewServerOk()
    ensures ServerOk(NEW_SERVER)
  {
  }

  class PortServer {
    var settled: bool
    var clean: bool
    var ready: bool
    var serving: seq<(nat, string)>
    var out: seq<ToClient>

    function View(): Server
      reads this
    {
      Server(settled, clean, ready, serving, out)
    }

    constructor ()
      ensures View() == NEW_SERVER
    {
      settled, clean, ready, serving, out := false, false, false, [], [];
    }

    method SettleSession(wasClean: bool)
      modifies this`settled, this`clean
      ensures View() == Settle(old(View()), wasClean)
    {
      if settled {
        return;
      }
      settled, clean := true, wasClean;
    }

    method BreachSession()
      modifies this
      ensures View() == Breach(old(View()))
    {
      out := out + [ServerShutdown(true)];
      SettleSession(false);
    }

    method HandleMessage(v: ToServer)
      modifies this
      ensures View() == ServerGets(old(View()), v)
    {
      if settled {
        return;
      }
      if v.Malformed? {
        BreachSession();
        return;
      }
      if v.ClientShutdown? {
        SettleSession(true);
        return;
      }
      if v.ClientReady? {
        if ready {
          BreachSession();
          return;
        }
        ready := true;
        out := out + [ServerReady];
        return;
      }
      if !ready {
        BreachSession();
        return;
      }
      serving := serving + [(v.id, v.name)];
    }

    method FinishRequest(n: nat, o: Outcome)
      requires n < |serving|
      modifies this
      ensures View() == DispatchEnds(old(View()), n, o)
    {
      var id := serving[n].0;
      serving := Without(serving, n);
      if settled {
        return;
      }
      out := out + [Reply(id, o)];
    }

    method Publish(family: string, payload: string)
      modifies this
      ensures View() == PostEvent(old(View()), family, payload)
    {
      if settled || !ready {
        return;
      }
      out := out + [Event(family, payload)];
    }
  }

  // ---------------------------------------------------------------- client

  /** How a request's promise settled. */
  datatype Fate = Resolved(value: string) | Rejected(message: string) | PortGone | TimedOut

  /** `fates` is a history of settled promises; `settledAt` the last id issued before the
    * session settled; `sent` everything posted to the server. */
  datatype Client = Client(
    settled: bool,
    ready: bool,
    next: nat,
    pending: set<nat>,
    fates: map<nat, Fate>,
    settledAt: nat,
    sent: seq<ToServer>)

  const NEW_CLIENT := Client(false, false, 0, {}, map[], 0, [])

  function ClientSettle(c: Client): Client {
    if c.settled then c
    else c.(settled := true, settledAt := c.next, pending := {}, fates := c.fates + map k | k in c.pending :: PortGone)
  }

  function FateOf(o: Outcome): Fate {
    match o case Ok(v) => Resolved(v) case Error(m) => Rejected(m)
  }

  function ClientGets(c: Client, f: ToClient): Client {
    match f
    case Garbage => ClientSettle(c)
    case ServerShutdown(_) => ClientSettle(c)
    case ServerReady => c.(ready := true)
    case Event(_, _) => c
    case Reply(id, o) =>
      if id !in c.pending then c else c.(pending := c.pending - {id}, fates := c.fates[id := FateOf(o)])
  }

  function ClientRequest(c: Client, name: string): Client {
    c.(next := c.next + 1, pending := c.pending + {c.next + 1}, sent := c.sent + [Request(c.next + 1, name)])
  }

  function ClientTimeout(c: Client, id: nat): Client {
    if id !in c.pending then c else c.(pending := c.pending - {id}, fates := c.fates[id := TimedOut])
  }

  function ClientClose(c: Client): Client {
    ClientSettle(if c.ready then c.(sent := c.sent + [ClientShutdown]) else c)
  }

  class PortClient {
    var settled: bool
    var ready: bool
    var next: nat
    var pending: set<nat>
    var fates: map<nat, Fate>
    var sent: seq<ToServer>
    ghost var settledAt: nat

    ghost function View(): Client
      reads this
    {
      Client(settled, ready, next, pending, fates, settledAt, sent)
    }

    constructor ()
      ensures View() == NEW_CLIENT
    {
      settled, ready, next, pending, fates, sent, settledAt := false, false, 0, {}, map[], [], 0;
    }

    method SettleSession()
      modifies this
      ensures View() == ClientSettle(old(View()))
    {
      if settled {
        return;
      }
      settled, settledAt := true, next;
      ghost var all := pending;
      ghost var before := fates;
      var rest := pending;
      while rest != {}
        invariant rest <= all
        invariant fates == before + map k | k in all - rest :: PortGone
        modifies this`fates
        decreases rest
      {
        var k :| k in rest;
        rest := rest - {k};
        fates := fates[k := PortGone];
      }
      pending := {};
      assert all - {} == all;
      assert fates == before + map k | k in all :: PortGone;
    }

    method HandleMessage(f: ToClient)
      modifies this
      ensures View() == ClientGets(old(View()), f)
    {
      if f.Garbage? || f.ServerShutdown? {
        SettleSession();
      } else if f.ServerReady? {
        ready := true;
      } else if f.Reply? {
        if f.id !in pending {
          return;
        }
        pending := pending - {f.id};
        fates := fates[f.id := match f.outcome case Ok(v) => Resolved(v) case Error(m) => Rejected(m)];
      }
    }

    method SendRequest(name: string) returns (id: nat)
      modifies this
      ensures View() == ClientRequest(old(View()), name) && id == old(next) + 1
    {
      next := next + 1;
      id := next;
      pending := pending + {id};
      sent := sent + [Request(id, name)];
    }

    method Expire(id: nat)
      modifies this
      ensures View() == ClientTimeout(old(View()), id)
    {
      if id !in pending {
        return;
      }
      pending := pending - {id};
      fates := fates[id := TimedOut];
    }

    method Close()
      modifies this
      ensures View() == ClientClose(old(View()))
    {
      if ready {
        sent := sent + [ClientShutdown];
      }
      SettleSession();
    }
  }

  // ---------------------------------------------------------------- the session

  /** Client, server and what has travelled: the server has taken in `taken` of the client's
    * posts, the client `received` of the server's. `results` is a history of dispatch outcomes.
    * A `cut` channel delivers nothing more. */
  datatype Session = Session(client: Client, server: Server, taken: nat, received: nat, results: map<nat, Outcome>,
      cut: bool)

  const NEW_SESSION := Session(NEW_CLIENT, NEW_SERVER, 0, 0, map[], false)

  /** `Hello` is the ready frame that the client's owner posts on the client's channel. */
  datatype Act =
    | Hello
    | Ask(name: string)
    | Expires(id: nat)
    | Closes
    | ServerTakes
    | ServerEnds(n: nat, o: Outcome)
    | ServerPosts(family: string, payload: string)
    | ClientTakes
    | Cut

  predicate Allowed(s: Session, a: Act) {
    match a
    case ServerTakes => !s.cut && s.taken < |s.client.sent|
    case ServerEnds(n, _) => n < |s.server.serving|
    case ClientTakes => !s.cut && s.received < |s.server.out|
    case _ => true
  }

  function Perform(s: Session, a: Act): Session
    requires Allowed(s, a)
  {
    match a
    case Hello => s.(client := s.client.(sent := s.client.sent + [ClientReady]))
    case Ask(name) => s.(client := ClientRequest(s.client, name))
    case Expires(id) => s.(client := ClientTimeout(s.client, id))
    case Closes => s.(client := ClientClose(s.client))
    case ServerTakes => s.(server := ServerGets(s.server, s.client.sent[s.taken]), taken := s.taken + 1)
    case ServerEnds(n, o) =>
      s.(server := DispatchEnds(s.server, n, o), results := s.results[s.server.serving[n].0 := o])
    case ServerPosts(family, payload) => s.(server := PostEvent(s.server, family, payload))
    case ClientTakes => s.(client := ClientGets(s.client, s.server.out[s.received]), received := s.received + 1)
    case Cut => s.(cut := true, server := Settle(s.server, true))
  }

  function Exec(s: Session, acts: seq<Act>): Option<Session>
    decreases |acts|
  {
    if acts == [] then Some(s)
    else if Allowed(s, acts[0]) then Exec(Perform(s, acts[0]), acts[1..])
    else None
  }

  /** The requests among posts, in order. */
  function Asked(sent: seq<ToServer>): seq<string> {
    if sent == [] then []
    else Asked(Front(sent)) + (if Last(sent).Request? then [Last(sent).name] else [])
  }

  lemma AskedSnoc(sent: seq<ToServer>, v: ToServer)
    ensures Asked(sent + [v]) == Asked(sent) + (if v.Request? then [v.name] else [])
  {
    assert Front(sent + [v]) == sent;
  }

  /** Request ids number the requests: they increase along the channel, and id k is the k-th. */
  ghost predicate IdsOk(sent: seq<ToServer>) {
    && (forall i :: 0 <= i < |sent| && sent[i].Request? ==> IsRequest(sent, sent[i].id, sent[i].name))
    && (forall i, j :: 0 <= i < j < |sent| && sent[i].Request? && sent[j].Request? ==> sent[i].id < sent[j].id)
  }

  predicate IsRequest(sent: seq<ToServer>, id: nat, name: string) {
    1 <= id <= |Asked(sent)| && Asked(sent)[id - 1] == name
  }

  /** What the server works on, or has worked on, is a request taken off the channel, once. */
  ghost predicate ServingOk(s: Session) {
    && (forall n :: 0 <= n < |s.server.serving| ==>
          && IsRequest(s.client.sent, s.server.serving[n].0, s.server.serving[n].1)
          && s.server.serving[n].0 !in s.results)
    && (forall n, m :: 0 <= n < m < |s.server.serving| ==> s.server.serving[n].0 != s.server.serving[m].0)
    && (forall k :: k in s.results ==> 1 <= k <= |Asked(s.client.sent)|)
    && (forall i :: s.taken <= i < |s.client.sent| && s.client.sent[i].Request? ==>
          && s.client.sent[i].id !in s.results
          && forall n :: 0 <= n < |s.server.serving| ==> s.server.serving[n].0 < s.client.sent[i].id)
  }

  ghost predicate RepliesOk(s: Session) {
    && (forall i :: 0 <= i < |s.server.out| && s.server.out[i].Reply? ==>
          s.server.out[i].id in s.results && s.results[s.server.out[i].id] == s.server.out[i].outcome)
    && (forall k :: k in s.client.fates && s.client.fates[k].Resolved? ==>
          k in s.results && s.results[k] == Ok(s.client.fates[k].value))
    && (forall k :: k in s.client.fates && s.client.fates[k].Rejected? ==>
          k in s.results && s.results[k] == Error(s.client.fates[k].message))
  }

  ghost predicate PendingOk(c: Client) {
    && (forall k :: (k in c.pending || k in c.fates) <==> 1 <= k <= c.next)
    && (forall k :: k in c.pending ==> k !in c.fates)
    && (c.settled ==> c.settledAt <= c.next && forall k :: k in c.pending ==> k > c.settledAt)
  }

  ghost predicate SessionInv(s: Session) {
    && IdsOk(s.client.sent) && |Asked(s.client.sent)| == s.client.next
    && s.taken <= |s.client.sent| && s.received <= |s.server.out|
    && ServingOk(s) && RepliesOk(s) && PendingOk(s.client) && ServerOk(s.server)
  }

  /** A step of the client that posts `v`. */
  lemma PostStep(s: Session, c: Client, v: ToServer)
    requires SessionInv(s) && c.sent == s.client.sent + [v]
    requires v.Request? ==> v.id == s.client.next + 1
    ensures IdsOk(c.sent) && |Asked(c.sent)| == s.client.next + (if v.Request? then 1 else 0)
    ensures ServingOk(s.(client := c))
  {
    AskedSnoc(s.client.sent, v);
    assert forall i :: 0 <= i < |s.client.sent| ==> c.sent[i] == s.client.sent[i];
  }

  lemma TakeStep(s: Session)
    requires SessionInv(s) && Allowed(s, ServerTakes)
    ensures ServingOk(Perform(s, ServerTakes))
  {
    var v := s.client.sent[s.taken];
    var s' := Perform(s, ServerTakes);
    forall i | s'.taken <= i < |s.client.sent| && s.client.sent[i].Request?
      ensures s.client.sent[i].id !in s.results
      ensures forall n :: 0 <= n < |s'.server.serving| ==> s'.server.serving[n].0 < s.client.sent[i].id
    {
    }
  }

  lemma EndStep(s: Session, n: nat, o: Outcome)
    requires SessionInv(s) && Allowed(s, ServerEnds(n, o))
    ensures ServingOk(Perform(s, ServerEnds(n, o)))
  {
    var before, after := s.server.serving, Without(s.server.serving, n);
    assert forall m :: 0 <= m < |after| ==> after[m] == before[if m < n then m else m + 1];
    assert IsRequest(s.client.sent, before[n].0, before[n].1);
  }

  lemma ServingUnchanged(s: Session, s': Session)
    requires ServingOk(s) && s'.client.sent == s.client.sent && s'.server.serving == s.server.serving
    requires s'.taken == s.taken && s'.results == s.results
    ensures ServingOk(s')
  {
  }

  lemma ClosesStep(s: Session)
    requires SessionInv(s)
    ensures var s' := Perform(s, Closes);
      IdsOk(s'.client.sent) && |Asked(s'.client.sent)| == s'.client.next && ServingOk(s')
  {
    if s.client.ready {
      PostStep(s, ClientClose(s.client), ClientShutdown);
    } else {
      ServingUnchanged(s, Perform(s, Closes));
    }
  }

  lemma ServingStep(s: Session, a: Act)
    requires SessionInv(s) && Allowed(s, a)
    ensures IdsOk(Perform(s, a).client.sent) && |Asked(Perform(s, a).client.sent)| == Perform(s, a).client.next
    ensures ServingOk(Perform(s, a))
  {
    match a
    case Hello => PostStep(s, s.client.(sent := s.client.sent + [ClientReady]), ClientReady);
    case Ask(name) => PostStep(s, ClientRequest(s.client, name), Request(s.client.next + 1, name));
    case Closes => ClosesStep(s);
    case ServerTakes => TakeStep(s);
    case ServerEnds(n, o) => EndStep(s, n, o);
    case _ => ServingUnchanged(s, Perform(s, a));
  }

  lemma ReceivedReplies(s: Session)
    requires RepliesOk(s) && Allowed(s, ClientTakes)
    ensures RepliesOk(Perform(s, ClientTakes))
  {
  }

  lemma RepliesStep(s: Session, a: Act)
    requires SessionInv(s) && Allowed(s, a)
    ensures RepliesOk(Perform(s, a))
  {
    match a
    case ServerEnds(n, o) =>
    case ClientTakes => ReceivedReplies(s);
    case _ =>
  }

  lemma PendingStep(s: Session, a: Act)
    requires SessionInv(s) && Allowed(s, a)
    ensures PendingOk(Perform(s, a).client)
  {
  }

  lemma ServerSideStep(s: Session, a: Act)
    requires SessionInv(s) && Allowed(s, a)
    ensures ServerOk(Perform(s, a).server)
  {
    match a
    case ServerTakes => ServerOkStep(s.server, Gets(s.client.sent[s.taken]));
    case ServerEnds(n, o) => ServerOkStep(s.server, Ends(n, o));
    case ServerPosts(family, payload) => ServerOkStep(s.server, Posts(family, payload));
    case Cut => ServerOkStep(s.server, PortClosed);
    case _ =>
  }

  lemma SessionStep(s: Session, a: Act)
    requires SessionInv(s) && Allowed(s, a)
    ensures SessionInv(Perform(s, a))
  {
    ServingStep(s, a);
    RepliesStep(s, a);
    PendingStep(s, a);
    ServerSideStep(s, a);
  }

  lemma {:induction false} SessionRun(s: Session, acts: seq<Act>)
    requires SessionInv(s) && Exec(s, acts).Some?
    ensures SessionInv(Exec(s, acts).value)
    decreases |acts|
  {
    if acts != [] {
      SessionStep(s, acts[0]);
      SessionRun(Perform(s, acts[0]), acts[1..]);
    }
  }

  lemma NewSessionOk()
    ensures SessionInv(NEW_SESSION)
  {
  }

  /** In every reachable session: the promise of request k is settled or pending, never both; it
    * is resolved or rejected with a reply only if that is the outcome of the server's dispatch
    * of the k-th request; and once the client has settled, no request it issued before that is
    * still outstanding. The server's posts have the protocol's shape. */
  lemma RepliesMatchRequests(acts: seq<Act>)
    requires Exec(NEW_SESSION, acts).Some?
    ensures
      var s := Exec(NEW_SESSION, acts).value;
      var c := s.client;
      && (forall k :: 1 <= k <= c.next <==> k in c.pending || k in c.fates)
      && (forall k :: k in c.fates ==> k !in c.pending)
      && (forall k :: k in c.fates && c.fates[k].Resolved? ==> k in s.results && s.results[k] == Ok(c.fates[k].value))
      && (forall k :: k in c.fates && c.fates[k].Rejected? ==>
          k in s.results && s.results[k] == Error(c.fates[k].message))
      && (c.settled ==> forall k :: k in c.pending ==> k > c.settledAt)
      && WellShaped(s.server.out)
  {
    NewSessionOk();
    SessionRun(NEW_SESSION, acts);
    ShapeIs(Exec(NEW_SESSION, acts).value.server.out);
  }

  /** A result is recorded only for the request it belongs to: the server dispatches a request
    * under the method the client asked for under that number, once. */
  lemma DispatchesAreTheRequests(acts: seq<Act>, n: nat)
    requires Exec(NEW_SESSION, acts).Some?
    requires n < |Exec(NEW_SESSION, acts).value.server.serving|
    ensures
      var s := Exec(NEW_SESSION, acts).value;
      var (id, name) := s.server.serving[n];
      IsRequest(s.client.sent, id, name) && id !in s.results &&
      forall m :: 0 <= m < |s.server.serving| && m != n ==> s.server.serving[m].0 != id
  {
    NewSessionOk();
    SessionRun(NEW_SESSION, acts);
    var s := Exec(NEW_SESSION, acts).value;
    assert IsRequest(s.client.sent, s.server.serving[n].0, s.server.serving[n].1);
  }

  lemma FateKept(s: Session, a: Act, k: nat)
    requires PendingOk(s.client) && Allowed(s, a) && k in s.client.fates
    ensures k in Perform(s, a).client.fates && Perform(s, a).client.fates[k] == s.client.fates[k]
  {
    assert k !in s.client.pending;
  }

  /** A settled promise never changes. */
  lemma {:induction false} PromisesSettleOnce(s: Session, acts: seq<Act>, k: nat)
    requires SessionInv(s) && Exec(s, acts).Some? && k in s.client.fates
    ensures k in Exec(s, acts).value.client.fates && Exec(s, acts).value.client.fates[k] == s.client.fates[k]
    decreases |acts|
  {
    if acts != [] {
      SessionStep(s, acts[0]);
      FateKept(s, acts[0], k);
      PromisesSettleOnce(Perform(s, acts[0]), acts[1..], k);
    }
  }

  // ---------------------------------------------------------------- when a session ends

  /** A frame that ends the client's session. */
  predicate EndsClient(f: ToClient) {
    f.ServerShutdown? || f.Garbage?
  }

  /** The client has said hello among its first `n` posts. */
  ghost predicate Hailed(sent: seq<ToServer>, n: nat) {
    exists j :: 0 <= j < n && j < |sent| && sent[j].ClientReady?
  }

  /** Post `i` ends the session of a server that still listens: goodbye, no frame at all, a second
    * hello, or a request before the hello. */
  ghost predicate EndsServer(sent: seq<ToServer>, i: nat)
    requires i < |sent|
  {
    match sent[i]
    case ClientShutdown => true
    case Malformed => true
    case ClientReady => Hailed(sent, i)
    case Request(_, _) => !Hailed(sent, i)
  }

  /** One of the first `n` posts has ended the server's session. */
  ghost predicate ServerEndedBy(sent: seq<ToServer>, n: nat) {
    exists i :: 0 <= i < n && i < |sent| && EndsServer(sent, i)
  }

  ghost predicate ClientEndedBy(out: seq<ToClient>, n: nat) {
    exists i :: 0 <= i < n && i < |out| && EndsClient(out[i])
  }

  ghost predicate HelloTaken(out: seq<ToClient>, n: nat) {
    exists i :: 0 <= i < n && i < |out| && out[i].ServerReady?
  }

  /** A post taken before a listening server's end: its hello is heard, its request is served. */
  ghost predicate Heeded(sent: seq<ToServer>, i: nat)
    requires i < |sent|
  {
    !ServerEndedBy(sent, i + 1)
  }

  ghost predicate ServerEndOk(s: Session) {
    && s.taken <= |s.client.sent|
    && (s.server.settled <==> s.cut || ServerEndedBy(s.client.sent, s.taken))
    && (s.server.ready <==> exists i :: 0 <= i < s.taken && s.client.sent[i].ClientReady? && Heeded(s.client.sent, i))
  }

  ghost predicate ClientEndOk(s: Session, done: seq<Act>) {
    && s.received <= |s.server.out|
    && (s.cut <==> Cut in done)
    && (s.client.settled <==> Closes in done || ClientEndedBy(s.server.out, s.received))
    && (s.client.ready <==> HelloTaken(s.server.out, s.received))
  }

  lemma HailedPrefix(sent: seq<ToServer>, more: seq<ToServer>, n: nat)
    requires n <= |sent|
    ensures Hailed(sent + more, n) <==> Hailed(sent, n)
  {
    assert forall j :: 0 <= j < n ==> (sent + more)[j] == sent[j];
  }

  lemma EndPrefix(sent: seq<ToServer>, more: seq<ToServer>, n: nat)
    requires n <= |sent|
    ensures ServerEndedBy(sent + more, n) <==> ServerEndedBy(sent, n)
  {
    forall i | 0 <= i < n
      ensures EndsServer(sent + more, i) <==> EndsServer(sent, i)
    {
      HailedPrefix(sent, more, i);
      assert (sent + more)[i] == sent[i];
    }
  }

  lemma EndSnoc(sent: seq<ToServer>, n: nat)
    requires n < |sent|
    ensures ServerEndedBy(sent, n + 1) <==> ServerEndedBy(sent, n) || EndsServer(sent, n)
    ensures Hailed(sent, n + 1) <==> Hailed(sent, n) || sent[n].ClientReady?
  {
  }

  /** To a server that still listens, `ready` says whether the client has said hello. */
  lemma ListeningIsHailed(s: Session)
    requires ServerEndOk(s) && !s.server.settled
    ensures s.server.ready <==> Hailed(s.client.sent, s.taken)
  {
    assert !ServerEndedBy(s.client.sent, s.taken);
    assert forall i :: 0 <= i < s.taken ==> Heeded(s.client.sent, i);
  }

  lemma ServerEndTakes(s: Session)
    requires ServerEndOk(s) && Allowed(s, ServerTakes)
    ensures ServerEndOk(Perform(s, ServerTakes))
  {
    var sent, n := s.client.sent, s.taken;
    EndSnoc(sent, n);
    if s.server.settled {
      assert !Heeded(sent, n);
    } else {
      ListeningIsHailed(s);
      assert Heeded(sent, n) <==> !EndsServer(sent, n);
    }
  }

  /** The client's posts only grow. */
  function ClientPosts(s: Session, a: Act): seq<ToServer>
    requires Allowed(s, a)
  {
    match a
    case Hello => [ClientReady]
    case Ask(name) => [Request(s.client.next + 1, name)]
    case Closes => if s.client.ready then [ClientShutdown] else []
    case _ => []
  }

  lemma ClientPostsStep(s: Session, a: Act)
    requires Allowed(s, a)
    ensures Perform(s, a).client.sent == s.client.sent + ClientPosts(s, a)
  {
  }

  lemma ServerEndIsPrefix(s: Session, s': Session)
    requires ServerEndOk(s) && s.client.sent <= s'.client.sent && s'.taken == s.taken
    requires s'.server.ready == s.server.ready
    requires s'.server.settled <==> s.server.settled || s'.cut
    requires s.cut ==> s'.cut
    ensures ServerEndOk(s')
  {
    var sent, more := s.client.sent, s'.client.sent[|s.client.sent|..];
    assert s'.client.sent == sent + more;
    EndPrefix(sent, more, s.taken);
    forall i | 0 <= i < s.taken
      ensures Heeded(sent, i) <==> Heeded(sent + more, i)
    {
      EndPrefix(sent, more, i + 1);
    }
  }

  lemma ServerEndStep(s: Session, a: Act)
    requires ServerEndOk(s) && Allowed(s, a)
    ensures ServerEndOk(Perform(s, a))
  {
    if a.ServerTakes? {
      ServerEndTakes(s);
    } else {
      ClientPostsStep(s, a);
      ServerEndIsPrefix(s, Perform(s, a));
    }
  }

  lemma OutGrows(s: Session, a: Act)
    requires Allowed(s, a)
    ensures s.server.out <= Perform(s, a).server.out
  {
  }

  lemma ClientEndPrefix(out: seq<ToClient>, more: seq<ToClient>, n: nat)
    requires n <= |out|
    ensures ClientEndedBy(out + more, n) <==> ClientEndedBy(out, n)
    ensures HelloTaken(out + more, n) <==> HelloTaken(out, n)
  {
    assert forall j :: 0 <= j < n ==> (out + more)[j] == out[j];
  }

  lemma ClientEndSnoc(out: seq<ToClient>, n: nat)
    requires n < |out|
    ensures ClientEndedBy(out, n + 1) <==> ClientEndedBy(out, n) || EndsClient(out[n])
    ensures HelloTaken(out, n + 1) <==> HelloTaken(out, n) || out[n].ServerReady?
  {
  }

  /** What a step does to the two flags of the client. */
  lemma ClientFlags(s: Session, a: Act)
    requires Allowed(s, a)
    ensures var s' := Perform(s, a);
      var f := if a.ClientTakes? then s.server.out[s.received] else Event("", "");
      && s'.received == s.received + (if a.ClientTakes? then 1 else 0)
      && (s'.client.settled <==> s.client.settled || a.Closes? || EndsClient(f))
      && (s'.client.ready <==> s.client.ready || f.ServerReady?)
      && (s'.cut <==> s.cut || a.Cut?)
  {
  }

  lemma ClientEndStep(s: Session, done: seq<Act>, a: Act)
    requires ClientEndOk(s, done) && Allowed(s, a)
    ensures ClientEndOk(Perform(s, a), done + [a])
  {
    hide Perform;
    var s' := Perform(s, a);
    ClientFlags(s, a);
    OutGrows(s, a);
    var more := s'.server.out[|s.server.out|..];
    assert s'.server.out == s.server.out + more;
    ClientEndPrefix(s.server.out, more, s.received);
    if a.ClientTakes? {
      ClientEndSnoc(s'.server.out, s.received);
      assert s'.server.out[s.received] == s.server.out[s.received];
    }
  }

  // Requests that are taken in time are served, and a dispatch that ends in time is answered.

  predicate IsServed(s: Session, id: nat) {
    id in s.results || exists n :: 0 <= n < |s.server.serving| && s.server.serving[n].0 == id
  }

  ghost predicate ServedOk(s: Session) {
    && (forall i :: 0 <= i < s.taken && i < |s.client.sent| && s.client.sent[i].Request? ==>
          (IsServed(s, s.client.sent[i].id) <==> Heeded(s.client.sent, i)))
    && (!s.server.settled ==> forall k :: k in s.results ==> Reply(k, s.results[k]) in s.server.out)
  }

  lemma ServedStep(s: Session, a: Act, id: nat)
    requires Allowed(s, a)
    ensures
      var taken := a.ServerTakes? && !s.server.settled && s.server.ready && s.client.sent[s.taken].Request? &&
        s.client.sent[s.taken].id == id;
      IsServed(Perform(s, a), id) <==> IsServed(s, id) || taken
  {
    match a
    case ServerEnds(n, o) =>
      var before, after := s.server.serving, Without(s.server.serving, n);
      assert forall m :: 0 <= m < |after| ==> after[m] == before[if m < n then m else m + 1];
      if m :| 0 <= m < |before| && before[m].0 == id {
        assert m != n ==> after[if m < n then m else m - 1] == before[m];
      }
    case ServerTakes =>
      var before, after := s.server.serving, Perform(s, a).server.serving;
      if after != before {
        var v := s.client.sent[s.taken];
        assert after == before + [(v.id, v.name)] && after[|before|].0 == v.id;
        assert forall m :: 0 <= m < |before| ==> after[m] == before[m];
      }
    case _ =>
  }

  lemma ServedOfPost(s: Session, a: Act, i: nat)
    requires SessionInv(s) && ServerEndOk(s) && ServedOk(s) && Allowed(s, a)
    requires i < Perform(s, a).taken && i < |Perform(s, a).client.sent| && Perform(s, a).client.sent[i].Request?
    ensures IsServed(Perform(s, a), Perform(s, a).client.sent[i].id) <==> Heeded(Perform(s, a).client.sent, i)
  {
    hide Perform, SessionInv, ServerEndOk, PendingOk, RepliesOk, ServerOk;
    var sent := s.client.sent;
    ClientPostsStep(s, a);
    TakenBy(s, a);
    var id := sent[i].id;
    ServedStep(s, a, id);
    EndPrefix(sent, ClientPosts(s, a), i + 1);
    if i == s.taken {
      NotServedBefore(s);
      HeededAtTake(s);
    } else if a.ServerTakes? && sent[s.taken].Request? {
      IdsApart(s, i, s.taken);
    }
  }

  lemma TakenBy(s: Session, a: Act)
    requires SessionInv(s) && Allowed(s, a)
    ensures s.taken <= Perform(s, a).taken <= s.taken + 1 && Perform(s, a).taken <= |s.client.sent|
    ensures a.ServerTakes? <==> Perform(s, a).taken == s.taken + 1
  {
  }

  lemma IdsApart(s: Session, i: nat, j: nat)
    requires SessionInv(s) && i < j < |s.client.sent| && s.client.sent[i].Request? && s.client.sent[j].Request?
    ensures s.client.sent[i].id != s.client.sent[j].id
  {
  }

  lemma NotServedBefore(s: Session)
    requires SessionInv(s) && s.taken < |s.client.sent| && s.client.sent[s.taken].Request?
    ensures !IsServed(s, s.client.sent[s.taken].id)
  {
  }

  lemma HeededAtTake(s: Session)
    requires ServerEndOk(s) && Allowed(s, ServerTakes) && s.client.sent[s.taken].Request?
    ensures Heeded(s.client.sent, s.taken) <==> !s.server.settled && s.server.ready
  {
    EndSnoc(s.client.sent, s.taken);
    if !s.server.settled {
      ListeningIsHailed(s);
    }
  }

  lemma AnsweredStep(s: Session, a: Act)
    requires SessionInv(s) && ServedOk(s) && Allowed(s, a) && !Perform(s, a).server.settled
    ensures forall k :: k in Perform(s, a).results ==> Reply(k, Perform(s, a).results[k]) in Perform(s, a).server.out
  {
    var s' := Perform(s, a);
    OutGrows(s, a);
    assert !s.server.settled;
    forall k | k in s'.results
      ensures Reply(k, s'.results[k]) in s'.server.out
    {
      if a.ServerEnds? && k == s.server.serving[a.n].0 {
        assert Last(s'.server.out) == Reply(k, a.o);
      } else {
        assert Reply(k, s.results[k]) in s.server.out;
      }
    }
  }

  lemma ServedOkStep(s: Session, a: Act)
    requires SessionInv(s) && ServerEndOk(s) && ServedOk(s) && Allowed(s, a)
    ensures ServedOk(Perform(s, a))
  {
    hide Perform, SessionInv, ServerEndOk;
    var s' := Perform(s, a);
    forall i | 0 <= i < s'.taken && i < |s'.client.sent| && s'.client.sent[i].Request?
      ensures IsServed(s', s'.client.sent[i].id) <==> Heeded(s'.client.sent, i)
    {
      ServedOfPost(s, a, i);
    }
    if !s'.server.settled {
      AnsweredStep(s, a);
    }
  }

  /** The methods asked for in a run, in order. */
  function AskedBy(acts: seq<Act>): seq<string> {
    if acts == [] then [] else (if acts[0].Ask? then [acts[0].name] else []) + AskedBy(acts[1..])
  }

  lemma AskedStep(s: Session, a: Act)
    requires Allowed(s, a)
    ensures Asked(Perform(s, a).client.sent) == Asked(s.client.sent) + (if a.Ask? then [a.name] else [])
  {
    ClientPostsStep(s, a);
    var more := ClientPosts(s, a);
    if more == [] {
      assert s.client.sent + more == s.client.sent;
    } else {
      assert more == [more[0]];
      AskedSnoc(s.client.sent, more[0]);
    }
  }

  ghost predicate EndsInv(s: Session, done: seq<Act>) {
    SessionInv(s) && ServerEndOk(s) && ClientEndOk(s, done) && ServedOk(s)
  }

  lemma EndsStep(s: Session, done: seq<Act>, a: Act)
    requires EndsInv(s, done) && Allowed(s, a)
    ensures EndsInv(Perform(s, a), done + [a])
  {
    hide Perform, SessionInv, ServerEndOk, ClientEndOk, ServedOk;
    SessionStep(s, a);
    ServerEndStep(s, a);
    ClientEndStep(s, done, a);
    ServedOkStep(s, a);
  }

  lemma {:induction false} EndsRun(s: Session, done: seq<Act>, acts: seq<Act>)
    requires EndsInv(s, done) && Exec(s, acts).Some?
    ensures EndsInv(Exec(s, acts).value, done + acts)
    decreases |acts|
  {
    hide Perform, Allowed, EndsInv;
    if acts == [] {
      assert done + acts == done;
    } else {
      EndsStep(s, done, acts[0]);
      EndsRun(Perform(s, acts[0]), done + [acts[0]], acts[1..]);
      assert done + [acts[0]] + acts[1..] == done + acts;
    }
  }

  lemma {:induction false} AskedRun(s: Session, acts: seq<Act>)
    requires Exec(s, acts).Some?
    ensures Asked(Exec(s, acts).value.client.sent) == Asked(s.client.sent) + AskedBy(acts)
    decreases |acts|
  {
    if acts != [] {
      hide Perform;
      AskedStep(s, acts[0]);
      AskedRun(Perform(s, acts[0]), acts[1..]);
      var before, first := Asked(s.client.sent), if acts[0].Ask? then [acts[0].name] else [];
      assert (before + first) + AskedBy(acts[1..]) == before + (first + AskedBy(acts[1..]));
    }
  }

  lemma EndsAtStart()
    ensures EndsInv(NEW_SESSION, [])
  {
  }

  /** Over every run: the client's session has ended iff the client was closed or has taken a
    * shutdown or a frame that is none; the server's iff the channel was cut or the server has taken a
    * goodbye or a breach. Either side is ready iff it has taken the other's hello, the server only if
    * it was still listening. The server's session has ended cleanly iff no breach was posted. */
  lemma SessionsEndExactlyWhen(acts: seq<Act>)
    requires Exec(NEW_SESSION, acts).Some?
    ensures
      var s := Exec(NEW_SESSION, acts).value;
      && s.taken <= |s.client.sent| && s.received <= |s.server.out|
      && (s.client.settled <==>
            Closes in acts || exists i :: 0 <= i < s.received && EndsClient(s.server.out[i]))
      && (s.client.ready <==> exists i :: 0 <= i < s.received && s.server.out[i].ServerReady?)
      && (s.server.settled <==>
            Cut in acts || exists i :: 0 <= i < s.taken && EndsServer(s.client.sent, i))
      && (s.server.ready <==> exists i ::
            && 0 <= i < s.taken && s.client.sent[i].ClientReady?
            && forall j :: 0 <= j <= i ==> !EndsServer(s.client.sent, j))
      && (s.server.settled ==> (s.server.clean <==> ServerShutdown(true) !in s.server.out))
  {
    hide Exec;
    EndsAtStart();
    EndsRun(NEW_SESSION, [], acts);
    assert [] + acts == acts;
    var s := Exec(NEW_SESSION, acts).value;
    forall i | 0 <= i < s.taken
      ensures Heeded(s.client.sent, i) <==> forall j :: 0 <= j <= i ==> !EndsServer(s.client.sent, j)
    {
    }
  }

  /** Over every run: the requests on the channel are those asked for, in order; one that the server
    * has taken is or was dispatched iff neither it nor anything before it has ended the server's
    * session; and while that lasts every dispatch that is over has been answered with its outcome. */
  lemma RequestsAreServedExactlyWhen(acts: seq<Act>)
    requires Exec(NEW_SESSION, acts).Some?
    ensures
      var s := Exec(NEW_SESSION, acts).value;
      && Asked(s.client.sent) == AskedBy(acts)
      && (forall i :: 0 <= i < s.taken && i < |s.client.sent| && s.client.sent[i].Request? ==>
            (IsServed(s, s.client.sent[i].id) <==> !ServerEndedBy(s.client.sent, i + 1)))
      && (!s.server.settled ==> forall k :: k in s.results ==> Reply(k, s.results[k]) in s.server.out)
  {
    hide Exec, SessionInv, ServerEndOk;
    EndsAtStart();
    EndsRun(NEW_SESSION, [], acts);
    AskedRun(NEW_SESSION, acts);
  }

  /** What a step posts to the client, told by what both sides have done before. */
  ghost predicate PostsAreRight(s: Session, a: Act, posted: seq<ToClient>)
    requires Allowed(s, a)
  {
    match a
    case ServerTakes =>
      if s.server.settled then posted == []
      else if EndsServer(s.client.sent, s.taken) then
        posted == if s.client.sent[s.taken].ClientShutdown? then [] else [ServerShutdown(true)]
      else posted == if s.client.sent[s.taken].ClientReady? then [ServerReady] else []
    case ServerEnds(n, o) => posted == if s.server.settled then [] else [Reply(s.server.serving[n].0, o)]
    case ServerPosts(family, payload) =>
      posted == if !s.server.settled && Hailed(s.client.sent, s.taken) then [Event(family, payload)] else []
    case _ => posted == []
  }

  /** In every reachable session: a pending promise settles at a step iff its reply is taken, its time
    * runs out, or the step ends the client's session, which rejects all that are pending; and what
    * the server posts at the step is what `PostsAreRight` tells. */
  lemma StepSettlesExactlyWhen(acts: seq<Act>, a: Act, k: nat)
    requires Exec(NEW_SESSION, acts).Some? && Allowed(Exec(NEW_SESSION, acts).value, a)
    ensures
      var s := Exec(NEW_SESSION, acts).value;
      var c := Perform(s, a).client;
      var f := if a.ClientTakes? then s.server.out[s.received] else Event("", "");
      var ends := !s.client.settled && (a.Closes? || EndsClient(f));
      && s.server.out <= Perform(s, a).server.out
      && PostsAreRight(s, a, Perform(s, a).server.out[|s.server.out|..])
      && (k in s.client.pending ==>
            && (k in c.fates <==> ends || a == Expires(k) || (f.Reply? && f.id == k))
            && (k in c.pending <==> k !in c.fates)
            && (ends ==> c.fates[k] == PortGone)
            && (a == Expires(k) ==> c.fates[k] == TimedOut)
            && (f.Reply? && f.id == k ==>
                  c.fates[k] == if f.outcome.Ok? then Resolved(f.outcome.value) else Rejected(f.outcome.message)))
  {
    hide Exec;
    EndsAtStart();
    EndsRun(NEW_SESSION, [], acts);
    var s := Exec(NEW_SESSION, acts).value;
    PostsRight(s, a);
    if k in s.client.pending {
      PromiseStep(s, a, k);
    }
  }

  lemma PostsRight(s: Session, a: Act)
    requires SessionInv(s) && ServerEndOk(s) && Allowed(s, a)
    ensures s.server.out <= Perform(s, a).server.out
    ensures PostsAreRight(s, a, Perform(s, a).server.out[|s.server.out|..])
  {
    if !s.server.settled {
      ListeningIsHailed(s);
    }
  }

  lemma PromiseStep(s: Session, a: Act, k: nat)
    requires PendingOk(s.client) && Allowed(s, a) && k in s.client.pending
    ensures
      var c := Perform(s, a).client;
      var f := if a.ClientTakes? then s.server.out[s.received] else Event("", "");
      var ends := !s.client.settled && (a.Closes? || EndsClient(f));
      && (k in c.fates <==> ends || a == Expires(k) || (f.Reply? && f.id == k))
      && (k in c.pending <==> k !in c.fates)
      && (ends ==> c.fates[k] == PortGone)
      && (a == Expires(k) ==> c.fates[k] == TimedOut)
      && (f.Reply? && f.id == k ==>
            c.fates[k] == if f.outcome.Ok? then Resolved(f.outcome.value) else Rejected(f.outcome.message))
  {
  }

  /** A request before the hello ends both sides, and its promise is rejected. */
  lemma AnEarlyRequestEndsBoth(name: string)
    ensures
      var acts := [Ask(name), ServerTakes, ClientTakes];
      && Exec(NEW_SESSION, acts).Some?
      && var s := Exec(NEW_SESSION, acts).value;
         s.client.settled && s.server.settled && !s.server.clean && s.client.fates == map[1 := PortGone]
  {
    var s1 := Perform(NEW_SESSION, Ask(name));
    assert s1.client.sent == [Request(1, name)] && s1.client.pending == {1};
    var s2 := Perform(s1, ServerTakes);
    assert s2.server.out == [ServerShutdown(true)];
    var s3 := Perform(s2, ClientTakes);
    assert Exec(s2, [ClientTakes]) == Exec(s3, []);
    assert Exec(s1, [ServerTakes, ClientTakes]) == Exec(s2, [ClientTakes]);
  }

  /** The hello and a request have been taken. */
  function Asking(name: string): Session {
    NEW_SESSION.(client := NEW_CLIENT.(next := 1, pending := {1}, sent := [ClientReady, Request(1, name)]),
                 server := Server(false, false, true, [(1, name)], [ServerReady]), taken := 2)
  }

  lemma AskingIsReached(name: string)
    ensures Exec(NEW_SESSION, [Hello, ServerTakes, Ask(name), ServerTakes]) == Some(Asking(name))
  {
    var s1 := NEW_SESSION.(client := NEW_CLIENT.(sent := [ClientReady]));
    var s2 := s1.(server := NEW_SERVER.(ready := true, out := [ServerReady]), taken := 1);
    var s3 := s2.(client := Asking(name).client);
    assert Perform(NEW_SESSION, Hello) == s1 && Perform(s1, ServerTakes) == s2 && Perform(s2, Ask(name)) == s3;
    assert Perform(s3, ServerTakes) == Asking(name);
    assert Exec(s3, [ServerTakes]) == Exec(Asking(name), []);
    assert Exec(s2, [Ask(name), ServerTakes]) == Exec(s3, [ServerTakes]);
    assert Exec(s1, [ServerTakes, Ask(name), ServerTakes]) == Exec(s2, [Ask(name), ServerTakes]);
  }

  lemma AskingIsAnswered(name: string, value: string)
    ensures
      var r := Exec(Asking(name), [ServerEnds(0, Ok(value)), ClientTakes, ClientTakes]);
      r.Some? && r.value.client.fates == map[1 := Resolved(value)]
  {
    var s0 := Asking(name);
    var server := Server(false, false, true, [], [ServerReady, Reply(1, Ok(value))]);
    var s1 := s0.(server := server, results := map[1 := Ok(value)]);
    var s2 := s1.(client := s0.client.(ready := true), received := 1);
    assert Perform(s0, ServerEnds(0, Ok(value))) == s1 && Perform(s1, ClientTakes) == s2;
    assert Exec(s2, [ClientTakes]) == Exec(Perform(s2, ClientTakes), []);
    assert Exec(s1, [ClientTakes, ClientTakes]) == Exec(s2, [ClientTakes]);
  }

  lemma {:induction false} ExecConcat(s: Session, a: seq<Act>, b: seq<Act>)
    requires Exec(s, a).Some?
    ensures Exec(s, a + b) == Exec(Exec(s, a).value, b)
    decreases |a|
  {
    if a == [] {
      assert a + b == b;
    } else {
      assert (a + b)[1..] == a[1..] + b;
      ExecConcat(Perform(s, a[0]), a[1..], b);
    }
  }

  /** A request after the hello is dispatched, and its promise gets the outcome. */
  lemma ARequestIsAnswered(name: string, value: string)
    ensures
      var acts := [Hello, ServerTakes, Ask(name), ServerTakes] + [ServerEnds(0, Ok(value)), ClientTakes, ClientTakes];
      Exec(NEW_SESSION, acts).Some? && Exec(NEW_SESSION, acts).value.client.fates == map[1 := Resolved(value)]
  {
    hide Exec, Asking;
    var asked := [Hello, ServerTakes, Ask(name), ServerTakes];
    AskingIsReached(name);
    AskingIsAnswered(name, value);
    ExecConcat(NEW_SESSION, asked, [ServerEnds(0, Ok(value)), ClientTakes, ClientTakes]);
  }
}
