/** The shared terminal: its 64 KiB replay buffer, its viewers' bounded queues and its input
  * buffer.
  *
  * The terminal's output arrives as text, already decoded. Each step below runs between two
  * suspension points of the event loop.
  */
module Terminal {
  import opened Prelude
  import opened Utf8

  const MAX_INPUT: nat := 16384
  const MAX_REPLAY: nat := 65536
  const MAX_PENDING: nat := 131072
  const MAX_QUEUE: nat := 32
  const MAX_VIEWERS: nat := 4

  // ---------------------------------------------------------------- replay

  function Bytes(s: string): nat {
    |Encode(s)|
  }

  /** The text of the last 64 KiB, without the character the cut may have gone through. */
  function Tail(s: string): string {
    var bs := Encode(s);
    DecodeIgnoring(if |bs| > MAX_REPLAY then bs[|bs| - MAX_REPLAY..] else bs)
  }

  /** `t` is the longest suffix of `s` that takes at most 64 KiB. */
  ghost predicate IsLongestTail(s: string, t: string) {
    && |t| <= |s| && t == s[|s| - |t|..]
    && Bytes(t) <= MAX_REPLAY
    && forall j :: 0 <= j <= |s| && Bytes(s[j..]) <= MAX_REPLAY ==> |s| - |t| <= j
  }

  lemma {:induction false} ShorterSuffixIsSmaller(s: string, i: nat, j: nat)
    requires i <= j <= |s|
    ensures Bytes(s[j..]) <= Bytes(s[i..])
  {
    assert s[i..] == s[i..j] + s[j..];
    EncodeConcat(s[i..j], s[j..]);
  }

  /** A suffix that fits is the longest if one more character does not. */
  lemma LongestIf(s: string, i: nat)
    requires i <= |s| && Bytes(s[i..]) <= MAX_REPLAY
    requires i > 0 ==> Bytes(s[i - 1..]) > MAX_REPLAY
    ensures IsLongestTail(s, s[i..])
  {
    forall j | 0 <= j <= |s| && Bytes(s[j..]) <= MAX_REPLAY
      ensures i <= j
    {
      if j < i {
        ShorterSuffixIsSmaller(s, j, i - 1);
      }
    }
  }

  /** The buffer is a true suffix, cut between characters, and no longer one would fit. */
  lemma TailIsLongest(s: string)
    ensures IsLongestTail(s, Tail(s))
  {
    hide DecodeIgnoring, Encode;
    var bs := Encode(s);
    if |bs| > MAX_REPLAY {
      var i := DecodeFrom(s, |bs| - MAX_REPLAY);
      LongestIf(s, i);
    } else {
      DecodeEncoded(s);
      assert s[0..] == s;
      LongestIf(s, 0);
    }
  }

  lemma LongerSuffixDoesNotFit(s: string, more: string, t: string, u: string, j: nat)
    requires IsLongestTail(s, t) && IsLongestTail(t + more, u)
    requires j <= |s| + |more| && Bytes((s + more)[j..]) <= MAX_REPLAY
    ensures |s| + |more| - |u| <= j
  {
    hide Encode, Tail;
    var d := |s| - |t|;
    if j < d {
      assert (s + more)[j..] == s[j..] + more;
      EncodeConcat(s[j..], more);
    } else {
      assert (s + more)[j..] == (t + more)[j - d..];
    }
  }

  lemma TailOfTail(s: string, more: string, t: string, u: string)
    requires IsLongestTail(s, t) && IsLongestTail(t + more, u)
    ensures IsLongestTail(s + more, u)
  {
    hide Encode, Tail;
    var n, d := |s| + |more|, |s| - |t|;
    var i := n - |u|;
    assert (s + more)[i..] == (t + more)[i - d..];
    if i > 0 && Bytes((s + more)[i - 1..]) <= MAX_REPLAY {
      LongerSuffixDoesNotFit(s, more, t, u, i - 1);
      assert false;
    }
    LongestIf(s + more, i);
  }

  /** Cutting as the output arrives is cutting once at the end. */
  lemma TailIsIncremental(s: string, more: string)
    ensures Tail(Tail(s) + more) == Tail(s + more)
  {
    hide Encode, Tail;
    TailIsLongest(s);
    TailIsLongest(Tail(s) + more);
    TailIsLongest(s + more);
    TailOfTail(s, more, Tail(s), Tail(Tail(s) + more));
  }

  // ---------------------------------------------------------------- events

  datatype Event = Ready | Output(data: string) | Exit(code: int)

  /** Bytes a character takes inside a JSON string that keeps non-ASCII characters. */
  function JsonChar(c: char): nat {
    if c == '"' || c == '\\' || 8 <= c as int <= 10 || 12 <= c as int <= 13 then 2
    else if (c as int) < 32 then 6
    else |EncodeChar(c)|
  }

  function JsonText(s: string): nat {
    if s == "" then 0 else JsonText(Front(s)) + JsonChar(Last(s))
  }

  function Digits(n: int): nat
    decreases if n < 0 then 1 - n else n
  {
    if n < 0 then 1 + Digits(-n) else if n < 10 then 1 else 1 + Digits(n / 10)
  }

  /** The size of an event as compact UTF-8 JSON with a space after each separator. */
  function Size(e: Event): nat {
    match e
    case Ready => 17
    case Output(data) => 30 + JsonText(data)
    case Exit(code) => 26 + Digits(code)
  }

  function Text(es: seq<Event>): string {
    if es == [] then ""
    else
      var t := Text(Front(es));
      match Last(es) case Output(data) => t + data case _ => t
  }

  function Sum(es: seq<Event>): nat {
    if es == [] then 0 else Sum(Front(es)) + Size(Last(es))
  }

  lemma {:induction false} SumHead(es: seq<Event>)
    requires es != []
    ensures Sum(es) == Size(es[0]) + Sum(es[1..])
    decreases |es|
  {
    if |es| == 1 {
      assert Front(es) == [] == es[1..];
    } else {
      SumHead(Front(es));
      assert Front(es)[1..] == Front(es[1..]);
    }
  }

  // ---------------------------------------------------------------- viewers

  /** `taken` is what the sending loop has removed from the queue so far. */
  datatype Viewer = Viewer(queue: seq<Event>, pending: int, closed: bool, taken: seq<Event>)

  const NEW_VIEWER := Viewer([], 0, false, [])

  function Offer(v: Viewer, e: Event): Viewer {
    if v.closed then v
    else if |v.queue| >= MAX_QUEUE || v.pending + Size(e) > MAX_PENDING then v.(closed := true)
    else v.(queue := v.queue + [e], pending := v.pending + Size(e))
  }

  function Taken(v: Viewer): Viewer
    requires v.queue != []
  {
    v.(queue := v.queue[1..], pending := v.pending - Size(v.queue[0]), taken := v.taken + [v.queue[0]])
  }

  function Seen(v: Viewer): seq<Event> {
    v.taken + v.queue
  }

  predicate ViewerOk(v: Viewer) {
    v.pending == Sum(v.queue) && v.pending <= MAX_PENDING && |v.queue| <= MAX_QUEUE
  }

  lemma OfferKeeps(v: Viewer, e: Event)
    requires ViewerOk(v)
    ensures ViewerOk(Offer(v, e))
    ensures !Offer(v, e).closed ==> Seen(Offer(v, e)) == Seen(v) + [e]
    ensures Offer(v, e).closed ==> Seen(Offer(v, e)) == Seen(v)
  {
    assert Front(v.queue + [e]) == v.queue;
    assert v.taken + (v.queue + [e]) == v.taken + v.queue + [e];
  }

  lemma TakenKeeps(v: Viewer)
    requires ViewerOk(v) && v.queue != []
    ensures ViewerOk(Taken(v)) && Seen(Taken(v)) == Seen(v)
  {
    SumHead(v.queue);
  }

  // ---------------------------------------------------------------- the machine

  /** `all` is the whole output so far, `joined[i]` its length when viewer `i` attached. */
  datatype State = State(replay: string, code: Option<int>, viewers: seq<Viewer>, all: string, joined: seq<nat>)

  const INITIAL := State("", None, [], "", [])

  datatype Act = Emit(data: string) | Attach | Send(viewer: nat) | Stop(viewer: nat) | Quit(status: int)

  function OfferAll(vs: seq<Viewer>, e: Event): seq<Viewer> {
    seq(|vs|, i requires 0 <= i < |vs| => Offer(vs[i], e))
  }

  function Watching(vs: seq<Viewer>): nat {
    if vs == [] then 0 else Watching(Front(vs)) + if Last(vs).closed then 0 else 1
  }

  function Greeted(replay: string, code: Option<int>): Viewer {
    var v := Offer(NEW_VIEWER, Ready);
    var w := if replay == "" then v else Offer(v, Output(replay));
    match code case None => w case Some(n) => Offer(w, Exit(n))
  }

  predicate Enabled(s: State, a: Act) {
    match a
    case Emit(_) => s.code.None?
    case Attach => true
    case Send(i) => i < |s.viewers| && !s.viewers[i].closed && s.viewers[i].queue != []
    case Stop(i) => i < |s.viewers|
    case Quit(_) => s.code.None?
  }

  function Next(s: State, a: Act): State
    requires Enabled(s, a)
  {
    match a
    case Emit(data) =>
      if data == "" then s
      else s.(replay := Tail(s.replay + data), viewers := OfferAll(s.viewers, Output(data)), all := s.all + data)
    case Attach =>
      if Watching(s.viewers) >= MAX_VIEWERS then s
      else s.(viewers := s.viewers + [Greeted(s.replay, s.code)], joined := s.joined + [|s.all|])
    case Send(i) => s.(viewers := s.viewers[i := Taken(s.viewers[i])])
    case Stop(i) => s.(viewers := s.viewers[i := s.viewers[i].(closed := true)])
    case Quit(n) => s.(code := Some(n), viewers := OfferAll(s.viewers, Exit(n)))
  }

  function Exec(s: State, acts: seq<Act>): State
    decreases |acts|
  {
    if acts == [] then s
    else Exec(if Enabled(s, acts[0]) then Next(s, acts[0]) else s, acts[1..])
  }

  /** What a viewer that joined when `at` characters were out is owed. */
  function Owed(all: string, at: nat): string
    requires at <= |all|
  {
    Tail(all[..at]) + all[at..]
  }

  ghost predicate ViewerInv(v: Viewer, all: string, at: nat, code: Option<int>) {
    && ViewerOk(v) && at <= |all|
    && (!v.closed ==> Seen(v) != [] && Seen(v)[0] == Ready && Text(Seen(v)) == Owed(all, at))
    && (!v.closed ==> forall n :: Exit(n) in Seen(v) <==> code == Some(n))
    && Text(Seen(v)) <= Owed(all, at)
  }

  ghost predicate Inv(s: State) {
    && s.replay == Tail(s.all)
    && |s.joined| == |s.viewers| && Watching(s.viewers) <= MAX_VIEWERS
    && forall i :: 0 <= i < |s.viewers| ==> ViewerInv(s.viewers[i], s.all, s.joined[i], s.code)
  }

  lemma TextPush(es: seq<Event>, e: Event)
    ensures Text(es + [e]) == if e.Output? then Text(es) + e.data else Text(es)
  {
    assert Front(es + [e]) == es;
  }

  lemma OwedGrows(all: string, data: string, at: nat)
    requires at <= |all|
    ensures Owed(all + data, at) == Owed(all, at) + data
  {
    assert (all + data)[..at] == all[..at];
    assert (all + data)[at..] == all[at..] + data;
  }

  lemma OfferOutput(v: Viewer, all: string, at: nat, data: string)
    requires ViewerInv(v, all, at, None)
    ensures ViewerInv(Offer(v, Output(data)), all + data, at, None)
  {
    OfferKeeps(v, Output(data));
    TextPush(Seen(v), Output(data));
    OwedGrows(all, data, at);
  }

  lemma OfferExit(v: Viewer, all: string, at: nat, n: int)
    requires ViewerInv(v, all, at, None)
    ensures ViewerInv(Offer(v, Exit(n)), all, at, Some(n))
  {
    OfferKeeps(v, Exit(n));
    TextPush(Seen(v), Exit(n));
    var w := Offer(v, Exit(n));
    if !w.closed {
      assert forall m :: Exit(m) in Seen(w) <==> Exit(m) in Seen(v) || m == n;
    }
  }

  /** A newcomer that has been offered nothing but the greeting, if it was not stopped by it. */
  ghost predicate OnlyGreeted(v: Viewer) {
    && ViewerOk(v) && Text(Seen(v)) == ""
    && (!v.closed ==> Seen(v) != [] && Seen(v)[0] == Ready && forall n :: Exit(n) !in Seen(v))
  }

  lemma ReadyGreets()
    ensures OnlyGreeted(Offer(NEW_VIEWER, Ready))
  {
    OfferKeeps(NEW_VIEWER, Ready);
    TextPush([], Ready);
    assert Seen(NEW_VIEWER) == [];
  }

  lemma ReplayIsOwed(v: Viewer, replay: string, all: string)
    requires OnlyGreeted(v) && Owed(all, |all|) == replay
    ensures replay == "" ==> ViewerInv(v, all, |all|, None)
    ensures ViewerInv(Offer(v, Output(replay)), all, |all|, None)
  {
    hide Owed, Tail, ViewerOk, Size, Text, Sum;
    OfferKeeps(v, Output(replay));
    TextPush(Seen(v), Output(replay));
    SeenAfter(v, Output(replay));
  }

  lemma SeenAfter(v: Viewer, e: Event)
    requires OnlyGreeted(v) && e.Output?
    ensures var w := Offer(v, e);
      && (w.closed ==> Text(Seen(w)) == "")
      && (!w.closed ==> Seen(w) != [] && Seen(w)[0] == Ready && forall n :: Exit(n) !in Seen(w))
  {
    hide ViewerOk, Text;
    OfferSees(v, e);
  }

  lemma OfferSees(v: Viewer, e: Event)
    ensures var w := Offer(v, e);
      (w.closed ==> Seen(w) == Seen(v)) && (!w.closed ==> !v.closed && Seen(w) == Seen(v) + [e])
  {
    assert v.taken + (v.queue + [e]) == v.taken + v.queue + [e];
  }

  lemma FirstOffers(replay: string, all: string)
    requires replay == Tail(all)
    ensures var v := Offer(NEW_VIEWER, Ready);
      ViewerInv(if replay == "" then v else Offer(v, Output(replay)), all, |all|, None)
  {
    assert all[..|all|] == all;
    assert Owed(all, |all|) == replay;
    hide Offer, OnlyGreeted, ViewerInv;
    ReadyGreets();
    ReplayIsOwed(Offer(NEW_VIEWER, Ready), replay, all);
  }

  lemma GreetedOk(s: State)
    requires Inv(s)
    ensures ViewerInv(Greeted(s.replay, s.code), s.all, |s.all|, s.code)
  {
    FirstOffers(s.replay, s.all);
    if s.code.Some? {
      var v := Offer(NEW_VIEWER, Ready);
      OfferExit(if s.replay == "" then v else Offer(v, Output(s.replay)), s.all, |s.all|, s.code.value);
    }
  }

  lemma {:induction false} WatchingFewer(vs: seq<Viewer>, ws: seq<Viewer>)
    requires |vs| == |ws| && forall i :: 0 <= i < |vs| && vs[i].closed ==> ws[i].closed
    ensures Watching(ws) <= Watching(vs)
    decreases |vs|
  {
    if vs != [] {
      WatchingFewer(Front(vs), Front(ws));
    }
  }

  lemma EmitKeeps(s: State, data: string)
    requires Inv(s) && s.code.None? && data != ""
    ensures Inv(Next(s, Emit(data)))
  {
    var t := Next(s, Emit(data));
    TailIsIncremental(s.all, data);
    forall i | 0 <= i < |s.viewers|
      ensures ViewerInv(t.viewers[i], t.all, t.joined[i], t.code)
    {
      OfferOutput(s.viewers[i], s.all, s.joined[i], data);
    }
    WatchingFewer(s.viewers, t.viewers);
  }

  lemma AttachKeeps(s: State)
    requires Inv(s)
    ensures Inv(Next(s, Attach))
  {
    hide Encode, DecodeIgnoring, JsonText, Greeted;
    GreetedOk(s);
    assert Front(s.viewers + [Greeted(s.replay, s.code)]) == s.viewers;
  }

  lemma QuitKeeps(s: State, n: int)
    requires Inv(s) && s.code.None?
    ensures Inv(Next(s, Quit(n)))
  {
    var t := Next(s, Quit(n));
    forall i | 0 <= i < |s.viewers|
      ensures ViewerInv(t.viewers[i], t.all, t.joined[i], t.code)
    {
      OfferExit(s.viewers[i], s.all, s.joined[i], n);
    }
    WatchingFewer(s.viewers, t.viewers);
  }

  lemma InvStep(s: State, a: Act)
    requires Inv(s) && Enabled(s, a)
    ensures Inv(Next(s, a))
  {
    hide Encode, DecodeIgnoring, JsonText, Greeted;
    match a
    case Emit(data) =>
      if data != "" {
        EmitKeeps(s, data);
      }
    case Attach => AttachKeeps(s);
    case Send(i) =>
      TakenKeeps(s.viewers[i]);
      WatchingFewer(s.viewers, Next(s, a).viewers);
    case Stop(i) => WatchingFewer(s.viewers, Next(s, a).viewers);
    case Quit(n) => QuitKeeps(s, n);
  }

  lemma {:induction false} InvRun(s: State, acts: seq<Act>)
    requires Inv(s)
    ensures Inv(Exec(s, acts))
    decreases |acts|
  {
    if acts != [] {
      if Enabled(s, acts[0]) {
        InvStep(s, acts[0]);
      }
      InvRun(if Enabled(s, acts[0]) then Next(s, acts[0]) else s, acts[1..]);
    }
  }

  /** After any run the replay buffer is the longest suffix of all output that fits 64 KiB. */
  lemma ReplayIsLongestTail(acts: seq<Act>)
    ensures var s := Exec(INITIAL, acts);
      && IsLongestTail(s.all, s.replay) && Bytes(s.replay) <= 65536
      && forall j :: 0 <= j <= |s.all| && Bytes(s.all[j..]) <= 65536 ==> |s.all| - |s.replay| <= j
  {
    InvRun(INITIAL, acts);
    TailIsLongest(Exec(INITIAL, acts).all);
  }

  /** The longest tail of what was out when viewer `at` joined, then everything later, gap-free. */
  ghost predicate GapFree(s: State, i: nat)
    requires i < |s.viewers| && |s.joined| == |s.viewers| && s.joined[i] <= |s.all|
  {
    exists t :: IsLongestTail(s.all[..s.joined[i]], t) && Text(Seen(s.viewers[i])) == t + s.all[s.joined[i]..]
  }

  /** After any run: a viewer that is still watching has been given the replay as it was when it
    * joined, then all later output, then the exit if there was one; a stopped viewer a prefix of
    * that. Its byte count is exactly the queued bytes and stays within bounds. */
  lemma ViewersMissNothing(acts: seq<Act>, i: nat)
    requires i < |Exec(INITIAL, acts).viewers|
    ensures var s := Exec(INITIAL, acts);
      && |s.joined| == |s.viewers| && s.joined[i] <= |s.all|
      && (!s.viewers[i].closed ==> GapFree(s, i))
      && (!s.viewers[i].closed ==> forall n :: Exit(n) in Seen(s.viewers[i]) <==> s.code == Some(n))
      && Text(Seen(s.viewers[i])) <= Owed(s.all, s.joined[i])
      && s.viewers[i].pending == Sum(s.viewers[i].queue) <= MAX_PENDING && |s.viewers[i].queue| <= MAX_QUEUE
      && Watching(s.viewers) <= MAX_VIEWERS
  {
    InvRun(INITIAL, acts);
    var s := Exec(INITIAL, acts);
    TailIsLongest(s.all[..s.joined[i]]);
  }

  /** All that is emitted up to the exit, and the exit's status. */
  function Emitted(acts: seq<Act>): string {
    if acts == [] || acts[0].Quit? then ""
    else (if acts[0].Emit? then acts[0].data else "") + Emitted(acts[1..])
  }

  function FirstQuit(acts: seq<Act>): Option<int> {
    if acts == [] then None else if acts[0].Quit? then Some(acts[0].status) else FirstQuit(acts[1..])
  }

  lemma OutputStep(s: State, a: Act)
    ensures var t := if Enabled(s, a) then Next(s, a) else s;
      && t.all == s.all + (if a.Emit? && s.code.None? then a.data else "")
      && t.code == if a.Quit? && s.code.None? then Some(a.status) else s.code
  {
    hide Tail, Offer, Greeted, Watching, Taken;
  }

  lemma {:induction false} OutputStays(s: State, acts: seq<Act>)
    requires s.code.Some?
    ensures Exec(s, acts).all == s.all && Exec(s, acts).code == s.code
    decreases |acts|
  {
    hide Next, Enabled;
    if acts != [] {
      OutputStep(s, acts[0]);
      OutputStays(if Enabled(s, acts[0]) then Next(s, acts[0]) else s, acts[1..]);
    }
  }

  lemma {:induction false} OutputIs(s: State, acts: seq<Act>)
    requires s.code.None?
    ensures Exec(s, acts).all == s.all + Emitted(acts) && Exec(s, acts).code == FirstQuit(acts)
    decreases |acts|
  {
    hide Next, Enabled;
    if acts != [] {
      var t := if Enabled(s, acts[0]) then Next(s, acts[0]) else s;
      OutputStep(s, acts[0]);
      if acts[0].Quit? {
        OutputStays(t, acts[1..]);
      } else {
        OutputIs(t, acts[1..]);
        Joined(s.all, if acts[0].Emit? then acts[0].data else "", Emitted(acts[1..]));
      }
    }
  }

  lemma Joined(a: string, b: string, c: string)
    ensures (a + b) + c == a + (b + c)
  {
  }

  /** Over every run the output is what was emitted up to the exit, and the exit is the first. */
  lemma OutputIsWhatWasEmitted(acts: seq<Act>)
    ensures var s := Exec(INITIAL, acts); s.all == Emitted(acts) && s.code == FirstQuit(acts)
  {
    OutputIs(INITIAL, acts);
  }

  /** What becomes of a viewer that is offered `e`. */
  ghost predicate TakesOffer(v: Viewer, e: Event, w: Viewer) {
    if v.closed then w == v
    else if |v.queue| == 32 || Sum(v.queue) + Size(e) > 131072 then
      w.closed && w.queue == v.queue && w.taken == v.taken
    else !w.closed && w.queue == v.queue + [e] && w.taken == v.taken
  }

  /** What a step does to viewer `i`: it is offered what is emitted and the exit, loses the oldest queued
    * event to its sending loop, or is stopped. */
  ghost predicate ViewerGoesOn(v: Viewer, a: Act, i: nat, w: Viewer) {
    match a
    case Emit(data) => if data == "" then w == v else TakesOffer(v, Output(data), w)
    case Quit(status) => TakesOffer(v, Exit(status), w)
    case Send(k) =>
      if k != i then w == v
      else v.queue != [] && w.queue == v.queue[1..] && w.taken == v.taken + [v.queue[0]] && w.closed == v.closed
    case Stop(k) => if k != i then w == v else w.closed && w.queue == v.queue && w.taken == v.taken
    case Attach => w == v
  }

  /** What each step of a run does: every viewer goes on as `ViewerGoesOn` has it, and an attach brings
    * one more, greeted, iff fewer than four are watching. */
  lemma ViewersGoOn(acts: seq<Act>, a: Act, i: nat)
    requires Enabled(Exec(INITIAL, acts), a)
    ensures
      var s := Exec(INITIAL, acts);
      var t := Next(s, a);
      && |t.viewers| == |s.viewers| + (if a.Attach? && Watching(s.viewers) < 4 then 1 else 0)
      && (i < |s.viewers| ==> ViewerGoesOn(s.viewers[i], a, i, t.viewers[i]))
      && (|s.viewers| < |t.viewers| ==>
            Last(t.viewers) == Greeted(s.replay, s.code) && Last(t.joined) == |s.all|)
  {
    InvRun(INITIAL, acts);
    hide Exec, Encode, JsonText, Tail, Greeted, Owed;
    var s := Exec(INITIAL, acts);
    if i < |s.viewers| {
      assert ViewerInv(s.viewers[i], s.all, s.joined[i], s.code);
    }
  }

  // The sizes that are counted are those of the JSON text.

  function Hex(n: int): char
    requires 0 <= n < 16
  {
    "0123456789abcdef"[n]
  }

  /** A character inside a JSON string: two-character escapes where there are any, `\u00xx` for other
    * control characters, everything else as it is. */
  function Escaped(c: char): string {
    if c == '"' then "\\\""
    else if c == '\\' then "\\\\"
    else if c as int == 8 then "\\b"
    else if c as int == 9 then "\\t"
    else if c as int == 10 then "\\n"
    else if c as int == 12 then "\\f"
    else if c as int == 13 then "\\r"
    else if c as int < 32 then "\\u00" + [Hex(c as int / 16), Hex(c as int % 16)]
    else [c]
  }

  function EscapedText(s: string): string {
    if s == "" then "" else EscapedText(Front(s)) + Escaped(Last(s))
  }

  function Numeral(n: int): string
    decreases if n < 0 then 1 - n else n
  {
    if n < 0 then "-" + Numeral(-n)
    else if n < 10 then [Hex(n)]
    else Numeral(n / 10) + [Hex(n % 10)]
  }

  /** An event as it is sent. */
  function Json(e: Event): string {
    match e
    case Ready => "{\"type\": \"ready\"}"
    case Output(data) => "{\"type\": \"output\", \"data\": \"" + EscapedText(data) + "\"}"
    case Exit(code) => "{\"type\": \"exit\", \"code\": " + Numeral(code) + "}"
  }

  predicate IsAscii(s: string) {
    forall i :: 0 <= i < |s| ==> s[i] as int < 128
  }

  lemma {:induction false} AsciiBytes(s: string)
    requires IsAscii(s)
    ensures Bytes(s) == |s|
    decreases |s|
  {
    if s != "" {
      AsciiBytes(s[1..]);
    }
  }

  lemma EscapedBytes(c: char)
    ensures Bytes(Escaped(c)) == JsonChar(c)
  {
    if Escaped(c) == [c] {
      assert [c][1..] == "";
      assert Encode([c]) == EncodeChar(c) + Encode([c][1..]);
    } else {
      AsciiBytes(Escaped(c));
    }
  }

  lemma {:induction false} EscapedTextBytes(s: string)
    ensures Bytes(EscapedText(s)) == JsonText(s)
    decreases |s|
  {
    if s != "" {
      EscapedTextBytes(Front(s));
      EscapedBytes(Last(s));
      EncodeConcat(EscapedText(Front(s)), Escaped(Last(s)));
    }
  }

  lemma HexIsAscii()
    ensures forall n :: 0 <= n < 16 ==> IsAscii([Hex(n)])
  {
  }

  lemma {:induction false} NumeralBytes(n: int)
    ensures IsAscii(Numeral(n)) && |Numeral(n)| == Digits(n)
    decreases if n < 0 then 1 - n else n
  {
    hide Hex;
    HexIsAscii();
    if n < 0 {
      NumeralBytes(-n);
    } else if n >= 10 {
      NumeralBytes(n / 10);
    }
  }

  /** What is counted of an event against a viewer's bound is the size of its JSON text in UTF-8. */
  lemma SizeIsJsonBytes(e: Event)
    ensures Size(e) == Bytes(Json(e))
  {
    hide Encode, EscapedText, Numeral, JsonText, Digits;
    match e
    case Ready => AsciiBytes(Json(e));
    case Output(data) =>
      var before, after := "{\"type\": \"output\", \"data\": \"", "\"}";
      AsciiBytes(before);
      AsciiBytes(after);
      EscapedTextBytes(data);
      EncodeConcat(before, EscapedText(data));
      EncodeConcat(before + EscapedText(data), after);
    case Exit(code) =>
      NumeralBytes(code);
      AsciiBytes(Json(e));
  }

  /** What attaching queues, in bytes. */
  function GreetingSize(replay: string, code: Option<int>): nat {
    var output := if replay == "" then 0 else Size(Output(replay));
    var exit := if code.Some? then Size(Exit(code.value)) else 0;
    Size(Ready) + output + exit
  }

  /** A newcomer is stopped by what attaching itself queues exactly when that is too much in its JSON
    * form, whether the terminal has printed anything and whether its process has ended or not. */
  lemma NewcomerStaysExactlyWhen(replay: string, code: Option<int>)
    ensures Greeted(replay, code).closed <==> GreetingSize(replay, code) > MAX_PENDING
  {
    var v := Offer(NEW_VIEWER, Ready);
    assert v.pending == 17 && |v.queue| == 1;
  }

  /** The replay of a terminal that printed only `n` six-byte control characters. */
  lemma {:induction false} ControlText(n: nat) returns (s: string)
    ensures |s| == n && JsonText(s) == 6 * n && Bytes(s) == n
  {
    if n == 0 {
      s := "";
    } else {
      var c := 27 as char;
      var t := ControlText(n - 1);
      s := t + [c];
      assert Front(s) == t;
      EncodeConcat(t, [c]);
      assert Encode([c]) == EncodeChar(c) + Encode([c][1..]);
      assert [c][1..] == "";
    }
  }

  lemma WholeFits(s: string)
    requires Bytes(s) <= MAX_REPLAY
    ensures Tail(s) == s
  {
    TailIsLongest(s);
    assert s[0..] == s;
  }

  /** The first output of a terminal nobody watches. */
  lemma EmitUnwatched(s: State, data: string)
    requires s.viewers == [] && s.code.None? && data != "" && Bytes(s.replay + data) <= MAX_REPLAY
    ensures Next(s, Emit(data)) == s.(replay := s.replay + data, all := s.all + data)
  {
    WholeFits(s.replay + data);
    assert OfferAll([], Output(data)) == [];
  }

  lemma TurnedAway(s: State)
    requires s.viewers == [] && GreetingSize(s.replay, s.code) > MAX_PENDING
    ensures var t := Next(s, Attach); |t.viewers| == 1 && t.viewers[0].closed && t.all == s.all
  {
    NewcomerStaysExactlyWhen(s.replay, s.code);
  }

  lemma ThreeActs(s: State, a: Act, b: Act, c: Act)
    requires Enabled(s, a) && Enabled(Next(s, a), b) && Enabled(Next(Next(s, a), b), c)
    ensures Exec(s, [a, b] + [c]) == Next(Next(Next(s, a), b), c)
  {
    hide Next, Enabled;
    assert [a, b] + [c] == [a, b, c];
    assert [a, b, c][1..] == [b, c] && [b, c][1..] == [c] && [c][1..] == [];
    var s1 := Next(s, a);
    var s2 := Next(s1, b);
    assert Exec(s2, [c]) == Exec(Next(s2, c), []);
    assert Exec(s1, [b, c]) == Exec(s2, [c]);
  }

  /** The replay is bounded as UTF-8 and the queue as JSON: output within both the replay's bound
    * and a single event's can make every later viewer be stopped before it has seen anything. */
  lemma ReplayCanTurnEveryoneAway() returns (acts: seq<Act>)
    ensures var s := Exec(INITIAL, acts + [Attach]);
      |s.viewers| == 1 && s.viewers[0].closed && Bytes(s.all) < MAX_REPLAY
    ensures forall a :: a in acts ==> a.Emit? && Size(Output(a.data)) <= MAX_PENDING
  {
    hide Encode, JsonText, Tail, Greeted;
    var n := 20000;
    var a := ControlText(n);
    var b := ControlText(n);
    EncodeConcat(a, b);
    JsonConcat(a, b);
    assert "" + a == a;
    EmitUnwatched(INITIAL, a);
    var s1 := Next(INITIAL, Emit(a));
    EmitUnwatched(s1, b);
    TurnedAway(Next(s1, Emit(b)));
    acts := [Emit(a), Emit(b)];
    ThreeActs(INITIAL, Emit(a), Emit(b), Attach);
  }

  lemma {:induction false} JsonConcat(a: string, b: string)
    ensures JsonText(a + b) == JsonText(a) + JsonText(b)
    decreases |b|
  {
    if b == "" {
      assert a + b == a;
    } else {
      assert Front(a + b) == a + Front(b);
      JsonConcat(a, Front(b));
    }
  }

  // ---------------------------------------------------------------- the objects

  class TerminalClient {
    var queue: seq<(Event, nat)>
    var pending: int
    var closed: bool
    ghost var taken: seq<Event>

    ghost function View(): Viewer
      reads this
    {
      Viewer(Events(queue), pending, closed, taken)
    }

    /** Every queued event carries its own size. */
    ghost predicate Valid()
      reads this
    {
      forall i :: 0 <= i < |queue| ==> queue[i].1 == Size(queue[i].0)
    }

    constructor ()
      ensures Valid() && View() == NEW_VIEWER
    {
      queue, pending, closed, taken := [], 0, false, [];
    }

    method OfferEvent(e: Event)
      requires Valid()
      modifies this
      ensures Valid() && View() == Offer(old(View()), e)
    {
      if closed {
        return;
      }
      var size := Size(e);
      if |queue| >= MAX_QUEUE || pending + size > MAX_PENDING {
        closed := true;
        return;
      }
      pending := pending + size;
      queue := queue + [(e, size)];
    }

    /** One turn of the sending loop, up to handing the event to the socket. */
    method SendNext() returns (e: Event)
      requires Valid() && queue != []
      modifies this
      ensures Valid() && View() == Taken(old(View())) && e == old(View()).queue[0]
    {
      var size := queue[0].1;
      e := queue[0].0;
      queue := queue[1..];
      pending := pending - size;
      taken := taken + [e];
    }
  }

  function Events(q: seq<(Event, nat)>): seq<Event> {
    seq(|q|, i requires 0 <= i < |q| => q[i].0)
  }

  /** The objects are the viewers of `s`, and those in `open` the ones still watching. */
  ghost predicate Matches(s: State, order: seq<TerminalClient>, open: set<TerminalClient>)
    reads order
  {
    && |order| == |s.viewers|
    && (forall i, j :: 0 <= i < j < |order| ==> order[i] != order[j])
    && (forall i :: 0 <= i < |order| ==> order[i].View() == s.viewers[i] && (order[i] in open <==> !order[i].closed))
    && (forall c :: c in open ==> c in order)
  }

  /** A set that holds exactly the elements of `order` whose viewers are open is as big as they are
    * many. */
  lemma {:induction false} OpenOnes<T>(order: seq<T>, open: set<T>, vs: seq<Viewer>)
    requires |order| == |vs| && forall i, j :: 0 <= i < j < |order| ==> order[i] != order[j]
    requires forall i :: 0 <= i < |order| ==> (order[i] in open <==> !vs[i].closed)
    requires forall c :: c in open ==> c in order
    ensures |open| == Watching(vs)
    decreases |order|
  {
    if order == [] {
      assert open == {};
    } else {
      var c, rest := Last(order), Front(order);
      assert order == rest + [c];
      var others := open - {c};
      forall o | o in others
        ensures o in rest
      {
        assert o in order;
      }
      OpenOnes(rest, others, Front(vs));
      SizeWithout(open, c);
    }
  }

  lemma SizeWithout<T>(s: set<T>, x: T)
    ensures |s - {x}| == |s| - if x in s then 1 else 0
  {
    if x !in s {
      assert s - {x} == s;
    }
  }

  class Terminal {
    var clients: set<TerminalClient>
    var replay: string
    var input: seq<byte>
    var code: Option<int>

    ghost predicate Valid()
      reads this, clients
    {
      && (forall c :: c in clients ==> c.Valid() && !c.closed)
      && |clients| <= MAX_VIEWERS && |input| <= MAX_REPLAY
    }

    /** The terminal is `s`: `order` holds the objects of its viewers, in the order in which they
      * attached, whether they are still watching or not. */
    ghost predicate Shows(s: State, order: seq<TerminalClient>)
      reads this, order
    {
      replay == s.replay && code == s.code && Matches(s, order, clients)
    }

    constructor ()
      ensures Valid() && clients == {} && replay == "" && input == [] && code == None
      ensures Shows(INITIAL, [])
    {
      clients, replay, input, code := {}, "", [], None;
    }

    /** Offers `e` to one viewer and forgets it if that stopped it. */
    method OfferTo(c: TerminalClient, e: Event)
      requires c in clients && c.Valid() && !c.closed
      modifies this`clients, c
      ensures c.Valid() && c.View() == Offer(old(c.View()), e)
      ensures clients == if c.closed then old(clients) - {c} else old(clients)
    {
      c.OfferEvent(e);
      if c.closed {
        clients := clients - {c};
      }
    }

    /** Offers `e` to every viewer and forgets those it stopped. */
    method Broadcast(e: Event)
      requires Valid()
      modifies this`clients, clients
      ensures Valid()
      ensures forall c :: c in old(clients) ==> c.View() == Offer(old(c.View()), e)
      ensures clients == set c | c in old(clients) && !c.closed
    {
      hide Offer, Encode, JsonText;
      var all := clients;
      var rest := all;
      while rest != {}
        invariant rest <= all && clients <= all
        invariant forall c :: c in all ==> c.Valid() && (c in clients <==> !c.closed)
        invariant forall c :: c in rest ==> c.View() == old(c.View()) && !c.closed
        invariant forall c :: c in all - rest ==> c.View() == Offer(old(c.View()), e)
        decreases rest
      {
        var c :| c in rest;
        OfferTo(c, e);
        rest := rest - {c};
      }
      Smaller(clients, all);
    }

    /** The machine's `Emit`. */
    method EmitText(data: string, ghost s: State, ghost order: seq<TerminalClient>)
      requires Valid()
      modifies this`clients, this`replay, clients
      ensures Valid()
      ensures data == "" ==> replay == old(replay) && clients == old(clients)
      ensures data == "" ==> forall c :: c in clients ==> c.View() == old(c.View())
      ensures data != "" ==> replay == Tail(old(replay) + data)
      ensures data != "" ==> forall c :: c in old(clients) ==> c.View() == Offer(old(c.View()), Output(data))
      ensures clients == set c | c in old(clients) && !c.closed
      ensures old(Shows(s, order)) && Enabled(s, Emit(data)) ==> Shows(Next(s, Emit(data)), order)
    {
      if data == "" {
        return;
      }
      var bs := Encode(replay + data);
      replay := DecodeIgnoring(if |bs| > MAX_REPLAY then bs[|bs| - MAX_REPLAY..] else bs);
      Broadcast(Output(data));
    }

    /** A newcomer and what it is offered at once. */
    method Greet() returns (c: TerminalClient)
      ensures fresh(c) && c.Valid() && c.View() == Greeted(replay, code)
    {
      c := new TerminalClient();
      c.OfferEvent(Ready);
      if replay != "" {
        c.OfferEvent(Output(replay));
      }
      if code.Some? {
        c.OfferEvent(Exit(code.value));
      }
    }

    lemma AllCounted(s: State, order: seq<TerminalClient>)
      requires Shows(s, order)
      ensures |clients| == Watching(s.viewers)
      ensures |clients| >= MAX_VIEWERS ==> Next(s, Attach) == s
    {
      hide Offer, Greeted, Watching;
      assert forall i :: 0 <= i < |order| ==> order[i].View().closed == order[i].closed;
      OpenOnes(order, clients, s.viewers);
    }

    /** One more object is one more viewer; `was` are the objects that were watching before. */
    lemma OneMoreShown(s: State, order: seq<TerminalClient>, was: set<TerminalClient>, c: TerminalClient)
      requires replay == s.replay && code == s.code && Matches(s, order, was) && Watching(s.viewers) < MAX_VIEWERS
      requires c !in order && c.View() == Greeted(replay, code)
      requires clients == was + if c.closed then {} else {c}
      ensures Shows(Next(s, Attach), order + [c])
    {
      hide Offer, Greeted, Watching, Tail;
      var all := order + [c];
      forall i | 0 <= i < |all|
        ensures all[i].View() == Next(s, Attach).viewers[i] && (all[i] in clients <==> !all[i].closed)
      {
        if i < |order| {
          assert order[i].View().closed == order[i].closed;
        }
      }
    }

    /** A newcomer, unless there are four already. It is the machine's `Attach`. */
    method AttachViewer(ghost s: State, ghost order: seq<TerminalClient>) returns (client: Option<TerminalClient>)
      requires Valid()
      modifies this`clients
      ensures Valid()
      ensures client.None? <==> |old(clients)| >= MAX_VIEWERS
      ensures client.None? ==> clients == old(clients)
      ensures client.Some? ==> fresh(client.value) && client.value.View() == Greeted(replay, code)
      ensures client.Some? ==> clients == old(clients) + if client.value.closed then {} else {client.value}
      ensures old(Shows(s, order)) ==>
        Shows(Next(s, Attach), if client.Some? then order + [client.value] else order)
    {
      ghost var shown := Shows(s, order);
      if shown {
        AllCounted(s, order);
      }
      client := Admit();
      if shown && client.Some? {
        OneMoreShown(s, order, old(clients), client.value);
      }
    }

    method Admit() returns (client: Option<TerminalClient>)
      requires Valid()
      modifies this`clients
      ensures Valid()
      ensures client.None? <==> |old(clients)| >= MAX_VIEWERS
      ensures client.None? ==> clients == old(clients)
      ensures client.Some? ==> fresh(client.value) && client.value.View() == Greeted(replay, code)
      ensures client.Some? ==> clients == old(clients) + if client.value.closed then {} else {client.value}
    {
      if |clients| >= MAX_VIEWERS {
        return None;
      }
      var c := Greet();
      client := Some(c);
      if !c.closed {
        clients := clients + {c};
      }
    }

    /** The machine's `Quit`. */
    method ProcessExits(status: int, ghost s: State, ghost order: seq<TerminalClient>)
      requires Valid() && code.None?
      modifies this`clients, this`code, clients
      ensures Valid() && code == Some(status)
      ensures forall c :: c in old(clients) ==> c.View() == Offer(old(c.View()), Exit(status))
      ensures clients == set c | c in old(clients) && !c.closed
      ensures old(Shows(s, order)) && Enabled(s, Quit(status)) ==> Shows(Next(s, Quit(status)), order)
    {
      code := Some(status);
      Broadcast(Exit(status));
    }

    /** Input is taken whole or refused whole. */
    method Feed(data: string, open: bool) returns (ok: bool)
      requires Valid()
      modifies this`input
      ensures Valid()
      ensures ok <==> Bytes(data) <= 16384 && |old(input)| + Bytes(data) <= 65536 && open && code.None?
      ensures input == if ok then old(input) + Encode(data) else old(input)
    {
      var encoded := Encode(data);
      if |encoded| > MAX_INPUT || |input| + |encoded| > MAX_REPLAY || !open || code.Some? {
        return false;
      }
      input := input + encoded;
      ok := true;
    }

    /** The descriptor took the first `n` bytes. */
    method Written(n: nat)
      requires Valid() && n <= |input|
      modifies this`input
      ensures Valid() && old(input) == old(input)[..n] + input
    {
      input := input[n..];
    }
  }

  lemma Smaller<T>(a: set<T>, b: set<T>)
    requires a <= b
    ensures |a| <= |b|
  {
    assert b == a + (b - a);
  }
}
