/** The bounded group conversation.
  *
  * What cannot be known in advance is a parameter: the `k`-th answer to "is this still current?"
  * is `current(k)`, and the `k`-th member turn gives `replies(k)`.
  */
module GroupRun {
  import opened Prelude
  import opened Text
  import opened GroupChat

  const MAX_MESSAGES: nat := 10
  const MAX_ROUNDS: nat := 3
  const MAX_PER_TURN: nat := 2

  /** What a member's turn gives: no session or runner, an exception, or some messages. */
  datatype Reply = Missing | Threw | Said(contents: seq<string>)

  datatype Event =
    | Checked(ok: bool)
    | Turn(round: nat, id: string, news: seq<Message>)
    | Posted(round: nat, message: Message)

  datatype End = Running | Superseded | Capped | Settled | Exhausted | Failed

  datatype Setup = Setup(members: seq<Member>, shared: bool, lower: string -> string, current: nat -> bool,
      replies: nat -> Reply)

  /** `asked` counts the currency checks, `turns` the member turns. */
  datatype Room = Room(history: seq<Message>, log: seq<Event>, asked: nat, turns: nat, end: End)

  const START := Room([], [], 0, 0, Running)

  // ---------------------------------------------------------------- the run as a function

  predicate IsPass(content: string) {
    Trim(content) == "[[pass]]" || Trim(content) == "[pass]" || Trim(content) == "PASS"
  }

  predicate IsSpeech(content: string) {
    !IsPass(content) && Trim(content) != ""
  }

  /** All that is worth posting among `contents`, trimmed. */
  function AllSpeech(contents: seq<string>): seq<string> {
    if contents == [] then []
    else
      var rest := AllSpeech(Front(contents));
      if IsSpeech(Last(contents)) then rest + [Trim(Last(contents))] else rest
  }

  function Spoken(contents: seq<string>): seq<string> {
    var all := AllSpeech(contents);
    if |all| > MAX_PER_TURN then all[..MAX_PER_TURN] else all
  }

  function Ask(s: Setup, r: Room): Room {
    var ok := s.current(r.asked);
    r.(asked := r.asked + 1, log := r.log + [Checked(ok)], end := if ok then r.end else Superseded)
  }

  function Post(r: Room, round: nat, m: Member, contents: seq<string>): Room
    decreases |contents|
  {
    if contents == [] then r
    else
      var message := Message(Person(m.id, m.name), contents[0]);
      var p := r.(history := r.history + [message], log := r.log + [Posted(round, message)]);
      if |p.history| >= MAX_MESSAGES then p.(end := Capped) else Post(p, round, m, contents[1..])
  }

  function News(shared: bool, history: seq<Message>, id: string): seq<Message> {
    if shared then Recent(history) else Since(history, id)
  }

  function FindMember(members: seq<Member>, id: string): (m: Option<Member>)
    ensures m.Some? ==> m.value in members && m.value.id == id
    ensures m.None? ==> forall o :: o in members ==> o.id != id
  {
    if members == [] then None
    else if Last(members).id == id then Some(Last(members))
    else FindMember(Front(members), id)
  }

  function Converse(s: Setup, r: Room, round: nat, m: Member): Room {
    var t := r.(turns := r.turns + 1, log := r.log + [Turn(round, m.id, News(s.shared, r.history, m.id))]);
    match s.replies(r.turns)
    case Missing => t
    case Threw => t.(end := Failed)
    case Said(contents) => Post(t, round, m, Spoken(contents))
  }

  function Speak(s: Setup, r: Room, round: nat, id: string): Room {
    if |r.history| >= MAX_MESSAGES then r.(end := Capped)
    else
      var a := Ask(s, r);
      if a.end != Running then a
      else match FindMember(s.members, id)
        case None => a
        case Some(m) => Converse(s, a, round, m)
  }

  function SpeakAll(s: Setup, r: Room, round: nat, ids: seq<string>): Room
    decreases |ids|
  {
    if ids == [] || r.end != Running then r
    else SpeakAll(s, Speak(s, r, round, ids[0]), round, ids[1..])
  }

  function Ids(members: seq<Member>): seq<string> {
    seq(|members|, i requires 0 <= i < |members| => members[i].id)
  }

  /** Who speaks in a round that starts with this history. */
  ghost function Speakers(s: Setup, history: seq<Message>, round: nat): seq<string> {
    Order(Ids(Responders(s.members, history, s.lower)), round)
  }

  ghost function Rounds(s: Setup, r: Room, round: nat): Room
    decreases MAX_ROUNDS - round
  {
    if round >= MAX_ROUNDS then r.(end := Exhausted)
    else
      var a := Ask(s, r);
      if a.end != Running then a
      else
        var e := SpeakAll(s, a, round, Speakers(s, a.history, round));
        if e.end != Running then e
        else if |e.history| == |r.history| then e.(end := Settled)
        else Rounds(s, e, round + 1)
  }

  ghost function Run(s: Setup): Room {
    if s.members == [] then START.(end := Settled) else Rounds(s, START, 0)
  }

  // ---------------------------------------------------------------- the run as a program

  method SpeakTurn(s: Setup, r: Room, round: nat, id: string) returns (t: Room)
    ensures t == Speak(s, r, round, id)
  {
    if |r.history| >= MAX_MESSAGES {
      return r.(end := Capped);
    }
    t := Ask(s, r);
    if t.end != Running {
      return;
    }
    var member := FindMember(s.members, id);
    if member.None? {
      return;
    }
    var m := member.value;
    var news;
    if s.shared {
      news := Recent(t.history);
    } else {
      news := MessagesSince(t.history, m.id);
    }
    var reply := s.replies(t.turns);
    t := t.(turns := t.turns + 1, log := t.log + [Turn(round, m.id, news)]);
    if reply.Missing? {
      return;
    }
    if reply.Threw? {
      return t.(end := Failed);
    }
    var sent := SpokenOf(reply.contents);
    ghost var before := t;
    var i := 0;
    while i < |sent|
      invariant 0 <= i <= |sent|
      invariant Post(before, round, m, sent) == Post(t, round, m, sent[i..])
    {
      var message := Message(Person(m.id, m.name), sent[i]);
      t := t.(history := t.history + [message], log := t.log + [Posted(round, message)]);
      if |t.history| >= MAX_MESSAGES {
        return t.(end := Capped);
      }
      i := i + 1;
    }
  }

  method SpokenOf(contents: seq<string>) returns (spoken: seq<string>)
    ensures spoken == Spoken(contents)
  {
    spoken := [];
    for i := 0 to |contents|
      invariant spoken == AllSpeech(contents[..i]) && |spoken| < MAX_PER_TURN
    {
      assert Front(contents[..i + 1]) == contents[..i];
      if IsPass(contents[i]) {
        continue;
      }
      var trimmed := Trim(contents[i]);
      if trimmed == "" {
        continue;
      }
      spoken := spoken + [trimmed];
      if |spoken| >= MAX_PER_TURN {
        SpeechPrefix(contents, i + 1);
        return;
      }
    }
    assert contents[..|contents|] == contents;
  }

  lemma {:induction false} SpeechPrefix(contents: seq<string>, k: nat)
    requires k <= |contents|
    ensures AllSpeech(contents[..k]) <= AllSpeech(contents)
    decreases |contents|
  {
    if k < |contents| {
      assert contents[..k] == Front(contents)[..k];
      SpeechPrefix(Front(contents), k);
    } else {
      assert contents[..k] == contents;
    }
  }

  /** The members that exist, in the order given. */
  function Known(ids: seq<string>, lookup: string -> Option<Member>): seq<Member> {
    if ids == [] then []
    else
      var rest := Known(Front(ids), lookup);
      match lookup(Last(ids)) case None => rest case Some(m) => rest + [m]
  }

  method RunConversation(ids: seq<string>, lookup: string -> Option<Member>, shared: bool, lower: string -> string,
      current: nat -> bool, replies: nat -> Reply)
      returns (room: Room)
    ensures room == Run(Setup(Known(ids, lookup), shared, lower, current, replies))
  {
    var members := [];
    for i := 0 to |ids|
      invariant members == Known(ids[..i], lookup)
    {
      assert Front(ids[..i + 1]) == ids[..i];
      var found := lookup(ids[i]);
      if found.Some? {
        members := members + [found.value];
      }
    }
    assert ids[..|ids|] == ids;
    var s := Setup(members, shared, lower, current, replies);
    if members == [] {
      return START.(end := Settled);
    }
    room := START;
    var round := 0;
    while round < MAX_ROUNDS
      invariant 0 <= round <= MAX_ROUNDS
      invariant Rounds(s, START, 0) == Rounds(s, room, round)
    {
      var before := |room.history|;
      room := Ask(s, room);
      if room.end != Running {
        return;
      }
      var responders := ResolveResponders(members, room.history, lower);
      var order := Order(Ids(responders), round);
      ghost var atStart := room;
      var i := 0;
      while i < |order| && room.end == Running
        invariant 0 <= i <= |order|
        invariant SpeakAll(s, atStart, round, order) == SpeakAll(s, room, round, order[i..])
      {
        room := SpeakTurn(s, room, round, order[i]);
        i := i + 1;
      }
      if room.end != Running {
        return;
      }
      if |room.history| == before {
        return room.(end := Settled);
      }
      round := round + 1;
    }
    room := room.(end := Exhausted);
  }

  // ---------------------------------------------------------------- what the log says

  function Posts(log: seq<Event>): seq<Message> {
    if log == [] then []
    else if Last(log).Posted? then Posts(Front(log)) + [Last(log).message]
    else Posts(Front(log))
  }

  function Turns(log: seq<Event>): seq<(nat, string)> {
    if log == [] then []
    else if Last(log).Turn? then Turns(Front(log)) + [(Last(log).round, Last(log).id)]
    else Turns(Front(log))
  }

  predicate IsTurn(e: Event, round: nat, id: string) {
    e.Turn? && e.round == round && e.id == id
  }

  /** The last thing that happened is this turn, or the first message posted in it. */
  predicate OpenTurn(log: seq<Event>, round: nat, id: string) {
    || (log != [] && IsTurn(Last(log), round, id))
    || (|log| >= 2 && Last(log).Posted? && IsTurn(log[|log| - 2], round, id))
  }

  /** `e` may come after `before`: nothing follows a failed check, every turn directly follows a
    * check that held and is shown the right part of the room, and every post is trimmed, says
    * something and belongs to the turn just begun. */
  predicate MayFollow(shared: bool, before: seq<Event>, e: Event) {
    && (before != [] ==> Last(before) != Checked(false))
    && match e
       case Checked(_) => true
       case Turn(_, id, news) =>
         before != [] && Last(before) == Checked(true) && news == News(shared, Posts(before), id)
       case Posted(round, m) => m.speaker.Person? && IsPosted(m.content) && OpenTurn(before, round, m.speaker.id)
  }

  predicate IsPosted(content: string) {
    Tight(content) && !IsPass(content)
  }

  ghost predicate LogOk(shared: bool, log: seq<Event>) {
    forall i :: 0 <= i < |log| ==> MayFollow(shared, log[..i], log[i])
  }

  ghost predicate RoomOk(s: Setup, r: Room) {
    && LogOk(s.shared, r.log) && r.history == Posts(r.log) && r.turns == |Turns(r.log)|
    && |r.history| <= MAX_MESSAGES && (r.end == Capped <==> |r.history| == MAX_MESSAGES)
    && (r.end == Superseded <==> r.log != [] && Last(r.log) == Checked(false))
  }

  lemma LogPush(shared: bool, log: seq<Event>, e: Event)
    requires LogOk(shared, log) && MayFollow(shared, log, e)
    ensures LogOk(shared, log + [e])
    ensures Posts(log + [e]) == if e.Posted? then Posts(log) + [e.message] else Posts(log)
    ensures Turns(log + [e]) == if e.Turn? then Turns(log) + [(e.round, e.id)] else Turns(log)
  {
    var l := log + [e];
    assert Front(l) == log;
    forall i | 0 <= i < |l|
      ensures MayFollow(shared, l[..i], l[i])
    {
      assert l[..i] == log[..i];
      if i == |log| {
        assert log[..i] == log;
      }
    }
  }

  lemma AskKeeps(s: Setup, r: Room)
    requires RoomOk(s, r) && r.end == Running
    ensures RoomOk(s, Ask(s, r)) && Turns(Ask(s, r).log) == Turns(r.log)
    ensures Ask(s, r).end == Running ==> Last(Ask(s, r).log) == Checked(true)
  {
    LogPush(s.shared, r.log, Checked(s.current(r.asked)));
  }

  lemma {:induction false} PostKeeps(s: Setup, r: Room, round: nat, m: Member, contents: seq<string>)
    requires RoomOk(s, r) && r.end == Running
    requires forall c :: c in contents ==> IsPosted(c)
    requires r.log != []
    requires |contents| <= if Last(r.log).Turn? then 2 else if OpenTurn(r.log, round, m.id) then 1 else 0
    requires Last(r.log).Turn? ==> OpenTurn(r.log, round, m.id)
    ensures RoomOk(s, Post(r, round, m, contents))
    ensures Turns(Post(r, round, m, contents).log) == Turns(r.log)
    ensures Post(r, round, m, contents).end in {Running, Capped}
    decreases |contents|
  {
    if contents != [] {
      var e := Posted(round, Message(Person(m.id, m.name), contents[0]));
      assert contents[0] in contents;
      LogPush(s.shared, r.log, e);
      var p := r.(history := r.history + [e.message], log := r.log + [e]);
      if |p.history| < MAX_MESSAGES {
        assert Last(r.log).Turn? ==> OpenTurn(p.log, round, m.id);
        PostKeeps(s, p, round, m, contents[1..]);
      }
    }
  }

  lemma {:induction false} SpeechIsPosted(contents: seq<string>)
    ensures forall c :: c in AllSpeech(contents) ==> IsPosted(c)
    decreases |contents|
  {
    if contents != [] {
      SpeechIsPosted(Front(contents));
      var before, after := TrimKeepsMiddle(Last(contents));
      if IsSpeech(Last(contents)) {
        TrimTight(Trim(Last(contents)));
      }
    }
  }

  lemma ConverseKeeps(s: Setup, r: Room, round: nat, m: Member)
    requires RoomOk(s, r) && r.end == Running && r.log != [] && Last(r.log) == Checked(true)
    ensures RoomOk(s, Converse(s, r, round, m))
    ensures Turns(Converse(s, r, round, m).log) == Turns(r.log) + [(round, m.id)]
    ensures Converse(s, r, round, m).end in {Running, Capped, Failed}
  {
    var e := Turn(round, m.id, News(s.shared, r.history, m.id));
    LogPush(s.shared, r.log, e);
    var t := r.(turns := r.turns + 1, log := r.log + [e]);
    match s.replies(r.turns)
    case Said(contents) =>
      SpeechIsPosted(contents);
      PostKeeps(s, t, round, m, Spoken(contents));
    case _ =>
  }

  lemma SpeakKeeps(s: Setup, r: Room, round: nat, id: string)
    requires RoomOk(s, r) && r.end == Running && FindMember(s.members, id).Some?
    ensures var t := Speak(s, r, round, id);
      && RoomOk(s, t)
      && (t.end in {Superseded, Running, Capped, Failed})
      && Turns(t.log) == (if t.end == Superseded then Turns(r.log) else Turns(r.log) + [(round, id)])
  {
    AskKeeps(s, r);
    var a := Ask(s, r);
    if a.end == Running {
      ConverseKeeps(s, a, round, FindMember(s.members, id).value);
    }
  }

  function Entries(round: nat, ids: seq<string>): seq<(nat, string)> {
    seq(|ids|, i requires 0 <= i < |ids| => (round, ids[i]))
  }

  lemma EntriesHead(round: nat, ids: seq<string>, n: nat)
    requires n < |ids|
    ensures Entries(round, ids[..n + 1]) == [(round, ids[0])] + Entries(round, ids[1..][..n])
  {
  }

  /** In a round the members take turns in the given order, each once, until the run ends. */
  lemma {:induction false} TurnsFollowOrder(s: Setup, r: Room, round: nat, ids: seq<string>) returns (k: nat)
    requires RoomOk(s, r) && r.end == Running
    requires forall id :: id in ids ==> FindMember(s.members, id).Some?
    ensures var t := SpeakAll(s, r, round, ids);
      && RoomOk(s, t) && k <= |ids|
      && Turns(t.log) == Turns(r.log) + Entries(round, ids[..k])
      && (t.end == Running ==> k == |ids|)
      && t.end in {Superseded, Running, Capped, Failed}
    decreases |ids|
  {
    hide RoomOk, Speak, Turns, FindMember;
    if ids == [] {
      return 0;
    }
    assert ids[0] in ids;
    SpeakKeeps(s, r, round, ids[0]);
    var t := Speak(s, r, round, ids[0]);
    if t.end == Running {
      var n := TurnsFollowOrder(s, t, round, ids[1..]);
      k := n + 1;
      EntriesHead(round, ids, n);
    } else {
      assert SpeakAll(s, t, round, ids[1..]) == t;
      k := if t.end == Superseded then 0 else 1;
      assert Entries(round, ids[..k]) == if k == 0 then [] else [(round, ids[0])];
    }
  }

  // ---------------------------------------------------------------- the whole run

  predicate DistinctIds(ids: seq<string>) {
    forall i, j :: 0 <= i < j < |ids| ==> ids[i] != ids[j]
  }

  predicate DistinctTurns(ts: seq<(nat, string)>) {
    forall i, j :: 0 <= i < j < |ts| ==> ts[i] != ts[j]
  }

  predicate RoundsBelow(ts: seq<(nat, string)>, round: nat) {
    forall i :: 0 <= i < |ts| ==> ts[i].0 < round
  }

  lemma SpeakersAreMembers(s: Setup, history: seq<Message>, round: nat)
    requires s.members != []
    ensures var ids := Speakers(s, history, round);
      && 0 < |ids| <= |s.members|
      && (forall id :: id in ids ==> FindMember(s.members, id).Some?)
      && (Distinct(s.members) ==> DistinctIds(ids))
  {
    RespondersAnswer(s.members, history, s.lower);
    var rs := Responders(s.members, history, s.lower);
    forall id | id in Ids(rs)
      ensures FindMember(s.members, id).Some?
    {
      var i :| 0 <= i < |rs| && rs[i].id == id;
      assert rs[i] in rs;
    }
  }

  lemma DistinctTurnsPush(ts: seq<(nat, string)>, round: nat, ids: seq<string>)
    requires RoundsBelow(ts, round)
    ensures RoundsBelow(ts + Entries(round, ids), round + 1)
    ensures DistinctTurns(ts) && DistinctIds(ids) ==> DistinctTurns(ts + Entries(round, ids))
  {
  }

  /** One round. */
  lemma RoundKeeps(s: Setup, r: Room, round: nat)
    requires s.members != [] && RoomOk(s, r) && r.end == Running
    requires RoundsBelow(Turns(r.log), round)
    requires Distinct(s.members) ==> DistinctTurns(Turns(r.log))
    ensures var e := SpeakAll(s, r, round, Speakers(s, r.history, round));
      && RoomOk(s, e) && e.end in {Superseded, Running, Capped, Failed}
      && RoundsBelow(Turns(e.log), round + 1)
      && |Turns(e.log)| <= |Turns(r.log)| + |s.members|
      && (Distinct(s.members) ==> DistinctTurns(Turns(e.log)))
  {
    var ids := Speakers(s, r.history, round);
    SpeakersAreMembers(s, r.history, round);
    var k := TurnsFollowOrder(s, r, round, ids);
    DistinctTurnsPush(Turns(r.log), round, ids[..k]);
  }

  /** Turns left when `round` begins. */
  function Budget(round: nat, members: nat): nat
    decreases MAX_ROUNDS - round
  {
    if round >= MAX_ROUNDS then 0 else members + Budget(round + 1, members)
  }

  /** How the run goes on from the beginning of a round: `e` is the room at the end of that round,
    * `more` says whether another follows. */
  lemma OneRound(s: Setup, r: Room, round: nat) returns (e: Room, more: bool)
    requires s.members != [] && RoomOk(s, r) && r.end == Running && round < MAX_ROUNDS
    requires RoundsBelow(Turns(r.log), round)
    requires Distinct(s.members) ==> DistinctTurns(Turns(r.log))
    ensures Rounds(s, r, round) == if more then Rounds(s, e, round + 1) else e
    ensures RoomOk(s, e) && RoundsBelow(Turns(e.log), round + 1) && more == (e.end == Running)
    ensures |Turns(e.log)| <= |Turns(r.log)| + |s.members|
    ensures Distinct(s.members) ==> DistinctTurns(Turns(e.log))
  {
    AskKeeps(s, r);
    var a := Ask(s, r);
    if a.end != Running {
      return a, false;
    }
    RoundKeeps(s, a, round);
    e := SpeakAll(s, a, round, Speakers(s, a.history, round));
    more := e.end == Running && |e.history| != |r.history|;
    if e.end == Running && !more {
      e := e.(end := Settled);
    }
  }

  /** Everything the run keeps, round by round. */
  lemma {:induction false} RoundsKeep(s: Setup, r: Room, round: nat, n: nat)
    requires s.members != [] && RoomOk(s, r) && r.end == Running && round <= MAX_ROUNDS
    requires RoundsBelow(Turns(r.log), round)
    requires |Turns(r.log)| + Budget(round, |s.members|) <= n
    requires Distinct(s.members) ==> DistinctTurns(Turns(r.log))
    ensures RoomOk(s, Rounds(s, r, round)) && Rounds(s, r, round).end != Running
    ensures |Turns(Rounds(s, r, round).log)| <= n
    ensures Distinct(s.members) ==> DistinctTurns(Turns(Rounds(s, r, round).log))
    decreases MAX_ROUNDS - round
  {
    hide LogOk, Ask, SpeakAll, RoundsBelow, DistinctTurns, Turns, Posts;
    if round < MAX_ROUNDS {
      var e, more := OneRound(s, r, round);
      if more {
        RoundsKeep(s, e, round + 1, n);
      }
    }
  }

  lemma RunKeeps(s: Setup)
    ensures RoomOk(s, Run(s)) && Run(s).end != Running
    ensures |Turns(Run(s).log)| <= MAX_ROUNDS * |s.members|
    ensures Distinct(s.members) ==> DistinctTurns(Turns(Run(s).log))
  {
    if s.members != [] {
      assert Budget(0, |s.members|) == MAX_ROUNDS * |s.members|;
      RoundsKeep(s, START, 0, MAX_ROUNDS * |s.members|);
    }
  }

  /** Whatever the members do, the run ends after at most three turns each and ten messages, and
    * the room's history is exactly what was posted. It stops for ten messages or a failed currency
    * check exactly when that happened, and no turn starts after the check failed. */
  lemma ConversationIsBounded(s: Setup)
    ensures var t := Run(s);
      && t.turns == |Turns(t.log)| <= MAX_ROUNDS * |s.members|
      && |t.history| <= MAX_MESSAGES && t.history == Posts(t.log)
      && (t.end == Capped <==> |t.history| == MAX_MESSAGES)
      && (t.end == Superseded <==> t.log != [] && Last(t.log) == Checked(false))
      && (forall i :: 0 <= i < |t.log| && t.log[i] == Checked(false) ==> i == |t.log| - 1)
      && (forall i :: 0 <= i < |t.log| && t.log[i].Turn? ==> i > 0 && t.log[i - 1] == Checked(true))
  {
    RunKeeps(s);
    var log := Run(s).log;
    forall i | 0 <= i < |log| - 1
      ensures log[i] != Checked(false)
    {
      assert MayFollow(s.shared, log[..i + 1], log[i + 1]);
      assert Last(log[..i + 1]) == log[i];
    }
    forall i | 0 <= i < |log| && log[i].Turn?
      ensures i > 0 && log[i - 1] == Checked(true)
    {
      assert MayFollow(s.shared, log[..i], log[i]);
      assert Last(log[..i]) == log[i - 1];
    }
  }

  /** At each turn a private room's member is shown exactly what was posted since it last spoke, a
    * shared room's member everything, and only what says something is ever posted. */
  lemma TurnsAndPostsAreRight(s: Setup, i: nat)
    requires i < |Run(s).log|
    ensures var log := Run(s).log;
      && (log[i].Turn? && !s.shared ==> log[i].news == Since(Posts(log[..i]), log[i].id))
      && (log[i].Turn? && s.shared ==> log[i].news == Posts(log[..i]))
      && (log[i].Posted? ==> IsPosted(log[i].message.content))
  {
    RunKeeps(s);
    var log := Run(s).log;
    assert MayFollow(s.shared, log[..i], log[i]);
    PostsGrow(log, i);
  }

  lemma {:induction false} PostsGrow(log: seq<Event>, i: nat)
    requires i <= |log|
    ensures |Posts(log[..i])| <= |Posts(log)|
    decreases |log|
  {
    if i == |log| {
      assert log[..i] == log;
    } else {
      assert log[..i] == Front(log)[..i];
      PostsGrow(Front(log), i);
    }
  }

  lemma {:induction false} TurnEvents(log: seq<Event>, i: nat, j: nat)
    requires i < j < |log| && log[i].Turn? && log[j].Turn? && DistinctTurns(Turns(log))
    ensures (log[i].round, log[i].id) != (log[j].round, log[j].id)
    decreases |log|
  {
    var f := Front(log);
    assert forall a :: 0 <= a < |Turns(f)| ==> Turns(f)[a] == Turns(log)[a];
    if j < |log| - 1 {
      TurnEvents(f, i, j);
    } else {
      TurnListed(f, i);
      var a :| 0 <= a < |Turns(f)| && Turns(f)[a] == (log[i].round, log[i].id);
      assert Turns(log)[a] != Turns(log)[|Turns(f)|];
    }
  }

  lemma {:induction false} TurnListed(log: seq<Event>, i: nat)
    requires i < |log| && log[i].Turn?
    ensures (log[i].round, log[i].id) in Turns(log)
    decreases |log|
  {
    if i < |log| - 1 {
      TurnListed(Front(log), i);
    }
  }

  /** Is entry `i` a message that member `id` posted in this round? */
  predicate IsPostBy(log: seq<Event>, i: nat, round: nat, id: string) {
    i < |log| && log[i].Posted? && log[i].round == round && Spoke(log[i].message, id)
  }

  lemma PostHasTurn(s: Setup, i: nat, round: nat, id: string) returns (k: nat)
    requires IsPostBy(Run(s).log, i, round, id)
    ensures i - 2 <= k < i && IsTurn(Run(s).log[k], round, id)
  {
    RunKeeps(s);
    var log := Run(s).log;
    assert MayFollow(s.shared, log[..i], log[i]);
    k := if IsTurn(log[i - 1], round, id) then i - 1 else i - 2;
  }

  /** With distinct member ids, nobody posts more than two messages in a round: of any three of a
    * member's posts two differ in their round. */
  lemma AtMostTwoPerRound(s: Setup, round: nat, id: string, i: nat, j: nat, k: nat)
    requires Distinct(s.members) && i < j < k
    requires IsPostBy(Run(s).log, i, round, id) && IsPostBy(Run(s).log, j, round, id)
    ensures !IsPostBy(Run(s).log, k, round, id)
  {
    if IsPostBy(Run(s).log, k, round, id) {
      RunKeeps(s);
      var a := PostHasTurn(s, i, round, id);
      var b := PostHasTurn(s, k, round, id);
      if a < b {
        TurnEvents(Run(s).log, a, b);
      }
      assert false;
    }
  }

  // ---------------------------------------------------------------- what a turn posts

  /** Worth posting: text that is left when white space is cut off and that is not a pass. */
  predicate Worth(content: string) {
    Trim(content) !in {"", "[[pass]]", "[pass]", "PASS"}
  }

  /** `out` is the trimmed text of the contents at `ks`, which are the first two that are worth posting. */
  ghost predicate AreFirstTwo(contents: seq<string>, ks: seq<nat>, out: seq<string>) {
    && |ks| == |out| <= 2
    && (forall i, j :: 0 <= i < j < |ks| ==> ks[i] < ks[j])
    && (forall j :: 0 <= j < |ks| ==> ks[j] < |contents| && Worth(contents[ks[j]]) && out[j] == Trim(contents[ks[j]]))
    && (forall i: nat :: i < |contents| && Worth(contents[i]) && i !in ks ==> |ks| == 2 && i > ks[1])
  }

  /** `out` is the trimmed text of all contents worth posting, which are at `ks`. */
  ghost predicate AreAll(contents: seq<string>, ks: seq<nat>, out: seq<string>) {
    && |ks| == |out|
    && (forall i, j :: 0 <= i < j < |ks| ==> ks[i] < ks[j])
    && (forall j :: 0 <= j < |ks| ==> ks[j] < |contents| && Worth(contents[ks[j]]) && out[j] == Trim(contents[ks[j]]))
    && (forall i: nat :: i < |contents| && Worth(contents[i]) ==> i in ks)
  }

  lemma AllSnoc(contents: seq<string>, ks: seq<nat>, out: seq<string>, c: string)
    requires AreAll(contents, ks, out)
    ensures
      if Worth(c) then AreAll(contents + [c], ks + [|contents|], out + [Trim(c)]) else AreAll(contents + [c], ks, out)
  {
    hide Trim, Worth;
    var all := contents + [c];
    var ks' := if Worth(c) then ks + [|contents|] else ks;
    forall i: nat | i < |all| && Worth(all[i])
      ensures i in ks'
    {
      assert i < |contents| ==> all[i] == contents[i] && i in ks;
      assert i == |contents| ==> Last(ks') == i;
    }
  }

  lemma SpeechIsWorth(c: string)
    ensures IsSpeech(c) <==> Worth(c)
  {
    hide Trim;
  }

  lemma {:induction false} SpeechPlaces(contents: seq<string>) returns (ks: seq<nat>)
    ensures AreAll(contents, ks, AllSpeech(contents))
    decreases |contents|
  {
    ks := [];
    if contents != [] {
      hide AreAll, Trim, Worth, IsSpeech;
      var f, c := Front(contents), Last(contents);
      ks := SpeechPlaces(f);
      AllSnoc(f, ks, AllSpeech(f), c);
      SpeechIsWorth(c);
      assert f + [c] == contents;
      ks := if Worth(c) then ks + [|f|] else ks;
    }
  }

  lemma SpokenAreFirstTwo(contents: seq<string>) returns (ks: seq<nat>)
    ensures AreFirstTwo(contents, ks, Spoken(contents))
  {
    hide AllSpeech, Worth;
    var all := SpeechPlaces(contents);
    ks := if |all| > 2 then all[..2] else all;
  }

  function Checks(log: seq<Event>): nat {
    if log == [] then 0 else Checks(Front(log)) + (if Last(log).Checked? then 1 else 0)
  }

  function Least(a: nat, b: nat): nat {
    if a < b then a else b
  }

  /** What turn number `k` has to say. */
  function Saying(s: Setup, k: nat): seq<string> {
    match s.replies(k) case Said(contents) => Spoken(contents) case _ => []
  }

  function PostsBy(round: nat, m: Member, contents: seq<string>): seq<Event> {
    seq(|contents|, i requires 0 <= i < |contents| => Posted(round, Message(Person(m.id, m.name), contents[i])))
  }

  /** The turn at place `i` is followed by the posts of what it has to say, as far as the room's limit of
    * ten allows, and by no other post; an exception ends the log. */
  ghost predicate Answered(s: Setup, log: seq<Event>, i: nat)
    requires i < |log| && log[i].Turn?
  {
    var k, m := |Turns(log[..i])|, FindMember(s.members, log[i].id);
    var room := if |Posts(log[..i])| < 10 then 10 - |Posts(log[..i])| else 0;
    var n := Least(|Saying(s, k)|, room);
    && m.Some? && i + 1 + n <= |log|
    && log[i + 1..i + 1 + n] == PostsBy(log[i].round, m.value, Saying(s, k)[..n])
    && (i + 1 + n < |log| ==> !log[i + 1 + n].Posted? && !s.replies(k).Threw?)
  }

  /** Every check is answered by `current`, every turn by `replies`, each in order of asking. */
  ghost predicate Faithful(s: Setup, r: Room) {
    && r.asked == Checks(r.log)
    && (forall i :: 0 <= i < |r.log| && r.log[i].Checked? ==> r.log[i].ok == s.current(Checks(r.log[..i])))
    && (forall i :: 0 <= i < |r.log| && r.log[i].Turn? ==> Answered(s, r.log, i))
    && (r.end == Failed <==> r.log != [] && Last(r.log).Turn? && s.replies(|Turns(r.log)| - 1).Threw?)
  }

  lemma TurnsListed(log: seq<Event>, i: nat)
    requires i < |log| && log[i].Turn?
    ensures |Turns(log[..i + 1])| == |Turns(log[..i])| + 1
  {
    assert Front(log[..i + 1]) == log[..i];
  }

  /** Appending something that is no post keeps the answers, if no turn has thrown. */
  lemma AnsweredLater(s: Setup, log: seq<Event>, more: seq<Event>, i: nat)
    requires i < |log| && log[i].Turn? && Answered(s, log, i) && more != [] && !more[0].Posted?
    requires Last(log).Turn? ==> !s.replies(|Turns(log)| - 1).Threw?
    ensures Answered(s, log + more, i)
  {
    var all := log + more;
    assert all[..i] == log[..i];
    var k := |Turns(log[..i])|;
    var room := if |Posts(log[..i])| < 10 then 10 - |Posts(log[..i])| else 0;
    var n := Least(|Saying(s, k)|, room);
    assert all[i + 1..i + 1 + n] == log[i + 1..i + 1 + n];
    if i + 1 == |log| {
      TurnsListed(log, i);
      assert log[..i + 1] == log;
    }
  }

  lemma AskIsFaithful(s: Setup, r: Room)
    requires RoomOk(s, r) && Faithful(s, r) && r.end == Running
    ensures Faithful(s, Ask(s, r))
  {
    hide Answered, LogOk, Turns, Posts, Saying, Checks;
    var e := Checked(s.current(r.asked));
    AskChecks(s, r);
    forall i | 0 <= i < |Ask(s, r).log| && Ask(s, r).log[i].Turn?
      ensures Answered(s, Ask(s, r).log, i)
    {
      AnsweredLater(s, r.log, [e], i);
    }
  }

  lemma AskChecks(s: Setup, r: Room)
    requires Faithful(s, r)
    ensures var a := Ask(s, r);
      && a.asked == Checks(a.log)
      && forall i :: 0 <= i < |a.log| && a.log[i].Checked? ==> a.log[i].ok == s.current(Checks(a.log[..i]))
  {
    hide Answered;
    var a := Ask(s, r);
    assert Front(a.log) == r.log;
    forall i | 0 <= i < |a.log| && a.log[i].Checked?
      ensures a.log[i].ok == s.current(Checks(a.log[..i]))
    {
      assert a.log[..i] == r.log[..i];
      assert r.log[..|r.log|] == r.log;
    }
  }

  lemma {:induction false} PostIs(r: Room, round: nat, m: Member, contents: seq<string>)
    requires |r.history| < 10
    ensures var n := Least(|contents|, 10 - |r.history|);
      Post(r, round, m, contents).log == r.log + PostsBy(round, m, contents[..n])
    ensures var t := Post(r, round, m, contents); t.asked == r.asked && t.end in {r.end, Capped}
    decreases |contents|
  {
    if contents != [] {
      var e := Posted(round, Message(Person(m.id, m.name), contents[0]));
      var p := r.(history := r.history + [e.message], log := r.log + [e]);
      var n := Least(|contents|, 10 - |r.history|);
      if |p.history| < 10 {
        PostIs(p, round, m, contents[1..]);
        assert contents[1..][..n - 1] == contents[..n][1..];
      }
      assert PostsBy(round, m, contents[..n]) == [e] + PostsBy(round, m, contents[..n][1..]);
    }
  }

  lemma {:induction false} PostsAreNoChecks(log: seq<Event>, posts: seq<Event>)
    requires forall e :: e in posts ==> e.Posted?
    ensures Checks(log + posts) == Checks(log) && Turns(log + posts) == Turns(log)
    decreases |posts|
  {
    if posts == [] {
      assert log + posts == log;
    } else {
      assert Front(log + posts) == log + Front(posts) && Last(posts) in posts;
      PostsAreNoChecks(log, Front(posts));
    }
  }

  /** A turn adds itself and what it has to say. */
  lemma ConverseIs(s: Setup, r: Room, round: nat, m: Member)
    requires |r.history| < 10 && r.end == Running
    ensures
      var t := Converse(s, r, round, m);
      var n := Least(|Saying(s, r.turns)|, 10 - |r.history|);
      && t.log == r.log + [Turn(round, m.id, News(s.shared, r.history, m.id))]
                  + PostsBy(round, m, Saying(s, r.turns)[..n])
      && t.asked == r.asked && (t.end == Failed <==> s.replies(r.turns).Threw?)
  {
    hide Spoken;
    var t := r.(turns := r.turns + 1, log := r.log + [Turn(round, m.id, News(s.shared, r.history, m.id))]);
    match s.replies(r.turns)
    case Said(contents) => PostIs(t, round, m, Spoken(contents));
    case _ =>
      assert PostsBy(round, m, []) == [];
  }

  lemma ConverseIsFaithful(s: Setup, r: Room, round: nat, m: Member)
    requires RoomOk(s, r) && Faithful(s, r) && r.end == Running && FindMember(s.members, m.id) == Some(m)
    ensures Faithful(s, Converse(s, r, round, m))
  {
    hide Converse, LogOk, Answered, Saying, News, Turns, Posts, Checks, PostsBy, FindMember;
    ConverseIs(s, r, round, m);
    var t := Converse(s, r, round, m);
    var turn := Turn(round, m.id, News(s.shared, r.history, m.id));
    var n := Least(|Saying(s, r.turns)|, 10 - |r.history|);
    var posts := PostsBy(round, m, Saying(s, r.turns)[..n]);
    assert t.log == r.log + ([turn] + posts);
    PostsArePosts(round, m, Saying(s, r.turns)[..n]);
    ChecksStand(s, r, turn, posts);
    TailIsPosted(r.log, turn, posts);
    forall i | 0 <= i < |t.log| && t.log[i].Turn?
      ensures Answered(s, t.log, i)
    {
      if i < |r.log| {
        AnsweredLater(s, r.log, [turn] + posts, i);
      } else {
        NewTurnIsAnswered(s, r, turn, m, posts);
      }
    }
    NoneSaid(s, r.turns, round, m);
    TurnAtEnd(s, r, turn, posts);
  }

  lemma PostsArePosts(round: nat, m: Member, contents: seq<string>)
    ensures forall e :: e in PostsBy(round, m, contents) ==> e.Posted?
  {
  }

  lemma TailIsPosted(log: seq<Event>, turn: Event, posts: seq<Event>)
    requires forall e :: e in posts ==> e.Posted?
    ensures var all := log + ([turn] + posts); forall i :: |log| < i < |all| ==> all[i].Posted?
  {
    var all := log + ([turn] + posts);
    forall i | |log| < i < |all|
      ensures all[i].Posted?
    {
      assert all[i] == posts[i - |log| - 1] && posts[i - |log| - 1] in posts;
    }
  }

  lemma NoneSaid(s: Setup, k: nat, round: nat, m: Member)
    ensures s.replies(k).Threw? ==> Saying(s, k) == [] && PostsBy(round, m, Saying(s, k)[..0]) == []
  {
  }

  lemma ChecksStand(s: Setup, r: Room, turn: Event, posts: seq<Event>)
    requires Faithful(s, r) && turn.Turn? && forall e :: e in posts ==> e.Posted?
    ensures var all := r.log + ([turn] + posts);
      && r.asked == Checks(all)
      && forall i :: 0 <= i < |all| && all[i].Checked? ==> all[i].ok == s.current(Checks(all[..i]))
  {
    var all := r.log + ([turn] + posts);
    assert all == (r.log + [turn]) + posts && Front(r.log + [turn]) == r.log;
    PostsAreNoChecks(r.log + [turn], posts);
    TailIsPosted(r.log, turn, posts);
    forall i | 0 <= i < |all| && all[i].Checked?
      ensures all[i].ok == s.current(Checks(all[..i]))
    {
      assert all[..i] == r.log[..i];
    }
  }

  lemma NewTurnIsAnswered(s: Setup, r: Room, turn: Event, m: Member, posts: seq<Event>)
    requires RoomOk(s, r) && turn.Turn? && turn.id == m.id && FindMember(s.members, m.id) == Some(m)
    requires |r.history| <= 10
    requires posts == PostsBy(turn.round, m, Saying(s, r.turns)[..Least(|Saying(s, r.turns)|, 10 - |r.history|)])
    ensures Answered(s, r.log + ([turn] + posts), |r.log|)
  {
    var all := r.log + ([turn] + posts);
    assert all[..|r.log|] == r.log && all[|r.log| + 1..] == posts;
  }

  /** Whether the log of a turn ends with it, and with what reply. */
  lemma TurnAtEnd(s: Setup, r: Room, turn: Event, posts: seq<Event>)
    requires turn.Turn? && r.turns == |Turns(r.log)| && (forall e :: e in posts ==> e.Posted?)
    requires s.replies(r.turns).Threw? ==> posts == []
    ensures var all := r.log + ([turn] + posts);
      Last(all).Turn? && s.replies(|Turns(all)| - 1).Threw? <==> s.replies(r.turns).Threw?
  {
    var all := r.log + ([turn] + posts);
    assert Front(r.log + [turn]) == r.log;
    assert all == (r.log + [turn]) + posts;
    PostsAreNoChecks(r.log + [turn], posts);
    if posts != [] {
      assert Last(all) == Last(posts) && Last(posts) in posts;
    }
  }

  lemma SpeakIsFaithful(s: Setup, r: Room, round: nat, id: string)
    requires RoomOk(s, r) && Faithful(s, r) && r.end == Running && FindMember(s.members, id).Some?
    ensures Faithful(s, Speak(s, r, round, id)) && r.log <= Speak(s, r, round, id).log
  {
    hide RoomOk, Faithful, Converse, News;
    RoomBelowLimit(s, r);
    AskKeeps(s, r);
    AskIsFaithful(s, r);
    var a := Ask(s, r);
    if a.end == Running {
      ConverseIsFaithful(s, a, round, FindMember(s.members, id).value);
      ConverseIs(s, a, round, FindMember(s.members, id).value);
    }
  }

  lemma RoomBelowLimit(s: Setup, r: Room)
    requires RoomOk(s, r) && r.end == Running
    ensures |r.history| < 10 && r.turns == |Turns(r.log)| && r.history == Posts(r.log)
  {
  }

  lemma {:induction false} SpeakAllIsFaithful(s: Setup, r: Room, round: nat, ids: seq<string>)
    requires RoomOk(s, r) && Faithful(s, r) && r.end == Running
    requires forall id :: id in ids ==> FindMember(s.members, id).Some?
    ensures Faithful(s, SpeakAll(s, r, round, ids)) && r.log <= SpeakAll(s, r, round, ids).log
    decreases |ids|
  {
    hide RoomOk, Faithful, Speak, Turns, FindMember;
    if ids != [] {
      assert ids[0] in ids;
      SpeakKeeps(s, r, round, ids[0]);
      SpeakIsFaithful(s, r, round, ids[0]);
      var t := Speak(s, r, round, ids[0]);
      if t.end == Running {
        SpeakAllIsFaithful(s, t, round, ids[1..]);
      } else {
        assert SpeakAll(s, t, round, ids[1..]) == t;
      }
    }
  }

  // ---------------------------------------------------------------- how rounds follow each other

  /** Round `round` begins at place `from` of the log and ends before `to`: after a check, a prefix of its
    * speakers have had their turns, all of them if it is `full`. */
  ghost predicate RoundIs(s: Setup, log: seq<Event>, round: nat, from: nat, to: nat, full: bool) {
    && from < to <= |log| && log[from].Checked?
    && var ids := Speakers(s, Posts(log[..from]), round);
       && InTurn(ids, Responders(s.members, Posts(log[..from]), s.lower), round)
       && exists k :: 0 <= k <= |ids| && (full ==> k == |ids|)
            && Turns(log[..to]) == Turns(log[..from]) + Entries(round, ids[..k])
  }

  /** Those who answer, each once, from the one `round` places on. */
  ghost predicate InTurn(ids: seq<string>, responders: seq<Member>, round: nat) {
    |ids| == |responders| && forall i :: 0 <= i < |ids| ==> ids[i] == responders[(i + round) % |ids|].id
  }

  lemma SpeakersAreInTurn(s: Setup, history: seq<Message>, round: nat)
    ensures InTurn(Speakers(s, history, round), Responders(s.members, history, s.lower), round)
  {
    var rs := Ids(Responders(s.members, history, s.lower));
    forall i | 0 <= i < |rs|
      ensures Order(rs, round)[i] == rs[(i + round) % |rs|]
    {
      OrderRotates(rs, round, i);
    }
  }

  /** From place `from` on the run is at the beginning of `round`: there are three rounds; a full round in
    * which something is posted is followed by the next, one in which nothing is settles the
    * conversation; otherwise the run is cut off inside the round. */
  ghost predicate RoundsAre(s: Setup, t: Room, from: nat, round: nat)
    decreases 3 - round
  {
    if round >= 3 then t.end == Exhausted && from == |t.log|
    else
      || (t.end == Settled && RoundIs(s, t.log, round, from, |t.log|, true)
          && |Posts(t.log)| == |Posts(t.log[..from])|)
      || (t.end in {Superseded, Capped, Failed} && RoundIs(s, t.log, round, from, |t.log|, false))
      || (exists to :: from < to <= |t.log| && GoesOn(s, t, round, from, to) && RoundsAre(s, t, to, round + 1))
  }

  ghost predicate GoesOn(s: Setup, t: Room, round: nat, from: nat, to: nat)
    requires from < to <= |t.log|
  {
    RoundIs(s, t.log, round, from, to, true) && |Posts(t.log[..to])| > |Posts(t.log[..from])|
  }

  /** One round from its check on. */
  lemma RoundTold(s: Setup, r: Room, round: nat) returns (e: Room)
    requires s.members != [] && RoomOk(s, r) && Faithful(s, r) && r.end == Running && round < MAX_ROUNDS
    ensures var a := Ask(s, r);
      e == if a.end != Running then a else SpeakAll(s, a, round, Speakers(s, a.history, round))
    ensures RoomOk(s, e) && Faithful(s, e) && r.log < e.log
    ensures RoundIs(s, e.log, round, |r.log|, |e.log|, e.end == Running)
    ensures e.end in {Superseded, Running, Capped, Failed}
  {
    hide Faithful, FindMember, SpeakAll;
    AskKeeps(s, r);
    AskIsFaithful(s, r);
    var a := Ask(s, r);
    RoomBelowLimit(s, r);
    var ids := Speakers(s, r.history, round);
    SpeakersAreMembers(s, r.history, round);
    SpeakersAreInTurn(s, r.history, round);
    var k := 0;
    e := a;
    if a.end == Running {
      k := TurnsFollowOrder(s, a, round, ids);
      SpeakAllIsFaithful(s, a, round, ids);
      e := SpeakAll(s, a, round, ids);
    }
    assert e.log[..|r.log|] == r.log && e.log[..|e.log|] == e.log && e.log[|r.log|] == a.log[|r.log|];
    assert Entries(round, ids[..0]) == [];
  }

  lemma RoundIsPrefix(s: Setup, log: seq<Event>, all: seq<Event>, round: nat, from: nat, full: bool)
    requires RoundIs(s, log, round, from, |log|, full) && log <= all
    ensures RoundIs(s, all, round, from, |log|, full)
  {
    assert all[..from] == log[..from] && all[..|log|] == log == log[..|log|];
  }

  lemma {:induction false} RoundsTold(s: Setup, r: Room, round: nat)
    requires s.members != [] && RoomOk(s, r) && Faithful(s, r) && r.end == Running && round <= MAX_ROUNDS
    ensures var t := Rounds(s, r, round);
      && r.log <= t.log && RoundsAre(s, t, |r.log|, round)
      && Faithful(s, t)
    decreases MAX_ROUNDS - round
  {
    hide RoomOk, Ask, SpeakAll, Turns, Posts, RoundIs, Faithful, Speakers;
    SettledIsFaithful(s, r);
    if round < MAX_ROUNDS {
      var e := RoundTold(s, r, round);
      SettledIsFaithful(s, e);
      RoomTells(s, r);
      RoomTells(s, e);
      assert e.log[..|r.log|] == r.log;
      if e.end == Running && |e.history| != |r.history| {
        RoundsTold(s, e, round + 1);
        var t := Rounds(s, e, round + 1);
        assert Rounds(s, r, round) == t;
        RoundIsPrefix(s, e.log, t.log, round, |r.log|, true);
        assert t.log[..|r.log|] == r.log && t.log[..|e.log|] == e.log;
        RoundGrows(s, r, e);
        assert GoesOn(s, t, round, |r.log|, |e.log|);
      }
    }
  }

  lemma SettledIsFaithful(s: Setup, e: Room)
    requires Faithful(s, e)
    ensures e.end == Running ==> Faithful(s, e.(end := Settled))
    ensures Faithful(s, e.(end := Exhausted)) || e.end == Failed
  {
  }

  lemma RoomTells(s: Setup, r: Room)
    requires RoomOk(s, r)
    ensures r.history == Posts(r.log)
  {
  }

  lemma RoundGrows(s: Setup, r: Room, e: Room)
    requires RoomOk(s, r) && RoomOk(s, e) && r.log < e.log && |e.history| != |r.history|
    ensures |Posts(e.log)| > |Posts(r.log)|
  {
    PostsGrow(e.log, |r.log|);
    assert e.log[..|r.log|] == r.log;
  }

  /** How a conversation runs: with members it goes through at most three rounds, each a check and then
    * the turns of its speakers in order; it goes on after a full round iff something was posted in it. */
  lemma RoundsFollowEachOther(s: Setup)
    ensures if s.members == [] then Run(s) == START.(end := Settled) else RoundsAre(s, Run(s), 0, 0)
  {
    if s.members != [] {
      StartIsFaithful(s);
      RoundsTold(s, START, 0);
    }
  }

  lemma StartIsFaithful(s: Setup)
    ensures RoomOk(s, START) && Faithful(s, START)
  {
  }

  /** What is asked is what decides: the `k`-th check is `current(k)`, and the `k`-th turn is followed by
    * exactly the first two of `replies(k)` that are worth posting, as far as ten allow. The run fails
    * iff a turn threw. */
  lemma TurnsPostWhatIsSaid(s: Setup)
    ensures var t := Run(s);
      && (forall i :: 0 <= i < |t.log| && t.log[i].Checked? ==> t.log[i].ok == s.current(Checks(t.log[..i])))
      && (forall i :: 0 <= i < |t.log| && t.log[i].Turn? ==> Answered(s, t.log, i))
      && (t.end == Failed <==> t.log != [] && Last(t.log).Turn? && s.replies(|Turns(t.log)| - 1).Threw?)
  {
    RunIsFaithful(s);
  }

  lemma RunIsFaithful(s: Setup)
    ensures Faithful(s, Run(s))
  {
    hide Rounds, Answered, RoundsAre;
    StartIsFaithful(s);
    if s.members != [] {
      RoundsTold(s, START, 0);
    }
  }
}
