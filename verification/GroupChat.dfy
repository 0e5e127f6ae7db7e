/** Group chat: mentions, who answers and in what order.
  *
  * Lower-casing is a parameter.
  */
module GroupChat {
  import opened Prelude
  import opened Text

  const HISTORY_LIMIT: nat := 24

  datatype Member = Member(id: string, name: string)

  datatype Speaker = User | Person(id: string, name: string)

  datatype Message = Message(speaker: Speaker, content: string)

  // ---------------------------------------------------------------- speaking order

  /** Each round starts one responder later. */
  function Order(ids: seq<string>, round: int): seq<string> {
    if ids == [] then []
    else
      var offset := round % |ids|;
      ids[offset..] + ids[..offset]
  }

  /** The `i`-th to speak in a round is the responder `round` places on, cyclically. */
  lemma OrderRotates(ids: seq<string>, round: int, i: nat)
    requires i < |ids|
    ensures |Order(ids, round)| == |ids|
    ensures Order(ids, round)[i] == ids[(i + round) % |ids|]
  {
    var n := |ids|;
    var offset := round % n;
    if i < n - offset {
      QuotientIs(i + round, n, round / n, i + offset);
    } else {
      QuotientIs(i + round, n, round / n + 1, i + offset - n);
    }
  }

  /** Everyone who answers speaks once per round. */
  lemma OrderIsPermutation(ids: seq<string>, round: int)
    ensures multiset(Order(ids, round)) == multiset(ids)
  {
    if ids != [] {
      var offset := round % |ids|;
      assert ids == ids[..offset] + ids[offset..];
    }
  }

  // ---------------------------------------------------------------- mentions

  predicate IsWordChar(c: char) {
    'a' <= c <= 'z' || '0' <= c <= '9'
  }

  /** No letter or digit touches the `n` characters at `i`. */
  predicate Bounded(s: string, i: nat, n: nat) {
    !(1 <= i <= |s| && IsWordChar(s[i - 1])) && !(i + n < |s| && IsWordChar(s[i + n]))
  }

  ghost predicate Mentions(lower: string, handle: string) {
    exists i: nat :: IsAt(lower, "@" + handle, i) && Bounded(lower, i, |handle| + 1)
  }

  /** The ASCII codes of a lower-case letter or a digit. */
  predicate IsWordCode(n: int) {
    97 <= n <= 122 || 48 <= n <= 57
  }

  /** `l` is `before`, an `@`, the handle and `after`, with no letter or digit on either side. */
  predicate Holds(l: string, before: string, handle: string, after: string) {
    && l == before + "@" + handle + after
    && (before == "" || !IsWordCode(Last(before) as int))
    && (after == "" || !IsWordCode(after[0] as int))
  }

  lemma MentionHolds(l: string, handle: string, i: nat) returns (before: string, after: string)
    requires IsAt(l, "@" + handle, i) && Bounded(l, i, |handle| + 1)
    ensures Holds(l, before, handle, after)
  {
    var end := i + |handle| + 1;
    before, after := l[..i], l[end..];
    assert l == l[..i] + l[i..end] + l[end..];
  }

  lemma HeldIsMention(l: string, before: string, handle: string, after: string)
    requires Holds(l, before, handle, after)
    ensures IsAt(l, "@" + handle, |before|) && Bounded(l, |before|, |handle| + 1)
  {
    var end := |before| + |handle| + 1;
    assert l[|before|..end] == "@" + handle;
    assert end < |l| ==> l[end] == after[0];
    assert before != "" ==> l[|before| - 1] == Last(before);
  }

  /** A handle is mentioned iff it stands in the text behind an `@`, with no letter or digit on either
    * side. */
  lemma MentionsExactlyWhen(l: string, handle: string)
    ensures Mentions(l, handle) <==> exists before, after :: Holds(l, before, handle, after)
  {
    hide Holds, Bounded, IsAt;
    if i: nat :| IsAt(l, "@" + handle, i) && Bounded(l, i, |handle| + 1) {
      var before, after := MentionHolds(l, handle, i);
    }
    forall before, after | Holds(l, before, handle, after)
      ensures Mentions(l, handle)
    {
      HeldIsMention(l, before, handle, after);
    }
  }

  /** The scan finds a word-bounded mention exactly when there is one. */
  method HasMentionAt(lower: string, handle: string) returns (found: bool)
    ensures found <==> Mentions(lower, handle)
  {
    var needle := "@" + handle;
    var at := IndexOf(lower, needle, 0);
    ghost var seen: nat := 0;
    while at.Some?
      invariant at.Some? ==> seen <= at.value && IsAt(lower, needle, at.value)
      invariant at.Some? ==> forall i: nat :: seen <= i < at.value ==> !IsAt(lower, needle, i)
      invariant at.None? ==> forall i: nat :: seen <= i ==> !IsAt(lower, needle, i)
      invariant forall i: nat :: i < seen && IsAt(lower, needle, i) ==> !Bounded(lower, i, |needle|)
      decreases if at.Some? then |lower| - at.value + 1 else 0
    {
      var i := at.value;
      var before := i > 0 && IsWordChar(lower[i - 1]);
      var after := i + |needle| < |lower| && IsWordChar(lower[i + |needle|]);
      if !before && !after {
        return true;
      }
      at := IndexOf(lower, needle, i + 1);
      seen := i + 1;
    }
    found := false;
  }

  function FirstWord(s: string): string {
    if s == "" || IsSpace(s[0]) then "" else [s[0]] + FirstWord(s[1..])
  }

  function Unspaced(s: string): string {
    if s == "" then "" else if IsSpace(s[0]) then Unspaced(s[1..]) else [s[0]] + Unspaced(s[1..])
  }

  function Handles(name: string, lower: string -> string): seq<string> {
    var l := lower(Trim(name));
    if l == "" then []
    else if FirstWord(l) == "" then [l, Unspaced(l)]
    else [l, Unspaced(l), FirstWord(l)]
  }

  predicate NoSpace(s: string) {
    forall i :: 0 <= i < |s| ==> !IsSpace(s[i])
  }

  lemma {:induction false} UnspacedSplit(a: string, b: string)
    ensures Unspaced(a + b) == Unspaced(a) + Unspaced(b)
    decreases |a|
  {
    if a == "" {
      assert a + b == b;
    } else {
      assert (a + b)[1..] == a[1..] + b;
      UnspacedSplit(a[1..], b);
    }
  }

  lemma {:induction false} FirstWordIs(word: string, rest: string)
    requires NoSpace(word) && (rest == "" || IsSpace(rest[0]))
    ensures FirstWord(word + rest) == word
    decreases |word|
  {
    if word == "" {
      assert word + rest == rest;
    } else {
      assert (word + rest)[1..] == word[1..] + rest;
      FirstWordIs(word[1..], rest);
    }
  }

  lemma {:induction false} UnspacedIs(s: string)
    requires NoSpace(s)
    ensures Unspaced(s) == s
    decreases |s|
  {
    if s != "" {
      UnspacedIs(s[1..]);
    }
  }

  lemma {:induction false} UnspacedGap(s: string)
    requires AllSpace(s)
    ensures Unspaced(s) == ""
    decreases |s|
  {
    if s != "" {
      UnspacedGap(s[1..]);
    }
  }

  /** A member whose name reads, in lower case, `<word><gap><more>` is called by that, by it without the gap
    * and by its first word; one of a single word by that word. */
  lemma HandlesOfName(name: string, lower: string -> string, word: string, gap: string, more: string, h: string)
    requires lower(Trim(name)) == word + gap + more && word != "" && NoSpace(word)
    requires AllSpace(gap) && NoSpace(more) && (gap == "" ==> more == "")
    ensures h in Handles(name, lower) <==> h == word + gap + more || h == word + more || h == word
  {
    var l := word + gap + more;
    assert l == word + (gap + more);
    FirstWordIs(word, gap + more);
    UnspacedSplit(word + gap, more);
    UnspacedSplit(word, gap);
    UnspacedIs(word);
    UnspacedIs(more);
    UnspacedGap(gap);
    assert word + "" == word;
    assert FirstWord(l) == word && Unspaced(l) == word + more;
  }

  ghost predicate Mentioned(text: string, name: string, lower: string -> string) {
    exists h :: h in Handles(name, lower) && Mentions(lower(text), h)
  }

  predicate IsIdentChar(c: char) {
    IsWordChar(c) || 'A' <= c <= 'Z' || c == '_'
  }

  predicate EveryoneAt(l: string, word: string, i: nat) {
    && IsAt(l, "@" + word, i)
    && !(1 <= i <= |l| && IsWordChar(l[i - 1]))
    && !(i + |word| + 1 < |l| && IsIdentChar(l[i + |word| + 1]))
  }

  predicate IsEveryone(l: string) {
    exists i :: 0 <= i < |l| && (EveryoneAt(l, "everyone", i) || EveryoneAt(l, "all", i))
  }

  /** The ASCII codes of what may stand inside an identifier. */
  predicate IsIdentCode(n: int) {
    IsWordCode(n) || 65 <= n <= 90 || n == 95
  }

  /** `l` is `before`, an `@`, `word` and `after`, no letter or digit touches the `@` from before, and the
    * word ends there. */
  predicate Addresses(l: string, before: string, word: string, after: string) {
    && l == before + "@" + word + after
    && (before == "" || !IsWordCode(Last(before) as int))
    && (after == "" || !IsIdentCode(after[0] as int))
  }

  /** A text is for everyone iff it has `@everyone` or `@all` in it as a word of its own. */
  lemma IsEveryoneExactlyWhen(l: string)
    ensures IsEveryone(l) <==>
      exists before, word, after :: word in {"everyone", "all"} && Addresses(l, before, word, after)
  {
    hide EveryoneAt, Addresses;
    if i :| 0 <= i < |l| && (EveryoneAt(l, "everyone", i) || EveryoneAt(l, "all", i)) {
      var word := if EveryoneAt(l, "everyone", i) then "everyone" else "all";
      var before, after := WordAddresses(l, word, i);
    }
    forall before, word, after | word in {"everyone", "all"} && Addresses(l, before, word, after)
      ensures IsEveryone(l)
    {
      AddressedAt(l, before, word, after);
    }
  }

  lemma WordAddresses(l: string, word: string, i: nat) returns (before: string, after: string)
    requires EveryoneAt(l, word, i)
    ensures Addresses(l, before, word, after)
  {
    var end := i + |word| + 1;
    before, after := l[..i], l[end..];
    assert l[i..end] == "@" + word;
    assert l == l[..i] + l[i..end] + l[end..];
  }

  lemma AddressedAt(l: string, before: string, word: string, after: string)
    requires Addresses(l, before, word, after)
    ensures |before| < |l| && EveryoneAt(l, word, |before|)
  {
    var end := |before| + |word| + 1;
    assert l[|before|..end] == "@" + word;
    assert end < |l| ==> l[end] == after[0];
    assert before != "" ==> l[|before| - 1] == Last(before);
  }

  /** The mentioned members' ids, each once. */
  method ParseMentions(text: string, members: seq<Member>, lower: string -> string)
      returns (everyone: bool, ids: seq<string>)
    ensures everyone <==> IsEveryone(lower(text))
    ensures forall id :: id in ids <==> exists m :: m in members && m.id == id && Mentioned(text, m.name, lower)
    ensures forall i, j :: 0 <= i < j < |ids| ==> ids[i] != ids[j]
  {
    var l := lower(text);
    everyone := IsEveryone(l);
    ids := [];
    for k := 0 to |members|
      invariant forall id :: id in ids <==>
          exists i :: 0 <= i < k && members[i].id == id && Mentioned(text, members[i].name, lower)
      invariant forall i, j :: 0 <= i < j < |ids| ==> ids[i] != ids[j]
    {
      var m := members[k];
      if m.id in ids {
        continue;
      }
      var hs := Handles(m.name, lower);
      var hit := false;
      var h := 0;
      while h < |hs| && !hit
        invariant 0 <= h <= |hs|
        invariant !hit ==> forall i :: 0 <= i < h ==> !Mentions(l, hs[i])
        invariant hit ==> Mentioned(text, m.name, lower)
      {
        hit := HasMentionAt(l, hs[h]);
        h := h + 1;
      }
      assert hit <==> Mentioned(text, m.name, lower);
      if hit {
        ids := ids + [m.id];
      }
    }
  }

  // ---------------------------------------------------------------- responders

  /** The members whose id some mentioned member has. */
  ghost function Named(members: seq<Member>, all: seq<Member>, text: string, lower: string -> string): seq<Member> {
    if members == [] then []
    else
      var rest := Named(Front(members), all, text, lower);
      if SameIdMentioned(Last(members), all, text, lower) then rest + [Last(members)] else rest
  }

  ghost predicate SameIdMentioned(m: Member, all: seq<Member>, text: string, lower: string -> string) {
    exists o :: o in all && o.id == m.id && Mentioned(text, o.name, lower)
  }

  /** Who answers: the members the last message of a member mentions, everyone if it mentions
    * everyone or nobody. */
  ghost function Responders(members: seq<Member>, history: seq<Message>, lower: string -> string): seq<Member> {
    if history == [] || Last(history).speaker.User? then members
    else
      var text := Last(history).content;
      var named := Named(members, members, text, lower);
      if IsEveryone(lower(text)) || named == [] then members else named
  }

  lemma {:induction false} NamedAre(members: seq<Member>, all: seq<Member>, text: string, lower: string -> string)
    ensures forall m :: m in Named(members, all, text, lower) <==> m in members && SameIdMentioned(m, all, text, lower)
    ensures |Named(members, all, text, lower)| <= |members|
    ensures Distinct(members) ==> Distinct(Named(members, all, text, lower))
    decreases |members|
  {
    if members != [] {
      var rest := Named(Front(members), all, text, lower);
      NamedAre(Front(members), all, text, lower);
      assert members == Front(members) + [Last(members)];
      forall i | Distinct(members) && 0 <= i < |rest|
        ensures rest[i].id != Last(members).id
      {
        assert rest[i] in Front(members);
      }
    }
  }

  predicate Distinct(members: seq<Member>) {
    forall i, j :: 0 <= i < j < |members| ==> members[i].id != members[j].id
  }

  /** Somebody always answers, and only members do; a mention narrows the answer to exactly the
    * mentioned. */
  lemma RespondersAnswer(members: seq<Member>, history: seq<Message>, lower: string -> string)
    requires members != []
    ensures var rs := Responders(members, history, lower);
      && rs != [] && |rs| <= |members|
      && (forall m :: m in rs ==> m in members)
      && (Distinct(members) ==> Distinct(rs))
    ensures history != [] && Last(history).speaker.Person? && !IsEveryone(lower(Last(history).content)) ==>
      var rs, text := Responders(members, history, lower), Last(history).content;
      (exists m :: m in members && Mentioned(text, m.name, lower)) ==>
        forall m :: m in members ==> (m in rs <==> SameIdMentioned(m, members, text, lower))
    ensures
      var narrows := history != [] && Last(history).speaker.Person? && !IsEveryone(lower(Last(history).content)) &&
        exists m :: m in members && Mentioned(Last(history).content, m.name, lower);
      !narrows ==> Responders(members, history, lower) == members
  {
    if history != [] {
      var text := Last(history).content;
      NamedAre(members, members, text, lower);
      if m :| m in members && Mentioned(text, m.name, lower) {
        assert SameIdMentioned(m, members, text, lower);
      } else {
        NobodyNamed(members, members, text, lower);
      }
    }
  }

  /** `some` is what is left of `all` when all but the places `ks` are taken out. */
  ghost predicate PickedAt(all: seq<Member>, ks: seq<nat>, some: seq<Member>) {
    && |ks| == |some|
    && (forall i, j :: 0 <= i < j < |ks| ==> ks[i] < ks[j])
    && (forall i :: 0 <= i < |ks| ==> ks[i] < |all| && some[i] == all[ks[i]])
  }

  lemma PickedSnoc(all: seq<Member>, ks: seq<nat>, some: seq<Member>, m: Member)
    requires PickedAt(all, ks, some)
    ensures PickedAt(all + [m], ks, some) && PickedAt(all + [m], ks + [|all|], some + [m])
  {
  }

  lemma {:induction false} NamedInOrder(members: seq<Member>, all: seq<Member>, text: string, lower: string -> string)
      returns (ks: seq<nat>)
    ensures PickedAt(members, ks, Named(members, all, text, lower))
    decreases |members|
  {
    ks := [];
    if members != [] {
      hide PickedAt, SameIdMentioned;
      ks := NamedInOrder(Front(members), all, text, lower);
      PickedSnoc(Front(members), ks, Named(Front(members), all, text, lower), Last(members));
      assert Front(members) + [Last(members)] == members;
      if SameIdMentioned(Last(members), all, text, lower) {
        ks := ks + [|members| - 1];
      }
    }
  }

  /** They answer in the order of the members. */
  lemma RespondersKeepOrder(members: seq<Member>, history: seq<Message>, lower: string -> string)
      returns (ks: seq<nat>)
    ensures PickedAt(members, ks, Responders(members, history, lower))
  {
    if history != [] {
      ks := NamedInOrder(members, members, Last(history).content, lower);
    }
    if Responders(members, history, lower) == members {
      ks := seq(|members|, i => i);
    }
  }

  lemma {:induction false} NobodyNamed(members: seq<Member>, all: seq<Member>, text: string, lower: string -> string)
    requires forall m :: m in all ==> !Mentioned(text, m.name, lower)
    ensures Named(members, all, text, lower) == []
    decreases |members|
  {
    if members != [] {
      NobodyNamed(Front(members), all, text, lower);
    }
  }

  method SelectNamed(members: seq<Member>, text: string, lower: string -> string, ids: seq<string>)
      returns (rs: seq<Member>)
    requires forall m :: m in members ==> (m.id in ids <==> SameIdMentioned(m, members, text, lower))
    ensures rs == Named(members, members, text, lower)
  {
    rs := [];
    for i := 0 to |members|
      invariant rs == Named(members[..i], members, text, lower)
    {
      assert Front(members[..i + 1]) == members[..i] && Last(members[..i + 1]) == members[i];
      assert members[i] in members;
      if members[i].id in ids {
        rs := rs + [members[i]];
      }
    }
    assert members[..|members|] == members;
  }

  /** A list of the mentioned ids picks out the mentioned members. */
  lemma IdsPickTheNamed(members: seq<Member>, text: string, lower: string -> string, ids: seq<string>)
    requires forall id :: id in ids <==> exists m :: m in members && m.id == id && Mentioned(text, m.name, lower)
    ensures forall m :: m in members ==> (m.id in ids <==> SameIdMentioned(m, members, text, lower))
    ensures ids == [] <==> Named(members, members, text, lower) == []
  {
    if ids == [] {
      forall m | m in members
        ensures !Mentioned(text, m.name, lower)
      {
        assert m.id !in ids;
      }
      NobodyNamed(members, members, text, lower);
    } else {
      assert ids[0] in ids;
      var m :| m in members && m.id == ids[0] && Mentioned(text, m.name, lower);
      assert SameIdMentioned(m, members, text, lower);
      NamedAre(members, members, text, lower);
    }
  }

  method ResolveResponders(members: seq<Member>, history: seq<Message>, lower: string -> string)
      returns (rs: seq<Member>)
    ensures rs == Responders(members, history, lower)
  {
    if history == [] || Last(history).speaker.User? {
      return members;
    }
    var text := Last(history).content;
    var everyone, ids := ParseMentions(text, members, lower);
    if everyone {
      return members;
    }
    IdsPickTheNamed(members, text, lower, ids);
    if |ids| == 0 {
      return members;
    }
    rs := SelectNamed(members, text, lower, ids);
  }

  // ---------------------------------------------------------------- what a member has not seen

  predicate Spoke(m: Message, id: string) {
    m.speaker.Person? && m.speaker.id == id
  }

  /** The messages after the last one by member `id`. */
  function Since(history: seq<Message>, id: string): seq<Message> {
    if history == [] || Spoke(Last(history), id) then []
    else Since(Front(history), id) + [Last(history)]
  }

  /** They are the longest end of the history in which the member does not speak. */
  lemma {:induction false} SinceIsLongest(history: seq<Message>, id: string)
    ensures var t := Since(history, id);
      && |t| <= |history| && t == history[|history| - |t|..]
      && (forall m :: m in t ==> m.speaker.User? || m.speaker.id != id)
      && (|t| < |history| ==>
            var last := history[|history| - |t| - 1]; last.speaker.Person? && last.speaker.id == id)
    decreases |history|
  {
    if history != [] && !Spoke(Last(history), id) {
      SinceIsLongest(Front(history), id);
    }
  }

  /** What a shared room shows. */
  function Recent(history: seq<Message>): (r: seq<Message>)
    ensures |history| <= HISTORY_LIMIT ==> r == history
    ensures |r| <= HISTORY_LIMIT && r == history[|history| - |r|..]
  {
    if |history| > HISTORY_LIMIT then history[|history| - HISTORY_LIMIT..] else history
  }

  method MessagesSince(history: seq<Message>, id: string) returns (news: seq<Message>)
    ensures news == Since(history, id)
  {
    var i := |history|;
    assert history[..i] == history && history[i..] == [];
    while i > 0 && !Spoke(history[i - 1], id)
      invariant 0 <= i <= |history|
      invariant Since(history, id) == Since(history[..i], id) + history[i..]
    {
      i := i - 1;
      assert Front(history[..i + 1]) == history[..i];
      assert [history[i]] + history[i + 1..] == history[i..];
    }
    news := history[i..];
  }
}
