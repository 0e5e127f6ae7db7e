/** Transcript entry ids and the append-only log they are stored in.
  *
  * Numerals in ids are read as the language's numbers: integers from 2^53 on are rounded to a
  * multiple of a power of two. How the language prints a number is a parameter. Writes are
  * sequential, the file is one string, and JSON is a parameter as in the event stream.
  */
module Transcript {
  import opened Prelude
  import opened Text

  // ---------------------------------------------------------------- numbers

  const SAFE: nat := 9007199254740992

  /** The gap between neighbouring doubles around `n`. */
  function Gap(n: nat): (u: nat)
    ensures u > 0
    ensures n < SAFE ==> u == 1
  {
    if n < SAFE then 1 else 2 * Gap(n / 2)
  }

  /** The double nearest to `n`, ties to even. */
  function Double(n: nat): nat {
    var u := Gap(n);
    var q, r := n / u, n % u;
    if 2 * r > u || (2 * r == u && q % 2 == 1) then (q + 1) * u else q * u
  }

  lemma Multiple(k: nat, u: nat)
    requires u > 0
    ensures (k * u) % u == 0
  {
    QuotientIs(k * u, u, k, 0);
  }

  /** Halving a number that is not small halves its gap. */
  lemma {:induction false} GapRange(n: nat)
    requires n >= SAFE
    ensures SAFE / 2 <= n / Gap(n) < SAFE
    decreases n
  {
    var u := Gap(n / 2);
    if n / 2 >= SAFE {
      GapRange(n / 2);
    }
    assert n / (2 * u) == n / 2 / u by {
      DivideTwice(n, u);
    }
  }

  lemma DivideTwice(n: nat, u: nat)
    requires u > 0
    ensures n / (2 * u) == n / 2 / u
  {
    var q, r := n / 2 / u, n / 2 % u;
    var low := 2 * r + n % 2;
    assert n == q * (2 * u) + low && 0 <= low < 2 * u;
    QuotientIs(n, 2 * u, q, low);
  }

  lemma {:induction false} GapOfMultiple(n: nat, k: nat)
    requires SAFE / 2 <= k < SAFE
    ensures Gap(k * Gap(n)) == Gap(n)
    decreases n
  {
    if n >= SAFE {
      var u := Gap(n / 2);
      GapOfMultiple(n / 2, k);
      HalfOfDouble(k, u);
      assert k * (2 * u) >= SAFE;
    }
  }

  lemma {:induction false} GapAtTop(n: nat)
    ensures Gap(SAFE * Gap(n)) == 2 * Gap(n)
    decreases n
  {
    if n < SAFE {
      assert Gap(SAFE) == 2 * Gap(SAFE / 2) == 2;
    } else {
      var u := Gap(n / 2);
      GapAtTop(n / 2);
      HalfOfDouble(SAFE, u);
      assert SAFE * (2 * u) >= SAFE;
    }
  }

  lemma HalfOfDouble(k: nat, u: nat)
    ensures k * (2 * u) / 2 == k * u
  {
    assert k * (2 * u) == 2 * (k * u);
  }

  lemma OnTheGrid(d: nat)
    requires d % Gap(d) == 0
    ensures Double(d) == d
  {
  }

  lemma GridOfDouble(d: nat)
    requires Double(d) == d
    ensures d % Gap(d) == 0
  {
    var u := Gap(d);
    var q, r := d / u, d % u;
    assert d == q * u + r;
    assert (q + 1) * u == q * u + u;
  }

  /** Reading a number that was read changes nothing. */
  lemma DoubleIsStable(n: nat)
    ensures Double(Double(n)) == Double(n)
  {
    if n >= SAFE {
      var u := Gap(n);
      var k := if Double(n) == n / u * u then n / u else n / u + 1;
      GapRange(n);
      assert Double(n) == k * u;
      if k < SAFE {
        GapOfMultiple(n, k);
        Multiple(k, u);
      } else {
        GapAtTop(n);
        assert SAFE * u == SAFE / 2 * (2 * u);
        Multiple(SAFE / 2, 2 * u);
      }
      OnTheGrid(Double(n));
    }
  }

  /** Adding one to `m` gives a larger number: below 2^53 always, from there to 2^54, where the
    * gap is two, for every other number, and above that never. */
  predicate Grows(m: nat) {
    m < SAFE || (m < 2 * SAFE && m % 4 == 2)
  }

  lemma GapStays(m: nat)
    requires m >= SAFE && m % 2 == 0
    ensures Gap(m + 1) == Gap(m) && Gap(m) % 2 == 0
    ensures m < 2 * SAFE ==> Gap(m) == 2
    ensures m >= 2 * SAFE ==> Gap(m) >= 4
  {
    assert (m + 1) / 2 == m / 2;
  }

  lemma GridIsEven(m: nat)
    requires m >= SAFE && m % Gap(m) == 0
    ensures m % 2 == 0
  {
    var u := Gap(m / 2);
    assert m == m / (2 * u) * (2 * u);
    HalfOfDouble(m / (2 * u), u);
    assert m == 2 * (m / (2 * u) * u);
  }

  /** When adding one makes a difference, and that it makes none otherwise. */
  lemma NextGrowsExactlyWhen(m: nat)
    requires Double(m) == m
    ensures Double(m + 1) > m <==> Grows(m)
    ensures !Grows(m) ==> Double(m + 1) == m
    ensures Double(m + 1) <= m + 2
  {
    if m >= SAFE {
      GridOfDouble(m);
      GridIsEven(m);
      GapStays(m);
      var u := Gap(m);
      QuotientIs(m + 1, u, m / u, 1);
      assert m / u * u == m && (m / u + 1) * u == m + u;
    }
  }

  predicate IsDigit(c: char) {
    '0' <= c <= '9'
  }

  predicate AllDigits(s: string) {
    forall i :: 0 <= i < |s| ==> IsDigit(s[i])
  }

  function Value(s: string): nat
    requires AllDigits(s)
  {
    if s == [] then 0 else 10 * Value(Front(s)) + (Last(s) as int - '0' as int)
  }

  function Decimal(n: nat): (s: string)
    ensures s != [] && AllDigits(s)
  {
    var d := [('0' as int + n % 10) as char];
    if n < 10 then d else Decimal(n / 10) + d
  }

  lemma {:induction false} ValueOfDecimal(n: nat)
    ensures Value(Decimal(n)) == n
    decreases n
  {
    var d := ('0' as int + n % 10) as char;
    if n < 10 {
      assert Front([d]) == [];
    } else {
      ValueOfDecimal(n / 10);
      assert Front(Decimal(n / 10) + [d]) == Decimal(n / 10);
    }
  }

  // ---------------------------------------------------------------- ids

  function DigitRun(s: string): (k: nat)
    ensures k <= |s| && AllDigits(s[..k]) && (k < |s| ==> !IsDigit(s[k]))
  {
    if s == [] || !IsDigit(s[0]) then 0 else 1 + DigitRun(s[1..])
  }

  /** The number of the turn in an id `t<turn>...`, or 0. */
  function ParseTurn(id: string): nat {
    if id == "" || id[0] != 't' then 0
    else
      var k := DigitRun(id[1..]);
      if k == 0 then 0 else Double(Value(id[1..][..k]))
  }

  predicate IsKindLetter(c: char) {
    c == 'u' || c == 's' || c == 'n' || c == 'a'
  }

  /** The sequence number in an id `t<turn><letter><seq>`, if it has that form. */
  function ParseSeq(id: string): Option<nat> {
    if id == "" || id[0] != 't' then None
    else
      var body := id[1..];
      var k := DigitRun(body);
      if k == 0 || k == |body| || !IsKindLetter(body[k]) then None
      else
        var tail := body[k + 1..];
        if tail == "" || DigitRun(tail) < |tail| then None else Some(Double(Value(tail)))
  }

  datatype EntryKind = UserMessage | AssistantMessage | Attachment | Notice

  function Letter(k: EntryKind): char {
    match k case UserMessage => 'u' case Attachment => 'a' case _ => 's'
  }

  /** Whole numbers below this are printed as digits alone. */
  const PLAIN: nat := 1000000000000000000000

  /** `show` prints `n` as digits that are read as `n` again. */
  predicate Readable(show: nat -> string, n: nat) {
    show(n) != "" && AllDigits(show(n)) && Double(Value(show(n))) == n
  }

  /** All that is asked of printing: below 10^21 every number is readable. From there on it prints
    * an exponent or `Infinity`. */
  ghost predicate Prints(show: nat -> string) {
    forall n: nat :: n < PLAIN && Double(n) == n ==> Readable(show, n)
  }

  function MakeId(show: nat -> string, turn: nat, letter: char, n: nat): string {
    ['t'] + show(turn) + [letter] + show(n)
  }

  /** Printing a number's own digits is one such way. */
  lemma DecimalPrints()
    ensures Prints((n: nat) => Decimal(n))
  {
    forall n: nat | n < PLAIN && Double(n) == n
      ensures Readable((m: nat) => Decimal(m), n)
    {
      ValueOfDecimal(n);
    }
  }

  /** The highest sequence number of the given turn. */
  function MaxSeq(ids: seq<string>, turn: nat): nat {
    if ids == [] then 0
    else
      var m := MaxSeq(Front(ids), turn);
      var p := ParseSeq(Last(ids));
      if ParseTurn(Last(ids)) == turn && p.Some? && p.value > m then p.value else m
  }

  function CurrentTurn(ids: seq<string>): nat {
    if ids == [] then 0 else ParseTurn(Last(ids))
  }

  function NextEntryId(ids: seq<string>, kind: EntryKind, show: nat -> string): string {
    var turn := CurrentTurn(ids);
    MakeId(show, turn, Letter(kind), Double(MaxSeq(ids, turn) + 1))
  }

  method FindNextEntryId(ids: seq<string>, kind: EntryKind, show: nat -> string) returns (id: string)
    ensures id == NextEntryId(ids, kind, show)
  {
    var turn := if |ids| > 0 then ParseTurn(ids[|ids| - 1]) else 0;
    var n := 0;
    for i := 0 to |ids|
      invariant n == MaxSeq(ids[..i], turn)
    {
      assert Front(ids[..i + 1]) == ids[..i] && Last(ids[..i + 1]) == ids[i];
      if ParseTurn(ids[i]) == turn {
        var p := ParseSeq(ids[i]);
        if p.Some? {
          n := if p.value > n then p.value else n;
        }
      }
    }
    assert ids[..|ids|] == ids;
    var prefix := if kind.UserMessage? then 'u' else if kind.Attachment? then 'a' else 's';
    id := ['t'] + show(turn) + [prefix] + show(Double(n + 1));
  }

  lemma {:induction false} DigitRunOf(digits: string, rest: string)
    requires AllDigits(digits) && (rest == "" || !IsDigit(rest[0]))
    ensures DigitRun(digits + rest) == |digits|
    decreases |digits|
  {
    if digits == [] {
      assert digits + rest == rest;
    } else {
      assert (digits + rest)[1..] == digits[1..] + rest;
      DigitRunOf(digits[1..], rest);
    }
  }

  /** Reading back a made id. */
  lemma ParseMade(show: nat -> string, turn: nat, letter: char, n: nat)
    requires IsKindLetter(letter) && Readable(show, turn)
    ensures ParseTurn(MakeId(show, turn, letter, n)) == turn
    ensures Readable(show, n) ==> ParseSeq(MakeId(show, turn, letter, n)) == Some(n)
  {
    var id := MakeId(show, turn, letter, n);
    var digits, tail := show(turn), show(n);
    var body := digits + ([letter] + tail);
    assert id[1..] == body;
    assert !IsDigit(letter);
    DigitRunOf(digits, [letter] + tail);
    assert body[..|digits|] == digits && body[|digits| + 1..] == tail && body[|digits|] == letter;
    if Readable(show, n) {
      DigitRunOf(tail, "");
      assert tail + "" == tail;
    }
  }

  /** What is read from an id reads as itself. */
  lemma ParsedIsStable(id: string)
    ensures Double(ParseTurn(id)) == ParseTurn(id)
    ensures ParseSeq(id).Some? ==> Double(ParseSeq(id).value) == ParseSeq(id).value
  {
    if id != "" && id[0] == 't' {
      var body := id[1..];
      var k := DigitRun(body);
      DoubleIsStable(Value(body[..k]));
      if k < |body| && DigitRun(body[k + 1..]) == |body[k + 1..]| {
        DoubleIsStable(Value(body[k + 1..]));
      }
    }
  }

  lemma {:induction false} MaxSeqBounds(ids: seq<string>, turn: nat)
    ensures forall id :: id in ids && ParseTurn(id) == turn && ParseSeq(id).Some? ==>
        ParseSeq(id).value <= MaxSeq(ids, turn)
    ensures MaxSeq(ids, turn) > 0 ==>
      exists id :: id in ids && ParseTurn(id) == turn && ParseSeq(id) == Some(MaxSeq(ids, turn))
    decreases |ids|
  {
    if ids != [] {
      MaxSeqBounds(Front(ids), turn);
      assert ids == Front(ids) + [Last(ids)];
      if MaxSeq(ids, turn) != MaxSeq(Front(ids), turn) {
        assert Last(ids) in ids;
      } else if MaxSeq(ids, turn) > 0 {
        var id :| id in Front(ids) && ParseTurn(id) == turn && ParseSeq(id) == Some(MaxSeq(ids, turn));
        assert id in ids;
      }
    }
  }

  lemma MaxIsStable(ids: seq<string>, turn: nat)
    ensures Double(MaxSeq(ids, turn)) == MaxSeq(ids, turn)
  {
    MaxSeqBounds(ids, turn);
    if MaxSeq(ids, turn) > 0 {
      var id :| id in ids && ParseTurn(id) == turn && ParseSeq(id) == Some(MaxSeq(ids, turn));
      ParsedIsStable(id);
    }
  }

  /** `n` is the highest number in use in the given turn, 0 if none is. */
  ghost predicate IsHighest(ids: seq<string>, turn: nat, n: nat) {
    && (forall id :: id in ids && ParseTurn(id) == turn && ParseSeq(id).Some? ==> ParseSeq(id).value <= n)
    && (n > 0 ==> exists id :: id in ids && ParseTurn(id) == turn && ParseSeq(id) == Some(n))
  }

  /** The next id is in the turn of the last one, or in turn 0, carries the letter of its kind, and the
    * number after the turn's highest. */
  lemma NextIdFollowsHighest(ids: seq<string>, kind: EntryKind, show: nat -> string, n: nat)
    requires IsHighest(ids, if ids == [] then 0 else ParseTurn(Last(ids)), n) && n < 0x20_0000_0000_0000
    ensures
      var turn := if ids == [] then 0 else ParseTurn(Last(ids));
      var letter := if kind == UserMessage then "u" else if kind == Attachment then "a" else "s";
      NextEntryId(ids, kind, show) == "t" + show(turn) + letter + show(n + 1)
  {
    hide ParseTurn, ParseSeq, Double;
    var turn := CurrentTurn(ids);
    var m := MaxSeq(ids, turn);
    MaxSeqBounds(ids, turn);
    assert m == n;
    assert Double(n + 1) == n + 1 by {
      OnTheGridBelow(n);
    }
  }

  lemma OnTheGridBelow(n: nat)
    requires n < SAFE
    ensures Double(n + 1) == n + 1
  {
    if n + 1 == SAFE {
      assert Gap(SAFE) == 2;
    }
    OnTheGrid(n + 1);
  }

  /** An id of the form `t<a><letter><b>` with numerals `a` and `b`. */
  predicate HasForm(id: string, a: string, letter: char, b: string) {
    && a != "" && AllDigits(a) && b != "" && AllDigits(b) && letter in {'u', 's', 'n', 'a'}
    && id == "t" + a + [letter] + b
  }

  /** A sequence number is read from exactly the ids of that form, and it is that of the last numeral. */
  lemma SeqIsReadExactlyWhen(id: string, n: nat)
    ensures ParseSeq(id) == Some(n) <==>
      exists a, letter, b :: HasForm(id, a, letter, b) && n == Double(Value(b))
  {
    if ParseSeq(id) == Some(n) {
      var body := id[1..];
      var k := DigitRun(body);
      var a, letter, b := body[..k], body[k], body[k + 1..];
      assert b[..|b|] == b;
      assert id == "t" + body && body == a + [letter] + b;
      assert HasForm(id, a, letter, b);
    }
    forall a, letter, b | HasForm(id, a, letter, b)
      ensures ParseSeq(id) == Some(Double(Value(b)))
    {
      FormIsRead(id, a, letter, b);
    }
  }

  lemma FormIsRead(id: string, a: string, letter: char, b: string)
    requires HasForm(id, a, letter, b)
    ensures ParseSeq(id) == Some(Double(Value(b)))
  {
    var body := a + ([letter] + b);
    assert id[1..] == body;
    assert !IsDigit(letter);
    DigitRunOf(a, [letter] + b);
    assert body[|a|] == letter && body[|a| + 1..] == b;
    DigitRunOf(b, "");
    assert b + "" == b;
  }

  /** The turn is that of the longest numeral behind the `t`; it is 0 where there is none. */
  lemma TurnIsRead(id: string, a: string, rest: string)
    requires AllDigits(a) && (rest == "" || !IsDigit(rest[0]))
    ensures id == "t" + a + rest && a != "" ==> ParseTurn(id) == Double(Value(a))
    ensures id == "t" + rest || (id != "" && id[0] != 't') || id == "" ==> ParseTurn(id) == 0
  {
    DigitRunOf(a, rest);
    DigitRunOf("", rest);
    assert "" + rest == rest;
    if id == "t" + a + rest {
      assert id[1..] == a + rest && (a + rest)[..|a|] == a;
    } else if id == "t" + rest {
      assert id[1..] == rest;
    }
  }

  /** The id that carries the highest number of the current turn. */
  function LastId(ids: seq<string>, kind: EntryKind, show: nat -> string): string {
    MakeId(show, CurrentTurn(ids), Letter(kind), MaxSeq(ids, CurrentTurn(ids)))
  }

  /** For arbitrary existing ids, well-formed or not and with numerals of any size: the new id is
    * fresh exactly when adding one to the turn's highest number makes a difference, or the list
    * does not already hold an id of this kind with that number. */
  lemma FreshExactlyWhen(ids: seq<string>, kind: EntryKind, show: nat -> string)
    requires Prints(show) && Readable(show, CurrentTurn(ids))
    ensures NextEntryId(ids, kind, show) !in ids <==>
      Grows(MaxSeq(ids, CurrentTurn(ids))) || LastId(ids, kind, show) !in ids
  {
    hide Double, ParseTurn, ParseSeq, MaxSeq;
    var m := MaxSeq(ids, CurrentTurn(ids));
    MaxIsStable(ids, CurrentTurn(ids));
    NextGrowsExactlyWhen(m);
    if Grows(m) {
      GrowingIsFresh(ids, kind, show);
    }
  }

  lemma GrowingIsFresh(ids: seq<string>, kind: EntryKind, show: nat -> string)
    requires Prints(show) && Readable(show, CurrentTurn(ids)) && Grows(MaxSeq(ids, CurrentTurn(ids)))
    ensures NextEntryId(ids, kind, show) !in ids
  {
    hide Double, Gap, ParseTurn, ParseSeq, MaxSeq;
    var turn := CurrentTurn(ids);
    var m := MaxSeq(ids, turn);
    MaxIsStable(ids, turn);
    NextGrowsExactlyWhen(m);
    DoubleIsStable(m + 1);
    assert Readable(show, Double(m + 1));
    ParseMade(show, turn, Letter(kind), Double(m + 1));
    MaxSeqBounds(ids, turn);
  }

  /** Below 2^53 there is no exception. */
  lemma FreshBelowSafe(ids: seq<string>, kind: EntryKind, show: nat -> string)
    requires Prints(show) && CurrentTurn(ids) < PLAIN
    requires forall id :: id in ids && ParseSeq(id).Some? ==> ParseSeq(id).value < SAFE
    ensures NextEntryId(ids, kind, show) !in ids
  {
    TurnIsStable(ids);
    MaxSeqBounds(ids, CurrentTurn(ids));
    FreshExactlyWhen(ids, kind, show);
  }

  lemma TurnIsStable(ids: seq<string>)
    ensures Double(CurrentTurn(ids)) == CurrentTurn(ids)
  {
    if ids != [] {
      ParsedIsStable(Last(ids));
    }
  }

  /** A list of one made id hands that same id out again when adding one changes nothing. */
  lemma OneExhaustedId(turn: nat, n: nat, show: nat -> string)
    requires Readable(show, turn) && Readable(show, n) && Double(n + 1) == n
    ensures var id := MakeId(show, turn, 'u', n); NextEntryId([id], UserMessage, show) == id
  {
    var id := MakeId(show, turn, 'u', n);
    ParseMade(show, turn, 'u', n);
    assert Front([id]) == [] && Last([id]) == id;
    assert MaxSeq([], turn) == 0;
    assert MaxSeq([id], turn) == n;
  }

  /** The exception is real: at 2^53 adding one changes nothing. */
  lemma FreshnessFailsAtSafe(show: nat -> string) returns (ids: seq<string>)
    requires Prints(show)
    ensures ids == [MakeId(show, 0, 'u', 0x20_0000_0000_0000)] && NextEntryId(ids, UserMessage, show) in ids
  {
    var turn, n: nat := 0, SAFE;
    NextGrowsExactlyWhen(n);
    OneExhaustedId(turn, n, show);
    ids := [MakeId(show, turn, 'u', n)];
  }

  // What a turn that does not print readably does: from 10^21 on numbers print with an exponent.

  predicate Counted(id: string, turn: nat) {
    ParseTurn(id) == turn && ParseSeq(id).Some?
  }

  lemma {:induction false} DigitRunStops(s: string, rest: string)
    requires !AllDigits(s)
    ensures DigitRun(s + rest) < |s|
    decreases |s|
  {
    if IsDigit(s[0]) {
      assert (s + rest)[1..] == s[1..] + rest;
      assert s == [s[0]] + s[1..];
      DigitRunStops(s[1..], rest);
    }
  }

  /** An id made for such a turn does not count for it. */
  lemma UnreadableIsNotCounted(show: nat -> string, turn: nat, letter: char, n: nat)
    requires IsKindLetter(letter) && !Readable(show, turn)
    ensures !Counted(MakeId(show, turn, letter, n), turn)
  {
    var id := MakeId(show, turn, letter, n);
    var digits, rest := show(turn), [letter] + show(n);
    var body := digits + rest;
    assert id[1..] == body;
    assert !IsDigit(letter);
    if AllDigits(digits) {
      DigitRunOf(digits, rest);
      assert body[..|digits|] == digits;
    } else {
      DigitRunStops(digits, rest);
      var k := DigitRun(body);
      var tail := body[k + 1..];
      assert tail[|digits| - k - 1] == letter;
    }
  }

  /** The list ends in `id`, and the numbers of its turn are below 2^53. */
  ghost predicate EndsBelowSafe(ids: seq<string>, id: string) {
    && ids != [] && Last(ids) == id
    && forall x :: x in ids && Counted(x, ParseTurn(id)) ==> ParseSeq(x).value < SAFE
  }

  /** For the lists that end in a given id and whose turn has room, freshness can be relied on exactly
    * when that id's turn prints readably, which it does below 10^21. */
  lemma FreshExactlyForReadableTurns(id: string, kind: EntryKind, show: nat -> string)
    requires Prints(show) && (ParseSeq(id).Some? ==> ParseSeq(id).value < SAFE)
    ensures (forall ids :: EndsBelowSafe(ids, id) ==> NextEntryId(ids, kind, show) !in ids)
      <==> Readable(show, ParseTurn(id))
  {
    hide ParseTurn, ParseSeq, Double, MaxSeq, MakeId;
    var turn := ParseTurn(id);
    if Readable(show, turn) {
      forall ids | EndsBelowSafe(ids, id)
        ensures NextEntryId(ids, kind, show) !in ids
      {
        MaxSeqBounds(ids, turn);
        FreshExactlyWhen(ids, kind, show);
      }
    } else {
      var next := NextEntryId([id], kind, show);
      UnreadableIsNotCounted(show, turn, Letter(kind), Double(MaxSeq([id], turn) + 1));
      UncountedIsRepeated(id, next, kind, show);
      assert EndsBelowSafe([next, id], id);
    }
  }

  /** An id that does not count for the turn it was made for is made again. */
  lemma UncountedIsRepeated(id: string, next: string, kind: EntryKind, show: nat -> string)
    requires next == NextEntryId([id], kind, show) && !Counted(next, ParseTurn(id))
    ensures NextEntryId([next, id], kind, show) == next
  {
    hide ParseTurn, ParseSeq, Double, MakeId;
    var turn := ParseTurn(id);
    assert Front([next, id]) == [next] && Front([next]) == [] && Front([id]) == [];
    assert MaxSeq([next], turn) == MaxSeq([], turn) == 0;
    assert MaxSeq([next, id], turn) == MaxSeq([id], turn);
  }

  // ---------------------------------------------------------------- the log

  ghost predicate GoodCodec<E(!new)>(encode: E -> string, decode: string -> Option<E>) {
    forall e: E :: Tight(encode(e)) && '\n' !in encode(e) && decode(encode(e)) == Some(e)
  }

  /** The entries a line yields: none if it is blank or corrupt. */
  function FromLine<E>(line: string, decode: string -> Option<E>): seq<E> {
    var trimmed := Trim(line);
    if trimmed == "" then [] else match decode(trimmed) { case None => [] case Some(e) => [e] }
  }

  function FromLines<E>(lines: seq<string>, decode: string -> Option<E>): seq<E> {
    if lines == [] then [] else FromLine(lines[0], decode) + FromLines(lines[1..], decode)
  }

  /** What `load` reads from a file. */
  function Loaded<E>(file: string, decode: string -> Option<E>): seq<E> {
    FromLines(Split(file, '\n'), decode)
  }

  function Encoded<E>(es: seq<E>, encode: E -> string): seq<string> {
    seq(|es|, i requires 0 <= i < |es| => encode(es[i]))
  }

  function Lines<E>(es: seq<E>, encode: E -> string): string {
    Join(Encoded(es, encode), "\n") + "\n"
  }

  datatype Op<E> = Append(entry: E) | AppendMany(entries: seq<E>) | Delete(id: string) | Clear

  datatype Store<E> = Store(entries: seq<E>, file: string)

  /** The list without its first entry that has the given id. */
  function RemoveFirst<E>(es: seq<E>, id: string, idOf: E -> string): seq<E> {
    if es == [] then []
    else if idOf(es[0]) == id then es[1..]
    else [es[0]] + RemoveFirst(es[1..], id, idOf)
  }

  predicate HasId<E>(es: seq<E>, id: string, idOf: E -> string) {
    exists i :: 0 <= i < |es| && idOf(es[i]) == id
  }

  function Apply<E>(s: Store<E>, op: Op<E>, encode: E -> string, idOf: E -> string): Store<E> {
    match op
    case Append(e) => Store(s.entries + [e], s.file + encode(e) + "\n")
    case AppendMany(es) => Store(s.entries + es, s.file + Lines(es, encode))
    case Delete(id) =>
      if !HasId(s.entries, id, idOf) then s
      else var rest := RemoveFirst(s.entries, id, idOf); Store(rest, Lines(rest, encode))
    case Clear => Store([], Lines<E>([], encode))
  }

  function Run<E>(s: Store<E>, ops: seq<Op<E>>, encode: E -> string, idOf: E -> string): Store<E>
    decreases |ops|
  {
    if ops == [] then s else Run(Apply(s, ops[0], encode, idOf), ops[1..], encode, idOf)
  }

  lemma {:induction false} FromLinesConcat<E>(a: seq<string>, b: seq<string>, decode: string -> Option<E>)
    ensures FromLines(a + b, decode) == FromLines(a, decode) + FromLines(b, decode)
    decreases |a|
  {
    if a == [] {
      assert a + b == b;
    } else {
      assert (a + b)[1..] == a[1..] + b;
      FromLinesConcat(a[1..], b, decode);
    }
  }

  lemma LoadedBlank<E>(decode: string -> Option<E>)
    ensures Loaded("", decode) == []
  {
    assert Split("", '\n') == [""];
  }

  /** Loading a file that is empty or ends a line reads its parts one after the other. */
  lemma LoadedConcat<E>(file: string, more: string, decode: string -> Option<E>)
    requires file == "" || Last(file) == '\n'
    ensures Loaded(file + more, decode) == Loaded(file, decode) + Loaded(more, decode)
  {
    hide Split, FromLines, FromLine;
    if file == "" {
      assert file + more == more;
      LoadedBlank(decode);
    } else {
      var f := Front(file);
      assert file == f + "\n" + "" && file + more == f + "\n" + more;
      LoadedAfterLine(f, "", decode);
      LoadedAfterLine(f, more, decode);
      LoadedBlank(decode);
    }
  }

  lemma LoadedAfterLine<E>(f: string, more: string, decode: string -> Option<E>)
    ensures Loaded(f + "\n" + more, decode) == FromLines(Split(f, '\n'), decode) + Loaded(more, decode)
  {
    SplitConcat(f, more);
    FromLinesConcat(Split(f, '\n'), Split(more, '\n'), decode);
  }

  lemma OneLine<E(!new)>(e: E, encode: E -> string, decode: string -> Option<E>)
    requires GoodCodec(encode, decode)
    ensures Loaded(encode(e) + "\n", decode) == [e]
  {
    var line := encode(e);
    assert line + "\n" == line + "\n" + "";
    SplitConcat(line, "");
    SplitWithout(line, '\n');
    TrimTight(line);
    LoadedBlank(decode);
    FromLinesConcat([line], Split("", '\n'), decode);
    assert FromLines([line], decode) == [e] + FromLines([], decode);
  }

  lemma {:induction false} ManyLines<E(!new)>(es: seq<E>, encode: E -> string, decode: string -> Option<E>)
    requires GoodCodec(encode, decode)
    ensures Loaded(Lines(es, encode), decode) == es
    ensures Last(Lines(es, encode)) == '\n'
    decreases |es|
  {
    var all := Encoded(es, encode);
    if es == [] {
      assert Lines(es, encode) == "" + "\n" + "";
      SplitConcat("", "");
      LoadedBlank(decode);
      FromLinesConcat(Split("", '\n'), Split("", '\n'), decode);
    } else if |es| == 1 {
      OneLine(es[0], encode, decode);
      assert all == [encode(es[0])];
    } else {
      ManyLines(es[1..], encode, decode);
      OneLine(es[0], encode, decode);
      assert all[1..] == Encoded(es[1..], encode);
      var head := encode(es[0]) + "\n";
      assert Lines(es, encode) == head + Lines(es[1..], encode);
      LoadedConcat(head, Lines(es[1..], encode), decode);
    }
  }

  ghost predicate Faithful<E>(s: Store<E>, decode: string -> Option<E>) {
    Loaded(s.file, decode) == s.entries && (s.file == "" || Last(s.file) == '\n')
  }

  lemma FaithfulStep<E(!new)>(s: Store<E>, op: Op<E>, encode: E -> string, idOf: E -> string,
      decode: string -> Option<E>)
    requires GoodCodec(encode, decode) && Faithful(s, decode)
    ensures Faithful(Apply(s, op, encode, idOf), decode)
  {
    match op
    case Append(e) =>
      assert s.file + encode(e) + "\n" == s.file + (encode(e) + "\n");
      LoadedConcat(s.file, encode(e) + "\n", decode);
      OneLine(e, encode, decode);
    case AppendMany(es) =>
      LoadedConcat(s.file, Lines(es, encode), decode);
      ManyLines(es, encode, decode);
    case Delete(id) => ManyLines(RemoveFirst(s.entries, id, idOf), encode, decode);
    case Clear => ManyLines<E>([], encode, decode);
  }

  /** After any completed sequence of appends, batch appends, deletions and clears, loading the
    * file gives exactly the entries in memory. */
  lemma {:induction false} LoadRestoresMemory<E(!new)>(s: Store<E>, ops: seq<Op<E>>, encode: E -> string,
      idOf: E -> string, decode: string -> Option<E>)
    requires GoodCodec(encode, decode) && Faithful(s, decode)
    ensures var r := Run(s, ops, encode, idOf); Loaded(r.file, decode) == r.entries && Faithful(r, decode)
    decreases |ops|
  {
    if ops != [] {
      FaithfulStep(s, ops[0], encode, idOf, decode);
      LoadRestoresMemory(Apply(s, ops[0], encode, idOf), ops[1..], encode, idOf, decode);
    }
  }

  // ---------------------------------------------------------------- what the operations do

  /** `i` is the place of the first entry with the given id. */
  ghost predicate FirstWithId<E>(es: seq<E>, id: string, idOf: E -> string, i: nat) {
    i < |es| && idOf(es[i]) == id && forall j :: 0 <= j < i ==> idOf(es[j]) != id
  }

  /** What an operation makes of the entries that a load would find: an append adds at the end, a
    * delete takes out the first entry with that id and nothing else, after a clear nothing is left. */
  ghost predicate Effect<E(!new)>(before: seq<E>, op: Op<E>, after: seq<E>, idOf: E -> string) {
    match op
    case Append(e) => after == before + [e]
    case AppendMany(es) => after == before + es
    case Delete(id) =>
      if exists i: nat :: FirstWithId(before, id, idOf, i) then
        exists i: nat :: FirstWithId(before, id, idOf, i) && after == before[..i] + before[i + 1..]
      else after == before
    case Clear => after == []
  }

  lemma {:induction false} FirstExists<E(!new)>(es: seq<E>, id: string, idOf: E -> string)
    requires HasId(es, id, idOf)
    ensures exists i: nat :: FirstWithId(es, id, idOf, i)
    decreases |es|
  {
    if idOf(es[0]) == id {
      assert FirstWithId(es, id, idOf, 0);
    } else {
      var k :| 0 <= k < |es| && idOf(es[k]) == id;
      assert idOf(es[1..][k - 1]) == id;
      FirstExists(es[1..], id, idOf);
      var i: nat :| FirstWithId(es[1..], id, idOf, i);
      assert forall j :: 0 < j <= i + 1 ==> es[j] == es[1..][j - 1];
      assert FirstWithId(es, id, idOf, i + 1);
    }
  }

  lemma DeleteEffect<E(!new)>(s: Store<E>, id: string, encode: E -> string, idOf: E -> string)
    ensures Effect(s.entries, Delete(id), Apply(s, Delete(id), encode, idOf).entries, idOf)
  {
    if HasId(s.entries, id, idOf) {
      FirstExists(s.entries, id, idOf);
      var i: nat :| FirstWithId(s.entries, id, idOf, i);
      RemoveAt(s.entries, id, idOf, i);
    }
  }

  /** After any operations, each further one has its effect on what a load would find. */
  lemma LoadsShowEffects<E(!new)>(ops: seq<Op<E>>, op: Op<E>, encode: E -> string, idOf: E -> string,
      decode: string -> Option<E>)
    requires GoodCodec(encode, decode)
    ensures
      var s := Run(Store([], ""), ops, encode, idOf);
      Effect(Loaded(s.file, decode), op, Loaded(Apply(s, op, encode, idOf).file, decode), idOf)
  {
    LoadedBlank(decode);
    LoadRestoresMemory(Store([], ""), ops, encode, idOf, decode);
    var s := Run(Store([], ""), ops, encode, idOf);
    FaithfulStep(s, op, encode, idOf, decode);
    if op.Delete? {
      DeleteEffect(s, op.id, encode, idOf);
    }
  }

  /** The entries given to the store by `ops`, in order. */
  function Given<E>(ops: seq<Op<E>>): seq<E> {
    if ops == [] then []
    else
      var first := match ops[0] { case Append(e) => [e] case AppendMany(es) => es case _ => [] };
      first + Given(ops[1..])
  }

  /** The entries whose id is not in `gone`, in order. */
  function Others<E>(es: seq<E>, gone: set<string>, idOf: E -> string): seq<E> {
    if es == [] then [] else (if idOf(es[0]) in gone then [] else [es[0]]) + Others(es[1..], gone, idOf)
  }

  lemma {:induction false} OthersConcat<E>(a: seq<E>, b: seq<E>, gone: set<string>, idOf: E -> string)
    ensures Others(a + b, gone, idOf) == Others(a, gone, idOf) + Others(b, gone, idOf)
    decreases |a|
  {
    if a == [] {
      assert a + b == b;
    } else {
      assert (a + b)[1..] == a[1..] + b;
      OthersConcat(a[1..], b, gone, idOf);
    }
  }

  lemma {:induction false} OthersOutliveRemove<E>(es: seq<E>, id: string, gone: set<string>, idOf: E -> string)
    requires id in gone
    ensures Others(RemoveFirst(es, id, idOf), gone, idOf) == Others(es, gone, idOf)
    decreases |es|
  {
    if es != [] && idOf(es[0]) != id {
      OthersOutliveRemove(es[1..], id, gone, idOf);
      assert RemoveFirst(es, id, idOf)[1..] == RemoveFirst(es[1..], id, idOf);
    }
  }

  lemma OthersStep<E(!new)>(s: Store<E>, op: Op<E>, gone: set<string>, encode: E -> string, idOf: E -> string)
    requires op != Clear && (op.Delete? ==> op.id in gone)
    ensures Others(Apply(s, op, encode, idOf).entries, gone, idOf) ==
      Others(s.entries, gone, idOf) + Others(Given([op]), gone, idOf)
  {
    assert Given([op]) == match op { case Append(e) => [e] case AppendMany(es) => es case _ => [] };
    match op
    case Append(e) => OthersConcat(s.entries, [e], gone, idOf);
    case AppendMany(es) => OthersConcat(s.entries, es, gone, idOf);
    case Delete(id) => OthersOutliveRemove(s.entries, id, gone, idOf);
  }

  lemma NoneGiven<E>(es: seq<E>, gone: set<string>, idOf: E -> string)
    ensures Others(es, gone, idOf) == Others(es, gone, idOf) + Others([], gone, idOf)
  {
  }

  lemma {:induction false} OthersStay<E(!new)>(s: Store<E>, ops: seq<Op<E>>, gone: set<string>, encode: E -> string,
      idOf: E -> string)
    requires Clear !in ops && forall id :: Delete(id) in ops ==> id in gone
    ensures Others(Run(s, ops, encode, idOf).entries, gone, idOf) ==
      Others(s.entries, gone, idOf) + Others(Given(ops), gone, idOf)
    decreases |ops|
  {
    hide Apply, Others;
    if ops == [] {
      NoneGiven(s.entries, gone, idOf);
    } else {
      OthersStep(s, ops[0], gone, encode, idOf);
      OthersStay(Apply(s, ops[0], encode, idOf), ops[1..], gone, encode, idOf);
      assert Given(ops) == Given([ops[0]]) + Given(ops[1..]);
      OthersConcat(Given([ops[0]]), Given(ops[1..]), gone, idOf);
    }
  }

  lemma {:induction false} RunConcat<E>(s: Store<E>, a: seq<Op<E>>, b: seq<Op<E>>, encode: E -> string,
      idOf: E -> string)
    ensures Run(s, a + b, encode, idOf) == Run(Run(s, a, encode, idOf), b, encode, idOf)
    decreases |a|
  {
    if a == [] {
      assert a + b == b;
    } else {
      assert (a + b)[1..] == a[1..] + b;
      RunConcat(Apply(s, a[0], encode, idOf), a[1..], b, encode, idOf);
    }
  }

  /** Whatever was done before, and up to the next clear: of the entries whose ids are not deleted
    * meanwhile, a load finds those it would have found before and then those given since, all of them,
    * once each and in that order. */
  lemma EntriesStayUntilDeleted<E(!new)>(before: seq<Op<E>>, ops: seq<Op<E>>, gone: set<string>, encode: E -> string,
      idOf: E -> string, decode: string -> Option<E>)
    requires GoodCodec(encode, decode)
    requires Clear !in ops && forall id :: Delete(id) in ops ==> id in gone
    ensures
      var start := Store([], "");
      Others(Loaded(Run(start, before + ops, encode, idOf).file, decode), gone, idOf) ==
      Others(Loaded(Run(start, before, encode, idOf).file, decode), gone, idOf) + Others(Given(ops), gone, idOf)
  {
    LoadedBlank(decode);
    LoadRestoresMemory(Store([], ""), before, encode, idOf, decode);
    LoadRestoresMemory(Store([], ""), before + ops, encode, idOf, decode);
    RunConcat(Store([], ""), before, ops, encode, idOf);
    OthersStay(Run(Store([], ""), before, encode, idOf), ops, gone, encode, idOf);
  }

  class TranscriptStore<E(==)> {
    var entries: seq<E>
    var file: string
    const encode: E -> string
    const idOf: E -> string

    ghost function View(): Store<E>
      reads this
    {
      Store(entries, file)
    }

    constructor (encode: E -> string, idOf: E -> string)
      ensures View() == Store([], "") && this.encode == encode && this.idOf == idOf
    {
      this.encode, this.idOf := encode, idOf;
      entries, file := [], "";
    }

    method AppendEntry(e: E)
      modifies this
      ensures View() == Apply(old(View()), Append(e), encode, idOf)
    {
      entries := entries + [e];
      file := file + encode(e) + "\n";
    }

    method AppendEntries(es: seq<E>)
      modifies this
      ensures View() == Apply(old(View()), AppendMany(es), encode, idOf)
    {
      for i := 0 to |es|
        invariant entries == old(entries) + es[..i] && file == old(file)
      {
        entries := entries + [es[i]];
      }
      assert es[..|es|] == es;
      file := file + Lines(es, encode);
    }

    method DeleteEntry(id: string)
      modifies this
      ensures View() == Apply(old(View()), Delete(id), encode, idOf)
    {
      var i := 0;
      while i < |entries| && idOf(entries[i]) != id
        invariant i <= |entries|
        invariant forall j :: 0 <= j < i ==> idOf(entries[j]) != id
      {
        i := i + 1;
      }
      if i == |entries| {
        return;
      }
      RemoveAt(entries, id, idOf, i);
      entries := entries[..i] + entries[i + 1..];
      file := Lines(entries, encode);
    }

    method ClearAll()
      modifies this
      ensures View() == Apply(old(View()), Clear, encode, idOf)
    {
      entries := [];
      file := Lines(entries, encode);
    }
  }

  lemma {:induction false} RemoveAt<E>(es: seq<E>, id: string, idOf: E -> string, i: nat)
    requires i < |es| && idOf(es[i]) == id
    requires forall j :: 0 <= j < i ==> idOf(es[j]) != id
    ensures RemoveFirst(es, id, idOf) == es[..i] + es[i + 1..]
    decreases i
  {
    if i > 0 {
      RemoveAt(es[1..], id, idOf, i - 1);
      assert es[..i] + es[i + 1..] == [es[0]] + (es[1..][..i - 1] + es[1..][i..]);
    }
  }
}
