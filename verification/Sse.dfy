/** The event stream: the server's framing, the client's block decoder, and the round trip
  * between them under any cutting of the stream into chunks.
  *
  * This is the line-feed-only subset of the event stream format of sections 9.2.5 and 9.2.6 of
  * the WHATWG HTML standard. JSON text is a parameter: any encoder and decoder that are inverse
  * to each other, whose texts hold no raw newline (section 7 of RFC 8259) and are not padded.
  */
module Sse {
  import opened Prelude
  import opened Text

  datatype Event<P> = Event(channel: string, payload: P)

  ghost predicate GoodCodec<P(!new)>(encode: Event<P> -> string, decode: string -> Option<Event<P>>) {
    forall e: Event<P> :: Tight(encode(e)) && '\n' !in encode(e) && decode(encode(e)) == Some(e)
  }

  // ---------------------------------------------------------------- decoder

  const BLANK := "\n\n"

  /** The complete blocks of a buffer, and what stays in the buffer. */
  function Drain(buffer: string): (r: (seq<string>, string))
    ensures forall i :: !IsAt(r.1, BLANK, i)
    decreases |buffer|
  {
    match IndexOf(buffer, BLANK, 0)
    case None => ([], buffer)
    case Some(i) =>
      var r := Drain(buffer[i + 2..]);
      ([buffer[..i]] + r.0, r.1)
  }

  /** The blocks handed to the consumer: trimmed, without empty ones and comments. */
  function Handed(blocks: seq<string>): seq<string> {
    if blocks == [] then []
    else
      var trimmed := Trim(Last(blocks));
      Handed(Front(blocks)) + (if trimmed != "" && trimmed[0] != ':' then [trimmed] else [])
  }

  lemma {:induction false} HandedConcat(a: seq<string>, b: seq<string>)
    ensures Handed(a + b) == Handed(a) + Handed(b)
    decreases |b|
  {
    if b == [] {
      assert a + b == a;
    } else {
      HandedConcat(a, Front(b));
      assert Front(a + b) == a + Front(b) && Last(a + b) == Last(b);
    }
  }

  lemma HandedSnoc(blocks: seq<string>, block: string)
    ensures
      var t := Trim(block);
      Handed(blocks + [block]) == Handed(blocks) + (if t != "" && t[0] != ':' then [t] else [])
  {
    assert Front(blocks + [block]) == blocks;
  }

  lemma DrainStep(seen: seq<string>, buffer: string, i: nat)
    requires IndexOf(buffer, BLANK, 0) == Some(i)
    ensures seen + Drain(buffer).0 == (seen + [buffer[..i]]) + Drain(buffer[i + 2..]).0
    ensures Drain(buffer).1 == Drain(buffer[i + 2..]).1
  {
  }

  class SseBlockDecoder {
    var buffer: string
    var handed: seq<string>

    constructor ()
      ensures buffer == "" && handed == []
    {
      buffer, handed := "", [];
    }

    method Push(chunk: string)
      modifies this
      ensures buffer == Drain(old(buffer) + chunk).1
      ensures handed == old(handed) + Handed(Drain(old(buffer) + chunk).0)
    {
      buffer := buffer + chunk;
      ghost var all, before := buffer, handed;
      ghost var seen: seq<string> := [];
      assert [] + Drain(buffer).0 == Drain(buffer).0;
      var index := IndexOf(buffer, BLANK, 0);
      while index.Some?
        invariant index == IndexOf(buffer, BLANK, 0)
        invariant handed == before + Handed(seen)
        invariant Drain(all).0 == seen + Drain(buffer).0
        invariant Drain(all).1 == Drain(buffer).1
        decreases |buffer|
      {
        DrainStep(seen, buffer, index.value);
        var block := buffer[..index.value];
        buffer := buffer[index.value + 2..];
        var trimmed := Trim(block);
        HandedSnoc(seen, block);
        seen := seen + [block];
        if |trimmed| > 0 && trimmed[0] != ':' {
          handed := handed + [trimmed];
        }
        index := IndexOf(buffer, BLANK, 0);
      }
      assert seen + [] == seen;
    }
  }

  /** What a decoder holds and has handed out after a sequence of pushes. */
  function Pushed(chunks: seq<string>): (string, seq<string>) {
    if chunks == [] then ("", [])
    else
      var (buffer, handed) := Pushed(Front(chunks));
      var r := Drain(buffer + Last(chunks));
      (r.1, handed + Handed(r.0))
  }

  function Flatten(chunks: seq<string>): string {
    if chunks == [] then "" else Flatten(Front(chunks)) + Last(chunks)
  }

  lemma FirstBlankStays(a: string, b: string, i: nat)
    requires IndexOf(a, BLANK, 0) == Some(i)
    ensures IndexOf(a + b, BLANK, 0) == Some(i)
  {
    forall j | 0 <= j <= i
      ensures IsAt(a + b, BLANK, j) <==> IsAt(a, BLANK, j)
    {
      assert (a + b)[j..j + 2] == a[j..j + 2];
    }
  }

  /** One block off the front; text that follows does not change it. */
  lemma DrainFirst(a: string, b: string, i: nat)
    requires IndexOf(a, BLANK, 0) == Some(i)
    ensures i + 2 <= |a|
    ensures Drain(a) == ([a[..i]] + Drain(a[i + 2..]).0, Drain(a[i + 2..]).1)
    ensures Drain(a + b) == ([a[..i]] + Drain(a[i + 2..] + b).0, Drain(a[i + 2..] + b).1)
  {
    FirstBlankStays(a, b, i);
    assert (a + b)[i + 2..] == a[i + 2..] + b && (a + b)[..i] == a[..i];
  }

  /** The two ways of cutting agree after a first block if they agree on the rest. */
  lemma PushFront(x: string, rest: (seq<string>, string), whole: (seq<string>, string), more: (seq<string>, string),
      both: (seq<string>, string))
    requires whole == ([x] + rest.0, rest.1) && both == ([x] + (rest.0 + more.0), more.1)
    ensures both == (whole.0 + more.0, more.1)
  {
    assert [x] + (rest.0 + more.0) == ([x] + rest.0) + more.0;
  }

  lemma {:induction false} DrainConcat(a: string, b: string)
    ensures Drain(a + b) == (Drain(a).0 + Drain(Drain(a).1 + b).0, Drain(Drain(a).1 + b).1)
    decreases |a|
  {
    var at := IndexOf(a, BLANK, 0);
    if at.None? {
      assert Drain(a) == ([], a);
      assert [] + Drain(a + b).0 == Drain(a + b).0;
    } else {
      DrainFirst(a, b, at.value);
      var rest := a[at.value + 2..];
      DrainConcat(rest, b);
      PushFront(a[..at.value], Drain(rest), Drain(a), Drain(Drain(rest).1 + b), Drain(a + b));
    }
  }

  /** Chunking does not matter: what was handed out and what is kept depend only on the
    * concatenation of the chunks, and what is kept never contains a blank line. */
  lemma {:induction false} ChunkingIsIrrelevant(chunks: seq<string>)
    ensures Pushed(chunks) == (Drain(Flatten(chunks)).1, Handed(Drain(Flatten(chunks)).0))
    ensures forall i :: !IsAt(Pushed(chunks).0, BLANK, i)
    decreases |chunks|
  {
    if chunks != [] {
      ChunkingIsIrrelevant(Front(chunks));
      DrainConcat(Flatten(Front(chunks)), Last(chunks));
      var r := Drain(Flatten(Front(chunks)));
      HandedConcat(r.0, Drain(r.1 + Last(chunks)).0);
    }
  }

  // ---------------------------------------------------------------- blocks to events

  /** The text after `data:` on each data line, trimmed. */
  function DataLines(lines: seq<string>): seq<string> {
    if lines == [] then []
    else (if "data:" <= lines[0] then [Trim(lines[0][5..])] else []) + DataLines(lines[1..])
  }

  function ParseBlock<P>(block: string, decode: string -> Option<Event<P>>): Option<Event<P>> {
    var data := DataLines(Split(block, '\n'));
    if data == [] then None
    else
      match decode(Join(data, "\n"))
      case None => None
      case Some(e) => if e.channel == "" then None else Some(e)
  }

  /** The lines carry the texts: a line `data:` with a text behind it, padded or not, for each, in order, and
    * among them lines of other fields. */
  ghost predicate Carry(lines: seq<string>, texts: seq<string>)
    decreases |lines|
  {
    if lines == [] then texts == []
    else if "data:" <= lines[0] then
      && texts != [] && (texts[0] == "" || Tight(texts[0])) && Carry(lines[1..], texts[1..])
      && exists pad :: AllSpace(pad) && lines[0] == "data:" + pad + texts[0]
    else Carry(lines[1..], texts)
  }

  lemma {:induction false} CarriedData(lines: seq<string>, texts: seq<string>)
    requires Carry(lines, texts)
    ensures DataLines(lines) == texts
    decreases |lines|
  {
    if lines != [] {
      if "data:" <= lines[0] {
        var pad :| AllSpace(pad) && lines[0] == "data:" + pad + texts[0];
        assert lines[0][5..] == pad + texts[0];
        TrimPadded(pad, texts[0]);
        CarriedData(lines[1..], texts[1..]);
      } else {
        CarriedData(lines[1..], texts);
      }
    }
  }

  /** A block's event is decoded from what its data lines carry, joined by line feeds; a block without one,
    * or whose event names no channel, yields none. */
  lemma BlockIsDecoded<P>(lines: seq<string>, texts: seq<string>, decode: string -> Option<Event<P>>)
    requires lines != [] && Carry(lines, texts) && forall i :: 0 <= i < |lines| ==> '\n' !in lines[i]
    ensures
      var parsed := if texts == [] then None else decode(Join(texts, "\n"));
      var named := parsed.Some? && parsed.value.channel != "";
      ParseBlock(Join(lines, "\n"), decode) == if named then parsed else None
  {
    SplitJoin(lines);
    CarriedData(lines, texts);
  }

  function Received<P>(blocks: seq<string>, decode: string -> Option<Event<P>>): seq<Event<P>> {
    if blocks == [] then []
    else
      Received(Front(blocks), decode) +
      match ParseBlock(Last(blocks), decode) { case None => [] case Some(e) => [e] }
  }

  // ---------------------------------------------------------------- server

  datatype Item<P> = Hint | Heartbeat | Publish(event: Event<P>)

  predicate Subscribed<P>(channels: Option<set<string>>, e: Event<P>) {
    channels.None? || e.channel in channels.value
  }

  /** What the server writes for one occurrence on a stream. */
  function Written<P>(item: Item<P>, channels: Option<set<string>>, encode: Event<P> -> string): string {
    match item
    case Hint => "retry: 1000\n\n"
    case Heartbeat => ":ping\n\n"
    case Publish(e) => if Subscribed(channels, e) then "data: " + encode(e) + "\n\n" else ""
  }

  function Stream<P>(items: seq<Item<P>>, channels: Option<set<string>>, encode: Event<P> -> string): string {
    if items == [] then "" else Stream(Front(items), channels, encode) + Written(Last(items), channels, encode)
  }

  /** The events a subscriber is to see: published, on a subscribed channel with a name. */
  function Visible<P>(item: Item<P>, channels: Option<set<string>>): seq<Event<P>> {
    if !item.Publish? || item.event.channel == "" then []
    else if channels.None? || item.event.channel in channels.value then [item.event]
    else []
  }

  function Expected<P>(items: seq<Item<P>>, channels: Option<set<string>>): seq<Event<P>> {
    if items == [] then [] else Expected(Front(items), channels) + Visible(Last(items), channels)
  }

  /** From `text` the client gets exactly `events`, and keeps nothing. */
  predicate Yields<P(==)>(text: string, events: seq<Event<P>>, decode: string -> Option<Event<P>>) {
    Drain(text).1 == "" && Received(Handed(Drain(text).0), decode) == events
  }

  lemma DrainOneFrame(body: string)
    requires '\n' !in body
    ensures Drain(body + BLANK) == ([body], "")
  {
    var s := body + BLANK;
    forall i | 0 <= i < |body|
      ensures !IsAt(s, BLANK, i)
    {
      assert s[i] == body[i];
      assert i + 2 <= |s| ==> s[i..i + 2][0] == s[i];
    }
    assert s[|body|..|body| + 2] == BLANK;
    assert IsAt(s, BLANK, |body|);
    assert IndexOf(s, BLANK, 0) == Some(|body|);
    assert s[..|body|] == body && s[|body| + 2..] == "";
    assert IndexOf("", BLANK, 0) == None;
    assert [body] + [] == [body];
  }

  lemma HandedOne(body: string)
    requires Tight(body)
    ensures Handed([body]) == if body[0] == ':' then [] else [body]
  {
    TrimTight(body);
    assert Front([body]) == [];
  }

  lemma ReceivedOne<P(!new)>(body: string, decode: string -> Option<Event<P>>)
    ensures Received([body], decode) == match ParseBlock(body, decode) { case None => [] case Some(e) => [e] }
  {
    assert Front([body]) == [];
  }

  lemma DataBlock<P(!new)>(e: Event<P>, encode: Event<P> -> string, decode: string -> Option<Event<P>>)
    requires GoodCodec(encode, decode)
    ensures var body := "data: " + encode(e);
      && Tight(body) && '\n' !in body
      && ParseBlock(body, decode) == (if e.channel == "" then None else Some(e))
  {
    var json := encode(e);
    var body := "data: " + json;
    assert body[|body| - 1] == json[|json| - 1];
    SplitWithout(body, '\n');
    assert body[..5] == "data:" && body[5..] == " " + json;
    TrimTight(json);
    assert [body][1..] == [];
    assert DataLines([body]) == [json];
    assert Join([json], "\n") == json;
  }

  lemma NoDataBlock<P(!new)>(body: string, decode: string -> Option<Event<P>>)
    requires '\n' !in body && body != "" && body[0] != 'd'
    ensures ParseBlock(body, decode) == None
  {
    SplitWithout(body, '\n');
    assert !("data:" <= body);
    assert DataLines([body]) == [];
  }

  lemma OneFrame<P(!new)>(body: string, decode: string -> Option<Event<P>>)
    requires Tight(body) && '\n' !in body
    ensures
      var parsed := match ParseBlock(body, decode) { case None => [] case Some(e) => [e] };
      Yields(body + BLANK, if body[0] == ':' then [] else parsed, decode)
  {
    DrainOneFrame(body);
    HandedOne(body);
    ReceivedOne(body, decode);
  }

  lemma SilentFrame<P(!new)>(body: string, decode: string -> Option<Event<P>>)
    requires Tight(body) && '\n' !in body && body[0] != 'd'
    ensures Yields(body + BLANK, [], decode)
  {
    NoDataBlock(body, decode);
    OneFrame(body, decode);
  }

  lemma DataItem<P(!new)>(e: Event<P>, encode: Event<P> -> string, decode: string -> Option<Event<P>>)
    requires GoodCodec(encode, decode)
    ensures Yields("data: " + encode(e) + BLANK, if e.channel == "" then [] else [e], decode)
  {
    DataBlock(e, encode, decode);
    OneFrame("data: " + encode(e), decode);
  }

  /** What the client makes of one thing the server wrote. */
  lemma OneItem<P(!new)>(item: Item<P>, channels: Option<set<string>>, encode: Event<P> -> string,
      decode: string -> Option<Event<P>>)
    requires GoodCodec(encode, decode)
    ensures Yields(Written(item, channels, encode), Visible(item, channels), decode)
  {
    if item.Publish? {
      if Subscribed(channels, item.event) {
        DataItem(item.event, encode, decode);
      } else {
        assert IndexOf("", BLANK, 0) == None;
      }
    } else {
      var body := if item.Hint? then "retry: 1000" else ":ping";
      assert Written(item, channels, encode) == body + BLANK;
      SilentFrame(body, decode);
    }
  }

  lemma {:induction false} ReceivedConcat<P>(a: seq<string>, b: seq<string>, decode: string -> Option<Event<P>>)
    ensures Received(a + b, decode) == Received(a, decode) + Received(b, decode)
    decreases |b|
  {
    hide ParseBlock;
    if b == [] {
      assert a + b == a;
    } else {
      ReceivedConcat(a, Front(b), decode);
      assert Front(a + b) == a + Front(b) && Last(a + b) == Last(b);
    }
  }

  lemma {:induction false} StreamDecodes<P(!new)>(items: seq<Item<P>>, channels: Option<set<string>>,
      encode: Event<P> -> string, decode: string -> Option<Event<P>>)
    requires GoodCodec(encode, decode)
    ensures Yields(Stream(items, channels, encode), Expected(items, channels), decode)
    decreases |items|
  {
    if items == [] {
      assert IndexOf("", BLANK, 0) == None;
    } else {
      var f, x := Front(items), Last(items);
      StreamDecodes(f, channels, encode, decode);
      OneItem(x, channels, encode, decode);
      var s, w := Stream(f, channels, encode), Written(x, channels, encode);
      DrainConcat(s, w);
      assert "" + w == w;
      HandedConcat(Drain(s).0, Drain(w).0);
      ReceivedConcat(Handed(Drain(s).0), Handed(Drain(w).0), decode);
    }
  }

  /** Round trip. Whatever hints, heartbeats and events a server writes, and however the stream
    * is cut into string chunks, the client receives exactly the published events on subscribed,
    * named channels, in order, and its buffer ends empty. */
  lemma RoundTrip<P(!new)>(items: seq<Item<P>>, channels: Option<set<string>>, encode: Event<P> -> string,
      decode: string -> Option<Event<P>>, chunks: seq<string>)
    requires GoodCodec(encode, decode)
    requires Flatten(chunks) == Stream(items, channels, encode)
    ensures Pushed(chunks).0 == ""
    ensures Received(Pushed(chunks).1, decode) == Expected(items, channels)
  {
    ChunkingIsIrrelevant(chunks);
    StreamDecodes(items, channels, encode, decode);
  }
}
