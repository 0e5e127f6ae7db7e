/** The docked panes of the main page: which rectangles they fill and which rooms they show.
  *
  * Coordinates are exact. Pane 0 is the main room, pane `i` is `extra[i - 1]`. Indices come from
  * panes on the page, so they are in range.
  */
module Dock {
  import opened Prelude
  import opened Text

  const MAX_PANES: nat := 8

  datatype Rect = Rect(x: real, y: real, w: real, h: real)

  const WHOLE := Rect(0.0, 0.0, 1.0, 1.0)

  datatype Side = Left | Right | Top | Bottom | Center

  datatype Pane = Pane(room: Option<string>, draft: string)

  /** What is being dragged: a room from the list or a pane already there. */
  datatype Source = Room(id: string) | Existing(index: nat)

  datatype Dock = Dock(rects: seq<Rect>, main: Pane, extra: seq<Pane>)

  // ---------------------------------------------------------------- operations

  predicate Paired(d: Dock) {
    |d.rects| == |d.extra| + 1
  }

  /** The two halves of `r`: what its pane keeps, and what the new pane gets. */
  function Halves(r: Rect, side: Side): (Rect, Rect) {
    match side
    case Left => var w := r.w / 2.0; (r.(x := r.x + w, w := w), r.(w := w))
    case Right => var w := r.w / 2.0; (r.(w := w), r.(x := r.x + w, w := w))
    case Top => var h := r.h / 2.0; (r.(y := r.y + h, h := h), r.(h := h))
    case _ => var h := r.h / 2.0; (r.(h := h), r.(y := r.y + h, h := h))
  }

  function Place(d: Dock, source: Source, index: nat, side: Side): Dock
    requires Paired(d) && index < |d.rects| && (source.Existing? ==> source.index < |d.rects|)
  {
    if d.main.room.None? then d
    else match source
      case Existing(i) => d.(rects := d.rects[i := d.rects[index]][index := d.rects[i]])
      case Room(id) =>
        if |d.rects| >= MAX_PANES then d
        else
          var (kept, given) := Halves(d.rects[index], side);
          d.(rects := d.rects[index := kept] + [given], extra := d.extra + [Pane(Some(id), "")])
  }

  function Columns(n: nat): seq<Rect>
    requires n > 0
  {
    seq(n, i requires 0 <= i < n => Rect(i as real / n as real, 0.0, 1.0 / n as real, 1.0))
  }

  /** Selecting room `id` in the main pane takes it away from the other panes: they get the room
    * the main pane showed before, if that is another one. */
  function Select(main: Pane, extra: seq<Pane>, id: string): (Pane, seq<Pane>) {
    var instead := if main.room == Some(id) then None else main.room;
    (main.(room := Some(id)), seq(|extra|, i requires 0 <= i < |extra| =>
      if extra[i].room == Some(id) then extra[i].(room := instead) else extra[i]))
  }

  function DraftAt(d: Dock, index: nat): string
    requires index <= |d.extra|
  {
    if index == 0 then d.main.draft else d.extra[index - 1].draft
  }

  predicate Blank(s: string) {
    Trim(s) == ""
  }

  function Close(d: Dock, index: nat): Dock
    requires Paired(d) && index < |d.rects|
  {
    if |d.rects| < 2 || !Blank(DraftAt(d, index)) then d
    else
      var rects := Columns(|d.extra|);
      if index > 0 then Dock(rects, d.main, d.extra[..index - 1] + d.extra[index..])
      else match d.extra[0].room
        case None => Dock(rects, d.main, d.extra[1..])
        case Some(id) => var (main, extra) := Select(d.main, d.extra[1..], id); Dock(rects, main, extra)
  }

  datatype Act = Drop(source: Source, index: nat, side: Side) | CloseAt(index: nat) | Type(index: nat, text: string)

  predicate Enabled(d: Dock, a: Act) {
    match a
    case Drop(source, i, _) => i < |d.rects| && (source.Existing? ==> source.index < |d.rects|)
    case CloseAt(i) => i < |d.rects|
    case Type(i, _) => i <= |d.extra|
  }

  function Next(d: Dock, a: Act): (e: Dock)
    requires Paired(d) && Enabled(d, a)
    ensures Paired(e)
  {
    match a
    case Drop(source, i, side) => Place(d, source, i, side)
    case CloseAt(i) => Close(d, i)
    case Type(i, text) =>
      if i == 0 then d.(main := d.main.(draft := text))
      else d.(extra := d.extra[i - 1 := d.extra[i - 1].(draft := text)])
  }

  function Exec(d: Dock, acts: seq<Act>): Dock
    requires Paired(d)
    decreases |acts|
  {
    if acts == [] then d
    else Exec(if Enabled(d, acts[0]) then Next(d, acts[0]) else d, acts[1..])
  }

  // ---------------------------------------------------------------- sums over rectangles

  function Total(rs: seq<Rect>, f: Rect -> real): real {
    if rs == [] then 0.0 else Total(Front(rs), f) + f(Last(rs))
  }

  predicate In(r: Rect, x: real, y: real) {
    r.x <= x < r.x + r.w && r.y <= y < r.y + r.h
  }

  function Hit(x: real, y: real): Rect -> real {
    (r: Rect) => if In(r, x, y) then 1.0 else 0.0
  }

  /** How many rectangles hold the point. */
  function Cover(rs: seq<Rect>, x: real, y: real): real {
    Total(rs, Hit(x, y))
  }

  function Size(): Rect -> real {
    (r: Rect) => r.w * r.h
  }

  function Area(rs: seq<Rect>): real {
    Total(rs, Size())
  }

  lemma TotalPush(rs: seq<Rect>, r: Rect, f: Rect -> real)
    ensures Total(rs + [r], f) == Total(rs, f) + f(r)
  {
    assert Front(rs + [r]) == rs;
  }

  lemma {:induction false} TotalUpdate(rs: seq<Rect>, i: nat, r: Rect, f: Rect -> real)
    requires i < |rs|
    ensures Total(rs[i := r], f) == Total(rs, f) - f(rs[i]) + f(r)
    decreases |rs|
  {
    if i == |rs| - 1 {
      assert Front(rs[i := r]) == Front(rs);
    } else {
      assert Front(rs[i := r]) == Front(rs)[i := r];
      TotalUpdate(Front(rs), i, r, f);
    }
  }

  lemma TotalSwap(rs: seq<Rect>, i: nat, j: nat, f: Rect -> real)
    requires i < |rs| && j < |rs|
    ensures Total(rs[i := rs[j]][j := rs[i]], f) == Total(rs, f)
  {
    TotalUpdate(rs, i, rs[j], f);
    TotalUpdate(rs[i := rs[j]], j, rs[i], f);
  }

  // ---------------------------------------------------------------- tiling

  /** The half-open rectangles cut the unit square into pieces: each of its points lies in exactly
    * one of them, no other point in any, and the areas add up to one. */
  ghost predicate Tiles(rs: seq<Rect>) {
    && (forall i :: 0 <= i < |rs| ==> rs[i].w > 0.0 && rs[i].h > 0.0)
    && (forall x: real, y: real :: Cover(rs, x, y) == if In(WHOLE, x, y) then 1.0 else 0.0)
    && Area(rs) == 1.0
  }

  lemma SplitTotal(rs: seq<Rect>, i: nat, a: Rect, b: Rect, f: Rect -> real)
    requires i < |rs| && f(a) + f(b) == f(rs[i])
    ensures Total(rs[i := a] + [b], f) == Total(rs, f)
  {
    TotalUpdate(rs, i, a, f);
    TotalPush(rs[i := a], b, f);
  }

  lemma SplitTiles(rs: seq<Rect>, i: nat, side: Side)
    requires Tiles(rs) && i < |rs|
    ensures var (a, b) := Halves(rs[i], side); Tiles(rs[i := a] + [b])
  {
    var (a, b) := Halves(rs[i], side);
    SplitTotal(rs, i, a, b, Size());
    forall x: real, y: real
      ensures Cover(rs[i := a] + [b], x, y) == Cover(rs, x, y)
    {
      SplitTotal(rs, i, a, b, Hit(x, y));
    }
  }

  lemma SwapTiles(rs: seq<Rect>, i: nat, j: nat)
    requires Tiles(rs) && i < |rs| && j < |rs|
    ensures Tiles(rs[i := rs[j]][j := rs[i]])
  {
    TotalSwap(rs, i, j, Size());
    forall x: real, y: real
      ensures Cover(rs[i := rs[j]][j := rs[i]], x, y) == Cover(rs, x, y)
    {
      TotalSwap(rs, i, j, Hit(x, y));
    }
  }

  /** The first `k` of `n` columns. */
  lemma {:induction false} ColumnsTotal(n: nat, k: nat, x: real, y: real)
    requires 0 < n && k <= n
    ensures Cover(Columns(n)[..k], x, y) == if In(Rect(0.0, 0.0, k as real / n as real, 1.0), x, y) then 1.0 else 0.0
    ensures Area(Columns(n)[..k]) == k as real / n as real
    decreases k
  {
    if k > 0 {
      var rs := Columns(n)[..k];
      assert Front(rs) == Columns(n)[..k - 1];
      assert Last(rs) == Rect((k - 1) as real / n as real, 0.0, 1.0 / n as real, 1.0);
      ColumnsTotal(n, k - 1, x, y);
    }
  }

  lemma ColumnsTile(n: nat)
    requires n > 0
    ensures Tiles(Columns(n))
  {
    assert Columns(n)[..n] == Columns(n);
    forall i | 0 <= i < n
      ensures Columns(n)[i].w > 0.0 && Columns(n)[i].h > 0.0
    {
    }
    assert n as real / n as real == 1.0;
    ColumnsTotal(n, n, 0.0, 0.0);
    forall x: real, y: real
      ensures Cover(Columns(n), x, y) == if In(WHOLE, x, y) then 1.0 else 0.0
    {
      ColumnsTotal(n, n, x, y);
    }
  }

  lemma WholeTiles()
    ensures Tiles([WHOLE])
  {
    forall x: real, y: real
      ensures Cover([WHOLE], x, y) == if In(WHOLE, x, y) then 1.0 else 0.0
    {
      TotalPush([], WHOLE, Hit(x, y));
      assert [] + [WHOLE] == [WHOLE];
    }
    TotalPush([], WHOLE, Size());
    assert [] + [WHOLE] == [WHOLE];
  }

  ghost predicate Inv(d: Dock) {
    Paired(d) && |d.rects| <= MAX_PANES && Tiles(d.rects)
  }

  lemma TilingStep(d: Dock, a: Act)
    requires Inv(d) && Enabled(d, a)
    ensures Inv(Next(d, a))
  {
    match a
    case Drop(source, i, side) =>
      match source {
        case Existing(j) => SwapTiles(d.rects, j, i);
        case Room(_) => SplitTiles(d.rects, i, side);
      }
    case CloseAt(i) =>
      if |d.extra| > 0 {
        ColumnsTile(|d.extra|);
      }
    case Type(_, _) =>
  }

  /** From one pane on, whatever is dropped, moved or closed, the panes tile the page, and there
    * are never more than eight. */
  lemma {:induction false} DockAlwaysTiles(d: Dock, acts: seq<Act>)
    requires Inv(d)
    ensures var e := Exec(d, acts); Tiles(e.rects) && 1 <= |e.rects| <= MAX_PANES && Paired(e)
    decreases |acts|
  {
    if acts != [] {
      if Enabled(d, acts[0]) {
        TilingStep(d, acts[0]);
      }
      DockAlwaysTiles(if Enabled(d, acts[0]) then Next(d, acts[0]) else d, acts[1..]);
    }
  }

  /** The page starts out tiled. */
  lemma StartTiles(main: Pane)
    ensures Inv(Dock([WHOLE], main, []))
  {
    WholeTiles();
  }

  /** A dropped room gets exactly the half of the pane it was dropped on that lies to the named
    * side; every other pane stays where it was. A drop on the middle goes below. */
  lemma DropGoesToItsSide(d: Dock, id: string, index: nat, side: Side, x: real, y: real)
    requires Inv(d) && index < |d.rects| < MAX_PANES && d.main.room.Some?
    ensures var r, e := d.rects[index], Place(d, Room(id), index, side);
      var n := |d.rects|;
      && |e.rects| == n + 1 && e.extra[n - 1].room == Some(id)
      && (forall k :: 0 <= k < n && k != index ==> e.rects[k] == d.rects[k])
      && (In(e.rects[n], x, y) <==> In(r, x, y) && OnSide(r, side, x, y))
      && (In(e.rects[index], x, y) <==> In(r, x, y) && !OnSide(r, side, x, y))
  {
  }

  predicate OnSide(r: Rect, side: Side, x: real, y: real) {
    match side
    case Left => x < r.x + r.w / 2.0
    case Right => x >= r.x + r.w / 2.0
    case Top => y < r.y + r.h / 2.0
    case _ => y >= r.y + r.h / 2.0
  }

  // ---------------------------------------------------------------- what is refused, moved, kept

  /** A drop is refused without a main room, and a ninth pane is; any other dropped room gets a pane of its
    * own behind the others, which keep what they show. */
  lemma DropsAreTakenExactlyWhen(d: Dock, id: string, index: nat, side: Side)
    requires Paired(d) && index < |d.rects|
    ensures var e := Place(d, Room(id), index, side);
      if d.main.room.None? || |d.rects| >= 8 then e == d
      else |e.rects| == |d.rects| + 1 && e.main == d.main && e.extra == d.extra + [Pane(Some(id), "")]
  {
  }

  /** A pane dropped on another changes places with it; nothing else moves, and every pane keeps its room
    * and what is typed in it. */
  lemma MovedPanesChangePlaces(d: Dock, source: nat, index: nat, side: Side)
    requires Paired(d) && index < |d.rects| && source < |d.rects|
    ensures var e := Place(d, Existing(source), index, side);
      && e.main == d.main && e.extra == d.extra && |e.rects| == |d.rects|
      && if d.main.room.None? then e.rects == d.rects
         else
           && e.rects[index] == d.rects[source] && e.rects[source] == d.rects[index]
           && forall k :: 0 <= k < |d.rects| && k != index && k != source ==> e.rects[k] == d.rects[k]
  {
  }

  /** Closing is refused for the last pane and where something is typed; otherwise one pane fewer is left,
    * and the panes are columns of one width from left to right. */
  lemma ClosesExactlyWhen(d: Dock, index: nat)
    requires Paired(d) && index < |d.rects|
    ensures var e, typed := Close(d, index), Drafts(d)[index];
      if |d.rects| == 1 || Trim(typed) != "" then e == d
      else
        var n := |d.rects| - 1;
        && |e.rects| == n
        && forall i :: 0 <= i < n ==> e.rects[i] == Rect(i as real / n as real, 0.0, 1.0 / n as real, 1.0)
  {
  }

  /** Typing changes that pane's text and nothing else. */
  lemma TypingStays(d: Dock, index: nat, text: string)
    requires Paired(d) && index <= |d.extra|
    ensures var e := Next(d, Type(index, text));
      e.rects == d.rects && Rooms(e) == Rooms(d) && Drafts(e) == Drafts(d)[index := text]
  {
    var e := Next(d, Type(index, text));
    assert |Rooms(e)| == |Rooms(d)| && |Drafts(e)| == |Drafts(d)|;
    assert forall k :: 0 <= k < |Rooms(d)| ==> Rooms(e)[k] == Rooms(d)[k];
    assert forall k :: 0 <= k < |Drafts(d)| ==> Drafts(e)[k] == Drafts(d)[index := text][k];
  }

  // ---------------------------------------------------------------- what closing does to rooms

  function RoomsOf(panes: seq<Pane>): (rs: seq<Option<string>>)
    ensures |rs| == |panes|
  {
    seq(|panes|, i requires 0 <= i < |panes| => panes[i].room)
  }

  function Rooms(d: Dock): (rs: seq<Option<string>>)
    ensures |rs| == |d.extra| + 1
  {
    [d.main.room] + RoomsOf(d.extra)
  }

  predicate Closes(d: Dock, index: nat)
    requires Paired(d) && index < |d.rects|
  {
    |d.rects| >= 2 && Blank(DraftAt(d, index))
  }

  /** Room shown twice: by the pane that moves up into the main one, and by another. */
  predicate ShownAgain(d: Dock)
    requires d.extra != []
  {
    exists k :: 1 <= k < |d.extra| && d.extra[k].room == d.extra[0].room
  }

  /** Selecting a room changes what the other panes show exactly when one of them shows it. */
  lemma SelectKeepsOthersExactlyWhen(main: Pane, extra: seq<Pane>, id: string)
    ensures RoomsOf(Select(main, extra, id).1) == RoomsOf(extra)
      <==> (forall k :: 0 <= k < |extra| ==> extra[k].room != Some(id))
  {
    var es := Select(main, extra, id).1;
    assert |RoomsOf(es)| == |RoomsOf(extra)|;
    assert forall k :: 0 <= k < |extra| ==> (RoomsOf(es)[k] == RoomsOf(extra)[k] <==> extra[k].room != Some(id));
    if forall k :: 0 <= k < |extra| ==> extra[k].room != Some(id) {
      assert RoomsOf(es) == RoomsOf(extra);
    }
  }

  lemma RoomsOfRest(panes: seq<Pane>)
    requires panes != []
    ensures RoomsOf(panes)[0] == panes[0].room && RoomsOf(panes)[1..] == RoomsOf(panes[1..])
  {
  }

  lemma CloseOther(d: Dock, index: nat)
    requires Paired(d) && 0 < index < |d.rects| && Closes(d, index)
    ensures Rooms(Close(d, index)) == Rooms(d)[..index] + Rooms(d)[index + 1..]
  {
    hide Blank, Columns;
    var e, want := Close(d, index), Rooms(d)[..index] + Rooms(d)[index + 1..];
    assert |Rooms(e)| == |want|;
    assert forall k :: 0 <= k < |want| ==> Rooms(e)[k] == want[k];
  }

  lemma CloseMain(d: Dock)
    requires Paired(d) && |d.rects| >= 2 && Closes(d, 0)
    ensures Rooms(Close(d, 0)) == RoomsOf(d.extra)
      <==> (if d.extra[0].room.Some? then !ShownAgain(d) else d.main.room.None?)
  {
    hide Blank, Columns, Select, RoomsOf;
    var e, up := Close(d, 0), d.extra[0].room;
    RoomsOfRest(d.extra);
    if up.Some? {
      SelectKeepsOthersExactlyWhen(d.main, d.extra[1..], up.value);
      SelectShows(d.main, d.extra[1..], up.value);
      ShownAgainIs(d);
    }
  }

  lemma SelectShows(main: Pane, extra: seq<Pane>, id: string)
    ensures Select(main, extra, id).0.room == Some(id)
  {
  }

  lemma ShownAgainIs(d: Dock)
    requires d.extra != []
    ensures ShownAgain(d) <==> exists k :: 0 <= k < |d.extra[1..]| && d.extra[1..][k].room == d.extra[0].room
  {
    if k :| 1 <= k < |d.extra| && d.extra[k].room == d.extra[0].room {
      assert d.extra[1..][k - 1] == d.extra[k];
    }
  }

  /** Closing a pane takes away that pane's room and no other exactly when the pane is not the main
    * one, or the pane moving up shows a room no other does, or both show none. */
  lemma CloseRemovesItsRoomExactlyWhen(d: Dock, index: nat)
    requires Paired(d) && index < |d.rects| && Closes(d, index)
    ensures Rooms(Close(d, index)) == Rooms(d)[..index] + Rooms(d)[index + 1..]
      <==> (index > 0 || (if d.extra[0].room.Some? then !ShownAgain(d) else d.main.room.None?))
  {
    hide Blank, Close, RoomsOf, ShownAgain;
    if index > 0 {
      CloseOther(d, index);
    } else {
      CloseMain(d);
      assert Rooms(d)[..0] + Rooms(d)[1..] == RoomsOf(d.extra);
    }
  }

  /** The drafts with something in them, in pane order. */
  function Typed(drafts: seq<string>): seq<string> {
    if drafts == [] then []
    else if Blank(drafts[0]) then Typed(drafts[1..])
    else [drafts[0]] + Typed(drafts[1..])
  }

  function Drafts(d: Dock): seq<string> {
    [d.main.draft] + seq(|d.extra|, i requires 0 <= i < |d.extra| => d.extra[i].draft)
  }

  lemma {:induction false} TypedWithout(drafts: seq<string>, i: nat)
    requires i < |drafts|
    ensures Typed(drafts) == Typed(drafts[..i] + drafts[i + 1..]) <==> Blank(drafts[i])
    ensures |Typed(drafts)| == |Typed(drafts[..i] + drafts[i + 1..])| + if Blank(drafts[i]) then 0 else 1
    decreases |drafts|
  {
    var without := drafts[..i] + drafts[i + 1..];
    if i == 0 {
      assert without == drafts[1..];
    } else {
      TypedWithout(drafts[1..], i - 1);
      assert without[1..] == drafts[1..][..i - 1] + drafts[1..][i..];
    }
  }

  /** Closing loses no typed text exactly when the closed pane is not the main one, or nothing is
    * typed in the pane that moves up: that pane's text goes, although only the closed pane's is
    * looked at. */
  lemma CloseKeepsDraftsExactlyWhen(d: Dock, index: nat)
    requires Paired(d) && index < |d.rects| && Closes(d, index)
    ensures Typed(Drafts(Close(d, index))) == Typed(Drafts(d)) <==> (index > 0 || Blank(d.extra[0].draft))
  {
    var all := Drafts(d);
    var gone := if index == 0 then 1 else index;
    var after := Drafts(Close(d, index));
    var want := all[..gone] + all[gone + 1..];
    assert |after| == |want|;
    assert forall k :: 0 <= k < |after| ==> after[k] == want[k];
    assert after == want;
    TypedWithout(all, gone);
  }

  // ---------------------------------------------------------------- what closing can lose

  /** One pane that shows room `a`. */
  function OnePane(a: string): Dock {
    Dock([WHOLE], Pane(Some(a), ""), [])
  }

  /** Room `b` dropped `n` times more. */
  function WithCopies(a: string, b: string, n: nat): (d: Dock)
    requires n <= 2
    ensures Paired(d) && |d.rects| == n + 1 && d.main.room == Some(a)
  {
    if n == 0 then OnePane(a) else Place(WithCopies(a, b, n - 1), Room(b), 0, Right)
  }

  lemma {:induction false} CopiesAre(a: string, b: string, n: nat)
    requires n <= 2
    ensures WithCopies(a, b, n).main == Pane(Some(a), "")
    ensures WithCopies(a, b, n).extra == seq(n, i => Pane(Some(b), ""))
  {
    if n > 0 {
      CopiesAre(a, b, n - 1);
    }
  }

  function RoomWitness(): seq<Act> {
    [Drop(Room("b"), 0, Right), Drop(Room("b"), 0, Right), CloseAt(0)]
  }

  /** Room `b` is shown twice beside room `a`. Closing `a` brings `a` back in place of a `b`. */
  lemma AClosedRoomComesBack()
    ensures
      var d := Exec(OnePane("a"), RoomWitness());
      d.main.room == Some("b") && |d.extra| == 1 && d.extra[0].room == Some("a")
  {
    var d0, d1, d2 := OnePane("a"), WithCopies("a", "b", 1), WithCopies("a", "b", 2);
    CopiesAre("a", "b", 1);
    CopiesAre("a", "b", 2);
    var d3 := Close(d2, 0);
    assert Exec(d2, [CloseAt(0)]) == Exec(d3, []);
    assert Exec(d1, [Drop(Room("b"), 0, Right), CloseAt(0)]) == Exec(d2, [CloseAt(0)]);
    assert Exec(d0, RoomWitness()) == Exec(d1, [Drop(Room("b"), 0, Right), CloseAt(0)]);
  }

  function DraftWitness(): seq<Act> {
    [Drop(Room("b"), 0, Right), Type(1, "x"), CloseAt(0)]
  }

  /** Something is typed in the second pane. Closing the first, which is empty, loses it. */
  lemma ADraftIsLost()
    ensures Drafts(Exec(OnePane("a"), [Drop(Room("b"), 0, Right), Type(1, "x")])) == ["", "x"]
    ensures Drafts(Exec(OnePane("a"), DraftWitness())) == [""]
  {
    var d0, d1 := OnePane("a"), WithCopies("a", "b", 1);
    CopiesAre("a", "b", 1);
    var d2 := Next(d1, Type(1, "x"));
    var d3 := Close(d2, 0);
    assert d2.extra == [Pane(Some("b"), "x")];
    assert Exec(d2, []) == d2 && Exec(d2, [CloseAt(0)]) == Exec(d3, []);
    assert Exec(d1, [Type(1, "x")]) == Exec(d2, []);
    assert Exec(d1, [Type(1, "x"), CloseAt(0)]) == Exec(d2, [CloseAt(0)]);
    assert Exec(d0, [Drop(Room("b"), 0, Right), Type(1, "x")]) == Exec(d1, [Type(1, "x")]);
    assert Exec(d0, DraftWitness()) == Exec(d1, [Type(1, "x"), CloseAt(0)]);
  }

  // ---------------------------------------------------------------- the object

  class DockPage {
    var rects: seq<Rect>
    var main: Pane
    var extra: seq<Pane>
    var pending: Option<Source>

    ghost function View(): Dock
      reads this
    {
      Dock(rects, main, extra)
    }

    constructor (main: Pane)
      ensures View() == Dock([WHOLE], main, []) && pending == None
    {
      rects, extra, pending := [WHOLE], [], None;
      this.main := main;
    }

    method PlaceDock(index: nat, side: Side)
      requires Paired(View()) && index < |rects|
      requires pending.Some? && pending.value.Existing? ==> pending.value.index < |rects|
      modifies this
      ensures View() == if old(pending).None? then old(View()) else Place(old(View()), old(pending).value, index, side)
      ensures pending == if old(main.room).None? then old(pending) else None
    {
      if pending.None? || main.room.None? {
        return;
      }
      var source := pending.value;
      pending := None;
      if source.Existing? {
        if source.index == index {
          assert rects[index := rects[index]] == rects;
          return;
        }
        rects := rects[source.index := rects[index]][index := rects[source.index]];
        return;
      }
      if |rects| >= MAX_PANES {
        return;
      }
      var r := rects[index];
      var next := r;
      if side == Left || side == Right {
        next, r := next.(w := r.w / 2.0), r.(w := r.w / 2.0);
        if side == Left {
          r := r.(x := r.x + r.w);
        } else {
          next := next.(x := next.x + r.w);
        }
      } else {
        next, r := next.(h := r.h / 2.0), r.(h := r.h / 2.0);
        if side == Top {
          r := r.(y := r.y + r.h);
        } else {
          next := next.(y := next.y + r.h);
        }
      }
      rects := rects[index := r] + [next];
      extra := extra + [Pane(Some(source.id), "")];
    }

    method ClosePane(index: nat)
      requires Paired(View()) && index < |rects|
      modifies this`rects, this`main, this`extra
      ensures View() == Close(old(View()), index)
    {
      if |rects| < 2 {
        return;
      }
      if !Blank(if index == 0 then main.draft else extra[index - 1].draft) {
        return;
      }
      rects := Columns(|extra|);
      if index == 0 {
        var promote := extra[0];
        extra := extra[1..];
        if promote.room.Some? {
          var (m, es) := Select(main, extra, promote.room.value);
          main, extra := m, es;
        }
      } else {
        extra := extra[..index - 1] + extra[index..];
      }
    }
  }
}
