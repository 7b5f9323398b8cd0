/** The streaming preflight of worksheet XML: row and cell order checked with a
    depth counter, against the rows and cells of the tree behind the events, and
    the facts it reports about the sheet. */
module Worksheet {
  import opened Decimals
  import opened Options
  import opened CellReference
  import X = XmlCollection

  const MAX_CELLS := 16_000
  const PREFIX := "{http://schemas.openxmlformats.org/spreadsheetml/2006/main}"
  const ROW := PREFIX + "row"
  const CELL := PREFIX + "c"
  const DIMENSION := PREFIX + "dimension"

  datatype Fault = StructureUnsupported | CellLimitExceeded | ParseFailed

  datatype Outcome<+T> = Ok(value: T) | Err(fault: Fault)

  /** What has been read so far. */
  datatype Tally = Tally(lastRow: int, column: int, cells: seq<Coord>, dimensions: seq<X.Element>)

  datatype State = State(depth: int, rowDepth: Option<int>, tally: Tally)

  const EMPTY := Tally(0, 0, [], [])
  const INITIAL := State(0, None, EMPTY)

  // ---- One element ------------------------------------------------------------------------------

  /** The number of a row: the one it names, else the next one. */
  function RowNumber(e: X.Element, lastRow: int): Option<int> {
    var row :=
      if "r" !in e.attributes then Some(lastRow + 1)
      else if AllDigits(e.attributes["r"]) then Some(Decimal(e.attributes["r"]) as int)
      else None;
    if row.Some? && 1 <= row.value <= MAX_ROW && row.value > lastRow then row else None
  }

  /** The place of a cell in the current row: the one it names, else the next
      column; it must lie in that row and to the right of the previous cell. */
  function CellPlace(e: X.Element, t: Tally): Option<Coord> {
    var place := if "r" !in e.attributes then Some(Coord(t.lastRow, t.column + 1)) else Parse(e.attributes["r"]);
    if place.Some? && place.value.row == t.lastRow && place.value.column > t.column then place else None
  }

  function AddCell(t: Tally, place: Coord): Tally {
    t.(column := place.column, cells := t.cells + [place])
  }

  function FeedCell(s: State, e: X.Element, base: int): Outcome<State> {
    if e.tag != CELL then Err(StructureUnsupported)
    else if base + |s.tally.cells| + 1 > MAX_CELLS then Err(CellLimitExceeded)
    else
      var place := CellPlace(e, s.tally);
      if place.None? then Err(ParseFailed) else Ok(s.(tally := AddCell(s.tally, place.value)))
  }

  function FeedRow(s: State, e: X.Element): Outcome<State> {
    if s.rowDepth.Some? then Err(StructureUnsupported)
    else
      var row := RowNumber(e, s.tally.lastRow);
      if row.None? then Err(ParseFailed)
      else Ok(s.(rowDepth := Some(s.depth), tally := s.tally.(lastRow := row.value, column := 0)))
  }

  function Note(t: Tally, e: X.Element): Tally {
    if e.tag == DIMENSION then t.(dimensions := t.dimensions + [e]) else t
  }

  function Feed(s: State, event: X.Event, base: int): Outcome<State> {
    match event
    case Start(e) =>
      var s' := s.(depth := s.depth + 1);
      if s.rowDepth == Some(s.depth) then FeedCell(s', e, base)
      else if e.tag == ROW then FeedRow(s', e)
      else Ok(s'.(tally := Note(s.tally, e)))
    case End(e) =>
      Ok(s.(depth := s.depth - 1, rowDepth := if e.tag == ROW && s.rowDepth == Some(s.depth) then None else s.rowDepth))
  }

  function Run(o: Outcome<State>, events: seq<X.Event>, base: int): Outcome<State>
    decreases |events|
  {
    if o.Err? || events == [] then o else Run(Feed(o.value, events[0], base), events[1..], base)
  }

  // ---- Dimensions --------------------------------------------------------------------------------

  function SplitColon(s: string): (parts: seq<string>)
    ensures |parts| >= 1
  {
    if ':' !in s then [s]
    else if s[0] == ':' then [""] + SplitColon(s[1..])
    else
      var rest := SplitColon(s[1..]);
      [[s[0]] + rest[0]] + rest[1..]
  }

  function DimensionBounds(e: X.Element): Option<Coord> {
    if "ref" !in e.attributes then None
    else
      var parts := SplitColon(e.attributes["ref"]);
      if |parts| == 1 then Parse(parts[0])
      else if |parts| == 2 && Parse(parts[0]).Some? && Parse(parts[1]).Some?
              && Parse(parts[0]).value.row <= Parse(parts[1]).value.row
              && Parse(parts[0]).value.column <= Parse(parts[1]).value.column
      then Parse(parts[1])
      else None
  }

  /** A sheet that declares its dimension more than once declares nothing. */
  function Reported(dimensions: seq<X.Element>): Option<Coord> {
    if |dimensions| == 1 then DimensionBounds(dimensions[0]) else None
  }

  // ---- The loop -----------------------------------------------------------------------------------

  datatype Facts = Facts(stored: int, maxRow: int, maxColumn: int, reported: Option<Coord>)

  function MaxRow(cells: seq<Coord>): int {
    if cells == [] then 0
    else var m, last := MaxRow(cells[..|cells| - 1]), cells[|cells| - 1].row; if last > m then last else m
  }

  function MaxColumn(cells: seq<Coord>): int {
    if cells == [] then 0
    else var m, last := MaxColumn(cells[..|cells| - 1]), cells[|cells| - 1].column; if last > m then last else m
  }

  function FactsOf(t: Tally): Facts {
    Facts(|t.cells|, MaxRow(t.cells), MaxColumn(t.cells), Reported(t.dimensions))
  }

  function Preflight(events: seq<X.Event>, base: int): Outcome<Tally> {
    var o := Run(Ok(INITIAL), events, base);
    if o.Err? then Err(o.fault) else Ok(o.value.tally)
  }

  lemma {:induction false} RunConcat(o: Outcome<State>, a: seq<X.Event>, b: seq<X.Event>, base: int)
    ensures Run(o, a + b, base) == Run(Run(o, a, base), b, base)
    decreases |a|
  {
    hide Feed;
    if a == [] {
      assert a + b == b;
    } else if o.Ok? {
      RunConcat(Feed(o.value, a[0], base), a[1..], b, base);
      assert (a + b)[1..] == a[1..] + b;
    }
  }

  lemma RunSnoc(events: seq<X.Event>, i: nat, base: int)
    requires i < |events| && Run(Ok(INITIAL), events[..i], base).Ok?
    ensures Run(Ok(INITIAL), events[..i + 1], base) == Feed(Run(Ok(INITIAL), events[..i], base).value, events[i], base)
  {
    hide Feed;
    assert events[..i + 1] == events[..i] + [events[i]];
    RunConcat(Ok(INITIAL), events[..i], [events[i]], base);
    assert [events[i]][1..] == [];
  }

  lemma FaultStays(events: seq<X.Event>, i: nat, base: int)
    requires i <= |events| && Run(Ok(INITIAL), events[..i], base).Err?
    ensures Run(Ok(INITIAL), events, base) == Run(Ok(INITIAL), events[..i], base)
  {
    assert events == events[..i] + events[i..];
    RunConcat(Ok(INITIAL), events[..i], events[i..], base);
  }

  lemma AddedMaxima(cells: seq<Coord>, place: Coord)
    ensures MaxRow(cells + [place]) == if place.row > MaxRow(cells) then place.row else MaxRow(cells)
    ensures MaxColumn(cells + [place]) == if place.column > MaxColumn(cells) then place.column else MaxColumn(cells)
  {
    assert (cells + [place])[..|cells|] == cells;
  }

  /** The event loop, keeping counters and maxima instead of the cells. */
  method PreflightSheet(events: seq<X.Event>, base: int) returns (result: Outcome<Facts>, seen: int)
    ensures var o := Preflight(events, base);
            if o.Err? then result == Err(o.fault) else result == Ok(FactsOf(o.value)) && seen == base + |o.value.cells|
  {
    hide MaxRow, MaxColumn, Parse, Decimal, SplitColon;
    var stored, maxRow, maxColumn, lastRow, column, depth := 0, 0, 0, 0, 0, 0;
    var rowDepth: Option<int> := None;
    var reported: Option<Coord>, dimensionSeen := None, false;
    ghost var t := EMPTY;
    seen := base;
    assert MaxRow([]) == 0 && MaxColumn([]) == 0 by { EmptyMaxima(); }
    for i := 0 to |events|
      invariant Run(Ok(INITIAL), events[..i], base) == Ok(State(depth, rowDepth, t))
      invariant t.lastRow == lastRow && t.column == column && stored == |t.cells| && seen == base + stored
      invariant maxRow == MaxRow(t.cells) && maxColumn == MaxColumn(t.cells)
      invariant dimensionSeen == (t.dimensions != []) && reported == Reported(t.dimensions)
    {
      RunSnoc(events, i, base);
      var e := events[i].element;
      if events[i].Start? {
        depth := depth + 1;
        if rowDepth.Some? && depth == rowDepth.value + 1 {
          if e.tag != CELL { FaultStays(events, i + 1, base); return Err(StructureUnsupported), seen; }
          stored, seen := stored + 1, seen + 1;
          if seen > MAX_CELLS { FaultStays(events, i + 1, base); return Err(CellLimitExceeded), seen; }
          var place := Some(Coord(lastRow, column + 1));
          if "r" in e.attributes { place := Coordinates(e.attributes["r"]); }
          if place.None? || place.value.row != lastRow || place.value.column <= column {
            FaultStays(events, i + 1, base);
            return Err(ParseFailed), seen;
          }
          AddedMaxima(t.cells, place.value);
          t := AddCell(t, place.value);
          column := place.value.column;
          if place.value.row > maxRow { maxRow := place.value.row; }
          if place.value.column > maxColumn { maxColumn := place.value.column; }
        } else if e.tag == ROW {
          if rowDepth.Some? { FaultStays(events, i + 1, base); return Err(StructureUnsupported), seen; }
          var number := lastRow + 1;
          if "r" in e.attributes {
            if !AllDigits(e.attributes["r"]) { FaultStays(events, i + 1, base); return Err(ParseFailed), seen; }
            number := ReadDecimal(e.attributes["r"]);
          }
          if number < 1 || number > MAX_ROW || number <= lastRow { FaultStays(events, i + 1, base); return Err(ParseFailed), seen; }
          t := t.(lastRow := number, column := 0);
          rowDepth, lastRow, column := Some(depth), number, 0;
        } else if e.tag == DIMENSION {
          t := Note(t, e);
          reported := if dimensionSeen then None else DimensionBounds(e);
          dimensionSeen := true;
        }
      } else {
        if e.tag == ROW && rowDepth == Some(depth) { rowDepth := None; }
        depth := depth - 1;
      }
    }
    assert events[..|events|] == events;
    result := Ok(Facts(stored, maxRow, maxColumn, reported));
  }

  lemma EmptyMaxima()
    ensures MaxRow([]) == 0 && MaxColumn([]) == 0
  {
  }

  // ---- What the accepted cells are like ------------------------------------------------------------

  predicate Precedes(a: Coord, b: Coord) {
    a.row < b.row || (a.row == b.row && a.column < b.column)
  }

  ghost predicate Ascending(cells: seq<Coord>) {
    forall i, j :: 0 <= i < j < |cells| ==> Precedes(cells[i], cells[j])
  }

  /** Cells ascend, start at row and column one, and end where the tally is. */
  ghost predicate Orderly(t: Tally) {
    && Ascending(t.cells) && t.lastRow >= 0 && t.column >= 0
    && (forall i :: 0 <= i < |t.cells| ==>
          && 1 <= t.cells[i].row <= t.lastRow <= MAX_ROW && 1 <= t.cells[i].column
          && (t.cells[i].row == t.lastRow ==> t.cells[i].column <= t.column))
  }

  lemma AddOrderly(t: Tally, e: X.Element)
    requires Orderly(t) && 1 <= t.lastRow <= MAX_ROW && CellPlace(e, t).Some?
    ensures Orderly(AddCell(t, CellPlace(e, t).value))
  {
    hide Parse;
    var place := CellPlace(e, t).value;
    forall i | 0 <= i < |t.cells| ensures Precedes(t.cells[i], place) {}
  }

  ghost predicate Healthy(s: State, base: int) {
    && Orderly(s.tally) && (s.rowDepth.Some? ==> 1 <= s.tally.lastRow <= MAX_ROW)
    && (s.tally.cells != [] ==> base + |s.tally.cells| <= MAX_CELLS)
  }

  lemma FeedHealthy(s: State, event: X.Event, base: int)
    requires Healthy(s, base) && Feed(s, event, base).Ok?
    ensures Healthy(Feed(s, event, base).value, base)
  {
    hide Parse, Decimal;
    if event.Start? && s.rowDepth == Some(s.depth) {
      AddOrderly(s.tally, event.element);
    }
  }

  lemma {:induction false} RunHealthy(s: State, events: seq<X.Event>, base: int)
    requires Healthy(s, base) && Run(Ok(s), events, base).Ok?
    ensures Healthy(Run(Ok(s), events, base).value, base)
    decreases |events|
  {
    hide Feed, Healthy;
    if events != [] {
      FeedHealthy(s, events[0], base);
      RunHealthy(Feed(s, events[0], base).value, events[1..], base);
    }
  }

  /** The cells of an accepted sheet come in strictly increasing order, and the
      running total stays within the cap. */
  lemma AcceptedAscends(events: seq<X.Event>, base: int)
    requires Preflight(events, base).Ok?
    ensures var t := Preflight(events, base).value;
            && Ascending(t.cells) && (t.cells != [] ==> base + |t.cells| <= MAX_CELLS)
            && forall i :: 0 <= i < |t.cells| ==> 1 <= t.cells[i].row <= MAX_ROW && 1 <= t.cells[i].column
  {
    RunHealthy(INITIAL, events, base);
  }

  lemma TagsDiffer()
    ensures ROW != CELL && ROW != DIMENSION && CELL != DIMENSION
  {
    assert |ROW| == |PREFIX| + 3 && |CELL| == |PREFIX| + 1 && |DIMENSION| == |PREFIX| + 9;
  }

  // ---- The last column -----------------------------------------------------------------------------

  /** An implicit cell arrives in a row that has already reached the last column:
      the column it takes is not checked. */
  predicate OverrunsNow(s: State, event: X.Event) {
    && event.Start? && s.rowDepth == Some(s.depth) && event.element.tag == CELL && "r" !in event.element.attributes
    && s.tally.column == MAX_COLUMN
  }

  predicate Overruns(s: State, events: seq<X.Event>, base: int)
    decreases |events|
  {
    && events != []
    && (OverrunsNow(s, events[0]) || (Feed(s, events[0], base).Ok? && Overruns(Feed(s, events[0], base).value, events[1..], base)))
  }

  predicate Narrow(cells: seq<Coord>) {
    forall i :: 0 <= i < |cells| ==> cells[i].column <= MAX_COLUMN
  }

  lemma PlaceNarrow(e: X.Element, t: Tally)
    requires CellPlace(e, t).Some? && t.column <= MAX_COLUMN
    ensures CellPlace(e, t).value.column <= MAX_COLUMN <==> "r" in e.attributes || t.column < MAX_COLUMN
  {
    if "r" in e.attributes { ParsedNarrow(e.attributes["r"]); }
    hide Parse;
  }

  lemma ParsedNarrow(value: string)
    ensures Parse(value).Some? ==> Parse(value).value.column <= MAX_COLUMN
  {
    hide Decimal, Column, Leading, Uppered;
  }

  lemma FeedNarrow(s: State, event: X.Event, base: int)
    requires Feed(s, event, base).Ok? && Narrow(s.tally.cells) && s.tally.column <= MAX_COLUMN
    ensures var t := Feed(s, event, base).value.tally;
            if OverrunsNow(s, event) then !Narrow(t.cells) else Narrow(t.cells) && t.column <= MAX_COLUMN
  {
    hide RowNumber;
    if event.Start? && s.rowDepth == Some(s.depth) {
      PlaceNarrow(event.element, s.tally);
      hide CellPlace;
      var t := Feed(s, event, base).value.tally;
      assert t.cells[|t.cells| - 1].column == t.column;
    }
  }

  lemma {:induction false} RunWide(s: State, events: seq<X.Event>, base: int)
    requires Run(Ok(s), events, base).Ok? && !Narrow(s.tally.cells)
    ensures !Narrow(Run(Ok(s), events, base).value.tally.cells)
    decreases |events|
  {
    if events != [] {
      CellsStay(s, events[0], base);
      hide Feed;
      var i :| 0 <= i < |s.tally.cells| && s.tally.cells[i].column > MAX_COLUMN;
      assert Feed(s, events[0], base).value.tally.cells[i] == s.tally.cells[i];
      RunWide(Feed(s, events[0], base).value, events[1..], base);
    }
  }

  lemma CellsStay(s: State, event: X.Event, base: int)
    requires Feed(s, event, base).Ok?
    ensures s.tally.cells <= Feed(s, event, base).value.tally.cells
  {
    hide CellPlace, RowNumber;
  }

  lemma {:induction false} RunNarrow(s: State, events: seq<X.Event>, base: int)
    requires Run(Ok(s), events, base).Ok? && Narrow(s.tally.cells) && s.tally.column <= MAX_COLUMN
    ensures Narrow(Run(Ok(s), events, base).value.tally.cells) <==> !Overruns(s, events, base)
    decreases |events|
  {
    if events != [] {
      FeedNarrow(s, events[0], base);
      hide Feed, OverrunsNow, Narrow;
      var s' := Feed(s, events[0], base).value;
      if OverrunsNow(s, events[0]) { RunWide(s', events[1..], base); } else { RunNarrow(s', events[1..], base); }
    }
  }

  /** An accepted sheet stays within the last column exactly when no cell without a
      reference follows a cell in that column. */
  lemma ColumnsWithinIff(events: seq<X.Event>, base: int)
    requires Preflight(events, base).Ok?
    ensures Narrow(Preflight(events, base).value.cells) <==> !Overruns(INITIAL, events, base)
  {
    RunNarrow(INITIAL, events, base);
  }

  /** The events of one row with two cells. */
  function RowOfTwo(row: X.Element, first: X.Element, second: X.Element): seq<X.Event> {
    [X.Start(row), X.Start(first), X.End(first), X.Start(second), X.End(second), X.End(row)]
  }

  /** A row with a cell in the last column and one more cell without a reference is
      accepted, with the column after the last one. */
  lemma ColumnOverrun(row: X.Element, first: X.Element, second: X.Element, base: int)
    requires base + 2 <= MAX_CELLS && row.tag == ROW && first.tag == CELL && second.tag == CELL
    requires "r" !in row.attributes && "r" in first.attributes && "r" !in second.attributes
    requires first.attributes["r"] == Print(Coord(1, MAX_COLUMN))
    ensures Preflight(RowOfTwo(row, first, second), base).Ok?
    ensures Preflight(RowOfTwo(row, first, second), base).value.cells == [Coord(1, MAX_COLUMN), Coord(1, MAX_COLUMN + 1)]
  {
    hide Feed, CellPlace, Parse, Print;
    TagsDiffer();
    var t0 := Tally(1, 0, [], []);
    var t1 := AddCell(t0, Coord(1, MAX_COLUMN));
    var t2 := AddCell(t1, Coord(1, MAX_COLUMN + 1));
    RowTurns(row, t2, base);
    OverrunPlaces(first, second, t0, t1);
    FeedPlaced(State(1, Some(1), t0), first, Coord(1, MAX_COLUMN), base);
    FeedPlaced(State(1, Some(1), t1), second, Coord(1, MAX_COLUMN + 1), base);
    RunSix(X.Start(row), X.Start(first), X.End(first), X.Start(second), X.End(second), X.End(row), base,
           State(1, Some(1), t0), State(2, Some(1), t1), State(1, Some(1), t1), State(2, Some(1), t2), State(1, Some(1), t2), State(0, None, t2));
  }

  lemma RowTurns(row: X.Element, t: Tally, base: int)
    requires row.tag == ROW && "r" !in row.attributes
    ensures Feed(INITIAL, X.Start(row), base) == Ok(State(1, Some(1), Tally(1, 0, [], [])))
    ensures Feed(State(1, Some(1), t), X.End(row), base) == Ok(State(0, None, t))
  {
  }

  lemma OverrunPlaces(first: X.Element, second: X.Element, t0: Tally, t1: Tally)
    requires "r" in first.attributes && first.attributes["r"] == Print(Coord(1, MAX_COLUMN)) && "r" !in second.attributes
    requires t0.lastRow == t1.lastRow == 1 && t0.column == 0 && t1.column == MAX_COLUMN
    ensures CellPlace(first, t0) == Some(Coord(1, MAX_COLUMN)) && CellPlace(second, t1) == Some(Coord(1, MAX_COLUMN + 1))
  {
    hide Parse, Print;
    EveryCellReadable(Coord(1, MAX_COLUMN));
  }

  lemma FeedPlaced(s: State, e: X.Element, place: Coord, base: int)
    requires s.rowDepth == Some(s.depth) && e.tag == CELL && ROW != CELL && CellPlace(e, s.tally) == Some(place)
    requires base + |s.tally.cells| + 1 <= MAX_CELLS
    ensures var s' := s.(depth := s.depth + 1, tally := AddCell(s.tally, place));
            Feed(s, X.Start(e), base) == Ok(s') && Feed(s', X.End(e), base) == Ok(s'.(depth := s.depth))
  {
    hide CellPlace;
  }

  lemma RunSix(a: X.Event, b: X.Event, c: X.Event, d: X.Event, e: X.Event, f: X.Event, base: int,
               s1: State, s2: State, s3: State, s4: State, s5: State, s6: State)
    requires Feed(INITIAL, a, base) == Ok(s1) && Feed(s1, b, base) == Ok(s2) && Feed(s2, c, base) == Ok(s3)
    requires Feed(s3, d, base) == Ok(s4) && Feed(s4, e, base) == Ok(s5) && Feed(s5, f, base) == Ok(s6)
    ensures Run(Ok(INITIAL), [a, b, c, d, e, f], base) == Ok(s6)
  {
    hide Feed;
    RunStep(INITIAL, a, [b, c, d, e, f], base);
    RunStep(s1, b, [c, d, e, f], base);
    RunStep(s2, c, [d, e, f], base);
    RunStep(s3, d, [e, f], base);
    RunStep(s4, e, [f], base);
    RunStep(s5, f, [], base);
    assert [a] + [b, c, d, e, f] == [a, b, c, d, e, f] && [b] + [c, d, e, f] == [b, c, d, e, f] && [c] + [d, e, f] == [c, d, e, f];
    assert [d] + [e, f] == [d, e, f] && [e] + [f] == [e, f] && [f] + [] == [f];
  }

  lemma RunStep(s: State, event: X.Event, rest: seq<X.Event>, base: int)
    ensures Run(Ok(s), [event] + rest, base) == Run(Feed(s, event, base), rest, base)
  {
    hide Feed;
    assert ([event] + rest)[1..] == rest;
  }

  function CellSet(cells: seq<Coord>): set<Coord> {
    set i | 0 <= i < |cells| :: cells[i]
  }

  lemma {:induction false} Distinct(cells: seq<Coord>)
    requires Ascending(cells)
    ensures |CellSet(cells)| == |cells|
    decreases |cells|
  {
    if cells != [] {
      var front, last := cells[..|cells| - 1], cells[|cells| - 1];
      Distinct(front);
      assert CellSet(cells) == CellSet(front) + {last};
      assert last !in CellSet(front);
    }
  }

  lemma {:induction false} MaximaExact(cells: seq<Coord>)
    requires forall i :: 0 <= i < |cells| ==> cells[i].row >= 1 && cells[i].column >= 1
    ensures forall i :: 0 <= i < |cells| ==> cells[i].row <= MaxRow(cells) && cells[i].column <= MaxColumn(cells)
    ensures cells != [] ==> exists i :: 0 <= i < |cells| && cells[i].row == MaxRow(cells)
    ensures cells != [] ==> exists i :: 0 <= i < |cells| && cells[i].column == MaxColumn(cells)
    decreases |cells|
  {
    if cells != [] {
      var n := |cells| - 1;
      var front := cells[..n];
      MaximaExact(front);
      assert forall i :: 0 <= i < n ==> front[i] == cells[i];
      if cells[n].row > MaxRow(front) || n == 0 { assert cells[n].row == MaxRow(cells); }
      if cells[n].column > MaxColumn(front) || n == 0 { assert cells[n].column == MaxColumn(cells); }
    }
  }

  /** Row-major position of a cell in a grid of the given width. */
  function Position(c: Coord, width: int): int {
    (c.row - 1) * width + c.column - 1
  }

  lemma PositionAscends(a: Coord, b: Coord, width: int)
    requires Precedes(a, b) && 1 <= a.column <= width && 1 <= b.column <= width
    ensures Position(a, width) < Position(b, width)
  {
    if a.row < b.row { RowsAscend(a.row, b.row, width); }
  }

  lemma RowsAscend(i: int, j: int, width: int)
    requires i < j && width >= 0
    ensures (i - 1) * width + width <= (j - 1) * width
  {
    var gap := j - 1 - i;
    assert gap * width >= 0;
    assert (j - 1) * width == (i - 1 + (gap + 1)) * width == (i - 1) * width + (gap + 1) * width;
    assert (gap + 1) * width == gap * width + width;
  }

  lemma {:induction false} PositionsGrow(cells: seq<Coord>, width: int, k: nat)
    requires Ascending(cells) && k < |cells| && width >= 1
    requires forall i :: 0 <= i < |cells| ==> 1 <= cells[i].row && 1 <= cells[i].column <= width
    ensures Position(cells[k], width) >= k
  {
    hide Position;
    if k == 0 {
      PositionFirst(cells[0], width);
    } else {
      PositionsGrow(cells, width, k - 1);
      PositionAscends(cells[k - 1], cells[k], width);
    }
  }

  lemma PositionFirst(c: Coord, width: int)
    requires c.row >= 1 && c.column >= 1 && width >= 1
    ensures Position(c, width) >= 0
  {
    assert (c.row - 1) * width >= 0;
  }

  lemma PositionLast(c: Coord, rows: int, width: int)
    requires c.row <= rows && c.column <= width && width >= 1
    ensures Position(c, width) < rows * width
  {
    assert (rows - c.row) * width >= 0;
    assert rows * width == (rows - c.row) * width + c.row * width;
    assert c.row * width == (c.row - 1) * width + width;
  }

  /** The facts about an accepted sheet are exact: as many cells as counted, all
      different, the maxima attained, and no more cells than the grid they span. */
  lemma FactsExact(events: seq<X.Event>, base: int)
    requires Preflight(events, base).Ok?
    ensures var t := Preflight(events, base).value;
            var f := FactsOf(t);
            && f.stored == |CellSet(t.cells)| <= f.maxRow * f.maxColumn
            && (forall c :: c in CellSet(t.cells) ==> 1 <= c.row <= f.maxRow && 1 <= c.column <= f.maxColumn)
            && (t.cells != [] ==>
                  (exists c :: c in CellSet(t.cells) && c.row == f.maxRow) && (exists c :: c in CellSet(t.cells) && c.column == f.maxColumn))
            && (t.cells == [] ==> f.maxRow == 0 && f.maxColumn == 0)
  {
    AcceptedAscends(events, base);
    hide Preflight;
    var cells := Preflight(events, base).value.cells;
    Distinct(cells);
    MaximaExact(cells);
    if cells != [] {
      var n := |cells| - 1;
      var width := MaxColumn(cells);
      hide MaxRow, MaxColumn, Position;
      assert 1 <= cells[0].column <= width;
      PositionsGrow(cells, width, n);
      PositionLast(cells[n], MaxRow(cells), width);
      var i :| 0 <= i < |cells| && cells[i].row == MaxRow(cells);
      var j :| 0 <= j < |cells| && cells[j].column == MaxColumn(cells);
      assert cells[i] in CellSet(cells) && cells[j] in CellSet(cells);
    }
  }

  // ---- All sheets of a workbook ----------------------------------------------------------------------

  /** The sheets one after the other, each starting from the total so far. */
  function Sheets(sheets: seq<seq<X.Event>>, base: int): Outcome<seq<Tally>>
    decreases |sheets|
  {
    if sheets == [] then Ok([])
    else
      match Preflight(sheets[0], base)
      case Err(fault) => Err(fault)
      case Ok(t) =>
        match Sheets(sheets[1..], base + |t.cells|)
        case Err(fault) => Err(fault)
        case Ok(rest) => Ok([t] + rest)
  }

  function Total(tallies: seq<Tally>): int {
    if tallies == [] then 0 else |tallies[0].cells| + Total(tallies[1..])
  }

  /** Over all accepted sheets together the cells stay within the cap. */
  lemma {:induction false} WorkbookWithinCap(sheets: seq<seq<X.Event>>, base: int)
    requires 0 <= base <= MAX_CELLS && Sheets(sheets, base).Ok?
    ensures base + Total(Sheets(sheets, base).value) <= MAX_CELLS
    decreases |sheets|
  {
    hide Preflight;
    if sheets != [] {
      AcceptedAscends(sheets[0], base);
      var t := Preflight(sheets[0], base).value;
      WorkbookWithinCap(sheets[1..], base + |t.cells|);
      var rest := Sheets(sheets[1..], base + |t.cells|).value;
      assert ([t] + rest)[1..] == rest;
    }
  }

  function AllFacts(tallies: seq<Tally>): seq<Facts> {
    seq(|tallies|, i requires 0 <= i < |tallies| => FactsOf(tallies[i]))
  }

  method PreflightWorkbook(sheets: seq<seq<X.Event>>) returns (result: Outcome<seq<Facts>>, seen: int)
    ensures var o := Sheets(sheets, 0);
            if o.Err? then result == Err(o.fault) else result == Ok(AllFacts(o.value)) && seen == Total(o.value) <= MAX_CELLS
  {
    hide Preflight, FactsOf;
    var facts: seq<Facts> := [];
    ghost var done: seq<Tally> := [];
    seen := 0;
    assert sheets[0..] == sheets;
    assert Sheets(sheets, 0).Ok? ==> [] + Sheets(sheets, 0).value == Sheets(sheets, 0).value;
    for i := 0 to |sheets|
      invariant facts == AllFacts(done) && seen == Total(done)
      invariant Continues(sheets, i, done, seen)
    {
      var outcome: Outcome<Facts>;
      ghost var before := seen;
      outcome, seen := PreflightSheet(sheets[i], seen);
      ContinueOne(sheets, i, done, before);
      if outcome.Err? { return Err(outcome.fault), seen; }
      ghost var t := Preflight(sheets[i], before).value;
      TotalSnoc(done, t);
      assert AllFacts(done + [t]) == AllFacts(done) + [FactsOf(t)];
      done := done + [t];
      facts := facts + [outcome.value];
    }
    assert sheets[|sheets|..] == [] && done + [] == done;
    WorkbookWithinCap(sheets, 0);
    result := Ok(facts);
  }

  /** The first i sheets are done; what is left decides the rest. */
  ghost predicate Continues(sheets: seq<seq<X.Event>>, i: nat, done: seq<Tally>, seen: int)
    requires i <= |sheets|
  {
    Sheets(sheets, 0) ==
      match Sheets(sheets[i..], seen) case Err(fault) => Err(fault) case Ok(rest) => Ok(done + rest)
  }

  lemma ContinueOne(sheets: seq<seq<X.Event>>, i: nat, done: seq<Tally>, seen: int)
    requires i < |sheets| && Continues(sheets, i, done, seen)
    ensures var o := Preflight(sheets[i], seen);
            if o.Err? then Sheets(sheets, 0) == Err(o.fault) else Continues(sheets, i + 1, done + [o.value], seen + |o.value.cells|)
  {
    hide Preflight;
    assert sheets[i..][1..] == sheets[i + 1..];
    var o := Preflight(sheets[i], seen);
    if o.Ok? {
      var rest := Sheets(sheets[i + 1..], seen + |o.value.cells|);
      if rest.Ok? { assert done + ([o.value] + rest.value) == done + [o.value] + rest.value; }
    }
  }

  lemma {:induction false} TotalSnoc(tallies: seq<Tally>, t: Tally)
    ensures Total(tallies + [t]) == Total(tallies) + |t.cells|
  {
    if tallies == [] {
      assert [t][1..] == [];
    } else {
      TotalSnoc(tallies[1..], t);
      assert (tallies + [t])[1..] == tallies[1..] + [t];
    }
  }
}
