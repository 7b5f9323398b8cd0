/** The preflight of a worksheet seen from its tree: it accepts exactly when the
    outermost rows are numbered upwards, hold only cells, and place them from
    left to right, and it reads exactly those cells. */
module WorksheetTree {
  import opened Options
  import opened CellReference
  import opened Worksheet
  import X = XmlCollection

  type Node = X.Node

  // ---- The tree ------------------------------------------------------------------------------------

  predicate HasRow(n: Node)
    decreases n, 1
  {
    n.element.tag == ROW || exists i :: 0 <= i < |n.children| && HasRow(n.children[i])
  }

  predicate AnyRow(ns: seq<Node>) {
    exists i :: 0 <= i < |ns| && HasRow(ns[i])
  }

  /** Dimension elements in document order. */
  function Dimensions(n: Node): seq<X.Element>
    decreases n, 1
  {
    (if n.element.tag == DIMENSION then [n.element] else []) + ForestDimensions(n.children)
  }

  function ForestDimensions(ns: seq<Node>): seq<X.Element>
    decreases ns, 0
  {
    if ns == [] then [] else Dimensions(ns[0]) + ForestDimensions(ns[1..])
  }

  /** The outermost rows in document order. */
  function Rows(n: Node): seq<Node>
    decreases n, 1
  {
    if n.element.tag == ROW then [n] else ForestRows(n.children)
  }

  function ForestRows(ns: seq<Node>): seq<Node>
    decreases ns, 0
  {
    if ns == [] then [] else Rows(ns[0]) + ForestRows(ns[1..])
  }

  /** The cells of one row, placed from `column` on; none if a child is no cell,
      hides a row, or is out of place. */
  function RowCells(ns: seq<Node>, row: int, column: int): Option<seq<Coord>> {
    if ns == [] then Some([])
    else if ns[0].element.tag != CELL || AnyRow(ns[0].children) then None
    else
      var place := CellPlace(ns[0].element, Tally(row, column, [], []));
      if place.None? then None
      else
        var rest := RowCells(ns[1..], row, place.value.column);
        if rest.None? then None else Some([place.value] + rest.value)
  }

  datatype Placed = Placed(cells: seq<Coord>, lastRow: int)

  /** The cells of the rows, numbered upwards from `last`. */
  function SheetCells(rows: seq<Node>, last: int): Option<Placed> {
    if rows == [] then Some(Placed([], last))
    else
      var number := RowNumber(rows[0].element, last);
      if number.None? then None
      else
        var cells := RowCells(rows[0].children, number.value, 0);
        if cells.None? then None
        else
          var rest := SheetCells(rows[1..], number.value);
          if rest.None? then None else Some(Placed(cells.value + rest.value.cells, rest.value.lastRow))
  }

  // ---- What the machine does with a subtree ------------------------------------------------------------

  /** The run ends in the given tally with depth and row as before, or fails. */
  ghost predicate Agrees(o: Outcome<State>, s: State, t: Option<Tally>) {
    if t.None? then o.Err? else o == Ok(s.(tally := t.value))
  }

  lemma RunNode(s: State, n: Node, base: int)
    ensures var inside := Run(Feed(s, X.Start(n.element), base), X.ForestEvents(n.children), base);
            Run(Ok(s), X.Events(n), base) == if inside.Err? then inside else Feed(inside.value, X.End(n.element), base)
  {
    hide Feed;
    var rest := X.ForestEvents(n.children) + [X.End(n.element)];
    assert X.Events(n) == [X.Start(n.element)] + rest;
    assert X.Events(n)[1..] == rest;
    RunConcat(Feed(s, X.Start(n.element), base), X.ForestEvents(n.children), [X.End(n.element)], base);
    assert [X.End(n.element)][1..] == [];
  }

  lemma RunForest(o: Outcome<State>, ns: seq<Node>, base: int)
    requires ns != []
    ensures Run(o, X.ForestEvents(ns), base) == Run(Run(o, X.Events(ns[0]), base), X.ForestEvents(ns[1..]), base)
  {
    hide Feed, X.Events;
    RunConcat(o, X.Events(ns[0]), X.ForestEvents(ns[1..]), base);
  }

  predicate InCell(s: State) {
    s.rowDepth.Some? && s.depth > s.rowDepth.value
  }

  function Noted(t: Tally, more: seq<X.Element>): Tally {
    t.(dimensions := t.dimensions + more)
  }

  lemma NotedTwice(t: Tally, a: seq<X.Element>, b: seq<X.Element>)
    ensures Noted(Noted(t, a), b) == Noted(t, a + b)
    ensures Noted(t, []) == t
  {
    assert t.dimensions + a + b == t.dimensions + (a + b);
  }

  /** Below a cell a subtree only adds dimensions, unless it hides a row. */
  lemma {:induction false} RunBelow(s: State, n: Node, base: int)
    requires InCell(s)
    ensures Agrees(Run(Ok(s), X.Events(n), base), s, if HasRow(n) then None else Some(Noted(s.tally, Dimensions(n))))
    decreases n, 1
  {
    TagsDiffer();
    RunNode(s, n, base);
    hide FeedCell, RowNumber, X.Events;
    if n.element.tag != ROW {
      var t := Note(s.tally, n.element);
      RunForestBelow(s.(depth := s.depth + 1, tally := t), n.children, base);
      NotedTwice(s.tally, if n.element.tag == DIMENSION then [n.element] else [], ForestDimensions(n.children));
      hide ForestDimensions, X.ForestEvents;
      assert t == Noted(s.tally, if n.element.tag == DIMENSION then [n.element] else []);
      hide Noted, Note;
    }
  }

  lemma {:induction false} RunForestBelow(s: State, ns: seq<Node>, base: int)
    requires InCell(s)
    ensures Agrees(Run(Ok(s), X.ForestEvents(ns), base), s, if AnyRow(ns) then None else Some(Noted(s.tally, ForestDimensions(ns))))
    decreases ns, 0
  {
    hide Feed, X.Events, Dimensions, HasRow;
    if ns == [] {
      NotedTwice(s.tally, [], []);
    } else {
      RunForest(Ok(s), ns, base);
      RunBelow(s, ns[0], base);
      AnyRowCons(ns);
      if !HasRow(ns[0]) {
        RunForestBelow(s.(tally := Noted(s.tally, Dimensions(ns[0]))), ns[1..], base);
        NotedTwice(s.tally, Dimensions(ns[0]), ForestDimensions(ns[1..]));
      }
      hide Noted, AnyRow;
    }
  }

  lemma AnyRowCons(ns: seq<Node>)
    requires ns != []
    ensures AnyRow(ns) <==> HasRow(ns[0]) || AnyRow(ns[1..])
  {
    hide HasRow;
    assert forall i :: 0 < i < |ns| ==> ns[i] == ns[1..][i - 1];
    assert forall i :: 0 <= i < |ns| - 1 ==> ns[1..][i] == ns[i + 1];
  }

  function ReadCell(t: Tally, n: Node, base: int): Option<Tally> {
    if n.element.tag != CELL || base + |t.cells| + 1 > MAX_CELLS || CellPlace(n.element, t).None? || AnyRow(n.children) then None
    else Some(Noted(AddCell(t, CellPlace(n.element, t).value), ForestDimensions(n.children)))
  }

  function ReadCells(t: Tally, ns: seq<Node>, base: int): Option<Tally>
    decreases |ns|
  {
    if ns == [] then Some(t)
    else
      var t' := ReadCell(t, ns[0], base);
      if t'.None? then None else ReadCells(t'.value, ns[1..], base)
  }

  lemma RunCell(s: State, n: Node, base: int)
    requires s.rowDepth == Some(s.depth)
    ensures Agrees(Run(Ok(s), X.Events(n), base), s, ReadCell(s.tally, n, base))
  {
    TagsDiffer();
    RunNode(s, n, base);
    hide X.Events, AnyRow;
    if n.element.tag == CELL && base + |s.tally.cells| + 1 <= MAX_CELLS && CellPlace(n.element, s.tally).Some? {
      RunForestBelow(s.(depth := s.depth + 1, tally := AddCell(s.tally, CellPlace(n.element, s.tally).value)), n.children, base);
    }
    hide CellPlace, ForestDimensions, X.ForestEvents, Noted;
  }

  lemma {:induction false} RunCells(s: State, ns: seq<Node>, base: int)
    requires s.rowDepth == Some(s.depth)
    ensures Agrees(Run(Ok(s), X.ForestEvents(ns), base), s, ReadCells(s.tally, ns, base))
    decreases |ns|
  {
    hide Feed, X.Events, ReadCell;
    if ns != [] {
      RunForest(Ok(s), ns, base);
      RunCell(s, ns[0], base);
      var t := ReadCell(s.tally, ns[0], base);
      if t.Some? { RunCells(s.(tally := t.value), ns[1..], base); }
    }
  }

  function ReadRow(t: Tally, n: Node, base: int): Option<Tally> {
    var number := RowNumber(n.element, t.lastRow);
    if number.None? then None else ReadCells(t.(lastRow := number.value, column := 0), n.children, base)
  }

  function ReadTree(t: Tally, n: Node, base: int): Option<Tally>
    decreases n, 1
  {
    if n.element.tag == ROW then ReadRow(t, n, base) else ReadForest(Note(t, n.element), n.children, base)
  }

  function ReadForest(t: Tally, ns: seq<Node>, base: int): Option<Tally>
    decreases ns, 0
  {
    if ns == [] then Some(t)
    else
      var t' := ReadTree(t, ns[0], base);
      if t'.None? then None else ReadForest(t'.value, ns[1..], base)
  }

  lemma RunRow(s: State, n: Node, base: int)
    requires s.rowDepth.None? && n.element.tag == ROW
    ensures Agrees(Run(Ok(s), X.Events(n), base), s, ReadRow(s.tally, n, base))
  {
    RunNode(s, n, base);
    hide X.Events;
    var number := RowNumber(n.element, s.tally.lastRow);
    if number.Some? {
      RunCells(State(s.depth + 1, Some(s.depth + 1), s.tally.(lastRow := number.value, column := 0)), n.children, base);
    }
    hide ReadCells, X.ForestEvents, RowNumber;
  }

  /** Outside any row. */
  lemma {:induction false} RunTree(s: State, n: Node, base: int)
    requires s.rowDepth.None?
    ensures Agrees(Run(Ok(s), X.Events(n), base), s, ReadTree(s.tally, n, base))
    decreases n, 1
  {
    if n.element.tag == ROW {
      hide Agrees, ReadRow;
      RunRow(s, n, base);
    } else {
      RunNode(s, n, base);
      hide X.Events;
      RunTrees(s.(depth := s.depth + 1, tally := Note(s.tally, n.element)), n.children, base);
      hide ReadForest, X.ForestEvents, Note;
    }
  }

  lemma {:induction false} RunTrees(s: State, ns: seq<Node>, base: int)
    requires s.rowDepth.None?
    ensures Agrees(Run(Ok(s), X.ForestEvents(ns), base), s, ReadForest(s.tally, ns, base))
    decreases ns, 0
  {
    hide Feed, X.Events, ReadTree;
    if ns != [] {
      RunForest(Ok(s), ns, base);
      RunTree(s, ns[0], base);
      var t := ReadTree(s.tally, ns[0], base);
      if t.Some? { RunTrees(s.(tally := t.value), ns[1..], base); }
    }
  }

  // ---- From reading in order to the declarative shape ----------------------------------------------------

  /** The tally after adding these cells and dimensions and ending at that row. */
  predicate Extended(t: Tally, t': Tally, cells: seq<Coord>, dimensions: seq<X.Element>, last: int) {
    t'.cells == t.cells + cells && t'.dimensions == t.dimensions + dimensions && t'.lastRow == last
  }

  predicate Fits(t: Tally, cells: seq<Coord>, base: int) {
    cells != [] ==> base + |t.cells| + |cells| <= MAX_CELLS
  }

  /** Reading gives this outcome for these cells, unless the cap is passed. */
  ghost predicate Reads(r: Option<Tally>, t: Tally, placed: Option<Placed>, dimensions: seq<X.Element>, base: int) {
    if placed.Some? && Fits(t, placed.value.cells, base)
    then r.Some? && Extended(t, r.value, placed.value.cells, dimensions, placed.value.lastRow)
    else r.None?
  }

  lemma ExtendedChain(t: Tally, t': Tally, t'': Tally, a: seq<Coord>, b: seq<Coord>, da: seq<X.Element>, db: seq<X.Element>, last: int, last': int)
    requires Extended(t, t', a, da, last) && Extended(t', t'', b, db, last')
    ensures Extended(t, t'', a + b, da + db, last')
  {
    assert t.cells + a + b == t.cells + (a + b) && t.dimensions + da + db == t.dimensions + (da + db);
  }

  lemma PlaceSame(e: X.Element, t: Tally)
    ensures CellPlace(e, t) == CellPlace(e, Tally(t.lastRow, t.column, [], []))
  {
    hide Parse;
  }

  lemma {:induction false} ReadCellsExact(t: Tally, ns: seq<Node>, base: int)
    ensures var cells := RowCells(ns, t.lastRow, t.column);
            Reads(ReadCells(t, ns, base), t, if cells.None? then None else Some(Placed(cells.value, t.lastRow)), ForestDimensions(ns), base)
    decreases |ns|
  {
    hide CellPlace;
    if ns == [] {
      assert t.cells + [] == t.cells && t.dimensions + [] == t.dimensions;
    } else {
      PlaceSame(ns[0].element, t);
      hide AnyRow;
      var r := ReadCell(t, ns[0], base);
      if r.Some? {
        var place := CellPlace(ns[0].element, t).value;
        ReadCellsExact(r.value, ns[1..], base);
        CellDimensions(ns);
        var rest := RowCells(ns[1..], t.lastRow, place.column);
        if rest.Some? && Fits(r.value, rest.value, base) {
          ExtendedChain(t, r.value, ReadCells(t, ns, base).value, [place], rest.value,
            ForestDimensions(ns[0].children), ForestDimensions(ns[1..]), t.lastRow, t.lastRow);
        }
      }
      hide ForestDimensions, Extended;
    }
  }

  lemma CellDimensions(ns: seq<Node>)
    requires ns != [] && ns[0].element.tag == CELL
    ensures ForestDimensions(ns) == ForestDimensions(ns[0].children) + ForestDimensions(ns[1..])
  {
    TagsDiffer();
    assert Dimensions(ns[0]) == ForestDimensions(ns[0].children);
  }

  lemma ReadRowExact(t: Tally, n: Node, base: int)
    requires n.element.tag == ROW
    ensures Reads(ReadRow(t, n, base), t, SheetCells([n], t.lastRow), Dimensions(n), base)
  {
    var number := RowNumber(n.element, t.lastRow);
    hide RowNumber;
    if number.Some? {
      ReadCellsExact(t.(lastRow := number.value, column := 0), n.children, base);
      TagsDiffer();
      assert Dimensions(n) == ForestDimensions(n.children);
      hide Dimensions, ReadCells;
      var cells := RowCells(n.children, number.value, 0);
      assert [n][1..] == [];
      if cells.Some? { assert cells.value + [] == cells.value; }
    }
  }

  lemma {:induction false} SheetConcat(a: seq<Node>, b: seq<Node>, last: int)
    ensures var first := SheetCells(a, last);
            SheetCells(a + b, last) ==
              if first.None? then None
              else
                var rest := SheetCells(b, first.value.lastRow);
                if rest.None? then None else Some(Placed(first.value.cells + rest.value.cells, rest.value.lastRow))
    decreases |a|
  {
    hide RowNumber, RowCells;
    if a == [] {
      assert a + b == b;
      var rest := SheetCells(b, last);
      if rest.Some? { assert [] + rest.value.cells == rest.value.cells; }
    } else {
      assert (a + b)[1..] == a[1..] + b;
      var number := RowNumber(a[0].element, last);
      if number.Some? {
        SheetConcat(a[1..], b, number.value);
        SheetConcatAssoc(a, b, last);
      }
    }
  }

  lemma SheetConcatAssoc(a: seq<Node>, b: seq<Node>, last: int)
    requires a != [] && RowNumber(a[0].element, last).Some?
    ensures var number := RowNumber(a[0].element, last).value;
            var cells := RowCells(a[0].children, number, 0);
            var middle := SheetCells(a[1..], number);
            cells.Some? && middle.Some? ==>
              var rest := SheetCells(b, middle.value.lastRow);
              rest.Some? ==> cells.value + (middle.value.cells + rest.value.cells) == (cells.value + middle.value.cells) + rest.value.cells
  {
  }

  /** One part after the other. */
  lemma ReadsThen(r: Option<Tally>, r': Option<Tally>, t: Tally, a: Option<Placed>, b: Option<Placed>, ab: Option<Placed>,
                  da: seq<X.Element>, db: seq<X.Element>, base: int)
    requires Reads(r, t, a, da, base)
    requires r.Some? ==> Reads(r', r.value, b, db, base)
    requires r.None? ==> r'.None?
    requires ab == if a.None? || b.None? then None else Some(Placed(a.value.cells + b.value.cells, b.value.lastRow))
    ensures Reads(r', t, ab, da + db, base)
  {
    if r.Some? && r'.Some? {
      ExtendedChain(t, r.value, r'.value, a.value.cells, b.value.cells, da, db, a.value.lastRow, b.value.lastRow);
    }
  }

  lemma {:induction false} ReadTreeExact(t: Tally, n: Node, base: int)
    ensures Reads(ReadTree(t, n, base), t, SheetCells(Rows(n), t.lastRow), Dimensions(n), base)
    decreases n, 1
  {
    if n.element.tag == ROW {
      hide Reads, ReadRow, Dimensions;
      ReadRowExact(t, n, base);
    } else {
      ReadForestExact(Note(t, n.element), n.children, base);
      var own := if n.element.tag == DIMENSION then [n.element] else [];
      hide ReadForest, ForestDimensions, SheetCells, ForestRows;
      NotedReads(ReadForest(Note(t, n.element), n.children, base), t, Note(t, n.element), own,
        SheetCells(ForestRows(n.children), t.lastRow), ForestDimensions(n.children), base);
    }
  }

  lemma NotedReads(r: Option<Tally>, t: Tally, t': Tally, own: seq<X.Element>, placed: Option<Placed>, more: seq<X.Element>, base: int)
    requires Reads(r, t', placed, more, base) && t'.cells == t.cells && t'.dimensions == t.dimensions + own
    ensures Reads(r, t, placed, own + more, base)
  {
    assert t.dimensions + own + more == t.dimensions + (own + more);
  }

  lemma {:induction false} ReadForestExact(t: Tally, ns: seq<Node>, base: int)
    ensures Reads(ReadForest(t, ns, base), t, SheetCells(ForestRows(ns), t.lastRow), ForestDimensions(ns), base)
    decreases ns, 0
  {
    if ns == [] {
      assert t.cells + [] == t.cells && t.dimensions + [] == t.dimensions;
    } else {
      ReadTreeExact(t, ns[0], base);
      var r := ReadTree(t, ns[0], base);
      var first := SheetCells(Rows(ns[0]), t.lastRow);
      if r.Some? { ReadForestExact(r.value, ns[1..], base); }
      SheetConcat(Rows(ns[0]), ForestRows(ns[1..]), t.lastRow);
      var rest := if first.None? then None else SheetCells(ForestRows(ns[1..]), first.value.lastRow);
      ForestSplits(t, ns, base);
      hide Rows, ForestRows, SheetCells, Dimensions, ForestDimensions, ReadTree, ReadForest;
      ReadsThen(r, ReadForest(t, ns, base), t, first, rest, SheetCells(Rows(ns[0]) + ForestRows(ns[1..]), t.lastRow),
        Dimensions(ns[0]), ForestDimensions(ns[1..]), base);
    }
  }

  lemma ForestSplits(t: Tally, ns: seq<Node>, base: int)
    requires ns != []
    ensures var r := ReadTree(t, ns[0], base);
            ReadForest(t, ns, base) == if r.None? then None else ReadForest(r.value, ns[1..], base)
    ensures ForestRows(ns) == Rows(ns[0]) + ForestRows(ns[1..])
    ensures ForestDimensions(ns) == Dimensions(ns[0]) + ForestDimensions(ns[1..])
  {
  }

  /** On the events of any tree the preflight succeeds exactly when its outermost
      rows are well placed and their cells stay within the cap; it then has read
      exactly those cells, and the dimension elements, in document order. */
  lemma PreflightExact(tree: Node, base: int, cells: seq<Coord>)
    ensures (exists t :: Preflight(X.Events(tree), base) == Ok(t) && t.cells == cells) <==>
            (exists last :: SheetCells(Rows(tree), 0) == Some(Placed(cells, last))) && (cells != [] ==> base + |cells| <= MAX_CELLS)
    ensures Preflight(X.Events(tree), base).Ok? ==> Preflight(X.Events(tree), base).value.dimensions == Dimensions(tree)
  {
    RunTree(INITIAL, tree, base);
    ReadTreeExact(EMPTY, tree, base);
    hide Run, X.Events, ReadTree, Rows, SheetCells, Dimensions;
    var placed := SheetCells(Rows(tree), 0);
    if placed.Some? {
      assert [] + placed.value.cells == placed.value.cells;
      assert placed == Some(Placed(placed.value.cells, placed.value.lastRow));
    }
    assert [] + Dimensions(tree) == Dimensions(tree);
  }

  // ---- The last column, on the tree ----------------------------------------------------------------------

  /** The j-th cell of a row has no reference, and the one before it stands in the last
      column. */
  predicate PassesLast(ns: seq<Node>, cells: seq<Coord>, column: int, j: int) {
    && 0 <= j < |ns| && |cells| == |ns| && "r" !in ns[j].element.attributes
    && (if j == 0 then column else cells[j - 1].column) == MAX_COLUMN
  }

  ghost predicate RowPasses(ns: seq<Node>, cells: seq<Coord>, column: int) {
    exists j :: PassesLast(ns, cells, column, j)
  }

  lemma RowPassesCons(ns: seq<Node>, cells: seq<Coord>, column: int)
    requires ns != [] && |cells| == |ns|
    ensures RowPasses(ns, cells, column) <==>
              ("r" !in ns[0].element.attributes && column == MAX_COLUMN) || RowPasses(ns[1..], cells[1..], cells[0].column)
  {
    if j :| PassesLast(ns, cells, column, j) && j > 0 {
      assert PassesLast(ns[1..], cells[1..], cells[0].column, j - 1);
    }
    if j :| PassesLast(ns[1..], cells[1..], cells[0].column, j) {
      assert PassesLast(ns, cells, column, j + 1);
    }
    if "r" !in ns[0].element.attributes && column == MAX_COLUMN { assert PassesLast(ns, cells, column, 0); }
  }

  lemma NarrowCons(place: Coord, rest: seq<Coord>)
    ensures Narrow([place] + rest) <==> place.column <= MAX_COLUMN && Narrow(rest)
  {
    var all := [place] + rest;
    assert all[0] == place && forall i :: 0 <= i < |rest| ==> all[i + 1] == rest[i];
  }

  lemma NarrowConcat(a: seq<Coord>, b: seq<Coord>)
    ensures Narrow(a + b) <==> Narrow(a) && Narrow(b)
  {
    if Narrow(a + b) {
      forall i | 0 <= i < |a| ensures a[i].column <= MAX_COLUMN { assert (a + b)[i] == a[i]; }
      forall i | 0 <= i < |b| ensures b[i].column <= MAX_COLUMN { assert (a + b)[|a| + i] == b[i]; }
    }
  }

  lemma {:induction false} RowNarrow(ns: seq<Node>, row: int, column: int)
    requires RowCells(ns, row, column).Some? && column <= MAX_COLUMN
    ensures var cells := RowCells(ns, row, column).value;
            |cells| == |ns| && (Narrow(cells) <==> !RowPasses(ns, cells, column))
    decreases |ns|
  {
    if ns != [] {
      var t := Tally(row, column, [], []);
      var place := CellPlace(ns[0].element, t).value;
      PlaceNarrow(ns[0].element, t);
      hide CellPlace, AnyRow, Narrow, RowPasses;
      var cells, rest := RowCells(ns, row, column).value, RowCells(ns[1..], row, place.column).value;
      assert cells == [place] + rest && cells[1..] == rest;
      NarrowCons(place, rest);
      RowCellsLength(ns, row, column);
      RowPassesCons(ns, cells, column);
      if place.column <= MAX_COLUMN { RowNarrow(ns[1..], row, place.column); }
    }
  }

  lemma {:induction false} RowCellsLength(ns: seq<Node>, row: int, column: int)
    requires RowCells(ns, row, column).Some?
    ensures |RowCells(ns, row, column).value| == |ns|
    decreases |ns|
  {
    hide CellPlace, AnyRow;
    if ns != [] {
      RowCellsLength(ns[1..], row, CellPlace(ns[0].element, Tally(row, column, [], [])).value.column);
    }
  }

  /** Some row, numbered upwards from `last`, has a cell without a reference right after
      one in the last column. */
  ghost predicate SheetPasses(rows: seq<Node>, last: int)
    decreases |rows|
  {
    && rows != [] && RowNumber(rows[0].element, last).Some?
    && var number := RowNumber(rows[0].element, last).value;
       var cells := RowCells(rows[0].children, number, 0);
       cells.Some? && (RowPasses(rows[0].children, cells.value, 0) || SheetPasses(rows[1..], number))
  }

  lemma {:induction false} SheetNarrow(rows: seq<Node>, last: int)
    requires SheetCells(rows, last).Some?
    ensures Narrow(SheetCells(rows, last).value.cells) <==> !SheetPasses(rows, last)
    decreases |rows|
  {
    hide RowNumber, RowCells, Narrow, RowPasses;
    if rows == [] {
      NoneNarrow();
    } else {
      var number := RowNumber(rows[0].element, last).value;
      RowNarrow(rows[0].children, number, 0);
      SheetNarrow(rows[1..], number);
      NarrowConcat(RowCells(rows[0].children, number, 0).value, SheetCells(rows[1..], number).value.cells);
    }
  }

  lemma NoneNarrow()
    ensures Narrow([])
  {
  }

  /** A sheet that is accepted stays within the last column exactly when in none of its
      outermost rows a cell without a reference follows one in that column. */
  lemma TreeWithinIff(tree: Node, base: int)
    requires Preflight(X.Events(tree), base).Ok?
    ensures Narrow(Preflight(X.Events(tree), base).value.cells) <==> !SheetPasses(Rows(tree), 0)
  {
    hide Preflight, X.Events, Rows, SheetCells, Narrow, SheetPasses;
    var cells := Preflight(X.Events(tree), base).value.cells;
    PreflightExact(tree, base, cells);
    var last :| SheetCells(Rows(tree), 0) == Some(Placed(cells, last));
    SheetNarrow(Rows(tree), 0);
  }
}
