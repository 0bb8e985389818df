/** The index state of the selectable table: filter, displayed rows, cursor, viewport, selected and disabled rows. */
module SelectableTables {
  const DEFAULT_TABLE_SIZE: nat := 10

  type Row = seq<string>

  // The displayed rows, and for each of them its index among all rows.
  datatype Shown = Shown(formatRows: seq<Row>, filterMap: map<int, int>)

  datatype Table = Table(
    rawRows: seq<Row>,
    shown: Shown,
    currentRow: int,
    startIndex: int,
    activeRows: set<int>,
    disabledRows: set<int>,
    filter: string,
    active: bool
  )

  datatype Event =
    | Insert(row: Row) | Enable(index: int) | Disable(index: int)
    | Up | Down | Left | Right | Space | Backspace | Delete | Runes(text: string) | Enter | Cancel

  predicate Contains(s: string, sub: string) {
    exists i :: 0 <= i <= |s| && OccursAt(s, sub, i)
  }

  predicate OccursAt(s: string, sub: string, i: nat) {
    i + |sub| <= |s| && s[i..i + |sub|] == sub
  }

  predicate Matches(row: Row, filter: string) {
    |filter| == 0 || exists j :: 0 <= j < |row| && Contains(row[j], filter)
  }

  /** The displayed ones of the first `n` rows. */
  function Filtered(rows: seq<Row>, filter: string, n: nat): Shown
    requires n <= |rows|
  {
    if n == 0 then Shown([], map[])
    else
      var before := Filtered(rows, filter, n - 1);
      if Matches(rows[n - 1], filter)
      then Shown(before.formatRows + [rows[n - 1]], before.filterMap[|before.formatRows| := n - 1])
      else before
  }

  /** Go's map access: a missing index reads as zero. */
  function RawIndex(t: Table, i: int): int {
    if i in t.shown.filterMap then t.shown.filterMap[i] else 0
  }

  function Refilter(t: Table, filter: string): Table {
    t.(filter := filter, shown := Filtered(t.rawRows, filter, |t.rawRows|), currentRow := 0, startIndex := 0)
  }

  function Initial(rows: seq<Row>): Table {
    Table(rows, Filtered(rows, "", |rows|), 0, 0, {}, {}, "", true)
  }

  /** The indices among all rows of the displayed rows. */
  function ShownIndices(t: Table): set<int> {
    set i | 0 <= i < |t.shown.formatRows| :: RawIndex(t, i)
  }

  function Next(t: Table, e: Event): Table {
    match e
    case Insert(row) =>
      var rows := t.rawRows + [row];
      t.(rawRows := rows, shown := Filtered(rows, t.filter, |rows|))
    case Enable(k) => t.(disabledRows := t.disabledRows - {k})
    case Disable(k) => t.(activeRows := t.activeRows - {k}, disabledRows := t.disabledRows + {k})
    case Up =>
      if t.currentRow <= 0 then t
      else t.(currentRow := t.currentRow - 1,
              startIndex := if t.currentRow - 1 < t.startIndex then t.startIndex - 1 else t.startIndex)
    case Down =>
      if t.currentRow >= |t.shown.formatRows| - 1 then t
      else t.(currentRow := t.currentRow + 1,
              startIndex := if t.currentRow + 1 > t.startIndex + (DEFAULT_TABLE_SIZE - 1) then t.startIndex + 1
                            else t.startIndex)
    case Left => t.(activeRows := {})
    case Right => t.(activeRows := t.activeRows + (ShownIndices(t) - t.disabledRows))
    case Space =>
      var k := RawIndex(t, t.currentRow);
      if k in t.disabledRows || |t.shown.formatRows| == 0 then t
      else t.(activeRows := if k in t.activeRows then t.activeRows - {k} else t.activeRows + {k})
    case Backspace => Refilter(t, if |t.filter| > 0 then t.filter[..|t.filter| - 1] else t.filter)
    case Delete => Refilter(t, if |t.filter| > 0 then t.filter[1..] else t.filter)
    case Runes(text) => Refilter(t, t.filter + text)
    case Enter => t.(active := false)
    case Cancel => t.(activeRows := {}, active := false)
  }

  // ---- What the indices mean ---------------------------------------------------------------------------------------

  ghost predicate Shows(s: Shown, k: int) {
    exists i :: 0 <= i < |s.formatRows| && i in s.filterMap && s.filterMap[i] == k
  }

  /** The displayed rows are rows from before `n`, in increasing order. */
  ghost predicate Ascending(s: Shown, rows: seq<Row>, n: nat)
    requires n <= |rows|
  {
    && (forall i :: i in s.filterMap <==> 0 <= i < |s.formatRows|)
    && (forall i :: 0 <= i < |s.formatRows| ==> 0 <= s.filterMap[i] < n && s.formatRows[i] == rows[s.filterMap[i]])
    && (forall i, j :: 0 <= i < j < |s.formatRows| ==> s.filterMap[i] < s.filterMap[j])
  }

  /** The filter map enumerates, in increasing order, exactly the indices of the rows that match the filter. */
  ghost predicate Enumerates(s: Shown, rows: seq<Row>, filter: string, n: nat)
    requires n <= |rows|
  {
    Ascending(s, rows, n) && forall k :: 0 <= k < n ==> (Matches(rows[k], filter) <==> Shows(s, k))
  }

  lemma {:induction false} FilterAscends(rows: seq<Row>, filter: string, n: nat)
    requires n <= |rows|
    ensures Ascending(Filtered(rows, filter, n), rows, n)
  {
    if n > 0 {
      FilterAscends(rows, filter, n - 1);
      AscendsOneMore(Filtered(rows, filter, n - 1), rows, n - 1);
    }
  }

  lemma AscendsOneMore(s: Shown, rows: seq<Row>, n: nat)
    requires n < |rows| && Ascending(s, rows, n)
    ensures Ascending(s, rows, n + 1)
    ensures Ascending(Shown(s.formatRows + [rows[n]], s.filterMap[|s.formatRows| := n]), rows, n + 1)
  {
  }

  lemma ShowsOneMore(s: Shown, rows: seq<Row>, n: nat, row: Row, k: int)
    requires n <= |rows| && Ascending(s, rows, n)
    ensures Shows(Shown(s.formatRows + [row], s.filterMap[|s.formatRows| := n]), k) <==> Shows(s, k) || k == n
  {
    var s' := Shown(s.formatRows + [row], s.filterMap[|s.formatRows| := n]);
    assert s'.filterMap[|s.formatRows|] == n;
    if Shows(s, k) {
      var i :| 0 <= i < |s.formatRows| && i in s.filterMap && s.filterMap[i] == k;
      assert s'.filterMap[i] == k;
    }
  }

  lemma {:induction false} FilterShows(rows: seq<Row>, filter: string, n: nat, k: int)
    requires n <= |rows|
    ensures Shows(Filtered(rows, filter, n), k) <==> 0 <= k < n && Matches(rows[k], filter)
  {
    if n > 0 {
      FilterShows(rows, filter, n - 1, k);
      if Matches(rows[n - 1], filter) {
        FilterAscends(rows, filter, n - 1);
        ShowsOneMore(Filtered(rows, filter, n - 1), rows, n - 1, rows[n - 1], k);
      }
    }
  }

  lemma FilterEnumerates(rows: seq<Row>, filter: string, n: nat)
    requires n <= |rows|
    ensures Enumerates(Filtered(rows, filter, n), rows, filter, n)
  {
    FilterAscends(rows, filter, n);
    forall k | 0 <= k < n ensures Matches(rows[k], filter) <==> Shows(Filtered(rows, filter, n), k) {
      FilterShows(rows, filter, n, k);
    }
  }

  ghost predicate Valid(t: Table) {
    && t.shown == Filtered(t.rawRows, t.filter, |t.rawRows|)
    && (0 <= t.currentRow < |t.shown.formatRows| || t.currentRow == 0)
    && 0 <= t.startIndex <= t.currentRow < t.startIndex + DEFAULT_TABLE_SIZE
    && (forall k :: k in t.activeRows ==> 0 <= k < |t.rawRows|)
    && t.activeRows !! t.disabledRows
  }

  lemma NextKeepsValid(t: Table, e: Event)
    requires Valid(t)
    ensures Valid(Next(t, e))
  {
    FilterEnumerates(t.rawRows, t.filter, |t.rawRows|);
    match e
    case Insert(row) => InsertExtends(t, row);
    case Right =>
      forall k | k in ShownIndices(t) ensures 0 <= k < |t.rawRows| {
        var i :| 0 <= i < |t.shown.formatRows| && RawIndex(t, i) == k;
        assert i in t.shown.filterMap;
      }
    case _ =>
  }

  lemma {:induction false} FilteredPrefix(rows: seq<Row>, row: Row, filter: string, n: nat)
    requires n <= |rows|
    ensures Filtered(rows + [row], filter, n) == Filtered(rows, filter, n)
  {
    if n > 0 { FilteredPrefix(rows, row, filter, n - 1); }
  }

  /** An insert adds at most one displayed row, at the end. */
  lemma InsertExtends(t: Table, row: Row)
    requires Valid(t)
    ensures var t' := Next(t, Insert(row));
            t'.shown == if Matches(row, t.filter)
                        then Shown(t.shown.formatRows + [row], t.shown.filterMap[|t.shown.formatRows| := |t.rawRows|])
                        else t.shown
  {
    FilteredPrefix(t.rawRows, row, t.filter, |t.rawRows|);
  }

  /** An insert changes neither the row under the cursor nor any selected or disabled one, nor what is selected. */
  lemma InsertKeepsRows(t: Table, row: Row)
    requires Valid(t)
    ensures var t' := Next(t, Insert(row));
            && t'.activeRows == t.activeRows && t'.disabledRows == t.disabledRows && t'.currentRow == t.currentRow
            && (forall k :: 0 <= k < |t.rawRows| ==> t'.rawRows[k] == t.rawRows[k])
            && (|t.shown.formatRows| > 0 ==>
                 RawIndex(t', t'.currentRow) == RawIndex(t, t.currentRow)
                 && |t'.shown.formatRows| >= |t.shown.formatRows|
                 && t'.shown.formatRows[t'.currentRow] == t.shown.formatRows[t.currentRow])
  {
    InsertExtends(t, row);
    FilterEnumerates(t.rawRows, t.filter, |t.rawRows|);
  }

  function Run(t: Table, events: seq<Event>): Table
    decreases events
  {
    if events == [] then t else Run(Next(t, events[0]), events[1..])
  }

  lemma {:induction false} RunKeepsValid(t: Table, events: seq<Event>)
    requires Valid(t)
    ensures Valid(Run(t, events))
    decreases events
  {
    if events != [] {
      NextKeepsValid(t, events[0]);
      RunKeepsValid(Next(t, events[0]), events[1..]);
    }
  }

  /**
   After any events the filter map enumerates exactly the matching rows, the cursor is within the rows and the viewport,
   and the selected rows exist and are not disabled.
   */
  lemma AnyRun(rows: seq<Row>, events: seq<Event>)
    ensures var t := Run(Initial(rows), events);
            && Enumerates(t.shown, t.rawRows, t.filter, |t.rawRows|)
            && (|t.shown.formatRows| > 0 ==> 0 <= t.currentRow < |t.shown.formatRows|)
            && 0 <= t.startIndex <= t.currentRow < t.startIndex + DEFAULT_TABLE_SIZE
            && (forall k :: k in t.activeRows ==> 0 <= k < |t.rawRows| && k !in t.disabledRows)
  {
    RunKeepsValid(Initial(rows), events);
    var t := Run(Initial(rows), events);
    FilterEnumerates(t.rawRows, t.filter, |t.rawRows|);
  }

  ghost predicate InRange(t: Table, events: seq<Event>)
    decreases events
  {
    events != [] ==>
      (events[0].Disable? ==> 0 <= events[0].index < |t.rawRows|) && InRange(Next(t, events[0]), events[1..])
  }

  /** If only existing rows are ever disabled, every disabled row exists. */
  lemma {:induction false} DisabledInRange(t: Table, events: seq<Event>)
    requires InRange(t, events) && forall k :: k in t.disabledRows ==> 0 <= k < |t.rawRows|
    ensures forall k :: k in Run(t, events).disabledRows ==> 0 <= k < |Run(t, events).rawRows|
    decreases events
  {
    if events != [] { DisabledInRange(Next(t, events[0]), events[1..]); }
  }

  /** Only `Right` and `Space` select, and only displayed rows that are not disabled. */
  lemma OnlyShownRowsGetSelected(t: Table, e: Event, k: int)
    requires Valid(t) && k in Next(t, e).activeRows && k !in t.activeRows
    ensures e.Right? || e.Space?
    ensures k !in t.disabledRows && 0 <= k < |t.rawRows| && Matches(t.rawRows[k], t.filter)
  {
    FilterEnumerates(t.rawRows, t.filter, |t.rawRows|);
    if e.Right? {
      var i :| 0 <= i < |t.shown.formatRows| && RawIndex(t, i) == k;
      assert Shows(t.shown, k);
    } else {
      assert t.shown.filterMap[t.currentRow] == k;
      assert Shows(t.shown, k);
    }
  }

  // ---- The table ---------------------------------------------------------------------------------------------------

  class SelectableTable {
    var rawRows: seq<Row>
    var formatRows: seq<Row>
    var filterMap: map<int, int>
    var currentRow: int
    var startIndex: int
    var activeRows: set<int>
    var disabledRows: set<int>
    var filter: string
    var active: bool

    function Value(): Table
      reads this
    {
      Table(rawRows, Shown(formatRows, filterMap), currentRow, startIndex, activeRows, disabledRows, filter, active)
    }

    constructor (rows: seq<Row>)
      ensures rawRows == rows
    {
      rawRows := rows;
    }

    method Init()
      requires active
      modifies this
      ensures Value() == Initial(old(rawRows))
    {
      activeRows, disabledRows, formatRows, filterMap := {}, {}, [], map[];
      currentRow, startIndex, filter := 0, 0, "";
      for i := 0 to |rawRows|
        invariant rawRows == old(rawRows) && active
        invariant Shown(formatRows, filterMap) == Filtered(rawRows, "", i) && |formatRows| == i
        invariant activeRows == {} && disabledRows == {} && currentRow == 0 && startIndex == 0 && filter == ""
      {
        filterMap := filterMap[i := i];
        formatRows := formatRows + [rawRows[i]];
      }
    }

    /** Recomputes the displayed rows, and puts the cursor back on top if `updatePos`. */
    method FilterRows(updatePos: bool)
      modifies `formatRows, `filterMap, `currentRow, `startIndex
      ensures Shown(formatRows, filterMap) == Filtered(rawRows, filter, |rawRows|)
      ensures currentRow == if updatePos then 0 else old(currentRow)
      ensures startIndex == if updatePos then 0 else old(startIndex)
    {
      formatRows, filterMap := [], map[];
      if updatePos { currentRow, startIndex := 0, 0; }
      var index := 0;
      for i := 0 to |rawRows|
        modifies `formatRows, `filterMap
        invariant Shown(formatRows, filterMap) == Filtered(rawRows, filter, i) && index == |formatRows|
      {
        var matches := |filter| == 0;
        if !matches { matches := AnyColumn(rawRows[i], filter); }
        if matches {
          formatRows := formatRows + [rawRows[i]];
          filterMap := filterMap[index := i];
          index := index + 1;
        }
      }
    }

    method HandleInsertEvent(row: Row)
      modifies this
      ensures Value() == Next(old(Value()), Insert(row))
    {
      rawRows := rawRows + [row];
      FilterRows(false);
    }

    method HandleDisableEvent(k: int)
      modifies this
      ensures Value() == Next(old(Value()), Disable(k))
    {
      activeRows := activeRows - {k};
      disabledRows := disabledRows + {k};
    }

    method HandleEnableEvent(k: int)
      modifies this
      ensures Value() == Next(old(Value()), Enable(k))
    {
      disabledRows := disabledRows - {k};
    }

    method Lookup(i: int) returns (k: int)
      ensures k == RawIndex(Value(), i)
    {
      k := if i in filterMap then filterMap[i] else 0;
    }

    /** Selects every displayed row that is not disabled. */
    method SelectAll()
      modifies `activeRows
      ensures Value() == Next(old(Value()), Right)
    {
      ghost var was := Value();
      for i := 0 to |formatRows|
        modifies `activeRows
        invariant activeRows == was.activeRows + ((set j | 0 <= j < i :: RawIndex(was, j)) - disabledRows)
      {
        var k := Lookup(i);
        assert (set j | 0 <= j < i + 1 :: RawIndex(was, j))
               == (set j | 0 <= j < i :: RawIndex(was, j)) + {RawIndex(was, i)};
        if k !in disabledRows { activeRows := activeRows + {k}; }
      }
    }

    method Move(down: bool)
      modifies `currentRow, `startIndex
      ensures Value() == Next(old(Value()), if down then Down else Up)
    {
      if down {
        if currentRow < |formatRows| - 1 {
          currentRow := currentRow + 1;
          if currentRow > startIndex + (DEFAULT_TABLE_SIZE - 1) { startIndex := startIndex + 1; }
        }
      } else if currentRow > 0 {
        currentRow := currentRow - 1;
        if currentRow < startIndex { startIndex := startIndex - 1; }
      }
    }

    method Toggle()
      modifies `activeRows
      ensures Value() == Next(old(Value()), Space)
    {
      var k := Lookup(currentRow);
      if k !in disabledRows && |formatRows| > 0 {
        activeRows := if k in activeRows then activeRows - {k} else activeRows + {k};
      }
    }

    /** Replaces the filter. */
    method SetFilter(text: string)
      modifies this
      ensures Value() == Refilter(old(Value()), text)
    {
      filter := text;
      FilterRows(true);
    }

    method HandleKeyEvent(key: Event)
      requires !key.Insert? && !key.Enable? && !key.Disable?
      modifies this
      ensures Value() == Next(old(Value()), key)
    {
      match key
      case Cancel => activeRows := {}; active := false;
      case Enter => active := false;
      case Up => Move(false);
      case Down => Move(true);
      case Left => activeRows := {};
      case Right => SelectAll();
      case Space => Toggle();
      case Backspace => SetFilter(if |filter| > 0 then filter[..|filter| - 1] else filter);
      case Delete => SetFilter(if |filter| > 0 then filter[1..] else filter);
      case Runes(text) => SetFilter(filter + text);
    }

    /** `result` holds the selected rows with an index below `bound`, each once; `indices` are their indices. */
    ghost predicate Collected(result: seq<Row>, indices: seq<int>, bound: int)
      reads this
    {
      && |result| == |indices|
      && (forall i :: 0 <= i < |indices| ==> 0 <= indices[i] < |rawRows| && result[i] == rawRows[indices[i]])
      && (forall i, j :: 0 <= i < j < |indices| ==> indices[i] != indices[j])
      && (forall k :: k in indices <==> k in activeRows && k < bound)
    }

    /** Collects the selected rows; the contract leaves their order open, as the source's map iteration does. */
    method Collect() returns (result: seq<Row>, indices: seq<int>)
      requires Valid(Value())
      ensures Collected(result, indices, |rawRows|)
      ensures forall k :: k in indices <==> k in activeRows
    {
      result, indices := [], [];
      for i := 0 to |rawRows|
        invariant Collected(result, indices, i)
      {
        if i in activeRows && i !in disabledRows {
          Appended(indices, i);
          result := result + [rawRows[i]];
          indices := indices + [i];
        }
      }
    }
  }

  lemma Appended(indices: seq<int>, i: int)
    ensures forall k :: k in indices + [i] <==> k in indices || k == i
  {
  }

  method AnyColumn(row: Row, filter: string) returns (found: bool)
    ensures found == exists j :: 0 <= j < |row| && Contains(row[j], filter)
  {
    found := false;
    for j := 0 to |row|
      invariant forall k :: 0 <= k < j ==> !Contains(row[k], filter)
    {
      if Contains(row[j], filter) { return true; }
    }
  }
}
