/** Runs of tabular lines collected into tables (extraction/layout_analyzer.py). */
module TableExtraction {
  import opened Prelude
  import opened LayoutAnalyzer

  type Row = seq<string>
  type Table = seq<Row>

  /** Splitting a line's text into non-blank cells, at double spaces or else at tabs. */
  type Cells = Line -> Row

  predicate Tabular(cells: Cells, line: Line) {
    |cells(line)| >= 2
  }

  /** The line before the last one is a row of the same table. */
  predicate Continues(cells: Cells, lines: seq<Line>)
    requires lines != []
  {
    var n := |lines| - 1;
    n > 0 && Tabular(cells, lines[n - 1]) && lines[n - 1].page == lines[n].page
  }

  /** The tables of page `p`: the longest runs of neighbouring tabular lines that lie on it. */
  function TablesOn(cells: Cells, lines: seq<Line>, p: int): (tables: seq<Table>)
    ensures forall k :: 0 <= k < |tables| ==> tables[k] != []
    ensures lines != [] && Tabular(cells, Last(lines)) && Last(lines).page == p ==> tables != []
  {
    if lines == [] then []
    else
      var before, line := TablesOn(cells, lines[..|lines| - 1], p), lines[|lines| - 1];
      if !Tabular(cells, line) || line.page != p then before
      else if Continues(cells, lines) then before[..|before| - 1] + [before[|before| - 1] + [cells(line)]]
      else before + [[cells(line)]]
  }

  /** The rows of page `p` in document order. */
  function RowsOn(cells: Cells, lines: seq<Line>, p: int): seq<Row> {
    if lines == [] then []
    else
      var before, line := RowsOn(cells, lines[..|lines| - 1], p), lines[|lines| - 1];
      if Tabular(cells, line) && line.page == p then before + [cells(line)] else before
  }

  /** Every tabular row of a page survives extraction, in order and once. */
  lemma {:induction false} RowsSurvive(cells: Cells, lines: seq<Line>, p: int)
    ensures Flatten(TablesOn(cells, lines, p)) == RowsOn(cells, lines, p)
  {
    if lines != [] {
      var init, line := lines[..|lines| - 1], lines[|lines| - 1];
      RowsSurvive(cells, init, p);
      if Tabular(cells, line) && line.page == p {
        var before := TablesOn(cells, init, p);
        FlattenNext(before, [cells(line)]);
        if Continues(cells, lines) {
          var done, table := before[..|before| - 1], before[|before| - 1];
          assert before == done + [table];
          FlattenNext(done, table);
          FlattenNext(done, table + [cells(line)]);
          assert Flatten(done) + (table + [cells(line)]) == (Flatten(done) + table) + [cells(line)];
        }
      }
    }
  }

  function Stored(tables: map<int, seq<Table>>, p: int): seq<Table> {
    if p in tables then tables[p] else []
  }

  function Store(tables: map<int, seq<Table>>, p: int, table: Table): map<int, seq<Table>> {
    tables[p := Stored(tables, p) + [table]]
  }

  /** The tables stored so far together with the one still growing. */
  ghost predicate Holds(cells: Cells, lines: seq<Line>, tables: map<int, seq<Table>>, table: Table, page: Option<int>) {
    && (page.Some? <==> table != [])
    && (page == if lines != [] && Tabular(cells, Last(lines)) then Some(Last(lines).page) else None)
    && (forall p :: p in tables ==> tables[p] != [])
    && (forall p :: TablesOn(cells, lines, p) == Stored(tables, p) + (if page == Some(p) then [table] else []))
  }

  lemma Flush(cells: Cells, lines: seq<Line>, tables: map<int, seq<Table>>, table: Table, page: int)
    requires Holds(cells, lines, tables, table, Some(page))
    ensures var stored := Store(tables, page, table);
            && (forall p :: p in stored ==> stored[p] != [])
            && (forall p :: TablesOn(cells, lines, p) == Stored(stored, p))
  {
  }

  lemma HoldsAfterRow(
    cells: Cells, lines: seq<Line>, line: Line, tables: map<int, seq<Table>>, table: Table, page: Option<int>)
    requires Tabular(cells, line) && Holds(cells, lines, tables, table, page)
    requires page.Some? ==> page.value == line.page
    ensures Holds(cells, lines + [line], tables, table + [cells(line)], Some(line.page))
  {
    var longer := lines + [line];
    assert longer[..|longer| - 1] == lines;
    assert lines != [] ==> longer[|longer| - 2] == Last(lines);
    forall p
      ensures TablesOn(cells, longer, p) ==
              Stored(tables, p) + (if Some(line.page) == Some(p) then [table + [cells(line)]] else [])
    {
      if p == line.page && page.Some? {
        var before := TablesOn(cells, lines, p);
        assert before[..|before| - 1] == Stored(tables, p) && before[|before| - 1] == table;
        assert Stored(tables, p) + [table] == before;
      } else if page.None? {
        assert [] + [cells(line)] == [cells(line)];
      }
    }
  }

  lemma HoldsAfterNewPage(
    cells: Cells, lines: seq<Line>, line: Line, tables: map<int, seq<Table>>, table: Table, page: int)
    requires Tabular(cells, line) && Holds(cells, lines, tables, table, Some(page)) && page != line.page
    ensures Holds(cells, lines + [line], Store(tables, page, table), [cells(line)], Some(line.page))
  {
    var longer := lines + [line];
    assert longer[..|longer| - 1] == lines;
    assert longer[|longer| - 2] == Last(lines);
    Flush(cells, lines, tables, table, page);
  }

  lemma HoldsAfterProse(
    cells: Cells, lines: seq<Line>, line: Line, tables: map<int, seq<Table>>, table: Table, page: Option<int>)
    requires !Tabular(cells, line) && Holds(cells, lines, tables, table, page)
    ensures Holds(cells, lines + [line],
                  if page.Some? then Store(tables, page.value, table) else tables, [], None)
  {
    var longer := lines + [line];
    assert longer[..|longer| - 1] == lines;
    if page.Some? {
      Flush(cells, lines, tables, table, page.value);
    }
  }

  method ExtractTables(cells: Cells, lines: seq<Line>) returns (tables: map<int, seq<Table>>)
    ensures forall p :: p in tables ==> tables[p] == TablesOn(cells, lines, p) && tables[p] != []
    ensures forall p :: p !in tables ==> TablesOn(cells, lines, p) == []
  {
    tables := map[];
    var table: Table, page: Option<int> := [], None;
    for i := 0 to |lines|
      invariant Holds(cells, lines[..i], tables, table, page)
    {
      var line := lines[i];
      assert lines[..i + 1] == lines[..i] + [line];
      if Tabular(cells, line) {
        if page.None? {
          HoldsAfterRow(cells, lines[..i], line, tables, table, page);
          page := Some(line.page);
          table := table + [cells(line)];
        } else if page.value != line.page && table != [] {
          HoldsAfterNewPage(cells, lines[..i], line, tables, table, page.value);
          tables := Store(tables, page.value, table);
          table := [cells(line)];
          page := Some(line.page);
        } else {
          HoldsAfterRow(cells, lines[..i], line, tables, table, page);
          table := table + [cells(line)];
        }
      } else {
        HoldsAfterProse(cells, lines[..i], line, tables, table, page);
        if table != [] && page.Some? {
          tables := Store(tables, page.value, table);
          table := [];
          page := None;
        }
      }
    }
    assert lines[..|lines|] == lines;
    if table != [] && page.Some? {
      Flush(cells, lines, tables, table, page.value);
      tables := Store(tables, page.value, table);
    }
  }
}
