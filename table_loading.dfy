/**
 * Turning a parsed configuration document (metric name to a map from kind to
 * enabled) into the two-key table the table filter consults, as the YAML
 * loader and the YAML supplier both do with their `table(...)` helper.
 */
module TableLoading {
  import opened Wrappers
  import opened Kinds
  import opened Filters

  /** The deserialised document: row = metric name, inner map = kind to enabled. */
  type NestedTable = map<string, map<Kind, bool>>

  /** The table holding exactly the document's (row, column) cells. */
  ghost function Flattened(fromTable: NestedTable): Table
  {
    map r, c | r in fromTable && c in fromTable[r] :: (r, c) := fromTable[r][c]
  }

  /**
   * The `table(...)` helper: an empty table filled by a loop over the rows and,
   * inside it, a loop over that row's columns, putting every cell. Row and
   * column order is whatever the maps' key sets yield.
   */
  method Flatten(fromTable: NestedTable) returns (table: Table)
    ensures forall r, c :: (r, c) in table <==> r in fromTable && c in fromTable[r]
    ensures forall r, c :: (r, c) in table ==> table[(r, c)] == fromTable[r][c]
    ensures table == Flattened(fromTable)
  {
    table := map[];
    var rows := fromTable.Keys;
    while rows != {}
      invariant rows <= fromTable.Keys
      invariant forall r, c :: (r, c) in table <==> r in fromTable && r !in rows && c in fromTable[r]
      invariant forall r, c :: (r, c) in table ==> table[(r, c)] == fromTable[r][c]
      decreases rows
    {
      var rowKey :| rowKey in rows;
      var rowMap := fromTable[rowKey];
      var columns := rowMap.Keys;
      while columns != {}
        invariant columns <= rowMap.Keys
        invariant forall r, c :: (r, c) in table <==>
                    r in fromTable && ((r !in rows && c in fromTable[r]) || (r == rowKey && c in rowMap && c !in columns))
        invariant forall r, c :: (r, c) in table ==> table[(r, c)] == fromTable[r][c]
        decreases columns
      {
        var columnKey :| columnKey in columns;
        var value := rowMap[columnKey];
        table := table[(rowKey, columnKey) := value];
        columns := columns - {columnKey};
      }
      rows := rows - {rowKey};
    }
    assert forall p :: p in table <==> p in Flattened(fromTable) by {
      forall p ensures p in table <==> p in Flattened(fromTable) {
        assert p == (p.0, p.1);
      }
    }
  }

  /** A cell is in the table exactly when the document has it, with the document's value. */
  lemma FlattenedCells(fromTable: NestedTable, r: string, c: Kind)
    ensures (r, c) in Flattened(fromTable) <==> r in fromTable && c in fromTable[r]
    ensures (r, c) in Flattened(fromTable) ==> Flattened(fromTable)[(r, c)] == fromTable[r][c]
  {
  }

  /**
   * No defaulting: an empty document gives an empty table, and a row with an
   * empty inner map contributes no cell.
   */
  lemma FlattenedAddsNothing(fromTable: NestedTable, r: string)
    ensures fromTable == map[] ==> Flattened(fromTable) == map[]
    ensures r in fromTable && fromTable[r] == map[] ==> forall c :: (r, c) !in Flattened(fromTable)
  {
  }

  /** The outcome of deserialising a document: the nested map, or the parser's complaint. */
  datatype ParseOutcome = Parsed(document: NestedTable) | ParseFailed(message: string)

  /**
   * YamlMetricsAttributeTableLoader.loadTable: the reader's failure propagates
   * as an IOException and no table is returned; otherwise the document is
   * flattened. The loader's only field is its final reader, so loading changes
   * no state.
   */
  method LoadTable(parsed: ParseOutcome) returns (r: Result<Table>)
    ensures r.Failure? <==> parsed.ParseFailed?
    ensures r.Failure? ==> r.error == IOException(parsed.message)
    ensures r.Success? ==> r.value == Flattened(parsed.document)
  {
    if parsed.ParseFailed? {
      return Failure(IOException(parsed.message));
    }
    var table := Flatten(parsed.document);
    return Success(table);
  }

  /**
   * The loader test: any document whose name2 row enables TIMER_MAX and whose
   * name1 row enables COUNTER_COUNT loads into a table answering true for both.
   */
  lemma LoadedTestConfig(document: NestedTable)
    requires "name2" in document && TimerMax in document["name2"] && document["name2"][TimerMax]
    requires "name1" in document && CounterCount in document["name1"] && document["name1"][CounterCount]
    ensures ("name2", TimerMax) in Flattened(document) && Flattened(document)[("name2", TimerMax)]
    ensures ("name1", CounterCount) in Flattened(document) && Flattened(document)[("name1", CounterCount)]
  {
  }
}
