/**
  The evaluators that work on a decoded stream: one row at a time with an early exit
  (src/format_bench/formats/row.py), and batch by batch with a running limit
  (src/format_bench/formats/text.py).
*/
module WorkloadScans {
  import opened Common
  import opened Workloads

  /** AvroAdapter.scan knows the filter column only from the rows, so an unknown one matches nothing. */
  predicate UnknownFilter(spec: Spec, schema: seq<Name>)
    requires Declared(spec)
  {
    spec.kind.Filter? && !Known(spec, schema)
  }

  lemma {:induction false} KeptUnknown(rows: seq<Row>, schema: seq<Name>, spec: Spec)
    requires Declared(spec) && UnknownFilter(spec, schema) && Shaped(rows, schema)
    ensures Kept(rows, spec) == []
  {
    if rows != [] {
      assert rows[|rows| - 1].Keys == Names(schema);
      KeptUnknown(rows[..|rows| - 1], schema, spec);
    }
  }

  /** What the rows read so far have given. */
  lemma ReadMore(rows: seq<Row>, j: nat, schema: seq<Name>, spec: Spec)
    requires Declared(spec) && j < |rows| && Shaped(rows, schema) && (spec.kind.Projection? ==> Known(spec, schema))
    ensures rows[..j + 1] == rows[..j] + [rows[j]] && Restrict(rows[j], schema) == rows[j]
    ensures spec.kind.Filter? ==> Kept(rows[..j + 1], spec) == Kept(rows[..j], spec) + if Matches(spec, rows[j]) then [rows[j]] else []
    ensures spec.kind.Projection? ==> Select(rows[..j + 1], spec.columns) == Select(rows[..j], spec.columns) + [Restrict(rows[j], spec.columns)]
  {
  }

  lemma HeadMore(rows: seq<Row>, j: nat, spec: Spec)
    requires Declared(spec) && spec.kind.Head? && j < |rows| && j < spec.limit.value
    ensures First(rows[..j], spec.limit.value) == rows[..j] && First(rows[..j + 1], spec.limit.value) == rows[..j + 1]
    ensures j + 1 == spec.limit.value ==> First(rows, spec.limit.value) == rows[..j + 1]
  {
  }

  /** The row scan's own table of comparisons. */
  predicate RowMatches(operator: Operator, x: int, value: int) {
    match operator
    case Eq => x == value
    case Gt => x > value
    case Gte => x >= value
    case Lt => x < value
    case Lte => x <= value
  }

  lemma RowMatchesAgree(spec: Spec, row: Row)
    requires Declared(spec) && spec.kind.Filter?
    ensures Matches(spec, row) <==>
      spec.column.value in row && row[spec.column.value].Scalar?
      && RowMatches(spec.operator.value, row[spec.column.value].key, spec.value.value)
  {
  }

  /**
    The row scan agrees with the reference on every loaded table and declared workload,
    row for row, except that a filter on an unknown column gives no rows where the
    reference raises.
  */
  method AvroScan(table: Table, spec: Spec) returns (result: Option<Table>)
    requires Loaded(table) && Declared(spec)
    ensures result == Apply(table, spec) <==> !UnknownFilter(spec, table.columns)
    ensures UnknownFilter(spec, table.columns) ==> result == Some(Table(table.columns, []))
    ensures result.Some? ==> FilterMeans(table.rows, result.value.rows, spec)
  {
    hide FilterMeans;
    ApplyFilterMeans(table.rows, spec);
    var columns := if spec.kind.Projection? then spec.columns else table.columns;
    if !AllIn(columns, table.columns) { return None; }
    var rows: seq<Row> := [];
    var j := 0;
    assert table.rows[..0] == [];
    while j < |table.rows|
      invariant j <= |table.rows| && rows == ApplyRows(table.rows[..j], spec)
      invariant spec.kind.Head? ==> |rows| == j < spec.limit.value
      decreases |table.rows| - j
    {
      var row := table.rows[j];
      ReadMore(table.rows, j, table.columns, spec);
      if spec.kind.Head? { HeadMore(table.rows, j, spec); }
      j := j + 1;
      if spec.kind.Filter? {
        RowMatchesAgree(spec, row);
        if spec.column.value !in row || row[spec.column.value].Null? { continue; }
        if !RowMatches(spec.operator.value, row[spec.column.value].key, spec.value.value) { continue; }
      }
      rows := rows + [Restrict(row, columns)];
      if spec.kind.Head? && |rows| >= spec.limit.value {
        return Some(Table(columns, rows));
      }
    }
    assert table.rows[..j] == table.rows;
    if UnknownFilter(spec, table.columns) { KeptUnknown(table.rows, table.columns, spec); }
    result := Some(Table(columns, rows));
  }

  // ---------- Batches ----------

  function Flat(batches: seq<seq<Row>>): seq<Row> {
    if batches == [] then [] else Flat(batches[..|batches| - 1]) + batches[|batches| - 1]
  }

  lemma FlatMore(batches: seq<seq<Row>>, more: seq<Row>)
    ensures Flat(batches + [more]) == Flat(batches) + more
  {
  }

  lemma FirstMore(a: seq<Row>, b: seq<Row>, n: int)
    ensures First(a + b, n) == First(a, n) + First(First(b, n), n - |First(a, n)|)
    ensures |First(a, n)| >= n ==> First(a + b, n) == First(a, n)
  {
  }

  /** The result of a scan that stops here: the selected batches, whatever was cut. */
  lemma {:induction false} FlatPrefix(batches: seq<seq<Row>>, j: nat, n: int)
    requires j <= |batches| && |First(Flat(batches[..j]), n)| >= n
    ensures First(Flat(batches), n) == First(Flat(batches[..j]), n)
    decreases |batches|
  {
    if j < |batches| {
      var all := batches[..|batches| - 1];
      assert all[..j] == batches[..j];
      FlatPrefix(all, j, n);
      FirstMore(Flat(all), batches[|batches| - 1], n);
    } else {
      assert batches[..j] == batches;
    }
  }

  /** One more batch under the running limit. */
  lemma BatchMore(before: seq<Row>, batch: seq<Row>, spec: Spec)
    requires Declared(spec)
    ensures spec.kind.Head? ==>
      ApplyRows(before + batch, spec) == ApplyRows(before, spec) + First(ApplyRows(batch, spec), spec.limit.value - |ApplyRows(before, spec)|)
    ensures !spec.kind.Head? ==> ApplyRows(before + batch, spec) == ApplyRows(before, spec) + ApplyRows(batch, spec)
  {
    if spec.kind.Head? { FirstMore(before, batch, spec.limit.value); } else { ApplyMore(before, batch, spec); }
  }

  /** The batches selected so far, and one more of the file. */
  lemma BatchStep(input: seq<seq<Row>>, j: nat, batches: seq<seq<Row>>, selected: seq<Row>, spec: Spec)
    requires Declared(spec) && j < |input| && Flat(batches) == ApplyRows(Flat(input[..j]), spec)
    requires selected == if spec.kind.Head? then First(ApplyRows(input[j], spec), spec.limit.value - |Flat(batches)|) else ApplyRows(input[j], spec)
    ensures Flat(batches + [selected]) == Flat(batches) + selected == ApplyRows(Flat(input[..j + 1]), spec)
    ensures selected == [] ==> Flat(batches) == ApplyRows(Flat(input[..j + 1]), spec)
  {
    assert input[..j + 1] == input[..j] + [input[j]];
    FlatMore(input[..j], input[j]);
    BatchMore(Flat(input[..j]), input[j], spec);
    FlatMore(batches, selected);
  }

  lemma NothingApplies(spec: Spec)
    requires Declared(spec)
    ensures ApplyRows([], spec) == []
  {
  }

  /**
    The batch scan agrees with the reference, row for row, however the file was cut into
    batches; with an unknown filter column it raises as the reference does unless there
    is no batch at all.
  */
  method JsonlScan(columns: seq<Name>, input: seq<seq<Row>>, spec: Spec) returns (result: Option<Table>)
    requires Loaded(Table(columns, Flat(input))) && Declared(spec)
    ensures result == Apply(Table(columns, Flat(input)), spec) <==> !(UnknownFilter(spec, columns) && input == [])
    ensures UnknownFilter(spec, columns) && input == [] ==> result == Some(Table(columns, []))
    ensures result.Some? ==> FilterMeans(Flat(input), result.value.rows, spec)
  {
    hide FilterMeans;
    ApplyFilterMeans(Flat(input), spec);
    if spec.kind.ReadAll? { return Some(Table(columns, Flat(input))); }
    var batches: seq<seq<Row>> := [];
    var rowsSeen := 0;
    var j := 0;
    NothingApplies(spec);
    while j < |input|
      invariant j <= |input| && (j > 0 ==> Known(spec, columns))
      invariant Flat(batches) == ApplyRows(Flat(input[..j]), spec) && rowsSeen == |Flat(batches)|
      invariant batches == [] ==> rowsSeen == 0
      invariant spec.kind.Head? ==> rowsSeen < spec.limit.value
      decreases |input| - j
    {
      var current := Apply(Table(columns, input[j]), spec);
      if current == None { return None; }
      var selected := current.value.rows;
      if spec.kind.Head? { selected := First(selected, spec.limit.value - rowsSeen); }
      BatchStep(input, j, batches, selected, spec);
      if selected != [] {
        batches := batches + [selected];
        rowsSeen := rowsSeen + |selected|;
      }
      j := j + 1;
      if spec.kind.Head? && rowsSeen >= spec.limit.value {
        FlatPrefix(input, j, spec.limit.value);
        return Some(Table(columns, Flat(batches)));
      }
    }
    assert input[..j] == input;
    if spec.kind.Projection? && !AllIn(spec.columns, columns) { return None; }
    result := Some(Table(if spec.kind.Projection? then spec.columns else columns, Flat(batches)));
  }
}
