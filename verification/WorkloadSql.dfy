/**
  The workload compiled to SQL (src/format_bench/formats/database.py): the query and its
  parts, what an engine may answer, and agreement with the reference up to the order the
  evidence tolerates.
*/
module WorkloadSql {
  import opened Common
  import opened Workloads
  import opened WorkloadScans

  datatype Truth = True | False | Unknown

  /** A column, one of SQL's comparison symbols, and the bound parameter. */
  datatype Condition = Condition(column: Name, symbol: string, parameter: int)

  /** SELECT projection FROM data, with its WHERE and its ORDER BY row id LIMIT where present. */
  datatype Query = Query(projection: seq<Name>, condition: Option<Condition>, limit: Option<int>)

  /** A stored row and its row id. */
  datatype Stored = Stored(row: Row, id: nat)

  /** The compiler's table of operators. */
  function Symbol(operator: Operator): string {
    match operator
    case Eq => "="
    case Gt => ">"
    case Gte => ">="
    case Lt => "<"
    case Lte => "<="
  }

  /** What the engine makes of a symbol. */
  predicate Related(symbol: string, x: int, y: int) {
    if symbol == "=" then x == y
    else if symbol == ">" then x > y
    else if symbol == ">=" then x >= y
    else if symbol == "<" then x < y
    else symbol == "<=" && x <= y
  }

  lemma SymbolAgrees(operator: Operator, x: int, y: int)
    ensures Related(Symbol(operator), x, y) == Compare(operator, x, y)
  {
  }

  /** columns_for: a workload's columns, whatever its kind, when it names any. */
  function ColumnsFor(spec: Spec): Option<seq<Name>> { if spec.columns != [] then Some(spec.columns) else None }

  /** The columns a query selects. */
  function Projected(spec: Spec, schema: seq<Name>): seq<Name> {
    if spec.columns != [] then spec.columns else schema
  }

  /** _query_parts, part after part; it raises for any column the schema does not have. */
  method QueryParts(schema: seq<Name>, spec: Spec) returns (query: Option<Query>)
    requires Declared(spec)
    ensures query.None? <==> !AllIn(Projected(spec, schema), schema) || !Known(spec, schema)
    ensures query.Some? ==> query.value == Compiled(schema, spec)
  {
    var columns := match ColumnsFor(spec) case Some(c) => c case None => schema;
    var j := 0;
    while j < |columns|
      invariant j <= |columns| && AllIn(columns[..j], schema)
      decreases |columns| - j
    {
      if columns[j] !in schema { return None; }
      assert columns[..j + 1] == columns[..j] + [columns[j]];
      j := j + 1;
    }
    assert columns[..j] == columns;
    var q := Query(columns, None, None);
    if spec.kind.Filter? {
      if spec.column.value !in schema { return None; }
      q := q.(condition := Some(Condition(spec.column.value, Symbol(spec.operator.value), spec.value.value)));
    }
    if spec.kind.Head? {
      q := q.(limit := spec.limit);
    }
    query := Some(q);
  }

  function Compiled(schema: seq<Name>, spec: Spec): Query
    requires Declared(spec)
  {
    Query(Projected(spec, schema),
          if spec.kind.Filter? then Some(Condition(spec.column.value, Symbol(spec.operator.value), spec.value.value)) else None,
          if spec.kind.Head? then spec.limit else None)
  }

  // ---------- What an engine answers ----------

  /** Three-valued comparison. */
  function Holds(c: Condition, row: Row): Truth {
    if c.column !in row || row[c.column].Null? then Unknown
    else if Related(c.symbol, row[c.column].key, c.parameter) then True else False
  }

  /** WHERE keeps the rows on which the condition is true. */
  predicate Passes(condition: Option<Condition>, row: Row) { condition == None || Holds(condition.value, row) == True }

  function Tuple(row: Row, projection: seq<Name>): seq<Cell> {
    seq(|projection|, i requires 0 <= i < |projection| => if projection[i] in row then row[projection[i]] else Null)
  }

  function Scan(data: seq<Stored>, q: Query): seq<seq<Cell>> {
    if data == [] then []
    else
      var last := data[|data| - 1];
      Scan(data[..|data| - 1], q) + if Passes(q.condition, last.row) then [Tuple(last.row, q.projection)] else []
  }

  /** _rows: the stored rows are numbered in table order. */
  function Numbered(rows: seq<Row>): seq<Stored> { seq(|rows|, i requires 0 <= i < |rows| => Stored(rows[i], i)) }

  ghost predicate ById(data: seq<Stored>) { forall i, j :: 0 <= i < j < |data| ==> data[i].id <= data[j].id }

  function Limited<T>(s: seq<T>, limit: Option<int>): seq<T> {
    if limit.Some? && 0 <= limit.value < |s| then s[..limit.value] else s
  }

  /** An engine may visit the rows in any order, but by row id when the query orders them. */
  ghost predicate Answers(q: Query, rows: seq<Row>, answer: seq<seq<Cell>>) {
    exists order :: multiset(order) == multiset(Numbered(rows)) && Visits(q, order, answer)
  }

  ghost predicate Visits(q: Query, order: seq<Stored>, answer: seq<seq<Cell>>) {
    (q.limit.Some? ==> ById(order)) && answer == Limited(Scan(order, q), q.limit)
  }

  // ---------- Back to a table ----------

  /** One fetched tuple under the selected names. */
  function Zip(columns: seq<Name>, values: seq<Cell>): Row
    requires |columns| == |values|
  {
    if columns == [] then map[]
    else Zip(columns[..|columns| - 1], values[..|columns| - 1])[columns[|columns| - 1] := values[|columns| - 1]]
  }

  /** _table_from_rows: a tuple of another width is refused. */
  function TableFromRows(rows: seq<seq<Cell>>, columns: seq<Name>): Option<Table> {
    if forall i :: 0 <= i < |rows| ==> |rows[i]| == |columns|
    then Some(Table(columns, seq(|rows|, i requires 0 <= i < |rows| && |rows[i]| == |columns| => Zip(columns, rows[i]))))
    else None
  }

  lemma {:induction false} ZipTuple(row: Row, columns: seq<Name>)
    requires forall i :: 0 <= i < |columns| ==> columns[i] in row
    ensures Zip(columns, Tuple(row, columns)) == Restrict(row, columns)
  {
    if columns != [] {
      var n := |columns| - 1;
      ZipTuple(row, columns[..n]);
      assert Tuple(row, columns)[..n] == Tuple(row, columns[..n]);
      assert columns == columns[..n] + [columns[n]];
    }
  }

  /** The rows a scan leads to. */
  function Image(data: seq<Stored>, q: Query): seq<Row> {
    if data == [] then []
    else
      var last := data[|data| - 1];
      Image(data[..|data| - 1], q) + if Passes(q.condition, last.row) then [Restrict(last.row, q.projection)] else []
  }

  ghost predicate Covers(data: seq<Stored>, columns: seq<Name>) {
    forall i :: 0 <= i < |data| ==> forall j :: 0 <= j < |columns| ==> columns[j] in data[i].row
  }

  /** A scan's tuples are the tuples of the rows of its image. */
  ghost predicate Tuples(answer: seq<seq<Cell>>, rows: seq<Row>, columns: seq<Name>) {
    |answer| == |rows| && forall i :: 0 <= i < |answer| ==> |answer[i]| == |columns| && Zip(columns, answer[i]) == rows[i]
  }

  lemma {:induction false} ScanTuples(data: seq<Stored>, q: Query)
    requires Covers(data, q.projection)
    ensures Tuples(Scan(data, q), Image(data, q), q.projection)
  {
    if data != [] {
      ScanTuples(data[..|data| - 1], q);
      ZipTuple(data[|data| - 1].row, q.projection);
    }
  }

  lemma TuplesTable(answer: seq<seq<Cell>>, rows: seq<Row>, columns: seq<Name>)
    requires Tuples(answer, rows, columns)
    ensures TableFromRows(answer, columns) == Some(Table(columns, rows))
  {
    assert TableFromRows(answer, columns).Some?;
    assert TableFromRows(answer, columns).value.rows == rows;
  }

  lemma TuplesLimited(answer: seq<seq<Cell>>, rows: seq<Row>, columns: seq<Name>, limit: Option<int>)
    requires Tuples(answer, rows, columns)
    ensures Tuples(Limited(answer, limit), Limited(rows, limit), columns)
  {
  }

  // ---------- Order ----------

  lemma {:induction false} ImageMore(a: seq<Stored>, b: seq<Stored>, q: Query)
    ensures Image(a + b, q) == Image(a, q) + Image(b, q)
  {
    if b == [] {
      assert a + b == a;
    } else {
      ImageMore(a, b[..|b| - 1], q);
      assert (a + b)[..|a + b| - 1] == a + b[..|b| - 1];
    }
  }

  lemma Without<T>(s: seq<T>, i: nat)
    requires i < |s|
    ensures s == s[..i] + [s[i]] + s[i + 1..]
    ensures multiset(s[..i] + s[i + 1..]) == multiset(s) - multiset{s[i]}
  {
    assert s == s[..i] + [s[i]] + s[i + 1..];
    assert multiset(s) == multiset(s[..i]) + multiset{s[i]} + multiset(s[i + 1..]);
  }

  lemma ImageWithout(s: seq<Stored>, i: nat, q: Query)
    requires i < |s|
    ensures multiset(Image(s, q)) == multiset(Image(s[..i] + s[i + 1..], q)) + multiset(Image([s[i]], q))
  {
    Without(s, i);
    ImageMore(s[..i] + [s[i]], s[i + 1..], q);
    ImageMore(s[..i], [s[i]], q);
    ImageMore(s[..i], s[i + 1..], q);
  }

  /** The order of the visit does not change which rows come out, nor how often. */
  lemma {:induction false} ImagePermutes(a: seq<Stored>, b: seq<Stored>, q: Query)
    requires multiset(a) == multiset(b)
    ensures multiset(Image(a, q)) == multiset(Image(b, q))
    decreases |a|
  {
    SameSize(a, b);
    if a != [] {
      var n := |a| - 1;
      assert a[n] in multiset(a);
      assert a[n] in b;
      var i :| 0 <= i < |b| && b[i] == a[n];
      Without(a, n);
      Without(b, i);
      assert a[..n] + a[n + 1..] == a[..n];
      ImagePermutes(a[..n], b[..i] + b[i + 1..], q);
      ImageWithout(a, n, q);
      ImageWithout(b, i, q);
    }
  }

  ghost predicate StrictById(data: seq<Stored>) { forall i, j :: 0 <= i < j < |data| ==> data[i].id < data[j].id }

  lemma LastSame(a: seq<Stored>, b: seq<Stored>)
    requires a != [] && b != [] && multiset(a) == multiset(b) && ById(a) && StrictById(b)
    ensures a[|a| - 1] == b[|b| - 1]
  {
    var x, y := a[|a| - 1], b[|b| - 1];
    assert x in multiset(a) && y in multiset(b);
    assert x in b && y in a;
    var i :| 0 <= i < |b| && b[i] == x;
    var j :| 0 <= j < |a| && a[j] == y;
  }

  lemma WithoutLast<T>(a: seq<T>, b: seq<T>)
    requires a != [] && b != [] && a[|a| - 1] == b[|b| - 1] && multiset(a) == multiset(b)
    ensures multiset(a[..|a| - 1]) == multiset(b[..|b| - 1])
  {
    assert a == a[..|a| - 1] + [a[|a| - 1]];
    assert b == b[..|b| - 1] + [b[|b| - 1]];
    assert multiset(a[..|a| - 1]) == multiset(a) - multiset{a[|a| - 1]};
    assert multiset(b[..|b| - 1]) == multiset(b) - multiset{b[|b| - 1]};
  }

  lemma ShorterById(a: seq<Stored>, n: nat)
    requires n <= |a|
    ensures ById(a) ==> ById(a[..n])
    ensures StrictById(a) ==> StrictById(a[..n])
  {
  }

  /** Rows visited by a row id that numbers them come in table order. */
  lemma {:induction false} OrderedById(a: seq<Stored>, b: seq<Stored>)
    requires multiset(a) == multiset(b) && ById(a) && StrictById(b)
    ensures a == b
    decreases |a|
  {
    SameSize(a, b);
    if a != [] {
      var n := |a| - 1;
      LastSame(a, b);
      WithoutLast(a, b);
      ShorterById(a, n);
      ShorterById(b, n);
      OrderedById(a[..n], b[..n]);
      assert a == a[..n] + [a[n]] && b == b[..n] + [b[n]];
    }
  }

  // ---------- Agreement ----------

  /** A query without columns of its own, or with those of a projection, selects what the reference returns. */
  predicate Plain(spec: Spec, schema: seq<Name>) {
    spec.kind.Projection? || spec.columns == [] || spec.columns == schema
  }

  lemma PassesMatches(row: Row, schema: seq<Name>, spec: Spec)
    requires Declared(spec) && Known(spec, schema) && row.Keys == Names(schema)
    ensures Passes(Compiled(schema, spec).condition, row) <==> (spec.kind.Filter? ==> Matches(spec, row))
  {
    if spec.kind.Filter? && row[spec.column.value].Scalar? {
      SymbolAgrees(spec.operator.value, row[spec.column.value].key, spec.value.value);
    }
  }

  /** The last numbered row adds to the image what it adds to the reference. */
  lemma ImageLast(rows: seq<Row>, schema: seq<Name>, spec: Spec)
    requires rows != [] && Declared(spec) && Known(spec, schema) && Shaped(rows, schema) && Plain(spec, schema)
    ensures var q, last := Compiled(schema, spec), rows[|rows| - 1];
      Image(Numbered(rows), q) == Image(Numbered(rows[..|rows| - 1]), q)
        + if spec.kind.Filter? && !Matches(spec, last) then [] else [if spec.kind.Projection? then Restrict(last, spec.columns) else last]
  {
    var n := |rows| - 1;
    assert Numbered(rows)[..n] == Numbered(rows[..n]);
    assert Numbered(rows)[n] == Stored(rows[n], n);
    assert rows[n].Keys == Names(schema);
    PassesMatches(rows[n], schema, spec);
    RestrictAll(rows[n], schema);
  }

  lemma {:induction false} ImageOfNumbered(rows: seq<Row>, schema: seq<Name>, spec: Spec)
    requires Declared(spec) && Known(spec, schema) && Shaped(rows, schema) && Plain(spec, schema)
    ensures Image(Numbered(rows), Compiled(schema, spec)) == if spec.kind.Head? then rows else ApplyRows(rows, spec)
  {
    hide Matches, Passes, Compiled, Restrict, Known, Plain;
    if rows != [] {
      var n := |rows| - 1;
      ImageOfNumbered(rows[..n], schema, spec);
      ImageLast(rows, schema, spec);
      assert rows == rows[..n] + [rows[n]];
    }
  }

  lemma NumberedCovers(rows: seq<Row>, order: seq<Stored>, schema: seq<Name>, columns: seq<Name>)
    requires Shaped(rows, schema) && AllIn(columns, schema) && multiset(order) == multiset(Numbered(rows))
    ensures Covers(order, columns)
  {
    forall i, j | 0 <= i < |order| && 0 <= j < |columns| ensures columns[j] in order[i].row {
      assert order[i] in multiset(order);
      assert order[i] in Numbered(rows);
      assert order[i].row.Keys == Names(schema);
    }
  }

  /** What any answer to the query holds. */
  lemma AnswerRows(table: Table, spec: Spec, answer: seq<seq<Cell>>, order: seq<Stored>)
    requires Loaded(table) && Declared(spec) && Known(spec, table.columns) && AllIn(Projected(spec, table.columns), table.columns)
    requires multiset(order) == multiset(Numbered(table.rows)) && Visits(Compiled(table.columns, spec), order, answer)
    ensures TableFromRows(answer, Projected(spec, table.columns))
      == Some(Table(Projected(spec, table.columns), Limited(Image(order, Compiled(table.columns, spec)), Compiled(table.columns, spec).limit)))
  {
    var q := Compiled(table.columns, spec);
    NumberedCovers(table.rows, order, table.columns, q.projection);
    ScanTuples(order, q);
    TuplesLimited(Scan(order, q), Image(order, q), q.projection, q.limit);
    TuplesTable(answer, Limited(Image(order, q), q.limit), q.projection);
  }

  /** The rows of an answer are the reference's, in its order where the query fixes one. */
  lemma ImageAgrees(rows: seq<Row>, schema: seq<Name>, spec: Spec, order: seq<Stored>)
    requires Declared(spec) && Known(spec, schema) && Shaped(rows, schema) && Plain(spec, schema)
    requires multiset(order) == multiset(Numbered(rows)) && (spec.kind.Head? ==> ById(order))
    ensures spec.kind.Head? ==> Limited(Image(order, Compiled(schema, spec)), spec.limit) == ApplyRows(rows, spec)
    ensures !spec.kind.Head? ==> multiset(Image(order, Compiled(schema, spec))) == multiset(ApplyRows(rows, spec))
  {
    hide Image;
    ImageOfNumbered(rows, schema, spec);
    if spec.kind.Head? {
      OrderedById(order, Numbered(rows));
    } else {
      ImagePermutes(order, Numbered(rows), Compiled(schema, spec));
    }
  }

  lemma PlainProjects(spec: Spec, schema: seq<Name>)
    requires Declared(spec) && Known(spec, schema) && Plain(spec, schema)
    ensures AllIn(Projected(spec, schema), schema)
  {
  }

  lemma SqlAgrees(table: Table, spec: Spec, answer: seq<seq<Cell>>, json: Json)
    requires Loaded(table) && Declared(spec) && Known(spec, table.columns) && Plain(spec, table.columns) && Faithful(json)
    requires Answers(Compiled(table.columns, spec), table.rows, answer)
    ensures TableFromRows(answer, Projected(spec, table.columns)).Some?
    ensures EvidenceOf(TableFromRows(answer, Projected(spec, table.columns)).value, spec, json)
         == EvidenceOf(Apply(table, spec).value, spec, json)
    ensures FilterMeans(table.rows, TableFromRows(answer, Projected(spec, table.columns)).value.rows, spec)
  {
    hide FilterMeans;
    var q := Compiled(table.columns, spec);
    PlainProjects(spec, table.columns);
    var order :| multiset(order) == multiset(Numbered(table.rows)) && Visits(q, order, answer);
    AnswerRows(table, spec, answer, order);
    ImageAgrees(table.rows, table.columns, spec, order);
    SameEvidence(TableFromRows(answer, Projected(spec, table.columns)).value, Apply(table, spec).value, spec, json);
    ApplyFilterMeans(table.rows, spec);
    if spec.kind.Filter? {
      FilterPermutes(table.rows, ApplyRows(table.rows, spec), TableFromRows(answer, Projected(spec, table.columns)).value.rows, spec);
    } else {
      NotAFilter(table.rows, TableFromRows(answer, Projected(spec, table.columns)).value.rows, spec);
    }
  }

  lemma NotAFilter(rows: seq<Row>, kept: seq<Row>, spec: Spec)
    requires !spec.kind.Filter?
    ensures FilterMeans(rows, kept, spec)
  {
  }

  /**
    The compiled query gives the reference's evidence under every engine order exactly
    when the workload names columns only as a projection (or all of them, in order).
  */
  lemma SqlAgreesExactly(table: Table, spec: Spec, answer: seq<seq<Cell>>, json: Json)
    requires Loaded(table) && Declared(spec) && Known(spec, table.columns) && Faithful(json)
    requires AllIn(Projected(spec, table.columns), table.columns)
    requires Answers(Compiled(table.columns, spec), table.rows, answer)
    ensures TableFromRows(answer, Projected(spec, table.columns)).Some?
    ensures EvidenceOf(TableFromRows(answer, Projected(spec, table.columns)).value, spec, json)
         == EvidenceOf(Apply(table, spec).value, spec, json)
      <==> Plain(spec, table.columns)
  {
    if Plain(spec, table.columns) {
      SqlAgrees(table, spec, answer, json);
    } else {
      var q := Compiled(table.columns, spec);
      var order :| multiset(order) == multiset(Numbered(table.rows)) && Visits(q, order, answer);
      AnswerRows(table, spec, answer, order);
    }
  }

  /**
    The row scan, the batch scan under any cutting into batches, and the compiled query
    under any engine order give the evidence of the reference semantics, for every
    loaded table and every declared workload over its columns whose own columns are a
    projection's.
  */
  method EvaluatorsAgree(table: Table, input: seq<seq<Row>>, spec: Spec, ghost answer: seq<seq<Cell>>, ghost json: Json)
    returns (avro: Option<Table>, jsonl: Option<Table>)
    requires Loaded(table) && Declared(spec) && Known(spec, table.columns) && Plain(spec, table.columns) && Faithful(json)
    requires Flat(input) == table.rows && Answers(Compiled(table.columns, spec), table.rows, answer)
    ensures avro.Some? && jsonl.Some? && Apply(table, spec).Some? && TableFromRows(answer, Projected(spec, table.columns)).Some?
    ensures EvidenceOf(avro.value, spec, json) == EvidenceOf(Apply(table, spec).value, spec, json)
    ensures EvidenceOf(jsonl.value, spec, json) == EvidenceOf(Apply(table, spec).value, spec, json)
    ensures EvidenceOf(TableFromRows(answer, Projected(spec, table.columns)).value, spec, json)
         == EvidenceOf(Apply(table, spec).value, spec, json)
    ensures FilterMeans(table.rows, avro.value.rows, spec) && FilterMeans(table.rows, jsonl.value.rows, spec)
    ensures FilterMeans(table.rows, TableFromRows(answer, Projected(spec, table.columns)).value.rows, spec)
  {
    hide FilterMeans, EvidenceOf, Answers, TableFromRows, Loaded;
    avro := AvroScan(table, spec);
    LoadedBatches(table, input);
    jsonl := JsonlScan(table.columns, input, spec);
    SqlAgrees(table, spec, answer, json);
  }

  lemma LoadedBatches(table: Table, input: seq<seq<Row>>)
    requires Loaded(table) && Flat(input) == table.rows
    ensures Table(table.columns, Flat(input)) == table
  {
  }
}
