/**
  Workloads over tables with NULLs (src/format_bench/workloads.py and the declaration
  check in model.py), and the evidence two results are compared by
  (src/format_bench/fair.py, canonical.py).
*/
module Workloads {
  import opened Common
  import opened Ordering

  type Name = string

  /** NULL, or a scalar given by its place in the order of its column's type. */
  datatype Cell = Null | Scalar(key: int)

  type Row = map<Name, Cell>

  datatype Table = Table(columns: seq<Name>, rows: seq<Row>)

  datatype Kind = ReadAll | Projection | Filter | Head

  datatype Operator = Eq | Gt | Gte | Lt | Lte

  datatype Spec = Spec(kind: Kind, columns: seq<Name>, column: Option<Name>, operator: Option<Operator>,
                       value: Option<int>, limit: Option<int>)

  /** What WorkloadSpec.validate accepts. */
  predicate Declared(spec: Spec) {
    && (spec.kind.Projection? ==> spec.columns != [])
    && (spec.kind.Filter? ==> spec.column.Some? && spec.column.value != "" && spec.operator.Some? && spec.value.Some?)
    && (spec.kind.Head? ==> spec.limit.Some? && spec.limit.value > 0)
  }

  function Names(columns: seq<Name>): set<Name> { set c | c in columns }

  /** A loaded table: distinct columns, and a cell for each of them in every row. */
  ghost predicate Loaded(table: Table) {
    && table.columns != []
    && (forall i, j :: 0 <= i < j < |table.columns| ==> table.columns[i] != table.columns[j])
    && Shaped(table.rows, table.columns)
  }

  ghost predicate Shaped(rows: seq<Row>, columns: seq<Name>) {
    forall i :: 0 <= i < |rows| ==> rows[i].Keys == Names(columns)
  }

  predicate AllIn(columns: seq<Name>, schema: seq<Name>) { forall i :: 0 <= i < |columns| ==> columns[i] in schema }

  // ---------- The reference semantics ----------

  predicate Compare(op: Operator, x: int, y: int) {
    match op
    case Eq => x == y
    case Gt => x > y
    case Gte => x >= y
    case Lt => x < y
    case Lte => x <= y
  }

  /** A comparison with NULL is NULL, and a row is kept only where the comparison is true. */
  predicate Matches(spec: Spec, row: Row)
    requires Declared(spec) && spec.kind.Filter?
  {
    && spec.column.value in row && row[spec.column.value].Scalar?
    && Compare(spec.operator.value, row[spec.column.value].key, spec.value.value)
  }

  function Restrict(row: Row, columns: seq<Name>): Row { map c | c in columns && c in row :: row[c] }

  function Select(rows: seq<Row>, columns: seq<Name>): seq<Row> {
    seq(|rows|, i requires 0 <= i < |rows| => Restrict(rows[i], columns))
  }

  function Kept(rows: seq<Row>, spec: Spec): (r: seq<Row>)
    requires Declared(spec) && spec.kind.Filter?
    ensures |r| <= |rows|
  {
    if rows == [] then []
    else Kept(rows[..|rows| - 1], spec) + if Matches(spec, rows[|rows| - 1]) then [rows[|rows| - 1]] else []
  }

  function First(rows: seq<Row>, n: int): seq<Row> { if n <= 0 then [] else if n <= |rows| then rows[..n] else rows }

  /** The workload on the rows of a table. */
  function ApplyRows(rows: seq<Row>, spec: Spec): seq<Row>
    requires Declared(spec)
  {
    match spec.kind
    case Projection => Select(rows, spec.columns)
    case Filter => Kept(rows, spec)
    case Head => First(rows, spec.limit.value)
    case ReadAll => rows
  }

  /** The columns the workload names are columns of the table. */
  predicate Known(spec: Spec, schema: seq<Name>)
    requires Declared(spec)
  {
    && (spec.kind.Projection? ==> AllIn(spec.columns, schema))
    && (spec.kind.Filter? ==> spec.column.value in schema)
  }

  function OutColumns(spec: Spec, schema: seq<Name>): seq<Name> {
    if spec.kind.Projection? then spec.columns else schema
  }

  /** apply_workload: None where it raises for a column the table does not have. */
  function Apply(table: Table, spec: Spec): Option<Table>
    requires Declared(spec)
  {
    if Known(spec, table.columns) then Some(Table(OutColumns(spec, table.columns), ApplyRows(table.rows, spec)))
    else None
  }

  // ---------- What a filter keeps ----------

  /** The number in a row's cell is in this relation to the value. */
  ghost predicate CellIs(row: Row, column: Name, relation: int -> bool) {
    column in row && row[column].Scalar? && relation(row[column].key)
  }

  /** Of these rows exactly those are kept, as often as they were there, whose cell is in the relation. */
  ghost predicate KeepsWhere(rows: seq<Row>, kept: seq<Row>, column: Name, relation: int -> bool) {
    forall row :: multiset(kept)[row] == if CellIs(row, column, relation) then multiset(rows)[row] else 0
  }

  /** The five filters, each with the relation it stands for. */
  ghost predicate FilterMeans(rows: seq<Row>, kept: seq<Row>, spec: Spec) {
    spec.kind.Filter? && spec.column.Some? && spec.operator.Some? && spec.value.Some? ==>
      var column, value := spec.column.value, spec.value.value;
      && (spec.operator.value == Eq ==> KeepsWhere(rows, kept, column, x => x == value))
      && (spec.operator.value == Gt ==> KeepsWhere(rows, kept, column, x => x > value))
      && (spec.operator.value == Gte ==> KeepsWhere(rows, kept, column, x => x >= value))
      && (spec.operator.value == Lt ==> KeepsWhere(rows, kept, column, x => x < value))
      && (spec.operator.value == Lte ==> KeepsWhere(rows, kept, column, x => x <= value))
  }

  lemma LastCount(rows: seq<Row>, row: Row)
    requires rows != []
    ensures multiset(rows)[row] == multiset(rows[..|rows| - 1])[row] + if row == rows[|rows| - 1] then 1 else 0
  {
    assert rows == rows[..|rows| - 1] + [rows[|rows| - 1]];
    CountMore(rows[..|rows| - 1], rows[|rows| - 1], row);
  }

  /** How often a row is there after one more. */
  lemma CountMore(s: seq<Row>, x: Row, row: Row)
    ensures multiset(s + [x])[row] == multiset(s)[row] + if row == x then 1 else 0
  {
  }

  lemma KeptLast(rows: seq<Row>, spec: Spec, row: Row)
    requires Declared(spec) && spec.kind.Filter? && rows != []
    ensures var n := |rows| - 1;
      multiset(Kept(rows, spec))[row]
        == multiset(Kept(rows[..n], spec))[row] + if row == rows[n] && Matches(spec, rows[n]) then 1 else 0
  {
    hide Matches, Kept;
    var n := |rows| - 1;
    var before := Kept(rows[..n], spec);
    if Matches(spec, rows[n]) {
      KeptStep(rows, spec);
      CountMore(before, rows[n], row);
    } else {
      KeptStep(rows, spec);
    }
  }

  lemma KeptStep(rows: seq<Row>, spec: Spec)
    requires Declared(spec) && spec.kind.Filter? && rows != []
    ensures var n := |rows| - 1;
      Kept(rows, spec) == if Matches(spec, rows[n]) then Kept(rows[..n], spec) + [rows[n]] else Kept(rows[..n], spec)
  {
    hide Matches;
  }

  lemma {:induction false} KeptWhere(rows: seq<Row>, spec: Spec, relation: int -> bool)
    requires Declared(spec) && spec.kind.Filter?
    requires forall x :: Compare(spec.operator.value, x, spec.value.value) == relation(x)
    ensures KeepsWhere(rows, Kept(rows, spec), spec.column.value, relation)
  {
    hide Compare, Kept;
    if rows == [] {
      assert Kept(rows, spec) == [];
    } else {
      var n := |rows| - 1;
      KeptWhere(rows[..n], spec, relation);
      forall row
        ensures multiset(Kept(rows, spec))[row] == if CellIs(row, spec.column.value, relation) then multiset(rows)[row] else 0
      {
        LastCount(rows, row);
        KeptLast(rows, spec, row);
        assert Matches(spec, rows[n]) <==> CellIs(rows[n], spec.column.value, relation);
      }
    }
  }

  /** The reference filter keeps exactly the rows its operator and value say. */
  lemma ApplyFilterMeans(rows: seq<Row>, spec: Spec)
    requires Declared(spec)
    ensures FilterMeans(rows, ApplyRows(rows, spec), spec)
  {
    if spec.kind.Filter? {
      hide KeepsWhere, Kept;
      var value := spec.value.value;
      match spec.operator.value
      case Eq => KeptWhere(rows, spec, x => x == value);
      case Gt => KeptWhere(rows, spec, x => x > value);
      case Gte => KeptWhere(rows, spec, x => x >= value);
      case Lt => KeptWhere(rows, spec, x => x < value);
      case Lte => KeptWhere(rows, spec, x => x <= value);
    }
  }

  /** A permutation of what is kept is kept by the same filter. */
  lemma FilterPermutes(rows: seq<Row>, a: seq<Row>, b: seq<Row>, spec: Spec)
    requires FilterMeans(rows, a, spec) && multiset(a) == multiset(b)
    ensures FilterMeans(rows, b, spec)
  {
  }

  lemma {:induction false} KeptMore(a: seq<Row>, b: seq<Row>, spec: Spec)
    requires Declared(spec) && spec.kind.Filter?
    ensures Kept(a + b, spec) == Kept(a, spec) + Kept(b, spec)
  {
    if b == [] {
      assert a + b == a;
    } else {
      KeptMore(a, b[..|b| - 1], spec);
      assert (a + b)[..|a + b| - 1] == a + b[..|b| - 1];
    }
  }

  /** Every workload but HEAD works batch by batch. */
  lemma ApplyMore(a: seq<Row>, b: seq<Row>, spec: Spec)
    requires Declared(spec) && !spec.kind.Head?
    ensures ApplyRows(a + b, spec) == ApplyRows(a, spec) + ApplyRows(b, spec)
  {
    if spec.kind.Filter? { KeptMore(a, b, spec); }
  }

  lemma RestrictAll(row: Row, columns: seq<Name>)
    requires row.Keys == Names(columns)
    ensures Restrict(row, columns) == row
  {
  }

  // ---------- Evidence ----------

  /** strict_json_dumps on a cell, on a row and on a list of rows, as code points. */
  datatype Json = Json(cell: Cell -> seq<int>, row: Row -> seq<int>, document: seq<Row> -> seq<int>)

  ghost predicate Injective<T(!new)>(f: T -> seq<int>) { forall x: T, y: T :: f(x) == f(y) ==> x == y }

  ghost predicate Faithful(json: Json) { Injective(json.row) && Injective(json.document) }

  datatype Key = Key(cell: seq<int>, row: seq<int>)

  /** The sort key of an unordered result: one column's text, then the row's. */
  function SortKey(row: Row, column: Name, json: Json): Key {
    Key(json.cell(if column in row then row[column] else Null), json.row(row))
  }

  predicate Below(a: Key, b: Key) { Less(a.cell, b.cell) || (a.cell == b.cell && Less(a.row, b.row)) }

  function Place(x: Row, s: seq<Row>, column: Name, json: Json): seq<Row> {
    if s == [] || !Below(SortKey(s[0], column, json), SortKey(x, column, json)) then [x] + s
    else [s[0]] + Place(x, s[1..], column, json)
  }

  /** The rows in the stable order of their keys. */
  function Canonical(s: seq<Row>, column: Name, json: Json): seq<Row> {
    if s == [] then [] else Place(s[0], Canonical(s[1..], column, json), column, json)
  }

  function SortColumn(columns: seq<Name>): Name {
    if "full_name" in columns then "full_name" else if columns == [] then "" else columns[0]
  }

  datatype Evidence = Evidence(rows: nat, columns: seq<Name>, ordered: bool, payload: seq<int>)

  /** The document that is hashed. */
  function Payload(table: Table, ordered: bool, json: Json): seq<int> {
    json.document(if ordered then table.rows else Canonical(table.rows, SortColumn(table.columns), json))
  }

  function EvidenceOf(table: Table, spec: Spec, json: Json): Evidence {
    Evidence(|table.rows|, table.columns, spec.kind.Head?, Payload(table, spec.kind.Head?, json))
  }

  // ---------- The unordered payload is the multiset of rows ----------

  lemma BelowTransitive(a: Key, b: Key, c: Key)
    requires !Below(b, a) && !Below(c, b)
    ensures !Below(c, a)
  {
    Total(a.cell, b.cell);
    Total(b.cell, c.cell);
    Total(a.row, b.row);
    Total(b.row, c.row);
    if Below(c, a) {
      if Less(a.cell, b.cell) && Less(b.cell, c.cell) { Transitive(a.cell, b.cell, c.cell); }
      if Less(c.cell, a.cell) && Less(a.cell, c.cell) { Transitive(a.cell, c.cell, a.cell); }
      if Less(a.row, b.row) && Less(b.row, c.row) { Transitive(a.row, b.row, c.row); }
      if Less(c.row, a.row) && Less(a.row, c.row) { Transitive(a.row, c.row, a.row); }
      Irreflexive(a.cell);
      Irreflexive(a.row);
    }
  }

  lemma BelowBoth(a: Key, b: Key)
    requires !Below(a, b) && !Below(b, a)
    ensures a == b
  {
    Total(a.cell, b.cell);
    Total(a.row, b.row);
  }

  ghost predicate Sorted(s: seq<Row>, column: Name, json: Json) {
    forall i, j :: 0 <= i < j < |s| ==> !Below(SortKey(s[j], column, json), SortKey(s[i], column, json))
  }

  /** The order of an unordered document: by the text of full_name where there is such a column, else of the first, then by the row's. */
  lemma CanonicalOrder(table: Table, json: Json, i: nat, j: nat)
    requires table.columns != [] && i < j < |table.rows|
    ensures var column := if "full_name" in table.columns then "full_name" else table.columns[0];
      var rows := Canonical(table.rows, SortColumn(table.columns), json);
      && |rows| == |table.rows|
      && (column in rows[i] && column in rows[j] ==>
            var a, b := json.cell(rows[i][column]), json.cell(rows[j][column]);
            Less(a, b) || (a == b && !Less(json.row(rows[j]), json.row(rows[i]))))
  {
    var column := SortColumn(table.columns);
    var rows := Canonical(table.rows, column, json);
    CanonicalSorts(table.rows, column, json);
    SameSize(rows, table.rows);
    if column in rows[i] && column in rows[j] { Total(json.cell(rows[i][column]), json.cell(rows[j][column])); }
  }

  lemma PlaceElements(x: Row, s: seq<Row>, column: Name, json: Json)
    ensures multiset(Place(x, s, column, json)) == multiset(s) + multiset{x}
  {
    if s != [] { assert s == [s[0]] + s[1..]; }
  }

  lemma {:induction false} PlaceSorted(x: Row, s: seq<Row>, column: Name, json: Json)
    requires Sorted(s, column, json)
    ensures Sorted(Place(x, s, column, json), column, json)
  {
    if s == [] {
    } else if !Below(SortKey(s[0], column, json), SortKey(x, column, json)) {
      forall j | 0 <= j < |s| ensures !Below(SortKey(s[j], column, json), SortKey(x, column, json)) {
        if j > 0 { BelowTransitive(SortKey(x, column, json), SortKey(s[0], column, json), SortKey(s[j], column, json)); }
      }
    } else {
      var rest := Place(x, s[1..], column, json);
      PlaceSorted(x, s[1..], column, json);
      PlaceElements(x, s[1..], column, json);
      forall j | 0 <= j < |rest| ensures !Below(SortKey(rest[j], column, json), SortKey(s[0], column, json)) {
        assert rest[j] in multiset(rest);
        BelowNot(SortKey(s[0], column, json), SortKey(x, column, json));
      }
    }
  }

  lemma BelowNot(a: Key, b: Key)
    requires Below(a, b)
    ensures !Below(b, a)
  {
    if Less(a.cell, b.cell) && Less(b.cell, a.cell) { Transitive(a.cell, b.cell, a.cell); }
    if Less(a.row, b.row) && Less(b.row, a.row) { Transitive(a.row, b.row, a.row); }
    Irreflexive(a.cell);
    Irreflexive(a.row);
  }

  lemma {:induction false} CanonicalSorts(s: seq<Row>, column: Name, json: Json)
    ensures Sorted(Canonical(s, column, json), column, json)
    ensures multiset(Canonical(s, column, json)) == multiset(s)
  {
    if s != [] {
      CanonicalSorts(s[1..], column, json);
      PlaceSorted(s[0], Canonical(s[1..], column, json), column, json);
      PlaceElements(s[0], Canonical(s[1..], column, json), column, json);
      assert s == [s[0]] + s[1..];
    }
  }

  lemma HeadFirst(a: seq<Row>, x: Row, column: Name, json: Json)
    requires Sorted(a, column, json) && a != [] && x in multiset(a)
    ensures !Below(SortKey(x, column, json), SortKey(a[0], column, json))
  {
    assert x in a;
    Irreflexive(SortKey(x, column, json).cell);
    Irreflexive(SortKey(x, column, json).row);
  }

  lemma HeadsAgree(a: seq<Row>, b: seq<Row>, column: Name, json: Json)
    requires Sorted(a, column, json) && Sorted(b, column, json) && Injective(json.row)
    requires a != [] && b != [] && b[0] in multiset(a) && a[0] in multiset(b)
    ensures a[0] == b[0]
  {
    HeadFirst(a, b[0], column, json);
    HeadFirst(b, a[0], column, json);
    BelowBoth(SortKey(a[0], column, json), SortKey(b[0], column, json));
    assert json.row(a[0]) == json.row(b[0]);
  }

  lemma HeadAndTail<T>(s: seq<T>)
    requires s != []
    ensures multiset(s) == multiset(s[1..]) + multiset{s[0]} && s[0] in multiset(s)
  {
    assert s == [s[0]] + s[1..];
  }

  lemma SameSize<T>(a: seq<T>, b: seq<T>)
    requires multiset(a) == multiset(b)
    ensures |a| == |b|
  {
    assert |a| == |multiset(a)| == |multiset(b)| == |b|;
  }

  lemma SameTails<T>(a: seq<T>, b: seq<T>)
    requires a != [] && b != [] && a[0] == b[0] && multiset(a) == multiset(b)
    ensures multiset(a[1..]) == multiset(b[1..])
  {
    HeadAndTail(a);
    HeadAndTail(b);
    assert multiset(a[1..]) == multiset(a) - multiset{a[0]};
    assert multiset(b[1..]) == multiset(b) - multiset{b[0]};
  }

  lemma HeadsWithin<T>(a: seq<T>, b: seq<T>)
    requires a != [] && b != [] && multiset(a) == multiset(b)
    ensures b[0] in multiset(a) && a[0] in multiset(b)
  {
  }

  lemma SortedTail(s: seq<Row>, column: Name, json: Json)
    requires s != [] && Sorted(s, column, json)
    ensures Sorted(s[1..], column, json)
  {
  }

  lemma {:induction false} SortedUnique(a: seq<Row>, b: seq<Row>, column: Name, json: Json)
    requires Sorted(a, column, json) && Sorted(b, column, json) && multiset(a) == multiset(b) && Injective(json.row)
    ensures a == b
  {
    SameSize(a, b);
    if a != [] {
      HeadsWithin(a, b);
      HeadsAgree(a, b, column, json);
      SameTails(a, b);
      SortedTail(a, column, json);
      SortedTail(b, column, json);
      SortedUnique(a[1..], b[1..], column, json);
      assert a == [a[0]] + a[1..] && b == [b[0]] + b[1..];
    }
  }

  /** Two unordered results with the same columns have the same payload exactly when they hold the same rows as often. */
  lemma UnorderedPayload(a: Table, b: Table, json: Json)
    requires Faithful(json) && a.columns == b.columns
    ensures Payload(a, false, json) == Payload(b, false, json) <==> multiset(a.rows) == multiset(b.rows)
  {
    var column := SortColumn(a.columns);
    CanonicalSorts(a.rows, column, json);
    CanonicalSorts(b.rows, column, json);
    if multiset(a.rows) == multiset(b.rows) {
      SortedUnique(Canonical(a.rows, column, json), Canonical(b.rows, column, json), column, json);
    }
  }

  /** Results give the same evidence exactly when they agree up to the order tolerated for the workload's kind. */
  lemma SameEvidence(a: Table, b: Table, spec: Spec, json: Json)
    requires Faithful(json)
    ensures EvidenceOf(a, spec, json) == EvidenceOf(b, spec, json)
      <==> a.columns == b.columns && (if spec.kind.Head? then a.rows == b.rows else multiset(a.rows) == multiset(b.rows))
  {
    if a.columns == b.columns {
      if spec.kind.Head? {
        if Payload(a, true, json) == Payload(b, true, json) { assert json.document(a.rows) == json.document(b.rows); }
      } else {
        UnorderedPayload(a, b, json);
        if multiset(a.rows) == multiset(b.rows) { assert |multiset(a.rows)| == |a.rows| && |multiset(b.rows)| == |b.rows|; }
      }
    }
  }
}
