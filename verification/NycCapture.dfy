/**
  The keyset capture of the NYC dataset (src/format_bench/nyc_snapshot.py) and its
  consumer (src/format_bench/dataset_sources.py): pages are fetched above a cursor,
  recorded, and only then handed on row by row, under a capture record with its own
  states.
*/
module NycCapture {
  import opened Common

  datatype CaptureState = Started | Captured | Complete | Failed

  /** A row with its system id and the columns kept of it, or one whose id is blank. */
  datatype Row = Row(id: int, data: int) | Blank(data: int)

  datatype Response = HttpError | WrongColumns | Page(rows: seq<Row>)

  /** A page as the capture record describes it. */
  datatype PageEvidence = PageEvidence(validated: bool, rows: nat, first: int, last: int)

  /** The outside: the pages served above a cursor, the two revisions, and where a step fails. */
  datatype Source = Source(serve: (Option<int>, nat, nat) -> Response,
                           before: Option<int>, after: Option<int>,
                           fault: nat -> bool)

  datatype Ending = Drained | SourceFailed | ConsumerFailed

  predicate Legal(current: Option<CaptureState>, next: CaptureState) {
    match current
    case None => next.Started?
    case Some(Started) => next.Captured? || next.Failed?
    case Some(Captured) => next.Complete? || next.Failed?
    case Some(_) => false
  }

  // ---------- An honest source ----------

  predicate Is(r: Row, id: int) { r.Row? && r.id == id }

  function Datas(rows: seq<Row>): seq<int> { seq(|rows|, i requires 0 <= i < |rows| => rows[i].data) }

  /** Every row has an id and no two rows share one. */
  ghost predicate Distinct(rows: seq<Row>) {
    && (forall i :: 0 <= i < |rows| ==> rows[i].Row?)
    && (forall i, j :: 0 <= i < j < |rows| ==> rows[i].id != rows[j].id)
  }

  ghost predicate Named(rows: seq<Row>, x: int) { exists i :: 0 <= i < |rows| && Is(rows[i], x) }

  ghost predicate IdsAre(rows: seq<Row>, ids: set<int>) {
    forall x :: x in ids <==> Named(rows, x)
  }

  /** The filtered table in the order of its ids. */
  ghost predicate Table(table: seq<Row>) {
    && (forall i :: 0 <= i < |table| ==> table[i].Row?)
    && (forall i, j :: 0 <= i < j < |table| ==> table[i].id < table[j].id)
  }

  /** The rows above a cursor start at k. */
  ghost predicate Splits(table: seq<Row>, cursor: Option<int>, k: nat) {
    && k <= |table|
    && (forall i :: 0 <= i < k ==> cursor.Some? && table[i].Row? && table[i].id <= cursor.value)
    && (forall i :: k <= i < |table| && cursor.Some? && table[i].Row? ==> table[i].id > cursor.value)
  }

  /** A response is a prefix of the rows above the cursor, within the limit, empty only when there are none. */
  ghost predicate HonestPage(r: Response, table: seq<Row>, limit: nat, k: nat) {
    r.Page? && k <= |table| && |r.rows| <= limit && r.rows <= table[k..] && (k < |table| ==> r.rows != [])
  }

  ghost predicate Honest(s: Source, table: seq<Row>) {
    forall cursor, limit: nat, n: nat, k: nat :: limit > 0 && Splits(table, cursor, k) ==>
      HonestPage(s.serve(cursor, limit, n), table, limit, k)
  }

  ghost predicate Faultless(s: Source) { forall n: nat :: !s.fault(n) }

  /** The rows counted by the validated pages. */
  function Counted(pages: seq<PageEvidence>): nat {
    if pages == [] then 0
    else Counted(pages[..|pages| - 1]) + if pages[|pages| - 1].validated then pages[|pages| - 1].rows else 0
  }

  lemma {:induction false} CountedMore(pages: seq<PageEvidence>, p: PageEvidence)
    ensures Counted(pages + [p]) == Counted(pages) + if p.validated then p.rows else 0
  {
  }

  /** The cursor of the last row read. */
  function LastId(rows: seq<Row>): Option<int> {
    if rows == [] || rows[|rows| - 1].Blank? then None else Some(rows[|rows| - 1].id)
  }

  lemma TableSplits(table: seq<Row>, k: nat)
    requires Table(table) && k <= |table|
    ensures Splits(table, LastId(table[..k]), k)
  {
  }

  /** An honest page is the next stretch of the table and passes the cursor checks. */
  lemma HonestPagePasses(table: seq<Row>, k: nat, limit: nat, r: Response, seen: set<int>)
    requires Table(table) && HonestPage(r, table, limit, k) && IdsAre(table[..k], seen)
    ensures r.Page? && k + |r.rows| <= |table| && table[..k] + r.rows == table[..k + |r.rows|]
    ensures Distinct(r.rows) && Apart(r.rows, seen)
  {
  }

  /** None of the rows has been seen. */
  ghost predicate Apart(rows: seq<Row>, seen: set<int>) {
    forall j :: 0 <= j < |rows| && rows[j].Row? ==> rows[j].id !in seen
  }

  lemma DistinctMore(before: seq<Row>, seen: set<int>, rows: seq<Row>, after: set<int>)
    requires Distinct(before) && IdsAre(before, seen) && Distinct(rows) && Apart(rows, seen)
    requires Gathered(rows, seen, after)
    ensures Distinct(before + rows) && IdsAre(before + rows, after)
  {
    var all := before + rows;
    forall i, j | 0 <= i < |before| && 0 <= j < |rows| ensures before[i].Row? && rows[j].Row? && before[i].id != rows[j].id {
      assert rows[j].id !in seen;
      assert Is(before[i], before[i].id);
    }
    forall i, j | 0 <= i < j < |all| ensures all[i].Row? && all[j].Row? && all[i].id != all[j].id {
      if j < |before| { assert before[i].id != before[j].id; }
      else if i < |before| { assert before[i].id != rows[j - |before|].id; }
      else { assert rows[i - |before|].id != rows[j - |before|].id; }
    }
    forall x: int ensures x in after <==> Named(all, x) { NamedEither(before, rows, x); }
  }

  lemma NamedEither(before: seq<Row>, rows: seq<Row>, x: int)
    ensures Named(before + rows, x) <==> Named(before, x) || Named(rows, x)
  {
    var all := before + rows;
    if i :| 0 <= i < |before| && Is(before[i], x) { assert Is(all[i], x); }
    if i :| 0 <= i < |rows| && Is(rows[i], x) { assert Is(all[|before| + i], x); }
    if i :| 0 <= i < |all| && Is(all[i], x) {
      if i < |before| { assert Is(before[i], x); } else { assert Is(rows[i - |before|], x); }
    }
  }

  /** What one more row does to the checks. */
  lemma CheckMore(rows: seq<Row>, j: nat, before: set<int>, seen: set<int>)
    requires j < |rows| && Distinct(rows[..j]) && Apart(rows[..j], before) && Gathered(rows[..j], before, seen)
    ensures Distinct(rows[..j + 1]) && Apart(rows[..j + 1], before) <==> rows[j].Row? && rows[j].id !in seen
    ensures rows[j].Row? ==> Gathered(rows[..j + 1], before, seen + {rows[j].id})
  {
  }

  ghost predicate Gathered(rows: seq<Row>, before: set<int>, seen: set<int>) {
    forall x :: x in seen <==> x in before || Named(rows, x)
  }

  lemma DistinctPart(rows: seq<Row>, j: nat, before: set<int>)
    requires j <= |rows| && Distinct(rows) && Apart(rows, before)
    ensures Distinct(rows[..j]) && Apart(rows[..j], before)
  {
  }

  /** The cursor checks on one page: every row has an id not seen before. */
  method CheckCursors(rows: seq<Row>, before: set<int>) returns (ok: bool, seen: set<int>)
    ensures ok <==> Distinct(rows) && Apart(rows, before)
    ensures ok ==> Gathered(rows, before, seen)
  {
    seen := before;
    for j := 0 to |rows|
      invariant Distinct(rows[..j]) && Apart(rows[..j], before) && Gathered(rows[..j], before, seen)
    {
      CheckMore(rows, j, before, seen);
      if rows[j].Blank? || rows[j].id in seen {
        if Distinct(rows) && Apart(rows, before) { DistinctPart(rows, j + 1, before); }
        ok := false;
        return;
      }
      seen := seen + {rows[j].id};
    }
    assert rows[..|rows|] == rows;
    ok := true;
  }

  // ---------- The capture directory ----------

  /** The record's states so far are a path of the transition table. */
  ghost predicate Lawful(history: seq<CaptureState>) {
    && (history != [] ==> Legal(None, history[0]))
    && (forall i :: 1 <= i < |history| ==> Legal(Some(history[i - 1]), history[i]))
  }

  function Latest(history: seq<CaptureState>): Option<CaptureState> {
    if history == [] then None else Some(history[|history| - 1])
  }

  lemma LawfulMore(history: seq<CaptureState>, next: CaptureState)
    requires Lawful(history) && Legal(Latest(history), next)
    ensures Lawful(history + [next]) && Latest(history + [next]) == Some(next)
  {
  }

  class Directory {
    var status: Option<CaptureState>
    var pages: seq<PageEvidence>
    var partial: Option<seq<int>>
    var source: Option<seq<int>>
    var matched: bool
    var seen: set<int>
    var lastCursor: Option<int>
    var emitted: nat
    var steps: nat
    ghost var history: seq<CaptureState>
    ghost var persisted: seq<Row>
    ghost var yielded: seq<Row>

    constructor ()
      ensures Valid() && history == [] && persisted == [] && yielded == []
      ensures partial == None && source == None && pages == [] && seen == {} && lastCursor == None && emitted == 0
    {
      status, pages, partial, source, matched := None, [], None, None, false;
      seen, lastCursor, emitted, steps := {}, None, 0, 0;
      history, persisted, yielded := [], [], [];
    }

    /** The record on disk shows the last of its states, and no row was handed on before its page was recorded. */
    ghost predicate Valid()
      reads this
    {
      Lawful(history) && status == Latest(history) && yielded <= persisted
    }

    /** Between two pages: every recorded row was handed on, counted and written out. */
    ghost predicate Between()
      reads this
    {
      && Valid() && history == [Started] && source == None
      && yielded == persisted && partial == Some(Datas(persisted))
      && Recorded()
    }

    /** The counters, cursors and page records describe the recorded rows. */
    ghost predicate Recorded()
      reads this
    {
      && emitted == |persisted| == Counted(pages)
      && Distinct(persisted) && IdsAre(persisted, seen) && lastCursor == LastId(persisted)
    }

    /** What an honest source has given so far. */
    ghost predicate Prefix(table: seq<Row>)
      reads this
    {
      |persisted| <= |table| && persisted == table[..|persisted|]
    }

    /** The next step fails, or not. */
    method Risk(s: Source) returns (bad: bool)
      modifies this`steps
      ensures Faultless(s) ==> !bad
    {
      bad := s.fault(steps);
      steps := steps + 1;
    }

    method WriteCapture(next: CaptureState)
      requires Valid() && Legal(status, next)
      modifies this`status, this`history
      ensures Valid() && status == Some(next) && history == old(history) + [next]
    {
      LawfulMore(history, next);
      status := Some(next);
      history := history + [next];
    }

    /** fail_active_capture: only a capture still under way is failed. */
    method FailActive()
      requires Valid()
      modifies this`status, this`history
      ensures Valid()
      ensures old(status) in {Some(Started), Some(Captured)} ==> history == old(history) + [Failed]
      ensures old(status) !in {Some(Started), Some(Captured)} ==> history == old(history)
    {
      if status == Some(Started) || status == Some(Captured) { WriteCapture(Failed); }
    }

    /** The request above the last cursor and the bytes it was answered with. */
    method FetchPage(s: Source, limit: nat, ghost table: seq<Row>) returns (page: Option<Response>)
      requires Between() && limit > 0 && Table(table)
      requires Honest(s, table) ==> Prefix(table)
      modifies this`steps
      ensures page.Some? && Honest(s, table) ==> HonestPage(page.value, table, limit, emitted)
      ensures Honest(s, table) && Faultless(s) ==> page.Some?
    {
      if Honest(s, table) { TableSplits(table, emitted); }
      var bad := Risk(s);
      if bad { return None; }
      var r := s.serve(lastCursor, limit, |pages|);
      if r.HttpError? { return None; }
      bad := Risk(s);
      page := if bad then None else Some(r);
    }

    /** Checks and records one page; nothing of it has been handed on yet. */
    method RecordPage(r: Response, target: nat) returns (rows: Option<seq<Row>>)
      requires Between()
      modifies this`pages, this`seen, this`lastCursor, this`emitted, this`persisted
      ensures Valid()
      ensures rows.Some? <==> r.Page? && r.rows != [] && Distinct(r.rows) && Apart(r.rows, old(seen)) && old(emitted) + |r.rows| <= target
      ensures rows.Some? ==> rows.value == r.rows && Recorded() && persisted == old(persisted) + r.rows && emitted <= target
    {
      hide Counted;
      var earlier := pages;
      pages := earlier + [PageEvidence(false, 0, 0, 0)];
      if !r.Page? || r.rows == [] { return None; }
      var ok, after := CheckCursors(r.rows, seen);
      if !ok { return None; }
      DistinctMore(persisted, seen, r.rows, after);
      seen := after;
      lastCursor := Some(r.rows[|r.rows| - 1].id);
      var page := PageEvidence(true, |r.rows|, r.rows[0].id, lastCursor.value);
      pages := earlier + [page];
      CountedMore(earlier, page);
      emitted := emitted + |r.rows|;
      if emitted > target { return None; }
      persisted := persisted + r.rows;
      rows := Some(r.rows);
    }

    /** Hands the recorded rows on; the consumer may fail at any of them. */
    method YieldRows(s: Source, rows: seq<Row>) returns (ok: bool)
      requires Valid() && partial == Some(Datas(yielded)) && yielded + rows == persisted
      modifies this`partial, this`yielded, this`steps
      ensures Valid()
      ensures ok ==> yielded == persisted && partial == Some(Datas(persisted))
      ensures Faultless(s) ==> ok
    {
      ghost var start := yielded;
      for j := 0 to |rows|
        invariant yielded == start + rows[..j] && partial == Some(Datas(yielded)) && Valid()
      {
        var bad := Risk(s);
        if bad { return false; }
        assert rows[..j + 1] == rows[..j] + [rows[j]];
        assert persisted == start + (rows[..j + 1] + rows[j + 1..]);
        yielded := yielded + [rows[j]];
        partial := Some(partial.value + [rows[j].data]);
        assert partial.value == Datas(yielded);
      }
      assert rows[..|rows|] == rows;
      ok := true;
    }

    /** One page: fetched, recorded and handed on. */
    method TakePage(s: Source, limit: nat, target: nat, ghost table: seq<Row>) returns (end: Ending)
      requires Between() && 0 < limit <= target - emitted && Table(table)
      requires Honest(s, table) ==> Prefix(table)
      modifies this`partial, this`pages, this`seen, this`lastCursor, this`emitted, this`steps, this`persisted, this`yielded
      ensures Valid()
      ensures end.Drained? ==> Between() && old(emitted) < emitted <= target
      ensures end.Drained? && Honest(s, table) ==> Prefix(table)
      ensures Honest(s, table) && Faultless(s) && old(emitted) < |table| ==> end.Drained?
    {
      var page := FetchPage(s, limit, table);
      if page == None { return SourceFailed; }
      if Honest(s, table) { HonestPagePasses(table, emitted, limit, page.value, seen); }
      var rows := RecordPage(page.value, target);
      if rows == None { return SourceFailed; }
      var taken := YieldRows(s, rows.value);
      end := if taken then Drained else ConsumerFailed;
    }

    /** The metadata request before or after the pages. */
    method Metadata(s: Source, answer: Option<int>) returns (revision: Option<int>)
      modifies this`steps
      ensures revision.Some? ==> revision == answer
      ensures Faultless(s) ==> revision == answer
    {
      var bad := Risk(s);
      revision := if bad then None else answer;
    }

    /** The generator drained into the partial file; a consumer failure leaves the record as it is. */
    method Capture(s: Source, pageSize: nat, target: nat, ghost table: seq<Row>) returns (end: Ending)
      requires pageSize > 0 && target > 0 && Table(table)
      requires Valid() && history == [Started] && source == None && partial == Some([])
      requires Recorded() && persisted == [] && yielded == []
      modifies this
      ensures Valid() && source == None
      ensures end.Drained? ==> history == [Started, Captured] && Recorded() && emitted == target && matched
      ensures end.Drained? ==> yielded == persisted && partial == Some(Datas(persisted)) && s.before.Some? && s.before == s.after
      ensures !end.Drained? ==> history == [Started]
      ensures end.Drained? && Honest(s, table) ==> Prefix(table)
      ensures Honest(s, table) && Faultless(s) && s.before.Some? && s.before == s.after && target <= |table| ==> end.Drained?
    {
      hide Honest, Table, Lawful, Distinct, IdsAre, Counted, LastId;
      var bad := Risk(s);
      if bad { return SourceFailed; }
      var before := Metadata(s, s.before);
      if before == None { return SourceFailed; }
      assert Datas(persisted) == [];
      while emitted < target
        invariant Between() && emitted <= target
        invariant Honest(s, table) ==> Prefix(table)
        decreases target - emitted
      {
        var limit := if pageSize < target - emitted then pageSize else target - emitted;
        var more := TakePage(s, limit, target, table);
        if !more.Drained? { return more; }
      }
      var after := Metadata(s, s.after);
      if after == None { return SourceFailed; }
      matched := after == before;
      if !matched { return SourceFailed; }
      WriteCapture(Captured);
      end := Drained;
    }

    /** _write_rows over nyc_rows: the partial file is opened before the generator starts. */
    method WriteRows(s: Source, pageSize: int, target: int, ghost table: seq<Row>) returns (ok: bool)
      requires Fresh() && Table(table)
      modifies this
      ensures Valid() && source == None
      ensures ok ==> history == [Started, Captured] && Recorded() && emitted == target && matched
      ensures ok ==> yielded == persisted && partial == Some(Datas(persisted)) && s.before.Some? && s.before == s.after
      ensures ok ==> 0 < pageSize && 0 < target
      ensures !ok ==> history in {[], [Started], [Started, Failed]}
      ensures ok && Honest(s, table) ==> Prefix(table)
      ensures Honest(s, table) && Faultless(s) && 0 < pageSize && 0 < target && s.before.Some? && s.before == s.after && target <= |table| ==> ok
    {
      var bad := Risk(s);
      if bad { return false; }
      partial := Some([]);
      if pageSize <= 0 || target <= 0 { return false; }
      WriteCapture(Started);
      var end := Capture(s, pageSize, target, table);
      if end.SourceFailed? {
        WriteCapture(Failed);
        assert history == [Started, Failed];
      }
      ok := end.Drained?;
    }

    ghost predicate Fresh()
      reads this
    {
      && Valid() && history == [] && source == None && persisted == [] && yielded == []
      && Recorded()
    }

    /**
      materialize_official on the NYC path.  A complete capture holds exactly the rows
      of its recorded pages; every other run leaves no source file, and if its record was
      begun it ends failed once.
    */
    method Materialize(s: Source, pageSize: int, target: int, ghost table: seq<Row>) returns (ok: bool)
      requires Fresh() && Table(table)
      modifies this
      ensures Valid() && partial == None
      ensures ok <==> status == Some(Complete)
      ensures ok ==> history == [Started, Captured, Complete]
      ensures ok ==> source == Some(Datas(persisted)) && yielded == persisted && |persisted| == target == Counted(pages)
      ensures ok ==> Distinct(persisted) && s.before.Some? && s.before == s.after
      ensures !ok ==> source == None && history in {[], [Started, Failed], [Started, Captured, Failed]}
      ensures ok && Honest(s, table) ==> target <= |table| && source == Some(Datas(table[..target]))
      ensures Honest(s, table) && Faultless(s) && s.before.Some? && s.before == s.after ==>
        (ok <==> 0 < pageSize && 0 < target <= |table|)
    {
      ok := WriteRows(s, pageSize, target, table);
      if ok {
        var bad := Risk(s);
        if bad {
          ok := false;
        } else {
          source, partial := partial, None;
          bad := Risk(s);
          ok := !bad;
        }
      }
      ghost var before := history;
      if ok {
        WriteCapture(Complete);
        assert history == [Started, Captured, Complete];
      } else {
        FailActive();
        assert before == [] ==> history == [];
        assert before in {[Started], [Started, Failed]} ==> history == [Started, Failed];
        assert before == [Started, Captured] ==> history == [Started, Captured, Failed];
        partial, source := None, None;
      }
    }
  }

  lemma LawfulStep(history: seq<CaptureState>, i: int)
    requires Lawful(history) && 1 <= i < |history|
    ensures Legal(Some(history[i - 1]), history[i])
  {
  }

  /** The paths of the transition table, one by one. */
  lemma LawfulMeans(history: seq<CaptureState>)
    ensures Lawful(history) <==> history in {[], [Started], [Started, Captured], [Started, Captured, Complete], [Started, Failed], [Started, Captured, Failed]}
  {
    if Lawful(history) {
      hide Lawful;
      var n := |history|;
      if n >= 2 { LawfulStep(history, 1); }
      if n >= 3 { LawfulStep(history, 2); }
      if n >= 4 { LawfulStep(history, 3); }
      if n == 1 { assert history == [history[0]]; }
      if n == 2 { assert history == [history[0], history[1]]; }
      if n == 3 { assert history == [history[0], history[1], history[2]]; }
    }
  }
}
