/**
  The byte-accounting evidence store (src/format_bench/robustness/evidence.py) and the
  case runner that spends from it (src/format_bench/robustness/profile.py).
*/
module EvidenceStore {
  import opened Common
  import opened OutputTails
  import ProcessRunner

  /** A relative path by its components; unsafe ones are refused before anything else. */
  datatype Path = Path(absolute: bool, parts: seq<string>)

  predicate Safe(p: Path) { !p.absolute && p.parts != [] && ".." !in p.parts }

  type Files = map<seq<string>, Text>

  // ---------- Sizes ----------

  ghost function Total(files: Files): nat {
    if files == map[] then 0
    else
      var p :| p in files;
      |files[p]| + Total(files - {p})
  }

  lemma {:induction false} TotalRemove(files: Files, p: seq<string>)
    requires p in files
    ensures Total(files) == |files[p]| + Total(files - {p})
    decreases |files|
  {
    var q :| q in files && Total(files) == |files[q]| + Total(files - {q});
    if q != p {
      TotalRemove(files - {q}, p);
      TotalRemove(files - {p}, q);
      assert files - {q} - {p} == files - {p} - {q};
    }
  }

  lemma TotalAdd(files: Files, p: seq<string>, data: Text)
    requires p !in files
    ensures Total(files[p := data]) == Total(files) + |data|
  {
    TotalRemove(files[p := data], p);
    assert files[p := data] - {p} == files;
  }

  lemma UnionLast(a: Files, b: Files, p: seq<string>)
    requires a.Keys !! b.Keys && p in b
    ensures a + b == (a + (b - {p}))[p := b[p]] && p !in a + (b - {p}) && a.Keys !! (b - {p}).Keys
  {
  }

  lemma {:induction false} TotalUnion(a: Files, b: Files)
    requires a.Keys !! b.Keys
    ensures Total(a + b) == Total(a) + Total(b)
    decreases |b|
  {
    if b == map[] {
      assert a + b == a;
    } else {
      var p :| p in b;
      var rest := b - {p};
      UnionLast(a, b, p);
      TotalUnion(a, rest);
      assert Total(b) == |b[p]| + Total(rest) by { TotalRemove(b, p); }
      assert Total(a + b) == Total(a + rest) + |b[p]| by { TotalAdd(a + rest, p, b[p]); }
    }
  }

  // ---------- The tree of stored files ----------

  predicate ProperPrefix(a: seq<string>, b: seq<string>) { a < b }

  /** The path names a stored file, or a directory that holds one. */
  predicate Exists(files: Files, p: seq<string>) {
    p in files || exists q | q in files :: ProperPrefix(p, q)
  }

  /** A file stands where the path needs a directory. */
  predicate Blocked(files: Files, p: seq<string>) {
    exists q | q in files :: ProperPrefix(q, p)
  }

  /** A safe relative path at, above and below which no file is stored. */
  ghost predicate Free(files: Files, p: Path) {
    && !p.absolute && p.parts != [] && ".." !in p.parts
    && forall q :: q in files ==> !(p.parts <= q) && !(q <= p.parts)
  }

  lemma FreeMeans(files: Files, p: Path)
    ensures Free(files, p) <==> Safe(p) && !Exists(files, p.parts) && !Blocked(files, p.parts)
  {
    if Exists(files, p.parts) && p.parts !in files {
      var q :| q in files && ProperPrefix(p.parts, q);
      assert p.parts <= q;
    }
    if !Exists(files, p.parts) && !Blocked(files, p.parts) {
      forall q | q in files ensures !(p.parts <= q) && !(q <= p.parts) {
        assert p.parts <= q ==> p.parts == q || ProperPrefix(p.parts, q);
        assert q <= p.parts ==> p.parts == q || ProperPrefix(q, p.parts);
      }
    }
  }

  /** The files of a source placed under a destination; a single file has the empty relative path. */
  function Placed(source: Files, at: seq<string>): Files {
    map q | q in PlacedPaths(source, at) :: source[q[|at|..]]
  }

  function PlacedPaths(source: Files, at: seq<string>): (paths: set<seq<string>>)
    ensures forall q :: q in paths ==> at <= q && q[|at|..] in source
  {
    set r | r in source :: at + r
  }

  lemma PlacedTotal(source: Files, at: seq<string>)
    ensures Total(Placed(source, at)) == Total(source)
    decreases |source|
  {
    hide Total;
    if source == map[] {
      assert Placed(source, at) == map[];
    } else {
      var r :| r in source;
      var p := at + r;
      assert p in Placed(source, at) && p[|at|..] == r;
      TotalRemove(source, r);
      TotalRemove(Placed(source, at), p);
      PlacedTotal(source - {r}, at);
      PlacedMinus(source, at, r);
    }
  }

  lemma PlacedMinus(source: Files, at: seq<string>, r: seq<string>)
    ensures Placed(source, at) - {at + r} == Placed(source - {r}, at)
  {
  }

  /** Every file is still there as it was. */
  ghost predicate Keeps(a: Files, b: Files) { forall p :: p in a ==> p in b && b[p] == a[p] }

  lemma KeepsTransitive(a: Files, b: Files, c: Files)
    requires Keeps(a, b) && Keeps(b, c)
    ensures Keeps(a, c)
  {
  }

  datatype Outcome = Stored | Unsafe | AlreadyExists | BudgetExceeded | NotADirectory

  class Store {
    const budget: nat
    var used: nat
    var files: Files

    constructor (budget: nat, existing: Files, size: nat)
      requires size == Total(existing) && size <= budget
      ensures this.budget == budget && files == existing && Valid()
    {
      this.budget, used, files := budget, size, existing;
    }

    /** The count is the size of what is stored, and within the budget. */
    ghost predicate Valid()
      reads this
    {
      used == Total(files) && used <= budget
    }

    /** Stores one new file, or changes nothing. */
    method StoreBytes(p: Path, data: Text) returns (r: Outcome)
      requires Valid()
      modifies this
      ensures Valid()
      ensures r.Stored? ==> p.parts !in old(files) && files == old(files)[p.parts := data] && used == old(used) + |data|
      ensures !r.Stored? ==> files == old(files) && used == old(used)
      ensures Keeps(old(files), files)
      ensures r.BudgetExceeded? <==> Safe(p) && !Exists(old(files), p.parts) && old(used) + |data| > budget
      ensures r.Stored? <==> Free(old(files), p) && old(used) + |data| <= budget
      ensures r.Unsafe? <==> p.absolute || p.parts == [] || ".." in p.parts
    {
      FreeMeans(files, p);
      if !Safe(p) { return Unsafe; }
      if Exists(files, p.parts) { return AlreadyExists; }
      if used + |data| > budget { return BudgetExceeded; }
      if Blocked(files, p.parts) { return NotADirectory; }
      TotalAdd(files, p.parts, data);
      files := files[p.parts := data];
      used := used + |data|;
      return Stored;
    }

    /** Copies a file or a tree, or changes nothing. */
    method ImportPath(source: Files, size: nat, p: Path) returns (r: Outcome)
      requires Valid() && size == Total(source)
      modifies this
      ensures Valid()
      ensures r.Stored? ==> old(files).Keys !! Placed(source, p.parts).Keys
                            && files == old(files) + Placed(source, p.parts) && used == old(used) + size
      ensures !r.Stored? ==> files == old(files) && used == old(used)
      ensures Keeps(old(files), files)
      ensures r.Stored? <==> Free(old(files), p) && old(used) + size <= budget
      ensures r.Unsafe? <==> p.absolute || p.parts == [] || ".." in p.parts
    {
      FreeMeans(files, p);
      if !Safe(p) { return Unsafe; }
      if Exists(files, p.parts) { return AlreadyExists; }
      if used + size > budget { return BudgetExceeded; }
      if Blocked(files, p.parts) { return NotADirectory; }
      var copied := Placed(source, p.parts);
      assert files.Keys !! copied.Keys by {
        forall q | q in copied ensures q !in files {
          assert p.parts <= q;
          if p.parts != q { assert q in files ==> ProperPrefix(p.parts, q); }
        }
      }
      PlacedTotal(source, p.parts);
      TotalUnion(files, copied);
      files := files + copied;
      used := used + size;
      return Stored;
    }
  }

  // ---------- One case ----------

  const PER_CASE_OUTPUT: nat := 1024 * 1024

  /** What one case brings besides the worker's run. */
  datatype Case = Case(prefix: Path, input: Text, manifest: Text, artifact: Files, artifactSize: nat,
                       artifactName: string, request: Text, reserve: nat)

  datatype CaseEnd = BeforeLaunch(why: Outcome) | AfterLaunch(why: Outcome)

  function Under(prefix: Path, name: string): Path { prefix.(parts := prefix.parts + [name]) }

  // ---------- The files of one case ----------

  /** What is stored before the launch. */
  ghost function Inputs(files: Files, c: Case): Files {
    (files[At(c, "input.arrow") := c.input][At(c, "manifest.json") := c.manifest]
      + Placed(c.artifact, At(c, c.artifactName)))[At(c, "request.json") := c.request]
  }

  /** What is stored after it. */
  ghost function Outputs(files: Files, prefix: Path, out: Text, err: Text, result: Text): Files {
    files[prefix.parts + ["stdout.txt"] := out][prefix.parts + ["stderr.txt"] := err][prefix.parts + ["result.json"] := result]
  }

  function At(c: Case, name: string): seq<string> { c.prefix.parts + [name] }

  /** The names a case stores under, beside its artifact's. */
  predicate Reserved(name: string) {
    || name == "input.arrow" || name == "manifest.json" || name == "request.json"
    || name == "stdout.txt" || name == "stderr.txt" || name == "result.json"
  }

  /** Nothing is stored at, above or below the case's directory, and everything it brings fits with its reserve. */
  ghost predicate CaseFits(files: Files, used: nat, budget: nat, c: Case) {
    && !c.prefix.absolute && ".." !in c.prefix.parts && c.artifactName != ".." && !Reserved(c.artifactName)
    && (forall q :: q in files ==> !(c.prefix.parts <= q) && !(q <= c.prefix.parts))
    && used + |c.input| + |c.manifest| + c.artifactSize + |c.request| + c.reserve <= budget
  }

  lemma FreshFree(files: Files, c: Case, name: string)
    requires !c.prefix.absolute && ".." !in c.prefix.parts && name != ".."
    requires forall q :: q in files ==> !(c.prefix.parts <= q) && !(q <= c.prefix.parts)
    ensures Free(files, Under(c.prefix, name))
  {
    var p := At(c, name);
    forall q | q in files ensures !(p <= q) && !(q <= p) {
      LongerPrefix(q, c.prefix.parts, name);
      if q <= p { SmallerPrefix(q, c.prefix.parts, name); }
    }
  }

  lemma LongerPrefix(q: seq<string>, prefix: seq<string>, name: string)
    ensures prefix + [name] <= q ==> prefix <= q
  {
  }

  lemma SmallerPrefix(q: seq<string>, prefix: seq<string>, name: string)
    requires q <= prefix + [name]
    ensures q <= prefix || prefix <= q
  {
    if |q| <= |prefix| { assert q == (prefix + [name])[..|q|] == prefix[..|q|]; }
    else { assert q == prefix + [name]; }
  }

  /** A file stored under one name leaves another name of the case free. */
  lemma FreeKept(files: Files, prefix: Path, stored: string, data: Text, name: string)
    requires Free(files, Under(prefix, name)) && stored != name
    ensures Free(files[prefix.parts + [stored] := data], Under(prefix, name))
  {
    var p, q := prefix.parts + [stored], prefix.parts + [name];
    assert p[|prefix.parts|] != q[|prefix.parts|];
  }

  lemma FreeKeptByTree(files: Files, source: Files, prefix: Path, stored: string, name: string)
    requires Free(files, Under(prefix, name)) && stored != name
    ensures Free(files + Placed(source, prefix.parts + [stored]), Under(prefix, name))
  {
    var at, p := prefix.parts + [stored], prefix.parts + [name];
    forall q | q in files + Placed(source, at) ensures !(p <= q) && !(q <= p) {
      if q in Placed(source, at) {
        assert at <= q;
        assert q[|prefix.parts|] == at[|prefix.parts|] == stored && p[|prefix.parts|] == name;
      }
    }
  }

  lemma InputsLeaveFree(files: Files, c: Case, name: string)
    requires Free(files, Under(c.prefix, name)) && name != c.artifactName
    requires name != "input.arrow" && name != "manifest.json" && name != "request.json"
    ensures Free(Inputs(files, c), Under(c.prefix, name))
  {
    hide Free;
    FreeKept(files, c.prefix, "input.arrow", c.input, name);
    var one := files[At(c, "input.arrow") := c.input];
    FreeKept(one, c.prefix, "manifest.json", c.manifest, name);
    var two := one[At(c, "manifest.json") := c.manifest];
    FreeKeptByTree(two, c.artifact, c.prefix, c.artifactName, name);
    FreeKept(two + Placed(c.artifact, At(c, c.artifactName)), c.prefix, "request.json", c.request, name);
  }

  /** The evidence stored before the worker is launched. */
  method StoreInputs(store: Store, c: Case) returns (r: Outcome)
    requires store.Valid() && c.artifactSize == Total(c.artifact)
    modifies store
    ensures store.Valid()
    ensures Keeps(old(store.files), store.files)
    ensures r.Stored? ==> store.files == Inputs(old(store.files), c)
    ensures r.Stored? ==> store.used == old(store.used) + |c.input| + |c.manifest| + c.artifactSize + |c.request|
    ensures CaseFits(old(store.files), old(store.used), store.budget, c) ==> r.Stored?
  {
    hide Keeps, Exists, Blocked, Placed, Safe, Free;
    ghost var first := store.files;
    ghost var fits := CaseFits(store.files, store.used, store.budget, c);
    if fits { InputsFree(store.files, c); }
    r := store.StoreBytes(Under(c.prefix, "input.arrow"), c.input);
    if !r.Stored? { return; }
    ghost var second := store.files;
    r := store.StoreBytes(Under(c.prefix, "manifest.json"), c.manifest);
    KeepsTransitive(first, second, store.files);
    if !r.Stored? { return; }
    ghost var third := store.files;
    r := store.ImportPath(c.artifact, c.artifactSize, Under(c.prefix, c.artifactName));
    KeepsTransitive(first, third, store.files);
    if !r.Stored? { return; }
    ghost var fourth := store.files;
    r := store.StoreBytes(Under(c.prefix, "request.json"), c.request);
    KeepsTransitive(first, fourth, store.files);
  }

  /** In a fresh directory each input's path is free when its turn comes. */
  lemma InputsFree(files: Files, c: Case)
    requires !c.prefix.absolute && ".." !in c.prefix.parts && c.artifactName != ".." && !Reserved(c.artifactName)
    requires forall q :: q in files ==> !(c.prefix.parts <= q) && !(q <= c.prefix.parts)
    ensures Free(files, Under(c.prefix, "input.arrow"))
    ensures var one := files[At(c, "input.arrow") := c.input];
      && Free(one, Under(c.prefix, "manifest.json"))
      && var two := one[At(c, "manifest.json") := c.manifest];
         Free(two, Under(c.prefix, c.artifactName))
         && Free(two + Placed(c.artifact, At(c, c.artifactName)), Under(c.prefix, "request.json"))
  {
    hide Free;
    var one := files[At(c, "input.arrow") := c.input];
    var two := one[At(c, "manifest.json") := c.manifest];
    FreshFree(files, c, "input.arrow");
    FreshFree(files, c, "manifest.json");
    FreshFree(files, c, c.artifactName);
    FreshFree(files, c, "request.json");
    FreeKept(files, c.prefix, "input.arrow", c.input, "manifest.json");
    FreeKept(files, c.prefix, "input.arrow", c.input, c.artifactName);
    FreeKept(one, c.prefix, "manifest.json", c.manifest, c.artifactName);
    FreeKept(files, c.prefix, "input.arrow", c.input, "request.json");
    FreeKept(one, c.prefix, "manifest.json", c.manifest, "request.json");
    FreeKeptByTree(two, c.artifact, c.prefix, c.artifactName, "request.json");
  }

  /** These are decoded tails of what the first n iterations of a schedule read. */
  ghost predicate Heard(ticks: seq<ProcessRunner.Tick>, n: nat, budget: nat, decode: Text -> Text, out: Text, err: Text) {
    && n <= |ticks|
    && exists x, y :: out == decode(x) && err == decode(y) && TailsOf(x, y, ProcessRunner.ReadBy(ticks[..n]).0, budget)
  }

  /** Suffixes of what the two streams said, of the lengths the budget allows. */
  ghost predicate TailsOf(x: Text, y: Text, chunks: seq<Chunk>, budget: nat) {
    var a, b := Said(chunks, Stdout), Said(chunks, Stderr);
    && |x| <= |a| && x == a[|a| - |x|..] && |y| <= |b| && y == b[|b| - |y|..]
    && Lengths(|a|, |b|, budget, |x|, |y|)
  }

  /** Runs the worker under its output budget; decode drops what is not valid text. */
  method RunWorker(budget: nat, ticks: seq<ProcessRunner.Tick>, deadline: int, exited: bool, code: int, decode: Text -> Text)
    returns (evidence: ProcessRunner.Evidence, out: Text, err: Text)
    requires forall t :: |decode(t)| <= |t|
    ensures |out| + |err| <= budget
    ensures exists n :: Heard(ticks, n, budget, decode, out, err)
  {
    hide Heard, Retained, Said, Shared, Lengths;
    var runner := new ProcessRunner.Runner(budget, deadline);
    var steps, left := runner.Loop(ticks);
    ghost var n := if runner.cleanupIncomplete then steps - 1 else steps;
    TailsHeard(ticks, n, budget, decode, runner.tails.stdout, runner.tails.stderr);
    SharedTotal(budget);
    evidence := runner.Finish(exited, code);
    out, err := decode(runner.tails.stdout), decode(runner.tails.stderr);
  }

  lemma SharedTotal(total: nat)
    ensures Shared(total).total == total
  {
  }

  lemma TailsHeard(ticks: seq<ProcessRunner.Tick>, n: nat, budget: nat, decode: Text -> Text, x: Text, y: Text)
    requires n <= |ticks|
    requires var chunks := ProcessRunner.ReadBy(ticks[..n]).0; Retained(x, y, Said(chunks, Stdout), Said(chunks, Stderr), Shared(budget))
    ensures Heard(ticks, n, budget, decode, decode(x), decode(y))
  {
    hide Retained, Lengths, Shared, Said;
    var chunks := ProcessRunner.ReadBy(ticks[..n]).0;
    RetainedMeans(x, y, Said(chunks, Stdout), Said(chunks, Stderr), budget);
    assert TailsOf(x, y, chunks, budget);
  }

  /** The three paths of the outputs are free. */
  ghost predicate OutputsHaveRoom(files: Files, prefix: Path) {
    && Free(files, Under(prefix, "stdout.txt")) && Free(files, Under(prefix, "stderr.txt"))
    && Free(files, Under(prefix, "result.json"))
  }

  /** The evidence stored after the worker has run; it fits, so only the paths can be refused. */
  method StoreOutputs(store: Store, prefix: Path, out: Text, err: Text, result: Text) returns (r: Outcome)
    requires store.Valid() && store.used + |out| + |err| + |result| <= store.budget
    modifies store
    ensures store.Valid() && !r.BudgetExceeded?
    ensures Keeps(old(store.files), store.files)
    ensures r.Stored? ==> store.files == Outputs(old(store.files), prefix, out, err, result)
    ensures OutputsHaveRoom(old(store.files), prefix) ==> r.Stored?
  {
    hide Keeps, Exists, Blocked, Safe, Free;
    ghost var first := store.files;
    if Free(first, Under(prefix, "stderr.txt")) { FreeKept(first, prefix, "stdout.txt", out, "stderr.txt"); }
    if Free(first, Under(prefix, "result.json")) {
      FreeKept(first, prefix, "stdout.txt", out, "result.json");
      FreeKept(first[prefix.parts + ["stdout.txt"] := out], prefix, "stderr.txt", err, "result.json");
    }
    r := store.StoreBytes(Under(prefix, "stdout.txt"), out);
    if !r.Stored? { return; }
    ghost var second := store.files;
    r := store.StoreBytes(Under(prefix, "stderr.txt"), err);
    KeepsTransitive(first, second, store.files);
    if !r.Stored? { return; }
    ghost var third := store.files;
    r := store.StoreBytes(Under(prefix, "result.json"), result);
    KeepsTransitive(first, third, store.files);
  }

  /** What is left for the worker's output beside the inputs and the result's reserve. */
  function Room(used: nat, budget: nat, c: Case): int {
    budget - used - |c.input| - |c.manifest| - c.artifactSize - |c.request| - c.reserve
  }

  /**
    Runs one case.  The reserve for its result is checked before the worker is launched,
    and the worker's output is bounded by what is left; so once it is launched, whatever
    its schedule of output and exits, storing its tails and a result that fits the
    reserve cannot run over the budget.  A case in a fresh directory that fits is always
    stored, and then its files are its inputs, its decoded tails and its result.
  */
  method Execute(store: Store, c: Case, ticks: seq<ProcessRunner.Tick>, deadline: int, exited: bool, code: int,
                 decode: Text -> Text, result: (ProcessRunner.Evidence, Text) -> Text)
    returns (end: CaseEnd, evidence: Option<ProcessRunner.Evidence>, out: Text, err: Text)
    requires store.Valid() && c.artifactSize == Total(c.artifact)
    requires forall t :: |decode(t)| <= |t|
    requires forall e, t :: |result(e, t)| <= c.reserve
    modifies store
    ensures store.Valid()
    ensures end.AfterLaunch? ==> !end.why.BudgetExceeded?
    ensures Keeps(old(store.files), store.files)
    ensures end.AfterLaunch? <==> evidence.Some?
    ensures end == AfterLaunch(Stored) ==>
      store.files == Outputs(Inputs(old(store.files), c), c.prefix, out, err, result(evidence.value, out))
    ensures end.AfterLaunch? ==> Room(old(store.used), store.budget, c) >= 0
    ensures end.AfterLaunch? ==>
      exists n :: Heard(ticks, n, Min(1048576, Room(old(store.used), store.budget, c)), decode, out, err)
    ensures CaseFits(old(store.files), old(store.used), store.budget, c) ==> end == AfterLaunch(Stored)
  {
    hide Keeps, Inputs, Outputs, Free, Heard;
    ghost var first := store.files;
    evidence, out, err := None, [], [];
    var stored := StoreInputs(store, c);
    if !stored.Stored? { return BeforeLaunch(stored), None, [], []; }
    var remaining := store.budget - store.used;
    if remaining < c.reserve { return BeforeLaunch(BudgetExceeded), None, [], []; }
    var e, x, y := RunWorker(Min(PER_CASE_OUTPUT, remaining - c.reserve), ticks, deadline, exited, code, decode);
    evidence, out, err := Some(e), x, y;
    ghost var second := store.files;
    if CaseFits(first, old(store.used), store.budget, c) { OutputsFree(first, c); }
    stored := StoreOutputs(store, c.prefix, out, err, result(e, out));
    KeepsTransitive(first, second, store.files);
    end := AfterLaunch(stored);
  }

  lemma OutputsFree(files: Files, c: Case)
    requires !c.prefix.absolute && ".." !in c.prefix.parts && c.artifactName != ".." && !Reserved(c.artifactName)
    requires forall q :: q in files ==> !(c.prefix.parts <= q) && !(q <= c.prefix.parts)
    ensures OutputsHaveRoom(Inputs(files, c), c.prefix)
  {
    hide Free, Inputs;
    FreshFree(files, c, "stdout.txt");
    FreshFree(files, c, "stderr.txt");
    FreshFree(files, c, "result.json");
    InputsLeaveFree(files, c, "stdout.txt");
    InputsLeaveFree(files, c, "stderr.txt");
    InputsLeaveFree(files, c, "result.json");
  }
}
