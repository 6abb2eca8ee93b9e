/**
  The two output tails of a worker (src/format_bench/robustness/runner.py): stdout and
  stderr share one retention budget under any interleaving of their chunks.
*/
module OutputTails {
  import opened Common

  type Text = seq<int>

  datatype Stream = Stdout | Stderr

  datatype Chunk = Chunk(stream: Stream, data: Text)

  function Min(a: int, b: int): int { if a < b then a else b }
  function Max(a: int, b: int): int { if a < b then b else a }

  /** A retention budget and stdout's share of it. */
  datatype Budget = Budget(total: nat, half: nat)

  /** The shares the program uses: half, rounded down, for stdout. */
  function Shared(total: nat): Budget { Budget(total, total / 2) }

  predicate Splits(b: Budget) { b.half <= b.total }

  /** How much of each stream is kept, from the totals alone. */
  function Kept(a: nat, b: nat, limit: Budget): (nat, nat)
    requires Splits(limit)
  {
    var budget, half := limit.total, limit.half;
    if a + b <= budget then (a, b)
    else if a <= half then (a, budget - a)
    else if b <= budget - half then (budget - b, b)
    else (half, budget - half)
  }

  /** t is exactly the last |t| bytes of s. */
  predicate Suffix(t: Text, s: Text) { |t| <= |s| && t == s[|s| - |t|..] }

  // ---------- One append ----------

  /** Removes an excess from the stream that grew, down to its floor, and then from the other. */
  function Cut(x: nat, y: nat, grew: Stream, excess: nat, outFloor: nat, errFloor: nat): (nat, nat) {
    if grew.Stdout? then
      var first := Min(excess, Max(0, x - outFloor));
      (x - first, y - Min(excess - first, Max(0, y - errFloor)))
    else
      var first := Min(excess, Max(0, y - errFloor));
      (x - Min(excess - first, Max(0, x - outFloor)), y - first)
  }

  /** The two tails' lengths after trimming; x and y are their lengths once the chunk is in. */
  function Trimmed(x: nat, y: nat, grew: Stream, limit: Budget): (nat, nat)
    requires Splits(limit)
  {
    var budget, half := limit.total, limit.half;
    if x + y <= budget then (x, y)
    else
      Cut(x, y, grew, x + y - budget, if y != 0 then Min(x, half) else 0,
          if x != 0 then Min(y, budget - half) else 0)
  }

  /** A stream's bytes after a chunk. */
  function Grow(t: Text, chunk: Chunk, stream: Stream): Text {
    if chunk.stream == stream then t + chunk.data else t
  }

  /** The tails are suffixes of these bytes, of these lengths. */
  predicate Exact(stdout: Text, stderr: Text, out: Text, err: Text, n: (nat, nat)) {
    Suffix(stdout, out) && Suffix(stderr, err) && |stdout| == n.0 && |stderr| == n.1
  }

  class Tails {
    var stdout: Text
    var stderr: Text

    constructor ()
      ensures stdout == [] && stderr == []
    {
      stdout, stderr := [], [];
    }

    method Trim(stream: Stream, removed: nat)
      requires removed <= if stream.Stdout? then |stdout| else |stderr|
      modifies this
      ensures Suffix(stdout, old(stdout)) && Suffix(stderr, old(stderr))
      ensures |stdout| == if stream.Stdout? then |old(stdout)| - removed else |old(stdout)|
      ensures |stderr| == if stream.Stderr? then |old(stderr)| - removed else |old(stderr)|
    {
      if stream.Stdout? { stdout := stdout[removed..]; } else { stderr := stderr[removed..]; }
    }

    /**
      Appends a chunk and trims the fronts back to the budget: first the stream that
      grew, down to its floor, then the other.
    */
    method Append(chunk: Chunk, limit: Option<Budget>)
      requires limit.Some? ==> Splits(limit.value)
      modifies this
      ensures limit.None? ==> stdout == Grow(old(stdout), chunk, Stdout) && stderr == Grow(old(stderr), chunk, Stderr)
      ensures limit.Some? ==>
        var x, y := Grow(old(stdout), chunk, Stdout), Grow(old(stderr), chunk, Stderr);
        Exact(stdout, stderr, x, y, Trimmed(|x|, |y|, chunk.stream, limit.value))
    {
      if chunk.stream.Stdout? { stdout := stdout + chunk.data; } else { stderr := stderr + chunk.data; }
      if limit.Some? { Rebalance(chunk.stream, limit.value); }
    }

    method Rebalance(grew: Stream, budget: Budget)
      requires Splits(budget)
      modifies this
      ensures Exact(stdout, stderr, old(stdout), old(stderr), Trimmed(|old(stdout)|, |old(stderr)|, grew, budget))
    {
      if |stdout| + |stderr| <= budget.total { return; }
      var outFloor := if stderr != [] then Min(|stdout|, budget.half) else 0;
      var errFloor := if stdout != [] then Min(|stderr|, budget.total - budget.half) else 0;
      TrimTo(grew, |stdout| + |stderr| - budget.total, outFloor, errFloor);
    }

    method TrimTo(grew: Stream, excess: nat, outFloor: nat, errFloor: nat)
      modifies this
      ensures Exact(stdout, stderr, old(stdout), old(stderr), Cut(|old(stdout)|, |old(stderr)|, grew, excess, outFloor, errFloor))
    {
      var first := if grew.Stdout? then Min(excess, Max(0, |stdout| - outFloor))
                   else Min(excess, Max(0, |stderr| - errFloor));
      Trim(grew, first);
      if excess - first == 0 { return; }
      if grew.Stdout? {
        Trim(Stderr, Min(excess - first, Max(0, |stderr| - errFloor)));
      } else {
        Trim(Stdout, Min(excess - first, Max(0, |stdout| - outFloor)));
      }
    }
  }

  /** The lengths after one more chunk are those that the totals alone decide. */
  lemma OutIsKept(a: nat, b: nat, n: nat, budget: Budget)
    requires Splits(budget)
    ensures var k := Kept(a, b, budget); Trimmed(k.0 + n, k.1, Stdout, budget) == Kept(a + n, b, budget)
  {
    if a + b <= budget.total {
    } else if a <= budget.half {
    } else if b <= budget.total - budget.half {
    } else {
    }
  }

  lemma ErrIsKept(a: nat, b: nat, n: nat, budget: Budget)
    requires Splits(budget)
    ensures var k := Kept(a, b, budget); Trimmed(k.0, k.1 + n, Stderr, budget) == Kept(a, b + n, budget)
  {
    if a + b <= budget.total {
    } else if a <= budget.half {
    } else if b <= budget.total - budget.half {
    } else {
    }
  }

  // ---------- Any interleaving ----------

  /** Everything a stream has said, in order. */
  function Said(chunks: seq<Chunk>, stream: Stream): Text {
    if chunks == [] then []
    else Grow(Said(chunks[..|chunks| - 1], stream), chunks[|chunks| - 1], stream)
  }

  lemma SuffixGrows(t: Text, s: Text, data: Text)
    requires Suffix(t, s)
    ensures Suffix(t + data, s + data)
  {
  }

  lemma SuffixTransitive(t: Text, s: Text, r: Text)
    requires Suffix(t, s) && Suffix(s, r)
    ensures Suffix(t, r)
  {
  }

  /** Trimming a grown suffix leaves a suffix of the grown whole. */
  lemma AppendKeeps(out: Text, err: Text, c: Chunk, k: (nat, nat), n: (nat, nat), x: Text, y: Text, x': Text, y': Text)
    requires Exact(x, y, out, err, k) && Exact(x', y', Grow(x, c, Stdout), Grow(y, c, Stderr), n)
    ensures Exact(x', y', Grow(out, c, Stdout), Grow(err, c, Stderr), n)
  {
    if c.stream.Stdout? {
      SuffixGrows(x, out, c.data);
    } else {
      SuffixGrows(y, err, c.data);
    }
    SuffixTransitive(x', Grow(x, c, Stdout), Grow(out, c, Stdout));
    SuffixTransitive(y', Grow(y, c, Stderr), Grow(err, c, Stderr));
  }

  lemma AppendLengths(x: Text, y: Text, out: Text, err: Text, c: Chunk, budget: Budget)
    requires Splits(budget)
    requires |x| == Kept(|out|, |err|, budget).0 && |y| == Kept(|out|, |err|, budget).1
    ensures Trimmed(|Grow(x, c, Stdout)|, |Grow(y, c, Stderr)|, c.stream, budget)
         == Kept(|Grow(out, c, Stdout)|, |Grow(err, c, Stderr)|, budget)
  {
    if c.stream.Stdout? {
      OutIsKept(|out|, |err|, |c.data|, budget);
    } else {
      ErrIsKept(|out|, |err|, |c.data|, budget);
    }
  }

  /** The exact tails of what was said, cut to the lengths the totals decide. */
  predicate Retained(x: Text, y: Text, out: Text, err: Text, budget: Budget) {
    Splits(budget) && Exact(x, y, out, err, Kept(|out|, |err|, budget))
  }

  lemma AppendRetains(out: Text, err: Text, c: Chunk, budget: Budget, x: Text, y: Text, x': Text, y': Text)
    requires Retained(x, y, out, err, budget)
    requires Exact(x', y', Grow(x, c, Stdout), Grow(y, c, Stderr),
                   Trimmed(|Grow(x, c, Stdout)|, |Grow(y, c, Stderr)|, c.stream, budget))
    ensures Retained(x', y', Grow(out, c, Stdout), Grow(err, c, Stderr), budget)
  {
    var n := Kept(|Grow(out, c, Stdout)|, |Grow(err, c, Stderr)|, budget);
    AppendLengths(x, y, out, err, c, budget);
    AppendKeeps(out, err, c, Kept(|out|, |err|, budget), n, x, y, x', y');
  }

  lemma NothingRetained(total: nat)
    ensures Splits(Shared(total)) && Retained([], [], [], [], Shared(total))
  {
  }

  /** The two lengths kept of a and b bytes under a budget: all, or all of one and the rest, or half each. */
  ghost predicate Lengths(a: nat, b: nat, total: nat, out: nat, err: nat) {
    && (a + b <= total ==> out == a && err == b)
    && (a + b > total && a <= total / 2 ==> out == a && err == total - a)
    && (a + b > total && a > total / 2 && b <= total - total / 2 ==> out == total - b && err == b)
    && (a > total / 2 && b > total - total / 2 ==> out == total / 2 && err == total - total / 2)
  }

  lemma RetainedMeans(x: Text, y: Text, out: Text, err: Text, total: nat)
    requires Retained(x, y, out, err, Shared(total))
    ensures |x| <= |out| && x == out[|out| - |x|..] && |y| <= |err| && y == err[|err| - |y|..]
    ensures Lengths(|out|, |err|, total, |x|, |y|)
  {
  }

  /** Everything the chunks of one stream hold, in order. */
  lemma SaidMeans(chunks: seq<Chunk>, c: Chunk, stream: Stream)
    ensures Said([], stream) == []
    ensures Said(chunks + [c], stream) == Said(chunks, stream) + if c.stream == stream then c.data else []
  {
    assert (chunks + [c])[..|chunks|] == chunks;
  }

  /** For every interleaving of chunks, the tails are exact suffixes whose lengths the totals decide. */
  method RetainAll(chunks: seq<Chunk>, total: nat) returns (tails: Tails)
    ensures Retained(tails.stdout, tails.stderr, Said(chunks, Stdout), Said(chunks, Stderr), Shared(total))
    ensures Lengths(|Said(chunks, Stdout)|, |Said(chunks, Stderr)|, total, |tails.stdout|, |tails.stderr|)
  {
    hide Shared, Retained, Exact, Trimmed, Grow, Lengths;
    var budget := Shared(total);
    NothingRetained(total);
    tails := new Tails();
    ghost var out, err := [], [];
    for i := 0 to |chunks|
      invariant out == Said(chunks[..i], Stdout) && err == Said(chunks[..i], Stderr)
      invariant Retained(tails.stdout, tails.stderr, out, err, budget)
    {
      ghost var x, y := tails.stdout, tails.stderr;
      tails.Append(chunks[i], Some(budget));
      AppendRetains(out, err, chunks[i], budget, x, y, tails.stdout, tails.stderr);
      assert chunks[..i + 1][..i] == chunks[..i];
      out, err := Grow(out, chunks[i], Stdout), Grow(err, chunks[i], Stderr);
    }
    assert chunks[..|chunks|] == chunks;
    RetainedMeans(tails.stdout, tails.stderr, out, err, total);
  }

  /** Output is exhausted exactly when one of the streams is marked truncated; the tails fit the budget. */
  lemma ExhaustedIsTruncated(stdout: Text, stderr: Text, out: Text, err: Text, budget: Budget)
    requires Retained(stdout, stderr, out, err, budget)
    ensures |out| + |err| > budget.total <==> |stdout| < |out| || |stderr| < |err|
    ensures |stdout| + |stderr| == Min(|out| + |err|, budget.total)
  {
  }
}
