/**
  The event loop around one worker (src/format_bench/robustness/runner.py): two output
  pipes, an overall deadline, a drain deadline, and one kill of the process group.  A
  schedule lists what each iteration would observe; the loop may still be running when
  it ends.
*/
module ProcessRunner {
  import opened Common
  import opened OutputTails

  const GRACE: nat := 250

  datatype Event = Data(chunk: Chunk) | Eof(stream: Stream) | Blocked

  /**
    One iteration: whether the leader had exited at the loop head and at the first
    check, the clock at the deadline check, when a drain deadline is set and at the
    drain check, and what select reported.
  */
  datatype Tick = Tick(headExited: bool, exited: bool, atDeadline: int, atSet: int, atDrain: int, events: seq<Event>)

  // ---------- What a schedule says ----------

  predicate Triggers(t: Tick, deadline: int) { t.exited || t.atDeadline >= deadline }

  /** The drain deadline after these iterations: set at the first exit or overall timeout. */
  function DrainAfter(ticks: seq<Tick>, deadline: int): Option<int> {
    if ticks == [] then None
    else
      var before := DrainAfter(ticks[..|ticks| - 1], deadline);
      if before.Some? then before
      else if Triggers(ticks[|ticks| - 1], deadline) then Some(ticks[|ticks| - 1].atSet + GRACE) else None
  }

  /** The bytes read by the iterations that reached select; a closed pipe is read no more. */
  function Taken(events: seq<Event>, open: set<Stream>): (seq<Chunk>, set<Stream>) {
    if events == [] then ([], open)
    else
      var before := Taken(events[..|events| - 1], open);
      match events[|events| - 1]
      case Data(c) => if c.stream in before.1 then (before.0 + [c], before.1) else before
      case Eof(s) => (before.0, before.1 - {s})
      case Blocked => before
  }

  /** What has been read, and which pipes are open, after these iterations ran to their end. */
  function ReadBy(ticks: seq<Tick>): (seq<Chunk>, set<Stream>) {
    if ticks == [] then ([], {Stdout, Stderr})
    else
      var before := ReadBy(ticks[..|ticks| - 1]);
      if before.1 == {} then before
      else
        var more := Taken(ticks[|ticks| - 1].events, before.1);
        (before.0 + more.0, more.1)
  }

  predicate PastDrain(ticks: seq<Tick>, deadline: int, j: nat)
    requires j < |ticks|
  {
    var d := DrainAfter(ticks[..j + 1], deadline);
    d.Some? && ticks[j].atDrain >= d.value
  }

  /** The loop went on past each of these drain checks. */
  predicate NonePastDrain(ticks: seq<Tick>, deadline: int, n: nat)
    requires n <= |ticks|
  {
    forall j: nat | j < n :: !PastDrain(ticks, deadline, j)
  }

  predicate SomeOverran(ticks: seq<Tick>, deadline: int, n: nat)
    requires n <= |ticks|
  {
    exists j: nat | j < n :: Overran(ticks[j], deadline)
  }

  predicate Overran(t: Tick, deadline: int) { !t.exited && t.atDeadline >= deadline }

  datatype Evidence = Evidence(exitCode: Option<int>, signal: Option<int>, timedOut: bool,
                               stdoutBytes: nat, stderrBytes: nat,
                               stdoutTruncated: bool, stderrTruncated: bool,
                               outputExhausted: bool, cleanupIncomplete: bool)

  class Runner {
    const budget: Budget
    const deadline: int
    const tails: Tails
    var open: set<Stream>
    var stdoutBytes: nat
    var stderrBytes: nat
    var timedOut: bool
    var cleanupSent: bool
    var cleanupIncomplete: bool
    var drain: Option<int>
    ghost var kills: nat
    ghost var drainSets: nat
    ghost var received: seq<Chunk>
    ghost var out: Text
    ghost var err: Text

    constructor (total: nat, deadline: int)
      ensures TailsValid() && FlagsValid() && fresh(this) && fresh(tails)
      ensures this.budget == Shared(total) && this.deadline == deadline
      ensures open == {Stdout, Stderr} && drain == None && kills == 0 && drainSets == 0
      ensures !timedOut && !cleanupIncomplete && received == [] && SaidValid()
    {
      this.budget, this.deadline := Shared(total), deadline;
      tails := new Tails();
      open := {Stdout, Stderr};
      stdoutBytes, stderrBytes := 0, 0;
      timedOut, cleanupSent, cleanupIncomplete := false, false, false;
      drain := None;
      kills, drainSets, received, out, err := 0, 0, [], [], [];
    }

    /** out and err are what the received chunks said. */
    ghost predicate SaidValid()
      reads this
    {
      out == Said(received, Stdout) && err == Said(received, Stderr)
    }

    /** The tails and totals are exact. */
    ghost predicate TailsValid()
      reads this, tails
    {
      && stdoutBytes == |out| && stderrBytes == |err|
      && Retained(tails.stdout, tails.stderr, out, err, budget)
    }

    /** The kill and the drain deadline happen together and once. */
    ghost predicate FlagsValid()
      reads this
    {
      && kills == (if cleanupSent then 1 else 0)
      && drainSets == (if drain.Some? then 1 else 0)
      && (drain.Some? ==> cleanupSent)
      && (cleanupIncomplete ==> timedOut && drain.Some?)
    }

    method CleanupGroup()
      requires FlagsValid()
      modifies this`cleanupSent, this`kills
      ensures FlagsValid() && cleanupSent && kills == 1
    {
      if cleanupSent { return; }
      cleanupSent := true;
      kills := kills + 1;
    }

    /** The first two checks of an iteration: the leader's exit, or the overall deadline. */
    method CheckDeadlines(t: Tick)
      requires FlagsValid()
      modifies this`cleanupSent, this`kills, this`timedOut, this`drain, this`drainSets
      ensures FlagsValid()
      ensures drain == if old(drain).Some? then old(drain) else if Triggers(t, deadline) then Some(t.atSet + GRACE) else None
      ensures timedOut == (old(timedOut) || (!t.exited && t.atDeadline >= deadline))
      ensures old(cleanupSent) ==> cleanupSent
      ensures Triggers(t, deadline) ==> cleanupSent
    {
      if t.exited {
        CleanupGroup();
        if drain.None? { drain, drainSets := Some(t.atSet + GRACE), drainSets + 1; }
      } else if t.atDeadline >= deadline {
        timedOut := true;
        CleanupGroup();
        if drain.None? { drain, drainSets := Some(t.atSet + GRACE), drainSets + 1; }
      }
    }

    method Receive(c: Chunk)
      requires TailsValid() && SaidValid()
      modifies this`stdoutBytes, this`stderrBytes, this`received, this`out, this`err, tails
      ensures TailsValid() && SaidValid() && received == old(received) + [c]
    {
      Count(c);
      assert (received + [c])[..|received|] == received;
      received := received + [c];
    }

    method Count(c: Chunk)
      requires TailsValid()
      modifies this`stdoutBytes, this`stderrBytes, this`out, this`err, tails
      ensures TailsValid() && out == Grow(old(out), c, Stdout) && err == Grow(old(err), c, Stderr)
    {
      ghost var x, y := tails.stdout, tails.stderr;
      if c.stream.Stdout? { stdoutBytes := stdoutBytes + |c.data|; } else { stderrBytes := stderrBytes + |c.data|; }
      tails.Append(c, Some(budget));
      AppendRetains(out, err, c, budget, x, y, tails.stdout, tails.stderr);
      out, err := Grow(out, c, Stdout), Grow(err, c, Stderr);
    }

    /** Reads what select reported; an empty read closes its pipe. */
    method ReadEvents(events: seq<Event>)
      requires TailsValid() && SaidValid()
      modifies this`stdoutBytes, this`stderrBytes, this`received, this`out, this`err, this`open, tails
      ensures TailsValid() && SaidValid()
      ensures received == old(received) + Taken(events, old(open)).0 && open == Taken(events, old(open)).1
    {
      for i := 0 to |events|
        invariant TailsValid() && SaidValid()
        invariant received == old(received) + Taken(events[..i], old(open)).0 && open == Taken(events[..i], old(open)).1
      {
        assert events[..i + 1][..i] == events[..i];
        match events[i] {
          case Data(c) => if c.stream in open { Receive(c); }
          case Eof(s) => open := open - {s};
          case Blocked =>
        }
      }
      assert events[..|events|] == events;
    }

    /** One iteration: the deadlines, then the drain check, then the reads. */
    method Iterate(t: Tick) returns (left: bool)
      requires TailsValid() && SaidValid() && FlagsValid() && !cleanupIncomplete
      modifies this, tails
      ensures TailsValid() && SaidValid() && FlagsValid() && cleanupIncomplete == left
      ensures drain == if old(drain).Some? then old(drain) else if Triggers(t, deadline) then Some(t.atSet + GRACE) else None
      ensures left <==> drain.Some? && t.atDrain >= drain.value
      ensures timedOut <==> left || old(timedOut) || Overran(t, deadline)
      ensures left || old(open) == {} ==> received == old(received) && open == {}
      ensures !left && old(open) != {} ==>
        received == old(received) + Taken(t.events, old(open)).0 && open == Taken(t.events, old(open)).1
    {
      CheckDeadlines(t);
      if drain.Some? && t.atDrain >= drain.value {
        timedOut, cleanupIncomplete := true, true;
        open := {};
        return true;
      }
      if open != {} { ReadEvents(t.events); }
      return false;
    }

    /** The state after n iterations that all went on. */
    ghost predicate Progress(ticks: seq<Tick>, n: nat)
      requires n <= |ticks|
      reads this
    {
      && !cleanupIncomplete && NonePastDrain(ticks, deadline, n)
      && drain == DrainAfter(ticks[..n], deadline)
      && (timedOut <==> SomeOverran(ticks, deadline, n))
      && (received, open) == ReadBy(ticks[..n])
    }

    /** The state after n iterations the last of which found the drain deadline passed. */
    ghost predicate GaveUp(ticks: seq<Tick>, n: nat)
      requires n <= |ticks|
      reads this
    {
      && n > 0 && timedOut && cleanupIncomplete
      && NonePastDrain(ticks, deadline, n - 1) && PastDrain(ticks, deadline, n - 1)
      && drain == DrainAfter(ticks[..n], deadline)
      && received == ReadBy(ticks[..n - 1]).0
    }

    method Advance(ticks: seq<Tick>, n: nat) returns (left: bool)
      requires n < |ticks| && TailsValid() && SaidValid() && FlagsValid() && Progress(ticks, n)
      modifies this, tails
      ensures TailsValid() && SaidValid() && FlagsValid()
      ensures if left then GaveUp(ticks, n + 1) else Progress(ticks, n + 1)
    {
      OneMore(ticks, deadline, n);
      left := Iterate(ticks[n]);
    }

    /**
      The loop, for every schedule.  It runs `steps` iterations; only the last may have
      found the drain deadline passed, and then the loop was left there.  Otherwise it
      ends with the pipes closed and the leader gone, or the schedule ends first.
    */
    method Loop(ticks: seq<Tick>) returns (steps: nat, left: bool)
      requires TailsValid() && SaidValid() && FlagsValid() && Progress(ticks, 0)
      modifies this, tails
      ensures TailsValid() && SaidValid() && FlagsValid() && steps <= |ticks|
      ensures if cleanupIncomplete then left && GaveUp(ticks, steps) else Progress(ticks, steps)
      ensures !left ==> steps == |ticks|
      ensures left && !cleanupIncomplete ==> steps < |ticks| && open == {} && ticks[steps].headExited
    {
      steps := 0;
      while steps < |ticks| && (open != {} || !ticks[steps].headExited)
        invariant TailsValid() && SaidValid() && FlagsValid() && steps <= |ticks| && Progress(ticks, steps)
        decreases |ticks| - steps
      {
        left := Advance(ticks, steps);
        steps := steps + 1;
        if left { return steps, true; }
      }
      left := steps < |ticks|;
    }

    /** Which streams lost bytes, and whether the output ran over the budget. */
    method Losses() returns (lostOut: bool, lostErr: bool, exhausted: bool)
      requires TailsValid()
      ensures lostOut <==> |tails.stdout| < |out|
      ensures lostErr <==> |tails.stderr| < |err|
      ensures exhausted <==> lostOut || lostErr
      ensures |tails.stdout| + |tails.stderr| <= budget.total
    {
      ExhaustedIsTruncated(tails.stdout, tails.stderr, out, err, budget);
      return |tails.stdout| < stdoutBytes, |tails.stderr| < stderrBytes, stdoutBytes + stderrBytes > budget.total;
    }

    /** The final cleanup and the evidence; code is the leader's return code. */
    method Finish(exited: bool, code: int) returns (e: Evidence)
      requires TailsValid() && FlagsValid()
      modifies this`cleanupSent, this`kills
      ensures FlagsValid() && (!exited ==> kills == 1)
      ensures e.timedOut == timedOut && e.cleanupIncomplete == cleanupIncomplete
      ensures OneEnding(e, code)
      ensures e.stdoutBytes == stdoutBytes && e.stderrBytes == stderrBytes
      ensures e.outputExhausted <==> e.stdoutTruncated || e.stderrTruncated
      ensures e.stdoutTruncated <==> |tails.stdout| < |out|
      ensures e.stderrTruncated <==> |tails.stderr| < |err|
      ensures |tails.stdout| + |tails.stderr| <= budget.total
    {
      if !exited { CleanupGroup(); }
      var lostOut, lostErr, exhausted := Losses();
      e := Evidence(if !timedOut && code >= 0 then Some(code) else None,
                    if !timedOut && code < 0 then Some(-code) else None,
                    timedOut, stdoutBytes, stderrBytes, lostOut, lostErr, exhausted, cleanupIncomplete);
    }
  }

  /** Exactly one of timed out, exit code and signal; an incomplete cleanup is a timeout. */
  predicate OneEnding(e: Evidence, code: int) {
    if e.timedOut then e.exitCode == None && e.signal == None
    else !e.cleanupIncomplete
         && if code >= 0 then e.exitCode == Some(code) && e.signal == None
            else e.exitCode == None && e.signal == Some(-code)
  }

  lemma OneMore(ticks: seq<Tick>, deadline: int, n: nat)
    requires n < |ticks|
    ensures var t := ticks[n];
            && DrainAfter(ticks[..n + 1], deadline) ==
                 (if DrainAfter(ticks[..n], deadline).Some? then DrainAfter(ticks[..n], deadline)
                  else if Triggers(t, deadline) then Some(t.atSet + GRACE) else None)
            && ReadBy(ticks[..n + 1]) ==
                 (if ReadBy(ticks[..n]).1 == {} then ReadBy(ticks[..n])
                  else (ReadBy(ticks[..n]).0 + Taken(t.events, ReadBy(ticks[..n]).1).0, Taken(t.events, ReadBy(ticks[..n]).1).1))
  {
    assert ticks[..n + 1][..n] == ticks[..n];
  }

  /** Once set, the drain deadline never moves. */
  lemma {:induction false} DrainSetOnce(ticks: seq<Tick>, deadline: int, i: nat, j: nat)
    requires i <= j <= |ticks| && DrainAfter(ticks[..i], deadline).Some?
    ensures DrainAfter(ticks[..j], deadline) == DrainAfter(ticks[..i], deadline)
    decreases j
  {
    if i < j {
      assert ticks[..j][..j - 1] == ticks[..j - 1];
      DrainSetOnce(ticks, deadline, i, j - 1);
    }
  }

  /**
    Bounded drain: an iteration that goes on after the leader exited, or after the
    overall deadline, checked the clock less than the grace period after that.
  */
  lemma DrainIsBounded(ticks: seq<Tick>, deadline: int, i: nat, j: nat)
    requires i <= j < |ticks| && (ticks[i].exited || ticks[i].atDeadline >= deadline) && DrainAfter(ticks[..i], deadline).None?
    requires !PastDrain(ticks, deadline, j)
    ensures ticks[j].atDrain < ticks[i].atSet + 250
  {
    assert ticks[..i + 1][..i] == ticks[..i];
    DrainSetOnce(ticks, deadline, i + 1, j + 1);
  }
}
