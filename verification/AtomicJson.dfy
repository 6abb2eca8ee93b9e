/**
  Publishing one JSON document (src/format_bench/json_contract.py): a private temporary
  file is written in full, replaces the destination in one step, and only then takes its
  intended mode.  Any step may fail, and writes may be short.
*/
module AtomicJson {
  import opened Common

  type Name = string
  type Bytes = seq<bv8>

  datatype Node = Regular(bytes: Bytes, mode: nat) | Special

  /** Directory entries point at inodes; an open descriptor is an inode. */
  datatype View = View(entries: map<Name, nat>, nodes: map<nat, Node>)

  /**
    The outside: which steps fail, the random part of names, what a creation mode becomes under
    the umask, how much of a write is accepted and how much of the buffer spills.
  */
  datatype Outside = Outside(fault: nat -> bool, token: nat -> Name, masked: nat -> nat, accept: nat -> int, spill: nat -> nat)

  const PRIVATE: nat := 0x180
  const CREATED: nat := 0x1B6

  /** No step fails, and every write makes progress. */
  ghost predicate Willing(outside: Outside) { forall n: nat :: !outside.fault(n) && outside.accept(n) > 0 }

  /** The name tried at a step. */
  function TemporaryName(outside: Outside, dest: Name, step: nat): Name { "." + dest + "." + outside.token(step) + ".tmp" }

  /** One of the hundred names tried from this step on is free. */
  ghost predicate NameFree(outside: Outside, dest: Name, entries: map<Name, nat>, from: nat, tries: nat) {
    exists k: nat :: from <= k < from + tries && TemporaryName(outside, dest, k) !in entries
  }

  // ---------- What may be seen at any moment ----------

  function At(v: View, name: Name): Option<Node> {
    if name in v.entries && v.entries[name] in v.nodes then Some(v.nodes[v.entries[name]]) else None
  }

  /** Every entry has an inode of its own. */
  ghost predicate WellFormed(v: View) {
    && (forall n :: n in v.entries ==> v.entries[n] in v.nodes)
    && (forall m, n :: m in v.entries && n in v.entries && v.entries[m] == v.entries[n] ==> m == n)
  }

  /** The mode the document is meant to have: its own before, or a created file's. */
  function Intended(start: View, dest: Name, outside: Outside): nat {
    match At(start, dest)
    case Some(Regular(_, m)) => m
    case _ => outside.masked(CREATED)
  }

  predicate NewDocument(node: Option<Node>, payload: Bytes, intended: nat) {
    node == Some(Regular(payload, PRIVATE)) || node == Some(Regular(payload, intended))
  }

  /** Part of the payload under a temporary name is private. */
  predicate PrivatePart(node: Option<Node>, payload: Bytes) {
    && node.Some? && node.value.Regular? && node.value.bytes <= payload
    && (node.value.bytes != [] ==> node.value.mode == PRIVATE)
  }

  ghost predicate DestinationWhole(v: View, start: View, dest: Name, payload: Bytes, intended: nat) {
    At(v, dest) == At(start, dest) || NewDocument(At(v, dest), payload, intended)
  }

  ghost predicate OthersUntouched(v: View, start: View, dest: Name) {
    forall n :: n in start.entries && n != dest ==> n in v.entries && At(v, n) == At(start, n)
  }

  ghost predicate OnlyPrivateParts(v: View, start: View, dest: Name, payload: Bytes) {
    forall n :: n in v.entries && n !in start.entries && n != dest ==> PrivatePart(At(v, n), payload)
  }

  /** The old or the new document complete, everything else as before, and no part of the payload exposed. */
  ghost predicate Safe(v: View, start: View, dest: Name, payload: Bytes, intended: nat) {
    && DestinationWhole(v, start, dest, payload, intended)
    && OthersUntouched(v, start, dest)
    && OnlyPrivateParts(v, start, dest, payload)
  }

  // ---------- The writer ----------

  class Writer {
    const outside: Outside
    const dest: Name
    const payload: Bytes
    var entries: map<Name, nat>
    var nodes: map<nat, Node>
    var buffered: Bytes
    var temporary: Name
    var descriptor: nat
    var steps: nat
    var free: nat
    ghost const start: View
    ghost var trace: seq<View>

    constructor (outside: Outside, dest: Name, payload: Bytes, v: View, free: nat)
      requires forall i :: i in v.nodes ==> i < free
      ensures this.outside == outside && this.dest == dest && this.payload == payload && start == v
      ensures entries == v.entries && nodes == v.nodes && this.free == free && trace == []
    {
      this.outside, this.dest, this.payload, start := outside, dest, payload, v;
      entries, nodes, buffered, temporary, descriptor, steps := v.entries, v.nodes, [], "", 0, 0;
      this.free := free;
      trace := [];
    }

    ghost function Now(): View
      reads this`entries, this`nodes
    {
      View(entries, nodes)
    }

    /** Every state passed through was safe, and so is this one. */
    ghost predicate Sound()
      reads this`entries, this`nodes, this`trace
    {
      && WellFormed(start) && WellFormed(Now())
      && Safe(Now(), start, dest, payload, Intended(start, dest, outside))
      && (forall i :: 0 <= i < |trace| ==> Safe(trace[i], start, dest, payload, Intended(start, dest, outside)))
    }

    /** The temporary file is open, private and unpublished, and holds this much of the payload. */
    ghost predicate Writing(written: nat)
      reads this
    {
      && written <= |payload| && temporary != dest && temporary !in start.entries
      && entries == start.entries[temporary := descriptor] && descriptor in nodes
      && nodes[descriptor].Regular? && nodes[descriptor].mode == PRIVATE
      && nodes[descriptor].bytes + buffered == payload[..written]
      && At(Now(), dest) == At(start, dest)
    }

    method Risk() returns (bad: bool)
      modifies this`steps
      ensures bad == outside.fault(old(steps)) && steps == old(steps) + 1
    {
      bad := outside.fault(steps);
      steps := steps + 1;
    }

    /** The state reached is one more that a crash could leave. */
    ghost method Note()
      requires Sound()
      modifies this`trace
      ensures Sound() && trace == old(trace) + [Now()]
    {
      trace := trace + [Now()];
    }

    /** _create_temporary: an exclusive open under one of up to a hundred random names. */
    method CreateTemporary(mode: nat) returns (ok: bool)
      requires Untouched()
      modifies this`entries, this`nodes, this`temporary, this`descriptor, this`steps, this`trace, this`free
      ensures Sound()
      ensures !ok ==> Untouched()
      ensures ok ==> Created(mode)
      ensures Willing(outside) ==> (ok <==> NameFree(outside, dest, start.entries, old(steps), 100))
    {
      hide Safe;
      var tries := 0;
      while tries < 100
        invariant Untouched() && tries <= 100
        invariant steps == old(steps) + tries
        invariant !NameFree(outside, dest, start.entries, old(steps), tries)
      {
        var name := TemporaryName(outside, dest, steps);
        var bad := Risk();
        if bad { return false; }
        if name !in entries {
          CreatedSafe(Now(), start, dest, payload, Intended(start, dest, outside), name, free, outside.masked(mode));
          temporary, descriptor, free := name, free, free + 1;
          entries, nodes := entries[name := descriptor], nodes[descriptor := Regular([], outside.masked(mode))];
          Note();
          return true;
        }
        tries := tries + 1;
      }
      ok := false;
    }

    /** Nothing has been done to the directory yet. */
    ghost predicate Untouched()
      reads this
    {
      Sound() && entries == start.entries && nodes == start.nodes && forall i :: i in nodes ==> i < free
    }

    /** The temporary file exists, empty and with its creation mode. */
    ghost predicate Created(mode: nat)
      reads this
    {
      && temporary !in start.entries && temporary != dest && descriptor !in start.nodes
      && entries == start.entries[temporary := descriptor]
      && nodes == start.nodes[descriptor := Regular([], outside.masked(mode))]
    }

    /** fchmod of the open temporary to 0600. */
    method Narrow(mode: nat) returns (ok: bool)
      requires Sound() && Created(mode)
      modifies this`nodes, this`steps, this`trace, this`buffered
      ensures Sound() && (ok ==> Writing(0)) && At(Now(), dest) == At(start, dest)
      ensures Willing(outside) ==> ok
    {
      hide Safe;
      CreatedElsewhere(start, dest, temporary, descriptor, nodes[descriptor]);
      CreatedElsewhere(start, dest, temporary, descriptor, Regular([], PRIVATE));
      var bad := Risk();
      if bad { return false; }
      buffered := [];
      TemporarySafe(Now(), start, dest, payload, Intended(start, dest, outside), temporary, Regular([], PRIVATE));
      nodes := nodes[descriptor := Regular([], PRIVATE)];
      Note();
      ok := true;
    }

    /** Some of the buffer reaches the file. */
    method Spill(written: nat, count: nat)
      requires Sound() && Writing(written) && count <= |buffered|
      modifies this`nodes, this`buffered, this`trace
      ensures Sound() && Writing(written) && |buffered| == old(|buffered|) - count
    {
      hide Safe;
      var more := nodes[descriptor].bytes + buffered[..count];
      assert more <= payload && more + buffered[count..] == payload[..written] by {
        assert buffered == buffered[..count] + buffered[count..];
        assert more + buffered[count..] == nodes[descriptor].bytes + buffered;
        assert payload == payload[..written] + payload[written..];
      }
      TemporarySafe(Now(), start, dest, payload, Intended(start, dest, outside), temporary, Regular(more, PRIVATE));
      nodes, buffered := nodes[descriptor := Regular(more, PRIVATE)], buffered[count..];
      Note();
    }

    /** _write_atomic_file: short writes are continued, and one without progress fails. */
    method WriteAll() returns (ok: bool, offset: nat)
      requires Sound() && Writing(0)
      modifies this`nodes, this`buffered, this`steps, this`trace
      ensures Sound() && Writing(offset) && (ok ==> offset == |payload|)
      ensures Willing(outside) ==> ok
    {
      hide Safe, Sound;
      offset := 0;
      while offset < |payload|
        invariant Sound() && offset <= |payload| && Writing(offset)
        decreases |payload| - offset
      {
        var bad := Risk();
        if bad { return false, offset; }
        var accepted := outside.accept(steps);
        if accepted <= 0 { return false, offset; }
        var count := if accepted <= |payload| - offset then accepted else |payload| - offset;
        buffered := buffered + payload[offset..offset + count];
        assert payload[..offset + count] == payload[..offset] + payload[offset..offset + count];
        offset := offset + count;
        var spilled := outside.spill(steps);
        Spill(offset, if spilled <= |buffered| then spilled else |buffered|);
      }
      ok := true;
    }

    /** Leaving the open stream after a failure still flushes what it can. */
    method Close(written: nat)
      requires Sound() && Writing(written)
      modifies this`nodes, this`buffered, this`steps, this`trace
      ensures Sound() && Writing(written)
    {
      hide Safe, Sound;
      var spilled := outside.spill(steps);
      Spill(written, if spilled <= |buffered| then spilled else |buffered|);
    }

    /** flush and fsync. */
    method Flush() returns (ok: bool)
      requires Sound() && Writing(|payload|)
      modifies this`nodes, this`buffered, this`steps, this`trace
      ensures Sound() && Writing(|payload|) && (ok ==> buffered == [])
      ensures Willing(outside) ==> ok
    {
      var bad := Risk();
      if bad {
        var spilled := outside.spill(steps);
        Spill(|payload|, if spilled <= |buffered| then spilled else |buffered|);
        return false;
      }
      Spill(|payload|, |buffered|);
      bad := Risk();
      ok := !bad;
    }

    /** The complete private file replaces the destination in one step. */
    method Replace() returns (ok: bool)
      requires Sound() && Writing(|payload|) && buffered == []
      modifies this`entries, this`steps, this`trace
      ensures Sound()
      ensures if ok then Published(PRIVATE) else entries == old(entries)
      ensures Willing(outside) ==> (ok <==> At(start, dest) != Some(Special))
    {
      hide Safe;
      var bad := Risk();
      if bad { return false; }
      if dest in entries && nodes[entries[dest]].Special? { return false; }
      bad := Risk();
      if bad { return false; }
      assert nodes[descriptor].bytes == payload by { assert payload[..|payload|] == payload; }
      ReplaceSafe(Now(), start, dest, payload, Intended(start, dest, outside), temporary);
      entries := (map n | n in entries && n != temporary :: entries[n])[dest := descriptor];
      assert entries == start.entries[dest := descriptor];
      Note();
      ok := true;
    }

    /** The new document is in place, with this mode. */
    ghost predicate Published(mode: nat)
      reads this
    {
      entries == start.entries[dest := descriptor] && At(Now(), dest) == Some(Regular(payload, mode))
    }

    /** The intended mode, set through the still open descriptor. */
    method Restore(mode: nat) returns (ok: bool)
      requires Sound() && Published(PRIVATE) && mode == Intended(start, dest, outside)
      modifies this`nodes, this`steps, this`trace
      ensures Sound() && (Published(mode) || Published(PRIVATE)) && (ok ==> Published(mode))
      ensures Willing(outside) ==> ok
    {
      hide Safe;
      var bad := Risk();
      if bad { return false; }
      RestoreSafe(Now(), start, dest, payload, mode);
      nodes := nodes[descriptor := Regular(payload, mode)];
      Note();
      bad := Risk();
      ok := !bad;
    }

    /** Writing, flushing, replacing and restoring the mode of a narrowed temporary. */
    method Publish(mode: nat) returns (ok: bool)
      requires Sound() && Writing(0) && mode == Intended(start, dest, outside)
      modifies this`entries, this`nodes, this`buffered, this`steps, this`trace
      ensures Sound() && (ok ==> Published(Intended(start, dest, outside)))
      ensures entries == start.entries[temporary := descriptor] || Published(PRIVATE) || Published(Intended(start, dest, outside))
      ensures Willing(outside) ==> (ok <==> At(start, dest) != Some(Special))
    {
      hide Safe, Sound, Intended;
      var written, offset := WriteAll();
      if !written {
        Close(offset);
        return false;
      }
      var flushed := Flush();
      if !flushed {
        Close(|payload|);
        return false;
      }
      var replaced := Replace();
      if !replaced { return false; }
      ok := Restore(mode);
    }

    /**
      atomic_write_json.  Whatever fails, every state on the way holds the complete old
      or the complete new document and keeps every unpublished byte private; success
      leaves the new document alone under its intended mode.  With nothing failing, it
      succeeds exactly in a trusted directory whose destination is absent or a regular
      file and where one of the names tried is free.
    */
    method AtomicWrite(trusted: bool) returns (ok: bool)
      requires Untouched()
      modifies this
      ensures Sound()
      ensures ok ==> Published(Intended(start, dest, outside))
      ensures !ok ==>
        Untouched() || entries == start.entries[temporary := descriptor]
        || Published(PRIVATE) || Published(Intended(start, dest, outside))
      ensures !trusted ==> !ok && Untouched()
      ensures Willing(outside) ==>
        (ok <==> trusted && At(start, dest) != Some(Special) && NameFree(outside, dest, start.entries, old(steps) + 2, 100))
    {
      hide Safe;
      var bad := Risk();
      if bad || !trusted { return false; }
      bad := Risk();
      if bad || (dest in entries && nodes[entries[dest]].Special?) { return false; }
      var mode := if dest in entries then nodes[entries[dest]].mode else CREATED;
      ok := CreateTemporary(mode);
      if !ok { return; }
      bad := Risk();
      if bad { return false; }
      var final := if dest in entries then mode else nodes[descriptor].mode;
      ok := Narrow(mode);
      if !ok { return; }
      ok := Publish(final);
    }
  }

  // ---------- Each step is safe ----------

  lemma CreatedSafe(v: View, start: View, dest: Name, payload: Bytes, intended: nat, name: Name, inode: nat, mode: nat)
    requires WellFormed(v) && Safe(v, start, dest, payload, intended) && name !in v.entries && inode !in v.nodes
    requires v == start && name != dest
    ensures var w := View(v.entries[name := inode], v.nodes[inode := Regular([], mode)]);
      WellFormed(w) && Safe(w, start, dest, payload, intended)
  {
  }

  lemma CreatedElsewhere(start: View, dest: Name, name: Name, inode: nat, node: Node)
    requires WellFormed(start) && name !in start.entries && name != dest && inode !in start.nodes
    ensures At(View(start.entries[name := inode], start.nodes[inode := node]), dest) == At(start, dest)
  {
  }

  /** Writing to the temporary's inode changes no other entry. */
  lemma TemporarySafe(v: View, start: View, dest: Name, payload: Bytes, intended: nat, name: Name, node: Node)
    requires WellFormed(v) && Safe(v, start, dest, payload, intended)
    requires name in v.entries && name !in start.entries && name != dest && PrivatePart(Some(node), payload)
    ensures var w := View(v.entries, v.nodes[v.entries[name] := node]);
      WellFormed(w) && Safe(w, start, dest, payload, intended) && At(w, dest) == At(v, dest)
  {
    var w := View(v.entries, v.nodes[v.entries[name] := node]);
    assert forall n :: n in v.entries && n != name ==> At(w, n) == At(v, n);
  }

  lemma ReplaceSafe(v: View, start: View, dest: Name, payload: Bytes, intended: nat, name: Name)
    requires WellFormed(v) && Safe(v, start, dest, payload, intended)
    requires name in v.entries && name !in start.entries && name != dest
    requires At(v, name) == Some(Regular(payload, PRIVATE))
    ensures var w := View((map n | n in v.entries && n != name :: v.entries[n])[dest := v.entries[name]], v.nodes);
      WellFormed(w) && Safe(w, start, dest, payload, intended) && At(w, dest) == Some(Regular(payload, PRIVATE))
  {
    var w := View((map n | n in v.entries && n != name :: v.entries[n])[dest := v.entries[name]], v.nodes);
    assert forall n :: n in v.entries && n != name && n != dest ==> n in w.entries && At(w, n) == At(v, n);
  }

  lemma RestoreSafe(v: View, start: View, dest: Name, payload: Bytes, intended: nat)
    requires WellFormed(v) && Safe(v, start, dest, payload, intended) && dest in v.entries
    ensures var w := View(v.entries, v.nodes[v.entries[dest] := Regular(payload, intended)]);
      WellFormed(w) && Safe(w, start, dest, payload, intended) && At(w, dest) == Some(Regular(payload, intended))
  {
    var w := View(v.entries, v.nodes[v.entries[dest] := Regular(payload, intended)]);
    assert forall n :: n in v.entries && n != dest ==> At(w, n) == At(v, n);
  }

  // ---------- What safety and the mode mean ----------

  /** In a safe state only the complete document stands anywhere but in files of mode 0600. */
  lemma SafeMeans(v: View, start: View, dest: Name, payload: Bytes, intended: nat, n: Name, bytes: Bytes, mode: nat)
    requires Safe(v, start, dest, payload, intended) && n in v.entries && At(v, n) == Some(Regular(bytes, mode))
    ensures n == dest && At(v, n) != At(start, n) ==> bytes == payload && (mode == 384 || mode == intended)
    ensures n != dest && n in start.entries ==> At(start, n) == Some(Regular(bytes, mode))
    ensures n != dest && n !in start.entries ==> bytes <= payload && (bytes != [] ==> mode == 384)
  {
  }

  /** An existing document keeps its mode; a new one gets what the umask makes of 0666. */
  lemma IntendedMeans(start: View, dest: Name, outside: Outside, bytes: Bytes, mode: nat)
    ensures At(start, dest) == Some(Regular(bytes, mode)) ==> Intended(start, dest, outside) == mode
    ensures dest !in start.entries ==> Intended(start, dest, outside) == outside.masked(438)
  {
  }
}
