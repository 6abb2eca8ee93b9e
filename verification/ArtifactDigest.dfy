/**
  The two walkers that feed the digest (src/format_bench/artifact_digest.py): the
  recursive descriptor walk with its global sort, and the flat path walk.
*/
module ArtifactDigest {
  import opened Common
  import opened Ordering
  import opened ArtifactFraming
  import opened ArtifactTree

  const CHUNK_SIZE: nat := 1024 * 1024

  // ---------- What the walks owe to sorting ----------

  lemma FlattenSplit(a: seq<Child>, b: seq<Child>, prefix: seq<Name>)
    ensures Flatten(a + b, prefix) == Flatten(a, prefix) + Flatten(b, prefix)
    decreases a
  {
    if a == [] {
      assert a + b == b;
    } else {
      assert (a + b)[1..] == a[1..] + b;
      FlattenSplit(a[1..], b, prefix);
    }
  }

  function NameKey(c: Child): seq<int> { c.name }

  lemma BagSwap(head: seq<Raw>, inserted: seq<Raw>, c: seq<Raw>, rest: seq<Raw>)
    requires multiset(inserted) == multiset(c + rest)
    ensures multiset(head + inserted) == multiset(c + (head + rest))
  {
  }

  lemma {:induction false} FlattenInsert(c: Child, s: seq<Child>, prefix: seq<Name>)
    ensures multiset(Flatten(Insert(c, s, NameKey), prefix)) == multiset(Flatten([c] + s, prefix))
  {
    hide Flatten;
    if s != [] && !Less(NameKey(c), NameKey(s[0])) {
      var first, tail, rest := [s[0]], s[1..], Insert(c, s[1..], NameKey);
      FlattenInsert(c, tail, prefix);
      FlattenSplit(first, rest, prefix);
      FlattenSplit([c], s, prefix);
      FlattenSplit([c], tail, prefix);
      FlattenSplit(first, tail, prefix);
      assert first + tail == s && Insert(c, s, NameKey) == first + rest;
      BagSwap(Flatten(first, prefix), Flatten(rest, prefix), Flatten([c], prefix), Flatten(tail, prefix));
    }
  }

  /** Sorting the names of each directory does not change what is collected. */
  lemma {:induction false} FlattenSort(s: seq<Child>, prefix: seq<Name>)
    ensures multiset(Flatten(Sort(s, NameKey), prefix)) == multiset(Flatten(s, prefix))
  {
    hide Flatten;
    if s != [] {
      var first, tail := [s[0]], s[1..];
      FlattenSort(tail, prefix);
      FlattenInsert(s[0], Sort(tail, NameKey), prefix);
      FlattenSplit(first, Sort(tail, NameKey), prefix);
      FlattenSplit(first, tail, prefix);
      assert first + tail == s;
    }
  }

  /** Keys that order the same way sort the same way. */
  lemma SortSameOrder<T(!new)>(s: seq<T>, k: T -> seq<int>, l: T -> seq<int>)
    requires forall x, y :: Less(k(x), k(y)) == Less(l(x), l(y))
    ensures Sort(s, k) == Sort(s, l)
  {
    if s != [] {
      SortSameOrder(s[1..], k, l);
      InsertSameOrder(s[0], Sort(s[1..], k), k, l);
    }
  }

  lemma InsertSameOrder<T(!new)>(x: T, s: seq<T>, k: T -> seq<int>, l: T -> seq<int>)
    requires forall x, y :: Less(k(x), k(y)) == Less(l(x), l(y))
    ensures Insert(x, s, k) == Insert(x, s, l)
  {
  }

  lemma EncodeSplit(entries: seq<Entry>, e: Entry)
    ensures EncodeEntries(entries + [e]) == EncodeEntries(entries) + EncodeEntry(e)
  {
    if entries == [] {
      assert [e] == [] + [e] && [e][1..] == [];
    } else {
      assert (entries + [e])[1..] == entries[1..] + [e];
      EncodeSplit(entries[1..], e);
    }
  }

  lemma EncodePrefix(entries: seq<Entry>, i: nat)
    requires i < |entries|
    ensures EncodeEntries(entries[..i + 1]) == EncodeEntries(entries[..i]) + EncodeEntry(entries[i])
    ensures AllSmall(entries[..i]) && SmallEntry(entries[i]) ==> AllSmall(entries[..i + 1])
    ensures AllSmall(entries) ==> SmallEntry(entries[i])
  {
    assert entries[..i + 1] == entries[..i] + [entries[i]];
    EncodeSplit(entries[..i], entries[i]);
  }

  lemma FlattenPrefix(order: seq<Child>, i: nat, prefix: seq<Name>)
    requires i < |order|
    ensures Flatten(order[..i + 1], prefix) == Flatten(order[..i], prefix) + Flatten([order[i]], prefix)
  {
    assert order[..i + 1] == order[..i] + [order[i]];
    FlattenSplit(order[..i], [order[i]], prefix);
  }

  /** The stream has taken in the first n entries, all of which fit. */
  ghost predicate Fed(before: Bytes, entries: seq<Entry>, n: nat, stream: Bytes) {
    n <= |entries| && AllSmall(entries[..n]) && stream == before + EncodeEntries(entries[..n])
  }

  lemma FedMore(before: Bytes, entries: seq<Entry>, n: nat, stream: Bytes)
    requires n < |entries| && Fed(before, entries, n, stream)
    ensures SmallEntry(entries[n]) ==> Fed(before, entries, n + 1, stream + EncodeEntry(entries[n]))
    ensures !SmallEntry(entries[n]) ==> !AllSmall(entries)
  {
    hide EncodeEntry;
    EncodePrefix(entries, n);
    var fed, own := EncodeEntries(entries[..n]), EncodeEntry(entries[n]);
    assert before + fed + own == before + (fed + own);
  }

  lemma FedAll(before: Bytes, entries: seq<Entry>, stream: Bytes)
    requires Fed(before, entries, |entries|, stream)
    ensures AllSmall(entries) && stream == before + EncodeEntries(entries)
  {
    assert entries[..|entries|] == entries;
  }

  // ---------- The digest ----------

  /** A running hash, known by the bytes it was fed. */
  class Digest {
    var stream: Bytes

    constructor ()
      ensures stream == []
    {
      stream := [];
    }

    method Update(data: Bytes)
      modifies this
      ensures stream == old(stream) + data
    {
      stream := stream + data;
    }

    /** The eight-byte length; to_bytes raises when it does not fit. */
    method UpdateLength(n: nat) returns (ok: bool)
      modifies this
      ensures ok == (n < LENGTH_LIMIT)
      ensures stream == if ok then old(stream) + BigEndian(n, 8) else old(stream)
    {
      ok := n < LENGTH_LIMIT;
      if ok { Update(BigEndian(n, 8)); }
    }

    method AddFrame(kind: Bytes, value: Bytes) returns (ok: bool)
      modifies this
      ensures ok == (|value| < LENGTH_LIMIT)
      ensures ok ==> stream == old(stream) + Frame(kind, value)
    {
      Update(kind);
      ok := UpdateLength(|value|);
      if ok {
        Update(value);
        assert stream == old(stream) + Frame(kind, value);
      }
    }

    /** The size, then the content in whatever chunks the reads return. */
    method AddFile(content: Bytes) returns (ok: bool)
      modifies this
      ensures ok == (|content| < LENGTH_LIMIT)
      ensures ok ==> stream == old(stream) + Sized(content)
    {
      hide BigEndian;
      ok := UpdateLength(|content|);
      if !ok { return; }
      var offset := 0;
      while offset < |content|
        invariant 0 <= offset <= |content|
        invariant stream == old(stream) + BigEndian(|content|, 8) + content[..offset]
      {
        var n: nat :| 1 <= n <= CHUNK_SIZE && n <= |content| - offset;
        Update(content[offset..offset + n]);
        assert content[..offset] + content[offset..offset + n] == content[..offset + n];
        offset := offset + n;
      }
      assert content[..offset] == content;
    }

    method AddEntry(e: Entry) returns (ok: bool)
      modifies this
      ensures ok == SmallEntry(e)
      ensures ok ==> stream == old(stream) + EncodeEntry(e)
    {
      if e.content.None? {
        ok := AddFrame(DIRECTORY_ENTRY, e.path);
      } else {
        ok := AddFrame(FILE_ENTRY, e.path);
        if !ok { return; }
        ok := AddFile(e.content.value);
        assert ok ==> stream == old(stream) + (Frame(FILE_ENTRY, e.path) + Sized(e.content.value));
      }
    }

    /** Frames the sorted entries one after another. */
    method AddEntries(sorted: seq<Raw>) returns (ok: bool)
      modifies this
      ensures ok == AllSmall(ToEntries(sorted))
      ensures ok ==> stream == old(stream) + EncodeEntries(ToEntries(sorted))
    {
      ghost var entries, before := ToEntries(sorted), stream;
      for i := 0 to |sorted|
        invariant Fed(before, entries, i, stream)
      {
        FedMore(before, entries, i, stream);
        ok := AddEntry(ToEntry(sorted[i]));
        if !ok { return false; }
      }
      FedAll(before, entries, stream);
      return true;
    }
  }

  // ---------- The descriptor walk ----------

  class Collector {
    var entries: seq<Raw>

    constructor ()
      ensures entries == []
    {
      entries := [];
    }

    /** Appends a directory's entries, its names sorted, each subdirectory after its own entry. */
    method Collect(directory: Node, prefix: seq<Name>)
      requires directory.Directory?
      modifies this
      ensures multiset(entries) == multiset(old(entries)) + multiset(Flatten(directory.children, prefix))
      decreases directory, 1
    {
      var order := Sort(directory.children, NameKey);
      SortElements(directory.children, NameKey);
      FlattenSort(directory.children, prefix);
      CollectInOrder(directory, order, prefix);
    }

    method CollectInOrder(ghost directory: Node, order: seq<Child>, prefix: seq<Name>)
      requires directory.Directory? && forall c :: c in order ==> c in directory.children
      modifies this
      ensures multiset(entries) == multiset(old(entries)) + multiset(Flatten(order, prefix))
      decreases directory, 0
    {
      ghost var done: seq<Raw> := [];
      for i := 0 to |order|
        invariant done == Flatten(order[..i], prefix)
        invariant multiset(entries) == multiset(old(entries)) + multiset(done)
      {
        ghost var before, own := multiset(entries), Flatten([order[i]], prefix);
        FlattenPrefix(order, i, prefix);
        assert order[i] in directory.children;
        CollectChild(order[i], prefix);
        assert multiset(entries) == before + multiset(own);
        assert multiset(done + own) == multiset(done) + multiset(own);
        done := done + own;
      }
      assert order[..|order|] == order;
    }

    method CollectChild(c: Child, prefix: seq<Name>)
      modifies this
      ensures multiset(entries) == multiset(old(entries)) + multiset(Flatten([c], prefix))
      decreases c.node, 2
    {
      var relative := prefix + [c.name];
      entries := entries + [Raw(relative, Kind(c.node))];
      assert Flatten([c], prefix) == [Raw(relative, Kind(c.node))]
                                     + if c.node.Directory? then Flatten(c.node.children, relative) else [];
      if c.node.Directory? { Collect(c.node, relative); }
    }
  }

  method DescriptorStream(root: Node) returns (stream: Option<Bytes>)
    requires Valid(root)
    ensures stream == if Small(Canonical(root)) then Some(Encode(Canonical(root))) else None
  {
    var digest := new Digest();
    if root.File? {
      var framed := digest.AddFrame(ROOT_FILE, []);
      assert digest.stream == Frame(ROOT_FILE, []);
      var added := digest.AddFile(root.content);
      if !added { return None; }
      return Some(digest.stream);
    }
    var framed := digest.AddFrame(ROOT_DIRECTORY, []);
    assert digest.stream == Frame(ROOT_DIRECTORY, []);
    var collector := new Collector();
    collector.Collect(root, []);
    var entries := collector.entries;
    FlattenEnumerates(root);
    EnumerationKeys(Flatten(root.children, []), root);
    SortPermutation(Flatten(root.children, []), entries, PathKey);
    ghost var listed := ToEntries(Sort(entries, PathKey));
    assert Canonical(root) == Listing(listed);
    assert Encode(Listing(listed)) == Frame(ROOT_DIRECTORY, []) + EncodeEntries(listed);
    var ok := digest.AddEntries(Sort(entries, PathKey));
    if !ok { return None; }
    return Some(digest.stream);
  }

  // ---------- The path walk ----------

  /** The flat walk sorts whole paths, which all begin with the artifact's own path. */
  function WholePath(base: Bytes): Raw -> seq<int> { (r: Raw) => base + Posix(r.relative) }

  lemma WholePathOrder(base: Bytes, raws: seq<Raw>)
    ensures Sort(raws, WholePath(base)) == Sort(raws, PathKey)
  {
    forall x, y ensures Less(WholePath(base)(x), WholePath(base)(y)) == Less(PathKey(x), PathKey(y)) {
      CommonPrefix(base, Posix(x.relative), Posix(y.relative));
    }
    SortSameOrder(raws, WholePath(base), PathKey);
  }

  /** found is what the recursive glob yields: every entry once, in any order. */
  method PathStream(root: Node, base: Bytes, found: seq<Raw>) returns (stream: Option<Bytes>)
    requires Valid(root) && (root.Directory? ==> Enumerates(found, root))
    ensures stream == if Small(Canonical(root)) then Some(Encode(Canonical(root))) else None
  {
    var digest := new Digest();
    if root.File? {
      var framed := digest.AddFrame(ROOT_FILE, []);
      assert digest.stream == Frame(ROOT_FILE, []);
      var added := digest.AddFile(root.content);
      if !added { return None; }
      return Some(digest.stream);
    }
    var framed := digest.AddFrame(ROOT_DIRECTORY, []);
    assert digest.stream == Frame(ROOT_DIRECTORY, []);
    AnyEnumeration(root, found);
    WholePathOrder(base, found);
    ghost var listed := ToEntries(Sort(found, PathKey));
    assert Canonical(root) == Listing(listed);
    assert Encode(Listing(listed)) == Frame(ROOT_DIRECTORY, []) + EncodeEntries(listed);
    var ok := digest.AddEntries(Sort(found, WholePath(base)));
    if !ok { return None; }
    return Some(digest.stream);
  }

  /** The name `a.txt` sorts between the directory `a` and what it contains. */
  lemma DotSortsBeforeNested()
    ensures Less(Posix([Ascii("a")]), Posix([Ascii("a.txt")]))
    ensures Less(Posix([Ascii("a.txt")]), Posix([Ascii("a"), Ascii("nested")]))
  {
  }
}
