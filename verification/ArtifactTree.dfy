/**
  Directory trees as the operating system lists them, the entries they contain, and
  the one artifact (hence one byte stream) that stands for each.
*/
module ArtifactTree {
  import opened Common
  import opened Ordering
  import opened ArtifactFraming

  /** A path component: the bytes of its UTF-8 encoding. */
  type Name = Bytes

  const SLASH: Byte := 47

  datatype Child = Child(name: Name, node: Node)

  /** A regular file, or a directory with its children in the order they are listed. */
  datatype Node = File(content: Bytes) | Directory(children: seq<Child>)

  predicate ValidName(n: Name) { n != [] && SLASH !in n }

  ghost predicate Valid(node: Node) {
    match node
    case File(_) => true
    case Directory(children) => ValidForest(children) && forall c | c in children :: Valid(c.node)
  }

  ghost predicate ValidForest(children: seq<Child>) {
    && (forall c :: c in children ==> ValidName(c.name))
    && (forall i, j :: 0 <= i < j < |children| ==> children[i].name != children[j].name)
  }

  function Kind(node: Node): Option<Bytes> {
    if node.File? then Some(node.content) else None
  }

  /** The tree holds this path, with this content (None for a directory). */
  ghost predicate Has(node: Node, rel: seq<Name>, content: Option<Bytes>)
    decreases rel
  {
    if rel == [] then content == Kind(node)
    else node.Directory? && HasIn(node.children, rel, content)
  }

  ghost predicate HasIn(children: seq<Child>, rel: seq<Name>, content: Option<Bytes>)
    requires rel != []
    decreases rel, 0
  {
    exists c :: c in children && c.name == rel[0] && Has(c.node, rel[1..], content)
  }

  /** Same paths, kinds and contents, whatever the listing order. */
  ghost predicate SameTree(a: Node, b: Node) {
    forall rel, content :: Has(a, rel, content) <==> Has(b, rel, content)
  }

  // ---------- Paths ----------

  /** Path(*rel).as_posix(), encoded. */
  function Posix(rel: seq<Name>): Bytes {
    if rel == [] then [] else if |rel| == 1 then rel[0] else rel[0] + [SLASH] + Posix(rel[1..])
  }

  predicate ValidPath(rel: seq<Name>) { forall n | n in rel :: ValidName(n) }

  lemma LongerHoldsSlash(a: Name, x: Bytes, b: Name, y: Bytes)
    ensures a + [SLASH] + x == b + [SLASH] + y && |a| < |b| ==> SLASH in b
  {
    if a + [SLASH] + x == b + [SLASH] + y && |a| < |b| {
      assert (a + [SLASH] + x)[|a|] == SLASH;
      assert b[|a|] == (b + [SLASH] + y)[|a|];
    }
  }

  lemma FirstComponent(a: Name, x: Bytes, b: Name, y: Bytes)
    requires ValidName(a) && ValidName(b) && a + [SLASH] + x == b + [SLASH] + y
    ensures a == b && x == y
  {
    var s := a + [SLASH] + x;
    LongerHoldsSlash(a, x, b, y);
    LongerHoldsSlash(b, y, a, x);
    assert s[..|a|] == a && s[..|b|] == b && s[|a| + 1..] == x && s[|b| + 1..] == y;
  }

  lemma OneComponent(a: Name, b: Name, y: Bytes)
    requires ValidName(a)
    ensures a != b + [SLASH] + y
  {
  }

  lemma PosixEmpty(a: seq<Name>)
    requires ValidPath(a)
    ensures Posix(a) == [] <==> a == []
  {
    if a != [] { assert a[0] in a; }
  }

  lemma {:induction false} PosixInjective(a: seq<Name>, b: seq<Name>)
    requires ValidPath(a) && ValidPath(b) && Posix(a) == Posix(b)
    ensures a == b
  {
    if a == [] || b == [] {
      PosixEmpty(a);
      PosixEmpty(b);
    } else {
      assert a[0] in a && b[0] in b;
      if |a| == 1 && |b| > 1 { OneComponent(a[0], b[0], Posix(b[1..])); }
      if |b| == 1 && |a| > 1 { OneComponent(b[0], a[0], Posix(a[1..])); }
      if |a| > 1 && |b| > 1 {
        FirstComponent(a[0], Posix(a[1..]), b[0], Posix(b[1..]));
        PosixInjective(a[1..], b[1..]);
        assert a == [a[0]] + a[1..] && b == [b[0]] + b[1..];
      }
    }
  }

  // ---------- The entries of a tree ----------

  /** A collected entry: its relative components and, for a file, its content. */
  datatype Raw = Raw(relative: seq<Name>, content: Option<Bytes>)

  function PathKey(r: Raw): seq<int> { Posix(r.relative) }

  function Flatten(children: seq<Child>, prefix: seq<Name>): seq<Raw>
    decreases children
  {
    if children == [] then []
    else
      var c := children[0];
      var here := prefix + [c.name];
      [Raw(here, Kind(c.node))]
      + (if c.node.Directory? then Flatten(c.node.children, here) else [])
      + Flatten(children[1..], prefix)
  }

  lemma {:induction false} HasUnique(node: Node, rel: seq<Name>, c: Option<Bytes>, d: Option<Bytes>)
    requires Valid(node) && Has(node, rel, c) && Has(node, rel, d)
    ensures c == d
    decreases rel
  {
    if rel != [] {
      var x :| x in node.children && x.name == rel[0] && Has(x.node, rel[1..], c);
      var y :| y in node.children && y.name == rel[0] && Has(y.node, rel[1..], d);
      assert x == y;
      HasUnique(x.node, rel[1..], c, d);
    }
  }

  lemma {:induction false} HasValidPath(node: Node, rel: seq<Name>, c: Option<Bytes>)
    requires Valid(node) && Has(node, rel, c)
    ensures ValidPath(rel)
    decreases rel
  {
    if rel != [] {
      var x :| x in node.children && x.name == rel[0] && Has(x.node, rel[1..], c);
      HasValidPath(x.node, rel[1..], c);
      assert forall n :: n in rel ==> n == rel[0] || n in rel[1..];
    }
  }

  /** Everything collected under a prefix lies properly below it. */
  lemma {:induction false} FlattenBelow(children: seq<Child>, prefix: seq<Name>)
    ensures forall r :: r in Flatten(children, prefix) ==>
              |r.relative| > |prefix| && prefix <= r.relative
              && exists c :: c in children && c.name == r.relative[|prefix|]
    decreases children
  {
    if children != [] {
      var c := children[0];
      var here := prefix + [c.name];
      if c.node.Directory? { FlattenBelow(c.node.children, here); }
      FlattenBelow(children[1..], prefix);
      forall r | r in Flatten(children, prefix)
        ensures |r.relative| > |prefix| && prefix <= r.relative && exists d :: d in children && d.name == r.relative[|prefix|]
      {
        if r in Flatten(children[1..], prefix) {
          var d :| d in children[1..] && d.name == r.relative[|prefix|];
          assert d in children;
        } else if r != Raw(here, Kind(c.node)) {
          assert here <= r.relative && here[|prefix|] == c.name;
        }
      }
    }
  }

  lemma {:induction false} FlattenHas(children: seq<Child>, prefix: seq<Name>, rel: seq<Name>, content: Option<Bytes>)
    requires rel != []
    ensures Raw(prefix + rel, content) in Flatten(children, prefix) <==> HasIn(children, rel, content)
    decreases children
  {
    hide Posix;
    if children != [] {
      var c, rest := children[0], children[1..];
      var here := prefix + [c.name];
      var r := Raw(prefix + rel, content);
      FlattenHas(rest, prefix, rel, content);
      assert HasIn(children, rel, content) <==>
             (c.name == rel[0] && Has(c.node, rel[1..], content)) || HasIn(rest, rel, content);
      if c.node.Directory? { FlattenBelow(c.node.children, here); }
      if c.name != rel[0] {
        assert (prefix + rel)[|prefix|] != here[|prefix|];
      } else if |rel| == 1 {
        assert prefix + rel == here;
      } else {
        assert prefix + rel == here + rel[1..];
        if c.node.Directory? { FlattenHas(c.node.children, here, rel[1..], content); }
      }
    }
  }

  ghost predicate DistinctPaths(raws: seq<Raw>) {
    forall i, j :: 0 <= i < j < |raws| ==> raws[i].relative != raws[j].relative
  }

  lemma ConcatDistinct(a: seq<Raw>, b: seq<Raw>)
    requires DistinctPaths(a) && DistinctPaths(b)
    requires forall x, y :: x in a && y in b ==> x.relative != y.relative
    ensures DistinctPaths(a + b)
  {
  }

  lemma FlattenDistinct(children: seq<Child>, prefix: seq<Name>)
    requires ValidForest(children) && forall c :: c in children ==> Valid(c.node)
    ensures DistinctPaths(Flatten(children, prefix))
    decreases children
  {
    if children != [] {
      var c, rest := children[0], children[1..];
      var here := prefix + [c.name];
      var own := [Raw(here, Kind(c.node))];
      var sub := if c.node.Directory? then Flatten(c.node.children, here) else [];
      assert Valid(c.node);
      if c.node.Directory? {
        FlattenDistinct(c.node.children, here);
        FlattenBelow(c.node.children, here);
      }
      ConcatDistinct(own, sub);
      FlattenDistinct(rest, prefix);
      FlattenBelow(rest, prefix);
      assert forall d :: d in rest ==> d.name != c.name;
      assert forall x: Raw :: x in own + sub ==> here <= x.relative && x.relative[|prefix|] == c.name by {
        assert here[|prefix|] == c.name;
      }
      ConcatDistinct(own + sub, Flatten(rest, prefix));
    }
  }

  // ---------- The artifact that stands for a tree ----------

  function ToEntry(r: Raw): Entry { Entry(Posix(r.relative), r.content) }

  function ToEntries(raws: seq<Raw>): seq<Entry> {
    seq(|raws|, i requires 0 <= i < |raws| => ToEntry(raws[i]))
  }

  function Canonical(node: Node): Artifact {
    match node
    case File(content) => OneFile(content)
    case Directory(children) => Listing(ToEntries(Sort(Flatten(children, []), PathKey)))
  }

  /** These are the entries of the directory, each once, in any order. */
  ghost predicate Enumerates(raws: seq<Raw>, node: Node) {
    && DistinctPaths(raws)
    && forall r :: r in raws <==> r.relative != [] && Has(node, r.relative, r.content)
  }

  lemma FlattenEnumerates(node: Node)
    requires Valid(node) && node.Directory?
    ensures Enumerates(Flatten(node.children, []), node)
  {
    FlattenDistinct(node.children, []);
    FlattenBelow(node.children, []);
    forall r: Raw | r.relative != []
      ensures r in Flatten(node.children, []) <==> Has(node, r.relative, r.content)
    {
      FlattenHas(node.children, [], r.relative, r.content);
      assert [] + r.relative == r.relative;
    }
  }

  lemma EnumerationKeys(raws: seq<Raw>, node: Node)
    requires Valid(node) && Enumerates(raws, node)
    ensures DistinctKeys(raws, PathKey)
  {
    forall i, j | 0 <= i < j < |raws| ensures PathKey(raws[i]) != PathKey(raws[j]) {
      assert raws[i] in raws && raws[j] in raws;
      HasValidPath(node, raws[i].relative, raws[i].content);
      HasValidPath(node, raws[j].relative, raws[j].content);
      if PathKey(raws[i]) == PathKey(raws[j]) { PosixInjective(raws[i].relative, raws[j].relative); }
    }
  }

  /** However a tree's entries are enumerated, sorting them gives the canonical artifact. */
  lemma AnyEnumeration(node: Node, raws: seq<Raw>)
    requires Valid(node) && node.Directory? && Enumerates(raws, node)
    ensures Listing(ToEntries(Sort(raws, PathKey))) == Canonical(node)
  {
    FlattenEnumerates(node);
    EnumerationKeys(raws, node);
    EnumerationKeys(Flatten(node.children, []), node);
    SortSame(raws, Flatten(node.children, []), PathKey);
  }

  lemma SameKind(a: Node, b: Node)
    requires SameTree(a, b)
    ensures Kind(a) == Kind(b)
  {
    assert Has(a, [], Kind(a)) && Has(b, [], Kind(a));
  }

  /** Trees that differ only in listing order have one artifact. */
  lemma ListingOrderIrrelevant(a: Node, b: Node)
    requires Valid(a) && Valid(b) && SameTree(a, b)
    ensures Canonical(a) == Canonical(b)
  {
    SameKind(a, b);
    if a.Directory? {
      FlattenEnumerates(b);
      assert Enumerates(Flatten(b.children, []), a);
      AnyEnumeration(a, Flatten(b.children, []));
    }
  }

  lemma CanonicalHas(a: Node, rel: seq<Name>, content: Option<Bytes>)
    requires Valid(a) && a.Directory? && rel != [] && ValidPath(rel)
    ensures Has(a, rel, content) <==> Entry(Posix(rel), content) in Canonical(a).entries
  {
    var raws := Flatten(a.children, []);
    var sorted := Sort(raws, PathKey);
    FlattenEnumerates(a);
    SortElements(raws, PathKey);
    var e := Entry(Posix(rel), content);
    if e in ToEntries(sorted) {
      var i :| 0 <= i < |sorted| && ToEntries(sorted)[i] == e;
      assert sorted[i] in sorted;
      HasValidPath(a, sorted[i].relative, sorted[i].content);
      PosixInjective(sorted[i].relative, rel);
    }
    if Has(a, rel, content) {
      assert Raw(rel, content) in sorted;
      var i :| 0 <= i < |sorted| && sorted[i] == Raw(rel, content);
      assert ToEntries(sorted)[i] == e;
    }
  }

  /** Equal artifacts come from the same tree. */
  lemma ArtifactDeterminesTree(a: Node, b: Node)
    requires Valid(a) && Valid(b) && Canonical(a) == Canonical(b)
    ensures SameTree(a, b)
  {
    forall rel, content ensures Has(a, rel, content) <==> Has(b, rel, content) {
      if Has(a, rel, content) { HasValidPath(a, rel, content); }
      if Has(b, rel, content) { HasValidPath(b, rel, content); }
      if rel != [] && ValidPath(rel) && a.Directory? {
        CanonicalHas(a, rel, content);
        CanonicalHas(b, rel, content);
      }
    }
  }

  /**
    Unique decodability: two trees whose lengths fit eight bytes feed the digest the
    same bytes exactly when they hold the same paths, kinds and contents.
  */
  lemma StreamDeterminesTree(a: Node, b: Node)
    requires Valid(a) && Valid(b) && Small(Canonical(a)) && Small(Canonical(b))
    ensures Encode(Canonical(a)) == Encode(Canonical(b)) <==> SameTree(a, b)
  {
    if Encode(Canonical(a)) == Encode(Canonical(b)) {
      DecodeInverts(Canonical(a));
      DecodeInverts(Canonical(b));
      ArtifactDeterminesTree(a, b);
    }
    if SameTree(a, b) { ListingOrderIrrelevant(a, b); }
  }

  // ---------- The artifact, path by path ----------

  /** Components joined by a slash. */
  lemma {:induction false} PosixMeans(rel: seq<Name>, n: Name)
    ensures Posix([n]) == n
    ensures rel != [] ==> Posix(rel + [n]) == Posix(rel) + [47] + n
  {
    if |rel| > 1 {
      PosixMeans(rel[1..], n);
      assert (rel + [n])[1..] == rel[1..] + [n];
    } else if |rel| == 1 {
      assert (rel + [n])[1..] == [n];
    }
  }

  lemma RootMeans(node: Node, content: Option<Bytes>)
    ensures Has(node, [], content) <==> if content.Some? then node == File(content.value) else node.Directory?
  {
  }

  /** A directory's entries come in the byte order of their encoded paths. */
  lemma ListedInOrder(a: Node, i: int, j: int)
    requires Valid(a) && a.Directory? && 0 <= i < j < |Canonical(a).entries|
    ensures Less(Canonical(a).entries[i].path, Canonical(a).entries[j].path)
  {
    var raws := Flatten(a.children, []);
    FlattenEnumerates(a);
    EnumerationKeys(raws, a);
    SortAscending(raws, PathKey);
  }
}
