/**
  The lexicographic order of Python's strings and byte strings, insertion into a
  sorted list, and the fact that a strictly ascending list is determined by its elements.
*/
module Ordering {
  predicate Less(a: seq<int>, b: seq<int>) {
    if b == [] then false
    else if a == [] then true
    else a[0] < b[0] || (a[0] == b[0] && Less(a[1..], b[1..]))
  }

  lemma Irreflexive(a: seq<int>)
    ensures !Less(a, a)
  {
  }

  lemma Transitive(a: seq<int>, b: seq<int>, c: seq<int>)
    requires Less(a, b) && Less(b, c)
    ensures Less(a, c)
  {
  }

  lemma {:induction false} Total(a: seq<int>, b: seq<int>)
    ensures Less(a, b) || a == b || Less(b, a)
  {
    if a != [] && b != [] && a[0] == b[0] {
      Total(a[1..], b[1..]);
      assert a == [a[0]] + a[1..] && b == [b[0]] + b[1..];
    }
  }

  /** A common prefix does not change the order. */
  lemma {:induction false} CommonPrefix(p: seq<int>, a: seq<int>, b: seq<int>)
    ensures Less(p + a, p + b) == Less(a, b)
  {
    if p == [] {
      assert p + a == a && p + b == b;
    } else {
      CommonPrefix(p[1..], a, b);
      assert (p + a)[1..] == p[1..] + a && (p + b)[1..] == p[1..] + b;
    }
  }

  // ---------- Sorting by a key ----------

  ghost predicate Ascending<T(!new)>(s: seq<T>, key: T -> seq<int>) {
    forall i, j :: 0 <= i < j < |s| ==> Less(key(s[i]), key(s[j]))
  }

  function Insert<T>(x: T, s: seq<T>, key: T -> seq<int>): seq<T> {
    if s == [] || Less(key(x), key(s[0])) then [x] + s else [s[0]] + Insert(x, s[1..], key)
  }

  /** The list sorted by its keys. */
  function Sort<T>(s: seq<T>, key: T -> seq<int>): seq<T> {
    if s == [] then [] else Insert(s[0], Sort(s[1..], key), key)
  }

  lemma {:induction false} InsertElements<T(!new)>(x: T, s: seq<T>, key: T -> seq<int>)
    ensures forall y :: y in Insert(x, s, key) <==> y == x || y in s
  {
    if s != [] && !Less(key(x), key(s[0])) {
      InsertElements(x, s[1..], key);
      assert s == [s[0]] + s[1..];
    }
  }

  lemma InsertAscending<T(!new)>(x: T, s: seq<T>, key: T -> seq<int>)
    requires Ascending(s, key) && forall y :: y in s ==> key(y) != key(x)
    ensures Ascending(Insert(x, s, key), key)
  {
    if s == [] {
    } else if Less(key(x), key(s[0])) {
      forall j | 0 <= j < |s| ensures Less(key(x), key(s[j])) {
        if j > 0 { Transitive(key(x), key(s[0]), key(s[j])); }
      }
    } else {
      var rest := Insert(x, s[1..], key);
      InsertAscending(x, s[1..], key);
      InsertElements(x, s[1..], key);
      assert s[0] in s;
      Total(key(x), key(s[0]));
      forall j | 0 <= j < |rest| ensures Less(key(s[0]), key(rest[j])) {
        assert rest[j] in rest;
      }
    }
  }

  ghost predicate DistinctKeys<T(!new)>(s: seq<T>, key: T -> seq<int>) {
    forall i, j :: 0 <= i < j < |s| ==> key(s[i]) != key(s[j])
  }

  lemma SortElements<T(!new)>(s: seq<T>, key: T -> seq<int>)
    ensures forall y :: y in Sort(s, key) <==> y in s
  {
    if s != [] {
      SortElements(s[1..], key);
      InsertElements(s[0], Sort(s[1..], key), key);
      assert s == [s[0]] + s[1..];
    }
  }

  lemma SortAscending<T(!new)>(s: seq<T>, key: T -> seq<int>)
    requires DistinctKeys(s, key)
    ensures Ascending(Sort(s, key), key)
  {
    if s != [] {
      SortAscending(s[1..], key);
      SortElements(s[1..], key);
      InsertAscending(s[0], Sort(s[1..], key), key);
    }
  }

  lemma HeadMember<T>(s: seq<T>)
    ensures s != [] ==> s[0] in s
  {
  }

  /** The head of an ascending list is below everything else in it. */
  lemma HeadLeast<T(!new)>(s: seq<T>, key: T -> seq<int>, y: T)
    requires Ascending(s, key) && s != [] && y in s && y != s[0]
    ensures Less(key(s[0]), key(y)) && y in s[1..]
  {
  }

  /** Two strictly ascending lists with the same elements are the same list. */
  lemma AscendingUnique<T(!new)>(a: seq<T>, b: seq<T>, key: T -> seq<int>)
    requires Ascending(a, key) && Ascending(b, key)
    requires forall y :: y in a <==> y in b
    ensures a == b
  {
    if a == [] {
      HeadMember(b);
    } else {
      assert a[0] in b;
      assert b[0] in a;
      if a[0] != b[0] {
        HeadLeast(a, key, b[0]);
        HeadLeast(b, key, a[0]);
        Transitive(key(a[0]), key(b[0]), key(a[0]));
        Irreflexive(key(a[0]));
      }
      forall y | y in a[1..] ensures y in b[1..] { TailElement(a, b, key, y); }
      forall y | y in b[1..] ensures y in a[1..] { TailElement(b, a, key, y); }
      AscendingUnique(a[1..], b[1..], key);
    }
  }

  lemma TailElement<T(!new)>(a: seq<T>, b: seq<T>, key: T -> seq<int>, y: T)
    requires Ascending(a, key) && Ascending(b, key) && a != [] && b != [] && a[0] == b[0]
    requires y in a[1..] && forall z :: z in a ==> z in b
    ensures y in b[1..]
  {
    var j :| 0 <= j < |a[1..]| && a[1..][j] == y;
    assert y == a[j + 1] && Less(key(a[0]), key(y));
    Irreflexive(key(y));
    HeadLeast(b, key, y);
  }

  // ---------- Permutations ----------

  lemma HeadNotInTail<T(!new)>(s: seq<T>, key: T -> seq<int>)
    requires DistinctKeys(s, key) && s != []
    ensures s[0] !in s[1..]
  {
  }

  lemma CountDistinct<T(!new)>(s: seq<T>, key: T -> seq<int>, x: T)
    requires DistinctKeys(s, key)
    ensures multiset(s)[x] <= 1
  {
    if s != [] {
      assert s == [s[0]] + s[1..];
      CountDistinct(s[1..], key, x);
      HeadNotInTail(s, key);
    }
  }

  lemma CountTwice<T>(s: seq<T>, i: nat, j: nat)
    requires i < j < |s| && s[i] == s[j]
    ensures multiset(s)[s[i]] >= 2
  {
    assert s == s[..j] + s[j..];
    assert s[..j][i] in multiset(s[..j]);
    assert s[j..][0] in multiset(s[j..]);
  }

  lemma PermutationDistinct<T(!new)>(a: seq<T>, b: seq<T>, key: T -> seq<int>)
    requires multiset(a) == multiset(b) && DistinctKeys(a, key)
    ensures DistinctKeys(b, key)
    ensures forall x :: x in b <==> x in a
  {
    forall x ensures x in b <==> x in a { assert x in multiset(a) <==> x in multiset(b); }
    forall i, j | 0 <= i < j < |b| ensures key(b[i]) != key(b[j]) {
      assert b[i] in a && b[j] in a;
      if b[i] == b[j] {
        CountTwice(b, i, j);
        CountDistinct(a, key, b[i]);
      }
    }
  }

  /** Sorting forgets the order in which the elements came. */
  lemma SortPermutation<T(!new)>(a: seq<T>, b: seq<T>, key: T -> seq<int>)
    requires multiset(a) == multiset(b) && DistinctKeys(a, key)
    ensures Sort(a, key) == Sort(b, key)
  {
    PermutationDistinct(a, b, key);
    SortSame(a, b, key);
  }

  lemma SortSame<T(!new)>(a: seq<T>, b: seq<T>, key: T -> seq<int>)
    requires DistinctKeys(a, key) && DistinctKeys(b, key) && forall x :: x in a <==> x in b
    ensures Sort(a, key) == Sort(b, key)
  {
    SortAscending(a, key);
    SortAscending(b, key);
    SortElements(a, key);
    SortElements(b, key);
    AscendingUnique(Sort(a, key), Sort(b, key), key);
  }

  // ---------- The order, place by place ----------

  /** Equal up to this place, and less there. */
  ghost predicate LessAt(a: seq<int>, b: seq<int>, k: int) { 0 <= k < |a| && k < |b| && a[..k] == b[..k] && a[k] < b[k] }

  /** The first difference decides, and a proper prefix comes first. */
  lemma {:induction false} LessMeans(a: seq<int>, b: seq<int>)
    ensures Less(a, b) <==> (exists k :: LessAt(a, b, k)) || (|a| < |b| && a == b[..|a|])
  {
    if a != [] && b != [] {
      LessMeans(a[1..], b[1..]);
      if a[0] < b[0] { assert LessAt(a, b, 0); }
      if k :| LessAt(a[1..], b[1..], k) && a[0] == b[0] {
        assert a[..k + 1] == [a[0]] + a[1..][..k] && b[..k + 1] == [b[0]] + b[1..][..k];
        assert LessAt(a, b, k + 1);
      }
      if k :| LessAt(a, b, k) && k > 0 {
        assert a[1..][..k - 1] == a[..k][1..] && b[1..][..k - 1] == b[..k][1..];
        assert a[0] == a[..k][0] == b[..k][0] == b[0];
        assert LessAt(a[1..], b[1..], k - 1);
      }
      if |a| < |b| {
        assert a == [a[0]] + a[1..] && b[..|a|] == [b[0]] + b[1..][..|a| - 1];
      }
    }
  }
}
