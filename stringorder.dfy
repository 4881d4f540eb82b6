/**
 * Go's ordering of strings and `sort.Strings`, as used to give the drivers of a
 * registry their ordinal numbers: ordinal i is the i-th id in ascending order.
 */
module StringOrder {

  /**
   * Go's `<` on strings: lexicographic order of the encoded bytes. Byte order of UTF-8
   * coincides with code point order, so comparing characters gives the same answer.
   */
  predicate Less(a: string, b: string)
    decreases |a|
  {
    if a == [] then b != []
    else if b == [] then false
    else if a[0] != b[0] then a[0] < b[0]
    else Less(a[1..], b[1..])
  }

  lemma {:induction false} LessIrreflexive(a: string)
    ensures !Less(a, a)
    decreases |a|
  {
    if a != [] {
      LessIrreflexive(a[1..]);
    }
  }

  lemma {:induction false} LessTransitive(a: string, b: string, c: string)
    requires Less(a, b) && Less(b, c)
    ensures Less(a, c)
    decreases |a|
  {
    if a != [] && a[0] == b[0] && b[0] == c[0] {
      LessTransitive(a[1..], b[1..], c[1..]);
    }
  }

  lemma {:induction false} LessTotal(a: string, b: string)
    ensures a == b || Less(a, b) || Less(b, a)
    decreases |a|
  {
    if a != [] && b != [] && a[0] == b[0] {
      LessTotal(a[1..], b[1..]);
      if a[1..] == b[1..] {
        assert a == [a[0]] + a[1..] && b == [b[0]] + b[1..];
      }
    }
  }

  /** `Less` is a strict total order on strings. */
  lemma LessStrictTotalOrder(a: string, b: string, c: string)
    ensures !Less(a, a)
    ensures Less(a, b) ==> !Less(b, a)
    ensures Less(a, b) && Less(b, c) ==> Less(a, c)
    ensures a == b || Less(a, b) || Less(b, a)
  {
    LessIrreflexive(a);
    LessTotal(a, b);
    if Less(a, b) && Less(b, a) {
      LessTransitive(a, b, a);
    }
    if Less(a, b) && Less(b, c) {
      LessTransitive(a, b, c);
    }
  }

  function Elements(s: seq<string>): set<string>
  {
    set x | x in s
  }

  lemma ElementsEmpty(s: seq<string>)
    ensures Elements(s) == {} <==> s == []
  {
    if s != [] {
      assert s[0] in Elements(s);
    }
  }

  /** Ascending, duplicates allowed: what `sort.Strings` produces. */
  predicate Sorted(s: seq<string>)
  {
    forall i, j :: 0 <= i < j < |s| ==> !Less(s[j], s[i])
  }

  /** Ascending without duplicates. */
  predicate StrictlySorted(s: seq<string>)
  {
    forall i, j :: 0 <= i < j < |s| ==> Less(s[i], s[j])
  }

  predicate Distinct(s: seq<string>)
  {
    forall i, j :: 0 <= i < j < |s| ==> s[i] != s[j]
  }

  /** Insertion of one string into an ascending sequence. */
  function Insert(x: string, s: seq<string>): (r: seq<string>)
    requires Sorted(s)
    ensures Sorted(r)
    ensures multiset(r) == multiset(s) + multiset{x}
  {
    if s == [] then [x]
    else if !Less(s[0], x) then
      assert forall j :: 0 <= j < |s| ==> !Less(s[j], x) by {
        forall j | 0 <= j < |s| ensures !Less(s[j], x) {
          LessStrictTotalOrder(s[j], s[0], x);
          LessStrictTotalOrder(s[0], s[j], x);
          LessStrictTotalOrder(x, s[0], s[j]);
          LessStrictTotalOrder(s[j], x, s[0]);
        }
      }
      [x] + s
    else
      var tail := Insert(x, s[1..]);
      assert s == [s[0]] + s[1..];
      assert forall y :: y in tail ==> !Less(y, s[0]) by {
        forall y | y in tail ensures !Less(y, s[0]) {
          assert y in multiset(tail);
          if y != x {
            assert y in s[1..];
          } else {
            LessStrictTotalOrder(s[0], x, s[0]);
          }
        }
      }
      [s[0]] + tail
  }

  /** `sort.Strings`, as an insertion sort: ascending, and a permutation of its input. */
  function SortStrings(s: seq<string>): (r: seq<string>)
    ensures Sorted(r)
    ensures multiset(r) == multiset(s)
  {
    if s == [] then []
    else
      assert s == [s[0]] + s[1..];
      Insert(s[0], SortStrings(s[1..]))
  }

  lemma SortedDistinctIsStrict(s: seq<string>)
    requires Sorted(s) && Distinct(s)
    ensures StrictlySorted(s)
  {
    forall i, j | 0 <= i < j < |s| ensures Less(s[i], s[j]) {
      LessTotal(s[i], s[j]);
    }
  }

  lemma {:induction false} DistinctByMultiset(a: seq<string>, b: seq<string>)
    requires multiset(a) == multiset(b) && Distinct(a)
    ensures Distinct(b) && Elements(a) == Elements(b) && |a| == |b|
  {
    assert |a| == |multiset(a)| == |multiset(b)| == |b|;
    forall x ensures x in a <==> x in b {
      assert x in a <==> x in multiset(a);
      assert x in b <==> x in multiset(b);
    }
    forall i, j | 0 <= i < j < |b| ensures b[i] != b[j] {
      if b[i] == b[j] {
        MultiplicityAtLeastTwo(b, i, j);
        assert multiset(a)[b[i]] >= 2;
        DistinctMultiplicity(a, b[i]);
      }
    }
  }

  lemma {:induction false} MultiplicityAtLeastTwo(s: seq<string>, i: int, j: int)
    requires 0 <= i < j < |s| && s[i] == s[j]
    ensures multiset(s)[s[i]] >= 2
  {
    assert s == s[..j] + [s[j]] + s[j + 1..];
    assert multiset(s) == multiset(s[..j]) + multiset{s[j]} + multiset(s[j + 1..]);
    assert s[i] in s[..j];
  }

  lemma {:induction false} DistinctMultiplicity(s: seq<string>, x: string)
    requires Distinct(s)
    ensures multiset(s)[x] <= 1
    decreases |s|
  {
    if s != [] {
      assert s == [s[0]] + s[1..];
      DistinctMultiplicity(s[1..], x);
      if x == s[0] {
        assert x !in s[1..];
      }
    }
  }

  /** A strictly ascending sequence is determined by its elements. */
  lemma {:induction false} StrictlySortedUnique(a: seq<string>, b: seq<string>)
    requires StrictlySorted(a) && StrictlySorted(b) && Elements(a) == Elements(b)
    ensures a == b
    decreases |a|
  {
    ElementsEmpty(a);
    ElementsEmpty(b);
    if a != [] && b != [] {
      assert a[0] in Elements(b) && b[0] in Elements(a);
      assert a[0] == b[0] by {
        var i :| 0 <= i < |b| && b[i] == a[0];
        var j :| 0 <= j < |a| && a[j] == b[0];
        if i > 0 && j > 0 {
          assert Less(b[0], b[i]) && Less(a[0], a[j]);
          LessStrictTotalOrder(a[0], b[0], a[0]);
        }
      }
      forall x ensures x in a[1..] <==> x in b[1..] {
        if x in a[1..] {
          var k :| 1 <= k < |a| && a[k] == x;
          assert x in Elements(a);
          var m :| 0 <= m < |b| && b[m] == x;
          assert m != 0 by {
            assert Less(a[0], a[k]);
            LessIrreflexive(a[0]);
          }
          assert x == b[1..][m - 1];
        }
        if x in b[1..] {
          var k :| 1 <= k < |b| && b[k] == x;
          assert x in Elements(b);
          var m :| 0 <= m < |a| && a[m] == x;
          assert m != 0 by {
            assert Less(b[0], b[k]);
            LessIrreflexive(b[0]);
          }
          assert x == a[1..][m - 1];
        }
      }
      StrictlySortedUnique(a[1..], b[1..]);
      assert a == [a[0]] + a[1..] && b == [b[0]] + b[1..];
    }
  }

  predicate IsMinimum(m: string, keys: set<string>)
  {
    m in keys && forall x :: x in keys ==> !Less(x, m)
  }

  lemma {:induction false} MinimumExists(keys: set<string>)
    requires keys != {}
    ensures exists m :: IsMinimum(m, keys)
    decreases |keys|
  {
    var x :| x in keys;
    if keys == {x} {
      LessIrreflexive(x);
      assert IsMinimum(x, keys);
    } else {
      MinimumExists(keys - {x});
      var y :| IsMinimum(y, keys - {x});
      LessTotal(x, y);
      if Less(x, y) {
        forall z | z in keys ensures !Less(z, x) {
          if z != x {
            LessStrictTotalOrder(z, x, y);
            LessStrictTotalOrder(z, y, x);
            LessStrictTotalOrder(x, y, z);
          } else {
            LessIrreflexive(x);
          }
        }
        assert IsMinimum(x, keys);
      } else {
        forall z | z in keys ensures !Less(z, y) {
          if z == x {
            LessStrictTotalOrder(y, x, y);
          }
        }
        assert IsMinimum(y, keys);
      }
    }
  }

  lemma ConsStrictlySorted(m: string, rest: seq<string>)
    requires StrictlySorted(rest)
    requires forall y :: y in rest ==> Less(m, y)
    ensures StrictlySorted([m] + rest)
  {
    var r := [m] + rest;
    forall i, j | 0 <= i < j < |r| ensures Less(r[i], r[j]) {
      if i == 0 {
        assert r[j] == rest[j - 1];
      } else {
        assert r[i] == rest[i - 1] && r[j] == rest[j - 1];
      }
    }
  }

  lemma MinimumBelowRest(m: string, keys: set<string>, rest: seq<string>)
    requires IsMinimum(m, keys)
    requires Elements(rest) == keys - {m}
    ensures forall y :: y in rest ==> Less(m, y)
  {
    forall y | y in rest ensures Less(m, y) {
      assert y in Elements(rest);
      LessTotal(m, y);
    }
  }

  /** The ids of a set in ascending order: the position of an id is its ordinal number. */
  ghost function SortedListing(keys: set<string>): (r: seq<string>)
    ensures StrictlySorted(r)
    ensures Elements(r) == keys
    ensures |r| == |keys|
    decreases |keys|
  {
    if keys == {} then []
    else
      MinimumExists(keys);
      var m :| IsMinimum(m, keys);
      var rest := SortedListing(keys - {m});
      MinimumBelowRest(m, keys, rest);
      ConsStrictlySorted(m, rest);
      assert Elements([m] + rest) == {m} + Elements(rest);
      [m] + rest
  }

  /** Sorting the distinct ids of a set, in any order, yields the ascending listing of that set. */
  lemma SortDistinctIsListing(s: seq<string>)
    requires Distinct(s)
    ensures SortStrings(s) == SortedListing(Elements(s))
  {
    var r := SortStrings(s);
    DistinctByMultiset(s, r);
    SortedDistinctIsStrict(r);
    StrictlySortedUnique(r, SortedListing(Elements(s)));
  }

  lemma RemoveAtStrictlySorted(full: seq<string>, p: int)
    requires StrictlySorted(full) && 0 <= p < |full|
    ensures StrictlySorted(full[..p] + full[p + 1..])
    ensures Elements(full[..p] + full[p + 1..]) == Elements(full) - {full[p]}
  {
    var rest := full[..p] + full[p + 1..];
    assert forall k :: 0 <= k < |rest| ==> rest[k] == full[if k < p then k else k + 1];
    forall i, j | 0 <= i < j < |rest| ensures Less(rest[i], rest[j]) {
      var fi := if i < p then i else i + 1;
      var fj := if j < p then j else j + 1;
      assert rest[i] == full[fi] && rest[j] == full[fj];
    }
    forall y ensures y in rest <==> y in full && y != full[p] {
      if y in rest {
        var k :| 0 <= k < |rest| && rest[k] == y;
        var fk := if k < p then k else k + 1;
        assert full[fk] == y && fk != p;
        if fk < p {
          assert Less(full[fk], full[p]);
        } else {
          assert Less(full[p], full[fk]);
        }
        LessIrreflexive(y);
      }
      if y in full && y != full[p] {
        var k :| 0 <= k < |full| && full[k] == y;
        assert k != p;
        assert y == rest[if k < p then k else k - 1];
      }
    }
  }

  /**
   * Removing one id shifts every later ordinal down by one and leaves earlier
   * ordinals as they were.
   */
  lemma RemovalShiftsOrdinals(keys: set<string>, x: string)
    requires x in keys
    ensures exists p :: (0 <= p < |SortedListing(keys)| && SortedListing(keys)[p] == x &&
      SortedListing(keys - {x}) == SortedListing(keys)[..p] + SortedListing(keys)[p + 1..])
  {
    var full := SortedListing(keys);
    assert x in Elements(full);
    var p :| 0 <= p < |full| && full[p] == x;
    RemoveAtStrictlySorted(full, p);
    StrictlySortedUnique(full[..p] + full[p + 1..], SortedListing(keys - {x}));
  }
}
