/** Names in ascending order, as the cluster keeps its members and a node its peers. */
module NameOrder {

  /** Lexicographic order. */
  predicate AtMost(a: string, b: string) {
    a == "" || (b != "" && (a[0] < b[0] || (a[0] == b[0] && AtMost(a[1..], b[1..]))))
  }

  predicate Ascending(names: seq<string>) {
    forall i, j :: 0 <= i < j < |names| ==> AtMost(names[i], names[j])
  }

  function Insert(names: seq<string>, x: string): seq<string> {
    if names == [] || AtMost(x, names[0]) then [x] + names else [names[0]] + Insert(names[1..], x)
  }

  function Sorted(names: seq<string>): seq<string> {
    if names == [] then [] else Insert(Sorted(names[..|names| - 1]), names[|names| - 1])
  }

  lemma SamePrefixSameFirst(a: string, b: string, i: nat)
    requires i <= |a| && i <= |b|
    ensures i > 0 && a[..i] == b[..i] ==> a[0] == b[0]
  {
    if i > 0 {
      assert a[..i][0] == a[0] && b[..i][0] == b[0];
    }
  }

  /** One name is a prefix of the other, or smaller where they first differ. */
  lemma {:induction false} FirstDifference(a: string, b: string)
    ensures AtMost(a, b) <==> a <= b || exists i: nat :: i < |a| && i < |b| && a[..i] == b[..i] && a[i] < b[i]
  {
    if a != "" && b != "" && a[0] == b[0] {
      FirstDifference(a[1..], b[1..]);
      assert a == [a[0]] + a[1..] && b == [b[0]] + b[1..];
      if i: nat :| i < |a[1..]| && i < |b[1..]| && a[1..][..i] == b[1..][..i] && a[1..][i] < b[1..][i] {
        assert a[..i + 1] == [a[0]] + a[1..][..i] && b[..i + 1] == [b[0]] + b[1..][..i];
        assert a[i + 1] < b[i + 1];
      }
      if i: nat :| i < |a| && i < |b| && a[..i] == b[..i] && a[i] < b[i] {
        assert a[1..][..i - 1] == a[..i][1..] && b[1..][..i - 1] == b[..i][1..];
        assert a[1..][i - 1] < b[1..][i - 1];
      }
    } else if a != "" && b != "" {
      assert a[..0] == b[..0];
      forall i: nat | i < |a| && i < |b| && a[..i] == b[..i] && a[i] < b[i]
        ensures i == 0
      {
        SamePrefixSameFirst(a, b, i);
      }
    }
  }

  lemma {:induction false} Comparable(a: string, b: string)
    ensures AtMost(a, b) || AtMost(b, a)
  {
    if a != "" && b != "" {
      Comparable(a[1..], b[1..]);
    }
  }

  lemma {:induction false} Transitive(a: string, b: string, c: string)
    requires AtMost(a, b) && AtMost(b, c)
    ensures AtMost(a, c)
  {
    if a != "" && a[0] == b[0] == c[0] {
      Transitive(a[1..], b[1..], c[1..]);
    }
  }

  lemma {:induction false} InsertAdds(names: seq<string>, x: string)
    ensures multiset(Insert(names, x)) == multiset(names) + multiset{x}
  {
    if names != [] && !AtMost(x, names[0]) {
      InsertAdds(names[1..], x);
      assert names == [names[0]] + names[1..];
    }
  }

  lemma {:induction false} InsertMembers(names: seq<string>, x: string, y: string)
    ensures y in Insert(names, x) <==> y in names || y == x
  {
    InsertAdds(names, x);
    assert y in Insert(names, x) <==> y in multiset(Insert(names, x));
    assert y in names <==> y in multiset(names);
  }

  lemma {:induction false} InsertAscends(names: seq<string>, x: string)
    requires Ascending(names)
    ensures Ascending(Insert(names, x))
  {
    if names != [] {
      var rest := names[1..];
      Comparable(x, names[0]);
      if AtMost(x, names[0]) {
        forall j | 0 <= j < |names|
          ensures AtMost(x, names[j])
        {
          if j > 0 {
            Transitive(x, names[0], names[j]);
          }
        }
      } else {
        InsertAscends(rest, x);
        forall j | 0 <= j < |Insert(rest, x)|
          ensures AtMost(names[0], Insert(rest, x)[j])
        {
          InsertMembers(rest, x, Insert(rest, x)[j]);
          var y := Insert(rest, x)[j];
          if y != x {
            var k :| 0 <= k < |rest| && rest[k] == y;
            assert AtMost(names[0], names[k + 1]);
          }
        }
      }
    }
  }

  /** Sorting is an ascending rearrangement. */
  lemma {:induction false} SortedLaws(names: seq<string>)
    ensures Ascending(Sorted(names)) && multiset(Sorted(names)) == multiset(names)
    ensures |Sorted(names)| == |names| && forall x :: x in Sorted(names) <==> x in names
  {
    if names != [] {
      var n := |names| - 1;
      SortedLaws(names[..n]);
      InsertAdds(Sorted(names[..n]), names[n]);
      InsertAscends(Sorted(names[..n]), names[n]);
      assert names == names[..n] + [names[n]];
    }
    assert |Sorted(names)| == |multiset(Sorted(names))|;
    assert forall x :: x in Sorted(names) <==> x in multiset(Sorted(names));
    assert forall x :: x in names <==> x in multiset(names);
  }

  predicate Distinct(names: seq<string>) {
    forall j, k :: 0 <= j < k < |names| ==> names[j] != names[k]
  }

  lemma {:induction false} InsertDistinct(names: seq<string>, x: string)
    requires Distinct(names) && x !in names
    ensures Distinct(Insert(names, x))
  {
    if names != [] && !AtMost(x, names[0]) {
      var rest := names[1..];
      InsertDistinct(rest, x);
      InsertMembers(rest, x, names[0]);
      assert names[0] !in Insert(rest, x);
    }
  }

  /** Sorting keeps distinct names distinct. */
  lemma {:induction false} SortedDistinct(names: seq<string>)
    requires Distinct(names)
    ensures Distinct(Sorted(names))
  {
    if names != [] {
      var n := |names| - 1;
      SortedDistinct(names[..n]);
      SortedLaws(names[..n]);
      InsertDistinct(Sorted(names[..n]), names[n]);
    }
  }
}
