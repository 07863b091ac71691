/**
 * The ordering of CAA values: `sorted(records, key=itemgetter('Value'))`.
 * Python orders strings by code point, lexicographically; any two lists of
 * records with the same elements sort to the same list.
 */
module CaaOrder {
  import opened RecordSets

  /** Python's `a <= b` on strings. */
  predicate LexLeq(a: string, b: string)
    decreases |a|
  {
    |a| == 0 || (|b| > 0 && (a[0] < b[0] || (a[0] == b[0] && LexLeq(a[1..], b[1..]))))
  }

  lemma {:induction false} LexLeqTotal(a: string, b: string)
    ensures LexLeq(a, b) || LexLeq(b, a)
    decreases |a|
  {
    if |a| > 0 && |b| > 0 && a[0] == b[0] {
      LexLeqTotal(a[1..], b[1..]);
    }
  }

  lemma {:induction false} LexLeqAntisymmetric(a: string, b: string)
    requires LexLeq(a, b) && LexLeq(b, a)
    ensures a == b
    decreases |a|
  {
    if |a| > 0 {
      assert |b| > 0 && a[0] == b[0];
      LexLeqAntisymmetric(a[1..], b[1..]);
      assert a == [a[0]] + a[1..] && b == [b[0]] + b[1..];
    }
  }

  lemma {:induction false} LexLeqTransitive(a: string, b: string, c: string)
    requires LexLeq(a, b) && LexLeq(b, c)
    ensures LexLeq(a, c)
    decreases |a|
  {
    if |a| > 0 && a[0] == b[0] && b[0] == c[0] {
      LexLeqTransitive(a[1..], b[1..], c[1..]);
    }
  }

  predicate ValueLeq(x: ResourceRecord, y: ResourceRecord) {
    LexLeq(x.value, y.value)
  }

  predicate SortedByValue(s: seq<ResourceRecord>) {
    forall i, j :: 0 <= i < j < |s| ==> ValueLeq(s[i], s[j])
  }

  function InsertByValue(x: ResourceRecord, s: seq<ResourceRecord>): seq<ResourceRecord>
    decreases |s|
  {
    if |s| == 0 then [x]
    else if ValueLeq(x, s[0]) then [x] + s
    else [s[0]] + InsertByValue(x, s[1..])
  }

  lemma {:induction false} InsertPermutes(x: ResourceRecord, s: seq<ResourceRecord>)
    ensures multiset(InsertByValue(x, s)) == multiset(s) + multiset{x}
    decreases |s|
  {
    if |s| > 0 {
      assert s == [s[0]] + s[1..];
      if !ValueLeq(x, s[0]) {
        InsertPermutes(x, s[1..]);
      }
    }
  }

  /** Every element of a sorted list is at least its head. */
  lemma HeadIsLeast(s: seq<ResourceRecord>, y: ResourceRecord)
    requires SortedByValue(s) && |s| > 0 && y in s
    ensures ValueLeq(s[0], y)
  {
    var k :| 0 <= k < |s| && s[k] == y;
    if k == 0 {
      LexLeqTotal(y.value, y.value);
    }
  }

  lemma {:induction false} InsertSorted(x: ResourceRecord, s: seq<ResourceRecord>)
    requires SortedByValue(s)
    ensures SortedByValue(InsertByValue(x, s))
    decreases |s|
  {
    if |s| == 0 {
    } else if ValueLeq(x, s[0]) {
      var r := [x] + s;
      forall i, j | 0 <= i < j < |r| ensures ValueLeq(r[i], r[j]) {
        if i == 0 && j > 1 {
          LexLeqTransitive(x.value, s[0].value, s[j - 1].value);
        }
      }
    } else {
      LexLeqTotal(x.value, s[0].value);
      InsertSorted(x, s[1..]);
      InsertPermutes(x, s[1..]);
      var t := InsertByValue(x, s[1..]);
      forall y | y in t ensures ValueLeq(s[0], y) {
        assert y in multiset(t);
        if y != x {
          assert y in multiset(s[1..]);
          HeadIsLeast(s, y);
        }
      }
      var r := [s[0]] + t;
      forall i, j | 0 <= i < j < |r| ensures ValueLeq(r[i], r[j]) {
        if i == 0 {
          assert r[j] == t[j - 1] && t[j - 1] in t;
        } else {
          assert r[i] == t[i - 1] && r[j] == t[j - 1];
        }
      }
    }
  }

  /** Insertion sort by `Value`: a sorted permutation of its input. */
  function SortByValue(s: seq<ResourceRecord>): (r: seq<ResourceRecord>)
    ensures SortedByValue(r)
    ensures multiset(r) == multiset(s)
    decreases |s|
  {
    if |s| == 0 then []
    else
      var rest := SortByValue(s[1..]);
      InsertSorted(s[0], rest);
      InsertPermutes(s[0], rest);
      assert s == [s[0]] + s[1..];
      InsertByValue(s[0], rest)
  }

  /** Two sorted lists with the same elements are the same list. */
  lemma {:induction false} SortedUnique(a: seq<ResourceRecord>, b: seq<ResourceRecord>)
    requires SortedByValue(a) && SortedByValue(b)
    requires multiset(a) == multiset(b)
    ensures a == b
    decreases |a|
  {
    if |a| == 0 {
      assert |b| == |multiset(b)| == 0;
    } else {
      assert |b| == |multiset(b)| == |multiset(a)| == |a|;
      assert a[0] in multiset(b);
      var j :| 0 <= j < |b| && b[j] == a[0];
      assert b[0] in multiset(a);
      var i :| 0 <= i < |a| && a[i] == b[0];
      LexLeqTotal(a[0].value, a[0].value);
      LexLeqTotal(b[0].value, b[0].value);
      assert ValueLeq(b[0], a[0]);
      assert ValueLeq(a[0], b[0]);
      LexLeqAntisymmetric(a[0].value, b[0].value);
      assert a == [a[0]] + a[1..] && b == [b[0]] + b[1..];
      assert multiset(a) == multiset{a[0]} + multiset(a[1..]);
      assert multiset(b) == multiset{b[0]} + multiset(b[1..]);
      assert a[0] == ResourceRecord(a[0].value) == b[0];
      assert multiset(a[1..]) == multiset(a) - multiset{a[0]};
      assert multiset(b[1..]) == multiset(b) - multiset{b[0]};
      SortedUnique(a[1..], b[1..]);
    }
  }

  /** The sort is canonical: its result depends only on the multiset of its input. */
  lemma SortByValueCanonical(s: seq<ResourceRecord>, t: seq<ResourceRecord>)
    requires multiset(s) == multiset(t)
    ensures SortByValue(s) == SortByValue(t)
  {
    SortedUnique(SortByValue(s), SortByValue(t));
  }
}
