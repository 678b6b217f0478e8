/**
 * Go's ordering of strings, sort.Strings and sort.SearchStrings, as used by
 * node discovery to look roles up in a sorted copy of a node's role list.
 */
module StringSort {

  /**
   * Go's a <= b on strings. Go compares the UTF-8 bytes, which orders
   * strings the same way as comparing their code points one by one.
   */
  predicate AtMost(a: string, b: string)
    decreases |a|
  {
    a == [] || (b != [] && (a[0] < b[0] || (a[0] == b[0] && AtMost(a[1..], b[1..]))))
  }

  lemma {:induction false} AtMostReflexive(a: string)
    ensures AtMost(a, a)
    decreases |a|
  {
    if a != [] {
      AtMostReflexive(a[1..]);
    }
  }

  lemma {:induction false} AtMostTotal(a: string, b: string)
    ensures AtMost(a, b) || AtMost(b, a)
    decreases |a|
  {
    if a != [] && b != [] && a[0] == b[0] {
      AtMostTotal(a[1..], b[1..]);
    }
  }

  lemma {:induction false} AtMostAntisymmetric(a: string, b: string)
    requires AtMost(a, b) && AtMost(b, a)
    ensures a == b
    decreases |a|
  {
    if a != [] {
      AtMostAntisymmetric(a[1..], b[1..]);
      assert a == [a[0]] + a[1..] && b == [b[0]] + b[1..];
    }
  }

  lemma {:induction false} AtMostTransitive(a: string, b: string, c: string)
    requires AtMost(a, b) && AtMost(b, c)
    ensures AtMost(a, c)
    decreases |a|
  {
    if a != [] && a[0] == b[0] && b[0] == c[0] {
      AtMostTransitive(a[1..], b[1..], c[1..]);
    }
  }

  predicate Sorted(s: seq<string>)
  {
    forall i, j :: 0 <= i < j < |s| ==> AtMost(s[i], s[j])
  }

  /** Places x before the first element it does not exceed. */
  function Insert(x: string, s: seq<string>): seq<string>
  {
    if s == [] then [x]
    else if AtMost(x, s[0]) then [x] + s
    else [s[0]] + Insert(x, s[1..])
  }

  /** sort.Strings, on a copy: the roles in increasing order. */
  function Sort(s: seq<string>): seq<string>
  {
    if s == [] then [] else Insert(s[0], Sort(s[1..]))
  }

  lemma {:induction false} InsertPermutes(x: string, s: seq<string>)
    ensures multiset(Insert(x, s)) == multiset(s) + multiset{x}
  {
    if s != [] && !AtMost(x, s[0]) {
      InsertPermutes(x, s[1..]);
      assert s == [s[0]] + s[1..];
    }
  }

  lemma {:induction false} InsertSorted(x: string, s: seq<string>)
    requires Sorted(s)
    ensures Sorted(Insert(x, s))
  {
    if s == [] {
    } else if AtMost(x, s[0]) {
      forall j | 1 <= j < |s| + 1
        ensures AtMost(x, ([x] + s)[j])
      {
        if j > 1 {
          AtMostTransitive(x, s[0], s[j - 1]);
        }
      }
    } else {
      var tail := Insert(x, s[1..]);
      InsertSorted(x, s[1..]);
      InsertPermutes(x, s[1..]);
      AtMostTotal(x, s[0]);
      forall j | 0 <= j < |tail|
        ensures AtMost(s[0], tail[j])
      {
        assert tail[j] in multiset(tail);
        if tail[j] != x {
          assert tail[j] in multiset(s[1..]);
          var k :| 0 <= k < |s[1..]| && s[1..][k] == tail[j];
          assert s[k + 1] == tail[j];
        }
      }
    }
  }

  /** Sorting orders the strings and keeps exactly the same strings. */
  lemma {:induction false} SortCorrect(s: seq<string>)
    ensures Sorted(Sort(s))
    ensures multiset(Sort(s)) == multiset(s)
  {
    if s != [] {
      SortCorrect(s[1..]);
      InsertSorted(s[0], Sort(s[1..]));
      InsertPermutes(s[0], Sort(s[1..]));
      assert s == [s[0]] + s[1..];
    }
  }

  /**
   * sort.Search over [lo, hi) for the predicate "a[h] >= x": the binary
   * search of sort.SearchStrings, halving at (lo + hi) / 2.
   */
  function SearchFrom(a: seq<string>, x: string, lo: nat, hi: nat): nat
    requires lo <= hi <= |a|
    decreases hi - lo
  {
    if lo < hi then
      var h := (lo + hi) / 2;
      if !AtMost(x, a[h]) then SearchFrom(a, x, h + 1, hi) else SearchFrom(a, x, lo, h)
    else lo
  }

  /** sort.SearchStrings(a, x). */
  function SearchStrings(a: seq<string>, x: string): nat
  {
    SearchFrom(a, x, 0, |a|)
  }

  /** On a sorted slice the search returns the first index whose string is at least x. */
  lemma {:induction false} SearchFromBounds(a: seq<string>, x: string, lo: nat, hi: nat)
    requires Sorted(a)
    requires lo <= hi <= |a|
    requires forall k :: 0 <= k < lo ==> !AtMost(x, a[k])
    requires forall k :: hi <= k < |a| ==> AtMost(x, a[k])
    ensures lo <= SearchFrom(a, x, lo, hi) <= hi
    ensures forall k :: 0 <= k < SearchFrom(a, x, lo, hi) ==> !AtMost(x, a[k])
    ensures forall k :: SearchFrom(a, x, lo, hi) <= k < |a| ==> AtMost(x, a[k])
    decreases hi - lo
  {
    if lo < hi {
      var h := (lo + hi) / 2;
      if !AtMost(x, a[h]) {
        forall k | lo <= k <= h
          ensures !AtMost(x, a[k])
        {
          if k < h && AtMost(x, a[k]) {
            AtMostTransitive(x, a[k], a[h]);
          }
        }
        SearchFromBounds(a, x, h + 1, hi);
      } else {
        forall k | h <= k < hi
          ensures AtMost(x, a[k])
        {
          if h < k {
            AtMostTransitive(x, a[h], a[k]);
          }
        }
        SearchFromBounds(a, x, lo, h);
      }
    }
  }

  /**
   * Looking a role up in the sorted copy with SearchStrings finds it exactly
   * when the role occurs in the original list, whatever its order and
   * duplicates.
   */
  lemma SearchSortedFinds(roles: seq<string>, r: string)
    ensures var s := Sort(roles);
      var i := SearchStrings(s, r);
      (i < |s| && s[i] == r) <==> r in roles
  {
    var s := Sort(roles);
    SortCorrect(roles);
    SearchFromBounds(s, r, 0, |s|);
    var i := SearchStrings(s, r);
    assert forall y :: y in s <==> y in roles by {
      forall y ensures y in s <==> y in roles {
        assert y in s <==> y in multiset(s);
        assert y in roles <==> y in multiset(roles);
      }
    }
    if r in roles {
      var k :| 0 <= k < |s| && s[k] == r;
      AtMostReflexive(r);
      assert i <= k;
      if i < k {
        AtMostAntisymmetric(s[i], r);
      }
    }
  }
}
