/**
 * The category axis of the bubble chart: the x values of the points, made
 * unique, sorted ascending with the comparator `a - b`, and mapped through
 * the `label` option.
 */
module Categories {

  /** The values occurring in a sequence. */
  function Elements(s: seq<real>): set<real>
  {
    set x | x in s
  }

  lemma NonEmptyElements(s: seq<real>)
    ensures s != [] <==> Elements(s) != {}
  {
    if s != [] { assert s[0] in Elements(s); }
  }

  ghost predicate NoDuplicates(s: seq<real>)
  {
    forall i, j :: 0 <= i < j < |s| ==> s[i] != s[j]
  }

  ghost predicate Sorted(s: seq<real>)
  {
    forall i, j :: 0 <= i < j < |s| ==> s[i] <= s[j]
  }

  ghost predicate StrictlyAscending(s: seq<real>)
  {
    forall i, j :: 0 <= i < j < |s| ==> s[i] < s[j]
  }

  /**
   * `helpers.unique`: keeps the first occurrence of every value, in order.
   * The result holds exactly the input's values, each once.
   */
  function Unique(xs: seq<real>): (r: seq<real>)
    ensures Elements(r) == Elements(xs)
    ensures NoDuplicates(r)
    ensures |r| <= |xs|
  {
    if xs == [] then []
    else
      var init := xs[..|xs| - 1];
      var last := xs[|xs| - 1];
      var u := Unique(init);
      assert xs == init + [last];
      assert Elements(xs) == Elements(init) + {last};
      if last in u then u
      else
        assert Elements(u + [last]) == Elements(u) + {last};
        u + [last]
  }

  /** Inserts `x` into an ascending sequence, before the first element not below it. */
  function Insert(x: real, s: seq<real>): (r: seq<real>)
    ensures multiset(r) == multiset(s) + multiset{x}
    ensures |r| == |s| + 1
  {
    if s == [] then [x]
    else if x <= s[0] then [x] + s
    else
      assert s == [s[0]] + s[1..];
      [s[0]] + Insert(x, s[1..])
  }

  lemma InsertElements(x: real, s: seq<real>)
    ensures forall y :: y in Insert(x, s) <==> y == x || y in s
  {
  }

  /** Prepending a value no greater than every element keeps a sequence ascending. */
  lemma SortedCons(h: real, t: seq<real>)
    requires Sorted(t) && forall y :: y in t ==> h <= y
    ensures Sorted([h] + t)
  {
    var s := [h] + t;
    forall i, j | 0 <= i < j < |s| ensures s[i] <= s[j] {
      if i > 0 { assert s[i] == t[i - 1] && s[j] == t[j - 1]; }
      else { assert s[j] == t[j - 1] && s[j] in t; }
    }
  }

  /** Prepending a value below every element keeps a sequence strictly ascending. */
  lemma StrictCons(h: real, t: seq<real>)
    requires StrictlyAscending(t) && forall y :: y in t ==> h < y
    ensures StrictlyAscending([h] + t)
  {
    var s := [h] + t;
    forall i, j | 0 <= i < j < |s| ensures s[i] < s[j] {
      if i > 0 { assert s[i] == t[i - 1] && s[j] == t[j - 1]; }
      else { assert s[j] == t[j - 1] && s[j] in t; }
    }
  }

  /** Inserting into an ascending sequence keeps it ascending. */
  lemma {:induction false} InsertSorted(x: real, s: seq<real>)
    requires Sorted(s)
    ensures Sorted(Insert(x, s))
    ensures StrictlyAscending(s) && x !in s ==> StrictlyAscending(Insert(x, s))
  {
    if s == [] {
    } else if x <= s[0] {
      assert forall y :: y in s ==> x <= y by {
        forall y | y in s ensures x <= y {
          var k :| 0 <= k < |s| && s[k] == y;
          assert k == 0 || s[0] <= s[k];
        }
      }
      SortedCons(x, s);
      if StrictlyAscending(s) && x !in s {
        assert forall y :: y in s ==> x < y;
        StrictCons(x, s);
      }
    } else {
      var t := Insert(x, s[1..]);
      assert s == [s[0]] + s[1..];
      assert Sorted(s[1..]);
      InsertSorted(x, s[1..]);
      InsertElements(x, s[1..]);
      assert forall y :: y in s[1..] ==> s[0] <= y by {
        forall y | y in s[1..] ensures s[0] <= y {
          var k :| 0 <= k < |s[1..]| && s[1..][k] == y;
          assert s[1..][k] == s[k + 1];
        }
      }
      SortedCons(s[0], t);
      if StrictlyAscending(s) && x !in s {
        assert StrictlyAscending(s[1..]) && x !in s[1..];
        assert forall y :: y in s[1..] ==> s[0] < y by {
          forall y | y in s[1..] ensures s[0] < y {
            var k :| 0 <= k < |s[1..]| && s[1..][k] == y;
            assert s[1..][k] == s[k + 1];
          }
        }
        StrictCons(s[0], t);
      }
    }
  }

  /**
   * `Array.prototype.sort` with the numeric comparator `a - b`: an ascending
   * permutation of the input; strictly ascending when the input has no
   * duplicates.
   */
  function SortAscending(s: seq<real>): (r: seq<real>)
    ensures multiset(r) == multiset(s)
    ensures Sorted(r)
    ensures NoDuplicates(s) ==> StrictlyAscending(r)
  {
    if s == [] then []
    else
      assert s == [s[0]] + s[1..];
      var t := SortAscending(s[1..]);
      assert NoDuplicates(s) ==> NoDuplicates(s[1..]) && s[0] !in s[1..];
      assert s[0] in t <==> s[0] in s[1..] by {
        assert s[0] in t <==> s[0] in multiset(t);
        assert s[0] in s[1..] <==> s[0] in multiset(s[1..]);
      }
      InsertSorted(s[0], t);
      Insert(s[0], t)
  }

  /**
   * The category domain before the labels are applied: strictly ascending
   * (so free of duplicates), holding exactly the input's x values, with at
   * most one entry per point.
   */
  function Domain(xs: seq<real>): (d: seq<real>)
    ensures StrictlyAscending(d)
    ensures Elements(d) == Elements(xs)
    ensures |d| <= |xs|
  {
    var u := Unique(xs);
    var d := SortAscending(u);
    MultisetElements(d, u);
    assert |multiset(d)| == |d|;
    assert |multiset(u)| == |u|;
    d
  }

  /** The category labels handed to the scale: `label` applied to each domain value. */
  function Labels<L>(xs: seq<real>, labelFn: real -> L): (r: seq<L>)
    ensures |r| == |Domain(xs)|
    ensures forall i :: 0 <= i < |r| ==> r[i] == labelFn(Domain(xs)[i])
  {
    var d := Domain(xs);
    seq(|d|, i requires 0 <= i < |d| => labelFn(d[i]))
  }

  lemma MultisetElements(s: seq<real>, t: seq<real>)
    requires multiset(s) == multiset(t)
    ensures Elements(s) == Elements(t)
  {
    forall x ensures x in s <==> x in t {
      assert x in s <==> x in multiset(s);
      assert x in t <==> x in multiset(t);
    }
  }

  /** A strictly ascending sequence is determined by its set of values. */
  lemma {:induction false} AscendingUnique(a: seq<real>, b: seq<real>)
    requires StrictlyAscending(a) && StrictlyAscending(b)
    requires Elements(a) == Elements(b)
    ensures a == b
  {
    if a == [] {
      NonEmptyElements(b);
    } else {
      assert a[0] in Elements(b);
      assert b != [];
      assert b[0] in Elements(a);
      // Both heads are the least value of the common set.
      assert a[0] == b[0];
      assert Elements(a[1..]) == Elements(a) - {a[0]} by {
        assert a == [a[0]] + a[1..];
      }
      assert Elements(b[1..]) == Elements(b) - {b[0]} by {
        assert b == [b[0]] + b[1..];
      }
      AscendingUnique(a[1..], b[1..]);
      assert a == [a[0]] + a[1..];
      assert b == [b[0]] + b[1..];
    }
  }

  /**
   * The domain is the ascending enumeration of the distinct x values: any
   * strictly ascending sequence of exactly those values is the domain, so
   * the result does not depend on which sort or which uniquing order is used.
   */
  lemma DomainIsCanonical(xs: seq<real>, s: seq<real>)
    requires StrictlyAscending(s) && Elements(s) == Elements(xs)
    ensures Domain(xs) == s
  {
    AscendingUnique(Domain(xs), s);
  }

  /** A sequence without duplicates has as many elements as distinct values. */
  lemma {:induction false} DistinctCount(s: seq<real>)
    requires NoDuplicates(s)
    ensures |Elements(s)| == |s|
  {
    if s != [] {
      assert s == [s[0]] + s[1..];
      assert Elements(s) == {s[0]} + Elements(s[1..]);
      assert s[0] !in Elements(s[1..]);
      DistinctCount(s[1..]);
    }
  }

  /** The number of categories (`valuesCount`) is the number of distinct x values. */
  lemma CategoryCount<L>(xs: seq<real>, labelFn: real -> L)
    ensures |Labels(xs, labelFn)| == |Elements(xs)| <= |xs|
  {
    DistinctCount(Domain(xs));
  }

  /** The x values `[1, 1, 2]` give the two categories `[1, 2]`. */
  lemma RepeatedCategoryExample()
    ensures Domain([1.0, 1.0, 2.0]) == [1.0, 2.0]
  {
    assert Elements([1.0, 1.0, 2.0]) == Elements([1.0, 2.0]);
    DomainIsCanonical([1.0, 1.0, 2.0], [1.0, 2.0]);
  }

  /**
   * The x values `[2, 1]` give the domain `[1, 2]`: the first point's
   * category is the second one, although that point is placed at index 0.
   */
  lemma SwappedOrderExample()
    ensures Domain([2.0, 1.0]) == [1.0, 2.0]
    ensures Domain([2.0, 1.0])[0] != [2.0, 1.0][0]
  {
    assert Elements([2.0, 1.0]) == Elements([1.0, 2.0]);
    DomainIsCanonical([2.0, 1.0], [1.0, 2.0]);
  }
}
