/** Facts about finite collections that the loops over maps, sets and lists rely on. */
module Collections {

  /** No element occurs twice. */
  ghost predicate Distinct<T>(s: seq<T>) {
    forall i, j :: 0 <= i < j < |s| ==> s[i] != s[j]
  }

  /** A non-empty set has a member, so a loop may pick one. */
  lemma NonemptyHasMember(s: set<int>)
    requires s != {}
    ensures exists x :: x in s
  {
    if forall x :: x !in s {
      assert false;
    }
  }

  /** A subset is no larger than its superset. */
  lemma SubsetCardinality(a: set<int>, b: set<int>)
    requires a <= b
    ensures |a| <= |b|
  {
    if a != b {
      assert |b - a| > 0;
      assert b == a + (b - a);
    }
  }

  /** `s` without the occurrences of `x`, order kept. */
  function Without<K(==,!new)>(s: seq<K>, x: K): (r: seq<K>)
    ensures forall k :: k in r <==> k in s && k != x
  {
    if s == [] then []
    else if s[0] == x then Without(s[1..], x)
    else [s[0]] + Without(s[1..], x)
  }

  lemma {:induction false} WithoutAbsent<K(!new)>(s: seq<K>, x: K)
    requires x !in s
    ensures Without(s, x) == s
  {
    if s != [] {
      assert x !in s[1..];
      WithoutAbsent(s[1..], x);
      assert s == [s[0]] + s[1..];
    }
  }

  lemma {:induction false} WithoutDistinct<K(!new)>(s: seq<K>, x: K)
    requires Distinct(s)
    ensures Distinct(Without(s, x))
  {
    if s != [] {
      DistinctTail(s);
      WithoutDistinct(s[1..], x);
      if s[0] != x {
        assert s[0] !in s[1..];
      }
    }
  }

  lemma DistinctTail<K>(s: seq<K>)
    requires Distinct(s) && s != []
    ensures Distinct(s[1..]) && s[0] !in s[1..]
  {
    forall i, j | 0 <= i < j < |s| - 1
      ensures s[1..][i] != s[1..][j]
    {
      assert s[1..][i] == s[i + 1] && s[1..][j] == s[j + 1];
    }
  }

  /** Re-appending a key after taking it out keeps the keys distinct. */
  lemma MoveToBackDistinct<K(!new)>(s: seq<K>, x: K)
    requires Distinct(s)
    ensures Distinct(Without(s, x) + [x])
  {
    var w := Without(s, x);
    WithoutDistinct(s, x);
    assert x !in w;
    forall i, j | 0 <= i < j < |w| + 1
      ensures (w + [x])[i] != (w + [x])[j]
    {
      if j == |w| {
        assert (w + [x])[i] == w[i];
      }
    }
  }

  /**
   * Push each of `keys` that `acc` does not hold yet, in order: the effect
   * of adding to an insertion-ordered set, or of a push guarded by `includes`.
   */
  function AppendNew<T(==)>(acc: seq<T>, keys: seq<T>): seq<T>
    decreases |keys|
  {
    if keys == [] then acc
    else
      var before := AppendNew(acc, keys[..|keys| - 1]);
      var key := keys[|keys| - 1];
      if key in before then before else before + [key]
  }

  lemma {:induction false} AppendNewMembers<T>(acc: seq<T>, keys: seq<T>)
    ensures forall k :: k in AppendNew(acc, keys) <==> k in acc || k in keys
    decreases |keys|
  {
    if keys != [] {
      var init := keys[..|keys| - 1];
      AppendNewMembers(acc, init);
      assert keys == init + [keys[|keys| - 1]];
    }
  }

  lemma {:induction false} AppendNewDistinct<T>(acc: seq<T>, keys: seq<T>)
    requires Distinct(acc)
    ensures Distinct(AppendNew(acc, keys))
    decreases |keys|
  {
    if keys != [] {
      var before := AppendNew(acc, keys[..|keys| - 1]);
      var key := keys[|keys| - 1];
      AppendNewDistinct(acc, keys[..|keys| - 1]);
      if key !in before {
        forall i, j | 0 <= i < j < |before| + 1
          ensures (before + [key])[i] != (before + [key])[j]
        {
          if j == |before| {
            assert (before + [key])[i] == before[i];
          }
        }
      }
    }
  }

  /** `Array.prototype.filter`: the elements satisfying `keep`, in order. */
  function Filter<T(!new)>(s: seq<T>, keep: T -> bool): (r: seq<T>)
    ensures |r| <= |s|
  {
    if s == [] then [] else (if keep(s[0]) then [s[0]] else []) + Filter(s[1..], keep)
  }

  /** What a filter keeps is what was there and passes. */
  lemma {:induction false} FilterMembers<T(!new)>(s: seq<T>, keep: T -> bool)
    ensures forall x :: x in Filter(s, keep) <==> x in s && keep(x)
  {
    if s != [] {
      FilterMembers(s[1..], keep);
      assert s == [s[0]] + s[1..];
    }
  }

  lemma {:induction false} FilterAppend<T(!new)>(a: seq<T>, b: seq<T>, keep: T -> bool)
    ensures Filter(a + b, keep) == Filter(a, keep) + Filter(b, keep)
  {
    if a != [] {
      assert (a + b)[1..] == a[1..] + b;
      FilterAppend(a[1..], b, keep);
    } else {
      assert a + b == b;
    }
  }

  /** Two filters in a row are one filter by the conjunction. */
  lemma {:induction false} FilterFilter<T(!new)>(s: seq<T>, first: T -> bool, second: T -> bool, both: T -> bool)
    requires forall x :: both(x) == (first(x) && second(x))
    ensures Filter(Filter(s, first), second) == Filter(s, both)
  {
    if s != [] {
      FilterFilter(s[1..], first, second, both);
      var head := if first(s[0]) then [s[0]] else [];
      FilterAppend(head, Filter(s[1..], first), second);
    }
  }

  /** A filter that keeps everything present changes nothing. */
  lemma {:induction false} FilterAll<T(!new)>(s: seq<T>, keep: T -> bool)
    requires forall x :: x in s ==> keep(x)
    ensures Filter(s, keep) == s
  {
    if s != [] {
      FilterAll(s[1..], keep);
      assert s == [s[0]] + s[1..];
    }
  }

  /** A filter that keeps nothing present gives the empty list. */
  lemma {:induction false} FilterNone<T(!new)>(s: seq<T>, keep: T -> bool)
    requires forall x :: x in s ==> !keep(x)
    ensures Filter(s, keep) == []
  {
    if s != [] {
      FilterNone(s[1..], keep);
    }
  }

  /** A prefix grows by the next element; proved once, on any element type. */
  lemma PrefixExtend<T>(s: seq<T>, i: nat)
    requires i < |s|
    ensures s[..i + 1] == s[..i] + [s[i]]
  {
  }

  lemma PrefixAll<T>(s: seq<T>)
    ensures s[..|s|] == s
  {
  }
}
