/** Order-preserving selection from a sequence, the shape of every filter loop in the program, and
    sequences without repetition.  The lemmas say how a selection behaves when the sequence grows by
    one element, when it is joined to another, when it is selected from again, and when the elements
    that qualify are a suffix; and that appending and selecting keep a sequence free of repetition. */
module Sequences {

  function Filter<T>(s: seq<T>, p: T -> bool): seq<T> {
    if s == [] then []
    else if p(s[0]) then [s[0]] + Filter(s[1..], p)
    else Filter(s[1..], p)
  }

  lemma {:induction false} FilterAppend<T>(a: seq<T>, b: seq<T>, p: T -> bool)
    ensures Filter(a + b, p) == Filter(a, p) + Filter(b, p)
  {
    if a == [] {
      assert a + b == b;
    } else {
      var rest, tail := Filter(a[1..], p), Filter(b, p);
      FilterAppend(a[1..], b, p);
      assert (a + b)[0] == a[0] && (a + b)[1..] == a[1..] + b;
      assert [a[0]] + (rest + tail) == ([a[0]] + rest) + tail;
    }
  }

  /** One more round of a filter loop. */
  lemma FilterNext<T>(s: seq<T>, i: nat, p: T -> bool)
    requires i < |s|
    ensures Filter(s[..i + 1], p) == if p(s[i]) then Filter(s[..i], p) + [s[i]] else Filter(s[..i], p)
    ensures i + 1 == |s| ==> s[..i + 1] == s
  {
    assert s[..i + 1] == s[..i] + [s[i]];
    FilterAppend(s[..i], [s[i]], p);
  }

  lemma {:induction false} FilterMember<T>(s: seq<T>, p: T -> bool, x: T)
    ensures x in Filter(s, p) <==> x in s && p(x)
  {
    if s != [] {
      FilterMember(s[1..], p, x);
      assert x in s <==> x == s[0] || x in s[1..];
    }
  }

  /** When exactly the elements from k on qualify, the selection is that suffix. */
  lemma {:induction false} FilterSuffix<T>(s: seq<T>, p: T -> bool, k: nat)
    requires k <= |s|
    requires forall i :: 0 <= i < k ==> !p(s[i])
    requires forall i :: k <= i < |s| ==> p(s[i])
    ensures Filter(s, p) == s[k..]
  {
    if s != [] {
      FilterSuffix(s[1..], p, if k == 0 then 0 else k - 1);
      if k == 0 {
        assert s == [s[0]] + s[1..];
      } else {
        assert s[1..][k - 1..] == s[k..];
      }
    }
  }

  /** Selecting twice is selecting by both conditions; the weaker of two nested ones adds nothing. */
  lemma {:induction false} FilterNested<T>(s: seq<T>, p: T -> bool, q: T -> bool)
    requires forall i :: 0 <= i < |s| && q(s[i]) ==> p(s[i])
    ensures Filter(Filter(s, p), q) == Filter(s, q)
  {
    if s != [] {
      FilterNested(s[1..], p, q);
      if p(s[0]) {
        var rest := Filter(s[1..], p);
        assert ([s[0]] + rest)[1..] == rest;
      }
    }
  }

  lemma {:induction false} FilterSame<T>(s: seq<T>, p: T -> bool, q: T -> bool)
    requires forall x :: x in s ==> p(x) == q(x)
    ensures Filter(s, p) == Filter(s, q)
  {
    if s != [] {
      assert s[0] in s && forall x :: x in s[1..] ==> x in s;
      FilterSame(s[1..], p, q);
    }
  }

  /** A stronger condition selects no more. */
  lemma {:induction false} FilterMonotone<T>(s: seq<T>, p: T -> bool, q: T -> bool)
    requires forall i :: 0 <= i < |s| && p(s[i]) ==> q(s[i])
    ensures |Filter(s, p)| <= |Filter(s, q)|
  {
    if s != [] {
      FilterMonotone(s[1..], p, q);
    }
  }

  // ---- Sequences without repetition ----

  predicate Distinct<T(==)>(s: seq<T>) {
    s != [] ==> s[0] !in s[1..] && Distinct(s[1..])
  }

  lemma {:induction false} DistinctAppend<T>(s: seq<T>, x: T)
    ensures Distinct(s + [x]) <==> Distinct(s) && x !in s
  {
    if s == [] {
      assert s + [x] == [x];
    } else {
      DistinctAppend(s[1..], x);
      assert (s + [x])[0] == s[0] && (s + [x])[1..] == s[1..] + [x];
    }
  }

  lemma {:induction false} FilterDistinct<T>(s: seq<T>, p: T -> bool)
    requires Distinct(s)
    ensures Distinct(Filter(s, p))
  {
    if s != [] {
      FilterDistinct(s[1..], p);
      FilterMember(s[1..], p, s[0]);
      var rest := Filter(s[1..], p);
      assert ([s[0]] + rest)[1..] == rest;
    }
  }

  lemma {:induction false} DistinctAt<T>(s: seq<T>, i: nat, j: nat)
    requires Distinct(s) && i < j < |s|
    ensures s[i] != s[j]
  {
    if i == 0 {
      assert s[j] == s[1..][j - 1];
    } else {
      DistinctAt(s[1..], i - 1, j - 1);
    }
  }

  // ---- Switches ----

  /** A switch that is off at first, is on after every step that sets it, is off after every step that
      clears it, and stays as it is in every other step, is on exactly when it was set and has not been
      cleared since. */
  lemma {:induction false} SwitchExactly(on: seq<bool>, sets: seq<bool>, clears: seq<bool>, n: nat)
    requires |sets| == |clears| && |on| == |sets| + 1 && n < |on| && !on[0]
    requires forall k :: 0 <= k < |sets| ==> on[k + 1] == (sets[k] || (on[k] && !clears[k]))
    ensures on[n] <==> exists i :: 0 <= i < n && sets[i] && forall j :: i < j < n ==> !clears[j]
  {
    if n > 0 {
      SwitchExactly(on, sets, clears, n - 1);
      assert on[n - 1 + 1] == (sets[n - 1] || (on[n - 1] && !clears[n - 1]));
      if sets[n - 1] {
        assert 0 <= n - 1 < n;
      } else if on[n] {
        var i :| 0 <= i < n - 1 && sets[i] && forall j :: i < j < n - 1 ==> !clears[j];
        assert forall j :: i < j < n ==> !clears[j];
      }
    }
  }
}
