/** Lists of tasks: what unlinking, filtering and priority insertion do to a sequence. */
module Lists {

  /** No task is linked twice. */
  ghost predicate NoDup<T>(s: seq<T>) {
    forall i, j :: 0 <= i < j < |s| ==> s[i] != s[j]
  }

  /** The list with the first node of x unlinked. */
  function Remove<T(==)>(s: seq<T>, x: T): (r: seq<T>)
    ensures NoDup(s) ==> NoDup(r) && x !in r
    ensures forall y :: y in r ==> y in s
    ensures forall y :: y in s && y != x ==> y in r
  {
    if s == [] then []
    else if s[0] == x then s[1..]
    else
      var rest := Remove(s[1..], x);
      assert s[0] in rest ==> s[0] in s[1..];
      [s[0]] + rest
  }

  /** The nodes of s outside X, in order. */
  function Without<T(==)>(s: seq<T>, X: set<T>): (r: seq<T>)
    ensures NoDup(s) ==> NoDup(r)
    ensures forall y :: y in r ==> y in s && y !in X
    ensures forall y :: y in s && y !in X ==> y in r
  {
    if s == [] then []
    else if s[0] in X then Without(s[1..], X)
    else [s[0]] + Without(s[1..], X)
  }

  /** The nodes of s inside X, in order. */
  function Within<T(==)>(s: seq<T>, X: set<T>): (r: seq<T>)
    ensures NoDup(s) ==> NoDup(r)
    ensures forall y :: y in r ==> y in s && y in X
    ensures forall y :: y in s && y in X ==> y in r
  {
    if s == [] then []
    else if s[0] in X then [s[0]] + Within(s[1..], X)
    else Within(s[1..], X)
  }

  lemma {:induction false} WithoutAppend<T>(a: seq<T>, b: seq<T>, X: set<T>)
    ensures Without(a + b, X) == Without(a, X) + Without(b, X)
  {
    if a == [] {
      assert a + b == b;
    } else {
      hide Without;
      var x, t := a[0], a[1..];
      WithoutAppend(t, b, X);
      WithoutFirst(x, t, X);
      WithoutFirst(x, t + b, X);
      assert a == [x] + t;
      Regroup([x], t, b);
      Regroup(if x in X then [] else [x], Without(t, X), Without(b, X));
    }
  }

  lemma Regroup<T>(a: seq<T>, b: seq<T>, c: seq<T>)
    ensures (a + b) + c == a + (b + c)
  {
  }

  lemma WithoutFirst<T>(x: T, s: seq<T>, X: set<T>)
    ensures Without([x] + s, X) == (if x in X then [] else [x]) + Without(s, X)
  {
    assert ([x] + s)[1..] == s;
  }

  lemma {:induction false} WithinAppend<T>(a: seq<T>, b: seq<T>, X: set<T>)
    ensures Within(a + b, X) == Within(a, X) + Within(b, X)
  {
    if a == [] {
      assert a + b == b;
    } else {
      var t := a[1..];
      WithinAppend(t, b, X);
      assert (a + b)[1..] == t + b && (a + b)[0] == a[0];
      assert [a[0]] + (Within(t, X) + Within(b, X)) == [a[0]] + Within(t, X) + Within(b, X);
    }
  }

  /** Filtering depends only on how X meets the list. */
  lemma {:induction false} FilterCongruence<T>(s: seq<T>, X: set<T>, Y: set<T>)
    requires forall y :: y in s ==> (y in X <==> y in Y)
    ensures Without(s, X) == Without(s, Y)
    ensures Within(s, X) == Within(s, Y)
  {
    if s != [] {
      assert s[0] in s;
      FilterCongruence(s[1..], X, Y);
    }
  }

  lemma {:induction false} WithoutNone<T>(s: seq<T>, X: set<T>)
    requires forall y :: y in s ==> y !in X
    ensures Without(s, X) == s
    ensures Within(s, X) == []
  {
    if s != [] {
      assert s[0] in s;
      WithoutNone(s[1..], X);
    }
  }

  /** Unlinking one more node of a duplicate-free list adds it to the filtered-out set. */
  lemma {:induction false} RemoveWithout<T>(s: seq<T>, X: set<T>, x: T)
    requires NoDup(s)
    requires x !in X
    ensures Remove(Without(s, X), x) == Without(s, X + {x})
  {
    if s != [] {
      if s[0] == x {
        FilterCongruence(s[1..], X, X + {x});
      } else {
        RemoveWithout(s[1..], X, x);
      }
    }
  }

  lemma {:induction false} RemoveAbsent<T>(s: seq<T>, x: T)
    requires x !in s
    ensures Remove(s, x) == s
  {
    if s != [] {
      RemoveAbsent(s[1..], x);
    }
  }

  lemma {:induction false} RemoveAt<T>(s: seq<T>, i: nat)
    requires i < |s| && NoDup(s)
    ensures Remove(s, s[i]) == s[..i] + s[i + 1..]
  {
    if i > 0 {
      RemoveAt(s[1..], i - 1);
      assert s[1..][..i - 1] == s[1..i];
      assert s[1..][i..] == s[i + 1..];
      assert s[..i] == [s[0]] + s[1..i];
    }
  }

  /** Where a waiter of priority p goes: before the first waiter of lower priority. */
  function InsertPos(prios: seq<nat>, p: nat): (i: nat)
    ensures i <= |prios|
    ensures forall j :: 0 <= j < i ==> prios[j] >= p
    ensures i < |prios| ==> prios[i] < p
  {
    if prios == [] || prios[0] < p then 0 else 1 + InsertPos(prios[1..], p)
  }

  lemma {:induction false} InsertPosIs(prios: seq<nat>, p: nat, i: nat)
    requires i <= |prios|
    requires forall j :: 0 <= j < i ==> prios[j] >= p
    requires i < |prios| ==> prios[i] < p
    ensures InsertPos(prios, p) == i
  {
  }

  function InsertAt<T>(s: seq<T>, i: nat, x: T): (r: seq<T>)
    requires i <= |s|
    ensures NoDup(s) && x !in s ==> NoDup(r)
    ensures x in r && forall y :: y in s ==> y in r
    ensures forall y :: y in r ==> y in s || y == x
  {
    var r := s[..i] + [x] + s[i..];
    assert r[i] == x;
    assert forall j :: 0 <= j < |s| ==> s[j] == r[if j < i then j else j + 1];
    assert forall j :: 0 <= j < |r| && j != i ==> r[j] == s[if j < i then j else j - 1];
    r
  }

  lemma NoDupConcat<T>(a: seq<T>, b: seq<T>)
    requires NoDup(a) && NoDup(b)
    requires forall x :: x in a ==> x !in b
    ensures NoDup(a + b)
  {
    forall i, j | 0 <= i < j < |a + b| ensures (a + b)[i] != (a + b)[j] {
      if i < |a| <= j {
        assert a[i] in a && b[j - |a|] in b;
      }
    }
  }

  // ---------------------------------------------------------------- order in lists

  /** t stands before u. */
  ghost predicate Before<T>(s: seq<T>, t: T, u: T) {
    exists i, j :: 0 <= i < j < |s| && s[i] == t && s[j] == u
  }

  lemma BeforeConcat<T>(a: seq<T>, b: seq<T>, t: T, u: T)
    requires t in a && u in b
    ensures Before(a + b, t, u)
  {
    var i :| 0 <= i < |a| && a[i] == t;
    var j :| 0 <= j < |b| && b[j] == u;
    assert (a + b)[i] == t && (a + b)[|a| + j] == u;
  }

  lemma BeforeAppend<T>(a: seq<T>, b: seq<T>, t: T, u: T)
    requires Before(a, t, u)
    ensures Before(a + b, t, u) && Before(b + a, t, u)
  {
    var i, j :| 0 <= i < j < |a| && a[i] == t && a[j] == u;
    assert (a + b)[i] == t && (a + b)[j] == u;
    assert (b + a)[|b| + i] == t && (b + a)[|b| + j] == u;
  }

  lemma BeforeWithout<T>(s: seq<T>, X: set<T>, t: T, u: T)
    requires Before(s, t, u) && t !in X && u !in X
    ensures Before(Without(s, X), t, u)
  {
    var i, j :| 0 <= i < j < |s| && s[i] == t && s[j] == u;
    WithoutAppend(s[..j], s[j..], X);
    assert s == s[..j] + s[j..];
    assert s[..j][i] in s[..j] && s[j..][0] in s[j..];
    BeforeConcat(Without(s[..j], X), Without(s[j..], X), t, u);
  }

  lemma BeforeWithin<T>(s: seq<T>, X: set<T>, t: T, u: T)
    requires Before(s, t, u) && t in X && u in X
    ensures Before(Within(s, X), t, u)
  {
    var i, j :| 0 <= i < j < |s| && s[i] == t && s[j] == u;
    WithinAppend(s[..j], s[j..], X);
    assert s == s[..j] + s[j..];
    assert s[..j][i] in s[..j] && s[j..][0] in s[j..];
    BeforeConcat(Within(s[..j], X), Within(s[j..], X), t, u);
  }

  lemma {:induction false} BeforeRemove<T>(s: seq<T>, x: T, t: T, u: T)
    requires Before(s, t, u) && x != t && x != u
    ensures Before(Remove(s, x), t, u)
  {
    var i, j :| 0 <= i < j < |s| && s[i] == t && s[j] == u;
    if s[0] == x {
      assert s[1..][i - 1] == t && s[1..][j - 1] == u;
    } else if i == 0 {
      assert s[1..][j - 1] == u;
      assert u in Remove(s[1..], x);
      BeforeConcat([s[0]], Remove(s[1..], x), t, u);
    } else {
      assert s[1..][i - 1] == t && s[1..][j - 1] == u;
      BeforeRemove(s[1..], x, t, u);
      BeforeAppend(Remove(s[1..], x), [s[0]], t, u);
    }
  }
}
