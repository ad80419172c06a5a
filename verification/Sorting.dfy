/** Go's string order, and its sort package as far as the operator uses it. */
module Sorting {

  /** Strings compare by the first difference, a prefix first. */
  predicate StringLess(s: string, t: string) {
    if t == "" then false
    else if s == "" then true
    else s[0] < t[0] || (s[0] == t[0] && StringLess(s[1..], t[1..]))
  }

  lemma {:induction false} StringLessIsTotal(s: string, t: string)
    ensures StringLess(s, t) || StringLess(t, s) || s == t
    ensures !(StringLess(s, t) && StringLess(t, s)) && !StringLess(s, s)
  {
    if s != [] && t != [] {
      StringLessIsTotal(s[1..], t[1..]);
      StringLessIsTotal(s[1..], s[1..]);
      assert s == [s[0]] + s[1..] && t == [t[0]] + t[1..];
    } else if s != [] {
      StringLessIsTotal(s[1..], s[1..]);
    }
  }

  lemma {:induction false} StringLessIsTransitive(s: string, t: string, u: string)
    requires StringLess(s, t) && StringLess(t, u)
    ensures StringLess(s, u)
  {
    if s != [] && s[0] == t[0] == u[0] {
      StringLessIsTransitive(s[1..], t[1..], u[1..]);
    }
  }

  /** The two agree up to `i`, where the first ends or has the smaller character. */
  predicate LessAt(s: string, t: string, i: nat) {
    i <= |s| && i < |t| && s[..i] == t[..i] && (i == |s| || s[i] < t[i])
  }

  lemma LessAtHead(s: string, t: string, i: nat)
    ensures LessAt(s, t, i) && i > 0 ==> s != "" && t != "" && s[0] == t[0]
  {
    if LessAt(s, t, i) && i > 0 {
      assert s[0] == s[..i][0] && t[0] == t[..i][0];
    }
  }

  /** What the order is, seen from outside. */
  lemma {:induction false} StringLessIff(s: string, t: string)
    ensures StringLess(s, t) <==> exists i: nat :: LessAt(s, t, i)
  {
    if s == "" || t == "" || s[0] != t[0] {
      if StringLess(s, t) {
        assert LessAt(s, t, 0);
      }
      forall i: nat ensures LessAt(s, t, i) && i > 0 ==> s != "" && t != "" && s[0] == t[0] {
        LessAtHead(s, t, i);
      }
    } else {
      StringLessIff(s[1..], t[1..]);
      if i: nat :| LessAt(s[1..], t[1..], i) {
        assert s[..i + 1] == [s[0]] + s[1..][..i] && t[..i + 1] == [t[0]] + t[1..][..i];
        assert LessAt(s, t, i + 1);
      }
      if i: nat :| LessAt(s, t, i) {
        assert i > 0;
        assert s[1..][..i - 1] == s[..i][1..] && t[1..][..i - 1] == t[..i][1..];
        assert LessAt(s[1..], t[1..], i - 1);
      }
    }
  }

  lemma StringLessIsAnOrder()
    ensures StrictOrder(StringLess)
  {
    forall x, y, z | StringLess(x, y) && StringLess(y, z) ensures StringLess(x, z) {
      StringLessIsTransitive(x, y, z);
    }
    forall x ensures !StringLess(x, x) {
      StringLessIsTotal(x, x);
    }
  }

  ghost predicate StrictOrder<T(!new)>(less: (T, T) -> bool) {
    && (forall x :: !less(x, x))
    && (forall x, y, z :: less(x, y) && less(y, z) ==> less(x, z))
  }

  ghost predicate Sorted<T>(s: seq<T>, less: (T, T) -> bool) {
    forall i, j :: 0 <= i < j < |s| ==> !less(s[j], s[i])
  }

  method Swap<T>(a: array<T>, i: nat, m: nat)
    requires i <= m < a.Length
    modifies a
    ensures a[i] == old(a[m]) && a[m] == old(a[i])
    ensures forall k :: 0 <= k < a.Length && k != i && k != m ==> a[k] == old(a[k])
    ensures multiset(a[..]) == multiset(old(a[..]))
  {
    a[i], a[m] := a[m], a[i];
  }

  /** An element of a[i..] that no other one of them goes before. */
  method IndexOfFirst<T(!new)>(a: array<T>, i: nat, less: (T, T) -> bool) returns (m: nat)
    requires i < a.Length && StrictOrder(less)
    ensures i <= m < a.Length && forall k :: i <= k < a.Length ==> !less(a[k], a[m])
  {
    m := i;
    for j := i + 1 to a.Length
      invariant i <= m < j
      invariant forall k :: i <= k < j ==> !less(a[k], a[m])
    {
      if less(a[j], a[m]) {
        m := j;
      }
    }
  }

  /** sort.Slice and sort.Strings: in place, by the given order. */
  method Sort<T(!new)>(a: array<T>, less: (T, T) -> bool)
    requires StrictOrder(less)
    modifies a
    ensures Sorted(a[..], less)
    ensures multiset(a[..]) == multiset(old(a[..]))
  {
    for i := 0 to a.Length
      invariant multiset(a[..]) == multiset(old(a[..]))
      invariant forall p, q :: 0 <= p < i && p < q < a.Length ==> !less(a[q], a[p])
    {
      var m := IndexOfFirst(a, i, less);
      Swap(a, i, m);
    }
  }
}
