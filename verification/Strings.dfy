/** Splitting at a separator and joining again, as Go's strings package and Python's str have it. */
module Strings {

  function Join(items: seq<string>, separator: string): string {
    if items == [] then ""
    else if |items| == 1 then items[0]
    else items[0] + separator + Join(items[1..], separator)
  }

  /** Where the first separator is, or the length. */
  function IndexOf(s: string, c: char): (i: nat)
    ensures i <= |s| && (forall j | 0 <= j < i :: s[j] != c) && (i < |s| ==> s[i] == c)
  {
    if s == "" || s[0] == c then 0 else 1 + IndexOf(s[1..], c)
  }

  function Split(s: string, c: char): (pieces: seq<string>)
    ensures pieces != []
    decreases |s|
  {
    var i := IndexOf(s, c);
    if i == |s| then [s] else [s[..i]] + Split(s[i + 1..], c)
  }

  predicate Without(s: string, c: char) { forall i | 0 <= i < |s| :: s[i] != c }

  /** The pieces are free of the separator and joining them gives the string back. */
  lemma {:induction false} SplitThenJoin(s: string, c: char)
    ensures Join(Split(s, c), [c]) == s && forall p <- Split(s, c) :: Without(p, c)
    decreases |s|
  {
    var i := IndexOf(s, c);
    if i < |s| {
      SplitThenJoin(s[i + 1..], c);
      assert Split(s, c)[1..] == Split(s[i + 1..], c);
      assert s == s[..i] + [c] + s[i + 1..];
    } else {
      assert s[..i] == s;
    }
  }

  lemma IndexOfIs(s: string, c: char, i: nat)
    requires i <= |s| && Without(s[..i], c) && (i < |s| ==> s[i] == c)
    ensures IndexOf(s, c) == i
  {
    assert forall j | 0 <= j < i :: s[j] == s[..i][j];
    assert Without(s[..IndexOf(s, c)], c);
  }

  lemma SplitFirst(head: string, tail: string, c: char)
    requires Without(head, c)
    ensures Split(head + [c] + tail, c) == [head] + Split(tail, c)
  {
    var s := head + [c] + tail;
    assert s[..|head|] == head && s[|head| + 1..] == tail;
    IndexOfIs(s, c, |head|);
  }

  lemma SplitOne(s: string, c: char)
    requires Without(s, c)
    ensures Split(s, c) == [s]
  {
    assert s[..|s|] == s;
    IndexOfIs(s, c, |s|);
  }

  /** Which determines them: no other pieces would do. */
  lemma {:induction false} JoinThenSplit(pieces: seq<string>, c: char)
    requires pieces != [] && forall p <- pieces :: Without(p, c)
    ensures Split(Join(pieces, [c]), c) == pieces
    decreases |pieces|
  {
    assert pieces[0] in pieces && pieces == [pieces[0]] + pieces[1..];
    if |pieces| == 1 {
      SplitOne(pieces[0], c);
    } else {
      assert forall p :: p in pieces[1..] ==> p in pieces;
      JoinThenSplit(pieces[1..], c);
      SplitFirst(pieces[0], Join(pieces[1..], [c]), c);
    }
  }
}
