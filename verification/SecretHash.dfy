/**
 What hashSecretData feeds its hasher (internal/controller/postgresql_reconciler.go): the keys in
 order, each followed by NUL, its value and NUL. SHA-256 itself is not part of this model; the
 byte stream is.
 */
module SecretHash {
  import opened Sorting

  type Data = map<string, string>

  const NUL := "\0"

  predicate NulFree(s: string) { '\0' !in s }

  function Stream(keys: seq<string>, data: Data): string
    requires forall k :: k in keys ==> k in data
  {
    if keys == [] then "" else keys[0] + NUL + data[keys[0]] + NUL + Stream(keys[1..], data)
  }

  ghost predicate StrictlySorted(keys: seq<string>) {
    forall i, j :: 0 <= i < j < |keys| ==> StringLess(keys[i], keys[j])
  }

  /** `keys` lists the data's keys in order, each once. */
  ghost predicate KeyOrder(keys: seq<string>, data: Data) {
    StrictlySorted(keys) && forall k :: k in keys <==> k in data
  }

  /** The stream of `data`, by the one order its keys have. */
  ghost predicate IsStreamOf(stream: string, data: Data) {
    exists keys :: KeyOrder(keys, data) && stream == Stream(keys, data)
  }

  // ----- The loops -----

  /** Go ranges over a map in an arbitrary order. */
  method CollectKeys(data: Data) returns (keys: seq<string>)
    ensures forall k :: k in keys <==> k in data
    ensures forall i, j :: 0 <= i < j < |keys| ==> keys[i] != keys[j]
  {
    keys := [];
    var left := data.Keys;
    while left != {}
      invariant left <= data.Keys
      invariant forall k :: k in keys <==> k in data && k !in left
      invariant forall i, j :: 0 <= i < j < |keys| ==> keys[i] != keys[j]
      decreases left
    {
      var k :| k in left;
      keys := keys + [k];
      left := left - {k};
    }
  }

  lemma SortedDistinctIsStrict(before: seq<string>, keys: seq<string>)
    requires multiset(keys) == multiset(before) && Sorted(keys, StringLess)
    requires forall i, j :: 0 <= i < j < |before| ==> before[i] != before[j]
    ensures StrictlySorted(keys) && forall k :: k in keys <==> k in before
  {
    forall k ensures k in keys <==> k in before {
      assert k in multiset(keys) <==> k in multiset(before);
    }
    forall i, j | 0 <= i < j < |keys| ensures StringLess(keys[i], keys[j]) {
      StringLessIsTotal(keys[i], keys[j]);
      DistinctOnce(before, keys[i]);
      BothCount(keys, i, j);
    }
  }

  lemma BothCount(s: seq<string>, i: nat, j: nat)
    requires i < j < |s|
    ensures multiset(s)[s[i]] >= if s[i] == s[j] then 2 else 1
  {
    var a, b := s[..j], s[j..];
    assert s == a + b;
    assert a[i] in a && b[0] in b;
  }

  lemma {:induction false} DistinctOnce(s: seq<string>, x: string)
    requires forall i, j :: 0 <= i < j < |s| ==> s[i] != s[j]
    ensures multiset(s)[x] <= 1
  {
    if s != [] {
      assert s == [s[0]] + s[1..];
      DistinctOnce(s[1..], x);
      if x == s[0] {
        assert x !in s[1..];
      }
    }
  }

  lemma {:induction false} StreamAppend(keys: seq<string>, k: string, data: Data)
    requires k in data && forall x :: x in keys ==> x in data
    ensures Stream(keys + [k], data) == Stream(keys, data) + k + NUL + data[k] + NUL
  {
    if keys == [] {
      assert keys + [k] == [k] && Stream([], data) == "";
    } else {
      assert (keys + [k])[1..] == keys[1..] + [k];
      StreamAppend(keys[1..], k, data);
    }
  }

  /** The bytes written to the hasher. */
  method HashSecretData(data: Data) returns (stream: string)
    ensures IsStreamOf(stream, data)
  {
    var collected := CollectKeys(data);
    var keys := new string[|collected|](i requires 0 <= i < |collected| => collected[i]);
    assert keys[..] == collected;
    StringLessIsAnOrder();
    Sort(keys, StringLess);
    SortedDistinctIsStrict(collected, keys[..]);
    stream := WriteInOrder(keys[..], data);
  }

  method WriteInOrder(keys: seq<string>, data: Data) returns (stream: string)
    requires forall k :: k in keys ==> k in data
    ensures stream == Stream(keys, data)
  {
    stream := "";
    for i := 0 to |keys|
      invariant stream == Stream(keys[..i], data)
    {
      assert keys[..i + 1] == keys[..i] + [keys[i]];
      StreamAppend(keys[..i], keys[i], data);
      stream := stream + keys[i] + NUL;
      stream := stream + data[keys[i]] + NUL;
    }
    assert keys[..|keys|] == keys;
  }

  // ----- Main results -----

  lemma {:induction false} OneKeyOrder(a: seq<string>, b: seq<string>)
    requires StrictlySorted(a) && StrictlySorted(b) && forall k :: k in a <==> k in b
    ensures a == b
  {
    assert b != [] ==> b[0] in b;
    if a != [] {
      assert a[0] in a;
      var i :| 0 <= i < |b| && b[i] == a[0];
      var j :| 0 <= j < |a| && a[j] == b[0];
      StringLessIsTotal(a[0], b[0]);
      assert a[0] == b[0];
      forall k ensures k in a[1..] <==> k in b[1..] {
        StringLessIsTotal(a[0], a[0]);
        assert k in a[1..] <==> k in a && k != a[0];
        assert k in b[1..] <==> k in b && k != b[0];
      }
      OneKeyOrder(a[1..], b[1..]);
      assert a == [a[0]] + a[1..] && b == [b[0]] + b[1..];
    }
  }

  /** The stream does not depend on the order the map was ranged over. */
  lemma StreamIsUnique(data: Data, a: string, b: string)
    requires IsStreamOf(a, data) && IsStreamOf(b, data)
    ensures a == b
  {
    var ka :| KeyOrder(ka, data) && a == Stream(ka, data);
    var kb :| KeyOrder(kb, data) && b == Stream(kb, data);
    OneKeyOrder(ka, kb);
  }

  /** Cutting at the first NUL is unambiguous. */
  lemma {:induction false} CutAtNul(a: string, x: string, b: string, y: string)
    requires NulFree(a) && NulFree(b) && a + NUL + x == b + NUL + y
    ensures a == b && x == y
  {
    var s := a + NUL + x;
    assert s == b + NUL + y;
    assert s[|a|] == '\0' && s[|b|] == '\0';
    assert forall i :: 0 <= i < |a| ==> s[i] == a[i];
    assert forall i :: 0 <= i < |b| ==> s[i] == b[i];
    assert |a| == |b|;
    assert a == s[..|a|] && b == s[..|b|];
    assert x == s[|a| + 1..] && y == s[|b| + 1..];
  }

  predicate NulFreeData(data: Data) { forall k :: k in data ==> NulFree(k) && NulFree(data[k]) }

  lemma {:induction false} StreamDecodes(ka: seq<string>, a: Data, kb: seq<string>, b: Data)
    requires NulFreeData(a) && NulFreeData(b)
    requires (forall k :: k in ka ==> k in a) && (forall k :: k in kb ==> k in b)
    requires Stream(ka, a) == Stream(kb, b)
    ensures ka == kb && forall k :: k in ka ==> a[k] == b[k]
  {
    if ka != [] && kb != [] {
      var restA, restB := Stream(ka[1..], a), Stream(kb[1..], b);
      assert Stream(ka, a) == ka[0] + NUL + (a[ka[0]] + NUL + restA);
      assert Stream(kb, b) == kb[0] + NUL + (b[kb[0]] + NUL + restB);
      CutAtNul(ka[0], a[ka[0]] + NUL + restA, kb[0], b[kb[0]] + NUL + restB);
      CutAtNul(a[ka[0]], restA, b[kb[0]], restB);
      StreamDecodes(ka[1..], a, kb[1..], b);
      assert ka == [ka[0]] + ka[1..] && kb == [kb[0]] + kb[1..];
    }
  }

  /** Two Secrets without NUL bytes give one stream only if they are the same Secret. */
  lemma StreamDeterminesData(a: Data, b: Data, stream: string)
    requires NulFreeData(a) && NulFreeData(b)
    requires IsStreamOf(stream, a) && IsStreamOf(stream, b)
    ensures a == b
  {
    var ka :| KeyOrder(ka, a) && stream == Stream(ka, a);
    var kb :| KeyOrder(kb, b) && stream == Stream(kb, b);
    StreamDecodes(ka, a, kb, b);
    assert a.Keys == b.Keys;
    forall k | k in a ensures a[k] == b[k] { assert k in ka; }
  }

  /** A NUL inside a value can imitate another key, so without the restriction the claim is false. */
  lemma NulCanImitateAKey()
    ensures var a, b := map["a" := "x\0b\0y"], map["a" := "x", "b" := "y"];
      a != b && IsStreamOf("a\0x\0b\0y\0", a) && IsStreamOf("a\0x\0b\0y\0", b)
  {
    var a, b := map["a" := "x\0b\0y"], map["a" := "x", "b" := "y"];
    assert "b" !in a && "b" in b;
    assert ["a"][1..] == [] && ["a", "b"][1..] == ["b"] && ["b"][1..] == [];
    assert KeyOrder(["a"], a) && KeyOrder(["a", "b"], b);
    assert Stream([], a) == "" && Stream([], b) == "";
    assert Stream(["a"], a) == "a\0x\0b\0y\0";
    assert Stream(["b"], b) == "b\0y\0";
    assert Stream(["a", "b"], b) == "a" + NUL + "x" + NUL + Stream(["b"], b);
    assert Stream(["a", "b"], b) == "a\0x\0b\0y\0";
  }
}
