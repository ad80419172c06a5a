/**
 Which release upgrades from which, and when the :latest tags move (scripts/bump-bundle-version.py and
 .github/workflows/release.yml).
 */
module ReleaseChain {
  import opened Options
  import opened Strings
  import opened Decimal

  // ----- Version strings -----

  predicate IsNumber(s: string) { s != "" && AllDigits(s) }

  /** [0-9]+\.[0-9]+\.[0-9]+, the whole string */
  predicate IsSemver(v: string) {
    var parts := Split(v, '.');
    |parts| == 3 && forall i | 0 <= i < 3 :: IsNumber(parts[i])
  }

  datatype Key = Key(major: nat, minor: nat, patch: nat)

  function VersionKey(v: string): Key
    requires IsSemver(v)
  {
    var parts := Split(v, '.');
    Key(Value(parts[0]), Value(parts[1]), Value(parts[2]))
  }

  /** Tuples compare like words. */
  predicate AtMost(a: Key, b: Key) {
    a.major < b.major || (a.major == b.major && (a.minor < b.minor || (a.minor == b.minor && a.patch <= b.patch)))
  }

  predicate Below(a: Key, b: Key) { AtMost(a, b) && a != b }

  /** X.Y.Z without leading zeros. */
  predicate IsCanonical(v: string) {
    IsSemver(v) && forall i | 0 <= i < 3 :: Decimal.Canonical(Split(v, '.')[i])
  }

  /** A canonical version is the only canonical one with its key. */
  lemma KeyDetermines(v: string, w: string)
    requires IsCanonical(v) && IsCanonical(w) && VersionKey(v) == VersionKey(w)
    ensures v == w
  {
    var p, q := Split(v, '.'), Split(w, '.');
    ValueDetermines(p[0], q[0]);
    ValueDetermines(p[1], q[1]);
    ValueDetermines(p[2], q[2]);
    assert p == q;
    SplitThenJoin(v, '.');
    SplitThenJoin(w, '.');
  }

  function Zero(): (v: string)
    ensures IsSemver(v)
  {
    var parts := ["0", "0", "0"];
    JoinThenSplit(parts, '.');
    Join(parts, ".")
  }

  type Version = v: string | IsSemver(v) witness Zero()

  // ----- What keys and their order mean for X.Y.Z -----

  function Text(x: nat, y: nat, z: nat): string { Join([Printed(x), Printed(y), Printed(z)], ".") }

  lemma DigitsHaveNoDot(s: string)
    requires AllDigits(s)
    ensures Without(s, '.')
  {
  }

  lemma TextSplits(x: nat, y: nat, z: nat)
    ensures Split(Text(x, y, z), '.') == [Printed(x), Printed(y), Printed(z)]
  {
    var parts := [Printed(x), Printed(y), Printed(z)];
    forall p | p in parts ensures Without(p, '.') {
      PrintedReadsBack(x);
      PrintedReadsBack(y);
      PrintedReadsBack(z);
      DigitsHaveNoDot(p);
    }
    JoinThenSplit(parts, '.');
  }

  /** The key of X.Y.Z is those three numbers, in that order. */
  lemma KeyOfText(x: nat, y: nat, z: nat)
    ensures IsCanonical(Text(x, y, z)) && VersionKey(Text(x, y, z)) == Key(x, y, z)
  {
    TextSplits(x, y, z);
    PrintedReadsBack(x);
    PrintedReadsBack(y);
    PrintedReadsBack(z);
  }

  /** And every canonical version is such a text. */
  lemma CanonicalIsText(v: string)
    requires IsCanonical(v)
    ensures var k := VersionKey(v); v == Text(k.major, k.minor, k.patch)
  {
    var k := VersionKey(v);
    KeyOfText(k.major, k.minor, k.patch);
    KeyDetermines(v, Text(k.major, k.minor, k.patch));
  }

  /** A higher major version beats any minor and patch, a higher minor any patch. */
  lemma OrderOfTexts(x: nat, y: nat, z: nat, x': nat, y': nat, z': nat)
    ensures IsSemver(Text(x, y, z)) && IsSemver(Text(x', y', z'))
    ensures var a, b := VersionKey(Text(x, y, z)), VersionKey(Text(x', y', z'));
      && (x < x' ==> Below(a, b) && !AtMost(b, a))
      && (x == x' && y < y' ==> Below(a, b) && !AtMost(b, a))
      && (x == x' && y == y' && z < z' ==> Below(a, b) && !AtMost(b, a))
      && (x == x' && y == y' && z == z' ==> a == b && AtMost(a, b) && !Below(a, b))
  {
    KeyOfText(x, y, z);
    KeyOfText(x', y', z');
  }

  /** `t` comes before `u` in the order of releases. */
  predicate Earlier(t: (nat, nat, nat), u: (nat, nat, nat)) {
    t.0 < u.0 || (t.0 == u.0 && t.1 < u.1) || (t.0 == u.0 && t.1 == u.1 && t.2 < u.2)
  }

  function TextOf(t: (nat, nat, nat)): string { Text(t.0, t.1, t.2) }

  lemma BelowIsEarlier(t: (nat, nat, nat), u: (nat, nat, nat))
    ensures IsSemver(TextOf(t)) && IsSemver(TextOf(u))
    ensures Below(VersionKey(TextOf(t)), VersionKey(TextOf(u))) <==> Earlier(t, u)
    ensures AtMost(VersionKey(TextOf(t)), VersionKey(TextOf(u))) <==> Earlier(t, u) || t == u
  {
    KeyOfText(t.0, t.1, t.2);
    KeyOfText(u.0, u.1, u.2);
  }

  function LStripV(s: string): string { if s != "" && s[0] == 'v' then LStripV(s[1..]) else s }

  /** The vX.Y.Z tags among the lines `git tag` prints, as bare versions. */
  function ReleasedVersions(lines: seq<string>): seq<Version> {
    if lines == [] then []
    else
      var candidate := LStripV(lines[0]);
      (if IsSemver(candidate) then [candidate] else []) + ReleasedVersions(lines[1..])
  }

  lemma {:induction false} ReleasedIff(lines: seq<string>, v: Version)
    ensures v in ReleasedVersions(lines) <==> exists i :: 0 <= i < |lines| && LStripV(lines[i]) == v
  {
    if lines != [] {
      ReleasedIff(lines[1..], v);
      assert lines == [lines[0]] + lines[1..];
      if i :| 0 <= i < |lines[1..]| && LStripV(lines[1..][i]) == v {
        assert LStripV(lines[i + 1]) == v;
      }
    }
  }

  function Vs(n: nat): string { if n == 0 then "" else "v" + Vs(n - 1) }

  lemma {:induction false} StripsAllVs(n: nat, v: string)
    requires v == "" || v[0] != 'v'
    ensures LStripV(Vs(n) + v) == v
    decreases n
  {
    if n == 0 {
      assert Vs(0) + v == v;
    } else {
      assert (Vs(n) + v)[1..] == Vs(n - 1) + v;
      StripsAllVs(n - 1, v);
    }
  }

  lemma {:induction false} StrippedIsAllButVs(s: string) returns (n: nat)
    ensures s == Vs(n) + LStripV(s) && (LStripV(s) == "" || LStripV(s)[0] != 'v')
  {
    if s != "" && s[0] == 'v' {
      var m := StrippedIsAllButVs(s[1..]);
      n := m + 1;
      assert s == "v" + s[1..];
    } else {
      n := 0;
    }
  }

  /** A version is released exactly when some tag is that version with any number of v's before it. */
  lemma ReleasedMeansTagged(lines: seq<string>, v: Version)
    ensures v in ReleasedVersions(lines) <==> exists i: nat, n: nat :: i < |lines| && lines[i] == Vs(n) + v
  {
    ReleasedIff(lines, v);
    VersionStartsWithADigit(v);
    if i: nat, n: nat :| i < |lines| && lines[i] == Vs(n) + v {
      StripsAllVs(n, v);
    }
    if i :| 0 <= i < |lines| && LStripV(lines[i]) == v {
      var n := StrippedIsAllButVs(lines[i]);
      assert lines[i] == Vs(n) + v;
    }
  }

  lemma VersionStartsWithADigit(v: Version)
    ensures v != "" && v[0] != 'v'
  {
    var first := Split(v, '.')[0];
    assert IsNumber(first);
    var i := IndexOf(v, '.');
    assert first == v[..i];
    assert v[0] == first[0];
  }

  // ----- Sorting by key; equal keys may come in either order -----

  predicate Ordered(chain: seq<Version>) {
    forall i, j :: 0 <= i < j < |chain| ==> AtMost(VersionKey(chain[i]), VersionKey(chain[j])) && chain[i] != chain[j]
  }

  predicate StrictlyIncreasing(chain: seq<Version>) {
    forall i, j :: 0 <= i < j < |chain| ==> Below(VersionKey(chain[i]), VersionKey(chain[j]))
  }

  ghost predicate SortsTo(versions: set<Version>, chain: seq<Version>) {
    Ordered(chain) && forall v :: v in chain <==> v in versions
  }

  method Least(versions: set<Version>) returns (least: Version)
    requires versions != {}
    ensures least in versions && forall v <- versions :: AtMost(VersionKey(least), VersionKey(v))
  {
    least :| least in versions;
    var rest := versions - {least};
    while rest != {}
      invariant rest <= versions && least in versions
      invariant forall v <- versions - rest :: AtMost(VersionKey(least), VersionKey(v))
      decreases rest
    {
      var v :| v in rest;
      rest := rest - {v};
      if Below(VersionKey(v), VersionKey(least)) {
        least := v;
      }
    }
  }

  method SortedByKey(versions: set<Version>) returns (chain: seq<Version>)
    ensures SortsTo(versions, chain)
  {
    chain := [];
    var rest := versions;
    while rest != {}
      invariant rest <= versions && Ordered(chain)
      invariant forall v :: v in chain <==> v in versions - rest
      invariant forall v <- chain, w <- rest :: AtMost(VersionKey(v), VersionKey(w))
      decreases rest
    {
      var v := Least(rest);
      rest := rest - {v};
      chain := chain + [v];
    }
  }

  // ----- What the script prints -----

  function Lower(version: Version, released: seq<Version>): set<Version> {
    set v | v in released && Below(VersionKey(v), VersionKey(version))
  }

  function UpTo(version: Version, released: seq<Version>): set<Version> {
    (set v | v in released && AtMost(VersionKey(v), VersionKey(version))) + {version}
  }

  /** A highest release below `version`; "" when there is none. */
  predicate IsPrevious(previous: string, version: Version, released: seq<Version>) {
    var lower := Lower(version, released);
    if lower == {} then previous == ""
    else previous in lower && forall v <- lower :: AtMost(VersionKey(v), VersionKey(previous))
  }

  method PreviousRelease(version: Version, released: seq<Version>) returns (previous: string)
    ensures IsPrevious(previous, version, released)
  {
    var lower := SortedByKey(Lower(version, released));
    if lower == [] {
      assert Lower(version, released) == {};
      previous := "";
    } else {
      previous := lower[|lower| - 1];
      assert previous in lower;
    }
  }

  method PrintChain(version: Version, released: seq<Version>) returns (chain: seq<Version>)
    ensures SortsTo(UpTo(version, released), chain)
  {
    chain := SortedByKey(UpTo(version, released));
  }

  predicate IsHighest(version: Version, released: seq<Version>) {
    forall v <- released :: AtMost(VersionKey(v), VersionKey(version))
  }

  predicate AllCanonical(version: Version, released: seq<Version>) {
    IsCanonical(version) && forall v <- released :: IsCanonical(v)
  }

  // ----- The same on numbers -----

  /** The released versions are X.Y.Z for these numbers. */
  ghost predicate Spells(released: seq<Version>, numbers: seq<(nat, nat, nat)>) {
    |released| == |numbers| && forall i :: 0 <= i < |released| ==> released[i] == TextOf(numbers[i])
  }

  /** The release replaced is, of those that come before, the one none of them comes after. */
  lemma PreviousOnNumbers(previous: string, version: (nat, nat, nat), released: seq<Version>, numbers: seq<(nat, nat, nat)>)
    requires IsSemver(TextOf(version)) && Spells(released, numbers) && IsPrevious(previous, TextOf(version), released)
    ensures (forall n <- numbers :: !Earlier(n, version)) ==> previous == ""
    ensures (exists n <- numbers :: Earlier(n, version)) ==>
      exists t <- numbers :: previous == TextOf(t) && Earlier(t, version)
        && forall n <- numbers :: Earlier(n, version) ==> n == t || Earlier(n, t)
  {
    var lower := Lower(TextOf(version), released);
    forall i | 0 <= i < |numbers| ensures released[i] in lower <==> Earlier(numbers[i], version) {
      BelowIsEarlier(numbers[i], version);
    }
    if lower != {} {
      var k :| 0 <= k < |released| && released[k] == previous;
      var t := numbers[k];
      forall n | n in numbers && Earlier(n, version) ensures n == t || Earlier(n, t) {
        var i :| 0 <= i < |numbers| && numbers[i] == n;
        assert released[i] in lower;
        BelowIsEarlier(n, t);
      }
      assert t in numbers;
    } else {
      forall n | n in numbers ensures !Earlier(n, version) {
        var i :| 0 <= i < |numbers| && numbers[i] == n;
        assert released[i] !in lower;
      }
    }
  }

  /** "true" is printed exactly when no released version comes after this one. */
  lemma HighestOnNumbers(version: (nat, nat, nat), released: seq<Version>, numbers: seq<(nat, nat, nat)>)
    requires IsSemver(TextOf(version)) && Spells(released, numbers)
    ensures IsHighest(TextOf(version), released) <==> forall n <- numbers :: !Earlier(version, n)
  {
    forall i | 0 <= i < |numbers|
      ensures AtMost(VersionKey(released[i]), VersionKey(TextOf(version))) <==> !Earlier(version, numbers[i])
    {
      BelowIsEarlier(numbers[i], version);
    }
    if IsHighest(TextOf(version), released) {
      forall n | n in numbers ensures !Earlier(version, n) {
        var i :| 0 <= i < |numbers| && numbers[i] == n;
        assert released[i] in released;
      }
    } else {
      var v :| v in released && !AtMost(VersionKey(v), VersionKey(TextOf(version)));
      var i :| 0 <= i < |released| && released[i] == v;
      assert numbers[i] in numbers;
    }
  }

  // ----- The upgrade graph -----

  /** Nothing released has the version's key in another spelling. */
  predicate SpelledOnce(version: Version, released: seq<Version>) {
    forall v <- released :: VersionKey(v) == VersionKey(version) ==> v == version
  }

  /** Canonical tags give a strictly increasing chain that ends at the version. */
  lemma ChainIsStrict(version: Version, released: seq<Version>, chain: seq<Version>)
    requires AllCanonical(version, released) && SortsTo(UpTo(version, released), chain)
    ensures StrictlyIncreasing(chain) && chain != [] && chain[|chain| - 1] == version
  {
    assert forall v <- chain :: IsCanonical(v);
    forall i, j | 0 <= i < j < |chain| ensures Below(VersionKey(chain[i]), VersionKey(chain[j])) {
      if VersionKey(chain[i]) == VersionKey(chain[j]) {
        KeyDetermines(chain[i], chain[j]);
      }
    }
    ChainEndsAtVersion(version, released, chain);
  }

  lemma ChainEndsAtVersion(version: Version, released: seq<Version>, chain: seq<Version>)
    requires SpelledOnce(version, released) || AllCanonical(version, released)
    requires SortsTo(UpTo(version, released), chain)
    ensures chain != [] && chain[|chain| - 1] == version
  {
    assert version in chain;
    var k :| 0 <= k < |chain| && chain[k] == version;
    var last := chain[|chain| - 1];
    assert last in chain;
    if last != version {
      assert AtMost(VersionKey(version), VersionKey(last));
      if AllCanonical(version, released) {
        KeyDetermines(version, last);
      }
    }
  }

  /** Along the chain, each release replaces exactly the one before it, and the first replaces none. */
  lemma EachReplacesTheOneBefore(version: Version, released: seq<Version>, chain: seq<Version>, i: nat, previous: string)
    requires AllCanonical(version, released) && SortsTo(UpTo(version, released), chain)
    requires i < |chain| && IsPrevious(previous, chain[i], released)
    ensures previous == if i == 0 then "" else chain[i - 1]
  {
    ChainIsStrict(version, released, chain);
    var lower := Lower(chain[i], released);
    forall v ensures v in lower <==> v in chain[..i] {
      LowerIsBefore(version, released, chain, i, v);
    }
    if i > 0 {
      assert chain[i - 1] in chain[..i];
      var k :| 0 <= k < i && chain[k] == previous;
    } else {
      assert lower == {};
    }
  }

  lemma LowerIsBefore(version: Version, released: seq<Version>, chain: seq<Version>, i: nat, v: Version)
    requires StrictlyIncreasing(chain) && SortsTo(UpTo(version, released), chain)
    requires i < |chain| && chain[|chain| - 1] == version
    ensures v in Lower(chain[i], released) <==> v in chain[..i]
  {
    assert chain[i] in chain;
    if v in Lower(chain[i], released) {
      assert v in UpTo(version, released);
      var k :| 0 <= k < |chain| && chain[k] == v;
      assert chain[..i][k] == v;
    }
    if v in chain[..i] {
      var k :| 0 <= k < i && chain[k] == v;
      assert v in chain;
    }
  }

  /** :latest moves exactly when the chain leaves no released version out. */
  lemma HighestIffChainHasAll(version: Version, released: seq<Version>, chain: seq<Version>)
    requires SortsTo(UpTo(version, released), chain)
    ensures IsHighest(version, released) <==> forall v <- released :: v in chain
  {
    if forall v <- released :: v in chain {
      forall v | v in released ensures AtMost(VersionKey(v), VersionKey(version)) {
        assert v in chain;
      }
    }
  }

  // ----- Every set sorts, so ties may fall either way -----

  lemma AppendLast(versions: set<Version>, front: seq<Version>, last: Version)
    requires last in versions && SortsTo(versions - {last}, front)
    requires forall v <- versions :: AtMost(VersionKey(v), VersionKey(last))
    ensures SortsTo(versions, front + [last])
  {
    var chain := front + [last];
    forall i, j | 0 <= i < j < |chain|
      ensures AtMost(VersionKey(chain[i]), VersionKey(chain[j])) && chain[i] != chain[j]
    {
      assert chain[i] == front[i] && front[i] in front;
    }
  }

  lemma {:induction false} EverySetSorts(versions: set<Version>) returns (chain: seq<Version>)
    ensures SortsTo(versions, chain)
    decreases |versions|
  {
    if versions == {} {
      chain := [];
    } else {
      var last := Greatest(versions);
      var front := EverySetSorts(versions - {last});
      AppendLast(versions, front, last);
      chain := front + [last];
    }
  }

  lemma {:induction false} Greatest(versions: set<Version>) returns (greatest: Version)
    requires versions != {}
    ensures greatest in versions && forall v <- versions :: AtMost(VersionKey(v), VersionKey(greatest))
    decreases |versions|
  {
    greatest :| greatest in versions;
    var rest := versions - {greatest};
    assert forall v :: v in versions ==> v == greatest || v in rest;
    if rest != {} {
      var g := Greatest(rest);
      if AtMost(VersionKey(greatest), VersionKey(g)) {
        greatest := g;
      }
    }
  }

  lemma AnotherSpellingCanComeLast(version: Version, released: seq<Version>, other: Version) returns (chain: seq<Version>)
    requires other in released && VersionKey(other) == VersionKey(version)
    ensures SortsTo(UpTo(version, released), chain) && chain != [] && chain[|chain| - 1] == other
  {
    var versions := UpTo(version, released);
    var front := EverySetSorts(versions - {other});
    AppendLast(versions, front, other);
    chain := front + [other];
  }

  ghost predicate AlwaysEndsAt(version: Version, released: seq<Version>) {
    forall chain: seq<Version> :: SortsTo(UpTo(version, released), chain) ==> chain != [] && chain[|chain| - 1] == version
  }

  /** Exactly when every order of equal keys leaves the version last. */
  lemma ChainEndsAtVersionIff(version: Version, released: seq<Version>)
    ensures AlwaysEndsAt(version, released) <==> SpelledOnce(version, released)
  {
    if SpelledOnce(version, released) {
      forall chain: seq<Version> | SortsTo(UpTo(version, released), chain)
        ensures chain != [] && chain[|chain| - 1] == version
      {
        ChainEndsAtVersion(version, released, chain);
      }
    } else {
      var other :| other in released && VersionKey(other) == VersionKey(version) && other != version;
      var chain := AnotherSpellingCanComeLast(version, released, other);
    }
  }

  lemma ZeroInFront(v: string)
    ensures Split("0" + v, '.') == ["0" + Split(v, '.')[0]] + Split(v, '.')[1..]
  {
    var z, i := "0" + v, IndexOf(v, '.');
    assert z[1..] == v;
    assert IndexOf(z, '.') == 1 + i;
    assert z[..i + 1] == "0" + v[..i];
    if i < |v| {
      assert z[i + 2..] == v[i + 1..];
    } else {
      assert v[..i] == v;
    }
  }

  /** Every version has such another spelling, and the script lets it through as a release. */
  lemma LeadingZeroKeepsTheKey(version: Version)
    ensures IsSemver("0" + version) && VersionKey("0" + version) == VersionKey(version)
    ensures !SpelledOnce(version, ["0" + version])
  {
    var parts := Split(version, '.');
    ZeroInFront(version);
    assert IsNumber(parts[0]);
    LeadingZero(parts[0]);
    assert |"0" + version| == 1 + |version|;
    assert ["0" + version][0] in ["0" + version];
  }
}
