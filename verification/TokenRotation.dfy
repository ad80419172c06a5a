/**
 The acceptance runner's token rotation: a compare-and-swap by JSON Patch (RFC 6902), a bounded wait,
 and a restoration on every way out (Runner.rotate and Runner.wait in scripts/cluster-acceptance.py).
 */
module TokenRotation {
  import opened Options

  // ----- JSON Patch on the Secret -----

  /** `version` is metadata.resourceVersion; `owned`: the Pulse CR is its controller. */
  datatype Secret = Secret(uid: string, version: string, token: string, owned: bool)

  datatype Path = Uid | ResourceVersion | Token

  datatype Operation = Test(path: Path, value: string) | Replace(path: Path, value: string)

  function At(s: Secret, path: Path): string {
    match path
    case Uid => s.uid
    case ResourceVersion => s.version
    case Token => s.token
  }

  function With(s: Secret, path: Path, value: string): Secret {
    match path
    case Uid => s.(uid := value)
    case ResourceVersion => s.(version := value)
    case Token => s.(token := value)
  }

  /** In order, and not at all when one of them fails (sections 4.6 and 5). */
  function Patched(s: Secret, ops: seq<Operation>): Option<Secret>
    decreases |ops|
  {
    if ops == [] then Some(s)
    else
      match ops[0]
      case Test(path, value) => if At(s, path) == value then Patched(s, ops[1..]) else None
      case Replace(path, value) => Patched(With(s, path, value), ops[1..])
  }

  function RotatePatch(was: Secret, token: string): seq<Operation> {
    [Test(Uid, was.uid), Test(ResourceVersion, was.version), Replace(Token, token)]
  }

  function RestorePatch(was: Secret, token: string): seq<Operation> {
    [Test(Uid, was.uid), Test(Token, token), Replace(Token, was.token)]
  }

  lemma TwoTestsThenReplace(s: Secret, t: Operation, u: Operation, r: Operation)
    requires t.Test? && u.Test? && r.Replace?
    ensures Patched(s, [t, u, r]) == if At(s, t.path) == t.value && At(s, u.path) == u.value
                                     then Some(With(s, r.path, r.value)) else None
  {
    assert [t, u, r][1..] == [u, r] && [u, r][1..] == [r] && [r][1..] == [];
    assert Patched(s, [r]) == Some(With(s, r.path, r.value));
    assert Patched(s, [u, r]) == if At(s, u.path) == u.value then Patched(s, [r]) else None;
  }

  lemma RotatePatchIs(s: Secret, was: Secret, token: string)
    ensures Patched(s, RotatePatch(was, token))
      == if s.uid == was.uid && s.version == was.version then Some(s.(token := token)) else None
  {
    TwoTestsThenReplace(s, Test(Uid, was.uid), Test(ResourceVersion, was.version), Replace(Token, token));
  }

  lemma RestorePatchIs(s: Secret, was: Secret, token: string)
    ensures Patched(s, RestorePatch(was, token))
      == if s.uid == was.uid && s.token == token then Some(s.(token := was.token)) else None
  {
    TwoTestsThenReplace(s, Test(Uid, was.uid), Test(Token, token), Replace(Token, was.token));
  }

  // ----- The cluster, with other writers and a network that loses requests and answers -----

  /** What becomes of one request: answered, or reported failed with or without being carried out. */
  datatype Fate = Answered | AnswerLost | RequestLost

  /** What others do to the Secret before a request arrives, and the request's fate. */
  datatype Moment = Moment(others: Option<Secret> -> Option<Secret>, fate: Fate)

  /** The same object at the same resourceVersion is the same. */
  predicate Evolves(s: Option<Secret>, t: Option<Secret>) {
    s.Some? && t.Some? && s.value.uid == t.value.uid && s.value.version == t.value.version ==> s == t
  }

  ghost predicate Fair(m: Moment) { forall s :: Evolves(s, m.others(s)) }

  /** One write of the runner's that was carried out. */
  datatype Write = Write(before: Secret, after: Secret)

  /** What the patch makes of the Secret it meets, were it to arrive. */
  function Effect(met: Option<Secret>, ops: seq<Operation>): Option<Secret> {
    if met.None? then None else Patched(met.value, ops)
  }

  class Cluster {
    var secret: Option<Secret>
    /** The runner's writes of one rotation, in order. */
    ghost var writes: seq<Write>

    constructor (secret: Option<Secret>)
      ensures this.secret == secret && writes == []
    {
      this.secret, writes := secret, [];
    }

    /** The server gives every write a new version. */
    method Patch(ops: seq<Operation>, moment: Moment, version: string) returns (ok: bool)
      modifies this
      ensures var met := moment.others(old(secret));
        var effect := Effect(met, ops);
        && ok == (effect.Some? && moment.fate.Answered?)
        && if effect.Some? && !moment.fate.RequestLost?
           then secret == Some(effect.value.(version := version)) && writes == old(writes) + [Write(met.value, secret.value)]
           else secret == met && writes == old(writes)
    {
      secret := moment.others(secret);
      ok := false;
      if secret.Some? {
        var patched := Patched(secret.value, ops);
        if patched.Some? && !moment.fate.RequestLost? {
          ghost var before := secret.value;
          secret := Some(patched.value.(version := version));
          writes := writes + [Write(before, secret.value)];
          ok := moment.fate.Answered?;
        }
      }
    }

    /**
     `hashRead` says whether the UI's nginx hash could be read beforehand; `token` is drawn at random;
     `first` and `last` are the moments of the two patches; `observed` and `settled` say whether what is
     awaited after each comes about, or raises.
     */
    method Rotate(hashRead: bool, token: string, first: Moment, last: Moment, observed: bool, settled: bool,
      firstVersion: string, lastVersion: string) returns (outcome: Outcome)
      requires Fair(first) && Fair(last)
      modifies this
      ensures outcome.Refused? ==> writes == [] && secret == old(secret)
      ensures !outcome.Refused? <==>
        old(secret).Some? && old(secret).value.owned && old(secret).value.token != "" && hashRead
      ensures !outcome.Refused? ==>
        var was := old(secret).value;
        // Either patch replaces only what it tested for.
        && |writes| <= 2
        && (|writes| >= 1 ==> writes[0].before == was && writes[0].after.token == token)
        && (|writes| == 2 ==> writes[1].before.uid == was.uid && writes[1].before.token == token)
        && (|writes| == 2 ==> secret == Some(writes[1].after) && writes[1].after.token == was.token)
        // What the runner reports, and what it does about it.
        && (outcome.rotated <==> first.fate.Answered? && first.others(Some(was)) == Some(was))
        && (outcome.rotated ==> |writes| >= 1)
        && (|writes| >= 1 <==> first.others(Some(was)) == Some(was) && !first.fate.RequestLost?)
        && (outcome.restored ==> |writes| == 2 && secret.Some?)
        && (outcome.restored <==> outcome.rotated && last.fate.Answered? && HoldsItsToken(was, token, last, firstVersion))
        && (|writes| == 1 <==> LeavesItsToken(was, token, first, last, firstVersion))
      ensures outcome.Finished? ==> outcome.raised == !(outcome.rotated && observed && outcome.restored && settled)
    {
      writes := [];
      if secret.None? || !secret.value.owned || secret.value.token == "" {
        return Refused;
      }
      if !hashRead {
        return Refused;
      }
      var was := secret.value;
      var changed, raised, restored := false, false, false;
      RotatesOnlyWhatItRead(was, token, first);
      var ok := Patch(RotatePatch(was, token), first, firstVersion);
      if ok {
        changed := true;
        raised := !observed;
      } else {
        raised := true;
      }
      // Reached on every way out.
      if changed {
        RestoresOnlyItsOwn(last.others(secret), was, token);
        restored := Patch(RestorePatch(was, token), last, lastVersion);
        raised := raised || !restored || !settled;
      }
      outcome := Finished(changed, restored, raised);
    }
  }

  /** Refused: no Secret, no owner, no token or no hash, and nothing was tried. */
  datatype Outcome = Refused | Finished(rotated: bool, restored: bool, raised: bool)

  function Rotated(was: Secret, token: string, version: string): Secret { was.(token := token, version := version) }

  /** The restoring patch meets the same Secret with the runner's token in it. */
  predicate HoldsItsToken(was: Secret, token: string, last: Moment, version: string) {
    var met := last.others(Some(Rotated(was, token, version)));
    met.Some? && met.value.uid == was.uid && met.value.token == token
  }

  /**
   Exactly when the runner has put its token into the Secret and not taken it out again: when the
   answer to the first patch was lost, or the restoring one did not arrive or met something else.
   */
  predicate LeavesItsToken(was: Secret, token: string, first: Moment, last: Moment, version: string) {
    && first.others(Some(was)) == Some(was)
    && !first.fate.RequestLost?
    && (first.fate.Answered? ==> last.fate.RequestLost? || !HoldsItsToken(was, token, last, version))
  }

  lemma RotatesOnlyWhatItRead(was: Secret, token: string, first: Moment)
    requires Fair(first)
    ensures var met := first.others(Some(was));
      Effect(met, RotatePatch(was, token)) == if met == Some(was) then Some(was.(token := token)) else None
  {
    var met := first.others(Some(was));
    assert Evolves(Some(was), met);
    if met.Some? {
      RotatePatchIs(met.value, was, token);
    }
  }

  lemma RestoresOnlyItsOwn(met: Option<Secret>, was: Secret, token: string)
    ensures Effect(met, RestorePatch(was, token))
      == if met.Some? && met.value.uid == was.uid && met.value.token == token then Some(met.value.(token := was.token)) else None
  {
    if met.Some? {
      RestorePatchIs(met.value, was, token);
    }
  }

  /** A first patch whose answer is lost is never undone, even with nobody else writing. */
  lemma LostAnswerLeavesTheToken(was: Secret, token: string, last: Moment, version: string)
    ensures LeavesItsToken(was, token, Moment(s => s, AnswerLost), last, version)
  {
  }

  /** The other way round for LeavesItsToken: left to itself and answered, the runner takes its token out. */
  lemma AloneItRestores(was: Secret, token: string, version: string)
    ensures !LeavesItsToken(was, token, Moment(s => s, Answered), Moment(s => s, Answered), version)
  {
  }

  // ----- Waiting -----

  /** The clock after `n` looks, with the sleeps between them. */
  function TimeAfter(n: nat, look: nat -> real, slept: nat -> real): real {
    if n == 0 then 0.0
    else if n == 1 then look(0)
    else TimeAfter(n - 1, look, slept) + slept(n - 2) + look(n - 1)
  }

  /** The `k`-th look comes about: at none before it was the answer yes or the deadline passed. */
  ghost predicate GetsToLook(k: nat, timeout: real, asked: nat -> bool, look: nat -> real, slept: nat -> real) {
    forall j: nat :: j < k ==> !asked(j) && TimeAfter(j + 1, look, slept) < timeout
  }

  /**
   `asked(k)` is the answer of the k-th look, which takes `look(k)`; `slept(k)` is what the k-th sleep
   really takes.
   */
  method Wait(timeout: real, poll: real, asked: nat -> bool, look: nat -> real, slept: nat -> real)
    returns (found: bool, looks: nat, elapsed: real)
    requires timeout > 0.0 && poll > 0.0
    requires forall k :: look(k) >= 0.0 && slept(k) >= poll
    ensures looks >= 1 && elapsed == TimeAfter(looks, look, slept)
    ensures GetsToLook(looks - 1, timeout, asked, look, slept)
    ensures found == asked(looks - 1) && (!found ==> elapsed >= timeout)
    ensures (looks - 2) as real * poll < timeout
    ensures found <==> exists k: nat :: asked(k) && GetsToLook(k, timeout, asked, look, slept)
  {
    looks, elapsed := 0, 0.0;
    while true
      invariant elapsed == if looks == 0 then 0.0 else TimeAfter(looks, look, slept) + slept(looks - 1)
      invariant GetsToLook(looks, timeout, asked, look, slept)
      decreases Bound(timeout, poll) + 1 - looks
    {
      elapsed := elapsed + look(looks);
      looks := looks + 1;
      found := asked(looks - 1);
      if found || elapsed >= timeout {
        NoLaterLook(looks, timeout, asked, look, slept);
        LooksAreFew(looks, timeout, poll, asked, look, slept);
        return;
      }
      LooksAreBounded(looks, timeout, poll, look, slept);
      elapsed := elapsed + slept(looks - 1);
    }
  }

  function Bound(timeout: real, poll: real): int
    requires poll > 0.0
  {
    (timeout / poll).Floor + 1
  }

  lemma {:induction false} TimeGrows(n: nat, poll: real, look: nat -> real, slept: nat -> real)
    requires n >= 1 && poll > 0.0 && forall k :: look(k) >= 0.0 && slept(k) >= poll
    ensures TimeAfter(n, look, slept) >= (n - 1) as real * poll
  {
    if n > 1 {
      TimeGrows(n - 1, poll, look, slept);
      NextMultiple(n - 1, poll);
    }
  }

  lemma LooksAreBounded(n: nat, timeout: real, poll: real, look: nat -> real, slept: nat -> real)
    requires n >= 1 && poll > 0.0 && forall k :: look(k) >= 0.0 && slept(k) >= poll
    requires TimeAfter(n, look, slept) < timeout
    ensures n - 1 < Bound(timeout, poll)
  {
    TimeGrows(n, poll, look, slept);
    FloorBound(timeout, poll);
    BelowTheBound(n - 1, Bound(timeout, poll), poll, timeout);
  }

  lemma LooksAreFew(looks: nat, timeout: real, poll: real, asked: nat -> bool, look: nat -> real, slept: nat -> real)
    requires looks >= 1 && timeout > 0.0 && poll > 0.0 && forall k :: look(k) >= 0.0 && slept(k) >= poll
    requires GetsToLook(looks - 1, timeout, asked, look, slept)
    ensures (looks - 2) as real * poll < timeout
  {
    if looks == 1 {
      assert (looks - 2) as real * poll == -poll;
    } else {
      assert !asked(looks - 2) && TimeAfter(looks - 1, look, slept) < timeout;
      TimeGrows(looks - 1, poll, look, slept);
    }
  }

  /** After the look that ends the wait there is no other. */
  lemma NoLaterLook(looks: nat, timeout: real, asked: nat -> bool, look: nat -> real, slept: nat -> real)
    requires looks >= 1 && GetsToLook(looks - 1, timeout, asked, look, slept)
    requires asked(looks - 1) || TimeAfter(looks, look, slept) >= timeout
    ensures asked(looks - 1) <==> exists k: nat :: asked(k) && GetsToLook(k, timeout, asked, look, slept)
  {
    var last: nat := looks - 1;
    assert last + 1 == looks;
    forall k: nat | asked(k) && GetsToLook(k, timeout, asked, look, slept) ensures asked(last) {
      assert k < last ==> !asked(k);
      assert last < k ==> !asked(last) && TimeAfter(looks, look, slept) < timeout;
    }
  }

  lemma FloorBound(timeout: real, poll: real)
    requires poll > 0.0
    ensures ((timeout / poll).Floor + 1) as real * poll > timeout
  {
    var q := timeout / poll;
    assert q * poll == timeout;
    assert (q.Floor + 1) as real > q;
    MulLess(q, (q.Floor + 1) as real, poll);
  }

  lemma MulLess(a: real, b: real, p: real)
    requires a < b && p > 0.0
    ensures a * p < b * p
  {
  }

  lemma NextMultiple(n: nat, poll: real)
    requires n >= 1
    ensures n as real * poll == (n - 1) as real * poll + poll
  {
  }

  lemma BelowTheBound(n: nat, bound: int, poll: real, timeout: real)
    requires poll > 0.0 && n as real * poll < timeout < bound as real * poll
    ensures n < bound
  {
    if n >= bound {
      MulAtMost(bound as real, n as real, poll);
    }
  }

  lemma MulAtMost(a: real, b: real, p: real)
    requires a <= b && p > 0.0
    ensures a * p <= b * p
  {
  }
}
