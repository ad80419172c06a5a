/**
 The PostgreSQL StatefulSet and its volume: immutable fields, drift detection that settles, a guard
 on the server's major version, and a volume that only grows (reconcilePGStatefulSet,
 guardPGMajorVersion and expandPGVolume in internal/controller/postgresql_reconciler.go).
 */
module PgStatefulSet {
  import opened Decimal
  import opened Options

  // ----- The major version in an image reference: postgres(?:ql)?[-:](\d+), leftmost match -----

  const MAX_INT := 0x7fff_ffff_ffff_ffff

  function DigitsAt(s: string, i: nat): string
    requires i <= |s|
    decreases |s| - i
  {
    if i < |s| && IsDigit(s[i]) then [s[i]] + DigitsAt(s, i + 1) else ""
  }

  predicate HasAt(s: string, i: nat, word: string) {
    i + |word| <= |s| && s[i..i + |word|] == word
  }

  /** The digits of a match that starts at `i`; "" when none does. */
  function MatchAt(s: string, i: nat): string {
    if !HasAt(s, i, "postgres") then ""
    else
      var j := if HasAt(s, i + 8, "ql") then i + 10 else i + 8;
      if j < |s| && (s[j] == '-' || s[j] == ':') then DigitsAt(s, j + 1) else ""
  }

  function FirstMatch(s: string, i: nat): string
    requires i <= |s|
    decreases |s| - i
  {
    if MatchAt(s, i) != "" || i == |s| then MatchAt(s, i) else FirstMatch(s, i + 1)
  }

  lemma {:induction false} DigitsAreDigits(s: string, i: nat)
    requires i <= |s|
    ensures AllDigits(DigitsAt(s, i))
    decreases |s| - i
  {
    if i < |s| && IsDigit(s[i]) {
      DigitsAreDigits(s, i + 1);
    }
  }

  lemma {:induction false} FirstMatchIsDigits(s: string, i: nat)
    requires i <= |s|
    ensures AllDigits(FirstMatch(s, i))
    decreases |s| - i
  {
    if HasAt(s, i, "postgres") {
      var j := if HasAt(s, i + 8, "ql") then i + 10 else i + 8;
      if j < |s| {
        DigitsAreDigits(s, j + 1);
      }
    }
    if MatchAt(s, i) == "" && i < |s| {
      FirstMatchIsDigits(s, i + 1);
    }
  }

  /** 0 stands for "not recognised", which a number too large for an int is too. */
  function MajorVersion(image: string): nat {
    FirstMatchIsDigits(image, 0);
    var v := Value(FirstMatch(image, 0));
    if v <= MAX_INT then v else 0
  }

  lemma {:induction false} FirstIsLeftmost(s: string, i: nat, j: nat)
    requires i <= j <= |s| && MatchAt(s, j) != "" && forall k :: i <= k < j ==> MatchAt(s, k) == ""
    ensures FirstMatch(s, i) == MatchAt(s, j)
    decreases j - i
  {
    if i < j {
      FirstIsLeftmost(s, i + 1, j);
    }
  }

  lemma {:induction false} DigitsUpTo(s: string, i: nat, j: nat)
    requires i <= j <= |s| && AllDigits(s[i..j]) && (j < |s| ==> !IsDigit(s[j]))
    ensures DigitsAt(s, i) == s[i..j]
    decreases j - i
  {
    if i < j {
      assert s[i..j][0] == s[i] && s[i..j][1..] == s[i + 1..j];
      DigitsUpTo(s, i + 1, j);
    }
  }

  /** The text stands in `s` at `j`: postgres, ql or not, a dash or colon, and digits up to something else. */
  predicate Stands(s: string, j: nat, ql: bool, digits: string) {
    var d := j + (if ql then 11 else 9);
    && d + |digits| <= |s| && digits != "" && AllDigits(digits)
    && HasAt(s, j, "postgres") && (ql <==> HasAt(s, j + 8, "ql")) && (s[d - 1] == '-' || s[d - 1] == ':')
    && s[d..d + |digits|] == digits && (d + |digits| < |s| ==> !IsDigit(s[d + |digits|]))
  }

  lemma StandsIsMatched(s: string, j: nat, ql: bool, digits: string)
    requires Stands(s, j, ql, digits)
    ensures MatchAt(s, j) == digits
  {
    var d := j + (if ql then 11 else 9);
    DigitsUpTo(s, d, d + |digits|);
  }

  lemma MatchedIs(s: string, j: nat)
    requires MatchAt(s, j) != ""
    ensures var d := j + (if HasAt(s, j + 8, "ql") then 11 else 9);
      d <= |s| && HasAt(s, j, "postgres") && (s[d - 1] == '-' || s[d - 1] == ':') && MatchAt(s, j) == DigitsAt(s, d)
  {
  }

  lemma MatchedStands(s: string, j: nat)
    requires MatchAt(s, j) != ""
    ensures Stands(s, j, HasAt(s, j + 8, "ql"), MatchAt(s, j))
  {
    MatchedIs(s, j);
    DigitsEndWhereTheyDo(s, j + (if HasAt(s, j + 8, "ql") then 11 else 9));
  }

  lemma {:induction false} DigitsEndWhereTheyDo(s: string, i: nat)
    requires i <= |s|
    ensures var n := |DigitsAt(s, i)|;
      i + n <= |s| && DigitsAt(s, i) == s[i..i + n] && AllDigits(DigitsAt(s, i)) && (i + n < |s| ==> !IsDigit(s[i + n]))
    decreases |s| - i
  {
    if i < |s| && IsDigit(s[i]) {
      DigitsEndWhereTheyDo(s, i + 1);
      var n := |DigitsAt(s, i + 1)|;
      assert s[i..i + 1 + n] == [s[i]] + s[i + 1..i + 1 + n];
    }
  }

  /** The major version is the number in the first place where such a text stands, and 0 without one. */
  lemma MajorVersionIs(image: string, j: nat, ql: bool, digits: string)
    requires Stands(image, j, ql, digits)
    requires forall k: nat, q: bool, ds: string :: k < j ==> !Stands(image, k, q, ds)
    ensures MajorVersion(image) == if Value(digits) <= MAX_INT then Value(digits) else 0
  {
    StandsIsMatched(image, j, ql, digits);
    forall k | 0 <= k < j ensures MatchAt(image, k) == "" {
      if MatchAt(image, k) != "" {
        MatchedStands(image, k);
      }
    }
    FirstIsLeftmost(image, 0, j);
  }

  lemma {:induction false} NoMatchNoFirst(s: string, i: nat)
    requires i <= |s| && forall k :: i <= k <= |s| ==> MatchAt(s, k) == ""
    ensures FirstMatch(s, i) == ""
    decreases |s| - i
  {
    if i < |s| {
      NoMatchNoFirst(s, i + 1);
    }
  }

  lemma NoneIsUnrecognised(image: string)
    requires forall k: nat, q: bool, ds: string :: !Stands(image, k, q, ds)
    ensures MajorVersion(image) == 0
  {
    forall k | 0 <= k <= |image| ensures MatchAt(image, k) == "" {
      if MatchAt(image, k) != "" {
        MatchedStands(image, k);
      }
    }
    NoMatchNoFirst(image, 0);
  }

  predicate Recognised(image: string) { MajorVersion(image) != 0 }

  function GuardPGMajorVersion(current: string, desired: string): string {
    var from, onto := MajorVersion(current), MajorVersion(desired);
    if current == "" || from == 0 || onto == 0 || from == onto then desired else current
  }

  /** Exactly when the guard keeps the major version: both are recognised, or they agree anyway. */
  lemma GuardKeepsMajorIff(current: string, desired: string)
    ensures MajorVersion(GuardPGMajorVersion(current, desired)) == MajorVersion(current)
      <==> (Recognised(current) && Recognised(desired)) || MajorVersion(current) == MajorVersion(desired)
    ensures GuardPGMajorVersion(GuardPGMajorVersion(current, desired), desired) == GuardPGMajorVersion(current, desired)
  {
    assert MajorVersion("") == 0 by {
      assert FirstMatch("", 0) == "";
    }
  }

  // ----- Objects -----

  type Labels = map<string, string>

  /** `defaulted`: the API server has filled in the fields the operator's literal leaves out. */
  datatype Template = Template(image: string, version: string, authHash: string, defaulted: bool)

  datatype Claim = Claim(size: int, storageClass: string)

  /** `controller` is the UID of the controlling owner; the last four fields are immutable. */
  datatype StatefulSet = StatefulSet(
    labels: Labels, controller: Option<string>, template: Template, terminating: bool,
    replicas: nat, selector: Option<Labels>, serviceName: string, claims: seq<Claim>)

  /** `size` is None when spec.database.storageSize does not parse. */
  datatype Spec = Spec(name: string, uid: string, image: string, size: Option<int>, storageClass: string)

  /** `volume` is the storage request of the claim made from the template, once it exists. */
  datatype State = State(sts: Option<StatefulSet>, volume: Option<int>)

  const TEMPLATE_VERSION := "2"

  function PgLabels(name: string): Labels {
    map["app.kubernetes.io/name" := "postgresql", "app.kubernetes.io/instance" := name,
        "app.kubernetes.io/component" := "database", "app.kubernetes.io/managed-by" := "pulse-operator"]
  }

  predicate Agrees(have: Labels, wanted: Labels) {
    forall k <- wanted :: k in have && have[k] == wanted[k]
  }

  predicate Mismatched(s: StatefulSet, name: string) {
    s.selector.Some? && !Agrees(s.selector.value, PgLabels(name))
  }

  predicate Drifted(t: Template, image: string, authHash: string) {
    t.image != image || t.version != TEMPLATE_VERSION || t.authHash != authHash
  }

  /** Everything Kubernetes refuses to change on a living StatefulSet. */
  predicate SameImmutables(a: StatefulSet, b: StatefulSet) {
    a.selector == b.selector && a.serviceName == b.serviceName && a.claims == b.claims
  }

  /** What the API server stores when it accepts `s`. */
  function Admit(s: StatefulSet): StatefulSet { s.(template := s.template.(defaulted := true)) }

  ghost predicate Stored(sts: Option<StatefulSet>) { sts.Some? ==> Admit(sts.value) == sts.value }

  // ----- What one pass sets out to do -----

  datatype Plan = Wait | Remove | Refuse | Keep | Store(sts: StatefulSet)

  function Created(spec: Spec, authHash: string): StatefulSet
    requires spec.size.Some?
  {
    StatefulSet(PgLabels(spec.name), Some(spec.uid), Template(spec.image, TEMPLATE_VERSION, authHash, false), false,
      1, Some(PgLabels(spec.name)), spec.name + "-openshift-sre-agent-postgresql-headless",
      [Claim(spec.size.value, spec.storageClass)])
  }

  function Updated(s: StatefulSet, spec: Spec, image: string, authHash: string): StatefulSet {
    s.(labels := PgLabels(spec.name), controller := Some(spec.uid),
       template := if Drifted(s.template, image, authHash) then Template(image, TEMPLATE_VERSION, authHash, false) else s.template)
  }

  /** The image the pass wants: guarded by the running one only when the first read found it. */
  function WantedImage(s: StatefulSet, spec: Spec, looked: bool): string {
    if looked && s.template.image != "" then GuardPGMajorVersion(s.template.image, spec.image) else spec.image
  }

  /** What CreateOrUpdate does: create, refuse, write what changed, or nothing. */
  function CreateOrUpdatePlan(found: Option<StatefulSet>, spec: Spec, image: string, authHash: string): Plan {
    match found
    case None => if spec.size.None? then Refuse else Store(Created(spec.(image := image), authHash))
    case Some(s) =>
      if s.controller.Some? && s.controller != Some(spec.uid) then Refuse
      else
        var u := Updated(s, spec, image, authHash);
        if u == s then Keep else Store(u)
  }

  /** `looked`: the read before CreateOrUpdate's own succeeded; its error is not looked at. */
  function PlanOf(found: Option<StatefulSet>, spec: Spec, authHash: string, looked: bool): Plan {
    if looked && found.Some? && found.value.terminating then Wait
    else if looked && found.Some? && Mismatched(found.value, spec.name) then Remove
    else CreateOrUpdatePlan(found, spec, if found.Some? then WantedImage(found.value, spec, looked) else spec.image, authHash)
  }

  datatype Outcome = Done | Requeue | Failed

  /** What carrying out a plan with API errors may leave of the StatefulSet, and report. */
  predicate Carried(plan: Plan, was: Option<StatefulSet>, now: Option<StatefulSet>, outcome: Outcome) {
    match plan
    case Wait => now == was && outcome == Requeue
    case Remove =>
      && was.Some? && outcome != Done
      && (now == was || now.None? || now == Some(was.value.(terminating := true)))
      && (outcome == Requeue ==> now.None? || now.value.terminating)
    case Refuse => now == was && outcome == Failed
    case Keep => now == was && outcome != Requeue
    case Store(s) =>
      && (now == was || now == Some(Admit(s)))
      && outcome != Requeue
      && (outcome == Done ==> now == Some(Admit(s)))
  }

  /** The volume changes only to grow to the size asked for. */
  predicate Resized(plan: Plan, size: Option<int>, was: Option<int>, now: Option<int>) {
    now == was || ((plan.Keep? || plan.Store?) && size.Some? && was.Some? && now == size && size.value > was.value)
  }

  predicate Reconciled(was: State, spec: Spec, authHash: string, looked: bool, now: State, outcome: Outcome) {
    var plan := PlanOf(was.sts, spec, authHash, looked);
    Carried(plan, was.sts, now.sts, outcome) && Resized(plan, spec.size, was.volume, now.volume)
  }

  function WritesOf(plan: Plan): nat { if plan.Store? || plan.Remove? then 1 else 0 }

  method SelectorMismatch(selector: Labels, wanted: Labels) returns (mismatch: bool)
    ensures mismatch <==> !Agrees(selector, wanted)
  {
    mismatch := false;
    var rest := wanted.Keys;
    while rest != {} && !mismatch
      invariant rest <= wanted.Keys
      invariant !mismatch ==> forall k <- wanted.Keys - rest :: k in selector && selector[k] == wanted[k]
      invariant mismatch ==> !Agrees(selector, wanted)
      decreases rest
    {
      var k :| k in rest;
      rest := rest - {k};
      if k !in selector || selector[k] != wanted[k] {
        mismatch := true;
      }
    }
  }

  /** What the volume's request is to become, and stays once it is. */
  function Grown(volume: Option<int>, size: Option<int>): Option<int> {
    if volume.Some? && size.Some? && size.value > volume.value then size else volume
  }

  class Database {
    var sts: Option<StatefulSet>
    var volume: Option<int>
    /** Calls that write or delete the StatefulSet. */
    var writes: nat
    /** Calls that failed. */
    ghost var faults: nat

    constructor (state: State)
      ensures View() == state && writes == 0 && faults == 0
    {
      sts, volume, writes, faults := state.sts, state.volume, 0, 0;
    }

    ghost function View(): State
      reads this
    {
      State(sts, volume)
    }

    method Write(s: StatefulSet) returns (ok: bool)
      modifies this`sts, this`writes, this`faults
      ensures faults == old(faults) + if ok then 0 else 1
      ensures sts == old(sts) || sts == Some(Admit(s))
      ensures ok ==> sts == Some(Admit(s))
      ensures writes == old(writes) + 1
    {
      writes := writes + 1;
      if
      case true => sts := Some(Admit(s)); ok := true;
      case true => sts := Some(Admit(s)); ok := false; faults := faults + 1;
      case true => ok := false; faults := faults + 1;
    }

    /** Background deletion of the object just read: gone at once, or terminating first. */
    method Delete(s: StatefulSet) returns (ok: bool)
      requires sts == Some(s)
      modifies this`sts, this`writes, this`faults
      ensures faults == old(faults) + if ok then 0 else 1
      ensures Carried(Remove, old(sts), sts, if ok then Requeue else Failed)
      ensures writes == old(writes) + 1
    {
      writes := writes + 1;
      if
      case true => sts := Some(s.(terminating := true)); ok := true;
      case true => sts := None; ok := true;
      case true => sts := None; ok := false; faults := faults + 1;
      case true => ok := false; faults := faults + 1;
    }

    /** A failed resize is only reported; a failed read is an error. */
    method ExpandPGVolume(want: int) returns (ok: bool)
      modifies this`volume, this`faults
      ensures volume == old(volume) || (old(volume).Some? && volume == Some(want) && want > old(volume).value)
      ensures faults >= old(faults) && (!ok ==> faults > old(faults))
      ensures faults == old(faults) ==> volume == Grown(old(volume), Some(want))
    {
      if * {
        faults := faults + 1;
        return false;
      }
      if volume.Some? && want > volume.value {
        if
        case true => volume := Some(want);
        case true => faults := faults + 1;
      }
      return true;
    }

    method ReconcilePGStatefulSet(spec: Spec, authHash: string, looked: bool) returns (outcome: Outcome)
      modifies this
      ensures Reconciled(old(View()), spec, authHash, looked, View(), outcome)
      ensures writes == old(writes) + WritesOf(PlanOf(old(sts), spec, authHash, looked))
      ensures faults >= old(faults)
      ensures faults == old(faults) ==>
        var plan := PlanOf(old(sts), spec, authHash, looked);
        && outcome == (if plan.Wait? || plan.Remove? then Requeue else if plan.Refuse? then Failed else Done)
        && volume == (if plan.Keep? || plan.Store? then Grown(old(volume), spec.size) else old(volume))
    {
      var image := spec.image;
      ghost var plan := PlanOf(sts, spec, authHash, looked);
      if looked && sts.Some? {
        var found := sts.value;
        if found.terminating {
          return Requeue;
        }
        if found.selector.Some? {
          var mismatch := SelectorMismatch(found.selector.value, PgLabels(spec.name));
          if mismatch {
            assert plan == Remove;
            var ok := Delete(found);
            return if ok then Requeue else Failed;
          }
        }
        if found.template.image != "" {
          image := GuardPGMajorVersion(found.template.image, image);
        }
      }
      assert plan == CreateOrUpdatePlan(sts, spec, image, authHash);
      var ok := CreateOrUpdate(spec, image, authHash);
      if !ok {
        return Failed;
      }
      if spec.size.None? {
        return Done;
      }
      ok := ExpandPGVolume(spec.size.value);
      outcome := if ok then Done else Failed;
    }

    /** A creation sets everything; an update touches labels, owner and, on drift, the template. */
    method CreateOrUpdate(spec: Spec, image: string, authHash: string) returns (ok: bool)
      modifies this`sts, this`writes, this`faults
      ensures faults >= old(faults) && (faults == old(faults) ==> (ok <==> !CreateOrUpdatePlan(old(sts), spec, image, authHash).Refuse?))
      ensures var plan := CreateOrUpdatePlan(old(sts), spec, image, authHash);
        && Carried(plan, old(sts), sts, if ok then Done else Failed)
        && (plan.Keep? ==> ok)
        && writes == old(writes) + WritesOf(plan)
    {
      if sts.None? {
        if spec.size.None? {
          return false;
        }
        ok := Write(Created(spec.(image := image), authHash));
        return;
      }
      var was := sts.value;
      var s := was;
      s := s.(labels := PgLabels(spec.name));
      if s.controller.Some? && s.controller.value != spec.uid {
        return false;
      }
      s := s.(controller := Some(spec.uid));
      if s.template.image != image || s.template.version != TEMPLATE_VERSION || s.template.authHash != authHash {
        s := s.(template := Template(image, TEMPLATE_VERSION, authHash, false));
      }
      assert s == Updated(was, spec, image, authHash);
      if s == was {
        return true;
      }
      ok := Write(s);
    }
  }

  // ----- One pass -----

  /** The template a pass leaves is the one it found, defaults included, unless something drifted. */
  lemma TemplateRewrittenIffDrifted(s: StatefulSet, spec: Spec, authHash: string, looked: bool)
    requires Stored(Some(s)) && PlanOf(Some(s), spec, authHash, looked).Store?
    ensures var t := PlanOf(Some(s), spec, authHash, looked).sts.template;
      t != s.template <==> (s.template.image != WantedImage(s, spec, looked)
        || s.template.version != TEMPLATE_VERSION || s.template.authHash != authHash)
  {
  }

  lemma CreatedSettles(spec: Spec, authHash: string)
    requires spec.size.Some?
    ensures PlanOf(Some(Admit(Created(spec, authHash))), spec, authHash, true) == Keep
  {
    var s := Admit(Created(spec, authHash));
    GuardKeepsMajorIff(s.template.image, spec.image);
    assert Updated(s, spec, spec.image, authHash) == s;
  }

  lemma UpdatedSettles(s: StatefulSet, spec: Spec, authHash: string)
    requires !s.terminating && !Mismatched(s, spec.name)
    ensures PlanOf(Some(Admit(Updated(s, spec, WantedImage(s, spec, true), authHash))), spec, authHash, true) == Keep
  {
    var image := WantedImage(s, spec, true);
    var u := Admit(Updated(s, spec, image, authHash));
    GuardKeepsMajorIff(s.template.image, spec.image);
    assert u.template.image == image && WantedImage(u, spec, true) == image;
    assert Updated(u, spec, image, authHash) == u;
  }

  /**
   A completed pass settles: the same pass again has nothing to write to the StatefulSet, wherever the
   first began, and nothing to write to the volume exactly when the first one's resize was accepted.
   */
  lemma SecondPassWritesNothing(was: State, spec: Spec, authHash: string, now: State)
    requires Stored(was.sts) && Reconciled(was, spec, authHash, true, now, Done)
    ensures PlanOf(now.sts, spec, authHash, true) == Keep
    ensures Grown(now.volume, spec.size) == now.volume <==> now.volume == Grown(was.volume, spec.size)
  {
    if was.sts.None? {
      CreatedSettles(spec, authHash);
    } else {
      UpdatedSettles(was.sts.value, spec, authHash);
    }
  }

  /** A new StatefulSet is what the spec asks for: one replica, of the volume's size and class, on the headless Service. */
  lemma CreatedAsAsked(spec: Spec, authHash: string)
    requires spec.size.Some?
    ensures var s := Created(spec, authHash);
      && s.replicas == 1 && s.claims == [Claim(spec.size.value, spec.storageClass)]
      && s.serviceName == spec.name + "-openshift-sre-agent-postgresql" + "-headless"
      && s.template == Template(spec.image, "2", authHash, false)
      && Grown(Some(s.claims[0].size), spec.size) == Some(s.claims[0].size)
  {
    assert "-openshift-sre-agent-postgresql-headless" == "-openshift-sre-agent-postgresql" + "-headless";
    Reassociate(spec.name, "-openshift-sre-agent-postgresql", "-headless");
  }

  lemma Reassociate(a: string, b: string, c: string)
    ensures a + b + c == a + (b + c)
  {
  }

  /** The labels tell CRs apart. */
  lemma LabelsTellCrsApart(a: string, b: string)
    ensures PgLabels(a) == PgLabels(b) <==> a == b
    ensures Agrees(PgLabels(a), PgLabels(b)) <==> a == b
  {
    assert PgLabels(a)["app.kubernetes.io/instance"] == a && PgLabels(b)["app.kubernetes.io/instance"] == b;
  }

  /** A StatefulSet is removed exactly when it is not going already and its selector lacks a label or has another. */
  lemma RemovedIff(s: StatefulSet, spec: Spec, authHash: string)
    ensures PlanOf(Some(s), spec, authHash, true).Remove? <==>
      && !s.terminating && s.selector.Some?
      && exists k <- PgLabels(spec.name).Keys :: k !in s.selector.value || s.selector.value[k] != PgLabels(spec.name)[k]
  {
  }

  /** What a pass that gets to write makes of the rest: the labels and the owner are this CR's, the immutable fields stay. */
  lemma UpdateLeaves(s: StatefulSet, spec: Spec, authHash: string, looked: bool)
    requires PlanOf(Some(s), spec, authHash, looked).Store?
    ensures var u := PlanOf(Some(s), spec, authHash, looked).sts;
      && u.labels == PgLabels(spec.name) && u.controller == Some(spec.uid)
      && SameImmutables(s, u) && u.replicas == s.replicas && u.terminating == s.terminating
      && u.template.image == WantedImage(s, spec, looked) && u.template.version == "2" && u.template.authHash == authHash
  {
  }

  /** A pass that could not read the Secret hashes "", and rewrites the template of a settled database. */
  lemma UnreadableSecretRestartsTheDatabase(was: State, spec: Spec, authHash: string)
    requires PlanOf(was.sts, spec, authHash, true) == Keep
    ensures PlanOf(was.sts, spec, "", true).Store? <==> authHash != ""
  {
  }

  lemma WantedMajorIff(s: StatefulSet, spec: Spec, looked: bool)
    ensures MajorVersion(WantedImage(s, spec, looked)) == MajorVersion(s.template.image)
      <==> (looked && Recognised(s.template.image) && Recognised(spec.image))
           || MajorVersion(s.template.image) == MajorVersion(spec.image)
  {
    GuardKeepsMajorIff(s.template.image, spec.image);
    assert MajorVersion("") == 0 by {
      assert FirstMatch("", 0) == "";
    }
  }

  /** Some way the pass can end, with calls failing or not, leaves another major version. */
  ghost predicate MayChangeMajor(s: StatefulSet, spec: Spec, authHash: string, looked: bool) {
    exists now: State, outcome ::
      Reconciled(State(Some(s), None), spec, authHash, looked, now, outcome) && now.sts.Some?
      && MajorVersion(now.sts.value.template.image) != MajorVersion(s.template.image)
  }

  /** The pass gets as far as writing: it does not wait, remove the StatefulSet, or find it another's. */
  predicate GetsToWrite(s: StatefulSet, spec: Spec, looked: bool) {
    && !(looked && (s.terminating || Mismatched(s, spec.name)))
    && (s.controller.Some? ==> s.controller.value == spec.uid)
  }

  lemma WrittenImage(s: StatefulSet, spec: Spec, authHash: string, looked: bool)
    requires GetsToWrite(s, spec, looked) && WantedImage(s, spec, looked) != s.template.image
    ensures PlanOf(Some(s), spec, authHash, looked).Store?
    ensures PlanOf(Some(s), spec, authHash, looked).sts.template.image == WantedImage(s, spec, looked)
  {
  }

  lemma OnlyWantedImageIsWritten(s: StatefulSet, spec: Spec, authHash: string, looked: bool, now: State, outcome: Outcome)
    requires Reconciled(State(Some(s), None), spec, authHash, looked, now, outcome) && now.sts.Some?
    requires now.sts.value.template.image != s.template.image
    ensures GetsToWrite(s, spec, looked) && now.sts.value.template.image == WantedImage(s, spec, looked)
  {
  }

  /**
   Exactly when a pass can change the major version of a database that runs: it gets to write, is asked
   for another one, and either skipped the read or does not recognise one of the two.
   */
  lemma PassMayChangeMajorIff(s: StatefulSet, spec: Spec, authHash: string, looked: bool)
    ensures MayChangeMajor(s, spec, authHash, looked) <==>
      && GetsToWrite(s, spec, looked) && MajorVersion(spec.image) != MajorVersion(s.template.image)
      && !(looked && Recognised(s.template.image) && Recognised(spec.image))
  {
    WantedMajorIff(s, spec, looked);
    if MayChangeMajor(s, spec, authHash, looked) {
      var now: State, outcome :| Reconciled(State(Some(s), None), spec, authHash, looked, now, outcome) && now.sts.Some?
        && MajorVersion(now.sts.value.template.image) != MajorVersion(s.template.image);
      OnlyWantedImageIsWritten(s, spec, authHash, looked, now, outcome);
    } else if GetsToWrite(s, spec, looked) && WantedImage(s, spec, looked) != s.template.image {
      WrittenImage(s, spec, authHash, looked);
      var plan := PlanOf(Some(s), spec, authHash, looked);
      var now := State(Some(Admit(plan.sts)), None);
      assert Reconciled(State(Some(s), None), spec, authHash, looked, now, Done);
    }
  }

  // ----- Whole runs -----

  /** Between passes others act: the API server keeps the immutable fields, and no volume shrinks. */
  datatype Step =
    | Pass(spec: Spec, authHash: string, looked: bool, now: State, outcome: Outcome)
    | Others(now: State)

  ghost predicate Enabled(was: State, step: Step) {
    match step
    case Pass(spec, authHash, looked, now, outcome) => Reconciled(was, spec, authHash, looked, now, outcome)
    case Others(now) =>
      && Stored(now.sts)
      && (was.sts.Some? && now.sts.Some? ==> SameImmutables(was.sts.value, now.sts.value))
      && (was.volume.Some? && now.volume.Some? ==> now.volume.value >= was.volume.value)
  }

  ghost predicate EnabledRun(was: State, steps: seq<Step>)
    decreases |steps|
  {
    steps == [] || (Enabled(was, steps[0]) && EnabledRun(steps[0].now, steps[1..]))
  }

  function Last(was: State, steps: seq<Step>): State {
    if steps == [] then was else steps[|steps| - 1].now
  }

  /** The run never loses the StatefulSet. */
  predicate SetLives(was: State, steps: seq<Step>) {
    was.sts.Some? && forall s <- steps :: s.now.sts.Some?
  }

  predicate VolumeLives(was: State, steps: seq<Step>) {
    was.volume.Some? && forall s <- steps :: s.now.volume.Some?
  }

  lemma StepKeepsImmutables(was: State, step: Step)
    requires Enabled(was, step) && was.sts.Some? && step.now.sts.Some?
    ensures SameImmutables(was.sts.value, step.now.sts.value)
  {
  }

  /** Whatever CRs, images and sizes the passes ask for and whichever calls fail. */
  lemma {:induction false} ImmutablesNeverChange(was: State, steps: seq<Step>)
    requires EnabledRun(was, steps) && SetLives(was, steps)
    ensures SameImmutables(was.sts.value, Last(was, steps).sts.value)
    decreases |steps|
  {
    if steps != [] {
      StepKeepsImmutables(was, steps[0]);
      ImmutablesNeverChange(steps[0].now, steps[1..]);
    }
  }

  lemma {:induction false} VolumeNeverShrinks(was: State, steps: seq<Step>)
    requires EnabledRun(was, steps) && VolumeLives(was, steps)
    ensures was.volume.value <= Last(was, steps).volume.value
    decreases |steps|
  {
    if steps != [] {
      VolumeNeverShrinks(steps[0].now, steps[1..]);
    }
  }

  /**
   A pass reads the running image and is asked for one whose major version it can tell; nobody but the
   operator changes the image.
   */
  predicate MajorIsKnown(was: State, step: Step)
    requires was.sts.Some? && step.now.sts.Some?
  {
    match step
    case Pass(spec, _, looked, _, _) => looked && Recognised(spec.image)
    case Others(now) => now.sts.value.template.image == was.sts.value.template.image
  }

  predicate MajorsAreKnown(was: State, steps: seq<Step>)
    requires SetLives(was, steps)
    decreases |steps|
  {
    steps == [] || (MajorIsKnown(was, steps[0]) && MajorsAreKnown(steps[0].now, steps[1..]))
  }

  lemma StepKeepsMajor(was: State, step: Step)
    requires Enabled(was, step) && was.sts.Some? && step.now.sts.Some? && MajorIsKnown(was, step)
    requires Recognised(was.sts.value.template.image)
    ensures MajorVersion(step.now.sts.value.template.image) == MajorVersion(was.sts.value.template.image)
  {
    if step.Pass? {
      WantedMajorIff(was.sts.value, step.spec, true);
    }
  }

  lemma {:induction false} MajorNeverChanges(was: State, steps: seq<Step>)
    requires EnabledRun(was, steps) && SetLives(was, steps) && MajorsAreKnown(was, steps)
    requires Recognised(was.sts.value.template.image)
    ensures MajorVersion(Last(was, steps).sts.value.template.image) == MajorVersion(was.sts.value.template.image)
    decreases |steps|
  {
    if steps != [] {
      StepKeepsMajor(was, steps[0]);
      MajorNeverChanges(steps[0].now, steps[1..]);
    }
  }

  function WithImage(s: StatefulSet, image: string): StatefulSet { s.(template := s.template.(image := image)) }

  function Tagged(digits: string): string { "postgres:" + digits }

  lemma {:induction false} DigitsToTheEnd(s: string, i: nat)
    requires i <= |s| && AllDigits(s[i..])
    ensures DigitsAt(s, i) == s[i..]
    decreases |s| - i
  {
    if i < |s| {
      assert s[i..][0] == s[i] && s[i..][1..] == s[i + 1..];
      DigitsToTheEnd(s, i + 1);
    }
  }

  lemma TagIsTheMajor(digits: string)
    requires digits != "" && AllDigits(digits) && Value(digits) <= MAX_INT
    ensures MajorVersion(Tagged(digits)) == Value(digits)
  {
    var s := Tagged(digits);
    assert s[0..8] == "postgres" && s[8] == ':' && s[9..] == digits;
    assert !HasAt(s, 8, "ql") by {
      assert |s| >= 10 ==> s[8..10][0] == ':';
    }
    DigitsToTheEnd(s, 9);
    assert MatchAt(s, 0) == digits;
  }

  lemma {:induction false} ShortIsUnrecognised(s: string, i: nat)
    requires i <= |s| < 8
    ensures FirstMatch(s, i) == ""
    decreases |s| - i
  {
    if i < |s| {
      ShortIsUnrecognised(s, i + 1);
    }
  }

  /**
   One image the guard does not recognise is enough: by way of it two passes take a living database
   from any major version to any other.
   */
  lemma UnrecognisedImageLetsTheMajorChange(s: StatefulSet, spec: Spec, was: string, now: string)
    requires Stored(Some(s)) && !s.terminating && !Mismatched(s, spec.name)
    requires s == Updated(s, spec, Tagged(was), s.template.authHash)
    requires was != "" && AllDigits(was) && now != "" && AllDigits(now) && Value(was) <= MAX_INT && Value(now) <= MAX_INT
    ensures var w0, w1 := State(Some(s), None), State(Some(WithImage(s, "db")), None);
      var w2 := State(Some(WithImage(s, Tagged(now))), None);
      && EnabledRun(w0, [Pass(spec.(image := "db"), s.template.authHash, true, w1, Done),
                         Pass(spec.(image := Tagged(now)), s.template.authHash, true, w2, Done)])
      && MajorVersion(s.template.image) == Value(was) && MajorVersion(w2.sts.value.template.image) == Value(now)
  {
    TagIsTheMajor(was);
    TagIsTheMajor(now);
    ShortIsUnrecognised("db", 0);
    var w1 := State(Some(WithImage(s, "db")), None);
    var w2 := State(Some(WithImage(s, Tagged(now))), None);
    MovesTo(s, spec, "db", w1);
    MovesTo(w1.sts.value, spec, Tagged(now), w2);
    var s0 := Pass(spec.(image := "db"), s.template.authHash, true, w1, Done);
    var s1 := Pass(spec.(image := Tagged(now)), s.template.authHash, true, w2, Done);
    assert [s0, s1][1..] == [s1] && [s1][1..] == [];
    assert EnabledRun(w1, [s1]);
  }

  /** A settled StatefulSet goes to any image the guard lets through. */
  lemma MovesTo(s: StatefulSet, spec: Spec, image: string, now: State)
    requires Stored(Some(s)) && !s.terminating && !Mismatched(s, spec.name)
    requires s == Updated(s, spec, s.template.image, s.template.authHash)
    requires !Recognised(s.template.image) || !Recognised(image)
    requires now == State(Some(WithImage(s, image)), None)
    ensures Reconciled(State(Some(s), None), spec.(image := image), s.template.authHash, true, now, Done)
  {
  }

  /** So is one failed read: the guard sits behind the first read, whose error is not looked at. */
  lemma FailedReadLetsTheMajorChange(s: StatefulSet, spec: Spec, was: string, now: string)
    requires was != "" && AllDigits(was) && now != "" && AllDigits(now)
    requires 0 < Value(was) <= MAX_INT && 0 < Value(now) <= MAX_INT && Value(was) != Value(now)
    requires Stored(Some(s)) && s == Updated(s, spec, Tagged(was), s.template.authHash) && spec.image == Tagged(now)
    ensures var after := State(Some(WithImage(s, Tagged(now))), None);
      && Recognised(s.template.image) && Recognised(spec.image)
      && Reconciled(State(Some(s), None), spec, s.template.authHash, false, after, Done)
      && MajorVersion(after.sts.value.template.image) == Value(now) != MajorVersion(s.template.image)
  {
    TagIsTheMajor(was);
    TagIsTheMajor(now);
  }
}
