/**
 One pass of Reconcile and its early ends: which the operator causes itself, which wait on the cluster
 or its users, and why the former run out (Reconcile in internal/controller/openshiftpulse_controller.go,
 reconcilePGStatefulSet in postgresql_reconciler.go, reconcileDeployment in agent_reconciler.go,
 reconcileUIRoute in ui_reconciler.go).
 */
module ReconcilePass {
  import opened Options
  import ClusterScoped
  import FeatureToggles
  import PgStatefulSet
  import PulseStatus

  type Image = PulseStatus.Image
  type Labels = PgStatefulSet.Labels

  /** The CR a pass is for. */
  datatype Identity = Identity(name: string, uid: string)

  /** The agent's; `restartedAt` is the annotation `oc rollout restart` leaves on the pod template. */
  datatype Deployment = Deployment(
    image: Image, selector: Option<Labels>, controller: Option<string>, restartedAt: Option<string>)

  datatype Route = Route(drifted: bool, admitted: bool)

  datatype State = State(
    who: Identity, finalizer: bool, sts: Option<PgStatefulSet.StatefulSet>, agent: Option<Deployment>, route: Option<Route>)

  /** Where a pass handles the many objects that are not modelled one by one. */
  datatype Stage = BeforeStatefulSet | AfterStatefulSet | BeforeAgent | AfterAgent | BeforeRoute | AfterRoute

  /**
   What a pass finds besides: whether admission turns the CR away; the compatibility gate and the image
   the CR resolves to; the database's image, size (None when it does not parse), storage class and
   credential hash; the features asked for and their objects; the controllers, if any, of the objects of
   each stage that the operator sets itself as the controller of; and how fast deleted objects go.
   */
  datatype Circumstances = Circumstances(
    rejected: bool, compatible: bool, image: Image,
    pgImage: string, size: Option<int>, storageClass: string, authHash: string,
    settings: FeatureToggles.Settings, features: FeatureToggles.Objects, controllers: Stage -> seq<Option<string>>,
    stsGoesAtOnce: bool, agentGoesAtOnce: bool)

  datatype Outcome =
    | Rejected
    | FinalizerAdded
    | StatefulSetTerminating
    | StatefulSetDeleted
    | AgentDeleted
    | AgentLingers
    | AgentBlocked
    | RouteCreated
    | RouteNotAdmitted
    | Refused
    | StatusSynced
  {
    /** Early returns after something the operator itself did. */
    predicate SelfCaused() { FinalizerAdded? || StatefulSetDeleted? || AgentDeleted? || RouteCreated? }

    predicate Waits() { !SelfCaused() && !StatusSynced? }
  }

  // ----- The StatefulSet, by the plan its own module gives -----

  function PgSpec(who: Identity, c: Circumstances): PgStatefulSet.Spec {
    PgStatefulSet.Spec(who.name, who.uid, c.pgImage, c.size, c.storageClass)
  }

  function StsPlan(who: Identity, sts: Option<PgStatefulSet.StatefulSet>, c: Circumstances): PgStatefulSet.Plan {
    PgStatefulSet.PlanOf(sts, PgSpec(who, c), c.authHash, true)
  }

  function StsEarly(who: Identity, sts: Option<PgStatefulSet.StatefulSet>, c: Circumstances): Option<Outcome> {
    match StsPlan(who, sts, c)
    case Wait => Some(StatefulSetTerminating)
    case Remove => Some(StatefulSetDeleted)
    case Refuse => Some(Refused)
    case _ => None
  }

  function StsAfter(who: Identity, sts: Option<PgStatefulSet.StatefulSet>, c: Circumstances): Option<PgStatefulSet.StatefulSet> {
    match StsPlan(who, sts, c)
    case Remove => if c.stsGoesAtOnce || sts.None? then None else Some(sts.value.(terminating := true))
    case Store(s) => Some(PgStatefulSet.Admit(s))
    case _ => sts
  }

  /** This is the errorless case of what that module proves of passes with failing calls. */
  lemma StatefulSetStepIsReconciled(who: Identity, sts: Option<PgStatefulSet.StatefulSet>, c: Circumstances, volume: Option<int>)
    ensures PgStatefulSet.Reconciled(
      PgStatefulSet.State(sts, volume), PgSpec(who, c), c.authHash, true, PgStatefulSet.State(StsAfter(who, sts, c), volume),
      match StsEarly(who, sts, c) case None => PgStatefulSet.Done case Some(o) => if o.Refused? then PgStatefulSet.Failed else PgStatefulSet.Requeue)
  {
  }

  predicate StsMismatched(s: State) {
    s.sts.Some? && !s.sts.value.terminating && PgStatefulSet.Mismatched(s.sts.value, s.who.name)
  }

  // ----- The agent's Deployment -----

  function AgentSelector(name: string): Labels { map["app" := ClusterScoped.AgentResourceName(name)] }

  predicate Mismatched(d: Deployment, name: string) {
    d.selector.None? || !PgStatefulSet.Agrees(d.selector.value, AgentSelector(name))
  }

  predicate AnothersAgent(who: Identity, agent: Option<Deployment>) {
    agent.Some? && agent.value.controller.Some? && agent.value.controller.value != who.uid
  }

  /** A closed compatibility gate pins the running image, and creates nothing. */
  function DeployedImage(compatible: bool, wanted: Image, running: Option<Image>): Option<Image> {
    if compatible then Some(wanted) else running
  }

  function AgentEarly(who: Identity, agent: Option<Deployment>, c: Circumstances): Option<Outcome> {
    if agent.Some? && Mismatched(agent.value, who.name) then Some(if c.agentGoesAtOnce then AgentDeleted else AgentLingers)
    else if AnothersAgent(who, agent) then Some(Refused)
    else if agent.None? && !c.compatible then Some(AgentBlocked)
    else None
  }

  function AgentAfter(who: Identity, agent: Option<Deployment>, c: Circumstances): Option<Deployment> {
    var image := DeployedImage(c.compatible, c.image, if agent.Some? then Some(agent.value.image) else None);
    if agent.Some? && Mismatched(agent.value, who.name) then (if c.agentGoesAtOnce then None else agent)
    else if AnothersAgent(who, agent) || image.None? then agent
    else if agent.Some? then Some(Deployment(image.value, agent.value.selector, Some(who.uid), agent.value.restartedAt))
    else Some(Deployment(image.value, Some(AgentSelector(who.name)), Some(who.uid), None))
  }

  predicate AgentMismatched(s: State) { s.agent.Some? && Mismatched(s.agent.value, s.who.name) }

  // ----- The pass as a function -----

  /** Some object these features want is another controller's (FeatureToggles.Refuses). */
  predicate FeatureRefused(s: State, c: Circumstances, keys: set<FeatureToggles.Key>) {
    exists k <- keys :: FeatureToggles.Wanted(c.settings, k) && FeatureToggles.Refuses(s.who.uid, k, FeatureToggles.At(c.features, k))
  }

  /** Some object of the stage is another controller's, so SetControllerReference refuses it. */
  predicate AnothersAt(who: Identity, c: Circumstances, stage: Stage) {
    exists o <- c.controllers(stage) :: o.Some? && o.value != who.uid
  }

  predicate ReachesStatefulSet(s: State, c: Circumstances) {
    !c.rejected && s.finalizer && !AnothersAt(s.who, c, BeforeStatefulSet)
  }

  predicate ReachesAgent(s: State, c: Circumstances) {
    && ReachesStatefulSet(s, c) && StsEarly(s.who, s.sts, c).None?
    && !AnothersAt(s.who, c, AfterStatefulSet) && !FeatureRefused(s, c, FeatureToggles.RENDER_KEYS) && !AnothersAt(s.who, c, BeforeAgent)
  }

  predicate ReachesRoute(s: State, c: Circumstances) {
    && ReachesAgent(s, c) && AgentEarly(s.who, s.agent, c).None?
    && !AnothersAt(s.who, c, AfterAgent) && !FeatureRefused(s, c, FeatureToggles.MCP_KEYS)
    && !FeatureRefused(s, c, FeatureToggles.SERVER_KEYS + FeatureToggles.UI_KEYS) && !AnothersAt(s.who, c, BeforeRoute)
  }

  function RouteEarly(route: Option<Route>): Option<Outcome> {
    if route.None? then Some(RouteCreated) else if !route.value.admitted then Some(RouteNotAdmitted) else None
  }

  function RouteAfter(route: Option<Route>): Option<Route> {
    Some(if route.None? then Route(false, false) else route.value.(drifted := false))
  }

  function OutcomeOf(s: State, c: Circumstances): Outcome {
    if c.rejected then Rejected
    else if !s.finalizer then FinalizerAdded
    else if !ReachesStatefulSet(s, c) then Refused
    else if StsEarly(s.who, s.sts, c).Some? then StsEarly(s.who, s.sts, c).value
    else if !ReachesAgent(s, c) then Refused
    else if AgentEarly(s.who, s.agent, c).Some? then AgentEarly(s.who, s.agent, c).value
    else if !ReachesRoute(s, c) then Refused
    else if RouteEarly(s.route).Some? then RouteEarly(s.route).value
    else if AnothersAt(s.who, c, AfterRoute) then Refused
    else StatusSynced
  }

  function After(s: State, c: Circumstances): State {
    State(s.who,
      s.finalizer || !c.rejected,
      if ReachesStatefulSet(s, c) then StsAfter(s.who, s.sts, c) else s.sts,
      if ReachesAgent(s, c) then AgentAfter(s.who, s.agent, c) else s.agent,
      if ReachesRoute(s, c) then RouteAfter(s.route) else s.route)
  }

  // ----- The pass as Reconcile takes it -----

  class Installation {
    const who: Identity
    var finalizer: bool
    var sts: Option<PgStatefulSet.StatefulSet>
    var agent: Option<Deployment>
    var route: Option<Route>

    constructor (s: State)
      ensures View() == s
    {
      who, finalizer, sts, agent, route := s.who, s.finalizer, s.sts, s.agent, s.route;
    }

    function View(): State
      reads this
    {
      State(who, finalizer, sts, agent, route)
    }

    /** Carries out the plan that reconcilePGStatefulSet follows. */
    method ReconcileStatefulSet(c: Circumstances) returns (early: Option<Outcome>)
      modifies this`sts
      ensures early == StsEarly(who, old(sts), c) && sts == StsAfter(who, old(sts), c)
    {
      match StsPlan(who, sts, c) {
        case Wait => early := Some(StatefulSetTerminating);
        case Refuse => early := Some(Refused);
        case Remove =>
          if c.stsGoesAtOnce || sts.None? {
            sts := None;
          } else {
            sts := Some(sts.value.(terminating := true));
          }
          early := Some(StatefulSetDeleted);
        case Keep => early := None;
        case Store(s) =>
          sts := Some(PgStatefulSet.Admit(s));
          early := None;
      }
    }

    method ReconcileDeployment(c: Circumstances) returns (early: Option<Outcome>)
      modifies this`agent
      ensures early == AgentEarly(who, old(agent), c) && agent == AgentAfter(who, old(agent), c)
    {
      if agent.Some? {
        var existing := agent.value;
        if Mismatched(existing, who.name) {
          if c.agentGoesAtOnce {
            agent := None;
            return Some(AgentDeleted);
          }
          return Some(AgentLingers);
        }
        var desired := Deployment(c.image, existing.selector, existing.controller, None);
        if !c.compatible {
          desired := desired.(image := existing.image);
        }
        if existing.restartedAt.Some? {
          desired := desired.(restartedAt := existing.restartedAt);
        }
        if existing.controller.Some? && existing.controller.value != who.uid {
          return Some(Refused);
        }
        agent := Some(desired.(controller := Some(who.uid)));
        return None;
      }
      if !c.compatible {
        return Some(AgentBlocked);
      }
      agent := Some(Deployment(c.image, Some(AgentSelector(who.name)), Some(who.uid), None));
      return None;
    }

    method ReconcileRoute() returns (early: Option<Outcome>)
      modifies this`route
      ensures early == RouteEarly(old(route)) && route == RouteAfter(old(route))
    {
      if route.None? {
        route := Some(Route(false, false));
        return Some(RouteCreated);
      }
      if route.value.drifted {
        route := Some(route.value.(drifted := false));
      }
      if !route.value.admitted {
        return Some(RouteNotAdmitted);
      }
      return None;
    }

    /** One pass on a living CR in which no API call fails. */
    method Reconcile(c: Circumstances) returns (outcome: Outcome)
      modifies this
      ensures outcome == OutcomeOf(old(View()), c) && View() == After(old(View()), c)
    {
      ghost var was := View();
      if c.rejected {
        return Rejected;
      }
      if !finalizer {
        finalizer := true;
        return FinalizerAdded;
      }
      if AnothersAt(who, c, BeforeStatefulSet) {
        return Refused;
      }
      var early := ReconcileStatefulSet(c);
      if early.Some? {
        return early.value;
      }
      if AnothersAt(who, c, AfterStatefulSet) || FeatureRefused(View(), c, FeatureToggles.RENDER_KEYS) || AnothersAt(who, c, BeforeAgent) {
        return Refused;
      }
      assert ReachesAgent(was, c);
      early := ReconcileDeployment(c);
      if early.Some? {
        return early.value;
      }
      if AnothersAt(who, c, AfterAgent) || FeatureRefused(View(), c, FeatureToggles.MCP_KEYS)
        || FeatureRefused(View(), c, FeatureToggles.SERVER_KEYS + FeatureToggles.UI_KEYS) || AnothersAt(who, c, BeforeRoute)
      {
        return Refused;
      }
      assert ReachesRoute(was, c);
      early := ReconcileRoute();
      if early.Some? {
        return early.value;
      }
      return if AnothersAt(who, c, AfterRoute) then Refused else StatusSynced;
    }
  }

  // ----- The measure -----

  function One(b: bool): nat { if b then 1 else 0 }

  /** What the operator still has to do once: at most four things. */
  function Measure(s: State): nat {
    One(!s.finalizer) + One(StsMismatched(s)) + One(AgentMismatched(s)) + One(s.route.None?)
  }

  /** What the operator creates, and what it updates and keeps, answers to its own selectors. */
  lemma WhatItWritesMatches(s: State, c: Circumstances)
    ensures StsPlan(s.who, s.sts, c).Store? ==> !PgStatefulSet.Mismatched(StsPlan(s.who, s.sts, c).sts, s.who.name)
    ensures AgentEarly(s.who, s.agent, c).None? ==>
      AgentAfter(s.who, s.agent, c).Some? && !Mismatched(AgentAfter(s.who, s.agent, c).value, s.who.name)
  {
  }

  lemma StatefulSetPart(s: State, c: Circumstances)
    ensures One(StsMismatched(After(s, c))) == One(StsMismatched(s)) - One(OutcomeOf(s, c).StatefulSetDeleted?)
  {
    WhatItWritesMatches(s, c);
  }

  lemma AgentPart(s: State, c: Circumstances)
    ensures One(AgentMismatched(After(s, c))) == One(AgentMismatched(s)) - One(OutcomeOf(s, c).AgentDeleted?)
  {
    WhatItWritesMatches(s, c);
  }

  /** An early return the operator causes takes one of them away, and no pass adds any. */
  lemma MeasureFalls(s: State, c: Circumstances)
    ensures Measure(After(s, c)) == Measure(s) - One(OutcomeOf(s, c).SelfCaused())
  {
    StatefulSetPart(s, c);
    AgentPart(s, c);
  }

  /** Something is not the operator's to change: an unusable size, or another controller's object. */
  predicate Obstructed(s: State, c: Circumstances) {
    || (exists stage: Stage :: AnothersAt(s.who, c, stage))
    || (s.sts.None? && c.size.None?)
    || (s.sts.Some? && s.sts.value.controller.Some? && s.sts.value.controller.value != s.who.uid)
    || AnothersAgent(s.who, s.agent)
    || FeatureRefused(s, c, FeatureToggles.RENDER_KEYS) || FeatureRefused(s, c, FeatureToggles.MCP_KEYS)
    || FeatureRefused(s, c, FeatureToggles.SERVER_KEYS + FeatureToggles.UI_KEYS)
  }

  lemma StsEarlyIff(s: State, c: Circumstances)
    ensures StsEarly(s.who, s.sts, c).None? <==>
      && !StsMismatched(s) && !(s.sts.Some? && s.sts.value.terminating) && !(s.sts.None? && c.size.None?)
      && !(s.sts.Some? && s.sts.value.controller.Some? && s.sts.value.controller.value != s.who.uid)
  {
  }

  lemma AgentEarlyIff(s: State, c: Circumstances)
    ensures AgentEarly(s.who, s.agent, c).None? <==>
      !AgentMismatched(s) && !AnothersAgent(s.who, s.agent) && (s.agent.Some? || c.compatible)
  {
  }

  lemma EveryStage(who: Identity, c: Circumstances)
    ensures (exists stage: Stage :: AnothersAt(who, c, stage)) <==> (
      || AnothersAt(who, c, BeforeStatefulSet) || AnothersAt(who, c, AfterStatefulSet) || AnothersAt(who, c, BeforeAgent)
      || AnothersAt(who, c, AfterAgent) || AnothersAt(who, c, BeforeRoute) || AnothersAt(who, c, AfterRoute))
  {
    if stage: Stage :| AnothersAt(who, c, stage) {
      match stage {
        case BeforeStatefulSet => assert AnothersAt(who, c, BeforeStatefulSet);
        case AfterStatefulSet => assert AnothersAt(who, c, AfterStatefulSet);
        case BeforeAgent => assert AnothersAt(who, c, BeforeAgent);
        case AfterAgent => assert AnothersAt(who, c, AfterAgent);
        case BeforeRoute => assert AnothersAt(who, c, BeforeRoute);
        case AfterRoute => assert AnothersAt(who, c, AfterRoute);
      }
    }
  }

  lemma SyncedWhenReached(s: State, c: Circumstances)
    ensures OutcomeOf(s, c) == StatusSynced <==> ReachesRoute(s, c) && RouteEarly(s.route).None? && !AnothersAt(s.who, c, AfterRoute)
  {
  }

  /** Exactly when a pass gets to the status sync: nothing left to do, to wait for, or in the way. */
  lemma SyncedIff(s: State, c: Circumstances)
    ensures OutcomeOf(s, c) == StatusSynced <==>
      && Measure(s) == 0 && !c.rejected && !Obstructed(s, c)
      && !(s.sts.Some? && s.sts.value.terminating) && s.route.value.admitted && (s.agent.Some? || c.compatible)
  {
    SyncedWhenReached(s, c);
    EveryStage(s.who, c);
    StsEarlyIff(s, c);
    AgentEarlyIff(s, c);
  }

  lemma RefusedIsObstructed(s: State, c: Circumstances)
    requires OutcomeOf(s, c).Refused?
    ensures Obstructed(s, c)
  {
    EveryStage(s.who, c);
  }

  /** A pass that ends early without having done anything about it has one of these to wait for. */
  lemma WaitsOnlyForOthers(s: State, c: Circumstances)
    requires OutcomeOf(s, c).Waits()
    ensures c.rejected || Obstructed(s, c) || (s.sts.Some? && s.sts.value.terminating)
      || (s.route.Some? && !s.route.value.admitted) || (s.agent.None? && !c.compatible)
      || (AgentMismatched(s) && !c.agentGoesAtOnce)
  {
    if OutcomeOf(s, c).Refused? {
      RefusedIsObstructed(s, c);
    }
  }

  // ----- Whole runs -----

  datatype Step = Pass(c: Circumstances) | Others(next: State)

  function Next(s: State, step: Step): State {
    match step
    case Pass(c) => After(s, c)
    case Others(next) => next
  }

  function Run(s: State, steps: seq<Step>): State
    decreases |steps|
  {
    if steps == [] then s else Run(Next(s, steps[0]), steps[1..])
  }

  /** How many passes of the run end in each of the three ways. */
  function SelfCausedIn(s: State, steps: seq<Step>): nat
    decreases |steps|
  {
    if steps == [] then 0
    else One(steps[0].Pass? && OutcomeOf(s, steps[0].c).SelfCaused()) + SelfCausedIn(Next(s, steps[0]), steps[1..])
  }

  function WaitsIn(s: State, steps: seq<Step>): nat
    decreases |steps|
  {
    if steps == [] then 0
    else One(steps[0].Pass? && OutcomeOf(s, steps[0].c).Waits()) + WaitsIn(Next(s, steps[0]), steps[1..])
  }

  function SyncsIn(s: State, steps: seq<Step>): nat
    decreases |steps|
  {
    if steps == [] then 0
    else One(steps[0].Pass? && OutcomeOf(s, steps[0].c).StatusSynced?) + SyncsIn(Next(s, steps[0]), steps[1..])
  }

  function PassesIn(steps: seq<Step>): nat {
    if steps == [] then 0 else One(steps[0].Pass?) + PassesIn(steps[1..])
  }

  /** What others add to the measure: a Route deleted, an object swapped for a mismatched one. */
  function Raised(s: State, steps: seq<Step>): nat
    decreases |steps|
  {
    if steps == [] then 0
    else
      var t := Next(s, steps[0]);
      (if steps[0].Others? && Measure(t) > Measure(s) then Measure(t) - Measure(s) else 0) + Raised(t, steps[1..])
  }

  /** The operator's own early returns are paid for by the measure, whatever others do in between. */
  lemma {:induction false} SelfCausedIsPaidFor(s: State, steps: seq<Step>)
    ensures SelfCausedIn(s, steps) + Measure(Run(s, steps)) <= Measure(s) + Raised(s, steps)
    decreases |steps|
  {
    if steps != [] {
      if steps[0].Pass? {
        MeasureFalls(s, steps[0].c);
      }
      SelfCausedIsPaidFor(Next(s, steps[0]), steps[1..]);
    }
  }

  lemma {:induction false} EveryPassCounts(s: State, steps: seq<Step>)
    ensures PassesIn(steps) == SelfCausedIn(s, steps) + WaitsIn(s, steps) + SyncsIn(s, steps)
    decreases |steps|
  {
    if steps != [] {
      EveryPassCounts(Next(s, steps[0]), steps[1..]);
    }
  }

  /**
   From any state, at most four passes that neither wait, nor are refused, nor are set back by others
   come before a status sync.
   */
  lemma SyncWithinFivePasses(s: State, steps: seq<Step>)
    requires PassesIn(steps) > 4 + Raised(s, steps) + WaitsIn(s, steps)
    ensures SyncsIn(s, steps) >= 1
  {
    SelfCausedIsPaidFor(s, steps);
    EveryPassCounts(s, steps);
  }

  /** Nothing there but the operator's own, and a size that parses. */
  ghost predicate Clear(c: Circumstances) {
    && !c.rejected && c.compatible && c.stsGoesAtOnce && c.agentGoesAtOnce
    && c.size.Some? && c.features == map[] && forall stage: Stage :: c.controllers(stage) == []
  }

  lemma ClearPasses(s: State, c: Circumstances)
    requires Clear(c) && s.finalizer
    ensures StsMismatched(s) ==> OutcomeOf(s, c) == StatefulSetDeleted && After(s, c) == s.(sts := None)
    ensures s.sts.None? && AgentMismatched(s) ==>
      OutcomeOf(s, c) == AgentDeleted && After(s, c).agent == None && After(s, c).route == s.route && After(s, c).finalizer
      && StsEarly(s.who, After(s, c).sts, c).None? && After(s, c).who == s.who
    ensures StsEarly(s.who, s.sts, c).None? && s.agent.None? && s.route.None? ==> OutcomeOf(s, c) == RouteCreated
  {
    StsEarlyIff(s, c);
    if s.sts.None? {
      StsEarlyIff(After(s, c), c);
      WhatItWritesMatches(s, c);
    }
  }

  /** The bound of SyncWithinFivePasses is reached: from the worst start all four come first. */
  lemma FourCanBeNeeded(s0: State, c: Circumstances)
    requires Clear(c) && !s0.finalizer && StsMismatched(s0) && AgentMismatched(s0) && s0.route.None?
    ensures SelfCausedIn(s0, [Pass(c), Pass(c), Pass(c), Pass(c)]) == 4
  {
    var p := Pass(c);
    assert [p, p, p, p][1..] == [p, p, p] && [p, p, p][1..] == [p, p] && [p, p][1..] == [p] && [p][1..] == [];
    var s1 := After(s0, c);
    assert OutcomeOf(s0, c) == FinalizerAdded && s1 == s0.(finalizer := true);
    var s2 := After(s1, c);
    ClearPasses(s1, c);
    var s3 := After(s2, c);
    ClearPasses(s2, c);
    ClearPasses(s3, c);
    assert SelfCausedIn(s3, [p]) == 1;
    assert SelfCausedIn(s2, [p, p]) == 2;
    assert SelfCausedIn(s1, [p, p, p]) == 3;
  }

  // ----- Passes that never get there -----

  /** The two ways the database refuses for as long as nobody else steps in. */
  predicate DatabaseStuck(s: State) {
    s.sts.None? || (s.sts.value.controller.Some? && s.sts.value.controller.value != s.who.uid
      && !s.sts.value.terminating && !PgStatefulSet.Mismatched(s.sts.value, s.who.name))
  }

  predicate AgentStuck(s: State) { AnothersAgent(s.who, s.agent) && !AgentMismatched(s) }

  /**
   No status is ever synced while the first StatefulSet has a size that does not parse, or while the
   StatefulSet or the agent's Deployment is another controller's, however often the operator tries.
   */
  lemma {:induction false} RefusalLasts(s: State, steps: seq<Step>)
    requires DatabaseStuck(s) || AgentStuck(s)
    requires forall i :: 0 <= i < |steps| ==> steps[i].Pass? && (s.sts.None? && !AgentStuck(s) ==> steps[i].c.size.None?)
    ensures SyncsIn(s, steps) == 0
    decreases |steps|
  {
    if steps != [] {
      var t := Next(s, steps[0]);
      SyncedIff(s, steps[0].c);
      RefusalStays(s, steps[0].c);
      RefusalLasts(t, steps[1..]);
    }
  }

  lemma RefusalStays(s: State, c: Circumstances)
    requires DatabaseStuck(s) || AgentStuck(s)
    requires s.sts.None? && !AgentStuck(s) ==> c.size.None?
    ensures AgentStuck(s) ==> AgentStuck(After(s, c))
    ensures !AgentStuck(s) ==> After(s, c).sts == s.sts && After(s, c).agent == s.agent
  {
  }

  // ----- What a pass leaves of the agent's Deployment and the Route -----

  /**
   A pass that gets past the agent leaves its Deployment running the image the CR resolves to, or behind a
   closed gate the one it ran, under this CR's control; a new one with the operator's selector, an old one
   with its own selector and restart annotation.
   */
  lemma AgentRunsWhatItShould(s: State, c: Circumstances)
    requires ReachesAgent(s, c) && AgentEarly(s.who, s.agent, c).None?
    ensures var now := After(s, c).agent;
      && now.Some? && now.value.controller == Some(s.who.uid)
      && (c.compatible ==> now.value.image == c.image)
      && (!c.compatible ==> s.agent.Some? && now.value.image == s.agent.value.image)
      && (s.agent.Some? ==> now.value.selector == s.agent.value.selector && now.value.restartedAt == s.agent.value.restartedAt)
      && (s.agent.None? ==> now.value.selector == Some(AgentSelector(s.who.name)) && now.value.restartedAt == None)
  {
  }

  /** A selector is another exactly when it has no app label, or one that is not the agent's. */
  lemma MismatchedIff(d: Deployment, name: string)
    ensures !Mismatched(d, name) <==>
      d.selector.Some? && "app" in d.selector.value && d.selector.value["app"] == name + "-openshift-sre-agent"
  {
  }

  /** A pass that reaches the Route leaves one, as the operator wants it, and admitted only if it was. */
  lemma RouteIsCorrected(s: State, c: Circumstances)
    requires ReachesRoute(s, c)
    ensures var now := After(s, c).route;
      now.Some? && !now.value.drifted && now.value.admitted == (s.route.Some? && s.route.value.admitted)
  {
  }

  /** A pass that does not get that far, or is turned away, leaves what it does not reach. */
  lemma UnreachedStays(s: State, c: Circumstances)
    ensures !ReachesStatefulSet(s, c) ==> After(s, c).sts == s.sts
    ensures !ReachesAgent(s, c) ==> After(s, c).agent == s.agent
    ensures !ReachesRoute(s, c) ==> After(s, c).route == s.route
    ensures c.rejected ==> After(s, c) == s
    ensures !c.rejected ==> After(s, c).finalizer
  {
  }

  // ----- The compatibility gate on the agent's Deployment -----

  /**
   Exactly when a pass with the gate closed takes the running image away: its Deployment has another
   selector, and goes as soon as it is deleted. One that lingers keeps its image until it is gone.
   */
  lemma ClosedGateKeepsTheImageIff(s: State, c: Circumstances)
    requires s.agent.Some? && !c.compatible && ReachesAgent(s, c)
    ensures (After(s, c).agent.Some? && After(s, c).agent.value.image == s.agent.value.image)
      <==> !(AgentMismatched(s) && c.agentGoesAtOnce)
  {
  }

  predicate GateStaysClosed(steps: seq<Step>) {
    forall i :: 0 <= i < |steps| ==> steps[i].Pass? && !steps[i].c.compatible
  }

  /** A mismatched Deployment deleted behind a closed gate is not made again while it stays closed. */
  lemma {:induction false} BlockedWhileTheGateIsClosed(s: State, steps: seq<Step>)
    requires s.agent.None? && GateStaysClosed(steps)
    ensures Run(s, steps).agent.None? && SyncsIn(s, steps) == 0
    decreases |steps|
  {
    if steps != [] {
      SyncedIff(s, steps[0].c);
      BlockedWhileTheGateIsClosed(Next(s, steps[0]), steps[1..]);
    }
  }

  /** A rollout restart survives every pass that finds a Deployment to update. */
  lemma {:induction false} RestartSurvives(s: State, steps: seq<Step>)
    requires s.agent.Some? && !AgentMismatched(s) && forall i :: 0 <= i < |steps| ==> steps[i].Pass?
    ensures var t := Run(s, steps);
      t.agent.Some? && t.agent.value.restartedAt == s.agent.value.restartedAt
    decreases |steps|
  {
    if steps != [] {
      RestartSurvives(Next(s, steps[0]), steps[1..]);
    }
  }
}
