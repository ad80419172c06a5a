/**
 Whole runs of the upgrade and automatic-rollback controller.

 One CR, its agent and UI Deployments, and everything that may happen to them: spec edits,
 operator upgrades that change the default images, Deployment changes by anyone, passes that
 come back early, passes whose status write fails, rejected passes, and passes that persist
 their sync. A status write carries the resource version the pass read, so a pass that
 persists worked from the stored status; the Deployments it read may be any past state.
 */
module UpgradeRuns {
  import opened Options
  import opened PulseStatus
  import ReconcilePass

  // ----- Deployments -----

  /** A pod, and whether it was made from its Deployment's current template. */
  datatype Pod = Pod(images: seq<Image>, current: bool, ready: bool)

  function Count(pods: seq<Pod>, counts: Pod -> bool): nat {
    if pods == [] then 0 else (if counts(pods[0]) then 1 else 0) + Count(pods[1..], counts)
  }

  /** A Deployment with the pods its status counts; `replicas` is None when the spec leaves it out. */
  datatype Deployment = Deployment(
    generation: nat, observedGeneration: nat, images: seq<Image>, replicas: Option<nat>, pods: seq<Pod>)
  {
    function StatusReplicas(): nat { |pods| }
    function UpdatedReplicas(): nat { Count(pods, (p: Pod) => p.current) }
    function ReadyReplicas(): nat { Count(pods, (p: Pod) => p.ready) }
    function Wanted(): nat { if replicas.Some? then replicas.value else 1 }

    /** Once the status has caught up, a current pod runs the template's images. */
    ghost predicate Honest() {
      observedGeneration >= generation ==> forall p <- pods :: p.current ==> p.images == images
    }
  }

  function DeploymentRolledOut(d: Deployment, image: Image): bool {
    if d.observedGeneration < d.generation then false
    else if |d.images| == 0 || d.images[0] != image then false
    else
      var want := d.Wanted();
      if want == 0 then false
      else d.UpdatedReplicas() >= want && d.ReadyReplicas() >= want && d.StatusReplicas() == d.UpdatedReplicas()
  }

  /** What it takes to say an image works: no pod runs anything else, and all that are wanted are ready. */
  ghost predicate EveryPodRuns(d: Deployment, image: Image) {
    && (forall p <- d.pods :: p.current && p.images != [] && p.images[0] == image)
    && d.images != [] && d.images[0] == image && d.generation <= d.observedGeneration
    && 1 <= d.Wanted() <= d.ReadyReplicas()
  }

  lemma {:induction false} CountsAllIff(pods: seq<Pod>, counts: Pod -> bool)
    ensures Count(pods, counts) <= |pods|
    ensures Count(pods, counts) == |pods| <==> forall p <- pods :: counts(p)
  {
    if pods != [] {
      CountsAllIff(pods[1..], counts);
      assert pods == [pods[0]] + pods[1..];
    }
  }

  /** The four counters are enough to tell: from them alone the operator learns about every pod. */
  lemma RolledOutMeansEveryPodRuns(d: Deployment, image: Image)
    requires d.Honest()
    ensures DeploymentRolledOut(d, image) <==> EveryPodRuns(d, image)
  {
    CountsAllIff(d.pods, (p: Pod) => p.current);
    CountsAllIff(d.pods, (p: Pod) => p.ready);
    if DeploymentRolledOut(d, image) {
      forall p | p in d.pods ensures p.current && p.images != [] && p.images[0] == image {
        assert ((p: Pod) => p.current)(p);
      }
    }
  }

  // ----- Worlds and steps -----

  /** One persisted status sync: what it saw of each component, and what it made of it. */
  datatype Sync = Sync(at: nat, request: Request, agentImage: Image, agentRolledOut: bool, uiImage: Image, uiRolledOut: bool,
                       agentUpgrading: bool, uiUpgrading: bool, agentRolledBack: bool, uiRolledBack: bool) {
    function ImageOf(c: Component): Image { if c.Agent? then agentImage else uiImage }
    predicate RolledOutOf(c: Component) { if c.Agent? then agentRolledOut else uiRolledOut }
    predicate Upgrading() { agentUpgrading || uiUpgrading }
    predicate RolledBack() { agentRolledBack || uiRolledBack }
    predicate RolledBackOf(c: Component) { if c.Agent? then agentRolledBack else uiRolledBack }
  }

  datatype World = World(
    request: Request,
    gate: Gate,
    status: Status,
    agentDeployments: seq<Deployment>,
    uiDeployments: seq<Deployment>,
    clock: nat,
    syncs: seq<Sync>
  ) {
    function Deployments(c: Component): seq<Deployment> { if c.Agent? then agentDeployments else uiDeployments }
  }

  /** A pass's reads of the cluster. A Deployment read is an index into its past, or None when it fails. */
  datatype Reads = Reads(agentServing: bool, agent: Option<nat>, ui: Option<nat>, pgReady: bool,
                         uiAvailable: bool, agentPods: Diagnosis, uiPods: Diagnosis)

  datatype Step =
    | Edit(request: Request, gate: Gate)
    | DeploysAgent(to: Deployment)
    | DeletesAgent
    | AgentDeploymentChanges(to: Deployment)
    | UIDeploymentChanges(to: Deployment)
    | Tick(now: nat)
    | ComesBackEarly(reachedAgent: bool)
    | IsRejected
    | LosesItsWrite
    | PersistsSync(seen: Reads)

  predicate Read(history: seq<Deployment>, at: Option<nat>, image: Image) {
    at.Some? && at.value < |history| && DeploymentRolledOut(history[at.value], image)
  }

  function Observed(w: World, r: Reads): Observation {
    Observation(
      Health(r.agentServing,
        Read(w.agentDeployments, r.agent, Resolved(w.status.agent, w.request.agent)),
        Read(w.uiDeployments, r.ui, Resolved(w.status.ui, w.request.ui)),
        r.pgReady),
      r.uiAvailable, r.agentPods, r.uiPods, w.clock)
  }

  function SyncEntry(w: World, r: Reads): Sync {
    var o := Observed(w, r);
    var agentImage, uiImage := Resolved(w.status.agent, w.request.agent), Resolved(w.status.ui, w.request.ui);
    Sync(w.clock, w.request,
      agentImage, Read(w.agentDeployments, r.agent, agentImage), uiImage, Read(w.uiDeployments, r.ui, uiImage),
      UpgradingIn(w.status, w.request, o, Agent), UpgradingIn(w.status, w.request, o, UI),
      RollbackRecorded(w.status, w.request, w.gate, o, Agent), RollbackRecorded(w.status, w.request, w.gate, o, UI))
  }

  /** What is read while a Deployment is gone: a pass deletes the agent's when its selector is another. */
  const NO_DEPLOYMENT := Deployment(0, 0, [], None, [])

  /** The image the agent's Deployment runs; None when there is no Deployment, or nothing in it. */
  function RunningAgent(w: World): Option<Image> {
    var n := |w.agentDeployments|;
    if n > 0 && w.agentDeployments[n - 1].images != [] then Some(w.agentDeployments[n - 1].images[0]) else None
  }

  /**
   Time does not go back, and a Deployment's counters count its pods. A pass that reaches the agent
   deploys what reconcileDeployment makes of the stored status and the running image.
   */
  ghost predicate Enabled(w: World, step: Step) {
    match step
    case Tick(now) => w.clock <= now
    case AgentDeploymentChanges(to) => to.Honest()
    case UIDeploymentChanges(to) => to.Honest()
    case DeploysAgent(to) =>
      && to.Honest() && to.images != []
      && Some(to.images[0]) == ReconcilePass.DeployedImage(w.gate.Compatible(), Resolved(w.status.agent, w.request.agent), RunningAgent(w))
    case _ => true
  }

  function Next(w: World, step: Step): World {
    match step
    case Edit(request, gate) => w.(request := request, gate := gate)
    case DeletesAgent => w.(agentDeployments := w.agentDeployments + [NO_DEPLOYMENT])
    case DeploysAgent(to) => w.(agentDeployments := w.agentDeployments + [to])
    case AgentDeploymentChanges(to) => w.(agentDeployments := w.agentDeployments + [to])
    case UIDeploymentChanges(to) => w.(uiDeployments := w.uiDeployments + [to])
    case Tick(now) => w.(clock := now)
    case ComesBackEarly(reachedAgent) => w.(status := FlushedStatus(w.status, w.gate, reachedAgent))
    case IsRejected =>
      w.(status := w.status.(phase := Rejected,
         conditions := w.status.conditions[Accepted := Condition(false, "NotTheClusterInstance")]))
    case LosesItsWrite => w
    case PersistsSync(seen) =>
      w.(status := PassStatus(w.status, w.request, w.gate, Observed(w, seen)), syncs := w.syncs + [SyncEntry(w, seen)])
  }

  ghost predicate EnabledRun(w: World, steps: seq<Step>)
    decreases |steps|
  {
    steps == [] || (Enabled(w, steps[0]) && EnabledRun(Next(w, steps[0]), steps[1..]))
  }

  function Run(w: World, steps: seq<Step>): World
    decreases |steps|
  {
    if steps == [] then w else Run(Next(w, steps[0]), steps[1..])
  }

  /** A CR that no pass has written status for yet. */
  ghost predicate Initial(w: World) { w.status == NO_STATUS && w.syncs == [] && DeploymentsAreHonest(w) }

  ghost predicate DeploymentsAreHonest(w: World) {
    forall c: Component, i :: 0 <= i < |w.Deployments(c)| ==> w.Deployments(c)[i].Honest()
  }

  // ----- Invariants -----

  /** A record's target is the last healthy image, and not the image it replaces. */
  ghost predicate RecordsPointToHealthy(s: Status) {
    forall c: Component :: s.Of(c).rollback.Some? ==>
      && s.Of(c).rollback.value.to == s.Of(c).lastHealthy
      && s.Of(c).lastHealthy != NoImage
      && s.Of(c).rollback.value.from != s.Of(c).lastHealthy
  }

  ghost predicate Ran(history: seq<Deployment>, image: Image) {
    exists i :: 0 <= i < |history| && DeploymentRolledOut(history[i], image)
  }

  ghost predicate HealthyImagesRan(w: World) {
    forall c: Component :: w.status.Of(c).lastHealthy != NoImage ==> Ran(w.Deployments(c), w.status.Of(c).lastHealthy)
  }

  /** The syncs from `k` up to `end` all saw an upgrade and recorded no rollback. */
  ghost predicate UnbrokenFrom(syncs: seq<Sync>, k: nat, end: nat) {
    k <= end <= |syncs| && forall i :: k <= i < end ==> syncs[i].Upgrading() && !syncs[i].RolledBack()
  }

  ghost predicate TimerStartedAt(w: World, k: nat) {
    && w.status.upgradeStartedAt.Some?
    && k < |w.syncs| && UnbrokenFrom(w.syncs, k, |w.syncs|)
    && Sec(w.syncs[k].at) == w.status.upgradeStartedAt.value
  }

  ghost predicate TimerIsHonest(w: World) {
    w.status.upgradeStartedAt.Some? ==> exists k: nat :: TimerStartedAt(w, k)
  }

  /** Sync `j` timed out an upgrade every sync since `k` had seen. */
  ghost predicate TimedOutSince(syncs: seq<Sync>, k: nat, j: nat) {
    && k <= j < |syncs|
    && UnbrokenFrom(syncs, k, j) && syncs[j].Upgrading()
    && Sec(syncs[j].at) - Sec(syncs[k].at) >= 300
  }

  ghost predicate RollbacksTimedOut(syncs: seq<Sync>) {
    forall j {:trigger syncs[j]} :: 0 <= j < |syncs| && syncs[j].RolledBack() ==> exists k: nat :: TimedOutSince(syncs, k, j)
  }

  ghost predicate TimesGrow(w: World) {
    && (forall i, j :: 0 <= i <= j < |w.syncs| ==> w.syncs[i].at <= w.syncs[j].at)
    && (forall i :: 0 <= i < |w.syncs| ==> w.syncs[i].at <= w.clock)
  }

  ghost predicate SameRequestSince(syncs: seq<Sync>, i: nat, c: Component)
    requires i < |syncs|
  {
    forall m :: i <= m < |syncs| ==> syncs[m].request.Of(c) == syncs[i].request.Of(c)
  }

  /** As long as no sync has seen another request, the record of a rollback is still there. */
  ghost predicate RecordsAreKept(w: World) {
    forall c: Component, i: nat :: i < |w.syncs| && w.syncs[i].RolledBackOf(c) && SameRequestSince(w.syncs, i, c) ==>
      w.status.Of(c).rollback.Some? && w.status.Of(c).rollback.value.from == w.syncs[i].request.Of(c)
  }

  /** Between two rollbacks of one image some sync saw the CR ask for another one. */
  ghost predicate OneRollbackPerRequest(syncs: seq<Sync>) {
    forall c: Component, i, j :: 0 <= i < j < |syncs| && syncs[i].RolledBackOf(c) && syncs[j].RolledBackOf(c) ==>
      exists m :: i < m <= j && syncs[m].request.Of(c) != syncs[i].request.Of(c)
  }

  ghost predicate Inv(w: World) {
    && RecordsPointToHealthy(w.status)
    && DeploymentsAreHonest(w)
    && HealthyImagesRan(w)
    && TimesGrow(w)
    && TimerIsHonest(w)
    && RollbacksTimedOut(w.syncs)
    && RecordsAreKept(w)
    && OneRollbackPerRequest(w.syncs)
  }

  // ----- One sync -----

  /** The component's part of a pass, from what it read to what it writes. */
  lemma PassTrack(s: Status, req: Request, g: Gate, o: Observation, c: Component)
    ensures PassStatus(s, req, g, o).Of(c) ==
      RolledBackTrack(SyncedTrack(s.Of(c), req.Of(c), o.health.RolledOut(c)), req.Of(c), RollbackRecorded(s, req, g, o, c), o.now)
  {
  }

  /** A rollback is recorded exactly when the timer ran out on an upgrading component the gate did not hold back. */
  lemma RecordedIff(s: Status, req: Request, g: Gate, o: Observation, c: Component)
    requires RecordsPointToHealthy(s)
    ensures RollbackRecorded(s, req, g, o, c) <==>
      && UpgradingIn(s, req, o, c)
      && s.upgradeStartedAt.Some? && Since(s.upgradeStartedAt.value, o.now) >= UPGRADE_HEALTH_TIMEOUT
      && (c.Agent? ==> !Gated(WithGate(s, g)))
  {
    if UpgradingIn(s, req, o, c) {
      assert Resolved(s.Of(c), req.Of(c)) != s.Of(c).lastHealthy;
      assert AnyUpgrading(Entering(s, g, o), req, o.health);
      GateIsLeftAlone(s, req, g, o);
    }
  }

  lemma GateIsLeftAlone(s: Status, req: Request, g: Gate, o: Observation)
    ensures Gated(SyncOf(s, req, g, o)) <==> Gated(WithGate(s, g))
    ensures Gated(PassStatus(s, req, g, o)) <==> Gated(WithGate(s, g))
  {
  }

  lemma RecordsStayHealthy(s: Status, req: Request, g: Gate, o: Observation)
    requires RecordsPointToHealthy(s)
    ensures RecordsPointToHealthy(PassStatus(s, req, g, o))
  {
    forall c: Component
      ensures var t := PassStatus(s, req, g, o).Of(c); t.rollback.Some? ==>
        t.rollback.value.to == t.lastHealthy && t.lastHealthy != NoImage && t.rollback.value.from != t.lastHealthy
    {
      PassTrack(s, req, g, o, c);
      assert s.Of(c).rollback.Some? ==> s.Of(c).rollback.value.to == s.Of(c).lastHealthy;
      RecordedIff(s, req, g, o, c);
    }
  }

  /** While a record applies the component runs the last healthy image, so it is not upgrading. */
  lemma NoUpgradeUnderRecord(s: Status, req: Request, g: Gate, o: Observation, c: Component)
    requires RecordsPointToHealthy(s)
    requires s.Of(c).rollback.Some? && s.Of(c).rollback.value.from == req.Of(c)
    ensures Resolved(s.Of(c), req.Of(c)) == s.Of(c).lastHealthy
    ensures !UpgradingIn(s, req, o, c) && !RollbackRecorded(s, req, g, o, c)
    ensures PassStatus(s, req, g, o).Of(c) == s.Of(c)
  {
    assert s.Of(c).rollback.value.to == s.Of(c).lastHealthy;
    RecordedIff(s, req, g, o, c);
    PassTrack(s, req, g, o, c);
  }

  lemma HealthyImagesRanAfterSync(w: World, r: Reads)
    requires RecordsPointToHealthy(w.status) && HealthyImagesRan(w)
    ensures HealthyImagesRan(Next(w, PersistsSync(r)))
  {
    var o := Observed(w, r);
    forall c: Component
      ensures var t := PassStatus(w.status, w.request, w.gate, o).Of(c);
        t.lastHealthy != NoImage ==> Ran(w.Deployments(c), t.lastHealthy)
    {
      PassTrack(w.status, w.request, w.gate, o, c);
      assert w.status.Of(c).lastHealthy != NoImage ==> Ran(w.Deployments(c), w.status.Of(c).lastHealthy);
    }
  }

  lemma TimerAfterSync(w: World, r: Reads)
    requires RecordsPointToHealthy(w.status) && TimerIsHonest(w) && TimesGrow(w)
    ensures TimerIsHonest(Next(w, PersistsSync(r)))
  {
    var w' := Next(w, PersistsSync(r));
    var e := SyncEntry(w, r);
    if w'.status.upgradeStartedAt.Some? {
      assert e.Upgrading() && !e.RolledBack();
      if w.status.upgradeStartedAt.Some? {
        var k: nat :| TimerStartedAt(w, k);
        assert TimerStartedAt(w', k);
      } else {
        assert TimerStartedAt(w', |w.syncs|);
      }
    }
  }

  lemma JustifiedAfterSync(w: World, r: Reads)
    requires RecordsPointToHealthy(w.status) && TimerIsHonest(w) && RollbacksTimedOut(w.syncs)
    ensures RollbacksTimedOut(Next(w, PersistsSync(r)).syncs)
  {
    var syncs' := w.syncs + [SyncEntry(w, r)];
    var o := Observed(w, r);
    RecordedIff(w.status, w.request, w.gate, o, Agent);
    RecordedIff(w.status, w.request, w.gate, o, UI);
    forall j | 0 <= j < |syncs'| && syncs'[j].RolledBack()
      ensures exists k: nat :: TimedOutSince(syncs', k, j)
    {
      if j < |w.syncs| {
        assert w.syncs[j].RolledBack();
        var k: nat :| TimedOutSince(w.syncs, k, j);
        assert TimedOutSince(syncs', k, j);
      } else {
        var k: nat :| TimerStartedAt(w, k);
        assert syncs'[k] == w.syncs[k];
        assert TimedOutSince(syncs', k, j);
      }
    }
  }

  /** A request seen by every sync since `i`, the new one included, was seen by every earlier one. */
  lemma SameRequestBefore(w: World, r: Reads, i: nat, c: Component)
    requires i < |w.syncs| && SameRequestSince(w.syncs + [SyncEntry(w, r)], i, c)
    ensures SameRequestSince(w.syncs, i, c) && w.request.Of(c) == w.syncs[i].request.Of(c)
  {
    var syncs' := w.syncs + [SyncEntry(w, r)];
    assert syncs'[|w.syncs|] == SyncEntry(w, r) && syncs'[i] == w.syncs[i];
    forall m | i <= m < |w.syncs| ensures w.syncs[m].request.Of(c) == w.syncs[i].request.Of(c) {
      assert syncs'[m] == w.syncs[m];
    }
  }

  lemma KeptAfterSync(w: World, r: Reads)
    requires RecordsPointToHealthy(w.status) && RecordsAreKept(w)
    ensures RecordsAreKept(Next(w, PersistsSync(r)))
  {
    var w', o := Next(w, PersistsSync(r)), Observed(w, r);
    forall c: Component, i: nat | i < |w'.syncs| && w'.syncs[i].RolledBackOf(c) && SameRequestSince(w'.syncs, i, c)
      ensures w'.status.Of(c).rollback.Some? && w'.status.Of(c).rollback.value.from == w'.syncs[i].request.Of(c)
    {
      PassTrack(w.status, w.request, w.gate, o, c);
      if i < |w.syncs| {
        SameRequestBefore(w, r, i, c);
        assert w.syncs[i].RolledBackOf(c);
        NoUpgradeUnderRecord(w.status, w.request, w.gate, o, c);
      }
    }
  }

  /** Rolling back what sync `i` rolled back takes a request that some later sync, or this one, saw change. */
  lemma RequestChangedSince(w: World, r: Reads, c: Component, i: nat) returns (m: nat)
    requires RecordsPointToHealthy(w.status) && RecordsAreKept(w)
    requires i < |w.syncs| && w.syncs[i].RolledBackOf(c) && SyncEntry(w, r).RolledBackOf(c)
    ensures i < m <= |w.syncs| && (w.syncs + [SyncEntry(w, r)])[m].request.Of(c) != w.syncs[i].request.Of(c)
  {
    if SameRequestSince(w.syncs, i, c) {
      m := |w.syncs|;
      if w.request.Of(c) == w.syncs[i].request.Of(c) {
        NoUpgradeUnderRecord(w.status, w.request, w.gate, Observed(w, r), c);
      }
    } else {
      m :| i <= m < |w.syncs| && w.syncs[m].request.Of(c) != w.syncs[i].request.Of(c);
    }
  }

  lemma OnceAfterSync(w: World, r: Reads)
    requires RecordsPointToHealthy(w.status) && RecordsAreKept(w) && OneRollbackPerRequest(w.syncs)
    ensures OneRollbackPerRequest(w.syncs + [SyncEntry(w, r)])
  {
    var syncs' := w.syncs + [SyncEntry(w, r)];
    forall c: Component, i, j | 0 <= i < j < |syncs'| && syncs'[i].RolledBackOf(c) && syncs'[j].RolledBackOf(c)
      ensures exists m :: i < m <= j && syncs'[m].request.Of(c) != syncs'[i].request.Of(c)
    {
      assert syncs'[i] == w.syncs[i];
      if j < |w.syncs| {
        assert syncs'[j] == w.syncs[j];
        var m :| i < m <= j && w.syncs[m].request.Of(c) != w.syncs[i].request.Of(c);
        assert syncs'[m] == w.syncs[m];
      } else {
        var m := RequestChangedSince(w, r, c, i);
      }
    }
  }

  lemma InvAfterSync(w: World, r: Reads)
    requires Inv(w)
    ensures Inv(Next(w, PersistsSync(r)))
  {
    assert forall c: Component :: Next(w, PersistsSync(r)).Deployments(c) == w.Deployments(c);
    RecordsStayHealthy(w.status, w.request, w.gate, Observed(w, r));
    HealthyImagesRanAfterSync(w, r);
    TimerAfterSync(w, r);
    JustifiedAfterSync(w, r);
    KeptAfterSync(w, r);
    OnceAfterSync(w, r);
  }

  // ----- Every run -----

  /** Everything the invariants read of a world except its Deployments is as it was. */
  lemma InvIgnores(w: World, w': World)
    requires Inv(w)
    requires w'.status.agent == w.status.agent && w'.status.ui == w.status.ui
    requires w'.status.upgradeStartedAt == w.status.upgradeStartedAt
    requires w'.syncs == w.syncs && w'.clock >= w.clock
    requires DeploymentsAreHonest(w') && forall c: Component :: w.Deployments(c) <= w'.Deployments(c)
    ensures Inv(w')
  {
    forall c: Component ensures w'.status.Of(c) == w.status.Of(c) {}
    forall c: Component | w.status.Of(c).lastHealthy != NoImage
      ensures Ran(w'.Deployments(c), w.status.Of(c).lastHealthy)
    {
      var i :| 0 <= i < |w.Deployments(c)| && DeploymentRolledOut(w.Deployments(c)[i], w.status.Of(c).lastHealthy);
      assert w'.Deployments(c)[i] == w.Deployments(c)[i];
    }
    if w'.status.upgradeStartedAt.Some? {
      var k: nat :| TimerStartedAt(w, k);
      assert TimerStartedAt(w', k);
    }
    assert RecordsAreKept(w');
  }

  lemma DeploymentsStayHonest(w: World, step: Step)
    requires DeploymentsAreHonest(w) && Enabled(w, step)
    ensures DeploymentsAreHonest(Next(w, step))
    ensures forall c: Component :: w.Deployments(c) <= Next(w, step).Deployments(c)
  {
    var w' := Next(w, step);
    forall c: Component, i | 0 <= i < |w'.Deployments(c)| ensures w'.Deployments(c)[i].Honest() {
      if i < |w.Deployments(c)| {
        assert w'.Deployments(c)[i] == w.Deployments(c)[i];
      }
    }
  }

  lemma InvAfterStep(w: World, step: Step)
    requires Inv(w) && Enabled(w, step)
    ensures Inv(Next(w, step))
  {
    if step.PersistsSync? {
      InvAfterSync(w, step.seen);
    } else {
      DeploymentsStayHonest(w, step);
      InvIgnores(w, Next(w, step));
    }
  }

  lemma {:induction false} InvAlongRun(w: World, steps: seq<Step>)
    requires Inv(w) && EnabledRun(w, steps)
    ensures Inv(Run(w, steps))
    decreases |steps|
  {
    if steps != [] {
      InvAfterStep(w, steps[0]);
      InvAlongRun(Next(w, steps[0]), steps[1..]);
    }
  }

  lemma Reachable(w: World, steps: seq<Step>)
    requires Initial(w) && EnabledRun(w, steps)
    ensures Inv(Run(w, steps))
  {
    InvAlongRun(w, steps);
  }

  // ----- Main results -----

  /**
   Anti-loop, over every run: a stored record sends the component to its last healthy image, away
   from the one asked for; under it the next pass neither calls the component upgrading nor
   records a second rollback, and leaves the record as it is.
   */
  lemma OneRollbackAtATime(w0: World, steps: seq<Step>, c: Component, g: Gate, o: Observation)
    requires Initial(w0) && EnabledRun(w0, steps)
    requires var w := Run(w0, steps); w.status.Of(c).rollback.Some?
    ensures var w := Run(w0, steps);
      && w.status.Of(c).rollback.value.to == w.status.Of(c).lastHealthy != NoImage
      && w.status.Of(c).rollback.value.from != w.status.Of(c).lastHealthy
      && (w.status.Of(c).rollback.value.from == w.request.Of(c) ==>
            && !UpgradingIn(w.status, w.request, o, c)
            && !RollbackRecorded(w.status, w.request, g, o, c)
            && PassStatus(w.status, w.request, g, o).Of(c) == w.status.Of(c))
  {
    var w := Run(w0, steps);
    Reachable(w0, steps);
    if w.status.Of(c).rollback.value.from == w.request.Of(c) {
      NoUpgradeUnderRecord(w.status, w.request, g, o, c);
    }
  }

  /** One rollback per bad image: to roll it back again, some sync in between must have seen another request. */
  lemma SecondRollbackNeedsAnotherRequest(w0: World, steps: seq<Step>, c: Component, i: nat, j: nat)
    requires Initial(w0) && EnabledRun(w0, steps)
    requires var syncs := Run(w0, steps).syncs; i < j < |syncs| && syncs[i].RolledBackOf(c) && syncs[j].RolledBackOf(c)
    requires var syncs := Run(w0, steps).syncs; syncs[i].request.Of(c) == syncs[j].request.Of(c)
    ensures var syncs := Run(w0, steps).syncs;
      exists m :: i < m < j && syncs[m].request.Of(c) != syncs[i].request.Of(c)
  {
    Reachable(w0, steps);
  }

  /** Whatever stale Deployment states the passes read, every remembered image and rollback target really ran. */
  lemma HealthyImagesReallyRan(w0: World, steps: seq<Step>, c: Component)
    requires Initial(w0) && EnabledRun(w0, steps)
    ensures var w := Run(w0, steps);
      && (w.status.Of(c).lastHealthy != NoImage ==>
            exists i :: 0 <= i < |w.Deployments(c)| && EveryPodRuns(w.Deployments(c)[i], w.status.Of(c).lastHealthy))
      && (w.status.Of(c).rollback.Some? ==>
            exists i :: 0 <= i < |w.Deployments(c)| && EveryPodRuns(w.Deployments(c)[i], w.status.Of(c).rollback.value.to))
  {
    var w := Run(w0, steps);
    Reachable(w0, steps);
    if w.status.Of(c).lastHealthy != NoImage {
      var i :| 0 <= i < |w.Deployments(c)| && DeploymentRolledOut(w.Deployments(c)[i], w.status.Of(c).lastHealthy);
      RolledOutMeansEveryPodRuns(w.Deployments(c)[i], w.status.Of(c).lastHealthy);
    }
  }

  /** Each persisted rollback ends an unbroken run of upgrading syncs at least five minutes long. */
  lemma RollbackWaitedOutTheTimer(w0: World, steps: seq<Step>, j: nat)
    requires Initial(w0) && EnabledRun(w0, steps)
    requires j < |Run(w0, steps).syncs| && Run(w0, steps).syncs[j].RolledBack()
    ensures exists k: nat :: k < j && TimedOutSince(Run(w0, steps).syncs, k, j)
  {
    Reachable(w0, steps);
    var syncs := Run(w0, steps).syncs;
    var k: nat :| TimedOutSince(syncs, k, j);
    assert k < j;
  }

  /** Two passes that persist a rollback are at least five minutes apart. */
  lemma RollbacksAreFarApart(w0: World, steps: seq<Step>, i: nat, j: nat)
    requires Initial(w0) && EnabledRun(w0, steps)
    requires var syncs := Run(w0, steps).syncs; i < j < |syncs| && syncs[i].RolledBack() && syncs[j].RolledBack()
    ensures var syncs := Run(w0, steps).syncs; Sec(syncs[j].at) - Sec(syncs[i].at) >= 300
  {
    Reachable(w0, steps);
    var syncs := Run(w0, steps).syncs;
    RollbackWaitedOutTheTimer(w0, steps, j);
    var k: nat :| k < j && TimedOutSince(syncs, k, j);
    assert k > i;
    assert syncs[i].at <= syncs[k].at;
  }
}
