/**
 The status side of one OpenShiftPulse: what a reconcile pass computes from the health
 it observed, and when it records an automatic rollback
 (internal/controller/status.go, and the image helpers of agent_reconciler.go).

 Agent and UI keep the same two facts each, so the specification speaks of a `Track`
 per component; the class below has the separate fields the CR has.
 */
module PulseStatus {
  import opened Options

  /** An image reference; the empty string, which means unset, is its own case. */
  datatype Image = NoImage | Ref(name: string)

  // Clock readings are in nanoseconds; the API server stores whole seconds.
  const UPGRADE_HEALTH_TIMEOUT: nat := 5 * 60 * 1_000_000_000

  function Sec(instant: nat): nat { instant / 1_000_000_000 }

  /** How long ago the stored second was: time.Since. */
  function Since(stored: nat, now: nat): int { now - stored * 1_000_000_000 }

  /** time.Duration.Round(time.Second) in seconds: half a second rounds away from zero. */
  function RoundToSeconds(d: int): int {
    if d >= 0 then (d + 500_000_000) / 1_000_000_000 else -((-d + 500_000_000) / 1_000_000_000)
  }

  datatype Phase = Unset | Installing | Running | Upgrading | Degraded | Rejected

  datatype ImageRollback = ImageRollback(from: Image, to: Image, at: nat)

  datatype ConditionType =
    AgentReady | DatabaseReady | UIReady | Progressing | Ready | AgentVersionCompatible | Accepted

  datatype Condition = Condition(status: bool, reason: string)

  type Conditions = map<ConditionType, Condition>

  datatype Component = Agent | UI

  /** What status remembers about one component. */
  datatype Track = Track(lastHealthy: Image, rollback: Option<ImageRollback>)

  datatype Status = Status(
    phase: Phase,
    uiAvailable: bool,
    conditions: Conditions,
    agent: Track,
    ui: Track,
    upgradeStartedAt: Option<nat>,
    lastUpgradeSeconds: int
  ) {
    function Of(c: Component): Track { if c.Agent? then agent else ui }
  }

  const NO_STATUS := Status(Unset, false, map[], Track(NoImage, None), Track(NoImage, None), None, 0)

  /** The images the CR asks for: spec, or the operator release's default. */
  datatype Request = Request(agent: Image, ui: Image) {
    function Of(c: Component): Image { if c.Agent? then agent else ui }
  }

  datatype Health = Health(agentServing: bool, agentRolledOut: bool, uiRolledOut: bool, pgReady: bool) {
    function RolledOut(c: Component): bool { if c.Agent? then agentRolledOut else uiRolledOut }
  }

  function RequestedImage(specImage: Image, releaseDefault: Image): Image {
    if specImage != NoImage then specImage else releaseDefault
  }

  function ApplyRollback(requested: Image, rb: Option<ImageRollback>): Image {
    if rb.Some? && rb.value.from == requested && rb.value.to != NoImage then rb.value.to else requested
  }

  function Resolved(t: Track, requested: Image): Image { ApplyRollback(requested, t.rollback) }

  /** The component runs, or should run, an image that is not the last one known to work. */
  predicate IsUpgrading(t: Track, requested: Image, rolledOut: bool) {
    !rolledOut && t.lastHealthy != NoImage && Resolved(t, requested) != t.lastHealthy
  }

  predicate AnyUpgrading(s: Status, req: Request, h: Health) {
    IsUpgrading(s.agent, req.agent, h.agentRolledOut) || IsUpgrading(s.ui, req.ui, h.uiRolledOut)
  }

  predicate AllServing(s: Status, h: Health) { h.agentServing && h.pgReady && s.uiAvailable }

  function CurrentRecord(rb: Option<ImageRollback>, requested: Image): Option<ImageRollback> {
    if rb.Some? && rb.value.from != requested then None else rb
  }

  function SyncedTrack(t: Track, requested: Image, rolledOut: bool): Track {
    Track(
      if rolledOut && Resolved(t, requested) != NoImage then Resolved(t, requested) else t.lastHealthy,
      CurrentRecord(t.rollback, requested))
  }

  function NextPhase(before: Phase, upgrading: bool, serving: bool): Phase {
    if upgrading then Upgrading
    else if serving then Running
    else if before in {Running, Upgrading} then Degraded
    else Installing
  }

  function NextTimer(started: Option<nat>, upgrading: bool, now: nat): Option<nat> {
    if !upgrading then None else if started.Some? then started else Some(Sec(now))
  }

  function ReadyOrNot(ready: bool): Condition {
    if ready then Condition(true, "Ready") else Condition(false, "NotReady")
  }

  function PhaseName(p: Phase): string {
    match p
    case Unset => "" case Installing => "Installing" case Running => "Running"
    case Upgrading => "Upgrading" case Degraded => "Degraded" case Rejected => "Rejected"
  }

  function ProgressingIn(p: Phase): Condition {
    if p in {Installing, Upgrading} then Condition(true, PhaseName(p))
    else if p == Running then Condition(false, "Stable")
    else Condition(false, "Degraded")
  }

  function ReadyIn(p: Phase): Condition {
    if p == Running then Condition(true, "AllComponentsHealthy") else Condition(false, PhaseName(p))
  }

  predicate CompletesUpgrade(s: Status, upgrading: bool, serving: bool) {
    !upgrading && serving && s.phase == Upgrading && s.upgradeStartedAt.Some?
  }

  function SyncedConditions(cs: Conditions, h: Health, uiAvailable: bool, phase: Phase): Conditions {
    cs[AgentReady := ReadyOrNot(h.agentServing)][DatabaseReady := ReadyOrNot(h.pgReady)]
      [UIReady := ReadyOrNot(uiAvailable)][Progressing := ProgressingIn(phase)][Ready := ReadyIn(phase)]
  }

  /** What one status sync makes of the status it read. */
  function Synced(s: Status, req: Request, h: Health, now: nat): Status {
    var upgrading := AnyUpgrading(s, req, h);
    var serving := AllServing(s, h);
    var phase := NextPhase(s.phase, upgrading, serving);
    Status(
      phase,
      s.uiAvailable,
      SyncedConditions(s.conditions, h, s.uiAvailable, phase),
      SyncedTrack(s.agent, req.agent, h.agentRolledOut),
      SyncedTrack(s.ui, req.ui, h.uiRolledOut),
      NextTimer(s.upgradeStartedAt, upgrading, now),
      if CompletesUpgrade(s, upgrading, serving)
        then RoundToSeconds(Since(s.upgradeStartedAt.value, now)) else s.lastUpgradeSeconds)
  }

  /** What the pods of a not-ready component say: they could not be listed, nothing is wrong, or why. */
  datatype Diagnosis = ListFailed | NothingWrong | Problem(reason: string)

  /** A not-ready component's condition is overwritten with the reason its pods give, if they give one. */
  function WithPodProblems(s: Status, h: Health, agentPods: Diagnosis, uiPods: Diagnosis): Status {
    var c0 := if !h.agentServing && agentPods.Problem?
                then s.conditions[AgentReady := Condition(false, agentPods.reason)] else s.conditions;
    var c1 := if !s.uiAvailable && uiPods.Problem? then c0[UIReady := Condition(false, uiPods.reason)] else c0;
    s.(conditions := c1)
  }

  predicate Gated(s: Status) {
    AgentVersionCompatible in s.conditions && !s.conditions[AgentVersionCompatible].status
  }

  predicate TimedOut(s: Status, now: nat) {
    s.phase == Upgrading && s.upgradeStartedAt.Some? && Since(s.upgradeStartedAt.value, now) >= UPGRADE_HEALTH_TIMEOUT
  }

  predicate RollsBack(s: Status, c: Component, upgrading: bool, now: nat) {
    TimedOut(s, now) && upgrading && s.Of(c).rollback.None? && s.Of(c).lastHealthy != NoImage && (c.Agent? ==> !Gated(s))
  }

  function RolledBackTrack(t: Track, requested: Image, rollsBack: bool, now: nat): Track {
    if rollsBack then t.(rollback := Some(ImageRollback(requested, t.lastHealthy, Sec(now)))) else t
  }

  function AfterAutoRollback(s: Status, req: Request, agentUpgrading: bool, uiUpgrading: bool, now: nat): Status {
    var a := RollsBack(s, Agent, agentUpgrading, now);
    var u := RollsBack(s, UI, uiUpgrading, now);
    s.(agent := RolledBackTrack(s.agent, req.agent, a, now),
       ui := RolledBackTrack(s.ui, req.ui, u, now),
       upgradeStartedAt := if a || u then None else s.upgradeStartedAt)
  }

  /** spec.agent.minOperatorVersion: whether it is set, and whether this operator build satisfies it. */
  datatype Gate = Gate(minVersionSet: bool, satisfied: bool) {
    predicate Compatible() { !minVersionSet || satisfied }
  }

  function WithGate(s: Status, g: Gate): Status {
    if !g.minVersionSet then s
    else s.(conditions := s.conditions[AgentVersionCompatible :=
      if g.Compatible() then Condition(true, "Compatible") else Condition(false, "IncompatibleVersion")])
  }

  /** Everything a pass that reaches the status sync observed on the way. */
  datatype Observation = Observation(
    health: Health, uiAvailable: bool, agentPods: Diagnosis, uiPods: Diagnosis, now: nat)

  /** The in-memory status when the sync starts. */
  function Entering(s: Status, g: Gate, o: Observation): Status { WithGate(s, g).(uiAvailable := o.uiAvailable) }

  function SyncOf(s: Status, req: Request, g: Gate, o: Observation): Status {
    WithPodProblems(Synced(Entering(s, g, o), req, o.health, o.now), o.health, o.agentPods, o.uiPods)
  }

  /** The status a pass writes when it gets to the end. */
  function PassStatus(s: Status, req: Request, g: Gate, o: Observation): Status {
    AfterAutoRollback(SyncOf(s, req, g, o), req, UpgradingIn(s, req, o, Agent), UpgradingIn(s, req, o, UI), o.now)
  }

  predicate UpgradingIn(s: Status, req: Request, o: Observation, c: Component) {
    IsUpgrading(s.Of(c), req.Of(c), o.health.RolledOut(c))
  }

  predicate RollbackRecorded(s: Status, req: Request, g: Gate, o: Observation, c: Component) {
    RollsBack(SyncOf(s, req, g, o), c, UpgradingIn(s, req, o, c), o.now)
  }

  /** The status a pass writes when it must come back before the sync (flushInstallingStatus). */
  function FlushedStatus(s: Status, g: Gate, reachedAgent: bool): Status {
    (if reachedAgent then WithGate(s, g) else s).(phase := Installing)
  }

  // ----- The CR in memory -----

  /** One OpenShiftPulse as a pass holds it. Nothing below modifies the two spec fields. */
  class OpenShiftPulse {
    var specAgentImage: Image
    var specUIImage: Image

    var phase: Phase
    var uiAvailable: bool
    var conditions: Conditions
    var lastHealthyAgentImage: Image
    var lastHealthyUIImage: Image
    var agentRollback: Option<ImageRollback>
    var uiRollback: Option<ImageRollback>
    var upgradeStartedAt: Option<nat>
    var lastUpgradeDurationSeconds: int

    constructor (specAgent: Image, specUI: Image, s: Status)
      ensures specAgentImage == specAgent && specUIImage == specUI && View() == s
    {
      specAgentImage, specUIImage := specAgent, specUI;
      phase, uiAvailable, conditions := s.phase, s.uiAvailable, s.conditions;
      lastHealthyAgentImage, agentRollback := s.agent.lastHealthy, s.agent.rollback;
      lastHealthyUIImage, uiRollback := s.ui.lastHealthy, s.ui.rollback;
      upgradeStartedAt, lastUpgradeDurationSeconds := s.upgradeStartedAt, s.lastUpgradeSeconds;
    }

    function View(): Status
      reads this
    {
      Status.Status(phase, uiAvailable, conditions, AgentTrack(), UITrack(), upgradeStartedAt, lastUpgradeDurationSeconds)
    }

    function AgentTrack(): Track
      reads this`lastHealthyAgentImage, this`agentRollback
    {
      Track(lastHealthyAgentImage, agentRollback)
    }

    function UITrack(): Track
      reads this`lastHealthyUIImage, this`uiRollback
    {
      Track(lastHealthyUIImage, uiRollback)
    }

    /** The images asked for, given the ones this operator release pins. */
    function Requested(release: Request): Request
      reads this`specAgentImage, this`specUIImage
    {
      Request(RequestedImage(specAgentImage, release.agent), RequestedImage(specUIImage, release.ui))
    }

    method SetReadyCondition(t: ConditionType, ready: bool)
      modifies this`conditions
      ensures conditions == old(conditions)[t := ReadyOrNot(ready)]
    {
      var cond := Condition(false, "NotReady");
      if ready {
        cond := Condition(true, "Ready");
      }
      conditions := conditions[t := cond];
    }

    /** A rollback record stops applying once the CR asks for a different image. */
    method DropStaleRollbacks(requested: Request)
      modifies this`agentRollback, this`uiRollback
      ensures agentRollback == CurrentRecord(old(agentRollback), requested.agent)
      ensures uiRollback == CurrentRecord(old(uiRollback), requested.ui)
    {
      if agentRollback.Some? && agentRollback.value.from != requested.agent {
        agentRollback := None;
      }
      if uiRollback.Some? && uiRollback.value.from != requested.ui {
        uiRollback := None;
      }
    }

    /** Only an image whose Deployment has rolled out is remembered as one that works. */
    method RecordHealthyImages(h: Health, agentImage: Image, uiImage: Image)
      modifies this`lastHealthyAgentImage, this`lastHealthyUIImage
      ensures lastHealthyAgentImage == if h.agentRolledOut && agentImage != NoImage then agentImage else old(lastHealthyAgentImage)
      ensures lastHealthyUIImage == if h.uiRolledOut && uiImage != NoImage then uiImage else old(lastHealthyUIImage)
    {
      if h.agentRolledOut && agentImage != NoImage {
        lastHealthyAgentImage := agentImage;
      }
      if h.uiRolledOut && uiImage != NoImage {
        lastHealthyUIImage := uiImage;
      }
    }

    method SyncTimer(upgrading: bool, now: nat)
      modifies this`upgradeStartedAt
      ensures upgradeStartedAt == NextTimer(old(upgradeStartedAt), upgrading, now)
    {
      if upgrading && upgradeStartedAt == None {
        upgradeStartedAt := Some(Sec(now));
      } else if !upgrading {
        upgradeStartedAt := None;
      }
    }

    method SyncPhase(upgrading: bool, allReady: bool, previousStart: Option<nat>, now: nat)
      modifies this`phase, this`lastUpgradeDurationSeconds
      ensures phase == NextPhase(old(phase), upgrading, allReady)
      ensures lastUpgradeDurationSeconds ==
        if !upgrading && allReady && old(phase) == Upgrading && previousStart.Some?
        then RoundToSeconds(Since(previousStart.value, now)) else old(lastUpgradeDurationSeconds)
    {
      var prevPhase := phase;
      if upgrading && allReady {
        phase := Upgrading;
      } else if allReady {
        phase := Running;
        if prevPhase == Upgrading && previousStart.Some? {
          lastUpgradeDurationSeconds := RoundToSeconds(Since(previousStart.value, now));
        }
      } else if upgrading {
        phase := Upgrading;
      } else if prevPhase == Running || prevPhase == Upgrading {
        phase := Degraded;
      } else {
        phase := Installing;
      }
    }

    /** The first half of the sync: records, last healthy images, and who is upgrading. */
    method SyncComponents(requested: Request, h: Health)
      returns (agentImage: Image, uiImage: Image, agentUpgrading: bool, uiUpgrading: bool)
      modifies this`lastHealthyAgentImage, this`lastHealthyUIImage, this`agentRollback, this`uiRollback
      ensures AgentTrack() == SyncedTrack(old(AgentTrack()), requested.agent, h.agentRolledOut)
      ensures UITrack() == SyncedTrack(old(UITrack()), requested.ui, h.uiRolledOut)
      ensures agentImage == Resolved(old(AgentTrack()), requested.agent)
      ensures uiImage == Resolved(old(UITrack()), requested.ui)
      ensures agentUpgrading == IsUpgrading(old(AgentTrack()), requested.agent, h.agentRolledOut)
      ensures uiUpgrading == IsUpgrading(old(UITrack()), requested.ui, h.uiRolledOut)
    {
      DropStaleRollbacks(requested);
      agentImage := ApplyRollback(requested.agent, agentRollback);
      uiImage := ApplyRollback(requested.ui, uiRollback);
      agentUpgrading := !h.agentRolledOut && lastHealthyAgentImage != NoImage && agentImage != lastHealthyAgentImage;
      uiUpgrading := !h.uiRolledOut && lastHealthyUIImage != NoImage && uiImage != lastHealthyUIImage;
      RecordHealthyImages(h, agentImage, uiImage);
    }

    method SyncPhaseAndConditions(release: Request, h: Health, now: nat)
      returns (agentImage: Image, uiImage: Image, agentUpgrading: bool, uiUpgrading: bool)
      modifies this`phase, this`conditions, this`lastHealthyAgentImage, this`lastHealthyUIImage,
        this`agentRollback, this`uiRollback, this`upgradeStartedAt, this`lastUpgradeDurationSeconds
      ensures View() == Synced(old(View()), Requested(release), h, now)
      ensures agentImage == Resolved(old(AgentTrack()), Requested(release).agent)
      ensures uiImage == Resolved(old(UITrack()), Requested(release).ui)
      ensures agentUpgrading == IsUpgrading(old(AgentTrack()), Requested(release).agent, h.agentRolledOut)
      ensures uiUpgrading == IsUpgrading(old(UITrack()), Requested(release).ui, h.uiRolledOut)
    {
      agentImage, uiImage, agentUpgrading, uiUpgrading := SyncComponents(Requested(release), h);

      var previousStart := upgradeStartedAt;
      var allReady := h.agentServing && h.pgReady && uiAvailable;
      var upgrading := agentUpgrading || uiUpgrading;
      assert upgrading == AnyUpgrading(old(View()), Requested(release), h) && allReady == AllServing(old(View()), h);
      SyncTimer(upgrading, now);
      SyncPhase(upgrading, allReady, previousStart, now);
      SyncConditions(h);
    }

    method SyncConditions(h: Health)
      modifies this`conditions
      ensures conditions == SyncedConditions(old(conditions), h, uiAvailable, phase)
    {
      SetReadyCondition(AgentReady, h.agentServing);
      SetReadyCondition(DatabaseReady, h.pgReady);
      SetReadyCondition(UIReady, uiAvailable);
      conditions := conditions[Progressing := ProgressingIn(phase)];
      conditions := conditions[Ready := ReadyIn(phase)];
    }

    method ReconcileAutoRollback(release: Request, agentUpgrading: bool, uiUpgrading: bool, now: nat)
      returns (rolledBack: bool)
      modifies this`agentRollback, this`uiRollback, this`upgradeStartedAt
      ensures View() == AfterAutoRollback(old(View()), Requested(release), agentUpgrading, uiUpgrading, now)
      ensures rolledBack <==> RollsBack(old(View()), Agent, agentUpgrading, now)
                              || RollsBack(old(View()), UI, uiUpgrading, now)
    {
      if phase != Upgrading || upgradeStartedAt == None {
        return false;
      }
      if Since(upgradeStartedAt.value, now) < UPGRADE_HEALTH_TIMEOUT {
        return false;
      }
      rolledBack := false;
      var gated := AgentVersionCompatible in conditions && !conditions[AgentVersionCompatible].status;
      if agentUpgrading && !gated && agentRollback == None && lastHealthyAgentImage != NoImage {
        agentRollback := Some(ImageRollback(Requested(release).agent, lastHealthyAgentImage, Sec(now)));
        rolledBack := true;
      }
      if uiUpgrading && uiRollback == None && lastHealthyUIImage != NoImage {
        uiRollback := Some(ImageRollback(Requested(release).ui, lastHealthyUIImage, Sec(now)));
        rolledBack := true;
      }
      if !rolledBack {
        return false;
      }
      upgradeStartedAt := None;
    }

    method ReportPodProblems(h: Health, agentPods: Diagnosis, uiPods: Diagnosis)
      modifies this`conditions
      ensures View() == WithPodProblems(old(View()), h, agentPods, uiPods)
    {
      if !h.agentServing && agentPods.Problem? {
        conditions := conditions[AgentReady := Condition(false, agentPods.reason)];
      }
      if !uiAvailable && uiPods.Problem? {
        conditions := conditions[UIReady := Condition(false, uiPods.reason)];
      }
    }

    method SetAgentVersionCompatibleCondition(g: Gate)
      modifies this`conditions
      ensures View() == WithGate(old(View()), g)
    {
      if g.minVersionSet {
        if g.satisfied {
          conditions := conditions[AgentVersionCompatible := Condition(true, "Compatible")];
        } else {
          conditions := conditions[AgentVersionCompatible := Condition(false, "IncompatibleVersion")];
        }
      }
    }

    /** The tail of Reconcile: from the agent's compatibility gate to the status it writes. */
    method FinishPass(release: Request, g: Gate, o: Observation) returns (rolledBack: bool)
      modifies this`phase, this`uiAvailable, this`conditions, this`lastHealthyAgentImage, this`lastHealthyUIImage,
        this`agentRollback, this`uiRollback, this`upgradeStartedAt, this`lastUpgradeDurationSeconds
      ensures View() == PassStatus(old(View()), Requested(release), g, o)
      ensures rolledBack <==> exists c: Component :: RollbackRecorded(old(View()), Requested(release), g, o, c)
    {
      ghost var was, req := View(), Requested(release);
      SetAgentVersionCompatibleCondition(g);
      uiAvailable := o.uiAvailable;
      assert View() == Entering(was, g, o);
      var _, _, agentUpgrading, uiUpgrading := SyncPhaseAndConditions(release, o.health, o.now);
      ReportPodProblems(o.health, o.agentPods, o.uiPods);
      assert View() == SyncOf(was, req, g, o);
      rolledBack := ReconcileAutoRollback(release, agentUpgrading, uiUpgrading, o.now);
      assert rolledBack <==> RollbackRecorded(was, req, g, o, Agent) || RollbackRecorded(was, req, g, o, UI);
    }

    method FlushInstallingStatus(g: Gate, reachedAgent: bool)
      modifies this`phase, this`conditions
      ensures View() == FlushedStatus(old(View()), g, reachedAgent)
    {
      if reachedAgent {
        SetAgentVersionCompatibleCondition(g);
      }
      phase := Installing;
    }
  }
}
