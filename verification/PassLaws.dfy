/**
 What one pass makes of the status, field by field and in plain terms, and what that adds up to over
 runs (internal/controller/status.go, and the image helpers of agent_reconciler.go and ui_reconciler.go).
 */
module PassLaws {
  import opened Options
  import opened PulseStatus
  import opened UpgradeRuns

  // ----- Images -----

  /** The spec's image stands whatever the release pins; without one the release decides. */
  lemma SpecBeatsTheRelease(spec: Image, release: Image)
    ensures spec != NoImage ==> RequestedImage(spec, release) == spec
    ensures RequestedImage(NoImage, release) == release
  {
  }

  /** The CR's fields are what the rest of this speaks of. */
  lemma FieldsAre(pulse: OpenShiftPulse, release: Request)
    ensures var s, req := pulse.View(), pulse.Requested(release);
      && req.agent == RequestedImage(pulse.specAgentImage, release.agent) && req.ui == RequestedImage(pulse.specUIImage, release.ui)
      && req.Of(Agent) == req.agent && req.Of(UI) == req.ui && s.Of(Agent) == s.agent && s.Of(UI) == s.ui
      && s.agent == Track(pulse.lastHealthyAgentImage, pulse.agentRollback)
      && s.ui == Track(pulse.lastHealthyUIImage, pulse.uiRollback)
      && s.phase == pulse.phase && s.uiAvailable == pulse.uiAvailable && s.conditions == pulse.conditions
      && s.upgradeStartedAt == pulse.upgradeStartedAt && s.lastUpgradeSeconds == pulse.lastUpgradeDurationSeconds
  {
  }

  /** Only a record of this very request, with a target, changes what runs; then its target does. */
  lemma RecordDecides(t: Track, requested: Image)
    ensures t.rollback.None? || t.rollback.value.from != requested ==> Resolved(t, requested) == requested
    ensures t.rollback.Some? && t.rollback.value.from == requested && t.rollback.value.to != NoImage ==>
      Resolved(t, requested) == t.rollback.value.to
  {
  }

  /** What rolled out is remembered, at once and always; nothing else is. */
  lemma RolledOutIsRemembered(s: Status, req: Request, g: Gate, o: Observation, c: Component)
    ensures var image := Resolved(s.Of(c), req.Of(c));
      PassStatus(s, req, g, o).Of(c).lastHealthy
        == if o.health.RolledOut(c) && image != NoImage then image else s.Of(c).lastHealthy
  {
  }

  /** The image of the last sync that saw the component rolled out. */
  ghost function LastSeen(syncs: seq<Sync>, c: Component): Image {
    if syncs == [] then NoImage
    else
      var last := syncs[|syncs| - 1];
      if last.RolledOutOf(c) && last.ImageOf(c) != NoImage then last.ImageOf(c) else LastSeen(syncs[..|syncs| - 1], c)
  }

  /** `LastSeen` is what its name says. */
  lemma {:induction false} LastSeenIs(syncs: seq<Sync>, c: Component)
    ensures LastSeen(syncs, c) == NoImage <==>
      forall i :: 0 <= i < |syncs| ==> !(syncs[i].RolledOutOf(c) && syncs[i].ImageOf(c) != NoImage)
    ensures LastSeen(syncs, c) != NoImage ==>
      exists j :: 0 <= j < |syncs| && syncs[j].RolledOutOf(c) && syncs[j].ImageOf(c) == LastSeen(syncs, c)
        && forall i :: j < i < |syncs| ==> !(syncs[i].RolledOutOf(c) && syncs[i].ImageOf(c) != NoImage)
  {
    if syncs != [] {
      var n := |syncs| - 1;
      var front := syncs[..n];
      LastSeenIs(front, c);
      assert forall i :: 0 <= i < n ==> syncs[i] == front[i];
      if syncs[n].RolledOutOf(c) && syncs[n].ImageOf(c) != NoImage {
        assert LastSeen(syncs, c) == syncs[n].ImageOf(c);
      } else if LastSeen(front, c) != NoImage {
        var j :| 0 <= j < n && front[j].RolledOutOf(c) && front[j].ImageOf(c) == LastSeen(front, c)
          && forall i :: j < i < n ==> !(front[i].RolledOutOf(c) && front[i].ImageOf(c) != NoImage);
        assert syncs[j] == front[j];
      }
    }
  }

  lemma StepRemembers(w: World, step: Step, c: Component)
    requires w.status.Of(c).lastHealthy == LastSeen(w.syncs, c)
    ensures Next(w, step).status.Of(c).lastHealthy == LastSeen(Next(w, step).syncs, c)
  {
    if step.PersistsSync? {
      var w' := Next(w, step);
      RolledOutIsRemembered(w.status, w.request, w.gate, Observed(w, step.seen), c);
      assert w'.syncs[..|w'.syncs| - 1] == w.syncs;
    }
  }

  lemma {:induction false} RemembersAlongRun(w: World, steps: seq<Step>, c: Component)
    requires w.status.Of(c).lastHealthy == LastSeen(w.syncs, c)
    ensures Run(w, steps).status.Of(c).lastHealthy == LastSeen(Run(w, steps).syncs, c)
    decreases |steps|
  {
    if steps != [] {
      StepRemembers(w, steps[0], c);
      RemembersAlongRun(Next(w, steps[0]), steps[1..], c);
    }
  }

  /**
   In every reachable world the last healthy image is that of the last persisted sync that saw the
   component rolled out, and there is none if none did.
   */
  lemma LastHealthyIsLastSeen(w0: World, steps: seq<Step>, c: Component)
    requires Initial(w0)
    ensures Run(w0, steps).status.Of(c).lastHealthy == LastSeen(Run(w0, steps).syncs, c)
  {
    RemembersAlongRun(w0, steps, c);
  }

  // ----- Upgrading, and rolling back -----

  /** It runs, or should run, an image that did not roll out and is not the last one that did. */
  predicate Upgrades(s: Status, req: Request, o: Observation, c: Component) {
    !o.health.RolledOut(c) && s.Of(c).lastHealthy != NoImage && Resolved(s.Of(c), req.Of(c)) != s.Of(c).lastHealthy
  }

  /** The operator build does not satisfy the CR, or an earlier pass said so and the CR no longer asks. */
  predicate HeldBack(s: Status, g: Gate) {
    if g.minVersionSet then !g.satisfied
    else AgentVersionCompatible in s.conditions && !s.conditions[AgentVersionCompatible].status
  }

  const SECONDS: nat := 1_000_000_000

  /**
   Exactly when a pass rolls a component back: it upgrades, the timer has run 300 seconds, and the agent
   is not held back. The record says from what, to what and when; any other record stays for as long as
   it applies.
   */
  lemma RollsBackExactlyWhen(s: Status, req: Request, g: Gate, o: Observation, c: Component)
    requires RecordsPointToHealthy(s)
    ensures var rollback := PassStatus(s, req, g, o).Of(c).rollback;
      if Upgrades(s, req, o, c) && s.upgradeStartedAt.Some?
         && o.now >= (s.upgradeStartedAt.value + 300) * SECONDS && (c.Agent? ==> !HeldBack(s, g))
      then rollback == Some(ImageRollback(req.Of(c), s.Of(c).lastHealthy, o.now / SECONDS))
      else rollback == if s.Of(c).rollback.Some? && s.Of(c).rollback.value.from == req.Of(c) then s.Of(c).rollback else None
  {
    RecordedIff(s, req, g, o, c);
    PassTrack(s, req, g, o, c);
    assert s.Of(c).rollback.Some? ==> s.Of(c).rollback.value.to == s.Of(c).lastHealthy;
  }

  /** The timer runs from the first second somebody upgraded, until nobody does or a rollback ends it. */
  lemma TimerIs(s: Status, req: Request, g: Gate, o: Observation)
    requires RecordsPointToHealthy(s)
    ensures var s' := PassStatus(s, req, g, o);
      var upgrading := Upgrades(s, req, o, Agent) || Upgrades(s, req, o, UI);
      var due := s.upgradeStartedAt.Some? && o.now >= (s.upgradeStartedAt.value + 300) * SECONDS;
      var rolledBack := due && ((Upgrades(s, req, o, Agent) && !HeldBack(s, g)) || Upgrades(s, req, o, UI));
      s'.upgradeStartedAt ==
        if !upgrading || rolledBack then None
        else if s.upgradeStartedAt.Some? then s.upgradeStartedAt else Some(o.now / SECONDS)
  {
    RecordedIff(s, req, g, o, Agent);
    RecordedIff(s, req, g, o, UI);
  }

  // ----- Phase and conditions -----

  lemma PhaseIs(s: Status, req: Request, g: Gate, o: Observation)
    ensures var s' := PassStatus(s, req, g, o);
      var upgrading := Upgrades(s, req, o, Agent) || Upgrades(s, req, o, UI);
      var serving := o.health.agentServing && o.health.pgReady && o.uiAvailable;
      && (s'.phase == Upgrading <==> upgrading)
      && (s'.phase == Running <==> serving && !upgrading)
      && (s'.phase == Degraded <==> !serving && !upgrading && (s.phase == Running || s.phase == Upgrading))
      && (s'.phase == Installing <==> !serving && !upgrading && s.phase != Running && s.phase != Upgrading)
      && s'.uiAvailable == o.uiAvailable
  {
  }

  /** A component's condition: ready, or the reason its pods give, or none in particular. */
  predicate ComponentCondition(cs: Conditions, t: ConditionType, ready: bool, pods: Diagnosis) {
    t in cs && cs[t] ==
      if ready then Condition(true, "Ready")
      else match pods case Problem(reason) => Condition(false, reason) case _ => Condition(false, "NotReady")
  }

  lemma ConditionsAre(s: Status, req: Request, g: Gate, o: Observation)
    ensures var s' := PassStatus(s, req, g, o);
      && ComponentCondition(s'.conditions, AgentReady, o.health.agentServing, o.agentPods)
      && ComponentCondition(s'.conditions, UIReady, o.uiAvailable, o.uiPods)
      && ComponentCondition(s'.conditions, DatabaseReady, o.health.pgReady, NothingWrong)
      && Progressing in s'.conditions && Ready in s'.conditions
      && (s'.conditions[Ready] == Condition(true, "AllComponentsHealthy") <==> s'.phase == Running)
      && (s'.phase == Running ==> s'.conditions[Progressing] == Condition(false, "Stable"))
      && (s'.phase == Upgrading ==> s'.conditions[Progressing] == Condition(true, "Upgrading") && s'.conditions[Ready] == Condition(false, "Upgrading"))
      && (s'.phase == Installing ==> s'.conditions[Progressing] == Condition(true, "Installing") && s'.conditions[Ready] == Condition(false, "Installing"))
      && (s'.phase == Degraded ==> s'.conditions[Progressing] == Condition(false, "Degraded") && s'.conditions[Ready] == Condition(false, "Degraded"))
  {
    PhaseIs(s, req, g, o);
  }

  /** Of the other conditions only the compatibility one is written, and only while the CR asks for it. */
  lemma OtherConditionsStay(s: Status, req: Request, g: Gate, o: Observation, t: ConditionType)
    requires t == Accepted || t == AgentVersionCompatible
    ensures var s' := PassStatus(s, req, g, o);
      if t == AgentVersionCompatible && g.minVersionSet
      then t in s'.conditions && s'.conditions[t] == (if g.satisfied then Condition(true, "Compatible") else Condition(false, "IncompatibleVersion"))
      else (t in s'.conditions <==> t in s.conditions) && (t in s.conditions ==> s'.conditions[t] == s.conditions[t])
  {
  }

  /** An early return says Installing and leaves everything else as it was but the compatibility condition. */
  lemma EarlyReturnLeaves(s: Status, g: Gate, reachedAgent: bool)
    ensures var s' := FlushedStatus(s, g, reachedAgent);
      && s'.phase == Installing && s'.agent == s.agent && s'.ui == s.ui && s'.upgradeStartedAt == s.upgradeStartedAt
      && s'.uiAvailable == s.uiAvailable && s'.lastUpgradeSeconds == s.lastUpgradeSeconds
      && (!reachedAgent ==> s'.conditions == s.conditions)
      && (forall t: ConditionType :: t != AgentVersionCompatible && t in s.conditions ==> t in s'.conditions && s'.conditions[t] == s.conditions[t])
  {
  }

  // ----- Times -----

  /** Stored times are whole seconds, not later than the instant and less than one earlier. */
  lemma StoredSecond(instant: nat)
    ensures 0 <= Since(Sec(instant), instant) < 1_000_000_000
  {
  }

  /** Durations round to the nearest second, half a second away from zero. */
  lemma RoundsToNearest(d: int)
    ensures -500_000_000 <= d - RoundToSeconds(d) * 1_000_000_000 <= 500_000_000
    ensures d >= 0 ==> d - RoundToSeconds(d) * 1_000_000_000 < 500_000_000
    ensures RoundToSeconds(-d) == -RoundToSeconds(d)
  {
  }
}
