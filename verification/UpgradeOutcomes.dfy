/**
 What the rollback controller does for the user: status tells one story, an image that never
 rolls out is replaced and stays replaced, and two cases where the documented five minutes or
 the documented rollback are not what the code gives.
 */
module UpgradeOutcomes {
  import opened Options
  import opened PulseStatus
  import opened UpgradeRuns
  import ReconcilePass

  // ----- Status is self-consistent -----

  predicate ConditionHolds(s: Status, t: ConditionType) { t in s.conditions && s.conditions[t].status }

  lemma SyncTellsOneStory(s: Status, req: Request, g: Gate, o: Observation)
    ensures var s' := SyncOf(s, req, g, o);
      var upgrading := UpgradingIn(s, req, o, Agent) || UpgradingIn(s, req, o, UI);
      && (s'.phase == Upgrading <==> upgrading)
      && (s'.upgradeStartedAt.Some? <==> upgrading)
      && (s'.phase == Running <==> o.health.agentServing && o.health.pgReady && o.uiAvailable && !upgrading)
      && (ConditionHolds(s', Ready) <==> s'.phase == Running)
      && (ConditionHolds(s', Progressing) <==> s'.phase in {Installing, Upgrading})
      && (ConditionHolds(s', AgentReady) <==> o.health.agentServing)
      && (ConditionHolds(s', DatabaseReady) <==> o.health.pgReady)
      && (ConditionHolds(s', UIReady) <==> o.uiAvailable)
  {
  }

  /** What is stored at the end of a pass: only the timer tells a recorded rollback from a running upgrade. */
  lemma PassTellsOneStory(s: Status, req: Request, g: Gate, o: Observation)
    ensures var s' := PassStatus(s, req, g, o);
      var rolledBack := RollbackRecorded(s, req, g, o, Agent) || RollbackRecorded(s, req, g, o, UI);
      && (s'.phase == Upgrading <==> UpgradingIn(s, req, o, Agent) || UpgradingIn(s, req, o, UI))
      && (s'.upgradeStartedAt.Some? <==> s'.phase == Upgrading && !rolledBack)
      && (ConditionHolds(s', Ready) <==> s'.phase == Running)
  {
    SyncTellsOneStory(s, req, g, o);
  }

  /** Dropping a record that no longer applies does not change which image runs. */
  lemma StaleRecordsDoNotMatter(t: Track, requested: Image, rolledOut: bool)
    ensures Resolved(SyncedTrack(t, requested, rolledOut), requested) == Resolved(t, requested)
    ensures var rb := SyncedTrack(t, requested, rolledOut).rollback; rb.Some? ==> rb.value.from == requested
  {
  }

  /** The upgrade duration is written exactly when Upgrading with a live timer turns into Running. */
  lemma DurationIsWrittenIff(s: Status, req: Request, g: Gate, o: Observation)
    ensures var s' := PassStatus(s, req, g, o);
      s'.lastUpgradeSeconds ==
        if s.phase == Upgrading && s.upgradeStartedAt.Some? && s'.phase == Running
        then RoundToSeconds(Since(s.upgradeStartedAt.value, o.now)) else s.lastUpgradeSeconds
  {
    SyncTellsOneStory(s, req, g, o);
  }

  /**
   Which need not be an upgrade that succeeded: one given up by asking for the old images again is
   timed as well, though no image changed.
   */
  lemma AbandonedUpgradeIsTimedToo(s: Status, req: Request, g: Gate, o: Observation)
    requires s.phase == Upgrading && s.upgradeStartedAt.Some?
    requires forall c: Component :: Resolved(s.Of(c), req.Of(c)) == s.Of(c).lastHealthy
    requires o.health.agentServing && o.health.pgReady && o.uiAvailable
    ensures var s' := PassStatus(s, req, g, o);
      && s'.phase == Running && s'.lastUpgradeSeconds == RoundToSeconds(Since(s.upgradeStartedAt.value, o.now))
      && s'.agent.lastHealthy == s.agent.lastHealthy && s'.ui.lastHealthy == s.ui.lastHealthy
  {
    assert Resolved(s.Of(Agent), req.Of(Agent)) == s.agent.lastHealthy && Resolved(s.Of(UI), req.Of(UI)) == s.ui.lastHealthy;
    SyncTellsOneStory(s, req, g, o);
    PassTellsOneStory(s, req, g, o);
    DurationIsWrittenIff(s, req, g, o);
    PassTrack(s, req, g, o, Agent);
    PassTrack(s, req, g, o, UI);
  }

  predicate NoUpgradeSince(syncs: seq<Sync>, k: nat) { forall i :: k <= i < |syncs| ==> !syncs[i].Upgrading() }

  lemma {:induction false} SyncsOnlyGrow(w: World, steps: seq<Step>)
    ensures w.syncs <= Run(w, steps).syncs
    decreases |steps|
  {
    if steps != [] {
      SyncsOnlyGrow(Next(w, steps[0]), steps[1..]);
    }
  }

  /** Without a running timer no duration is written until some sync sees an upgrade again. */
  lemma {:induction false} NoTimerNoDuration(w: World, steps: seq<Step>)
    requires w.status.upgradeStartedAt.None?
    requires NoUpgradeSince(Run(w, steps).syncs, |w.syncs|)
    ensures Run(w, steps).status.lastUpgradeSeconds == w.status.lastUpgradeSeconds
    decreases |steps|
  {
    if steps != [] {
      var w' := Next(w, steps[0]);
      SyncsOnlyGrow(w', steps[1..]);
      var all := Run(w, steps).syncs;
      if steps[0].PersistsSync? {
        var o := Observed(w, steps[0].seen);
        assert all[|w.syncs|] == w'.syncs[|w.syncs|];
        PassTellsOneStory(w.status, w.request, w.gate, o);
        DurationIsWrittenIff(w.status, w.request, w.gate, o);
      }
      NoTimerNoDuration(w', steps[1..]);
    }
  }

  /** An upgrade that a rollback ended never shows up as an upgrade duration. */
  lemma RollbackLeavesNoDuration(w: World, seen: Reads, steps: seq<Step>)
    requires RecordsPointToHealthy(w.status) && SyncEntry(w, seen).RolledBack()
    requires var w1 := Next(w, PersistsSync(seen)); NoUpgradeSince(Run(w1, steps).syncs, |w1.syncs|)
    ensures Run(Next(w, PersistsSync(seen)), steps).status.lastUpgradeSeconds == w.status.lastUpgradeSeconds
  {
    var o := Observed(w, seen);
    PassTellsOneStory(w.status, w.request, w.gate, o);
    DurationIsWrittenIff(w.status, w.request, w.gate, o);
    assert SyncEntry(w, seen).Upgrading();
    NoTimerNoDuration(Next(w, PersistsSync(seen)), steps);
  }

  // ----- Rollback converges -----

  /** The CR keeps asking for `bad`, which never rolls out; the agent's compatibility gate stays open. */
  ghost predicate KeepsFailing(w: World, steps: seq<Step>, c: Component, bad: Image)
    decreases |steps|
  {
    steps == [] || (
      && (steps[0].Edit? ==> steps[0].request.Of(c) == bad)
      && (steps[0].PersistsSync? ==>
            !SeesRunning(w, steps[0].seen, c, bad) && (c.Agent? ==> !Gated(WithGate(w.status, w.gate))))
      && KeepsFailing(Next(w, steps[0]), steps[1..], c, bad))
  }

  predicate SeesRunning(w: World, seen: Reads, c: Component, image: Image) {
    Read(w.Deployments(c), if c.Agent? then seen.agent else seen.ui, image)
  }

  ghost predicate KeepsAsking(steps: seq<Step>, c: Component, image: Image) {
    forall i :: 0 <= i < |steps| && steps[i].Edit? ==> steps[i].request.Of(c) == image
  }

  /** Nothing rolled back yet; once a sync has seen the upgrade, the timer runs since then or longer. */
  ghost predicate Waiting(w: World, c: Component, bad: Image, good: Image, firstSync: Option<nat>) {
    && w.request.Of(c) == bad && w.status.Of(c).lastHealthy == good
    && good != NoImage && good != bad
    && Resolved(w.status.Of(c), bad) == bad
    && (firstSync.Some? ==>
          w.status.upgradeStartedAt.Some? && w.status.upgradeStartedAt.value <= Sec(firstSync.value))
  }

  ghost predicate Settled(w: World, c: Component, bad: Image, good: Image) {
    && w.request.Of(c) == bad && w.status.Of(c).lastHealthy == good
    && w.status.Of(c).rollback.Some? && w.status.Of(c).rollback.value.from == bad && w.status.Of(c).rollback.value.to == good
  }

  lemma TimerIsNotAhead(w: World)
    requires Inv(w) && w.status.upgradeStartedAt.Some?
    ensures w.status.upgradeStartedAt.value <= Sec(w.clock)
  {
    var k: nat :| TimerStartedAt(w, k);
  }

  lemma WaitingStep(w: World, seen: Reads, c: Component, bad: Image, good: Image, firstSync: Option<nat>)
    requires Inv(w) && Waiting(w, c, bad, good, firstSync)
    requires !SeesRunning(w, seen, c, bad) && (c.Agent? ==> !Gated(WithGate(w.status, w.gate)))
    ensures var w' := Next(w, PersistsSync(seen));
      || Settled(w', c, bad, good)
      || (Waiting(w', c, bad, good, Some(if firstSync.Some? then firstSync.value else w.clock))
          && (firstSync.Some? ==> Since(Sec(firstSync.value), w.clock) < UPGRADE_HEALTH_TIMEOUT))
  {
    var o := Observed(w, seen);
    RecordedIff(w.status, w.request, w.gate, o, Agent);
    RecordedIff(w.status, w.request, w.gate, o, UI);
    PassTrack(w.status, w.request, w.gate, o, c);
    assert w.status.Of(c).rollback.Some? ==> w.status.Of(c).rollback.value.to == w.status.Of(c).lastHealthy;
    assert UpgradingIn(w.status, w.request, o, c);
    if w.status.upgradeStartedAt.Some? {
      TimerIsNotAhead(w);
    }
  }

  lemma SettledStep(w: World, step: Step, c: Component, bad: Image, good: Image)
    requires Inv(w) && Settled(w, c, bad, good)
    requires step.Edit? ==> step.request.Of(c) == bad
    ensures Settled(Next(w, step), c, bad, good)
  {
    if step.PersistsSync? {
      var o := Observed(w, step.seen);
      assert w.status.Of(c).rollback.value.from == w.request.Of(c);
      NoUpgradeUnderRecord(w.status, w.request, w.gate, o, c);
    }
  }

  /** Once recorded, a rollback stands, as long as the CR asks for the bad image, whatever else happens. */
  lemma {:induction false} RollbackHolds(w: World, steps: seq<Step>, c: Component, bad: Image, good: Image)
    requires Inv(w) && EnabledRun(w, steps) && Settled(w, c, bad, good) && KeepsAsking(steps, c, bad)
    ensures Inv(Run(w, steps)) && Settled(Run(w, steps), c, bad, good)
    decreases |steps|
  {
    if steps != [] {
      InvAfterStep(w, steps[0]);
      SettledStep(w, steps[0], c, bad, good);
      assert KeepsAsking(steps[1..], c, bad);
      RollbackHolds(Next(w, steps[0]), steps[1..], c, bad, good);
    }
  }

  lemma {:induction false} FailingIsAsking(w: World, steps: seq<Step>, c: Component, bad: Image)
    requires KeepsFailing(w, steps, c, bad)
    ensures KeepsAsking(steps, c, bad)
    decreases |steps|
  {
    if steps != [] {
      FailingIsAsking(Next(w, steps[0]), steps[1..], c, bad);
      assert forall i :: 1 <= i < |steps| ==> steps[i] == steps[1..][i - 1];
    }
  }

  /** The syncs from `k` on came less than five minutes after `since`. */
  ghost predicate InTime(syncs: seq<Sync>, k: nat, since: nat) {
    forall i :: k <= i < |syncs| ==> Since(Sec(since), syncs[i].at) < UPGRADE_HEALTH_TIMEOUT
  }

  /** The first sync that saw the upgrade: the one given, or else the run's own first. */
  function FirstSync(w: World, w': World, firstSync: Option<nat>): nat {
    if firstSync.Some? then firstSync.value else if |w.syncs| < |w'.syncs| then w'.syncs[|w.syncs|].at else 0
  }

  function FirstSyncAfter(w: World, step: Step, firstSync: Option<nat>): Option<nat> {
    if step.PersistsSync? && firstSync.None? then Some(w.clock) else firstSync
  }

  lemma WaitsOrSettles(w: World, step: Step, c: Component, bad: Image, good: Image, firstSync: Option<nat>)
    requires Inv(w) && Waiting(w, c, bad, good, firstSync)
    requires step.Edit? ==> step.request.Of(c) == bad
    requires step.PersistsSync? ==> !SeesRunning(w, step.seen, c, bad) && (c.Agent? ==> !Gated(WithGate(w.status, w.gate)))
    ensures var w' := Next(w, step);
      || Settled(w', c, bad, good)
      || (Waiting(w', c, bad, good, FirstSyncAfter(w, step, firstSync))
          && (firstSync.Some? ==> InTime(w'.syncs, |w.syncs|, firstSync.value)))
    ensures step.PersistsSync? ==> |Next(w, step).syncs| == |w.syncs| + 1 && Next(w, step).syncs[|w.syncs|].at == w.clock
    ensures !step.PersistsSync? ==> Next(w, step).syncs == w.syncs
  {
    if step.PersistsSync? {
      WaitingStep(w, step.seen, c, bad, good, firstSync);
    }
  }

  lemma {:induction false} ConvergesAlongRun(w: World, steps: seq<Step>, c: Component, bad: Image, good: Image, firstSync: Option<nat>)
    requires Inv(w) && EnabledRun(w, steps) && KeepsFailing(w, steps, c, bad) && Waiting(w, c, bad, good, firstSync)
    ensures var w' := Run(w, steps);
      Settled(w', c, bad, good) || InTime(w'.syncs, |w.syncs|, FirstSync(w, w', firstSync))
    decreases |steps|
  {
    if steps != [] {
      var w1, w' := Next(w, steps[0]), Run(w, steps);
      InvAfterStep(w, steps[0]);
      SyncsOnlyGrow(w1, steps[1..]);
      WaitsOrSettles(w, steps[0], c, bad, good, firstSync);
      if Settled(w1, c, bad, good) {
        FailingIsAsking(w1, steps[1..], c, bad);
        RollbackHolds(w1, steps[1..], c, bad, good);
      } else {
        ConvergesAlongRun(w1, steps[1..], c, bad, good, FirstSyncAfter(w, steps[0], firstSync));
        assert steps[0].PersistsSync? ==> w'.syncs[|w.syncs|] == w1.syncs[|w.syncs|];
      }
    }
  }

  /**
   An agent or UI image that never rolls out, with the agent's gate open and another image known to
   work, is rolled back no later than the first sync five minutes after the first sync that saw it,
   whatever else happens in between: early returns, lost writes, upgrades and rollbacks of the other
   component on the same timer.
   */
  lemma RollbackConverges(w0: World, before: seq<Step>, steps: seq<Step>, c: Component, bad: Image, good: Image)
    requires Initial(w0) && EnabledRun(w0, before)
    requires var w := Run(w0, before);
      && w.request.Of(c) == bad && w.status.Of(c).lastHealthy == good != NoImage && good != bad
      && EnabledRun(w, steps) && KeepsFailing(w, steps, c, bad)
    requires var w, w' := Run(w0, before), Run(Run(w0, before), steps);
      && |w.syncs| < |w'.syncs|
      && Since(Sec(w'.syncs[|w.syncs|].at), w'.syncs[|w'.syncs| - 1].at) >= UPGRADE_HEALTH_TIMEOUT
    ensures Settled(Run(Run(w0, before), steps), c, bad, good)
  {
    var w := Run(w0, before);
    Reachable(w0, before);
    assert w.status.Of(c).rollback.Some? ==> w.status.Of(c).rollback.value.to == w.status.Of(c).lastHealthy;
    if Settled(w, c, bad, good) {
      FailingIsAsking(w, steps, c, bad);
      RollbackHolds(w, steps, c, bad, good);
    } else {
      ConvergesAlongRun(w, steps, c, bad, good, None);
    }
  }

  /** Nobody but the operator changes the image of the agent's Deployment. */
  ghost predicate OthersLeaveTheImage(w: World, steps: seq<Step>)
    decreases |steps|
  {
    steps == [] || (
      && (steps[0].AgentDeploymentChanges? ==> RunningAgent(Next(w, steps[0])) == RunningAgent(w))
      && OthersLeaveTheImage(Next(w, steps[0]), steps[1..]))
  }

  /** No pass of the run deletes the agent's Deployment for its selector. */
  ghost predicate SelectorMatches(steps: seq<Step>) {
    forall i :: 0 <= i < |steps| ==> !steps[i].DeletesAgent?
  }

  /**
   A Deployment that runs the last healthy image goes on doing so, gate open or closed; one that the
   operator deletes for its selector comes back with that image or, behind a closed gate, not at all.
   */
  lemma {:induction false} RollbackStaysDeployed(w: World, steps: seq<Step>, bad: Image, good: Image)
    requires Inv(w) && EnabledRun(w, steps) && Settled(w, Agent, bad, good) && KeepsAsking(steps, Agent, bad)
    requires OthersLeaveTheImage(w, steps) && RunningAgent(w) in {None, Some(good)}
    ensures RunningAgent(Run(w, steps)) in {None, Some(good)}
    ensures RunningAgent(w).Some? && SelectorMatches(steps) ==> RunningAgent(Run(w, steps)) == Some(good)
    decreases |steps|
  {
    if steps != [] {
      InvAfterStep(w, steps[0]);
      SettledStep(w, steps[0], Agent, bad, good);
      SettledResolves(w, Agent, bad, good);
      assert KeepsAsking(steps[1..], Agent, bad);
      RollbackStaysDeployed(Next(w, steps[0]), steps[1..], bad, good);
    }
  }

  lemma SettledResolves(w: World, c: Component, bad: Image, good: Image)
    requires Inv(w) && Settled(w, c, bad, good)
    ensures Resolved(w.status.Of(c), w.request.Of(c)) == good
  {
    assert w.status.Of(c).rollback.value.to == w.status.Of(c).lastHealthy != NoImage;
  }

  /**
   The first pass after a recorded rollback that reaches the agent with the gate open deploys the last
   healthy image, and until the CR asks for another one the agent runs nothing else.
   */
  lemma RollbackIsDeployed(w: World, steps: seq<Step>, bad: Image, good: Image)
    requires Inv(w) && EnabledRun(w, steps) && Settled(w, Agent, bad, good) && KeepsAsking(steps, Agent, bad)
    requires steps != [] && steps[0].DeploysAgent? && w.gate.Compatible() && OthersLeaveTheImage(w, steps)
    ensures RunningAgent(Run(w, steps)) in {None, Some(good)}
    ensures SelectorMatches(steps) ==> RunningAgent(Run(w, steps)) == Some(good)
  {
    InvAfterStep(w, steps[0]);
    SettledStep(w, steps[0], Agent, bad, good);
    SettledResolves(w, Agent, bad, good);
    assert KeepsAsking(steps[1..], Agent, bad);
    RollbackStaysDeployed(Next(w, steps[0]), steps[1..], bad, good);
  }

  /**
   The deploying step of these runs is the one reconcileDeployment takes: for a pass that gets past the
   agent it allows exactly the Deployments with the image that pass writes.
   */
  lemma DeploysWhatThePassWrites(w: World, s: ReconcilePass.State, c: ReconcilePass.Circumstances, to: Deployment)
    requires to.Honest() && to.images != []
    requires ReconcilePass.ReachesAgent(s, c) && ReconcilePass.AgentEarly(s.who, s.agent, c).None?
    requires RunningAgent(w) == if s.agent.Some? then Some(s.agent.value.image) else None
    requires c.compatible == w.gate.Compatible() && c.image == Resolved(w.status.agent, w.request.agent)
    ensures ReconcilePass.After(s, c).agent.Some?
    ensures Enabled(w, DeploysAgent(to)) <==> to.images[0] == ReconcilePass.After(s, c).agent.value.image
  {
    ReconcilePass.AgentRunsWhatItShould(s, c);
  }

  // ----- Five minutes for every image, exactly when -----

  /** No sync from `k` on records a rollback sooner than five minutes after the second `since`. */
  ghost predicate NoRollbackBefore(syncs: seq<Sync>, k: nat, since: nat) {
    forall i :: k <= i < |syncs| && syncs[i].RolledBack() ==> Since(since, syncs[i].at) >= UPGRADE_HEALTH_TIMEOUT
  }

  /** Whatever is asked for from now on gets its five minutes, however the run goes on. */
  ghost predicate GetsItsTime(w: World) {
    forall steps: seq<Step> :: EnabledRun(w, steps) ==> NoRollbackBefore(Run(w, steps).syncs, |w.syncs|, Sec(w.clock))
  }

  /** No timer, or one started in the current second. */
  predicate TimerIsYoung(w: World) {
    w.status.upgradeStartedAt.Some? ==> w.status.upgradeStartedAt.value >= Sec(w.clock)
  }

  lemma StepGivesTime(w: World, step: Step, since: nat)
    requires Enabled(w, step) && since <= Sec(w.clock)
    requires w.status.upgradeStartedAt.Some? ==> w.status.upgradeStartedAt.value >= since
    ensures var w' := Next(w, step);
      && since <= Sec(w'.clock)
      && (w'.status.upgradeStartedAt.Some? ==> w'.status.upgradeStartedAt.value >= since)
      && |w.syncs| <= |w'.syncs| <= |w.syncs| + 1 && NoRollbackBefore(w'.syncs, |w.syncs|, since)
  {
  }

  lemma {:induction false} YoungTimerGivesTime(w: World, steps: seq<Step>, since: nat)
    requires EnabledRun(w, steps) && since <= Sec(w.clock)
    requires w.status.upgradeStartedAt.Some? ==> w.status.upgradeStartedAt.value >= since
    ensures NoRollbackBefore(Run(w, steps).syncs, |w.syncs|, since)
    decreases |steps|
  {
    if steps != [] {
      var w1 := Next(w, steps[0]);
      StepGivesTime(w, steps[0], since);
      YoungTimerGivesTime(w1, steps[1..], since);
      SyncsOnlyGrow(w1, steps[1..]);
      var syncs := Run(w, steps).syncs;
      assert forall i :: |w.syncs| <= i < |w1.syncs| ==> syncs[i] == w1.syncs[i];
    }
  }

  /** The image asked for is another than the last healthy one, no record applies, and no gate is in the way. */
  ghost predicate MayBeRolledBack(w: World, c: Component) {
    && RecordsPointToHealthy(w.status) && w.status.Of(c).lastHealthy != NoImage
    && w.request.Of(c) != w.status.Of(c).lastHealthy && Resolved(w.status.Of(c), w.request.Of(c)) == w.request.Of(c)
    && (c.Agent? ==> !Gated(WithGate(w.status, w.gate)))
  }

  const BLIND := Reads(false, None, None, false, false, NothingWrong, NothingWrong)

  lemma TwoSteps(w: World, first: Step, second: Step)
    requires Enabled(w, first) && Enabled(Next(w, first), second)
    ensures EnabledRun(w, [first, second]) && Run(w, [first, second]) == Next(Next(w, first), second)
  {
    var w1 := Next(w, first);
    var w2 := Next(w1, second);
    assert [first, second][1..] == [second] && [second][1..] == [];
    assert EnabledRun(w2, []) && Run(w2, []) == w2;
    assert EnabledRun(w1, [second]) && Run(w1, [second]) == w2;
  }

  lemma OldTimerTakesTime(w: World, c: Component) returns (steps: seq<Step>)
    requires MayBeRolledBack(w, c) && !TimerIsYoung(w)
    ensures EnabledRun(w, steps)
    ensures var w' := Run(w, steps);
      && |w'.syncs| == |w.syncs| + 1 && w'.syncs[|w.syncs|].RolledBackOf(c)
      && w'.syncs[|w.syncs|].request == w.request
      && Since(Sec(w.clock), w'.syncs[|w.syncs|].at) < UPGRADE_HEALTH_TIMEOUT
  {
    var due := w.status.upgradeStartedAt.value * 1_000_000_000 + UPGRADE_HEALTH_TIMEOUT;
    var tick := Tick(if due < w.clock then w.clock else due);
    var w1 := Next(w, tick);
    steps := [tick, PersistsSync(BLIND)];
    TwoSteps(w, tick, PersistsSync(BLIND));
    var w2 := Next(w1, PersistsSync(BLIND));
    RecordedIff(w1.status, w1.request, w1.gate, Observed(w1, BLIND), c);
    assert w2.syncs[|w.syncs|] == SyncEntry(w1, BLIND);
  }

  /**
   Exactly when a new image gets its five minutes from the moment it is asked for: no timer was
   running, or none older than the current second. With an older one some way the run can go on rolls
   this very image back sooner.
   */
  lemma NewImageGetsItsTimeIff(w: World, c: Component)
    requires MayBeRolledBack(w, c)
    ensures GetsItsTime(w) <==> TimerIsYoung(w)
  {
    if TimerIsYoung(w) {
      forall steps: seq<Step> | EnabledRun(w, steps)
        ensures NoRollbackBefore(Run(w, steps).syncs, |w.syncs|, Sec(w.clock))
      {
        YoungTimerGivesTime(w, steps, Sec(w.clock));
      }
    } else {
      var steps := OldTimerTakesTime(w, c);
      assert Run(w, steps).syncs[|w.syncs|].RolledBack();
    }
  }

  // ----- Two cases the documentation does not have -----

  /**
   The AgentVersionCompatible condition is only written while spec.agent.minOperatorVersion is set. One that
   was False when the field was cleared stays False, and with it no agent image is ever rolled back.
   */
  lemma {:induction false} StaleGateBlocksRollback(w: World, steps: seq<Step>)
    requires RecordsPointToHealthy(w.status) && Gated(w.status) && !w.gate.minVersionSet
    requires forall i :: 0 <= i < |steps| && steps[i].Edit? ==> !steps[i].gate.minVersionSet
    ensures Gated(Run(w, steps).status)
    ensures forall i :: |w.syncs| <= i < |Run(w, steps).syncs| ==> !Run(w, steps).syncs[i].agentRolledBack
    decreases |steps|
  {
    if steps != [] {
      var w1 := Next(w, steps[0]);
      SyncsOnlyGrow(w1, steps[1..]);
      if steps[0].PersistsSync? {
        var o := Observed(w, steps[0].seen);
        RecordsStayHealthy(w.status, w.request, w.gate, o);
        RecordedIff(w.status, w.request, w.gate, o, Agent);
        GateIsLeftAlone(w.status, w.request, w.gate, o);
        assert w1.syncs[|w.syncs|] == Run(w, steps).syncs[|w.syncs|];
      } else {
        forall c: Component ensures w1.status.Of(c) == w.status.Of(c) {}
      }
      StaleGateBlocksRollback(w1, steps[1..]);
    }
  }

  const GOOD := Ref("agent:good")
  const BAD := Ref("agent:bad")
  const UI_GOOD := Ref("ui:good")
  const UI_NEW := Ref("ui:new")
  const UP := Deployment(1, 1, [GOOD], None, [Pod([GOOD], true, true)])
  const DOWN := Deployment(2, 2, [BAD], None, [Pod([BAD], true, false)])
  const UI_UP := Deployment(1, 1, [UI_GOOD], None, [Pod([UI_GOOD], true, true)])
  const HOUR: nat := 3600 * 1_000_000_000
  const FIRST := PersistsSync(Reads(true, Some(0), Some(0), true, true, NothingWrong, NothingWrong))
  const LATER := PersistsSync(Reads(false, Some(0), Some(0), true, true, NothingWrong, NothingWrong))

  /** A healthy install, and the sync that saw it. */
  function Healthy(): World {
    Next(World(Request(GOOD, UI_GOOD), Gate(false, true), NO_STATUS, [UP], [UI_UP], 0, []), FIRST)
  }

  /** The agent image is changed together with a minOperatorVersion this build does not satisfy. */
  function HeldBack(): World {
    Next(Next(Healthy(), Edit(Request(BAD, UI_GOOD), Gate(true, false))), LATER)
  }

  lemma SmallDeployments()
    ensures DeploymentRolledOut(UP, GOOD) && DeploymentRolledOut(UI_UP, UI_GOOD) && !DeploymentRolledOut(DOWN, BAD)
  {
    CountsAllIff(UP.pods, (p: Pod) => p.current);
    CountsAllIff(UP.pods, (p: Pod) => p.ready);
    CountsAllIff(UI_UP.pods, (p: Pod) => p.current);
    CountsAllIff(UI_UP.pods, (p: Pod) => p.ready);
    assert DOWN.pods[0] in DOWN.pods;
    CountsAllIff(DOWN.pods, (p: Pod) => p.ready);
  }

  lemma HealthyStatus()
    ensures var s := Healthy().status;
      && s.agent == Track(GOOD, None) && s.ui == Track(UI_GOOD, None)
      && s.phase == Running && s.upgradeStartedAt == None
    ensures Healthy().agentDeployments == [UP] && Healthy().uiDeployments == [UI_UP] && Healthy().clock == 0
    ensures |Healthy().syncs| == 1 && Healthy().syncs[0].request.ui == UI_GOOD
  {
    SmallDeployments();
    var w := World(Request(GOOD, UI_GOOD), Gate(false, true), NO_STATUS, [UP], [UI_UP], 0, []);
    var o := Observed(w, FIRST.seen);
    assert o.health == Health(true, true, true, true);
    PassTrack(w.status, w.request, w.gate, o, Agent);
    PassTrack(w.status, w.request, w.gate, o, UI);
  }

  lemma HeldBackStatus()
    ensures var s := HeldBack().status;
      && s.agent == Track(GOOD, None) && s.ui == Track(UI_GOOD, None)
      && s.upgradeStartedAt == Some(0) && Gated(s) && RecordsPointToHealthy(s)
    ensures HeldBack().agentDeployments == [UP] && HeldBack().uiDeployments == [UI_UP]
    ensures |HeldBack().syncs| == 2 && forall i :: 0 <= i < 2 ==> HeldBack().syncs[i].request.ui == UI_GOOD
  {
    HealthyStatus();
    var w := Next(Healthy(), Edit(Request(BAD, UI_GOOD), Gate(true, false)));
    var o := Observed(w, LATER.seen);
    assert UpgradingIn(w.status, w.request, o, Agent) && !UpgradingIn(w.status, w.request, o, UI);
    PassTrack(w.status, w.request, w.gate, o, Agent);
    PassTrack(w.status, w.request, w.gate, o, UI);
    GateIsLeftAlone(w.status, w.request, w.gate, o);
  }

  /**
   The stale gate is reachable: minOperatorVersion is cleared, the image it held back is deployed and
   never comes up, and an hour later the sync still records no rollback.
   */
  lemma ClearedGateStillBlocks()
    ensures var w := Next(Next(Next(HeldBack(), Edit(Request(BAD, UI_GOOD), Gate(false, true))),
                               AgentDeploymentChanges(DOWN)), Tick(HOUR));
      var e := SyncEntry(w, LATER.seen.(agent := Some(1)));
      && w.gate.Compatible() && e.agentUpgrading && !e.agentRolledBack
      && w.status.upgradeStartedAt == Some(0) && w.status.agent.lastHealthy == GOOD
  {
    HeldBackStatus();
    SmallDeployments();
    var w := HeldBack().(request := Request(BAD, UI_GOOD), gate := Gate(false, true), agentDeployments := [UP] + [DOWN], clock := HOUR);
    RecordedIff(w.status, w.request, w.gate, Observed(w, LATER.seen.(agent := Some(1))), Agent);
  }

  /**
   The timer is shared: with the agent held back for an hour, a new UI image is rolled back by the
   first sync that sees it, with no time of its own.
   */
  lemma NewImageMayGetNoTime()
    ensures var w := Next(Next(HeldBack(), Tick(HOUR)), Edit(Request(BAD, UI_NEW), Gate(true, false)));
      && (forall i :: 0 <= i < |w.syncs| ==> w.syncs[i].request.ui != UI_NEW)
      && SyncEntry(w, LATER.seen).uiRolledBack
  {
    HeldBackStatus();
    var w := HeldBack().(request := Request(BAD, UI_NEW), gate := Gate(true, false), clock := HOUR);
    RecordedIff(w.status, w.request, w.gate, Observed(w, LATER.seen), UI);
  }
}
