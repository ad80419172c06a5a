/**
 Many CRs, created, accepted, rejected, finalized and recreated in any order, one reconcile pass
 at a time, one API call per step, any of which may fail: no cluster-scoped object outlives its CR
 (the finalizer branch of Reconcile, internal/controller/openshiftpulse_controller.go).

 Passes read their own writes, nobody else strips finalizers or writes owner stamps, and UIDs are
 never reused. Which CRs admission accepts is left open: every answer is covered.
 */
module FinalizerRuns {
  import opened Options
  import opened ClusterScoped

  datatype Instance = Instance(cr: CR, finalizer: bool, deleting: bool)

  datatype Worker =
    | Idle
    | Adding(cr: CR)
    | Creating(cr: CR)
    | Removing(cr: CR, next: nat, failed: bool, finalizing: bool)
    | Cleaned(cr: CR)

  datatype World = World(crs: map<Uid, Instance>, used: set<Uid>, objects: Objects, worker: Worker)

  /** What an accepted CR's pass creates; `restamps` when it also overwrites the owner stamp of an existing object. */
  datatype Creator = Creator(key: Key, restamps: bool)

  function Creators(cr: CR): seq<Creator> {
    [ Creator(Key(ClusterRole, AgentClusterRoleName(cr)), true),
      Creator(Key(ClusterRoleBinding, AgentClusterRoleName(cr)), true),
      Creator(Key(ClusterRoleBinding, AgentMonitoringViewBindingName(cr)), true),
      Creator(Key(ClusterRole, McpClusterRoleName(cr)), true),
      Creator(Key(ClusterRoleBinding, McpClusterRoleName(cr)), true),
      Creator(Key(ClusterRole, UIClusterRoleName(cr)), true),
      Creator(Key(ClusterRoleBinding, UIClusterRoleName(cr)), true),
      Creator(Key(ClusterRoleBinding, UIAuthDelegatorBindingName(cr)), false),
      Creator(Key(OAuthClient, OAuthClientName(cr)), false) ]
  }

  function Upserted(objects: Objects, c: Creator, uid: Uid): Objects {
    if c.key in objects && !c.restamps then objects else objects[c.key := Some(uid)]
  }

  datatype Step =
    | UserCreates(cr: CR)
    | UserDeletes(uid: Uid)
    | PassStarts(uid: Uid, accepted: bool)
    | WritesFinalizer(applied: bool)
    | Creates(creator: nat, applied: bool)
    | DeletesOwn(target: Target, now: Objects, failed: bool)
    | RemovesNext(now: Objects, failed: bool)
    | PassEnds
    | DropsFinalizer(applied: bool, othersHold: bool)

  ghost predicate Enabled(w: World, step: Step) {
    match step
    case UserCreates(cr) => cr.uid !in w.used
    case UserDeletes(uid) => uid in w.crs
    case PassStarts(uid, accepted) => w.worker.Idle? && uid in w.crs
    case WritesFinalizer(applied) => w.worker.Adding? && (applied ==> w.worker.cr.uid in w.crs && !w.crs[w.worker.cr.uid].deleting)
    case Creates(i, applied) => w.worker.Creating? && i < |Creators(w.worker.cr)|
    case DeletesOwn(t, now, failed) => w.worker.Creating? && t.strict && Removed(w.objects, now, t, w.worker.cr.uid, failed)
    case RemovesNext(now, failed) =>
      && w.worker.Removing? && w.worker.next < |Targets(w.worker.cr)|
      && Removed(w.objects, now, Targets(w.worker.cr)[w.worker.next], w.worker.cr.uid, failed)
    case PassEnds => true
    case DropsFinalizer(applied, othersHold) => w.worker.Cleaned?
  }

  /** Deletion of a CR nobody holds is immediate; otherwise it is marked. */
  function Deleted(crs: map<Uid, Instance>, uid: Uid): map<Uid, Instance>
    requires uid in crs
  {
    if crs[uid].finalizer then crs[uid := crs[uid].(deleting := true)] else crs - {uid}
  }

  function Started(i: Instance, accepted: bool): Worker {
    if i.deleting then if i.finalizer then Removing(i.cr, 0, false, true) else Idle
    else if !accepted then Removing(i.cr, 0, false, false)
    else if !i.finalizer then Adding(i.cr)
    else Creating(i.cr)
  }

  /** All targets attempted: the pass fails, or is done rejecting, or goes on to drop the finalizer. */
  function AfterRemoving(cr: CR, next: nat, failed: bool, finalizing: bool): Worker {
    if next < |Targets(cr)| then Removing(cr, next, failed, finalizing)
    else if failed || !finalizing then Idle
    else Cleaned(cr)
  }

  function Next(w: World, step: Step): World
    requires step.UserDeletes? || step.PassStarts? ==> step.uid in w.crs
    requires step.WritesFinalizer? ==> w.worker.Adding? && (step.applied ==> w.worker.cr.uid in w.crs)
    requires step.Creates? ==> w.worker.Creating? && step.creator < |Creators(w.worker.cr)|
    requires step.RemovesNext? ==> w.worker.Removing?
    requires step.DropsFinalizer? ==> w.worker.Cleaned?
  {
    match step
    case UserCreates(cr) => w.(crs := w.crs[cr.uid := Instance(cr, false, false)], used := w.used + {cr.uid})
    case UserDeletes(uid) => w.(crs := Deleted(w.crs, uid))
    case PassStarts(uid, accepted) => w.(worker := Started(w.crs[uid], accepted))
    case WritesFinalizer(applied) =>
      var uid := w.worker.cr.uid;
      w.(worker := Idle, crs := if applied then w.crs[uid := w.crs[uid].(finalizer := true)] else w.crs)
    case Creates(i, applied) =>
      w.(objects := if applied then Upserted(w.objects, Creators(w.worker.cr)[i], w.worker.cr.uid) else w.objects)
    case DeletesOwn(t, now, failed) => w.(objects := now)
    case RemovesNext(now, failed) =>
      w.(objects := now,
         worker := AfterRemoving(w.worker.cr, w.worker.next + 1, w.worker.failed || failed, w.worker.finalizing))
    case PassEnds => w.(worker := Idle)
    case DropsFinalizer(applied, othersHold) =>
      var uid := w.worker.cr.uid;
      if !applied || uid !in w.crs then w.(worker := Idle)
      else if othersHold then w.(worker := Idle, crs := w.crs[uid := w.crs[uid].(finalizer := false)])
      else w.(worker := Idle, crs := w.crs - {uid})
  }

  ghost predicate EnabledRun(w: World, steps: seq<Step>)
    decreases |steps|
  {
    steps == [] || (Enabled(w, steps[0]) && EnabledRun(Next(w, steps[0]), steps[1..]))
  }

  ghost function Run(w: World, steps: seq<Step>): World
    requires EnabledRun(w, steps)
    decreases |steps|
  {
    if steps == [] then w else Run(Next(w, steps[0]), steps[1..])
  }

  /** Nothing carries a stamp yet; unstamped objects of any name may exist. */
  ghost predicate CleanStart(w: World) {
    w.crs == map[] && w.worker.Idle? && forall k :: k in w.objects ==> w.objects[k] == None
  }

  // ----- Invariant -----

  predicate IsTarget(cr: CR, k: Key) { exists t :: t in Targets(cr) && t.key == k && !t.strict }

  ghost predicate StampIsBacked(w: World, k: Key)
    requires k in w.objects && w.objects[k].Some?
  {
    var uid := w.objects[k].value;
    uid in w.crs && w.crs[uid].finalizer && IsTarget(w.crs[uid].cr, k)
  }

  ghost predicate StampsAreBacked(w: World) {
    forall k :: k in w.objects && w.objects[k].Some? ==> StampIsBacked(w, k)
  }

  ghost predicate Stamped(w: World, uid: Uid) { exists k :: k in w.objects && w.objects[k] == Some(uid) }

  ghost predicate WorkerIsHonest(w: World) {
    match w.worker
    case Idle => true
    case Adding(cr) => cr.uid in w.crs ==> w.crs[cr.uid].cr == cr
    case Creating(cr) => cr.uid in w.crs && w.crs[cr.uid].cr == cr && w.crs[cr.uid].finalizer
    case Removing(cr, next, failed, finalizing) =>
      && next < |Targets(cr)|
      && (cr.uid in w.crs ==> w.crs[cr.uid].cr == cr)
      && (finalizing ==> cr.uid in w.crs && w.crs[cr.uid].finalizer && w.crs[cr.uid].deleting)
      && (!failed ==> forall i :: 0 <= i < next ==> !Targets(cr)[i].Left(w.objects, cr.uid))
    case Cleaned(cr) =>
      cr.uid in w.crs && w.crs[cr.uid].cr == cr && w.crs[cr.uid].finalizer && w.crs[cr.uid].deleting && !Stamped(w, cr.uid)
  }

  ghost predicate Inv(w: World) {
    && w.crs.Keys <= w.used
    && (forall uid :: uid in w.crs ==> w.crs[uid].cr.uid == uid)
    && (w.worker.Idle? || w.worker.cr.uid in w.used)
    && StampsAreBacked(w)
    && WorkerIsHonest(w)
  }

  /** Every creator's object is one the finalizer removes, stamped or not. */
  lemma CreatorsAreTargets(cr: CR, i: nat)
    requires i < |Creators(cr)|
    ensures IsTarget(cr, Creators(cr)[i].key)
  {
    var q, s := QualifiedTargets(cr), StaleTargets(cr);
    var last := Target(Key(OAuthClient, OAuthClientName(cr)), false);
    assert Targets(cr) == q + s + [last];
    assert last in Targets(cr);
    forall t | t in q ensures t in Targets(cr) {}
    var at := [0, 2, 3, 6, 7, 1, 4, 5];
    if i < 8 {
      assert q[at[i]].key == Creators(cr)[i].key;
    }
  }

  /** And the other way round: whatever is removed without a stamp is something a pass creates. */
  lemma TargetsAreCreated(cr: CR, k: Key)
    requires IsTarget(cr, k)
    ensures exists i :: 0 <= i < |Creators(cr)| && Creators(cr)[i].key == k
  {
    var q, s := QualifiedTargets(cr), StaleTargets(cr);
    var last := Target(Key(OAuthClient, OAuthClientName(cr)), false);
    var t :| t in Targets(cr) && t.key == k && !t.strict;
    assert Targets(cr) == q + s + [last];
    assert t in q || t in s || t == last;
    assert forall x :: x in s ==> x.strict;
    var at := [0, 5, 1, 2, 6, 7, 3, 4];
    if t in q {
      var j :| 0 <= j < |q| && q[j] == t;
      assert Creators(cr)[at[j]].key == k;
    } else {
      assert Creators(cr)[8].key == k;
    }
  }

  /** Once every target is attempted without failure nothing stamped with the CR's UID is left. */
  lemma NothingStampedIsLeft(w: World, cr: CR)
    requires StampsAreBacked(w) && cr.uid in w.crs && w.crs[cr.uid].cr == cr
    requires forall i :: 0 <= i < |Targets(cr)| ==> !Targets(cr)[i].Left(w.objects, cr.uid)
    ensures !Stamped(w, cr.uid)
  {
    forall k | k in w.objects ensures w.objects[k] != Some(cr.uid) {
      assert forall t :: t in Targets(cr) && t.key == k ==> !t.Left(w.objects, cr.uid);
      assert w.objects[k].Some? ==> StampIsBacked(w, k);
    }
  }

  lemma RemovalKeepsStampsBacked(w: World, now: Objects, t: Target, uid: Uid, failed: bool)
    requires StampsAreBacked(w) && Removed(w.objects, now, t, uid, failed)
    ensures StampsAreBacked(w.(objects := now))
  {
    forall k | k in now && now[k].Some? ensures StampIsBacked(w.(objects := now), k) {
      assert StampIsBacked(w, k);
    }
  }

  lemma InvAfterCreates(w: World, i: nat)
    requires Inv(w) && w.worker.Creating? && i < |Creators(w.worker.cr)|
    ensures Inv(w.(objects := Upserted(w.objects, Creators(w.worker.cr)[i], w.worker.cr.uid)))
  {
    var cr := w.worker.cr;
    var w' := w.(objects := Upserted(w.objects, Creators(cr)[i], cr.uid));
    CreatorsAreTargets(cr, i);
    forall k | k in w'.objects && w'.objects[k].Some? ensures StampIsBacked(w', k) {
      if k in w.objects && w'.objects[k] == w.objects[k] {
        assert StampIsBacked(w, k);
      } else {
        assert k == Creators(cr)[i].key;
      }
    }
  }

  lemma InvAfterRemovesNext(w: World, now: Objects, failed: bool)
    requires Inv(w) && Enabled(w, RemovesNext(now, failed))
    ensures Inv(Next(w, RemovesNext(now, failed)))
  {
    var Removing(cr, next, failedBefore, finalizing) := w.worker;
    var w' := Next(w, RemovesNext(now, failed));
    RemovalKeepsStampsBacked(w, now, Targets(cr)[next], cr.uid, failed);
    forall k | k in w'.objects && w'.objects[k].Some? ensures StampIsBacked(w', k) {
      assert StampIsBacked(w.(objects := now), k);
    }
    if !failedBefore && !failed {
      forall i | 0 <= i < next + 1 ensures !Targets(cr)[i].Left(now, cr.uid) {
        if i < next {
          assert !Targets(cr)[i].Left(w.objects, cr.uid);
        }
      }
      if next + 1 == |Targets(cr)| && finalizing {
        NothingStampedIsLeft(w', cr);
      }
    }
  }

  lemma BackedWhileHoldersStay(w: World, w': World)
    requires StampsAreBacked(w) && w'.objects == w.objects
    requires forall uid :: uid in w.crs && w.crs[uid].finalizer ==>
      uid in w'.crs && w'.crs[uid].finalizer && w'.crs[uid].cr == w.crs[uid].cr
    ensures StampsAreBacked(w')
  {
    forall k | k in w'.objects && w'.objects[k].Some? ensures StampIsBacked(w', k) {
      assert StampIsBacked(w, k);
    }
  }

  lemma InvAfterUser(w: World, step: Step)
    requires Inv(w) && Enabled(w, step) && (step.UserCreates? || step.UserDeletes?)
    ensures Inv(Next(w, step))
  {
    BackedWhileHoldersStay(w, Next(w, step));
    if w.worker.Cleaned? {
      assert !Stamped(w, w.worker.cr.uid);
    }
  }

  lemma InvAfterPassMoves(w: World, step: Step)
    requires Inv(w) && Enabled(w, step) && (step.WritesFinalizer? || step.PassStarts? || step.PassEnds?)
    ensures Inv(Next(w, step))
  {
    BackedWhileHoldersStay(w, Next(w, step));
  }

  /** The finalizer goes only when nothing stamped with the CR's UID is left. */
  lemma InvAfterDropsFinalizer(w: World, step: Step)
    requires Inv(w) && Enabled(w, step) && step.DropsFinalizer?
    ensures Inv(Next(w, step))
  {
    var w' := Next(w, step);
    forall k | k in w'.objects && w'.objects[k].Some? ensures StampIsBacked(w', k) {
      assert StampIsBacked(w, k);
      assert w.objects[k] != Some(w.worker.cr.uid);
    }
  }

  lemma InvAfterStep(w: World, step: Step)
    requires Inv(w) && Enabled(w, step)
    ensures Inv(Next(w, step))
  {
    match step
    case Creates(i, applied) => if applied { InvAfterCreates(w, i); }
    case DeletesOwn(t, now, failed) =>
      RemovalKeepsStampsBacked(w, now, t, w.worker.cr.uid, failed);
      forall k | k in now && now[k].Some? ensures StampIsBacked(Next(w, step), k) {
        assert StampIsBacked(w.(objects := now), k);
      }
    case RemovesNext(now, failed) => InvAfterRemovesNext(w, now, failed);
    case DropsFinalizer(_, _) => InvAfterDropsFinalizer(w, step);
    case UserCreates(_) => InvAfterUser(w, step);
    case UserDeletes(_) => InvAfterUser(w, step);
    case _ => InvAfterPassMoves(w, step);
  }

  lemma {:induction false} InvAlongRun(w: World, steps: seq<Step>)
    requires Inv(w) && EnabledRun(w, steps)
    ensures Inv(Run(w, steps))
    decreases |steps|
  {
    if steps != [] {
      InvAfterStep(w, steps[0]);
      InvAlongRun(Next(w, steps[0]), steps[1..]);
    }
  }

  // ----- Main results -----

  /**
   No orphans: whatever happens, an object stamped with a UID means that CR still exists and still
   holds the finalizer. So once the CR is gone, nothing stamped with its UID is left.
   */
  lemma NoOrphans(w0: World, steps: seq<Step>, k: Key)
    requires CleanStart(w0) && EnabledRun(w0, steps)
    requires var w := Run(w0, steps); k in w.objects && w.objects[k].Some?
    ensures var w := Run(w0, steps); w.objects[k].value in w.crs && w.crs[w.objects[k].value].finalizer
  {
    InvAlongRun(w0, steps);
    assert StampIsBacked(Run(w0, steps), k);
  }

  /** In no step does a pass for one CR delete an object stamped with another's UID. */
  lemma StepsSpareOthers(w: World, step: Step, k: Key)
    requires Enabled(w, step)
    requires k in w.objects && w.objects[k].Some? && k !in Next(w, step).objects
    ensures !w.worker.Idle? && w.objects[k] == Some(w.worker.cr.uid)
  {
  }

  /**
   Two CRs share cluster-scoped names exactly when their "namespace-name" strings agree, and they may:
   the separator is not escaped.
   */
  lemma NamesCollide(a: CR, b: CR)
    ensures AgentClusterRoleName(a) == AgentClusterRoleName(b) <==>
      a.namespace + "-" + a.name == b.namespace + "-" + b.name
  {
    var suffix := "-openshift-sre-agent";
    var x, y := a.namespace + "-" + a.name, b.namespace + "-" + b.name;
    assert AgentClusterRoleName(a) == x + suffix && AgentClusterRoleName(b) == y + suffix;
    if x + suffix == y + suffix {
      assert |x| == |y|;
      assert x == (x + suffix)[..|x|] && y == (y + suffix)[..|y|];
    }
  }

  lemma SuffixCancels(x: string, y: string, suffix: string)
    ensures x + suffix == y + suffix <==> x == y
  {
    if x + suffix == y + suffix {
      assert |x| == |y| && x == (x + suffix)[..|x|] && y == (y + suffix)[..|y|];
    }
  }

  lemma PrefixCancels(prefix: string, x: string, y: string)
    ensures prefix + x == prefix + y <==> x == y
  {
    if prefix + x == prefix + y {
      assert x == (prefix + x)[|prefix|..] && y == (prefix + y)[|prefix|..];
    }
  }

  /** The same goes for every other cluster-scoped name. */
  lemma AllNamesCollide(a: CR, b: CR)
    ensures var same := a.namespace + "-" + a.name == b.namespace + "-" + b.name;
      && (UIClusterRoleName(a) == UIClusterRoleName(b) <==> same)
      && (McpClusterRoleName(a) == McpClusterRoleName(b) <==> same)
      && (OAuthClientName(a) == OAuthClientName(b) <==> same)
      && (AgentMonitoringViewBindingName(a) == AgentMonitoringViewBindingName(b) <==> same)
      && (UIAuthDelegatorBindingName(a) == UIAuthDelegatorBindingName(b) <==> same)
  {
    var x, y := a.namespace + "-" + a.name, b.namespace + "-" + b.name;
    NamesCollide(a, b);
    assert UIClusterRoleName(a) == x + "-openshiftpulse-reader" && UIClusterRoleName(b) == y + "-openshiftpulse-reader";
    SuffixCancels(x, y, "-openshiftpulse-reader");
    assert McpClusterRoleName(a) == x + "-mcp-server" && McpClusterRoleName(b) == y + "-mcp-server";
    SuffixCancels(x, y, "-mcp-server");
    assert OAuthClientName(a) == "openshiftpulse-" + x && OAuthClientName(b) == "openshiftpulse-" + y;
    PrefixCancels("openshiftpulse-", x, y);
    SuffixCancels(AgentClusterRoleName(a), AgentClusterRoleName(b), "-monitoring-view");
    SuffixCancels(UIClusterRoleName(a), UIClusterRoleName(b), "-auth-delegator");
  }

  /**
   When names collide, the later CR's pass takes over most stamps but leaves the auth-delegator binding
   and the OAuthClient with the first: its finalizer will remove them from under the second.
   */
  lemma CollisionSplitsOwnership(a: CR, b: CR, objects: Objects, i: nat)
    requires a.namespace + "-" + a.name == b.namespace + "-" + b.name && a.uid != b.uid
    requires i < |Creators(a)| && Creators(a)[i].key in objects && objects[Creators(a)[i].key] == Some(a.uid)
    ensures Creators(a)[i].key == Creators(b)[i].key
    ensures Upserted(objects, Creators(b)[i], b.uid)[Creators(a)[i].key] == Some(if i < 7 then b.uid else a.uid)
  {
    NamesAgree(a, b);
  }

  lemma NamesAgree(a: CR, b: CR)
    requires a.namespace + "-" + a.name == b.namespace + "-" + b.name
    ensures AgentClusterRoleName(a) == AgentClusterRoleName(b)
    ensures UIClusterRoleName(a) == UIClusterRoleName(b)
    ensures McpClusterRoleName(a) == McpClusterRoleName(b)
    ensures OAuthClientName(a) == OAuthClientName(b)
  {
    NamesCollide(a, b);
    var x, y := a.namespace + "-" + a.name, b.namespace + "-" + b.name;
    assert UIClusterRoleName(a) == x + "-openshiftpulse-reader" && UIClusterRoleName(b) == y + "-openshiftpulse-reader";
    assert McpClusterRoleName(a) == x + "-mcp-server" && McpClusterRoleName(b) == y + "-mcp-server";
    assert OAuthClientName(a) == "openshiftpulse-" + x && OAuthClientName(b) == "openshiftpulse-" + y;
  }

  /** The collision NamesCollide describes can happen: two CRs with nothing in common share the name. */
  lemma CollisionExample()
    ensures var a, b := CR("team-a", "pulse", 1), CR("team", "a-pulse", 2); AgentClusterRoleName(a) == AgentClusterRoleName(b)
  {
    NamesCollide(CR("team-a", "pulse", 1), CR("team", "a-pulse", 2));
    assert "team-a" + "-" + "pulse" == "team" + "-" + "a-pulse";
  }

  // ----- Passes in which no call fails -----

  lemma OneStep(w: World, step: Step, rest: seq<Step>)
    requires Enabled(w, step) && EnabledRun(Next(w, step), rest)
    ensures EnabledRun(w, [step] + rest) && Run(w, [step] + rest) == Run(Next(w, step), rest)
  {
    assert ([step] + rest)[1..] == rest;
  }

  /** A cleanup without failures gets through all its targets. */
  lemma {:induction false} RemovesTheRest(w: World) returns (steps: seq<Step>)
    requires Inv(w) && w.worker.Removing? && !w.worker.failed
    ensures EnabledRun(w, steps) && Inv(Run(w, steps))
    ensures var w' := Run(w, steps);
      && w'.crs == w.crs && w'.used == w.used
      && w'.worker == (if w.worker.finalizing then Cleaned(w.worker.cr) else Idle)
      && (forall t <- Targets(w.worker.cr)[w.worker.next..] :: !t.Left(w'.objects, w.worker.cr.uid))
      && (forall k <- w'.objects.Keys :: k in w.objects && w'.objects[k] == w.objects[k])
    decreases |Targets(w.worker.cr)| - w.worker.next
  {
    var cr, i := w.worker.cr, w.worker.next;
    var ts := Targets(cr);
    var step := RemovesNext(if ts[i].Left(w.objects, cr.uid) then w.objects - {ts[i].key} else w.objects, false);
    var w1 := Next(w, step);
    InvAfterStep(w, step);
    if i + 1 == |ts| {
      assert EnabledRun(w1, []) && Run(w1, []) == w1;
      OneStep(w, step, []);
      steps := [step] + [];
      assert ts[i..] == [ts[i]];
    } else {
      var rest := RemovesTheRest(w1);
      OneStep(w, step, rest);
      steps := [step] + rest;
      assert ts[i..] == [ts[i]] + ts[i + 1..];
    }
  }

  lemma {:induction false} RunsJoin(w: World, first: seq<Step>, second: seq<Step>)
    requires EnabledRun(w, first) && EnabledRun(Run(w, first), second)
    ensures EnabledRun(w, first + second) && Run(w, first + second) == Run(Run(w, first), second)
    decreases |first|
  {
    if first == [] {
      assert first + second == second;
    } else {
      assert (first + second)[1..] == first[1..] + second;
      RunsJoin(Next(w, first[0]), first[1..], second);
    }
  }

  /** A cleanup from its first target on leaves nothing stamped. */
  lemma CleanupFinishes(w: World) returns (steps: seq<Step>)
    requires Inv(w) && w.worker.Removing? && !w.worker.failed && w.worker.next == 0
    requires w.worker.cr.uid in w.crs
    ensures EnabledRun(w, steps) && Inv(Run(w, steps)) && Run(w, steps).crs == w.crs
    ensures Run(w, steps).worker == if w.worker.finalizing then Cleaned(w.worker.cr) else Idle
    ensures !Stamped(Run(w, steps), w.worker.cr.uid)
  {
    steps := RemovesTheRest(w);
    var ts := Targets(w.worker.cr);
    assert ts[0..] == ts;
    NothingStampedIsLeft(Run(w, steps), w.worker.cr);
  }

  /** A CR that is being deleted goes, with everything stamped as its own, in one pass without failures. */
  lemma DeletedCrGoes(w: World, uid: Uid) returns (steps: seq<Step>)
    requires Inv(w) && w.worker.Idle? && uid in w.crs && w.crs[uid].finalizer && w.crs[uid].deleting
    ensures EnabledRun(w, steps)
    ensures uid !in Run(w, steps).crs && !Stamped(Run(w, steps), uid) && Run(w, steps).worker.Idle?
  {
    var start, drop := PassStarts(uid, false), DropsFinalizer(true, false);
    var w1 := Next(w, start);
    InvAfterStep(w, start);
    var rest := CleanupFinishes(w1);
    var w2 := Run(w1, rest);
    assert EnabledRun(Next(w2, drop), []);
    OneStep(w2, drop, []);
    RunsJoin(w1, rest, [drop] + []);
    OneStep(w, start, rest + ([drop] + []));
    steps := [start] + (rest + ([drop] + []));
  }

  /** A rejected CR loses every grant stamped as its own, and stays as it was. */
  lemma RejectedCrLosesItsGrants(w: World, uid: Uid) returns (steps: seq<Step>)
    requires Inv(w) && w.worker.Idle? && uid in w.crs && !w.crs[uid].deleting
    ensures EnabledRun(w, steps)
    ensures Run(w, steps).crs == w.crs && !Stamped(Run(w, steps), uid) && Run(w, steps).worker.Idle?
  {
    var start := PassStarts(uid, false);
    var w1 := Next(w, start);
    InvAfterStep(w, start);
    var rest := CleanupFinishes(w1);
    OneStep(w, start, rest);
    steps := [start] + rest;
  }

  /** An accepted CR is given the finalizer first; a pass that finds it there goes on to create. */
  lemma AcceptedCrIsHeldFirst(w: World, uid: Uid)
    requires Inv(w) && w.worker.Idle? && uid in w.crs && !w.crs[uid].deleting
    ensures var w1 := Next(w, PassStarts(uid, true));
      if w.crs[uid].finalizer then w1.worker == Creating(w.crs[uid].cr)
      else
        && w1.worker == Adding(w.crs[uid].cr) && Enabled(w1, WritesFinalizer(true))
        && Next(w1, WritesFinalizer(true)).crs == w.crs[uid := w.crs[uid].(finalizer := true)]
  {
  }

  /** And every object it creates bears its stamp, but for one found that is not restamped. */
  lemma CreatedIsStamped(w: World, i: nat)
    requires Inv(w) && w.worker.Creating? && i < |Creators(w.worker.cr)|
    ensures var c := Creators(w.worker.cr)[i];
      var now := Next(w, Creates(i, true)).objects;
      c.key in now && now[c.key] == if c.key in w.objects && !c.restamps then w.objects[c.key] else Some(w.worker.cr.uid)
  {
  }
}
