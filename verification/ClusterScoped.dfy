/**
 Cluster-scoped objects and their removal. They cannot carry an owner reference to a namespaced
 CR, so an annotation with the CR's UID is the record of ownership
 (deleteClusterScopedResources in internal/controller/openshiftpulse_controller.go, the stale-name
 migration in agent_reconciler.go, remove_helpers.go).
 */
module ClusterScoped {
  import opened Options

  type Uid = nat

  datatype Kind = ClusterRole | ClusterRoleBinding | OAuthClient

  datatype Key = Key(kind: Kind, name: string)

  /** Each object with its owner-uid annotation, if it has one. */
  type Objects = map<Key, Option<Uid>>

  datatype CR = CR(namespace: string, name: string, uid: Uid)

  // ----- Names -----

  function AgentResourceName(crName: string): string { crName + "-openshift-sre-agent" }

  function AgentClusterRoleName(cr: CR): string { cr.namespace + "-" + AgentResourceName(cr.name) }

  function AgentMonitoringViewBindingName(cr: CR): string { AgentClusterRoleName(cr) + "-monitoring-view" }

  function UIClusterRoleNameUnqualified(crName: string): string { crName + "-openshiftpulse-reader" }

  function UIClusterRoleName(cr: CR): string { cr.namespace + "-" + UIClusterRoleNameUnqualified(cr.name) }

  function UIAuthDelegatorBindingName(cr: CR): string { UIClusterRoleName(cr) + "-auth-delegator" }

  function UIAuthDelegatorBindingNameUnqualified(crName: string): string { UIClusterRoleNameUnqualified(crName) + "-auth-delegator" }

  function McpResourceName(crName: string): string { crName + "-mcp-server" }

  function McpClusterRoleName(cr: CR): string { cr.namespace + "-" + McpResourceName(cr.name) }

  function OAuthClientName(cr: CR): string { "openshiftpulse-" + cr.namespace + "-" + cr.name }

  // ----- What the finalizer removes -----

  /**
   One object to remove. A strict target is removed only with this CR's stamp; the others also
   without any stamp, since such an object predates stamping.
   */
  datatype Target = Target(key: Key, strict: bool) {
    predicate Mine(stamp: Option<Uid>, uid: Uid) {
      stamp == Some(uid) || (!strict && stamp == None)
    }

    predicate Left(objects: Objects, uid: Uid) { key in objects && Mine(objects[key], uid) }
  }

  function QualifiedTargets(cr: CR): seq<Target> {
    [ Target(Key(ClusterRole, AgentClusterRoleName(cr)), false),
      Target(Key(ClusterRole, UIClusterRoleName(cr)), false),
      Target(Key(ClusterRoleBinding, AgentClusterRoleName(cr)), false),
      Target(Key(ClusterRoleBinding, AgentMonitoringViewBindingName(cr)), false),
      Target(Key(ClusterRoleBinding, UIClusterRoleName(cr)), false),
      Target(Key(ClusterRoleBinding, UIAuthDelegatorBindingName(cr)), false),
      Target(Key(ClusterRole, McpClusterRoleName(cr)), false),
      Target(Key(ClusterRoleBinding, McpClusterRoleName(cr)), false) ]
  }

  /** Names from before they were namespace-qualified. */
  function StaleTargets(cr: CR): seq<Target> {
    [ Target(Key(ClusterRole, AgentResourceName(cr.name)), true),
      Target(Key(ClusterRoleBinding, AgentResourceName(cr.name)), true),
      Target(Key(ClusterRole, UIClusterRoleNameUnqualified(cr.name)), true),
      Target(Key(ClusterRoleBinding, UIClusterRoleNameUnqualified(cr.name)), true),
      Target(Key(ClusterRoleBinding, UIAuthDelegatorBindingNameUnqualified(cr.name)), true),
      Target(Key(ClusterRole, McpResourceName(cr.name)), true),
      Target(Key(ClusterRoleBinding, McpResourceName(cr.name)), true) ]
  }

  function Targets(cr: CR): seq<Target> {
    QualifiedTargets(cr) + StaleTargets(cr) + [Target(Key(OAuthClient, OAuthClientName(cr)), false)]
  }

  /** The list taken apart as the finalizer goes through it. */
  lemma TargetsInOrder(cr: CR) returns (q: seq<Target>, s: seq<Target>)
    ensures Targets(cr) == q + s + [Target(Key(OAuthClient, OAuthClientName(cr)), false)] && |q| == 8 && |s| == 7
    ensures q[0] == Target(Key(ClusterRole, AgentClusterRoleName(cr)), false)
    ensures q[1] == Target(Key(ClusterRole, UIClusterRoleName(cr)), false)
    ensures q[2] == Target(Key(ClusterRoleBinding, AgentClusterRoleName(cr)), false)
    ensures q[3] == Target(Key(ClusterRoleBinding, AgentMonitoringViewBindingName(cr)), false)
    ensures q[4] == Target(Key(ClusterRoleBinding, UIClusterRoleName(cr)), false)
    ensures q[5] == Target(Key(ClusterRoleBinding, UIAuthDelegatorBindingName(cr)), false)
    ensures q[6] == Target(Key(ClusterRole, McpClusterRoleName(cr)), false)
    ensures q[7] == Target(Key(ClusterRoleBinding, McpClusterRoleName(cr)), false)
    ensures s[0] == Target(Key(ClusterRole, AgentResourceName(cr.name)), true)
    ensures s[1] == Target(Key(ClusterRoleBinding, AgentResourceName(cr.name)), true)
    ensures s[2] == Target(Key(ClusterRole, UIClusterRoleNameUnqualified(cr.name)), true)
    ensures s[3] == Target(Key(ClusterRoleBinding, UIClusterRoleNameUnqualified(cr.name)), true)
    ensures s[4] == Target(Key(ClusterRoleBinding, UIAuthDelegatorBindingNameUnqualified(cr.name)), true)
    ensures s[5] == Target(Key(ClusterRole, McpResourceName(cr.name)), true)
    ensures s[6] == Target(Key(ClusterRoleBinding, McpResourceName(cr.name)), true)
  {
    q, s := QualifiedTargets(cr), StaleTargets(cr);
  }

  lemma FromNoneToAll(done: seq<Target>, ts: seq<Target>)
    ensures done + ts[..0] == done && done + ts[..|ts|] == done + ts && (done == [] ==> done + ts == ts)
  {
  }

  // ----- One removal, and many -----

  /** One attempt to remove `t`: at most that object goes, only if it is this CR's, and silence means it is gone. */
  ghost predicate Removed(was: Objects, now: Objects, t: Target, uid: Uid, failed: bool) {
    && (now == was || (t.Left(was, uid) && now == was - {t.key}))
    && (!failed ==> !t.Left(now, uid))
  }

  /** What is known after attempting to remove every target of `done`. */
  ghost predicate Progress(was: Objects, now: Objects, done: seq<Target>, uid: Uid, failed: bool) {
    && (forall k :: k in now ==> k in was && now[k] == was[k])
    && (forall k :: k in was && k !in now ==> exists t :: t in done && t.key == k && t.Mine(was[k], uid))
    && (!failed ==> forall t :: t in done ==> !t.Left(now, uid))
  }

  lemma ProgressExtends(was: Objects, mid: Objects, now: Objects, done: seq<Target>, t: Target, uid: Uid, failed: bool, failedNow: bool)
    requires Progress(was, mid, done, uid, failed) && Removed(mid, now, t, uid, failedNow)
    ensures Progress(was, now, done + [t], uid, failed || failedNow)
  {
    forall k | k in was && k !in now
      ensures exists x :: x in done + [t] && x.key == k && x.Mine(was[k], uid)
    {
      if k in mid {
        assert t in done + [t];
      } else {
        var x :| x in done && x.key == k && x.Mine(was[k], uid);
        assert x in done + [t];
      }
    }
  }

  /** Nothing stamped with another CR's UID is ever removed. */
  lemma OthersAreLeftAlone(was: Objects, now: Objects, done: seq<Target>, uid: Uid, failed: bool)
    requires Progress(was, now, done, uid, failed)
    ensures forall k :: k in was && was[k].Some? && was[k].value != uid ==> k in now && now[k] == was[k]
  {
  }

  /** After an attempt without failures, a second one has nothing to do. */
  lemma RepeatingIsANoOp(was: Objects, now: Objects, again: Objects, done: seq<Target>, uid: Uid, failed: bool)
    requires Progress(was, now, done, uid, false)
    requires Progress(now, again, done, uid, failed)
    ensures again == now
  {
    forall k | k in now ensures k in again {
      assert forall t :: t in done && t.key == k ==> !t.Left(now, uid);
    }
    assert again.Keys == now.Keys;
  }

  /** The target names the object, and its stamp is this CR's, or absent where that will do. */
  predicate Claims(t: Target, k: Key, stamp: Option<Uid>, uid: Uid) {
    t.key == k && (stamp == Some(uid) || (stamp == None && !t.strict))
  }

  /** Exactly what a cleanup without failures leaves: every object that no target claims, as it was. */
  lemma CleanupLeavesExactly(was: Objects, now: Objects, ts: seq<Target>, uid: Uid, k: Key)
    requires Progress(was, now, ts, uid, false)
    ensures k in now <==> k in was && forall t :: t in ts ==> !Claims(t, k, was[k], uid)
    ensures k in now ==> now[k] == was[k]
  {
    if k in was && k !in now {
      var t :| t in ts && t.key == k && t.Mine(was[k], uid);
      assert Claims(t, k, was[k], uid);
    }
    assert forall t :: t in ts && k in now && t.key == k ==> !t.Left(now, uid);
  }

  // ----- The calls, with an API server that may fail -----

  datatype GetResult = Found(stamp: Option<Uid>) | NotFound | NoSuchApi | GetFailed

  datatype DeleteResult = Deleted | AlreadyGone | DeleteFailed

  class ApiServer {
    var objects: Objects
    ghost var attempts: seq<Key>
    /** Calls that failed. */
    ghost var faults: nat

    constructor (objects: Objects)
      ensures this.objects == objects && attempts == [] && faults == 0
    {
      this.objects := objects;
      attempts := [];
      faults := 0;
    }

    /** Only the OAuthClient API can be missing from a cluster. */
    method Get(key: Key) returns (r: GetResult)
      modifies this`attempts, this`faults
      ensures attempts == old(attempts) + [key]
      ensures faults == old(faults) + if r.GetFailed? then 1 else 0
      ensures r.Found? ==> key in objects && objects[key] == r.stamp
      ensures r.NotFound? || r.NoSuchApi? ==> key !in objects
      ensures r.NoSuchApi? ==> key.kind.OAuthClient?
    {
      attempts := attempts + [key];
      if
      case true => r := GetFailed; faults := faults + 1;
      case key in objects => r := Found(objects[key]);
      case key !in objects => r := NotFound;
      case key !in objects && key.kind.OAuthClient? => r := NoSuchApi;
    }

    /** A failed call may have removed the object all the same. */
    method Delete(key: Key) returns (r: DeleteResult)
      modifies this`objects, this`faults
      ensures objects == old(objects) || objects == old(objects) - {key}
      ensures !r.DeleteFailed? ==> key !in objects
      ensures faults == old(faults) + if r.DeleteFailed? then 1 else 0
    {
      if
      case key in objects => objects := objects - {key}; r := Deleted;
      case key !in objects => r := AlreadyGone;
      case true => objects := objects - {key}; r := DeleteFailed; faults := faults + 1;
      case true => r := DeleteFailed; faults := faults + 1;
    }

    /** deleteClusterScopedResources' own del: also for objects without a stamp, and quiet where the API is missing. */
    method Del(key: Key, uid: Uid) returns (failed: bool)
      modifies this`objects, this`attempts, this`faults
      ensures Removed(old(objects), objects, Target(key, false), uid, failed)
      ensures attempts == old(attempts) + [key] && (failed <==> faults > old(faults)) && faults >= old(faults)
    {
      var got := Get(key);
      match got
      case GetFailed => return true;
      case NotFound => return false;
      case NoSuchApi => return false;
      case Found(stamp) =>
        if stamp.Some? && stamp.value != uid {
          return false;
        }
        var r := Delete(key);
        return r.DeleteFailed?;
    }

    /** deleteStaleUnqualifiedClusterScopedResource and deleteOwnedClusterScoped: only with this CR's stamp. */
    method DeleteOwnedClusterScoped(key: Key, uid: Uid) returns (failed: bool)
      modifies this`objects, this`attempts, this`faults
      ensures Removed(old(objects), objects, Target(key, true), uid, failed)
      ensures attempts == old(attempts) + [key] && faults >= old(faults)
      ensures key.kind.OAuthClient? || (failed <==> faults > old(faults))
    {
      var got := Get(key);
      match got
      case GetFailed => return true;
      case NoSuchApi => return true;
      case NotFound => return false;
      case Found(stamp) =>
        if stamp != Some(uid) {
          return false;
        }
        var r := Delete(key);
        return r.DeleteFailed?;
    }

    /** One more target, `ts[i]`, after those of `done` and the ones before it, with the errors so far. */
    method Attempt(key: Key, strict: bool, uid: Uid, errs: seq<Key>, ghost start: Start, ghost done: seq<Target>,
                   ghost ts: seq<Target>, ghost i: nat)
      returns (errs': seq<Key>)
      requires i < |ts| && ts[i] == Target(key, strict) && (strict ==> !key.kind.OAuthClient?)
      requires start.Reached(objects, attempts, faults, done + ts[..i], uid, errs != [])
      modifies this`objects, this`attempts, this`faults
      ensures start.Reached(objects, attempts, faults, done + ts[..i + 1], uid, errs' != [])
      ensures errs' == errs || errs' == errs + [key]
    {
      var failed;
      if strict {
        failed := DeleteOwnedClusterScoped(key, uid);
      } else {
        failed := Del(key, uid);
      }
      ProgressExtends(start.objects, old(objects), objects, done + ts[..i], Target(key, strict), uid, errs != [], failed);
      assert done + ts[..i + 1] == done + ts[..i] + [ts[i]];
      assert Keys(done + ts[..i + 1]) == Keys(done + ts[..i]) + [key];
      errs' := if failed then errs + [key] else errs;
    }

    /** Every deletion is attempted whatever the others return; the failures are reported together. */
    method DeleteClusterScopedResources(cr: CR) returns (errs: seq<Key>)
      modifies this`objects, this`attempts, this`faults
      ensures Progress(old(objects), objects, Targets(cr), cr.uid, errs != [])
      ensures attempts == old(attempts) + Keys(Targets(cr))
      ensures errs == [] <==> faults == old(faults)
    {
      ghost var start := Start(objects, attempts, faults);
      ghost var qualified, stale := TargetsInOrder(cr);
      FromNoneToAll([], qualified);
      errs := DeleteRolesAndAgentBindings(cr, start, qualified);
      errs := DeleteUIAndMcp(cr, errs, start, qualified);
      FromNoneToAll(qualified, stale);
      errs := DeleteStaleAgentAndUIRoles(cr, errs, start, qualified, stale);
      errs := DeleteStaleBindingsAndMcp(cr, errs, start, qualified, stale);
      ghost var last := [Target(Key(OAuthClient, OAuthClientName(cr)), false)];
      FromNoneToAll(qualified + stale, last);
      errs := Attempt(Key(OAuthClient, OAuthClientName(cr)), false, cr.uid, errs, start, qualified + stale, last, 0);
    }

    method DeleteRolesAndAgentBindings(cr: CR, ghost start: Start, ghost ts: seq<Target>) returns (errs: seq<Key>)
      requires |ts| == 8 && start.Reached(objects, attempts, faults, [] + ts[..0], cr.uid, false)
      requires ts[0] == Target(Key(ClusterRole, AgentClusterRoleName(cr)), false)
      requires ts[1] == Target(Key(ClusterRole, UIClusterRoleName(cr)), false)
      requires ts[2] == Target(Key(ClusterRoleBinding, AgentClusterRoleName(cr)), false)
      requires ts[3] == Target(Key(ClusterRoleBinding, AgentMonitoringViewBindingName(cr)), false)
      modifies this`objects, this`attempts, this`faults
      ensures start.Reached(objects, attempts, faults, [] + ts[..4], cr.uid, errs != [])
    {
      errs := Attempt(Key(ClusterRole, AgentClusterRoleName(cr)), false, cr.uid, [], start, [], ts, 0);
      errs := Attempt(Key(ClusterRole, UIClusterRoleName(cr)), false, cr.uid, errs, start, [], ts, 1);
      errs := Attempt(Key(ClusterRoleBinding, AgentClusterRoleName(cr)), false, cr.uid, errs, start, [], ts, 2);
      errs := Attempt(Key(ClusterRoleBinding, AgentMonitoringViewBindingName(cr)), false, cr.uid, errs, start, [], ts, 3);
    }

    method DeleteUIAndMcp(cr: CR, errs0: seq<Key>, ghost start: Start, ghost ts: seq<Target>) returns (errs: seq<Key>)
      requires |ts| == 8 && start.Reached(objects, attempts, faults, [] + ts[..4], cr.uid, errs0 != [])
      requires ts[4] == Target(Key(ClusterRoleBinding, UIClusterRoleName(cr)), false)
      requires ts[5] == Target(Key(ClusterRoleBinding, UIAuthDelegatorBindingName(cr)), false)
      requires ts[6] == Target(Key(ClusterRole, McpClusterRoleName(cr)), false)
      requires ts[7] == Target(Key(ClusterRoleBinding, McpClusterRoleName(cr)), false)
      modifies this`objects, this`attempts, this`faults
      ensures start.Reached(objects, attempts, faults, [] + ts[..8], cr.uid, errs != [])
    {
      errs := Attempt(Key(ClusterRoleBinding, UIClusterRoleName(cr)), false, cr.uid, errs0, start, [], ts, 4);
      errs := Attempt(Key(ClusterRoleBinding, UIAuthDelegatorBindingName(cr)), false, cr.uid, errs, start, [], ts, 5);
      errs := Attempt(Key(ClusterRole, McpClusterRoleName(cr)), false, cr.uid, errs, start, [], ts, 6);
      errs := Attempt(Key(ClusterRoleBinding, McpClusterRoleName(cr)), false, cr.uid, errs, start, [], ts, 7);
    }

    method DeleteStaleAgentAndUIRoles(cr: CR, errs0: seq<Key>, ghost start: Start, ghost done: seq<Target>, ghost ts: seq<Target>)
      returns (errs: seq<Key>)
      requires |ts| == 7 && start.Reached(objects, attempts, faults, done + ts[..0], cr.uid, errs0 != [])
      requires ts[0] == Target(Key(ClusterRole, AgentResourceName(cr.name)), true)
      requires ts[1] == Target(Key(ClusterRoleBinding, AgentResourceName(cr.name)), true)
      requires ts[2] == Target(Key(ClusterRole, UIClusterRoleNameUnqualified(cr.name)), true)
      modifies this`objects, this`attempts, this`faults
      ensures start.Reached(objects, attempts, faults, done + ts[..3], cr.uid, errs != [])
    {
      errs := Attempt(Key(ClusterRole, AgentResourceName(cr.name)), true, cr.uid, errs0, start, done, ts, 0);
      errs := Attempt(Key(ClusterRoleBinding, AgentResourceName(cr.name)), true, cr.uid, errs, start, done, ts, 1);
      errs := Attempt(Key(ClusterRole, UIClusterRoleNameUnqualified(cr.name)), true, cr.uid, errs, start, done, ts, 2);
    }

    method DeleteStaleBindingsAndMcp(cr: CR, errs0: seq<Key>, ghost start: Start, ghost done: seq<Target>, ghost ts: seq<Target>)
      returns (errs: seq<Key>)
      requires |ts| == 7 && start.Reached(objects, attempts, faults, done + ts[..3], cr.uid, errs0 != [])
      requires ts[3] == Target(Key(ClusterRoleBinding, UIClusterRoleNameUnqualified(cr.name)), true)
      requires ts[4] == Target(Key(ClusterRoleBinding, UIAuthDelegatorBindingNameUnqualified(cr.name)), true)
      requires ts[5] == Target(Key(ClusterRole, McpResourceName(cr.name)), true)
      requires ts[6] == Target(Key(ClusterRoleBinding, McpResourceName(cr.name)), true)
      modifies this`objects, this`attempts, this`faults
      ensures start.Reached(objects, attempts, faults, done + ts[..7], cr.uid, errs != [])
    {
      errs := Attempt(Key(ClusterRoleBinding, UIClusterRoleNameUnqualified(cr.name)), true, cr.uid, errs0, start, done, ts, 3);
      errs := Attempt(Key(ClusterRoleBinding, UIAuthDelegatorBindingNameUnqualified(cr.name)), true, cr.uid, errs, start, done, ts, 4);
      errs := Attempt(Key(ClusterRole, McpResourceName(cr.name)), true, cr.uid, errs, start, done, ts, 5);
      errs := Attempt(Key(ClusterRoleBinding, McpResourceName(cr.name)), true, cr.uid, errs, start, done, ts, 6);
    }
  }

  function Keys(ts: seq<Target>): seq<Key> { seq(|ts|, i requires 0 <= i < |ts| => ts[i].key) }

  /** Where a cleanup started, and what it has reached since. */
  datatype Start = Start(objects: Objects, attempts: seq<Key>, faults: nat) {
    ghost predicate Reached(now: Objects, tried: seq<Key>, faultsNow: nat, done: seq<Target>, uid: Uid, failed: bool) {
      && Progress(objects, now, done, uid, failed) && tried == attempts + Keys(done)
      && faultsNow >= faults && (failed <==> faultsNow > faults)
    }
  }
}
