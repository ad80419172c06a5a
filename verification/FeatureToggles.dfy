/**
 Optional features and the objects they own: MCP, Temporal with its Web UI nested in it, and render
 (mcp_reconciler.go, temporal_reconciler.go, render_reconciler.go and remove_helpers.go under
 internal/controller/).
 */
module FeatureToggles {
  import opened Options

  datatype Feature = Mcp | TemporalServer | TemporalUI | Render

  datatype Kind = ServiceAccount | ClusterRole | ClusterRoleBinding | ConfigMap | Token | Deployment | Service | NetworkPolicy

  /** One object of this CR's; a feature and a kind determine its name. */
  datatype Key = Key(feature: Feature, kind: Kind)

  /** `owner`: the controlling owner's UID, or the stamped one on a cluster-scoped object. */
  datatype Object = Object(owner: Option<string>, body: string)

  type Objects = map<Key, Object>

  function At(objects: Objects, k: Key): Option<Object> { if k in objects then Some(objects[k]) else None }

  /** `body` is what the spec and the operator's own defaults make of each object. */
  datatype Settings = Settings(mcp: bool, temporal: bool, ui: bool, render: bool, body: Key -> string)

  const MCP_RBAC_KEYS := {Key(Mcp, ServiceAccount), Key(Mcp, ClusterRole), Key(Mcp, ClusterRoleBinding)}
  const MCP_SERVER_KEYS := {Key(Mcp, ConfigMap), Key(Mcp, Deployment), Key(Mcp, Service), Key(Mcp, NetworkPolicy)}
  const MCP_KEYS := MCP_RBAC_KEYS + MCP_SERVER_KEYS
  const SERVER_KEYS := {Key(TemporalServer, Deployment), Key(TemporalServer, Service), Key(TemporalServer, NetworkPolicy)}
  const UI_KEYS := {Key(TemporalUI, Deployment), Key(TemporalUI, Service)}
  const RENDER_KEYS := {Key(Render, Token), Key(Render, Deployment), Key(Render, Service), Key(Render, NetworkPolicy)}

  /** The kinds each feature has. */
  predicate IsFeatureKey(k: Key) {
    match k.feature
    case Mcp => !k.kind.Token?
    case TemporalServer => k.kind.Deployment? || k.kind.Service? || k.kind.NetworkPolicy?
    case TemporalUI => k.kind.Deployment? || k.kind.Service?
    case Render => k.kind.Token? || k.kind.Deployment? || k.kind.Service? || k.kind.NetworkPolicy?
  }

  /** The switch an object hangs on: the Web UI needs Temporal too. */
  predicate On(s: Settings, f: Feature) {
    match f
    case Mcp => s.mcp
    case TemporalServer => s.temporal
    case TemporalUI => s.temporal && s.ui
    case Render => s.render
  }

  predicate Wanted(s: Settings, k: Key) { IsFeatureKey(k) && On(s, k.feature) }

  // ----- What a pass wants of one object -----

  /** CreateOrUpdate with an owner reference refuses another controller's object; the others do not look. */
  predicate Refuses(uid: string, k: Key, o: Option<Object>) {
    && !(k.kind.ClusterRole? || k.kind.ClusterRoleBinding? || k.kind.Token? || k == Key(Mcp, Service))
    && o.Some? && o.value.owner.Some? && o.value.owner != Some(uid)
  }

  /** Created, adopted or refreshed; the token is created once, the MCP Service never re-owned. */
  function Ensured(uid: string, s: Settings, k: Key, o: Option<Object>): Option<Object> {
    if o.None? then Some(Object(Some(uid), s.body(k)))
    else if k.kind.Token? then o
    else if k == Key(Mcp, Service) then Some(o.value.(body := s.body(k)))
    else Some(Object(Some(uid), s.body(k)))
  }

  /** Deleted only if this CR owns it. */
  function Removed(uid: string, o: Option<Object>): Option<Object> {
    if o.Some? && o.value.owner == Some(uid) then None else o
  }

  function Goal(uid: string, s: Settings, k: Key, o: Option<Object>): Option<Object> {
    if !IsFeatureKey(k) then o
    else if On(s, k.feature) then Ensured(uid, s, k, o)
    else Removed(uid, o)
  }

  /** Between `a` and `b` only `keys` moved, each to its goal if at all; all did when `done`. */
  ghost predicate Moved(uid: string, s: Settings, a: Objects, b: Objects, keys: set<Key>, done: bool) {
    && (forall k :: k !in keys ==> At(b, k) == At(a, k))
    && (forall k <- keys :: At(b, k) == Goal(uid, s, k, At(a, k)) || (!done && At(b, k) == At(a, k)))
    && (forall k <- keys :: done && Wanted(s, k) ==> !Refuses(uid, k, At(a, k)))
  }

  lemma MovedFurther(uid: string, s: Settings, a: Objects, b: Objects, c: Objects, first: set<Key>, more: set<Key>, done: bool)
    requires Moved(uid, s, a, b, first, true) && Moved(uid, s, b, c, more, done) && first !! more
    ensures Moved(uid, s, a, c, first + more, done)
  {
  }

  lemma MovedWithin(uid: string, s: Settings, a: Objects, b: Objects, keys: set<Key>, all: set<Key>)
    requires Moved(uid, s, a, b, keys, false) && keys <= all
    ensures Moved(uid, s, a, b, all, false)
  {
  }

  // ----- The reconcilers, with an API server that may fail -----

  // The order promised: permissions, then what the Deployment mounts, then the Deployment; the token first of all.
  const MCP_RBAC_ORDER := [Key(Mcp, ServiceAccount), Key(Mcp, ClusterRole), Key(Mcp, ClusterRoleBinding)]
  const MCP_SERVER_ORDER := [Key(Mcp, ConfigMap), Key(Mcp, Deployment), Key(Mcp, Service), Key(Mcp, NetworkPolicy)]
  const RENDER_ORDER := [Key(Render, Token), Key(Render, Deployment), Key(Render, Service), Key(Render, NetworkPolicy)]

  /** Some object the settings want is another controller's. */
  ghost predicate SomeRefuses(uid: string, s: Settings, objects: Objects) {
    exists k :: Wanted(s, k) && Refuses(uid, k, At(objects, k))
  }

  /** A step that began at `was` reports an error only if a call failed or something refused, and then does. */
  ghost predicate Excused(uid: string, s: Settings, was: Objects, faultsWas: nat, faults: nat, ok: bool) {
    faults >= faultsWas && (ok ==> faults == faultsWas) && (!ok ==> faults > faultsWas || SomeRefuses(uid, s, was))
  }

  /** Steps before make nothing refuse that did not. */
  lemma RefusedBefore(uid: string, s: Settings, a: Objects, b: Objects, keys: set<Key>)
    requires Moved(uid, s, a, b, keys, true)
    ensures SomeRefuses(uid, s, b) ==> SomeRefuses(uid, s, a)
  {
    if k :| Wanted(s, k) && Refuses(uid, k, At(b, k)) {
      assert k in keys ==> At(b, k) == Goal(uid, s, k, At(a, k));
      assert Refuses(uid, k, At(a, k));
    }
  }

  class Cluster {
    var objects: Objects
    const uid: string
    /** Calls that failed, and the objects handled so far. */
    ghost var faults: nat
    ghost var calls: seq<Key>

    constructor (uid: string, objects: Objects)
      ensures this.uid == uid && this.objects == objects && faults == 0 && calls == []
    {
      this.uid, this.objects := uid, objects;
      faults, calls := 0, [];
    }

    /** A call to the API server comes back with an error. */
    ghost method Fault()
      modifies this`faults
      ensures faults == old(faults) + 1
    {
      faults := faults + 1;
    }

    /** One object's reconcile step; a call that reports an error may have been carried out. */
    method Ensure(k: Key, s: Settings) returns (ok: bool)
      requires Wanted(s, k)
      modifies this
      ensures Moved(uid, s, old(objects), objects, {k}, ok)
      ensures calls == old(calls) + [k] && faults >= old(faults)
      ensures ok <==> faults == old(faults) && !Refuses(uid, k, At(old(objects), k))
    {
      calls := calls + [k];
      if * {
        Fault();
        return false;
      }
      if k in objects {
        var found := objects[k];
        if k.kind.Token? {
          return true;
        }
        var desired := found.(body := s.body(k));
        if k != Key(Mcp, Service) {
          if !k.kind.ClusterRole? && !k.kind.ClusterRoleBinding? && found.owner.Some? && found.owner != Some(uid) {
            return false;
          }
          desired := desired.(owner := Some(uid));
        }
        if * {
          Fault();
          return false;
        }
        objects := objects[k := desired];
      } else {
        objects := objects[k := Object(Some(uid), s.body(k))];
      }
      if * {
        Fault();
        return false;
      }
      return true;
    }

    method DeleteOwned(k: Key, s: Settings) returns (ok: bool)
      requires IsFeatureKey(k) && !On(s, k.feature)
      modifies this
      ensures Moved(uid, s, old(objects), objects, {k}, ok)
      ensures calls == old(calls) + [k] && faults >= old(faults) && (ok <==> faults == old(faults))
    {
      calls := calls + [k];
      if * {
        Fault();
        return false;
      }
      if k !in objects || objects[k].owner != Some(uid) {
        return true;
      }
      if * {
        Fault();
        return false;
      }
      objects := objects - {k};
      if * {
        Fault();
        return false;
      }
      return true;
    }

    /** The next of a step's several calls, which began at `was` and are to move `all`. */
    method EnsureNext(k: Key, s: Settings, ghost was: Objects, ghost keys: set<Key>, ghost all: set<Key>) returns (ok: bool)
      requires Wanted(s, k) && k !in keys && keys + {k} <= all && Moved(uid, s, was, objects, keys, true)
      modifies this
      ensures if ok then Moved(uid, s, was, objects, keys + {k}, true) else Moved(uid, s, was, objects, all, false)
      ensures calls == old(calls) + [k] && Excused(uid, s, was, old(faults), faults, ok)
    {
      ghost var before := objects;
      ok := Ensure(k, s);
      MovedFurther(uid, s, was, before, objects, keys, {k}, ok);
    }

    method DeleteNext(k: Key, s: Settings, ghost was: Objects, ghost keys: set<Key>, ghost all: set<Key>) returns (ok: bool)
      requires IsFeatureKey(k) && !On(s, k.feature) && k !in keys && keys + {k} <= all && Moved(uid, s, was, objects, keys, true)
      modifies this
      ensures if ok then Moved(uid, s, was, objects, keys + {k}, true) else Moved(uid, s, was, objects, all, false)
      ensures calls == old(calls) + [k] && Excused(uid, s, was, old(faults), faults, ok)
    {
      ghost var before := objects;
      ok := DeleteOwned(k, s);
      MovedFurther(uid, s, was, before, objects, keys, {k}, ok);
    }

    /** The loops over a list of objects to delete, which stop at the first error. */
    method DeleteEach(list: seq<Key>, s: Settings, ghost all: set<Key>) returns (ok: bool)
      requires forall i :: 0 <= i < |list| ==> IsFeatureKey(list[i]) && !On(s, list[i].feature)
      requires forall i, j :: 0 <= i < j < |list| ==> list[i] != list[j]
      requires forall k :: k in all <==> k in list
      modifies this
      ensures ok ==> calls == old(calls) + list
      ensures Moved(uid, s, old(objects), objects, all, ok)
      ensures Excused(uid, s, old(objects), old(faults), faults, ok)
    {
      ghost var was := objects;
      ghost var keys: set<Key> := {};
      for i := 0 to |list|
        invariant forall k :: k in keys <==> k in list[..i]
        invariant Moved(uid, s, was, objects, keys, true)
        invariant faults == old(faults) && calls == old(calls) + list[..i]
      {
        ok := DeleteNext(list[i], s, was, keys, all);
        if !ok {
          return;
        }
        keys := keys + {list[i]};
      }
      assert list[..|list|] == list;
      assert keys == all;
      return true;
    }

    /** RBAC before the Deployment that names its ServiceAccount. */
    method ReconcileMCP(s: Settings) returns (ok: bool)
      requires s.mcp
      modifies this
      ensures Moved(uid, s, old(objects), objects, MCP_KEYS, ok)
      ensures Excused(uid, s, old(objects), old(faults), faults, ok)
      ensures ok ==> calls == old(calls) + MCP_RBAC_ORDER + MCP_SERVER_ORDER
    {
      ghost var was := objects;
      ok := ReconcileMCPRbac(s);
      if !ok {
        MovedWithin(uid, s, was, objects, MCP_RBAC_KEYS, MCP_KEYS);
        return;
      }
      ghost var between := objects;
      RefusedBefore(uid, s, was, between, MCP_RBAC_KEYS);
      ok := ReconcileMCPServer(s);
      MovedFurther(uid, s, was, between, objects, MCP_RBAC_KEYS, MCP_SERVER_KEYS, ok);
    }

    method ReconcileMCPRbac(s: Settings) returns (ok: bool)
      requires s.mcp
      modifies this
      ensures Moved(uid, s, old(objects), objects, MCP_RBAC_KEYS, ok)
      ensures ok ==> calls == old(calls) + MCP_RBAC_ORDER
      ensures Excused(uid, s, old(objects), old(faults), faults, ok)
    {
      ghost var was := objects;
      ok := EnsureNext(Key(Mcp, ServiceAccount), s, was, {}, MCP_RBAC_KEYS);
      if !ok { return; }
      ghost var keys := {Key(Mcp, ServiceAccount)};
      ok := EnsureNext(Key(Mcp, ClusterRole), s, was, keys, MCP_RBAC_KEYS);
      if !ok { return; }
      keys := keys + {Key(Mcp, ClusterRole)};
      ok := EnsureNext(Key(Mcp, ClusterRoleBinding), s, was, keys, MCP_RBAC_KEYS);
      assert keys + {Key(Mcp, ClusterRoleBinding)} == MCP_RBAC_KEYS;
    }

    /** The ConfigMap before the Deployment that mounts it. */
    method ReconcileMCPServer(s: Settings) returns (ok: bool)
      requires s.mcp
      modifies this
      ensures Moved(uid, s, old(objects), objects, MCP_SERVER_KEYS, ok)
      ensures ok ==> calls == old(calls) + MCP_SERVER_ORDER
      ensures Excused(uid, s, old(objects), old(faults), faults, ok)
    {
      ghost var was := objects;
      ok := EnsureNext(Key(Mcp, ConfigMap), s, was, {}, MCP_SERVER_KEYS);
      if !ok { return; }
      ghost var keys := {Key(Mcp, ConfigMap)};
      ok := EnsureNext(Key(Mcp, Deployment), s, was, keys, MCP_SERVER_KEYS);
      if !ok { return; }
      keys := keys + {Key(Mcp, Deployment)};
      ok := EnsureNext(Key(Mcp, Service), s, was, keys, MCP_SERVER_KEYS);
      if !ok { return; }
      keys := keys + {Key(Mcp, Service)};
      ok := EnsureNext(Key(Mcp, NetworkPolicy), s, was, keys, MCP_SERVER_KEYS);
      assert keys + {Key(Mcp, NetworkPolicy)} == MCP_SERVER_KEYS;
    }

    method RemoveMCP(s: Settings) returns (ok: bool)
      requires !s.mcp
      modifies this
      ensures Moved(uid, s, old(objects), objects, MCP_KEYS, ok)
      ensures Excused(uid, s, old(objects), old(faults), faults, ok)
    {
      var list := [Key(Mcp, Deployment), Key(Mcp, ConfigMap), Key(Mcp, Service), Key(Mcp, NetworkPolicy),
                   Key(Mcp, ServiceAccount), Key(Mcp, ClusterRoleBinding), Key(Mcp, ClusterRole)];
      ok := DeleteEach(list, s, MCP_KEYS);
    }

    method ReconcileTemporal(s: Settings) returns (ok: bool)
      modifies this
      ensures Moved(uid, s, old(objects), objects, TemporalOn(s), ok)
      ensures Excused(uid, s, old(objects), old(faults), faults, ok)
    {
      if !s.temporal {
        return true;
      }
      ghost var was, all := objects, TemporalOn(s);
      ok := EnsureNext(Key(TemporalServer, Deployment), s, was, {}, all);
      if !ok { return; }
      ghost var keys := {Key(TemporalServer, Deployment)};
      ok := EnsureNext(Key(TemporalServer, Service), s, was, keys, all);
      if !ok { return; }
      keys := keys + {Key(TemporalServer, Service)};
      ok := EnsureNext(Key(TemporalServer, NetworkPolicy), s, was, keys, all);
      if !ok { return; }
      assert keys + {Key(TemporalServer, NetworkPolicy)} == SERVER_KEYS;
      if s.ui {
        ghost var between := objects;
        RefusedBefore(uid, s, was, between, SERVER_KEYS);
        ok := ReconcileTemporalUI(s);
        MovedFurther(uid, s, was, between, objects, SERVER_KEYS, UI_KEYS, ok);
      }
    }

    method ReconcileTemporalUI(s: Settings) returns (ok: bool)
      requires s.temporal && s.ui
      modifies this
      ensures Moved(uid, s, old(objects), objects, UI_KEYS, ok)
      ensures Excused(uid, s, old(objects), old(faults), faults, ok)
    {
      ghost var was := objects;
      ok := EnsureNext(Key(TemporalUI, Deployment), s, was, {}, UI_KEYS);
      if !ok { return; }
      ok := EnsureNext(Key(TemporalUI, Service), s, was, {Key(TemporalUI, Deployment)}, UI_KEYS);
      assert {Key(TemporalUI, Deployment)} + {Key(TemporalUI, Service)} == UI_KEYS;
    }

    /** Also runs while Temporal is on, to take away the Web UI alone. */
    method RemoveTemporal(s: Settings) returns (ok: bool)
      modifies this
      ensures Moved(uid, s, old(objects), objects, TemporalOff(s), ok)
      ensures Excused(uid, s, old(objects), old(faults), faults, ok)
    {
      var list := [Key(TemporalUI, Deployment), Key(TemporalUI, Service)];
      if s.temporal {
        if s.ui {
          return true;
        }
      } else {
        list := [Key(TemporalServer, NetworkPolicy)] + list + [Key(TemporalServer, Deployment), Key(TemporalServer, Service)];
      }
      ok := DeleteEach(list, s, TemporalOff(s));
    }

    method ReconcileRender(s: Settings) returns (ok: bool)
      modifies this
      ensures Moved(uid, s, old(objects), objects, RENDER_KEYS, ok)
      ensures s.render && ok ==> calls == old(calls) + RENDER_ORDER
      ensures Excused(uid, s, old(objects), old(faults), faults, ok)
    {
      if !s.render {
        var list := [Key(Render, Deployment), Key(Render, Service), Key(Render, NetworkPolicy), Key(Render, Token)];
        ok := DeleteEach(list, s, RENDER_KEYS);
        return;
      }
      ghost var was := objects;
      ok := EnsureNext(Key(Render, Token), s, was, {}, RENDER_KEYS);
      if !ok { return; }
      ok := EnsureNext(Key(Render, Deployment), s, was, {Key(Render, Token)}, RENDER_KEYS);
      if !ok { return; }
      ghost var keys := {Key(Render, Token)} + {Key(Render, Deployment)};
      ok := EnsureNext(Key(Render, Service), s, was, keys, RENDER_KEYS);
      if !ok { return; }
      keys := keys + {Key(Render, Service)};
      ok := EnsureNext(Key(Render, NetworkPolicy), s, was, keys, RENDER_KEYS);
      assert keys + {Key(Render, NetworkPolicy)} == RENDER_KEYS;
    }

    /**
     The feature steps of one reconcile, in its order. `stops` are the other steps in between, which
     may end the pass too.
     */
    method ReconcileFeatures(s: Settings, stopsAfterRender: bool) returns (ok: bool)
      modifies this
      ensures Passed(uid, s, old(objects), objects, ok)
      ensures !stopsAfterRender ==> Excused(uid, s, old(objects), old(faults), faults, ok)
    {
      ghost var was := objects;
      ok := ReconcileRender(s);
      if !ok || stopsAfterRender {
        MovedIsPassed(uid, s, was, objects, RENDER_KEYS, ok, false);
        return false;
      }
      ghost var rendered := objects;
      RefusedBefore(uid, s, was, rendered, RENDER_KEYS);
      ok := ReconcileMCPStep(s);
      if !ok {
        TwoSteps(uid, s, was, rendered, objects);
        return;
      }
      ghost var served := objects;
      RefusedBefore(uid, s, rendered, served, MCP_KEYS);
      ok := ReconcileTemporalStep(s);
      ThreeSteps(uid, s, was, rendered, served, objects, ok);
    }

    method ReconcileMCPStep(s: Settings) returns (ok: bool)
      modifies this
      ensures Moved(uid, s, old(objects), objects, MCP_KEYS, ok)
      ensures Excused(uid, s, old(objects), old(faults), faults, ok)
    {
      if s.mcp {
        ok := ReconcileMCP(s);
      } else {
        ok := RemoveMCP(s);
      }
    }

    method ReconcileTemporalStep(s: Settings) returns (ok: bool)
      modifies this
      ensures Moved(uid, s, old(objects), objects, SERVER_KEYS + UI_KEYS, ok)
      ensures Excused(uid, s, old(objects), old(faults), faults, ok)
    {
      ghost var was := objects;
      ok := ReconcileTemporal(s);
      if !ok {
        MovedWithin(uid, s, was, objects, TemporalOn(s), SERVER_KEYS + UI_KEYS);
        return;
      }
      ghost var between := objects;
      RefusedBefore(uid, s, was, between, TemporalOn(s));
      ok := RemoveTemporal(s);
      MovedFurther(uid, s, was, between, objects, TemporalOn(s), TemporalOff(s), ok);
      assert TemporalOn(s) + TemporalOff(s) == SERVER_KEYS + UI_KEYS;
    }
  }

  /** One pass over all features: every object at its goal, or where it was if the pass broke off. */
  ghost predicate Passed(uid: string, s: Settings, a: Objects, b: Objects, done: bool) {
    && (forall k :: At(b, k) == Goal(uid, s, k, At(a, k)) || (!done && At(b, k) == At(a, k)))
    && (forall k :: done && Wanted(s, k) ==> !Refuses(uid, k, At(a, k)))
  }

  lemma MovedIsPassed(uid: string, s: Settings, a: Objects, b: Objects, keys: set<Key>, moved: bool, done: bool)
    requires Moved(uid, s, a, b, keys, moved)
    requires done ==> moved && forall k :: IsFeatureKey(k) ==> k in keys
    ensures Passed(uid, s, a, b, done)
  {
    forall k ensures At(b, k) == Goal(uid, s, k, At(a, k)) || (!done && At(b, k) == At(a, k)) {
      assert !IsFeatureKey(k) ==> Goal(uid, s, k, At(a, k)) == At(a, k);
    }
  }

  lemma TwoSteps(uid: string, s: Settings, a: Objects, b: Objects, c: Objects)
    requires Moved(uid, s, a, b, RENDER_KEYS, true) && Moved(uid, s, b, c, MCP_KEYS, false)
    ensures Passed(uid, s, a, c, false)
  {
    MovedFurther(uid, s, a, b, c, RENDER_KEYS, MCP_KEYS, false);
    MovedIsPassed(uid, s, a, c, RENDER_KEYS + MCP_KEYS, false, false);
  }

  lemma ThreeSteps(uid: string, s: Settings, a: Objects, b: Objects, c: Objects, d: Objects, done: bool)
    requires Moved(uid, s, a, b, RENDER_KEYS, true) && Moved(uid, s, b, c, MCP_KEYS, true)
    requires Moved(uid, s, c, d, SERVER_KEYS + UI_KEYS, done)
    ensures Passed(uid, s, a, d, done)
  {
    var before := RENDER_KEYS + MCP_KEYS;
    MovedFurther(uid, s, a, b, c, RENDER_KEYS, MCP_KEYS, true);
    MovedFurther(uid, s, a, c, d, before, SERVER_KEYS + UI_KEYS, done);
    forall k | IsFeatureKey(k) ensures k in before + (SERVER_KEYS + UI_KEYS) {
      EveryKeyIsListed(k);
    }
    MovedIsPassed(uid, s, a, d, before + (SERVER_KEYS + UI_KEYS), done, done);
  }

  const FEATURE_KEYS := RENDER_KEYS + MCP_KEYS + (SERVER_KEYS + UI_KEYS)

  lemma EveryKeyIsListed(k: Key)
    requires IsFeatureKey(k)
    ensures k in FEATURE_KEYS
  {
    match k.feature
    case Mcp => assert k in MCP_KEYS;
    case TemporalServer => assert k in SERVER_KEYS;
    case TemporalUI => assert k in UI_KEYS;
    case Render => assert k in RENDER_KEYS;
  }

  /** The Temporal objects a pass creates, and those it deletes. */
  function TemporalOn(s: Settings): set<Key> {
    if !s.temporal then {} else if s.ui then SERVER_KEYS + UI_KEYS else SERVER_KEYS
  }

  function TemporalOff(s: Settings): set<Key> {
    if !s.temporal then SERVER_KEYS + UI_KEYS else if s.ui then {} else UI_KEYS
  }

  // ----- What a pass leaves -----

  /** Everything under a feature's name belongs to this CR. */
  ghost predicate NoneForeign(uid: string, objects: Objects) {
    forall k :: IsFeatureKey(k) && k in objects ==> objects[k].owner == Some(uid)
  }

  /** Which objects hang on which switches. */
  lemma WantedBySwitch(s: Settings, k: Key)
    ensures Wanted(s, k) <==>
      || (s.mcp && k in MCP_KEYS) || (s.render && k in RENDER_KEYS)
      || (s.temporal && k in SERVER_KEYS) || (s.temporal && s.ui && k in UI_KEYS)
  {
    if IsFeatureKey(k) {
      EveryKeyIsListed(k);
    }
  }

  /** What refuses is exactly a namespaced object of another controller's that is created with an owner. */
  lemma RefusedIff(uid: string, k: Key, o: Option<Object>)
    requires IsFeatureKey(k)
    ensures Refuses(uid, k, o) <==>
      && (exists other: string :: other != uid && o.Some? && o.value.owner == Some(other))
      && (k.kind in {ServiceAccount, ConfigMap, Deployment, NetworkPolicy} || (k.kind.Service? && !k.feature.Mcp?))
  {
    if o.Some? && o.value.owner.Some? && o.value.owner.value != uid {
      var other := o.value.owner.value;
      assert other != uid && o.value.owner == Some(other);
    }
  }

  /** A completed pass, in any cluster: what is wanted, and what was not this CR's to delete. */
  lemma CompletedPassLeavesExactly(uid: string, s: Settings, a: Objects, b: Objects)
    requires Passed(uid, s, a, b, true)
    ensures forall k :: IsFeatureKey(k) ==> (k in b <==> Wanted(s, k) || (k in a && a[k].owner != Some(uid)))
    ensures forall k :: Wanted(s, k) && !k.kind.Token? ==> b[k].body == s.body(k)
    ensures forall k :: Wanted(s, k) && k != Key(Mcp, Service) && !k.kind.Token? ==> b[k].owner == Some(uid)
    ensures forall k :: Wanted(s, k) && k in a && k.kind.Token? ==> b[k] == a[k]
    ensures forall k :: Wanted(s, k) && k in a && k == Key(Mcp, Service) ==> b[k].owner == a[k].owner
    ensures forall k :: Wanted(s, k) && k !in a ==> b[k] == Object(Some(uid), s.body(k))
    ensures forall k :: !IsFeatureKey(k) ==> At(b, k) == At(a, k)
  {
    forall k | IsFeatureKey(k)
      ensures k in b <==> Wanted(s, k) || (k in a && a[k].owner != Some(uid))
      ensures Wanted(s, k) && !k.kind.Token? ==> b[k].body == s.body(k)
      ensures Wanted(s, k) && k != Key(Mcp, Service) && !k.kind.Token? ==> b[k].owner == Some(uid)
      ensures Wanted(s, k) && k in a && k.kind.Token? ==> b[k] == a[k]
      ensures Wanted(s, k) && k in a && k == Key(Mcp, Service) ==> b[k].owner == a[k].owner
      ensures Wanted(s, k) && k !in a ==> b[k] == Object(Some(uid), s.body(k))
    {
      assert At(b, k) == Goal(uid, s, k, At(a, k));
    }
  }

  /** Aborted or not, a pass deletes nothing this CR does not own, in any cluster. */
  lemma NothingForeignIsDeleted(uid: string, s: Settings, a: Objects, b: Objects, done: bool)
    requires Passed(uid, s, a, b, done)
    ensures forall k :: k in a && a[k].owner != Some(uid) ==> k in b
  {
    forall k | k in a && a[k].owner != Some(uid) ensures k in b {
      assert At(b, k) == Goal(uid, s, k, At(a, k)) || At(b, k) == At(a, k);
    }
  }

  /** Doing it again changes nothing. */
  lemma SecondPassChangesNothing(uid: string, s: Settings, a: Objects, b: Objects, c: Objects, done: bool)
    requires Passed(uid, s, a, b, true) && Passed(uid, s, b, c, done)
    ensures c == b
  {
    forall k ensures At(c, k) == At(b, k) {
      assert At(b, k) == Goal(uid, s, k, At(a, k));
      assert At(c, k) == Goal(uid, s, k, At(b, k)) || At(c, k) == At(b, k);
    }
    assert forall k :: k in c <==> At(c, k).Some?;
    assert forall k :: k in b <==> At(b, k).Some?;
    assert forall k :: k in b && k in c ==> At(c, k) == Some(c[k]) && At(b, k) == Some(b[k]);
  }

  // ----- Whole runs -----

  /** One pass: the settings it saw, whether it completed, and what it left. */
  datatype Pass = Pass(settings: Settings, done: bool, left: Objects)

  ghost predicate IsRun(uid: string, start: Objects, passes: seq<Pass>)
    decreases |passes|
  {
    passes == [] || (
      && Passed(uid, passes[0].settings, start, passes[0].left, passes[0].done)
      && IsRun(uid, passes[0].left, passes[1..]))
  }

  lemma PassKeepsNoneForeign(uid: string, s: Settings, a: Objects, b: Objects, done: bool)
    requires NoneForeign(uid, a) && Passed(uid, s, a, b, done)
    ensures NoneForeign(uid, b)
  {
    forall k | IsFeatureKey(k) && k in b ensures b[k].owner == Some(uid) {
      assert At(b, k) == Goal(uid, s, k, At(a, k)) || At(b, k) == At(a, k);
    }
  }

  /**
   Whatever the settings were and however many passes broke off half way: once a pass completes, the
   features' objects are exactly those its own settings ask for.
   */
  lemma {:induction false} FeaturesConverge(uid: string, start: Objects, passes: seq<Pass>)
    requires NoneForeign(uid, start) && IsRun(uid, start, passes)
    requires passes != [] && passes[|passes| - 1].done
    ensures var last := passes[|passes| - 1];
      forall k :: IsFeatureKey(k) ==> (k in last.left <==> Wanted(last.settings, k))
    decreases |passes|
  {
    if |passes| == 1 {
      CompletedPassLeavesExactly(uid, passes[0].settings, start, passes[0].left);
    } else {
      PassKeepsNoneForeign(uid, passes[0].settings, start, passes[0].left, passes[0].done);
      FeaturesConverge(uid, passes[0].left, passes[1..]);
    }
  }

  // ----- Objects that were not this CR's -----

  /** The render token and the MCP Service are used as they are found; everything else is taken over. */
  predicate TakenOver(k: Key) { !k.kind.Token? && k != Key(Mcp, Service) }

  /**
   Exactly which foreign objects switching a feature on and off again deletes: all that are taken over.
   That is a user's own unowned object, and for the cluster-scoped kinds another CR's too.
   */
  lemma OnThenOffDeletesIff(uid: string, on: Settings, off: Settings, a: Objects, b: Objects, c: Objects, k: Key)
    requires Passed(uid, on, a, b, true) && Passed(uid, off, b, c, true)
    requires IsFeatureKey(k) && On(on, k.feature) && !On(off, k.feature)
    requires k in a && a[k].owner != Some(uid)
    ensures k !in c <==> TakenOver(k)
    ensures a[k].owner.Some? && k !in c ==> k.kind.ClusterRole? || k.kind.ClusterRoleBinding?
  {
    assert Wanted(on, k) && !Refuses(uid, k, At(a, k));
    assert At(b, k) == Goal(uid, on, k, At(a, k));
    assert At(c, k) == Goal(uid, off, k, At(b, k));
  }

  /** Every pass of the run completed. */
  ghost predicate AllDone(passes: seq<Pass>) { forall i :: 0 <= i < |passes| ==> passes[i].done }

  ghost predicate EverOn(passes: seq<Pass>, f: Feature) {
    exists i :: 0 <= i < |passes| && On(passes[i].settings, f)
  }

  lemma OnePass(uid: string, s: Settings, a: Objects, b: Objects, k: Key)
    requires Passed(uid, s, a, b, true) && IsFeatureKey(k)
    ensures At(b, k) == Goal(uid, s, k, At(a, k))
    ensures On(s, k.feature) ==> !Refuses(uid, k, At(a, k))
  {
    assert On(s, k.feature) ==> Wanted(s, k);
  }

  /** An object that is this CR's, or gone, is gone after a run that ends with its feature off. */
  lemma {:induction false} OwnEndsGone(uid: string, start: Objects, passes: seq<Pass>, k: Key)
    requires IsRun(uid, start, passes) && AllDone(passes) && IsFeatureKey(k) && passes != []
    requires k in start ==> start[k].owner == Some(uid)
    requires !On(passes[|passes| - 1].settings, k.feature)
    ensures k !in passes[|passes| - 1].left
    decreases |passes|
  {
    OnePass(uid, passes[0].settings, start, passes[0].left, k);
    if |passes| > 1 {
      OwnEndsGone(uid, passes[0].left, passes[1..], k);
    }
  }

  /**
   Over whole runs: of completed passes that end with the feature off, a foreign object is deleted
   exactly when it is one that is taken over and some pass had the feature on.
   */
  lemma {:induction false} ForeignObjectEndsGoneIff(uid: string, start: Objects, passes: seq<Pass>, k: Key)
    requires IsRun(uid, start, passes) && AllDone(passes) && IsFeatureKey(k) && passes != []
    requires k in start && start[k].owner != Some(uid)
    requires !On(passes[|passes| - 1].settings, k.feature)
    ensures k !in passes[|passes| - 1].left <==> TakenOver(k) && EverOn(passes, k.feature)
    decreases |passes|
  {
    var rest := passes[1..];
    OnePass(uid, passes[0].settings, start, passes[0].left, k);
    assert EverOn(passes, k.feature) <==> On(passes[0].settings, k.feature) || EverOn(rest, k.feature) by {
      if i :| 0 <= i < |rest| && On(rest[i].settings, k.feature) {
        assert passes[i + 1] == rest[i];
      }
      assert forall i :: 1 <= i < |passes| ==> passes[i] == rest[i - 1];
    }
    if |passes| > 1 {
      if On(passes[0].settings, k.feature) && TakenOver(k) {
        OwnEndsGone(uid, passes[0].left, rest, k);
      } else {
        ForeignObjectEndsGoneIff(uid, passes[0].left, rest, k);
      }
    }
  }

  /**
   So a CR whose cluster-scoped names collide with another's takes that one's MCP ClusterRole over, and
   deletes it when its own MCP server is switched off; nothing on the way refuses.
   */
  lemma AnothersClusterRoleIsDeleted(uid: string, on: Settings, off: Settings, a: Objects)
    requires on.mcp && !off.mcp && Key(Mcp, ClusterRole) in a && a[Key(Mcp, ClusterRole)].owner.Some?
    requires a[Key(Mcp, ClusterRole)].owner.value != uid
    requires forall k :: Wanted(on, k) ==> !Refuses(uid, k, At(a, k))
    requires forall k :: Wanted(off, k) ==> !Refuses(uid, k, At(a, k))
    ensures var b := SettledObjects(uid, on, a);
      var c := SettledObjects(uid, off, b);
      Passed(uid, on, a, b, true) && Passed(uid, off, b, c, true) && Key(Mcp, ClusterRole) !in c
  {
    var b := SettledObjects(uid, on, a);
    SettlingIsAPass(uid, on, a);
    SettlingIsAPartialPass(uid, on, a);
    forall k | Wanted(off, k) ensures !Refuses(uid, k, At(b, k)) {
      assert At(b, k) == Goal(uid, on, k, At(a, k));
    }
    SettlingIsAPass(uid, off, b);
    OnThenOffDeletesIff(uid, on, off, a, b, SettledObjects(uid, off, b), Key(Mcp, ClusterRole));
  }

  ghost function SettledObjects(uid: string, s: Settings, a: Objects): Objects {
    map k | k in a.Keys + FEATURE_KEYS && Goal(uid, s, k, At(a, k)).Some? :: Goal(uid, s, k, At(a, k)).value
  }

  lemma SettlingIsAPartialPass(uid: string, s: Settings, a: Objects)
    ensures Passed(uid, s, a, SettledObjects(uid, s, a), false)
    ensures forall k :: At(SettledObjects(uid, s, a), k) == Goal(uid, s, k, At(a, k))
  {
    var b := SettledObjects(uid, s, a);
    forall k ensures At(b, k) == Goal(uid, s, k, At(a, k)) {
      if IsFeatureKey(k) {
        EveryKeyIsListed(k);
      }
    }
  }

  lemma SettlingIsAPass(uid: string, s: Settings, a: Objects)
    requires forall k :: Wanted(s, k) ==> !Refuses(uid, k, At(a, k))
    ensures Passed(uid, s, a, SettledObjects(uid, s, a), true)
  {
    SettlingIsAPartialPass(uid, s, a);
  }
}
