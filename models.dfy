/** The shared asset caches of models.js (`EnemyShipModel` and `CannonBallModel`): each
    loads its glTF file at most once at a time, keeps the loaded model, and hands out
    scaled copies. The two classes differ only in their scale and in whether they keep
    animation clips, so one class with a `kind` models both. */
module Models {
  import opened Common

  datatype AssetKind = EnemyShipAsset | CannonBallAsset

  /** Position, rotation (Euler angles) and uniform scale of a scene node. */
  datatype Transform = Transform(position: Vec3, rotation: Vec3, scale: real)

  /** What the glTF loader delivers: the root node and the animation clips (as handles). */
  datatype Gltf = Gltf(scene: Transform, animations: seq<nat>)

  /** What `loadModel` returns: an already-resolved promise holding the cached model, or
      the promise of load number `load`. */
  datatype LoadReply = Cached(model: Transform, animations: seq<nat>) | InFlight(load: nat)

  /** enemyShipScale is (30, 30, 30), cannonBallScale is (3, 3, 3). */
  function StandardScale(kind: AssetKind): real {
    match kind
    case EnemyShipAsset => 30.0
    case CannonBallAsset => 3.0
  }

  /** The copy `getModelCopy` resolves with: a clone of the loaded model, placed by the
      position callback (or position argument) if one is given, rotated by the rotation
      callback if one is given (`CannonBallModel` takes none), and always at the kind's
      standard scale. */
  function ModelCopy(kind: AssetKind, loaded: Transform, position: Option<Vec3>, rotation: Option<Vec3>): (copy: Transform)
    requires kind == CannonBallAsset ==> rotation.None?
    ensures copy.scale == StandardScale(kind)
    ensures position.Some? ==> copy.position == position.value
    ensures position.None? ==> copy.position == loaded.position
    ensures rotation.Some? ==> copy.rotation == rotation.value
    ensures rotation.None? ==> copy.rotation == loaded.rotation
  {
    var placed := if position.Some? then position.value else loaded.position;
    var turned := if rotation.Some? then rotation.value else loaded.rotation;
    Transform(placed, turned, StandardScale(kind))
  }

  /** The state of one cache, as a value: the static fields `model`, `animations`,
      `isLoading`, `loadPromise`, and the number of loads started. */
  datatype CacheState = CacheState(model: Option<Transform>, animations: seq<nat>, isLoading: bool,
                                   loadPromise: Option<nat>, loadsStarted: nat)

  /** The events a cache sees: a `loadModel` call, and the loader's success and error
      callbacks. The loader calls back only for a load in flight, so a callback event in
      any other state changes nothing. */
  datatype CacheEvent = LoadCall | LoadSuccess(gltf: Gltf) | LoadError

  const Idle: CacheState := CacheState(None, [], false, None, 0)

  ghost predicate CacheInvariant(kind: AssetKind, s: CacheState) {
    && !(s.isLoading && s.model.Some?)
    && (s.isLoading ==> s.loadsStarted > 0)
    && (s.loadPromise.Some? <==> s.loadsStarted > 0)
    && (s.loadPromise.Some? ==> s.loadPromise.value == s.loadsStarted)
    && (kind == CannonBallAsset ==> s.animations == [])
  }

  function Apply(kind: AssetKind, s: CacheState, e: CacheEvent): CacheState {
    match e
    case LoadCall =>
      if s.model.Some? || s.isLoading then s
      else s.(isLoading := true, loadsStarted := s.loadsStarted + 1, loadPromise := Some(s.loadsStarted + 1))
    case LoadSuccess(gltf) =>
      if !s.isLoading then s
      else s.(model := Some(gltf.scene), isLoading := false,
              animations := if kind == EnemyShipAsset then gltf.animations else s.animations)
    case LoadError =>
      if !s.isLoading then s else s.(isLoading := false)
  }

  function Run(kind: AssetKind, s: CacheState, events: seq<CacheEvent>): CacheState
    decreases |events|
  {
    if events == [] then s else Run(kind, Apply(kind, s, events[0]), events[1..])
  }

  /** The number of error callbacks in a trace. */
  function Errors(events: seq<CacheEvent>): nat {
    if events == [] then 0 else (if events[0].LoadError? then 1 else 0) + Errors(events[1..])
  }

  /** The error callbacks of a trace that arrive while a load is in flight, i.e. those
      that put the cache back to idle; a late one (nothing in flight) changes nothing. */
  function EffectiveErrors(kind: AssetKind, s: CacheState, events: seq<CacheEvent>): (n: nat)
    ensures n <= Errors(events)
    decreases |events|
  {
    if events == [] then 0
    else (if events[0].LoadError? && s.isLoading then 1 else 0)
         + EffectiveErrors(kind, Apply(kind, s, events[0]), events[1..])
  }

  /** 1 while the cache is busy or done (a load in flight or a model cached), else 0. */
  function Engaged(s: CacheState): nat {
    if s.isLoading || s.model.Some? then 1 else 0
  }

  /** Over any trace of calls and callbacks: the invariant holds (no load is in flight
      once a model is cached), the loads started grow by at most the idle start plus one
      per error callback (late ones included), and once a model is cached no further
      load starts. */
  lemma {:induction false} RunKeepsInvariant(kind: AssetKind, s: CacheState, events: seq<CacheEvent>)
    requires CacheInvariant(kind, s)
    ensures CacheInvariant(kind, Run(kind, s, events))
    ensures Run(kind, s, events).loadsStarted <= s.loadsStarted + (if s.isLoading || s.model.Some? then 0 else 1) + Errors(events)
    ensures s.model.Some? ==> Run(kind, s, events).loadsStarted == s.loadsStarted && Run(kind, s, events).model.Some?
    decreases |events|
  {
    if events != [] {
      var t := Apply(kind, s, events[0]);
      RunKeepsInvariant(kind, t, events[1..]);
    }
  }

  /** Exactly: every load started either is the one still in flight or cached, or was
      given up by an error callback that arrived while it was in flight. */
  lemma {:induction false} RunCountsLoads(kind: AssetKind, s: CacheState, events: seq<CacheEvent>)
    requires CacheInvariant(kind, s)
    ensures Run(kind, s, events).loadsStarted + Engaged(s)
            == s.loadsStarted + EffectiveErrors(kind, s, events) + Engaged(Run(kind, s, events))
    decreases |events|
  {
    if events != [] {
      var t := Apply(kind, s, events[0]);
      RunKeepsInvariant(kind, s, [events[0]]);
      assert Run(kind, s, [events[0]]) == t;
      RunCountsLoads(kind, t, events[1..]);
    }
  }

  /** From a fresh cache the loads started are the effective errors, plus one when a
      load is in flight or a model is cached at the end. */
  lemma FreshCacheLoads(kind: AssetKind, events: seq<CacheEvent>)
    ensures Run(kind, Idle, events).loadsStarted == EffectiveErrors(kind, Idle, events) + Engaged(Run(kind, Idle, events))
  {
    RunCountsLoads(kind, Idle, events);
  }

  /** From a fresh cache, the loads started never exceed one plus the errors seen. */
  lemma LoadsBoundedByErrors(kind: AssetKind, events: seq<CacheEvent>)
    ensures CacheInvariant(kind, Run(kind, Idle, events))
    ensures Run(kind, Idle, events).loadsStarted <= 1 + Errors(events)
  {
    RunKeepsInvariant(kind, Idle, events);
  }

  class ModelCache {
    const kind: AssetKind
    /** The static `model` field (null until a load succeeds). */
    var model: Option<Transform>
    /** The static `animations` field (ship cache only; stays [] for cannon balls). */
    var animations: seq<nat>
    var isLoading: bool
    /** The static `loadPromise` field, identified by the number of its load. */
    var loadPromise: Option<nat>
    /** How many times `loader.load` has been called. */
    var loadsStarted: nat

    function State(): CacheState
      reads this
    {
      CacheState(model, animations, isLoading, loadPromise, loadsStarted)
    }

    ghost predicate Valid()
      reads this
    {
      CacheInvariant(kind, State())
    }

    constructor (kind: AssetKind)
      ensures Valid() && this.kind == kind && State() == Idle
      ensures model.None? && animations == [] && !isLoading && loadPromise.None? && loadsStarted == 0
    {
      this.kind := kind;
      model, animations, isLoading, loadPromise, loadsStarted := None, [], false, None, 0;
    }

    /** loadModel: a cached model is returned at once, a load in flight is shared, and
        only from the idle state does a new load start. */
    method LoadModel() returns (reply: LoadReply)
      requires Valid()
      modifies this
      ensures Valid()
      ensures old(model).Some? ==> reply == Cached(old(model).value, old(animations))
      ensures old(model).Some? || old(isLoading) ==> unchanged(this)
      ensures old(model).None? && old(isLoading) ==> reply == InFlight(old(loadPromise).value)
      ensures old(model).None? && !old(isLoading) ==>
                && isLoading && model.None? && animations == old(animations)
                && loadsStarted == old(loadsStarted) + 1
                && loadPromise == Some(loadsStarted)
                && reply == InFlight(loadsStarted)
      ensures isLoading ==> reply == InFlight(loadsStarted)
      ensures State() == Apply(kind, old(State()), LoadCall)
    {
      if model.Some? {
        return Cached(model.value, animations);
      }
      if isLoading {
        return InFlight(loadPromise.value);
      }
      isLoading := true;
      loadsStarted := loadsStarted + 1;
      loadPromise := Some(loadsStarted);
      reply := InFlight(loadsStarted);
    }

    /** The loader's success callback for the load in flight. */
    method LoadSucceeded(gltf: Gltf)
      requires Valid() && isLoading
      modifies this
      ensures Valid()
      ensures model == Some(gltf.scene) && !isLoading
      ensures animations == (if kind == EnemyShipAsset then gltf.animations else old(animations))
      ensures loadPromise == old(loadPromise) && loadsStarted == old(loadsStarted)
      ensures State() == Apply(kind, old(State()), LoadSuccess(gltf))
    {
      model := Some(gltf.scene);
      if kind == EnemyShipAsset {
        animations := gltf.animations;
      }
      isLoading := false;
    }

    /** The loader's error callback for the load in flight: the promise is rejected and
        the cache returns to idle, so the next `loadModel` starts afresh. */
    method LoadFailed()
      requires Valid() && isLoading
      modifies this
      ensures Valid()
      ensures !isLoading && model.None?
      ensures animations == old(animations)
      ensures loadPromise == old(loadPromise) && loadsStarted == old(loadsStarted)
      ensures State() == Apply(kind, old(State()), LoadError)
    {
      isLoading := false;
    }

    /** getModelCopy asks `loadModel` for the model; the copy it resolves with is
        `ModelCopy(kind, model, position, rotation)` once the model is there. */
    method GetModelCopy(position: Option<Vec3>, rotation: Option<Vec3>) returns (reply: LoadReply, copy: Option<Transform>)
      requires Valid()
      requires kind == CannonBallAsset ==> rotation.None?
      modifies this
      ensures Valid()
      ensures old(model).Some? ==> copy == Some(ModelCopy(kind, old(model).value, position, rotation))
      ensures old(model).None? ==> copy.None? && reply.InFlight?
      ensures old(model).Some? || old(isLoading) ==> unchanged(this)
      ensures old(model).None? && !old(isLoading) ==> loadsStarted == old(loadsStarted) + 1 && isLoading
    {
      reply := LoadModel();
      if reply.Cached? {
        copy := Some(ModelCopy(kind, reply.model, position, rotation));
      } else {
        copy := None;
      }
    }
  }
}
