/**
 The shared OCR engine cache with double-checked locking (extraction/ocr/pp_chatocr_v4.py).

 A caller looks the key up under the lock, builds an engine without it when there is none of its class,
 takes the lock again and either installs its engine or closes it and adopts the one installed meanwhile.
 */
module EngineCache {
  import opened Prelude

  type Key = string
  type ActorId = string

  /** An engine object and the class it is an instance of. */
  datatype Engine = Engine(id: nat, cls: nat)

  /** What the caller asks for: its cache key, the engine class it has imported, and whether caching is on. */
  datatype Request = Request(key: Key, cls: nat, enabled: bool)

  datatype Pc =
    | Ready
    | Missed(request: Request)
    | Built(request: Request, engine: Engine)
    | Using(request: Request, engine: Engine, shared: bool)

  datatype World = World(cache: map<Key, Engine>, created: nat, closed: multiset<nat>, actors: map<ActorId, Pc>)

  const INIT := World(map[], 0, multiset{}, map[])

  datatype Event =
    | Lookup(a: ActorId, request: Request)
    | Construct(a: ActorId)
    | ConstructFails(a: ActorId)
    | Install(a: ActorId)
    | Release(a: ActorId)

  function PcOf(w: World, a: ActorId): Pc {
    if a in w.actors then w.actors[a] else Ready
  }

  /** The cached engine a request may share: one of the very class the caller imported. */
  predicate Usable(cache: map<Key, Engine>, r: Request) {
    r.key in cache && cache[r.key].cls == r.cls
  }

  function Apply(w: World, e: Event): World {
    match e
    case Lookup(a, r) =>
      if PcOf(w, a).Ready? then
        w.(actors :=
             w.actors[a := if r.enabled && Usable(w.cache, r) then Using(r, w.cache[r.key], true) else Missed(r)])
      else w
    case Construct(a) =>
      if PcOf(w, a).Missed? then
        var r := PcOf(w, a).request;
        w.(created := w.created + 1, actors := w.actors[a := Built(r, Engine(w.created, r.cls))])
      else w
    case ConstructFails(a) => if PcOf(w, a).Missed? then w.(actors := w.actors[a := Ready]) else w
    case Install(a) =>
      if !PcOf(w, a).Built? then w
      else
        var Built(r, engine) := PcOf(w, a);
        if !r.enabled then w.(actors := w.actors[a := Using(r, engine, false)])
        else if Usable(w.cache, r) then
          w.(closed := w.closed + multiset{engine.id}, actors := w.actors[a := Using(r, w.cache[r.key], true)])
        else w.(cache := w.cache[r.key := engine], actors := w.actors[a := Using(r, engine, true)])
    case Release(a) =>
      if !PcOf(w, a).Using? then w
      else
        var Using(_, engine, shared) := PcOf(w, a);
        w.(closed := if shared then w.closed else w.closed + multiset{engine.id}, actors := w.actors[a := Ready])
  }

  function RunTo(es: seq<Event>): World {
    if es == [] then INIT else Apply(RunTo(es[..|es| - 1]), es[|es| - 1])
  }

  // ---- Where every engine is ------------------------------------------------------------------

  /** The engine that only caller `a` can reach: built and not yet installed, or in use uncached. */
  function HeldBy(w: World, a: ActorId): Option<Engine> {
    match PcOf(w, a)
    case Built(_, engine) => Some(engine)
    case Using(_, engine, shared) => if shared then None else Some(engine)
    case _ => None
  }

  function CachedIds(w: World): set<nat> {
    set k | k in w.cache :: w.cache[k].id
  }

  function HeldIds(w: World): set<nat> {
    set a | a in w.actors && HeldBy(w, a).Some? :: HeldBy(w, a).value.id
  }

  function ClosedIds(w: World): set<nat> {
    set i | i in w.closed
  }

  /** This install replaces a cached engine of another class. */
  predicate Displaces(w: World, e: Event) {
    && e.Install? && PcOf(w, e.a).Built? && PcOf(w, e.a).request.enabled
    && PcOf(w, e.a).request.key in w.cache && !Usable(w.cache, PcOf(w, e.a).request)
  }

  /** The engines dropped from the cache during the run. */
  function Displaced(es: seq<Event>): set<nat> {
    if es == [] then {}
    else
      var w, e := RunTo(es[..|es| - 1]), es[|es| - 1];
      Displaced(es[..|es| - 1]) + Gone(w, e)
  }

  function Bit(b: bool): nat {
    if b then 1 else 0
  }

  /** The ids below `n`, and no others, are each in exactly one of the four sets. */
  ghost predicate Partition(cached: set<nat>, held: set<nat>, closed: set<nat>, displaced: set<nat>, n: nat) {
    forall i: nat :: Bit(i in cached) + Bit(i in held) + Bit(i in closed) + Bit(i in displaced) == Bit(i < n)
  }

  /** No place holds an engine twice. */
  ghost predicate DistinctEngines(w: World) {
    && (forall a, b ::
          a in w.actors && b in w.actors && a != b && HeldBy(w, a).Some? && HeldBy(w, b).Some? ==>
            HeldBy(w, a).value.id != HeldBy(w, b).value.id)
    && (forall j, k :: j in w.cache && k in w.cache && j != k ==> w.cache[j].id != w.cache[k].id)
    && (forall i :: w.closed[i] <= 1)
  }

  /** Every engine created so far is in exactly one place, once. */
  ghost predicate Accounted(w: World, displaced: set<nat>) {
    DistinctEngines(w) && Partition(CachedIds(w), HeldIds(w), ClosedIds(w), displaced, w.created)
  }

  function IdOf(engine: Option<Engine>): set<nat> {
    if engine.Some? then {engine.value.id} else {}
  }

  lemma HeldIdsAfter(w: World, e: Event)
    requires DistinctEngines(w)
    ensures HeldIds(Apply(w, e)) == (HeldIds(w) - IdOf(HeldBy(w, e.a))) + IdOf(HeldBy(Apply(w, e), e.a))
  {
    var w' := Apply(w, e);
    assert forall b :: b != e.a ==> PcOf(w', b) == PcOf(w, b) && HeldBy(w', b) == HeldBy(w, b);
    forall i | i in HeldIds(w')
      ensures i in (HeldIds(w) - IdOf(HeldBy(w, e.a))) + IdOf(HeldBy(w', e.a))
    {
      var b :| b in w'.actors && HeldBy(w', b).Some? && HeldBy(w', b).value.id == i;
      if b != e.a {
        assert b in w.actors && HeldBy(w, b).Some?;
      }
    }
    forall i | i in (HeldIds(w) - IdOf(HeldBy(w, e.a))) + IdOf(HeldBy(w', e.a))
      ensures i in HeldIds(w')
    {
      if i in HeldIds(w) && i !in IdOf(HeldBy(w, e.a)) {
        var b :| b in w.actors && HeldBy(w, b).Some? && HeldBy(w, b).value.id == i;
        assert b in w'.actors && HeldBy(w', b).Some?;
      } else {
        assert e.a in w'.actors;
      }
    }
  }

  lemma CachedIdsAfter(w: World, e: Event)
    requires DistinctEngines(w)
    ensures Apply(w, e).cache == w.cache ==> CachedIds(Apply(w, e)) == CachedIds(w)
    ensures Apply(w, e).cache != w.cache ==>
              && e.Install? && HeldBy(w, e.a).Some? && HeldBy(Apply(w, e), e.a) == None
              && CachedIds(Apply(w, e)) ==
                 (CachedIds(w) - (if Displaces(w, e) then {w.cache[PcOf(w, e.a).request.key].id} else {}))
                 + IdOf(HeldBy(w, e.a))
  {
    var w' := Apply(w, e);
    if w'.cache != w.cache {
      var Built(r, engine) := PcOf(w, e.a);
      assert w'.cache == w.cache[r.key := engine];
      assert w'.cache[r.key].id in CachedIds(w');
      forall i | i in CachedIds(w) && !(Displaces(w, e) && i == w.cache[r.key].id)
        ensures i in CachedIds(w')
      {
        var k :| k in w.cache && w.cache[k].id == i;
        assert k != r.key && w'.cache[k].id == i;
      }
    }
  }

  /** After a step its caller holds the engine it held before, a new one or none. */
  lemma ActorsEngine(w: World, e: Event)
    ensures HeldBy(Apply(w, e), e.a).Some? ==>
              || HeldBy(Apply(w, e), e.a).value.id == w.created
              || (e.a in w.actors && HeldBy(Apply(w, e), e.a) == HeldBy(w, e.a))
  {
  }

  lemma SeparateHolders(w: World, e: Event, displaced: set<nat>)
    requires Accounted(w, displaced)
    ensures var w' := Apply(w, e);
            forall a, b ::
              a in w'.actors && b in w'.actors && a != b && HeldBy(w', a).Some? && HeldBy(w', b).Some? ==>
                HeldBy(w', a).value.id != HeldBy(w', b).value.id
  {
    var w' := Apply(w, e);
    forall a | a in w'.actors && a != e.a && HeldBy(w', a).Some?
      ensures a in w.actors && HeldBy(w, a) == HeldBy(w', a) && HeldBy(w, a).value.id < w.created
    {
      assert PcOf(w', a) == PcOf(w, a);
      assert HeldBy(w, a).value.id in HeldIds(w);
    }
    ActorsEngine(w, e);
  }

  lemma SeparateCached(w: World, e: Event, displaced: set<nat>)
    requires Accounted(w, displaced)
    ensures var w' := Apply(w, e);
            forall j, k :: j in w'.cache && k in w'.cache && j != k ==> w'.cache[j].id != w'.cache[k].id
  {
    var w' := Apply(w, e);
    if w'.cache != w.cache {
      var Built(r, engine) := PcOf(w, e.a);
      assert HeldBy(w, e.a) == Some(engine);
      assert engine.id in HeldIds(w);
      assert forall k :: k in w.cache ==> w.cache[k].id in CachedIds(w);
    }
  }

  /** The engine displaced by a step, if any. */
  function Gone(w: World, e: Event): set<nat> {
    if Displaces(w, e) then {w.cache[PcOf(w, e.a).request.key].id} else {}
  }

  lemma PartitionAfterBuild(cached: set<nat>, held: set<nat>, closed: set<nat>, displaced: set<nat>, n: nat)
    requires Partition(cached, held, closed, displaced, n)
    ensures Partition(cached, held + {n}, closed, displaced, n + 1)
  {
    assert Bit(n in cached) + Bit(n in held) + Bit(n in closed) + Bit(n in displaced) == 0;
  }

  lemma PartitionAfterClose(cached: set<nat>, held: set<nat>, closed: set<nat>, displaced: set<nat>, n: nat, x: nat)
    requires Partition(cached, held, closed, displaced, n) && x in held
    ensures Partition(cached, held - {x}, closed + {x}, displaced, n)
  {
    assert Bit(x in cached) + Bit(x in held) + Bit(x in closed) + Bit(x in displaced) == Bit(x < n);
  }

  lemma PartitionAfterInstall(
    cached: set<nat>, held: set<nat>, closed: set<nat>, displaced: set<nat>, n: nat, x: nat, gone: set<nat>)
    requires Partition(cached, held, closed, displaced, n) && x in held && gone <= cached
    ensures Partition((cached - gone) + {x}, held - {x}, closed, displaced + gone, n)
  {
    assert Bit(x in cached) + Bit(x in held) + Bit(x in closed) + Bit(x in displaced) == Bit(x < n);
  }

  lemma StepKeepsPartition(w: World, e: Event, displaced: set<nat>)
    requires Accounted(w, displaced)
    ensures var w' := Apply(w, e);
            Partition(CachedIds(w'), HeldIds(w'), ClosedIds(w'), displaced + Gone(w, e), w'.created)
  {
    var w' := Apply(w, e);
    var (cached, held, closed, n) := (CachedIds(w), HeldIds(w), ClosedIds(w), w.created);
    HeldIdsAfter(w, e);
    CachedIdsAfter(w, e);
    assert displaced + {} == displaced;
    if w'.created != n {
      PartitionAfterBuild(cached, held, closed, displaced, n);
      assert HeldIds(w') == held + {n};
    } else if w'.cache != w.cache {
      var x := HeldBy(w, e.a).value.id;
      assert x in held && Gone(w, e) <= cached;
      PartitionAfterInstall(cached, held, closed, displaced, n, x, Gone(w, e));
      assert HeldIds(w') == held - {x};
    } else if w'.closed != w.closed {
      var x := HeldBy(w, e.a).value.id;
      assert x in held;
      PartitionAfterClose(cached, held, closed, displaced, n, x);
      assert HeldIds(w') == held - {x} && ClosedIds(w') == closed + {x};
    } else {
      StepWithoutEffect(w, e, displaced);
    }
  }

  lemma StepWithoutEffect(w: World, e: Event, displaced: set<nat>)
    requires Accounted(w, displaced)
    requires var w' := Apply(w, e); w'.created == w.created && w'.cache == w.cache && w'.closed == w.closed
    ensures HeldIds(Apply(w, e)) == HeldIds(w) && Gone(w, e) == {}
  {
    HeldIdsAfter(w, e);
    if HeldBy(w, e.a).Some? {
      var x := HeldBy(w, e.a).value.id;
      assert x in HeldIds(w);
      assert Bit(x in CachedIds(w)) + Bit(x in HeldIds(w)) + Bit(x in ClosedIds(w)) + Bit(x in displaced) <= 1;
    }
  }

  lemma StepKeepsAccount(w: World, e: Event, displaced: set<nat>)
    requires Accounted(w, displaced)
    ensures Accounted(Apply(w, e), displaced + Gone(w, e))
  {
    StepKeepsPartition(w, e, displaced);
    SeparateHolders(w, e, displaced);
    SeparateCached(w, e, displaced);
    if HeldBy(w, e.a).Some? {
      assert HeldBy(w, e.a).value.id in HeldIds(w);
    }
  }

  lemma {:induction false} RunKeepsAccount(es: seq<Event>)
    ensures Accounted(RunTo(es), Displaced(es))
  {
    if es != [] {
      RunKeepsAccount(es[..|es| - 1]);
      StepKeepsAccount(RunTo(es[..|es| - 1]), es[|es| - 1], Displaced(es[..|es| - 1]));
    }
  }

  lemma SizeWithout(s: set<nat>, i: nat)
    ensures |s| == |s - {i}| + Bit(i in s)
  {
    if i in s {
      assert s == (s - {i}) + {i};
    } else {
      assert s == s - {i};
    }
  }

  lemma PartitionWithout(cached: set<nat>, held: set<nat>, closed: set<nat>, displaced: set<nat>, n: nat)
    requires n > 0 && Partition(cached, held, closed, displaced, n)
    ensures Partition(cached - {n - 1}, held - {n - 1}, closed - {n - 1}, displaced - {n - 1}, n - 1)
  {
  }

  lemma {:induction false} PartitionSizes(
    cached: set<nat>, held: set<nat>, closed: set<nat>, displaced: set<nat>, n: nat)
    requires Partition(cached, held, closed, displaced, n)
    ensures |cached| + |held| + |closed| + |displaced| == n
    decreases n
  {
    if n == 0 {
      assert forall i: nat :: Bit(i in cached) + Bit(i in held) + Bit(i in closed) + Bit(i in displaced) == 0;
      assert cached == {} && held == {} && closed == {} && displaced == {};
    } else {
      var i := n - 1;
      assert Bit(i in cached) + Bit(i in held) + Bit(i in closed) + Bit(i in displaced) == 1;
      PartitionWithout(cached, held, closed, displaced, n);
      PartitionSizes(cached - {i}, held - {i}, closed - {i}, displaced - {i}, i);
      SizeWithout(cached, i);
      SizeWithout(held, i);
      SizeWithout(closed, i);
      SizeWithout(displaced, i);
    }
  }

  lemma {:induction false} DistinctIdsCount(cache: map<Key, Engine>)
    requires forall j, k :: j in cache && k in cache && j != k ==> cache[j].id != cache[k].id
    ensures |set k | k in cache :: cache[k].id| == |cache|
  {
    var ids := set k | k in cache :: cache[k].id;
    if cache.Keys == {} {
      assert cache == map[];
    } else {
      var j :| j in cache;
      var rest := cache - {j};
      var restIds := set k | k in rest :: rest[k].id;
      DistinctIdsCount(rest);
      assert cache[j].id !in restIds;
      assert ids == restIds + {cache[j].id} by {
        forall i | i in ids
          ensures i in restIds + {cache[j].id}
        {
          var k :| k in cache && cache[k].id == i;
          assert k == j || k in rest;
        }
      }
      assert |rest| == |cache| - 1 by {
        assert rest.Keys == cache.Keys - {j};
        assert |rest.Keys| == |rest| && |cache.Keys| == |cache|;
      }
    }
  }

  /**
   Engines created = cached + held (built and not yet installed, or in use uncached) + closed + displaced,
   with every engine in one place only and closed at most once; so no cached engine is ever closed.
   */
  lemma EnginesAreConserved(es: seq<Event>)
    ensures var w := RunTo(es);
            && w.created == |w.cache| + |HeldIds(w)| + |ClosedIds(w)| + |Displaced(es)|
            && (forall i :: i in w.closed ==> w.closed[i] == 1)
            && (forall k :: k in w.cache ==> w.cache[k].id !in w.closed)
  {
    var w := RunTo(es);
    RunKeepsAccount(es);
    PartitionSizes(CachedIds(w), HeldIds(w), ClosedIds(w), Displaced(es), w.created);
    DistinctIdsCount(w.cache);
    forall k | k in w.cache
      ensures w.cache[k].id !in w.closed
    {
      assert w.cache[k].id in CachedIds(w);
    }
  }

  /** A losing engine is closed in the step that finds the winner, and stays closed exactly once. */
  lemma {:induction false} LosersCloseOnce(es: seq<Event>, i: nat, id: nat)
    requires i <= |es| && id in RunTo(es[..i]).closed
    ensures RunTo(es).closed[id] == 1
    decreases |es| - i
  {
    if i == |es| {
      assert es[..i] == es;
      RunKeepsAccount(es);
    } else {
      assert es[..i + 1][..i] == es[..i];
      LosersCloseOnce(es, i + 1, id);
    }
  }

  lemma LoserAdoptsWinner(es: seq<Event>, a: ActorId)
    requires PcOf(RunTo(es), a).Built? && PcOf(RunTo(es), a).request.enabled
    requires Usable(RunTo(es).cache, PcOf(RunTo(es), a).request)
    ensures var w, w' := RunTo(es), Apply(RunTo(es), Install(a));
            && w'.closed[PcOf(w, a).engine.id] == 1
            && w'.cache == w.cache
            && PcOf(w', a) == Using(PcOf(w, a).request, w.cache[PcOf(w, a).request.key], true)
            && PcOf(w, a).engine != w.cache[PcOf(w, a).request.key]
  {
    var w := RunTo(es);
    RunKeepsAccount(es);
    assert HeldBy(w, a).value.id in HeldIds(w);
    assert w.cache[PcOf(w, a).request.key].id in CachedIds(w);
  }

  // ---- Bindings -------------------------------------------------------------------------------

  /** A binding changes in a step exactly when an engine of another class is installed over it. */
  lemma RebindsIffDisplaced(w: World, e: Event, k: Key, displaced: set<nat>)
    requires Accounted(w, displaced) && k in w.cache
    ensures k in Apply(w, e).cache
    ensures Apply(w, e).cache[k] != w.cache[k] <==> Displaces(w, e) && PcOf(w, e.a).request.key == k
  {
    assert w.cache[k].id in CachedIds(w);
    if HeldBy(w, e.a).Some? {
      assert HeldBy(w, e.a).value.id in HeldIds(w);
    }
  }

  /** Every caller of the run has imported the same engine class. */
  predicate OneClass(es: seq<Event>, cls: nat) {
    forall i :: 0 <= i < |es| && es[i].Lookup? ==> es[i].request.cls == cls
  }

  ghost predicate AllOfClass(w: World, cls: nat) {
    && (forall k :: k in w.cache ==> w.cache[k].cls == cls)
    && (forall a :: a in w.actors && !w.actors[a].Ready? ==> w.actors[a].request.cls == cls)
    && (forall a :: a in w.actors && w.actors[a].Built? ==> w.actors[a].engine.cls == cls)
  }

  /** Every caller that shares an engine uses the one bound to its key. */
  ghost predicate SharersAgree(w: World) {
    forall a :: a in w.actors && w.actors[a].Using? && w.actors[a].shared ==>
      w.actors[a].request.key in w.cache && w.cache[w.actors[a].request.key] == w.actors[a].engine
  }

  lemma {:induction false} OneClassAgrees(es: seq<Event>, cls: nat)
    requires OneClass(es, cls)
    ensures AllOfClass(RunTo(es), cls) && SharersAgree(RunTo(es)) && Displaced(es) == {}
  {
    if es != [] {
      var init := es[..|es| - 1];
      assert forall i :: 0 <= i < |init| ==> init[i] == es[i];
      OneClassAgrees(init, cls);
      OneClassStep(RunTo(init), es[|es| - 1], cls);
    }
  }

  lemma OneClassStep(w: World, e: Event, cls: nat)
    requires AllOfClass(w, cls) && SharersAgree(w) && (e.Lookup? ==> e.request.cls == cls)
    ensures AllOfClass(Apply(w, e), cls) && SharersAgree(Apply(w, e)) && !Displaces(w, e)
    ensures forall k :: k in w.cache ==> k in Apply(w, e).cache && Apply(w, e).cache[k] == w.cache[k]
  {
    if PcOf(w, e.a).Built? {
      assert w.actors[e.a].request.cls == cls;
    }
  }

  /**
   When all callers import one engine class, a key's binding never changes once set, and every caller
   that was given a cached engine holds that same one, however the callers interleave.
   */
  lemma {:induction false} BindingNeverChanges(es: seq<Event>, i: nat, k: Key, cls: nat)
    requires OneClass(es, cls) && i <= |es| && k in RunTo(es[..i]).cache
    ensures k in RunTo(es).cache && RunTo(es).cache[k] == RunTo(es[..i]).cache[k]
    ensures SharersAgree(RunTo(es))
    decreases |es| - i
  {
    OneClassAgrees(es, cls);
    if i == |es| {
      assert es[..i] == es;
    } else {
      assert es[..i + 1][..i] == es[..i];
      OneClassAgrees(es[..i], cls);
      OneClassStep(RunTo(es[..i]), es[i], cls);
      BindingNeverChanges(es, i + 1, k, cls);
    }
  }

  /** With two classes the binding does change, and the displaced engine is neither cached nor closed. */
  lemma TwoClassesRebind() returns (es: seq<Event>)
    ensures "k" in RunTo(es).cache && RunTo(es).cache["k"].id == 1
    ensures 0 < RunTo(es).created && 0 !in CachedIds(RunTo(es)) && 0 !in RunTo(es).closed
  {
    es := CachedBy([], "a", Request("k", 0, true));
    es := CachedBy(es, "b", Request("k", 1, true));
  }

  /** One caller misses, builds and installs without interruption. */
  lemma CachedBy(es: seq<Event>, a: ActorId, r: Request) returns (es': seq<Event>)
    requires PcOf(RunTo(es), a).Ready? && r.enabled && !Usable(RunTo(es).cache, r)
    ensures RunTo(es').cache == RunTo(es).cache[r.key := Engine(RunTo(es).created, r.cls)]
    ensures RunTo(es').created == RunTo(es).created + 1 && RunTo(es').closed == RunTo(es).closed
    ensures forall b :: b != a ==> PcOf(RunTo(es'), b) == PcOf(RunTo(es), b)
  {
    var e1 := Do(es, Lookup(a, r));
    var e2 := Do(e1, Construct(a));
    es' := Do(e2, Install(a));
  }

  lemma Do(es: seq<Event>, e: Event) returns (es': seq<Event>)
    ensures RunTo(es') == Apply(RunTo(es), e)
  {
    es' := es + [e];
    assert es'[..|es'| - 1] == es;
  }

  // ---- The two locked regions -----------------------------------------------------------------

  /** The module-level cache; each method is one `with _ENGINE_CACHE_LOCK` region. */
  class SharedCache {
    var cache: map<Key, Engine>

    constructor ()
      ensures cache == map[]
    {
      cache := map[];
    }

    method Find(r: Request) returns (engine: Option<Engine>)
      ensures engine == if Usable(cache, r) then Some(cache[r.key]) else None
    {
      if r.key in cache && cache[r.key].cls == r.cls {
        return Some(cache[r.key]);
      }
      return None;
    }

    /** Answers the engine to use and whether the caller's own was to be closed. */
    method InstallOrAdopt(r: Request, own: Engine) returns (engine: Engine, closeOwn: bool)
      modifies this
      ensures closeOwn == Usable(old(cache), r)
      ensures closeOwn ==> cache == old(cache) && engine == old(cache)[r.key]
      ensures !closeOwn ==> cache == old(cache)[r.key := own] && engine == own
    {
      var existing := Find(r);
      if existing.Some? {
        return existing.value, true;
      }
      cache := cache[r.key := own];
      return own, false;
    }

    /** The whole lookup when no other caller runs meanwhile; `own` is the engine the constructor would return. */
    method GetEngine(r: Request, own: Engine) returns (engine: Engine, shared: bool)
      requires own.cls == r.cls
      modifies this
      ensures shared == r.enabled && engine.cls == r.cls
      ensures r.enabled ==> Usable(cache, r) && cache[r.key] == engine
      ensures cache == if r.enabled && !Usable(old(cache), r) then old(cache)[r.key := own] else old(cache)
    {
      if r.enabled {
        var cached := Find(r);
        if cached.Some? {
          return cached.value, true;
        }
      }
      if r.enabled {
        var closeOwn;
        engine, closeOwn := InstallOrAdopt(r, own);
        return engine, true;
      }
      return own, false;
    }
  }
}
