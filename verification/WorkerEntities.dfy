/** Per-entity order, in terms of topics, tenants and cases: what the lanes and their keys are for. */
module WorkerEntities {
  import opened Collections
  import opened Envelope
  import opened Worker
  import opened WorkerOrder

  /** A tenant's case, or with an empty case what the tenant has outside of cases, in one topic. */
  datatype Entity = Entity(topic: string, tenant: string, caseId: string)

  /** A job that is about the entity. */
  predicate About(cfg: Config, r: Record, x: Entity) {
    && NeedsWorker(cfg, r) && r.tp.topic == x.topic
    && r.body.fields.tenantId == x.tenant && CaseOf(r.body.fields) == x.caseId
  }

  function OnEntity(cfg: Config, s: seq<Record>, x: Entity): seq<Record> {
    if s == [] then []
    else OnEntity(cfg, DropLast(s), x) + if About(cfg, Last(s), x) then [Last(s)] else []
  }

  /** Started records of the entity are a prefix of those polled; finished ones a prefix, at most one behind. */
  ghost predicate EntityInOrder(cfg: Config, w: Process, x: Entity) {
    && OnEntity(cfg, w.started, x) <= OnEntity(cfg, w.polled, x)
    && OnEntity(cfg, w.finished, x) <= OnEntity(cfg, w.started, x)
    && |OnEntity(cfg, w.started, x)| - |OnEntity(cfg, w.finished, x)| <= 1
  }

  /** No two lanes run records of the entity. */
  ghost predicate RunsAlone(cfg: Config, w: Process, x: Entity) {
    forall i, j ::
      (0 <= i < |w.lanes| && 0 <= j < |w.lanes| && w.lanes[i].running.Some? && w.lanes[j].running.Some? &&
       About(cfg, w.lanes[i].running.value, x) && About(cfg, w.lanes[j].running.value, x)) ==> i == j
  }

  /**
   Per-entity order: in any run, for each process, the records of one topic, tenant and case are started in the order
   in which they were polled, each after the one before it has finished.
   */
  lemma {:induction false} PerEntityOrder(cfg: Config, s: System, steps: seq<Step>, id: nat, x: Entity)
    requires ValidConfig(cfg) && s.workers == map[] && id in After(cfg, s, steps).workers
    ensures EntityInOrder(cfg, After(cfg, s, steps).workers[id], x)
    ensures RunsAlone(cfg, After(cfg, s, steps).workers[id], x)
  {
    var w := After(cfg, s, steps).workers[id];
    OrderAfter(cfg, s, steps);
    OrderGivesNoOverlap(cfg, w);
    if r :| About(cfg, r, x) {
      RoutedIff(cfg, r);
      var pool, key := RouteOf(cfg, r).pool, RouteOf(cfg, r).key;
      PerKeyOrder(cfg, s, steps, id, pool, key);
      EntityFollowsKey(cfg, w, x, r, pool, key);
      OneRoute(cfg, x, r);
    } else {
      NothingAbout(cfg, w.polled, x);
      NothingAbout(cfg, w.started, x);
      NothingAbout(cfg, w.finished, x);
    }
  }

  lemma OneRoute(cfg: Config, x: Entity, r: Record)
    requires ValidConfig(cfg) && About(cfg, r, x)
    ensures forall q :: About(cfg, q, x) ==> RouteOf(cfg, q) == RouteOf(cfg, r)
  {
    forall q | About(cfg, q, x) ensures RouteOf(cfg, q) == RouteOf(cfg, r) {
      SameEntitySameLane(cfg, q, r);
    }
  }

  lemma {:induction false} EntityFollowsKey(cfg: Config, w: Process, x: Entity, r: Record, pool: nat, key: string)
    requires ValidConfig(cfg) && About(cfg, r, x) && RouteOf(cfg, r) == ToPool(pool, key)
    requires KeyInOrder(cfg, w, pool, key)
    ensures EntityInOrder(cfg, w, x)
  {
    OneRoute(cfg, x, r);
    EntityOfKey(cfg, w.polled, x, pool, key);
    EntityOfKey(cfg, w.started, x, pool, key);
    EntityOfKey(cfg, w.finished, x, pool, key);
    EntityPrefix(cfg, OnKey(cfg, w.started, pool, key), OnKey(cfg, w.polled, pool, key), x);
    EntityPrefix(cfg, OnKey(cfg, w.finished, pool, key), OnKey(cfg, w.started, pool, key), x);
  }

  /** The records of the entity are among those of its key, so filtering by the key first loses nothing. */
  lemma {:induction false} EntityOfKey(cfg: Config, s: seq<Record>, x: Entity, pool: nat, key: string)
    requires forall q :: About(cfg, q, x) ==> RouteOf(cfg, q) == ToPool(pool, key)
    ensures OnEntity(cfg, OnKey(cfg, s, pool, key), x) == OnEntity(cfg, s, x)
  {
    if s != [] {
      var before := OnKey(cfg, DropLast(s), pool, key);
      EntityOfKey(cfg, DropLast(s), x, pool, key);
      assert DropLast(before + [Last(s)]) == before;
    }
  }

  lemma {:induction false} EntityPrefix(cfg: Config, part: seq<Record>, whole: seq<Record>, x: Entity)
    requires part <= whole
    ensures OnEntity(cfg, part, x) <= OnEntity(cfg, whole, x)
    ensures |OnEntity(cfg, whole, x)| - |OnEntity(cfg, part, x)| <= |whole| - |part|
  {
    if part == whole {
    } else {
      assert part <= DropLast(whole);
      EntityPrefix(cfg, part, DropLast(whole), x);
    }
  }

  lemma {:induction false} NothingAbout(cfg: Config, s: seq<Record>, x: Entity)
    requires forall r :: !About(cfg, r, x)
    ensures OnEntity(cfg, s, x) == []
  {
    if s != [] {
      NothingAbout(cfg, DropLast(s), x);
    }
  }
}
