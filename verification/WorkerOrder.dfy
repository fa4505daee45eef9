/** Per-key order: records with the same affinity key start in poll order and never overlap. */
module WorkerOrder {
  import opened Collections
  import opened Worker

  function OptionSeq<T>(o: Option<T>): seq<T> {
    if o.Some? then [o.value] else []
  }

  /** The records of s that the configuration sends to lane i, in order. */
  function OnLane(cfg: Config, s: seq<Record>, i: nat): seq<Record>
    requires ValidConfig(cfg)
  {
    if s == [] then []
    else
      var before := OnLane(cfg, DropLast(s), i);
      if LaneOf(cfg, Last(s)) == Some(i) then before + [Last(s)] else before
  }

  /** The records of s that are queued in a pool under the given key, in order. */
  function OnKey(cfg: Config, s: seq<Record>, pool: nat, key: string): seq<Record> {
    if s == [] then []
    else
      var before := OnKey(cfg, DropLast(s), pool, key);
      if RouteOf(cfg, Last(s)) == ToPool(pool, key) then before + [Last(s)] else before
  }

  lemma {:induction false} OnLaneSnoc(cfg: Config, s: seq<Record>, r: Record, i: nat)
    requires ValidConfig(cfg)
    ensures OnLane(cfg, s + [r], i) == if LaneOf(cfg, r) == Some(i) then OnLane(cfg, s, i) + [r] else OnLane(cfg, s, i)
  {
    assert DropLast(s + [r]) == s;
  }

  lemma {:induction false} OnKeySnoc(cfg: Config, s: seq<Record>, r: Record, pool: nat, key: string)
    ensures OnKey(cfg, s + [r], pool, key) ==
            if RouteOf(cfg, r) == ToPool(pool, key) then OnKey(cfg, s, pool, key) + [r] else OnKey(cfg, s, pool, key)
  {
    assert DropLast(s + [r]) == s;
  }

  lemma {:induction false} OnKeyConcat(cfg: Config, a: seq<Record>, b: seq<Record>, pool: nat, key: string)
    ensures OnKey(cfg, a + b, pool, key) == OnKey(cfg, a, pool, key) + OnKey(cfg, b, pool, key)
  {
    if b == [] {
      assert a + b == a;
    } else {
      OnKeyConcat(cfg, a, DropLast(b), pool, key);
      OnKeySnoc(cfg, a + DropLast(b), Last(b), pool, key);
      assert a + b == (a + DropLast(b)) + [Last(b)];
      Associative(OnKey(cfg, a, pool, key), OnKey(cfg, DropLast(b), pool, key), [Last(b)]);
    }
  }

  /** All records of one key go to one lane, so filtering by that lane first loses nothing. */
  lemma {:induction false} OnKeyOfLane(cfg: Config, s: seq<Record>, i: nat, pool: nat, key: string)
    requires ValidConfig(cfg) && pool < |cfg.pools|
    requires i == Base(cfg.pools, pool) + cfg.hash(key) % cfg.pools[pool].lanes
    ensures OnKey(cfg, OnLane(cfg, s, i), pool, key) == OnKey(cfg, s, pool, key)
  {
    if s != [] {
      OnKeyOfLane(cfg, DropLast(s), i, pool, key);
      if LaneOf(cfg, Last(s)) == Some(i) {
        OnKeySnoc(cfg, OnLane(cfg, DropLast(s), i), Last(s), pool, key);
      } else {
        assert OnLane(cfg, s, i) == OnLane(cfg, DropLast(s), i);
      }
    }
  }

  /**
   What lane i was given is what it started, then its queue, then the record being dispatched to it;
   and what it started is what it finished, then the record it is running.
   */
  ghost predicate LaneInv(cfg: Config, w: Process, i: nat)
    requires ValidConfig(cfg) && i < |w.lanes|
  {
    && Flows(OnLane(cfg, w.polled, i), OnLane(cfg, w.started, i), OnLane(cfg, w.finished, i),
             OnLane(cfg, OptionSeq(w.current), i), w.lanes[i])
    && LaneRecords(cfg, w.lanes[i], i)
  }

  predicate Flows(polled: seq<Record>, started: seq<Record>, finished: seq<Record>, current: seq<Record>, l: Lane) {
    polled == started + l.queue + current && started == finished + OptionSeq(l.running)
  }

  // The four moves of a record through a lane, on sequences alone.

  lemma FlowsTrack(polled: seq<Record>, started: seq<Record>, finished: seq<Record>, l: Lane, x: seq<Record>)
    requires Flows(polled, started, finished, [], l)
    ensures Flows(polled + x, started, finished, x, l)
  {
    assert started + l.queue + [] == started + l.queue;
  }

  lemma FlowsSubmit(polled: seq<Record>, started: seq<Record>, finished: seq<Record>, l: Lane, r: Record)
    requires Flows(polled, started, finished, [r], l)
    ensures Flows(polled, started, finished, [], l.(queue := l.queue + [r]))
  {
    assert started + l.queue + [r] == started + (l.queue + [r]) + [];
  }

  lemma FlowsStart(polled: seq<Record>, started: seq<Record>, finished: seq<Record>, current: seq<Record>, l: Lane)
    requires Flows(polled, started, finished, current, l) && l.running.None? && l.queue != []
    ensures Flows(polled, started + [l.queue[0]], finished, current, l.(queue := l.queue[1..], running := Some(l.queue[0])))
  {
    assert started + l.queue + current == (started + [l.queue[0]]) + l.queue[1..] + current;
    assert started == finished + [] == finished;
  }

  lemma FlowsFinish(polled: seq<Record>, started: seq<Record>, finished: seq<Record>, current: seq<Record>, l: Lane, r: Record)
    requires Flows(polled, started, finished, current, l) && l.running == Some(r)
    ensures Flows(polled, started, finished + [r], current, l.(running := None))
  {
    assert finished + [r] + [] == finished + [r];
  }

  lemma FlowsSplit(polled: seq<Record>, started: seq<Record>, finished: seq<Record>, current: seq<Record>, l: Lane)
    requires Flows(polled, started, finished, current, l)
    ensures polled == started + (l.queue + current)
  {
    assert started + l.queue + current == started + (l.queue + current);
  }

  ghost predicate LaneRecords(cfg: Config, l: Lane, i: nat)
    requires ValidConfig(cfg)
  {
    && (forall r :: r in l.queue ==> LaneOf(cfg, r) == Some(i))
    && (l.running.Some? ==> LaneOf(cfg, l.running.value) == Some(i))
  }

  ghost predicate OrderInv(cfg: Config, w: Process)
    requires ValidConfig(cfg)
  {
    && |w.lanes| == Base(cfg.pools, |cfg.pools|)
    && forall i :: 0 <= i < |w.lanes| ==> LaneInv(cfg, w, i)
  }

  lemma {:induction false} OptionOnLane(cfg: Config, o: Option<Record>, i: nat)
    requires ValidConfig(cfg)
    ensures OnLane(cfg, OptionSeq(o), i) == if o.Some? && LaneOf(cfg, o.value) == Some(i) then [o.value] else []
  {
    if o.Some? {
      assert DropLast([o.value]) == [];
    }
  }

  lemma TrackKeepsLane(cfg: Config, w: Process, v: Process, r: Record, i: nat)
    requires ValidConfig(cfg) && i < |w.lanes| && LaneInv(cfg, w, i) && w.current.None?
    requires v.current == Some(r) && v.polled == w.polled + [r]
    requires v.lanes == w.lanes && v.started == w.started && v.finished == w.finished
    ensures LaneInv(cfg, v, i)
  {
    OptionOnLane(cfg, w.current, i);
    OptionOnLane(cfg, v.current, i);
    OnLaneSnoc(cfg, w.polled, r, i);
    var polled, started, finished := OnLane(cfg, w.polled, i), OnLane(cfg, w.started, i), OnLane(cfg, w.finished, i);
    FlowsTrack(polled, started, finished, w.lanes[i], OnLane(cfg, OptionSeq(v.current), i));
  }

  lemma CloseKeepsLane(cfg: Config, w: Process, v: Process, i: nat)
    requires ValidConfig(cfg) && i < |w.lanes| && LaneInv(cfg, w, i)
    requires w.current.Some? && LaneOf(cfg, w.current.value) == None
    requires v.current == None && v.polled == w.polled
    requires v.lanes == w.lanes && v.started == w.started && v.finished == w.finished
    ensures LaneInv(cfg, v, i)
  {
    OptionOnLane(cfg, w.current, i);
    OptionOnLane(cfg, v.current, i);
  }

  /** A lane whose records were all in the lane before holds records of that lane. */
  lemma FewerRecords(cfg: Config, l: Lane, m: Lane, i: nat)
    requires ValidConfig(cfg) && LaneRecords(cfg, l, i)
    requires forall r :: r in m.queue ==> r in l.queue
    requires m.running.Some? ==> m.running == l.running || m.running.value in l.queue
    ensures LaneRecords(cfg, m, i)
  {
  }

  lemma SubmitKeepsLane(cfg: Config, w: Process, v: Process, k: nat, i: nat)
    requires ValidConfig(cfg) && i < |w.lanes| && LaneInv(cfg, w, i)
    requires w.current.Some? && LaneOf(cfg, w.current.value) == Some(k) && k < |w.lanes|
    requires v.current == None && v.polled == w.polled && v.started == w.started && v.finished == w.finished
    requires v.lanes == w.lanes[k := w.lanes[k].(queue := w.lanes[k].queue + [w.current.value])]
    ensures LaneInv(cfg, v, i)
  {
    var r := w.current.value;
    OptionOnLane(cfg, w.current, i);
    OptionOnLane(cfg, v.current, i);
    if k == i {
      FlowsSubmit(OnLane(cfg, w.polled, i), OnLane(cfg, w.started, i), OnLane(cfg, w.finished, i), w.lanes[i], r);
      OneMoreRecord(cfg, w.lanes[i], r, i);
    } else {
      assert v.lanes[i] == w.lanes[i];
    }
  }

  lemma OneMoreRecord(cfg: Config, l: Lane, r: Record, i: nat)
    requires ValidConfig(cfg) && LaneRecords(cfg, l, i) && LaneOf(cfg, r) == Some(i)
    ensures LaneRecords(cfg, l.(queue := l.queue + [r]), i)
  {
    forall q | q in l.queue + [r] ensures LaneOf(cfg, q) == Some(i) {
      if q !in l.queue {
        assert q == r;
      }
    }
  }

  lemma StartKeepsLane(cfg: Config, w: Process, v: Process, k: nat, i: nat)
    requires ValidConfig(cfg) && i < |w.lanes| && LaneInv(cfg, w, i) && k < |w.lanes|
    requires LaneRecords(cfg, w.lanes[k], k) && w.lanes[k].queue != [] && w.lanes[k].running.None?
    requires v.current == w.current && v.polled == w.polled && v.finished == w.finished
    requires var l := w.lanes[k];
             && v.lanes == w.lanes[k := l.(queue := l.queue[1..], running := Some(l.queue[0]))]
             && v.started == w.started + [l.queue[0]]
    ensures LaneInv(cfg, v, i)
  {
    var q := w.lanes[k].queue;
    OnLaneSnoc(cfg, w.started, q[0], i);
    assert LaneOf(cfg, q[0]) == Some(k);
    if k == i {
      FlowsStart(OnLane(cfg, w.polled, i), OnLane(cfg, w.started, i), OnLane(cfg, w.finished, i),
                 OnLane(cfg, OptionSeq(w.current), i), w.lanes[i]);
      FewerRecords(cfg, w.lanes[i], v.lanes[i], i);
    } else {
      assert v.lanes[i] == w.lanes[i];
    }
  }

  lemma FinishKeepsLane(cfg: Config, w: Process, v: Process, k: nat, i: nat)
    requires ValidConfig(cfg) && i < |w.lanes| && LaneInv(cfg, w, i) && k < |w.lanes|
    requires LaneRecords(cfg, w.lanes[k], k) && w.lanes[k].running.Some?
    requires v.current == w.current && v.polled == w.polled && v.started == w.started
    requires v.lanes == w.lanes[k := w.lanes[k].(running := None)] && v.finished == w.finished + [w.lanes[k].running.value]
    ensures LaneInv(cfg, v, i)
  {
    var q := w.lanes[k].running.value;
    assert LaneOf(cfg, q) == Some(k);
    OnLaneSnoc(cfg, w.finished, q, i);
    if k == i {
      FlowsFinish(OnLane(cfg, w.polled, i), OnLane(cfg, w.started, i), OnLane(cfg, w.finished, i),
                  OnLane(cfg, OptionSeq(w.current), i), w.lanes[i], q);
      FewerRecords(cfg, w.lanes[i], v.lanes[i], i);
    } else {
      assert v.lanes[i] == w.lanes[i];
    }
  }

  lemma ActOrdered(cfg: Config, s: System, w: Process, a: Action)
    requires ValidConfig(cfg) && Enabled(cfg, s, w, a) && OrderInv(cfg, w)
    ensures OrderInv(cfg, Act(cfg, s, w, a))
  {
    var v := Act(cfg, s, w, a);
    forall i | 0 <= i < |v.lanes| ensures LaneInv(cfg, v, i) {
      assert LaneInv(cfg, w, i);
      match a
      case TrackRecord(r, c) => TrackKeepsLane(cfg, w, v, r, i);
      case CloseInline(_) => CloseKeepsLane(cfg, w, v, i);
      case Submit => SubmitKeepsLane(cfg, w, v, LaneOf(cfg, w.current.value).value, i);
      case StartJob(k) => assert LaneInv(cfg, w, k); StartKeepsLane(cfg, w, v, k, i);
      case FinishJob(k, _) => assert LaneInv(cfg, w, k); FinishKeepsLane(cfg, w, v, k, i);
      case _ =>
    }
  }

  lemma NewProcessOrdered(cfg: Config)
    requires ValidConfig(cfg)
    ensures OrderInv(cfg, NewProcess(cfg))
  {
    BuiltLanesIdle(cfg.pools);
  }

  lemma {:induction false} BuiltLanesIdle(pools: seq<PoolSpec>)
    ensures |BuildLanes(pools)| == Base(pools, |pools|)
    ensures forall i :: 0 <= i < |BuildLanes(pools)| ==> BuildLanes(pools)[i].queue == [] && BuildLanes(pools)[i].running == None
  {
    if pools != [] {
      BuiltLanesIdle(DropLast(pools));
      BaseOfPrefix(pools, |pools| - 1);
    }
  }

  lemma {:induction false} BaseOfPrefix(pools: seq<PoolSpec>, i: nat)
    requires i < |pools|
    ensures Base(DropLast(pools), i) == Base(pools, i)
  {
    if i > 0 {
      BaseOfPrefix(pools, i - 1);
    }
  }

  lemma {:induction false} BaseGrows(pools: seq<PoolSpec>, i: nat, j: nat)
    requires i <= j <= |pools|
    ensures Base(pools, i) <= Base(pools, j)
    decreases j
  {
    if i < j {
      BaseGrows(pools, i, j - 1);
    }
  }

  ghost predicate AllOrdered(cfg: Config, s: System)
    requires ValidConfig(cfg)
  {
    forall id :: id in s.workers ==> OrderInv(cfg, s.workers[id])
  }

  lemma {:induction false} OrderAfter(cfg: Config, s: System, steps: seq<Step>)
    requires ValidConfig(cfg) && AllOrdered(cfg, s)
    ensures AllOrdered(cfg, After(cfg, s, steps))
  {
    if steps != [] {
      OrderAfter(cfg, s, DropLast(steps));
      var t, step := After(cfg, s, DropLast(steps)), Last(steps);
      if Possible(cfg, t, step) {
        match step
        case Do(id, a) => ActOrdered(cfg, t, t.workers[id], a);
        case Boot(_) => NewProcessOrdered(cfg);
        case _ =>
      }
    }
  }

  /** Started records of the key are a prefix of those polled; finished ones a prefix, at most one behind. */
  ghost predicate KeyInOrder(cfg: Config, w: Process, pool: nat, key: string) {
    && OnKey(cfg, w.started, pool, key) <= OnKey(cfg, w.polled, pool, key)
    && OnKey(cfg, w.finished, pool, key) <= OnKey(cfg, w.started, pool, key)
    && |OnKey(cfg, w.started, pool, key)| - |OnKey(cfg, w.finished, pool, key)| <= 1
  }

  /** No two lanes run records of the same pool and key. */
  ghost predicate NoOverlap(cfg: Config, w: Process) {
    forall i, j ::
      (0 <= i < |w.lanes| && 0 <= j < |w.lanes| && w.lanes[i].running.Some? && w.lanes[j].running.Some? &&
       RouteOf(cfg, w.lanes[i].running.value) == RouteOf(cfg, w.lanes[j].running.value)) ==> i == j
  }

  /**
   Per-key order: in any run, for each process, pool and affinity key, the records started are a prefix of
   those polled, the records finished are a prefix of those started and at most one behind, and at most one
   record of the key is running.
   */
  lemma {:induction false} PerKeyOrder(cfg: Config, s: System, steps: seq<Step>, id: nat, pool: nat, key: string)
    requires ValidConfig(cfg) && s.workers == map[] && id in After(cfg, s, steps).workers && pool < |cfg.pools|
    ensures KeyInOrder(cfg, After(cfg, s, steps).workers[id], pool, key)
    ensures NoOverlap(cfg, After(cfg, s, steps).workers[id])
  {
    OrderAfter(cfg, s, steps);
    OrderGivesKeyOrder(cfg, After(cfg, s, steps).workers[id], pool, key);
    OrderGivesNoOverlap(cfg, After(cfg, s, steps).workers[id]);
  }

  lemma {:induction false} KeyPrefix(cfg: Config, whole: seq<Record>, part: seq<Record>, rest: seq<Record>, pool: nat, key: string)
    requires whole == part + rest
    ensures OnKey(cfg, part, pool, key) <= OnKey(cfg, whole, pool, key)
    ensures |OnKey(cfg, whole, pool, key)| - |OnKey(cfg, part, pool, key)| <= |rest|
  {
    OnKeyConcat(cfg, part, rest, pool, key);
    OnKeySize(cfg, rest, pool, key);
  }

  /** Of records that went through one lane, those of a key keep the lane's order. */
  lemma {:induction false} LaneKeyPrefix(cfg: Config, whole: seq<Record>, part: seq<Record>, rest: seq<Record>,
                      i: nat, pool: nat, key: string)
    requires ValidConfig(cfg) && pool < |cfg.pools|
    requires i == Base(cfg.pools, pool) + cfg.hash(key) % cfg.pools[pool].lanes
    requires OnLane(cfg, whole, i) == OnLane(cfg, part, i) + rest
    ensures OnKey(cfg, part, pool, key) <= OnKey(cfg, whole, pool, key)
    ensures |OnKey(cfg, whole, pool, key)| - |OnKey(cfg, part, pool, key)| <= |rest|
  {
    OnKeyOfLane(cfg, whole, i, pool, key);
    OnKeyOfLane(cfg, part, i, pool, key);
    KeyPrefix(cfg, OnLane(cfg, whole, i), OnLane(cfg, part, i), rest, pool, key);
  }

  lemma OrderGivesKeyOrder(cfg: Config, w: Process, pool: nat, key: string)
    requires ValidConfig(cfg) && OrderInv(cfg, w) && pool < |cfg.pools|
    ensures KeyInOrder(cfg, w, pool, key)
  {
    var i := Base(cfg.pools, pool) + cfg.hash(key) % cfg.pools[pool].lanes;
    BaseGrows(cfg.pools, pool + 1, |cfg.pools|);
    assert LaneInv(cfg, w, i);
    var rest := w.lanes[i].queue + OnLane(cfg, OptionSeq(w.current), i);
    FlowsSplit(OnLane(cfg, w.polled, i), OnLane(cfg, w.started, i), OnLane(cfg, w.finished, i),
               OnLane(cfg, OptionSeq(w.current), i), w.lanes[i]);
    LaneKeyPrefix(cfg, w.polled, w.started, rest, i, pool, key);
    LaneKeyPrefix(cfg, w.started, w.finished, OptionSeq(w.lanes[i].running), i, pool, key);
  }

  lemma OrderGivesNoOverlap(cfg: Config, w: Process)
    requires ValidConfig(cfg) && OrderInv(cfg, w)
    ensures NoOverlap(cfg, w)
  {
    forall i, j | 0 <= i < |w.lanes| && 0 <= j < |w.lanes| && w.lanes[i].running.Some? && w.lanes[j].running.Some? &&
                  RouteOf(cfg, w.lanes[i].running.value) == RouteOf(cfg, w.lanes[j].running.value)
      ensures i == j
    {
      assert LaneInv(cfg, w, i) && LaneInv(cfg, w, j);
    }
  }

  lemma {:induction false} OnKeySize(cfg: Config, s: seq<Record>, pool: nat, key: string)
    ensures |OnKey(cfg, s, pool, key)| <= |s|
  {
    if s != [] {
      OnKeySize(cfg, DropLast(s), pool, key);
    }
  }
}
