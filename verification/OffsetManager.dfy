/**
 The offset manager and the rebalance handler as objects (internal/offsetmanager/manager.go,
 internal/consumer/rebalance.go).  Every method is one uninterrupted call; the interleavings of such calls
 are the subject of the Sessions and Worker modules.
 */
module OffsetManager {
  import opened Collections
  import Offsets
  import opened Sessions

  datatype TopicPartition = TopicPartition(topic: string, partition: int)

  type Table = map<TopicPartition, Offsets.Partition>

  /** What the manager finds for a partition: state() makes a fresh one where there is none. */
  function Get(m: Table, tp: TopicPartition): Offsets.Partition {
    if tp in m then m[tp] else Offsets.FRESH
  }

  class PartitionState {
    var epoch: int
    var initialized: bool
    var nextCommit: nat
    var completed: set<nat>
    var inFlight: int
    var draining: bool
    var drainCh: Option<nat>
    var lastCommitted: int
    var channels: nat
    var tokens: set<nat>

    ghost function View(): Offsets.Partition
      reads this
    {
      Offsets.Partition(epoch, initialized, nextCommit, completed, inFlight, draining, drainCh,
                        lastCommitted, channels, tokens)
    }

    constructor ()
      ensures View() == Offsets.FRESH
    {
      epoch, initialized, nextCommit, completed := 0, false, 0, {};
      inFlight, draining, drainCh, lastCommitted := 0, false, None, -1;
      channels, tokens := 0, {};
    }

    method Track(offset: nat, leaderEpoch: int)
      modifies this
      ensures View() == Offsets.Track(old(View()), offset, leaderEpoch)
    {
      epoch := leaderEpoch;
      if !initialized {
        nextCommit := offset;
        initialized := true;
      }
      inFlight := inFlight + 1;
    }

    method Complete(offset: nat)
      modifies this
      ensures View() == Offsets.Complete(old(View()), offset)
    {
      completed := completed + {offset};
      inFlight := inFlight - 1;
      if draining && inFlight <= 0 && drainCh.Some? {
        tokens := tokens + {drainCh.value};
      }
    }

    /**
     The cursor stops at the least offset not completed, everything it passed is deleted, and an offset
     is returned exactly when the cursor moved beyond what was last committed.
     */
    method CommittableOffset() returns (r: Option<Offsets.Commit>)
      modifies this
      ensures View() == Offsets.Flush(old(View())).0 && r == Offsets.Flush(old(View())).1
      ensures nextCommit == Offsets.LeastMissing(old(completed), old(nextCommit))
      ensures r.Some? <==> nextCommit > old(nextCommit) && nextCommit - 1 > old(lastCommitted)
    {
      var advanced := false;
      while nextCommit in completed
        invariant old(nextCommit) <= nextCommit
        invariant advanced <==> nextCommit > old(nextCommit)
        invariant completed == set o | o in old(completed) && !(old(nextCommit) <= o < nextCommit)
        invariant Offsets.LeastMissing(completed, nextCommit) == Offsets.LeastMissing(old(completed), old(nextCommit))
        invariant unchanged(`epoch, `initialized, `inFlight, `draining, `drainCh, `lastCommitted, `channels, `tokens)
        decreases completed
      {
        completed := completed - {nextCommit};
        nextCommit := nextCommit + 1;
        advanced := true;
      }
      if !advanced {
        return None;
      }
      var committable := nextCommit - 1;
      if committable <= lastCommitted {
        return None;
      }
      lastCommitted := committable;
      return Some(Offsets.Commit(committable, epoch));
    }

    /** The locked part of Drain; the channel returned is the one to wait on. */
    method Drain() returns (wait: Option<nat>)
      modifies this
      ensures View() == Offsets.Drain(old(View())).0 && wait == Offsets.Drain(old(View())).1
    {
      if inFlight <= 0 {
        return None;
      }
      draining := true;
      drainCh := Some(channels);
      wait := Some(channels);
      channels := channels + 1;
    }
  }

  /** `requests` records the arguments of CommitRecords, in the order of the calls. */
  class Manager {
    var partitions: map<TopicPartition, PartitionState>
    var requests: seq<(TopicPartition, Offsets.Commit)>
    ghost var table: Table                 // what the states hold
    ghost var states: set<PartitionState>  // all that this manager has made

    ghost predicate Valid()
      reads `partitions, `table, `states, states
    {
      table.Keys == partitions.Keys && Owned() && forall tp :: tp in partitions ==> partitions[tp].View() == table[tp]
    }

    /** No two partitions share a state. */
    ghost predicate Owned()
      reads `partitions, `states
    {
      && (forall tp :: tp in partitions ==> partitions[tp] in states)
      && (forall j, k :: j in partitions && k in partitions && j != k ==> partitions[j] != partitions[k])
    }

    /** Valid, but for what the table says of tp. */
    ghost predicate ValidBut(tp: TopicPartition)
      reads `partitions, `table, `states, states
    {
      && tp in partitions && partitions.Keys == table.Keys + {tp} && Owned()
      && forall k :: k in partitions && k != tp ==> partitions[k].View() == table[k]
    }

    ghost method Record(tp: TopicPartition)
      requires ValidBut(tp)
      modifies this`table
      ensures Valid() && table == old(table)[tp := partitions[tp].View()]
    {
      table := table[tp := partitions[tp].View()];
    }

    constructor ()
      ensures Valid() && table == map[] && requests == [] && fresh(states)
    {
      partitions, requests, table, states := map[], [], map[], {};
    }

    /** The one state of the partition, made when there is none. */
    method State(tp: TopicPartition) returns (st: PartitionState)
      requires Valid()
      modifies this`partitions, this`states
      ensures ValidBut(tp) && fresh(states - old(states))
      ensures partitions[tp] == st && st.View() == Get(table, tp)
    {
      if tp !in partitions {
        st := new PartitionState();
        partitions, states := partitions[tp := st], states + {st};
      } else {
        st := partitions[tp];
      }
    }

    method Track(tp: TopicPartition, offset: nat, leaderEpoch: int)
      requires Valid()
      modifies this`partitions, this`table, this`states, states
      ensures Valid() && fresh(states - old(states))
      ensures table == old(table)[tp := Offsets.Track(Get(old(table), tp), offset, leaderEpoch)]
    {
      var st := State(tp);
      st.Track(offset, leaderEpoch);
      Record(tp);
    }

    method Complete(tp: TopicPartition, offset: nat)
      requires Valid()
      modifies this`partitions, this`table, this`states, states
      ensures Valid() && fresh(states - old(states))
      ensures table == old(table)[tp := Offsets.Complete(Get(old(table), tp), offset)]
    {
      var st := State(tp);
      st.Complete(offset);
      Record(tp);
    }

    method DrainStart(tp: TopicPartition) returns (wait: Option<nat>)
      requires Valid()
      modifies this`partitions, this`table, this`states, states
      ensures Valid() && fresh(states - old(states))
      ensures table == old(table)[tp := Offsets.Drain(Get(old(table), tp)).0]
      ensures wait == Offsets.Drain(Get(old(table), tp)).1
    {
      var st := State(tp);
      wait := st.Drain();
      Record(tp);
    }

    method FlushPartition(tp: TopicPartition)
      requires Valid()
      modifies this, states
      ensures Valid() && fresh(states - old(states))
      ensures table == old(table)[tp := Offsets.Flush(Get(old(table), tp)).0]
      ensures requests == old(requests) + Handed(tp, Offsets.Flush(Get(old(table), tp)).1)
    {
      var commit := AdvancePartition(tp);
      if commit.Some? {
        requests := requests + [(tp, commit.value)];
      }
    }

    method AdvancePartition(tp: TopicPartition) returns (commit: Option<Offsets.Commit>)
      requires Valid()
      modifies this`partitions, this`table, this`states, states
      ensures Valid() && fresh(states - old(states))
      ensures table == old(table)[tp := Offsets.Flush(Get(old(table), tp)).0]
      ensures commit == Offsets.Flush(Get(old(table), tp)).1
    {
      var st := State(tp);
      commit := st.CommittableOffset();
      Record(tp);
    }

    /** The cursor of a known partition moves. */
    method Advance(tp: TopicPartition) returns (commit: Option<Offsets.Commit>)
      requires Valid() && tp in partitions
      modifies this`table, states
      ensures Valid() && table == old(table)[tp := Offsets.Flush(old(table)[tp]).0]
      ensures commit == Offsets.Flush(old(table)[tp]).1
    {
      commit := partitions[tp].CommittableOffset();
      Record(tp);
    }

    method Forget(tp: TopicPartition)
      requires Valid()
      modifies this`partitions, this`table
      ensures Valid() && partitions == old(partitions) - {tp} && table == old(table) - {tp}
    {
      partitions, table := partitions - {tp}, table - {tp};
    }

    /** A call that any goroutine may make. */
    method Perform(call: Call)
      requires Valid() && IsCall(call)
      modifies this, states
      ensures Valid() && fresh(states - old(states))
      ensures table == Called(old(table), call).0
      ensures requests == old(requests) + Called(old(table), call).1
    {
      match call.op
      case OpTrack(offset, epoch) => Track(call.tp, offset, epoch);
      case OpComplete(offset) => Complete(call.tp, offset);
      case OpFlush => FlushPartition(call.tp);
    }

    /** Every partition is flushed once, and each that moved contributes exactly one record to the request. */
    method FlushAll()
      requires Valid()
      modifies this`requests, this`table, states
      ensures Valid() && table == FlushedBut(old(table), {})
      ensures old(requests) <= requests
      ensures Collected(requests[|old(requests)|..], old(table), {})
    {
      var records := CollectRecords();
      requests := requests + records;
      assert requests[|old(requests)|..] == records;
    }

    method CollectRecords() returns (records: seq<(TopicPartition, Offsets.Commit)>)
      requires Valid()
      modifies this`table, states
      ensures Valid() && table == FlushedBut(old(table), {}) && Collected(records, old(table), {})
    {
      var todo := partitions.Keys;
      records := [];
      ghost var was := table;
      while todo != {}
        invariant Valid() && todo <= partitions.Keys
        invariant table == FlushedBut(was, todo)
        invariant Collected(records, was, todo)
        decreases todo
      {
        var tp :| tp in todo;
        CollectOne(records, was, todo, tp);
        var commit := Advance(tp);
        records := records + Handed(tp, commit);
        todo := todo - {tp};
      }
    }
  }

  /** The table once every partition outside `todo` has been flushed. */
  function FlushedBut(m: Table, todo: set<TopicPartition>): Table {
    map tp | tp in m :: if tp in todo then m[tp] else Offsets.Flush(m[tp]).0
  }

  /** The records gathered once every partition outside `todo` has been flushed: one per partition that moved. */
  ghost predicate Collected(records: seq<(TopicPartition, Offsets.Commit)>, m: Table, todo: set<TopicPartition>) {
    && (forall tp, c :: (tp, c) in records <==> tp in m && tp !in todo && Offsets.Flush(m[tp]).1 == Some(c))
    && (forall i, j :: 0 <= i < j < |records| ==> records[i].0 != records[j].0)
  }

  lemma CollectOne(records: seq<(TopicPartition, Offsets.Commit)>, m: Table, todo: set<TopicPartition>, tp: TopicPartition)
    requires Collected(records, m, todo) && tp in todo && tp in m
    ensures Collected(records + Handed(tp, Offsets.Flush(m[tp]).1), m, todo - {tp})
    ensures FlushedBut(m, todo)[tp := Offsets.Flush(m[tp]).0] == FlushedBut(m, todo - {tp})
    ensures Get(FlushedBut(m, todo), tp) == m[tp]
  {
    assert forall i :: 0 <= i < |records| ==> (records[i].0, records[i].1) in records;
  }

  function Handed(tp: TopicPartition, commit: Option<Offsets.Commit>): seq<(TopicPartition, Offsets.Commit)> {
    if commit.Some? then [(tp, commit.value)] else []
  }

  // ----- Calls -----

  /** A critical section of the manager about one partition, as some goroutine calls it. */
  datatype Call = Call(tp: TopicPartition, op: Offsets.Op)

  predicate IsCall(call: Call) {
    call.op.OpTrack? || call.op.OpComplete? || call.op.OpFlush?
  }

  /** The table after a call, and what it hands to CommitRecords. */
  function Called(m: Table, call: Call): (Table, seq<(TopicPartition, Offsets.Commit)>) {
    var p := Get(m, call.tp);
    (m[call.tp := Offsets.Apply(p, call.op)], if call.op.OpFlush? then Handed(call.tp, Offsets.Flush(p).1) else [])
  }

  function Calls(m: Table, calls: seq<Call>): (Table, seq<(TopicPartition, Offsets.Commit)>) {
    if calls == [] then (m, [])
    else
      var (n, asked) := Calls(m, DropLast(calls));
      var (k, more) := Called(n, Last(calls));
      (k, asked + more)
  }

  predicate AreCalls(calls: seq<Call>) {
    forall i :: 0 <= i < |calls| ==> IsCall(calls[i])
  }

  predicate AllCalls(calls: seq<seq<Call>>) {
    forall i :: 0 <= i < |calls| ==> AreCalls(calls[i])
  }

  // ----- Rebalance -----

  /** The table and the requests when the wait for a drain is over, with the calls of other goroutines meanwhile. */
  function Awaited(m: Table, tp: TopicPartition, calls: seq<Call>): (Table, seq<(TopicPartition, Offsets.Commit)>) {
    Calls(m[tp := Offsets.Drain(Get(m, tp)).0], calls)
  }

  /** One partition drained, flushed and forgotten. */
  function Released(m: Table, tp: TopicPartition, calls: seq<Call>): (Table, seq<(TopicPartition, Offsets.Commit)>) {
    var (n, asked) := Awaited(m, tp, calls);
    var (k, last) := Called(n, Call(tp, Offsets.OpFlush));
    (k - {tp}, asked + last)
  }

  /** The first n revoked partitions in turn. */
  function Revoked(m: Table, revoked: seq<TopicPartition>, calls: seq<seq<Call>>, n: nat)
    : (Table, seq<(TopicPartition, Offsets.Commit)>)
    requires |calls| == |revoked| && n <= |revoked|
  {
    if n == 0 then (m, [])
    else
      var (left, asked) := Revoked(m, revoked, calls, n - 1);
      var (k, more) := Released(left, revoked[n - 1], calls[n - 1]);
      (k, asked + more)
  }

  lemma ForgottenNext(m: Table, lost: seq<TopicPartition>, i: nat)
    requires i < |lost|
    ensures m - Elements(lost[..i]) - {lost[i]} == m - Elements(lost[..i + 1])
  {
    assert lost[..i + 1] == lost[..i] + [lost[i]];
  }

  class RebalanceHandler {
    const offsets: Manager

    constructor (offsets: Manager)
      ensures this.offsets == offsets
    {
      this.offsets := offsets;
    }

    /**
     Drain, flush and forget each revoked partition in turn.  `calls[i]` are the calls of other goroutines, about any
     partition, while the i-th drain waits, whether it is woken by its token or by the timeout.
     */
    method OnPartitionsRevoked(revoked: seq<TopicPartition>, calls: seq<seq<Call>>)
      requires offsets.Valid() && |calls| == |revoked| && AllCalls(calls)
      modifies offsets, offsets.states
      ensures offsets.Valid() && HasRevoked(old(offsets.table), old(offsets.requests), revoked, calls, |revoked|)
    {
      for n := 0 to |revoked|
        invariant offsets.Valid() && fresh(offsets.states - old(offsets.states))
        invariant HasRevoked(old(offsets.table), old(offsets.requests), revoked, calls, n)
      {
        RevokeNext(revoked, calls, n, old(offsets.table), old(offsets.requests));
      }
    }

    /** The manager is as the first n revoked partitions leave it. */
    ghost predicate HasRevoked(was: Table, asked: seq<(TopicPartition, Offsets.Commit)>,
                               revoked: seq<TopicPartition>, calls: seq<seq<Call>>, n: nat)
      requires |calls| == |revoked| && n <= |revoked|
      reads offsets`table, offsets`requests
    {
      offsets.table == Revoked(was, revoked, calls, n).0 && offsets.requests == asked + Revoked(was, revoked, calls, n).1
    }

    method RevokeNext(revoked: seq<TopicPartition>, calls: seq<seq<Call>>, n: nat, ghost was: Table,
                      ghost asked: seq<(TopicPartition, Offsets.Commit)>)
      requires offsets.Valid() && n < |calls| == |revoked| && AllCalls(calls)
      requires HasRevoked(was, asked, revoked, calls, n)
      modifies offsets, offsets.states
      ensures offsets.Valid() && fresh(offsets.states - old(offsets.states))
      ensures HasRevoked(was, asked, revoked, calls, n + 1)
    {
      Revoke(revoked[n], calls[n]);
      Associative(asked, Revoked(was, revoked, calls, n).1, Released(old(offsets.table), revoked[n], calls[n]).1);
    }

    method Revoke(tp: TopicPartition, calls: seq<Call>)
      requires offsets.Valid() && AreCalls(calls)
      modifies offsets, offsets.states
      ensures offsets.Valid() && fresh(offsets.states - old(offsets.states))
      ensures offsets.table == Released(old(offsets.table), tp, calls).0
      ensures offsets.requests == old(offsets.requests) + Released(old(offsets.table), tp, calls).1
    {
      ghost var awaited := Awaited(offsets.table, tp, calls);
      AwaitDrain(tp, calls);
      FlushAndForget(tp);
      Associative(old(offsets.requests), awaited.1, Called(awaited.0, Call(tp, Offsets.OpFlush)).1);
    }

    method FlushAndForget(tp: TopicPartition)
      requires offsets.Valid()
      modifies offsets, offsets.states
      ensures offsets.Valid() && fresh(offsets.states - old(offsets.states))
      ensures var (k, last) := Called(old(offsets.table), Call(tp, Offsets.OpFlush));
              offsets.table == k - {tp} && offsets.requests == old(offsets.requests) + last
    {
      offsets.FlushPartition(tp);
      offsets.Forget(tp);
    }

    method AwaitDrain(tp: TopicPartition, calls: seq<Call>)
      requires offsets.Valid() && AreCalls(calls)
      modifies offsets, offsets.states
      ensures offsets.Valid() && fresh(offsets.states - old(offsets.states))
      ensures offsets.table == Awaited(old(offsets.table), tp, calls).0
      ensures offsets.requests == old(offsets.requests) + Awaited(old(offsets.table), tp, calls).1
    {
      var _ := offsets.DrainStart(tp);
      Others(calls);
    }

    /** Other goroutines make their calls. */
    method Others(calls: seq<Call>)
      requires offsets.Valid() && AreCalls(calls)
      modifies offsets, offsets.states
      ensures offsets.Valid() && fresh(offsets.states - old(offsets.states))
      ensures offsets.table == Calls(old(offsets.table), calls).0
      ensures offsets.requests == old(offsets.requests) + Calls(old(offsets.table), calls).1
    {
      ghost var was := offsets.table;
      for i := 0 to |calls|
        invariant offsets.Valid() && fresh(offsets.states - old(offsets.states))
        invariant offsets.table == Calls(was, calls[..i]).0
        invariant offsets.requests == old(offsets.requests) + Calls(was, calls[..i]).1
      {
        assert DropLast(calls[..i + 1]) == calls[..i];
        ghost var asked := Calls(was, calls[..i]).1;
        ghost var more := Called(Calls(was, calls[..i]).0, calls[i]).1;
        offsets.Perform(calls[i]);
        Associative(old(offsets.requests), asked, more);
      }
      assert calls[..|calls|] == calls;
    }

    /** Lost partitions are forgotten without a flush. */
    method OnPartitionsLost(lost: seq<TopicPartition>)
      requires offsets.Valid()
      modifies offsets`partitions, offsets`table
      ensures offsets.Valid() && offsets.table == old(offsets.table) - Elements(lost)
    {
      for i := 0 to |lost|
        invariant offsets.Valid()
        invariant offsets.table == old(offsets.table) - Elements(lost[..i])
      {
        offsets.Forget(lost[i]);
        ForgottenNext(old(offsets.table), lost, i);
      }
      assert lost[..|lost|] == lost;
    }
  }

  // ----- What a revocation hands over -----

  /** The calls about one partition, as steps of its session. */
  function OpsOf(calls: seq<Call>, tp: TopicPartition): seq<Offsets.Op> {
    if calls == [] then []
    else if Last(calls).tp == tp then OpsOf(DropLast(calls), tp) + [Last(calls).op]
    else OpsOf(DropLast(calls), tp)
  }

  /** Calls about other partitions leave a partition alone. */
  lemma {:induction false} CallsAreRun(m: Table, calls: seq<Call>, tp: TopicPartition)
    ensures Get(Calls(m, calls).0, tp) == Offsets.Run(Get(m, tp), OpsOf(calls, tp))
  {
    if calls != [] {
      CallsAreRun(m, DropLast(calls), tp);
      Offsets.RunSnoc(Get(m, tp), OpsOf(DropLast(calls), tp), Last(calls).op);
    }
  }

  /** What a whole revocation does to one partition: the calls about it, and its own releases. */
  function Fate(p: Offsets.Partition, revoked: seq<TopicPartition>, calls: seq<seq<Call>>, n: nat, tp: TopicPartition)
    : Offsets.Partition
    requires |calls| == |revoked| && n <= |revoked|
  {
    if n == 0 then p
    else if revoked[n - 1] == tp then Offsets.FRESH
    else Offsets.Run(Fate(p, revoked, calls, n - 1, tp), OpsOf(calls[n - 1], tp))
  }

  lemma {:induction false} ReleasedFate(m: Table, x: TopicPartition, calls: seq<Call>, tp: TopicPartition)
    ensures tp == x ==> tp !in Released(m, x, calls).0
    ensures tp != x ==> Get(Released(m, x, calls).0, tp) == Offsets.Run(Get(m, tp), OpsOf(calls, tp))
  {
    var drained := m[x := Offsets.Drain(Get(m, x)).0];
    assert tp != x ==> Get(drained, tp) == Get(m, tp);
    CallsAreRun(drained, calls, tp);
    var awaited := Calls(drained, calls).0;
    var flushed := Called(awaited, Call(x, Offsets.OpFlush)).0;
    assert tp != x ==> Get(flushed - {x}, tp) == Get(awaited, tp);
  }

  /**
   A revocation forgets each revoked partition at its turn; a call that comes later finds a fresh state, and a
   partition that is not revoked has seen the calls about it and nothing else.
   */
  lemma {:induction false} RevokedFate(m: Table, revoked: seq<TopicPartition>, calls: seq<seq<Call>>, n: nat, tp: TopicPartition)
    requires |calls| == |revoked| && n <= |revoked|
    ensures Get(Revoked(m, revoked, calls, n).0, tp) == Fate(Get(m, tp), revoked, calls, n, tp)
    ensures n > 0 && revoked[n - 1] == tp ==> tp !in Revoked(m, revoked, calls, n).0
  {
    if n > 0 {
      RevokedFate(m, revoked, calls, n - 1, tp);
      ReleasedFate(Revoked(m, revoked, calls, n - 1).0, revoked[n - 1], calls[n - 1], tp);
    }
  }

  /** The session of a partition up to the end of the wait for its drain. */
  function DrainedOps(ops: seq<Offsets.Op>, calls: seq<Call>, tp: TopicPartition): seq<Offsets.Op> {
    ops + [Offsets.OpDrain] + OpsOf(calls, tp)
  }

  lemma {:induction false} AwaitedIsRun(m: Table, tp: TopicPartition, calls: seq<Call>, ops: seq<Offsets.Op>)
    requires Get(m, tp) == Offsets.Run(Offsets.FRESH, ops)
    ensures Get(Awaited(m, tp, calls).0, tp) == Offsets.Run(Offsets.FRESH, DrainedOps(ops, calls, tp))
  {
    Offsets.RunSnoc(Offsets.FRESH, ops, Offsets.OpDrain);
    CallsAreRun(m[tp := Offsets.Drain(Get(m, tp)).0], calls, tp);
    RunConcat(Offsets.FRESH, ops + [Offsets.OpDrain], OpsOf(calls, tp));
  }

  // ----- What is requested -----

  /** The commits requested for one partition, in order. */
  function RequestsOf(requests: seq<(TopicPartition, Offsets.Commit)>, tp: TopicPartition): seq<Offsets.Commit> {
    if requests == [] then []
    else RequestsOf(DropLast(requests), tp) + if Last(requests).0 == tp then [Last(requests).1] else []
  }

  lemma {:induction false} RequestsOfConcat(a: seq<(TopicPartition, Offsets.Commit)>, b: seq<(TopicPartition, Offsets.Commit)>,
                                            tp: TopicPartition)
    ensures RequestsOf(a + b, tp) == RequestsOf(a, tp) + RequestsOf(b, tp)
  {
    if b == [] {
      assert a + b == a;
    } else {
      assert DropLast(a + b) == a + DropLast(b) && Last(a + b) == Last(b);
      RequestsOfConcat(a, DropLast(b), tp);
    }
  }

  /** A call requests what its section hands out, and for its own partition only. */
  lemma {:induction false} CalledRequests(m: Table, call: Call, tp: TopicPartition)
    ensures RequestsOf(Called(m, call).1, tp) == if call.tp == tp then Offsets.Commits(Get(m, tp), [call.op]) else []
  {
    var asked := Called(m, call).1;
    assert DropLast([call.op]) == [] && Last([call.op]) == call.op;
    if asked != [] {
      assert DropLast(asked) == [];
    }
  }

  /** Whatever is called, the requests for a partition are the commits that its own sections hand out. */
  lemma {:induction false} CallsRequest(m: Table, calls: seq<Call>, tp: TopicPartition)
    ensures RequestsOf(Calls(m, calls).1, tp) == Offsets.Commits(Get(m, tp), OpsOf(calls, tp))
  {
    if calls != [] {
      var before := Calls(m, DropLast(calls));
      CallsRequest(m, DropLast(calls), tp);
      RequestsOfConcat(before.1, Called(before.0, Last(calls)).1, tp);
      CalledRequests(before.0, Last(calls), tp);
      CallsAreRun(m, DropLast(calls), tp);
      if Last(calls).tp == tp {
        CommitsConcat(Get(m, tp), OpsOf(DropLast(calls), tp), [Last(calls).op]);
      }
    }
  }

  /** On the one that it releases: its drain, the calls meanwhile, and the flush. */
  function ReleaseOps(calls: seq<Call>, tp: TopicPartition): seq<Offsets.Op> {
    [Offsets.OpDrain] + OpsOf(calls, tp) + [Offsets.OpFlush]
  }

  /** The sections that a release of x runs on the partition. */
  function OpsAt(x: TopicPartition, calls: seq<Call>, tp: TopicPartition): seq<Offsets.Op> {
    if x == tp then ReleaseOps(calls, tp) else OpsOf(calls, tp)
  }

  /**
   Releasing a partition requests for it exactly the commits of its drain, of the calls about it meanwhile and of the
   flush that follows; and for any other partition those of the calls about that one.
   */
  lemma {:induction false} ReleasedRequests(m: Table, x: TopicPartition, calls: seq<Call>, tp: TopicPartition)
    ensures RequestsOf(Released(m, x, calls).1, tp) == Offsets.Commits(Get(m, tp), OpsAt(x, calls, tp))
  {
    var drained := m[x := Offsets.Drain(Get(m, x)).0];
    var (n, asked) := Awaited(m, x, calls);
    CallsRequest(drained, calls, tp);
    CallsAreRun(drained, calls, tp);
    CalledRequests(n, Call(x, Offsets.OpFlush), tp);
    RequestsOfConcat(asked, Called(n, Call(x, Offsets.OpFlush)).1, tp);
    if tp == x {
      DrainedCommits(Get(m, x), OpsOf(calls, x));
    } else {
      assert Get(drained, tp) == Get(m, tp);
    }
  }

  lemma {:induction false} DrainedCommits(p: Offsets.Partition, ops: seq<Offsets.Op>)
    ensures var q := Offsets.Drain(p).0;
            Offsets.Commits(p, [Offsets.OpDrain] + ops + [Offsets.OpFlush]) ==
            Offsets.Commits(q, ops) + Offsets.Commits(Offsets.Run(q, ops), [Offsets.OpFlush])
  {
    var drain := [Offsets.OpDrain];
    Offsets.RunSnoc(p, [], Offsets.OpDrain);
    assert [] + drain == drain && DropLast(drain) == [];
    CommitsConcat(p, drain, ops);
    RunConcat(p, drain, ops);
    CommitsConcat(p, drain + ops, [Offsets.OpFlush]);
  }

  /** The commits that a revocation requests for one partition, given the state it found it in. */
  function Asked(p: Offsets.Partition, revoked: seq<TopicPartition>, calls: seq<seq<Call>>, n: nat, tp: TopicPartition)
    : seq<Offsets.Commit>
    requires |calls| == |revoked| && n <= |revoked|
  {
    if n == 0 then []
    else
      Asked(p, revoked, calls, n - 1, tp) +
      Offsets.Commits(Fate(p, revoked, calls, n - 1, tp), OpsAt(revoked[n - 1], calls[n - 1], tp))
  }

  lemma {:induction false} AskedNext(p: Offsets.Partition, revoked: seq<TopicPartition>, calls: seq<seq<Call>>, n: nat,
                                     tp: TopicPartition)
    requires |calls| == |revoked| && n < |revoked|
    ensures Asked(p, revoked, calls, n + 1, tp) ==
            Asked(p, revoked, calls, n, tp) +
            Offsets.Commits(Fate(p, revoked, calls, n, tp), OpsAt(revoked[n], calls[n], tp))
  {
  }

  lemma {:induction false} RevokedNext(m: Table, revoked: seq<TopicPartition>, calls: seq<seq<Call>>, n: nat, tp: TopicPartition)
    requires |calls| == |revoked| && n < |revoked|
    ensures RequestsOf(Revoked(m, revoked, calls, n + 1).1, tp) ==
            RequestsOf(Revoked(m, revoked, calls, n).1, tp) +
            Offsets.Commits(Fate(Get(m, tp), revoked, calls, n, tp), OpsAt(revoked[n], calls[n], tp))
  {
    var left, asked := Revoked(m, revoked, calls, n).0, Revoked(m, revoked, calls, n).1;
    RevokedFate(m, revoked, calls, n, tp);
    ReleasedRequests(left, revoked[n], calls[n], tp);
    RequestsOfConcat(asked, Released(left, revoked[n], calls[n]).1, tp);
  }

  /** A whole revocation requests, for each partition, what the sections it goes through hand out, and nothing else. */
  lemma {:induction false} RevokedRequests(m: Table, revoked: seq<TopicPartition>, calls: seq<seq<Call>>, n: nat, tp: TopicPartition)
    requires |calls| == |revoked| && n <= |revoked|
    ensures RequestsOf(Revoked(m, revoked, calls, n).1, tp) == Asked(Get(m, tp), revoked, calls, n, tp)
  {
    if n > 0 {
      var k: nat := n - 1;
      RevokedRequests(m, revoked, calls, k, tp);
      RevokedNext(m, revoked, calls, k, tp);
      AskedNext(Get(m, tp), revoked, calls, k, tp);
    }
  }

  /** All the commits of a session up to the end of its release: those before it, and those the release requests. */
  lemma {:induction false} ReleasedSession(m: Table, tp: TopicPartition, calls: seq<Call>, ops: seq<Offsets.Op>)
    requires Get(m, tp) == Offsets.Run(Offsets.FRESH, ops)
    ensures var flushed := DrainedOps(ops, calls, tp) + [Offsets.OpFlush];
            Offsets.Commits(Offsets.FRESH, flushed) ==
            Offsets.Commits(Offsets.FRESH, ops) + RequestsOf(Released(m, tp, calls).1, tp)
  {
    ReleasedRequests(m, tp, calls, tp);
    CommitsConcat(Offsets.FRESH, ops, ReleaseOps(calls, tp));
    Associative(ops, [Offsets.OpDrain], OpsOf(calls, tp));
    Associative(ops, [Offsets.OpDrain] + OpsOf(calls, tp), [Offsets.OpFlush]);
  }

  /**
   Revoking a partition commits only what is done: every commit that it requests for it lies below an unbroken run of
   completed offsets, even when the drain timed out, and whatever was called meanwhile.
   */
  lemma {:induction false} RevokeCommitsOnlyDone(m: Table, tp: TopicPartition, calls: seq<Call>, ops: seq<Offsets.Op>)
    requires Get(m, tp) == Offsets.Run(Offsets.FRESH, ops) && Offsets.IsSession(ops)
    ensures forall commit, o :: commit in RequestsOf(Released(m, tp, calls).1, tp) && ops[0].offset <= o <= commit.offset ==>
              o in Offsets.Done(DrainedOps(ops, calls, tp))
  {
    var flushed := DrainedOps(ops, calls, tp) + [Offsets.OpFlush];
    assert flushed[0] == ops[0];
    CommitsAreSafe(flushed);
    Offsets.RunSnoc(Offsets.FRESH, DrainedOps(ops, calls, tp), Offsets.OpFlush);
    ReleasedSession(m, tp, calls, ops);
  }

  /**
   Revoking a partition requests, as its last commit, what is owed at the end of the wait: the offset below the least
   one that never completed, with the last leader epoch, unless it was handed out before.
   */
  lemma {:induction false} RevokeCommitsOwed(m: Table, tp: TopicPartition, calls: seq<Call>, ops: seq<Offsets.Op>)
    requires Get(m, tp) == Offsets.Run(Offsets.FRESH, ops) && Offsets.IsSession(ops)
    ensures var all, asked := DrainedOps(ops, calls, tp), RequestsOf(Released(m, tp, calls).1, tp);
            all[0] == ops[0] && (Owed(all).Some? ==> asked != [] && Last(asked) == Owed(all).value)
  {
    var all := DrainedOps(ops, calls, tp);
    assert all[0] == ops[0];
    AwaitedIsRun(m, tp, calls, ops);
    FlushHandsOutOwed(all);
    var (n, asked) := Awaited(m, tp, calls);
    var last := Called(n, Call(tp, Offsets.OpFlush)).1;
    RequestsOfConcat(asked, last, tp);
    if last != [] {
      assert DropLast(last) == [];
    }
  }

  /**
   Revoking a partition with nothing in flight after the wait hands over all of it: the last offset tracked was
   committed before, or is the last commit requested, with the last leader epoch.
   */
  lemma {:induction false} RevokeHandsOverAll(m: Table, tp: TopicPartition, calls: seq<Call>, ops: seq<Offsets.Op>)
    requires Get(m, tp) == Offsets.Run(Offsets.FRESH, ops) && Offsets.IsSession(ops)
    requires var all := DrainedOps(ops, calls, tp);
             Offsets.Consecutive(all) && Offsets.Honest(all) && Offsets.Run(Offsets.FRESH, all).inFlight <= 0
    ensures var all, asked := DrainedOps(ops, calls, tp), RequestsOf(Released(m, tp, calls).1, tp);
            || Offsets.NextToTrack(all) - 1 in Offsets.Emitted(Offsets.FRESH, all)
            || (asked != [] && Last(asked).offset == Offsets.NextToTrack(all) - 1
                && Last(asked).epoch == Offsets.LastEpoch(all, 0))
  {
    var all := DrainedOps(ops, calls, tp);
    assert all[0] == ops[0];
    CleanHandoff(all);
    AllIsOwed(all);
    RevokeCommitsOwed(m, tp, calls, ops);
  }

  lemma {:induction false} AllIsOwed(all: seq<Offsets.Op>)
    requires Offsets.IsSession(all) && Offsets.Consecutive(all) && Offsets.Honest(all)
    requires Offsets.Run(Offsets.FRESH, all).inFlight <= 0
    ensures Offsets.NextToTrack(all) > 0
    ensures || Offsets.NextToTrack(all) - 1 in Offsets.Emitted(Offsets.FRESH, all)
            || Owed(all) == Some(Offsets.Commit(Offsets.NextToTrack(all) - 1, Offsets.LastEpoch(all, 0)))
  {
    CleanHandoff(all);
    FlushHandsOutOwed(all);
    Offsets.RunSnoc(Offsets.FRESH, all, Offsets.OpFlush);
  }

  /** One request for each partition that is owed a commit, told from the histories of the partitions. */
  lemma {:induction false} FlushAllRequestsOwed(records: seq<(TopicPartition, Offsets.Commit)>, m: Table,
                                                history: map<TopicPartition, seq<Offsets.Op>>)
    requires Collected(records, m, {}) && m.Keys == history.Keys
    requires forall tp :: tp in m ==> Offsets.IsSession(history[tp]) && m[tp] == Offsets.Run(Offsets.FRESH, history[tp])
    ensures forall tp, c :: (tp, c) in records <==> tp in history && Owed(history[tp]) == Some(c)
    ensures forall i, j :: 0 <= i < j < |records| ==> records[i].0 != records[j].0
  {
    forall tp | tp in m ensures Offsets.Flush(m[tp]).1 == Owed(history[tp]) {
      FlushHandsOutOwed(history[tp]);
    }
  }
}
