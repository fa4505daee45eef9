/**
 The bookkeeping of one partition (internal/offsetmanager/manager.go) as values: each function below
 is one critical section under the partition's mutex.

 Go channels of capacity one are numbered; `tokens` holds the numbers of the channels whose slot is
 occupied.  `channels` counts the channels made so far.
 */
module Offsets {
  import opened Collections

  datatype Partition = Partition(
    epoch: int,
    initialized: bool,
    nextCommit: nat,
    completed: set<nat>,
    inFlight: int,
    draining: bool,
    drainCh: Option<nat>,
    lastCommitted: int,
    channels: nat,
    tokens: set<nat>)

  /** An offset and leader epoch handed to CommitRecords; the broker stores offset + 1. */
  datatype Commit = Commit(offset: nat, epoch: int)

  const FRESH := Partition(0, false, 0, {}, 0, false, None, -1, 0, {})

  function Track(p: Partition, offset: nat, epoch: int): Partition {
    var q := p.(epoch := epoch, inFlight := p.inFlight + 1);
    if p.initialized then q else q.(nextCommit := offset, initialized := true)
  }

  function Complete(p: Partition, offset: nat): Partition {
    var q := p.(completed := p.completed + {offset}, inFlight := p.inFlight - 1);
    if q.draining && q.inFlight <= 0 && q.drainCh.Some?
    then q.(tokens := q.tokens + {q.drainCh.value})
    else q
  }

  /** The specification of the cursor: the least number from `from` on that is not in `done`. */
  function LeastMissing(done: set<nat>, from: nat): (n: nat)
    ensures from <= n && n !in done
    ensures forall x :: from <= x < n ==> x in done
    decreases done
  {
    if from in done then LeastMissing(done - {from}, from + 1) else from
  }

  lemma {:induction false} LeastMissingUnique(done: set<nat>, from: nat, n: nat)
    requires from <= n && n !in done
    requires forall x :: from <= x < n ==> x in done
    ensures n == LeastMissing(done, from)
  {
    var m := LeastMissing(done, from);
    assert !(m < n) && !(n < m);
  }

  /** The cursor after the loop of committableOffset, with the offsets it passed deleted. */
  function Advance(p: Partition): Partition {
    var n := LeastMissing(p.completed, p.nextCommit);
    p.(nextCommit := n, completed := set o | o in p.completed && !(p.nextCommit <= o < n))
  }

  /** committableOffset: advance, and report the offset below the cursor when it is news. */
  function Flush(p: Partition): (Partition, Option<Commit>) {
    var q := Advance(p);
    if q.nextCommit == p.nextCommit || q.nextCommit - 1 <= p.lastCommitted then
      (q, None)
    else
      (q.(lastCommitted := q.nextCommit - 1), Some(Commit(q.nextCommit - 1, p.epoch)))
  }

  /** The locked part of Drain: None when it returns nil at once, else the channel it waits on. */
  function Drain(p: Partition): (Partition, Option<nat>) {
    if p.inFlight <= 0 then (p, None)
    else
      (p.(draining := true, drainCh := Some(p.channels), channels := p.channels + 1),
       Some(p.channels))
  }

  /** A receive on channel ch, which goes ahead only when its slot is occupied. */
  function Receive(p: Partition, ch: nat): Partition {
    p.(tokens := p.tokens - {ch})
  }

  // ----- Sessions: any sequence of critical sections applied to a fresh partition state -----

  datatype Op =
    | OpTrack(offset: nat, epoch: int)
    | OpComplete(offset: nat)
    | OpFlush
    | OpDrain
    | OpReceive(ch: nat)

  function Apply(p: Partition, op: Op): Partition {
    match op
    case OpTrack(o, e) => Track(p, o, e)
    case OpComplete(o) => Complete(p, o)
    case OpFlush => Flush(p).0
    case OpDrain => Drain(p).0
    case OpReceive(ch) => Receive(p, ch)
  }

  function Run(p: Partition, ops: seq<Op>): Partition {
    if ops == [] then p else Apply(Run(p, DropLast(ops)), Last(ops))
  }

  /** The offsets handed to CommitRecords along a run, in order. */
  function Emitted(p: Partition, ops: seq<Op>): seq<nat> {
    if ops == [] then []
    else
      Emitted(p, DropLast(ops)) +
      if Last(ops).OpFlush? && Flush(Run(p, DropLast(ops))).1.Some?
      then [Flush(Run(p, DropLast(ops))).1.value.offset]
      else []
  }

  /** The commits handed to CommitRecords along a run, in order. */
  function Commits(p: Partition, ops: seq<Op>): seq<Commit> {
    if ops == [] then []
    else
      var commit := Flush(Run(p, DropLast(ops))).1;
      Commits(p, DropLast(ops)) + if Last(ops).OpFlush? && commit.Some? then [commit.value] else []
  }

  /** The leader epoch that the last Track brought, or `before` without one. */
  function LastEpoch(ops: seq<Op>, before: int): int {
    if ops == [] then before
    else if Last(ops).OpTrack? then Last(ops).epoch
    else LastEpoch(DropLast(ops), before)
  }

  /** The offsets completed so far. */
  function Done(ops: seq<Op>): set<nat> {
    if ops == [] then {}
    else Done(DropLast(ops)) + if Last(ops).OpComplete? then {Last(ops).offset} else {}
  }

  /** The offsets tracked and not completed yet. */
  function Outstanding(ops: seq<Op>): multiset<nat> {
    if ops == [] then multiset{}
    else
      var before := Outstanding(DropLast(ops));
      match Last(ops)
      case OpTrack(o, _) => before + multiset{o}
      case OpComplete(o) => before - multiset{o}
      case _ => before
  }

  /** One past the offset tracked last. */
  function NextToTrack(ops: seq<Op>): nat {
    if ops == [] then 0
    else if Last(ops).OpTrack? then Last(ops).offset + 1
    else NextToTrack(DropLast(ops))
  }

  /** A session opens with a Track; anything may follow, in any order. */
  predicate IsSession(ops: seq<Op>) {
    ops != [] && ops[0].OpTrack?
  }

  /** Only outstanding offsets complete: one Complete for one Track. */
  predicate Honest(ops: seq<Op>) {
    ops == [] ||
    (Honest(DropLast(ops)) &&
     (Last(ops).OpComplete? ==> Last(ops).offset in Outstanding(DropLast(ops))))
  }

  /** The offsets tracked are first, first + 1, first + 2, ... */
  predicate Consecutive(ops: seq<Op>) {
    |ops| <= 1 ||
    (Consecutive(DropLast(ops)) && (Last(ops).OpTrack? ==> Last(ops).offset == NextToTrack(DropLast(ops))))
  }

  lemma {:induction false} RunSnoc(p: Partition, ops: seq<Op>, op: Op)
    ensures Run(p, ops + [op]) == Apply(Run(p, ops), op)
    ensures Done(ops + [op]) == Done(ops) + if op.OpComplete? then {op.offset} else {}
    ensures Emitted(p, ops + [op]) == Emitted(p, ops) +
              if op.OpFlush? && Flush(Run(p, ops)).1.Some? then [Flush(Run(p, ops)).1.value.offset] else []
  {
    assert DropLast(ops + [op]) == ops && Last(ops + [op]) == op;
  }
}
