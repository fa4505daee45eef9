/**
 What a partition's bookkeeping guarantees over whole sessions: any sequence of Track, Complete, flush
 and drain sections that opens with a Track on a fresh state.
 */
module Sessions {
  import opened Collections
  import opened Offsets

  // ----- The cursor -----

  /** What ties the partition state to the history of the session, at every moment. */
  ghost predicate CursorInv(p: Partition, first: nat, done: set<nat>, emitted: seq<nat>) {
    && p.initialized
    && first <= p.nextCommit
    && p.completed <= done
    && (forall o :: first <= o < p.nextCommit ==> o in done)
    && (forall o :: o in done && o >= p.nextCommit ==> o in p.completed)
    && (if p.nextCommit == first then p.lastCommitted == -1 && emitted == []
        else p.lastCommitted == p.nextCommit - 1 && emitted != [] && Last(emitted) == p.nextCommit - 1)
    && (forall i, j :: 0 <= i < j < |emitted| ==> emitted[i] < emitted[j])
  }

  lemma {:induction false} CursorHolds(ops: seq<Op>)
    requires IsSession(ops)
    ensures CursorInv(Run(FRESH, ops), ops[0].offset, Done(ops), Emitted(FRESH, ops))
  {
    var before, op := DropLast(ops), Last(ops);
    assert ops == before + [op];
    RunSnoc(FRESH, before, op);
    if |ops| == 1 {
      assert before == [];
    } else {
      CursorHolds(before);
      CursorStep(Run(FRESH, before), op, ops[0].offset, Done(before), Emitted(FRESH, before));
    }
  }

  lemma CursorStep(p: Partition, op: Op, first: nat, done: set<nat>, emitted: seq<nat>)
    requires CursorInv(p, first, done, emitted)
    ensures CursorInv(Apply(p, op), first,
                      done + if op.OpComplete? then {op.offset} else {},
                      emitted + if op.OpFlush? && Flush(p).1.Some? then [Flush(p).1.value.offset] else [])
  {
  }

  /**
   Whatever the order of completions and wherever flushes fell, a flush leaves the cursor at the least
   offset, from the first one tracked on, that has never completed.
   */
  lemma {:induction false} CursorRefinement(ops: seq<Op>)
    requires IsSession(ops)
    ensures Run(FRESH, ops + [OpFlush]).nextCommit == LeastMissing(Done(ops), ops[0].offset)
  {
    CursorHolds(ops);
    RunSnoc(FRESH, ops, OpFlush);
    var p, q := Run(FRESH, ops), Run(FRESH, ops + [OpFlush]);
    assert q.nextCommit == LeastMissing(p.completed, p.nextCommit);
    LeastMissingUnique(Done(ops), ops[0].offset, q.nextCommit);
  }

  /** Two sessions that completed the same offsets agree after a flush, and on what they last committed. */
  lemma {:induction false} Confluence(a: seq<Op>, b: seq<Op>)
    requires IsSession(a) && IsSession(b)
    requires a[0].offset == b[0].offset && Done(a) == Done(b)
    ensures var p, q := Run(FRESH, a + [OpFlush]), Run(FRESH, b + [OpFlush]);
            p.nextCommit == q.nextCommit && p.lastCommitted == q.lastCommitted
    ensures var m, n := Emitted(FRESH, a + [OpFlush]), Emitted(FRESH, b + [OpFlush]);
            (m == [] <==> n == []) && (m != [] ==> Last(m) == Last(n))
  {
    CursorRefinement(a);
    CursorRefinement(b);
    CursorHolds(a + [OpFlush]);
    CursorHolds(b + [OpFlush]);
    RunSnoc(FRESH, a, OpFlush);
    RunSnoc(FRESH, b, OpFlush);
  }

  /** The offsets handed to CommitRecords strictly increase, and each lies below an unbroken run of completions. */
  lemma {:induction false} CommitsIncreaseAndAreSafe(ops: seq<Op>)
    requires IsSession(ops)
    ensures forall i, j :: 0 <= i < j < |Emitted(FRESH, ops)| ==> Emitted(FRESH, ops)[i] < Emitted(FRESH, ops)[j]
    ensures forall c, o :: c in Emitted(FRESH, ops) && ops[0].offset <= o <= c ==> o in Done(ops)
  {
    CursorHolds(ops);
    if Emitted(FRESH, ops) != [] {
      LastIsGreatest(Emitted(FRESH, ops));
    }
  }

  /** A flush at which the cursor can move but nothing is handed to the broker. */
  predicate Suppressed(p: Partition) {
    p.nextCommit in p.completed && Flush(p).1.None?
  }

  /** Within a session the `committable <= lastCommitted` guard never holds a commit back. */
  lemma {:induction false} GuardNeverSuppresses(ops: seq<Op>)
    requires IsSession(ops)
    ensures !Suppressed(Run(FRESH, ops))
  {
    CursorHolds(ops);
  }

  // ----- The commits of a session -----

  /** At every moment the state holds the leader epoch of the record tracked last. */
  lemma {:induction false} EpochIsLast(p: Partition, ops: seq<Op>)
    ensures Run(p, ops).epoch == LastEpoch(ops, p.epoch)
  {
    if ops != [] {
      EpochIsLast(p, DropLast(ops));
    }
  }

  /** What a flush owes to CommitRecords, told from the history of the session alone. */
  function Owed(ops: seq<Op>): Option<Commit>
    requires IsSession(ops)
  {
    var end := LeastMissing(Done(ops), ops[0].offset);
    if end == ops[0].offset || end - 1 in Emitted(FRESH, ops) then None else Some(Commit(end - 1, LastEpoch(ops, 0)))
  }

  /**
   A flush hands out the offset below the least one that never completed, with the leader epoch of the record tracked
   last, unless nothing has completed from the first offset on or that offset was handed out before.
   */
  lemma {:induction false} FlushHandsOutOwed(ops: seq<Op>)
    requires IsSession(ops)
    ensures Flush(Run(FRESH, ops)).1 == Owed(ops)
  {
    CursorHolds(ops);
    CursorRefinement(ops);
    RunSnoc(FRESH, ops, OpFlush);
    EpochIsLast(FRESH, ops);
    if Emitted(FRESH, ops) != [] {
      LastIsGreatest(Emitted(FRESH, ops));
    }
  }

  /** The offsets of the commits are the offsets emitted. */
  lemma {:induction false} CommitsAreEmitted(p: Partition, ops: seq<Op>)
    ensures |Commits(p, ops)| == |Emitted(p, ops)|
    ensures forall i :: 0 <= i < |Commits(p, ops)| ==> Commits(p, ops)[i].offset == Emitted(p, ops)[i]
  {
    if ops != [] {
      CommitsAreEmitted(p, DropLast(ops));
    }
  }

  lemma {:induction false} CommitsConcat(p: Partition, a: seq<Op>, b: seq<Op>)
    ensures Commits(p, a + b) == Commits(p, a) + Commits(Run(p, a), b)
    ensures Emitted(p, a + b) == Emitted(p, a) + Emitted(Run(p, a), b)
  {
    if b == [] {
      assert a + b == a;
    } else {
      assert DropLast(a + b) == a + DropLast(b) && Last(a + b) == Last(b);
      CommitsConcat(p, a, DropLast(b));
      RunConcat(p, a, DropLast(b));
    }
  }

  /** Each commit lies below an unbroken run of completed offsets. */
  lemma {:induction false} CommitsAreSafe(ops: seq<Op>)
    requires IsSession(ops)
    ensures forall commit, o :: commit in Commits(FRESH, ops) && ops[0].offset <= o <= commit.offset ==> o in Done(ops)
  {
    CommitsIncreaseAndAreSafe(ops);
    CommitsAreEmitted(FRESH, ops);
    forall commit | commit in Commits(FRESH, ops) ensures commit.offset in Emitted(FRESH, ops) {
      var i :| 0 <= i < |Commits(FRESH, ops)| && Commits(FRESH, ops)[i] == commit;
      assert Emitted(FRESH, ops)[i] == commit.offset;
    }
  }

  // ----- Leftovers of an earlier session -----

  /** The partition state before its first Track may already have seen late completions and flushes. */
  lemma {:induction false} LeftoverHolds(left: Partition, first: nat, epoch: int, ops: seq<Op>)
    requires !left.initialized
    ensures LeftoverInv(left, first, Run(Track(left, first, epoch), ops))
  {
    if ops != [] {
      LeftoverHolds(left, first, epoch, DropLast(ops));
    }
  }

  ghost predicate LeftoverInv(left: Partition, first: nat, p: Partition) {
    && p.initialized
    && first <= p.nextCommit
    && (forall o :: o in left.completed && o >= p.nextCommit ==> o in p.completed)
    && (if p.nextCommit == first then p.lastCommitted == left.lastCommitted
        else p.lastCommitted == if p.nextCommit - 1 <= left.lastCommitted then left.lastCommitted else p.nextCommit - 1)
  }

  /**
   A Complete that arrives after Forget leaves a half-made state behind.  When the partition comes back,
   the guard can never hold a commit back if, and only if, what the leftover state last committed lies
   below the end of the run that the first tracked offset would close.
   */
  lemma {:induction false} LateCompletionsSuppressIff(left: Partition, first: nat, epoch: int)
    requires !left.initialized
    ensures (forall ops: seq<Op> :: !Suppressed(Run(Track(left, first, epoch), ops)))
            <==> left.lastCommitted < LeastMissing(left.completed + {first}, first) - 1
  {
    var p := Track(left, first, epoch);
    var bound := LeastMissing(left.completed + {first}, first);
    if left.lastCommitted < bound - 1 {
      forall ops: seq<Op> ensures !Suppressed(Run(p, ops)) {
        LeftoverHolds(left, first, epoch, ops);
        SuppressionNeedsStaleCommit(left, first, Run(p, ops));
      }
    } else {
      RunSnoc(p, [], OpComplete(first));
      var q := Run(p, [] + [OpComplete(first)]);
      assert q.completed == left.completed + {first};
      assert Suppressed(q);
      assert [] + [OpComplete(first)] == [OpComplete(first)];
      assert Suppressed(Run(p, [OpComplete(first)]));
    }
  }

  lemma {:induction false} SuppressionNeedsStaleCommit(left: Partition, first: nat, p: Partition)
    requires LeftoverInv(left, first, p)
    requires left.lastCommitted < LeastMissing(left.completed + {first}, first) - 1
    ensures !Suppressed(p)
  {
    var bound := LeastMissing(left.completed + {first}, first);
    if p.nextCommit in p.completed {
      forall x | p.nextCommit <= x < bound ensures x in p.completed {
        assert x in left.completed + {first};
      }
    }
  }

  /** The shortest such run: offset 0 completes late, is flushed, and is then delivered and completed again. */
  lemma LateCompletionExample()
    ensures var late := Run(FRESH, [OpComplete(0), OpFlush]);
            !late.initialized && late.lastCommitted == 0 && late.inFlight == -1
            && Suppressed(Run(Track(late, 0, 1), [OpComplete(0)]))
  {
    RunSnoc(FRESH, [OpComplete(0)], OpFlush);
    assert [OpComplete(0)] + [OpFlush] == [OpComplete(0), OpFlush];
    var late := Flush(Complete(FRESH, 0)).0;
    assert Run(FRESH, [OpComplete(0)]) == Complete(FRESH, 0);
    LeastMissingUnique({0}, 0, 1);
    assert late.completed == {};
  }

  // ----- Counting -----

  /** With one Complete for each Track, inFlight counts exactly the outstanding offsets. */
  lemma {:induction false} InFlightCountsOutstanding(ops: seq<Op>)
    requires Honest(ops)
    ensures Run(FRESH, ops).inFlight == |Outstanding(ops)|
  {
    if ops != [] {
      InFlightCountsOutstanding(DropLast(ops));
      var before := Outstanding(DropLast(ops));
      if Last(ops).OpComplete? {
        RemoveOne(before, Last(ops).offset);
      }
    }
  }

  lemma RemoveOne(m: multiset<nat>, x: nat)
    requires x in m
    ensures |m - multiset{x}| == |m| - 1
  {
    assert m == (m - multiset{x}) + multiset{x};
  }

  /** With consecutive offsets, every offset from the first to the last tracked is done or outstanding. */
  ghost predicate WindowInv(p: Partition, first: nat, next: nat, done: set<nat>, outstanding: multiset<nat>) {
    && p.initialized
    && first <= p.nextCommit <= next
    && first < next
    && (forall o :: first <= o < p.nextCommit ==> o in done)
    && (forall o :: o in done ==> first <= o < next)
    && (forall o :: o in p.completed <==> o in done && p.nextCommit <= o)
    && (forall o :: o in outstanding <==> first <= o < next && o !in done)
    && (forall o :: outstanding[o] <= 1)
    && |outstanding| == next - first - |done|
  }

  lemma {:induction false} WindowHolds(ops: seq<Op>)
    requires IsSession(ops) && Consecutive(ops) && Honest(ops)
    ensures WindowInv(Run(FRESH, ops), ops[0].offset, NextToTrack(ops), Done(ops), Outstanding(ops))
  {
    var before, op, first := DropLast(ops), Last(ops), ops[0].offset;
    if |ops| == 1 {
      assert before == [];
    } else {
      WindowHolds(before);
      WindowStep(Run(FRESH, before), op, first, NextToTrack(before), Done(before), Outstanding(before));
    }
  }

  lemma WindowTrack(p: Partition, epoch: int, first: nat, next: nat, done: set<nat>, outstanding: multiset<nat>)
    requires WindowInv(p, first, next, done, outstanding)
    ensures WindowInv(Track(p, next, epoch), first, next + 1, done, outstanding + multiset{next})
  {
  }

  lemma WindowComplete(p: Partition, o: nat, first: nat, next: nat, done: set<nat>, outstanding: multiset<nat>)
    requires WindowInv(p, first, next, done, outstanding) && o in outstanding
    ensures WindowInv(Complete(p, o), first, next, done + {o}, outstanding - multiset{o})
  {
    RemoveOne(outstanding, o);
  }

  lemma WindowFlush(p: Partition, first: nat, next: nat, done: set<nat>, outstanding: multiset<nat>)
    requires WindowInv(p, first, next, done, outstanding)
    ensures WindowInv(Flush(p).0, first, next, done, outstanding)
  {
    assert next !in p.completed;
  }

  lemma WindowStep(p: Partition, op: Op, first: nat, next: nat, done: set<nat>, outstanding: multiset<nat>)
    requires WindowInv(p, first, next, done, outstanding)
    requires op.OpComplete? ==> op.offset in outstanding
    requires op.OpTrack? ==> op.offset == next
    ensures WindowInv(Apply(p, op), first, if op.OpTrack? then next + 1 else next,
                      done + if op.OpComplete? then {op.offset} else {},
                      match op
                      case OpTrack(o, _) => outstanding + multiset{o}
                      case OpComplete(o) => outstanding - multiset{o}
                      case _ => outstanding)
  {
    match op
    case OpTrack(o, e) => WindowTrack(p, e, first, next, done, outstanding);
    case OpComplete(o) => WindowComplete(p, o, first, next, done, outstanding);
    case OpFlush => WindowFlush(p, first, next, done, outstanding);
    case _ =>
  }

  /** What waits in `completed` plus what is in flight spans the window from the cursor to `end`. */
  ghost predicate Conserved(p: Partition, end: nat) {
    && |p.completed| + p.inFlight == end - p.nextCommit
    && 0 <= p.inFlight
    && p.completed <= Interval(p.nextCommit, end)
  }

  /**
   Conservation: with consecutive offsets, what waits in `completed` plus what is in flight is exactly
   the distance from the cursor to the next offset to track, and `completed` lies in that window.
   */
  lemma {:induction false} Conservation(ops: seq<Op>)
    requires IsSession(ops) && Consecutive(ops) && Honest(ops)
    ensures Conserved(Run(FRESH, ops), NextToTrack(ops))
  {
    WindowHolds(ops);
    InFlightCountsOutstanding(ops);
    WindowConserves(Run(FRESH, ops), ops[0].offset, NextToTrack(ops), Done(ops), Outstanding(ops));
  }

  lemma WindowConserves(p: Partition, first: nat, next: nat, done: set<nat>, outstanding: multiset<nat>)
    requires WindowInv(p, first, next, done, outstanding) && p.inFlight == |outstanding|
    ensures Conserved(p, next)
  {
    assert p.completed + Interval(first, p.nextCommit) == done;
    assert p.completed !! Interval(first, p.nextCommit);
  }

  /**
   Clean hand-off: once nothing is in flight, a flush leaves the last tracked offset as the last and highest
   offset ever handed to CommitRecords.
   */
  lemma {:induction false} CleanHandoff(ops: seq<Op>)
    requires IsSession(ops) && Consecutive(ops) && Honest(ops)
    requires Run(FRESH, ops).inFlight <= 0
    ensures Emitted(FRESH, ops + [OpFlush]) != []
    ensures Last(Emitted(FRESH, ops + [OpFlush])) == NextToTrack(ops) - 1
    ensures forall c :: c in Emitted(FRESH, ops + [OpFlush]) ==> c <= NextToTrack(ops) - 1
  {
    var first, next := ops[0].offset, NextToTrack(ops);
    WindowHolds(ops);
    InFlightCountsOutstanding(ops);
    assert Outstanding(ops) == multiset{};
    LeastMissingUnique(Done(ops), first, next);
    CursorRefinement(ops);
    RunSnoc(FRESH, ops, OpFlush);
    CursorHolds(ops + [OpFlush]);
    LastIsGreatest(Emitted(FRESH, ops + [OpFlush]));
  }

  lemma LastIsGreatest(e: seq<nat>)
    requires e != [] && forall i, j :: 0 <= i < j < |e| ==> e[i] < e[j]
    ensures forall c :: c in e ==> c <= Last(e)
  {
  }

  // ----- Gaps in the log -----

  /** Each offset tracked lies above all earlier ones: records are polled in log order, which may have gaps. */
  predicate Increasing(ops: seq<Op>) {
    |ops| <= 1 ||
    (Increasing(DropLast(ops)) && (Last(ops).OpTrack? ==> Last(ops).offset >= NextToTrack(DropLast(ops))))
  }

  function Tracked(ops: seq<Op>): set<nat> {
    if ops == [] then {}
    else Tracked(DropLast(ops)) + if Last(ops).OpTrack? then {Last(ops).offset} else {}
  }

  /** Every offset from `first` on and below `end` has been tracked. */
  predicate NoGap(ops: seq<Op>, first: nat, end: nat) {
    forall o :: first <= o < end ==> o in Tracked(ops)
  }

  lemma {:induction false} TrackedInWindow(ops: seq<Op>)
    requires IsSession(ops) && Increasing(ops)
    ensures forall o :: o in Tracked(ops) ==> ops[0].offset <= o < NextToTrack(ops)
    ensures ops[0].offset in Tracked(ops)
  {
    if |ops| == 1 {
      assert DropLast(ops) == [];
    } else {
      TrackedInWindow(DropLast(ops));
    }
  }

  lemma {:induction false} TrackedIsDoneOrOutstanding(ops: seq<Op>)
    requires Honest(ops)
    ensures forall o :: o in Tracked(ops) ==> o in Done(ops) || o in Outstanding(ops)
    ensures forall o :: o in Done(ops) || o in Outstanding(ops) ==> o in Tracked(ops)
  {
    if ops != [] {
      TrackedIsDoneOrOutstanding(DropLast(ops));
    }
  }

  lemma {:induction false} ConsecutiveIsWithoutGaps(ops: seq<Op>)
    requires IsSession(ops) && Increasing(ops)
    ensures Consecutive(ops) <==> NoGap(ops, ops[0].offset, NextToTrack(ops))
  {
    var before, next := DropLast(ops), NextToTrack(DropLast(ops));
    if |ops| == 1 {
      assert before == [];
    } else {
      ConsecutiveIsWithoutGaps(before);
      TrackedInWindow(before);
      if Last(ops).OpTrack? && Last(ops).offset > next {
        assert next !in Tracked(ops) && ops[0].offset <= next < NextToTrack(ops);
      } else if Last(ops).OpTrack? {
        assert Tracked(ops) == Tracked(before) + {next};
      } else {
        assert Tracked(ops) == Tracked(before);
      }
    }
  }

  /**
   Once nothing is in flight, a flush hands out the last offset tracked if and only if no offset between the first and
   the last one tracked was missing from the log.
   */
  lemma {:induction false} CleanHandoffIff(ops: seq<Op>)
    requires IsSession(ops) && Increasing(ops) && Honest(ops)
    requires Run(FRESH, ops).inFlight <= 0
    ensures Emitted(FRESH, ops + [OpFlush]) != []
    ensures Last(Emitted(FRESH, ops + [OpFlush])) == NextToTrack(ops) - 1 <==> Consecutive(ops)
  {
    var first, next := ops[0].offset, NextToTrack(ops);
    InFlightCountsOutstanding(ops);
    assert Outstanding(ops) == multiset{};
    TrackedIsDoneOrOutstanding(ops);
    TrackedInWindow(ops);
    ConsecutiveIsWithoutGaps(ops);
    CursorRefinement(ops);
    RunSnoc(FRESH, ops, OpFlush);
    CursorHolds(ops + [OpFlush]);
    assert first in Done(ops) && next !in Done(ops);
  }

  lemma {:induction false} CompletingKeepsOrder(ops: seq<Op>, o: nat)
    requires IsSession(ops) && Increasing(ops)
    ensures IsSession(ops + [OpComplete(o)]) && Increasing(ops + [OpComplete(o)])
    ensures Tracked(ops + [OpComplete(o)]) == Tracked(ops)
  {
    assert DropLast(ops + [OpComplete(o)]) == ops;
  }

  lemma {:induction false} CompletingLeavesFewer(ops: seq<Op>, o: nat)
    requires Honest(ops) && o in Outstanding(ops)
    ensures Honest(ops + [OpComplete(o)])
    ensures |Outstanding(ops + [OpComplete(o)])| < |Outstanding(ops)|
  {
    assert DropLast(ops + [OpComplete(o)]) == ops;
    RemoveOne(Outstanding(ops), o);
  }

  /** A way to complete all that is outstanding. */
  lemma {:induction false} CompleteAll(ops: seq<Op>) returns (more: seq<Op>)
    requires IsSession(ops) && Increasing(ops) && Honest(ops)
    ensures Increasing(ops + more) && Honest(ops + more)
    ensures Outstanding(ops + more) == multiset{} && Tracked(ops + more) == Tracked(ops)
    decreases |Outstanding(ops)|
  {
    if o :| o in Outstanding(ops) {
      CompletingKeepsOrder(ops, o);
      CompletingLeavesFewer(ops, o);
      var rest := CompleteAll(ops + [OpComplete(o)]);
      more := [OpComplete(o)] + rest;
      Associative(ops, [OpComplete(o)], rest);
    } else {
      more := [];
      assert ops + more == ops;
    }
  }

  /** After these further sections the cursor lies above g. */
  predicate Passes(ops: seq<Op>, more: seq<Op>, g: nat) {
    Increasing(ops + more) && Honest(ops + more) && Run(FRESH, ops + more).nextCommit > g
  }

  /**
   The cursor can ever pass an offset, whatever is tracked, completed and flushed later, if and only if that offset and
   all from the first one on have been tracked: the cursor moves one by one and stalls at the first gap.
   */
  lemma {:induction false} CursorPassesIff(ops: seq<Op>, g: nat)
    requires IsSession(ops) && Increasing(ops) && Honest(ops)
    requires ops[0].offset <= g < NextToTrack(ops)
    ensures (exists more :: Passes(ops, more, g)) <==> NoGap(ops, ops[0].offset, g + 1)
  {
    if NoGap(ops, ops[0].offset, g + 1) {
      var more := CompleteAll(ops);
      CompletedPasses(ops, more, g);
    } else {
      forall more | Passes(ops, more, g) ensures false {
        CursorHolds(ops + more);
        TrackedIsDoneOrOutstanding(ops + more);
        NothingBelowIsAdded(ops, more);
      }
    }
  }

  lemma {:induction false} CompletedPasses(ops: seq<Op>, more: seq<Op>, g: nat)
    requires IsSession(ops) && Increasing(ops + more) && Honest(ops + more)
    requires Outstanding(ops + more) == multiset{} && Tracked(ops + more) == Tracked(ops)
    requires NoGap(ops, ops[0].offset, g + 1)
    ensures Passes(ops, more + [OpFlush], g)
  {
    var done := ops + more;
    assert DropLast(done + [OpFlush]) == done && Last(done + [OpFlush]) == OpFlush;
    assert ops + (more + [OpFlush]) == done + [OpFlush];
    TrackedIsDoneOrOutstanding(done);
    CursorRefinement(done);
  }

  lemma {:induction false} NothingBelowIsAdded(ops: seq<Op>, more: seq<Op>)
    requires IsSession(ops) && Increasing(ops + more)
    ensures NextToTrack(ops) <= NextToTrack(ops + more)
    ensures forall o :: o in Tracked(ops + more) && o < NextToTrack(ops) ==> o in Tracked(ops)
  {
    if more == [] {
      assert ops + more == ops;
    } else {
      assert DropLast(ops + more) == ops + DropLast(more) && Last(ops + more) == Last(more);
      NothingBelowIsAdded(ops, DropLast(more));
    }
  }

  // ----- Draining -----

  /** The drainer on channel ch has received its token at some point of the run. */
  ghost predicate Woken(p: Partition, ops: seq<Op>, ch: nat) {
    ops != [] &&
    (Woken(p, DropLast(ops), ch) || (Last(ops) == OpReceive(ch) && ch in Run(p, DropLast(ops)).tokens))
  }

  predicate NoTrackOrDrain(ops: seq<Op>) {
    forall i :: 0 <= i < |ops| ==> !ops[i].OpTrack? && !ops[i].OpDrain?
  }

  /**
   No lost wakeup and no early one: while no record is tracked and no second drain starts, the drainer's
   token is in its channel or already taken exactly when nothing is in flight any more.
   */
  lemma {:induction false} NoLostWakeup(p: Partition, after: seq<Op>)
    requires p.channels !in p.tokens && p.inFlight > 0 && NoTrackOrDrain(after)
    ensures Drain(p).1 == Some(p.channels)
    ensures var q, ch := Run(Drain(p).0, after), p.channels;
            && (ch in q.tokens || Woken(Drain(p).0, after, ch) <==> q.inFlight <= 0)
            && q.draining && q.drainCh == Some(ch) && q.inFlight <= p.inFlight
  {
    if after != [] {
      NoLostWakeup(p, DropLast(after));
    }
  }

  /** How often a receive on the channel goes ahead. */
  function Wakes(p: Partition, ops: seq<Op>, ch: nat): nat {
    if ops == [] then 0
    else Wakes(p, DropLast(ops), ch) + if Last(ops) == OpReceive(ch) && ch in Run(p, DropLast(ops)).tokens then 1 else 0
  }

  function Completions(ops: seq<Op>): nat {
    if ops == [] then 0 else Completions(DropLast(ops)) + if Last(ops).OpComplete? then 1 else 0
  }

  /** A token wakes once: receives that go ahead, and a token still there, each have a Complete of their own. */
  lemma {:induction false} TokensWakeOnce(ops: seq<Op>, ch: nat)
    ensures Wakes(FRESH, ops, ch) + (if ch in Run(FRESH, ops).tokens then 1 else 0) <= Completions(ops)
  {
    if ops != [] {
      TokensWakeOnce(DropLast(ops), ch);
    }
  }

  lemma {:induction false} TokensAreOfOpenedChannels(ops: seq<Op>)
    ensures var p := Run(FRESH, ops);
            && (forall t :: t in p.tokens ==> t < p.channels)
            && (p.drainCh.Some? ==> p.drainCh.value < p.channels)
  {
    if ops != [] {
      TokensAreOfOpenedChannels(DropLast(ops));
    }
  }

  /**
   Drain returning nil, at once or after waiting, means that every tracked offset has completed;
   and as soon as they all have, the drainer can return.
   */
  lemma {:induction false} DrainReturnsExactlyWhenAllDone(before: seq<Op>, after: seq<Op>)
    requires NoTrackOrDrain(after) && Honest(before + [OpDrain] + after)
    ensures var p := Run(FRESH, before);
            var q := Run(Drain(p).0, after);
            var returned := Drain(p).1.None? || p.channels in q.tokens || Woken(Drain(p).0, after, p.channels);
            returned <==> Outstanding(before + [OpDrain] + after) == multiset{}
  {
    var p := Run(FRESH, before);
    var ops := before + [OpDrain] + after;
    RunSnoc(FRESH, before, OpDrain);
    RunConcat(FRESH, before + [OpDrain], after);
    InFlightCountsOutstanding(ops);
    TokensAreOfOpenedChannels(before);
    if p.inFlight > 0 {
      NoLostWakeup(p, after);
    } else {
      FewerInFlight(Drain(p).0, after);
    }
  }

  /** A Complete that leaves nothing in flight while a drain waits leaves its token, also below zero. */
  lemma {:induction false} CompleteSignals(ops: seq<Op>, o: nat)
    ensures var p := Run(FRESH, ops + [OpComplete(o)]);
            p.draining && p.inFlight <= 0 ==> p.drainCh.Some? && p.drainCh.value in p.tokens
  {
    RunSnoc(FRESH, ops, OpComplete(o));
    DrainHasChannel(ops);
  }

  lemma {:induction false} DrainHasChannel(ops: seq<Op>)
    ensures Run(FRESH, ops).draining ==> Run(FRESH, ops).drainCh.Some?
  {
    if ops != [] {
      DrainHasChannel(DropLast(ops));
    }
  }

  function Tracks(ops: seq<Op>): nat {
    if ops == [] then 0 else Tracks(DropLast(ops)) + if Last(ops).OpTrack? then 1 else 0
  }

  /** Also with completions that no Track of this state precedes, the counter is the difference. */
  lemma {:induction false} InFlightIsDifference(ops: seq<Op>)
    ensures Run(FRESH, ops).inFlight == Tracks(ops) - Completions(ops)
  {
    if ops != [] {
      InFlightIsDifference(DropLast(ops));
    }
  }

  /** So in any history at all, a drain can return nil if and only if there were as many completions as Tracks, or more. */
  lemma {:induction false} DrainReturnsWhenBalanced(before: seq<Op>, after: seq<Op>)
    requires NoTrackOrDrain(after)
    ensures var p := Run(FRESH, before);
            var q, all := Run(Drain(p).0, after), before + [OpDrain] + after;
            var returned := Drain(p).1.None? || p.channels in q.tokens || Woken(Drain(p).0, after, p.channels);
            returned <==> Tracks(all) <= Completions(all)
  {
    var p, all := Run(FRESH, before), before + [OpDrain] + after;
    RunSnoc(FRESH, before, OpDrain);
    RunConcat(FRESH, before + [OpDrain], after);
    InFlightIsDifference(all);
    TokensAreOfOpenedChannels(before);
    if p.inFlight > 0 {
      NoLostWakeup(p, after);
    } else {
      FewerInFlight(Drain(p).0, after);
    }
  }

  lemma {:induction false} FewerInFlight(p: Partition, ops: seq<Op>)
    requires NoTrackOrDrain(ops)
    ensures Run(p, ops).inFlight <= p.inFlight
  {
    if ops != [] {
      FewerInFlight(p, DropLast(ops));
    }
  }

  lemma {:induction false} RunConcat(p: Partition, a: seq<Op>, b: seq<Op>)
    ensures Run(p, a + b) == Run(Run(p, a), b)
  {
    if b == [] {
      assert a + b == a;
    } else {
      assert a + b == (a + DropLast(b)) + [Last(b)];
      RunConcat(p, a, DropLast(b));
      RunSnoc(p, a + DropLast(b), Last(b));
    }
  }

  // ----- A Track or a second drain while a drain waits -----

  lemma {:induction false} WokenConcat(p: Partition, a: seq<Op>, b: seq<Op>, ch: nat)
    ensures Woken(p, a + b, ch) <==> Woken(p, a, ch) || Woken(Run(p, a), b, ch)
  {
    if b == [] {
      assert a + b == a;
    } else {
      assert DropLast(a + b) == a + DropLast(b) && Last(a + b) == Last(b);
      WokenConcat(p, a, DropLast(b), ch);
      RunConcat(p, a, DropLast(b));
    }
  }

  /** A drainer whose token was sent can return whatever happens next. */
  lemma {:induction false} TokenStays(p: Partition, ops: seq<Op>, ch: nat)
    requires ch in p.tokens
    ensures ch in Run(p, ops).tokens || Woken(p, ops, ch)
  {
    if ops != [] {
      TokenStays(p, DropLast(ops), ch);
    }
  }

  /** A channel that is not the current one, and is empty. */
  predicate Superseded(p: Partition, ch: nat) {
    ch < p.channels && p.drainCh != Some(ch) && ch !in p.tokens
  }

  lemma SupersededStep(p: Partition, op: Op, ch: nat)
    requires Superseded(p, ch)
    ensures Superseded(Apply(p, op), ch)
  {
  }

  lemma {:induction false} SupersededStaysEmpty(p: Partition, ops: seq<Op>, ch: nat)
    requires Superseded(p, ch)
    ensures Superseded(Run(p, ops), ch) && !Woken(p, ops, ch)
  {
    if ops != [] {
      SupersededStaysEmpty(p, DropLast(ops), ch);
      SupersededStep(Run(p, DropLast(ops)), Last(ops), ch);
    }
  }

  /**
   When a second drain starts, the first drainer can still return, whatever happens next, if and only if nothing is
   in flight: this is the guard of Drain itself, which then leaves the channel alone.
   */
  lemma {:induction false} SecondDrainStrandsIff(before: seq<Op>, a: seq<Op>, b: seq<Op>)
    requires Run(FRESH, before).inFlight > 0 && NoTrackOrDrain(a)
    ensures var p := Run(FRESH, before);
            var d, ops := Drain(p).0, a + [OpDrain] + b;
            (p.channels in Run(d, ops).tokens || Woken(d, ops, p.channels)) <==> Run(d, a).inFlight <= 0
  {
    var p := Run(FRESH, before);
    var d, ch := Drain(p).0, p.channels;
    TokensAreOfOpenedChannels(before);
    NoLostWakeup(p, a);
    var q := Run(d, a);
    RunSnoc(d, a, OpDrain);
    RunConcat(d, a + [OpDrain], b);
    WokenConcat(d, a + [OpDrain], b, ch);
    assert DropLast(a + [OpDrain]) == a && Last(a + [OpDrain]) == OpDrain;
    if q.inFlight > 0 {
      ChannelsGrow(d, a);
      SupersededStaysEmpty(Drain(q).0, b, ch);
    } else if ch in q.tokens {
      TokenStays(q, b, ch);
    }
  }

  lemma {:induction false} ChannelsGrow(p: Partition, ops: seq<Op>)
    ensures p.channels <= Run(p, ops).channels
  {
    if ops != [] {
      ChannelsGrow(p, DropLast(ops));
    }
  }

  /** The drainer takes its token at a moment when something is in flight. */
  ghost predicate EarlyWake(p: Partition, ops: seq<Op>, ch: nat) {
    ops != [] &&
    (EarlyWake(p, DropLast(ops), ch) ||
     (Last(ops) == OpReceive(ch) && !Woken(p, DropLast(ops), ch) &&
      ch in Run(p, DropLast(ops)).tokens && Run(p, DropLast(ops)).inFlight > 0))
  }

  /** No Track falls between the moment when nothing is in flight and the drainer's return. */
  ghost predicate TracksSafe(p: Partition, ops: seq<Op>, ch: nat) {
    ops == [] ||
    (TracksSafe(p, DropLast(ops), ch) &&
     (Last(ops).OpTrack? ==> Woken(p, DropLast(ops), ch) || Run(p, DropLast(ops)).inFlight != 0))
  }

  predicate NoDrain(ops: seq<Op>) {
    forall i :: 0 <= i < |ops| ==> !ops[i].OpDrain?
  }

  lemma {:induction false} SafeTracksNeverEarly(p: Partition, ops: seq<Op>)
    requires p.channels !in p.tokens && p.inFlight > 0 && NoDrain(ops)
    requires TracksSafe(Drain(p).0, ops, p.channels)
    ensures var d, ch := Drain(p).0, p.channels;
            var q := Run(d, ops);
            TokenInv(q, ch, Woken(d, ops, ch)) && !EarlyWake(d, ops, ch)
  {
    if ops != [] {
      var d, ch, before := Drain(p).0, p.channels, DropLast(ops);
      SafeTracksNeverEarly(p, before);
      TokenStep(Run(d, before), Last(ops), ch, Woken(d, before, ch));
    }
  }

  /** The token of the current drain is there, unless taken, exactly when nothing is in flight. */
  predicate TokenInv(p: Partition, ch: nat, woken: bool) {
    p.draining && p.drainCh == Some(ch) && (!woken ==> (ch in p.tokens <==> p.inFlight <= 0))
  }

  lemma TokenStep(p: Partition, op: Op, ch: nat, woken: bool)
    requires TokenInv(p, ch, woken) && !op.OpDrain? && (op.OpTrack? ==> woken || p.inFlight != 0)
    ensures TokenInv(Apply(p, op), ch, woken || (op == OpReceive(ch) && ch in p.tokens))
  {
  }

  /**
   After any Tracks that did no harm, one more lets a later drain return with work in flight if and only if it falls
   between the moment when nothing is in flight and the drainer's return.
   */
  lemma {:induction false} TrackWakesEarlyIff(p: Partition, ops: seq<Op>, o: nat, e: int)
    requires p.channels !in p.tokens && p.inFlight > 0 && NoDrain(ops)
    requires TracksSafe(Drain(p).0, ops, p.channels)
    ensures var d, ch := Drain(p).0, p.channels;
            (exists b :: NoTrackOrDrain(b) && EarlyWake(d, ops + [OpTrack(o, e)] + b, ch))
            <==> !Woken(d, ops, ch) && Run(d, ops).inFlight == 0
  {
    var d, ch, tracked := Drain(p).0, p.channels, ops + [OpTrack(o, e)];
    assert DropLast(tracked) == ops && Last(tracked) == OpTrack(o, e);
    SafeTracksNeverEarly(p, ops);
    if !Woken(d, ops, ch) && Run(d, ops).inFlight == 0 {
      var b := [OpReceive(ch)];
      RunSnoc(d, ops, OpTrack(o, e));
      assert DropLast(tracked + b) == tracked && Last(tracked + b) == OpReceive(ch);
      assert NoTrackOrDrain(b) && EarlyWake(d, tracked + b, ch);
    } else {
      forall b | NoTrackOrDrain(b) ensures !EarlyWake(d, tracked + b, ch) {
        NoTracksSafe(d, tracked, b, ch);
        SafeTracksNeverEarly(p, tracked + b);
      }
    }
  }

  lemma {:induction false} NoTracksSafe(p: Partition, ops: seq<Op>, b: seq<Op>, ch: nat)
    requires TracksSafe(p, ops, ch) && NoTrackOrDrain(b)
    ensures TracksSafe(p, ops + b, ch)
  {
    if b == [] {
      assert ops + b == ops;
    } else {
      assert DropLast(ops + b) == ops + DropLast(b) && Last(ops + b) == Last(b);
      NoTracksSafe(p, ops, DropLast(b), ch);
    }
  }

  /** A record tracked while a drain waits makes Drain return nil although that record is in flight. */
  lemma TrackDuringDrainWakesEarly()
    ensures var p := Run(FRESH, [OpTrack(5, 0)]);
            var after := [OpComplete(5), OpTrack(6, 0), OpReceive(p.channels)];
            Woken(Drain(p).0, after, p.channels) && Run(Drain(p).0, after).inFlight == 1
  {
    RunSnoc(FRESH, [], OpTrack(5, 0));
    assert [] + [OpTrack(5, 0)] == [OpTrack(5, 0)];
    var p := Run(FRESH, [OpTrack(5, 0)]);
    var d := Drain(p).0;
    var a1, a2 := [OpComplete(5)], [OpComplete(5), OpTrack(6, 0)];
    RunSnoc(d, [], OpComplete(5));
    assert [] + [OpComplete(5)] == a1;
    RunSnoc(d, a1, OpTrack(6, 0));
    assert a1 + [OpTrack(6, 0)] == a2;
    RunSnoc(d, a2, OpReceive(p.channels));
    var after := [OpComplete(5), OpTrack(6, 0), OpReceive(p.channels)];
    assert a2 + [OpReceive(p.channels)] == after;
    assert DropLast(after) == a2;
  }

  /** A second drain takes over the channel: the first drainer is never woken, though all work completes. */
  lemma SecondDrainStrandsFirst()
    ensures var p := Run(FRESH, [OpTrack(5, 0)]);
            var after := [OpDrain, OpComplete(5)];
            var q := Run(Drain(p).0, after);
            q.inFlight == 0 && p.channels !in q.tokens && !Woken(Drain(p).0, after, p.channels)
  {
  }
}
