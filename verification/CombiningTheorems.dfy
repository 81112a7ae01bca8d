/** What the combining queue and the nap protocol guarantee on every run, for any number of threads. */
module CombiningTheorems {
  import opened Options
  import opened CombiningQueue
  import opened CombiningInvariant

  ghost predicate Reachable(s: State) {
    exists blockingRing, actions :: Schedule(blockingRing, actions) && After(blockingRing, actions) == s
  }

  lemma ReachableInv(s: State)
    requires Reachable(s)
    ensures Inv(s)
  {
    var blockingRing, actions :| Schedule(blockingRing, actions) && After(blockingRing, actions) == s;
    ScheduleInv(blockingRing, actions);
  }

  lemma SizesAgree(s: State)
    requires Inv(s)
    ensures |s.reqs| == |s.pcs|
  {
  }

  /** At most one thread is between its first exec_op and giving the combiner role up, and while requests are
      enqueued the role is never lost: it is held, or on offer to the oldest request's waiting thread. */
  lemma OneCombiner(s: State)
    requires Reachable(s)
    ensures |s.reqs| == |s.pcs|
    ensures forall t, u :: 0 <= t < u < |s.pcs| ==> !(s.pcs[t].Combining? && s.pcs[u].Combining?)
    ensures s.tail != None ==>
              || (exists t :: 0 <= t < |s.pcs| && s.pcs[t].Combining?)
              || (s.role.Given? && s.role.heir < |s.reqs| && s.reqs[s.role.heir].combiner && s.reqs[s.role.heir].blocking
                  && s.pcs[s.role.heir].Waiting? && !Asleep(s.pcs[s.role.heir]))
    ensures s.tail == None ==> forall t :: 0 <= t < |s.pcs| ==> !s.pcs[t].Combining?
  {
    ReachableInv(s);
    if s.role.Held? {
      assert Local(s, s.role.holder, s.pcs[s.role.holder]);
    } else if s.role.Given? {
      assert Local(s, s.role.heir, s.pcs[s.role.heir]);
    }
  }

  /** A staircase visits every value up to its last one. */
  lemma {:induction false} StaircaseCovers(log: seq<nat>, i: nat)
    requires Staircase(log) && log != [] && i <= log[|log| - 1]
    ensures exists j :: 0 <= j < |log| && log[j] == i
  {
    if log[|log| - 1] != i {
      var shorter := log[..|log| - 1];
      assert |log| > 1;
      assert shorter[|shorter| - 1] == log[|log| - 2];
      StaircaseCovers(shorter, i);
      var j :| 0 <= j < |shorter| && shorter[j] == i;
      assert log[j] == i;
    }
  }

  lemma {:induction false} StaircaseRises(log: seq<nat>, j: nat, k: nat)
    requires Staircase(log) && j <= k < |log|
    ensures log[j] <= log[k]
  {
    if j < k {
      StaircaseRises(log, j, k - 1);
    }
  }

  /** Operations run in the order of the swaps on req_tail: never a later request before an earlier one, never
      another one between two attempts at the same one, and every DONE request has been run. */
  lemma ExecutedInSwapOrder(s: State)
    requires Reachable(s)
    ensures Staircase(s.log)
    ensures forall j, k :: 0 <= j <= k < |s.log| ==> s.log[j] <= s.log[k]
    ensures forall x :: 0 <= x < |s.reqs| && s.reqs[x].done ==> forall i :: 0 <= i <= x ==> i in s.log
  {
    ReachableInv(s);
    forall j, k | 0 <= j <= k < |s.log| ensures s.log[j] <= s.log[k] {
      StaircaseRises(s.log, j, k);
    }
    forall x, i | 0 <= x < |s.reqs| && s.reqs[x].done && 0 <= i <= x ensures i in s.log {
      StaircaseCovers(s.log, i);
    }
  }

  /** The result a request is flagged DONE with.  In a ring created to block, a blocking request is never given
      back with -EAGAIN, and a blocking call only returns once its request is DONE. */
  lemma DoneIsFinal(s: State, x: nat)
    requires Reachable(s) && x < |s.reqs|
    ensures s.reqs[x].done ==> s.reqs[x].rc != InProgress
    ensures s.reqs[x].done && s.blockingRing && s.reqs[x].blocking ==> s.reqs[x].rc == Served
    ensures |s.pcs| == |s.reqs| && (s.pcs[x] == Returned && s.reqs[x].blocking ==> s.reqs[x].done)
  {
    ReachableInv(s);
    assert Local(s, x, s.pcs[x]);
  }

  /** The requests a thread dereferences in its next step. */
  function Touches(t: nat, pc: Pc): set<nat> {
    match pc
    case Linking(prev) => {prev, t}
    case Waiting(_) => {t}
    case Combining(r, _, _, _) => {r, t}
    case FlaggingLast(r) => {r, t}
    case Returned => {}
  }

  /** Nobody but its own caller ever touches a request that is DONE, so its memory may be reused at once. */
  lemma DoneIsNotTouched(s: State, t: nat, x: nat)
    requires Reachable(s) && t < |s.pcs| && x in Touches(t, s.pcs[t]) && x != t
    ensures x < |s.reqs| && !s.reqs[x].done
  {
    ReachableInv(s);
    assert Local(s, t, s.pcs[t]);
  }

  /** The request a step writes to. */
  predicate Writes(pc: Pc, x: nat) {
    match pc
    case Linking(prev) => x == prev
    case Waiting(_) => false
    case Combining(r, _, _, _) => x == r
    case FlaggingLast(r) => x == r
    case Returned => false
  }

  lemma AdvanceWritesItsRequest(s: State, t: nat, x: nat)
    requires |s.reqs| == |s.pcs| && t < |s.pcs| && s.pcs[t].Combining? && s.pcs[t].r < |s.reqs|
    requires x < |s.reqs| && x != s.pcs[t].r
    ensures |DoAdvance(s, t).reqs| == |s.reqs| && DoAdvance(s, t).reqs[x] == s.reqs[x]
  {
    match s.pcs[t].phase
    case Closing => assert DoAdvance(s, t).reqs == s.reqs;
    case Flagging(_) =>
    case Exhausted => assert DoAdvance(s, t).reqs == s.reqs;
    case HandingOver =>
    case _ => assert DoAdvance(s, t) == s;
  }

  lemma CombinerWritesItsRequest(s: State, t: nat, o: Outcome, x: nat)
    requires |s.reqs| == |s.pcs| && Enabled(s, t, o) && s.pcs[t].Combining? && x < |s.reqs| && x != s.pcs[t].r
    ensures |DoCombine(s, t, o).reqs| == |s.reqs| && DoCombine(s, t, o).reqs[x] == s.reqs[x]
  {
    hide DoAdvance, DoWake;
    match s.pcs[t].phase
    case Executing =>
    case Deciding =>
    case Announcing =>
    case Peeking =>
    case WakingUp(_, _) => WakerKeepsRequests(s, t);
    case ReadingNext =>
    case AwaitingLink =>
    case _ => AdvanceWritesItsRequest(s, t, x);
  }

  /** Only combiners change return codes. */
  lemma OthersKeepCodes(s: State, t: nat, o: Outcome, i: nat)
    requires |s.reqs| == |s.pcs| && Enabled(s, t, o) && !s.pcs[t].Combining? && i < |s.reqs|
    ensures |DoRun(s, t, o).reqs| == |s.reqs| && DoRun(s, t, o).reqs[i].rc == s.reqs[i].rc
  {
    hide DoCombine, MutexAfter, NextWait;
    match s.pcs[t]
    case Linking(_) =>
    case Waiting(_) => assert DoWait(s, t).reqs == s.reqs;
    case FlaggingLast(_) =>
    case Returned =>
  }

  /** A step never changes a request that is DONE. */
  lemma DoneIsFrozen(s: State, a: Action, x: nat)
    requires Inv(s) && CanStep(s, a) && x < |s.reqs| && s.reqs[x].done
    ensures x < |Step(s, a).reqs| && Step(s, a).reqs[x] == s.reqs[x]
  {
    hide DoCombine, Inv;
    match a
    case Arrive(_) =>
    case Run(t, o) =>
      WrittenIsNotDone(s, t, x);
      match s.pcs[t]
      case Linking(_) =>
      case Waiting(_) =>
      case Combining(_, _, _, _) => CombinerWritesItsRequest(s, t, o, x);
      case FlaggingLast(_) =>
      case Returned =>
  }

  lemma WrittenIsNotDone(s: State, t: nat, x: nat)
    requires Inv(s) && t < |s.pcs| && x < |s.reqs| && s.reqs[x].done
    ensures !Writes(s.pcs[t], x)
  {
    assert Local(s, t, s.pcs[t]);
  }

  /** Request `x` is DONE after the first `j` actions of the schedule. */
  ghost predicate DoneAfter(blockingRing: bool, actions: seq<Action>, j: nat, x: nat) {
    j <= |actions| && Schedule(blockingRing, actions[..j]) &&
    var s := After(blockingRing, actions[..j]);
    x < |s.reqs| && s.reqs[x].done
  }

  /** Each request is flagged DONE exactly once: by one action of the schedule, and it stays DONE from there on. */
  lemma {:induction false} FlaggedExactlyOnce(blockingRing: bool, actions: seq<Action>, x: nat) returns (at: nat)
    requires Schedule(blockingRing, actions) && DoneAfter(blockingRing, actions, |actions|, x)
    ensures at < |actions|
    ensures forall j :: 0 <= j <= |actions| ==> (DoneAfter(blockingRing, actions, j, x) <==> at < j)
    decreases |actions|
  {
    hide Step, CanStep;
    assert actions[..|actions|] == actions;
    var before := actions[..|actions| - 1];
    assert forall j :: 0 <= j <= |before| ==> before[..j] == actions[..j];
    if DoneAfter(blockingRing, before, |before|, x) {
      at := FlaggedExactlyOnce(blockingRing, before, x);
      assert forall j :: 0 <= j <= |before| ==>
          (DoneAfter(blockingRing, actions, j, x) <==> DoneAfter(blockingRing, before, j, x));
    } else {
      at := |before|;
      NotDoneBefore(blockingRing, before, x);
      assert forall j :: 0 <= j <= |before| ==>
          (DoneAfter(blockingRing, actions, j, x) <==> DoneAfter(blockingRing, before, j, x));
    }
  }

  lemma {:induction false} NotDoneBefore(blockingRing: bool, actions: seq<Action>, x: nat)
    requires Schedule(blockingRing, actions) && !DoneAfter(blockingRing, actions, |actions|, x)
    ensures forall j :: 0 <= j <= |actions| ==> !DoneAfter(blockingRing, actions, j, x)
    decreases |actions|
  {
    hide Inv, CanStep, Step;
    assert actions[..|actions|] == actions;
    if actions != [] {
      var before := actions[..|actions| - 1];
      assert before[..|before|] == before && forall j :: 0 <= j <= |before| ==> before[..j] == actions[..j];
      if DoneAfter(blockingRing, before, |before|, x) {
        ScheduleInv(blockingRing, before);
        DoneIsFrozen(After(blockingRing, before), actions[|actions| - 1], x);
        assert false;
      }
      NotDoneBefore(blockingRing, before, x);
      assert forall j :: 0 <= j <= |before| ==>
          (DoneAfter(blockingRing, actions, j, x) <==> DoneAfter(blockingRing, before, j, x));
    }
  }

  /** What the history variables say: the flags of all requests before `first` are set except those that a thread,
      having closed the queue behind them, is still about to set. */
  lemma DoneExactly(s: State, x: nat)
    requires Reachable(s) && x < |s.reqs|
    ensures s.reqs[x].done <==> x < s.first && x !in s.closing
    ensures |s.pcs| == |s.reqs| && (x in s.closing <==> exists t :: 0 <= t < |s.pcs| && s.pcs[t] == FlaggingLast(x))
  {
    ReachableInv(s);
    if x in s.closing {
      var t := s.closing[x];
      assert Local(s, t, s.pcs[t]);
    }
    forall t | 0 <= t < |s.pcs| && s.pcs[t] == FlaggingLast(x) ensures x in s.closing {
      assert Local(s, t, s.pcs[t]);
    }
  }

  /** DONE flags are set in swap order exactly while no closing combiner is overtaken: a request is overtaken by the
      flag of a later one if and only if some thread has closed the queue behind it and not flagged it yet. */
  lemma OvertakenExactly(s: State, x: nat, y: nat)
    requires Reachable(s) && x < y < |s.reqs| && s.reqs[y].done
    ensures |s.pcs| == |s.reqs| && (!s.reqs[x].done <==> exists t :: 0 <= t < |s.pcs| && s.pcs[t] == FlaggingLast(x))
  {
    DoneExactly(s, x);
    DoneExactly(s, y);
  }

  /** The combiner role never goes to a non-blocking request, and whoever is about to get it is awake. */
  lemma HandOverToBlockingOnly(s: State, t: nat)
    requires Reachable(s) && t < |s.pcs| && s.pcs[t].Combining? && s.pcs[t].phase.HandingOver?
    ensures var heir := s.pcs[t].r;
            heir < |s.reqs| == |s.pcs| && s.reqs[heir].blocking && s.pcs[heir].Waiting? && !Asleep(s.pcs[heir])
  {
    ReachableInv(s);
    assert Local(s, t, s.pcs[t]);
    var heir := s.pcs[t].r;
    assert Local(s, heir, s.pcs[heir]);
  }

  /** No lost wake-up: threads only sleep at nap time or while the broadcast that ends it is on its way, and while
      they do the holder of the combiner role is busy with its own request. */
  lemma NoLostWakeUp(s: State, u: nat)
    requires Reachable(s) && u < |s.pcs| && Asleep(s.pcs[u])
    ensures s.nap || s.pending
    ensures s.role.Held? && s.role.holder < |s.pcs| && s.pcs[s.role.holder].Combining?
    ensures var pc := s.pcs[s.role.holder];
            pc.r == s.role.holder && !pc.phase.HandingOver? && !pc.phase.Flagging?
  {
    ReachableInv(s);
    assert Local(s, u, s.pcs[u]);
    assert Local(s, s.role.holder, s.pcs[s.role.holder]);
  }

  /** Nobody sleeps when a combiner, still in its loop, flags a request DONE or hands its role over.  A combiner that
      has closed the queue has given the role up before it flags the last request; see FlaggedWhileAsleep. */
  lemma AwakeAtFlagging(s: State, t: nat)
    requires Reachable(s) && t < |s.pcs| && s.pcs[t].Combining?
    requires s.pcs[t].phase.Flagging? || s.pcs[t].phase.HandingOver?
    ensures forall u :: 0 <= u < |s.pcs| ==> !Asleep(s.pcs[u])
  {
    ReachableInv(s);
    assert Local(s, t, s.pcs[t]);
    forall u | 0 <= u < |s.pcs| ensures !Asleep(s.pcs[u]) {
      if Asleep(s.pcs[u]) { NoLostWakeUp(s, u); }
    }
  }

  /** The one way in which a sleeping thread's request is flagged DONE: by a thread that closed the queue behind it,
      when it had been served, and meanwhile another thread has become the combiner and taken a nap at its own
      request. */
  lemma FlaggedWhileAsleep(s: State, t: nat, o: Outcome, x: nat)
    requires Reachable(s) && CanStep(s, Run(t, o)) && x < |s.reqs| && Asleep(s.pcs[x])
    requires !s.reqs[x].done && x < |DoRun(s, t, o).reqs| && DoRun(s, t, o).reqs[x].done
    ensures x != t && s.pcs[t] == FlaggingLast(x) && s.reqs[x].rc == Served
    ensures s.role.Held? && s.role.holder < |s.pcs| && s.role.holder != t && s.role.holder != x
    ensures var pc := s.pcs[s.role.holder]; pc.Combining? && pc.r == s.role.holder && (s.nap || s.pending)
  {
    NoLostWakeUp(s, x);
    ReachableInv(s);
    assert Local(s, t, s.pcs[t]) && Local(s, x, s.pcs[x]);
    FlaggerOf(s, t, o, x);
  }

  /** Only Flagging and FlaggingLast set a DONE flag, and only of their request. */
  lemma FlaggerOf(s: State, t: nat, o: Outcome, x: nat)
    requires |s.reqs| == |s.pcs| && Enabled(s, t, o) && x < |s.reqs| && !s.reqs[x].done
    requires x < |DoRun(s, t, o).reqs| && DoRun(s, t, o).reqs[x].done
    ensures (s.pcs[t].Combining? && s.pcs[t].phase.Flagging? && s.pcs[t].r == x) || s.pcs[t] == FlaggingLast(x)
  {
    match s.pcs[t]
    case Linking(_) =>
    case Waiting(_) =>
    case Combining(r, _, _, phase) =>
      hide DoCombine;
      if x != r { CombinerWritesItsRequest(s, t, o, x); } else if !phase.Flagging? { CombinerFlags(s, t, o); }
    case FlaggingLast(_) =>
    case Returned =>
  }

  lemma CombinerFlags(s: State, t: nat, o: Outcome)
    requires |s.reqs| == |s.pcs| && Enabled(s, t, o) && s.pcs[t].Combining? && !s.pcs[t].phase.Flagging?
    ensures |DoCombine(s, t, o).reqs| == |s.reqs|
    ensures DoCombine(s, t, o).reqs[s.pcs[t].r].done == s.reqs[s.pcs[t].r].done
  {
    hide DoAdvance, DoWake;
    match s.pcs[t].phase
    case Executing =>
    case Deciding =>
    case Announcing =>
    case Peeking =>
    case WakingUp(_, _) => WakerKeepsRequests(s, t);
    case ReadingNext =>
    case AwaitingLink =>
    case _ => AdvanceFlags(s, t);
  }

  lemma WakerKeepsRequests(s: State, t: nat)
    requires |s.reqs| == |s.pcs| && t < |s.pcs| && s.pcs[t].Combining? && s.pcs[t].phase.WakingUp?
    ensures DoWake(s, t).reqs == s.reqs
  {
  }

  lemma AdvanceFlags(s: State, t: nat)
    requires |s.reqs| == |s.pcs| && t < |s.pcs| && s.pcs[t].Combining? && s.pcs[t].r < |s.reqs| && !s.pcs[t].phase.Flagging?
    ensures |DoAdvance(s, t).reqs| == |s.reqs| && DoAdvance(s, t).reqs[s.pcs[t].r].done == s.reqs[s.pcs[t].r].done
  {
    match s.pcs[t].phase
    case Closing => assert DoAdvance(s, t).reqs == s.reqs;
    case Flagging(_) =>
    case Exhausted => assert DoAdvance(s, t).reqs == s.reqs;
    case HandingOver =>
    case _ => assert DoAdvance(s, t) == s;
  }

  /** The thread whose step the queue is waiting for. */
  function Responsible(s: State): nat
    requires |s.reqs| == |s.pcs| && s.first < |s.reqs|
    requires s.role.Held? ==> s.role.holder < |s.reqs|
  {
    match s.role
    case Nobody => s.first
    case Held(c) =>
      var pc := s.pcs[c];
      if pc.Combining? && pc.phase.AwaitingLink? && s.reqs[s.first].next == None then s.first + 1
      else if pc.Combining? && pc.phase.WakingUp? && pc.phase.wake == Lock && s.mutex.Some? then s.mutex.value else c
    case Given(r) =>
      if (s.pcs[s.first] == Waiting(Locking) || s.pcs[s.first] == Waiting(Waking)) && s.mutex.Some? then s.mutex.value
      else s.first
  }

  /** A combiner that polls the element it was told to monitor: what is left of its step is up to that element. */
  predicate Polls(s: State, t: nat) {
    t < |s.pcs| && s.pcs[t].Combining? && s.pcs[t].phase.Peeking? && s.monitoring
  }

  lemma HolderCanProceed(s: State, o: Outcome)
    requires Inv(s) && s.role.Held?
    ensures Enabled(s, Responsible(s), o) <==> (Polls(s, Responsible(s)) ==> o.ready)
    ensures s.pcs[Responsible(s)] != Waiting(Sleeping)
  {
    assert Local(s, s.role.holder, s.pcs[s.role.holder]);
    if s.first + 1 < |s.reqs| {
      assert Local(s, s.first + 1, s.pcs[s.first + 1]);
    }
    if s.mutex.Some? {
      assert Local(s, s.mutex.value, s.pcs[s.mutex.value]);
    }
  }

  lemma HeirCanProceed(s: State, o: Outcome)
    requires Inv(s) && s.role.Given?
    ensures Enabled(s, Responsible(s), o) && !Polls(s, Responsible(s)) && s.pcs[Responsible(s)] != Waiting(Sleeping)
  {
    assert Local(s, s.first, s.pcs[s.first]);
    if s.mutex.Some? {
      assert Local(s, s.mutex.value, s.pcs[s.mutex.value]);
    }
  }

  /** The queue never blocks itself: while a request is enqueued, the thread that the combiner role is waiting for is not
      asleep, and it can take its step unless it polls a monitored element whose status has not changed.  What that
      element is, and when its status changes, is the subject of RingPeeks. */
  lemma NoDeadlock(s: State, o: Outcome)
    requires Reachable(s) && s.first < |s.reqs|
    ensures |s.reqs| == |s.pcs| && (s.role.Held? ==> s.role.holder < |s.reqs|)
    ensures Enabled(s, Responsible(s), o) <==> (Polls(s, Responsible(s)) ==> o.ready)
    ensures s.pcs[Responsible(s)] != Waiting(Sleeping)
  {
    ReachableInv(s);
    if s.role.Held? {
      HolderCanProceed(s, o);
    } else {
      HeirCanProceed(s, o);
    }
  }
}
