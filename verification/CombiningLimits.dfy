/** How long a combiner serves others before it hands its role over. */
module CombiningLimits {
  import opened Options
  import opened CombiningQueue
  import opened CombiningInvariant
  import opened CombiningTheorems

  /** How many requests a combiner serves before it looks for a successor for the first time, and after each request
      that cannot be one because its caller does not wait. */
  function Quota(k: nat): (q: nat)
    ensures q >= 2
  {
    if k == 0 then 128 else Quota(k - 1) / 2 + 1
  }

  /** How many it has served when it looks for a successor for the `k`-th time. */
  function Limit(k: nat): nat {
    if k == 0 then Quota(0) else Limit(k - 1) + Quota(k)
  }

  lemma {:induction false} LimitsRise(j: nat, k: nat)
    requires j < k
    ensures Limit(j) < Limit(k)
    decreases k
  {
    if j < k - 1 { LimitsRise(j, k - 1); }
  }

  /** The `k`-th candidate of combiner `t` cannot take the role. */
  predicate Passed(s: State, t: nat, k: nat) {
    t + Limit(k) < |s.reqs| && !s.reqs[t + Limit(k)].blocking
  }

  ghost predicate AllPassed(s: State, t: nat, k: nat) {
    forall j {:trigger Passed(s, t, j)} :: 0 <= j < k ==> Passed(s, t, j)
  }

  /** The loop counters of combiner `t` on its way to its `k`-th candidate. */
  predicate Toward(s: State, t: nat, pc: Pc, k: nat) {
    match pc
    case Combining(r, i, m, phase) =>
      m == Quota(k) && r < |s.reqs| &&
      (match phase
       case Exhausted => r == t + Limit(k) && s.reqs[r].rc == InProgress
       case HandingOver =>
         || (r + i + 1 == t + Limit(k) && s.reqs[r].rc == Again && s.blockingRing)
         || (r == t + Limit(k) && s.reqs[r].rc == InProgress)
       case _ => r + i + 1 == t + Limit(k))
    case FlaggingLast(r) => r < t + Limit(k)
    case _ => true
  }

  ghost predicate Budgeted(s: State, t: nat, pc: Pc) {
    exists k: nat :: Toward(s, t, pc, k) && AllPassed(s, t, k)
  }

  ghost predicate AllBudgeted(s: State) {
    forall t {:trigger s.pcs[t]} :: 0 <= t < |s.pcs| ==> Budgeted(s, t, s.pcs[t])
  }

  lemma NotCombining(s: State, t: nat, pc: Pc)
    requires !pc.Combining? && !pc.FlaggingLast?
    ensures Budgeted(s, t, pc)
  {
    assert Toward(s, t, pc, 0) && AllPassed(s, t, 0);
  }

  lemma Starting(s: State, t: nat)
    requires t < |s.reqs|
    ensures Budgeted(s, t, StartCombining(t))
  {
    assert Limit(0) == 128;
    assert Toward(s, t, StartCombining(t), 0) && AllPassed(s, t, 0);
  }

  /** Requests never change whether their callers wait. */
  predicate KeepsRequests(s: State, s': State) {
    && |s.reqs| <= |s'.reqs| && s'.blockingRing == s.blockingRing
    && forall i {:trigger s'.reqs[i]} :: 0 <= i < |s.reqs| ==> s'.reqs[i].blocking == s.reqs[i].blocking
  }

  /** ... and a step of thread `t` does no more to other threads than to wake sleepers. */
  predicate Around(s: State, s': State, t: nat) {
    && KeepsRequests(s, s') && |s'.reqs| == |s.reqs| && |s'.pcs| == |s.pcs|
    && forall u {:trigger s'.pcs[u]} :: 0 <= u < |s.pcs| && u != t ==>
         s'.pcs[u] == s.pcs[u] || (s.pcs[u] == Waiting(Sleeping) && s'.pcs[u] == Waiting(Waking))
  }

  lemma PassedKept(s: State, s': State, t: nat, k: nat)
    requires KeepsRequests(s, s') && AllPassed(s, t, k)
    ensures AllPassed(s', t, k)
  {
    hide Limit;
    forall j | 0 <= j < k ensures Passed(s', t, j) {
      assert Passed(s, t, j);
      assert s'.reqs[t + Limit(j)].blocking == s.reqs[t + Limit(j)].blocking;
    }
  }

  lemma WaitAround(s: State, t: nat)
    requires |s.reqs| == |s.pcs| && t < |s.pcs| && s.pcs[t].Waiting?
    ensures Around(s, DoWait(s, t), t)
  {
    hide NextWait, MutexAfter;
  }

  lemma WakeAround(s: State, t: nat)
    requires |s.reqs| == |s.pcs| && t < |s.pcs| && s.pcs[t].Combining? && s.pcs[t].phase.WakingUp?
    ensures Around(s, DoWake(s, t), t)
  {
    hide AfterWake;
  }

  lemma AdvanceAround(s: State, t: nat)
    requires |s.reqs| == |s.pcs| && t < |s.pcs| && s.pcs[t].Combining? && s.pcs[t].r < |s.reqs|
    ensures Around(s, DoAdvance(s, t), t)
  {
    hide Around;
    var s' := DoAdvance(s, t);
    match s.pcs[t].phase
    case Closing => SameRequests(s, s', t, s'.pcs[t]);
    case Flagging(_) => OneRequest(s, s', t, s'.pcs[t], s.reqs[s.pcs[t].r].(done := true));
    case Exhausted => SameRequests(s, s', t, s'.pcs[t]);
    case HandingOver => OneRequest(s, s', t, Returned, s.reqs[s.pcs[t].r].(combiner := true));
    case _ => assert s' == s; SameRequests(s, s', t, s.pcs[t]);
  }

  lemma SameRequests(s: State, s': State, t: nat, pc: Pc)
    requires t < |s.pcs| && s'.reqs == s.reqs && s'.blockingRing == s.blockingRing && s'.pcs == s.pcs[t := pc]
    ensures Around(s, s', t)
  {
  }

  lemma OneRequest(s: State, s': State, t: nat, pc: Pc, r: Req)
    requires t < |s.pcs| && s.pcs[t].Combining? && s.pcs[t].r < |s.reqs|
    requires s'.reqs == s.reqs[s.pcs[t].r := r] && r.blocking == s.reqs[s.pcs[t].r].blocking
    requires s'.blockingRing == s.blockingRing && s'.pcs == s.pcs[t := pc]
    ensures Around(s, s', t)
  {
  }

  lemma TurnAround(s: State, t: nat, o: Outcome)
    requires |s.reqs| == |s.pcs| && t < |s.pcs| && s.pcs[t].Combining? && s.pcs[t].r < |s.reqs|
    requires s.pcs[t].phase.Deciding? || s.pcs[t].phase.Announcing? || s.pcs[t].phase.Peeking? || s.pcs[t].phase.ReadingNext?
             || s.pcs[t].phase.AwaitingLink?
    ensures Around(s, DoCombine(s, t, o), t) && DoCombine(s, t, o).reqs == s.reqs
  {
    hide NeedPeek;
  }

  lemma CombineAround(s: State, t: nat, o: Outcome)
    requires |s.reqs| == |s.pcs| && Enabled(s, t, o) && s.pcs[t].Combining?
    ensures Around(s, DoCombine(s, t, o), t)
  {
    hide Around, DoAdvance, DoWake;
    match s.pcs[t].phase
    case Executing => ExecuteAround(s, t, o);
    case WakingUp(_, _) => WakeAround(s, t);
    case Closing => AdvanceAround(s, t);
    case Flagging(_) => AdvanceAround(s, t);
    case Exhausted => AdvanceAround(s, t);
    case HandingOver => AdvanceAround(s, t);
    case _ => TurnAround(s, t, o);
  }

  lemma ExecuteAround(s: State, t: nat, o: Outcome)
    requires |s.reqs| == |s.pcs| && t < |s.pcs| && s.pcs[t].Combining? && s.pcs[t].r < |s.reqs| && s.pcs[t].phase.Executing?
    ensures Around(s, DoCombine(s, t, o), t)
  {
  }

  lemma RunAround(s: State, t: nat, o: Outcome)
    requires |s.reqs| == |s.pcs| && Enabled(s, t, o)
    ensures Around(s, DoRun(s, t, o), t)
  {
    hide DoWait, DoCombine;
    match s.pcs[t]
    case Linking(_) =>
    case Waiting(_) => WaitAround(s, t);
    case Combining(_, _, _, _) => CombineAround(s, t, o);
    case FlaggingLast(_) =>
    case Returned =>
  }

  lemma ActAround(s: State, a: Action)
    requires CanStep(s, a)
    ensures KeepsRequests(s, Step(s, a))
    ensures |Step(s, a).pcs| == |Step(s, a).reqs| == |s.pcs| + if a.Arrive? then 1 else 0
    ensures forall u {:trigger Step(s, a).pcs[u]} :: 0 <= u < |s.pcs| && (a.Run? ==> a.t != u) ==>
              || Step(s, a).pcs[u] == s.pcs[u]
              || (s.pcs[u] == Waiting(Sleeping) && Step(s, a).pcs[u] == Waiting(Waking))
  {
    hide DoRun;
    if a.Run? { RunAround(s, a.t, a.o); }
  }

  /** A step of another thread. */
  lemma OtherBudgeted(s: State, a: Action, u: nat)
    requires Inv(s) && CanStep(s, a) && u < |s.pcs| && Budgeted(s, u, s.pcs[u]) && (a.Run? ==> a.t != u)
    ensures u < |Step(s, a).pcs| && Budgeted(Step(s, a), u, Step(s, a).pcs[u])
  {
    hide Quota, Limit, AllPassed;
    var s' := Step(s, a);
    ActAround(s, a);
    if s.pcs[u].Combining? || s.pcs[u].FlaggingLast? {
      var k: nat :| Toward(s, u, s.pcs[u], k) && AllPassed(s, u, k);
      PassedKept(s, s', u, k);
      if s.pcs[u].Combining? { OtherCode(s, a, u); }
      assert Toward(s', u, s'.pcs[u], k);
    } else {
      NotCombining(s', u, s'.pcs[u]);
    }
  }

  lemma OtherCode(s: State, a: Action, u: nat)
    requires Inv(s) && CanStep(s, a) && u < |s.pcs| && s.pcs[u].Combining? && (a.Run? ==> a.t != u)
    ensures var r := s.pcs[u].r; r < |s.reqs| && r < |Step(s, a).reqs| && Step(s, a).reqs[r].rc == s.reqs[r].rc
  {
    hide Quota, Limit, DoRun;
    assert Local(s, u, s.pcs[u]);
    if a.Run? {
      assert Local(s, a.t, s.pcs[a.t]);
      OthersKeepCodes(s, a.t, a.o, s.pcs[u].r);
    }
  }

  /** A step of the combiner that leaves it at its request. */
  lemma StayBudgeted(s: State, t: nat, o: Outcome)
    requires Inv(s) && Enabled(s, t, o) && s.pcs[t].Combining? && Budgeted(s, t, s.pcs[t])
    requires !s.pcs[t].phase.Flagging? && !s.pcs[t].phase.Exhausted? && !s.pcs[t].phase.HandingOver? && !s.pcs[t].phase.Closing?
    ensures t < |DoCombine(s, t, o).pcs| && Budgeted(DoCombine(s, t, o), t, DoCombine(s, t, o).pcs[t])
  {
    hide Quota, Limit, AllPassed;
    var s' := DoCombine(s, t, o);
    CombineAround(s, t, o);
    var k: nat :| Toward(s, t, s.pcs[t], k) && AllPassed(s, t, k);
    PassedKept(s, s', t, k);
    assert Local(s, t, s.pcs[t]);
    assert Toward(s', t, s'.pcs[t], k);
  }

  lemma FlagBudgeted(s: State, t: nat, o: Outcome)
    requires Inv(s) && Enabled(s, t, o) && s.pcs[t].Combining? && Budgeted(s, t, s.pcs[t])
    requires s.pcs[t].phase.Flagging? || s.pcs[t].phase.HandingOver? || s.pcs[t].phase.Closing?
    ensures t < |DoAdvance(s, t).pcs| && Budgeted(DoAdvance(s, t), t, DoAdvance(s, t).pcs[t])
  {
    hide Quota, Limit, AllPassed;
    var s' := DoAdvance(s, t);
    CombineAround(s, t, o);
    var k: nat :| Toward(s, t, s.pcs[t], k) && AllPassed(s, t, k);
    PassedKept(s, s', t, k);
    assert Local(s, t, s.pcs[t]);
    assert Toward(s', t, s'.pcs[t], k);
  }

  /** The loop has ended: the next candidate. */
  lemma ExhaustBudgeted(s: State, t: nat, o: Outcome)
    requires Inv(s) && Enabled(s, t, o) && s.pcs[t].Combining? && Budgeted(s, t, s.pcs[t]) && s.pcs[t].phase.Exhausted?
    ensures t < |DoAdvance(s, t).pcs| && Budgeted(DoAdvance(s, t), t, DoAdvance(s, t).pcs[t])
  {
    hide Around;
    var s' := DoAdvance(s, t);
    AdvanceKeeps(s, t);
    var k: nat :| Toward(s, t, s.pcs[t], k) && AllPassed(s, t, k);
    PassedKept(s, s', t, k);
    if s.reqs[s.pcs[t].r].blocking {
      assert Toward(s', t, s'.pcs[t], k);
    } else {
      assert Passed(s', t, k);
      OneMorePassed(s', t, k);
      assert Toward(s', t, s'.pcs[t], k + 1);
    }
  }

  lemma AdvanceKeeps(s: State, t: nat)
    requires |s.reqs| == |s.pcs| && t < |s.pcs| && s.pcs[t].Combining? && s.pcs[t].r < |s.reqs|
    ensures KeepsRequests(s, DoAdvance(s, t))
  {
    AdvanceAround(s, t);
  }

  lemma OneMorePassed(s: State, t: nat, k: nat)
    requires AllPassed(s, t, k) && Passed(s, t, k)
    ensures AllPassed(s, t, k + 1)
  {
    hide Passed;
  }

  lemma CombineBudgeted(s: State, t: nat, o: Outcome)
    requires Inv(s) && Enabled(s, t, o) && s.pcs[t].Combining? && Budgeted(s, t, s.pcs[t])
    ensures t < |DoCombine(s, t, o).pcs| && Budgeted(DoCombine(s, t, o), t, DoCombine(s, t, o).pcs[t])
  {
    hide Budgeted, DoAdvance, DoWake;
    var phase := s.pcs[t].phase;
    if phase.Flagging? || phase.HandingOver? || phase.Closing? { FlagBudgeted(s, t, o); }
    else if phase.Exhausted? { ExhaustBudgeted(s, t, o); }
    else { StayBudgeted(s, t, o); }
  }

  lemma OwnBudgeted(s: State, t: nat, o: Outcome)
    requires |s.reqs| == |s.pcs| && Inv(s) && Enabled(s, t, o) && Budgeted(s, t, s.pcs[t])
    ensures t < |DoRun(s, t, o).pcs| && Budgeted(DoRun(s, t, o), t, DoRun(s, t, o).pcs[t])
  {
    hide Budgeted, Inv, DoCombine;
    var s' := DoRun(s, t, o);
    match s.pcs[t]
    case Combining(_, _, _, _) => CombineBudgeted(s, t, o);
    case Waiting(_) =>
      hide NextWait, MutexAfter;
      if s'.pcs[t].Combining? { Starting(s', t); } else { NotCombining(s', t, s'.pcs[t]); }
    case Linking(_) => NotCombining(s', t, s'.pcs[t]);
    case FlaggingLast(_) => NotCombining(s', t, s'.pcs[t]);
    case Returned =>
  }

  lemma ActBudgeted(s: State, a: Action)
    requires Inv(s) && CanStep(s, a) && AllBudgeted(s)
    ensures AllBudgeted(Step(s, a))
  {
    hide Budgeted, DoRun, Inv;
    SizesAgree(s);
    var s' := Step(s, a);
    ActAround(s, a);
    forall u | 0 <= u < |s'.pcs| ensures Budgeted(s', u, s'.pcs[u]) {
      if a.Run? && a.t == u {
        OwnBudgeted(s, u, a.o);
      } else if u < |s.pcs| {
        OtherBudgeted(s, a, u);
      } else if s'.pcs[u].Combining? {
        Starting(s', u);
      } else {
        NotCombining(s', u, s'.pcs[u]);
      }
    }
  }

  lemma {:induction false} ScheduleBudgeted(blockingRing: bool, actions: seq<Action>)
    requires Schedule(blockingRing, actions)
    ensures AllBudgeted(After(blockingRing, actions))
    decreases |actions|
  {
    hide Budgeted, Inv, Step, CanStep;
    if actions != [] {
      var before := actions[..|actions| - 1];
      ScheduleBudgeted(blockingRing, before);
      ScheduleInv(blockingRing, before);
      ActBudgeted(After(blockingRing, before), actions[|actions| - 1]);
    }
  }

  // ---- How many requests a thread flags.

  /** Action `a` is a step of thread `t` that flags a request DONE. */
  ghost predicate Flags(s: State, a: Action, t: nat)
    requires CanStep(s, a)
  {
    a.Run? && a.t == t && exists x :: 0 <= x < |s.reqs| && !s.reqs[x].done && x < |Step(s, a).reqs| && Step(s, a).reqs[x].done
  }

  /** How many requests thread `t` flags DONE in a schedule. */
  ghost function FlagsBy(blockingRing: bool, actions: seq<Action>, t: nat): nat
    requires Schedule(blockingRing, actions)
    decreases |actions|
  {
    if actions == [] then 0
    else
      var before := actions[..|actions| - 1];
      FlagsBy(blockingRing, before, t) + if Flags(After(blockingRing, before), actions[|actions| - 1], t) then 1 else 0
  }

  /** Of `n` requests served, the candidates among them could not take the role. */
  ghost predicate PassedUpTo(s: State, t: nat, n: nat) {
    forall k: nat {:trigger Passed(s, t, k)} :: Limit(k) < n ==> Passed(s, t, k)
  }

  /** Thread `t` has flagged `n` requests. */
  ghost predicate Spent(s: State, t: nat, n: nat) {
    if t >= |s.pcs| then n == 0
    else
      match s.pcs[t]
      case Linking(_) => n == 0
      case Waiting(_) => n == 0
      case Combining(r, _, _, _) => r == t + n
      case FlaggingLast(r) => r == t + n
      case Returned => PassedUpTo(s, t, n)
  }

  lemma FewPassed(s: State, t: nat, n: nat, k: nat)
    requires n <= Limit(k) && AllPassed(s, t, k)
    ensures PassedUpTo(s, t, n)
  {
    hide Limit, Passed;
    forall j: nat | Limit(j) < n ensures Passed(s, t, j) {
      if k < j { LimitsRise(k, j); }
    }
  }

  /** What a combiner has flagged, and may flag yet, ends before the first candidate that can take the role. */
  lemma SpentSoFar(s: State, t: nat, n: nat)
    requires t < |s.pcs| && Spent(s, t, n) && Budgeted(s, t, s.pcs[t])
    ensures PassedUpTo(s, t, n)
    ensures s.pcs[t].FlaggingLast? || (s.pcs[t].Combining? && s.pcs[t].phase.Flagging?) ==> PassedUpTo(s, t, n + 1)
  {
    hide Limit, Quota, AllPassed, PassedUpTo;
    if s.pcs[t].Combining? || s.pcs[t].FlaggingLast? {
      var k: nat :| Toward(s, t, s.pcs[t], k) && AllPassed(s, t, k);
      FewPassed(s, t, n, k);
      if s.pcs[t].FlaggingLast? || s.pcs[t].phase.Flagging? { FewPassed(s, t, n + 1, k); }
    } else if !s.pcs[t].Returned? {
      NonePassed(s, t);
    }
  }

  lemma NonePassed(s: State, t: nat)
    ensures PassedUpTo(s, t, 0)
  {
  }

  lemma PassedLater(s: State, s': State, t: nat, n: nat)
    requires KeepsRequests(s, s') && PassedUpTo(s, t, n)
    ensures PassedUpTo(s', t, n)
  {
    hide Limit;
    forall k: nat | Limit(k) < n ensures Passed(s', t, k) {
      assert Passed(s, t, k);
      assert s'.reqs[t + Limit(k)].blocking == s.reqs[t + Limit(k)].blocking;
    }
  }

  /** The step of a thread flags a request exactly at the end of a turn of its loop, or as its last one. */
  lemma FlagsAt(s: State, t: nat, o: Outcome)
    requires Inv(s) && CanStep(s, Run(t, o))
    ensures Flags(s, Run(t, o), t) <==> s.pcs[t].FlaggingLast? || (s.pcs[t].Combining? && s.pcs[t].phase.Flagging?)
  {
    hide Inv;
    if x :| 0 <= x < |s.reqs| && !s.reqs[x].done && x < |DoRun(s, t, o).reqs| && DoRun(s, t, o).reqs[x].done {
      FlaggerOf(s, t, o, x);
    }
    if s.pcs[t].FlaggingLast? || (s.pcs[t].Combining? && s.pcs[t].phase.Flagging?) {
      var r := s.pcs[t].r;
      NotDoneYet(s, t);
      assert DoRun(s, t, o).reqs[r].done;
    }
  }

  lemma NotDoneYet(s: State, t: nat)
    requires Inv(s) && t < |s.pcs| && (s.pcs[t].Combining? || s.pcs[t].FlaggingLast?)
    ensures s.pcs[t].r < |s.reqs| && !s.reqs[s.pcs[t].r].done
  {
    assert Local(s, t, s.pcs[t]);
  }

  /** Where a thread's own step leads it. */
  lemma OwnPc(s: State, t: nat, o: Outcome)
    requires Inv(s) && CanStep(s, Run(t, o))
    ensures
      var pc, s' := s.pcs[t], Step(s, Run(t, o));
      t < |s'.pcs| &&
      var pc' := s'.pcs[t];
      match pc
      case Linking(_) => pc'.Waiting? || pc'.Returned?
      case Waiting(_) => pc'.Waiting? || pc'.Returned? || (pc'.Combining? && pc'.r == t)
      case Combining(r, _, _, phase) =>
        if phase.Flagging? then pc'.Combining? && pc'.r == r + 1
        else (pc'.Combining? && pc'.r == r) || (phase.Closing? && pc' == FlaggingLast(r)) || (phase.HandingOver? && pc' == Returned)
      case _ => pc' == Returned
  {
    hide NextWait, MutexAfter, DoCombine, Inv;
    if s.pcs[t].Combining? { OwnCombiningPc(s, t, o); }
  }

  lemma OwnCombiningPc(s: State, t: nat, o: Outcome)
    requires Inv(s) && |s.reqs| == |s.pcs| && Enabled(s, t, o) && s.pcs[t].Combining?
    ensures
      var s', r, phase := DoCombine(s, t, o), s.pcs[t].r, s.pcs[t].phase;
      t < |s'.pcs| &&
      var pc' := s'.pcs[t];
      if phase.Flagging? then pc'.Combining? && pc'.r == r + 1
      else (pc'.Combining? && pc'.r == r) || (phase.Closing? && pc' == FlaggingLast(r)) || (phase.HandingOver? && pc' == Returned)
  {
    hide NeedPeek, AfterWake, DoAdvance;
    match s.pcs[t].phase
    case Closing => OwnAdvancedPc(s, t);
    case Flagging(_) => OwnAdvancedPc(s, t);
    case Exhausted => OwnAdvancedPc(s, t);
    case HandingOver => OwnAdvancedPc(s, t);
    case WakingUp(_, _) =>
      hide DoCombine;
      OwnWakingPc(s, t, o);
    case _ => hide Inv;
  }

  lemma OwnWakingPc(s: State, t: nat, o: Outcome)
    requires |s.reqs| == |s.pcs| && Enabled(s, t, o) && s.pcs[t].Combining? && s.pcs[t].phase.WakingUp?
    ensures var s' := DoCombine(s, t, o); t < |s'.pcs| && s'.pcs[t].Combining? && s'.pcs[t].r == s.pcs[t].r
  {
    hide AfterWake, DoAdvance, NeedPeek, WakeAll;
    if s.pcs[t].phase.wake == Broadcast { assert WakeAll(s.pcs)[t] == s.pcs[t]; }
  }

  lemma OwnAdvancedPc(s: State, t: nat)
    requires Inv(s) && |s.reqs| == |s.pcs| && t < |s.pcs| && s.pcs[t].Combining? && s.pcs[t].r < |s.reqs|
    ensures
      var s', r, phase := DoAdvance(s, t), s.pcs[t].r, s.pcs[t].phase;
      t < |s'.pcs| &&
      var pc' := s'.pcs[t];
      if phase.Flagging? then pc'.Combining? && pc'.r == r + 1
      else (pc'.Combining? && pc'.r == r) || (phase.Closing? && pc' == FlaggingLast(r)) || (phase.HandingOver? && pc' == Returned)
  {
    assert Local(s, t, s.pcs[t]);
  }

  lemma SpentStep(s: State, a: Action, t: nat, n: nat)
    requires Inv(s) && AllBudgeted(s) && CanStep(s, a) && Spent(s, t, n)
    ensures Spent(Step(s, a), t, n + if Flags(s, a, t) then 1 else 0)
  {
    ActAround(s, a);
    if a.Run? && a.t == t {
      SpentSoFar(s, t, n);
      OwnPc(s, t, a.o);
      FlagsAt(s, t, a.o);
      hide Inv, Flags, Step, CanStep, Budgeted, KeepsRequests, PassedUpTo;
      var s' := Step(s, a);
      var more := if Flags(s, a, t) then 1 else 0;
      PassedLater(s, s', t, n);
      if more == 1 { PassedLater(s, s', t, n + 1); }
    } else {
      hide Inv, Step, CanStep, Budgeted, KeepsRequests, PassedUpTo;
      if t < |s.pcs| && s.pcs[t].Returned? { PassedLater(s, Step(s, a), t, n); }
      if t == |s.pcs| && a.Arrive? { Arrived(s, a.blocking); }
    }
  }

  lemma Arrived(s: State, blocking: bool)
    requires |s.reqs| == |s.pcs|
    ensures var pc := DoArrive(s, blocking).pcs[|s.pcs|]; pc.Linking? || (pc.Combining? && pc.r == |s.pcs|)
  {
  }

  lemma {:induction false} ScheduleSpent(blockingRing: bool, actions: seq<Action>, t: nat)
    requires Schedule(blockingRing, actions)
    ensures Spent(After(blockingRing, actions), t, FlagsBy(blockingRing, actions, t))
    decreases |actions|
  {
    hide Spent, Flags, Inv, Step, CanStep, AllBudgeted;
    if actions == [] {
      NobodySpent(blockingRing, t);
    } else {
      var before := actions[..|actions| - 1];
      ScheduleSpent(blockingRing, before, t);
      ScheduleInv(blockingRing, before);
      ScheduleBudgeted(blockingRing, before);
      SpentStep(After(blockingRing, before), actions[|actions| - 1], t, FlagsBy(blockingRing, before, t));
    }
  }

  lemma NobodySpent(blockingRing: bool, t: nat)
    ensures Spent(Init(blockingRing), t, 0)
  {
  }

  // ---- Main results.

  /** A combiner serves nobody for too long: in every schedule, if one of its candidates is a request whose caller waits,
      the thread flags no more requests than come before this one, its own among them.  The first candidate comes after
      128 requests. */
  lemma ServesAtMost(blockingRing: bool, actions: seq<Action>, t: nat, k: nat)
    requires Schedule(blockingRing, actions)
    requires var s := After(blockingRing, actions); t + Limit(k) < |s.reqs| && s.reqs[t + Limit(k)].blocking
    ensures FlagsBy(blockingRing, actions, t) <= Limit(k)
    ensures Limit(0) == 128 && Limit(k + 1) == Limit(k) + Quota(k) / 2 + 1
  {
    NextLimit(k);
    hide Inv, FlagsBy, AllBudgeted, Spent, PassedUpTo, Limit, Quota, Step, CanStep;
    var s, n := After(blockingRing, actions), FlagsBy(blockingRing, actions, t);
    ScheduleSpent(blockingRing, actions, t);
    ScheduleBudgeted(blockingRing, actions);
    ScheduleInv(blockingRing, actions);
    SizesAgree(s);
    EachBudgeted(s, t);
    SpentSoFar(s, t, n);
    NotPassed(s, t, n, k);
  }

  lemma NextLimit(k: nat)
    ensures Limit(0) == 128 && Limit(k + 1) == Limit(k) + Quota(k) / 2 + 1
  {
  }

  lemma EachBudgeted(s: State, t: nat)
    requires AllBudgeted(s) && t < |s.pcs|
    ensures Budgeted(s, t, s.pcs[t])
  {
  }

  lemma NotPassed(s: State, t: nat, n: nat, k: nat)
    requires PassedUpTo(s, t, n) && !Passed(s, t, k)
    ensures n <= Limit(k)
  {
    hide Limit;
  }

  /** The role is handed over only to a request of a waiting caller that has just failed in a ring created to block, or
      that is the first candidate able to take it and has not been tried yet. */
  lemma HandsOverExactly(s: State, t: nat, o: Outcome, x: nat)
    requires Reachable(s) && CanStep(s, Run(t, o)) && x < |s.reqs|
    requires !s.reqs[x].combiner && x < |DoRun(s, t, o).reqs| && DoRun(s, t, o).reqs[x].combiner
    ensures t < x && s.reqs[x].blocking
    ensures
      || (s.blockingRing && s.reqs[x].rc == Again)
      || (s.reqs[x].rc == InProgress && exists k: nat :: x == t + Limit(k) && AllPassed(s, t, k))
  {
    ReachableBudgeted(s);
    Appoints(s, t, o, x);
    hide Limit, Quota, AllPassed;
    assert Local(s, t, s.pcs[t]);
    assert Budgeted(s, t, s.pcs[t]);
    var k: nat :| Toward(s, t, s.pcs[t], k) && AllPassed(s, t, k);
  }

  /** No thread executes a request at or behind its first candidate that can take the role. */
  lemma ExecutesUpToCandidate(s: State, t: nat, o: Outcome)
    requires Reachable(s) && CanStep(s, Run(t, o)) && DoRun(s, t, o).log != s.log
    ensures s.pcs[t].Combining? && t <= s.pcs[t].r && DoRun(s, t, o).log == s.log + [s.pcs[t].r]
    ensures forall k: nat {:trigger Passed(s, t, k)} :: t + Limit(k) <= s.pcs[t].r ==> Passed(s, t, k)
  {
    ReachableBudgeted(s);
    Executes(s, t, o);
    hide Limit, Quota, AllPassed;
    assert Local(s, t, s.pcs[t]);
    assert Budgeted(s, t, s.pcs[t]);
    var k: nat :| Toward(s, t, s.pcs[t], k) && AllPassed(s, t, k);
    FewPassed(s, t, s.pcs[t].r - t + 1, k);
  }

  lemma ReachableBudgeted(s: State)
    requires Reachable(s)
    ensures Inv(s) && AllBudgeted(s)
  {
    hide Inv, AllBudgeted;
    var blockingRing, actions :| Schedule(blockingRing, actions) && After(blockingRing, actions) == s;
    ScheduleInv(blockingRing, actions);
    ScheduleBudgeted(blockingRing, actions);
  }

  lemma Appoints(s: State, t: nat, o: Outcome, x: nat)
    requires |s.reqs| == |s.pcs| && Enabled(s, t, o) && x < |s.reqs|
    requires !s.reqs[x].combiner && x < |DoRun(s, t, o).reqs| && DoRun(s, t, o).reqs[x].combiner
    ensures s.pcs[t].Combining? && s.pcs[t].phase.HandingOver? && s.pcs[t].r == x
  {
    hide NextWait, MutexAfter, DoCombine;
    match s.pcs[t]
    case Combining(r, _, _, _) =>
      if x != r { CombinerWritesItsRequest(s, t, o, x); } else { AppointsOwn(s, t, o); }
    case _ =>
  }

  lemma AppointsOwn(s: State, t: nat, o: Outcome)
    requires |s.reqs| == |s.pcs| && Enabled(s, t, o) && s.pcs[t].Combining?
    ensures var r := s.pcs[t].r;
            |DoCombine(s, t, o).reqs| == |s.reqs|
            && (s.pcs[t].phase.HandingOver? || DoCombine(s, t, o).reqs[r].combiner == s.reqs[r].combiner)
  {
    hide DoWake;
    match s.pcs[t].phase
    case Executing =>
    case WakingUp(_, _) => WakerKeepsRequests(s, t);
    case Flagging(_) =>
    case HandingOver =>
    case _ => SameReqs(s, t, o);
  }

  lemma SameReqs(s: State, t: nat, o: Outcome)
    requires |s.reqs| == |s.pcs| && Enabled(s, t, o) && s.pcs[t].Combining?
    requires !s.pcs[t].phase.Executing? && !s.pcs[t].phase.WakingUp? && !s.pcs[t].phase.Flagging? && !s.pcs[t].phase.HandingOver?
    ensures DoCombine(s, t, o).reqs == s.reqs && DoCombine(s, t, o).log == s.log
  {
    hide NeedPeek;
  }

  lemma Executes(s: State, t: nat, o: Outcome)
    requires |s.reqs| == |s.pcs| && Enabled(s, t, o) && DoRun(s, t, o).log != s.log
    ensures s.pcs[t].Combining? && s.pcs[t].phase.Executing? && DoRun(s, t, o).log == s.log + [s.pcs[t].r]
  {
    hide NextWait, MutexAfter, DoCombine;
    if s.pcs[t].Combining? { CombinerLogs(s, t, o); }
  }

  lemma CombinerLogs(s: State, t: nat, o: Outcome)
    requires |s.reqs| == |s.pcs| && Enabled(s, t, o) && s.pcs[t].Combining?
    ensures DoCombine(s, t, o).log == if s.pcs[t].phase.Executing? then s.log + [s.pcs[t].r] else s.log
  {
    match s.pcs[t].phase
    case Executing =>
    case WakingUp(_, _) => hide AfterWake;
    case Flagging(_) =>
    case HandingOver =>
    case _ => SameReqs(s, t, o);
  }
}
