/** Every step of a thread leads somewhere: combiners get on with their request, and callers that are done or appointed
    return or take up the role after a bounded number of their own steps. */
module CombiningProgress {
  import opened Options
  import opened CombiningQueue
  import opened CombiningInvariant
  import opened CombiningTheorems

  /** How far a combiner is from being done with its request. */
  function PhaseRank(phase: Phase): nat {
    match phase
    case Exhausted => 14
    case Executing => 13
    case Deciding => 12
    case Announcing => 11
    case Peeking => 10
    case WakingUp(_, Test) => 9
    case WakingUp(_, Clear) => 8
    case WakingUp(_, Lock) => 7
    case WakingUp(_, Broadcast) => 6
    case WakingUp(_, Unlock) => 5
    case ReadingNext => 4
    case Closing => 3
    case AwaitingLink => 2
    case Flagging(_) => 1
    case HandingOver => 0
  }

  /** The combiner tries its own request again, which is blocking and has failed in a ring created to block. */
  predicate Retries(s: State, t: nat, pc: Pc, pc': Pc) {
    && pc.Combining? && pc'.Combining? && pc.r == pc'.r == t < |s.reqs| && pc'.phase == Executing
    && s.reqs[t].blocking && s.reqs[t].rc == Again && s.blockingRing
  }

  /** The combiner gave the role up, is done with one more request, came closer to that, or tries again. */
  predicate Advances(s: State, t: nat, s': State) {
    t < |s.pcs| && t < |s'.pcs| && s.pcs[t].Combining? &&
    var pc, pc' := s.pcs[t], s'.pcs[t];
    || !pc'.Combining?
    || (pc'.r == pc.r + 1 && s'.first == s.first + 1)
    || (pc'.r == pc.r && PhaseRank(pc'.phase) < PhaseRank(pc.phase))
    || Retries(s, t, pc, pc')
  }

  /** A combiner that takes a step gives the role up, is done with one more request, comes closer to that, or tries its
      own failed request again.  So between two attempts at requests there are at most 15 steps. */
  lemma CombinerAdvances(s: State, t: nat, o: Outcome)
    requires Reachable(s) && CanStep(s, Run(t, o)) && s.pcs[t].Combining?
    ensures Advances(s, t, Step(s, Run(t, o)))
  {
    ReachableInv(s);
    CombinerKnows(s, t);
    hide Inv, Reachable, LocalCombining, DoAdvance, DoWake, DoCombine, Advances;
    match s.pcs[t].phase
    case WakingUp(_, _) => WakerAdvances(s, t, o);
    case Closing => RoleAdvances(s, t, o);
    case Flagging(_) => RoleAdvances(s, t, o);
    case Exhausted => RoleAdvances(s, t, o);
    case HandingOver => RoleAdvances(s, t, o);
    case _ => TurnAdvances(s, t, o);
  }

  lemma CombinerKnows(s: State, t: nat)
    requires Inv(s) && t < |s.pcs| && s.pcs[t].Combining?
    ensures |s.reqs| == |s.pcs| && LocalCombining(s, t, s.pcs[t]) && (NapPoint(s.pcs[t]) ==> s.blockingRing)
  {
    assert Local(s, t, s.pcs[t]);
  }

  lemma WakerAdvances(s: State, t: nat, o: Outcome)
    requires |s.reqs| == |s.pcs| && Enabled(s, t, o) && s.pcs[t].Combining? && s.pcs[t].phase.WakingUp?
    requires LocalCombining(s, t, s.pcs[t]) && s.blockingRing
    ensures Advances(s, t, DoCombine(s, t, o))
  {
  }

  lemma TurnAdvances(s: State, t: nat, o: Outcome)
    requires |s.reqs| == |s.pcs| && Enabled(s, t, o) && s.pcs[t].Combining?
    requires LocalCombining(s, t, s.pcs[t]) && (NapPoint(s.pcs[t]) ==> s.blockingRing)
    requires var phase := s.pcs[t].phase;
             phase.Executing? || phase.Deciding? || phase.Announcing? || phase.Peeking? || phase.ReadingNext? || phase.AwaitingLink?
    ensures Advances(s, t, DoCombine(s, t, o))
  {
  }

  lemma RoleAdvances(s: State, t: nat, o: Outcome)
    requires |s.reqs| == |s.pcs| && Enabled(s, t, o) && s.pcs[t].Combining? && LocalCombining(s, t, s.pcs[t])
    requires var phase := s.pcs[t].phase; phase.Closing? || phase.Flagging? || phase.Exhausted? || phase.HandingOver?
    ensures Advances(s, t, DoCombine(s, t, o))
  {
  }

  /** How many steps a caller takes at most that finds its request DONE. */
  function DoneRank(w: Wait): nat {
    match w
    case Polling => 1
    case Unlocking => 2
    case DozeRc(c) => if c < 3 then 2 else 3
    case CheckingRole => 3
    case Locking => 4
    case Waking => 4
    case Sleeping => 5
    case FallingAsleep => 6
    case DozeNap(c) => if c < 3 then 5 else 7
  }

  /** A blocking caller whose request is DONE returns after at most 7 of its own steps, being woken included. */
  lemma DoneReturns(s: State, t: nat, o: Outcome)
    requires Reachable(s) && CanStep(s, Run(t, o)) && s.pcs[t].Waiting? && s.reqs[t].done
    ensures
      var s' := Step(s, Run(t, o));
      t < |s'.pcs| && (s'.pcs[t] == Returned || (s'.pcs[t].Waiting? && DoneRank(s'.pcs[t].wait) < DoneRank(s.pcs[t].wait)))
  {
    ReachableInv(s);
    assert Local(s, t, s.pcs[t]);
    hide Inv;
    DoneIsFinal(s, t);
    hide MutexAfter, Reachable;
  }

  /** How many steps a caller takes at most that has been given the role. */
  function HeirRank(w: Wait): nat {
    match w
    case CheckingRole => 1
    case Polling => 2
    case Unlocking => 3
    case DozeNap(c) => if c < 3 then 3 else 4
    case DozeRc(c) => if c < 3 then 4 else 5
    case Locking => 6
    case Waking => 6
    case Sleeping => 7
    case FallingAsleep => 8
  }

  /** A caller that has been given the combiner role takes it up after at most 6 of its own steps. */
  lemma HeirTakesRole(s: State, t: nat, o: Outcome)
    requires Reachable(s) && CanStep(s, Run(t, o)) && s.role == Given(t)
    ensures s.pcs[t].Waiting? && !Asleep(s.pcs[t])
    ensures
      var s' := Step(s, Run(t, o));
      t < |s'.pcs|
      && if s.pcs[t].wait == CheckingRole then s'.role == Held(t) && s'.pcs[t].Combining? && s'.pcs[t].r == t
         else s'.role == Given(t) && s'.pcs[t].Waiting? && HeirRank(s'.pcs[t].wait) < HeirRank(s.pcs[t].wait)
  {
    ReachableInv(s);
    assert Local(s, t, s.pcs[t]);
    hide Inv, MutexAfter, LocalCombining;
  }

  /** Nap time only begins when the combiner's own blocking request has failed.  It only ends when this request needs no
      more waiting, or when an element was monitored for it, whose status has changed: while a combiner without a monitor
      keeps trying, the others sleep on. */
  lemma NapTimes(s: State, t: nat, o: Outcome)
    requires Reachable(s) && CanStep(s, Run(t, o)) && Step(s, Run(t, o)).nap != s.nap
    ensures s.pcs[t].Combining? && s.pcs[t].r == t && t < |s.reqs|
    ensures if s.nap then s.monitoring || !NeedPeek(s.reqs[t]) else NeedPeek(s.reqs[t])
  {
    ReachableInv(s);
    hide Inv, Reachable, LocalCombining, DoCombine, DoWait, NeedPeek;
    if s.pcs[t].Combining? {
      CombinerKnows(s, t);
      CombinerNaps(s, t, o);
    } else {
      OthersNap(s, t, o);
    }
  }

  lemma OthersNap(s: State, t: nat, o: Outcome)
    requires |s.reqs| == |s.pcs| && Enabled(s, t, o) && !s.pcs[t].Combining?
    ensures DoRun(s, t, o).nap == s.nap
  {
    hide NextWait, MutexAfter;
  }

  lemma CombinerNaps(s: State, t: nat, o: Outcome)
    requires |s.reqs| == |s.pcs| && Enabled(s, t, o) && s.pcs[t].Combining? && LocalCombining(s, t, s.pcs[t])
    requires DoCombine(s, t, o).nap != s.nap && (NapPoint(s.pcs[t]) ==> s.blockingRing)
    ensures s.pcs[t].r == t && if s.nap then s.monitoring || !NeedPeek(s.reqs[t]) else NeedPeek(s.reqs[t])
  {
    hide DoAdvance, AfterWake;
    AdvanceKeepsNap(s, t);
  }

  lemma AdvanceKeepsNap(s: State, t: nat)
    requires |s.reqs| == |s.pcs| && t < |s.pcs| && s.pcs[t].Combining? && s.pcs[t].r < |s.reqs|
    ensures DoAdvance(s, t).nap == s.nap
  {
    match s.pcs[t].phase
    case Closing =>
    case Flagging(_) =>
    case Exhausted =>
    case HandingOver =>
    case _ => assert DoAdvance(s, t) == s;
  }
}
