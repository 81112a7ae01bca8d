/** Concrete schedules that show what the queue does not guarantee, and when served threads sleep. */
module CombiningScenarios {
  import opened Options
  import opened CombiningQueue
  import opened CombiningInvariant
  import opened CombiningTheorems

  const OK := Outcome(false, false, false)
  const EAGAIN := Outcome(true, false, false)

  /** The schedule goes on with `a`. */
  lemma Act(blockingRing: bool, actions: seq<Action>, a: Action) returns (next: seq<Action>)
    requires Schedule(blockingRing, actions) && CanStep(After(blockingRing, actions), a)
    ensures next == actions + [a] && Schedule(blockingRing, next)
    ensures After(blockingRing, next) == Step(After(blockingRing, actions), a)
  {
    next := actions + [a];
    assert next[..|next| - 1] == actions;
  }

  /** No sleeper's operation is run: a combiner that lets others sleep is busy with its own. */
  lemma SleepersAreNotServed(s: State, t: nat, o: Outcome, u: nat)
    requires Inv(s) && Enabled(s, t, o) && u < |s.pcs| && t != u && Asleep(s.pcs[u])
    ensures u < |DoRun(s, t, o).reqs| && DoRun(s, t, o).reqs[u].rc == s.reqs[u].rc
  {
    SleeperIsBystander(s, t, u);
    hide Inv, DoCombine, DoRun;
    if s.pcs[t].Combining? {
      assert DoRun(s, t, o) == DoCombine(s, t, o) by { RunsCombiner(s, t, o); }
      CombinerWritesItsRequest(s, t, o, u);
    } else {
      OthersKeepCodes(s, t, o, u);
    }
  }

  lemma RunsCombiner(s: State, t: nat, o: Outcome)
    requires |s.reqs| == |s.pcs| && Enabled(s, t, o) && s.pcs[t].Combining?
    ensures DoRun(s, t, o) == DoCombine(s, t, o)
  {
  }

  /** A combiner that lets others sleep works on its own request. */
  lemma SleeperIsBystander(s: State, t: nat, u: nat)
    requires Inv(s) && t < |s.pcs| && u < |s.pcs| && t != u && Asleep(s.pcs[u])
    ensures |s.reqs| == |s.pcs| && (s.pcs[t].Combining? ==> s.pcs[t].r == t)
  {
    assert Local(s, t, s.pcs[t]) && Local(s, u, s.pcs[u]);
  }

  /** Step `at` of the schedule sends thread `x` to sleep although its operation has already run: it reads is_nap_time
      at the third doze test and finds it nap time again.  From there on it has not been woken. */
  ghost predicate SleepsServedSince(blockingRing: bool, actions: seq<Action>, x: nat, at: nat)
    requires Schedule(blockingRing, actions)
  {
    && at < |actions| && actions[at].Run? && actions[at].t == x
    && Schedule(blockingRing, actions[..at])
    && var s := After(blockingRing, actions[..at]);
    && x < |s.pcs| == |s.reqs| && s.pcs[x] == Waiting(DozeNap(3)) && s.nap && s.reqs[x].rc != InProgress
    && forall j :: at < j <= |actions| ==> AsleepAfter(blockingRing, actions, j, x)
  }

  ghost predicate AsleepAfter(blockingRing: bool, actions: seq<Action>, j: nat, x: nat) {
    j <= |actions| && Schedule(blockingRing, actions[..j]) &&
    var s := After(blockingRing, actions[..j]); x < |s.pcs| && Asleep(s.pcs[x])
  }

  /** In every schedule, a thread sleeps with its operation already run if and only if it was served between its read
      of the return code and its read of is_nap_time, and has slept since.  Nobody is served in its sleep, so it is
      the order of the two reads alone that lets served threads sleep. */
  lemma ServedSleepers(blockingRing: bool, actions: seq<Action>, x: nat)
    requires Schedule(blockingRing, actions)
    ensures var s := After(blockingRing, actions);
            x < |s.pcs| == |s.reqs| && Asleep(s.pcs[x]) && s.reqs[x].rc != InProgress
            <==> exists at :: SleepsServedSince(blockingRing, actions, x, at)
  {
    var s := After(blockingRing, actions);
    ScheduleInv(blockingRing, actions);
    if x < |s.pcs| && Asleep(s.pcs[x]) && s.reqs[x].rc != InProgress {
      var at := FellAsleepServed(blockingRing, actions, x);
    }
    if at: nat :| SleepsServedSince(blockingRing, actions, x, at) {
      StaysServed(blockingRing, actions, x, at);
    }
  }

  lemma {:induction false} FellAsleepServed(blockingRing: bool, actions: seq<Action>, x: nat) returns (at: nat)
    requires Schedule(blockingRing, actions)
    requires var s := After(blockingRing, actions);
             x < |s.pcs| == |s.reqs| && Asleep(s.pcs[x]) && s.reqs[x].rc != InProgress
    ensures SleepsServedSince(blockingRing, actions, x, at)
    decreases |actions|
  {
    hide Step, Inv, CanStep;
    if actions == [] {
      assert false;
    } else {
      var n := |actions| - 1;
      var before, a := actions[..n], actions[n];
      var s := After(blockingRing, before);
      ScheduleInv(blockingRing, before);
      assert actions[..n + 1] == actions;
      SleepStep(s, a, x);
      if x < |s.pcs| && Asleep(s.pcs[x]) {
        at := FellAsleepServed(blockingRing, before, x);
        SleepsOn(blockingRing, actions, x, at);
      } else {
        at := n;
      }
    }
  }

  /** A sleep that goes on through the last step of the schedule. */
  lemma SleepsOn(blockingRing: bool, actions: seq<Action>, x: nat, at: nat)
    requires actions != [] && Schedule(blockingRing, actions)
    requires SleepsServedSince(blockingRing, actions[..|actions| - 1], x, at)
    requires var s := After(blockingRing, actions); x < |s.pcs| && Asleep(s.pcs[x])
    ensures SleepsServedSince(blockingRing, actions, x, at)
  {
    hide Step, CanStep, Schedule, After;
    var before := actions[..|actions| - 1];
    assert actions[..|actions|] == actions;
    assert forall j :: 0 <= j <= |before| ==> before[..j] == actions[..j];
    forall j | at < j <= |actions| ensures AsleepAfter(blockingRing, actions, j, x) {
      if j < |actions| { assert AsleepAfter(blockingRing, before, j, x); }
    }
  }

  /** Who sleeps after a step has slept before it, unserved or not, or has just read is_nap_time. */
  lemma SleepStep(s: State, a: Action, x: nat)
    requires Inv(s) && CanStep(s, a) && x < |Step(s, a).pcs| && Asleep(Step(s, a).pcs[x])
    ensures x < |s.pcs| == |s.reqs| && x < |Step(s, a).reqs| && Step(s, a).reqs[x].rc == s.reqs[x].rc
    ensures !Asleep(s.pcs[x]) ==> a.Run? && a.t == x && s.pcs[x] == Waiting(DozeNap(3)) && s.nap
  {
    match a
    case Arrive(_) =>
    case Run(t, o) =>
      assert Local(s, t, s.pcs[t]);
      SleepRun(s, t, o, x);
  }

  lemma SleepRun(s: State, t: nat, o: Outcome, x: nat)
    requires |s.reqs| == |s.pcs| && Inv(s) && Enabled(s, t, o) && Local(s, t, s.pcs[t])
    requires x < |DoRun(s, t, o).pcs| && Asleep(DoRun(s, t, o).pcs[x])
    ensures x < |s.pcs| && x < |DoRun(s, t, o).reqs| && DoRun(s, t, o).reqs[x].rc == s.reqs[x].rc
    ensures !Asleep(s.pcs[x]) ==> t == x && s.pcs[x] == Waiting(DozeNap(3)) && s.nap
  {
    hide Inv, Local, DoLink, DoWait, DoCombine, DoFlagLast;
    match s.pcs[t]
    case Linking(_) => LinkerSleeps(s, t, x);
    case Waiting(_) => WaiterSleeps(s, t, x);
    case Combining(_, _, _, _) =>
      CombinerSleeps(s, t, o, x);
      SleepersAreNotServed(s, t, o, x);
    case FlaggingLast(_) => LinkerSleeps(s, t, x);
    case Returned =>
  }

  lemma LinkerSleeps(s: State, t: nat, x: nat)
    requires |s.reqs| == |s.pcs| && t < |s.pcs|
    requires s.pcs[t].Linking? ==> s.pcs[t].prev < |s.reqs|
    requires s.pcs[t].FlaggingLast? ==> s.pcs[t].r < |s.reqs|
    ensures s.pcs[t].Linking? && x < |DoLink(s, t).pcs| && Asleep(DoLink(s, t).pcs[x]) ==>
              x < |s.pcs| == |DoLink(s, t).reqs| && Asleep(s.pcs[x]) && DoLink(s, t).reqs[x].rc == s.reqs[x].rc
    ensures s.pcs[t].FlaggingLast? && x < |DoFlagLast(s, t).pcs| && Asleep(DoFlagLast(s, t).pcs[x]) ==>
              x < |s.pcs| == |DoFlagLast(s, t).reqs| && Asleep(s.pcs[x]) && DoFlagLast(s, t).reqs[x].rc == s.reqs[x].rc
  {
  }

  /** A waiting thread goes to sleep from the third doze test only. */
  lemma WaiterSleeps(s: State, t: nat, x: nat)
    requires |s.reqs| == |s.pcs| && t < |s.pcs| && s.pcs[t].Waiting? && Local(s, t, s.pcs[t])
    requires x < |DoWait(s, t).pcs| && Asleep(DoWait(s, t).pcs[x])
    ensures DoWait(s, t).reqs == s.reqs && |DoWait(s, t).pcs| == |s.pcs|
    ensures !Asleep(s.pcs[x]) ==> t == x && s.pcs[x] == Waiting(DozeNap(3)) && s.nap
  {
    assert s.pcs[t].wait.DozeNap? ==> 1 <= s.pcs[t].wait.check <= 3;
    hide Local;
  }

  /** A combiner sends nobody to sleep. */
  lemma CombinerSleeps(s: State, t: nat, o: Outcome, x: nat)
    requires |s.reqs| == |s.pcs| && Enabled(s, t, o) && s.pcs[t].Combining?
    requires x < |DoCombine(s, t, o).pcs| && Asleep(DoCombine(s, t, o).pcs[x])
    ensures |DoCombine(s, t, o).pcs| == |s.pcs| && x != t && s.pcs[x] == DoCombine(s, t, o).pcs[x]
  {
    hide DoAdvance, DoWake;
    match s.pcs[t].phase
    case Executing => PeekerSleeps(s, t, o);
    case Deciding => PeekerSleeps(s, t, o);
    case Announcing => PeekerSleeps(s, t, o);
    case Peeking => PeekerSleeps(s, t, o);
    case WakingUp(_, _) => WakerSleeps(s, t, x);
    case ReadingNext => FollowerSleeps(s, t, o);
    case AwaitingLink => FollowerSleeps(s, t, o);
    case _ => AdvanceSleeps(s, t, x);
  }

  lemma PeekerSleeps(s: State, t: nat, o: Outcome)
    requires |s.reqs| == |s.pcs| && Enabled(s, t, o) && s.pcs[t].Combining?
    requires s.pcs[t].phase.Executing? || s.pcs[t].phase.Deciding? || s.pcs[t].phase.Announcing? || s.pcs[t].phase.Peeking?
    ensures var pcs := DoCombine(s, t, o).pcs; |pcs| == |s.pcs| && pcs[t].Combining? && pcs == s.pcs[t := pcs[t]]
  {
  }

  lemma FollowerSleeps(s: State, t: nat, o: Outcome)
    requires |s.reqs| == |s.pcs| && Enabled(s, t, o) && s.pcs[t].Combining?
    requires s.pcs[t].phase.ReadingNext? || s.pcs[t].phase.AwaitingLink?
    ensures var pcs := DoCombine(s, t, o).pcs; |pcs| == |s.pcs| && pcs[t].Combining? && pcs == s.pcs[t := pcs[t]]
  {
  }

  lemma WakerSleeps(s: State, t: nat, x: nat)
    requires |s.reqs| == |s.pcs| && t < |s.pcs| && s.pcs[t].Combining? && s.pcs[t].phase.WakingUp?
    requires x < |DoWake(s, t).pcs| && Asleep(DoWake(s, t).pcs[x])
    ensures |DoWake(s, t).pcs| == |s.pcs| && x != t && s.pcs[x] == DoWake(s, t).pcs[x]
  {
  }

  lemma AdvanceSleeps(s: State, t: nat, x: nat)
    requires |s.reqs| == |s.pcs| && t < |s.pcs| && s.pcs[t].Combining? && s.pcs[t].r < |s.reqs|
    requires x < |DoAdvance(s, t).pcs| && Asleep(DoAdvance(s, t).pcs[x])
    ensures |DoAdvance(s, t).pcs| == |s.pcs| && x != t && s.pcs[x] == DoAdvance(s, t).pcs[x]
  {
    var pcs := DoAdvance(s, t).pcs;
    match s.pcs[t].phase
    case Closing => assert pcs == s.pcs[t := pcs[t]];
    case Flagging(_) => assert pcs == s.pcs[t := pcs[t]];
    case Exhausted => assert pcs == s.pcs[t := pcs[t]];
    case HandingOver => assert pcs == s.pcs[t := pcs[t]];
    case _ => assert DoAdvance(s, t) == s;
  }

  lemma {:induction false} StaysServed(blockingRing: bool, actions: seq<Action>, x: nat, at: nat)
    requires Schedule(blockingRing, actions) && SleepsServedSince(blockingRing, actions, x, at)
    ensures var s := After(blockingRing, actions);
            x < |s.pcs| == |s.reqs| && Asleep(s.pcs[x]) && s.reqs[x].rc != InProgress
    decreases |actions|
  {
    hide Step, Inv, CanStep;
    var n := |actions| - 1;
    var before, a := actions[..n], actions[n];
    var s := After(blockingRing, before);
    ScheduleInv(blockingRing, before);
    assert actions[..n + 1] == actions;
    assert AsleepAfter(blockingRing, actions, n + 1, x);
    ScheduleInv(blockingRing, actions);
    SizesAgree(After(blockingRing, actions));
    SleepStep(s, a, x);
    if at < n {
      assert forall j :: 0 <= j <= n ==> before[..j] == actions[..j];
      forall j | at < j <= n ensures AsleepAfter(blockingRing, before, j, x) {
        assert AsleepAfter(blockingRing, actions, j, x);
      }
      StaysServed(blockingRing, before, x, at);
    }
  }

  ghost predicate LeadsTo(actions: seq<Action>, s: State) {
    Schedule(true, actions) && After(true, actions) == s
  }

  /** Between closing the queue and setting the DONE flag a combiner can be overtaken: request 1 is DONE although
      request 0, which was swapped in and executed before it, is not. */
  lemma FlagsMayBeOutOfOrder() returns (actions: seq<Action>)
    ensures Schedule(false, actions)
    ensures var s := After(false, actions); |s.reqs| == 2 && s.reqs[1].done && !s.reqs[0].done && s.log == [0, 1]
  {
    actions := [];
    actions := Act(false, actions, Arrive(false));
    actions := Act(false, actions, Run(0, OK));
    actions := Act(false, actions, Run(0, OK));
    actions := Act(false, actions, Run(0, OK));
    actions := Act(false, actions, Arrive(false));
    actions := Act(false, actions, Run(1, OK));
    actions := Act(false, actions, Run(1, OK));
    actions := Act(false, actions, Run(1, OK));
    actions := Act(false, actions, Run(1, OK));
  }

  // The schedule of DoneThreadMayFallAsleep, in scenes.  Request 0 finds no room and polls; request 1 passes two
  // doze tests; request 0 is served and ends nap time with a broadcast; request 1 takes the mutex, reads its
  // return code and finds it is not served yet; the combiner serves it and flags it DONE; request 2 finds no
  // room and announces the next nap; request 1 reads is_nap_time and goes to sleep.

  function Frame1(): State {
    State(true, Some(0),
          [Req(true, None, Again, false, false)],
          [Combining(0, 127, 128, Peeking)],
          true, false, None, 0, Held(0), map[], false, [0])
  }

  lemma Scene1(actions: seq<Action>) returns (next: seq<Action>)
    requires LeadsTo(actions, Init(true))
    ensures LeadsTo(next, Frame1())
  {
    next := Act(true, actions, Arrive(true));
    next := Act(true, next, Run(0, EAGAIN));
    next := Act(true, next, Run(0, OK));
    next := Act(true, next, Run(0, OK));
  }

  function Frame2(): State {
    State(true, Some(1),
          [Req(true, Some(1), Again, false, false),
           Req(true, None, InProgress, false, false)],
          [Combining(0, 127, 128, Peeking), Waiting(DozeRc(1))],
          true, false, None, 0, Held(0), map[], false, [0])
  }

  lemma Scene2(actions: seq<Action>) returns (next: seq<Action>)
    requires LeadsTo(actions, Frame1())
    ensures LeadsTo(next, Frame2())
  {
    next := ArrivalScene(actions);
    next := Act(true, next, Run(1, OK));
    next := Act(true, next, Run(1, OK));
  }

  function ArrivalFrame(): State {
    Frame2().(pcs := [Combining(0, 127, 128, Peeking), Waiting(Polling)])
  }

  lemma ArrivalScene(actions: seq<Action>) returns (next: seq<Action>)
    requires LeadsTo(actions, Frame1())
    ensures LeadsTo(next, ArrivalFrame())
  {
    next := Act(true, actions, Arrive(true));
    next := Act(true, next, Run(1, OK));
  }

  function Frame3(): State {
    State(true, Some(1),
          [Req(true, Some(1), Again, false, false),
           Req(true, None, InProgress, false, false)],
          [Combining(0, 127, 128, Peeking), Waiting(Locking)],
          true, false, None, 0, Held(0), map[], false, [0])
  }

  lemma Scene3(actions: seq<Action>) returns (next: seq<Action>)
    requires LeadsTo(actions, Frame2())
    ensures LeadsTo(next, Frame3())
  {
    next := Act(true, actions, Run(1, OK));
    next := Act(true, next, Run(1, OK));
    next := Act(true, next, Run(1, OK));
    next := Act(true, next, Run(1, OK));
  }

  function Frame4(): State {
    State(true, Some(1),
          [Req(true, Some(1), Served, false, false),
           Req(true, None, InProgress, false, false)],
          [Combining(0, 127, 128, WakingUp(Proceed, Clear)), Waiting(Locking)],
          true, false, None, 0, Held(0), map[], false, [0, 0])
  }

  lemma Scene4(actions: seq<Action>) returns (next: seq<Action>)
    requires LeadsTo(actions, Frame3())
    ensures LeadsTo(next, Frame4())
  {
    next := Act(true, actions, Run(0, OK));
    next := Act(true, next, Run(0, OK));
    next := Act(true, next, Run(0, OK));
    next := Act(true, next, Run(0, OK));
  }

  function Frame5(): State {
    State(true, Some(1),
          [Req(true, Some(1), Served, false, false),
           Req(true, None, InProgress, false, false)],
          [Combining(0, 127, 128, ReadingNext), Waiting(Locking)],
          false, false, None, 0, Held(0), map[], false, [0, 0])
  }

  lemma Scene5(actions: seq<Action>) returns (next: seq<Action>)
    requires LeadsTo(actions, Frame4())
    ensures LeadsTo(next, Frame5())
  {
    next := Act(true, actions, Run(0, OK));
    next := Act(true, next, Run(0, OK));
    next := Act(true, next, Run(0, OK));
    next := Act(true, next, Run(0, OK));
  }

  function Frame6(): State {
    State(true, Some(1),
          [Req(true, Some(1), Served, false, true),
           Req(true, None, InProgress, false, false)],
          [Combining(1, 126, 128, Executing), Waiting(DozeNap(3))],
          false, false, Some(1), 1, Held(0), map[], false, [0, 0])
  }

  lemma Scene6(actions: seq<Action>) returns (next: seq<Action>)
    requires LeadsTo(actions, Frame5())
    ensures LeadsTo(next, Frame6())
  {
    next := Act(true, actions, Run(1, OK));
    next := Act(true, next, Run(1, OK));
    next := Act(true, next, Run(0, OK));
    next := Act(true, next, Run(0, OK));
  }

  function Frame7(): State {
    State(true, Some(1),
          [Req(true, Some(1), Served, false, true),
           Req(true, None, Served, false, false)],
          [Combining(1, 126, 128, Closing), Waiting(DozeNap(3))],
          false, false, Some(1), 1, Held(0), map[], false, [0, 0, 1])
  }

  lemma Scene7(actions: seq<Action>) returns (next: seq<Action>)
    requires LeadsTo(actions, Frame6())
    ensures LeadsTo(next, Frame7())
  {
    next := Act(true, actions, Run(0, OK));
    next := Act(true, next, Run(0, OK));
    next := Act(true, next, Run(0, OK));
  }

  function Frame8(): State {
    State(true, None,
          [Req(true, Some(1), Served, false, true),
           Req(true, None, Served, false, true)],
          [Returned, Waiting(DozeNap(3))],
          false, false, Some(1), 2, Nobody, map[], false, [0, 0, 1])
  }

  lemma Scene8(actions: seq<Action>) returns (next: seq<Action>)
    requires LeadsTo(actions, Frame7())
    ensures LeadsTo(next, Frame8())
  {
    next := Act(true, actions, Run(0, OK));
    next := Act(true, next, Run(0, OK));
  }

  function Frame9(): State {
    State(true, Some(2),
          [Req(true, Some(1), Served, false, true),
           Req(true, None, Served, false, true),
           Req(true, None, Again, false, false)],
          [Returned, Waiting(DozeNap(3)), Combining(2, 127, 128, Peeking)],
          true, false, Some(1), 2, Held(2), map[], false, [0, 0, 1, 2])
  }

  lemma Scene9(actions: seq<Action>) returns (next: seq<Action>)
    requires LeadsTo(actions, Frame8())
    ensures LeadsTo(next, Frame9())
  {
    next := Act(true, actions, Arrive(true));
    next := Act(true, next, Run(2, EAGAIN));
    next := Act(true, next, Run(2, OK));
    next := Act(true, next, Run(2, OK));
  }

  function Frame10(): State {
    State(true, Some(2),
          [Req(true, Some(1), Served, false, true),
           Req(true, None, Served, false, true),
           Req(true, None, Again, false, false)],
          [Returned, Waiting(Sleeping), Combining(2, 127, 128, Peeking)],
          true, false, None, 2, Held(2), map[], false, [0, 0, 1, 2])
  }

  lemma Scene10(actions: seq<Action>) returns (next: seq<Action>)
    requires LeadsTo(actions, Frame9())
    ensures LeadsTo(next, Frame10())
  {
    next := Act(true, actions, Run(1, OK));
    next := Act(true, next, Run(1, OK));
  }

  /** A caller whose request is already DONE can go to sleep, and then sleeps until some later nap ends. */
  lemma DoneThreadMayFallAsleep() returns (actions: seq<Action>)
    ensures Schedule(true, actions)
    ensures var s := After(true, actions);
            |s.reqs| == |s.pcs| > 1 && s.reqs[1].done && s.pcs[1] == Waiting(Sleeping)
  {
    actions := [];
    actions := Scene1(actions);
    actions := Scene2(actions);
    actions := Scene3(actions);
    actions := Scene4(actions);
    actions := Scene5(actions);
    actions := Scene6(actions);
    actions := Scene7(actions);
    actions := Scene8(actions);
    actions := Scene9(actions);
    actions := Scene10(actions);
  }

  /** A closing combiner can flag a thread that has fallen asleep after it was served: from Frame7 on, thread 0 closes
      the queue behind request 1; request 2 finds no room and announces a nap; thread 1 reads is_nap_time and goes to
      sleep, and only then thread 0 sets the DONE flag of request 1. */
  lemma SleeperMayBeFlagged() returns (actions: seq<Action>)
    ensures Schedule(true, actions) && |actions| > 0 && Schedule(true, actions[..|actions| - 1])
    ensures var s := After(true, actions[..|actions| - 1]);
            |s.reqs| == |s.pcs| > 1 && !s.reqs[1].done && s.pcs[1] == Waiting(Sleeping) && s.pcs[0] == FlaggingLast(1)
    ensures var s := After(true, actions);
            |s.reqs| == |s.pcs| > 1 && s.reqs[1].done && s.pcs[1] == Waiting(Sleeping)
  {
    actions := [];
    actions := Scene1(actions);
    actions := Scene2(actions);
    actions := Scene3(actions);
    actions := Scene4(actions);
    actions := Scene5(actions);
    actions := Scene6(actions);
    actions := Scene7(actions);
    actions := ClosingScene(actions);
    actions := SleepingScene(actions);
    var before := actions;
    actions := Act(true, actions, Run(0, OK));
    assert actions[..|actions| - 1] == before;
  }

  function ClosingFrame(): State {
    State(true, Some(2),
          [Req(true, Some(1), Served, false, true),
           Req(true, None, Served, false, false),
           Req(true, None, Again, false, false)],
          [FlaggingLast(1), Waiting(DozeNap(3)), Combining(2, 127, 128, Deciding)],
          false, false, Some(1), 2, Held(2), map[1 := 0], false, [0, 0, 1, 2])
  }

  lemma ClosingScene(actions: seq<Action>) returns (next: seq<Action>)
    requires LeadsTo(actions, Frame7())
    ensures LeadsTo(next, ClosingFrame())
  {
    next := Act(true, actions, Run(0, OK));
    next := Act(true, next, Arrive(true));
    next := Act(true, next, Run(2, EAGAIN));
  }

  function SleepingFrame(): State {
    State(true, Some(2),
          [Req(true, Some(1), Served, false, true),
           Req(true, None, Served, false, false),
           Req(true, None, Again, false, false)],
          [FlaggingLast(1), Waiting(Sleeping), Combining(2, 127, 128, Peeking)],
          true, false, None, 2, Held(2), map[1 := 0], false, [0, 0, 1, 2])
  }

  lemma SleepingScene(actions: seq<Action>) returns (next: seq<Action>)
    requires LeadsTo(actions, ClosingFrame())
    ensures LeadsTo(next, SleepingFrame())
  {
    next := Act(true, actions, Run(2, OK));
    next := Act(true, next, Run(2, OK));
    next := Act(true, next, Run(1, OK));
    next := Act(true, next, Run(1, OK));
  }
}
