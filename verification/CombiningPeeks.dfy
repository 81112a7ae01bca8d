/** What a combiner that peeks knows of the monitor: who set it, and whether it can be left over from another request. */
module CombiningPeeks {
  import opened CombiningQueue
  import opened CombiningInvariant

  predicate InExec(q: State, t: nat) {
    t < |q.pcs| && q.pcs[t].Combining? && q.pcs[t].phase.Executing?
  }

  /** The combiner polls the monitored element, or is about to try again if there is none. */
  predicate AtPeek(q: State, t: nat) {
    t < |q.pcs| && q.pcs[t].Combining? && q.pcs[t].phase.Peeking?
  }

  /** The combiner's own request is blocking and has just failed, and the combiner waits before it tries again. */
  predicate Peeks(q: State, t: nat) {
    AtPeek(q, t) || (t < |q.pcs| && q.pcs[t].Combining? && q.pcs[t].phase.Announcing?)
  }

  /** The oldest request has just failed, and nothing has been executed since. */
  predicate Refused(q: State) {
    && q.role.Held? && q.role.holder < |q.pcs| && q.pcs[q.role.holder].Combining? && q.first < |q.reqs|
    && (Peeks(q, q.role.holder) || (q.pcs[q.role.holder].phase.Deciding? && q.reqs[q.first].rc == Again))
  }

  /** Where the combiner of the oldest request stands when it was this request that `setter` set the monitor for.  `oldest` says that
      the monitored element is still the next one to get, `taken` that exec_op has just taken it. */
  predicate OwnWatch(q: State, c: nat, setter: nat, oldest: bool, taken: bool)
    requires c < |q.pcs| && q.first < |q.reqs|
  {
    q.pcs[c].Combining? &&
    match q.pcs[c].phase
    case Executing => c == q.first && (oldest || taken)
    case Deciding => if q.reqs[q.first].rc == Again then oldest && setter == c else c == q.first
    case WakingUp(_, _) => true
    case Announcing => oldest
    case Peeking => oldest
    case HandingOver => oldest
    case Exhausted => false
    case _ => setter != q.first && !q.reqs[q.first].blocking && q.reqs[q.first].rc == Again
  }

  /** In a ring created to block, a monitor was set for the oldest request, or it is left over from an earlier one that
      failed, was not blocking, and was combined by another thread than its own. */
  predicate WatchOk(q: State, watcher: nat, setter: nat, oldest: bool, taken: bool) {
    q.monitoring ==>
      && watcher <= q.first && watcher < |q.reqs|
      && if watcher < q.first then setter != watcher && !q.reqs[watcher].blocking && q.reqs[watcher].rc == Again
         else match q.role
              case Nobody => false
              case Given(_) => oldest
              case Held(c) => c < |q.pcs| && OwnWatch(q, c, setter, oldest, taken)
  }

  /** What every step but one of exec_op leaves: no monitor is set, and who is refused was so before. */
  predicate Steady(q: State, q': State) {
    && q'.blockingRing == q.blockingRing && (q'.monitoring ==> q.monitoring)
    && (Refused(q') ==> Refused(q) && q'.first == q.first && q'.monitoring == q.monitoring)
  }

  // ---- Arrivals.

  lemma ArriveSteady(q: State, blocking: bool)
    requires Inv(q)
    ensures Steady(q, DoArrive(q, blocking))
  {
    assert Global(q);
    hide Inv;
  }

  lemma ArriveWatch(q: State, blocking: bool, watcher: nat, setter: nat, oldest: bool, taken: bool)
    requires Inv(q) && WatchOk(q, watcher, setter, oldest, taken)
    ensures WatchOk(DoArrive(q, blocking), watcher, setter, oldest, taken)
  {
    assert Global(q);
    if q.role.Held? { assert q.role.holder < |q.reqs|; }
    hide Inv;
  }

  // ---- Steps of threads that do not combine.

  /** Only the combiner writes the monitor, return codes and what it combines. */
  predicate Bystander(q: State, t: nat, q': State) {
    && q'.blockingRing == q.blockingRing && q'.monitoring == q.monitoring && q'.first == q.first
    && |q'.reqs| == |q.reqs| && |q'.pcs| == |q.pcs|
    && (q.role.Held? ==> q'.role == q.role && q.role.holder != t && q.role.holder < |q.pcs|
                         && q'.pcs[q.role.holder] == q.pcs[q.role.holder])
    && (q'.role == q.role || (q.role == Given(t) && q'.role == Held(t) && t == q.first && InExec(q', t)))
    && (forall i {:trigger q'.reqs[i]} :: 0 <= i < |q.reqs| ==>
          q'.reqs[i].rc == q.reqs[i].rc && q'.reqs[i].blocking == q.reqs[i].blocking)
  }

  lemma LinkAside(q: State, t: nat)
    requires |q.reqs| == |q.pcs| && t < |q.pcs| && q.pcs[t].Linking? && q.pcs[t].prev < |q.reqs|
    requires q.role.Held? ==> q.role.holder != t && q.role.holder < |q.pcs|
    ensures Bystander(q, t, DoLink(q, t))
  {
  }

  lemma WaitAside(q: State, t: nat)
    requires |q.reqs| == |q.pcs| && t < |q.pcs| && q.pcs[t].Waiting?
    requires q.role.Held? ==> q.role.holder != t && q.role.holder < |q.pcs|
    requires q.reqs[t].combiner ==> q.role == Given(t) && t == q.first
    ensures Bystander(q, t, DoWait(q, t))
  {
  }

  lemma FlagAside(q: State, t: nat)
    requires |q.reqs| == |q.pcs| && t < |q.pcs| && q.pcs[t].FlaggingLast? && q.pcs[t].r < |q.reqs|
    requires q.role.Held? ==> q.role.holder != t && q.role.holder < |q.pcs|
    ensures Bystander(q, t, DoFlagLast(q, t))
  {
  }

  lemma NotHolder(q: State, t: nat)
    requires Inv(q) && t < |q.pcs| && !q.pcs[t].Combining?
    ensures |q.reqs| == |q.pcs| && (q.role.Held? ==> q.role.holder != t && q.role.holder < |q.pcs|)
    ensures q.pcs[t].Linking? ==> q.pcs[t].prev < |q.reqs|
    ensures q.pcs[t].FlaggingLast? ==> q.pcs[t].r < |q.reqs|
    ensures q.pcs[t].Waiting? && q.reqs[t].combiner ==> q.role == Given(t) && t == q.first
  {
    assert Local(q, t, q.pcs[t]) && Global(q);
  }

  lemma OtherStep(q: State, t: nat, o: Outcome)
    requires Inv(q) && |q.reqs| == |q.pcs| && Enabled(q, t, o) && !q.pcs[t].Combining?
    ensures Bystander(q, t, DoRun(q, t, o))
  {
    NotHolder(q, t);
    hide Inv, Bystander, DoLink, DoWait, DoFlagLast;
    match q.pcs[t]
    case Linking(_) => LinkAside(q, t);
    case Waiting(_) => WaitAside(q, t);
    case FlaggingLast(_) => FlagAside(q, t);
    case Returned => assert false;
  }

  lemma OtherSteady(q: State, t: nat, o: Outcome)
    requires Inv(q) && |q.reqs| == |q.pcs| && Enabled(q, t, o) && !q.pcs[t].Combining?
    ensures Steady(q, DoRun(q, t, o))
  {
    OtherStep(q, t, o);
    hide Inv, DoRun, Enabled;
  }

  lemma OtherWatch(q: State, t: nat, o: Outcome, watcher: nat, setter: nat, oldest: bool, taken: bool)
    requires Inv(q) && |q.reqs| == |q.pcs| && Enabled(q, t, o) && !q.pcs[t].Combining? && WatchOk(q, watcher, setter, oldest, taken)
    ensures WatchOk(DoRun(q, t, o), watcher, setter, oldest, taken)
  {
    OtherStep(q, t, o);
    hide Inv, DoRun, Enabled;
  }

  // ---- Steps of the combiner.

  lemma CombinerHolds(q: State, t: nat)
    requires Inv(q) && t < |q.pcs| && q.pcs[t].Combining?
    ensures |q.reqs| == |q.pcs| && q.role == Held(t) && q.pcs[t].r == q.first < |q.reqs|
    ensures q.pcs[t].phase.Announcing? || q.pcs[t].phase.Peeking? || q.pcs[t].phase.WakingUp? ==> t == q.first
    ensures q.pcs[t].phase.HandingOver? ==> t < q.first
  {
    assert Local(q, t, q.pcs[t]);
  }

  /** A combiner that is about to execute, to nap or to follow the links of the queue. */
  predicate Turning(p: Phase) {
    p.Deciding? || p.Announcing? || p.Peeking? || p.ReadingNext? || p.AwaitingLink?
  }

  lemma TurnShape(q: State, t: nat, o: Outcome)
    requires |q.reqs| == |q.pcs| && Enabled(q, t, o) && q.pcs[t].Combining? && Turning(q.pcs[t].phase)
    ensures var q' := DoRun(q, t, o);
            && q'.blockingRing == q.blockingRing && q'.monitoring == q.monitoring && q'.first == q.first && q'.role == q.role
            && q'.reqs == q.reqs && |q'.pcs| == |q.pcs|
            && q'.pcs[t].Combining? && q'.pcs[t].r == q.pcs[t].r && TurnsTo(q, t, q'.pcs[t].phase)
  {
  }

  /** Where these phases lead. */
  predicate TurnsTo(q: State, t: nat, p: Phase)
    requires t < |q.pcs| && q.pcs[t].Combining? && q.pcs[t].r < |q.reqs|
  {
    match q.pcs[t].phase
    case Deciding =>
      if NeedPeek(q.reqs[q.pcs[t].r]) then p == (if q.pcs[t].r != t then HandingOver else Announcing)
      else p == if q.pcs[t].r == t then WakingUp(Proceed, Test) else ReadingNext
    case Announcing => p == Peeking
    case Peeking => if q.monitoring then p.WakingUp? else p == Executing
    case _ => p.Closing? || p.Flagging? || p.AwaitingLink?
  }

  lemma WakeShape(q: State, t: nat, o: Outcome)
    requires |q.reqs| == |q.pcs| && Enabled(q, t, o) && q.pcs[t].Combining? && q.pcs[t].phase.WakingUp?
    ensures var q' := DoRun(q, t, o);
            && q'.blockingRing == q.blockingRing && q'.first == q.first && q'.role == q.role && q'.reqs == q.reqs
            && |q'.pcs| == |q.pcs| && q'.pcs[t].Combining?
            && (if q'.pcs[t].phase.WakingUp? then q'.monitoring == q.monitoring
                else !q'.monitoring && (q'.pcs[t].phase.Executing? || q'.pcs[t].phase.ReadingNext?))
  {
  }

  lemma AdvanceShape(q: State, t: nat, o: Outcome)
    requires |q.reqs| == |q.pcs| && Enabled(q, t, o) && q.pcs[t].Combining? && q.pcs[t].r == q.first && q.role == Held(t)
    requires !Turning(q.pcs[t].phase) && !q.pcs[t].phase.Executing? && !q.pcs[t].phase.WakingUp?
    ensures var q', p := DoRun(q, t, o), q.pcs[t].phase;
            && q'.blockingRing == q.blockingRing && q'.monitoring == q.monitoring
            && |q'.reqs| == |q.reqs| && |q'.pcs| == |q.pcs|
            && (forall i {:trigger q'.reqs[i]} :: 0 <= i < |q.reqs| ==>
                  q'.reqs[i].rc == q.reqs[i].rc && q'.reqs[i].blocking == q.reqs[i].blocking)
            && (if p.HandingOver? then q'.first == q.first && q'.role == Given(q.first)
                else if p.Flagging? then
                  q'.first == q.first + 1 && q'.role == q.role && q'.pcs[t].Combining?
                  && (q'.pcs[t].phase.Executing? || q'.pcs[t].phase.Exhausted?)
                else if p.Exhausted? then
                  q'.first == q.first && q'.role == q.role && q'.pcs[t].Combining?
                  && (q'.pcs[t].phase.Executing? || q'.pcs[t].phase.HandingOver?)
                else if q'.pcs[t].Combining? then
                  q'.first == q.first && q'.role == q.role && q'.pcs[t].phase.AwaitingLink?
                else q'.first == |q.reqs| && q'.role == Nobody)
  {
    assert DoRun(q, t, o) == DoAdvance(q, t);
    hide DoRun, DoCombine;
    match q.pcs[t].phase
    case Closing =>
    case Flagging(_) =>
    case Exhausted =>
    case HandingOver =>
  }

  lemma CombinerSteady(q: State, t: nat, o: Outcome)
    requires Inv(q) && |q.reqs| == |q.pcs| && Enabled(q, t, o) && q.pcs[t].Combining? && !InExec(q, t)
    ensures Steady(q, DoRun(q, t, o))
  {
    CombinerHolds(q, t);
    hide Inv, DoRun, Enabled;
    if Turning(q.pcs[t].phase) { TurnShape(q, t, o); }
    else if q.pcs[t].phase.WakingUp? { WakeShape(q, t, o); }
    else { AdvanceShape(q, t, o); }
  }

  lemma CombinerWatch(q: State, t: nat, o: Outcome, watcher: nat, setter: nat, oldest: bool, taken: bool)
    requires Inv(q) && |q.reqs| == |q.pcs| && q.blockingRing && Enabled(q, t, o) && q.pcs[t].Combining? && !InExec(q, t)
    requires WatchOk(q, watcher, setter, oldest, taken)
    ensures WatchOk(DoRun(q, t, o), watcher, setter, oldest, taken)
  {
    CombinerHolds(q, t);
    hide Inv, DoRun, Enabled;
    if Turning(q.pcs[t].phase) { TurnShape(q, t, o); }
    else if q.pcs[t].phase.WakingUp? { WakeShape(q, t, o); }
    else { AdvanceShape(q, t, o); }
  }

  // ---- Any step but one of exec_op.

  lemma RunSteady(q: State, t: nat, o: Outcome)
    requires Inv(q) && |q.reqs| == |q.pcs| && Enabled(q, t, o) && !InExec(q, t)
    ensures Steady(q, DoRun(q, t, o))
  {
    hide Inv, DoRun, Steady;
    if q.pcs[t].Combining? { CombinerSteady(q, t, o); } else { OtherSteady(q, t, o); }
  }

  lemma RunWatch(q: State, t: nat, o: Outcome, watcher: nat, setter: nat, oldest: bool, taken: bool)
    requires Inv(q) && |q.reqs| == |q.pcs| && q.blockingRing && Enabled(q, t, o) && !InExec(q, t)
    requires WatchOk(q, watcher, setter, oldest, taken)
    ensures WatchOk(DoRun(q, t, o), watcher, setter, oldest, taken)
  {
    hide Inv, DoRun, WatchOk;
    if q.pcs[t].Combining? { CombinerWatch(q, t, o, watcher, setter, oldest, taken); } else { OtherWatch(q, t, o, watcher, setter, oldest, taken); }
  }

  /** The end of exec_op. */
  lemma ExecRefuses(q: State, t: nat, o: Outcome)
    requires Inv(q) && |q.reqs| == |q.pcs| && Enabled(q, t, o) && InExec(q, t)
    ensures var q' := DoRun(q, t, o);
            && (Refused(q') ==> o.again) && q'.first == q.first && q'.blockingRing == q.blockingRing
            && q'.monitoring == (q.monitoring || (o.again && o.monitor))
  {
    CombinerHolds(q, t);
    hide Inv;
  }

  /** An exec_op that sets the monitor. */
  lemma ExecSetsWatch(q: State, t: nat, o: Outcome)
    requires Inv(q) && |q.reqs| == |q.pcs| && q.blockingRing && Enabled(q, t, o) && InExec(q, t) && o.again && o.monitor
    ensures WatchOk(DoRun(q, t, o), q.first, t, true, false)
  {
    CombinerHolds(q, t);
    hide Inv;
  }

  /** An exec_op that sets no monitor leaves one that was set before as it is; if it was set by the same request, this has
      been served now. */
  lemma ExecKeepsWatch(q: State, t: nat, o: Outcome, watcher: nat, setter: nat, oldest: bool, taken: bool)
    requires Inv(q) && |q.reqs| == |q.pcs| && q.blockingRing && Enabled(q, t, o) && InExec(q, t) && !(o.again && o.monitor)
    requires WatchOk(q, watcher, setter, oldest, taken) && (q.monitoring && watcher == q.first ==> !o.again)
    ensures WatchOk(DoRun(q, t, o), watcher, setter, oldest, false)
  {
    CombinerHolds(q, t);
    hide Inv;
  }

  /** While exec_op is under way, the element monitored for its request may be taken, and only that. */
  lemma WatchInExec(q: State, t: nat, watcher: nat, setter: nat, oldest: bool, taken: bool, oldest': bool, taken': bool)
    requires Inv(q) && InExec(q, t) && WatchOk(q, watcher, setter, oldest, taken) && (oldest || taken ==> oldest' || taken')
    ensures WatchOk(q, watcher, setter, oldest', taken')
    ensures q.monitoring ==> watcher < q.first || (watcher == q.first && (oldest || taken))
  {
    CombinerHolds(q, t);
    hide Inv;
  }
}
