/** When a combiner that peeks goes on, why it peeks, and what a monitor that is left over does. */
module RingPeekTheorems {
  import opened Modular
  import opened CombiningPeeks
  import opened RingQueues
  import opened RingPeeks
  import Q = CombiningQueue
  import QI = CombiningInvariant
  import QT = CombiningTheorems
  import M = RingMachine
  import I = RingInvariant
  import R = RingRuns
  import F = RingFifo
  import C = RingReclaim
  import L = RingLayout
  import T = RingQueueTheorems

  // ---- Main results on the put side.

  lemma PeekerHolds(q: Q.State, t: nat)
    requires QI.Inv(q) && AtPeek(q, t)
    ensures q.role == Q.Held(t) && t == q.first < |q.reqs| == |q.pcs| && q.pcs[t].r == t && Refused(q)
  {
    CombinerHolds(q, t);
  }

  /** A combiner that peeks for room monitors the oldest element that is not reclaimed, which it has no room behind, and
      goes on exactly if this element is done.  If nothing is left, its request is too large for an empty ring. */
  lemma PutPeeks(s: State, t: nat)
    requires Reachable(s) && AtPeek(s.put, t)
    ensures Sound(s) && t == s.put.first && HeldUp(s, s.putMonitor) && s.put.monitoring
    ensures s.putMonitor == s.ring.tail2
    ensures s.hist.reaped < |s.hist.elems| ==> (CanAct(s, RunPut(t)) <==> s.hist.elems[s.hist.reaped].status == L.DONE)
    ensures s.hist.reaped == |s.hist.elems| ==> Asked(s) + L.HEADER_SIZE + 1 > s.ring.size
  {
    ReachableWatching(s);
    QueueInv(s.put, s.puts);
    PeekerHolds(s.put, t);
    ChainOf(s);
    PutMoves(s, t);
    hide Inv, M.AlignUp, L.HeaderAt, L.HasFlag, Reachable, Refused, QI.Inv, CanAct, GetWatch;
    if s.hist.reaped < |s.hist.elems| { StatusSeen(s, s.hist.reaped, s.putMonitor); }
  }

  lemma ChainOf(s: State)
    requires Inv(s)
    ensures I.Shape(s.hist) && s.ring.size > 0
    ensures s.ring.tail2 == Wrap(s.hist.starts[s.hist.reaped], s.ring.size)
    ensures !s.hist.doneOnly ==> s.hist.reaped <= s.hist.got
  {
    hide QueueOk, InStep, PutHistory, GetHistory, Fitting, Untouched;
  }

  /** What is polled at the offset of an element that is not reclaimed is its status. */
  lemma StatusSeen(s: State, i: nat, monitor: nat)
    requires Inv(s) && I.Shape(s.hist) && s.hist.reaped <= i < |s.hist.elems| && s.ring.size > 0
    requires monitor == Wrap(s.hist.starts[i], s.ring.size)
    ensures L.HasFlag(L.HeaderAt(s.ring.mem, monitor).status, L.DONE) <==> s.hist.elems[i].status == L.DONE
    ensures L.HasFlag(L.HeaderAt(s.ring.mem, monitor).status, L.READY) <==> s.hist.elems[i].status == L.READY
  {
    I.LoadHeader(s.ring, s.hist, i);
    assert I.ElemOk(s.ring, s.hist.elems[i]);
    I.StatusFlags(s.hist.elems[i].status);
    hide QueueOk, InStep, PutHistory, GetHistory, Fitting, Untouched, L.HeaderAt;
  }

  /** The put side never blocks itself: while a put is enqueued, the thread that the combiner role waits for is awake and
      has a step, unless it peeks for room and the element that holds it up is not done. */
  lemma PutSideMoves(s: State)
    requires Reachable(s) && s.put.first < |s.put.reqs|
    ensures |s.put.reqs| == |s.put.pcs| && (s.put.role.Held? ==> s.put.role.holder < |s.put.reqs|)
    ensures var t := QT.Responsible(s.put);
            && t < |s.put.pcs| && s.put.pcs[t] != Q.Waiting(Q.Sleeping)
            && (CanAct(s, RunPut(t)) <==> (AtPeek(s.put, t) ==> PutReady(s)))
  {
    hide Inv, Reachable, QT.Reachable, R.Reachable, QT.Responsible, PutWatch, GetWatch, CanAct, PutReady, HeldUp, Sound;
    T.PartsAreReachable(s);
    QT.NoDeadlock(s.put, Q.Outcome(false, false, PutReady(s)));
    ReachableWatching(s);
    ResponsibleInRange(s.put);
    var t := QT.Responsible(s.put);
    if AtPeek(s.put, t) { PutPeeks(s, t); }
    PutMoves(s, t);
  }

  /** On either side a step of the queue is all it takes. */
  lemma PutMoves(s: State, t: nat)
    requires Inv(s) && |s.put.reqs| == |s.put.pcs|
    ensures CanAct(s, RunPut(t)) <==> Q.Enabled(s.put, t, Q.Outcome(false, false, PutReady(s)))
  {
    hide I.Inv, QueueOk, InStep, PutHistory, GetHistory, Fitting, Untouched, L.HeaderAt, L.HasFlag, Q.Enabled;
    EnabledInRange(s.put, t, Q.Outcome(false, false, PutReady(s)));
  }

  lemma GetMoves(s: State, t: nat)
    requires Inv(s) && |s.get.reqs| == |s.get.pcs|
    ensures CanAct(s, RunGet(t)) <==> Q.Enabled(s.get, t, Q.Outcome(false, false, GetReady(s)))
  {
    hide I.Inv, QueueOk, InStep, PutHistory, GetHistory, Fitting, Untouched, L.HeaderAt, L.HasFlag, Q.Enabled;
    assert s.hist.doneOnly ==> |s.get.pcs| == 0;
    EnabledInRange(s.get, t, Q.Outcome(false, false, GetReady(s)));
  }

  lemma EnabledInRange(q: Q.State, t: nat, o: Q.Outcome)
    requires |q.reqs| == |q.pcs|
    ensures Q.Enabled(q, t, o) ==> t < |q.pcs| && (q.pcs[t].Combining? ==> q.pcs[t].r < |q.reqs|)
  {
  }

  lemma ResponsibleInRange(q: Q.State)
    requires QT.Reachable(q) && q.first < |q.reqs| == |q.pcs| && (q.role.Held? ==> q.role.holder < |q.reqs|)
    ensures QT.Responsible(q) < |q.pcs|
  {
    QT.NoDeadlock(q, Q.Outcome(false, false, true));
    hide QT.Reachable, QT.Responsible;
  }

  // ---- What put it there: looking back over the run.

  /** The put of the oldest request has been through all its reaping, or it has failed and is still refused. */
  ghost predicate Refusing(s: State) {
    C.LastChecks(s.ring.put) || (s.putEnded && s.ring.putResult.Full?) || Refused(s.put)
  }

  /** The same put at the same place of the ring. */
  ghost predicate SamePlace(s: State, s': State) {
    && s'.put.first == s.put.first && s'.hist.reaped == s.hist.reaped && s'.hist.starts == s.hist.starts
    && |s'.hist.elems| == |s.hist.elems|
  }

  /** The reaping has ended, with nothing left or at an element that is not done. */
  ghost predicate AtObstacle(r: M.Ring, h: I.Hist) {
    C.LastChecks(r.put) && (h.reaped < |h.elems| ==> h.elems[h.reaped].status != L.DONE)
  }

  lemma StepRefusing(s: State, t: nat)
    requires Watching(s) && CanAct(s, RunPut(t)) && InExec(s.put, t) && !s.putEnded && Refusing(PutExecuted(s, t))
    ensures (Refusing(s) && SamePlace(s, PutExecuted(s, t))) || AtObstacle(PutExecuted(s, t).ring, PutExecuted(s, t).hist)
  {
    hide I.Inv, QueueOk, M.AlignUp, Q.Enabled, R.Act, R.HistAct, PutHistory, GetHistory, Untouched, F.Extends, GetWatch, Refused;
    ExecRequest(s.put, t, s.puts);
    NotRefused(s.put, t);
    RequestFits(s, t);
    PutSteppedInv(s, t);
    SoundInv(PutExecuted(s, t));
    RingRefuses(s.ring, s.hist, PutAction(s, t));
    RingLastChecks(s.ring, s.hist, PutAction(s, t));
  }

  lemma RingLastChecks(r: M.Ring, h: I.Hist, a: R.Action)
    requires I.Inv(r, h) && R.CanAct(r, h, a) && (a.BeginPut? || a.StepPut?) && r.align > 0 && r.size > 0 && I.Shape(h)
    ensures var r', h' := R.Act(r, h, a), R.HistAct(r, h, a);
            C.LastChecks(r'.put) ==>
              || (C.LastChecks(r.put) && h'.reaped == h.reaped && h'.starts == h.starts && |h'.elems| == |h.elems|)
              || AtObstacle(r', h')
  {
    hide I.Inv, M.FreeSpace, M.AlignUp, L.HeaderAt, L.Store, Wrap;
    if a.StepPut? {
      var r', h' := R.Act(r, h, a), R.HistAct(r, h, a);
      C.NextPut(r, h, a);
      if C.LastChecks(r'.put) && r.put.SweepLoad? { C.SweepStops(r, h, r', h'); }
      if C.LastChecks(r'.put) && C.LastChecks(r.put) { C.HeldUp(r, h, a, r', h'); }
    }
  }

  lemma AnswerRefusing(s: State, t: nat)
    requires Watching(s) && CanAct(s, RunPut(t)) && InExec(s.put, t) && s.putEnded && Refusing(PutExecuted(s, t))
    ensures Refusing(s) && SamePlace(s, PutExecuted(s, t))
  {
    hide I.Inv, QueueOk, Q.Enabled, Q.DoRun, R.CanAct, PutHistory, GetHistory, Untouched, Fitting, Refused, QI.Inv, PutWatch, GetWatch;
    var o := if s.ring.putResult.Placed? then Q.Outcome(false, false, false) else Q.Outcome(true, true, false);
    EnabledExec(s.put, t, Q.Outcome(false, false, PutReady(s)), o);
    QueueInv(s.put, s.puts);
    ExecRefuses(s.put, t, o);
  }

  /** Steps that leave the put side of the ring alone. */
  lemma QueueRefusing(s: State, s': State)
    requires s'.ring == s.ring && s'.hist == s.hist && s'.putEnded == s.putEnded && Steady(s.put, s'.put) && Refusing(s')
    requires s.ring.put != M.PutIdle || s.putEnded ==> s'.put.first == s.put.first
    ensures Refusing(s) && SamePlace(s, s')
  {
    hide Refused;
  }

  lemma RunRefusing(s: State, t: nat)
    requires Inv(s) && CanAct(s, RunPut(t)) && !InExec(s.put, t) && Refusing(Act(s, RunPut(t)))
    ensures Refusing(s) && SamePlace(s, Act(s, RunPut(t)))
  {
    hide I.Inv, QI.Inv, FirstUnserved, AreServed, Q.Enabled, Q.DoRun, PutHistory, GetHistory, Untouched, Fitting, Busy, Steady, Refusing,
         PutEnd, GetEnd, PutReady;
    var o := Q.Outcome(false, false, PutReady(s));
    RunSteady(s.put, t, o);
    if s.ring.put != M.PutIdle || s.putEnded { RunBusy(s.put, t, o); }
    QueueRefusing(s, Act(s, RunPut(t)));
  }

  lemma NewRefusing(s: State, blocking: bool, usize: nat)
    requires Inv(s) && CanAct(s, NewPut(blocking, usize)) && Refusing(Act(s, NewPut(blocking, usize)))
    ensures Refusing(s) && SamePlace(s, Act(s, NewPut(blocking, usize)))
  {
    hide I.Inv, QI.Inv, FirstUnserved, AreServed, Q.DoArrive, PutHistory, GetHistory, Untouched, Fitting, Busy, Steady, Refusing,
         PutEnd, GetEnd, M.AlignUp;
    ArriveSteady(s.put, blocking);
    ArriveQueue(s.put, blocking, s.puts);
    QueueRefusing(s, Act(s, NewPut(blocking, usize)));
  }

  lemma AsideRefusing(s: State, s': State)
    requires SamePutView(s, s') && s'.put == s.put && s'.putEnded == s.putEnded && Refusing(s')
    ensures Refusing(s) && SamePlace(s, s')
  {
    hide Refused;
  }

  lemma ActRefusing(s: State, a: Action)
    requires Watching(s) && CanAct(s, a) && Refusing(Act(s, a))
    ensures (Refusing(s) && SamePlace(s, Act(s, a))) || AtObstacle(Act(s, a).ring, Act(s, a).hist)
  {
    hide Inv, PutWatch, GetWatch, PutExecuted, GetExecuted, Sound, SamePutView, Refusing, SamePlace, AtObstacle, R.Act, R.HistAct, R.CanAct,
         Q.Enabled, Q.DoRun;
    match a
    case NewPut(blocking, usize) => NewRefusing(s, blocking, usize);
    case RunPut(t) =>
      if !InExec(s.put, t) { RunRefusing(s, t); } else if s.putEnded { AnswerRefusing(s, t); } else { StepRefusing(s, t); }
    case NewGet(_) => GetRefusing(s, Act(s, a));
    case RunGet(t) =>
      GetAside(s, t);
      GetKeepsPut(s, t);
      AsideRefusing(s, Act(s, a));
    case Owner(o) =>
      OwnerAside(s, o);
      AsideRefusing(s, Act(s, a));
  }

  lemma GetRefusing(s: State, s': State)
    requires s' == s.(get := s'.get) && Refusing(s')
    ensures Refusing(s) && SamePlace(s, s')
  {
    hide Refused;
  }

  /** A put that is refused at the end of a run has been so all the time, or the run has a first state since. */
  lemma {:induction false} LookBack(s: State, actions: seq<Action>, s': State) returns (found: bool, j: nat, s1: State)
    requires Watching(s) && Runs(s, actions, s') && Refusing(s')
    ensures !found ==> Refusing(s) && SamePlace(s, s')
    ensures found ==> j <= |actions| && Runs(s, actions[..j], s1) && AtObstacle(s1.ring, s1.hist) && SamePlace(s1, s')
    decreases |actions|
  {
    hide Act, CanAct, Watching, Refusing, AtObstacle;
    found, j, s1 := false, 0, s;
    if actions != [] {
      var a := actions[0];
      StepWatching(s, a);
      found, j, s1 := LookBack(Act(s, a), actions[1..], s');
      if found {
        assert actions[..j + 1][1..] == actions[1..][..j];
        j := j + 1;
      } else {
        ActRefusing(s, a);
        if AtObstacle(Act(s, a).ring, Act(s, a).hist) {
          assert Runs(Act(s, a), actions[..1][1..], Act(s, a));
          found, j, s1 := true, 1, Act(s, a);
        }
      }
    }
  }

  lemma StepWatching(s: State, a: Action)
    requires Watching(s) && CanAct(s, a)
    ensures Watching(Act(s, a))
  {
    hide Inv, PutWatch, GetWatch, Act, CanAct;
    ActInv(s, a);
    ActPutWatch(s, a);
    ActGetWatch(s, a);
  }

  /** Nobody peeks for room without need: in every run that ends with a combiner peeking, its put found at some moment, with
      everything reclaimed before it, the element that it monitors not done, or nothing left in the ring and its request
      too large for it; and since then nothing was reclaimed or added. */
  lemma PutPeeksForReason(s0: State, actions: seq<Action>, s: State, t: nat) returns (j: nat, s1: State)
    requires Created(s0) && Runs(s0, actions, s) && AtPeek(s.put, t)
    ensures j <= |actions| && Runs(s0, actions[..j], s1) && Sound(s) && t == s.put.first == s1.put.first < |s.sizes|
    ensures s1.hist.reaped == s.hist.reaped && s1.hist.starts == s.hist.starts && |s1.hist.elems| == |s.hist.elems|
    ensures if s.hist.reaped < |s.hist.elems| then
              s.putMonitor == Wrap(s.hist.starts[s.hist.reaped], s.ring.size) && s1.hist.elems[s.hist.reaped].status != L.DONE
            else Asked(s) + L.HEADER_SIZE + 1 > s.ring.size
  {
    hide Inv, Created, Runs, QI.Inv, M.AlignUp, PutWatch, GetWatch;
    assert Reachable(s);
    PutPeeks(s, t);
    CreatedWatching(s0);
    RunWatching(s0, actions, s);
    PeeksRefused(s, t);
    NotRefusing(s0);
    var found;
    found, j, s1 := LookBack(s0, actions, s);
  }

  lemma PeeksRefused(s: State, t: nat)
    requires Inv(s) && AtPeek(s.put, t)
    ensures Refusing(s)
  {
    QueueInv(s.put, s.puts);
    PeekerHolds(s.put, t);
    hide Inv, QI.Inv;
  }

  lemma NotRefusing(s: State)
    requires Created(s)
    ensures !Refusing(s)
  {
    CreatedRing(s.ring, s.hist);
    hide R.Created;
  }

  // ---- Main results on the get side.

  /** What a combiner that peeks for an element waits for.  The monitored element is the oldest one that was not got if
      and only if the combiner's own get has found it not ready.  If its get has found the ring empty, it monitors
      nothing and tries again, or the monitor is left over: it was set for an earlier request that was not blocking and
      failed, and its element has been taken since. */
  lemma GetPeeks(s: State, t: nat)
    requires Reachable(s) && AtPeek(s.get, t)
    ensures Sound(s) && t == s.get.first && (s.ring.getResult.NotReady? || s.ring.getResult.Empty?)
    ensures s.get.monitoring ==> Monitored(s) && s.watched <= s.hist.got
    ensures s.ring.getResult.NotReady? <==> s.get.monitoring && s.watched == s.hist.got
    ensures s.ring.getResult.NotReady? ==> s.watcher == t
    ensures s.get.monitoring && s.ring.getResult.Empty? ==>
              && s.watched < s.hist.got && s.watcher < t < |s.get.reqs| && s.setter != s.watcher
              && !s.get.reqs[s.watcher].blocking && s.get.reqs[s.watcher].rc == Q.Again
    ensures CanAct(s, RunGet(t)) <==>
              s.get.monitoring ==>
                if s.hist.reaped <= s.watched < |s.hist.elems| then s.hist.elems[s.watched].status == L.READY else GetReady(s)
  {
    ReachableWatching(s);
    GetPeeker(s, t);
    ChainOf(s);
    GetMoves(s, t);
    SoundInv(s);
    hide Inv, L.HeaderAt, L.HasFlag, Reachable, Refused, QI.Inv, CanAct, PutWatch, Sound;
    if s.get.monitoring && s.hist.reaped <= s.watched < |s.hist.elems| { StatusSeen(s, s.watched, s.getMonitor); }
  }

  /** Peeking needs a ring that was created to block, and gets. */
  lemma GetPeeker(s: State, t: nat)
    requires Inv(s) && AtPeek(s.get, t)
    ensures s.get.blockingRing && !s.hist.doneOnly && QI.Inv(s.get)
    ensures s.get.role == Q.Held(t) && t == s.get.first < |s.get.reqs| == |s.get.pcs| && s.get.pcs[t].r == t && Refused(s.get)
  {
    QueueInv(s.get, s.gets);
    PeekerHolds(s.get, t);
    BlockingPeeks(s.get, t);
    hide I.Inv, QueueOk, QI.Inv, Refused;
  }

  lemma BlockingPeeks(q: Q.State, t: nat)
    requires QI.Inv(q) && AtPeek(q, t)
    ensures q.blockingRing
  {
    assert QI.Local(q, t, q.pcs[t]);
  }

  lemma GetSideMoves(s: State)
    requires Reachable(s) && s.get.first < |s.get.reqs|
    ensures |s.get.reqs| == |s.get.pcs| && (s.get.role.Held? ==> s.get.role.holder < |s.get.reqs|)
    ensures var t := QT.Responsible(s.get);
            && t < |s.get.pcs| && s.get.pcs[t] != Q.Waiting(Q.Sleeping)
            && (CanAct(s, RunGet(t)) <==> (AtPeek(s.get, t) && s.get.monitoring ==> GetReady(s)))
  {
    hide Inv, Reachable, QT.Reachable, R.Reachable, QT.Responsible, PutWatch, GetWatch, CanAct, GetReady, Sound;
    T.PartsAreReachable(s);
    QT.NoDeadlock(s.get, Q.Outcome(false, false, GetReady(s)));
    ReachableWatching(s);
    ResponsibleInRange(s.get);
    GetMoves(s, QT.Responsible(s.get));
  }

  /** If all gets are blocking, no monitor is ever left over: a combiner that peeks goes on if it monitors nothing, or if
      the oldest element that was not got is ready. */
  lemma BlockingGetsWaitRightly(s: State, t: nat)
    requires Reachable(s) && AtPeek(s.get, t)
    requires forall i {:trigger s.get.reqs[i]} :: 0 <= i < |s.get.reqs| ==> s.get.reqs[i].blocking
    ensures Sound(s) && (s.get.monitoring ==> s.watched == s.hist.got < |s.hist.elems|)
    ensures CanAct(s, RunGet(t)) <==> s.get.monitoring ==> s.hist.elems[s.hist.got].status == L.READY
  {
    GetPeeks(s, t);
    ReachableWatching(s);
    GetPeeker(s, t);
    ChainOf(s);
    hide Inv, L.HeaderAt, L.HasFlag, Reachable, Refused, QI.Inv, PutWatch, GetWatch;
  }

  // ---- Who left it: looking back over the run.

  /** Thread `a.t` writes the return code of a get that found its element not ready. */
  predicate SetsMonitor(s: State, a: Action) {
    a.RunGet? && InExec(s.get, a.t) && s.getEnded && s.ring.getResult.NotReady?
  }

  /** All along the run there is a monitor, and no step sets it again. */
  ghost predicate Undisturbed(s: State, actions: seq<Action>)
    decreases |actions|
  {
    s.get.monitoring &&
    (actions != [] ==> CanAct(s, actions[0]) && !SetsMonitor(s, actions[0]) && Undisturbed(Act(s, actions[0]), actions[1..]))
  }

  /** Step `j` of the run from `s0` sets the monitor, for a request before `t`, and from there on it stays. */
  ghost predicate LeftBehind(s0: State, actions: seq<Action>, j: nat, s1: State, t: nat) {
    && j < |actions| && Runs(s0, actions[..j], s1) && CanAct(s1, actions[j]) && SetsMonitor(s1, actions[j]) && s1.get.first < t
    && Undisturbed(Act(s1, actions[j]), actions[j + 1..])
  }

  predicate SameWatch(s: State, s': State) {
    s'.watched == s.watched && s'.watcher == s.watcher && s'.setter == s.setter
  }

  /** A monitor is set by the end of a get that found its element not ready, and by nothing else. */
  lemma ActMonitor(s: State, a: Action)
    requires Inv(s) && CanAct(s, a) && Act(s, a).get.monitoring
    ensures var s' := Act(s, a);
            if SetsMonitor(s, a) then s'.watched == s.hist.got && s'.watcher == s.get.first && s'.setter == a.t
            else s.get.monitoring && SameWatch(s, s')
  {
    hide Inv, PutExecuted, GetExecuted, R.Act, R.HistAct, R.CanAct, Q.Enabled, Q.DoRun, Sound, PutReady, GetReady;
    match a
    case NewPut(_, _) =>
    case RunPut(t) => PutKeepsGet(s, t);
    case NewGet(_) =>
    case RunGet(t) => if InExec(s.get, t) { ExecMonitor(s, t); } else { RunMonitor(s, t); }
    case Owner(_) =>
  }

  lemma RunMonitor(s: State, t: nat)
    requires Inv(s) && CanAct(s, RunGet(t)) && !InExec(s.get, t) && Act(s, RunGet(t)).get.monitoring
    ensures s.get.monitoring && SameWatch(s, Act(s, RunGet(t)))
  {
    hide I.Inv, QueueOk, InStep, PutHistory, GetHistory, Fitting, Untouched, R.CanAct, Q.Enabled, Q.DoRun, GetReady, Refused, QI.Inv;
    QueueInv(s.get, s.gets);
    RunSteady(s.get, t, Q.Outcome(false, false, GetReady(s)));
  }

  lemma ExecMonitor(s: State, t: nat)
    requires Inv(s) && CanAct(s, RunGet(t)) && InExec(s.get, t) && GetExecuted(s, t).get.monitoring
    ensures var s' := GetExecuted(s, t);
            if SetsMonitor(s, RunGet(t)) then s'.watched == s.hist.got && s'.watcher == s.get.first && s'.setter == t
            else s.get.monitoring && SameWatch(s, s')
  {
    hide I.Inv, QueueOk, R.Act, R.HistAct, R.CanAct, Q.Enabled, Q.DoRun, GetReady, Refused, QI.Inv;
    QueueInv(s.get, s.gets);
    ExecRequest(s.get, t, s.gets);
    var o := if s.ring.getResult.Got? then Q.Outcome(false, false, false)
             else if s.ring.getResult.NotReady? then Q.Outcome(true, true, false) else Q.Outcome(true, false, false);
    EnabledExec(s.get, t, Q.Outcome(false, false, GetReady(s)), o);
    ExecRefuses(s.get, t, o);
  }

  /** A monitor at the end of a run has been there all the time, or some step was the last to set it. */
  lemma {:induction false} LastSet(s: State, actions: seq<Action>, s': State) returns (found: bool, j: nat, s1: State)
    requires Inv(s) && Runs(s, actions, s') && s'.get.monitoring
    ensures !found ==> Undisturbed(s, actions) && SameWatch(s, s')
    ensures found ==> s1.get.first == s'.watcher && s1.hist.got == s'.watched && j < |actions| && actions[j] == RunGet(s'.setter)
    ensures found ==> LeftBehind(s, actions, j, s1, s'.watcher + 1)
    decreases |actions|
  {
    hide Act, CanAct, Inv, SetsMonitor;
    found, j, s1 := false, 0, s;
    if actions != [] {
      var a := actions[0];
      ActInv(s, a);
      found, j, s1 := LastSet(Act(s, a), actions[1..], s');
      if found {
        assert actions[..j + 1][1..] == actions[1..][..j] && actions[j + 1 + 1..] == actions[1..][j + 1..];
        j := j + 1;
      } else {
        ActMonitor(s, a);
        if SetsMonitor(s, a) {
          SetterIs(s, a);
          found, j, s1 := true, 0, s;
        }
      }
    }
  }

  lemma SetterIs(s: State, a: Action)
    requires SetsMonitor(s, a)
    ensures a == RunGet(a.t)
  {
  }

  lemma {:induction false} UndisturbedKeeps(s: State, actions: seq<Action>, s': State)
    requires Inv(s) && Runs(s, actions, s') && Undisturbed(s, actions)
    ensures s'.get.monitoring && SameWatch(s, s')
    decreases |actions|
  {
    hide Act, CanAct, Inv, SetsMonitor;
    if actions != [] {
      ActInv(s, actions[0]);
      MonitoringNext(Act(s, actions[0]), actions[1..]);
      ActMonitor(s, actions[0]);
      UndisturbedKeeps(Act(s, actions[0]), actions[1..], s');
    }
  }

  lemma MonitoringNext(s: State, actions: seq<Action>)
    requires Undisturbed(s, actions)
    ensures s.get.monitoring
  {
  }

  /** In every run that ends with a combiner peeking for an element, its monitor is left over (it is on an element that was
      taken) if and only if on the run a get of an earlier request set it, no later get set it again, and it was never
      cleared.  That request is not blocking, and another thread combined it. */
  lemma LeftOverExactly(s0: State, actions: seq<Action>, s: State, t: nat)
    requires Created(s0) && Runs(s0, actions, s) && AtPeek(s.get, t)
    ensures s.get.monitoring && s.watched < s.hist.got <==> exists j, s1 :: LeftBehind(s0, actions, j, s1, t)
    ensures s.get.monitoring && s.watched < s.hist.got ==>
              s.watcher < t < |s.get.reqs| && !s.get.reqs[s.watcher].blocking && s.setter != s.watcher
  {
    hide Inv, Created, Runs, QI.Inv, CanAct, GetReady, Monitored, Sound, Undisturbed, Act, SetsMonitor;
    assert Reachable(s);
    GetPeeks(s, t);
    CreatedInv(s0);
    if s.get.monitoring && s.watched < s.hist.got {
      var found, j, s1 := LastSet(s0, actions, s);
      CreatedUnset(s0);
      if !found { MonitoringNext(s0, actions); }
      assert LeftBehind(s0, actions, j, s1, t);
    }
    if j, s1 :| LeftBehind(s0, actions, j, s1, t) {
      SetByEarlier(s0, actions, j, s1, s, t);
    }
  }

  lemma CreatedUnset(s: State)
    requires Created(s)
    ensures !s.get.monitoring
  {
    hide R.Created;
  }

  lemma SetByEarlier(s0: State, actions: seq<Action>, j: nat, s1: State, s: State, t: nat)
    requires Inv(s0) && Runs(s0, actions, s) && LeftBehind(s0, actions, j, s1, t)
    ensures s.get.monitoring && s.watcher < t
  {
    hide Inv, Act, CanAct, SetsMonitor;
    RunInv(s0, actions[..j], s1);
    ActInv(s1, actions[j]);
    RunSplit(s0, actions, j, s1, s);
    MonitoringNext(Act(s1, actions[j]), actions[j + 1..]);
    ActMonitor(s1, actions[j]);
    UndisturbedKeeps(Act(s1, actions[j]), actions[j + 1..], s);
  }

  lemma {:induction false} RunSplit(s0: State, actions: seq<Action>, j: nat, s1: State, s: State)
    requires j < |actions| && Runs(s0, actions, s) && Runs(s0, actions[..j], s1) && CanAct(s1, actions[j])
    ensures Runs(Act(s1, actions[j]), actions[j + 1..], s)
    decreases j
  {
    hide Act, CanAct;
    if j > 0 {
      assert actions[..j][1..] == actions[1..][..j - 1] && actions[1..][j..] == actions[j + 1..];
      RunSplit(Act(s0, actions[0]), actions[1..], j - 1, s1, s);
    }
  }

  // ---- A monitor that is left over holds everybody up.

  /** Thread `t` polls an element that has been taken and set done, and not been reclaimed. */
  ghost predicate Stalled(s: State, t: nat) {
    && Inv(s) && AtPeek(s.get, t) && s.get.monitoring && Monitored(s) && s.watched < s.hist.got
    && s.hist.reaped <= s.watched && s.hist.elems[s.watched].status == L.DONE
  }

  lemma StalledIsStuck(s: State, t: nat)
    requires Stalled(s, t)
    ensures !CanAct(s, RunGet(t))
  {
    GetPeeker(s, t);
    ShapeOf(s);
    GetMoves(s, t);
    hide Inv, L.HeaderAt, L.HasFlag, CanAct;
    StatusSeen(s, s.watched, s.getMonitor);
  }

  lemma StalledStays(s: State, t: nat, a: Action)
    requires Stalled(s, t) && CanAct(s, a) && Act(s, a).hist.reaped <= s.watched
    ensures Stalled(Act(s, a), t)
    ensures var s' := Act(s, a); s'.watched == s.watched && s'.hist.got == s.hist.got && s'.gets == s.gets
  {
    hide Inv, Act, CanAct, Sound, GetReady;
    StalledIsStuck(s, t);
    ActInv(s, a);
    ActExtends(s, a);
    StalledGetSide(s, t, a);
    ShapeOf(s);
    SoundInv(Act(s, a));
    var s' := Act(s, a);
    assert F.Matures(s.hist.elems[s.watched], s'.hist.elems[s.watched]) && s'.hist.starts[s.watched] == s.hist.starts[s.watched];
  }

  /** Nobody else moves the get side. */
  lemma StalledGetSide(s: State, t: nat, a: Action)
    requires Stalled(s, t) && CanAct(s, a) && a != RunGet(t)
    ensures var s' := Act(s, a);
            && AtPeek(s'.get, t) && s'.get.monitoring && s'.watched == s.watched && s'.hist.got == s.hist.got && s'.gets == s.gets
            && s'.getMonitor == s.getMonitor
  {
    hide Inv, PutExecuted, GetExecuted, R.Act, R.HistAct, R.CanAct, Monitored, Sound, PutReady, GetReady, F.Extends, Q.Enabled, Q.DoRun;
    GetPeeker(s, t);
    match a
    case NewPut(_, _) =>
    case RunPut(u) =>
      PutKeepsGet(s, u);
      PutAside(s, u);
      PutKeepsGets(s, u);
    case NewGet(_) =>
    case RunGet(u) => StalledOthers(s, t, u);
    case Owner(o) => OwnerAsideGet(s, o);
  }

  lemma PutKeepsGets(s: State, u: nat)
    requires CanAct(s, RunPut(u))
    ensures Act(s, RunPut(u)).gets == s.gets
  {
    if InExec(s.put, u) { PutServes(s, u); }
    hide PutExecuted, Q.DoRun, Q.Enabled, R.CanAct;
  }

  lemma StalledOthers(s: State, t: nat, u: nat)
    requires Stalled(s, t) && CanAct(s, RunGet(u)) && u != t
    ensures var s' := Act(s, RunGet(u));
            && AtPeek(s'.get, t) && s'.get.monitoring && s'.watched == s.watched && s'.hist == s.hist && s'.gets == s.gets
            && s'.getMonitor == s.getMonitor
  {
    hide Inv, Q.DoRun, Q.Enabled, R.CanAct, QI.Inv, GetReady, Sound, Monitored, GetExecuted;
    GetPeeker(s, t);
    EnabledInRange(s.get, u, Q.Outcome(false, false, GetReady(s)));
    NotCombining(s.get, t, u);
    OtherStep(s.get, u, Q.Outcome(false, false, GetReady(s)));
  }

  lemma NotCombining(q: Q.State, t: nat, u: nat)
    requires QI.Inv(q) && q.role == Q.Held(t) && u < |q.pcs| && u != t
    ensures !q.pcs[u].Combining?
  {
    if q.pcs[u].Combining? { CombinerHolds(q, u); }
  }

  /** A left-over monitor whose element is already done stalls the get side: however many elements are put and set ready,
      no get is executed any more until puts reclaim the element that is monitored. */
  lemma {:induction false} LeftOverStalls(s: State, t: nat, actions: seq<Action>, s': State)
    requires Stalled(s, t) && Runs(s, actions, s') && s'.hist.reaped <= s.watched
    ensures Stalled(s', t) && !CanAct(s', RunGet(t)) && s'.hist.got == s.hist.got && s'.gets == s.gets
    decreases |actions|
  {
    hide Act, CanAct, Inv;
    if actions == [] {
      StalledIsStuck(s, t);
    } else {
      RunActs(s, actions, s');
      StalledStays(s, t, actions[0]);
      LeftOverStalls(Act(s, actions[0]), t, actions[1..], s');
    }
  }

  /** What is reclaimed stays reclaimed. */
  lemma RunActs(s: State, actions: seq<Action>, s': State)
    requires Inv(s) && actions != [] && Runs(s, actions, s')
    ensures CanAct(s, actions[0]) && Act(s, actions[0]).hist.reaped <= s'.hist.reaped
  {
    hide Act, CanAct, Inv;
    ActInv(s, actions[0]);
    RunExtends(Act(s, actions[0]), actions[1..], s');
  }
}
