/** What a combiner waits for while it peeks: on the put side always for what holds its put up, on the get side for the
    oldest element that was not got, unless a failed request of somebody else left its monitor behind. */
module RingPeeks {
  import opened Modular
  import opened CombiningPeeks
  import opened RingQueues
  import Q = CombiningQueue
  import QI = CombiningInvariant
  import M = RingMachine
  import I = RingInvariant
  import R = RingRuns
  import F = RingFifo
  import C = RingReclaim
  import L = RingLayout

  // ---- The put side.

  /** The bytes that the put of the oldest request takes. */
  function Asked(s: State): nat
    requires Sound(s) && s.put.first < |s.sizes|
  {
    M.AlignUp(s.sizes[s.put.first] + L.HEADER_SIZE, s.ring.align)
  }

  /** The oldest put does not fit, and `monitor` is the offset of the oldest element that is not reclaimed. */
  ghost predicate HeldUp(s: State, monitor: nat)
    requires Sound(s)
  {
    && s.put.first < |s.sizes| && monitor == Wrap(s.hist.starts[s.hist.reaped], s.ring.size)
    && Asked(s) > s.ring.size - L.HEADER_SIZE - 1 - I.Used(s.hist)
  }

  predicate AsksAligned(r: M.Ring) {
    r.align > 0 && (r.put != M.PutIdle ==> r.put.asize == M.AlignUp(r.put.usize + L.HEADER_SIZE, r.align))
  }

  ghost predicate PutWatch(s: State)
    requires Sound(s)
  {
    && AsksAligned(s.ring)
    && (s.putEnded && s.ring.putResult.Full? ==> HeldUp(s, s.ring.putResult.monitor))
    && (Refused(s.put) ==> s.put.monitoring && HeldUp(s, s.putMonitor))
  }

  /** A put that fails gives the oldest element that is not reclaimed as the one to monitor. */
  lemma RingRefuses(r: M.Ring, h: I.Hist, a: R.Action)
    requires I.Inv(r, h) && R.CanAct(r, h, a) && (a.BeginPut? || a.StepPut?) && AsksAligned(r)
    requires a.BeginPut? ==> M.AlignUp(a.usize + L.HEADER_SIZE, r.align) <= r.size
    ensures r.size > 0 && I.Shape(h)
    ensures var r', h' := R.Act(r, h, a), R.HistAct(r, h, a);
            && AsksAligned(r')
            && (r'.put == M.PutIdle && r'.putResult.Full? ==>
                  && h'.starts == h.starts && h'.reaped == h.reaped && |h'.elems| == |h.elems| && a.StepPut? && r.put.Recheck?
                  && r'.putResult.monitor == Wrap(h.starts[h.reaped], r.size)
                  && r.put.asize > r.size - L.HEADER_SIZE - 1 - I.Used(h))
  {
    hide I.Inv, M.AlignUp, I.Used, F.Extends, M.FreeSpace;
    RingPut(r, h, a);
    if a.StepPut? {
      C.NextPut(r, h, a);
      if r.put.Recheck? { C.FullExactly(r, h, R.Act(r, h, a), R.HistAct(r, h, a)); }
      hide M.PutNext;
    }
  }

  /** Nobody but the put side touches what it goes by. */
  lemma PutWatchKept(s: State, s': State)
    requires Sound(s) && Sound(s') && PutWatch(s) && Steady(s.put, s'.put)
    requires s'.ring.put == s.ring.put && s'.ring.putResult == s.ring.putResult && s'.putEnded == s.putEnded
    requires s'.putMonitor == s.putMonitor && s'.ring.size == s.ring.size && s'.ring.align == s.ring.align && s.sizes <= s'.sizes
    requires s'.hist.starts == s.hist.starts && s'.hist.reaped == s.hist.reaped
    requires s.putEnded ==> s'.put.first == s.put.first
    ensures PutWatch(s')
  {
    hide M.AlignUp, Refused;
  }

  lemma PutStepWatch(s: State, t: nat)
    requires Inv(s) && PutWatch(s) && CanAct(s, RunPut(t)) && InExec(s.put, t) && !s.putEnded
    ensures Sound(PutExecuted(s, t)) && PutWatch(PutExecuted(s, t))
  {
    hide I.Inv, QueueOk, M.AlignUp, Q.Enabled, R.Act, R.HistAct, R.CanAct, PutHistory, GetHistory, Untouched, F.Extends;
    PutSteppedInv(s, t);
    ExecRequest(s.put, t, s.puts);
    RequestFits(s, t);
    RingPut(s.ring, s.hist, PutAction(s, t));
    RingRefuses(s.ring, s.hist, PutAction(s, t));
  }

  lemma PutAnswerWatch(s: State, t: nat)
    requires Inv(s) && PutWatch(s) && CanAct(s, RunPut(t)) && InExec(s.put, t) && s.putEnded
    ensures Sound(PutExecuted(s, t)) && PutWatch(PutExecuted(s, t))
  {
    hide I.Inv, QueueOk, M.AlignUp, Q.Enabled, Q.DoRun, R.CanAct, PutHistory, GetHistory, Untouched, Refused, QI.Inv;
    PutAnsweredInv(s, t);
    var o := if s.ring.putResult.Placed? then Q.Outcome(false, false, false) else Q.Outcome(true, true, false);
    EnabledExec(s.put, t, Q.Outcome(false, false, PutReady(s)), o);
    QueueInv(s.put, s.puts);
    ExecRefuses(s.put, t, o);
  }

  lemma QueueInv(q: Q.State, ids: seq<nat>)
    requires QueueOk(q, ids)
    ensures QI.Inv(q)
  {
  }

  /** The put side's view of a state. */
  ghost predicate SamePutView(s: State, s': State) {
    && s'.ring.put == s.ring.put && s'.ring.putResult == s.ring.putResult && s'.ring.size == s.ring.size
    && s'.ring.align == s.ring.align && s'.hist.starts == s.hist.starts && s'.hist.reaped == s.hist.reaped
    && |s'.hist.elems| == |s.hist.elems|
  }

  /** What the other side and the owners do does not concern the put side. */
  lemma GetAside(s: State, t: nat)
    requires Inv(s) && CanAct(s, RunGet(t))
    ensures SamePutView(s, Act(s, RunGet(t)))
  {
    var a := RunGet(t);
    ActOnRing(s, a);
    GetIsBusy(s, t);
    hide Inv, Act, CanAct, R.Act, R.HistAct, R.CanAct;
    if OnRing(s, a).Some? { GetOnRingAside(s, t); }
  }

  lemma GetOnRingAside(s: State, t: nat)
    requires Inv(s) && !s.hist.doneOnly && R.CanAct(s.ring, s.hist, GetAction(s))
    ensures var r', h' := R.Act(s.ring, s.hist, GetAction(s)), R.HistAct(s.ring, s.hist, GetAction(s));
            SamePutView(s, s.(ring := r', hist := h'))
  {
    hide I.Inv, QueueOk, R.Act, R.HistAct, R.CanAct, PutHistory, GetHistory, Untouched, Fitting, F.Extends, InStep;
    RingGet(s.ring, s.hist, GetAction(s));
  }

  lemma OwnerAside(s: State, o: R.Action)
    requires Inv(s) && CanAct(s, Owner(o))
    ensures SamePutView(s, Act(s, Owner(o)))
  {
    hide I.Inv, QueueOk, R.Act, R.HistAct, R.CanAct, PutHistory, GetHistory, Untouched, Fitting, F.Extends, InStep;
    RingOwner(s.ring, s.hist, o);
  }

  lemma GetIsBusy(s: State, t: nat)
    requires Inv(s) && CanAct(s, RunGet(t))
    ensures !s.hist.doneOnly && t < |s.get.reqs|
  {
    hide I.Inv, QueueOk;
  }

  lemma PutRunWatch(s: State, t: nat)
    requires Inv(s) && PutWatch(s) && CanAct(s, RunPut(t)) && !InExec(s.put, t)
    ensures Sound(Act(s, RunPut(t))) && PutWatch(Act(s, RunPut(t)))
  {
    hide I.Inv, QI.Inv, FirstUnserved, AreServed, Q.Enabled, Q.DoRun, PutHistory, GetHistory, Untouched, Fitting, M.AlignUp, Busy, Steady,
         HeldUp;
    var o := Q.Outcome(false, false, PutReady(s));
    RunPutInv(s, t);
    RunSteady(s.put, t, o);
    if s.putEnded { RunBusy(s.put, t, o); }
    PutWatchKept(s, Act(s, RunPut(t)));
  }

  lemma NewPutWatch(s: State, blocking: bool, usize: nat)
    requires Inv(s) && PutWatch(s) && CanAct(s, NewPut(blocking, usize))
    ensures Sound(Act(s, NewPut(blocking, usize))) && PutWatch(Act(s, NewPut(blocking, usize)))
  {
    hide I.Inv, QI.Inv, FirstUnserved, AreServed, Q.DoArrive, PutHistory, GetHistory, Untouched, Fitting, M.AlignUp, Busy, Steady, HeldUp;
    NewPutInv(s, blocking, usize);
    ArriveSteady(s.put, blocking);
    ArriveQueue(s.put, blocking, s.puts);
    PutWatchKept(s, Act(s, NewPut(blocking, usize)));
  }

  lemma AsideWatch(s: State, s': State)
    requires Sound(s) && Sound(s') && PutWatch(s) && SamePutView(s, s')
    requires s'.put == s.put && s'.putEnded == s.putEnded && s'.putMonitor == s.putMonitor && s'.sizes == s.sizes
    ensures PutWatch(s')
  {
    SteadySelf(s.put);
    PutWatchKept(s, s');
  }

  lemma SteadySelf(q: Q.State)
    ensures Steady(q, q)
  {
  }

  /** Every step keeps: a put that was refused monitors what holds it up. */
  lemma ActPutWatch(s: State, a: Action)
    requires Inv(s) && PutWatch(s) && CanAct(s, a)
    ensures Sound(Act(s, a)) && PutWatch(Act(s, a))
  {
    ActInv(s, a);
    SoundInv(Act(s, a));
    hide Inv, PutWatch, PutExecuted, GetExecuted, Sound, SamePutView;
    match a
    case NewPut(blocking, usize) => NewPutWatch(s, blocking, usize);
    case RunPut(t) =>
      if !InExec(s.put, t) { PutRunWatch(s, t); } else if s.putEnded { PutAnswerWatch(s, t); } else { PutStepWatch(s, t); }
    case NewGet(_) => PutViewSame(s, Act(s, a));
    case RunGet(t) =>
      GetAside(s, t);
      GetKeepsPut(s, t);
      SoundInv(s);
      AsideWatch(s, Act(s, a));
    case Owner(o) =>
      OwnerAside(s, o);
      SoundInv(s);
      AsideWatch(s, Act(s, a));
  }

  lemma SoundInv(s: State)
    requires Inv(s)
    ensures Sound(s)
  {
  }

  lemma PutViewSame(s: State, s': State)
    requires Sound(s) && Sound(s') && PutWatch(s) && s' == s.(get := s'.get)
    ensures PutWatch(s')
  {
    hide Refused, HeldUp;
    AsideWatch(s, s');
  }

  lemma GetKeepsPut(s: State, t: nat)
    requires CanAct(s, RunGet(t))
    ensures var s' := Act(s, RunGet(t));
            s'.put == s.put && s'.putEnded == s.putEnded && s'.putMonitor == s.putMonitor && s'.sizes == s.sizes
  {
    hide R.Act, R.HistAct, R.CanAct, Q.DoRun, Q.Enabled;
  }

  // ---- The get side.

  predicate JustTaken(s: State) {
    s.getEnded && s.ring.getResult.Got?
  }

  /** The monitored element was the next one to get when its get failed, and since then only gets may have moved on. */
  ghost predicate Monitored(s: State)
    requires Sound(s)
  {
    s.watched <= s.hist.got && s.watched < |s.hist.elems| && s.getMonitor == Wrap(s.hist.starts[s.watched], s.ring.size)
  }

  /** The monitor was left by an earlier request, and its element has been taken since. */
  predicate LeftOver(s: State) {
    s.watcher < s.get.first && s.watched < s.hist.got
  }

  ghost predicate GetWatch(s: State)
    requires Sound(s)
  {
    s.get.blockingRing && !s.hist.doneOnly ==>
      && (s.get.monitoring ==> Monitored(s))
      && WatchOk(s.get, s.watcher, s.setter, s.watched == s.hist.got, JustTaken(s))
      && (s.getEnded && s.ring.getResult.NotReady? ==>
            s.hist.got < |s.hist.elems| && s.ring.getResult.monitor == Wrap(s.hist.starts[s.hist.got], s.ring.size))
      && (s.getEnded && s.ring.getResult.Empty? && s.get.monitoring ==> LeftOver(s))
      && (Refused(s.get) ==> RefusedBy(s))
  }

  /** What the get that was refused found. */
  predicate RefusedBy(s: State) {
    if s.ring.getResult.NotReady? then s.get.monitoring && s.watcher == s.get.first && s.watched == s.hist.got
    else s.ring.getResult.Empty? && (s.get.monitoring ==> LeftOver(s))
  }

  /** A step that does nothing on the get side of the ring. */
  lemma GetWatchKept(s: State, s': State)
    requires Sound(s) && Sound(s') && GetWatch(s) && Steady(s.get, s'.get) && F.Extends(s.hist, s'.hist)
    requires (!s.hist.doneOnly ==> s'.hist.got == s.hist.got) && s'.ring.size == s.ring.size && s'.ring.getResult == s.ring.getResult
    requires s'.getEnded == s.getEnded && s'.getMonitor == s.getMonitor && s'.watched == s.watched && s'.watcher == s.watcher && s'.setter == s.setter
    requires s'.get.blockingRing && !s.hist.doneOnly ==> WatchOk(s'.get, s.watcher, s.setter, s.watched == s.hist.got, JustTaken(s))
    requires s.getEnded ==> s'.get.first == s.get.first
    ensures GetWatch(s')
  {
    hide WatchOk, Refused;
    if s.get.monitoring && s.get.blockingRing && !s.hist.doneOnly { assert s'.hist.starts[s.watched] == s.hist.starts[s.watched]; }
    if s.getEnded && s.hist.got < |s.hist.elems| { assert s'.hist.starts[s.hist.got] == s.hist.starts[s.hist.got]; }
  }

  lemma GetRunWatch(s: State, t: nat)
    requires Inv(s) && GetWatch(s) && CanAct(s, RunGet(t)) && !InExec(s.get, t)
    ensures Sound(Act(s, RunGet(t))) && GetWatch(Act(s, RunGet(t)))
  {
    hide I.Inv, QI.Inv, FirstUnserved, AreServed, Q.Enabled, Q.DoRun, PutHistory, GetHistory, Untouched, Fitting, M.AlignUp, Busy, Steady,
         F.Extends, WatchOk, Monitored, LeftOver;
    var o := Q.Outcome(false, false, GetReady(s));
    RunGetInv(s, t);
    RunSteady(s.get, t, o);
    SteadyRing(s.get, Q.DoRun(s.get, t, o));
    if s.getEnded { RunBusy(s.get, t, o); }
    if s.get.blockingRing && !s.hist.doneOnly { RunWatch(s.get, t, o, s.watcher, s.setter, s.watched == s.hist.got, JustTaken(s)); }
    ShapeOf(s);
    SameHistory(s.hist);
    GetWatchKept(s, Act(s, RunGet(t)));
  }

  lemma SteadyRing(q: Q.State, q': Q.State)
    requires Steady(q, q')
    ensures q'.blockingRing == q.blockingRing
  {
  }

  lemma NewGetWatch(s: State, blocking: bool)
    requires Inv(s) && GetWatch(s) && CanAct(s, NewGet(blocking))
    ensures Sound(Act(s, NewGet(blocking))) && GetWatch(Act(s, NewGet(blocking)))
  {
    hide I.Inv, QI.Inv, FirstUnserved, AreServed, Q.DoArrive, PutHistory, GetHistory, Untouched, Fitting, M.AlignUp, Busy, Steady,
         F.Extends, WatchOk, Monitored, LeftOver;
    NewGetInv(s, blocking);
    ArriveSteady(s.get, blocking);
    SteadyRing(s.get, Q.DoArrive(s.get, blocking));
    ArriveQueue(s.get, blocking, s.gets);
    if s.get.blockingRing && !s.hist.doneOnly { ArriveWatch(s.get, blocking, s.watcher, s.setter, s.watched == s.hist.got, JustTaken(s)); }
    ShapeOf(s);
    SameHistory(s.hist);
    GetWatchKept(s, Act(s, NewGet(blocking)));
  }

  lemma GetStepWatch(s: State, t: nat)
    requires Inv(s) && GetWatch(s) && CanAct(s, RunGet(t)) && InExec(s.get, t) && !s.getEnded
    ensures Sound(GetExecuted(s, t)) && GetWatch(GetExecuted(s, t))
  {
    hide I.Inv, FirstUnserved, AreServed, Q.Enabled, R.Act, R.HistAct, R.CanAct, PutHistory, GetHistory, Untouched, Fitting, F.Extends,
         WatchOk, QI.Inv;
    GetSteppedInv(s, t);
    ExecRequest(s.get, t, s.gets);
    GetIsBusy(s, t);
    RingGet(s.ring, s.hist, GetAction(s));
    var s' := GetExecuted(s, t);
    if s.get.blockingRing {
      WatchInExec(s.get, t, s.watcher, s.setter, s.watched == s.hist.got, JustTaken(s), s'.watched == s'.hist.got, JustTaken(s'));
    }
    NotRefused(s.get, t);
  }

  lemma NotRefused(q: Q.State, t: nat)
    requires InExec(q, t) && q.role == Q.Held(t)
    ensures !Refused(q)
  {
  }

  lemma GetAnswerWatch(s: State, t: nat)
    requires Inv(s) && GetWatch(s) && CanAct(s, RunGet(t)) && InExec(s.get, t) && s.getEnded
    ensures Sound(GetExecuted(s, t)) && GetWatch(GetExecuted(s, t))
  {
    hide I.Inv, FirstUnserved, AreServed, Q.Enabled, Q.DoRun, R.CanAct, PutHistory, GetHistory, Untouched, Fitting, Refused, QI.Inv, WatchOk;
    GetAnsweredInv(s, t);
    GetIsBusy(s, t);
    var o := if s.ring.getResult.Got? then Q.Outcome(false, false, false)
             else if s.ring.getResult.NotReady? then Q.Outcome(true, true, false) else Q.Outcome(true, false, false);
    EnabledExec(s.get, t, Q.Outcome(false, false, GetReady(s)), o);
    ExecRequest(s.get, t, s.gets);
    ExecRefuses(s.get, t, o);
    if s.get.blockingRing {
      if o.monitor { ExecSetsWatch(s.get, t, o); }
      else { ExecKeepsWatch(s.get, t, o, s.watcher, s.setter, s.watched == s.hist.got, JustTaken(s)); }
    }
  }

  /** The get side's view of a state. */
  ghost predicate SameGetView(s: State, s': State) {
    && F.Extends(s.hist, s'.hist) && (!s.hist.doneOnly ==> s'.hist.got == s.hist.got) && s'.ring.size == s.ring.size
    && s'.ring.getResult == s.ring.getResult
  }

  lemma PutAside(s: State, t: nat)
    requires Inv(s) && CanAct(s, RunPut(t))
    ensures SameGetView(s, Act(s, RunPut(t)))
  {
    var a := RunPut(t);
    ActOnRing(s, a);
    ShapeOf(s);
    SameHistory(s.hist);
    hide Inv, I.Inv, I.Shape, Act, R.Act, R.HistAct, R.CanAct, F.Extends, Q.Enabled, PutReady, GetReady, M.AlignUp;
    if OnRing(s, a).Some? { PutOnRingAside(s, t); }
  }

  lemma PutOnRingAside(s: State, t: nat)
    requires Inv(s) && CanAct(s, RunPut(t)) && InExec(s.put, t) && !s.putEnded
    ensures var r', h' := R.Act(s.ring, s.hist, PutAction(s, t)), R.HistAct(s.ring, s.hist, PutAction(s, t));
            SameGetView(s, s.(ring := r', hist := h'))
  {
    hide I.Inv, QueueOk, Q.Enabled, R.Act, R.HistAct, R.CanAct, PutHistory, GetHistory, Untouched, F.Extends, InStep, M.AlignUp;
    ExecRequest(s.put, t, s.puts);
    RequestFits(s, t);
    RingPut(s.ring, s.hist, PutAction(s, t));
  }

  lemma OwnerAsideGet(s: State, o: R.Action)
    requires Inv(s) && CanAct(s, Owner(o))
    ensures SameGetView(s, Act(s, Owner(o)))
  {
    hide I.Inv, QueueOk, R.Act, R.HistAct, R.CanAct, PutHistory, GetHistory, Untouched, Fitting, F.Extends, InStep;
    RingOwner(s.ring, s.hist, o);
  }

  lemma AsideGetWatch(s: State, s': State)
    requires Sound(s) && Sound(s') && GetWatch(s) && SameGetView(s, s')
    requires s'.get == s.get && s'.getEnded == s.getEnded && s'.getMonitor == s.getMonitor
    requires s'.watched == s.watched && s'.watcher == s.watcher && s'.setter == s.setter
    ensures GetWatch(s')
  {
    SteadySelf(s.get);
    GetWatchKept(s, s');
  }

  lemma PutKeepsGet(s: State, t: nat)
    requires CanAct(s, RunPut(t))
    ensures var s' := Act(s, RunPut(t));
            && s'.get == s.get && s'.getEnded == s.getEnded && s'.getMonitor == s.getMonitor
            && s'.watched == s.watched && s'.watcher == s.watcher && s'.setter == s.setter
  {
    hide R.Act, R.HistAct, R.CanAct, Q.DoRun, Q.Enabled;
  }

  lemma ActGetWatch(s: State, a: Action)
    requires Inv(s) && GetWatch(s) && CanAct(s, a)
    ensures Sound(Act(s, a)) && GetWatch(Act(s, a))
  {
    ActInv(s, a);
    SoundInv(Act(s, a));
    hide Inv, GetWatch, PutExecuted, GetExecuted, Sound, SameGetView;
    match a
    case NewPut(_, _) => GetViewSame(s, Act(s, a));
    case RunPut(t) =>
      PutAside(s, t);
      PutKeepsGet(s, t);
      SoundInv(s);
      AsideGetWatch(s, Act(s, a));
    case NewGet(blocking) => NewGetWatch(s, blocking);
    case RunGet(t) =>
      if !InExec(s.get, t) { GetRunWatch(s, t); } else if s.getEnded { GetAnswerWatch(s, t); } else { GetStepWatch(s, t); }
    case Owner(o) =>
      OwnerAsideGet(s, o);
      SoundInv(s);
      AsideGetWatch(s, Act(s, a));
  }

  lemma GetViewSame(s: State, s': State)
    requires Inv(s) && Sound(s') && GetWatch(s) && s' == s.(put := s'.put, sizes := s'.sizes)
    ensures GetWatch(s')
  {
    ShapeOf(s);
    SameHistory(s.hist);
    hide Inv, Refused, F.Extends, WatchOk;
    AsideGetWatch(s, s');
  }

  // ---- Whole runs.

  ghost predicate Watching(s: State) {
    Inv(s) && PutWatch(s) && GetWatch(s)
  }

  lemma CreatedWatching(s: State)
    requires Created(s)
    ensures Watching(s)
  {
    CreatedInv(s);
    CreatedRing(s.ring, s.hist);
    hide Inv, R.Created;
  }

  lemma {:induction false} RunWatching(s: State, actions: seq<Action>, s': State)
    requires Watching(s) && Runs(s, actions, s')
    ensures Watching(s')
    decreases |actions|
  {
    hide Inv, PutWatch, GetWatch, Act, CanAct;
    if actions != [] {
      ActInv(s, actions[0]);
      ActPutWatch(s, actions[0]);
      ActGetWatch(s, actions[0]);
      RunWatching(Act(s, actions[0]), actions[1..], s');
    }
  }

  lemma ReachableWatching(s: State)
    requires Reachable(s)
    ensures Watching(s)
  {
    hide Watching, Created, Runs;
    var s0, actions :| Created(s0) && Runs(s0, actions, s);
    CreatedWatching(s0);
    RunWatching(s0, actions, s);
  }
}
