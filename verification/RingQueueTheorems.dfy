/** What the whole ring buffer promises over all runs of any number of threads. */
module RingQueueTheorems {
  import opened CombiningPeeks
  import opened RingQueues
  import Q = CombiningQueue
  import QI = CombiningInvariant
  import QT = CombiningTheorems
  import M = RingMachine
  import I = RingInvariant
  import S = RingSteps
  import R = RingRuns
  import F = RingFifo
  import L = RingLayout

  // ---- Each side of a run is a schedule of its queue, and the ring's part a run of the ring.

  lemma QueueGoesOn(q: Q.State, a: Q.Action)
    requires QT.Reachable(q) && Q.CanStep(q, a)
    ensures QT.Reachable(Q.Step(q, a))
  {
    hide Q.Step, Q.CanStep;
    var blocking, actions :| Q.Schedule(blocking, actions) && Q.After(blocking, actions) == q;
    var next := actions + [a];
    assert next[..|next| - 1] == actions;
    assert Q.Schedule(blocking, next) && Q.After(blocking, next) == Q.Step(q, a);
  }

  lemma {:induction false} RingGoesOn(r: M.Ring, h: I.Hist, steps: seq<R.Action>, r': M.Ring, h': I.Hist, a: R.Action)
    requires R.Runs(r, h, steps, r', h') && r'.size > 0 && r'.align > 0 && I.Shape(h') && R.CanAct(r', h', a)
    ensures R.Runs(r, h, steps + [a], R.Act(r', h', a), R.HistAct(r', h', a))
    decreases |steps|
  {
    hide R.Act, R.HistAct, R.CanAct;
    if steps == [] {
      assert R.Runs(R.Act(r, h, a), R.HistAct(r, h, a), ([] + [a])[1..], R.Act(r, h, a), R.HistAct(r, h, a));
    } else {
      RingGoesOn(R.Act(r, h, steps[0]), R.HistAct(r, h, steps[0]), steps[1..], r', h', a);
      assert (steps + [a])[1..] == steps[1..] + [a];
    }
  }

  lemma RingStep(r: M.Ring, h: I.Hist, a: R.Action)
    requires R.Reachable(r, h) && r.size > 0 && r.align > 0 && I.Shape(h) && R.CanAct(r, h, a)
    ensures R.Reachable(R.Act(r, h, a), R.HistAct(r, h, a))
  {
    hide R.Created, R.Runs, R.Act, R.HistAct, R.CanAct;
    var r0, h0, steps :| R.Created(r0, h0) && R.Runs(r0, h0, steps, r, h);
    RingGoesOn(r0, h0, steps, r, h, a);
  }

  ghost predicate Projects(s: State) {
    QT.Reachable(s.put) && QT.Reachable(s.get) && R.Reachable(s.ring, s.hist)
  }

  lemma ActProjects(s: State, a: Action)
    requires Inv(s) && Projects(s) && CanAct(s, a)
    ensures Projects(Act(s, a))
  {
    hide I.Inv, QI.Inv, QT.Reachable, R.Reachable, R.Act, R.HistAct, R.CanAct, Q.DoRun, Q.DoArrive, Q.Enabled, Fitting, PutHistory,
         GetHistory, AreServed, FirstUnserved;
    match a
    case NewPut(blocking, _) => QueueGoesOn(s.put, Q.Arrive(blocking));
    case NewGet(blocking) => QueueGoesOn(s.get, Q.Arrive(blocking));
    case RunPut(t) =>
      if InExec(s.put, t) { ExecPutProjects(s, t); } else { QueueGoesOn(s.put, Q.Run(t, Q.Outcome(false, false, PutReady(s)))); }
    case RunGet(t) =>
      if InExec(s.get, t) { ExecGetProjects(s, t); } else { QueueGoesOn(s.get, Q.Run(t, Q.Outcome(false, false, GetReady(s)))); }
    case Owner(o) => RingStep(s.ring, s.hist, o);
  }

  lemma ExecPutProjects(s: State, t: nat)
    requires Projects(s) && CanAct(s, RunPut(t)) && InExec(s.put, t)
    ensures Projects(PutExecuted(s, t))
  {
    hide QT.Reachable, R.Reachable, R.Act, R.HistAct, R.CanAct, Q.DoRun, Q.Enabled;
    if !s.putEnded { RingStep(s.ring, s.hist, PutAction(s, t)); }
    var failed, served := Q.Outcome(true, true, false), Q.Outcome(false, false, false);
    EnabledExec(s.put, t, Q.Outcome(false, false, PutReady(s)), failed);
    EnabledExec(s.put, t, Q.Outcome(false, false, PutReady(s)), served);
    QueueGoesOn(s.put, Q.Run(t, failed));
    QueueGoesOn(s.put, Q.Run(t, served));
  }

  lemma ExecGetProjects(s: State, t: nat)
    requires Projects(s) && CanAct(s, RunGet(t)) && InExec(s.get, t)
    ensures Projects(GetExecuted(s, t))
  {
    hide QT.Reachable, R.Reachable, R.Act, R.HistAct, R.CanAct, Q.DoRun, Q.Enabled;
    if !s.getEnded { RingStep(s.ring, s.hist, GetAction(s)); }
    var empty, failed, served := Q.Outcome(true, false, false), Q.Outcome(true, true, false), Q.Outcome(false, false, false);
    EnabledExec(s.get, t, Q.Outcome(false, false, GetReady(s)), empty);
    EnabledExec(s.get, t, Q.Outcome(false, false, GetReady(s)), failed);
    EnabledExec(s.get, t, Q.Outcome(false, false, GetReady(s)), served);
    QueueGoesOn(s.get, Q.Run(t, empty));
    QueueGoesOn(s.get, Q.Run(t, failed));
    QueueGoesOn(s.get, Q.Run(t, served));
  }

  lemma {:induction false} RunProjects(s: State, actions: seq<Action>, s': State)
    requires Inv(s) && Projects(s) && Runs(s, actions, s')
    ensures Projects(s')
    decreases |actions|
  {
    hide Inv, Projects, Act, CanAct;
    if actions != [] {
      ActInv(s, actions[0]);
      ActProjects(s, actions[0]);
      RunProjects(Act(s, actions[0]), actions[1..], s');
    }
  }

  /** What is proved of the queue in CombiningTheorems and of the ring in RingFifo and RingReclaim holds here: each side of a
      run is a schedule of its queue, and what its steps do to the ring is a run of the ring. */
  lemma PartsAreReachable(s: State)
    requires Reachable(s)
    ensures QT.Reachable(s.put) && QT.Reachable(s.get) && R.Reachable(s.ring, s.hist)
  {
    hide Inv, Runs;
    var s0, actions :| Created(s0) && Runs(s0, actions, s);
    CreatedInv(s0);
    assert Q.Schedule(s0.put.blockingRing, []) && Q.After(s0.put.blockingRing, []) == s0.put;
    assert R.Runs(s0.ring, s0.hist, [], s0.ring, s0.hist);
    RunProjects(s0, actions, s);
  }

  // ---- Main results.

  /** In a ring created to block, a blocking put that has returned has its element in the ring's history, and a blocking
      get that has returned has got one. */
  lemma ReturnedIsServed(s: State, x: nat)
    requires Reachable(s) && s.put.blockingRing && s.get.blockingRing
    ensures x < |s.put.reqs| == |s.put.pcs| && s.put.pcs[x] == Q.Returned && s.put.reqs[x].blocking ==> x in s.puts
    ensures x < |s.get.reqs| == |s.get.pcs| && s.get.pcs[x] == Q.Returned && s.get.reqs[x].blocking ==> x in s.gets
  {
    ReachableInv(s);
    PartsAreReachable(s);
    if x < |s.put.reqs| { QT.DoneIsFinal(s.put, x); }
    if x < |s.get.reqs| { QT.DoneIsFinal(s.get, x); }
    hide I.Inv, QI.Inv, S.DataOf, Reachable, QT.Reachable, R.Reachable;
  }

  /** A put has published its element but not written its return code yet. */
  predicate Published(s: State) {
    s.putEnded && s.ring.putResult.Placed?
  }

  /** Puts take effect in the order of their swaps: the served put requests, by their position in that order, are those
      of the elements ever put, one by one, with the size asked for and the address told.  There is one element more while
      a put that has published it has yet to write its return code. */
  lemma PutsInSwapOrder(s: State)
    requires Reachable(s)
    ensures Increasing(s.puts) && s.ring.size > 0 && |s.hist.starts| == |s.hist.elems| + 1
    ensures |s.hist.elems| == |s.puts| + if Published(s) then 1 else 0
    ensures forall i :: 0 <= i < |s.put.reqs| ==> (s.put.reqs[i].rc == Q.Served <==> i in s.puts)
    ensures forall k {:trigger s.puts[k]} :: 0 <= k < |s.puts| ==>
              s.puts[k] < |s.sizes| && s.hist.elems[k].usize == s.sizes[s.puts[k]]
              && s.puts[k] in s.placed && s.placed[s.puts[k]] == S.DataOf(s.ring, s.hist, k)
  {
    ReachableInv(s);
    hide I.Inv, QI.Inv, S.DataOf, Reachable, GetHistory, GetEnd, Fitting, FirstUnserved, Busy;
  }

  /** First in, first out among any number of threads: the k-th served get, in the order of the swaps of the getting
      threads, receives the address and the size of the k-th served put, in the order of the swaps of the putting
      threads. */
  lemma FirstInFirstOut(s: State, k: nat)
    requires Reachable(s) && k < |s.gets|
    ensures Increasing(s.gets) && (forall i :: 0 <= i < |s.get.reqs| ==> (s.get.reqs[i].rc == Q.Served <==> i in s.gets))
    ensures k < |s.puts| && s.puts[k] in s.placed && s.puts[k] < |s.sizes| && s.gets[k] in s.got
    ensures s.got[s.gets[k]] == F.Slot(s.placed[s.puts[k]], s.sizes[s.puts[k]])
  {
    ReachableInv(s);
    PutsInSwapOrder(s);
    GotWasServed(s, k);
    hide I.Inv, QI.Inv, S.DataOf, Reachable, PutHistory, PutEnd, GetEnd, Fitting, FirstUnserved, Busy, Untouched;
  }

  /** What is handed out was set ready by its owner, who had been told its address. */
  lemma GotWasServed(s: State, k: nat)
    requires Inv(s) && k < |s.gets|
    ensures k < |s.puts|
  {
    assert k < s.hist.got <= |s.hist.elems| && !s.hist.doneOnly by { hide I.Inv, QI.Inv; }
    assert s.hist.elems[k].status != L.INIT by { hide QI.Inv, PutHistory, GetHistory, PutEnd, GetEnd; }
    hide I.Inv, QI.Inv;
  }

  // ---- From the bytes of a put to the bytes of a get.

  /** No owner copies over bytes `lo` up to `hi` of element `k`. */
  predicate NotOverwritten(actions: seq<Action>, k: nat, lo: nat, hi: nat) {
    forall j {:trigger actions[j]} :: 0 <= j < |actions| && actions[j].Owner? && actions[j].a.Copy? && actions[j].a.i == k ==>
      var a := actions[j].a; a.at + |a.bytes| <= lo || hi <= a.at
  }

  /** The user data of element `k` has `bytes` at `at`. */
  predicate Holds(h: I.Hist, k: nat, at: nat, bytes: seq<L.byte>) {
    k < |h.elems| && at + |bytes| <= |h.elems[k].data| && h.elems[k].data[at..at + |bytes|] == bytes
  }

  lemma RingHolds(r: M.Ring, h: I.Hist, a: R.Action, k: nat, at: nat, bytes: seq<L.byte>)
    requires I.Shape(h) && R.CanAct(r, h, a) && Holds(h, k, at, bytes)
    requires a.Copy? && a.i == k ==> a.at + |a.bytes| <= at || at + |bytes| <= a.at
    ensures Holds(R.HistAct(r, h, a), k, at, bytes)
  {
    hide L.HeaderAt, L.DataAt;
    if a.Copy? && a.i == k {
      var d := h.elems[k].data;
      var d' := I.Overwrite(d, a.at, a.bytes);
      assert forall x {:trigger d'[x]} :: at <= x < at + |bytes| ==> d'[x] == d[x];
      assert d'[at..at + |bytes|] == d[at..at + |bytes|];
    }
  }

  lemma ActHolds(s: State, a: Action, k: nat, at: nat, bytes: seq<L.byte>)
    requires Inv(s) && CanAct(s, a) && Holds(s.hist, k, at, bytes)
    requires a.Owner? && a.a.Copy? && a.a.i == k ==> a.a.at + |a.a.bytes| <= at || at + |bytes| <= a.a.at
    ensures Holds(Act(s, a).hist, k, at, bytes)
  {
    ShapeOf(s);
    ActOnRing(s, a);
    hide Inv, Holds, I.Shape, R.Act, R.HistAct, Act, CanAct, R.CanAct, OnRing;
    if OnRing(s, a).Some? {
      RingHolds(s.ring, s.hist, OnRing(s, a).value, k, at, bytes);
    }
  }

  lemma {:induction false} RunHolds(s: State, actions: seq<Action>, s': State, k: nat, at: nat, bytes: seq<L.byte>)
    requires Inv(s) && Runs(s, actions, s') && Holds(s.hist, k, at, bytes) && NotOverwritten(actions, k, at, at + |bytes|)
    ensures Holds(s'.hist, k, at, bytes)
    decreases |actions|
  {
    hide Inv, Act, CanAct, Holds;
    if actions != [] {
      ActInv(s, actions[0]);
      ActHolds(s, actions[0], k, at, bytes);
      RunHolds(Act(s, actions[0]), actions[1..], s', k, at, bytes);
    }
  }

  lemma CopyHolds(s: State, k: nat, at: nat, bytes: seq<L.byte>)
    requires Inv(s) && CanAct(s, Owner(R.Copy(k, at, bytes)))
    ensures Holds(Act(s, Owner(R.Copy(k, at, bytes))).hist, k, at, bytes)
  {
    hide Inv, L.Store;
    var d := s.hist.elems[k].data;
    assert I.Overwrite(d, at, bytes)[at..at + |bytes|] == bytes;
  }

  /** End to end, for any number of threads: what the owner of the k-th served put copies into its element, and does not
      copy over again, is what the owner of the k-th served get finds there from set_ready to set_done, at the address
      that both were told. */
  lemma DataDelivered(s: State, k: nat, at: nat, bytes: seq<L.byte>, actions: seq<Action>, s': State)
    requires Reachable(s) && CanAct(s, Owner(R.Copy(k, at, bytes))) && Runs(Act(s, Owner(R.Copy(k, at, bytes))), actions, s')
    requires NotOverwritten(actions, k, at, at + |bytes|)
    requires k < |s'.gets| && k < |s'.hist.elems| && s'.hist.elems[k].status == L.READY
    ensures s'.ring.size == |s'.ring.mem| > 0 && k < |s.puts| <= |s'.puts| && s'.gets[k] in s'.got
    ensures s.puts[k] in s.placed && s.placed[s.puts[k]] == s'.got[s'.gets[k]].data
    ensures var slot := s'.got[s'.gets[k]];
            at + |bytes| <= slot.usize && L.DataAt(s'.ring.mem, slot.data, slot.usize)[at..at + |bytes|] == bytes
  {
    var a := Owner(R.Copy(k, at, bytes));
    hide Act, CanAct, Reachable, Runs, Inv, I.Inv, Holds, NotOverwritten;
    ReachableInv(s);
    ActInv(s, a);
    ActExtends(s, a);
    ActReachable(s, a);
    ReachableOn(Act(s, a), actions, s');
    RunExtends(Act(s, a), actions, s');
    CopyHolds(s, k, at, bytes);
    RunHolds(Act(s, a), actions, s', k, at, bytes);
    F.ExtendsFurther(s.hist, Act(s, a).hist, s'.hist);
    OwnerKnows(s, a.a);
    SameAddress(s, s', k);
    FirstInFirstOut(s', k);
    ReachableInv(s');
    ReadsBack(s', k, at, bytes);
  }

  lemma OwnerKnows(s: State, o: R.Action)
    requires CanAct(s, Owner(o)) && o.Copy?
    ensures o.i < |s.puts|
  {
  }

  /** An element's address is told once and for all. */
  lemma SameAddress(s: State, s': State, k: nat)
    requires Reachable(s) && Reachable(s') && F.Extends(s.hist, s'.hist) && s'.ring.size == s.ring.size
    requires s.puts <= s'.puts && k < |s.puts|
    ensures s.puts[k] in s.placed && s'.puts[k] in s'.placed && s.placed[s.puts[k]] == s'.placed[s'.puts[k]]
  {
    PutsInSwapOrder(s);
    PutsInSwapOrder(s');
    hide Reachable;
    assert s'.hist.starts[k] == s.hist.starts[k];
  }

  /** What an element that is not done holds is in memory at its address. */
  lemma ReadsBack(s: State, k: nat, at: nat, bytes: seq<L.byte>)
    requires Inv(s) && k < |s.gets| && k < |s.hist.elems| && s.hist.elems[k].status == L.READY && Holds(s.hist, k, at, bytes)
    ensures s.ring.size == |s.ring.mem| > 0 && s.gets[k] in s.got
    ensures var slot := s.got[s.gets[k]];
            at + |bytes| <= slot.usize && L.DataAt(s.ring.mem, slot.data, slot.usize)[at..at + |bytes|] == bytes
  {
    S.NotReclaimed(s.hist, k);
    assert I.ElemOk(s.ring, s.hist.elems[k]);
    F.ElementData(s.ring, s.hist, k);
    hide L.DataAt, QueueOk, InStep, PutHistory, Fitting, Untouched;
  }

  /** The ring's operations are never mixed: while a put is under way on the ring, one thread, the combiner, is executing,
      and it is the put of the oldest request; the same on the get side. */
  lemma OneOperationAtATime(s: State, t: nat)
    requires Reachable(s)
    ensures s.ring.put != M.PutIdle && InExec(s.put, t) ==>
              s.put.pcs[t].r < |s.sizes| && s.ring.put.usize == s.sizes[s.put.pcs[t].r] && s.put.role == Q.Held(t)
    ensures s.ring.put != M.PutIdle ==> Busy(s.put)
    ensures s.ring.get != M.GetIdle ==> Busy(s.get)
  {
    ReachableInv(s);
    if InExec(s.put, t) { ExecRequest(s.put, t, s.puts); }
    hide I.Inv, QI.Inv, Reachable;
  }
}
