/** A concrete run of the whole ring buffer in which a monitor that is left over stalls the get side, although an element
    is ready. */
module RingStalls {
  import opened Options
  import opened Modular
  import opened CombiningPeeks
  import opened RingQueues
  import opened RingPeeks
  import opened RingPeekTheorems
  import Q = CombiningQueue
  import M = RingMachine
  import I = RingInvariant
  import R = RingRuns
  import F = RingFifo
  import L = RingLayout

  const SIZE: nat := 4096
  const ALIGN: nat := 64
  const OK := Q.Outcome(false, false, false)
  const EMPTY := Q.Outcome(true, false, false)
  const NOT_READY := Q.Outcome(true, true, false)

  /** A ring of one page: nothing is reclaimed, every element takes 64 bytes. */
  ghost predicate Setting(s: State, put: Q.State, get: Q.State, statuses: seq<nat>, got: nat) {
    && Reachable(s) && s.put == put && s.get == get && !s.hist.doneOnly && s.hist.reaped == 0 && s.hist.got == got
    && s.ring.size == SIZE && s.ring.align == ALIGN
    && |s.hist.elems| == |statuses| && (forall i {:trigger s.hist.elems[i]} :: 0 <= i < |statuses| ==> s.hist.elems[i].status == statuses[i])
    && I.Shape(s.hist) && I.Used(s.hist) == 64 * |statuses|
    && (forall i {:trigger s.sizes[i]} :: 0 <= i < |s.sizes| ==> s.sizes[i] == 8)
  }

  /** ... between the operations on it. */
  ghost predicate Quiet(s: State, put: Q.State, get: Q.State, statuses: seq<nat>, got: nat) {
    && Setting(s, put, get, statuses, got)
    && s.ring.put == M.PutIdle && s.ring.get == M.GetIdle && !s.putEnded && !s.getEnded
  }

  function Start(): M.Ring {
    M.Ring(SIZE, ALIGN, seq(SIZE, i => 0), 56, 56, 56, M.PutIdle, M.GetIdle, M.PutNone, M.GetNone)
  }

  lemma Created0() returns (s: State)
    ensures Quiet(s, Q.Init(true), Q.Init(true), [], 0)
  {
    var hist := I.Hist(false, [], [56], 0, 0, 0, 0);
    s := State(Q.Init(true), Q.Init(true), Start(), hist, [], 0, 0, map[], map[], false, false, [], [], 0, 0, 0);
    assert R.Created(s.ring, s.hist);
    assert Created(s) && Runs(s, [], s);
  }

  // ---- Steps of the queues.

  /** Only exec_op depends on what it finds. */
  lemma SameRun(q: Q.State, t: nat, o: Q.Outcome, o': Q.Outcome)
    requires |q.reqs| == |q.pcs| && Q.Enabled(q, t, o) && Q.Enabled(q, t, o') && !InExec(q, t)
    ensures Q.DoRun(q, t, o) == Q.DoRun(q, t, o')
  {
    hide Q.DoWake, Q.DoAdvance, Q.DoWait, Q.DoLink, Q.DoFlagLast;
  }

  lemma StepGet(s: State, put: Q.State, get: Q.State, statuses: seq<nat>, got: nat, t: nat) returns (s': State)
    requires Quiet(s, put, get, statuses, got) && |get.reqs| == |get.pcs| && Q.Enabled(get, t, OK) && !InExec(get, t)
    ensures Quiet(s', put, Q.DoRun(get, t, OK), statuses, got) && s'.watched == s.watched
  {
    hide Reachable, Q.DoRun, Q.Enabled, I.Shape, I.Used, L.HeaderAt, L.HasFlag, GetReady;
    ReachableInv(s);
    var o := Q.Outcome(false, false, GetReady(s));
    ReadyHelps(get, t, o);
    SameRun(get, t, OK, o);
    SoundInv(s);
    s' := Act(s, RunGet(t));
    ActReachable(s, RunGet(t));
  }

  lemma ReadyHelps(q: Q.State, t: nat, o: Q.Outcome)
    requires |q.reqs| == |q.pcs| && Q.Enabled(q, t, OK)
    ensures Q.Enabled(q, t, o)
  {
  }

  lemma StepPut(s: State, put: Q.State, get: Q.State, statuses: seq<nat>, got: nat, t: nat) returns (s': State)
    requires Quiet(s, put, get, statuses, got) && |put.reqs| == |put.pcs| && Q.Enabled(put, t, OK) && !InExec(put, t)
    ensures Quiet(s', Q.DoRun(put, t, OK), get, statuses, got) && s'.watched == s.watched
  {
    hide Reachable, Q.DoRun, Q.Enabled, I.Shape, I.Used, L.HeaderAt, L.HasFlag, PutReady;
    ReachableInv(s);
    var o := Q.Outcome(false, false, PutReady(s));
    ReadyHelps(put, t, o);
    SameRun(put, t, OK, o);
    SoundInv(s);
    s' := Act(s, RunPut(t));
    ActReachable(s, RunPut(t));
  }

  lemma NewRequestGet(s: State, put: Q.State, get: Q.State, statuses: seq<nat>, got: nat, blocking: bool) returns (s': State)
    requires Quiet(s, put, get, statuses, got) && |get.reqs| == |get.pcs|
    ensures Quiet(s', put, Q.DoArrive(get, blocking), statuses, got) && s'.watched == s.watched
  {
    hide Reachable, Q.DoArrive, I.Shape, I.Used;
    ReachableInv(s);
    SoundInv(s);
    s' := Act(s, NewGet(blocking));
    ActReachable(s, NewGet(blocking));
  }

  lemma NewRequestPut(s: State, put: Q.State, get: Q.State, statuses: seq<nat>, got: nat) returns (s': State)
    requires Quiet(s, put, get, statuses, got) && |put.reqs| == |put.pcs|
    ensures Quiet(s', Q.DoArrive(put, false), get, statuses, got) && s'.watched == s.watched
  {
    hide Reachable, Q.DoArrive, I.Shape, I.Used, M.AlignUp;
    ReachableInv(s);
    SoundInv(s);
    Takes64();
    s' := Act(s, NewPut(false, 8));
    ActReachable(s, NewPut(false, 8));
  }

  lemma Takes64()
    ensures M.AlignUp(8 + L.HEADER_SIZE, ALIGN) == 64
  {
    WrapIsMod(79, 64);
    hide Wrap;
  }

  // ---- Operations on the ring.

  lemma GetOnce(s: State, put: Q.State, get: Q.State, statuses: seq<nat>, got: nat, t: nat) returns (s': State)
    requires Setting(s, put, get, statuses, got) && InExec(get, t) && !s.getEnded
    ensures s'.ring.put == s.ring.put && s'.putEnded == s.putEnded && s'.watched == s.watched
    ensures s'.getEnded == (s'.ring.get == M.GetIdle)
    ensures Setting(s', put, get, statuses, if s.ring.get.GetPublish? then got + 1 else got)
    ensures s.ring.get == M.GetIdle ==> if got == |statuses| then s'.getEnded && s'.ring.getResult.Empty? else s'.ring.get == M.GetLoad
    ensures s.ring.get == M.GetLoad ==>
              got < |statuses| && if statuses[got] == L.INIT then s'.getEnded && s'.ring.getResult.NotReady?
                                  else statuses[got] == L.READY ==> s'.ring.get.GetPublish?
    ensures s.ring.get.GetPublish? ==> s'.getEnded && s'.ring.getResult.Got?
  {
    hide Reachable, Inv, Q.Enabled, Q.DoRun, R.Act, R.HistAct, R.CanAct, GetReady;
    ReachableInv(s);
    RingInv(s);
    GetIsEnabled(s, t);
    s' := Act(s, RunGet(t));
    ActReachable(s, RunGet(t));
    GetOnRing(s.ring, s.hist, GetAction(s));
  }

  lemma GetIsEnabled(s: State, t: nat)
    requires Inv(s) && InExec(s.get, t)
    ensures CanAct(s, RunGet(t)) && |s.get.reqs| == |s.get.pcs| && Q.Enabled(s.get, t, OK) && !s.hist.doneOnly
  {
    hide I.Inv, QueueOk, PutHistory, GetHistory, Fitting, Untouched, Q.Enabled, CanAct, GetReady, Busy, PutEnd, GetEnd;
    ExecRequest(s.get, t, s.gets);
    ExecEnabled(s.get, t, OK);
    ExecEnabled(s.get, t, Q.Outcome(false, false, GetReady(s)));
    GetMoves(s, t);
  }

  lemma ExecEnabled(q: Q.State, t: nat, o: Q.Outcome)
    requires |q.reqs| == |q.pcs| && InExec(q, t) && q.pcs[t].r < |q.reqs|
    ensures Q.Enabled(q, t, o)
  {
  }

  /** What a step of a get finds, in full. */
  lemma GetOnRing(r: M.Ring, h: I.Hist, a: R.Action)
    requires I.Inv(r, h) && R.CanAct(r, h, a) && (a.BeginGet? || a.StepGet?) && !h.doneOnly
    requires a.BeginGet? <==> r.get == M.GetIdle
    ensures r.size > 0 && r.align > 0 && I.Shape(h)
    ensures var r', h' := R.Act(r, h, a), R.HistAct(r, h, a);
            && r'.put == r.put && r'.size == r.size && r'.align == r.align && h'.elems == h.elems && h'.starts == h.starts
            && h'.reaped == h.reaped && h'.doneOnly == h.doneOnly && h'.got == (if r.get.GetPublish? then h.got + 1 else h.got)
            && I.Shape(h')
            && (r.get == M.GetIdle ==>
                  if h.got == |h.elems| then r'.get == M.GetIdle && r'.getResult.Empty? else r'.get == M.GetLoad)
            && (r.get == M.GetLoad ==>
                  h.got < |h.elems| && if h.elems[h.got].status == L.INIT then r'.get == M.GetIdle && r'.getResult.NotReady?
                                       else h.elems[h.got].status == L.READY ==> r'.get.GetPublish?)
            && (r.get.GetPublish? ==> r'.get == M.GetIdle && r'.getResult.Got?)
  {
    var r', h' := R.Act(r, h, a), R.HistAct(r, h, a);
    RingGet(r, h, a);
    GetSame(r, h, a);
    if !r.get.GetPublish? { F.GetFailsExactly(r, h, a, r', h'); } else { F.GetTakesOldest(r, h, a, r', h'); }
    hide I.Inv;
  }

  lemma RingInv(s: State)
    requires Inv(s)
    ensures I.Inv(s.ring, s.hist)
  {
  }

  /** A get of the request in execution, from its first access to the ring to its return code. */
  lemma ExecGet(s: State, put: Q.State, get: Q.State, statuses: seq<nat>, got: nat, t: nat) returns (s': State, o: Q.Outcome)
    requires Quiet(s, put, get, statuses, got) && InExec(get, t)
    requires got < |statuses| ==> statuses[got] == L.INIT || statuses[got] == L.READY
    ensures |get.reqs| == |get.pcs| && Q.Enabled(get, t, o)
    ensures o == if got >= |statuses| then EMPTY else if statuses[got] == L.INIT then NOT_READY else OK
    ensures Quiet(s', put, Q.DoRun(get, t, o), statuses, if o == OK then got + 1 else got)
    ensures s'.watched == if o == NOT_READY then got else s.watched
  {
    hide Setting, Q.Enabled, Q.DoRun;
    var s1 := GetOnce(s, put, get, statuses, got, t);
    if got < |statuses| { s1 := GetOnce(s1, put, get, statuses, got, t); }
    var got1 := got;
    if got < |statuses| && statuses[got] == L.READY {
      s1 := GetOnce(s1, put, get, statuses, got, t);
      got1 := got + 1;
    }
    SettingBounds(s, put, get, statuses, got);
    o := if got >= |statuses| then EMPTY else if statuses[got] == L.INIT then NOT_READY else OK;
    s' := AnswerGet(s1, put, get, statuses, got1, t, o);
  }

  lemma SettingBounds(s: State, put: Q.State, get: Q.State, statuses: seq<nat>, got: nat)
    requires Setting(s, put, get, statuses, got)
    ensures got <= |statuses|
  {
  }

  lemma AnswerGet(s: State, put: Q.State, get: Q.State, statuses: seq<nat>, got: nat, t: nat, o: Q.Outcome) returns (s': State)
    requires Setting(s, put, get, statuses, got) && InExec(get, t) && s.getEnded && s.ring.get == M.GetIdle
    requires s.ring.put == M.PutIdle && !s.putEnded
    requires match s.ring.getResult case Got(_, _) => o == OK case NotReady(_) => o == NOT_READY case _ => o == EMPTY
    ensures |get.reqs| == |get.pcs| && Q.Enabled(get, t, o) && Quiet(s', put, Q.DoRun(get, t, o), statuses, got)
    ensures s'.watched == if o == NOT_READY then got else s.watched
  {
    hide Reachable, Inv, Q.Enabled, Q.DoRun, I.Shape, I.Used, GetReady;
    ReachableInv(s);
    GetIsEnabled(s, t);
    EnabledExec(get, t, OK, o);
    s' := Act(s, RunGet(t));
    ActReachable(s, RunGet(t));
  }

  lemma PutOnce(s: State, put: Q.State, get: Q.State, statuses: seq<nat>, got: nat, t: nat) returns (s': State)
    requires Setting(s, put, get, statuses, got) && InExec(put, t) && !s.putEnded && |statuses| <= 2
    requires s.ring.put == M.PutIdle || s.ring.put == M.WriteHeader(8, 64) || s.ring.put == M.PublishHead(8, 64)
    ensures s'.ring.get == s.ring.get && s'.getEnded == s.getEnded && s'.watched == s.watched
    ensures s'.putEnded == (s'.ring.put == M.PutIdle)
    ensures Setting(s', put, get, if s.ring.put.PublishHead? then statuses + [L.INIT] else statuses, got)
    ensures s.ring.put == M.PutIdle ==> s'.ring.put == M.WriteHeader(8, 64)
    ensures s.ring.put.WriteHeader? ==> s'.ring.put == M.PublishHead(8, 64)
    ensures s.ring.put.PublishHead? ==> s'.putEnded && s'.ring.putResult.Placed?
  {
    hide Reachable, Inv, Q.Enabled, Q.DoRun, R.Act, R.HistAct, R.CanAct, PutReady;
    ReachableInv(s);
    RingInv(s);
    PutIsEnabled(s, t);
    s' := Act(s, RunPut(t));
    ActReachable(s, RunPut(t));
    PutOnRing(s.ring, s.hist, PutAction(s, t));
  }

  lemma PutIsEnabled(s: State, t: nat)
    requires Inv(s) && InExec(s.put, t)
    ensures CanAct(s, RunPut(t)) && |s.put.reqs| == |s.put.pcs| && Q.Enabled(s.put, t, OK) && s.put.pcs[t].r < |s.sizes|
  {
    hide I.Inv, QueueOk, PutHistory, GetHistory, Fitting, Untouched, Q.Enabled, CanAct, PutReady, Busy, PutEnd, GetEnd;
    ExecRequest(s.put, t, s.puts);
    ExecEnabled(s.put, t, OK);
    ExecEnabled(s.put, t, Q.Outcome(false, false, PutReady(s)));
    PutMoves(s, t);
  }

  /** A put of 8 bytes that finds room at once. */
  lemma PutOnRing(r: M.Ring, h: I.Hist, a: R.Action)
    requires I.Inv(r, h) && r.size == SIZE && r.align == ALIGN && I.Shape(h) && I.Used(h) <= 128
    requires (a == R.BeginPut(8) && r.put == M.PutIdle)
             || (a == R.StepPut && (r.put == M.WriteHeader(8, 64) || r.put == M.PublishHead(8, 64)))
    ensures var r', h' := R.Act(r, h, a), R.HistAct(r, h, a);
            && r'.get == r.get && r'.size == r.size && r'.align == r.align && h'.doneOnly == h.doneOnly && h'.got == h.got
            && h'.reaped == h.reaped && I.Shape(h')
            && (if r.put.PublishHead? then
                  && |h'.elems| == |h.elems| + 1 && h'.elems[..|h.elems|] == h.elems && h'.elems[|h.elems|].status == L.INIT
                  && I.Used(h') == I.Used(h) + 64
                else h'.elems == h.elems && h'.starts == h.starts)
            && (r.put == M.PutIdle ==> r'.put == M.WriteHeader(8, 64))
            && (r.put.WriteHeader? ==> r'.put == M.PublishHead(8, 64))
            && (r.put.PublishHead? ==> r'.put == M.PutIdle && r'.putResult.Placed?)
  {
    I.FreeSpaceExact(r, h);
    Takes64();
    hide I.Inv, M.FreeSpace, M.AlignUp, L.Store, L.HeaderBytes, L.DataAt, Wrap;
  }

  lemma AnswerPut(s: State, put: Q.State, get: Q.State, statuses: seq<nat>, got: nat, t: nat) returns (s': State)
    requires Setting(s, put, get, statuses, got) && InExec(put, t) && s.putEnded && s.ring.put == M.PutIdle
    requires s.ring.get == M.GetIdle && !s.getEnded && s.ring.putResult.Placed?
    ensures |put.reqs| == |put.pcs| && Q.Enabled(put, t, OK) && Quiet(s', Q.DoRun(put, t, OK), get, statuses, got)
    ensures s'.watched == s.watched
  {
    hide Reachable, Inv, Q.Enabled, Q.DoRun, I.Shape, I.Used, PutReady;
    ReachableInv(s);
    PutIsEnabled(s, t);
    s' := Act(s, RunPut(t));
    ActReachable(s, RunPut(t));
  }

  /** A put of the request in execution, from its first access to the ring to its return code. */
  lemma ExecPut(s: State, put: Q.State, get: Q.State, statuses: seq<nat>, got: nat, t: nat) returns (s': State)
    requires Quiet(s, put, get, statuses, got) && InExec(put, t) && |statuses| <= 2
    ensures |put.reqs| == |put.pcs| && Q.Enabled(put, t, OK)
    ensures Quiet(s', Q.DoRun(put, t, OK), get, statuses + [L.INIT], got) && s'.watched == s.watched
  {
    hide Setting, Q.Enabled, Q.DoRun;
    s' := PutOnce(s, put, get, statuses, got, t);
    s' := PutOnce(s', put, get, statuses, got, t);
    s' := PutOnce(s', put, get, statuses, got, t);
    s' := AnswerPut(s', put, get, statuses + [L.INIT], got, t);
  }

  /** The owner of element `i` sets it ready, or done after it was got. */
  lemma SetStatus(s: State, put: Q.State, get: Q.State, statuses: seq<nat>, got: nat, i: nat, status: nat) returns (s': State)
    requires Quiet(s, put, get, statuses, got) && i < |statuses|
    requires (status == L.READY && statuses[i] == L.INIT) || (status == L.DONE && statuses[i] == L.READY && i < got)
    ensures Quiet(s', put, get, statuses[i := status], got) && s'.watched == s.watched
  {
    hide Reachable, Inv, R.Act, R.HistAct;
    var o := if status == L.READY then R.SetReady(i) else R.SetDone(i);
    ReachableInv(s);
    Known(s);
    s' := Act(s, Owner(o));
    ActReachable(s, Owner(o));
    RingSets(s, i, status, o);
  }

  lemma Known(s: State)
    requires Inv(s) && !s.putEnded && !s.getEnded && !s.hist.doneOnly
    ensures Sound(s) && |s.puts| == |s.hist.elems| && |s.gets| == s.hist.got
  {
    hide I.Inv, QueueOk, PutHistory, GetHistory, Untouched;
  }

  lemma RingSets(s: State, i: nat, status: nat, o: R.Action)
    requires Inv(s) && o == (if status == L.READY then R.SetReady(i) else R.SetDone(i)) && R.CanAct(s.ring, s.hist, o)
    requires status == L.READY || status == L.DONE
    ensures s.ring.size > 0 && s.ring.align > 0 && I.Shape(s.hist)
    ensures var r', h' := R.Act(s.ring, s.hist, o), R.HistAct(s.ring, s.hist, o);
            && r'.put == s.ring.put && r'.get == s.ring.get && r'.size == s.ring.size && r'.align == s.ring.align
            && h'.doneOnly == s.hist.doneOnly && h'.got == s.hist.got && h'.reaped == s.hist.reaped && h'.starts == s.hist.starts
            && i < |s.hist.elems| && h'.elems == s.hist.elems[i := s.hist.elems[i].(status := status)]
  {
    ShapeOf(s);
    hide L.Store, L.StatusBytes, QueueOk, I.Inv;
  }

  // ---- The run, in scenes.  Gets 0, 1 and 2 are not blocking, get 3 is; thread 0 combines the first three.  Get 1 finds
  // element 0 not ready and sets the monitor; get 2 takes the element once it is ready; then the queue closes.  The element
  // is set done.  Get 3 finds the ring empty and polls what is left in the monitor.  Element 1 is put and set ready.

  function Put0(): Q.State {
    Q.State(true, Some(0), [Q.Req(false, None, Q.InProgress, false, false)], [Q.Combining(0, 127, 128, Q.Executing)],
            false, false, None, 0, Q.Held(0), map[], false, [])
  }

  function Put1(): Q.State {
    Q.State(true, None, [Q.Req(false, None, Q.Served, false, true)], [Q.Returned],
            false, false, None, 1, Q.Nobody, map[], false, [0])
  }

  lemma FirstPut(s: State, get: Q.State) returns (s': State)
    requires Quiet(s, Q.Init(true), get, [], 0)
    ensures Quiet(s', Put1(), get, [L.INIT], 0)
  {
    hide Quiet;
    s' := NewRequestPut(s, Q.Init(true), get, [], 0);
    assert Q.DoArrive(Q.Init(true), false) == Put0();
    s' := ExecPut(s', Put0(), get, [], 0, 0);
    assert [] + [L.INIT] == [L.INIT];
    var put := Q.DoRun(Put0(), 0, OK);
    s' := PutReturns(s', put, get, [L.INIT], 0, 0);
    assert Closed(put, 0) == Put1();
  }

  /** What a single put that was served, and closes the queue, leaves. */
  function Closed(put: Q.State, t: nat): Q.State
    requires |put.reqs| == |put.pcs| == t + 1
  {
    put.(tail := None, first := t + 1, role := Q.Nobody, monitoring := false,
         reqs := put.reqs[t := Q.Req(false, None, Q.Served, false, true)], pcs := put.pcs[t := Q.Returned])
  }

  lemma PutReturns(s: State, put: Q.State, get: Q.State, statuses: seq<nat>, got: nat, t: nat) returns (s': State)
    requires Quiet(s, put, get, statuses, got) && |put.reqs| == |put.pcs| == t + 1 && put.first == t && put.tail == Some(t)
    requires put.pcs[t] == Q.Combining(t, 127, 128, Q.Deciding) && put.reqs[t] == Q.Req(false, None, Q.Served, false, false)
    requires !put.nap && put.closing == map[] && put.blockingRing
    ensures Quiet(s', Closed(put, t), get, statuses, got) && s'.watched == s.watched
  {
    hide Quiet;
    var p1 := put.(pcs := put.pcs[t := Q.Combining(t, 127, 128, Q.WakingUp(Q.Proceed, Q.Test))]);
    s' := StepPut(s, put, get, statuses, got, t);
    var p2 := put.(pcs := put.pcs[t := Q.Combining(t, 127, 128, Q.ReadingNext)], monitoring := false);
    assert Q.DoRun(p1, t, OK) == p2;
    s' := StepPut(s', p1, get, statuses, got, t);
    var p3 := p2.(pcs := put.pcs[t := Q.Combining(t, 127, 128, Q.Closing)]);
    assert Q.DoRun(p2, t, OK) == p3;
    s' := StepPut(s', p2, get, statuses, got, t);
    var p4 := p2.(pcs := put.pcs[t := Q.FlaggingLast(t)], tail := None, first := t + 1, role := Q.Nobody, closing := map[t := t]);
    assert Q.DoRun(p3, t, OK) == p4;
    s' := StepPut(s', p3, get, statuses, got, t);
    assert Q.DoRun(p4, t, OK) == Closed(put, t);
    s' := StepPut(s', p4, get, statuses, got, t);
  }

  function PutTwo(): Q.State {
    Q.State(true, Some(1), [Q.Req(false, None, Q.Served, false, true), Q.Req(false, None, Q.InProgress, false, false)],
            [Q.Returned, Q.Combining(1, 127, 128, Q.Executing)],
            false, false, None, 1, Q.Held(1), map[], false, [0])
  }

  lemma SecondPut(s: State, get: Q.State, statuses: seq<nat>, got: nat) returns (s': State, put': Q.State)
    requires Quiet(s, Put1(), get, statuses, got) && |statuses| <= 2
    ensures Quiet(s', put', get, statuses + [L.INIT], got) && s'.watched == s.watched
  {
    hide Quiet;
    s' := NewRequestPut(s, Put1(), get, statuses, got);
    assert Q.DoArrive(Put1(), false) == PutTwo();
    s' := ExecPut(s', PutTwo(), get, statuses, got, 1);
    var put := Q.DoRun(PutTwo(), 1, OK);
    s' := PutReturns(s', put, get, statuses + [L.INIT], got, 1);
    put' := Closed(put, 1);
  }

  function Get0(): Q.State {
    Q.State(true, Some(0), [Q.Req(false, None, Q.InProgress, false, false)], [Q.Combining(0, 127, 128, Q.Executing)],
            false, false, None, 0, Q.Held(0), map[], false, [])
  }

  /** Get 0 has failed, and gets 1 and 2 are behind it. */
  function Three(): Q.State {
    Q.State(true, Some(2),
            [Q.Req(false, Some(1), Q.Again, false, false),
             Q.Req(false, Some(2), Q.InProgress, false, false),
             Q.Req(false, None, Q.InProgress, false, false)],
            [Q.Combining(0, 127, 128, Q.Deciding), Q.Returned, Q.Returned],
            false, true, None, 0, Q.Held(0), map[], false, [0])
  }

  lemma Arrivals(s: State, put: Q.State) returns (s': State)
    requires Quiet(s, put, Q.Init(true), [L.INIT], 0)
    ensures Quiet(s', put, Three(), [L.INIT], 0)
  {
    hide Quiet;
    var st := [L.INIT];
    s' := NewRequestGet(s, put, Q.Init(true), st, 0, false);
    assert Q.DoArrive(Q.Init(true), false) == Get0();
    var o;
    s', o := ExecGet(s', put, Get0(), st, 0, 0);
    var g1 := Q.DoRun(Get0(), 0, NOT_READY);
    s' := NewRequestGet(s', put, g1, st, 0, false);
    var g2 := Q.DoArrive(g1, false);
    s' := StepGet(s', put, g2, st, 0, 1);
    var g3 := Q.DoRun(g2, 1, OK);
    s' := NewRequestGet(s', put, g3, st, 0, false);
    var g4 := Q.DoArrive(g3, false);
    s' := StepGet(s', put, g4, st, 0, 2);
    assert Q.DoRun(g4, 2, OK) == Three();
  }

  /** Thread 0 has cleared the monitor and goes on with get 1. */
  function Second(): Q.State {
    Q.State(true, Some(2),
            [Q.Req(false, Some(1), Q.Again, false, true),
             Q.Req(false, Some(2), Q.InProgress, false, false),
             Q.Req(false, None, Q.InProgress, false, false)],
            [Q.Combining(1, 126, 128, Q.Executing), Q.Returned, Q.Returned],
            false, false, None, 1, Q.Held(0), map[], false, [0])
  }

  lemma FirstFails(s: State, put: Q.State) returns (s': State)
    requires Quiet(s, put, Three(), [L.INIT], 0)
    ensures Quiet(s', put, Second(), [L.INIT], 0)
  {
    hide Quiet;
    var st := [L.INIT];
    s' := StepGet(s, put, Three(), st, 0, 0);
    var g1 := Q.DoRun(Three(), 0, OK);
    s' := StepGet(s', put, g1, st, 0, 0);
    var g2 := Q.DoRun(g1, 0, OK);
    s' := StepGet(s', put, g2, st, 0, 0);
    var g3 := Q.DoRun(g2, 0, OK);
    s' := StepGet(s', put, g3, st, 0, 0);
    assert Q.DoRun(g3, 0, OK) == Second();
  }

  /** Get 1 has set the monitor, and thread 0 goes on with get 2. */
  function Third(): Q.State {
    Q.State(true, Some(2),
            [Q.Req(false, Some(1), Q.Again, false, true),
             Q.Req(false, Some(2), Q.Again, false, true),
             Q.Req(false, None, Q.InProgress, false, false)],
            [Q.Combining(2, 125, 128, Q.Executing), Q.Returned, Q.Returned],
            false, true, None, 2, Q.Held(0), map[], false, [0, 1])
  }

  lemma SecondSetsMonitor(s: State, put: Q.State) returns (s': State)
    requires Quiet(s, put, Second(), [L.INIT], 0)
    ensures Quiet(s', put, Third(), [L.INIT], 0) && s'.watched == 0
  {
    hide Quiet;
    var st, o := [L.INIT], OK;
    s', o := ExecGet(s, put, Second(), st, 0, 0);
    var g1 := Q.DoRun(Second(), 0, NOT_READY);
    s' := StepGet(s', put, g1, st, 0, 0);
    var g2 := Q.DoRun(g1, 0, OK);
    s' := StepGet(s', put, g2, st, 0, 0);
    var g3 := Q.DoRun(g2, 0, OK);
    s' := StepGet(s', put, g3, st, 0, 0);
    assert Q.DoRun(g3, 0, OK) == Third();
  }

  /** Get 2 was served, and the queue is closed. */
  function ClosedQueue(): Q.State {
    Q.State(true, None,
            [Q.Req(false, Some(1), Q.Again, false, true),
             Q.Req(false, Some(2), Q.Again, false, true),
             Q.Req(false, None, Q.Served, false, true)],
            [Q.Returned, Q.Returned, Q.Returned],
            false, true, None, 3, Q.Nobody, map[], false, [0, 1, 2])
  }

  lemma ThirdTakes(s: State, put: Q.State) returns (s': State)
    requires Quiet(s, put, Third(), [L.READY], 0)
    ensures Quiet(s', put, ClosedQueue(), [L.READY], 1) && s'.watched == s.watched
  {
    hide Quiet;
    var st, o := [L.READY], OK;
    s', o := ExecGet(s, put, Third(), st, 0, 0);
    var g1 := Q.DoRun(Third(), 0, OK);
    s' := StepGet(s', put, g1, st, 1, 0);
    var g2 := Q.DoRun(g1, 0, OK);
    s' := StepGet(s', put, g2, st, 1, 0);
    var g3 := Q.DoRun(g2, 0, OK);
    s' := StepGet(s', put, g3, st, 1, 0);
    var g4 := Q.DoRun(g3, 0, OK);
    s' := StepGet(s', put, g4, st, 1, 0);
    assert Q.DoRun(g4, 0, OK) == ClosedQueue();
  }

  function Fourth(): Q.State {
    Q.State(true, Some(3),
            ClosedQueue().reqs + [Q.Req(true, None, Q.InProgress, false, false)],
            [Q.Returned, Q.Returned, Q.Returned, Q.Combining(3, 127, 128, Q.Executing)],
            false, true, None, 3, Q.Held(3), map[], false, [0, 1, 2])
  }

  /** Get 3 has found nothing and polls. */
  function Polling(): Q.State {
    Q.State(true, Some(3),
            ClosedQueue().reqs + [Q.Req(true, None, Q.Again, false, false)],
            [Q.Returned, Q.Returned, Q.Returned, Q.Combining(3, 127, 128, Q.Peeking)],
            true, true, None, 3, Q.Held(3), map[], false, [0, 1, 2, 3])
  }

  lemma FourthPolls(s: State, put: Q.State) returns (s': State)
    requires Quiet(s, put, ClosedQueue(), [L.DONE], 1)
    ensures Quiet(s', put, Polling(), [L.DONE], 1) && s'.watched == s.watched
  {
    hide Quiet;
    var st, o := [L.DONE], OK;
    s' := NewRequestGet(s, put, ClosedQueue(), st, 1, true);
    assert Q.DoArrive(ClosedQueue(), true) == Fourth();
    s', o := ExecGet(s', put, Fourth(), st, 1, 3);
    var g1 := Q.DoRun(Fourth(), 3, EMPTY);
    s' := StepGet(s', put, g1, st, 1, 3);
    var g2 := Q.DoRun(g1, 3, OK);
    s' := StepGet(s', put, g2, st, 1, 3);
    assert Q.DoRun(g2, 3, OK) == Polling();
  }

  /** The left-over monitor is real: there is a run of the ring buffer, with nothing wrong in its use, that leads to a
      combiner polling an element that was taken and set done long ago, while the oldest element that was not got is ready.
      It has no step, and no get is executed until a put reclaims the element it polls (LeftOverStalls). */
  lemma MonitorLeftOver() returns (s: State)
    ensures Reachable(s) && Stalled(s, 3) && !CanAct(s, RunGet(3))
    ensures s.hist.got < |s.hist.elems| && s.hist.elems[s.hist.got].status == L.READY
  {
    hide Quiet, Stalled, Reachable, CanAct, Put1, Three, Second, Third, ClosedQueue, Polling;
    s := Created0();
    s := FirstPut(s, Q.Init(true));
    s := Arrivals(s, Put1());
    s := FirstFails(s, Put1());
    s := SecondSetsMonitor(s, Put1());
    s := SetStatus(s, Put1(), Third(), [L.INIT], 0, 0, L.READY);
    assert [L.INIT][0 := L.READY] == [L.READY];
    s := ThirdTakes(s, Put1());
    s := SetStatus(s, Put1(), ClosedQueue(), [L.READY], 1, 0, L.DONE);
    assert [L.READY][0 := L.DONE] == [L.DONE];
    s := FourthPolls(s, Put1());
    var put;
    s, put := SecondPut(s, Polling(), [L.DONE], 1);
    var st := [L.DONE] + [L.INIT];
    s := SetStatus(s, put, Polling(), st, 1, 1, L.READY);
    Ends(s, put, st[1 := L.READY]);
  }

  lemma Ends(s: State, put: Q.State, statuses: seq<nat>)
    requires Quiet(s, put, Polling(), statuses, 1) && statuses == [L.DONE, L.READY] && s.watched == 0
    ensures Reachable(s) && Stalled(s, 3) && !CanAct(s, RunGet(3))
    ensures s.hist.got < |s.hist.elems| && s.hist.elems[s.hist.got].status == L.READY
  {
    hide Inv, CanAct, Reachable, GetReady, Sound;
    assert s.hist.elems[0].status == statuses[0] && s.hist.elems[1].status == statuses[1];
    ReachableInv(s);
    SoundInv(s);
    GetPeeks(s, 3);
    StalledIsStuck(s, 3);
  }
}
