/** The whole ring buffer: the put side and the get side, each a combining queue of any number of threads with its nap
    protocol, over one byte ring.  exec_op is no longer an arbitrary outcome but the steps of a put or a get on the ring. */
module RingQueues {
  import opened Options
  import opened CombiningPeeks
  import Q = CombiningQueue
  import QI = CombiningInvariant
  import QT = CombiningTheorems
  import M = RingMachine
  import I = RingInvariant
  import S = RingSteps
  import R = RingRuns
  import F = RingFifo
  import C = RingReclaim
  import L = RingLayout
  import W = Modular

  /** `sizes` are the bytes that each put request asks for; `placed` and `got` are what served requests were told, by
      request.  A put or get has ended once it is done with the ring and only has its return code left to write.  The last
      row is history only: the served requests in the order they were served, and the element, the request and the thread
      of the get that last set the monitor. */
  datatype State = State(
    put: Q.State, get: Q.State, ring: M.Ring, hist: I.Hist, sizes: seq<nat>, putMonitor: nat, getMonitor: nat,
    placed: map<nat, nat>, got: map<nat, F.Slot>, putEnded: bool, getEnded: bool,
    puts: seq<nat>, gets: seq<nat>, watched: nat, watcher: nat, setter: nat)

  /** A call of ring_buffer_put or ring_buffer_get begins, a thread takes its next step, or the owner of an element, who has
      its address from a served request, does something to it. */
  datatype Action =
    | NewPut(blocking: bool, usize: nat)
    | RunPut(t: nat)
    | NewGet(blocking: bool)
    | RunGet(t: nat)
    | Owner(a: R.Action)

  /** What a peeking combiner waits for: the monitored element is done, or is ready. */
  function PutReady(s: State): bool {
    L.HasFlag(L.HeaderAt(s.ring.mem, s.putMonitor).status, L.DONE)
  }

  function GetReady(s: State): bool {
    L.HasFlag(L.HeaderAt(s.ring.mem, s.getMonitor).status, L.READY)
  }

  predicate Sound(s: State) {
    && s.ring.size > 0 && s.ring.align > 0 && |s.hist.starts| == |s.hist.elems| + 1
    && s.hist.reaped <= |s.hist.elems| && s.hist.got <= |s.hist.elems|
    && |s.put.reqs| == |s.put.pcs| == |s.sizes| && |s.get.reqs| == |s.get.pcs|
  }

  /** The next step of the ring for a put or a get of the request in execution. */
  function PutAction(s: State, t: nat): R.Action
    requires InExec(s.put, t)
  {
    if s.ring.put == M.PutIdle && s.put.pcs[t].r < |s.sizes| then R.BeginPut(s.sizes[s.put.pcs[t].r]) else R.StepPut
  }

  function GetAction(s: State): R.Action {
    if s.ring.get == M.GetIdle then R.BeginGet else R.StepGet
  }

  predicate OwnersMove(a: R.Action) {
    a.SetReady? || a.SetDone? || a.Copy?
  }

  predicate CanAct(s: State, a: Action) {
    && Sound(s)
    && match a
       case NewPut(_, usize) => M.AlignUp(usize + L.HEADER_SIZE, s.ring.align) <= s.ring.size
       case RunPut(t) =>
         && Q.Enabled(s.put, t, Q.Outcome(false, false, PutReady(s)))
         && (InExec(s.put, t) && !s.putEnded ==> R.CanAct(s.ring, s.hist, PutAction(s, t)))
       case NewGet(_) => !s.hist.doneOnly
       case RunGet(t) =>
         && Q.Enabled(s.get, t, Q.Outcome(false, false, GetReady(s)))
         && (InExec(s.get, t) && !s.getEnded ==> R.CanAct(s.ring, s.hist, GetAction(s)))
       case Owner(o) =>
         && OwnersMove(o) && R.CanAct(s.ring, s.hist, o)
         && o.i < if o.SetDone? && !s.hist.doneOnly then |s.gets| else |s.puts|
  }

  /** A step of the ring on the put side, or once the put has ended the write of its return code. */
  ghost function PutExecuted(s: State, t: nat): State
    requires CanAct(s, RunPut(t)) && InExec(s.put, t)
  {
    if s.putEnded then PutAnswered(s, t)
    else
      var a := PutAction(s, t);
      var ring := R.Act(s.ring, s.hist, a);
      s.(ring := ring, hist := R.HistAct(s.ring, s.hist, a), putEnded := ring.put == M.PutIdle)
  }

  function PutAnswered(s: State, t: nat): State
    requires CanAct(s, RunPut(t)) && InExec(s.put, t)
  {
    var req, res := s.put.pcs[t].r, s.ring.putResult;
    if res.Placed? then
      s.(putEnded := false, put := Q.DoRun(s.put, t, Q.Outcome(false, false, false)), puts := s.puts + [req],
         placed := s.placed[req := res.data])
    else
      s.(putEnded := false, put := Q.DoRun(s.put, t, Q.Outcome(true, true, false)),
         putMonitor := if res.Full? then res.monitor else s.putMonitor)
  }

  ghost function GetExecuted(s: State, t: nat): State
    requires CanAct(s, RunGet(t)) && InExec(s.get, t)
  {
    if s.getEnded then GetAnswered(s, t)
    else
      var a := GetAction(s);
      var ring := R.Act(s.ring, s.hist, a);
      s.(ring := ring, hist := R.HistAct(s.ring, s.hist, a), getEnded := ring.get == M.GetIdle)
  }

  function GetAnswered(s: State, t: nat): State
    requires CanAct(s, RunGet(t)) && InExec(s.get, t)
  {
    var req, res := s.get.pcs[t].r, s.ring.getResult;
    if res.Got? then
      s.(getEnded := false, get := Q.DoRun(s.get, t, Q.Outcome(false, false, false)), gets := s.gets + [req],
         got := s.got[req := F.Slot(res.data, res.usize)])
    else if res.NotReady? then
      s.(getEnded := false, get := Q.DoRun(s.get, t, Q.Outcome(true, true, false)), getMonitor := res.monitor,
         watched := s.hist.got, watcher := req, setter := t)
    else
      s.(getEnded := false, get := Q.DoRun(s.get, t, Q.Outcome(true, false, false)))
  }

  ghost function Act(s: State, a: Action): State
    requires CanAct(s, a)
  {
    match a
    case NewPut(blocking, usize) => s.(put := Q.DoArrive(s.put, blocking), sizes := s.sizes + [usize])
    case RunPut(t) =>
      if InExec(s.put, t) then PutExecuted(s, t) else s.(put := Q.DoRun(s.put, t, Q.Outcome(false, false, PutReady(s))))
    case NewGet(blocking) => s.(get := Q.DoArrive(s.get, blocking))
    case RunGet(t) =>
      if InExec(s.get, t) then GetExecuted(s, t) else s.(get := Q.DoRun(s.get, t, Q.Outcome(false, false, GetReady(s))))
    case Owner(o) => s.(ring := R.Act(s.ring, s.hist, o), hist := R.HistAct(s.ring, s.hist, o))
  }

  /** What a step does to the ring, if anything. */
  function OnRing(s: State, a: Action): Option<R.Action>
    requires CanAct(s, a)
  {
    match a
    case RunPut(t) => if InExec(s.put, t) && !s.putEnded then Some(PutAction(s, t)) else None
    case RunGet(t) => if InExec(s.get, t) && !s.getEnded then Some(GetAction(s)) else None
    case Owner(o) => Some(o)
    case _ => None
  }

  lemma ActOnRing(s: State, a: Action)
    requires CanAct(s, a)
    ensures OnRing(s, a).None? ==> Act(s, a).ring == s.ring && Act(s, a).hist == s.hist
    ensures OnRing(s, a).Some? ==>
              var x := OnRing(s, a).value;
              R.CanAct(s.ring, s.hist, x) && Act(s, a).ring == R.Act(s.ring, s.hist, x)
              && Act(s, a).hist == R.HistAct(s.ring, s.hist, x)
    ensures OnRing(s, a).Some? && OwnersMove(OnRing(s, a).value) ==> a == Owner(OnRing(s, a).value)
  {
    hide R.Act, R.HistAct, R.CanAct, Q.DoRun, Q.DoArrive, Q.Enabled;
  }

  // ---- What a queue keeps about its served requests.

  /** The combiner is past exec_op for its request. */
  predicate PastExec(phase: Q.Phase) {
    phase.Deciding? || QI.Settled(phase)
  }

  /** The oldest request has not been served, unless its combiner is just past serving it. */
  predicate FirstUnserved(q: Q.State) {
    q.first < |q.reqs| && q.reqs[q.first].rc == Q.Served ==>
      q.role.Held? && q.role.holder < |q.pcs| && q.pcs[q.role.holder].Combining? && PastExec(q.pcs[q.role.holder].phase)
  }

  predicate Increasing(ids: seq<nat>) {
    forall j, k {:trigger ids[j], ids[k]} :: 0 <= j < k < |ids| ==> ids[j] < ids[k]
  }

  /** `ids` are the requests that have been served. */
  predicate AreServed(q: Q.State, ids: seq<nat>) {
    && Increasing(ids)
    && (forall k {:trigger ids[k]} :: 0 <= k < |ids| ==> ids[k] < |q.reqs| && q.reqs[ids[k]].rc == Q.Served)
    && (forall i {:trigger q.reqs[i]} :: 0 <= i < |q.reqs| && q.reqs[i].rc == Q.Served ==> i in ids)
  }

  ghost predicate QueueOk(q: Q.State, ids: seq<nat>) {
    QI.Inv(q) && FirstUnserved(q) && AreServed(q, ids)
  }

  /** Somebody's exec_op is under way on this side. */
  predicate Busy(q: Q.State) {
    q.role.Held? && InExec(q, q.role.holder)
  }

  lemma ArriveQueue(q: Q.State, blocking: bool, ids: seq<nat>)
    requires QueueOk(q, ids) && |q.reqs| == |q.pcs|
    ensures QueueOk(Q.DoArrive(q, blocking), ids)
    ensures |Q.DoArrive(q, blocking).reqs| == |Q.DoArrive(q, blocking).pcs| == |q.reqs| + 1
    ensures Busy(q) ==> Busy(Q.DoArrive(q, blocking)) && Q.DoArrive(q, blocking).first == q.first
  {
    QI.ArriveInv(q, blocking);
    hide QI.Local, QI.Inv;
  }

  /** The holder of the role is the only one who is combining. */
  lemma OnlyHolder(q: Q.State, t: nat)
    requires QI.Inv(q) && t < |q.pcs|
    ensures |q.reqs| == |q.pcs| && (q.pcs[t].Combining? <==> q.role == Q.Held(t))
    ensures q.pcs[t].Combining? ==> q.pcs[t].r == q.first < |q.reqs|
    ensures q.pcs[t].Waiting? && q.reqs[t].combiner ==> q.role == Q.Given(t)
    ensures q.pcs[t].Linking? ==> q.pcs[t].prev < |q.reqs|
    ensures q.pcs[t].FlaggingLast? ==> q.pcs[t].r < q.first
  {
    assert QI.Local(q, t, q.pcs[t]);
  }

  /** The queue's own steps change no return code. */
  lemma CombinerCodes(q: Q.State, t: nat, o: Q.Outcome, i: nat)
    requires |q.reqs| == |q.pcs| && Q.Enabled(q, t, o) && q.pcs[t].Combining? && !q.pcs[t].phase.Executing? && i < |q.reqs|
    ensures |Q.DoCombine(q, t, o).reqs| == |q.reqs| && Q.DoCombine(q, t, o).reqs[i].rc == q.reqs[i].rc
  {
    hide Q.DoAdvance, Q.DoWake;
    match q.pcs[t].phase
    case Executing =>
    case Deciding =>
    case Announcing =>
    case Peeking =>
    case WakingUp(_, _) => QT.WakerKeepsRequests(q, t);
    case ReadingNext =>
    case AwaitingLink =>
    case _ => AdvanceCodes(q, t, i);
  }

  lemma AdvanceCodes(q: Q.State, t: nat, i: nat)
    requires |q.reqs| == |q.pcs| && t < |q.pcs| && q.pcs[t].Combining? && q.pcs[t].r < |q.reqs| && i < |q.reqs|
    ensures |Q.DoAdvance(q, t).reqs| == |q.reqs| && Q.DoAdvance(q, t).reqs[i].rc == q.reqs[i].rc
  {
    match q.pcs[t].phase
    case Closing => assert Q.DoAdvance(q, t).reqs == q.reqs;
    case Flagging(_) =>
    case Exhausted => assert Q.DoAdvance(q, t).reqs == q.reqs;
    case HandingOver =>
    case _ => assert Q.DoAdvance(q, t) == q;
  }

  lemma RunCodes(q: Q.State, t: nat, o: Q.Outcome, i: nat)
    requires QI.Inv(q) && |q.reqs| == |q.pcs| && Q.Enabled(q, t, o) && !InExec(q, t) && i < |q.reqs|
    ensures |Q.DoRun(q, t, o).reqs| == |q.reqs| && Q.DoRun(q, t, o).reqs[i].rc == q.reqs[i].rc
  {
    hide QI.Inv, Q.DoCombine;
    if q.pcs[t].Combining? { CombinerCodes(q, t, o, i); } else { QT.OthersKeepCodes(q, t, o, i); }
  }

  /** A combiner's own steps take it past exec_op only from there, or when its request was not served. */
  lemma CombinerPhase(q: Q.State, t: nat, o: Q.Outcome)
    requires |q.reqs| == |q.pcs| && Q.Enabled(q, t, o) && q.pcs[t].Combining? && !q.pcs[t].phase.Executing?
    requires !q.pcs[t].phase.WakingUp? && !Advancing(q.pcs[t].phase)
    requires q.role == Q.Held(t) && q.pcs[t].r == q.first && FirstUnserved(q)
    ensures var q' := Q.DoCombine(q, t, o); q'.role == q.role && q'.first == q.first && q'.reqs == q.reqs
    ensures FirstUnserved(Q.DoCombine(q, t, o))
  {
    var q' := Q.DoCombine(q, t, o);
    assert q'.pcs == q.pcs[t := q'.pcs[t]] && q'.pcs[t].Combining?;
    match q.pcs[t].phase
    case Deciding =>
    case Announcing =>
    case Peeking =>
    case ReadingNext =>
    case AwaitingLink =>
  }

  predicate Advancing(phase: Q.Phase) {
    phase.Closing? || phase.Flagging? || phase.Exhausted? || phase.HandingOver?
  }

  lemma WakerSame(q: Q.State, t: nat)
    requires |q.reqs| == |q.pcs| && t < |q.pcs| && q.pcs[t].Combining? && q.pcs[t].phase.WakingUp?
    ensures var q' := Q.DoWake(q, t); q'.role == q.role && q'.first == q.first && q'.reqs == q.reqs && |q'.pcs| == |q.pcs|
  {
  }

  lemma WakerPhase(q: Q.State, t: nat)
    requires |q.reqs| == |q.pcs| && t < |q.pcs| && q.pcs[t].Combining? && q.pcs[t].phase.WakingUp?
    ensures |Q.DoWake(q, t).pcs| == |q.pcs| && Q.DoWake(q, t).pcs[t].Combining?
    ensures PastExec(q.pcs[t].phase) ==> PastExec(Q.DoWake(q, t).pcs[t].phase)
  {
  }

  lemma AdvanceFirst(q: Q.State, t: nat)
    requires QI.Global(q) && t < |q.pcs| && q.role == Q.Held(t) && q.pcs[t].Combining? && q.pcs[t].r == q.first < |q.reqs|
    requires Advancing(q.pcs[t].phase) && FirstUnserved(q)
    ensures FirstUnserved(Q.DoAdvance(q, t))
  {
    match q.pcs[t].phase
    case Closing => ClosingFirst(q, t);
    case Flagging(_) => FlaggingFirst(q, t);
    case Exhausted => hide QI.Global;
    case HandingOver => hide QI.Global;
  }

  lemma ClosingFirst(q: Q.State, t: nat)
    requires |q.reqs| == |q.pcs| && t < |q.pcs| && q.role == Q.Held(t) && q.pcs[t].Combining? && q.pcs[t].r == q.first < |q.reqs|
    requires q.pcs[t].phase.Closing?
    ensures FirstUnserved(Q.DoAdvance(q, t))
  {
  }

  lemma FlaggingFirst(q: Q.State, t: nat)
    requires QI.Global(q) && t < |q.pcs| && q.pcs[t].Combining? && q.pcs[t].r == q.first < |q.reqs| && q.pcs[t].phase.Flagging?
    ensures FirstUnserved(Q.DoAdvance(q, t))
  {
    assert q.first + 1 < |q.reqs| ==> q.reqs[q.first + 1].rc == Q.InProgress;
    hide QI.Global;
  }

  lemma CombinerFirst(q: Q.State, t: nat, o: Q.Outcome)
    requires QI.Global(q) && |q.reqs| == |q.pcs| && Q.Enabled(q, t, o) && q.role == Q.Held(t) && q.pcs[t].Combining?
    requires q.pcs[t].r == q.first < |q.reqs| && !q.pcs[t].phase.Executing? && FirstUnserved(q)
    ensures FirstUnserved(Q.DoCombine(q, t, o))
  {
    hide QI.Global, Q.DoWake, Q.DoAdvance;
    if q.pcs[t].phase.WakingUp? {
      WakerSame(q, t);
      WakerPhase(q, t);
    } else if Advancing(q.pcs[t].phase) {
      AdvanceFirst(q, t);
    } else {
      CombinerPhase(q, t, o);
    }
  }

  lemma RunServed(q: Q.State, t: nat, o: Q.Outcome, ids: seq<nat>)
    requires QI.Inv(q) && |q.reqs| == |q.pcs| && Q.Enabled(q, t, o) && !InExec(q, t) && AreServed(q, ids)
    ensures AreServed(Q.DoRun(q, t, o), ids) && |Q.DoRun(q, t, o).reqs| == |q.reqs|
  {
    hide QI.Inv, Q.DoRun, Q.Enabled;
    var q' := Q.DoRun(q, t, o);
    RunLength(q, t, o);
    forall i | 0 <= i < |q.reqs| ensures q'.reqs[i].rc == q.reqs[i].rc { RunCodes(q, t, o, i); }
    forall i | 0 <= i < |q'.reqs| && q'.reqs[i].rc == Q.Served ensures i in ids { assert q.reqs[i].rc == Q.Served; }
  }

  lemma RunLength(q: Q.State, t: nat, o: Q.Outcome)
    requires QI.Inv(q) && |q.reqs| == |q.pcs| && Q.Enabled(q, t, o) && !InExec(q, t)
    ensures |Q.DoRun(q, t, o).reqs| == |q.reqs|
  {
    if |q.reqs| > 0 { RunCodes(q, t, o, 0); }
  }

  lemma RunFirst(q: Q.State, t: nat, o: Q.Outcome)
    requires QI.Inv(q) && |q.reqs| == |q.pcs| && Q.Enabled(q, t, o) && !InExec(q, t) && FirstUnserved(q)
    ensures FirstUnserved(Q.DoRun(q, t, o))
  {
    OnlyHolder(q, t);
    InvIsGlobal(q);
    hide QI.Inv, QI.Global, Q.DoCombine;
    if q.pcs[t].Combining? {
      CombinerFirst(q, t, o);
    } else {
      OtherFirst(q, t, o);
    }
  }

  lemma OtherFirst(q: Q.State, t: nat, o: Q.Outcome)
    requires QI.Inv(q) && |q.reqs| == |q.pcs| && Q.Enabled(q, t, o) && !q.pcs[t].Combining? && FirstUnserved(q)
    ensures FirstUnserved(Q.DoRun(q, t, o))
  {
    hide QI.Inv, Q.DoRun;
    OtherStep(q, t, o);
    RunLength(q, t, o);
    if q.role.Held? { HolderInRange(q); }
    if q.first < |q.reqs| { RunCodes(q, t, o, q.first); }
  }

  lemma HolderInRange(q: Q.State)
    requires QI.Inv(q) && q.role.Held?
    ensures q.role.holder < |q.pcs| && q.pcs[q.role.holder].Combining?
  {
    assert QI.Global(q);
    OnlyHolder(q, q.role.holder);
  }

  lemma RunBusy(q: Q.State, t: nat, o: Q.Outcome)
    requires QI.Inv(q) && |q.reqs| == |q.pcs| && Q.Enabled(q, t, o) && !InExec(q, t) && Busy(q)
    ensures Busy(Q.DoRun(q, t, o)) && Q.DoRun(q, t, o).first == q.first
  {
    hide QI.Inv, Q.DoRun;
    OnlyHolder(q, t);
    OtherStep(q, t, o);
  }

  /** A step that is not one of exec_op serves nobody and disturbs no exec_op. */
  lemma RunQueue(q: Q.State, t: nat, o: Q.Outcome, ids: seq<nat>)
    requires QueueOk(q, ids) && |q.reqs| == |q.pcs| && Q.Enabled(q, t, o) && !InExec(q, t)
    ensures QueueOk(Q.DoRun(q, t, o), ids) && |Q.DoRun(q, t, o).reqs| == |Q.DoRun(q, t, o).pcs| == |q.reqs|
    ensures Busy(q) ==> Busy(Q.DoRun(q, t, o)) && Q.DoRun(q, t, o).first == q.first
  {
    hide QI.Inv, Q.DoRun, Q.Enabled, AreServed, FirstUnserved, Busy, InExec;
    QI.StepInv(q, Q.Run(t, o));
    QT.SizesAgree(Q.DoRun(q, t, o));
    RunServed(q, t, o, ids);
    RunFirst(q, t, o);
    if Busy(q) { RunBusy(q, t, o); }
  }

  lemma InvIsGlobal(q: Q.State)
    requires QI.Inv(q)
    ensures QI.Global(q)
  {
  }

  /** The end of exec_op: the request, which was not served before, is the newest of the served ones unless it has to try
      again or fails. */
  lemma ExecQueue(q: Q.State, t: nat, o: Q.Outcome, ids: seq<nat>)
    requires QueueOk(q, ids) && |q.reqs| == |q.pcs| && Q.Enabled(q, t, o) && InExec(q, t)
    ensures q.pcs[t].r == q.first < |q.reqs| && q.first !in ids
    ensures QueueOk(Q.DoRun(q, t, o), if o.again then ids else ids + [q.first])
    ensures |Q.DoRun(q, t, o).reqs| == |Q.DoRun(q, t, o).pcs| == |q.reqs| && !Busy(Q.DoRun(q, t, o))
  {
    OnlyHolder(q, t);
    QI.StepInv(q, Q.Run(t, o));
    hide QI.Inv, Q.DoRun, Q.Enabled, AreServed;
    NewestServed(q, ids);
    ExecShape(q, t, o);
    ServedOneMore(q, Q.DoRun(q, t, o), ids, o.again);
  }

  lemma ServedOneMore(q: Q.State, q': Q.State, ids: seq<nat>, again: bool)
    requires AreServed(q, ids) && q.first < |q.reqs| && q.reqs[q.first].rc != Q.Served
    requires forall k {:trigger ids[k]} :: 0 <= k < |ids| ==> ids[k] < q.first
    requires q'.reqs == q.reqs[q.first := q.reqs[q.first].(rc := if again then Q.Again else Q.Served)]
    ensures AreServed(q', if again then ids else ids + [q.first])
  {
    forall i | 0 <= i < |q'.reqs| && q'.reqs[i].rc == Q.Served ensures i in if again then ids else ids + [q.first] {
      if i != q.first { assert q.reqs[i] == q'.reqs[i]; }
    }
  }

  lemma ExecShape(q: Q.State, t: nat, o: Q.Outcome)
    requires |q.reqs| == |q.pcs| && Q.Enabled(q, t, o) && InExec(q, t) && q.pcs[t].r < |q.reqs|
    ensures var r, q' := q.pcs[t].r, Q.DoRun(q, t, o);
            && q'.first == q.first && q'.role == q.role && |q'.pcs| == |q.pcs| && q'.pcs[t].Combining?
            && (q'.pcs[t].phase.Deciding? || q'.pcs[t].phase.ReadingNext?)
            && q'.reqs == q.reqs[r := q.reqs[r].(rc := if o.again then Q.Again else Q.Served)]
  {
  }

  /** Everything served before is older than the oldest request. */
  lemma NewestServed(q: Q.State, ids: seq<nat>)
    requires QueueOk(q, ids) && q.first < |q.reqs| && q.reqs[q.first].rc != Q.Served
    ensures forall k {:trigger ids[k]} :: 0 <= k < |ids| ==> ids[k] < q.first
  {
    forall k | 0 <= k < |ids| ensures ids[k] < q.first {
      assert q.reqs[ids[k]].rc == Q.Served;
    }
  }

  // ---- What a ring step does for its side.

  /** A step of a put on the ring: the put goes on with its request, or it has appended one element of the size it was asked
      for and tells its address, or it has failed. */
  lemma RingPut(r: M.Ring, h: I.Hist, a: R.Action)
    requires I.Inv(r, h) && R.CanAct(r, h, a) && (a.BeginPut? || a.StepPut?)
    requires r.align > 0 && (a.BeginPut? ==> M.AlignUp(a.usize + L.HEADER_SIZE, r.align) <= r.size)
    ensures r.size > 0 && I.Shape(h)
    ensures var r', h' := R.Act(r, h, a), R.HistAct(r, h, a);
            && I.Inv(r', h') && r'.size == r.size && r'.align == r.align && r'.get == r.get && F.Extends(h, h')
            && r'.getResult == r.getResult && (!h.doneOnly ==> h'.got == h.got) && h'.elems[..|h.elems|] == h.elems
            && (a.BeginPut? ==> r'.put != M.PutIdle)
            && (r'.put != M.PutIdle ==> |h'.elems| == |h.elems| && r'.put.usize == if a.BeginPut? then a.usize else r.put.usize)
            && (r'.put == M.PutIdle && r'.putResult.Placed? ==>
                  |h'.elems| == |h.elems| + 1 && h'.elems[|h.elems|].usize == r.put.usize && h'.elems[|h.elems|].status == L.INIT
                  && r'.putResult.data == S.DataOf(r', h', |h.elems|))
            && (r'.put == M.PutIdle && !r'.putResult.Placed? ==> |h'.elems| == |h.elems| && r'.putResult.Full?)
  {
    var r', h' := R.Act(r, h, a), R.HistAct(r, h, a);
    R.StepInv(r, h, a, r', h');
    F.StepExtends(r, h, a);
    F.StepSize(r, h, a);
    if a.StepPut? {
      C.NextPut(r, h, a);
      if !h.doneOnly { F.PutLeavesGot(r, h); }
      PutSame(r);
      PutElems(r, h);
      if r.put.PublishHead? { F.PutAppends(r, h, a, r', h'); }
      hide I.Inv, I.HistPutNext, M.PutNext, F.Extends;
    } else {
      hide I.Inv;
    }
  }

  /** Only publishing the head adds an element, and only the last test for room fails. */
  lemma PutElems(r: M.Ring, h: I.Hist)
    requires r.size > 0 && I.Shape(h)
    ensures !r.put.PublishHead? ==> I.HistPutNext(r, h).elems == h.elems
    ensures r.put.Recheck? && M.PutNext(r).put == M.PutIdle ==> M.PutNext(r).putResult.Full?
  {
    hide L.Store, L.HeaderBytes, M.FreeSpace, L.HeaderAt;
  }

  lemma PutSame(r: M.Ring)
    requires r.size > 0
    ensures M.PutNext(r).get == r.get && M.PutNext(r).align == r.align && M.PutNext(r).getResult == r.getResult
  {
    hide L.Store, L.HeaderBytes, M.FreeSpace, L.HeaderAt;
  }

  /** A step of a get on the ring: the get goes on, or it hands out the oldest element not got yet with its size and
      address, or it finds the ring empty or its oldest element not ready. */
  lemma RingGet(r: M.Ring, h: I.Hist, a: R.Action)
    requires I.Inv(r, h) && R.CanAct(r, h, a) && (a.BeginGet? || a.StepGet?) && !h.doneOnly
    ensures r.size > 0 && r.align > 0 && I.Shape(h)
    ensures var r', h' := R.Act(r, h, a), R.HistAct(r, h, a);
            && I.Inv(r', h') && r'.size == r.size && r'.align == r.align && r'.put == r.put && F.Extends(h, h')
            && r'.putResult == r.putResult && h'.elems == h.elems && h'.starts == h.starts && h'.reaped == h.reaped
            && (r'.get != M.GetIdle ==> h'.got == h.got)
            && (r'.get == M.GetIdle && r'.getResult.Got? ==>
                  h.got < |h.elems| && h'.got == h.got + 1
                  && r'.getResult == M.Got(S.DataOf(r, h, h.got), h.elems[h.got].usize))
            && (r'.get == M.GetIdle && r'.getResult.NotReady? ==>
                  h'.got == h.got < |h.elems| && r'.getResult.monitor == W.Wrap(h.starts[h.got], r.size))
            && (r'.get == M.GetIdle && r'.getResult.Empty? ==> h'.got == h.got == |h.elems|)
            && (r'.get == M.GetIdle ==> !r'.getResult.GetNone?)
  {
    var r', h' := R.Act(r, h, a), R.HistAct(r, h, a);
    R.StepInv(r, h, a, r', h');
    F.StepExtends(r, h, a);
    F.StepSize(r, h, a);
    GetSame(r, h, a);
    if a.BeginGet? || r.get == M.GetLoad {
      F.GetFailsExactly(r, h, a, r', h');
    } else {
      F.GetTakesOldest(r, h, a, r', h');
    }
    hide I.Inv;
  }

  lemma GetSame(r: M.Ring, h: I.Hist, a: R.Action)
    requires r.size > 0 && r.align > 0 && I.Shape(h) && R.CanAct(r, h, a) && (a.BeginGet? || a.StepGet?)
    ensures var r', h' := R.Act(r, h, a), R.HistAct(r, h, a);
            && r'.put == r.put && r'.putResult == r.putResult && r'.align == r.align && h'.elems == h.elems && h'.starts == h.starts && h'.reaped == h.reaped
            && (r'.get != M.GetIdle ==> h' == h || r.get.GetPublish?)
            && (r.get.GetPublish? && a.StepGet? ==> r'.get == M.GetIdle && r'.getResult.Got?)
            && (r.get == M.GetLoad && a.StepGet? ==> h' == h && (r'.get.GetPublish? || (r'.get == M.GetIdle && r'.getResult.NotReady?)))
            && (a.BeginGet? ==> h' == h && (r'.get == M.GetLoad || (r'.get == M.GetIdle && r'.getResult.Empty?)))
  {
    hide L.HeaderAt;
    assert a.BeginGet? ==> r.get == M.GetIdle;
  }

  /** What the owner of an element does disturbs neither side. */
  lemma RingOwner(r: M.Ring, h: I.Hist, a: R.Action)
    requires I.Inv(r, h) && R.CanAct(r, h, a) && OwnersMove(a)
    ensures r.size > 0 && r.align > 0 && I.Shape(h)
    ensures var r', h' := R.Act(r, h, a), R.HistAct(r, h, a);
            && I.Inv(r', h') && r'.size == r.size && r'.align == r.align && r'.put == r.put && r'.get == r.get
            && r'.putResult == r.putResult && r'.getResult == r.getResult
            && F.Extends(h, h') && |h'.elems| == |h.elems| && h'.got == h.got && h'.starts == h.starts && h'.reaped == h.reaped
            && (forall i {:trigger h'.elems[i]} :: 0 <= i < |h.elems| && i != a.i ==> h'.elems[i] == h.elems[i])
  {
    R.StepInv(r, h, a, R.Act(r, h, a), R.HistAct(r, h, a));
    F.StepExtends(r, h, a);
    F.StepSize(r, h, a);
    OwnerSame(r, h, a);
    hide I.Inv;
  }

  lemma OwnerSame(r: M.Ring, h: I.Hist, a: R.Action)
    requires r.size > 0 && r.align > 0 && I.Shape(h) && R.CanAct(r, h, a) && OwnersMove(a)
    ensures var r', h' := R.Act(r, h, a), R.HistAct(r, h, a);
            && r'.put == r.put && r'.get == r.get && r'.align == r.align && |h'.elems| == |h.elems| && h'.got == h.got
            && r'.putResult == r.putResult && r'.getResult == r.getResult && h'.starts == h.starts && h'.reaped == h.reaped
            && (forall i {:trigger h'.elems[i]} :: 0 <= i < |h.elems| && i != a.i ==> h'.elems[i] == h.elems[i])
  {
    hide L.Store, L.StatusBytes;
  }

  // ---- What every step of the whole keeps.

  /** The elements are those of the served puts, in the order these were swapped onto the tail. */
  ghost predicate PutHistory(r: M.Ring, h: I.Hist, sizes: seq<nat>, placed: map<nat, nat>, puts: seq<nat>) {
    && r.size > 0 && |puts| <= |h.elems| && |h.starts| == |h.elems| + 1
    && (forall k {:trigger puts[k]} :: 0 <= k < |puts| ==>
          puts[k] < |sizes| && h.elems[k].usize == sizes[puts[k]]
          && puts[k] in placed && placed[puts[k]] == S.DataOf(r, h, k))
  }

  /** An element whose put has not been answered yet has not been touched by an owner. */
  ghost predicate Untouched(h: I.Hist, puts: nat) {
    forall k {:trigger h.elems[k]} :: puts <= k < |h.elems| ==> h.elems[k].status == L.INIT
  }

  /** The elements handed out went to the served gets, in the order these were swapped onto the tail. */
  ghost predicate GetHistory(r: M.Ring, h: I.Hist, got: map<nat, F.Slot>, gets: seq<nat>) {
    && r.size > 0 && |h.starts| == |h.elems| + 1 && h.got <= |h.elems|
    && (if h.doneOnly then gets == [] else |gets| <= h.got)
    && (forall k {:trigger gets[k]} :: 0 <= k < |gets| ==>
          gets[k] in got && got[gets[k]] == F.Slot(S.DataOf(r, h, k), h.elems[k].usize))
  }

  /** Every put on the ring but one that ended with success and has not been answered yet is served. */
  ghost predicate PutEnd(s: State)
    requires Sound(s)
  {
    if s.putEnded && s.ring.putResult.Placed? then
      && |s.hist.elems| == |s.puts| + 1 && s.put.first < |s.sizes|
      && s.hist.elems[|s.puts|].usize == s.sizes[s.put.first]
      && s.ring.putResult.data == S.DataOf(s.ring, s.hist, |s.puts|)
    else
      |s.hist.elems| == |s.puts| && (s.putEnded ==> s.ring.putResult.Full?)
  }

  ghost predicate GetEnd(s: State)
    requires Sound(s) && !s.hist.doneOnly
  {
    if s.getEnded && s.ring.getResult.Got? then
      && s.hist.got == |s.gets| + 1
      && s.ring.getResult == M.Got(S.DataOf(s.ring, s.hist, |s.gets|), s.hist.elems[|s.gets|].usize)
    else
      s.hist.got == |s.gets| && (s.getEnded ==> !s.ring.getResult.GetNone?)
  }

  /** What is under way on the ring is the exec_op of the side's combiner, for its request. */
  ghost predicate InStep(s: State)
    requires Sound(s)
  {
    && (s.ring.put != M.PutIdle || s.putEnded ==> Busy(s.put))
    && (s.ring.put != M.PutIdle ==>
          !s.putEnded && s.put.first < |s.sizes| && s.ring.put.usize == s.sizes[s.put.first])
    && (s.ring.get != M.GetIdle || s.getEnded ==> Busy(s.get))
    && (s.ring.get != M.GetIdle ==> !s.getEnded)
    && PutEnd(s) && (!s.hist.doneOnly ==> GetEnd(s))
  }

  ghost predicate Fitting(r: M.Ring, sizes: seq<nat>) {
    r.align > 0 && forall i {:trigger sizes[i]} :: 0 <= i < |sizes| ==> M.AlignUp(sizes[i] + L.HEADER_SIZE, r.align) <= r.size
  }

  ghost predicate Inv(s: State) {
    && Sound(s) && I.Inv(s.ring, s.hist) && QueueOk(s.put, s.puts) && QueueOk(s.get, s.gets) && Fitting(s.ring, s.sizes)
    && InStep(s) && PutHistory(s.ring, s.hist, s.sizes, s.placed, s.puts) && GetHistory(s.ring, s.hist, s.got, s.gets)
    && Untouched(s.hist, |s.puts|) && (s.hist.doneOnly ==> s.get.reqs == [])
  }

  /** Later histories tell the same of earlier elements. */
  lemma HistoriesStay(r: M.Ring, h: I.Hist, r': M.Ring, h': I.Hist, sizes: seq<nat>, placed: map<nat, nat>, puts: seq<nat>,
                      got: map<nat, F.Slot>, gets: seq<nat>)
    requires PutHistory(r, h, sizes, placed, puts) && GetHistory(r, h, got, gets) && F.Extends(h, h') && r'.size == r.size
    ensures |h'.starts| == |h'.elems| + 1 && h'.reaped <= |h'.elems| && h'.got <= |h'.elems| && h'.doneOnly == h.doneOnly
    ensures PutHistory(r', h', sizes, placed, puts) && GetHistory(r', h', got, gets)
  {
    forall k | 0 <= k < |puts| ensures h'.elems[k].usize == h.elems[k].usize && S.DataOf(r', h', k) == S.DataOf(r, h, k) {
      assert F.Matures(h.elems[k], h'.elems[k]) && h'.starts[k] == h.starts[k];
    }
    forall k | 0 <= k < |gets| ensures h'.elems[k].usize == h.elems[k].usize && S.DataOf(r', h', k) == S.DataOf(r, h, k) {
      assert F.Matures(h.elems[k], h'.elems[k]) && h'.starts[k] == h.starts[k];
    }
  }

  /** A put is about to be served, or a get. */
  lemma PutRecorded(r: M.Ring, h: I.Hist, sizes: seq<nat>, placed: map<nat, nat>, puts: seq<nat>, req: nat)
    requires PutHistory(r, h, sizes, placed, puts) && |puts| < |h.elems| && req !in puts && req < |sizes|
    requires h.elems[|puts|].usize == sizes[req]
    ensures PutHistory(r, h, sizes, placed[req := S.DataOf(r, h, |puts|)], puts + [req])
  {
  }

  lemma GetRecorded(r: M.Ring, h: I.Hist, got: map<nat, F.Slot>, gets: seq<nat>, req: nat)
    requires GetHistory(r, h, got, gets) && !h.doneOnly && |gets| < h.got && req !in gets
    ensures GetHistory(r, h, got[req := F.Slot(S.DataOf(r, h, |gets|), h.elems[|gets|].usize)], gets + [req])
  {
  }

  /** What the other side has ended with stays as it is. */
  lemma GetEndKept(s: State, s': State)
    requires Sound(s) && Sound(s') && !s.hist.doneOnly && GetEnd(s) && F.Extends(s.hist, s'.hist) && s'.hist.got == s.hist.got
    requires s'.ring.getResult == s.ring.getResult && s'.getEnded == s.getEnded && s'.gets == s.gets && s'.ring.size == s.ring.size
    ensures !s'.hist.doneOnly && GetEnd(s')
  {
    if s.getEnded && s.ring.getResult.Got? {
      assert F.Matures(s.hist.elems[|s.gets|], s'.hist.elems[|s.gets|]) && s'.hist.starts[|s.gets|] == s.hist.starts[|s.gets|];
    }
  }

  lemma PutEndKept(s: State, s': State)
    requires Sound(s) && Sound(s') && PutEnd(s) && F.Extends(s.hist, s'.hist) && |s'.hist.elems| == |s.hist.elems|
    requires s'.ring.putResult == s.ring.putResult && s'.putEnded == s.putEnded && s'.puts == s.puts && s'.ring.size == s.ring.size
    requires s'.put.first == s.put.first && s'.sizes == s.sizes
    ensures PutEnd(s')
  {
    if s.putEnded && s.ring.putResult.Placed? {
      assert F.Matures(s.hist.elems[|s.puts|], s'.hist.elems[|s.puts|]) && s'.hist.starts[|s.puts|] == s.hist.starts[|s.puts|];
    }
  }

  lemma PutSteppedInv(s: State, t: nat)
    requires Inv(s) && CanAct(s, RunPut(t)) && InExec(s.put, t) && !s.putEnded
    ensures Inv(PutExecuted(s, t))
  {
    hide I.Inv, R.Act, R.HistAct, QueueOk, F.Extends, Q.DoRun, PutHistory, GetHistory, M.AlignUp, Q.Enabled, R.CanAct, Busy, GetEnd;
    var a, s' := PutAction(s, t), PutExecuted(s, t);
    ExecRequest(s.put, t, s.puts);
    RequestFits(s, t);
    RingPut(s.ring, s.hist, a);
    HistoriesStay(s.ring, s.hist, s'.ring, s'.hist, s.sizes, s.placed, s.puts, s.got, s.gets);
    if !s.hist.doneOnly { GetEndKept(s, s'); }
  }

  lemma PutAnsweredInv(s: State, t: nat)
    requires Inv(s) && CanAct(s, RunPut(t)) && InExec(s.put, t) && s.putEnded
    ensures Inv(PutExecuted(s, t))
  {
    hide I.Inv, QueueOk, F.Extends, Q.DoRun, PutHistory, GetHistory, M.AlignUp, Q.Enabled, R.CanAct, Busy, GetEnd, Untouched;
    ExecRequest(s.put, t, s.puts);
    var o := if s.ring.putResult.Placed? then Q.Outcome(false, false, false) else Q.Outcome(true, true, false);
    EnabledExec(s.put, t, Q.Outcome(false, false, PutReady(s)), o);
    ExecQueue(s.put, t, o, s.puts);
    if s.ring.putResult.Placed? {
      PutRecorded(s.ring, s.hist, s.sizes, s.placed, s.puts, s.put.first);
      NextUntouched(s.hist, |s.puts|);
    }
    if !s.hist.doneOnly { SameHistory(s.hist); GetEndKept(s, PutExecuted(s, t)); }
  }

  lemma SameHistory(h: I.Hist)
    requires I.Shape(h)
    ensures F.Extends(h, h)
  {
  }

  lemma NextUntouched(h: I.Hist, puts: nat)
    requires Untouched(h, puts)
    ensures Untouched(h, puts + 1)
  {
  }

  lemma EnabledExec(q: Q.State, t: nat, o: Q.Outcome, o': Q.Outcome)
    requires |q.reqs| == |q.pcs| && Q.Enabled(q, t, o) && InExec(q, t)
    ensures Q.Enabled(q, t, o')
  {
  }

  lemma ExecRequest(q: Q.State, t: nat, ids: seq<nat>)
    requires QueueOk(q, ids) && InExec(q, t)
    ensures q.pcs[t].r == q.first < |q.reqs| && Busy(q) && q.role == Q.Held(t)
  {
    OnlyHolder(q, t);
  }

  lemma RequestFits(s: State, t: nat)
    requires Fitting(s.ring, s.sizes) && InExec(s.put, t) && s.put.pcs[t].r < |s.sizes|
    ensures s.ring.align > 0
    ensures var a := PutAction(s, t); a.BeginPut? ==> M.AlignUp(a.usize + L.HEADER_SIZE, s.ring.align) <= s.ring.size
  {
    hide M.AlignUp;
    assert s.sizes[s.put.pcs[t].r] >= 0;
  }

  lemma GetSteppedInv(s: State, t: nat)
    requires Inv(s) && CanAct(s, RunGet(t)) && InExec(s.get, t) && !s.getEnded
    ensures Inv(GetExecuted(s, t))
  {
    hide I.Inv, R.Act, R.HistAct, QueueOk, F.Extends, Q.DoRun, PutHistory, GetHistory, M.AlignUp, Q.Enabled, R.CanAct, Busy, PutEnd;
    var a, s' := GetAction(s), GetExecuted(s, t);
    ExecRequest(s.get, t, s.gets);
    RingGet(s.ring, s.hist, a);
    HistoriesStay(s.ring, s.hist, s'.ring, s'.hist, s.sizes, s.placed, s.puts, s.got, s.gets);
    PutEndKept(s, s');
  }

  lemma GetAnsweredInv(s: State, t: nat)
    requires Inv(s) && CanAct(s, RunGet(t)) && InExec(s.get, t) && s.getEnded
    ensures Inv(GetExecuted(s, t))
  {
    hide I.Inv, QueueOk, F.Extends, Q.DoRun, PutHistory, GetHistory, M.AlignUp, Q.Enabled, R.CanAct, Busy, PutEnd, Untouched;
    ExecRequest(s.get, t, s.gets);
    var o := if s.ring.getResult.Got? then Q.Outcome(false, false, false)
             else if s.ring.getResult.NotReady? then Q.Outcome(true, true, false) else Q.Outcome(true, false, false);
    EnabledExec(s.get, t, Q.Outcome(false, false, GetReady(s)), o);
    ExecQueue(s.get, t, o, s.gets);
    if s.ring.getResult.Got? {
      GetRecorded(s.ring, s.hist, s.got, s.gets, s.get.first);
    }
    SameHistory(s.hist);
    PutEndKept(s, GetExecuted(s, t));
  }

  lemma NewPutInv(s: State, blocking: bool, usize: nat)
    requires Inv(s) && CanAct(s, NewPut(blocking, usize))
    ensures Inv(Act(s, NewPut(blocking, usize)))
  {
    hide I.Inv, QueueOk, Fitting, PutHistory, GetHistory, Busy, Q.DoArrive;
    ArriveQueue(s.put, blocking, s.puts);
    OneMoreSize(s.ring, s.hist, s.sizes, s.placed, s.puts, usize);
  }

  lemma OneMoreSize(r: M.Ring, h: I.Hist, sizes: seq<nat>, placed: map<nat, nat>, puts: seq<nat>, usize: nat)
    requires Fitting(r, sizes) && PutHistory(r, h, sizes, placed, puts) && M.AlignUp(usize + L.HEADER_SIZE, r.align) <= r.size
    ensures Fitting(r, sizes + [usize]) && PutHistory(r, h, sizes + [usize], placed, puts)
  {
    hide M.AlignUp, S.DataOf;
  }

  lemma NewGetInv(s: State, blocking: bool)
    requires Inv(s) && CanAct(s, NewGet(blocking))
    ensures Inv(Act(s, NewGet(blocking)))
  {
    hide I.Inv, QueueOk, M.AlignUp, PutHistory, GetHistory, Fitting, Busy, Q.DoArrive;
    ArriveQueue(s.get, blocking, s.gets);
  }

  lemma RunPutInv(s: State, t: nat)
    requires Inv(s) && CanAct(s, RunPut(t)) && !InExec(s.put, t)
    ensures Inv(Act(s, RunPut(t)))
  {
    hide I.Inv, QueueOk, M.AlignUp, PutHistory, GetHistory, Fitting, Busy, Q.DoRun, Q.Enabled;
    RunQueue(s.put, t, Q.Outcome(false, false, PutReady(s)), s.puts);
  }

  lemma RunGetInv(s: State, t: nat)
    requires Inv(s) && CanAct(s, RunGet(t)) && !InExec(s.get, t)
    ensures Inv(Act(s, RunGet(t)))
  {
    hide I.Inv, QueueOk, M.AlignUp, PutHistory, GetHistory, Fitting, Busy, Q.DoRun, Q.Enabled;
    RunQueue(s.get, t, Q.Outcome(false, false, GetReady(s)), s.gets);
  }

  lemma OwnerInv(s: State, o: R.Action)
    requires Inv(s) && CanAct(s, Owner(o))
    ensures Inv(Act(s, Owner(o)))
  {
    hide I.Inv, R.Act, R.HistAct, QueueOk, F.Extends, PutHistory, GetHistory, M.AlignUp, R.CanAct, Busy, PutEnd, GetEnd;
    RingOwner(s.ring, s.hist, o);
    var s' := Act(s, Owner(o));
    HistoriesStay(s.ring, s.hist, s'.ring, s'.hist, s.sizes, s.placed, s.puts, s.got, s.gets);
    OwnersPlace(s, o);
    PutEndKept(s, s');
    if !s.hist.doneOnly { GetEndKept(s, s'); }
  }

  /** Owners only know elements whose put was answered. */
  lemma OwnersPlace(s: State, o: R.Action)
    requires Sound(s) && CanAct(s, Owner(o)) && |s.puts| <= |s.hist.elems| && InStep(s) && GetHistory(s.ring, s.hist, s.got, s.gets)
    requires Untouched(s.hist, |s.puts|)
    ensures o.i < |s.puts|
  {
    if o.SetDone? { assert s.hist.elems[o.i].status == L.READY; }
  }

  /** Every step of every thread, on either side, and of the owners of elements keeps the two queues, the ring and what ties
      them together in order. */
  lemma ActInv(s: State, a: Action)
    requires Inv(s) && CanAct(s, a)
    ensures Inv(Act(s, a))
  {
    hide Inv, PutExecuted, GetExecuted;
    match a
    case NewPut(blocking, usize) => NewPutInv(s, blocking, usize);
    case RunPut(t) => if !InExec(s.put, t) { RunPutInv(s, t); } else if s.putEnded { PutAnsweredInv(s, t); } else { PutSteppedInv(s, t); }
    case NewGet(blocking) => NewGetInv(s, blocking);
    case RunGet(t) => if !InExec(s.get, t) { RunGetInv(s, t); } else if s.getEnded { GetAnsweredInv(s, t); } else { GetSteppedInv(s, t); }
    case Owner(o) => OwnerInv(s, o);
  }

  // ---- Whole runs.

  ghost predicate Created(s: State) {
    && R.Created(s.ring, s.hist) && (exists blocking :: s.put == Q.Init(blocking) == s.get)
    && s.sizes == [] && s.puts == [] && s.gets == [] && !s.putEnded && !s.getEnded
  }

  lemma CreatedInv(s: State)
    requires Created(s)
    ensures Inv(s)
  {
    R.CreatedInv(s.ring, s.hist);
    QI.InitInv(s.put.blockingRing);
    CreatedRing(s.ring, s.hist);
    hide I.Inv, QI.Inv, R.Created;
  }

  lemma CreatedRing(r: M.Ring, h: I.Hist)
    requires R.Created(r, h)
    ensures r.size > 0 && r.align > 0 && r.put == M.PutIdle && r.get == M.GetIdle && h.elems == [] && |h.starts| == 1
    ensures h.reaped == h.got == 0
  {
  }

  ghost predicate Runs(s: State, actions: seq<Action>, s': State)
    decreases |actions|
  {
    if actions == [] then s' == s else CanAct(s, actions[0]) && Runs(Act(s, actions[0]), actions[1..], s')
  }

  ghost predicate Reachable(s: State) {
    exists s0, actions :: Created(s0) && Runs(s0, actions, s)
  }

  lemma {:induction false} RunInv(s: State, actions: seq<Action>, s': State)
    requires Inv(s) && Runs(s, actions, s')
    ensures Inv(s')
    decreases |actions|
  {
    hide Inv, Act, CanAct;
    if actions != [] {
      ActInv(s, actions[0]);
      RunInv(Act(s, actions[0]), actions[1..], s');
    }
  }

  lemma {:induction false} RunsOn(s: State, actions: seq<Action>, s1: State, more: seq<Action>, s': State)
    requires Runs(s, actions, s1) && Runs(s1, more, s')
    ensures Runs(s, actions + more, s')
    decreases |actions|
  {
    hide Act, CanAct;
    if actions == [] {
      assert actions + more == more;
    } else {
      RunsOn(Act(s, actions[0]), actions[1..], s1, more, s');
      assert (actions + more)[1..] == actions[1..] + more;
    }
  }

  lemma ReachableOn(s: State, actions: seq<Action>, s': State)
    requires Reachable(s) && Runs(s, actions, s')
    ensures Reachable(s')
  {
    hide Created, Runs;
    var s0, before :| Created(s0) && Runs(s0, before, s);
    RunsOn(s0, before, s, actions, s');
  }

  lemma ActReachable(s: State, a: Action)
    requires Reachable(s) && CanAct(s, a)
    ensures Reachable(Act(s, a))
  {
    hide Reachable, Act, CanAct;
    assert Runs(Act(s, a), [a][1..], Act(s, a));
    ReachableOn(s, [a], Act(s, a));
  }

  /** Later states only add to the history. */
  lemma ActExtends(s: State, a: Action)
    requires Inv(s) && CanAct(s, a)
    ensures F.Extends(s.hist, Act(s, a).hist) && Act(s, a).ring.size == s.ring.size
    ensures s.puts <= Act(s, a).puts && s.gets <= Act(s, a).gets
  {
    ActOnRing(s, a);
    ActServes(s, a);
    ShapeOf(s);
    SameHistory(s.hist);
    hide Inv, I.Shape, Act, CanAct, R.Act, R.HistAct, R.CanAct, F.Extends;
    if OnRing(s, a).Some? { RingExtends(s, OnRing(s, a).value); }
  }

  lemma RingExtends(s: State, x: R.Action)
    requires Inv(s) && R.CanAct(s.ring, s.hist, x)
    ensures s.ring.size > 0 && s.ring.align > 0 && I.Shape(s.hist) && F.Extends(s.hist, R.HistAct(s.ring, s.hist, x))
    ensures R.Act(s.ring, s.hist, x).size == s.ring.size
  {
    hide I.Inv, QueueOk, InStep, R.Act, R.HistAct, R.CanAct, F.Extends, PutHistory, GetHistory, Fitting, Untouched;
    F.StepExtends(s.ring, s.hist, x);
    ShapeOf(s);
    F.StepSize(s.ring, s.hist, x);
  }

  lemma ActServes(s: State, a: Action)
    requires CanAct(s, a)
    ensures s.puts <= Act(s, a).puts && s.gets <= Act(s, a).gets
  {
    hide PutExecuted, GetExecuted, R.CanAct, Q.DoRun, Q.DoArrive, Q.Enabled;
    if a.RunPut? && InExec(s.put, a.t) { PutServes(s, a.t); }
    if a.RunGet? && InExec(s.get, a.t) { GetServes(s, a.t); }
  }

  lemma PutServes(s: State, t: nat)
    requires CanAct(s, RunPut(t)) && InExec(s.put, t)
    ensures s.puts <= PutExecuted(s, t).puts && s.gets == PutExecuted(s, t).gets
  {
    hide R.Act, R.HistAct, R.CanAct, Q.DoRun, Q.Enabled;
  }

  lemma GetServes(s: State, t: nat)
    requires CanAct(s, RunGet(t)) && InExec(s.get, t)
    ensures s.gets <= GetExecuted(s, t).gets && s.puts == GetExecuted(s, t).puts
  {
    hide R.Act, R.HistAct, R.CanAct, Q.DoRun, Q.Enabled;
  }

  lemma {:induction false} RunExtends(s: State, actions: seq<Action>, s': State)
    requires Inv(s) && Runs(s, actions, s')
    ensures F.Extends(s.hist, s'.hist) && s'.ring.size == s.ring.size && s.puts <= s'.puts && s.gets <= s'.gets
    decreases |actions|
  {
    hide Inv, Act, CanAct, F.Extends;
    if actions == [] {
      ShapeOf(s);
      SameHistory(s.hist);
    } else {
      ActInv(s, actions[0]);
      ActExtends(s, actions[0]);
      RunExtends(Act(s, actions[0]), actions[1..], s');
      F.ExtendsFurther(s.hist, Act(s, actions[0]).hist, s'.hist);
    }
  }

  lemma ShapeOf(s: State)
    requires Inv(s)
    ensures I.Shape(s.hist)
  {
  }

  lemma ReachableInv(s: State)
    requires Reachable(s)
    ensures Inv(s)
  {
    hide Inv, Created, Runs;
    var s0, actions :| Created(s0) && Runs(s0, actions, s);
    CreatedInv(s0);
    RunInv(s0, actions, s);
  }
}
