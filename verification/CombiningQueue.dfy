/** One side (put or get) of the ring buffer's combining queue, together with the nap protocol that puts
    its waiters to sleep, as a step system over any number of threads.

    Every call of ring_buffer_put/get makes one request, and the requests are numbered in the order in which
    they are swapped onto req_tail, so request `i` is the i-th to be enqueued and thread `i` is the caller that
    made it.  One step is one access to shared memory. */
module CombiningQueue {
  import opened Options

  /** A request's return code: -EINPROGRESS, 0 and -EAGAIN. */
  datatype Rc = InProgress | Served | Again

  datatype Req = Req(blocking: bool, next: Option<nat>, rc: Rc, combiner: bool, done: bool)

  /** Points of wait_until_done and _nap_doze.  The check number tells the three tests of the triple-check
      locking apart; each test reads the return code first and is_nap_time second. */
  datatype Wait =
    Polling | CheckingRole | DozeRc(check: nat) | DozeNap(check: nat) |
    Locking | FallingAsleep | Sleeping | Waking | Unlocking

  /** Points of _nap_wake_up_all_waiters. */
  datatype Wake = Test | Clear | Lock | Broadcast | Unlock

  /** Where _nap_wake_up_all_waiters returns to: the retry inside _nap_peek, or the code after exec_op. */
  datatype Resume = RetryExec | Proceed

  /** Points of the combining loop in ring_buffer_op. */
  datatype Phase =
    Executing | Deciding | Announcing | Peeking | WakingUp(k: Resume, wake: Wake) |
    ReadingNext | Closing | AwaitingLink | Flagging(n: nat) | Exhausted | HandingOver

  /** Program counters.  A combiner works on request `r`; `i` is its loop counter and `m` max_combining. */
  datatype Pc =
    | Linking(prev: nat)
    | Waiting(wait: Wait)
    | Combining(r: nat, i: nat, m: nat, phase: Phase)
    | FlaggingLast(r: nat)
    | Returned

  const MAX_COMBINING: nat := 128

  /** Who may run exec_op.  A history variable: the code never reads it. */
  datatype Role = Nobody | Held(holder: nat) | Given(heir: nat)

  /** The last row is history, which no step's course depends on: the oldest request the combiners have not
      given up, the holder of the combiner role, the requests whose queue was closed before their DONE flag was
      set (with the thread that is about to set it), whether is_nap_time was cleared but the sleepers have not
      been woken yet, and the requests in the order exec_op ran on them. */
  datatype State = State(
    blockingRing: bool,
    tail: Option<nat>, reqs: seq<Req>, pcs: seq<Pc>,
    nap: bool, monitoring: bool, mutex: Option<nat>,
    first: nat, role: Role, closing: map<nat, nat>, pending: bool, log: seq<nat>)
  {
    function At(t: nat, pc: Pc): State
      requires t < |pcs|
    {
      this.(pcs := pcs[t := pc])
    }

    function Become(t: nat, r: Req): State
      requires t < |reqs|
    {
      this.(reqs := reqs[t := r])
    }
  }

  function Init(blockingRing: bool): State {
    State(blockingRing, None, [], [], false, false, None, 0, Nobody, map[], false, [])
  }

  /** What a step may find outside the queue: exec_op's result, whether it left a monitoring element, and
      whether a blocked wait (an element's status, a condition variable) comes to an end. */
  datatype Outcome = Outcome(again: bool, monitor: bool, ready: bool)

  datatype Action = Arrive(blocking: bool) | Run(t: nat, o: Outcome)

  function StartCombining(t: nat): Pc {
    Combining(t, MAX_COMBINING - 1, MAX_COMBINING, Executing)
  }

  /** ask_request's swap on the tail by a new request. */
  function DoArrive(s: State, blocking: bool): State
    requires |s.reqs| == |s.pcs|
  {
    var t := |s.reqs|;
    s.(tail := Some(t),
       reqs := s.reqs + [Req(blocking, None, InProgress, false, false)],
       pcs := s.pcs + [match s.tail case None => StartCombining(t) case Some(prev) => Linking(prev)],
       role := if s.tail == None then Held(t) else s.role)
  }

  /** Can thread `t` take a step?  Acquiring the nap mutex, polling an element and awaiting a link block. */
  predicate Enabled(s: State, t: nat, o: Outcome)
    requires |s.reqs| == |s.pcs|
  {
    t < |s.pcs| &&
    match s.pcs[t]
    case Linking(prev) => prev < |s.reqs|
    case Waiting(w) => (w.Locking? || w.Waking?) ==> s.mutex == None
    case Combining(r, _, _, phase) =>
      && r < |s.reqs|
      && (phase.Peeking? && s.monitoring ==> o.ready)
      && (phase.WakingUp? && phase.wake == Lock ==> s.mutex == None)
      && (phase.AwaitingLink? ==> s.reqs[r].next != None)
    case FlaggingLast(r) => r < |s.reqs|
    case Returned => false
  }

  /** The last step of ask_request; a non-blocking caller then returns at once. */
  function DoLink(s: State, t: nat): State
    requires |s.reqs| == |s.pcs| && t < |s.pcs| && s.pcs[t].Linking? && s.pcs[t].prev < |s.reqs|
  {
    var prev := s.pcs[t].prev;
    s.Become(prev, s.reqs[prev].(next := Some(t)))
    .At(t, if s.reqs[t].blocking then Waiting(Polling) else Returned)
  }

  /** A failed doze test: the first two fall through to the polling loop, the third unlocks the mutex. */
  function NoDoze(check: nat): Wait {
    if check < 3 then Polling else Unlocking
  }

  function Doze(check: nat): Wait {
    if check == 1 then DozeRc(2) else if check == 2 then Locking else FallingAsleep
  }

  /** Where a waiting thread goes that neither returns nor takes up the combiner role. */
  function NextWait(s: State, t: nat, w: Wait): Wait
    requires t < |s.reqs|
  {
    match w
    case Polling => CheckingRole
    case CheckingRole => if s.blockingRing then DozeRc(1) else Polling
    case DozeRc(c) => if s.reqs[t].rc == InProgress then DozeNap(c) else NoDoze(c)
    case DozeNap(c) => if s.nap then Doze(c) else NoDoze(c)
    case Locking => DozeRc(3)
    case FallingAsleep => Sleeping
    case Sleeping => Waking
    case Waking => DozeRc(3)
    case Unlocking => Polling
  }

  function MutexAfter(s: State, t: nat, w: Wait): Option<nat> {
    if w.Locking? || w.Waking? then Some(t) else if w.FallingAsleep? || w.Unlocking? then None else s.mutex
  }

  /** A step of wait_until_done or _nap_doze.  pthread_cond_wait may return at any time. */
  function DoWait(s: State, t: nat): State
    requires |s.reqs| == |s.pcs| && t < |s.pcs| && s.pcs[t].Waiting?
  {
    var w := s.pcs[t].wait;
    if w.Polling? && s.reqs[t].done then s.At(t, Returned)
    else if w.CheckingRole? && s.reqs[t].combiner then s.(role := Held(t)).At(t, StartCombining(t))
    else
      s.(mutex := MutexAfter(s, t, w)).At(t, Waiting(NextWait(s, t, w)))
  }

  /** pthread_cond_broadcast. */
  function WakeAll(pcs: seq<Pc>): (w: seq<Pc>)
    ensures |w| == |pcs|
    ensures forall j :: 0 <= j < |pcs| ==> w[j] == if pcs[j] == Waiting(Sleeping) then Waiting(Waking) else pcs[j]
  {
    seq(|pcs|, j requires 0 <= j < |pcs| => if pcs[j] == Waiting(Sleeping) then Waiting(Waking) else pcs[j])
  }

  function AfterWake(k: Resume): Phase {
    match k case RetryExec => Executing case Proceed => ReadingNext
  }

  /** A step of _nap_wake_up_all_waiters. */
  function DoWake(s: State, t: nat): State
    requires |s.reqs| == |s.pcs| && t < |s.pcs| && s.pcs[t].Combining? && s.pcs[t].phase.WakingUp?
  {
    var pc := s.pcs[t];
    var k := pc.phase.k;
    match pc.phase.wake
    case Test =>
      if s.nap then s.At(t, pc.(phase := WakingUp(k, Clear)))
      else s.(monitoring := false).At(t, pc.(phase := AfterWake(k)))
    case Clear => s.(nap := false, pending := true).At(t, pc.(phase := WakingUp(k, Lock)))
    case Lock => s.(mutex := Some(t)).At(t, pc.(phase := WakingUp(k, Broadcast)))
    case Broadcast => s.(pcs := WakeAll(s.pcs), pending := false).At(t, pc.(phase := WakingUp(k, Unlock)))
    case Unlock => s.(mutex := None, monitoring := false).At(t, pc.(phase := AfterWake(k)))
  }

  /** need_peek. */
  predicate NeedPeek(r: Req) {
    r.rc == Again && r.blocking
  }

  /** A step of the combining loop that stays with the same request. */
  function DoCombine(s: State, t: nat, o: Outcome): State
    requires |s.reqs| == |s.pcs| && t < |s.pcs| && s.pcs[t].Combining? && s.pcs[t].r < |s.reqs|
  {
    var pc := s.pcs[t];
    var r := pc.r;
    match pc.phase
    case Executing =>
      s.(log := s.log + [r], monitoring := s.monitoring || (o.again && o.monitor))
      .Become(r, s.reqs[r].(rc := if o.again then Again else Served))
      .At(t, pc.(phase := if s.blockingRing then Deciding else ReadingNext))
    case Deciding =>
      s.At(t, pc.(phase := if NeedPeek(s.reqs[r]) then (if r != t then HandingOver else Announcing)
                           else if r == t then WakingUp(Proceed, Test) else ReadingNext))
    case Announcing => s.(nap := true).At(t, pc.(phase := Peeking))
    case Peeking => s.At(t, pc.(phase := if s.monitoring then WakingUp(RetryExec, Test) else Executing))
    case WakingUp(_, _) => DoWake(s, t)
    case ReadingNext =>
      s.At(t, pc.(phase := match s.reqs[r].next case None => Closing case Some(n) => Flagging(n)))
    case AwaitingLink =>
      s.At(t, pc.(phase := match s.reqs[r].next case None => AwaitingLink case Some(n) => Flagging(n)))
    case _ => DoAdvance(s, t)
  }

  /** A step that closes the queue, moves on to the next request or gives the role up. */
  function DoAdvance(s: State, t: nat): State
    requires |s.reqs| == |s.pcs| && t < |s.pcs| && s.pcs[t].Combining? && s.pcs[t].r < |s.reqs|
  {
    var pc := s.pcs[t];
    var r := pc.r;
    match pc.phase
    case Closing =>
      if s.tail == Some(r) then
        s.(tail := None, first := |s.reqs|, role := Nobody, closing := s.closing[r := t]).At(t, FlaggingLast(r))
      else s.At(t, pc.(phase := AwaitingLink))
    case Flagging(n) =>
      s.(first := s.first + 1).Become(r, s.reqs[r].(done := true))
      .At(t, if pc.i > 0 then Combining(n, pc.i - 1, pc.m, Executing) else Combining(n, 0, pc.m, Exhausted))
    case Exhausted =>
      s.At(t, if s.reqs[r].blocking then pc.(phase := HandingOver)
              else Combining(r, pc.m / 2, pc.m / 2 + 1, Executing))
    case HandingOver =>
      s.(role := Given(r)).Become(r, s.reqs[r].(combiner := true)).At(t, Returned)
    case _ => s
  }

  /** The combiner that closed the queue flags the request it closed it behind. */
  function DoFlagLast(s: State, t: nat): State
    requires |s.reqs| == |s.pcs| && t < |s.pcs| && s.pcs[t].FlaggingLast? && s.pcs[t].r < |s.reqs|
  {
    var r := s.pcs[t].r;
    s.(closing := s.closing - {r}).Become(r, s.reqs[r].(done := true)).At(t, Returned)
  }

  function DoRun(s: State, t: nat, o: Outcome): State
    requires |s.reqs| == |s.pcs| && Enabled(s, t, o)
  {
    match s.pcs[t]
    case Linking(_) => DoLink(s, t)
    case Waiting(_) => DoWait(s, t)
    case Combining(_, _, _, _) => DoCombine(s, t, o)
    case FlaggingLast(_) => DoFlagLast(s, t)
    case Returned => s
  }

  predicate CanStep(s: State, a: Action) {
    |s.reqs| == |s.pcs| && (a.Run? ==> Enabled(s, a.t, a.o))
  }

  function Step(s: State, a: Action): State
    requires CanStep(s, a)
  {
    match a
    case Arrive(blocking) => DoArrive(s, blocking)
    case Run(t, o) => DoRun(s, t, o)
  }

  /** A schedule: any interleaving of arrivals and enabled steps that starts from the empty queue. */
  ghost predicate Schedule(blockingRing: bool, actions: seq<Action>)
    decreases |actions|, 0
  {
    if actions == [] then true
    else
      var before := actions[..|actions| - 1];
      Schedule(blockingRing, before) && CanStep(After(blockingRing, before), actions[|actions| - 1])
  }

  /** The state a schedule leads to. */
  ghost function After(blockingRing: bool, actions: seq<Action>): State
    requires Schedule(blockingRing, actions)
    decreases |actions|, 1
  {
    if actions == [] then Init(blockingRing)
    else Step(After(blockingRing, actions[..|actions| - 1]), actions[|actions| - 1])
  }
}
