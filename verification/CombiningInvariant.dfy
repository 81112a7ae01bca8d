/** What every step of the combining queue keeps. */
module CombiningInvariant {
  import opened Options
  import opened CombiningQueue

  /** The combiner has finished exec_op for its request and will not retry it. */
  predicate Settled(phase: Phase) {
    phase.ReadingNext? || phase.Closing? || phase.AwaitingLink? || phase.Flagging? ||
    (phase.WakingUp? && phase.k == Proceed)
  }

  /** The return code of a request that is about to be, or has been, flagged DONE. */
  predicate Final(blockingRing: bool, r: Req) {
    r.rc != InProgress && (blockingRing && r.blocking ==> r.rc == Served)
  }

  /** exec_op ran on requests 0, 1, 2, ... in this order, each any number of times in a row. */
  ghost predicate Staircase(log: seq<nat>) {
    (|log| > 0 ==> log[0] == 0) && forall j :: 0 < j < |log| ==> log[j - 1] <= log[j] <= log[j - 1] + 1
  }

  /** A combiner that may be in, or on its way out of, its own blocked phase. */
  predicate Napping(t: nat, pc: Pc) {
    pc.Combining? && pc.r == t &&
    match pc.phase
    case Executing => true
    case Deciding => true
    case Announcing => true
    case Peeking => true
    case WakingUp(_, w) => w == Test || w == Clear
    case _ => false
  }

  predicate Asleep(pc: Pc) {
    pc == Waiting(Sleeping) || pc == Waiting(FallingAsleep)
  }

  predicate HoldsMutex(pc: Pc) {
    match pc
    case Waiting(w) => w == DozeRc(3) || w == DozeNap(3) || w.FallingAsleep? || w.Unlocking?
    case Combining(_, _, _, WakingUp(_, w)) => w == Broadcast || w == Unlock
    case _ => false
  }

  /** Points a thread only reaches in a ring that was created to block. */
  predicate NapPoint(pc: Pc) {
    match pc
    case Waiting(w) => w != Polling && w != CheckingRole
    case Combining(_, _, _, p) => p.Deciding? || p.Announcing? || p.Peeking? || p.WakingUp?
    case _ => false
  }

  /** What holds of the queue as a whole: requests from `first` on form a chain ending at the tail, none of
      them is DONE, all before `first` are except those a closing combiner is about to flag, the combiner role
      is vacant exactly when the queue is empty, and it is only nap time while somebody holds the role. */
  ghost predicate Global(s: State) {
    && |s.reqs| == |s.pcs| && s.first <= |s.reqs|
    && s.tail == (if s.first == |s.reqs| then None else Some(|s.reqs| - 1))
    && (s.first < |s.reqs| ==> s.reqs[|s.reqs| - 1].next == None)
    && (s.role == Nobody <==> s.first == |s.reqs|)
    && (s.role.Held? ==> s.role.holder < |s.reqs|)
    && (s.role.Given? ==> s.role.heir == s.first && s.reqs[s.first].combiner && s.reqs[s.first].blocking)
    && (forall i :: s.first <= i < |s.reqs| ==> !s.reqs[i].done)
    && (forall i :: s.first <= i < |s.reqs| && s.reqs[i].next.Some? ==> s.reqs[i].next.value == i + 1 < |s.reqs|)
    && (forall i :: 0 <= i < s.first ==> (s.reqs[i].done <==> i !in s.closing))
    && (forall i :: i in s.closing ==> i < s.first && s.closing[i] < |s.reqs|)
    && (forall i :: s.first < i < |s.reqs| ==> s.reqs[i].rc == InProgress)
    && (forall i :: 0 <= i < s.first ==> Final(s.blockingRing, s.reqs[i]))
    && (s.nap ==> s.role.Held? && s.blockingRing)
    && (s.mutex.Some? ==> s.mutex.value < |s.reqs|)
    && Staircase(s.log)
    && (s.log == [] ==> s.first == 0)
    && (s.log != [] ==> s.first <= s.log[|s.log| - 1] + 1 && s.log[|s.log| - 1] <= s.first)
  }

  /** What a combining thread `c` knows about its request `pc.r`, the oldest one in the queue. */
  ghost predicate LocalCombining(s: State, c: nat, pc: Pc)
    requires |s.reqs| == |s.pcs| && c < |s.reqs| && pc.Combining?
  {
    && c <= pc.r == s.first < |s.reqs|
    && (c == pc.r || s.reqs[c].done)
    && (s.nap ==> Napping(c, pc))
    && (Settled(pc.phase) ==> Final(s.blockingRing, s.reqs[s.first]))
    && (Settled(pc.phase) || pc.phase.Deciding? ==>
          s.reqs[s.first].rc != InProgress && s.log != [] && s.log[|s.log| - 1] == s.first)
    && (s.pending <==> pc.phase.WakingUp? && (pc.phase.wake == Lock || pc.phase.wake == Broadcast))
    && match pc.phase
       case Announcing => pc.r == c && NeedPeek(s.reqs[pc.r])
       case Peeking => pc.r == c && NeedPeek(s.reqs[pc.r])
       case WakingUp(k, w) => pc.r == c && (w == Clear ==> s.nap) && (k == RetryExec ==> NeedPeek(s.reqs[pc.r]) && s.monitoring)
       case Flagging(n) => n == pc.r + 1 < |s.reqs| && s.reqs[pc.r].next == Some(n)
       case AwaitingLink => pc.r + 1 < |s.reqs|
       case Exhausted => c < pc.r
       case HandingOver => c < pc.r && s.reqs[pc.r].blocking
       case _ => true
  }

  /** What holds of thread `t` at `pc`.  It mentions no other thread's program counter. */
  ghost predicate Local(s: State, t: nat, pc: Pc)
    requires |s.reqs| == |s.pcs| && t < |s.reqs|
  {
    && (pc.Combining? <==> s.role == Held(t))
    && (pc.Combining? ==> LocalCombining(s, t, pc))
    && (t <= s.first ==> !pc.Linking?)
    && (s.first < t ==> if pc.Linking? then pc == Linking(t - 1) && s.reqs[t - 1].next == None
                        else s.reqs[t - 1].next == Some(t))
    && (pc.Waiting? ==> s.reqs[t].blocking)
    && (pc.Waiting? || pc.Linking? ==> s.reqs[t].combiner ==> s.role == Given(t))
    && (s.role == Given(t) ==> pc.Waiting?)
    && (pc.Returned? ==> s.reqs[t].done || !s.reqs[t].blocking)
    && (pc.FlaggingLast? ==>
          pc.r in s.closing && s.closing[pc.r] == t && t < s.first && (pc.r == t || s.reqs[t].done))
    && (forall i :: i in s.closing && s.closing[i] == t ==> pc == FlaggingLast(i))
    && (NapPoint(pc) ==> s.blockingRing)
    && (HoldsMutex(pc) <==> s.mutex == Some(t))
    && (Asleep(pc) ==> s.nap || s.pending)
    && (pc.Waiting? && pc.wait.DozeRc? ==> 1 <= pc.wait.check <= 3)
    && (pc.Waiting? && pc.wait.DozeNap? ==> 1 <= pc.wait.check <= 3)
  }

  ghost predicate Inv(s: State) {
    && Global(s)
    && (s.pending ==> s.role.Held?)
    && forall t {:trigger s.pcs[t]} :: 0 <= t < |s.pcs| ==> Local(s, t, s.pcs[t])
  }

  lemma InitInv(blockingRing: bool)
    ensures Inv(Init(blockingRing))
  {
  }

  /** The queue and thread `t` are in order. */
  ghost predicate Here(s: State, t: nat) {
    Global(s) && t < |s.pcs| && Local(s, t, s.pcs[t]) && (s.pending ==> s.role.Held?)
  }

  /** A step that leaves the requests and the queue alone keeps the queue in order. */
  lemma GlobalKept(s: State, s': State)
    requires Global(s) && |s'.pcs| == |s.pcs|
    requires s'.reqs == s.reqs && s'.first == s.first && s'.closing == s.closing && s'.log == s.log
    requires s'.blockingRing == s.blockingRing && s'.tail == s.tail
    requires s'.role == s.role || (s.role.Given? && s'.role == Held(s.first))
    requires s'.nap ==> s'.role.Held? && s'.blockingRing
    requires s'.mutex.Some? ==> s'.mutex.value < |s.reqs|
    ensures Global(s')
  {
  }

  /** ... and does not disturb a thread whose own view of the role, the mutex and nap time it leaves alone. */
  lemma LocalKept(s: State, s': State, u: nat, pc: Pc)
    requires |s.reqs| == |s.pcs| == |s'.pcs| && u < |s.reqs| && Local(s, u, pc)
    requires s'.reqs == s.reqs && s'.first == s.first && s'.closing == s.closing
    requires s'.blockingRing == s.blockingRing
    requires (s'.role == Held(u) <==> s.role == Held(u)) && (s'.role == Given(u) <==> s.role == Given(u))
    requires pc.Combining? ==> s'.nap == s.nap && s'.pending == s.pending && s'.log == s.log && s'.monitoring == s.monitoring
    requires s'.mutex == Some(u) <==> s.mutex == Some(u)
    requires Asleep(pc) ==> s'.nap || s'.pending
    ensures Local(s', u, pc)
  {
  }

  lemma LinkGlobal(s: State, t: nat, o: Outcome)
    requires Here(s, t) && Enabled(s, t, o) && s.pcs[t].Linking?
    ensures Global(DoLink(s, t))
  {
  }

  lemma LinkSelf(s: State, t: nat, o: Outcome)
    requires Here(s, t) && Enabled(s, t, o) && s.pcs[t].Linking?
    ensures Local(DoLink(s, t), t, DoLink(s, t).pcs[t])
  {
  }

  lemma LinkOther(s: State, t: nat, o: Outcome, u: nat)
    requires Here(s, t) && Enabled(s, t, o) && s.pcs[t].Linking? && u < |s.pcs| && u != t && Local(s, u, s.pcs[u])
    ensures Local(DoLink(s, t), u, DoLink(s, t).pcs[u])
  {
  }

  /** A waiter moves on to `w` and perhaps acquires or releases the nap mutex. */
  function Moved(s: State, t: nat, mutex: Option<nat>, w: Wait): State
    requires t < |s.pcs|
  {
    s.(mutex := mutex).At(t, Waiting(w))
  }

  /** The mutex is free to take, or the thread's own to release or keep. */
  predicate MutexStep(t: nat, before: Option<nat>, after: Option<nat>) {
    after == before || (before == None && after == Some(t)) || (before == Some(t) && after == None)
  }

  predicate MayMoveTo(s: State, t: nat, mutex: Option<nat>, w: Wait) {
    && (NapPoint(Waiting(w)) ==> s.blockingRing)
    && (HoldsMutex(Waiting(w)) <==> mutex == Some(t))
    && (Asleep(Waiting(w)) ==> s.nap || s.pending)
    && (w.DozeRc? ==> 1 <= w.check <= 3) && (w.DozeNap? ==> 1 <= w.check <= 3)
  }

  lemma MovedSelf(s: State, t: nat, mutex: Option<nat>, w: Wait)
    requires Here(s, t) && s.pcs[t].Waiting? && MutexStep(t, s.mutex, mutex) && MayMoveTo(s, t, mutex, w)
    ensures Global(Moved(s, t, mutex, w)) && Local(Moved(s, t, mutex, w), t, Waiting(w))
  {
    GlobalKept(s, Moved(s, t, mutex, w));
  }

  lemma MovedOther(s: State, t: nat, mutex: Option<nat>, w: Wait, u: nat)
    requires Here(s, t) && s.pcs[t].Waiting? && MutexStep(t, s.mutex, mutex)
    requires u < |s.pcs| && u != t && Local(s, u, s.pcs[u])
    ensures Local(Moved(s, t, mutex, w), u, s.pcs[u])
  {
    LocalKept(s, Moved(s, t, mutex, w), u, s.pcs[u]);
  }

  /** Where a waiter goes from `w` is always allowed: in particular it only falls asleep at nap time. */
  lemma NextWaitAllowed(s: State, t: nat, w: Wait)
    requires Here(s, t) && s.pcs[t] == Waiting(w) && Enabled(s, t, Outcome(false, false, false))
    ensures MutexStep(t, s.mutex, MutexAfter(s, t, w)) && MayMoveTo(s, t, MutexAfter(s, t, w), NextWait(s, t, w))
  {
  }

  lemma MoveInv(s: State, t: nat, mutex: Option<nat>, w: Wait)
    requires Inv(s) && t < |s.pcs| && s.pcs[t].Waiting?
    requires MutexStep(t, s.mutex, mutex) && MayMoveTo(s, t, mutex, w)
    ensures Inv(Moved(s, t, mutex, w))
  {
    MovedSelf(s, t, mutex, w);
    forall u | 0 <= u < |s.pcs| && u != t ensures Local(Moved(s, t, mutex, w), u, s.pcs[u]) {
      MovedOther(s, t, mutex, w, u);
    }
  }

  lemma ReturnInv(s: State, t: nat)
    requires Inv(s) && t < |s.pcs| && s.pcs[t] == Waiting(Polling) && s.reqs[t].done
    ensures Inv(s.At(t, Returned))
  {
    hide LocalCombining, Staircase, Final;
    GlobalKept(s, s.At(t, Returned));
    forall u | 0 <= u < |s.pcs| && u != t ensures Local(s.At(t, Returned), u, s.pcs[u]) {
      LocalKept(s, s.At(t, Returned), u, s.pcs[u]);
    }
  }

  lemma TakeRoleInv(s: State, t: nat)
    requires Inv(s) && t < |s.pcs| && s.pcs[t] == Waiting(CheckingRole) && s.reqs[t].combiner
    ensures Inv(s.(role := Held(t)).At(t, StartCombining(t)))
  {
    var s' := s.(role := Held(t)).At(t, StartCombining(t));
    GlobalKept(s, s');
    forall u | 0 <= u < |s.pcs| && u != t ensures Local(s', u, s.pcs[u]) {
      LocalKept(s, s', u, s.pcs[u]);
    }
  }

  lemma WaitInv(s: State, t: nat, o: Outcome)
    requires Inv(s) && Enabled(s, t, o) && s.pcs[t].Waiting?
    ensures Inv(DoWait(s, t))
  {
    var w := s.pcs[t].wait;
    if w.Polling? && s.reqs[t].done {
      ReturnInv(s, t);
    } else if w.CheckingRole? && s.reqs[t].combiner {
      TakeRoleInv(s, t);
    } else {
      NextWaitAllowed(s, t, w);
      MoveInv(s, t, MutexAfter(s, t, w), NextWait(s, t, w));
    }
  }

  /** A combiner moves on to `p` without touching the requests. */
  function Turned(s: State, t: nat, nap: bool, monitoring: bool, mutex: Option<nat>, pending: bool, p: Phase): State
    requires t < |s.pcs| && s.pcs[t].Combining?
  {
    s.(nap := nap, monitoring := monitoring, mutex := mutex, pending := pending).At(t, s.pcs[t].(phase := p))
  }

  /** Sleepers stay accounted for: nap time only ends by announcing a broadcast. */
  ghost predicate MayTurn(s: State, t: nat, s': State, pc: Pc)
    requires |s.reqs| == |s.pcs| == |s'.pcs| && t < |s.pcs|
  {
    && s'.reqs == s.reqs && pc.Combining? && LocalCombining(s', t, pc)
    && (s'.nap || NapPoint(pc) ==> s.blockingRing)
    && (HoldsMutex(pc) <==> s'.mutex == Some(t)) && MutexStep(t, s.mutex, s'.mutex)
    && (s.nap || s.pending ==> s'.nap || s'.pending)
  }

  lemma TurnInv(s: State, t: nat, nap: bool, monitoring: bool, mutex: Option<nat>, pending: bool, p: Phase)
    requires Inv(s) && t < |s.pcs| && s.pcs[t].Combining?
    requires MayTurn(s, t, Turned(s, t, nap, monitoring, mutex, pending, p), s.pcs[t].(phase := p))
    ensures Inv(Turned(s, t, nap, monitoring, mutex, pending, p))
  {
    hide Staircase, Final;
    var s' := Turned(s, t, nap, monitoring, mutex, pending, p);
    GlobalKept(s, s');
    forall u | 0 <= u < |s.pcs| && u != t ensures Local(s', u, s.pcs[u]) {
      LocalKept(s, s', u, s.pcs[u]);
    }
  }

  lemma PeekInv(s: State, t: nat, o: Outcome)
    requires Inv(s) && Enabled(s, t, o) && s.pcs[t].Combining?
    requires s.pcs[t].phase.Deciding? || s.pcs[t].phase.Announcing? || s.pcs[t].phase.Peeking?
    ensures Inv(DoCombine(s, t, o))
  {
    var s' := DoCombine(s, t, o);
    TurnInv(s, t, s'.nap, s.monitoring, s.mutex, s.pending, s'.pcs[t].phase);
  }

  lemma FollowInv(s: State, t: nat, o: Outcome)
    requires Inv(s) && Enabled(s, t, o) && s.pcs[t].Combining?
    requires s.pcs[t].phase.ReadingNext? || s.pcs[t].phase.AwaitingLink?
    ensures Inv(DoCombine(s, t, o))
  {
    TurnInv(s, t, s.nap, s.monitoring, s.mutex, s.pending, DoCombine(s, t, o).pcs[t].phase);
  }

  lemma WakeInv(s: State, t: nat, o: Outcome)
    requires Inv(s) && Enabled(s, t, o) && s.pcs[t].Combining? && s.pcs[t].phase.WakingUp?
    requires s.pcs[t].phase.wake != Broadcast
    ensures Inv(DoWake(s, t))
  {
    hide Staircase, Final;
    var s' := DoWake(s, t);
    TurnInv(s, t, s'.nap, s'.monitoring, s'.mutex, s'.pending, s'.pcs[t].phase);
  }

  /** After the broadcast nobody sleeps: the sleepers wake, and who is about to sleep would hold the mutex. */
  lemma BroadcastInv(s: State, t: nat)
    requires Inv(s) && t < |s.pcs| && s.pcs[t].Combining? && s.pcs[t].phase.WakingUp?
    requires s.pcs[t].phase.wake == Broadcast
    ensures Inv(DoWake(s, t))
    ensures forall u :: 0 <= u < |s.pcs| ==> !Asleep(DoWake(s, t).pcs[u])
  {
    hide Staircase, Final;
    var s' := DoWake(s, t);
    GlobalKept(s, s');
    forall u | 0 <= u < |s.pcs| && u != t ensures Local(s', u, s'.pcs[u]) && !Asleep(s'.pcs[u]) {
      LocalKept(s, s', u, s'.pcs[u]);
    }
  }

  lemma CloseFailedInv(s: State, t: nat)
    requires Inv(s) && t < |s.pcs| && s.pcs[t].Combining? && s.pcs[t].phase.Closing? && s.tail != Some(s.pcs[t].r)
    ensures Inv(s.At(t, s.pcs[t].(phase := AwaitingLink)))
  {
    TurnInv(s, t, s.nap, s.monitoring, s.mutex, s.pending, AwaitingLink);
  }

  lemma ExecuteGlobal(s: State, t: nat, o: Outcome)
    requires Here(s, t) && Enabled(s, t, o) && s.pcs[t].Combining? && s.pcs[t].phase.Executing?
    ensures Global(DoCombine(s, t, o))
  {
  }

  lemma ExecuteSelf(s: State, t: nat, o: Outcome)
    requires Here(s, t) && Enabled(s, t, o) && s.pcs[t].Combining? && s.pcs[t].phase.Executing?
    ensures Local(DoCombine(s, t, o), t, DoCombine(s, t, o).pcs[t])
  {
  }

  lemma ExecuteOther(s: State, t: nat, o: Outcome, u: nat)
    requires Here(s, t) && Enabled(s, t, o) && s.pcs[t].Combining? && s.pcs[t].phase.Executing? && u < |s.pcs| && u != t && Local(s, u, s.pcs[u])
    ensures Local(DoCombine(s, t, o), u, DoCombine(s, t, o).pcs[u])
  {
  }

  function Closed(s: State, t: nat): State
    requires t < |s.pcs| && s.pcs[t].Combining?
  {
    var r := s.pcs[t].r;
    s.(tail := None, first := |s.reqs|, role := Nobody, closing := s.closing[r := t]).At(t, FlaggingLast(r))
  }

  lemma ClosedSelf(s: State, t: nat)
    requires Here(s, t) && s.pcs[t].Combining? && s.pcs[t].phase.Closing? && s.tail == Some(s.pcs[t].r)
    ensures Global(Closed(s, t)) && Local(Closed(s, t), t, FlaggingLast(s.pcs[t].r))
  {
    hide Staircase, Final;
  }

  lemma ClosedOther(s: State, t: nat, u: nat)
    requires Here(s, t) && s.pcs[t].Combining? && s.pcs[t].phase.Closing? && s.tail == Some(s.pcs[t].r)
    requires u < |s.pcs| && u != t && Local(s, u, s.pcs[u])
    ensures Local(Closed(s, t), u, s.pcs[u])
  {
  }

  lemma FlagGlobal(s: State, t: nat, o: Outcome)
    requires Here(s, t) && Enabled(s, t, o) && s.pcs[t].Combining? && s.pcs[t].phase.Flagging?
    ensures Global(DoAdvance(s, t))
  {
  }

  lemma FlagSelf(s: State, t: nat, o: Outcome)
    requires Here(s, t) && Enabled(s, t, o) && s.pcs[t].Combining? && s.pcs[t].phase.Flagging?
    ensures Local(DoAdvance(s, t), t, DoAdvance(s, t).pcs[t])
  {
  }

  lemma FlagOther(s: State, t: nat, o: Outcome, u: nat)
    requires Here(s, t) && Enabled(s, t, o) && s.pcs[t].Combining? && s.pcs[t].phase.Flagging? && u < |s.pcs| && u != t && Local(s, u, s.pcs[u])
    ensures Local(DoAdvance(s, t), u, DoAdvance(s, t).pcs[u])
  {
  }

  lemma ExhaustGlobal(s: State, t: nat, o: Outcome)
    requires Here(s, t) && Enabled(s, t, o) && s.pcs[t].Combining? && s.pcs[t].phase.Exhausted?
    ensures Global(DoAdvance(s, t))
  {
  }

  lemma ExhaustSelf(s: State, t: nat, o: Outcome)
    requires Here(s, t) && Enabled(s, t, o) && s.pcs[t].Combining? && s.pcs[t].phase.Exhausted?
    ensures Local(DoAdvance(s, t), t, DoAdvance(s, t).pcs[t])
  {
  }

  lemma ExhaustOther(s: State, t: nat, o: Outcome, u: nat)
    requires Here(s, t) && Enabled(s, t, o) && s.pcs[t].Combining? && s.pcs[t].phase.Exhausted? && u < |s.pcs| && u != t && Local(s, u, s.pcs[u])
    ensures Local(DoAdvance(s, t), u, DoAdvance(s, t).pcs[u])
  {
  }

  lemma HandOverGlobal(s: State, t: nat, o: Outcome)
    requires Here(s, t) && Enabled(s, t, o) && s.pcs[t].Combining? && s.pcs[t].phase.HandingOver?
    ensures Global(DoAdvance(s, t))
  {
  }

  lemma HandOverSelf(s: State, t: nat, o: Outcome)
    requires Here(s, t) && Enabled(s, t, o) && s.pcs[t].Combining? && s.pcs[t].phase.HandingOver?
    ensures Local(DoAdvance(s, t), t, DoAdvance(s, t).pcs[t])
  {
  }

  lemma HandOverOther(s: State, t: nat, o: Outcome, u: nat)
    requires Here(s, t) && Enabled(s, t, o) && s.pcs[t].Combining? && s.pcs[t].phase.HandingOver? && u < |s.pcs| && u != t && Local(s, u, s.pcs[u])
    ensures Local(DoAdvance(s, t), u, DoAdvance(s, t).pcs[u])
  {
  }

  lemma FlagLastGlobal(s: State, t: nat, o: Outcome)
    requires Here(s, t) && Enabled(s, t, o) && s.pcs[t].FlaggingLast?
    ensures Global(DoFlagLast(s, t))
  {
    hide Staircase;
  }

  lemma FlagLastSelf(s: State, t: nat, o: Outcome)
    requires Here(s, t) && Enabled(s, t, o) && s.pcs[t].FlaggingLast?
    ensures Local(DoFlagLast(s, t), t, DoFlagLast(s, t).pcs[t])
  {
  }

  lemma FlagLastOther(s: State, t: nat, o: Outcome, u: nat)
    requires Here(s, t) && Enabled(s, t, o) && s.pcs[t].FlaggingLast? && u < |s.pcs| && u != t && Local(s, u, s.pcs[u])
    ensures Local(DoFlagLast(s, t), u, DoFlagLast(s, t).pcs[u])
  {
    hide Staircase, Final;
  }

  lemma LinkInv(s: State, t: nat, o: Outcome)
    requires Inv(s) && Enabled(s, t, o) && s.pcs[t].Linking?
    ensures Inv(DoLink(s, t))
  {
    hide LocalCombining, Staircase, Final;
    LinkGlobal(s, t, o);
    LinkSelf(s, t, o);
    forall u | 0 <= u < |s.pcs| && u != t ensures Local(DoLink(s, t), u, DoLink(s, t).pcs[u]) {
      LinkOther(s, t, o, u);
    }
  }

  lemma ExecuteInv(s: State, t: nat, o: Outcome)
    requires Inv(s) && Enabled(s, t, o) && s.pcs[t].Combining? && s.pcs[t].phase.Executing?
    ensures Inv(DoCombine(s, t, o))
  {
    hide LocalCombining, Staircase, Final;
    ExecuteGlobal(s, t, o);
    ExecuteSelf(s, t, o);
    forall u | 0 <= u < |s.pcs| && u != t ensures Local(DoCombine(s, t, o), u, DoCombine(s, t, o).pcs[u]) {
      ExecuteOther(s, t, o, u);
    }
  }

  lemma FlagInv(s: State, t: nat, o: Outcome)
    requires Inv(s) && Enabled(s, t, o) && s.pcs[t].Combining? && s.pcs[t].phase.Flagging?
    ensures Inv(DoAdvance(s, t))
  {
    hide LocalCombining, Staircase, Final;
    FlagGlobal(s, t, o);
    FlagSelf(s, t, o);
    forall u | 0 <= u < |s.pcs| && u != t ensures Local(DoAdvance(s, t), u, DoAdvance(s, t).pcs[u]) {
      FlagOther(s, t, o, u);
    }
  }

  lemma ExhaustInv(s: State, t: nat, o: Outcome)
    requires Inv(s) && Enabled(s, t, o) && s.pcs[t].Combining? && s.pcs[t].phase.Exhausted?
    ensures Inv(DoAdvance(s, t))
  {
    hide LocalCombining, Staircase, Final;
    ExhaustGlobal(s, t, o);
    ExhaustSelf(s, t, o);
    forall u | 0 <= u < |s.pcs| && u != t ensures Local(DoAdvance(s, t), u, DoAdvance(s, t).pcs[u]) {
      ExhaustOther(s, t, o, u);
    }
  }

  lemma HandOverInv(s: State, t: nat, o: Outcome)
    requires Inv(s) && Enabled(s, t, o) && s.pcs[t].Combining? && s.pcs[t].phase.HandingOver?
    ensures Inv(DoAdvance(s, t))
  {
    hide Staircase, Final;
    HandOverGlobal(s, t, o);
    HandOverSelf(s, t, o);
    forall u | 0 <= u < |s.pcs| && u != t ensures Local(DoAdvance(s, t), u, DoAdvance(s, t).pcs[u]) {
      HandOverOther(s, t, o, u);
    }
  }

  lemma FlagLastInv(s: State, t: nat, o: Outcome)
    requires Inv(s) && Enabled(s, t, o) && s.pcs[t].FlaggingLast?
    ensures Inv(DoFlagLast(s, t))
  {
    hide LocalCombining, Staircase, Final;
    FlagLastGlobal(s, t, o);
    FlagLastSelf(s, t, o);
    forall u | 0 <= u < |s.pcs| && u != t ensures Local(DoFlagLast(s, t), u, DoFlagLast(s, t).pcs[u]) {
      FlagLastOther(s, t, o, u);
    }
  }

  lemma CloseInv(s: State, t: nat)
    requires Inv(s) && t < |s.pcs| && s.pcs[t].Combining? && s.pcs[t].phase.Closing?
    ensures Inv(DoAdvance(s, t))
  {
    hide Staircase, Final;
    if s.tail == Some(s.pcs[t].r) {
      ClosedSelf(s, t);
      forall u | 0 <= u < |s.pcs| && u != t ensures Local(Closed(s, t), u, s.pcs[u]) {
        ClosedOther(s, t, u);
      }
    } else {
      CloseFailedInv(s, t);
    }
  }

  lemma ArriveGlobal(s: State, blocking: bool)
    requires Inv(s)
    ensures Global(DoArrive(s, blocking))
  {
  }

  lemma ArriveSelf(s: State, blocking: bool)
    requires Inv(s)
    ensures |DoArrive(s, blocking).pcs| == |s.pcs| + 1 == |DoArrive(s, blocking).reqs|
    ensures Local(DoArrive(s, blocking), |s.pcs|, DoArrive(s, blocking).pcs[|s.pcs|])
  {
  }

  lemma ArriveOther(s: State, blocking: bool, u: nat)
    requires Global(s) && (s.pending ==> s.role.Held?) && u < |s.pcs| && Local(s, u, s.pcs[u])
    ensures Local(DoArrive(s, blocking), u, s.pcs[u])
  {
  }

  lemma ArriveInv(s: State, blocking: bool)
    requires Inv(s)
    ensures Inv(DoArrive(s, blocking))
  {
    hide LocalCombining, Staircase, Final;
    ArriveGlobal(s, blocking);
    ArriveSelf(s, blocking);
    forall u | 0 <= u < |s.pcs| ensures Local(DoArrive(s, blocking), u, s.pcs[u]) {
      ArriveOther(s, blocking, u);
    }
  }

  lemma CombineInv(s: State, t: nat, o: Outcome)
    requires Inv(s) && Enabled(s, t, o) && s.pcs[t].Combining?
    ensures Inv(DoCombine(s, t, o))
  {
    match s.pcs[t].phase
    case Executing => ExecuteInv(s, t, o);
    case WakingUp(_, w) => if w == Broadcast { BroadcastInv(s, t); } else { WakeInv(s, t, o); }
    case Closing => CloseInv(s, t);
    case Flagging(_) => FlagInv(s, t, o);
    case Exhausted => ExhaustInv(s, t, o);
    case HandingOver => HandOverInv(s, t, o);
    case ReadingNext => FollowInv(s, t, o);
    case AwaitingLink => FollowInv(s, t, o);
    case _ => PeekInv(s, t, o);
  }

  /** The main invariant: every step of every thread, in any order, keeps the queue in order. */
  lemma StepInv(s: State, a: Action)
    requires Inv(s) && CanStep(s, a)
    ensures Inv(Step(s, a))
  {
    match a
    case Arrive(blocking) => ArriveInv(s, blocking);
    case Run(t, o) =>
      match s.pcs[t]
      case Linking(_) => LinkInv(s, t, o);
      case Waiting(_) => WaitInv(s, t, o);
      case Combining(_, _, _, _) => CombineInv(s, t, o);
      case FlaggingLast(_) => FlagLastInv(s, t, o);
      case Returned => assert false;
  }

  lemma {:induction false} ScheduleInv(blockingRing: bool, actions: seq<Action>)
    requires Schedule(blockingRing, actions)
    ensures Inv(After(blockingRing, actions))
    decreases |actions|
  {
    if actions == [] {
      InitInv(blockingRing);
    } else {
      var before := actions[..|actions| - 1];
      ScheduleInv(blockingRing, before);
      StepInv(After(blockingRing, before), actions[|actions| - 1]);
    }
  }
}
