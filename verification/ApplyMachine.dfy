/** Pushing local results to the global vertex array: the compare-and-swap loops of any number of executors, one
    access to shared memory at a time. */
module ApplyMachine {
  import opened VertexPrograms

  /** One result to push: a value other than the neutral element for a vertex. */
  datatype Task = Task(vertex: nat, value: value)

  /** Progress on one result.  `changed` tells whether a swap was tried; Load is also where the next result starts.
      The Mark steps are the loop of set_bool_array_atomically. */
  datatype Pc =
    | Load(changed: bool)
    | Compare(old_value: nat, changed: bool)
    | Assign(old_value: nat, changed: bool)
    | Swap(old_value: nat, new_value: nat, changed: bool)
    | Mark
    | MarkCompute(old_byte: set<nat>)
    | MarkSwap(old_byte: set<nat>, new_byte: set<nat>)

  /** An executor that has pushed the first `done` of its results. */
  datatype Thread = Thread(done: nat, pc: Pc)

  /** The global array of new values, the bytes of the array of changed flags as sets of bits, and the executors. */
  datatype State = State(next: seq<nat>, changed: seq<set<nat>>, threads: seq<Thread>)

  function ByteOf(v: nat): nat {
    v / 8
  }

  function BitOf(v: nat): nat {
    v % 8
  }

  /** Every executor has results for vertices of the array. */
  predicate PlanOk(plan: seq<seq<Task>>, s: State) {
    && |plan| == |s.threads|
    && (forall t, k {:trigger plan[t][k]} :: 0 <= t < |plan| && 0 <= k < |plan[t]| ==>
          plan[t][k].vertex < |s.next| && ByteOf(plan[t][k].vertex) < |s.changed|)
    && (forall t {:trigger s.threads[t]} :: 0 <= t < |s.threads| ==> s.threads[t].done <= |plan[t]|)
  }

  predicate CanStep(plan: seq<seq<Task>>, s: State, t: nat) {
    PlanOk(plan, s) && t < |plan| && s.threads[t].done < |plan[t]|
  }

  function Moved(s: State, t: nat, pc: Pc): State
    requires t < |s.threads|
  {
    s.(threads := s.threads[t := s.threads[t].(pc := pc)])
  }

  function Finished(s: State, t: nat): State
    requires t < |s.threads|
  {
    s.(threads := s.threads[t := Thread(s.threads[t].done + 1, Load(false))])
  }

  /** What follows a successful round: setting the changed flag if a swap was tried. */
  function Pushed(s: State, t: nat, changed: bool): State
    requires t < |s.threads|
  {
    if changed then Moved(s, t, Mark) else Finished(s, t)
  }

  /** The next access to shared memory of executor `t`. */
  function Step(plan: seq<seq<Task>>, s: State, t: nat): State
    requires CanStep(plan, s, t)
  {
    var Task(v, value) := plan[t][s.threads[t].done];
    var b := ByteOf(v);
    match s.threads[t].pc
    case Load(changed) => Moved(s, t, Compare(s.next[v], changed))
    case Compare(old_value, changed) =>
      Moved(s, t, if value < s.next[v] then Swap(old_value, value, changed) else Assign(old_value, changed))
    case Assign(old_value, changed) => Moved(s, t, Swap(old_value, s.next[v], changed))
    case Swap(old_value, new_value, changed) =>
      if old_value == new_value then Pushed(s, t, changed)
      else if s.next[v] == old_value then Pushed(s.(next := s.next[v := new_value]), t, true)
      else Moved(s, t, Load(true))
    case Mark => Moved(s, t, MarkCompute(s.changed[b]))
    case MarkCompute(old_byte) => Moved(s, t, MarkSwap(old_byte, s.changed[b] + {BitOf(v)}))
    case MarkSwap(old_byte, new_byte) =>
      if old_byte == new_byte then Finished(s, t)
      else if s.changed[b] == old_byte then Finished(s.(changed := s.changed[b := new_byte]), t)
      else Moved(s, t, Mark)
  }

  // ---- What every step keeps, from the state `s0` before the push.

  predicate Tried(pc: Pc) {
    match pc
    case Load(changed) => changed
    case Compare(_, changed) => changed
    case Assign(_, changed) => changed
    case Swap(_, _, changed) => changed
    case _ => true
  }

  /** What executor's local variables say about `next`, the current value of its vertex, `first`, the value before
      the push, and `byte`, the current byte of its changed flag. */
  predicate PcOk(pc: Pc, value: nat, bit: nat, first: nat, next: nat, byte: set<nat>) {
    && (Tried(pc) ==> next < first)
    && match pc
       case Load(_) => true
       case Compare(old_value, _) => next <= old_value <= first
       case Assign(old_value, _) => next <= old_value <= first && next <= value
       case Swap(old_value, new_value, _) =>
         && next <= old_value <= first && new_value <= old_value
         && ((new_value == value < old_value) || (next <= new_value && next <= value))
       case Mark => next <= value
       case MarkCompute(old_byte) => next <= value && old_byte <= byte
       case MarkSwap(old_byte, new_byte) =>
         next <= value && old_byte <= byte && old_byte <= new_byte <= byte + {bit} && bit in new_byte
  }

  ghost predicate ThreadOk(tasks: seq<Task>, th: Thread, first: seq<nat>, next: seq<nat>, changed: seq<set<nat>>) {
    && th.done <= |tasks| && |first| == |next|
    && (forall k {:trigger tasks[k]} :: 0 <= k < |tasks| ==>
          tasks[k].vertex < |next| && ByteOf(tasks[k].vertex) < |changed|)
    && (forall k {:trigger tasks[k]} :: 0 <= k < th.done ==> next[tasks[k].vertex] <= tasks[k].value)
    && (th.done < |tasks| ==>
          var v := tasks[th.done].vertex;
          PcOk(th.pc, tasks[th.done].value, BitOf(v), first[v], next[v], changed[ByteOf(v)]))
    && (th.done == |tasks| ==> th.pc == Load(false))
  }

  /** Executor `t` will set the changed flag of `v`. */
  predicate Pending(plan: seq<seq<Task>>, s: State, t: nat, v: nat)
    requires |plan| == |s.threads|
  {
    t < |plan| && s.threads[t].done < |plan[t]| && plan[t][s.threads[t].done].vertex == v && Tried(s.threads[t].pc)
  }

  predicate Flagged(s: State, v: nat) {
    ByteOf(v) < |s.changed| && BitOf(v) in s.changed[ByteOf(v)]
  }

  /** The values that are pushed to `v`. */
  ghost function Values(plan: seq<seq<Task>>, v: nat): set<nat> {
    set t, k | 0 <= t < |plan| && 0 <= k < |plan[t]| && plan[t][k].vertex == v :: plan[t][k].value as nat
  }

  ghost predicate VertexOk(plan: seq<seq<Task>>, s0: State, s: State, v: nat)
    requires |plan| == |s.threads| && v < |s0.next| == |s.next|
  {
    && s.next[v] <= s0.next[v] && (s.next[v] == s0.next[v] || s.next[v] in Values(plan, v))
    && (s.next[v] != s0.next[v] ==> Flagged(s, v) || exists t :: Pending(plan, s, t, v))
    && (Flagged(s, v) ==> Flagged(s0, v) || s.next[v] != s0.next[v])
    && (Flagged(s0, v) ==> Flagged(s, v))
  }

  ghost predicate Inv(plan: seq<seq<Task>>, s0: State, s: State) {
    && PlanOk(plan, s) && |s.next| == |s0.next| && |s.changed| == |s0.changed|
    && (forall t {:trigger s.threads[t]} :: 0 <= t < |plan| ==> ThreadOk(plan[t], s.threads[t], s0.next, s.next, s.changed))
    && (forall v {:trigger s.next[v]} :: 0 <= v < |s.next| ==> VertexOk(plan, s0, s, v))
  }

  predicate Initial(plan: seq<seq<Task>>, s: State) {
    && PlanOk(plan, s)
    && (forall t {:trigger s.threads[t]} :: 0 <= t < |s.threads| ==> s.threads[t] == Thread(0, Load(false)))
  }

  lemma InitialInv(plan: seq<seq<Task>>, s: State)
    requires Initial(plan, s)
    ensures Inv(plan, s, s)
  {
    forall t | 0 <= t < |plan| ensures ThreadOk(plan[t], s.threads[t], s.next, s.next, s.changed) {
      assert s.threads[t] == Thread(0, Load(false));
    }
    forall v | 0 <= v < |s.next| ensures VertexOk(plan, s, s, v) {
    }
  }

  /** Values only fall and flags are only set. */
  predicate Progress(s: State, s': State) {
    && |s'.next| == |s.next| && |s'.changed| == |s.changed| && |s'.threads| == |s.threads|
    && (forall v {:trigger s'.next[v]} :: 0 <= v < |s.next| ==> s'.next[v] <= s.next[v])
    && (forall b {:trigger s'.changed[b]} :: 0 <= b < |s.changed| ==> s.changed[b] <= s'.changed[b])
  }

  /** ... which no other executor minds. */
  lemma OthersDoNotMind(tasks: seq<Task>, th: Thread, first: seq<nat>, s: State, s': State)
    requires ThreadOk(tasks, th, first, s.next, s.changed) && Progress(s, s')
    ensures ThreadOk(tasks, th, first, s'.next, s'.changed)
  {
    forall k | 0 <= k < th.done ensures s'.next[tasks[k].vertex] <= tasks[k].value {
      assert s'.next[tasks[k].vertex] <= s.next[tasks[k].vertex];
    }
    if th.done < |tasks| {
      var v := tasks[th.done].vertex;
      assert s'.next[v] <= s.next[v] && s.changed[ByteOf(v)] <= s'.changed[ByteOf(v)];
    }
  }

  lemma InvVertex(plan: seq<seq<Task>>, s0: State, s: State, v: nat)
    requires Inv(plan, s0, s) && v < |s.next|
    ensures VertexOk(plan, s0, s, v)
  {
    assert s.next[v] >= 0;
  }

  /** The step of executor `t` keeps its own local knowledge and lets values fall and flags rise only. */
  lemma OwnStep(plan: seq<seq<Task>>, s0: State, s: State, t: nat)
    requires Inv(plan, s0, s) && CanStep(plan, s, t)
    ensures var s' := Step(plan, s, t);
            Progress(s, s') && ThreadOk(plan[t], s'.threads[t], s0.next, s'.next, s'.changed)
  {
    var th := s.threads[t];
    assert ThreadOk(plan[t], th, s0.next, s.next, s.changed);
    var s' := Step(plan, s, t);
    var v := plan[t][th.done].vertex;
    InvVertex(plan, s0, s, v);
    OwnPc(plan, s0, s, t);
    OwnTasks(plan, s0, s, t);
  }

  /** The local variables after a step. */
  lemma OwnPc(plan: seq<seq<Task>>, s0: State, s: State, t: nat)
    requires PlanOk(plan, s) && CanStep(plan, s, t) && ThreadOk(plan[t], s.threads[t], s0.next, s.next, s.changed)
    requires var v := plan[t][s.threads[t].done].vertex; s.next[v] <= s0.next[v]
    ensures var s' := Step(plan, s, t); var task := plan[t][s.threads[t].done]; var v := task.vertex;
            if s'.threads[t].done == s.threads[t].done then
              PcOk(s'.threads[t].pc, task.value, BitOf(v), s0.next[v], s'.next[v], s'.changed[ByteOf(v)])
            else
              s'.threads[t].done == s.threads[t].done + 1 && s'.threads[t].pc == Load(false) && s'.next[v] <= task.value
    ensures var s' := Step(plan, s, t); Progress(s, s')
  {
  }

  lemma OwnTasks(plan: seq<seq<Task>>, s0: State, s: State, t: nat)
    requires PlanOk(plan, s) && CanStep(plan, s, t) && ThreadOk(plan[t], s.threads[t], s0.next, s.next, s.changed)
    requires var s' := Step(plan, s, t); var task := plan[t][s.threads[t].done]; var v := task.vertex;
             if s'.threads[t].done == s.threads[t].done then
               PcOk(s'.threads[t].pc, task.value, BitOf(v), s0.next[v], s'.next[v], s'.changed[ByteOf(v)])
             else
               s'.threads[t].done == s.threads[t].done + 1 && s'.threads[t].pc == Load(false) && s'.next[v] <= task.value
    requires Progress(s, Step(plan, s, t))
    ensures var s' := Step(plan, s, t); ThreadOk(plan[t], s'.threads[t], s0.next, s'.next, s'.changed)
  {
    hide Step;
    var s', th := Step(plan, s, t), s.threads[t];
    forall k | 0 <= k < s'.threads[t].done ensures s'.next[plan[t][k].vertex] <= plan[t][k].value {
      if k < th.done {
        assert s.next[plan[t][k].vertex] <= plan[t][k].value;
        assert s'.next[plan[t][k].vertex] <= s.next[plan[t][k].vertex];
      }
    }
  }

  lemma OthersStay(plan: seq<seq<Task>>, s: State, t: nat)
    requires CanStep(plan, s, t)
    ensures var s' := Step(plan, s, t);
            |s'.threads| == |s.threads| && |s'.next| == |s.next| && |s'.changed| == |s.changed|
            && (forall u {:trigger s'.threads[u]} :: 0 <= u < |plan| && u != t ==> s'.threads[u] == s.threads[u])
            && s.threads[t].done <= s'.threads[t].done <= s.threads[t].done + 1
  {
  }

  /** What the step does to the vertex `v` it is about. */
  predicate Effect(plan: seq<seq<Task>>, s0: State, s: State, s': State, t: nat, v: nat, value: nat)
    requires |plan| == |s.threads| == |s'.threads| && v < |s.next| == |s0.next| == |s'.next| && |s'.changed| == |s.changed|
    requires ByteOf(v) < |s.changed|
  {
    && (s'.next == s.next || (s'.next == s.next[v := value] && value < s.next[v] && Pending(plan, s', t, v)))
    && (s'.changed == s.changed
        || (s'.changed == s.changed[ByteOf(v) := s.changed[ByteOf(v)] + {BitOf(v)}] && s'.next == s.next && s.next[v] < s0.next[v]))
    && (Pending(plan, s, t, v) ==> Pending(plan, s', t, v) || Flagged(s', v))
  }

  lemma StepEffect(plan: seq<seq<Task>>, s0: State, s: State, t: nat)
    requires CanStep(plan, s, t) && |s0.next| == |s.next| && ThreadOk(plan[t], s.threads[t], s0.next, s.next, s.changed)
    requires |Step(plan, s, t).threads| == |plan| && |Step(plan, s, t).next| == |s.next| && |Step(plan, s, t).changed| == |s.changed|
    ensures var task := plan[t][s.threads[t].done];
            Effect(plan, s0, s, Step(plan, s, t), t, task.vertex, task.value)
  {
    if s.threads[t].pc.MarkSwap? {
      var v := plan[t][s.threads[t].done].vertex;
      if s.threads[t].pc.old_byte == s.changed[ByteOf(v)] {
        assert s.threads[t].pc.new_byte == s.changed[ByteOf(v)] + {BitOf(v)};
      }
    }
  }

  lemma SameBit(v: nat, w: nat)
    requires ByteOf(v) == ByteOf(w) && BitOf(v) == BitOf(w)
    ensures v == w
  {
  }

  /** ... and every vertex's. */
  lemma VertexKept(plan: seq<seq<Task>>, s0: State, s: State, s': State, t: nat, task: Task, v: nat)
    requires |plan| == |s.threads| == |s'.threads| && |s.next| == |s0.next| == |s'.next| && |s'.changed| == |s.changed|
    requires task.vertex < |s.next| && ByteOf(task.vertex) < |s.changed| && v < |s.next| && t < |plan|
    requires s.threads[t].done < |plan[t]| && plan[t][s.threads[t].done] == task
    requires Effect(plan, s0, s, s', t, task.vertex, task.value) && VertexOk(plan, s0, s, v)
    requires forall u {:trigger s'.threads[u]} :: 0 <= u < |plan| && u != t ==> s'.threads[u] == s.threads[u]
    ensures VertexOk(plan, s0, s', v)
  {
    hide Values, ByteOf, BitOf, Tried;
    TaskInValues(plan, t, s.threads[t].done);
    if ByteOf(v) == ByteOf(task.vertex) && BitOf(v) == BitOf(task.vertex) { SameBit(v, task.vertex); }
    if s'.next[v] != s.next[v] {
      assert Pending(plan, s', t, v);
    } else if s.next[v] != s0.next[v] && !Flagged(s', v) {
      var u :| Pending(plan, s, u, v);
      assert Pending(plan, s', u, v);
    }
  }

  lemma TaskInValues(plan: seq<seq<Task>>, t: nat, k: nat)
    requires t < |plan| && k < |plan[t]|
    ensures plan[t][k].value as nat in Values(plan, plan[t][k].vertex)
  {
  }

  lemma StepInv(plan: seq<seq<Task>>, s0: State, s: State, t: nat)
    requires Inv(plan, s0, s) && CanStep(plan, s, t)
    ensures Inv(plan, s0, Step(plan, s, t))
  {
    hide Step, PcOk, ThreadOk, VertexOk;
    var s' := Step(plan, s, t);
    OwnStep(plan, s0, s, t);
    OthersStay(plan, s, t);
    assert ThreadOk(plan[t], s.threads[t], s0.next, s.next, s.changed);
    StepEffect(plan, s0, s, t);
    forall u | 0 <= u < |plan| ensures ThreadOk(plan[u], s'.threads[u], s0.next, s'.next, s'.changed) {
      if u != t {
        assert ThreadOk(plan[u], s.threads[u], s0.next, s.next, s.changed);
        OthersDoNotMind(plan[u], s.threads[u], s0.next, s, s');
      }
    }
    forall v | 0 <= v < |s'.next| ensures VertexOk(plan, s0, s', v) {
      InvVertex(plan, s0, s, v);
      VertexKept(plan, s0, s, s', t, plan[t][s.threads[t].done], v);
    }
  }

  // ---- Whole runs.

  /** Executors take steps in the order of `schedule`. */
  ghost predicate Runs(plan: seq<seq<Task>>, s: State, schedule: seq<nat>, s': State)
    decreases |schedule|
  {
    if schedule == [] then s' == s
    else CanStep(plan, s, schedule[0]) && Runs(plan, Step(plan, s, schedule[0]), schedule[1..], s')
  }

  lemma {:induction false} RunInv(plan: seq<seq<Task>>, s0: State, s: State, schedule: seq<nat>, s': State)
    requires Inv(plan, s0, s) && Runs(plan, s, schedule, s')
    ensures Inv(plan, s0, s')
    decreases |schedule|
  {
    if schedule != [] {
      StepInv(plan, s0, s, schedule[0]);
      RunInv(plan, s0, Step(plan, s, schedule[0]), schedule[1..], s');
    }
  }

  ghost predicate AllDone(plan: seq<seq<Task>>, s: State)
    requires |plan| == |s.threads|
  {
    forall t {:trigger s.threads[t]} :: 0 <= t < |plan| ==> s.threads[t].done == |plan[t]|
  }

  /** However the executors' loops interleave, in the end every vertex has the least of its old value and all values
      pushed to it, and exactly the vertices that changed have become flagged. */
  lemma PushIsMinimum(plan: seq<seq<Task>>, s0: State, schedule: seq<nat>, s: State, v: nat)
    requires Initial(plan, s0) && Runs(plan, s0, schedule, s) && |plan| == |s.threads| && AllDone(plan, s) && v < |s0.next|
    ensures |s.next| == |s0.next| && Least(s.next[v], s0.next[v], Values(plan, v))
    ensures Flagged(s, v) <==> Flagged(s0, v) || s.next[v] != s0.next[v]
  {
    InitialInv(plan, s0);
    RunInv(plan, s0, s0, schedule, s);
    InvVertex(plan, s0, s, v);
    forall o | o in Values(plan, v) ensures s.next[v] <= o {
      var t, k :| 0 <= t < |plan| && 0 <= k < |plan[t]| && plan[t][k].vertex == v && plan[t][k].value as nat == o;
      assert ThreadOk(plan[t], s.threads[t], s0.next, s.next, s.changed);
      assert s.next[plan[t][k].vertex] <= plan[t][k].value;
    }
    forall t | 0 <= t < |plan| ensures !Pending(plan, s, t, v) {
      assert s.threads[t].done == |plan[t]|;
    }
  }
}
