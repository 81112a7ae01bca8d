/** The compare-and-swap loops end: a failed swap means that another executor has got on. */
module ApplyProgress {
  import opened Sums
  import opened VertexPrograms
  import opened ApplyMachine

  const BITS: set<nat> := {0, 1, 2, 3, 4, 5, 6, 7}

  /** The bits that are not set yet, byte by byte. */
  ghost function Unset(changed: seq<set<nat>>): (r: seq<nat>)
    ensures |r| == |changed| && forall b {:trigger r[b]} :: 0 <= b < |r| ==> r[b] == |BITS - changed[b]|
  {
    seq(|changed|, b requires 0 <= b < |changed| => |BITS - changed[b]|)
  }

  /** How many steps are left for the result that an executor works on, if nobody else changes the value `next` of its
      vertex or the byte of its flag meanwhile. */
  function PcRank(pc: Pc, next: nat, byte: set<nat>): nat {
    match pc
    case Load(_) => 10
    case Compare(old_value, _) => if old_value == next then 9 else 13
    case Assign(old_value, _) => if old_value == next then 8 else 12
    case Swap(old_value, _, _) => if old_value == next then 7 else 11
    case Mark => 4
    case MarkCompute(old_byte) => if old_byte == byte then 3 else 6
    case MarkSwap(old_byte, _) => if old_byte == byte then 2 else 5
  }

  /** ... and for all its results. */
  ghost function ThreadRank(tasks: seq<Task>, th: Thread, next: seq<nat>, changed: seq<set<nat>>): nat {
    if th.done >= |tasks| then 0
    else
      var v := tasks[th.done].vertex;
      20 * (|tasks| - th.done)
      + if v < |next| && ByteOf(v) < |changed| then PcRank(th.pc, next[v], changed[ByteOf(v)]) else 0
  }

  ghost function Ranks(plan: seq<seq<Task>>, s: State): (r: seq<nat>)
    requires |plan| == |s.threads|
    ensures |r| == |plan|
    ensures forall t {:trigger r[t]} :: 0 <= t < |r| ==> r[t] == ThreadRank(plan[t], s.threads[t], s.next, s.changed)
  {
    seq(|plan|, t requires 0 <= t < |plan| == |s.threads| => ThreadRank(plan[t], s.threads[t], s.next, s.changed))
  }

  /** What can still be changed. */
  ghost function Changes(s: State): nat {
    Sum(s.next) + Sum(Unset(s.changed))
  }

  /** Every step brings its executor closer to its end, or another change does. */
  ghost function Work(plan: seq<seq<Task>>, s: State): nat
    requires |plan| == |s.threads|
  {
    Sum(Ranks(plan, s)) + 5 * (|plan| * Changes(s))
  }

  /** What a step does: it changes nothing that others see, or one value or one byte, for the better. */
  lemma StepChanges(plan: seq<seq<Task>>, s0: State, s: State, t: nat)
    requires Inv(plan, s0, s) && CanStep(plan, s, t)
    ensures
      var s', v := Step(plan, s, t), plan[t][s.threads[t].done].vertex;
      && |s'.threads| == |s.threads| && |s'.next| == |s.next| && |s'.changed| == |s.changed|
      && (|| (s'.next == s.next && s'.changed == s.changed)
          || (s'.changed == s.changed && s'.next == s.next[v := s'.next[v]] && s'.next[v] < s.next[v])
          || (s'.next == s.next && BitOf(v) !in s.changed[ByteOf(v)]
              && s'.changed == s.changed[ByteOf(v) := s.changed[ByteOf(v)] + {BitOf(v)}]))
  {
    hide VertexOk;
    var v := plan[t][s.threads[t].done].vertex;
    assert ThreadOk(plan[t], s.threads[t], s0.next, s.next, s.changed);
    if s.threads[t].pc.MarkSwap? {
      var byte := s.changed[ByteOf(v)];
      if s.threads[t].pc.old_byte == byte {
        assert s.threads[t].pc.new_byte == byte + {BitOf(v)};
      }
    }
  }

  lemma OwnRank(plan: seq<seq<Task>>, s0: State, s: State, t: nat)
    requires Inv(plan, s0, s) && CanStep(plan, s, t)
    ensures
      var s' := Step(plan, s, t);
      |s'.threads| == |s.threads|
      && ThreadRank(plan[t], s'.threads[t], s'.next, s'.changed) < ThreadRank(plan[t], s.threads[t], s.next, s.changed)
  {
    hide VertexOk;
    assert ThreadOk(plan[t], s.threads[t], s0.next, s.next, s.changed);
  }

  lemma OtherRank(tasks: seq<Task>, th: Thread, s: State, s': State)
    requires |s'.next| == |s.next| && |s'.changed| == |s.changed|
    ensures ThreadRank(tasks, th, s'.next, s'.changed) <= ThreadRank(tasks, th, s.next, s.changed) + 4
    ensures s'.next == s.next && s'.changed == s.changed ==>
              ThreadRank(tasks, th, s'.next, s'.changed) == ThreadRank(tasks, th, s.next, s.changed)
  {
    hide ByteOf;
  }

  lemma {:induction false} SumAtMost(ns: seq<nat>, ks: seq<nat>, c: nat)
    requires |ns| == |ks| && forall i {:trigger ks[i]} :: 0 <= i < |ks| ==> ks[i] <= ns[i] + c
    ensures Sum(ks) <= Sum(ns) + c * |ns|
  {
    if ns != [] { SumAtMost(ns[..|ns| - 1], ks[..|ks| - 1], c); }
  }

  lemma OneMoreBit(changed: seq<set<nat>>, b: nat, bit: nat)
    requires b < |changed| && bit < 8 && bit !in changed[b]
    ensures Sum(Unset(changed[b := changed[b] + {bit}])) + 1 == Sum(Unset(changed))
  {
    var left := BITS - changed[b];
    assert bit in left && BITS - (changed[b] + {bit}) == left - {bit};
    var n := |left - {bit}|;
    assert Unset(changed[b := changed[b] + {bit}]) == Unset(changed)[b := n];
    SumUpdate(Unset(changed), b, n);
  }

  lemma ChangesFall(plan: seq<seq<Task>>, s0: State, s: State, t: nat)
    requires Inv(plan, s0, s) && CanStep(plan, s, t)
    ensures var s' := Step(plan, s, t);
            if s'.next == s.next && s'.changed == s.changed then Changes(s') == Changes(s) else Changes(s') < Changes(s)
  {
    StepChanges(plan, s0, s, t);
    hide Inv, Step, Sum;
    var s', v := Step(plan, s, t), plan[t][s.threads[t].done].vertex;
    if s'.next != s.next {
      SumUpdate(s.next, v, s'.next[v]);
    } else if s'.changed != s.changed {
      OneMoreBit(s.changed, ByteOf(v), BitOf(v));
    }
  }

  lemma StepWork(plan: seq<seq<Task>>, s0: State, s: State, t: nat)
    requires Inv(plan, s0, s) && CanStep(plan, s, t)
    ensures |Step(plan, s, t).threads| == |plan| && Work(plan, Step(plan, s, t)) < Work(plan, s)
  {
    StepChanges(plan, s0, s, t);
    OwnRank(plan, s0, s, t);
    OthersStay(plan, s, t);
    ChangesFall(plan, s0, s, t);
    hide Inv, Step, Sum, ThreadRank, Changes;
    var s' := Step(plan, s, t);
    var before, after := Ranks(plan, s), Ranks(plan, s');
    var own := before[t := after[t]];
    SumUpdate(before, t, after[t]);
    forall u | 0 <= u < |after| ensures after[u] <= own[u] + 4 {
      if u != t { OtherRank(plan[u], s.threads[u], s, s'); }
    }
    if s'.next == s.next && s'.changed == s.changed {
      forall u | 0 <= u < |after| ensures after[u] == own[u] {
        if u != t { OtherRank(plan[u], s.threads[u], s, s'); }
      }
      assert after == own;
    } else {
      SumAtMost(own, after, 4);
      Times(|plan|, Changes(s'), Changes(s));
    }
  }

  lemma {:induction false} Times(n: nat, a: nat, b: nat)
    requires a < b
    ensures n * a + n <= n * b
  {
    if n > 0 {
      Times(n - 1, a, b);
      assert n * a == (n - 1) * a + a && n * b == (n - 1) * b + b;
    }
  }

  lemma {:induction false} RunWork(plan: seq<seq<Task>>, s0: State, s: State, schedule: seq<nat>, s': State)
    requires Inv(plan, s0, s) && Runs(plan, s, schedule, s')
    ensures |plan| == |s.threads| == |s'.threads| && |schedule| + Work(plan, s') <= Work(plan, s)
    decreases |schedule|
  {
    hide Work, Step, ThreadOk, VertexOk;
    if schedule != [] {
      StepInv(plan, s0, s, schedule[0]);
      StepWork(plan, s0, s, schedule[0]);
      RunWork(plan, s0, Step(plan, s, schedule[0]), schedule[1..], s');
    }
  }

  ghost function Lengths(plan: seq<seq<Task>>): (r: seq<nat>)
    ensures |r| == |plan| && forall t {:trigger r[t]} :: 0 <= t < |r| ==> r[t] == |plan[t]|
  {
    seq(|plan|, t requires 0 <= t < |plan| => |plan[t]|)
  }

  lemma {:induction false} SumTimes(ns: seq<nat>, ks: seq<nat>)
    requires |ns| == |ks| && forall i {:trigger ks[i]} :: 0 <= i < |ks| ==> ks[i] <= 30 * ns[i]
    ensures Sum(ks) <= 30 * Sum(ns)
  {
    if ns != [] { SumTimes(ns[..|ns| - 1], ks[..|ks| - 1]); }
  }

  /** However the executors interleave, together they take at most 30 steps for each result, and 5 times their number of
      steps for each change that is possible at the start.  They only stop when everything is pushed: an executor can
      take a step if and only if it is not done. */
  lemma RunsEnd(plan: seq<seq<Task>>, s0: State, schedule: seq<nat>, s: State)
    requires Initial(plan, s0) && Runs(plan, s0, schedule, s)
    ensures |schedule| <= 30 * Sum(Lengths(plan)) + 5 * (|plan| * Changes(s0))
    ensures |plan| == |s.threads| && (AllDone(plan, s) <==> forall t: nat {:trigger CanStep(plan, s, t)} :: !CanStep(plan, s, t))
  {
    hide Initial, Inv, Runs, AllDone, Changes, CanStep;
    InitialInv(plan, s0);
    RunInv(plan, s0, s0, schedule, s);
    RunWork(plan, s0, s0, schedule, s);
    InitialRanks(plan, s0);
    InvPlan(plan, s0, s);
    StopsExactly(plan, s);
  }

  lemma InvPlan(plan: seq<seq<Task>>, s0: State, s: State)
    requires Inv(plan, s0, s)
    ensures PlanOk(plan, s)
  {
  }

  lemma InitialRanks(plan: seq<seq<Task>>, s0: State)
    requires Initial(plan, s0)
    ensures |plan| == |s0.threads| && Sum(Ranks(plan, s0)) <= 30 * Sum(Lengths(plan))
  {
    forall t | 0 <= t < |plan| ensures Ranks(plan, s0)[t] <= 30 * Lengths(plan)[t] {
      assert s0.threads[t] == Thread(0, Load(false));
    }
    SumTimes(Lengths(plan), Ranks(plan, s0));
  }

  lemma StopsExactly(plan: seq<seq<Task>>, s: State)
    requires PlanOk(plan, s)
    ensures AllDone(plan, s) <==> forall t: nat {:trigger CanStep(plan, s, t)} :: !CanStep(plan, s, t)
  {
    if forall t: nat {:trigger CanStep(plan, s, t)} :: !CanStep(plan, s, t) {
      forall t | 0 <= t < |plan| ensures s.threads[t].done == |plan[t]| { assert !CanStep(plan, s, t); }
    }
  }
}
