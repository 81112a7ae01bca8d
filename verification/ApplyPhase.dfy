/** The apply phase: appliers claim steps of 4096 vertices and copy the new values of flagged vertices into the current ones.
    Most of a step is tested 64 vertices at a time, by a look at one byte of flags that covers only the first 8 of them. */
module ApplyPhase {
  import opened Modular
  import opened VertexPrograms
  import A = ApplyMachine

  const STEP_SIZE: nat := 4096

  /** The end of the step that begins at `begin`. */
  function EndOf(begin: nat, count: nat): nat {
    if begin + STEP_SIZE < count then begin + STEP_SIZE else count
  }

  function StepOf(v: nat): nat {
    v / STEP_SIZE * STEP_SIZE
  }

  /** The first byte of flags of the 64 vertices around `v`. */
  function BlockOf(v: nat): nat {
    v / 64 * 8
  }

  /** The flag of vertex `v` is set. */
  predicate Marked(changed: seq<set<nat>>, v: nat) {
    A.ByteOf(v) < |changed| && A.BitOf(v) in changed[A.ByteOf(v)]
  }

  /** The applier comes to test the flag of `v`: at the end of its step always, before it if any of the first 8 vertices of
      the block is flagged. */
  predicate LookedAt(changed: seq<set<nat>>, count: nat, v: nat) {
    EndOf(StepOf(v), count) / 8 - BlockOf(v) <= 8 || (BlockOf(v) < |changed| && changed[BlockOf(v)] != {})
  }

  predicate Applied(changed: seq<set<nat>>, count: nat, v: nat) {
    Marked(changed, v) && LookedAt(changed, count, v)
  }

  /** The current values after the phase. */
  function AppliedValues(next: seq<value>, current: seq<value>, changed: seq<set<nat>>): (r: seq<value>)
    requires |next| == |current|
    ensures |r| == |current|
    ensures forall v {:trigger r[v]} :: 0 <= v < |r| ==> r[v] == if Applied(changed, |current|, v) then next[v] else current[v]
  {
    seq(|current|, v requires 0 <= v < |current| => if Applied(changed, |current|, v) then next[v] else current[v])
  }

  /** The vertex arrays. */
  class VertexStore {
    const count: nat
    const next: array<value>
    const current: array<value>
    const changed: array<set<nat>>
    var activeNext: set<nat>

    predicate Shape() {
      next.Length == current.Length == count && changed.Length == (count + 7) / 8 && next != current
    }

    constructor (count: nat)
      ensures this.count == count && Shape() && fresh(next) && fresh(current) && fresh(changed) && activeNext == {}
    {
      this.count := count;
      next := new value[count](_ => INFINITE);
      current := new value[count](_ => INFINITE);
      changed := new set<nat>[(count + 7) / 8](_ => {});
      activeNext := {};
    }

    /** apply of both programs. */
    method ApplyVertex(v: nat) returns (same: bool)
      requires Shape() && v < count
      modifies current, this`activeNext
      ensures current[..] == old(current[..])[v := next[v]]
      ensures same <==> next[v] == old(current[v])
      ensures activeNext == if same then old(activeNext) else old(activeNext) + {v}
    {
      same := next[v] == current[v];
      if !same {
        current[v] := next[v];
        activeNext := activeNext + {v};
      }
    }

    /** Vertices from `lo` up to `hi` have been through their part of the step, and no others. */
    ghost predicate AppliedBetween(was: seq<value>, active: set<nat>, converged: bool, lo: nat, hi: nat)
      reads this`activeNext, next, current, changed
    {
      && |was| == count && Shape()
      && (forall v {:trigger current[v]} {:trigger was[v]} :: 0 <= v < count ==>
            current[v] == if lo <= v < hi && Applied(changed[..], count, v) then next[v] else was[v])
      && (forall v {:trigger v in activeNext} :: v in activeNext <==>
            v in active || (lo <= v < hi && v < count && Applied(changed[..], count, v) && next[v] != was[v]))
      && (converged <==> forall v {:trigger was[v]} :: lo <= v < hi && v < count && Applied(changed[..], count, v) ==> next[v] == was[v])
    }

    /** The rest of a step: one vertex more has been through it. */
    method ApplyNext(ghost was: seq<value>, ghost active: set<nat>, ghost lo: nat, v: nat, soFar: bool) returns (converged: bool)
      requires AppliedBetween(was, active, soFar, lo, v) && lo <= v < count && LookedAt(changed[..], count, v)
      modifies current, this`activeNext
      ensures AppliedBetween(was, active, converged, lo, v + 1)
    {
      converged := soFar;
      if A.BitOf(v) in changed[A.ByteOf(v)] {
        assert current[v] == was[v];
        var same := ApplyVertex(v);
        converged := soFar && same;
      }
    }

    /** Vertices whose flags are tested one by one. */
    method ApplyEach(ghost was: seq<value>, ghost active: set<nat>, ghost lo: nat, from: nat, to: nat, soFar: bool) returns (converged: bool)
      requires AppliedBetween(was, active, soFar, lo, from) && lo <= from <= to <= count
      requires forall v {:trigger LookedAt(changed[..], count, v)} :: from <= v < to ==> LookedAt(changed[..], count, v)
      modifies current, this`activeNext
      ensures AppliedBetween(was, active, converged, lo, to)
    {
      hide AppliedBetween, LookedAt;
      converged := soFar;
      for v := from to to
        invariant AppliedBetween(was, active, converged, lo, v)
      {
        converged := ApplyNext(was, active, lo, v, converged);
      }
    }

    /** One step of an applier, after all vertices from `lo` up to it. */
    method ApplyStep(ghost was: seq<value>, ghost active: set<nat>, ghost lo: nat, begin: nat, soFar: bool) returns (converged: bool)
      requires AppliedBetween(was, active, soFar, lo, begin) && lo <= begin && begin % STEP_SIZE == 0 && begin < count
      modifies current, this`activeNext
      ensures AppliedBetween(was, active, converged, lo, EndOf(begin, count))
    {
      hide AppliedBetween, Applied, LookedAt;
      var end := EndOf(begin, count);
      var at := begin / 8;
      converged := soFar;
      StartsByte(begin);
      while end / 8 - at > 8
        invariant begin / 8 <= at && at % 8 == 0 && at * 8 <= end
        invariant AppliedBetween(was, active, converged, lo, at * 8)
      {
        HasByte(was, active, converged, lo, begin, at);
        if changed[at] != {} {
          BlockIsLookedAt(changed[..], count, begin, at);
          converged := ApplyEach(was, active, lo, at * 8, at * 8 + 64, converged);
        } else {
          SkippedBlock(was, active, converged, lo, begin, at);
        }
        at := at + 8;
      }
      TailIsLookedAt(changed[..], count, begin, at);
      converged := ApplyEach(was, active, lo, at * 8, end, converged);
    }

    /** The whole phase.  The steps are disjoint, so that it makes no difference which applier claims which. */
    method Apply() returns (converged: bool)
      requires Shape()
      modifies current, this`activeNext
      ensures current[..] == AppliedValues(next[..], old(current[..]), changed[..])
      ensures converged <==> current[..] == old(current[..])
      ensures forall v: nat {:trigger v in activeNext} ::
                v in activeNext <==> v in old(activeNext) || (v < count && current[v] != old(current[..])[v])
    {
      hide AppliedBetween, Applied, AppliedValues;
      ghost var was, active := current[..], activeNext;
      converged := true;
      var begin := 0;
      Unapplied(0);
      while begin < count
        invariant begin % STEP_SIZE == 0 || begin == count
        invariant begin <= count && AppliedBetween(was, active, converged, 0, begin)
      {
        converged := ApplyStep(was, active, 0, begin, converged);
        begin := EndOf(begin, count);
      }
      AllApplied(was, active, converged);
    }

    lemma AllApplied(was: seq<value>, active: set<nat>, converged: bool)
      requires Shape() && AppliedBetween(was, active, converged, 0, count)
      ensures |was| == count && current[..] == AppliedValues(next[..], was, changed[..])
      ensures converged <==> current[..] == was
      ensures forall v: nat {:trigger v in activeNext} :: v in activeNext <==> v in active || (v < count && current[v] != was[v])
    {
      hide Applied;
      if current[..] == was {
        forall v | 0 <= v < count && Applied(changed[..], count, v) ensures next[v] == was[v] {
          assert current[..][v] == was[v];
        }
      }
    }

    lemma Unapplied(begin: nat)
      requires Shape()
      ensures AppliedBetween(current[..], activeNext, true, begin, begin)
    {
    }

    lemma HasByte(was: seq<value>, active: set<nat>, converged: bool, lo: nat, begin: nat, at: nat)
      requires AppliedBetween(was, active, converged, lo, at * 8) && EndOf(begin, count) / 8 - at > 8
      ensures at < changed.Length && at * 8 + 64 <= count && at * 8 + 64 <= begin + STEP_SIZE
    {
    }

    lemma SkippedBlock(was: seq<value>, active: set<nat>, converged: bool, lo: nat, begin: nat, at: nat)
      requires AppliedBetween(was, active, converged, lo, at * 8) && begin % STEP_SIZE == 0 && begin / 8 <= at && at % 8 == 0
      requires EndOf(begin, count) / 8 - at > 8 && at < changed.Length && changed[at] == {}
      ensures AppliedBetween(was, active, converged, lo, at * 8 + 64)
    {
      forall v | at * 8 <= v < at * 8 + 64 ensures !Applied(changed[..], count, v) {
        InBlock(begin, at, v - at * 8);
      }
    }
  }

  /** Places in a step. */
  lemma InStep(begin: nat, v: nat)
    requires begin % STEP_SIZE == 0 && begin <= v < begin + STEP_SIZE
    ensures StepOf(v) == begin
  {
    ModUnique(v, STEP_SIZE, begin / STEP_SIZE, v - begin);
  }

  lemma InBlock(begin: nat, at: nat, i: nat)
    requires begin % STEP_SIZE == 0 && begin / 8 <= at && at % 8 == 0 && i < 64 && at * 8 + 64 <= begin + STEP_SIZE
    ensures BlockOf(at * 8 + i) == at && StepOf(at * 8 + i) == begin
  {
    ModUnique(at * 8 + i, 64, at / 8, i);
    StartsByte(begin);
    InStep(begin, at * 8 + i);
  }

  lemma StartsByte(begin: nat)
    requires begin % STEP_SIZE == 0
    ensures begin / 8 * 8 == begin
  {
    ModUnique(begin, 8, begin / STEP_SIZE * 512, 0);
  }

  lemma InTail(begin: nat, at: nat, v: nat)
    requires begin % STEP_SIZE == 0 && begin / 8 <= at && at % 8 == 0 && at * 8 <= v < begin + STEP_SIZE
    ensures BlockOf(v) >= at && StepOf(v) == begin
  {
    StartsByte(begin);
    InStep(begin, v);
    hide StepOf;
    assert at == 8 * (at / 8);
  }

  lemma BlockIsLookedAt(changed: seq<set<nat>>, count: nat, begin: nat, at: nat)
    requires begin % STEP_SIZE == 0 && begin / 8 <= at && at % 8 == 0 && at * 8 + 64 <= begin + STEP_SIZE
    requires at < |changed| && changed[at] != {}
    ensures forall v {:trigger LookedAt(changed, count, v)} :: at * 8 <= v < at * 8 + 64 ==> LookedAt(changed, count, v)
  {
    forall v | at * 8 <= v < at * 8 + 64 ensures LookedAt(changed, count, v) {
      InBlock(begin, at, v - at * 8);
    }
  }

  lemma TailIsLookedAt(changed: seq<set<nat>>, count: nat, begin: nat, at: nat)
    requires begin % STEP_SIZE == 0 && begin / 8 <= at && at % 8 == 0 && EndOf(begin, count) / 8 - at <= 8
    ensures forall v {:trigger LookedAt(changed, count, v)} :: at * 8 <= v < EndOf(begin, count) ==> LookedAt(changed, count, v)
  {
    forall v | at * 8 <= v < EndOf(begin, count) ensures LookedAt(changed, count, v) {
      InTail(begin, at, v);
    }
  }
}
