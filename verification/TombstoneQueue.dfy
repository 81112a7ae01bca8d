/** What the ring with tombstones promises its callers: a first-in first-out queue of the elements that are no
    tombstones, with exact conditions for every outcome. */
module TombstoneQueue {
  import opened Modular
  import opened RingLayout
  import opened TombstoneRing

  // ---- The outcomes of puts and gets.

  /** Room for `asize` bytes behind the elements from `k` on, with a header and one byte to spare. */
  predicate Room(s: State, k: nat, asize: nat)
    requires Shaped(s) && k <= |s.elems|
  {
    s.starts[|s.elems|] - s.starts[k] + asize + HEADER_SIZE < s.size
  }

  /** Reclaiming cannot get beyond element `k`. */
  predicate StopsAt(s: State, k: nat) {
    && s.reaped <= k <= |s.elems| && (forall j {:trigger s.elems[j]} :: s.reaped <= j < k ==> s.elems[j].done)
    && (k < |s.elems| ==> !s.elems[k].done)
  }

  function Min(a: nat, b: nat): nat {
    if a < b then a else b
  }

  /** What a round of a put reclaims: nothing if there is room, else done elements that gets have passed, else all. */
  lemma ReclaimedExactly(s: State, first: nat)
    requires Inv(s) && s.put.Trying? && StopsAt(s, first)
    ensures Tried(s).reaped == if Room(s, s.reaped, s.put.asize) then s.reaped
                               else if Room(s, Min(first, s.got), s.put.asize) then Min(first, s.got) else first
    ensures !s.doneOnly ==> Tried(s).got == s.got
    ensures Tried(s).doneOnly == s.doneOnly && Tried(s).size == s.size
  {
    hide Wrap, ElementOk, OwnerOk;
    assert DoneUpTo(s.elems, s.reaped, |s.elems|) == first;
    assert DoneUpTo(s.elems, s.reaped, s.got) == Min(first, s.got);
  }

  /** A round of a put fails exactly if there is no room even if everything before the first element that is not done
      is reclaimed.  Otherwise, if the element would reach the end of the ring, it leaves a tombstone of that size,
      READY, and tries again; and if not, it places an element of the requested size, in INIT, which owns the tombstone
      if there is one. */
  lemma PutRoundExactly(s: State, first: nat)
    requires Inv(s) && CanAct(s, TryPut) && StopsAt(s, first)
    ensures
      var s', n, put := Act(s, TryPut), |s.elems|, s.put;
      if !Room(s, first, put.asize) then
        s'.result == Full && s'.put == NoPut && s'.elems == s.elems && s'.starts == s.starts && s'.reaped == first
      else
        && |s'.elems| == n + 1 && s'.elems[..n] == s.elems && s'.starts == s.starts + [s.starts[n] + put.asize]
        && var e := s'.elems[n];
           e.asize == put.asize && !e.done
           && if Off(s, n) + put.asize >= s.size then
                e.tombstone && e.ready && !e.owner && s'.put == put.(owner := true) && s'.result == NoResult
              else
                !e.tombstone && !e.ready && e.usize == put.usize && e.owner == put.owner && s'.put == NoPut && s'.result == Placed(n)
  {
    hide Wrap, ElementOk, OwnerOk;
    ReclaimedExactly(s, first);
    var k, n := Reclaimed(s, s.put.asize), |s.elems|;
    assert k <= first;
    Rising(s, k, first);
    Rising(s, first, n);
    if Room(s, first, s.put.asize) { WrapsExactly(s.starts[n], s.put.asize, s.size); }
  }

  /** A put begins exactly if its request is no larger than the ring. */
  lemma BeginExactly(s: State, usize: nat, asize: nat)
    requires CanAct(s, BeginPut(usize, asize))
    ensures
      var s' := Act(s, BeginPut(usize, asize));
      if asize <= s.size then s'.put == Trying(usize, asize, false) && s'.result == NoResult
      else s'.put == NoPut && s'.result == Invalid
  {
  }

  /** A round of a get reports an empty ring exactly if no element is left, and not ready exactly if the oldest one is
      neither a tombstone nor READY; neither changes an element or passes one.  It hands out the oldest element exactly
      if this is READY and no tombstone, and passes a tombstone without a result. */
  lemma GetRoundExactly(s: State)
    requires Inv(s) && CanAct(s, GetStep)
    ensures
      var s', i := Act(s, GetStep), s.got;
      && (s'.result == Empty <==> i == |s.elems|)
      && (s'.result == NotReady <==> i < |s.elems| && !s.elems[i].tombstone && !s.elems[i].ready)
      && (s'.result.Got? <==> i < |s.elems| && !s.elems[i].tombstone && s.elems[i].ready)
      && (s'.result == Empty || s'.result == NotReady ==> s'.elems == s.elems && s'.got == i)
      && (s'.result.Got? ==> s'.result == Got(i))
      && (i < |s.elems| && s.elems[i].tombstone ==> s'.result == NoResult)
      && (s'.result.Got? || s'.result == NoResult ==> s'.got == i + 1)
      && s'.starts == s.starts && s'.reaped == s.reaped && s'.put == s.put && |s'.elems| == |s.elems|
  {
    hide Wrap;
    if s.got < |s.elems| && s.elems[s.got].tombstone { TombstoneFlags(s, s.got); }
  }

  /** Which step changes which flag of an element: its owner sets it READY and DONE; a tombstone becomes DONE with its
      owner or when a get passes it, and after either there is no owner left to release it.  Nothing else changes. */
  lemma FlagsExactly(s: State, a: Action, j: nat)
    requires Inv(s) && CanAct(s, a) && j < |s.elems|
    ensures j < |Act(s, a).elems| && j < |Act(s, a).starts| && Act(s, a).starts[j] == s.starts[j]
    ensures
      var e, e' := s.elems[j], Act(s, a).elems[j];
      && e' == e.(owner := e'.owner, ready := e'.ready, done := e'.done)
      && (e'.ready <==> e.ready || a == SetReady(j))
      && (e'.done <==> || e.done || a == SetDone(j) || (a == GetStep && j == s.got && e.tombstone)
                       || (a == SetDone(j + 1) && s.elems[j + 1].owner))
      && (e'.owner <==> e.owner && a != SetDone(j) && !(a == GetStep && j == s.got && e.ready))
  {
    hide Wrap, ElementOk;
    if s.elems[j].tombstone { TombstoneFlags(s, j); }
    match a
    case TryPut => hide Inv, Reclaimed, TombstoneRing.Fits;
    case SetDone(i) =>
      DoneSetFlags(s, i, j);
      hide Inv, DoneSet;
    case _ => hide Chain, OwnerOk;
  }

  lemma DoneSetFlags(s: State, i: nat, j: nat)
    requires Inv(s) && CanAct(s, SetDone(i)) && j < |s.elems|
    ensures
      var s', e := DoneSet(s, i), s.elems[j];
      |s'.elems| == |s.elems| && s'.starts == s.starts
      && s'.elems[j] == e.(owner := e.owner && j != i, done := e.done || j == i || (j + 1 == i && s.elems[i].owner))
  {
    hide Wrap, ElementOk;
    assert OwnerOk(s.elems, s.doneOnly, i);
    if j + 1 == i && s.elems[i].owner { TombstoneFlags(s, j); }
  }

  // ---- First in, first out.

  /** An element as callers know it: where its header lies, and the requested size. */
  datatype Slot = Slot(start: nat, usize: nat)

  /** The elements from `i` on, without tombstones. */
  function Waiting(elems: seq<Element>, starts: seq<nat>, i: nat): seq<Slot>
    requires i <= |elems| < |starts|
    decreases |elems| - i
  {
    if i == |elems| then []
    else (if elems[i].tombstone then [] else [Slot(starts[i], elems[i].usize)]) + Waiting(elems, starts, i + 1)
  }

  /** What a step returns to a put that asked for `usize`. */
  function PutBy(s: State, a: Action, usize: nat): seq<Slot>
    requires CanAct(s, a)
  {
    var s' := Act(s, a);
    if a.TryPut? && s'.result.Placed? && s'.result.i < |s'.starts| then [Slot(s'.starts[s'.result.i], usize)] else []
  }

  /** What a step returns to a get. */
  function GotBy(s: State, a: Action): seq<Slot>
    requires CanAct(s, a)
  {
    var s' := Act(s, a);
    if a.GetStep? && s'.result.Got? && s'.result.i < |s'.elems| && s'.result.i < |s'.starts| then
      [Slot(s'.starts[s'.result.i], s'.elems[s'.result.i].usize)]
    else []
  }

  /** The size that the put in progress asked for. */
  function Asked(a: Action, usize: nat): nat {
    if a.BeginPut? then a.usize else usize
  }

  /** What puts return during a run; `usize` is what the put in progress asked for. */
  function Puts(s: State, actions: seq<Action>, usize: nat): seq<Slot>
    decreases |actions|
  {
    if actions == [] || !CanAct(s, actions[0]) then []
    else PutBy(s, actions[0], usize) + Puts(Act(s, actions[0]), actions[1..], Asked(actions[0], usize))
  }

  /** What gets return during a run. */
  function Gots(s: State, actions: seq<Action>): seq<Slot>
    decreases |actions|
  {
    if actions == [] || !CanAct(s, actions[0]) then []
    else GotBy(s, actions[0]) + Gots(Act(s, actions[0]), actions[1..])
  }

  lemma {:induction false} WaitingSnoc(elems: seq<Element>, starts: seq<nat>, i: nat, el: Element, next: nat)
    requires i <= |elems| && |starts| == |elems| + 1
    ensures Waiting(elems + [el], starts + [next], i)
         == Waiting(elems, starts, i) + if el.tombstone then [] else [Slot(starts[|elems|], el.usize)]
    decreases |elems| - i
  {
    if i < |elems| {
      WaitingSnoc(elems, starts, i + 1, el, next);
    } else {
      assert Waiting(elems + [el], starts + [next], i + 1) == [];
    }
  }

  lemma {:induction false} SameWaiting(elems: seq<Element>, elems': seq<Element>, starts: seq<nat>, i: nat)
    requires i <= |elems| == |elems'| < |starts|
    requires forall j {:trigger elems'[j]} :: i <= j < |elems| ==>
               elems'[j].tombstone == elems[j].tombstone && elems'[j].usize == elems[j].usize
    ensures Waiting(elems', starts, i) == Waiting(elems, starts, i)
    decreases |elems| - i
  {
    if i < |elems| {
      SameWaiting(elems, elems', starts, i + 1);
      assert elems'[i].usize == elems[i].usize && elems'[i].tombstone == elems[i].tombstone;
    }
  }

  ghost predicate Asking(s: State, usize: nat) {
    s.put.Trying? ==> s.put.usize == usize
  }

  function WaitingIn(s: State): seq<Slot> {
    if s.got <= |s.elems| < |s.starts| then Waiting(s.elems, s.starts, s.got) else []
  }

  /** One step moves at most one element. */
  lemma ActMoves(s: State, a: Action, usize: nat)
    requires Inv(s) && !s.doneOnly && CanAct(s, a) && Asking(s, usize)
    ensures !Act(s, a).doneOnly && Asking(Act(s, a), Asked(a, usize))
    ensures WaitingIn(s) + PutBy(s, a, usize) == GotBy(s, a) + WaitingIn(Act(s, a))
  {
    if a.TryPut? {
      PutMoves(s, usize);
    } else if a.GetStep? {
      GetMoves(s);
    } else {
      OtherMoves(s, a);
    }
  }

  lemma FirstNotDone(s: State) returns (first: nat)
    requires Inv(s)
    ensures StopsAt(s, first)
  {
    first := DoneUpTo(s.elems, s.reaped, |s.elems|);
  }

  lemma GotInRange(s: State)
    requires Inv(s)
    ensures s.got <= |s.elems| < |s.starts|
  {
  }

  lemma PutMoves(s: State, usize: nat)
    requires Inv(s) && !s.doneOnly && CanAct(s, TryPut) && Asking(s, usize)
    ensures !Act(s, TryPut).doneOnly && Asking(Act(s, TryPut), usize)
    ensures WaitingIn(Act(s, TryPut)) == WaitingIn(s) + PutBy(s, TryPut, usize)
  {
    hide Waiting, Wrap, Inv, StopsAt, Room, Tried, Off;
    GotInRange(s);
    var first := FirstNotDone(s);
    PutRoundExactly(s, first);
    ReclaimedExactly(s, first);
    var s', n := Act(s, TryPut), |s.elems|;
    if |s'.elems| == n + 1 {
      assert s'.elems == s.elems + [s'.elems[n]];
      WaitingSnoc(s.elems, s.starts, s.got, s'.elems[n], s.starts[n] + s.put.asize);
    }
  }

  lemma GetMoves(s: State)
    requires Inv(s) && CanAct(s, GetStep)
    ensures Act(s, GetStep).doneOnly == s.doneOnly && Act(s, GetStep).put == s.put
    ensures WaitingIn(s) == GotBy(s, GetStep) + WaitingIn(Act(s, GetStep))
  {
    GetRoundExactly(s);
    assert s.got <= |s.elems|;
    var s' := Act(s, GetStep);
    forall j | 0 <= j < |s.elems| ensures s'.elems[j].tombstone == s.elems[j].tombstone && s'.elems[j].usize == s.elems[j].usize {
      FlagsExactly(s, GetStep, j);
    }
    SameWaiting(s.elems, s'.elems, s.starts, s'.got);
  }

  lemma OtherMoves(s: State, a: Action)
    requires Inv(s) && CanAct(s, a) && !a.TryPut? && !a.GetStep?
    ensures WaitingIn(Act(s, a)) == WaitingIn(s)
  {
    var s' := Act(s, a);
    forall j | 0 <= j < |s.elems| ensures s'.elems[j].tombstone == s.elems[j].tombstone && s'.elems[j].usize == s.elems[j].usize {
      FlagsExactly(s, a, j);
    }
    SameWaiting(s.elems, s'.elems, s.starts, s.got);
  }

  /** Whatever gets and owners do meanwhile, gets return the elements that are no tombstones in the order in which puts
      returned them, each with the size that was asked for, and what has not been returned is still waiting. */
  lemma {:induction false} FirstInFirstOut(s: State, actions: seq<Action>, s': State, usize: nat)
    requires Inv(s) && !s.doneOnly && Runs(s, actions, s') && Asking(s, usize)
    ensures Inv(s') && WaitingIn(s) + Puts(s, actions, usize) == Gots(s, actions) + WaitingIn(s')
    decreases |actions|
  {
    hide Inv, WaitingIn, Act, PutBy, GotBy, Asking;
    if actions != [] {
      var a, rest := actions[0], actions[1..];
      ActInv(s, a);
      ActMoves(s, a, usize);
      FirstInFirstOut(Act(s, a), rest, s', Asked(a, usize));
      Chained(WaitingIn(s), PutBy(s, a, usize), GotBy(s, a), WaitingIn(Act(s, a)),
              Puts(Act(s, a), rest, Asked(a, usize)), Gots(Act(s, a), rest), WaitingIn(s'));
    }
  }

  lemma Chained(w: seq<Slot>, p: seq<Slot>, g: seq<Slot>, w1: seq<Slot>, ps: seq<Slot>, gs: seq<Slot>, w2: seq<Slot>)
    requires w + p == g + w1 && w1 + ps == gs + w2
    ensures w + (p + ps) == (g + gs) + w2
  {
    calc {
      w + (p + ps);
      (w + p) + ps;
      (g + w1) + ps;
      g + (w1 + ps);
      g + (gs + w2);
      (g + gs) + w2;
    }
  }

  /** From creation on. */
  lemma GotsArePuts(s: State, actions: seq<Action>, s': State)
    requires Created(s) && !s.doneOnly && Runs(s, actions, s')
    ensures Inv(s') && Puts(s, actions, 0) == Gots(s, actions) + WaitingIn(s')
  {
    CreatedInv(s);
    FirstInFirstOut(s, actions, s', 0);
  }

  // ---- When a put finds room again.

  predicate AllDone(s: State) {
    forall j {:trigger s.elems[j]} :: 0 <= j < |s.elems| ==> s.elems[j].done
  }

  lemma OwnerWaits(s: State, j: nat)
    requires Inv(s) && j < |s.elems| && s.elems[j].owner
    ensures !s.elems[j].tombstone && !s.elems[j].done
  {
    hide Wrap, ElementOk;
    assert OwnerOk(s.elems, s.doneOnly, j);
    if s.elems[j].tombstone { TombstoneFlags(s, j); }
  }

  /** Once no put is in progress and every element that is no tombstone is DONE, so are all tombstones: if gets have
      passed everything, or, in a done-only ring, if no tombstone was orphaned. */
  lemma TombstonesReleased(s: State)
    requires Inv(s) && s.put == NoPut
    requires forall j {:trigger s.elems[j]} :: 0 <= j < |s.elems| && !s.elems[j].tombstone ==> s.elems[j].done
    requires if s.doneOnly then forall j {:trigger Orphan(s, j)} :: !Orphan(s, j) else s.got == |s.elems|
    ensures AllDone(s)
  {
    forall j | 0 <= j < |s.elems| ensures s.elems[j].done {
      if s.doneOnly && s.elems[j].tombstone && !s.elems[j].done {
        assert !Orphan(s, j);
        OwnerWaits(s, j + 1);
      }
    }
  }

  /** Then a request that fits into the ring is placed at once if it does not reach the end of the ring, and in a second
      round exactly if the ring has room for it twice. */
  lemma DonePutExactly(s: State)
    requires Inv(s) && s.put.Trying? && AllDone(s) && s.put.asize + HEADER_SIZE < s.size
    ensures
      var n, asize, s1 := |s.elems|, s.put.asize, Act(s, TryPut);
      if Off(s, n) + asize < s.size then s1.result == Placed(n)
      else
        CanAct(s1, TryPut) && Act(s1, TryPut).result == if 2 * asize + HEADER_SIZE < s.size then Placed(n + 1) else Full
  {
    var n, asize, s1 := |s.elems|, s.put.asize, Act(s, TryPut);
    PutRoundExactly(s, n);
    if Off(s, n) + asize >= s.size {
      ActInv(s, TryPut);
      ReclaimedExactly(s, n);
      Rising(s, s.reaped, n);
      hide Inv, Wrap;
      Unreclaimed(s, s1);
      PutRoundExactly(s1, n);
      OneTombstone(s1);
    }
  }

  lemma Unreclaimed(s: State, s1: State)
    requires Inv(s1) && AllDone(s) && |s1.elems| == |s.elems| + 1 && s1.elems[..|s.elems|] == s.elems && !s1.elems[|s.elems|].done
    ensures StopsAt(s1, |s.elems|)
  {
    hide Wrap, ElementOk;
    var n := |s.elems|;
    assert forall j {:trigger s1.elems[j]} :: 0 <= j < n ==> s1.elems[j] == s1.elems[..n][j];
    assert !s1.elems[n].done;
  }
}
