/** Reclaiming space: only what is done, all of it, and never more than the ring holds. */
module RingReclaim {
  import opened Modular
  import opened RingLayout
  import opened RingMachine
  import opened RingInvariant
  import opened RingRuns
  import opened RingFifo

  /** Between puts the absolute positions behind tail2, tail and head are in order and less than a ring apart, and
      everything before tail2 was set done, whether or not it was got. */
  lemma PositionsInOrder(r: Ring, h: Hist)
    requires Reachable(r, h) && r.put == PutIdle
    ensures Shape(h) && h.reaped <= h.got && DoneFrom(h, 0, h.reaped) && (h.doneOnly ==> h.reaped == h.got)
    ensures h.starts[h.reaped] <= h.starts[h.got] <= h.starts[|h.elems|] < h.starts[h.reaped] + r.size
    ensures r.size > 0 && r.tail2 == Wrap(h.starts[h.reaped], r.size)
    ensures r.tail == Wrap(h.starts[h.got], r.size) && r.head == Wrap(h.starts[|h.elems|], r.size)
    ensures r.head == r.tail2 <==> h.reaped == |h.elems|
  {
    ReachableInv(r, h);
    Rising(r, h, h.reaped, h.got);
    Rising(r, h, h.got, |h.elems|);
    if r.head == r.tail2 { OffsetsApart(r, h, h.reaped, |h.elems|); }
  }

  /** Live elements occupy disjoint stretches of the ring: no offset belongs to two of them. */
  lemma LiveElementsDisjoint(r: Ring, h: Hist, i: nat, j: nat, x: nat, y: nat)
    requires Reachable(r, h) && Shape(h) && h.reaped <= i < j < |h.elems|
    requires h.starts[i] <= x < h.starts[i] + h.elems[i].asize && h.starts[j] <= y < h.starts[j] + h.elems[j].asize
    ensures r.size > 0 && Wrap(x, r.size) != Wrap(y, r.size)
  {
    ReachableInv(r, h);
    ElementsApart(r, h, i, j);
    ElementsApart(r, h, j, i);
    if Wrap(x, r.size) == Wrap(y, r.size) {
      WrapInjective(y, x, r.size);
    }
  }

  /** The aggressive reaper only stops at head or at an element that is not done as it looks. */
  lemma SweepStops(r: Ring, h: Hist, r': Ring, h': Hist)
    requires Inv(r, h) && r.put.SweepLoad? && Step(r, h, StepPut, r', h') && !r'.put.SweepLoad?
    ensures h'.reaped == |h'.elems| || h'.elems[h'.reaped].status != DONE
    ensures h'.elems == h.elems && DoneFrom(h, h.reaped, h'.reaped)
  {
    hide Wrap, At, HeaderAt, DataAt, Store;
    LoadedHeader(r, h, h.cursor);
    SweepAt(r, h);
  }

  /** Between there and the last test for room only elements' statuses change, so that the element the put is held
      up by stays the oldest. */
  lemma HeldUp(r: Ring, h: Hist, a: Action, r': Ring, h': Hist)
    requires Inv(r, h) && Step(r, h, a, r', h')
    requires r.put.CheckTail? || r.put.CasTail? || (r.put.Recheck? && a != StepPut)
    ensures h'.reaped == h.reaped && |h'.elems| == |h.elems| && h'.starts == h.starts
    ensures r'.put.CheckTail? || r'.put.CasTail? || r'.put.Recheck?
  {
  }

  /** The last test for room is exact: -EAGAIN if and only if the request does not fit behind what is not
      reclaimed, and then the element to monitor is the oldest of it. */
  lemma FullExactly(r: Ring, h: Hist, r': Ring, h': Hist)
    requires Inv(r, h) && r.put.Recheck? && Step(r, h, StepPut, r', h')
    ensures r'.putResult == Full(Wrap(h.starts[h.reaped], r.size)) && r'.put == PutIdle
            <==> r.put.asize > r.size - HEADER_SIZE - 1 - Used(h)
    ensures r'.put.WriteHeader? <==> r.put.asize <= r.size - HEADER_SIZE - 1 - Used(h)
  {
    FreeSpaceExact(r, h);
  }

  // ---- A whole put, whatever gets and owners of elements do between its steps.

  /** One put is in progress up to the end of the run. */
  ghost predicate Putting(r: Ring, h: Hist, steps: seq<Action>)
    decreases |steps|
  {
    r.put != PutIdle &&
    (|steps| > 1 ==>
       r.size > 0 && r.align > 0 && Shape(h) && CanAct(r, h, steps[0]) &&
       Putting(Act(r, h, steps[0]), HistAct(r, h, steps[0]), steps[1..]))
  }

  /** `(rm, hm)` lies after the first `j` steps of the run. */
  ghost predicate After(r: Ring, h: Hist, steps: seq<Action>, j: nat, rm: Ring, hm: Hist) {
    j <= |steps| && Runs(r, h, steps[..j], rm, hm)
  }

  /** What holds a put up: the oldest element that is not reclaimed is not done; or nothing is left, and the request
      exceeds what an empty ring takes. */
  ghost predicate Obstacle(r: Ring, h: Hist, asize: nat)
    requires Shape(h)
  {
    if h.reaped < |h.elems| then h.elems[h.reaped].status != DONE else asize + HEADER_SIZE + 1 > r.size
  }

  predicate LastChecks(p: PutPc) {
    p.CheckTail? || p.CasTail? || p.Recheck?
  }

  /** A put that is past its tests for room succeeds. */
  lemma {:induction false} RoomIsEnough(r: Ring, h: Hist, steps: seq<Action>, r': Ring, h': Hist)
    requires Inv(r, h) && Runs(r, h, steps, r', h') && Putting(r, h, steps) && r'.put == PutIdle
    requires r.put.WriteHeader? || r.put.PublishHead?
    ensures r'.putResult.Placed?
    decreases |steps|
  {
    var r1, h1 := Act(r, h, steps[0]), HistAct(r, h, steps[0]);
    NextPut(r, h, steps[0]);
    StepInv(r, h, steps[0], r1, h1);
    hide Inv, Act, HistAct;
    if |steps| > 1 { RoomIsEnough(r1, h1, steps[1..], r', h'); }
  }

  /** Where a step takes the put in progress. */
  lemma NextPut(r: Ring, h: Hist, a: Action)
    requires r.size > 0 && r.align > 0 && Shape(h) && CanAct(r, h, a) && r.put != PutIdle
    ensures a != StepPut ==> Act(r, h, a).put == r.put && Act(r, h, a).putResult == r.putResult
    ensures Act(r, h, a).put != PutIdle ==> Act(r, h, a).put.asize == r.put.asize && Act(r, h, a).put.usize == r.put.usize
    ensures r.put.WriteHeader? && a == StepPut ==> Act(r, h, a).put.PublishHead?
    ensures r.put.PublishHead? && a == StepPut ==> Act(r, h, a).put == PutIdle && Act(r, h, a).putResult.Placed?
    ensures Act(r, h, a).put == PutIdle ==> a == StepPut && (r.put.PublishHead? || r.put.Recheck?)
    ensures LastChecks(Act(r, h, a).put) ==> LastChecks(r.put) || (r.put.SweepLoad? && a == StepPut)
    ensures LastChecks(r.put) ==> LastChecks(Act(r, h, a).put) || (a == StepPut && r.put.Recheck?)
    ensures Act(r, h, a).size == r.size
    ensures Act(r, h, a).put != PutIdle ==> |HistAct(r, h, a).elems| == |h.elems|
  {
    hide Store, HeaderBytes, StatusBytes, FreeSpace, Wrap, HeaderAt;
  }

  /** From the end of the sweep on, a put that fails is still held up by what it was held up by then. */
  lemma {:induction false} StillHeldUp(r: Ring, h: Hist, steps: seq<Action>, r': Ring, h': Hist)
    requires Inv(r, h) && Runs(r, h, steps, r', h') && Putting(r, h, steps) && LastChecks(r.put)
    requires r'.put == PutIdle && r'.putResult.Full?
    ensures r.size > 0 && Shape(h) && h'.reaped == h.reaped && h'.starts == h.starts && |h'.elems| == |h.elems|
    ensures r'.putResult == Full(Wrap(h.starts[h.reaped], r.size)) && r.put.asize > r.size - HEADER_SIZE - 1 - Used(h)
    decreases |steps|
  {
    var a, r1, h1 := steps[0], Act(r, h, steps[0]), HistAct(r, h, steps[0]);
    NextPut(r, h, a);
    StepInv(r, h, a, r1, h1);
    if a == StepPut && r.put.Recheck? {
      FullExactly(r, h, r1, h1);
      if r1.put.WriteHeader? { RoomIsEnough(r1, h1, steps[1..], r', h'); assert false; }
      hide Inv, Act;
      assert r1.put == PutIdle && |steps| == 1 && h1 == h;
    } else {
      HeldUp(r, h, a, r1, h1);
      hide Inv, Act, HistAct;
      StillHeldUp(r1, h1, steps[1..], r', h');
    }
  }

  /** A put in progress that fails was held up after some number `j` of steps, and nothing was reclaimed or added from
      there on. */
  lemma {:induction false} HeldUpAt(r: Ring, h: Hist, steps: seq<Action>, r': Ring, h': Hist)
    returns (j: nat, rm: Ring, hm: Hist)
    requires Inv(r, h) && Runs(r, h, steps, r', h') && Putting(r, h, steps) && !LastChecks(r.put)
    requires r'.put == PutIdle && r'.putResult.Full?
    ensures After(r, h, steps, j, rm, hm) && rm.size == r.size > 0 && Shape(hm) && Obstacle(rm, hm, r.put.asize)
    ensures |hm.elems| == |h.elems|
    ensures h'.reaped == hm.reaped && h'.starts == hm.starts && |h'.elems| == |hm.elems|
    ensures r'.putResult == Full(Wrap(hm.starts[hm.reaped], r.size)) && r.put.asize > r.size - HEADER_SIZE - 1 - Used(hm)
    decreases |steps|
  {
    hide Inv, Act, HistAct;
    var a, r1, h1 := steps[0], Act(r, h, steps[0]), HistAct(r, h, steps[0]);
    NextPut(r, h, a);
    StepInv(r, h, a, r1, h1);
    if LastChecks(r1.put) {
      SweepStops(r, h, r1, h1);
      StillHeldUp(r1, h1, steps[1..], r', h');
      assert Runs(r1, h1, steps[..1][1..], r1, h1);
      j, rm, hm := 1, r1, h1;
      assert After(r, h, steps, j, rm, hm);
      assert Obstacle(rm, hm, r.put.asize);
    } else {
      var i;
      i, rm, hm := HeldUpAt(r1, h1, steps[1..], r', h');
      j := i + 1;
      assert steps[..j][1..] == steps[1..][..i];
      assert After(r, h, steps, j, rm, hm);
    }
  }

  /** -EAGAIN is never given without need.  However gets and owners interleave with it, a put that fails for want of
      space was held up at some moment in between by an obstacle, with everything before it reclaimed; from then on
      nothing was reclaimed or added, the request did not fit, and it is the obstacle that the put monitors. */
  lemma FullNeedsObstacle(r: Ring, h: Hist, usize: nat, steps: seq<Action>, r': Ring, h': Hist)
    returns (asize: nat, j: nat, rm: Ring, hm: Hist)
    requires Inv(r, h) && CanAct(r, h, BeginPut(usize)) && Runs(PutBegin(r, usize), HistPutBegin(h), steps, r', h')
    requires Putting(PutBegin(r, usize), HistPutBegin(h), steps) && r'.put == PutIdle && r'.putResult.Full?
    ensures r.align > 0 && asize == AlignUp(usize + HEADER_SIZE, r.align)
    ensures After(PutBegin(r, usize), HistPutBegin(h), steps, j, rm, hm)
    ensures rm.size == r.size > 0 && Shape(hm) && Obstacle(rm, hm, asize) && |hm.elems| == |h.elems|
    ensures h'.reaped == hm.reaped && h'.starts == hm.starts && |h'.elems| == |hm.elems|
    ensures r'.putResult == Full(Wrap(hm.starts[hm.reaped], r.size)) && asize > r.size - HEADER_SIZE - 1 - Used(hm)
  {
    asize := AlignUp(usize + HEADER_SIZE, r.align);
    var r1, h1 := PutBegin(r, usize), HistPutBegin(h);
    StepInv(r, h, BeginPut(usize), r1, h1);
    hide Inv, FreeSpace;
    if r1.put.WriteHeader? { RoomIsEnough(r1, h1, steps, r', h'); assert false; }
    j, rm, hm := HeldUpAt(r1, h1, steps, r', h');
  }

  lemma {:induction false} EndsFullOrPlaced(r: Ring, h: Hist, steps: seq<Action>, r': Ring, h': Hist)
    requires Inv(r, h) && Runs(r, h, steps, r', h') && Putting(r, h, steps) && r'.put == PutIdle
    ensures r'.putResult.Full? || r'.putResult.Placed?
    decreases |steps|
  {
    var r1, h1 := Act(r, h, steps[0]), HistAct(r, h, steps[0]);
    NextPut(r, h, steps[0]);
    StepInv(r, h, steps[0], r1, h1);
    if r1.put == PutIdle {
      if r.put.Recheck? { FullExactly(r, h, r1, h1); }
      assert |steps| == 1;
    } else {
      hide Inv, Act, HistAct;
      EndsFullOrPlaced(r1, h1, steps[1..], r', h');
    }
  }

  /** If everything in the ring is done, a put of at most size - 9 aligned bytes succeeds, whatever happens meanwhile. */
  lemma DonePutFits(r: Ring, h: Hist, usize: nat, steps: seq<Action>, r': Ring, h': Hist)
    requires Inv(r, h) && CanAct(r, h, BeginPut(usize)) && Runs(PutBegin(r, usize), HistPutBegin(h), steps, r', h')
    requires Putting(PutBegin(r, usize), HistPutBegin(h), steps) && r'.put == PutIdle
    requires AlignUp(usize + HEADER_SIZE, r.align) + HEADER_SIZE + 1 <= r.size
    requires DoneFrom(h, h.reaped, |h.elems|)
    ensures r'.putResult.Placed?
  {
    StepInv(r, h, BeginPut(usize), PutBegin(r, usize), HistPutBegin(h));
    hide Inv, PutBegin;
    EndsFullOrPlaced(PutBegin(r, usize), HistPutBegin(h), steps, r', h');
    if r'.putResult.Full? {
      var asize, j, rm, hm := FullNeedsObstacle(r, h, usize, steps, r', h');
      RunExtends(PutBegin(r, usize), HistPutBegin(h), steps[..j], rm, hm);
    }
  }
}
