/** All interleavings of puts, gets and the owners of elements, and that they keep the invariant. */
module RingRuns {
  import opened Modular
  import opened RingLayout
  import opened RingMachine
  import opened RingInvariant
  import opened RingSteps

  /** Who moves next: a put or get begins or takes its next step, or the owner of element `i` sets it ready or
      done or copies `bytes` into its data. */
  datatype Action =
    | BeginPut(usize: nat)
    | StepPut
    | BeginGet
    | StepGet
    | SetReady(i: nat)
    | SetDone(i: nat)
    | Copy(i: nat, at: nat, bytes: seq<byte>)

  predicate CanAct(r: Ring, h: Hist, a: Action) {
    match a
    case BeginPut(_) => r.put == PutIdle
    case StepPut => r.put != PutIdle
    case BeginGet => r.get == GetIdle && !h.doneOnly
    case StepGet => r.get != GetIdle
    case SetReady(i) => MaySetReady(h, i)
    case SetDone(i) => MaySetDone(h, i)
    case Copy(i, at, bytes) => MayCopy(h, i, at, bytes)
  }

  function Act(r: Ring, h: Hist, a: Action): Ring
    requires r.size > 0 && r.align > 0 && |h.starts| == |h.elems| + 1 && CanAct(r, h, a)
  {
    match a
    case BeginPut(usize) => PutBegin(r, usize)
    case StepPut => PutNext(r)
    case BeginGet => GetBegin(r)
    case StepGet => GetNext(r)
    case SetReady(i) => SetStatus(r, DataOf(r, h, i), READY)
    case SetDone(i) => SetStatus(r, DataOf(r, h, i), DONE)
    case Copy(i, at, bytes) => CopyTo(r, DataOf(r, h, i) + at, bytes)
  }

  ghost function HistAct(r: Ring, h: Hist, a: Action): Hist
    requires Shape(h) && CanAct(r, h, a)
  {
    match a
    case BeginPut(_) => HistPutBegin(h)
    case StepPut => HistPutNext(r, h)
    case BeginGet => h
    case StepGet => HistGetNext(r, h)
    case SetReady(i) => HistStatus(h, i, READY)
    case SetDone(i) => HistStatus(h, i, DONE)
    case Copy(i, at, bytes) => HistCopy(h, i, at, bytes)
  }

  // ---- Every step keeps the invariant.

  lemma ReapStep(r: Ring, h: Hist)
    requires Inv(r, h) && r.put.ReapLoad?
    ensures Inv(PutNext(r), HistPutNext(r, h))
  {
    var elm := HeaderAt(r.mem, r.put.pos);
    LoadedHeader(r, h, h.cursor);
    if MoreToReap(r.put.pos, r.put.end, elm) {
      ReapMoreInv(r, h, elm);
    } else {
      ReapEndInv(r, h, elm);
    }
  }

  lemma SweepStep(r: Ring, h: Hist)
    requires Inv(r, h) && r.put.SweepLoad?
    ensures Inv(PutNext(r), HistPutNext(r, h))
  {
    var elm := HeaderAt(r.mem, r.put.pos);
    LoadedHeader(r, h, h.cursor);
    if MoreToReap(r.put.pos, r.put.end, elm) {
      SweepMoreInv(r, h, elm);
    } else {
      SweepEndInv(r, h, elm);
    }
  }

  lemma OtherPutStep(r: Ring, h: Hist)
    requires Inv(r, h) && !r.put.ReapLoad? && !r.put.SweepLoad?
    ensures Inv(PutNext(r), HistPutNext(r, h))
  {
    match r.put
    case PutIdle =>
    case SweepStart(usize, asize) => SweepStartInv(r, h, usize, asize);
    case CheckTail(usize, asize, snap, pos) => CheckTailInv(r, h, usize, asize, snap, pos);
    case CasTail(usize, asize, snap, pos) => CasTailInv(r, h, usize, asize, snap, pos);
    case Recheck(usize, asize) => RecheckInv(r, h, usize, asize);
    case WriteHeader(usize, asize) => WriteHeaderInv(r, h, usize, asize);
    case PublishHead(usize, asize) => PublishInv(r, h, usize, asize);
  }

  lemma GetLoadStep(r: Ring, h: Hist)
    requires Inv(r, h) && r.get == GetLoad
    ensures Inv(GetNext(r), HistGetNext(r, h))
  {
    GetLoadInv(r, h);
  }

  lemma GetPublishStep(r: Ring, h: Hist)
    requires Inv(r, h) && r.get.GetPublish?
    ensures Inv(GetNext(r), HistGetNext(r, h))
  {
    hide Inv;
    TailPublishedInv(r, h, r.get.header);
  }

  /** One step of some side takes `(r, h)` to `(r', h')`. */
  ghost predicate Step(r: Ring, h: Hist, a: Action, r': Ring, h': Hist) {
    && r.size > 0 && r.align > 0 && Shape(h) && CanAct(r, h, a)
    && r' == Act(r, h, a) && h' == HistAct(r, h, a)
  }

  lemma PutStepInv(r: Ring, h: Hist, r': Ring, h': Hist)
    requires Inv(r, h) && r' == PutNext(r) && h' == HistPutNext(r, h)
    ensures Inv(r', h')
  {
    if r.put.ReapLoad? { ReapStep(r, h); } else if r.put.SweepLoad? { SweepStep(r, h); } else { OtherPutStep(r, h); }
  }

  lemma GetStepInv(r: Ring, h: Hist, r': Ring, h': Hist)
    requires Inv(r, h) && r.get != GetIdle && r' == GetNext(r) && h' == HistGetNext(r, h)
    ensures Inv(r', h')
  {
    if r.get == GetLoad { GetLoadStep(r, h); } else { GetPublishStep(r, h); }
  }

  lemma BeginInv(r: Ring, h: Hist, a: Action, r': Ring, h': Hist)
    requires Inv(r, h) && (a.BeginPut? || a.BeginGet?) && Step(r, h, a, r', h')
    ensures Inv(r', h')
  {
    match a
    case BeginPut(usize) => PutBeginInv(r, h, usize);
    case BeginGet => GetBeginInv(r, h);
  }

  lemma StepInv(r: Ring, h: Hist, a: Action, r': Ring, h': Hist)
    requires Inv(r, h) && Step(r, h, a, r', h')
    ensures Inv(r', h')
  {
    hide Inv;
    if a.StepPut? {
      PutStepInv(r, h, r', h');
    } else if a.StepGet? {
      GetStepInv(r, h, r', h');
    } else if a.BeginPut? || a.BeginGet? {
      BeginInv(r, h, a, r', h');
    } else if a.Copy? {
      CopyInv(r, h, a.i, a.at, a.bytes, r', h');
    } else {
      SetStatusInv(r, h, a.i, if a.SetReady? then READY else DONE, r', h');
    }
  }

  // ---- Whole runs.

  /** The steps `steps`, in this order, take `(r, h)` to `(r', h')`. */
  ghost predicate Runs(r: Ring, h: Hist, steps: seq<Action>, r': Ring, h': Hist)
    decreases |steps|
  {
    if steps == [] then r' == r && h' == h
    else
      && r.size > 0 && r.align > 0 && Shape(h) && CanAct(r, h, steps[0])
      && Runs(Act(r, h, steps[0]), HistAct(r, h, steps[0]), steps[1..], r', h')
  }

  lemma {:induction false} RunInv(r: Ring, h: Hist, steps: seq<Action>, r': Ring, h': Hist)
    requires Inv(r, h) && Runs(r, h, steps, r', h')
    ensures Inv(r', h')
    decreases |steps|
  {
    if steps != [] {
      StepInv(r, h, steps[0], Act(r, h, steps[0]), HistAct(r, h, steps[0]));
      RunInv(Act(r, h, steps[0]), HistAct(r, h, steps[0]), steps[1..], r', h');
    }
  }

  /** What ring_buffer_create leaves behind: whole pages, and the first header just before an aligned address of
      the first page, in some color. */
  ghost predicate Created(r: Ring, h: Hist) {
    && HEADER_SIZE <= r.align <= PAGE_SIZE && r.size % r.align == 0 && PAGE_SIZE <= r.size < U32 && |r.mem| == r.size
    && r.head == r.tail == r.tail2 && (r.head + HEADER_SIZE) % r.align == 0 && r.head + HEADER_SIZE <= PAGE_SIZE
    && r.put == PutIdle && r.get == GetIdle
    && h == Hist(h.doneOnly, [], [r.head], 0, 0, 0, 0)
  }

  lemma CreatedInv(r: Ring, h: Hist)
    requires Created(r, h)
    ensures Inv(r, h)
  {
    WrapIsMod(r.size, r.align);
    WrapIsMod(r.head + HEADER_SIZE, r.align);
  }

  /** What can happen to a ring buffer after it was created. */
  ghost predicate Reachable(r: Ring, h: Hist) {
    exists r0, h0, steps :: Created(r0, h0) && Runs(r0, h0, steps, r, h)
  }

  lemma ReachableInv(r: Ring, h: Hist)
    requires Reachable(r, h)
    ensures Inv(r, h)
  {
    var r0, h0, steps :| Created(r0, h0) && Runs(r0, h0, steps, r, h);
    CreatedInv(r0, h0);
    RunInv(r0, h0, steps, r, h);
  }
}
