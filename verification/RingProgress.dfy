/** Puts and gets end after a number of their own steps that the elements of the ring bound, whatever others do. */
module RingProgress {
  import opened RingLayout
  import opened RingMachine
  import opened RingInvariant
  import opened RingRuns
  import RingFifo

  /** How many steps the put in progress has left at most. */
  function PutRank(r: Ring, h: Hist): int {
    match r.put
    case PutIdle => 0
    case ReapLoad(_, _, _, _, _) => 8 + |h.elems| - h.cursor
    case SweepStart(_, _) => 7 + |h.elems| - h.reaped
    case SweepLoad(_, _, _, _, _, _, _) => 6 + |h.elems| - h.cursor
    case CheckTail(_, _, _, _) => 5
    case CasTail(_, _, _, _) => 4
    case Recheck(_, _) => 3
    case WriteHeader(_, _) => 2
    case PublishHead(_, _) => 1
  }

  function GetRank(r: Ring): nat {
    match r.get
    case GetIdle => 0
    case GetLoad => 2
    case GetPublish(_) => 1
  }

  lemma PutAdvances(r: Ring, h: Hist)
    requires Inv(r, h) && r.put != PutIdle
    ensures 0 <= PutRank(PutNext(r), HistPutNext(r, h)) < PutRank(r, h)
  {
    hide Chain, Content, Statuses, FreeSpace, HeaderBytes, HeaderAt;
    Sizes(r, h);
    PutSizes(r, h);
  }

  lemma Sizes(r: Ring, h: Hist)
    requires Kept(r, h)
    ensures r.size > 0 && Shape(h)
  {
  }

  lemma PutSizes(r: Ring, h: Hist)
    requires Inv(r, h)
    ensures h.reaped <= |h.elems|
    ensures r.put.ReapLoad? || r.put.SweepLoad? ==> h.reaped <= h.cursor <= |h.elems|
    ensures r.put.SweepLoad? && h.cursor == |h.elems| ==> r.put.pos == r.put.end
    ensures r.put.ReapLoad? && h.cursor == |h.elems| ==> r.put.pos == r.put.end
  {
  }

  /** Steps of gets and owners leave the put alone. */
  lemma OthersLeavePut(r: Ring, h: Hist, a: Action)
    requires Inv(r, h) && CanAct(r, h, a) && !a.BeginPut? && !a.StepPut?
    ensures r.size > 0 && r.align > 0 && Shape(h) && PutRank(Act(r, h, a), HistAct(r, h, a)) == PutRank(r, h)
  {
    hide Store, HeaderAt, Content, Statuses, GetOk, PutOk;
  }

  /** How many steps of puts there are in a run. */
  function PutSteps(actions: seq<Action>): nat {
    if actions == [] then 0 else (if actions[0].StepPut? then 1 else 0) + PutSteps(actions[1..])
  }

  predicate NoneBegins(actions: seq<Action>) {
    forall a {:trigger a in actions} :: a in actions ==> !a.BeginPut?
  }

  lemma {:induction false} RunRank(r: Ring, h: Hist, actions: seq<Action>, r': Ring, h': Hist)
    requires Inv(r, h) && Runs(r, h, actions, r', h') && NoneBegins(actions)
    ensures PutSteps(actions) + PutRank(r', h') <= PutRank(r, h) && 0 <= PutRank(r', h')
    decreases |actions|
  {
    hide Inv, Act, HistAct, PutRank;
    RankIsNat(r, h);
    if actions != [] {
      var a, rest := actions[0], actions[1..];
      assert a in actions && forall b :: b in rest ==> b in actions;
      StepInv(r, h, a, Act(r, h, a), HistAct(r, h, a));
      if a.StepPut? { PutStepRank(r, h); } else { OthersLeavePut(r, h, a); }
      RunRank(Act(r, h, a), HistAct(r, h, a), rest, r', h');
    }
  }

  lemma RankIsNat(r: Ring, h: Hist)
    requires Inv(r, h)
    ensures 0 <= PutRank(r, h)
  {
    PutSizes(r, h);
  }

  lemma PutStepRank(r: Ring, h: Hist)
    requires Inv(r, h) && CanAct(r, h, StepPut)
    ensures r.size > 0 && r.align > 0 && Shape(h)
    ensures PutRank(Act(r, h, StepPut), HistAct(r, h, StepPut)) < PutRank(r, h)
  {
    Sizes(r, h);
    PutAdvances(r, h);
  }

  /** A put ends after at most as many of its own steps as there are elements that are not reclaimed, and eight more,
      however gets and owners interleave with it. */
  lemma PutEnds(r: Ring, h: Hist, usize: nat, actions: seq<Action>, r': Ring, h': Hist)
    requires Inv(r, h) && r.put == PutIdle && r.size > 0 && r.align > 0 && Shape(h)
    requires Runs(PutBegin(r, usize), HistPutBegin(h), actions, r', h') && NoneBegins(actions)
    ensures PutSteps(actions) <= 8 + |h.elems| - h.reaped
  {
    StepInv(r, h, BeginPut(usize), PutBegin(r, usize), HistPutBegin(h));
    RunRank(PutBegin(r, usize), HistPutBegin(h), actions, r', h');
    hide Inv, Runs;
  }

  /** A get ends after at most two steps behind its first. */
  lemma GetAdvances(r: Ring)
    requires r.size > 0 && r.get != GetIdle
    ensures GetRank(GetNext(r)) < GetRank(r) && GetRank(GetBegin(r)) <= 2
  {
  }

  /** A put reclaims nothing if there is room for its request already ... */
  lemma ReapsIfNeeded(r: Ring, h: Hist, usize: nat)
    requires Inv(r, h) && r.put == PutIdle && usize + HEADER_SIZE <= r.size
    ensures r.size > 0 && r.align > 0 && Shape(h)
    ensures
      var asize, put := AlignUp(usize + HEADER_SIZE, r.align), PutBegin(r, usize).put;
      HasRoom(r, h, asize) <==> put == WriteHeader(usize, asize)
  {
    RingFifo.PutRejectedExactly(r, h, usize);
    FreeSpaceExact(r, h);
    hide Chain, Content, Statuses, FreeSpace, AlignUp;
  }

  /** ... and looks at elements that no get has passed only if there is still no room without them. */
  lemma SweepsIfNeeded(r: Ring, h: Hist)
    requires Inv(r, h) && r.put.ReapLoad? && (PutNext(r).put.SweepStart? || PutNext(r).put.WriteHeader?)
    ensures Shape(HistPutNext(r, h)) && (HasRoom(PutNext(r), HistPutNext(r, h), r.put.asize) <==> PutNext(r).put.WriteHeader?)
  {
    StepInv(r, h, StepPut, PutNext(r), HistPutNext(r, h));
    FreeSpaceExact(PutNext(r), HistPutNext(r, h));
    hide Chain, Content, Statuses, FreeSpace, HeaderAt;
  }
}
