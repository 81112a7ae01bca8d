/** The ring is a first-in first-out queue: what puts and gets return over whole runs. */
module RingFifo {
  import opened Modular
  import opened RingLayout
  import opened RingMachine
  import opened RingInvariant
  import opened RingSteps
  import opened RingRuns

  /** The elements that were put and not got yet. */
  ghost function Queue(h: Hist): seq<Elem>
    requires Shape(h)
  {
    h.elems[h.got..]
  }

  predicate Publishes(r: Ring, a: Action) {
    a == StepPut && r.put.PublishHead?
  }

  predicate Hands(r: Ring, a: Action) {
    a == StepGet && r.get.GetPublish?
  }

  /** A put succeeds by appending its request to the queue, and returns the aligned address of the new element. */
  lemma PutAppends(r: Ring, h: Hist, a: Action, r': Ring, h': Hist)
    requires Inv(r, h) && Step(r, h, a, r', h') && Publishes(r, a)
    ensures |h'.elems| == |h.elems| + 1 && h'.elems[..|h.elems|] == h.elems
    ensures Queue(h') == Queue(h) + [h'.elems[|h.elems|]]
    ensures h'.elems[|h.elems|].usize == r.put.usize && h'.elems[|h.elems|].status == INIT
    ensures r'.putResult == Placed(DataOf(r', h', |h.elems|))
    ensures DataOf(r', h', |h.elems|) % r.align == 0
  {
    DataAligned(r, h, |h.elems|);
    InvKnows(r, h);
    PublishStep(r, h, a, r', h');
    hide Inv, Step, HeaderAt, DataAt, Wrap;
  }

  lemma PublishStep(r: Ring, h: Hist, a: Action, r': Ring, h': Hist)
    requires Step(r, h, a, r', h') && Publishes(r, a)
    ensures r.size > 0 && Shape(h)
    ensures r' == HeadPublished(r, r.put.usize, r.put.asize) && h' == HistPublish(r, h, r.put.usize, r.put.asize)
  {
    hide HeaderAt, DataAt, Wrap;
  }

  lemma HandStep(r: Ring, h: Hist, a: Action, r': Ring, h': Hist)
    requires Step(r, h, a, r', h') && Hands(r, a)
    ensures r.size > 0 && r' == TailPublished(r, r.get.header) && h' == h.(got := h.got + 1)
  {
    hide HeaderAt, DataAt, Wrap;
  }

  /** What the invariant says at the two steps that publish. */
  lemma InvKnows(r: Ring, h: Hist)
    requires Inv(r, h)
    ensures r.size > 0 && Shape(h) && r.head == Wrap(h.starts[|h.elems|], r.size) && r.tail == Wrap(h.starts[h.got], r.size)
    ensures r.get.GetPublish? ==>
              h.got < |h.elems| && h.elems[h.got].status == READY
              && r.get.header == Header(h.elems[h.got].asize, h.elems[h.got].asize - h.elems[h.got].usize, READY)
              && h.elems[h.got].usize <= h.elems[h.got].asize
  {
    hide Content, Statuses, PutOk, Wrap;
  }

  /** A put is rejected as invalid exactly if its data and the header cannot fit into the ring at all. */
  lemma PutRejectedExactly(r: Ring, h: Hist, usize: nat)
    requires Inv(r, h) && CanAct(r, h, BeginPut(usize))
    ensures r.size > 0 && r.align > 0 && (PutBegin(r, usize).putResult == Invalid <==> usize + HEADER_SIZE > r.size)
  {
    AlignedRequest(r, usize);
    var asize := AlignUp(usize + HEADER_SIZE, r.align);
    WrapIsMod(asize, r.align);
    WrapIsMod(r.size, r.align);
    hide Inv, Wrap;
    if usize + HEADER_SIZE <= r.size { MultipleBelow(asize, r.size, r.align); }
  }

  lemma DataAligned(r: Ring, h: Hist, i: nat)
    requires Chain(r, h) && i < |h.starts|
    ensures DataOf(r, h, i) % r.align == 0
  {
    WrapIsMod(r.size, r.align);
    WrapIsMod(h.starts[i] + HEADER_SIZE, r.align);
    WrapAligned(h.starts[i], r.size, r.align);
    ModAdd(Wrap(h.starts[i], r.size), h.starts[i], HEADER_SIZE, r.align);
  }

  /** A get succeeds by taking the oldest element off the queue, which is ready, and returns its address and the
      exact size that was put. */
  lemma GetTakesOldest(r: Ring, h: Hist, a: Action, r': Ring, h': Hist)
    requires Inv(r, h) && Step(r, h, a, r', h') && Hands(r, a)
    ensures Queue(h) != [] && Queue(h)[0].status == READY && Queue(h') == Queue(h)[1..] && h' == h.(got := h.got + 1)
    ensures r'.getResult == Got(DataOf(r, h, h.got), Queue(h)[0].usize)
  {
    InvKnows(r, h);
    HandStep(r, h, a, r', h');
    hide Inv, Step, HeaderAt, DataAt, Wrap;
  }

  /** A get that fails tells why: the queue is empty, or its oldest element is still being filled in. */
  lemma GetFailsExactly(r: Ring, h: Hist, a: Action, r': Ring, h': Hist)
    requires Inv(r, h) && Step(r, h, a, r', h') && (a == BeginGet || (a == StepGet && r.get == GetLoad))
    ensures h' == h
    ensures a == BeginGet ==> (r'.getResult == Empty <==> Queue(h) == [])
    ensures a == StepGet ==> Queue(h) != []
    ensures a == StepGet ==> (r'.getResult == NotReady(Wrap(h.starts[h.got], r.size)) && r'.get == GetIdle
                              <==> Queue(h)[0].status == INIT)
    ensures a == StepGet ==> (r'.get.GetPublish? <==> Queue(h)[0].status == READY)
  {
    if a == BeginGet {
      GetBeginInv(r, h);
    } else {
      GetLoadInv(r, h);
    }
  }

  // ---- Whole runs.

  /** Later histories extend earlier ones, what is ready keeps its data, and what is done stays done. */
  ghost predicate Extends(h: Hist, h': Hist) {
    && Shape(h) && Shape(h') && h'.doneOnly == h.doneOnly
    && |h.elems| <= |h'.elems| && h.reaped <= h'.reaped && h.got <= h'.got
    && (forall i {:trigger h'.starts[i]} :: 0 <= i < |h.starts| ==> h'.starts[i] == h.starts[i])
    && (forall i {:trigger h'.elems[i]} :: 0 <= i < |h.elems| ==> Matures(h.elems[i], h'.elems[i]))
  }

  predicate Matures(e: Elem, e': Elem) {
    && e'.usize == e.usize && e'.asize == e.asize
    && (e.status != INIT ==> e'.status != INIT && e'.data == e.data) && (e.status == DONE ==> e'.status == DONE)
  }

  lemma MovedOn(h: Hist, h': Hist)
    requires Shape(h) && h.reaped <= h'.reaped <= |h.elems| && h.got <= h'.got <= |h.elems|
    requires h' == h.(reaped := h'.reaped, got := h'.got, cursor := h'.cursor, limit := h'.limit)
    ensures Extends(h, h')
  {
  }

  lemma ElementMoved(h: Hist, i: nat, e: Elem)
    requires Shape(h) && i < |h.elems| && Matures(h.elems[i], e)
    ensures Extends(h, h.(elems := h.elems[i := e]))
  {
  }

  lemma PutMoves(r: Ring, h: Hist)
    requires Chain(r, h) && PutOk(r, h) && !r.put.PublishHead?
    ensures var h' := HistPutNext(r, h);
            h.reaped <= h'.reaped <= |h.elems| && h.got <= h'.got <= |h.elems|
            && h' == h.(reaped := h'.reaped, got := h'.got, cursor := h'.cursor, limit := h'.limit)
  {
    if r.put.CasTail? && r.tail == r.put.snap {
      TailUnmoved(r, h, r.put.snap, r.put.pos);
    }
  }

  lemma StepExtends(r: Ring, h: Hist, a: Action)
    requires Inv(r, h) && CanAct(r, h, a)
    ensures Extends(h, HistAct(r, h, a))
  {
    hide Wrap, At, HeaderAt, DataAt, Store;
    match a
    case StepPut =>
      if !r.put.PublishHead? {
        PutMoves(r, h);
        MovedOn(h, HistPutNext(r, h));
      }
    case SetReady(i) => ElementMoved(h, i, h.elems[i].(status := READY));
    case SetDone(i) => ElementMoved(h, i, h.elems[i].(status := DONE));
    case Copy(i, at, bytes) => ElementMoved(h, i, h.elems[i].(data := Overwrite(h.elems[i].data, at, bytes)));
    case _ => MovedOn(h, HistAct(r, h, a));
  }

  lemma StepSize(r: Ring, h: Hist, a: Action)
    requires r.size > 0 && r.align > 0 && Shape(h) && CanAct(r, h, a)
    ensures Act(r, h, a).size == r.size
  {
  }

  lemma ExtendsFurther(h: Hist, h1: Hist, h2: Hist)
    requires Extends(h, h1) && Extends(h1, h2)
    ensures Extends(h, h2)
  {
    forall i | 0 <= i < |h.elems| ensures Matures(h.elems[i], h2.elems[i]) {
      assert Matures(h.elems[i], h1.elems[i]) && Matures(h1.elems[i], h2.elems[i]);
    }
    forall i | 0 <= i < |h.starts| ensures h2.starts[i] == h.starts[i] {
      assert h1.starts[i] == h.starts[i];
    }
  }

  lemma {:induction false} RunExtends(r: Ring, h: Hist, steps: seq<Action>, r': Ring, h': Hist)
    requires Inv(r, h) && Runs(r, h, steps, r', h')
    ensures Extends(h, h') && r'.size == r.size && Inv(r', h')
    decreases |steps|
  {
    if steps != [] {
      var r1, h1 := Act(r, h, steps[0]), HistAct(r, h, steps[0]);
      StepInv(r, h, steps[0], r1, h1);
      StepExtends(r, h, steps[0]);
      StepSize(r, h, steps[0]);
      RunExtends(r1, h1, steps[1..], r', h');
      ExtendsFurther(h, h1, h');
    }
  }

  /** What successful puts and gets hold in hand: an element's address and user size. */
  datatype Slot = Slot(data: nat, usize: int)

  ghost predicate Going(r: Ring, h: Hist, steps: seq<Action>) {
    steps != [] && r.size > 0 && r.align > 0 && Shape(h) && CanAct(r, h, steps[0])
  }

  function PutBy(r: Ring, a: Action, r': Ring): seq<Slot> {
    if Publishes(r, a) && r'.putResult.Placed? then [Slot(r'.putResult.data, r.put.usize)] else []
  }

  function GotBy(r: Ring, a: Action, r': Ring): seq<Slot> {
    if Hands(r, a) && r'.getResult.Got? then [Slot(r'.getResult.data, r'.getResult.usize)] else []
  }

  /** What the puts of a run return, in order. */
  ghost function PutLog(r: Ring, h: Hist, steps: seq<Action>): seq<Slot>
    decreases |steps|
  {
    if !Going(r, h, steps) then []
    else
      var r' := Act(r, h, steps[0]);
      PutBy(r, steps[0], r') + PutLog(r', HistAct(r, h, steps[0]), steps[1..])
  }

  /** What the gets of a run return, in order. */
  ghost function GetLog(r: Ring, h: Hist, steps: seq<Action>): seq<Slot>
    decreases |steps|
  {
    if !Going(r, h, steps) then []
    else
      var r' := Act(r, h, steps[0]);
      GotBy(r, steps[0], r') + GetLog(r', HistAct(r, h, steps[0]), steps[1..])
  }

  ghost function SlotOf(size: nat, h: Hist, i: nat): Slot
    requires size > 0 && i < |h.elems| && i < |h.starts|
  {
    Slot(Wrap(h.starts[i], size) + HEADER_SIZE, h.elems[i].usize)
  }

  /** The slots of elements `i` up to `j`. */
  ghost function Slots(size: nat, h: Hist, i: nat, j: nat): (s: seq<Slot>)
    requires size > 0 && i <= j <= |h.elems| && Shape(h)
    ensures |s| == j - i
    decreases j - i
  {
    if i == j then [] else [SlotOf(size, h, i)] + Slots(size, h, i + 1, j)
  }

  lemma {:induction false} SlotsSplit(size: nat, h: Hist, i: nat, j: nat, k: nat)
    requires size > 0 && i <= j <= k <= |h.elems| && Shape(h)
    ensures Slots(size, h, i, k) == Slots(size, h, i, j) + Slots(size, h, j, k)
    decreases j - i
  {
    if i < j {
      SlotsSplit(size, h, i + 1, j, k);
      assert [SlotOf(size, h, i)] + (Slots(size, h, i + 1, j) + Slots(size, h, j, k))
          == ([SlotOf(size, h, i)] + Slots(size, h, i + 1, j)) + Slots(size, h, j, k);
    }
  }

  lemma PutOne(r: Ring, h: Hist, a: Action, h2: Hist)
    requires Inv(r, h) && CanAct(r, h, a) && Extends(HistAct(r, h, a), h2)
    ensures var h' := HistAct(r, h, a);
            |h.elems| <= |h'.elems| <= |h2.elems|
            && PutBy(r, a, Act(r, h, a)) == Slots(r.size, h2, |h.elems|, |h'.elems|)
  {
    hide Wrap, At, HeaderAt, DataAt, Store;
    if Publishes(r, a) {
      assert HistAct(r, h, a).starts[|h.elems|] == h.starts[|h.elems|] == h2.starts[|h.elems|];
      assert Matures(HistAct(r, h, a).elems[|h.elems|], h2.elems[|h.elems|]);
      assert Slots(r.size, h2, |h.elems|, |h.elems| + 1) == [SlotOf(r.size, h2, |h.elems|)];
    } else if a == StepPut {
      PutMoves(r, h);
    }
  }

  lemma HandedOne(r: Ring, h: Hist, h2: Hist)
    requires Chain(r, h) && GetOk(r, h) && r.get.GetPublish? && Extends(h.(got := h.got + 1), h2)
    ensures GotBy(r, StepGet, GetNext(r)) == Slots(r.size, h2, h.got, h.got + 1)
  {
    assert h2.starts[h.got] == h.starts[h.got];
    assert Matures(h.elems[h.got], h2.elems[h.got]);
    assert Slots(r.size, h2, h.got, h.got + 1) == [SlotOf(r.size, h2, h.got)];
    assert h.elems[h.got].usize <= h.elems[h.got].asize by { assert ElemOk(r, h.elems[h.got]); }
  }

  lemma GotOne(r: Ring, h: Hist, a: Action, h2: Hist)
    requires Inv(r, h) && CanAct(r, h, a) && Extends(HistAct(r, h, a), h2) && !h.doneOnly
    ensures var h' := HistAct(r, h, a);
            h.got <= h'.got <= |h2.elems|
            && GotBy(r, a, Act(r, h, a)) == Slots(r.size, h2, h.got, h'.got)
  {
    if Hands(r, a) {
      HandedOne(r, h, h2);
    } else if a == StepPut {
      PutLeavesGot(r, h);
    }
  }

  lemma PutLeavesGot(r: Ring, h: Hist)
    requires Inv(r, h) && !h.doneOnly
    ensures HistPutNext(r, h).got == h.got
  {
    if r.put.CasTail? && r.tail == r.put.snap {
      CasTailKept(r, h, r.put.snap, r.put.pos);
    }
  }

  /** The puts of a run return, in order, the slots of the elements it added, and the gets those of the elements
      handed out. */
  lemma {:induction false} LogsAreSlots(r: Ring, h: Hist, steps: seq<Action>, r': Ring, h': Hist)
    requires Inv(r, h) && Runs(r, h, steps, r', h')
    ensures Extends(h, h')
    ensures PutLog(r, h, steps) == Slots(r.size, h', |h.elems|, |h'.elems|)
    ensures !h.doneOnly ==> GetLog(r, h, steps) == Slots(r.size, h', h.got, h'.got)
    decreases |steps|
  {
    hide Inv, Act;
    RunExtends(r, h, steps, r', h');
    if steps != [] {
      var a := steps[0];
      var r1, h1 := Act(r, h, a), HistAct(r, h, a);
      StepInv(r, h, a, r1, h1);
      StepExtends(r, h, a);
      StepSize(r, h, a);
      LogsAreSlots(r1, h1, steps[1..], r', h');
      PutOne(r, h, a, h');
      SlotsSplit(r.size, h', |h.elems|, |h1.elems|, |h'.elems|);
      if !h.doneOnly {
        GotOne(r, h, a, h');
        SlotsSplit(r.size, h', h.got, h1.got, h'.got);
      }
    }
  }

  /** First in, first out: from creation on, whatever the interleaving, what gets return is what puts returned, in
      the same order and from the first on. */
  lemma FirstInFirstOut(r0: Ring, h0: Hist, steps: seq<Action>, r: Ring, h: Hist)
    requires Created(r0, h0) && !h0.doneOnly && Runs(r0, h0, steps, r, h)
    ensures GetLog(r0, h0, steps) <= PutLog(r0, h0, steps)
    ensures r0.size > 0 && Shape(h)
    ensures PutLog(r0, h0, steps) == GetLog(r0, h0, steps) + Slots(r0.size, h, h.got, |h.elems|)
  {
    CreatedInv(r0, h0);
    LogsAreSlots(r0, h0, steps, r, h);
    SlotsSplit(r0.size, h, 0, h.got, |h.elems|);
  }

  /** From set_ready to set_done, an element's user data stays byte for byte where put placed it. */
  lemma DataIntact(r: Ring, h: Hist, steps: seq<Action>, r': Ring, h': Hist, i: nat)
    requires Inv(r, h) && Runs(r, h, steps, r', h') && i < |h.elems| && h.elems[i].status != INIT
    requires i < |h'.elems| && h'.elems[i].status != DONE
    ensures Extends(h, h') && h.reaped <= i && r.size == r'.size == |r.mem| == |r'.mem| && r.size > 0
    ensures DataOf(r', h', i) == DataOf(r, h, i)
    ensures DataAt(r'.mem, DataOf(r, h, i), h.elems[i].usize) == DataAt(r.mem, DataOf(r, h, i), h.elems[i].usize)
  {
    RunExtends(r, h, steps, r', h');
    NotReclaimed(h', i);
    assert Matures(h.elems[i], h'.elems[i]);
    assert h'.starts[i] == h.starts[i];
    ElementData(r, h, i);
    ElementData(r', h', i);
  }

  /** What an owner reads at an element's address. */
  lemma ElementData(r: Ring, h: Hist, i: nat)
    requires Chain(r, h) && Content(r, h) && h.reaped <= i < |h.elems|
    ensures DataAt(r.mem, DataOf(r, h, i), h.elems[i].usize) == h.elems[i].data
  {
    hide Wrap, HeaderAt;
    var p, e := h.starts[i], h.elems[i];
    assert Stored(r.mem, p, e);
    forall k | 0 <= k < e.usize
      ensures DataAt(r.mem, DataOf(r, h, i), e.usize)[k] == DataAt(r.mem, p + HEADER_SIZE, e.usize)[k]
    {
      AtOffset(r.mem, p, HEADER_SIZE + k);
    }
  }
}
