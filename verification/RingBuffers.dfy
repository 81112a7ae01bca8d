/** The ring buffer in the form of the code: puts and gets that run to completion on one object, proved against the
    step system. */
module RingBuffers {
  import opened Modular
  import opened RingLayout
  import opened RingMachine
  import opened RingInvariant
  import opened RingSteps
  import opened RingRuns
  import opened RingFifo

  /** The first element from `i` on, up to `limit`, that is not done. */
  ghost function StopAt(elems: seq<Elem>, i: nat, limit: nat): (k: nat)
    requires i <= limit <= |elems|
    ensures i <= k <= limit
    ensures forall j {:trigger elems[j]} :: i <= j < k ==> elems[j].status == DONE
    ensures k < limit ==> elems[k].status != DONE
    decreases limit - i
  {
    if i < limit && elems[i].status == DONE then StopAt(elems, i + 1, limit) else i
  }

  lemma {:induction false} StopAtFurther(elems: seq<Elem>, i: nat, limit: nat, limit': nat)
    requires i <= limit <= limit' <= |elems|
    ensures StopAt(elems, StopAt(elems, i, limit), limit') == StopAt(elems, i, limit')
    decreases limit - i
  {
    if i < limit && elems[i].status == DONE {
      StopAtFurther(elems, i + 1, limit, limit');
    }
  }

  /** The oldest element that cannot be reclaimed. */
  ghost function FirstLive(h: Hist): nat
    requires Shape(h)
  {
    StopAt(h.elems, h.reaped, |h.elems|)
  }

  /** Bytes taken by the elements that cannot be reclaimed, and anything between them. */
  ghost function LiveSpan(h: Hist): int
    requires Shape(h)
  {
    h.starts[|h.elems|] as int - h.starts[FirstLive(h)]
  }

  // ---- The reapers' rounds, on values.

  lemma ReapRound(r: Ring, h: Hist, elm: Header)
    requires Inv(r, h) && r.put.ReapLoad? && elm == HeaderAt(r.mem, r.put.pos)
    requires r.put.pos != r.put.end && HasFlag(elm.status, DONE)
    ensures r.size > 0 && Inv(ReapNext(r, elm), HistReap(h, true))
    ensures h.cursor < h.limit <= |h.elems| && h.elems[h.cursor].status == DONE
  {
    LoadedHeader(r, h, h.cursor);
    ReapMoreInv(r, h, elm);
  }

  lemma ReapEnd(r: Ring, h: Hist, elm: Header, tail2: nat)
    requires Inv(r, h) && r.put.ReapLoad? && elm == HeaderAt(r.mem, r.put.pos)
    requires r.put.pos == r.put.end || !HasFlag(elm.status, DONE)
    requires tail2 == if r.put.changed then r.put.pos else r.tail2
    ensures Inv(r.(tail2 := tail2, put := PutIdle), HistReap(h, false)) && h.cursor <= h.limit <= |h.elems|
    ensures h.cursor == StopAt(h.elems, h.cursor, h.limit)
  {
    LoadedHeader(r, h, h.cursor);
    ReapEndInv(r, h, elm);
    assert r.put.pos == r.put.end ==> h.cursor == h.limit by {
      if r.put.pos == r.put.end { OffsetsApart(r, h, h.cursor, h.limit); }
    }
    var r' := ReapNext(r, elm);
    LocalStep(r', HistReap(h, false), PutIdle, r.putResult, h.cursor, h.limit);
  }

  lemma SweepRound(r: Ring, h: Hist, elm: Header)
    requires Inv(r, h) && r.put.SweepLoad? && elm == HeaderAt(r.mem, r.put.pos)
    requires r.put.pos != r.put.end && HasFlag(elm.status, DONE)
    ensures r.size > 0 && Inv(SweepNext(r, elm), HistReap(h, true))
    ensures h.cursor < |h.elems| && h.elems[h.cursor].status == DONE
  {
    LoadedHeader(r, h, h.cursor);
    SweepMoreInv(r, h, elm);
    SweepAt(r, h);
  }

  lemma SweepFlags(r: Ring, h: Hist, elm: Header)
    requires Inv(r, h) && r.put.SweepLoad? && elm == HeaderAt(r.mem, r.put.pos)
    requires r.put.pos == r.put.end || !HasFlag(elm.status, DONE)
    ensures h.reaped <= h.cursor <= |h.elems| && h.cursor == StopAt(h.elems, h.cursor, |h.elems|)
    ensures !h.doneOnly ==> h.cursor <= h.got
    ensures r.put.moved <==> h.reaped < h.cursor
    ensures r.put.passed <==> h.limit < h.cursor
    ensures h.doneOnly ==> h.got == h.reaped
    ensures r.put.pos == r.put.snap <==> h.cursor == h.limit
    ensures r.put.pos == r.put.end <==> h.cursor == |h.elems|
  {
    LoadedHeader(r, h, h.cursor);
    SweepAt(r, h);
    if h.got < |h.elems| {
      assert !h.doneOnly ==> h.elems[h.got].status != DONE;
    }
  }

  /** The end of a sweep, without the compare-and-swap of tail or with it. */
  lemma SweepEnds(r: Ring, h: Hist, elm: Header, r1: Ring)
    requires Inv(r, h) && r.put.SweepLoad? && elm == HeaderAt(r.mem, r.put.pos) && r.tail == r.put.snap
    requires r.put.pos == r.put.end || !HasFlag(elm.status, DONE)
    requires r1 == SweepNext(r, elm)
    ensures r1.put.Recheck? ==> Inv(r1.(put := PutIdle), HistReap(h, false))
    ensures r1.put.CheckTail? ==> Inv(r1.(tail := r.put.pos, put := PutIdle), HistReap(h, false).(got := h.cursor))
  {
    hide Inv, HeaderAt, HasFlag;
    var SweepLoad(usize, asize, snap, end, pos, moved, passed) := r.put;
    var h1 := HistReap(h, false);
    SweepEndInv(r, h, elm);
    if r1.put.Recheck? {
      Settle(r1, h1);
    } else {
      var r2 := CheckedTail(r1, usize, asize, snap, pos);
      CheckTailInv(r1, h1, usize, asize, snap, pos);
      CasTailInv(r2, h1, usize, asize, snap, pos);
      Settle(CasedTail(r2, usize, asize, snap, pos), h1.(got := h1.reaped));
    }
  }

  lemma Settle(r: Ring, h: Hist)
    requires Inv(r, h) && r.put.Recheck?
    ensures Inv(r.(put := PutIdle), h)
  {
    LocalStep(r, h, PutIdle, r.putResult, h.cursor, h.limit);
  }

  lemma PutReady(r: Ring, h: Hist, usize: nat, asize: nat)
    requires Inv(r, h) && r.put == PutIdle && Request(r, usize, asize) && HasRoom(r, h, asize)
    ensures r.size > 0 && Shape(h) && Inv(r.(put := WriteHeader(usize, asize)), h)
  {
    LocalStep(r, h, WriteHeader(usize, asize), r.putResult, h.cursor, h.limit);
  }

  lemma ForgetResult(r: Ring, h: Hist)
    requires Inv(r, h) && r.put == PutIdle
    ensures Inv(r.(putResult := PutNone), h)
  {
    LocalStep(r, h, PutIdle, PutNone, h.cursor, h.limit);
  }

  lemma GetReady(r: Ring, h: Hist, elm: Header)
    requires Inv(r, h) && r.get == GetIdle && !h.doneOnly && h.got < |h.elems| && h.elems[h.got].status == READY
    requires elm == HeaderAt(r.mem, r.tail)
    ensures r.size > 0 && Inv(r.(get := GetPublish(elm)), h)
  {
    hide Wrap, At, HeaderAt, DataAt, Store;
    LoadHeader(r, h, h.got);
    PutDoesNotMindGets(r, h, r.(get := GetPublish(elm)), h);
  }

  lemma ForgetGot(r: Ring, h: Hist)
    requires Inv(r, h) && r.put == PutIdle
    ensures Inv(r.(getResult := GetNone), h)
  {
  }

  lemma OffsetIs(j: nat, p: int, k: nat, n: nat)
    requires j < n && k < n
    ensures Wrap(j - p, n) == k <==> j == Wrap(p + k, n)
  {
    WrapAdd(j - p, p, n);
    WrapAdd(p + k, -p, n);
  }

  class RingBuffer {
    const buff: array<byte>
    const size: nat
    const align: nat
    var head: nat
    var tail: nat
    var tail2: nat
    ghost var hist: Hist

    ghost function View(p: PutPc): Ring
      reads this, buff
      requires buff.Length > 0
    {
      Ring(size, align, buff[..], head, tail, tail2, p, GetIdle, PutNone, GetNone)
    }

    /** The object, with a put that has got as far as `p`. */
    ghost predicate At(p: PutPc)
      reads this, buff
    {
      buff.Length > 0 && Inv(View(p), hist)
    }

    ghost predicate Valid()
      reads this, buff
    {
      At(PutIdle)
    }

    lemma ReapStep(usize: nat, asize: nat, end: nat, pos: nat, changed: bool, elm: Header)
      requires At(ReapLoad(usize, asize, end, pos, changed)) && elm == HeaderAt(buff[..], pos)
      requires pos != end && HasFlag(elm.status, DONE)
      ensures size > 0
      ensures Inv(View(ReapLoad(usize, asize, end, Wrap(pos + elm.asize, size), true)), HistReap(hist, true))
      ensures hist.cursor < hist.limit <= |hist.elems| && hist.elems[hist.cursor].status == DONE
      ensures StopAt(hist.elems, hist.cursor, hist.limit) == StopAt(hist.elems, hist.cursor + 1, hist.limit)
    {
      hide Inv, HeaderAt, Wrap, HasFlag;
      ReapRound(View(ReapLoad(usize, asize, end, pos, changed)), hist, elm);
    }

    lemma ReapStop(usize: nat, asize: nat, end: nat, pos: nat, changed: bool, elm: Header)
      requires At(ReapLoad(usize, asize, end, pos, changed)) && elm == HeaderAt(buff[..], pos)
      requires pos == end || !HasFlag(elm.status, DONE)
      ensures Inv(View(PutIdle).(tail2 := if changed then pos else tail2), HistReap(hist, false))
      ensures hist.cursor <= hist.limit <= |hist.elems| && hist.cursor == StopAt(hist.elems, hist.cursor, hist.limit)
    {
      ReapEnd(View(ReapLoad(usize, asize, end, pos, changed)), hist, elm, if changed then pos else tail2);
    }

    lemma ReapStart(usize: nat, asize: nat)
      requires Valid() && Request(View(PutIdle), usize, asize)
      ensures Inv(View(ReapLoad(usize, asize, tail, tail2, false)), HistPutBegin(hist))
      ensures hist.reaped <= hist.got <= |hist.elems|
    {
      LocalStep(View(PutIdle), hist, ReapLoad(usize, asize, tail, tail2, false), PutNone, hist.reaped, hist.got);
    }

    /** ring_buffer_create, up to where the memory comes from: the data of the first element lies in the first page
        at an aligned address, in a color. */
    constructor (size: nat, align: nat, color: nat, ghost doneOnly: bool)
      requires HEADER_SIZE <= align <= PAGE_SIZE && size % align == 0 && PAGE_SIZE <= size < U32
      requires HEADER_SIZE <= color * align <= PAGE_SIZE
      ensures Valid() && fresh(buff)
      ensures hist == Hist(doneOnly, [], [head], 0, 0, 0, 0) && head == color * align - HEADER_SIZE
      ensures this.size == size && this.align == align
    {
      var start := color * align - HEADER_SIZE;
      buff := new byte[size](_ => 0);
      this.size, this.align := size, align;
      head, tail, tail2 := start, start, start;
      hist := Hist(doneOnly, [], [start], 0, 0, 0, 0);
      new;
      ModUnique(color * align, align, color, 0);
      CreatedInv(View(PutIdle), hist);
    }

    /** reap_ring_buffer_elms. */
    method ReapElms(ghost usize: nat, ghost asize: nat)
      requires Valid() && Request(View(PutIdle), usize, asize)
      modifies this`tail2, this`hist
      ensures Valid()
      ensures old(hist).reaped <= old(hist).got <= |old(hist).elems|
      ensures hist == old(hist).(reaped := StopAt(old(hist).elems, old(hist).reaped, old(hist).got),
                                 cursor := hist.cursor, limit := hist.limit)
    {
      hide Inv, HeaderAt, Wrap, HasFlag, StopAt;
      var rbTail: nat, rbTail2: nat, changed := tail, tail2, false;
      var elm := HeaderAt(buff[..], rbTail2);
      ReapStart(usize, asize);
      hist := HistPutBegin(hist);
      while rbTail2 != rbTail
        invariant elm == HeaderAt(buff[..], rbTail2)
        invariant Inv(View(ReapLoad(usize, asize, rbTail, rbTail2, changed)), hist)
        invariant hist == old(hist).(cursor := hist.cursor, limit := old(hist).got)
        invariant hist.cursor <= hist.limit <= |hist.elems|
        invariant StopAt(hist.elems, hist.cursor, hist.limit) == StopAt(old(hist).elems, old(hist).reaped, old(hist).got)
        decreases hist.limit - hist.cursor
      {
        if !HasFlag(elm.status, DONE) {
          break;
        }
        ReapStep(usize, asize, rbTail, rbTail2, changed, elm);
        hist := HistReap(hist, true);
        rbTail2 := Wrap(rbTail2 + elm.asize, size);
        elm := HeaderAt(buff[..], rbTail2);
        changed := true;
      }
      ReapStop(usize, asize, rbTail, rbTail2, changed, elm);
      hist := HistReap(hist, false);
      if changed {
        tail2 := rbTail2;
      }
    }

    lemma SweepStart(usize: nat, asize: nat)
      requires Valid() && Request(View(PutIdle), usize, asize)
      ensures Inv(View(SweepLoad(usize, asize, tail, head, tail2, false, false)), HistPutBegin(hist))
      ensures hist.reaped <= |hist.elems|
    {
      LocalStep(View(PutIdle), hist, SweepLoad(usize, asize, tail, head, tail2, false, false), PutNone, hist.reaped, hist.got);
    }

    lemma SweepStep(usize: nat, asize: nat, snap: nat, end: nat, pos: nat, moved: bool, passed: bool, elm: Header)
      requires At(SweepLoad(usize, asize, snap, end, pos, moved, passed)) && elm == HeaderAt(buff[..], pos)
      requires pos != end && HasFlag(elm.status, DONE)
      ensures size > 0
      ensures Inv(View(SweepLoad(usize, asize, snap, end, Wrap(pos + elm.asize, size), true, passed || snap == pos)), HistReap(hist, true))
      ensures hist.cursor < |hist.elems|
      ensures StopAt(hist.elems, hist.cursor, |hist.elems|) == StopAt(hist.elems, hist.cursor + 1, |hist.elems|)
    {
      hide Inv, HeaderAt, Wrap, HasFlag;
      SweepRound(View(SweepLoad(usize, asize, snap, end, pos, moved, passed)), hist, elm);
    }

    /** The fields and the history after a sweep that stopped at `pos`. */
    lemma SweepStop(usize: nat, asize: nat, snap: nat, end: nat, pos: nat, moved: bool, passed: bool, elm: Header)
      requires At(SweepLoad(usize, asize, snap, end, pos, moved, passed)) && elm == HeaderAt(buff[..], pos)
      requires pos == end || !HasFlag(elm.status, DONE)
      requires tail == snap && hist.limit == hist.got
      ensures var moved', passed' := moved || pos != end, passed || (pos != end && snap == pos);
              Inv(View(PutIdle).(tail2 := if moved' then pos else tail2, tail := if moved' && passed' then pos else tail),
                  HistReap(hist, false).(got := if hist.doneOnly then hist.cursor else hist.got))
      ensures hist.cursor <= |hist.elems| && hist.cursor == StopAt(hist.elems, hist.cursor, |hist.elems|)
    {
      var r := View(SweepLoad(usize, asize, snap, end, pos, moved, passed));
      SweepFlags(r, hist, elm);
      SweepEnds(r, hist, elm, SweepNext(r, elm));
    }

    /** reap_ring_buffer_elms_aggressively. */
    method ReapAggressively(ghost usize: nat, ghost asize: nat)
      requires Valid() && Request(View(PutIdle), usize, asize)
      modifies this`tail, this`tail2, this`hist
      ensures Valid()
      ensures old(hist).reaped <= |old(hist).elems|
      ensures var k := StopAt(old(hist).elems, old(hist).reaped, |old(hist).elems|);
              hist == old(hist).(reaped := k, got := if old(hist).doneOnly then k else old(hist).got,
                                 cursor := hist.cursor, limit := hist.limit)
    {
      hide Inv, HeaderAt, Wrap, HasFlag, StopAt;
      var rbTail: nat, rbTail2: nat, rbHead: nat := tail, tail2, head;
      var changedTail, changedTail2 := false, false;
      var elm := HeaderAt(buff[..], rbTail2);
      SweepStart(usize, asize);
      hist := HistPutBegin(hist);
      ghost var moved, passed := false, false;
      while rbTail2 != rbHead
        invariant elm == HeaderAt(buff[..], rbTail2)
        invariant tail == rbTail && tail2 == old(tail2)
        invariant moved == changedTail2 && passed == changedTail
        invariant Inv(View(SweepLoad(usize, asize, rbTail, rbHead, rbTail2, moved, passed)), hist)
        invariant hist == old(hist).(cursor := hist.cursor, limit := old(hist).got)
        invariant hist.cursor <= |hist.elems|
        invariant StopAt(hist.elems, hist.cursor, |hist.elems|) == StopAt(old(hist).elems, old(hist).reaped, |old(hist).elems|)
        decreases |hist.elems| - hist.cursor
      {
        changedTail2 := true;
        if rbTail == rbTail2 {
          changedTail := true;
        }
        if !HasFlag(elm.status, DONE) {
          break;
        }
        SweepStep(usize, asize, rbTail, rbHead, rbTail2, moved, passed, elm);
        moved, passed := changedTail2, changedTail;
        hist := HistReap(hist, true);
        rbTail2 := Wrap(rbTail2 + elm.asize, size);
        elm := HeaderAt(buff[..], rbTail2);
      }
      SweepStop(usize, asize, rbTail, rbHead, rbTail2, moved, passed, elm);
      hist := HistReap(hist, false).(got := if hist.doneOnly then hist.cursor else hist.got);
      if changedTail2 {
        tail2 := rbTail2;
        if changedTail && tail == rbTail {
          tail := rbTail2;
        }
      }
    }

    lemma FreeSpaceOf()
      requires Valid()
      ensures size > 0 && Shape(hist) && FreeBetween(head, tail2, size) as int == size - HEADER_SIZE - 1 - Used(hist)
    {
      FreeSpaceExact(View(PutIdle), hist);
    }

    lemma ValidShape()
      requires Valid()
      ensures Shape(hist) && (hist.doneOnly ==> hist.got == hist.reaped) && hist.reaped <= hist.got
    {
    }

    /** _secure_free_space: tells the free space, having reclaimed everything that can be if less than `n` is free. */
    method SecureFreeSpace(ghost usize: nat, n: nat) returns (free: nat)
      requires Valid() && Request(View(PutIdle), usize, n)
      modifies this`tail, this`tail2, this`hist
      ensures Valid() && Shape(hist) && Shape(old(hist))
      ensures hist == old(hist).(reaped := hist.reaped, got := if old(hist).doneOnly then hist.reaped else old(hist).got,
                                 cursor := hist.cursor, limit := hist.limit)
      ensures old(hist).reaped <= hist.reaped <= FirstLive(old(hist))
      ensures free as int == size - HEADER_SIZE - 1 - Used(hist)
      ensures free < n ==> hist.reaped == FirstLive(old(hist))
      ensures Used(old(hist)) + n + HEADER_SIZE + 1 <= size ==> hist == old(hist)
      ensures old(hist).reaped <= old(hist).got <= |old(hist).elems|
      ensures var k := StopAt(old(hist).elems, old(hist).reaped, old(hist).got);
              old(hist).starts[|old(hist).elems|] - old(hist).starts[k] + n + HEADER_SIZE + 1 <= size ==> hist.reaped <= k
    {
      hide Valid, Inv, FreeBetween, StopAt;
      ValidShape();
      FreeSpaceOf();
      free := FreeBetween(head, tail2, size);
      if free < n {
        StopAtFurther(hist.elems, hist.reaped, hist.got, |hist.elems|);
        ReapElms(usize, n);
        ValidShape();
        FreeSpaceOf();
        free := FreeBetween(head, tail2, size);
        if free < n {
          ReapAggressively(usize, n);
          ValidShape();
          FreeSpaceOf();
          free := FreeBetween(head, tail2, size);
        }
      }
    }

    method WriteBytes(p: nat, bs: seq<byte>)
      requires 0 < buff.Length && |bs| <= buff.Length
      modifies buff
      ensures buff[..] == Store(old(buff[..]), p, bs)
    {
      var n := buff.Length;
      ghost var m := buff[..];
      for k := 0 to |bs|
        invariant forall j {:trigger buff[j]} :: 0 <= j < n ==> buff[j] == StoredByte(m, p, bs[..k], j)
      {
        buff[Wrap(p + k, n)] := bs[k];
        forall j | 0 <= j < n ensures buff[j] == StoredByte(m, p, bs[..k + 1], j) {
          OffsetIs(j, p, k, n);
        }
      }
      assert bs[..|bs|] == bs;
    }

    lemma HeaderPlaced(usize: nat, asize: nat)
      requires Valid() && Request(View(PutIdle), usize, asize) && HasRoom(View(PutIdle), hist, asize)
      ensures size > 0
      ensures Inv(View(PutIdle).(mem := Store(buff[..], head, HeaderBytes(NewHeader(usize, asize))), head := Wrap(head + asize, size)),
                  HistPublish(View(PutIdle).(mem := Store(buff[..], head, HeaderBytes(NewHeader(usize, asize)))), hist, usize, asize))
    {
      hide Inv, Store, Wrap, HeaderBytes, NewHeader;
      var r := View(PutIdle);
      PutReady(r, hist, usize, asize);
      WriteHeaderInv(r.(put := WriteHeader(usize, asize)), hist, usize, asize);
      PublishInv(HeaderWritten(r, usize, asize), hist, usize, asize);
      ForgetResult(HeadPublished(HeaderWritten(r, usize, asize), usize, asize),
                   HistPublish(HeaderWritten(r, usize, asize), hist, usize, asize));
    }

    /** __ring_buffer_put_align_size and __ring_buffer_put.  A put succeeds exactly when the request fits behind the
        oldest element that is not done: all before it is reclaimed if need be. */
    method Put(usize: nat) returns (res: PutResult)
      requires Valid()
      modifies this`head, this`tail, this`tail2, this`hist, buff
      ensures Valid() && Shape(hist) && Shape(old(hist)) && align > 0 && size > 0
      ensures var asize := AlignUp(usize + HEADER_SIZE, align);
              && (res == Invalid <==> asize > size)
              && (res.Placed? <==> asize + HEADER_SIZE + 1 + old(LiveSpan(hist)) <= size)
      ensures res.Placed? || res.Full? || res.Invalid?
      ensures res.Full? ==> res.monitor == old(Wrap(hist.starts[FirstLive(hist)], size)) && hist.reaped == FirstLive(old(hist))
      ensures !res.Placed? ==> hist.elems == old(hist.elems) && buff[..] == old(buff[..])
      ensures res.Placed? ==>
                && |hist.elems| == |old(hist).elems| + 1 && hist.elems[..|old(hist).elems|] == old(hist).elems
                && hist.elems[|old(hist).elems|].usize == usize && hist.elems[|old(hist).elems|].status == INIT
                && res.data == DataOf(View(PutIdle), hist, |old(hist).elems|)
      ensures old(hist).starts <= hist.starts && hist.doneOnly == old(hist).doneOnly
      ensures old(hist).reaped <= hist.reaped <= FirstLive(old(hist))
      ensures Used(old(hist)) + AlignUp(usize + HEADER_SIZE, align) + HEADER_SIZE + 1 <= size ==> hist.reaped == old(hist).reaped
      ensures hist.got == if old(hist).doneOnly then hist.reaped else old(hist).got
    {
      hide Inv, StopAt, LiveSpan, Chain, Store, Wrap, HeaderBytes;
      ValidRing();
      var asize := AlignUp(usize + HEADER_SIZE, align);
      RequestMade(usize);
      if size < asize {
        TooLarge(asize);
        return Invalid;
      }
      var free := SecureFreeSpace(usize, asize);
      ValidRing();
      RoomFor(old(hist), hist.reaped, asize, free);
      if free < asize {
        return Full(tail2);
      }
      var rbHead := Wrap(head + asize, size);
      HeaderPlaced(usize, asize);
      ghost var next := HistPublish(View(PutIdle).(mem := Store(buff[..], head, HeaderBytes(NewHeader(usize, asize)))), hist, usize, asize);
      WriteBytes(head, HeaderBytes(NewHeader(usize, asize)));
      res := Placed(head + HEADER_SIZE);
      hist := next;
      head := rbHead;
    }

    lemma ValidRing()
      requires Valid()
      ensures Shape(hist) && (hist.doneOnly ==> hist.got == hist.reaped) && hist.reaped <= hist.got
      ensures align >= HEADER_SIZE && size == buff.Length && head == Wrap(hist.starts[|hist.elems|], size)
      ensures size > HEADER_SIZE && tail2 == Wrap(hist.starts[hist.reaped], size)
    {
      Rising(View(PutIdle), hist, hist.reaped, |hist.elems|);
    }

    lemma RequestMade(usize: nat)
      requires Valid()
      ensures align > 0
      ensures var asize := AlignUp(usize + HEADER_SIZE, align); asize <= size ==> Request(View(PutIdle), usize, asize)
    {
      AlignedRequest(View(PutIdle), usize);
    }

    lemma TooLarge(asize: nat)
      requires Valid() && asize > size
      ensures Shape(hist) && asize + HEADER_SIZE + 1 + LiveSpan(hist) > size
    {
      Rising(View(PutIdle), hist, FirstLive(hist), |hist.elems|);
    }

    /** The exact condition, in a history `h` of which the code has reclaimed elements up to `k`. */
    lemma RoomFor(h: Hist, k: nat, asize: nat, free: nat)
      requires Valid() && Shape(h) && hist.elems == h.elems && hist.starts == h.starts && hist.reaped == k
      requires h.reaped <= k <= FirstLive(h) && (free < asize ==> k == FirstLive(h))
      requires free as int == size - HEADER_SIZE - 1 - Used(hist)
      ensures free >= asize <==> asize + HEADER_SIZE + 1 + LiveSpan(h) <= size
      ensures free >= asize <==> HasRoom(View(PutIdle), hist, asize)
    {
      Rising(View(PutIdle), hist, k, FirstLive(h));
    }

    /** __ring_buffer_get.  A get fails exactly when there is nothing left to get or the oldest of it is not ready. */
    method Get() returns (res: GetResult)
      requires Valid() && !hist.doneOnly
      modifies this`tail, this`hist
      ensures Valid() && Shape(hist) && size > 0
      ensures res.Empty? || res.NotReady? || res.Got?
      ensures Shape(old(hist)) && (res.Empty? <==> old(hist).got == |old(hist).elems|)
      ensures hist == if res.Got? then old(hist).(got := old(hist).got + 1) else old(hist)
      ensures res.NotReady? ==> old(hist).elems[old(hist).got].status == INIT && res.monitor == tail
      ensures res.Got? ==> old(hist).elems[old(hist).got].status == READY
                           && res == Got(DataOf(View(PutIdle), hist, old(hist).got), old(hist).elems[old(hist).got].usize)
    {
      hide Inv, Chain, HeaderAt, Wrap, HasFlag;
      GetShape();
      if head == tail {
        return Empty;
      }
      var elm := HeaderAt(buff[..], tail);
      if !HasFlag(elm.status, READY) {
        return NotReady(tail);
      }
      var rbTail := Wrap(tail + elm.asize, size);
      res := Got(tail + HEADER_SIZE, elm.asize - elm.padding);
      GotNext(elm);
      tail := rbTail;
      hist := hist.(got := hist.got + 1);
    }

    lemma GetShape()
      requires Valid() && !hist.doneOnly
      ensures Shape(hist) && size > 0 && tail == Wrap(hist.starts[hist.got], size)
      ensures head == tail <==> hist.got == |hist.elems|
      ensures hist.got < |hist.elems| ==>
                && (HasFlag(HeaderAt(buff[..], tail).status, READY) <==> hist.elems[hist.got].status == READY)
                && (hist.elems[hist.got].status == READY || hist.elems[hist.got].status == INIT)
                && HeaderAt(buff[..], tail).asize - HeaderAt(buff[..], tail).padding == hist.elems[hist.got].usize
    {
      var r := View(PutIdle);
      if head == tail { OffsetsApart(r, hist, hist.got, |hist.elems|); }
      if hist.got < |hist.elems| {
        LoadHeader(r, hist, hist.got);
        StatusFlags(hist.elems[hist.got].status);
      }
    }

    lemma GotNext(elm: Header)
      requires Valid() && !hist.doneOnly && head != tail && elm == HeaderAt(buff[..], tail) && HasFlag(elm.status, READY)
      ensures size > 0 && hist.got < |hist.elems|
      ensures Inv(View(PutIdle).(tail := Wrap(tail + elm.asize, size)), hist.(got := hist.got + 1))
    {
      hide Inv, Chain, HeaderAt, Wrap, HasFlag;
      GetShape();
      GetReady(View(PutIdle), hist, elm);
      var r := View(PutIdle).(get := GetPublish(elm));
      TailPublishedInv(r, hist, elm);
      ForgetGot(TailPublished(r, elm), hist.(got := hist.got + 1));
    }

    /** ring_buffer_elm_set_ready, by the owner of element `i`. */
    method SetReady(data: nat, ghost i: nat)
      requires Valid() && MaySetReady(hist, i) && size > 0 && i < |hist.starts| && data == DataOf(View(PutIdle), hist, i)
      modifies this`hist, buff
      ensures Valid() && hist == HistStatus(old(hist), i, READY)
    {
      hide Inv, Store, Wrap, StatusBytes;
      StatusPlaced(i, READY);
      ghost var next := HistStatus(hist, i, READY);
      WriteBytes(data - 2, StatusBytes(READY));
      hist := next;
    }

    /** ring_buffer_elm_set_done, by who got element `i`, or by whoever uses it in a done-only ring. */
    method SetDone(data: nat, ghost i: nat)
      requires Valid() && MaySetDone(hist, i) && size > 0 && i < |hist.starts| && data == DataOf(View(PutIdle), hist, i)
      modifies this`hist, buff
      ensures Valid() && hist == HistStatus(old(hist), i, DONE)
    {
      hide Inv, Store, Wrap, StatusBytes;
      StatusPlaced(i, DONE);
      ghost var next := HistStatus(hist, i, DONE);
      WriteBytes(data - 2, StatusBytes(DONE));
      hist := next;
    }

    lemma StatusPlaced(i: nat, status: nat)
      requires Valid()
      requires (status == READY && MaySetReady(hist, i)) || (status == DONE && MaySetDone(hist, i))
      ensures size == buff.Length && size >= HEADER_SIZE && i < |hist.starts|
      ensures Inv(View(PutIdle).(mem := Store(buff[..], DataOf(View(PutIdle), hist, i) - 2, StatusBytes(status))), HistStatus(hist, i, status))
    {
      hide Inv, Store, Wrap, Chain;
      ValidRing();
      var r := View(PutIdle);
      SetStatusInv(r, hist, i, status, SetStatus(r, DataOf(r, hist, i), status), HistStatus(hist, i, status));
    }

    /** copy_to_ring_buffer, into element `i` at `at` before it is set ready. */
    method CopyTo(dest: nat, bytes: seq<byte>, ghost i: nat, ghost at: nat)
      requires Valid() && MayCopy(hist, i, at, bytes) && size > |bytes| && i < |hist.starts|
      requires dest == DataOf(View(PutIdle), hist, i) + at
      modifies this`hist, buff
      ensures Valid() && hist == HistCopy(old(hist), i, at, bytes)
    {
      hide Inv, Store, Wrap;
      BytesPlaced(i, at, bytes);
      ghost var next := HistCopy(hist, i, at, bytes);
      WriteBytes(dest, bytes);
      hist := next;
    }

    lemma BytesPlaced(i: nat, at: nat, bytes: seq<byte>)
      requires Valid() && MayCopy(hist, i, at, bytes)
      ensures size == buff.Length && size > 0 && i < |hist.starts|
      ensures Inv(View(PutIdle).(mem := Store(buff[..], DataOf(View(PutIdle), hist, i) + at, bytes)), HistCopy(hist, i, at, bytes))
    {
      hide Inv, Store, Wrap, Chain;
      ValidRing();
      var r := View(PutIdle);
      CopyInv(r, hist, i, at, bytes, RingMachine.CopyTo(r, DataOf(r, hist, i) + at, bytes), HistCopy(hist, i, at, bytes));
    }

    /** copy_from_ring_buffer, from element `i` while it is not reclaimed: the bytes that were copied in. */
    method CopyFrom(src: nat, n: nat, ghost i: nat) returns (bytes: seq<byte>)
      requires Valid() && size > n && hist.reaped <= i < |hist.elems| == |hist.starts| - 1
      requires src == DataOf(View(PutIdle), hist, i) && n == hist.elems[i].usize
      ensures bytes == hist.elems[i].data
    {
      bytes := DataAt(buff[..], src, n);
      ElementData(View(PutIdle), hist, i);
    }
  }
}
