/** The ring's bytes and offsets represent a queue of elements: what every step of every side keeps. */
module RingInvariant {
  import opened Modular
  import opened RingLayout
  import opened RingMachine

  /** An element that was put: its user size, aligned size, status and current user data. */
  datatype Elem = Elem(usize: nat, asize: nat, status: nat, data: seq<byte>)

  /** The history of a ring.  `elems` are all elements ever put, in order, and `starts` the absolute positions of
      their headers and of the next one.  The first `reaped` have been reclaimed and the first `got` handed out.
      `cursor` and `limit` are the elements a running reaper stands at and took its snapshot of tail at.
      In a done-only ring nobody calls get and elements are consumed by setting them done. */
  datatype Hist = Hist(
    doneOnly: bool, elems: seq<Elem>, starts: seq<nat>, reaped: nat, got: nat, cursor: nat, limit: nat)

  predicate Geometry(r: Ring) {
    HEADER_SIZE <= r.align <= PAGE_SIZE && Wrap(r.size, r.align) == 0 && 0 < r.size < U32 && |r.mem| == r.size
  }

  predicate ElemOk(r: Ring, e: Elem)
    requires r.align > 0
  {
    && Wrap(e.asize, r.align) == 0 && e.usize + HEADER_SIZE <= e.asize < e.usize + HEADER_SIZE + r.align
    && e.asize <= r.size && (e.status == INIT || e.status == READY || e.status == DONE)
    && |e.data| == e.usize
  }

  ghost predicate Shape(h: Hist) {
    |h.starts| == |h.elems| + 1 && h.reaped <= |h.elems| && h.got <= |h.elems|
  }

  /** Headers are chained by their sizes, offsets are positions modulo the ring, and what is not reclaimed fits. */
  ghost predicate Chain(r: Ring, h: Hist) {
    && Geometry(r) && Shape(h)
    && (forall i {:trigger h.elems[i]} :: 0 <= i < |h.elems| ==>
          h.starts[i + 1] == h.starts[i] + h.elems[i].asize && ElemOk(r, h.elems[i]))
    && (forall i {:trigger h.starts[i]} :: 0 <= i < |h.starts| ==> Wrap(h.starts[i] + HEADER_SIZE, r.align) == 0)
    && h.starts[|h.elems|] - h.starts[h.reaped] + HEADER_SIZE + 1 <= r.size
    && r.head == Wrap(h.starts[|h.elems|], r.size)
    && r.tail == Wrap(h.starts[h.got], r.size)
    && r.tail2 == Wrap(h.starts[h.reaped], r.size)
  }

  /** Positions rise from element to element. */
  lemma {:induction false} Rising(r: Ring, h: Hist, i: nat, j: nat)
    requires Chain(r, h) && i <= j < |h.starts|
    ensures h.starts[i] <= h.starts[j]
    ensures i < j ==> h.starts[i] + HEADER_SIZE <= h.starts[i] + h.elems[i].asize <= h.starts[j]
    decreases j - i
  {
    if i < j {
      assert ElemOk(r, h.elems[i]);
      Rising(r, h, i + 1, j);
    }
  }

  /** Element `e`, put at position `p`, is in memory with its header and data. */
  ghost predicate Stored(m: Mem, p: nat, e: Elem) {
    e.usize <= e.asize && HeaderAt(m, p) == Header(e.asize, e.asize - e.usize, e.status) &&
    DataAt(m, p + HEADER_SIZE, e.usize) == e.data
  }

  /** Elements that are not reclaimed are in memory: nothing has overwritten them. */
  ghost predicate Content(r: Ring, h: Hist)
    requires Shape(h)
  {
    forall i {:trigger h.elems[i]} :: h.reaped <= i < |h.elems| ==> Stored(r.mem, h.starts[i], h.elems[i])
  }

  /** Only what was handed out (or any element of a done-only ring) is done, and only what is done is reclaimed. */
  ghost predicate Statuses(h: Hist)
    requires Shape(h)
  {
    && (forall i {:trigger h.elems[i]} :: 0 <= i < h.reaped ==> h.elems[i].status == DONE)
    && (!h.doneOnly ==> h.reaped <= h.got)
    && (!h.doneOnly ==> forall i {:trigger h.elems[i]} :: 0 <= i < |h.elems| ==>
          if i < h.got then h.elems[i].status != INIT else h.elems[i].status != DONE)
    && (h.doneOnly ==> h.got <= h.reaped)
  }

  predicate Request(r: Ring, usize: nat, asize: nat)
    requires r.align > 0
  {
    Wrap(asize, r.align) == 0 && usize + HEADER_SIZE <= asize < usize + HEADER_SIZE + r.align && asize <= r.size
  }

  ghost predicate DoneFrom(h: Hist, lo: nat, hi: nat)
    requires hi <= |h.elems|
  {
    forall i {:trigger h.elems[i]} :: lo <= i < hi ==> h.elems[i].status == DONE
  }

  ghost predicate HasRoom(r: Ring, h: Hist, asize: nat)
    requires Shape(h)
  {
    h.starts[|h.elems|] - h.starts[h.reaped] + asize + HEADER_SIZE + 1 <= r.size
  }

  /** The put side's local variables. */
  ghost predicate PutOk(r: Ring, h: Hist)
    requires Chain(r, h)
  {
    match r.put
    case PutIdle => h.doneOnly ==> h.got == h.reaped
    case ReapLoad(usize, asize, end, pos, changed) =>
      && Request(r, usize, asize) && (h.doneOnly ==> h.got == h.reaped)
      && h.reaped <= h.cursor <= h.limit <= h.got && DoneFrom(h, h.reaped, h.cursor)
      && pos == Wrap(h.starts[h.cursor], r.size) && end == Wrap(h.starts[h.limit], r.size)
      && (changed <==> h.reaped < h.cursor)
    case SweepStart(usize, asize) => Request(r, usize, asize) && (h.doneOnly ==> h.got == h.reaped)
    case SweepLoad(usize, asize, snap, end, pos, moved, passed) =>
      && Request(r, usize, asize) && (h.doneOnly ==> h.got == h.reaped)
      && h.reaped <= h.limit <= h.got && h.reaped <= h.cursor <= |h.elems| && DoneFrom(h, h.reaped, h.cursor)
      && pos == Wrap(h.starts[h.cursor], r.size) && snap == Wrap(h.starts[h.limit], r.size) && end == r.head
      && (moved <==> h.reaped < h.cursor) && (passed <==> h.limit < h.cursor)
    case CheckTail(usize, asize, snap, pos) => Request(r, usize, asize) && Swept(r, h, snap, pos)
    case CasTail(usize, asize, snap, pos) => Request(r, usize, asize) && Swept(r, h, snap, pos)
    case Recheck(usize, asize) => Request(r, usize, asize) && (h.doneOnly ==> h.got == h.reaped)
    case WriteHeader(usize, asize) =>
      Request(r, usize, asize) && HasRoom(r, h, asize) && (h.doneOnly ==> h.got == h.reaped)
    case PublishHead(usize, asize) =>
      && Request(r, usize, asize) && HasRoom(r, h, asize) && (h.doneOnly ==> h.got == h.reaped)
      && HeaderAt(r.mem, h.starts[|h.elems|]) == Header(asize, asize - usize, INIT)
  }

  /** The aggressive reaper has moved tail2 past the tail it saw. */
  ghost predicate Swept(r: Ring, h: Hist, snap: nat, pos: nat)
    requires Chain(r, h)
  {
    && pos == r.tail2 && h.limit <= h.reaped && h.limit <= h.got && snap == Wrap(h.starts[h.limit], r.size)
    && h.starts[|h.elems|] - h.starts[h.limit] < r.size
    && (h.doneOnly ==> h.got == h.limit)
  }

  ghost predicate GetOk(r: Ring, h: Hist)
    requires Chain(r, h)
  {
    match r.get
    case GetIdle => true
    case GetLoad => !h.doneOnly && h.got < |h.elems|
    case GetPublish(elm) =>
      !h.doneOnly && h.got < |h.elems| && h.elems[h.got].status == READY &&
      elm == Header(h.elems[h.got].asize, h.elems[h.got].asize - h.elems[h.got].usize, READY)
  }

  /** Everything but the put side's local variables. */
  ghost predicate Kept(r: Ring, h: Hist) {
    Chain(r, h) && Content(r, h) && Statuses(h) && GetOk(r, h)
  }

  ghost predicate Inv(r: Ring, h: Hist) {
    Kept(r, h) && PutOk(r, h)
  }

  // ---- How each step moves the history along.

  ghost function HistPutBegin(h: Hist): Hist {
    h.(cursor := h.reaped, limit := h.got)
  }

  /** The reaper found the element at `cursor` done, or stops there. */
  ghost function HistReap(h: Hist, more: bool): Hist {
    if more then h.(cursor := h.cursor + 1) else h.(reaped := h.cursor)
  }

  predicate MoreToReap(pos: nat, end: nat, elm: Header) {
    pos != end && HasFlag(elm.status, DONE)
  }

  /** How a step of the put side moves the history along. */
  ghost function HistPutNext(r: Ring, h: Hist): Hist
    requires Shape(h)
  {
    match r.put
    case ReapLoad(_, _, end, pos, _) => HistReap(h, MoreToReap(pos, end, HeaderAt(r.mem, pos)))
    case SweepStart(_, _) => h.(cursor := h.reaped, limit := h.got)
    case SweepLoad(_, _, _, end, pos, _, _) => HistReap(h, MoreToReap(pos, end, HeaderAt(r.mem, pos)))
    case CasTail(_, _, snap, _) => if r.tail == snap then h.(got := h.reaped) else h
    case PublishHead(usize, asize) => HistPublish(r, h, usize, asize)
    case _ => h
  }

  ghost function HistPublish(r: Ring, h: Hist, usize: nat, asize: nat): Hist
    requires Shape(h)
  {
    var p := h.starts[|h.elems|];
    h.(elems := h.elems + [Elem(usize, asize, INIT, DataAt(r.mem, p + HEADER_SIZE, usize))],
       starts := h.starts + [p + asize])
  }

  ghost function HistGetNext(r: Ring, h: Hist): Hist {
    if r.get.GetPublish? then h.(got := h.got + 1) else h
  }

  ghost function HistStatus(h: Hist, i: nat, status: nat): Hist
    requires i < |h.elems|
  {
    h.(elems := h.elems[i := h.elems[i].(status := status)])
  }

  function Overwrite(d: seq<byte>, at: nat, bytes: seq<byte>): seq<byte>
    requires at + |bytes| <= |d|
  {
    d[..at] + bytes + d[at + |bytes|..]
  }

  ghost function HistCopy(h: Hist, i: nat, at: nat, bytes: seq<byte>): Hist
    requires i < |h.elems| && at + |bytes| <= |h.elems[i].data|
  {
    h.(elems := h.elems[i := h.elems[i].(data := Overwrite(h.elems[i].data, at, bytes))])
  }

  // ---- Free space.

  lemma FreeBetweenExact(p: nat, used: nat, size: nat)
    requires used + HEADER_SIZE + 1 <= size < U32
    ensures FreeBetween(Wrap(p + used, size), Wrap(p, size), size) == size - HEADER_SIZE - 1 - used
  {
    WrapDifference(p, used, size);
    WrapDifference(p, used + 1, size);
    WrapAdd(p + used, 1, size);
  }

  /** Bytes between tail2 and head. */
  function Used(h: Hist): int
    requires Shape(h)
  {
    h.starts[|h.elems|] as int - h.starts[h.reaped]
  }

  /** free_space_size is exact: it never takes a ring for full that is not, and its subtraction never underflows. */
  lemma FreeSpaceExact(r: Ring, h: Hist)
    requires Chain(r, h)
    ensures FreeSpace(r) as int == r.size - HEADER_SIZE - 1 - Used(h)
  {
    Rising(r, h, h.reaped, |h.elems|);
    FreeBetweenExact(h.starts[h.reaped], h.starts[|h.elems|] - h.starts[h.reaped], r.size);
  }

  /** Distinct live positions have distinct offsets: head equals tail2 only when nothing is left to reclaim. */
  lemma OffsetsApart(r: Ring, h: Hist, i: nat, j: nat)
    requires Chain(r, h) && h.reaped <= i <= j < |h.starts| && Wrap(h.starts[i], r.size) == Wrap(h.starts[j], r.size)
    ensures i == j
  {
    Rising(r, h, h.reaped, i);
    Rising(r, h, i, j);
    Rising(r, h, j, |h.elems|);
    WrapInjective(h.starts[j], h.starts[i], r.size);
  }

  /** The header the code loads at an element's offset is that element's. */
  lemma LoadHeader(r: Ring, h: Hist, i: nat)
    requires Chain(r, h) && Content(r, h) && h.reaped <= i < |h.elems|
    ensures var e := h.elems[i];
            e.usize <= e.asize && HeaderAt(r.mem, Wrap(h.starts[i], r.size)) == Header(e.asize, e.asize - e.usize, e.status)
    ensures Wrap(Wrap(h.starts[i], r.size) + h.elems[i].asize, r.size) == Wrap(h.starts[i + 1], r.size)
  {
    HeaderOffset(r.mem, h.starts[i]);
    WrapAdd(h.starts[i], h.elems[i].asize, r.size);
    assert ElemOk(r, h.elems[i]);
  }

  lemma StatusFlags(status: nat)
    requires status == INIT || status == READY || status == DONE
    ensures HasFlag(status, DONE) <==> status == DONE
    ensures HasFlag(status, READY) <==> status == READY
  {
  }

  // ---- Steps of the put side.

  lemma AlignedRequest(r: Ring, usize: nat)
    requires Geometry(r)
    ensures var asize := AlignUp(usize + HEADER_SIZE, r.align);
            Wrap(asize, r.align) == 0 && usize + HEADER_SIZE <= asize < usize + HEADER_SIZE + r.align
  {
    var x := usize + HEADER_SIZE + r.align - 1;
    WrapSub(x, x, r.align);
  }

  function Reclaimed(r: Ring, tail2: nat, p: PutPc, res: PutResult): Ring {
    r.(tail2 := tail2, put := p, putResult := res)
  }

  lemma ReclaimStatuses(h: Hist, k: nat, cursor: nat, limit: nat)
    requires Shape(h) && Statuses(h) && h.reaped <= k <= |h.elems| && DoneFrom(h, h.reaped, k)
    ensures Shape(h.(reaped := k, cursor := cursor, limit := limit))
    ensures Statuses(h.(reaped := k, cursor := cursor, limit := limit))
  {
    if h.got < |h.elems| {
      assert !h.doneOnly ==> h.elems[h.got].status != DONE;
    }
  }

  lemma ReclaimChain(r: Ring, h: Hist, k: nat, p: PutPc, res: PutResult, cursor: nat, limit: nat)
    requires Chain(r, h) && h.reaped <= k <= |h.elems|
    ensures Chain(Reclaimed(r, Wrap(h.starts[k], r.size), p, res), h.(reaped := k, cursor := cursor, limit := limit))
  {
    Rising(r, h, h.reaped, k);
    Rising(r, h, k, |h.elems|);
  }

  /** Reclaiming done elements keeps everything that is not the put side's own. */
  lemma Reclaim(r: Ring, h: Hist, k: nat, p: PutPc, res: PutResult, cursor: nat, limit: nat)
    requires Kept(r, h) && h.reaped <= k <= |h.elems| && DoneFrom(h, h.reaped, k)
    ensures Kept(Reclaimed(r, Wrap(h.starts[k], r.size), p, res), h.(reaped := k, cursor := cursor, limit := limit))
  {
    ReclaimChain(r, h, k, p, res, cursor, limit);
    ReclaimStatuses(h, k, cursor, limit);
  }

  lemma FirstCheckInv(r: Ring, h: Hist, usize: nat, asize: nat)
    requires Inv(r, h) && r.put == PutIdle && Request(r, usize, asize)
    ensures Inv(FirstCheck(r, usize, asize), HistPutBegin(h))
  {
    var r' := FirstCheck(r, usize, asize);
    assert Kept(r', HistPutBegin(h)) by {
      LocalStep(r, h, r'.put, r'.putResult, h.reaped, h.got);
    }
    FreeSpaceExact(r, h);
  }

  lemma PutBeginInv(r: Ring, h: Hist, usize: nat)
    requires Inv(r, h) && r.put == PutIdle
    ensures Inv(PutBegin(r, usize), HistPutBegin(h))
  {
    var asize := AlignUp(usize + HEADER_SIZE, r.align);
    AlignedRequest(r, usize);
    if r.size < asize {
      LocalStep(r, h, PutIdle, Invalid, h.reaped, h.got);
    } else {
      FirstCheckInv(r, h, usize, asize);
    }
  }

  /** What the reapers find at an element's offset: its own size and status. */
  ghost predicate Loaded(r: Ring, h: Hist, i: nat, elm: Header)
    requires Shape(h)
  {
    i < |h.elems| ==>
      && (HasFlag(elm.status, DONE) <==> h.elems[i].status == DONE)
      && (r.size > 0 ==> Wrap(Wrap(h.starts[i], r.size) + elm.asize, r.size) == Wrap(h.starts[i + 1], r.size))
  }

  lemma LoadedHeader(r: Ring, h: Hist, i: nat)
    requires Chain(r, h) && Content(r, h) && h.reaped <= i
    ensures Loaded(r, h, i, HeaderAt(r.mem, Wrap(if i < |h.starts| then h.starts[i] else 0, r.size)))
  {
    hide Wrap, At, HeaderAt, DataAt, Store;
    if i < |h.elems| {
      LoadHeader(r, h, i);
      assert ElemOk(r, h.elems[i]);
      StatusFlags(h.elems[i].status);
    }
  }

  lemma ReapLocals(r: Ring, h: Hist, elm: Header)
    requires Chain(r, h) && PutOk(r, h) && r.put.ReapLoad? && Loaded(r, h, h.cursor, elm)
    requires MoreToReap(r.put.pos, r.put.end, elm) && Chain(ReapNext(r, elm), HistReap(h, true))
    ensures PutOk(ReapNext(r, elm), HistReap(h, true))
  {
    hide Wrap, At, HeaderAt, DataAt, Store;
  }

  lemma ReapMoreInv(r: Ring, h: Hist, elm: Header)
    requires Inv(r, h) && r.put.ReapLoad? && Loaded(r, h, h.cursor, elm) && MoreToReap(r.put.pos, r.put.end, elm)
    ensures Inv(ReapNext(r, elm), HistReap(h, true))
  {
    hide Content, GetOk, Wrap, At, HeaderAt, DataAt, Store;
    assert Kept(ReapNext(r, elm), HistReap(h, true)) by {
      Reclaim(r, h, h.reaped, ReapNext(r, elm).put, r.putResult, h.cursor + 1, h.limit);
    }
    ReapLocals(r, h, elm);
  }

  lemma ReapEndLocals(r: Ring, h: Hist, elm: Header)
    requires Chain(r, h) && PutOk(r, h) && r.put.ReapLoad? && !MoreToReap(r.put.pos, r.put.end, elm)
    requires Chain(ReapNext(r, elm), HistReap(h, false))
    ensures PutOk(ReapNext(r, elm), HistReap(h, false))
  {
    FreeSpaceExact(ReapNext(r, elm), HistReap(h, false));
  }

  lemma ReapEndInv(r: Ring, h: Hist, elm: Header)
    requires Inv(r, h) && r.put.ReapLoad? && !MoreToReap(r.put.pos, r.put.end, elm)
    ensures Inv(ReapNext(r, elm), HistReap(h, false))
  {
    hide Content, GetOk;
    assert Kept(ReapNext(r, elm), HistReap(h, false)) by {
      Reclaim(r, h, h.cursor, ReapNext(r, elm).put, r.putResult, h.cursor, h.limit);
    }
    ReapEndLocals(r, h, elm);
  }

  /** Where the aggressive reaper stands relative to the head and the tail it saw. */
  lemma SweepAt(r: Ring, h: Hist)
    requires Chain(r, h) && PutOk(r, h) && r.put.SweepLoad?
    ensures r.put.pos == r.put.end <==> h.cursor == |h.elems|
    ensures r.put.pos == r.put.snap <==> h.cursor == h.limit
  {
    if r.put.pos == r.put.end { OffsetsApart(r, h, h.cursor, |h.elems|); }
    if r.put.pos == r.put.snap {
      if h.cursor <= h.limit { OffsetsApart(r, h, h.cursor, h.limit); } else { OffsetsApart(r, h, h.limit, h.cursor); }
    }
  }

  lemma SweepLocals(r: Ring, h: Hist, elm: Header)
    requires Chain(r, h) && PutOk(r, h) && r.put.SweepLoad? && Loaded(r, h, h.cursor, elm)
    requires MoreToReap(r.put.pos, r.put.end, elm) && Chain(SweepNext(r, elm), HistReap(h, true))
    ensures PutOk(SweepNext(r, elm), HistReap(h, true))
  {
    hide Wrap, At, HeaderAt, DataAt, Store;
    SweepAt(r, h);
  }

  lemma SweepMoreInv(r: Ring, h: Hist, elm: Header)
    requires Inv(r, h) && r.put.SweepLoad? && Loaded(r, h, h.cursor, elm) && MoreToReap(r.put.pos, r.put.end, elm)
    ensures Inv(SweepNext(r, elm), HistReap(h, true))
  {
    hide Content, GetOk;
    assert Kept(SweepNext(r, elm), HistReap(h, true)) by {
      Reclaim(r, h, h.reaped, SweepNext(r, elm).put, r.putResult, h.cursor + 1, h.limit);
    }
    SweepLocals(r, h, elm);
  }

  lemma SweepEndLocals(r: Ring, h: Hist, elm: Header)
    requires Chain(r, h) && PutOk(r, h) && r.put.SweepLoad? && !MoreToReap(r.put.pos, r.put.end, elm)
    requires Chain(SweepNext(r, elm), HistReap(h, false))
    ensures PutOk(SweepNext(r, elm), HistReap(h, false))
  {
    SweepAt(r, h);
    Rising(r, h, h.reaped, h.limit);
    Rising(r, h, h.limit, |h.elems|);
  }

  lemma SweepEndInv(r: Ring, h: Hist, elm: Header)
    requires Inv(r, h) && r.put.SweepLoad? && !MoreToReap(r.put.pos, r.put.end, elm)
    ensures Inv(SweepNext(r, elm), HistReap(h, false))
  {
    hide Content, GetOk;
    assert Kept(SweepNext(r, elm), HistReap(h, false)) by {
      Reclaim(r, h, h.cursor, SweepNext(r, elm).put, r.putResult, h.cursor, h.limit);
    }
    SweepEndLocals(r, h, elm);
  }

  // The remaining steps of the put side.

  /** A step that only changes the put side's local variables and result. */
  lemma LocalStep(r: Ring, h: Hist, p: PutPc, res: PutResult, cursor: nat, limit: nat)
    requires Kept(r, h)
    ensures Kept(r.(put := p, putResult := res), h.(cursor := cursor, limit := limit))
  {
  }

  lemma SweepStartInv(r: Ring, h: Hist, usize: nat, asize: nat)
    requires Inv(r, h) && r.put == SweepStart(usize, asize)
    ensures Inv(SweepFrom(r, usize, asize), h.(cursor := h.reaped, limit := h.got))
  {
    LocalStep(r, h, SweepFrom(r, usize, asize).put, r.putResult, h.reaped, h.got);
  }

  /** The compare-and-swap of tail only succeeds while tail is where the reaper saw it: no get has intervened. */
  lemma TailUnmoved(r: Ring, h: Hist, snap: nat, pos: nat)
    requires Chain(r, h) && Swept(r, h, snap, pos) && r.tail == snap
    ensures h.got == h.limit
  {
    Rising(r, h, h.limit, h.got);
    Rising(r, h, h.got, |h.elems|);
    WrapInjective(h.starts[h.got], h.starts[h.limit], r.size);
  }

  lemma CheckTailInv(r: Ring, h: Hist, usize: nat, asize: nat, snap: nat, pos: nat)
    requires Inv(r, h) && r.put == CheckTail(usize, asize, snap, pos)
    ensures Inv(CheckedTail(r, usize, asize, snap, pos), h)
  {
    LocalStep(r, h, CheckedTail(r, usize, asize, snap, pos).put, r.putResult, h.cursor, h.limit);
  }

  /** ... so in a ring with gets it leaves tail alone, and in a done-only ring it makes tail catch up. */
  lemma CasTailKept(r: Ring, h: Hist, snap: nat, pos: nat)
    requires Kept(r, h) && Swept(r, h, snap, pos) && r.tail == snap
    ensures Kept(r.(tail := pos), h.(got := h.reaped))
    ensures !h.doneOnly ==> pos == r.tail && h.got == h.reaped
  {
    TailUnmoved(r, h, snap, pos);
  }

  lemma CasTailInv(r: Ring, h: Hist, usize: nat, asize: nat, snap: nat, pos: nat)
    requires Inv(r, h) && r.put == CasTail(usize, asize, snap, pos)
    ensures Inv(CasedTail(r, usize, asize, snap, pos), if r.tail == snap then h.(got := h.reaped) else h)
  {
    if r.tail == snap {
      CasTailKept(r, h, snap, pos);
      LocalStep(r.(tail := pos), h.(got := h.reaped), Recheck(usize, asize), r.putResult, h.cursor, h.limit);
    } else {
      LocalStep(r, h, Recheck(usize, asize), r.putResult, h.cursor, h.limit);
    }
  }

  lemma RecheckInv(r: Ring, h: Hist, usize: nat, asize: nat)
    requires Inv(r, h) && r.put == Recheck(usize, asize)
    ensures Inv(Rechecked(r, usize, asize), h)
  {
    LocalStep(r, h, Rechecked(r, usize, asize).put, Rechecked(r, usize, asize).putResult, h.cursor, h.limit);
    FreeSpaceExact(r, h);
  }

  // Writing to memory.

  /** Live element `j` lies inside the live window, before or after element `i`. */
  lemma ElementsApart(r: Ring, h: Hist, i: nat, j: nat)
    requires Chain(r, h) && h.reaped <= i <= |h.elems| && h.reaped <= j < |h.elems| && j != i
    ensures h.starts[h.reaped] <= h.starts[i]
    ensures h.starts[h.reaped] <= h.starts[j]
    ensures h.elems[j].usize + HEADER_SIZE <= h.elems[j].asize
    ensures h.starts[j] + h.elems[j].asize <= h.starts[|h.elems|] <= h.starts[h.reaped] + r.size
    ensures i < |h.elems| ==> h.starts[i] + h.elems[i].asize <= h.starts[|h.elems|]
    ensures j < i ==> h.starts[j] + h.elems[j].asize <= h.starts[i]
    ensures i < j ==> h.starts[i] + h.elems[i].asize <= h.starts[j]
  {
    assert ElemOk(r, h.elems[j]);
    Rising(r, h, h.reaped, j);
    Rising(r, h, j, |h.elems|);
    Rising(r, h, h.reaped, i);
    Rising(r, h, i, |h.elems|);
    if j < i { Rising(r, h, j, i); } else { Rising(r, h, i, j); }
  }

  /** A store into the region of element `i`, or behind the last one, leaves the other elements alone. */
  lemma StoreKeepsOthers(r: Ring, h: Hist, i: nat, p: nat, bs: seq<byte>, j: nat)
    requires Chain(r, h) && Content(r, h) && h.reaped <= i <= |h.elems| && h.starts[i] <= p
    requires i < |h.elems| ==> p + |bs| <= h.starts[i] + h.elems[i].asize
    requires i == |h.elems| ==> p + |bs| <= h.starts[h.reaped] + r.size
    requires h.reaped <= j < |h.elems| && j != i
    ensures Stored(Store(r.mem, p, bs), h.starts[j], h.elems[j])
  {
    hide Wrap, At, HeaderAt, DataAt, Store;
    ElementsApart(r, h, i, j);
    StoreElsewhere(r.mem, p, bs, h.starts[h.reaped], h.starts[j], HEADER_SIZE);
    StoreElsewhere(r.mem, p, bs, h.starts[h.reaped], h.starts[j] + HEADER_SIZE, h.elems[j].usize);
  }

  lemma WriteHeaderContent(r: Ring, h: Hist, bs: seq<byte>)
    requires Chain(r, h) && Content(r, h) && h.starts[|h.elems|] + |bs| <= h.starts[h.reaped] + r.size
    ensures Content(r.(mem := Store(r.mem, r.head, bs)), h)
    ensures Store(r.mem, r.head, bs) == Store(r.mem, h.starts[|h.elems|], bs)
  {
    var p := h.starts[|h.elems|];
    StoreOffset(r.mem, p, bs);
    forall j | h.reaped <= j < |h.elems| ensures Stored(Store(r.mem, p, bs), h.starts[j], h.elems[j]) {
      StoreKeepsOthers(r, h, |h.elems|, p, bs, j);
    }
  }

  /** The header is written before head is published, into space no element and no get can see. */
  lemma WriteHeaderInv(r: Ring, h: Hist, usize: nat, asize: nat)
    requires Inv(r, h) && r.put == WriteHeader(usize, asize)
    ensures Inv(HeaderWritten(r, usize, asize), h)
  {
    hide Wrap, At, HeaderAt, DataAt, Store;
    var r' := HeaderWritten(r, usize, asize);
    assert Kept(r', h) by {
      WriteHeaderContent(r, h, HeaderBytes(NewHeader(usize, asize)));
      MemoryStep(r, h, r'.mem);
      LocalStep(r.(mem := r'.mem), h, r'.put, r.putResult, h.cursor, h.limit);
    }
    assert HeaderAt(r'.mem, h.starts[|h.elems|]) == NewHeader(usize, asize) by {
      StoreOffset(r.mem, h.starts[|h.elems|], HeaderBytes(NewHeader(usize, asize)));
      StoredHeader(r.mem, h.starts[|h.elems|], NewHeader(usize, asize));
    }
  }

  /** A store that leaves the live elements alone. */
  lemma MemoryStep(r: Ring, h: Hist, mem: Mem)
    requires Kept(r, h) && |mem| == r.size && Content(r.(mem := mem), h)
    ensures Kept(r.(mem := mem), h)
  {
    hide Wrap, At, HeaderAt, DataAt, Store;
  }

  lemma PublishAligned(r: Ring, p: nat, asize: nat)
    requires Geometry(r) && Wrap(asize, r.align) == 0 && Wrap(p + HEADER_SIZE, r.align) == 0
    ensures Wrap(p + asize + HEADER_SIZE, r.align) == 0
    ensures Wrap(Wrap(p, r.size) + asize, r.size) == Wrap(p + asize, r.size)
  {
    WrapAdd(p, asize, r.size);
    WrapAdd(p + HEADER_SIZE, asize, r.align);
  }

  lemma PublishChain(r: Ring, h: Hist, usize: nat, asize: nat)
    requires Chain(r, h) && Request(r, usize, asize) && HasRoom(r, h, asize)
    ensures Chain(HeadPublished(r, usize, asize), HistPublish(r, h, usize, asize))
  {
    hide Wrap, At, HeaderAt, DataAt, Store;
    var p, h' := h.starts[|h.elems|], HistPublish(r, h, usize, asize);
    PublishAligned(r, p, asize);
    forall i | 0 <= i < |h'.elems|
      ensures h'.starts[i + 1] == h'.starts[i] + h'.elems[i].asize && ElemOk(r, h'.elems[i])
    {
      if i < |h.elems| { assert h'.elems[i] == h.elems[i]; }
    }
  }

  lemma PublishContent(r: Ring, h: Hist, usize: nat, asize: nat)
    requires Kept(r, h) && Request(r, usize, asize)
    requires HeaderAt(r.mem, h.starts[|h.elems|]) == Header(asize, asize - usize, INIT)
    ensures Shape(HistPublish(r, h, usize, asize)) && Content(HeadPublished(r, usize, asize), HistPublish(r, h, usize, asize))
    ensures Statuses(HistPublish(r, h, usize, asize))
  {
    hide Wrap, At, HeaderAt, DataAt, Store;
  }

  lemma PublishInv(r: Ring, h: Hist, usize: nat, asize: nat)
    requires Inv(r, h) && r.put == PublishHead(usize, asize)
    ensures Inv(HeadPublished(r, usize, asize), HistPublish(r, h, usize, asize))
  {
    PublishChain(r, h, usize, asize);
    PublishContent(r, h, usize, asize);
    PublishGet(r, h, usize, asize);
  }

  lemma PublishGet(r: Ring, h: Hist, usize: nat, asize: nat)
    requires Chain(r, h) && GetOk(r, h) && Chain(HeadPublished(r, usize, asize), HistPublish(r, h, usize, asize))
    ensures GetOk(HeadPublished(r, usize, asize), HistPublish(r, h, usize, asize))
  {
  }
}
