/** The get side, the owners of elements, and all steps taken together. */
module RingSteps {
  import opened Modular
  import opened RingLayout
  import opened RingMachine
  import opened RingInvariant

  // ---- The get side.

  lemma GetBeginInv(r: Ring, h: Hist)
    requires Inv(r, h) && r.get == GetIdle && !h.doneOnly
    ensures Inv(GetBegin(r), h)
    ensures GetBegin(r).get == GetLoad <==> h.got < |h.elems|
  {
    hide Wrap, At, HeaderAt, DataAt, Store;
    if r.head == r.tail {
      OffsetsApart(r, h, h.got, |h.elems|);
    }
  }

  lemma GetLoadedKept(r: Ring, h: Hist, elm: Header)
    requires Kept(r, h) && r.get == GetLoad
    requires elm == Header(h.elems[h.got].asize, h.elems[h.got].asize - h.elems[h.got].usize, h.elems[h.got].status)
    ensures Kept(GetLoaded(r, elm), h)
    ensures GetLoaded(r, elm).get.GetPublish? <==> h.elems[h.got].status == READY
  {
    hide Wrap, At, HeaderAt, DataAt, Store;
    assert ElemOk(r, h.elems[h.got]);
    StatusFlags(h.elems[h.got].status);
  }

  lemma PutDoesNotMindGets(r: Ring, h: Hist, r': Ring, h': Hist)
    requires Chain(r, h) && PutOk(r, h) && !h.doneOnly && Chain(r', h') && h.got <= h'.got
    requires r' == r.(tail := r'.tail, get := r'.get, getResult := r'.getResult) && h' == h.(got := h'.got)
    ensures PutOk(r', h')
  {
    hide Wrap, At, HeaderAt, DataAt, Store;
  }

  lemma GetLoadInv(r: Ring, h: Hist)
    requires Inv(r, h) && r.get == GetLoad
    ensures Inv(GetLoaded(r, HeaderAt(r.mem, r.tail)), h)
    ensures GetLoaded(r, HeaderAt(r.mem, r.tail)).get.GetPublish? <==> h.elems[h.got].status == READY
  {
    LoadHeader(r, h, h.got);
    GetLoadedKept(r, h, HeaderAt(r.mem, r.tail));
    PutDoesNotMindGets(r, h, GetLoaded(r, HeaderAt(r.mem, r.tail)), h);
  }

  lemma TailPublishedKept(r: Ring, h: Hist, elm: Header)
    requires Kept(r, h) && r.get == GetPublish(elm)
    ensures Kept(TailPublished(r, elm), h.(got := h.got + 1))
  {
    hide Wrap, At, HeaderAt, DataAt, Store;
    assert ElemOk(r, h.elems[h.got]);
    WrapAdd(h.starts[h.got], elm.asize, r.size);
  }

  lemma TailPublishedInv(r: Ring, h: Hist, elm: Header)
    requires Inv(r, h) && r.get == GetPublish(elm)
    ensures Inv(TailPublished(r, elm), h.(got := h.got + 1))
  {
    hide Wrap, At, HeaderAt, DataAt, Store;
    TailPublishedKept(r, h, elm);
    PutDoesNotMindGets(r, h, TailPublished(r, elm), h.(got := h.got + 1));
  }

  // ---- Owners of elements.

  /** The offset of element `i`'s data, as put and get hand it out. */
  function DataOf(r: Ring, h: Hist, i: nat): nat
    requires r.size > 0 && i < |h.starts|
  {
    Wrap(h.starts[i], r.size) + HEADER_SIZE
  }

  /** An element may be set ready by who put it, and set done by who got it, or in a done-only ring once ready. */
  predicate MaySetReady(h: Hist, i: nat) {
    i < |h.elems| && h.elems[i].status == INIT
  }

  predicate MaySetDone(h: Hist, i: nat) {
    i < |h.elems| && h.elems[i].status == READY && (h.doneOnly || i < h.got)
  }

  /** Data is copied in before the element is set ready. */
  predicate MayCopy(h: Hist, i: nat, at: nat, bytes: seq<byte>) {
    MaySetReady(h, i) && at + |bytes| <= |h.elems[i].data|
  }

  /** A store inside element `i` that turns it into `e` turns the history's element into `e` and no other. */
  lemma StoreInside(r: Ring, h: Hist, i: nat, p: nat, bs: seq<byte>, e: Elem)
    requires Kept(r, h) && h.reaped <= i < |h.elems| && ElemOk(r, e) && |r.mem| == r.size
    requires h.starts[i] <= p && p + |bs| <= h.starts[i] + h.elems[i].asize
    requires e.usize == h.elems[i].usize && e.asize == h.elems[i].asize
    requires Stored(Store(r.mem, p, bs), h.starts[i], e)
    ensures Content(r.(mem := Store(r.mem, p, bs)), h.(elems := h.elems[i := e]))
  {
    hide Wrap, At, HeaderAt, DataAt, Store;
    var m, elems := Store(r.mem, p, bs), h.elems[i := e];
    forall j | h.reaped <= j < |elems| ensures Stored(m, h.starts[j], elems[j]) {
      if j != i {
        StoreKeepsOthers(r, h, i, p, bs, j);
      }
    }
  }

  /** The header a put has written but not published is out of reach, too. */
  lemma StoreKeepsNext(r: Ring, h: Hist, i: nat, p: nat, bs: seq<byte>)
    requires Chain(r, h) && h.reaped <= i < |h.elems| && HasRoom(r, h, HEADER_SIZE)
    requires h.starts[i] <= p && p + |bs| <= h.starts[i] + h.elems[i].asize
    ensures HeaderAt(Store(r.mem, p, bs), h.starts[|h.elems|]) == HeaderAt(r.mem, h.starts[|h.elems|])
  {
    Rising(r, h, h.reaped, i);
    Rising(r, h, i, |h.elems|);
    StoreElsewhere(r.mem, p, bs, h.starts[h.reaped], h.starts[|h.elems|], HEADER_SIZE);
  }

  /** Elements that are not done are not reclaimed. */
  lemma NotReclaimed(h: Hist, i: nat)
    requires Shape(h) && Statuses(h) && i < |h.elems| && h.elems[i].status != DONE
    ensures h.reaped <= i
  {
  }

  /** A store inside element `i`, seen from the history. */
  lemma ElementStore(r: Ring, h: Hist, i: nat, p: nat, bs: seq<byte>, e: Elem, r': Ring, h': Hist)
    requires Kept(r, h) && h.reaped <= i < |h.elems| && ElemOk(r, e)
    requires h.starts[i] <= p && p + |bs| <= h.starts[i] + h.elems[i].asize
    requires e.usize == h.elems[i].usize && e.asize == h.elems[i].asize
    requires Stored(Store(r.mem, p, bs), h.starts[i], e)
    requires r' == r.(mem := Store(r.mem, p, bs)) && h' == h.(elems := h.elems[i := e])
    requires Statuses(h')
    requires h.got == i && r.get.GetPublish? ==> e.status == READY
    ensures Kept(r', h')
  {
    hide Wrap, At, HeaderAt, DataAt, Store;
    StoreInside(r, h, i, p, bs, e);
  }

  /** ... which the put side does not notice. */
  lemma PutDoesNotMindStores(r: Ring, h: Hist, i: nat, p: nat, bs: seq<byte>, e: Elem, r': Ring, h': Hist)
    requires Chain(r, h) && PutOk(r, h) && h.reaped <= i < |h.elems|
    requires h.starts[i] <= p && p + |bs| <= h.starts[i] + h.elems[i].asize
    requires h.elems[i].status == DONE ==> e.status == DONE
    requires r' == r.(mem := Store(r.mem, p, bs)) && h' == h.(elems := h.elems[i := e]) && Chain(r', h')
    ensures PutOk(r', h')
  {
    hide Wrap, At, HeaderAt, DataAt, Store, AlignUp;
    if r.put.PublishHead? {
      Rising(r, h, h.reaped, |h.elems|);
      StoreKeepsNext(r, h, i, p, bs);
    }
  }

  /** Stores through an element's offset reach the bytes at its position. */
  lemma StoreThrough(m: Mem, p: nat, k: nat, bs: seq<byte>)
    ensures Store(m, Wrap(p, |m|) + k, bs) == Store(m, p + k, bs)
  {
    StoreOffset(m, p + k, bs);
    StoreOffset(m, Wrap(p, |m|) + k, bs);
    WrapAdd(p, k, |m|);
  }

  lemma SetStatusAt(r: Ring, h: Hist, i: nat, status: nat, e: Elem)
    requires |r.mem| == r.size && Shape(h) && i < |h.elems| && e == h.elems[i].(status := status)
    ensures SetStatus(r, DataOf(r, h, i), status) == r.(mem := Store(r.mem, h.starts[i] + 6, StatusBytes(status)))
    ensures HistStatus(h, i, status) == h.(elems := h.elems[i := e])
  {
    StoreThrough(r.mem, h.starts[i], 6, StatusBytes(status));
  }

  lemma CopyToAt(r: Ring, h: Hist, i: nat, at: nat, bytes: seq<byte>, e: Elem)
    requires |r.mem| == r.size && Shape(h) && i < |h.elems| && at + |bytes| <= |h.elems[i].data|
    requires e == h.elems[i].(data := Overwrite(h.elems[i].data, at, bytes))
    ensures CopyTo(r, DataOf(r, h, i) + at, bytes) == r.(mem := Store(r.mem, h.starts[i] + HEADER_SIZE + at, bytes))
    ensures HistCopy(h, i, at, bytes) == h.(elems := h.elems[i := e])
  {
    StoreThrough(r.mem, h.starts[i], HEADER_SIZE + at, bytes);
  }

  lemma StatusStored(m: Mem, p: nat, e: Elem, status: nat)
    requires Stored(m, p, e) && HEADER_SIZE + e.usize <= |m| && status < U16
    ensures Stored(Store(m, p + 6, StatusBytes(status)), p, e.(status := status))
  {
    StoredStatus(m, p, status);
    StoreElsewhere(m, p + 6, StatusBytes(status), p, p + HEADER_SIZE, e.usize);
  }

  lemma StatusMoved(r: Ring, h: Hist, i: nat, status: nat)
    requires Shape(h) && Statuses(h)
    requires (status == READY && MaySetReady(h, i)) || (status == DONE && MaySetDone(h, i))
    ensures Statuses(HistStatus(h, i, status))
  {
  }

  lemma StatusStoredElem(r: Ring, h: Hist, i: nat, status: nat, e: Elem)
    requires Chain(r, h) && Content(r, h) && h.reaped <= i < |h.elems| && e == h.elems[i].(status := status)
    requires status == READY || status == DONE
    ensures ElemOk(r, e) && Stored(Store(r.mem, h.starts[i] + 6, StatusBytes(status)), h.starts[i], e)
  {
    hide Wrap, At, HeaderAt, DataAt, Store, StatusBytes;
    assert ElemOk(r, h.elems[i]);
    StatusStored(r.mem, h.starts[i], h.elems[i], status);
  }

  lemma SetStatusKept(r: Ring, h: Hist, i: nat, status: nat, e: Elem, r': Ring, h': Hist)
    requires Kept(r, h) && i < |h.elems| && e == h.elems[i].(status := status)
    requires (status == READY && MaySetReady(h, i)) || (status == DONE && MaySetDone(h, i))
    requires r' == r.(mem := Store(r.mem, h.starts[i] + 6, StatusBytes(status))) && h' == h.(elems := h.elems[i := e])
    ensures Kept(r', h')
  {
    hide Wrap, At, HeaderAt, DataAt, Store;
    NotReclaimed(h, i);
    StatusStoredElem(r, h, i, status, e);
    StatusMoved(r, h, i, status);
    ElementStore(r, h, i, h.starts[i] + 6, StatusBytes(status), e, r', h');
  }

  lemma SetStatusInv(r: Ring, h: Hist, i: nat, status: nat, r': Ring, h': Hist)
    requires Inv(r, h)
    requires (status == READY && MaySetReady(h, i)) || (status == DONE && MaySetDone(h, i))
    requires r' == SetStatus(r, DataOf(r, h, i), status) && h' == HistStatus(h, i, status)
    ensures Inv(r', h')
  {
    var e := h.elems[i].(status := status);
    SetStatusAt(r, h, i, status, e);
    SetStatusKept(r, h, i, status, e, r', h');
    NotReclaimed(h, i);
    assert ElemOk(r, h.elems[i]);
    PutDoesNotMindStores(r, h, i, h.starts[i] + 6, StatusBytes(status), e, r', h');
  }

  lemma DataStored(m: Mem, p: nat, e: Elem, at: nat, bytes: seq<byte>)
    requires Stored(m, p, e) && HEADER_SIZE + e.usize <= |m| && at + |bytes| <= |e.data|
    ensures Stored(Store(m, p + HEADER_SIZE + at, bytes), p, e.(data := Overwrite(e.data, at, bytes)))
  {
    hide Wrap, At, HeaderAt, Store;
    var q := p + HEADER_SIZE;
    var m' := Store(m, q + at, bytes);
    StoreElsewhere(m, q + at, bytes, p, p, HEADER_SIZE);
    forall k | 0 <= k < e.usize ensures DataAt(m', q, e.usize)[k] == Overwrite(e.data, at, bytes)[k] {
      StoreAt(m, q + at, bytes, p, q + k);
      assert e.data[k] == DataAt(m, q, e.usize)[k];
    }
  }

  lemma DataStoredElem(r: Ring, h: Hist, i: nat, at: nat, bytes: seq<byte>, e: Elem)
    requires Chain(r, h) && Content(r, h) && h.reaped <= i < |h.elems| && at + |bytes| <= |h.elems[i].data|
    requires e == h.elems[i].(data := Overwrite(h.elems[i].data, at, bytes))
    ensures ElemOk(r, e) && Stored(Store(r.mem, h.starts[i] + HEADER_SIZE + at, bytes), h.starts[i], e)
    ensures HEADER_SIZE + at + |bytes| <= h.elems[i].asize
  {
    hide Wrap, At, HeaderAt, DataAt, Store, Overwrite;
    assert ElemOk(r, h.elems[i]);
    DataStored(r.mem, h.starts[i], h.elems[i], at, bytes);
  }

  lemma DataMoved(h: Hist, i: nat, e: Elem)
    requires Shape(h) && Statuses(h) && i < |h.elems| && e.status == h.elems[i].status
    ensures Statuses(h.(elems := h.elems[i := e]))
  {
  }

  lemma CopyKept(r: Ring, h: Hist, i: nat, at: nat, bytes: seq<byte>, e: Elem, r': Ring, h': Hist)
    requires Kept(r, h) && MayCopy(h, i, at, bytes) && e == h.elems[i].(data := Overwrite(h.elems[i].data, at, bytes))
    requires r' == r.(mem := Store(r.mem, h.starts[i] + HEADER_SIZE + at, bytes)) && h' == h.(elems := h.elems[i := e])
    ensures Kept(r', h') && h.reaped <= i && HEADER_SIZE + at + |bytes| <= h.elems[i].asize
  {
    NotReclaimed(h, i);
    DataStoredElem(r, h, i, at, bytes, e);
    DataMoved(h, i, e);
    ElementStore(r, h, i, h.starts[i] + HEADER_SIZE + at, bytes, e, r', h');
  }

  lemma CopyStoreInv(r: Ring, h: Hist, i: nat, at: nat, bytes: seq<byte>, e: Elem, r': Ring, h': Hist)
    requires Inv(r, h) && MayCopy(h, i, at, bytes) && e == h.elems[i].(data := Overwrite(h.elems[i].data, at, bytes))
    requires r' == r.(mem := Store(r.mem, h.starts[i] + HEADER_SIZE + at, bytes)) && h' == h.(elems := h.elems[i := e])
    ensures Inv(r', h')
  {
    CopyKept(r, h, i, at, bytes, e, r', h');
    PutDoesNotMindStores(r, h, i, h.starts[i] + HEADER_SIZE + at, bytes, e, r', h');
  }

  lemma CopyInv(r: Ring, h: Hist, i: nat, at: nat, bytes: seq<byte>, r': Ring, h': Hist)
    requires Inv(r, h) && MayCopy(h, i, at, bytes)
    requires r' == CopyTo(r, DataOf(r, h, i) + at, bytes) && h' == HistCopy(h, i, at, bytes)
    ensures Inv(r', h')
  {
    var e := h.elems[i].(data := Overwrite(h.elems[i].data, at, bytes));
    CopyToAt(r, h, i, at, bytes, e);
    CopyStoreInv(r, h, i, at, bytes, e, r', h');
  }
}
