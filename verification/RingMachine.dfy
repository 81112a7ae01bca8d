/** The double-mapped ring buffer as a step system: the put side, the get side and the owners of elements take
    turns in any order, one access to shared memory at a time.  The combining queue lets one thread at a time
    act as the put side and one as the get side. */
module RingMachine {
  import opened Modular
  import opened RingLayout

  const SIZE_T: nat := 0x1_0000_0000_0000_0000

  /** Progress of __ring_buffer_put: `usize` bytes requested, `asize` with header and alignment.  ReapLoad and
      SweepLoad are about to load the header at `pos` in the plain and the aggressive reaper's loop. */
  datatype PutPc =
    | PutIdle
    | ReapLoad(usize: nat, asize: nat, end: nat, pos: nat, changed: bool)
    | SweepStart(usize: nat, asize: nat)
    | SweepLoad(usize: nat, asize: nat, snap: nat, end: nat, pos: nat, moved: bool, passed: bool)
    | CheckTail(usize: nat, asize: nat, snap: nat, pos: nat)
    | CasTail(usize: nat, asize: nat, snap: nat, pos: nat)
    | Recheck(usize: nat, asize: nat)
    | WriteHeader(usize: nat, asize: nat)
    | PublishHead(usize: nat, asize: nat)

  datatype GetPc = GetIdle | GetLoad | GetPublish(header: Header)

  /** -EINVAL; -EAGAIN with the element to monitor; success with the data's offset. */
  datatype PutResult = PutNone | Invalid | Full(monitor: nat) | Placed(data: nat)

  /** -EAGAIN on an empty ring; -EAGAIN with the element to monitor; success with the data's offset and size. */
  datatype GetResult = GetNone | Empty | NotReady(monitor: nat) | Got(data: nat, usize: int)

  datatype Ring = Ring(
    size: nat, align: nat, mem: Mem, head: nat, tail: nat, tail2: nat,
    put: PutPc, get: GetPc, putResult: PutResult, getResult: GetResult)

  /** (n + align_mask) & ~align_mask, for an alignment that is a power of two. */
  function AlignUp(n: nat, align: nat): nat
    requires align > 0
  {
    n + align - 1 - Wrap(n + align - 1, align)
  }

  /** free_space_size, in the arithmetic of size_t. */
  function FreeBetween(head: nat, tail2: nat, size: nat): nat
    requires size > 0
  {
    if tail2 == Wrap(head + 1, size) then 0
    else
      var free := if tail2 < head then size - (head - tail2) else if tail2 > head then tail2 - head else size;
      (free - HEADER_SIZE - 1) % SIZE_T
  }

  function FreeSpace(r: Ring): nat
    requires r.size > 0
  {
    FreeBetween(r.head, r.tail2, r.size)
  }

  /** _secure_free_space up to its first look at the get side. */
  function FirstCheck(r: Ring, usize: nat, asize: nat): Ring
    requires r.size > 0
  {
    r.(putResult := PutNone,
       put := if asize <= FreeSpace(r) then WriteHeader(usize, asize)
              else ReapLoad(usize, asize, r.tail, r.tail2, false))
  }

  /** __ring_buffer_put_align_size, and the beginning of __ring_buffer_put. */
  function PutBegin(r: Ring, usize: nat): Ring
    requires r.size > 0 && r.align > 0
  {
    var asize := AlignUp(usize + HEADER_SIZE, r.align);
    if r.size < asize then r.(putResult := Invalid) else FirstCheck(r, usize, asize)
  }

  /** One round of reap_ring_buffer_elms' loop, or its end and the second test for room; `elm` is the header
      just loaded at `pos`. */
  function ReapNext(r: Ring, elm: Header): Ring
    requires r.size > 0 && r.put.ReapLoad?
  {
    var ReapLoad(usize, asize, end, pos, changed) := r.put;
    if pos != end && HasFlag(elm.status, DONE) then
      r.(put := ReapLoad(usize, asize, end, Wrap(pos + elm.asize, r.size), true))
    else
      var r' := if changed then r.(tail2 := pos) else r;
      r'.(put := if asize <= FreeSpace(r') then WriteHeader(usize, asize) else SweepStart(usize, asize))
  }

  /** One round of reap_ring_buffer_elms_aggressively's loop, or its end. */
  function SweepNext(r: Ring, elm: Header): Ring
    requires r.size > 0 && r.put.SweepLoad?
  {
    var SweepLoad(usize, asize, snap, end, pos, moved, passed) := r.put;
    if pos != end && HasFlag(elm.status, DONE) then
      r.(put := SweepLoad(usize, asize, snap, end, Wrap(pos + elm.asize, r.size), true, passed || snap == pos))
    else
      var moved' := moved || pos != end;
      var passed' := passed || (pos != end && snap == pos);
      (if moved' then r.(tail2 := pos) else r)
      .(put := if moved' && passed' then CheckTail(usize, asize, snap, pos) else Recheck(usize, asize))
  }

  /** Snapshots of tail, head and tail2 for the aggressive reaper. */
  function SweepFrom(r: Ring, usize: nat, asize: nat): Ring {
    r.(put := SweepLoad(usize, asize, r.tail, r.head, r.tail2, false, false))
  }

  function CheckedTail(r: Ring, usize: nat, asize: nat, snap: nat, pos: nat): Ring {
    r.(put := if r.tail == snap then CasTail(usize, asize, snap, pos) else Recheck(usize, asize))
  }

  function CasedTail(r: Ring, usize: nat, asize: nat, snap: nat, pos: nat): Ring {
    r.(tail := if r.tail == snap then pos else r.tail, put := Recheck(usize, asize))
  }

  /** The last test for room; on failure the oldest element is the one to monitor. */
  function Rechecked(r: Ring, usize: nat, asize: nat): Ring
    requires r.size > 0
  {
    if asize <= FreeSpace(r) then r.(put := WriteHeader(usize, asize))
    else r.(put := PutIdle, putResult := Full(r.tail2))
  }

  function NewHeader(usize: nat, asize: nat): Header {
    Header(asize, if asize >= usize then asize - usize else 0, INIT)
  }

  function HeaderWritten(r: Ring, usize: nat, asize: nat): Ring {
    r.(mem := Store(r.mem, r.head, HeaderBytes(NewHeader(usize, asize))), put := PublishHead(usize, asize))
  }

  function HeadPublished(r: Ring, usize: nat, asize: nat): Ring
    requires r.size > 0
  {
    r.(head := Wrap(r.head + asize, r.size), putResult := Placed(r.head + HEADER_SIZE), put := PutIdle)
  }

  function PutNext(r: Ring): Ring
    requires r.size > 0
  {
    match r.put
    case PutIdle => r
    case ReapLoad(_, _, _, pos, _) => ReapNext(r, HeaderAt(r.mem, pos))
    case SweepStart(usize, asize) => SweepFrom(r, usize, asize)
    case SweepLoad(_, _, _, _, pos, _, _) => SweepNext(r, HeaderAt(r.mem, pos))
    case CheckTail(usize, asize, snap, pos) => CheckedTail(r, usize, asize, snap, pos)
    case CasTail(usize, asize, snap, pos) => CasedTail(r, usize, asize, snap, pos)
    case Recheck(usize, asize) => Rechecked(r, usize, asize)
    case WriteHeader(usize, asize) => HeaderWritten(r, usize, asize)
    case PublishHead(usize, asize) => HeadPublished(r, usize, asize)
  }

  /** __ring_buffer_get up to the emptiness test. */
  function GetBegin(r: Ring): Ring {
    if r.head == r.tail then r.(getResult := Empty) else r.(getResult := GetNone, get := GetLoad)
  }

  /** The test whether the element at tail, whose header `elm` was just loaded, is ready. */
  function GetLoaded(r: Ring, elm: Header): Ring {
    if HasFlag(elm.status, READY) then r.(get := GetPublish(elm))
    else r.(get := GetIdle, getResult := NotReady(r.tail))
  }

  function TailPublished(r: Ring, elm: Header): Ring
    requires r.size > 0
  {
    r.(tail := Wrap(r.tail + elm.asize, r.size), get := GetIdle,
       getResult := Got(r.tail + HEADER_SIZE, elm.asize - elm.padding))
  }

  function GetNext(r: Ring): Ring
    requires r.size > 0
  {
    match r.get
    case GetIdle => r
    case GetLoad => GetLoaded(r, HeaderAt(r.mem, r.tail))
    case GetPublish(elm) => TailPublished(r, elm)
  }

  /** ring_buffer_elm_set_ready and ring_buffer_elm_set_done write the status of the element of `data`. */
  function SetStatus(r: Ring, data: nat, status: nat): Ring {
    r.(mem := Store(r.mem, data - 2, StatusBytes(status)))
  }

  /** copy_to_ring_buffer. */
  function CopyTo(r: Ring, dest: nat, bytes: seq<byte>): Ring {
    r.(mem := Store(r.mem, dest, bytes))
  }
}
