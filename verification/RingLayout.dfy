/** The bytes of the ring buffer: element headers and user data in a doubly mapped region, so that offsets past
    the end continue at its beginning. */
module RingLayout {
  import opened Modular

  type byte = b: int | 0 <= b < 256

  type Mem = m: seq<byte> | |m| > 0 witness [0]

  /** struct ring_buffer_elm_t: the aligned size including header and padding, the padding that is not user
      data (header included), and the status word. */
  datatype Header = Header(asize: nat, padding: nat, status: nat)

  const HEADER_SIZE: nat := 8
  const PAGE_SIZE: nat := 4096
  const U16: nat := 0x1_0000
  const U32: nat := 0x1_0000_0000

  const INIT: nat := 0x0be0
  const READY: nat := 0x0001
  const DONE: nat := 0x0002

  predicate HasFlag(status: nat, flag: nat)
    requires flag > 0
  {
    (status / flag) % 2 == 1
  }

  /** The byte `p` positions after the start of the region, seen through the double mapping. */
  function At(m: Mem, p: int): byte {
    m[Wrap(p, |m|)]
  }

  /** Little-endian fields, truncated to their width in the struct. */
  function HeaderBytes(h: Header): (bs: seq<byte>)
    ensures |bs| == HEADER_SIZE
  {
    [h.asize % 256, h.asize / 256 % 256, h.asize / 0x1_0000 % 256, h.asize / 0x100_0000 % 256,
     h.padding % 256, h.padding / 256 % 256, h.status % 256, h.status / 256 % 256]
  }

  function StatusBytes(status: nat): (bs: seq<byte>)
    ensures |bs| == 2
  {
    [status % 256, status / 256 % 256]
  }

  function HeaderAt(m: Mem, p: int): Header {
    Header(At(m, p) + 256 * At(m, p + 1) + 0x1_0000 * At(m, p + 2) + 0x100_0000 * At(m, p + 3),
           At(m, p + 4) + 256 * At(m, p + 5),
           At(m, p + 6) + 256 * At(m, p + 7))
  }

  predicate Fits(h: Header) {
    h.asize < U32 && h.padding < U16 && h.status < U16
  }

  function DataAt(m: Mem, p: int, n: nat): (d: seq<byte>)
    ensures |d| == n && forall k :: 0 <= k < n ==> d[k] == At(m, p + k)
  {
    seq<byte>(n, k requires 0 <= k < n => At(m, p + k))
  }

  /** Byte `j` of the region once `bs` is stored from position `p` on. */
  function StoredByte(m: Mem, p: int, bs: seq<byte>, j: nat): byte
    requires j < |m|
  {
    var d := Wrap(j - p, |m|);
    if d < |bs| then bs[d] else m[j]
  }

  /** Store `bs` from position `p` on, through the double mapping. */
  function Store(m: Mem, p: int, bs: seq<byte>): (m': Mem)
    ensures |m'| == |m|
  {
    seq<byte>(|m|, j requires 0 <= j < |m| => StoredByte(m, p, bs, j))
  }

  /** What a store does, in the window of one ring length that starts at `b` and holds what is stored. */
  lemma StoreAt(m: Mem, p: int, bs: seq<byte>, b: int, x: int)
    requires b <= p && p + |bs| <= b + |m| && b <= x < b + |m|
    ensures At(Store(m, p, bs), x) == if p <= x < p + |bs| then bs[x - p] else At(m, x)
  {
    WrapAdd(x, -p, |m|);
    if x < p {
      WrapShift(x - p, |m|);
    }
  }

  /** Stores only depend on the offset into the region. */
  lemma StoreOffset(m: Mem, p: int, bs: seq<byte>)
    ensures Store(m, Wrap(p, |m|), bs) == Store(m, p, bs)
  {
    forall j | 0 <= j < |m| ensures StoredByte(m, Wrap(p, |m|), bs, j) == StoredByte(m, p, bs, j) {
      WrapSub(j, p, |m|);
    }
  }

  lemma AtOffset(m: Mem, p: int, k: int)
    ensures At(m, Wrap(p, |m|) + k) == At(m, p + k)
  {
    WrapAdd(p, k, |m|);
  }

  lemma HeaderOffset(m: Mem, p: int)
    ensures HeaderAt(m, Wrap(p, |m|)) == HeaderAt(m, p)
  {
    AtOffset(m, p, 0); AtOffset(m, p, 1); AtOffset(m, p, 2); AtOffset(m, p, 3);
    AtOffset(m, p, 4); AtOffset(m, p, 5); AtOffset(m, p, 6); AtOffset(m, p, 7);
  }

  lemma Digits4(v: nat)
    requires v < U32
    ensures v % 256 + 256 * (v / 256 % 256) + 0x1_0000 * (v / 0x1_0000 % 256) + 0x100_0000 * (v / 0x100_0000 % 256) == v
  {
    var v1, v2, v3 := v / 256, v / 0x1_0000, v / 0x100_0000;
    assert v2 == v1 / 256 && v3 == v2 / 256 && v3 < 256;
  }

  /** Reading a header back where it was stored. */
  lemma StoredHeader(m: Mem, p: int, h: Header)
    requires |m| >= HEADER_SIZE && Fits(h)
    ensures HeaderAt(Store(m, p, HeaderBytes(h)), p) == h
  {
    var bs := HeaderBytes(h);
    StoreAt(m, p, bs, p, p); StoreAt(m, p, bs, p, p + 1); StoreAt(m, p, bs, p, p + 2); StoreAt(m, p, bs, p, p + 3);
    StoreAt(m, p, bs, p, p + 4); StoreAt(m, p, bs, p, p + 5); StoreAt(m, p, bs, p, p + 6); StoreAt(m, p, bs, p, p + 7);
    Digits4(h.asize);
  }

  /** Storing a status word changes the status of that header only. */
  lemma StoredStatus(m: Mem, p: int, status: nat)
    requires |m| >= HEADER_SIZE && status < U16
    ensures HeaderAt(Store(m, p + 6, StatusBytes(status)), p) == HeaderAt(m, p).(status := status)
  {
    var bs := StatusBytes(status);
    StoreAt(m, p + 6, bs, p, p); StoreAt(m, p + 6, bs, p, p + 1); StoreAt(m, p + 6, bs, p, p + 2);
    StoreAt(m, p + 6, bs, p, p + 3); StoreAt(m, p + 6, bs, p, p + 4); StoreAt(m, p + 6, bs, p, p + 5);
    StoreAt(m, p + 6, bs, p, p + 6); StoreAt(m, p + 6, bs, p, p + 7);
  }

  /** A store leaves alone every header and every piece of data elsewhere in the window from `b` on. */
  lemma StoreElsewhere(m: Mem, p: int, bs: seq<byte>, b: int, x: int, n: nat)
    requires b <= p && p + |bs| <= b + |m| && b <= x && x + n <= b + |m|
    requires x + n <= p || p + |bs| <= x
    ensures DataAt(Store(m, p, bs), x, n) == DataAt(m, x, n)
    ensures n >= HEADER_SIZE ==> HeaderAt(Store(m, p, bs), x) == HeaderAt(m, x)
  {
    var m' := Store(m, p, bs);
    forall k | 0 <= k < n ensures DataAt(m', x, n)[k] == DataAt(m, x, n)[k] {
      StoreAt(m, p, bs, b, x + k);
    }
    if n >= HEADER_SIZE {
      StoreAt(m, p, bs, b, x); StoreAt(m, p, bs, b, x + 1); StoreAt(m, p, bs, b, x + 2); StoreAt(m, p, bs, b, x + 3);
      StoreAt(m, p, bs, b, x + 4); StoreAt(m, p, bs, b, x + 5); StoreAt(m, p, bs, b, x + 6); StoreAt(m, p, bs, b, x + 7);
    }
  }
}
