/** The ring buffer without the double mapping: elements that would wrap are replaced by tombstones and put again at the
    beginning.  A step system over elements; how their headers lie in memory is the subject of RingLayout. */
module TombstoneRing {
  import opened Modular
  import opened RingLayout

  /** An element: its sizes and its status flags. */
  datatype Element = Element(usize: nat, asize: nat, tombstone: bool, owner: bool, ready: bool, done: bool)

  /** A put between the rounds of its retry loop; `owner` once it has left a tombstone.  A round of a put or get that
      is not its last has no result. */
  datatype Put = NoPut | Trying(usize: nat, asize: nat, owner: bool)

  datatype Result = NoResult | Invalid | Full | Placed(i: nat) | Empty | NotReady | Got(i: nat)

  /** `elems` are all elements ever put and `starts` the absolute positions of their headers and of the next one; the
      first `reaped` are reclaimed and the first `got` passed by gets.  In a done-only ring nobody calls get. */
  datatype State = State(
    size: nat, align: nat, doneOnly: bool, elems: seq<Element>, starts: seq<nat>, reaped: nat, got: nat, put: Put,
    result: Result)

  datatype Action = BeginPut(usize: nat, asize: nat) | TryPut | GetStep | SetReady(i: nat) | SetDone(i: nat)

  predicate Shaped(s: State) {
    |s.starts| == |s.elems| + 1 && s.reaped <= |s.elems| && s.size > 0 && s.align > 0
  }

  /** The offset of header `i`, or of the next header to come. */
  function Off(s: State, i: nat): nat
    requires Shaped(s) && i <= |s.elems|
  {
    Wrap(s.starts[i], s.size)
  }

  /** free_space_size, which RingInvariant.FreeSpaceExact shows to be exact. */
  predicate Fits(s: State, reaped: nat, asize: nat)
    requires Shaped(s) && reaped <= |s.elems|
  {
    s.starts[|s.elems|] - s.starts[reaped] + asize + HEADER_SIZE + 1 <= s.size
  }

  /** The first element from `i` on, up to `limit`, that is not done. */
  function DoneUpTo(elems: seq<Element>, i: nat, limit: nat): (k: nat)
    requires i <= limit <= |elems|
    ensures i <= k <= limit
    ensures forall j {:trigger elems[j]} :: i <= j < k ==> elems[j].done
    ensures k < limit ==> !elems[k].done
    decreases limit - i
  {
    if i < limit && elems[i].done then DoneUpTo(elems, i + 1, limit) else i
  }

  /** _secure_free_space: reclaims up to tail, then up to head, as far as needed. */
  function Reclaimed(s: State, asize: nat): (k: nat)
    requires Shaped(s)
    ensures s.reaped <= k <= |s.elems|
    ensures forall j {:trigger s.elems[j]} :: s.reaped <= j < k ==> s.elems[j].done
  {
    if Fits(s, s.reaped, asize) then s.reaped
    else
      var k := if s.reaped <= s.got <= |s.elems| then DoneUpTo(s.elems, s.reaped, s.got) else s.reaped;
      if Fits(s, k, asize) then k else DoneUpTo(s.elems, s.reaped, |s.elems|)
  }

  function WithReclaimed(s: State, k: nat): State {
    s.(reaped := k, got := if s.doneOnly then k else s.got)
  }

  function Appended(s: State, e: Element, put: Put, result: Result): State
    requires |s.starts| == |s.elems| + 1
  {
    s.(elems := s.elems + [e], starts := s.starts + [s.starts[|s.elems|] + e.asize], put := put, result := result)
  }

  /** One round of __ring_buffer_put: the request fails, leaves a tombstone and tries again, or is placed. */
  function Tried(s: State): State
    requires s.put.Trying? && Shaped(s)
  {
    var Trying(usize, asize, owner) := s.put;
    var k := Reclaimed(s, asize);
    var s1, n := WithReclaimed(s, k), |s.elems|;
    if !Fits(s, k, asize) then
      s1.(put := NoPut, result := Full)
    else if Wrap(s.starts[n] + asize, s.size) < Off(s, n) then
      Appended(s1, Element(usize, asize, true, false, true, false), Trying(usize, asize, true), NoResult)
    else
      Appended(s1, Element(usize, asize, false, owner, false, false), NoPut, Placed(n))
  }

  /** One round of __ring_buffer_get: it skips a tombstone and makes it reclaimable, or hands out an element, which
      then owns no tombstone any more. */
  function GetRound(s: State): State {
    if s.got >= |s.elems| then s.(result := Empty)
    else
      var e := s.elems[s.got];
      if !e.ready then s.(result := NotReady)
      else if e.tombstone then s.(elems := s.elems[s.got := e.(done := true)], got := s.got + 1, result := NoResult)
      else s.(elems := s.elems[s.got := e.(owner := false)], got := s.got + 1, result := Got(s.got))
  }

  /** The offset at which ring_buffer_elm_set_done looks for the tombstone of element `i`. */
  function TombstoneOffset(s: State, i: nat): int
    requires Shaped(s) && i < |s.elems|
  {
    s.size - (s.elems[i].asize - Off(s, i))
  }

  /** ring_buffer_elm_set_done: of a tombstone's owner it also releases the tombstone. */
  function DoneSet(s: State, i: nat): State
    requires i < |s.elems|
  {
    var e := s.elems[i];
    var elems := s.elems[i := e.(owner := false, done := true)];
    if e.owner && i > 0 then s.(elems := elems[i - 1 := elems[i - 1].(done := true)]) else s.(elems := elems)
  }

  predicate CanAct(s: State, a: Action) {
    && Shaped(s)
    && match a
       case BeginPut(usize, asize) =>
         s.put == NoPut && usize + HEADER_SIZE <= asize < usize + HEADER_SIZE + s.align && Wrap(asize, s.align) == 0
       case TryPut => s.put.Trying?
       case GetStep => !s.doneOnly
       case SetReady(i) => i < |s.elems| && !s.elems[i].ready && !s.elems[i].tombstone
       case SetDone(i) => i < |s.elems| && s.elems[i].ready && !s.elems[i].done && !s.elems[i].tombstone && (s.doneOnly || i < s.got)
  }

  function Act(s: State, a: Action): State
    requires CanAct(s, a)
  {
    match a
    case BeginPut(usize, asize) =>
      if s.size < asize then s.(result := Invalid) else s.(put := Trying(usize, asize, false), result := NoResult)
    case TryPut => Tried(s)
    case GetStep => GetRound(s)
    case SetReady(i) => s.(elems := s.elems[i := s.elems[i].(ready := true)])
    case SetDone(i) => DoneSet(s, i)
  }

  // ---- What every step keeps.

  /** Header `i` and its size: aligned, and a tombstone exactly if it does not lie inside the ring in one piece. */
  predicate ElementOk(size: nat, align: nat, start: nat, e: Element)
    requires size > 0 && align > 0
  {
    && Wrap(e.asize, align) == 0 && HEADER_SIZE <= e.asize < size
    && (e.tombstone <==> Wrap(start, size) + e.asize >= size)
    && (e.tombstone ==> !e.owner && e.ready)
  }

  ghost predicate Chain(s: State) {
    && Shaped(s) && HEADER_SIZE < s.align && Wrap(s.size, s.align) == 0 && s.size > HEADER_SIZE
    && (forall i {:trigger s.elems[i]} :: 0 <= i < |s.elems| ==>
          s.starts[i + 1] == s.starts[i] + s.elems[i].asize && ElementOk(s.size, s.align, s.starts[i], s.elems[i]))
    && (forall i {:trigger s.starts[i]} :: 0 <= i < |s.starts| ==> Wrap(s.starts[i] + HEADER_SIZE, s.align) == 0)
    && s.starts[|s.elems|] - s.starts[s.reaped] + HEADER_SIZE + 1 <= s.size
  }

  /** Element `i`, if it owns a tombstone, is not done, comes right behind it and is as long; in a done-only ring the tombstone is
      not done. */
  predicate OwnerOk(elems: seq<Element>, doneOnly: bool, i: nat)
    requires i < |elems|
  {
    elems[i].owner ==>
      i > 0 && !elems[i].done && elems[i - 1].tombstone && elems[i - 1].asize == elems[i].asize && (doneOnly ==> !elems[i - 1].done)
  }

  ghost predicate Statuses(s: State)
    requires Shaped(s)
  {
    && s.got <= |s.elems| && (s.doneOnly ==> s.got == s.reaped) && (!s.doneOnly ==> s.reaped <= s.got)
    && (forall i {:trigger s.elems[i]} :: 0 <= i < s.reaped ==> s.elems[i].done)
    && (!s.doneOnly ==> forall i {:trigger s.elems[i]} :: 0 <= i < |s.elems| ==>
          if i < s.got then !s.elems[i].owner && (s.elems[i].tombstone ==> s.elems[i].done) else !s.elems[i].done)
    && (forall i {:trigger OwnerOk(s.elems, s.doneOnly, i)} :: 0 <= i < |s.elems| ==> OwnerOk(s.elems, s.doneOnly, i))
  }

  predicate LastIsTombstone(s: State, asize: nat) {
    s.elems != [] && s.elems[|s.elems| - 1].tombstone && s.elems[|s.elems| - 1].asize == asize
    && (s.doneOnly ==> !s.elems[|s.elems| - 1].done)
  }

  ghost predicate PutOk(s: State)
    requires s.align > 0
  {
    s.put.Trying? ==>
      Wrap(s.put.asize, s.align) == 0 && HEADER_SIZE <= s.put.asize <= s.size && (s.put.owner ==> LastIsTombstone(s, s.put.asize))
  }

  ghost predicate Inv(s: State) {
    Chain(s) && Statuses(s) && PutOk(s)
  }

  lemma {:induction false} Rising(s: State, i: nat, j: nat)
    requires Chain(s) && i <= j <= |s.elems|
    ensures s.starts[i] <= s.starts[j]
    ensures i < j ==> s.starts[i] + s.elems[i].asize <= s.starts[j]
    decreases j - i
  {
    hide ElementOk, Wrap;
    if i < j {
      assert s.starts[i + 1] == s.starts[i] + s.elems[i].asize;
      Rising(s, i + 1, j);
    }
  }

  lemma ReclaimInv(s: State, k: nat)
    requires Inv(s) && s.reaped <= k <= |s.elems| && forall j {:trigger s.elems[j]} :: s.reaped <= j < k ==> s.elems[j].done
    ensures Inv(WithReclaimed(s, k))
  {
    hide ElementOk, Wrap, OwnerOk;
    Rising(s, s.reaped, k);
    if !s.doneOnly && s.got < |s.elems| { assert !s.elems[s.got].done; }
  }

  /** The code's test whether an element would wrap. */
  lemma WrapsExactly(start: nat, asize: nat, size: nat)
    requires 0 < asize < size
    ensures Wrap(start + asize, size) < Wrap(start, size) <==> Wrap(start, size) + asize >= size
  {
    WrapDifference(start, asize, size);
  }

  lemma AppendChain(s: State, e: Element, put: Put, result: Result)
    requires Chain(s) && ElementOk(s.size, s.align, s.starts[|s.elems|], e) && Fits(s, s.reaped, e.asize)
    ensures Chain(Appended(s, e, put, result))
  {
    hide ElementOk;
    var s', n := Appended(s, e, put, result), |s.elems|;
    NextAligned(s, e);
    forall i | 0 <= i < |s'.elems|
      ensures s'.starts[i + 1] == s'.starts[i] + s'.elems[i].asize && ElementOk(s'.size, s'.align, s'.starts[i], s'.elems[i])
    {
      if i < n { assert s'.elems[i] == s.elems[i]; }
    }
  }

  lemma NextAligned(s: State, e: Element)
    requires Chain(s) && ElementOk(s.size, s.align, s.starts[|s.elems|], e)
    ensures Wrap(s.starts[|s.elems|] + e.asize + HEADER_SIZE, s.align) == 0
  {
    WrapAdd(s.starts[|s.elems|] + HEADER_SIZE, e.asize, s.align);
  }

  lemma AppendStatuses(s: State, e: Element, put: Put, result: Result)
    requires Shaped(s) && Statuses(s) && !e.done && (e.owner ==> LastIsTombstone(s, e.asize))
    ensures Statuses(Appended(s, e, put, result))
  {
    var s', n := Appended(s, e, put, result), |s.elems|;
    forall i | 0 <= i < |s'.elems| ensures OwnerOk(s'.elems, s'.doneOnly, i) {
      if i < n {
        assert OwnerOk(s.elems, s.doneOnly, i);
        assert s'.elems[i] == s.elems[i];
        if i > 0 { assert s'.elems[i - 1] == s.elems[i - 1]; }
      }
    }
  }

  lemma TriedInv(s: State)
    requires Inv(s) && s.put.Trying?
    ensures Inv(Tried(s))
  {
    hide Wrap, ElementOk;
    var Trying(usize, asize, owner) := s.put;
    var k := Reclaimed(s, asize);
    var s1, n := WithReclaimed(s, k), |s.elems|;
    ReclaimInv(s, k);
    if Fits(s, k, asize) {
      Rising(s, k, n);
      WrapsExactly(s.starts[n], asize, s.size);
      if Wrap(s.starts[n] + asize, s.size) < Off(s, n) {
        TombstoneInv(s1, usize, asize);
      } else {
        PlacedInv(s1, usize, asize, owner);
      }
    }
  }

  lemma TombstoneInv(s: State, usize: nat, asize: nat)
    requires Inv(s) && s.put.Trying? && s.put.asize == asize && Fits(s, s.reaped, asize)
    requires asize < s.size && Wrap(s.starts[|s.elems|], s.size) + asize >= s.size
    ensures Inv(Appended(s, Element(usize, asize, true, false, true, false), Trying(usize, asize, true), NoResult))
  {
    hide Wrap;
    var e := Element(usize, asize, true, false, true, false);
    AppendChain(s, e, Trying(usize, asize, true), NoResult);
    AppendStatuses(s, e, Trying(usize, asize, true), NoResult);
  }

  lemma PlacedInv(s: State, usize: nat, asize: nat, owner: bool)
    requires Inv(s) && s.put.Trying? && s.put.asize == asize && s.put.owner == owner && Fits(s, s.reaped, asize)
    requires asize < s.size && Wrap(s.starts[|s.elems|], s.size) + asize < s.size
    ensures Inv(Appended(s, Element(usize, asize, false, owner, false, false), NoPut, Placed(|s.elems|)))
  {
    hide Wrap;
    var e := Element(usize, asize, false, owner, false, false);
    AppendChain(s, e, NoPut, Placed(|s.elems|));
    AppendStatuses(s, e, NoPut, Placed(|s.elems|));
  }

  /** Changing the flags of an element. */
  lemma FlagsChain(s: State, i: nat, e: Element)
    requires Chain(s) && i < |s.elems| && e == s.elems[i].(owner := e.owner, ready := e.ready, done := e.done)
    requires e.tombstone ==> !e.owner && e.ready
    ensures Chain(s.(elems := s.elems[i := e]))
  {
    hide Wrap;
  }

  lemma TombstoneFlags(s: State, i: nat)
    requires Chain(s) && i < |s.elems| && s.elems[i].tombstone
    ensures !s.elems[i].owner && s.elems[i].ready
  {
    assert ElementOk(s.size, s.align, s.starts[i], s.elems[i]);
  }

  lemma GetRoundInv(s: State)
    requires Inv(s) && !s.doneOnly
    ensures Inv(GetRound(s))
  {
    hide Wrap;
    if s.got < |s.elems| && s.elems[s.got].ready {
      var e := s.elems[s.got];
      var e' := if e.tombstone then e.(done := true) else e.(owner := false);
      FlagsChain(s, s.got, e');
      var elems := s.elems[s.got := e'];
      forall i | 0 <= i < |elems| ensures OwnerOk(elems, false, i) {
        assert OwnerOk(s.elems, false, i);
      }
    }
  }

  lemma SetReadyInv(s: State, i: nat)
    requires Inv(s) && CanAct(s, SetReady(i))
    ensures Inv(Act(s, SetReady(i)))
  {
    hide Wrap;
    var elems := s.elems[i := s.elems[i].(ready := true)];
    FlagsChain(s, i, s.elems[i].(ready := true));
    forall j | 0 <= j < |elems| ensures OwnerOk(elems, s.doneOnly, j) {
      assert OwnerOk(s.elems, s.doneOnly, j);
    }
  }

  lemma SetDoneInv(s: State, i: nat)
    requires Inv(s) && CanAct(s, SetDone(i))
    ensures Inv(DoneSet(s, i))
  {
    hide Wrap, ElementOk;
    assert OwnerOk(s.elems, s.doneOnly, i);
    var e := s.elems[i].(owner := false, done := true);
    FlagsChain(s, i, e);
    var s1 := s.(elems := s.elems[i := e]);
    if s.elems[i].owner {
      TombstoneFlags(s, i - 1);
      FlagsChain(s1, i - 1, s1.elems[i - 1].(done := true));
    }
    var elems := DoneSet(s, i).elems;
    forall j | 0 <= j < |elems| ensures OwnerOk(elems, s.doneOnly, j) {
      assert OwnerOk(s.elems, s.doneOnly, j);
    }
  }

  lemma ActInv(s: State, a: Action)
    requires Inv(s) && CanAct(s, a)
    ensures Inv(Act(s, a))
  {
    match a
    case BeginPut(_, _) => hide Wrap, ElementOk;
    case TryPut => hide Inv, Tried; TriedInv(s);
    case GetStep => hide Inv, GetRound; GetRoundInv(s);
    case SetReady(i) => hide Inv; SetReadyInv(s, i);
    case SetDone(i) => hide Inv, DoneSet; SetDoneInv(s, i);
  }

  ghost predicate Runs(s: State, actions: seq<Action>, s': State)
    decreases |actions|
  {
    if actions == [] then s' == s else CanAct(s, actions[0]) && Runs(Act(s, actions[0]), actions[1..], s')
  }

  lemma {:induction false} RunInv(s: State, actions: seq<Action>, s': State)
    requires Inv(s) && Runs(s, actions, s')
    ensures Inv(s')
    decreases |actions|
  {
    hide Inv, Act;
    if actions != [] {
      ActInv(s, actions[0]);
      RunInv(Act(s, actions[0]), actions[1..], s');
    }
  }

  /** What ring_buffer_create leaves behind: whole pages, and the first header just before an aligned address of
      the first page. */
  ghost predicate Created(s: State) {
    && HEADER_SIZE < s.align <= PAGE_SIZE <= s.size && s.size % s.align == 0
    && (exists start {:trigger [start]} :: s.starts == [start] && (start + HEADER_SIZE) % s.align == 0 && start + HEADER_SIZE <= PAGE_SIZE)
    && s.elems == [] && s.reaped == s.got == 0 && s.put == NoPut
  }

  lemma CreatedInv(s: State)
    requires Created(s)
    ensures Inv(s)
  {
    WrapIsMod(s.size, s.align);
    WrapIsMod(s.starts[0] + HEADER_SIZE, s.align);
  }

  ghost predicate Reachable(s: State) {
    exists s0, actions :: Created(s0) && Runs(s0, actions, s)
  }

  /** The main results below start from Inv, which holds after every run of any puts, gets and owners. */
  lemma ReachableInv(s: State)
    requires Reachable(s)
    ensures Inv(s)
  {
    var s0, actions :| Created(s0) && Runs(s0, actions, s);
    CreatedInv(s0);
    RunInv(s0, actions, s);
  }

  // ---- Main results.

  /** Every element that is not a tombstone lies inside the ring in one piece, its header and its data; and even a
      tombstone's header does. */
  lemma ElementsInOnePiece(s: State, i: nat)
    requires Inv(s) && i < |s.elems|
    ensures !s.elems[i].tombstone ==> Off(s, i) + s.elems[i].asize < s.size
    ensures Off(s, i) + HEADER_SIZE <= s.size
  {
    HeaderInside(s.starts[i], s.size, s.align);
  }

  lemma HeaderInside(start: nat, size: nat, align: nat)
    requires size > 0 && HEADER_SIZE < align && Wrap(size, align) == 0 && Wrap(start + HEADER_SIZE, align) == 0
    ensures Wrap(start, size) + HEADER_SIZE <= size
  {
    hide Wrap;
    WrapIsMod(size, align);
    WrapIsMod(start + HEADER_SIZE, align);
    WrapAligned(start, size, align);
    ModAdd(start, Wrap(start, size), HEADER_SIZE, align);
    MultipleBelow(Wrap(start, size) + HEADER_SIZE, size, align);
  }

  /** The address that set_done computes from an owner is that of its tombstone's header. */
  lemma OwnerFindsTombstone(s: State, i: nat)
    requires Inv(s) && i < |s.elems| && s.elems[i].owner
    ensures i > 0 && s.elems[i - 1].tombstone && TombstoneOffset(s, i) == Off(s, i - 1)
  {
    assert OwnerOk(s.elems, s.doneOnly, i);
    var e := s.elems[i - 1];
    assert s.starts[i] == s.starts[i - 1] + e.asize;
    WrapDifference(s.starts[i - 1], e.asize, s.size);
  }

  /** A round that leaves a tombstone lets the offset of head fall strictly. */
  lemma RetryFalls(s: State)
    requires Inv(s) && s.put.Trying? && Tried(s).put.Trying?
    ensures Shaped(Tried(s)) && |Tried(s).elems| == |s.elems| + 1 && Off(Tried(s), |s.elems| + 1) < Off(s, |s.elems|)
  {
  }

  /** How many rounds of its retry loop the put in progress takes during `actions`. */
  function Rounds(actions: seq<Action>): nat {
    if actions == [] then 0 else (if actions[0].TryPut? then 1 else 0) + Rounds(actions[1..])
  }

  /** One put is in progress all along the run. */
  ghost predicate KeepsTrying(s: State, actions: seq<Action>)
    decreases |actions|
  {
    s.put.Trying? && (actions != [] ==> CanAct(s, actions[0]) && KeepsTrying(Act(s, actions[0]), actions[1..]))
  }

  /** The retry loop of a put ends: whatever gets and owners of elements do between its rounds, it tries again at most
      as many times as its first header offset counts bytes. */
  lemma {:induction false} RetriesAreBounded(s: State, actions: seq<Action>)
    requires Inv(s) && KeepsTrying(s, actions)
    ensures Rounds(actions) <= Off(s, |s.elems|)
    decreases |actions|
  {
    if actions != [] {
      var a := actions[0];
      var s' := Act(s, a);
      ActInv(s, a);
      TryingFalls(s, a);
      RetriesAreBounded(s', actions[1..]);
    }
  }

  lemma TryingFalls(s: State, a: Action)
    requires Inv(s) && CanAct(s, a) && s.put.Trying? && Act(s, a).put.Trying? && Shaped(Act(s, a))
    ensures Off(Act(s, a), |Act(s, a).elems|) + (if a.TryPut? then 1 else 0) <= Off(s, |s.elems|)
  {
    hide Wrap, ElementOk;
    if a.TryPut? {
      RetryFalls(s);
    } else {
      assert |Act(s, a).elems| == |s.elems| && Act(s, a).starts == s.starts;
    }
  }

  /** While no get passes the tombstone that a put has left, the put leaves no second one, whatever else is reclaimed
      or set done between its rounds. */
  lemma OneTombstone(s: State)
    requires Inv(s) && s.put.Trying? && s.put.owner && !s.elems[|s.elems| - 1].done
    ensures Tried(s).put == NoPut
    ensures Tried(s).result == Full || (Tried(s).result == Placed(|s.elems|) && Tried(s).elems[|s.elems|].owner)
  {
    hide Wrap, ElementOk;
    var n, asize, k := |s.elems|, s.put.asize, Reclaimed(s, s.put.asize);
    assert s.elems[n - 1].tombstone && s.starts[n] == s.starts[n - 1] + asize;
    TombstoneWraps(s, n - 1);
    Rising(s, k, n - 1);
    if 2 * asize < s.size { SecondLap(s.starts[n - 1], asize, s.size); }
  }

  lemma TombstoneWraps(s: State, i: nat)
    requires Chain(s) && i < |s.elems| && s.elems[i].tombstone
    ensures Wrap(s.starts[i], s.size) + s.elems[i].asize >= s.size && s.elems[i].asize >= HEADER_SIZE
  {
    assert ElementOk(s.size, s.align, s.starts[i], s.elems[i]);
  }

  /** Twice in a row, less than half a ring wraps around at most once. */
  lemma SecondLap(start: nat, asize: nat, size: nat)
    requires 0 < 2 * asize < size && Wrap(start, size) + asize >= size
    ensures Wrap(start + asize + asize, size) >= Wrap(start + asize, size)
  {
    WrapDifference(start, asize, size);
    WrapDifference(start + asize, asize, size);
  }

  // ---- Tombstones that nobody releases.

  /** A tombstone that is not done, and that neither the next element nor the put in progress owns. */
  predicate Orphan(s: State, i: nat) {
    && i < |s.elems| && s.elems[i].tombstone && !s.elems[i].done
    && (i + 1 < |s.elems| ==> !s.elems[i + 1].owner)
    && (i + 1 == |s.elems| ==> !(s.put.Trying? && s.put.owner))
  }

  /** In a done-only ring an orphan stays one, and nothing from it on is ever reclaimed. */
  lemma {:induction false} OrphanForever(s: State, actions: seq<Action>, s': State, i: nat)
    requires Inv(s) && s.doneOnly && Orphan(s, i) && Runs(s, actions, s')
    ensures Orphan(s', i) && s'.reaped <= i
    decreases |actions|
  {
    hide Inv, Act, Orphan;
    if actions == [] {
      NotReclaimed(s, i);
    } else {
      ActInv(s, actions[0]);
      OrphanStays(s, actions[0], i);
      OrphanForever(Act(s, actions[0]), actions[1..], s', i);
    }
  }

  lemma NotReclaimed(s: State, i: nat)
    requires Inv(s) && Orphan(s, i)
    ensures s.reaped <= i
  {
    assert !s.elems[i].done;
  }

  lemma OrphanStays(s: State, a: Action, i: nat)
    requires Inv(s) && s.doneOnly && Orphan(s, i) && CanAct(s, a)
    ensures Act(s, a).doneOnly && Orphan(Act(s, a), i)
  {
    hide Wrap, ElementOk;
    if a.SetDone? { assert OwnerOk(s.elems, s.doneOnly, a.i); }
  }

  /** A tombstone becomes an orphan exactly when the put that left it runs out of space in its next round. */
  lemma OrphanedExactly(s: State, a: Action, i: nat)
    requires Inv(s) && s.doneOnly && CanAct(s, a) && !Orphan(s, i)
    ensures Orphan(Act(s, a), i) <==>
              a == TryPut && s.put.owner && i + 1 == |s.elems| && !Fits(s, Reclaimed(s, s.put.asize), s.put.asize)
  {
    hide Wrap, ElementOk;
    if a.SetDone? { assert OwnerOk(s.elems, s.doneOnly, a.i); }
    if s.put.Trying? && s.put.owner { OneTombstone(s); }
  }

  /** It happens: on a fresh done-only ring of 4096 bytes whose first header lies at 2040, a put of 2100 bytes leaves a
      tombstone, fails for want of space, and the ring has lost 2112 bytes for good. */
  lemma LostSpace()
    ensures var s0 := State(4096, 64, true, [], [2040], 0, 0, NoPut, NoResult);
            exists s :: Created(s0) && Runs(s0, [BeginPut(2100, 2112), TryPut, TryPut], s) && s.result == Full && Orphan(s, 0)
  {
    var s0 := State(4096, 64, true, [], [2040], 0, 0, NoPut, NoResult);
    WrapIsMod(2112, 64); WrapIsMod(4096, 64); WrapIsMod(2048, 64);
    WrapIsMod(2040, 4096); WrapIsMod(4152, 4096);
    var s1 := Act(s0, BeginPut(2100, 2112));
    var s2 := Act(s1, TryPut);
    assert s2.elems == [Element(2100, 2112, true, false, true, false)] && s2.starts == [2040, 4152];
    var s3 := Act(s2, TryPut);
    assert s3.result == Full && Orphan(s3, 0);
    assert Runs(s3, [], s3);
    assert Runs(s2, [TryPut], s3);
    assert Runs(s1, [TryPut, TryPut], s3);
    assert Runs(s0, [BeginPut(2100, 2112), TryPut, TryPut], s3);
  }
}
