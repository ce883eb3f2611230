/**
 The fixed-capacity ring queue over one byte pool. Indices are computed in 32-bit unsigned
 arithmetic, as the library computes them; the queue is proved to be a bounded first-in first-out
 sequence of elements at exactly the sizes for which that arithmetic does not wrap.
 */
module RingQueue {
  import opened Wrappers
  import opened Protocol

  datatype Status = Success | QueueFull | QueueEmpty

  type Element = seq<U8>

  /** Unsigned 32-bit wrap-around. */
  function Wrap32(x: nat): nat {
    x % 0x1_0000_0000
  }

  /** The byte offset of the slot `distance` places after the head, as the library computes it. */
  function Offset32(head: nat, distance: nat, capacity: nat, elementSize: nat): nat
    requires capacity > 0
  {
    Wrap32((Wrap32(head + distance) % capacity) * elementSize)
  }

  /** The slot `distance` places after the head, going round once. */
  function Position(head: nat, distance: nat, capacity: nat): nat {
    if head + distance < capacity then head + distance else head + distance - capacity
  }

  /** Where slot `i` starts: `i` elements into the pool. */
  function SlotStart(i: nat, elementSize: nat): nat {
    if i == 0 then 0 else SlotStart(i - 1, elementSize) + elementSize
  }

  lemma {:induction false} SlotStartIsProduct(i: nat, elementSize: nat)
    ensures SlotStart(i, elementSize) == i * elementSize
  {
    if i > 0 {
      SlotStartIsProduct(i - 1, elementSize);
      assert (i - 1) * elementSize + elementSize == i * elementSize;
    } else {
      assert i * elementSize == 0;
    }
  }

  lemma {:induction false} SlotStartMonotone(i: nat, j: nat, elementSize: nat)
    requires i <= j
    ensures SlotStart(i, elementSize) <= SlotStart(j, elementSize)
    decreases j
  {
    if i < j {
      SlotStartMonotone(i, j - 1, elementSize);
    }
  }

  /** Sizes at which no 32-bit computation of the queue wraps. */
  predicate ExactSizes(capacity: nat, elementSize: nat) {
    && 0 < capacity <= 0x8000_0000
    && 0 < elementSize
    && SlotStart(capacity - 1, elementSize) < 0x1_0000_0000
  }

  lemma ModOnce(a: nat, b: nat)
    requires b <= a < 2 * b
    ensures a % b == a - b
  {
    assert a == 1 * b + (a - b);
    assert a / b == 1;
  }

  lemma PositionIsModulo(head: nat, distance: nat, capacity: nat)
    requires head < capacity && distance < capacity
    ensures (head + distance) % capacity == Position(head, distance, capacity) < capacity
  {
    if head + distance >= capacity {
      ModOnce(head + distance, capacity);
    }
  }

  ghost predicate OffsetAgrees(head: nat, distance: nat, capacity: nat, elementSize: nat)
    requires capacity > 0
  {
    Offset32(head, distance, capacity, elementSize) == SlotStart(Position(head, distance, capacity), elementSize)
  }

  lemma OffsetsExact(head: nat, distance: nat, capacity: nat, elementSize: nat)
    requires ExactSizes(capacity, elementSize)
    requires head < capacity && distance < capacity
    ensures OffsetAgrees(head, distance, capacity, elementSize)
  {
    var i := Position(head, distance, capacity);
    PositionIsModulo(head, distance, capacity);
    SlotStartIsProduct(i, elementSize);
    SlotStartMonotone(i, capacity - 1, elementSize);
  }

  lemma LastSlotWraps(capacity: nat, elementSize: nat)
    requires 0 < capacity < 0x1_0000_0000
    requires SlotStart(capacity - 1, elementSize) >= 0x1_0000_0000
    ensures !OffsetAgrees(capacity - 1, 0, capacity, elementSize)
  {
  }

  lemma SumWraps(capacity: nat, elementSize: nat)
    requires 0x8000_0000 < capacity < 0x1_0000_0000 && 0 < elementSize
    ensures !OffsetAgrees(capacity - 1, 0x1_0000_0001 - capacity, capacity, elementSize)
  {
    var distance := 0x1_0000_0001 - capacity;
    assert Wrap32(capacity - 1 + distance) == 0;
    assert Offset32(capacity - 1, distance, capacity, elementSize) == 0;
    SlotStartMonotone(1, Position(capacity - 1, distance, capacity), elementSize);
    assert SlotStart(1, elementSize) == SlotStart(0, elementSize) + elementSize;
  }

  /** Exactly these sizes are safe: at any other, some slot is addressed wrongly. */
  lemma OffsetsExactIff(capacity: nat, elementSize: nat)
    requires 0 < capacity < 0x1_0000_0000 && 0 < elementSize < 0x1_0000_0000
    ensures ExactSizes(capacity, elementSize)
       <==> forall head: nat, distance: nat :: head < capacity && distance < capacity
                                            ==> OffsetAgrees(head, distance, capacity, elementSize)
  {
    if ExactSizes(capacity, elementSize) {
      forall head: nat, distance: nat | head < capacity && distance < capacity
        ensures OffsetAgrees(head, distance, capacity, elementSize)
      {
        OffsetsExact(head, distance, capacity, elementSize);
      }
    } else if SlotStart(capacity - 1, elementSize) >= 0x1_0000_0000 {
      LastSlotWraps(capacity, elementSize);
    } else {
      SumWraps(capacity, elementSize);
    }
  }

  // ---------- Contents of a pool ----------

  lemma SlotInPool(i: nat, capacity: nat, elementSize: nat)
    requires i < capacity
    ensures SlotStart(i, elementSize) + elementSize <= SlotStart(capacity, elementSize)
  {
    SlotStartMonotone(i + 1, capacity, elementSize);
  }

  /** The element in physical slot `i`. */
  function SlotBytes(pool: seq<U8>, i: nat, capacity: nat, elementSize: nat): (e: Element)
    requires i < capacity && |pool| == SlotStart(capacity, elementSize)
    ensures |e| == elementSize
  {
    SlotInPool(i, capacity, elementSize);
    pool[SlotStart(i, elementSize)..SlotStart(i, elementSize) + elementSize]
  }

  /** What a pool holds, oldest first. */
  ghost function ContentsOf(pool: seq<U8>, head: nat, length: nat, capacity: nat, elementSize: nat): (s: seq<Element>)
    requires head < capacity && length <= capacity && |pool| == SlotStart(capacity, elementSize)
    ensures |s| == length
  {
    seq(length, k requires 0 <= k < length => SlotBytes(pool, Position(head, k, capacity), capacity, elementSize))
  }

  /** The pool was written in slot `i` and nowhere else. */
  ghost predicate OnlySlotWritten(before: seq<U8>, after: seq<U8>, i: nat, elementSize: nat) {
    && |before| == |after|
    && forall p :: 0 <= p < |before| && !(SlotStart(i, elementSize) <= p < SlotStart(i, elementSize) + elementSize)
                   ==> after[p] == before[p]
  }

  lemma OtherSlotUnchanged(before: seq<U8>, after: seq<U8>, i: nat, j: nat, capacity: nat, elementSize: nat)
    requires i < capacity && j < capacity && i != j
    requires |before| == SlotStart(capacity, elementSize)
    requires OnlySlotWritten(before, after, i, elementSize)
    ensures SlotBytes(after, j, capacity, elementSize) == SlotBytes(before, j, capacity, elementSize)
  {
    if i < j {
      SlotStartMonotone(i + 1, j, elementSize);
    } else {
      SlotStartMonotone(j + 1, i, elementSize);
    }
    SlotInPool(j, capacity, elementSize);
  }

  /** Writing the slot after the last one appends; no element already held is touched. */
  lemma WriteAppends(before: seq<U8>, after: seq<U8>, head: nat, length: nat, capacity: nat, elementSize: nat)
    requires head < capacity && length < capacity && |before| == SlotStart(capacity, elementSize)
    requires OnlySlotWritten(before, after, Position(head, length, capacity), elementSize)
    ensures ContentsOf(after, head, length + 1, capacity, elementSize)
         == ContentsOf(before, head, length, capacity, elementSize)
            + [SlotBytes(after, Position(head, length, capacity), capacity, elementSize)]
  {
    var i := Position(head, length, capacity);
    forall k | 0 <= k < length
      ensures SlotBytes(after, Position(head, k, capacity), capacity, elementSize)
           == SlotBytes(before, Position(head, k, capacity), capacity, elementSize)
    {
      OtherSlotUnchanged(before, after, i, Position(head, k, capacity), capacity, elementSize);
    }
  }

  /** Writing the head slot replaces the oldest element and no other. */
  lemma WriteReplacesHead(before: seq<U8>, after: seq<U8>, head: nat, length: nat, capacity: nat, elementSize: nat)
    requires head < capacity && 0 < length <= capacity && |before| == SlotStart(capacity, elementSize)
    requires OnlySlotWritten(before, after, head, elementSize)
    ensures ContentsOf(after, head, length, capacity, elementSize)
         == ContentsOf(before, head, length, capacity, elementSize)[0 := SlotBytes(after, head, capacity, elementSize)]
  {
    forall k | 1 <= k < length
      ensures SlotBytes(after, Position(head, k, capacity), capacity, elementSize)
           == SlotBytes(before, Position(head, k, capacity), capacity, elementSize)
    {
      OtherSlotUnchanged(before, after, head, Position(head, k, capacity), capacity, elementSize);
    }
  }

  /** Part of a stretch was written. */
  lemma StretchOverwritten(before: seq<U8>, after: seq<U8>, from: nat, to: nat, at: nat, bytes: seq<U8>)
    requires from + at + |bytes| <= to <= |before| == |after|
    requires after[from + at..from + at + |bytes|] == bytes
    requires forall p :: 0 <= p < |before| && !(from + at <= p < from + at + |bytes|) ==> after[p] == before[p]
    ensures after[from..to] == Overwrite(before[from..to], at, bytes)
  {
    var middle := from + at + |bytes|;
    SameStretch(before, after, from, from + at);
    SameStretch(before, after, middle, to);
    ThreeStretches(after, from, from + at, middle, to);
    StretchEnds(before, from, from + at, middle, to);
  }

  lemma StretchEnds(b: seq<U8>, i: nat, j: nat, k: nat, l: nat)
    requires i <= j <= k <= l <= |b|
    ensures b[i..l][..j - i] == b[i..j] && b[i..l][k - i..] == b[k..l]
  {
  }

  lemma SameStretch(before: seq<U8>, after: seq<U8>, from: nat, to: nat)
    requires from <= to <= |before| == |after|
    requires forall p :: from <= p < to ==> after[p] == before[p]
    ensures after[from..to] == before[from..to]
  {
  }

  lemma ThreeStretches(b: seq<U8>, i: nat, j: nat, k: nat, l: nat)
    requires i <= j <= k <= l <= |b|
    ensures b[i..l] == b[i..j] + b[j..k] + b[k..l]
  {
  }

  /** Moving the head on drops the oldest element. */
  lemma AdvanceDropsHead(pool: seq<U8>, head: nat, length: nat, capacity: nat, elementSize: nat)
    requires head < capacity && 0 < length <= capacity && |pool| == SlotStart(capacity, elementSize)
    ensures ContentsOf(pool, head, length, capacity, elementSize)
         == [SlotBytes(pool, head, capacity, elementSize)]
            + ContentsOf(pool, Position(head, 1, capacity), length - 1, capacity, elementSize)
  {
    var next := Position(head, 1, capacity);
    assert forall k :: 0 <= k < length - 1 ==> Position(next, k, capacity) == Position(head, k + 1, capacity);
  }

  class Queue {
    const pool: array<U8>
    var head: nat
    var length: nat
    const capacity: nat
    const elementSize: nat

    ghost predicate Valid()
      reads this
    {
      && ExactSizes(capacity, elementSize)
      && pool.Length == SlotStart(capacity, elementSize)
      && head < capacity
      && length <= capacity
    }

    ghost function Contents(): (s: seq<Element>)
      requires Valid()
      reads this, pool
      ensures |s| == length
    {
      ContentsOf(pool[..], head, length, capacity, elementSize)
    }

    constructor (elementSize: nat, capacity: nat)
      ensures fresh(pool) && pool.Length == capacity * elementSize && head == 0 && length == 0
      ensures this.capacity == capacity && this.elementSize == elementSize
      ensures ExactSizes(capacity, elementSize) ==> Valid() && Contents() == []
    {
      SlotStartIsProduct(capacity, elementSize);
      this.capacity := capacity;
      this.elementSize := elementSize;
      pool := new U8[capacity * elementSize];
      head := 0;
      length := 0;
    }

    /** memcpy into the pool. */
    method CopyIn(offset: nat, bytes: seq<U8>)
      requires offset + |bytes| <= pool.Length
      modifies pool
      ensures pool[offset..offset + |bytes|] == bytes
      ensures forall p :: 0 <= p < pool.Length && !(offset <= p < offset + |bytes|) ==> pool[p] == old(pool[p])
    {
      for i := 0 to |bytes|
        invariant forall q :: offset <= q < offset + i ==> pool[q] == bytes[q - offset]
        invariant forall p :: 0 <= p < pool.Length && !(offset <= p < offset + i) ==> pool[p] == old(pool[p])
      {
        pool[offset + i] := bytes[i];
      }
    }

    /** Where the next element goes. */
    method TailAddress() returns (pointer: nat)
      requires Valid() && length < capacity
      ensures pointer == SlotStart(Position(head, length, capacity), elementSize)
      ensures Position(head, length, capacity) < capacity && pointer + elementSize <= pool.Length
    {
      OffsetsExact(head, length, capacity, elementSize);
      SlotInPool(Position(head, length, capacity), capacity, elementSize);
      pointer := Offset32(head, length, capacity, elementSize);
    }

    /** Appends a copy of the element, or a zeroed element if none is given. */
    method Push(element: Option<Element>) returns (status: Status)
      requires Valid()
      requires element.Some? ==> |element.value| == elementSize
      modifies this`length, pool
      ensures Valid()
      ensures status == if old(length) < capacity then Success else QueueFull
      ensures status.QueueFull? ==> Contents() == old(Contents())
      ensures status.Success? ==>
                Contents() == old(Contents()) + [if element.Some? then element.value else seq(elementSize, i => 0)]
    {
      if length >= capacity {
        return QueueFull;
      }
      var tail := TailAddress();
      ghost var before := pool[..];
      var bytes := if element.Some? then element.value else seq(elementSize, i => 0);
      CopyIn(tail, bytes);
      WriteAppends(before, pool[..], head, length, capacity, elementSize);
      length := length + 1;
      return Success;
    }

    /** Where the head lies in the pool. */
    method HeadAddress() returns (pointer: nat)
      requires Valid() && length > 0
      ensures pointer == SlotStart(head, elementSize) && pointer + elementSize <= pool.Length
    {
      HeadOffset(head, capacity, elementSize);
      SlotInPool(head, capacity, elementSize);
      pointer := Wrap32(head * elementSize);
    }

    method AdvanceHead()
      requires 0 < capacity <= 0x8000_0000 && head < capacity
      modifies this`head
      ensures head == Position(old(head), 1, capacity) < capacity
    {
      NextHead(head, capacity);
      head := Wrap32(head + 1) % capacity;
    }

    /** Removes the head, copying it out. */
    method Pop() returns (status: Status, element: Element)
      requires Valid()
      modifies this`head, this`length
      ensures Valid()
      ensures status == if old(length) > 0 then Success else QueueEmpty
      ensures status.QueueEmpty? ==> Contents() == old(Contents())
      ensures status.Success? ==> old(Contents()) == [element] + Contents()
    {
      if length == 0 {
        return QueueEmpty, [];
      }
      var source := HeadAddress();
      element := pool[source..source + elementSize];
      AdvanceDropsHead(pool[..], head, length, capacity, elementSize);
      AdvanceHead();
      length := length - 1;
      return Success, element;
    }

    /** A pointer into the pool is live while it addresses the head of a non-empty queue. */
    ghost predicate Live(pointer: nat)
      reads this
    {
      length > 0 && pointer == SlotStart(head, elementSize)
    }

    /** What a live pointer points to. */
    lemma LiveHoldsHead(pointer: nat)
      requires Valid() && Live(pointer)
      ensures pointer + elementSize <= pool.Length && pool[pointer..pointer + elementSize] == Contents()[0]
    {
      SlotInPool(head, capacity, elementSize);
    }

    /** The address of the head: the caller may read and write through it. */
    method Peek() returns (status: Status, pointer: nat)
      requires Valid()
      ensures status == if length > 0 then Success else QueueEmpty
      ensures status.Success? ==> Live(pointer) && pointer + elementSize <= pool.Length
      ensures status.Success? ==> pool[pointer..pointer + elementSize] == Contents()[0]
    {
      if length == 0 {
        return QueueEmpty, 0;
      }
      pointer := HeadAddress();
      return Success, pointer;
    }

    /** An edit through a live pointer changes that part of the head element and nothing else. */
    method WriteThrough(pointer: nat, at: nat, bytes: seq<U8>)
      requires Valid() && Live(pointer)
      requires at + |bytes| <= elementSize
      modifies pool
      ensures Valid() && Live(pointer)
      ensures |old(Contents())[0]| == elementSize
      ensures Contents() == old(Contents())[0 := Overwrite(old(Contents())[0], at, bytes)]
    {
      SlotInPool(head, capacity, elementSize);
      ghost var before := pool[..];
      CopyIn(pointer + at, bytes);
      WriteReplacesHead(before, pool[..], head, length, capacity, elementSize);
      StretchOverwritten(before, pool[..], pointer, pointer + elementSize, at, bytes);
    }
  }

  /**
   Allocation of a queue: no queue for a zero size or when memory runs out. Sizes at which the index arithmetic
   would wrap are not refused; the queue is a queue at the others.
   */
  method Init(elementSize: nat, capacity: nat, granted: bool) returns (q: Queue?)
    ensures q == null <==> elementSize == 0 || capacity == 0 || !granted
    ensures q != null ==> fresh(q) && fresh(q.pool) && q.pool.Length == capacity * elementSize && q.length == 0
    ensures q != null ==> q.capacity == capacity && q.elementSize == elementSize
    ensures q != null && ExactSizes(capacity, elementSize) ==> q.Valid() && q.Contents() == []
  {
    if elementSize == 0 || capacity == 0 || !granted {
      return null;
    }
    q := new Queue(elementSize, capacity);
  }

  /** A push while a pointer to the head is held: the pointer stays live, and the bytes behind it stay. */
  method PushWhilePeeked(q: Queue, pointer: nat, element: Option<Element>) returns (status: Status)
    requires q.Valid() && q.Live(pointer) && pointer + q.elementSize <= q.pool.Length
    requires element.Some? ==> |element.value| == q.elementSize
    modifies q`length, q.pool
    ensures q.Valid() && q.Live(pointer)
    ensures q.pool[pointer..pointer + q.elementSize] == old(q.pool[pointer..pointer + q.elementSize])
  {
    assert q.Contents()[0] == q.pool[pointer..pointer + q.elementSize];
    ghost var first := q.Contents()[0];
    status := q.Push(element);
    assert q.Contents()[0] == first;
    assert q.Contents()[0] == q.pool[pointer..pointer + q.elementSize];
  }

  lemma HeadOffset(head: nat, capacity: nat, elementSize: nat)
    requires ExactSizes(capacity, elementSize) && head < capacity
    ensures Wrap32(head * elementSize) == SlotStart(head, elementSize)
  {
    SlotStartIsProduct(head, elementSize);
    SlotStartMonotone(head, capacity - 1, elementSize);
  }

  lemma NextHead(head: nat, capacity: nat)
    requires head < capacity <= 0x8000_0000
    ensures Wrap32(head + 1) % capacity == Position(head, 1, capacity) < capacity
  {
    if head + 1 == capacity {
      assert capacity % capacity == 0;
    }
  }

  // ---------- Whole histories ----------

  datatype Op = PushOp(element: Element) | PopOp | EditOp(at: nat, bytes: seq<U8>)

  /** Operations that make sense for elements of one size. */
  predicate WellSized(op: Op, elementSize: nat) {
    match op
    case PushOp(e) => |e| == elementSize
    case PopOp => true
    case EditOp(at, bytes) => at + |bytes| <= elementSize
  }

  ghost predicate AllWellSized(ops: seq<Op>, elementSize: nat) {
    forall i :: 0 <= i < |ops| ==> WellSized(ops[i], elementSize)
  }

  function Overwrite(e: Element, at: nat, bytes: seq<U8>): (r: Element)
    requires at + |bytes| <= |e|
    ensures |r| == |e|
  {
    e[..at] + bytes + e[at + |bytes|..]
  }

  /** The reference the ring is measured against: a bounded sequence, and the elements handed out. */
  datatype Reference = Reference(contents: seq<Element>, taken: seq<Element>, given: seq<Element>)

  ghost function Apply(r: Reference, op: Op, capacity: nat): Reference {
    match op
    case PushOp(e) =>
      if |r.contents| < capacity then r.(contents := r.contents + [e], taken := r.taken + [e]) else r
    case PopOp =>
      if r.contents == [] then r else r.(contents := r.contents[1..], given := r.given + [r.contents[0]])
    case EditOp(at, bytes) =>
      if r.contents == [] || at + |bytes| > |r.contents[0]| then r
      else r.(contents := r.contents[0 := Overwrite(r.contents[0], at, bytes)])
  }

  ghost function ApplyAll(r: Reference, ops: seq<Op>, capacity: nat): Reference {
    if ops == [] then r else Apply(ApplyAll(r, ops[..|ops| - 1], capacity), ops[|ops| - 1], capacity)
  }

  /** One operation of a history, through the ring's own methods. */
  method Step(q: Queue, op: Op, ghost r: Reference) returns (given: seq<Element>)
    requires q.Valid() && WellSized(op, q.elementSize)
    requires q.Contents() == r.contents
    modifies q, q.pool
    ensures q.Valid()
    ensures q.Contents() == Apply(r, op, q.capacity).contents
    ensures r.given + given == Apply(r, op, q.capacity).given
  {
    given := [];
    match op {
      case PushOp(e) =>
        var _ := q.Push(Some(e));
      case PopOp =>
        var status, e := q.Pop();
        if status.Success? {
          assert r.contents[0] == e && r.contents[1..] == q.Contents();
          given := [e];
        }
      case EditOp(at, bytes) =>
        var status, pointer := q.Peek();
        if status.Success? {
          q.WriteThrough(pointer, at, bytes);
        }
    }
  }

  /** Over every history the ring holds and hands out what the bounded sequence does. */
  method Replay(q: Queue, ops: seq<Op>) returns (given: seq<Element>)
    requires q.Valid() && AllWellSized(ops, q.elementSize)
    modifies q, q.pool
    ensures q.Valid()
    ensures q.Contents() == ApplyAll(Reference(old(q.Contents()), [], []), ops, q.capacity).contents
    ensures given == ApplyAll(Reference(old(q.Contents()), [], []), ops, q.capacity).given
  {
    given := [];
    ghost var start := Reference(q.Contents(), [], []);
    for i := 0 to |ops|
      invariant q.Valid()
      invariant q.Contents() == ApplyAll(start, ops[..i], q.capacity).contents
      invariant given == ApplyAll(start, ops[..i], q.capacity).given
    {
      assert ops[..i + 1][..i] == ops[..i];
      var more := Step(q, ops[i], ApplyAll(start, ops[..i], q.capacity));
      given := given + more;
    }
    assert ops[..|ops|] == ops;
  }

  /** First in, first out: without edits nothing is lost, invented or reordered, nor over capacity. */
  lemma {:induction false} FirstInFirstOut(start: seq<Element>, ops: seq<Op>, capacity: nat)
    requires forall i :: 0 <= i < |ops| ==> !ops[i].EditOp?
    requires |start| <= capacity
    ensures var r := ApplyAll(Reference(start, [], []), ops, capacity);
            start + r.taken == r.given + r.contents && |r.contents| <= capacity
    decreases |ops|
  {
    if ops != [] {
      FirstInFirstOut(start, ops[..|ops| - 1], capacity);
      var r := ApplyAll(Reference(start, [], []), ops[..|ops| - 1], capacity);
      match ops[|ops| - 1]
      case PushOp(e) => assert start + (r.taken + [e]) == (start + r.taken) + [e];
      case PopOp => if r.contents != [] { assert r.contents == [r.contents[0]] + r.contents[1..]; }
    }
  }
}
