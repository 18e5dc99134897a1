/** pkg/datastruct/queue/ai_implementation/circular_queue.go: a ring that counts its elements. */
module SizedRing {
  import opened BoundedFifo

  datatype Error = NoError | InvalidCapacity | QueueFull | QueueEmpty

  /** Slot i of a buffer that goes on at slot 0 past the end. */
  ghost function Wrap(i: int, capacity: int): int {
    if i < capacity then i else i - capacity
  }

  lemma TailMoves(head: int, size: int, capacity: int)
    requires 0 <= head < capacity && 0 <= size < capacity
    ensures 0 <= Wrap(head + size, capacity) < capacity
    ensures Next(Wrap(head + size, capacity), capacity) == Wrap(head + size + 1, capacity)
    ensures Wrap(head + size, capacity) == if head + size < capacity then head + size else head + size - capacity
  {}

  lemma HeadMoves(head: int, size: int, capacity: int)
    requires 0 <= head < capacity && 0 < size <= capacity
    ensures var next := Next(head, capacity);
            0 <= next < capacity && Wrap(next + (size - 1), capacity) == Wrap(head + size, capacity)
  {}

  class CircularQueue<T> {
    ghost var Contents: seq<T>  // oldest first

    var buffer: array<T>
    var head: int
    var tail: int
    var size: int
    var capacity: int
    const zero: T

    ghost predicate Valid()
      reads this, buffer
    {
      && 0 < capacity == buffer.Length
      && 0 <= head < capacity
      && 0 <= size <= capacity
      && tail == Wrap(head + size, capacity)
      && Contents == Unroll(buffer[..], head, size)
    }

    constructor (capacity: nat, zero: T)
      requires capacity > 0
      ensures Valid() && fresh(buffer) && this.zero == zero
      ensures this.capacity == capacity && Contents == []
    {
      buffer := new T[capacity](_ => zero);
      head, tail, size := 0, 0, 0;
      this.capacity := capacity;
      this.zero := zero;
      Contents := [];
    }

    static method New(capacity: int, zero: T) returns (q: CircularQueue?<T>, err: Error)
      ensures err == (if capacity <= 0 then InvalidCapacity else NoError)
      ensures q == null <==> err != NoError
      ensures q != null ==> fresh(q) && fresh(q.buffer) && q.Valid() && q.zero == zero
                            && q.capacity == capacity && q.Contents == []
    {
      if capacity <= 0 {
        return null, InvalidCapacity;
      }
      q := new CircularQueue(capacity, zero);
      err := NoError;
    }

    method Enqueue(value: T) returns (err: Error)
      requires Valid()
      modifies this`tail, this`size, this`Contents, buffer
      ensures Valid()
      ensures err == if |old(Contents)| < capacity then NoError else QueueFull
      ensures Contents == if err == NoError then old(Contents) + [value] else old(Contents)
    {
      if size == capacity {
        return QueueFull;
      }
      TailMoves(head, size, capacity);
      hide Unroll, Wrap, Next;
      UnrollAppend(buffer[..], head, size, value, tail);
      buffer[tail] := value;
      assert buffer[..] == old(buffer[..])[tail := value];
      Contents := Contents + [value];
      tail := Next(tail, capacity);
      size := size + 1;
      return NoError;
    }

    method Dequeue() returns (value: T, err: Error)
      requires Valid()
      modifies this`head, this`tail, this`size, this`Contents
      ensures Valid()
      ensures err == if old(Contents) != [] then NoError else QueueEmpty
      ensures if err == NoError then value == old(Contents)[0] && Contents == old(Contents)[1..]
              else value == zero && Contents == old(Contents)
    {
      if size == 0 {
        return zero, QueueEmpty;
      }
      HeadMoves(head, size, capacity);
      hide Unroll, Next;
      UnrollDrop(buffer[..], head, size, Next(head, capacity));
      value := buffer[head];
      head := Next(head, capacity);
      size := size - 1;
      Contents := Contents[1..];
      if size == 0 {
        head := 0;
        tail := 0;
      }
      return value, NoError;
    }

    method Peek() returns (value: T, err: Error)
      requires Valid()
      ensures if Contents == [] then (value, err) == (zero, QueueEmpty) else (value, err) == (Contents[0], NoError)
    {
      if size == 0 {
        return zero, QueueEmpty;
      }
      return buffer[head], NoError;
    }

    method Clear()
      requires Valid()
      modifies this`head, this`tail, this`size, this`Contents, buffer
      ensures Valid()
      ensures Contents == [] && forall i :: 0 <= i < buffer.Length ==> buffer[i] == zero
    {
      head := 0;
      tail := 0;
      size := 0;
      Contents := [];
      var i := 0;
      while i < buffer.Length
        modifies buffer
        invariant 0 <= i <= buffer.Length
        invariant forall j :: 0 <= j < i ==> buffer[j] == zero
      {
        buffer[i] := zero;
        i := i + 1;
      }
    }
  }
}

/** The two rings are interchangeable. */
module RingEquivalence {
  import opened BoundedFifo
  import SpareSlotRing
  import SizedRing

  method Both<T>(op: Op<T>, a: SpareSlotRing.CircularQueue<T>, b: SizedRing.CircularQueue<T>)
    returns (fromA: Reply<T>, fromB: Reply<T>)
    requires a.Valid() && b.Valid() && a.elements != b.buffer
    requires a.Limit == b.capacity && a.Contents == b.Contents
    modifies a`front, a`rear, a`Contents, a.elements
    modifies b`head, b`tail, b`size, b`Contents, b.buffer
    ensures a.Valid() && b.Valid()
    ensures fromA == fromB == Apply(b.capacity, old(a.Contents), op).1
    ensures a.Contents == b.Contents == Apply(b.capacity, old(a.Contents), op).0
  {
    hide SpareSlotRing.CircularQueue.Valid, SizedRing.CircularQueue.Valid;
    match op
    case Enqueue(x) =>
      var ok := a.Enqueue(x);
      var err := b.Enqueue(x);
      fromA := if ok then Done else Full;
      fromB := if err == SizedRing.NoError then Done else Full;
    case Dequeue =>
      var x, ok := a.Dequeue();
      var y, err := b.Dequeue();
      fromA := if ok then Value(x) else Empty;
      fromB := if err == SizedRing.NoError then Value(y) else Empty;
    case Clear =>
      a.Reset();
      b.Clear();
      fromA, fromB := Done, Done;
  }

  /** Drives both rings through the same operations: they answer alike at every step, as the bounded
      FIFO does, and end with the same contents. */
  method Lockstep<T>(ops: seq<Op<T>>, a: SpareSlotRing.CircularQueue<T>, b: SizedRing.CircularQueue<T>)
    returns (fromA: seq<Reply<T>>, fromB: seq<Reply<T>>)
    requires a.Valid() && b.Valid() && a.elements != b.buffer
    requires a.Limit == b.capacity && a.Contents == b.Contents
    modifies a`front, a`rear, a`Contents, a.elements
    modifies b`head, b`tail, b`size, b`Contents, b.buffer
    ensures a.Valid() && b.Valid()
    ensures fromA == fromB == Replies(b.capacity, old(a.Contents), ops)
    ensures a.Contents == b.Contents == Contents(b.capacity, old(a.Contents), ops)
  {
    fromA, fromB := [], [];
    var i := 0;
    while i < |ops|
      invariant 0 <= i <= |ops|
      invariant a.Valid() && b.Valid()
      invariant fromA == fromB == Replies(b.capacity, old(a.Contents), ops[..i])
      invariant a.Contents == b.Contents == Contents(b.capacity, old(a.Contents), ops[..i])
    {
      assert ops[..i + 1][..i] == ops[..i];
      var x, y := Both(ops[i], a, b);
      fromA, fromB := fromA + [x], fromB + [y];
      i := i + 1;
    }
    assert ops[..i] == ops;
  }
}
