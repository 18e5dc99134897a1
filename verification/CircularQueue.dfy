/** pkg/datastruct/queue/circularqueue.go: a ring with one spare slot. */
module SpareSlotRing {
  import opened BoundedFifo

  ghost function CountOf(front: int, rear: int, capacity: int): int {
    if rear >= front then rear - front else rear - front + capacity
  }

  ghost predicate InRange(front: int, rear: int, capacity: int) {
    0 <= front < capacity && 0 <= rear < capacity
  }

  lemma FrontMoves(front: int, rear: int, capacity: int)
    requires InRange(front, rear, capacity) && front != rear
    ensures var next := Next(front, capacity);
            InRange(next, rear, capacity) && CountOf(next, rear, capacity) == CountOf(front, rear, capacity) - 1 >= 0
  {}

  lemma RearMoves(front: int, rear: int, capacity: int)
    requires InRange(front, rear, capacity)
    ensures var first, next, n := Next(front, capacity), Next(rear, capacity), CountOf(front, rear, capacity);
            && InRange(front, next, capacity) && 0 <= n < capacity
            && (next == front <==> n + 1 == capacity)
            && (next != front ==> CountOf(front, next, capacity) == n + 1)
            && (next != front ==> next == if first + n < capacity then first + n else first + n - capacity)
  {}

  class CircularQueue<T> {
    ghost var Contents: seq<T>  // oldest first
    ghost const Limit: nat      // how many elements the ring can hold

    var elements: array<T>
    var front: int
    var rear: int
    var capacity: int
    const zero: T

    /** The slot at `front` is the spare one: `capacity` is the number of slots, one more than the limit. */
    ghost predicate Valid()
      reads this, elements
    {
      && Limit + 1 == capacity == elements.Length
      && InRange(front, rear, capacity)
      && Contents == Unroll(elements[..], Next(front, capacity), CountOf(front, rear, capacity))
    }

    constructor (capacity: nat, zero: T)
      ensures Valid() && fresh(elements) && this.zero == zero
      ensures Limit == capacity && Contents == []
    {
      elements := new T[capacity + 1](_ => zero);
      front, rear := 0, 0;
      this.capacity := capacity + 1;
      this.zero := zero;
      Limit := capacity;
      Contents := [];
    }

    function Size(): (n: int)
      requires Valid()
      reads this, elements
      ensures n == |Contents| <= Limit
    {
      if rear >= front then rear - front else capacity - (front - rear)
    }

    predicate IsEmpty()
      requires Valid()
      reads this, elements
      ensures IsEmpty() <==> Contents == []
    {
      front == rear
    }

    predicate IsFull()
      requires Valid()
      reads this, elements
      ensures IsFull() <==> |Contents| == Limit
    {
      Next(rear, capacity) == front
    }

    lemma SlotAt(i: nat)
      requires Valid() && i < |Contents|
      ensures Contents[i] == elements[(front + 1 + i) % capacity]
    {
      WrapOnce(front + 1 + i, capacity);
    }

    method Enqueue(value: T) returns (ok: bool)
      requires Valid()
      modifies this`rear, this`Contents, elements
      ensures Valid()
      ensures ok == (|old(Contents)| < Limit)
      ensures Contents == if ok then old(Contents) + [value] else old(Contents)
    {
      RearMoves(front, rear, capacity);
      hide Unroll, Next, CountOf;
      var nextIndex := Next(rear, capacity);
      if IsFull() {
        return false;
      }
      UnrollAppend(elements[..], Next(front, capacity), CountOf(front, rear, capacity), value, nextIndex);
      elements[nextIndex] := value;
      assert elements[..] == old(elements[..])[nextIndex := value];
      rear := nextIndex;
      Contents := Contents + [value];
      return true;
    }

    method Dequeue() returns (value: T, ok: bool)
      requires Valid()
      modifies this`front, this`Contents
      ensures Valid()
      ensures ok == (old(Contents) != [])
      ensures if ok then value == old(Contents)[0] && Contents == old(Contents)[1..]
              else value == zero && Contents == old(Contents)
    {
      if IsEmpty() {
        return zero, false;
      }
      RearMoves(front, rear, capacity);
      FrontMoves(front, rear, capacity);
      hide Unroll, Next, CountOf;
      var nextIndex := Next(front, capacity);
      UnrollDrop(elements[..], nextIndex, CountOf(front, rear, capacity), Next(nextIndex, capacity));
      value := elements[nextIndex];
      front := nextIndex;
      Contents := Contents[1..];
      return value, true;
    }

    method List() returns (list: seq<T>)
      requires Valid()
      ensures list == Contents
    {
      list := [];
      var i := 0;
      while i < Size()
        invariant 0 <= i <= Size()
        invariant list == Contents[..i]
      {
        var index := (front + 1 + i) % capacity;
        SlotAt(i);
        list := list + [elements[index]];
        i := i + 1;
      }
    }

    method Reset()
      requires Valid()
      modifies this`front, this`rear, this`Contents
      ensures Valid() && Contents == []
    {
      front := 0;
      rear := 0;
      Contents := [];
    }
  }
}
