/** The bounded first-in first-out queue that both ring buffers of the repository implement. */
module BoundedFifo {

  datatype Op<T> = Enqueue(value: T) | Dequeue | Clear

  datatype Reply<T> = Done | Full | Value(value: T) | Empty

  function Apply<T>(capacity: nat, contents: seq<T>, op: Op<T>): (seq<T>, Reply<T>) {
    match op
    case Enqueue(x) => if |contents| < capacity then (contents + [x], Done) else (contents, Full)
    case Dequeue => if |contents| > 0 then (contents[1..], Value(contents[0])) else (contents, Empty)
    case Clear => ([], Done)
  }

  function Contents<T>(capacity: nat, start: seq<T>, ops: seq<Op<T>>): seq<T> {
    if ops == [] then start
    else Apply(capacity, Contents(capacity, start, ops[..|ops| - 1]), ops[|ops| - 1]).0
  }

  function Replies<T>(capacity: nat, start: seq<T>, ops: seq<Op<T>>): seq<Reply<T>> {
    if ops == [] then []
    else
      var before := ops[..|ops| - 1];
      Replies(capacity, start, before)
      + [Apply(capacity, Contents(capacity, start, before), ops[|ops| - 1]).1]
  }

  /** `n` consecutive slots of a circular buffer, from `start` on, continuing at slot 0 past the end. */
  ghost function Unroll<T>(slots: seq<T>, start: nat, n: nat): (r: seq<T>)
    requires start < |slots| && n <= |slots|
    ensures |r| == n
  {
    if start + n <= |slots| then slots[start..start + n]
    else slots[start..] + slots[..start + n - |slots|]
  }

  lemma WrapOnce(x: nat, n: nat)
    requires 0 < n && x < 2 * n
    ensures x % n == if x < n then x else x - n
  {}

  /** The slot after slot i of a circular buffer. */
  function Next(i: int, capacity: int): (j: int)
    requires 0 <= i < capacity
    ensures j == if i + 1 == capacity then 0 else i + 1
  {
    WrapOnce(i + 1, capacity);
    (i + 1) % capacity
  }

  /** Writing the slot just past the unrolled stretch appends to it. */
  lemma UnrollAppend<T>(slots: seq<T>, start: nat, n: nat, value: T, at: nat)
    requires start < |slots| && n < |slots|
    requires at == if start + n < |slots| then start + n else start + n - |slots|
    ensures Unroll(slots[at := value], start, n + 1) == Unroll(slots, start, n) + [value]
  {}

  /** Moving the start on by one drops the first element of the unrolled stretch. */
  lemma UnrollDrop<T>(slots: seq<T>, start: nat, n: nat, next: nat)
    requires start < |slots| && 0 < n <= |slots|
    requires next == if start + 1 < |slots| then start + 1 else 0
    ensures var r := Unroll(slots, start, n);
            r[0] == slots[start] && Unroll(slots, next, n - 1) == r[1..]
  {}
}
