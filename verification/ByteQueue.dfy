/** The fixed-capacity ring that holds the bytes of one direction. */
module ByteQueues {
  import opened Basics
  import opened Arithmetic

  // ---- Ring arithmetic ----

  /** `k` reduced into a ring of `n` cells; every index the ring forms is below `2 * n`. */
  function Slot(k: nat, n: pos): (slot: nat)
    requires k < 2 * n
    ensures slot < n
  {
    if k < n then k else k - n
  }

  lemma SlotIsRemainder(k: nat, n: pos)
    requires k < 2 * n
    ensures k % n == Slot(k, n)
  {
    DivModUnique(k, n, if k < n then 0 else 1, Slot(k, n));
  }

  /** The `size` cells from `head` on, in queue order. */
  function Ring(cells: seq<byte>, head: nat, size: nat): (r: seq<byte>)
    requires head < |cells| && size <= |cells|
    ensures |r| == size
    ensures forall i :: 0 <= i < size ==> r[i] == cells[Slot(head + i, |cells|)]
  {
    seq(size, i requires 0 <= i < size => cells[Slot(head + i, |cells|)])
  }

  lemma RingSplit(cells: seq<byte>, head: nat, front: nat, back: nat)
    requires head < |cells| && front + back <= |cells|
    ensures Ring(cells, head, front + back)
            == Ring(cells, head, front) + Ring(cells, Slot(head + front, |cells|), back)
  {
  }

  /** Where the cells do not wrap, the ring is a slice of the storage. */
  lemma RingContiguous(cells: seq<byte>, head: nat, size: nat)
    requires head < |cells| && head + size <= |cells|
    ensures Ring(cells, head, size) == cells[head..head + size]
  {
  }

  /** Bytes from the head that can be read without wrapping. */
  function ReadableLen(capacity: pos, head: nat, size: nat): nat
    requires head < capacity
  {
    if size == 0 then 0 else Min(size, capacity - head)
  }

  /** Bytes after the tail that can be written without wrapping. */
  function WritableLen(capacity: pos, head: nat, size: nat): nat
    requires head < capacity && size <= capacity
  {
    if size == capacity then 0
    else Min(capacity - size, capacity - Slot(head + size, capacity))
  }

  /** There is a cell to write exactly when the ring is not full, and one to read exactly when it
      is not empty. */
  lemma SpansNonEmpty(capacity: pos, head: nat, size: nat)
    requires head < capacity && size <= capacity
    ensures WritableLen(capacity, head, size) > 0 <==> size < capacity
    ensures ReadableLen(capacity, head, size) > 0 <==> size > 0
    ensures WritableLen(capacity, head, size) <= capacity - size
    ensures ReadableLen(capacity, head, size) <= size
  {
  }

  /** Changing only writable cells does not disturb the queued bytes. */
  lemma WritableIsFree(before: seq<byte>, after: seq<byte>, head: nat, size: nat)
    requires 0 < |before| == |after| && head < |before| && size <= |before|
    requires var tail := Slot(head + size, |before|);
             forall k :: 0 <= k < |before| && !(tail <= k < tail + WritableLen(|before|, head, size))
               ==> after[k] == before[k]
    ensures Ring(after, head, size) == Ring(before, head, size)
  {
  }

  // ---- The queue ----

  class ByteQueue {
    const storage: array<byte>
    var head: nat
    var size: nat
    var highWaterMark: nat

    ghost predicate Valid()
      reads this
    {
      && head < storage.Length
      && size <= highWaterMark <= storage.Length
    }

    ghost function Contents(): (r: seq<byte>)
      requires Valid()
      reads this, storage
      ensures |r| == size
    {
      Ring(storage[..], head, size)
    }

    constructor (capacity: pos)
      ensures Valid() && fresh(storage)
      ensures storage.Length == capacity && head == 0 && Contents() == [] && highWaterMark == 0
    {
      storage := new byte[capacity];
      head, size, highWaterMark := 0, 0, 0;
    }

    /** A zero capacity is refused. */
    static method Create(capacity: nat) returns (r: Option<ByteQueue>)
      ensures r.None? <==> capacity == 0
      ensures r.Some? ==> r.value.Valid() && fresh(r.value) && fresh(r.value.storage)
                          && r.value.storage.Length == capacity && r.value.Contents() == []
    {
      if capacity == 0 {
        return None;
      }
      var queue := new ByteQueue(capacity);
      r := Some(queue);
    }

    method WritableSpan() returns (start: nat, len: nat)
      requires Valid()
      ensures len == WritableLen(storage.Length, head, size) && start + len <= storage.Length
      ensures len > 0 ==> start == Slot(head + size, storage.Length)
    {
      if size == storage.Length {
        return 0, 0;
      }
      var tail := (head + size) % storage.Length;
      SlotIsRemainder(head + size, storage.Length);
      start, len := tail, Min(storage.Length - size, storage.Length - tail);
    }

    /** The readable span is a non-empty prefix of the queued bytes, unless nothing is queued. */
    method ReadableSpan() returns (start: nat, len: nat)
      requires Valid()
      ensures len == ReadableLen(storage.Length, head, size)
      ensures len <= size && start + len <= storage.Length
      ensures storage[start..start + len] == Contents()[..len]
      ensures len == 0 <==> Contents() == []
    {
      if size == 0 {
        return 0, 0;
      }
      start, len := head, Min(size, storage.Length - head);
      RingContiguous(storage[..], head, len);
      RingSplit(storage[..], head, len, size - len);
    }

    /** Queues the next `count` cells after the tail, as they now stand in the storage. */
    method CommitWrite(count: nat) returns (ok: bool)
      requires Valid()
      modifies this
      ensures Valid()
      ensures ok == (count <= storage.Length - old(size))
      ensures ok ==>
        && head + old(size) < 2 * storage.Length
        && Contents() == old(Contents()) + Ring(storage[..], Slot(head + old(size), storage.Length), count)
      ensures ok && head + old(size) < 2 * storage.Length
              && Slot(head + old(size), storage.Length) + count <= storage.Length ==>
        var tail := Slot(head + old(size), storage.Length);
        Contents() == old(Contents()) + storage[tail..tail + count]
      ensures ok ==> head == old(head) && highWaterMark == Max(old(highWaterMark), size)
      ensures !ok ==> unchanged(this)
    {
      if count > storage.Length - size {
        return false;
      }
      RingSplit(storage[..], head, size, count);
      ghost var tail := Slot(head + size, storage.Length);
      if tail + count <= storage.Length {
        RingContiguous(storage[..], tail, count);
        assert storage[..][tail..tail + count] == storage[tail..tail + count];
      }
      size := size + count;
      highWaterMark := Max(highWaterMark, size);
      ok := true;
    }

    /** Drops the `count` oldest bytes. */
    method Consume(count: nat) returns (ok: bool)
      requires Valid()
      modifies this
      ensures Valid()
      ensures ok == (count <= old(size))
      ensures ok ==> Contents() == old(Contents())[count..]
      ensures ok ==> head == HeadAfter(storage.Length, old(head), old(size), count)
                     && highWaterMark == old(highWaterMark)
      ensures !ok ==> unchanged(this)
    {
      if count > size {
        return false;
      }
      RingSplit(storage[..], head, count, size - count);
      SlotIsRemainder(head + count, storage.Length);
      head := (head + count) % storage.Length;
      size := size - count;
      if size == 0 {
        head := 0;
      }
      ok := true;
    }
  }

  /** Where `consume` leaves the head: an emptied queue starts over at the first cell. */
  function HeadAfter(capacity: pos, head: nat, size: nat, count: nat): (h: nat)
    requires head < capacity && count <= size <= capacity
    ensures h < capacity
  {
    if count == size then 0 else Slot(head + count, capacity)
  }
}
