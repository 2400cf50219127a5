/**
 * The growable byte buffer of mymuduo/Buffer.cpp: a prepend area, a readable area and a
 * writable area inside one array that is compacted or resized in place.
 */
module Buffers {
  import opened Bytes

  const CHEAP_PREPEND: nat := 8
  const INITIAL_SIZE: nat := 1024
  const EXTRA_SIZE: nat := 65536

  /** What one `readv` reports: an error, or the bytes the kernel delivered. */
  datatype ReadResult = ReadError | Delivered(bytes: seq<byte>)

  /**
   * Element-by-element forward copy, as `std::copy` does it: it is only defined when the
   * destination does not lie inside the source range, which here means strictly before it.
   */
  method CopyForward(a: array<byte>, first: nat, last: nat, dest: nat)
    requires dest < first <= last <= a.Length
    modifies a
    ensures a[dest..dest + (last - first)] == old(a[first..last])
    ensures forall i :: 0 <= i < a.Length && !(dest <= i < dest + (last - first)) ==> a[i] == old(a[i])
  {
    var n := last - first;
    ghost var source := a[first..last];
    var i := 0;
    while i < n
      invariant 0 <= i <= n
      invariant forall j :: dest <= j < dest + i ==> a[j] == source[j - dest]
      invariant forall j :: dest + i <= j < a.Length ==> a[j] == old(a[j])
      invariant forall j :: 0 <= j < dest ==> a[j] == old(a[j])
    {
      a[dest + i] := a[first + i];
      i := i + 1;
    }
  }

  /** Writes `data` into `a` from index `at` on. */
  method Fill(a: array<byte>, at: nat, data: seq<byte>)
    requires at + |data| <= a.Length
    modifies a
    ensures a[at..at + |data|] == data
    ensures a[..at] == old(a[..at])
    ensures a[at + |data|..] == old(a[at + |data|..])
  {
    for i := 0 to |data|
      invariant forall j :: 0 <= j < i ==> a[at + j] == data[j]
      invariant forall j :: 0 <= j < a.Length && !(at <= j < at + i) ==> a[j] == old(a[j])
    {
      a[at + i] := data[i];
    }
  }

  class Buffer {
    var buffer: array<byte>
    var readerIndex: nat
    var writerIndex: nat
    ghost const initialSize: nat
    ghost var peak: nat // the largest number of readable bytes ever held

    ghost predicate Valid()
      reads this, buffer
    {
      && CHEAP_PREPEND <= readerIndex <= writerIndex <= buffer.Length
      && writerIndex - readerIndex <= peak
      && buffer.Length <= CHEAP_PREPEND + Max(initialSize, 2 * peak)
    }

    /** The byte queue this buffer stands for. */
    ghost function Contents(): seq<byte>
      requires Valid()
      reads this, buffer
    {
      buffer[readerIndex..writerIndex]
    }

    function ReadableBytes(): (n: nat)
      requires Valid()
      reads this, buffer
      ensures n == |Contents()|
    {
      writerIndex - readerIndex
    }

    function WritableBytes(): (n: nat)
      requires Valid()
      reads this, buffer
      ensures readerIndex + |Contents()| + n == buffer.Length
    {
      buffer.Length - writerIndex
    }

    function PrependableBytes(): (n: nat)
      requires Valid()
      reads this, buffer
      ensures n + ReadableBytes() + WritableBytes() == buffer.Length
    {
      readerIndex
    }

    /** How many bytes one `ReadFd` can take: both segments, or the first one alone. */
    function ReadCapacity(): (n: nat)
      requires Valid()
      reads this, buffer
      ensures n >= EXTRA_SIZE && n >= WritableBytes()
      ensures n == WritableBytes() || n < 2 * EXTRA_SIZE
    {
      if WritableBytes() < EXTRA_SIZE then WritableBytes() + EXTRA_SIZE else WritableBytes()
    }

    constructor (initialSize: nat := INITIAL_SIZE)
      ensures Valid() && Contents() == [] && fresh(buffer)
      ensures buffer.Length == CHEAP_PREPEND + initialSize
      ensures this.initialSize == initialSize && peak == 0
    {
      this.initialSize := initialSize;
      buffer := new byte[CHEAP_PREPEND + initialSize](_ => 0);
      readerIndex, writerIndex, peak := CHEAP_PREPEND, CHEAP_PREPEND, 0;
    }

    method Peek() returns (s: seq<byte>)
      requires Valid()
      ensures s == Contents()
    {
      s := buffer[readerIndex..writerIndex];
    }

    method RetrieveAll()
      requires Valid()
      modifies this`readerIndex, this`writerIndex
      ensures Valid() && Contents() == []
    {
      readerIndex, writerIndex := CHEAP_PREPEND, CHEAP_PREPEND;
    }

    method Retrieve(len: nat)
      requires Valid()
      modifies this`readerIndex, this`writerIndex
      ensures Valid()
      ensures Contents() == old(Contents())[Min(len, |old(Contents())|)..]
    {
      if len < ReadableBytes() {
        readerIndex := readerIndex + len;
      } else {
        RetrieveAll();
      }
    }

    method RetrieveAsString(len: nat) returns (s: seq<byte>)
      requires Valid() && len <= |Contents()|
      modifies this`readerIndex, this`writerIndex
      ensures Valid()
      ensures s == old(Contents())[..len] && Contents() == old(Contents())[len..]
    {
      s := buffer[readerIndex..readerIndex + len];
      Retrieve(len);
    }

    method RetrieveAllAsString() returns (s: seq<byte>)
      requires Valid()
      modifies this`readerIndex, this`writerIndex
      ensures Valid() && s == old(Contents()) && Contents() == []
    {
      s := RetrieveAsString(ReadableBytes());
    }

    /** `std::vector::resize` to a larger size: the storage is a new one with the old content in front. */
    method Resize(size: nat)
      requires Valid() && buffer.Length <= size <= CHEAP_PREPEND + Max(initialSize, 2 * peak)
      modifies this`buffer
      ensures Valid() && Contents() == old(Contents()) && fresh(buffer) && buffer.Length == size
    {
      var was := buffer;
      var grown := new byte[size](_ => 0);
      Fill(grown, 0, was[..]);
      forall i | readerIndex <= i < writerIndex ensures grown[i] == was[i] {
        assert grown[0..0 + |was[..]|][i] == was[..][i];
      }
      buffer := grown;
    }

    /**
     * Called only when the writable area is too small. It compacts when the freed prepend
     * area makes up the difference (the reader is then strictly past the prepend area) and
     * otherwise resizes to exactly what is needed, which is a growth.
     */
    method MakeSpace(len: nat)
      requires Valid() && WritableBytes() < len
      modifies this`buffer, this`readerIndex, this`writerIndex, this`peak, buffer
      ensures Valid() && Contents() == old(Contents()) && WritableBytes() >= len
      ensures peak == Max(old(peak), |Contents()| + len)
      ensures buffer == old(buffer) || fresh(buffer)
      ensures buffer.Length >= old(buffer.Length)
    {
      peak := Max(peak, ReadableBytes() + len);
      if WritableBytes() + PrependableBytes() - CHEAP_PREPEND < len {
        Resize(writerIndex + len);
      } else {
        var readable := ReadableBytes();
        CopyForward(buffer, readerIndex, writerIndex, CHEAP_PREPEND);
        readerIndex := CHEAP_PREPEND;
        writerIndex := readerIndex + readable;
      }
    }

    method EnsureWritableBytes(len: nat)
      requires Valid()
      modifies this`buffer, this`readerIndex, this`writerIndex, this`peak, buffer
      ensures Valid() && Contents() == old(Contents()) && WritableBytes() >= len
      ensures peak == Max(old(peak), |Contents()| + len)
      ensures buffer == old(buffer) || fresh(buffer)
      ensures buffer.Length >= old(buffer.Length)
    {
      peak := Max(peak, ReadableBytes() + len);
      if WritableBytes() < len {
        MakeSpace(len);
      }
    }

    /** Fills the front of the writable area. */
    method Store(data: seq<byte>)
      requires Valid() && |data| <= WritableBytes()
      modifies this`writerIndex, this`peak, buffer
      ensures Valid() && Contents() == old(Contents()) + data
      ensures peak == Max(old(peak), |Contents()|)
      ensures WritableBytes() == old(WritableBytes()) - |data|
    {
      Fill(buffer, writerIndex, data);
      assert buffer[readerIndex..writerIndex] == old(Contents());
      writerIndex := writerIndex + |data|;
      peak := Max(peak, writerIndex - readerIndex);
      assert buffer[readerIndex..writerIndex] == old(Contents()) + data;
    }

    method Append(data: seq<byte>)
      requires Valid()
      modifies this`buffer, this`readerIndex, this`writerIndex, this`peak, buffer
      ensures Valid() && Contents() == old(Contents()) + data
      ensures peak == Max(old(peak), |Contents()|)
      ensures buffer == old(buffer) || fresh(buffer)
      ensures buffer.Length >= old(buffer.Length)
    {
      EnsureWritableBytes(|data|);
      Store(data);
    }

    /**
     * Scatter read into the writable area and then a stack area; whatever landed in the
     * stack area is appended. `result` is what the kernel did.
     */
    method ReadFd(result: ReadResult) returns (n: int)
      requires Valid()
      requires result.Delivered? ==> |result.bytes| <= ReadCapacity()
      modifies this`buffer, this`readerIndex, this`writerIndex, this`peak, buffer
      ensures Valid()
      ensures result.ReadError? ==> n < 0 && Contents() == old(Contents()) && peak == old(peak)
      ensures result.Delivered? ==> n == |result.bytes| && Contents() == old(Contents()) + result.bytes
      ensures peak == Max(old(peak), |Contents()|)
      ensures buffer == old(buffer) || fresh(buffer)
      ensures buffer.Length >= old(buffer.Length)
    {
      if result.ReadError? {
        return -1;
      }
      var writable := WritableBytes();
      n := |result.bytes|;
      if n <= writable {
        Store(result.bytes);
      } else {
        Store(result.bytes[..writable]);
        Append(result.bytes[writable..]);
        assert result.bytes == result.bytes[..writable] + result.bytes[writable..];
      }
    }
  }
}

/** Whole runs of buffer operations, against the plain byte queue. */
module BufferRuns {
  import opened Bytes
  import opened Buffers

  datatype Op =
    | Append(data: seq<byte>)
    | Retrieve(len: nat)
    | Take(len: nat)
    | Read(bytes: seq<byte>)

  /** The queue after one operation. */
  function After(q: seq<byte>, op: Op): seq<byte> {
    match op
    case Append(data) => q + data
    case Retrieve(len) => q[Min(len, |q|)..]
    case Take(len) => q[Min(len, |q|)..]
    case Read(bytes) => q + bytes
  }

  function Queue(ops: seq<Op>): seq<byte> {
    if ops == [] then [] else After(Queue(ops[..|ops| - 1]), ops[|ops| - 1])
  }

  /** The strings handed out by the `Take` operations, in order. */
  function Taken(ops: seq<Op>): seq<seq<byte>> {
    if ops == [] then []
    else
      var before := ops[..|ops| - 1];
      match ops[|ops| - 1]
      case Take(len) => Taken(before) + [Queue(before)[..Min(len, |Queue(before)|)]]
      case _ => Taken(before)
  }

  function Peak(ops: seq<Op>): nat {
    if ops == [] then 0 else Max(Peak(ops[..|ops| - 1]), |Queue(ops)|)
  }

  lemma Untouched()
    ensures Queue([]) == [] && Taken([]) == [] && Peak([]) == 0
  {
  }

  lemma Extended(ops: seq<Op>, op: Op)
    ensures Queue(ops + [op]) == After(Queue(ops), op)
    ensures Taken(ops + [op]) ==
            if op.Take? then Taken(ops) + [Queue(ops)[..Min(op.len, |Queue(ops)|)]] else Taken(ops)
    ensures Peak(ops + [op]) == Max(Peak(ops), |Queue(ops + [op])|)
  {
    assert (ops + [op])[..|ops|] == ops;
  }

  /** What happened of a requested operation: a read may deliver less, but not less than the stack area holds. */
  predicate Performs(asked: Op, done: Op) {
    if asked.Read? then
      done.Read? && done.bytes <= asked.bytes && (done == asked || |done.bytes| >= EXTRA_SIZE)
    else
      done == asked
  }

  /**
   * Every run: the in-place buffer hands out exactly what the queue does, ends with the
   * queue's content, and its storage stays within the space bound.
   */
  method Drive(initialSize: nat, ops: seq<Op>)
    returns (done: seq<Op>, taken: seq<seq<byte>>, rest: seq<byte>, storage: nat)
    ensures |done| == |ops| && forall i :: 0 <= i < |ops| ==> Performs(ops[i], done[i])
    ensures taken == Taken(done) && rest == Queue(done)
    ensures CHEAP_PREPEND + initialSize <= storage <= CHEAP_PREPEND + Max(initialSize, 2 * Peak(done))
  {
    var b := new Buffer(initialSize);
    done, taken := [], [];
    hide Queue, Taken, Peak;
    Untouched();
    for i := 0 to |ops|
      invariant b.Valid() && fresh(b) && fresh(b.buffer) && b.initialSize == initialSize
      invariant |done| == i && forall j :: 0 <= j < i ==> Performs(ops[j], done[j])
      invariant b.Contents() == Queue(done) && taken == Taken(done) && b.peak == Peak(done)
      invariant b.buffer.Length >= CHEAP_PREPEND + initialSize
    {
      var op := ops[i];
      match op {
        case Append(data) => b.Append(data);
        case Retrieve(len) => b.Retrieve(len);
        case Take(len) =>
          var s := b.RetrieveAsString(Min(len, b.ReadableBytes()));
          taken := taken + [s];
        case Read(bytes) =>
          op := Read(bytes[..Min(|bytes|, b.ReadCapacity())]);
          var _ := b.ReadFd(Delivered(op.bytes));
      }
      Extended(done, op);
      done := done + [op];
    }
    rest := b.Peek();
    storage := b.buffer.Length;
  }
}
