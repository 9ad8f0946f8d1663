/**
 The growable byte queue of buffer.h and buffer.cpp.  `storage` is the vector: resize() allocates a new
 array, everything else works in place.  Contents() is the queue that the buffer stands for.
 */
module ByteBuffer {

  type Byte = bv8

  const INIT_SPACE: nat := 2048
  const EXTRA_SPACE: nat := 65535

  /** What readv() may answer: the bytes it received, or an error. */
  datatype ReadResult = Received(bytes: seq<Byte>) | ReadError(errno: int)

  function Max(a: int, b: int): int
  {
    if a >= b then a else b
  }

  /** std::copy of a block that lies outside the array. */
  method CopyIn(a: array<Byte>, at: nat, data: seq<Byte>)
    requires at + |data| <= a.Length
    modifies a
    ensures a[..at] == old(a[..at]) && a[at..at + |data|] == data && a[at + |data|..] == old(a[at + |data|..])
  {
    for i := 0 to |data|
      invariant a[..at] == old(a[..at]) && a[at..at + i] == data[..i] && a[at + |data|..] == old(a[at + |data|..])
    {
      a[at + i] := data[i];
    }
  }

  /** What lies between two indices is what lies before and after an index between them. */
  lemma Joined(a: array<Byte>, from: nat, at: nat, to: nat)
    requires from <= at <= to <= a.Length
    ensures a[from..to] == a[..at][from..] + a[at..to]
  {
  }

  lemma Rejoined(front: seq<Byte>, bytes: seq<Byte>, n: nat)
    requires n <= |bytes|
    ensures (front + bytes[..n]) + bytes[n..] == front + bytes
  {
  }

  class Buffer {
    var storage: array<Byte>
    var readerIndex: nat
    var writerIndex: nat
    ghost var initSize: nat   // size the storage was created with
    ghost var demand: nat     // largest readable + len ever asked of ensure_writeable_bytes

    ghost predicate Valid()
      reads this
    {
      && readerIndex <= writerIndex <= storage.Length
      && storage.Length <= Max(initSize, 2 * demand - 1)
    }

    ghost function Contents(): seq<Byte>
      reads this, storage
      requires Valid()
    {
      storage[readerIndex..writerIndex]
    }

    /** The storage is the old one or a new one, so no two buffers come to share theirs. */
    twostate predicate OwnStorage()
      reads this
    {
      storage == old(storage) || fresh(storage)
    }

    constructor (size: nat := INIT_SPACE)
      ensures Valid() && fresh(storage)
      ensures Contents() == [] && storage.Length == size
      ensures readerIndex == 0 && writerIndex == 0
      ensures initSize == size && demand == 0
    {
      storage := new Byte[size];
      readerIndex, writerIndex := 0, 0;
      initSize, demand := size, 0;
    }

    method ReadableBytes() returns (n: nat)
      requires Valid()
      ensures n == |Contents()|
    {
      n := writerIndex - readerIndex;
    }

    method Swap(rhs: Buffer)
      requires Valid() && rhs.Valid()
      modifies this, rhs
      ensures Valid() && rhs.Valid()
      ensures storage == old(rhs.storage) && rhs.storage == old(storage)
      ensures Contents() == old(rhs.Contents()) && rhs.Contents() == old(Contents())
      ensures initSize == old(rhs.initSize) && demand == old(rhs.demand)
    {
      storage, rhs.storage := rhs.storage, storage;
      readerIndex, rhs.readerIndex := rhs.readerIndex, readerIndex;
      writerIndex, rhs.writerIndex := rhs.writerIndex, writerIndex;
      ghost var size, asked := initSize, demand;
      initSize, demand := rhs.initSize, rhs.demand;
      rhs.initSize, rhs.demand := size, asked;
    }

    method RetrieveAll()
      requires Valid()
      modifies this
      ensures Valid() && storage == old(storage)
      ensures Contents() == []
      ensures initSize == old(initSize) && demand == old(demand)
    {
      readerIndex, writerIndex := 0, 0;
    }

    method Retrieve(len: nat)
      requires Valid()
      modifies this
      ensures Valid() && storage == old(storage)
      ensures Contents() == if len < |old(Contents())| then old(Contents())[len..] else []
      ensures initSize == old(initSize) && demand == old(demand)
    {
      if len < writerIndex - readerIndex {
        readerIndex := readerIndex + len;
      } else {
        RetrieveAll();
      }
    }

    /** Reads `len` bytes from the front, so there have to be that many. */
    method RetrieveString(len: nat) returns (s: seq<Byte>)
      requires Valid() && len <= |Contents()|
      modifies this
      ensures Valid() && storage == old(storage)
      ensures old(Contents()) == s + Contents() && |s| == len
      ensures initSize == old(initSize) && demand == old(demand)
    {
      s := storage[readerIndex..readerIndex + len];
      Retrieve(len);
    }

    /** The caller has filled `len` bytes behind the contents. */
    method HasWritten(len: nat)
      requires Valid() && len <= storage.Length - writerIndex
      modifies this`writerIndex
      ensures Valid()
      ensures Contents() == old(storage[readerIndex..writerIndex + len])
      ensures writerIndex == old(writerIndex) + len
    {
      writerIndex := writerIndex + len;
    }

    method Unwrite(len: nat)
      requires Valid() && len <= |Contents()|
      modifies this
      ensures Valid() && storage == old(storage)
      ensures Contents() == old(Contents())[..|old(Contents())| - len]
      ensures initSize == old(initSize) && demand == old(demand)
    {
      writerIndex := writerIndex - len;
    }

    method EnsureWriteableBytes(len: nat)
      requires Valid()
      modifies this, storage
      ensures Valid() && OwnStorage()
      ensures Contents() == old(Contents()) && len <= storage.Length - writerIndex
      ensures old(storage.Length) <= storage.Length <= Max(old(storage.Length), old(writerIndex) + len)
      ensures initSize == old(initSize) && demand == Max(old(demand), |Contents()| + len)
    {
      demand := Max(demand, writerIndex - readerIndex + len);
      if storage.Length - writerIndex < len {
        MakeSpace(len);
      }
    }

    /** Grows only when the free space in front and behind together does not suffice; otherwise there
        is free space in front and the contents move down. */
    method MakeSpace(len: nat)
      requires readerIndex <= writerIndex <= storage.Length
      requires storage.Length <= Max(initSize, 2 * demand - 1) && writerIndex - readerIndex + len <= demand
      requires storage.Length - writerIndex < len
      modifies this, storage
      ensures Valid() && OwnStorage()
      ensures Contents() == old(storage[readerIndex..writerIndex])
      ensures if old(storage.Length - writerIndex + readerIndex) < len
              then storage.Length == old(writerIndex) + len && readerIndex == old(readerIndex)
              else old(readerIndex) > 0 && storage == old(storage) && readerIndex == 0
      ensures len <= storage.Length - writerIndex
      ensures initSize == old(initSize) && demand == old(demand)
    {
      if storage.Length - writerIndex + readerIndex < len {
        var bigger := new Byte[writerIndex + len];
        forall i | 0 <= i < storage.Length {
          bigger[i] := storage[i];
        }
        storage := bigger;
      } else {
        // a forward copy is safe because it starts before the source range
        var readable, a, from := writerIndex - readerIndex, storage, readerIndex;
        ghost var was := a[from..writerIndex];
        for i := 0 to readable
          modifies a
          invariant a[..i] == was[..i]
          invariant forall j :: i <= j < readable ==> a[from + j] == was[j]
        {
          a[i] := a[from + i];
        }
        readerIndex := 0;
        writerIndex := readable;
      }
    }

    /** Puts bytes behind the contents, where there is room for them. */
    method FillTail(data: seq<Byte>)
      requires Valid() && |data| <= storage.Length - writerIndex
      modifies this`writerIndex, storage
      ensures Valid() && writerIndex == old(writerIndex) + |data|
      ensures Contents() == old(Contents()) + data
    {
      ghost var front := storage[..writerIndex];
      CopyIn(storage, writerIndex, data);
      Joined(storage, readerIndex, writerIndex, writerIndex + |data|);
      assert front[readerIndex..] == old(Contents());
      HasWritten(|data|);
    }

    method Append(data: seq<Byte>)
      requires Valid()
      modifies this, storage
      ensures Valid() && OwnStorage()
      ensures Contents() == old(Contents()) + data
      ensures old(storage.Length) <= storage.Length <= Max(old(storage.Length), old(writerIndex) + |data|)
      ensures initSize == old(initSize) && demand == Max(old(demand), |old(Contents())| + |data|)
    {
      EnsureWriteableBytes(|data|);
      FillTail(data);
    }

    /** The contents move to storage of exactly the size asked for, but at least the initial one.  The
        readable length is passed on as an int. */
    method Shrink(reserve: nat)
      requires Valid() && |Contents()| < 0x8000_0000
      modifies this, storage
      ensures Valid() && fresh(storage)
      ensures Contents() == old(Contents())
      ensures storage.Length == Max(2048, |old(Contents())| + reserve)
      ensures initSize == INIT_SPACE
    {
      var other := new Buffer();
      other.EnsureWriteableBytes(writerIndex - readerIndex + reserve);
      other.Append(storage[readerIndex..writerIndex]);
      Swap(other);
    }

    /** The lengths offered to readv(): the free tail, and the overflow area if the tail is smaller. */
    ghost function Offered(): nat
      reads this
      requires Valid()
    {
      var writeable := storage.Length - writerIndex;
      if writeable < EXTRA_SPACE then writeable + EXTRA_SPACE else writeable
    }

    /** Whatever the kernel delivers, within the lengths offered, is appended exactly and in order. */
    method ReadFd(k: ReadResult) returns (n: int, savedErrno: int)
      requires Valid()
      requires k.Received? ==> |k.bytes| <= Offered()
      modifies this, storage
      ensures Valid() && OwnStorage()
      ensures k.Received? ==> n == |k.bytes| && Contents() == old(Contents()) + k.bytes
      ensures k.ReadError? ==> n == -1 && savedErrno == k.errno && Contents() == old(Contents())
      ensures initSize == old(initSize)
      ensures demand == if n > old(storage.Length - writerIndex) then Max(old(demand), |Contents()|) else old(demand)
    {
      savedErrno := 0;
      var writeable := storage.Length - writerIndex;
      match k
      case ReadError(errno) =>
        n := -1;
        savedErrno := errno;
      case Received(bytes) =>
        n := |bytes|;
        // the kernel fills the tail first, then the overflow area
        if n <= writeable {
          FillTail(bytes);
        } else {
          FillTail(bytes[..writeable]);
          Append(bytes[writeable..]);
          Rejoined(old(Contents()), bytes, writeable);
        }
    }
  }
}
