// components/btstack/src/btstack_ring_buffer.c: a byte queue in a fixed array.

module ByteRing {
  import opened Machine

  /** All or nothing: a block that does not fit leaves the queue as it was. */
  function Appended(capacity: nat, q: seq<byte>, data: seq<byte>): seq<byte> {
    if capacity - |q| < |data| then q else q + data
  }

  function Wrap(i: nat, size: nat): nat { if i < size then i else i - size }

  /** n bytes of a circular store, starting at `from`. */
  function Round(store: seq<byte>, from: nat, n: nat): (q: seq<byte>)
    requires from < |store| && n <= |store|
    ensures |q| == n
  {
    seq(n, k requires 0 <= k < n => store[Wrap(from + k, |store|)])
  }

  /** One memcpy into the store. */
  function Copied(store: seq<byte>, at: nat, data: seq<byte>): (s: seq<byte>)
    requires at + |data| <= |store|
    ensures |s| == |store|
  {
    store[..at] + data + store[at + |data|..]
  }

  lemma CopiedAt(store: seq<byte>, at: nat, data: seq<byte>, i: nat)
    requires at + |data| <= |store| && i < |store|
    ensures Copied(store, at, data)[i] == if at <= i < at + |data| then data[i - at] else store[i]
  {
  }

  /** The store after a block has been copied in at `at`, continuing at index 0 past the end. */
  function Overlaid(store: seq<byte>, at: nat, data: seq<byte>): (s: seq<byte>)
    requires at < |store| && |data| <= |store|
    ensures |s| == |store|
  {
    var first := Min(|store| - at, |data|);
    var chunk := Copied(store, at, data[..first]);
    if first == |data| then chunk else Copied(chunk, 0, data[first..])
  }

  lemma OverlaidAt(store: seq<byte>, at: nat, data: seq<byte>, i: nat)
    requires at < |store| && |data| <= |store| && i < |store|
    ensures Overlaid(store, at, data)[i] ==
            if at <= i < at + |data| then data[i - at]
            else if i < at + |data| - |store| then data[i + |store| - at]
            else store[i]
  {
    var first := Min(|store| - at, |data|);
    CopiedAt(store, at, data[..first], i);
    if first < |data| {
      CopiedAt(Copied(store, at, data[..first]), 0, data[first..], i);
    }
  }

  lemma OverlaidExtendsRound(store: seq<byte>, from: nat, n: nat, data: seq<byte>)
    requires from < |store| && n + |data| <= |store| && |data| > 0
    ensures var at := Wrap(from + n, |store|);
            Round(Overlaid(store, at, data), from, n + |data|) == Round(store, from, n) + data
  {
    var at := Wrap(from + n, |store|);
    forall k | 0 <= k < n + |data|
      ensures Overlaid(store, at, data)[Wrap(from + k, |store|)] == (Round(store, from, n) + data)[k]
    {
      OverlaidAt(store, at, data, Wrap(from + k, |store|));
    }
  }

  lemma RoundSplits(store: seq<byte>, from: nat, n: nat, m: nat)
    requires from < |store| && m <= n <= |store|
    ensures Round(store, from, m) == Round(store, from, n)[..m]
    ensures m < |store| ==>
              Round(store, Wrap(from + m, |store|), n - m) == Round(store, from, n)[m..]
  {
    if m < |store| {
      var tail := Round(store, Wrap(from + m, |store|), n - m);
      forall k | 0 <= k < n - m ensures tail[k] == Round(store, from, n)[m + k]
      {
        assert Wrap(Wrap(from + m, |store|) + k, |store|) == Wrap(from + m + k, |store|);
      }
    }
  }

  lemma RoundAsSlices(store: seq<byte>, from: nat, n: nat)
    requires from < |store| && n <= |store|
    ensures var first := Min(|store| - from, n);
            Round(store, from, n) == store[from..from + first] + store[..n - first]
  {
    var first := Min(|store| - from, n);
    var slices := store[from..from + first] + store[..n - first];
    forall k | 0 <= k < n ensures slices[k] == Round(store, from, n)[k] {
      assert Round(store, from, n)[k] == store[Wrap(from + k, |store|)];
      if k < first {
        assert slices[k] == store[from..from + first][k] == store[from + k];
      } else {
        assert slices[k] == store[..n - first][k - first] == store[k - first];
      }
    }
    assert slices == Round(store, from, n);
  }

  /** How many bytes lie between two indices; equal indices mean none or all. */
  function Available(size: nat, read: nat, written: nat, full: bool): int {
    if full then size else if written >= read then written - read else written - read + size
  }

  lemma IndexAfterWrite(size: nat, read: nat, written: nat, full: bool, n: nat)
    requires read < size && written < size && (full ==> read == written)
    requires 0 < n <= size - Available(size, read, written, full)
    ensures !full && written == Wrap(read + Available(size, read, written, full), size)
    ensures var w := Wrap(written + n, size);
            w < size && Available(size, read, w, w == read) == Available(size, read, written, full) + n
  {
  }

  lemma IndexAfterRead(size: nat, read: nat, written: nat, full: bool, n: nat)
    requires read < size && written < size && (full ==> read == written)
    requires 0 < n <= Available(size, read, written, full)
    ensures var r := Wrap(read + n, size);
            r < size && Available(size, r, written, false) == Available(size, read, written, full) - n
  {
  }

  class RingBuffer {
    const storage: array<byte>
    var lastRead: nat
    var lastWritten: nat
    var full: bool

    ghost predicate Valid()
      reads this
    {
      && storage.Length > 0 && lastRead < storage.Length && lastWritten < storage.Length
      && (full ==> lastRead == lastWritten)
    }

    function BytesAvailable(): (n: nat)
      reads this
      requires Valid()
      ensures n <= storage.Length
    {
      Available(storage.Length, lastRead, lastWritten, full)
    }

    function BytesFree(): (n: nat)
      reads this
      requires Valid()
      ensures n + BytesAvailable() == storage.Length
    {
      storage.Length - BytesAvailable()
    }

    /** The bytes from the read index round to the write index. */
    ghost function Contents(): (q: seq<byte>)
      reads this, storage
      requires Valid()
      ensures |q| == BytesAvailable()
    {
      Round(storage[..], lastRead, BytesAvailable())
    }

    constructor (size: nat)
      requires size > 0
      ensures Valid() && fresh(storage) && storage.Length == size && Contents() == []
    {
      storage := new byte[size](i => 0);
      lastRead, lastWritten, full := 0, 0, false;
    }

    method CopyIn(at: nat, data: seq<byte>)
      requires at + |data| <= storage.Length
      modifies storage
      ensures storage[..] == Copied(old(storage[..]), at, data)
    {
      forall k | 0 <= k < |data| {
        storage[at + k] := data[k];
      }
    }

    /** Copies a block that fits to the write index, in two chunks if it passes the end. */
    method CopyAround(data: seq<byte>)
      requires lastWritten < storage.Length && 0 < |data| <= storage.Length
      modifies this`lastWritten, storage
      ensures storage[..] == Overlaid(old(storage[..]), old(lastWritten), data)
      ensures lastWritten == Wrap(old(lastWritten) + |data|, storage.Length)
    {
      var first := Min(storage.Length - lastWritten, |data|);
      CopyIn(lastWritten, data[..first]);
      lastWritten := lastWritten + first;
      if lastWritten == storage.Length {
        lastWritten := 0;
      }
      if first < |data| {
        CopyIn(0, data[first..]);
        lastWritten := lastWritten + (|data| - first);
      }
    }

    method Write(data: seq<byte>) returns (ok: bool)
      requires Valid()
      modifies this`lastWritten, this`full, storage
      ensures Valid()
      ensures ok == (|data| <= storage.Length - |old(Contents())|)
      ensures Contents() == Appended(storage.Length, old(Contents()), data)
    {
      if BytesFree() < |data| {
        return false;
      }
      ok := true;
      if |data| == 0 {
        return;
      }
      Store(data);
    }

    method Store(data: seq<byte>)
      requires Valid() && 0 < |data| <= BytesFree()
      modifies this`lastWritten, this`full, storage
      ensures Valid() && Contents() == old(Contents()) + data
    {
      ghost var store, at, queued := storage[..], lastWritten, BytesAvailable();
      IndexAfterWrite(storage.Length, lastRead, lastWritten, full, |data|);
      CopyAround(data);
      if lastWritten == lastRead {
        full := true;
      }
      assert Contents() == Round(Overlaid(store, at, data), lastRead, queued + |data|);
      OverlaidExtendsRound(store, lastRead, queued, data);
    }

    method Read(length: nat) returns (data: seq<byte>)
      requires Valid()
      modifies this`lastRead, this`full
      ensures Valid()
      ensures |data| == Min(length, |old(Contents())|)
      ensures data == old(Contents())[..|data|]
      ensures Contents() == old(Contents())[|data|..]
    {
      var remaining := Min(length, BytesAvailable());
      if remaining == 0 {
        return [];
      }
      data := Fetch(remaining);
    }

    method Fetch(n: nat) returns (data: seq<byte>)
      requires Valid() && 0 < n <= BytesAvailable()
      modifies this`lastRead, this`full
      ensures Valid() && data == old(Contents())[..n] && Contents() == old(Contents())[n..]
    {
      ghost var store, start, queued := storage[..], lastRead, BytesAvailable();
      RoundSplits(store, start, queued, n);
      IndexAfterRead(storage.Length, lastRead, lastWritten, full, n);
      data := FetchAround(n);
      full := false;
      assert data == Round(store, start, n);
      assert Contents() == Round(store, Wrap(start + n, storage.Length), queued - n);
    }

    /** Copies n bytes out from the read index, in two chunks if they pass the end. */
    method FetchAround(n: nat) returns (data: seq<byte>)
      requires lastRead < storage.Length && 0 < n <= storage.Length
      modifies this`lastRead
      ensures data == Round(storage[..], old(lastRead), n)
      ensures lastRead == Wrap(old(lastRead) + n, storage.Length)
    {
      ghost var store, start := storage[..], lastRead;
      RoundAsSlices(store, start, n);
      var first := Min(storage.Length - lastRead, n);
      data := storage[lastRead..lastRead + first];
      assert data == store[start..start + first];
      lastRead := lastRead + first;
      if lastRead == storage.Length {
        lastRead := 0;
      }
      if first < n {
        data := data + storage[..n - first];
        lastRead := lastRead + (n - first);
      }
      assert data == store[start..start + first] + store[..n - first];
    }
  }
}
