// components/bluepad32_component/uni_circular_buffer.c: 32 slots, one of them always unused.

module CircularBuffers {
  import opened Machine

  const SIZE := 32
  const DATA_SIZE := 128

  /** Channel ids travel through the buffer as signed numbers. */
  function ToUint16(n: int16): (u: uint16)
    ensures ToInt16(u) == n
  {
    if n < 0 then n + 0x10000 else n
  }

  lemma ChannelSurvivesNarrowing(n: uint16)
    ensures ToUint16(ToInt16(n)) == n
  {
  }

  datatype Report = Report(cid: uint16, bytes: seq<byte>)

  datatype Outcome = Stored | Full | TooBig

  datatype SlotData = SlotData(cid: int16, data: seq<byte>, len: nat)

  type Slot = s: SlotData | |s.data| == DATA_SIZE && s.len < DATA_SIZE
    witness SlotData(0, seq(DATA_SIZE, i => 0), 0)

  /** What a queued slot stands for. */
  function Held(s: Slot): Report { Report(ToUint16(s.cid), s.data[..s.len]) }

  function PutOutcome(q: seq<Report>, len: nat): Outcome {
    if |q| == SIZE - 1 then Full else if len >= DATA_SIZE then TooBig else Stored
  }

  function Following(i: nat): nat { if i + 1 == SIZE then 0 else i + 1 }

  function Ahead(head: nat, k: nat): nat { if head + k < SIZE then head + k else head + k - SIZE }

  function Between(head: nat, tail: nat): nat
    requires head < SIZE
  {
    if tail >= head then tail - head else tail + SIZE - head
  }

  /** Reports in the n slots from `head` on. */
  function Queue(slots: seq<Slot>, head: nat, n: nat): (q: seq<Report>)
    requires |slots| == SIZE && head < SIZE && n < SIZE
    ensures |q| == n
  {
    seq(n, k requires 0 <= k < n => Held(slots[Ahead(head, k)]))
  }

  lemma PutExtendsQueue(slots: seq<Slot>, head: nat, n: nat, s: Slot)
    requires |slots| == SIZE && head < SIZE && n < SIZE - 1
    ensures Queue(slots[Ahead(head, n) := s], head, n + 1) == Queue(slots, head, n) + [Held(s)]
  {
  }

  lemma GetDropsFirst(slots: seq<Slot>, head: nat, n: nat)
    requires |slots| == SIZE && head < SIZE && 0 < n < SIZE
    ensures Queue(slots, Following(head), n - 1) == Queue(slots, head, n)[1..]
    ensures Queue(slots, head, n)[0] == Held(slots[head])
  {
    forall k | 0 <= k < n - 1 ensures Ahead(Following(head), k) == Ahead(head, k + 1) {
    }
  }

  /** Where the bytes to store are read from: the caller's memory, or a slot of the buffer itself. */
  datatype Source = External(bytes: seq<byte>) | InSlot(index: nat)

  class CircularBuffer {
    const slots: array<Slot>
    var head: nat
    var tail: nat

    ghost predicate Valid()
      reads this
    {
      slots.Length == SIZE && head < SIZE && tail < SIZE
    }

    ghost function Contents(): seq<Report>
      reads this, slots
      requires Valid()
    {
      Queue(slots[..], head, Between(head, tail))
    }

    constructor ()
      ensures Valid() && fresh(slots) && Contents() == []
    {
      slots := new Slot[SIZE](i => SlotData(0, seq(DATA_SIZE, j => 0), 0));
      head, tail := 0, 0;
    }

    predicate IsEmpty()
      reads this, slots
      requires Valid()
      ensures IsEmpty() <==> |Contents()| == 0
    {
      head == tail
    }

    predicate IsFull()
      reads this, slots
      requires Valid()
      ensures IsFull() <==> |Contents()| == SIZE - 1
    {
      tail + 1 == head || (head == 0 && tail == SIZE - 1)
    }

    /** The first `len` bytes a source holds now. */
    function Read(source: Source, len: nat): seq<byte>
      reads this, slots
      requires Valid() && Readable(source, len)
    {
      match source
      case External(bytes) => bytes[..len]
      case InSlot(i) => slots[i].data[..len]
    }

    predicate Readable(source: Source, len: nat) {
      match source
      case External(bytes) => len <= |bytes|
      case InSlot(i) => i < SIZE && len <= DATA_SIZE
    }

    /** memcpy forbids overlap, so the source must not be the slot about to be written. */
    method Put(cid: int16, source: Source, len: nat) returns (outcome: Outcome)
      requires Valid() && Readable(source, len)
      requires source.InSlot? ==> source.index != tail
      modifies this`tail, slots
      ensures Valid() && outcome == PutOutcome(old(Contents()), len)
      ensures Contents() == if outcome.Stored? then old(Contents()) + [Report(ToUint16(cid), old(Read(source, len)))]
                            else old(Contents())
    {
      if IsFull() {
        return Full;
      }
      if len >= DATA_SIZE {
        return TooBig;
      }
      ghost var n := Between(head, tail);
      var s: Slot := slots[tail];
      s := s.(data := Read(source, len) + s.data[len..]);
      s := s.(len := len);
      s := s.(cid := cid);
      PutExtendsQueue(slots[..], head, n, s);
      slots[tail] := s;
      tail := tail + 1;
      if tail == SIZE {
        tail := 0;
      }
      assert Between(head, tail) == n + 1;
      return Stored;
    }

    /** Hands out the slot that holds the oldest report; its contents stay where they are. */
    method Get() returns (found: bool, cid: int16, slot: nat, len: nat)
      requires Valid()
      modifies this`head
      ensures Valid() && found == (old(Contents()) != [])
      ensures !found ==> Contents() == old(Contents())
      ensures found ==>
                && slot == old(head) < SIZE && len < DATA_SIZE
                && slot != tail
                && Report(ToUint16(cid), Read(InSlot(slot), len)) == old(Contents())[0]
                && Contents() == old(Contents())[1..]
    {
      if IsEmpty() {
        return false, 0, 0, 0;
      }
      GetDropsFirst(slots[..], head, Between(head, tail));
      found, slot := true, head;
      len := slots[head].len;
      cid := slots[head].cid;
      ghost var n := Between(head, tail);
      head := head + 1;
      if head == SIZE {
        head := 0;
      }
      assert Between(head, tail) == n - 1;
    }
  }
}
