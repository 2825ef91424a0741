// components/btstack/btstack_audio_esp32_v5.c and _v4.c: mono samples and stereo frames share one
// buffer; both loops work in place.

module MonoCodec {
  import opened Machine

  /** Each of the first n samples twice; the rest of the buffer as it was. */
  function Expanded<T>(s: seq<T>, n: nat): (r: seq<T>)
    requires 2 * n <= |s|
    ensures |r| == |s|
  {
    seq(|s|, i requires 0 <= i < |s| => if i < 2 * n then s[i / 2] else s[i])
  }

  /** Every even one of the first 2n samples, at the front; the rest of the buffer as it was. */
  function Collapsed<T>(s: seq<T>, n: nat): (r: seq<T>)
    requires 2 * n <= |s|
    ensures |r| == |s|
  {
    seq(|s|, i requires 0 <= i < |s| => if i < n then s[2 * i] else s[i])
  }

  lemma DuplicatesEverySample<T>(s: seq<T>, n: nat, i: nat)
    requires 2 * n <= |s| && i < n
    ensures Expanded(s, n)[2 * i] == s[i] && Expanded(s, n)[2 * i + 1] == s[i]
  {
    assert (2 * i) / 2 == i && (2 * i + 1) / 2 == i;
  }

  /** Collapsing undoes expanding. */
  lemma CollapseUndoesExpand<T>(s: seq<T>, n: nat)
    requires 2 * n <= |s|
    ensures Collapsed(Expanded(s, n), n)[..n] == s[..n]
    ensures Collapsed(Expanded(s, n), n)[2 * n..] == s[2 * n..]
  {
    forall i | 0 <= i < n ensures Collapsed(Expanded(s, n), n)[i] == s[i] {
      DuplicatesEverySample(s, n, i);
    }
  }

  lemma FrameOf(k: nat)
    ensures k == 2 * (k / 2) || k == 2 * (k / 2) + 1
  {
  }

  lemma SameByFrames<T>(r: seq<T>, e: seq<T>, n: nat)
    requires |r| == |e| && 2 * n <= |e| && r[2 * n..] == e[2 * n..]
    requires forall i :: 0 <= i < n ==> SameFrame(r, e, i)
    ensures r == e
  {
    forall k | 0 <= k < |e| ensures r[k] == e[k] {
      if k < 2 * n {
        FrameOf(k);
        assert SameFrame(r, e, k / 2);
      } else {
        assert r[2 * n..][k - 2 * n] == e[2 * n..][k - 2 * n];
      }
    }
  }

  ghost predicate SameFrame<T>(r: seq<T>, e: seq<T>, i: nat) {
    2 * i + 1 < |r| && 2 * i + 1 < |e| && r[2 * i] == e[2 * i] && r[2 * i + 1] == e[2 * i + 1]
  }

  lemma ExpandedCollapsedAt<T>(s: seq<T>, n: nat, i: nat)
    requires 2 * n <= |s| && i < n
    ensures Expanded(Collapsed(s, n), n)[2 * i] == s[2 * i] && Expanded(Collapsed(s, n), n)[2 * i + 1] == s[2 * i]
  {
    DuplicatesEverySample(Collapsed(s, n), n, i);
  }

  /** Expanding undoes collapsing exactly for frames whose channels agree. */
  lemma ExpandUndoesCollapseIff<T>(s: seq<T>, n: nat)
    requires 2 * n <= |s|
    ensures Expanded(Collapsed(s, n), n) == s <==> forall i :: 0 <= i < n ==> s[2 * i + 1] == s[2 * i]
  {
    var e := Expanded(Collapsed(s, n), n);
    forall i | 0 <= i < n ensures e[2 * i] == s[2 * i] && e[2 * i + 1] == s[2 * i] {
      ExpandedCollapsedAt(s, n, i);
    }
    if forall i :: 0 <= i < n ==> s[2 * i + 1] == s[2 * i] {
      forall i | 0 <= i < n ensures SameFrame(e, s, i) {
        ExpandedCollapsedAt(s, n, i);
      }
      SameByFrames(e, s, n);
    }
  }

  /** Backwards, so that no sample is overwritten before it is read. Above 32768 frames the counter starts negative. */
  method DuplicateForStereo(buffer: array<int16>, n: uint16)
    requires 2 * n <= buffer.Length
    modifies buffer
    ensures buffer[..] == if n <= 0x8000 then Expanded(old(buffer[..]), n) else old(buffer[..])
  {
    ghost var was, m := buffer[..], if n <= 0x8000 then n as nat else 0;
    ghost var goal := Expanded(was, m);
    var i: int := ToInt16(n - 1);
    CounterStart(n);
    while i >= 0
      invariant i < m && (m > 0 ==> -1 <= i)
      invariant forall k :: 0 <= k <= i || 2 * m <= k < buffer.Length ==> buffer[k] == was[k]
      invariant forall j :: 0 <= j < m && i < j ==> SameFrame(buffer[..], goal, j)
    {
      ghost var before := buffer[..];
      DuplicatesEverySample(was, m, i);
      buffer[2 * i] := buffer[i];
      buffer[2 * i + 1] := buffer[i];
      forall j | 0 <= j < m && i <= j ensures SameFrame(buffer[..], goal, j) {
        if j > i {
          assert SameFrame(before, goal, j);
        }
      }
      i := i - 1;
    }
    SameByFrames(buffer[..], goal, m);
    assert Expanded(was, 0) == was;
  }

  lemma CounterStart(n: uint16)
    ensures if n <= 0x8000 then ToInt16(n - 1) == n - 1 else ToInt16(n - 1) < 0
  {
  }

  /** Forwards: frame i is read from position 2i before anything is written there. */
  method DropSecondChannel(buffer: array<int16>, n: uint16)
    requires 2 * n <= buffer.Length
    modifies buffer
    ensures buffer[..] == Collapsed(old(buffer[..]), n)
  {
    var i := 0;
    while i < n
      invariant 0 <= i <= n
      invariant forall k :: 0 <= k < i ==> buffer[k] == old(buffer[2 * k])
      invariant forall k :: i <= k < buffer.Length ==> buffer[k] == old(buffer[k])
    {
      buffer[i] := buffer[2 * i];
      i := i + 1;
    }
  }
}
