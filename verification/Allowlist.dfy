// components/bluepad32_component/bt/uni_bt_allowlist.c: a small address table kept in a string
// property. Addresses are printed and scanned by bd_addr_to_str and sscanf_bd_addr (btstack_util.c).

module Allowlists {
  import opened Wrappers
  import opened Machine

  type Addr = a: seq<byte> | |a| == 6 witness [0, 0, 0, 0, 0, 0]

  const ZERO: Addr := [0, 0, 0, 0, 0, 0]

  /** Six two-digit bytes, five colons and the comma that ends every entry. */
  const ENTRY_LENGTH := 6 * 2 + 5 + 1

  const BUFFER_SIZE := 128

  // ----- Text -----

  function Digit(n: nat): char
    requires n < 16
  {
    "0123456789ABCDEF"[n]
  }

  lemma NibbleOfDigit(n: nat)
    requires n < 16
    ensures Nibble(Digit(n)) == Some(n)
  {
  }

  function ByteText(b: byte): string { [Digit(b / 16), Digit(b % 16)] }

  /** The bytes of an address from position `from` on, colons between them. */
  function AddrText(a: Addr, from: nat): (s: string)
    requires from < 6
    decreases 6 - from, |a|
  {
    if from == 5 then ByteText(a[5]) else ByteText(a[from]) + ":" + AddrText(a, from + 1)
  }

  function Entry(a: Addr): string { if a == ZERO then "" else AddrText(a, 0) + "," }

  /** The property string of a table: its nonzero entries in slot order. */
  function Encode(t: seq<Addr>): string { Joined(Entry, t) }

  function Joined<T>(f: T -> string, t: seq<T>): string { if t == [] then "" else f(t[0]) + Joined(f, t[1..]) }

  /** A C string ends in a zero character, which reads beyond the last one find. */
  function At(s: string, i: nat): char { if i < |s| then s[i] else '\0' }

  function ScanByte(s: string, i: nat): (r: Option<byte>) {
    match (Nibble(At(s, i)), Nibble(At(s, i + 1)))
    case (Some(hi), Some(lo)) => Some(hi * 16 + lo)
    case _ => None
  }

  function AfterSeparator(s: string, i: nat): nat { if At(s, i) in {':', '-', ' '} then i + 1 else i }

  /** Scans the bytes `from`..5 of an address; separators are optional and none is read at the end. */
  function ScanBytes(s: string, i: nat, from: nat): (r: Option<seq<byte>>)
    requires from < 6
    ensures r.Some? ==> |r.value| == 6 - from
    decreases 6 - from, |s|
  {
    match ScanByte(s, i)
    case None => None
    case Some(b) =>
      if from == 5 then Some([b])
      else
        match ScanBytes(s, AfterSeparator(s, i + 2), from + 1)
        case None => None
        case Some(bs) => Some([b] + bs)
  }

  function ScanAddr(s: string, i: nat): Option<Addr> { ScanBytes(s, i, 0) }

  lemma ScanByteOfText(b: byte, s: string, i: nat)
    requires i + 2 <= |s| && s[i..i + 2] == ByteText(b)
    ensures ScanByte(s, i) == Some(b)
  {
    NibbleOfDigit(b / 16);
    NibbleOfDigit(b % 16);
    assert s[i] == s[i..i + 2][0] && s[i + 1] == s[i..i + 2][1];
  }

  lemma {:induction false} AddrTextLength(a: Addr, from: nat)
    requires from < 6
    ensures |AddrText(a, from)| == 3 * (6 - from) - 1
    decreases 6 - from
  {
    if from < 5 {
      AddrTextLength(a, from + 1);
    }
  }

  lemma AddrTextParts(a: Addr, from: nat)
    requires from < 5
    ensures AddrText(a, from) == [Digit(a[from] / 16), Digit(a[from] % 16), ':'] + AddrText(a, from + 1)
  {
  }

  function UpperHex(n: nat): char
    requires n < 16
  {
    if n < 10 then ('0' as int + n) as char else ('A' as int + n - 10) as char
  }

  /** A byte's digits and what separates it from the next, at position i. */
  predicate ByteAt(s: string, i: nat, b: byte, last: bool) {
    i + (if last then 2 else 3) <= |s| && s[i] == Digit(b / 16) && s[i + 1] == Digit(b % 16) && (last || s[i + 2] == ':')
  }

  lemma ByteFurther(head: string, tail: string, i: nat, b: byte, last: bool)
    requires ByteAt(tail, i, b, last)
    ensures ByteAt(head + tail, |head| + i, b, last)
  {
  }

  lemma {:induction false} DigitsAt(a: Addr, from: nat, k: nat)
    requires from <= k < 6
    ensures ByteAt(AddrText(a, from), 3 * (k - from), a[k], k == 5)
    decreases 6 - from
  {
    if from < 5 {
      AddrTextParts(a, from);
      if from < k {
        DigitsAt(a, from + 1, k);
        ByteFurther([Digit(a[from] / 16), Digit(a[from] % 16), ':'], AddrText(a, from + 1), 3 * (k - from - 1), a[k], k == 5);
      }
    }
  }

  lemma DigitIsUpperHex(n: nat)
    requires n < 16
    ensures Digit(n) == UpperHex(n)
  {
  }

  /** Where each byte of an address stands in its text, and how: two upper-case digits, a colon behind all but the last. */
  lemma PrintedAt(a: Addr, k: nat)
    requires k < 6
    ensures var s := AddrText(a, 0);
            && |s| == 17
            && s[3 * k] == UpperHex(a[k] / 16) && s[3 * k + 1] == UpperHex(a[k] % 16) && (k < 5 ==> s[3 * k + 2] == ':')
  {
    AddrTextLength(a, 0);
    DigitsAt(a, 0, k);
    DigitIsUpperHex(a[k] / 16);
    DigitIsUpperHex(a[k] % 16);
  }

  /** Scanning what was printed gives the address back, wherever in a string it stands. */
  lemma {:induction false} ScanOfText(a: Addr, s: string, i: nat, from: nat)
    requires from < 6 && i + 3 * (6 - from) - 1 <= |s|
    requires s[i..i + 3 * (6 - from) - 1] == AddrText(a, from)
    ensures ScanBytes(s, i, from) == Some(a[from..])
    decreases 6 - from
  {
    var window := s[i..i + 3 * (6 - from) - 1];
    if from == 5 {
      ScanByteOfText(a[5], s, i);
      assert a[5..] == [a[5]];
    } else {
      AddrTextParts(a, from);
      var head := [Digit(a[from] / 16), Digit(a[from] % 16), ':'];
      assert s[i] == window[0] == head[0] && s[i + 1] == window[1] == head[1] && s[i + 2] == window[2] == head[2];
      assert s[i..i + 2] == ByteText(a[from]);
      ScanByteOfText(a[from], s, i);
      assert s[i + 3..i + 3 * (6 - from) - 1] == window[3..];
      ScanOfText(a, s, i + 3, from + 1);
      ScanStep(s, i, from, a[from]);
      assert a[from..] == [a[from]] + a[from + 1..];
    }
  }

  lemma ScanStep(s: string, i: nat, from: nat, b: byte)
    requires from < 5 && ScanByte(s, i) == Some(b) && At(s, i + 2) == ':'
    ensures ScanBytes(s, i, from) == match ScanBytes(s, i + 3, from + 1)
                                     case None => None
                                     case Some(bs) => Some([b] + bs)
  {
  }

  lemma {:induction false} JoinedConcat<T>(f: T -> string, t: seq<T>, u: seq<T>)
    ensures Joined(f, t + u) == Joined(f, t) + Joined(f, u)
    decreases |t|
  {
    if t == [] {
      assert t + u == u;
    } else {
      assert (t + u)[0] == t[0] && (t + u)[1..] == t[1..] + u;
      JoinedConcat(f, t[1..], u);
    }
  }

  lemma JoinedNext<T>(f: T -> string, t: seq<T>, i: nat)
    requires i < |t|
    ensures Joined(f, t[..i + 1]) == Joined(f, t[..i]) + f(t[i])
  {
    assert t[..i + 1] == t[..i] + [t[i]];
    JoinedConcat(f, t[..i], [t[i]]);
    assert Joined(f, [t[i]][1..]) == "";
  }

  lemma {:induction false} JoinedLength<T>(f: T -> string, t: seq<T>, n: nat)
    ensures (forall x :: x in t ==> |f(x)| == n) ==> |Joined(f, t)| == n * |t|
    ensures (forall x :: x in t ==> |f(x)| <= n) ==> |Joined(f, t)| <= n * |t|
    decreases |t|
  {
    if t != [] {
      assert t[0] in t;
      JoinedLength(f, t[1..], n);
      assert n * |t| == n + n * |t[1..]|;
    }
  }

  lemma JoinedWindow<T>(f: T -> string, t: seq<T>, k: nat, n: nat)
    requires k < |t| && forall x :: x in t ==> |f(x)| == n
    ensures n * k + n <= |Joined(f, t)| && Joined(f, t)[n * k..n * k + n] == f(t[k])
  {
    assert t == t[..k] + t[k..];
    JoinedConcat(f, t[..k], t[k..]);
    JoinedLength(f, t[..k], n);
    assert t[k] in t;
  }

  // ----- The table -----

  function FirstIndex(t: seq<Addr>, a: Addr): (r: Option<nat>)
    ensures r.Some? ==> r.value < |t| && t[r.value] == a && a !in t[..r.value]
    ensures r.None? ==> a !in t
  {
    if t == [] then None
    else if t[0] == a then Some(0)
    else match FirstIndex(t[1..], a) case None => None case Some(i) => Some(i + 1)
  }

  datatype List = List(table: seq<Addr>, property: string)

  /** The table after a change, written out to the property. */
  function Stored(table: seq<Addr>): List { List(table, Encode(table)) }

  function Add(l: List, a: Addr): (List, bool) {
    var slot := FirstIndex(l.table, ZERO);
    if a in l.table || slot.None? then (l, false) else (Stored(l.table[slot.value := a]), true)
  }

  function Remove(l: List, a: Addr): (List, bool) {
    match FirstIndex(l.table, a)
    case None => (l, false)
    case Some(i) => (Stored(l.table[i := ZERO]), true)
  }

  function Zeros(n: nat): (t: seq<Addr>)
    ensures |t| == n && forall i :: 0 <= i < n ==> t[i] == ZERO
  {
    seq(n, i => ZERO)
  }

  function RemoveAll(l: List): List { Stored(Zeros(|l.table|)) }

  /** The addresses found in a string, one every 18 characters, up to the first that does not scan. */
  function Parsed(s: string, offset: nat): seq<Addr>
    decreases |s| - offset
  {
    if offset >= |s| then []
    else match ScanAddr(s, offset) case None => [] case Some(a) => [a] + Parsed(s, offset + ENTRY_LENGTH)
  }

  /** Every parsed address is added, and so written out, before the next one is scanned. */
  function AddEach(l: List, addrs: seq<Addr>): List
    decreases |addrs|
  {
    if addrs == [] then l else AddEach(Add(l, addrs[0]).0, addrs[1..])
  }

  function Load(l: List, s: string): List { AddEach(l, Parsed(s, 0)) }

  predicate NoDuplicates(t: seq<Addr>) {
    forall i, j :: 0 <= i < j < |t| && t[i] == t[j] ==> t[i] == ZERO
  }

  predicate InSync(l: List) { NoDuplicates(l.table) && l.property == Encode(l.table) }

  datatype Op = AddOp(a: Addr) | RemoveOp(a: Addr) | RemoveAllOp

  function Next(l: List, op: Op): List {
    match op
    case AddOp(a) => Add(l, a).0
    case RemoveOp(a) => Remove(l, a).0
    case RemoveAllOp => RemoveAll(l)
  }

  lemma NextKeepsSync(l: List, op: Op)
    requires InSync(l)
    ensures InSync(Next(l, op)) && |Next(l, op).table| == |l.table|
  {
  }

  function Run(l: List, ops: seq<Op>): List
    decreases |ops|
  {
    if ops == [] then l else Run(Next(l, ops[0]), ops[1..])
  }

  /** Through every run the stored string encodes the table, and the table has no duplicates. */
  lemma {:induction false} RunKeepsSync(l: List, ops: seq<Op>)
    requires InSync(l)
    ensures InSync(Run(l, ops)) && |Run(l, ops).table| == |l.table|
    decreases |ops|
  {
    if ops != [] {
      NextKeepsSync(l, ops[0]);
      RunKeepsSync(Next(l, ops[0]), ops[1..]);
    }
  }

  /** The addresses on the list; the zero address marks an empty slot and is never one of them. */
  function Members(t: seq<Addr>): set<Addr> { set a | a in t && a != ZERO }

  /** What the operations mean for the list as a set, and when an address is refused. */
  lemma OperationsOnMembers(l: List, a: Addr)
    requires NoDuplicates(l.table) && a != ZERO
    ensures Add(l, a).1 <==> a !in l.table && ZERO in l.table
    ensures Members(Add(l, a).0.table) == if Add(l, a).1 then Members(l.table) + {a} else Members(l.table)
    ensures Members(Remove(l, a).0.table) == Members(l.table) - {a}
    ensures Remove(l, a).1 <==> a in Members(l.table)
    ensures Members(RemoveAll(l).table) == {}
  {
    var t := l.table;
    if Add(l, a).1 {
      ReplacedMembers(t, FirstIndex(t, ZERO).value, a);
    }
    if a in t {
      ReplacedMembers(t, FirstIndex(t, a).value, ZERO);
    }
  }

  lemma ReplacedMembers(t: seq<Addr>, i: nat, a: Addr)
    requires NoDuplicates(t) && i < |t|
    ensures Members(t[i := a]) == Members(t) - {t[i]} + (if a == ZERO then {} else {a})
  {
    var u := t[i := a];
    forall x | x in Members(t) - {t[i]} ensures x in u {
      var k :| 0 <= k < |t| && t[k] == x;
      assert u[k] == x;
    }
    assert u[i] == a;
    forall x | x in Members(u) && x != a ensures x in Members(t) - {t[i]} {
      var k :| 0 <= k < |u| && u[k] == x;
      assert k != i && t[k] == x;
    }
    if a in Members(t) - {t[i]} {
      assert a != ZERO;
    }
  }

  // ----- Reloading -----

  function Live(t: seq<Addr>): seq<Addr> {
    if t == [] then [] else (if t[0] == ZERO then [] else [t[0]]) + Live(t[1..])
  }

  lemma {:induction false} JoinedLive(f: Addr -> string, t: seq<Addr>)
    requires f(ZERO) == ""
    ensures Joined(f, Live(t)) == Joined(f, t)
    decreases |t|
  {
    if t != [] {
      JoinedLive(f, t[1..]);
      if t[0] != ZERO {
        assert ([t[0]] + Live(t[1..]))[1..] == Live(t[1..]);
      } else {
        assert [] + Live(t[1..]) == Live(t[1..]);
      }
    }
  }

  lemma {:induction false} LiveFacts(t: seq<Addr>)
    ensures |Live(t)| <= |t| && Members(Live(t)) == Members(t)
    ensures ZERO !in Live(t)
    ensures NoDuplicates(t) ==> NoDuplicates(Live(t))
    decreases |t|
  {
    if t != [] {
      LiveFacts(t[1..]);
      var rest := Live(t[1..]);
      assert t == [t[0]] + t[1..];
      assert Members(t) == Members(t[1..]) + if t[0] == ZERO then {} else {t[0]};
      if t[0] != ZERO {
        assert Members([t[0]] + rest) == Members(rest) + {t[0]};
        if NoDuplicates(t) {
          assert forall i, j :: 0 <= i < j < |t[1..]| ==> t[1..][i] == t[i + 1] && t[1..][j] == t[j + 1];
          assert t[0] !in t[1..];
          assert t[0] !in Members(t[1..]);
          assert t[0] !in rest;
        }
      } else {
        assert Live(t) == rest;
        if NoDuplicates(t) {
          assert forall i, j :: 0 <= i < j < |t[1..]| ==> t[1..][i] == t[i + 1] && t[1..][j] == t[j + 1];
        }
      }
    }
  }

  lemma EntryLengths(a: Addr)
    ensures |Entry(a)| == if a == ZERO then 0 else ENTRY_LENGTH
  {
    AddrTextLength(a, 0);
  }

  lemma EncodedLength(t: seq<Addr>)
    ensures |Encode(t)| <= ENTRY_LENGTH * |t|
    ensures ZERO !in t ==> |Encode(t)| == ENTRY_LENGTH * |t|
  {
    forall a: Addr ensures |Entry(a)| == if a == ZERO then 0 else ENTRY_LENGTH {
      EntryLengths(a);
    }
    JoinedLength(Entry, t, ENTRY_LENGTH);
  }

  /** The k entries added so far, packed to the front of a table of n slots. */
  function Packed(live: seq<Addr>, k: nat, n: nat): seq<Addr>
    requires k <= |live| && k <= n
  {
    live[..k] + Zeros(n - k)
  }

  lemma {:induction false} JoinedZeros(f: Addr -> string, n: nat)
    requires f(ZERO) == ""
    ensures Joined(f, Zeros(n)) == ""
  {
    if n > 0 {
      JoinedZeros(f, n - 1);
      assert Zeros(n)[1..] == Zeros(n - 1);
    }
  }

  lemma AddPacks(live: seq<Addr>, k: nat, n: nat, property: string)
    requires k < |live| <= n && ZERO !in live && NoDuplicates(live)
    ensures Add(List(Packed(live, k, n), property), live[k]) == (Stored(Packed(live, k + 1, n)), true)
  {
    var t := Packed(live, k, n);
    forall i | 0 <= i < |t| ensures t[i] == if i < k then live[i] else ZERO {
    }
    FirstIndexIs(t, ZERO, k);
    assert t[k := live[k]] == Packed(live, k + 1, n);
  }

  lemma {:induction false} AddEachPacks(live: seq<Addr>, k: nat, n: nat, property: string)
    requires k <= |live| <= n && ZERO !in live && NoDuplicates(live)
    ensures AddEach(List(Packed(live, k, n), property), live[k..])
         == if k == |live| then List(Packed(live, k, n), property) else Stored(Packed(live, |live|, n))
    decreases |live| - k
  {
    if k < |live| {
      AddPacks(live, k, n, property);
      assert live[k..][0] == live[k] && live[k..][1..] == live[k + 1..];
      AddEachPacks(live, k + 1, n, Encode(Packed(live, k + 1, n)));
    }
  }

  lemma ScanOfEntry(a: Addr, s: string, i: nat)
    requires a != ZERO && i + ENTRY_LENGTH <= |s| && s[i..i + ENTRY_LENGTH] == Entry(a)
    ensures ScanAddr(s, i) == Some(a)
  {
    AddrTextLength(a, 0);
    assert s[i..i + 17] == s[i..i + ENTRY_LENGTH][..17] == AddrText(a, 0);
    ScanOfText(a, s, i, 0);
    assert a[0..] == a;
  }

  lemma EntryAt(live: seq<Addr>, k: nat, s: string)
    requires k < |live| && ZERO !in live && s == Encode(live)
    ensures ENTRY_LENGTH * k < |s| && ScanAddr(s, ENTRY_LENGTH * k) == Some(live[k])
  {
    forall x | x in live ensures |Entry(x)| == ENTRY_LENGTH {
      EntryLengths(x);
    }
    JoinedWindow(Entry, live, k, ENTRY_LENGTH);
    assert live[k] in live;
    ScanOfEntry(live[k], s, ENTRY_LENGTH * k);
  }

  lemma ParsedEnd(s: string, offset: nat)
    requires offset == |s|
    ensures Parsed(s, offset) == []
  {
  }

  lemma ParsedStep(s: string, offset: nat, a: Addr, next: nat)
    requires offset < |s| && ScanAddr(s, offset) == Some(a) && next == offset + ENTRY_LENGTH
    ensures Parsed(s, offset) == [a] + Parsed(s, next)
  {
  }

  lemma {:induction false} ParsedEntries(live: seq<Addr>, k: nat, s: string, offset: nat)
    requires k <= |live| && ZERO !in live && s == Encode(live) && offset == ENTRY_LENGTH * k
    ensures Parsed(s, offset) == live[k..]
    decreases |live| - k
  {
    if k == |live| {
      EncodedLength(live);
      ParsedEnd(s, offset);
    } else {
      EntryAt(live, k, s);
      ParsedStep(s, offset, live[k], offset + ENTRY_LENGTH);
      ParsedEntries(live, k + 1, s, offset + ENTRY_LENGTH);
    }
  }

  lemma LoadPacks(live: seq<Addr>, n: nat)
    requires |live| <= n && ZERO !in live && NoDuplicates(live)
    ensures Load(List(Zeros(n), Encode(live)), Encode(live)) == List(Packed(live, |live|, n), Encode(live))
  {
    var s := Encode(live);
    assert Packed(live, 0, n) == Zeros(n);
    ParsedEntries(live, 0, s, 0);
    assert live[0..] == live;
    AddEachPacks(live, 0, n, s);
    EncodePacked(live, n);
  }

  lemma EncodePacked(live: seq<Addr>, n: nat)
    requires |live| <= n
    ensures Encode(Packed(live, |live|, n)) == Encode(live)
  {
    assert Packed(live, |live|, n) == live + Zeros(n - |live|);
    JoinedConcat(Entry, live, Zeros(n - |live|));
    JoinedZeros(Entry, n - |live|);
  }

  /**
   * Reloading what a table wrote, into an empty table of at least its size, ends with the same
   * addresses in the same order and the same string, although the string is rewritten at every step.
   */
  lemma ReloadRestores(l: List, n: nat)
    requires InSync(l) && |l.table| <= n
    ensures var r := Load(List(Zeros(n), l.property), l.property);
            && Live(r.table) == Live(l.table) && Members(r.table) == Members(l.table)
            && r.property == l.property && InSync(r)
  {
    var live := Live(l.table);
    LiveFacts(l.table);
    JoinedLive(Entry, l.table);
    LoadPacks(live, n);
    EncodePacked(live, n);
    var table := Packed(live, |live|, n);
    assert table == live + Zeros(n - |live|);
    LivePacked(live, n - |live|);
    LiveFacts(table);
  }

  lemma {:induction false} LivePacked(live: seq<Addr>, m: nat)
    requires ZERO !in live && NoDuplicates(live)
    ensures Live(live + Zeros(m)) == live && NoDuplicates(live + Zeros(m))
    decreases |live| + m
  {
    var t := live + Zeros(m);
    if live != [] {
      assert t[1..] == live[1..] + Zeros(m);
      LivePacked(live[1..], m);
    } else if m > 0 {
      assert t[1..] == [] + Zeros(m - 1);
      LivePacked([], m - 1);
    }
  }

  // ----- The 128-byte buffer -----

  /** A table without duplicates: n different addresses, then empty slots. */
  function Distinct(n: nat, capacity: nat): (t: seq<Addr>)
    requires n <= 255 && n <= capacity
    ensures |t| == capacity && NoDuplicates(t)
  {
    var live := seq(n, i requires 0 <= i < n => NumberedAddr(i));
    assert forall i :: 0 <= i < n ==> live[i][0] == i + 1;
    live + Zeros(capacity - n)
  }

  function NumberedAddr(i: nat): (a: Addr)
    requires i < 255
    ensures a != ZERO && a[0] == i + 1
  {
    [i + 1, 0, 0, 0, 0, 0]
  }

  lemma DistinctLength(n: nat, capacity: nat)
    requires n <= 255 && n <= capacity
    ensures |Encode(Distinct(n, capacity))| == ENTRY_LENGTH * n
  {
    var t := Distinct(n, capacity);
    var live := t[..n];
    assert t == live + Zeros(capacity - n);
    JoinedConcat(Entry, live, Zeros(capacity - n));
    JoinedZeros(Entry, capacity - n);
    assert forall i :: 0 <= i < n ==> live[i] == NumberedAddr(i);
    EncodedLength(live);
  }

  /** str[128] holds the text and its terminator for every table the code can hold exactly up to seven slots. */
  lemma BufferSufficesIff(capacity: nat)
    ensures (forall t: seq<Addr> :: |t| == capacity && NoDuplicates(t) ==> |Encode(t)| + 1 <= BUFFER_SIZE)
       <==> capacity <= 7
  {
    forall t: seq<Addr> | |t| == capacity && NoDuplicates(t) && capacity <= 7
      ensures |Encode(t)| + 1 <= BUFFER_SIZE
    {
      EncodedLength(t);
    }
    if capacity > 7 {
      DistinctLength(8, capacity);
      assert |Distinct(8, capacity)| == capacity;
    }
  }

  class Allowlist {
    const entries: array<Addr>
    var property: string
    var enforced: bool

    ghost function State(): List
      reads this, entries
    {
      List(entries[..], property)
    }

    constructor (capacity: nat, property: string, enforced: bool)
      ensures fresh(entries)
      ensures State() == List(Zeros(capacity), property) && this.enforced == enforced
    {
      entries := new Addr[capacity](i => ZERO);
      this.property, this.enforced := property, enforced;
    }

    method UpdateProperty()
      modifies this`property
      ensures State() == Stored(entries[..])
    {
      var str := "";
      for i := 0 to entries.Length
        invariant str == Encode(entries[..i])
      {
        JoinedNext(Entry, entries[..], i);
        assert entries[..][..i + 1] == entries[..i + 1] && entries[..][..i] == entries[..i];
        if entries[i] != ZERO {
          str := str + AddrText(entries[i], 0);
          str := str + ",";
        }
      }
      assert entries[..entries.Length] == entries[..];
      property := str;
    }

    method Contains(a: Addr) returns (found: bool)
      ensures found == (a in entries[..])
    {
      for i := 0 to entries.Length
        invariant a !in entries[..i]
      {
        if entries[i] == a {
          return true;
        }
      }
      return false;
    }

    method IsAllowed(a: Addr) returns (allowed: bool)
      ensures allowed <==> !enforced || a in entries[..]
    {
      if !enforced {
        return true;
      }
      allowed := Contains(a);
    }

    method AddAddr(a: Addr) returns (ok: bool)
      modifies this`property, entries
      ensures (State(), ok) == Add(old(State()), a)
    {
      var present := Contains(a);
      if present {
        return false;
      }
      for i := 0 to entries.Length
        invariant ZERO !in entries[..i]
        invariant State() == old(State())
      {
        if entries[i] == ZERO {
          FirstIndexIs(entries[..], ZERO, i);
          entries[i] := a;
          UpdateProperty();
          return true;
        }
      }
      return false;
    }

    method RemoveAddr(a: Addr) returns (ok: bool)
      modifies this`property, entries
      ensures (State(), ok) == Remove(old(State()), a)
    {
      for i := 0 to entries.Length
        invariant a !in entries[..i]
        invariant State() == old(State())
      {
        if entries[i] == a {
          FirstIndexIs(entries[..], a, i);
          entries[i] := ZERO;
          UpdateProperty();
          return true;
        }
      }
      return false;
    }

    method RemoveEveryAddr()
      modifies this`property, entries
      ensures State() == RemoveAll(old(State()))
    {
      for i := 0 to entries.Length
        invariant forall j :: 0 <= j < i ==> entries[j] == ZERO
      {
        entries[i] := ZERO;
      }
      assert entries[..] == Zeros(entries.Length);
      UpdateProperty();
    }

    /** The text is a copy made when the property was read, so writing the property leaves it alone. */
    method LoadFromProperty()
      modifies this`property, entries
      ensures State() == Load(old(State()), old(property))
    {
      var text := property;
      var offset := 0;
      while offset < |text|
        invariant AddEach(State(), Parsed(text, offset)) == Load(old(State()), text)
        decreases |text| - offset
      {
        var a := ScanAddr(text, offset);
        if a.None? {
          return;
        }
        var _ := AddAddr(a.value);
        offset := offset + 6 * 2 + 5 + 1;
      }
    }
  }

  lemma {:induction false} FirstIndexIs(t: seq<Addr>, a: Addr, i: nat)
    requires i < |t| && t[i] == a && a !in t[..i]
    ensures FirstIndex(t, a) == Some(i)
    decreases i
  {
    if i > 0 {
      assert t[..i][0] == t[0];
      assert t[1..][..i - 1] == t[..i][1..];
      FirstIndexIs(t[1..], a, i - 1);
    }
  }
}
