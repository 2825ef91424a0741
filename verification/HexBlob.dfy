// components/cmd_nvs/cmd_nvs.c: binary values typed and printed as hexadecimal text.

module HexBlob {
  import opened Wrappers
  import opened Machine

  predicate IsHex(s: string) { forall i :: 0 <= i < |s| ==> Nibble(s[i]).Some? }

  /** The bytes of a text of hexadecimal pairs. */
  function Parsed(s: string): (bytes: seq<byte>)
    requires |s| % 2 == 0 && IsHex(s)
    ensures |bytes| == |s| / 2
    ensures forall j :: 0 <= j < |bytes| ==> bytes[j] == 16 * Digit(s[2 * j]) + Digit(s[2 * j + 1])
  {
    seq(|s| / 2, j requires 0 <= j < |s| / 2 => (16 * Digit(s[2 * j]) + Digit(s[2 * j + 1])) as byte)
  }

  function Digit(c: char): (n: nat)
    ensures n < 16
  {
    match Nibble(c) case Some(n) => n case None => 0
  }

  function DigitText(n: nat): char
    requires n < 16
  {
    if n < 10 then ('0' as int + n) as char else ('a' as int + n - 10) as char
  }

  /** The i-th hexadecimal digit of a blob, high half of each byte first. */
  function NibbleAt(bytes: seq<byte>, i: nat): (n: nat)
    requires i < 2 * |bytes|
    ensures n < 16
  {
    if i % 2 == 0 then bytes[i / 2] / 16 else bytes[i / 2] % 16
  }

  /** printf("%02x") of every byte. */
  function Printed(bytes: seq<byte>): (s: string)
    ensures |s| == 2 * |bytes|
    ensures forall i :: 0 <= i < |s| ==> s[i] == DigitText(NibbleAt(bytes, i))
  {
    seq(2 * |bytes|, i requires 0 <= i < 2 * |bytes| => DigitText(NibbleAt(bytes, i)))
  }

  function LowerChar(c: char): char { if 'A' <= c <= 'Z' then ((c as int) - 'A' as int + 'a' as int) as char else c }

  function Lower(s: string): (r: string)
    ensures |r| == |s| && forall i :: 0 <= i < |s| ==> r[i] == LowerChar(s[i])
  {
    seq(|s|, i requires 0 <= i < |s| => LowerChar(s[i]))
  }

  lemma DigitTextOfDigit(c: char)
    requires Nibble(c).Some?
    ensures DigitText(Digit(c)) == LowerChar(c)
  {
  }

  lemma DigitOfDigitText(n: nat)
    requires n < 16
    ensures Nibble(DigitText(n)) == Some(n)
  {
  }

  lemma HexPair(hi: nat, lo: nat)
    requires hi < 16 && lo < 16
    ensures (16 * hi + lo) / 16 == hi && (16 * hi + lo) % 16 == lo
  {
  }

  lemma NibblesOf(bytes: seq<byte>, j: nat)
    requires j < |bytes|
    ensures NibbleAt(bytes, 2 * j) == bytes[j] / 16 && NibbleAt(bytes, 2 * j + 1) == bytes[j] % 16
  {
    assert (2 * j) / 2 == j && (2 * j + 1) / 2 == j;
  }

  lemma ParsedAt(s: string, i: nat)
    requires |s| % 2 == 0 && IsHex(s) && i < |s|
    ensures NibbleAt(Parsed(s), i) == Digit(s[i])
  {
    var j := i / 2;
    HexPair(Digit(s[2 * j]), Digit(s[2 * j + 1]));
    assert i == 2 * j || i == 2 * j + 1;
  }

  /** Printing what was stored gives the text that was typed, in lower case. */
  lemma PrintAfterStore(s: string)
    requires |s| % 2 == 0 && IsHex(s)
    ensures Printed(Parsed(s)) == Lower(s)
  {
    var bytes := Parsed(s);
    var p, low := Printed(bytes), Lower(s);
    forall i | 0 <= i < |s| ensures p[i] == low[i] {
      ParsedAt(s, i);
      DigitTextOfDigit(s[i]);
    }
  }

  lemma PrintedIsHex(bytes: seq<byte>)
    ensures IsHex(Printed(bytes))
  {
    var s := Printed(bytes);
    forall i | 0 <= i < |s| ensures Nibble(s[i]).Some? {
      DigitOfDigitText(NibbleAt(bytes, i));
    }
  }

  /** Storing what is printed gives the same bytes back. */
  lemma StoreAfterPrint(bytes: seq<byte>)
    ensures |Printed(bytes)| % 2 == 0 && IsHex(Printed(bytes)) && Parsed(Printed(bytes)) == bytes
  {
    PrintedIsHex(bytes);
    var s := Printed(bytes);
    var r := Parsed(s);
    forall j | 0 <= j < |bytes| ensures r[j] == bytes[j] {
      NibblesOf(bytes, j);
      DigitOfDigitText(bytes[j] / 16);
      DigitOfDigitText(bytes[j] % 16);
      assert s[2 * j] == DigitText(bytes[j] / 16) && s[2 * j + 1] == DigitText(bytes[j] % 16);
    }
  }

  lemma PrintedNext(bytes: seq<byte>, i: nat)
    requires i < |bytes|
    ensures Printed(bytes[..i + 1]) == Printed(bytes[..i]) + [DigitText(bytes[i] / 16), DigitText(bytes[i] % 16)]
  {
    var head := bytes[..i + 1];
    var p, q := Printed(head), Printed(bytes[..i]);
    NibblesOf(head, i);
    assert p[2 * i] == DigitText(bytes[i] / 16) && p[2 * i + 1] == DigitText(bytes[i] % 16);
    forall k | 0 <= k < 2 * i ensures p[k] == q[k] {
      assert NibbleAt(head, k) == NibbleAt(bytes[..i], k);
    }
  }

  datatype StoreError = Stored | TypeMismatch | NoMemory | NvsError(code: nat)

  /** The loop of store_blob: an allocated blob is filled, or given up at a character that is no digit. */
  method ParsePairs(s: string) returns (r: Option<seq<byte>>)
    requires |s| % 2 == 0
    ensures r.Some? <==> IsHex(s)
    ensures r.Some? ==> r.value == Parsed(s)
  {
    var blob := new byte[|s| / 2];
    var i, j := 0, 0;
    while i < |s|
      invariant 0 <= i <= |s| && j == i / 2
      invariant IsHex(s[..i])
      invariant forall k :: 0 <= k < j ==> blob[k] == 16 * Digit(s[2 * k]) + Digit(s[2 * k + 1])
      invariant i % 2 == 1 ==> blob[j] == 16 * Digit(s[i - 1])
    {
      var value := Nibble(s[i]);
      if value.None? {
        return None;
      }
      if i % 2 == 1 {
        blob[j] := blob[j] + value.value;
        j := j + 1;
      } else {
        blob[j] := value.value * 16;
      }
      i := i + 1;
    }
    assert s[..|s|] == s;
    assert blob[..] == Parsed(s);
    return Some(blob[..]);
  }

  /**
   * Accepts exactly the hexadecimal texts of even length, memory permitting, and hands their bytes to
   * NVS. The length is looked at before memory is asked for, the characters after. written and commit
   * are what the two NVS calls answer; the second is made only if the first is fine.
   */
  method StoreBlob(s: string, memory: bool, written: StoreError, commit: StoreError)
      returns (err: StoreError, handed: Option<seq<byte>>)
    ensures handed.Some? <==> |s| % 2 == 0 && memory && IsHex(s)
    ensures handed.Some? ==> handed.value == Parsed(s) && err == if written.Stored? then commit else written
    ensures handed.None? ==> err == if |s| % 2 == 0 && !memory then NoMemory else TypeMismatch
  {
    if |s| % 2 != 0 {
      return TypeMismatch, None;
    }
    if !memory {
      return NoMemory, None;
    }
    handed := ParsePairs(s);
    if handed.None? {
      return TypeMismatch, None;
    }
    err := written;
    if err.Stored? {
      err := commit;
    }
  }

  /** One line of text. */
  method PrintBlob(blob: seq<byte>) returns (text: string)
    ensures text == Printed(blob) + "\n"
  {
    text := "";
    for i := 0 to |blob|
      invariant text == Printed(blob[..i])
    {
      text := text + [DigitText(blob[i] / 16), DigitText(blob[i] % 16)];
      PrintedNext(blob, i);
    }
    assert blob[..|blob|] == blob;
    text := text + "\n";
  }
}
