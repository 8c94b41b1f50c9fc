/**
 * The base 64 encoding of section 4 of RFC 4648 ("base64", with '+' and '/' and '=' padding),
 * which Python's `base64.b64encode` produces, and a decoder that inverts it.
 */
module Base64 {
  import opened Wrappers

  type byte = x: int | 0 <= x < 256
  type sextet = x: int | 0 <= x < 64

  /** Table 1 of RFC 4648: the 64-character alphabet. */
  function Char(v: sextet): char
  {
    if v < 26 then ('A' as int + v) as char
    else if v < 52 then ('a' as int + (v - 26)) as char
    else if v < 62 then ('0' as int + (v - 52)) as char
    else if v == 62 then '+'
    else '/'
  }

  predicate IsBase64Char(c: char)
  {
    || 'A' <= c <= 'Z' || 'a' <= c <= 'z' || '0' <= c <= '9' || c == '+' || c == '/'
  }

  /** The value of an alphabet character. */
  function Value(c: char): (v: sextet)
    requires IsBase64Char(c)
  {
    if 'A' <= c <= 'Z' then (c as int - 'A' as int)
    else if 'a' <= c <= 'z' then (c as int - 'a' as int + 26)
    else if '0' <= c <= '9' then (c as int - '0' as int + 52)
    else if c == '+' then 62
    else 63
  }

  lemma CharValue(v: sextet)
    ensures IsBase64Char(Char(v)) && Value(Char(v)) == v
  {
  }

  /**
   * The four characters of a 24-bit group: three input bytes read as four 6-bit values, most
   * significant first.
   */
  function Quantum(b0: byte, b1: byte, b2: byte): string
  {
    [Char(b0 / 4), Char((b0 % 4) * 16 + b1 / 16), Char((b1 % 16) * 4 + b2 / 64), Char(b2 % 64)]
  }

  /**
   * `b64encode`: whole groups of three bytes first; a final group of one or two bytes is padded
   * with zero bits and the missing characters are '='.
   */
  function Encode(data: seq<byte>): (s: string)
    ensures |s| == 4 * ((|data| + 2) / 3)
    decreases |data|
  {
    if |data| == 0 then ""
    else if |data| == 1 then Quantum(data[0], 0, 0)[..2] + "=="
    else if |data| == 2 then Quantum(data[0], data[1], 0)[..3] + "="
    else Quantum(data[0], data[1], data[2]) + Encode(data[3..])
  }

  /**
   * The bytes of one group of four characters, of which the last `padding` are '='. The bits a
   * padded group drops must be zero, as section 3.5 of RFC 4648 asks of an encoder, so that every
   * byte string has exactly one text that decodes to it.
   */
  function DecodeQuantum(q: string, padding: nat): Option<seq<byte>>
    requires |q| == 4 && padding <= 2
  {
    if exists i | 0 <= i < 4 - padding :: !IsBase64Char(q[i]) then None
    else
      var v0 := Value(q[0]);
      var v1 := Value(q[1]);
      var v2 := if padding < 2 then Value(q[2]) else 0;
      var v3 := if padding < 1 then Value(q[3]) else 0;
      if (padding == 2 && v1 % 16 != 0) || (padding == 1 && v2 % 4 != 0) then None
      else
        var bytes := [v0 * 4 + v1 / 16, (v1 % 16) * 16 + v2 / 4, (v2 % 4) * 64 + v3];
        Some(bytes[..3 - padding])
  }

  /** The number of '=' at the end of a group, as allowed in the last group only. */
  function Padding(q: string): nat
    requires |q| == 4
  {
    if q[2] == '=' && q[3] == '=' then 2 else if q[3] == '=' then 1 else 0
  }

  /** The inverse of `Encode`: `None` for text that is not canonical padded base64. */
  function Decode(s: string): Option<seq<byte>>
    decreases |s|
  {
    if |s| == 0 then Some([])
    else if |s| < 4 then None
    else if |s| == 4 then DecodeQuantum(s, Padding(s))
    else
      var head :- DecodeQuantum(s[..4], 0);
      var tail :- Decode(s[4..]);
      Some(head + tail)
  }

  /** Every character of an encoding is from the alphabet, apart from the trailing '='. */
  lemma {:induction false} EncodeAlphabet(data: seq<byte>)
    ensures forall i | 0 <= i < |Encode(data)| :: IsBase64Char(Encode(data)[i]) || Encode(data)[i] == '='
    ensures forall i | 0 <= i < |Encode(data)| && Encode(data)[i] == '=' :: i >= |Encode(data)| - 2
    decreases |data|
  {
    if |data| >= 3 {
      EncodeAlphabet(data[3..]);
      QuantumValues(data[0], data[1], data[2]);
      assert forall i | 4 <= i < |Encode(data)| :: Encode(data)[i] == Encode(data[3..])[i - 4];
    } else if |data| == 2 {
      QuantumValues(data[0], data[1], 0);
    } else if |data| == 1 {
      QuantumValues(data[0], 0, 0);
    }
  }

  /** The arithmetic of one group: the four 6-bit values give back the three bytes. */
  lemma SextetsRecombine(b0: byte, b1: byte, b2: byte)
    ensures (b0 / 4) * 4 + ((b0 % 4) * 16 + b1 / 16) / 16 == b0
    ensures (((b0 % 4) * 16 + b1 / 16) % 16) * 16 + ((b1 % 16) * 4 + b2 / 64) / 4 == b1
    ensures (((b1 % 16) * 4 + b2 / 64) % 4) * 64 + b2 % 64 == b2
  {
  }

  /** The four characters of a group are alphabet characters whose values are the group's sextets. */
  lemma QuantumValues(b0: byte, b1: byte, b2: byte)
    ensures var q := Quantum(b0, b1, b2);
      && (forall i | 0 <= i < 4 :: IsBase64Char(q[i]))
      && Value(q[0]) == b0 / 4 && Value(q[1]) == (b0 % 4) * 16 + b1 / 16
      && Value(q[2]) == (b1 % 16) * 4 + b2 / 64 && Value(q[3]) == b2 % 64
  {
    CharValue(b0 / 4);
    CharValue((b0 % 4) * 16 + b1 / 16);
    CharValue((b1 % 16) * 4 + b2 / 64);
    CharValue(b2 % 64);
  }

  lemma QuantumRoundTrip(b0: byte, b1: byte, b2: byte)
    ensures DecodeQuantum(Quantum(b0, b1, b2), 0) == Some([b0, b1, b2])
  {
    var q := Quantum(b0, b1, b2);
    QuantumValues(b0, b1, b2);
    assert !exists i | 0 <= i < 4 :: !IsBase64Char(q[i]);
    SextetsRecombine(b0, b1, b2);
    var bytes := [Value(q[0]) * 4 + Value(q[1]) / 16, (Value(q[1]) % 16) * 16 + Value(q[2]) / 4, (Value(q[2]) % 4) * 64 + Value(q[3])];
    assert bytes == [b0, b1, b2];
    assert bytes[..3] == bytes;
  }

  lemma PaddedTwoRoundTrip(b0: byte, b1: byte)
    ensures DecodeQuantum(Quantum(b0, b1, 0)[..3] + "=", 1) == Some([b0, b1])
  {
    var q := Quantum(b0, b1, 0)[..3] + "=";
    QuantumValues(b0, b1, 0);
    assert forall i | 0 <= i < 3 :: q[i] == Quantum(b0, b1, 0)[i];
    assert !exists i | 0 <= i < 3 :: !IsBase64Char(q[i]);
    SextetsRecombine(b0, b1, 0);
    var bytes := [Value(q[0]) * 4 + Value(q[1]) / 16, (Value(q[1]) % 16) * 16 + Value(q[2]) / 4, (Value(q[2]) % 4) * 64 + 0];
    assert bytes[..2] == [b0, b1];
  }

  lemma PaddedOneRoundTrip(b0: byte)
    ensures DecodeQuantum(Quantum(b0, 0, 0)[..2] + "==", 2) == Some([b0])
  {
    var q := Quantum(b0, 0, 0)[..2] + "==";
    QuantumValues(b0, 0, 0);
    assert forall i | 0 <= i < 2 :: q[i] == Quantum(b0, 0, 0)[i];
    assert !exists i | 0 <= i < 2 :: !IsBase64Char(q[i]);
    SextetsRecombine(b0, 0, 0);
    var bytes := [Value(q[0]) * 4 + Value(q[1]) / 16, (Value(q[1]) % 16) * 16 + 0 / 4, (0 % 4) * 64 + 0];
    assert bytes[..1] == [b0];
  }

  /** A last group of one byte: two characters and "==". */
  lemma DecodeEncodeOne(data: seq<byte>)
    requires |data| == 1
    ensures Decode(Encode(data)) == Some(data)
  {
    var s := Quantum(data[0], 0, 0)[..2] + "==";
    assert Encode(data) == s;
    assert Padding(s) == 2;
    PaddedOneRoundTrip(data[0]);
    assert [data[0]] == data;
  }

  /** A last group of two bytes: three characters and "=". */
  lemma DecodeEncodeTwo(data: seq<byte>)
    requires |data| == 2
    ensures Decode(Encode(data)) == Some(data)
  {
    var s := Quantum(data[0], data[1], 0)[..3] + "=";
    assert Encode(data) == s;
    QuantumValues(data[0], data[1], 0);
    assert s[2] == Quantum(data[0], data[1], 0)[2];
    assert Padding(s) == 1;
    PaddedTwoRoundTrip(data[0], data[1]);
    assert [data[0], data[1]] == data;
  }

  /** A last group of three bytes: four characters without padding. */
  lemma DecodeEncodeThree(data: seq<byte>)
    requires |data| == 3
    ensures Decode(Encode(data)) == Some(data)
  {
    QuantumRoundTrip(data[0], data[1], data[2]);
    assert Encode(data[3..]) == "";
    assert Encode(data) == Quantum(data[0], data[1], data[2]);
    QuantumValues(data[0], data[1], data[2]);
    assert Padding(Encode(data)) == 0;
    assert [data[0], data[1], data[2]] == data;
  }

  /** A group of three bytes followed by more: its four characters are decoded unpadded. */
  lemma DecodeEncodeStep(data: seq<byte>)
    requires |data| > 3
    requires Decode(Encode(data[3..])) == Some(data[3..])
    ensures Decode(Encode(data)) == Some(data)
  {
    EncodeFirstGroup(data);
    QuantumRoundTrip(data[0], data[1], data[2]);
    DecodeGroups(Quantum(data[0], data[1], data[2]), Encode(data[3..]), [data[0], data[1], data[2]], data[3..]);
    FirstThree(data);
  }

  lemma EncodeFirstGroup(data: seq<byte>)
    requires |data| > 3
    ensures Encode(data) == Quantum(data[0], data[1], data[2]) + Encode(data[3..])
    ensures |Encode(data[3..])| >= 4
  {
  }

  lemma FirstThree(data: seq<byte>)
    requires |data| >= 3
    ensures [data[0], data[1], data[2]] + data[3..] == data
  {
  }

  /** A full unpadded group in front of more text decodes to its bytes followed by the rest's. */
  lemma DecodeGroups(q: string, t: string, head: seq<byte>, tail: seq<byte>)
    requires |q| == 4 && |t| > 0
    requires DecodeQuantum(q, 0) == Some(head) && Decode(t) == Some(tail)
    ensures Decode(q + t) == Some(head + tail)
  {
    var s := q + t;
    assert s[..4] == q;
    assert s[4..] == t;
  }

  /** Decoding an encoding gives back the bytes. */
  lemma {:induction false} DecodeEncode(data: seq<byte>)
    ensures Decode(Encode(data)) == Some(data)
    decreases |data|
  {
    if |data| == 1 {
      DecodeEncodeOne(data);
    } else if |data| == 2 {
      DecodeEncodeTwo(data);
    } else if |data| == 3 {
      DecodeEncodeThree(data);
    } else if |data| > 3 {
      DecodeEncode(data[3..]);
      DecodeEncodeStep(data);
    }
  }

  lemma ValueChar(c: char)
    requires IsBase64Char(c)
    ensures Char(Value(c)) == c
  {
  }

  /** The arithmetic of one group read the other way: the three bytes give back the four 6-bit values. */
  lemma BytesRecombine(v0: sextet, v1: sextet, v2: sextet, v3: sextet)
    ensures var b0, b1, b2 := v0 * 4 + v1 / 16, (v1 % 16) * 16 + v2 / 4, (v2 % 4) * 64 + v3;
      && b0 / 4 == v0 && (b0 % 4) * 16 + b1 / 16 == v1
      && (b1 % 16) * 4 + b2 / 64 == v2 && b2 % 64 == v3
  {
  }

  /** The characters of the group built from the bytes that four 6-bit values make. */
  lemma QuantumOfSextets(v0: sextet, v1: sextet, v2: sextet, v3: sextet)
    ensures var b0, b1, b2 := v0 * 4 + v1 / 16, (v1 % 16) * 16 + v2 / 4, (v2 % 4) * 64 + v3;
      Quantum(b0, b1, b2) == [Char(v0), Char(v1), Char(v2), Char(v3)]
  {
    BytesRecombine(v0, v1, v2, v3);
  }

  /** What a full group that decodes is made of. */
  lemma DecodedFull(q: string)
    requires |q| == 4 && DecodeQuantum(q, 0).Some?
    ensures forall i | 0 <= i < 4 :: IsBase64Char(q[i])
    ensures DecodeQuantum(q, 0).value
      == [Value(q[0]) * 4 + Value(q[1]) / 16, (Value(q[1]) % 16) * 16 + Value(q[2]) / 4, (Value(q[2]) % 4) * 64 + Value(q[3])]
  {
  }

  /** A full group that decodes is the encoding of its three bytes. */
  lemma QuantumOfDecoded(q: string)
    requires |q| == 4 && DecodeQuantum(q, 0).Some?
    ensures var b := DecodeQuantum(q, 0).value;
      |b| == 3 && Quantum(b[0], b[1], b[2]) == q
  {
    DecodedFull(q);
    QuantumOfSextets(Value(q[0]), Value(q[1]), Value(q[2]), Value(q[3]));
    ValueChar(q[0]);
    ValueChar(q[1]);
    ValueChar(q[2]);
    ValueChar(q[3]);
    assert [q[0], q[1], q[2], q[3]] == q;
  }

  /** What a group with one '=' that decodes is made of. */
  lemma DecodedTwo(q: string)
    requires |q| == 4 && DecodeQuantum(q, 1).Some?
    ensures forall i | 0 <= i < 3 :: IsBase64Char(q[i])
    ensures Value(q[2]) % 4 == 0
    ensures DecodeQuantum(q, 1).value
      == [Value(q[0]) * 4 + Value(q[1]) / 16, (Value(q[1]) % 16) * 16 + Value(q[2]) / 4]
  {
  }

  /** A group with one '=' that decodes is the encoding of its two bytes. */
  lemma PaddedTwoOfDecoded(q: string)
    requires |q| == 4 && q[3] == '=' && DecodeQuantum(q, 1).Some?
    ensures var b := DecodeQuantum(q, 1).value;
      |b| == 2 && Quantum(b[0], b[1], 0)[..3] + "=" == q
  {
    DecodedTwo(q);
    QuantumOfSextets(Value(q[0]), Value(q[1]), Value(q[2]), 0);
    ValueChar(q[0]);
    ValueChar(q[1]);
    ValueChar(q[2]);
    assert [q[0], q[1], q[2], '='] == q;
  }

  /** A group with two '=' that decodes is the encoding of its byte. */
  lemma PaddedOneOfDecoded(q: string)
    requires |q| == 4 && q[2] == '=' && q[3] == '=' && DecodeQuantum(q, 2).Some?
    ensures var b := DecodeQuantum(q, 2).value;
      |b| == 1 && Quantum(b[0], 0, 0)[..2] + "==" == q
  {
    var b := DecodeQuantum(q, 2).value;
    assert forall i | 0 <= i < 2 :: IsBase64Char(q[i]);
    ValueChar(q[0]);
    ValueChar(q[1]);
    BytesRecombine(Value(q[0]), Value(q[1]), 0, 0);
    assert Value(q[1]) % 16 == 0;
  }

  /** The last group of a text: whatever it decodes to encodes back to it. */
  lemma {:induction false} EncodeDecodeLast(q: string)
    requires |q| == 4 && Decode(q).Some?
    ensures Encode(Decode(q).value) == q
  {
    var p := Padding(q);
    assert Decode(q) == DecodeQuantum(q, p);
    if p == 0 {
      QuantumOfDecoded(q);
      var b := Decode(q).value;
      assert b[3..] == [];
    } else if p == 1 {
      PaddedTwoOfDecoded(q);
    } else {
      PaddedOneOfDecoded(q);
    }
  }

  /** A full group in front of more text: the bytes it decodes to encode back to the whole text. */
  lemma {:induction false} EncodeDecodeStep(s: string)
    requires |s| > 4 && Decode(s).Some?
    requires Decode(s[4..]).Some? && Encode(Decode(s[4..]).value) == s[4..]
    ensures Encode(Decode(s).value) == s
  {
    var head := DecodeQuantum(s[..4], 0).value;
    var tail := Decode(s[4..]).value;
    assert Decode(s).value == head + tail;
    QuantumOfDecoded(s[..4]);
    assert |Encode(tail)| > 0;
    var data := head + tail;
    assert data[3..] == tail;
    assert [data[0], data[1], data[2]] == head;
    EncodeFirstGroup(data);
    assert s == s[..4] + s[4..];
  }

  /**
   * Decoding accepts only what `Encode` produces: whatever a text decodes to encodes back to
   * exactly that text, so no other spelling of the same bytes is accepted.
   */
  lemma {:induction false} EncodeDecode(s: string)
    requires Decode(s).Some?
    ensures Encode(Decode(s).value) == s
    decreases |s|
  {
    if |s| == 4 {
      EncodeDecodeLast(s);
    } else if |s| > 4 {
      EncodeDecode(s[4..]);
      EncodeDecodeStep(s);
    }
  }

  /** Two texts that decode to the same bytes are the same text. */
  lemma DecodeInjective(s: string, t: string)
    requires Decode(s).Some? && Decode(s) == Decode(t)
    ensures s == t
  {
    EncodeDecode(s);
    EncodeDecode(t);
  }

  /** Different byte strings have different encodings. */
  lemma EncodeInjective(a: seq<byte>, b: seq<byte>)
    requires Encode(a) == Encode(b)
    ensures a == b
  {
    DecodeEncode(a);
    DecodeEncode(b);
  }
}
