/** Base64 with the standard alphabet and `=` padding (section 4 of RFC 4648), as
    `base64.b64encode` writes it and as `base64.b64decode` (non-validating) reads it.
    The decoder follows CPython's `binascii.a2b_base64` in its lenient mode: a `str`
    argument must be ASCII, characters outside the alphabet are skipped, a pad
    sequence that completes a quantum ends the input, and a final partial quantum is
    an error. */
module Base64 {
  import opened Common

  /** The character for a 6-bit value. */
  function EncodeSextet(n: int): (c: char)
    requires 0 <= n < 64
  {
    if n < 26 then ('A' as int + n) as char
    else if n < 52 then ('a' as int + (n - 26)) as char
    else if n < 62 then ('0' as int + (n - 52)) as char
    else if n == 62 then '+'
    else '/'
  }

  /** The 6-bit value of an alphabet character, or -1 for any other character. */
  function DecodeSextet(c: char): (n: int)
    ensures -1 <= n < 64
  {
    if 'A' <= c <= 'Z' then c as int - 'A' as int
    else if 'a' <= c <= 'z' then c as int - 'a' as int + 26
    else if '0' <= c <= '9' then c as int - '0' as int + 52
    else if c == '+' then 62
    else if c == '/' then 63
    else -1
  }

  lemma DecodeEncodeSextet(n: int)
    requires 0 <= n < 64
    ensures DecodeSextet(EncodeSextet(n)) == n
    ensures EncodeSextet(n) != '='
  {
  }

  function Encode(b: seq<byte>): (r: string)
    decreases |b|
  {
    if |b| == 0 then ""
    else if |b| == 1 then
      [EncodeSextet(b[0] / 4), EncodeSextet((b[0] % 4) * 16), '=', '=']
    else if |b| == 2 then
      [EncodeSextet(b[0] / 4), EncodeSextet((b[0] % 4) * 16 + b[1] / 16), EncodeSextet((b[1] % 16) * 4), '=']
    else
      [EncodeSextet(b[0] / 4), EncodeSextet((b[0] % 4) * 16 + b[1] / 16),
       EncodeSextet((b[1] % 16) * 4 + b[2] / 64), EncodeSextet(b[2] % 64)]
      + Encode(b[3..])
  }

  /** Four characters for every started group of three bytes. */
  lemma {:induction false} EncodeLength(b: seq<byte>)
    ensures |Encode(b)| == 4 * ((|b| + 2) / 3)
  {
    if |b| > 2 {
      EncodeLength(b[3..]);
      var n := |b[3..]|;
      assert |b| == n + 3;
      assert (n + 5) / 3 == (n + 2) / 3 + 1;
    } else {
      assert (|b| + 2) / 3 == (if |b| == 0 then 0 else 1);
    }
  }

  /** The encoding is ASCII: every character is an alphabet character or `=`. */
  lemma {:induction false} EncodeAscii(b: seq<byte>)
    ensures forall k :: 0 <= k < |Encode(b)| ==> (Encode(b)[k] as int) < 0x80
  {
    if |b| > 2 {
      EncodeAscii(b[3..]);
      var e := Encode(b);
      assert e[4..] == Encode(b[3..]);
      forall k | 4 <= k < |e| ensures (e[k] as int) < 0x80 { assert e[k] == e[4..][k - 4]; }
    }
  }

  /** The decoder's registers: the position in the current quantum, the bits still
      owed to the next byte, and the pad characters seen. */
  datatype DecoderState = DecoderState(quadPos: int, leftChar: int, pads: int)

  const Start := DecoderState(0, 0, 0)

  /** The decoding loop from the current state over the remaining characters. */
  function Run(s: string, st: DecoderState, out: seq<byte>): (r: Option<seq<byte>>)
    requires 0 <= st.quadPos < 4 && 0 <= st.leftChar < 64
    decreases |s|
  {
    if |s| == 0 then
      if st.quadPos == 0 then Some(out) else None
    else if s[0] == '=' then
      if st.quadPos >= 2 && st.quadPos + st.pads + 1 >= 4 then Some(out)
      else Run(s[1..], st.(pads := if st.quadPos >= 2 then st.pads + 1 else st.pads), out)
    else
      var v := DecodeSextet(s[0]);
      if v < 0 then Run(s[1..], st, out)
      else if st.quadPos == 0 then Run(s[1..], DecoderState(1, v, 0), out)
      else if st.quadPos == 1 then Run(s[1..], DecoderState(2, v % 16, 0), out + [st.leftChar * 4 + v / 16])
      else if st.quadPos == 2 then Run(s[1..], DecoderState(3, v % 4, 0), out + [(st.leftChar % 16) * 16 + v / 4])
      else Run(s[1..], DecoderState(0, 0, 0), out + [(st.leftChar % 4) * 64 + v])
  }

  /** `base64.b64decode(s)` for a `str` argument; None where Python raises. */
  function Decode(s: string): (r: Option<seq<byte>>)
    ensures (exists k | 0 <= k < |s| :: (s[k] as int) >= 0x80) ==> r.None?
  {
    if exists k | 0 <= k < |s| :: (s[k] as int) >= 0x80 then None
    else Run(s, Start, [])
  }

  /** One alphabet character fed to the decoder at quantum position 0, 1, 2 or 3. */
  lemma Feed0(c: char, t: string, out: seq<byte>)
    requires c != '=' && DecodeSextet(c) >= 0
    ensures Run([c] + t, Start, out) == Run(t, DecoderState(1, DecodeSextet(c), 0), out)
  {
    assert ([c] + t)[0] == c && ([c] + t)[1..] == t;
  }

  lemma Feed1(c: char, t: string, left: int, out: seq<byte>)
    requires 0 <= left < 64 && c != '=' && DecodeSextet(c) >= 0
    ensures Run([c] + t, DecoderState(1, left, 0), out)
         == Run(t, DecoderState(2, DecodeSextet(c) % 16, 0), out + [left * 4 + DecodeSextet(c) / 16])
  {
    assert ([c] + t)[0] == c && ([c] + t)[1..] == t;
  }

  lemma Feed2(c: char, t: string, left: int, out: seq<byte>)
    requires 0 <= left < 16 && c != '=' && DecodeSextet(c) >= 0
    ensures Run([c] + t, DecoderState(2, left, 0), out)
         == Run(t, DecoderState(3, DecodeSextet(c) % 4, 0), out + [left * 16 + DecodeSextet(c) / 4])
  {
    assert ([c] + t)[0] == c && ([c] + t)[1..] == t;
    assert left % 16 == left;
  }

  lemma Feed3(c: char, t: string, left: int, out: seq<byte>)
    requires 0 <= left < 4 && c != '=' && DecodeSextet(c) >= 0
    ensures Run([c] + t, DecoderState(3, left, 0), out) == Run(t, Start, out + [left * 64 + DecodeSextet(c)])
  {
    assert ([c] + t)[0] == c && ([c] + t)[1..] == t;
    assert left % 4 == left;
  }

  /** The bit arithmetic of one quantum: the four sextets reassemble the three bytes. */
  lemma GroupArithmetic(b0: byte, b1: byte, b2: byte)
    ensures (b0 / 4) * 4 + ((b0 % 4) * 16 + b1 / 16) / 16 == b0
    ensures (((b0 % 4) * 16 + b1 / 16) % 16) * 16 + ((b1 % 16) * 4 + b2 / 64) / 4 == b1
    ensures (((b1 % 16) * 4 + b2 / 64) % 4) * 64 + b2 % 64 == b2
  {
  }

  lemma RunGroup(b0: byte, b1: byte, b2: byte, rest: string, out: seq<byte>)
    ensures Run([EncodeSextet(b0 / 4), EncodeSextet((b0 % 4) * 16 + b1 / 16),
                 EncodeSextet((b1 % 16) * 4 + b2 / 64), EncodeSextet(b2 % 64)] + rest, Start, out)
         == Run(rest, Start, out + [b0, b1, b2])
  {
    var v0, v1, v2, v3 := b0 / 4, (b0 % 4) * 16 + b1 / 16, (b1 % 16) * 4 + b2 / 64, b2 % 64;
    var c0, c1, c2, c3 := EncodeSextet(v0), EncodeSextet(v1), EncodeSextet(v2), EncodeSextet(v3);
    DecodeEncodeSextet(v0);
    DecodeEncodeSextet(v1);
    DecodeEncodeSextet(v2);
    DecodeEncodeSextet(v3);
    GroupArithmetic(b0, b1, b2);
    var t1 := [c1] + ([c2] + ([c3] + rest));
    var t2 := [c2] + ([c3] + rest);
    var t3 := [c3] + rest;
    assert [c0, c1, c2, c3] + rest == [c0] + t1;
    Feed0(c0, t1, out);
    Feed1(c1, t2, v0, out);
    Feed2(c2, t3, v1 % 16, out + [b0]);
    Feed3(c3, rest, v2 % 4, out + [b0] + [b1]);
    assert out + [b0] + [b1] + [b2] == out + [b0, b1, b2];
  }

  lemma RunPaddedOne(b0: byte, rest: string, out: seq<byte>)
    ensures Run([EncodeSextet(b0 / 4), EncodeSextet((b0 % 4) * 16), '=', '='] + rest, Start, out)
         == Some(out + [b0])
  {
    var v0, v1 := b0 / 4, (b0 % 4) * 16;
    var c0, c1 := EncodeSextet(v0), EncodeSextet(v1);
    DecodeEncodeSextet(v0);
    DecodeEncodeSextet(v1);
    assert v0 * 4 + v1 / 16 == b0;
    var t2 := ['=', '='] + rest;
    var t1 := [c1] + t2;
    assert [c0, c1, '=', '='] + rest == [c0] + t1;
    Feed0(c0, t1, out);
    Feed1(c1, t2, v0, out);
    assert t2[0] == '=' && t2[1..] == ['='] + rest;
    var st := DecoderState(2, v1 % 16, 0);
    assert Run(t2, st, out + [b0]) == Run(['='] + rest, st.(pads := 1), out + [b0]);
    assert (['='] + rest)[0] == '=';
  }

  lemma RunPaddedTwo(b0: byte, b1: byte, rest: string, out: seq<byte>)
    ensures Run([EncodeSextet(b0 / 4), EncodeSextet((b0 % 4) * 16 + b1 / 16), EncodeSextet((b1 % 16) * 4), '='] + rest, Start, out)
         == Some(out + [b0, b1])
  {
    var v0, v1, v2 := b0 / 4, (b0 % 4) * 16 + b1 / 16, (b1 % 16) * 4;
    var c0, c1, c2 := EncodeSextet(v0), EncodeSextet(v1), EncodeSextet(v2);
    DecodeEncodeSextet(v0);
    DecodeEncodeSextet(v1);
    DecodeEncodeSextet(v2);
    GroupArithmetic(b0, b1, 0);
    var t3 := ['='] + rest;
    var t2 := [c2] + t3;
    var t1 := [c1] + t2;
    assert [c0, c1, c2, '='] + rest == [c0] + t1;
    Feed0(c0, t1, out);
    Feed1(c1, t2, v0, out);
    Feed2(c2, t3, v1 % 16, out + [b0]);
    assert t3[0] == '=';
    assert out + [b0] + [b1] == out + [b0, b1];
  }

  lemma {:induction false} RunEncode(b: seq<byte>, out: seq<byte>)
    ensures Run(Encode(b), Start, out) == Some(out + b)
    decreases |b|
  {
    if |b| == 0 {
      assert out + b == out;
    } else if |b| == 1 {
      var e := [EncodeSextet(b[0] / 4), EncodeSextet((b[0] % 4) * 16), '=', '='];
      assert Encode(b) == e;
      RunPaddedOne(b[0], "", out);
      assert e + "" == e;
      assert b == [b[0]];
    } else if |b| == 2 {
      var e := [EncodeSextet(b[0] / 4), EncodeSextet((b[0] % 4) * 16 + b[1] / 16), EncodeSextet((b[1] % 16) * 4), '='];
      assert Encode(b) == e;
      RunPaddedTwo(b[0], b[1], "", out);
      assert e + "" == e;
      assert b == [b[0], b[1]];
    } else {
      RunEncodeGroup(b, out);
    }
  }

  lemma {:induction false} RunEncodeGroup(b: seq<byte>, out: seq<byte>)
    requires |b| > 2
    ensures Run(Encode(b), Start, out) == Some(out + b)
    decreases |b|, 0
  {
    var head := [b[0], b[1], b[2]];
    RunGroup(b[0], b[1], b[2], Encode(b[3..]), out);
    RunEncode(b[3..], out + head);
    assert b == head + b[3..];
    assert out + head + b[3..] == out + b;
  }

  /** Decoding what was encoded gives the bytes back. */
  lemma DecodeEncode(b: seq<byte>)
    ensures Decode(Encode(b)) == Some(b)
  {
    EncodeAscii(b);
    RunEncode(b, []);
    assert [] + b == b;
  }
}
