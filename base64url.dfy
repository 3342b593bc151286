/** The URL-safe base64 alphabet and codec of section 5 of RFC 4648, as
    Python's `base64.urlsafe_b64encode` and `base64.urlsafe_b64decode` apply
    it: the encoder always pads to a multiple of four characters with `=`,
    the decoder accepts padded input. */
module Base64Url {
  import opened Wrappers
  import Strings

  type Byte = Strings.Byte

  /** The 64 characters of the URL-safe alphabet: `A-Z a-z 0-9 - _`. */
  predicate IsAlphabet(c: char) {
    ('A' <= c <= 'Z') || ('a' <= c <= 'z') || ('0' <= c <= '9') || c == '-' || c == '_'
  }

  /** The character standing for a 6-bit value. */
  function Digit(v: int): (c: char)
    requires 0 <= v < 64
    ensures IsAlphabet(c) && c != '=' && DigitValue(c) == v
  {
    if v < 26 then (65 + v) as char
    else if v < 52 then (97 + v - 26) as char
    else if v < 62 then (48 + v - 52) as char
    else if v == 62 then '-'
    else '_'
  }

  /** The 6-bit value of an alphabet character. */
  function DigitValue(c: char): (v: int)
    requires IsAlphabet(c)
    ensures 0 <= v < 64
  {
    if 'A' <= c <= 'Z' then c as int - 65
    else if 'a' <= c <= 'z' then c as int - 97 + 26
    else if '0' <= c <= '9' then c as int - 48 + 52
    else if c == '-' then 62
    else 63
  }

  /** Three bytes as four characters. */
  function EncodeTriple(b0: Byte, b1: Byte, b2: Byte): string {
    [Digit(b0 / 4), Digit((b0 % 4) * 16 + b1 / 16), Digit((b1 % 16) * 4 + b2 / 64), Digit(b2 % 64)]
  }

  /** `urlsafe_b64encode`: a final group of one or two bytes is padded to four characters with `=`. */
  function EncodePadded(b: seq<Byte>): (s: string)
    ensures |s| == 4 * ((|b| + 2) / 3)
    decreases |b|
  {
    if |b| == 0 then ""
    else if |b| == 1 then [Digit(b[0] / 4), Digit((b[0] % 4) * 16), '=', '=']
    else if |b| == 2 then [Digit(b[0] / 4), Digit((b[0] % 4) * 16 + b[1] / 16), Digit((b[1] % 16) * 4), '=']
    else EncodeTriple(b[0], b[1], b[2]) + EncodePadded(b[3..])
  }

  /** The characters of the encoding other than its padding, defined group by group. */
  function EncodeBody(b: seq<Byte>): (s: string)
    ensures forall i | 0 <= i < |s| :: IsAlphabet(s[i]) && s[i] != '='
    ensures |s| == 4 * (|b| / 3) + (if |b| % 3 == 0 then 0 else if |b| % 3 == 1 then 2 else 3)
    decreases |b|
  {
    if |b| == 0 then ""
    else if |b| == 1 then [Digit(b[0] / 4), Digit((b[0] % 4) * 16)]
    else if |b| == 2 then [Digit(b[0] / 4), Digit((b[0] % 4) * 16 + b[1] / 16), Digit((b[1] % 16) * 4)]
    else EncodeTriple(b[0], b[1], b[2]) + EncodeBody(b[3..])
  }

  /** The number of `=` the encoder appends for `n` input bytes. */
  function PadCount(n: nat): (k: nat)
    ensures k <= 2
  {
    (3 - n % 3) % 3
  }

  lemma PadCountPeriodic(n: nat)
    ensures PadCount(n + 3) == PadCount(n)
  {
    assert (n + 3) % 3 == n % 3;
  }

  /** The padded encoding is the body followed by 0, 1 or 2 `=`. */
  lemma {:induction false} PaddedIsBodyThenPad(b: seq<Byte>)
    ensures EncodePadded(b) == EncodeBody(b) + Strings.Repeat('=', PadCount(|b|))
    decreases |b|
  {
    var pad := Strings.Repeat('=', PadCount(|b|));
    if |b| == 0 {
      assert pad == "";
    } else if |b| == 1 {
      assert pad == "==";
    } else if |b| == 2 {
      assert pad == "=";
    } else {
      PadCountPeriodic(|b[3..]|);
      PaddedIsBodyThenPad(b[3..]);
      var t := EncodeTriple(b[0], b[1], b[2]);
      calc {
        EncodePadded(b);
        t + EncodePadded(b[3..]);
        t + (EncodeBody(b[3..]) + pad);
        (t + EncodeBody(b[3..])) + pad;
        EncodeBody(b) + pad;
      }
    }
  }

  /** One group of four characters.  `=` may stand only in the last group,
      as its final one or two characters. */
  function DecodeGroup(c0: char, c1: char, c2: char, c3: char, last: bool): (r: Option<seq<Byte>>)
    ensures r.Some? ==> IsAlphabet(c0) && IsAlphabet(c1)
    ensures r.Some? ==> (IsAlphabet(c2) || (last && c2 == '=' && c3 == '=')) && (IsAlphabet(c3) || (last && c3 == '='))
    ensures r.Some? ==> |r.value| == (if c2 == '=' then 1 else if c3 == '=' then 2 else 3)
    ensures IsAlphabet(c0) && IsAlphabet(c1) && IsAlphabet(c2) && IsAlphabet(c3) ==> r.Some?
  {
    if !IsAlphabet(c0) || !IsAlphabet(c1) then None
    else
      var v0, v1 := DigitValue(c0), DigitValue(c1);
      var x0: Byte := v0 * 4 + v1 / 16;
      if IsAlphabet(c2) && IsAlphabet(c3) then
        var v2, v3 := DigitValue(c2), DigitValue(c3);
        Some([x0, (v1 % 16) * 16 + v2 / 4, (v2 % 4) * 64 + v3])
      else if last && IsAlphabet(c2) && c3 == '=' then
        var v2 := DigitValue(c2);
        Some([x0, (v1 % 16) * 16 + v2 / 4])
      else if last && c2 == '=' && c3 == '=' then
        Some([x0])
      else None
  }

  /** `urlsafe_b64decode` on input in the padded form: the length must be a
      multiple of four and every character from the alphabet, apart from the
      padding of the last group.  Unused low bits of the last group are ignored. */
  function Decode(s: string): (r: Option<seq<Byte>>)
    ensures r.Some? ==> |s| % 4 == 0
    ensures r.Some? ==> forall i | 0 <= i < |s| :: IsAlphabet(s[i]) || (s[i] == '=' && i >= |s| - 2)
    ensures r.Some? ==> 3 * (|s| / 4) - 2 <= |r.value| <= 3 * (|s| / 4)
    ensures |s| % 4 == 0 && (forall i | 0 <= i < |s| :: IsAlphabet(s[i])) ==> r.Some? && |r.value| == 3 * (|s| / 4)
    decreases |s|
  {
    if |s| == 0 then Some([])
    else if |s| < 4 then None
    else
      match DecodeGroup(s[0], s[1], s[2], s[3], |s| == 4)
      case None => None
      case Some(first) =>
        match Decode(s[4..])
        case None => None
        case Some(rest) => Some(first + rest)
  }

  /** The decoder inverts the arithmetic of a full group. */
  lemma TripleArithmetic(b0: Byte, b1: Byte, b2: Byte)
    ensures var v1 := (b0 % 4) * 16 + b1 / 16; var v2 := (b1 % 16) * 4 + b2 / 64;
      (b0 / 4) * 4 + v1 / 16 == b0 && (v1 % 16) * 16 + v2 / 4 == b1 && (v2 % 4) * 64 + b2 % 64 == b2
  {
    var v1 := (b0 % 4) * 16 + b1 / 16;
    var v2 := (b1 % 16) * 4 + b2 / 64;
    DivMod16(b0 % 4, b1 / 16);
    DivMod4(b1 % 16, b2 / 64);
  }

  /** `(q * 16 + r) / 16 == q` and `% 16 == r` for a digit `r` below 16. */
  lemma DivMod16(q: nat, r: nat)
    requires r < 16
    ensures (q * 16 + r) / 16 == q && (q * 16 + r) % 16 == r
  {
  }

  /** `(q * 4 + r) / 4 == q` and `% 4 == r` for `r` below 4. */
  lemma DivMod4(q: nat, r: nat)
    requires r < 4
    ensures (q * 4 + r) / 4 == q && (q * 4 + r) % 4 == r
  {
  }

  /** A full group decodes to its three bytes, wherever it stands. */
  lemma DecodeFullGroup(b0: Byte, b1: Byte, b2: Byte, last: bool)
    ensures var t := EncodeTriple(b0, b1, b2); DecodeGroup(t[0], t[1], t[2], t[3], last) == Some([b0, b1, b2])
  {
    TripleArithmetic(b0, b1, b2);
  }

  /** The final group of a one-byte remainder decodes to that byte. */
  lemma DecodeEncodeOne(b: seq<Byte>)
    requires |b| == 1
    ensures Decode(EncodePadded(b)) == Some(b)
  {
    assert EncodePadded(b) == [Digit(b[0] / 4), Digit((b[0] % 4) * 16), '=', '='];
    DecodeOne(b[0]);
    ShortBytes(b);
  }

  lemma DecodeOne(b0: Byte)
    ensures Decode([Digit(b0 / 4), Digit((b0 % 4) * 16), '=', '=']) == Some([b0])
  {
    DecodeOneGroup(b0);
    DecodeLastGroup([Digit(b0 / 4), Digit((b0 % 4) * 16), '=', '='], [b0]);
  }

  /** The final group of a two-byte remainder decodes to those bytes. */
  lemma DecodeEncodeTwo(b: seq<Byte>)
    requires |b| == 2
    ensures Decode(EncodePadded(b)) == Some(b)
  {
    assert EncodePadded(b) == [Digit(b[0] / 4), Digit((b[0] % 4) * 16 + b[1] / 16), Digit((b[1] % 16) * 4), '='];
    DecodeTwo(b[0], b[1]);
    ShortBytes(b);
  }

  lemma DecodeTwo(b0: Byte, b1: Byte)
    ensures Decode([Digit(b0 / 4), Digit((b0 % 4) * 16 + b1 / 16), Digit((b1 % 16) * 4), '=']) == Some([b0, b1])
  {
    DecodeTwoGroup(b0, b1);
    DecodeLastGroup([Digit(b0 / 4), Digit((b0 % 4) * 16 + b1 / 16), Digit((b1 % 16) * 4), '='], [b0, b1]);
  }

  /** A lone group decodes as the last group. */
  lemma DecodeLastGroup(t: string, x: seq<Byte>)
    requires |t| == 4 && DecodeGroup(t[0], t[1], t[2], t[3], true) == Some(x)
    ensures Decode(t) == Some(x)
  {
    assert t[4..] == "";
    assert x + [] == x;
  }

  lemma DecodeOneGroup(b0: Byte)
    ensures DecodeGroup(Digit(b0 / 4), Digit((b0 % 4) * 16), '=', '=', true) == Some([b0])
  {
    DivMod16(b0 % 4, 0);
  }

  lemma DecodeTwoGroup(b0: Byte, b1: Byte)
    ensures DecodeGroup(Digit(b0 / 4), Digit((b0 % 4) * 16 + b1 / 16), Digit((b1 % 16) * 4), '=', true)
      == Some([b0, b1])
  {
    var v1 := (b0 % 4) * 16 + b1 / 16;
    var v2 := (b1 % 16) * 4;
    DivMod16(b0 % 4, b1 / 16);
    DivMod4(b1 % 16, 0);
    assert (v1 % 16) * 16 + v2 / 4 == b1;
  }

  /** Decoding the padded encoding gives back the bytes. */
  lemma {:induction false} DecodeEncode(b: seq<Byte>)
    ensures Decode(EncodePadded(b)) == Some(b)
    decreases |b|
  {
    if |b| == 0 {
    } else if |b| == 1 {
      DecodeEncodeOne(b);
    } else if |b| == 2 {
      DecodeEncodeTwo(b);
    } else {
      var t := EncodeTriple(b[0], b[1], b[2]);
      var rest := EncodePadded(b[3..]);
      assert EncodePadded(b) == t + rest;
      DecodeFullGroup(b[0], b[1], b[2], |rest| == 0);
      DecodeEncode(b[3..]);
      DecodeAppendGroup(t, rest, [b[0], b[1], b[2]], b[3..]);
      ThreeThenRest(b);
    }
  }

  lemma ShortBytes(b: seq<Byte>)
    ensures |b| == 1 ==> [b[0]] == b
    ensures |b| == 2 ==> [b[0], b[1]] == b
  {
  }

  lemma ThreeThenRest(b: seq<Byte>)
    requires |b| >= 3
    ensures [b[0], b[1], b[2]] + b[3..] == b
  {
  }

  /** A decodable group in front of a decodable rest decodes to the
      concatenation. */
  lemma DecodeAppendGroup(t: string, rest: string, x: seq<Byte>, y: seq<Byte>)
    requires |t| == 4 && DecodeGroup(t[0], t[1], t[2], t[3], |rest| == 0) == Some(x)
    requires Decode(rest) == Some(y)
    ensures Decode(t + rest) == Some(x + y)
  {
    var s := t + rest;
    assert s[4..] == rest;
    assert s[0] == t[0] && s[1] == t[1] && s[2] == t[2] && s[3] == t[3];
  }
}
