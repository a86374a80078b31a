/** Unpadded base64url, section 5 of RFC 4648, as experiments/codex-paginated-generation-prototype.py wraps and
    unwraps its cursors: written without padding, and read by Python's lenient decoder with "===" appended. */
module Base64Url {
  import opened Common

  type Bytes = b: seq<int> | forall i | 0 <= i < |b| :: 0 <= b[i] < 256 witness []

  function Digit(v: int): char
    requires 0 <= v < 64
  {
    if v < 26 then 'A' + v as char
    else if v < 52 then 'a' + (v - 26) as char
    else if v < 62 then '0' + (v - 52) as char
    else if v == 62 then '-' else '_'
  }

  /** The decoder reads the standard alphabet too. */
  function Value(c: char): (v: Option<int>)
    ensures v.Some? ==> 0 <= v.value < 64
  {
    if 'A' <= c <= 'Z' then Some(c as int - 'A' as int)
    else if 'a' <= c <= 'z' then Some(c as int - 'a' as int + 26)
    else if '0' <= c <= '9' then Some(c as int - '0' as int + 52)
    else if c == '-' || c == '+' then Some(62)
    else if c == '_' || c == '/' then Some(63)
    else None
  }

  lemma {:induction false} ValueOfDigit(v: int)
    requires 0 <= v < 64
    ensures Value(Digit(v)) == Some(v) && Digit(v) != '='
  {
  }

  /** Three bytes at a time become four digits; what is left over becomes two or three. */
  function Encode(b: Bytes): string {
    if b == [] then ""
    else if |b| == 1 then [Digit(b[0] / 4), Digit(b[0] % 4 * 16)]
    else if |b| == 2 then [Digit(b[0] / 4), Digit(b[0] % 4 * 16 + b[1] / 16), Digit(b[1] % 16 * 4)]
    else
      [Digit(b[0] / 4), Digit(b[0] % 4 * 16 + b[1] / 16), Digit(b[1] % 16 * 4 + b[2] / 64), Digit(b[2] % 64)]
      + Encode(b[3..])
  }

  // --- Six bits at a time ----------------------------------------------------------------------------

  function Row(first: char, n: nat): (row: string)
    requires first as int + n <= 128
    ensures |row| == n
  {
    seq(n, i requires 0 <= i < n => first + i as char)
  }

  /** Section 5: the capital letters, the small ones, the digits, the hyphen and the low line. */
  const ALPHABET: string := Row('A', 26) + Row('a', 26) + Row('0', 10) + "-_"

  /** A bit of a string of bytes, from the most significant of the first on; behind the last there are zeros. */
  function Bit(b: Bytes, k: nat): (bit: int)
    ensures bit == 0 || bit == 1
  {
    if k / 8 >= |b| then 0
    else
      var x := b[k / 8];
      match k % 8
      case 0 => x / 128
      case 1 => x / 64 % 2
      case 2 => x / 32 % 2
      case 3 => x / 16 % 2
      case 4 => x / 8 % 2
      case 5 => x / 4 % 2
      case 6 => x / 2 % 2
      case _ => x % 2
  }

  function SixBits(b: Bytes, at: nat): (v: int)
    ensures 0 <= v < 64
  {
    32 * Bit(b, at) + 16 * Bit(b, at + 1) + 8 * Bit(b, at + 2) + 4 * Bit(b, at + 3) + 2 * Bit(b, at + 4)
      + Bit(b, at + 5)
  }

  lemma {:induction false} DigitIsListed(v: int)
    requires 0 <= v < 64
    ensures |ALPHABET| == 64 && Digit(v) == ALPHABET[v]
  {
  }

  /** A number is twice its half and its last bit, seven times over. */
  lemma {:induction false} Halves(x: int)
    requires 0 <= x < 256
    ensures x == 2 * (x / 2) + x % 2 && x / 2 == 2 * (x / 4) + x / 2 % 2 && x / 4 == 2 * (x / 8) + x / 4 % 2
    ensures x / 8 == 2 * (x / 16) + x / 8 % 2 && x / 16 == 2 * (x / 32) + x / 16 % 2
    ensures x / 32 == 2 * (x / 64) + x / 32 % 2 && x / 64 == 2 * (x / 128) + x / 64 % 2 && 0 <= x / 128 < 2
  {
    LowHalves(x);
    HighHalves(x);
  }

  lemma {:induction false} LowHalves(x: int)
    requires 0 <= x < 256
    ensures x == 2 * (x / 2) + x % 2 && x / 2 == 2 * (x / 4) + x / 2 % 2 && x / 4 == 2 * (x / 8) + x / 4 % 2
  {
  }

  lemma {:induction false} HighHalves(x: int)
    requires 0 <= x < 256
    ensures x / 8 == 2 * (x / 16) + x / 8 % 2 && x / 16 == 2 * (x / 32) + x / 16 % 2
    ensures x / 32 == 2 * (x / 64) + x / 32 % 2 && x / 64 == 2 * (x / 128) + x / 64 % 2 && 0 <= x / 128 < 2
  {
  }

  lemma {:induction false} Cuts(x: int)
    requires 0 <= x < 256
    ensures x % 4 == x - 4 * (x / 4) && x % 16 == x - 16 * (x / 16) && x % 64 == x - 64 * (x / 64)
  {
  }

  lemma {:induction false} BitsAre(b: Bytes, i: nat)
    requires i < |b|
    ensures Bit(b, 8 * i) == b[i] / 128 && Bit(b, 8 * i + 1) == b[i] / 64 % 2 && Bit(b, 8 * i + 2) == b[i] / 32 % 2
    ensures Bit(b, 8 * i + 3) == b[i] / 16 % 2 && Bit(b, 8 * i + 4) == b[i] / 8 % 2 && Bit(b, 8 * i + 5) == b[i] / 4 % 2
    ensures Bit(b, 8 * i + 6) == b[i] / 2 % 2 && Bit(b, 8 * i + 7) == b[i] % 2
  {
  }

  lemma {:induction false} BitsBehind(b: Bytes, k: nat)
    requires k >= 8 * |b|
    ensures Bit(b, k) == 0
  {
  }

  lemma {:induction false} FirstDigits(b: Bytes)
    requires b != []
    ensures SixBits(b, 0) == b[0] / 4
    ensures SixBits(b, 6) == b[0] % 4 * 16 + (if |b| > 1 then b[1] / 16 else 0)
  {
    hide Bit;
    BitsAre(b, 0);
    Halves(b[0]);
    Cuts(b[0]);
    if |b| > 1 {
      BitsAre(b, 1);
      Halves(b[1]);
    } else {
      BitsBehind(b, 8);
      BitsBehind(b, 9);
      BitsBehind(b, 10);
      BitsBehind(b, 11);
    }
  }

  lemma {:induction false} NextDigits(b: Bytes)
    requires |b| > 1
    ensures SixBits(b, 12) == b[1] % 16 * 4 + (if |b| > 2 then b[2] / 64 else 0)
    ensures |b| > 2 ==> SixBits(b, 18) == b[2] % 64
  {
    hide Bit;
    BitsAre(b, 1);
    Halves(b[1]);
    Cuts(b[1]);
    if |b| > 2 {
      BitsAre(b, 2);
      Halves(b[2]);
      Cuts(b[2]);
    } else {
      BitsBehind(b, 16);
      BitsBehind(b, 17);
    }
  }

  lemma {:induction false} LaterBit(b: Bytes, k: nat)
    requires |b| >= 3
    ensures Bit(b, k + 24) == Bit(b[3..], k)
  {
    assert (k + 24) / 8 == k / 8 + 3 && (k + 24) % 8 == k % 8;
  }

  lemma {:induction false} LaterDigit(b: Bytes, i: nat)
    requires |b| >= 3
    ensures SixBits(b, 6 * (i + 4)) == SixBits(b[3..], 6 * i)
  {
    hide Bit;
    LaterBit(b, 6 * i);
    LaterBit(b, 6 * i + 1);
    LaterBit(b, 6 * i + 2);
    LaterBit(b, 6 * i + 3);
    LaterBit(b, 6 * i + 4);
    LaterBit(b, 6 * i + 5);
  }

  /** Section 4 of RFC 4648 with the alphabet of section 5 and without padding: as few digits as hold all the bits, each
      the listed character of its six. */
  lemma {:induction false} DigitsAreBits(b: Bytes)
    ensures 6 * |Encode(b)| >= 8 * |b| > 6 * (|Encode(b)| - 1)
    ensures forall i | 0 <= i < |Encode(b)| :: Encode(b)[i] == ALPHABET[SixBits(b, 6 * i)]
  {
    hide SixBits, Digit;
    if |b| >= 3 {
      DigitsAreBits(b[3..]);
      FirstDigitsListed(b);
      forall i | 4 <= i < |Encode(b)|
        ensures Encode(b)[i] == ALPHABET[SixBits(b, 6 * i)]
      {
        LaterDigit(b, i - 4);
      }
    } else if b != [] {
      FirstDigitsListed(b);
    }
  }

  lemma {:induction false} FirstDigitsListed(b: Bytes)
    requires b != []
    ensures forall i | 0 <= i < |Encode(b)| && i < 4 :: Encode(b)[i] == ALPHABET[SixBits(b, 6 * i)]
  {
    hide SixBits, Digit;
    FirstDigits(b);
    DigitIsListed(SixBits(b, 0));
    DigitIsListed(SixBits(b, 6));
    if |b| > 1 {
      NextDigits(b);
      DigitIsListed(SixBits(b, 12));
      DigitIsListed(SixBits(b, 18));
    }
  }

  function After(byte: int, rest: Option<Bytes>): Option<Bytes>
    requires 0 <= byte < 256
  {
    if rest.None? then None else Some([byte] + rest.value)
  }

  /** The decoder's loop: `place` digits of a group read, `left` the bits not yet written, `pads` the padding
      seen in the group. A character outside the alphabet is skipped; enough padding ends the text. */
  function Read(s: string, place: nat, left: int, pads: nat): Option<Bytes>
    requires place < 4 && 0 <= left && (place == 0 || left < (if place == 1 then 64 else if place == 2 then 16 else 4))
    decreases |s|
  {
    if s == [] then (if place == 0 then Some([]) else None)
    else if s[0] == '=' then
      if place >= 2 && place + pads + 1 >= 4 then Some([])
      else Read(s[1..], place, left, if place >= 2 then pads + 1 else pads)
    else
      var v := Value(s[0]);
      if v.None? then Read(s[1..], place, left, pads)
      else if place == 0 then Read(s[1..], 1, v.value, 0)
      else if place == 1 then After(left * 4 + v.value / 16, Read(s[1..], 2, v.value % 16, 0))
      else if place == 2 then After(left * 16 + v.value / 4, Read(s[1..], 3, v.value % 4, 0))
      else After(left * 64 + v.value, Read(s[1..], 0, 0, 0))
  }

  function Decode(s: string): Option<Bytes> {
    Read(s + "===", 0, 0, 0)
  }

  lemma {:induction false} ReadDigit(v: int, s: string, place: nat, left: int, pads: nat)
    requires 0 <= v < 64 && place < 4 && 0 <= left
      && (place == 0 || left < (if place == 1 then 64 else if place == 2 then 16 else 4))
    ensures Read([Digit(v)] + s, place, left, pads) ==
      if place == 0 then Read(s, 1, v, 0)
      else if place == 1 then After(left * 4 + v / 16, Read(s, 2, v % 16, 0))
      else if place == 2 then After(left * 16 + v / 4, Read(s, 3, v % 4, 0))
      else After(left * 64 + v, Read(s, 0, 0, 0))
  {
    ValueOfDigit(v);
    hide Digit, Value, After;
    assert ([Digit(v)] + s)[1..] == s;
  }

  lemma {:induction false} ReadPads()
    ensures Read("===", 0, 0, 0) == Some([])
    ensures forall left | 0 <= left < 16 :: Read("===", 2, left, 0) == Some([])
    ensures forall left | 0 <= left < 4 :: Read("===", 3, left, 0) == Some([])
  {
    assert "==="[1..] == "==" && "=="[1..] == "=" && "="[1..] == "";
  }

  lemma {:induction false} ReadOne(a: int)
    requires 0 <= a < 256
    ensures Read([Digit(a / 4), Digit(a % 4 * 16)] + "===", 0, 0, 0) == Some([a])
  {
    hide Digit, Value, Read;
    var v0, v1 := a / 4, a % 4 * 16;
    assert [Digit(v0), Digit(v1)] + "===" == [Digit(v0)] + ([Digit(v1)] + "===");
    ReadDigit(v0, [Digit(v1)] + "===", 0, 0, 0);
    ReadDigit(v1, "===", 1, v0, 0);
    ReadPads();
    assert v0 * 4 + v1 / 16 == a && v1 % 16 == 0;
    assert [a] + [] == [a];
  }

  lemma {:induction false} ReadTwo(a: int, b: int)
    requires 0 <= a < 256 && 0 <= b < 256
    ensures Read([Digit(a / 4), Digit(a % 4 * 16 + b / 16), Digit(b % 16 * 4)] + "===", 0, 0, 0) == Some([a, b])
  {
    hide Digit, Value, Read;
    var v0, v1, v2 := a / 4, a % 4 * 16 + b / 16, b % 16 * 4;
    assert [Digit(v0), Digit(v1), Digit(v2)] + "===" == [Digit(v0)] + ([Digit(v1)] + ([Digit(v2)] + "==="));
    ReadDigit(v0, [Digit(v1)] + ([Digit(v2)] + "==="), 0, 0, 0);
    ReadDigit(v1, [Digit(v2)] + "===", 1, v0, 0);
    ReadDigit(v2, "===", 2, v1 % 16, 0);
    ReadPads();
    assert v0 * 4 + v1 / 16 == a && v1 % 16 == b / 16 && v1 % 16 * 16 + v2 / 4 == b && v2 % 4 == 0;
    assert [a] + ([b] + []) == [a, b];
  }

  lemma {:induction false} ReadGroup(a: int, b: int, c: int, rest: string)
    requires 0 <= a < 256 && 0 <= b < 256 && 0 <= c < 256
    ensures Read([Digit(a / 4), Digit(a % 4 * 16 + b / 16), Digit(b % 16 * 4 + c / 64), Digit(c % 64)] + rest, 0, 0, 0)
            == After(a, After(b, After(c, Read(rest, 0, 0, 0))))
  {
    hide Digit, Value, Read, After;
    var v0, v1, v2, v3 := a / 4, a % 4 * 16 + b / 16, b % 16 * 4 + c / 64, c % 64;
    assert [Digit(v0), Digit(v1), Digit(v2), Digit(v3)] + rest ==
      [Digit(v0)] + ([Digit(v1)] + ([Digit(v2)] + ([Digit(v3)] + rest)));
    ReadDigit(v0, [Digit(v1)] + ([Digit(v2)] + ([Digit(v3)] + rest)), 0, 0, 0);
    ReadDigit(v1, [Digit(v2)] + ([Digit(v3)] + rest), 1, v0, 0);
    ReadDigit(v2, [Digit(v3)] + rest, 2, v1 % 16, 0);
    ReadDigit(v3, rest, 3, v2 % 4, 0);
    assert v0 * 4 + v1 / 16 == a && v1 % 16 == b / 16 && v1 % 16 * 16 + v2 / 4 == b && v2 % 4 == c / 64
      && v2 % 4 * 64 + v3 == c;
  }

  lemma {:induction false} Rejoined(b: Bytes)
    requires |b| >= 3
    ensures After(b[0], After(b[1], After(b[2], Some(b[3..])))) == Some(b)
  {
    assert [b[0]] + ([b[1]] + ([b[2]] + b[3..])) == b;
  }

  /** Every byte string survives. */
  lemma {:induction false} RoundTrip(b: Bytes)
    ensures Decode(Encode(b)) == Some(b)
  {
    hide Digit, Read, After;
    if b == [] {
      ReadPads();
      assert Encode(b) + "===" == "===";
    } else if |b| == 1 {
      ReadOne(b[0]);
      assert [b[0]] == b;
    } else if |b| == 2 {
      ReadTwo(b[0], b[1]);
      assert [b[0], b[1]] == b;
    } else {
      var group := [Digit(b[0] / 4), Digit(b[0] % 4 * 16 + b[1] / 16), Digit(b[1] % 16 * 4 + b[2] / 64),
                    Digit(b[2] % 64)];
      RoundTrip(b[3..]);
      ReadGroup(b[0], b[1], b[2], Encode(b[3..]) + "===");
      assert Encode(b) + "===" == group + (Encode(b[3..]) + "===");
      Rejoined(b);
    }
  }
}
