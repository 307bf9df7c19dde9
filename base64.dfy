/**
 * The base64 round trip that the outbound pump applies to every audio delta:
 * `base64.b64encode(base64.b64decode(delta)).decode('utf-8')`.
 *
 * `Decode` follows Python's `b64decode` with its default `validate=False`: the text must
 * be ASCII (otherwise `str.encode('ascii')` raises), and the bytes are then fed to
 * CPython's non-strict `a2b_base64` state machine, which skips characters outside the
 * alphabet, stops at the first complete padding, and rejects a final group that is
 * incomplete. `Encode` is `b64encode`: standard alphabet, `=` padding, no newline.
 */
module Base64 {
  import opened Wrappers

  type Byte = b: int | 0 <= b < 256
  type Sextet = d: int | 0 <= d < 64
  type QuadPos = q: int | 0 <= q < 4

  /** The standard base64 alphabet, `A-Z a-z 0-9 + /`. */
  function Digit(d: Sextet): (c: char)
    ensures c != '=' && c as int < 128
  {
    if d < 26 then ('A' as int + d) as char
    else if d < 52 then ('a' as int + (d - 26)) as char
    else if d < 62 then ('0' as int + (d - 52)) as char
    else if d == 62 then '+'
    else '/'
  }

  /** The decoding table: `None` for every character that is not in the alphabet. */
  function DigitValue(c: char): (r: Option<Sextet>)
    ensures r.Some? ==> Digit(r.value) == c
  {
    if 'A' <= c <= 'Z' then Some(c as int - 'A' as int)
    else if 'a' <= c <= 'z' then Some(c as int - 'a' as int + 26)
    else if '0' <= c <= '9' then Some(c as int - '0' as int + 52)
    else if c == '+' then Some(62)
    else if c == '/' then Some(63)
    else None
  }

  lemma DigitValueOfDigit(d: Sextet)
    ensures DigitValue(Digit(d)) == Some(d)
  {
  }

  /**
   * The decoder's state between two input characters: the position inside the current
   * group of four, the bits left over from the previous character, the number of `=`
   * seen since the last data character (counted only once two data characters of the
   * group are in), and the bytes produced so far.
   */
  datatype Decoder = Decoder(quadPos: QuadPos, leftChar: nat, pads: nat, out: seq<Byte>)

  const START: Decoder := Decoder(0, 0, 0, [])

  /**
   * One data character. The byte written at positions 1, 2 and 3 is the bitwise or of
   * two shifted values whose bits do not overlap, i.e. their sum, stored into an
   * unsigned char (hence `% 256`).
   */
  function Absorb(st: Decoder, v: Sextet): Decoder {
    if st.quadPos == 0 then Decoder(1, v, 0, st.out)
    else if st.quadPos == 1 then Decoder(2, v % 16, 0, st.out + [(st.leftChar * 4 + v / 16) % 256])
    else if st.quadPos == 2 then Decoder(3, v % 4, 0, st.out + [(st.leftChar * 16 + v / 4) % 256])
    else Decoder(0, 0, 0, st.out + [(st.leftChar * 64 + v) % 256])
  }

  /** The non-strict `a2b_base64` loop over the rest `s` of the input. */
  function A2b(s: string, st: Decoder): Option<seq<Byte>>
    decreases |s|
  {
    if s == [] then
      if st.quadPos == 0 then Some(st.out) else None
    else if s[0] == '=' then
      if st.quadPos >= 2 && st.quadPos + st.pads + 1 >= 4 then Some(st.out)
      else A2b(s[1..], if st.quadPos >= 2 then st.(pads := st.pads + 1) else st)
    else
      match DigitValue(s[0])
      case None => A2b(s[1..], st)
      case Some(v) => A2b(s[1..], Absorb(st, v))
  }

  predicate IsAscii(s: string) {
    forall i :: 0 <= i < |s| ==> s[i] as int < 128
  }

  /** `base64.b64decode(s)`; `None` stands for the exception it raises. */
  function Decode(s: string): Option<seq<Byte>> {
    if IsAscii(s) then A2b(s, START) else None
  }

  /** The four characters written for three bytes. */
  function EncodeGroup(b0: Byte, b1: Byte, b2: Byte): string {
    [Digit(b0 / 4), Digit((b0 % 4) * 16 + b1 / 16), Digit((b1 % 16) * 4 + b2 / 64), Digit(b2 % 64)]
  }

  /**
   * The padded final group for one remaining byte, with `low` in the four bits of the
   * second character that carry no data; `b64encode` writes them as zero.
   */
  function EncodeLastOne(b0: Byte, low: nat): (s: string)
    requires low < 16
    ensures IsAscii(s)
  {
    [Digit(b0 / 4), Digit((b0 % 4) * 16 + low), '=', '=']
  }

  /**
   * The padded final group for two remaining bytes, with `low` in the two bits of the
   * third character that carry no data; `b64encode` writes them as zero.
   */
  function EncodeLastTwo(b0: Byte, b1: Byte, low: nat): (s: string)
    requires low < 4
    ensures IsAscii(s)
  {
    [Digit(b0 / 4), Digit((b0 % 4) * 16 + b1 / 16), Digit((b1 % 16) * 4 + low), '=']
  }

  /** `base64.b64encode(b).decode()`. */
  function Encode(b: seq<Byte>): (s: string)
    ensures |s| % 4 == 0
    decreases |b|
  {
    if |b| == 0 then ""
    else if |b| == 1 then EncodeLastOne(b[0], 0)
    else if |b| == 2 then EncodeLastTwo(b[0], b[1], 0)
    else EncodeGroup(b[0], b[1], b[2]) + Encode(b[3..])
  }

  /** The composite the outbound pump computes for an audio delta. */
  function Reencode(s: string): Option<string> {
    match Decode(s)
    case None => None
    case Some(b) => Some(Encode(b))
  }

  lemma {:induction false} EncodeIsAscii(b: seq<Byte>)
    ensures IsAscii(Encode(b))
    decreases |b|
  {
    if |b| >= 3 {
      EncodeIsAscii(b[3..]);
      var s := Encode(b);
      forall i | 0 <= i < |s| ensures s[i] as int < 128 {
        if i >= 4 {
          assert s[i] == Encode(b[3..])[i - 4];
        }
      }
    }
  }

  /** A data character of the alphabet is absorbed and nothing else happens. */
  lemma A2bDigit(d: Sextet, rest: string, st: Decoder)
    ensures A2b([Digit(d)] + rest, st) == A2b(rest, Absorb(st, d))
  {
    var s := [Digit(d)] + rest;
    assert s[0] == Digit(d) && s[1..] == rest;
    DigitValueOfDigit(d);
  }

  /** The three bytes written for a group are the three bytes that were encoded. */
  lemma GroupBytes(b0: Byte, b1: Byte, b2: Byte)
    ensures (b0 / 4 * 4 + ((b0 % 4) * 16 + b1 / 16) / 16) % 256 == b0
    ensures ((((b0 % 4) * 16 + b1 / 16) % 16) * 16 + ((b1 % 16) * 4 + b2 / 64) / 4) % 256 == b1
    ensures ((((b1 % 16) * 4 + b2 / 64) % 4) * 64 + b2 % 64) % 256 == b2
  {
    var s1, s2 := (b0 % 4) * 16 + b1 / 16, (b1 % 16) * 4 + b2 / 64;
    assert s1 / 16 == b0 % 4 && s1 % 16 == b1 / 16;
    assert s2 / 4 == b1 % 16 && s2 % 4 == b2 / 64;
  }

  /** Absorbing the four sextets of a group writes its three bytes and returns to a boundary. */
  lemma AbsorbGroup(b0: Byte, b1: Byte, b2: Byte, out: seq<Byte>)
    ensures Absorb(Absorb(Absorb(Absorb(Decoder(0, 0, 0, out), b0 / 4), (b0 % 4) * 16 + b1 / 16),
                          (b1 % 16) * 4 + b2 / 64), b2 % 64)
         == Decoder(0, 0, 0, out + [b0, b1, b2])
  {
    GroupBytes(b0, b1, b2);
  }

  /** Four digits encoding three bytes take a decoder at a group boundary to the next one. */
  lemma A2bGroup(b0: Byte, b1: Byte, b2: Byte, rest: string, out: seq<Byte>)
    ensures A2b(EncodeGroup(b0, b1, b2) + rest, Decoder(0, 0, 0, out))
         == A2b(rest, Decoder(0, 0, 0, out + [b0, b1, b2]))
  {
    var s0: Sextet, s1: Sextet, s2: Sextet, s3: Sextet := b0 / 4, (b0 % 4) * 16 + b1 / 16, (b1 % 16) * 4 + b2 / 64, b2 % 64;
    var c0, c1, c2, c3 := Digit(s0), Digit(s1), Digit(s2), Digit(s3);
    assert [c0, c1, c2, c3] + rest == [c0] + ([c1] + ([c2] + ([c3] + rest)));
    var st0 := Decoder(0, 0, 0, out);
    var st1 := Absorb(st0, s0);
    var st2 := Absorb(st1, s1);
    var st3 := Absorb(st2, s2);
    A2bDigit(s0, [c1] + ([c2] + ([c3] + rest)), st0);
    A2bDigit(s1, [c2] + ([c3] + rest), st1);
    A2bDigit(s2, [c3] + rest, st2);
    A2bDigit(s3, rest, st3);
    AbsorbGroup(b0, b1, b2, out);
  }

  /** Two `=` after two data characters of a group end the decoding; what follows is never read. */
  lemma A2bTwoPads(st: Decoder, rest: string)
    requires st.quadPos == 2 && st.pads == 0
    ensures A2b(['=', '='] + rest, st) == Some(st.out)
  {
    var s := ['=', '='] + rest;
    assert s[0] == '=' && s[1..] == ['='] + rest;
    assert (['='] + rest)[0] == '=';
  }

  /** One `=` after three data characters of a group ends the decoding; what follows is never read. */
  lemma A2bOnePad(st: Decoder, rest: string)
    requires st.quadPos == 3
    ensures A2b(['='] + rest, st) == Some(st.out)
  {
    assert (['='] + rest)[0] == '=';
  }

  /**
   * Absorbing the two sextets of a one-byte final group writes that byte, whatever the
   * four low bits of the second sextet (`b64encode` writes them as zero).
   */
  lemma AbsorbLastOne(b0: Byte, low: nat, out: seq<Byte>)
    requires low < 16
    ensures var st := Absorb(Absorb(Decoder(0, 0, 0, out), b0 / 4), (b0 % 4) * 16 + low);
            st.quadPos == 2 && st.pads == 0 && st.out == out + [b0]
  {
    assert ((b0 % 4) * 16 + low) / 16 == b0 % 4;
    assert (b0 / 4) * 4 + b0 % 4 == b0;
  }

  /**
   * Absorbing the three sextets of a two-byte final group writes those bytes, whatever
   * the two low bits of the third sextet (`b64encode` writes them as zero).
   */
  lemma AbsorbLastTwo(b0: Byte, b1: Byte, low: nat, out: seq<Byte>)
    requires low < 4
    ensures var st := Absorb(Absorb(Absorb(Decoder(0, 0, 0, out), b0 / 4), (b0 % 4) * 16 + b1 / 16),
                             (b1 % 16) * 4 + low);
            st.quadPos == 3 && st.out == out + [b0, b1]
  {
    var s1, s2 := (b0 % 4) * 16 + b1 / 16, (b1 % 16) * 4 + low;
    assert s1 / 16 == b0 % 4 && s1 % 16 == b1 / 16 by {}
    assert s2 / 4 == b1 % 16 by {}
    var st1 := Absorb(Decoder(0, 0, 0, out), b0 / 4);
    assert st1 == Decoder(1, b0 / 4, 0, out);
    var st2 := Absorb(st1, s1);
    assert st2 == Decoder(2, b1 / 16, 0, out + [b0]) by {
      assert (b0 / 4 * 4 + b0 % 4) % 256 == b0;
    }
    var st3 := Absorb(st2, s2);
    assert st3.out == st2.out + [(b1 / 16 * 16 + b1 % 16) % 256];
  }

  /** A final group `xy==` holding one byte ends the decoding at its second `=`. */
  lemma A2bLastOne(b0: Byte, low: nat, rest: string, out: seq<Byte>)
    requires low < 16
    ensures A2b(EncodeLastOne(b0, low) + rest, Decoder(0, 0, 0, out)) == Some(out + [b0])
  {
    var s0: Sextet, s1: Sextet := b0 / 4, (b0 % 4) * 16 + low;
    var c0, c1 := Digit(s0), Digit(s1);
    var st0 := Decoder(0, 0, 0, out);
    var st1 := Absorb(st0, s0);
    assert EncodeLastOne(b0, low) + rest == [c0] + ([c1] + (['=', '='] + rest));
    A2bDigit(s0, [c1] + (['=', '='] + rest), st0);
    A2bDigit(s1, ['=', '='] + rest, st1);
    AbsorbLastOne(b0, low, out);
    A2bTwoPads(Absorb(st1, s1), rest);
  }

  /** A final group `xyz=` holding two bytes ends the decoding at its `=`. */
  lemma A2bLastTwo(b0: Byte, b1: Byte, low: nat, rest: string, out: seq<Byte>)
    requires low < 4
    ensures A2b(EncodeLastTwo(b0, b1, low) + rest, Decoder(0, 0, 0, out)) == Some(out + [b0, b1])
  {
    var s0: Sextet, s1: Sextet, s2: Sextet := b0 / 4, (b0 % 4) * 16 + b1 / 16, (b1 % 16) * 4 + low;
    var c0, c1, c2 := Digit(s0), Digit(s1), Digit(s2);
    var st0 := Decoder(0, 0, 0, out);
    var st1 := Absorb(st0, s0);
    var st2 := Absorb(st1, s1);
    assert EncodeLastTwo(b0, b1, low) + rest == [c0] + ([c1] + ([c2] + (['='] + rest)));
    A2bDigit(s0, [c1] + ([c2] + (['='] + rest)), st0);
    A2bDigit(s1, [c2] + (['='] + rest), st1);
    A2bDigit(s2, ['='] + rest, st2);
    AbsorbLastTwo(b0, b1, low, out);
    A2bOnePad(Absorb(st2, s2), rest);
  }

  lemma GroupCount(n: int)
    ensures (n - 3) % 3 == n % 3
  {
  }

  /** The first group of what `Encode` wrote is decoded on its own. */
  lemma A2bFirstGroup(b: seq<Byte>, rest: string, out: seq<Byte>)
    requires |b| >= 3
    ensures A2b(Encode(b) + rest, Decoder(0, 0, 0, out))
         == A2b(Encode(b[3..]) + rest, Decoder(0, 0, 0, out + [b[0], b[1], b[2]]))
  {
    var tail := Encode(b[3..]) + rest;
    assert Encode(b) + rest == EncodeGroup(b[0], b[1], b[2]) + tail;
    A2bGroup(b[0], b[1], b[2], tail, out);
  }

  /** `Encode` of one byte is its padded group, decoded as such. */
  lemma A2bEncodeOne(b: seq<Byte>, rest: string, out: seq<Byte>)
    requires |b| == 1
    ensures A2b(Encode(b) + rest, Decoder(0, 0, 0, out)) == Some(out + b)
  {
    assert Encode(b) == EncodeLastOne(b[0], 0);
    A2bLastOne(b[0], 0, rest, out);
    assert out + b == out + [b[0]];
  }

  /** `Encode` of two bytes is their padded group, decoded as such. */
  lemma A2bEncodeTwo(b: seq<Byte>, rest: string, out: seq<Byte>)
    requires |b| == 2
    ensures A2b(Encode(b) + rest, Decoder(0, 0, 0, out)) == Some(out + b)
  {
    assert Encode(b) == EncodeLastTwo(b[0], b[1], 0);
    A2bLastTwo(b[0], b[1], 0, rest, out);
    assert out + b == out + [b[0], b[1]];
  }

  /**
   * Decoding what `Encode` wrote, from a group boundary, appends exactly the encoded bytes.
   * When the last group is padded the decoding stops there; otherwise it goes on with
   * whatever text follows, from the next group boundary.
   */
  lemma {:induction false} A2bEncode(b: seq<Byte>, rest: string, out: seq<Byte>)
    ensures |b| % 3 == 0 ==> A2b(Encode(b) + rest, Decoder(0, 0, 0, out)) == A2b(rest, Decoder(0, 0, 0, out + b))
    ensures |b| % 3 != 0 ==> A2b(Encode(b) + rest, Decoder(0, 0, 0, out)) == Some(out + b)
    decreases |b|
  {
    if |b| == 0 {
      assert Encode(b) + rest == rest;
      assert out + b == out;
    } else if |b| == 1 {
      A2bEncodeOne(b, rest, out);
    } else if |b| == 2 {
      A2bEncodeTwo(b, rest, out);
    } else {
      var mid := out + [b[0], b[1], b[2]];
      assert mid + b[3..] == out + b;
      assert |b[3..]| % 3 == |b| % 3 by {
        GroupCount(|b|);
      }
      A2bFirstGroup(b, rest, out);
      A2bEncode(b[3..], rest, mid);
    }
  }

  lemma AsciiConcat(s: string, t: string)
    requires IsAscii(s) && IsAscii(t)
    ensures IsAscii(s + t)
  {
    forall i | 0 <= i < |s + t| ensures (s + t)[i] as int < 128 {
      if i >= |s| {
        assert (s + t)[i] == t[i - |s|];
      }
    }
  }

  /** `b64decode(b64encode(b)) == b` for every byte string. */
  lemma DecodeEncode(b: seq<Byte>)
    ensures Decode(Encode(b)) == Some(b)
  {
    EncodeIsAscii(b);
    A2bEncode(b, [], []);
    assert Encode(b) + [] == Encode(b);
    assert [] + b == b;
  }

  /** For canonical base64 text the re-encoded payload is the text itself. */
  lemma ReencodeCanonical(b: seq<Byte>)
    ensures Reencode(Encode(b)) == Some(Encode(b))
  {
    DecodeEncode(b);
  }

  /** Encoding is group by group: after whole groups, the rest is encoded on its own. */
  lemma {:induction false} EncodeAppend(b: seq<Byte>, c: seq<Byte>)
    requires |b| % 3 == 0
    ensures Encode(b + c) == Encode(b) + Encode(c)
    decreases |b|
  {
    if b == [] {
      assert b + c == c;
    } else {
      var bc := b + c;
      assert bc[0] == b[0] && bc[1] == b[1] && bc[2] == b[2];
      assert bc[3..] == b[3..] + c;
      EncodeAppend(b[3..], c);
    }
  }

  /** From a group boundary, two data characters and then the end, or one `=` and the end, raise. */
  lemma A2bTwoDigitsUnpadded(st: Decoder, d0: Sextet, d1: Sextet)
    requires st.quadPos == 0
    ensures A2b([Digit(d0), Digit(d1)], st) == None
    ensures A2b([Digit(d0), Digit(d1), '='], st) == None
  {
    var st2 := Absorb(Absorb(st, d0), d1);
    assert [Digit(d0), Digit(d1)] == [Digit(d0)] + ([Digit(d1)] + []);
    A2bDigit(d0, [Digit(d1)] + [], st);
    A2bDigit(d1, [], Absorb(st, d0));
    assert [Digit(d0), Digit(d1), '='] == [Digit(d0)] + ([Digit(d1)] + ['=']);
    A2bDigit(d0, [Digit(d1)] + ['='], st);
    A2bDigit(d1, ['='], Absorb(st, d0));
    assert A2b(['='], st2) == A2b([], st2.(pads := 1));
  }

  /** From a group boundary, three data characters and then the end raise. */
  lemma A2bThreeDigitsUnpadded(st: Decoder, d0: Sextet, d1: Sextet, d2: Sextet)
    requires st.quadPos == 0
    ensures A2b([Digit(d0), Digit(d1), Digit(d2)], st) == None
  {
    assert [Digit(d0), Digit(d1), Digit(d2)] == [Digit(d0)] + ([Digit(d1)] + ([Digit(d2)] + []));
    A2bDigit(d0, [Digit(d1)] + ([Digit(d2)] + []), st);
    A2bDigit(d1, [Digit(d2)] + [], Absorb(st, d0));
    A2bDigit(d2, [], Absorb(Absorb(st, d0), d1));
  }

  /**
   * After any whole groups, a final group of two or three data characters without its
   * `=` padding, or of two data characters with only one `=`, makes the decoder raise.
   */
  lemma MissingPaddingRejected(b: seq<Byte>, d0: Sextet, d1: Sextet, d2: Sextet)
    requires |b| % 3 == 0
    ensures Decode(Encode(b) + [Digit(d0), Digit(d1)]) == None
    ensures Decode(Encode(b) + [Digit(d0), Digit(d1), '=']) == None
    ensures Decode(Encode(b) + [Digit(d0), Digit(d1), Digit(d2)]) == None
  {
    var st := Decoder(0, 0, 0, [] + b);
    A2bEncode(b, [Digit(d0), Digit(d1)], []);
    A2bEncode(b, [Digit(d0), Digit(d1), '='], []);
    A2bEncode(b, [Digit(d0), Digit(d1), Digit(d2)], []);
    A2bTwoDigitsUnpadded(st, d0, d1);
    A2bThreeDigitsUnpadded(st, d0, d1, d2);
  }

  /** After any whole groups, a single further data character makes the decoder raise. */
  lemma LoneCharacterRejected(b: seq<Byte>, d: Sextet)
    requires |b| % 3 == 0
    ensures Decode(Encode(b) + [Digit(d)]) == None
  {
    A2bEncode(b, [Digit(d)], []);
    assert [Digit(d)] == [Digit(d)] + [];
    A2bDigit(d, [], Decoder(0, 0, 0, [] + b));
  }

  lemma PrefixCancel(p: string, x: string, y: string)
    requires p + x == p + y
    ensures x == y
  {
    assert (p + x)[|p|..] == x;
    assert (p + y)[|p|..] == y;
  }

  /** Non-zero unused bits make a one-byte final group differ from the canonical one. */
  lemma LastOneLowBits(b0: Byte, low: nat)
    requires 0 < low < 16
    ensures EncodeLastOne(b0, low) != EncodeLastOne(b0, 0)
  {
    DigitValueOfDigit((b0 % 4) * 16);
    DigitValueOfDigit((b0 % 4) * 16 + low);
    assert EncodeLastOne(b0, low)[1] != EncodeLastOne(b0, 0)[1];
  }

  /** Non-zero unused bits make a two-byte final group differ from the canonical one. */
  lemma LastTwoLowBits(b0: Byte, b1: Byte, low: nat)
    requires 0 < low < 4
    ensures EncodeLastTwo(b0, b1, low) != EncodeLastTwo(b0, b1, 0)
  {
    DigitValueOfDigit((b1 % 16) * 4);
    DigitValueOfDigit((b1 % 16) * 4 + low);
    assert EncodeLastTwo(b0, b1, low)[2] != EncodeLastTwo(b0, b1, 0)[2];
  }

  /** After whole groups, a padded one-byte final group decodes to its byte, whatever its unused bits. */
  lemma DecodeLastOne(b: seq<Byte>, b0: Byte, low: nat)
    requires |b| % 3 == 0 && low < 16
    ensures Decode(Encode(b) + EncodeLastOne(b0, low)) == Some(b + [b0])
  {
    var group := EncodeLastOne(b0, low);
    assert IsAscii(Encode(b) + group) by {
      EncodeIsAscii(b);
      AsciiConcat(Encode(b), group);
    }
    assert A2b(Encode(b) + group, START) == A2b(group, Decoder(0, 0, 0, b)) by {
      A2bEncode(b, group, []);
      assert [] + b == b;
    }
    assert A2b(group, Decoder(0, 0, 0, b)) == Some(b + [b0]) by {
      A2bLastOne(b0, low, [], b);
      assert group + [] == group;
    }
  }

  /** After whole groups, a padded two-byte final group decodes to its bytes, whatever its unused bits. */
  lemma DecodeLastTwo(b: seq<Byte>, b0: Byte, b1: Byte, low: nat)
    requires |b| % 3 == 0 && low < 4
    ensures Decode(Encode(b) + EncodeLastTwo(b0, b1, low)) == Some(b + [b0, b1])
  {
    var group := EncodeLastTwo(b0, b1, low);
    assert IsAscii(Encode(b) + group) by {
      EncodeIsAscii(b);
      AsciiConcat(Encode(b), group);
    }
    assert A2b(Encode(b) + group, START) == A2b(group, Decoder(0, 0, 0, b)) by {
      A2bEncode(b, group, []);
      assert [] + b == b;
    }
    assert A2b(group, Decoder(0, 0, 0, b)) == Some(b + [b0, b1]) by {
      A2bLastTwo(b0, b1, low, [], b);
      assert group + [] == group;
    }
  }

  /**
   * A one-byte final group whose unused bits are not zero decodes to the same byte as the
   * canonical group, so the payload sent differs from the delta.
   */
  lemma LowBitsDropped(b: seq<Byte>, b0: Byte, low: nat)
    requires |b| % 3 == 0 && 0 < low < 16
    ensures Decode(Encode(b) + EncodeLastOne(b0, low)) == Some(b + [b0])
    ensures Reencode(Encode(b) + EncodeLastOne(b0, low)) == Some(Encode(b + [b0]))
    ensures Encode(b + [b0]) != Encode(b) + EncodeLastOne(b0, low)
  {
    DecodeLastOne(b, b0, low);
    assert Encode(b + [b0]) == Encode(b) + EncodeLastOne(b0, 0) by {
      EncodeAppend(b, [b0]);
    }
    LastOneLowBits(b0, low);
    if Encode(b + [b0]) == Encode(b) + EncodeLastOne(b0, low) {
      PrefixCancel(Encode(b), EncodeLastOne(b0, 0), EncodeLastOne(b0, low));
    }
  }

  /**
   * A two-byte final group whose unused bits are not zero decodes to the same bytes as
   * the canonical group, so the payload sent differs from the delta.
   */
  lemma LowBitsDroppedTwo(b: seq<Byte>, b0: Byte, b1: Byte, low: nat)
    requires |b| % 3 == 0 && 0 < low < 4
    ensures Decode(Encode(b) + EncodeLastTwo(b0, b1, low)) == Some(b + [b0, b1])
    ensures Reencode(Encode(b) + EncodeLastTwo(b0, b1, low)) == Some(Encode(b + [b0, b1]))
    ensures Encode(b + [b0, b1]) != Encode(b) + EncodeLastTwo(b0, b1, low)
  {
    DecodeLastTwo(b, b0, b1, low);
    assert Encode(b + [b0, b1]) == Encode(b) + EncodeLastTwo(b0, b1, 0) by {
      EncodeAppend(b, [b0, b1]);
    }
    LastTwoLowBits(b0, b1, low);
    if Encode(b + [b0, b1]) == Encode(b) + EncodeLastTwo(b0, b1, low) {
      PrefixCancel(Encode(b), EncodeLastTwo(b0, b1, 0), EncodeLastTwo(b0, b1, low));
    }
  }

  /**
   * Whatever ASCII text follows a padded final group is ignored, so the payload sent is
   * the canonical text alone.
   */
  lemma DataAfterPaddingIgnored(b: seq<Byte>, rest: string)
    requires |b| % 3 != 0 && IsAscii(rest)
    ensures Decode(Encode(b) + rest) == Some(b)
    ensures Reencode(Encode(b) + rest) == Some(Encode(b))
  {
    EncodeIsAscii(b);
    AsciiConcat(Encode(b), rest);
    A2bEncode(b, rest, []);
    assert [] + b == b;
  }
}
