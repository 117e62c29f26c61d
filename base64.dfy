/**
 * The base64 encoding of section 4 of RFC 4648, written without the '=' padding of
 * section 3.2 (Go's base64.RawStdEncoding), as the Authorization header uses it.
 */
module Base64 {
  import opened Wrappers
  import opened Text

  /** The character for a 6-bit value (table 1 of RFC 4648). */
  function Symbol(v: nat): (c: char)
    requires v < 64
    ensures IsSymbol(c)
  {
    if v < 26 then ('A' as int + v) as char
    else if v < 52 then ('a' as int + (v - 26)) as char
    else if v < 62 then ('0' as int + (v - 52)) as char
    else if v == 62 then '+'
    else '/'
  }

  predicate IsSymbol(c: char)
  {
    ('A' <= c <= 'Z') || ('a' <= c <= 'z') || ('0' <= c <= '9') || c == '+' || c == '/'
  }

  /** The 6-bit value of an alphabet character. */
  function Value(c: char): (v: nat)
    requires IsSymbol(c)
    ensures v < 64 && Symbol(v) == c
  {
    if 'A' <= c <= 'Z' then c as int - 'A' as int
    else if 'a' <= c <= 'z' then c as int - 'a' as int + 26
    else if '0' <= c <= '9' then c as int - '0' as int + 52
    else if c == '+' then 62
    else 63
  }

  lemma ValueOfSymbol(v: nat)
    requires v < 64
    ensures Value(Symbol(v)) == v
  {
  }

  /**
   * RawStdEncoding.EncodeToString: every 3 bytes become 4 characters; a final 1 or 2
   * bytes become 2 or 3 characters, with no padding.
   */
  function EncodeRaw(b: Bytes): (s: string)
    ensures |s| == (4 * |b| + 2) / 3
    ensures forall i :: 0 <= i < |s| ==> IsSymbol(s[i])
    decreases |b|
  {
    if |b| == 0 then ""
    else if |b| == 1 then [Symbol(b[0] / 4), Symbol((b[0] % 4) * 16)]
    else if |b| == 2 then
      [Symbol(b[0] / 4), Symbol((b[0] % 4) * 16 + b[1] / 16), Symbol((b[1] % 16) * 4)]
    else
      [Symbol(b[0] / 4), Symbol((b[0] % 4) * 16 + b[1] / 16), Symbol((b[1] % 16) * 4 + b[2] / 64),
       Symbol(b[2] % 64)] + EncodeRaw(b[3..])
  }

  /** The three bytes a group of four 6-bit values stands for. */
  function Group(v0: nat, v1: nat, v2: nat, v3: nat): Bytes
    requires v0 < 64 && v1 < 64 && v2 < 64 && v3 < 64
  {
    [v0 * 4 + v1 / 16, (v1 % 16) * 16 + v2 / 4, (v2 % 4) * 64 + v3]
  }

  /**
   * A reference decoder for unpadded base64. None for text no encoding produces: a wrong
   * length, a character outside the alphabet, or a last character whose unused low bits
   * are not zero.
   */
  function DecodeRaw(s: string): Option<Bytes>
  {
    if CanonicalEnd(s) then DecodeGroups(s) else None
  }

  /** A text of 2 or 3 characters past its last full group ends with zero unused bits. */
  predicate CanonicalEnd(s: string)
  {
    (|s| % 4 == 2 ==> IsSymbol(s[|s| - 1]) && Value(s[|s| - 1]) % 16 == 0)
    && (|s| % 4 == 3 ==> IsSymbol(s[|s| - 1]) && Value(s[|s| - 1]) % 4 == 0)
  }

  /** Groups of four characters to three bytes; a final 2 or 3 characters to 1 or 2 bytes. */
  function DecodeGroups(s: string): Option<Bytes>
    decreases |s|
  {
    if |s| == 0 then Some([])
    else if |s| == 1 || !(forall i :: 0 <= i < |s| ==> IsSymbol(s[i])) then None
    else if |s| == 2 then Some(Group(Value(s[0]), Value(s[1]), 0, 0)[..1])
    else if |s| == 3 then Some(Group(Value(s[0]), Value(s[1]), Value(s[2]), 0)[..2])
    else
      match DecodeGroups(s[4..])
      case None => None
      case Some(rest) => Some(Group(Value(s[0]), Value(s[1]), Value(s[2]), Value(s[3])) + rest)
  }

  lemma OneByteCanonical(b0: Byte)
    ensures CanonicalEnd(EncodeRaw([b0]))
  {
    var s := EncodeRaw([b0]);
    assert |s| == 2 && s[1] == Symbol((b0 % 4) * 16);
    ValueOfSymbol((b0 % 4) * 16);
  }

  lemma TwoBytesCanonical(b0: Byte, b1: Byte)
    ensures CanonicalEnd(EncodeRaw([b0, b1]))
  {
    var s := EncodeRaw([b0, b1]);
    assert |s| == 3 && s[2] == Symbol((b1 % 16) * 4);
    ValueOfSymbol((b1 % 16) * 4);
  }

  /** A full group in front keeps the length modulo 4 and the last character. */
  lemma CanonicalSuffix(s: string)
    requires |s| >= 4
    ensures CanonicalEnd(s) == CanonicalEnd(s[4..])
  {
    var t := s[4..];
    if |t| > 0 {
      assert s[|s| - 1] == t[|t| - 1];
    }
  }

  /** The encoder always ends canonically. */
  lemma {:induction false} EncodeRawCanonical(b: Bytes)
    ensures CanonicalEnd(EncodeRaw(b))
    decreases |b|
  {
    if |b| == 1 {
      OneByteCanonical(b[0]);
      assert b == [b[0]];
    } else if |b| == 2 {
      TwoBytesCanonical(b[0], b[1]);
      assert b == [b[0], b[1]];
    } else if |b| >= 3 {
      EncodeRawCanonical(b[3..]);
      assert EncodeRaw(b)[4..] == EncodeRaw(b[3..]);
      CanonicalSuffix(EncodeRaw(b));
    }
  }

  /** The 6-bit values the encoder cuts three bytes into give the bytes back. */
  lemma GroupOfSextets(b0: Byte, b1: Byte, b2: Byte)
    ensures Group(b0 / 4, (b0 % 4) * 16 + b1 / 16, (b1 % 16) * 4 + b2 / 64, b2 % 64) == [b0, b1, b2]
  {
  }

  lemma OneByteRoundTrip(b0: Byte)
    ensures DecodeGroups(EncodeRaw([b0])) == Some([b0])
  {
    var s := EncodeRaw([b0]);
    var v0, v1 := b0 / 4, (b0 % 4) * 16;
    ValueOfSymbol(v0);
    ValueOfSymbol(v1);
    assert Value(s[0]) == v0 && Value(s[1]) == v1;
    GroupOfSextets(b0, 0, 0);
    assert Group(v0, v1, 0, 0)[..1] == [b0];
  }

  lemma TwoBytesRoundTrip(b0: Byte, b1: Byte)
    ensures DecodeGroups(EncodeRaw([b0, b1])) == Some([b0, b1])
  {
    var s := EncodeRaw([b0, b1]);
    var v0, v1, v2 := b0 / 4, (b0 % 4) * 16 + b1 / 16, (b1 % 16) * 4;
    ValueOfSymbol(v0);
    ValueOfSymbol(v1);
    ValueOfSymbol(v2);
    assert Value(s[0]) == v0 && Value(s[1]) == v1 && Value(s[2]) == v2;
    GroupOfSextets(b0, b1, 0);
    assert Group(v0, v1, v2, 0)[..2] == [b0, b1];
  }

  /** DecodeGroups on text of four or more alphabet characters: one group, then the rest. */
  lemma DecodeGroup(s: string)
    requires |s| >= 4 && forall i :: 0 <= i < |s| ==> IsSymbol(s[i])
    ensures DecodeGroups(s) == match DecodeGroups(s[4..])
      case None => None
      case Some(rest) => Some(Group(Value(s[0]), Value(s[1]), Value(s[2]), Value(s[3])) + rest)
  {
  }

  /** Decoding a full group of four characters, then the rest. */
  lemma {:induction false} GroupStep(b: Bytes)
    requires |b| >= 3
    requires DecodeGroups(EncodeRaw(b[3..])) == Some(b[3..])
    ensures DecodeGroups(EncodeRaw(b)) == Some(b)
  {
    var s := EncodeRaw(b);
    var v0, v1 := b[0] / 4, (b[0] % 4) * 16 + b[1] / 16;
    var v2, v3 := (b[1] % 16) * 4 + b[2] / 64, b[2] % 64;
    assert s == [Symbol(v0), Symbol(v1), Symbol(v2), Symbol(v3)] + EncodeRaw(b[3..]);
    assert s[4..] == EncodeRaw(b[3..]);
    ValueOfSymbol(v0);
    ValueOfSymbol(v1);
    ValueOfSymbol(v2);
    ValueOfSymbol(v3);
    assert Value(s[0]) == v0 && Value(s[1]) == v1 && Value(s[2]) == v2 && Value(s[3]) == v3;
    GroupOfSextets(b[0], b[1], b[2]);
    assert Group(v0, v1, v2, v3) == [b[0], b[1], b[2]];
    DecodeGroup(s);
    assert DecodeGroups(s) == Some(Group(v0, v1, v2, v3) + b[3..]);
    assert b == [b[0], b[1], b[2]] + b[3..];
  }

  lemma {:induction false} GroupsRoundTrip(b: Bytes)
    ensures DecodeGroups(EncodeRaw(b)) == Some(b)
    decreases |b|
  {
    if |b| == 1 {
      OneByteRoundTrip(b[0]);
      assert b == [b[0]];
    } else if |b| == 2 {
      TwoBytesRoundTrip(b[0], b[1]);
      assert b == [b[0], b[1]];
    } else if |b| >= 3 {
      GroupsRoundTrip(b[3..]);
      GroupStep(b);
    }
  }

  /** Decoding inverts the encoding: the header carries exactly the credential bytes. */
  lemma EncodeRawRoundTrip(b: Bytes)
    ensures DecodeRaw(EncodeRaw(b)) == Some(b)
  {
    GroupsRoundTrip(b);
    EncodeRawCanonical(b);
  }

  /** A text whose last character carries nonzero unused bits is refused. */
  lemma NonCanonicalTail()
    ensures DecodeRaw(['A', 'B']) == None
  {
    var s := ['A', 'B'];
    assert Value(s[1]) == 1;
  }

  /** The encoding never pads: no '=' appears, whatever the length. */
  lemma NoPadding(b: Bytes)
    ensures '=' !in EncodeRaw(b)
  {
  }
}
