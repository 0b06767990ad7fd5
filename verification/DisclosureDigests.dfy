/** Digests are exactly the texts that 32 bytes are written as (packages/pulse-conformance-evaluator/python/presentation.py,
    after section 5 of RFC 4648, without padding). */
module DisclosureDigests {
  import opened Presentation

  type Byte = b: nat | b < 256

  /** The digits of six bits, in their order. */
  function Digit(n: nat): char
    requires n < 64
  {
    if n < 26 then ('A' as int + n) as char
    else if n < 52 then ('a' as int + n - 26) as char
    else if n < 62 then ('0' as int + n - 52) as char
    else if n == 62 then '-' else '_'
  }

  /** What a digit stands for. */
  function Bits(c: char): (n: nat)
    requires IsDigit(c)
    ensures n < 64 && Digit(n) == c
  {
    if 'A' <= c <= 'Z' then c as int - 'A' as int
    else if 'a' <= c <= 'z' then 26 + (c as int - 'a' as int)
    else if '0' <= c <= '9' then 52 + (c as int - '0' as int)
    else if c == '-' then 62 else 63
  }

  lemma BitsOfDigit(n: nat)
    requires n < 64
    ensures IsDigit(Digit(n)) && Bits(Digit(n)) == n
  {
  }

  /** Unpadded base64url: three bytes are four digits; a last byte or two leave spare bits, which are zero. */
  function Encode(bytes: seq<Byte>): string
    decreases |bytes|
  {
    if bytes == [] then []
    else if |bytes| == 1 then [Digit(bytes[0] / 4), Digit(bytes[0] % 4 * 16)]
    else if |bytes| == 2 then
      [Digit(bytes[0] / 4), Digit(bytes[0] % 4 * 16 + bytes[1] / 16), Digit(bytes[1] % 16 * 4)]
    else
      [Digit(bytes[0] / 4), Digit(bytes[0] % 4 * 16 + bytes[1] / 16), Digit(bytes[1] % 16 * 4 + bytes[2] / 64),
       Digit(bytes[2] % 64)] + Encode(bytes[3..])
  }

  predicate AllDigits(s: string) { forall i :: 0 <= i < |s| ==> IsDigit(s[i]) }

  /** Digits for two bytes more than a multiple of three, the last with its two spare bits clear. */
  predicate IsCode(s: string) {
    |s| % 4 == 3 && AllDigits(s) && Bits(s[|s| - 1]) % 4 == 0
  }

  lemma DigitsFit(x: Byte, y: Byte, z: Byte)
    ensures x / 4 < 64 && x % 4 * 16 + y / 16 < 64 && y % 16 * 4 + z / 64 < 64 && z % 64 < 64
    ensures y % 16 * 4 < 64 && y % 16 * 4 % 4 == 0
  {
  }

  lemma {:induction false} EncodedIsCode(bytes: seq<Byte>)
    requires |bytes| % 3 == 2
    ensures IsCode(Encode(bytes)) && |Encode(bytes)| == |bytes| / 3 * 4 + 3
    decreases |bytes|
  {
    hide Bits, Digit, IsDigit;
    var s, x, y := Encode(bytes), bytes[0], bytes[1];
    DigitsFit(x, y, if |bytes| == 2 then 0 else bytes[2]);
    BitsOfDigit(x / 4);
    BitsOfDigit(x % 4 * 16 + y / 16);
    if |bytes| == 2 {
      BitsOfDigit(y % 16 * 4);
      assert s == [Digit(x / 4), Digit(x % 4 * 16 + y / 16), Digit(y % 16 * 4)];
    } else {
      var z, rest := bytes[2], Encode(bytes[3..]);
      BitsOfDigit(y % 16 * 4 + z / 64);
      BitsOfDigit(z % 64);
      EncodedIsCode(bytes[3..]);
      CodesJoin([Digit(x / 4), Digit(x % 4 * 16 + y / 16), Digit(y % 16 * 4 + z / 64), Digit(z % 64)], rest);
    }
  }

  lemma CodesJoin(group: string, rest: string)
    requires |group| == 4 && AllDigits(group) && IsCode(rest)
    ensures IsCode(group + rest)
  {
    hide Bits, IsDigit;
    var s := group + rest;
    assert s[|s| - 1] == rest[|rest| - 1];
  }

  function Decode(s: string): seq<Byte>
    requires |s| % 4 == 3 && AllDigits(s)
    decreases |s|
  {
    var a, b, c := Bits(s[0]), Bits(s[1]), Bits(s[2]);
    if |s| == 3 then [a * 4 + b / 16, b % 16 * 16 + c / 4]
    else [a * 4 + b / 16, b % 16 * 16 + c / 4, c % 4 * 64 + Bits(s[3])] + Decode(s[4..])
  }

  lemma GroupsFit(a: nat, b: nat, c: nat, d: nat)
    requires a < 64 && b < 64 && c < 64 && d < 64
    ensures var x, y, z := a * 4 + b / 16, b % 16 * 16 + c / 4, c % 4 * 64 + d;
            && x < 256 && y < 256 && z < 256 && x / 4 == a && x % 4 * 16 + y / 16 == b
            && y % 16 * 4 + z / 64 == c && z % 64 == d && (c % 4 == 0 ==> y % 16 * 4 == c)
  {
  }

  lemma {:induction false} CodeIsEncoded(s: string)
    requires IsCode(s)
    ensures Encode(Decode(s)) == s && |Decode(s)| == |s| / 4 * 3 + 2
    decreases |s|
  {
    hide Digit, IsDigit, Bits, Encode;
    var a, b, c := Bits(s[0]), Bits(s[1]), Bits(s[2]);
    if |s| == 3 {
      LastIsEncoded(a, b, c);
      assert s == [s[0], s[1], s[2]];
    } else {
      var d := Bits(s[3]);
      CodeIsEncoded(s[4..]);
      GroupIsEncoded(a, b, c, d, Decode(s[4..]));
      assert s == [s[0], s[1], s[2], s[3]] + s[4..];
    }
  }

  lemma LastIsEncoded(a: nat, b: nat, c: nat)
    requires a < 64 && b < 64 && c < 64 && c % 4 == 0
    ensures var x, y := a * 4 + b / 16, b % 16 * 16 + c / 4;
            x < 256 && y < 256 && Encode([x, y]) == [Digit(a), Digit(b), Digit(c)]
  {
    hide Digit;
    GroupsFit(a, b, c, 0);
  }

  lemma GroupIsEncoded(a: nat, b: nat, c: nat, d: nat, rest: seq<Byte>)
    requires a < 64 && b < 64 && c < 64 && d < 64
    ensures var x, y, z := a * 4 + b / 16, b % 16 * 16 + c / 4, c % 4 * 64 + d;
            && x < 256 && y < 256 && z < 256
            && Encode([x, y, z] + rest) == [Digit(a), Digit(b), Digit(c), Digit(d)] + Encode(rest)
  {
    hide Digit;
    GroupsFit(a, b, c, d);
    var x, y, z := a * 4 + b / 16, b % 16 * 16 + c / 4, c % 4 * 64 + d;
    assert ([x, y, z] + rest)[3..] == rest;
  }

  lemma SpareBits(c: char)
    requires IsDigit(c)
    ensures c in "AEIMQUYcgkosw048" <==> Bits(c) % 4 == 0
  {
  }

  /** A text passes as a digest exactly when it is how some 32 bytes are written. */
  lemma DigestsAreEncodings(s: string)
    ensures IsDigest(s) <==> exists bytes: seq<Byte> :: |bytes| == 32 && Encode(bytes) == s
  {
    hide Bits, Encode, Decode, Digit, IsDigit;
    if IsDigest(s) {
      SpareBits(s[42]);
      CodeIsEncoded(s);
      assert |Decode(s)| == 32;
    }
    if bytes: seq<Byte> :| |bytes| == 32 && Encode(bytes) == s {
      EncodedIsCode(bytes);
      SpareBits(s[42]);
    }
  }
}
