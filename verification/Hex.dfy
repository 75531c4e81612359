/**
 Bytes, hexadecimal text and letter case, as Node's `Buffer` and the ASCII part
 of `toLowerCase`/`toUpperCase` treat them.
 */
module Hex {

  type byte = b: int | 0 <= b < 256

  predicate IsHexDigit(c: char) {
    '0' <= c <= '9' || 'a' <= c <= 'f' || 'A' <= c <= 'F'
  }

  predicate IsUpperHexDigit(c: char) {
    '0' <= c <= '9' || 'A' <= c <= 'F'
  }

  predicate AllHex(s: string) {
    forall i :: 0 <= i < |s| ==> IsHexDigit(s[i])
  }

  predicate AllUpperHex(s: string) {
    forall i :: 0 <= i < |s| ==> IsUpperHexDigit(s[i])
  }

  /** The regular expression /^[0-9a-f]{64}$/i. */
  predicate IsHex64(s: string) {
    |s| == 64 && AllHex(s)
  }

  function DigitValue(c: char): (v: int)
    requires IsHexDigit(c)
    ensures 0 <= v < 16
  {
    if '0' <= c <= '9' then c as int - '0' as int
    else if 'a' <= c <= 'f' then c as int - 'a' as int + 10
    else c as int - 'A' as int + 10
  }

  function LowerDigit(v: int): (c: char)
    requires 0 <= v < 16
    ensures IsHexDigit(c) && DigitValue(c) == v
  {
    if v < 10 then ('0' as int + v) as char else ('a' as int + v - 10) as char
  }

  function LowerChar(c: char): char {
    if 'A' <= c <= 'Z' then (c as int + 32) as char else c
  }

  function UpperChar(c: char): char {
    if 'a' <= c <= 'z' then (c as int - 32) as char else c
  }

  function ToLower(s: string): (r: string)
    ensures |r| == |s|
    ensures forall i :: 0 <= i < |s| ==> r[i] == LowerChar(s[i])
  {
    seq(|s|, i requires 0 <= i < |s| => LowerChar(s[i]))
  }

  function ToUpper(s: string): (r: string)
    ensures |r| == |s|
    ensures forall i :: 0 <= i < |s| ==> r[i] == UpperChar(s[i])
  {
    seq(|s|, i requires 0 <= i < |s| => UpperChar(s[i]))
  }

  /** `buffer.toString('hex')`: two lower-case digits a byte. */
  function ToHex(bs: seq<byte>): (s: string)
    ensures |s| == 2 * |bs|
    ensures AllHex(s)
  {
    if bs == [] then ""
    else [LowerDigit(bs[0] / 16), LowerDigit(bs[0] % 16)] + ToHex(bs[1..])
  }

  /** `Buffer.from(s, 'hex')`: decodes pairs and stops at the first bad one. */
  function FromHex(s: string): (bs: seq<byte>)
    ensures 2 * |bs| <= |s|
  {
    if |s| < 2 || !IsHexDigit(s[0]) || !IsHexDigit(s[1]) then []
    else [16 * DigitValue(s[0]) + DigitValue(s[1])] + FromHex(s[2..])
  }

  /** Decoding inverts encoding. */
  lemma {:induction false} FromHexToHex(bs: seq<byte>)
    ensures FromHex(ToHex(bs)) == bs
  {
    if bs != [] {
      var s := ToHex(bs);
      assert s[2..] == ToHex(bs[1..]);
      FromHexToHex(bs[1..]);
      assert FromHex(s) == [bs[0]] + FromHex(s[2..]);
    }
  }

  /** Letter case is invisible to the decoder. */
  lemma {:induction false} FromHexIgnoresCase(s: string)
    ensures FromHex(ToLower(s)) == FromHex(s)
    ensures FromHex(ToUpper(s)) == FromHex(s)
  {
    if |s| >= 2 {
      FromHexIgnoresCase(s[2..]);
      assert ToLower(s)[2..] == ToLower(s[2..]);
      assert ToUpper(s)[2..] == ToUpper(s[2..]);
    }
  }

  lemma DigitOfValue(hi: char, lo: char)
    requires IsHexDigit(hi) && IsHexDigit(lo)
    ensures var b := 16 * DigitValue(hi) + DigitValue(lo);
            0 <= b < 256 && LowerDigit(b / 16) == LowerChar(hi) && LowerDigit(b % 16) == LowerChar(lo)
  {
    var b := 16 * DigitValue(hi) + DigitValue(lo);
    assert b / 16 == DigitValue(hi) && b % 16 == DigitValue(lo);
  }

  /** Encoding what was decoded gives the text back in lower case. */
  lemma {:induction false} ToHexFromHex(s: string)
    requires |s| % 2 == 0 && AllHex(s)
    ensures ToHex(FromHex(s)) == ToLower(s)
    ensures |FromHex(s)| == |s| / 2
  {
    if s == "" {
    } else {
      ToHexFromHex(s[2..]);
      DigitOfValue(s[0], s[1]);
      var rest := FromHex(s[2..]);
      var b: byte := 16 * DigitValue(s[0]) + DigitValue(s[1]);
      assert FromHex(s) == [b] + rest;
      assert FromHex(s)[1..] == rest;
      LowerSplit(s);
    }
  }

  lemma LowerSplit(s: string)
    requires |s| >= 2
    ensures ToLower(s) == [LowerChar(s[0]), LowerChar(s[1])] + ToLower(s[2..])
  {
  }

  lemma LowerKeepsHex(s: string)
    ensures AllHex(ToLower(s)) == AllHex(s)
    ensures ToLower(ToLower(s)) == ToLower(s)
  {
    forall i | 0 <= i < |s| ensures IsHexDigit(LowerChar(s[i])) == IsHexDigit(s[i]) {}
    assert forall i :: 0 <= i < |s| ==> IsHexDigit(ToLower(s)[i]) == IsHexDigit(s[i]);
    assert ToLower(ToLower(s)) == ToLower(s);
  }

  /** Upper-casing hexadecimal text and back loses nothing. */
  lemma UpperHexRoundTrip(s: string)
    requires AllHex(s) && ToLower(s) == s
    ensures AllUpperHex(ToUpper(s)) && ToLower(ToUpper(s)) == s
  {
    forall i | 0 <= i < |s|
      ensures IsUpperHexDigit(UpperChar(s[i])) && LowerChar(UpperChar(s[i])) == s[i]
    {
      assert LowerChar(s[i]) == s[i];
    }
    assert ToLower(ToUpper(s)) == s;
  }

  lemma {:induction false} ToHexIsLower(bs: seq<byte>)
    ensures ToLower(ToHex(bs)) == ToHex(bs)
  {
    if bs != [] {
      ToHexIsLower(bs[1..]);
      var s := ToHex(bs);
      forall i | 0 <= i < |s| ensures LowerChar(s[i]) == s[i] {
        if i >= 2 {
          assert s[i] == ToHex(bs[1..])[i - 2];
          assert ToLower(ToHex(bs[1..]))[i - 2] == ToHex(bs[1..])[i - 2];
        }
      }
      assert ToLower(s) == s;
    }
  }
}
