/** Hexadecimal text as the clients read and write it. */
module Hex {
  import opened Basics

  function Digit(n: int): char
    requires 0 <= n < 16
  {
    if n < 10 then (n + '0' as int) as char else (n - 10 + 'a' as int) as char
  }

  function Value(c: char): (v: Option<int>)
    ensures v.Some? ==> 0 <= v.value < 16
  {
    if '0' <= c <= '9' then Some(c as int - '0' as int)
    else if 'a' <= c <= 'f' then Some(c as int - 'a' as int + 10)
    else if 'A' <= c <= 'F' then Some(c as int - 'A' as int + 10)
    else None
  }

  predicate Space(c: char) {
    c == ' ' || 9 as char <= c <= 13 as char
  }

  function LowerChar(c: char): char {
    if 'A' <= c <= 'Z' then (c as int + 32) as char else c
  }

  function Lower(s: string): (r: string)
    ensures |r| == |s| && forall i :: 0 <= i < |s| ==> r[i] == LowerChar(s[i])
  {
    seq(|s|, i requires 0 <= i < |s| => LowerChar(s[i]))
  }

  function Encode(b: Bytes): string {
    if b == [] then "" else [Digit(b[0] / 16), Digit(b[0] % 16)] + Encode(b[1..])
  }

  /**
   Reads pairs of digits. With `skipsSpace` white space may stand before a pair
   or at the end, as Python's bytes.fromhex allows; without it only digits are
   accepted, as Go's hex.DecodeString does.
   */
  function Decode(s: string, skipsSpace: bool): Option<Bytes> {
    if s == "" then Some([])
    else if skipsSpace && Space(s[0]) then Decode(s[1..], skipsSpace)
    else if |s| >= 2 && Value(s[0]).Some? && Value(s[1]).Some? then
      match Decode(s[2..], skipsSpace)
      case Some(rest) => Some([Value(s[0]).value * 16 + Value(s[1]).value] + rest)
      case None => None
    else None
  }

  /** Two lower-case digits per byte, the high one first. */
  lemma {:induction false} EncodeText(b: Bytes, k: nat)
    requires k < |b|
    ensures |Encode(b)| == 2 * |b|
    ensures Encode(b)[2 * k] == "0123456789abcdef"[b[k] / 16]
    ensures Encode(b)[2 * k + 1] == "0123456789abcdef"[b[k] % 16]
  {
    DigitIs(b[0] / 16);
    DigitIs(b[0] % 16);
    EncodeLength(b);
    if k > 0 {
      EncodeText(b[1..], k - 1);
      assert Encode(b)[2..] == Encode(b[1..]);
    }
  }

  lemma {:induction false} EncodeLength(b: Bytes)
    ensures |Encode(b)| == 2 * |b|
  {
    if b != [] {
      EncodeLength(b[1..]);
    }
  }

  lemma DigitIs(n: int)
    requires 0 <= n < 16
    ensures Digit(n) == "0123456789abcdef"[n]
  {
    assert "0123456789abcdef" == ['0', '1', '2', '3', '4', '5', '6', '7', '8', '9', 'a', 'b', 'c', 'd', 'e', 'f'];
  }

  lemma DigitValue(n: int)
    requires 0 <= n < 16
    ensures Value(Digit(n)) == Some(n) && !Space(Digit(n))
  {
  }

  lemma ValueDigit(c: char)
    requires Value(c).Some?
    ensures Digit(Value(c).value) == LowerChar(c) && !Space(c)
  {
  }

  lemma {:induction false} RoundTrip(b: Bytes, skipsSpace: bool)
    ensures Decode(Encode(b), skipsSpace) == Some(b)
  {
    if b != [] {
      DigitValue(b[0] / 16);
      DigitValue(b[0] % 16);
      RoundTrip(b[1..], skipsSpace);
      var text := Encode(b);
      assert text[0] == Digit(b[0] / 16) && text[1] == Digit(b[0] % 16);
      assert text[2..] == Encode(b[1..]);
      assert [b[0]] + b[1..] == b;
    }
  }

  lemma LowerReadsAlike(c: char)
    ensures Value(LowerChar(c)) == Value(c) && Space(LowerChar(c)) == Space(c)
  {
  }

  lemma LowerTail(s: string, k: nat)
    requires k <= |s|
    ensures Lower(s)[k..] == Lower(s[k..])
  {
  }

  lemma {:induction false} CaseBlind(s: string, skipsSpace: bool)
    ensures Decode(Lower(s), skipsSpace) == Decode(s, skipsSpace)
  {
    if s != "" {
      LowerReadsAlike(s[0]);
      LowerTail(s, 1);
      CaseBlind(s[1..], skipsSpace);
      if |s| >= 2 {
        LowerReadsAlike(s[1]);
        LowerTail(s, 2);
        CaseBlind(s[2..], skipsSpace);
      }
    }
  }

  lemma PairEncodes(high: int, low: int, rest: Bytes)
    requires 0 <= high < 16 && 0 <= low < 16
    ensures Encode([high * 16 + low] + rest) == [Digit(high), Digit(low)] + Encode(rest)
  {
    var b := [high * 16 + low] + rest;
    assert b[0] / 16 == high && b[0] % 16 == low && b[1..] == rest;
  }

  /** Two digits in front decode to one byte in front. */
  lemma DecodePair(s: string, skipsSpace: bool)
    requires |s| >= 2 && Value(s[0]).Some? && Value(s[1]).Some?
    ensures Decode(s, skipsSpace) ==
      match Decode(s[2..], skipsSpace)
      case Some(rest) => Some([Value(s[0]).value * 16 + Value(s[1]).value] + rest)
      case None => None
  {
    ValueDigit(s[0]);
  }

  lemma LowerPair(s: string)
    requires |s| >= 2
    ensures Lower(s) == [LowerChar(s[0]), LowerChar(s[1])] + Lower(s[2..])
  {
  }

  lemma DecodesInPairs(s: string)
    requires Decode(s, false).Some? && s != ""
    ensures |s| >= 2 && Value(s[0]).Some? && Value(s[1]).Some? && Decode(s[2..], false).Some?
  {
  }

  lemma {:induction false} PlainDecodes(s: string, skipsSpace: bool)
    requires Decode(s, false).Some?
    ensures Decode(s, skipsSpace) == Decode(s, false)
  {
    if s != "" {
      DecodesInPairs(s);
      DecodePair(s, false);
      DecodePair(s, skipsSpace);
      PlainDecodes(s[2..], skipsSpace);
    }
  }

  /** Reading two digits and writing the byte gives the digits back, in lower case. */
  lemma PairReencodes(high: char, low: char, rest: Bytes)
    requires Value(high).Some? && Value(low).Some?
    ensures Encode([Value(high).value * 16 + Value(low).value] + rest) == [LowerChar(high), LowerChar(low)] + Encode(rest)
  {
    ValueDigit(high);
    ValueDigit(low);
    PairEncodes(Value(high).value, Value(low).value, rest);
  }

  lemma {:induction false} PlainReencodes(s: string)
    requires Decode(s, false).Some?
    ensures Encode(Decode(s, false).value) == Lower(s)
  {
    if s != "" {
      DecodesInPairs(s);
      DecodePair(s, false);
      PlainReencodes(s[2..]);
      PairReencodes(s[0], s[1], Decode(s[2..], false).value);
      LowerPair(s);
    }
  }

  /** Text that holds digits only is, up to case, the encoding of what it decodes to. */
  lemma PlainText(s: string, skipsSpace: bool)
    requires Decode(s, false).Some?
    ensures Decode(s, skipsSpace) == Decode(s, false)
    ensures Encode(Decode(s, false).value) == Lower(s)
  {
    PlainDecodes(s, skipsSpace);
    PlainReencodes(s);
  }

  /** A spaced text equals its own re-encoding, up to case, exactly when it holds digits only. */
  lemma MatchesReencoding(s: string, skipsSpace: bool)
    requires Decode(s, skipsSpace).Some?
    ensures Lower(s) == Encode(Decode(s, skipsSpace).value) <==> Decode(s, false).Some?
  {
    if Decode(s, false).Some? {
      PlainText(s, skipsSpace);
    } else if Lower(s) == Encode(Decode(s, skipsSpace).value) {
      RoundTrip(Decode(s, skipsSpace).value, false);
      CaseBlind(s, false);
    }
  }

  /** Decoding that skips spaces does not see one in front; decoding that does not, rejects it. */
  lemma LeadingSpace(s: string)
    ensures Decode(" " + s, true) == Decode(s, true) && Decode(" " + s, false).None?
  {
    assert (" " + s)[1..] == s;
  }

  lemma NonEmpty(b: Bytes)
    requires b != []
    ensures Encode(b) != ""
  {
  }
}
