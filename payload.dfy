/**
 * The JSON text the service publishes for a successful decrement:
 * `{"order_id":<decimal>,"point_level":"<level>"}`, the shape that
 * encoding/json gives the DecreasePointSuccess record (keys in field order,
 * no spaces, an unsigned integer in decimal without leading zeros).
 *
 * Decode is a partial reference parser for exactly that shape. DecodeEncode
 * and EncodeDecode show that Decode inverts Encode and accepts nothing else,
 * and EncodeInjective that the payload determines the order identifier and
 * the level.
 */
module Payload {
  import opened Wrappers
  import opened Model

  const OrderIdKey: string := "{\"order_id\":"
  const LevelKey: string := ",\"point_level\":\""
  const Closing: string := "\"}"

  predicate IsDigit(c: char) {
    '0' <= c <= '9'
  }

  predicate AllDigits(s: string) {
    forall k :: 0 <= k < |s| ==> IsDigit(s[k])
  }

  /** A decimal numeral as encoding/json writes one: non-empty, no leading zero. */
  predicate Canonical(s: string) {
    |s| >= 1 && AllDigits(s) && (s[0] == '0' ==> |s| == 1)
  }

  function DigitChar(d: nat): (c: char)
    requires d < 10
    ensures IsDigit(c) && (c == '0' <==> d == 0)
  {
    ('0' as int + d) as char
  }

  function DigitValue(c: char): (d: nat)
    requires IsDigit(c)
    ensures d < 10 && DigitChar(d) == c
  {
    c as int - '0' as int
  }

  /** The decimal numeral of n. */
  function Decimal(n: nat): (s: string)
    ensures Canonical(s)
    ensures |s| == 1 <==> n < 10
    decreases n
  {
    if n < 10 then [DigitChar(n)] else Decimal(n / 10) + [DigitChar(n % 10)]
  }

  /** The value of a string of decimal digits. */
  function ParseDecimal(s: string): nat
    requires AllDigits(s)
    decreases |s|
  {
    if s == [] then 0 else ParseDecimal(s[..|s| - 1]) * 10 + DigitValue(s[|s| - 1])
  }

  /** The length of the longest run of digits at the front of s. */
  function DigitRun(s: string): (k: nat)
    ensures k <= |s| && AllDigits(s[..k])
    ensures k < |s| ==> !IsDigit(s[k])
    decreases |s|
  {
    if s == [] || !IsDigit(s[0]) then 0
    else
      var k := 1 + DigitRun(s[1..]);
      assert s[..k] == [s[0]] + s[1..][..k - 1];
      k
  }

  /** What follows the order identifier in the payload of a level. */
  function LevelTailOf(level: Level): string {
    LevelKey + LevelName(level) + Closing
  }

  /** The level whose payload tail `,"point_level":"<name>"}` is t, if any. */
  function LevelTail(t: string): (r: Option<Level>)
    ensures r.Some? ==> t == LevelTailOf(r.value)
  {
    if t == LevelTailOf(Bronze) then Some(Bronze)
    else if t == LevelTailOf(Silver) then Some(Silver)
    else if t == LevelTailOf(Gold) then Some(Gold)
    else None
  }

  /**
   * The message body the service hands to the producer: the order_id key, the
   * identifier as a canonical decimal numeral, then the point_level key, the
   * level's name in quotes and the closing brace.
   */
  function Encode(d: DecreasePointSuccess): (s: string)
    ensures |OrderIdKey| < |s| - |LevelTailOf(d.pointLevel)|
    ensures s[..|OrderIdKey|] == OrderIdKey
    ensures var numeral := s[|OrderIdKey|..|s| - |LevelTailOf(d.pointLevel)|];
            Canonical(numeral) && ParseDecimal(numeral) == d.orderId
    ensures s[|s| - |LevelTailOf(d.pointLevel)|..] == LevelTailOf(d.pointLevel)
  {
    var numeral := Decimal(d.orderId);
    var tail := LevelTailOf(d.pointLevel);
    var s := OrderIdKey + numeral + tail;
    ParseDecimalOfDecimal(d.orderId);
    assert s[|OrderIdKey|..|s| - |tail|] == numeral;
    s
  }

  /** Reads back a payload of exactly the shape Encode writes; anything else is None. */
  function Decode(s: string): Option<DecreasePointSuccess> {
    if |s| < |OrderIdKey| || s[..|OrderIdKey|] != OrderIdKey then None
    else
      var rest := s[|OrderIdKey|..];
      var k := DigitRun(rest);
      if !Canonical(rest[..k]) then None
      else
        match LevelTail(rest[k..])
        case None => None
        case Some(level) => Some(DecreasePointSuccess(ParseDecimal(rest[..k]), level))
  }

  lemma {:induction false} ParseDecimalOfDecimal(n: nat)
    ensures ParseDecimal(Decimal(n)) == n
    decreases n
  {
    var s := Decimal(n);
    if n >= 10 {
      ParseDecimalOfDecimal(n / 10);
      assert s[..|s| - 1] == Decimal(n / 10);
    }
  }

  lemma {:induction false} ParseDecimalAtLeastLead(s: string)
    requires |s| >= 1 && AllDigits(s)
    ensures ParseDecimal(s) >= DigitValue(s[0])
    decreases |s|
  {
    if |s| > 1 {
      var p := s[..|s| - 1];
      assert p[0] == s[0];
      ParseDecimalAtLeastLead(p);
    }
  }

  lemma {:induction false} DecimalOfParseDecimal(s: string)
    requires Canonical(s)
    ensures Decimal(ParseDecimal(s)) == s
    decreases |s|
  {
    if |s| > 1 {
      var p := s[..|s| - 1];
      assert p[0] == s[0];
      assert Canonical(p);
      DecimalOfParseDecimal(p);
      ParseDecimalAtLeastLead(p);
      var n := ParseDecimal(s);
      assert n / 10 == ParseDecimal(p) && n % 10 == DigitValue(s[|s| - 1]);
      assert s == p + [s[|s| - 1]];
    }
  }

  lemma {:induction false} DigitRunStopsAt(digits: string, tail: string)
    requires AllDigits(digits) && |tail| > 0 && !IsDigit(tail[0])
    ensures DigitRun(digits + tail) == |digits|
    decreases |digits|
  {
    if digits != [] {
      assert (digits + tail)[1..] == digits[1..] + tail;
      DigitRunStopsAt(digits[1..], tail);
    }
  }

  /** Each level's payload tail reads back as that level. */
  lemma LevelTailOfLevel(level: Level)
    ensures LevelTail(LevelTailOf(level)) == Some(level)
  {
    if level == Silver {
      assert LevelTailOf(Silver)[|LevelKey|] != LevelTailOf(Bronze)[|LevelKey|];
    }
  }

  /** The key, a canonical numeral and a level tail decode to that numeral's value and level. */
  lemma DecodeParts(digits: string, tail: string, level: Level)
    requires Canonical(digits) && LevelTail(tail) == Some(level) && tail[0] == ','
    ensures Decode(OrderIdKey + digits + tail) == Some(DecreasePointSuccess(ParseDecimal(digits), level))
  {
    var s := OrderIdKey + digits + tail;
    assert s[..|OrderIdKey|] == OrderIdKey;
    var rest := s[|OrderIdKey|..];
    assert rest == digits + tail;
    DigitRunStopsAt(digits, tail);
    assert rest[..DigitRun(rest)] == digits && rest[DigitRun(rest)..] == tail;
  }

  /** Every result decodes back to itself from its published payload. */
  lemma DecodeEncode(d: DecreasePointSuccess)
    ensures Decode(Encode(d)) == Some(d)
  {
    LevelTailOfLevel(d.pointLevel);
    assert LevelTailOf(d.pointLevel)[0] == ',';
    DecodeParts(Decimal(d.orderId), LevelTailOf(d.pointLevel), d.pointLevel);
    ParseDecimalOfDecimal(d.orderId);
  }

  /** A decodable text is the key, a canonical numeral and a level tail, in that order. */
  lemma DecodeSplit(s: string) returns (digits: string, tail: string)
    requires Decode(s).Some?
    ensures s == OrderIdKey + digits + tail && Canonical(digits)
    ensures Decode(s).value.orderId == ParseDecimal(digits)
    ensures LevelTail(tail) == Some(Decode(s).value.pointLevel)
  {
    var rest := s[|OrderIdKey|..];
    var k := DigitRun(rest);
    digits, tail := rest[..k], rest[k..];
    assert rest == digits + tail;
    assert s == s[..|OrderIdKey|] + rest;
  }

  /** Every string that decodes is the encoding of what it decodes to: no second spelling exists. */
  lemma EncodeDecode(s: string, d: DecreasePointSuccess)
    requires Decode(s) == Some(d)
    ensures Encode(d) == s
  {
    var digits, tail := DecodeSplit(s);
    DecimalOfParseDecimal(digits);
  }

  /** Two results with the same payload are the same result. */
  lemma EncodeInjective(a: DecreasePointSuccess, b: DecreasePointSuccess)
    requires Encode(a) == Encode(b)
    ensures a == b
  {
    DecodeEncode(a);
    DecodeEncode(b);
  }
}
