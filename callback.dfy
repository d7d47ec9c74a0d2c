/**
 * The verification button's callback data (bot.py): the challenge carries
 * `"verify_" + str(user_id)`, and the button handler recovers the id with
 * `data.split("_")[1]` followed by `int(...)`.
 */
module Callback {
  import opened Records

  const Prefix: string := "verify_"

  function DigitChar(d: nat): (c: char)
    requires d < 10
    ensures '0' <= c <= '9' && c as int - '0' as int == d
  {
    "0123456789"[d]
  }

  predicate IsDigit(c: char)
  {
    '0' <= c <= '9'
  }

  /** `str(n)` for a non-negative integer: decimal digits, no leading zeros. */
  function NatToString(n: nat): (s: string)
    ensures |s| >= 1 && forall i :: 0 <= i < |s| ==> IsDigit(s[i])
    ensures s[0] == '0' ==> n == 0
  {
    if n < 10 then [DigitChar(n)] else NatToString(n / 10) + [DigitChar(n % 10)]
  }

  /** `str(i)`: a minus sign for negative integers, then the digits. */
  function IntToString(i: int): (s: string)
    ensures '_' !in s
    ensures |s| >= 1 && (s[0] == '-' <==> i < 0)
    ensures AllDigits(if i < 0 then s[1..] else s)
  {
    if i < 0 then "-" + NatToString(-i) else NatToString(i)
  }

  /** One or more ASCII digits. */
  predicate AllDigits(s: string)
  {
    |s| >= 1 && forall i :: 0 <= i < |s| ==> IsDigit(s[i])
  }

  /** A run of one or more ASCII digits as a number. */
  function ParseNat(s: string): (r: Option<nat>)
    ensures r.Some? <==> AllDigits(s)
  {
    if |s| == 0 then None
    else if !IsDigit(s[|s| - 1]) then None
    else if |s| == 1 then Some(s[0] as int - '0' as int)
    else match ParseNat(s[..|s| - 1])
      case None => None
      case Some(v) => Some(10 * v + (s[|s| - 1] as int - '0' as int))
  }

  /** `int(s)` restricted to an optional sign followed by ASCII digits. */
  function ParseInt(s: string): (r: Option<int>)
    ensures r.Some? <==> AllDigits(s) || (|s| >= 1 && (s[0] == '-' || s[0] == '+') && AllDigits(s[1..]))
    ensures r.Some? && r.value < 0 ==> s[0] == '-'
    ensures r.Some? && s[0] == '-' ==> r.value <= 0
  {
    if |s| >= 1 && s[0] == '-' then
      match ParseNat(s[1..])
      case None => None
      case Some(v) => Some(0 - v as int)
    else if |s| >= 1 && s[0] == '+' then
      match ParseNat(s[1..])
      case None => None
      case Some(v) => Some(v)
    else
      match ParseNat(s)
      case None => None
      case Some(v) => Some(v)
  }

  /** Joins pieces with one separator between neighbours. */
  function Join(parts: seq<string>, sep: char): string
    requires |parts| >= 1
  {
    if |parts| == 1 then parts[0] else parts[0] + [sep] + Join(parts[1..], sep)
  }

  /** `s.split(sep)`: the pieces between separators, empty pieces kept. */
  function Split(s: string, sep: char): (parts: seq<string>)
    ensures |parts| >= 1
    ensures forall i :: 0 <= i < |parts| ==> sep !in parts[i]
    ensures Join(parts, sep) == s
  {
    if s == [] then [[]]
    else
      var rest := Split(s[1..], sep);
      if s[0] == sep then
        assert [sep] + Join(rest, sep) == s;
        [[]] + rest
      else
        var parts := [[s[0]] + rest[0]] + rest[1..];
        assert parts[1..] == rest[1..];
        assert Join(parts, sep) == [s[0]] + Join(rest, sep);
        parts
  }

  /** The callback data of the challenge button for one user. */
  function EncodeCallback(userId: int): (data: string)
    ensures Prefix <= data
    ensures data[|Prefix|..] == IntToString(userId)
  {
    Prefix + IntToString(userId)
  }

  /**
   * The user id carried by callback data. `None` when the data does not start
   * with the prefix (the handler is not routed such data) or when the second
   * `_`-separated field is not a number (`int` raises and the press is lost).
   */
  function DecodeCallback(data: string): (r: Option<int>)
    ensures r.Some? ==> Prefix <= data
  {
    if !(Prefix <= data) then None
    else
      var parts := Split(data, '_');
      if |parts| < 2 then None else ParseInt(parts[1])
  }

  lemma {:induction false} ParseNatOfString(n: nat)
    ensures ParseNat(NatToString(n)) == Some(n)
  {
    var s := NatToString(n);
    if n >= 10 {
      ParseNatOfString(n / 10);
      assert s[..|s| - 1] == NatToString(n / 10);
    }
  }

  /** `int(str(i)) == i`. */
  lemma ParseIntOfString(i: int)
    ensures ParseInt(IntToString(i)) == Some(i)
  {
    if i < 0 {
      var digits := NatToString(-i);
      assert ("-" + digits)[1..] == digits;
      ParseNatOfString(-i);
    } else {
      var digits := NatToString(i);
      assert IsDigit(digits[0]);
      ParseNatOfString(i);
    }
  }

  /** Splitting text whose first separator follows `head`. */
  lemma {:induction false} SplitAfterHead(head: string, sep: char, tail: string)
    requires sep !in head
    ensures Split(head + [sep] + tail, sep) == [head] + Split(tail, sep)
  {
    var s := head + [sep] + tail;
    if head == [] {
      assert s[1..] == tail;
    } else {
      assert s[1..] == head[1..] + [sep] + tail;
      SplitAfterHead(head[1..], sep, tail);
      var rest := Split(s[1..], sep);
      assert rest == [head[1..]] + Split(tail, sep);
      assert rest[1..] == Split(tail, sep);
      assert [head[0]] + head[1..] == head;
    }
  }

  /** A string without the separator splits into itself alone. */
  lemma SplitWithoutSeparator(s: string, sep: char)
    requires sep !in s
    ensures Split(s, sep) == [s]
  {
  }

  /** Decoding the data of a user's button yields that user's id. */
  lemma DecodeEncode(userId: int)
    ensures DecodeCallback(EncodeCallback(userId)) == Some(userId)
  {
    var digits := IntToString(userId);
    assert EncodeCallback(userId) == "verify" + ['_'] + digits;
    SplitAfterHead("verify", '_', digits);
    SplitWithoutSeparator(digits, '_');
    ParseIntOfString(userId);
  }

  /** Different users get different buttons. */
  lemma EncodeInjective(u1: int, u2: int)
    requires EncodeCallback(u1) == EncodeCallback(u2)
    ensures u1 == u2
  {
    DecodeEncode(u1);
    DecodeEncode(u2);
  }
}
