/**
 Decimal text of the four integer types: the writer's digit loop, the reader's digit
 loop with its cut-off, and the exact range on which the second inverts the first.
 */
module JsonNumber {
  import opened CText
  import opened JsonValue

  function DigitChar(d: int): char
    requires 0 <= d < 10
  {
    ('0' as int + d) as char
  }

  predicate IsDigit(c: char) { '0' <= c <= '9' }

  function DigitValue(c: char): (d: int)
    requires IsDigit(c)
    ensures 0 <= d < 10 && DigitChar(d) == c
  {
    c as int - '0' as int
  }

  function Digits(n: nat): (s: string)
    ensures s != "" && forall i :: 0 <= i < |s| ==> IsDigit(s[i])
  {
    if n < 10 then [DigitChar(n)] else Digits(n / 10) + [DigitChar(n % 10)]
  }

  function Decimal(i: int): string {
    if i < 0 then "-" + Digits(-i) else Digits(i)
  }

  function Pow10(k: nat): (p: nat)
    ensures p > 0
  {
    if k == 0 then 1 else 10 * Pow10(k - 1)
  }

  // ----- writing -----

  /** The digits still to be written once the loop is left with `v`. */
  function Pending(v: nat): string {
    if v == 0 then "" else Digits(v)
  }

  lemma PendingStep(v: nat, tail: string)
    requires v > 0
    ensures Pending(v) + tail == Pending(v / 10) + ([DigitChar(v % 10)] + tail)
  {
    assert Digits(v) == Pending(v / 10) + [DigitChar(v % 10)];
  }

  lemma RoomStep(v: nat, k: nat)
    requires 0 < v < Pow10(k)
    ensures k > 0 && v / 10 < Pow10(k - 1)
  {
  }

  lemma FirstDigit(value: nat)
    ensures Digits(value) == Pending(value / 10) + [DigitChar(value % 10)]
  {
  }

  /** The digits of `value`, written backwards from the end of a 32 byte buffer. */
  method UlongToString(value: nat, buffer: array<char>) returns (current: nat)
    requires value <= MAX_ULONG && buffer.Length == 32
    modifies buffer
    ensures 11 <= current < 31 && buffer[31] == NUL
    ensures buffer[current..31] == Digits(value)
  {
    hide Digits, Pow10;
    TwentyDigits();
    FirstDigit(value);
    current := 31;
    buffer[current] := NUL;
    var v: nat := value;
    current := current - 1;
    buffer[current] := DigitChar(v % 10);
    v := v / 10;
    assert buffer[current..31] == [DigitChar(value % 10)];
    while v != 0
      invariant 11 <= current < 31 && buffer[31] == NUL
      invariant v < Pow10(current - 11)
      invariant Digits(value) == Pending(v) + buffer[current..31]
      decreases v
    {
      ghost var tail := buffer[current..31];
      RoomStep(v, current - 11);
      PendingStep(v, tail);
      current := current - 1;
      buffer[current] := DigitChar(v % 10);
      assert buffer[current..31] == [DigitChar(v % 10)] + tail;
      v := v / 10;
    }
  }

  lemma TwentyDigits()
    ensures Pow10(19) > MAX_ULONG / 10
  {
    assert Pow10(4) == 10 * Pow10(3) == 100 * Pow10(2) == 1000 * Pow10(1) == 10000;
    assert Pow10(8) == 10 * Pow10(7) == 100 * Pow10(6) == 1000 * Pow10(5) == 10000 * Pow10(4);
    assert Pow10(12) == 10 * Pow10(11) == 100 * Pow10(10) == 1000 * Pow10(9) == 10000 * Pow10(8);
    assert Pow10(16) == 10 * Pow10(15) == 100 * Pow10(14) == 1000 * Pow10(13) == 10000 * Pow10(12);
    assert Pow10(19) == 10 * Pow10(18) == 100 * Pow10(17) == 1000 * Pow10(16);
  }

  const INT_RANGE := 0x1_0000_0000
  const LONG_RANGE := 0x1_0000_0000_0000_0000

  /** A value wrapped into a signed type that has `range` values. */
  function Wrap(v: int, range: int): int
    requires range > 0
  {
    if v % range < range / 2 then v % range else v % range - range
  }

  /** The cast to the unsigned type of the same width. */
  function Unsigned(v: int, range: int): nat
    requires range > 0
  {
    v % range
  }

  /** Negating the least value of a type wraps to itself, and as an unsigned value that is its magnitude. */
  lemma CastIsMagnitude(value: int, range: int)
    requires range == INT_RANGE || range == LONG_RANGE
    requires -(range / 2) <= value < range / 2
    ensures Unsigned(if value < 0 then Wrap(-value, range) else value, range) == if value < 0 then -value else value
  {
  }

  /** valueToString of Int and Long, whose types have `range` values. */
  method SignedToString(value: int, range: int) returns (s: string)
    requires range == INT_RANGE || range == LONG_RANGE
    requires -(range / 2) <= value < range / 2
    ensures s == Decimal(value)
  {
    hide Wrap, Unsigned, Digits;
    var buffer := new char[32];
    var isNegative := value < 0;
    var v := if isNegative then Wrap(-value, range) else value;
    CastIsMagnitude(value, range);
    var current := UlongToString(Unsigned(v, range), buffer);
    if isNegative {
      ghost var tail := buffer[current..31];
      current := current - 1;
      buffer[current] := '-';
      assert buffer[current..31] == "-" + tail;
    }
    s := buffer[current..31];
  }

  /** valueToString of UInt and ULong. */
  method UnsignedToString(value: nat) returns (s: string)
    requires value <= MAX_ULONG
    ensures s == Decimal(value)
  {
    var buffer := new char[32];
    var current := UlongToString(value, buffer);
    s := buffer[current..31];
  }

  // ----- reading -----

  datatype Accumulated = BadDigit | TooLarge | Sum(n: nat)

  /** The digit loop: it gives up before a digit that would follow a value at the threshold. */
  function Accumulate(digits: string, value: nat, threshold: nat): Accumulated {
    if digits == "" then Sum(value)
    else if !IsDigit(digits[0]) then BadDigit
    else if value >= threshold then TooLarge
    else Accumulate(digits[1..], value * 10 + DigitValue(digits[0]), threshold)
  }

  /** What a number token means: an integer, a token for the double parser, or an error. */
  datatype Decoded = NotANumber | AsDouble | Integer(value: Value)

  predicate DoubleChar(c: char) { c == '.' || c == 'e' || c == 'E' || c == '+' }

  predicate LooksDouble(token: string) {
    exists i :: 0 <= i < |token| && (DoubleChar(token[i]) || (token[i] == '-' && i > 0))
  }

  function Threshold(negative: bool): nat {
    (if negative then MAX_LONG + 1 else MAX_ULONG) / 10
  }

  /** The reader's choice of integer type for a magnitude. */
  function Typed(negative: bool, n: int): Value {
    if negative then if n <= MAX_INT then Int(-n) else Long(-n)
    else if n <= MAX_INT then Int(n)
    else if n <= MAX_UINT then UInt(n)
    else if n <= MAX_LONG then Long(n)
    else ULong(n)
  }

  function Decode(token: string): Decoded
    requires token != ""
  {
    if LooksDouble(token) then AsDouble
    else
      var negative := token[0] == '-';
      match Accumulate(if negative then token[1..] else token, 0, Threshold(negative))
      case BadDigit => NotANumber
      case TooLarge => AsDouble
      case Sum(n) => Integer(Typed(negative, n))
  }

  /** Reader::decodeNumber up to the call of the double parser. */
  method DecodeNumber(token: string) returns (d: Decoded)
    requires token != ""
    ensures d == Decode(token)
  {
    var isDouble := false;
    for inspect := 0 to |token|
      invariant isDouble <==>
        exists i :: 0 <= i < inspect && (DoubleChar(token[i]) || (token[i] == '-' && i > 0))
    {
      isDouble := isDouble || DoubleChar(token[inspect]) || (token[inspect] == '-' && inspect != 0);
    }
    if isDouble { return AsDouble; }
    var current := 0;
    var isNegative := token[0] == '-';
    if isNegative { current := 1; }
    var start := current;
    var threshold := Threshold(isNegative);
    var value: nat := 0;
    while current < |token|
      invariant start <= current <= |token|
      invariant value < 10 * threshold
      invariant Accumulate(token[start..], 0, threshold) == Accumulate(token[current..], value, threshold)
    {
      var c := token[current];
      assert token[current..][1..] == token[current + 1..];
      current := current + 1;
      if !IsDigit(c) { return NotANumber; }
      if value >= threshold { return AsDouble; }
      value := value * 10 + DigitValue(c);
      assert value <= MAX_ULONG;  // the 64 bit accumulator never wraps
    }
    assert token[current..] == "";
    d := Integer(Typed(isNegative, value));
  }

  // ----- main results -----

  lemma {:induction false} AccumulateLast(digits: string, c: char, value: nat, threshold: nat)
    requires IsDigit(c)
    ensures Accumulate(digits + [c], value, threshold) ==
            match Accumulate(digits, value, threshold)
            case Sum(n) => if n >= threshold then TooLarge else Sum(n * 10 + DigitValue(c))
            case other => other
  {
    if digits == "" {
      assert (digits + [c])[1..] == "";
    } else {
      assert (digits + [c])[1..] == digits[1..] + [c];
      if IsDigit(digits[0]) && value < threshold {
        AccumulateLast(digits[1..], c, value * 10 + DigitValue(digits[0]), threshold);
      }
    }
  }

  /** The reader's digit loop inverts the writer's below ten times the threshold and never above. */
  lemma {:induction false} AccumulateInverts(n: nat, threshold: nat)
    requires threshold > 0
    ensures Accumulate(Digits(n), 0, threshold) == if n < 10 * threshold then Sum(n) else TooLarge
  {
    if n < 10 {
      assert Digits(n)[1..] == "";
    } else {
      AccumulateInverts(n / 10, threshold);
      AccumulateLast(Digits(n / 10), DigitChar(n % 10), 0, threshold);
    }
  }

  const MAX_READ := 18446744073709551609
  const MAX_READ_NEGATIVE := 9223372036854775799

  /** The integers that survive writing and reading. */
  predicate Exact(i: int) { -MAX_READ_NEGATIVE <= i <= MAX_READ }

  lemma DecimalIsPlain(i: int)
    ensures Decimal(i) != "" && !LooksDouble(Decimal(i))
    ensures Decimal(i)[0] == '-' <==> i < 0
  {
    var s := Decimal(i);
    assert forall k :: 0 < k < |s| ==> IsDigit(s[k]);
  }

  lemma Thresholds()
    ensures 10 * Threshold(false) == MAX_READ + 1 && 10 * Threshold(true) == MAX_READ_NEGATIVE + 1
  {
  }

  /** Reading back a written integer gives that integer exactly when it is in range; else a double. */
  lemma DecodeInverts(i: int)
    ensures Decimal(i) != ""
    ensures Decode(Decimal(i)) == if Exact(i) then Integer(Typed(i < 0, if i < 0 then -i else i)) else AsDouble
  {
    DecimalIsPlain(i);
    Thresholds();
    var n := if i < 0 then -i else i;
    var body := if i < 0 then Decimal(i)[1..] else Decimal(i);
    assert body == Digits(n);
    AccumulateInverts(n, Threshold(i < 0));
  }

  /** The type that a written integer is read back with: the first of the four that holds it, but never Int for the least Int. */
  lemma TypeRead(i: int)
    requires Exact(i)
    ensures Decimal(i) != "" && Decode(Decimal(i)).Integer?
    ensures var v := Decode(Decimal(i)).value;
            && (v == Int(i) <==> -0x7FFF_FFFF <= i <= 0x7FFF_FFFF)
            && (v == UInt(i) <==> 0x7FFF_FFFF < i <= 0xFFFF_FFFF)
            && (v == Long(i) <==> i < -0x7FFF_FFFF || 0xFFFF_FFFF < i <= 0x7FFF_FFFF_FFFF_FFFF)
            && (v == ULong(i) <==> 0x7FFF_FFFF_FFFF_FFFF < i)
  {
    DecodeInverts(i);
  }
}
