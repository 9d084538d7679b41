/**
 What a number in a JSON document is read as, apart from the loops of the reader: an integer when it is
 digits behind an optional sign and not too long, and otherwise what the double parser makes of it.
 */
module JsonNumeral {
  import opened Basics
  import opened JsonNumber
  import opened JsonReading
  import opened JsonValue

  /** The characters a number is made of. */
  predicate Numeral(c: char) { c in "0123456789.eE+-" }

  predicate Digit(c: char) { c in "0123456789" }

  predicate AllDigits(s: string) { forall i :: 0 <= i < |s| ==> Digit(s[i]) }

  predicate NumberText(text: string) {
    text != "" && (Digit(text[0]) || text[0] == '-') && forall i :: 0 <= i < |text| ==> Numeral(text[i])
  }

  /** The value of decimal digits. */
  function Number(digits: string): nat
    requires AllDigits(digits)
  {
    if digits == "" then 0
    else
      DigitIs(digits[|digits| - 1]);
      10 * Number(digits[..|digits| - 1]) + (digits[|digits| - 1] as int - '0' as int)
  }

  lemma DigitIs(c: char)
    ensures Digit(c) <==> IsDigit(c)
  {
    var digits := "0123456789";
    assert digits[0] == '0' && digits[1] == '1' && digits[2] == '2' && digits[3] == '3' && digits[4] == '4';
    assert digits[5] == '5' && digits[6] == '6' && digits[7] == '7' && digits[8] == '8' && digits[9] == '9';
  }

  lemma NumeralIs(c: char)
    ensures Numeral(c) <==> NumberChar(c)
    ensures Numeral(c) <==> Digit(c) || c in ".eE+-"
  {
    var chars, marks := "0123456789.eE+-", ".eE+-";
    assert chars == "0123456789" + marks;
    DigitIs(c);
    assert marks[0] == '.' && marks[1] == 'e' && marks[2] == 'E' && marks[3] == '+' && marks[4] == '-';
  }

  /** The digits behind a sign. */
  function Magnitude(text: string): string {
    if text != "" && text[0] == '-' then text[1..] else text
  }

  /** A tenth of the least number that is too large: what stands before the last digit has to be below. */
  function Cutoff(negative: bool): nat {
    if negative then 922337203685477580 else 1844674407370955161
  }

  /** The type goes by the size: Int, UInt, Long, ULong, and below zero Int or Long. */
  function Sized(negative: bool, n: int): Value {
    if negative then if n < 0x8000_0000 then Int(-n) else Long(-n)
    else if n < 0x8000_0000 then Int(n)
    else if n < 0x1_0000_0000 then UInt(n)
    else if n < 0x8000_0000_0000_0000 then Long(n)
    else ULong(n)
  }

  function NumberValue(text: string, scan: DoubleParser): Option<Value> {
    var digits, negative := Magnitude(text), text != "" && text[0] == '-';
    if AllDigits(digits) && (digits == "" || Number(digits[..|digits| - 1]) < Cutoff(negative)) then
      Some(Sized(negative, Number(digits)))
    else match scan(text) case Some(r) => Some(Real(r)) case None => None
  }

  // ----- the reader's loops -----

  lemma {:induction false} LoopIs(digits: string, threshold: nat)
    requires AllDigits(digits)
    ensures Accumulate(digits, 0, threshold) ==
            if digits != "" && Number(digits[..|digits| - 1]) >= threshold then TooLarge else Sum(Number(digits))
  {
    hide Digit;
    if digits != "" {
      var init, c := digits[..|digits| - 1], digits[|digits| - 1];
      assert digits == init + [c];
      DigitIs(c);
      LoopIs(init, threshold);
      AccumulateLast(init, c, 0, threshold);
      if init != "" { DigitIs(init[|init| - 1]); }
    }
  }

  lemma LooksDoubleIs(text: string)
    requires NumberText(text)
    ensures LooksDouble(text) <==> !AllDigits(Magnitude(text))
  {
    hide Digit, Numeral, DoubleChar, IsDigit;
    var k := if text[0] == '-' then 1 else 0;
    forall i | 0 <= i < |text|
      ensures !Digit(text[i]) <==> DoubleChar(text[i]) || text[i] == '-'
    {
      MarkIs(text[i]);
    }
    if i :| 0 <= i < |text| && (DoubleChar(text[i]) || (text[i] == '-' && i > 0)) {
      assert i >= k && Magnitude(text)[i - k] == text[i] by { MarkIs(text[i]); }
    }
    if !AllDigits(Magnitude(text)) {
      var i :| 0 <= i < |Magnitude(text)| && !Digit(Magnitude(text)[i]);
      assert Magnitude(text)[i] == text[i + k];
    }
  }

  /** Of the characters of a number, those that are no digits make it a double; the sign does in front only. */
  lemma MarkIs(c: char)
    requires Numeral(c)
    ensures !Digit(c) <==> DoubleChar(c) || c == '-'
    ensures DoubleChar(c) ==> c != '-'
  {
    hide Numeral, Digit;
    NumeralIs(c);
    DigitIs(c);
  }

  /** decodeNumber on the tokens that the scanner makes: it never finds a character that is no digit. */
  lemma DecodeIs(text: string)
    requires NumberText(text)
    ensures var digits, negative := Magnitude(text), text[0] == '-';
            Decode(text) ==
            if AllDigits(digits) && (digits == "" || Number(digits[..|digits| - 1]) < Cutoff(negative)) then
              Integer(Sized(negative, Number(digits)))
            else AsDouble
  {
    hide LooksDouble, Number, AllDigits, Digit, Numeral;
    LooksDoubleIs(text);
    if AllDigits(Magnitude(text)) { LoopIs(Magnitude(text), Threshold(text[0] == '-')); }
  }

  /** A number token is read as its value. */
  lemma NumberIsRead(tok: Token, current: Value, scan: DoubleParser)
    requires NumberText(tok.text)
    ensures NumberOutcome(tok, current, scan) ==
            match NumberValue(tok.text, scan)
            case Some(v) => Outcome(true, v, tok.rest, [])
            case None => Outcome(false, current, tok.rest, [NumberError])
  {
    hide Number, AllDigits, Digit, Numeral, Decode, Sized;
    DecodeIs(tok.text);
  }
}
