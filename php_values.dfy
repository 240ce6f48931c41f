/**
 * PHP's mixed values as they appear in field defaults, dataset element values and
 * template arguments, with the conversions the code base applies to them.
 */
module PhpValues {
  import opened Wrappers
  import opened PhpStrings

  /**
   * A float carries its number and the text PHP prints for it; float formatting itself
   * is not modelled. A DateTime stands for any \DateTimeInterface instance.
   */
  datatype Value =
    | VNull
    | VBool(b: bool)
    | VInt(i: int)
    | VFloat(number: real, text: string)
    | VString(s: string)
    | VDateTime(iso: string)

  /** PHP's conversion to bool (`if ($v)`). */
  predicate Truthy(v: Value)
  {
    match v
    case VNull => false
    case VBool(b) => b
    case VInt(i) => i != 0
    case VFloat(x, _) => x != 0.0
    case VString(s) => !IsEmpty(s)
    case VDateTime(_) => true
  }

  /** `filter_var(s, FILTER_VALIDATE_BOOLEAN, FILTER_NULL_ON_FAILURE)` on a string. */
  function FilterBoolString(s: string): (r: Option<bool>)
    ensures r == Some(true) <==> Lower(Trim(s)) in {"1", "true", "on", "yes"}
    ensures r == Some(false) <==> Lower(Trim(s)) in {"0", "false", "off", "no", ""}
  {
    var t := Lower(Trim(s));
    if t in {"1", "true", "on", "yes"} then Some(true)
    else if t in {"0", "false", "off", "no", ""} then Some(false)
    else None
  }

  /** `filter_var(v, FILTER_VALIDATE_BOOLEAN, FILTER_NULL_ON_FAILURE)`; None is PHP's null. */
  function FilterBool(v: Value): Option<bool>
  {
    match v
    case VNull => Some(false)
    case VBool(b) => Some(b)
    case VInt(i) => FilterBoolString(IntToString(i))
    case VFloat(_, t) => FilterBoolString(t)
    case VString(s) => FilterBoolString(s)
    case VDateTime(_) => None
  }

  predicate IsDigit(c: char) { '0' <= c <= '9' }

  function DigitOf(c: char): nat
  {
    if IsDigit(c) then c as int - '0' as int else 0
  }

  /** The number a string of decimal digits denotes. */
  function DigitsValue(s: string): nat
  {
    if s == [] then 0 else DigitsValue(s[..|s| - 1]) * 10 + DigitOf(s[|s| - 1])
  }

  /** The longest prefix of digits. */
  function LeadingDigits(s: string): (r: string)
    ensures r <= s
    ensures forall i :: 0 <= i < |r| ==> IsDigit(r[i])
    ensures |r| == |s| || !IsDigit(s[|r|])
  {
    if s == [] || !IsDigit(s[0]) then [] else [s[0]] + LeadingDigits(s[1..])
  }

  const IntWhitespace: set<char> := {' ', '\t', '\n', '\r', '\U{000B}', '\U{000C}'}

  /**
   * `intval` of a string: leading whitespace, an optional sign, then the leading decimal
   * digits; anything else gives 0. Fraction and exponent forms are not modelled.
   */
  function StringIntVal(s: string): int
  {
    var t := LTrim(s, IntWhitespace);
    if t != [] && (t[0] == '-' || t[0] == '+') then
      var d: int := DigitsValue(LeadingDigits(t[1..]));
      if t[0] == '-' then -d else d
    else DigitsValue(LeadingDigits(t))
  }

  /** `intval(v)` for a value that is not a float. */
  function IntVal(v: Value): int
  {
    match v
    case VNull => 0
    case VBool(b) => if b then 1 else 0
    case VInt(i) => i
    case VFloat(x, _) => x.Floor
    case VString(s) => StringIntVal(s)
    case VDateTime(_) => 1
  }

  lemma {:induction false} NatDigitsRoundTrip(n: nat)
    ensures LeadingDigits(NatToString(n)) == NatToString(n)
    ensures DigitsValue(NatToString(n)) == n
    decreases n
  {
    var s := NatToString(n);
    assert LeadingDigits(s) == s by { LeadingDigitsOfDigits(s); }
    DigitOfDigitChar(n % 10);
    if n >= 10 {
      NatDigitsRoundTrip(n / 10);
      assert s[..|s| - 1] == NatToString(n / 10);
    } else {
      assert s[..|s| - 1] == [];
    }
  }

  lemma DigitOfDigitChar(d: int)
    requires 0 <= d <= 9
    ensures DigitOf(DigitChar(d)) == d
  {
    if d < 5 {
      assert d == 0 || d == 1 || d == 2 || d == 3 || d == 4;
    } else {
      assert d == 5 || d == 6 || d == 7 || d == 8 || d == 9;
    }
  }

  lemma {:induction false} LeadingDigitsOfDigits(s: string)
    requires forall i :: 0 <= i < |s| ==> IsDigit(s[i])
    ensures LeadingDigits(s) == s
  {
    if s != [] {
      LeadingDigitsOfDigits(s[1..]);
    }
  }

  /** intval reads back what PHP prints for an int: `intval((string) $i) === $i`. */
  lemma IntValOfIntString(i: int)
    ensures StringIntVal(IntToString(i)) == i
  {
    if i < 0 {
      var n: nat := -i;
      assert IntToString(i) == "-" + NatToString(n);
      NegativeIntVal(n);
    } else {
      var n: nat := i;
      assert IntToString(i) == NatToString(n);
      NatIntVal(n);
    }
  }

  lemma NatIntVal(n: nat)
    ensures StringIntVal(NatToString(n)) == n
  {
    var d := NatToString(n);
    NatDigitsRoundTrip(n);
    assert IsDigit(d[0]);
    LTrimUntouched(d, IntWhitespace);
  }

  lemma NegativeIntVal(n: nat)
    requires n > 0
    ensures StringIntVal("-" + NatToString(n)) == -(n as int)
  {
    var d := NatToString(n);
    var s := "-" + d;
    NatDigitsRoundTrip(n);
    LTrimUntouched(s, IntWhitespace);
    assert s[1..] == d;
  }

  lemma LTrimUntouched(s: string, chars: set<char>)
    requires s != [] && s[0] !in chars
    ensures LTrim(s, chars) == s
  { }

  const DateTimeToString := "Object of class DateTime could not be converted to string"

  /** `(string) $v`; converting a DateTime object to a string is a fatal error in PHP. */
  function StringOf(v: Value): (r: Result<string>)
    ensures r.Failure? <==> v.VDateTime?
  {
    match v
    case VNull => Success("")
    case VBool(b) => Success(if b then "1" else "")
    case VInt(i) => Success(IntToString(i))
    case VFloat(_, t) => Success(t)
    case VString(s) => Success(s)
    case VDateTime(_) => Failure(Error(Fatal, DateTimeToString))
  }

  /** An exponent part: `e` or `E`, an optional sign, then at least one digit and nothing else. */
  predicate IsExponent(s: string)
  {
    |s| >= 2 && (s[0] == 'e' || s[0] == 'E') &&
    var d := if s[1] == '+' || s[1] == '-' then s[2..] else s[1..];
    d != [] && LeadingDigits(d) == d
  }

  /**
   * `is_numeric` on a string, as PHP 7 decides it: leading whitespace, an optional sign,
   * digits with an optional fraction (at least one digit in all), an optional exponent,
   * and nothing after it.
   */
  predicate IsNumericString(s: string)
  {
    var t := LTrim(s, IntWhitespace);
    var u := if t != [] && (t[0] == '+' || t[0] == '-') then t[1..] else t;
    var whole := LeadingDigits(u);
    var rest := u[|whole|..];
    var dotted := rest != [] && rest[0] == '.';
    var fraction := if dotted then LeadingDigits(rest[1..]) else [];
    var after := if dotted then rest[1 + |fraction|..] else rest;
    (|whole| > 0 || |fraction| > 0) && (after == [] || IsExponent(after))
  }

  /** A string that starts with anything but a blank, a sign, a digit or a dot is not numeric. */
  lemma WordNotNumeric(s: string)
    requires s != [] && s[0] !in IntWhitespace && s[0] !in {'+', '-', '.'} && !IsDigit(s[0])
    ensures !IsNumericString(s)
  {
    assert LTrim(s, IntWhitespace) == s;
  }

  /** A run of digits is numeric. */
  lemma DigitsNumeric(s: string)
    requires s != [] && forall i :: 0 <= i < |s| ==> IsDigit(s[i])
    ensures IsNumericString(s)
  {
    assert LTrim(s, IntWhitespace) == s;
    LeadingDigitsOfDigits(s);
  }

  /** Unlike PHP 8, PHP 7 rejects a trailing blank. */
  lemma TrailingBlankNotNumeric(s: string)
    requires s != [] && forall i :: 0 <= i < |s| ==> IsDigit(s[i])
    ensures !IsNumericString(s + " ")
  {
    LTrimUntouched(s + " ", IntWhitespace);
    LeadingDigitsThenStop(s, " ");
    DigitsThenBlank(s + " ", s);
  }

  lemma DigitsThenBlank(t: string, s: string)
    requires t == s + " "
    requires LTrim(t, IntWhitespace) == t
    requires LeadingDigits(t) == s
    requires s != [] && IsDigit(s[0])
    ensures !IsNumericString(t)
  {
    assert t[0] == s[0];
    assert t[|s|..] == " ";
  }

  lemma {:induction false} LeadingDigitsThenStop(s: string, rest: string)
    requires forall i :: 0 <= i < |s| ==> IsDigit(s[i])
    requires rest != [] && !IsDigit(rest[0])
    ensures LeadingDigits(s + rest) == s
  {
    if s != [] {
      assert (s + rest)[1..] == s[1..] + rest;
      LeadingDigitsThenStop(s[1..], rest);
    }
  }

  /** An array key. PHP stores a string key that spells a canonical int as that int. */
  datatype ArrayKey = IntKey(i: int) | StrKey(s: string)

  const PhpIntMax: int := 0x7FFF_FFFF_FFFF_FFFF

  /** Decimal digits without a superfluous leading zero. */
  predicate IsCanonicalDigits(t: string)
  {
    |t| > 0 && (t[0] != '0' || |t| == 1) && forall i :: 0 <= i < |t| ==> IsDigit(t[i])
  }

  /** The key PHP uses for `$array[s]`. */
  function KeyOf(s: string): (k: ArrayKey)
    ensures k.StrKey? ==> k.s == s
    ensures k.IntKey? ==> -PhpIntMax - 1 <= k.i <= PhpIntMax
  {
    if |s| > 1 && s[0] == '-' && s[1] != '0' && IsCanonicalDigits(s[1..]) && DigitsValue(s[1..]) <= PhpIntMax + 1 then
      var d: int := DigitsValue(s[1..]); IntKey(-d)
    else if IsCanonicalDigits(s) && DigitsValue(s) <= PhpIntMax then
      IntKey(DigitsValue(s))
    else
      StrKey(s)
  }

  /**
   * The integer a string stands for where PHP 7 accepts only an integer numeric string (a
   * string offset): leading whitespace, an optional sign, then nothing but digits, leading
   * zeros allowed, and a value that fits in 64 bits. A trailing blank, a fraction, an
   * exponent or an overflow makes it no integer.
   */
  function IntegerString(s: string): (r: Option<int>)
    ensures r.Some? ==> -PhpIntMax - 1 <= r.value <= PhpIntMax
  {
    var t := LTrim(s, IntWhitespace);
    var u := if t != [] && (t[0] == '+' || t[0] == '-') then t[1..] else t;
    var d: int := DigitsValue(u);
    var v := if t != [] && t[0] == '-' then -d else d;
    if u != [] && LeadingDigits(u) == u && -PhpIntMax - 1 <= v <= PhpIntMax then Some(v) else None
  }

  /** An integer string is numeric, and intval reads the same integer from it. */
  lemma IntegerStringIsNumeric(s: string)
    requires IntegerString(s).Some?
    ensures IsNumericString(s)
    ensures StringIntVal(s) == IntegerString(s).value
  {
  }

  /** Every string PHP stores as an integer array key is an integer string of the same value. */
  lemma IntKeyIsIntegerString(s: string)
    requires KeyOf(s).IntKey?
    ensures IntegerString(s) == Some(KeyOf(s).i)
  {
    LTrimUntouched(s, IntWhitespace);
    if s[0] == '-' {
      LeadingDigitsOfDigits(s[1..]);
    } else {
      LeadingDigitsOfDigits(s);
    }
  }

  /** Leading zeros are accepted, although the array key "01" stays a string. */
  lemma LeadingZeroIsInteger()
    ensures IntegerString("01") == Some(1)
    ensures KeyOf("01") == StrKey("01")
  {
    LTrimUntouched("01", IntWhitespace);
    LeadingDigitsOfDigits("01");
    assert "01"[..1] == "0" && "0"[..0] == [];
    assert DigitsValue("01") == 1;
    assert !IsCanonicalDigits("01");
  }

  /** Leading blanks and a sign are accepted. */
  lemma LeadingBlankIsInteger()
    ensures IntegerString(" -2") == Some(-2)
  {
    assert " -2"[1..] == "-2";
    LTrimUntouched("-2", IntWhitespace);
    assert LTrim(" -2", IntWhitespace) == "-2";
    LeadingDigitsOfDigits("2");
    assert "2"[..0] == [];
  }

  /** Unlike PHP 8, PHP 7 refuses a trailing blank. */
  lemma TrailingBlankIsNoInteger()
    ensures IntegerString("1 ") == None
  {
    LTrimUntouched("1 ", IntWhitespace);
    assert !IsDigit(' ');
  }

  /** The key as `array_keys` and `implode` then print it. */
  function KeyName(k: ArrayKey): string
  {
    match k
    case IntKey(i) => IntToString(i)
    case StrKey(s) => s
  }

  lemma {:induction false} CanonicalDigitsRoundTrip(t: string)
    requires IsCanonicalDigits(t)
    ensures NatToString(DigitsValue(t)) == t
    decreases |t|
  {
    var last := t[|t| - 1];
    var init := t[..|t| - 1];
    assert DigitChar(DigitOf(last)) == last;
    if init != [] {
      assert IsCanonicalDigits(init) by {
        assert forall i :: 0 <= i < |init| ==> init[i] == t[i];
      }
      CanonicalDigitsRoundTrip(init);
      assert init[0] == t[0];
      LeadingDigitPositive(init);
      var n := DigitsValue(t);
      assert n == DigitsValue(init) * 10 + DigitOf(last);
      assert n / 10 == DigitsValue(init) && n % 10 == DigitOf(last);
      assert t == init + [last];
    } else {
      assert t == [last];
    }
  }

  lemma {:induction false} LeadingDigitPositive(t: string)
    requires |t| > 0 && t[0] != '0' && forall i :: 0 <= i < |t| ==> IsDigit(t[i])
    ensures DigitsValue(t) >= 1
    decreases |t|
  {
    if |t| > 1 {
      var init := t[..|t| - 1];
      assert init[0] == t[0];
      LeadingDigitPositive(init);
    }
  }

  /** Normalising a key loses nothing: the key prints back as the string it came from. */
  lemma KeyNameOfKey(s: string)
    ensures KeyName(KeyOf(s)) == s
  {
    if |s| > 1 && s[0] == '-' && s[1] != '0' && IsCanonicalDigits(s[1..]) && DigitsValue(s[1..]) <= PhpIntMax + 1 {
      var d: int := DigitsValue(s[1..]);
      assert KeyOf(s) == IntKey(-d);
      CanonicalDigitsRoundTrip(s[1..]);
      LeadingDigitPositive(s[1..]);
      hide *;
      assert KeyName(IntKey(-d)) == "-" + NatToString(d);
      assert s == "-" + s[1..];
    } else if IsCanonicalDigits(s) && DigitsValue(s) <= PhpIntMax {
      assert KeyOf(s) == IntKey(DigitsValue(s));
      CanonicalDigitsRoundTrip(s);
      hide *;
      assert KeyName(IntKey(DigitsValue(s))) == NatToString(DigitsValue(s));
    }
  }
}
