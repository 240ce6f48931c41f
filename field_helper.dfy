/**
 * The field type names (src/Helper/FieldType.php) and the FieldHelper predicates that
 * classify a field by its type, its flags and its name. A predicate reads only the
 * field's own attributes, so it is stated over `FieldAttrs`, the value of a Field's
 * scalar attributes at the time of the call.
 */
module FieldHelper {
  import opened Wrappers
  import opened PhpStrings
  import opened PhpValues

  const UUID := "uuid"
  const STRING := "string"
  const TEXT := "text"
  const EMAIL := "email"
  const URL := "url"
  const PASSWORD := "password"
  const PHONE := "phone"
  const DATE := "date"
  const TIME := "time"
  const DATETIME := "datetime"
  const BOOL := "bool"
  const BOOLEAN := "boolean"
  const INT := "int"
  const INTEGER := "integer"
  const ID := "id"
  const LONG := "long"
  const FLOAT := "float"
  const DOUBLE := "double"
  const DECIMAL := "decimal"
  const PRICE := "price"
  const RANDOM_STRING := "randomstring"

  /** The FieldType constants, compared exactly. */
  const NativeTypes: set<string> := {UUID, STRING, TEXT, EMAIL, URL, PASSWORD, PHONE, DATE, TIME,
    DATETIME, BOOL, BOOLEAN, INT, INTEGER, ID, LONG, FLOAT, DOUBLE, DECIMAL, PRICE, RANDOM_STRING}

  /** A Field's scalar attributes; `identifier` is the flag BusinessModel reads and sets. */
  datatype FieldAttrs = FieldAttrs(
    name: string,
    fieldType: string,
    description: string,
    mandatory: bool,
    default: Option<string>,
    example: Option<string>,
    searchable: bool,
    managed: bool,
    list: bool,
    generated: bool,
    identifier: bool)

  // `0 === strcasecmp(type, C)` for a lower-case constant C is `strtolower(type) === C`.

  predicate IsUuid(f: FieldAttrs) { Lower(f.fieldType) == UUID }

  predicate IsString(f: FieldAttrs)
  {
    Lower(f.fieldType) in {STRING, TEXT, UUID, EMAIL, URL, PASSWORD, PHONE, RANDOM_STRING}
  }

  predicate IsDate(f: FieldAttrs) { Lower(f.fieldType) == DATE }

  predicate IsTime(f: FieldAttrs) { Lower(f.fieldType) == TIME }

  predicate IsDateTime(f: FieldAttrs) { Lower(f.fieldType) == DATETIME }

  predicate IsBoolean(f: FieldAttrs) { Lower(f.fieldType) == BOOL || Lower(f.fieldType) == BOOLEAN }

  /** Not implemented in the source: no field is binary. */
  predicate IsBinary(f: FieldAttrs) { false }

  predicate IsInteger(f: FieldAttrs) { Lower(f.fieldType) == INT || Lower(f.fieldType) == INTEGER }

  predicate IsLong(f: FieldAttrs) { Lower(f.fieldType) == LONG || Lower(f.fieldType) == ID }

  predicate IsFloat(f: FieldAttrs) { Lower(f.fieldType) == FLOAT }

  predicate IsPrice(f: FieldAttrs) { Lower(f.fieldType) == PRICE }

  predicate IsDouble(f: FieldAttrs) { Lower(f.fieldType) == DOUBLE || Lower(f.fieldType) == DECIMAL }

  predicate IsAutoIncrement(f: FieldAttrs) { Lower(f.fieldType) == ID }

  /** `isBusinessModel(field, bundle)`: the bundle has a model keyed by the field's type. */
  predicate IsBusinessModel(f: FieldAttrs, modelNames: seq<string>) { f.fieldType in modelNames }

  /** `isDataset(field, bundle)`: the bundle has a dataset keyed by the field's type. */
  predicate IsDataset(f: FieldAttrs, datasetNames: seq<string>) { f.fieldType in datasetNames }

  predicate IsBusinessModelCreatedTimestamp(f: FieldAttrs)
  {
    IsDateTime(f) && f.managed && "created" <= Lower(f.name)
  }

  predicate IsBusinessModelUpdatedTimestamp(f: FieldAttrs)
  {
    IsDateTime(f) && f.managed && "updated" <= Lower(f.name)
  }

  /** Exact, case-sensitive match, unlike the predicates above. */
  predicate IsAsciiString(f: FieldAttrs) { f.fieldType in {UUID, EMAIL, URL, PHONE} }

  /** Exact, case-sensitive match against the 21 FieldType constants. */
  predicate IsNativeType(f: FieldAttrs) { f.fieldType in NativeTypes }

  /** The type families FieldHelper distinguishes, as one independent classification. */
  datatype TypeClass = StringClass | DateClass | TimeClass | DateTimeClass | BooleanClass
    | IntegerClass | LongClass | FloatClass | DoubleClass | PriceClass | OtherClass

  function ClassOf(t: string): TypeClass
  {
    ClassOfLower(Lower(t))
  }

  function ClassOfLower(l: string): TypeClass
  {
    if l in {STRING, TEXT, UUID, EMAIL, URL, PASSWORD, PHONE, RANDOM_STRING} then StringClass
    else if l == DATE then DateClass
    else if l == TIME then TimeClass
    else if l == DATETIME then DateTimeClass
    else if l == BOOL || l == BOOLEAN then BooleanClass
    else if l == INT || l == INTEGER then IntegerClass
    else if l == LONG || l == ID then LongClass
    else if l == FLOAT then FloatClass
    else if l == DOUBLE || l == DECIMAL then DoubleClass
    else if l == PRICE then PriceClass
    else OtherClass
  }

  /** The string family and the numeric families are told apart by ClassOf. */
  lemma StringPredicateMatchesClass(f: FieldAttrs)
    ensures IsString(f) <==> ClassOf(f.fieldType) == StringClass
  {
  }

  lemma TemporalPredicatesMatchClasses(f: FieldAttrs)
    ensures IsDate(f) <==> ClassOf(f.fieldType) == DateClass
    ensures IsTime(f) <==> ClassOf(f.fieldType) == TimeClass
    ensures IsDateTime(f) <==> ClassOf(f.fieldType) == DateTimeClass
    ensures IsBoolean(f) <==> ClassOf(f.fieldType) == BooleanClass
  {
  }

  lemma NumericPredicatesMatchClasses(f: FieldAttrs)
    ensures IsInteger(f) <==> ClassOf(f.fieldType) == IntegerClass
    ensures IsLong(f) <==> ClassOf(f.fieldType) == LongClass
    ensures IsFloat(f) <==> ClassOf(f.fieldType) == FloatClass
    ensures IsDouble(f) <==> ClassOf(f.fieldType) == DoubleClass
    ensures IsPrice(f) <==> ClassOf(f.fieldType) == PriceClass
  {
  }

  /** Every FieldType constant names one of the families. */
  lemma NativeTypesClassified(t: string)
    requires t in NativeTypes
    ensures ClassOf(t) != OtherClass
  {
    NativeTypesAreLowerCase(t);
    NativeLowerClassified(t);
    hide Lower, ClassOfLower;
  }

  lemma NativeTypesAreLowerCase(t: string)
    requires t in NativeTypes
    ensures Lower(t) == t
  {
    hide Lower;
    if t in {UUID, STRING, TEXT, EMAIL, URL, PASSWORD} {
      LowerCaseGroup(t, {UUID, STRING, TEXT, EMAIL, URL, PASSWORD});
    } else if t in {PHONE, DATE, TIME, DATETIME, BOOL, BOOLEAN} {
      LowerCaseGroup(t, {PHONE, DATE, TIME, DATETIME, BOOL, BOOLEAN});
    } else if t in {INT, INTEGER, ID, LONG, FLOAT} {
      LowerCaseGroup(t, {INT, INTEGER, ID, LONG, FLOAT});
    } else {
      LowerCaseGroup(t, {DOUBLE, DECIMAL, PRICE, RANDOM_STRING});
    }
  }

  lemma LowerCaseGroup(t: string, group: set<string>)
    requires t in group && group <= NativeTypes
    ensures Lower(t) == t
  {
    hide Lower;
    LowerOfLowerCase(t);
  }

  lemma NativeLowerClassified(t: string)
    requires t in NativeTypes
    ensures ClassOfLower(t) != OtherClass
  {
  }

  /** The case-insensitive predicates give the same answer for types that differ only in case. */
  lemma CaseInsensitiveClassification(f: FieldAttrs, g: FieldAttrs)
    requires Lower(f.fieldType) == Lower(g.fieldType)
    ensures ClassOf(f.fieldType) == ClassOf(g.fieldType) && IsAutoIncrement(f) == IsAutoIncrement(g)
    ensures IsUuid(f) == IsUuid(g)
  {
    assert ClassOf(f.fieldType) == ClassOfLower(Lower(g.fieldType));
  }

  /** The exact-match predicates do not: 'UUID' is a uuid but neither native nor ASCII. */
  lemma ExactMatchPredicatesAreCaseSensitive(f: FieldAttrs)
    requires f.fieldType == "UUID"
    ensures IsUuid(f) && IsString(f)
    ensures !IsNativeType(f) && !IsAsciiString(f)
  {
    assert Lower("UUID") == UUID;
  }

  /** Every ASCII string type is a native string type. */
  lemma AsciiStringsAreNativeStrings(f: FieldAttrs)
    requires IsAsciiString(f)
    ensures IsNativeType(f) && IsString(f)
  {
    assert Lower(UUID) == UUID && Lower(EMAIL) == EMAIL && Lower(URL) == URL && Lower(PHONE) == PHONE;
  }

  /** A field cannot be both the creation and the update timestamp. */
  lemma {:induction false} TimestampsExclusive(f: FieldAttrs)
    ensures !(IsBusinessModelCreatedTimestamp(f) && IsBusinessModelUpdatedTimestamp(f))
  {
    var l := Lower(f.name);
    if "created" <= l {
      assert l[0] == 'c';
    }
    if "updated" <= l {
      assert l[0] == 'u';
    }
  }

  /** Timestamp detection ignores the case of the name. */
  lemma CreatedTimestampExample(f: FieldAttrs)
    requires f.fieldType == "DateTime" && f.managed && f.name == "CreatedAt"
    ensures IsBusinessModelCreatedTimestamp(f)
  {
    CreatedAtLower();
    DateTimeLower();
    CreatedPrefix();
    hide Lower;
  }

  lemma CreatedAtLower()
    ensures Lower("CreatedAt") == "createdat"
  {
    assert LowerChar('C') == 'c' && LowerChar('A') == 'a';
    LowerLiteral("CreatedAt", "createdat");
  }

  lemma DateTimeLower()
    ensures Lower("DateTime") == DATETIME
  {
    assert LowerChar('D') == 'd' && LowerChar('T') == 't';
    LowerLiteral("DateTime", DATETIME);
  }

  lemma CreatedPrefix()
    ensures "created" <= "createdat"
  {
  }

  lemma LowerLiteral(s: string, l: string)
    requires |s| == |l| && forall i :: 0 <= i < |s| ==> LowerChar(s[i]) == l[i]
    ensures Lower(s) == l
  {
  }

  // ---- value compatibility (isValidTypeValue) ----

  predicate IsHexDigit(c: char)
  {
    ('0' <= c <= '9') || ('a' <= c <= 'f') || ('A' <= c <= 'F')
  }

  /** The 36 characters the UUID pattern requires, matched case-insensitively. */
  predicate UuidBody(s: string)
  {
    |s| == 36
    && (forall i :: 0 <= i < 36 && i != 8 && i != 13 && i != 18 && i != 23 ==> IsHexDigit(s[i]))
    && s[8] == '-' && s[13] == '-' && s[18] == '-' && s[23] == '-'
    && s[14] == '4'
    && s[19] in "89abAB"
  }

  /**
   * `preg_match(UUID_REGEX, s)`: anchored at both ends; PCRE's `$` also matches before a
   * final newline.
   */
  predicate MatchesUuid(s: string)
  {
    UuidBody(s) || (|s| == 37 && s[36] == '\n' && UuidBody(s[..36]))
  }

  predicate AllDigits(s: string)
  {
    forall i :: 0 <= i < |s| ==> IsDigit(s[i])
  }

  /** `\d{1,14}$`: one to fourteen digits reaching the end, or a final newline. */
  predicate PhoneTail(t: string)
  {
    (1 <= |t| <= 14 && AllDigits(t))
    || (2 <= |t| <= 15 && t[|t| - 1] == '\n' && AllDigits(t[..|t| - 1]))
  }

  /**
   * `preg_match(PHONE_REGEX, s)`: the pattern has no start anchor, so the '+' may come
   * anywhere, as long as a digit 1-9 and then 1 to 14 digits run to the end.
   */
  predicate MatchesPhone(s: string)
  {
    exists i :: 0 <= i < |s| - 2 && s[i] == '+' && '1' <= s[i + 1] <= '9' && PhoneTail(s[i + 2..])
  }

  /** The checks the source delegates to PHP's filters, the DateTime parser and the price helper. */
  datatype ForeignChecks = ForeignChecks(
    validEmail: Value -> bool,      // filter_var(v, FILTER_VALIDATE_EMAIL) !== false
    validUrl: Value -> bool,        // filter_var(v, FILTER_VALIDATE_URL) !== false
    parsesAsDate: string -> bool,   // new \DateTime(s) does not throw
    isNumeric: Value -> bool,       // is_numeric(v)
    validPrice: Value -> bool)      // PriceHelper::isValidPrice(v)

  /** `isValidTypeValue(type, value)`; the switch compares the type exactly. */
  predicate IsValidTypeValue(t: string, v: Value, foreign: ForeignChecks)
  {
    if t == UUID then v.VString? && MatchesUuid(v.s)
    else if t in {STRING, TEXT, PASSWORD, RANDOM_STRING} then v.VString?
    else if t == EMAIL then foreign.validEmail(v)
    else if t == URL then foreign.validUrl(v)
    else if t == PHONE then v.VString? && MatchesPhone(v.s)
    else if t in {DATE, TIME, DATETIME} then v.VDateTime? || (v.VString? && foreign.parsesAsDate(v.s))
    else if t in {BOOL, BOOLEAN} then FilterBool(v).Some?
    else if t in {INT, INTEGER, ID, LONG} then v.VInt? || (!v.VFloat? && IntVal(v) != 0)
    else if t in {FLOAT, DOUBLE, DECIMAL} then foreign.isNumeric(v)
    else if t == PRICE then foreign.isNumeric(v) || foreign.validPrice(v)
    else false
  }

  /** `isValueCompatible(field, value)`. */
  predicate IsValueCompatible(f: FieldAttrs, v: Value, foreign: ForeignChecks)
  {
    IsValidTypeValue(f.fieldType, v, foreign)
  }

  /** Only the native type names accept any value; anything else is never compatible. */
  lemma UnknownTypesNeverCompatible(t: string, v: Value, foreign: ForeignChecks)
    requires t !in NativeTypes
    ensures !IsValidTypeValue(t, v, foreign)
  {
  }

  /** String types accept exactly the PHP strings. */
  lemma StringTypesAcceptOnlyStrings(t: string, v: Value, foreign: ForeignChecks)
    requires t in {STRING, TEXT, PASSWORD, RANDOM_STRING}
    ensures IsValidTypeValue(t, v, foreign) <==> v.VString?
  {
  }

  /** Integer types accept every int, null never, and a string iff its intval is non-zero. */
  lemma IntegerTypesAcceptance(t: string, foreign: ForeignChecks)
    requires t in {INT, INTEGER, ID, LONG}
    ensures forall i :: IsValidTypeValue(t, VInt(i), foreign)
    ensures !IsValidTypeValue(t, VNull, foreign)
    ensures forall s :: IsValidTypeValue(t, VString(s), foreign) <==> StringIntVal(s) != 0
    ensures forall x, txt :: !IsValidTypeValue(t, VFloat(x, txt), foreign)
  {
    assert t !in {UUID, STRING, TEXT, PASSWORD, RANDOM_STRING, EMAIL, URL, PHONE, DATE, TIME, DATETIME, BOOL, BOOLEAN};
  }

  /** A well-formed version-4 UUID in either case is accepted; version 1 is not. */
  lemma UuidExamples(foreign: ForeignChecks)
    ensures IsValidTypeValue(UUID, VString("a0eebc99-9c0b-4ef8-bb6d-6bb9bd380a11"), foreign)
    ensures IsValidTypeValue(UUID, VString("A0EEBC99-9C0B-4EF8-BB6D-6BB9BD380A11"), foreign)
    ensures !IsValidTypeValue(UUID, VString("a0eebc99-9c0b-1ef8-bb6d-6bb9bd380a11"), foreign)
  {
    UuidLowerCase();
    UuidUpperCase();
    UuidVersionOne();
    hide UuidBody;
  }

  lemma UuidLowerCase()
    ensures UuidBody("a0eebc99-9c0b-4ef8-bb6d-6bb9bd380a11")
  {
  }

  lemma UuidUpperCase()
    ensures UuidBody("A0EEBC99-9C0B-4EF8-BB6D-6BB9BD380A11")
  {
  }

  lemma UuidVersionOne()
    ensures !MatchesUuid("a0eebc99-9c0b-1ef8-bb6d-6bb9bd380a11")
  {
    var w := "a0eebc99-9c0b-1ef8-bb6d-6bb9bd380a11";
    assert w[14] != '4';
  }

  /** E.164 numbers are accepted; a number without '+' or starting with 0 is not. */
  lemma PhoneExamples(foreign: ForeignChecks)
    ensures IsValidTypeValue(PHONE, VString("+15145551234"), foreign)
    ensures !IsValidTypeValue(PHONE, VString("5145551234"), foreign)
    ensures !IsValidTypeValue(PHONE, VString("+05145551234"), foreign)
  {
    var s := "+15145551234";
    assert s[0] == '+' && '1' <= s[1] <= '9' && PhoneTail(s[2..]);
    var t := "5145551234";
    assert forall i :: 0 <= i < |t| ==> t[i] != '+';
    var z := "+05145551234";
    assert forall i :: 0 <= i < |z| && z[i] == '+' ==> i == 0;
  }

  /** Without a start anchor, text before the '+' is accepted too. */
  lemma PhoneUnanchoredStart(foreign: ForeignChecks)
    ensures IsValidTypeValue(PHONE, VString("tel:+15145551234"), foreign)
  {
    var s := "tel:+15145551234";
    assert s[4] == '+' && '1' <= s[5] <= '9' && PhoneTail(s[6..]);
  }

  lemma TrimYes()
    ensures Trim(" Yes ") == "Yes"
  {
    assert ' ' in Whitespace && 's' !in Whitespace && 'Y' !in Whitespace;
    assert " Yes "[..4] == " Yes";
    assert RTrim(" Yes", Whitespace) == " Yes";
    assert RTrim(" Yes ", Whitespace) == " Yes";
    assert " Yes"[1..] == "Yes";
    assert LTrim("Yes", Whitespace) == "Yes";
    assert LTrim(" Yes", Whitespace) == "Yes";
  }

  /** Booleans accept true/false and the words of filter_var, trimmed and in any case. */
  lemma BooleanWordExamples(foreign: ForeignChecks)
    ensures IsValidTypeValue(BOOL, VBool(false), foreign)
    ensures IsValidTypeValue(BOOLEAN, VString(" Yes "), foreign)
  {
    TrimYes();
    LowerLiteral("Yes", "yes");
    assert FilterBoolString(" Yes ") == Some(true);
  }
}
