/**
 * The encodings of mkjson.h: container types, value-type codes (each the
 * character code of a letter), the ignore codes (the negated value codes)
 * and the `mkjson_arg` record used by `mkjson_array`, together with the
 * renderings of one value that both builders share.
 */
module MkJsonTypes {
  import opened CStrings
  import opened JsonEscape

  // ---------------------------------------------------------------- container types

  const MKJSON_ARR: int := 0
  const MKJSON_OBJ: int := 1

  /** The bracket a container opens and closes with. */
  function OpenBracket(otype: int): char {
    if otype == MKJSON_OBJ then '{' else '['
  }

  function CloseBracket(otype: int): char {
    if otype == MKJSON_OBJ then '}' else ']'
  }

  // ---------------------------------------------------------------- value types

  const MKJSON_STRING: int := 115  // 's'
  const MKJSON_STRING_FREE: int := 102  // 'f'
  const MKJSON_JSON: int := 114  // 'r'
  const MKJSON_JSON_FREE: int := 106  // 'j'
  const MKJSON_INT: int := 105  // 'i'
  const MKJSON_LLINT: int := 73  // 'I'
  const MKJSON_DOUBLE: int := 100  // 'd'
  const MKJSON_LDOUBLE: int := 68  // 'D'
  const MKJSON_SCI_DOUBLE: int := 101  // 'e'
  const MKJSON_SCI_LDOUBLE: int := 69  // 'E'
  const MKJSON_BOOL: int := 98  // 'b'
  const MKJSON_NULL: int := 110  // 'n'

  /** Each value-type code is the character code of its letter. */
  lemma TypeCodesAreLetters()
    ensures MKJSON_STRING == 's' as int && MKJSON_STRING_FREE == 'f' as int
    ensures MKJSON_JSON == 'r' as int && MKJSON_JSON_FREE == 'j' as int
    ensures MKJSON_INT == 'i' as int && MKJSON_LLINT == 'I' as int
    ensures MKJSON_DOUBLE == 'd' as int && MKJSON_LDOUBLE == 'D' as int
    ensures MKJSON_SCI_DOUBLE == 'e' as int && MKJSON_SCI_LDOUBLE == 'E' as int
    ensures MKJSON_BOOL == 'b' as int && MKJSON_NULL == 'n' as int
  {
  }

  /** The twelve value-type codes, in the order of the enumeration. */
  const VALUE_TYPES: seq<int> := [
    MKJSON_STRING, MKJSON_STRING_FREE, MKJSON_JSON, MKJSON_JSON_FREE,
    MKJSON_INT, MKJSON_LLINT, MKJSON_DOUBLE, MKJSON_LDOUBLE,
    MKJSON_SCI_DOUBLE, MKJSON_SCI_LDOUBLE, MKJSON_BOOL, MKJSON_NULL]

  /** The value types that have an ignore code: all but the two SCI types. */
  const IGNORABLE_TYPES: seq<int> := [
    MKJSON_STRING, MKJSON_STRING_FREE, MKJSON_JSON, MKJSON_JSON_FREE,
    MKJSON_INT, MKJSON_LLINT, MKJSON_DOUBLE, MKJSON_LDOUBLE,
    MKJSON_BOOL, MKJSON_NULL]

  /** One of the codes an ignore code can negate: all but the SCI types. */
  predicate IsIgnorable(t: int) {
    t == MKJSON_STRING || t == MKJSON_STRING_FREE || t == MKJSON_JSON || t == MKJSON_JSON_FREE ||
    t == MKJSON_INT || t == MKJSON_LLINT || t == MKJSON_DOUBLE || t == MKJSON_LDOUBLE ||
    t == MKJSON_BOOL || t == MKJSON_NULL
  }

  predicate IsValueType(t: int) {
    IsIgnorable(t) || t == MKJSON_SCI_DOUBLE || t == MKJSON_SCI_LDOUBLE
  }

  /** `MKJSON_IGN_*`: the negation of an ignorable value type. */
  predicate IsIgnoreType(t: int) {
    IsIgnorable(-t)
  }

  /** The predicates enumerate exactly the two lists of the enumeration. */
  lemma TypeListsEnumerate(t: int)
    ensures IsValueType(t) <==> t in VALUE_TYPES
    ensures IsIgnoreType(t) <==> -t in IGNORABLE_TYPES
  {
  }

  predicate IsStringType(t: int) {
    t == MKJSON_STRING || t == MKJSON_STRING_FREE
  }

  predicate IsFloatType(t: int) {
    t == MKJSON_DOUBLE || t == MKJSON_LDOUBLE || t == MKJSON_SCI_DOUBLE || t == MKJSON_SCI_LDOUBLE
  }

  /** The value codes are pairwise distinct positive numbers. */
  lemma ValueTypesDistinctPositive()
    ensures forall i :: 0 <= i < |VALUE_TYPES| ==> VALUE_TYPES[i] > 0
    ensures forall i, j :: 0 <= i < j < |VALUE_TYPES| ==> VALUE_TYPES[i] != VALUE_TYPES[j]
  {
  }

  /** A type code is an ignore code only if it is negative, a value code only
      if it is positive, and 0 is neither, so it is free as the terminator of
      an `mkjson_arg` array and `type < 0` holds for every ignore code. */
  lemma TypeCodeSigns(t: int)
    ensures IsIgnoreType(t) ==> t < 0
    ensures IsValueType(t) ==> t > 0
    ensures !IsValueType(0) && !IsIgnoreType(0)
    ensures !(IsValueType(t) && IsIgnoreType(t))
  {
  }

  /** The ignore codes are exactly the negations of the value codes except
      those of the SCI types. */
  lemma IgnoreCodesAreNegations(t: int)
    ensures IsIgnoreType(-t) <==> IsValueType(t) && t != MKJSON_SCI_DOUBLE && t != MKJSON_SCI_LDOUBLE
  {
  }

  // ---------------------------------------------------------------- arguments

  /**
   * What a value argument carries: a possibly NULL `const char *`, an
   * integer (`int`, `long long int` or an `int` boolean), or the text that
   * `printf` makes of a floating-point value under the conversion of its
   * type (floating-point formatting is not modelled); `MKJSON_NULL` reads
   * nothing.
   */
  datatype Payload =
    | Text(str: Option<CString>)
    | Integer(n: int)
    | Formatted(printed: CString)
    | NoPayload

  /** One argument: its type code, its key (objects only) and its value.
      The same record stands for a `mkjson_arg` and for one group of the
      variadic arguments of `mkjson`. */
  datatype Arg = Arg(typ: int, key: Option<CString>, value: Payload)

  const INT_MIN: int := -0x8000_0000
  const INT_MAX: int := 0x7FFF_FFFF
  const LLONG_MIN: int := -0x8000_0000_0000_0000
  const LLONG_MAX: int := 0x7FFF_FFFF_FFFF_FFFF

  /** The payload has the C type the value type reads. */
  predicate Fits(t: int, p: Payload) {
    if IsStringType(t) || t == MKJSON_JSON || t == MKJSON_JSON_FREE then p.Text?
    else if t == MKJSON_INT || t == MKJSON_BOOL then p.Integer? && INT_MIN <= p.n <= INT_MAX
    else if t == MKJSON_LLINT then p.Integer? && LLONG_MIN <= p.n <= LLONG_MAX
    else if IsFloatType(t) then p.Formatted?
    else true
  }

  /** An argument whose value part, if its type is a value type, is of that type. */
  predicate WellTyped(a: Arg) {
    IsValueType(a.typ) ==> Fits(a.typ, a.value)
  }

  // ---------------------------------------------------------------- rendering

  /** A quoted, escaped string; for a NULL pointer the escaper gives "null",
      so this gives `"null"` with the quotes. */
  function Quoted(s: Option<CString>): (r: string)
    ensures |r| == |EscapeOpt(s)| + 2 && r[0] == '"' && r[|r| - 1] == '"'
  {
    "\"" + EscapeOpt(s) + "\""
  }

  /**
   * The text of a value of any type but the string types, as both builders
   * print it (`ScalarRendering` states what each type gives).
   */
  function Scalar(t: int, p: Payload): string
    requires IsValueType(t) && !IsStringType(t) && Fits(t, p)
  {
    if t == MKJSON_JSON || t == MKJSON_JSON_FREE then
      match p.str
      case None => "null"
      case Some(s) => s
    else if t == MKJSON_INT || t == MKJSON_LLINT then IntToDecimal(p.n)
    else if IsFloatType(t) then p.printed
    else if t == MKJSON_BOOL then (if p.n != 0 then "true" else "false")
    else "null"
  }

  /** Raw JSON is printed as it is (NULL as `null`), integers in decimal
      (the text reads back as the same number), booleans as `true`/`false`,
      floating-point values as printed, and MKJSON_NULL as `null`. */
  lemma ScalarRendering(t: int, p: Payload)
    requires IsValueType(t) && !IsStringType(t) && Fits(t, p)
    ensures var r := Scalar(t, p);
      (t == MKJSON_JSON || t == MKJSON_JSON_FREE ==> r == (if p.str.None? then "null" else p.str.value)) &&
      (t == MKJSON_INT || t == MKJSON_LLINT ==> IntValue(r) == Some(p.n)) &&
      (t == MKJSON_BOOL ==> (r == "true" <==> p.n != 0) && (r == "false" <==> p.n == 0)) &&
      (t == MKJSON_NULL ==> r == "null") &&
      (IsFloatType(t) ==> r == p.printed)
  {
    if t == MKJSON_INT || t == MKJSON_LLINT {
      IntRoundTrip(p.n);
    }
  }
}
