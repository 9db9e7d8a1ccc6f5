/**
 The meaning of scalars: what a plain scalar resolves to, and the style a string is given so
 that it is read back as a string. Number parsing itself belongs to the Go library and is a
 parameter here.
 */
module Resolve {
  import opened Options

  datatype Value =
    | VNull
    | VBool(b: bool)
    | VInt(n: int)
    | VFloat(x: real)
    | VString(s: string)
    | VList(items: seq<Value>)
    | VObject(members: map<string, Value>)

  datatype FloatText = NotFloat | NonFinite | Finite(x: real)

  /** Decimal, hexadecimal, octal and binary integers, and floats, as the library reads them. */
  datatype Numbers = Numbers(parseInt: string -> Option<int>, parseFloat: string -> FloatText)

  datatype ResolveError = NonFiniteFloat(text: string) | CannotDecode(text: string, tag: string)

  function Lower(c: char): char {
    if 'A' <= c <= 'Z' then (c as int - 'A' as int + 'a' as int) as char else c
  }

  /** Equal up to ASCII case, which is all that letters n, u, l, a, i, f fold to. */
  predicate EqualFold(s: string, lower: string) {
    |s| == |lower| && forall i :: 0 <= i < |s| ==> Lower(s[i]) == lower[i]
  }

  predicate NullScalar(s: string) {
    s == "" || s == "~" || EqualFold(s, "null")
  }

  function BoolScalar(s: string): Option<bool> {
    if s in {"y", "Y", "yes", "Yes", "YES", "true", "True", "TRUE", "on", "On", "ON"} then Some(true)
    else if s in {"n", "N", "no", "No", "NO", "false", "False", "FALSE", "off", "Off", "OFF"} then Some(false)
    else None
  }

  function CleanNumber(s: string): string {
    if s == "" then ""
    else if s[0] == '_' then CleanNumber(s[1..])
    else [s[0]] + CleanNumber(s[1..])
  }

  function IntScalar(s: string, nums: Numbers): Option<int> {
    var clean := CleanNumber(s);
    if clean == "" then None else (nums.parseInt)(clean)
  }

  predicate IsNonFinite(s: string) {
    EqualFold(s, ".nan") || EqualFold(s, ".inf") || EqualFold(s, "+.inf") || EqualFold(s, "-.inf")
  }

  predicate FloatLike(s: string) {
    exists i :: 0 <= i < |s| && s[i] in ".eE"
  }

  predicate IntegerScalar(s: string) {
    var start := if s != "" && (s[0] == '+' || s[0] == '-') then 1 else 0;
    start < |s| && forall i :: start <= i < |s| ==> s[i] == '_' || '0' <= s[i] <= '9'
  }

  function FloatScalar(s: string, allowInt: bool, nums: Numbers): Result<Option<real>, ResolveError> {
    if IsNonFinite(s) then Err(NonFiniteFloat(s))
    else if !allowInt && !FloatLike(s) then Ok(None)
    else
      var clean := CleanNumber(s);
      if clean == "" then Ok(None)
      else match (nums.parseFloat)(clean)
        case NotFloat => Ok(None)
        case NonFinite => Err(NonFiniteFloat(s))
        case Finite(x) => Ok(Some(x))
  }

  /** A float if the text is one, or the error, or nothing. */
  function TryFloat(s: string, allowInt: bool, nums: Numbers): Option<Result<Value, ResolveError>> {
    match FloatScalar(s, allowInt, nums)
    case Err(e) => Some(Err(e))
    case Ok(Some(x)) => Some(Ok(VFloat(x)))
    case Ok(None) => None
  }

  function ResolvePlain(s: string, nums: Numbers): Result<Value, ResolveError> {
    if NullScalar(s) then Ok(VNull)
    else if BoolScalar(s).Some? then Ok(VBool(BoolScalar(s).value))
    else if IntScalar(s, nums).Some? then Ok(VInt(IntScalar(s, nums).value))
    else
      var asInteger := if IntegerScalar(s) then TryFloat(s, true, nums) else None;
      if asInteger.Some? then asInteger.value
      else
        var asFloat := TryFloat(s, false, nums);
        if asFloat.Some? then asFloat.value else Ok(VString(s))
  }

  /** A JSON number is printed if it is an integer in range or a finite float. */
  predicate NumberAccepted(s: string, nums: Numbers) {
    (IntegerScalar(s) && (nums.parseInt)(s).Some?) || (nums.parseFloat)(s).Finite?
  }

  datatype Style = Plain | SingleQuoted | DoubleQuoted

  function StringStyle(s: string, nums: Numbers): Style {
    if s == "" then DoubleQuoted
    else
      match ResolvePlain(s, nums)
      case Ok(VString(_)) => Plain
      case _ => DoubleQuoted
  }

  /** What resolution leaves as a string is the text itself. */
  lemma PlainStringIsItself(s: string, nums: Numbers)
    ensures StringStyle(s, nums) == Plain <==> ResolvePlain(s, nums) == Ok(VString(s))
  {
  }

  const LONG_TAG_PREFIX := "tag:yaml.org,2002:"

  function ShortTag(tag: string): string {
    if LONG_TAG_PREFIX <= tag then "!!" + tag[|LONG_TAG_PREFIX|..] else tag
  }

  /** The value of a scalar event: its text, tag and whether it was plain without a tag. */
  function ScalarValue(text: string, tag: string, implicit: bool, nums: Numbers): Result<Value, ResolveError> {
    var short := ShortTag(tag);
    if !implicit && short == "" then Ok(VString(text))
    else if short == "!!str" then Ok(VString(text))
    else if short == "!!null" then Ok(VNull)
    else if short == "!!bool" then
      if BoolScalar(text).Some? then Ok(VBool(BoolScalar(text).value)) else Err(CannotDecode(text, short))
    else if short == "!!int" then
      if IntScalar(text, nums).Some? then Ok(VInt(IntScalar(text, nums).value)) else Err(CannotDecode(text, short))
    else if short == "!!float" then
      match FloatScalar(text, true, nums)
      case Err(e) => Err(e)
      case Ok(Some(x)) => Ok(VFloat(x))
      case Ok(None) => Err(CannotDecode(text, short))
    else if short == "" then ResolvePlain(text, nums)
    else Ok(VString(text))
  }
}
