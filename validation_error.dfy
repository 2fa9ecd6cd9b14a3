/**
 * The error value of the validation engine: a field, a closed set of codes,
 * a human-readable message and a text-to-text metadata map.
 */
module Errors {
  import opened Wrappers

  /** The nine validation error codes. */
  datatype Code = Required | Min | Max | LengthMin | LengthMax | Between | Format | InSet | Custom

  /** Diagnostic context (bound, actual value, parse code, ...); iteration order is irrelevant. */
  type Meta = map<string, string>

  /** One validation failure; a value, freely copied. */
  datatype ValidationError = ValidationError(field: string, code: Code, message: string, meta: Meta)

  /** The three-argument constructor: no metadata. */
  function NewError(field: string, code: Code, message: string): (e: ValidationError)
    ensures e.field == field && e.code == code && e.message == message
    ensures e.meta == map[]
  {
    ValidationError(field, code, message, map[])
  }

  /** The four-argument constructor: exactly the given metadata. */
  function NewErrorWithMeta(field: string, code: Code, message: string, meta: Meta): (e: ValidationError)
    ensures e.field == field && e.code == code && e.message == message
    ensures e.meta == meta
  {
    ValidationError(field, code, message, meta)
  }

  /** The stable identifier of a code, for JSON payloads and logs. */
  function CodeName(code: Code): (name: string)
    ensures |name| > 0
    ensures forall i :: 0 <= i < |name| ==> 'a' <= name[i] <= 'z' || name[i] == '_'
    ensures name != "unknown"
  {
    match code
    case Required => "required"
    case Min => "min"
    case Max => "max"
    case LengthMin => "length_min"
    case LengthMax => "length_max"
    case Between => "between"
    case Format => "format"
    case InSet => "in_set"
    case Custom => "custom"
  }

  /** Reads an identifier back into its code; the reference inverse of CodeName. */
  function CodeOfName(name: string): (code: Option<Code>)
    ensures code.Some? ==> CodeName(code.value) == name
    ensures code.None? <==> forall c: Code :: CodeName(c) != name
  {
    if name == "required" then Some(Required)
    else if name == "min" then Some(Min)
    else if name == "max" then Some(Max)
    else if name == "length_min" then Some(LengthMin)
    else if name == "length_max" then Some(LengthMax)
    else if name == "between" then Some(Between)
    else if name == "format" then Some(Format)
    else if name == "in_set" then Some(InSet)
    else if name == "custom" then Some(Custom)
    else None
  }

  lemma CodeNameRoundTrip(code: Code)
    ensures CodeOfName(CodeName(code)) == Some(code)
  {
  }

  /** No two codes share an identifier. */
  lemma CodeNameInjective(a: Code, b: Code)
    ensures CodeName(a) == CodeName(b) <==> a == b
  {
    CodeNameRoundTrip(a);
    CodeNameRoundTrip(b);
  }

  /** The three-argument constructor is the four-argument one with an empty map. */
  lemma NewErrorHasNoMeta(field: string, code: Code, message: string)
    ensures NewError(field, code, message) == NewErrorWithMeta(field, code, message, map[])
  {
  }
}
