/**
 * Validation of a value that arrives as text: parse it with the external
 * conversion, turn a parse failure into one Format error, and otherwise
 * run the typed rules on the parsed value.
 */
module Pipe {
  import opened Wrappers
  import opened Errors
  import opened ErrorList
  import opened Outcomes
  import opened RuleEngine
  import opened Text
  import Rules

  /**
   * The conversion's failure report. `code` is the identifier the conversion
   * library gives its error code; `position` is where parsing stopped.
   */
  datatype ConversionError = ConversionError(code: string, input: string, position: nat)

  /** The external conversion `parse<T>`, supplied by the caller. */
  type Parser<T> = string -> Result<T, ConversionError>

  /** A parse failure as a semantic Format error; parser details go only into `meta`. */
  function ConversionErrorToValidation(field: string, err: ConversionError, message: string := "invalid value")
    : (e: ValidationError)
    ensures e.field == field && e.code == Code.Format && e.message == message
    ensures "conversion_code" in e.meta && e.meta["conversion_code"] == err.code
    ensures "position" in e.meta && e.meta["position"] == NatToString(err.position)
    ensures "input" in e.meta <==> err.input != ""
    ensures "input" in e.meta ==> e.meta["input"] == err.input
    ensures e.meta.Keys <= {"conversion_code", "position", "input"}
  {
    var ve := NewError(field, Code.Format, message);
    var m := ve.meta["conversion_code" := err.code];
    var m := if |err.input| != 0 then m["input" := err.input] else m;
    var m := m["position" := NatToString(err.position)];
    ve.(meta := m)
  }

  /** What `result(parseMessage)` reports for a given input, parser and rule list. */
  function ParsedErrors<T>(field: string, input: string, parse: Parser<T>, rules: seq<Rule<T>>, parseMessage: string)
    : seq<ValidationError>
  {
    match parse(input)
    case Err(err) => [ConversionErrorToValidation(field, err, parseMessage)]
    case Ok(v) => Collected(field, v, rules)
  }

  class ParsedValidator<T> {
    const field: string
    const input: string
    const parse: Parser<T>
    var rules: seq<Rule<T>>

    constructor(field: string, input: string, parse: Parser<T>)
      ensures this.field == field && this.input == input && this.parse == parse && rules == []
    {
      this.field := field;
      this.input := input;
      this.parse := parse;
      rules := [];
    }

    /** `rule(r)`: registers `r`, to run only if parsing succeeds. */
    method AddRule(r: Rule<T>) returns (self: ParsedValidator<T>)
      modifies this
      ensures self == this
      ensures rules == old(rules) + [r]
    {
      rules := rules + [r];
      self := this;
    }

    /** `result(parseMessage)`: one Format error if parsing fails, else the rules on the parsed value. */
    method Result(parseMessage: string := "invalid value") returns (res: ValidationResult)
      ensures res.errors == ParsedErrors(field, input, parse, rules, parseMessage)
    {
      var out := new ValidationErrors();
      var parsed := parse(input);
      if parsed.Err? {
        out.Add(ConversionErrorToValidation(field, parsed.error, parseMessage));
        return ValidationResult(out.All());
      }
      var value := parsed.value;
      for i := 0 to |rules|
        invariant out.items == Collected(field, value, rules[..i])
      {
        assert rules[..i + 1][..i] == rules[..i];
        if rules[i].Some? {
          out.Merge(rules[i].value(field, value));
        }
      }
      assert rules[..|rules|] == rules;
      res := ValidationResult(out.All());
    }
  }

  /** The `validate_parsed<T>(field, input)` factory. */
  method ValidateParsed<T>(field: string, input: string, parse: Parser<T>) returns (p: ParsedValidator<T>)
    ensures fresh(p)
    ensures p.field == field && p.input == input && p.parse == parse && p.rules == []
  {
    p := new ParsedValidator(field, input, parse);
  }

  method Min(p: ParsedValidator<int>, v: int, message: string := "value is below minimum") returns (self: ParsedValidator<int>)
    modifies p
    ensures self == p && p.rules == old(p.rules) + [Rules.Min(v, message)]
  {
    self := p.AddRule(Rules.Min(v, message));
  }

  method Max(p: ParsedValidator<int>, v: int, message: string := "value is above maximum") returns (self: ParsedValidator<int>)
    modifies p
    ensures self == p && p.rules == old(p.rules) + [Rules.Max(v, message)]
  {
    self := p.AddRule(Rules.Max(v, message));
  }

  method Between(p: ParsedValidator<int>, a: int, b: int, message: string := "value is out of range")
    returns (self: ParsedValidator<int>)
    modifies p
    ensures self == p && p.rules == old(p.rules) + [Rules.Between(a, b, message)]
  {
    self := p.AddRule(Rules.Between(a, b, message));
  }

  // ------------------------------------------------------------
  // properties
  // ------------------------------------------------------------

  /** A parse failure gives exactly one Format error, whatever rules are registered. */
  lemma ParseFailureSkipsRules<T>(field: string, input: string, parse: Parser<T>,
                                  rules: seq<Rule<T>>, others: seq<Rule<T>>, parseMessage: string)
    requires parse(input).Err?
    ensures |ParsedErrors(field, input, parse, rules, parseMessage)| == 1
    ensures ParsedErrors(field, input, parse, rules, parseMessage)[0].code == Code.Format
    ensures ParsedErrors(field, input, parse, rules, parseMessage)[0].field == field
    ensures ParsedErrors(field, input, parse, rules, parseMessage) == ParsedErrors(field, input, parse, others, parseMessage)
  {
  }

  /** A successful parse applies the set rules, in order, to the parsed value. */
  lemma ParseSuccessAppliesRules<T>(field: string, input: string, parse: Parser<T>,
                                    rules: seq<Rule<T>>, parseMessage: string, v: T)
    requires parse(input) == Ok(v)
    ensures ParsedErrors(field, input, parse, rules, parseMessage) == Collected(field, v, rules)
  {
  }

  /** With the parser yielding 10, `between(18, 120, "age out of range")` reports one Between error. */
  method OutOfRange(parse: Parser<int>) returns (res: ValidationResult)
    requires parse("10") == Ok(10)
    ensures res.errors == [ValidationError("age", Code.Between, "age out of range",
                                           map["min" := "18", "max" := "120", "got" := "10"])]
  {
    var p := ValidateParsed("age", "10", parse);
    p := Between(p, 18, 120, "age out of range");
    res := p.Result();
    assert IntToString(18) == "18" && IntToString(120) == "120" && IntToString(10) == "10";
    CollectedSnoc("age", 10, [], Rules.Between(18, 120, "age out of range"));
  }

  /** With the parser yielding 25, `between(18, 120)` is ok. */
  method InRange(parse: Parser<int>) returns (res: ValidationResult)
    requires parse("25") == Ok(25)
    ensures res.Ok() && |res.errors| == 0
  {
    var p := ValidateParsed("age", "25", parse);
    p := Between(p, 18, 120);
    res := p.Result("age must be a number");
    CollectedSnoc("age", 25, [], Rules.Between(18, 120));
  }

  /** With the parser failing on "abc", one Format error on "age" carrying the parser's code and position. */
  method NotANumber(parse: Parser<int>, err: ConversionError) returns (res: ValidationResult)
    requires parse("abc") == Err(err)
    ensures res.errors == [ConversionErrorToValidation("age", err, "age must be a number")]
    ensures |res.errors| == 1 && !res.Ok()
    ensures res.errors[0].field == "age" && res.errors[0].code == Code.Format
    ensures "conversion_code" in res.errors[0].meta && "position" in res.errors[0].meta
  {
    var p := ValidateParsed("age", "abc", parse);
    p := Between(p, 18, 120);
    res := p.Result("age must be a number");
  }

}
