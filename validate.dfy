/**
 * The fluent single-value validator: rules are registered first and run
 * only when `Result` is asked for.
 */
module Validate {
  import opened Wrappers
  import opened Errors
  import opened Outcomes
  import opened RuleEngine
  import Rules
  import Text

  /**
   * What a Validator holds, as a value: the field name, the value and the
   * registered rules. A builder handed to a schema returns one of these.
   */
  datatype ValidatorState<!T> = ValidatorState(field: string, value: T, rules: seq<Rule<T>>) {
    /** What `result()` gives for this state. */
    function Result(): ValidationResult {
      ValidationResult(Collected(field, value, rules))
    }
  }

  class Validator<T> {
    const field: string
    const value: T
    var rules: seq<Rule<T>>

    constructor(field: string, value: T)
      ensures this.field == field && this.value == value && rules == []
    {
      this.field := field;
      this.value := value;
      rules := [];
    }

    function State(): ValidatorState<T>
      reads this
    {
      ValidatorState(field, value, rules)
    }

    /** `rule(r)`: registers `r` after the others; nothing is evaluated yet. */
    method AddRule(r: Rule<T>) returns (self: Validator<T>)
      modifies this
      ensures self == this
      ensures rules == old(rules) + [r]
    {
      rules := rules + [r];
      self := this;
    }

    /** `result()`: the registered rules applied to the value, in registration order. */
    method Result() returns (res: ValidationResult)
      ensures res.errors == Collected(field, value, rules)
      ensures res == State().Result()
    {
      res := ApplyRules(field, value, rules);
    }
  }

  /** The `validate(field, value)` factory: a validator with no rule. */
  method Of<T>(field: string, value: T) returns (v: Validator<T>)
    ensures fresh(v)
    ensures v.field == field && v.value == value && v.rules == []
  {
    v := new Validator(field, value);
  }

  // ------------------------------------------------------------
  // helpers, each registering exactly the rule of the same name
  // ------------------------------------------------------------

  method Required(v: Validator<string>, message: string := "field is required") returns (self: Validator<string>)
    modifies v
    ensures self == v && v.rules == old(v.rules) + [Rules.Required(message)]
  {
    self := v.AddRule(Rules.Required(message));
  }

  method RequiredSv(v: Validator<string>, message: string := "field is required") returns (self: Validator<string>)
    modifies v
    ensures self == v && v.rules == old(v.rules) + [Rules.RequiredSv(message)]
  {
    self := v.AddRule(Rules.RequiredSv(message));
  }

  method RequiredOptional<U(!new)>(v: Validator<Option<U>>, message: string := "field is required")
    returns (self: Validator<Option<U>>)
    modifies v
    ensures self == v && v.rules == old(v.rules) + [Rules.RequiredOptional(message)]
  {
    self := v.AddRule(Rules.RequiredOptional(message));
  }

  method Min(v: Validator<int>, minValue: int, message: string := "value is below minimum") returns (self: Validator<int>)
    modifies v
    ensures self == v && v.rules == old(v.rules) + [Rules.Min(minValue, message)]
  {
    self := v.AddRule(Rules.Min(minValue, message));
  }

  method Max(v: Validator<int>, maxValue: int, message: string := "value is above maximum") returns (self: Validator<int>)
    modifies v
    ensures self == v && v.rules == old(v.rules) + [Rules.Max(maxValue, message)]
  {
    self := v.AddRule(Rules.Max(maxValue, message));
  }

  method Between(v: Validator<int>, minValue: int, maxValue: int, message: string := "value is out of range")
    returns (self: Validator<int>)
    modifies v
    ensures self == v && v.rules == old(v.rules) + [Rules.Between(minValue, maxValue, message)]
  {
    self := v.AddRule(Rules.Between(minValue, maxValue, message));
  }

  method LengthMin(v: Validator<string>, n: nat, message: string := "length is below minimum") returns (self: Validator<string>)
    modifies v
    ensures self == v && v.rules == old(v.rules) + [Rules.LengthMin(n, message)]
  {
    self := v.AddRule(Rules.LengthMin(n, message));
  }

  method LengthMax(v: Validator<string>, n: nat, message: string := "length is above maximum") returns (self: Validator<string>)
    modifies v
    ensures self == v && v.rules == old(v.rules) + [Rules.LengthMax(n, message)]
  {
    self := v.AddRule(Rules.LengthMax(n, message));
  }

  method Email(v: Validator<string>, message: string := "invalid email format") returns (self: Validator<string>)
    modifies v
    ensures self == v && v.rules == old(v.rules) + [Rules.Email(message)]
  {
    self := v.AddRule(Rules.Email(message));
  }

  method InSet(v: Validator<string>, allowed: seq<string>, message: string := "value is not allowed")
    returns (self: Validator<string>)
    modifies v
    ensures self == v && v.rules == old(v.rules) + [Rules.InSet(allowed, message)]
  {
    self := v.AddRule(Rules.InSet(allowed, message));
  }

  // ------------------------------------------------------------
  // properties of result()
  // ------------------------------------------------------------

  /** Asking twice gives the same errors: `result()` changes nothing and keeps no outcome. */
  method ResultIsRepeatable<T>(v: Validator<T>) returns (first: ValidationResult, second: ValidationResult)
    ensures first == second
    ensures first.errors == Collected(v.field, v.value, v.rules)
  {
    first := v.Result();
    second := v.Result();
  }

  /** `""` with `required("email is required")`: exactly one Required error on "email". */
  method RequiredOnEmpty() returns (res: ValidationResult)
    ensures res.errors == [NewError("email", Code.Required, "email is required")]
  {
    var b := Of("email", "");
    b := Required(b, "email is required");
    res := b.Result();
  }

  /** `"not-an-email"` with `required()` and `email("invalid email")`: only the Format error. */
  method RequiredThenEmail() returns (res: ValidationResult)
    ensures res.errors == [NewError("email", Code.Format, "invalid email")]
  {
    var b := Of("email", "not-an-email");
    b := Required(b);
    var r0 := b.rules;
    b := Email(b, "invalid email");
    res := b.Result();
    Rules.EmailRejectsWithoutAt("not-an-email");
    CollectedSnoc("email", "not-an-email", [], Rules.Required());
    CollectedSnoc("email", "not-an-email", r0, Rules.Email("invalid email"));
  }

  /** `""` with required, email and `length_min(5)`: every rule runs, giving three errors. */
  method EmptyFailsEveryRule() returns (res: ValidationResult)
    ensures res.errors == [
      NewError("email", Code.Required, "required"),
      NewError("email", Code.Format, "invalid email"),
      ValidationError("email", Code.LengthMin, "too short", map["min" := "5", "got" := "0"])]
    ensures forall e :: e in res.errors ==> e.field == "email"
  {
    var b := Of("email", "");
    b := Required(b, "required");
    var r0 := b.rules;
    b := Email(b, "invalid email");
    var r1 := b.rules;
    b := LengthMin(b, 5, "too short");
    res := b.Result();
    Rules.EmailRejectsWithoutAt("");
    assert Text.NatToString(5) == "5" && Text.NatToString(0) == "0";
    CollectedSnoc("email", "", [], Rules.Required("required"));
    CollectedSnoc("email", "", r0, Rules.Email("invalid email"));
    CollectedSnoc("email", "", r1, Rules.LengthMin(5, "too short"));
  }
}
