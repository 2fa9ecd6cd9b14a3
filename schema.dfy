/**
 * Schema<T>: an ordered list of checks run against a whole object. Each
 * check reads one member, runs a field validator on it and merges that
 * validator's errors into the schema's accumulator.
 */
module Schemas {
  import opened Wrappers
  import opened Errors
  import opened ErrorList
  import opened Outcomes
  import opened RuleEngine
  import opened Validate
  import Rules
  import Pipe

  /** The errors a check merges, from the object. */
  type CheckFn<!T> = T -> seq<ValidationError>

  /** A check slot: None stands for an empty callable. */
  type Check<!T> = Option<CheckFn<T>>

  /** What one slot merges: nothing when it is empty. */
  function CheckErrors<T>(check: Check<T>, obj: T): (es: seq<ValidationError>)
    ensures check.None? ==> es == []
    ensures check.Some? ==> es == check.value(obj)
  {
    match check
    case None => []
    case Some(f) => f(obj)
  }

  /** The errors of a check list on one object: each slot's errors, in list order. */
  function SchemaErrors<T>(checks: seq<Check<T>>, obj: T): seq<ValidationError>
  {
    if checks == [] then []
    else SchemaErrors(checks[..|checks| - 1], obj) + CheckErrors(checks[|checks| - 1], obj)
  }

  /**
   * What a Schema holds, as a value. `Derived::schema()` of a model type
   * returns one of these.
   */
  datatype SchemaState<!T> = SchemaState(checks: seq<Check<T>>) {
    /** What `validate(obj)` gives for this schema. */
    function Validate(obj: T): ValidationResult {
      ValidationResult(SchemaErrors(checks, obj))
    }
  }

  /**
   * The check `field` registers: read the member, run the validator under the
   * stored name, keep that result's errors.
   */
  function FieldCheck<T, F>(name: string, member: T -> F, validator: (string, F) -> ValidationResult): (c: Check<T>)
    ensures c.Some?
  {
    Some((obj: T) => validator(name, member(obj)).errors)
  }

  /** The builder overload's validator: run the builder, then take its `result()`. */
  function BuiltValidator<F>(builder: (string, F) -> ValidatorState<F>): (string, F) -> ValidationResult
  {
    (f: string, v: F) => builder(f, v).Result()
  }

  class Schema<T> {
    var checks: seq<Check<T>>

    constructor()
      ensures checks == []
    {
      checks := [];
    }

    function State(): SchemaState<T>
      reads this
    {
      SchemaState(checks)
    }

    /** `field(name, member, validator)`: appends one check and returns the same schema. */
    method Field<F>(name: string, member: T -> F, validator: (string, F) -> ValidationResult) returns (self: Schema<T>)
      modifies this
      ensures self == this
      ensures checks == old(checks) + [FieldCheck(name, member, validator)]
    {
      checks := checks + [FieldCheck(name, member, validator)];
      self := this;
    }

    /** `field(name, member, builder)`: `field` with the builder's `result()` as validator. */
    method FieldBuilt<F>(name: string, member: T -> F, builder: (string, F) -> ValidatorState<F>) returns (self: Schema<T>)
      modifies this
      ensures self == this
      ensures checks == old(checks) + [FieldCheck(name, member, BuiltValidator(builder))]
    {
      self := Field(name, member, BuiltValidator(builder));
    }

    /** `parsed(name, member, validator)`: the member's text goes to the validator unchanged. */
    method Parsed(name: string, member: T -> string, validator: (string, string) -> ValidationResult)
      returns (self: Schema<T>)
      modifies this
      ensures self == this
      ensures checks == old(checks) + [FieldCheck(name, member, validator)]
    {
      checks := checks + [FieldCheck(name, member, validator)];
      self := this;
    }

    /** `validate(obj)`: every set check, in registration order, into one accumulator. */
    method Validate(obj: T) returns (r: ValidationResult)
      ensures r.errors == SchemaErrors(checks, obj)
      ensures r == State().Validate(obj)
    {
      var out := new ValidationErrors();
      for i := 0 to |checks|
        invariant out.items == SchemaErrors(checks[..i], obj)
      {
        assert checks[..i + 1][..i] == checks[..i];
        if checks[i].Some? {
          out.Merge(checks[i].value(obj));
        }
      }
      assert checks[..|checks|] == checks;
      r := ValidationResult(out.All());
    }
  }

  /** The `schema<T>()` factory: a schema with no check. */
  method NewSchema<T>() returns (s: Schema<T>)
    ensures fresh(s)
    ensures s.checks == []
  {
    s := new Schema();
  }

  // ------------------------------------------------------------
  // properties
  // ------------------------------------------------------------

  /** A new check adds its errors after the earlier ones; it never hides them. */
  lemma SchemaErrorsSnoc<T>(checks: seq<Check<T>>, c: Check<T>, obj: T)
    ensures SchemaErrors(checks + [c], obj) == SchemaErrors(checks, obj) + CheckErrors(c, obj)
  {
    assert (checks + [c])[..|checks|] == checks;
  }

  /** An error is reported exactly when some check reports it: no short-circuiting. */
  lemma {:induction false} SchemaErrorsFromEveryCheck<T>(checks: seq<Check<T>>, obj: T, e: ValidationError)
    ensures e in SchemaErrors(checks, obj) <==> exists i :: 0 <= i < |checks| && e in CheckErrors(checks[i], obj)
  {
    if checks != [] {
      var init := checks[..|checks| - 1];
      SchemaErrorsFromEveryCheck(init, obj, e);
      if e in SchemaErrors(checks, obj) {
        if e in SchemaErrors(init, obj) {
          var i :| 0 <= i < |init| && e in CheckErrors(init[i], obj);
          assert checks[i] == init[i];
        } else {
          assert e in CheckErrors(checks[|checks| - 1], obj);
        }
      } else {
        forall i | 0 <= i < |checks|
          ensures e !in CheckErrors(checks[i], obj)
        {
          if i < |init| {
            assert checks[i] == init[i];
          }
        }
      }
    }
  }

  /** The object is valid exactly when every check returns no error. */
  lemma {:induction false} OkIffEveryCheckPasses<T>(s: SchemaState<T>, obj: T)
    ensures s.Validate(obj).Ok() <==> forall i :: 0 <= i < |s.checks| ==> CheckErrors(s.checks[i], obj) == []
    decreases |s.checks|
  {
    var checks := s.checks;
    if checks != [] {
      var init := checks[..|checks| - 1];
      OkIffEveryCheckPasses(SchemaState(init), obj);
      if s.Validate(obj).Ok() {
        forall i | 0 <= i < |checks|
          ensures CheckErrors(checks[i], obj) == []
        {
          if i < |init| {
            assert checks[i] == init[i];
          }
        }
      } else {
        if SchemaErrors(init, obj) != [] {
          var i :| 0 <= i < |init| && CheckErrors(init[i], obj) != [];
          assert checks[i] == init[i];
        }
      }
    }
  }

  /** A fresh schema, and one with only empty slots, accepts every object. */
  lemma {:induction false} NoChecksIsOk<T>(s: SchemaState<T>, obj: T)
    requires forall i :: 0 <= i < |s.checks| ==> s.checks[i].None?
    ensures s.Validate(obj).Ok()
    ensures s.Validate(obj) == ValidationResult.Success()
    decreases |s.checks|
  {
    if s.checks != [] {
      NoChecksIsOk(SchemaState(s.checks[..|s.checks| - 1]), obj);
    }
  }

  /** A field check reads the member and reports what the validator reports under the stored name. */
  lemma FieldCheckReadsMember<T, F>(name: string, member: T -> F, validator: (string, F) -> ValidationResult, obj: T)
    ensures CheckErrors(FieldCheck(name, member, validator), obj) == validator(name, member(obj)).errors
  {
  }

  /** A builder-based field reports what the builder's validator reports on the member. */
  lemma FieldBuiltReadsMember<T, F>(name: string, member: T -> F, builder: (string, F) -> ValidatorState<F>, obj: T)
    ensures CheckErrors(FieldCheck(name, member, BuiltValidator(builder)), obj)
         == Collected(builder(name, member(obj)).field, builder(name, member(obj)).value, builder(name, member(obj)).rules)
  {
  }

  // ------------------------------------------------------------
  // the registration form of the examples
  // ------------------------------------------------------------

  datatype RegisterForm = RegisterForm(email: string, password: string, age: string)

  function EmailField(f: string, v: string): ValidatorState<string> {
    ValidatorState(f, v, [Rules.Required(), Rules.Email(), Rules.LengthMax(120)])
  }

  function PasswordField(f: string, v: string): ValidatorState<string> {
    ValidatorState(f, v, [Rules.Required(), Rules.LengthMin(8), Rules.LengthMax(64)])
  }

  function AgeField(parse: Pipe.Parser<int>): (string, string) -> ValidationResult {
    (f: string, sv: string) => ValidationResult(Pipe.ParsedErrors(f, sv, parse, [Rules.Between(18, 120)], "age must be a number"))
  }

  /** "bad-email" passes `required` and `length_max(120)` and fails only `email`. */
  lemma EmailFieldOnBadEmail()
    ensures EmailField("email", "bad-email").Result().errors == [NewError("email", Code.Format, "invalid email format")]
  {
    Rules.EmailRejectsWithoutAt("bad-email");
    var es := [Rules.Required(), Rules.Email(), Rules.LengthMax(120)];
    CollectedSnoc("email", "bad-email", [], es[0]);
    CollectedSnoc("email", "bad-email", es[..1], es[1]);
    CollectedSnoc("email", "bad-email", es[..2], es[2]);
    assert es[..1] + [es[1]] == es[..2] && es[..2] + [es[2]] == es;
  }

  /** "123" passes `required` and `length_max(64)` and fails only `length_min(8)`. */
  lemma PasswordFieldOnShort()
    ensures PasswordField("password", "123").Result().errors
         == [NewErrorWithMeta("password", Code.LengthMin, "length is below minimum", map["min" := "8", "got" := "3"])]
  {
    var ps := [Rules.Required(), Rules.LengthMin(8), Rules.LengthMax(64)];
    CollectedSnoc("password", "123", [], ps[0]);
    CollectedSnoc("password", "123", ps[..1], ps[1]);
    CollectedSnoc("password", "123", ps[..2], ps[2]);
    assert ps[..1] + [ps[1]] == ps[..2] && ps[..2] + [ps[2]] == ps;
    assert Text.NatToString(8) == "8" && Text.NatToString(3) == "3";
  }

  function EmailOf(f: RegisterForm): string { f.email }
  function PasswordOf(f: RegisterForm): string { f.password }
  function AgeOf(f: RegisterForm): string { f.age }

  /** The three checks the example schema registers, in order. */
  function RegisterChecks(parse: Pipe.Parser<int>): seq<Check<RegisterForm>> {
    [FieldCheck("email", EmailOf, BuiltValidator(EmailField)),
     FieldCheck("password", PasswordOf, BuiltValidator(PasswordField)),
     FieldCheck("age", AgeOf, AgeField(parse))]
  }

  /** The errors of the form ("bad-email", "123", "abc"): one per field, in registration order. */
  lemma RegisterFormErrors(parse: Pipe.Parser<int>, err: Pipe.ConversionError)
    requires parse("abc") == Err(err)
    ensures SchemaErrors(RegisterChecks(parse), RegisterForm("bad-email", "123", "abc"))
         == [NewError("email", Code.Format, "invalid email format"),
             NewErrorWithMeta("password", Code.LengthMin, "length is below minimum", map["min" := "8", "got" := "3"]),
             Pipe.ConversionErrorToValidation("age", err, "age must be a number")]
  {
    var cs := RegisterChecks(parse);
    var form := RegisterForm("bad-email", "123", "abc");
    var e1 := NewError("email", Code.Format, "invalid email format");
    var e2 := NewErrorWithMeta("password", Code.LengthMin, "length is below minimum", map["min" := "8", "got" := "3"]);
    var e3 := Pipe.ConversionErrorToValidation("age", err, "age must be a number");
    assert CheckErrors(cs[0], form) == [e1] by {
      FieldCheckReadsMember("email", EmailOf, BuiltValidator(EmailField), form);
      EmailFieldOnBadEmail();
    }
    assert CheckErrors(cs[1], form) == [e2] by {
      FieldCheckReadsMember("password", PasswordOf, BuiltValidator(PasswordField), form);
      PasswordFieldOnShort();
    }
    assert CheckErrors(cs[2], form) == [e3] by {
      FieldCheckReadsMember("age", AgeOf, AgeField(parse), form);
    }
    SchemaErrorsSnoc([], cs[0], form);
    SchemaErrorsSnoc(cs[..1], cs[1], form);
    SchemaErrorsSnoc(cs[..2], cs[2], form);
    assert [] + [cs[0]] == cs[..1] && cs[..1] + [cs[1]] == cs[..2] && cs[..2] + [cs[2]] == cs;
  }

  /** The example schema built step by step and run on ("bad-email", "123", "abc"). */
  method RegisterFormExample(parse: Pipe.Parser<int>, err: Pipe.ConversionError) returns (r: ValidationResult)
    requires parse("abc") == Err(err)
    ensures r.errors == [NewError("email", Code.Format, "invalid email format"),
                         NewErrorWithMeta("password", Code.LengthMin, "length is below minimum", map["min" := "8", "got" := "3"]),
                         Pipe.ConversionErrorToValidation("age", err, "age must be a number")]
  {
    var s := NewSchema<RegisterForm>();
    s := s.Field("email", EmailOf, BuiltValidator(EmailField));
    s := s.Field("password", PasswordOf, BuiltValidator(PasswordField));
    s := s.Parsed("age", AgeOf, AgeField(parse));
    assert s.checks == RegisterChecks(parse);
    r := s.Validate(RegisterForm("bad-email", "123", "abc"));
    RegisterFormErrors(parse, err);
  }
}
