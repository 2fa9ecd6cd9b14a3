/**
 * Form<Derived>: bind raw input into a blank form, validate the bound form
 * with the form type's schema, and return either the cleaned value or the
 * errors. Which binder a form type offers is chosen when the form is used;
 * here it is an explicit `Binder` value.
 */
module Forms {
  import opened Wrappers
  import opened Errors
  import opened ErrorList
  import opened Outcomes
  import opened Schemas
  import opened Models

  /** A value-or-errors holder; the default one holds neither. */
  datatype FormResult<+T> = FormResult(value: Option<T>, errors: seq<ValidationError>) {
    /** `operator bool`: a value is held and there is no error. */
    function Truthy(): (b: bool)
      ensures b <==> value.Some? && errors == []
    {
      value.Some? && |errors| == 0
    }

    static function Default(): (r: FormResult<T>)
      ensures !r.Truthy() && r.value.None? && r.errors == []
    {
      FormResult(None, [])
    }

    /** The success constructor. */
    static function OfValue(v: T): (r: FormResult<T>)
      ensures r.Truthy() && r.value == Some(v)
    {
      FormResult(Some(v), [])
    }

    /** The failure constructor: never truthy, even with an empty error list. */
    static function OfErrors(e: seq<ValidationError>): (r: FormResult<T>)
      ensures !r.Truthy() && r.value.None? && r.errors == e
    {
      FormResult(None, e)
    }
  }

  /** `make_form_error`: an error on the pseudo-field "__form__", without meta. */
  function MakeFormError(message: string := "invalid input", code: Code := Code.Format): (e: ValidationError)
    ensures e.field == "__form__" && e.code == code && e.message == message && e.meta == map[]
  {
    NewError("__form__", code, message)
  }

  /** What the three-argument `bind` leaves: its verdict, the form, the errors it added. */
  datatype BindOutcome<R> = BindOutcome(ok: bool, form: R, errors: seq<ValidationError>)

  /** The binder strategies a form type may offer, in the order they are preferred. */
  datatype Binder<!R, !I> =
    | Bind3(bind: (R, I) -> BindOutcome<R>)
    | Bind2(bind2: (R, I) -> (bool, R))
    | KvSet(setField: (R, string, string) -> (bool, R), pairs: I -> seq<(string, string)>)

  /** The KV binder: `set` on each pair in order; the key of the first rejected pair. */
  function SetAll<R>(setField: (R, string, string) -> (bool, R), form: R, kvs: seq<(string, string)>): Result<R, string>
  {
    if kvs == [] then Ok(form)
    else
      var (ok, next) := setField(form, kvs[0].0, kvs[0].1);
      if !ok then Err(kvs[0].0) else SetAll(setField, next, kvs[1..])
  }

  /** The outcome of the bind stage. */
  datatype Bound<R> = Bound(form: R, errors: seq<ValidationError>) | BindFailed(errors: seq<ValidationError>)

  /** Stage 1: bind `input` into `blank` with the chosen binder. */
  function BindStage<R, I>(blank: R, binder: Binder<R, I>, input: I): Bound<R>
  {
    match binder
    case Bind3(bind) =>
      var b := bind(blank, input);
      if !b.ok then BindFailed(if b.errors == [] then [MakeFormError()] else b.errors)
      else Bound(b.form, b.errors)
    case Bind2(bind2) =>
      var (ok, form) := bind2(blank, input);
      if !ok then BindFailed([MakeFormError()]) else Bound(form, [])
    case KvSet(setField, pairs) =>
      match SetAll(setField, blank, pairs(input))
      case Err(key) => BindFailed([MakeFormError("unknown or invalid field: " + key, Code.Format)])
      case Ok(form) => Bound(form, [])
  }

  /** Stages 2 and 3: validate the bound form, then clean it. */
  function AfterBind<R, C>(form: R, bindErrors: seq<ValidationError>, derived: SchemaOf<R>, clean: R -> C): FormResult<C>
  {
    var vr := derived().Validate(form);
    if !vr.Ok() then FormResult.OfErrors(bindErrors + vr.errors)
    else FormResult.OfValue(clean(form))
  }

  /** What `Form::validate(input)` returns. */
  function FormOutcome<R, I, C>(blank: R, binder: Binder<R, I>, derived: SchemaOf<R>, clean: R -> C, input: I): FormResult<C>
  {
    match BindStage(blank, binder, input)
    case BindFailed(e) => FormResult.OfErrors(e)
    case Bound(form, e) => AfterBind(form, e, derived, clean)
  }

  /** The output of a form type without `clean()`: the form itself. */
  function NoClean<R>(): R -> R {
    (form: R) => form
  }

  /**
   * `Form::validate(input)`, step by step: one accumulator, the blank form
   * bound in place, the KV loop returning at the first rejected pair.
   * The cached schema is the form type's `schema()`.
   */
  method Validate<R, I, C>(blank: R, binder: Binder<R, I>, derived: SchemaOf<R>, clean: R -> C, input: I)
    returns (res: FormResult<C>)
    ensures res == FormOutcome(blank, binder, derived, clean, input)
  {
    var errors := new ValidationErrors();
    var form := blank;
    match binder {
      case Bind3(bind) =>
        var b := bind(form, input);
        form := b.form;
        errors.Merge(b.errors);
        if !b.ok {
          if errors.Size() == 0 {
            errors.Add(MakeFormError());
          }
          return FormResult.OfErrors(errors.All());
        }
      case Bind2(bind2) =>
        var (ok, next) := bind2(form, input);
        form := next;
        if !ok {
          errors.Add(MakeFormError());
          return FormResult.OfErrors(errors.All());
        }
      case KvSet(setField, pairs) =>
        var kvs := pairs(input);
        for i := 0 to |kvs|
          invariant SetAll(setField, blank, kvs) == SetAll(setField, form, kvs[i..])
          invariant errors.items == []
        {
          assert kvs[i..][1..] == kvs[i + 1..];
          var (ok, next) := setField(form, kvs[i].0, kvs[i].1);
          if !ok {
            errors.Add(MakeFormError("unknown or invalid field: " + kvs[i].0, Code.Format));
            return FormResult.OfErrors(errors.All());
          }
          form := next;
        }
    }
    var vr := derived().Validate(form);
    if !vr.Ok() {
      errors.Merge(vr.errors);
      return FormResult.OfErrors(errors.All());
    }
    return FormResult.OfValue(clean(form));
  }

  /** `validate_kv`: copy the pairs, in order, into an input vector and validate that. */
  method ValidateKv<R, C>(blank: R, binder: Binder<R, seq<(string, string)>>, derived: SchemaOf<R>, clean: R -> C,
                          kv: seq<(string, string)>)
    returns (res: FormResult<C>)
    ensures res == FormOutcome(blank, binder, derived, clean, kv)
  {
    var input: seq<(string, string)> := [];
    for i := 0 to |kv|
      invariant input == kv[..i]
    {
      input := input + [kv[i]];
    }
    assert input == kv;
    res := Validate(blank, binder, derived, clean, input);
  }

  // ------------------------------------------------------------
  // properties of the KV binder
  // ------------------------------------------------------------

  /** Binding `a + b` is binding `a`, then `b` from where `a` left the form. */
  lemma {:induction false} SetAllAppend<R>(setField: (R, string, string) -> (bool, R), form: R, a: seq<(string, string)>,
                                           b: seq<(string, string)>)
    ensures SetAll(setField, form, a + b) == match SetAll(setField, form, a)
                                        case Err(k) => Err(k)
                                        case Ok(f) => SetAll(setField, f, b)
  {
    if a == [] {
      assert a + b == b;
    } else {
      assert (a + b)[0] == a[0];
      assert (a + b)[1..] == a[1..] + b;
      var (ok, next) := setField(form, a[0].0, a[0].1);
      if ok {
        SetAllAppend(setField, next, a[1..], b);
      }
    }
  }

  /** The first rejected pair ends the binding: its key is reported and later pairs are not looked at. */
  lemma SetAllStopsAtRejection<R>(setField: (R, string, string) -> (bool, R), form: R, kvs: seq<(string, string)>, i: nat, f: R)
    requires i < |kvs|
    requires SetAll(setField, form, kvs[..i]) == Ok(f)
    requires !setField(f, kvs[i].0, kvs[i].1).0
    ensures SetAll(setField, form, kvs) == Err(kvs[i].0)
  {
    SetAllAppend(setField, form, kvs[..i], kvs[i..]);
    assert kvs[..i] + kvs[i..] == kvs;
  }

  /** A reported key is that of a pair rejected after every earlier pair was accepted. */
  lemma {:induction false} SetAllErrIsFirstRejection<R>(setField: (R, string, string) -> (bool, R), form: R,
                                                        kvs: seq<(string, string)>)
    requires SetAll(setField, form, kvs).Err?
    ensures exists i, f :: 0 <= i < |kvs| && SetAll(setField, form, kvs[..i]) == Ok(f) && !setField(f, kvs[i].0, kvs[i].1).0
                            && SetAll(setField, form, kvs).error == kvs[i].0
  {
    var (ok, next) := setField(form, kvs[0].0, kvs[0].1);
    assert kvs[..0] == [];
    if ok {
      SetAllErrIsFirstRejection(setField, next, kvs[1..]);
      var j, f :| 0 <= j < |kvs[1..]| && SetAll(setField, next, kvs[1..][..j]) == Ok(f) && !setField(f, kvs[1..][j].0, kvs[1..][j].1).0
                  && SetAll(setField, next, kvs[1..]).error == kvs[1..][j].0;
      assert kvs[..j + 1] == [kvs[0]] + kvs[1..][..j];
      SetAllAppend(setField, form, [kvs[0]], kvs[1..][..j]);
      assert [kvs[0]][1..] == [];
      assert SetAll(setField, form, kvs[..j + 1]) == Ok(f);
      assert kvs[j + 1] == kvs[1..][j];
    }
  }

  // ------------------------------------------------------------
  // properties of Form::validate
  // ------------------------------------------------------------

  /** A failing three-argument binder that recorded nothing yields the one generic form error; the schema is not run. */
  lemma Bind3FailsSilently<R, I, C>(blank: R, bind: (R, I) -> BindOutcome<R>, derived: SchemaOf<R>, other: SchemaOf<R>,
                                    clean: R -> C, input: I)
    requires !bind(blank, input).ok && bind(blank, input).errors == []
    ensures FormOutcome(blank, Bind3(bind), derived, clean, input)
         == FormResult.OfErrors([ValidationError("__form__", Code.Format, "invalid input", map[])])
    ensures FormOutcome(blank, Bind3(bind), derived, clean, input) == FormOutcome(blank, Bind3(bind), other, clean, input)
  {
  }

  /** A failing three-argument binder that recorded errors yields exactly those; the schema is not run. */
  lemma Bind3FailsWithErrors<R, I, C>(blank: R, bind: (R, I) -> BindOutcome<R>, derived: SchemaOf<R>, other: SchemaOf<R>,
                                      clean: R -> C, input: I)
    requires !bind(blank, input).ok && bind(blank, input).errors != []
    ensures FormOutcome(blank, Bind3(bind), derived, clean, input) == FormResult.OfErrors(bind(blank, input).errors)
    ensures FormOutcome(blank, Bind3(bind), derived, clean, input) == FormOutcome(blank, Bind3(bind), other, clean, input)
  {
  }

  /** A failing two-argument binder yields the one generic form error; the schema is not run. */
  lemma Bind2Fails<R, I, C>(blank: R, bind2: (R, I) -> (bool, R), derived: SchemaOf<R>, other: SchemaOf<R>,
                            clean: R -> C, input: I)
    requires !bind2(blank, input).0
    ensures FormOutcome(blank, Bind2(bind2), derived, clean, input)
         == FormResult.OfErrors([ValidationError("__form__", Code.Format, "invalid input", map[])])
    ensures FormOutcome(blank, Bind2(bind2), derived, clean, input) == FormOutcome(blank, Bind2(bind2), other, clean, input)
  {
  }

  /** A KV pair rejected after the earlier ones were accepted yields one error naming its key; the schema is not run. */
  lemma KvRejected<R, I, C>(blank: R, setField: (R, string, string) -> (bool, R), pairs: I -> seq<(string, string)>,
                            derived: SchemaOf<R>, other: SchemaOf<R>, clean: R -> C, input: I, i: nat, f: R)
    requires i < |pairs(input)|
    requires SetAll(setField, blank, pairs(input)[..i]) == Ok(f)
    requires !setField(f, pairs(input)[i].0, pairs(input)[i].1).0
    ensures FormOutcome(blank, KvSet(setField, pairs), derived, clean, input)
         == FormResult.OfErrors([ValidationError("__form__", Code.Format, "unknown or invalid field: " + pairs(input)[i].0, map[])])
    ensures FormOutcome(blank, KvSet(setField, pairs), derived, clean, input)
         == FormOutcome(blank, KvSet(setField, pairs), other, clean, input)
  {
    SetAllStopsAtRejection(setField, blank, pairs(input), i, f);
  }

  /** After a successful bind, a failing schema gives the bind-stage errors followed by the schema's, and no value. */
  lemma SchemaFailureKeepsBindErrors<R, I, C>(blank: R, binder: Binder<R, I>, derived: SchemaOf<R>, clean: R -> C,
                                              input: I, form: R, bindErrors: seq<ValidationError>)
    requires BindStage(blank, binder, input) == Bound(form, bindErrors)
    requires !derived().Validate(form).Ok()
    ensures FormOutcome(blank, binder, derived, clean, input).value.None?
    ensures FormOutcome(blank, binder, derived, clean, input).errors == bindErrors + SchemaErrors(derived().checks, form)
  {
  }

  /** After a successful bind, a passing schema gives the cleaned form and no error, dropping the binder's errors. */
  lemma SchemaSuccessIsClean<R, I, C>(blank: R, binder: Binder<R, I>, derived: SchemaOf<R>, clean: R -> C,
                                      input: I, form: R, bindErrors: seq<ValidationError>)
    requires BindStage(blank, binder, input) == Bound(form, bindErrors)
    requires derived().Validate(form).Ok()
    ensures FormOutcome(blank, binder, derived, clean, input) == FormResult.OfValue(clean(form))
    ensures FormOutcome(blank, binder, derived, clean, input).Truthy()
  {
  }

  /** Without `clean()` the value held on success is the bound form itself. */
  lemma NoCleanKeepsForm<R, I>(blank: R, binder: Binder<R, I>, derived: SchemaOf<R>, input: I, form: R,
                               bindErrors: seq<ValidationError>)
    requires BindStage(blank, binder, input) == Bound(form, bindErrors)
    requires derived().Validate(form).Ok()
    ensures FormOutcome(blank, binder, derived, NoClean(), input).value == Some(form)
  {
  }

  /** The result is truthy exactly when binding succeeded and the schema accepted the bound form. */
  lemma TruthyIffBoundAndValid<R, I, C>(blank: R, binder: Binder<R, I>, derived: SchemaOf<R>, clean: R -> C, input: I)
    ensures FormOutcome(blank, binder, derived, clean, input).Truthy()
        <==> BindStage(blank, binder, input).Bound? && IsValid(derived, BindStage(blank, binder, input).form)
  {
  }

  /** A failed result always carries at least one error. */
  lemma {:induction false} FailureHasErrors<R, I, C>(blank: R, binder: Binder<R, I>, derived: SchemaOf<R>, clean: R -> C, input: I)
    ensures !FormOutcome(blank, binder, derived, clean, input).Truthy() ==> FormOutcome(blank, binder, derived, clean, input).errors != []
  {
  }
}
