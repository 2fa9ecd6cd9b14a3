# vix validation, modelled in Dafny

This project models the header-only C++ validation library of Vix.cpp
(`vix::validation`) and proves properties of that model.

- **Errors.** A `ValidationError` is a record: field name, one of nine codes,
  message and a string-to-string `meta` map. `to_string` gives each code a
  stable identifier.
- **The accumulator.** `ValidationErrors` is an append-only list of errors;
  only `clear` empties it. `ValidationResult` wraps one by value and is ok
  exactly when it holds no error.
- **Rules.** A rule is a callable that gets the field name and the value and
  appends errors. An unset callable is skipped. `apply_rules` runs every set
  rule, in order, on the same value, into one fresh accumulator.
- **The rule library.** It has `required` (for strings, string views and
  optionals), `min`, `max`, `between`, `length_min`, `length_max`,
  `in_set` and `email`. Each rule appends at most one error, with a fixed
  code and, for the numeric and length rules, the bound and the observed
  value in `meta`.
- **Validators.** `Validator<T>` (`validate(field, value)`) collects rules
  and runs them only when `result()` is called. `ParsedValidator<T>`
  (`validate_parsed`) parses the text first. A parse failure becomes one
  `Format` error and no rule runs.
- **Schemas.** `Schema<T>` holds an ordered list of object checks. Each
  check reads one member and merges one field validator's errors. `validate`
  runs them all, with no short-circuiting.
- **Models.** `BaseModel<Derived>` delegates to `Derived::schema()`.
- **Forms.** `Form<Derived>::validate` binds raw input into a blank form
  (three-argument `bind`, two-argument `bind`, or per-pair `set` for
  key/value input), validates the bound form with the form type's schema,
  and returns a `FormResult` holding the cleaned value or the errors.

Entities whose fields the C++ updates in place are classes with `seq`
fields and `modifies` clauses (the one exception is `ValidationResult`,
see "Left out"):

- `ErrorList.ValidationErrors`;
- `Validate.Validator`;
- `Pipe.ParsedValidator`;
- `Schemas.Schema`.

Each `result()`/`validate()` is a method with the source's loop. It is
proved equal to a specification function:

- `RuleEngine.Collected` for the rule lists;
- `Pipe.ParsedErrors` for the parsed pipeline;
- `Schemas.SchemaErrors` for schemas.

`Forms.Validate` is the step-by-step bind/validate/clean sequence. It is
proved equal to `Forms.FormOutcome`, and the lemmas state the source's
promises about that function.

A callable the library stores or calls (a rule, a schema check, a field
validator, a binder, the parser) is a Dafny function value. An empty
`std::function` is `None`. What a Validator or a Schema holds can also be
taken as a value: `Validate.ValidatorState` or `Schemas.SchemaState`. That
is the form in which a schema builder and `Derived::schema()` hand them
over.

Calls into code outside the library are parameters:

- `vix::conversion::parse<T>` is a function value
  `string -> Result<T, ConversionError>`;
- the conversion error's code is carried as its identifier string (the
  result of `vix::conversion::to_string`);
- the form type's `schema()`, `bind`/`set` and `clean()` are function
  values.

`std::to_string` on integers is modelled concretely by `Text.IntToString`
and `Text.NatToString`: decimal digits, no leading zeros, and a leading
`-` for negative numbers. This is so that the `meta` values of the test
scenarios can be stated exactly.

Where the header comments and the code differ, the model follows the code:

- The `email` rule's comment asks for exactly one `@`. The code looks only
  at the first `@` and the first `.` after it, so `"a@@b.c"` is accepted
  (`Rules.EmailAcceptsSecondAt`).

Every registered rule runs, whatever the earlier ones reported: an empty
string still goes through every later rule. `""` with `required`, `email`
and `length_min(5)` gives three errors, as the string smoke test asserts
(`Validate.EmptyFailsEveryRule`).

## Model

| member | source | states |
|---|---|---|
| Errors.NewError | include/vix/validation/ValidationError.hpp:46-52 | the three-argument constructor stores field, code and message and leaves meta empty |
| Errors.NewErrorWithMeta | include/vix/validation/ValidationError.hpp:54-61 | the four-argument constructor stores exactly the given meta alongside field, code and message |
| Errors.CodeName | include/vix/validation/ValidationError.hpp:69-95 | each code's identifier is non-empty, made of lower-case letters and `_`, and never the fallback `"unknown"` |
| Errors.CodeOfName | include/vix/validation/ValidationError.hpp:69-95 | the inverse of `to_string`: a result `Some(c)` has identifier `name`, and None is returned exactly when no code has that identifier |
| Errors.CodeNameRoundTrip | include/vix/validation/ValidationError.hpp:72-91 | reading back the identifier of any code gives that code |
| Errors.CodeNameInjective | include/vix/validation/ValidationError.hpp:72-91 | two codes share an identifier if and only if they are the same code |
| Errors.NewErrorHasNoMeta | include/vix/validation/ValidationError.hpp:46-52 | an error built without meta has no meta key |
| ErrorList.ValidationErrors.constructor | include/vix/validation/ValidationErrors.hpp:24 | a new collection holds nothing |
| ErrorList.ValidationErrors.Empty | include/vix/validation/ValidationErrors.hpp:30-33 | `empty()` holds exactly when nothing is held |
| ErrorList.ValidationErrors.Size | include/vix/validation/ValidationErrors.hpp:35-38 | `size()` is the number of entries held |
| ErrorList.ValidationErrors.Ok | include/vix/validation/ValidationErrors.hpp:40-43 | `ok()` agrees with `empty()` and holds exactly when the size is 0 |
| ErrorList.ValidationErrors.All | include/vix/validation/ValidationErrors.hpp:45-48 | `all()` gives every entry, in insertion order |
| ErrorList.ValidationErrors.Add | include/vix/validation/ValidationErrors.hpp:54-57 | the error is appended at the end, the size grows by one and the collection is no longer ok |
| ErrorList.ValidationErrors.AddFields | include/vix/validation/ValidationErrors.hpp:59-68 | an error built from field, code and message (no meta) is appended at the end |
| ErrorList.ValidationErrors.AddFieldsWithMeta | include/vix/validation/ValidationErrors.hpp:70-81 | an error built from field, code, message and meta is appended at the end |
| ErrorList.ValidationErrors.Merge | include/vix/validation/ValidationErrors.hpp:83-89 | the other collection's entries are appended in their order after the existing ones |
| ErrorList.ValidationErrors.Clear | include/vix/validation/ValidationErrors.hpp:91-94 | afterwards the collection is empty and ok |
| ErrorList.AccumulateExample | include/vix/validation/ValidationErrors.hpp:54-94 | adds and a merge accumulate in call order, and clear leaves an ok collection |
| Outcomes.ValidationResult.Ok | include/vix/validation/ValidationResult.hpp:27-30 | `ok()` holds iff no error is held |
| Outcomes.OkMatchesCollection | include/vix/validation/ValidationResult.hpp:27-30 | a result is ok iff the collection it wraps is ok, iff that collection has size 0 |
| Outcomes.ValidationResult.Merge | include/vix/validation/ValidationResult.hpp:32-35 | the merged result keeps this result's errors as a prefix and the other's as the suffix; it is ok iff both were |
| Outcomes.ValidationResult.Success | include/vix/validation/ValidationResult.hpp:37-40 | `success()` is ok and carries no error |
| Outcomes.ValidationResult.Failure | include/vix/validation/ValidationResult.hpp:42-45 | `failure(e)` carries exactly `e` and is ok iff `e` is empty |
| Outcomes.MergeAssociative | include/vix/validation/ValidationResult.hpp:32-35 | merging three results gives the same errors however the merges are grouped |
| Outcomes.MergeSuccess | include/vix/validation/ValidationResult.hpp:32-40 | merging with `success()` on either side changes nothing |
| RuleEngine.Contribution | include/vix/validation/Rule.hpp:35-41 | an empty rule slot adds nothing; a set one adds what the callable reports for that field and value |
| RuleEngine.ApplyRules | include/vix/validation/Rule.hpp:27-44 | the result's errors are every set rule's errors on the same value, in rule order, from a fresh accumulator |
| RuleEngine.CollectedSnoc | include/vix/validation/Rule.hpp:35-41 | one more rule adds exactly its own errors after the earlier ones |
| RuleEngine.CollectedAppend | include/vix/validation/Rule.hpp:35-41 | running two rule lists one after another is running their concatenation |
| RuleEngine.UnsetRulesAreSkipped | include/vix/validation/Rule.hpp:37-40 | dropping the empty slots changes no error |
| RuleEngine.CollectedFromEveryRule | include/vix/validation/Rule.hpp:35-41 | an error is reported iff some rule of the list reports it, so no rule is skipped |
| RuleEngine.AllUnsetIsOk | include/vix/validation/Rule.hpp:33-43 | a list of empty slots, including the empty list, yields no error |
| Rules.Find | include/vix/validation/Rules.hpp:229-230 | `std::find`: the first index at or after the start holding the value, or None exactly when the value is absent there |
| Rules.MetaKeys | include/vix/validation/Rules.hpp:35-45 | `meta_kv`'s keys are exactly the keys of the listed pairs |
| Rules.MetaFirstWins | include/vix/validation/Rules.hpp:40-43 | with `emplace`, a repeated key keeps the value of its first pair |
| Rules.MetaKv | include/vix/validation/Rules.hpp:35-45 | the loop over the pairs builds the map of the specification `Meta` |
| Rules.Required | include/vix/validation/Rules.hpp:77-87 | at most one error; a Required error with the message is reported iff the string is empty |
| Rules.RequiredSv | include/vix/validation/Rules.hpp:89-99 | the same for string views |
| Rules.RequiredOptional | include/vix/validation/Rules.hpp:104-115 | at most one error; a Required error is reported iff the optional holds no value |
| Rules.Min | include/vix/validation/Rules.hpp:121-139 | at most one error; it is reported iff value < min, with code Min and meta exactly `min` and `got` in decimal |
| Rules.Max | include/vix/validation/Rules.hpp:141-159 | at most one error; it is reported iff value > max, with code Max and meta exactly `max` and `got` |
| Rules.Between | include/vix/validation/Rules.hpp:161-180 | at most one error; it is reported iff the value lies outside [min, max], with code Between and meta `min`, `max`, `got` |
| Rules.LengthMin | include/vix/validation/Rules.hpp:186-201 | at most one error; it is reported iff the length is below n, with meta `min` = n and `got` = the length |
| Rules.LengthMax | include/vix/validation/Rules.hpp:203-218 | at most one error; it is reported iff the length exceeds n, with meta `max` = n and `got` = the length |
| Rules.InSet | include/vix/validation/Rules.hpp:224-239 | at most one error; it is reported iff the value is not among the allowed strings, with code InSet and meta `got` = the value |
| Rules.EmailRejectsIffNotShaped | include/vix/validation/Rules.hpp:256-271 | the code's two-step check rejects exactly the strings without a first `@` at index > 0 followed by a `.` that is neither right after it nor last |
| Rules.Email | include/vix/validation/Rules.hpp:253-272 | at most one error; a Format error with the message is reported iff the value is not shaped as above |
| Rules.EmailRejectsWithoutAt | include/vix/validation/Rules.hpp:258-263 | a string with no `@` (the empty one included) is rejected |
| Rules.EmailAcceptsSecondAt | include/vix/validation/Rules.hpp:245-272 | `"a@@b.c"` is accepted: only the first `@` is looked at, unlike the comment's "exactly one" |
| Validate.Validator.constructor | include/vix/validation/Validate.hpp:45-48 | a new validator holds its field and value and no rule |
| Validate.Validator.AddRule | include/vix/validation/Validate.hpp:51-55 | `rule(r)` appends `r` after the registered rules and returns the same validator |
| Validate.Validator.Result | include/vix/validation/Validate.hpp:134-137 | `result()` is `apply_rules` on the registered rules: every set rule, in order, on the stored value |
| Validate.Of | include/vix/validation/Validate.hpp:148-152 | `validate(field, value)` gives a fresh validator with no rule |
| Validate.Required | include/vix/validation/Validate.hpp:62-66 | registers exactly `rules::required(message)` |
| Validate.RequiredSv | include/vix/validation/Validate.hpp:69-73 | registers exactly `rules::required_sv(message)` |
| Validate.RequiredOptional | include/vix/validation/Validate.hpp:76-82 | registers exactly the optional `rules::required<U>(message)` that the helper intends; the C++ call as written names the string overload (see "Left out") |
| Validate.Min | include/vix/validation/Validate.hpp:85-89 | registers exactly `rules::min(v, message)` |
| Validate.Max | include/vix/validation/Validate.hpp:91-95 | registers exactly `rules::max(v, message)` |
| Validate.Between | include/vix/validation/Validate.hpp:97-101 | registers exactly `rules::between(a, b, message)` |
| Validate.LengthMin | include/vix/validation/Validate.hpp:104-108 | registers exactly `rules::length_min(n, message)` |
| Validate.LengthMax | include/vix/validation/Validate.hpp:110-114 | registers exactly `rules::length_max(n, message)` |
| Validate.Email | include/vix/validation/Validate.hpp:117-121 | registers exactly `rules::email(message)` |
| Validate.InSet | include/vix/validation/Validate.hpp:124-128 | registers exactly `rules::in_set(allowed, message)` |
| Validate.ResultIsRepeatable | include/vix/validation/Validate.hpp:134-137 | `result()` is const: two calls give the same result |
| Validate.RequiredOnEmpty | tests/validate_string_smoke.cpp:16-26 | `""` with `required("email is required")` gives exactly one Required error on `email` |
| Validate.RequiredThenEmail | tests/validate_string_smoke.cpp:31-43 | `"not-an-email"` with `required()` and `email("invalid email")` gives exactly one Format error |
| Validate.EmptyFailsEveryRule | tests/validate_string_smoke.cpp:64-79 | `""` with required, email and `length_min(5)` gives three errors in rule order, all on `email` |
| Pipe.ConversionErrorToValidation | include/vix/validation/Pipe.hpp:24-43 | a Format error with the given field and message; meta has `conversion_code` and `position` always, `input` iff the input was non-empty, and nothing else |
| Pipe.ParsedValidator.constructor | include/vix/validation/Pipe.hpp:60-63 | a new parsed validator holds its field and input and no rule |
| Pipe.ParsedValidator.AddRule | include/vix/validation/Pipe.hpp:66-70 | `rule(r)` appends `r` and returns the same parsed validator |
| Pipe.ParsedValidator.Result | include/vix/validation/Pipe.hpp:91-113 | a parse failure gives the converted parse error alone; otherwise every set rule runs, in order, on the parsed value |
| Pipe.ValidateParsed | include/vix/validation/Pipe.hpp:124-129 | `validate_parsed(field, input)` gives a fresh parsed validator with no rule |
| Pipe.Min | include/vix/validation/Pipe.hpp:73-77 | registers exactly `rules::min(v, message)` |
| Pipe.Max | include/vix/validation/Pipe.hpp:79-83 | registers exactly `rules::max(v, message)` |
| Pipe.Between | include/vix/validation/Pipe.hpp:85-89 | registers exactly `rules::between(a, b, message)` |
| Pipe.ParseFailureSkipsRules | include/vix/validation/Pipe.hpp:95-100 | on a parse failure there is exactly one Format error on the field, whatever rules are registered |
| Pipe.ParseSuccessAppliesRules | include/vix/validation/Pipe.hpp:102-112 | on a successful parse the errors are those of the rules applied to the parsed value |
| Pipe.OutOfRange | tests/validate_parsed_smoke.cpp:28-38 | parsed 10 with `between(18, 120, "age out of range")` gives one Between error with meta min 18, max 120, got 10 |
| Pipe.InRange | tests/validate_parsed_ok.cpp:9-18 | parsed 25 with `between(18, 120)` is ok |
| Pipe.NotANumber | tests/validate_parsed_smoke.cpp:43-57 | for any parser error on `"abc"`, the result is exactly that error converted under `"age"`: one Format error whose meta has `conversion_code` and `position` |
| Schemas.CheckErrors | include/vix/validation/Schema.hpp:123-129 | an empty check slot adds nothing; a set one adds what the check reports for the object |
| Schemas.FieldCheck | include/vix/validation/Schema.hpp:44-50 | the check `field` builds is a set callable |
| Schemas.Schema.constructor | include/vix/validation/Schema.hpp:28 | a new schema has no check |
| Schemas.Schema.Field | include/vix/validation/Schema.hpp:38-52 | `field` appends exactly one check, the member-reading check of that name and validator, and returns the same schema |
| Schemas.Schema.FieldBuilt | include/vix/validation/Schema.hpp:62-75 | the builder overload appends the `field` check whose validator is the builder followed by `.result()` |
| Schemas.Schema.Parsed | include/vix/validation/Schema.hpp:88-115 | `parsed` appends one check that hands the member's text unchanged to the validator |
| Schemas.Schema.Validate | include/vix/validation/Schema.hpp:120-131 | `validate(obj)` gives every set check's errors, in registration order |
| Schemas.NewSchema | include/vix/validation/Schema.hpp:140-144 | `schema<T>()` gives a fresh schema with no check |
| Schemas.SchemaErrorsSnoc | include/vix/validation/Schema.hpp:123-129 | a newly registered check adds its errors after the earlier ones and hides none of them |
| Schemas.SchemaErrorsFromEveryCheck | include/vix/validation/Schema.hpp:120-131 | an error is reported iff some check reports it: there is no short-circuiting |
| Schemas.OkIffEveryCheckPasses | include/vix/validation/Schema.hpp:120-131 | an object is valid iff every check returns no error |
| Schemas.NoChecksIsOk | include/vix/validation/Schema.hpp:120-131 | a schema with no check, or with only empty slots, accepts every object |
| Schemas.FieldCheckReadsMember | include/vix/validation/Schema.hpp:45-50 | a field check reports what the validator reports for the stored name and the member's value |
| Schemas.FieldBuiltReadsMember | include/vix/validation/Schema.hpp:68-74 | a builder field reports the builder's rules applied to the builder's value |
| Schemas.EmailFieldOnBadEmail | examples/validation_examples.cpp:113-121 | `"bad-email"` fails only the email rule of required/email/length_max(120) |
| Schemas.PasswordFieldOnShort | examples/validation_examples.cpp:122-130 | `"123"` fails only `length_min(8)`, with meta min 8 and got 3 |
| Schemas.RegisterFormErrors | examples/validation_examples.cpp:110-144 | the example form gives one error per field, in registration order |
| Schemas.RegisterFormExample | examples/validation_examples.cpp:110-144 | building the example schema step by step and validating gives those three errors |
| Models.SchemaRef | include/vix/validation/BaseModel.hpp:63-68 | `schema_ref()` is what `Derived::schema()` gives, asked again on every call |
| Models.ValidateSelf | include/vix/validation/BaseModel.hpp:42-45 | instance `validate()` reports the errors of `Derived::schema()` on this object |
| Models.ValidateStatic | include/vix/validation/BaseModel.hpp:52-55 | static `validate(obj)` reports the errors of `Derived::schema()` on `obj` |
| Models.IsValid | include/vix/validation/BaseModel.hpp:47-50 | `is_valid()` holds iff `validate()` has no error, that is iff every schema check passes |
| Models.SchemaOfModel | include/vix/validation/BaseModel.hpp:57-68 | `schema()` is `Derived::schema()` itself, asked again on each call |
| Models.StaticMatchesInstance | include/vix/validation/BaseModel.hpp:42-55 | the static and the instance `validate` agree, and both equal `schema().validate` |
| Models.EmptySchemaModelIsValid | include/vix/validation/BaseModel.hpp:47-50 | a model whose schema has no check is valid |
| Forms.FormResult.Default | include/vix/validation/Form.hpp:217-218 | the default result holds no value and no error and is not truthy |
| Forms.FormResult.OfValue | include/vix/validation/Form.hpp:220-240 | a value-constructed result holds the value and is truthy |
| Forms.FormResult.OfErrors | include/vix/validation/Form.hpp:226-240 | an errors-constructed result holds no value and is never truthy, even with no error |
| Forms.MakeFormError | include/vix/validation/Form.hpp:184-193 | an error on `__form__` with the given code (Format by default) and message, and no meta |
| Forms.Validate | include/vix/validation/Form.hpp:344-420 | the bind, validate and clean steps, with their early returns, give exactly `FormOutcome` |
| Forms.ValidateKv | include/vix/validation/Form.hpp:427-434 | copying the pairs in order and validating gives the same result as validating the pairs |
| Forms.SetAllAppend | include/vix/validation/Form.hpp:374-385 | binding `a + b` pair by pair is binding `a`, then `b` from where `a` left the form, unless `a` was rejected |
| Forms.SetAllStopsAtRejection | include/vix/validation/Form.hpp:374-385 | the first rejected pair ends the KV binding with its key; later pairs are not examined |
| Forms.SetAllErrIsFirstRejection | include/vix/validation/Form.hpp:374-385 | a reported key is that of a pair rejected after every earlier pair was accepted |
| Forms.Bind3FailsSilently | include/vix/validation/Form.hpp:353-361 | a failed three-argument bind that recorded nothing gives exactly the `__form__`/Format/`invalid input` error, and the schema is not consulted |
| Forms.Bind3FailsWithErrors | include/vix/validation/Form.hpp:353-361 | a failed three-argument bind that recorded errors gives exactly those errors, and the schema is not consulted |
| Forms.Bind2Fails | include/vix/validation/Form.hpp:363-370 | a failed two-argument bind gives exactly the generic `__form__` error, and the schema is not consulted |
| Forms.KvRejected | include/vix/validation/Form.hpp:372-385 | a rejected KV pair gives one `__form__` Format error `unknown or invalid field: <key>`, and the schema is not consulted |
| Forms.SchemaFailureKeepsBindErrors | include/vix/validation/Form.hpp:396-401 | after a successful bind, a failing schema gives the bind-stage errors followed by the schema errors, and no value |
| Forms.SchemaSuccessIsClean | include/vix/validation/Form.hpp:403-420 | after a successful bind, a passing schema gives `clean(form)` and no error; a three-argument binder's own errors are dropped |
| Forms.NoCleanKeepsForm | include/vix/validation/Form.hpp:414-419 | without `clean()` the value returned is the bound form |
| Forms.FormResult.Truthy | include/vix/validation/Form.hpp:237-240 | `operator bool` holds iff a value is held and there is no error |
| Forms.TruthyIffBoundAndValid | include/vix/validation/Form.hpp:344-420 | the result is truthy iff binding succeeded and the bound form is valid for the schema |
| Forms.FailureHasErrors | include/vix/validation/Form.hpp:344-420 | a result that is not truthy always carries at least one error |
| Text.NatToString | include/vix/validation/Rules.hpp:197-198 | `std::to_string` on a size: a non-empty string of decimal digits with no leading zero |
| Text.IntToString | include/vix/validation/Rules.hpp:58-61 | `std::to_string` on an integer: non-empty, and starting with `-` iff the integer is negative |
| Text.NatToStringRoundTrip | include/vix/validation/Rules.hpp:197-198 | reading the decimal digits back gives the number |
| Text.IntToStringReadBack | include/vix/validation/Rules.hpp:58-61 | the rendering denotes the integer: for a negative one a `-` followed by digits reading back as its magnitude, otherwise digits reading back as the integer |
| Text.NatToStringInjective | include/vix/validation/Rules.hpp:197-198 | distinct lengths and bounds have distinct decimal forms |
| Text.IntToStringInjective | include/vix/validation/Rules.hpp:58-61 | distinct integers have distinct decimal forms, so `min`/`got` meta tells values apart |

## Left out

- Compile-time dispatch is modelled as a choice the caller makes. This covers the form traits (`has_bind3`, `has_bind2`, `has_kv_set`, `has_clean_method`, `cleaned_type`), the `static_assert`s and the `requires` clauses on the helpers. A binder is an explicit `Forms.Binder` variant, and a form type without `clean()` passes `Forms.NoClean()`. Build-time errors have no runtime counterpart.
- The KV binder's input type is iterated through the `pairs` function of `Forms.KvSet`; what makes a type a key/value input is a compile-time property.
- `Form::schema()` and `schema_ref()` keep a thread-safe static copy of `Derived::schema()`. The cache is the `derived` function value: every call sees the same schema. Concurrency is not modelled.
- `vix::conversion::parse<T>` and `vix::conversion::to_string` are outside the library. The parser is a function value, and the error code is its identifier string. Parsing semantics, such as overflow detection, are not modelled.
- Only integer instantiations of `min`, `max` and `between` are modelled; floating point and `std::to_string`'s fixed six decimals for it are not.
- `to_string_value` for types other than integers and strings (`"<value>"`) is not reachable from the modelled rules and is left out.
- `meta` is an `unordered_map`; its iteration order is not modelled, as a Dafny `map` has none.
- `string_view` and `const T&` lifetimes are not modelled: validators copy their field name and value. Dangling references in the builders are therefore out of scope.
- `std::size_t` is modelled as an unbounded `nat`. Lengths and bounds never wrap around.
- Outcomes.ValidationResult.Merge: the in-place `r.merge(o)` is modelled as `r := r.Merge(o)`, because `ValidationResult` is a value type here. Schema checks and field validators are function values that return a `ValidationResult`, and a Dafny function cannot allocate an object, so the result cannot be a class. Merging a result into itself, which would alias, is not modelled.
- `ErrorList.ValidationErrors.Merge` takes the other collection's contents as a sequence. Merging a collection into itself, which would alias, is not modelled.
- Rules are assumed to only append to the accumulator, as every rule in `Rules.hpp` does. A C++ rule receives the shared `ValidationErrors&` and so could read, clear or rewrite earlier errors. The model's rule returns the errors it appends and the caller merges them, so a custom rule that reads or edits earlier errors is not modelled, and `RuleEngine.CollectedFromEveryRule` is a statement about appending rules only.
- `ValidationErrors::begin()`/`end()` are modelled only for reading, through `All()`. Writing through the mutable iterators is not modelled.
- A Dafny `string` stands for the bytes of a `std::string`, one char per byte. `size()` counts bytes, so `Rules.LengthMin` and `Rules.LengthMax` compare byte counts; non-ASCII text is not modelled as Unicode, and a model string of multi-byte characters does not match the C++ length of its UTF-8 encoding.
- Validate.RequiredOptional: registers the optional `rules::required<U>(message)`, as the comment on the helper intends. The C++ call `rules::required(std::move(message))` names no template argument, so overload resolution picks the string overload, and its `Rule<std::string>` does not convert to `Rule<std::optional<U>>`; nor can `U` be deduced at the call site. The helper as written is therefore not instantiable, and the model shows the intended behaviour instead.
- `Schema::field`, its builder overload and `parsed` call the stored validator or builder without checking that it is set. An empty one makes `validate` throw `std::bad_function_call`. In the model validators and builders are total function values, so that throwing path is not modelled; only rule and check slots can be empty.
- `to_string`'s `"unknown"` fallback is for a code outside the nine named values. A C++ cast can produce one, and so can `ValidationError() = default`, which leaves `code` indeterminate after default-initialization. `Errors.Code` has exactly the nine values and `Errors.ValidationError` has no default constructor, so that branch is not modelled.
- `Models.SchemaOf` is assumed to be the derived type's own `schema()`. A derived type that declares none inherits `BaseModel::schema()`, whose `schema_ref()` calls `Derived::schema()` again and so recurses without end; the `static_assert` still passes because both return `Schema<Derived>`. That non-terminating path is not modelled.
- `Form::validate` starts from `Derived form{}`; the default-constructed form is the `blank` parameter.
- The output of the example program (`std::cout`) is not modelled; its schema is used only as a scenario.
