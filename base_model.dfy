/**
 * BaseModel<Derived>: a model type declares `static schema()` and gets
 * `validate`, `is_valid` and `schema` by delegation to it. The derived
 * type's `schema()` is passed in as a function value.
 */
module Models {
  import opened Outcomes
  import opened Schemas

  /** `Derived::schema()`. */
  type SchemaOf<!D> = () -> SchemaState<D>

  /** `schema_ref()`: asks the derived type again on every call. */
  function SchemaRef<D>(derived: SchemaOf<D>): (s: SchemaState<D>)
    ensures s == derived()
  {
    derived()
  }

  /** Instance `validate()`: the derived schema run on this object. */
  function ValidateSelf<D>(derived: SchemaOf<D>, self: D): (r: ValidationResult)
    ensures r.errors == SchemaErrors(derived().checks, self)
  {
    SchemaRef(derived).Validate(self)
  }

  /** Static `validate(obj)`. */
  function ValidateStatic<D>(derived: SchemaOf<D>, obj: D): (r: ValidationResult)
    ensures r.errors == SchemaErrors(derived().checks, obj)
  {
    SchemaRef(derived).Validate(obj)
  }

  /** `is_valid()`: no check of the derived schema reports an error. */
  function IsValid<D>(derived: SchemaOf<D>, self: D): (b: bool)
    ensures b <==> ValidateSelf(derived, self).errors == []
    ensures b <==> forall i :: 0 <= i < |derived().checks| ==> CheckErrors(derived().checks[i], self) == []
  {
    OkIffEveryCheckPasses(derived(), self);
    ValidateSelf(derived, self).Ok()
  }

  /** Static `schema()`: the derived schema itself, not a cached copy. */
  function SchemaOfModel<D>(derived: SchemaOf<D>): (s: SchemaState<D>)
    ensures s == derived()
  {
    SchemaRef(derived)
  }

  /** The static and the instance form agree on every object. */
  lemma StaticMatchesInstance<D>(derived: SchemaOf<D>, obj: D)
    ensures ValidateStatic(derived, obj) == ValidateSelf(derived, obj)
    ensures ValidateSelf(derived, obj) == SchemaOfModel(derived).Validate(obj)
  {
  }

  /** A model whose schema has no check is valid whatever its contents. */
  lemma EmptySchemaModelIsValid<D>(derived: SchemaOf<D>, self: D)
    requires derived().checks == []
    ensures IsValid(derived, self)
  {
  }
}
