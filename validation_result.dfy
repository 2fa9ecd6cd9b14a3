/** The outcome of one validation pass: ok exactly when it carries no error. */
module Outcomes {
  import opened Errors
  import opened ErrorList

  /**
   * A ValidationResult holds its ValidationErrors by value; `errors` is that
   * collection's contents.
   */
  datatype ValidationResult = ValidationResult(errors: seq<ValidationError>) {

    /** `ok()`: no error is held. */
    function Ok(): (b: bool)
      ensures b <==> errors == []
    {
      |errors| == 0
    }

    /** `merge`: the other result's errors after this one's, each side in its own order. */
    function Merge(other: ValidationResult): (r: ValidationResult)
      ensures |r.errors| == |errors| + |other.errors|
      ensures r.errors[..|errors|] == errors && r.errors[|errors|..] == other.errors
      ensures r.Ok() <==> Ok() && other.Ok()
    {
      ValidationResult(errors + other.errors)
    }

    static function Success(): (r: ValidationResult)
      ensures r.Ok() && |r.errors| == 0
    {
      ValidationResult([])
    }

    static function Failure(e: seq<ValidationError>): (r: ValidationResult)
      ensures r.errors == e
      ensures r.Ok() <==> e == []
    {
      ValidationResult(e)
    }
  }

  /** A result is ok exactly when the collection it wraps is, as `ok()` forwards to `errors.ok()`. */
  lemma OkMatchesCollection(e: ValidationErrors)
    ensures ValidationResult(e.All()).Ok() <==> e.Ok()
    ensures ValidationResult(e.All()).Ok() <==> e.Size() == 0
  {
  }

  /** Merging in registration order is associative ... */
  lemma MergeAssociative(a: ValidationResult, b: ValidationResult, c: ValidationResult)
    ensures a.Merge(b).Merge(c) == a.Merge(b.Merge(c))
  {
    assert (a.errors + b.errors) + c.errors == a.errors + (b.errors + c.errors);
  }

  /** ... and success is its neutral element on both sides. */
  lemma MergeSuccess(a: ValidationResult)
    ensures a.Merge(ValidationResult.Success()) == a
    ensures ValidationResult.Success().Merge(a) == a
  {
    assert a.errors + [] == a.errors;
  }
}
