/** The ordered, append-only accumulator of validation errors. */
module ErrorList {
  import opened Errors

  class ValidationErrors {
    /** The entries, in insertion order. */
    var items: seq<ValidationError>

    constructor()
      ensures items == []
    {
      items := [];
    }

    function Empty(): (b: bool)
      reads this
      ensures b <==> items == []
    {
      |items| == 0
    }

    function Size(): (n: nat)
      reads this
      ensures n == |items|
    {
      |items|
    }

    /** No error was recorded: the same as Empty, and as a size of zero. */
    function Ok(): (b: bool)
      reads this
      ensures b == Empty()
      ensures b <==> Size() == 0
    {
      |items| == 0
    }

    /** The entries in insertion order. */
    function All(): (s: seq<ValidationError>)
      reads this
      ensures |s| == Size()
      ensures forall i :: 0 <= i < |s| ==> s[i] == items[i]
    {
      items
    }

    /** push_back of a ready-made error. */
    method Add(error: ValidationError)
      modifies this
      ensures items == old(items) + [error]
      ensures Size() == old(Size()) + 1 && !Ok()
    {
      items := items + [error];
    }

    /** emplace_back(field, code, message). */
    method AddFields(field: string, code: Code, message: string)
      modifies this
      ensures items == old(items) + [NewError(field, code, message)]
      ensures Size() == old(Size()) + 1 && !Ok()
    {
      items := items + [NewError(field, code, message)];
    }

    /** emplace_back(field, code, message, meta). */
    method AddFieldsWithMeta(field: string, code: Code, message: string, meta: Meta)
      modifies this
      ensures items == old(items) + [NewErrorWithMeta(field, code, message, meta)]
      ensures Size() == old(Size()) + 1 && !Ok()
    {
      items := items + [NewErrorWithMeta(field, code, message, meta)];
    }

    /** Appends the entries of another collection (given by its contents), keeping both orders. */
    method Merge(other: seq<ValidationError>)
      modifies this
      ensures items == old(items) + other
      ensures Size() == old(Size()) + |other|
    {
      items := items + other;
    }

    method Clear()
      modifies this
      ensures items == [] && Ok()
    {
      items := [];
    }
  }

  /** What a caller can rely on: entries are only ever appended, at the end. */
  method AccumulateExample(a: ValidationError, b: ValidationError, more: seq<ValidationError>)
    returns (all: seq<ValidationError>, okAfterClear: bool)
    ensures all == [a, b] + more
    ensures okAfterClear
  {
    var errors := new ValidationErrors();
    errors.Add(a);
    errors.Add(b);
    errors.Merge(more);
    all := errors.All();
    errors.Clear();
    okAfterClear := errors.Ok();
  }
}
