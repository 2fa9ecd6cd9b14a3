/**
 * The concrete rules: each reports at most one error, for the field it is
 * given, with a fixed code and fixed metadata keys.
 */
module Rules {
  import opened Wrappers
  import opened Errors
  import opened RuleEngine
  import opened Text

  // ------------------------------------------------------------
  // helpers
  // ------------------------------------------------------------

  /**
   * The first position at or after `from` that holds `x` (`std::find`,
   * `std::string::find(x, from)`); None is the end iterator / `npos`.
   */
  function Find<X(==)>(xs: seq<X>, x: X, from: nat): (r: Option<nat>)
    ensures r.Some? ==> from <= r.value < |xs| && xs[r.value] == x
    ensures r.Some? ==> forall j :: from <= j < r.value ==> xs[j] != x
    ensures r.None? ==> forall j :: from <= j < |xs| ==> xs[j] != x
    decreases |xs| - from
  {
    if from >= |xs| then None
    else if xs[from] == x then Some(from)
    else Find(xs, x, from + 1)
  }

  /**
   * The map `meta_kv` builds from a list of pairs: `emplace` keeps the first
   * value given for a key.
   */
  function Meta(items: seq<(string, string)>): (m: Meta)
  {
    if items == [] then map[]
    else
      var m := Meta(items[..|items| - 1]);
      var (k, v) := items[|items| - 1];
      if k in m then m else m[k := v]
  }

  /** Every key given gets an entry, and no other key does. */
  lemma {:induction false} MetaKeys(items: seq<(string, string)>)
    ensures Meta(items).Keys == set i | 0 <= i < |items| :: items[i].0
  {
    if items != [] {
      var init := items[..|items| - 1];
      MetaKeys(init);
      var ks := set i | 0 <= i < |items| :: items[i].0;
      var ki := set i | 0 <= i < |init| :: init[i].0;
      assert ks == ki + {items[|items| - 1].0} by {
        forall k | k in ks ensures k in ki + {items[|items| - 1].0} {
          var i :| 0 <= i < |items| && items[i].0 == k;
          if i < |init| { assert init[i] == items[i]; }
        }
        forall k | k in ki ensures k in ks {
          var i :| 0 <= i < |init| && init[i].0 == k;
          assert items[i] == init[i];
        }
      }
    }
  }

  /** A key keeps the value of its first occurrence (later duplicates are ignored). */
  lemma {:induction false} MetaFirstWins(items: seq<(string, string)>, i: nat)
    requires i < |items|
    requires forall j :: 0 <= j < i ==> items[j].0 != items[i].0
    ensures items[i].0 in Meta(items) && Meta(items)[items[i].0] == items[i].1
  {
    var init := items[..|items| - 1];
    if i < |init| {
      assert init[i] == items[i];
      MetaFirstWins(init, i);
    } else {
      MetaKeys(init);
    }
  }

  /** meta_kv: the loop that emplaces each pair in turn. */
  method MetaKv(items: seq<(string, string)>) returns (m: Meta)
    ensures m == Meta(items)
  {
    m := map[];
    for i := 0 to |items|
      invariant m == Meta(items[..i])
    {
      assert items[..i + 1][..i] == items[..i];
      if items[i].0 !in m {
        m := m[items[i].0 := items[i].1];
      }
    }
    assert items[..|items|] == items;
  }

  /** One key gives the one-entry map. */
  lemma MetaOfOne(k: string, v: string)
    ensures Meta([(k, v)]) == map[k := v]
  {
    assert [(k, v)][..0] == [];
  }

  /** Two distinct keys give exactly the two-entry map. */
  lemma MetaOfTwo(k1: string, v1: string, k2: string, v2: string)
    requires k1 != k2
    ensures Meta([(k1, v1), (k2, v2)]) == map[k1 := v1, k2 := v2]
  {
    assert [(k1, v1), (k2, v2)][..1] == [(k1, v1)];
    MetaOfOne(k1, v1);
  }

  /** Three distinct keys give exactly the three-entry map. */
  lemma MetaOfThree(k1: string, v1: string, k2: string, v2: string, k3: string, v3: string)
    requires k1 != k2 && k1 != k3 && k2 != k3
    ensures Meta([(k1, v1), (k2, v2), (k3, v3)]) == map[k1 := v1, k2 := v2, k3 := v3]
  {
    assert [(k1, v1), (k2, v2), (k3, v3)][..2] == [(k1, v1), (k2, v2)];
    MetaOfTwo(k1, v1, k2, v2);
  }

  /** The metadata of `in_set`, for every value. */
  lemma MetaOfOneAll(k: string)
    ensures forall v :: Meta([(k, v)]) == map[k := v]
  {
    forall v ensures Meta([(k, v)]) == map[k := v] {
      MetaOfOne(k, v);
    }
  }

  /** The metadata of the two-key rules, for every rendered value. */
  lemma MetaOfTwoAll(k1: string, k2: string)
    requires k1 != k2
    ensures forall v1, v2 :: Meta([(k1, v1), (k2, v2)]) == map[k1 := v1, k2 := v2]
  {
    forall v1, v2 ensures Meta([(k1, v1), (k2, v2)]) == map[k1 := v1, k2 := v2] {
      MetaOfTwo(k1, v1, k2, v2);
    }
  }

  /** The metadata of `between`, for every rendered value. */
  lemma MetaOfThreeAll(k1: string, k2: string, k3: string)
    requires k1 != k2 && k1 != k3 && k2 != k3
    ensures forall v1, v2, v3 :: Meta([(k1, v1), (k2, v2), (k3, v3)]) == map[k1 := v1, k2 := v2, k3 := v3]
  {
    forall v1, v2, v3 ensures Meta([(k1, v1), (k2, v2), (k3, v3)]) == map[k1 := v1, k2 := v2, k3 := v3] {
      MetaOfThree(k1, v1, k2, v2, k3, v3);
    }
  }

  /** `std::find` reaches the end exactly when the value is absent. */
  lemma FindAbsent<X>(xs: seq<X>, x: X)
    ensures Find(xs, x, 0).None? <==> x !in xs
  {
  }

  lemma FindAbsentAll<X>(xs: seq<X>)
    ensures forall x :: Find(xs, x, 0).None? <==> x !in xs
  {
    forall x ensures Find(xs, x, 0).None? <==> x !in xs {
      FindAbsent(xs, x);
    }
  }

  // ------------------------------------------------------------
  // required
  // ------------------------------------------------------------

  /** `required` for text: flags empty text, and only empty text. */
  function Required(message: string := "field is required"): (r: Rule<string>)
    ensures r.Some?
    ensures forall field, value :: |r.value(field, value)| <= 1
    ensures forall field, value :: r.value(field, value) != [] <==> value == ""
    ensures forall field, value :: r.value(field, value) != [] ==>
              r.value(field, value)[0] == NewError(field, Code.Required, message)
  {
    Some((field: string, value: string) =>
      if |value| == 0 then [NewError(field, Code.Required, message)] else [])
  }

  /** `required_sv`: the same check for a text view. */
  function RequiredSv(message: string := "field is required"): (r: Rule<string>)
    ensures r.Some?
    ensures forall field, value :: |r.value(field, value)| <= 1
    ensures forall field, value :: r.value(field, value) != [] <==> value == ""
    ensures forall field, value :: r.value(field, value) != [] ==>
              r.value(field, value)[0] == NewError(field, Code.Required, message)
  {
    Some((field: string, value: string) =>
      if |value| == 0 then [NewError(field, Code.Required, message)] else [])
  }

  /** `required` for an optional: flags a missing value, and only that. */
  function RequiredOptional<U(!new)>(message: string := "field is required"): (r: Rule<Option<U>>)
    ensures r.Some?
    ensures forall field, value :: |r.value(field, value)| <= 1
    ensures forall field, value :: r.value(field, value) != [] <==> value.None?
    ensures forall field, value :: r.value(field, value) != [] ==>
              r.value(field, value)[0] == NewError(field, Code.Required, message)
  {
    Some((field: string, value: Option<U>) =>
      if !value.Some? then [NewError(field, Code.Required, message)] else [])
  }

  // ------------------------------------------------------------
  // min / max / between
  // ------------------------------------------------------------

  /** Flags a value strictly below the bound; the bound itself passes. */
  function Min(minValue: int, message: string := "value is below minimum"): (r: Rule<int>)
    ensures r.Some?
    ensures forall field, value :: |r.value(field, value)| <= 1
    ensures forall field, value :: r.value(field, value) != [] <==> value < minValue
    ensures forall field, value :: r.value(field, value) != [] ==>
              r.value(field, value)[0] ==
                ValidationError(field, Code.Min, message,
                                map["min" := IntToString(minValue), "got" := IntToString(value)])
  {
    MetaOfTwoAll("min", "got");
    Some((field: string, value: int) =>
      if value < minValue then
        [NewErrorWithMeta(field, Code.Min, message,
                          Meta([("min", IntToString(minValue)), ("got", IntToString(value))]))]
      else [])
  }

  /** Flags a value strictly above the bound; the bound itself passes. */
  function Max(maxValue: int, message: string := "value is above maximum"): (r: Rule<int>)
    ensures r.Some?
    ensures forall field, value :: |r.value(field, value)| <= 1
    ensures forall field, value :: r.value(field, value) != [] <==> value > maxValue
    ensures forall field, value :: r.value(field, value) != [] ==>
              r.value(field, value)[0] ==
                ValidationError(field, Code.Max, message,
                                map["max" := IntToString(maxValue), "got" := IntToString(value)])
  {
    MetaOfTwoAll("max", "got");
    Some((field: string, value: int) =>
      if value > maxValue then
        [NewErrorWithMeta(field, Code.Max, message,
                          Meta([("max", IntToString(maxValue)), ("got", IntToString(value))]))]
      else [])
  }

  /** Flags a value outside the closed interval [minValue, maxValue]. */
  function Between(minValue: int, maxValue: int, message: string := "value is out of range"): (r: Rule<int>)
    ensures r.Some?
    ensures forall field, value :: |r.value(field, value)| <= 1
    ensures forall field, value :: r.value(field, value) != [] <==> !(minValue <= value <= maxValue)
    ensures forall field, value :: r.value(field, value) != [] ==>
              r.value(field, value)[0] ==
                ValidationError(field, Code.Between, message,
                                map["min" := IntToString(minValue), "max" := IntToString(maxValue),
                                    "got" := IntToString(value)])
  {
    MetaOfThreeAll("min", "max", "got");
    Some((field: string, value: int) =>
      if value < minValue || value > maxValue then
        [NewErrorWithMeta(field, Code.Between, message,
                          Meta([("min", IntToString(minValue)), ("max", IntToString(maxValue)),
                                ("got", IntToString(value))]))]
      else [])
  }

  // ------------------------------------------------------------
  // length
  // ------------------------------------------------------------

  /** Flags text shorter than `n`; text of length exactly `n` passes. */
  function LengthMin(n: nat, message: string := "length is below minimum"): (r: Rule<string>)
    ensures r.Some?
    ensures forall field, value :: |r.value(field, value)| <= 1
    ensures forall field, value :: r.value(field, value) != [] <==> |value| < n
    ensures forall field, value :: r.value(field, value) != [] ==>
              r.value(field, value)[0] ==
                ValidationError(field, Code.LengthMin, message,
                                map["min" := NatToString(n), "got" := NatToString(|value|)])
  {
    MetaOfTwoAll("min", "got");
    Some((field: string, value: string) =>
      if |value| < n then
        [NewErrorWithMeta(field, Code.LengthMin, message,
                          Meta([("min", NatToString(n)), ("got", NatToString(|value|))]))]
      else [])
  }

  /** Flags text longer than `n`; text of length exactly `n` passes. */
  function LengthMax(n: nat, message: string := "length is above maximum"): (r: Rule<string>)
    ensures r.Some?
    ensures forall field, value :: |r.value(field, value)| <= 1
    ensures forall field, value :: r.value(field, value) != [] <==> |value| > n
    ensures forall field, value :: r.value(field, value) != [] ==>
              r.value(field, value)[0] ==
                ValidationError(field, Code.LengthMax, message,
                                map["max" := NatToString(n), "got" := NatToString(|value|)])
  {
    MetaOfTwoAll("max", "got");
    Some((field: string, value: string) =>
      if |value| > n then
        [NewErrorWithMeta(field, Code.LengthMax, message,
                          Meta([("max", NatToString(n)), ("got", NatToString(|value|))]))]
      else [])
  }

  // ------------------------------------------------------------
  // in_set
  // ------------------------------------------------------------

  /** Flags a value missing from the allow-list, reporting it under "got". */
  function InSet(allowed: seq<string>, message: string := "value is not allowed"): (r: Rule<string>)
    ensures r.Some?
    ensures forall field, value :: |r.value(field, value)| <= 1
    ensures forall field, value :: r.value(field, value) != [] <==> value !in allowed
    ensures forall field, value :: r.value(field, value) != [] ==>
              r.value(field, value)[0] == ValidationError(field, Code.InSet, message, map["got" := value])
  {
    FindAbsentAll(allowed);
    MetaOfOneAll("got");
    Some((field: string, value: string) =>
      if Find(allowed, value, 0).None? then
        [NewErrorWithMeta(field, Code.InSet, message, Meta([("got", value)]))]
      else [])
  }

  // ------------------------------------------------------------
  // email
  // ------------------------------------------------------------

  /**
   * The email check as the code performs it: it looks only at the first '@'
   * and at the first '.' after it.
   */
  predicate EmailRejects(value: string) {
    var at := Find(value, '@', 0);
    if at.None? || at.value == 0 then true
    else
      var dot := Find(value, '.', at.value + 1);
      dot.None? || dot.value == at.value + 1 || dot.value == |value| - 1
  }

  /**
   * Reference shape of an accepted address: a first '@' at `at > 0`, and the
   * first '.' after it at `dot`, neither right after the '@' nor last.
   */
  predicate EmailShapedAt(value: string, at: nat, dot: nat) {
    && 0 < at && at + 1 < dot < |value| - 1
    && value[at] == '@' && value[dot] == '.'
    && (forall j :: 0 <= j < at ==> value[j] != '@')
    && (forall j :: at < j < dot ==> value[j] != '.')
  }

  ghost predicate EmailShaped(value: string) {
    exists at: nat, dot: nat :: EmailShapedAt(value, at, dot)
  }

  lemma EmailRejectsIffNotShaped(value: string)
    ensures EmailRejects(value) <==> !EmailShaped(value)
  {
    var at := Find(value, '@', 0);
    if !EmailRejects(value) {
      var dot := Find(value, '.', at.value + 1);
      assert EmailShapedAt(value, at.value, dot.value);
    }
    if EmailShaped(value) {
      var a: nat, d: nat :| EmailShapedAt(value, a, d);
      assert at == Some(a);
      assert Find(value, '.', a + 1) == Some(d);
    }
  }

  lemma EmailRejectsIffNotShapedAll()
    ensures forall value :: EmailRejects(value) <==> !EmailShaped(value)
  {
    forall value ensures EmailRejects(value) <==> !EmailShaped(value) {
      EmailRejectsIffNotShaped(value);
    }
  }

  /** `email`: a Format error exactly when the text does not have the accepted shape. */
  function Email(message: string := "invalid email format"): (r: Rule<string>)
    ensures r.Some?
    ensures forall field, value :: |r.value(field, value)| <= 1
    ensures forall field, value :: r.value(field, value) != [] <==> !EmailShaped(value)
    ensures forall field, value :: r.value(field, value) != [] ==>
              r.value(field, value)[0] == NewError(field, Code.Format, message)
  {
    EmailRejectsIffNotShapedAll();
    Some((field: string, value: string) =>
      if EmailRejects(value) then [NewError(field, Code.Format, message)] else [])
  }

  /** The empty string is rejected, and so is every text without an '@' ... */
  lemma EmailRejectsWithoutAt(value: string)
    requires '@' !in value
    ensures EmailRejects(value) && !EmailShaped(value)
  {
    EmailRejectsIffNotShaped(value);
  }

  /**
   * ... but only the first '@' is looked at: a second '@' goes unnoticed,
   * although the documentation of the rule asks for exactly one.
   */
  lemma EmailAcceptsSecondAt()
    ensures !EmailRejects("a@@b.c") && EmailShaped("a@@b.c")
  {
    assert Find("a@@b.c", '@', 0) == Some(1) by {
      assert "a@@b.c"[0] == 'a' && "a@@b.c"[1] == '@';
    }
    var s := "a@@b.c";
    assert s[2] == '@' && s[3] == 'b' && s[4] == '.';
    assert Find(s, '.', 2) == Some(4);
    EmailRejectsIffNotShaped(s);
  }
}
