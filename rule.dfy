/**
 * Rules and their application. A rule receives the field name and the value
 * and appends errors to an accumulator; here it returns the errors it appends.
 * A rule slot may be empty (an unset callable), and is then skipped.
 */
module RuleEngine {
  import opened Wrappers
  import opened Errors
  import opened ErrorList
  import opened Outcomes

  /** The errors a rule appends, from the field name and the (unmodified) value. */
  type RuleFn<!T> = (string, T) -> seq<ValidationError>

  /** A rule slot: None stands for an empty callable. */
  type Rule<!T> = Option<RuleFn<T>>

  /** What one slot appends: nothing when it is empty. */
  function Contribution<T>(rule: Rule<T>, field: string, value: T): (es: seq<ValidationError>)
    ensures rule.None? ==> es == []
    ensures rule.Some? ==> es == rule.value(field, value)
  {
    match rule
    case None => []
    case Some(f) => f(field, value)
  }

  /** The errors of a rule list: each slot's contribution, in list order. */
  function Collected<T>(field: string, value: T, rules: seq<Rule<T>>): seq<ValidationError>
  {
    if rules == [] then []
    else Collected(field, value, rules[..|rules| - 1]) + Contribution(rules[|rules| - 1], field, value)
  }

  /** apply_rules: a fresh accumulator, every set rule run in order on the same value. */
  method ApplyRules<T>(field: string, value: T, rules: seq<Rule<T>>) returns (r: ValidationResult)
    ensures r.errors == Collected(field, value, rules)
  {
    var errors := new ValidationErrors();
    for i := 0 to |rules|
      invariant errors.items == Collected(field, value, rules[..i])
    {
      assert rules[..i + 1][..i] == rules[..i];
      if rules[i].Some? {
        errors.Merge(rules[i].value(field, value));
      }
    }
    assert rules[..|rules|] == rules;
    r := ValidationResult(errors.All());
  }

  /** Registering one more rule adds exactly its contribution, after the others. */
  lemma CollectedSnoc<T>(field: string, value: T, rules: seq<Rule<T>>, r: Rule<T>)
    ensures Collected(field, value, rules + [r]) == Collected(field, value, rules) + Contribution(r, field, value)
  {
    assert (rules + [r])[..|rules|] == rules;
  }

  /** Running two lists one after the other is running their concatenation. */
  lemma {:induction false} CollectedAppend<T>(field: string, value: T, a: seq<Rule<T>>, b: seq<Rule<T>>)
    ensures Collected(field, value, a + b) == Collected(field, value, a) + Collected(field, value, b)
    decreases |b|
  {
    if b == [] {
      assert a + b == a;
    } else {
      var b', last := b[..|b| - 1], b[|b| - 1];
      var ab := a + b;
      assert ab[..|ab| - 1] == a + b';
      assert ab[|ab| - 1] == last;
      CollectedAppend(field, value, a, b');
      var ca, cb', cl := Collected(field, value, a), Collected(field, value, b'), Contribution(last, field, value);
      calc {
        Collected(field, value, ab);
        Collected(field, value, a + b') + cl;
        (ca + cb') + cl;
        ca + (cb' + cl);
        ca + Collected(field, value, b);
      }
    }
  }

  /** The set callables of a list, in order. */
  function SetRules<T>(rules: seq<Rule<T>>): seq<Rule<T>>
  {
    if rules == [] then []
    else SetRules(rules[..|rules| - 1]) + (if rules[|rules| - 1].Some? then [rules[|rules| - 1]] else [])
  }

  /** Empty slots contribute nothing: dropping them changes no error. */
  lemma {:induction false} UnsetRulesAreSkipped<T>(field: string, value: T, rules: seq<Rule<T>>)
    ensures Collected(field, value, SetRules(rules)) == Collected(field, value, rules)
  {
    if rules != [] {
      var init, last := rules[..|rules| - 1], rules[|rules| - 1];
      UnsetRulesAreSkipped(field, value, init);
      var tail := if last.Some? then [last] else [];
      CollectedAppend(field, value, SetRules(init), tail);
      if last.Some? {
        assert ([] + tail)[..0] == [];
        assert Collected(field, value, tail) == Contribution(last, field, value);
      } else {
        assert SetRules(init) + tail == SetRules(init);
      }
    }
  }

  /** An error is reported exactly when some rule of the list reports it: no rule is skipped. */
  lemma {:induction false} CollectedFromEveryRule<T>(field: string, value: T, rules: seq<Rule<T>>, e: ValidationError)
    ensures e in Collected(field, value, rules) <==>
            exists i :: 0 <= i < |rules| && e in Contribution(rules[i], field, value)
  {
    if rules != [] {
      var init := rules[..|rules| - 1];
      CollectedFromEveryRule(field, value, init, e);
      if e in Collected(field, value, rules) {
        if e in Collected(field, value, init) {
          var i :| 0 <= i < |init| && e in Contribution(init[i], field, value);
          assert rules[i] == init[i];
        } else {
          assert e in Contribution(rules[|rules| - 1], field, value);
        }
      } else {
        forall i | 0 <= i < |rules|
          ensures e !in Contribution(rules[i], field, value)
        {
          if i < |init| {
            assert rules[i] == init[i];
          }
        }
      }
    }
  }

  /** A list of empty slots only, and in particular the empty list, yields no error. */
  lemma {:induction false} AllUnsetIsOk<T>(field: string, value: T, rules: seq<Rule<T>>)
    requires forall i :: 0 <= i < |rules| ==> rules[i].None?
    ensures Collected(field, value, rules) == []
  {
    if rules != [] {
      AllUnsetIsOk(field, value, rules[..|rules| - 1]);
    }
  }
}
