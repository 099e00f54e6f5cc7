/** First-match rule lists, as the core evaluates them for routes and for DNS. */
module RuleList {
  import opened Wrappers

  datatype Rule<C> = Rule(condition: C, target: string)

  function FirstMatch<C>(rules: seq<Rule<C>>, matches: C -> bool): Option<string> {
    if rules == [] then None
    else if matches(rules[0].condition) then Some(rules[0].target)
    else FirstMatch(rules[1..], matches)
  }

  function Evaluate<C>(rules: seq<Rule<C>>, fallback: string, matches: C -> bool): string {
    FirstMatch(rules, matches).GetOrElse(fallback)
  }

  /** A rule that is only in the list when its setting is on. */
  function Optional<C>(on: bool, rule: Rule<C>): seq<Rule<C>> {
    if on then [rule] else []
  }

  lemma {:induction false} FirstMatchAppend<C>(a: seq<Rule<C>>, b: seq<Rule<C>>, matches: C -> bool)
    ensures var hit := FirstMatch(a, matches);
            FirstMatch(a + b, matches) == if hit.Some? then hit else FirstMatch(b, matches)
  {
    if a == [] {
      assert a + b == b;
    } else {
      FirstMatchAppend(a[1..], b, matches);
      assert (a + b)[1..] == a[1..] + b;
    }
  }

  lemma FirstMatchOne<C>(rule: Rule<C>, matches: C -> bool)
    ensures FirstMatch([rule], matches) == if matches(rule.condition) then Some(rule.target) else None
  {
    assert [rule][1..] == [];
  }

  /** An optional rule is looked at exactly when its setting is on. */
  lemma FirstMatchOptional<C>(on: bool, rule: Rule<C>, rest: seq<Rule<C>>, matches: C -> bool)
    ensures FirstMatch(Optional(on, rule) + rest, matches) ==
            if on && matches(rule.condition) then Some(rule.target) else FirstMatch(rest, matches)
  {
    FirstMatchAppend(Optional(on, rule), rest, matches);
    FirstMatchOne(rule, matches);
  }
}
