/** The shape of the category-icon helpers of the film and series screens: a
    chain of `if (n.includes(k1) || n.includes(k2)) return icon;` tests on the
    lower-cased name, the first true test deciding, and `category` after the
    last one. */
module IconRules {
  import opened Common

  /** The icon of a name no test accepts. */
  const DefaultIcon := "category"

  /** One `if` of the chain: its keywords and the icon it returns. */
  datatype Rule = Rule(keywords: seq<string>, icon: string)

  /** The test of a rule on the lower-cased name `n`. */
  predicate RuleMatches(r: Rule, n: string) {
    exists k | k in r.keywords :: Contains(n, k)
  }

  /** The position of the first rule whose test passes, if any. */
  function FirstMatch(rules: seq<Rule>, n: string): (i: Option<nat>)
    ensures i.None? <==> forall j :: 0 <= j < |rules| ==> !RuleMatches(rules[j], n)
    ensures i.Some? ==> i.value < |rules| && RuleMatches(rules[i.value], n)
                        && forall j :: 0 <= j < i.value ==> !RuleMatches(rules[j], n)
  {
    if rules == [] then None
    else if RuleMatches(rules[0], n) then Some(0)
    else
      var rest := FirstMatch(rules[1..], n);
      if rest.Some? then Some(rest.value + 1) else None
  }

  /** The icon the chain returns for a name. */
  function IconOf(rules: seq<Rule>, name: string): string {
    var i := FirstMatch(rules, Lower(name));
    if i.Some? then rules[i.value].icon else DefaultIcon
  }

  /** The name's case never changes its icon. */
  lemma IconIgnoresCase(rules: seq<Rule>, name: string)
    ensures IconOf(rules, name) == IconOf(rules, Lower(name))
  {
    LowerIdempotent(name);
  }

  /** A keyword of rule `i` anywhere in the name, in any surrounding case,
      decides the icon unless an earlier rule's test already passes. */
  lemma KeywordDecides(rules: seq<Rule>, i: nat, before: string, k: string, after: string)
    requires i < |rules| && k in rules[i].keywords
    requires forall c :: 0 <= c < |k| ==> !IsUpper(k[c])
    requires forall j :: 0 <= j < i ==> !RuleMatches(rules[j], Lower(before + k + after))
    ensures IconOf(rules, before + k + after) == rules[i].icon
  {
    LoweredContainsKeyword(before, k, after);
    var m := FirstMatch(rules, Lower(before + k + after));
    assert RuleMatches(rules[i], Lower(before + k + after));
    assert m.Some? && m.value <= i;
  }
}
