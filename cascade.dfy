/**
 * The shape shared by every classifier of the scrape service: an ordered
 * table of rules, each a list of needles and an outcome, where the first rule
 * with a matching needle decides.
 */
module Cascade {
  import opened Wrappers
  import opened Text

  /** How a needle is matched: `includes`, an anchored `^(...)` regex, or `endsWith`. */
  datatype Test = Includes | Prefix | Suffix

  datatype Rule = Rule(needles: seq<string>, outcome: string)

  predicate NeedleMatches(s: string, needle: string, test: Test)
  {
    match test
    case Includes => Contains(s, needle)
    case Prefix => StartsWith(s, needle)
    case Suffix => EndsWith(s, needle)
  }

  /** One of the rule's needles matches: the alternation `A|B|...` or the `||` chain. */
  predicate RuleMatches(s: string, rule: Rule, test: Test)
  {
    exists k :: 0 <= k < |rule.needles| && NeedleMatches(s, rule.needles[k], test)
  }

  /** Tests the needles left to right, as the source's `||` chains do. */
  function AnyNeedle(s: string, needles: seq<string>, test: Test): (b: bool)
    ensures b <==> exists k :: 0 <= k < |needles| && NeedleMatches(s, needles[k], test)
  {
    if needles == [] then false
    else
      assert forall k :: 1 <= k < |needles| ==> needles[k] == needles[1..][k - 1];
      NeedleMatches(s, needles[0], test) || AnyNeedle(s, needles[1..], test)
  }

  /** The index of the first rule that matches, if any. */
  function FirstIndex(s: string, rules: seq<Rule>, test: Test): (r: Option<nat>)
    ensures r.Some? ==> r.value < |rules| && RuleMatches(s, rules[r.value], test)
    ensures r.Some? ==> forall j :: 0 <= j < r.value ==> !RuleMatches(s, rules[j], test)
    ensures r.None? ==> forall j :: 0 <= j < |rules| ==> !RuleMatches(s, rules[j], test)
  {
    if rules == [] then None
    else if AnyNeedle(s, rules[0].needles, test) then Some(0)
    else
      match FirstIndex(s, rules[1..], test)
      case None => None
      case Some(i) => Some(i + 1)
  }

  /** The outcome of the first matching rule, or `default`. */
  function FirstOutcome(s: string, rules: seq<Rule>, test: Test, default: string): (r: string)
    ensures r == default || exists i :: 0 <= i < |rules| && r == rules[i].outcome
  {
    match FirstIndex(s, rules, test)
    case None => default
    case Some(i) => rules[i].outcome
  }

  /** The outcomes of a rule table. */
  function Outcomes(rules: seq<Rule>): (r: seq<string>)
    ensures |r| == |rules|
    ensures forall i :: 0 <= i < |rules| ==> r[i] == rules[i].outcome
  {
    if rules == [] then [] else [rules[0].outcome] + Outcomes(rules[1..])
  }

  /** The first matching rule is the one found. */
  lemma FirstIndexOf(s: string, rules: seq<Rule>, test: Test, i: nat)
    requires i < |rules| && RuleMatches(s, rules[i], test)
    requires forall j :: 0 <= j < i ==> !RuleMatches(s, rules[j], test)
    ensures FirstIndex(s, rules, test) == Some(i)
  {
    assert FirstIndex(s, rules, test).Some?;
  }

  /** First match wins: rule `i` decides exactly when it matches and no earlier rule does. */
  lemma FirstOutcomeWins(s: string, rules: seq<Rule>, test: Test, default: string, i: nat)
    requires i < |rules| && RuleMatches(s, rules[i], test)
    requires forall j :: 0 <= j < i ==> !RuleMatches(s, rules[j], test)
    ensures FirstOutcome(s, rules, test, default) == rules[i].outcome
  {
    assert FirstIndex(s, rules, test).Some?;
  }

  /** With no matching rule the default stands. */
  lemma FirstOutcomeDefault(s: string, rules: seq<Rule>, test: Test, default: string)
    requires forall j :: 0 <= j < |rules| ==> !RuleMatches(s, rules[j], test)
    ensures FirstOutcome(s, rules, test, default) == default
  {
  }
}
