/**
 * The expectation rules a check may set, in the fixed order in which both copies of
 * `runOnce` apply them. This module states that order declaratively (a search for the
 * first violated rule of a priority list) and gives the text of each rule's reason.
 */
module Expectations {
  import opened Wrappers
  import opened Text
  import opened Config

  datatype Rule = ExpectStatus | ExpectStatusIn | ExpectStatusLt | MustContain

  /** The order in which the rules are consulted. */
  const Priority: seq<Rule> := [ExpectStatus, ExpectStatusIn, ExpectStatusLt, MustContain]

  /** Whether `check` sets `rule` (a `mustContain` of "" is falsy, so it does not count as set). */
  predicate Configured(check: Check, rule: Rule)
  {
    match rule
    case ExpectStatus => check.expectStatus.Some?
    case ExpectStatusIn => check.expectStatusIn.Some?
    case ExpectStatusLt => check.expectStatusLt.Some?
    case MustContain => check.mustContain.Some? && check.mustContain.value != ""
  }

  /** Whether a response with `status` and `body` breaks `rule`; a rule that is not set is never broken. */
  predicate Violates(check: Check, rule: Rule, status: int, body: string)
  {
    Configured(check, rule) &&
    match rule
    case ExpectStatus => status != check.expectStatus.value
    case ExpectStatusIn => status !in check.expectStatusIn.value
    case ExpectStatusLt => !(status < check.expectStatusLt.value)
    case MustContain => !Contains(body, check.mustContain.value)
  }

  /** The position in `rules` of the first rule the response breaks, if any. */
  function FirstViolated(check: Check, rules: seq<Rule>, status: int, body: string): (k: Option<nat>)
    ensures k.None? <==> forall i :: 0 <= i < |rules| ==> !Violates(check, rules[i], status, body)
    ensures k.Some? ==> k.value < |rules| && Violates(check, rules[k.value], status, body)
    ensures k.Some? ==> forall i :: 0 <= i < k.value ==> !Violates(check, rules[i], status, body)
  {
    if |rules| == 0 then None
    else if Violates(check, rules[0], status, body) then Some(0)
    else match FirstViolated(check, rules[1..], status, body)
      case None => None
      case Some(k) => Some(k + 1)
  }

  /** The rule that decides a response's verdict: the first one of `Priority` that it breaks. */
  function Verdict(check: Check, status: int, body: string): (v: Option<Rule>)
    ensures v.Some? ==> Violates(check, v.value, status, body)
  {
    match FirstViolated(check, Priority, status, body)
    case None => None
    case Some(k) => Some(Priority[k])
  }

  /** The reason a broken rule gives, naming the observed status and what was expected. */
  function ReasonFor(check: Check, rule: Rule, status: int): string
    requires Configured(check, rule)
  {
    if rule == MustContain then "Body missing \"" + check.mustContain.value + "\""
    else "HTTP " + IntToString(status) + " (expected " + ReasonTail(check, rule)
  }

  /** What follows "HTTP <status> (expected " in the reason of a status rule. */
  function ReasonTail(check: Check, rule: Rule): string
    requires Configured(check, rule) && rule != MustContain
  {
    match rule
    case ExpectStatus => IntToString(check.expectStatus.value) + ")"
    case ExpectStatusIn => "one of: " + Join(check.expectStatusIn.value, ", ") + ")"
    case ExpectStatusLt => "< " + IntToString(check.expectStatusLt.value) + ")"
  }

  /** The reason for a verdict: none when no rule is broken. */
  function ReasonOf(check: Check, verdict: Option<Rule>, status: int): Option<string>
    requires verdict.Some? ==> Configured(check, verdict.value)
  {
    match verdict
    case None => None
    case Some(rule) => Some(ReasonFor(check, rule, status))
  }

  /** Rule by rule, in priority order: the verdict is the first broken rule. */
  lemma VerdictInOrder(check: Check, status: int, body: string)
    ensures Verdict(check, status, body) ==
      if Violates(check, ExpectStatus, status, body) then Some(ExpectStatus)
      else if Violates(check, ExpectStatusIn, status, body) then Some(ExpectStatusIn)
      else if Violates(check, ExpectStatusLt, status, body) then Some(ExpectStatusLt)
      else if Violates(check, MustContain, status, body) then Some(MustContain)
      else None
  {
    var k := FirstViolated(check, Priority, status, body);
    assert Priority[0] == ExpectStatus && Priority[1] == ExpectStatusIn;
    assert Priority[2] == ExpectStatusLt && Priority[3] == MustContain;
    if k.Some? {
      assert k.value == 0 || !Violates(check, Priority[0], status, body);
      assert k.value <= 1 || !Violates(check, Priority[1], status, body);
      assert k.value <= 2 || !Violates(check, Priority[2], status, body);
    } else {
      assert forall i :: 0 <= i < 4 ==> !Violates(check, Priority[i], status, body);
    }
  }

  /** A check without any expectation accepts every response, whatever its status or body. */
  lemma NoExpectationAcceptsAll(check: Check, status: int, body: string)
    requires check.expectStatus.None? && check.expectStatusIn.None? && check.expectStatusLt.None?
    requires check.mustContain.None? || check.mustContain.value == ""
    ensures Verdict(check, status, body) == None
  {
    VerdictInOrder(check, status, body);
  }

  /**
   * Reads back which rule produced a reason: "Body missing" or, after
   * "HTTP <status> (expected ", a set ("one of"), a bound ("<") or a single status.
   */
  function RuleOfReason(reason: string, status: int): Rule
  {
    var at := |"HTTP " + IntToString(status) + " (expected "|;
    if |reason| == 0 || reason[0] == 'B' then MustContain
    else if |reason| <= at then ExpectStatus
    else if reason[at] == 'o' then ExpectStatusIn
    else if reason[at] == '<' then ExpectStatusLt
    else ExpectStatus
  }

  /** The reason text names its rule. */
  lemma ReasonNamesRule(check: Check, rule: Rule, status: int)
    requires Configured(check, rule)
    ensures RuleOfReason(ReasonFor(check, rule, status), status) == rule
  {
    if rule != MustContain {
      var head := "HTTP " + IntToString(status) + " (expected ";
      var tail := ReasonTail(check, rule);
      assert ReasonFor(check, rule, status) == head + tail;
      assert (head + tail)[0] == 'H' && (head + tail)[|head|] == tail[0];
    }
  }

  /** Different rules never give the same reason text, so the reason tells which rule decided. */
  lemma ReasonDeterminesRule(check: Check, r1: Rule, r2: Rule, status: int)
    requires Configured(check, r1) && Configured(check, r2)
    requires ReasonFor(check, r1, status) == ReasonFor(check, r2, status)
    ensures r1 == r2
  {
    ReasonNamesRule(check, r1, status);
    ReasonNamesRule(check, r2, status);
  }

  /** Expecting 200 and observing 404 gives a reason that names both numbers. */
  lemma NotFoundAgainstOk(check: Check)
    requires check.expectStatus == Some(200)
    ensures ReasonFor(check, ExpectStatus, 404) == "HTTP 404 (expected 200)"
  {
    assert IntToString(404) == "404" by {
      assert NatToString(4) == "4" by { assert DigitChar(4) == '4'; }
      assert NatToString(40) == "40" by { assert 40 / 10 == 4 && 40 % 10 == 0 && DigitChar(0) == '0'; }
      assert NatToString(404) == "404" by { assert 404 / 10 == 40 && 404 % 10 == 4 && DigitChar(4) == '4'; }
    }
    assert IntToString(200) == "200" by {
      assert NatToString(2) == "2" by { assert DigitChar(2) == '2'; }
      assert NatToString(20) == "20" by { assert 20 / 10 == 2 && 20 % 10 == 0 && DigitChar(0) == '0'; }
      assert NatToString(200) == "200" by { assert 200 / 10 == 20 && 200 % 10 == 0 && DigitChar(0) == '0'; }
    }
    var tail := ReasonTail(check, ExpectStatus);
    assert tail == "200)";
    var head := "HTTP " + "404";
    assert head == "HTTP 404";
    assert head + " (expected " == "HTTP 404 (expected ";
    assert ReasonFor(check, ExpectStatus, 404) == "HTTP 404 (expected " + "200)";
  }
}
