/**
 * The rule engine of the alert service: it runs its rules over an MT103 event in a fixed
 * order and turns each rule that fires into an alert naming the rule, with a severity
 * chosen by the rule's name. The clock reading is a parameter.
 */
module FraudEngine {
  import opened Wrappers
  import opened BigDec
  import opened Clock
  import opened AlertModel
  import opened FraudRules

  /** The engine's alert: severity is one of "HIGH", "MEDIUM", "LOW". */
  datatype RuleAlert = RuleAlert(
    transactionId: Option<string>,
    ruleName: string,
    description: string,
    severity: string,
    alertTime: LocalDateTime,
    details: string)

  /** determineSeverity: HIGH for the high-risk-country and threshold-avoidance rules,
      MEDIUM for structuring, LOW for every other name. */
  function DetermineSeverity(ruleName: string): (r: string)
    ensures r == "HIGH" || r == "MEDIUM" || r == "LOW"
    ensures r == "HIGH" <==> ruleName == "HIGH_RISK_COUNTRY_DETECTION" || ruleName == "THRESHOLD_AVOIDANCE_DETECTION"
    ensures r == "MEDIUM" <==> ruleName == "STRUCTURING_DETECTION"
  {
    if ruleName == "HIGH_RISK_COUNTRY_DETECTION" then "HIGH"
    else if ruleName == "THRESHOLD_AVOIDANCE_DETECTION" then "HIGH"
    else if ruleName == "STRUCTURING_DETECTION" then "MEDIUM"
    else "LOW"
  }

  /** createFraudAlert. */
  function CreateFraudAlert(transactionId: Option<string>, rule: Rule, now: LocalDateTime): RuleAlert {
    RuleAlert(transactionId, RuleName(rule), RuleDescription(rule), DetermineSeverity(RuleName(rule)), now,
      "Transaction " + Str(transactionId) + " triggered fraud rule: " + RuleName(rule))
  }

  /** The rules the engine runs, in order. */
  const EngineRules: seq<Rule> := [HighRiskCountryRule, ThresholdAvoidanceRule]

  /** The rules of `rules` that fire, in order; None when one of them throws. */
  function FiredRules(rules: seq<Rule>, event: TransactionWithMt103Event): (r: Option<seq<Rule>>)
    ensures r.None? <==> exists i :: 0 <= i < |rules| && IsSuspicious(rules[i], event).None?
    ensures r.Some? ==> |r.value| <= |rules|
    ensures r.Some? ==> forall j :: 0 <= j < |r.value| ==> r.value[j] in rules && IsSuspicious(r.value[j], event) == Some(true)
    ensures r.Some? ==> forall i :: 0 <= i < |rules| && IsSuspicious(rules[i], event) == Some(true) ==> rules[i] in r.value
  {
    if rules == [] then Some([])
    else
      var rest := FiredRules(rules[1..], event);
      match IsSuspicious(rules[0], event)
      case None => None
      case Some(fired) =>
        if rest.None? then None
        else if fired then Some([rules[0]] + rest.value)
        else rest
  }

  /** What one more rule in front does to the rules found firing among the rest. */
  function RuleInFront(rule: Rule, outcome: Option<bool>, c: Option<seq<Rule>>): Option<seq<Rule>> {
    match outcome
    case None => None
    case Some(fired) => if c.None? then None else if fired then Some([rule] + c.value) else c
  }

  lemma FiredRulesCons(rule: Rule, rules: seq<Rule>, event: TransactionWithMt103Event)
    ensures FiredRules([rule] + rules, event) == RuleInFront(rule, IsSuspicious(rule, event), FiredRules(rules, event))
  {
    var s := [rule] + rules;
    assert s[0] == rule && s[1..] == rules;
  }

  lemma RuleInFrontJoined(rule: Rule, outcome: Option<bool>, x: Option<seq<Rule>>, y: Option<seq<Rule>>)
    ensures RuleInFront(rule, outcome, Joined(x, y)) == Joined(RuleInFront(rule, outcome, x), y)
  {
    if outcome == Some(true) && x.Some? && y.Some? {
      assert [rule] + (x.value + y.value) == [rule] + x.value + y.value;
    }
  }

  /** The rules firing in two lists run one after the other are those of the first list
      followed by those of the second: the loop keeps the list's order. */
  lemma {:induction false} FiredRulesAppend(a: seq<Rule>, b: seq<Rule>, event: TransactionWithMt103Event)
    ensures FiredRules(a + b, event) == Joined(FiredRules(a, event), FiredRules(b, event))
  {
    if a == [] {
      assert a + b == b;
      assert FiredRules(a, event) == Some([]);
      if FiredRules(b, event).Some? {
        assert [] + FiredRules(b, event).value == FiredRules(b, event).value;
      }
    } else {
      var rule, tail := a[0], a[1..];
      assert a == [rule] + tail;
      assert a + b == [rule] + (tail + b);
      FiredRulesAppend(tail, b, event);
      FiredRulesCons(rule, tail, event);
      FiredRulesCons(rule, tail + b, event);
      RuleInFrontJoined(rule, IsSuspicious(rule, event), FiredRules(tail, event), FiredRules(b, event));
    }
  }

  /** One more rule: a throw fails the run, and a rule that fires goes after all the
      earlier ones that fired. */
  lemma FiredRulesSnoc(rules: seq<Rule>, rule: Rule, event: TransactionWithMt103Event)
    ensures FiredRules(rules + [rule], event) ==
      match IsSuspicious(rule, event)
      case None => None
      case Some(fired) =>
        if FiredRules(rules, event).None? then None
        else if fired then Some(FiredRules(rules, event).value + [rule])
        else FiredRules(rules, event)
  {
    var none: seq<Rule> := [];
    FiredRulesAppend(rules, [rule], event);
    FiredRulesCons(rule, none, event);
    assert [rule] + none == [rule];
    assert FiredRules(none, event) == Some([]);
    JoinedOneRule(FiredRules(rules, event), rule, IsSuspicious(rule, event));
  }

  lemma JoinedOneRule(c: Option<seq<Rule>>, rule: Rule, outcome: Option<bool>)
    ensures Joined(c, RuleInFront(rule, outcome, Some([]))) ==
      match outcome
      case None => None
      case Some(fired) => if c.None? then None else if fired then Some(c.value + [rule]) else c
  {
    match outcome
    case None =>
    case Some(fired) =>
      if fired {
        assert [rule] + [] == [rule];
      } else if c.Some? {
        assert c.value + [] == c.value;
      }
  }

  /** One alert per rule, in the rules' order. */
  function AlertsFor(transactionId: Option<string>, rules: seq<Rule>, now: LocalDateTime): (r: seq<RuleAlert>)
    ensures |r| == |rules|
    ensures forall j :: 0 <= j < |rules| ==> r[j] == CreateFraudAlert(transactionId, rules[j], now)
  {
    seq(|rules|, j requires 0 <= j < |rules| => CreateFraudAlert(transactionId, rules[j], now))
  }

  /** The alerts the engine's loop collects over `rules`. */
  function RuleAlerts(rules: seq<Rule>, event: TransactionWithMt103Event, now: LocalDateTime): Option<seq<RuleAlert>> {
    match FiredRules(rules, event)
    case None => None
    case Some(fired) => Some(AlertsFor(event.transaction.transactionId, fired, now))
  }

  /** `acc` followed by the rules of `o`, failing with it. */
  function Prepend(acc: seq<Rule>, o: Option<seq<Rule>>): Option<seq<Rule>> {
    if o.None? then None else Some(acc + o.value)
  }

  /** One step of the loop: a rule that throws makes the whole run throw; one that fires
      moves from the rules still to run to the rules fired. */
  lemma FiredRulesStep(fired: seq<Rule>, rules: seq<Rule>, i: nat, event: TransactionWithMt103Event)
    requires i < |rules|
    ensures IsSuspicious(rules[i], event).None? ==> FiredRules(rules[i..], event).None?
    ensures IsSuspicious(rules[i], event) == Some(true) ==>
      Prepend(fired, FiredRules(rules[i..], event)) == Prepend(fired + [rules[i]], FiredRules(rules[i + 1..], event))
    ensures IsSuspicious(rules[i], event) == Some(false) ==>
      Prepend(fired, FiredRules(rules[i..], event)) == Prepend(fired, FiredRules(rules[i + 1..], event))
  {
    assert rules[i..][1..] == rules[i + 1..];
    assert forall v :: fired + ([rules[i]] + v) == (fired + [rules[i]]) + v;
  }

  lemma AlertsForSnoc(transactionId: Option<string>, rules: seq<Rule>, rule: Rule, now: LocalDateTime)
    ensures AlertsFor(transactionId, rules + [rule], now) == AlertsFor(transactionId, rules, now) + [CreateFraudAlert(transactionId, rule, now)]
  {
  }

  /** The loop of detectFraud over a list of rules, adding an alert for each rule that
      fires; an exception in a rule ends the call. */
  method RunRules(rules: seq<Rule>, event: TransactionWithMt103Event, now: LocalDateTime) returns (alerts: Option<seq<RuleAlert>>)
    ensures alerts == RuleAlerts(rules, event, now)
  {
    var transactionId := event.transaction.transactionId;
    var acc: seq<RuleAlert> := [];
    ghost var fired: seq<Rule> := [];
    var i := 0;
    assert rules[0..] == rules;
    assert forall v: seq<Rule> :: [] + v == v;
    while i < |rules|
      invariant 0 <= i <= |rules|
      invariant Prepend(fired, FiredRules(rules[i..], event)) == FiredRules(rules, event)
      invariant acc == AlertsFor(transactionId, fired, now)
    {
      FiredRulesStep(fired, rules, i, event);
      var suspicious := IsSuspicious(rules[i], event);
      if suspicious.None? {
        return None;
      }
      if suspicious.value {
        var alert := CreateFraudAlert(transactionId, rules[i], now);
        AlertsForSnoc(transactionId, fired, rules[i], now);
        fired := fired + [rules[i]];
        acc := acc + [alert];
      }
      i := i + 1;
    }
    assert rules[i..] == [] && fired + [] == fired;
    return Some(acc);
  }

  /** detectFraud: the engine's two rules, in order. */
  method DetectFraud(event: TransactionWithMt103Event, now: LocalDateTime) returns (alerts: Option<seq<RuleAlert>>)
    ensures alerts == RuleAlerts(EngineRules, event, now)
  {
    alerts := RunRules(EngineRules, event, now);
  }

  /** The engine fails exactly when a country code or the amount is null; otherwise the
      high-risk-country rule fires when either code is high-risk, then the
      threshold-avoidance rule when 9900.00 <= amount < 10000.00. */
  lemma EngineOutcome(event: TransactionWithMt103Event)
    ensures var t := event.transaction;
      FiredRules(EngineRules, event).None? <==> t.toCountryCode.None? || t.fromCountryCode.None? || t.amount.None?
    ensures var t := event.transaction;
      FiredRules(EngineRules, event).Some? ==>
        FiredRules(EngineRules, event).value ==
          (if t.toCountryCode.value in HighRiskCountrySet || t.fromCountryCode.value in HighRiskCountrySet
           then [HighRiskCountryRule] else [])
          + (if AtLeast(t.amount.value, BigDecimal(990000, 2)) && Less(t.amount.value, BigDecimal(1000000, 2))
             then [ThresholdAvoidanceRule] else [])
  {
    ThresholdAvoidanceBand(event);
    var rules := EngineRules;
    assert rules[1..][1..] == [];
    assert rules[1..][0] == ThresholdAvoidanceRule;
  }

  /** The severity determineSeverity gives each rule by its name. */
  lemma RuleSeverity(rule: Rule)
    ensures DetermineSeverity(RuleName(rule)) == if rule == HighRiskCountryRule || rule == ThresholdAvoidanceRule then "HIGH" else "LOW"
  {
    match rule
    case HighRiskCountryRule =>
    case ThresholdAvoidanceRule =>
    case HighAmountRule =>
    case OffHoursRule =>
    case SuspiciousRemittanceRule =>
  }

  /** Every alert the engine raises has severity HIGH, carries the event's transaction
      identifier and the clock reading, and names one of the engine's two rules. */
  lemma EngineAlertsAreHigh(event: TransactionWithMt103Event, now: LocalDateTime)
    ensures RuleAlerts(EngineRules, event, now).Some? ==>
      var alerts := RuleAlerts(EngineRules, event, now).value;
      forall j :: 0 <= j < |alerts| ==>
        alerts[j].severity == "HIGH" && alerts[j].alertTime == now && alerts[j].transactionId == event.transaction.transactionId
        && (alerts[j].ruleName == RuleName(HighRiskCountryRule) || alerts[j].ruleName == RuleName(ThresholdAvoidanceRule))
  {
    var r := FiredRules(EngineRules, event);
    if r.Some? {
      var alerts := RuleAlerts(EngineRules, event, now).value;
      forall j | 0 <= j < |alerts|
        ensures alerts[j].severity == "HIGH" && alerts[j].alertTime == now && alerts[j].transactionId == event.transaction.transactionId
        && (alerts[j].ruleName == RuleName(HighRiskCountryRule) || alerts[j].ruleName == RuleName(ThresholdAvoidanceRule))
      {
        var rule := r.value[j];
        assert alerts[j] == CreateFraudAlert(event.transaction.transactionId, rule, now);
        assert rule in EngineRules;
        RuleSeverity(rule);
      }
    }
  }
}
