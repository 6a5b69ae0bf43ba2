/** The deterministic decision ladder of the policy engine. */
module Policy {
  import opened Records

  datatype Rule = UnknownAction | ScopeDeny | ConditionalApproval | DefaultAllow

  datatype Verdict = Verdict(decision: PolicyDecision, rules: seq<Rule>)

  method Evaluate(ctx: Context, actionType: ActionType) returns (v: Verdict)
    ensures v.decision == Decision(ctx, actionType)
    ensures v ==
      if !actionType.EscalateIncident? then Verdict(Deny, [UnknownAction])
      else
        match ctx.policyScope
        case Phase3Deny => Verdict(Deny, [ScopeDeny])
        case Phase3Conditional => Verdict(Conditional, [ConditionalApproval])
        case OtherScope(_) =>
          if ctx.environment.Prod? then Verdict(Conditional, [ConditionalApproval]) else Verdict(Allow, [DefaultAllow])
  {
    var rules: seq<Rule> := [];
    if !actionType.EscalateIncident? {
      rules := rules + [UnknownAction];
      return Verdict(Deny, rules);
    }
    var scope := ctx.policyScope;
    if scope.Phase3Deny? {
      rules := rules + [ScopeDeny];
      return Verdict(Deny, rules);
    }
    if ctx.environment.Prod? || scope.Phase3Conditional? {
      rules := rules + [ConditionalApproval];
      return Verdict(Conditional, rules);
    }
    rules := rules + [DefaultAllow];
    return Verdict(Allow, rules);
  }

  predicate DeniesEscalation(ctx: Context) {
    ctx.policyScope.Phase3Deny?
  }

  predicate NeedsApproval(ctx: Context) {
    ctx.environment.Prod? || ctx.policyScope.Phase3Conditional?
  }

  /** The order of precedence: denial beats the approval requirement, which beats the
      default. */
  function Decision(ctx: Context, actionType: ActionType): PolicyDecision {
    if !actionType.EscalateIncident? || DeniesEscalation(ctx) then Deny
    else if NeedsApproval(ctx) then Conditional
    else Allow
  }
}
