/** The demonstration rule sets of the logic-engine module and the outcomes their
    contexts produce. The rules read the context with Python's `dict.get`, compare with
    Python's int/bool/str semantics and render values with `str`. */
module LogicDemo {
  import opened Wrappers
  import opened Strings
  import opened LogicEngine

  /** `ctx.get(key)`. */
  function Get(ctx: Context, key: string): Option<Value> {
    if key in ctx then Some(ctx[key]) else None
  }

  /** `ctx.get(key, default)`. */
  function GetOr(ctx: Context, key: string, default: Value): Value {
    if key in ctx then ctx[key] else default
  }

  /** Python truthiness of a context value. */
  predicate PyTruthy(v: Value) {
    match v
    case IntV(i) => i != 0
    case BoolV(b) => b
    case StrV(s) => s != ""
  }

  /** The message Python raises when a string is ordered against an int. */
  function CompareError(op: string): string {
    "'" + op + "' not supported between instances of 'str' and 'int'"
  }

  /** `v >= bound` (`strict` false) or `v > bound` (`strict` true) in Python: a bool
      compares as 0 or 1, a string raises `TypeError`. */
  function Compare(v: Value, bound: int, strict: bool): (r: Eval<bool>)
    ensures r.Raised? <==> v.StrV?
    ensures v.IntV? ==> r == Ok(if strict then v.i > bound else v.i >= bound)
  {
    match v
    case IntV(i) => Ok(if strict then i > bound else i >= bound)
    case BoolV(b) =>
      var i := if b then 1 else 0;
      Ok(if strict then i > bound else i >= bound)
    case StrV(_) => Raised(CompareError(if strict then ">" else ">="))
  }

  /** `str(ctx.get(key))` inside an f-string. */
  function Render(v: Option<Value>): string {
    match v
    case None => "None"
    case Some(IntV(i)) => IntToString(i)
    case Some(BoolV(b)) => if b then "True" else "False"
    case Some(StrV(s)) => s
  }

  const BulkDiscount: Rule := Rule(
    "Bulk Discount",
    ctx => Compare(GetOr(ctx, "quantity", IntV(0)), 10, false),
    ctx => Ok("Applied 20% bulk discount"))

  const NewCustomerWelcome: Rule := Rule(
    "New Customer Welcome",
    ctx => Ok(PyTruthy(GetOr(ctx, "is_new_customer", BoolV(false)))),
    ctx => Ok("Applied 10% new customer discount"))

  const PremiumMemberPerk: Rule := Rule(
    "Premium Member Perk",
    ctx => Ok(Get(ctx, "membership_tier") == Some(StrV("premium"))),
    ctx => Ok("Applied 15% premium member discount"))

  const WinterSale: Rule := Rule(
    "Winter Sale",
    ctx => Ok(Get(ctx, "month") in [Some(StrV("December")), Some(StrV("January")), Some(StrV("February"))]),
    ctx => Ok("Applied 25% winter sale discount"))

  const HighValueOrderBonus: Rule := Rule(
    "High Value Order Bonus",
    ctx => Compare(GetOr(ctx, "order_total", IntV(0)), 500, true),
    ctx => Ok("Applied $50 bonus credit (order total: $" + Render(Get(ctx, "order_total")) + ")"))

  /** The premium-or-VIP test of the loyalty rule, after its points test (`and` stops
      at a false or raising left side). */
  function LoyaltyCondition(ctx: Context): Eval<bool> {
    match Compare(GetOr(ctx, "loyalty_points", IntV(0)), 1000, true)
    case Raised(m) => Raised(m)
    case Ok(enough) =>
      if !enough then Ok(false)
      else Ok(Get(ctx, "membership_tier") in [Some(StrV("premium")), Some(StrV("vip"))])
  }

  const LoyaltyPointsBonus: Rule := Rule(
    "Loyalty Points Bonus",
    LoyaltyCondition,
    ctx => Ok("Added 500 bonus loyalty points (current: " + Render(Get(ctx, "loyalty_points")) + ")"))

  /** The six rules of the extended solution, in the order they are added. */
  const SolutionRules: seq<Rule> :=
    [BulkDiscount, NewCustomerWelcome, PremiumMemberPerk, WinterSale, HighValueOrderBonus, LoyaltyPointsBonus]

  /** The solution's comprehensive scenario: a VIP member's high-value winter order. */
  const SolutionContext: Context := map[
    "quantity" := IntV(15), "is_new_customer" := BoolV(false), "membership_tier" := StrV("vip"),
    "month" := StrV("January"), "order_total" := IntV(650), "loyalty_points" := IntV(1500)]

  lemma RenderSolutionNumbers()
    ensures Render(Some(IntV(650))) == "650" && Render(Some(IntV(1500))) == "1500"
  {
    assert NatToString(6) == "6" && NatToString(65) == "65" && NatToString(650) == "650";
    assert NatToString(1) == "1" && NatToString(15) == "15" && NatToString(150) == "150";
    assert NatToString(1500) == "1500";
  }

  /** Evaluation of a list of rules, one rule at a time from the front. */
  lemma EvaluateCons(r: Rule, rest: seq<Rule>, ctx: Context)
    ensures Evaluate([r] + rest, ctx) == Entry(r, ctx) + Evaluate(rest, ctx)
  {
    EvaluateConcat([r], rest, ctx);
    assert [r][..0] == [];
  }

  /** Evaluation of a six-rule list is the six entries in order. */
  lemma EvaluateSix(rules: seq<Rule>, ctx: Context)
    requires |rules| == 6
    ensures Evaluate(rules, ctx) == Entry(rules[0], ctx) + Entry(rules[1], ctx) + Entry(rules[2], ctx)
                                  + Entry(rules[3], ctx) + Entry(rules[4], ctx) + Entry(rules[5], ctx)
  {
    assert rules == [rules[0]] + ([rules[1]] + ([rules[2]] + ([rules[3]] + ([rules[4]] + ([rules[5]] + [])))));
    EvaluateCons(rules[5], [], ctx);
    EvaluateCons(rules[4], [rules[5]], ctx);
    EvaluateCons(rules[3], [rules[4]] + [rules[5]], ctx);
    EvaluateCons(rules[2], [rules[3]] + ([rules[4]] + [rules[5]]), ctx);
    EvaluateCons(rules[1], [rules[2]] + ([rules[3]] + ([rules[4]] + [rules[5]])), ctx);
    EvaluateCons(rules[0], [rules[1]] + ([rules[2]] + ([rules[3]] + ([rules[4]] + [rules[5]]))), ctx);
    assert [rules[5]] + [] == [rules[5]];
  }

  lemma SolutionBulk()
    ensures Entry(BulkDiscount, SolutionContext) == [Fired("Bulk Discount", "Applied 20% bulk discount")]
  {
    var ctx := SolutionContext;
    assert GetOr(ctx, "quantity", IntV(0)) == IntV(15);
    assert BulkDiscount.condition(ctx) == Ok(true);
    assert BulkDiscount.action(ctx) == Ok("Applied 20% bulk discount");
    assert BulkDiscount.name == "Bulk Discount";
  }

  lemma SolutionNotNew()
    ensures Entry(NewCustomerWelcome, SolutionContext) == []
  {
    var ctx := SolutionContext;
    assert GetOr(ctx, "is_new_customer", BoolV(false)) == BoolV(false);
    assert NewCustomerWelcome.condition(ctx) == Ok(false);
  }

  lemma SolutionWinter()
    ensures Entry(WinterSale, SolutionContext) == [Fired("Winter Sale", "Applied 25% winter sale discount")]
  {
    var ctx := SolutionContext;
    assert Get(ctx, "month") == Some(StrV("January"));
    assert WinterSale.condition(ctx) == Ok(true);
    assert WinterSale.action(ctx) == Ok("Applied 25% winter sale discount");
    assert WinterSale.name == "Winter Sale";
  }

  lemma SolutionHighValue()
    ensures Entry(HighValueOrderBonus, SolutionContext) ==
      [Fired("High Value Order Bonus", "Applied $50 bonus credit (order total: $650)")]
  {
    var ctx := SolutionContext;
    RenderSolutionNumbers();
    assert GetOr(ctx, "order_total", IntV(0)) == IntV(650);
    assert Get(ctx, "order_total") == Some(IntV(650));
    assert HighValueOrderBonus.condition(ctx) == Ok(true);
    var result := "Applied $50 bonus credit (order total: $" + "650" + ")";
    assert result == "Applied $50 bonus credit (order total: $650)";
    assert HighValueOrderBonus.action(ctx) == Ok(result);
    assert HighValueOrderBonus.name == "High Value Order Bonus";
  }

  lemma SolutionLoyalty()
    ensures Entry(LoyaltyPointsBonus, SolutionContext) ==
      [Fired("Loyalty Points Bonus", "Added 500 bonus loyalty points (current: 1500)")]
  {
    var ctx := SolutionContext;
    RenderSolutionNumbers();
    assert GetOr(ctx, "loyalty_points", IntV(0)) == IntV(1500);
    assert Get(ctx, "loyalty_points") == Some(IntV(1500));
    assert Get(ctx, "membership_tier") == Some(StrV("vip"));
    assert LoyaltyPointsBonus.condition(ctx) == Ok(true);
    var result := "Added 500 bonus loyalty points (current: " + "1500" + ")";
    assert result == "Added 500 bonus loyalty points (current: 1500)";
    assert LoyaltyPointsBonus.action(ctx) == Ok(result);
    assert LoyaltyPointsBonus.name == "Loyalty Points Bonus";
  }

  /** The as-written perk stays silent for a VIP member. */
  lemma SolutionPerkSilent()
    ensures PremiumMemberPerk.condition(SolutionContext) == Ok(false)
    ensures Entry(PremiumMemberPerk, SolutionContext) == []
  {
    assert Get(SolutionContext, "membership_tier") == Some(StrV("vip"));
  }

  /** The comprehensive scenario reports four actions. The Premium Member Perk does not
      fire, because its condition compares the tier with "premium" only and the tier here
      is "vip". */
  lemma SolutionDemo()
    ensures Evaluate(SolutionRules, SolutionContext) == [
      Fired("Bulk Discount", "Applied 20% bulk discount"),
      Fired("Winter Sale", "Applied 25% winter sale discount"),
      Fired("High Value Order Bonus", "Applied $50 bonus credit (order total: $650)"),
      Fired("Loyalty Points Bonus", "Added 500 bonus loyalty points (current: 1500)")]
    ensures PremiumMemberPerk.condition(SolutionContext) == Ok(false)
  {
    EvaluateSix(SolutionRules, SolutionContext);
    SolutionBulk(); SolutionNotNew(); SolutionPerkSilent();
    SolutionWinter(); SolutionHighValue(); SolutionLoyalty();
  }

  /** The premium perk with the tier test the demonstration's expected output relies on:
      premium or VIP, as the loyalty rule already has it. */
  const CorrectedPremiumMemberPerk: Rule := Rule(
    "Premium Member Perk",
    ctx => Ok(Get(ctx, "membership_tier") in [Some(StrV("premium")), Some(StrV("vip"))]),
    ctx => Ok("Applied 15% premium member discount"))

  const CorrectedSolutionRules: seq<Rule> :=
    [BulkDiscount, NewCustomerWelcome, CorrectedPremiumMemberPerk, WinterSale, HighValueOrderBonus, LoyaltyPointsBonus]

  lemma SolutionPerkCorrected()
    ensures Entry(CorrectedPremiumMemberPerk, SolutionContext) ==
      [Fired("Premium Member Perk", "Applied 15% premium member discount")]
  {
    var ctx := SolutionContext;
    assert Get(ctx, "membership_tier") == Some(StrV("vip"));
    assert CorrectedPremiumMemberPerk.condition(ctx) == Ok(true);
    assert CorrectedPremiumMemberPerk.action(ctx) == Ok("Applied 15% premium member discount");
    assert CorrectedPremiumMemberPerk.name == "Premium Member Perk";
  }

  /** With the corrected perk, the comprehensive scenario reports the five actions its
      expected output lists, in that order. */
  lemma CorrectedSolutionDemo()
    ensures Evaluate(CorrectedSolutionRules, SolutionContext) == [
      Fired("Bulk Discount", "Applied 20% bulk discount"),
      Fired("Premium Member Perk", "Applied 15% premium member discount"),
      Fired("Winter Sale", "Applied 25% winter sale discount"),
      Fired("High Value Order Bonus", "Applied $50 bonus credit (order total: $650)"),
      Fired("Loyalty Points Bonus", "Added 500 bonus loyalty points (current: 1500)")]
  {
    EvaluateSix(CorrectedSolutionRules, SolutionContext);
    SolutionBulk(); SolutionNotNew(); SolutionPerkCorrected();
    SolutionWinter(); SolutionHighValue(); SolutionLoyalty();
  }

  /** The corrected perk agrees with the original on every tier but "vip". */
  lemma CorrectedPerkDiffersOnlyForVip(ctx: Context)
    ensures CorrectedPremiumMemberPerk.condition(ctx) != PremiumMemberPerk.condition(ctx)
            <==> Get(ctx, "membership_tier") == Some(StrV("vip"))
  {
  }

  // ---------------------------------------------------------------------------
  // The starter template's three scenarios
  // ---------------------------------------------------------------------------

  const StarterRules: seq<Rule> := [BulkDiscount, NewCustomerWelcome, PremiumMemberPerk]

  /** Evaluation of a three-rule list is the three entries in order. */
  lemma EvaluateThree(rules: seq<Rule>, ctx: Context)
    requires |rules| == 3
    ensures Evaluate(rules, ctx) == Entry(rules[0], ctx) + Entry(rules[1], ctx) + Entry(rules[2], ctx)
  {
    assert rules == [rules[0]] + ([rules[1]] + ([rules[2]] + []));
    EvaluateCons(rules[2], [], ctx);
    EvaluateCons(rules[1], [rules[2]], ctx);
    EvaluateCons(rules[0], [rules[1]] + [rules[2]], ctx);
    assert [rules[2]] + [] == [rules[2]];
  }

  /** The starter's three scenarios and a context whose quantity is a string. */
  const PremiumBulkContext: Context :=
    map["quantity" := IntV(12), "is_new_customer" := BoolV(false), "membership_tier" := StrV("premium")]
  const NewCustomerContext: Context :=
    map["quantity" := IntV(5), "is_new_customer" := BoolV(true), "membership_tier" := StrV("regular")]
  const RegularSmallContext: Context :=
    map["quantity" := IntV(3), "is_new_customer" := BoolV(false), "membership_tier" := StrV("regular")]
  const StringQuantityContext: Context :=
    map["quantity" := StrV("12"), "is_new_customer" := BoolV(true)]

  /** Scenario 1: a premium member buying 12 items gets the bulk and premium discounts. */
  lemma StarterScenarioPremiumBulk()
    ensures Evaluate(StarterRules, PremiumBulkContext)
      == [Fired("Bulk Discount", "Applied 20% bulk discount"), Fired("Premium Member Perk", "Applied 15% premium member discount")]
  {
    var ctx := PremiumBulkContext;
    EvaluateThree(StarterRules, ctx);
    assert GetOr(ctx, "quantity", IntV(0)) == IntV(12);
    assert BulkDiscount.condition(ctx) == Ok(true);
    assert BulkDiscount.action(ctx) == Ok("Applied 20% bulk discount");
    assert BulkDiscount.name == "Bulk Discount";
    assert GetOr(ctx, "is_new_customer", BoolV(false)) == BoolV(false);
    assert Entry(NewCustomerWelcome, ctx) == [];
    assert Get(ctx, "membership_tier") == Some(StrV("premium"));
    assert PremiumMemberPerk.condition(ctx) == Ok(true);
    assert PremiumMemberPerk.action(ctx) == Ok("Applied 15% premium member discount");
    assert PremiumMemberPerk.name == "Premium Member Perk";
  }

  /** Scenario 2: a new customer buying 5 items gets the welcome discount only. */
  lemma StarterScenarioNewCustomer()
    ensures Evaluate(StarterRules, NewCustomerContext)
      == [Fired("New Customer Welcome", "Applied 10% new customer discount")]
  {
    var ctx := NewCustomerContext;
    EvaluateThree(StarterRules, ctx);
    assert GetOr(ctx, "quantity", IntV(0)) == IntV(5);
    assert Entry(BulkDiscount, ctx) == [];
    assert GetOr(ctx, "is_new_customer", BoolV(false)) == BoolV(true);
    assert NewCustomerWelcome.condition(ctx) == Ok(true);
    assert NewCustomerWelcome.action(ctx) == Ok("Applied 10% new customer discount");
    assert NewCustomerWelcome.name == "New Customer Welcome";
    assert Get(ctx, "membership_tier") == Some(StrV("regular"));
    assert Entry(PremiumMemberPerk, ctx) == [];
  }

  /** Scenario 3: a regular member buying 3 items gets nothing. */
  lemma StarterScenarioNothing()
    ensures Evaluate(StarterRules, RegularSmallContext) == []
  {
    var ctx := RegularSmallContext;
    EvaluateThree(StarterRules, ctx);
    assert GetOr(ctx, "quantity", IntV(0)) == IntV(3);
    assert GetOr(ctx, "is_new_customer", BoolV(false)) == BoolV(false);
    assert Get(ctx, "membership_tier") == Some(StrV("regular"));
    assert Entry(BulkDiscount, ctx) == [] && Entry(NewCustomerWelcome, ctx) == [] && Entry(PremiumMemberPerk, ctx) == [];
  }

  /** A rule that raises is reported as an error and the later rules still run: a
      quantity given as a string makes the bulk rule's comparison raise. */
  lemma StarterErrorCaptured()
    ensures Evaluate(StarterRules, StringQuantityContext)
      == [Failed("Bulk Discount", CompareError(">=")),
          Fired("New Customer Welcome", "Applied 10% new customer discount")]
  {
    var ctx := StringQuantityContext;
    EvaluateThree(StarterRules, ctx);
    BulkRaises();
    assert GetOr(ctx, "is_new_customer", BoolV(false)) == BoolV(true);
    assert NewCustomerWelcome.condition(ctx) == Ok(true);
    assert NewCustomerWelcome.action(ctx) == Ok("Applied 10% new customer discount");
    assert NewCustomerWelcome.name == "New Customer Welcome";
    assert Get(ctx, "membership_tier") == None;
    assert Entry(PremiumMemberPerk, ctx) == [];
  }

  lemma BulkRaises()
    ensures Entry(BulkDiscount, StringQuantityContext)
      == [Failed("Bulk Discount", CompareError(">="))]
  {
    var ctx := StringQuantityContext;
    assert GetOr(ctx, "quantity", IntV(0)) == StrV("12");
    assert BulkDiscount.condition(ctx) == Raised(CompareError(">="));
    assert BulkDiscount.name == "Bulk Discount";
  }
}
