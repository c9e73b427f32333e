/** The rule engine of the logic-engine module: an ordered list of named rules, each a
    condition and an action over a context dictionary. Evaluation runs every rule in
    order and reports what fired, turning an exception in a rule into an error entry. */
module LogicEngine {
  import opened Wrappers
  import opened Strings

  /** The context values the rules read: Python ints, bools and strings. */
  datatype Value = IntV(i: int) | BoolV(b: bool) | StrV(s: string)

  /** The context dictionary. */
  type Context = map<string, Value>

  /** What running a rule's condition or action gives: a value, or a raised instance of
      an `Exception` subclass together with its `str`. */
  datatype Eval<T> = Ok(value: T) | Raised(message: string)

  /** A rule; its condition already includes Python's truthiness test. */
  datatype Rule = Rule(name: string, condition: Context -> Eval<bool>, action: Context -> Eval<string>)

  /** The report line of a rule that fired: `"name: result"`. */
  function Fired(name: string, result: string): string {
    name + ": " + result
  }

  /** The report line of a rule that raised: `"name: ERROR - msg"`. */
  function Failed(name: string, message: string): string {
    name + ": ERROR - " + message
  }

  /** What evaluating one rule adds to the report: nothing when its condition is false,
      a `Fired` line when it fired, a `Failed` line when either part raised. */
  function Entry(r: Rule, ctx: Context): seq<string> {
    match r.condition(ctx)
    case Raised(m) => [Failed(r.name, m)]
    case Ok(fires) =>
      if !fires then []
      else
        match r.action(ctx)
        case Ok(result) => [Fired(r.name, result)]
        case Raised(m) => [Failed(r.name, m)]
  }

  /** A rule fires, or fails, exactly when its condition is not a clean false; its entry
      is then one line headed by its name. */
  lemma EntryShape(r: Rule, ctx: Context)
    ensures Entry(r, ctx) == [] <==> r.condition(ctx) == Ok(false)
    ensures |Entry(r, ctx)| <= 1
    ensures Entry(r, ctx) != [] ==> StartsWith(Entry(r, ctx)[0], r.name + ": ")
  {
    var e := Entry(r, ctx);
    if e != [] {
      var line := e[0];
      var head := r.name + ": ";
      assert line[..|head|] == head;
    }
  }

  // ---------------------------------------------------------------------------
  // The rule list
  // ---------------------------------------------------------------------------

  /** `add_rule`: the new rule goes to the end. */
  function AddRule(rules: seq<Rule>, r: Rule): (rules': seq<Rule>)
    ensures |rules'| == |rules| + 1 && rules'[..|rules|] == rules && rules'[|rules|] == r
  {
    rules + [r]
  }

  /** `remove_rule(name)`: every rule of that name goes; the rest keep their order. */
  function RemoveRule(rules: seq<Rule>, name: string): (rules': seq<Rule>)
    ensures |rules'| <= |rules|
    ensures forall i :: 0 <= i < |rules'| ==> rules'[i].name != name
  {
    if rules == [] then []
    else
      var rest := RemoveRule(rules[..|rules| - 1], name);
      var last := rules[|rules| - 1];
      if last.name == name then rest else rest + [last]
  }

  /** The number of rules called `name`. */
  function CountNamed(rules: seq<Rule>, name: string): (n: nat)
    ensures n <= |rules|
  {
    if rules == [] then 0
    else CountNamed(rules[..|rules| - 1], name) + (if rules[|rules| - 1].name == name then 1 else 0)
  }

  /** Removing works piece by piece: what is left of a concatenation is what is left of
      each part, in the same order. */
  lemma {:induction false} RemoveRuleConcat(a: seq<Rule>, b: seq<Rule>, name: string)
    ensures RemoveRule(a + b, name) == RemoveRule(a, name) + RemoveRule(b, name)
  {
    if b == [] {
      assert a + b == a;
    } else {
      var init := b[..|b| - 1];
      assert (a + b)[..|a + b| - 1] == a + init;
      RemoveRuleConcat(a, init, name);
    }
  }

  /** Exactly the rules called `name` go. */
  lemma {:induction false} RemoveRuleCount(rules: seq<Rule>, name: string)
    ensures |RemoveRule(rules, name)| == |rules| - CountNamed(rules, name)
  {
    if rules != [] {
      RemoveRuleCount(rules[..|rules| - 1], name);
    }
  }

  /** Removing an absent name changes nothing. */
  lemma {:induction false} RemoveAbsent(rules: seq<Rule>, name: string)
    requires forall i :: 0 <= i < |rules| ==> rules[i].name != name
    ensures RemoveRule(rules, name) == rules
  {
    if rules != [] {
      RemoveAbsent(rules[..|rules| - 1], name);
    }
  }

  /** Removing twice is removing once. */
  lemma RemoveRuleIdempotent(rules: seq<Rule>, name: string)
    ensures RemoveRule(RemoveRule(rules, name), name) == RemoveRule(rules, name)
  {
    RemoveAbsent(RemoveRule(rules, name), name);
  }

  /** Adding a rule and then removing its name is removing the name. */
  lemma RemoveAfterAdd(rules: seq<Rule>, r: Rule)
    ensures RemoveRule(AddRule(rules, r), r.name) == RemoveRule(rules, r.name)
  {
    assert AddRule(rules, r)[..|rules|] == rules;
  }

  // ---------------------------------------------------------------------------
  // Evaluation
  // ---------------------------------------------------------------------------

  /** `evaluate(context)`: the entries of the rules, in rule order. */
  function Evaluate(rules: seq<Rule>, ctx: Context): seq<string> {
    if rules == [] then []
    else Evaluate(rules[..|rules| - 1], ctx) + Entry(rules[|rules| - 1], ctx)
  }

  /** The number of rules whose condition is not a clean false at `ctx`. */
  function CountFiring(rules: seq<Rule>, ctx: Context): (n: nat)
    ensures n <= |rules|
  {
    if rules == [] then 0
    else CountFiring(rules[..|rules| - 1], ctx) + (if rules[|rules| - 1].condition(ctx) == Ok(false) then 0 else 1)
  }

  /** One entry per rule that fired or failed, so never more entries than rules. */
  lemma {:induction false} EvaluateLength(rules: seq<Rule>, ctx: Context)
    ensures |Evaluate(rules, ctx)| == CountFiring(rules, ctx) <= |rules|
  {
    if rules != [] {
      EvaluateLength(rules[..|rules| - 1], ctx);
      EntryShape(rules[|rules| - 1], ctx);
    }
  }

  /** The report of a concatenation is the two reports in order. */
  lemma {:induction false} EvaluateConcat(a: seq<Rule>, b: seq<Rule>, ctx: Context)
    ensures Evaluate(a + b, ctx) == Evaluate(a, ctx) + Evaluate(b, ctx)
  {
    if b == [] {
      assert a + b == a;
    } else {
      var init := b[..|b| - 1];
      assert (a + b)[..|a + b| - 1] == a + init;
      EvaluateConcat(a, init, ctx);
    }
  }

  /** An added rule reports last. */
  lemma EvaluateAfterAdd(rules: seq<Rule>, r: Rule, ctx: Context)
    ensures Evaluate(AddRule(rules, r), ctx) == Evaluate(rules, ctx) + Entry(r, ctx)
  {
    assert AddRule(rules, r)[..|rules|] == rules;
  }

  /** Rules whose conditions are all false report nothing. */
  lemma {:induction false} EvaluateQuiet(rules: seq<Rule>, ctx: Context)
    requires forall i :: 0 <= i < |rules| ==> rules[i].condition(ctx) == Ok(false)
    ensures Evaluate(rules, ctx) == []
  {
    if rules != [] {
      EvaluateQuiet(rules[..|rules| - 1], ctx);
    }
  }

  /** The `for rule in self.rules` loop of `evaluate`, with its `try`/`except`. */
  method EvaluateLoop(rules: seq<Rule>, ctx: Context) returns (actionsTaken: seq<string>)
    ensures actionsTaken == Evaluate(rules, ctx)
    ensures |actionsTaken| <= |rules|
  {
    actionsTaken := [];
    var i := 0;
    while i < |rules|
      invariant 0 <= i <= |rules|
      invariant actionsTaken == Evaluate(rules[..i], ctx)
    {
      var rule := rules[i];
      assert rules[..i + 1][..i] == rules[..i];
      match rule.condition(ctx) {
        case Raised(m) =>
          actionsTaken := actionsTaken + [Failed(rule.name, m)];
        case Ok(fires) =>
          if fires {
            match rule.action(ctx) {
              case Ok(result) => actionsTaken := actionsTaken + [Fired(rule.name, result)];
              case Raised(m) => actionsTaken := actionsTaken + [Failed(rule.name, m)];
            }
          }
      }
      i := i + 1;
    }
    assert rules[..i] == rules;
    EvaluateLength(rules, ctx);
  }
}
