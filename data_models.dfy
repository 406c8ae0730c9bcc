/**
 * The records of the budget pipeline and the rules their validators enforce
 * (src/models/data_models.py). Validation that raises in the source returns a Failure here.
 */
module DataModels {
  import opened Wrappers
  import Text

  /** The three change types a scenario can describe. */
  datatype ChangeKind = Percentage | Fixed | Deferral

  /**
   * A scenario as the model class holds it: three optional change fields. Which one is "the"
   * change is decided by precedence (percentage, then fixed_delta, then defer_months).
   */
  datatype Scenario = Scenario(
    id: string,
    targetCategory: string,
    sourceFund: string,
    isMandated: bool,
    isReversible: bool,
    reasonForChange: string,
    percentage: Option<real>,
    fixedDelta: Option<real>,
    deferMonths: Option<int>)

  /** Every two change fields that are both set hold the same value (months compared as reals). */
  predicate SetFieldsAgree(p: Option<real>, f: Option<real>, d: Option<int>) {
    && (p.Some? && f.Some? ==> p.value == f.value)
    && (p.Some? && d.Some? ==> p.value == d.value as real)
    && (f.Some? && d.Some? ==> f.value == d.value as real)
  }

  /**
   * The change-field validator, run on each change field in declaration order. Each run sees
   * only the change fields validated (successfully) before it, and rejects a set field whose
   * value differs from an earlier set one. The result lists the fields whose validator raised.
   */
  function ChangeFieldErrors(p: Option<real>, f: Option<real>, d: Option<int>): (errs: seq<string>)
    ensures errs == [] <==> SetFieldsAgree(p, f, d)
  {
    // percentage is validated first: nothing earlier to compare with
    var fixedFails := f.Some? && p.Some? && p.value != f.value;
    // a field whose validator raised is not visible to later validators
    var seenFixed := if fixedFails then None else f;
    var deferFails := d.Some? &&
      ((p.Some? && p.value != d.value as real) || (seenFixed.Some? && seenFixed.value != d.value as real));
    (if fixedFails then ["fixed_delta"] else []) + (if deferFails then ["defer_months"] else [])
  }

  /** Builds a Scenario, failing as the model's constructor does when the change validator raises. */
  function NewScenario(
    id: string, targetCategory: string, sourceFund: string, isMandated: bool,
    isReversible: bool, reasonForChange: string,
    p: Option<real>, f: Option<real>, d: Option<int>): (r: Result<Scenario, seq<string>>)
    ensures r.Success? <==> SetFieldsAgree(p, f, d)
    ensures r.Success? ==> r.value == Scenario(id, targetCategory, sourceFund, isMandated, isReversible, reasonForChange, p, f, d)
  {
    var errs := ChangeFieldErrors(p, f, d);
    if errs == [] then
      Success(Scenario(id, targetCategory, sourceFund, isMandated, isReversible, reasonForChange, p, f, d))
    else Failure(errs)
  }

  /** `Scenario.type`: the first set change field names the change type; none set raises. */
  function ChangeType(s: Scenario): Result<ChangeKind, string> {
    if s.percentage.Some? then Success(Percentage)
    else if s.fixedDelta.Some? then Success(Fixed)
    else if s.deferMonths.Some? then Success(Deferral)
    else Failure("No change type specified")
  }

  /** `Scenario.value`: the value of the first set change field; none set raises. */
  function ChangeValue(s: Scenario): Result<real, string> {
    if s.percentage.Some? then Success(s.percentage.value)
    else if s.fixedDelta.Some? then Success(s.fixedDelta.value)
    else if s.deferMonths.Some? then Success(s.deferMonths.value as real)
    else Failure("No change value specified")
  }

  /** The value stored in the field that a change type names. */
  function FieldOf(s: Scenario, k: ChangeKind): Option<real> {
    match k
    case Percentage => s.percentage
    case Fixed => s.fixedDelta
    case Deferral => if s.deferMonths.Some? then Some(s.deferMonths.value as real) else None
  }

  /**
   * `type` and `value` agree: both fail exactly when no change field is set, and otherwise the
   * value is the one held by the field the type names, which is the first set field.
   */
  lemma TypeValuePrecedence(s: Scenario)
    ensures ChangeType(s).Success? <==> ChangeValue(s).Success?
    ensures ChangeType(s).Failure? <==> s.percentage.None? && s.fixedDelta.None? && s.deferMonths.None?
    ensures ChangeType(s).Success? ==> FieldOf(s, ChangeType(s).value) == Some(ChangeValue(s).value)
    ensures ChangeType(s) == Success(Fixed) ==> s.percentage.None?
    ensures ChangeType(s) == Success(Deferral) ==> s.percentage.None? && s.fixedDelta.None?
  {
  }

  /**
   * For a scenario the validator accepted, precedence does not change the value: every set
   * change field holds the value `value` reports.
   */
  lemma {:induction false} ValidatedValueIsEverySetField(
    id: string, targetCategory: string, sourceFund: string, isMandated: bool,
    isReversible: bool, reasonForChange: string,
    p: Option<real>, f: Option<real>, d: Option<int>)
    requires NewScenario(id, targetCategory, sourceFund, isMandated, isReversible, reasonForChange, p, f, d).Success?
    ensures var s := NewScenario(id, targetCategory, sourceFund, isMandated, isReversible, reasonForChange, p, f, d).value;
      && (p.Some? ==> ChangeValue(s) == Success(p.value))
      && (f.Some? ==> ChangeValue(s) == Success(f.value))
      && (d.Some? ==> ChangeValue(s) == Success(d.value as real))
  {
  }

  /**
   * The validator compares values, not presence: a percentage of 5 and a deferral of 5 months
   * are accepted together, and the precedence then makes the scenario a percentage change.
   */
  lemma EqualValuesAccepted(id: string, target: string)
    ensures var r := NewScenario(id, target, "", false, false, "", Some(5.0), None, Some(5));
      r.Success? && ChangeType(r.value) == Success(Percentage)
  {
  }

  // ---------------------------------------------------------------------------------------
  // Strategic goals

  const Priorities: seq<string> := ["high", "medium", "low"]
  const GoalTypes: seq<string> := ["performance", "equity", "access", "efficiency"]
  const Horizons: seq<string> := ["short-term", "medium-term", "long-term"]

  datatype StrategicGoal = StrategicGoal(
    category: string, objective: string, priority: string, goalType: string, horizon: string)

  /** The shape of the three enum validators: accept `v` if its lower-casing is allowed, store it lower-cased. */
  function LowerChoice(v: string, allowed: seq<string>): (r: Option<string>)
    ensures r.Some? <==> Text.ToLower(v) in allowed
    ensures r.Some? ==> r.value == Text.ToLower(v)
  {
    var lower := Text.ToLower(v);
    if lower in allowed then Some(lower) else None
  }

  /** The goal model's constructor: each enum field is validated case-insensitively and stored lower-cased. */
  function NewStrategicGoal(category: string, objective: string, priority: string, goalType: string, horizon: string)
    : (r: Result<StrategicGoal, seq<string>>)
    ensures r.Success? <==>
      Text.ToLower(priority) in Priorities && Text.ToLower(goalType) in GoalTypes && Text.ToLower(horizon) in Horizons
    ensures r.Success? ==> r.value == StrategicGoal(category, objective,
      Text.ToLower(priority), Text.ToLower(goalType), Text.ToLower(horizon))
    ensures r.Failure? ==> |r.error| >= 1
  {
    var p := LowerChoice(priority, Priorities);
    var g := LowerChoice(goalType, GoalTypes);
    var h := LowerChoice(horizon, Horizons);
    if p.Some? && g.Some? && h.Some? then
      Success(StrategicGoal(category, objective, p.value, g.value, h.value))
    else
      Failure((if p.None? then ["priority"] else [])
        + (if g.None? then ["goal_type"] else [])
        + (if h.None? then ["horizon"] else []))
  }

  /** A goal as the validators leave it: every enum field is one of the allowed lower-case words. */
  predicate NormalGoal(g: StrategicGoal) {
    g.priority in Priorities && g.goalType in GoalTypes && g.horizon in Horizons
  }

  /** Every allowed word is already lower-case. */
  lemma AllowedWordsAreLower(w: string)
    requires w in Priorities || w in GoalTypes || w in Horizons
    ensures Text.ToLower(w) == w
  {
    Text.ToLowerFixed(w);
  }

  /** A validated goal is normal, and validating it again gives the same goal (idempotence). */
  lemma {:induction false} RevalidateGoal(category: string, objective: string, priority: string, goalType: string, horizon: string)
    requires NewStrategicGoal(category, objective, priority, goalType, horizon).Success?
    ensures var g := NewStrategicGoal(category, objective, priority, goalType, horizon).value;
      NormalGoal(g) && NewStrategicGoal(g.category, g.objective, g.priority, g.goalType, g.horizon) == Success(g)
  {
    var g := NewStrategicGoal(category, objective, priority, goalType, horizon).value;
    AllowedWordsAreLower(g.priority);
    AllowedWordsAreLower(g.goalType);
    AllowedWordsAreLower(g.horizon);
  }

  /** `StrategicGoal.to_dict`: the five fields under their own names. */
  function GoalToDict(g: StrategicGoal): map<string, string> {
    map["category" := g.category, "objective" := g.objective, "priority" := g.priority,
        "goal_type" := g.goalType, "horizon" := g.horizon]
  }

  /** `StrategicGoal(**d)`: a goal from a dictionary; a missing required key fails, extra keys are ignored. */
  function GoalFromDict(d: map<string, string>): Result<StrategicGoal, seq<string>> {
    if "category" in d && "objective" in d && "priority" in d && "goal_type" in d && "horizon" in d then
      NewStrategicGoal(d["category"], d["objective"], d["priority"], d["goal_type"], d["horizon"])
    else Failure(["missing field"])
  }

  /** `to_dict` loses nothing: reading its dictionary back gives the same normal goal. */
  lemma {:induction false} GoalDictRoundTrip(g: StrategicGoal)
    requires NormalGoal(g)
    ensures GoalToDict(g).Keys == {"category", "objective", "priority", "goal_type", "horizon"}
    ensures GoalFromDict(GoalToDict(g)) == Success(g)
  {
    // the five keys are told apart by their first letters
    assert "category"[0] == 'c' && "objective"[0] == 'o' && "priority"[0] == 'p';
    assert "goal_type"[0] == 'g' && "horizon"[0] == 'h';
    var d := GoalToDict(g);
    assert d["category"] == g.category && d["objective"] == g.objective;
    assert d["priority"] == g.priority && d["goal_type"] == g.goalType && d["horizon"] == g.horizon;
    AllowedWordsAreLower(g.priority);
    AllowedWordsAreLower(g.goalType);
    AllowedWordsAreLower(g.horizon);
  }

  // ---------------------------------------------------------------------------------------
  // Budget entries, snapshots and deltas

  const AmountTypes: seq<string> := ["Annual", "Monthly", "Quarterly"]

  datatype BudgetEntry = BudgetEntry(subcategory: string, amount: real, year: int, amountType: string)

  /** The budget-entry model's constructor: amount_type must be one of the three words, exactly. */
  function NewBudgetEntry(subcategory: string, amount: real, year: int, amountType: string)
    : (r: Result<BudgetEntry, string>)
    ensures r.Success? <==> amountType in AmountTypes
    ensures r.Success? ==> r.value == BudgetEntry(subcategory, amount, year, amountType)
  {
    if amountType in AmountTypes then Success(BudgetEntry(subcategory, amount, year, amountType))
    else Failure(ValidationErrorText("BudgetEntry", "amount_type", "Amount type must be one of ['Annual', 'Monthly', 'Quarterly']"))
  }

  /**
   * The text of the validation error a model's constructor raises when one field validator
   * refuses its value (pydantic 1's format: count, model, field, message, error type).
   */
  function ValidationErrorText(model: string, field: string, msg: string): string {
    "1 validation error for " + model + "\n" + field + "\n  " + msg + " (type=value_error)"
  }

  /** The amount-type check is case-sensitive: lower-case "annual" is refused. */
  lemma AmountTypeCaseSensitive(subcategory: string, amount: real, year: int)
    ensures NewBudgetEntry(subcategory, amount, year, "annual").Failure?
    ensures NewBudgetEntry(subcategory, amount, year, "Annual").Success?
  {
    assert "annual"[0] != "Annual"[0] && "annual"[0] != "Monthly"[0] && "annual"[0] != "Quarterly"[0];
  }

  datatype BudgetSnapshot = BudgetSnapshot(subcategory: seq<BudgetEntry>)

  /** The snapshot model's constructor: an empty entry list is refused. */
  function NewSnapshot(entries: seq<BudgetEntry>): (r: Result<BudgetSnapshot, string>)
    ensures r.Success? <==> |entries| > 0
    ensures r.Success? ==> r.value.subcategory == entries
  {
    if |entries| == 0 then Failure("Budget snapshot must contain at least one entry")
    else Success(BudgetSnapshot(entries))
  }

  datatype BudgetDelta = BudgetDelta(category: string, oldAmount: real, newAmount: real, delta: real)

  /**
   * `BudgetDelta.percentage_change`: the relative change in percent; from a zero base it is
   * 100, -100 or 0 by the sign of the delta.
   */
  function PercentageChange(d: BudgetDelta): real {
    if d.oldAmount == 0.0 then
      (if d.delta > 0.0 then 100.0 else if d.delta < 0.0 then -100.0 else 0.0)
    else d.delta / d.oldAmount * 100.0
  }

  /**
   * What the percentage means: from a non-zero base, growing the old amount by that percent
   * adds exactly the delta; from a positive base, or a zero base, its sign is the delta's sign.
   */
  lemma PercentageChangeMeaning(d: BudgetDelta)
    ensures d.oldAmount != 0.0 ==> d.oldAmount + d.oldAmount * PercentageChange(d) / 100.0 == d.oldAmount + d.delta
    ensures d.oldAmount >= 0.0 ==> (PercentageChange(d) > 0.0 <==> d.delta > 0.0)
    ensures d.oldAmount >= 0.0 ==> (PercentageChange(d) < 0.0 <==> d.delta < 0.0)
    ensures d.oldAmount == 0.0 ==> -100.0 <= PercentageChange(d) <= 100.0
  {
    if d.oldAmount > 0.0 {
      var q := d.delta / d.oldAmount;
      assert q * d.oldAmount == d.delta;
      assert q > 0.0 <==> d.delta > 0.0;
      assert q < 0.0 <==> d.delta < 0.0;
    }
  }

  /** The record the narrative step returns, and the one the pipeline returns on error. */
  datatype NarrativeSummary = NarrativeSummary(
    scenarioId: string,
    executiveSummary: string,
    keyFindings: seq<string>,
    recommendations: seq<string>,
    strategicImplications: seq<string>,
    narrative: string)

  datatype Insight = Insight(category: string, insight: string, impact: string, recommendation: string)
}
