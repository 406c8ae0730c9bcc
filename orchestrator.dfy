/**
 * The pipeline's control skeleton (src/pipeline/orchestrator.py): load and validate a scenario,
 * snapshot the budget, apply the change, run the analysis steps, and restore the budget on every
 * way out. Loading a scenario and the analysis steps (forecast, insights, offsets, trade-offs,
 * narrative) are parameters; an analysis step that raises is a `Failure` carrying its message.
 */
module Orchestrator {
  import opened Wrappers
  import opened DataModels
  import opened ScenarioLoader
  import opened BudgetApplier

  /** The summary returned in place of an exception, carrying the exception's message. */
  function ErrorSummary(id: string, msg: string): (n: NarrativeSummary)
    ensures IsErrorSummary(n, id)
    ensures n.executiveSummary[|"Error processing scenario: "|..] == msg
    ensures n.narrative[|"The analysis pipeline encountered an error: "|..] == msg
  {
    NarrativeSummary(
      id,
      "Error processing scenario: " + msg,
      ["Analysis could not be completed due to errors"],
      ["Please review the scenario manually"],
      ["Error in analysis pipeline"],
      "The analysis pipeline encountered an error: " + msg)
  }

  /** An error summary for a scenario: its id and the fixed texts. */
  predicate IsErrorSummary(n: NarrativeSummary, id: string) {
    && n.scenarioId == id
    && |"Error processing scenario: "| <= |n.executiveSummary|
    && n.executiveSummary[..|"Error processing scenario: "|] == "Error processing scenario: "
    && n.keyFindings == ["Analysis could not be completed due to errors"]
    && n.recommendations == ["Please review the scenario manually"]
    && n.strategicImplications == ["Error in analysis pipeline"]
    && |"The analysis pipeline encountered an error: "| <= |n.narrative|
    && n.narrative[..|"The analysis pipeline encountered an error: "|] == "The analysis pipeline encountered an error: "
  }

  /** The stored snapshot would restore the budget as it stands (or there is none). */
  predicate Consistent(budget: seq<Row>, stored: Option<BudgetSnapshot>) {
    Restored(budget, stored) == budget
  }

  /** The snapshot a call takes, if it gets that far: the scenario loads, validates, and the budget converts. */
  function Snapped(budget: seq<Row>, fc: FundingConstraint, id: string, load: string -> Option<Scenario>): Option<BudgetSnapshot> {
    var s := load(id);
    if s.None? || !ValidateScenario(fc, s.value) then None
    else
      match SnapshotOf(budget)
      case Failure(_) => None
      case Success(snap) => Some(snap)
  }

  /** A snapshot field after a call: the new snapshot if one was taken, the previous one otherwise. */
  function Advance(previous: Option<BudgetSnapshot>, taken: Option<BudgetSnapshot>): Option<BudgetSnapshot> {
    if taken.Some? then taken else previous
  }

  /** What one `process_scenario` call returns, and the budget and stored snapshot it leaves. */
  datatype Outcome = Outcome(summary: NarrativeSummary, budget: seq<Row>, stored: Option<BudgetSnapshot>)

  /** `process_scenario`, step by step, with the exception handler's restore on every failure. */
  function ProcessOutcome(
    budget: seq<Row>, stored: Option<BudgetSnapshot>, fc: FundingConstraint, id: string,
    load: string -> Option<Scenario>,
    analyse: (Scenario, seq<BudgetDelta>, seq<Row>) -> Result<NarrativeSummary, string>): Outcome
  {
    var s := load(id);
    if s.None? then
      Outcome(ErrorSummary(id, "Failed to load scenario " + id), Restored(budget, stored), stored)
    else if !ValidateScenario(fc, s.value) then
      Outcome(ErrorSummary(id, "Scenario " + id + " is invalid"), Restored(budget, stored), stored)
    else
      match SnapshotOf(budget)
      case Failure(e) => Outcome(ErrorSummary(id, e), Restored(budget, stored), stored)
      case Success(snap) =>
        var (changed, deltas) := ApplyChangesSpec(budget, s.value);
        var restored := Restored(changed, Some(snap));
        match analyse(s.value, deltas, changed)
        case Success(n) => Outcome(n, restored, Some(snap))
        case Failure(e) => Outcome(ErrorSummary(id, e), restored, Some(snap))
  }

  /**
   * A call that fails before its snapshot (no scenario, an invalid one, or a budget that does
   * not convert) returns an error summary and restores the snapshot of an earlier call, if any;
   * without one the budget is left as it was.
   */
  lemma FailureBeforeSnapshot(
    budget: seq<Row>, stored: Option<BudgetSnapshot>, fc: FundingConstraint, id: string,
    load: string -> Option<Scenario>,
    analyse: (Scenario, seq<BudgetDelta>, seq<Row>) -> Result<NarrativeSummary, string>)
    requires Snapped(budget, fc, id, load).None?
    ensures var o := ProcessOutcome(budget, stored, fc, id, load, analyse);
      && IsErrorSummary(o.summary, id)
      && o.stored == stored
      && o.budget == Restored(budget, stored)
      && (stored.None? ==> o.budget == budget)
  {
  }

  /**
   * A call that takes its snapshot stores it and ends with the budget exactly as it found it,
   * whether the analysis succeeds (its narrative is returned) or raises (an error summary is).
   */
  lemma AfterSnapshot(
    budget: seq<Row>, stored: Option<BudgetSnapshot>, fc: FundingConstraint, id: string,
    load: string -> Option<Scenario>,
    analyse: (Scenario, seq<BudgetDelta>, seq<Row>) -> Result<NarrativeSummary, string>)
    requires Snapped(budget, fc, id, load).Some?
    ensures var o := ProcessOutcome(budget, stored, fc, id, load, analyse);
      var s := load(id).value;
      var (changed, deltas) := ApplyChangesSpec(budget, s);
      && o.stored == Snapped(budget, fc, id, load)
      && o.budget == budget
      && Consistent(o.budget, o.stored)
      && (analyse(s, deltas, changed).Success? ==> o.summary == analyse(s, deltas, changed).value)
      && (analyse(s, deltas, changed).Failure? ==> IsErrorSummary(o.summary, id))
  {
    var s := load(id).value;
    var (changed, _) := ApplyChangesSpec(budget, s);
    SnapshotRestoreRoundTrip(budget, changed);
    SnapshotRestoreRoundTrip(budget, budget);
  }

  /** A call started from a consistent state leaves the budget as it found it and the state consistent. */
  lemma ProcessKeepsBudget(
    budget: seq<Row>, stored: Option<BudgetSnapshot>, fc: FundingConstraint, id: string,
    load: string -> Option<Scenario>,
    analyse: (Scenario, seq<BudgetDelta>, seq<Row>) -> Result<NarrativeSummary, string>)
    requires Consistent(budget, stored)
    ensures var o := ProcessOutcome(budget, stored, fc, id, load, analyse);
      o.budget == budget && Consistent(o.budget, o.stored)
  {
    if Snapped(budget, fc, id, load).Some? {
      AfterSnapshot(budget, stored, fc, id, load, analyse);
    }
  }

  /** The summary of a call depends on the budget it starts from, not on the stored snapshot. */
  lemma SummaryIgnoresStored(
    budget: seq<Row>, stored: Option<BudgetSnapshot>, fc: FundingConstraint, id: string,
    load: string -> Option<Scenario>,
    analyse: (Scenario, seq<BudgetDelta>, seq<Row>) -> Result<NarrativeSummary, string>)
    ensures ProcessOutcome(budget, stored, fc, id, load, analyse).summary
         == ProcessOutcome(budget, None, fc, id, load, analyse).summary
  {
  }

  /**
   * The results of `process_all_scenarios` and the state it leaves; `rebuilt` tells whether
   * some reset rebuilt the table from a snapshot (which gives a column-less table its columns).
   */
  datatype Run = Run(results: map<string, NarrativeSummary>, budget: seq<Row>, stored: Option<BudgetSnapshot>, recorded: Option<BudgetSnapshot>, rebuilt: bool)

  /** `process_all_scenarios`: every id processed in order from the state the previous one left, a later result for an id replacing an earlier one. */
  function RunAll(
    budget: seq<Row>, stored: Option<BudgetSnapshot>, recorded: Option<BudgetSnapshot>,
    fc: FundingConstraint, ids: seq<string>,
    load: string -> Option<Scenario>,
    analyse: (Scenario, seq<BudgetDelta>, seq<Row>) -> Result<NarrativeSummary, string>): Run
  {
    if ids == [] then Run(map[], budget, stored, recorded, false)
    else
      var init := ids[..|ids| - 1];
      var id := ids[|ids| - 1];
      var before := RunAll(budget, stored, recorded, fc, init, load, analyse);
      var o := ProcessOutcome(before.budget, before.stored, fc, id, load, analyse);
      var taken := Snapped(before.budget, fc, id, load);
      Run(before.results[id := o.summary], o.budget, o.stored, Advance(before.recorded, taken), before.rebuilt || Rebuilds(o.stored))
  }

  /** There is one result per id, whatever failed. */
  lemma {:induction false} RunAllKeys(
    budget: seq<Row>, stored: Option<BudgetSnapshot>, recorded: Option<BudgetSnapshot>,
    fc: FundingConstraint, ids: seq<string>,
    load: string -> Option<Scenario>,
    analyse: (Scenario, seq<BudgetDelta>, seq<Row>) -> Result<NarrativeSummary, string>)
    ensures RunAll(budget, stored, recorded, fc, ids, load, analyse).results.Keys == set id | id in ids
  {
    if ids != [] {
      var init := ids[..|ids| - 1];
      assert ids == init + [ids[|ids| - 1]];
      RunAllKeys(budget, stored, recorded, fc, init, load, analyse);
    }
  }

  /** Running one more id is one more `process_scenario` call from the state the others left. */
  lemma RunAllStep(
    budget: seq<Row>, stored: Option<BudgetSnapshot>, recorded: Option<BudgetSnapshot>,
    fc: FundingConstraint, ids: seq<string>, i: nat,
    load: string -> Option<Scenario>,
    analyse: (Scenario, seq<BudgetDelta>, seq<Row>) -> Result<NarrativeSummary, string>)
    requires i < |ids|
    ensures var before := RunAll(budget, stored, recorded, fc, ids[..i], load, analyse);
      var o := ProcessOutcome(before.budget, before.stored, fc, ids[i], load, analyse);
      RunAll(budget, stored, recorded, fc, ids[..i + 1], load, analyse)
        == Run(before.results[ids[i] := o.summary], o.budget, o.stored,
               Advance(before.recorded, Snapped(before.budget, fc, ids[i], load)),
               before.rebuilt || Rebuilds(o.stored))
  {
    assert ids[..i + 1][..i] == ids[..i];
  }

  /**
   * Scenarios are not cumulative: from a consistent state, every id's result is what
   * processing it alone from the starting budget gives, there is one result per id whatever
   * failed, and the budget ends where it started.
   */
  lemma {:induction false} ScenariosIndependent(
    budget: seq<Row>, stored: Option<BudgetSnapshot>, recorded: Option<BudgetSnapshot>,
    fc: FundingConstraint, ids: seq<string>,
    load: string -> Option<Scenario>,
    analyse: (Scenario, seq<BudgetDelta>, seq<Row>) -> Result<NarrativeSummary, string>)
    requires Consistent(budget, stored)
    ensures var r := RunAll(budget, stored, recorded, fc, ids, load, analyse);
      && r.budget == budget
      && Consistent(r.budget, r.stored)
      && r.results.Keys == set id | id in ids
      && forall id :: id in r.results ==> r.results[id] == ProcessOutcome(budget, None, fc, id, load, analyse).summary
  {
    if ids != [] {
      var init := ids[..|ids| - 1];
      var id := ids[|ids| - 1];
      ScenariosIndependent(budget, stored, recorded, fc, init, load, analyse);
      var before := RunAll(budget, stored, recorded, fc, init, load, analyse);
      ProcessKeepsBudget(before.budget, before.stored, fc, id, load, analyse);
      SummaryIgnoresStored(before.budget, before.stored, fc, id, load, analyse);
    }
    RunAllKeys(budget, stored, recorded, fc, ids, load, analyse);
  }

  class PipelineOrchestrator {
    /** The budget store the pipeline works on. */
    const applier: BudgetScenarioApplier
    /** The funding constraints the loader read. */
    const constraints: FundingConstraint
    /** The snapshot of the last call that took one (`self.budget_snapshot`, absent until then). */
    var budgetSnapshot: Option<BudgetSnapshot>

    constructor (applier: BudgetScenarioApplier, constraints: FundingConstraint)
      ensures this.applier == applier && this.constraints == constraints && budgetSnapshot == None
    {
      this.applier := applier;
      this.constraints := constraints;
      budgetSnapshot := None;
    }

    /** `process_scenario`: never raises; restores the budget and returns an error summary instead. */
    method ProcessScenario(
      id: string,
      load: string -> Option<Scenario>,
      analyse: (Scenario, seq<BudgetDelta>, seq<Row>) -> Result<NarrativeSummary, string>)
      returns (summary: NarrativeSummary)
      modifies this, applier
      ensures var o := ProcessOutcome(old(applier.currentBudget), old(budgetSnapshot), constraints, id, load, analyse);
        summary == o.summary && applier.currentBudget == o.budget && budgetSnapshot == o.stored
      ensures applier.snapshot == Advance(old(applier.snapshot), Snapped(old(applier.currentBudget), constraints, id, load))
      ensures applier.hasColumns == (old(applier.hasColumns) || Rebuilds(budgetSnapshot))
    {
      ghost var o := ProcessOutcome(applier.currentBudget, budgetSnapshot, constraints, id, load, analyse);
      var s := load(id);
      if s.None? {
        applier.ResetToSnapshot(budgetSnapshot);
        return ErrorSummary(id, "Failed to load scenario " + id);
      }
      if !ValidateScenario(constraints, s.value) {
        applier.ResetToSnapshot(budgetSnapshot);
        return ErrorSummary(id, "Scenario " + id + " is invalid");
      }
      ghost var before := applier.currentBudget;
      var snap := applier.TakeSnapshot();
      if snap.Failure? {
        applier.ResetToSnapshot(budgetSnapshot);
        return ErrorSummary(id, snap.error);
      }
      budgetSnapshot := Some(snap.value);
      var deltas := applier.ApplyChanges(s.value);
      var current := applier.GetCurrentBudget();
      assert (current, deltas) == ApplyChangesSpec(before, s.value);
      var narrative := analyse(s.value, deltas, current);
      applier.ResetToSnapshot(budgetSnapshot);
      assert applier.currentBudget == o.budget && budgetSnapshot == o.stored;
      if narrative.Failure? {
        return ErrorSummary(id, narrative.error);
      }
      summary := narrative.value;
    }

    /** `process_all_scenarios`: one call per id, in order, collecting the summaries by id. */
    method ProcessAllScenarios(
      ids: seq<string>,
      load: string -> Option<Scenario>,
      analyse: (Scenario, seq<BudgetDelta>, seq<Row>) -> Result<NarrativeSummary, string>)
      returns (results: map<string, NarrativeSummary>)
      modifies this, applier
      ensures var r := RunAll(old(applier.currentBudget), old(budgetSnapshot), old(applier.snapshot), constraints, ids, load, analyse);
        && results == r.results
        && applier.currentBudget == r.budget
        && budgetSnapshot == r.stored
        && applier.snapshot == r.recorded
        && applier.hasColumns == (old(applier.hasColumns) || r.rebuilt)
    {
      results := map[];
      for i := 0 to |ids|
        invariant var r := RunAll(old(applier.currentBudget), old(budgetSnapshot), old(applier.snapshot), constraints, ids[..i], load, analyse);
          && results == r.results
          && applier.currentBudget == r.budget
          && budgetSnapshot == r.stored
          && applier.snapshot == r.recorded
          && applier.hasColumns == (old(applier.hasColumns) || r.rebuilt)
      {
        RunAllStep(old(applier.currentBudget), old(budgetSnapshot), old(applier.snapshot), constraints, ids, i, load, analyse);
        var narrative := ProcessScenario(ids[i], load, analyse);
        results := results[ids[i] := narrative];
      }
      assert ids[..|ids|] == ids;
    }
  }
}
