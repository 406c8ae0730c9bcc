/**
 * The budget store and the two scenario-application paths (src/pipeline/budget_applier.py).
 * The store is a table of rows updated in place; `take_snapshot` copies it into validated
 * entries and `reset_to_snapshot` overwrites it wholesale.
 */
module BudgetApplier {
  import opened Wrappers
  import opened DataModels

  /** One row of the budget table: the four columns the loader requires. */
  datatype Row = Row(subcategory: string, amount: real, year: int, amountType: string)

  /** A row as a validated budget entry (the entry validator may refuse its amount type). */
  function EntryOf(r: Row): Result<BudgetEntry, string> {
    NewBudgetEntry(r.subcategory, r.amount, r.year, r.amountType)
  }

  /** An entry back as a table row. */
  function RowOf(e: BudgetEntry): Row {
    Row(e.subcategory, e.amount, e.year, e.amountType)
  }

  /** The rows converted in order into entries; the first row the validator refuses aborts. */
  function EntriesOf(rows: seq<Row>): Result<seq<BudgetEntry>, string> {
    if rows == [] then Success([])
    else
      match EntriesOf(rows[..|rows| - 1])
      case Failure(e) => Failure(e)
      case Success(es) =>
        match EntryOf(rows[|rows| - 1])
        case Failure(e) => Failure(e)
        case Success(x) => Success(es + [x])
  }

  /** What `take_snapshot` yields for a table. */
  function SnapshotOf(rows: seq<Row>): Result<BudgetSnapshot, string> {
    if |rows| == 0 then Failure("No budget data available")
    else
      match EntriesOf(rows)
      case Failure(e) => Failure(e)
      case Success(es) => NewSnapshot(es)
  }

  /** The table rebuilt from a snapshot's entries. */
  function RowsOf(entries: seq<BudgetEntry>): (rows: seq<Row>)
    ensures |rows| == |entries|
  {
    seq(|entries|, k requires 0 <= k < |entries| => RowOf(entries[k]))
  }

  /** A snapshot `reset_to_snapshot` rebuilds the table from: present and non-empty. */
  predicate Rebuilds(s: Option<BudgetSnapshot>) {
    s.Some? && |s.value.subcategory| > 0
  }

  /** The table `reset_to_snapshot` leaves: unchanged for no snapshot or an empty one, otherwise exactly the snapshot's rows. */
  function Restored(rows: seq<Row>, s: Option<BudgetSnapshot>): seq<Row> {
    if !Rebuilds(s) then rows else RowsOf(s.value.subcategory)
  }

  /** Once a prefix of the rows fails to convert, the whole conversion fails with the same error. */
  lemma {:induction false} EntriesOfFailurePersists(rows: seq<Row>, i: nat)
    requires i <= |rows| && EntriesOf(rows[..i]).Failure?
    ensures EntriesOf(rows) == EntriesOf(rows[..i])
    decreases |rows| - i
  {
    if i < |rows| {
      assert rows[..i + 1][..i] == rows[..i];
      EntriesOfFailurePersists(rows, i + 1);
    } else {
      assert rows[..i] == rows;
    }
  }

  /** Conversion succeeds iff every row has a valid amount type, and then gives one entry per row, in order. */
  lemma {:induction false} EntriesOfSpec(rows: seq<Row>)
    ensures EntriesOf(rows).Success? <==> forall k :: 0 <= k < |rows| ==> rows[k].amountType in AmountTypes
    ensures EntriesOf(rows).Success? ==>
      && |EntriesOf(rows).value| == |rows|
      && (forall k :: 0 <= k < |rows| ==>
            EntriesOf(rows).value[k] == BudgetEntry(rows[k].subcategory, rows[k].amount, rows[k].year, rows[k].amountType))
  {
    if rows != [] {
      var init := rows[..|rows| - 1];
      EntriesOfSpec(init);
      assert forall k :: 0 <= k < |init| ==> init[k] == rows[k];
    }
  }

  /**
   * `take_snapshot` fails on an empty table or when any row is invalid; otherwise its snapshot
   * has exactly one entry per row, in row order.
   */
  lemma {:induction false} SnapshotOfSpec(rows: seq<Row>)
    ensures SnapshotOf(rows).Success? <==>
      |rows| > 0 && forall k :: 0 <= k < |rows| ==> rows[k].amountType in AmountTypes
    ensures SnapshotOf(rows).Success? ==>
      && |SnapshotOf(rows).value.subcategory| == |rows|
      && (forall k :: 0 <= k < |rows| ==>
            SnapshotOf(rows).value.subcategory[k] == BudgetEntry(rows[k].subcategory, rows[k].amount, rows[k].year, rows[k].amountType))
  {
    EntriesOfSpec(rows);
  }

  /** Restoring a snapshot of a table reproduces that table exactly, whatever the table holds meanwhile. */
  lemma {:induction false} SnapshotRestoreRoundTrip(rows: seq<Row>, meanwhile: seq<Row>)
    requires SnapshotOf(rows).Success?
    ensures Restored(meanwhile, Some(SnapshotOf(rows).value)) == rows
  {
    SnapshotOfSpec(rows);
    var es := SnapshotOf(rows).value.subcategory;
    assert forall k :: 0 <= k < |rows| ==> RowsOf(es)[k] == rows[k];
  }

  // ---------------------------------------------------------------------------------------
  // Amount rules of the two application paths

  /** `apply_changes`: a percentage is a fraction, a fixed change is added, a deferral removes value/12 of the amount. */
  function ChangedAmount(k: ChangeKind, v: real, base: real): real {
    match k
    case Percentage => base * (1.0 + v)
    case Fixed => base + v
    case Deferral => base * (1.0 - v / 12.0)
  }

  /** `apply_scenario`: percentage and deferral values are read on a 0-100 scale. */
  function ScenarioAmount(k: ChangeKind, v: real, base: real): real {
    match k
    case Percentage => base * (1.0 + v / 100.0)
    case Fixed => base + v
    case Deferral => base * (1.0 - v / 100.0)
  }

  /** A delta record: delta is the new amount minus the old one. */
  function MakeDelta(c: string, base: real, updated: real): BudgetDelta {
    BudgetDelta(c, base, updated, updated - base)
  }

  /** The subcategory column. */
  function Subcategories(rows: seq<Row>): (cs: seq<string>)
    ensures |cs| == |rows| && forall k :: 0 <= k < |rows| ==> cs[k] == rows[k].subcategory
  {
    seq(|rows|, k requires 0 <= k < |rows| => rows[k].subcategory)
  }

  /** The amounts of the rows whose subcategory is `c`, in row order (the filtered copy of the table). */
  function TargetAmounts(rows: seq<Row>, c: string): (amounts: seq<real>)
    ensures |amounts| <= |rows|
    ensures |amounts| == 0 <==> c !in Subcategories(rows)
  {
    if rows == [] then []
    else
      var init := rows[..|rows| - 1];
      var r := TargetAmounts(init, c);
      assert Subcategories(rows) == Subcategories(init) + [rows[|rows| - 1].subcategory];
      if rows[|rows| - 1].subcategory == c then r + [rows[|rows| - 1].amount] else r
  }

  /** Every row of category `c` gets amount `a` (`.loc[mask, 'amount'] = a`); other rows are kept. */
  function SetAmount(rows: seq<Row>, c: string, a: real): (out: seq<Row>)
    ensures |out| == |rows|
  {
    seq(|rows|, k requires 0 <= k < |rows| =>
      if rows[k].subcategory == c then rows[k].(amount := a) else rows[k])
  }

  /** The first target amount is the amount of the first row of that category. */
  lemma {:induction false} FirstTargetAmount(rows: seq<Row>, c: string, k: nat)
    requires k < |rows| && rows[k].subcategory == c
    requires forall j :: 0 <= j < k ==> rows[j].subcategory != c
    ensures |TargetAmounts(rows, c)| > 0 && TargetAmounts(rows, c)[0] == rows[k].amount
  {
    var init := rows[..|rows| - 1];
    if k < |rows| - 1 {
      FirstTargetAmount(init, c, k);
    } else {
      assert c !in Subcategories(init);
    }
  }

  /** Some row of category `c` holds amount `a`. */
  predicate HasRowWith(rows: seq<Row>, c: string, a: real) {
    exists k :: 0 <= k < |rows| && rows[k].subcategory == c && rows[k].amount == a
  }

  /** Every target amount is the amount of some row of that category. */
  lemma {:induction false} TargetAmountsFromRows(rows: seq<Row>, c: string)
    ensures forall j :: 0 <= j < |TargetAmounts(rows, c)| ==> HasRowWith(rows, c, TargetAmounts(rows, c)[j])
  {
    if rows != [] {
      var init := rows[..|rows| - 1];
      var last := |rows| - 1;
      TargetAmountsFromRows(init, c);
      forall j | 0 <= j < |TargetAmounts(rows, c)|
        ensures HasRowWith(rows, c, TargetAmounts(rows, c)[j])
      {
        if j < |TargetAmounts(init, c)| {
          assert TargetAmounts(rows, c)[j] == TargetAmounts(init, c)[j];
          assert HasRowWith(init, c, TargetAmounts(init, c)[j]);
          var k :| 0 <= k < |init| && init[k].subcategory == c && init[k].amount == TargetAmounts(init, c)[j];
          assert rows[k] == init[k];
        } else {
          assert rows[last].subcategory == c && TargetAmounts(rows, c)[j] == rows[last].amount;
        }
      }
    }
  }

  // ---------------------------------------------------------------------------------------
  // apply_changes

  /**
   * What `apply_changes` does to the table and returns. Nothing changes and no delta is
   * returned for an empty table, a category with no row, or a scenario with no change field.
   * Otherwise each target row yields one delta from its own original amount, and every target
   * row ends up holding the amount computed for the last one.
   */
  function ApplyChangesSpec(rows: seq<Row>, s: Scenario): (seq<Row>, seq<BudgetDelta>) {
    var c := s.targetCategory;
    var olds := TargetAmounts(rows, c);
    if |rows| == 0 || |olds| == 0 then (rows, [])
    else
      match (ChangeType(s), ChangeValue(s))
      case (Success(k), Success(v)) =>
        (SetAmount(rows, c, ChangedAmount(k, v, olds[|olds| - 1])),
         seq(|olds|, j requires 0 <= j < |olds| => MakeDelta(c, olds[j], ChangedAmount(k, v, olds[j]))))
      case _ => (rows, [])
  }

  /** The amount `apply_changes` computes from `base`, spelled out by change field precedence. */
  function ChangesFormula(s: Scenario, base: real): real
    requires s.percentage.Some? || s.fixedDelta.Some? || s.deferMonths.Some?
  {
    if s.percentage.Some? then base * (1.0 + s.percentage.value)
    else if s.fixedDelta.Some? then base + s.fixedDelta.value
    else base * (1.0 - s.deferMonths.value as real / 12.0)
  }

  /** `apply_changes` returns nothing and changes nothing exactly in its three refusal cases. */
  lemma ApplyChangesRefusals(rows: seq<Row>, s: Scenario)
    ensures ApplyChangesSpec(rows, s).1 == [] <==>
      |rows| == 0 || s.targetCategory !in Subcategories(rows)
      || (s.percentage.None? && s.fixedDelta.None? && s.deferMonths.None?)
    ensures ApplyChangesSpec(rows, s).1 == [] ==> ApplyChangesSpec(rows, s).0 == rows
  {
  }

  /**
   * The deltas of `apply_changes`: one per target row, in row order, each from that row's
   * original amount, with the formula of the scenario's change type and delta = new - old.
   */
  lemma ApplyChangesDeltas(rows: seq<Row>, s: Scenario)
    requires ApplyChangesSpec(rows, s).1 != []
    ensures s.percentage.Some? || s.fixedDelta.Some? || s.deferMonths.Some?
    ensures var ds := ApplyChangesSpec(rows, s).1;
      var olds := TargetAmounts(rows, s.targetCategory);
      && |ds| == |olds|
      && forall j :: 0 <= j < |ds| ==>
           && ds[j].category == s.targetCategory
           && ds[j].oldAmount == olds[j]
           && ds[j].newAmount == ChangesFormula(s, olds[j])
           && ds[j].delta == ds[j].newAmount - ds[j].oldAmount
  {
  }

  /**
   * `apply_changes` touches only rows of the target category, and of those only the amount;
   * every target row ends with the new amount of the last delta.
   */
  lemma ApplyChangesFrame(rows: seq<Row>, s: Scenario)
    ensures var (out, ds) := ApplyChangesSpec(rows, s);
      && |out| == |rows|
      && (forall k :: 0 <= k < |rows| && rows[k].subcategory != s.targetCategory ==> out[k] == rows[k])
      && (forall k :: 0 <= k < |rows| ==> out[k] == rows[k].(amount := out[k].amount))
      && (ds != [] ==> forall k :: 0 <= k < |rows| && rows[k].subcategory == s.targetCategory ==>
            out[k].amount == ds[|ds| - 1].newAmount)
  {
  }

  /**
   * With two rows for one category, even a zero percentage change alters the table: every
   * delta is zero, yet the first row takes the second row's amount.
   */
  lemma ZeroChangeOverwritesEarlierRow()
    ensures var rows := [Row("Tutors", 100.0, 2024, "Annual"), Row("Tutors", 200.0, 2025, "Annual")];
      var s := Scenario("s1", "Tutors", "General", false, true, "", Some(0.0), None, None);
      var (out, ds) := ApplyChangesSpec(rows, s);
      && |ds| == 2 && ds[0].delta == 0.0 && ds[1].delta == 0.0
      && out[0].amount == 200.0 && out != rows
  {
    var rows := [Row("Tutors", 100.0, 2024, "Annual"), Row("Tutors", 200.0, 2025, "Annual")];
    assert rows[..1] == [rows[0]];
    assert TargetAmounts(rows, "Tutors") == [100.0, 200.0];
  }

  // ---------------------------------------------------------------------------------------
  // apply_scenario and apply_multiple_scenarios

  /**
   * What `apply_scenario` does: it reads only the first row of the target category, computes
   * one new amount on the 0-100 scale, sets every target row to it and returns one delta.
   */
  function ApplyScenarioSpec(rows: seq<Row>, s: Scenario): (seq<Row>, seq<BudgetDelta>) {
    var c := s.targetCategory;
    var olds := TargetAmounts(rows, c);
    if |rows| == 0 || |olds| == 0 then (rows, [])
    else
      match (ChangeType(s), ChangeValue(s))
      case (Success(k), Success(v)) =>
        var n := ScenarioAmount(k, v, olds[0]);
        (SetAmount(rows, c, n), [MakeDelta(c, olds[0], n)])
      case _ => (rows, [])
  }

  /**
   * `apply_scenario` returns at most one delta, built from the first target row with the
   * 0-100 formulas; it changes nothing when it returns none, and otherwise only the amounts of
   * target rows.
   */
  lemma {:induction false} ApplyScenarioEffects(rows: seq<Row>, s: Scenario, first: nat)
    requires first < |rows| && rows[first].subcategory == s.targetCategory
    requires forall j :: 0 <= j < first ==> rows[j].subcategory != s.targetCategory
    ensures var (out, ds) := ApplyScenarioSpec(rows, s);
      var base := rows[first].amount;
      && |ds| <= 1
      && (ds == [] <==> s.percentage.None? && s.fixedDelta.None? && s.deferMonths.None?)
      && (ds == [] ==> out == rows)
      && (ds != [] ==>
            && ds[0].category == s.targetCategory && ds[0].oldAmount == base
            && ds[0].delta == ds[0].newAmount - base
            && ds[0].newAmount ==
                 (if s.percentage.Some? then base * (1.0 + s.percentage.value / 100.0)
                  else if s.fixedDelta.Some? then base + s.fixedDelta.value
                  else base * (1.0 - s.deferMonths.value as real / 100.0))
            && forall k :: 0 <= k < |rows| ==>
                 out[k] == if rows[k].subcategory == s.targetCategory then rows[k].(amount := ds[0].newAmount) else rows[k])
  {
    FirstTargetAmount(rows, s.targetCategory, first);
  }

  /** `apply_scenario` refuses an empty table and a category with no row, changing nothing. */
  lemma ApplyScenarioRefusals(rows: seq<Row>, s: Scenario)
    requires |rows| == 0 || s.targetCategory !in Subcategories(rows)
    ensures ApplyScenarioSpec(rows, s) == (rows, [])
  {
  }

  /** Scenarios applied one after another by `step` to the evolving table, deltas concatenated. */
  function Fold(rows: seq<Row>, ss: seq<Scenario>, step: (seq<Row>, Scenario) -> (seq<Row>, seq<BudgetDelta>)): (seq<Row>, seq<BudgetDelta>)
    decreases |ss|
  {
    if ss == [] then (rows, [])
    else
      var before := Fold(rows, ss[..|ss| - 1], step);
      var next := step(before.0, ss[|ss| - 1]);
      (next.0, before.1 + next.1)
  }

  /** `apply_multiple_scenarios`: the scenarios applied one after another to the evolving table, deltas concatenated. */
  function ApplyAll(rows: seq<Row>, ss: seq<Scenario>): (seq<Row>, seq<BudgetDelta>) {
    Fold(rows, ss, ApplyScenarioSpec)
  }

  /** At most one delta per scenario. */
  lemma {:induction false} ApplyAllAtMostOnePerScenario(rows: seq<Row>, ss: seq<Scenario>)
    ensures |ApplyAll(rows, ss).1| <= |ss|
  {
    if ss != [] {
      ApplyAllAtMostOnePerScenario(rows, ss[..|ss| - 1]);
      var mid := ApplyAll(rows, ss[..|ss| - 1]).0;
      var s := ss[|ss| - 1];
      if |mid| > 0 && |TargetAmounts(mid, s.targetCategory)| > 0 {
        var first :| 0 <= first < |mid| && mid[first].subcategory == s.targetCategory
          && forall j :: 0 <= j < first ==> mid[j].subcategory != s.targetCategory
          by { FirstOccurrenceExists(mid, s.targetCategory); }
        ApplyScenarioEffects(mid, s, first);
      }
    }
  }

  /** A category that occurs in the table has a first row. */
  lemma FirstOccurrenceExists(rows: seq<Row>, c: string)
    requires c in Subcategories(rows)
    ensures exists first :: (0 <= first < |rows| && rows[first].subcategory == c
      && forall j :: 0 <= j < first ==> rows[j].subcategory != c)
  {
    var cs := Subcategories(rows);
    var k :| 0 <= k < |cs| && cs[k] == c;
    var first := 0;
    while rows[first].subcategory != c
      invariant 0 <= first <= k
      invariant forall j :: 0 <= j < first ==> rows[j].subcategory != c
      decreases k - first
    {
      first := first + 1;
    }
  }

  /** Applying a list in two parts is applying the whole list: the scenarios are cumulative. */
  lemma ApplyAllConcat(rows: seq<Row>, ss: seq<Scenario>, more: seq<Scenario>)
    ensures ApplyAll(rows, ss + more) ==
      (ApplyAll(ApplyAll(rows, ss).0, more).0, ApplyAll(rows, ss).1 + ApplyAll(ApplyAll(rows, ss).0, more).1)
  {
    FoldConcat(rows, ss, more, ApplyScenarioSpec);
  }

  /** The same for any step function. */
  lemma {:induction false} FoldConcat(
    rows: seq<Row>, ss: seq<Scenario>, more: seq<Scenario>,
    step: (seq<Row>, Scenario) -> (seq<Row>, seq<BudgetDelta>))
    ensures Fold(rows, ss + more, step) ==
      (Fold(Fold(rows, ss, step).0, more, step).0, Fold(rows, ss, step).1 + Fold(Fold(rows, ss, step).0, more, step).1)
    decreases |more|
  {
    var first := Fold(rows, ss, step);
    if more == [] {
      assert ss + more == ss;
      assert first.1 + [] == first.1;
    } else {
      var init := more[..|more| - 1];
      var last := more[|more| - 1];
      FoldConcat(rows, ss, init, step);
      assert (ss + more)[..|ss + more| - 1] == ss + init;
      assert (ss + more)[|ss + more| - 1] == last;
      var second := Fold(first.0, init, step);
      var next := step(second.0, last);
      assert Fold(first.0, more, step) == (next.0, second.1 + next.1);
      assert Fold(rows, ss + more, step) == (next.0, (first.1 + second.1) + next.1);
      assert (first.1 + second.1) + next.1 == first.1 + (second.1 + next.1);
    }
  }

  /** One more scenario is one more `apply_scenario` on the table the others left. */
  lemma ApplyAllStep(rows: seq<Row>, ss: seq<Scenario>, s: Scenario)
    ensures ApplyAll(rows, ss + [s]) ==
      (ApplyScenarioSpec(ApplyAll(rows, ss).0, s).0, ApplyAll(rows, ss).1 + ApplyScenarioSpec(ApplyAll(rows, ss).0, s).1)
  {
    assert (ss + [s])[..|ss|] == ss;
  }

  // ---------------------------------------------------------------------------------------
  // get_budget_delta

  /** `get_budget_delta`: each category mapped to the amount of its first row. */
  function FirstAmounts(rows: seq<Row>): (m: map<string, real>)
    ensures m.Keys == set k | 0 <= k < |rows| :: rows[k].subcategory
    ensures forall k :: (0 <= k < |rows| && (forall j :: 0 <= j < k ==> rows[j].subcategory != rows[k].subcategory)
      ==> m[rows[k].subcategory] == rows[k].amount)
  {
    if rows == [] then map[]
    else
      var rest := FirstAmounts(rows[1..]);
      assert forall k :: 1 <= k < |rows| ==> rows[k] == rows[1..][k - 1];
      rest[rows[0].subcategory := rows[0].amount]
  }

  // ---------------------------------------------------------------------------------------
  // The store

  /**
   * The budget store: the current table, whether it has the four columns, and the last
   * snapshot it took. A failed load leaves a table without any column (`pd.DataFrame()`),
   * which is empty; only a reset from a snapshot gives it columns again.
   */
  class BudgetScenarioApplier {
    var currentBudget: seq<Row>
    var hasColumns: bool
    var snapshot: Option<BudgetSnapshot>

    /** A table without columns has no rows. */
    predicate Valid()
      reads this
    {
      hasColumns || currentBudget == []
    }

    /**
     * Starts from the table the loader read, or from the column-less empty table when reading
     * or checking the file failed (`None`); reading the file is not part of this model.
     */
    constructor (loaded: Option<seq<Row>>)
      ensures currentBudget == (if loaded.Some? then loaded.value else [])
      ensures hasColumns == loaded.Some? && snapshot == None
      ensures Valid()
    {
      currentBudget := if loaded.Some? then loaded.value else [];
      hasColumns := loaded.Some?;
      snapshot := None;
    }

    /** `take_snapshot`: converts every row, in order, and records the snapshot; any failure aborts it. */
    method TakeSnapshot() returns (r: Result<BudgetSnapshot, string>)
      modifies this`snapshot
      ensures r == SnapshotOf(currentBudget)
      ensures snapshot == if r.Success? then Some(r.value) else old(snapshot)
    {
      if |currentBudget| == 0 {
        return Failure("No budget data available");
      }
      var data: seq<BudgetEntry> := [];
      for i := 0 to |currentBudget|
        invariant EntriesOf(currentBudget[..i]) == Success(data)
      {
        assert currentBudget[..i + 1][..i] == currentBudget[..i];
        var entry := EntryOf(currentBudget[i]);
        if entry.Failure? {
          EntriesOfFailurePersists(currentBudget, i + 1);
          return Failure(entry.error);
        }
        data := data + [entry.value];
      }
      assert currentBudget[..|currentBudget|] == currentBudget;
      r := NewSnapshot(data);
      if r.Success? {
        snapshot := Some(r.value);
      }
    }

    /** `reset_to_snapshot`: a no-op for no snapshot or an empty one, otherwise a total overwrite. */
    method ResetToSnapshot(s: Option<BudgetSnapshot>)
      modifies this`currentBudget, this`hasColumns
      ensures currentBudget == Restored(old(currentBudget), s)
      ensures hasColumns == (old(hasColumns) || Rebuilds(s))
      ensures old(Valid()) ==> Valid()
    {
      if s.None? || |s.value.subcategory| == 0 {
        return;
      }
      var entries := s.value.subcategory;
      var data: seq<Row> := [];
      for i := 0 to |entries|
        invariant |data| == i && forall k :: 0 <= k < i ==> data[k] == RowOf(entries[k])
      {
        data := data + [RowOf(entries[i])];
      }
      currentBudget := data;
      hasColumns := true;
    }

    /** `apply_changes`: applies one change to every row of the target category, emitting one delta per row. */
    method ApplyChanges(s: Scenario) returns (deltas: seq<BudgetDelta>)
      modifies this`currentBudget
      ensures (currentBudget, deltas) == ApplyChangesSpec(old(currentBudget), s)
      ensures old(Valid()) ==> Valid()
    {
      if |currentBudget| == 0 {
        return [];
      }
      var c := s.targetCategory;
      var olds := TargetAmounts(currentBudget, c);
      if |olds| == 0 {
        return [];
      }
      // `scenario.type` raises before the first row is changed when no change field is set
      var kind := ChangeType(s);
      var value := ChangeValue(s);
      if kind.Failure? || value.Failure? {
        return [];
      }
      ghost var before := currentBudget;
      deltas := [];
      for i := 0 to |olds|
        invariant |deltas| == i
        invariant forall j :: 0 <= j < i ==>
          deltas[j] == MakeDelta(c, olds[j], ChangedAmount(kind.value, value.value, olds[j]))
        invariant currentBudget ==
          if i == 0 then before else SetAmount(before, c, ChangedAmount(kind.value, value.value, olds[i - 1]))
      {
        var oldAmount := olds[i];
        var newAmount := ChangedAmount(kind.value, value.value, oldAmount);
        currentBudget := SetAmount(currentBudget, c, newAmount);
        deltas := deltas + [MakeDelta(c, oldAmount, newAmount)];
      }
      assert deltas == seq(|olds|, j requires 0 <= j < |olds| =>
        MakeDelta(c, olds[j], ChangedAmount(kind.value, value.value, olds[j])));
    }

    /** `get_current_budget`: a copy of the table; a sequence value cannot alias the store. */
    method GetCurrentBudget() returns (b: seq<Row>)
      ensures b == currentBudget
    {
      b := currentBudget;
    }

    /** `apply_scenario`: one change read from the first target row, on the 0-100 scale. */
    method ApplyScenario(s: Scenario) returns (deltas: seq<BudgetDelta>)
      modifies this`currentBudget
      ensures (currentBudget, deltas) == ApplyScenarioSpec(old(currentBudget), s)
      ensures old(Valid()) ==> Valid()
    {
      if |currentBudget| == 0 {
        return [];
      }
      var c := s.targetCategory;
      if c !in Subcategories(currentBudget) {
        return [];
      }
      var olds := TargetAmounts(currentBudget, c);
      if |olds| == 0 {
        return [];
      }
      var oldAmount := olds[0];
      var kind := ChangeType(s);
      var value := ChangeValue(s);
      if kind.Failure? || value.Failure? {
        return [];
      }
      var newAmount := ScenarioAmount(kind.value, value.value, oldAmount);
      currentBudget := SetAmount(currentBudget, c, newAmount);
      deltas := [MakeDelta(c, oldAmount, newAmount)];
    }

    /** `apply_multiple_scenarios`: applies the scenarios in order and concatenates their deltas. */
    method ApplyMultipleScenarios(ss: seq<Scenario>) returns (all: seq<BudgetDelta>)
      modifies this`currentBudget
      ensures (currentBudget, all) == ApplyAll(old(currentBudget), ss)
      ensures old(Valid()) ==> Valid()
    {
      all := [];
      ghost var start := currentBudget;
      for i := 0 to |ss|
        invariant (currentBudget, all) == ApplyAll(start, ss[..i])
        invariant old(Valid()) ==> Valid()
      {
        assert ss[..i + 1][..i] == ss[..i];
        var ds := ApplyScenario(ss[i]);
        all := all + ds;
      }
      assert ss[..|ss|] == ss;
    }

    /**
     * `get_budget_delta`: the current amount of each category, read from its first row; a
     * table without columns raises KeyError on the subcategory column.
     */
    method GetBudgetDelta() returns (r: Result<map<string, real>, string>)
      ensures r.Failure? <==> !hasColumns
      ensures r.Failure? ==> r.error == "'subcategory'"
      ensures r.Success? ==> r.value == FirstAmounts(currentBudget)
    {
      if !hasColumns {
        return Failure("'subcategory'");
      }
      r := Success(FirstAmounts(currentBudget));
    }

    /** `verify_changes`: true iff the table is non-empty. */
    method VerifyChanges() returns (b: bool)
      ensures b <==> |currentBudget| > 0
    {
      b := |currentBudget| != 0;
    }
  }
}
