/**
 * The constraint registry and scenario handling of the scenario loader
 * (src/pipeline/scenario_loader.py). File reading is replaced by its parsed contents.
 */
module ScenarioLoader {
  import opened Wrappers
  import opened DataModels
  import Text

  // ---------------------------------------------------------------------------------------
  // Funding constraints

  /** One grant of the constraints file, with the defaults `.get` supplies: no categories, unlocked, no note (""). */
  datatype Grant = Grant(name: string, categories: seq<string>, locked: bool, note: string)

  /** The registry: every valid category, the locked ones, and the joined grant notes. */
  datatype FundingConstraint = FundingConstraint(categories: set<string>, lockedCategories: set<string>, note: string)

  const LoadErrorNote: string := "Error loading constraints"

  /** The grants' category lists, concatenated in grant order (`all_categories.extend`). */
  function AllCategories(grants: seq<Grant>): seq<string> {
    if grants == [] then []
    else AllCategories(grants[..|grants| - 1]) + grants[|grants| - 1].categories
  }

  /** The union of the categories of the locked grants. */
  function LockedCategories(grants: seq<Grant>): set<string> {
    if grants == [] then {}
    else
      var g := grants[|grants| - 1];
      LockedCategories(grants[..|grants| - 1]) + (if g.locked then (set c | c in g.categories) else {})
  }

  /** "grant: note" for every grant with a non-empty note, in grant order. */
  function NoteLines(grants: seq<Grant>): seq<string> {
    if grants == [] then []
    else
      var g := grants[|grants| - 1];
      NoteLines(grants[..|grants| - 1]) + (if g.note != "" then [g.name + ": " + g.note] else [])
  }

  /** The registry `_load_funding_constraints` builds; an unreadable file gives the empty registry with an error note. */
  function ConstraintsOf(file: Result<seq<Grant>, string>): FundingConstraint {
    match file
    case Failure(_) => FundingConstraint({}, {}, LoadErrorNote)
    case Success(grants) =>
      FundingConstraint((set c | c in AllCategories(grants)), LockedCategories(grants), Text.Join(NoteLines(grants), "; "))
  }

  /** A category is valid iff some grant lists it. */
  lemma {:induction false} CategoriesAreUnion(grants: seq<Grant>, c: string)
    ensures c in AllCategories(grants) <==> exists i :: 0 <= i < |grants| && c in grants[i].categories
  {
    if grants != [] {
      var init := grants[..|grants| - 1];
      CategoriesAreUnion(init, c);
      if c in AllCategories(init) {
        var i :| 0 <= i < |init| && c in init[i].categories;
        assert grants[i] == init[i];
      }
      if exists i :: 0 <= i < |grants| && c in grants[i].categories {
        var i :| 0 <= i < |grants| && c in grants[i].categories;
        if i < |init| {
          assert init[i] == grants[i];
        }
      }
    }
  }

  /**
   * A category is locked iff some locked grant lists it: an unlocked grant listing the same
   * category does not unlock it.
   */
  lemma {:induction false} LockedIsUnionOfLockedGrants(grants: seq<Grant>, c: string)
    ensures c in LockedCategories(grants) <==>
      exists i :: 0 <= i < |grants| && grants[i].locked && c in grants[i].categories
  {
    if grants != [] {
      var init := grants[..|grants| - 1];
      LockedIsUnionOfLockedGrants(init, c);
      if c in LockedCategories(init) {
        var i :| 0 <= i < |init| && init[i].locked && c in init[i].categories;
        assert grants[i] == init[i];
      }
      if exists i :: 0 <= i < |grants| && grants[i].locked && c in grants[i].categories {
        var i :| 0 <= i < |grants| && grants[i].locked && c in grants[i].categories;
        if i < |init| {
          assert init[i] == grants[i];
        }
      }
    }
  }

  /** Whatever the file holds, every locked category is a valid category. */
  lemma LockedSubsetOfCategories(file: Result<seq<Grant>, string>)
    ensures ConstraintsOf(file).lockedCategories <= ConstraintsOf(file).categories
  {
    if file.Success? {
      forall c | c in LockedCategories(file.value)
        ensures c in AllCategories(file.value)
      {
        LockedIsUnionOfLockedGrants(file.value, c);
        CategoriesAreUnion(file.value, c);
      }
    }
  }

  /** Each grant contributes at most one note line, and a grant without a note contributes none. */
  lemma {:induction false} NoteLinesCount(grants: seq<Grant>)
    ensures |NoteLines(grants)| <= |grants|
    ensures (forall i :: 0 <= i < |grants| ==> grants[i].note == "") ==> NoteLines(grants) == []
  {
    if grants != [] {
      NoteLinesCount(grants[..|grants| - 1]);
    }
  }

  /** `_load_funding_constraints`: folds the grants into the registry in one pass. */
  method LoadFundingConstraints(file: Result<seq<Grant>, string>) returns (fc: FundingConstraint)
    ensures fc == ConstraintsOf(file)
  {
    if file.Failure? {
      return FundingConstraint({}, {}, LoadErrorNote);
    }
    var grants := file.value;
    var all: seq<string> := [];
    var locked: set<string> := {};
    var notes: seq<string> := [];
    for i := 0 to |grants|
      invariant all == AllCategories(grants[..i])
      invariant locked == LockedCategories(grants[..i])
      invariant notes == NoteLines(grants[..i])
    {
      assert grants[..i + 1][..i] == grants[..i];
      var g := grants[i];
      all := all + g.categories;
      if g.locked {
        locked := locked + (set c | c in g.categories);
      }
      if g.note != "" {
        notes := notes + [g.name + ": " + g.note];
      }
    }
    assert grants[..|grants|] == grants;
    fc := FundingConstraint((set c | c in all), locked, Text.Join(notes, "; "));
  }

  // ---------------------------------------------------------------------------------------
  // Old-format conversion

  /** A scenario record as read from the file; None stands for a missing (or null) key. */
  datatype RawScenario = RawScenario(
    id: Option<string>,
    targetCategory: Option<string>,
    description: Option<string>,
    percentage: Option<real>,
    fixedDelta: Option<real>,
    deferMonths: Option<int>)

  /** The converted scenario: a single change tag and value. */
  datatype Converted = Converted(id: string, targetCategory: string, description: string, kind: ChangeKind, value: real)

  /** `_convert_scenario_format`: id and target_category are required; the first set change field wins; months become months*10. */
  function ConvertScenarioFormat(raw: RawScenario): Result<Converted, string> {
    if raw.id.None? then Failure("Missing required field in scenario: 'id'")
    else if raw.targetCategory.None? then Failure("Missing required field in scenario: 'target_category'")
    else
      var description := if raw.description.Some? then raw.description.value else "";
      if raw.percentage.Some? then
        Success(Converted(raw.id.value, raw.targetCategory.value, description, Percentage, raw.percentage.value))
      else if raw.fixedDelta.Some? then
        Success(Converted(raw.id.value, raw.targetCategory.value, description, Fixed, raw.fixedDelta.value))
      else if raw.deferMonths.Some? then
        Success(Converted(raw.id.value, raw.targetCategory.value, description, Deferral, (raw.deferMonths.value * 10) as real))
      else Failure("Error converting scenario format: Invalid scenario format")
  }

  /**
   * Conversion succeeds iff id, target_category and some change field are present. It keeps
   * id and target, defaults the description to "", and picks its tag by the same precedence as
   * `Scenario.type`, with the value of that field (months times ten for a deferral).
   */
  lemma ConvertScenarioFormatSpec(raw: RawScenario, s: Scenario)
    requires s.percentage == raw.percentage && s.fixedDelta == raw.fixedDelta && s.deferMonths == raw.deferMonths
    ensures ConvertScenarioFormat(raw).Success? <==>
      raw.id.Some? && raw.targetCategory.Some? && ChangeType(s).Success?
    ensures ConvertScenarioFormat(raw).Success? ==>
      var c := ConvertScenarioFormat(raw).value;
      && c.id == raw.id.value && c.targetCategory == raw.targetCategory.value
      && c.description == (if raw.description.Some? then raw.description.value else "")
      && ChangeType(s) == Success(c.kind)
      && (c.kind != Deferral ==> ChangeValue(s) == Success(c.value))
      && (c.kind == Deferral ==> c.value == 10.0 * ChangeValue(s).value)
  {
  }

  // ---------------------------------------------------------------------------------------
  // Validation

  /** `validate_scenario`: the checks in source order; the exception raised by `type` on a scenario without a change reads as false. */
  function ValidateScenario(fc: FundingConstraint, s: Scenario): bool {
    if s.targetCategory !in fc.categories then false
    else if s.targetCategory in fc.lockedCategories then false
    else
      match (ChangeType(s), ChangeValue(s))
      case (Success(k), Success(v)) => !(k == Percentage && !(0.0 <= v <= 1.0))
      case _ => false
  }

  /**
   * A scenario is valid iff its target is a known, unlocked category, it sets some change
   * field, and a percentage (when set) lies in [0, 1]. Fixed and deferral values are never
   * range-checked.
   */
  lemma ValidateScenarioSpec(fc: FundingConstraint, s: Scenario)
    ensures ValidateScenario(fc, s) <==>
      && s.targetCategory in fc.categories
      && s.targetCategory !in fc.lockedCategories
      && (s.percentage.Some? || s.fixedDelta.Some? || s.deferMonths.Some?)
      && (s.percentage.Some? ==> 0.0 <= s.percentage.value <= 1.0)
  {
  }

  /** Under the registry a file yields, a scenario targeting a category locked by any grant is invalid. */
  lemma {:induction false} LockedGrantBlocksScenario(grants: seq<Grant>, i: nat, s: Scenario)
    requires i < |grants| && grants[i].locked && s.targetCategory in grants[i].categories
    ensures !ValidateScenario(ConstraintsOf(Success(grants)), s)
  {
    LockedIsUnionOfLockedGrants(grants, s.targetCategory);
  }

  // ---------------------------------------------------------------------------------------
  // Scenario ids

  /** The ids of the entries in order, dropping missing and empty ones (the list comprehension). */
  function IdsOf(entries: seq<RawScenario>): (ids: seq<string>)
    ensures |ids| <= |entries|
    ensures forall x :: x in ids ==> x != "" && exists i :: 0 <= i < |entries| && entries[i].id == Some(x)
    ensures forall i :: 0 <= i < |entries| && entries[i].id.Some? && entries[i].id.value != "" ==> entries[i].id.value in ids
  {
    if entries == [] then []
    else
      var e := entries[0];
      var rest := IdsOf(entries[1..]);
      assert forall i :: 1 <= i < |entries| ==> entries[i] == entries[1..][i - 1];
      assert forall x :: x in rest ==> exists i :: 0 <= i < |entries| && entries[i].id == Some(x) by {
        forall x | x in rest ensures exists i :: 0 <= i < |entries| && entries[i].id == Some(x) {
          var j :| 0 <= j < |entries[1..]| && entries[1..][j].id == Some(x);
          assert entries[j + 1].id == Some(x);
        }
      }
      (if e.id.Some? && e.id.value != "" then [e.id.value] else []) + rest
  }

  /** The id filter keeps input order: ids of a concatenation are the concatenated ids. */
  lemma {:induction false} IdsOfConcat(a: seq<RawScenario>, b: seq<RawScenario>)
    ensures IdsOf(a + b) == IdsOf(a) + IdsOf(b)
  {
    if a != [] {
      assert (a + b)[1..] == a[1..] + b;
      IdsOfConcat(a[1..], b);
    } else {
      assert a + b == b;
    }
  }

  /** `get_scenario_ids`: no ids without a scenarios path or when the file cannot be read. */
  function GetScenarioIds(pathSet: bool, file: Result<seq<RawScenario>, string>): seq<string> {
    if !pathSet then []
    else
      match file
      case Failure(_) => []
      case Success(entries) => IdsOf(entries)
  }
}
