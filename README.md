# vibir-edu budget-scenario engine, modelled in Dafny

This project models the deterministic core of the vibir-edu K-12 budget pipeline. The pipeline
loads funding constraints and "what-if" scenarios and applies a scenario to a budget table. It
snapshots the table first and restores it afterwards. It forecasts costs and reads the LLM
agents' template replies into insight, offset and trade-off records. Everything is stated over
unbounded `int` and exact `real`. Text is `seq<char>`.

Modules, one per source file, plus two shared helper modules:

- `Wrappers`: `Option` and `Result`.
- `Text`: the string operations the parsers use, as Python defines them. This covers `strip`,
  `find`, `join`, `split`, the `\n(?=Category:)` split and ASCII `lower`.
- `DataModels` (src/models/data_models.py): the scenario change-field validator and the
  `type`/`value` precedence. The case-insensitive enum validators of `StrategicGoal` and
  `to_dict`. The exact amount-type check, the non-empty snapshot, and `percentage_change`.
- `BudgetApplier` (src/pipeline/budget_applier.py): the budget store as a class over a sequence
  of rows. It has snapshot and restore, the two scenario-application paths exactly as written,
  and the read-only queries.
- `ScenarioLoader` (src/pipeline/scenario_loader.py): the fold of grants into the constraint
  registry, the old-format scenario conversion, `validate_scenario` and the id filter.
- `Orchestrator` (src/pipeline/orchestrator.py): `process_scenario` and
  `process_all_scenarios`. Scenario loading is a function parameter. So are the analysis steps
  (forecast, insights, offsets, trade-offs, narrative), which may fail with a message.
- `CostForecaster` (src/pipeline/cost_forecaster.py): the ±10% simple forecast, the
  mean-plus-delta forecast with a ±2·std interval, the dispatch between them, and the model cache
  with its zero fallback.
- `ReplySections`: the shared reader behind every `re.search(r'Label:\s*(.+?)(?=\n|$)')`
  (`ExtractField`), the prompt template as a rendering function, and the section loop that every
  agent runs.
- `InsightGenerator`, `OffsetAdvisor`, `TradeoffEvaluator` (src/agents/*.py): the reply parsers,
  the record conversion of `generate_insights`, and the prompt-line rules.

State-changing code is modelled as classes:
- `BudgetScenarioApplier`, `PipelineOrchestrator` and `Forecaster` are classes whose methods
  update fields.
- Every method with a loop is proved equal to a specification function.
- The properties are lemmas about those functions.

`ExtractField` reads the regular expression this way:
- The first occurrence of `Label:` decides.
- `\s*` skips any whitespace, newlines included. A label with an empty value therefore reads the
  next non-blank line (`ReplySections.BlankValueReadsNextLine`).
- The match runs to the end of that line and is then stripped.
- `re.DOTALL` cannot change the result. A lazy `.+?` stops at the first newline or the end of the
  text in either mode.

## Model

| member | source | states |
|---|---|---|
| DataModels.ChangeFieldErrors | src/models/data_models.py:21-32 | the validator reports no error iff every two set change fields hold equal values (months compared as numbers) |
| DataModels.NewScenario | src/models/data_models.py:10-32 | a scenario is built iff its set change fields agree, and then it keeps every field as given |
| DataModels.TypeValuePrecedence | src/models/data_models.py:34-54 | `type` and `value` fail together, exactly when no change field is set; otherwise `value` is the field `type` names, with percentage > fixed_delta > defer_months |
| DataModels.ValidatedValueIsEverySetField | src/models/data_models.py:21-54 | on a validated scenario every set change field equals `value` |
| DataModels.EqualValuesAccepted | src/models/data_models.py:21-32 | a percentage and a deferral that hold the same number are accepted together: the validator compares values, not presence |
| DataModels.LowerChoice | src/models/data_models.py:81-100 | an enum value is accepted iff its lower-casing is allowed, and is stored lower-cased |
| DataModels.NewStrategicGoal | src/models/data_models.py:73-100 | a goal is built iff priority, goal_type and horizon are each allowed case-insensitively; they are stored lower-cased and the other fields unchanged |
| DataModels.RevalidateGoal | src/models/data_models.py:81-100 | validating a validated goal again gives the same goal |
| DataModels.GoalDictRoundTrip | src/models/data_models.py:102-109 | `to_dict` has exactly the five field keys, and building a goal from it gives the goal back |
| DataModels.NewBudgetEntry | src/models/data_models.py:123-134 | an entry is built iff its amount type is exactly Annual, Monthly or Quarterly |
| DataModels.AmountTypeCaseSensitive | src/models/data_models.py:129-134 | "annual" is refused while "Annual" is accepted |
| DataModels.NewSnapshot | src/models/data_models.py:136-143 | a snapshot is built iff its entry list is non-empty, and it holds those entries |
| DataModels.PercentageChangeMeaning | src/models/data_models.py:151-156 | the percentage reproduces the delta from the old amount when that is non-zero; it has the sign of the delta for a non-negative old amount; it is ±100 or 0 when the old amount is 0 |
| BudgetApplier.EntriesOfFailurePersists | src/pipeline/budget_applier.py:46-58 | once a row fails to convert, the whole conversion fails with that row's error |
| BudgetApplier.EntriesOfSpec | src/pipeline/budget_applier.py:46-58 | the rows convert iff every amount type is valid, and then give one entry per row, in order, field for field |
| BudgetApplier.SnapshotOfSpec | src/pipeline/budget_applier.py:39-67 | a snapshot exists iff the table is non-empty with valid amount types, and it holds one entry per row, in order |
| BudgetApplier.SnapshotRestoreRoundTrip | src/pipeline/budget_applier.py:69-89 | restoring the snapshot of a table reproduces that table on its four required columns, whatever the store held meanwhile |
| BudgetApplier.TargetAmounts | src/pipeline/budget_applier.py:98-101 | the filtered amounts are empty iff the category has no row |
| BudgetApplier.SetAmount | src/pipeline/budget_applier.py:118 | the masked assignment keeps the table's length |
| BudgetApplier.FirstTargetAmount | src/pipeline/budget_applier.py:149-154 | the first filtered amount is the first target row's amount |
| BudgetApplier.TargetAmountsFromRows | src/pipeline/budget_applier.py:98-101 | every filtered amount belongs to a row of that category |
| BudgetApplier.ApplyChangesRefusals | src/pipeline/budget_applier.py:93-133 | `apply_changes` returns no delta iff the table is empty, the target is absent or no change is set, and then the table is unchanged |
| BudgetApplier.ApplyChangesDeltas | src/pipeline/budget_applier.py:103-127 | one delta per target row, in order, each from that row's original amount: old·(1+v), old+v or old·(1−v/12); delta = new − old |
| BudgetApplier.ApplyChangesFrame | src/pipeline/budget_applier.py:118 | rows outside the target category are unchanged, and every target row ends with the last target row's new amount |
| BudgetApplier.ZeroChangeOverwritesEarlierRow | src/pipeline/budget_applier.py:98-127 | with two target rows and a zero change, the first row still takes the second row's amount |
| BudgetApplier.ApplyScenarioEffects | src/pipeline/budget_applier.py:139-183 | `apply_scenario` reads only the first target row, uses old·(1+v/100), old+v or old·(1−v/100), sets every target row to that amount, and returns one delta or none |
| BudgetApplier.ApplyScenarioRefusals | src/pipeline/budget_applier.py:141-183 | an empty table or an absent category yields no delta and no change |
| BudgetApplier.ApplyAllAtMostOnePerScenario | src/pipeline/budget_applier.py:185-191 | `apply_multiple_scenarios` returns at most one delta per scenario |
| BudgetApplier.ApplyAllConcat | src/pipeline/budget_applier.py:185-191 | scenarios apply cumulatively: running a list in two parts equals running it whole |
| BudgetApplier.FirstAmounts | src/pipeline/budget_applier.py:193-198 | one entry per category, holding the amount of its first row |
| BudgetApplier.BudgetScenarioApplier.constructor | src/pipeline/budget_applier.py:8-37 | the store starts with the loaded table and no snapshot; a failed load leaves an empty table without columns |
| BudgetApplier.BudgetScenarioApplier.TakeSnapshot | src/pipeline/budget_applier.py:39-67 | the result is the snapshot of the table, and it is recorded only when it succeeds |
| BudgetApplier.BudgetScenarioApplier.ResetToSnapshot | src/pipeline/budget_applier.py:69-89 | the store becomes the snapshot's rows (and has columns again), or is unchanged for no snapshot or an empty one |
| BudgetApplier.BudgetScenarioApplier.ApplyChanges | src/pipeline/budget_applier.py:91-133 | the loop leaves the table and returns the deltas of the specification the lemmas above describe |
| BudgetApplier.BudgetScenarioApplier.GetCurrentBudget | src/pipeline/budget_applier.py:135-137 | returns the current table as a value |
| BudgetApplier.BudgetScenarioApplier.ApplyScenario | src/pipeline/budget_applier.py:139-183 | table and deltas as the `apply_scenario` specification gives them |
| BudgetApplier.BudgetScenarioApplier.ApplyMultipleScenarios | src/pipeline/budget_applier.py:185-191 | table and concatenated deltas after applying the scenarios in order |
| BudgetApplier.BudgetScenarioApplier.GetBudgetDelta | src/pipeline/budget_applier.py:193-198 | the first-row amount of every category; KeyError on the subcategory column exactly when the table has no columns |
| BudgetApplier.BudgetScenarioApplier.VerifyChanges | src/pipeline/budget_applier.py:200-202 | true iff the table is non-empty |
| ScenarioLoader.CategoriesAreUnion | src/pipeline/scenario_loader.py:22-24 | a category is valid iff some grant lists it |
| ScenarioLoader.LockedIsUnionOfLockedGrants | src/pipeline/scenario_loader.py:26-28 | a category is locked iff some locked grant lists it, whatever unlocked grants say |
| ScenarioLoader.LockedSubsetOfCategories | src/pipeline/scenario_loader.py:22-40 | every locked category is a valid category, also for an unreadable file |
| ScenarioLoader.NoteLinesCount | src/pipeline/scenario_loader.py:30-31 | at most one note line per grant, and none when no grant has a note |
| ScenarioLoader.LoadFundingConstraints | src/pipeline/scenario_loader.py:11-40 | the loop builds the registry: category union, locked union, "; "-joined notes, or the empty registry with "Error loading constraints" |
| ScenarioLoader.ConvertScenarioFormatSpec | src/pipeline/scenario_loader.py:42-68 | conversion succeeds iff id, target category and a change field are present; its tag and value are the model's `type` and `value`, months times 10 for a deferral |
| ScenarioLoader.ValidateScenarioSpec | src/pipeline/scenario_loader.py:102-128 | valid iff the target is a known, unlocked category, a change is set, and a percentage lies in [0, 1] |
| ScenarioLoader.LockedGrantBlocksScenario | src/pipeline/scenario_loader.py:26-28 | a scenario targeting a category of any locked grant is invalid |
| ScenarioLoader.IdsOf | src/pipeline/scenario_loader.py:160 | the ids are exactly the present, non-empty ids of the entries |
| ScenarioLoader.IdsOfConcat | src/pipeline/scenario_loader.py:160 | the filter keeps input order |
| Orchestrator.ErrorSummary | src/pipeline/orchestrator.py:129-137 | the error summary carries the scenario id, the fixed texts and the exception's text (for a refused budget entry, the validation error's full text) |
| Orchestrator.FailureBeforeSnapshot | src/pipeline/orchestrator.py:51-57 | a failure before the snapshot returns an error summary and restores an earlier call's snapshot; without one the budget is untouched |
| Orchestrator.AfterSnapshot | src/pipeline/orchestrator.py:60-127 | once a snapshot is taken it is stored, the budget ends as it started (on the four required columns), and the narrative or an error summary is returned |
| Orchestrator.ProcessKeepsBudget | src/pipeline/orchestrator.py:116-127 | from a consistent state a call leaves the budget (its four required columns) unchanged and the state consistent |
| Orchestrator.SummaryIgnoresStored | src/pipeline/orchestrator.py:43-137 | the returned summary does not depend on the stored snapshot |
| Orchestrator.RunAllKeys | src/pipeline/orchestrator.py:141-151 | there is exactly one result per id returned by `get_scenario_ids`, whatever failed |
| Orchestrator.ScenariosIndependent | src/pipeline/orchestrator.py:141-192 | scenarios are not cumulative: each id's analysis gets the inputs, and so (for a deterministic analysis) the result, of processing it alone from the starting budget, there is one result per id, and the budget (its four required columns) ends where it began |
| Orchestrator.PipelineOrchestrator.constructor | src/pipeline/orchestrator.py:13-30 | the orchestrator starts with no stored snapshot |
| Orchestrator.PipelineOrchestrator.ProcessScenario | src/pipeline/orchestrator.py:43-137 | summary, budget and stored snapshot are those of the step-by-step specification; the applier records a snapshot only when one is taken, and its table has columns after a reset from a stored snapshot |
| Orchestrator.PipelineOrchestrator.ProcessAllScenarios | src/pipeline/orchestrator.py:139-192 | the loop's results and final state are those of processing the ids in order |
| CostForecaster.SimpleForecast | src/pipeline/cost_forecaster.py:172-180 | the forecast is the new amount with an interval of 10% either side, symmetric, and ordered for a non-negative amount |
| CostForecaster.SimpleForecasts | src/pipeline/cost_forecaster.py:165-170 | one forecast per distinct delta category |
| CostForecaster.SimpleForecastsLastWins | src/pipeline/cost_forecaster.py:165-170 | a later delta for a category replaces an earlier one |
| CostForecaster.History | src/pipeline/cost_forecaster.py:137-141 | a category has no history iff no row names it |
| CostForecaster.MeanBounds | src/pipeline/cost_forecaster.py:147 | the mean lies between the smallest and the largest amount |
| CostForecaster.TimeseriesForecast | src/pipeline/cost_forecaster.py:137-161 | with no history this is the simple forecast; otherwise it is mean + delta with an interval of 2·std either side |
| CostForecaster.TimeseriesForecastsShape | src/pipeline/cost_forecaster.py:131-163 | one forecast per delta category, labelled with it, with a symmetric interval |
| CostForecaster.NoHistoryFallsBack | src/pipeline/cost_forecaster.py:141-144 | on the time-series path a category without history (and not repeated later) has a forecast, and it is the simple one |
| CostForecaster.ToDeltas | src/pipeline/cost_forecaster.py:114-124 | the conversion succeeds iff every input converts, and then it converts each one field for field |
| CostForecaster.ForecastsShape | src/pipeline/cost_forecaster.py:103-129 | on either path there is one forecast per delta category, labelled with it, with a symmetric interval |
| CostForecaster.Trained | src/pipeline/cost_forecaster.py:27-37 | a category is cached afterwards iff it was cached or has history; other entries are unchanged and a cached model is kept |
| CostForecaster.TrainedIdempotent | src/pipeline/cost_forecaster.py:27-37 | training twice is training once |
| CostForecaster.TrainOutcomeCases | src/pipeline/cost_forecaster.py:14-37 | training raises exactly for an uncached category with no table or a single row; on success the category is cached iff it was or has at least two rows |
| CostForecaster.FailedLoadNeverTrains | src/pipeline/cost_forecaster.py:14-37 | without a loaded table, training raises exactly for an uncached category and never adds a model |
| CostForecaster.Forecaster.constructor | src/pipeline/cost_forecaster.py:8-20 | the forecaster starts with its table and no models; a failed read leaves an empty table without columns |
| CostForecaster.Forecaster.TrainModel | src/pipeline/cost_forecaster.py:22-37 | raises KeyError for an uncached category when the table has no columns, and Prophet's ValueError when it has a single row, leaving the cache in both cases; otherwise the cache is as `Trained` describes |
| CostForecaster.Forecaster.Forecast | src/pipeline/cost_forecaster.py:39-64 | trains if needed and raises exactly when `train_model` does; otherwise it succeeds with the model's last prediction, or amount 0 with interval {0, 0} when there is no model |
| CostForecaster.Forecaster.ApplyDeferral | src/pipeline/cost_forecaster.py:75-101 | the same as `forecast`, over the deferral's months |
| CostForecaster.Forecaster.GenerateTimeseriesForecasts | src/pipeline/cost_forecaster.py:131-163 | the loop fills the dictionary as `TimeseriesForecasts` does |
| CostForecaster.Forecaster.GenerateForecasts | src/pipeline/cost_forecaster.py:103-129 | converts the inputs and takes the simple path iff the table is empty |
| ReplySections.ExtractField | src/agents/offset_advisor.py:129-148 | the extracted value is stripped, contains no newline, and is "" when the label does not occur |
| ReplySections.ExtractFieldReadsLine | src/agents/offset_advisor.py:129-148 | after the first `Label:`, any whitespace gap, then a stripped one-line value ending at a newline or the end: the value is read exactly |
| ReplySections.BlankValueReadsNextLine | src/agents/tradeoff_evaluator.py:139-141 | a label with a blank value reads the next line's text |
| ReplySections.ReadRendered | src/agents/offset_advisor.py:91-97 | reading a tag from a rendered template gives the value of its first line, or "" |
| ReplySections.ReadFilled | src/agents/offset_advisor.py:91-97 | each field of a filled-in template reads back exactly |
| ReplySections.Collect | src/agents/offset_advisor.py:121-160 | at most one record per section |
| ReplySections.CollectConcat | src/agents/offset_advisor.py:123-160 | sections are read independently and in order |
| ReplySections.CollectFromSections | src/agents/offset_advisor.py:123-160 | every record comes from a non-blank section |
| ReplySections.ParseSections | src/agents/offset_advisor.py:123-160 | the section loop yields the records of `Collect` |
| Text.SplitSpec | src/agents/offset_advisor.py:121 | `split` pieces join back to the text and contain no separator |
| Text.SplitParagraphs | src/agents/offset_advisor.py:121 | splitting at blank lines distributes over a blank-line join |
| Text.SplitBeforeSpec | src/agents/insight_generator.py:48 | the pieces join back with newlines; each piece after the first starts with the marker, and no piece holds a newline followed by the marker |
| InsightGenerator.InsightOf | src/agents/insight_generator.py:51-79 | a record has a non-empty stripped category and a non-empty insight, impact or recommendation |
| InsightGenerator.InsightRoundTrip | src/agents/insight_generator.py:162-165 | a record written in the prompt's template is read back unchanged |
| InsightGenerator.SectionsSpec | src/agents/insight_generator.py:48 | the sections join back to the reply, and every section after the first begins with `Category:` |
| InsightGenerator.TextRecordsWellFormed | src/agents/insight_generator.py:50-82 | at most one record per section, each from a non-blank section |
| InsightGenerator.ParseLlmOutput | src/agents/insight_generator.py:30-84 | a JSON list is returned as is, a JSON object is wrapped in a list, and other replies go through the section loop |
| InsightGenerator.ToInsightsFromItems | src/agents/insight_generator.py:203-214 | every insight comes from a convertible item |
| InsightGenerator.DroppedItem | src/agents/insight_generator.py:203-214 | an item lacking a key is dropped without affecting the others |
| InsightGenerator.ItemRoundTrip | src/agents/insight_generator.py:73-79 | the dictionary of a text-path record converts back to that record |
| InsightGenerator.ToInsightsOfAsItems | src/agents/insight_generator.py:203-214 | no text-path record is lost in conversion |
| InsightGenerator.ConvertItems | src/agents/insight_generator.py:203-214 | the conversion loop yields `ToInsights` |
| InsightGenerator.TextReplyInsights | src/agents/insight_generator.py:35-45 | a reply that is not a JSON list or object yields exactly the text-path records |
| OffsetAdvisor.OffsetOf | src/agents/offset_advisor.py:129-157 | a record has a non-empty stripped category and at least one other non-empty field |
| OffsetAdvisor.OffsetRoundTrip | src/agents/offset_advisor.py:91-97 | a record written in the prompt's template is read back unchanged |
| OffsetAdvisor.SectionsSpec | src/agents/offset_advisor.py:121 | the sections join back to the reply and contain no blank-line separator |
| OffsetAdvisor.OffsetsWellFormed | src/agents/offset_advisor.py:121-160 | at most one record per section, each from a non-blank section and well formed |
| OffsetAdvisor.OffsetsOfJoinedReplies | src/agents/offset_advisor.py:121-160 | the records of two paragraphs joined by a blank line are the records of each |
| OffsetAdvisor.GetOffsetRecommendations | src/agents/offset_advisor.py:120-166 | the loop yields the section records, or none on an exception |
| OffsetAdvisor.ChangePercentAgrees | src/agents/offset_advisor.py:173-176 | the prompt's percentage equals `percentage_change` |
| OffsetAdvisor.FormatBudgetChanges | src/agents/offset_advisor.py:168-181 | one line per delta, in order, with its category, delta and percentage change |
| OffsetAdvisor.Status | src/agents/offset_advisor.py:196 | "Locked" iff locked, "Flexible" iff not |
| OffsetAdvisor.FormatFundingConstraints | src/agents/offset_advisor.py:192-198 | one line per constraint, in order, joined by newlines |
| TradeoffEvaluator.TradeoffOf | src/agents/tradeoff_evaluator.py:130-158 | a record has a non-empty stripped category and at least one other non-empty field |
| TradeoffEvaluator.TradeoffRoundTrip | src/agents/tradeoff_evaluator.py:94-98 | a record written in the prompt's template is read back unchanged |
| TradeoffEvaluator.TradeoffsWellFormed | src/agents/tradeoff_evaluator.py:122-161 | at most one record per section, each from a non-blank section and well formed |
| TradeoffEvaluator.TradeoffsOfJoinedReplies | src/agents/tradeoff_evaluator.py:122-161 | the records of two paragraphs joined by a blank line are the records of each |
| TradeoffEvaluator.EvaluateTradeoffs | src/agents/tradeoff_evaluator.py:121-167 | the loop yields the section records, or none on an exception |
| TradeoffEvaluator.ChangePercentAgrees | src/agents/tradeoff_evaluator.py:174-177 | the prompt's percentage equals `percentage_change` |
| TradeoffEvaluator.FormatBudgetChanges | src/agents/tradeoff_evaluator.py:169-182 | one line per change, in order, with its category, delta and percentage change |

## Left out

- The LLM calls (crewai agents, tasks, crews and `ChatOpenAI`) are not modelled. A reply is an input string. An exception raised before parsing is `None` for the offset and trade-off agents.
- `json.loads` is a parameter of the insight parser. Each agent's own JSON `_parse_llm_output` method is not part of this model, because the agents never call it.
- src/agents/narrative_generator.py is not part of this model. The orchestrator's analysis steps are one function parameter that returns a narrative or an error message.
- CSV and JSON file reading (`_load_budget`, `_load_timeseries_data`, scenario and strategic-goal files) is replaced by parsed inputs. A failed budget or history load is `None`, which gives the class an empty table without columns (`pd.DataFrame()`), as the source does. A read CSV is modelled by its rows of the required columns; a history file that lacks the `Subcategory` column is not modelled.
- `load_scenarios` and `load_scenario` depend on pydantic's construction rules, so they are left out. The orchestrator takes scenario loading as a parameter.
- Prophet fitting and prediction are not modelled. A fitted model is the rows it was fitted on, and its last predicted row is a parameter of `Forecast` and `ApplyDeferral`. Fitting is taken to succeed on two or more rows and to raise "Dataframe has less than 2 non-NaN rows." on one (`TrainOutcome`); Prophet's other fitting errors (a missing or unparsable `ds` date column, NaN amounts lowering the row count) are not modelled.
- The pandas standard deviation is an uninterpreted parameter. It is NaN for a single row.
- `forecast_all_categories` and `prepare_data`'s column renaming are left out. They only loop over `forecast` and rename columns.
- IEEE floating point is not modelled: amounts are exact reals, so the `old_amount == 0` checks are exact. Integer-to-float conversion is exact.
- Money and percentage formatting (`:,.2f`, `+.1f`) in prompt lines is left out. `ChangeLine` keeps the numbers.
- The strategic-goal and current-budget prompt sections are left out. They are plain string formatting.
- `print` logging and `print_results` are output only and are left out.
- The API layer (src/api/main.py) and the command-line entry are not part of this model.
- Whitespace is the ASCII whitespace of `strip` and `\s`: the six usual characters and the separators 0x1C-0x1F. Non-ASCII whitespace (such as U+0085, U+00A0 and U+2028) is not modelled. `lower` covers ASCII letters only, and Unicode case mapping is not modelled.
- The BudgetSnapshot timestamp is not modelled.
- SnapshotRestoreRoundTrip: the table is modelled by its four required columns, so the round trip is exact on those four only. `_load_budget` keeps any other CSV column, and `reset_to_snapshot` rebuilds the table from the four entry fields, so the source drops the other columns at the first reset.
- AfterSnapshot: "the budget ends as it started" holds on the four required columns only; any other column is dropped by the reset (see SnapshotRestoreRoundTrip).
- ProcessKeepsBudget: the budget is kept on the four required columns only; any other column is dropped by the first reset.
- ScenariosIndependent: "the budget ends where it began" holds on the four required columns only; any other column is dropped by the first reset.
- ScenariosIndependent: the analysis steps (the LLM agents, which sample at temperature 0.7) are one deterministic function parameter of the model. So "the result is that of processing it alone" means that each scenario's analysis receives the same inputs (scenario, deltas, changed table) as when it is processed alone from the starting budget; the source's replies themselves may differ from run to run.
- A refused budget entry raises pydantic's validation error, whose text is modelled in pydantic 1's format (`ValidationErrorText`). Pydantic 2 words it differently, and the installed version is not fixed by the repository. Failures of other model constructors keep only the validator's message, because those texts are only printed.
- `_format_budget_changes` and `_format_funding_constraints` are not called anywhere in the source. The offset advisor's version reads dictionary keys, so a missing key would raise KeyError; the typed `BudgetDelta` leaves that out. The only construction of the advisor passes a pydantic `FundingConstraint`, on which `.items()` would fail; the model takes the entries it would iterate.
- Pydantic's type coercion is not modelled.
- Rows with missing (NaN) values are not modelled.
- ScenarioLoader.ConvertScenarioFormat: the "Invalid scenario format" error leaves out the dictionary's printed form.
- ScenarioLoader.ConvertScenarioFormat: a missing key and a key holding `None` are both `None`.
- Dictionary insertion order of results (`process_all_scenarios`, the forecast dictionaries) is not modelled, because maps are unordered. The constraint registry's categories are a set, because `list(set(...))` has no defined order.
- `process_all_scenarios` has an exception handler that is never reached in this model, because `process_scenario` returns an error summary instead of raising.
- `apply_changes` reads `scenario.type` once, before its row loop. It raises on the first iteration before changing anything, so the outcome is the same.
