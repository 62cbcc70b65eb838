# Workflow pipeline orchestration — a Dafny model

This project models the `Pipeline` class of the workflow controller
(`controller/workflow_orchestration/pipeline.py`). The class does three things:

- **Building** (`build_pipeline`). It reads a `parameters` section of stage
  definitions and a `pipeline` section of entries with optional `follows`
  lists. It rejects repeated names, undefined stages, undefined or undeclared
  predecessors, root stages that consume fields, and output fields with two
  producers. It records the `follows`/`followers` links in both directions and
  fills the field registry `output_data_dict`.
- **Scheduling** (`add_stage_to_schedule`). A depth-first walk over the *data*
  dependencies (not the `follows` links). It appends the producers of a stage's
  input fields to `stage_execution_order` before the stage itself, guarded by
  the stage's one-way `scheduled` flag.
- **Running** (`run_iteration`, `run_stage`). Runs the planned stages in order.
  Each stage gets an input list wired from the output caches of its producers,
  one entry per input field, taken at that field's position among the
  producer's output fields. It then dispatches on its type to one of four
  external stage algorithms, and the outputs overwrite its cache.

Modules:

- `Seqs` (`seqs.dfy`): distinctness and first-occurrence position
  (`list.index`) on name sequences.
- `Stages` (`stages.dfy`): the data model and the dispatch of one stage to the
  external algorithms. It also defines the mirrored `follows`/`followers` links.
- `BuildRules` (`rules.dfy`): the structural rules of the two configuration
  sections, stated declaratively.
- `Dependencies` (`dependencies.dfy`): the data-dependency graph, chains and
  cycles. It also defines `ProducersFirst`, the order property the scheduler
  establishes.
- `Execution` (`execution.dfy`): the inputs a stage receives (`Wire`) and what
  it means for a stage's cache to be *settled*.
- `Orchestration` (`pipeline.dfy`): the `Pipeline` class.

A stage object is referenced at the same time from the parameters dictionary,
the field registry and the execution order. Here every stage is identified by
its unique name:

- its immutable definition lives in `parameters`;
- its mutable fields (`scheduled`, `follows`, `followers`, `latestOutputData`)
  live in `states`.

An update made through any reference is therefore seen through all of them.
The class invariant `Valid` states that:

- every registered producer lists its field among its outputs;
- the plan lists exactly the scheduled stages, each once;
- the producers of every planned stage's inputs come before it in the plan.

The external stage algorithms are a `Registry` parameter of uninterpreted
functions of (subtype, config, inputs). `Datum` and `Config` are opaque types.

## Model

| member | source | states |
|---|---|---|
| Orchestration.Pipeline.constructor | controller/workflow_orchestration/pipeline.py:29-31 | A new pipeline has an empty registry and an empty plan, and satisfies the invariant. |
| Orchestration.Pipeline.ParseStageParameters | controller/workflow_orchestration/pipeline.py:50-54 | Succeeds exactly when the stage names are unique, and then maps each name to its one definition, with no other keys. Otherwise it fails with a name that really occurs twice. |
| Orchestration.Pipeline.RecordFollows | controller/workflow_orchestration/pipeline.py:68-74 | Succeeds exactly when every predecessor is a defined stage. On success the stage's `follows` list is the declared list. Links stay mirrored both ways, and no flag, cache or other stage's `follows` list changes. A stage's `followers` list only grows, by copies of the stage's name, and stays unchanged unless the stage is among the listed predecessors. On failure it names an undefined predecessor from the list. |
| Orchestration.Pipeline.RegisterOutputs | controller/workflow_orchestration/pipeline.py:79-83 | Succeeds exactly when the stage's output fields are new and pairwise distinct. On success the registry gains exactly those fields, each pointing at the stage, and old entries are kept. On failure it names a field that really repeats. |
| Orchestration.Pipeline.ReadEntry | controller/workflow_orchestration/pipeline.py:60-77 | Reading one entry rejects a repeated name, an undefined stage, an undefined predecessor and a root stage with inputs. Each rejection is proved to break a rule of the section. Otherwise the read prefix grows by one entry and still satisfies the rules. |
| Orchestration.Pipeline.RegisterEntry | controller/workflow_orchestration/pipeline.py:79-83 | Registering an accepted entry's outputs either fails with a genuine duplicate field, or extends the read prefix's registry and rules by that entry. |
| Orchestration.Pipeline.ParsePipelineSection | controller/workflow_orchestration/pipeline.py:57-83 | Passes exactly when the section obeys all its rules (unique, defined entries; defined predecessors; roots without inputs; unique outputs). A failure names the violated rule. On success the links mirror each other and match the declared `follows` lists, and every entry's output field points at that entry. |
| Orchestration.Pipeline.CheckPredecessorsDeclared | controller/workflow_orchestration/pipeline.py:85-90 | Passes exactly when every predecessor named in a `follows` list is itself a pipeline entry. Otherwise it names a predecessor that is listed but not declared. |
| Orchestration.Pipeline.ReadSections | controller/workflow_orchestration/pipeline.py:42-90 | Before scheduling: passes exactly when names are unique, the pipeline section is valid and every predecessor is declared. Each failure is explained. All stages are left unscheduled with empty caches. Whenever the names are unique and the pipeline section is valid, even if a predecessor is undeclared, the links and the registry record the whole section. |
| Orchestration.Pipeline.DecideOrder | controller/workflow_orchestration/pipeline.py:92-96 | Schedules every stage of the parameters section in turn. It passes exactly when every input field has a producer and no stage depends on itself. On success every stage is scheduled with an empty cache and is in the execution order. A failure names a missing producer or a genuine cycle. |
| Orchestration.Pipeline.AddStageToSchedule | controller/workflow_orchestration/pipeline.py:99-107 | On an already scheduled stage it changes nothing. Otherwise, on success the stage is scheduled and is the last element of the plan. Earlier plan entries keep their positions, and flags are only ever raised. Every stage it appends is the stage itself or one it depends on, directly or transitively. The invariant (each stage once, producers first) is kept. A failure is a consumed field with no producer or a genuine dependency cycle. |
| Orchestration.Pipeline.ScheduleProducers | controller/workflow_orchestration/pipeline.py:102-105 | Schedules the producer of each input field in turn. On success all of them are scheduled. Every stage appended meanwhile is one the stage depends on. A failure is a missing producer or a genuine cycle. |
| Orchestration.Pipeline.ScheduleProducer | controller/workflow_orchestration/pipeline.py:102-105 | Looks up the producer of one input field. Fails if there is none, or if the producer is on the current recursion path (the error carries a proved cycle). Otherwise it leaves the producer scheduled. Every stage appended meanwhile is one the consuming stage depends on. |
| Orchestration.Pipeline.Append | controller/workflow_orchestration/pipeline.py:106-107 | Appends a stage whose producers are scheduled and raises its flag. The result is exactly the old plan plus the stage, and the invariant is kept. |
| Orchestration.Pipeline.ScheduleAll | controller/workflow_orchestration/pipeline.py:95-96 | Schedules every listed stage, or fails with a missing producer or a dependency cycle. The earlier plan stays a prefix. |
| Orchestration.Pipeline.BuildPipeline | controller/workflow_orchestration/pipeline.py:42-96 | Succeeds exactly when stage names are unique, the pipeline section is valid, predecessors are declared, every consumed field has a producer and the data dependencies are acyclic. On success every defined stage is scheduled, once, after the producers of its inputs, with its declared links and registered outputs. Each failure names a real violation. Whenever the names are unique and the pipeline section is valid, the registry the condition speaks of is the one recorded from the section, so whether a configuration builds is decided by the two sections alone. |
| Orchestration.Pipeline.OutputIndex | controller/workflow_orchestration/pipeline.py:135-138 | The position found is the first occurrence of the field among the producer's output fields. |
| Orchestration.Pipeline.GatherInputs | controller/workflow_orchestration/pipeline.py:130-139 | The gathered input list is exactly `Wire` of the stage's input fields: aligned position by position, or the error of the first unavailable field. |
| Orchestration.Pipeline.RunStage | controller/workflow_orchestration/pipeline.py:109-124 | On success the stage's cache becomes the dispatched outputs (1, 1, 3 or 1 of them by type). An unknown type or a too-short input list fails without touching any stage. |
| Orchestration.Pipeline.SetLatestOutputData | controller/workflow_orchestration/pipeline.py:124 | Overwrites one stage's cache. Nothing else changes, and the invariant is kept. |
| Orchestration.Pipeline.RunNext | controller/workflow_orchestration/pipeline.py:128-140 | Running the next planned stage either settles it, leaving the stages before it settled and every other stage unchanged, or fails with exactly the error of that stage's run and changes nothing. |
| Orchestration.Pipeline.RunIteration | controller/workflow_orchestration/pipeline.py:127-140 | Only output caches change. On success every planned stage is settled (its cache is what running it on its producers' caches gives) and unplanned stages are untouched. On failure some stage's run raised that error: the stages before it are settled, and it and all later stages are untouched. |
| Stages.Dispatch | controller/workflow_orchestration/pipeline.py:109-123 | Succeeds exactly for the four known types when the input list covers the positions the type reads. It yields 1, 1, 3 or 1 outputs, exactly the external algorithm's results. Otherwise it reports the unsupported type or the missing input. |
| Stages.DispatchIgnoresExtraInputs | controller/workflow_orchestration/pipeline.py:110-121 | A stage reads only the first 0, 1, 1 or 3 inputs; extra inputs do not change its outputs. |
| Stages.Link | controller/workflow_orchestration/pipeline.py:73-74 | Recording "a follows b" appends b to a's `follows` and a to b's `followers`, and changes nothing else. |
| Stages.LinkKeepsMirrored | controller/workflow_orchestration/pipeline.py:73-74 | Recording a link keeps every pair's `follows` and `followers` counts equal. |
| BuildRules.ParametersNamed | controller/workflow_orchestration/pipeline.py:50-54 | Each definition is filed under its own name. |
| BuildRules.NamesCover | controller/workflow_orchestration/pipeline.py:95 | The walk over the definitions visits every defined stage. |
| BuildRules.PipelineOutputsMembership | controller/workflow_orchestration/pipeline.py:79-83 | A field is among the pipeline outputs exactly when some defined entry declares it. |
| BuildRules.PipelineSectionErrorIsViolation | controller/workflow_orchestration/pipeline.py:60-83 | Every error raised while reading the pipeline section refutes its validity. |
| BuildRules.SectionValidStep | controller/workflow_orchestration/pipeline.py:60-83 | Accepting an entry whose checks all pass keeps the read prefix valid. |
| Dependencies.ProducersFirstIsAcyclic | controller/workflow_orchestration/pipeline.py:95-107 | A plan that lists every stage once with producers first proves that every consumed field has a producer and that there is no dependency cycle. |
| Dependencies.DependencyPointsBack | controller/workflow_orchestration/pipeline.py:102-106 | In such a plan, a stage comes after every stage it depends on. |
| Dependencies.ChainDescends | controller/workflow_orchestration/pipeline.py:102-106 | Along a dependency chain, plan positions strictly decrease. |
| Dependencies.ProducersFirstAppend | controller/workflow_orchestration/pipeline.py:106 | Appending a stage whose producers are already planned keeps producers first. |
| Dependencies.ReachesInOrder | controller/workflow_orchestration/pipeline.py:99-107 | Once a stage is in a producers-first plan, so is every stage it depends on, directly or transitively. With `AddStageToSchedule`, the stages appended are exactly the unscheduled stages the stage depends on, plus the stage itself. |
| Dependencies.NewlyReachedStep | controller/workflow_orchestration/pipeline.py:103-105 | Stages reached from a producer are reached from its consumer, so what the recursive call appends is reached from the stage being scheduled. |
| Dependencies.ChainExtend | controller/workflow_orchestration/pipeline.py:103-105 | Descending to a producer extends the recursion path as a dependency chain. |
| Execution.FieldValue | controller/workflow_orchestration/pipeline.py:133-139 | A field's value is the producer's cache entry at the field's first position among the producer's outputs. |
| Execution.Wire | controller/workflow_orchestration/pipeline.py:130-139 | Wiring succeeds exactly when every field has a value. The list is then aligned with the fields, entry k being field k's value. |
| Execution.WireFailsAtFirst | controller/workflow_orchestration/pipeline.py:130-139 | A wiring failure reports the first field, in order, whose value is unavailable. |
| Execution.WirePrefixFailure | controller/workflow_orchestration/pipeline.py:130-139 | Once a prefix of the fields fails, the whole gathering fails with that error. |
| Execution.WireFrame | controller/workflow_orchestration/pipeline.py:130-139 | A stage's inputs depend only on the caches of its producers. |
| Execution.SettledFrame | controller/workflow_orchestration/pipeline.py:124-140 | Overwriting one cache keeps settled every other stage that does not consume its outputs. |
| Execution.RunSettles | controller/workflow_orchestration/pipeline.py:128-140 | In a producers-first plan, running the next stage settles it and keeps the earlier stages settled. |
| Execution.SettledIsDeterminate | controller/workflow_orchestration/pipeline.py:127-140 | Along a producers-first plan the settled caches are unique: two successful iterations on the same plan, with the same external algorithms, yield the same outputs. |
| Orchestration.SectionRead | controller/workflow_orchestration/pipeline.py:57-83 | Once every entry is read, the links and the registry of the whole section are recorded. |
| Orchestration.FollowsRecordedKept | controller/workflow_orchestration/pipeline.py:99-107 | Scheduling does not change any `follows` or `followers` list. |
| Orchestration.ScheduledEverywhere | controller/workflow_orchestration/pipeline.py:95-96 | After scheduling every definition, every stage is scheduled and its cache is still empty. |
| Orchestration.ScheduleErrorIsViolation | controller/workflow_orchestration/pipeline.py:99-107 | A scheduling error refutes "every consumed field has a producer and the graph is acyclic". |
| Orchestration.RegistryDetermined | controller/workflow_orchestration/pipeline.py:79-83 | A consistent registry that records the whole pipeline section is unique: it is determined by the two sections. |
| Orchestration.RegistryStep | controller/workflow_orchestration/pipeline.py:79-83 | Registering an entry's outputs extends the registry by exactly those fields, pointing at that entry. |
| Seqs.IndexOf | controller/workflow_orchestration/pipeline.py:138 | `list.index`: the first position of the element. |
| Seqs.IndexOfFirst | controller/workflow_orchestration/pipeline.py:135-138 | The position where a scan meets the element first is the one `list.index` returns. |

## Left out

- Configuration loading (`get_configuration`, pipeline.py:45) is I/O. The two parsed sections are parameters of `BuildPipeline`.
- The external stage algorithms (`ingest`, `feature_extraction`, `generate_insights`, `config_generator`) are foreign calls. They are the uninterpreted functions of the `Registry` parameter. Exceptions raised inside them are not modelled.
- The GUI mirror fields (`signals`, `extracted_signals`, `signals_to_keep`, `signals_to_reduce`, `text_insights`, `r_value`) only duplicate outputs for display and are not modelled. Logging is not modelled either.
- `controller/workflow_orchestration/stage.py` is not part of this model. `set_follows` is taken to append one predecessor, and `add_follower` one follower. A new stage object is taken to be unscheduled, with empty `follows`/`followers` lists and an empty output cache.
- Stage objects are identified by their unique names, so `followers` holds names rather than object references.
- `input_data_fields` is a sequence, and a `None` there is treated as the empty list. Only the test at pipeline.py:76 guards `None`; the loops at pipeline.py:102 and pipeline.py:131 iterate the field unguarded and would raise `TypeError` on `None`, whereas the model schedules and runs such a stage as one without inputs.
- Orchestration.Pipeline.BuildPipeline: requires a freshly constructed pipeline. A second call on the same object, which in the source would keep the old registry and plan, is not modelled.
- Orchestration.Pipeline.AddStageToSchedule: a consumed field with no producer is a `MissingProducer` error where the source raises `KeyError`. A dependency cycle is a `CyclicDependency` error (carrying the proved cycle) where the source recurses until `RecursionError`. The recursion-depth limit on deep acyclic chains is not modelled.
- Orchestration.Pipeline.AddStageToSchedule: states which stages are appended (only the stage and stages it depends on, and with `ReachesInOrder` all of the unscheduled ones on success), but not their exact sequence. The depth-first post-order in which the source appends them is pinned only as far as producers-first and the stage being last.
- Orchestration.Pipeline.GatherInputs: the source raises `KeyError` for an unregistered field and `IndexError` for a short producer cache. Here these are `UnknownField` and `MissingOutput` errors.
- Orchestration.Pipeline.OutputIndex: requires the field to be among the producer's outputs, which the invariant guarantees. If it were not, the source would reuse the `index` left by an earlier field of the same iteration, or raise `UnboundLocalError` when no earlier field has set one.
- Orchestration.Pipeline.RunStage: an input list shorter than the positions the stage type reads is a `MissingInput` error where the source raises `IndexError`.
- Only the four stage types `run_stage` dispatches (pipeline.py:110-123) are modelled; any other type is `Unsupported(tag)` and fails.
- The loop bodies of `build_pipeline`, `add_stage_to_schedule` and `run_iteration` are split into helper methods: `ReadEntry`, `RegisterEntry`, `ScheduleProducers`, `ScheduleProducer`, `Append` and `RunNext`. `build_pipeline` itself is split into `ReadSections` (reading the two sections) and `DecideOrder` (scheduling). This keeps each proof small and does not change the order of effects.
