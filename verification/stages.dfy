/**
 * The data model of the workflow pipeline: stage definitions as read from the
 * `parameters` section, entries of the `pipeline` section, the mutable state of
 * a stage object, the errors of building and running, and the dispatch of one
 * stage to the external stage algorithms.
 */
module Stages {

  /** A datum passed between stages (a list of signals, insights text, ...); opaque to the pipeline. */
  type Datum

  /** A stage's `config` payload; only the external stage algorithms interpret it. */
  type Config

  datatype Option<T> = None | Some(value: T)

  datatype Result<T, E> = Success(value: T) | Failure(error: E)

  datatype Outcome<E> = Pass | Fail(error: E)

  /** The stage types `run_stage` compares against; any other type string is kept as `Unsupported`. */
  datatype StageType = Ingest | Extract | Insights | ConfigGenerator | Unsupported(tag: string)

  /** The immutable part of a stage object, parsed from one entry of the `parameters` section. */
  datatype StageParameters = StageParameters(
    name: string,
    stageType: StageType,
    subtype: string,
    config: Config,
    inputDataFields: seq<string>,
    outputDataFields: seq<string>)

  /** One entry of the `pipeline` section; `follows` is `None` when the entry has no `follows` key. */
  datatype PipelineEntry = PipelineEntry(name: string, follows: Option<seq<string>>)

  /** The mutable part of a stage object: the fields the pipeline updates in place. */
  datatype StageState = StageState(
    scheduled: bool,
    follows: seq<string>,
    followers: seq<string>,
    latestOutputData: seq<Datum>)

  /** The state of a stage object right after it is created from its parameters. */
  const FreshState: StageState := StageState(false, [], [], [])

  /** The external stage algorithms, as functions of (subtype, config, inputs). */
  datatype Registry = Registry(
    ingest: (string, Config) -> Datum,
    featureExtraction: (string, Config, Datum) -> Datum,
    generateInsights: (string, Config, Datum) -> (Datum, Datum, Datum),
    configGenerator: (string, Config, Datum, Datum, Datum) -> Datum)

  /** Exceptions raised while building the pipeline. */
  datatype BuildError =
    | DuplicateStageParameters(name: string)
    | DuplicatePipelineEntry(name: string)
    | UndefinedStage(name: string)
    | UndefinedPredecessor(name: string)
    | RootStageHasInput(name: string)
    | DuplicateOutputField(field: string)
    | PredecessorNotDeclared(name: string)
    | MissingProducer(stage: string, field: string)
    | CyclicDependency(cycle: seq<string>)

  /** Exceptions raised while running an iteration. */
  datatype RunError =
    | UnknownField(field: string)
    | MissingOutput(producer: string, field: string)
    | MissingInput(stage: string, position: nat)
    | UnsupportedStageType(stage: string, tag: string)

  /** How many inputs each stage type reads from its input list (`input_data[0]` .. `input_data[2]`). */
  function InputsRead(t: StageType): nat {
    match t
    case Ingest => 0
    case Extract => 1
    case Insights => 1
    case ConfigGenerator => 3
    case Unsupported(_) => 0
  }

  /** How many outputs each stage type stores in its output cache. */
  function OutputCount(t: StageType): nat {
    match t
    case Ingest => 1
    case Extract => 1
    case Insights => 3
    case ConfigGenerator => 1
    case Unsupported(_) => 0
  }

  /**
   * The outputs one run of stage `p` on `input` produces: the call of the
   * external algorithm selected by the stage type, or the exception raised for
   * an unknown type or an input list too short for the positions the type reads.
   */
  function Dispatch(p: StageParameters, input: seq<Datum>, reg: Registry): (r: Result<seq<Datum>, RunError>)
    ensures r.Success? <==> !p.stageType.Unsupported? && InputsRead(p.stageType) <= |input|
    ensures r.Success? ==> |r.value| == OutputCount(p.stageType)
    ensures p.stageType.Unsupported? ==> r == Failure(UnsupportedStageType(p.name, p.stageType.tag))
    ensures r.Failure? && !p.stageType.Unsupported? ==> r == Failure(MissingInput(p.name, |input|))
    ensures p.stageType.Ingest? ==> r == Success([reg.ingest(p.subtype, p.config)])
    ensures r.Success? && p.stageType.Extract? ==> r.value == [reg.featureExtraction(p.subtype, p.config, input[0])]
    ensures r.Success? && p.stageType.Insights? ==>
              var (keep, reduce, text) := reg.generateInsights(p.subtype, p.config, input[0]);
              r.value == [keep, reduce, text]
    ensures r.Success? && p.stageType.ConfigGenerator? ==>
              r.value == [reg.configGenerator(p.subtype, p.config, input[0], input[1], input[2])]
  {
    match p.stageType
    case Ingest =>
      Success([reg.ingest(p.subtype, p.config)])
    case Extract =>
      if |input| < 1 then Failure(MissingInput(p.name, |input|))
      else Success([reg.featureExtraction(p.subtype, p.config, input[0])])
    case Insights =>
      if |input| < 1 then Failure(MissingInput(p.name, |input|))
      else
        var (keep, reduce, text) := reg.generateInsights(p.subtype, p.config, input[0]);
        Success([keep, reduce, text])
    case ConfigGenerator =>
      if |input| < 3 then Failure(MissingInput(p.name, |input|))
      else Success([reg.configGenerator(p.subtype, p.config, input[0], input[1], input[2])])
    case Unsupported(tag) =>
      Failure(UnsupportedStageType(p.name, tag))
  }

  /** A stage reads only the first `InputsRead` entries of its input list; longer lists give the same outputs. */
  lemma DispatchIgnoresExtraInputs(p: StageParameters, input: seq<Datum>, extra: seq<Datum>, reg: Registry)
    requires InputsRead(p.stageType) <= |input|
    ensures Dispatch(p, input + extra, reg) == Dispatch(p, input, reg)
  {
  }

  /**
   * The `follows` and `followers` lists mirror each other: stage `a` lists `b`
   * as a predecessor exactly as many times as `b` lists `a` as a follower.
   */
  ghost predicate LinksMirrored(states: map<string, StageState>) {
    forall a, b :: a in states && b in states ==> Mirrored(states, a, b)
  }

  /** Stage `a` lists `b` as a predecessor as many times as `b` lists `a` as a follower. */
  ghost predicate Mirrored(states: map<string, StageState>, a: string, b: string)
    requires a in states && b in states
  {
    multiset(states[a].follows)[b] == multiset(states[b].followers)[a]
  }

  /** Recording the link "`a` follows `b`" in both directions: `a` gains predecessor `b`, `b` gains follower `a`. */
  function Link(states: map<string, StageState>, a: string, b: string): (r: map<string, StageState>)
    requires a in states && b in states
    ensures r.Keys == states.Keys
    ensures r[a].follows == states[a].follows + [b] && r[b].followers == states[b].followers + [a]
    ensures forall n :: n in r ==>
              && r[n].scheduled == states[n].scheduled
              && r[n].latestOutputData == states[n].latestOutputData
              && (n != a ==> r[n].follows == states[n].follows)
              && (n != b ==> r[n].followers == states[n].followers)
  {
    var states1 := states[a := states[a].(follows := states[a].follows + [b])];
    states1[b := states1[b].(followers := states1[b].followers + [a])]
  }

  /** Recording a link in both directions keeps the lists mirrored. */
  lemma LinkKeepsMirrored(states: map<string, StageState>, a: string, b: string)
    requires a in states && b in states && LinksMirrored(states)
    ensures LinksMirrored(Link(states, a, b))
  {
    forall x, y | x in states && y in states
      ensures Mirrored(Link(states, a, b), x, y)
    {
      LinkKeepsPair(states, a, b, x, y);
    }
  }

  /** The count of one pair after a link is recorded: both sides grow together, or neither does. */
  lemma LinkKeepsPair(states: map<string, StageState>, a: string, b: string, x: string, y: string)
    requires a in states && b in states && x in states && y in states
    requires Mirrored(states, x, y)
    ensures Mirrored(Link(states, a, b), x, y)
  {
  }
}
