/**
 * The structural rules `build_pipeline` enforces, stated declaratively over the
 * two configuration sections: the list of stage parameters and the list of
 * pipeline entries.
 */
module BuildRules {
  import opened Seqs
  import opened Stages

  /** No two entries of the `parameters` section share a name. */
  ghost predicate UniqueStageNames(params: seq<StageParameters>) {
    forall i, j :: 0 <= i < j < |params| ==> params[i].name != params[j].name
  }

  /** `parameters` holds exactly the entries of the `parameters` section, each under its name. */
  ghost predicate ParametersRead(params: seq<StageParameters>, parameters: map<string, StageParameters>) {
    && (forall n :: n in parameters <==> exists i :: 0 <= i < |params| && params[i].name == n)
    && (forall i :: 0 <= i < |params| ==> params[i].name in parameters && parameters[params[i].name] == params[i])
  }

  /** Each stage read from the `parameters` section is filed under its own name. */
  lemma ParametersNamed(params: seq<StageParameters>, parameters: map<string, StageParameters>)
    requires ParametersRead(params, parameters)
    ensures forall n :: n in parameters ==> parameters[n].name == n
  {
  }

  /** The stage names of the `parameters` section, in order. */
  function Names(params: seq<StageParameters>): (names: seq<string>)
    ensures |names| == |params| && forall i :: 0 <= i < |params| ==> names[i] == params[i].name
  {
    if params == [] then [] else Names(params[..|params| - 1]) + [params[|params| - 1].name]
  }

  /** Every stage read from the `parameters` section is listed by `Names`. */
  lemma NamesCover(params: seq<StageParameters>, parameters: map<string, StageParameters>)
    requires ParametersRead(params, parameters)
    ensures forall n :: n in parameters ==> n in Names(params)
  {
  }

  /** `n` names two entries of the `parameters` section. */
  ghost predicate StageNameRepeated(params: seq<StageParameters>, n: string) {
    exists i, j :: 0 <= i < j < |params| && params[i].name == n && params[j].name == n
  }

  /** `n` is the name of an entry of the `pipeline` section. */
  ghost predicate Declared(pipeline: seq<PipelineEntry>, n: string) {
    exists j :: 0 <= j < |pipeline| && pipeline[j].name == n
  }

  /** No two entries of the `pipeline` section share a name. */
  ghost predicate UniqueEntries(pipeline: seq<PipelineEntry>) {
    forall i, j :: 0 <= i < j < |pipeline| ==> pipeline[i].name != pipeline[j].name
  }

  /** `n` names two entries of the `pipeline` section. */
  ghost predicate EntryRepeated(pipeline: seq<PipelineEntry>, n: string) {
    exists i, j :: 0 <= i < j < |pipeline| && pipeline[i].name == n && pipeline[j].name == n
  }

  /** Every pipeline entry names a stage of the `parameters` section. */
  ghost predicate EntriesDefined(parameters: map<string, StageParameters>, pipeline: seq<PipelineEntry>) {
    forall j :: 0 <= j < |pipeline| ==> pipeline[j].name in parameters
  }

  /** Entry `j` of the `pipeline` section lists `f` among the stages it follows. */
  ghost predicate Follows(pipeline: seq<PipelineEntry>, j: int, f: string) {
    0 <= j < |pipeline| && pipeline[j].follows.Some? && f in pipeline[j].follows.value
  }

  /** Every predecessor named in a `follows` list is a stage of the `parameters` section. */
  ghost predicate PredecessorsDefined(parameters: map<string, StageParameters>, pipeline: seq<PipelineEntry>) {
    forall j, f :: Follows(pipeline, j, f) ==> f in parameters
  }

  /** Every predecessor named in a `follows` list is itself an entry of the `pipeline` section. */
  ghost predicate PredecessorsDeclared(pipeline: seq<PipelineEntry>) {
    forall j, f :: Follows(pipeline, j, f) ==> Declared(pipeline, f)
  }

  /** A pipeline entry without a `follows` key names a stage that consumes no field. */
  ghost predicate RootsWithoutInputs(parameters: map<string, StageParameters>, pipeline: seq<PipelineEntry>) {
    forall j :: 0 <= j < |pipeline| && pipeline[j].follows.None? && pipeline[j].name in parameters ==>
      parameters[pipeline[j].name].inputDataFields == []
  }

  /** The predecessors an entry lists, or none when it has no `follows` key. */
  function FollowList(e: PipelineEntry): seq<string> {
    if e.follows.Some? then e.follows.value else []
  }

  /** The output fields of the defined pipeline entries, entry after entry, in declaration order. */
  function PipelineOutputs(parameters: map<string, StageParameters>, pipeline: seq<PipelineEntry>): seq<string> {
    if pipeline == [] then []
    else
      var last := pipeline[|pipeline| - 1];
      PipelineOutputs(parameters, pipeline[..|pipeline| - 1])
        + (if last.name in parameters then parameters[last.name].outputDataFields else [])
  }

  /** Every output field is produced by one pipeline entry, and listed there once. */
  ghost predicate UniqueOutputs(parameters: map<string, StageParameters>, pipeline: seq<PipelineEntry>) {
    Distinct(PipelineOutputs(parameters, pipeline))
  }

  /** The rules checked while the `pipeline` section is read. */
  ghost predicate PipelineSectionValid(parameters: map<string, StageParameters>, pipeline: seq<PipelineEntry>) {
    && UniqueEntries(pipeline)
    && EntriesDefined(parameters, pipeline)
    && PredecessorsDefined(parameters, pipeline)
    && RootsWithoutInputs(parameters, pipeline)
    && UniqueOutputs(parameters, pipeline)
  }

  /** The outputs of a prefix of the pipeline section are a prefix of the outputs of the whole section. */
  lemma {:induction false} PipelineOutputsPrefix(parameters: map<string, StageParameters>, pipeline: seq<PipelineEntry>, i: nat)
    requires i <= |pipeline|
    ensures PipelineOutputs(parameters, pipeline[..i]) <= PipelineOutputs(parameters, pipeline)
    decreases |pipeline|
  {
    if i < |pipeline| {
      var front := pipeline[..|pipeline| - 1];
      assert front[..i] == pipeline[..i];
      PipelineOutputsPrefix(parameters, front, i);
    } else {
      assert pipeline[..i] == pipeline;
    }
  }

  /**
   * A field is among the pipeline outputs exactly when some defined pipeline
   * entry lists it among its output fields.
   */
  lemma {:induction false} PipelineOutputsMembership(parameters: map<string, StageParameters>, pipeline: seq<PipelineEntry>, f: string)
    ensures f in PipelineOutputs(parameters, pipeline) <==>
              exists j :: 0 <= j < |pipeline| && pipeline[j].name in parameters && f in parameters[pipeline[j].name].outputDataFields
  {
    if pipeline != [] {
      var front := pipeline[..|pipeline| - 1];
      PipelineOutputsMembership(parameters, front, f);
      assert forall j :: 0 <= j < |front| ==> front[j] == pipeline[j];
    }
  }

  /** What each error raised while reading the `pipeline` section says about the section. */
  ghost predicate PipelineSectionError(parameters: map<string, StageParameters>, pipeline: seq<PipelineEntry>, e: BuildError) {
    match e
    case DuplicatePipelineEntry(n) => EntryRepeated(pipeline, n)
    case UndefinedStage(n) => Declared(pipeline, n) && n !in parameters
    case UndefinedPredecessor(f) => (exists j :: Follows(pipeline, j, f)) && f !in parameters
    case RootStageHasInput(n) =>
      n in parameters && parameters[n].inputDataFields != []
      && exists j :: 0 <= j < |pipeline| && pipeline[j].name == n && pipeline[j].follows.None?
    case DuplicateOutputField(f) => Repeated(PipelineOutputs(parameters, pipeline), f)
    case _ => false
  }

  /** Each such error names a violation of one of the rules of the section. */
  lemma PipelineSectionErrorIsViolation(parameters: map<string, StageParameters>, pipeline: seq<PipelineEntry>, e: BuildError)
    requires PipelineSectionError(parameters, pipeline, e)
    ensures !PipelineSectionValid(parameters, pipeline)
  {
  }

  /**
   * Reading one more entry keeps the section valid when its name is new and
   * defined, its predecessors are defined, it consumes nothing unless it has a
   * `follows` key, and its output fields are new.
   */
  lemma SectionValidStep(parameters: map<string, StageParameters>, pipeline: seq<PipelineEntry>, i: nat)
    requires i < |pipeline| && PipelineSectionValid(parameters, pipeline[..i])
    requires !Declared(pipeline[..i], pipeline[i].name) && pipeline[i].name in parameters
    requires forall f :: f in FollowList(pipeline[i]) ==> f in parameters
    requires pipeline[i].follows.None? ==> parameters[pipeline[i].name].inputDataFields == []
    requires Distinct(PipelineOutputs(parameters, pipeline[..i]) + parameters[pipeline[i].name].outputDataFields)
    ensures PipelineSectionValid(parameters, pipeline[..i + 1])
  {
    var q := pipeline[..i + 1];
    assert q[..i] == pipeline[..i];
    forall a, b | 0 <= a < b < |q|
      ensures q[a].name != q[b].name
    {
      if b == i {
        assert pipeline[..i][a].name == q[a].name;
      } else {
        assert pipeline[..i][a] == q[a] && pipeline[..i][b] == q[b];
      }
    }
    forall j, f | Follows(q, j, f)
      ensures f in parameters
    {
      if j < i {
        assert Follows(pipeline[..i], j, f);
      }
    }
    forall j | 0 <= j < |q|
      ensures q[j].name in parameters
      ensures q[j].follows.None? ==> parameters[q[j].name].inputDataFields == []
    {
      if j < i {
        assert pipeline[..i][j] == q[j];
      }
    }
  }
}
