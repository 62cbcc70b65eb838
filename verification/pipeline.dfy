/**
 * The `Pipeline` class: building the pipeline from its two configuration
 * sections, scheduling the stages in an order that runs producers before
 * consumers, and running one iteration of that order.
 *
 * A stage object is shared between the parameters dictionary, the field
 * registry and the execution order; here it is identified by its unique name,
 * with its immutable parameters in `parameters` and its mutable fields in
 * `states`, so that an update through any reference is seen through all.
 */
module Orchestration {
  import opened Seqs
  import opened Stages
  import opened BuildRules
  import opened Dependencies
  import opened Execution

  class Pipeline {
    /** The stage objects' parameters, keyed by stage name. */
    var parameters: map<string, StageParameters>
    /** The stage objects' mutable fields, keyed by stage name. */
    var states: map<string, StageState>
    /** The field registry: each output field to the name of its producing stage. */
    var outputDataDict: map<string, string>
    /** The execution plan. */
    var stageExecutionOrder: seq<string>

    /**
     * The object invariant: the registry points at stages that list the field
     * among their outputs, and the plan lists exactly the scheduled stages, once
     * each, with the producers of each stage's inputs before it.
     */
    ghost predicate Valid()
      reads this
    {
      && states.Keys == parameters.Keys
      && (forall n :: n in parameters ==> parameters[n].name == n)
      && (forall f :: f in outputDataDict ==>
            outputDataDict[f] in parameters && f in parameters[outputDataDict[f]].outputDataFields)
      && (forall k :: 0 <= k < |stageExecutionOrder| ==> stageExecutionOrder[k] in parameters)
      && Distinct(stageExecutionOrder)
      && (forall n :: n in states ==> (states[n].scheduled <==> n in stageExecutionOrder))
      && ProducersFirst(parameters, outputDataDict, stageExecutionOrder)
    }

    ghost predicate Empty()
      reads this
    {
      parameters == map[] && states == map[] && outputDataDict == map[] && stageExecutionOrder == []
    }

    constructor ()
      ensures Valid() && Empty()
    {
      parameters := map[];
      states := map[];
      outputDataDict := map[];
      stageExecutionOrder := [];
    }

    /**
     * Reads the `parameters` section into a dictionary from stage name to
     * parameters; fails on the first name seen twice.
     */
    static method ParseStageParameters(params: seq<StageParameters>) returns (r: Result<map<string, StageParameters>, BuildError>)
      ensures r.Success? <==> UniqueStageNames(params)
      ensures r.Success? ==> ParametersRead(params, r.value)
      ensures r.Failure? ==> r.error.DuplicateStageParameters? && StageNameRepeated(params, r.error.name)
    {
      var dict: map<string, StageParameters> := map[];
      var i := 0;
      while i < |params|
        invariant 0 <= i <= |params|
        invariant forall a, b :: 0 <= a < b < i ==> params[a].name != params[b].name
        invariant forall n :: n in dict <==> exists j :: 0 <= j < i && params[j].name == n
        invariant forall j :: 0 <= j < i ==> dict[params[j].name] == params[j]
      {
        var stg := params[i];
        if stg.name in dict {
          ghost var j :| 0 <= j < i && params[j].name == stg.name;
          assert !UniqueStageNames(params) by { assert params[j].name == params[i].name; }
          return Failure(DuplicateStageParameters(stg.name));
        }
        dict := dict[stg.name := stg];
        i := i + 1;
      }
      return Success(dict);
    }

    /**
     * Records the predecessors `fs` of stage `name`, in both directions: each
     * becomes a `follows` entry of `name`, and `name` a follower of it. Fails on
     * the first predecessor that is not a defined stage.
     */
    method RecordFollows(name: string, fs: seq<string>) returns (err: Outcome<BuildError>)
      requires states.Keys == parameters.Keys && name in states
      requires states[name].follows == [] && LinksMirrored(states)
      modifies this`states
      ensures states.Keys == old(states.Keys) && LinksMirrored(states)
      ensures forall n :: n in states ==>
                && states[n].scheduled == old(states[n].scheduled)
                && states[n].latestOutputData == old(states[n].latestOutputData)
                && (n != name ==> states[n].follows == old(states[n].follows))
      ensures forall n :: n in states ==> FollowersGrew(old(states[n].followers), states[n].followers, name)
      ensures forall n :: n in states && n !in fs ==> states[n].followers == old(states[n].followers)
      ensures err.Pass? <==> forall f :: f in fs ==> f in parameters
      ensures err.Pass? ==> states[name].follows == fs
      ensures err.Fail? ==> err.error.UndefinedPredecessor? && err.error.name in fs && err.error.name !in parameters
    {
      var m := 0;
      while m < |fs|
        invariant 0 <= m <= |fs|
        invariant LinkedSoFar(old(states), states, name, fs[..m])
        invariant forall f :: f in fs[..m] ==> f in parameters
      {
        var f := fs[m];
        if f !in parameters {
          LinkedSoFarPrefix(old(states), states, name, fs, m);
          return Fail(UndefinedPredecessor(f));
        }
        LinkedStep(old(states), states, name, fs[..m], f);
        states := Link(states, name, f);
        assert fs[..m + 1] == fs[..m] + [f];
        m := m + 1;
      }
      assert fs[..m] == fs;
      LinkedSoFarPrefix(old(states), states, name, fs, m);
      return Pass;
    }

    /**
     * Registers stage `name` as the producer of each of its output fields; fails
     * on the first field that already has a producer. `registered` lists the
     * fields registered so far.
     */
    method RegisterOutputs(name: string, ghost registered: seq<string>) returns (err: Outcome<BuildError>)
      requires name in parameters && Distinct(registered)
      requires forall f :: f in outputDataDict <==> f in registered
      requires RegistryConsistent(parameters, outputDataDict)
      modifies this`outputDataDict
      ensures RegistryConsistent(parameters, outputDataDict)
      ensures err.Pass? <==> Distinct(registered + parameters[name].outputDataFields)
      ensures err.Pass? ==> forall f :: f in outputDataDict <==> f in registered + parameters[name].outputDataFields
      ensures forall f :: f in outputDataDict ==>
                outputDataDict[f] == (if f in old(outputDataDict) then old(outputDataDict)[f] else name)
      ensures forall f :: f in outputDataDict ==> f in old(outputDataDict) || f in parameters[name].outputDataFields
      ensures err.Fail? ==>
                err.error.DuplicateOutputField? && Repeated(registered + parameters[name].outputDataFields, err.error.field)
    {
      var outs := parameters[name].outputDataFields;
      var k := 0;
      while k < |outs|
        invariant 0 <= k <= |outs|
        invariant forall f :: f in outputDataDict <==> f in registered + outs[..k]
        invariant Distinct(registered + outs[..k])
        invariant forall f :: f in outputDataDict ==>
                    outputDataDict[f] == (if f in old(outputDataDict) then old(outputDataDict)[f] else name)
        invariant forall f :: f in outputDataDict ==> f in old(outputDataDict) || f in outs
        invariant RegistryConsistent(parameters, outputDataDict)
      {
        var od := outs[k];
        if od in outputDataDict {
          SeenAgain(registered, outs, k);
          return Fail(DuplicateOutputField(od));
        }
        assert registered + outs[..k + 1] == (registered + outs[..k]) + [od];
        outputDataDict := outputDataDict[od := name];
        k := k + 1;
      }
      assert outs[..k] == outs;
      return Pass;
    }

    /**
     * Reads the `pipeline` section: rejects repeated and undefined entries,
     * records each entry's predecessors in both directions, rejects an entry
     * without `follows` that consumes fields, and registers each entry as the
     * producer of its output fields. Returns the set of declared entry names.
     */
    method ParsePipelineSection(pipeline: seq<PipelineEntry>) returns (err: Outcome<BuildError>, declared: set<string>)
      requires states.Keys == parameters.Keys && outputDataDict == map[]
      requires forall n :: n in states ==> states[n] == FreshState
      modifies this`states, this`outputDataDict
      ensures states.Keys == old(states.Keys) && LinksMirrored(states) && Idle(states)
      ensures RegistryConsistent(parameters, outputDataDict)
      ensures err.Pass? <==> PipelineSectionValid(parameters, pipeline)
      ensures err.Fail? ==> PipelineSectionError(parameters, pipeline, err.error)
      ensures err.Pass? ==> forall n :: n in declared <==> Declared(pipeline, n)
      ensures err.Pass? ==> FollowsRecorded(states, pipeline) && RegistryRecorded(parameters, outputDataDict, pipeline)
    {
      declared := {};
      err := Pass;
      var i := 0;
      SectionStart(parameters, outputDataDict, states, pipeline);
      while i < |pipeline| && err.Pass?
        invariant 0 <= i <= |pipeline|
        invariant states.Keys == old(states.Keys)
        invariant err.Pass? ==> SectionPrefixRead(parameters, outputDataDict, states, pipeline, i, declared)
        invariant err.Fail? ==> SectionRejected(parameters, outputDataDict, states, pipeline, err.error)
        decreases |pipeline| - i, if err.Pass? then 1 else 0
      {
        err := ReadEntry(pipeline, i, declared);
        if err.Pass? {
          declared := declared + {pipeline[i].name};
          i := i + 1;
        }
      }
      if err.Pass? {
        SectionRead(parameters, outputDataDict, states, pipeline, declared);
      }
    }

    /** One pass of the loop over the `pipeline` section: reads entry `i`, given the names `declared` by the entries before it. */
    method ReadEntry(pipeline: seq<PipelineEntry>, i: nat, declared: set<string>) returns (err: Outcome<BuildError>)
      requires i < |pipeline| && states.Keys == parameters.Keys
      requires SectionPrefixRead(parameters, outputDataDict, states, pipeline, i, declared)
      modifies this`states, this`outputDataDict
      ensures states.Keys == old(states.Keys) && LinksMirrored(states) && Idle(states)
      ensures RegistryConsistent(parameters, outputDataDict)
      ensures err.Fail? ==> SectionRejected(parameters, outputDataDict, states, pipeline, err.error)
      ensures err.Pass? ==> SectionPrefixRead(parameters, outputDataDict, states, pipeline, i + 1, declared + {pipeline[i].name})
    {
      var entry := pipeline[i];
      var name := entry.name;
      if name in declared {
        err := Fail(DuplicatePipelineEntry(name));
        DuplicateEntryExplained(pipeline, i);
        PipelineSectionErrorIsViolation(parameters, pipeline, err.error);
        return;
      }
      NewNameIsNew(pipeline, i);
      if name !in parameters {
        err := Fail(UndefinedStage(name));
        assert Declared(pipeline, name) by { assert pipeline[i].name == name; }
        PipelineSectionErrorIsViolation(parameters, pipeline, err.error);
        return;
      }
      ghost var before := states;
      if entry.follows.Some? {
        err := RecordFollows(name, entry.follows.value);
        if err.Fail? {
          assert Follows(pipeline, i, err.error.name);
          PipelineSectionErrorIsViolation(parameters, pipeline, err.error);
          return;
        }
      } else if parameters[name].inputDataFields != [] {
        err := Fail(RootStageHasInput(name));
        PipelineSectionErrorIsViolation(parameters, pipeline, err.error);
        return;
      }
      FollowsStep(before, states, pipeline, i, declared);
      err := RegisterEntry(pipeline, i, declared);
    }

    /**
     * The rest of reading entry `i`, once its name and predecessors are
     * accepted: registers the entry as the producer of its output fields.
     */
    method RegisterEntry(pipeline: seq<PipelineEntry>, i: nat, declared: set<string>) returns (err: Outcome<BuildError>)
      requires i < |pipeline| && pipeline[i].name in parameters && !Declared(pipeline[..i], pipeline[i].name)
      requires LinksMirrored(states) && Idle(states) && RegistryConsistent(parameters, outputDataDict)
      requires forall n :: n in declared <==> Declared(pipeline[..i], n)
      requires FollowsRead(states, pipeline, i + 1, declared + {pipeline[i].name})
      requires PipelineSectionValid(parameters, pipeline[..i])
      requires RegistryRead(parameters, outputDataDict, pipeline, i, declared)
      requires forall f :: f in FollowList(pipeline[i]) ==> f in parameters
      requires pipeline[i].follows.None? ==> parameters[pipeline[i].name].inputDataFields == []
      modifies this`outputDataDict
      ensures RegistryConsistent(parameters, outputDataDict)
      ensures err.Fail? ==> SectionRejected(parameters, outputDataDict, states, pipeline, err.error)
      ensures err.Pass? ==> SectionPrefixRead(parameters, outputDataDict, states, pipeline, i + 1, declared + {pipeline[i].name})
    {
      var name := pipeline[i].name;
      ghost var registered := PipelineOutputs(parameters, pipeline[..i]);
      ghost var producers := outputDataDict;
      assert pipeline[..i + 1][..i] == pipeline[..i];
      assert PipelineOutputs(parameters, pipeline[..i + 1]) == registered + parameters[name].outputDataFields;
      err := RegisterOutputs(name, registered);
      if err.Fail? {
        PipelineOutputsPrefix(parameters, pipeline, i + 1);
        RepeatedInPrefix(registered + parameters[name].outputDataFields, PipelineOutputs(parameters, pipeline), err.error.field);
        PipelineSectionErrorIsViolation(parameters, pipeline, err.error);
        return;
      }
      RegistryStep(parameters, producers, outputDataDict, pipeline, i, declared);
      SectionValidStep(parameters, pipeline, i);
      DeclaredStep(pipeline, i, declared);
    }

    /**
     * Checks that every predecessor named in a `follows` list is itself an
     * entry of the `pipeline` section; `declared` holds the entry names.
     */
    static method CheckPredecessorsDeclared(pipeline: seq<PipelineEntry>, declared: set<string>) returns (err: Outcome<BuildError>)
      requires forall n :: n in declared <==> Declared(pipeline, n)
      ensures err.Pass? <==> PredecessorsDeclared(pipeline)
      ensures err.Fail? ==>
                && err.error.PredecessorNotDeclared?
                && (exists j :: Follows(pipeline, j, err.error.name))
                && !Declared(pipeline, err.error.name)
    {
      var j := 0;
      while j < |pipeline|
        invariant 0 <= j <= |pipeline|
        invariant forall j', f :: Follows(pipeline, j', f) && j' < j ==> Declared(pipeline, f)
      {
        if pipeline[j].follows.Some? {
          var fs := pipeline[j].follows.value;
          var m := 0;
          while m < |fs|
            invariant 0 <= m <= |fs|
            invariant forall f :: f in fs[..m] ==> Declared(pipeline, f)
          {
            if fs[m] !in declared {
              assert Follows(pipeline, j, fs[m]);
              return Fail(PredecessorNotDeclared(fs[m]));
            }
            assert fs[..m + 1] == fs[..m] + [fs[m]];
            m := m + 1;
          }
          assert fs[..m] == fs;
        }
        j := j + 1;
      }
      return Pass;
    }

    /**
     * Schedules stage `s` after the producers of its inputs, depth first: does
     * nothing if `s` is already scheduled, otherwise schedules each unscheduled
     * producer first and then appends `s` to the plan. `path` is the chain of
     * stages whose scheduling is in progress; meeting one of them again is a
     * dependency cycle.
     */
    method AddStageToSchedule(s: string, path: seq<string>) returns (err: Outcome<BuildError>)
      requires Valid() && s in parameters && s !in path
      requires IsChain(parameters, outputDataDict, path + [s])
      modifies this`states, this`stageExecutionOrder
      decreases parameters.Keys - (set x | x in path), 2
      ensures Valid()
      ensures OnlyScheduled(old(states), states)
      ensures old(stageExecutionOrder) <= stageExecutionOrder
      ensures NewlyReached(parameters, outputDataDict, s, old(stageExecutionOrder), stageExecutionOrder)
      ensures SameFlags(path, old(states), states)
      ensures old(states[s].scheduled) ==> states == old(states) && stageExecutionOrder == old(stageExecutionOrder) && err.Pass?
      ensures err.Pass? ==> states[s].scheduled
      ensures err.Pass? && !old(states[s].scheduled) ==>
                |stageExecutionOrder| > |old(stageExecutionOrder)| && stageExecutionOrder[|stageExecutionOrder| - 1] == s
      ensures err.Fail? ==> ScheduleError(parameters, outputDataDict, err.error)
    {
      if states[s].scheduled {
        return Pass;
      }
      err := ScheduleProducers(s, path);
      if err.Fail? {
        SameFlagsShorter(path, s, old(states), states);
        return;
      }
      ghost var states1, order1 := states, stageExecutionOrder;
      Append(s);
      OnlyScheduledTrans(old(states), states1, states);
      SameFlagsShorter(path, s, old(states), states1);
      FlagRaisedElsewhere(path, s, states1);
      SameFlagsTrans(path, old(states), states1, states);
      NewlyReachedAppend(parameters, outputDataDict, s, old(stageExecutionOrder), order1);
    }

    /**
     * The loop over the inputs of stage `s`: schedules the producer of each
     * input field in turn, stopping at the first error.
     */
    method ScheduleProducers(s: string, path: seq<string>) returns (err: Outcome<BuildError>)
      requires Valid() && s in parameters && s !in path && !states[s].scheduled
      requires IsChain(parameters, outputDataDict, path + [s])
      modifies this`states, this`stageExecutionOrder
      decreases parameters.Keys - (set x | x in path), 1
      ensures Valid()
      ensures OnlyScheduled(old(states), states)
      ensures old(stageExecutionOrder) <= stageExecutionOrder
      ensures NewlyReached(parameters, outputDataDict, s, old(stageExecutionOrder), stageExecutionOrder)
      ensures SameFlags(path + [s], old(states), states)
      ensures err.Pass? ==> ProducersScheduled(parameters[s].inputDataFields, outputDataDict, states)
      ensures err.Fail? ==> ScheduleError(parameters, outputDataDict, err.error)
    {
      var inputs := parameters[s].inputDataFields;
      var k := 0;
      while k < |inputs|
        invariant 0 <= k <= |inputs|
        invariant Valid()
        invariant OnlyScheduled(old(states), states)
        invariant old(stageExecutionOrder) <= stageExecutionOrder
        invariant NewlyReached(parameters, outputDataDict, s, old(stageExecutionOrder), stageExecutionOrder)
        invariant SameFlags(path + [s], old(states), states)
        invariant ProducersScheduled(inputs[..k], outputDataDict, states)
      {
        ghost var states0, order0 := states, stageExecutionOrder;
        err := ScheduleProducer(s, inputs[k], path);
        OnlyScheduledTrans(old(states), states0, states);
        SameFlagsTrans(path + [s], old(states), states0, states);
        NewlyReachedTrans(parameters, outputDataDict, s, old(stageExecutionOrder), order0, stageExecutionOrder);
        if err.Fail? {
          return;
        }
        ProducersScheduledStep(inputs, k, outputDataDict, states0, states);
        k := k + 1;
      }
      assert inputs[..k] == inputs;
      err := Pass;
    }

    /**
     * One pass of the loop over the inputs of stage `s`: looks up the producer
     * of field `f` and schedules it first unless it already is.
     */
    method ScheduleProducer(s: string, f: string, path: seq<string>) returns (err: Outcome<BuildError>)
      requires Valid() && s in parameters && s !in path && !states[s].scheduled
      requires f in parameters[s].inputDataFields
      requires IsChain(parameters, outputDataDict, path + [s])
      modifies this`states, this`stageExecutionOrder
      decreases parameters.Keys - (set x | x in path), 0
      ensures Valid()
      ensures OnlyScheduled(old(states), states)
      ensures old(stageExecutionOrder) <= stageExecutionOrder
      ensures NewlyReached(parameters, outputDataDict, s, old(stageExecutionOrder), stageExecutionOrder)
      ensures SameFlags(path + [s], old(states), states)
      ensures err.Pass? ==> f in outputDataDict && outputDataDict[f] in states && states[outputDataDict[f]].scheduled
      ensures err.Fail? ==> ScheduleError(parameters, outputDataDict, err.error)
    {
      if f !in outputDataDict {
        return Fail(MissingProducer(s, f));
      }
      var prev := outputDataDict[f];
      assert DependsOn(parameters, outputDataDict, s, prev);
      if states[prev].scheduled {
        return Pass;
      }
      var chain := path + [s];
      if prev in chain {
        var at := IndexOf(chain, prev);
        ChainSuffix(parameters, outputDataDict, chain, at);
        return Fail(CyclicDependency(chain[at..]));
      }
      ChainExtend(parameters, outputDataDict, chain, prev);
      assert (set x | x in chain) == (set x | x in path) + {s};
      err := AddStageToSchedule(prev, chain);
      NewlyReachedStep(parameters, outputDataDict, s, prev, old(stageExecutionOrder), stageExecutionOrder);
    }

    /** Appends stage `s`, whose producers are already scheduled, to the plan and marks it scheduled. */
    method Append(s: string)
      requires Valid() && s in parameters && !states[s].scheduled
      requires ProducersScheduled(parameters[s].inputDataFields, outputDataDict, states)
      modifies this`states, this`stageExecutionOrder
      ensures Valid()
      ensures stageExecutionOrder == old(stageExecutionOrder) + [s]
      ensures states == old(states)[s := old(states)[s].(scheduled := true)]
      ensures OnlyScheduled(old(states), states)
    {
      ProducersFirstAppend(parameters, outputDataDict, stageExecutionOrder, s);
      DistinctAppend(stageExecutionOrder, s);
      stageExecutionOrder := stageExecutionOrder + [s];
      states := states[s := states[s].(scheduled := true)];
    }

    /** Schedules each of the stages `names` in turn; stops at the first error. */
    method ScheduleAll(names: seq<string>) returns (err: Outcome<BuildError>)
      requires Valid() && forall k :: 0 <= k < |names| ==> names[k] in parameters
      modifies this`states, this`stageExecutionOrder
      ensures Valid()
      ensures OnlyScheduled(old(states), states)
      ensures old(stageExecutionOrder) <= stageExecutionOrder
      ensures err.Pass? ==> AllScheduled(names, states)
      ensures err.Fail? ==> ScheduleError(parameters, outputDataDict, err.error)
    {
      var k := 0;
      while k < |names|
        invariant 0 <= k <= |names|
        invariant Valid()
        invariant OnlyScheduled(old(states), states)
        invariant old(stageExecutionOrder) <= stageExecutionOrder
        invariant AllScheduled(names[..k], states)
      {
        ghost var states0 := states;
        err := AddStageToSchedule(names[k], []);
        OnlyScheduledTrans(old(states), states0, states);
        if err.Fail? {
          return;
        }
        AllScheduledStep(names, k, states0, states);
        k := k + 1;
      }
      assert names[..k] == names;
      return Pass;
    }

    /**
     * Builds the pipeline from its two configuration sections: reads them,
     * then schedules every stage, in the order of the `parameters` section,
     * after the producers of its inputs. Stops at the first error.
     */
    method BuildPipeline(params: seq<StageParameters>, pipeline: seq<PipelineEntry>) returns (err: Outcome<BuildError>)
      requires Empty()
      modifies this
      ensures Valid()
      ensures err.Pass? <==>
                && UniqueStageNames(params)
                && PipelineSectionValid(parameters, pipeline)
                && PredecessorsDeclared(pipeline)
                && ProducersPresent(parameters, outputDataDict)
                && Acyclic(parameters, outputDataDict)
      ensures err.Fail? ==> BuildErrorExplained(params, parameters, outputDataDict, pipeline, err.error)
      ensures UniqueStageNames(params) ==> ParametersRead(params, parameters)
      ensures UniqueStageNames(params) && PipelineSectionValid(parameters, pipeline) ==>
                FollowsRecorded(states, pipeline) && RegistryRecorded(parameters, outputDataDict, pipeline)
      ensures err.Pass? ==> forall n :: n in states ==> states[n].scheduled && states[n].latestOutputData == []
      ensures err.Pass? ==> forall n :: n in parameters ==> n in stageExecutionOrder
    {
      err := ReadSections(params, pipeline);
      if err.Pass? {
        ghost var read := states;
        err := DecideOrder(params);
        FollowsRecordedKept(read, states, pipeline);
      }
    }

    /**
     * The scheduling half of building: schedules every defined stage, in the
     * order of the `parameters` section. Succeeds exactly when every consumed
     * field has a producer and the data dependencies are acyclic.
     */
    method DecideOrder(params: seq<StageParameters>) returns (err: Outcome<BuildError>)
      requires Valid() && ParametersRead(params, parameters)
      requires Idle(states) && stageExecutionOrder == []
      modifies this`states, this`stageExecutionOrder
      ensures Valid() && OnlyScheduled(old(states), states)
      ensures err.Pass? <==> ProducersPresent(parameters, outputDataDict) && Acyclic(parameters, outputDataDict)
      ensures err.Fail? ==> ScheduleError(parameters, outputDataDict, err.error)
      ensures err.Pass? ==> forall n :: n in states ==> states[n].scheduled && states[n].latestOutputData == []
      ensures err.Pass? ==> forall n :: n in parameters ==> n in stageExecutionOrder
    {
      err := ScheduleAll(Names(params));
      if err.Fail? {
        ScheduleErrorIsViolation(parameters, outputDataDict, err.error);
        return;
      }
      ScheduledEverywhere(params, parameters, old(states), states);
      ProducersFirstIsAcyclic(parameters, outputDataDict, stageExecutionOrder);
    }

    /**
     * The part of building before scheduling: reads the `parameters` section
     * into fresh stage objects, reads the `pipeline` section, and checks that
     * every predecessor is declared.
     */
    method ReadSections(params: seq<StageParameters>, pipeline: seq<PipelineEntry>) returns (err: Outcome<BuildError>)
      requires Empty()
      modifies this
      ensures Valid() && stageExecutionOrder == [] && Idle(states)
      ensures err.Pass? <==>
                UniqueStageNames(params) && PipelineSectionValid(parameters, pipeline) && PredecessorsDeclared(pipeline)
      ensures err.Fail? ==> BuildErrorExplained(params, parameters, outputDataDict, pipeline, err.error)
      ensures UniqueStageNames(params) ==> ParametersRead(params, parameters)
      ensures UniqueStageNames(params) && PipelineSectionValid(parameters, pipeline) ==>
                FollowsRecorded(states, pipeline) && RegistryRecorded(parameters, outputDataDict, pipeline)
    {
      var r := ParseStageParameters(params);
      if r.Failure? {
        return Fail(r.error);
      }
      ParametersNamed(params, r.value);
      parameters := r.value;
      states := map n | n in parameters :: FreshState;
      var declared;
      err, declared := ParsePipelineSection(pipeline);
      IdleIsValid();
      if err.Fail? {
        PipelineSectionErrorIsViolation(parameters, pipeline, err.error);
        return;
      }
      err := CheckPredecessorsDeclared(pipeline, declared);
    }

    /** Before any stage is scheduled, a consistent registry is all the object invariant asks for. */
    lemma IdleIsValid()
      requires states.Keys == parameters.Keys && forall n :: n in parameters ==> parameters[n].name == n
      requires RegistryConsistent(parameters, outputDataDict) && Idle(states) && stageExecutionOrder == []
      ensures Valid()
    {
    }

    /**
     * The position of field `f` among a producer's output fields `outs`: the
     * first position holding `f`, found by scanning `outs` in order.
     */
    static method OutputIndex(outs: seq<string>, f: string) returns (index: nat)
      requires f in outs
      ensures index < |outs| && outs[index] == f && f !in outs[..index]
    {
      var k := 0;
      while k < |outs|
        invariant 0 <= k <= |outs|
        invariant f !in outs[..k]
      {
        if outs[k] == f {
          index := k;
          return;
        }
        assert outs[..k + 1] == outs[..k] + [outs[k]];
        k := k + 1;
      }
      assert false;
    }

    /**
     * Gathers the input list of stage `s`: for each of its input fields, in
     * order, the entry of the producer's output cache at the field's position
     * among the producer's output fields.
     */
    method GatherInputs(s: string) returns (r: Result<seq<Datum>, RunError>)
      requires Valid() && s in parameters
      ensures r == Wire(parameters, outputDataDict, states, parameters[s].inputDataFields)
    {
      var fields := parameters[s].inputDataFields;
      var input: seq<Datum> := [];
      var k := 0;
      while k < |fields|
        invariant 0 <= k <= |fields|
        invariant Wire(parameters, outputDataDict, states, fields[..k]) == Success(input)
      {
        var f := fields[k];
        assert fields[..k + 1][..k] == fields[..k];
        if f !in outputDataDict {
          WirePrefixFailure(parameters, outputDataDict, states, fields, k + 1);
          return Failure(UnknownField(f));
        }
        var prev := outputDataDict[f];
        var outs := parameters[prev].outputDataFields;
        var index := OutputIndex(outs, f);
        IndexOfFirst(outs, f, index);
        if index >= |states[prev].latestOutputData| {
          WirePrefixFailure(parameters, outputDataDict, states, fields, k + 1);
          return Failure(MissingOutput(prev, f));
        }
        input := input + [states[prev].latestOutputData[index]];
        k := k + 1;
      }
      assert fields[..k] == fields;
      return Success(input);
    }

    /**
     * Runs stage `s` on `input`: calls the external algorithm its type selects
     * and stores the outputs in the stage's output cache. An unknown type, or an
     * input list too short for the positions the type reads, raises instead and
     * stores nothing.
     */
    method RunStage(s: string, input: seq<Datum>, reg: Registry) returns (err: Outcome<RunError>)
      requires s in parameters && s in states
      modifies this`states
      ensures old(Valid()) ==> Valid()
      ensures CachesOnly(old(states), states) && forall n :: n in states && n != s ==> states[n] == old(states)[n]
      ensures Dispatch(parameters[s], input, reg).Success? ==>
                err.Pass? && states == old(states)[s := old(states)[s].(latestOutputData := Dispatch(parameters[s], input, reg).value)]
      ensures Dispatch(parameters[s], input, reg).Failure? ==>
                err == Fail(Dispatch(parameters[s], input, reg).error) && states == old(states)
    {
      var p := parameters[s];
      var output: seq<Datum>;
      if p.stageType.Ingest? {
        output := [reg.ingest(p.subtype, p.config)];
      } else if p.stageType.Extract? {
        if |input| < 1 {
          return Fail(MissingInput(p.name, |input|));
        }
        output := [reg.featureExtraction(p.subtype, p.config, input[0])];
      } else if p.stageType.Insights? {
        if |input| < 1 {
          return Fail(MissingInput(p.name, |input|));
        }
        var (keep, reduce, text) := reg.generateInsights(p.subtype, p.config, input[0]);
        output := [keep, reduce, text];
      } else if p.stageType.ConfigGenerator? {
        if |input| < 3 {
          return Fail(MissingInput(p.name, |input|));
        }
        output := [reg.configGenerator(p.subtype, p.config, input[0], input[1], input[2])];
      } else {
        return Fail(UnsupportedStageType(p.name, p.stageType.tag));
      }
      SetLatestOutputData(s, output);
      return Pass;
    }

    /** Stores `output` as the output cache of stage `s`; nothing else changes. */
    method SetLatestOutputData(s: string, output: seq<Datum>)
      requires s in states
      modifies this`states
      ensures states == old(states)[s := old(states)[s].(latestOutputData := output)]
      ensures old(Valid()) ==> Valid()
      ensures CachesOnly(old(states), states) && forall n :: n in states && n != s ==> states[n] == old(states)[n]
    {
      states := states[s := states[s].(latestOutputData := output)];
    }

    /**
     * Runs every stage of the plan once, in order, each on inputs gathered from
     * the caches its producers hold at that moment; stops at the first stage
     * that raises. On success every planned stage is settled; on failure the
     * stages before the failing one are settled and it and the stages after it
     * keep their caches.
     */
    method RunIteration(reg: Registry) returns (err: Outcome<RunError>)
      requires Valid()
      modifies this`states
      ensures Valid() && CachesOnly(old(states), states)
      ensures err.Pass? ==>
                && SettledUpTo(parameters, outputDataDict, states, reg, stageExecutionOrder, |stageExecutionOrder|)
                && UntouchedFrom(old(states), states, stageExecutionOrder, |stageExecutionOrder|)
      ensures err.Fail? ==> exists i :: 0 <= i < |stageExecutionOrder| && StoppedAt(old(states), reg, i, err.error)
    {
      var i := 0;
      while i < |stageExecutionOrder|
        invariant 0 <= i <= |stageExecutionOrder|
        invariant Valid() && CachesOnly(old(states), states)
        invariant SettledUpTo(parameters, outputDataDict, states, reg, stageExecutionOrder, i)
        invariant UntouchedFrom(old(states), states, stageExecutionOrder, i)
      {
        ghost var states0 := states;
        err := RunNext(i, reg);
        CachesOnlyTrans(old(states), states0, states);
        if err.Fail? {
          assert StoppedAt(old(states), reg, i, err.error);
          return;
        }
        UntouchedStep(old(states), states0, states, stageExecutionOrder, i);
        i := i + 1;
      }
      return Pass;
    }

    /** Stage `order[i]` raised `e` with the stages before it settled and it and the stages after it untouched since `before`. */
    ghost predicate StoppedAt(before: map<string, StageState>, reg: Registry, i: nat, e: RunError)
      reads this
      requires i < |stageExecutionOrder| && Valid()
    {
      && SettledUpTo(parameters, outputDataDict, states, reg, stageExecutionOrder, i)
      && StageRun(parameters, outputDataDict, states, reg, stageExecutionOrder[i]) == Failure(e)
      && UntouchedFrom(before, states, stageExecutionOrder, i)
    }

    /** One pass of the loop over the plan: gathers the inputs of stage `order[i]` and runs it. */
    method RunNext(i: nat, reg: Registry) returns (err: Outcome<RunError>)
      requires Valid() && i < |stageExecutionOrder|
      requires SettledUpTo(parameters, outputDataDict, states, reg, stageExecutionOrder, i)
      modifies this`states
      ensures Valid() && CachesOnly(old(states), states)
      ensures err.Pass? ==>
                && SettledUpTo(parameters, outputDataDict, states, reg, stageExecutionOrder, i + 1)
                && forall n :: n in states && n != stageExecutionOrder[i] ==> states[n] == old(states)[n]
      ensures err.Fail? ==>
                states == old(states) && StageRun(parameters, outputDataDict, states, reg, stageExecutionOrder[i]) == Failure(err.error)
    {
      var s := stageExecutionOrder[i];
      var input := GatherInputs(s);
      if input.Failure? {
        return Fail(input.error);
      }
      ghost var out := Dispatch(parameters[s], input.value, reg);
      err := RunStage(s, input.value, reg);
      if err.Pass? {
        RunSettles(parameters, outputDataDict, old(states), reg, stageExecutionOrder, i, out.value);
      }
    }
  }

  /**
   * The `follows` and `followers` lists once the whole `pipeline` section is
   * read: they mirror each other, each entry's list is the one it declares, and
   * a stage without an entry has none.
   */
  ghost predicate FollowsRecorded(states: map<string, StageState>, pipeline: seq<PipelineEntry>) {
    && LinksMirrored(states)
    && (forall j :: 0 <= j < |pipeline| ==> pipeline[j].name in states && states[pipeline[j].name].follows == FollowList(pipeline[j]))
    && (forall n :: n in states && !Declared(pipeline, n) ==> states[n].follows == [])
  }

  /**
   * The registry once the whole `pipeline` section is read: each output field
   * of an entry points at that entry, and every registered producer is an entry.
   */
  ghost predicate RegistryRecorded(parameters: map<string, StageParameters>, producers: map<string, string>, pipeline: seq<PipelineEntry>) {
    && (forall j, f :: 0 <= j < |pipeline| && pipeline[j].name in parameters && f in parameters[pipeline[j].name].outputDataFields ==>
          f in producers && producers[f] == pipeline[j].name)
    && (forall f :: f in producers ==> Declared(pipeline, producers[f]))
  }

  /**
   * A consistent registry that records the whole `pipeline` section is unique:
   * it is determined by the two configuration sections alone.
   */
  lemma RegistryDetermined(parameters: map<string, StageParameters>, pipeline: seq<PipelineEntry>,
                           producers1: map<string, string>, producers2: map<string, string>)
    requires RegistryConsistent(parameters, producers1) && RegistryRecorded(parameters, producers1, pipeline)
    requires RegistryConsistent(parameters, producers2) && RegistryRecorded(parameters, producers2, pipeline)
    ensures producers1 == producers2
  {
    forall f | f in producers1
      ensures f in producers2 && producers2[f] == producers1[f]
    {
      var j :| 0 <= j < |pipeline| && pipeline[j].name == producers1[f];
    }
    forall f | f in producers2
      ensures f in producers1
    {
      var j :| 0 <= j < |pipeline| && pipeline[j].name == producers2[f];
    }
  }

  /** `after` is `before` followed by some number of copies of `name`. */
  ghost predicate FollowersGrew(before: seq<string>, after: seq<string>, name: string) {
    before <= after && forall k :: |before| <= k < |after| ==> after[k] == name
  }

  /** Adding one more copy of `name` keeps the list grown by copies of `name` only. */
  lemma FollowersGrewStep(before: seq<string>, mid: seq<string>, name: string)
    requires FollowersGrew(before, mid, name)
    ensures FollowersGrew(before, mid + [name], name)
  {
  }

  /**
   * What holds once the predecessors `done` of stage `name` are recorded,
   * starting from `before`: the links still mirror each other, `name` follows
   * exactly `done` after its old list, and the only other change is that each
   * stage of `done` gains copies of `name` as followers.
   */
  ghost predicate LinkedSoFar(before: map<string, StageState>, after: map<string, StageState>, name: string, done: seq<string>) {
    && after.Keys == before.Keys && LinksMirrored(after)
    && name in before && after[name].follows == before[name].follows + done
    && forall n :: n in after ==>
         && after[n].scheduled == before[n].scheduled
         && after[n].latestOutputData == before[n].latestOutputData
         && (n != name ==> after[n].follows == before[n].follows)
         && FollowersGrew(before[n].followers, after[n].followers, name)
         && (n !in done ==> after[n].followers == before[n].followers)
  }

  /** Recording one more predecessor `f` of `name` extends what is recorded by `f`. */
  lemma LinkedStep(before: map<string, StageState>, states: map<string, StageState>, name: string, done: seq<string>, f: string)
    requires LinkedSoFar(before, states, name, done) && f in states
    ensures LinkedSoFar(before, Link(states, name, f), name, done + [f])
  {
    LinkKeepsMirrored(states, name, f);
    var r := Link(states, name, f);
    assert r[name].follows == before[name].follows + (done + [f]);
    forall n | n in r
      ensures FollowersGrew(before[n].followers, r[n].followers, name)
      ensures n !in done + [f] ==> r[n].followers == before[n].followers
    {
      if n == f {
        FollowersGrewStep(before[n].followers, states[n].followers, name);
      }
    }
  }

  /** The frame of a prefix `fs[..m]` of the predecessors, stated against the whole list `fs`. */
  lemma LinkedSoFarPrefix(before: map<string, StageState>, after: map<string, StageState>, name: string, fs: seq<string>, m: nat)
    requires m <= |fs| && LinkedSoFar(before, after, name, fs[..m])
    ensures after.Keys == before.Keys && LinksMirrored(after)
    ensures forall n :: n in after ==>
              && after[n].scheduled == before[n].scheduled
              && after[n].latestOutputData == before[n].latestOutputData
              && (n != name ==> after[n].follows == before[n].follows)
              && FollowersGrew(before[n].followers, after[n].followers, name)
    ensures forall n :: n in after && n !in fs ==> after[n].followers == before[n].followers
    ensures after[name].follows == before[name].follows + fs[..m]
  {
  }

  /** Before any entry is read, the invariants of the loop over the `pipeline` section hold. */
  lemma SectionStart(parameters: map<string, StageParameters>, producers: map<string, string>,
                     states: map<string, StageState>, pipeline: seq<PipelineEntry>)
    requires producers == map[] && forall n :: n in states ==> states[n] == FreshState
    ensures SectionPrefixRead(parameters, producers, states, pipeline, 0, {})
  {
  }

  /** Reading every entry records the links and the registry of the whole section. */
  lemma SectionRead(parameters: map<string, StageParameters>, producers: map<string, string>, states: map<string, StageState>,
                    pipeline: seq<PipelineEntry>, declared: set<string>)
    requires SectionPrefixRead(parameters, producers, states, pipeline, |pipeline|, declared)
    ensures Idle(states) && RegistryConsistent(parameters, producers)
    ensures PipelineSectionValid(parameters, pipeline)
    ensures forall n :: n in declared <==> Declared(pipeline, n)
    ensures FollowsRecorded(states, pipeline) && RegistryRecorded(parameters, producers, pipeline)
  {
    assert pipeline[..|pipeline|] == pipeline;
  }

  /**
   * What holds once the first `i` entries of the `pipeline` section are read:
   * the links mirror each other, no stage is scheduled or has output, the
   * registry is consistent, `declared` holds the names of those entries, their
   * `follows` lists and output fields are recorded, and they obey the rules of
   * the section.
   */
  ghost predicate SectionPrefixRead(parameters: map<string, StageParameters>, producers: map<string, string>,
                                    states: map<string, StageState>, pipeline: seq<PipelineEntry>, i: nat, declared: set<string>)
  {
    && i <= |pipeline|
    && LinksMirrored(states) && Idle(states) && RegistryConsistent(parameters, producers)
    && (forall n :: n in declared <==> Declared(pipeline[..i], n))
    && FollowsRead(states, pipeline, i, declared)
    && PipelineSectionValid(parameters, pipeline[..i])
    && RegistryRead(parameters, producers, pipeline, i, declared)
  }

  /** What holds once reading the `pipeline` section stops at an error: the error refutes the section, and the links and registry stay consistent. */
  ghost predicate SectionRejected(parameters: map<string, StageParameters>, producers: map<string, string>,
                                  states: map<string, StageState>, pipeline: seq<PipelineEntry>, e: BuildError)
  {
    && LinksMirrored(states) && Idle(states) && RegistryConsistent(parameters, producers)
    && PipelineSectionError(parameters, pipeline, e) && !PipelineSectionValid(parameters, pipeline)
  }

  /** Scheduling changes no `follows` or `followers` list. */
  lemma FollowsRecordedKept(before: map<string, StageState>, after: map<string, StageState>, pipeline: seq<PipelineEntry>)
    requires OnlyScheduled(before, after)
    ensures FollowsRecorded(before, pipeline) ==> FollowsRecorded(after, pipeline)
  {
  }

  /**
   * Once every stage of the `parameters` section is scheduled, starting from
   * idle stages, every stage is scheduled and still has an empty output cache.
   */
  lemma ScheduledEverywhere(params: seq<StageParameters>, parameters: map<string, StageParameters>,
                            before: map<string, StageState>, after: map<string, StageState>)
    requires ParametersRead(params, parameters) && before.Keys == parameters.Keys
    requires Idle(before) && OnlyScheduled(before, after) && AllScheduled(Names(params), after)
    ensures forall n :: n in after ==> after[n].scheduled && after[n].latestOutputData == []
  {
  }

  /** `after` differs from `before` at most in output caches. */
  ghost predicate CachesOnly(before: map<string, StageState>, after: map<string, StageState>) {
    && after.Keys == before.Keys
    && forall n :: n in after ==> after[n] == before[n].(latestOutputData := after[n].latestOutputData)
  }

  lemma CachesOnlyTrans(s0: map<string, StageState>, s1: map<string, StageState>, s2: map<string, StageState>)
    requires CachesOnly(s0, s1) && CachesOnly(s1, s2)
    ensures CachesOnly(s0, s2)
  {
  }

  /** The stages outside the first `i` of `order` are the same in `before` and `after`. */
  ghost predicate UntouchedFrom(before: map<string, StageState>, after: map<string, StageState>, order: seq<string>, i: nat)
    requires i <= |order|
  {
    forall n :: n in after && n !in order[..i] ==> n in before && after[n] == before[n]
  }

  lemma UntouchedStep(s0: map<string, StageState>, s1: map<string, StageState>, s2: map<string, StageState>, order: seq<string>, i: nat)
    requires i < |order| && UntouchedFrom(s0, s1, order, i) && s2.Keys == s1.Keys
    requires forall n :: n in s2 && n != order[i] ==> s2[n] == s1[n]
    ensures UntouchedFrom(s0, s2, order, i + 1)
  {
  }

  /** What each error of `BuildPipeline` says about the configuration. */
  ghost predicate BuildErrorExplained(params: seq<StageParameters>, parameters: map<string, StageParameters>,
                                      producers: map<string, string>, pipeline: seq<PipelineEntry>, e: BuildError) {
    match e
    case DuplicateStageParameters(n) => StageNameRepeated(params, n)
    case PredecessorNotDeclared(f) => (exists j :: Follows(pipeline, j, f)) && !Declared(pipeline, f)
    case MissingProducer(_, _) => ScheduleError(parameters, producers, e)
    case CyclicDependency(_) => ScheduleError(parameters, producers, e)
    case _ => PipelineSectionError(parameters, pipeline, e)
  }

    /** `after` differs from `before` at most in `scheduled` flags that were raised. */
  ghost predicate OnlyScheduled(before: map<string, StageState>, after: map<string, StageState>) {
    && after.Keys == before.Keys
    && forall n :: n in after ==>
         && after[n].follows == before[n].follows
         && after[n].followers == before[n].followers
         && after[n].latestOutputData == before[n].latestOutputData
         && (before[n].scheduled ==> after[n].scheduled)
  }

  /** Every field of `fields` has a registered producer that is scheduled. */
  ghost predicate ProducersScheduled(fields: seq<string>, producers: map<string, string>, states: map<string, StageState>) {
    forall f :: f in fields ==> f in producers && producers[f] in states && states[producers[f]].scheduled
  }

  lemma ProducersScheduledStep(fields: seq<string>, k: nat, producers: map<string, string>,
                               before: map<string, StageState>, after: map<string, StageState>)
    requires k < |fields| && ProducersScheduled(fields[..k], producers, before) && OnlyScheduled(before, after)
    requires fields[k] in producers && producers[fields[k]] in after && after[producers[fields[k]]].scheduled
    ensures ProducersScheduled(fields[..k + 1], producers, after)
  {
  }

  /** Every stage of `names` is scheduled. */
  ghost predicate AllScheduled(names: seq<string>, states: map<string, StageState>) {
    forall n :: n in names ==> n in states && states[n].scheduled
  }

  lemma AllScheduledStep(names: seq<string>, k: nat, before: map<string, StageState>, after: map<string, StageState>)
    requires k < |names| && AllScheduled(names[..k], before) && OnlyScheduled(before, after)
    requires names[k] in after && after[names[k]].scheduled
    ensures AllScheduled(names[..k + 1], after)
  {
  }

  /** The stages of `xs` have the same `scheduled` flag in `before` and `after`. */
  ghost predicate SameFlags(xs: seq<string>, before: map<string, StageState>, after: map<string, StageState>) {
    forall x :: x in xs && x in before ==> x in after && after[x].scheduled == before[x].scheduled
  }

  lemma SameFlagsTrans(xs: seq<string>, s0: map<string, StageState>, s1: map<string, StageState>, s2: map<string, StageState>)
    requires SameFlags(xs, s0, s1) && SameFlags(xs, s1, s2)
    ensures SameFlags(xs, s0, s2)
  {
  }

  lemma SameFlagsShorter(xs: seq<string>, x: string, before: map<string, StageState>, after: map<string, StageState>)
    requires SameFlags(xs + [x], before, after)
    ensures SameFlags(xs, before, after)
  {
  }

  lemma FlagRaisedElsewhere(xs: seq<string>, s: string, states: map<string, StageState>)
    requires s !in xs && s in states
    ensures SameFlags(xs, states, states[s := states[s].(scheduled := true)])
  {
  }

  lemma OnlyScheduledTrans(s0: map<string, StageState>, s1: map<string, StageState>, s2: map<string, StageState>)
    requires OnlyScheduled(s0, s1) && OnlyScheduled(s1, s2)
    ensures OnlyScheduled(s0, s2)
  {
  }

  /**
   * What a scheduling error says about the dependency graph: a consumed field
   * without a producer, or a dependency cycle.
   */
  ghost predicate ScheduleError(parameters: map<string, StageParameters>, producers: map<string, string>, e: BuildError) {
    || (e.MissingProducer? && e.stage in parameters && e.field in parameters[e.stage].inputDataFields && e.field !in producers)
    || (e.CyclicDependency? && IsCycle(parameters, producers, e.cycle))
  }

  /** Each scheduling error refutes that every consumed field has a producer and the graph is acyclic. */
  lemma ScheduleErrorIsViolation(parameters: map<string, StageParameters>, producers: map<string, string>, e: BuildError)
    requires ScheduleError(parameters, producers, e)
    ensures !(ProducersPresent(parameters, producers) && Acyclic(parameters, producers))
  {
  }

  /** Every stage is unscheduled and has an empty output cache. */
  ghost predicate Idle(states: map<string, StageState>) {
    forall n :: n in states ==> !states[n].scheduled && states[n].latestOutputData == []
  }

  /** Each registered field points at a defined stage that lists it among its output fields. */
  ghost predicate RegistryConsistent(parameters: map<string, StageParameters>, producers: map<string, string>) {
    forall f :: f in producers ==> producers[f] in parameters && f in parameters[producers[f]].outputDataFields
  }

  /**
   * The `follows` lists once the first `i` entries are read: an entry's list is
   * the one it declares, and a stage not yet declared has none.
   */
  ghost predicate FollowsRead(states: map<string, StageState>, pipeline: seq<PipelineEntry>, i: nat, declared: set<string>)
    requires i <= |pipeline|
  {
    && (forall j :: 0 <= j < i ==> pipeline[j].name in states && states[pipeline[j].name].follows == FollowList(pipeline[j]))
    && (forall n :: n in states && n !in declared ==> states[n].follows == [])
  }

  /**
   * The registry once the first `i` entries are read: it holds exactly their
   * output fields, each pointing at the entry that lists it.
   */
  ghost predicate RegistryRead(parameters: map<string, StageParameters>, producers: map<string, string>,
                               pipeline: seq<PipelineEntry>, i: nat, declared: set<string>)
    requires i <= |pipeline|
  {
    && (forall f :: f in producers <==> f in PipelineOutputs(parameters, pipeline[..i]))
    && (forall j, f :: 0 <= j < i && pipeline[j].name in parameters && f in parameters[pipeline[j].name].outputDataFields ==>
          f in producers && producers[f] == pipeline[j].name)
    && (forall f :: f in producers ==> producers[f] in declared)
  }

  /** A name not among the first `i` declared names differs from each of them. */
  lemma NewNameIsNew(pipeline: seq<PipelineEntry>, i: nat)
    requires i < |pipeline| && !Declared(pipeline[..i], pipeline[i].name)
    ensures forall j :: 0 <= j < i ==> pipeline[j].name != pipeline[i].name
  {
  }

  /** Recording the predecessors of entry `i`, and nothing else, extends the recorded `follows` lists by that entry. */
  lemma FollowsStep(states: map<string, StageState>, states': map<string, StageState>,
                    pipeline: seq<PipelineEntry>, i: nat, declared: set<string>)
    requires i < |pipeline| && FollowsRead(states, pipeline, i, declared)
    requires forall j :: 0 <= j < i ==> pipeline[j].name != pipeline[i].name
    requires states'.Keys == states.Keys && pipeline[i].name in states
    requires forall n :: n in states && n != pipeline[i].name ==> states'[n].follows == states[n].follows
    requires pipeline[i].follows.Some? ==> states'[pipeline[i].name].follows == pipeline[i].follows.value
    requires pipeline[i].follows.None? ==> states' == states && pipeline[i].name !in declared
    ensures FollowsRead(states', pipeline, i + 1, declared + {pipeline[i].name})
  {
  }

  /** Registering the outputs of entry `i` extends the registry by exactly those fields, pointing at that entry. */
  lemma RegistryStep(parameters: map<string, StageParameters>, producers: map<string, string>, producers': map<string, string>,
                     pipeline: seq<PipelineEntry>, i: nat, declared: set<string>)
    requires i < |pipeline| && RegistryRead(parameters, producers, pipeline, i, declared)
    requires pipeline[i].name in parameters
    requires PipelineOutputs(parameters, pipeline[..i + 1])
               == PipelineOutputs(parameters, pipeline[..i]) + parameters[pipeline[i].name].outputDataFields
    requires Distinct(PipelineOutputs(parameters, pipeline[..i + 1]))
    requires forall f :: f in producers' <==> f in PipelineOutputs(parameters, pipeline[..i + 1])
    requires forall f :: f in producers' ==> producers'[f] == (if f in producers then producers[f] else pipeline[i].name)
    ensures RegistryRead(parameters, producers', pipeline, i + 1, declared + {pipeline[i].name})
  {
    var name := pipeline[i].name;
    var outs := parameters[name].outputDataFields;
    DistinctDisjoint(PipelineOutputs(parameters, pipeline[..i]), outs);
  }

  /** An entry whose name was already declared earlier in the section is a repeated entry. */
  lemma DuplicateEntryExplained(pipeline: seq<PipelineEntry>, i: nat)
    requires i < |pipeline| && Declared(pipeline[..i], pipeline[i].name)
    ensures EntryRepeated(pipeline, pipeline[i].name)
  {
  }

  /** The names declared by the first `i + 1` entries are those of the first `i` and the name of entry `i`. */
  lemma DeclaredStep(pipeline: seq<PipelineEntry>, i: nat, declared: set<string>)
    requires i < |pipeline| && forall n :: n in declared <==> Declared(pipeline[..i], n)
    ensures forall n :: n in declared + {pipeline[i].name} <==> Declared(pipeline[..i + 1], n)
  {
  }
}
