/**
 * What one iteration computes: how a stage's input list is wired from the
 * output caches of the producers of its input fields, and when a stage's cache
 * is settled, i.e. equal to what running the stage on its current inputs gives.
 */
module Execution {
  import opened Seqs
  import opened Stages
  import opened Dependencies

  /**
   * The value a consumer receives for field `f`: the entry of the producer's
   * output cache at the first position of `f` among the producer's declared
   * output fields.
   */
  function FieldValue(parameters: map<string, StageParameters>, producers: map<string, string>,
                      states: map<string, StageState>, f: string): (r: Result<Datum, RunError>)
    ensures r.Success? ==>
              && f in producers && producers[f] in parameters && producers[f] in states
              && f in parameters[producers[f]].outputDataFields
              && var k := IndexOf(parameters[producers[f]].outputDataFields, f);
                 k < |states[producers[f]].latestOutputData| && r.value == states[producers[f]].latestOutputData[k]
  {
    if f !in producers || producers[f] !in parameters || producers[f] !in states
       || f !in parameters[producers[f]].outputDataFields then
      Failure(UnknownField(f))
    else
      var p := producers[f];
      var k := IndexOf(parameters[p].outputDataFields, f);
      if k < |states[p].latestOutputData| then Success(states[p].latestOutputData[k])
      else Failure(MissingOutput(p, f))
  }

  /**
   * The input list of a consumer of `fields`, aligned position by position with
   * `fields`; the first field whose value is unavailable gives the error.
   */
  function Wire(parameters: map<string, StageParameters>, producers: map<string, string>,
                states: map<string, StageState>, fields: seq<string>): (r: Result<seq<Datum>, RunError>)
    ensures r.Success? <==> forall k :: 0 <= k < |fields| ==> FieldValue(parameters, producers, states, fields[k]).Success?
    ensures r.Success? ==>
              |r.value| == |fields|
              && forall k :: 0 <= k < |fields| ==> FieldValue(parameters, producers, states, fields[k]) == Success(r.value[k])
  {
    if fields == [] then Success([])
    else
      var front := fields[..|fields| - 1];
      assert forall k :: 0 <= k < |front| ==> front[k] == fields[k];
      match Wire(parameters, producers, states, front)
      case Failure(e) => Failure(e)
      case Success(values) =>
        match FieldValue(parameters, producers, states, fields[|fields| - 1])
        case Failure(e) => Failure(e)
        case Success(v) => Success(values + [v])
  }

  /** The outputs running stage `s` on its wired inputs produces, or the error that stops it. */
  function StageRun(parameters: map<string, StageParameters>, producers: map<string, string>,
                    states: map<string, StageState>, reg: Registry, s: string): (r: Result<seq<Datum>, RunError>)
    requires s in parameters
  {
    match Wire(parameters, producers, states, parameters[s].inputDataFields)
    case Failure(e) => Failure(e)
    case Success(input) => Dispatch(parameters[s], input, reg)
  }

  /** Stage `s`'s output cache is what running `s` on its current inputs produces. */
  ghost predicate Settled(parameters: map<string, StageParameters>, producers: map<string, string>,
                          states: map<string, StageState>, reg: Registry, s: string) {
    s in parameters && s in states && StageRun(parameters, producers, states, reg, s) == Success(states[s].latestOutputData)
  }

  /** The inputs of a consumer depend only on the caches of the producers of its fields. */
  lemma {:induction false} WireFrame(parameters: map<string, StageParameters>, producers: map<string, string>,
                                     states: map<string, StageState>, states': map<string, StageState>, fields: seq<string>)
    requires states.Keys == states'.Keys
    requires forall k :: 0 <= k < |fields| && fields[k] in producers && producers[fields[k]] in states ==>
               states[producers[fields[k]]].latestOutputData == states'[producers[fields[k]]].latestOutputData
    ensures Wire(parameters, producers, states, fields) == Wire(parameters, producers, states', fields)
  {
    if fields != [] {
      var front := fields[..|fields| - 1];
      assert forall k :: 0 <= k < |front| ==> front[k] == fields[k];
      WireFrame(parameters, producers, states, states', front);
    }
  }

  /**
   * Overwriting the cache of stage `s` leaves every other stage settled that
   * does not consume an output of `s`.
   */
  lemma SettledFrame(parameters: map<string, StageParameters>, producers: map<string, string>,
                     states: map<string, StageState>, reg: Registry, s: string, out: seq<Datum>, t: string)
    requires s in states && t != s && Settled(parameters, producers, states, reg, t)
    requires forall f :: f in parameters[t].inputDataFields && f in producers ==> producers[f] != s
    ensures Settled(parameters, producers, states[s := states[s].(latestOutputData := out)], reg, t)
  {
  }

  /**
   * A stage of an order that places producers first, settled in two states in
   * which the stages before it hold the same caches, holds the same cache in both.
   */
  lemma SettledAgree(parameters: map<string, StageParameters>, producers: map<string, string>, reg: Registry,
                     states: map<string, StageState>, states': map<string, StageState>, order: seq<string>, n: nat)
    requires states.Keys == states'.Keys
    requires ProducersFirst(parameters, producers, order) && n < |order|
    requires Settled(parameters, producers, states, reg, order[n]) && Settled(parameters, producers, states', reg, order[n])
    requires forall x :: x in order[..n] ==> x in states && states[x].latestOutputData == states'[x].latestOutputData
    ensures order[n] in states && states[order[n]].latestOutputData == states'[order[n]].latestOutputData
  {
  }

  /**
   * Determinism: along an order that places producers first, the settled
   * caches are unique. Two states in which every stage of the order is settled
   * hold the same outputs for every stage of the order.
   */
  lemma {:induction false} SettledIsDeterminate(parameters: map<string, StageParameters>, producers: map<string, string>,
                                                order: seq<string>, reg: Registry,
                                                states: map<string, StageState>, states': map<string, StageState>)
    requires ProducersFirst(parameters, producers, order)
    requires states.Keys == states'.Keys
    requires forall i :: 0 <= i < |order| ==>
               Settled(parameters, producers, states, reg, order[i]) && Settled(parameters, producers, states', reg, order[i])
    ensures forall i :: 0 <= i < |order| ==>
              order[i] in states && states[order[i]].latestOutputData == states'[order[i]].latestOutputData
  {
    var n := 0;
    while n < |order|
      invariant 0 <= n <= |order|
      invariant forall x :: x in order[..n] ==>
                  x in states && states[x].latestOutputData == states'[x].latestOutputData
    {
      SettledAgree(parameters, producers, reg, states, states', order, n);
      forall x | x in order[..n + 1]
        ensures x in states && states[x].latestOutputData == states'[x].latestOutputData
      {
        assert order[..n + 1] == order[..n] + [order[n]];
      }
      n := n + 1;
    }
    assert order[..n] == order;
  }

  /** Once a prefix of the fields fails to wire, the whole list fails with the same error. */
  lemma {:induction false} WirePrefixFailure(parameters: map<string, StageParameters>, producers: map<string, string>,
                                             states: map<string, StageState>, fields: seq<string>, k: nat)
    requires k <= |fields| && Wire(parameters, producers, states, fields[..k]).Failure?
    ensures Wire(parameters, producers, states, fields) == Wire(parameters, producers, states, fields[..k])
  {
    if k < |fields| {
      var front := fields[..|fields| - 1];
      assert front[..k] == fields[..k];
      WirePrefixFailure(parameters, producers, states, front, k);
    } else {
      assert fields[..k] == fields;
    }
  }

  /**
   * A failed wiring reports the first field, in the consumer's order, whose
   * value is unavailable.
   */
  lemma {:induction false} WireFailsAtFirst(parameters: map<string, StageParameters>, producers: map<string, string>,
                                            states: map<string, StageState>, fields: seq<string>)
    requires Wire(parameters, producers, states, fields).Failure?
    ensures exists k :: 0 <= k < |fields| && FieldValue(parameters, producers, states, fields[k]) == Failure(Wire(parameters, producers, states, fields).error)
              && forall j :: 0 <= j < k ==> FieldValue(parameters, producers, states, fields[j]).Success?
  {
    var front := fields[..|fields| - 1];
    assert forall k :: 0 <= k < |front| ==> front[k] == fields[k];
    if Wire(parameters, producers, states, front).Failure? {
      WireFailsAtFirst(parameters, producers, states, front);
      var k :| 0 <= k < |front| && FieldValue(parameters, producers, states, front[k]) == Failure(Wire(parameters, producers, states, front).error)
                && forall j :: 0 <= j < k ==> FieldValue(parameters, producers, states, front[j]).Success?;
      assert fields[k] == front[k];
    } else {
      assert FieldValue(parameters, producers, states, fields[|front|]).Failure?;
    }
  }

  /** Every one of the first `i` stages of `order` is settled. */
  ghost predicate SettledUpTo(parameters: map<string, StageParameters>, producers: map<string, string>,
                              states: map<string, StageState>, reg: Registry, order: seq<string>, i: nat)
    requires i <= |order|
  {
    forall k :: 0 <= k < i ==> Settled(parameters, producers, states, reg, order[k])
  }

  /**
   * Running stage `order[i]` on its wired inputs, after the stages before it
   * are settled, settles it and leaves the stages before it settled: none of
   * them consumes its outputs when producers come first.
   */
  lemma RunSettles(parameters: map<string, StageParameters>, producers: map<string, string>,
                   states: map<string, StageState>, reg: Registry, order: seq<string>, i: nat, out: seq<Datum>)
    requires Distinct(order) && ProducersFirst(parameters, producers, order)
    requires i < |order| && order[i] in parameters && order[i] in states
    requires SettledUpTo(parameters, producers, states, reg, order, i)
    requires StageRun(parameters, producers, states, reg, order[i]) == Success(out)
    ensures SettledUpTo(parameters, producers, states[order[i] := states[order[i]].(latestOutputData := out)], reg, order, i + 1)
  {
    var s := order[i];
    var states' := states[s := states[s].(latestOutputData := out)];
    forall k | 0 <= k <= i
      ensures forall f :: f in parameters[order[k]].inputDataFields && f in producers ==> producers[f] != s
    {
      forall f | f in parameters[order[k]].inputDataFields && f in producers
        ensures producers[f] != s
      {
        var j := IndexOf(order[..k], producers[f]);
        assert order[j] == producers[f];
      }
    }
    forall k | 0 <= k < i
      ensures Settled(parameters, producers, states', reg, order[k])
    {
      SettledFrame(parameters, producers, states, reg, s, out, order[k]);
    }
    WireFrame(parameters, producers, states, states', parameters[s].inputDataFields);
  }
}
