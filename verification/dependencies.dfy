/**
 * The data-dependency graph the scheduler walks: stage `a` depends on stage `b`
 * when `a` consumes a field whose registered producer is `b`. The `follows`
 * links of the pipeline section play no part in it.
 */
module Dependencies {
  import opened Seqs
  import opened Stages

  /** Stage `a` consumes a field whose registered producer is `b`. */
  ghost predicate DependsOn(parameters: map<string, StageParameters>, producers: map<string, string>, a: string, b: string) {
    a in parameters && exists f :: f in parameters[a].inputDataFields && f in producers && producers[f] == b
  }

  /** Each stage of `c` depends on the next one. */
  ghost predicate IsChain(parameters: map<string, StageParameters>, producers: map<string, string>, c: seq<string>) {
    forall k :: 0 <= k < |c| - 1 ==> DependsOn(parameters, producers, c[k], c[k + 1])
  }

  /** A chain whose last stage depends on its first: a dependency cycle. */
  ghost predicate IsCycle(parameters: map<string, StageParameters>, producers: map<string, string>, c: seq<string>) {
    |c| > 0 && IsChain(parameters, producers, c) && DependsOn(parameters, producers, c[|c| - 1], c[0])
  }

  /** A chain leads from stage `a` to stage `b`: `a` depends on `b` directly or transitively, or is `b`. */
  ghost predicate Reaches(parameters: map<string, StageParameters>, producers: map<string, string>, a: string, b: string) {
    exists c :: IsChain(parameters, producers, c) && |c| > 0 && c[0] == a && c[|c| - 1] == b
  }

  /** Every stage of `after` that is not in `before` is reached from stage `a`. */
  ghost predicate NewlyReached(parameters: map<string, StageParameters>, producers: map<string, string>, a: string,
                               before: seq<string>, after: seq<string>) {
    forall n {:trigger Reaches(parameters, producers, a, n)} :: n in after && n !in before ==> Reaches(parameters, producers, a, n)
  }

  ghost predicate Acyclic(parameters: map<string, StageParameters>, producers: map<string, string>) {
    forall c :: !IsCycle(parameters, producers, c)
  }

  /** Every field a defined stage consumes has a registered producer. */
  ghost predicate ProducersPresent(parameters: map<string, StageParameters>, producers: map<string, string>) {
    forall n, f :: n in parameters && f in parameters[n].inputDataFields ==> f in producers
  }

  /** Every field consumed by a stage of `order` has a producer placed earlier in `order`. */
  ghost predicate ProducersFirst(parameters: map<string, StageParameters>, producers: map<string, string>, order: seq<string>) {
    forall i, f :: 0 <= i < |order| && order[i] in parameters && f in parameters[order[i]].inputDataFields ==>
      f in producers && producers[f] in order[..i]
  }

  /** In an order that places producers first, a dependency points to an earlier position. */
  lemma DependencyPointsBack(parameters: map<string, StageParameters>, producers: map<string, string>, order: seq<string>, a: string, b: string)
    requires Distinct(order) && ProducersFirst(parameters, producers, order)
    requires forall n :: n in parameters ==> n in order
    ensures DependsOn(parameters, producers, a, b) ==>
              a in order && b in order && IndexOf(order, b) < IndexOf(order, a)
  {
  }

  /** Along a chain that starts inside such an order, positions strictly decrease. */
  lemma {:induction false} ChainDescends(parameters: map<string, StageParameters>, producers: map<string, string>, order: seq<string>, c: seq<string>, k: nat)
    requires Distinct(order) && ProducersFirst(parameters, producers, order)
    requires forall n :: n in parameters ==> n in order
    requires IsChain(parameters, producers, c) && k < |c| && c[0] in order
    ensures c[k] in order && IndexOf(order, c[k]) + k <= IndexOf(order, c[0])
  {
    if k > 0 {
      ChainDescends(parameters, producers, order, c, k - 1);
      DependencyPointsBack(parameters, producers, order, c[k - 1], c[k]);
    }
  }

  /**
   * An order that lists every defined stage once and places the producers of
   * each stage's inputs before it witnesses that every consumed field has a
   * producer and that the dependency graph has no cycle.
   */
  lemma ProducersFirstIsAcyclic(parameters: map<string, StageParameters>, producers: map<string, string>, order: seq<string>)
    requires Distinct(order) && ProducersFirst(parameters, producers, order)
    requires forall n :: n in parameters ==> n in order
    ensures ProducersPresent(parameters, producers)
    ensures Acyclic(parameters, producers)
  {
    forall n, f | n in parameters && f in parameters[n].inputDataFields
      ensures f in producers
    {
      var i := IndexOf(order, n);
    }
    forall c
      ensures !IsCycle(parameters, producers, c)
    {
      if |c| > 0 && IsChain(parameters, producers, c) {
        DependencyPointsBack(parameters, producers, order, c[|c| - 1], c[0]);
        if c[0] in order {
          ChainDescends(parameters, producers, order, c, |c| - 1);
        }
      }
    }
  }

  /** Appending a stage whose producers are already in the order keeps producers first. */
  lemma ProducersFirstAppend(parameters: map<string, StageParameters>, producers: map<string, string>, order: seq<string>, s: string)
    requires ProducersFirst(parameters, producers, order) && s in parameters
    requires forall f :: f in parameters[s].inputDataFields ==> f in producers && producers[f] in order
    ensures ProducersFirst(parameters, producers, order + [s])
  {
    var order' := order + [s];
    forall i, f | 0 <= i < |order'| && order'[i] in parameters && f in parameters[order'[i]].inputDataFields
      ensures f in producers && producers[f] in order'[..i]
    {
      if i < |order| {
        assert order'[..i] == order[..i];
      } else {
        assert order'[..i] == order;
      }
    }
  }

  /** A segment of a chain that runs to its end is a chain. */
  lemma ChainSuffix(parameters: map<string, StageParameters>, producers: map<string, string>, c: seq<string>, k: nat)
    requires IsChain(parameters, producers, c) && k <= |c|
    ensures IsChain(parameters, producers, c[k..])
  {
  }

  /** Extending a chain by a stage its last stage depends on gives a chain. */
  lemma ChainExtend(parameters: map<string, StageParameters>, producers: map<string, string>, c: seq<string>, b: string)
    requires IsChain(parameters, producers, c) && |c| > 0 && DependsOn(parameters, producers, c[|c| - 1], b)
    ensures IsChain(parameters, producers, c + [b])
  {
  }

  /** Every stage reaches itself, by the chain of that stage alone. */
  lemma ReachesSelf(parameters: map<string, StageParameters>, producers: map<string, string>, a: string)
    ensures Reaches(parameters, producers, a, a)
  {
    assert IsChain(parameters, producers, [a]);
  }

  /** What a producer of `a` reaches, `a` reaches too. */
  lemma NewlyReachedStep(parameters: map<string, StageParameters>, producers: map<string, string>, a: string, b: string,
                         before: seq<string>, after: seq<string>)
    requires DependsOn(parameters, producers, a, b) && NewlyReached(parameters, producers, b, before, after)
    ensures NewlyReached(parameters, producers, a, before, after)
  {
    forall n | n in after && n !in before
      ensures Reaches(parameters, producers, a, n)
    {
      assert Reaches(parameters, producers, b, n);
      var c :| IsChain(parameters, producers, c) && |c| > 0 && c[0] == b && c[|c| - 1] == n;
      assert IsChain(parameters, producers, [a] + c);
    }
  }

  /** Stages newly reached from `a` between `xs` and `ys`, then `ys` and `zs`, are newly reached between `xs` and `zs`. */
  lemma NewlyReachedTrans(parameters: map<string, StageParameters>, producers: map<string, string>, a: string,
                          xs: seq<string>, ys: seq<string>, zs: seq<string>)
    requires xs <= ys
    requires NewlyReached(parameters, producers, a, xs, ys) && NewlyReached(parameters, producers, a, ys, zs)
    ensures NewlyReached(parameters, producers, a, xs, zs)
  {
  }

  /** Appending `a` itself keeps the new stages reached from `a`. */
  lemma NewlyReachedAppend(parameters: map<string, StageParameters>, producers: map<string, string>, a: string,
                           xs: seq<string>, ys: seq<string>)
    requires NewlyReached(parameters, producers, a, xs, ys)
    ensures NewlyReached(parameters, producers, a, xs, ys + [a])
  {
    ReachesSelf(parameters, producers, a);
  }

  /** A chain that starts inside an order placing producers first stays inside it. */
  lemma {:induction false} ChainInOrder(parameters: map<string, StageParameters>, producers: map<string, string>, order: seq<string>, c: seq<string>, k: nat)
    requires ProducersFirst(parameters, producers, order)
    requires IsChain(parameters, producers, c) && k < |c| && c[0] in order
    ensures c[k] in order
  {
    if k > 0 {
      ChainInOrder(parameters, producers, order, c, k - 1);
      var i := IndexOf(order, c[k - 1]);
      assert DependsOn(parameters, producers, c[k - 1], c[k]);
      var f :| f in parameters[c[k - 1]].inputDataFields && f in producers && producers[f] == c[k];
      assert producers[f] in order[..i];
    }
  }

  /** Once a stage is in an order placing producers first, so is every stage it reaches. */
  lemma ReachesInOrder(parameters: map<string, StageParameters>, producers: map<string, string>, order: seq<string>, a: string)
    requires ProducersFirst(parameters, producers, order) && a in order
    ensures forall b :: Reaches(parameters, producers, a, b) ==> b in order
  {
    forall b | Reaches(parameters, producers, a, b)
      ensures b in order
    {
      var c :| IsChain(parameters, producers, c) && |c| > 0 && c[0] == a && c[|c| - 1] == b;
      ChainInOrder(parameters, producers, order, c, |c| - 1);
    }
  }
}
