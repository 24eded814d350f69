/** The lazy environment composer (`src/executor/environment.rs`): the
    same four layers as `Step::environment` in `src/executor/mod.rs`, but
    handed out as a chain of iterators (global, repository, step, then the
    trigger pairs) for the consumer to apply in order. */
module Environment {
  import opened Wrappers
  import opened Config
  import opened Trigger
  import Executor

  type Pair = (string, string)

  /** A `HashMap`'s iteration order: every key exactly once, in some order. */
  ghost predicate IsOrderOf(keys: seq<string>, m: Env) {
    && |keys| == |m|
    && (forall k :: k in keys <==> k in m)
    && (forall i, j :: 0 <= i < j < |keys| ==> keys[i] != keys[j])
  }

  /** The pairs a map's iterator yields when its keys come in `keys` order. */
  function Iterate(m: Env, keys: seq<string>): (ps: seq<Pair>)
    requires forall k :: k in keys ==> k in m
    ensures |ps| == |keys|
    ensures forall i :: 0 <= i < |ps| ==> ps[i] == (keys[i], m[keys[i]])
  {
    if keys == [] then []
    else Iterate(m, keys[..|keys| - 1]) + [(keys[|keys| - 1], m[keys[|keys| - 1]])]
  }

  /** Applying pairs in order to an empty map, a later pair overwriting an
      earlier one with the same key (what `Command::envs` does). */
  function Apply(ps: seq<Pair>): Env
  {
    if ps == [] then map[]
    else Apply(ps[..|ps| - 1])[ps[|ps| - 1].0 := ps[|ps| - 1].1]
  }

  // ---- the trigger pairs ----

  /** `filter_map` over candidate pairs: keep those whose value is present. */
  function KeepPresent(candidates: seq<(string, Option<string>)>): seq<Pair>
  {
    if candidates == [] then []
    else
      var rest := KeepPresent(candidates[1..]);
      match candidates[0].1
      case Some(v) => [(candidates[0].0, v)] + rest
      case None => rest
  }

  /** The kept pairs are exactly the candidates that carry a value. */
  lemma {:induction false} KeepPresentContents(candidates: seq<(string, Option<string>)>)
    ensures forall p :: p in KeepPresent(candidates) <==> (p.0, Some(p.1)) in candidates
  {
    if candidates != [] {
      KeepPresentContents(candidates[1..]);
      assert candidates == [candidates[0]] + candidates[1..];
    }
  }

  /** The trigger pairs of `Step::environment` (lines 61-72). */
  function TriggerPairs(ti: TriggeredInfo): (ps: seq<Pair>)
    ensures |ps| >= 1 && ps[0] == (Executor.RepositoryKey, ti.repository)
  {
    KeepPresent([(Executor.RepositoryKey, Some(ti.repository)),
                 (Executor.BranchKey, ti.branch),
                 (Executor.TagKey, ti.tag),
                 (Executor.StepsNameKey, ti.stepsName)])
  }

  function Count(o: Option<string>): nat {
    if o.Some? then 1 else 0
  }

  /** The repository pair always comes first; branch, tag and step-set name
      follow in that order, each exactly when the trigger carries it. */
  lemma TriggerPairsOrder(ti: TriggeredInfo)
    ensures TriggerPairs(ti)
         == [(Executor.RepositoryKey, ti.repository)]
          + (if ti.branch.Some? then [(Executor.BranchKey, ti.branch.value)] else [])
          + (if ti.tag.Some? then [(Executor.TagKey, ti.tag.value)] else [])
          + (if ti.stepsName.Some? then [(Executor.StepsNameKey, ti.stepsName.value)] else [])
    ensures |TriggerPairs(ti)| == 1 + Count(ti.branch) + Count(ti.tag) + Count(ti.stepsName)
  {
    var c := [(Executor.RepositoryKey, Some(ti.repository)), (Executor.BranchKey, ti.branch),
              (Executor.TagKey, ti.tag), (Executor.StepsNameKey, ti.stepsName)];
    assert c[1..][1..][1..][1..] == [];
    var d := if ti.stepsName.Some? then [(Executor.StepsNameKey, ti.stepsName.value)] else [];
    assert KeepPresent(c[1..][1..][1..]) == d;
    var t := if ti.tag.Some? then [(Executor.TagKey, ti.tag.value)] else [];
    assert KeepPresent(c[1..][1..]) == t + d;
    var b := if ti.branch.Some? then [(Executor.BranchKey, ti.branch.value)] else [];
    assert KeepPresent(c[1..]) == b + (t + d);
    assert KeepPresent(c) == [(Executor.RepositoryKey, ti.repository)] + (b + (t + d));
  }

  /** Applied in order, the trigger pairs give the trigger variables of
      the eager composer. */
  lemma TriggerPairsApply(ti: TriggeredInfo)
    ensures Apply(TriggerPairs(ti)) == Executor.TriggerVars(ti)
  {
    TriggerPairsOrder(ti);
    var r := [(Executor.RepositoryKey, ti.repository)];
    var b := if ti.branch.Some? then [(Executor.BranchKey, ti.branch.value)] else [];
    var t := if ti.tag.Some? then [(Executor.TagKey, ti.tag.value)] else [];
    var d := if ti.stepsName.Some? then [(Executor.StepsNameKey, ti.stepsName.value)] else [];
    ApplyConcat(r + b + t, d);
    ApplyConcat(r + b, t);
    ApplyConcat(r, b);
    ApplyOne(r);
    if b != [] { ApplyOne(b); }
    if t != [] { ApplyOne(t); }
    if d != [] { ApplyOne(d); }
  }

  lemma ApplyOne(ps: seq<Pair>)
    requires |ps| == 1
    ensures Apply(ps) == map[ps[0].0 := ps[0].1]
  {
    assert ps[..0] == [];
  }

  /** Applying two sequences one after the other: the later wins. */
  lemma {:induction false} ApplyConcat(a: seq<Pair>, b: seq<Pair>)
    ensures Apply(a + b) == Apply(a) + Apply(b)
    decreases |b|
  {
    if b == [] {
      assert a + b == a;
    } else {
      var n := |b| - 1;
      assert (a + b)[..|a + b| - 1] == a + b[..n];
      assert (a + b)[|a + b| - 1] == b[n];
      ApplyConcat(a, b[..n]);
    }
  }

  /** Applying a map's pairs, in any key order, gives the map back
      restricted to the keys visited; duplicates do no harm. */
  lemma {:induction false} ApplyIterate(m: Env, keys: seq<string>)
    requires forall k :: k in keys ==> k in m
    ensures Apply(Iterate(m, keys)) == map k | k in keys :: m[k]
    decreases |keys|
  {
    if keys != [] {
      var n := |keys| - 1;
      var ps := Iterate(m, keys);
      assert ps[..|ps| - 1] == Iterate(m, keys[..n]);
      ApplyIterate(m, keys[..n]);
      assert forall k :: k in keys <==> k in keys[..n] || k == keys[n] by {
        assert keys == keys[..n] + [keys[n]];
      }
    }
  }

  /** Iterating a whole map and applying the pairs rebuilds it. */
  lemma LayerPairsApply(layer: Option<Env>, keys: seq<string>)
    requires layer.Some? ==> IsOrderOf(keys, layer.value)
    ensures Apply(LayerPairs(layer, keys)) == Executor.Layer(layer)
  {
    if layer.Some? {
      ApplyIterate(layer.value, keys);
    }
  }

  // ---- Environment and its iterator ----

  /** The borrowed layers and the trigger pairs. */
  datatype Environment = Environment(global: Option<Env>, repository: Option<Env>,
                                     step: Option<Env>, triggeredInfo: seq<Pair>)

  /** `Step::environment` in `src/executor/environment.rs`. */
  function StepEnvironment(step: Step, config: Config, repository: Repository,
                           ti: TriggeredInfo): (e: Environment)
    ensures e.triggeredInfo == TriggerPairs(ti)
    ensures e.global == config.environment && e.repository == repository.environment
    ensures e.step == step.environment
  {
    Environment(config.environment, repository.environment, step.environment, TriggerPairs(ti))
  }

  /** The iteration orders the three maps happen to have. */
  ghost predicate OrdersFit(e: Environment, globalKeys: seq<string>, repositoryKeys: seq<string>,
                      stepKeys: seq<string>)
  {
    && (e.global.Some? ==> IsOrderOf(globalKeys, e.global.value))
    && (e.repository.Some? ==> IsOrderOf(repositoryKeys, e.repository.value))
    && (e.step.Some? ==> IsOrderOf(stepKeys, e.step.value))
  }

  /** A layer's pairs, or none when the layer is absent. */
  function LayerPairs(layer: Option<Env>, keys: seq<string>): seq<Pair>
    requires layer.Some? ==> IsOrderOf(keys, layer.value)
  {
    if layer.Some? then Iterate(layer.value, keys) else []
  }

  /** Everything the iterator yields, in order. */
  function Chain(e: Environment, globalKeys: seq<string>, repositoryKeys: seq<string>,
                 stepKeys: seq<string>): seq<Pair>
    requires OrdersFit(e, globalKeys, repositoryKeys, stepKeys)
  {
    LayerPairs(e.global, globalKeys)
    + (LayerPairs(e.repository, repositoryKeys) + (LayerPairs(e.step, stepKeys) + e.triggeredInfo))
  }

  /** The pairs left in an optional sub-iterator. */
  function Left(layer: Option<seq<Pair>>): seq<Pair> {
    if layer.Some? then layer.value else []
  }

  lemma Shift(x: Pair, a: seq<Pair>, rest: seq<Pair>)
    ensures ([x] + a) + rest == [x] + (a + rest)
  {
  }

  /** `Iterator::next` on an optional sub-iterator: its first pair, and
      the sub-iterator without it; an absent or exhausted one yields nothing. */
  function Advance(layer: Option<seq<Pair>>): (r: (Option<Pair>, Option<seq<Pair>>))
    ensures r.0.None? ==> Left(layer) == [] && Left(r.1) == []
    ensures r.0.Some? ==> Left(layer) == [r.0.value] + Left(r.1)
  {
    if layer.Some? && layer.value != [] then (Some(layer.value[0]), Some(layer.value[1..]))
    else (None, layer)
  }

  /** `EnvironmentIter`: the four sub-iterators, each modelled by the
      pairs it has still to yield. */
  class EnvironmentIter {
    var global: Option<seq<Pair>>
    var repository: Option<seq<Pair>>
    var step: Option<seq<Pair>>
    var triggeredInfo: seq<Pair>

    /** The pairs still to come, in the order `next` hands them out. */
    function Remaining(): seq<Pair>
      reads this
    {
      Left(global) + (Left(repository) + (Left(step) + triggeredInfo))
    }

    /** `Environment::into_iter`, each map iterated in the given key order. */
    constructor (e: Environment, globalKeys: seq<string>, repositoryKeys: seq<string>,
                 stepKeys: seq<string>)
      requires OrdersFit(e, globalKeys, repositoryKeys, stepKeys)
      ensures Remaining() == Chain(e, globalKeys, repositoryKeys, stepKeys)
    {
      global := if e.global.Some? then Some(Iterate(e.global.value, globalKeys)) else None;
      repository := if e.repository.Some? then Some(Iterate(e.repository.value, repositoryKeys)) else None;
      step := if e.step.Some? then Some(Iterate(e.step.value, stepKeys)) else None;
      triggeredInfo := e.triggeredInfo;
    }

    /** `next`: the next pair of the first sub-iterator that still has one. */
    method Next() returns (item: Option<Pair>)
      modifies this
      ensures item.None? <==> old(Remaining()) == []
      ensures item.None? ==> Remaining() == []
      ensures item.Some? ==> old(Remaining()) == [item.value] + Remaining()
      ensures old(Left(global)) != [] ==> item == Some(old(Left(global))[0])
    {
      ghost var r, s, t := Left(repository), Left(step), triggeredInfo;
      var next := Advance(global);
      item, global := next.0, next.1;
      if item.Some? {
        Shift(item.value, Left(global), r + (s + t));
        return;
      }
      next := Advance(repository);
      item, repository := next.0, next.1;
      if item.Some? {
        Shift(item.value, Left(repository), s + t);
        return;
      }
      next := Advance(step);
      item, step := next.0, next.1;
      if item.Some? {
        Shift(item.value, Left(step), t);
        return;
      }
      next := Advance(Some(triggeredInfo));
      item, triggeredInfo := next.0, Left(next.1);
    }
  }

  /** Draining an iterator into a map, a later pair overwriting an
      earlier one with the same key, as `Command::envs` does with any
      iterator of pairs. */
  method Drain(it: EnvironmentIter) returns (env: Env)
    modifies it
    ensures env == Apply(old(it.Remaining()))
    ensures it.Remaining() == []
  {
    ghost var all := it.Remaining();
    ghost var done: seq<Pair> := [];
    env := map[];
    while true
      invariant all == done + it.Remaining()
      invariant env == Apply(done)
      decreases |it.Remaining()|
    {
      var item := it.Next();
      if item.None? {
        break;
      }
      assert (done + [item.value])[..|done|] == done;
      env := env[item.value.0 := item.value.1];
      done := done + [item.value];
    }
    assert done + it.Remaining() == done;
  }

  /** The lazy composer, drained, gives the eager composer's map. */
  method Collect(step: Step, config: Config, repository: Repository, ti: TriggeredInfo,
                 globalKeys: seq<string>, repositoryKeys: seq<string>, stepKeys: seq<string>)
    returns (env: Env)
    requires OrdersFit(StepEnvironment(step, config, repository, ti), globalKeys, repositoryKeys, stepKeys)
    ensures env == Executor.ComposedEnv(config.environment, repository.environment, step.environment, ti)
  {
    var e := StepEnvironment(step, config, repository, ti);
    var it := new EnvironmentIter(e, globalKeys, repositoryKeys, stepKeys);
    env := Drain(it);
    ChainAgreesWithComposedEnv(step, config, repository, ti, globalKeys, repositoryKeys, stepKeys);
  }

  /** Consuming the whole chain in order, whatever order each map
      iterates in, sets exactly the variables of the eager composer
      `Step::environment` in `src/executor/mod.rs`. */
  lemma ChainAgreesWithComposedEnv(step: Step, config: Config, repository: Repository,
                                   ti: TriggeredInfo, globalKeys: seq<string>,
                                   repositoryKeys: seq<string>, stepKeys: seq<string>)
    requires OrdersFit(StepEnvironment(step, config, repository, ti), globalKeys, repositoryKeys, stepKeys)
    ensures Apply(Chain(StepEnvironment(step, config, repository, ti), globalKeys, repositoryKeys, stepKeys))
         == Executor.ComposedEnv(config.environment, repository.environment, step.environment, ti)
  {
    var e := StepEnvironment(step, config, repository, ti);
    var g := LayerPairs(e.global, globalKeys);
    var r := LayerPairs(e.repository, repositoryKeys);
    var s := LayerPairs(e.step, stepKeys);
    var t := e.triggeredInfo;
    ApplyConcat(g, r + (s + t));
    ApplyConcat(r, s + t);
    ApplyConcat(s, t);
    LayerPairsApply(e.global, globalKeys);
    LayerPairsApply(e.repository, repositoryKeys);
    LayerPairsApply(e.step, stepKeys);
    TriggerPairsApply(ti);
    Executor.UnionAssociative(Apply(g), Apply(r), Apply(s) + Apply(t));
    Executor.UnionAssociative(Apply(g) + Apply(r), Apply(s), Apply(t));
  }

  /** The iterator yields one pair per variable of each present layer and
      one per trigger value carried. */
  lemma ChainLength(e: Environment, globalKeys: seq<string>, repositoryKeys: seq<string>,
                    stepKeys: seq<string>)
    requires OrdersFit(e, globalKeys, repositoryKeys, stepKeys)
    ensures |Chain(e, globalKeys, repositoryKeys, stepKeys)|
         == |Executor.Layer(e.global)| + |Executor.Layer(e.repository)| + |Executor.Layer(e.step)|
          + |e.triggeredInfo|
  {
  }
}
