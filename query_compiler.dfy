/**
 * `PipelineQueryCompiler`: the `IQueryCompiler` that routes every call through
 * the composed pipeline for its (element type, tag) key, built on first use and
 * kept in a per-instance cache.
 */
module QueryCompiler {
  import opened Wrappers
  import opened QueryTypes
  import opened Interceptors
  import opened Pipelines
  import opened Dispatch

  class PipelineQueryCompiler {
    /** The wrapped compiler: the terminal step of every pipeline. */
    const inner: InnerCompiler
    /** `_compilers`: the resolved interceptor instances, in registration order. */
    const compilers: seq<Interceptor>
    /** `_pipelines`: the cache of composed pipelines. */
    var pipelines: map<Key, Chain>
    /** Every pipeline build, in order. */
    ghost var buildLog: seq<Key>

    /**
     * The cache holds, for every key in it, the pipeline built from the
     * instance's compilers for that key; only keys with a builder are cached; and
     * each cached key was built exactly once.
     */
    ghost predicate Valid()
      reads this
    {
      && (forall k | k in pipelines :: Pipelined(k.tag) && pipelines[k] == Build(compilers, k))
      && (forall k :: k in pipelines <==> k in buildLog)
      && (forall i, j :: 0 <= i < j < |buildLog| ==> buildLog[i] != buildLog[j])
    }

    /**
     * The constructor's copy: one instance per registered type, resolved by the
     * service provider, kept in registration order; the cache starts empty.
     */
    constructor (registered: seq<TypeName>, resolve: TypeName -> Interceptor, inner: InnerCompiler)
      ensures Valid() && this.inner == inner
      ensures |compilers| == |registered|
      ensures forall i :: 0 <= i < |registered| ==> compilers[i] == resolve(registered[i])
      ensures pipelines == map[] && buildLog == []
    {
      this.inner := inner;
      pipelines := map[];
      buildLog := [];
      var copied: seq<Interceptor> := [];
      for i := 0 to |registered|
        invariant |copied| == i
        invariant forall j :: 0 <= j < i ==> copied[j] == resolve(registered[j])
      {
        copied := copied + [resolve(registered[i])];
      }
      compilers := copied;
    }

    /** The cache step of one request for key `k`: a hit changes nothing, a miss adds exactly `k`. */
    twostate predicate CacheStep(k: Key)
      reads this
    {
      && (old(k in pipelines) ==> pipelines == old(pipelines) && buildLog == old(buildLog))
      && (old(k !in pipelines) ==>
            pipelines == old(pipelines)[k := Build(compilers, k)] && buildLog == old(buildLog) + [k])
    }

    /**
     * The eight `Get*Pipeline<T>` builders, one per tag: return the cached
     * pipeline on a hit; on a miss fold the compilers around the terminal call
     * in list order and store the result under the key.
     */
    method GetPipeline(k: Key) returns (p: Chain)
      requires Valid() && Pipelined(k.tag)
      modifies this`pipelines, this`buildLog
      ensures Valid() && CacheStep(k)
      ensures p == Build(compilers, k) && k in pipelines && pipelines[k] == p
    {
      if k in pipelines {
        p := pipelines[k];
        return;
      }
      p := Terminal(k);
      for i := 0 to |compilers|
        invariant p == Build(compilers[..i], k)
        invariant pipelines == old(pipelines) && buildLog == old(buildLog)
      {
        BuildStep(compilers, i, k);
        p := Wrap(compilers[i], k.tag, p);
      }
      assert compilers[..|compilers|] == compilers;
      pipelines := pipelines[k := p];
      buildLog := buildLog + [k];
    }

    /** The private typed entry points: get the pipeline for the key and call it. */
    method Invoke(k: Key, a: Args) returns (o: Completion)
      requires Valid() && Pipelined(k.tag)
      modifies this`pipelines, this`buildLog
      ensures Valid() && CacheStep(k)
      ensures o == Run(Build(compilers, k), inner, a)
    {
      var p := GetPipeline(k);
      o := Run(p, inner, a);
    }

    /** `Execute<T>(query)`: never fails; the enumerable caller maps `null` to `default(T)`. */
    method Execute(t: Ty, query: Expression) returns (o: Completion)
      requires Valid()
      modifies this`pipelines, this`buildLog
      ensures Valid() && CacheStep(ClassifyExecute(t))
      ensures var k := ClassifyExecute(t);
        var run := Run(Build(compilers, k), inner, Args(query, None));
        o == if k.tag == ExecuteEnumerable then run.(value := NullToDefault(run.value, t)) else run
    {
      var k := ClassifyExecute(t);
      o := Invoke(k, Args(query, None));
      if k.tag == ExecuteEnumerable {
        o := o.(value := NullToDefault(o.value, t));
      }
    }

    /**
     * `ExecuteAsync<T>(query, token)`: the task caller maps `null` to `default(T)`,
     * the async-enumerable caller only casts; any other type throws and leaves the
     * cache as it was.
     */
    method ExecuteAsync(t: Ty, query: Expression, token: CancellationToken) returns (r: Result<Completion, Error>)
      requires Valid()
      modifies this`pipelines, this`buildLog
      ensures Valid()
      ensures ClassifyExecuteAsync(t).Failure? ==>
        r == Failure(UnknownType(t)) && pipelines == old(pipelines) && buildLog == old(buildLog)
      ensures ClassifyExecuteAsync(t).Success? ==>
        var k := ClassifyExecuteAsync(t).value;
        var run := Run(Build(compilers, k), inner, Args(query, Some(token)));
        && CacheStep(k)
        && r == Success(if k.tag == ExecuteAsyncTask then run.(value := NullToDefault(run.value, t)) else run)
    {
      var c := ClassifyExecuteAsync(t);
      if c.Failure? {
        return Failure(c.error);
      }
      var k := c.value;
      var o := Invoke(k, Args(query, Some(token)));
      if k.tag == ExecuteAsyncTask {
        o := o.(value := NullToDefault(o.value, t));
      }
      r := Success(o);
    }

    /** `CreateCompiledQuery<T>(query)`: returns the compiled delegate the pipeline produces; never fails. */
    method CreateCompiledQuery(t: Ty, query: Expression) returns (o: Completion)
      requires Valid()
      modifies this`pipelines, this`buildLog
      ensures Valid() && CacheStep(ClassifyCreateCompiledQuery(t))
      ensures o == Run(Build(compilers, ClassifyCreateCompiledQuery(t)), inner, Args(query, None))
    {
      o := Invoke(ClassifyCreateCompiledQuery(t), Args(query, None));
    }

    /** `CreateCompiledAsyncQuery<T>(query)`: only task and async-enumerable types; any other type throws. */
    method CreateCompiledAsyncQuery(t: Ty, query: Expression) returns (r: Result<Completion, Error>)
      requires Valid()
      modifies this`pipelines, this`buildLog
      ensures Valid()
      ensures ClassifyCreateCompiledAsyncQuery(t).Failure? ==>
        r == Failure(UnknownType(t)) && pipelines == old(pipelines) && buildLog == old(buildLog)
      ensures ClassifyCreateCompiledAsyncQuery(t).Success? ==>
        var k := ClassifyCreateCompiledAsyncQuery(t).value;
        CacheStep(k) && r == Success(Run(Build(compilers, k), inner, Args(query, None)))
    {
      var c := ClassifyCreateCompiledAsyncQuery(t);
      if c.Failure? {
        return Failure(c.error);
      }
      var o := Invoke(c.value, Args(query, None));
      r := Success(o);
    }
  }

  /**
   * One call of `Execute<T>` through pass-through compilers: it returns what the
   * wrapped compiler returns for `T`, and every compiler's `Execute` method runs
   * once per registration of its type.
   */
  method ExecuteCounted(c: PipelineQueryCompiler, t: Ty, query: Expression, name: TypeName)
    returns (v: Value, entered: nat)
    requires c.Valid() && !IsEnumerable(t) && AllPassThrough(c.compilers, Execute)
    modifies c`pipelines, c`buildLog
    ensures c.Valid() && c.CacheStep(Key(t, Execute))
    ensures v == c.inner(ExecuteCall, t, Args(query, None))
    ensures entered == TypeCount(c.compilers, name)
  {
    var o := c.Execute(t, query);
    var k := ClassifyExecute(t);
    var a := Args(query, None);
    PassThroughRun(c.compilers, k, c.inner, a);
    PassThroughEnterCount(c.compilers, k, c.inner, a, name);
    v := o.value;
    entered := EnterCount(o.trace, name, Execute);
  }

  /**
   * Repeated dispatch on one instance: `count` calls of `Execute<T>` build the
   * pipeline for `T` at most once. With pass-through compilers, each call
   * returns what the wrapped compiler returns, and altogether every compiler's
   * `Execute` method runs `count` times per registration of its type.
   */
  method ExecuteRepeatedly(c: PipelineQueryCompiler, t: Ty, query: Expression, count: nat, name: TypeName)
    returns (values: seq<Value>, entered: nat)
    requires c.Valid() && !IsEnumerable(t) && AllPassThrough(c.compilers, Execute)
    modifies c`pipelines, c`buildLog
    ensures c.Valid()
    ensures |values| == count
    ensures forall i :: 0 <= i < count ==> values[i] == c.inner(ExecuteCall, t, Args(query, None))
    ensures entered == count * TypeCount(c.compilers, name)
    ensures count == 0 ==> c.buildLog == old(c.buildLog) && c.pipelines == old(c.pipelines)
    ensures count > 0 ==>
      && Key(t, Execute) in c.pipelines
      && c.buildLog == old(c.buildLog) + (if Key(t, Execute) in old(c.pipelines) then [] else [Key(t, Execute)])
  {
    values := [];
    entered := 0;
    var k := ClassifyExecute(t);
    ghost var v := c.inner(ExecuteCall, t, Args(query, None));
    ghost var per := TypeCount(c.compilers, name);
    ghost var log0 := c.buildLog;
    ghost var log1 := log0 + (if k in c.pipelines then [] else [k]);
    for i := 0 to count
      invariant c.Valid()
      invariant |values| == i && forall j :: 0 <= j < i ==> values[j] == v
      invariant entered == i * per
      invariant i == 0 ==> c.buildLog == log0 && c.pipelines == old(c.pipelines)
      invariant i > 0 ==> k in c.pipelines && c.buildLog == log1
    {
      var value, n := ExecuteCounted(c, t, query, name);
      values := values + [value];
      entered := entered + n;
      assert (i + 1) * per == i * per + per;
    }
  }
}
