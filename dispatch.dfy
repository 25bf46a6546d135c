/**
 * The dispatcher's type classification: each public `IQueryCompiler` member
 * looks at the requested result type and picks the element type and the tag of
 * the pipeline to use, or throws "Unknown type".
 */
module Dispatch {
  import opened Wrappers
  import opened QueryTypes

  predicate IsEnumerable(t: Ty) { t.Gen? && t.def == IEnumerable }
  predicate IsTask(t: Ty) { t.Gen? && t.def == Task }
  predicate IsAsyncEnumerable(t: Ty) { t.Gen? && t.def == IAsyncEnumerable }

  /**
   * `Execute<T>`: `IEnumerable<X>` goes to the pipeline `(X, ExecuteEnumerable)`,
   * every other type `T` to `(T, Execute)`. It never fails.
   */
  function ClassifyExecute(t: Ty): (k: Key)
    ensures k.tag == ExecuteEnumerable <==> IsEnumerable(t)
    ensures k.tag == Execute <==> !IsEnumerable(t)
    ensures ResultType(k) == t
  {
    if IsEnumerable(t) then Key(t.arg, ExecuteEnumerable) else Key(t, Execute)
  }

  /**
   * `ExecuteAsync<T>`: `Task<X>` goes to `(X, ExecuteAsyncTask)`,
   * `IAsyncEnumerable<X>` to `(X, ExecuteAsyncEnumerable)`; any other type is
   * rejected with "Unknown type".
   */
  function ClassifyExecuteAsync(t: Ty): (r: Result<Key, Error>)
    ensures r.Success? <==> IsTask(t) || IsAsyncEnumerable(t)
    ensures r.Success? ==> ResultType(r.value) == t
    ensures r.Success? ==> (r.value.tag == ExecuteAsyncTask <==> IsTask(t))
    ensures r.Success? ==> (r.value.tag == ExecuteAsyncEnumerable <==> IsAsyncEnumerable(t))
    ensures r.Failure? ==> r.error == UnknownType(t)
  {
    if IsTask(t) then Success(Key(t.arg, ExecuteAsyncTask))
    else if IsAsyncEnumerable(t) then Success(Key(t.arg, ExecuteAsyncEnumerable))
    else Failure(UnknownType(t))
  }

  /**
   * `CreateCompiledQuery<T>`: `IEnumerable<X>` goes to
   * `(X, CreateCompiledQueryEnumerable)`, every other type to `(T, CreateCompiledQuery)`.
   */
  function ClassifyCreateCompiledQuery(t: Ty): (k: Key)
    ensures k.tag == CreateCompiledQueryEnumerable <==> IsEnumerable(t)
    ensures k.tag == CreateCompiledQuery <==> !IsEnumerable(t)
    ensures ResultType(k) == t
  {
    if IsEnumerable(t) then Key(t.arg, CreateCompiledQueryEnumerable) else Key(t, CreateCompiledQuery)
  }

  /**
   * `CreateCompiledAsyncQuery<T>`: only `Task<X>` and `IAsyncEnumerable<X>` are
   * accepted; any other type is rejected with "Unknown type".
   */
  function ClassifyCreateCompiledAsyncQuery(t: Ty): (r: Result<Key, Error>)
    ensures r.Success? <==> IsTask(t) || IsAsyncEnumerable(t)
    ensures r.Success? ==> ResultType(r.value) == t
    ensures r.Success? ==> (r.value.tag == CreateCompiledAsyncQueryTask <==> IsTask(t))
    ensures r.Success? ==> (r.value.tag == CreateCompiledAsyncQueryEnumerable <==> IsAsyncEnumerable(t))
    ensures r.Failure? ==> r.error == UnknownType(t)
  {
    if IsTask(t) then Success(Key(t.arg, CreateCompiledAsyncQueryTask))
    else if IsAsyncEnumerable(t) then Success(Key(t.arg, CreateCompiledAsyncQueryEnumerable))
    else Failure(UnknownType(t))
  }

  /** Classification by the member that was called; `PrecompileQuery` is not classified (it bypasses the pipelines). */
  function Classify(e: Entry, t: Ty): Result<Key, Error>
    requires e != PrecompileQueryCall
  {
    match e
    case ExecuteCall => Success(ClassifyExecute(t))
    case ExecuteAsyncCall => ClassifyExecuteAsync(t)
    case CreateCompiledQueryCall => Success(ClassifyCreateCompiledQuery(t))
    case CreateCompiledAsyncQueryCall => ClassifyCreateCompiledAsyncQuery(t)
  }

  /**
   * A key is canonical when classification can produce it: no pipeline is ever
   * keyed `(IEnumerable<X>, Execute)` or `(IEnumerable<X>, CreateCompiledQuery)`,
   * because those requests are routed to the enumerable tag.
   */
  predicate Canonical(k: Key) {
    Pipelined(k.tag) && !((k.tag == Execute || k.tag == CreateCompiledQuery) && IsEnumerable(k.elem))
  }

  /**
   * Classification loses nothing: a classified key belongs to the member that was
   * called, and the terminal step of its pipeline asks the wrapped compiler's same
   * member for exactly the type that was requested. The keys it produces are canonical.
   */
  lemma ClassifyRoundTrip(e: Entry, t: Ty)
    requires e != PrecompileQueryCall
    ensures Classify(e, t).Success? ==>
      var k := Classify(e, t).value;
      EntryOf(k.tag) == e && ResultType(k) == t && Canonical(k)
  {
  }

  /**
   * Conversely, a canonical key is exactly what classification produces for its
   * own member and full result type, and only canonical keys are produced.
   */
  lemma {:induction false} ClassifyInverse(k: Key)
    requires Pipelined(k.tag)
    ensures Classify(EntryOf(k.tag), ResultType(k)) == Success(k) <==> Canonical(k)
  {
    match k.tag
    case Execute =>
      if IsEnumerable(k.elem) { assert ClassifyExecute(ResultType(k)).tag == ExecuteEnumerable; }
    case CreateCompiledQuery =>
      if IsEnumerable(k.elem) { assert ClassifyCreateCompiledQuery(ResultType(k)).tag == CreateCompiledQueryEnumerable; }
    case _ =>
  }

  /**
   * Key isolation at the dispatcher: requests that differ in the shape or in the
   * element type never share a pipeline: classification is injective on the
   * types it accepts, for each member.
   */
  lemma ClassifyInjective(e: Entry, t1: Ty, t2: Ty)
    requires e != PrecompileQueryCall && t1 != t2
    requires Classify(e, t1).Success? && Classify(e, t2).Success?
    ensures Classify(e, t1).value != Classify(e, t2).value
  {
    ClassifyRoundTrip(e, t1);
    ClassifyRoundTrip(e, t2);
  }

  /**
   * Different canonical keys make different terminal calls: each key's pipeline
   * ends in its own wrapped-compiler member or its own type argument, so no two
   * cached pipelines can ask the wrapped compiler the same question.
   */
  lemma TerminalCallsDistinct(k1: Key, k2: Key)
    requires Canonical(k1) && Canonical(k2) && k1 != k2
    ensures (EntryOf(k1.tag), ResultType(k1)) != (EntryOf(k2.tag), ResultType(k2))
  {
    ClassifyInverse(k1);
    ClassifyInverse(k2);
  }

  /** `default(T)`: the zero value for a value type, `null` for a reference type. */
  function DefaultOf(t: Ty): Value {
    if IsValueType(t) then Zero(t) else Null
  }

  /** The callers' result mapping: a null result becomes `default(T)`, any other passes unchanged. */
  function NullToDefault(v: Value, t: Ty): Value {
    if v == Null then DefaultOf(t) else v
  }

  /**
   * The null-to-default mapping of the enumerable and task callers never changes
   * a result: the types it is applied to, `IEnumerable<X>` and `Task<X>`, are
   * reference types, whose `default` is `null` itself.
   */
  lemma NullToDefaultIsIdentity(v: Value, t: Ty)
    requires IsEnumerable(t) || IsTask(t)
    ensures NullToDefault(v, t) == v
  {
  }
}
