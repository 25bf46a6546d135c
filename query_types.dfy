/**
 * The vocabulary of the query pipeline: reflected result types, the nine
 * `QueryCompilerMethodEnum` tags, the (type, tag) cache key, the members of the
 * wrapped `IQueryCompiler`, and the opaque values that flow through a pipeline.
 */
module QueryTypes {
  import opened Wrappers

  /** A generic type definition such as `IEnumerable<>`; every other generic definition is `OtherGeneric`. */
  datatype GenericDef =
    | IEnumerable
    | Task
    | IAsyncEnumerable
    | OtherGeneric(name: string, isValueType: bool)

  /**
   * A reflected `System.Type`: either a non-generic type, or a generic type built
   * from a definition and one type argument. Generic types with several type
   * arguments are never matched by the engine and are written as `Plain`.
   */
  datatype Ty =
    | Plain(name: string, isValueType: bool)
    | Gen(def: GenericDef, arg: Ty)

  /** Whether a type is a .NET value type (its `default` is not `null`). */
  predicate IsValueType(t: Ty) {
    match t
    case Plain(_, v) => v
    case Gen(OtherGeneric(_, v), _) => v
    case Gen(_, _) => false
  }

  /** `QueryCompilerMethodEnum`: the operations a pipeline can be built for. */
  datatype QueryCompilerMethod =
    | Execute
    | ExecuteEnumerable
    | ExecuteAsyncTask
    | ExecuteAsyncEnumerable
    | CreateCompiledQuery
    | CreateCompiledQueryEnumerable
    | CreateCompiledAsyncQueryTask
    | CreateCompiledAsyncQueryEnumerable
    | PrecompileQuery

  /** The eight tags that have a pipeline builder; `PrecompileQuery` has none. */
  predicate Pipelined(m: QueryCompilerMethod) {
    m != PrecompileQuery
  }

  /** The key of the per-instance pipeline cache: `(Type, QueryCompilerMethodEnum)`. */
  datatype Key = Key(elem: Ty, tag: QueryCompilerMethod)

  /** The public members of the wrapped `IQueryCompiler` that a pipeline's terminal step calls. */
  datatype Entry =
    | ExecuteCall
    | ExecuteAsyncCall
    | CreateCompiledQueryCall
    | CreateCompiledAsyncQueryCall
    | PrecompileQueryCall

  /** The query expression tree, treated as an opaque value. */
  datatype Expression = Expression(id: nat)

  /** A cancellation token, passed through unchanged. */
  datatype CancellationToken = CancellationToken(id: nat)

  /** The arguments of one pipeline call: the query, and the token of the asynchronous shapes. */
  datatype Args = Args(query: Expression, token: Option<CancellationToken>)

  /**
   * An opaque result: `null`, the `default` of a value type, or some object
   * (a result, a sequence, a task or a compiled delegate).
   */
  datatype Value = Null | Zero(ty: Ty) | Obj(id: nat)

  /** The exception thrown by the dispatcher: `InvalidOperationException("Unknown type: …")`. */
  datatype Error = UnknownType(ty: Ty)

  /** The wrapped compiler: what each of its members returns for a result type and arguments. */
  type InnerCompiler = (Entry, Ty, Args) -> Value

  /** The `IQueryCompiler` member that the terminal step of a pipeline for tag `m` calls. */
  function EntryOf(m: QueryCompilerMethod): (e: Entry)
    ensures e == PrecompileQueryCall <==> !Pipelined(m)
  {
    match m
    case Execute => ExecuteCall
    case ExecuteEnumerable => ExecuteCall
    case ExecuteAsyncTask => ExecuteAsyncCall
    case ExecuteAsyncEnumerable => ExecuteAsyncCall
    case CreateCompiledQuery => CreateCompiledQueryCall
    case CreateCompiledQueryEnumerable => CreateCompiledQueryCall
    case CreateCompiledAsyncQueryTask => CreateCompiledAsyncQueryCall
    case CreateCompiledAsyncQueryEnumerable => CreateCompiledAsyncQueryCall
    case PrecompileQuery => PrecompileQueryCall
  }

  /**
   * The type argument the terminal step passes to the wrapped compiler for key `k`:
   * the element type wrapped back into the shape the tag stands for.
   */
  function ResultType(k: Key): (t: Ty)
    ensures t == k.elem || (t.Gen? && t.arg == k.elem)
  {
    match k.tag
    case Execute => k.elem
    case ExecuteEnumerable => Gen(IEnumerable, k.elem)
    case ExecuteAsyncTask => Gen(Task, k.elem)
    case ExecuteAsyncEnumerable => Gen(IAsyncEnumerable, k.elem)
    case CreateCompiledQuery => k.elem
    case CreateCompiledQueryEnumerable => Gen(IEnumerable, k.elem)
    case CreateCompiledAsyncQueryTask => Gen(Task, k.elem)
    case CreateCompiledAsyncQueryEnumerable => Gen(IAsyncEnumerable, k.elem)
    case PrecompileQuery => k.elem
  }

  /**
   * The service types the registration layer talks about: the `IQueryCompiler`
   * service, this library's `PipelineQueryCompiler`, its descriptors holder, and
   * any other (user or framework) type by name.
   */
  datatype TypeName =
    | IQueryCompiler
    | PipelineQueryCompilerType
    | OriginalServicesDescriptorsType
    | Named(name: string)
}
