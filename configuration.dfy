/**
 * `EntityFrameworkConfigurationExtensions`: `AddQueryCompiler` on a
 * `DbContextOptionsBuilder`. The builder is reduced to the state these methods
 * touch: the pipeline options extension it may hold, and the core options'
 * map of replaced services.
 */
module Configuration {
  import opened Wrappers
  import opened QueryTypes
  import opened Interceptors
  import opened Pipelines
  import opened Dispatch
  import opened OptionsExtension
  import opened QueryCompiler

  /** The part of a `DbContextOptionsBuilder` the registration layer reads and writes. */
  class DbContextOptionsBuilder {
    /** The attached `PipelineExtensionsOptionsExtension`, if any. */
    var extension: PipelineExtensionsOptionsExtension?
    /** `CoreOptionsExtension.ReplacedServices`: service type to replacing implementation type. */
    var replacedServices: map<TypeName, TypeName>
    /** How many times this library replaced `IQueryCompiler` by `PipelineQueryCompiler`. */
    ghost var pipelineReplacements: nat

    /**
     * The states reachable through the public API: an attached extension always
     * has at least one compiler; the library has replaced `IQueryCompiler` once if
     * an extension is attached and never otherwise; a `PipelineQueryCompiler`
     * replacement implies an attached extension; and the extension never records
     * `PipelineQueryCompiler` as the previously replaced compiler.
     */
    ghost predicate Valid()
      reads this, extension
    {
      && (extension != null ==> |extension.queryCompilers| > 0 && extension.Valid())
      && pipelineReplacements == (if extension == null then 0 else 1)
      && (IQueryCompiler in replacedServices && replacedServices[IQueryCompiler] == PipelineQueryCompilerType ==>
            extension != null)
      && (extension != null ==> extension.previousReplacedQueryCompiler != Some(PipelineQueryCompilerType))
    }

    constructor ()
      ensures Valid() && extension == null && replacedServices == map[]
    {
      extension := null;
      replacedServices := map[];
      pipelineReplacements := 0;
    }

    /**
     * `ReplaceService<TService, TImplementation>()` as an application calls it.
     * `PipelineQueryCompiler` is internal to the library, so an application cannot
     * name it.
     */
    method ReplaceService(service: TypeName, implementation: TypeName)
      requires Valid() && implementation != PipelineQueryCompilerType
      modifies this`replacedServices
      ensures Valid() && replacedServices == old(replacedServices)[service := implementation]
    {
      replacedServices := replacedServices[service := implementation];
    }
  }

  /** `TryGetReplacedService<T>`: the type that replaced `service`, if any. */
  function TryGetReplacedService(replaced: map<TypeName, TypeName>, service: TypeName): Option<TypeName> {
    if service in replaced then Some(replaced[service]) else None
  }

  /**
   * `GetOptions`: the attached extension, unchanged, if there is one; otherwise a
   * new extension that records any compiler that had already replaced
   * `IQueryCompiler`, attached to the builder.
   */
  method GetOptions(b: DbContextOptionsBuilder) returns (ext: PipelineExtensionsOptionsExtension)
    modifies b`extension
    ensures b.extension == ext
    ensures old(b.extension) != null ==> ext == old(b.extension)
    ensures old(b.extension) == null ==>
      && fresh(ext) && ext.Valid() && ext.queryCompilers == [] && ext.info == null
      && ext.previousReplacedQueryCompiler == TryGetReplacedService(b.replacedServices, IQueryCompiler)
  {
    if b.extension != null {
      ext := b.extension;
    } else {
      ext := new PipelineExtensionsOptionsExtension();
      var replaced := TryGetReplacedService(b.replacedServices, IQueryCompiler);
      if replaced.Some? {
        ext.previousReplacedQueryCompiler := replaced;
      }
      b.extension := ext;
    }
  }

  /** `optionsBuilder.ReplaceService<IQueryCompiler, PipelineQueryCompiler>()`, as the library calls it. */
  method ReplaceQueryCompiler(b: DbContextOptionsBuilder)
    modifies b`replacedServices, b`pipelineReplacements
    ensures b.replacedServices == old(b.replacedServices)[IQueryCompiler := PipelineQueryCompilerType]
    ensures b.pipelineReplacements == old(b.pipelineReplacements) + 1
  {
    b.replacedServices := b.replacedServices[IQueryCompiler := PipelineQueryCompilerType];
    b.pipelineReplacements := b.pipelineReplacements + 1;
  }

  /**
   * `AddQueryCompiler<T>(optionsBuilder)`: replaces `IQueryCompiler` by the
   * pipeline compiler only while the list of compilers is still empty, appends
   * `T` to the list, and returns the same builder.
   */
  method AddQueryCompiler(b: DbContextOptionsBuilder, t: TypeName) returns (r: DbContextOptionsBuilder)
    requires b.Valid() && t.Named?
    modifies b, b.extension
    ensures r == b && b.Valid() && b.extension != null
    ensures old(b.extension) != null ==>
      && b.extension == old(b.extension)
      && b.extension.queryCompilers == old(b.extension.queryCompilers) + [t]
      && b.extension.previousReplacedQueryCompiler == old(b.extension.previousReplacedQueryCompiler)
      && b.extension.info == old(b.extension.info)
      && b.replacedServices == old(b.replacedServices)
      && b.pipelineReplacements == old(b.pipelineReplacements)
    ensures old(b.extension) == null ==>
      && fresh(b.extension)
      && b.extension.queryCompilers == [t]
      && b.extension.info == null
      && b.extension.previousReplacedQueryCompiler == TryGetReplacedService(old(b.replacedServices), IQueryCompiler)
      && b.replacedServices == old(b.replacedServices)[IQueryCompiler := PipelineQueryCompilerType]
      && b.pipelineReplacements == 1
  {
    var options := GetOptions(b);
    if |options.queryCompilers| == 0 {
      ReplaceQueryCompiler(b);
    }
    options.AddQueryCompiler(t);
    r := b;
  }

  /**
   * `AddQueryCompiler<TOptions, T>(optionsBuilder, queryCompiler)`: the factory is
   * never called, so the builder ends up exactly as with the overload without it.
   */
  method AddQueryCompilerWithFactory(b: DbContextOptionsBuilder, t: TypeName, queryCompiler: () -> Interceptor)
    returns (r: DbContextOptionsBuilder)
    requires b.Valid() && t.Named?
    modifies b, b.extension
    ensures r == b && b.Valid() && b.extension != null
    ensures old(b.extension) != null ==>
      && b.extension == old(b.extension)
      && b.extension.queryCompilers == old(b.extension.queryCompilers) + [t]
      && b.extension.previousReplacedQueryCompiler == old(b.extension.previousReplacedQueryCompiler)
      && b.extension.info == old(b.extension.info)
      && b.replacedServices == old(b.replacedServices)
      && b.pipelineReplacements == old(b.pipelineReplacements)
    ensures old(b.extension) == null ==>
      && fresh(b.extension)
      && b.extension.queryCompilers == [t]
      && b.extension.info == null
      && b.extension.previousReplacedQueryCompiler == TryGetReplacedService(old(b.replacedServices), IQueryCompiler)
      && b.replacedServices == old(b.replacedServices)[IQueryCompiler := PipelineQueryCompilerType]
      && b.pipelineReplacements == 1
  {
    r := AddQueryCompiler(b, t);
  }

  /**
   * End to end: registering interceptor types in some order and then running a
   * synchronous query nests them by that order. The call enters the instances
   * from the last registered type to the first, reaches the wrapped compiler's
   * `Execute<T>` exactly once with the requested type, leaves the instances in
   * registration order, and returns what the wrapped compiler returned. With no
   * registration, `IQueryCompiler` is never replaced and the wrapped compiler
   * answers directly.
   */
  method ConfigureAndExecute(types: seq<TypeName>, resolve: TypeName -> Interceptor, inner: InnerCompiler,
                             t: Ty, query: Expression) returns (o: Completion)
    requires forall i :: 0 <= i < |types| ==> types[i].Named?
    requires forall i :: 0 <= i < |types| ==> resolve(types[i]).PassesThrough(ClassifyExecute(t).tag)
    ensures var m, a := ClassifyExecute(t).tag, Args(query, None);
      var cs := seq(|types|, i requires 0 <= i < |types| => resolve(types[i]));
      && o.value == inner(ExecuteCall, t, a)
      && o.trace == Entries(cs, m) + [InnerCall(ExecuteCall, t, a)] + Exits(cs, m)
  {
    var b := new DbContextOptionsBuilder();
    for i := 0 to |types|
      invariant b.Valid()
      invariant i == 0 ==> b.extension == null
      invariant i > 0 ==> b.extension != null && fresh(b.extension) && b.extension.queryCompilers == types[..i]
    {
      assert types[..i + 1] == types[..i] + [types[i]];
      var _ := AddQueryCompiler(b, types[i]);
    }
    var k := ClassifyExecute(t);
    var a := Args(query, None);
    if b.extension == null {
      o := Completion(inner(ExecuteCall, t, a), [InnerCall(ExecuteCall, t, a)]);
    } else {
      assert types[..|types|] == types;
      var c := new PipelineQueryCompiler(b.extension.queryCompilers, resolve, inner);
      o := c.Execute(t, query);
      assert c.compilers == seq(|types|, i requires 0 <= i < |types| => resolve(types[i]));
      PassThroughRun(c.compilers, k, inner, a);
      if k.tag == ExecuteEnumerable {
        NullToDefaultIsIdentity(Run(Build(c.compilers, k), inner, a).value, t);
      }
    }
  }
}
