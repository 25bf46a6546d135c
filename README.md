# PipelineExtensions.EntityFrameworkCore — a verified model

PipelineExtensions.EntityFrameworkCore lets an application put interceptors
(`IPipelineQueryCompiler` implementations) around Entity Framework Core's
`IQueryCompiler`. The library has three parts:

- **Registration.** `optionsBuilder.AddQueryCompiler<T>()` records each
  interceptor type in a `PipelineExtensionsOptionsExtension`. It replaces
  `IQueryCompiler` by the library's `PipelineQueryCompiler` the first time only.
- **Service setup.** `ApplyServices` registers the original compiler and every
  interceptor type with the service collection.
- **Dispatch.** Per context, `PipelineQueryCompiler` classifies each request by
  its result type into an (element type, method tag) key. It then runs the
  pipeline for that key. A pipeline is the chain of interceptor methods folded
  around a terminal call to the original compiler. It is built on first use and
  cached per instance.

The model is split into these modules:

- `QueryTypes`: the .NET types a request can name (`Ty`), the nine method
  tags, pipeline keys, arguments and result values.
- `Interceptors`: an interceptor as a type name with, per tag, what its method
  does. It can pass the call through, short-circuit with a substitute, or
  rewrite the query. A completed call carries a trace of enter, exit and
  inner-compiler events.
- `Pipelines`: the composed pipeline as an explicit chain of `next` references
  (`Chain`). `Build` is the fold that builds it and `Run` is what calling it
  means. Lemmas cover these properties:
  - nesting order;
  - short-circuiting;
  - insertion of a transparent compiler;
  - the bracketing of every call by its outermost layer;
  - call counting.
- `Dispatch`: `Execute`, `ExecuteAsync`, `CreateCompiledQuery` and
  `CreateCompiledAsyncQuery` as classification functions. Lemmas show that
  classification is lossless, has an inverse, and is injective, and that
  different keys make different calls of the wrapped compiler.
- `QueryCompiler`: the `PipelineQueryCompiler` class. It has the resolved
  compiler list, the `_pipelines` cache as a map field, and a ghost log of
  every build. The methods are:
  - the eight builders as one `GetPipeline(key)` loop;
  - the private typed entry points;
  - the four public members.
- `OptionsExtension`: the extension class (`AddQueryCompiler`, `ApplyServices`,
  `AddScoped`, `Validate`, `Info`) over a service collection modelled as a
  sequence of descriptors.
- `Configuration`: the builder state these extension methods touch, modelled as
  the attached extension and the replaced-services map. Its members are:
  - both `AddQueryCompiler` overloads;
  - `GetOptions` and `TryGetReplacedService`;
  - an end-to-end method that registers types, builds a compiler and runs a
    query.

**Nesting order.** The builder loop walks the list in registration order, and
each step wraps what has been built so far. So calls run through the compilers
in reverse registration order. The compiler registered **last** is outermost
and runs first, and the first registered sits next to the original compiler.
This model follows the code (`PassThroughRun`, `ShortCircuitRun`,
`ConfigureAndExecute`).

The options extension has two environment-dependent variants. This model
covers the EF Core 5-or-later one: the original compiler is resolved through
the captured descriptor, and no transient `QueryCompiler` is registered.

## Model

| member | source | states |
|---|---|---|
| Dispatch.ClassifyExecute | code/PipelineQueryCompiler.cs:48-66 | `IEnumerable<X>` gets tag ExecuteEnumerable with element `X` (in both directions); every other type gets Execute; re-wrapping the key gives back the requested type |
| Dispatch.ClassifyExecuteAsync | code/PipelineQueryCompiler.cs:69-101 | succeeds exactly for `Task<X>` and `IAsyncEnumerable<X>`, each with its own tag (if and only if) and the requested type recoverable; any other type fails with the unknown-type error naming it |
| Dispatch.ClassifyCreateCompiledQuery | code/PipelineQueryCompiler.cs:104-121 | `IEnumerable<X>` gets CreateCompiledQueryEnumerable, every other type CreateCompiledQuery, both directions; the requested type is recoverable |
| Dispatch.ClassifyCreateCompiledAsyncQuery | code/PipelineQueryCompiler.cs:124-154 | succeeds exactly for `Task<X>` and `IAsyncEnumerable<X>` with the matching tag; otherwise the unknown-type error |
| Dispatch.ClassifyRoundTrip | code/PipelineQueryCompiler.cs:48-154 | a classified key belongs to the called member; its terminal step asks the wrapped compiler for exactly the requested type; the key is canonical |
| Dispatch.ClassifyInverse | code/PipelineQueryCompiler.cs:48-154 | a pipelined key is what classification returns for its own member and result type if and only if it is canonical |
| Dispatch.ClassifyInjective | code/PipelineQueryCompiler.cs:48-154 | two different requested types never share a pipeline key under the same member |
| Dispatch.TerminalCallsDistinct | code/PipelineQueryCompiler.cs:164-306 | two different canonical keys make different terminal calls: they differ in the wrapped compiler's member or in its type argument |
| Dispatch.NullToDefaultIsIdentity | code/PipelineQueryCompiler.cs:61-62 | for the `IEnumerable<X>` and `Task<X>` results it is applied to (lines 62 and 83), the null-to-default mapping never changes the value |
| QueryTypes.EntryOf | code/PipelineQueryCompiler.cs:171-297 | the wrapped-compiler member each builder's terminal call uses: the two `Execute` tags call `Execute`, the async ones `ExecuteAsync`, and the compiled-query ones `CreateCompiledQuery` or `CreateCompiledAsyncQuery`; only `PrecompileQuery`, which has no builder, maps to `PrecompileQuery` |
| QueryTypes.ResultType | code/PipelineQueryCompiler.cs:171-297 | the type argument each terminal call passes: the element type, re-wrapped in `IEnumerable`, `Task` or `IAsyncEnumerable` as the tag says; the element type is always recoverable from it |
| Pipelines.Run | code/PipelineQueryCompiler.cs:171-175 | what calling a built closure does: the terminal closure calls the wrapped compiler, and each wrapping closure calls its compiler's method with the next closure; that method passes through, rewrites the query, or returns a substitute without calling `next` |
| Pipelines.RunBracketed | code/PipelineQueryCompiler.cs:174-175 | the outermost interceptor method is entered first and left last; a call through `n` layers has at most `2n+1` events |
| Pipelines.Build | code/PipelineQueryCompiler.cs:171-176 | the fold has the key's terminal call innermost and one layer per compiler |
| Pipelines.BuildLayers | code/PipelineQueryCompiler.cs:171-176 | layer `i` counted from the outside is compiler `n-1-i`: the last registered is outermost |
| Pipelines.BuildStep | code/PipelineQueryCompiler.cs:172-176 | one loop step wraps the pipeline built so far with the next compiler |
| Pipelines.PassThroughRun | code/PipelineQueryCompiler.cs:171-176 | with all compilers passing through, the call returns exactly the wrapped compiler's result; the trace enters every compiler from last to first, calls the wrapped compiler once with the full result type, and exits from first to last |
| Pipelines.ShortCircuitRun | code/PipelineQueryCompiler.cs:171-176 | when compiler `j` short-circuits and all outer ones pass through, the call returns its substitute; only `cs[j..]` are entered and exited; the wrapped compiler is not called |
| Pipelines.PassThroughInsertion | code/PipelineQueryCompiler.cs:172-176 | inserting a pass-through compiler at any position leaves the returned value unchanged, whatever the other compilers do |
| Pipelines.PassThroughEnterCount | code/PipelineQueryCompiler.cs:171-176 | with all compilers passing through, one call enters the method of each type as many times as that type is registered |
| Pipelines.EntriesAt | code/PipelineQueryCompiler.cs:171-176 | the `i`-th enter event of a run belongs to the `i`-th compiler from the end of the list |
| Pipelines.ExitsAt | code/PipelineQueryCompiler.cs:171-176 | the `i`-th exit event belongs to the `i`-th compiler of the list |
| QueryCompiler.PipelineQueryCompiler.constructor | code/PipelineQueryCompiler.cs:35-45 | the compiler list is the resolved instances of the registered types, in order and same length; the cache starts empty |
| QueryCompiler.PipelineQueryCompiler.GetPipeline | code/PipelineQueryCompiler.cs:164-306 | returns the fold of the compilers for the key; a hit leaves the cache and the build log as they were; a miss stores exactly that key and logs one build; every key is built at most once per instance |
| QueryCompiler.PipelineQueryCompiler.Invoke | code/PipelineQueryCompiler.cs:367-395 | returns the run of the key's pipeline with the given arguments, under the same cache step |
| QueryCompiler.PipelineQueryCompiler.Execute | code/PipelineQueryCompiler.cs:48-66 | runs the pipeline of the classified key without a token; the enumerable case maps null to default |
| QueryCompiler.PipelineQueryCompiler.ExecuteAsync | code/PipelineQueryCompiler.cs:69-101 | an unknown type fails and leaves the cache unchanged; a task or async-enumerable type runs its pipeline with the token, and only the task case maps null to default |
| QueryCompiler.PipelineQueryCompiler.CreateCompiledQuery | code/PipelineQueryCompiler.cs:104-121 | runs the pipeline of the classified compiled-query key |
| QueryCompiler.PipelineQueryCompiler.CreateCompiledAsyncQuery | code/PipelineQueryCompiler.cs:124-154 | an unknown type fails with the cache unchanged; otherwise the pipeline of the classified key runs |
| QueryCompiler.ExecuteCounted | code/PipelineQueryCompiler.cs:164-180 | one `Execute<T>` call through pass-through compilers returns the wrapped compiler's result for `T`; each type's method runs once per registration; the cache takes one hit-or-miss step |
| QueryCompiler.ExecuteRepeatedly | code/PipelineQueryCompiler.cs:164-180 | with pass-through compilers, `count` calls of `Execute<T>` each return the wrapped compiler's result for `T`, build the pipeline for `T` at most once (none at all when `count` is zero, leaving the cache unchanged), and run each type's method `count` times per registration of that type |
| OptionsExtension.QueryCompilerDescriptors | code/PipelineExtensionsOptionsExtension.cs:26 | the predicate's matches: never longer than the input, and every element kept registers `IQueryCompiler` |
| OptionsExtension.QueryCompilerDescriptorsMembers | code/PipelineExtensionsOptionsExtension.cs:26 | every kept descriptor comes from the input; every `IQueryCompiler` descriptor is kept; the result is empty if and only if there is none |
| OptionsExtension.QueryCompilerDescriptorsAppend | code/PipelineExtensionsOptionsExtension.cs:26 | order and multiplicity: filtering a concatenation concatenates the filtered parts, and one descriptor is kept exactly when it matches |
| OptionsExtension.QueryCompilerDescriptorsSeveral | code/PipelineExtensionsOptionsExtension.cs:26 | more than one descriptor is kept if and only if two different positions of the input register `IQueryCompiler` |
| OptionsExtension.SingleQueryCompiler | code/PipelineExtensionsOptionsExtension.cs:26 | no match gives no descriptor; a single match gives that descriptor and it is the only match; two matches at different positions give the more-than-one-match error |
| OptionsExtension.ScopedAll | code/PipelineExtensionsOptionsExtension.cs:32-35 | one registration per type |
| OptionsExtension.ScopedAllAt | code/PipelineExtensionsOptionsExtension.cs:32-35 | registration `i` is the scoped registration of type `i` |
| OptionsExtension.RegistrationOrder | code/PipelineExtensionsOptionsExtension.cs:22-39 | the holder singleton comes first; then the original implementation type, the previously replaced compiler and every interceptor type in list order, with absent types skipped |
| OptionsExtension.RegistrationsScoped | code/PipelineExtensionsOptionsExtension.cs:29-47 | everything after the holder is scoped, exactly one descriptor per present type |
| OptionsExtension.PipelineExtensionsOptionsExtension.constructor | code/PipelineExtensionsOptionsExtension.cs:15-19 | a new extension has no info object yet, no previously replaced compiler and an empty compiler list |
| OptionsExtension.PipelineExtensionsOptionsExtension.AddQueryCompiler | code/PipelineExtensionsOptionsExtension.cs:57-60 | appends the type, keeping earlier entries and duplicates |
| OptionsExtension.PipelineExtensionsOptionsExtension.AddScoped | code/PipelineExtensionsOptionsExtension.cs:41-47 | a null type adds nothing; any other type adds exactly its scoped registration |
| OptionsExtension.PipelineExtensionsOptionsExtension.AddScopedAll | code/PipelineExtensionsOptionsExtension.cs:32-35 | appends the scoped registrations of the types, in list order |
| OptionsExtension.PipelineExtensionsOptionsExtension.ApplyServices | code/PipelineExtensionsOptionsExtension.cs:22-39 | fails, leaving the collection unchanged, exactly when several `IQueryCompiler` descriptors exist; otherwise appends the registrations above after the existing descriptors |
| OptionsExtension.PipelineExtensionsOptionsExtension.Validate | code/PipelineExtensionsOptionsExtension.cs:50-52 | changes nothing |
| OptionsExtension.PipelineExtensionsOptionsExtension.Info | code/PipelineExtensionsOptionsExtension.cs:55 | creates the info bound to this extension on first access; every later access returns the same object |
| Configuration.GetOptions | code/EntityFrameworkConfigurationExtensions.cs:50-74 | returns the attached extension unchanged; otherwise attaches a fresh one with no info object yet and an empty list, which records the replacement of `IQueryCompiler` found in the replaced services (`TryGetReplacedService`), if any |
| Configuration.ReplaceQueryCompiler | code/EntityFrameworkConfigurationExtensions.cs:25 | maps `IQueryCompiler` to `PipelineQueryCompiler` in the replaced services |
| Configuration.AddQueryCompiler | code/EntityFrameworkConfigurationExtensions.cs:20-29 | returns the same builder; the first call attaches a fresh extension holding `[T]`, with no info object yet, and replaces `IQueryCompiler` once; later calls only append `T` and leave the extension's other state, including its info object, as it was; the replacement happens once overall, and `Valid` keeps the recorded previous compiler from ever being `PipelineQueryCompiler` |
| Configuration.AddQueryCompilerWithFactory | code/EntityFrameworkConfigurationExtensions.cs:39-48 | the factory is ignored; the builder changes exactly as with the overload without it, including the fresh extension's absent info object on the first call |
| Configuration.ConfigureAndExecute | code/EntityFrameworkConfigurationExtensions.cs:20-29 | registering types and running `Execute<T>` through pass-through interceptors returns the wrapped compiler's result for `T`; the trace enters the resolved instances from last registered to first and exits in registration order |

## Left out

- The static `CallersCache` and the expression-tree compilation of the typed callers (PipelineQueryCompiler.cs:21-22 and 308-365) are left out. A cached caller only forwards to the private typed entry point for its element type, so the model calls `Invoke` directly. Reflection is outside what Dafny models.
- `PrecompileQuery` (PipelineQueryCompiler.cs:156-162) is left out. It forwards straight to the wrapped compiler and bypasses the pipelines, so it has a tag but no builder (`Pipelined`).
- Service-provider resolution is a parameter: `resolve` for the interceptor instances and `inner` for the wrapped compiler. The `IInfrastructure` and `FindExtension` lookups it replaces are left out.
- The EF Core 3 variants selected by preprocessor symbols are left out: the constructor taking `QueryCompiler` and `AddTransient(QueryCompiler)`. Only the EF Core 5-or-later variant is modelled.
- Asynchronous execution and cancellation are left out. A task or async enumerable is an opaque value, and the cancellation token is passed along but has no effect.
- Concurrency is left out. A `PipelineQueryCompiler` is one instance per context and is used from one thread.
- .NET types are a small algebra of plain types and single-argument generics. Generics with several arguments, and `IsGenericType` reflection in general, are not modelled.
- The unknown-type exception is an error value naming the type. The `FullName` text of its message is not modelled.
- `PipelineExtensionsExtensionInfo` is only the back-reference to its extension. Its hash code, service-provider comparison and debug info are not part of this model.
- The factory argument of the second `AddQueryCompiler` overload is kept as a parameter that is never called, which is what the source does. The generic `TOptions` builder type is not modelled.
- Interceptors are data: per tag, they pass the call through, short-circuit with a value, or rewrite the query. Interceptors that run arbitrary code around `next`, such as calling it twice or catching exceptions, are not modelled.
- The replaced-services map is keyed by service type alone. EF Core 5 keys it by a pair with a null second component. `GetOptions` only ever looks up that null-component entry, so the two behave the same here.
- `Validate` ignores its options argument in the source, so the model drops the argument.
- Configuration.DbContextOptionsBuilder.ReplaceService: an application can name any implementation type except the library-internal `PipelineQueryCompiler`. Replacing through EF Core's own reflection is not modelled.
