/**
 * `PipelineExtensionsOptionsExtension`: the EF options extension that remembers
 * the registered interceptor types and, when EF builds its service provider,
 * registers them (and the original query compiler) as scoped services.
 */
module OptionsExtension {
  import opened Wrappers
  import opened QueryTypes

  datatype Lifetime = Singleton | Scoped | Transient

  /** How a service descriptor produces its service. */
  datatype Implementation =
    | ImplementationType(implType: TypeName)
    | OriginalDescriptors(original: Option<ServiceDescriptor>)   // the singleton `c => descriptors`
    | OtherFactory                                              // any factory or instance registration

  /** A `ServiceDescriptor` of the service collection. */
  datatype ServiceDescriptor = ServiceDescriptor(serviceType: TypeName, lifetime: Lifetime, implementation: Implementation) {
    /** `ImplementationType`: `null` unless the descriptor registers a type. */
    function ImplementationTypeOf(): Option<TypeName> {
      if implementation.ImplementationType? then Some(implementation.implType) else None
    }
  }

  /** The error `SingleOrDefault` throws when more than one element matches. */
  datatype ServicesError = MoreThanOneMatch

  /** `services.AddScoped(type)`: the type registered as its own implementation, scoped. */
  function ScopedDescriptor(t: TypeName): ServiceDescriptor {
    ServiceDescriptor(t, Scoped, ImplementationType(t))
  }

  /** The predicate of the `SingleOrDefault` call: the descriptor registers `IQueryCompiler`. */
  predicate IsQueryCompiler(d: ServiceDescriptor) {
    d.serviceType == IQueryCompiler
  }

  /** At least two descriptors of `ds`, at different positions, register `IQueryCompiler`. */
  predicate SeveralQueryCompilers(ds: seq<ServiceDescriptor>) {
    exists i, j :: 0 <= i < j < |ds| && IsQueryCompiler(ds[i]) && IsQueryCompiler(ds[j])
  }

  /** The descriptors of `ds` that register `IQueryCompiler`, in order. */
  function QueryCompilerDescriptors(ds: seq<ServiceDescriptor>): (r: seq<ServiceDescriptor>)
    ensures |r| <= |ds|
    ensures forall i :: 0 <= i < |r| ==> IsQueryCompiler(r[i])
  {
    if ds == [] then []
    else
      var rest := QueryCompilerDescriptors(ds[..|ds| - 1]);
      var last := ds[|ds| - 1];
      if IsQueryCompiler(last) then rest + [last] else rest
  }

  /**
   * The filter drops nothing it should keep and keeps nothing foreign: every kept
   * descriptor comes from `ds`, every `IQueryCompiler` descriptor of `ds` is kept,
   * and the result is empty exactly when `ds` has none.
   */
  lemma {:induction false} QueryCompilerDescriptorsMembers(ds: seq<ServiceDescriptor>)
    ensures var r := QueryCompilerDescriptors(ds);
      && (forall i :: 0 <= i < |r| ==> r[i] in ds)
      && (forall i :: 0 <= i < |ds| && IsQueryCompiler(ds[i]) ==> ds[i] in r)
      && (r == [] <==> forall i :: 0 <= i < |ds| ==> !IsQueryCompiler(ds[i]))
  {
    if ds != [] {
      var n := |ds|;
      var front := ds[..n - 1];
      QueryCompilerDescriptorsMembers(front);
      assert forall i :: 0 <= i < n - 1 ==> ds[i] == front[i];
      assert forall d :: d in front ==> d in ds;
    }
  }

  /**
   * The filter keeps order and multiplicity: filtering a concatenation is the
   * concatenation of the filtered parts, and a single descriptor is kept exactly
   * when it registers `IQueryCompiler`.
   */
  lemma {:induction false} QueryCompilerDescriptorsAppend(a: seq<ServiceDescriptor>, b: seq<ServiceDescriptor>)
    ensures QueryCompilerDescriptors(a + b) == QueryCompilerDescriptors(a) + QueryCompilerDescriptors(b)
    ensures |b| == 1 ==> QueryCompilerDescriptors(b) == (if IsQueryCompiler(b[0]) then [b[0]] else [])
    decreases |b|
  {
    if b == [] {
      assert a + b == a;
    } else {
      var n := |b|;
      assert (a + b)[..|a + b| - 1] == a + b[..n - 1];
      assert (a + b)[|a + b| - 1] == b[n - 1];
      QueryCompilerDescriptorsAppend(a, b[..n - 1]);
      if n == 1 {
        assert b[..0] == [];
      }
    }
  }

  /** `SingleOrDefault` throws exactly when the filter keeps more than one descriptor. */
  lemma {:induction false} QueryCompilerDescriptorsSeveral(ds: seq<ServiceDescriptor>)
    ensures |QueryCompilerDescriptors(ds)| > 1 <==> SeveralQueryCompilers(ds)
  {
    if ds != [] {
      var n := |ds|;
      var front := ds[..n - 1];
      var last := ds[n - 1];
      QueryCompilerDescriptorsSeveral(front);
      QueryCompilerDescriptorsMembers(front);
      assert forall i :: 0 <= i < n - 1 ==> ds[i] == front[i];
      if SeveralQueryCompilers(front) {
        var i, j :| 0 <= i < j < |front| && IsQueryCompiler(front[i]) && IsQueryCompiler(front[j]);
        assert IsQueryCompiler(ds[i]) && IsQueryCompiler(ds[j]);
      }
      if SeveralQueryCompilers(ds) {
        var i, j :| 0 <= i < j < n && IsQueryCompiler(ds[i]) && IsQueryCompiler(ds[j]);
        if j < n - 1 {
          assert IsQueryCompiler(front[i]) && IsQueryCompiler(front[j]);
          assert SeveralQueryCompilers(front);
        } else {
          assert IsQueryCompiler(front[i]);
          assert QueryCompilerDescriptors(front) != [];
        }
      }
      if IsQueryCompiler(last) && QueryCompilerDescriptors(front) != [] {
        var i :| 0 <= i < n - 1 && IsQueryCompiler(front[i]);
        assert IsQueryCompiler(ds[i]) && IsQueryCompiler(ds[n - 1]);
      }
    }
  }

  /**
   * `services.SingleOrDefault(a => a.ServiceType == typeof(IQueryCompiler))`:
   * `null` when no descriptor matches, the one match when exactly one does, and
   * an exception when more than one does.
   */
  function SingleQueryCompiler(ds: seq<ServiceDescriptor>): (r: Result<Option<ServiceDescriptor>, ServicesError>)
    ensures r == Success(None) <==> forall i :: 0 <= i < |ds| ==> !IsQueryCompiler(ds[i])
    ensures r.Success? && r.value.Some? ==>
      && r.value.value in ds && IsQueryCompiler(r.value.value)
      && (forall i :: 0 <= i < |ds| && IsQueryCompiler(ds[i]) ==> ds[i] == r.value.value)
    ensures r.Failure? <==> SeveralQueryCompilers(ds)
  {
    QueryCompilerDescriptorsSeveral(ds);
    QueryCompilerDescriptorsMembers(ds);
    var matches := QueryCompilerDescriptors(ds);
    if |matches| > 1 then Failure(MoreThanOneMatch)
    else if |matches| == 1 then Success(Some(matches[0]))
    else Success(None)
  }

  /** The scoped registrations for a list of types, one per type, in list order. */
  function ScopedAll(ts: seq<TypeName>): (r: seq<ServiceDescriptor>)
    ensures |r| == |ts|
  {
    if ts == [] then [] else ScopedAll(ts[..|ts| - 1]) + [ScopedDescriptor(ts[|ts| - 1])]
  }

  lemma {:induction false} ScopedAllAt(ts: seq<TypeName>, i: nat)
    requires i < |ts|
    ensures ScopedAll(ts)[i] == ScopedDescriptor(ts[i])
  {
    if i < |ts| - 1 {
      ScopedAllAt(ts[..|ts| - 1], i);
    }
  }

  /** The implementation type the original `IQueryCompiler` descriptor registers, if any. */
  function OriginalImplementation(original: Option<ServiceDescriptor>): Option<TypeName> {
    if original.Some? then original.value.ImplementationTypeOf() else None
  }

  /** The descriptors-holder singleton `ApplyServices` registers first. */
  function Holder(original: Option<ServiceDescriptor>): ServiceDescriptor {
    ServiceDescriptor(OriginalServicesDescriptorsType, Singleton, OriginalDescriptors(original))
  }

  /**
   * What `ApplyServices` appends: the descriptors-holder singleton capturing the
   * original `IQueryCompiler` descriptor, then the scoped registrations of the
   * original compiler's implementation type, of the previously replaced
   * compiler, and of every registered interceptor type, skipping the absent ones.
   */
  function Registrations(original: Option<ServiceDescriptor>, previous: Option<TypeName>, compilers: seq<TypeName>): seq<ServiceDescriptor> {
    [Holder(original)]
      + ScopedAll(OptionToSeq(OriginalImplementation(original)))
      + ScopedAll(OptionToSeq(previous))
      + ScopedAll(compilers)
  }

  /** The implementation types a run of registrations registers, in order. */
  function RegisteredTypes(ds: seq<ServiceDescriptor>): (r: seq<TypeName>)
    ensures |r| <= |ds|
  {
    if ds == [] then []
    else RegisteredTypes(ds[..|ds| - 1]) + OptionToSeq(ds[|ds| - 1].ImplementationTypeOf())
  }

  lemma {:induction false} RegisteredScopedAll(ts: seq<TypeName>)
    ensures RegisteredTypes(ScopedAll(ts)) == ts
  {
    if ts != [] {
      var n := |ts|;
      var front := ScopedAll(ts[..n - 1]);
      var last := ScopedDescriptor(ts[n - 1]);
      var all := front + [last];
      assert ScopedAll(ts) == all;
      assert all[..|all| - 1] == front;
      assert all[|all| - 1] == last;
      assert OptionToSeq(last.ImplementationTypeOf()) == [ts[n - 1]];
      RegisteredScopedAll(ts[..n - 1]);
      assert RegisteredTypes(all) == ts[..n - 1] + [ts[n - 1]];
      assert ts[..n - 1] + [ts[n - 1]] == ts;
    }
  }

  lemma {:induction false} RegisteredTypesAppend(a: seq<ServiceDescriptor>, b: seq<ServiceDescriptor>)
    ensures RegisteredTypes(a + b) == RegisteredTypes(a) + RegisteredTypes(b)
    decreases |b|
  {
    if b == [] {
      assert a + b == a;
    } else {
      var n := |b|;
      assert (a + b)[..|a + b| - 1] == a + b[..n - 1];
      RegisteredTypesAppend(a, b[..n - 1]);
    }
  }

  /**
   * Registration order: after the descriptors-holder singleton, `ApplyServices`
   * registers the original compiler's implementation type, then the previously
   * replaced compiler, then each registered interceptor type in list order, and
   * an absent (null) type registers nothing.
   */
  lemma RegistrationOrder(original: Option<ServiceDescriptor>, previous: Option<TypeName>, compilers: seq<TypeName>)
    ensures var regs := Registrations(original, previous, compilers);
      && regs[0] == Holder(original)
      && RegisteredTypes(regs[1..]) == OptionToSeq(OriginalImplementation(original)) + OptionToSeq(previous) + compilers
  {
    var a := ScopedAll(OptionToSeq(OriginalImplementation(original)));
    var b := ScopedAll(OptionToSeq(previous));
    var c := ScopedAll(compilers);
    var regs := Registrations(original, previous, compilers);
    assert regs[1..] == (a + b) + c;
    RegisteredTypesAppend(a + b, c);
    RegisteredTypesAppend(a, b);
    RegisteredScopedAll(OptionToSeq(OriginalImplementation(original)));
    RegisteredScopedAll(OptionToSeq(previous));
    RegisteredScopedAll(compilers);
  }

  /**
   * Everything `ApplyServices` adds after the holder singleton is scoped, one
   * descriptor per present type.
   */
  lemma RegistrationsScoped(original: Option<ServiceDescriptor>, previous: Option<TypeName>, compilers: seq<TypeName>)
    ensures var regs := Registrations(original, previous, compilers);
      && |regs| == 1 + |OptionToSeq(OriginalImplementation(original))| + |OptionToSeq(previous)| + |compilers|
      && (forall i :: 1 <= i < |regs| ==> regs[i].lifetime == Scoped)
  {
    var a := ScopedAll(OptionToSeq(OriginalImplementation(original)));
    var b := ScopedAll(OptionToSeq(previous));
    var c := ScopedAll(compilers);
    var regs := Registrations(original, previous, compilers);
    forall i | 1 <= i < |regs| ensures regs[i].lifetime == Scoped {
      if i - 1 < |a| {
        assert regs[i] == a[i - 1];
        ScopedAllAt(OptionToSeq(OriginalImplementation(original)), i - 1);
      } else if i - 1 - |a| < |b| {
        assert regs[i] == b[i - 1 - |a|];
        ScopedAllAt(OptionToSeq(previous), i - 1 - |a|);
      } else {
        assert regs[i] == c[i - 1 - |a| - |b|];
        ScopedAllAt(compilers, i - 1 - |a| - |b|);
      }
    }
  }

  /** A mutable `IServiceCollection`: the descriptors added so far, in order. */
  class ServiceCollection {
    var descriptors: seq<ServiceDescriptor>

    constructor (initial: seq<ServiceDescriptor>)
      ensures descriptors == initial
    {
      descriptors := initial;
    }

    method Add(d: ServiceDescriptor)
      modifies this
      ensures descriptors == old(descriptors) + [d]
    {
      descriptors := descriptors + [d];
    }
  }

  /** `PipelineExtensionsExtensionInfo`: the metadata object bound to one extension. */
  class ExtensionInfo {
    const extension: PipelineExtensionsOptionsExtension

    constructor (extension: PipelineExtensionsOptionsExtension)
      ensures this.extension == extension
    {
      this.extension := extension;
    }
  }

  class PipelineExtensionsOptionsExtension {
    /** `_info`, created on first access of `Info`. */
    var info: ExtensionInfo?
    /** `PreviousReplacedQueryCompiler`: a compiler type that replaced `IQueryCompiler` before this library did. */
    var previousReplacedQueryCompiler: Option<TypeName>
    /** `QueryCompilers`: the registered interceptor types, in registration order. */
    var queryCompilers: seq<TypeName>

    /** The lazily created info object belongs to this extension. */
    ghost predicate Valid()
      reads this
    {
      info != null ==> info.extension == this
    }

    constructor ()
      ensures Valid()
      ensures info == null && previousReplacedQueryCompiler == None && queryCompilers == []
    {
      info := null;
      previousReplacedQueryCompiler := None;
      queryCompilers := [];
    }

    /** `AddQueryCompiler<T>()`: appends `T`; earlier entries stay, duplicates are kept. */
    method AddQueryCompiler(t: TypeName)
      requires t.Named?
      modifies this`queryCompilers
      ensures queryCompilers == old(queryCompilers) + [t]
    {
      queryCompilers := queryCompilers + [t];
    }

    /** The private `AddScoped`: a null type registers nothing, any other type exactly one scoped service. */
    static method AddScoped(services: ServiceCollection, t: Option<TypeName>)
      modifies services
      ensures services.descriptors == old(services.descriptors) + ScopedAll(OptionToSeq(t))
    {
      if t.Some? {
        services.Add(ScopedDescriptor(t.value));
      }
    }

    /** The `foreach` of `ApplyServices`: one scoped registration per type, in list order. */
    static method AddScopedAll(services: ServiceCollection, ts: seq<TypeName>)
      modifies services
      ensures services.descriptors == old(services.descriptors) + ScopedAll(ts)
    {
      for i := 0 to |ts|
        invariant services.descriptors == old(services.descriptors) + ScopedAll(ts[..i])
      {
        AddScoped(services, Some(ts[i]));
        assert ts[..i + 1][..i] == ts[..i];
      }
      assert ts[..|ts|] == ts;
    }

    /**
     * `ApplyServices`: captures the `IQueryCompiler` descriptor present before its
     * own registrations (throwing if there are several), registers the
     * descriptors holder, then the scoped types in their fixed order.
     */
    method ApplyServices(services: ServiceCollection) returns (r: Outcome<ServicesError>)
      modifies services
      ensures r.Fail? <==> SingleQueryCompiler(old(services.descriptors)).Failure?
      ensures r.Fail? ==> services.descriptors == old(services.descriptors)
      ensures r.Pass? ==>
        services.descriptors == old(services.descriptors)
          + Registrations(SingleQueryCompiler(old(services.descriptors)).value, previousReplacedQueryCompiler, queryCompilers)
    {
      var single := SingleQueryCompiler(services.descriptors);
      if single.Failure? {
        return Fail(single.error);
      }
      var original := single.value;
      ghost var d0 := services.descriptors;
      services.Add(Holder(original));
      AddScoped(services, OriginalImplementation(original));
      AddScoped(services, previousReplacedQueryCompiler);
      AddScopedAll(services, queryCompilers);
      assert services.descriptors == d0 + Registrations(original, previousReplacedQueryCompiler, queryCompilers);
      r := Pass;
    }

    /** `Validate`: does nothing. */
    method Validate()
      ensures unchanged(this)
    {
    }

    /** `Info`: created on first access; every later access returns the same object. */
    method Info() returns (i: ExtensionInfo)
      requires Valid()
      modifies this`info
      ensures Valid() && info == i && i.extension == this
      ensures old(info) != null ==> i == old(info)
      ensures old(info) == null ==> fresh(i)
    {
      if info == null {
        info := new ExtensionInfo(this);
      }
      i := info;
    }
  }
}
