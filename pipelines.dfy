/**
 * Composed pipelines. The source builds a pipeline as a chain of closures,
 * `pipeline = q => compiler.M(q, pipeline1)`; here a pipeline is the explicit
 * linked list of those `next` references, built bottom-up from the terminal call
 * of the wrapped compiler, and `Run` gives its meaning.
 */
module Pipelines {
  import opened Wrappers
  import opened QueryTypes
  import opened Interceptors

  /** A composed pipeline: the terminal call for a key, wrapped by interceptor methods. */
  datatype Chain =
    | Terminal(key: Key)
    | Wrap(compiler: Interceptor, tag: QueryCompilerMethod, next: Chain)
  {
    /** The interceptors from the outermost (called first) to the innermost. */
    function Layers(): seq<Interceptor> {
      match this
      case Terminal(_) => []
      case Wrap(c, _, next) => [c] + next.Layers()
    }

    /** The key of the terminal call at the bottom of the chain. */
    function Innermost(): Key {
      match this
      case Terminal(k) => k
      case Wrap(_, _, next) => next.Innermost()
    }
  }

  /**
   * The pipeline the builder loop produces for `cs`: starting from the terminal
   * call, each compiler in list order wraps what was built so far, so the last
   * one registered ends up outermost and the first one wraps the terminal.
   */
  function Build(cs: seq<Interceptor>, k: Key): (r: Chain)
    ensures r.Innermost() == k
    ensures |r.Layers()| == |cs|
  {
    if cs == [] then Terminal(k)
    else Wrap(cs[|cs| - 1], k.tag, Build(cs[..|cs| - 1], k))
  }

  /** The outermost layer of the built pipeline is the last compiler of the list, the innermost the first. */
  lemma {:induction false} BuildLayers(cs: seq<Interceptor>, k: Key)
    ensures forall i :: 0 <= i < |cs| ==> Build(cs, k).Layers()[i] == cs[|cs| - 1 - i]
  {
    if cs != [] {
      var n := |cs|;
      var rest := cs[..n - 1];
      BuildLayers(rest, k);
      forall i | 0 <= i < n ensures Build(cs, k).Layers()[i] == cs[n - 1 - i] {
        if 0 < i {
          assert Build(cs, k).Layers()[i] == Build(rest, k).Layers()[i - 1];
          assert rest[(n - 1) - 1 - (i - 1)] == cs[n - 1 - i];
        }
      }
    }
  }

  /** One more step of the builder loop: wrapping `Build(cs[..i])` with `cs[i]` gives `Build(cs[..i + 1])`. */
  lemma BuildStep(cs: seq<Interceptor>, i: nat, k: Key)
    requires i < |cs|
    ensures Build(cs[..i + 1], k) == Wrap(cs[i], k.tag, Build(cs[..i], k))
  {
    assert cs[..i + 1][..i] == cs[..i];
  }

  /**
   * Calling a pipeline. An interceptor method that passes through calls `next`
   * with its own arguments; one that rewrites calls `next` with a new query and
   * the same token; one that short-circuits returns its substitute and never
   * calls `next`. The terminal call asks the wrapped compiler for the full
   * result type of the key.
   */
  function Run(c: Chain, inner: InnerCompiler, a: Args): Completion
    decreases c
  {
    match c
    case Terminal(k) =>
      Completion(inner(EntryOf(k.tag), ResultType(k), a), [InnerCall(EntryOf(k.tag), ResultType(k), a)])
    case Wrap(ic, m, next) =>
      match ic.ActionFor(m)
      case PassThrough =>
        var o := Run(next, inner, a);
        Completion(o.value, [Enter(ic.typeName, m)] + o.trace + [Exit(ic.typeName, m)])
      case ShortCircuit(s) =>
        Completion(s, [Enter(ic.typeName, m), Exit(ic.typeName, m)])
      case Rewrite(q) =>
        var o := Run(next, inner, a.(query := q));
        Completion(o.value, [Enter(ic.typeName, m)] + o.trace + [Exit(ic.typeName, m)])
  }

  /**
   * Every call is bracketed by its outermost layer: that interceptor method is
   * entered first and left last, and a call through `n` layers records at most
   * `n` enter events, `n` exit events and one call of the wrapped compiler.
   */
  lemma {:induction false} RunBracketed(c: Chain, inner: InnerCompiler, a: Args)
    ensures var r := Run(c, inner, a);
      && |r.trace| <= 2 * |c.Layers()| + 1
      && (c.Wrap? ==>
            && |r.trace| >= 2
            && r.trace[0] == Enter(c.compiler.typeName, c.tag)
            && r.trace[|r.trace| - 1] == Exit(c.compiler.typeName, c.tag))
  {
    match c
    case Terminal(_) =>
    case Wrap(ic, m, next) =>
      match ic.ActionFor(m)
      case PassThrough => RunBracketed(next, inner, a);
      case ShortCircuit(_) =>
      case Rewrite(q) => RunBracketed(next, inner, a.(query := q));
  }

  /** Every compiler of `cs` passes the call for tag `m` straight through. */
  predicate AllPassThrough(cs: seq<Interceptor>, m: QueryCompilerMethod) {
    forall i :: 0 <= i < |cs| ==> cs[i].PassesThrough(m)
  }

  /** The enter events of the compilers of `cs` for tag `m`, outermost (last registered) first. */
  function Entries(cs: seq<Interceptor>, m: QueryCompilerMethod): (r: seq<Event>)
    ensures |r| == |cs|
  {
    if cs == [] then [] else [Enter(cs[|cs| - 1].typeName, m)] + Entries(cs[..|cs| - 1], m)
  }

  /** The exit events of the compilers of `cs` for tag `m`, innermost (first registered) first. */
  function Exits(cs: seq<Interceptor>, m: QueryCompilerMethod): (r: seq<Event>)
    ensures |r| == |cs|
  {
    if cs == [] then [] else Exits(cs[..|cs| - 1], m) + [Exit(cs[|cs| - 1].typeName, m)]
  }

  /** The `i`-th enter event belongs to the `i`-th compiler counted from the end of the list. */
  lemma {:induction false} EntriesAt(cs: seq<Interceptor>, m: QueryCompilerMethod, i: nat)
    requires i < |cs|
    ensures Entries(cs, m)[i] == Enter(cs[|cs| - 1 - i].typeName, m)
  {
    if 0 < i {
      var rest := cs[..|cs| - 1];
      EntriesAt(rest, m, i - 1);
      assert rest[|rest| - 1 - (i - 1)] == cs[|cs| - 1 - i];
    }
  }

  /** The `i`-th exit event belongs to the `i`-th compiler of the list. */
  lemma {:induction false} ExitsAt(cs: seq<Interceptor>, m: QueryCompilerMethod, i: nat)
    requires i < |cs|
    ensures Exits(cs, m)[i] == Exit(cs[i].typeName, m)
  {
    if i < |cs| - 1 {
      ExitsAt(cs[..|cs| - 1], m, i);
    }
  }

  /**
   * Fold order. When every compiler passes through, a call enters the compilers
   * from the last registered to the first, reaches the wrapped compiler exactly
   * once and innermost, leaves them from the first to the last, and returns
   * exactly what the wrapped compiler returned.
   */
  lemma {:induction false} PassThroughRun(cs: seq<Interceptor>, k: Key, inner: InnerCompiler, a: Args)
    requires AllPassThrough(cs, k.tag)
    ensures var o := Run(Build(cs, k), inner, a);
      && o.value == inner(EntryOf(k.tag), ResultType(k), a)
      && o.trace == Entries(cs, k.tag) + [InnerCall(EntryOf(k.tag), ResultType(k), a)] + Exits(cs, k.tag)
  {
    if cs != [] {
      var n := |cs|;
      var rest := cs[..n - 1];
      assert AllPassThrough(rest, k.tag) by {
        forall i | 0 <= i < |rest| ensures rest[i].PassesThrough(k.tag) {
          assert rest[i] == cs[i];
        }
      }
      PassThroughRun(rest, k, inner, a);
      WrapPassRun(cs[n - 1], k.tag, Build(rest, k), inner, a);
    }
  }

  /**
   * Short-circuiting. If the compiler at index `j` returns a substitute and every
   * compiler outside it (registered after it) passes through, the call returns
   * the substitute, the wrapped compiler is never called, and the compilers
   * inside it (`cs[..j]`) are never entered: only the compilers `cs[j..]` are
   * entered, last registered first, and left in registration order.
   */
  lemma {:induction false} ShortCircuitRun(cs: seq<Interceptor>, j: nat, k: Key, inner: InnerCompiler, a: Args)
    requires j < |cs| && cs[j].ActionFor(k.tag).ShortCircuit?
    requires forall i :: j < i < |cs| ==> cs[i].PassesThrough(k.tag)
    ensures var o := Run(Build(cs, k), inner, a);
      && o.value == cs[j].ActionFor(k.tag).substitute
      && o.trace == Entries(cs[j..], k.tag) + Exits(cs[j..], k.tag)
    decreases |cs|
  {
    var len := |cs|;
    var rest := cs[..len - 1];
    if j == len - 1 {
      assert cs[j..] == [cs[j]];
      assert cs[j..][..0] == [];
    } else {
      assert rest[j] == cs[j];
      forall i | j < i < |rest| ensures rest[i].PassesThrough(k.tag) {
        assert rest[i] == cs[i];
      }
      ShortCircuitRun(rest, j, k, inner, a);
      WrapPassRun(cs[len - 1], k.tag, Build(rest, k), inner, a);
      assert cs[j..][..len - j - 1] == rest[j..];
    }
  }

  /** A pass-through layer adds its enter and exit events around the inner call and nothing else. */
  lemma WrapPassRun(c: Interceptor, m: QueryCompilerMethod, next: Chain, inner: InnerCompiler, a: Args)
    requires c.PassesThrough(m)
    ensures Run(Wrap(c, m, next), inner, a)
         == Completion(Run(next, inner, a).value, [Enter(c.typeName, m)] + Run(next, inner, a).trace + [Exit(c.typeName, m)])
  {
  }

  /**
   * A transparent pass-through compiler inserted at any position of the list does
   * not change the value any call of the pipeline returns, whatever the other
   * compilers do.
   */
  lemma {:induction false} PassThroughInsertion(cs: seq<Interceptor>, i: nat, p: Interceptor, k: Key, inner: InnerCompiler, a: Args)
    requires i <= |cs| && p.PassesThrough(k.tag)
    ensures Run(Build(cs[..i] + [p] + cs[i..], k), inner, a).value == Run(Build(cs, k), inner, a).value
    decreases |cs|
  {
    var ext := cs[..i] + [p] + cs[i..];
    if i == |cs| {
      assert ext[..|ext| - 1] == cs;
    } else {
      var n := |cs|;
      var rest := cs[..n - 1];
      assert ext[|ext| - 1] == cs[n - 1];
      assert ext[..|ext| - 1] == rest[..i] + [p] + rest[i..];
      var c := cs[n - 1];
      match c.ActionFor(k.tag)
      case PassThrough =>
        PassThroughInsertion(rest, i, p, k, inner, a);
      case ShortCircuit(_) =>
      case Rewrite(q) =>
        PassThroughInsertion(rest, i, p, k, inner, a.(query := q));
    }
  }

  /** The number of events of a trace that enter the method for tag `m` of a compiler of type `name`. */
  function EnterCount(trace: seq<Event>, name: TypeName, m: QueryCompilerMethod): (n: nat)
    ensures n <= |trace|
  {
    if trace == [] then 0
    else (if trace[0] == Enter(name, m) then 1 else 0) + EnterCount(trace[1..], name, m)
  }

  lemma {:induction false} EnterCountAppend(s: seq<Event>, t: seq<Event>, name: TypeName, m: QueryCompilerMethod)
    ensures EnterCount(s + t, name, m) == EnterCount(s, name, m) + EnterCount(t, name, m)
    decreases |s|
  {
    if s == [] {
      assert s + t == t;
    } else {
      assert (s + t)[0] == s[0];
      assert (s + t)[1..] == s[1..] + t;
      EnterCountAppend(s[1..], t, name, m);
    }
  }

  /** How many compilers of `cs` are of type `name`. */
  function TypeCount(cs: seq<Interceptor>, name: TypeName): (n: nat)
    ensures n <= |cs|
  {
    if cs == [] then 0
    else TypeCount(cs[..|cs| - 1], name) + (if cs[|cs| - 1].typeName == name then 1 else 0)
  }

  /**
   * Call counting. When every compiler passes through, one call of the pipeline
   * invokes the method for its tag of the compilers of each type exactly as many
   * times as that type is registered: once, for a type registered once.
   */
  lemma {:induction false} PassThroughEnterCount(cs: seq<Interceptor>, k: Key, inner: InnerCompiler, a: Args, name: TypeName)
    requires AllPassThrough(cs, k.tag)
    ensures EnterCount(Run(Build(cs, k), inner, a).trace, name, k.tag) == TypeCount(cs, name)
  {
    if cs == [] {
      assert Run(Build(cs, k), inner, a).trace[1..] == [];
    } else {
      var n := |cs|;
      var rest := cs[..n - 1];
      assert AllPassThrough(rest, k.tag) by {
        forall i | 0 <= i < |rest| ensures rest[i].PassesThrough(k.tag) {
          assert rest[i] == cs[i];
        }
      }
      PassThroughEnterCount(rest, k, inner, a, name);
      var t := Run(Build(rest, k), inner, a).trace;
      var c := cs[n - 1];
      assert c.PassesThrough(k.tag);
      var e := Enter(c.typeName, k.tag);
      var x := Exit(c.typeName, k.tag);
      assert Run(Build(cs, k), inner, a).trace == [e] + t + [x];
      EnterCountAppend([e] + t, [x], name, k.tag);
      EnterCountAppend([e], t, name, k.tag);
      assert [x][1..] == [] && [e][1..] == [];
    }
  }
}
