/**
 * The `IPipelineQueryCompiler` contract: an interceptor has one method per shape,
 * each taking the query and a continuation `next`. An interceptor is described by
 * what each of its methods does with the call.
 */
module Interceptors {
  import opened Wrappers
  import opened QueryTypes

  /** What one interceptor method does when it is called. */
  datatype Action =
    | PassThrough                        // return next(query)
    | ShortCircuit(substitute: Value)    // return a substitute without calling next
    | Rewrite(query: Expression)         // return next(newQuery), same token

  /**
   * An interceptor instance: its registered type and, per tag, what its method for
   * that tag does. A tag without an entry behaves as a pass-through.
   */
  datatype Interceptor = Interceptor(typeName: TypeName, actions: map<QueryCompilerMethod, Action>) {

    /** What the method for tag `m` does; a method the map does not mention passes through. */
    function ActionFor(m: QueryCompilerMethod): Action {
      if m in actions then actions[m] else PassThrough
    }

    predicate PassesThrough(m: QueryCompilerMethod) {
      ActionFor(m) == PassThrough
    }
  }

  /** The observable events of one pipeline call. */
  datatype Event =
    | Enter(compiler: TypeName, tag: QueryCompilerMethod)
    | Exit(compiler: TypeName, tag: QueryCompilerMethod)
    | InnerCall(entry: Entry, resultType: Ty, args: Args)

  /** What a pipeline call returns, with the events it caused in order. */
  datatype Completion = Completion(value: Value, trace: seq<Event>)
}
