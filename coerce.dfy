/** The `query` capability probe: database errors that can describe their query. */
module Coerce {
  import opened Foreign

  /** The value implements `query` (only error values here can). */
  predicate ImplementsQuery(o: Value) {
    o.VError? && o.err.query.Some?
  }

  /** What `tryCoerceQuery` did: whether the probe succeeded and, in order, the results of
      each invocation of the action. */
  datatype Probe<R> = Probe(ok: bool, invoked: seq<R>)

  /** `tryCoerceQuery(o, action)`: run `action` on `o` viewed as a `query` when it is one. */
  function TryCoerceQuery<R>(o: Value, action: QueryView -> R): (p: Probe<R>)
    ensures p.ok <==> ImplementsQuery(o)
    ensures |p.invoked| == if p.ok then 1 else 0
    ensures p.ok ==> p.invoked[0] == action(o.err.query.value)
  {
    if o.VError? && o.err.query.Some? then Probe(true, [action(o.err.query.value)])
    else Probe(false, [])
  }
}
