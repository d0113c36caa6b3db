/** The Layer of the continuation stages: exact-or-`'*'` matching, and the
    two ways of invoking a handler with a `next` continuation. `handle_error`
    skips a handler that is not an error handler (four parameters in the
    source, an explicit flag here); both catch what the handler throws and
    pass it to `next`. */
module Project3Layer {
  import opened Http
  import Day2Layer

  /** What a handler does when it is called: call `next(v)`, send a body, or
      throw `v`. */
  datatype Action = CallNext(v: Value) | Respond(body: string) | Throw(v: Value)

  /** A handler function: its `name`, whether it was declared with the
      error-handler shape `(err, req, res, next)` (the source tests
      `fn.length === 4`), and what it does. */
  datatype Fn = Fn(name: string, isErrorHandler: bool, action: Action)

  /** How an invocation ends: `next(v)` was called, or a body was sent. */
  datatype Step = Next(v: Value) | Sent(body: string)

  /** `try { fn(...) } catch (err) { next(err); }`. */
  function Run(a: Action): (s: Step)
    ensures a.Throw? ==> s == Next(a.v)
    ensures a.CallNext? ==> s == Next(a.v)
    ensures a.Respond? ==> s == Sent(a.body)
  {
    match a
    case CallNext(v) => Next(v)
    case Respond(b) => Sent(b)
    case Throw(v) => Next(v)
  }

  /** `handle_request(req, res, next)`. */
  function HandleRequest(f: Fn): Step {
    Run(f.action)
  }

  /** `handle_error(error, req, res, next)`: a handler that is not an error
      handler is not called and `error` goes on to `next` untouched. */
  function HandleError(f: Fn, error: Value): (s: Step)
    ensures !f.isErrorHandler ==> s == Next(error)
    ensures f.isErrorHandler ==> s == HandleRequest(f)
  {
    if !f.isErrorHandler then Next(error) else Run(f.action)
  }

  /** A layer: `new Layer(path, fn)`, with the handler left generic (a
      plain function, or a route's bound `dispatch`). */
  datatype Layer<H> = Layer(handle: H, name: string, path: string)

  function NewLayer<H>(path: string, fn: H, fnName: string): (l: Layer<H>)
    ensures l.handle == fn && l.path == path
    ensures l.name == Day2Layer.DefaultName(fnName)
  {
    Layer(fn, Day2Layer.DefaultName(fnName), path)
  }

  /** `match(path)`: `path === this.path || path === '*'`. */
  predicate Match<H>(l: Layer<H>, candidate: string) {
    candidate == l.path || candidate == "*"
  }

  /** Throwing is the same as passing the thrown value to `next`, for both
      ways of invoking. */
  lemma ThrowIsNext(f: Fn, v: Value, error: Value)
    requires f.action == Throw(v)
    ensures HandleRequest(f) == Next(v)
    ensures HandleError(f, error) == if f.isErrorHandler then Next(v) else Next(error)
  {
  }

  /** An error handler is the only kind of handler an error can reach, and
      the error it gets means nothing to a handler that calls `next` with
      a value of its own. */
  lemma ErrorReachesOnlyErrorHandlers(f: Fn, e1: Value, e2: Value)
    requires HandleError(f, e1) != Next(e1)
    ensures f.isErrorHandler
    ensures HandleError(f, e2) == HandleError(f, e1)
  {
  }
}
