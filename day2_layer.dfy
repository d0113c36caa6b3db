/** The second stage's Layer: a path, a handler and a name; matching is an
    exact comparison or the wildcard candidate `'*'`, and invoking calls the
    handler only when it is truthy. The handler type `F` is left to the
    caller: a route's handler or a router's. */
module Day2Layer {
  import opened Http

  /** `handle` is `None` for a falsy value that is not a function (the
      constructor reads `fn.name`, so `undefined` and `null` never get this
      far). */
  datatype Layer<F> = Layer(handle: Option<F>, name: string, path: string)

  /** `fn.name || '<anonymous>'`. */
  function DefaultName(fnName: string): (n: string)
    ensures n != ""
    ensures fnName != "" ==> n == fnName
    ensures fnName == "" ==> n == "<anonymous>"
  {
    if fnName != "" then fnName else "<anonymous>"
  }

  /** `new Layer(path, fn)`; `fnName` is `fn.name`. */
  function NewLayer<F>(path: string, fn: Option<F>, fnName: string): (l: Layer<F>)
    ensures l.path == path && l.handle == fn
    ensures l.name == if fn.Some? then DefaultName(fnName) else "<anonymous>"
  {
    Layer(fn, DefaultName(if fn.Some? then fnName else ""), path)
  }

  /** `match(path)`: the candidate equals the layer's path, or is `'*'`. */
  predicate Match<F>(l: Layer<F>, candidate: string) {
    candidate == l.path || candidate == "*"
  }

  /** `handle_request(req, res)`: the handler that gets called, if any;
      nothing catches what it throws. */
  function HandleRequest<F>(l: Layer<F>): (called: Option<F>)
    ensures called.Some? <==> l.handle.Some?
    ensures called.Some? ==> called.value == l.handle.value
  {
    match l.handle
    case Some(fn) => Some(fn)
    case None => None
  }

  /** The candidate `'*'` matches every layer; any other candidate matches
      only the layer registered at exactly that path. */
  lemma MatchIsExactOrStar<F>(l: Layer<F>, candidate: string)
    ensures Match(l, "*")
    ensures candidate != "*" ==> (Match(l, candidate) <==> candidate == l.path)
  {
  }
}
