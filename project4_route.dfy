/** The mature Route: one registration method per HTTP method, a
    case-insensitive `_handles_method`, and a `dispatch` whose `next(err)`
    closure walks the layers of the request's method in registration order,
    consuming the `'route'` sentinel and passing `'router'` and errors up to
    `done`. The Layer it uses is the continuation Layer of Project3Layer (its
    own `layer.js` is not part of this model). */
module Project4Route {
  import opened Http
  import opened Project3Layer

  /** A layer of the route's stack, `new Layer('/', fn)`, with the
      `layer.method` tag the route sets. */
  datatype MethodLayer = MethodLayer(layer: Layer<Fn>, verb: string)

  /** The value of a route object: its path, its stack and the keys of
      `methods` that are `true`. */
  datatype RouteV = RouteV(path: string, stack: seq<MethodLayer>, methods: set<string>)

  /** How `dispatch` ends: `done(v)` was called, or a handler sent a body. */
  datatype RouteOutcome = Finished(v: Value) | Replied(body: string)

  /** The methods tagged on the layers of a stack. */
  function Tags(stack: seq<MethodLayer>): (tags: set<string>)
    ensures forall i :: 0 <= i < |stack| ==> stack[i].verb in tags
    ensures forall v :: v in tags ==> exists i :: 0 <= i < |stack| && stack[i].verb == v
  {
    set i | 0 <= i < |stack| :: stack[i].verb
  }

  lemma TagsAppend(stack: seq<MethodLayer>, m: MethodLayer)
    ensures Tags(stack + [m]) == Tags(stack) + {m.verb}
  {
    var t := stack + [m];
    forall v | v in Tags(t) ensures v in Tags(stack) + {m.verb} {
      var i :| 0 <= i < |t| && t[i].verb == v;
      if i < |stack| { assert t[i] == stack[i]; }
    }
    forall v | v in Tags(stack) ensures v in Tags(t) {
      var i :| 0 <= i < |stack| && stack[i].verb == v;
      assert t[i] == stack[i];
    }
    assert t[|stack|] == m;
  }

  /** `methods` records exactly the tags of the layers pushed so far. */
  ghost predicate Consistent(r: RouteV) {
    r.methods == Tags(r.stack)
  }

  /** `_handles_method(method)`: the lower-cased name was registered. */
  predicate HandlesMethod(r: RouteV, verb: string) {
    Lower(verb) in r.methods
  }

  /** A visit of a layer of the request's method: `handle_error` when `err`
      is truthy, `handle_request` otherwise. */
  function Visit(l: MethodLayer, err: Value): (s: Step)
    ensures !Truthy(err) ==> s == HandleRequest(l.layer.handle)
    ensures Truthy(err) && !l.layer.handle.isErrorHandler ==> s == Next(err)
    ensures Truthy(err) && l.layer.handle.isErrorHandler ==> s == HandleRequest(l.layer.handle)
  {
    if Truthy(err) then HandleError(l.layer.handle, err) else HandleRequest(l.layer.handle)
  }

  /** The call `next(err)` of `dispatch` when `idx` layers have been taken
      from the stack; `verb` is the lower-cased request method. */
  function NextFrom(stack: seq<MethodLayer>, verb: string, idx: nat, err: Value): RouteOutcome
    decreases |stack| - idx
  {
    if err == RouteSentinel then Finished(Undefined)
    else if err == RouterSentinel then Finished(err)
    else if idx >= |stack| then Finished(err)
    else if verb != stack[idx].verb then NextFrom(stack, verb, idx + 1, err)
    else After(stack, verb, idx, Visit(stack[idx], err))
  }

  /** What follows the visit of layer `idx` that ended with `s`. */
  function After(stack: seq<MethodLayer>, verb: string, idx: nat, s: Step): RouteOutcome
    decreases |stack| - idx, 0
  {
    match s
    case Sent(b) => Replied(b)
    case Next(v) => if idx < |stack| then NextFrom(stack, verb, idx + 1, v) else Finished(v)
  }

  /** `dispatch(req, res, done)`: `next()` with the method lower-cased. */
  function Dispatch(r: RouteV, reqMethod: string): RouteOutcome {
    NextFrom(r.stack, Lower(reqMethod), 0, Undefined)
  }

  /** A layer that the walk passes over without calling its handler, with
      `err` unchanged: another method's layer, or, while an error is pending,
      a layer that is not an error handler. */
  predicate PassedOver(l: MethodLayer, verb: string, err: Value) {
    l.verb != verb || (Truthy(err) && !l.layer.handle.isErrorHandler)
  }

  /** Layers passed over are skipped with the pending error preserved. */
  lemma {:induction false} PassOver(stack: seq<MethodLayer>, verb: string, i: nat, k: nat, err: Value)
    requires i <= k <= |stack|
    requires err != RouteSentinel && err != RouterSentinel
    requires forall j :: i <= j < k ==> PassedOver(stack[j], verb, err)
    ensures NextFrom(stack, verb, i, err) == NextFrom(stack, verb, k, err)
    decreases k - i
  {
    if i < k {
      PassOver(stack, verb, i + 1, k, err);
    }
  }

  /** `done` never sees `'route'`: the sentinel is consumed at the route
      boundary, whatever the handlers do. */
  lemma {:induction false} RouteSentinelConsumed(stack: seq<MethodLayer>, verb: string, idx: nat, err: Value)
    ensures NextFrom(stack, verb, idx, err).Finished? ==> NextFrom(stack, verb, idx, err).v != RouteSentinel
    decreases |stack| - idx
  {
    if err == RouteSentinel || err == RouterSentinel || idx >= |stack| {
    } else if verb != stack[idx].verb {
      RouteSentinelConsumed(stack, verb, idx + 1, err);
    } else {
      match Visit(stack[idx], err)
      case Sent(_) =>
      case Next(v) => RouteSentinelConsumed(stack, verb, idx + 1, v);
    }
  }

  /** A visited handler's `next('route')` ends the route with `done()`, and
      its `next('router')` with `done('router')`; the remaining layers are
      not visited. */
  lemma SentinelsEndTheRoute(stack: seq<MethodLayer>, verb: string, idx: nat, err: Value)
    requires idx < |stack| && stack[idx].verb == verb
    requires err != RouteSentinel && err != RouterSentinel
    ensures Visit(stack[idx], err) == Next(RouteSentinel) ==> NextFrom(stack, verb, idx, err) == Finished(Undefined)
    ensures Visit(stack[idx], err) == Next(RouterSentinel) ==> NextFrom(stack, verb, idx, err) == Finished(RouterSentinel)
  {
    assert NextFrom(stack, verb, idx + 1, RouteSentinel) == Finished(Undefined);
    assert NextFrom(stack, verb, idx + 1, RouterSentinel) == Finished(RouterSentinel);
  }

  /** With no layer for the method, `done(err)` gets the error it started
      with; in particular a method the route does not handle finishes with
      `done()` and calls no handler. */
  lemma NoLayerForMethod(r: RouteV, reqMethod: string, err: Value)
    requires err != RouteSentinel && err != RouterSentinel
    requires forall j :: 0 <= j < |r.stack| ==> r.stack[j].verb != Lower(reqMethod)
    ensures NextFrom(r.stack, Lower(reqMethod), 0, err) == Finished(err)
    ensures Dispatch(r, reqMethod) == Finished(Undefined)
  {
    PassOver(r.stack, Lower(reqMethod), 0, |r.stack|, err);
    PassOver(r.stack, Lower(reqMethod), 0, |r.stack|, Undefined);
  }

  /** On a consistent route, `_handles_method` holds exactly when some layer
      carries the lower-cased method, and a method it does not handle
      dispatches to nothing. */
  lemma HandlesMethodIffTagged(r: RouteV, reqMethod: string)
    requires Consistent(r)
    ensures HandlesMethod(r, reqMethod) <==> exists i :: 0 <= i < |r.stack| && r.stack[i].verb == Lower(reqMethod)
    ensures !HandlesMethod(r, reqMethod) ==> Dispatch(r, reqMethod) == Finished(Undefined)
  {
    if !HandlesMethod(r, reqMethod) {
      forall j | 0 <= j < |r.stack| ensures r.stack[j].verb != Lower(reqMethod) {
        assert r.stack[j].verb in Tags(r.stack);
      }
      NoLayerForMethod(r, reqMethod, Undefined);
    }
  }

  /** The first layer registered for the method is the first handler
      called, with `handle_request`. */
  lemma FirstRegisteredRunsFirst(r: RouteV, reqMethod: string, k: nat)
    requires k < |r.stack| && r.stack[k].verb == Lower(reqMethod)
    requires forall j :: 0 <= j < k ==> r.stack[j].verb != Lower(reqMethod)
    ensures Dispatch(r, reqMethod) == After(r.stack, Lower(reqMethod), k, HandleRequest(r.stack[k].layer.handle))
  {
    PassOver(r.stack, Lower(reqMethod), 0, k, Undefined);
  }

  /** A pending error reaches the first error handler registered for the
      method after the current position; every layer in between is passed
      over. */
  lemma ErrorReachesFirstErrorHandler(stack: seq<MethodLayer>, verb: string, i: nat, k: nat, err: Value)
    requires i <= k < |stack| && stack[k].verb == verb && stack[k].layer.handle.isErrorHandler
    requires IsFailure(err)
    requires forall j :: i <= j < k ==> stack[j].verb != verb || !stack[j].layer.handle.isErrorHandler
    ensures NextFrom(stack, verb, i, err) == After(stack, verb, k, HandleRequest(stack[k].layer.handle))
  {
    PassOver(stack, verb, i, k, err);
  }

  /** Registering again appends rather than replaces: a later layer never
      changes a response the earlier layers already give. */
  lemma {:induction false} AppendKeepsOutcome(stack: seq<MethodLayer>, m: MethodLayer, verb: string, idx: nat, err: Value)
    requires NextFrom(stack, verb, idx, err).Replied?
    ensures NextFrom(stack + [m], verb, idx, err) == NextFrom(stack, verb, idx, err)
    decreases |stack| - idx
  {
    var t := stack + [m];
    if err == RouteSentinel || err == RouterSentinel || idx >= |stack| {
    } else {
      assert t[idx] == stack[idx];
      if verb != stack[idx].verb {
        AppendKeepsOutcome(stack, m, verb, idx + 1, err);
      } else {
        match Visit(stack[idx], err)
        case Sent(_) =>
        case Next(v) => AppendKeepsOutcome(stack, m, verb, idx + 1, v);
      }
    }
  }

  class Route {
    var path: string
    var stack: seq<MethodLayer>
    var methods: set<string>

    ghost predicate Valid()
      reads this
    {
      Consistent(Model())
    }

    function Model(): RouteV
      reads this
    {
      RouteV(path, stack, methods)
    }

    constructor (path: string)
      ensures Valid() && Model() == RouteV(path, [], {})
    {
      this.path := path;
      stack := [];
      methods := {};
    }

    /** `_handles_method(method)`. */
    function HandlesMethodNow(reqMethod: string): (b: bool)
      reads this
      ensures b == HandlesMethod(Model(), reqMethod)
    {
      Lower(reqMethod) in methods
    }

    /** `route[verb](fn)` for one of the lower-cased `http.METHODS`: push
        `new Layer('/', fn)` tagged `verb`, set `methods[verb]`, return the
        route. */
    method Register(verb: string, fn: Fn)
      requires Valid() && verb in Methods
      modifies this
      ensures Valid()
      ensures Model() == old(Model()).(stack := old(stack) + [MethodLayer(NewLayer("/", fn, fn.name), verb)],
                                       methods := old(methods) + {verb})
    {
      var layer := NewLayer("/", fn, fn.name);
      methods := methods + {verb};
      stack := stack + [MethodLayer(layer, verb)];
      TagsAppend(old(stack), MethodLayer(layer, verb));
    }

    /** `dispatch(req, res, done)`: the `next` closure as a loop over `idx`
        and `err`; returns what `done` receives or the body sent. */
    method DispatchNow(req: Request) returns (o: RouteOutcome)
      ensures o == Dispatch(Model(), req.httpMethod)
    {
      var verb := Lower(req.httpMethod);
      var idx: nat := 0;
      var err := Undefined;
      while true
        invariant idx <= |stack|
        invariant NextFrom(stack, verb, idx, err) == Dispatch(Model(), req.httpMethod)
        decreases |stack| - idx
      {
        if err == RouteSentinel {
          return Finished(Undefined);
        }
        if err == RouterSentinel {
          return Finished(err);
        }
        if idx >= |stack| {
          return Finished(err);
        }
        var layer := stack[idx];
        idx := idx + 1;
        if verb != layer.verb {
          continue;
        }
        var s := Visit(layer, err);
        match s
        case Sent(b) =>
          return Replied(b);
        case Next(v) =>
          err := v;
      }
    }
  }
}
