/** The continuation Router of the third stage: `route(path)` pushes a layer
    whose handler is the new Route's bound `dispatch`, and `handle` walks the
    stack through a `next(err)` closure that turns `'route'` into no error,
    ends with `done(null)` on `'router'`, and ends with `done(layerError)` as
    soon as the stack is exhausted or any real error is pending. Its Layer
    and Route are not part of this model; the Layer of Project3Layer and the
    Route of Project4Route stand in for them. */
module Day3Router {
  import opened Http
  import opened Project3Layer
  import opened Project4Route

  /** How `handle` ends: `done(v)` was called, or a handler sent a body. */
  datatype Outcome = Done(v: Value) | Responded(body: string)

  /** A route layer's `fn.name`: a bound function is named `'bound '` followed by the target's name, and `dispatch` is an anonymous function. */
  const BoundName := "bound "

  /** The test that calls a layer with `handle_request`:
      `layer.match(req.url) && layer.route && layer.route._handles_method(method)`.
      Every layer here has a route. */
  predicate Selects(l: Layer<RouteV>, url: string, verb: string) {
    Match(l, url) && HandlesMethod(l.handle, verb)
  }

  /** `next(err)` when `idx` layers have been taken from the stack. */
  function Walk(stack: seq<Layer<RouteV>>, url: string, verb: string, idx: nat, err: Value): Outcome
    decreases |stack| - idx
  {
    var layerError := if err == RouteSentinel then Null else err;
    if layerError == RouterSentinel then Done(Null)
    else if idx >= |stack| || Truthy(layerError) then Done(layerError)
    else if Selects(stack[idx], url, verb) then Resume(stack, url, verb, idx, Dispatch(stack[idx].handle, verb))
    else Walk(stack, url, verb, idx + 1, layerError)
  }

  /** What follows when the route of layer `idx` ends with `o`: its `done`
      is the router's `next`. */
  function Resume(stack: seq<Layer<RouteV>>, url: string, verb: string, idx: nat, o: RouteOutcome): Outcome
    decreases |stack| - idx, 0
  {
    match o
    case Replied(b) => Responded(b)
    case Finished(v) => if idx < |stack| then Walk(stack, url, verb, idx + 1, v) else Done(v)
  }

  /** `handle(req, res, done)`: `next()`. */
  function Handle(stack: seq<Layer<RouteV>>, url: string, verb: string): Outcome {
    Walk(stack, url, verb, 0, Undefined)
  }

  /** Layers that are not selected are skipped while no error is pending. */
  lemma {:induction false} SkipUnselected(stack: seq<Layer<RouteV>>, url: string, verb: string, i: nat, k: nat, err: Value)
    requires i <= k <= |stack|
    requires !Truthy(err)
    requires forall j :: i <= j < k ==> !Selects(stack[j], url, verb)
    ensures Walk(stack, url, verb, i, err) == Walk(stack, url, verb, k, err)
    decreases k - i
  {
    if i < k {
      SkipUnselected(stack, url, verb, i + 1, k, err);
    }
  }

  /** The first selected layer is the one whose route is dispatched to; when
      none is selected, `done()` is called with no error. */
  lemma FirstSelectedDispatches(stack: seq<Layer<RouteV>>, url: string, verb: string, k: nat)
    requires k <= |stack|
    requires forall j :: 0 <= j < k ==> !Selects(stack[j], url, verb)
    ensures k < |stack| && Selects(stack[k], url, verb) ==>
      Handle(stack, url, verb) == Resume(stack, url, verb, k, Dispatch(stack[k].handle, verb))
    ensures k == |stack| ==> Handle(stack, url, verb) == Done(Undefined)
  {
    SkipUnselected(stack, url, verb, 0, k, Undefined);
  }

  /** Any real error ends the walk at once: no later layer is called, error
      handler or not, and `done` receives the error. A route that finishes
      with an error therefore aborts the router, and one that finishes with
      `'router'` ends it with `done(null)`. */
  lemma ErrorAborts(stack: seq<Layer<RouteV>>, url: string, verb: string, idx: nat, err: Value)
    requires IsFailure(err)
    ensures Walk(stack, url, verb, idx, err) == Done(err)
    ensures idx < |stack| ==> Resume(stack, url, verb, idx, Finished(err)) == Done(err)
    ensures idx < |stack| ==> Resume(stack, url, verb, idx, Finished(RouterSentinel)) == Done(Null)
  {
  }

  /** `done` never receives a sentinel: `'route'` becomes `null` and
      `'router'` is turned into `done(null)`. */
  lemma {:induction false} NoSentinelReachesDone(stack: seq<Layer<RouteV>>, url: string, verb: string, idx: nat, err: Value)
    ensures var o := Walk(stack, url, verb, idx, err);
      o.Done? ==> o.v != RouteSentinel && o.v != RouterSentinel
    decreases |stack| - idx
  {
    var layerError := if err == RouteSentinel then Null else err;
    if layerError == RouterSentinel || idx >= |stack| || Truthy(layerError) {
    } else if Selects(stack[idx], url, verb) {
      match Dispatch(stack[idx].handle, verb)
      case Replied(_) =>
      case Finished(v) => NoSentinelReachesDone(stack, url, verb, idx + 1, v);
    } else {
      NoSentinelReachesDone(stack, url, verb, idx + 1, layerError);
    }
  }

  /** The value of a router layer: its route replaced by the route's value. */
  function LayerModel(l: Layer<Route>): (v: Layer<RouteV>)
    reads l.handle
    ensures v.path == l.path && v.name == l.name && v.handle == l.handle.Model()
  {
    Layer(l.handle.Model(), l.name, l.path)
  }

  class Router {
    /** Each layer's handler is its route (`layer.route`, whose bound
        `dispatch` is `layer.handle`). */
    var stack: seq<Layer<Route>>

    function Routes(): set<Route>
      reads this
    {
      set i | 0 <= i < |stack| :: stack[i].handle
    }

    ghost predicate Valid()
      reads this, Routes()
    {
      forall i :: 0 <= i < |stack| ==> stack[i].handle.Valid()
    }

    function Model(): (m: seq<Layer<RouteV>>)
      reads this, Routes()
      ensures |m| == |stack|
    {
      seq(|stack|, i requires 0 <= i < |stack| reads this, Routes() => LayerModel(stack[i]))
    }

    constructor ()
      ensures Valid() && stack == []
    {
      stack := [];
    }

    /** `route(path)`: a new Route, and one layer at `path` linked to it;
        returns the Route. */
    method NewRoute(path: string) returns (route: Route)
      requires Valid()
      modifies this
      ensures Valid() && fresh(route) && route.Valid()
      ensures route.Model() == RouteV(path, [], {})
      ensures stack == old(stack) + [Layer(route, BoundName, path)]
      ensures Model() == old(Model()) + [Layer(RouteV(path, [], {}), BoundName, path)]
    {
      route := new Route(path);
      stack := stack + [Layer(route, BoundName, path)];
      assert forall i :: 0 <= i < |old(stack)| ==> stack[i] == old(stack)[i];
    }

    /** `router[verb](path, fn)`: `this.route(path)[verb](fn)`, a new Route
        every time; returns the router. */
    method Register(verb: string, path: string, fn: Fn)
      requires Valid() && verb in Methods
      modifies this
      ensures Valid()
      ensures Model() == old(Model()) + [Layer(RouteV(path, [MethodLayer(NewLayer("/", fn, fn.name), verb)], {verb}), BoundName, path)]
    {
      ghost var before := Model();
      var route := NewRoute(path);
      route.Register(verb, fn);
      forall i | 0 <= i < |before| ensures Model()[i] == before[i] {
        assert stack[i] == old(stack)[i];
      }
      var rv := RouteV(path, [MethodLayer(NewLayer("/", fn, fn.name), verb)], {verb});
      assert route.Model() == rv;
      assert Model()[|before|] == LayerModel(stack[|before|]);
      assert Model() == before + [Layer(rv, BoundName, path)];
    }

    /** `handle(req, res, done)`: the `next` closure as a loop over `idx`
        and `err`. */
    method HandleNow(req: Request) returns (o: Outcome)
      ensures o == Handle(Model(), req.url, req.httpMethod)
    {
      var url, verb := req.url, req.httpMethod;
      ghost var m := Model();
      var idx: nat := 0;
      var err := Undefined;
      while true
        invariant idx <= |stack| && Model() == m
        invariant Walk(m, url, verb, idx, err) == Handle(m, url, verb)
        decreases |stack| - idx
      {
        var layerError := if err == RouteSentinel then Null else err;
        if layerError == RouterSentinel {
          return Done(Null);
        }
        if idx >= |stack| || Truthy(layerError) {
          return Done(layerError);
        }
        var layer := stack[idx];
        assert m[idx] == LayerModel(layer);
        if Match(layer, url) && layer.handle.HandlesMethodNow(verb) {
          var r := layer.handle.DispatchNow(req);
          assert Walk(m, url, verb, idx, err) == Resume(m, url, verb, idx, r);
          assert Model() == m;
          idx := idx + 1;
          match r
          case Replied(b) =>
            return Responded(b);
          case Finished(v) =>
            err := v;
        } else {
          idx := idx + 1;
          err := layerError;
        }
      }
    }
  }
}
