/** The continuation Router of project 3. It differs from the day-3 Router
    only in the branch for a layer that is not selected: that layer is given
    to `handle_error` with the current error instead of being skipped
    directly. Its handler is a route's bound `dispatch`, which is never an
    error handler, so `handle_error` passes the error on to `next`, and the
    walk is the day-3 walk. The Route of Project4Route stands in for the
    project's own `route.js`, which is not part of this model. */
module Project3Router {
  import opened Http
  import opened Project3Layer
  import opened Project4Route
  import Day3Router

  /** `layer.handle_error(error, req, res, next)` on a router layer. The
      handler `route.dispatch.bind(route)` declares the three parameters of
      `dispatch(req, res, done)`, so it is not an error handler: its action
      never runs and `next(error)` follows. */
  function HandleErrorOnRouteLayer(l: Layer<Route>, error: Value): (s: Step)
    ensures s == Next(error)
  {
    HandleError(Fn(l.name, false, CallNext(Undefined)), error)
  }

  class Router {
    var stack: seq<Layer<Route>>

    function Routes(): set<Route>
      reads this
    {
      set i | 0 <= i < |stack| :: stack[i].handle
    }

    ghost predicate Valid()
      reads this, Routes()
    {
      forall i :: 0 <= i < |stack| ==> stack[i].handle.Valid()
    }

    function Model(): (m: seq<Layer<RouteV>>)
      reads this, Routes()
      ensures |m| == |stack|
    {
      seq(|stack|, i requires 0 <= i < |stack| reads this, Routes() => Day3Router.LayerModel(stack[i]))
    }

    constructor ()
      ensures Valid() && stack == []
    {
      stack := [];
    }

    /** `route(path)`: a new Route and one layer at `path` linked to it;
        returns the Route. */
    method NewRoute(path: string) returns (route: Route)
      requires Valid()
      modifies this
      ensures Valid() && fresh(route) && route.Valid()
      ensures route.Model() == RouteV(path, [], {})
      ensures stack == old(stack) + [Layer(route, Day3Router.BoundName, path)]
      ensures Model() == old(Model()) + [Layer(RouteV(path, [], {}), Day3Router.BoundName, path)]
    {
      route := new Route(path);
      stack := stack + [Layer(route, Day3Router.BoundName, path)];
      assert forall i :: 0 <= i < |old(stack)| ==> stack[i] == old(stack)[i];
    }

    /** `router[verb](path, fn)`: a new Route with one layer for `verb`;
        returns the router. */
    method Register(verb: string, path: string, fn: Fn)
      requires Valid() && verb in Methods
      modifies this
      ensures Valid()
      ensures Model() == old(Model()) + [Layer(RouteV(path, [MethodLayer(NewLayer("/", fn, fn.name), verb)], {verb}), Day3Router.BoundName, path)]
    {
      ghost var before := Model();
      var route := NewRoute(path);
      route.Register(verb, fn);
      forall i | 0 <= i < |before| ensures Model()[i] == before[i] {
        assert stack[i] == old(stack)[i];
      }
      var rv := RouteV(path, [MethodLayer(NewLayer("/", fn, fn.name), verb)], {verb});
      assert route.Model() == rv;
      assert Model()[|before|] == Day3Router.LayerModel(stack[|before|]);
      assert Model() == before + [Layer(rv, Day3Router.BoundName, path)];
    }

    /** `handle(req, res, done)`: the `next` closure as a loop over `idx`
        and `err`, ending as the day-3 walk does. */
    method HandleNow(req: Request) returns (o: Day3Router.Outcome)
      ensures o == Day3Router.Handle(Model(), req.url, req.httpMethod)
    {
      var url, verb := req.url, req.httpMethod;
      ghost var m := Model();
      var idx: nat := 0;
      var err := Undefined;
      while true
        invariant idx <= |stack| && Model() == m
        invariant Day3Router.Walk(m, url, verb, idx, err) == Day3Router.Handle(m, url, verb)
        decreases |stack| - idx
      {
        var layerError := if err == RouteSentinel then Null else err;
        if layerError == RouterSentinel {
          return Day3Router.Done(Null);
        }
        if idx >= |stack| || Truthy(layerError) {
          return Day3Router.Done(layerError);
        }
        var layer := stack[idx];
        assert m[idx] == Day3Router.LayerModel(layer);
        if Match(layer, url) && layer.handle.HandlesMethodNow(verb) {
          var r := layer.handle.DispatchNow(req);
          assert Day3Router.Walk(m, url, verb, idx, err) == Day3Router.Resume(m, url, verb, idx, r);
          assert Model() == m;
          idx := idx + 1;
          match r
          case Replied(b) =>
            return Day3Router.Responded(b);
          case Finished(v) =>
            err := v;
        } else {
          idx := idx + 1;
          match HandleErrorOnRouteLayer(layer, layerError)
          case Sent(b) =>
            assert false;
          case Next(v) =>
            err := v;
        }
      }
    }
  }
}
