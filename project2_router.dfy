/** The Router of the stage after day 2: the same fallback layer 0 and
    `route(path)`, but `handle` now calls the first layer that matches the url,
    has a route and whose route handles the method, and `get(path, fn)`
    registers through a new Route. Its layer and route files are not part of
    this model; the day-2 Layer and Route stand in for them. */
module Project2Router {
  import opened Http
  import opened Day2Layer
  import opened Day2Route
  import Day2Router

  /** The loop's test: `match(req.url) && route && route._handles_method(method)`. */
  predicate Eligible(e: Day2Router.EntryV, url: string, verb: string) {
    Match(e.layer, url) && e.route.Some? && HandlesMethod(e.route.value, verb)
  }

  /** The layer `handle` calls: the first eligible one, scanning from index 0,
      or the fallback. */
  function Selected(stack: seq<Day2Router.EntryV>, url: string, verb: string): nat {
    match FirstWhere(stack, (e: Day2Router.EntryV) => Eligible(e, url, verb), 0)
    case Some(k) => k
    case None => 0
  }

  /** What `handle(req, res)` sends. */
  function Handle(stack: seq<Day2Router.EntryV>, url: string, verb: string): Option<string>
    requires |stack| >= 1
  {
    Day2Router.Invoke(stack[Selected(stack, url, verb)], verb)
  }

  /** The fallback has no route, so the loop never picks it: index 0 is
      chosen exactly when no layer is eligible, and any other chosen index is
      the first eligible layer. */
  lemma FallbackOnlyWhenNothingEligible(stack: seq<Day2Router.EntryV>, url: string, verb: string)
    requires |stack| >= 1 && stack[0].route.None?
    ensures var k := Selected(stack, url, verb);
      && k < |stack|
      && (k == 0 <==> forall j :: 0 <= j < |stack| ==> !Eligible(stack[j], url, verb))
      && (k != 0 ==> Eligible(stack[k], url, verb) && forall j :: 0 <= j < k ==> !Eligible(stack[j], url, verb))
  {
  }

  /** A layer registered by `route(path)` whose route was then given a GET
      handler answers a GET for `path` that no earlier layer takes. */
  lemma RegisteredGetAnswers(stack: seq<Day2Router.EntryV>, k: nat, path: string, verb: string, body: string, fnName: string)
    requires 1 <= k < |stack| && stack[0].route.None?
    requires Lower(verb) == "get"
    requires var rv := RouteV(path, [MethodLayer(NewLayer("/", Some(Send(body)), fnName), "get")], {"get"});
      stack[k] == Day2Router.EntryV(Layer(Some(Day2Router.DispatchToV(rv)), "<anonymous>", path), Some(rv))
    requires forall j :: 0 <= j < k ==> !Eligible(stack[j], path, verb)
    ensures Handle(stack, path, verb) == Some(body)
  {
    FirstWhereIs(stack, (e: Day2Router.EntryV) => Eligible(e, path, verb), 0, Some(k));
  }

  class Router {
    var stack: seq<Day2Router.Entry>

    function Routes(): set<Route>
      reads this
    {
      set i, r | 0 <= i < |stack| && r in Day2Router.RoutesOf(stack[i]) :: r
    }

    ghost predicate Valid()
      reads this
    {
      |stack| >= 1 && stack[0] == Day2Router.Fallback
    }

    function Model(): (m: seq<Day2Router.EntryV>)
      reads this, Routes()
      ensures |m| == |stack|
    {
      seq(|stack|, i requires 0 <= i < |stack| reads this, Routes() => Day2Router.EntryModel(stack[i]))
    }

    constructor ()
      ensures Valid() && stack == [Day2Router.Fallback]
    {
      stack := [Day2Router.Fallback];
    }

    /** `route(path)`: as on day 2. */
    method NewRoute(path: string) returns (route: Route)
      requires Valid()
      modifies this
      ensures Valid() && fresh(route) && route.Valid()
      ensures route.Model() == RouteV(path, [], {})
      ensures stack == old(stack) + [Day2Router.Entry(NewLayer(path, Some(Day2Router.DispatchTo(route)), ""), Some(route))]
    {
      route := new Route(path);
      stack := stack + [Day2Router.Entry(NewLayer(path, Some(Day2Router.DispatchTo(route)), ""), Some(route))];
    }

    /** `get(path, fn)`: `this.route(path).get(fn)`; returns the router. */
    method Get(path: string, fn: Option<Reply>, fnName: string)
      requires Valid()
      modifies this
      ensures Valid()
      ensures var rv := RouteV(path, [MethodLayer(NewLayer("/", fn, fnName), "get")], {"get"});
        Model() == old(Model()) + [Day2Router.EntryV(Layer(Some(Day2Router.DispatchToV(rv)), "<anonymous>", path), Some(rv))]
    {
      ghost var before := Model();
      var route := NewRoute(path);
      route.Get(fn, fnName);
      forall i | 0 <= i < |before| ensures Model()[i] == before[i] {
        assert stack[i] == old(stack)[i];
        assert route !in Day2Router.RoutesOf(stack[i]);
      }
      var rv := RouteV(path, [MethodLayer(NewLayer("/", fn, fnName), "get")], {"get"});
      assert route.Model() == rv;
      assert Model()[|before|] == Day2Router.EntryModel(stack[|before|]);
      assert Model() == before + [Day2Router.EntryV(Layer(Some(Day2Router.DispatchToV(rv)), "<anonymous>", path), Some(rv))];
    }

    /** `handle(req, res)`: returns the index of the layer it calls and the
        body sent. */
    method HandleNow(req: Request) returns (k: nat, sent: Option<string>)
      requires Valid()
      ensures k == Selected(Model(), req.url, req.httpMethod)
      ensures sent == Handle(Model(), req.url, req.httpMethod)
    {
      var url, verb := req.url, req.httpMethod;
      ghost var m := Model();
      ghost var p := (e: Day2Router.EntryV) => Eligible(e, url, verb);
      k := 0;
      var i := 0;
      while i < |stack|
        invariant 0 <= i <= |stack|
        invariant forall j :: 0 <= j < i ==> !p(m[j])
      {
        assert m[i] == Day2Router.EntryModel(stack[i]);
        var e := stack[i];
        if Match(e.layer, url) && e.route.Some? && e.route.value.HandlesMethodNow(verb) {
          k := i;
          break;
        }
        i := i + 1;
      }
      assert m[k] == Day2Router.EntryModel(stack[k]);
      assert k == Selected(m, url, verb);
      sent := Day2Router.InvokeEntry(stack[k], req);
      assert Model() == m;
    }
  }
}
