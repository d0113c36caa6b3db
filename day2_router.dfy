/** The second stage's Router: a stack whose layer 0 is a fallback answering
    `'404'`, `route(path)` and `get(path, fn)` appending to it, and a `handle`
    that calls the first later layer whose path matches the url, whatever
    the request's method. */
module Day2Router {
  import opened Http
  import opened Day2Layer
  import opened Day2Route

  /** What a router layer's handler does: answer by itself, or be the closure
      `function (req, res) { route.dispatch(req, res); }` of a route. */
  datatype Callee = Responder(reply: Reply) | DispatchTo(route: Route)

  /** A stack entry: the layer and its `layer.route` link. */
  datatype Entry = Entry(layer: Layer<Callee>, route: Option<Route>)

  /** The same, with every route replaced by its value. */
  datatype CalleeV = ResponderV(reply: Reply) | DispatchToV(route: RouteV)
  datatype EntryV = EntryV(layer: Layer<CalleeV>, route: Option<RouteV>)

  /** The layer every router starts with: `new Layer('*', fn)` where the
      anonymous `fn` answers `'404'`. */
  const Fallback: Entry := Entry(NewLayer("*", Some(Responder(Send("404"))), ""), None)

  /** The layer that `handle` calls: the first from index 1 on whose path
      matches `url`, or the fallback at index 0. */
  function Selected(stack: seq<EntryV>, url: string): nat {
    match FirstWhere(stack, (e: EntryV) => Match(e.layer, url), 1)
    case Some(k) => k
    case None => 0
  }

  /** What calling `handle_request` on entry `e` sends. */
  function Invoke(e: EntryV, verb: string): Option<string> {
    match HandleRequest<CalleeV>(e.layer)
    case None => None
    case Some(ResponderV(r)) => BodyOf(Some(r))
    case Some(DispatchToV(rt)) => Dispatch(rt, verb)
  }

  /** What `handle(req, res)` sends. */
  function Handle(stack: seq<EntryV>, url: string, verb: string): Option<string>
    requires |stack| >= 1
  {
    Invoke(stack[Selected(stack, url)], verb)
  }

  /** The selected layer is the first matching one after the fallback; the
      fallback is chosen exactly when none matches. */
  lemma SelectedIsFirstMatch(stack: seq<EntryV>, url: string)
    requires |stack| >= 1
    ensures var k := Selected(stack, url);
      && k < |stack|
      && (k >= 1 ==> Match(stack[k].layer, url))
      && (forall j :: 1 <= j < k ==> !Match(stack[j].layer, url))
      && (k == 0 <==> forall j :: 1 <= j < |stack| ==> !Match(stack[j].layer, url))
  {
  }

  /** Neither the route nor the method takes part in the choice: a request
      whose url matches a route layer is given to that route's dispatch even
      when the route has no layer for the method, and then nothing is sent. */
  lemma MethodIgnoredInChoice(stack: seq<EntryV>, url: string, verb: string)
    requires |stack| >= 1
    requires var k := Selected(stack, url);
      stack[k].layer.handle.Some? && stack[k].layer.handle.value.DispatchToV? &&
      Consistent(stack[k].layer.handle.value.route) &&
      !HandlesMethod(stack[k].layer.handle.value.route, verb)
    ensures Handle(stack, url, verb) == None
  {
    HandlesMethodIffTagged(stack[Selected(stack, url)].layer.handle.value.route, verb);
  }

  function RoutesOf(e: Entry): set<Route> {
    (if e.route.Some? then {e.route.value} else {}) +
    (if e.layer.handle.Some? && e.layer.handle.value.DispatchTo? then {e.layer.handle.value.route} else {})
  }

  function EntryModel(e: Entry): (v: EntryV)
    reads RoutesOf(e)
    ensures v.layer.path == e.layer.path && v.layer.name == e.layer.name
  {
    var h := match e.layer.handle
      case None => None
      case Some(Responder(r)) => Some(ResponderV(r))
      case Some(DispatchTo(rt)) => Some(DispatchToV(rt.Model()));
    EntryV(Layer(h, e.layer.name, e.layer.path),
           if e.route.Some? then Some(e.route.value.Model()) else None)
  }

  class Router {
    var stack: seq<Entry>

    function Routes(): set<Route>
      reads this
    {
      set i, r | 0 <= i < |stack| && r in RoutesOf(stack[i]) :: r
    }

    ghost predicate Valid()
      reads this
    {
      |stack| >= 1 && stack[0] == Fallback
    }

    function Model(): (m: seq<EntryV>)
      reads this, Routes()
      ensures |m| == |stack|
    {
      seq(|stack|, i requires 0 <= i < |stack| reads this, Routes() => EntryModel(stack[i]))
    }

    constructor ()
      ensures Valid() && stack == [Fallback]
    {
      stack := [Fallback];
    }

    /** `route(path)`: a new Route, and a layer at `path` whose handler
        dispatches to it and whose `route` is it; returns the Route. */
    method NewRoute(path: string) returns (route: Route)
      requires Valid()
      modifies this
      ensures Valid() && fresh(route) && route.Valid()
      ensures route.Model() == RouteV(path, [], {})
      ensures stack == old(stack) + [Entry(NewLayer(path, Some(DispatchTo(route)), ""), Some(route))]
      ensures Model() == old(Model()) + [EntryModel(stack[|stack| - 1])]
    {
      route := new Route(path);
      stack := stack + [Entry(NewLayer(path, Some(DispatchTo(route)), ""), Some(route))];
      assert forall i :: 0 <= i < |old(stack)| ==> stack[i] == old(stack)[i];
    }

    /** `get(path, fn)`: a plain layer with no route; returns nothing. */
    method Get(path: string, fn: Option<Reply>, fnName: string)
      requires Valid()
      modifies this
      ensures Valid()
      ensures stack == old(stack) + [Entry(NewLayer(path, if fn.Some? then Some(Responder(fn.value)) else None, fnName), None)]
      ensures Model() == old(Model()) + [EntryModel(stack[|stack| - 1])]
    {
      var h := if fn.Some? then Some(Responder(fn.value)) else None;
      stack := stack + [Entry(NewLayer(path, h, fnName), None)];
      assert forall i :: 0 <= i < |old(stack)| ==> stack[i] == old(stack)[i];
    }

    /** `handle(req, res)`: returns the index of the layer it calls and the
        body sent. */
    method HandleNow(req: Request) returns (k: nat, sent: Option<string>)
      requires Valid()
      ensures k == Selected(Model(), req.url)
      ensures sent == Handle(Model(), req.url, req.httpMethod)
    {
      var url := req.url;
      ghost var m := Model();
      ghost var p := (e: EntryV) => Match(e.layer, url);
      k := 0;
      var i := 1;
      while i < |stack|
        invariant 1 <= i <= |stack|
        invariant forall j :: 1 <= j < i ==> !p(m[j])
      {
        assert m[i] == EntryModel(stack[i]);
        if Match(stack[i].layer, url) {
          k := i;
          break;
        }
        i := i + 1;
      }
      assert m[k] == EntryModel(stack[k]);
      assert k == Selected(m, url);
      sent := InvokeEntry(stack[k], req);
      assert Model() == m;
    }
  }

  /** `handle_request(req, res)` on a stack entry: call the handler if it is
      truthy; a route's closure dispatches. */
  method InvokeEntry(e: Entry, req: Request) returns (sent: Option<string>)
    ensures sent == Invoke(EntryModel(e), req.httpMethod)
  {
    match e.layer.handle
    case None => sent := None;
    case Some(Responder(r)) => sent := BodyOf(Some(r));
    case Some(DispatchTo(rt)) => sent := rt.DispatchNow(req);
  }
}
