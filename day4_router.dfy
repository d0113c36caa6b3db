/** The mature Router: a stack of Layers registered by `route`, `use` and the
    verb shortcuts, and a `handle` whose `next(err)` closure walks the stack
    once, strips a middleware layer's path from `req.url` (moving it to
    `req.baseUrl`) before calling it, restores both on the following `next`,
    descends into mounted sub-routers, and turns the `'route'` and `'router'`
    sentinels into their effect. Its Layer is the Layer of Day5Layer and its
    Route the Route of Project4Route (its own `layer.js` and `route.js` are
    not part of this model). */
module Day4Router {
  import opened Http
  import opened Project3Layer
  import opened Project4Route
  import Day5Layer
  import Day2Layer

  // ---------------------------------------------------------------------
  // Values: requests, routers and layers as data

  /** The fields of `req` that `handle` reads and writes. */
  datatype Req = Req(url: string, baseUrl: string, orginalUrl: string)

  /** A middleware handler: a plain function or a mounted sub-router. */
  datatype HandlerV = FnV(fn: Fn) | MountedV(sub: RouterV)

  /** A layer is a middleware (`layer.route === undefined`) or a route layer,
      whose handler is the route's bound `dispatch`. */
  datatype Kind = Middleware(h: HandlerV) | RouteLayer(route: RouteV)

  datatype LayerV = LayerV(name: string, path: Option<string>, fastStar: bool, kind: Kind)

  datatype RouterV = RouterV(stack: seq<LayerV>)

  /** How a `handle` call ends: `done(v)` was called, a handler sent a body,
      or a route layer that does not handle the method was matched and
      neither `next` nor `done` was called. */
  datatype Outcome = Done(v: Value) | Responded(body: string) | Stalled

  /** The outcome together with the request's fields at that moment. */
  datatype Result = Result(outcome: Outcome, req: Req)

  // ---------------------------------------------------------------------
  // Strings

  /** `require('url').parse(url).pathname` for a path-form url: everything
      before the query or the fragment. */
  function Pathname(url: string): (p: string)
    ensures p <= url
    ensures '?' !in p && '#' !in p
    ensures |p| < |url| ==> url[|p|] == '?' || url[|p|] == '#'
  {
    if url == [] then []
    else if url[0] == '?' || url[0] == '#' then []
    else [url[0]] + Pathname(url[1..])
  }

  /** `s.substr(n)` for `n >= 0`. */
  function Substr(s: string, n: nat): (r: string)
    ensures n <= |s| ==> r == s[n..]
    ensures n > |s| ==> r == []
  {
    if n <= |s| then s[n..] else []
  }

  // ---------------------------------------------------------------------
  // One layer

  predicate LayerMatches(l: LayerV, candidate: string) {
    Day5Layer.Matches(l.path, l.fastStar, l.kind.RouteLayer?, candidate)
  }

  /** `layer.path` after `match` succeeded on a middleware layer: the part of
      the url that is removed. */
  function RemovedPrefix(l: LayerV): (p: string)
    ensures l.fastStar ==> p == ""
    ensures !l.fastStar && l.path == Some("/") ==> p == ""
    ensures !l.fastStar && l.path.Some? && l.path.value != "/" ==> p == l.path.value
  {
    match Day5Layer.Rewritten(l.path, l.fastStar, false)
    case Some(p) => p
    case None => ""
  }

  /** The request a matched middleware layer is called with, and whether
      `'/'` was put in place of an empty url. */
  datatype Stripped = Stripped(req: Req, slashAdded: bool)

  function Strip(q: Req, parentUrl: string, removed: string): (s: Stripped)
    ensures s.req.baseUrl == parentUrl + removed && s.req.orginalUrl == q.orginalUrl
    ensures s.req.url != ""
    ensures s.slashAdded <==> Substr(q.url, |removed|) == ""
    ensures !s.slashAdded ==> s.req.url == Substr(q.url, |removed|)
  {
    var url := Substr(q.url, |removed|);
    if url == "" then Stripped(q.(url := "/", baseUrl := parentUrl + removed), true)
    else Stripped(q.(url := url, baseUrl := parentUrl + removed), false)
  }

  /** The restoration at the top of `next`. */
  function Restore(q: Req, parentUrl: string, removed: string, slashAdded: bool): (r: Req)
    ensures r.orginalUrl == q.orginalUrl
    ensures removed == "" && !slashAdded ==> r == q
    ensures removed != "" ==> r.baseUrl == parentUrl && r.url == removed + (if slashAdded then "" else q.url)
  {
    var q1 := if slashAdded then q.(url := "") else q;
    if |removed| != 0 then q1.(baseUrl := parentUrl, url := removed + q1.url) else q1
  }

  /** Strip-then-restore is the identity when the mount path was a prefix of
      the url and `req.baseUrl` was the parent's. */
  lemma StripRestore(q: Req, parentUrl: string, removed: string)
    requires removed <= q.url && q.baseUrl == parentUrl
    ensures var s := Strip(q, parentUrl, removed);
      Restore(s.req, parentUrl, removed, s.slashAdded) == q
  {
    var s := Strip(q, parentUrl, removed);
    var r := Restore(s.req, parentUrl, removed, s.slashAdded);
    assert q.url == removed + q.url[|removed|..];
    if removed != "" {
      assert r.url == q.url;
    }
  }

  /** A middleware layer that matched the pathname has its removed prefix at
      the start of the url. */
  lemma RemovedIsPrefix(l: LayerV, url: string)
    requires l.kind.Middleware? && LayerMatches(l, Pathname(url))
    ensures RemovedPrefix(l) <= url
  {
    var p := Pathname(url);
    if !l.fastStar && l.path.Some? && l.path.value != "/" {
      assert RemovedPrefix(l) == p[..|l.path.value|];
      assert p[..|l.path.value|] == url[..|l.path.value|];
    }
  }

  // ---------------------------------------------------------------------
  // The walk

  /** `handle(req, res, done)` on a router value. */
  function Handle(r: RouterV, q: Req, verb: string): Result
    decreases r, |r.stack| + 1, 0
  {
    var parentUrl := q.baseUrl;
    var q1 := q.(orginalUrl := if q.orginalUrl != "" then q.orginalUrl else q.url);
    Proceed(r, parentUrl, verb, 0, Undefined, q1)
  }

  /** `next(err)` once `idx` layers have been taken, with the request as it
      is after the restoration at the top of `next`. */
  function Proceed(r: RouterV, parentUrl: string, verb: string, idx: nat, err: Value, q: Req): Result
    decreases r, |r.stack| - idx, 2
  {
    var layerError := if err == RouteSentinel then Null else err;
    if layerError == RouterSentinel then Result(Done(Null), q)
    else if idx >= |r.stack| then Result(Done(layerError), q)
    else if !LayerMatches(r.stack[idx], Pathname(q.url)) then Proceed(r, parentUrl, verb, idx + 1, layerError, q)
    else Call(r, parentUrl, verb, idx, layerError, q)
  }

  /** Layer `idx` matched: a route layer is called only if its route handles
      the method, and then without the pending error; a middleware layer is
      called with the url stripped. */
  function Call(r: RouterV, parentUrl: string, verb: string, idx: nat, layerError: Value, q: Req): Result
    requires idx < |r.stack|
    decreases r, |r.stack| - idx, 1
  {
    match r.stack[idx].kind
    case RouteLayer(rt) =>
      if !HandlesMethod(rt, verb) then Result(Stalled, q)
      else (match Dispatch(rt, verb)
        case Replied(b) => Result(Responded(b), q)
        case Finished(v) => Proceed(r, parentUrl, verb, idx + 1, v, q))
    case Middleware(_) => CallMiddleware(r, parentUrl, verb, idx, layerError, q)
  }

  /** A matched middleware layer: `handle_error` when an error is pending,
      `handle_request` otherwise, on the stripped request; the `next` it
      calls restores the request first. */
  function CallMiddleware(r: RouterV, parentUrl: string, verb: string, idx: nat, layerError: Value, q: Req): Result
    requires idx < |r.stack| && r.stack[idx].kind.Middleware?
    decreases r, |r.stack| - idx, 0
  {
    var removed := RemovedPrefix(r.stack[idx]);
    var s := Strip(q, parentUrl, removed);
    match r.stack[idx].kind.h
    case FnV(f) =>
      (match (if Truthy(layerError) then HandleError(f, layerError) else HandleRequest(f))
        case Sent(b) => Result(Responded(b), s.req)
        case Next(v) => Proceed(r, parentUrl, verb, idx + 1, v, Restore(s.req, parentUrl, removed, s.slashAdded)))
    case MountedV(sub) =>
      if Truthy(layerError) then
        Proceed(r, parentUrl, verb, idx + 1, layerError, Restore(s.req, parentUrl, removed, s.slashAdded))
      else
        var res := Handle(sub, s.req, verb);
        (match res.outcome
          case Done(v) => Proceed(r, parentUrl, verb, idx + 1, v, Restore(res.req, parentUrl, removed, s.slashAdded))
          case _ => res)
  }

  // ---------------------------------------------------------------------
  // Objects

  /** A layer's handler: a plain function, a mounted router (the function
      `router(req, res, next)` of the `proto` factory), or the bound
      `dispatch` of the layer's route. */
  datatype Handler = Plain(fn: Fn) | Mounted(router: Router) | BoundDispatch(route: Route)

  /** The first argument of `use`: a function, or anything else, taken as
      the path. */
  datatype UseArg = FnArg(h: Handler) | PathArg(path: string)

  /** `fn.name` of a handler. */
  function HandlerName(h: Handler): string {
    match h
    case Plain(f) => f.name
    case Mounted(_) => "router"
    case BoundDispatch(_) => "bound "
  }

  /** `this.path` of a new layer. */
  function InitialPath(path: string): Option<string> {
    if path == "*" then None else Some(path)
  }

  function ReqOf(req: Request): Req
    reads req
  {
    Req(req.url, req.baseUrl, req.orginalUrl)
  }

  /** The start of `handle`: `req.baseUrl` is kept and `req.orginalUrl`
      is set once, to the url the request arrived with. */
  method StartNow(req: Request)
    modifies req
    ensures req.httpMethod == old(req.httpMethod)
    ensures ReqOf(req) == old(ReqOf(req)).(orginalUrl := if old(req.orginalUrl) != "" then old(req.orginalUrl) else old(req.url))
  {
    req.baseUrl := req.baseUrl;
    req.orginalUrl := if req.orginalUrl != "" then req.orginalUrl else req.url;
  }

  /** The restoration at the top of `next`, on the request object. */
  method RestoreNow(req: Request, parentUrl: string, removed: string, slashAdded: bool)
    modifies req
    ensures req.httpMethod == old(req.httpMethod)
    ensures ReqOf(req) == Restore(old(ReqOf(req)), parentUrl, removed, slashAdded)
  {
    if slashAdded {
      req.url := "";
    }
    if |removed| != 0 {
      req.baseUrl := parentUrl;
      req.url := removed + req.url;
    }
  }

  /** The layer `use(path, h)` appends, as a value. */
  ghost function UseLayer(path: string, h: Handler): (l: LayerV)
    requires !h.BoundDispatch? && (h.Mounted? ==> h.router.Valid())
    reads if h.Mounted? then {h.router} + h.router.Repr else {}
    ensures l.name == Day2Layer.DefaultName(HandlerName(h)) && l.path == InitialPath(path) && l.fastStar == (path == "*")
    ensures l.kind.Middleware?
    ensures h.Plain? ==> l.kind.h == FnV(h.fn)
    ensures h.Mounted? ==> l.kind.h == MountedV(h.router.Model())
  {
    LayerV(Day2Layer.DefaultName(HandlerName(h)), InitialPath(path), path == "*",
      if h.Mounted? then Middleware(MountedV(h.router.Model())) else Middleware(FnV(h.fn)))
  }

  class Router {
    var stack: seq<Day5Layer.Layer<Handler>>
    ghost var Repr: set<object>

    /** The layers, their routes and every mounted router's objects are in
        `Repr`; no router is mounted inside itself; a layer has a route
        exactly when its handler is that route's bound `dispatch`. */
    ghost predicate Valid()
      reads this, Repr
      decreases Repr
    {
      this in Repr &&
      forall i :: 0 <= i < |stack| ==>
        var l := stack[i];
        l in Repr &&
        (l.fastStar || l.path.Some?) &&
        (l.route.Some? <==> l.handle.BoundDispatch?) &&
        (l.route.Some? ==> l.route.value == l.handle.route && l.route.value in Repr) &&
        (l.handle.Mounted? ==>
           l.handle.router in Repr && l.handle.router.Repr <= Repr &&
           this !in l.handle.router.Repr && l.handle.router.Valid())
    }

    /** The router as a value. */
    ghost function Model(): RouterV
      requires Valid()
      reads this, Repr
      decreases Repr, 1
    {
      RouterV(seq(|stack|, i requires 0 <= i < |stack| && Valid() reads this, Repr => LayerModel(i)))
    }

    ghost function LayerModel(i: nat): LayerV
      requires Valid() && i < |stack|
      reads this, Repr
      decreases Repr, 0
    {
      var l := stack[i];
      LayerV(l.name, l.path, l.fastStar,
        match l.handle
        case Plain(f) => Middleware(FnV(f))
        case Mounted(sub) => Middleware(MountedV(sub.Model()))
        case BoundDispatch(rt) => RouteLayer(rt.Model()))
    }

    /** `proto()`: a router with an empty stack. */
    constructor ()
      ensures Valid() && fresh(Repr - {this})
      ensures Model() == RouterV([])
    {
      stack := [];
      Repr := {this};
    }

    /** Push one layer at `path` whose handler is the route's bound
        `dispatch` and whose `route` is the route. */
    method PushRoute(path: string, route: Route)
      requires Valid() && route !in Repr
      modifies this
      ensures Valid() && route in Repr
      ensures fresh(Repr - old(Repr) - {route})
      ensures Model() == RouterV(old(Model()).stack + [LayerV("bound ", InitialPath(path), path == "*", RouteLayer(route.Model()))])
    {
      ghost var before := Model();
      var layer := new Day5Layer.Layer<Handler>(path, BoundDispatch(route), "bound ");
      layer.route := Some(route);
      stack := stack + [layer];
      Repr := Repr + {layer, route};
      assert forall i :: 0 <= i < |old(stack)| ==> stack[i] == old(stack)[i];
      assert Valid();
      forall i | 0 <= i < |before.stack| ensures Model().stack[i] == before.stack[i] {
        assert stack[i] == old(stack)[i];
      }
      assert Model().stack[|before.stack|] == LayerModel(|before.stack|);
      assert Model().stack == before.stack + [LayerV("bound ", InitialPath(path), path == "*", RouteLayer(route.Model()))];
    }

    /** `route(path)`: a new Route and one layer linked to it; returns the
        Route. */
    method NewRoute(path: string) returns (route: Route)
      requires Valid()
      modifies this
      ensures Valid() && fresh(route) && route.Valid() && route in Repr
      ensures fresh(Repr - old(Repr))
      ensures route.Model() == RouteV(path, [], {})
      ensures Model() == RouterV(old(Model()).stack + [LayerV("bound ", InitialPath(path), path == "*", RouteLayer(RouteV(path, [], {})))])
    {
      route := new Route(path);
      PushRoute(path, route);
    }

    /** `use(fn)` or `use(path, fn)`: a first argument that is not a function
        is the path and the second the handler; one layer with
        `route === undefined` is appended and the router returned. With no
        handler, `new Layer` throws reading `fn.name` and nothing is added. */
    method Use(first: UseArg, second: Option<Handler>) returns (thrown: bool)
      requires Valid()
      requires first.FnArg? ==> !first.h.BoundDispatch?
      requires first.PathArg? && second.Some? ==> !second.value.BoundDispatch?
      requires first.FnArg? && first.h.Mounted? ==> first.h.router.Valid() && this !in first.h.router.Repr
      requires first.PathArg? && second.Some? && second.value.Mounted? ==>
        second.value.router.Valid() && this !in second.value.router.Repr
      modifies this
      ensures Valid()
      ensures fresh(Repr - old(Repr) -
        (if first.FnArg? && first.h.Mounted? then first.h.router.Repr
         else if first.PathArg? && second.Some? && second.value.Mounted? then second.value.router.Repr
         else {}))
      ensures thrown <==> first.PathArg? && second.None?
      ensures thrown ==> stack == old(stack) && Model() == old(Model())
      ensures !thrown ==>
        var path := if first.FnArg? then "/" else first.path;
        var h := if first.FnArg? then first.h else second.value;
        (h.Mounted? ==> h.router.Valid()) &&
        Model() == RouterV(old(Model()).stack + [UseLayer(path, h)])
    {
      var path := "/";
      var fn: Option<Handler>;
      match first {
        case FnArg(h) =>
          fn := Some(h);
        case PathArg(p) =>
          path := p;
          fn := second;
      }
      if fn.None? {
        return true;
      }
      PushLayer(path, fn.value);
      return false;
    }

    /** Push one layer at `path` whose handler is `h` and whose `route` is
        undefined. */
    method PushLayer(path: string, h: Handler)
      requires Valid() && !h.BoundDispatch?
      requires h.Mounted? ==> h.router.Valid() && this !in h.router.Repr
      modifies this
      ensures Valid()
      ensures fresh(Repr - old(Repr) - (if h.Mounted? then h.router.Repr else {}))
      ensures h.Mounted? ==> h.router.Valid()
      ensures Model() == RouterV(old(Model()).stack + [UseLayer(path, h)])
    {
      ghost var before := Model();
      var layer := new Day5Layer.Layer<Handler>(path, h, HandlerName(h));
      layer.route := None;
      stack := stack + [layer];
      Repr := Repr + {layer} + (if h.Mounted? then h.router.Repr else {});
      assert forall i :: 0 <= i < |old(stack)| ==> stack[i] == old(stack)[i];
      assert Valid();
      forall i | 0 <= i < |before.stack| ensures Model().stack[i] == before.stack[i] {
        assert stack[i] == old(stack)[i];
      }
      assert Model().stack[|before.stack|] == LayerModel(|before.stack|);
      assert Model().stack == before.stack + [UseLayer(path, h)];
    }

    /** `router[verb](path, fn)`: `this.route(path)[verb](fn)`, so a new
        layer and Route every time; returns the router. The handler is
        registered on the new Route before its layer is pushed, which leaves
        the same state. */
    method Register(verb: string, path: string, fn: Fn)
      requires Valid() && verb in Methods
      modifies this
      ensures Valid() && fresh(Repr - old(Repr))
      ensures Model() == RouterV(old(Model()).stack +
        [LayerV("bound ", InitialPath(path), path == "*",
                RouteLayer(RouteV(path, [MethodLayer(NewLayer("/", fn, fn.name), verb)], {verb})))])
    {
      var route := new Route(path);
      route.Register(verb, fn);
      assert route.Model() == RouteV(path, [MethodLayer(NewLayer("/", fn, fn.name), verb)], {verb});
      PushRoute(path, route);
    }

    /** `handle(req, res, done)`: the `next` closure as a loop over `idx`,
        `removed`, `slashAdded` and `err`; returns how `handle` ends, the
        request's fields being what they are at that moment. */
    method HandleNow(req: Request) returns (o: Outcome)
      requires Valid() && req !in Repr
      modifies req
      ensures req.httpMethod == old(req.httpMethod)
      ensures Result(o, ReqOf(req)) == Handle(Model(), old(ReqOf(req)), req.httpMethod)
      decreases Repr, 4
    {
      ghost var m := Model();
      ghost var q0 := ReqOf(req);
      var verb := req.httpMethod;
      var parentUrl := req.baseUrl;
      StartNow(req);
      var idx: nat := 0;
      var removed := "";
      var slashAdded := false;
      var err := Undefined;
      while true
        invariant idx <= |stack| && req.httpMethod == verb
        invariant Model() == m
        invariant Proceed(m, parentUrl, verb, idx, err, Restore(ReqOf(req), parentUrl, removed, slashAdded)) == Handle(m, q0, verb)
        decreases |stack| - idx
      {
        var stop;
        stop, o, err, removed, slashAdded := NextNow(req, parentUrl, verb, idx, err, removed, slashAdded);
        if stop {
          return;
        }
        idx := idx + 1;
      }
    }

    /** One call of `next(err)` after `idx` layers: the request is restored,
        and either `handle` ends (`stop`) with `o`, or layer `idx` was
        passed over or called `next(err1)`, with the closure's state then
        `removed1` and `slashAdded1`. */
    method NextNow(req: Request, parentUrl: string, verb: string, idx: nat, err: Value, removed: string, slashAdded: bool)
      returns (stop: bool, o: Outcome, err1: Value, removed1: string, slashAdded1: bool)
      requires Valid() && req !in Repr && idx <= |stack| && verb == req.httpMethod
      modifies req
      ensures req.httpMethod == old(req.httpMethod)
      ensures var here := Proceed(Model(), parentUrl, verb, idx, err, Restore(old(ReqOf(req)), parentUrl, removed, slashAdded));
        if stop then Result(o, ReqOf(req)) == here
        else idx < |stack| && Proceed(Model(), parentUrl, verb, idx + 1, err1, Restore(ReqOf(req), parentUrl, removed1, slashAdded1)) == here
      decreases Repr, 3
    {
      ghost var m := Model();
      var layerError := if err == RouteSentinel then Null else err;
      ghost var restored := Restore(ReqOf(req), parentUrl, removed, slashAdded);
      RestoreNow(req, parentUrl, removed, slashAdded);
      if layerError == RouterSentinel {
        return true, Done(Null), err, "", false;
      }
      if idx >= |stack| {
        return true, Done(layerError), err, "", false;
      }
      var layer := stack[idx];
      var matched := Day5Layer.Matches(layer.path, layer.fastStar, layer.route.Some?, Pathname(req.url));
      MatchesAt(idx, Pathname(req.url));
      if !matched {
        assert Proceed(m, parentUrl, verb, idx, err, restored) == Proceed(m, parentUrl, verb, idx + 1, layerError, restored);
        return false, Done(Undefined), layerError, "", false;
      }
      assert Proceed(m, parentUrl, verb, idx, err, restored) == Call(m, parentUrl, verb, idx, layerError, restored);
      stop, o, err1, removed1, slashAdded1 := CallNow(req, parentUrl, verb, idx, layerError);
    }

    lemma MatchesAt(idx: nat, candidate: string)
      requires Valid() && idx < |stack|
      ensures LayerMatches(Model().stack[idx], candidate) ==
              Day5Layer.Matches(stack[idx].path, stack[idx].fastStar, stack[idx].route.Some?, candidate)
    {
      assert Model().stack[idx] == LayerModel(idx);
    }

    /** The call of a matched layer `idx`: either `handle` ends (`stop`) with
        `o`, or the layer's handler called `next(err)`, `removed` and
        `slashAdded` being the closure's state at that moment. */
    method CallNow(req: Request, parentUrl: string, verb: string, idx: nat, layerError: Value)
      returns (stop: bool, o: Outcome, err: Value, removed: string, slashAdded: bool)
      requires Valid() && req !in Repr && idx < |stack| && verb == req.httpMethod
      modifies req
      ensures req.httpMethod == old(req.httpMethod)
      ensures var res := Call(Model(), parentUrl, verb, idx, layerError, old(ReqOf(req)));
        if stop then res == Result(o, ReqOf(req))
        else res == Proceed(Model(), parentUrl, verb, idx + 1, err, Restore(ReqOf(req), parentUrl, removed, slashAdded))
      decreases Repr, 2
    {
      var layer := stack[idx];
      assert Model().stack[idx] == LayerModel(idx);
      if layer.route.Some? {
        assert layer.handle == BoundDispatch(layer.route.value);
        assert Model().stack[idx].kind == RouteLayer(layer.route.value.Model());
        removed, slashAdded := "", false;
        if !layer.route.value.HandlesMethodNow(verb) {
          return true, Stalled, layerError, removed, slashAdded;
        }
        var ro := layer.route.value.DispatchNow(req);
        match ro
        case Replied(b) =>
          return true, Responded(b), layerError, removed, slashAdded;
        case Finished(v) =>
          return false, Stalled, v, removed, slashAdded;
      }
      stop, o, err, removed, slashAdded := CallMiddlewareNow(req, parentUrl, verb, idx, layerError);
    }

    /** The call of a matched middleware layer `idx` on the stripped
        request. */
    method CallMiddlewareNow(req: Request, parentUrl: string, verb: string, idx: nat, layerError: Value)
      returns (stop: bool, o: Outcome, err: Value, removed: string, slashAdded: bool)
      requires Valid() && req !in Repr && idx < |stack| && stack[idx].route.None? && verb == req.httpMethod
      modifies req
      ensures req.httpMethod == old(req.httpMethod)
      ensures Model().stack[idx].kind.Middleware?
      ensures var res := CallMiddleware(Model(), parentUrl, verb, idx, layerError, old(ReqOf(req)));
        if stop then res == Result(o, ReqOf(req))
        else res == Proceed(Model(), parentUrl, verb, idx + 1, err, Restore(ReqOf(req), parentUrl, removed, slashAdded))
      decreases Repr, 1
    {
      var layer := stack[idx];
      ghost var m := Model();
      ghost var l := LayerModel(idx);
      assert m.stack[idx] == l;
      ghost var q := ReqOf(req);
      var rewritten := Day5Layer.Rewritten(layer.path, layer.fastStar, false);
      removed := if rewritten.Some? then rewritten.value else "";
      assert removed == RemovedPrefix(l);
      slashAdded := StripNow(req, parentUrl, removed);
      stop, o, err := false, Stalled, layerError;
      match layer.handle {
        case Plain(f) =>
          var s := if Truthy(layerError) then HandleError(f, layerError) else HandleRequest(f);
          match s {
            case Sent(b) =>
              stop, o := true, Responded(b);
            case Next(v) =>
              err := v;
          }
        case Mounted(sub) =>
          if !Truthy(layerError) {
            // `handle_error` would pass the error on: the router function
            // takes three parameters
            var so := MountNow(req, idx, sub);
            match so {
              case Done(v) =>
                err := v;
              case Responded(b) =>
                stop, o := true, Responded(b);
              case Stalled =>
                stop, o := true, Stalled;
            }
          }
        case BoundDispatch(_) =>
          assert false;
      }
    }

    /** `router(req, res, next)` of the mounted router `sub` at layer
        `idx`: its own `handle`, which leaves this router as it is. */
    method MountNow(req: Request, idx: nat, sub: Router) returns (so: Outcome)
      requires Valid() && req !in Repr && idx < |stack| && stack[idx].handle == Mounted(sub)
      modifies req
      ensures req.httpMethod == old(req.httpMethod)
      ensures sub.Valid() && Model() == old(Model())
      ensures Model().stack[idx].kind == Middleware(MountedV(sub.Model()))
      ensures Result(so, ReqOf(req)) == Handle(sub.Model(), old(ReqOf(req)), req.httpMethod)
      decreases Repr, 0
    {
      assert Model().stack[idx] == LayerModel(idx);
      so := sub.HandleNow(req);
    }
  }

  /** The stripping of a matched middleware layer's path from `req.url`,
      with `'/'` put in place of an empty url, and `req.baseUrl` extended. */
  method StripNow(req: Request, parentUrl: string, removed: string) returns (slashAdded: bool)
    modifies req
    ensures req.httpMethod == old(req.httpMethod)
    ensures Stripped(ReqOf(req), slashAdded) == Strip(old(ReqOf(req)), parentUrl, removed)
  {
    slashAdded := false;
    req.url := Substr(req.url, |removed|);
    if req.url == "" {
      req.url := "/";
      slashAdded := true;
    }
    req.baseUrl := parentUrl + removed;
  }
}
