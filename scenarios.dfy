/** The repository's two mounting examples, as routers: `get(path, fn)`
    pushes a route layer, `use` a middleware layer, and an application's
    router starts with its init layer. */
module Scenarios {
  import opened Http
  import opened Project3Layer
  import opened Project4Route
  import opened Day4Router
  import opened Day4Laws
  import Day6Application

  function RouteLayerOf(path: string, verb: string, f: Fn): LayerV {
    LayerV("bound ", Some(path), false, RouteLayer(RouteV(path, [MethodLayer(NewLayer("/", f, f.name), verb)], {verb})))
  }

  function MiddlewareOf(path: string, h: HandlerV): LayerV {
    LayerV("<anonymous>", Some(path), false, Middleware(h))
  }

  /** The layer `use(path, router)` pushes: the `router(req, res, next)`
      function is named `'router'`. */
  function MountOf(path: string, sub: RouterV): LayerV {
    LayerV("router", Some(path), false, Middleware(MountedV(sub)))
  }

  function Sender(body: string): Fn {
    Fn("", false, Respond(body))
  }

  const Logger := Fn("", false, CallNext(Undefined))

  /** A url with neither query nor fragment is its own pathname. */
  lemma PlainPathname(url: string)
    requires '?' !in url && '#' !in url
    ensures Pathname(url) == url
  {
  }

  /** `handle` starts `next` at the first layer, `orginalUrl` set. */
  lemma HandleStarts(r: RouterV, q: Req, verb: string)
    ensures Handle(r, q, verb) ==
      Proceed(r, q.baseUrl, verb, 0, Undefined, q.(orginalUrl := if q.orginalUrl != "" then q.orginalUrl else q.url))
  {
  }

  /** A middleware at `'/'` that calls `next()` passes the request on. */
  lemma PassesOn(r: RouterV, parentUrl: string, verb: string, idx: nat, q: Req, f: Fn)
    requires idx < |r.stack| && r.stack[idx].kind == Middleware(FnV(f)) && f.action == CallNext(Undefined)
    requires r.stack[idx].path == Some("/") && !r.stack[idx].fastStar
    requires q.baseUrl == parentUrl
    ensures Proceed(r, parentUrl, verb, idx, Undefined, q) == Proceed(r, parentUrl, verb, idx + 1, Undefined, q)
  {
    assert LayerMatches(r.stack[idx], Pathname(q.url));
    ContinueAfter(r, parentUrl, verb, idx, Undefined, q, f, Undefined);
  }

  /** A first layer at `'/'` that calls `next()` hands a request that
      arrives at an application on to the second layer. */
  lemma PastFirst(r: RouterV, url: string, f: Fn)
    requires |r.stack| > 0 && r.stack[0].kind == Middleware(FnV(f)) && f.action == CallNext(Undefined) && url != ""
    requires r.stack[0].path == Some("/") && !r.stack[0].fastStar
    ensures Handle(r, Req(url, "", ""), "GET") == Proceed(r, "", "GET", 1, Undefined, Req(url, "", url))
  {
    HandleStarts(r, Req(url, "", ""), "GET");
    PassesOn(r, "", "GET", 0, Req(url, "", url), f);
  }

  /** A layer that does not match the pathname is passed over. */
  lemma SkipLayer(r: RouterV, url: string, idx: nat)
    requires idx < |r.stack| && !LayerMatches(r.stack[idx], Pathname(url))
    ensures Proceed(r, "", "GET", idx, Undefined, Req(url, "", url)) == Proceed(r, "", "GET", idx + 1, Undefined, Req(url, "", url))
  {
    SkipUnmatched(r, "", "GET", idx, idx + 1, Undefined, Req(url, "", url));
  }

  /** `GET` is the method `get` registers. */
  lemma GetIsGet()
    ensures Lower("GET") == "get"
  {
    assert Lower("GET")[0] == 'g' && Lower("GET")[1] == 'e' && Lower("GET")[2] == 't';
  }

  /** The route made by `get(path, fn)`, with an `fn` that sends `body`,
      answers `GET` with `body`. */
  lemma SenderRouteReplies(path: string, body: string)
    ensures var rt := RouteLayerOf(path, "get", Sender(body)).kind.route;
      HandlesMethod(rt, "GET") && Dispatch(rt, "GET") == Replied(body)
  {
    var rt := RouteLayerOf(path, "get", Sender(body)).kind.route;
    GetIsGet();
    assert NextFrom(rt.stack, "get", 0, Undefined) == After(rt.stack, "get", 0, Visit(rt.stack[0], Undefined));
  }

  /** Such a route layer answers a matching `GET` with `body`, whatever
      error is pending. */
  lemma RouteAnswers(r: RouterV, parentUrl: string, idx: nat, err: Value, q: Req, path: string, body: string)
    requires idx < |r.stack| && r.stack[idx] == RouteLayerOf(path, "get", Sender(body))
    requires LayerMatches(r.stack[idx], Pathname(q.url)) && err != RouterSentinel
    ensures Proceed(r, parentUrl, "GET", idx, err, q) == Result(Responded(body), q)
  {
    SenderRouteReplies(path, body);
    RouteLayerDropsError(r, parentUrl, "GET", idx, err, q);
    assert Proceed(r, parentUrl, "GET", idx, Undefined, q) == Call(r, parentUrl, "GET", idx, Undefined, q);
  }

  /** A mount at `path` entered from the top of an application with a url
      that starts with `path`; `'/'` stands in for an empty rest. */
  lemma EnterMount(r: RouterV, idx: nat, sub: RouterV, path: string, url: string)
    requires idx < |r.stack| && r.stack[idx] == MountOf(path, sub)
    requires path != "" && path != "/" && |path| <= |url| && url[..|path|] == path && '?' !in url && '#' !in url
    ensures var res := Handle(sub, Req(if |path| == |url| then "/" else url[|path|..], path, url), "GET");
      !res.outcome.Done? ==> Proceed(r, "", "GET", idx, Undefined, Req(url, "", url)) == res
  {
    PlainPathname(url);
    assert RemovedPrefix(r.stack[idx]) == path;
    assert LayerMatches(r.stack[idx], url);
    assert "" + path == path;
    assert Strip(Req(url, "", url), "", path).req == Req(if |path| == |url| then "/" else url[|path|..], path, url);
    MountEntered(r, "", "GET", idx, Undefined, Req(url, "", url));
  }

  /** The books application: `/` and `/books` as routes, and a router with
      `use('/1', ...)` and `use('/2', ...)` mounted at `/users`. */
  const Users := RouterV([MiddlewareOf("/1", FnV(Sender("first user"))), MiddlewareOf("/2", FnV(Sender("second user")))])
  const BooksApp := RouterV([Day6Application.InitLayer, RouteLayerOf("/", "get", Sender("home")), RouteLayerOf("/books", "get", Sender("books")),
                             MountOf("/users", Users)])

  lemma RoutesMissUsers()
    ensures !LayerMatches(BooksApp.stack[1], Pathname("/users/2"))
    ensures !LayerMatches(BooksApp.stack[2], Pathname("/users/2"))
  {
    var u := "/users/2";
    PlainPathname(u);
    assert u[|u| - 1..] == "2";
    assert u[|u| - 6..] == "sers/2";
  }

  lemma BooksAppReachesMount()
    ensures Handle(BooksApp, Req("/users/2", "", ""), "GET") ==
            Proceed(BooksApp, "", "GET", 3, Undefined, Req("/users/2", "", "/users/2"))
  {
    var url := "/users/2";
    RoutesMissUsers();
    PastFirst(BooksApp, url, Day6Application.InitFn);
    SkipLayer(BooksApp, url, 1);
    SkipLayer(BooksApp, url, 2);
  }

  lemma BooksAppEntersMount()
    ensures var res := Handle(Users, Req("/2", "/users", "/users/2"), "GET");
      !res.outcome.Done? ==> Proceed(BooksApp, "", "GET", 3, Undefined, Req("/users/2", "", "/users/2")) == res
  {
    var url := "/users/2";
    assert url[..6] == "/users" && url[6..] == "/2";
    EnterMount(BooksApp, 3, Users, "/users", url);
  }

  lemma UsersServesSecond()
    ensures Handle(Users, Req("/2", "/users", "/users/2"), "GET").outcome == Responded("second user")
  {
    var q := Req("/2", "/users", "/users/2");
    PlainPathname(q.url);
    assert Handle(Users, q, "GET") == Proceed(Users, "/users", "GET", 0, Undefined, q);
    assert !LayerMatches(Users.stack[0], q.url);
    assert Proceed(Users, "/users", "GET", 0, Undefined, q) == Proceed(Users, "/users", "GET", 1, Undefined, q);
    MiddlewareRuns(Users, "/users", "GET", 1, Undefined, q, Sender("second user"));
  }

  /** `GET /users/2` reaches the second handler of the mounted router. */
  lemma BooksAppServesMount()
    ensures Handle(BooksApp, Req("/users/2", "", ""), "GET").outcome == Responded("second user")
  {
    BooksAppReachesMount();
    BooksAppEntersMount();
    UsersServesSecond();
  }

  /** A route layer tests its path as a suffix, so `GET /a/books` is
      answered by the `/books` route. */
  lemma BooksAppMatchesSuffix()
    ensures Handle(BooksApp, Req("/a/books", "", ""), "GET") == Result(Responded("books"), Req("/a/books", "", "/a/books"))
  {
    var url := "/a/books";
    var q := Req(url, "", url);
    PlainPathname(url);
    assert url[|url| - 1..] == "s";
    assert url[|url| - 6..] == "/books";
    PastFirst(BooksApp, url, Day6Application.InitFn);
    SkipLayer(BooksApp, url, 1);
    RouteAnswers(BooksApp, "", 2, Undefined, q, "/books", "books");
  }

  /** The second example: a logging middleware, a route at `/`, and, at
      `/user`, a router whose own logger runs before `use('/', ...)` sends
      `second`. */
  const UserRouter := RouterV([MiddlewareOf("/", FnV(Logger)), MiddlewareOf("/", FnV(Sender("second")))])
  const LoggingApp := RouterV([MiddlewareOf("/", FnV(Logger)), RouteLayerOf("/", "get", Sender("first")),
                               MountOf("/user", UserRouter)])

  /** Inside the mount, the emptied url is `'/'`, and both middleware layers
      at `'/'` match it. */
  lemma UserRouterServes()
    ensures Handle(UserRouter, Req("/", "/user", "/user"), "GET").outcome == Responded("second")
  {
    var q := Req("/", "/user", "/user");
    HandleStarts(UserRouter, q, "GET");
    PassesOn(UserRouter, "/user", "GET", 0, q, Logger);
    PlainPathname(q.url);
    MiddlewareRuns(UserRouter, "/user", "GET", 1, Undefined, q, Sender("second"));
  }

  /** `GET /user` passes the route at `/` and is answered inside the mount. */
  lemma LoggingAppServesMount()
    ensures Handle(LoggingApp, Req("/user", "", ""), "GET").outcome == Responded("second")
  {
    var url := "/user";
    var q := Req(url, "", url);
    PlainPathname(url);
    assert url[|url| - 1..] == "r";
    PastFirst(LoggingApp, url, Logger);
    assert Proceed(LoggingApp, "", "GET", 1, Undefined, q) == Proceed(LoggingApp, "", "GET", 2, Undefined, q);
    assert url[..5] == "/user";
    EnterMount(LoggingApp, 2, UserRouter, "/user", url);
    UserRouterServes();
  }

  /** `GET /user/` ends in `'/'`, so the route at `/` answers it before the
      mount is reached. */
  lemma LoggingAppRootBySuffix()
    ensures Handle(LoggingApp, Req("/user/", "", ""), "GET").outcome == Responded("first")
  {
    var url := "/user/";
    var q := Req(url, "", url);
    PlainPathname(url);
    assert url[|url| - 1..] == "/";
    PastFirst(LoggingApp, url, Logger);
    RouteAnswers(LoggingApp, "", 1, Undefined, q, "/", "first");
  }

  /** An answered request gives the client the handler's body. */
  lemma AnswerBody(r: RouterV, q: Req, verb: string, body: string)
    requires Handle(r, q, verb).outcome == Responded(body)
    ensures Day6Application.Answer(Some(r), q, verb) == Day6Application.Body(body)
  {
  }

  /** A request no layer ends gives the final handler's message for the
      url the result carries. */
  lemma AnswerDone(r: RouterV, q: Req, verb: string, v: Value, q1: Req)
    requires Handle(r, q, verb) == Result(Done(v), q1)
    ensures Day6Application.Answer(Some(r), q, verb) == Day6Application.NotFound(Day6Application.FinalMessage(v, verb, q1.url))
  {
  }

  /** What the client of the books application receives: the mounted
      router's body for `/users/2`, and for a url nothing matches the final
      handler's `Cannot GET /nothing`. */
  lemma BooksAppBody()
    ensures Day6Application.Answer(Some(BooksApp), Req("/users/2", "", ""), "GET") == Day6Application.Body("second user")
  {
    BooksAppServesMount();
    AnswerBody(BooksApp, Req("/users/2", "", ""), "GET", "second user");
  }

  lemma BooksAppNotFound()
    ensures Day6Application.Answer(Some(BooksApp), Req("/nothing", "", ""), "GET") == Day6Application.NotFound(Day6Application.FinalMessage(Undefined, "GET", "/nothing"))
  {
    BooksAppMissesAll();
    AnswerDone(BooksApp, Req("/nothing", "", ""), "GET", Undefined, Req("/nothing", "", "/nothing"));
  }

  /** No layer after the init layer matches `/nothing`. */
  lemma NothingMatches()
    ensures !LayerMatches(BooksApp.stack[1], Pathname("/nothing"))
    ensures !LayerMatches(BooksApp.stack[2], Pathname("/nothing"))
    ensures !LayerMatches(BooksApp.stack[3], Pathname("/nothing"))
  {
    var url := "/nothing";
    PlainPathname(url);
    assert url[|url| - 1..] == "g";
    assert url[|url| - 6..] == "othing";
    assert url[..6] == "/nothi";
  }

  lemma BooksAppMissesAll()
    ensures Handle(BooksApp, Req("/nothing", "", ""), "GET") == Result(Done(Undefined), Req("/nothing", "", "/nothing"))
  {
    var url := "/nothing";
    NothingMatches();
    PastFirst(BooksApp, url, Day6Application.InitFn);
    SkipLayer(BooksApp, url, 1);
    SkipLayer(BooksApp, url, 2);
    SkipLayer(BooksApp, url, 3);
  }
  // ---------------------------------------------------------------------
  // The registrations

  /** The books application built as its test builds it: an application
      and a router, `app.get('/')`, `app.get('/books')`, `router.use('/1')`,
      `router.use('/2')`, then `app.use('/users', router)`. */
  method BuildBooksApp() returns (app: Day6Application.Application)
    ensures app.Valid() && app.RouterModel() == Some(BooksApp)
  {
    app := new Day6Application.Application();
    var router := new Router();
    BooksRoutes(app);
    UsersRoutes(router);
    var thrown := app.Use(PathArg("/users"), Some(Mounted(router)));
    assert UseLayer("/users", Mounted(router)) == MountOf("/users", Users);
    assert BooksApp.stack[..3] + [MountOf("/users", Users)] == BooksApp.stack;
  }

  /** The built books application answers `GET /users/2` with
      `second user`. */
  method ServeSecondUser() returns (resp: Day6Application.Response)
    ensures resp == Day6Application.Body("second user")
  {
    var app := BuildBooksApp();
    var req := new Request("GET", "/users/2");
    resp := app.HandleNow(req);
    BooksAppBody();
  }

  /** `app.get('/', ...)` and `app.get('/books', ...)` on a new application. */
  method BooksRoutes(app: Day6Application.Application)
    requires app.Valid() && app.router == null
    modifies app, app.Repr
    ensures app.Valid() && fresh(app.Repr - old(app.Repr)) && app.router != null
    ensures app.RouterModel() == Some(RouterV(BooksApp.stack[..3]))
  {
    ghost var s0 := app.LazyStack();
    var _ := app.Verb("get", "/", Some(Sender("home")));
    assert s0 + [RouteLayerOf("/", "get", Sender("home"))] == [Day6Application.InitLayer, RouteLayerOf("/", "get", Sender("home"))];
    assert app.RouterModel() == Some(RouterV([Day6Application.InitLayer, RouteLayerOf("/", "get", Sender("home"))]));
    ghost var s1 := app.LazyStack();
    var _ := app.Verb("get", "/books", Some(Sender("books")));
    assert s1 + [RouteLayerOf("/books", "get", Sender("books"))] == BooksApp.stack[..3];
  }

  /** `router.use('/1', ...)` and `router.use('/2', ...)` on a new router. */
  method UsersRoutes(router: Router)
    requires router.Valid() && router.Model() == RouterV([])
    modifies router
    ensures router.Valid() && fresh(router.Repr - old(router.Repr)) && router.Model() == Users
  {
    var thrown := router.Use(PathArg("/1"), Some(Plain(Sender("first user"))));
    thrown := router.Use(PathArg("/2"), Some(Plain(Sender("second user"))));
  }

  /** The logging example built on a router as its test builds it:
      `use(logger)`, `get('/')`, and a router with `use(logger)` and
      `use('/', ...)` mounted at `/user`. */
  method BuildLoggingApp() returns (app: Router)
    ensures app.Valid() && app.Model() == LoggingApp
  {
    app := new Router();
    var router := new Router();
    LoggingRoutes(app);
    UserRoutes(router);
    var thrown := app.Use(PathArg("/user"), Some(Mounted(router)));
    assert UseLayer("/user", Mounted(router)) == MountOf("/user", UserRouter);
    assert LoggingApp.stack[..2] + [MountOf("/user", UserRouter)] == LoggingApp.stack;
  }

  /** `app.use(logger)` and `app.get('/', ...)` on a new router. */
  method LoggingRoutes(app: Router)
    requires app.Valid() && app.Model() == RouterV([])
    modifies app
    ensures app.Valid() && fresh(app.Repr - old(app.Repr)) && app.Model() == RouterV(LoggingApp.stack[..2])
  {
    var thrown := app.Use(FnArg(Plain(Logger)), None);
    app.Register("get", "/", Sender("first"));
  }

  /** `router.use(logger)` and `router.use('/', ...)` on a new router. */
  method UserRoutes(router: Router)
    requires router.Valid() && router.Model() == RouterV([])
    modifies router
    ensures router.Valid() && fresh(router.Repr - old(router.Repr)) && router.Model() == UserRouter
  {
    var thrown := router.Use(FnArg(Plain(Logger)), None);
    thrown := router.Use(PathArg("/"), Some(Plain(Sender("second"))));
  }
}
