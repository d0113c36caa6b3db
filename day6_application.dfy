/** The application of the sixth stage: a settings dictionary, a dictionary
    of template engines keyed by file extension, a router created on first
    use with the init middleware as its first layer, and a final handler
    that answers `404` with the pending error or with `Cannot <method>
    <url>`. Its router is the Router of Day4Router. */
module Day6Application {
  import opened Http
  import opened Project3Layer
  import Day4Router
  import Day4Laws
  import Project4Route

  /** The init middleware: it wires `req`, `res` and the application
      together and calls `next()`. */
  const InitFn := Fn("expressInit", false, CallNext(Undefined))

  /** The init middleware's layer as `use(fn)` pushes it. */
  const InitLayer := Day4Router.LayerV("expressInit", Some("/"), false, Day4Router.Middleware(Day4Router.FnV(InitFn)))

  /** `engines[ext]` holds a template engine; its behaviour is opaque here. */
  datatype Engine = Engine(name: string)

  /** What the client receives: the final handler's `404` text, a body a
      handler sent, or nothing. */
  datatype Response = NotFound(message: string) | Body(text: string) | Silent

  /** The message of the final handler `done(err)`. */
  function FinalMessage(err: Value, httpMethod: string, url: string): (msg: string)
    ensures Truthy(err) ==> msg == "404: " + ToStr(err)
    ensures !Truthy(err) ==> msg == "Cannot " + httpMethod + " " + url
  {
    if Truthy(err) then "404: " + ToStr(err) else "Cannot " + httpMethod + " " + url
  }

  /** `handle(req, res)` on a router value, or on none: the router's
      outcome, with `done` the final handler reading `req.url` as it is when
      `done` runs. */
  function Answer(router: Option<Day4Router.RouterV>, q: Day4Router.Req, httpMethod: string): Response {
    match router
    case None => NotFound(FinalMessage(Undefined, httpMethod, q.url))
    case Some(r) =>
      var res := Day4Router.Handle(r, q, httpMethod);
      match res.outcome
      case Done(v) => NotFound(FinalMessage(v, httpMethod, res.req.url))
      case Responded(b) => Body(b)
      case Stalled => Silent
  }

  /** With no router the answer is `Cannot <method> <url>`; with one, a
      `404` names the url the request arrived with, since every mount
      path stripped on the way has been restored by then, and it never
      shows a sentinel. */
  lemma NotFoundNamesRequestUrl(router: Option<Day4Router.RouterV>, q: Day4Router.Req, httpMethod: string)
    requires q.url != ""
    ensures router.None? ==> Answer(router, q, httpMethod) == NotFound("Cannot " + httpMethod + " " + q.url)
    ensures router.Some? && Answer(router, q, httpMethod).NotFound? ==>
      var o := Day4Router.Handle(router.value, q, httpMethod).outcome;
      o.Done? && o.v != RouteSentinel && o.v != RouterSentinel &&
      Answer(router, q, httpMethod) == NotFound(FinalMessage(o.v, httpMethod, q.url))
  {
    if router.Some? {
      Day4Laws.HandleKeeps(router.value, q, httpMethod);
      Day4Laws.HandleNoSentinel(router.value, q, httpMethod);
    }
  }

  /** A layer that `use` or a verb appends leaves every response the
      earlier layers send, and every request they leave hanging, as it
      was. */
  lemma AppendKeepsAnswer(s: seq<Day4Router.LayerV>, l: Day4Router.LayerV, q: Day4Router.Req, httpMethod: string)
    requires !Answer(Some(Day4Router.RouterV(s)), q, httpMethod).NotFound?
    ensures Answer(Some(Day4Router.RouterV(s + [l])), q, httpMethod) == Answer(Some(Day4Router.RouterV(s)), q, httpMethod)
  {
    Day4Laws.HandleAppend(Day4Router.RouterV(s), l, q, httpMethod);
  }

  /** The key `engine(ext, fn)` stores under: `ext` with a leading `'.'`
      added when it has none. */
  function Extension(ext: string): (e: string)
    ensures |e| > 0 && e[0] == '.'
    ensures ext != "" && ext[0] == '.' ==> e == ext
    ensures ext == "" || ext[0] != '.' ==> e == "." + ext
  {
    if ext == "" || ext[0] != '.' then "." + ext else ext
  }

  /** `'ntl'` and `'.ntl'` name the same engine, and a stored key is
      stored under itself again. */
  lemma ExtensionSameKey(ext: string)
    ensures Extension(Extension(ext)) == Extension(ext)
    ensures ext == "" || ext[0] != '.' ==> Extension("." + ext) == Extension(ext)
  {
  }

  /** `settings[k]`, `undefined` when never set. */
  function Lookup(settings: map<string, Value>, k: string): Value {
    if k in settings then settings[k] else Undefined
  }

  /** `set(k, v)` then `set(k)` gives `v`, and every other setting is as
      it was. */
  lemma SetThenGet(settings: map<string, Value>, k: string, v: Value, other: string)
    ensures Lookup(settings[k := v], k) == v
    ensures other != k ==> Lookup(settings[k := v], other) == Lookup(settings, other)
  {
  }

  /** The path `use` mounts at: `'/'` when the first argument is the
      handler. */
  function UsePath(first: Day4Router.UseArg): string {
    if first.FnArg? then "/" else first.path
  }

  /** The handler `use` mounts: the first argument when it is a function,
      the second otherwise. */
  function UseHandler(first: Day4Router.UseArg, second: Option<Day4Router.Handler>): Option<Day4Router.Handler> {
    if first.FnArg? then Some(first.h) else second
  }

  class Application {
    var settings: map<string, Value>
    var engines: map<string, Engine>
    var router: Day4Router.Router?
    ghost var Repr: set<object>

    ghost predicate Valid()
      reads this, Repr
    {
      this in Repr &&
      (router != null ==> router in Repr && router.Repr <= Repr && this !in router.Repr && router.Valid())
    }

    /** `this._router` as a value. */
    ghost function RouterModel(): Option<Day4Router.RouterV>
      requires Valid()
      reads this, Repr
    {
      if router == null then None else Some(router.Model())
    }

    /** `new Application()`: no settings, no engines, no router. */
    constructor ()
      ensures Valid() && fresh(Repr)
      ensures settings == map[] && engines == map[] && router == null
    {
      settings := map[];
      engines := map[];
      router := null;
      Repr := {this};
    }

    /** `lazyrouter()`: a router whose only layer is the init middleware,
        created once; later calls leave it as it is. */
    method LazyRouter()
      requires Valid()
      modifies this
      ensures Valid() && router != null
      ensures settings == old(settings) && engines == old(engines)
      ensures old(router) != null ==> router == old(router) && Repr == old(Repr) && RouterModel() == old(RouterModel())
      ensures old(router) == null ==> fresh(router) && fresh(Repr - old(Repr)) && RouterModel() == Some(Day4Router.RouterV([InitLayer]))
    {
      if router == null {
        var r := new Day4Router.Router();
        var thrown := r.Use(Day4Router.FnArg(Day4Router.Plain(InitFn)), None);
        assert |r.Model().stack| == 1 && r.Model().stack[0] == InitLayer;
        assert r.Model().stack == [InitLayer];
        router := r;
        Repr := Repr + r.Repr;
      }
    }

    /** `handle(req, res)`: the router's `handle` with the final handler as
        `done`, or `done()` when there is no router. */
    method HandleNow(req: Request) returns (resp: Response)
      requires Valid() && req !in Repr
      modifies req
      ensures req.httpMethod == old(req.httpMethod)
      ensures resp == Answer(RouterModel(), old(Day4Router.ReqOf(req)), req.httpMethod)
    {
      if router == null {
        return NotFound(FinalMessage(Undefined, req.httpMethod, req.url));
      }
      var o := router.HandleNow(req);
      match o {
        case Done(v) => resp := NotFound(FinalMessage(v, req.httpMethod, req.url));
        case Responded(b) => resp := Body(b);
        case Stalled => resp := Silent;
      }
    }

    /** `engine(ext, fn)`: `fn` stored under the normalised extension. */
    method SetEngine(ext: string, fn: Engine)
      modifies this`engines
      ensures engines == old(engines)[Extension(ext) := fn]
    {
      var extension := if ext == "" || ext[0] != '.' then "." + ext else ext;
      engines := engines[extension := fn];
    }

    /** `set(setting)`: the stored value. */
    function Setting(setting: string): (v: Value)
      reads this
      ensures setting in settings ==> v == settings[setting]
      ensures setting !in settings ==> v == Undefined
    {
      Lookup(settings, setting)
    }

    /** `set(setting, val)`. */
    method Set(setting: string, val: Value)
      modifies this`settings
      ensures settings == old(settings)[setting := val]
      ensures Setting(setting) == val
    {
      settings := settings[setting := val];
    }

    /** The router's layers once `lazyrouter()` has run: the init layer
        alone for a new router. */
    ghost function LazyStack(): (s: seq<Day4Router.LayerV>)
      requires Valid()
      reads this, Repr
      ensures router == null ==> s == [InitLayer]
      ensures router != null ==> RouterModel() == Some(Day4Router.RouterV(s))
    {
      if router == null then [InitLayer] else router.Model().stack
    }

    /** `use(fn)` or `use(path, fn)`: the router is created if need be and
        given `use('/', fn)` or `use(path, fn)`, which appends one layer;
        with a path and no handler the router's `use` throws after the
        router exists. */
    method Use(first: Day4Router.UseArg, second: Option<Day4Router.Handler>) returns (thrown: bool)
      requires Valid()
      requires var h := UseHandler(first, second);
        h.Some? ==> (!h.value.BoundDispatch? &&
          (h.value.Mounted? ==> h.value.router.Valid() && this !in h.value.router.Repr &&
                                (router != null ==> router !in h.value.router.Repr)))
      modifies this, Repr
      ensures Valid() && router != null
      ensures fresh(Repr - old(Repr) - (if UseHandler(first, second).Some? && UseHandler(first, second).value.Mounted? then UseHandler(first, second).value.router.Repr else {}))
      ensures old(router) != null ==> router == old(router)
      ensures settings == old(settings) && engines == old(engines)
      ensures thrown <==> UseHandler(first, second).None?
      ensures thrown ==> RouterModel() == Some(Day4Router.RouterV(old(LazyStack())))
      ensures !thrown ==>
        var h := UseHandler(first, second).value;
        (h.Mounted? ==> h.router.Valid()) &&
        RouterModel() == Some(Day4Router.RouterV(old(LazyStack()) + [Day4Router.UseLayer(UsePath(first), h)]))
    {
      LazyRouter();
      thrown := UseOnRouter(UsePath(first), UseHandler(first, second));
    }

    /** `router.use(path, fn)` on the router `lazyrouter` made sure of. */
    method UseOnRouter(path: string, fn: Option<Day4Router.Handler>) returns (thrown: bool)
      requires Valid() && router != null
      requires fn.Some? ==> (!fn.value.BoundDispatch? &&
          (fn.value.Mounted? ==> fn.value.router.Valid() && this !in fn.value.router.Repr && router !in fn.value.router.Repr))
      modifies this, Repr
      ensures Valid() && router == old(router)
      ensures fresh(Repr - old(Repr) - (if fn.Some? && fn.value.Mounted? then fn.value.router.Repr else {}))
      ensures settings == old(settings) && engines == old(engines)
      ensures thrown <==> fn.None?
      ensures thrown ==> RouterModel() == old(RouterModel())
      ensures !thrown ==>
        (fn.value.Mounted? ==> fn.value.router.Valid()) &&
        RouterModel() == Some(Day4Router.RouterV(old(RouterModel()).value.stack + [Day4Router.UseLayer(path, fn.value)]))
    {
      thrown := router.Use(Day4Router.PathArg(path), fn);
      Repr := Repr + router.Repr;
    }

    /** `app[verb](path, fn)`; `get` with a single argument is `set(path)`,
        the settings getter, and registers nothing. */
    method Verb(verb: string, path: string, fn: Option<Fn>) returns (setting: Option<Value>)
      requires Valid() && verb in Methods && (verb == "get" || fn.Some?)
      modifies this, Repr
      ensures Valid()
      ensures fresh(Repr - old(Repr))
      ensures old(router) != null ==> router == old(router)
      ensures settings == old(settings) && engines == old(engines)
      ensures verb == "get" && fn.None? ==>
        setting == Some(Setting(path)) && router == old(router) && Repr == old(Repr) && RouterModel() == old(RouterModel())
      ensures fn.Some? ==> setting.None?
      ensures fn.Some? ==>
        RouterModel() == Some(Day4Router.RouterV(old(LazyStack()) +
          [Day4Router.LayerV("bound ", Day4Router.InitialPath(path), path == "*",
            Day4Router.RouteLayer(Project4Route.RouteV(path, [Project4Route.MethodLayer(NewLayer("/", fn.value, fn.value.name), verb)], {verb})))]))
    {
      if verb == "get" && fn.None? {
        return Some(Setting(path));
      }
      LazyRouter();
      router.Register(verb, path, fn.value);
      Repr := Repr + router.Repr;
      return None;
    }
  }
}
