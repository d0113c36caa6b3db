/** The second stage's Route: a stack of method-tagged layers sharing one
    path, a `methods` table, registration by `get`, and a dispatch that calls
    the first layer tagged with the request's method. */
module Day2Route {
  import opened Http
  import opened Day2Layer

  /** A layer of the route's stack with the `layer.method` tag the route sets. */
  datatype MethodLayer = MethodLayer(layer: Layer<Reply>, verb: string)

  /** The value of a route object: its path, stack and the keys of `methods`
      that are `true`. */
  datatype RouteV = RouteV(path: string, stack: seq<MethodLayer>, methods: set<string>)

  /** The methods tagged on the layers of a stack. */
  function Tags(stack: seq<MethodLayer>): (tags: set<string>)
    ensures forall i :: 0 <= i < |stack| ==> stack[i].verb in tags
    ensures forall v :: v in tags ==> exists i :: 0 <= i < |stack| && stack[i].verb == v
  {
    set i | 0 <= i < |stack| :: stack[i].verb
  }

  lemma TagsAppend(stack: seq<MethodLayer>, m: MethodLayer)
    ensures Tags(stack + [m]) == Tags(stack) + {m.verb}
  {
    var t := stack + [m];
    forall v | v in Tags(t) ensures v in Tags(stack) + {m.verb} {
      var i :| 0 <= i < |t| && t[i].verb == v;
      if i < |stack| { assert t[i] == stack[i]; }
    }
    forall v | v in Tags(stack) ensures v in Tags(t) {
      var i :| 0 <= i < |stack| && stack[i].verb == v;
      assert t[i] == stack[i];
    }
    assert t[|stack|] == m;
  }

  /** `methods` records exactly the tags of the layers pushed so far. */
  ghost predicate Consistent(r: RouteV) {
    r.methods == Tags(r.stack)
  }

  /** `_handles_method(method)`: the lower-cased name was registered. */
  predicate HandlesMethod(r: RouteV, verb: string) {
    Lower(verb) in r.methods
  }

  /** The first layer of `stack` tagged `verb`. */
  function FirstTagged(stack: seq<MethodLayer>, verb: string): Option<nat> {
    FirstWhere(stack, (m: MethodLayer) => m.verb == verb, 0)
  }

  /** What `dispatch(req, res)` sends for a request with method `verb`: the
      reply of the first layer tagged with the lower-cased method, if that
      layer has a handler that responds. */
  function Dispatch(r: RouteV, verb: string): Option<string> {
    match FirstTagged(r.stack, Lower(verb))
    case None => None
    case Some(k) => BodyOf(HandleRequest(r.stack[k].layer))
  }

  /** On a consistent route, `_handles_method` holds exactly when some layer
      carries the lower-cased method, and a method it does not handle gets
      no response. */
  lemma HandlesMethodIffTagged(r: RouteV, verb: string)
    requires Consistent(r)
    ensures HandlesMethod(r, verb) <==> exists i :: 0 <= i < |r.stack| && r.stack[i].verb == Lower(verb)
    ensures !HandlesMethod(r, verb) ==> Dispatch(r, verb) == None
  {
    var k := FirstTagged(r.stack, Lower(verb));
    if k.Some? {
      assert r.stack[k.value].verb in Tags(r.stack);
    }
  }

  /** Dispatch is case-insensitive in the request method. */
  lemma DispatchIgnoresCase(r: RouteV, verb: string)
    ensures Dispatch(r, verb) == Dispatch(r, Lower(verb))
    ensures HandlesMethod(r, verb) == HandlesMethod(r, Lower(verb))
  {
    LowerOfLower(Lower(verb));
  }

  /** A second `get` on the same route appends and never replaces: the
      layer that answered a method before keeps answering it. */
  lemma GetAppends(r: RouteV, m: MethodLayer, verb: string)
    requires FirstTagged(r.stack, Lower(verb)).Some?
    ensures Dispatch(r.(stack := r.stack + [m]), verb) == Dispatch(r, verb)
  {
    FirstWhereAppend(r.stack, m, (l: MethodLayer) => l.verb == Lower(verb), 0);
    var k := FirstTagged(r.stack, Lower(verb)).value;
    assert (r.stack + [m])[k] == r.stack[k];
  }

  class Route {
    var path: string
    var stack: seq<MethodLayer>
    var methods: set<string>

    ghost predicate Valid()
      reads this
    {
      Consistent(Model())
    }

    function Model(): RouteV
      reads this
    {
      RouteV(path, stack, methods)
    }

    constructor (path: string)
      ensures Valid() && Model() == RouteV(path, [], {})
    {
      this.path := path;
      stack := [];
      methods := {};
    }

    /** `_handles_method(method)`. */
    function HandlesMethodNow(verb: string): (b: bool)
      reads this
      ensures b == HandlesMethod(Model(), verb)
    {
      Lower(verb) in methods
    }

    /** `get(fn)`: push `new Layer('/', fn)` tagged `'get'`, set
        `methods.get`, return the route. */
    method Get(fn: Option<Reply>, fnName: string)
      requires Valid()
      modifies this
      ensures Valid()
      ensures Model() == old(Model()).(stack := old(stack) + [MethodLayer(NewLayer("/", fn, fnName), "get")],
                                       methods := old(methods) + {"get"})
    {
      var layer := NewLayer("/", fn, fnName);
      methods := methods + {"get"};
      stack := stack + [MethodLayer(layer, "get")];
      TagsAppend(old(stack), MethodLayer(layer, "get"));
    }

    /** `dispatch(req, res)`: the loop over the stack with its early return. */
    method DispatchNow(req: Request) returns (sent: Option<string>)
      ensures sent == Dispatch(Model(), req.httpMethod)
    {
      var verb := Lower(req.httpMethod);
      var i := 0;
      while i < |stack|
        invariant 0 <= i <= |stack|
        invariant FirstTagged(stack, verb) == FirstWhere(stack, (m: MethodLayer) => m.verb == verb, i)
      {
        if verb == stack[i].verb {
          return BodyOf(HandleRequest(stack[i].layer));
        }
        i := i + 1;
      }
      return None;
    }
  }
}
