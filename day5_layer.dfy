/** The mature Layer: a handler with a name, a `fast_star` flag for the path
    `'*'` (whose `path` then stays undefined), a `route` link, and a `match`
    that tests a route layer's path as a suffix of the candidate and a
    middleware layer's path as a prefix, rewriting `'*'` and `'/'` to the
    empty path as it matches. `handle_error` and `handle_request` are those
    of Project3Layer, which they repeat word for word. */
module Day5Layer {
  import opened Http
  import Day2Layer
  import Project4Route

  /** `s.slice(-n)` for `n >= 0`: `-0` is `0`, so the whole string, and a
      count beyond the length also gives the whole string. */
  function SliceFromEnd(s: string, n: nat): (r: string)
    ensures 0 < n <= |s| ==> r == s[|s| - n..]
    ensures n == 0 || n >= |s| ==> r == s
  {
    if n == 0 || n >= |s| then s else s[|s| - n..]
  }

  /** `s.slice(0, n)`. */
  function SliceTo(s: string, n: nat): (r: string)
    ensures r == s[..if n <= |s| then n else |s|]
  {
    if n <= |s| then s[..n] else s
  }

  /** `match(path)` on a layer with the given fields, as a value; see
      `Layer.Match` for the rewrite of `this.path` that goes with it. A
      layer without `'*'` always has a path, so the `None` case does not
      arise from the constructor. */
  function Matches(path: Option<string>, fastStar: bool, isRoute: bool, candidate: string): (b: bool)
    ensures fastStar ==> b
    ensures !fastStar && path.Some? && isRoute ==>
      (b <==> |path.value| <= |candidate| && candidate[|candidate| - |path.value|..] == path.value
                && (path.value != "" || candidate == ""))
    ensures !fastStar && path.Some? && !isRoute ==>
      (b <==> path.value == "/" || (|path.value| <= |candidate| && candidate[..|path.value|] == path.value))
  {
    if fastStar then true
    else if path.None? then false
    else if isRoute then path.value == SliceFromEnd(candidate, |path.value|)
    else if path.value == "/" then true
    else path.value == SliceTo(candidate, |path.value|)
  }

  /** `this.path` after a successful `match`: `''` for `'*'` and, on a
      layer without a route, for `'/'`; unchanged otherwise. */
  function Rewritten(path: Option<string>, fastStar: bool, isRoute: bool): (p: Option<string>)
    ensures fastStar ==> p == Some("")
    ensures !fastStar && !isRoute && path == Some("/") ==> p == Some("")
    ensures !fastStar && (isRoute || path != Some("/")) ==> p == path
  {
    if fastStar || (!isRoute && path == Some("/")) then Some("") else path
  }

  /** The rewrite is invisible: the rewritten layer matches exactly the
      candidates the original matches, and rewriting again changes nothing. */
  lemma RewriteInvisible(path: Option<string>, fastStar: bool, isRoute: bool, candidate: string)
    ensures Matches(Rewritten(path, fastStar, isRoute), fastStar, isRoute, candidate) == Matches(path, fastStar, isRoute, candidate)
    ensures Rewritten(Rewritten(path, fastStar, isRoute), fastStar, isRoute) == Rewritten(path, fastStar, isRoute)
  {
  }

  /** A route layer never uses the prefix rule and a middleware layer never
      uses the suffix rule: `'/users'` as a route matches `'/a/users'` but
      not `'/users/1'`, and as a middleware the other way round. */
  lemma PrefixAndSuffixRules()
    ensures Matches(Some("/users"), false, true, "/a/users") && !Matches(Some("/users"), false, true, "/users/1")
    ensures !Matches(Some("/users"), false, false, "/a/users") && Matches(Some("/users"), false, false, "/users/1")
    ensures Matches(Some("/user"), false, false, "/users")
  {
    assert "/a/users"[2..] == "/users";
    assert "/users/1"[..6] == "/users";
    assert "/users"[..5] == "/user";
  }

  class Layer<H> {
    var handle: H
    var name: string
    var path: Option<string>
    var fastStar: bool
    var route: Option<Project4Route.Route>

    /** `new Layer(path, fn)`; `fnName` is `fn.name`. The `route` link is
        left undefined; the router sets it. */
    constructor (path: string, fn: H, fnName: string)
      ensures handle == fn && name == Day2Layer.DefaultName(fnName)
      ensures fastStar == (path == "*")
      ensures this.path == if path == "*" then None else Some(path)
      ensures route == None
    {
      handle := fn;
      name := Day2Layer.DefaultName(fnName);
      fastStar := path == "*";
      this.path := if path == "*" then None else Some(path);
      route := None;
    }

    /** `match(path)`: the answer, and the rewrite of `this.path` when the
        layer is `'*'` or a middleware layer at `'/'`. */
    method Match(candidate: string) returns (r: bool)
      modifies this`path
      ensures r == Matches(old(path), fastStar, route.Some?, candidate)
      ensures path == if r then Rewritten(old(path), fastStar, route.Some?) else old(path)
    {
      if fastStar {
        path := Some("");
        return true;
      }
      if route.Some? && path.Some? && path.value == SliceFromEnd(candidate, |path.value|) {
        return true;
      }
      if route.None? && path.Some? {
        if path.value == "/" {
          path := Some("");
          return true;
        }
        if path.value == SliceTo(candidate, |path.value|) {
          return true;
        }
      }
      return false;
    }
  }
}
