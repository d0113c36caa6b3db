/** Values and objects that every stage of the router shares: the JavaScript
    values a handler can pass to `next`, the mutable request object, and the
    HTTP method names the verb helpers are generated from. */
module Http {

  datatype Option<+T> = None | Some(value: T)

  /** The JavaScript values the continuation `next(err)` and a `throw` carry.
      `Error(message)` is an `Error` object; `Str(s)` is a string, which is how
      the sentinels `'route'` and `'router'` travel. */
  datatype Value = Undefined | Null | Str(s: string) | Error(message: string)

  const RouteSentinel: Value := Str("route")
  const RouterSentinel: Value := Str("router")

  /** JavaScript truthiness: `undefined`, `null` and `''` are falsy. */
  predicate Truthy(v: Value) {
    match v
    case Undefined => false
    case Null => false
    case Str(s) => s != ""
    case Error(_) => true
  }

  /** A pending error in the sense of the routers: truthy and not a sentinel. */
  predicate IsFailure(v: Value) {
    Truthy(v) && v != RouteSentinel && v != RouterSentinel
  }

  /** `String(v)`, as `'404: ' + err` computes it; an `Error` prints as
      `Error.prototype.toString` does. */
  function ToStr(v: Value): (r: string)
    ensures v.Str? ==> r == v.s
    ensures v.Error? && v.message != "" ==> r == "Error: " + v.message
  {
    match v
    case Undefined => "undefined"
    case Null => "null"
    case Str(s) => s
    case Error(m) => if m == "" then "Error" else "Error: " + m
  }

  function LowerChar(c: char): char {
    if 'A' <= c <= 'Z' then (c as int - 'A' as int + 'a' as int) as char else c
  }

  predicate IsLower(s: string) {
    forall i :: 0 <= i < |s| ==> !('A' <= s[i] <= 'Z')
  }

  /** `String.prototype.toLowerCase` on ASCII letters. */
  function Lower(s: string): (r: string)
    ensures |r| == |s|
    ensures IsLower(r)
    ensures forall i :: 0 <= i < |s| ==> r[i] == LowerChar(s[i])
  {
    if s == [] then [] else [LowerChar(s[0])] + Lower(s[1..])
  }

  /** Lower-casing leaves a lower-case name alone, so it is idempotent. */
  lemma {:induction false} LowerOfLower(s: string)
    requires IsLower(s)
    ensures Lower(s) == s
  {
    if s != [] {
      assert IsLower(s[1..]) by {
        forall i | 0 <= i < |s[1..]| ensures !('A' <= s[1..][i] <= 'Z') {
          assert s[1..][i] == s[i + 1];
        }
      }
      LowerOfLower(s[1..]);
    }
  }

  /** The first index at or after `i` whose element satisfies `p`: the scan
      `for (...; i < len; i++) if (p(s[i])) return i` of every first-match
      loop. */
  function FirstWhere<T>(s: seq<T>, p: T -> bool, i: nat): (k: Option<nat>)
    decreases |s| - i
    ensures k.Some? ==> i <= k.value < |s| && p(s[k.value])
    ensures k.Some? ==> forall j :: i <= j < k.value ==> !p(s[j])
    ensures k.None? ==> forall j :: i <= j < |s| ==> !p(s[j])
  {
    if i >= |s| then None
    else if p(s[i]) then Some(i)
    else FirstWhere(s, p, i + 1)
  }

  /** The postconditions of `FirstWhere` determine it: an index that
      satisfies `p` with nothing before it doing so is the first match. */
  lemma {:induction false} FirstWhereIs<T>(s: seq<T>, p: T -> bool, i: nat, k: Option<nat>)
    requires k.Some? ==> i <= k.value < |s| && p(s[k.value])
    requires forall j :: i <= j < (if k.Some? then k.value else |s|) ==> !p(s[j])
    ensures FirstWhere(s, p, i) == k
    decreases |s| - i
  {
    if i < |s| && !(k.Some? && k.value == i) {
      FirstWhereIs(s, p, i + 1, k);
    }
  }

  /** Appending never changes an existing first match; the appended element
      is found only when nothing before it satisfies `p`. */
  lemma {:induction false} FirstWhereAppend<T>(s: seq<T>, x: T, p: T -> bool, i: nat)
    requires i <= |s|
    ensures FirstWhere(s + [x], p, i) ==
            match FirstWhere(s, p, i)
            case Some(k) => Some(k)
            case None => if p(x) then Some(|s|) else None
    decreases |s| - i
  {
    var t := s + [x];
    if i < |s| {
      assert t[i] == s[i];
      if !p(s[i]) {
        FirstWhereAppend(s, x, p, i + 1);
      }
    } else {
      assert t[i] == x;
    }
  }

  /** The request methods Node's `http.METHODS` lists, lower-cased, as the
      verb helpers are generated from them. */
  const Methods: set<string> := {
    "acl", "bind", "checkout", "connect", "copy", "delete", "get", "head",
    "link", "lock", "m-search", "merge", "mkactivity", "mkcalendar", "mkcol",
    "move", "notify", "options", "patch", "post", "propfind", "proppatch",
    "purge", "put", "rebind", "report", "search", "subscribe", "trace",
    "unbind", "unlink", "unlock", "unsubscribe"
  }

  /** What a two-argument handler `fn(req, res)` of the first stages does:
      send a body, or return without responding. */
  datatype Reply = Send(body: string) | NoReply

  /** The body sent by calling `fn && fn(req, res)`: nothing when there is no
      handler or the handler does not respond. */
  function BodyOf(fn: Option<Reply>): (b: Option<string>)
    ensures b.Some? <==> fn.Some? && fn.value.Send?
    ensures b.Some? ==> b.value == fn.value.body
  {
    match fn
    case Some(Send(body)) => Some(body)
    case _ => None
  }

  /** The incoming request object. `baseUrl` and `orginalUrl` (the source's
      spelling) are `''` while unset: the routers read both with `|| ''` and
      `|| req.url`, so an unset field and an empty one behave alike. */
  class Request {
    var url: string
    var baseUrl: string
    var orginalUrl: string
    var httpMethod: string  // `req.method`; `method` is a keyword in Dafny

    constructor (httpMethod: string, url: string)
      ensures this.httpMethod == httpMethod && this.url == url
      ensures baseUrl == "" && orginalUrl == ""
    {
      this.httpMethod := httpMethod;
      this.url := url;
      baseUrl := "";
      orginalUrl := "";
    }
  }
}
