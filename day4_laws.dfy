/** What the mature Router's `handle` promises, stated on router values:
    layers that do not match are passed over with the error kept, a pending
    error passes over everything but error handlers and route layers, the
    request's `url` and `baseUrl` come back as they were whenever `done` is
    reached, `orginalUrl` is set once, and `done` never sees a sentinel. */
module Day4Laws {
  import opened Http
  import opened Project3Layer
  import opened Project4Route
  import opened Day4Router

  /** Layers that do not match the pathname are passed over, the pending
      error unchanged. */
  lemma {:induction false} SkipUnmatched(r: RouterV, parentUrl: string, verb: string, i: nat, k: nat, err: Value, q: Req)
    requires i <= k <= |r.stack|
    requires err != RouteSentinel && err != RouterSentinel
    requires forall j :: i <= j < k ==> !LayerMatches(r.stack[j], Pathname(q.url))
    ensures Proceed(r, parentUrl, verb, i, err, q) == Proceed(r, parentUrl, verb, k, err, q)
    decreases k - i
  {
    if i < k {
      SkipUnmatched(r, parentUrl, verb, i + 1, k, err, q);
    }
  }

  /** A matched middleware layer whose handler calls `next(v)` or throws
      `v` hands `v` to the following layer, with the request restored. */
  lemma ContinueAfter(r: RouterV, parentUrl: string, verb: string, idx: nat, err: Value, q: Req, f: Fn, v: Value)
    requires idx < |r.stack| && q.baseUrl == parentUrl
    requires err != RouteSentinel && err != RouterSentinel
    requires r.stack[idx].kind == Middleware(FnV(f)) && LayerMatches(r.stack[idx], Pathname(q.url))
    requires (if Truthy(err) then HandleError(f, err) else HandleRequest(f)) == Next(v)
    ensures Proceed(r, parentUrl, verb, idx, err, q) == Proceed(r, parentUrl, verb, idx + 1, v, q)
  {
    var removed := RemovedPrefix(r.stack[idx]);
    var s := Strip(q, parentUrl, removed);
    RemovedIsPrefix(r.stack[idx], q.url);
    StripRestore(q, parentUrl, removed);
    assert Proceed(r, parentUrl, verb, idx, err, q) == Call(r, parentUrl, verb, idx, err, q);
    assert Call(r, parentUrl, verb, idx, err, q) == CallMiddleware(r, parentUrl, verb, idx, err, q);
    assert CallMiddleware(r, parentUrl, verb, idx, err, q) ==
      Proceed(r, parentUrl, verb, idx + 1, v, Restore(s.req, parentUrl, removed, s.slashAdded));
  }

  /** A matched mounted router is not entered while an error is pending:
      the error goes on to the following layer, the request restored. */
  lemma MountSkippedOnError(r: RouterV, parentUrl: string, verb: string, idx: nat, err: Value, q: Req)
    requires idx < |r.stack| && q.baseUrl == parentUrl && IsFailure(err)
    requires r.stack[idx].kind.Middleware? && r.stack[idx].kind.h.MountedV? && LayerMatches(r.stack[idx], Pathname(q.url))
    ensures Proceed(r, parentUrl, verb, idx, err, q) == Proceed(r, parentUrl, verb, idx + 1, err, q)
  {
    var removed := RemovedPrefix(r.stack[idx]);
    var s := Strip(q, parentUrl, removed);
    RemovedIsPrefix(r.stack[idx], q.url);
    StripRestore(q, parentUrl, removed);
    assert Proceed(r, parentUrl, verb, idx, err, q) == Call(r, parentUrl, verb, idx, err, q);
    assert Call(r, parentUrl, verb, idx, err, q) == CallMiddleware(r, parentUrl, verb, idx, err, q);
    assert CallMiddleware(r, parentUrl, verb, idx, err, q) ==
      Proceed(r, parentUrl, verb, idx + 1, err, Restore(s.req, parentUrl, removed, s.slashAdded));
  }

  /** A pending error passes over every middleware layer that is not an
      error handler, mounted routers included, matched or not. */
  lemma {:induction false} ErrorPassesOver(r: RouterV, parentUrl: string, verb: string, i: nat, k: nat, err: Value, q: Req)
    requires i <= k <= |r.stack| && IsFailure(err) && q.baseUrl == parentUrl
    requires forall j :: i <= j < k ==>
      r.stack[j].kind.Middleware? && !(r.stack[j].kind.h.FnV? && r.stack[j].kind.h.fn.isErrorHandler)
    ensures Proceed(r, parentUrl, verb, i, err, q) == Proceed(r, parentUrl, verb, k, err, q)
    decreases k - i
  {
    if i < k {
      if !LayerMatches(r.stack[i], Pathname(q.url)) {
        assert Proceed(r, parentUrl, verb, i, err, q) == Proceed(r, parentUrl, verb, i + 1, err, q);
      } else if r.stack[i].kind.h.FnV? {
        ContinueAfter(r, parentUrl, verb, i, err, q, r.stack[i].kind.h.fn, err);
      } else {
        MountSkippedOnError(r, parentUrl, verb, i, err, q);
      }
      ErrorPassesOver(r, parentUrl, verb, i + 1, k, err, q);
    }
  }

  /** A matched function middleware runs when it is an error handler and an
      error is pending, and, error handler or not, when none is pending: a
      response ends `handle`, `next(v)` or a throw of `v` goes on with `v`. */
  lemma MiddlewareRuns(r: RouterV, parentUrl: string, verb: string, idx: nat, err: Value, q: Req, f: Fn)
    requires idx < |r.stack| && q.baseUrl == parentUrl
    requires r.stack[idx].kind == Middleware(FnV(f)) && LayerMatches(r.stack[idx], Pathname(q.url))
    requires (IsFailure(err) && f.isErrorHandler) || !Truthy(err)
    ensures f.action.Respond? ==> Proceed(r, parentUrl, verb, idx, err, q).outcome == Responded(f.action.body)
    ensures f.action.CallNext? ==> Proceed(r, parentUrl, verb, idx, err, q) == Proceed(r, parentUrl, verb, idx + 1, f.action.v, q)
    ensures f.action.Throw? ==> Proceed(r, parentUrl, verb, idx, err, q) == Proceed(r, parentUrl, verb, idx + 1, f.action.v, q)
  {
    if f.action.Respond? {
      var removed := RemovedPrefix(r.stack[idx]);
      assert Proceed(r, parentUrl, verb, idx, err, q) == CallMiddleware(r, parentUrl, verb, idx, err, q);
      assert CallMiddleware(r, parentUrl, verb, idx, err, q) == Result(Responded(f.action.body), Strip(q, parentUrl, removed).req);
    } else {
      ContinueAfter(r, parentUrl, verb, idx, err, q, f, f.action.v);
    }
  }

  /** A matched route layer ignores the pending error: it is called without
      it when the route handles the method, `next('router')` from the route
      ends this router with `done(null)`, and when the route does not handle
      the method `handle` stops there. */
  lemma RouteLayerDropsError(r: RouterV, parentUrl: string, verb: string, idx: nat, err: Value, q: Req)
    requires idx < |r.stack| && r.stack[idx].kind.RouteLayer? && LayerMatches(r.stack[idx], Pathname(q.url))
    requires err != RouterSentinel
    ensures Proceed(r, parentUrl, verb, idx, err, q) == Proceed(r, parentUrl, verb, idx, Undefined, q)
    ensures !HandlesMethod(r.stack[idx].kind.route, verb) ==> Proceed(r, parentUrl, verb, idx, err, q) == Result(Stalled, q)
    ensures HandlesMethod(r.stack[idx].kind.route, verb) && Dispatch(r.stack[idx].kind.route, verb) == Finished(RouterSentinel) ==>
      Proceed(r, parentUrl, verb, idx, err, q) == Result(Done(Null), q)
  {
    var layerError := if err == RouteSentinel then Null else err;
    assert Proceed(r, parentUrl, verb, idx, err, q) == Call(r, parentUrl, verb, idx, layerError, q);
    assert Proceed(r, parentUrl, verb, idx, Undefined, q) == Call(r, parentUrl, verb, idx, Undefined, q);
    assert Proceed(r, parentUrl, verb, idx + 1, RouterSentinel, q) == Result(Done(Null), q);
  }

  /** A matched mounted router is entered when no error is pending, with
      the mount path moved from `url` to `baseUrl`: what it ends with other
      than `done` is the answer, and its `done(v)` goes on to the following
      layer with `v` and the request as it was before the mount. */
  lemma MountEntered(r: RouterV, parentUrl: string, verb: string, idx: nat, err: Value, q: Req)
    requires idx < |r.stack| && q.baseUrl == parentUrl && q.orginalUrl != "" && !Truthy(err)
    requires r.stack[idx].kind.Middleware? && r.stack[idx].kind.h.MountedV? && LayerMatches(r.stack[idx], Pathname(q.url))
    ensures var res := Handle(r.stack[idx].kind.h.sub, Strip(q, parentUrl, RemovedPrefix(r.stack[idx])).req, verb);
      Proceed(r, parentUrl, verb, idx, err, q) ==
        if res.outcome.Done? then Proceed(r, parentUrl, verb, idx + 1, res.outcome.v, q) else res
  {
    var removed := RemovedPrefix(r.stack[idx]);
    var s := Strip(q, parentUrl, removed);
    RemovedIsPrefix(r.stack[idx], q.url);
    StripRestore(q, parentUrl, removed);
    HandleKeeps(r.stack[idx].kind.h.sub, s.req, verb);
    assert Proceed(r, parentUrl, verb, idx, err, q) == CallMiddleware(r, parentUrl, verb, idx, err, q);
  }

  /** `done` never receives `'route'` or `'router'`. */
  lemma {:induction false} NoSentinelInDone(r: RouterV, parentUrl: string, verb: string, idx: nat, err: Value, q: Req)
    ensures var res := Proceed(r, parentUrl, verb, idx, err, q);
      res.outcome.Done? ==> res.outcome.v != RouteSentinel && res.outcome.v != RouterSentinel
    decreases |r.stack| - idx
  {
    var layerError := if err == RouteSentinel then Null else err;
    if layerError == RouterSentinel || idx >= |r.stack| {
    } else if !LayerMatches(r.stack[idx], Pathname(q.url)) {
      NoSentinelInDone(r, parentUrl, verb, idx + 1, layerError, q);
    } else {
      match r.stack[idx].kind {
        case RouteLayer(rt) =>
          if HandlesMethod(rt, verb) {
            match Dispatch(rt, verb) {
              case Replied(_) =>
              case Finished(v) => NoSentinelInDone(r, parentUrl, verb, idx + 1, v, q);
            }
          }
        case Middleware(h) =>
          var removed := RemovedPrefix(r.stack[idx]);
          var s := Strip(q, parentUrl, removed);
          assert Proceed(r, parentUrl, verb, idx, err, q) == CallMiddleware(r, parentUrl, verb, idx, layerError, q);
          match h {
            case FnV(f) =>
              match (if Truthy(layerError) then HandleError(f, layerError) else HandleRequest(f)) {
                case Sent(_) =>
                case Next(v) =>
                  assert CallMiddleware(r, parentUrl, verb, idx, layerError, q) == Proceed(r, parentUrl, verb, idx + 1, v, Restore(s.req, parentUrl, removed, s.slashAdded));
                  NoSentinelInDone(r, parentUrl, verb, idx + 1, v, Restore(s.req, parentUrl, removed, s.slashAdded));
              }
            case MountedV(sub) =>
              if Truthy(layerError) {
                NoSentinelInDone(r, parentUrl, verb, idx + 1, layerError, Restore(s.req, parentUrl, removed, s.slashAdded));
              } else {
                var res := Handle(sub, s.req, verb);
                if res.outcome.Done? {
                  NoSentinelInDone(r, parentUrl, verb, idx + 1, res.outcome.v, Restore(res.req, parentUrl, removed, s.slashAdded));
                }
              }
          }
      }
    }
  }

  /** `handle` ends in `done` with neither sentinel: `'router'` from a
      nested router ends only that router, whose parent goes on with no
      error. */
  lemma HandleNoSentinel(r: RouterV, q: Req, verb: string)
    ensures var res := Handle(r, q, verb);
      res.outcome.Done? ==> res.outcome.v != RouteSentinel && res.outcome.v != RouterSentinel
  {
    NoSentinelInDone(r, q.baseUrl, verb, 0, Undefined, q.(orginalUrl := if q.orginalUrl != "" then q.orginalUrl else q.url));
  }

  /** `handle` sets `req.orginalUrl` once, to the url the request arrived
      with, and when it reaches `done` it hands back `url` and `baseUrl` as
      they were: every strip of a mount path is undone. */
  lemma {:induction false} HandleKeeps(r: RouterV, q: Req, verb: string)
    requires q.url != "" || q.orginalUrl != ""
    ensures var res := Handle(r, q, verb);
      var q1 := q.(orginalUrl := if q.orginalUrl != "" then q.orginalUrl else q.url);
      res.req.orginalUrl == q1.orginalUrl && (res.outcome.Done? ==> res.req == q1)
    decreases r, |r.stack| + 1
  {
    ProceedKeeps(r, q.baseUrl, verb, 0, Undefined, q.(orginalUrl := if q.orginalUrl != "" then q.orginalUrl else q.url));
  }

  lemma {:induction false} ProceedKeeps(r: RouterV, parentUrl: string, verb: string, idx: nat, err: Value, q: Req)
    requires q.baseUrl == parentUrl && q.orginalUrl != ""
    ensures var res := Proceed(r, parentUrl, verb, idx, err, q);
      res.req.orginalUrl == q.orginalUrl && (res.outcome.Done? ==> res.req == q)
    decreases r, |r.stack| - idx
  {
    var layerError := if err == RouteSentinel then Null else err;
    if layerError == RouterSentinel || idx >= |r.stack| {
    } else if !LayerMatches(r.stack[idx], Pathname(q.url)) {
      ProceedKeeps(r, parentUrl, verb, idx + 1, layerError, q);
    } else {
      match r.stack[idx].kind {
        case RouteLayer(rt) =>
          if HandlesMethod(rt, verb) {
            match Dispatch(rt, verb) {
              case Replied(_) =>
              case Finished(v) => ProceedKeeps(r, parentUrl, verb, idx + 1, v, q);
            }
          }
        case Middleware(h) =>
          var removed := RemovedPrefix(r.stack[idx]);
          var s := Strip(q, parentUrl, removed);
          assert Proceed(r, parentUrl, verb, idx, err, q) == CallMiddleware(r, parentUrl, verb, idx, layerError, q);
          RemovedIsPrefix(r.stack[idx], q.url);
          StripRestore(q, parentUrl, removed);
          match h {
            case FnV(f) =>
              match (if Truthy(layerError) then HandleError(f, layerError) else HandleRequest(f)) {
                case Sent(b) =>
                  assert CallMiddleware(r, parentUrl, verb, idx, layerError, q) == Result(Responded(b), s.req);
                case Next(v) =>
                  assert CallMiddleware(r, parentUrl, verb, idx, layerError, q) == Proceed(r, parentUrl, verb, idx + 1, v, Restore(s.req, parentUrl, removed, s.slashAdded));
                  ProceedKeeps(r, parentUrl, verb, idx + 1, v, q);
              }
            case MountedV(sub) =>
              if Truthy(layerError) {
                ProceedKeeps(r, parentUrl, verb, idx + 1, layerError, q);
              } else {
                HandleKeeps(sub, s.req, verb);
                var res := Handle(sub, s.req, verb);
                if res.outcome.Done? {
                  ProceedKeeps(r, parentUrl, verb, idx + 1, res.outcome.v, q);
                }
              }
          }
      }
    }
  }
  /** A layer appended after the others changes nothing for a request the
      others answer or leave hanging: `next` reaches the new layer only by
      running out of the old ones, which ends in `done`. */
  lemma {:induction false} ProceedAppend(r: RouterV, l: LayerV, parentUrl: string, verb: string, idx: nat, err: Value, q: Req)
    requires !Proceed(r, parentUrl, verb, idx, err, q).outcome.Done?
    ensures Proceed(RouterV(r.stack + [l]), parentUrl, verb, idx, err, q) == Proceed(r, parentUrl, verb, idx, err, q)
    decreases |r.stack| - idx
  {
    var r2 := RouterV(r.stack + [l]);
    var layerError := if err == RouteSentinel then Null else err;
    if layerError == RouterSentinel || idx >= |r.stack| {
    } else {
      assert r2.stack[idx] == r.stack[idx];
      if !LayerMatches(r.stack[idx], Pathname(q.url)) {
        ProceedAppend(r, l, parentUrl, verb, idx + 1, layerError, q);
      } else {
        match r.stack[idx].kind {
          case RouteLayer(rt) =>
            if HandlesMethod(rt, verb) {
              match Dispatch(rt, verb) {
                case Replied(_) =>
                case Finished(v) => ProceedAppend(r, l, parentUrl, verb, idx + 1, v, q);
              }
            }
          case Middleware(h) =>
            var removed := RemovedPrefix(r.stack[idx]);
            var s := Strip(q, parentUrl, removed);
            assert Proceed(r, parentUrl, verb, idx, err, q) == CallMiddleware(r, parentUrl, verb, idx, layerError, q);
            assert Proceed(r2, parentUrl, verb, idx, err, q) == CallMiddleware(r2, parentUrl, verb, idx, layerError, q);
            match h {
              case FnV(f) =>
                match (if Truthy(layerError) then HandleError(f, layerError) else HandleRequest(f)) {
                  case Sent(_) =>
                  case Next(v) =>
                    ProceedAppend(r, l, parentUrl, verb, idx + 1, v, Restore(s.req, parentUrl, removed, s.slashAdded));
                }
              case MountedV(sub) =>
                if Truthy(layerError) {
                  ProceedAppend(r, l, parentUrl, verb, idx + 1, layerError, Restore(s.req, parentUrl, removed, s.slashAdded));
                } else {
                  var res := Handle(sub, s.req, verb);
                  if res.outcome.Done? {
                    ProceedAppend(r, l, parentUrl, verb, idx + 1, res.outcome.v, Restore(res.req, parentUrl, removed, s.slashAdded));
                  }
                }
            }
        }
      }
    }
  }

  /** `use` and `route` append: a response the earlier layers send, or a
      request they leave hanging, stays as it was. */
  lemma HandleAppend(r: RouterV, l: LayerV, q: Req, verb: string)
    requires !Handle(r, q, verb).outcome.Done?
    ensures Handle(RouterV(r.stack + [l]), q, verb) == Handle(r, q, verb)
  {
    ProceedAppend(r, l, q.baseUrl, verb, 0, Undefined, q.(orginalUrl := if q.orginalUrl != "" then q.orginalUrl else q.url));
  }
}
