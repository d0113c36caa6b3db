# expross request dispatch, modelled in Dafny

expross rebuilds the core of Express stage by stage. This project models the
request-dispatch engine of every stage:

- the first stage's flat route table (`day1`);
- the first-match routers with a fallback layer (`day2`, `project2`);
- the continuation routers in which any error aborts (`day3`, `project3`);
- the mature Router (`day4`), with its Layer (`day5`) and Route (`project4`);
- the application of `day6`, with its settings, engines, lazily created
  router and final handler.

The mature Router holds an ordered stack of layers. `handle` walks it through
a `next(err)` closure, as follows.

- A matched middleware layer's path is stripped from `req.url` and moved to
  `req.baseUrl`. Both are restored on the next call of `next`.
- A mounted sub-router is entered with the stripped request.
- A route layer is called only when its Route handles the request method.
- The sentinel `'route'` becomes "no error". The sentinel `'router'` ends the
  router with `done(null)`.

Each source file is one Dafny module. Objects whose fields the source updates
are classes: the request, the routers, routes and layers, and the applications.
The routers and routes have a `Model()` that reads them as a value. It is a
ghost function for the `day4` Router, whose `Model()` reaches into mounted
routers, and a plain function elsewhere. The `day6` application has
`RouterModel()`, its router's model or none. The `day1` application, the
`day5` Layer and the request are compared field by field. The value-level
functions (`Day4Router.Handle`, `Project4Route.Dispatch`, `Day3Router.Walk`, …)
specify the walks. Each imperative `HandleNow` / `DispatchNow` is proved to
compute exactly that function. In `day2`, `day3` and `project4` it is a loop.
In `day4` it is a loop over the stack whose calls of matched layers are
mutually recursive methods, so a mounted router's `HandleNow` runs inside its
parent's. The laws of each walk are lemmas about the function.

A handler is a datatype of behaviours: call `next(v)`, send a body, or throw.
It carries an explicit `isErrorHandler` flag in place of `fn.length === 4`.

The `layer.js` and `route.js` files that `day3`, `project2`, `project3` (Route
only) and `day4` require, and the router that `day6` requires, are not part of
this model. In their place the model uses the nearest stage that has them:

| files without their own | stand-in |
|---|---|
| `project2` layer and route | the `day2` Layer and Route |
| `day3` and `project3` route | the `project4` Route |
| `day3` layer | the `project3` Layer |
| `day4` layer | the `day5` Layer |
| `day4` route | the `project4` Route |
| `day6` router | the `day4` Router |

Files:

| file | models |
|---|---|
| `http.dfy` | JavaScript values, truthiness, lower-casing, the shared first-match scan, the request object |
| `day1_application.dfy` | `day1/lib/application.js` |
| `day2_layer.dfy`, `day2_route.dfy`, `day2_router.dfy` | `day2/lib/router/*.js` |
| `project2_router.dfy` | `project2/lib/router/index.js` |
| `project3_layer.dfy` | `project3/lib/router/layer.js` |
| `project4_route.dfy` | `project4/lib/router/route.js` |
| `day3_router.dfy` | `day3/lib/router/index.js` |
| `project3_router.dfy` | `project3/lib/router/index.js` |
| `day5_layer.dfy` | `day5/lib/router/layer.js` |
| `day4_router.dfy` | `day4/lib/router/index.js`: values, the walk as functions, the objects and the imperative `handle` |
| `day4_laws.dfy` | the laws of the `day4` walk |
| `day6_application.dfy` | `day6/lib/application.js` |
| `scenarios.dfy` | the example applications of `project4/test/index.js` and `day4/test/index.js` |

Where the code does something other than what its comments and the usual Express behaviour suggest, the model follows the code:

- `Day4Router.Call`: a route layer that matches but does not handle the
  method calls neither `next` nor `done`. The walk ends there (`Stalled`).
- `Day4Router.Call`: a matched route layer is called without the pending
  error. The error is dropped, not forwarded.
- `Day4Router.CallMiddleware`: when no error is pending, `day4` calls
  `handle_request` on every matched function middleware, error handlers
  included.
- `Scenarios.UserRouterServes`: inside a router mounted at `/user`, `GET /user`
  arrives with url `'/'` and base url `/user`.
- `Day5Layer.Matches`: a route layer matches by suffix, so in
  `Scenarios.BooksAppMatchesSuffix` `GET /a/books` is answered by the `/books`
  route.

## Model

| member | source | states |
|---|---|---|
| Http.Lower | day2/lib/router/route.js:11 | `toLowerCase` keeps the length, leaves no upper-case letter, and maps every letter to its lower-case form |
| Http.LowerOfLower | project4/lib/router/route.js:13 | lower-casing a lower-case name changes nothing, so the lower-cased names of `http.METHODS` are stored as they are |
| Http.ToStr | day6/lib/application.js:38 | `'404: ' + err` prints a string as itself and an `Error` as `Error: message` |
| Http.FirstWhere | day1/lib/application.js:36-41 | the first-match scan returns the first index from `i` that satisfies the test, with none before it; `None` means no index satisfies it |
| Http.FirstWhereIs | project2/lib/router/index.js:18-23 | an index that satisfies the test, with none before it, is what the scan returns |
| Http.FirstWhereAppend | day1/lib/application.js:15-21 | pushing an element never changes an existing first match; the new element is found only when nothing before it matches |
| Http.BodyOf | day1/lib/application.js:39 | `fn && fn(req, res)` sends exactly when there is a handler and it responds, and sends its body |
| Http.Truthy | day4/lib/router/index.js:94 | `if (err)`: `undefined`, `null` and the empty string are falsy, a non-empty string and an `Error` truthy; defines the test only |
| Http.Request.constructor | day4/lib/router/index.js:38-42 | a request starts with `baseUrl` and `orginalUrl` unset |
| Day1Application.App.constructor | day1/lib/application.js:3-10 | the table starts as the single catch-all entry `'*'`/`'*'` |
| Day1Application.App.Get | day1/lib/application.js:15-21 | `get` appends `{path, 'GET', fn}` and keeps the catch-all at index 0 |
| Day1Application.App.Dispatch | day1/lib/application.js:36-43 | the listener's loop calls the first accepting entry from index 1 on, or the catch-all, and sends what that handler sends |
| Day1Application.GetKeepsEarlierWinner | day1/lib/application.js:15-21 | a further `get` never takes a request from the entry that answers it; the catch-all loses a request only to the new entry, and only when the new entry accepts it |
| Day1Application.FreshTableAnswers404 | day1/lib/application.js:43 | with no route registered, every request goes to the catch-all, which sends `'404'` |
| Day1Application.Accepts | day1/lib/application.js:37-38 | an entry accepts a request when its path equals the url or is `'*'` and its method equals the request method or is `'*'`; defines the test only |
| Day1Application.Selected | day1/lib/application.js:36-43 | the index the listener calls: the first accepting entry from index 1 on, or 0; defines the choice only |
| Day2Layer.DefaultName | day2/lib/router/layer.js:3 | the name is `fn.name`, or `'<anonymous>'` when that is empty |
| Day2Layer.NewLayer | day2/lib/router/layer.js:1-5 | the new layer keeps the path and handler and takes the default name |
| Day2Layer.HandleRequest | day2/lib/router/layer.js:9-15 | the handler is called exactly when it is truthy |
| Day2Layer.MatchIsExactOrStar | day2/lib/router/layer.js:19-25 | the candidate `'*'` matches every layer; any other candidate matches exactly the layer with that path |
| Day2Layer.Match | day2/lib/router/layer.js:19-25 | `match(path)` as a predicate; defines the test only, stated by Day2Layer.MatchIsExactOrStar |
| Day2Route.Tags | day2/lib/router/route.js:16-24 | the tag set holds exactly the methods of the stack's layers |
| Day2Route.TagsAppend | day2/lib/router/route.js:18-21 | pushing a layer tagged `m` adds exactly `m` to the tags |
| Day2Route.HandlesMethod | day2/lib/router/route.js:10-13 | `_handles_method` on a route value; defines the test only, stated by Day2Route.HandlesMethodIffTagged |
| Day2Route.FirstTagged | day2/lib/router/route.js:31-35 | the index of the first layer tagged with the method, the loop's stopping point; defines the scan only |
| Day2Route.Dispatch | day2/lib/router/route.js:27-36 | `dispatch` on a route value: the body of the first layer for the lower-cased method, or nothing; defines the walk only |
| Day2Route.HandlesMethodIffTagged | day2/lib/router/route.js:10-13 | `_handles_method` holds exactly when some layer carries the lower-cased method; a method it does not handle gets no response |
| Day2Route.DispatchIgnoresCase | day2/lib/router/route.js:29 | dispatch and `_handles_method` give the same answer for a method and its lower-case form |
| Day2Route.GetAppends | day2/lib/router/route.js:16-24 | a second `get` appends: the layer that answered a method keeps answering it |
| Day2Route.Route.constructor | day2/lib/router/route.js:3-8 | a new route has an empty stack and no methods |
| Day2Route.Route.HandlesMethodNow | day2/lib/router/route.js:10-13 | the object's `_handles_method` agrees with the value-level predicate |
| Day2Route.Route.Get | day2/lib/router/route.js:16-24 | `get(fn)` appends one layer at `'/'` tagged `'get'`, adds `'get'` to `methods`, and keeps `methods` equal to the tags |
| Day2Route.Route.DispatchNow | day2/lib/router/route.js:27-36 | the dispatch loop sends what the first layer tagged with the lower-cased method sends, and nothing when there is none |
| Day2Router.SelectedIsFirstMatch | day2/lib/router/index.js:32-38 | `handle` calls the first matching layer after index 0, and the fallback exactly when no layer after it matches |
| Day2Router.MethodIgnoredInChoice | day2/lib/router/index.js:33-34 | the choice ignores the method: a route layer whose route lacks the method is still chosen, and then nothing is sent |
| Day2Router.Selected | day2/lib/router/index.js:32-38 | the index `handle` calls: the first matching layer after index 0, or 0; defines the choice only, stated by Day2Router.SelectedIsFirstMatch |
| Day2Router.Invoke | day2/lib/router/index.js:16-18 | calling one layer: its handler's body, a route layer's dispatch; defines the call only |
| Day2Router.Handle | day2/lib/router/index.js:29-39 | `handle` on a router value: `Invoke` of the `Selected` layer; defines the walk only |
| Day2Router.EntryModel | day2/lib/router/index.js:16-20 | a stack entry read as a value keeps its path and name |
| Day2Router.Router.constructor | day2/lib/router/index.js:4-11 | a new router holds exactly the `'*'` fallback layer answering `'404'` |
| Day2Router.Router.NewRoute | day2/lib/router/index.js:13-25 | `route(path)` returns a fresh empty Route and appends one layer at `path` whose handler dispatches to it and whose `route` is it |
| Day2Router.Router.Get | day2/lib/router/index.js:42-44 | `get(path, fn)` appends one plain layer with no route |
| Day2Router.Router.HandleNow | day2/lib/router/index.js:29-39 | the `handle` loop chooses the layer `Selected` names and sends what `Handle` says |
| Day2Router.InvokeEntry | day2/lib/router/index.js:16-18 | calling a layer runs its handler, and a route layer's closure dispatches to the route |
| Project2Router.FallbackOnlyWhenNothingEligible | project2/lib/router/index.js:18-26 | the fallback has no route, so it is chosen exactly when no layer is eligible; otherwise the first eligible layer is chosen |
| Project2Router.RegisteredGetAnswers | project2/lib/router/index.js:45-50 | a layer made by `get(path, fn)` answers a GET for `path` that no earlier layer takes, with `fn`'s body |
| Project2Router.Eligible | project2/lib/router/index.js:19-20 | a layer is eligible when it matches the url, has a route, and its route handles the method; defines the test only |
| Project2Router.Selected | project2/lib/router/index.js:18-26 | the index `handle` calls: the first eligible layer, or the fallback at 0; defines the choice only |
| Project2Router.Handle | project2/lib/router/index.js:14-27 | `handle` on a router value; defines the walk only, stated by Project2Router.FallbackOnlyWhenNothingEligible |
| Project2Router.Router.constructor | project2/lib/router/index.js:4-11 | a new router holds exactly the fallback layer |
| Project2Router.Router.NewRoute | project2/lib/router/index.js:30-42 | `route(path)` returns a fresh empty Route and appends one layer linked to it |
| Project2Router.Router.Get | project2/lib/router/index.js:45-50 | `get(path, fn)` appends one layer whose new Route holds one GET layer for `fn` |
| Project2Router.Router.HandleNow | project2/lib/router/index.js:14-27 | the loop calls the first layer that matches the url, has a route and handles the method, or the fallback |
| Project3Layer.Run | project3/lib/router/layer.js:29-33 | calling a handler inside `try` gives `next(v)` for both `next(v)` and a throw of `v`, and a send otherwise |
| Project3Layer.HandleError | project3/lib/router/layer.js:9-22 | a handler that is not an error handler is not called and the error goes to `next` untouched; an error handler is called |
| Project3Layer.HandleRequest | project3/lib/router/layer.js:26-34 | `handle_request`: the handler runs inside `try`; defines the call only, stated by Project3Layer.ThrowIsNext |
| Project3Layer.Match | project3/lib/router/layer.js:38-44 | `match(path)` as a predicate; defines the test only |
| Project3Layer.NewLayer | project3/lib/router/layer.js:1-5 | the layer keeps path and handler and takes the default name |
| Project3Layer.ThrowIsNext | project3/lib/router/layer.js:17-21 | a throw of `v` is `next(v)` in `handle_request`, and in `handle_error` when the handler is an error handler |
| Project3Layer.ErrorReachesOnlyErrorHandlers | project3/lib/router/layer.js:13-15 | anything other than passing the error on means the handler is an error handler, and such a handler's result does not depend on the error |
| Project4Route.Tags | project4/lib/router/route.js:20-28 | the tag set holds exactly the methods of the stack's layers |
| Project4Route.TagsAppend | project4/lib/router/route.js:22-25 | pushing a layer tagged `m` adds exactly `m` |
| Project4Route.HandlesMethod | project4/lib/router/route.js:12-15 | `_handles_method` on a route value; defines the test only, stated by Project4Route.HandlesMethodIffTagged |
| Project4Route.NextFrom | project4/lib/router/route.js:38-69 | one call of `next(err)` at index `idx`; defines the walk only |
| Project4Route.After | project4/lib/router/route.js:63-68 | what follows a visited layer: its body, or `next(v)`; defines the step only |
| Project4Route.Dispatch | project4/lib/router/route.js:33-72 | `dispatch` on a route value, with `next()` started at index 0 and the method lower-cased; defines the walk only, stated by the lemmas that follow |
| Project4Route.Visit | project4/lib/router/route.js:63-68 | a visited layer gets `handle_request` with no error pending, and `handle_error` with one, which skips a non-error handler |
| Project4Route.PassOver | project4/lib/router/route.js:57-60 | layers of another method, and non-error handlers while an error is pending, are passed over with the error kept |
| Project4Route.RouteSentinelConsumed | project4/lib/router/route.js:40-42 | `done` never receives `'route'` from a route, whatever its handlers do |
| Project4Route.SentinelsEndTheRoute | project4/lib/router/route.js:40-47 | a handler's `next('route')` ends the route with `done()`, and its `next('router')` with `done('router')` |
| Project4Route.NoLayerForMethod | project4/lib/router/route.js:51-53 | with no layer for the method, the route ends with `done(err)` for the error it started with, and `dispatch` with `done()` |
| Project4Route.HandlesMethodIffTagged | project4/lib/router/route.js:12-15 | `_handles_method` holds exactly when some layer carries the lower-cased method; otherwise dispatch ends with `done()` |
| Project4Route.FirstRegisteredRunsFirst | project4/lib/router/route.js:35-60 | the first layer registered for the method is the first handler called, with `handle_request` |
| Project4Route.ErrorReachesFirstErrorHandler | project4/lib/router/route.js:57-68 | a pending error reaches the first later error handler for the method, and every layer in between is passed over |
| Project4Route.AppendKeepsOutcome | project4/lib/router/route.js:24-25 | registering again appends: a response the earlier layers give is kept |
| Project4Route.Route.constructor | project4/lib/router/route.js:4-9 | a new route has an empty stack and no methods |
| Project4Route.Route.HandlesMethodNow | project4/lib/router/route.js:12-15 | the object's `_handles_method` agrees with the value-level predicate |
| Project4Route.Route.Register | project4/lib/router/route.js:20-28 | `route[verb](fn)` appends one layer at `'/'` tagged `verb`, adds `verb` to `methods`, and keeps `methods` equal to the tags |
| Project4Route.Route.DispatchNow | project4/lib/router/route.js:33-72 | the `next` loop returns what `Dispatch` says: `done`'s argument or the body sent |
| Day3Router.SkipUnselected | day3/lib/router/index.js:44-49 | layers that are not selected are skipped while no error is pending |
| Day3Router.FirstSelectedDispatches | day3/lib/router/index.js:41-49 | the first selected layer's route is dispatched to; with none selected, `done()` is called |
| Day3Router.ErrorAborts | day3/lib/router/index.js:37-39 | any real error ends the walk with `done(err)`; a route finishing with `'router'` gives `done(null)` |
| Day3Router.NoSentinelReachesDone | day3/lib/router/index.js:30-35 | `done` never receives `'route'` or `'router'` |
| Day3Router.Selects | day3/lib/router/index.js:44-45 | a layer is called when it matches the url, has a route, and the route handles the method; defines the test only |
| Day3Router.Walk | day3/lib/router/index.js:29-50 | one call of `next(err)` at index `idx`; defines the walk only |
| Day3Router.Resume | day3/lib/router/index.js:46 | the walk after a route's dispatch ends with `done(v)` or a body; defines the step only |
| Day3Router.Handle | day3/lib/router/index.js:24-53 | `handle` on a router value, `next()` started at index 0; defines the walk only, stated by Day3Router.FirstSelectedDispatches and Day3Router.ErrorAborts |
| Day3Router.LayerModel | day3/lib/router/index.js:13-15 | a router layer as a value keeps path and name and carries its route's value |
| Day3Router.Router.constructor | day3/lib/router/index.js:5-7 | a new router has an empty stack |
| Day3Router.Router.NewRoute | day3/lib/router/index.js:9-20 | `route(path)` returns a fresh empty Route and appends exactly one layer linked to it |
| Day3Router.Router.Register | day3/lib/router/index.js:56-64 | `router[verb](path, fn)` appends one layer whose new Route holds one layer for `verb` |
| Day3Router.Router.HandleNow | day3/lib/router/index.js:24-53 | the `next` loop ends as `Handle` says |
| Project3Router.HandleErrorOnRouteLayer | project3/lib/router/index.js:35-37 | an unselected route layer passes the error on, since a bound `dispatch` is not an error handler |
| Project3Router.Router.constructor | project3/lib/router/index.js:5-7 | a new router has an empty stack |
| Project3Router.Router.NewRoute | project3/lib/router/index.js:44-54 | `route(path)` returns a fresh empty Route and appends exactly one layer linked to it |
| Project3Router.Router.Register | project3/lib/router/index.js:57-65 | `router[verb](path, fn)` appends one layer whose new Route holds one layer for `verb` |
| Project3Router.Router.HandleNow | project3/lib/router/index.js:10-41 | the walk, with unselected layers sent through `handle_error`, ends as the day-3 `Handle` says |
| Day5Layer.SliceFromEnd | day5/lib/router/layer.js:52 | `path.slice(-n)` is the last `n` characters, or the whole string for `n` of 0 or beyond the length |
| Day5Layer.SliceTo | day5/lib/router/layer.js:64 | `path.slice(0, n)` is the first `n` characters, or the whole string |
| Day5Layer.Matches | day5/lib/router/layer.js:43-70 | `'*'` matches everything; a route layer matches a candidate that ends with its path; a middleware layer at `'/'` matches everything, and any other middleware layer a candidate that starts with its path (no segment check) |
| Day5Layer.Rewritten | day5/lib/router/layer.js:46-61 | after a match, `this.path` is `''` for `'*'` and for a middleware layer at `'/'`, and unchanged otherwise |
| Day5Layer.RewriteInvisible | day5/lib/router/layer.js:58-66 | the rewritten layer matches exactly what the original matches, and rewriting again changes nothing |
| Day5Layer.PrefixAndSuffixRules | day5/lib/router/layer.js:52-66 | `'/users'` as a route matches `/a/users` and not `/users/1`, and as a middleware the reverse; `'/user'` as a middleware matches `/users` |
| Day5Layer.Layer.constructor | day5/lib/router/layer.js:1-11 | `'*'` sets `fast_star` and leaves `path` undefined; any other path is kept; the name defaults to `'<anonymous>'` |
| Day5Layer.Layer.Match | day5/lib/router/layer.js:43-70 | `match` answers `Matches` and rewrites `this.path` exactly as `Rewritten` says and only on success |
| Day4Router.Pathname | day4/lib/router/index.js:72 | the pathname is the longest prefix of the url with no `?` or `#` |
| Day4Router.Substr | day4/lib/router/index.js:84 | `url.substr(n)` drops the first `n` characters |
| Day4Router.RemovedPrefix | day4/lib/router/index.js:81 | the removed part is `''` for `'*'` and `'/'`, and the layer's path otherwise |
| Day4Router.Strip | day4/lib/router/index.js:81-91 | a matched middleware sets `baseUrl` to `parentUrl + path`, and sets `url` to the rest of the url, or `'/'` (noting the added slash) when the rest is empty |
| Day4Router.Restore | day4/lib/router/index.js:49-59 | the next `next` undoes an added slash and puts back the removed prefix and the parent's `baseUrl` |
| Day4Router.StripRestore | day4/lib/router/index.js:49-91 | strip then restore gives back the request when the removed part was a prefix of the url |
| Day4Router.RemovedIsPrefix | day4/lib/router/index.js:76-81 | a middleware layer that matched the pathname removes a prefix of the url |
| Day4Router.LayerMatches | day4/lib/router/index.js:76 | `layer.match(path)` on a layer value, by Day5Layer.Matches; defines the test only |
| Day4Router.Handle | day4/lib/router/index.js:31-109 | `handle` on a router value: `orginalUrl` set and `next()` started at index 0; defines the walk only, stated by the Day4Laws lemmas |
| Day4Router.Proceed | day4/lib/router/index.js:45-106 | one call of `next(err)` at index `idx`, after the restoration; defines the walk only |
| Day4Router.Call | day4/lib/router/index.js:79-102 | a matched layer: the route branch and the middleware branch; defines the step only |
| Day4Router.CallMiddleware | day4/lib/router/index.js:79-97 | a matched middleware layer on the stripped request, a mounted router entered by its own `Handle`; defines the step only |
| Day4Router.StartNow | day4/lib/router/index.js:38-42 | `handle` keeps `baseUrl` and sets `orginalUrl` once, to the url the request arrived with |
| Day4Router.RestoreNow | day4/lib/router/index.js:49-59 | the restoration at the top of `next`, applied to the request object, is `Restore` |
| Day4Router.StripNow | day4/lib/router/index.js:81-91 | the stripping, applied to the request object, is `Strip` |
| Day4Router.Router.constructor | day4/lib/router/index.js:5-14 | `proto()` gives a router with an empty stack |
| Day4Router.Router.PushRoute | day4/lib/router/index.js:21-25 | one layer is appended whose handler is the route's bound `dispatch` and whose `route` is the route; earlier layers are unchanged |
| Day4Router.Router.NewRoute | day4/lib/router/index.js:17-28 | `route(path)` returns a fresh empty Route and appends exactly one layer linked to it |
| Day4Router.Router.Use | day4/lib/router/index.js:111-126 | `use(fn)` mounts at `'/'`, `use(path, fn)` at `path`; exactly one layer with no route is appended; with no handler `new Layer` throws and nothing changes |
| Day4Router.UseLayer | day4/lib/router/index.js:120-121 | the appended layer has the default name (`'router'` for a mounted router), the `fast_star` path, and the function or mounted router as its handler |
| Day4Router.Router.PushLayer | day4/lib/router/index.js:120-123 | one middleware layer is appended and earlier layers are unchanged |
| Day4Router.Router.Register | day4/lib/router/index.js:128-136 | `router[verb](path, fn)` appends one route layer whose new Route holds one layer for `verb`, so the same path twice gives two layers |
| Day4Router.Router.HandleNow | day4/lib/router/index.js:31-109 | the `next` loop ends as `Handle` says, with the request's fields at that moment |
| Day4Router.Router.NextNow | day4/lib/router/index.js:45-106 | one call of `next`: a sentinel or an exhausted stack ends the walk, and otherwise the walk goes on at `idx + 1` exactly as `Proceed` says |
| Day4Router.Router.MatchesAt | day4/lib/router/index.js:76 | the object layer's `match` agrees with the value layer's |
| Day4Router.Router.CallNow | day4/lib/router/index.js:79-102 | a matched route layer or middleware layer is called as `Call` says |
| Day4Router.Router.CallMiddlewareNow | day4/lib/router/index.js:79-97 | a matched middleware layer is called on the stripped request as `CallMiddleware` says |
| Day4Router.Router.MountNow | day4/lib/router/index.js:6-8 | a mounted router's function is its own `handle`, and the parent router is left unchanged |
| Day4Laws.SkipUnmatched | day4/lib/router/index.js:103-105 | layers that do not match the pathname are passed over with the error kept |
| Day4Laws.ContinueAfter | day4/lib/router/index.js:94-97 | a matched middleware that calls `next(v)` or throws `v` hands `v` to the next layer, with the request restored |
| Day4Laws.MountSkippedOnError | day4/lib/router/index.js:94-95 | a mounted router is not entered while an error is pending; the error goes to the following layer and the request comes back restored |
| Day4Laws.ErrorPassesOver | day4/lib/router/index.js:94-105 | a pending error passes over every middleware layer that is not an error handler, matched or not |
| Day4Laws.MiddlewareRuns | day4/lib/router/index.js:94-97 | a matched function middleware that runs ends `handle` with its body, or goes on with the `v` it passes to `next` or throws |
| Day4Laws.RouteLayerDropsError | day4/lib/router/index.js:99-102 | a matched route layer ignores the pending error; a route that lacks the method ends the walk there; `'router'` from the route gives `done(null)` |
| Day4Laws.MountEntered | day4/lib/router/index.js:79-97 | with no error pending, a mounted router is entered with the mount path moved to `baseUrl`; its `done(v)` goes on with `v` and the request as before the mount |
| Day4Laws.NoSentinelInDone | day4/lib/router/index.js:46-64 | `done` never receives `'route'` or `'router'` |
| Day4Laws.HandleNoSentinel | day4/lib/router/index.js:62-64 | `handle` reaches `done` with neither sentinel; `'router'` ends only the innermost router |
| Day4Laws.HandleKeeps | day4/lib/router/index.js:38-59 | `orginalUrl` is set once and kept; when `done` is reached, `url` and `baseUrl` are as they were |
| Day4Laws.ProceedKeeps | day4/lib/router/index.js:45-106 | from any step of the walk, `orginalUrl` is kept, and `done` sees the request as it was at that step |
| Day4Laws.ProceedAppend | day4/lib/router/index.js:67-69 | a layer appended to the stack changes no step of the walk that ends other than in `done`: `next` reaches it only by exhausting the old stack |
| Day4Laws.HandleAppend | day4/lib/router/index.js:111-136 | `use` and `route` append, so a request the earlier layers answer or leave hanging is handled as before |
| Day6Application.FinalMessage | day6/lib/application.js:32-43 | the final handler writes `'404: ' + err` for a truthy error and `'Cannot ' + method + ' ' + url` otherwise |
| Day6Application.NotFoundNamesRequestUrl | day6/lib/application.js:47-52 | with no router, the answer is `Cannot <method> <url>`; with one, a 404 names the url the request arrived with and never a sentinel |
| Day6Application.Answer | day6/lib/application.js:30-53 | what the client receives from `handle`; defines the answer only, stated by Day6Application.NotFoundNamesRequestUrl |
| Day6Application.AppendKeepsAnswer | day6/lib/application.js:78-110 | a layer that `use` or a verb appends leaves every body sent, and every hanging request, as it was |
| Day6Application.Extension | day6/lib/application.js:57-59 | the engine key starts with `'.'`: `ext` itself when it has one, `'.' + ext` otherwise |
| Day6Application.ExtensionSameKey | day6/lib/application.js:55-65 | `'ntl'` and `'.ntl'` give the same key, and a key maps to itself |
| Day6Application.Lookup | day6/lib/application.js:69-70 | `this.settings[setting]`, `undefined` when absent; stated by Day6Application.SetThenGet |
| Day6Application.SetThenGet | day6/lib/application.js:67-75 | after `set(k, v)`, `set(k)` returns `v`, and every other setting is unchanged |
| Day6Application.UsePath | day6/lib/application.js:79-90 | the mount path of `use`: `'/'` when the first argument is the function; defines the choice only |
| Day6Application.UseHandler | day6/lib/application.js:79-90 | the handler of `use`: the first argument when it is a function, the second otherwise; defines the choice only |
| Day6Application.Application.constructor | day6/lib/application.js:6-9 | a new application has no settings, no engines and no router |
| Day6Application.Application.LazyRouter | day6/lib/application.js:11-17 | the router is created only when unset, with the init middleware as its only layer, and later calls leave it unchanged |
| Day6Application.Application.LazyStack | day6/lib/application.js:11-17 | the router's layers once `lazyrouter()` has run: `[init]` for a new router, the router's model otherwise |
| Day6Application.Application.HandleNow | day6/lib/application.js:30-53 | `handle` answers as `Answer` says: the router's outcome with the final handler as `done`, or `done()` when there is no router |
| Day6Application.Application.SetEngine | day6/lib/application.js:55-65 | `engine(ext, fn)` stores `fn` under the normalised extension and changes nothing else |
| Day6Application.Application.Setting | day6/lib/application.js:68-71 | `set(k)` returns the stored value, and `undefined` when none is stored |
| Day6Application.Application.Set | day6/lib/application.js:73-74 | `set(k, v)` stores `v` under `k` |
| Day6Application.Application.Use | day6/lib/application.js:78-95 | `use(fn)` mounts at `'/'` and `use(path, fn)` at `path`; the router is the existing one or a new one holding the init layer, and its new model is that stack plus exactly the layer `router.use` appends; with no handler it throws and the model is that stack |
| Day6Application.Application.UseOnRouter | day6/lib/application.js:92 | on the same router, `use(path, fn)` gives the old model plus exactly the layer for `fn` at `path`; with no handler, the model is unchanged |
| Day6Application.Application.Verb | day6/lib/application.js:97-110 | `get(k)` with one argument is the settings getter and leaves the router, its model and `Repr` as they were; otherwise the router is the existing one or a new one holding the init layer, and its new model is that stack plus exactly one route layer named `'bound '` for `verb` and `fn` |
| Scenarios.PastFirst | day4/test/index.js:6-9 | a first middleware at `'/'` that calls `next()` hands a request arriving at the application to the second layer |
| Scenarios.SkipLayer | day4/lib/router/index.js:103-105 | one layer that does not match is passed over |
| Scenarios.SenderRouteReplies | project4/test/index.js:6-8 | the route made by `get(path, fn)`, with an `fn` that sends a body, answers `GET` with that body |
| Scenarios.RouteAnswers | day4/lib/router/index.js:99-102 | such a route layer, once matched, answers `GET` with its body whatever error is pending |
| Scenarios.EnterMount | day4/lib/router/index.js:79-97 | a mount at `path`, entered at the top of an application with a url starting with `path`, answers as the sub-router does on the rest of the url |
| Scenarios.RoutesMissUsers | project4/test/index.js:6-12 | neither the `/` route nor the `/books` route matches `/users/2` |
| Scenarios.BooksAppReachesMount | project4/test/index.js:6-22 | `GET /users/2` passes the init layer and both routes and reaches the mount |
| Scenarios.BooksAppEntersMount | project4/test/index.js:22 | at the mount, `GET /users/2` is handled by the sub-router with url `/2` and base url `/users` |
| Scenarios.UsersServesSecond | project4/test/index.js:14-20 | the sub-router skips `use('/1', ...)` for `/2` and answers `second user` |
| Scenarios.BooksAppServesMount | project4/test/index.js:6-22 | `GET /users/2` is answered `second user` |
| Scenarios.BooksAppMatchesSuffix | project4/test/index.js:10-12 | `GET /a/books` is answered by the `/books` route, because route layers match by suffix |
| Scenarios.UserRouterServes | day4/test/index.js:16-23 | inside the mount, the emptied url is `'/'`; the logger passes it on and `use('/', ...)` answers `second` |
| Scenarios.LoggingAppServesMount | day4/test/index.js:6-25 | `GET /user` passes the route at `/` and is answered `second` inside the mount |
| Scenarios.LoggingAppRootBySuffix | day4/test/index.js:11-13 | `GET /user/` ends in `'/'`, so the route at `/` answers `first` before the mount is reached |
| Scenarios.AnswerBody | day6/lib/application.js:47-50 | a request the router answers gives the client the handler's body |
| Scenarios.AnswerDone | day6/lib/application.js:32-49 | a request the router passes to `done` gives the final handler's message for the url then in the request |
| Scenarios.BooksAppBody | project4/test/index.js:18-22 | the client of the books application receives `second user` for `GET /users/2` |
| Scenarios.NothingMatches | project4/test/index.js:6-22 | no layer after the init layer matches `/nothing` |
| Scenarios.BooksAppMissesAll | project4/test/index.js:6-22 | `GET /nothing` reaches `done()` with the request as it arrived |
| Scenarios.BooksAppNotFound | day6/lib/application.js:40 | the client receives the final handler's "Cannot" message for `GET /nothing`: by `FinalMessage`, `Cannot GET /nothing` |
| Scenarios.BuildBooksApp | project4/test/index.js:1-22 | the test's registrations on a `day6` application give exactly the router value `BooksApp` |
| Scenarios.BooksRoutes | project4/test/index.js:6-12 | `app.get('/')` and `app.get('/books')` give the init layer and the two route layers |
| Scenarios.UsersRoutes | project4/test/index.js:14-20 | `router.use('/1')` and `router.use('/2')` give exactly the router value `Users` |
| Scenarios.ServeSecondUser | project4/test/index.js:18-22 | the built application's `handle` answers `GET /users/2` with `second user` |
| Scenarios.BuildLoggingApp | day4/test/index.js:1-25 | the test's registrations on a `day4` Router give exactly the router value `LoggingApp` |
| Scenarios.LoggingRoutes | day4/test/index.js:6-13 | `use(logger)` and `get('/')` give the logger layer and the route layer |
| Scenarios.UserRoutes | day4/test/index.js:16-23 | `router.use(logger)` and `router.use('/', ...)` give exactly the router value `UserRouter` |

## Left out

- Sockets, `listen`, `res.writeHead`/`res.end` and the `send` helpers are I/O. A response is modelled only as the body sent.
- `render` and the views are left out: they do file-system lookup and load template engines dynamically.
- The init middleware rewires prototypes (`Object.setPrototypeOf`). It is modelled as a middleware that calls `next()`.
- Asynchronous `next` and a handler calling `next` twice are left out. Each handler is modelled as doing one thing synchronously: call `next(v)`, send a body, or throw.
- A handler's action does not depend on the request or on the error it receives.
- Day4Router.Pathname covers path-form urls only, everything before `?` or `#`. `url.parse` of an absolute url is not modelled.
- Day4Router.Pathname gives `""` where `url.parse` gives a `null` pathname: for a url that starts with `?` or `#`. Such a url reaches a mounted router when the mount path is followed directly by a query. For example, `GET /users?page=2` at a mount on `/users` leaves `?page=2`. In the source, `match` then throws a `TypeError` at the first route layer or path middleware of the sub-router, because it calls `slice` on `null`. The mount's `handle_request` catches it, and the parent goes on with that error, so the client gets a `404` naming the `TypeError`. The model matches `""` instead and does not produce that error.
- Values are modelled as `undefined`, `null`, strings and `Error` objects. Numbers, booleans and other objects passed to `next` are left out.
- Keys such as `__proto__` in `settings`, `engines` and `methods` are ordinary map keys here.
- `fn.length === 4` is modelled as the flag `isErrorHandler`.
- `http.METHODS` is modelled as a fixed set of lower-case names.
- Day4Router.Router.Use: its requires exclude a route's bound `dispatch` as the handler. They also require a mounted router to be valid and not to contain the router it is mounted on.
- A mounted router is read through its value when it is mounted. Layers added to it afterwards are left out: `Use`'s contract describes the layer as it is at the call.
- Day4Router.Router.Register: the source registers the handler on the new Route after the Route's layer is pushed. The model registers it first; the final state is the same.
- Day4Router.Handle: during `handle`, `layer.match` rewrites `this.path` to `''` for `'*'` and `'/'`. The walk uses the unrewritten path; Day5Layer.RewriteInvisible proves this changes no answer. The object layers' `path` fields are therefore not rewritten by `HandleNow`.
- Day6Application.Application.Verb: its requires exclude a one-argument call of any verb other than `get`. Such a call registers `undefined` through the Route, which throws in `new Layer`.
- Day6Application.Application.Use: its requires exclude a bound `dispatch` as the handler. They also require a mounted router to be valid and disjoint from the application.
- The `day4` application file (`day4/lib/application.js`) is not part of this model. Scenarios.LoggingAppServesMount and Scenarios.LoggingAppRootBySuffix are therefore stated on a router value built as the `day4` test builds it, without an init layer.
- The books scenarios are stated on the router value `Scenarios.BooksApp`. Scenarios.BuildBooksApp runs the `project4` test's registrations on a `day6` application and proves that its router is that value. Scenarios.BuildLoggingApp does the same for `Scenarios.LoggingApp` on a `day4` Router.
- `day4/lib/expross.js`, `project3/lib/application.js` and `project5/lib/application.js` are left out. They are factory wrappers and HTTP glue; their non-I/O logic is the `day6` application's.
- Day2Layer.HandleRequest: a handler that throws is not modelled; nothing in `day2` catches it.
- Day1Application.App.Dispatch: a handler that throws is not modelled. Nothing in `day1/lib/application.js:39` catches it, so it escapes the request listener.
- Day2Router.Router.Get and Project2Router.Router.Get: a handler of `None` stands for a falsy value that has a `name` to read. `get(path)` with no handler passes `undefined`, and `new Layer` throws reading `fn.name` (`day2/lib/router/layer.js:3`). That throw is not modelled. In `project2` it would come after the route layer was pushed.
