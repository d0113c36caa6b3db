/** The first stage: the application object owns a module-level table of
    `{path, method, handle}` entries whose entry 0 is a catch-all answering
    `'404'`; `get` appends to it and the request listener scans it. */
module Day1Application {
  import opened Http

  datatype Entry = Entry(path: string, verb: string, handle: Option<Reply>)

  /** The entry the table starts with: path `'*'`, method `'*'`, a handler
      answering `'404'`. */
  const CatchAll: Entry := Entry("*", "*", Some(Send("404")))

  /** The listener's test for entry `e`: the path is the request's url or `'*'`
      and the method is the request's method or `'*'` (both compared exactly). */
  predicate Accepts(e: Entry, url: string, verb: string) {
    (url == e.path || e.path == "*") && (verb == e.verb || e.verb == "*")
  }

  /** The entry the listener calls: the first accepting entry from index 1 on,
      or the catch-all at index 0, which the loop never tests. */
  function Selected(table: seq<Entry>, url: string, verb: string): nat {
    match FirstWhere(table, e => Accepts(e, url, verb), 1)
    case Some(k) => k
    case None => 0
  }

  /** The module-level table and the two exported operations. */
  class App {
    var table: seq<Entry>

    ghost predicate Valid()
      reads this
    {
      |table| >= 1 && table[0] == CatchAll
    }

    constructor ()
      ensures Valid() && table == [CatchAll]
    {
      table := [CatchAll];
    }

    /** `get(path, fn)`: push `{path, method: 'GET', handle: fn}`. */
    method Get(path: string, fn: Option<Reply>)
      requires Valid()
      modifies this
      ensures Valid()
      ensures table == old(table) + [Entry(path, "GET", fn)]
    {
      table := table + [Entry(path, "GET", fn)];
    }

    /** The request listener's dispatch: returns the index of the entry it
        calls and the body that entry's handler sends. */
    method Dispatch(req: Request) returns (k: nat, sent: Option<string>)
      requires Valid()
      ensures k < |table| && k == Selected(table, req.url, req.httpMethod)
      ensures sent == BodyOf(table[k].handle)
    {
      var i := 1;
      while i < |table|
        invariant 1 <= i <= |table|
        invariant forall j :: 1 <= j < i ==> !Accepts(table[j], req.url, req.httpMethod)
      {
        if (req.url == table[i].path || table[i].path == "*") &&
           (req.httpMethod == table[i].verb || table[i].verb == "*") {
          return i, BodyOf(table[i].handle);
        }
        i := i + 1;
      }
      return 0, BodyOf(table[0].handle);
    }
  }

  /** Registering a further entry never takes a request away from the entry
      that already answers it; the catch-all loses a request only to the new
      entry. */
  lemma GetKeepsEarlierWinner(table: seq<Entry>, e: Entry, url: string, verb: string)
    requires |table| >= 1
    ensures Selected(table, url, verb) != 0 ==> Selected(table + [e], url, verb) == Selected(table, url, verb)
    ensures Selected(table, url, verb) == 0 ==>
              Selected(table + [e], url, verb) == if Accepts(e, url, verb) then |table| else 0
  {
    FirstWhereAppend(table, e, e' => Accepts(e', url, verb), 1);
  }

  /** With only the catch-all registered, every request is answered `'404'`. */
  lemma FreshTableAnswers404(url: string, verb: string)
    ensures Selected([CatchAll], url, verb) == 0
    ensures BodyOf([CatchAll][0].handle) == Some("404")
  {
  }
}
