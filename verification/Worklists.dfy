/** What a depth-first worklist keeps while it gathers what can be reached. */
module Worklists {

  /** Whatever a visited key leads to is visited or waiting. */
  predicate Visited(keys: set<string>, next: string -> seq<string>, done: set<string>, stack: seq<string>)
  {
    && done <= keys
    && forall k, x | k in done && x in next(k) && x in keys :: x in done || x in stack
  }

  lemma VisitStarts(keys: set<string>, next: string -> seq<string>, entry: string)
    ensures Visited(keys, next, {}, [entry])
  {
  }

  lemma VisitSkips(keys: set<string>, next: string -> seq<string>, done: set<string>, rest: seq<string>, key: string)
    requires Visited(keys, next, done, rest + [key]) && (key in done || key !in keys)
    ensures Visited(keys, next, done, rest)
  {
    forall k, x | k in done && x in next(k) && x in keys ensures x in done || x in rest {
      assert x in done || x in rest + [key];
    }
  }

  lemma VisitAdds(keys: set<string>, next: string -> seq<string>, done: set<string>, rest: seq<string>, key: string)
    requires Visited(keys, next, done, rest + [key]) && key in keys
    ensures Visited(keys, next, done + {key}, rest + next(key))
  {
    forall k, x | k in done + {key} && x in next(k) && x in keys ensures x in done + {key} || x in rest + next(key) {
      if k in done { assert x in done || x in rest + [key]; }
    }
  }

  lemma VisitEnds(keys: set<string>, next: string -> seq<string>, done: set<string>, key: string, x: string)
    requires Visited(keys, next, done, []) && key in done && x in next(key) && x in keys
    ensures x in done
  {
    assert x in done || x in [];
  }
}
