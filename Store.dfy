/** The profile results the middleware keeps (`_result_by_id` and
    `_results_by_path`), how a finished request is committed to them, and how
    the viewer's query selects from them (`_get_results_by_request`). */
module Store {
  import opened Text

  /** The statistics cProfile gathered for one request; never looked into here. */
  type ProfileStats

  /** `PersistentProfileResult`: a snapshot of one request's statistics. Its
      setter ignores writes, `create_stats` does nothing and reads hand out a
      deep copy, so it behaves as an immutable value. */
  datatype ProfileResult = ProfileResult(stats: ProfileStats)

  /** The exceptions a handler raises or passes on. */
  datatype Error =
    | AppError(message: string)   // raised by the wrapped application
    | KeyError(key: string)       // an unknown `request_id` or sort order
    | ValueError(text: string)    // a threshold `float()` cannot read

  /** The two dictionaries of the middleware. Python 3.7 dictionaries iterate
      in insertion order; `pathOrder` is that order for `resultsByPath`. */
  datatype Tables = Tables(
    resultById: map<string, ProfileResult>,
    pathOrder: seq<string>,
    resultsByPath: map<string, seq<ProfileResult>>)

  predicate NoDuplicates(s: seq<string>)
  {
    forall i, j :: 0 <= i < j < |s| ==> s[i] != s[j]
  }

  /** Every result kept by id is also in the list of some path. */
  ghost predicate Indexed(t: Tables)
  {
    forall id :: id in t.resultById ==>
      exists p :: p in t.resultsByPath && t.resultById[id] in t.resultsByPath[p]
  }

  /** `pathOrder` lists every key of `resultsByPath` exactly once, and every
      result kept by id is also kept under its path. */
  ghost predicate WellFormed(t: Tables)
  {
    && (forall p :: p in t.pathOrder <==> p in t.resultsByPath)
    && NoDuplicates(t.pathOrder)
    && Indexed(t)
  }

  /** The dictionaries of a new middleware. */
  const Empty: Tables := Tables(map[], [], map[])

  lemma EmptyWellFormed()
    ensures WellFormed(Empty)
  {
  }

  // ---------------------------------------------------------------------------
  // The commit in `finally`
  // ---------------------------------------------------------------------------

  /** `_result_by_id[id] = result` and
      `_results_by_path.setdefault(path, []).append(result)`. */
  function Commit(t: Tables, path: string, id: string, result: ProfileResult): (u: Tables)
    ensures WellFormed(t) ==> WellFormed(u)
  {
    var u :=
      if path in t.resultsByPath then
        Tables(t.resultById[id := result], t.pathOrder,
               t.resultsByPath[path := t.resultsByPath[path] + [result]])
      else
        Tables(t.resultById[id := result], t.pathOrder + [path],
               t.resultsByPath[path := [result]]);
    CommitIndexed(t, u, path, id, result);
    u
  }

  /** Filing a result under its id and at the end of its path's list, and
      leaving the other lists alone, keeps every result filed under a path. */
  lemma CommitIndexed(t: Tables, u: Tables, path: string, id: string, result: ProfileResult)
    requires u.resultById == t.resultById[id := result]
    requires path in u.resultsByPath && result in u.resultsByPath[path]
    requires path in t.resultsByPath ==> u.resultsByPath[path] == t.resultsByPath[path] + [result]
    requires forall p :: p in t.resultsByPath && p != path ==>
               p in u.resultsByPath && u.resultsByPath[p] == t.resultsByPath[p]
    ensures Indexed(t) ==> Indexed(u)
  {
    if Indexed(t) {
      forall i | i in u.resultById
        ensures exists p :: p in u.resultsByPath && u.resultById[i] in u.resultsByPath[p]
      {
        if i == id {
          assert u.resultById[i] in u.resultsByPath[path];
        } else {
          var p :| p in t.resultsByPath && t.resultById[i] in t.resultsByPath[p];
          assert u.resultById[i] in u.resultsByPath[p];
        }
      }
    }
  }

  // ---------------------------------------------------------------------------
  // _get_results_by_request
  // ---------------------------------------------------------------------------

  const RequestIdKey: string := "request_id"
  const PathPrefixKey: string := "request_path_prefix"

  /** `params.get(key, '')`. */
  function Param(params: map<string, string>, key: string): string
  {
    if key in params then params[key] else ""
  }

  /** The result lists of the paths of `order` that start with `prefix`,
      one after the other in the order of `order`. */
  function Collect(order: seq<string>, byPath: map<string, seq<ProfileResult>>, prefix: string): seq<ProfileResult>
    requires forall p :: p in order ==> p in byPath
  {
    if order == [] then []
    else
      var last := order[|order| - 1];
      Collect(order[..|order| - 1], byPath, prefix) + (if StartsWith(last, prefix) then byPath[last] else [])
  }

  /** `_get_results_by_request`: the one result with a non-empty
      `request_id` (a `KeyError` if there is none), otherwise the results of
      every path starting with `request_path_prefix`. */
  function Lookup(t: Tables, params: map<string, string>): Result<seq<ProfileResult>, Error>
    requires WellFormed(t)
  {
    var requestId := Param(params, RequestIdKey);
    if requestId != "" then
      if requestId in t.resultById then Success([t.resultById[requestId]])
      else Failure(KeyError(requestId))
    else Success(Collect(t.pathOrder, t.resultsByPath, Param(params, PathPrefixKey)))
  }

  // ---------------------------------------------------------------------------
  // Properties of the query
  // ---------------------------------------------------------------------------

  /** Every result list of `order`, one after the other. */
  function All(order: seq<string>, byPath: map<string, seq<ProfileResult>>): seq<ProfileResult>
    requires forall p :: p in order ==> p in byPath
  {
    if order == [] then [] else byPath[order[0]] + All(order[1..], byPath)
  }

  /** A result is collected exactly when it was recorded for a path that
      starts with the prefix. */
  lemma {:induction false} CollectMembers(order: seq<string>, byPath: map<string, seq<ProfileResult>>, prefix: string, x: ProfileResult)
    requires forall p :: p in order ==> p in byPath
    ensures x in Collect(order, byPath, prefix) <==>
              exists p :: p in order && StartsWith(p, prefix) && x in byPath[p]
    decreases |order|
  {
    if order != [] {
      var init, last := order[..|order| - 1], order[|order| - 1];
      assert forall p :: p in order <==> p in init || p == last;
      CollectMembers(init, byPath, prefix, x);
    }
  }

  lemma {:induction false} AllSnoc(order: seq<string>, byPath: map<string, seq<ProfileResult>>)
    requires order != [] && forall p :: p in order ==> p in byPath
    ensures All(order, byPath) == All(order[..|order| - 1], byPath) + byPath[order[|order| - 1]]
    decreases |order|
  {
    if |order| == 1 {
      assert order[..0] == [];
      assert All(order[1..], byPath) == [];
    } else {
      var tail := order[1..];
      AllSnoc(tail, byPath);
      assert tail[..|tail| - 1] == order[..|order| - 1][1..];
      assert order[..|order| - 1][0] == order[0];
    }
  }

  /** The default empty prefix selects every result list, in path order. */
  lemma {:induction false} CollectEmptyPrefix(order: seq<string>, byPath: map<string, seq<ProfileResult>>)
    requires forall p :: p in order ==> p in byPath
    ensures Collect(order, byPath, "") == All(order, byPath)
    decreases |order|
  {
    if order != [] {
      CollectEmptyPrefix(order[..|order| - 1], byPath);
      AllSnoc(order, byPath);
      assert StartsWith(order[|order| - 1], "");
    }
  }

  /** Collecting only looks at the lists of the paths it is given. */
  lemma {:induction false} CollectFrame(order: seq<string>, a: map<string, seq<ProfileResult>>, b: map<string, seq<ProfileResult>>, prefix: string)
    requires forall p :: p in order ==> p in a && p in b && a[p] == b[p]
    ensures Collect(order, a, prefix) == Collect(order, b, prefix)
    decreases |order|
  {
    if order != [] {
      CollectFrame(order[..|order| - 1], a, b, prefix);
    }
  }

  /** Appending to the list of one path (listed once) adds the new results
      to the collection exactly when that path matches the prefix. */
  lemma {:induction false} CollectAppend(order: seq<string>, byPath: map<string, seq<ProfileResult>>, path: string, extra: seq<ProfileResult>, prefix: string)
    requires forall p :: p in order ==> p in byPath
    requires NoDuplicates(order) && path in byPath
    ensures multiset(Collect(order, byPath[path := byPath[path] + extra], prefix))
            == multiset(Collect(order, byPath, prefix))
               + (if path in order && StartsWith(path, prefix) then multiset(extra) else multiset{})
    decreases |order|
  {
    var updated := byPath[path := byPath[path] + extra];
    if order != [] {
      var init, last := order[..|order| - 1], order[|order| - 1];
      assert forall p :: p in order <==> p in init || p == last;
      assert path == last ==> path !in init;
      CollectAppend(init, byPath, path, extra, prefix);
      var blockOld := if StartsWith(last, prefix) then byPath[last] else [];
      var blockNew := if StartsWith(last, prefix) then updated[last] else [];
      assert Collect(order, updated, prefix) == Collect(init, updated, prefix) + blockNew;
      assert Collect(order, byPath, prefix) == Collect(init, byPath, prefix) + blockOld;
      assert multiset(blockNew) == multiset(blockOld)
             + (if path == last && StartsWith(path, prefix) then multiset(extra) else multiset{});
      MultisetConcat(Collect(init, byPath, prefix), Collect(init, updated, prefix), blockOld, blockNew,
        if path in init && StartsWith(path, prefix) then multiset(extra) else multiset{},
        if path == last && StartsWith(path, prefix) then multiset(extra) else multiset{});
    }
  }

  lemma MultisetConcat(a: seq<ProfileResult>, a': seq<ProfileResult>, b: seq<ProfileResult>, b': seq<ProfileResult>,
                       x: multiset<ProfileResult>, y: multiset<ProfileResult>)
    requires multiset(a') == multiset(a) + x && multiset(b') == multiset(b) + y
    ensures multiset(a' + b') == multiset(a + b) + x + y
  {
  }

  // ---------------------------------------------------------------------------
  // What a commit does to later queries
  // ---------------------------------------------------------------------------

  /** After a commit, asking for its id gives exactly the new result
      (replacing an earlier result with the same id), and asking for any
      other id gives what it gave before. */
  lemma CommitThenLookupById(t: Tables, path: string, id: string, result: ProfileResult, params: map<string, string>)
    requires WellFormed(t) && Param(params, RequestIdKey) != ""
    ensures Param(params, RequestIdKey) == id ==> Lookup(Commit(t, path, id, result), params) == Success([result])
    ensures Param(params, RequestIdKey) != id ==> Lookup(Commit(t, path, id, result), params) == Lookup(t, params)
  {
  }

  /** After a commit of the first result of a new path, a prefix query
      returns what it returned before followed by the new result when the
      path matches the prefix. */
  lemma CommitNewPath(t: Tables, path: string, id: string, result: ProfileResult, prefix: string)
    requires WellFormed(t) && path !in t.resultsByPath
    ensures
      var u := Commit(t, path, id, result);
      Collect(u.pathOrder, u.resultsByPath, prefix)
      == Collect(t.pathOrder, t.resultsByPath, prefix) + (if StartsWith(path, prefix) then [result] else [])
  {
    var u := Commit(t, path, id, result);
    assert u.pathOrder[..|u.pathOrder| - 1] == t.pathOrder;
    CollectFrame(t.pathOrder, t.resultsByPath, u.resultsByPath, prefix);
  }

  /** After any commit, a prefix query returns the results it returned
      before, plus the new one exactly when its path matches the prefix. */
  lemma CommitAddsOne(t: Tables, path: string, id: string, result: ProfileResult, prefix: string)
    requires WellFormed(t)
    ensures
      var u := Commit(t, path, id, result);
      multiset(Collect(u.pathOrder, u.resultsByPath, prefix))
      == multiset(Collect(t.pathOrder, t.resultsByPath, prefix))
         + (if StartsWith(path, prefix) then multiset{result} else multiset{})
  {
    if path in t.resultsByPath {
      CollectAppend(t.pathOrder, t.resultsByPath, path, [result], prefix);
    } else {
      CommitNewPath(t, path, id, result, prefix);
    }
  }
}
