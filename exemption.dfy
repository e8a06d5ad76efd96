/**
 * The exemption check `evaluatesJMESPaths`: the filter queries are run, in
 * order, over a JSON view of the pod; the pod is skipped when a query
 * yields the boolean `true`.
 *
 * The query language and the JSON conversion are not modelled: a query is
 * evaluated by a `search` function supplied by the caller, and the JSON
 * view arrives as an optional tree (None when conversion failed).
 */
module Exemption {
  import opened Wrappers

  /** A JSON value as `json.Unmarshal` builds it into an `interface{}`. */
  datatype Json =
    | JNull
    | JBool(b: bool)
    | JNumber(n: int)
    | JString(s: string)
    | JArray(items: seq<Json>)
    | JObject(fields: map<string, Json>)

  /** A compiled filter, with the text it was compiled from. */
  datatype Query = Query(raw: string)

  /** What `(*JMESPath).Search` returns: a value, or an error. */
  datatype SearchResult = Found(value: Json) | SearchFailed(cause: string)

  datatype EvalError =
    | ConversionFailed       // json.Marshal or json.Unmarshal failed
    | QueryFailed(query: string, cause: string)
    | NotBoolValue           // errNotBoolValue
    | NotNegative            // errNotNegative

  /** The pair `(matched, err)` that `evaluatesJMESPaths` returns. */
  datatype Verdict = Verdict(matched: bool, err: Option<EvalError>)

  type Search = (Query, Json) -> SearchResult

  /** The query loop: the first decisive query settles the verdict. */
  function Scan(queries: seq<Query>, tree: Json, search: Search): (v: Verdict)
    ensures v.matched <==> v.err.None?
  {
    if |queries| == 0 then Verdict(false, Some(NotNegative))
    else match search(queries[0], tree)
      case SearchFailed(cause) => Verdict(false, Some(QueryFailed(queries[0].raw, cause)))
      case Found(JBool(true)) => Verdict(true, None)
      case Found(JBool(false)) => Scan(queries[1..], tree, search)
      case Found(_) => Verdict(false, Some(NotBoolValue))
  }

  /** `evaluatesJMESPaths`, given the outcome of the JSON conversion. */
  function Evaluation(queries: seq<Query>, tree: Option<Json>, search: Search): (v: Verdict)
    ensures v.err.None? ==> v.matched
  {
    if tree.None? then Verdict(true, Some(ConversionFailed)) else Scan(queries, tree.value, search)
  }

  /** Query `i` yields `true` and every query before it yields `false`. */
  ghost predicate FirstTrue(queries: seq<Query>, tree: Json, search: Search, i: nat) {
    && i < |queries|
    && search(queries[i], tree) == Found(JBool(true))
    && forall j :: 0 <= j < i ==> search(queries[j], tree) == Found(JBool(false))
  }

  /** `evaluatesJMESPaths` as the source writes it: a loop with early returns. */
  method EvaluatesJMESPaths(queries: seq<Query>, tree: Option<Json>, search: Search)
    returns (matched: bool, err: Option<EvalError>)
    ensures Verdict(matched, err) == Evaluation(queries, tree, search)
  {
    if tree.None? {
      return true, Some(ConversionFailed);
    }
    var obj := tree.value;
    var i := 0;
    while i < |queries|
      invariant 0 <= i <= |queries|
      invariant Scan(queries[i..], obj, search) == Scan(queries, obj, search)
    {
      var q := queries[i];
      assert queries[i..][0] == q && queries[i..][1..] == queries[i + 1..];
      var ret := search(q, obj);
      if ret.SearchFailed? {
        return false, Some(QueryFailed(q.raw, ret.cause));
      }
      match ret.value {
        case JBool(b) =>
          if b {
            return true, None;
          }
        case _ =>
          return false, Some(NotBoolValue);
      }
      i := i + 1;
    }
    return false, Some(NotNegative);
  }

  /** With no queries, or when every query yields `false`, the pod is not skipped. */
  lemma {:induction false} AllFalseNotNegative(queries: seq<Query>, tree: Json, search: Search)
    requires forall i :: 0 <= i < |queries| ==> search(queries[i], tree) == Found(JBool(false))
    ensures Scan(queries, tree, search) == Verdict(false, Some(NotNegative))
  {
    if |queries| > 0 {
      AllFalseNotNegative(queries[1..], tree, search);
    }
  }

  /**
   * The first query that does not yield `false` settles the verdict, and
   * the queries after it are never consulted.
   */
  lemma {:induction false} StopsAtFirstDecisive(queries: seq<Query>, tree: Json, search: Search, i: nat)
    requires i < |queries|
    requires forall j :: 0 <= j < i ==> search(queries[j], tree) == Found(JBool(false))
    requires search(queries[i], tree) != Found(JBool(false))
    ensures var res := search(queries[i], tree);
      Scan(queries, tree, search) ==
        match res
        case SearchFailed(cause) => Verdict(false, Some(QueryFailed(queries[i].raw, cause)))
        case Found(JBool(_)) => Verdict(true, None)
        case Found(_) => Verdict(false, Some(NotBoolValue))
  {
    if i > 0 {
      StopsAtFirstDecisive(queries[1..], tree, search, i - 1);
    }
  }

  /** Replacing the queries after the first decisive one does not change the verdict. */
  lemma LaterQueriesNotConsulted(queries: seq<Query>, tree: Json, search: Search, i: nat, rest: seq<Query>)
    requires i < |queries|
    requires forall j :: 0 <= j < i ==> search(queries[j], tree) == Found(JBool(false))
    requires search(queries[i], tree) != Found(JBool(false))
    ensures Scan(queries[..i + 1] + rest, tree, search) == Scan(queries, tree, search)
  {
    var other := queries[..i + 1] + rest;
    assert forall j :: 0 <= j <= i ==> other[j] == queries[j];
    StopsAtFirstDecisive(queries, tree, search, i);
    StopsAtFirstDecisive(other, tree, search, i);
  }

  /**
   * The pod is skipped, with no error, exactly when some query yields
   * `true` and only `false` came before it.
   */
  lemma {:induction false} MatchedIffFirstTrue(queries: seq<Query>, tree: Json, search: Search)
    ensures Scan(queries, tree, search).matched <==> exists i: nat :: FirstTrue(queries, tree, search, i)
    ensures Scan(queries, tree, search).matched ==> Scan(queries, tree, search).err == None
  {
    if |queries| > 0 {
      MatchedIffFirstTrue(queries[1..], tree, search);
      var res := search(queries[0], tree);
      if res == Found(JBool(false)) {
        if Scan(queries, tree, search).matched {
          var i: nat :| FirstTrue(queries[1..], tree, search, i);
          assert FirstTrue(queries, tree, search, i + 1);
        }
        if exists i: nat :: FirstTrue(queries, tree, search, i) {
          var i: nat :| FirstTrue(queries, tree, search, i);
          assert i > 0;
          assert FirstTrue(queries[1..], tree, search, i - 1);
        }
      } else if res == Found(JBool(true)) {
        assert FirstTrue(queries, tree, search, 0);
      }
    }
  }

  /** A pod that is not skipped always comes with an error: `(false, nil)` never happens. */
  lemma {:induction false} NotMatchedHasError(queries: seq<Query>, tree: Json, search: Search)
    ensures !Scan(queries, tree, search).matched ==> Scan(queries, tree, search).err.Some?
  {
    if |queries| > 0 {
      NotMatchedHasError(queries[1..], tree, search);
    }
  }

  /** A failed JSON conversion skips the pod, whatever the queries. */
  lemma ConversionFailureSkips(queries: seq<Query>, search: Search)
    ensures Evaluation(queries, None, search) == Verdict(true, Some(ConversionFailed))
  {
  }
}
