/**
 * The catalog client `get_products_api`: the response-shape check on the
 * decoded body, the optional case-insensitive substring filter, and the
 * conversion of every fault into an error result. The HTTP request itself is
 * an input (`FetchOutcome`).
 */
module Catalog {
  import opened Wrappers
  import opened Text
  import opened Json

  /** A decoded top-level response body; only JSON objects are modelled. */
  type Body = map<string, Value>

  /** What `requests.get`, `raise_for_status` and `response.json` delivered. */
  datatype FetchOutcome = FetchFailed(reason: string) | Fetched(body: Body)

  /** The exceptions the filter can raise on ill-typed data. */
  datatype Fault =
    | QueryNotText      // `query.lower()` on a truthy non-string query
    | ProductNotObject  // `product.get(...)` on a list element that is not an object
    | FieldNotText      // `" ".join(...)` on a searched field that is present but not a string

  /** Which of the three `except`/shape branches produced an error. */
  datatype CatalogError =
    | RequestFailed(reason: string)
    | InvalidFormat
    | Unexpected(fault: Fault)

  /** The dictionary the tool returns: either `{"data": [...]}` or `{"error": ..., "raw_response"?: ...}`. */
  datatype CatalogResult =
    | Data(products: seq<Value>)
    | Error(error: CatalogError, rawResponse: Option<Body>)

  const InvalidFormatText := "API response format invalid: missing 'data' key or not a list."

  /**
   * The `error` entry of an error result as the tool serialises it; the model
   * keeps the `CatalogError` value itself, and this is only its text.
   */
  function ErrorText(e: CatalogError): string {
    match e
    case RequestFailed(reason) => "Failed to fetch products from API: " + reason
    case InvalidFormat => InvalidFormatText
    case Unexpected(f) =>
      "An unexpected error occurred: " +
      (match f
       case QueryNotText => "query has no attribute 'lower'"
       case ProductNotObject => "product has no attribute 'get'"
       case FieldNotText => "expected str instance")
  }

  /** The body carries a `data` entry holding a list. */
  predicate HasProductList(body: Body) {
    "data" in body && body["data"].Arr?
  }

  /** `product.get(key, "")` as a string: a missing key reads as "", a present non-string is `None`. */
  function FieldText(fields: map<string, Value>, key: string): Option<string> {
    if key !in fields then Some("")
    else if fields[key].Str? then Some(fields[key].s)
    else None
  }

  /**
   * The lower-cased searchable text of one product: name, description and
   * category joined by single spaces, or the fault raised on the way: `.get`
   * on a product that is not an object, or the join on a field that is not a string.
   */
  function SearchText(p: Value): (r: Result<string, Fault>)
    ensures r.Success? <==> (p.Obj? &&
      FieldText(p.fields, "productName").Some? &&
      FieldText(p.fields, "description").Some? &&
      FieldText(p.fields, "category").Some?)
    ensures r.Success? ==> r.value == Lower(
      FieldText(p.fields, "productName").value + " " +
      FieldText(p.fields, "description").value + " " +
      FieldText(p.fields, "category").value)
  {
    match p
    case Obj(fields) =>
      (match (FieldText(fields, "productName"), FieldText(fields, "description"), FieldText(fields, "category"))
       case (Some(name), Some(description), Some(category)) =>
         Success(Lower(name + " " + description + " " + category))
       case _ => Failure(FieldNotText))
    case _ => Failure(ProductNotObject)
  }

  /** The lower-cased query `q` occurs in the product's searchable text. */
  predicate Matches(q: string, p: Value) {
    SearchText(p).Success? && Contains(SearchText(p).value, q)
  }

  /** The `for product in products` loop with an already lower-cased query. */
  function Filter(q: string, ps: seq<Value>): (r: Result<seq<Value>, Fault>)
    ensures r.Success? ==> |r.value| <= |ps|
  {
    if |ps| == 0 then Success([])
    else
      match SearchText(ps[0])
      case Failure(f) => Failure(f)
      case Success(text) =>
        match Filter(q, ps[1..])
        case Failure(f) => Failure(f)
        case Success(rest) => Success(if Contains(text, q) then [ps[0]] + rest else rest)
  }

  /**
   * `get_products_api(query)` after the HTTP request: the shape check, then the
   * filter when the query is truthy. It never raises: every fault is an error
   * result.
   */
  function GetProducts(fetch: FetchOutcome, query: Value): (r: CatalogResult)
    ensures fetch.FetchFailed? ==> r == Error(RequestFailed(fetch.reason), None)
    ensures fetch.Fetched? && !HasProductList(fetch.body) ==> r == Error(InvalidFormat, Some(fetch.body))
    ensures r.Error? ==> (r.rawResponse.Some? <==> r.error.InvalidFormat?)
    ensures r.Data? ==> fetch.Fetched? && HasProductList(fetch.body)
    ensures r.Data? ==> |r.products| <= |fetch.body["data"].items|
  {
    match fetch
    case FetchFailed(reason) => Error(RequestFailed(reason), None)
    case Fetched(body) =>
      if !HasProductList(body) then Error(InvalidFormat, Some(body))
      else
        var products := body["data"].items;
        if !Truthy(query) then Data(products)
        else if !query.Str? then Error(Unexpected(QueryNotText), None)
        else
          match Filter(Lower(query.s), products)
          case Success(kept) => Data(kept)
          case Failure(f) => Error(Unexpected(f), None)
  }

  // ---------------------------------------------------------------------------
  // Properties of the filter

  /** The indices, from `from` on, of the products the query matches, in order. */
  ghost function MatchIndices(q: string, ps: seq<Value>, from: nat): seq<nat>
    requires from <= |ps|
    decreases |ps| - from
  {
    if from == |ps| then []
    else (if Matches(q, ps[from]) then [from] else []) + MatchIndices(q, ps, from + 1)
  }

  /** `r` picks exactly the products at the increasing positions `idx` of `ps`, and `idx` lists every match. */
  ghost predicate StableSelection(q: string, ps: seq<Value>, r: seq<Value>, idx: seq<nat>, from: nat) {
    && |r| == |idx|
    && (forall k :: 0 <= k < |idx| ==> from <= idx[k] < |ps| && r[k] == ps[idx[k]])
    && (forall k, l :: 0 <= k < l < |idx| ==> idx[k] < idx[l])
    && (forall i :: from <= i < |ps| ==> (Matches(q, ps[i]) <==> i in idx))
  }

  /** One step of the filter loop: the head is kept in front of the filtered tail exactly when it matches. */
  lemma FilterStep(q: string, ps: seq<Value>)
    requires |ps| > 0 && Filter(q, ps).Success?
    ensures Filter(q, ps[1..]).Success?
    ensures Filter(q, ps).value ==
      (if Matches(q, ps[0]) then [ps[0]] + Filter(q, ps[1..]).value else Filter(q, ps[1..]).value)
  {
  }

  /** The index list from `from` on starts with `from` exactly when that product matches. */
  lemma MatchIndicesStep(q: string, ps: seq<Value>, from: nat)
    requires from < |ps|
    ensures MatchIndices(q, ps, from) ==
      (if Matches(q, ps[from]) then [from] + MatchIndices(q, ps, from + 1) else MatchIndices(q, ps, from + 1))
  {
  }

  lemma {:induction false} FilterSelectsFrom(q: string, ps: seq<Value>, from: nat)
    requires from <= |ps|
    requires Filter(q, ps[from..]).Success?
    ensures StableSelection(q, ps, Filter(q, ps[from..]).value, MatchIndices(q, ps, from), from)
    decreases |ps| - from
  {
    if from < |ps| {
      var s := ps[from..];
      assert s[0] == ps[from];
      assert s[1..] == ps[from + 1..];
      FilterStep(q, s);
      MatchIndicesStep(q, ps, from);
      FilterSelectsFrom(q, ps, from + 1);
      var rest := Filter(q, ps[from + 1..]).value;
      var tail := MatchIndices(q, ps, from + 1);
      var r := Filter(q, s).value;
      var idx := MatchIndices(q, ps, from);
      ConsSelection(q, ps, rest, tail, from, Matches(q, ps[from]), r, idx);
    }
  }

  /** Putting one more position in front of a selection, kept or not, gives a selection from that position. */
  lemma ConsSelection(q: string, ps: seq<Value>, rest: seq<Value>, tail: seq<nat>, from: nat,
                      keep: bool, r: seq<Value>, idx: seq<nat>)
    requires from < |ps|
    requires StableSelection(q, ps, rest, tail, from + 1)
    requires keep == Matches(q, ps[from])
    requires r == (if keep then [ps[from]] + rest else rest)
    requires idx == (if keep then [from] + tail else tail)
    ensures StableSelection(q, ps, r, idx, from)
  {
    if keep {
      forall k | 0 <= k < |idx|
        ensures from <= idx[k] < |ps| && r[k] == ps[idx[k]]
      {
        if k > 0 {
          assert idx[k] == tail[k - 1] && r[k] == rest[k - 1];
        }
      }
      forall k, l | 0 <= k < l < |idx|
        ensures idx[k] < idx[l]
      {
        assert idx[l] == tail[l - 1];
        if k > 0 {
          assert idx[k] == tail[k - 1];
        }
      }
      forall i | from <= i < |ps|
        ensures Matches(q, ps[i]) <==> i in idx
      {
        if i > from {
          assert i in idx <==> i in tail;
        }
      }
    } else {
      assert from !in idx;
    }
  }

  /**
   * With the filter succeeding, the kept products are the source list's matching
   * products in source order: an order-preserving subsequence that keeps a
   * product if and only if the query matches it.
   */
  lemma FilterIsStableSelection(q: string, ps: seq<Value>)
    requires Filter(q, ps).Success?
    ensures StableSelection(q, ps, Filter(q, ps).value, MatchIndices(q, ps, 0), 0)
  {
    assert ps[0..] == ps;
    FilterSelectsFrom(q, ps, 0);
  }

  /** The filter fails exactly when some product has no searchable text, and then with the first such product's fault. */
  lemma {:induction false} FilterFailsAtFirstFault(q: string, ps: seq<Value>)
    ensures Filter(q, ps).Success? <==> forall i :: 0 <= i < |ps| ==> SearchText(ps[i]).Success?
    ensures Filter(q, ps).Failure? ==>
      exists i :: 0 <= i < |ps| && SearchText(ps[i]) == Failure(Filter(q, ps).error) &&
        forall j :: 0 <= j < i ==> SearchText(ps[j]).Success?
  {
    if |ps| > 0 {
      FilterFailsAtFirstFault(q, ps[1..]);
      if SearchText(ps[0]).Failure? {
        assert SearchText(ps[0]) == Failure(Filter(q, ps).error);
      } else if Filter(q, ps[1..]).Failure? {
        var i :| 0 <= i < |ps[1..]| && SearchText(ps[1..][i]) == Failure(Filter(q, ps[1..]).error) &&
          forall j :: 0 <= j < i ==> SearchText(ps[1..][j]).Success?;
        assert SearchText(ps[i + 1]) == Failure(Filter(q, ps).error);
        assert forall j :: 0 < j < i + 1 ==> SearchText(ps[j]) == SearchText(ps[1..][j - 1]);
      } else {
        assert forall i :: 0 < i < |ps| ==> ps[i] == ps[1..][i - 1];
      }
    }
  }

  /** A match means the lower-cased query occurs somewhere in the lower-cased joined text. */
  lemma MatchesIffOccurs(q: string, p: Value)
    ensures Matches(q, p) <==> SearchText(p).Success? && exists i :: OccursAt(SearchText(p).value, q, i)
  {
    if SearchText(p).Success? {
      ContainsIffOccurs(SearchText(p).value, q);
    }
  }

  /**
   * The search runs against the product name, the description and the category:
   * a searchable product matches every query that occurs in the lower-cased
   * value of any one of the three fields.
   */
  lemma FieldOccurrenceMatches(q: string, p: Value, key: string)
    requires SearchText(p).Success? && key in {"productName", "description", "category"}
    requires Contains(Lower(FieldText(p.fields, key).value), q)
    ensures Matches(q, p)
  {
    var name := FieldText(p.fields, "productName").value;
    var description := FieldText(p.fields, "description").value;
    var category := FieldText(p.fields, "category").value;
    JoinedFieldInfix(name, description, category, key, FieldText(p.fields, key).value, q);
  }

  /** Each of the three fields is an infix of the space-joined text. */
  lemma JoinedFieldInfix(name: string, description: string, category: string, key: string, f: string, q: string)
    requires key == "productName" ==> f == name
    requires key == "description" ==> f == description
    requires key == "category" ==> f == category
    requires key in {"productName", "description", "category"}
    requires Contains(Lower(f), q)
    ensures Contains(Lower(name + " " + description + " " + category), q)
  {
    var joined := name + " " + description + " " + category;
    var pre, post;
    if key == "productName" {
      pre, post := [], " " + description + " " + category;
    } else if key == "description" {
      pre, post := name + " ", " " + category;
    } else {
      pre, post := name + " " + description + " ", [];
    }
    assert joined == pre + f + post;
    JoinedInfix(joined, pre, f, post, q);
  }

  /** A query found in the lower-cased `f` is found in the lower-cased `pre + f + post`. */
  lemma JoinedInfix(joined: string, pre: string, f: string, post: string, q: string)
    requires joined == pre + f + post
    requires Contains(Lower(f), q)
    ensures Contains(Lower(joined), q)
  {
    LowerInfix(pre, f, post);
    ContainsInInfix(Lower(joined), Lower(f), |pre|, q);
  }

  // ---------------------------------------------------------------------------
  // Properties of the tool as a whole

  /** With no query (absent, `None`, "" or any falsy value) a well-formed body's list comes back unchanged. */
  lemma NoQueryReturnsAll(fetch: FetchOutcome, query: Value)
    requires fetch.Fetched? && HasProductList(fetch.body) && !Truthy(query)
    ensures GetProducts(fetch, query) == Data(fetch.body["data"].items)
  {
  }

  /**
   * With a non-empty text query the result is data exactly when every product
   * is searchable; the data is then the matching products in source order, and
   * otherwise the error names the first unsearchable product's fault and
   * carries no raw body.
   */
  lemma QueryFiltersProducts(fetch: FetchOutcome, s: string)
    requires fetch.Fetched? && HasProductList(fetch.body) && |s| > 0
    ensures var ps := fetch.body["data"].items;
      GetProducts(fetch, Str(s)).Data? <==> forall i :: 0 <= i < |ps| ==> SearchText(ps[i]).Success?
    ensures var ps := fetch.body["data"].items; var r := GetProducts(fetch, Str(s));
      r.Data? ==> StableSelection(Lower(s), ps, r.products, MatchIndices(Lower(s), ps, 0), 0)
    ensures var ps := fetch.body["data"].items; var r := GetProducts(fetch, Str(s));
      r.Error? ==> (r.rawResponse.None? && r.error.Unexpected? &&
        exists i :: 0 <= i < |ps| && SearchText(ps[i]) == Failure(r.error.fault) &&
          forall j :: 0 <= j < i ==> SearchText(ps[j]).Success?)
  {
    var ps := fetch.body["data"].items;
    var q := Lower(s);
    GetProductsFilters(fetch, s);
    FilterFailsAtFirstFault(q, ps);
    if Filter(q, ps).Success? {
      FilterIsStableSelection(q, ps);
    }
  }

  /** With a non-empty text query, the tool's result is the filter's outcome on the lower-cased query. */
  lemma GetProductsFilters(fetch: FetchOutcome, s: string)
    requires fetch.Fetched? && HasProductList(fetch.body) && |s| > 0
    ensures var f := Filter(Lower(s), fetch.body["data"].items);
      GetProducts(fetch, Str(s)) == if f.Success? then Data(f.value) else Error(Unexpected(f.error), None)
  {
    assert Truthy(Str(s));
    var ps := fetch.body["data"].items;
    var f := Filter(Lower(s), ps);
    if f.Success? {
      assert GetProducts(fetch, Str(s)) == Data(f.value);
    } else {
      assert GetProducts(fetch, Str(s)) == Error(Unexpected(f.error), None);
    }
  }

  /** A truthy query that is not a string makes `.lower()` raise, which the tool reports as an error. */
  lemma NonTextQueryIsError(fetch: FetchOutcome, query: Value)
    requires fetch.Fetched? && HasProductList(fetch.body) && Truthy(query) && !query.Str?
    ensures GetProducts(fetch, query) == Error(Unexpected(QueryNotText), None)
  {
  }

  /** The search is case-insensitive: a query and its lower-cased form give the same result. */
  lemma QueryCaseInsensitive(fetch: FetchOutcome, s: string)
    ensures GetProducts(fetch, Str(s)) == GetProducts(fetch, Str(Lower(s)))
  {
    LowerIdempotent(s);
  }
}
