/** The decision logic of the employee list screen: fetching the list with
    a fallback to the locally cached copy, the search-and-status filter,
    the score colour bands and the filter button labels. */
module EmployeeList {
  import opened Wrappers
  import opened Text
  import opened Storage
  import opened Http
  import opened Employees

  /** The storage key under which the last fetched list is mirrored. */
  const CacheKey: string := "cachedEmployees"

  /** The filter buttons, in display order. */
  const FilterOptions: seq<string> := ["all", "active", "warning"]

  // ----- Fetch with cache fallback -----

  /** Everything one run of the list query produces. `redirectToLogin`
      records the navigation to the login screen issued when no token is
      held; `authorization` is the header the request carried. */
  datatype ListFetch = ListFetch(
    result: Result<seq<Employee>>,
    store: Store,
    redirectToLogin: bool,
    authorization: string)

  /** The message of the error the request stage throws, if any: the
      connection failure, a non-ok status, a body that is not JSON, or the
      cache write failing. */
  function RequestError(response: Response<seq<Employee>>, cacheWrite: Effect): Option<string>
  {
    match response
    case Unreachable(m) => Some(m)
    case Received(ok, body) =>
      if !ok then Some("Network response was not ok")
      else if body.Err? then Some(body.message)
      else if cacheWrite.Throws? then Some(cacheWrite.message)
      else None
  }

  /** The catch block: read the cache; a truthy entry is parsed and
      returned (a parse failure throws its own error), otherwise the
      original error is rethrown. A failing read throws its own error. */
  function Fallback(store: Store, original: string, cacheRead: Effect,
                    codec: Codec<seq<Employee>>): (r: Result<seq<Employee>>)
    ensures cacheRead.Throws? ==> r == Err(cacheRead.message)
    ensures cacheRead.Completes? && CacheKey in store && store[CacheKey] != "" ==>
        r == codec.decode(store[CacheKey])
    ensures cacheRead.Completes? && (CacheKey !in store || store[CacheKey] == "") ==>
        r == Err(original)
  {
    match GetItem(store, CacheKey, cacheRead)
    case Err(m) => Err(m)
    case Ok(cached) =>
      if Truthy(cached) then codec.decode(cached.value) else Err(original)
  }

  /** The list query (`queryFn`): issue the request whatever the token,
      mirror a successful result into the cache and return it, or fall
      back to the cache on any failure. */
  function FetchEmployees(token: Option<string>, store: Store,
                          response: Response<seq<Employee>>,
                          cacheWrite: Effect, cacheRead: Effect,
                          codec: Codec<seq<Employee>>): (r: ListFetch)
    ensures r.redirectToLogin <==> !Truthy(token)
    ensures r.authorization == Authorization(token)
    ensures AgreeExcept(store, r.store, {CacheKey})
    // success: the list is returned and written through to the cache
    ensures response.Received? && response.ok && response.body.Ok? && cacheWrite.Completes? ==>
        r.result == Ok(response.body.value)
        && r.store == store[CacheKey := codec.encode(response.body.value)]
    // any failure leaves the store as it was and consults the cache
    ensures RequestError(response, cacheWrite).Some? ==>
        r.store == store
        && r.result == Fallback(store, RequestError(response, cacheWrite).value, cacheRead, codec)
  {
    var auth := Authorization(token);
    match RequestError(response, cacheWrite)
    case Some(e) =>
      ListFetch(Fallback(store, e, cacheRead, codec), store, !Truthy(token), auth)
    case None =>
      var list := response.body.value;
      var written := SetItem(store, CacheKey, codec.encode(list), cacheWrite);
      ListFetch(Ok(list), written.value, !Truthy(token), auth)
  }

  /** A missing token does not short-circuit the request: the result and
      the store do not depend on the token at all. */
  lemma TokenDoesNotShortCircuit(t1: Option<string>, t2: Option<string>, store: Store,
                                 response: Response<seq<Employee>>,
                                 cacheWrite: Effect, cacheRead: Effect,
                                 codec: Codec<seq<Employee>>)
    ensures FetchEmployees(t1, store, response, cacheWrite, cacheRead, codec).result
            == FetchEmployees(t2, store, response, cacheWrite, cacheRead, codec).result
    ensures FetchEmployees(t1, store, response, cacheWrite, cacheRead, codec).store
            == FetchEmployees(t2, store, response, cacheWrite, cacheRead, codec).store
  {
  }

  /** Read-through round trip: after a successful fetch, a later fetch
      that fails for any reason returns exactly the list fetched before,
      provided the cache can be read and JSON round-trips that list. */
  lemma CacheRoundTrip(token: Option<string>, store: Store, list: seq<Employee>,
                       cacheWrite: Effect, later: Response<seq<Employee>>,
                       laterWrite: Effect, codec: Codec<seq<Employee>>)
    requires RoundTrips(codec, list)
    requires cacheWrite.Completes?
    requires RequestError(later, laterWrite).Some?
    ensures var first := FetchEmployees(token, store, Received(true, Ok(list)), cacheWrite, Completes, codec);
            var second := FetchEmployees(token, first.store, later, laterWrite, Completes, codec);
            first.result == Ok(list) && second.result == Ok(list) && second.store == first.store
  {
  }

  /** With no usable cache entry, a failed fetch rethrows the error of the
      step that failed. */
  lemma NoCacheRethrows(token: Option<string>, store: Store,
                        response: Response<seq<Employee>>, cacheWrite: Effect,
                        codec: Codec<seq<Employee>>)
    requires CacheKey !in store || store[CacheKey] == ""
    ensures var r := FetchEmployees(token, store, response, cacheWrite, Completes, codec).result;
            (response.Unreachable? ==> r == Err(response.message))
            && (response.Received? && !response.ok ==> r == Err("Network response was not ok"))
            && (response.Received? && response.ok && response.body.Err? ==> r == Err(response.body.message))
            && (response.Received? && response.ok && response.body.Ok? && cacheWrite.Throws? ==>
                  r == Err(cacheWrite.message))
  {
  }

  // ----- Search and status filter -----

  /** The search matches when the lower-cased query occurs in the
      lower-cased name or the lower-cased designation. */
  predicate MatchesSearch(e: Employee, query: string)
  {
    Includes(ToLower(e.name), ToLower(query)) || Includes(ToLower(e.designation), ToLower(query))
  }

  /** The per-employee filter predicate. */
  predicate Keep(e: Employee, query: string, filter: string)
  {
    if filter == "all" then MatchesSearch(e, query)
    else MatchesSearch(e, query) && StatusName(e.status) == filter
  }

  /** `r` is `s` with zero or more elements removed, order kept. */
  ghost predicate SubsequenceOf<T>(r: seq<T>, s: seq<T>)
    decreases |s|
  {
    if r == [] then true
    else if s == [] then false
    else (r[0] == s[0] && SubsequenceOf(r[1..], s[1..])) || SubsequenceOf(r, s[1..])
  }

  /** The filtered list, `employees.filter(...)` over the per-employee
      predicate. */
  function FilterEmployees(es: seq<Employee>, query: string, filter: string): (r: seq<Employee>)
    ensures SubsequenceOf(r, es)
    ensures forall i :: 0 <= i < |r| ==> Keep(r[i], query, filter)
    ensures forall i :: 0 <= i < |es| && Keep(es[i], query, filter) ==> es[i] in r
    ensures |r| <= |es|
  {
    if es == [] then []
    else
      var rest := FilterEmployees(es[1..], query, filter);
      if Keep(es[0], query, filter) then [es[0]] + rest else rest
  }

  /** The filter keeps duplicates: each kept employee occurs in the result
      as often as in the input, and no other employee occurs at all. */
  lemma {:induction false} FilterKeepsMultiplicity(es: seq<Employee>, query: string, filter: string, e: Employee)
    ensures multiset(FilterEmployees(es, query, filter))[e]
            == if Keep(e, query, filter) then multiset(es)[e] else 0
  {
    if es != [] {
      FilterKeepsMultiplicity(es[1..], query, filter, e);
      var rest := FilterEmployees(es[1..], query, filter);
      assert multiset(es) == multiset{es[0]} + multiset(es[1..]) by {
        assert es == [es[0]] + es[1..];
      }
      if Keep(es[0], query, filter) {
        assert multiset(FilterEmployees(es, query, filter)) == multiset{es[0]} + multiset(rest);
      } else {
        assert FilterEmployees(es, query, filter) == rest;
      }
    }
  }

  /** With filter "all", an employee is kept exactly when the lower-cased
      query is a substring of its lower-cased name or designation. */
  lemma AllFilterIsSubstringSearch(e: Employee, query: string)
    ensures Keep(e, query, "all")
            <==> IsSubstring(ToLower(query), ToLower(e.name))
                 || IsSubstring(ToLower(query), ToLower(e.designation))
  {
  }

  /** With a status filter, an employee is kept exactly when the search
      matches and its status is the one selected. */
  lemma StatusFilterCharacterised(e: Employee, query: string, s: Status)
    ensures Keep(e, query, StatusName(s)) <==> Keep(e, query, "all") && e.status == s
  {
  }

  /** An empty query matches everyone, so "all" keeps the whole list. */
  lemma {:induction false} EmptyQueryKeepsAll(es: seq<Employee>)
    ensures FilterEmployees(es, "", "all") == es
  {
    if es != [] {
      EmptyQueryKeepsAll(es[1..]);
      assert Includes(ToLower(es[0].name), "");
      assert [es[0]] + es[1..] == es;
    }
  }

  lemma SubsequenceOfCons<T>(x: T, r: seq<T>, s: seq<T>)
    requires SubsequenceOf(r, s)
    ensures SubsequenceOf(r, [x] + s)
    ensures SubsequenceOf([x] + r, [x] + s)
  {
  }

  /** A status filter keeps a subsequence of what "all" keeps. */
  lemma {:induction false} StatusFilterNarrowsAll(es: seq<Employee>, query: string, filter: string)
    ensures SubsequenceOf(FilterEmployees(es, query, filter), FilterEmployees(es, query, "all"))
  {
    if es != [] {
      StatusFilterNarrowsAll(es[1..], query, filter);
      var narrow := FilterEmployees(es[1..], query, filter);
      var wide := FilterEmployees(es[1..], query, "all");
      SubsequenceOfCons(es[0], narrow, wide);
    }
  }

  /** A filter value that is none of the button values keeps nobody. */
  lemma UnknownFilterKeepsNone(es: seq<Employee>, query: string, filter: string)
    requires filter !in FilterOptions
    ensures FilterEmployees(es, query, filter) == []
  {
  }

  // ----- Score bands -----

  /** The three colour bands of a performance score. */
  datatype Band = High | Medium | Low

  /** The band whose style the score badge takes. */
  function BandOf(score: real): (b: Band)
    ensures b == High <==> 90.0 <= score
    ensures b == Medium <==> 50.0 <= score < 90.0
    ensures b == Low <==> score < 50.0
  {
    if score >= 90.0 then High else if score >= 50.0 then Medium else Low
  }

  function Rank(b: Band): nat
  {
    match b
    case Low => 0
    case Medium => 1
    case High => 2
  }

  /** A higher score never falls into a lower band. */
  lemma BandMonotone(a: real, b: real)
    requires a <= b
    ensures Rank(BandOf(a)) <= Rank(BandOf(b))
  {
  }

  // ----- Filter labels -----

  /** The label on a filter button: the value with its first letter
      upper-cased. */
  function FilterLabel(filter: string): (l: string)
    ensures |l| == |filter|
    ensures ToLower(l) == ToLower(filter)
    ensures filter != [] ==> l[0] == UpperChar(filter[0]) && l[1..] == filter[1..]
  {
    CapitalizeOnlyChangesCase(filter);
    Capitalize(filter)
  }

  /** The three buttons read "All", "Active" and "Warning". */
  lemma FilterLabelsShown()
    ensures FilterLabel("all") == "All"
    ensures FilterLabel("active") == "Active"
    ensures FilterLabel("warning") == "Warning"
  {
  }
}
