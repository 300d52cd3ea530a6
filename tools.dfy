/**
 * The property-search tool: the table of property-type flags, the loop that
 * switches the requested types on, the merge of the query parameters and the
 * truncation of the upstream result list to the configured limit.
 * The HTTP request itself is a parameter (`fetch`): given the query it yields
 * the `results` array of the response, or None when the response has none.
 */
module Tools {
  import opened Wrappers

  /** Query parameter values are sent as text. */
  type Query = map<string, string>

  const FlagOn: string := "true"
  const FlagOff: string := "false"

  const LocationKey: string := "location"
  const OutputKey: string := "output"
  const OutputJson: string := "json"

  /** The seven property-type flags the listings API understands. */
  const KnownTypes: seq<string> := [
    "isSingleFamily", "isMultiFamily", "isCondo", "isTownhouse",
    "isApartment", "isLotLand", "isManufactured"
  ]

  /** The value of `types` when the caller gives none. */
  const DefaultTypes: seq<string> := ["isSingleFamily"]

  /** The set of elements of a sequence. */
  function Elements(s: seq<string>): set<string>
  {
    set x | x in s
  }

  /** The flag table before the loop: every known type switched off. */
  function InitialPropertyTypes(): (m: map<string, string>)
    ensures m.Keys == Elements(KnownTypes)
    ensures forall k :: k in m ==> m[k] == FlagOff
  {
    map k | k in KnownTypes :: FlagOff
  }

  /**
   * The flag table after switching on each of `ts` in turn, starting from `m`.
   * Recursing on the last element keeps it in step with a left-to-right loop.
   */
  function ApplyTypes(m: map<string, string>, ts: seq<string>): map<string, string>
    decreases |ts|
  {
    if ts == [] then m
    else ApplyTypes(m, ts[..|ts| - 1])[ts[|ts| - 1] := FlagOn]
  }

  /** The flag table the search sends for the requested `types`. */
  function FlagsFor(types: seq<string>): map<string, string>
  {
    ApplyTypes(InitialPropertyTypes(), types)
  }

  /** One key of `ApplyTypes`: present iff it was present or requested, on iff requested. */
  lemma {:induction false} ApplyTypesAt(m: map<string, string>, ts: seq<string>, k: string)
    ensures k in ApplyTypes(m, ts) <==> k in m || k in ts
    ensures k in ApplyTypes(m, ts) ==> ApplyTypes(m, ts)[k] == if k in ts then FlagOn else m[k]
    decreases |ts|
  {
    if ts != [] {
      var init := ts[..|ts| - 1];
      ApplyTypesAt(m, init, k);
      assert ts == init + [ts[|ts| - 1]];
      assert k in ts <==> k in init || k == ts[|ts| - 1];
    }
  }

  /** The whole table of `ApplyTypes`, key by key. */
  lemma ApplyTypesAll(m: map<string, string>, ts: seq<string>)
    ensures ApplyTypes(m, ts).Keys == m.Keys + Elements(ts)
    ensures forall k :: k in ts ==> ApplyTypes(m, ts)[k] == FlagOn
    ensures forall k :: k in m && k !in ts ==> ApplyTypes(m, ts)[k] == m[k]
  {
    forall k
      ensures k in ApplyTypes(m, ts) <==> k in m || k in ts
      ensures k in ApplyTypes(m, ts) ==> ApplyTypes(m, ts)[k] == if k in ts then FlagOn else m[k]
    {
      ApplyTypesAt(m, ts, k);
    }
  }

  /**
   * The loop over `types`: the dictionary starts as the table of seven
   * switched-off flags and each requested type is set to "true" in turn.
   */
  method BuildPropertyTypes(types: seq<string>) returns (flags: map<string, string>)
    ensures flags == FlagsFor(types)
    ensures flags.Keys == Elements(KnownTypes) + Elements(types)
    ensures forall t :: t in types ==> flags[t] == FlagOn
    ensures forall k :: k in KnownTypes && k !in types ==> flags[k] == FlagOff
  {
    flags := InitialPropertyTypes();
    for i := 0 to |types|
      invariant flags == ApplyTypes(InitialPropertyTypes(), types[..i])
    {
      assert types[..i + 1][..i] == types[..i];
      flags := flags[types[i] := FlagOn];
    }
    assert types[..|types|] == types;
    ApplyTypesAll(InitialPropertyTypes(), types);
  }

  /** A requested name outside the seven known flags is not rejected: it becomes a new key set to "true". */
  lemma UnknownTypeAdded(types: seq<string>, t: string)
    requires t in types && t !in KnownTypes
    ensures t in FlagsFor(types) && FlagsFor(types)[t] == FlagOn
    ensures t !in InitialPropertyTypes()
  {
    ApplyTypesAt(InitialPropertyTypes(), types, t);
  }

  /** On a known flag, the table says "true" exactly when the type was requested. */
  lemma KnownFlagOnIffRequested(types: seq<string>, k: string)
    requires k in KnownTypes
    ensures k in FlagsFor(types)
    ensures FlagsFor(types)[k] == FlagOn <==> k in types
    ensures FlagsFor(types)[k] == FlagOff <==> k !in types
  {
    ApplyTypesAt(InitialPropertyTypes(), types, k);
  }

  /** With the default `types`, exactly `isSingleFamily` is on and the table holds only the seven known flags. */
  lemma DefaultTypesFlags()
    ensures FlagsFor(DefaultTypes).Keys == Elements(KnownTypes)
    ensures forall k :: k in FlagsFor(DefaultTypes) ==>
      (FlagsFor(DefaultTypes)[k] == FlagOn <==> k == "isSingleFamily")
  {
    ApplyTypesAll(InitialPropertyTypes(), DefaultTypes);
    assert Elements(DefaultTypes) == {"isSingleFamily"};
  }

  /** The table depends only on which types are requested, not on their order or repetition. */
  lemma ApplyTypesSetOnly(m: map<string, string>, ts: seq<string>, us: seq<string>)
    requires forall t :: t in ts <==> t in us
    ensures ApplyTypes(m, ts) == ApplyTypes(m, us)
  {
    ApplyTypesAll(m, ts);
    ApplyTypesAll(m, us);
    assert Elements(ts) == Elements(us);
  }

  /** Repeating a requested type changes nothing. */
  lemma DuplicateTypeIgnored(types: seq<string>, t: string)
    requires t in types
    ensures FlagsFor(types + [t]) == FlagsFor(types)
  {
    ApplyTypesSetOnly(InitialPropertyTypes(), types + [t], types);
  }

  /** Reordering the requested types changes nothing. */
  lemma PermutedTypesSameFlags(types: seq<string>, others: seq<string>)
    requires multiset(types) == multiset(others)
    ensures FlagsFor(types) == FlagsFor(others)
  {
    forall t ensures t in types <==> t in others {
      assert t in types <==> t in multiset(types);
      assert t in others <==> t in multiset(others);
    }
    ApplyTypesSetOnly(InitialPropertyTypes(), types, others);
  }

  /** Switching the same types on a second time is idempotent. */
  lemma ApplyTypesIdempotent(m: map<string, string>, ts: seq<string>)
    ensures ApplyTypes(ApplyTypes(m, ts), ts) == ApplyTypes(m, ts)
  {
    ApplyTypesAll(m, ts);
    ApplyTypesAll(ApplyTypes(m, ts), ts);
  }

  /**
   * The query string: `location` and `output=json` first, then the flag
   * table, then the caller's extra parameters; a later source overrides an
   * earlier one on the same key.
   */
  function BuildQuery(location: string, flags: map<string, string>, extras: map<string, string>): (q: Query)
    ensures q.Keys == {LocationKey, OutputKey} + flags.Keys + extras.Keys
    ensures forall k :: k in extras ==> q[k] == extras[k]
    ensures forall k :: k in flags && k !in extras ==> q[k] == flags[k]
    ensures LocationKey !in flags && LocationKey !in extras ==> q[LocationKey] == location
    ensures OutputKey !in flags && OutputKey !in extras ==> q[OutputKey] == OutputJson
  {
    map[LocationKey := location, OutputKey := OutputJson] + flags + extras
  }

  /**
   * Python refuses a keyword argument that repeats a named parameter, so the
   * extra parameters never hold `location`, `config` or `types`.
   */
  predicate ValidExtras(extras: map<string, string>)
  {
    LocationKey !in extras && "config" !in extras && "types" !in extras
  }

  /**
   * In the query sent for `types`: every known flag the extras leave alone is
   * "true" exactly when requested and "false" otherwise, and the location is
   * the caller's unless a requested type is literally named `location`.
   */
  lemma QueryFlags(location: string, types: seq<string>, extras: map<string, string>)
    requires ValidExtras(extras)
    ensures forall k :: k in KnownTypes && k !in extras ==>
      k in BuildQuery(location, FlagsFor(types), extras) &&
      (BuildQuery(location, FlagsFor(types), extras)[k] == FlagOn <==> k in types) &&
      (BuildQuery(location, FlagsFor(types), extras)[k] == FlagOff <==> k !in types)
    ensures forall t :: t in types && t !in extras ==>
      t in BuildQuery(location, FlagsFor(types), extras) &&
      BuildQuery(location, FlagsFor(types), extras)[t] == FlagOn
    ensures BuildQuery(location, FlagsFor(types), extras)[LocationKey] ==
      if LocationKey in types then FlagOn else location
  {
    ApplyTypesAll(InitialPropertyTypes(), types);
    ApplyTypesAt(InitialPropertyTypes(), types, LocationKey);
  }

  /** Where Python's `xs[:limit]` stops on a list of length `n`: a negative limit counts from the end. */
  function SliceEnd(n: nat, limit: int): (e: nat)
    ensures e <= n
  {
    if limit >= 0 then (if limit < n then limit else n)
    else if n + limit > 0 then n + limit else 0
  }

  /** The upstream results cut to the configured limit, as `results[:limit]` does. */
  function Truncate<T>(results: seq<T>, limit: int): (r: seq<T>)
    ensures |r| <= |results|
    ensures r == results[..|r|]
    ensures limit >= 0 ==> |r| == if |results| < limit then |results| else limit
    ensures limit < 0 ==> |results| - |r| == if |results| < -limit then |results| else -limit
  {
    results[..SliceEnd(|results|, limit)]
  }

  /** Cutting twice with non-negative limits is cutting once with the smaller limit. */
  lemma TruncateTwice<T>(results: seq<T>, a: nat, b: nat)
    ensures Truncate(Truncate(results, a), b) == Truncate(results, if a < b then a else b)
  {
  }

  /** The only error this model keeps: the response has no `results` field. */
  datatype SearchError = MissingResults

  /**
   * The search tool: build the flag table, merge the query, ask `fetch` for
   * the `results` of the response to that query and cut them to `limit`.
   * The query that was sent is returned beside the outcome.
   */
  method SearchForPropertiesByLocation<R>(
    location: string,
    types: seq<string>,
    extras: map<string, string>,
    limit: int,
    fetch: Query -> Option<seq<R>>
  ) returns (query: Query, res: Result<seq<R>, SearchError>)
    requires ValidExtras(extras)
    ensures query == BuildQuery(location, FlagsFor(types), extras)
    ensures query[LocationKey] == if LocationKey in types then FlagOn else location
    ensures forall k :: k in KnownTypes && k !in extras ==>
      k in query && (query[k] == FlagOn <==> k in types) && (query[k] == FlagOff <==> k !in types)
    ensures res.Err? <==> fetch(query).None?
    ensures res.Ok? ==> res.value == Truncate(fetch(query).value, limit)
    ensures res.Ok? && limit >= 0 ==>
      |res.value| == (if |fetch(query).value| < limit then |fetch(query).value| else limit)
  {
    var flags := BuildPropertyTypes(types);
    query := BuildQuery(location, flags, extras);
    QueryFlags(location, types, extras);
    match fetch(query)
    case None =>
      res := Err(MissingResults);
    case Some(results) =>
      res := Ok(Truncate(results, limit));
  }
}
