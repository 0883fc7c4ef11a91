/**
 * The `OSMDataFetcher` class: the configuration tables it holds, the loops
 * that build a query, and `fetch_data` with its bounded retry and
 * exponential backoff. The HTTP POST is a parameter `post` giving the
 * outcome of each attempt, and each `time.sleep` is recorded in `sleeps`.
 */
module Fetcher {
  import opened Wrappers
  import opened Text
  import opened Config
  import opened Query

  /** One element of the Overpass answer. */
  datatype Element = Element(id: int, tags: map<string, string>)

  /** The decoded JSON answer; `elements` is absent when the answer has no such key. */
  datatype Payload = Payload(elements: Option<seq<Element>>)

  /**
   * The outcome of one POST: a decoded answer, or a `RequestException`
   * (connection error, timeout, non-2xx status, or a body that is not JSON).
   */
  datatype Outcome = Ok(payload: Payload) | Failed

  /** What `fetch_data` gives back: `(data, code)`, or the `KeyError` of `build_query`. */
  datatype FetchResult = Done(data: Option<Payload>, code: Option<string>) | TagsKeyError

  function Pow2(k: nat): (r: nat)
    ensures r >= 1
  {
    if k == 0 then 1 else 2 * Pow2(k - 1)
  }

  /** The first `count` backoff delays: `initialDelay * 2^k` for k = 0, 1, ... */
  function Backoff(initialDelay: int, count: nat): (r: seq<int>)
    ensures |r| == count
    ensures forall k :: 0 <= k < count ==> r[k] == initialDelay * Pow2(k)
  {
    seq(count, k requires 0 <= k < count => initialDelay * Pow2(k))
  }

  /** One more sleep appends the current delay, and the next delay is twice the current one. */
  lemma BackoffNext(initialDelay: int, count: nat)
    ensures Backoff(initialDelay, count + 1) == Backoff(initialDelay, count) + [initialDelay * Pow2(count)]
    ensures initialDelay * Pow2(count) * 2 == initialDelay * Pow2(count + 1)
  {
  }

  /** The sum of the delays in `delays`. */
  function TotalDelay(delays: seq<int>): int
  {
    if delays == [] then 0 else TotalDelay(delays[..|delays| - 1]) + delays[|delays| - 1]
  }

  /** Each delay doubles the previous one, so `count` sleeps wait `initialDelay * (2^count - 1)` in all. */
  lemma {:induction false} BackoffTotal(initialDelay: int, count: nat)
    ensures TotalDelay(Backoff(initialDelay, count)) == initialDelay * (Pow2(count) - 1)
  {
    if count > 0 {
      var b := Backoff(initialDelay, count);
      assert b[..count - 1] == Backoff(initialDelay, count - 1);
      BackoffTotal(initialDelay, count - 1);
      assert Pow2(count) == 2 * Pow2(count - 1);
      calc {
        TotalDelay(b);
        initialDelay * (Pow2(count - 1) - 1) + initialDelay * Pow2(count - 1);
        initialDelay * (2 * Pow2(count - 1) - 1);
      }
    }
  }

  function Max(a: int, b: int): int { if a < b then b else a }

  /** The country code `fetch_data` works with, or `None` when the name does not resolve to a non-empty code. */
  function ResolvedCode(table: CountryTable, countryName: string): (r: Option<string>)
    ensures r.Some? ==> r.value != "" && CountryCode(table, countryName) == r
    ensures r.None? ==> CountryCode(table, countryName) in {None, Some("")}
  {
    match CountryCode(table, countryName)
    case Some(code) => if code == "" then None else Some(code)
    case None => None
  }

  /**
   * The retry loop's promise for query `q`: at most `maxRetries` attempts,
   * each a POST of `q`; the first successful answer is returned; a sleep
   * follows every failed attempt but the last, with doubling delays.
   */
  ghost predicate RetriedAsPromised(q: string, code: string, maxRetries: int, initialDelay: int,
                                    post: (string, nat) -> Outcome,
                                    result: FetchResult, attempts: nat, sleeps: seq<int>)
  {
    && result.Done? && result.code == Some(code)
    && attempts <= Max(maxRetries, 0)
    && (forall j: nat :: j < attempts - 1 ==> post(q, j).Failed?)
    && (result.data.Some? ==>
          attempts >= 1 && post(q, attempts - 1) == Ok(result.data.value)
          && sleeps == Backoff(initialDelay, attempts - 1))
    && (result.data.None? ==>
          attempts == Max(maxRetries, 0)
          && (forall j: nat :: j < attempts ==> post(q, j).Failed?)
          && sleeps == Backoff(initialDelay, Max(maxRetries - 1, 0)))
  }

  /** The defaults of `fetch_data`: `max_retries=3`, `initial_delay=10`. */
  const DefaultMaxRetries := 3
  const DefaultInitialDelay := 10

  /**
   * A call that relies on the defaults makes at most three POSTs and sleeps
   * 10 and then 20 seconds between them; when all three fail it gives up
   * with `(None, code)` after both sleeps.
   */
  lemma DefaultRetries(q: string, code: string, post: (string, nat) -> Outcome,
                       result: FetchResult, attempts: nat, sleeps: seq<int>)
    requires RetriedAsPromised(q, code, DefaultMaxRetries, DefaultInitialDelay, post, result, attempts, sleeps)
    ensures 1 <= attempts <= 3 && result.code == Some(code)
    ensures result.data.Some? ==> sleeps == [10, 20][..attempts - 1]
    ensures result.data.None? ==> attempts == 3 && sleeps == [10, 20]
  {
    assert Pow2(1) == 2;
    var b := Backoff(DefaultInitialDelay, 2);
    assert b == [10, 20];
    if result.data.Some? {
      assert Backoff(DefaultInitialDelay, attempts - 1) == b[..attempts - 1];
    }
  }

  /** The retry loop returns the first successful answer, after one sleep per earlier failure. */
  lemma FirstSuccessReturned(q: string, code: string, maxRetries: int, initialDelay: int,
                             post: (string, nat) -> Outcome,
                             result: FetchResult, attempts: nat, sleeps: seq<int>, k: nat)
    requires RetriedAsPromised(q, code, maxRetries, initialDelay, post, result, attempts, sleeps)
    requires k < maxRetries && post(q, k).Ok?
    requires forall j: nat :: j < k ==> post(q, j).Failed?
    ensures result == Done(Some(post(q, k).payload), Some(code))
    ensures attempts == k + 1 && sleeps == Backoff(initialDelay, k)
  {
  }

  /** When every attempt fails the loop gives up with `(None, code)` after `maxRetries - 1` sleeps. */
  lemma AllAttemptsFail(q: string, code: string, maxRetries: int, initialDelay: int,
                        post: (string, nat) -> Outcome,
                        result: FetchResult, attempts: nat, sleeps: seq<int>)
    requires RetriedAsPromised(q, code, maxRetries, initialDelay, post, result, attempts, sleeps)
    requires forall j: nat :: j < maxRetries ==> post(q, j).Failed?
    ensures result == Done(None, Some(code))
    ensures attempts == Max(maxRetries, 0) && sleeps == Backoff(initialDelay, Max(maxRetries - 1, 0))
  {
  }

  /**
   * Two failures then a success with `maxRetries = 3`: the answer is returned
   * after sleeps of `initialDelay` and `2 * initialDelay`; with `maxRetries = 2`
   * and only failures, two attempts and one sleep.
   */
  lemma RetryScenarios(q: string, code: string, initialDelay: int, answer: Payload,
                       post: (string, nat) -> Outcome,
                       result: FetchResult, attempts: nat, sleeps: seq<int>)
    requires post(q, 0).Failed? && post(q, 1).Failed?
    ensures post(q, 2) == Ok(answer) && RetriedAsPromised(q, code, 3, initialDelay, post, result, attempts, sleeps)
            ==> result == Done(Some(answer), Some(code)) && attempts == 3 && sleeps == [initialDelay, 2 * initialDelay]
    ensures RetriedAsPromised(q, code, 2, initialDelay, post, result, attempts, sleeps)
            ==> result == Done(None, Some(code)) && attempts == 2 && sleeps == [initialDelay]
  {
  }

  class OSMDataFetcher {
    const overpassUrl: string
    /** `country_codes`: code to display name, in the JSON file's order. */
    const countryCodes: CountryTable
    /** `location_types`: type name to descriptor. */
    const locationTypes: map<string, Descriptor>

    /** The tables are given directly instead of being read from the configuration directory. */
    constructor (countryCodes: CountryTable, locationTypes: map<string, Descriptor>)
      ensures this.countryCodes == countryCodes && this.locationTypes == locationTypes
      ensures overpassUrl == "https://overpass-api.de/api/interpreter"
    {
      this.overpassUrl := "https://overpass-api.de/api/interpreter";
      this.countryCodes := countryCodes;
      this.locationTypes := locationTypes;
    }

    /** `build_tag_query`: collects one filter per condition, then joins them. */
    method BuildTagQuery(group: TagGroup) returns (fragment: string)
      ensures fragment == TagFragment(group.conditions)
    {
      var parts: seq<string> := [];
      var i := 0;
      while i < |group.conditions|
        invariant 0 <= i <= |group.conditions|
        invariant parts == Filters(group.conditions[..i])
      {
        var condition := group.conditions[i];
        parts := parts + ["[\"" + condition.key + "\"=\"" + condition.value + "\"]"];
        i := i + 1;
      }
      assert group.conditions[..i] == group.conditions;
      fragment := Concat(parts);
    }

    /** `build_query`: the header, one section per tag group, then the footer. */
    method BuildQuery(countryCode: string, locationType: string) returns (r: BuildOutcome)
      ensures r == QueryFor(locationTypes, countryCode, locationType)
    {
      var config := LocationTypeConfig(locationTypes, locationType);
      if config.None? {
        return NotFound;
      }
      var outputType := config.value.queryType.GetOr("center");
      var query := Header(countryCode);
      if config.value.tags.None? {
        return MissingTags;
      }
      var groups := config.value.tags.value;
      var i := 0;
      while i < |groups|
        invariant 0 <= i <= |groups|
        invariant query == Header(countryCode) + Concat(SectionTexts(groups[..i]))
      {
        var tagQuery := BuildTagQuery(groups[i]);
        SectionsSnoc(groups, i);
        ghost var done := Concat(SectionTexts(groups[..i]));
        AppendAssoc(Header(countryCode), done, Section(tagQuery));
        query := query + Section(tagQuery);
        i := i + 1;
      }
      assert groups[..i] == groups;
      assert outputType == OutputType(config.value);
      query := query + Footer(outputType);
      assert query == QueryText(countryCode, groups, outputType);
      r := Built(query);
    }

    /**
     * `fetch_data`: resolve the country, build the query, then POST it with
     * bounded retries. Returns the result, the number of POSTs made and the
     * delays slept.
     */
    method FetchData(countryName: string, locationType: string, maxRetries: int, initialDelay: int,
                     post: (string, nat) -> Outcome)
      returns (result: FetchResult, attempts: nat, sleeps: seq<int>)
      ensures ResolvedCode(countryCodes, countryName).None? ==>
                result == Done(None, None) && attempts == 0 && sleeps == []
      ensures ResolvedCode(countryCodes, countryName).Some? ==>
                var code := ResolvedCode(countryCodes, countryName).value;
                match QueryFor(locationTypes, code, locationType)
                case NotFound => result == Done(None, Some(code)) && attempts == 0 && sleeps == []
                case MissingTags => result == TagsKeyError && attempts == 0 && sleeps == []
                case Built(q) => RetriedAsPromised(q, code, maxRetries, initialDelay, post, result, attempts, sleeps)
    {
      var countryCode := CountryCode(countryCodes, countryName);
      if countryCode.None? || countryCode.value == "" {
        return Done(None, None), 0, [];
      }
      var code := countryCode.value;
      var query := BuildQuery(code, locationType);
      if query.NotFound? {
        return Done(None, Some(code)), 0, [];
      } else if query.MissingTags? {
        return TagsKeyError, 0, [];
      }
      result, attempts, sleeps := PostWithRetries(query.text, code, maxRetries, initialDelay, post);
    }

    /**
     * The retry loop of `fetch_data`: POST `query` up to `maxRetries` times,
     * returning the first answer, and sleep `initialDelay`, `2 * initialDelay`,
     * ... after every failed attempt but the last.
     */
    method PostWithRetries(query: string, code: string, maxRetries: int, initialDelay: int,
                           post: (string, nat) -> Outcome)
      returns (result: FetchResult, attempts: nat, sleeps: seq<int>)
      ensures RetriedAsPromised(query, code, maxRetries, initialDelay, post, result, attempts, sleeps)
    {
      attempts, sleeps := 0, [];
      var retryDelay := initialDelay;
      var attempt := 0;
      while attempt < maxRetries
        invariant 0 <= attempt <= Max(maxRetries, 0)
        invariant attempts == attempt
        invariant forall j: nat :: j < attempt ==> post(query, j).Failed?
        invariant sleeps == Backoff(initialDelay, if attempt < maxRetries then attempt else Max(maxRetries - 1, 0))
        invariant retryDelay == initialDelay * Pow2(|sleeps|)
        decreases maxRetries - attempt
      {
        var outcome := post(query, attempt);
        attempts := attempts + 1;
        if outcome.Ok? {
          return Done(Some(outcome.payload), Some(code)), attempts, sleeps;
        }
        if attempt < maxRetries - 1 {
          BackoffNext(initialDelay, |sleeps|);
          sleeps := sleeps + [retryDelay];
          retryDelay := retryDelay * 2;
        }
        attempt := attempt + 1;
      }
      result := Done(None, Some(code));
    }
  }
}
