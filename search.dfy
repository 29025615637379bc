/**
 * `_build_search_url` and `search`: the request for a query, then a small
 * state machine over the fetch result and the page.
 *
 * No response or a status other than 200 gives no records. Otherwise the
 * structured data is located and filtered; when that yields no candidate,
 * the div fallback is used and cut with Python's `[:limit]`. Candidates are
 * normalised in encounter order, skipping the ones that raise, and the loop
 * stops right after the append that brings the count to `limit`.
 */
module Search {
  import opened PyJson
  import opened TimeUtil
  import opened Markup
  import opened PinSchema
  import opened Fetcher
  import opened BlobLocator
  import opened RecordFinder
  import opened Normalizer
  import opened Fallback

  /** A GET request: the URL and its query parameters, in order. */
  datatype Request = Request(url: string, params: Dict)

  /** What a search needs from outside: the Python runtime, the date
      oracles, and the server, which may answer each request differently
      on each attempt. */
  datatype Env = Env(rt: Runtime, dates: DateOracles, server: Request -> nat -> Attempt)

  /** `_build_search_url`. */
  function BuildSearchUrl(cfg: ScraperConfig, query: Json, filter: string): (r: Request)
    ensures r.url == cfg.baseUrl
    ensures Keys(r.params) == if filter == "videos" then ["q", "rs", "video"] else ["q", "rs"]
    ensures UniqueKeys(r.params)
    ensures Get(r.params, "q") == query && Get(r.params, "rs") == JStr("typed")
    ensures Get(r.params, "video") == if filter == "videos" then JStr("1") else JNull
  {
    var params := [("q", query), ("rs", JStr("typed"))];
    var all := if filter == "videos" then params + [("video", JStr("1"))] else params;
    assert all[0] == ("q", query) && all[1] == ("rs", JStr("typed"));
    assert filter == "videos" ==> all[2] == ("video", JStr("1"));
    Request(cfg.baseUrl, all)
  }

  /** The records of the candidates that normalise, in order; a candidate
      whose normalisation raises is skipped. */
  function NormalizeAll(rt: Runtime, o: DateOracles, pins: seq<Dict>): seq<PinRecord>
  {
    FilterMap(NormalizeWith(rt, o), pins)
  }

  /** `_normalize_pin` as a value, for one runtime and set of date oracles. */
  function NormalizeWith(rt: Runtime, o: DateOracles): Dict -> Option<PinRecord>
  {
    d => NormalizePin(rt, o, d)
  }

  /** The count at which the normalise loop stops: it tests the length only
      after an append, so a `limit` below 1 still lets one record through. */
  function Cap(limit: int): (r: nat)
    ensures r >= 1
    ensures limit >= 1 ==> r == limit
  {
    if limit >= 1 then limit else 1
  }

  /** The first `n` elements, or all when there are fewer. */
  function Take<T>(xs: seq<T>, n: nat): (r: seq<T>)
    ensures |r| == if n <= |xs| then n else |xs|
    ensures r <= xs
  {
    if n <= |xs| then xs[..n] else xs
  }

  /** Python `xs[:limit]`: a negative `limit` counts from the end. */
  function PySliceTo<T>(xs: seq<T>, limit: int): (r: seq<T>)
    ensures r <= xs
    ensures limit >= 0 ==> |r| == if limit <= |xs| then limit else |xs|
    ensures limit < 0 ==> |r| == if |xs| + limit >= 0 then |xs| + limit else 0
  {
    if limit >= 0 then Take(xs, limit)
    else if |xs| + limit >= 0 then xs[..|xs| + limit]
    else []
  }

  /** The structured path once a non-empty candidate list is known. */
  function Structured(rt: Runtime, o: DateOracles, pins: seq<Dict>, limit: int): seq<PinRecord>
  {
    Take(NormalizeAll(rt, o, pins), Cap(limit))
  }

  /** What `search` returns for a page that came back with status 200. */
  function FromPage(env: Env, page: Page, limit: int): seq<PinRecord>
  {
    var blobs := AllBlobs(env.rt.decode, page.scripts);
    var raw := if blobs != [] then PinObjects(blobs) else [];
    if raw == [] then PySliceTo(FallbackPins(env.dates, page.divs), limit)
    else Structured(env.rt, env.dates, raw, limit)
  }

  /** What `search` returns or raises. The only exception that escapes it is
      the one `time.sleep` raises for a negative wait. */
  function SearchSpec(cfg: ScraperConfig, env: Env, query: Json, limit: int, filter: string)
    : Outcome<seq<PinRecord>>
  {
    match FetchSpec(cfg, env.server(BuildSearchUrl(cfg, query, filter)))
    case SleepRaised => Raise(ValueError)
    case NoResponse => Ok([])
    case Fetched(resp) => if resp.status != 200 then Ok([]) else Ok(FromPage(env, resp.page, limit))
  }

  /** `search`. */
  method Search(cfg: ScraperConfig, env: Env, query: Json, limit: int, filter: string)
    returns (r: Outcome<seq<PinRecord>>)
    ensures r == SearchSpec(cfg, env, query, limit, filter)
  {
    var req := BuildSearchUrl(cfg, query, filter);
    var resp, _, _ := RequestWithRetries(cfg, env.server(req));
    if resp.SleepRaised? {
      return Raise(ValueError);
    }
    if resp.NoResponse? {
      return Ok([]);
    }
    if resp.resp.status != 200 {
      return Ok([]);
    }
    var page := resp.resp.page;
    var blobs := ExtractJsonBlobs(env.rt.decode, page.scripts);
    var pinsRaw: seq<Dict> := [];
    if blobs != [] {
      pinsRaw := FindPinObjects(blobs);
    }
    if pinsRaw == [] {
      var fallback := FallbackParse(env.dates, page.divs);
      return Ok(PySliceTo(fallback, limit));
    }
    var normalized := NormalizeCandidates(NormalizeWith(env.rt, env.dates), pinsRaw, limit);
    return Ok(normalized);
  }

  /** The normalise loop of `search`, for a per-candidate step `f` that
      fails (None) where `_normalize_pin` raises: the successes in order,
      stopping right after the append that makes the count reach `limit`. */
  method NormalizeCandidates<A, B>(f: A -> Option<B>, pinsRaw: seq<A>, limit: int)
    returns (normalized: seq<B>)
    ensures normalized == Take(FilterMap(f, pinsRaw), Cap(limit))
  {
    normalized := [];
    var i := 0;
    while i < |pinsRaw|
      invariant 0 <= i <= |pinsRaw|
      invariant normalized == FilterMap(f, pinsRaw[..i])
      invariant |normalized| < Cap(limit)
    {
      var pin := f(pinsRaw[i]);
      i := i + 1;
      FilterMapSnoc(f, pinsRaw, i);
      if pin.Some? {
        normalized := normalized + [pin.value];
        if |normalized| >= limit {
          FilterMapPrefix(f, pinsRaw, i);
          return;
        }
      }
    }
    assert pinsRaw[..i] == pinsRaw;
  }

  /** Stopping after `i` candidates with `Cap(limit)` records gives exactly
      the structured result. */
  lemma NormalizeAllPrefix(rt: Runtime, o: DateOracles, pins: seq<Dict>, i: nat)
    requires i <= |pins| && |NormalizeAll(rt, o, pins[..i])| >= 1
    ensures |NormalizeAll(rt, o, pins[..i])| <= |NormalizeAll(rt, o, pins)|
    ensures Take(NormalizeAll(rt, o, pins), |NormalizeAll(rt, o, pins[..i])|) == NormalizeAll(rt, o, pins[..i])
  {
    FilterMapPrefix(NormalizeWith(rt, o), pins, i);
  }

  /** Every record comes from a candidate that normalises, and every such
      candidate contributes its record. */
  lemma NormalizeAllMember(rt: Runtime, o: DateOracles, pins: seq<Dict>, p: PinRecord)
    ensures p in NormalizeAll(rt, o, pins) <==> exists i :: 0 <= i < |pins| && NormalizePin(rt, o, pins[i]) == Some(p)
    ensures |NormalizeAll(rt, o, pins)| <= |pins|
  {
    FilterMapMember(NormalizeWith(rt, o), pins, p);
    FilterMapLength(NormalizeWith(rt, o), pins);
  }

  /** With a limit of at least one, the structured path returns
      `min(limit, successes)` records, where `successes` is the number of
      candidates that normalise; below one, a single record when any does. */
  lemma StructuredLength(rt: Runtime, o: DateOracles, pins: seq<Dict>, limit: int)
    ensures var n := |NormalizeAll(rt, o, pins)|;
            limit >= 1 ==> |Structured(rt, o, pins, limit)| == if limit <= n then limit else n
    ensures limit < 1 ==> |Structured(rt, o, pins, limit)| == if NormalizeAll(rt, o, pins) == [] then 0 else 1
    ensures Structured(rt, o, pins, limit) <= NormalizeAll(rt, o, pins)
  {
  }

  /** No response, or a status other than 200, gives no records; a server
      error on the last attempt is no response. */
  lemma NoPageNoRecords(cfg: ScraperConfig, env: Env, query: Json, limit: int, filter: string)
    requires var f := FetchSpec(cfg, env.server(BuildSearchUrl(cfg, query, filter)));
             f.NoResponse? || (f.Fetched? && f.resp.status != 200)
    ensures SearchSpec(cfg, env, query, limit, filter) == Ok([])
  {
  }

  /** The fallback is used exactly when the structured path finds no
      candidate, and is then cut with `[:limit]`. */
  lemma FallbackWhenNoCandidates(env: Env, page: Page, limit: int)
    ensures PinObjects(AllBlobs(env.rt.decode, page.scripts)) == [] ==>
              FromPage(env, page, limit) == PySliceTo(FallbackPins(env.dates, page.divs), limit)
    ensures PinObjects(AllBlobs(env.rt.decode, page.scripts)) != [] ==>
              FromPage(env, page, limit) == Structured(env.rt, env.dates, PinObjects(AllBlobs(env.rt.decode, page.scripts)), limit)
  {
    var blobs := AllBlobs(env.rt.decode, page.scripts);
    if blobs == [] {
      assert PinObjects(blobs) == [];
    }
  }

  /** Python slicing with a negative limit drops records from the end:
      `[:-1]` of a fallback list loses its last record. */
  lemma NegativeLimitDropsLast<T>(xs: seq<T>)
    requires xs != []
    ensures PySliceTo(xs, -1) == xs[..|xs| - 1]
    ensures PySliceTo(xs, 0) == []
  {
  }
}
