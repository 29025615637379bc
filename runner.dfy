/**
 * The job logic of the command-line runner: the log level, the job list,
 * the per-job fault isolation of the main loop, and the exit code.
 *
 * Everything `main` reads from outside is a field of `World`: the outcome
 * of loading the config and inputs files, `create_scraper`, the search
 * environment of each job, and whether writing the export succeeds.
 */
module Runner {
  import opened PyJson
  import opened PyText
  import opened PinSchema
  import opened Fetcher
  import opened Search
  import opened Exporters

  // ---------------------------------------------------------------- logging

  const WARNING: int := 30
  const INFO: int := 20
  const DEBUG: int := 10

  /** The level `configure_logging` chooses for a verbosity count. */
  function LogLevel(verbosity: int): (level: int)
    ensures level == WARNING || level == INFO || level == DEBUG
  {
    if verbosity == 1 then INFO else if verbosity >= 2 then DEBUG else WARNING
  }

  /** One `-v` is INFO, two or more DEBUG, anything else (0 or negative)
      WARNING; more verbosity never raises the level. */
  lemma LogLevelChoice(verbosity: int, more: int)
    requires verbosity <= more
    ensures LogLevel(verbosity) in {WARNING, INFO, DEBUG}
    ensures LogLevel(verbosity) == INFO <==> verbosity == 1
    ensures LogLevel(verbosity) == DEBUG <==> verbosity >= 2
    ensures LogLevel(verbosity) == WARNING <==> verbosity <= 0
    ensures LogLevel(more) <= LogLevel(verbosity)
  {
  }

  // ---------------------------------------------------------------- job list

  /** An element of the inputs array that is kept as a job: an object with
      a `query` key, whatever its value. */
  function JobOf(item: Json): (r: Option<Dict>)
    ensures r.Some? <==> item.JObj? && HasKey(item.fields, "query")
    ensures r.Some? ==> r.value == item.fields
  {
    if item.JObj? && HasKey(item.fields, "query") then Some(item.fields) else None
  }

  /** `load_jobs_from_inputs` after the file is read: `loaded` is what
      reading and decoding it gave. */
  function LoadJobsSpec(loaded: Outcome<Json>): Outcome<seq<Dict>>
  {
    match loaded
    case Raise(e) => Raise(e)
    case Ok(data) => if data.JArr? then Ok(FilterMap(JobOf, data.items)) else Raise(ValueError)
  }

  /** `load_jobs_from_inputs`: the loop over the array with its two
      `continue`s. */
  method LoadJobsFromInputs(loaded: Outcome<Json>) returns (r: Outcome<seq<Dict>>)
    ensures r == LoadJobsSpec(loaded)
  {
    if loaded.Raise? {
      return Raise(loaded.exc);
    }
    var data := loaded.value;
    if !data.JArr? {
      return Raise(ValueError);
    }
    var jobs: seq<Dict> := [];
    var idx := 0;
    while idx < |data.items|
      invariant 0 <= idx <= |data.items|
      invariant jobs == FilterMap(JobOf, data.items[..idx])
    {
      var item := data.items[idx];
      idx := idx + 1;
      FilterMapSnoc(JobOf, data.items, idx);
      if !item.JObj? {
        continue;
      }
      if !HasKey(item.fields, "query") {
        continue;
      }
      jobs := jobs + [item.fields];
    }
    assert data.items[..idx] == data.items;
    return Ok(jobs);
  }

  /** A non-array raises ValueError; otherwise the jobs are exactly the
      object elements with a `query` key, in their original order. */
  lemma LoadedJobs(data: Json, job: Dict)
    ensures !data.JArr? ==> LoadJobsSpec(Ok(data)) == Raise(ValueError)
    ensures data.JArr? ==>
              && LoadJobsSpec(Ok(data)).Ok?
              && (job in LoadJobsSpec(Ok(data)).value <==>
                    exists i :: 0 <= i < |data.items| && data.items[i] == JObj(job) && HasKey(job, "query"))
              && |LoadJobsSpec(Ok(data)).value| <= |data.items|
  {
    if data.JArr? {
      FilterMapMember(JobOf, data.items, job);
      FilterMapLength(JobOf, data.items);
    }
  }

  // ---------------------------------------------------------------- build_jobs

  /** The command-line arguments `main` reads; `outputDir` has its default
      filled in by argparse. */
  datatype Args = Args(
    query: Option<string>, limit: Option<int>, filter: Option<string>,
    outputFormat: Option<string>, outputDir: string, verbose: int)

  /** `d.setdefault(k, v)`: a missing key is appended with `v`, a present
      one is left alone. */
  function SetDefault(d: Dict, k: string, v: Json): Dict
  {
    if HasKey(d, k) then d else d + [(k, v)]
  }

  /** The value under a key after one more pair is appended. */
  lemma {:induction false} LookupSnoc(d: Dict, k: string, v: Json, j: string)
    ensures Lookup(d + [(k, v)], j) == if HasKey(d, j) then Lookup(d, j) else if j == k then Some(v) else None
    decreases |d|
  {
    if d == [] {
      assert [(k, v)][0] == (k, v);
    } else {
      assert (d + [(k, v)])[1..] == d[1..] + [(k, v)];
      assert (d + [(k, v)])[0] == d[0];
      LookupSnoc(d[1..], k, v, j);
      assert HasKey(d, j) <==> d[0].0 == j || HasKey(d[1..], j) by {
        assert forall i :: 1 <= i < |d| ==> d[i] == d[1..][i - 1];
        if HasKey(d[1..], j) {
          var i :| 0 <= i < |d[1..]| && d[1..][i].0 == j;
          assert d[i + 1].0 == j;
        }
      }
    }
  }

  /** A job with its defaults filled in. */
  function WithDefaults(job: Dict, limit: int, filter: string): Dict
  {
    SetDefault(SetDefault(job, "limit", JInt(limit)), "filter", JStr(filter))
  }

  /** Filling in the defaults never overwrites: the job's own pairs come
      first and unchanged, `limit` and `filter` keep their values when
      present and take the defaults when missing, and every other key reads
      as before. */
  lemma JobDefaults(job: Dict, limit: int, filter: string, k: string)
    ensures job <= WithDefaults(job, limit, filter)
    ensures Get(WithDefaults(job, limit, filter), "limit") == if HasKey(job, "limit") then Get(job, "limit") else JInt(limit)
    ensures Get(WithDefaults(job, limit, filter), "filter") == if HasKey(job, "filter") then Get(job, "filter") else JStr(filter)
    ensures k != "limit" && k != "filter" ==> Lookup(WithDefaults(job, limit, filter), k) == Lookup(job, k)
  {
    var j1 := SetDefault(job, "limit", JInt(limit));
    JobKeysDistinct();
    SetDefaultLookup(job, "limit", JInt(limit), "limit");
    SetDefaultLookup(job, "limit", JInt(limit), "filter");
    SetDefaultLookup(job, "limit", JInt(limit), k);
    SetDefaultLookup(j1, "filter", JStr(filter), "limit");
    SetDefaultLookup(j1, "filter", JStr(filter), "filter");
    SetDefaultLookup(j1, "filter", JStr(filter), k);
  }

  /** `setdefault` keeps the dict as a prefix, adds `key` to its keys and
      changes what is read under `key` only when it was missing. */
  lemma SetDefaultLookup(d: Dict, key: string, v: Json, j: string)
    ensures d <= SetDefault(d, key, v)
    ensures HasKey(SetDefault(d, key, v), j) <==> HasKey(d, j) || j == key
    ensures Lookup(SetDefault(d, key, v), j) == if HasKey(d, j) then Lookup(d, j) else if j == key then Some(v) else None
  {
    if !HasKey(d, key) {
      LookupSnoc(d, key, v, j);
    }
  }

  /** The single job built from a truthy `--query`. */
  function QueryJob(args: Args, defaultLimit: int, defaultFilter: string): (r: Dict)
    requires args.query.Some?
    ensures Keys(r) == ["query", "limit", "filter"]
    ensures r[0].1 == JStr(args.query.value) && r[1].1.JInt? && r[2].1.JStr?
  {
    [("query", JStr(args.query.value)),
     ("limit", JInt(if args.limit.Some? && args.limit.value != 0 then args.limit.value else defaultLimit)),
     ("filter", JStr(if args.filter.Some? && args.filter.value != "" then args.filter.value else defaultFilter))]
  }

  /** `int(config.get("default_limit", 50))`. */
  function DefaultLimit(rt: Runtime, config: Dict): (r: Outcome<int>)
    ensures !HasKey(config, "default_limit") ==> r == Ok(50)
  {
    ToInt(rt, GetOr(config, "default_limit", JInt(50)))
  }

  /** `str(config.get("content_filter", "all"))`; None where `str` raises. */
  function DefaultFilter(rt: Runtime, config: Dict): (r: Option<string>)
    ensures !HasKey(config, "content_filter") ==> r == Some("all")
  {
    ToStr(rt, GetOr(config, "content_filter", JStr("all")))
  }

  /** What `build_jobs` returns or raises; `loaded` is only used without a
      query. */
  function BuildJobsSpec(rt: Runtime, args: Args, config: Dict, loaded: Outcome<Json>): Outcome<seq<Dict>>
  {
    match DefaultLimit(rt, config)
    case Raise(e) => Raise(e)
    case Ok(dl) =>
      match DefaultFilter(rt, config)
      case None => Raise(RecursionError)
      case Some(df) =>
        if args.query.Some? && args.query.value != "" then Ok([QueryJob(args, dl, df)])
        else
          match LoadJobsSpec(loaded)
          case Raise(e) => Raise(e)
          case Ok(jobs) => Ok(seq(|jobs|, i requires 0 <= i < |jobs| => WithDefaults(jobs[i], dl, df)))
  }

  /** `build_jobs`: the loaded jobs get their defaults one by one. */
  method BuildJobs(rt: Runtime, args: Args, config: Dict, loaded: Outcome<Json>) returns (r: Outcome<seq<Dict>>)
    ensures r == BuildJobsSpec(rt, args, config, loaded)
  {
    var limit := DefaultLimit(rt, config);
    if limit.Raise? {
      return Raise(limit.exc);
    }
    var filter := DefaultFilter(rt, config);
    if filter.None? {
      return Raise(RecursionError);
    }
    var defaultLimit, defaultFilter := limit.value, filter.value;
    if args.query.Some? && args.query.value != "" {
      return Ok([QueryJob(args, defaultLimit, defaultFilter)]);
    }
    var jobs := LoadJobsFromInputs(loaded);
    if jobs.Raise? {
      return jobs;
    }
    var loadedJobs := jobs.value;
    var updated: seq<Dict> := [];
    var i := 0;
    while i < |loadedJobs|
      invariant 0 <= i <= |loadedJobs|
      invariant |updated| == i
      invariant forall k :: 0 <= k < i ==> updated[k] == WithDefaults(loadedJobs[k], defaultLimit, defaultFilter)
    {
      var job := loadedJobs[i];
      job := SetDefault(job, "limit", JInt(defaultLimit));
      job := SetDefault(job, "filter", JStr(defaultFilter));
      updated := updated + [job];
      i := i + 1;
    }
    assert updated == seq(|loadedJobs|, k requires 0 <= k < |loadedJobs| => WithDefaults(loadedJobs[k], defaultLimit, defaultFilter));
    return Ok(updated);
  }

  /** With a truthy `--query` there is exactly one job; its `limit` is
      `--limit` unless that is missing or 0, its `filter` `--filter` unless
      that is missing or empty. */
  lemma QueryGivesOneJob(rt: Runtime, args: Args, config: Dict, loaded: Outcome<Json>)
    requires args.query.Some? && args.query.value != ""
    requires DefaultLimit(rt, config).Ok? && DefaultFilter(rt, config).Some?
    ensures var r := BuildJobsSpec(rt, args, config, loaded);
            var job := r.value[0];
            && r.Ok? && |r.value| == 1
            && Get(job, "query") == JStr(args.query.value)
            && Get(job, "limit") == JInt(if args.limit.Some? && args.limit.value != 0 then args.limit.value
                                         else DefaultLimit(rt, config).value)
            && Get(job, "filter") == JStr(if args.filter.Some? && args.filter.value != "" then args.filter.value
                                          else DefaultFilter(rt, config).value)
  {
    var job := QueryJob(args, DefaultLimit(rt, config).value, DefaultFilter(rt, config).value);
    JobKeysDistinct();
    assert job[0].0 == "query" && job[1].0 == "limit" && job[2].0 == "filter";
  }

  /** The three keys of a job are different strings. */
  lemma JobKeysDistinct()
    ensures "query" != "limit" && "query" != "filter" && "limit" != "filter"
  {
    assert "query"[0] != "limit"[0] && "query"[0] != "filter"[0] && "limit"[0] != "filter"[0];
  }

  /** Without a query, the jobs are the loaded ones in order, each with its
      missing `limit` and `filter` filled in and nothing overwritten. */
  lemma FileJobsDefaulted(rt: Runtime, args: Args, config: Dict, loaded: Outcome<Json>, i: nat)
    requires !(args.query.Some? && args.query.value != "")
    requires DefaultLimit(rt, config).Ok? && DefaultFilter(rt, config).Some?
    requires LoadJobsSpec(loaded).Ok? && i < |LoadJobsSpec(loaded).value|
    ensures var r := BuildJobsSpec(rt, args, config, loaded);
            var job := LoadJobsSpec(loaded).value[i];
            var dl, df := DefaultLimit(rt, config).value, DefaultFilter(rt, config).value;
            && r.Ok? && |r.value| == |LoadJobsSpec(loaded).value|
            && job <= r.value[i]
            && Get(r.value[i], "limit") == (if HasKey(job, "limit") then Get(job, "limit") else JInt(dl))
            && Get(r.value[i], "filter") == (if HasKey(job, "filter") then Get(job, "filter") else JStr(df))
  {
    var dl, df := DefaultLimit(rt, config).value, DefaultFilter(rt, config).value;
    JobDefaults(LoadJobsSpec(loaded).value[i], dl, df, "query");
  }

  // ---------------------------------------------------------------- main

  /** How `main` ends: an exit code, or an exception it does not catch. */
  datatype Exit = Code(code: int) | Crash(exc: Exc)

  /** What `main` reads from outside. `jobEnv(idx)` is the search
      environment of job number `idx` (from 1); `write` says whether writing
      the records to the named file succeeds. */
  datatype World = World(
    rt: Runtime,
    config: Outcome<Json>,
    inputs: Outcome<Json>,
    createScraper: Dict -> Outcome<ScraperConfig>,
    jobEnv: nat -> Env,
    defaultOutputDir: string,
    write: (string, seq<PinRecord>) -> bool)

  /** `v.get(key)`: AttributeError on a value that is not a dict. */
  function AttrGet(v: Json, key: string): (r: Outcome<Json>)
    ensures r.Raise? <==> !v.JObj?
    ensures r.Raise? ==> r.exc == AttributeError
    ensures v.JObj? ==> r == Ok(Get(v.fields, key))
  {
    if v.JObj? then Ok(Get(v.fields, key)) else Raise(AttributeError)
  }

  /** `config.get("output", {}) or {}`. */
  function OutputCfg(config: Dict): (r: Json)
    ensures Truthy(r) || r == JObj([])
    ensures Truthy(GetOr(config, "output", JObj([]))) ==> r == GetOr(config, "output", JObj([]))
  {
    Or(GetOr(config, "output", JObj([])), JObj([]))
  }

  /** `args.output_dir or output_cfg.get("directory") or default_output_dir`. */
  function OutputDir(w: World, args: Args, outputCfg: Json): (r: Outcome<Json>)
    ensures args.outputDir != "" ==> r == Ok(JStr(args.outputDir))
    ensures r.Raise? <==> args.outputDir == "" && !outputCfg.JObj?
    ensures r.Ok? ==> Truthy(r.value) || r.value == JStr(w.defaultOutputDir)
  {
    if args.outputDir != "" then Ok(JStr(args.outputDir))
    else
      match AttrGet(outputCfg, "directory")
      case Raise(e) => Raise(e)
      case Ok(v) => Ok(Or(v, JStr(w.defaultOutputDir)))
  }

  /** `(args.output_format or output_cfg.get("format") or "json").lower()`;
      `lower` of a value that is not a string raises AttributeError. */
  function OutputFormat(args: Args, outputCfg: Json): (r: Outcome<string>)
    ensures r.Ok? ==> forall i :: 0 <= i < |r.value| ==> !('A' <= r.value[i] <= 'Z')
  {
    if args.outputFormat.Some? && args.outputFormat.value != "" then Ok(Lower(args.outputFormat.value))
    else
      match AttrGet(outputCfg, "format")
      case Raise(e) => Raise(e)
      case Ok(v) =>
        var f := Or(v, JStr("json"));
        if f.JStr? then Ok(Lower(f.s)) else Raise(AttributeError)
  }

  /** What `scraper.search` does for job number `idx` (from 1), given its
      query, limit and filter. */
  type Searcher = (nat, Json, int, string) -> Outcome<seq<PinRecord>>

  /** The search of `main`'s scraper, each job in its own environment. */
  function JobSearch(w: World, cfg: ScraperConfig): Searcher
  {
    (idx: nat, query: Json, limit: int, filter: string) => SearchSpec(cfg, w.jobEnv(idx), query, limit, filter)
  }

  /** One pass of the job loop: Raise for an exception outside its `try`
      (reading `query`, `int` of the limit, `str` of the filter), which ends
      `main`; otherwise the records the job adds: none when the search
      raises. */
  function JobSpec(rt: Runtime, search: Searcher, config: Dict, job: Dict, idx: nat): (r: Outcome<seq<PinRecord>>)
    ensures !HasKey(job, "query") ==> r == Raise(KeyError)
    ensures r.Raise? ==>
              || !HasKey(job, "query")
              || ToInt(rt, GetOr(job, "limit", GetOr(config, "default_limit", JInt(50)))).Raise?
              || ToStr(rt, GetOr(job, "filter", GetOr(config, "content_filter", JStr("all")))).None?
  {
    match Lookup(job, "query")
    case None => Raise(KeyError)
    case Some(query) =>
      match ToInt(rt, GetOr(job, "limit", GetOr(config, "default_limit", JInt(50))))
      case Raise(e) => Raise(e)
      case Ok(limit) =>
        match ToStr(rt, GetOr(job, "filter", GetOr(config, "content_filter", JStr("all"))))
        case None => Raise(RecursionError)
        case Some(filter) =>
          match search(idx, query, limit, filter)
          case Raise(_) => Ok([])
          case Ok(results) => Ok(results)
  }

  /** The results of steps `1..n`, concatenated, or the first exception
      that a step raises. */
  function Collect<T>(step: nat -> Outcome<seq<T>>, n: nat): Outcome<seq<T>>
  {
    if n == 0 then Ok([])
    else
      match Collect(step, n - 1)
      case Raise(e) => Raise(e)
      case Ok(all) =>
        match step(n)
        case Raise(e) => Raise(e)
        case Ok(more) => Ok(all + more)
  }

  /** The job loop as steps: step `idx` is job number `idx`. */
  function JobSteps(rt: Runtime, search: Searcher, config: Dict, jobs: seq<Dict>): nat -> Outcome<seq<PinRecord>>
  {
    idx => if 1 <= idx <= |jobs| then JobSpec(rt, search, config, jobs[idx - 1], idx) else Ok([])
  }

  /** `all_results` after the first `n` jobs, or the exception that ended
      the loop. */
  function RunJobs(rt: Runtime, search: Searcher, config: Dict, jobs: seq<Dict>, n: nat): Outcome<seq<PinRecord>>
  {
    Collect(JobSteps(rt, search, config, jobs), n)
  }

  /** What `main` returns, with `all_results` as far as the loop got. */
  function RunSpec(w: World, args: Args): (Exit, seq<PinRecord>)
  {
    match w.config
    case Raise(_) => (Code(1), [])
    case Ok(c) =>
      if !c.JObj? then (Code(1), [])
      else
        var config := c.fields;
        match BuildJobsSpec(w.rt, args, config, w.inputs)
        case Raise(_) => (Code(1), [])
        case Ok(jobs) =>
          if jobs == [] then (Code(1), [])
          else
            match w.createScraper(config)
            case Raise(e) => (Crash(e), [])
            case Ok(cfg) =>
              var outputCfg := OutputCfg(config);
              match OutputDir(w, args, outputCfg)
              case Raise(e) => (Crash(e), [])
              case Ok(dir) =>
                match OutputFormat(args, outputCfg)
                case Raise(e) => (Crash(e), [])
                case Ok(fmt) =>
                  if !dir.JStr? then (Crash(TypeError), [])
                  else
                    match RunJobs(w.rt, JobSearch(w, cfg), config, jobs, |jobs|)
                    case Raise(e) => (Crash(e), [])
                    case Ok(all) =>
                      match ExportTarget(NewExporter(dir.s, fmt), "pinterest_results", Some(fmt))
                      case Raise(_) => (Code(1), all)
                      case Ok(name) => (if w.write(name, all) then Code(0) else Code(1), all)
  }

  /** One pass of the job loop of `main`: the search runs inside a `try`
      whose `except` only logs. */
  method RunJob(w: World, cfg: ScraperConfig, config: Dict, job: Dict, idx: nat) returns (r: Outcome<seq<PinRecord>>)
    ensures r == JobSpec(w.rt, JobSearch(w, cfg), config, job, idx)
  {
    var query := Lookup(job, "query");
    if query.None? {
      return Raise(KeyError);
    }
    var limit := ToInt(w.rt, GetOr(job, "limit", GetOr(config, "default_limit", JInt(50))));
    if limit.Raise? {
      return Raise(limit.exc);
    }
    var filter := ToStr(w.rt, GetOr(job, "filter", GetOr(config, "content_filter", JStr("all"))));
    if filter.None? {
      return Raise(RecursionError);
    }
    var results := Search.Search(cfg, w.jobEnv(idx), query.value, limit.value, filter.value);
    if results.Raise? {
      return Ok([]);
    }
    return Ok(results.value);
  }

  /** The job loop of `main`: `all_results` is extended job by job. */
  method RunAllJobs(w: World, cfg: ScraperConfig, config: Dict, jobs: seq<Dict>) returns (r: Outcome<seq<PinRecord>>)
    ensures r == RunJobs(w.rt, JobSearch(w, cfg), config, jobs, |jobs|)
  {
    var allResults: seq<PinRecord> := [];
    var idx := 0;
    while idx < |jobs|
      invariant 0 <= idx <= |jobs|
      invariant RunJobs(w.rt, JobSearch(w, cfg), config, jobs, idx) == Ok(allResults)
    {
      var job := jobs[idx];
      idx := idx + 1;
      var results := RunJob(w, cfg, config, job, idx);
      RunJobsSnoc(w.rt, JobSearch(w, cfg), config, jobs, idx);
      if results.Raise? {
        CollectRaiseStays(JobSteps(w.rt, JobSearch(w, cfg), config, jobs), idx, |jobs|);
        return results;
      }
      allResults := allResults + results.value;
    }
    return Ok(allResults);
  }

  /** `main`, from the point where the arguments are parsed. */
  method Run(w: World, args: Args) returns (exit: Exit, allResults: seq<PinRecord>)
    ensures (exit, allResults) == RunSpec(w, args)
  {
    allResults := [];
    if w.config.Raise? || !w.config.value.JObj? {
      return Code(1), [];
    }
    var config := w.config.value.fields;
    var jobs := BuildJobs(w.rt, args, config, w.inputs);
    if jobs.Raise? || jobs.value == [] {
      return Code(1), [];
    }
    var scraper := w.createScraper(config);
    if scraper.Raise? {
      return Crash(scraper.exc), [];
    }
    var outputCfg := OutputCfg(config);
    var outputDir := OutputDir(w, args, outputCfg);
    if outputDir.Raise? {
      return Crash(outputDir.exc), [];
    }
    var outputFormat := OutputFormat(args, outputCfg);
    if outputFormat.Raise? {
      return Crash(outputFormat.exc), [];
    }
    if !outputDir.value.JStr? {
      return Crash(TypeError), [];
    }
    var exporter := NewExporter(outputDir.value.s, outputFormat.value);
    var collected := RunAllJobs(w, scraper.value, config, jobs.value);
    if collected.Raise? {
      return Crash(collected.exc), [];
    }
    allResults := collected.value;
    var target := ExportTarget(exporter, "pinterest_results", Some(outputFormat.value));
    if target.Raise? {
      return Code(1), allResults;
    }
    if !w.write(target.value, allResults) {
      return Code(1), allResults;
    }
    return Code(0), allResults;
  }

  // ---------------------------------------------------------------- properties

  /** The steps run to the end exactly when none of them raises. */
  lemma {:induction false} CollectCompletes<T>(step: nat -> Outcome<seq<T>>, n: nat)
    ensures Collect(step, n).Ok? <==> forall i :: 1 <= i <= n ==> step(i).Ok?
    decreases n
  {
    if n > 0 {
      CollectCompletes(step, n - 1);
    }
  }

  /** Once a step raises, the exception is the outcome from then on. */
  lemma {:induction false} CollectRaiseStays<T>(step: nat -> Outcome<seq<T>>, k: nat, n: nat)
    requires k <= n && Collect(step, k).Raise?
    ensures Collect(step, n) == Collect(step, k)
    decreases n
  {
    if k < n {
      CollectRaiseStays(step, k, n - 1);
    }
  }

  /** Results only accumulate: what the first `k` steps collect is a prefix
      of what the first `n` collect. */
  lemma {:induction false} CollectPrefix<T>(step: nat -> Outcome<seq<T>>, k: nat, n: nat)
    requires k <= n && Collect(step, n).Ok?
    ensures Collect(step, k).Ok? && Collect(step, k).value <= Collect(step, n).value
    decreases n
  {
    if k < n {
      CollectPrefix(step, k, n - 1);
    }
  }

  /** What is collected is exactly what the steps give. */
  lemma {:induction false} CollectMember<T>(step: nat -> Outcome<seq<T>>, n: nat, x: T)
    requires Collect(step, n).Ok?
    ensures x in Collect(step, n).value <==> exists i :: 1 <= i <= n && step(i).Ok? && x in step(i).value
    decreases n
  {
    if n > 0 {
      CollectMember(step, n - 1, x);
    }
  }

  /** Step `i + 1` of the job loop is job `i`. */
  lemma JobStepIs(rt: Runtime, search: Searcher, config: Dict, jobs: seq<Dict>, i: nat)
    requires i < |jobs|
    ensures JobSteps(rt, search, config, jobs)(i + 1) == JobSpec(rt, search, config, jobs[i], i + 1)
  {
  }

  /** One more job run. */
  lemma RunJobsSnoc(rt: Runtime, search: Searcher, config: Dict, jobs: seq<Dict>, k: nat)
    requires 0 < k <= |jobs|
    ensures RunJobs(rt, search, config, jobs, k) ==
              match RunJobs(rt, search, config, jobs, k - 1)
              case Raise(e) => Raise(e)
              case Ok(all) =>
                match JobSpec(rt, search, config, jobs[k - 1], k)
                case Raise(e) => Raise(e)
                case Ok(more) => Ok(all + more)
  {
    JobStepIs(rt, search, config, jobs, k - 1);
  }

  /** The job loop runs to the end exactly when no job raises outside its
      `try`. */
  lemma RunJobsCompletes(rt: Runtime, search: Searcher, config: Dict, jobs: seq<Dict>)
    ensures RunJobs(rt, search, config, jobs, |jobs|).Ok? <==>
              forall i :: 0 <= i < |jobs| ==> JobSpec(rt, search, config, jobs[i], i + 1).Ok?
  {
    var step := JobSteps(rt, search, config, jobs);
    CollectCompletes(step, |jobs|);
    forall i | 0 <= i < |jobs|
      ensures step(i + 1) == JobSpec(rt, search, config, jobs[i], i + 1)
    {
      JobStepIs(rt, search, config, jobs, i);
    }
    if forall i :: 0 <= i < |jobs| ==> JobSpec(rt, search, config, jobs[i], i + 1).Ok? {
      forall i | 1 <= i <= |jobs|
        ensures step(i).Ok?
      {
        assert step((i - 1) + 1).Ok?;
      }
    }
  }

  /** A completed job loop: the records of the first `k` jobs are a prefix
      of the final ones, and a record is collected exactly when some job's
      search found it. */
  lemma RunJobsMember(rt: Runtime, search: Searcher, config: Dict, jobs: seq<Dict>, k: nat, p: PinRecord)
    requires k <= |jobs| && RunJobs(rt, search, config, jobs, |jobs|).Ok?
    ensures RunJobs(rt, search, config, jobs, k).Ok?
    ensures RunJobs(rt, search, config, jobs, k).value <= RunJobs(rt, search, config, jobs, |jobs|).value
    ensures p in RunJobs(rt, search, config, jobs, |jobs|).value <==>
              exists i :: 0 <= i < |jobs| && JobSpec(rt, search, config, jobs[i], i + 1).Ok?
                          && p in JobSpec(rt, search, config, jobs[i], i + 1).value
  {
    var step := JobSteps(rt, search, config, jobs);
    CollectPrefix(step, k, |jobs|);
    CollectMember(step, |jobs|, p);
    if p in RunJobs(rt, search, config, jobs, |jobs|).value {
      var i :| 1 <= i <= |jobs| && step(i).Ok? && p in step(i).value;
      JobStepIs(rt, search, config, jobs, i - 1);
    }
    if exists i :: 0 <= i < |jobs| && JobSpec(rt, search, config, jobs[i], i + 1).Ok?
                   && p in JobSpec(rt, search, config, jobs[i], i + 1).value {
      var i :| 0 <= i < |jobs| && JobSpec(rt, search, config, jobs[i], i + 1).Ok?
               && p in JobSpec(rt, search, config, jobs[i], i + 1).value;
      JobStepIs(rt, search, config, jobs, i);
    }
  }

  /** A job whose search raises adds nothing, and the loop goes on with the
      next job. */
  lemma RaisingJobAddsNothing(rt: Runtime, search: Searcher, config: Dict, jobs: seq<Dict>, k: nat)
    requires k < |jobs| && RunJobs(rt, search, config, jobs, k).Ok?
    requires var job := jobs[k];
             && HasKey(job, "query")
             && ToInt(rt, GetOr(job, "limit", GetOr(config, "default_limit", JInt(50)))).Ok?
             && ToStr(rt, GetOr(job, "filter", GetOr(config, "content_filter", JStr("all")))).Some?
             && search(k + 1, Get(job, "query"),
                       ToInt(rt, GetOr(job, "limit", GetOr(config, "default_limit", JInt(50)))).value,
                       ToStr(rt, GetOr(job, "filter", GetOr(config, "content_filter", JStr("all")))).value).Raise?
    ensures RunJobs(rt, search, config, jobs, k + 1) == RunJobs(rt, search, config, jobs, k)
  {
    var step := JobSteps(rt, search, config, jobs);
    assert step(k + 1) == JobSpec(rt, search, config, jobs[k], k + 1) == Ok([]);
    assert RunJobs(rt, search, config, jobs, k).value + [] == RunJobs(rt, search, config, jobs, k).value;
  }

  /** `main` returns 1 when the config cannot be loaded or is not an
      object, when building the jobs raises, or when there are no jobs; it
      returns 0 only after a successful export. `ExportDecidesExit` gives
      the converse. */
  lemma ExitCodes(w: World, args: Args)
    ensures w.config.Raise? ==> RunSpec(w, args).0 == Code(1)
    ensures w.config.Ok? && !w.config.value.JObj? ==> RunSpec(w, args).0 == Code(1)
    ensures w.config.Ok? && w.config.value.JObj? ==>
              var jobs := BuildJobsSpec(w.rt, args, w.config.value.fields, w.inputs);
              (jobs.Raise? || jobs.value == []) ==> RunSpec(w, args).0 == Code(1)
    ensures RunSpec(w, args).0 == Code(0) ==> w.config.Ok? && w.config.value.JObj?
    ensures RunSpec(w, args).0 == Code(0) ==>
              var config := w.config.value.fields;
              var fmt := OutputFormat(args, OutputCfg(config));
              var dir := OutputDir(w, args, OutputCfg(config));
              && BuildJobsSpec(w.rt, args, config, w.inputs).Ok?
              && BuildJobsSpec(w.rt, args, config, w.inputs).value != []
              && fmt.Ok? && dir.Ok? && dir.value.JStr?
              && ExportTarget(NewExporter(dir.value.s, fmt.value), "pinterest_results", Some(fmt.value)).Ok?
              && w.write(ExportTarget(NewExporter(dir.value.s, fmt.value), "pinterest_results", Some(fmt.value)).value,
                         RunSpec(w, args).1)
    ensures RunSpec(w, args).0.Code? ==> RunSpec(w, args).0.code in {0, 1}
  {
  }

  /** Once every step before the export succeeds, the write alone decides
      the exit code: 0 when it succeeds, however few records were collected
      (none included), and 1 when it fails; the records are kept either
      way. */
  lemma ExportDecidesExit(w: World, args: Args)
    requires w.config.Ok? && w.config.value.JObj?
    requires var config := w.config.value.fields;
             var jobs := BuildJobsSpec(w.rt, args, config, w.inputs);
             && jobs.Ok? && jobs.value != []
             && w.createScraper(config).Ok?
             && OutputDir(w, args, OutputCfg(config)).Ok? && OutputDir(w, args, OutputCfg(config)).value.JStr?
             && OutputFormat(args, OutputCfg(config)).Ok?
             && RunJobs(w.rt, JobSearch(w, w.createScraper(config).value), config, jobs.value, |jobs.value|).Ok?
             && ExportTarget(NewExporter(OutputDir(w, args, OutputCfg(config)).value.s, OutputFormat(args, OutputCfg(config)).value),
                             "pinterest_results", Some(OutputFormat(args, OutputCfg(config)).value)).Ok?
    ensures var config := w.config.value.fields;
            var jobs := BuildJobsSpec(w.rt, args, config, w.inputs).value;
            var all := RunJobs(w.rt, JobSearch(w, w.createScraper(config).value), config, jobs, |jobs|).value;
            var fmt := OutputFormat(args, OutputCfg(config)).value;
            var name := ExportTarget(NewExporter(OutputDir(w, args, OutputCfg(config)).value.s, fmt), "pinterest_results", Some(fmt)).value;
            && (w.write(name, all) ==> RunSpec(w, args) == (Code(0), all))
            && (!w.write(name, all) ==> RunSpec(w, args) == (Code(1), all))
  {
  }

  /** An unsupported format only fails at the export, after every job has
      run: the exit code is 1 and the results were collected. */
  lemma UnsupportedFormatFailsLate(w: World, args: Args)
    requires w.config.Ok? && w.config.value.JObj?
    requires var config := w.config.value.fields;
             var jobs := BuildJobsSpec(w.rt, args, config, w.inputs);
             && jobs.Ok? && jobs.value != []
             && w.createScraper(config).Ok?
             && OutputDir(w, args, OutputCfg(config)).Ok? && OutputDir(w, args, OutputCfg(config)).value.JStr?
             && OutputFormat(args, OutputCfg(config)).Ok?
             && OutputFormat(args, OutputCfg(config)).value !in SupportedFormats
             && RunJobs(w.rt, JobSearch(w, w.createScraper(config).value), config, jobs.value, |jobs.value|).Ok?
    ensures RunSpec(w, args).0 == Code(1)
    ensures var config := w.config.value.fields;
            RunSpec(w, args).1
              == RunJobs(w.rt, JobSearch(w, w.createScraper(config).value), config,
                         BuildJobsSpec(w.rt, args, config, w.inputs).value,
                         |BuildJobsSpec(w.rt, args, config, w.inputs).value|).value
  {
    var config := w.config.value.fields;
    var fmt := OutputFormat(args, OutputCfg(config)).value;
    var dir := OutputDir(w, args, OutputCfg(config)).value;
    RejectedFormat(dir.s, fmt, "pinterest_results");
  }
}
