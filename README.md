# Pinterest search scraper: a Dafny model of its decision logic

This project models the part of a Pinterest search scraper that decides
things. The network, the HTML parser, `json.loads` and `dateutil` are not
modelled: they become function-valued inputs (oracles). The rest is stated
exactly and proved:

- **Search request and retries**: the URL and query parameters of a search.
  The retry loop makes at most `max_retries` attempts, with a doubling backoff
  plus jitter after each failed attempt.
- **Blob selection**: gets JSON blobs out of script texts. A script with a
  marker (`__PWS_DATA__`, `initialReduxState`) is decoded between its first
  `{` and last `}`. A script that is a bare `{…}` object is decoded whole.
- **Tree walk and candidate filter**: a pre-order walk over every object
  node. A node is kept when it has an `id` key and one of `images`,
  `grid_title`, `title` (key presence, not truthiness).
- **Record normaliser**: maps a candidate onto the fixed record shape. It uses
  Python `or` chains (first truthy value) and a few key-presence choices (the
  avatar keys, the `orig` image).
- **HTML fallback**: builds minimal records from `<div>` elements. The id is
  the `data-pin-id`, else the leftmost `/digits/` of the image URL, else the
  URL's last 32 characters.
- **Search orchestration**: no response or a non-200 status gives no records.
  Otherwise the result is structured normalisation, cut off at `limit`, or the
  fallback.
- **Timestamp normaliser**: type dispatch. The integer-epoch path is exact
  floor division by 86400, followed by a civil-from-days conversion and
  `YYYY-MM-DD` formatting. `initial` is always the raw input.
- **Export helpers**: filename-stub sanitising, the format-to-extension
  dispatch, dotted-key flattening, and the ordered, de-duplicated CSV header.
- **Runner**: the verbosity-to-level choice, job-list filtering,
  `setdefault` defaulting, per-job fault isolation in `main`, and its exit
  codes.

A JSON value is the datatype `PyJson.Json`. An object is an ordered list of
key/value pairs, because Python dicts keep insertion order and the order is
observable in several places. An exception is `Raise(exc)` in an `Outcome`.
Where the code only distinguishes success from failure, a failure is `None`.

Modules, one per concern: `PyJson` and `PyText` (the Python semantics the
code relies on), `TimeUtil`, `Markup`, `Fetcher`, `BlobLocator`,
`RecordFinder`, `PinSchema`, `Normalizer`, `Fallback`, `Search`,
`Exporters` and `Runner`.

Loops become methods with loop invariants. Each such method is proved equal to
a function that states its result, and the lemmas are proved about those functions:

- `RequestWithRetries`, `ExtractJsonBlobs`, `FindPinObjects`, `FallbackParse`
  and `NormalizeCandidates` (inside `Search`) in the parser;
- `FlattenDict` and the CSV fieldname loop in the exporter;
- `LoadJobsFromInputs`, `BuildJobs`, `RunAllJobs` and `Run` in the runner.

Points of the source's behaviour that the model follows as written:

- `parse_pinterest_timestamp` returns `initial` equal to the raw value for
  every input type, lists and dicts included, although its docstring
  describes it as the original string or None (src/extractors/utils_time.py:48,
  :53; `TimeUtil.UnsupportedTimestamp`).
- `export` accepts `excel` beside `xlsx`, and writes both as `.xlsx`
  (src/outputs/exporters.py:36, :48-50; `Exporters.ExtensionOfFormat`).
- A bool is an `int` to `isinstance`, so a bool timestamp takes the numeric
  branch (src/extractors/utils_time.py:17; `TimeUtil.BoolTimestamp`).

## Model

| member | source | states |
|---|---|---|
| PyJson.Or | src/extractors/pinterest_parser.py:227-232 | `a or b` is `a` when `a` is truthy and otherwise `b`, even when `b` is falsy |
| PyJson.FirstTruthy | src/extractors/pinterest_parser.py:227-232 | an `or` chain gives the first truthy value, with every earlier value falsy, or the default when all are falsy |
| PyJson.Lookup | src/extractors/pinterest_parser.py:211 | `dict.get` finds nothing exactly when the key is absent; otherwise it gives the value of the first pair with that key |
| PyJson.ToStr | src/extractors/pinterest_parser.py:226 | `str()` of a string is the string itself, of None is `"None"`, and of an int is a non-empty numeral |
| PyJson.ToInt | src/runner.py:56 | `int()` of an int is that int; None, a list or a dict raise TypeError; a float is truncated toward zero, so the fraction dropped has the sign of the value and magnitude below 1 |
| PyText.IndexOf | src/extractors/pinterest_parser.py:119 | `str.index`: the first position of the character, and None (ValueError) exactly when it is absent |
| PyText.LastIndexOf | src/extractors/pinterest_parser.py:120 | `str.rindex`: the last position of the character, and None exactly when it is absent |
| PyText.Last | src/extractors/pinterest_parser.py:189 | `s[-32:]`: the suffix of length `min(32, len(s))` |
| PyText.StripSpan | src/extractors/pinterest_parser.py:128 | `strip()` is the contiguous piece of the text that starts where the leading whitespace ends, and only whitespace is cut off on either side of it |
| PyText.StripEnds | src/extractors/pinterest_parser.py:128 | a non-empty stripped text neither starts nor ends with whitespace |
| PyText.Lower | src/extractors/pinterest_parser.py:175 | `lower()` has the same length, maps each character by ASCII case, and leaves no upper-case letter |
| PyText.LowerOfLower | src/outputs/exporters.py:34 | lowering a text that is already lower case changes nothing |
| TimeUtil.CivilRoundTrip | src/extractors/utils_time.py:19 | the day number of every date from 0001-01-01 to 9999-12-31 is in range, and converting it back gives the same date |
| TimeUtil.DayToDate | src/extractors/utils_time.py:17-22 | a day number converts to a date exactly when it is within the supported years, and that date has this day number |
| TimeUtil.EpochDate | src/extractors/utils_time.py:17-22 | epoch seconds give the UTC date whose day contains that second; the conversion fails exactly when the floored day is out of range |
| TimeUtil.FormatDate | src/extractors/utils_time.py:55 | `strftime("%Y-%m-%d")` has ten characters, dashes at positions 4 and 7, and digits elsewhere |
| TimeUtil.FormatRoundTrip | src/extractors/utils_time.py:55 | reading a formatted date back gives the same year, month and day |
| TimeUtil.SafeToDate | src/extractors/utils_time.py:11-38 | any date the dispatch produces is a valid calendar date in the supported range |
| TimeUtil.ParsePinterestTimestamp | src/extractors/utils_time.py:40-56 | `initial` is always the raw input, and a `formatted` value always reads back as a valid date |
| TimeUtil.NullTimestamp | src/extractors/utils_time.py:14-15 | None gives `{formatted: None, initial: None}` |
| TimeUtil.EpochTimestamp | src/extractors/utils_time.py:17-22 | an int epoch gives the `YYYY-MM-DD` of the UTC day containing it, and None exactly when that day is out of range |
| TimeUtil.BoolTimestamp | src/extractors/utils_time.py:17-19 | a bool takes the numeric path: both True and False give "1970-01-01" |
| TimeUtil.UnparsedStringTimestamp | src/extractors/utils_time.py:24-35 | a string that is blank after strip, or that the parser rejects, gives no date and keeps the untrimmed string as `initial` |
| TimeUtil.ParsedStringDate | src/extractors/utils_time.py:28-32 | a parsed string gives the date of its UTC day |
| TimeUtil.NaiveTimestamp | src/extractors/utils_time.py:29-31 | a naive parsed datetime is taken as UTC: its own calendar date is the result |
| TimeUtil.AwareTimestamp | src/extractors/utils_time.py:29-32 | an aware datetime is shifted by its offset to UTC before the date is taken |
| TimeUtil.FormattedOfDay | src/extractors/utils_time.py:51-56 | the `formatted` field is the formatted civil date of the day, and None exactly when the day is out of range |
| TimeUtil.UnsupportedTimestamp | src/extractors/utils_time.py:37-38 | a list or dict gives no date and keeps the raw value as `initial` |
| Fetcher.RequestWithRetries | src/extractors/pinterest_parser.py:71-98 | at most `max_retries` attempts, each earlier one raised or gave status ≥ 500; the first other answer is returned unchanged, including a 4xx; after all attempts fail the result is None; every failed attempt is followed by a sleep between `w` and `1.5·w` with `w = backoff·2^(attempt-1)`; a negative wait makes the first sleep raise |
| Fetcher.Retryable | src/extractors/pinterest_parser.py:75-86 | an attempt is retried exactly when `session.get` raises or the answer has status 500 or more (the `HTTPError` raised inside the `try`); its use is stated by `RequestWithRetries` |
| Fetcher.MaxAttempts | src/extractors/pinterest_parser.py:74 | `range(1, max_retries + 1)` has `max_retries` attempts, or none when `max_retries` is not positive; `RequestWithRetries` bounds the attempts by it |
| Fetcher.Backoff | src/extractors/pinterest_parser.py:87 | `backoff_factor * 2 ** (attempt - 1)`: the first wait is the factor itself; `BackoffDoubles` and `BackoffSign` state the rest |
| Fetcher.FetchSpec | src/extractors/pinterest_parser.py:71-98 | what `_request_with_retries` returns or raises: a returned response never has status 500 or more, a raising sleep needs a negative factor, and no attempts give None; `RequestWithRetries` is proved equal to it |
| Fetcher.BackoffDoubles | src/extractors/pinterest_parser.py:87 | each backoff wait is twice the one before |
| Fetcher.BackoffSign | src/extractors/pinterest_parser.py:87-96 | a wait is negative, and `time.sleep` raises, exactly when the backoff factor is negative |
| BlobLocator.HasMarker | src/extractors/pinterest_parser.py:117 | a script takes the marker path exactly when its text contains `__PWS_DATA__` or `initialReduxState`; `ScriptBlobsSplit` and `MarkerScript` state its effect |
| BlobLocator.BraceSlice | src/extractors/pinterest_parser.py:119-121 | the brace slice is missing exactly when the text has no `{` or no `}` |
| BlobLocator.BraceSpan | src/extractors/pinterest_parser.py:119-121 | a non-empty brace slice runs from the first `{` to the last `}` of the text |
| BlobLocator.BraceSpanEmpty | src/extractors/pinterest_parser.py:119-121 | the slice is empty exactly when the last `}` comes before every `{` |
| BlobLocator.LooksLikeObject | src/extractors/pinterest_parser.py:128 | the stripped text starts with `{` and ends with `}`; `BareObjectScript` and `MarkerObjectTwice` state its effect |
| BlobLocator.MarkerBlob | src/extractors/pinterest_parser.py:118-125 | the decoded span from the first `{` to the last `}`, None when a brace is missing or decoding fails; `BraceSlice`, `BraceSpan` and `MarkerScript` state its parts |
| BlobLocator.ScriptStep | src/extractors/pinterest_parser.py:112-132 | the per-script body, with its two `continue`s, appends exactly `ScriptBlobs` of the script |
| BlobLocator.ExtractJsonBlobs | src/extractors/pinterest_parser.py:100-135 | the blob list is the concatenation, in script order, of each script's blobs |
| BlobLocator.ScriptBlobsSplit | src/extractors/pinterest_parser.py:117-132 | a script whose marker parse does not fail gives the marker blob, then the whole-text blob when it is a decodable `{…}` object |
| BlobLocator.AllBlobs | src/extractors/pinterest_parser.py:108-135 | the blobs of the scripts in document order, each script contributing `ScriptBlobs`; `ExtractJsonBlobs` is proved equal to it, and `AllBlobsAppend` states that scripts contribute independently |
| BlobLocator.AllBlobsAppend | src/extractors/pinterest_parser.py:111-133 | scripts contribute independently: the blobs of two runs of scripts are the concatenation of their blobs |
| BlobLocator.EmptyScript | src/extractors/pinterest_parser.py:112-114 | an empty script text contributes nothing |
| BlobLocator.MarkerScript | src/extractors/pinterest_parser.py:117-125 | a marker script whose brace-slice parse fails contributes nothing, so the whole-text attempt is skipped; when it succeeds, its first blob is the decoded slice |
| BlobLocator.BareObjectScript | src/extractors/pinterest_parser.py:128-132 | a script without a marker contributes exactly its decoded text when it strips to `{…}` and decodes, and nothing otherwise |
| BlobLocator.MarkerObjectTwice | src/extractors/pinterest_parser.py:117-132 | a marker script that is also a bare object is appended twice: the slice blob, then the whole blob |
| RecordFinder.IterDictsPreOrder | src/extractors/pinterest_parser.py:137-144 | the walk yields one object node per path, at that path; every object node is on some path; the paths are in pre-order (a parent before its descendants, children in value order) and distinct |
| RecordFinder.NodeYielded | src/extractors/pinterest_parser.py:137-144 | every object node of a tree is yielded, including one nested in any parent |
| RecordFinder.IsPinCandidate | src/extractors/pinterest_parser.py:157-159 | an `id` key and one of `images`, `grid_title`, `title`, by presence only; `NullValuesQualify` states the presence reading |
| RecordFinder.CandidatesMember | src/extractors/pinterest_parser.py:157-160 | the filter keeps exactly the nodes with `id` and one of `images`, `grid_title`, `title` |
| RecordFinder.AllDictsMember | src/extractors/pinterest_parser.py:155-156 | the nodes scanned are exactly the nodes of the walks of the blobs |
| RecordFinder.FindPinObjects | src/extractors/pinterest_parser.py:146-162 | the nested loop appends exactly the candidates of the pre-order walks of the blobs, in order |
| RecordFinder.PinObjects | src/extractors/pinterest_parser.py:146-162 | the candidates among the dict nodes of all blobs, blob by blob, each in pre-order; `FindPinObjects` is proved equal to it, and `PinObjectsSound`/`PinObjectsComplete` state its members |
| RecordFinder.PinObjectsSound | src/extractors/pinterest_parser.py:155-160 | every candidate passes the key-presence test and is an object node of some blob |
| RecordFinder.PinObjectsComplete | src/extractors/pinterest_parser.py:155-160 | every object node of any blob that passes the test is a candidate |
| RecordFinder.NullValuesQualify | src/extractors/pinterest_parser.py:157-159 | only presence counts: `{id: None, title: None}` qualifies, and `{id, description}` does not |
| PinSchema.RecordToJson | src/extractors/pinterest_parser.py:262-275 | a record is an object with the fixed keys `id, title, pinner, date, type, imageURL` |
| PinSchema.SameKeySet | src/extractors/pinterest_parser.py:191-204 | records from both paths have the same key set, with unique keys and the fixed creator and date sub-objects |
| Normalizer.SizeUrl | src/extractors/pinterest_parser.py:219-223 | the `url` of the first size entry, in order, that is an object with a `url` key, or None when there is none |
| Normalizer.PrimaryImageUrl | src/extractors/pinterest_parser.py:210-223 | `images` that is not an object gives None; an `orig` object decides alone; otherwise the first size entry with a `url` decides |
| Normalizer.CreatorSource | src/extractors/pinterest_parser.py:234-236 | the creator is `pinner` when truthy, else `owner` when truthy, else `{}`; a source that is not an object becomes `{}` |
| Normalizer.Avatar | src/extractors/pinterest_parser.py:241-247 | the avatar is the value of the first present key among small, medium and xlarge |
| Normalizer.NormalizePin | src/extractors/pinterest_parser.py:225-226 | normalisation fails exactly when `str(pin_obj.get("id"))` raises, and the record's id is that string |
| Normalizer.NormalizedFields | src/extractors/pinterest_parser.py:227-274 | title is the first truthy of `grid_title`, `title`, `description`, else `""`; the date comes from the first truthy `created_at*`; type is `"pin"` when falsy; imageURL is `""` when there is no primary URL |
| Normalizer.NormalizedCreator | src/extractors/pinterest_parser.py:238-251 | each creator field is the first truthy of its two keys in the creator source, and the avatar is taken by presence |
| Normalizer.AvatarByPresence | src/extractors/pinterest_parser.py:242-247 | a present small-image key wins even when it is null, and xlarge only counts when small and medium are absent |
| Normalizer.OrigDecides | src/extractors/pinterest_parser.py:216-221 | an `orig` object without `url` gives None without consulting other sizes, while an `orig` that is not an object is skipped |
| Fallback.AttrOr | src/extractors/pinterest_parser.py:182-185 | an attribute that is present and non-empty wins, otherwise the alternative |
| Fallback.SearchDigits | src/extractors/pinterest_parser.py:188 | `re.search` finds the leftmost `/digits/` match from a position, or reports that there is none |
| Fallback.DigitSegment | src/extractors/pinterest_parser.py:188-189 | `m.group(1)` is the digits of the leftmost `/digits/` match, and there is no group exactly when no match exists |
| Fallback.PseudoId | src/extractors/pinterest_parser.py:186-189 | the pseudo-id is the digit segment when there is one, otherwise the last `min(32, len)` characters of the URL |
| Fallback.FallbackPin | src/extractors/pinterest_parser.py:171-205 | a div gives a record exactly when its lowercased test id contains "pin" and it has an img; the record holds `src` else `data-src` else `""`, the alt text, the derived id, a null creator, the null date and type "pin" |
| Fallback.FallbackParse | src/extractors/pinterest_parser.py:164-208 | the div loop, with its `continue`s, appends exactly the records of the divs in document order |
| Fallback.FallbackPins | src/extractors/pinterest_parser.py:164-208 | the records of the divs in document order; `FallbackParse` is proved equal to it, and `FallbackPinsMember` states its members |
| Fallback.FallbackPinsMember | src/extractors/pinterest_parser.py:171-205 | a record is in the fallback list exactly when some div yields it, and there are at most as many records as divs |
| Fallback.PinTestIgnoresCase | src/extractors/pinterest_parser.py:174-175 | `Pin-123` passes the test whatever the div's image |
| Fallback.PinTestRejects | src/extractors/pinterest_parser.py:174-175 | `board` and a missing attribute fail the test |
| Fallback.SegmentExample | src/extractors/pinterest_parser.py:188-189 | `p/55/a.jpg` gives `55` |
| Fallback.NoSegmentExample | src/extractors/pinterest_parser.py:188-189 | `/1a/` has no match |
| Fallback.FallbackExample | src/extractors/pinterest_parser.py:174-204 | a worked div gives exactly the expected record |
| Search.BuildSearchUrl | src/extractors/pinterest_parser.py:58-69 | the URL is the configured base; the params are `q`, `rs=typed` and, only for the `videos` filter, `video=1`, in that order and with unique keys |
| Search.Cap | src/extractors/pinterest_parser.py:321-323 | the loop stops at `limit` records when `limit ≥ 1` and at 1 otherwise, since it tests only after an append |
| Search.PySliceTo | src/extractors/pinterest_parser.py:315 | `xs[:limit]` is a prefix of length `min(limit, len)`, and a negative limit counts from the end |
| Search.Search | src/extractors/pinterest_parser.py:278-333 | `search` returns or raises exactly what `SearchSpec` gives for every server behaviour and page |
| Search.NormalizeCandidates | src/extractors/pinterest_parser.py:317-326 | the normalise loop gives the successfully normalised candidates in order, stopping after the append that reaches the cap |
| Search.NormalizeAllPrefix | src/extractors/pinterest_parser.py:318-323 | stopping early keeps a prefix of all successes |
| Search.NormalizeAllMember | src/extractors/pinterest_parser.py:318-325 | a record is produced exactly when some candidate normalises to it; a raising candidate is skipped |
| Search.StructuredLength | src/extractors/pinterest_parser.py:317-325 | for `limit ≥ 1` the length is `min(limit, successes)`; below 1 it is one record when any candidate succeeds; the result is a prefix of all successes |
| Search.NoPageNoRecords | src/extractors/pinterest_parser.py:291-301 | no response, or a status other than 200, gives `[]` |
| Search.FromPage | src/extractors/pinterest_parser.py:303-326 | the records of a page with status 200: `fallback[:limit]` when no candidate is found, otherwise the normalised candidates up to the cap; `FallbackWhenNoCandidates` and `StructuredLength` state both paths |
| Search.FallbackWhenNoCandidates | src/extractors/pinterest_parser.py:304-315 | zero blobs or zero candidates gives `fallback[:limit]`; otherwise the structured list |
| Search.NegativeLimitDropsLast | src/extractors/pinterest_parser.py:315 | `[:-1]` drops the last fallback record and `[:0]` drops all |
| Exporters.SafeStub | src/outputs/exporters.py:22-24 | the stub keeps its length; allowed characters are kept, every other one becomes `_`, and only alphanumerics, `-` and `_` remain |
| Exporters.SafeStubIdempotent | src/outputs/exporters.py:22-24 | sanitising twice is sanitising once, and an already safe stub is unchanged |
| Exporters.NewExporter | src/outputs/exporters.py:16-18 | the exporter keeps the directory and stores the default format lowercased |
| Exporters.ExportFormat | src/outputs/exporters.py:34 | the format is `output_format` when truthy, else the default, lowercased in both cases |
| Exporters.Extension | src/outputs/exporters.py:36-53 | a format has an extension exactly when it is one of the six in `SupportedFormats`, the set at line 36 |
| Exporters.ExtensionOfFormat | src/outputs/exporters.py:39-53 | each format is its own extension except `excel`, which maps to `xlsx` |
| Exporters.ExportTarget | src/outputs/exporters.py:27-55 | `export` raises ValueError exactly when the format is unsupported, before anything is written |
| Exporters.ExtensionShape | src/outputs/exporters.py:39-53 | an extension contains no dot and maps to itself, so the extension of a written file names its format's file type |
| Exporters.RejectedFormat | src/outputs/exporters.py:17-39 | an exporter built with an unsupported lowercase format raises ValueError for it |
| Exporters.ExportName | src/outputs/exporters.py:21-25 | the file name is the sanitised stub, one dot and the format's extension |
| Exporters.FormatIgnoresCase | src/outputs/exporters.py:34-50 | `CSV` and `csv` name the same file, `Excel` gives `.xlsx`, and `yaml` raises |
| Exporters.PutSpec | src/outputs/exporters.py:123 | `items[k] = v` adds `k`, appends it at the end when new, keeps the size when present, and makes `k` read `v` |
| Exporters.PutAllKeys | src/outputs/exporters.py:121 | `update` gives the union of the keys |
| Exporters.PutAllNoDicts | src/outputs/exporters.py:121 | `update` of two dicts without nested dicts has none |
| Exporters.PutNoDicts | src/outputs/exporters.py:123 | assigning a value that is not a dict keeps a dict free of nested dicts |
| Exporters.Flatten | src/outputs/exporters.py:111-124 | `_flatten_dict(data, parent)`, the loop over the pairs with dict values merged by `update`; `FlattenDict` is proved equal to it, and `FlattenNoDicts`, `FlattenKeys`, `FlattenFlat` and `FlattenEmptyNested` state its properties |
| Exporters.NewKey | src/outputs/exporters.py:119 | the key is joined as `parent.key`, or left bare at the top level |
| Exporters.FlattenDict | src/outputs/exporters.py:111-124 | the flattening method, with its in-place `update` and assignment, gives exactly the flattening function |
| Exporters.FlattenNoDicts | src/outputs/exporters.py:118-123 | no value of the flattened dict is a dict |
| Exporters.FlattenKeys | src/outputs/exporters.py:118-123 | every non-dict entry appears under its joined key, and every key from a nested dict reaches the result |
| Exporters.NestedKeyJoined | src/outputs/exporters.py:119-121 | `{a: {b: v}}` flattens to `{"a.b": v}` |
| Exporters.FlattenFlat | src/outputs/exporters.py:118-123 | a dict with no dict values flattens to itself, with the same keys and values in the same order |
| Exporters.FlattenEmptyNested | src/outputs/exporters.py:120-121 | an empty nested dict contributes no keys |
| Exporters.Dedup | src/outputs/exporters.py:77-81 | the `if key not in fieldnames: append` loop as a function; `DedupSpec` states that it is duplicate-free, holds exactly the input's elements and orders them by first occurrence |
| Exporters.DedupSpec | src/outputs/exporters.py:78-81 | the collected names have no duplicates, are exactly the names seen, and are ordered by first occurrence |
| Exporters.FlatRows | src/outputs/exporters.py:76 | each row is flattened, in order |
| Exporters.FlattenRows | src/outputs/exporters.py:76 | the comprehension's loop gives the flattened rows |
| Exporters.CollectFieldnames | src/outputs/exporters.py:77-81 | the nested loop appends exactly the de-duplicated key stream |
| Exporters.CsvFieldnames | src/outputs/exporters.py:68-81 | the header `_export_csv` writes, None for empty data |
| Exporters.KeyStream | src/outputs/exporters.py:78-79 | the keys of the rows, row by row, in each row's key order; `KeyStreamMember` states its members |
| Exporters.CsvHeader | src/outputs/exporters.py:68-81 | no header for empty data, otherwise the deduplicated key stream of the flattened rows; `CsvFieldnames` is proved equal to it, and `CsvHeaderSpec` and `EmptyDataNoHeader` state its properties |
| Exporters.CsvHeaderSpec | src/outputs/exporters.py:75-81 | the CSV fieldnames have no duplicates, contain exactly the keys of the flattened rows, and are ordered by first occurrence across rows |
| Exporters.KeyStreamMember | src/outputs/exporters.py:78-79 | a key is in the key stream exactly when some row has it |
| Exporters.EmptyDataNoHeader | src/outputs/exporters.py:69-73 | empty data writes no header row |
| Runner.LogLevel | src/runner.py:11-16 | the level `configure_logging` sets is one of WARNING, INFO and DEBUG; `LogLevelChoice` states which |
| Runner.LogLevelChoice | src/runner.py:11-16 | verbosity 1 is INFO, 2 or more DEBUG, anything else WARNING; more verbosity never raises the level |
| Runner.JobOf | src/runner.py:43-49 | an item is kept exactly when it is an object with a `query` key, whatever its value |
| Runner.LoadJobsFromInputs | src/runner.py:35-50 | the loop with its two `continue`s gives exactly the filtered job list, and decoding failures propagate |
| Runner.LoadedJobs | src/runner.py:39-49 | a non-list raises ValueError; otherwise the jobs are exactly the object elements with a `query` key, with none added |
| Runner.SetDefault | src/runner.py:70-71 | `d.setdefault(k, v)` on an ordered dict; `SetDefaultLookup` states that it keeps `d` as a prefix and only fills a missing key |
| Runner.WithDefaults | src/runner.py:69-71 | a file job after both `setdefault` calls; `JobDefaults` states that nothing is overwritten and the missing keys take the defaults |
| Runner.SetDefaultLookup | src/runner.py:70-71 | `setdefault` keeps the dict as a prefix, adds the key to its keys, and changes the value read under that key only when it was missing |
| Runner.LookupSnoc | src/runner.py:70-71 | after `setdefault` appends a pair, an old key reads as before and only the new key reads the new value |
| Runner.JobDefaults | src/runner.py:69-71 | `setdefault` never overwrites: present `limit` and `filter` keep their values, missing ones take the defaults, and the job's pairs are kept first |
| Runner.DefaultLimit | src/runner.py:56 | `int(config.get("default_limit", 50))`: 50 when the key is missing |
| Runner.DefaultFilter | src/runner.py:57 | `str(config.get("content_filter", "all"))`: `all` when the key is missing |
| Runner.QueryJob | src/runner.py:60-64 | the job from `--query` has the keys `query`, `limit`, `filter` in that order, the query as given, an int limit and a string filter; `QueryGivesOneJob` states the values |
| Runner.BuildJobs | src/runner.py:52-72 | `build_jobs` returns or raises exactly what `BuildJobsSpec` gives |
| Runner.QueryGivesOneJob | src/runner.py:59-65 | a truthy `--query` gives one job; its `limit` is `--limit` unless missing or 0, and its `filter` is `--filter` unless missing or empty |
| Runner.FileJobsDefaulted | src/runner.py:67-72 | file jobs stay in order, and each gets its missing defaults without anything overwritten |
| Runner.JobSpec | src/runner.py:190-219 | a missing `query` key raises KeyError, and a job raises only through `job["query"]`, `int` of the limit or `str` of the filter, never through its search; `RunJob` is proved equal to it |
| Runner.RunJob | src/runner.py:189-219 | one job: reading `query`, `int` of the limit and `str` of the filter may raise out of `main`, while a raising search only adds nothing |
| Runner.RunAllJobs | src/runner.py:188-219 | the job loop extends `all_results` job by job, as `RunJobs` says |
| Runner.CollectCompletes | src/runner.py:188-219 | the loop runs to the end exactly when no step raises |
| Runner.CollectRaiseStays | src/runner.py:188-219 | an exception outside the `try` ends the loop for good |
| Runner.CollectPrefix | src/runner.py:188-219 | results only accumulate |
| Runner.CollectMember | src/runner.py:188-219 | a record is collected exactly when some step produced it |
| Runner.RunJobsCompletes | src/runner.py:188-219 | the job loop completes exactly when no job raises outside its `try` |
| Runner.RunJobsMember | src/runner.py:188-219 | `all_results` concatenates the jobs' results in job order: each prefix of jobs gives a prefix, and every record comes from some job |
| Runner.RaisingJobAddsNothing | src/runner.py:203-219 | a job whose search raises adds nothing, and the loop goes on |
| Runner.Run | src/runner.py:165-237 | `main` ends with exactly the exit code and results `RunSpec` gives |
| Runner.ExitCodes | src/runner.py:165-237 | `main` returns 1 on a config failure, a job-building failure or no jobs, and returns 0 only after a successful export (`ExportDecidesExit` gives the converse and the failed write) |
| Runner.AttrGet | src/runner.py:183-184 | `output_cfg.get(key)` raises AttributeError exactly when `output_cfg` is not a dict, and otherwise reads the key |
| Runner.OutputCfg | src/runner.py:182 | `config.get("output", {}) or {}` is truthy or the empty dict, and is the configured value whenever that is truthy |
| Runner.OutputDir | src/runner.py:183 | a non-empty `--output-dir` wins; otherwise it raises exactly when `output_cfg` is not a dict, and gives a truthy value or the default directory |
| Runner.OutputFormat | src/runner.py:184 | the chosen output format, when `lower()` does not raise, contains no upper-case ASCII letter |
| Runner.ExportDecidesExit | src/runner.py:221-237 | once every step before the export succeeds, `main` returns 0 when the write succeeds, whatever the number of results (none included), and 1 when it fails; the results are kept either way |
| Runner.UnsupportedFormatFailsLate | src/runner.py:184-235 | an unsupported format only fails at the export, after every job has run: exit 1 with the results collected |

## Left out

- HTTP: `requests.Session`, headers and timeouts are left out. The server is a function from the attempt number to "raised" or a response.
- Sleeping and randomness: `time.sleep` is not performed. The sleeps are returned as a sequence. `random.uniform` is a nondeterministic choice within its bounds.
- HTML parsing (BeautifulSoup) is left out. A page is its script texts and a list of div records. Each div record holds `data-test-id`, `data-pin-id` and the first `img` with `src`, `data-src` and `alt`. `script.string or script.text` is taken as already extracted.
- `json.loads` is a partial function given as input. `json.dump` and all file writers (json, jsonl, csv, pandas/xlsx, xml) are left out. For the writers the model keeps only the CSV header, the flattening and a write that succeeds or fails.
- `dateutil.parser.parse` is a partial function given as input. It returns a date, microseconds within the day, and an optional UTC offset.
- `Exporters.ExportTarget`: gives the file name only, because `os.path.join` with the output directory is left out.
- `os.makedirs` failures in `ensure_directory` and `DataExporter.__init__` are left out. The one modelled case is a directory value that is not a string, which raises TypeError.
- Float epochs: `datetime.fromtimestamp` of a float is a given function from the float to whole seconds. Its rounding is not modelled.
- Platform limits of `time_t` are not modelled. Conversion fails exactly outside 0001-01-01..9999-12-31 UTC.
- `strftime` quirks for years below 1000 are not modelled. The layout is stated as four zero-padded digits.
- `str()` of a float, list or dict is a given function (None where it raises). Python's `int()` of a string is a given function too.
- Unicode: `isalnum`, `lower` and the regex `\d` are modelled on ASCII. Python's Unicode-aware versions accept more characters.
- The CLI and config plumbing are left out: argparse, file existence checks, reading the config and inputs files (their outcomes are inputs), and the internals of `create_scraper`. `create_scraper` is a given function, because its `float()`/`int()` conversions and their exceptions are plumbing.
- Logging calls are left out as side effects. Only the choice of level is modelled.
- Python's recursion limit in `_iter_dicts`, `_flatten_dict` and `str()` is left out. Trees of any depth are walked.
- Object identity and aliasing are left out. `setdefault` mutates the loaded job dicts in place, which is modelled by value. `_find_pin_objects` returns the same dict objects it finds, and the model returns equal values.
- Non-finite floats are not modelled: `JFloat`, `ScraperConfig.backoffFactor` and `ScraperConfig.timeout` hold finite reals. So NaN and ±Infinity, which `json.loads` and `float()` accept, are not represented, nor are their effects: `int()` of them raising OverflowError or ValueError, `fromtimestamp` of them raising (so `formatted` would be None), NaN being truthy in the `or` chains, and `time.sleep` raising ValueError for a NaN wait or OverflowError for an infinite one.
- The `%d` formatting of the job log line is not modelled. Logging reports its own formatting errors and does not raise.
