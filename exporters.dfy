/**
 * The pure parts of `DataExporter`: the file name of an export, the choice
 * of format and its extension, the dotted-key flattening of nested dicts,
 * and the CSV header.
 *
 * Dicts are ordered lists of pairs; `Put` and `PutAll` are Python's
 * `d[k] = v` and `d.update(e)`, which keep the position of a key that is
 * already present.
 */
module Exporters {
  import opened PyJson
  import opened PyText

  // ---------------------------------------------------------------- file name

  /** A character `_build_path` keeps: alphanumerics, `-` and `_`. */
  predicate StubChar(c: char)
  {
    IsAsciiAlnum(c) || c == '-' || c == '_'
  }

  /** The file-name stub of `_build_path`: every other character becomes `_`. */
  function SafeStub(stub: string): (r: string)
    ensures |r| == |stub|
    ensures forall i :: 0 <= i < |r| ==> StubChar(r[i])
    ensures forall i :: 0 <= i < |r| ==> (if StubChar(stub[i]) then r[i] == stub[i] else r[i] == '_')
  {
    seq(|stub|, i requires 0 <= i < |stub| => if StubChar(stub[i]) then stub[i] else '_')
  }

  /** Sanitising twice is sanitising once, and a safe stub is left alone. */
  lemma SafeStubIdempotent(stub: string)
    ensures SafeStub(SafeStub(stub)) == SafeStub(stub)
    ensures (forall i :: 0 <= i < |stub| ==> StubChar(stub[i])) ==> SafeStub(stub) == stub
  {
    var s := SafeStub(stub);
    assert forall i :: 0 <= i < |s| ==> SafeStub(s)[i] == s[i];
  }

  // ---------------------------------------------------------------- format

  /** The state of a `DataExporter` that `export` reads. */
  datatype DataExporter = DataExporter(outputDir: string, defaultFormat: string)

  /** `DataExporter.__init__`, without creating the directory: the default
      format is stored lowercased. */
  function NewExporter(outputDir: string, defaultFormat: string): (e: DataExporter)
    ensures e.outputDir == outputDir
    ensures |e.defaultFormat| == |defaultFormat|
    ensures forall i :: 0 <= i < |defaultFormat| ==> e.defaultFormat[i] == LowerChar(defaultFormat[i])
  {
    DataExporter(outputDir, Lower(defaultFormat))
  }

  const SupportedFormats: seq<string> := ["json", "jsonl", "csv", "xlsx", "excel", "xml"]

  /** `(output_format or self.default_format).lower()`. */
  function ExportFormat(e: DataExporter, outputFormat: Option<string>): (fmt: string)
    ensures outputFormat.Some? && outputFormat.value != "" ==> fmt == Lower(outputFormat.value)
    ensures outputFormat.None? || outputFormat.value == "" ==> fmt == Lower(e.defaultFormat)
  {
    Lower(match outputFormat case Some(f) => (if f != "" then f else e.defaultFormat) case None => e.defaultFormat)
  }

  /** The extension `export` writes for a format; None for the formats it
      rejects. */
  function Extension(fmt: string): (r: Option<string>)
    ensures r.Some? <==> fmt in SupportedFormats
  {
    if fmt == "json" then Some("json")
    else if fmt == "jsonl" then Some("jsonl")
    else if fmt == "csv" then Some("csv")
    else if fmt == "xlsx" || fmt == "excel" then Some("xlsx")
    else if fmt == "xml" then Some("xml")
    else None
  }

  /** An extension has no dot and is its own extension. */
  lemma ExtensionShape(fmt: string)
    requires Extension(fmt).Some?
    ensures '.' !in Extension(fmt).value
    ensures Extension(Extension(fmt).value) == Extension(fmt)
  {
    var ext := Extension(fmt).value;
    assert ext == "json" || ext == "jsonl" || ext == "csv" || ext == "xlsx" || ext == "xml";
  }

  /** Every format but `excel` is its own extension; `excel` shares `xlsx`'s. */
  lemma ExtensionOfFormat(fmt: string)
    requires fmt in SupportedFormats
    ensures fmt != "excel" ==> Extension(fmt) == Some(fmt)
    ensures fmt == "excel" ==> Extension(fmt) == Some("xlsx")
  {
  }

  /** The file name `export` writes to, or the ValueError it raises first
      for an unsupported format. The directory part is left out. */
  function ExportTarget(e: DataExporter, stub: string, outputFormat: Option<string>): (r: Outcome<string>)
    ensures r.Raise? <==> ExportFormat(e, outputFormat) !in SupportedFormats
    ensures r.Raise? ==> r.exc == ValueError
  {
    match Extension(ExportFormat(e, outputFormat))
    case None => Raise(ValueError)
    case Some(ext) => Ok(SafeStub(stub) + "." + ext)
  }

  /** The name of an export splits at its last `.` into the sanitised stub
      and an extension of a supported format. */
  lemma ExportName(e: DataExporter, stub: string, outputFormat: Option<string>)
    requires ExportTarget(e, stub, outputFormat).Ok?
    ensures var name := ExportTarget(e, stub, outputFormat).value;
            && LastIndexOf(name, '.') == Some(|stub|)
            && name[..|stub|] == SafeStub(stub)
            && Extension(name[|stub| + 1..]) == Some(name[|stub| + 1..])
            && Extension(ExportFormat(e, outputFormat)) == Some(name[|stub| + 1..])
  {
    var name := ExportTarget(e, stub, outputFormat).value;
    var s := SafeStub(stub);
    var ext := Extension(ExportFormat(e, outputFormat)).value;
    ExtensionShape(ExportFormat(e, outputFormat));
    assert name == s + "." + ext;
    assert name[..|stub|] == s;
    assert name[|stub|] == '.';
    assert name[|stub| + 1..] == ext;
    LastIndexOfAt(name, '.', |stub|);
  }

  /** An exporter made with an unsupported lowercase format rejects it. */
  lemma RejectedFormat(outputDir: string, fmt: string, stub: string)
    requires fmt !in SupportedFormats
    requires forall i :: 0 <= i < |fmt| ==> !('A' <= fmt[i] <= 'Z')
    ensures ExportTarget(NewExporter(outputDir, fmt), stub, Some(fmt)) == Raise(ValueError)
  {
    LowerOfLower(fmt);
  }

  /** Helper for `FormatIgnoresCase`: the lowercase forms of its literals. */
  lemma FormatNamesLowered()
    ensures Lower("CSV") == "csv" && Lower("csv") == "csv"
    ensures Lower("Excel") == "excel" && Lower("yaml") == "yaml"
  {
    LowerOfLower("csv");
    LowerOfLower("yaml");
    var c := Lower("CSV");
    assert c[0] == 'c' && c[1] == 's' && c[2] == 'v';
    var x := Lower("Excel");
    assert x[0] == 'e' && x[1] == 'x' && x[2] == 'c' && x[3] == 'e' && x[4] == 'l';
  }

  /** The format is matched without regard to ASCII case. */
  lemma FormatIgnoresCase(e: DataExporter, stub: string)
    ensures ExportTarget(e, stub, Some("CSV")) == ExportTarget(e, stub, Some("csv")) == Ok(SafeStub(stub) + ".csv")
    ensures ExportTarget(e, stub, Some("Excel")) == Ok(SafeStub(stub) + ".xlsx")
    ensures ExportTarget(e, stub, Some("yaml")).Raise?
  {
    FormatNamesLowered();
    TargetOfFormat(e, stub, "CSV", "csv");
    TargetOfFormat(e, stub, "csv", "csv");
    TargetOfFormat(e, stub, "Excel", "excel");
    TargetOfFormat(e, stub, "yaml", "yaml");
    YamlUnsupported();
    DotJoin(SafeStub(stub));
  }

  /** Helper for `FormatIgnoresCase`: the literal `yaml` is not a supported format. */
  lemma YamlUnsupported()
    ensures Extension("yaml") == None
  {
    var y := "yaml";
    assert y[0] == 'y' && y != "xml" && y != "xlsx" && y != "excel";
    assert y != "json" && y != "jsonl" && y != "csv";
  }

  /** Helper for `FormatIgnoresCase`: the target for a non-empty requested
      format, given its lowercase form. */
  lemma TargetOfFormat(e: DataExporter, stub: string, f: string, fmt: string)
    requires f != "" && Lower(f) == fmt
    ensures Extension(fmt).None? ==> ExportTarget(e, stub, Some(f)) == Raise(ValueError)
    ensures Extension(fmt).Some? ==> ExportTarget(e, stub, Some(f)) == Ok(SafeStub(stub) + "." + Extension(fmt).value)
  {
  }

  /** Helper for `FormatIgnoresCase`: joining a name and a literal extension
      with a dot. */
  lemma DotJoin(s: string)
    ensures s + "." + "csv" == s + ".csv" && s + "." + "xlsx" == s + ".xlsx"
  {
    assert "." + "csv" == ".csv" && "." + "xlsx" == ".xlsx";
  }

  // ---------------------------------------------------------------- dicts

  /** `d[k] = v`: the value is replaced in place when `k` is present, and
      the pair appended otherwise. */
  function Put(d: Dict, k: string, v: Json): Dict
  {
    if d == [] then [(k, v)]
    else if d[0].0 == k then [(k, v)] + d[1..]
    else [d[0]] + Put(d[1..], k, v)
  }

  /** `d.update(e)`: the pairs of `e` assigned one by one, in order. */
  function PutAll(d: Dict, e: Dict): Dict
    decreases |e|
  {
    if e == [] then d else PutAll(Put(d, e[0].0, e[0].1), e[1..])
  }

  /** No value is a dict. */
  predicate NoDicts(d: Dict)
  {
    forall i :: 0 <= i < |d| ==> !d[i].1.JObj?
  }

  /** The keys of a dict with one more pair in front. */
  lemma HasKeyCons(p: (string, Json), t: Dict)
    ensures forall j :: HasKey([p] + t, j) <==> p.0 == j || HasKey(t, j)
  {
    var d := [p] + t;
    forall j
      ensures HasKey(d, j) <==> p.0 == j || HasKey(t, j)
    {
      if HasKey(t, j) {
        var i :| 0 <= i < |t| && t[i].0 == j;
        assert d[i + 1].0 == j;
      }
      if p.0 == j {
        assert d[0].0 == j;
      }
      if HasKey(d, j) && p.0 != j {
        var i :| 0 <= i < |d| && d[i].0 == j;
        assert t[i - 1].0 == j;
      }
    }
  }

  /** Assignment adds the key when it is new, keeps every other key, stores
      the value, and keeps the length when the key was present. */
  lemma {:induction false} PutSpec(d: Dict, k: string, v: Json)
    ensures forall j :: HasKey(Put(d, k, v), j) <==> HasKey(d, j) || j == k
    ensures !HasKey(d, k) ==> Put(d, k, v) == d + [(k, v)]
    ensures HasKey(d, k) ==> |Put(d, k, v)| == |d|
    ensures Lookup(Put(d, k, v), k) == Some(v)
    decreases |d|
  {
    if d == [] {
      assert [(k, v)][0].0 == k;
    } else {
      var t := d[1..];
      assert d == [d[0]] + t;
      HasKeyCons(d[0], t);
      if d[0].0 == k {
        HasKeyCons((k, v), t);
      } else {
        PutSpec(t, k, v);
        var rt := Put(t, k, v);
        HasKeyCons(d[0], rt);
        if !HasKey(d, k) {
          assert [d[0]] + (t + [(k, v)]) == d + [(k, v)];
        }
      }
    }
  }

  /** Assigning a value that is not a dict keeps a dict free of nested dicts. */
  lemma {:induction false} PutNoDicts(d: Dict, k: string, v: Json)
    requires NoDicts(d) && !v.JObj?
    ensures NoDicts(Put(d, k, v))
    decreases |d|
  {
    if d != [] && d[0].0 != k {
      assert NoDicts(d[1..]) by {
        assert forall i :: 0 <= i < |d[1..]| ==> d[1..][i] == d[i + 1];
      }
      PutNoDicts(d[1..], k, v);
    }
  }

  /** `update` only adds keys, and adds exactly the keys of `e`; values come
      from the two dicts. */
  lemma {:induction false} PutAllKeys(d: Dict, e: Dict, k: string)
    ensures HasKey(PutAll(d, e), k) <==> HasKey(d, k) || HasKey(e, k)
    decreases |e|
  {
    if e != [] {
      var d' := Put(d, e[0].0, e[0].1);
      assert PutAll(d, e) == PutAll(d', e[1..]);
      PutAllKeys(d', e[1..], k);
      PutKey(d, e[0].0, e[0].1, k);
      HasKeyTail(e, k);
    }
  }

  /** Assignment adds its key and keeps every other key. */
  lemma PutKey(d: Dict, k: string, v: Json, j: string)
    ensures HasKey(Put(d, k, v), j) <==> HasKey(d, j) || j == k
  {
    PutSpec(d, k, v);
  }

  /** The keys of a non-empty dict: its first key and those of the rest. */
  lemma HasKeyTail(e: Dict, k: string)
    requires e != []
    ensures HasKey(e, k) <==> e[0].0 == k || HasKey(e[1..], k)
  {
    assert e == [e[0]] + e[1..];
    HasKeyCons(e[0], e[1..]);
  }

  /** `update` with dicts free of nested dicts gives one free of them. */
  lemma {:induction false} PutAllNoDicts(d: Dict, e: Dict)
    requires NoDicts(d) && NoDicts(e)
    ensures NoDicts(PutAll(d, e))
    decreases |e|
  {
    if e != [] {
      PutNoDicts(d, e[0].0, e[0].1);
      assert NoDicts(e[1..]) by {
        assert forall i :: 0 <= i < |e[1..]| ==> e[1..][i] == e[i + 1];
      }
      PutAllNoDicts(Put(d, e[0].0, e[0].1), e[1..]);
    }
  }

  /** A key is present exactly when it is among the keys. */
  lemma KeysHasKey(d: Dict, k: string)
    ensures HasKey(d, k) <==> k in Keys(d)
  {
    if HasKey(d, k) {
      var i :| 0 <= i < |d| && d[i].0 == k;
      assert Keys(d)[i] == k;
    }
  }

  /** `f"{parent_key}{sep}{key}" if parent_key else key`, with `sep` `.`. */
  function NewKey(parent: string, key: string): (r: string)
    ensures parent == "" ==> r == key
    ensures parent != "" ==> r == parent + "." + key
  {
    if parent != "" then parent + "." + key else key
  }

  /** `_flatten_dict(data, parent)`. */
  function Flatten(data: Dict, parent: string): Dict
    decreases JObj(data), 1
  {
    FlattenPrefix(data, parent, |data|)
  }

  /** `items` after the loop of `_flatten_dict` has handled the first `n`
      pairs of `data`. */
  function FlattenPrefix(data: Dict, parent: string, n: nat): Dict
    requires n <= |data|
    decreases JObj(data), 0, n
  {
    if n == 0 then []
    else
      var items := FlattenPrefix(data, parent, n - 1);
      var key, value := data[n - 1].0, data[n - 1].1;
      if value.JObj? then PutAll(items, Flatten(value.fields, NewKey(parent, key)))
      else Put(items, NewKey(parent, key), value)
  }

  /** `_flatten_dict`: a loop over the pairs that recurses into dict values. */
  method FlattenDict(data: Dict, parentKey: string) returns (items: Dict)
    ensures items == Flatten(data, parentKey)
    decreases JObj(data)
  {
    items := [];
    var i := 0;
    while i < |data|
      invariant 0 <= i <= |data|
      invariant items == FlattenPrefix(data, parentKey, i)
    {
      var key, value := data[i].0, data[i].1;
      var newKey := NewKey(parentKey, key);
      if value.JObj? {
        var sub := FlattenDict(value.fields, newKey);
        items := PutAll(items, sub);
      } else {
        items := Put(items, newKey, value);
      }
      i := i + 1;
    }
  }

  /** No value of a flattened dict is a dict. */
  lemma {:induction false} FlattenNoDicts(data: Dict, parent: string)
    ensures NoDicts(Flatten(data, parent))
    decreases JObj(data), 1
  {
    FlattenPrefixNoDicts(data, parent, |data|);
  }

  lemma {:induction false} FlattenPrefixNoDicts(data: Dict, parent: string, n: nat)
    requires n <= |data|
    ensures NoDicts(FlattenPrefix(data, parent, n))
    decreases JObj(data), 0, n
  {
    if n > 0 {
      var items := FlattenPrefix(data, parent, n - 1);
      FlattenPrefixNoDicts(data, parent, n - 1);
      var key, value := data[n - 1].0, data[n - 1].1;
      if value.JObj? {
        FlattenNoDicts(value.fields, NewKey(parent, key));
        PutAllNoDicts(items, Flatten(value.fields, NewKey(parent, key)));
      } else {
        PutNoDicts(items, NewKey(parent, key), value);
      }
    }
  }

  /** The keys of the first `n` pairs stay keys as more pairs are handled. */
  lemma {:induction false} FlattenPrefixKeysKept(data: Dict, parent: string, n: nat, m: nat, k: string)
    requires n <= m <= |data| && HasKey(FlattenPrefix(data, parent, n), k)
    ensures HasKey(FlattenPrefix(data, parent, m), k)
    decreases m, 1
  {
    if n < m {
      FlattenPrefixKeysKeptStep(data, parent, n, m, k);
    }
  }

  /** The inductive step of `FlattenPrefixKeysKept`. */
  lemma {:induction false} FlattenPrefixKeysKeptStep(data: Dict, parent: string, n: nat, m: nat, k: string)
    requires n < m <= |data| && HasKey(FlattenPrefix(data, parent, n), k)
    ensures HasKey(FlattenPrefix(data, parent, m), k)
    decreases m, 0
  {
    FlattenPrefixKeysKept(data, parent, n, m - 1, k);
    FlattenPrefixKeyStep(data, parent, m, k);
  }

  /** Handling one more pair keeps every key. */
  lemma FlattenPrefixKeyStep(data: Dict, parent: string, m: nat, k: string)
    requires 1 <= m <= |data| && HasKey(FlattenPrefix(data, parent, m - 1), k)
    ensures HasKey(FlattenPrefix(data, parent, m), k)
  {
    var items := FlattenPrefix(data, parent, m - 1);
    var key, value := data[m - 1].0, data[m - 1].1;
    if value.JObj? {
      PutAllKeys(items, Flatten(value.fields, NewKey(parent, key)), k);
    } else {
      PutSpec(items, NewKey(parent, key), value);
    }
  }

  /** Every pair of `data` shows up in the flattened dict: a non-dict value
      under its dotted key, a dict value through the keys of its own
      flattening. */
  lemma FlattenKeys(data: Dict, parent: string, i: nat)
    requires i < |data|
    ensures var key, value := data[i].0, data[i].1;
            && (!value.JObj? ==> HasKey(Flatten(data, parent), NewKey(parent, key)))
            && (value.JObj? ==> forall k :: HasKey(Flatten(value.fields, NewKey(parent, key)), k) ==>
                                             HasKey(Flatten(data, parent), k))
  {
    var key, value := data[i].0, data[i].1;
    var items := FlattenPrefix(data, parent, i);
    if value.JObj? {
      forall k | HasKey(Flatten(value.fields, NewKey(parent, key)), k)
        ensures HasKey(Flatten(data, parent), k)
      {
        PutAllKeys(items, Flatten(value.fields, NewKey(parent, key)), k);
        FlattenPrefixKeysKept(data, parent, i + 1, |data|, k);
      }
    } else {
      PutSpec(items, NewKey(parent, key), value);
      FlattenPrefixKeysKept(data, parent, i + 1, |data|, NewKey(parent, key));
    }
  }

  /** A nested key path `a` → `b` becomes the key `"a.b"`. */
  lemma NestedKeyJoined(v: Json)
    requires !v.JObj?
    ensures Flatten([("a", JObj([("b", v)]))], "") == [("a.b", v)]
  {
    var inner := [("b", v)];
    assert NewKey("a", "b") == "a.b";
    assert FlattenPrefix(inner, "a", 1) == Put([], "a.b", v) == [("a.b", v)];
    var data := [("a", JObj(inner))];
    assert data[0].1.fields == inner;
    assert FlattenPrefix(data, "", 1) == PutAll([], [("a.b", v)]);
  }

  /** A dict without dict values and without repeated keys flattens to
      itself, keys and values in the same order. */
  lemma FlattenFlat(data: Dict)
    requires NoDicts(data) && UniqueKeys(data)
    ensures Flatten(data, "") == data
  {
    FlattenPrefixFlat(data, |data|);
    assert data[..|data|] == data;
  }

  lemma {:induction false} FlattenPrefixFlat(data: Dict, n: nat)
    requires n <= |data| && NoDicts(data) && UniqueKeys(data)
    ensures FlattenPrefix(data, "", n) == data[..n]
    decreases n
  {
    if n > 0 {
      FlattenPrefixFlat(data, n - 1);
      var prefix := data[..n - 1];
      var key, value := data[n - 1].0, data[n - 1].1;
      assert !value.JObj? && NewKey("", key) == key;
      assert FlattenPrefix(data, "", n) == Put(prefix, key, value);
      assert !HasKey(prefix, key) by {
        assert forall i :: 0 <= i < |prefix| ==> prefix[i].0 != key;
      }
      PutNew(prefix, key, value);
      TakeSnoc(data, n);
    }
  }

  /** Assigning a new key appends its pair. */
  lemma PutNew(d: Dict, k: string, v: Json)
    requires !HasKey(d, k)
    ensures Put(d, k, v) == d + [(k, v)]
  {
    PutSpec(d, k, v);
  }

  /** An empty nested dict contributes no key: the result is that of the
      dict without its pair. */
  lemma FlattenEmptyNested(data: Dict, parent: string, i: nat)
    requires i < |data| && data[i].1 == JObj([])
    ensures Flatten(data, parent) == Flatten(data[..i] + data[i + 1..], parent)
  {
    var rest := data[..i] + data[i + 1..];
    assert rest[..i] == data[..i];
    forall j | i <= j < |rest|
      ensures rest[j] == data[j + 1]
    {
      SkipIndex(data, rest, i, j);
    }
    FlattenPrefixSkip(data, rest, parent, i, |data|);
  }

  /** `rest` is `data` without its pair at `i`. */
  predicate Without(data: Dict, rest: Dict, i: nat)
  {
    && i < |data| && |rest| + 1 == |data| && rest[..i] == data[..i]
    && forall j :: i <= j < |rest| ==> rest[j] == data[j + 1]
  }

  lemma {:induction false} FlattenPrefixSkip(data: Dict, rest: Dict, parent: string, i: nat, n: nat)
    requires i < n <= |data| && data[i].1 == JObj([]) && Without(data, rest, i)
    ensures FlattenPrefix(data, parent, n) == FlattenPrefix(rest, parent, n - 1)
    decreases n, 1
  {
    if n == i + 1 {
      FlattenPrefixSame(data, rest, parent, i);
      FlattenPrefixEmptyLast(data, parent, n);
    } else {
      FlattenPrefixSkipStep(data, rest, parent, i, n);
    }
  }

  /** The step of `FlattenPrefixSkip` past the skipped pair. */
  lemma {:induction false} FlattenPrefixSkipStep(data: Dict, rest: Dict, parent: string, i: nat, n: nat)
    requires i + 1 < n <= |data| && data[i].1 == JObj([]) && Without(data, rest, i)
    ensures FlattenPrefix(data, parent, n) == FlattenPrefix(rest, parent, n - 1)
    decreases n, 0
  {
    FlattenPrefixSkip(data, rest, parent, i, n - 1);
    assert rest[n - 2] == data[n - 1];
    FlattenPrefixNext(data, rest, parent, n, n - 1);
  }

  /** Past the removed element, a sequence with one element removed is the
      original shifted by one. */
  lemma SkipIndex<T>(s: seq<T>, r: seq<T>, i: nat, j: nat)
    requires i <= j && j + 1 < |s| && r == s[..i] + s[i + 1..]
    ensures j < |r| && r[j] == s[j + 1]
  {
    assert r[j] == s[i + 1..][j - i];
  }

  /** A last pair whose value is an empty dict adds nothing. */
  lemma FlattenPrefixEmptyLast(data: Dict, parent: string, n: nat)
    requires 1 <= n <= |data| && data[n - 1].1 == JObj([])
    ensures FlattenPrefix(data, parent, n) == FlattenPrefix(data, parent, n - 1)
  {
    var items := FlattenPrefix(data, parent, n - 1);
    assert Flatten([], NewKey(parent, data[n - 1].0)) == [];
    assert PutAll(items, []) == items;
  }

  /** The same pair handled after the same `items` gives the same `items`. */
  lemma FlattenPrefixNext(a: Dict, b: Dict, parent: string, n: nat, m: nat)
    requires 1 <= n <= |a| && 1 <= m <= |b| && a[n - 1] == b[m - 1]
    requires FlattenPrefix(a, parent, n - 1) == FlattenPrefix(b, parent, m - 1)
    ensures FlattenPrefix(a, parent, n) == FlattenPrefix(b, parent, m)
  {
  }

  /** Two dicts that agree on their first `n` pairs agree on what those
      pairs flatten to. */
  lemma {:induction false} FlattenPrefixSame(a: Dict, b: Dict, parent: string, n: nat)
    requires n <= |a| && n <= |b| && a[..n] == b[..n]
    ensures FlattenPrefix(a, parent, n) == FlattenPrefix(b, parent, n)
    decreases n
  {
    if n > 0 {
      assert a[..n - 1] == a[..n][..n - 1] == b[..n][..n - 1] == b[..n - 1];
      assert a[n - 1] == a[..n][n - 1] == b[..n][n - 1] == b[n - 1];
      FlattenPrefixSame(a, b, parent, n - 1);
    }
  }

  // ---------------------------------------------------------------- CSV header

  /** The elements of `xs` in order of first occurrence, each once: the
      `if key not in fieldnames: fieldnames.append(key)` loop. */
  function Dedup(xs: seq<string>): seq<string>
  {
    if xs == [] then []
    else
      var d := Dedup(xs[..|xs| - 1]);
      if xs[|xs| - 1] in d then d else d + [xs[|xs| - 1]]
  }

  /** The position of the first `x` in `xs`, or `|xs|` when there is none. */
  function FirstPos(xs: seq<string>, x: string): (r: nat)
    ensures r <= |xs|
    ensures r < |xs| ==> xs[r] == x
    ensures forall k :: 0 <= k < r ==> xs[k] != x
  {
    if xs == [] then 0
    else if xs[0] == x then 0
    else 1 + FirstPos(xs[1..], x)
  }

  /** No element twice. */
  predicate NoDuplicates(xs: seq<string>)
  {
    forall i, j :: 0 <= i < j < |xs| ==> xs[i] != xs[j]
  }

  /** `Dedup` keeps every element once and orders them by first occurrence. */
  lemma {:induction false} DedupSpec(xs: seq<string>)
    ensures NoDuplicates(Dedup(xs))
    ensures forall x :: x in Dedup(xs) <==> x in xs
    ensures forall i, j :: 0 <= i < j < |Dedup(xs)| ==> FirstPos(xs, Dedup(xs)[i]) < FirstPos(xs, Dedup(xs)[j])
    decreases |xs|
  {
    DedupMembers(xs);
    DedupUnique(xs);
    if xs != [] {
      var init, last := xs[..|xs| - 1], xs[|xs| - 1];
      DedupSpec(init);
      var d := Dedup(init);
      assert xs == init + [last];
      forall x | x in init
        ensures FirstPos(xs, x) == FirstPos(init, x)
      {
        FirstPosPrefix(init, last, x);
      }
      if last !in d {
        assert FirstPos(xs, last) == |xs| - 1 by {
          FirstPosLast(init, last);
        }
        forall i | 0 <= i < |d|
          ensures FirstPos(xs, d[i]) < FirstPos(xs, last)
        {
          assert d[i] in init;
          assert FirstPos(init, d[i]) < |init| by {
            FirstPosIn(init, d[i]);
          }
        }
      }
    }
  }

  /** `Dedup` keeps exactly the elements of its input. */
  lemma {:induction false} DedupMembers(xs: seq<string>)
    ensures forall x :: x in Dedup(xs) <==> x in xs
    decreases |xs|
  {
    if xs != [] {
      var init, last := xs[..|xs| - 1], xs[|xs| - 1];
      DedupMembers(init);
      assert xs == init + [last];
    }
  }

  /** `Dedup` never lists an element twice. */
  lemma {:induction false} DedupUnique(xs: seq<string>)
    ensures NoDuplicates(Dedup(xs))
    decreases |xs|
  {
    if xs != [] {
      DedupUnique(xs[..|xs| - 1]);
    }
  }

  lemma {:induction false} FirstPosIn(xs: seq<string>, x: string)
    requires x in xs
    ensures FirstPos(xs, x) < |xs|
    decreases |xs|
  {
    if xs[0] != x {
      assert x in xs[1..];
      FirstPosIn(xs[1..], x);
    }
  }

  lemma {:induction false} FirstPosPrefix(xs: seq<string>, y: string, x: string)
    requires x in xs
    ensures FirstPos(xs + [y], x) == FirstPos(xs, x)
    decreases |xs|
  {
    if xs[0] != x {
      assert (xs + [y])[1..] == xs[1..] + [y];
      assert x in xs[1..];
      FirstPosPrefix(xs[1..], y, x);
    }
  }

  lemma {:induction false} FirstPosLast(xs: seq<string>, y: string)
    requires y !in xs
    ensures FirstPos(xs + [y], y) == |xs|
    decreases |xs|
  {
    if xs != [] {
      assert (xs + [y])[1..] == xs[1..] + [y];
      FirstPosLast(xs[1..], y);
    }
  }

  /** The keys of the rows, row by row. */
  function KeyStream(rows: seq<Dict>): seq<string>
  {
    if rows == [] then [] else KeyStream(rows[..|rows| - 1]) + Keys(rows[|rows| - 1])
  }

  /** `[self._flatten_dict(row) for row in data]`. */
  function FlatRows(rows: seq<Dict>): (r: seq<Dict>)
    ensures |r| == |rows|
    ensures forall i :: 0 <= i < |rows| ==> r[i] == Flatten(rows[i], "")
  {
    seq(|rows|, i requires 0 <= i < |rows| => Flatten(rows[i], ""))
  }

  /** The header `_export_csv` writes: None for no data, which gives an
      empty file without a header row. */
  function CsvHeader(rows: seq<Dict>): Option<seq<string>>
  {
    if rows == [] then None else Some(Dedup(KeyStream(FlatRows(rows))))
  }

  /** The fieldnames of `_export_csv`: the rows are flattened, then their
      keys collected in a nested loop. */
  method CsvFieldnames(rows: seq<Dict>) returns (header: Option<seq<string>>)
    ensures header == CsvHeader(rows)
  {
    if rows == [] {
      return None;
    }
    var flatRows := FlattenRows(rows);
    var fieldnames := CollectFieldnames(flatRows);
    return Some(fieldnames);
  }

  /** `flat_rows = [self._flatten_dict(row) for row in data]`. */
  method FlattenRows(rows: seq<Dict>) returns (flatRows: seq<Dict>)
    ensures flatRows == FlatRows(rows)
  {
    flatRows := [];
    var r := 0;
    while r < |rows|
      invariant 0 <= r <= |rows|
      invariant |flatRows| == r
      invariant forall i :: 0 <= i < r ==> flatRows[i] == Flatten(rows[i], "")
    {
      var flat := FlattenDict(rows[r], "");
      flatRows := flatRows + [flat];
      r := r + 1;
    }
  }

  /** The nested loop that appends each key not yet in `fieldnames`. */
  method CollectFieldnames(flatRows: seq<Dict>) returns (fieldnames: seq<string>)
    ensures fieldnames == Dedup(KeyStream(flatRows))
  {
    fieldnames := [];
    var b := 0;
    while b < |flatRows|
      invariant 0 <= b <= |flatRows|
      invariant fieldnames == Dedup(KeyStream(flatRows[..b]))
    {
      var keys := Keys(flatRows[b]);
      var before := KeyStream(flatRows[..b]);
      var n := 0;
      assert before + keys[..0] == before;
      while n < |keys|
        invariant 0 <= n <= |keys|
        invariant fieldnames == Dedup(before + keys[..n])
      {
        DedupSnoc(before, keys, n);
        if keys[n] !in fieldnames {
          fieldnames := fieldnames + [keys[n]];
        }
        n := n + 1;
      }
      assert keys[..n] == keys;
      KeyStreamSnoc(flatRows, b);
      b := b + 1;
    }
    assert flatRows[..b] == flatRows;
  }

  /** One more key through the header loop. */
  lemma DedupSnoc(before: seq<string>, keys: seq<string>, n: nat)
    requires n < |keys|
    ensures var d := Dedup(before + keys[..n]);
            Dedup(before + keys[..n + 1]) == if keys[n] in d then d else d + [keys[n]]
  {
    var seen := before + keys[..n];
    assert before + keys[..n + 1] == seen + [keys[n]];
    assert (seen + [keys[n]])[..|seen|] == seen;
  }

  /** The key stream of one more row. */
  lemma KeyStreamSnoc(rows: seq<Dict>, b: nat)
    requires b < |rows|
    ensures KeyStream(rows[..b + 1]) == KeyStream(rows[..b]) + Keys(rows[b])
  {
    assert rows[..b + 1][..b] == rows[..b];
  }

  /** The CSV header has no duplicates, holds every key of every flattened
      row and nothing else, and orders the keys by first occurrence across
      the rows. */
  lemma CsvHeaderSpec(rows: seq<Dict>)
    requires rows != []
    ensures var h := CsvHeader(rows).value;
            var all := KeyStream(FlatRows(rows));
            && NoDuplicates(h)
            && (forall i, k :: 0 <= i < |rows| && HasKey(Flatten(rows[i], ""), k) ==> k in h)
            && (forall k :: k in h ==> exists i :: 0 <= i < |rows| && HasKey(Flatten(rows[i], ""), k))
            && (forall i, j :: 0 <= i < j < |h| ==> FirstPos(all, h[i]) < FirstPos(all, h[j]))
  {
    var flats := FlatRows(rows);
    DedupSpec(KeyStream(flats));
    forall k
      ensures k in KeyStream(flats) <==> exists i :: 0 <= i < |rows| && HasKey(Flatten(rows[i], ""), k)
    {
      KeyStreamMember(flats, k);
      forall i | 0 <= i < |rows|
        ensures k in Keys(flats[i]) <==> HasKey(Flatten(rows[i], ""), k)
      {
        KeysHasKey(flats[i], k);
      }
    }
  }

  /** A key is in the key stream exactly when some row has it. */
  lemma {:induction false} KeyStreamMember(rows: seq<Dict>, k: string)
    ensures k in KeyStream(rows) <==> exists i :: 0 <= i < |rows| && k in Keys(rows[i])
    decreases |rows|
  {
    if rows != [] {
      var init := rows[..|rows| - 1];
      KeyStreamMember(init, k);
      assert forall i :: 0 <= i < |init| ==> init[i] == rows[i];
    }
  }

  /** Empty data has no header. */
  lemma EmptyDataNoHeader()
    ensures CsvHeader([]) == None
  {
  }
}
