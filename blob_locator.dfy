/**
 * `_extract_json_blobs_from_html`: which script texts are decoded, over
 * which span, and in which order the decoded values are collected.
 *
 * A script that contains one of the two state markers is decoded over the
 * span from its first `{` to its last `}`; when that fails the script is
 * abandoned. A script whose stripped text looks like an object is then
 * decoded whole, so a marker script can contribute twice.
 */
module BlobLocator {
  import opened PyJson
  import opened PyText

  /** The substrings that mark a script as carrying the page's embedded state. */
  predicate HasMarker(text: string)
  {
    Contains(text, "__PWS_DATA__") || Contains(text, "initialReduxState")
  }

  /** `text[text.index("{") : text.rindex("}") + 1]`; None where `index` or
      `rindex` raises. */
  function BraceSlice(text: string): (r: Option<string>)
    ensures r.None? <==> '{' !in text || '}' !in text
  {
    match (IndexOf(text, '{'), LastIndexOf(text, '}'))
    case (Some(f), Some(l)) => Some(Slice(text, f, l + 1))
    case _ => None
  }

  /** The marker span runs from the first `{` of the text to its last `}`:
      no `{` comes before it and no `}` after it. */
  lemma BraceSpan(text: string)
    requires BraceSlice(text).Some? && BraceSlice(text).value != ""
    ensures var s := BraceSlice(text).value;
            exists lo | 0 <= lo <= |text| - |s| ::
              && OccursAt(text, s, lo)
              && '{' !in text[..lo] && '}' !in text[lo + |s|..]
              && s[0] == '{' && s[|s| - 1] == '}'
  {
    var f := IndexOf(text, '{').value;
    var l := LastIndexOf(text, '}').value;
    var s := BraceSlice(text).value;
    assert f < l + 1 && s == text[f..l + 1];
    assert OccursAt(text, s, f);
    assert text[f + |s|..] == text[l + 1..];
  }

  /** The marker span is empty exactly when the last `}` comes before the
      first `{`. */
  lemma BraceSpanEmpty(text: string)
    requires BraceSlice(text).Some?
    ensures BraceSlice(text).value == "" <==>
              exists l | 0 <= l < |text| :: text[l] == '}' && '{' !in text[..l] && '}' !in text[l + 1..]
  {
    var f := IndexOf(text, '{').value;
    var l := LastIndexOf(text, '}').value;
    if l < f {
      assert forall c :: c in text[..l] ==> c in text[..f];
    } else {
      forall l' | 0 <= l' < |text| && text[l'] == '}' && '}' !in text[l' + 1..]
        ensures '{' in text[..l']
      {
        assert l' == l;
        assert text[f] in text[..l'];
      }
    }
  }

  /** The stripped text starts with `{` and ends with `}`. */
  predicate LooksLikeObject(text: string)
  {
    StartsWith(Strip(text), "{") && EndsWith(Strip(text), "}")
  }

  /** The decoded marker span, when there is one: None when a brace is
      missing or the decoder rejects the span. */
  function MarkerBlob(decode: string -> Option<Json>, text: string): Option<Json>
  {
    match BraceSlice(text)
    case None => None
    case Some(span) => decode(span)
  }

  /** What one script text contributes, in order. */
  function ScriptBlobs(decode: string -> Option<Json>, text: string): seq<Json>
  {
    if text == "" then []
    else if HasMarker(text) && MarkerBlob(decode, text).None? then []
    else
      var marked := if HasMarker(text) then [MarkerBlob(decode, text).value] else [];
      var whole := if LooksLikeObject(text) && decode(text).Some? then [decode(text).value] else [];
      marked + whole
  }

  /** The blobs of a sequence of script texts, in document order. */
  function AllBlobs(decode: string -> Option<Json>, scripts: seq<string>): seq<Json>
  {
    FlatMap(ScriptsWith(decode), scripts)
  }

  /** The per-script step as a value, for one decoder. */
  function ScriptsWith(decode: string -> Option<Json>): string -> seq<Json>
  {
    t => ScriptBlobs(decode, t)
  }

  /** One pass of the script loop of `_extract_json_blobs_from_html`: what
      the script appends to `blobs`. Each `continue` of the loop is a
      `return` here. */
  method ScriptStep(decode: string -> Option<Json>, text: string) returns (found: seq<Json>)
    ensures found == ScriptBlobs(decode, text)
  {
    if text == "" {
      return [];
    }
    var marked: seq<Json> := [];
    if HasMarker(text) {
      var span := BraceSlice(text);
      if span.None? {
        return [];
      }
      var data := decode(span.value);
      if data.None? {
        return [];
      }
      marked := [data.value];
    }
    if LooksLikeObject(text) {
      var data := decode(text);
      if data.None? {
        return marked;
      }
      return marked + [data.value];
    }
    return marked;
  }

  /** `_extract_json_blobs_from_html`, over the script texts of the page. */
  method ExtractJsonBlobs(decode: string -> Option<Json>, scripts: seq<string>) returns (blobs: seq<Json>)
    ensures blobs == AllBlobs(decode, scripts)
  {
    blobs := [];
    var i := 0;
    while i < |scripts|
      invariant 0 <= i <= |scripts|
      invariant blobs == AllBlobs(decode, scripts[..i])
    {
      var found := ScriptStep(decode, scripts[i]);
      blobs := blobs + found;
      i := i + 1;
      assert scripts[..i][..i - 1] == scripts[..i - 1];
    }
    assert scripts[..i] == scripts;
  }

  lemma ScriptBlobsSplit(decode: string -> Option<Json>, text: string)
    requires text != "" && (HasMarker(text) ==> MarkerBlob(decode, text).Some?)
    ensures ScriptBlobs(decode, text) ==
              (if HasMarker(text) then [MarkerBlob(decode, text).value] else [])
              + (if LooksLikeObject(text) && decode(text).Some? then [decode(text).value] else [])
  {
  }

  /** Blobs are collected script by script: the blobs of two runs of scripts
      are the blobs of the first followed by those of the second. */
  lemma AllBlobsAppend(decode: string -> Option<Json>, a: seq<string>, b: seq<string>)
    ensures AllBlobs(decode, a + b) == AllBlobs(decode, a) + AllBlobs(decode, b)
  {
    FlatMapAppend(ScriptsWith(decode), a, b);
  }

  /** An empty script contributes nothing. */
  lemma EmptyScript(decode: string -> Option<Json>)
    ensures ScriptBlobs(decode, "") == []
  {
  }

  /** A marker script is decoded over exactly the span from its first `{` to
      its last `}`; when a brace is missing or that decode fails, the script
      contributes nothing, whatever its whole text would decode to. */
  lemma MarkerScript(decode: string -> Option<Json>, text: string)
    requires text != "" && HasMarker(text)
    ensures MarkerBlob(decode, text).None? ==> ScriptBlobs(decode, text) == []
    ensures MarkerBlob(decode, text).Some? ==>
              && |ScriptBlobs(decode, text)| >= 1
              && ScriptBlobs(decode, text)[0] == decode(BraceSlice(text).value).value
  {
  }

  /** A script without markers whose stripped text looks like an object is
      decoded whole and appended; one that does not look like an object
      contributes nothing. */
  lemma BareObjectScript(decode: string -> Option<Json>, text: string)
    requires text != "" && !HasMarker(text)
    ensures LooksLikeObject(text) && decode(text).Some? ==> ScriptBlobs(decode, text) == [decode(text).value]
    ensures !LooksLikeObject(text) || decode(text).None? ==> ScriptBlobs(decode, text) == []
  {
  }

  /** A marker script whose marker decode succeeded and which also looks like
      an object is appended twice: first the span, then the whole text. */
  lemma MarkerObjectTwice(decode: string -> Option<Json>, text: string)
    requires text != "" && HasMarker(text) && LooksLikeObject(text)
    requires MarkerBlob(decode, text).Some? && decode(text).Some?
    ensures ScriptBlobs(decode, text) == [MarkerBlob(decode, text).value, decode(text).value]
  {
  }
}
