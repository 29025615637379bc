/**
 * `_fallback_parse_from_html`: minimal records read from the page's `<div>`
 * elements when no structured data was found.
 *
 * A div is used when its lowercased `data-test-id` contains "pin" and it
 * has an `<img>`. The id is a non-empty `data-pin-id`, else the digits of
 * the leftmost `/digits/` in the image URL, else the URL's last 32
 * characters.
 */
module Fallback {
  import opened PyJson
  import opened PyText
  import opened TimeUtil
  import opened Markup
  import opened PinSchema

  /** `a or b` for an attribute `a` that may be missing: `a` when it is
      present and non-empty, otherwise `b`. */
  function AttrOr(a: Option<string>, b: string): (r: string)
    ensures a.Some? && a.value != "" ==> r == a.value
    ensures a.None? || a.value == "" ==> r == b
  {
    match a
    case Some(s) => if s != "" then s else b
    case None => b
  }

  /** The first position from `k` on that is not an ASCII digit, or the end. */
  function DigitRunEnd(url: string, k: nat): (r: nat)
    requires k <= |url|
    ensures k <= r <= |url|
    ensures forall i :: k <= i < r ==> IsAsciiDigit(url[i])
    ensures r == |url| || !IsAsciiDigit(url[r])
    decreases |url| - k
  {
    if k == |url| || !IsAsciiDigit(url[k]) then k else DigitRunEnd(url, k + 1)
  }

  /** `/(\d+)/` matches `url[p..q+1]`: a slash at `p`, one or more digits,
      a slash at `q`. */
  predicate SlashDigitsAt(url: string, p: int, q: int)
  {
    0 <= p && p + 1 < q < |url| && url[p] == '/' && url[q] == '/'
    && forall i :: p < i < q ==> IsAsciiDigit(url[i])
  }

  /** At a given start there is at most one match, and it ends at the first
      non-digit after the slash. */
  lemma MatchEnd(url: string, p: int, q: int)
    requires SlashDigitsAt(url, p, q)
    ensures q == DigitRunEnd(url, p + 1)
  {
  }

  /** `re.search(r"/(\d+)/", url)` from position `p` on: the leftmost
      match, as the positions of its two slashes, or None. */
  function SearchDigits(url: string, p: nat): (r: Option<(nat, nat)>)
    requires p <= |url|
    ensures r.Some? ==> p <= r.value.0 && SlashDigitsAt(url, r.value.0, r.value.1)
    ensures r.Some? ==> forall s, q :: p <= s < r.value.0 ==> !SlashDigitsAt(url, s, q)
    ensures r.None? ==> forall s, q :: p <= s ==> !SlashDigitsAt(url, s, q)
    decreases |url| - p
  {
    if p == |url| then None
    else if url[p] == '/' && DigitRunEnd(url, p + 1) > p + 1
            && DigitRunEnd(url, p + 1) < |url| && url[DigitRunEnd(url, p + 1)] == '/' then
      Some((p, DigitRunEnd(url, p + 1)))
    else
      var r := SearchDigits(url, p + 1);
      assert forall q :: !SlashDigitsAt(url, p, q) by {
        forall q | SlashDigitsAt(url, p, q)
          ensures false
        {
          MatchEnd(url, p, q);
        }
      }
      r
  }

  /** `m.group(1)` of `re.search(r"/(\d+)/", url)`, with ASCII digits: the
      digits between the slashes of the leftmost match. */
  function DigitSegment(url: string): (r: Option<string>)
    ensures r.None? <==> forall s, q :: !SlashDigitsAt(url, s, q)
    ensures r.Some? ==>
              exists s, q :: && SlashDigitsAt(url, s, q) && r.value == url[s + 1..q]
                             && forall s', q' :: 0 <= s' < s ==> !SlashDigitsAt(url, s', q')
  {
    match SearchDigits(url, 0)
    case Some((s, q)) => Some(url[s + 1..q])
    case None => None
  }

  /** The id fallback: the digit segment, else `url[-32:]`. */
  function PseudoId(url: string): (r: string)
    ensures DigitSegment(url).Some? ==> r == DigitSegment(url).value
    ensures DigitSegment(url).None? ==> |r| == (if |url| < 32 then |url| else 32) && url == url[..|url| - |r|] + r
  {
    match DigitSegment(url)
    case Some(g) => g
    case None => Last(url, 32)
  }

  /** The image URL of an `<img>`: `src`, else `data-src`, else `""`. */
  function ImageUrl(img: Img): string
  {
    AttrOr(img.src, AttrOr(img.dataSrc, ""))
  }

  /** The div passes the "pin" test on its `data-test-id`. */
  predicate PinTestId(div: Div)
  {
    Contains(Lower(match div.testId case Some(t) => t case None => ""), "pin")
  }

  /** The record one `<div>` yields, None when the loop skips it. */
  function FallbackPin(o: DateOracles, div: Div): (r: Option<PinRecord>)
    ensures r.Some? <==> PinTestId(div) && div.img.Some?
    ensures r.Some? ==>
      var url := ImageUrl(div.img.value);
      && r.value.imageURL == JStr(url)
      && r.value.title == JStr(AttrOr(div.img.value.alt, ""))
      && r.value.id == (if div.pinId.Some? && div.pinId.value != "" then div.pinId.value else PseudoId(url))
      && r.value.pinner == Creator(JNull, JNull, JNull, JNull, JNull)
      && r.value.date == DateInfo(None, JNull)
      && r.value.pinType == JStr("pin")
  {
    if !PinTestId(div) then None
    else
      match div.img
      case None => None
      case Some(img) =>
        var url := ImageUrl(img);
        var id := AttrOr(div.pinId, "");
        var pinId := if id != "" then id else PseudoId(url);
        NullTimestamp(o);
        Some(PinRecord(pinId, JStr(AttrOr(img.alt, "")), Creator(JNull, JNull, JNull, JNull, JNull),
                       ParsePinterestTimestamp(o, JNull), JStr("pin"), JStr(url)))
  }

  /** The records of a run of divs, in document order. */
  function FallbackPins(o: DateOracles, divs: seq<Div>): seq<PinRecord>
  {
    FilterMap(FallbackWith(o), divs)
  }

  /** The per-div step as a value, for one set of date oracles. */
  function FallbackWith(o: DateOracles): Div -> Option<PinRecord>
  {
    d => FallbackPin(o, d)
  }

  /** `_fallback_parse_from_html`, over the divs of the page. */
  method FallbackParse(o: DateOracles, divs: seq<Div>) returns (results: seq<PinRecord>)
    ensures results == FallbackPins(o, divs)
  {
    results := [];
    var i := 0;
    while i < |divs|
      invariant 0 <= i <= |divs|
      invariant results == FallbackPins(o, divs[..i])
    {
      var div := divs[i];
      i := i + 1;
      assert divs[..i][..i - 1] == divs[..i - 1];
      var testId := match div.testId case Some(t) => t case None => "";
      if !Contains(Lower(testId), "pin") {
        continue;
      }
      if div.img.None? {
        continue;
      }
      var img := div.img.value;
      var imageUrl := AttrOr(img.src, AttrOr(img.dataSrc, ""));
      var alt := AttrOr(img.alt, "");
      var pinId := AttrOr(div.pinId, "");
      if pinId == "" {
        var m := DigitSegment(imageUrl);
        pinId := if m.Some? then m.value else Last(imageUrl, 32);
      }
      NullTimestamp(o);
      var pin := PinRecord(pinId, JStr(alt), Creator(JNull, JNull, JNull, JNull, JNull),
                           ParsePinterestTimestamp(o, JNull), JStr("pin"), JStr(imageUrl));
      results := results + [pin];
    }
    assert divs[..i] == divs;
  }

  /** Every record comes from a div that passes the test, and every div
      that passes it yields its record. */
  lemma FallbackPinsMember(o: DateOracles, divs: seq<Div>, r: PinRecord)
    ensures r in FallbackPins(o, divs) <==> exists i :: 0 <= i < |divs| && FallbackPin(o, divs[i]) == Some(r)
    ensures |FallbackPins(o, divs)| <= |divs|
  {
    FilterMapMember(FallbackWith(o), divs, r);
    FilterMapLength(FallbackWith(o), divs);
  }

  /** The `data-test-id` test ignores case, as `lower()` does for ASCII. */
  lemma PinTestIgnoresCase(img: Option<Img>)
    ensures PinTestId(Div(Some("Pin-123"), None, img))
  {
    var l := Lower("Pin-123");
    assert l[0] == 'p' && l[1] == 'i' && l[2] == 'n';
    assert l[0..3] == "pin";
    assert OccursAt(l, "pin", 0);
  }

  /** A div whose `data-test-id` lacks "pin", or is missing, fails the test. */
  lemma PinTestRejects()
    ensures !PinTestId(Div(Some("board"), None, None)) && !PinTestId(Div(None, None, None))
  {
    var b := Lower("board");
    forall i | 0 <= i <= |b| - 3
      ensures !OccursAt(b, "pin", i)
    {
      assert b[i..i + 3][0] == b[i] != 'p';
    }
    assert Lower("") == "";
  }

  /** A worked case: the leftmost `/digits/` of a URL is its digit segment. */
  lemma SegmentExample()
    ensures DigitSegment("p/55/a.jpg") == Some("55")
  {
    var url := "p/55/a.jpg";
    assert DigitRunEnd(url, 4) == 4;
    assert DigitRunEnd(url, 2) == 4;
    assert SearchDigits(url, 1) == Some((1, 4));
    assert url[2..4] == "55";
  }

  /** A worked case: a slash-delimited segment with a letter is no match. */
  lemma NoSegmentExample()
    ensures DigitSegment("/1a/") == None
  {
    var bad := "/1a/";
    assert DigitRunEnd(bad, 1) == 2 && DigitRunEnd(bad, 4) == 4;
    assert SearchDigits(bad, 0) == None;
  }

  /** A worked case for one div. */
  lemma FallbackExample(o: DateOracles)
    ensures var url := "p/55/a.jpg";
            FallbackPin(o, Div(Some("Pin-123"), None, Some(Img(Some(url), None, Some("Hello")))))
              == Some(PinRecord("55", JStr("Hello"), Creator(JNull, JNull, JNull, JNull, JNull),
                                DateInfo(None, JNull), JStr("pin"), JStr(url)))
  {
    var url := "p/55/a.jpg";
    var div := Div(Some("Pin-123"), None, Some(Img(Some(url), None, Some("Hello"))));
    PinTestIgnoresCase(div.img);
    SegmentExample();
    assert ImageUrl(div.img.value) == url;
    assert PseudoId(url) == "55";
    var r := FallbackPin(o, div).value;
    assert r.id == "55" && r.title == JStr("Hello") && r.imageURL == JStr(url);
  }
}
