/**
 * `_extract_primary_image_url` and `_normalize_pin`: a candidate dict mapped
 * onto the fixed record shape through ordered fallback chains.
 *
 * Most chains are Python `or` chains (first truthy value); the avatar keys
 * and the `orig` image entry are chosen by key presence instead.
 */
module Normalizer {
  import opened PyJson
  import opened TimeUtil
  import opened PinSchema

  /** The value under the first of `keys` that `d` has, or None when it has
      none of them. */
  function FirstPresent(d: Dict, keys: seq<string>): Json
  {
    if keys == [] then JNull
    else if HasKey(d, keys[0]) then Get(d, keys[0])
    else FirstPresent(d, keys[1..])
  }

  lemma FirstPresentStep(d: Dict, keys: seq<string>)
    requires keys != []
    ensures FirstPresent(d, keys) == if HasKey(d, keys[0]) then Get(d, keys[0]) else FirstPresent(d, keys[1..])
  {
  }

  /** The dict a value stands for when it is used as one: itself when it is a
      dict, otherwise `{}`. */
  function AsDict(v: Json): Dict
  {
    if v.JObj? then v.fields else []
  }

  /** The loop over `images.values()`: the `url` of the first entry from
      position `i` on that is a dict with a `url` key, or None. */
  function SizeUrl(sizes: Dict, i: nat): (r: Json)
    ensures (exists k :: i <= k < |sizes| && sizes[k].1.JObj? && HasKey(sizes[k].1.fields, "url")
                         && r == Get(sizes[k].1.fields, "url")
                         && forall m :: i <= m < k ==> !(sizes[m].1.JObj? && HasKey(sizes[m].1.fields, "url")))
            || ((forall m :: i <= m < |sizes| ==> !(sizes[m].1.JObj? && HasKey(sizes[m].1.fields, "url")))
                && r == JNull)
    decreases |sizes| - i
  {
    if i >= |sizes| then JNull
    else
      var v := sizes[i].1;
      if v.JObj? && HasKey(v.fields, "url") then Get(v.fields, "url") else SizeUrl(sizes, i + 1)
  }

  /** `_extract_primary_image_url`; a Python None is `JNull`. */
  function PrimaryImageUrl(pin: Dict): (r: Json)
    ensures !Get(pin, "images").JObj? ==> r == JNull
    ensures var images := Get(pin, "images");
            images.JObj? && Get(images.fields, "orig").JObj? ==>
              r == Get(Get(images.fields, "orig").fields, "url")
    ensures var images := Get(pin, "images");
            images.JObj? && !Get(images.fields, "orig").JObj? ==> r == SizeUrl(images.fields, 0)
  {
    var images := Get(pin, "images");
    if !images.JObj? then JNull
    else if HasKey(images.fields, "orig") && Get(images.fields, "orig").JObj? then
      Get(Get(images.fields, "orig").fields, "url")
    else SizeUrl(images.fields, 0)
  }

  /** `pin_obj.get("pinner") or pin_obj.get("owner") or {}`, then `{}` for
      a value that is not a dict. */
  function CreatorSource(pin: Dict): (r: Dict)
    ensures Truthy(Get(pin, "pinner")) ==> r == AsDict(Get(pin, "pinner"))
    ensures !Truthy(Get(pin, "pinner")) && Truthy(Get(pin, "owner")) ==> r == AsDict(Get(pin, "owner"))
    ensures !Truthy(Get(pin, "pinner")) && !Truthy(Get(pin, "owner")) ==> r == []
  {
    var pinner := Or(Get(pin, "pinner"), Or(Get(pin, "owner"), JObj([])));
    if !pinner.JObj? then [] else pinner.fields
  }

  /** The avatar: the first of the small, medium and extra-large image keys
      that is present, whatever its value. */
  function Avatar(pinner: Dict): (r: Json)
    ensures r == FirstPresent(pinner, ["image_small_url", "image_medium_url", "image_xlarge_url"])
  {
    FirstPresentStep(pinner, ["image_small_url", "image_medium_url", "image_xlarge_url"]);
    FirstPresentStep(pinner, ["image_medium_url", "image_xlarge_url"]);
    FirstPresentStep(pinner, ["image_xlarge_url"]);
    if HasKey(pinner, "image_small_url") then Get(pinner, "image_small_url")
    else if HasKey(pinner, "image_medium_url") then Get(pinner, "image_medium_url")
    else if HasKey(pinner, "image_xlarge_url") then Get(pinner, "image_xlarge_url")
    else JNull
  }

  /** `_normalize_pin`: None where `str(pin_obj.get("id"))` raises, which is
      the only step that can. */
  function NormalizePin(rt: Runtime, o: DateOracles, pin: Dict): (r: Option<PinRecord>)
    ensures r.None? <==> ToStr(rt, Get(pin, "id")).None?
    ensures r.Some? ==> r.value.id == ToStr(rt, Get(pin, "id")).value
  {
    match ToStr(rt, Get(pin, "id"))
    case None => None
    case Some(id) =>
      var title := Or(Get(pin, "grid_title"), Or(Get(pin, "title"), Or(Get(pin, "description"), JStr(""))));
      var pinner := CreatorSource(pin);
      var creator := Creator(
        Or(Get(pinner, "id"), Get(pinner, "user_id")),
        Or(Get(pinner, "username"), Get(pinner, "urlname")),
        Or(Get(pinner, "full_name"), Get(pinner, "fullName")),
        Avatar(pinner),
        Or(Get(pinner, "follower_count"), Get(pinner, "followers")));
      var createdAt := Or(Get(pin, "created_at"), Or(Get(pin, "created_at_timestamp"), Get(pin, "createdAt")));
      Some(PinRecord(id, title, creator, ParsePinterestTimestamp(o, createdAt),
                     Or(Get(pin, "type"), JStr("pin")), Or(PrimaryImageUrl(pin), JStr(""))))
  }

  /** Each field of a normalised record is the first truthy value of its
      chain of keys (the avatar: the first present key), and the creator
      fields are read from the creator source. */
  lemma NormalizedFields(rt: Runtime, o: DateOracles, pin: Dict)
    requires NormalizePin(rt, o, pin).Some?
    ensures var p := NormalizePin(rt, o, pin).value;
      && p.title == FirstTruthy([Get(pin, "grid_title"), Get(pin, "title"), Get(pin, "description")], JStr(""))
      && p.date == ParsePinterestTimestamp(
                     o, FirstTruthy([Get(pin, "created_at"), Get(pin, "created_at_timestamp")], Get(pin, "createdAt")))
      && p.pinType == FirstTruthy([Get(pin, "type")], JStr("pin"))
      && p.imageURL == FirstTruthy([PrimaryImageUrl(pin)], JStr(""))
  {
    OrChains(Get(pin, "grid_title"), Get(pin, "title"), Get(pin, "description"), JStr(""));
    OrChains(Get(pin, "created_at"), Get(pin, "created_at_timestamp"), JNull, Get(pin, "createdAt"));
    OrChains(Get(pin, "type"), JNull, JNull, JStr("pin"));
    OrChains(PrimaryImageUrl(pin), JNull, JNull, JStr(""));
  }

  /** The creator fields: each is the first truthy value of its two keys in
      the creator source; the avatar the value of the first present key. */
  lemma NormalizedCreator(rt: Runtime, o: DateOracles, pin: Dict)
    requires NormalizePin(rt, o, pin).Some?
    ensures var c := NormalizePin(rt, o, pin).value.pinner;
      var src := CreatorSource(pin);
      && c.id == FirstTruthy([Get(src, "id")], Get(src, "user_id"))
      && c.username == FirstTruthy([Get(src, "username")], Get(src, "urlname"))
      && c.fullName == FirstTruthy([Get(src, "full_name")], Get(src, "fullName"))
      && c.avatarURL == FirstPresent(src, ["image_small_url", "image_medium_url", "image_xlarge_url"])
      && c.followers == FirstTruthy([Get(src, "follower_count")], Get(src, "followers"))
  {
    var src := CreatorSource(pin);
    OrChains(Get(src, "id"), JNull, JNull, Get(src, "user_id"));
    OrChains(Get(src, "username"), JNull, JNull, Get(src, "urlname"));
    OrChains(Get(src, "full_name"), JNull, JNull, Get(src, "fullName"));
    OrChains(Get(src, "follower_count"), JNull, JNull, Get(src, "followers"));
  }

  /** The avatar is chosen by presence, not truthiness: a present small
      image key wins even when its value is null. */
  lemma AvatarByPresence(url: string)
    ensures Avatar([("image_small_url", JNull), ("image_medium_url", JStr(url))]) == JNull
    ensures Avatar([("image_xlarge_url", JStr(url)), ("image_medium_url", JNull)]) == JNull
  {
    var d := [("image_small_url", JNull), ("image_medium_url", JStr(url))];
    assert d[0].0 == "image_small_url";
    var e := [("image_xlarge_url", JStr(url)), ("image_medium_url", JNull)];
    assert e[1].0 == "image_medium_url";
  }

  /** An `orig` entry that is a dict decides alone, even when it has no `url`;
      the other sizes are then not consulted. */
  lemma OrigDecides(url: string)
    ensures PrimaryImageUrl([("images", JObj([("orig", JObj([])), ("small", JObj([("url", JStr(url))]))]))]) == JNull
    ensures PrimaryImageUrl([("images", JObj([("orig", JStr(url)), ("small", JObj([("url", JStr(url))]))]))]) == JStr(url)
  {
    var small := JObj([("url", JStr(url))]);
    assert small.fields[0].0 == "url";
    var a := [("orig", JObj([])), ("small", small)];
    assert a[0].0 == "orig";
    var b := [("orig", JStr(url)), ("small", small)];
    assert b[0].0 == "orig";
    var pa := [("images", JObj(a))];
    assert pa[0].0 == "images";
    var pb := [("images", JObj(b))];
    assert pb[0].0 == "images";
    assert b[1].1 == small && Get(small.fields, "url") == JStr(url);
    assert SizeUrl(b, 1) == JStr(url);
  }
}
