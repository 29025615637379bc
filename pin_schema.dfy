/**
 * The normalised pin record that both extraction paths emit, and the dict
 * it stands for.
 */
module PinSchema {
  import opened PyJson
  import opened TimeUtil

  /** The `pinner` sub-record. */
  datatype Creator = Creator(id: Json, username: Json, fullName: Json, avatarURL: Json, followers: Json)

  /** A normalised pin; `pinType` is the `type` key. */
  datatype PinRecord = PinRecord(
    id: string, title: Json, pinner: Creator, date: DateInfo, pinType: Json, imageURL: Json)

  const RecordKeys: seq<string> := ["id", "title", "pinner", "date", "type", "imageURL"]
  const CreatorKeys: seq<string> := ["id", "username", "fullName", "avatarURL", "followers"]
  const DateKeys: seq<string> := ["formatted", "initial"]

  /** A `{"formatted": ..., "initial": ...}` dict. */
  function DateToJson(d: DateInfo): (r: Json)
    ensures r.JObj? && Keys(r.fields) == DateKeys
  {
    JObj([("formatted", match d.formatted case Some(s) => JStr(s) case None => JNull),
          ("initial", d.initial)])
  }

  function CreatorToJson(c: Creator): (r: Json)
    ensures r.JObj? && Keys(r.fields) == CreatorKeys
  {
    JObj([("id", c.id), ("username", c.username), ("fullName", c.fullName),
          ("avatarURL", c.avatarURL), ("followers", c.followers)])
  }

  /** The dict of a record, with its keys in the order the source writes them. */
  function RecordToJson(p: PinRecord): (r: Json)
    ensures r.JObj? && Keys(r.fields) == RecordKeys
  {
    JObj([("id", JStr(p.id)), ("title", p.title), ("pinner", CreatorToJson(p.pinner)),
          ("date", DateToJson(p.date)), ("type", p.pinType), ("imageURL", p.imageURL)])
  }

  /** Every record dict has the same keys, nested dicts included, whichever
      path produced it. */
  lemma SameKeySet(p: PinRecord, q: PinRecord)
    ensures Keys(RecordToJson(p).fields) == Keys(RecordToJson(q).fields) == RecordKeys
    ensures Get(RecordToJson(p).fields, "pinner") == CreatorToJson(p.pinner)
    ensures Get(RecordToJson(p).fields, "date") == DateToJson(p.date)
    ensures UniqueKeys(RecordToJson(p).fields)
  {
    var fs := RecordToJson(p).fields;
    RecordKeysDistinct();
    assert forall i :: 0 <= i < |fs| ==> fs[i].0 == Keys(fs)[i];
    assert fs[2].0 == "pinner" && fs[3].0 == "date";
  }

  /** The record keys are pairwise different. */
  lemma RecordKeysDistinct()
    ensures forall i, j :: 0 <= i < j < |RecordKeys| ==> RecordKeys[i] != RecordKeys[j]
  {
    var k := RecordKeys;
    assert |k[0]| == 2 && |k[1]| == 5 && |k[2]| == 6 && |k[3]| == 4 && |k[4]| == 4 && |k[5]| == 8;
    assert k[3][0] != k[4][0];
  }
}
