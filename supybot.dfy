/** The Supybot (IRC log) enricher: the identity of a message's author and
    the rich item built from a raw message item. SortingHat is taken as not
    configured, so the identity is never merged into the rich item. */
module Supybot {
  import opened Py
  import opened Enrich

  /** Line 70: metadata fields copied from the raw item. */
  const MetadataFields: seq<string> := ["metadata__updated_on", "metadata__timestamp", "ocean-unique-id", "origin"]

  /** Line 80: fields copied from the message. */
  const DataFields: seq<string> := ["nick", "body", "type"]

  /** Line 87: message fields stored under another name, in the dict's
      insertion order. */
  const MapFields: seq<(string, string)> := [("body", "body_analyzed"), ("timestamp", "sent_date")]

  /** Lines 56-64: a nick names the user and gives no email; a falsy nick
      gives no identity data at all. */
  function ShIdentity(nick: Value): (r: Identity)
    ensures r.email == PyNone
    ensures r.username == r.name
    ensures r.username == if Truthy(nick) then nick else PyNone
  {
    var empty := Identity(PyNone, PyNone, PyNone);
    if Truthy(nick) then empty.(username := nick, name := nick) else empty
  }

  /** Lines 49-54: exactly one identity, the one of `item['data']['nick']`. */
  function Identities(item: Value): (r: Result<seq<Identity>>)
    ensures r.Ok? <==> item.PyDict? && "data" in item.fields &&
                       item.fields["data"].PyDict? && "nick" in item.fields["data"].fields
    ensures r.Ok? ==> r.value == [ShIdentity(item.fields["data"].fields["nick"])]
    ensures r.Err? ==> r.error == KeyError || r.error == TypeError
    ensures item.PyDict? && "data" !in item.fields ==> r == Err(KeyError)
  {
    var message :- Get(item, "data");
    var nick :- Get(message, "nick");
    Ok([ShIdentity(nick)])
  }

  /** Lines 88-89: `eitem[to] = message[from]` for each renamed field, with
      no fallback when the message lacks `from`. */
  function Renamed(message: Value, pairs: seq<(string, string)>, rich: Fields): Result<Fields>
    decreases |pairs|
  {
    if pairs == [] then Ok(rich)
    else
      var v :- Get(message, pairs[0].0);
      Renamed(message, pairs[1..], rich[pairs[0].1 := v])
  }

  /** The names the renamed fields are stored under. */
  function Targets(pairs: seq<(string, string)>): (r: set<string>)
    ensures forall i :: 0 <= i < |pairs| ==> pairs[i].1 in r
    ensures forall k :: k in r ==> exists i :: 0 <= i < |pairs| && pairs[i].1 == k
    decreases |pairs|
  {
    if pairs == [] then {}
    else
      var rest := Targets(pairs[1..]);
      assert forall i :: 1 <= i < |pairs| ==> pairs[i] == pairs[1..][i - 1];
      {pairs[0].1} + rest
  }

  /** From a dict, renaming succeeds exactly when every source field is
      present, and raises KeyError otherwise; on success each target holds
      its source's value (the targets being distinct) and every other key
      is kept. */
  lemma {:induction false} RenamedFromDict(message: Value, pairs: seq<(string, string)>, rich: Fields)
    requires message.PyDict?
    requires forall i, j :: 0 <= i < j < |pairs| ==> pairs[i].1 != pairs[j].1
    ensures var r := Renamed(message, pairs, rich);
            && (r.Ok? <==> forall i :: 0 <= i < |pairs| ==> pairs[i].0 in message.fields)
            && (r.Err? ==> r.error == KeyError)
            && (r.Ok? ==>
                  && r.value.Keys == rich.Keys + Targets(pairs)
                  && (forall i :: 0 <= i < |pairs| ==> r.value[pairs[i].1] == message.fields[pairs[i].0])
                  && (forall k :: k in rich && k !in Targets(pairs) ==> r.value[k] == rich[k]))
    decreases |pairs|
  {
    if pairs != [] {
      var p := pairs[0];
      var rest := pairs[1..];
      assert forall i :: 0 < i < |pairs| ==> pairs[i] == rest[i - 1];
      if p.0 in message.fields {
        RenamedFromDict(message, rest, rich[p.1 := message.fields[p.0]]);
      }
    }
  }

  /** The renaming loop as the source runs it. */
  method RenameLoop(message: Value, pairs: seq<(string, string)>, rich: Fields) returns (r: Result<Fields>)
    ensures r == Renamed(message, pairs, rich)
  {
    var acc := rich;
    var i := 0;
    while i < |pairs|
      invariant 0 <= i <= |pairs|
      invariant Renamed(message, pairs, rich) == Renamed(message, pairs[i..], acc)
    {
      assert pairs[i..][1..] == pairs[i + 1..];
      var v :- Get(message, pairs[i].0);
      acc := acc[pairs[i].1 := v];
      i := i + 1;
    }
    r := Ok(acc);
  }

  /** Lines 69-89: the fields copied from the raw item and its message,
      and the renamed ones. */
  function MessageFields(item: Value): (r: Result<Fields>)
    ensures r.Ok? ==> HasKeys(item, {"data"}) && HasKeys(item.fields["data"], {"body", "timestamp"})
    ensures r.Ok? ==>
              var m := item.fields["data"].fields;
              && {"body_analyzed", "sent_date"} <= r.value.Keys
              && r.value["body_analyzed"] == m["body"] && r.value["sent_date"] == m["timestamp"]
  {
    var rich0 :- CopyFields(item, MetadataFields, map[]);
    var message :- Get(item, "data");
    var rich1 :- CopyFields(message, DataFields, rich0);
    if message.PyDict? then
      RenamedMapFields(message, rich1);
      Renamed(message, MapFields, rich1)
    else
      Renamed(message, MapFields, rich1)
  }

  /** Lines 66-98: `get_rich_item`. `isoDate` stands for
      `parser.parse(d).isoformat()`, which this model does not interpret. */
  function RichItem(item: Value, isoDate: Value -> Result<Value>): (r: Result<Fields>)
    ensures r.Ok? ==> HasKeys(item, {"metadata__updated_on"}) && {"update_date", "origin", "channel"} <= r.value.Keys
    ensures r.Ok? ==> isoDate(item.fields["metadata__updated_on"]) == Ok(r.value["update_date"])
    ensures r.Ok? ==> r.value["channel"] == r.value["origin"]
  {
    var rich2 :- MessageFields(item);
    var updatedOn :- Get(item, "metadata__updated_on");
    var date :- isoDate(updatedOn);
    var rich3 := rich2["update_date" := date];
    var origin :- Get(PyDict(rich3), "origin");
    Ok(rich3["channel" := origin])
  }

  /** `d[k] if k in d else None`. */
  function OrNone(d: Fields, k: string): Value
  {
    if k in d then d[k] else PyNone
  }

  /** One turn of a copy loop over a dict. */
  lemma CopyFieldsStep(source: Value, fields: seq<string>, rich: Fields)
    requires source.PyDict? && fields != []
    ensures CopyFields(source, fields, rich) ==
            CopyFields(source, fields[1..], rich[fields[0] := OrNone(source.fields, fields[0])])
  {
  }

  /** Lines 87-89 with the source's two renamings: `body_analyzed` is the
      body and `sent_date` the timestamp, and both must be in the message. */
  lemma RenamedMapFields(message: Value, rich: Fields)
    requires message.PyDict?
    ensures var r := Renamed(message, MapFields, rich);
            && (r.Ok? <==> "body" in message.fields && "timestamp" in message.fields)
            && (r.Err? ==> r.error == KeyError)
            && (r.Ok? ==> r.value == rich["body_analyzed" := message.fields["body"]]
                                         ["sent_date" := message.fields["timestamp"]])
  {
    RenamedFromDict(message, MapFields, rich);
  }

  /** From a dict item holding a dict message, the copied fields with their
      None fallbacks and the two renamed ones; the renaming raises KeyError
      unless the message has `body` and `timestamp`. */
  lemma MessageFieldsShape(item: Value)
    requires HasKeys(item, {"data"}) && item.fields["data"].PyDict?
    ensures var f := item.fields;
            var m := item.fields["data"].fields;
            var r := MessageFields(item);
            && (r.Ok? <==> "body" in m && "timestamp" in m)
            && (r.Err? ==> r.error == KeyError)
            && (r.Ok? ==> r.value == map[
                  "metadata__updated_on" := OrNone(f, "metadata__updated_on"),
                  "metadata__timestamp" := OrNone(f, "metadata__timestamp"),
                  "ocean-unique-id" := OrNone(f, "ocean-unique-id"),
                  "origin" := OrNone(f, "origin"),
                  "nick" := OrNone(m, "nick"),
                  "body" := OrNone(m, "body"),
                  "type" := OrNone(m, "type"),
                  "body_analyzed" := m["body"],
                  "sent_date" := m["timestamp"]])
  {
    var f := item.fields;
    var message := f["data"];
    var m := message.fields;
    var meta := MetadataFields;
    var rich0 := map[
      "metadata__updated_on" := OrNone(f, "metadata__updated_on"),
      "metadata__timestamp" := OrNone(f, "metadata__timestamp"),
      "ocean-unique-id" := OrNone(f, "ocean-unique-id"),
      "origin" := OrNone(f, "origin")];
    CopyFieldsStep(item, meta, map[]);
    CopyFieldsStep(item, meta[1..], map[meta[0] := OrNone(f, meta[0])]);
    CopyFieldsStep(item, meta[2..], map[meta[0] := OrNone(f, meta[0]), meta[1] := OrNone(f, meta[1])]);
    CopyFieldsStep(item, meta[3..], map[meta[0] := OrNone(f, meta[0]), meta[1] := OrNone(f, meta[1]),
                                        meta[2] := OrNone(f, meta[2])]);
    assert CopyFields(item, meta, map[]) == Ok(rich0);
    var data := DataFields;
    var rich1 := rich0["nick" := OrNone(m, "nick")]["body" := OrNone(m, "body")]["type" := OrNone(m, "type")];
    CopyFieldsStep(message, data, rich0);
    CopyFieldsStep(message, data[1..], rich0[data[0] := OrNone(m, data[0])]);
    CopyFieldsStep(message, data[2..], rich0[data[0] := OrNone(m, data[0])][data[1] := OrNone(m, data[1])]);
    assert CopyFields(message, data, rich0) == Ok(rich1);
    RenamedMapFields(message, rich1);
  }

  /** A built rich item, key by key: the copied fields with their None
      fallbacks, the two
      renamed ones, the parsed update date and the channel taken from the
      copied origin. */
  lemma RichItemShape(item: Value, isoDate: Value -> Result<Value>)
    requires RichItem(item, isoDate).Ok?
    ensures var f := item.fields;
            var m := item.fields["data"].fields;
            RichItem(item, isoDate) == Ok(map[
              "metadata__updated_on" := OrNone(f, "metadata__updated_on"),
              "metadata__timestamp" := OrNone(f, "metadata__timestamp"),
              "ocean-unique-id" := OrNone(f, "ocean-unique-id"),
              "origin" := OrNone(f, "origin"),
              "nick" := OrNone(m, "nick"),
              "body" := OrNone(m, "body"),
              "type" := OrNone(m, "type"),
              "body_analyzed" := m["body"],
              "sent_date" := m["timestamp"],
              "update_date" := isoDate(f["metadata__updated_on"]).value,
              "channel" := OrNone(f, "origin")])
  {
    var f := item.fields;
    assert MessageFields(item).Ok?;
    MessageFieldsShape(item);
    var rich2 := MessageFields(item).value;
    var rich3 := rich2["update_date" := isoDate(f["metadata__updated_on"]).value];
    assert rich2["origin"] == OrNone(f, "origin");
    assert Get(PyDict(rich3), "origin") == Ok(OrNone(f, "origin"));
  }

  /** What makes `get_rich_item` fail: a raw item that is not a dict
      holding `data` and `metadata__updated_on`, a message that is not a
      dict holding `body` and `timestamp`, or a date that does not parse.
      A key missing from a dict raises KeyError, although `body` and
      `metadata__updated_on` were copied with a None fallback before. */
  lemma RichItemSucceeds(item: Value, isoDate: Value -> Result<Value>)
    ensures RichItem(item, isoDate).Ok? <==>
              && HasKeys(item, {"data", "metadata__updated_on"})
              && HasKeys(item.fields["data"], {"body", "timestamp"})
              && isoDate(item.fields["metadata__updated_on"]).Ok?
    ensures HasKeys(item, {"data"}) && item.fields["data"].PyDict? &&
            !(HasKeys(item, {"metadata__updated_on"}) && HasKeys(item.fields["data"], {"body", "timestamp"})) ==>
              RichItem(item, isoDate) == Err(KeyError)
  {
    if RichItem(item, isoDate).Ok? {
      RichItemShape(item, isoDate);
    } else if HasKeys(item, {"data"}) && item.fields["data"].PyDict? {
      MessageFieldsShape(item);
    }
  }

  /** `get_rich_item` as the source runs it, with its three loops. */
  method GetRichItem(item: Value, isoDate: Value -> Result<Value>) returns (r: Result<Fields>)
    ensures r == RichItem(item, isoDate)
  {
    var rich :- CopyFieldsLoop(item, MetadataFields, map[]);
    var message :- Get(item, "data");
    rich :- CopyFieldsLoop(message, DataFields, rich);
    rich :- RenameLoop(message, MapFields, rich);
    var updatedOn :- Get(item, "metadata__updated_on");
    var date :- isoDate(updatedOn);
    rich := rich["update_date" := date];
    var origin :- Get(PyDict(rich), "origin");
    r := Ok(rich["channel" := origin]);
  }
}
