/**
 * The tool catalog returned by the `ListToolsRequestSchema` handler of src/index.ts:
 * eleven tools, each with a name, a description and an input schema listing its
 * properties (with their JSON types) and which of them are required.
 */
module ToolCatalog {

  datatype FieldType = StringField | BooleanField | StringArrayField

  datatype SchemaField = SchemaField(name: string, fieldType: FieldType)

  datatype Tool = Tool(name: string, description: string, properties: seq<SchemaField>, required: seq<string>)

  predicate Declares(t: Tool, field: string)
  {
    exists i :: 0 <= i < |t.properties| && t.properties[i].name == field
  }

  function PropertyNames(t: Tool): (names: set<string>)
    ensures forall f :: f in names <==> Declares(t, f)
  {
    set i | 0 <= i < |t.properties| :: t.properties[i].name
  }

  const NOMI_ID := SchemaField("nomi_id", StringField)
  const ROOM_ID := SchemaField("room_id", StringField)
  const MESSAGE := SchemaField("message", StringField)

  /** The catalog, in the order it is presented to the host. */
  function Tools(): (tools: seq<Tool>)
    ensures |tools| == 11
    ensures forall i, j :: 0 <= i < j < |tools| ==> tools[i].name != tools[j].name
  {
    [ Tool("list_nomis", "List all Nomis associated with your account", [], []),
      Tool("get_nomi", "Get details of a specific Nomi", [NOMI_ID], ["nomi_id"]),
      Tool("send_message_to_nomi", "Send a message to a specific Nomi and get their reply",
           [NOMI_ID, MESSAGE], ["nomi_id", "message"]),
      Tool("get_nomi_avatar", "Get the avatar URL of a specific Nomi", [NOMI_ID], ["nomi_id"]),
      Tool("list_rooms", "List all rooms associated with your account", [], []),
      Tool("create_room", "Create a new room with one or more Nomis",
           [SchemaField("name", StringField), SchemaField("note", StringField),
            SchemaField("backchanneling_enabled", BooleanField), SchemaField("nomi_uuids", StringArrayField)],
           ["name", "note", "backchanneling_enabled", "nomi_uuids"]),
      Tool("get_room", "Get details of a specific room", [ROOM_ID], ["room_id"]),
      Tool("update_room", "Update room information",
           [ROOM_ID, SchemaField("name", StringField), SchemaField("note", StringField),
            SchemaField("nomi_uuids", StringArrayField), SchemaField("backchanneling_enabled", BooleanField)],
           ["room_id"]),
      Tool("delete_room", "Delete a specific room", [ROOM_ID], ["room_id"]),
      Tool("send_room_message", "Send a message in a specific room", [ROOM_ID, MESSAGE], ["room_id", "message"]),
      Tool("request_nomi_message", "Request a specific Nomi to post a message in a room",
           [ROOM_ID, SchemaField("nomi_uuid", StringField)], ["room_id", "nomi_uuid"])
    ]
  }

  predicate IsCatalogued(name: string)
  {
    exists i :: 0 <= i < |Tools()| && Tools()[i].name == name
  }

  /** Every required field of every tool is one of that tool's declared properties. */
  lemma RequiredFieldsAreDeclared(i: nat, k: nat)
    requires i < |Tools()| && k < |Tools()[i].required|
    ensures Declares(Tools()[i], Tools()[i].required[k])
  {
    // in every tool the required fields are listed first, in the order of the properties
    var t := Tools()[i];
    assert k < |t.properties| && t.properties[k].name == t.required[k];
  }

  /** The fields the four Nomi tools declare. */
  lemma NomiToolFields()
    ensures PropertyNames(Tools()[0]) == {}
    ensures PropertyNames(Tools()[1]) == {"nomi_id"}
    ensures PropertyNames(Tools()[2]) == {"nomi_id", "message"}
    ensures PropertyNames(Tools()[3]) == {"nomi_id"}
  {
    assert Tools()[1].properties[0].name == "nomi_id";
    assert Tools()[2].properties[0].name == "nomi_id" && Tools()[2].properties[1].name == "message";
    assert Tools()[3].properties[0].name == "nomi_id";
  }

  /** The fields list_rooms, create_room and get_room declare. */
  lemma RoomToolFields()
    ensures PropertyNames(Tools()[4]) == {}
    ensures PropertyNames(Tools()[5]) == {"name", "note", "backchanneling_enabled", "nomi_uuids"}
    ensures PropertyNames(Tools()[6]) == {"room_id"}
  {
    var t := Tools()[5];
    assert t.properties[0].name == "name" && t.properties[1].name == "note";
    assert t.properties[2].name == "backchanneling_enabled" && t.properties[3].name == "nomi_uuids";
    assert Tools()[6].properties[0].name == "room_id";
  }

  /** The fields update_room, delete_room, send_room_message and request_nomi_message declare. */
  lemma RoomWriteToolFields()
    ensures PropertyNames(Tools()[7]) == {"room_id", "name", "note", "nomi_uuids", "backchanneling_enabled"}
    ensures PropertyNames(Tools()[8]) == {"room_id"}
    ensures PropertyNames(Tools()[9]) == {"room_id", "message"}
    ensures PropertyNames(Tools()[10]) == {"room_id", "nomi_uuid"}
  {
    var t := Tools()[7];
    assert t.properties[0].name == "room_id" && t.properties[1].name == "name" && t.properties[2].name == "note";
    assert t.properties[3].name == "nomi_uuids" && t.properties[4].name == "backchanneling_enabled";
    assert Tools()[8].properties[0].name == "room_id";
    assert Tools()[9].properties[0].name == "room_id" && Tools()[9].properties[1].name == "message";
    assert Tools()[10].properties[0].name == "room_id" && Tools()[10].properties[1].name == "nomi_uuid";
  }
}
