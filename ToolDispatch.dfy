/**
 * The `CallToolRequestSchema` handler of src/index.ts: argument and API-key checks (thrown),
 * the switch from tool name to one client call, the partial body of `update_room`, and the
 * try/catch that turns every failure inside it into `Error: …` text.
 */
module ToolDispatch {
  import opened Wrappers
  import opened JsValues
  import opened NomiApi
  import opened ToolCatalog

  /** The `arguments` object of a tool call. */
  type Args = map<string, Json>

  /** `JSON.stringify(x)` and `JSON.stringify(x, null, 2)`, left uninterpreted. */
  datatype Codec = Codec(compact: Json -> string, pretty: Json -> string)

  /** What the handler does: throw an `Error`, or return one text content item. */
  datatype Reply = Thrown(message: string) | Text(text: string)

  const NO_ARGUMENTS := "No arguments provided"
  const NO_API_KEY := "NOMI_API_KEY environment variable not set"

  /** `args.<key>`: `undefined` when the property is absent. */
  function Lookup(args: Args, key: string): (v: Option<Json>)
    ensures v.None? <==> key !in args
    ensures v.Some? ==> v.value == args[key]
  {
    if key in args then Some(args[key]) else None
  }

  /** The create_room body: always all four keys, each holding its argument (possibly `undefined`). */
  function CreateRoomParams(args: Args): (p: Payload)
    ensures p.Keys == {"name", "note", "backchannelingEnabled", "nomiUuids"}
    ensures p["name"] == Lookup(args, "name") && p["note"] == Lookup(args, "note")
    ensures p["backchannelingEnabled"] == Lookup(args, "backchanneling_enabled")
    ensures p["nomiUuids"] == Lookup(args, "nomi_uuids")
  {
    map["name" := Lookup(args, "name"), "note" := Lookup(args, "note"),
        "backchannelingEnabled" := Lookup(args, "backchanneling_enabled"),
        "nomiUuids" := Lookup(args, "nomi_uuids")]
  }

  /** The one-entry object `{key: args[field]}` when `field` is defined, else the empty object. */
  function FieldIfDefined(key: string, args: Args, field: string): (p: Payload)
  {
    if field in args then map[key := Some(args[field])] else map[]
  }

  /**
   * The update_room body: an updatable key is present exactly when the argument it is
   * renamed from is defined, and then holds that argument.
   */
  function UpdateRoomParams(args: Args): (p: Payload)
    ensures p.Keys <= {"name", "note", "nomiUuids", "backchannelingEnabled"}
    ensures ("name" in p <==> "name" in args) && ("note" in p <==> "note" in args)
    ensures ("nomiUuids" in p <==> "nomi_uuids" in args)
    ensures ("backchannelingEnabled" in p <==> "backchanneling_enabled" in args)
    ensures "name" in p ==> p["name"] == Some(args["name"])
    ensures "note" in p ==> p["note"] == Some(args["note"])
    ensures "nomiUuids" in p ==> p["nomiUuids"] == Some(args["nomi_uuids"])
    ensures "backchannelingEnabled" in p ==> p["backchannelingEnabled"] == Some(args["backchanneling_enabled"])
  {
    FieldIfDefined("name", args, "name") + FieldIfDefined("note", args, "note")
    + FieldIfDefined("nomiUuids", args, "nomi_uuids")
    + FieldIfDefined("backchannelingEnabled", args, "backchanneling_enabled")
  }

  /** Builds updateParams as the update_room case does: one guarded assignment per field. */
  method BuildUpdateParams(args: Args) returns (updateParams: Payload)
    ensures updateParams == UpdateRoomParams(args)
  {
    updateParams := map[];
    if Lookup(args, "name").Some? {
      updateParams := updateParams["name" := Lookup(args, "name")];
    }
    if Lookup(args, "note").Some? {
      updateParams := updateParams["note" := Lookup(args, "note")];
    }
    if Lookup(args, "nomi_uuids").Some? {
      updateParams := updateParams["nomiUuids" := Lookup(args, "nomi_uuids")];
    }
    if Lookup(args, "backchanneling_enabled").Some? {
      updateParams := updateParams["backchannelingEnabled" := Lookup(args, "backchanneling_enabled")];
    }
  }

  /** The case labels of the handler's switch. */
  datatype ToolKind =
    | ListNomisTool | GetNomiTool | SendMessageToNomiTool | GetNomiAvatarTool
    | ListRoomsTool | CreateRoomTool | GetRoomTool | UpdateRoomTool | DeleteRoomTool
    | SendRoomMessageTool | RequestNomiMessageTool

  function ToolName(tool: ToolKind): string
  {
    match tool
    case ListNomisTool => "list_nomis"
    case GetNomiTool => "get_nomi"
    case SendMessageToNomiTool => "send_message_to_nomi"
    case GetNomiAvatarTool => "get_nomi_avatar"
    case ListRoomsTool => "list_rooms"
    case CreateRoomTool => "create_room"
    case GetRoomTool => "get_room"
    case UpdateRoomTool => "update_room"
    case DeleteRoomTool => "delete_room"
    case SendRoomMessageTool => "send_room_message"
    case RequestNomiMessageTool => "request_nomi_message"
  }

  /** Which case of the switch a tool name selects; None is the `default` branch. */
  function ParseTool(name: string): (tool: Option<ToolKind>)
    ensures tool.Some? ==> ToolName(tool.value) == name
  {
    if name == "list_nomis" then Some(ListNomisTool)
    else if name == "get_nomi" then Some(GetNomiTool)
    else if name == "send_message_to_nomi" then Some(SendMessageToNomiTool)
    else if name == "get_nomi_avatar" then Some(GetNomiAvatarTool)
    else if name == "list_rooms" then Some(ListRoomsTool)
    else if name == "create_room" then Some(CreateRoomTool)
    else if name == "get_room" then Some(GetRoomTool)
    else if name == "update_room" then Some(UpdateRoomTool)
    else if name == "delete_room" then Some(DeleteRoomTool)
    else if name == "send_room_message" then Some(SendRoomMessageTool)
    else if name == "request_nomi_message" then Some(RequestNomiMessageTool)
    else None
  }

  /** Every case label selects its own case: the eleven labels are distinct. */
  lemma ParseToolName(tool: ToolKind)
    ensures ParseTool(ToolName(tool)) == Some(tool)
  {
  }

  /** The client call one case of the switch makes: a body goes exactly with POST and PUT. */
  function TranslateTool(tool: ToolKind, args: Args): (spec: CallSpec)
    ensures spec.body.Some? <==> spec.verb in {POST, PUT}
  {
    match tool
    case ListNomisTool => ListNomis()
    case GetNomiTool => GetNomi(Lookup(args, "nomi_id"))
    case SendMessageToNomiTool => SendMessage(Lookup(args, "nomi_id"), Lookup(args, "message"))
    case GetNomiAvatarTool => GetNomiAvatar(Lookup(args, "nomi_id"))
    case ListRoomsTool => ListRooms()
    case CreateRoomTool => CreateRoom(CreateRoomParams(args))
    case GetRoomTool => GetRoom(Lookup(args, "room_id"))
    case UpdateRoomTool => UpdateRoom(Lookup(args, "room_id"), UpdateRoomParams(args))
    case DeleteRoomTool => DeleteRoom(Lookup(args, "room_id"))
    case SendRoomMessageTool => SendRoomMessage(Lookup(args, "room_id"), Lookup(args, "message"))
    case RequestNomiMessageTool => RequestNomiMessage(Lookup(args, "room_id"), Lookup(args, "nomi_uuid"))
  }

  /** The switch of the handler: the client call for a tool name, or the unknown-tool error. */
  function Translate(name: string, args: Args): (r: Result<CallSpec, string>)
    ensures r.Success? <==> ParseTool(name).Some?
    ensures r.Success? ==> r.value == TranslateTool(ParseTool(name).value, args)
    ensures r.Failure? ==> r.error == "Unknown tool: " + name
  {
    match ParseTool(name)
    case Some(tool) => Success(TranslateTool(tool, args))
    case None => Failure("Unknown tool: " + name)
  }

  /** The body of the `try`: the client result, or the message of what was thrown inside it. */
  function Dispatch(client: Client, name: string, args: Args, fetch: HttpRequest -> FetchOutcome,
                    compact: Json -> string): (r: Result<Json, string>)
    ensures ParseTool(name).None? ==> r == Failure("Unknown tool: " + name)
    ensures ParseTool(name).Some? ==> r == Perform(client, TranslateTool(ParseTool(name).value, args), fetch, compact)
  {
    match Translate(name, args)
    case Failure(message) => Failure(message)
    case Success(spec) => Perform(client, spec, fetch, compact)
  }

  /**
   * The whole handler. Missing arguments and a missing (or empty) API key are thrown;
   * everything after the client is built comes back as text.
   */
  function Handle(name: string, args: Option<Args>, apiKey: Option<string>,
                  fetch: HttpRequest -> FetchOutcome, codec: Codec): (reply: Reply)
    ensures reply.Thrown? <==> args.None? || apiKey.None? || apiKey.value == ""
    ensures args.None? ==> reply == Thrown(NO_ARGUMENTS)
    ensures args.Some? && (apiKey.None? || apiKey.value == "") ==> reply == Thrown(NO_API_KEY)
  {
    if args.None? then Thrown(NO_ARGUMENTS)
    else if apiKey.None? || apiKey.value == "" then Thrown(NO_API_KEY)
    else
      match Dispatch(Client(apiKey.value), name, args.value, fetch, codec.compact)
      case Success(result) => Text(codec.pretty(result))
      case Failure(message) => Text("Error: " + message)
  }

  /** The handler written as the source does it: early throws, then `result` assigned in the switch. */
  method CallTool(name: string, args: Option<Args>, apiKey: Option<string>,
                  fetch: HttpRequest -> FetchOutcome, codec: Codec) returns (reply: Reply)
    ensures reply == Handle(name, args, apiKey, fetch, codec)
  {
    if args.None? {
      return Thrown(NO_ARGUMENTS);
    }
    if apiKey.None? || apiKey.value == "" {
      return Thrown(NO_API_KEY);
    }
    var client := Client(apiKey.value);
    var a := args.value;
    var result: Result<Json, string>;
    match ParseTool(name) {
      case None =>
        result := Failure("Unknown tool: " + name);
      case Some(ListNomisTool) =>
        result := MakeRequest(client, ListNomis(), fetch, codec.compact);
      case Some(GetNomiTool) =>
        result := MakeRequest(client, GetNomi(Lookup(a, "nomi_id")), fetch, codec.compact);
      case Some(SendMessageToNomiTool) =>
        result := MakeRequest(client, SendMessage(Lookup(a, "nomi_id"), Lookup(a, "message")), fetch, codec.compact);
      case Some(GetNomiAvatarTool) =>
        result := MakeRequest(client, GetNomiAvatar(Lookup(a, "nomi_id")), fetch, codec.compact);
      case Some(ListRoomsTool) =>
        result := MakeRequest(client, ListRooms(), fetch, codec.compact);
      case Some(CreateRoomTool) =>
        result := MakeRequest(client, CreateRoom(CreateRoomParams(a)), fetch, codec.compact);
      case Some(GetRoomTool) =>
        result := MakeRequest(client, GetRoom(Lookup(a, "room_id")), fetch, codec.compact);
      case Some(UpdateRoomTool) =>
        var updateParams := BuildUpdateParams(a);
        result := MakeRequest(client, UpdateRoom(Lookup(a, "room_id"), updateParams), fetch, codec.compact);
      case Some(DeleteRoomTool) =>
        result := MakeRequest(client, DeleteRoom(Lookup(a, "room_id")), fetch, codec.compact);
      case Some(SendRoomMessageTool) =>
        result := MakeRequest(client, SendRoomMessage(Lookup(a, "room_id"), Lookup(a, "message")), fetch, codec.compact);
      case Some(RequestNomiMessageTool) =>
        result := MakeRequest(client, RequestNomiMessage(Lookup(a, "room_id"), Lookup(a, "nomi_uuid")), fetch, codec.compact);
    }
    match result
    case Success(value) => reply := Text(codec.pretty(value));
    case Failure(message) => reply := Text("Error: " + message);
  }

  // Routes: the (method, path, body) each tool is translated to.

  /** Naming a tool by its case label selects its case. */
  lemma TranslateByName(tool: ToolKind, args: Args)
    ensures Translate(ToolName(tool), args) == Success(TranslateTool(tool, args))
  {
    ParseToolName(tool);
  }

  /** The four Nomi tools, each to its one endpoint. */
  lemma NomiRoutes(args: Args)
    ensures TranslateTool(ListNomisTool, args) == CallSpec(GET, "/nomis", None)
    ensures TranslateTool(GetNomiTool, args)
      == CallSpec(GET, "/nomis/" + TemplateString(Lookup(args, "nomi_id")), None)
    ensures TranslateTool(SendMessageToNomiTool, args)
      == CallSpec(POST, "/nomis/" + TemplateString(Lookup(args, "nomi_id")) + "/chat",
                  Some(map["messageText" := Lookup(args, "message")]))
    ensures TranslateTool(GetNomiAvatarTool, args)
      == CallSpec(GET, "/nomis/" + TemplateString(Lookup(args, "nomi_id")) + "/avatar", None)
  {
  }

  /** The room tools that list, create, read or delete rooms, each to its one endpoint. */
  lemma RoomRoutes(args: Args)
    ensures TranslateTool(ListRoomsTool, args) == CallSpec(GET, "/rooms", None)
    ensures TranslateTool(CreateRoomTool, args) == CallSpec(POST, "/rooms", Some(CreateRoomParams(args)))
    ensures TranslateTool(GetRoomTool, args)
      == CallSpec(GET, "/rooms/" + TemplateString(Lookup(args, "room_id")), None)
    ensures TranslateTool(DeleteRoomTool, args)
      == CallSpec(DELETE, "/rooms/" + TemplateString(Lookup(args, "room_id")), None)
  {
  }

  /** The room tools that update a room or post in it, each to its one endpoint. */
  lemma RoomWriteRoutes(args: Args)
    ensures TranslateTool(UpdateRoomTool, args)
      == CallSpec(PUT, "/rooms/" + TemplateString(Lookup(args, "room_id")), Some(UpdateRoomParams(args)))
    ensures TranslateTool(SendRoomMessageTool, args)
      == CallSpec(POST, "/rooms/" + TemplateString(Lookup(args, "room_id")) + "/chat",
                  Some(map["messageText" := Lookup(args, "message")]))
    ensures TranslateTool(RequestNomiMessageTool, args)
      == CallSpec(POST, "/rooms/" + TemplateString(Lookup(args, "room_id")) + "/chat/request",
                  Some(map["nomiUuid" := Lookup(args, "nomi_uuid")]))
  {
  }

  /** A body, and with it a Content-Type header, is sent exactly by the five tools that write. */
  lemma BodyExactlyForWritingTools(tool: ToolKind, args: Args, client: Client, compact: Json -> string)
    ensures var req := Request(client, TranslateTool(tool, args), compact);
      (CONTENT_TYPE in req.headers <==> req.body.Some?)
      && (req.body.Some? <==>
            tool in {SendMessageToNomiTool, CreateRoomTool, UpdateRoomTool, SendRoomMessageTool, RequestNomiMessageTool})
  {
  }

  // The dispatch table against the catalog.

  /** The position of each case's tool in the catalog. */
  function CatalogIndex(tool: ToolKind): nat
  {
    match tool
    case ListNomisTool => 0
    case GetNomiTool => 1
    case SendMessageToNomiTool => 2
    case GetNomiAvatarTool => 3
    case ListRoomsTool => 4
    case CreateRoomTool => 5
    case GetRoomTool => 6
    case UpdateRoomTool => 7
    case DeleteRoomTool => 8
    case SendRoomMessageTool => 9
    case RequestNomiMessageTool => 10
  }

  /** Every case of the switch is a catalogued tool. */
  lemma CatalogEntryOfEachCase(tool: ToolKind)
    ensures CatalogIndex(tool) < |Tools()| && Tools()[CatalogIndex(tool)].name == ToolName(tool)
  {
  }

  /** Every catalogued tool has its own case in the switch, so none reaches `default`. */
  lemma EveryCatalogEntryHasACase(i: nat)
    requires i < |Tools()|
    ensures ParseTool(Tools()[i].name).Some? && CatalogIndex(ParseTool(Tools()[i].name).value) == i
  {
    var cases := [ListNomisTool, GetNomiTool, SendMessageToNomiTool, GetNomiAvatarTool, ListRoomsTool,
                  CreateRoomTool, GetRoomTool, UpdateRoomTool, DeleteRoomTool, SendRoomMessageTool,
                  RequestNomiMessageTool];
    var tool := cases[i];
    CatalogEntryOfEachCase(tool);
    ParseToolName(tool);
  }

  /** A name has a dispatch case exactly when it is in the catalog; any other name is the unknown-tool error. */
  lemma CataloguedIffDispatched(name: string, args: Args)
    ensures IsCatalogued(name) <==> Translate(name, args).Success?
    ensures !IsCatalogued(name) ==> Translate(name, args) == Failure("Unknown tool: " + name)
  {
    if IsCatalogued(name) {
      var i :| 0 <= i < |Tools()| && Tools()[i].name == name;
      EveryCatalogEntryHasACase(i);
    } else if ParseTool(name).Some? {
      CatalogEntryOfEachCase(ParseTool(name).value);
    }
  }

  /** `args` cut down to the given fields. */
  function Restrict(args: Args, fields: set<string>): (r: Args)
    ensures forall k :: k in r <==> k in args && k in fields
  {
    map k | k in args && k in fields :: args[k]
  }

  lemma RestrictKeeps(args: Args, fields: set<string>, f: string)
    requires f in fields
    ensures Lookup(Restrict(args, fields), f) == Lookup(args, f)
  {
  }

  lemma UpdateRoomParamsRestricted(args: Args, fields: set<string>)
    requires {"name", "note", "nomi_uuids", "backchanneling_enabled"} <= fields
    ensures UpdateRoomParams(Restrict(args, fields)) == UpdateRoomParams(args)
  {
    var cut := Restrict(args, fields);
    assert UpdateRoomParams(cut).Keys == UpdateRoomParams(args).Keys;
  }

  /** The create_room case reads only the four fields its schema declares. */
  lemma CreateRoomReadsOnlyDeclaredFields(args: Args)
    ensures CreateRoomParams(Restrict(args, PropertyNames(Tools()[5]))) == CreateRoomParams(args)
  {
    var t := Tools()[5];
    var declared := PropertyNames(t);
    assert Declares(t, "name") && Declares(t, "note") by {
      assert t.properties[0].name == "name" && t.properties[1].name == "note";
    }
    assert Declares(t, "backchanneling_enabled") && Declares(t, "nomi_uuids") by {
      assert t.properties[2].name == "backchanneling_enabled" && t.properties[3].name == "nomi_uuids";
    }
    RestrictKeeps(args, declared, "name");
    RestrictKeeps(args, declared, "note");
    RestrictKeeps(args, declared, "backchanneling_enabled");
    RestrictKeeps(args, declared, "nomi_uuids");
  }

  /** The update_room case reads only the five fields its schema declares. */
  lemma UpdateRoomReadsOnlyDeclaredFields(args: Args)
    ensures Lookup(Restrict(args, PropertyNames(Tools()[7])), "room_id") == Lookup(args, "room_id")
    ensures UpdateRoomParams(Restrict(args, PropertyNames(Tools()[7]))) == UpdateRoomParams(args)
  {
    var t := Tools()[7];
    var declared := PropertyNames(t);
    assert Declares(t, "room_id") && Declares(t, "name") && Declares(t, "note") by {
      assert t.properties[0].name == "room_id" && t.properties[1].name == "name" && t.properties[2].name == "note";
    }
    assert Declares(t, "nomi_uuids") && Declares(t, "backchanneling_enabled") by {
      assert t.properties[3].name == "nomi_uuids" && t.properties[4].name == "backchanneling_enabled";
    }
    UpdateRoomParamsRestricted(args, declared);
    RestrictKeeps(args, declared, "room_id");
  }

  /** The Nomi cases read only their schema's declared fields (`nomi_id`, and `message` when sending). */
  lemma NomiCaseReadsOnlyDeclaredFields(tool: ToolKind, args: Args)
    requires tool in {ListNomisTool, GetNomiTool, SendMessageToNomiTool, GetNomiAvatarTool}
    ensures CatalogIndex(tool) < |Tools()|
    ensures TranslateTool(tool, args)
         == TranslateTool(tool, Restrict(args, PropertyNames(Tools()[CatalogIndex(tool)])))
  {
    CatalogEntryOfEachCase(tool);
    if tool != ListNomisTool {
      var t := Tools()[CatalogIndex(tool)];
      var declared := PropertyNames(t);
      assert t.properties[0] == NOMI_ID;
      assert Declares(t, "nomi_id");
      RestrictKeeps(args, declared, "nomi_id");
      if tool == SendMessageToNomiTool {
        assert t.properties[1] == MESSAGE;
        assert Declares(t, "message");
        RestrictKeeps(args, declared, "message");
      }
    }
  }

  /** The other room cases read only their schema's declared fields (`room_id`, and `message` or `nomi_uuid`). */
  lemma RoomCaseReadsOnlyDeclaredFields(tool: ToolKind, args: Args)
    requires tool in {ListRoomsTool, GetRoomTool, DeleteRoomTool, SendRoomMessageTool, RequestNomiMessageTool}
    ensures CatalogIndex(tool) < |Tools()|
    ensures TranslateTool(tool, args)
         == TranslateTool(tool, Restrict(args, PropertyNames(Tools()[CatalogIndex(tool)])))
  {
    CatalogEntryOfEachCase(tool);
    if tool != ListRoomsTool {
      var t := Tools()[CatalogIndex(tool)];
      var declared := PropertyNames(t);
      assert t.properties[0] == ROOM_ID;
      assert Declares(t, "room_id");
      RestrictKeeps(args, declared, "room_id");
      if tool == SendRoomMessageTool {
        assert t.properties[1] == MESSAGE;
        assert Declares(t, "message");
        RestrictKeeps(args, declared, "message");
      } else if tool == RequestNomiMessageTool {
        assert t.properties[1].name == "nomi_uuid";
        assert Declares(t, "nomi_uuid");
        RestrictKeeps(args, declared, "nomi_uuid");
      }
    }
  }

  /** Each case reads no argument beyond the properties its tool's schema declares. */
  lemma CaseReadsOnlyDeclaredFields(tool: ToolKind, args: Args)
    ensures CatalogIndex(tool) < |Tools()|
    ensures TranslateTool(tool, args)
         == TranslateTool(tool, Restrict(args, PropertyNames(Tools()[CatalogIndex(tool)])))
  {
    if tool == CreateRoomTool {
      CreateRoomReadsOnlyDeclaredFields(args);
    } else if tool == UpdateRoomTool {
      UpdateRoomReadsOnlyDeclaredFields(args);
    } else if tool in {ListNomisTool, GetNomiTool, SendMessageToNomiTool, GetNomiAvatarTool} {
      NomiCaseReadsOnlyDeclaredFields(tool, args);
    } else {
      RoomCaseReadsOnlyDeclaredFields(tool, args);
    }
  }

  /** A catalogued tool reads no argument beyond the properties its schema declares. */
  lemma DispatchReadsOnlyDeclaredFields(i: nat, args: Args)
    requires i < |Tools()|
    ensures Translate(Tools()[i].name, args) == Translate(Tools()[i].name, Restrict(args, PropertyNames(Tools()[i])))
  {
    EveryCatalogEntryHasACase(i);
    CaseReadsOnlyDeclaredFields(ParseTool(Tools()[i].name).value, args);
  }

  // The request bodies.

  /** With all four arguments given, the serialised create_room body has exactly the four camelCase keys. */
  lemma CreateRoomWireBody(args: Args)
    requires "name" in args && "note" in args && "backchanneling_enabled" in args && "nomi_uuids" in args
    ensures Serialized(CreateRoomParams(args))
      == map["name" := args["name"], "note" := args["note"],
             "backchannelingEnabled" := args["backchanneling_enabled"], "nomiUuids" := args["nomi_uuids"]]
  {
    var wire := Serialized(CreateRoomParams(args));
    assert wire.Keys == {"name", "note", "backchannelingEnabled", "nomiUuids"};
  }

  /** The update_room body never holds `undefined`: what is built is exactly what is serialised. */
  lemma UpdateRoomBodyIsSentWhole(args: Args)
    ensures forall k :: k in UpdateRoomParams(args) <==> k in Serialized(UpdateRoomParams(args))
    ensures forall k :: k in UpdateRoomParams(args) ==> UpdateRoomParams(args)[k] == Some(Serialized(UpdateRoomParams(args))[k])
  {
  }

  /** Updating only the note sends a body with the note alone. */
  lemma UpdateRoomNoteOnly(roomId: string, note: string)
    ensures TranslateTool(UpdateRoomTool, map["room_id" := JStr(roomId), "note" := JStr(note)])
      == CallSpec(PUT, "/rooms/" + roomId, Some(map["note" := Some(JStr(note))]))
  {
    var args := map["room_id" := JStr(roomId), "note" := JStr(note)];
    assert Lookup(args, "room_id") == Some(JStr(roomId));
    assert UpdateRoomParams(args).Keys == {"note"};
    assert UpdateRoomParams(args) == map["note" := Some(JStr(note))];
  }

  /** With no updatable field given, update_room still sends a body: the empty object, with its Content-Type. */
  lemma UpdateRoomNothingGiven(args: Args, client: Client, compact: Json -> string)
    requires "name" !in args && "note" !in args && "nomi_uuids" !in args && "backchanneling_enabled" !in args
    ensures UpdateRoomParams(args) == map[]
    ensures var req := Request(client, TranslateTool(UpdateRoomTool, args), compact);
      CONTENT_TYPE in req.headers && req.body == Some(compact(JObj(map[])))
  {
    assert UpdateRoomParams(args).Keys == {};
  }

  /** An argument explicitly `null` is copied (it is not `undefined`), unlike an absent one. */
  lemma UpdateRoomKeepsNull(args: Args)
    requires "note" in args && args["note"] == JNull
    ensures "note" in UpdateRoomParams(args) && UpdateRoomParams(args)["note"] == Some(JNull)
    ensures "note" in Serialized(UpdateRoomParams(args))
  {
  }

  /** Identifiers are interpolated into paths unescaped, so two different tools can send the same request. */
  lemma IdsAreNotEscaped()
    ensures TranslateTool(GetNomiTool, map["nomi_id" := JStr("n/avatar")])
         == TranslateTool(GetNomiAvatarTool, map["nomi_id" := JStr("n")])
  {
    assert "/nomis/" + "n/avatar" == "/nomis/" + "n" + "/avatar";
  }

  // Error packaging of the handler.

  /** A thrown reply is decided before the client exists: the network is never consulted. */
  lemma ThrownBeforeAnyRequest(name: string, args: Option<Args>, apiKey: Option<string>,
                               f1: HttpRequest -> FetchOutcome, f2: HttpRequest -> FetchOutcome, codec: Codec)
    requires args.None? || apiKey.None? || apiKey.value == ""
    ensures Handle(name, args, apiKey, f1, codec) == Handle(name, args, apiKey, f2, codec)
  {
  }

  /** An unknown tool is reported as text, not thrown, and no request is made for it. */
  lemma UnknownToolIsText(name: string, args: Args, apiKey: string, fetch: HttpRequest -> FetchOutcome, codec: Codec)
    requires apiKey != "" && !IsCatalogued(name)
    ensures Handle(name, Some(args), Some(apiKey), fetch, codec) == Text("Error: " + ("Unknown tool: " + name))
  {
    CataloguedIffDispatched(name, args);
    assert Dispatch(Client(apiKey), name, args, fetch, codec.compact) == Failure("Unknown tool: " + name);
  }

  /**
   * Once the arguments and the key are there, the reply is text: the pretty-printed client
   * result, or `Error: ` and the message the client failed with. The one request made is
   * the tool's, carrying the key.
   */
  lemma CaseReply(tool: ToolKind, args: Args, apiKey: string, fetch: HttpRequest -> FetchOutcome, codec: Codec)
    requires apiKey != ""
    ensures var req := Request(Client(apiKey), TranslateTool(tool, args), codec.compact);
      && req.headers[AUTHORIZATION] == apiKey
      && Handle(ToolName(tool), Some(args), Some(apiKey), fetch, codec)
         == match fetch(req)
            case NetworkError(m) => Text("Error: " + m)
            case Received(resp) =>
              match Classify(resp)
              case Success(v) => Text(codec.pretty(v))
              case Failure(m) => Text("Error: " + m)
  {
    ParseToolName(tool);
  }

  /** Deleting a room answered by 204 replies with the serialised `{success: true}` marker. */
  lemma DeleteRoomNoContent(args: Args, apiKey: string, fetch: HttpRequest -> FetchOutcome, codec: Codec)
    requires apiKey != ""
    requires var req := Request(Client(apiKey), DeleteRoom(Lookup(args, "room_id")), codec.compact);
      fetch(req).Received? && fetch(req).response.status == 204
    ensures Handle("delete_room", Some(args), Some(apiKey), fetch, codec) == Text(codec.pretty(SUCCESS_MARKER))
  {
    CaseReply(DeleteRoomTool, args, apiKey, fetch, codec);
  }

  /** A remote error category reaches the host inside `Error: API Error: …` text, whatever the tool and the rest of the body. */
  lemma RemoteErrorCategoryReachesHost(tool: ToolKind, args: Args, apiKey: string, resp: HttpResponse,
                                       errorType: string, fetch: HttpRequest -> FetchOutcome, codec: Codec)
    requires apiKey != "" && errorType != ""
    requires !resp.Ok() && resp.body.Success? && ErrorType(resp.body.value) == Some(JStr(errorType))
    requires fetch(Request(Client(apiKey), TranslateTool(tool, args), codec.compact)) == Received(resp)
    ensures Handle(ToolName(tool), Some(args), Some(apiKey), fetch, codec) == Text("Error: " + ("API Error: " + errorType))
  {
    CaseReply(tool, args, apiKey, fetch, codec);
  }
}
