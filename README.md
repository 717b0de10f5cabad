# Nomi MCP server — a Dafny model

This project models the core of the Nomi MCP server (`src/index.ts`). The server exposes the
Nomi.ai REST API (companions called Nomis, and group chat rooms) as Model Context Protocol
tools. The model covers three parts of that file, and each part proves facts about itself:

- **The REST client `NomiAPIClient`** (module `NomiApi`). `makeRequest` builds the request:
  - the URL is the fixed base URL followed by the endpoint;
  - the `Authorization` header holds the raw API key;
  - `Content-Type: application/json` and a serialised body are sent exactly when a body is
    given.

  It then classifies the response:
  - a non-ok status fails; when the error body parses to a non-null value, the message is
    `API Error: ` and then `error.error?.type || statusText`;
  - a 204 yields `{success: true}`;
  - anything else yields the parsed body.

  Each endpoint method is one `makeRequest` with its own verb, path and body.
- **The tool catalog** (module `ToolCatalog`): the eleven tools that `tools/list` advertises.
  Each has a name, a description, typed properties and required fields, in source order.
- **The `tools/call` handler** (module `ToolDispatch`).
  - Missing arguments, or a missing or empty `NOMI_API_KEY`, throw before any client exists.
  - Otherwise the tool name is switched over. Each case reads its arguments (`update_room`
    copies only the fields that are not `undefined`) and calls the client once.
  - Every outcome is wrapped as text: the pretty-printed result, or `Error: ` and the
    message. This covers unknown tools, network failures and API errors alike.

JavaScript semantics that matter are written out in module `JsValues`. In particular:
- truthiness;
- what a template literal produces for a value (strings as-is, numbers in decimal, `null`,
  `undefined`, arrays joined by commas, `[object Object]`);
- the absent property, which is `undefined` (`Option.None`).

The network (`fetch`) and the two renderings of `JSON.stringify` (compact for request
bodies, two-space indented for replies) are function parameters. Every statement about them
therefore holds for any network and any renderer. That `makeRequest` depends on the network
only through its answer to the one built request is stated as "two networks that agree on the
built request give the same outcome".

Three behaviours of the code are easy to misread, and the model keeps them as written:
- The catalog has eleven tools (src/index.ts:165-352).
- A missing `arguments` object and a missing or empty API key are thrown (src/index.ts:361,
  367). They are not returned as an error result, and `isError` is never set.
- For a non-ok response, `response.json()` is awaited before `statusText` is read
  (src/index.ts:69). A body that is not JSON therefore makes the call fail with the parse
  error, not with the status text. A `null` body fails with the TypeError of reading
  `error.error`.

Where the source updates values step by step, it has an imperative mirror proved equal to
the specification function: `BuildHeaders`, `MakeRequest`, `BuildUpdateParams` and `CallTool`.
`ToolDispatch.Restrict` (the arguments cut down to a set of fields) and its lemma
`RestrictKeeps` are proof helpers for the `*ReadsOnlyDeclaredFields` lemmas. They model no
source line of their own. `JsValues.IntToDecimal` (`String(n)` for an integer) and
`JsValues.JoinWithComma` (`Array.prototype.join` on an array inside `${}`) are helpers of
`ToJsString`, and their behaviour is stated through its contract and the injectivity lemmas.

## Model

| member | source | states |
|---|---|---|
| JsValues.NatToDecimal | src/index.ts:89 | the decimal text of a number interpolated into a path is non-empty, all digits, and has no leading zero |
| JsValues.DecimalRoundTrip | src/index.ts:89 | reading the decimal text of a natural number `n` back gives `n` |
| JsValues.NatToDecimalInjective | src/index.ts:89 | distinct natural numbers have distinct decimal text |
| JsValues.IntToDecimalInjective | src/index.ts:89 | distinct integers, negative ones included, have distinct text |
| JsValues.NumericIdsInterpolateDistinctly | src/index.ts:89 | two numeric ids interpolate to the same text exactly when they are the same integer, so distinct numeric ids give distinct paths |
| JsValues.Truthy | src/index.ts:71 | the falsy values are exactly `null`, `false`, `0` and `""`; every object and array, even an empty one, is truthy |
| JsValues.ToJsString | src/index.ts:71 | a string converts to itself, an integer to its decimal text, and an object without a `toString` key to `[object Object]` |
| JsValues.TemplateString | src/index.ts:89 | an absent argument interpolates as `undefined` and a string argument as itself |
| NomiApi.SerializedUpdate | src/index.ts:65 | setting a body property to `undefined` removes it from what is serialised, and setting it to a value puts exactly that value there |
| NomiApi.SerializedKeepsDefinedBody | src/index.ts:65 | a body with no `undefined` property is serialised with all its properties |
| NomiApi.Headers | src/index.ts:54-60 | the headers always carry the key under `Authorization`, carry `Content-Type: application/json` exactly when there is a body, and nothing else |
| NomiApi.BuildHeaders | src/index.ts:54-60 | the step-by-step header construction yields exactly `Headers` |
| NomiApi.Request | src/index.ts:62-66 | the request has the call's verb and the URL base + endpoint; it carries the key; it has a content type and a body exactly when the call has a body, and the body is the compact rendering of the defined properties |
| NomiApi.Classify | src/index.ts:68-80 | a non-ok status always fails, with `API Error: ` and then the error label when the error body is a non-null value; 204 gives `{success: true}`; any other ok status gives the parsed body |
| NomiApi.ErrorType | src/index.ts:71 | `error.error?.type` is defined exactly when `error` is an object holding a `type`, and then is that value; an `error` that is not an object yields `undefined` |
| NomiApi.Perform | src/index.ts:49-81 | a network failure is passed through as the failure, a received response gives its classification, and a call succeeds only when a response arrived with an ok status |
| NomiApi.MakeRequest | src/index.ts:49-81 | the imperative `makeRequest` returns what one fetch of the built request followed by classification gives, and a network failure comes back as that failure |
| NomiApi.ListNomis | src/index.ts:84-86 | a bodiless GET of `/nomis` |
| NomiApi.GetNomi | src/index.ts:88-90 | a bodiless GET of `/nomis/<id>` for a string id, and of `/nomis/undefined` when the id is absent |
| NomiApi.SendMessage | src/index.ts:92-96 | a POST to `/nomis/<id>/chat` whose serialised body is `{messageText}`, or `{}` when the text is absent |
| NomiApi.GetNomiAvatar | src/index.ts:98-100 | a bodiless GET of `/nomis/<id>/avatar` |
| NomiApi.ListRooms | src/index.ts:103-105 | a bodiless GET of `/rooms` |
| NomiApi.CreateRoom | src/index.ts:107-114 | a POST to `/rooms` carrying the given parameters as its body |
| NomiApi.GetRoom | src/index.ts:116-118 | a bodiless GET of `/rooms/<id>`, and of `/rooms/undefined` when the id is absent |
| NomiApi.UpdateRoom | src/index.ts:120-130 | a PUT to `/rooms/<id>` carrying the given parameters as its body |
| NomiApi.DeleteRoom | src/index.ts:132-134 | a bodiless DELETE of `/rooms/<id>` |
| NomiApi.SendRoomMessage | src/index.ts:136-140 | a POST to `/rooms/<id>/chat` whose serialised body is `{messageText}`, or `{}` when the text is absent |
| NomiApi.RequestNomiMessage | src/index.ts:142-146 | a POST to `/rooms/<id>/chat/request` whose serialised body is `{nomiUuid}`, or `{}` when the uuid is absent |
| NomiApi.PerformSendsOnlyTheBuiltRequest | src/index.ts:62-66 | the outcome depends on the network only through its answer to the one built request |
| NomiApi.ApiErrorNamesErrorType | src/index.ts:68-73 | a non-ok response whose parsed body names a non-empty string `error.type` fails with `API Error: <type>`, whatever else the body holds |
| NomiApi.ApiErrorNamesTruthyType | src/index.ts:68-73 | a non-ok response whose parsed body has any truthy `error.type` fails with `API Error: ` and that value as `${}` renders it |
| NomiApi.ApiErrorFallsBackToStatusText | src/index.ts:68-73 | a non-ok, non-null error body with no truthy `error.type` fails with `API Error: <statusText>` |
| NomiApi.UnreadableErrorBody | src/index.ts:69 | a non-ok response whose body does not parse fails with the parse error, and a `null` body fails with the TypeError of reading `error`, not with the status text |
| NomiApi.NoContentIgnoresBody | src/index.ts:75-78 | a 204 answer gives `{success: true}` whatever its body would parse to |
| ToolCatalog.Tools | src/index.ts:165-352 | the catalog lists eleven tools with pairwise distinct names |
| ToolCatalog.NomiToolFields | src/index.ts:167-220 | list_nomis declares no field, get_nomi and get_nomi_avatar exactly `nomi_id`, and send_message_to_nomi exactly `nomi_id` and `message` |
| ToolCatalog.RoomToolFields | src/index.ts:222-270 | list_rooms declares no field, create_room exactly its four room fields, and get_room exactly `room_id` |
| ToolCatalog.RoomWriteToolFields | src/index.ts:271-351 | update_room declares exactly `room_id` and its four updatable fields, delete_room exactly `room_id`, send_room_message `room_id` and `message`, and request_nomi_message `room_id` and `nomi_uuid` |
| ToolCatalog.RequiredFieldsAreDeclared | src/index.ts:186-349 | every required field of every tool is a declared property of that tool |
| ToolDispatch.Lookup | src/index.ts:382-433 | `args.<key>` is `undefined` exactly when the property is absent, and otherwise its value |
| ToolDispatch.CreateRoomParams | src/index.ts:398-404 | create_room always passes `createRoom` an object with the four camelCase properties, each holding its snake_case argument or `undefined`; those holding `undefined` are not sent |
| ToolDispatch.UpdateRoomParams | src/index.ts:411-419 | update_room's body holds a property exactly when its snake_case argument is present, with that argument's value, and holds no other property |
| ToolDispatch.BuildUpdateParams | src/index.ts:412-418 | the four guarded assignments build exactly `UpdateRoomParams` |
| ToolDispatch.ParseTool | src/index.ts:375-438 | a recognised name is the name of the case it selects |
| ToolDispatch.ParseToolName | src/index.ts:375-435 | every case of the switch is selected by its own name |
| ToolDispatch.TranslateTool | src/index.ts:375-435 | a call carries a body exactly when its verb is POST or PUT |
| ToolDispatch.Translate | src/index.ts:375-438 | the switch selects a case exactly for a recognised name, giving that case's call, and otherwise fails with `Unknown tool: <name>` |
| ToolDispatch.Dispatch | src/index.ts:372-439 | inside the `try`, an unrecognised name fails with `Unknown tool: <name>` before any request and a recognised one gives the outcome of its one client call |
| ToolDispatch.TranslateByName | src/index.ts:375-435 | dispatching a case's name gives that case's call |
| ToolDispatch.NomiRoutes | src/index.ts:84-100 | list_nomis, get_nomi, send_message_to_nomi and get_nomi_avatar map to their verb, path (with the interpolated `nomi_id`) and body (`messageText` from `message`) |
| ToolDispatch.RoomRoutes | src/index.ts:103-134 | list_rooms, create_room, get_room and delete_room map to their verb, path and body |
| ToolDispatch.RoomWriteRoutes | src/index.ts:120-146 | update_room, send_room_message and request_nomi_message map to PUT/POST with their path and body |
| ToolDispatch.BodyExactlyForWritingTools | src/index.ts:58-65 | a content type is sent exactly when a body is, and a body exactly for the five writing tools |
| ToolDispatch.CatalogEntryOfEachCase | src/index.ts:165-352 | each case of the switch has a catalog entry of the same name |
| ToolDispatch.EveryCatalogEntryHasACase | src/index.ts:375-435 | each catalog entry's name selects a case that maps back to that entry |
| ToolDispatch.CataloguedIffDispatched | src/index.ts:375-438 | a name is dispatched exactly when it is in the catalog, and otherwise fails with `Unknown tool: <name>` |
| ToolDispatch.UpdateRoomParamsRestricted | src/index.ts:411-419 | the update_room body depends only on its four updatable fields |
| ToolDispatch.CreateRoomReadsOnlyDeclaredFields | src/index.ts:398-404 | create_room's body depends only on the properties create_room declares |
| ToolDispatch.UpdateRoomReadsOnlyDeclaredFields | src/index.ts:411-419 | update_room's path and body depend only on the properties update_room declares |
| ToolDispatch.NomiCaseReadsOnlyDeclaredFields | src/index.ts:381-391 | each Nomi case depends only on the arguments its catalog entry declares |
| ToolDispatch.RoomCaseReadsOnlyDeclaredFields | src/index.ts:407-434 | each remaining room case depends only on the arguments its catalog entry declares |
| ToolDispatch.CaseReadsOnlyDeclaredFields | src/index.ts:375-435 | every case depends only on the arguments its catalog entry declares |
| ToolDispatch.DispatchReadsOnlyDeclaredFields | src/index.ts:375-435 | dispatching any catalogued tool ignores every argument its schema does not declare |
| ToolDispatch.CreateRoomWireBody | src/index.ts:398-404 | with all four arguments given, create_room sends exactly them under their camelCase names |
| ToolDispatch.UpdateRoomBodyIsSentWhole | src/index.ts:411-419 | no update_room property is dropped by serialisation |
| ToolDispatch.UpdateRoomNoteOnly | src/index.ts:411-419 | updating the note alone sends PUT `/rooms/<id>` with a body holding the note only |
| ToolDispatch.UpdateRoomNothingGiven | src/index.ts:411-419 | with no updatable field, update_room still sends `{}` with its content type |
| ToolDispatch.UpdateRoomKeepsNull | src/index.ts:413-418 | an explicit `null` is copied into the body and survives serialisation |
| ToolDispatch.IdsAreNotEscaped | src/index.ts:88-100 | ids are interpolated unescaped: get_nomi of `n/avatar` sends the same request as get_nomi_avatar of `n` |
| ToolDispatch.Handle | src/index.ts:357-459 | the handler throws exactly when the arguments are missing or the key is missing or empty, with the matching message, arguments first |
| ToolDispatch.CallTool | src/index.ts:357-459 | the imperative handler replies exactly as `Handle` does |
| ToolDispatch.ThrownBeforeAnyRequest | src/index.ts:360-370 | when the handler throws, the network was not consulted |
| ToolDispatch.UnknownToolIsText | src/index.ts:437-457 | an unknown tool is answered with `Error: Unknown tool: <name>` text, not thrown |
| ToolDispatch.CaseReply | src/index.ts:441-457 | for a known tool the one request made is the tool's, carrying the key; the reply is the pretty-printed result, or `Error: ` and the failure message |
| ToolDispatch.DeleteRoomNoContent | src/index.ts:422-424 | a delete answered by 204 replies with the pretty-printed `{success: true}` |
| ToolDispatch.RemoteErrorCategoryReachesHost | src/index.ts:449-457 | when the one request a tool sends is answered non-ok with a body naming a non-empty string `error.type`, the host gets the text `Error: API Error: <type>`, whatever the tool and the rest of the body |

## Left out

- The MCP SDK, the stdio transport, the server's name and version and `main` (src/index.ts:1-6, 149-160, 461-471). These are framework wiring with no logic of their own.
- The response interfaces `NomiResponse`, `MessageResponse` and `RoomResponse` (src/index.ts:8-39). They are type annotations only and are never checked at run time.
- `fetch` and `async`/`await`: the network is the parameter `fetch` and calls happen in sequence. Timeouts, retries and concurrency do not exist in the source.
- `process.env`: the key is the parameter `apiKey`, with `None` for an unset variable.
- `JSON.stringify` and `response.json()` are not interpreted. Stringify is the pair of renderers in `Codec`, and the parse outcome is part of `HttpResponse`. Only their observable rules are modelled: `undefined` properties are dropped, and a parse failure rejects.
- Key order of serialised objects: objects are maps, so the order in which `updateParams` receives its properties is not modelled.
- Numbers are exact, unbounded integers. JavaScript numbers are doubles, so above 2^53 `String(n)` prints the shortest text that reads back as the same double (`String(2**60)` is `1152921504606847000`), while the model prints the exact digits. That rounding is not modelled, and neither are fractions, `NaN` or exponent notation.
- Properties inherited through prototypes (an argument named `constructor`, say) are not modelled. An argument object is a plain map.
- JsValues.ToJsString: an object with its own `toString` key is converted as `[object Object]`, also inside an array. In JavaScript, that key holds parsed JSON and so is never callable. `${}` then falls back to `valueOf`, gets the object back, and throws `TypeError: Cannot convert object to primitive value`. That TypeError would be caught at src/index.ts:449-457 before `getNomi` and the other id paths send a request, and at line 71 it would replace the `API Error:` message. The model sends the request, or builds the message, with `[object Object]` instead.
- Field descriptions and the length and count limits written into them, such as 100 characters and 1 to 10 Nomis: these are advisory text in the catalog, and the server enforces none of them.
- The `type: "object"` wrapper of every input schema and the `items: {type: "string"}` of arrays are folded into `FieldType`.
- NomiApi.ErrorLabel: no contract of its own. Its behaviour is stated through `Classify`, `ApiErrorNamesErrorType`, `ApiErrorNamesTruthyType` and `ApiErrorFallsBackToStatusText`.
- The TypeError message for a `null` error body is the one Node.js's V8 engine produces. Other engines word it differently.
