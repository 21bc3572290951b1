# Touch Portal plugin client, modelled in Dafny

This project models the client side of the Touch Portal plugin protocol. The
protocol is line-delimited JSON over one socket. The repository ships three
versions of the client class `TouchPortalClient`, and each is modelled as it
is written:

- `src/index.ts` (module `IndexClient`): the primary client. Its registry of
  custom states is a plain object from state id to description.
- `src/client.ts` (module `SetClient`): the variant whose registry is a
  `Set` of state ids.
- `src/client.js` (module `LegacyClient`): the older, smaller client.

Each client is a Dafny `class` with three fields:

- `pluginId`;
- `customStates`: a `map` for `index.ts` and `client.js`, a `set` for `client.ts`;
- `writes`: one element per `socket.write`, so a batch is one element.

A thrown `Error` becomes a `Fail(...)` outcome, or `Err(...)` for
`buildConnectorUpdate`. When a method fails, the state it leaves is stated:
usually nothing has changed.

The shared modules:

- `Json` models JavaScript values and `JSON.stringify`:
  - `Render` escapes control characters, leaves out `undefined` members, and
    writes `NaN` as `null`;
  - `JsValue`'s `Truthy` is JavaScript truthiness;
  - `Get` is a property read, where the last duplicate key wins.
  
  It is proved that no rendered message holds a line break.
- `Numbers` models `parseInt(value, 10)`, with `None` standing for NaN, and
  the decimal text of an integer.
- `Framing` covers three things: `send`, which is one message plus `"\n"`;
  `sendArray`, which is a loop building one string, each message followed by
  `"\n"`; and the inbound `split(/(?:\r\n|\r|\n)/)`.
- `Shapes` holds the argument records. It also holds `FirstNew`, the
  reference for what a `createStateMany` batch creates: the first entry of
  each id not yet known, in input order. The batch of `client.ts` is proved
  equal to it whenever it does not throw, and that of `index.ts` whenever
  no description is empty.
- `Messages` holds the message objects the clients build alike.
- `Connectors` holds the [0, 100] range test, the long connector id
  `pc_<pluginId>_<id>|<item id>=<item value>...`, and the batch of
  `connectorUpdateMany`.
- `Dispatch` models the `data` handler of `index.ts` and `client.ts`. The two
  handlers are the same code, so there is one model for both. It splits a
  delivery, drops empty lines, decodes each line, and routes the line by
  `type` to named events. Handling ends normally, or by
  `process.exit(0)`, or in an exception.

`JSON.parse` is a parameter `parse: string -> Option<JsValue>`, where `None`
means a `SyntaxError`.

Quirks modelled as written:

- `index.ts`:
  - The duplicate test is `if (this.customStates[id])`, so a state created with
    description `''` is not seen as created, and a batch can send it twice.
  - `removeState` tests `=== undefined`.
  - The `parentGroup` conditional is always true, so an empty group is sent.
  - In `connectorUpdateMany`, an entry with `shortId: ''` keeps its own id.
- `client.ts`:
  - `createState` attaches `parentGroup` only when truthy.
  - In `createStateMany`, the test `!state.parentGroup` is inverted. An absent
    group throws a TypeError after the id was added to the set, so nothing is
    sent. An empty group is attached. A non-empty group is dropped.
  - `updateActionData` rejects falsy fields, `0` included.
  - Connector values go out as numbers.
  - Any defined `shortId` is used as the id.
- `client.js`:
  - `createState` reads a registry that nothing writes, so it never rejects.
  - Each delivery is one `JSON.parse`.
  - An addressed `closePlugin` exits with code 9.
  - `info` emits only `Info`.
  - `action` carries no held state.
  - The other types become `Message`.

In several places the code does less than the protocol's intended design, and
the model follows the code:

- There is no fragment buffer across deliveries. Each delivery is split on
  its own.
- A line that `JSON.parse` rejects throws out of the handler, and the rest of
  the delivery is not handled. It is not skipped.
- There is no `removeStateMany`.
- Identifier arguments such as `actionInstanceId` and `notificationId` are
  not checked for emptiness.
- `index.ts` sends an empty `parentGroup`.

## Model

| member | source | states |
|---|---|---|
| Numbers.ParseInt | src/index.ts:147 | `parseInt(value, 10)`: white space skipped, an optional sign, the longest run of digits, NaN (`None`) without a digit; `Numbers.ParseIntReads` states what it reads |
| Numbers.ParseIntReads | src/index.ts:147 | white space, a sign, digits with leading zeros and any text not starting with a digit are read as the signed value of the digits |
| Numbers.IntToString | src/index.ts:155 | `Number.prototype.toString` of an integer: an optional minus, then digits only |
| Numbers.NatToString | src/index.ts:155 | the decimal text of a natural number is non-empty, all digits, with no leading zero |
| Numbers.ParseIntOfIntToString | src/index.ts:147 | `parseInt` reads the decimal text of every integer back as that integer |
| Json.Truthy | src/index.ts:28 | ECMAScript ToBoolean: false exactly for undefined, null, false, 0, NaN and `''` |
| Json.Render | src/index.ts:236 | `JSON.stringify`: escapes, undefined members left out, NaN as `null`; non-empty, and `Json.RenderNoLineBreak` states it never holds a raw line break |
| Json.Get | src/index.ts:311 | a property read that is not undefined comes from a member with that key and value |
| Json.Prop | src/index.ts:311 | reading a property fails (TypeError) exactly on null and undefined |
| Json.RenderNoLineBreak | src/index.ts:236 | `JSON.stringify` never writes a raw `\n` or `\r`, so every message fits on one line |
| Framing.Frame | src/index.ts:235-237 | what `send` writes: the encoding followed by one `"\n"` |
| Framing.Batch | src/index.ts:224-226 | what `sendArray` writes: the frames in order; `Framing.BatchRoundTrip` states that splitting it gives back the encodings |
| Framing.BuildPayload | src/index.ts:218-233 | the `sendArray` loop builds the concatenation of every encoded message, each followed by `"\n"`, in order |
| Framing.SplitLines | src/index.ts:304 | the split yields at least one piece and no piece holds a line break; `Framing.SplitLinesUnbroken` and `Framing.SplitLinesBreak` pin every piece |
| Framing.SplitLinesUnbroken | src/index.ts:304 | a text without a line break is one piece, itself |
| Framing.SplitLinesBreak | src/index.ts:304 | a break-free text followed by CR LF, by LF, or by a CR with no LF after it is cut off as one piece, and splitting goes on after the break |
| Framing.NonEmpty | src/index.ts:307 | every line kept is non-empty and comes from the input; `Framing.NonEmptyOne` and `Framing.NonEmptyAppend` state that every non-empty line is kept, in order |
| Framing.NonEmptyOne | src/index.ts:307 | a single line is kept exactly when it is not `''` |
| Framing.NonEmptyAppend | src/index.ts:307 | filtering two parts one after the other gives the filtered parts in the same order |
| Framing.SplitBatch | src/index.ts:304 | splitting a `sendArray` payload gives the encodings in order, then one empty piece |
| Framing.BatchRoundTrip | src/index.ts:218-233 | splitting a `sendArray` payload and dropping empty lines gives back the encodings in the same order |
| Shapes.IdsMembers | src/index.ts:44-70 | the ids of a batch are exactly the ids its entries carry |
| Shapes.FirstNew | src/index.ts:52-66 | reference definition: the entries that are the first of their id and whose id is not known, in input order |
| Shapes.FirstNewCons | src/index.ts:52-66 | the reference, read from the front: the first entry is kept when its id is unknown, and its id becomes known for the rest |
| Shapes.FirstNewOrder | src/index.ts:52-66 | the entries kept are the input with the others left out, in input order |
| Shapes.FirstNewIds | src/index.ts:52-66 | the ids kept are exactly the batch ids not known before |
| Shapes.FirstNewDistinct | src/index.ts:52-66 | no id is kept twice |
| Connectors.LongConnectorId | src/index.ts:160-168 | the long id `pc_<pluginId>_<id>` followed by a bar, the item id, `=` and the item value for each item; `Connectors.LongIdDeterminesItems` states it is injective in the items |
| Connectors.LongIdExample | src/index.ts:157-168 | the long id of connector `vol` of plugin `p1` with items `a=1` then `b=2` is `pc_p1_vol` followed by each item after a bar, in that order |
| Connectors.BuildDataSuffix | src/index.ts:160-165 | the `dataStr.concat` loop appends a bar, the item id, `=` and the item value for every item in order, and nothing when data is not an array |
| Connectors.CheckValue | src/index.ts:147-151 | the range test fails exactly when `parseInt` gives a number below 0 or above 100, and then with that number; otherwise it passes the parsed value, NaN included |
| Connectors.AcceptsPercentages | src/index.ts:147-151 | every integer from 0 to 100 in decimal is accepted as itself |
| Connectors.AcceptsNonNumeric | src/index.ts:147-151 | every value with no digit after its leading white space and sign parses to NaN and is not rejected |
| Connectors.RangeTestOnText | src/index.ts:147-151 | on white space, a sign, digits and trailing text, the test passes the signed value of the digits when it lies in [0, 100] and rejects it with that value otherwise |
| Connectors.AcceptsLooseDecimal | src/index.ts:147-151 | `" 050px"` is accepted as 50 |
| Connectors.RejectsOutsideRange | src/index.ts:147-151 | every integer below 0 or above 100 in decimal is rejected with that integer |
| Connectors.ValueTextReadsBack | src/index.ts:155 | the value text sent parses back to the value the range test saw |
| Connectors.ParseSuffixOfSuffix | src/index.ts:160-165 | the suffix of items whose ids hold no bar or `=` and whose values hold no bar can be read back into the items |
| Connectors.LongIdDeterminesItems | src/index.ts:167 | two item lists give the same long connector id only if they are equal, order included |
| Connectors.ConnectorBatch | src/index.ts:180-185 | the array of `connectorUpdateMany`, or the first error; its two lemmas state its contents and when it fails |
| Connectors.ConnectorBatchOnePerConnector | src/index.ts:180-185 | a successful batch holds one update per connector, in input order, each the one built for it |
| Connectors.ConnectorBatchFailsOnFirstError | src/index.ts:180-185 | the batch fails exactly when building some entry's update fails, and then with the error of the first such entry |
| Dispatch.Route | src/index.ts:311-366 | the `switch (message.type)` for one decoded line, as events and an ending; the lemmas after it state the table |
| Dispatch.RouteThrowsOnlyOnNullish | src/index.ts:311 | reading `type` throws exactly for null and undefined, before any event |
| Dispatch.RouteExitsOnlyOnAddressedClose | src/index.ts:312-319 | the process exits with 0, and `Close` is emitted as the only event, exactly for a `closePlugin` addressed to this plugin |
| Dispatch.RouteHandsOnMessage | src/index.ts:311-366 | every event but `Settings` hands listeners the decoded message itself; one message emits at most two events |
| Dispatch.RouteFallsBackOnUnknownType | src/index.ts:364-366 | `Message` is emitted exactly for a message with a type that has no case |
| Dispatch.SettingsSources | src/index.ts:320-335 | `info` emits `Info`, then `Settings` when `settings` is truthy; `settings` emits its `values` |
| Dispatch.SettingsOnlyFromInfoAndSettings | src/index.ts:320-335 | no type other than `info` and `settings` emits `Settings` |
| Dispatch.HeldState | src/index.ts:340-363 | `action`, `up` and `down` each emit exactly one `Action`, with held state null, false and true, and complete |
| Dispatch.ActionOnlyForHeldTypes | src/index.ts:340-363 | no type other than `action`, `up` and `down` emits `Action` |
| Dispatch.PassThroughTypes | src/index.ts:327-355 | `notificationOptionClicked`, `listChange`, `broadcast`, `shortConnectorIdNotification` and `connectorChange` each emit exactly their one event with the message, and complete |
| Dispatch.IgnoredAndUnknownTypes | src/index.ts:312-365 | a `closePlugin` for another plugin emits nothing and completes; a type with no case emits exactly `Message` |
| Dispatch.HandleLines | src/index.ts:306-368 | the `lines.forEach`: empty lines skipped, each other line decoded and routed; `Dispatch.HandleLinesAppend` and the lemmas after it state its behaviour |
| Dispatch.HandleData | src/index.ts:303-369 | one delivery, split on its own and handled line by line; `Dispatch.DeliveredBatchRoutesInOrder` states how a batch is handled |
| Dispatch.ThenAssociative | src/index.ts:306-368 | running deliveries one after the other does not depend on how they are grouped |
| Dispatch.HandleLinesAppend | src/index.ts:306-368 | handling `a + b` is handling `a` then `b`: lines are handled in order, and a later part is handled only when the earlier part completed |
| Dispatch.EmptyLinesDropped | src/index.ts:307 | empty lines have no effect on a delivery |
| Dispatch.MalformedLineEndsDelivery | src/index.ts:308 | a line `JSON.parse` rejects throws, and nothing after it is handled |
| Dispatch.AddressedCloseEndsDelivery | src/index.ts:312-319 | after an addressed `closePlugin` the process exits and nothing after it is handled |
| Dispatch.DeliveredBatchRoutesInOrder | src/index.ts:303-369 | a delivered `sendArray` payload is routed message by message, in order, as if decoded one at a time |
| Messages.Strs | src/index.ts:88 | the choice values, one string per entry, in order |
| Messages.StateUpdateMessages | src/index.ts:131-137 | one `stateUpdate` per input, in input order |
| IndexClient.Created | src/index.ts:28 | the duplicate test: an id counts as created only when its stored description is truthy; `IndexClient.EmptyDescriptionRepeatSentTwice` shows the consequence |
| IndexClient.CreateStateGroup | src/index.ts:33-39 | the createState message carries `parentGroup` exactly as given, the empty string included |
| IndexClient.CreateStateMessages | src/index.ts:56-66 | one createState message per accepted entry, in order |
| IndexClient.PlanCreateMany | src/index.ts:52-66 | the `states.forEach` of `createStateMany`: what is stored and what is queued; the lemmas below state both |
| IndexClient.PlanRegistry | src/index.ts:44-70 | after `createStateMany` the registry holds the old ids and every id of the batch, and no entry seen as created is overwritten |
| IndexClient.PlanKeepsOrder | src/index.ts:52-66 | the entries sent are the input with the skipped ones left out, in input order |
| IndexClient.PlanSentIds | src/index.ts:52-66 | with non-empty descriptions, the ids sent are those of the batch not already created |
| IndexClient.PlanSendsEachIdOnce | src/index.ts:52-66 | with non-empty descriptions, no id is sent twice, whether repeated in the batch or already created |
| IndexClient.PlanFirstOccurrences | src/index.ts:52-66 | with non-empty descriptions, the entries sent are exactly the first entry of each id not already created, in input order |
| IndexClient.PlanStoresFirstDescription | src/index.ts:52-66 | with non-empty descriptions, each id newly stored maps to the description of its first entry |
| IndexClient.EmptyDescriptionRepeatSentTwice | src/index.ts:53 | a state with description `''` repeated in a batch is registered and sent twice |
| IndexClient.ConnectorUpdateMessage | src/index.ts:146-171 | the update fails exactly when the range test fails, with its error |
| IndexClient.ConnectorUpdateFields | src/index.ts:153-170 | the update has type `connectorUpdate`; its value is the decimal text of the parsed integer (`newValue.toString()`), or `NaN`, and reads back as the input; it carries either `shortId` or the long `connectorId`, never both |
| IndexClient.EffectiveId | src/index.ts:181-182 | the id passed on: a truthy `shortId`, else the entry's own id; `IndexClient.ConnectorBatchContents` states what goes out |
| IndexClient.ConnectorBatchFailsOnOutOfRange | src/index.ts:173-186 | `connectorUpdateMany` fails exactly when some value is out of range, with the first such error |
| IndexClient.ConnectorBatchContents | src/index.ts:180-185 | each update sent carries the decimal text of its entry's parsed value, or `NaN`; a non-empty `shortId`, or the entry's own id when `shortId` is `''`; else the long connector id |
| IndexClient.ActionDataCheck | src/index.ts:189-196 | the two checks of `updateActionData`: a field undefined or `''` fails first, then a type other than `number`; `SetClient.ActionDataStricter` compares it with the other client |
| IndexClient.TouchPortalClient.constructor | src/index.ts:20-25 | empty plugin id, empty registry, nothing written |
| IndexClient.TouchPortalClient.Connect | src/index.ts:286-288 | the plugin id is set as given, or to `UNK` when `connect` is called without options |
| IndexClient.TouchPortalClient.Send | src/index.ts:235-237 | exactly one write: the encoding plus `"\n"` |
| IndexClient.TouchPortalClient.SendArray | src/index.ts:218-233 | an empty list fails with no write; otherwise exactly one write of the whole batch |
| IndexClient.TouchPortalClient.CreateState | src/index.ts:27-42 | an id seen as created fails with no write and no change; otherwise it stores `id -> desc` and makes one write |
| IndexClient.TouchPortalClient.CreateStateMany | src/index.ts:44-70 | empty input fails; the registry becomes the plan's; the accepted entries go out in one write, or `sendArray` fails when all were skipped |
| IndexClient.TouchPortalClient.RemoveState | src/index.ts:72-82 | an id whose entry is undefined fails with no write; otherwise only that key is deleted and one message written |
| IndexClient.TouchPortalClient.ChoiceUpdate | src/index.ts:84-90 | an empty value list fails with no write; otherwise one write |
| IndexClient.TouchPortalClient.ChoiceUpdateSpecific | src/index.ts:92-109 | an empty list, then a missing or empty instance id, fail with no write; otherwise one write carrying the instance id |
| IndexClient.TouchPortalClient.SettingUpdate | src/index.ts:111-117 | one `settingUpdate` write |
| IndexClient.TouchPortalClient.StateUpdate | src/index.ts:119-121 | one `stateUpdate` write |
| IndexClient.TouchPortalClient.StateUpdateMany | src/index.ts:123-140 | empty input fails with no write; otherwise one write with one update per input, in order |
| IndexClient.TouchPortalClient.BuildConnectorUpdate | src/index.ts:146-171 | the method builds the update the model's function describes, error included |
| IndexClient.TouchPortalClient.ConnectorUpdate | src/index.ts:142-144 | an out-of-range value fails with no write; otherwise one write of the update |
| IndexClient.TouchPortalClient.ConnectorUpdateMany | src/index.ts:173-186 | empty input fails; any out-of-range entry fails before any write; otherwise one write of all updates in order |
| IndexClient.TouchPortalClient.UpdateActionData | src/index.ts:188-202 | a field undefined or `''`, then a type other than `number`, fail with no write; otherwise one write |
| IndexClient.TouchPortalClient.SendNotification | src/index.ts:204-216 | missing or empty options fail with no write; otherwise one write |
| IndexClient.TouchPortalClient.Pair | src/index.ts:239-245 | one `pair` write carrying the plugin id |
| SetClient.BatchEntryMessage | src/client.ts:101-109 | the entry queued for a grouped state: `parentGroup` attached only when it is `''`; `SetClient.BatchEntryGroup` states it |
| SetClient.CreateStateGroup | src/client.ts:73-81 | `createState` sends a non-empty group and leaves out an empty or absent one |
| SetClient.BatchEntryGroup | src/client.ts:101-109 | a batch entry carries `parentGroup` only when it is `''`; a non-empty group is never sent |
| SetClient.EmptyGroupSentOnlyByIndexClient | src/client.ts:79-81 | for an empty group, the primary client sends `''` and this one sends nothing |
| SetClient.PlanCreateMany | src/client.ts:93-112 | the `states.forEach` of `createStateMany`: the set, the entries queued, and whether it threw; the lemmas below state all three |
| SetClient.PlanFailsOnUngrouped | src/client.ts:93-112 | `createStateMany` throws exactly when some first occurrence of an unregistered id has no group |
| SetClient.PlanRegistry | src/client.ts:93-112 | without a throw every id of the batch is registered; with one, the set lies between the old set and the old set plus the batch ids |
| SetClient.PlanAccepted | src/client.ts:93-112 | every entry sent had a group, was new to the set, and no id is sent twice |
| SetClient.PlanFirstOccurrences | src/client.ts:93-112 | without a throw, the entries queued are exactly the first entry of each id not in the set, in input order |
| SetClient.PlanQueuesNewIds | src/client.ts:93-112 | without a throw, the entries queued keep input order, cover exactly the new ids, and hold each once |
| SetClient.PlanRegistryOnThrow | src/client.ts:97-106 | when the first ungrouped new entry is entry `i`, the call throws and the set holds the old ids and the ids of entries 0 to `i` |
| SetClient.ConnectorUpdateMessage | src/client.ts:209-244 | the update fails exactly when the range test fails, with its error |
| SetClient.ConnectorUpdateFields | src/client.ts:226-243 | the value goes out as the parsed number, or NaN; the id is `shortId` or the long `connectorId` |
| SetClient.EffectiveId | src/client.ts:254-255 | the id passed on: `shortId` whenever it is present, even empty; `SetClient.ConnectorBatchContents` states what goes out |
| SetClient.ConnectorBatchContents | src/client.ts:253-264 | each update sent carries its entry's parsed value as a number (or NaN), its `shortId` whenever one is present, the empty one included, else the long connector id |
| SetClient.EmptyShortIdDiffers | src/client.ts:254-255 | an entry with `shortId: ''` goes out under the empty id here and under its own id in the primary client |
| SetClient.ActionDataCheck | src/client.ts:269-285 | the two checks of `updateActionData`: a falsy field fails first, then a type other than `number` |
| SetClient.ActionDataStricter | src/client.ts:269 | whatever action data this client accepts, the primary client accepts too |
| SetClient.ZeroMinimumRejected | src/client.ts:269 | a `minValue` of 0 is accepted by the primary client and rejected here as missing |
| SetClient.TouchPortalClient.constructor | src/client.ts:55-60 | empty registry, nothing written |
| SetClient.TouchPortalClient.Connect | src/client.ts:391-393 | the plugin id is set |
| SetClient.TouchPortalClient.Send | src/client.ts:328-330 | exactly one write: the encoding plus `"\n"` |
| SetClient.TouchPortalClient.SendArray | src/client.ts:311-326 | an empty list fails with no write; otherwise exactly one write of the whole batch |
| SetClient.TouchPortalClient.CreateState | src/client.ts:62-83 | an id in the set fails with no write and no change; otherwise the id is added and one write made |
| SetClient.TouchPortalClient.CreateStateMany | src/client.ts:85-115 | empty input fails; the set becomes the plan's; a TypeError writes nothing; otherwise the entries go out in one write |
| SetClient.TouchPortalClient.RemoveState | src/client.ts:117-132 | an id not in the set fails with no write; otherwise only that id is deleted and one message written |
| SetClient.TouchPortalClient.ChoiceUpdate | src/client.ts:134-140 | an empty value list fails with no write; otherwise one write |
| SetClient.TouchPortalClient.ChoiceUpdateSpecific | src/client.ts:142-162 | an empty list, then a falsy instance id, fail with no write; otherwise one write |
| SetClient.TouchPortalClient.SettingUpdate | src/client.ts:164-170 | one `settingUpdate` write |
| SetClient.TouchPortalClient.StateUpdate | src/client.ts:172-179 | one `stateUpdate` write |
| SetClient.TouchPortalClient.StateUpdateMany | src/client.ts:181-198 | empty input fails with no write; otherwise one write with one update per input, in order |
| SetClient.TouchPortalClient.BuildConnectorUpdate | src/client.ts:209-244 | the method builds the update the model's function describes, error included |
| SetClient.TouchPortalClient.ConnectorUpdate | src/client.ts:200-207 | an out-of-range value fails with no write; otherwise one write of the update |
| SetClient.TouchPortalClient.ConnectorUpdateMany | src/client.ts:246-266 | empty input fails; any out-of-range entry fails before any write; otherwise one write of all updates in order |
| SetClient.TouchPortalClient.UpdateActionData | src/client.ts:268-290 | a falsy field, then a type other than `number`, fail with no write; otherwise one write |
| SetClient.TouchPortalClient.SendNotification | src/client.ts:292-309 | missing or empty options fail with no write; otherwise one write |
| SetClient.TouchPortalClient.Pair | src/client.ts:332-338 | one `pair` write carrying the plugin id |
| LegacyClient.Route | src/client.js:140-170 | only an addressed `closePlugin` emits `Close` and exits with 9, and one for another plugin emits nothing; `info`, `listChange` and `action` each emit exactly `Info`, `ListChange` and `Action` with no held state; `Message` exactly for the types with no case; null throws |
| LegacyClient.HandleData | src/client.js:136-137 | the whole delivery is one decode: a text it rejects throws with no event, otherwise one message is routed |
| LegacyClient.RouteAgainstLineBased | src/client.js:140-170 | differs from the line-based routing only in the exit code, the Settings after Info, the held state, and the types it has no case for |
| LegacyClient.TouchPortalClient.constructor | src/client.js:7-13 | empty registry, nothing written |
| LegacyClient.TouchPortalClient.Connect | src/client.js:125-127 | the plugin id is set |
| LegacyClient.TouchPortalClient.Send | src/client.js:113-115 | exactly one write: the encoding plus `"\n"` |
| LegacyClient.TouchPortalClient.SendArray | src/client.js:93-111 | an empty list fails with no write; otherwise exactly one write of the whole batch |
| LegacyClient.TouchPortalClient.CreateState | src/client.js:15-29 | never changes the registry; with the registry as constructed it always succeeds with one write |
| LegacyClient.TouchPortalClient.ChoiceUpdate | src/client.js:31-40 | an empty value list fails with no write; otherwise one write |
| LegacyClient.TouchPortalClient.ChoiceUpdateSpecific | src/client.js:42-65 | an empty list, then a missing or empty instance id, fail with no write; otherwise one write |
| LegacyClient.TouchPortalClient.StateUpdate | src/client.js:67-69 | one `stateUpdate` write |
| LegacyClient.TouchPortalClient.StateUpdateMany | src/client.js:71-91 | empty input fails with no write; otherwise one write with one update per input, in order |
| LegacyClient.TouchPortalClient.Pair | src/client.js:117-123 | one `pair` write carrying the plugin id |

## Left out

- The socket transport is not modelled. This covers `net.Socket`, `connect`'s
  connection and its `pair` on connect, `setEncoding`, the `error` and `close`
  handlers, and `socket.end()`. A write is an append to `writes`.
- A write through the `null` socket before `connect` is not modelled. For
  `client.ts` and `client.js` that write would throw.
- `process.exit` is modelled only as the `Exited(code)` ending of a delivery.
- `checkForUpdate` is not modelled because it is HTTPS input and output around
  a foreign semantic-version comparison.
- Logging (`logIt`, `console.log`) is left out.
- `EventEmitter` listener fan-out is not modelled. Emitted events are a
  returned sequence.
- `JSON.parse` is a parameter, since its syntax is foreign to the client.
- Keys that `{}` inherits from `Object.prototype` are not modelled. With
  them, `customStates['constructor']` is truthy in `index.ts` and `client.js`.
- `connectorUpdateMany` in both TypeScript clients writes the chosen id back
  into the caller's connector object. The mutation is not modelled.
- A `null` or `undefined` plugin id and non-string arguments are not
  modelled. Their `toString` calls and template strings are not modelled
  either.
- Numbers are integers: floating point, `-0` and the rounding of `parseInt`
  beyond 2^53 are not modelled. Such a value is rejected either way, but the
  model's error carries the exact integer rather than the rounded number.
  Non-integer JSON numbers are not modelled.
- `connect()` without options is modelled for `index.ts` only, which defaults
  the plugin id to `UNK`. In `client.js` the default `{}` leaves the plugin
  id undefined, which falls under the line above on an undefined plugin id.
- `JSON.stringify`'s handling of lone surrogates is not modelled. Control
  characters are modelled: the short escapes, and `\u00` with two hex digits
  for the others.
- `JSON.stringify` writes the integer-like keys of an object first, in
  ascending order. `Json.Render` keeps the order of the member list. The
  client's own messages have no such keys; caller-supplied action data or
  notification options might.
- A JavaScript object holds each key once, while a `Json.Obj` member list
  may repeat a key. Reads take the last member, as a property read would,
  but `Json.Render` writes every member. This affects only caller-supplied
  action data and notification options given with repeated keys.
- IndexClient.TouchPortalClient.ChoiceUpdate: a string `value` is not
  modelled. `src/index.ts` declares the parameter as a string. With a string,
  the length test rejects only `''`, and the message carries the text itself.
  The model takes a list of strings and always sends an array, as the
  protocol, `src/client.ts` and `types/client.d.ts` have it.
- Dispatch.HandleData: like the source, it keeps no buffer across deliveries.
  A message split across two deliveries is therefore two malformed lines.
- LegacyClient.HandleData: what the foreign `JSON.parse` accepts is not
  modelled, so the model cannot show that a two-message payload is rejected.
  It states the outcome for each parse result.
- `types/client.d.ts`, `src/modules/types.ts` and `tests/test.js` hold no
  behaviour to model. The shapes in `types.ts` are used for the datatypes in
  `Shapes`.
