# TouchPortal-API in Dafny

A model of the core of the Python Touch Portal plugin API, with proofs of what it promises:

- **The runtime client** (`TouchPortalAPI/client.py`).
  - It cuts the received byte stream into newline-terminated JSON frames.
  - It keeps a bounded send queue behind a lock.
  - It does the protocol bookkeeping for each received message: held actions, auto-close, broadcast re-sends and event emission.
  - It caches the states and settings it has sent, so that an unchanged value is not sent again.
- **The definition-file validator and generator** (`TouchPortalAPI/sdk_tools.py`), driven by the SDK attribute tables of `TouchPortalAPI/sdk_spec.py`.
  - It checks attributes in order: missing, type, minimum SDK version, choices, then unique id.
  - It walks declarations recursively, and reports warnings and seen ids through two globals.
  - It fills in defaults, and rewrites `$[name]` / `$[n]` format tokens.
- **The reverse converter** (`TouchPortalAPI/TpToPy.py`): a decoded `entry.tp` is turned back into index-keyed Python dicts.
- **The legacy client** (`TouchPortal-API/TouchPortalAPI/__init__.py`) and the **legacy entry generator** (`TouchPortal-API/sdk/tpsdk-gentp.py`).

The modules, in dependency order:

| file | module | what it holds |
|---|---|---|
| outcomes.dfy | `Outcomes` | `Option`, `Result`, `Outcome` and the Python exceptions the code raises |
| pyvalue.dfy | `PyValue` | Decoded JSON values, and Python dicts as insertion-ordered association lists. It also has `==`, truthiness, `isinstance` and hashing |
| text.dfy | `Text` | `str(n)`, `int(s)`, the last dotted segment, `str.replace` |
| framing.dfy | `Framing` | Newline framing of a byte stream, and its split invariance |
| client.dfy, client_props.dfy | `RuntimeClient`, `ClientProperties` | The runtime client: class `Client` over a snapshot `S`, and its properties |
| sdk_spec.dfy | `SdkSpec` | The attribute tables and their well-formedness |
| sdk_tools.dfy, sdk_tools_props.dfy | `SdkTools`, `SdkToolsProperties` | The validator and generator: class `Tools` over the two globals, and its properties |
| tptopy.dfy, tptopy_props.dfy | `ReverseConversion`, `ReverseConversionProperties` | class `TpToPy` over its four struct dicts, and its properties |
| legacy_client.dfy, legacy_client_props.dfy | `LegacyClient`, `LegacyClientProperties` | The legacy client, and its properties |
| gentp.dfy, gentp_props.dfy | `LegacyGenerator`, `LegacyGeneratorProperties` | The legacy entry generator, and its properties |

Every class method that changes state is proved to act exactly as a step function on a snapshot of the object, for example `ensures (Snap(), o) == SendStep(encode, old(Snap()), data)`. Each loop carries the invariant `Spec(input, 0, init) == Spec(input, i, acc)`. The lemmas in the `*Properties` modules then state what those step functions promise.

## Model

| member | source | states |
|---|---|---|
| RuntimeClient.Client.constructor | TouchPortalAPI/client.py:117-160 | A new client is stopped, holds no lock, has empty buffers and caches, and no held actions |
| RuntimeClient.Client.EmitEvent | TouchPortalAPI/client.py:236-238 | The event is emitted under its name, then under `any` |
| RuntimeClient.Client.IsConnected | TouchPortalAPI/client.py:291-295 | True exactly while the client is not stopped: a new client answers False, `connect` makes it True (`ConnectPairs`), `disconnect` and closing make it False (`ConnectionGating`) |
| RuntimeClient.Client.IsActionBeingHeld | TouchPortalAPI/client.py:297-302 | True exactly when the action is in the held set: a `down` for it adds it (`DownHolds`), the matching `up` removes it (`UpReleases`) |
| RuntimeClient.Client.Close | TouchPortalAPI/client.py:252-274 | Closing sets the stop flag, releases the lock, clears the send buffer and drops the socket |
| RuntimeClient.Client.Die | TouchPortalAPI/client.py:276-280 | Dying emits `closePlugin` (and `any`), then closes |
| RuntimeClient.Client.GetWriteLock | TouchPortalAPI/client.py:282-289 | The lock is granted on a running client. On a stopped client it is refused and released. A lock already held is a deadlock: the client dies and raises RuntimeError |
| RuntimeClient.Client.Send | TouchPortalAPI/client.py:461-473 | The new state and outcome are those of `SendStep`: capacity check, then append of the encoding and a newline, then data-ready is set |
| ClientProperties.SendQueuesMessage | TouchPortalAPI/client.py:467-473 | A message of n entries that fits is appended as its encoding plus `\n`, data-ready is set and the lock is released |
| ClientProperties.SendFullRejects | TouchPortalAPI/client.py:468-470 | A message over capacity raises ResourceWarning and leaves the buffer unchanged and the lock free |
| ClientProperties.SendCapacityCountsEntries | TouchPortalAPI/client.py:468 | The capacity check counts the entries of the unserialized dict, not the bytes queued |
| ClientProperties.SendUnsizedWedgesLock | TouchPortalAPI/client.py:467-469 | `len` of an object without a length raises TypeError while the lock is held, so the next send deadlocks |
| ClientProperties.SendWhileStoppedDrops | TouchPortalAPI/client.py:282-286 | A stopped client drops a message silently |
| ClientProperties.QueuedMessageIsOneFrame | TouchPortalAPI/client.py:471 | If the send buffer ended on a frame boundary, framing it after a send yields one more frame: the encoding |
| ClientProperties.WireRoundTrip | TouchPortalAPI/client.py:471 | The peer cuts the wire form of successive sends back into the encoded messages, in order, however it is chunked |
| ClientProperties.WireIsJoin | TouchPortalAPI/client.py:471 | The wire form of a list of messages is their encodings joined with `\n` |
| RuntimeClient.Client.Write | TouchPortalAPI/client.py:183-197 | The new state and outcome are those of `WriteStep` |
| ClientProperties.WriteDropsAcceptedPrefix | TouchPortalAPI/client.py:186-197 | A write of n bytes drops exactly the first n bytes, clears data-ready exactly when the buffer empties, and releases the lock |
| ClientProperties.WriteErrorKeepsQueue | TouchPortalAPI/client.py:190-197 | A socket error is raised after the lock is released, and nothing is dropped |
| ClientProperties.WriteIdle | TouchPortalAPI/client.py:184 | With nothing to write, or no socket, nothing changes |
| RuntimeClient.Client.BufferedReadLine | TouchPortalAPI/client.py:162-181 | The new state and result are those of `ReadStep` |
| RuntimeClient.Client.AppendAndCut | TouchPortalAPI/client.py:171-177 | The loop returns `Frames(old buffer + chunk)` and leaves `Rest(old buffer + chunk)` buffered |
| ClientProperties.ReadEdgeCases | TouchPortalAPI/client.py:164-181 | A would-block read yields no frames and keeps the buffer. An empty read raises "Peer closed the connection.". A socket error is re-raised |
| ClientProperties.ReadLosesNothing | TouchPortalAPI/client.py:171-177 | The old buffer plus the chunk equals the returned frames, each with its `\n`, followed by the new buffer. No frame or tail holds a `\n` |
| Framing.FindLFFirst | TouchPortalAPI/client.py:174 | `find(b'\n')` gives -1 exactly when there is no newline, and otherwise the index of the first one |
| Framing.FramesStep | TouchPortalAPI/client.py:174-176 | One turn of the cutting loop: the first frame is the text before the first newline, and the rest is framed the same way |
| Framing.NoDelimiterLeft | TouchPortalAPI/client.py:174-176 | No frame and no buffered tail contains a newline |
| Framing.Reassemble | TouchPortalAPI/client.py:171-177 | The frames, each followed by `\n`, then the tail, are the buffer: nothing lost or reordered |
| Framing.SplitInvariance | TouchPortalAPI/client.py:171-177 | Framing `a + b` equals framing `a`, then framing what `a` left plus `b` |
| Framing.FramesOfJoin | TouchPortalAPI/client.py:171-177 | Newline-free frames joined with `\n`, plus a newline-free tail, frame back to exactly those frames and that tail |
| Framing.FeedAnySplit | TouchPortalAPI/client.py:171-177 | Feeding chunks one receive at a time yields the frames and the tail of their concatenation |
| Framing.FramingIdempotence | TouchPortalAPI/client.py:171-177 | A stream `f1\n f2\n ... partial`, delivered in any chunks, yields `f1, f2, ...` and leaves `partial` |
| RuntimeClient.Client.ProcessMessage | TouchPortalAPI/client.py:220-234 | The new state and outcome are those of `ProcessStep` on the decoded message |
| ClientProperties.IgnoredMessages | TouchPortalAPI/client.py:222-224 | A dict message with a missing or falsy type, or one naming another plugin, changes nothing and emits nothing |
| ClientProperties.ForeignPluginDropped | TouchPortalAPI/client.py:223-224 | With the id check on, a message naming another plugin changes nothing and emits nothing (derived from `IgnoredMessages`) |
| ClientProperties.ProcessHandled | TouchPortalAPI/client.py:225-234 | A handled message is bookkept first and announced after |
| ClientProperties.DownHolds | TouchPortalAPI/client.py:227-228 | After `down` for X, `isActionBeingHeld(X)` is true, and the type event and then `any` are emitted |
| ClientProperties.UpReleases | TouchPortalAPI/client.py:229-230 | After the matching `up`, X is no longer held |
| ClientProperties.UpUnheldRaises | TouchPortalAPI/client.py:229-230 | An `up` for an action that is not held raises KeyError before any event |
| ClientProperties.ClosePluginAutoCloses | TouchPortalAPI/client.py:225-226 | With auto-close, `closePlugin` stops the client and is still announced |
| ClientProperties.BroadcastKeepsCaches | TouchPortalAPI/client.py:231-233 | A broadcast keeps the caches and the held actions, whether or not it completes |
| ClientProperties.BroadcastResendsAll | TouchPortalAPI/client.py:231-233 | A broadcast that completes on a running client queues one `stateUpdate` per cached state, in cache order |
| ClientProperties.AcceptedMessageEmits | TouchPortalAPI/client.py:234-238 | An accepted message handled without error is emitted as its type and then as `any` |
| RuntimeClient.Client.Broadcast | TouchPortalAPI/client.py:231-233 | The loop acts as `BroadcastStep` over a snapshot of the cached states |
| RuntimeClient.Client.StateUpdateInternal | TouchPortalAPI/client.py:388-392 | The new state and outcome are those of `StateUpdateStep` |
| RuntimeClient.Client.StateUpdate | TouchPortalAPI/client.py:382-386 | `stateUpdate` is `StateUpdateStep` with `forced` false |
| ClientProperties.StateUpdateSendsOnChange | TouchPortalAPI/client.py:388-392 | With room in the queue, a state update is sent exactly when it is forced, new or changed, and the value is then cached |
| ClientProperties.StateUpdateEmptyId | TouchPortalAPI/client.py:389 | An empty state id changes nothing |
| RuntimeClient.Client.CreateState | TouchPortalAPI/client.py:304-313 | The new state and outcome are those of `CreateStateStep` |
| ClientProperties.CreateStateCases | TouchPortalAPI/client.py:308-313 | A new state sends createState and is cached, and other ids keep their values. An existing one becomes a state update. An empty id or description, or a None value, changes nothing |
| RuntimeClient.Client.RemoveState | TouchPortalAPI/client.py:329-339 | The new state and outcome are those of `RemoveStateStep` |
| ClientProperties.RemoveStateCases | TouchPortalAPI/client.py:335-339 | A cached state is removed and removeState is sent. An unknown id raises "… Does not exist." only when `validateExists` is on |
| RuntimeClient.Client.ChoiceUpdate | TouchPortalAPI/client.py:352-361 | The new state and outcome are those of `ChoiceUpdateStep` |
| ClientProperties.ChoiceUpdateNeedsList | TouchPortalAPI/client.py:357-361 | With an id given, values that are not a list raise TypeError and nothing is sent |
| RuntimeClient.Client.SettingUpdate | TouchPortalAPI/client.py:374-380 | The new state and outcome are those of `SettingUpdateStep`, which uses the corrected guard |
| ClientProperties.SettingUpdateSendsOnChange | TouchPortalAPI/client.py:378-380 | A setting update on a running client sends and caches exactly when the name is non-empty and new or changed. Otherwise the cache is unchanged, and other names always keep their values |
| RuntimeClient.SettingGuard | TouchPortalAPI/client.py:378 | The corrected guard sends exactly for a non-empty name that is not cached with this value. It agrees with the guard as written for every non-empty name |
| RuntimeClient.SettingGuardAsWritten | TouchPortalAPI/client.py:378 | The guard as written, where `and` binds tighter than `or` |
| ClientProperties.SettingGuardEmptyNameRaises | TouchPortalAPI/client.py:378 | The guard as written raises KeyError for an empty name that is not cached |
| RuntimeClient.Client.ConnectorUpdate | TouchPortalAPI/client.py:431-453 | The new state and outcome are those of `ConnectorUpdateStep` |
| ClientProperties.ConnectorOutOfRange | TouchPortalAPI/client.py:446-453 | A value outside 0..100 raises TypeError and nothing is sent |
| ClientProperties.ConnectorInRange | TouchPortalAPI/client.py:446-451 | A value in range is sent for `pc_<pluginId>_<id>_` as its decimal text |
| ClientProperties.ConnectorAcceptsBool | TouchPortalAPI/client.py:444 | `True` passes the int check and is sent as "True" |
| RuntimeClient.Client.Connect | TouchPortalAPI/client.py:475-489 | The new state and outcome are those of `ConnectStep` |
| RuntimeClient.Client.Disconnect | TouchPortalAPI/client.py:491-497 | The new state is that of `DisconnectStep` |
| ClientProperties.ConnectionGating | TouchPortalAPI/client.py:486-497 | `connect` on a running client and `disconnect` on a stopped one change nothing. `disconnect` stops a running client, empties its queue and leaves the lock free |
| ClientProperties.ConnectPairs | TouchPortalAPI/client.py:486-488 | Connecting a stopped client opens it and queues the `pair` message with the plugin id |
| RuntimeClient.GetActionDataValue | TouchPortalAPI/client.py:499-516 | Falsy data gives None. Non-list data raises. With a truthy id, the first item whose id matches gives its value. Otherwise the first item with a non-None value gives it |
| RuntimeClient.ActionDataById | TouchPortalAPI/client.py:515 | None when every item is passed over. A raise only for a non-dict reached first. A value is that of the first matching item |
| RuntimeClient.ActionDataByIdFirstStop | TouchPortalAPI/client.py:515 | The first item not passed over decides: a dict whose id matches gives its `value` (None when it has none), a non-dict raises AttributeError |
| RuntimeClient.ActionDataFirstValue | TouchPortalAPI/client.py:516 | None exactly when no item has a value. A raise only for a non-dict reached first. Otherwise the value of the first item that has one |
| RuntimeClient.ActionDataFirstValueFirstStop | TouchPortalAPI/client.py:516 | The first item not passed over decides: a dict with a non-None `value` gives it, a non-dict raises AttributeError |
| SdkSpec.RootSdkDefault | TouchPortalAPI/sdk_spec.py:40-174 | The default SDK version is 6. The root `sdk` defaults to it and lists it among its choices. `api` needs a later version than the default |
| SdkSpec.TableWellFormedRoot | TouchPortalAPI/sdk_spec.py:172-186 | Every default of the root table is among its choices, and only list or dict rows name a child table |
| SdkSpec.TableWellFormedAction | TouchPortalAPI/sdk_spec.py:120-140 | As above, for the action table: e.g. the type default "communicate" is a choice |
| SdkSpec.TableWellFormedSettings | TouchPortalAPI/sdk_spec.py:50-61 | As above, for the settings table |
| SdkSpec.TableWellFormedSettingsTooltip | TouchPortalAPI/sdk_spec.py:43-48 | As above, for the settings tooltip table |
| SdkSpec.TableWellFormedState | TouchPortalAPI/sdk_spec.py:64-72 | As above, for the state table |
| SdkSpec.TableWellFormedEvent | TouchPortalAPI/sdk_spec.py:75-84 | As above, for the event table |
| SdkSpec.TableWellFormedActData | TouchPortalAPI/sdk_spec.py:87-98 | As above, for the action data table |
| SdkSpec.TableWellFormedLineactSuggestion | TouchPortalAPI/sdk_spec.py:101-105 | As above, for the line action suggestion table |
| SdkSpec.TableWellFormedLineObj | TouchPortalAPI/sdk_spec.py:107-112 | As above, for the line object table |
| SdkSpec.TableWellFormedLine | TouchPortalAPI/sdk_spec.py:114-118 | As above, for the line table |
| SdkSpec.TableWellFormedConnector | TouchPortalAPI/sdk_spec.py:143-149 | As above, for the connector table |
| SdkSpec.TableWellFormedCategory | TouchPortalAPI/sdk_spec.py:152-162 | As above, for the category table |
| SdkSpec.TableWellFormedConfiguration | TouchPortalAPI/sdk_spec.py:165-170 | As above, for the configuration table |
| SdkSpec.RootRequiredKeys | TouchPortalAPI/sdk_spec.py:174-184 | A root attribute is required exactly when it is `sdk`, `api`, `version`, `name`, `id` or `categories` |
| SdkSpec.ConnectorRowsNeedVersion4 | TouchPortalAPI/sdk_spec.py:145-148 | Every connector attribute needs SDK 4 |
| SdkSpec.SettingsRowsNeedVersion3 | TouchPortalAPI/sdk_spec.py:52-60 | Every settings attribute needs SDK 3, except `tooltip`, which needs SDK 7 |
| SdkTools.KeyPath | TouchPortalAPI/sdk_tools.py:166-167 | `_keyPath` joins the non-empty parts with `:` |
| SdkTools.Tools.constructor | TouchPortalAPI/sdk_tools.py:118-119 | The globals start empty, over the SDK's tables |
| SdkTools.Tools.Clear | TouchPortalAPI/sdk_tools.py:129-155 | Clearing empties the messages and the seen ids |
| SdkTools.Tools.AddMessage | TouchPortalAPI/sdk_tools.py:140-142 | A message is appended |
| SdkTools.Tools.ValidateAttribValue | TouchPortalAPI/sdk_tools.py:358-392 | The new globals and the answer are those of `ValidateAttrib` |
| SdkToolsProperties.AttribMissing | TouchPortalAPI/sdk_tools.py:373-376 | None is never valid, and is reported once exactly when the attribute is required |
| SdkToolsProperties.AttribAccepted | TouchPortalAPI/sdk_tools.py:373-392 | A value is accepted exactly when it is present, of a listed type, new enough, among the choices, and not a repeated id |
| SdkToolsProperties.AttribFirstFailure | TouchPortalAPI/sdk_tools.py:377-385 | The first failing check decides: wrong type, then too-old SDK, then value not a choice. Each gives exactly one warning |
| SdkToolsProperties.AttribIdFirstAndRepeated | TouchPortalAPI/sdk_tools.py:386-391 | An id that passes the other checks is recorded with its key path and accepted. Checked again, it is rejected with one not-unique warning, and the seen ids are unchanged |
| SdkToolsProperties.DuplicateIdReported | TouchPortalAPI/sdk_tools.py:386-391 | A second declaration of an id is reported as not unique, naming the first path |
| SdkToolsProperties.AttribKeeps | TouchPortalAPI/sdk_tools.py:358-392 | One attribute check adds at most one warning and keeps the seen ids distinct |
| SdkTools.Tools.ValidateDefinitionDict | TouchPortalAPI/sdk_tools.py:394-410 | The new globals and outcome are those of `ValidateDict` |
| SdkTools.Tools.ValidateDictEntry | TouchPortalAPI/sdk_tools.py:396-406 | One turn of the first loop acts as `ValidateEntry` |
| SdkTools.Tools.AddMissingRequired | TouchPortalAPI/sdk_tools.py:408-410 | The second loop appends exactly `MissingUpTo` over the whole table |
| SdkTools.Tools.ValidateDefinitionArray | TouchPortalAPI/sdk_tools.py:412-419 | The new globals and outcome are those of `ValidateArray` |
| SdkToolsProperties.DictKeeps | TouchPortalAPI/sdk_tools.py:394-410 | The dict walk only appends warnings and seen ids, and keeps the seen ids distinct |
| SdkToolsProperties.ArrayKeeps | TouchPortalAPI/sdk_tools.py:412-419 | The array walk only appends warnings and seen ids, and keeps the seen ids distinct |
| SdkToolsProperties.MissingUpToSpec | TouchPortalAPI/sdk_tools.py:408-410 | The required-attribute pass reports exactly the required rows missing from the dict, in table order |
| SdkToolsProperties.MissingRequiredReported | TouchPortalAPI/sdk_tools.py:408-410 | Every required attribute missing from a dict is reported |
| SdkToolsProperties.UnknownKeyReported | TouchPortalAPI/sdk_tools.py:396-401 | Every attribute the table does not know is reported as unknown |
| SdkToolsProperties.BadMemberReported | TouchPortalAPI/sdk_tools.py:414-418 | Every array member that is not a dict is reported |
| SdkTools.Tools.ValidateDefinitionObject | TouchPortalAPI/sdk_tools.py:422-433 | Clears the globals, validates against the root table with the declared or default SDK, and answers whether no warning was produced. With the shipped tables it never answers True (`ShippedTablesNeverAccept`): root `sdk` is required with choices 1 to 6, while the required `api` attribute needs SDK 7 (TouchPortalAPI/sdk_spec.py:174-175) |
| SdkToolsProperties.AcceptedDefinitionComplete | TouchPortalAPI/sdk_tools.py:422-433 | A definition is accepted only if it is a dict that has every required root attribute and no attribute the root table does not know |
| SdkToolsProperties.RejectedAttribReported | TouchPortalAPI/sdk_tools.py:396-404 | Every attribute other than `id` whose value fails its check (a missing value only when required) adds a warning, unless the walk raises |
| SdkToolsProperties.AcceptedRootEntries | TouchPortalAPI/sdk_tools.py:422-433 | An accepted definition has an `sdk` entry, the one read as the target SDK, and an `api` entry |
| SdkToolsProperties.RootSdkApiClash | TouchPortalAPI/sdk_spec.py:174-175 | A target SDK of 7 or more is not among the root `sdk` choices, and any other target is too old for the root `api` attribute |
| SdkToolsProperties.ShippedTablesNeverAccept | TouchPortalAPI/sdk_tools.py:422-433 | With the shipped tables no definition is ever accepted |
| SdkTools.Tools.BuildDict | TouchPortalAPI/sdk_tools.py:171-186 | The new globals and result are those of `DictFromItem` |
| SdkTools.Tools.BuildRows | TouchPortalAPI/sdk_tools.py:175-185 | The row loop acts as `ItemRows` |
| SdkTools.Tools.BuildRow | TouchPortalAPI/sdk_tools.py:176-185 | One row acts as `ItemRow`: explicit value or default, a nested array built, then kept or skipped |
| SdkToolsProperties.DictFromItemEntries | TouchPortalAPI/sdk_tools.py:171-186 | The generated dict holds only attributes its table knows, never None. With skip-invalid it holds only values of the attribute's type |
| SdkToolsProperties.ItemRowShape | TouchPortalAPI/sdk_tools.py:176-185 | A row either leaves the dict alone or stores something under its own name |
| SdkToolsProperties.ItemRowValue | TouchPortalAPI/sdk_tools.py:176-185 | One row stores its value (explicit, else default) when it is kept: always when it is not None without skip-invalid; for a row other than `id`, exactly when it validates (present, of a listed type, for a new enough SDK, among the choices) with skip-invalid. Otherwise the dict keeps what it had under that name |
| SdkToolsProperties.ItemRowsValue | TouchPortalAPI/sdk_tools.py:175-186 | The loop over the rows from `i` on leaves row j's value under its name exactly as that one row decides, when no other row has the name: the other rows do not disturb it |
| SdkToolsProperties.DictFromItemKeepsValue | TouchPortalAPI/sdk_tools.py:175-186 | Without skip-invalid, the generated dict holds the explicit value of row j, or its default, whenever that is not None and needs no nesting, when no other row has the same name |
| SdkToolsProperties.KeepEntries | TouchPortalAPI/sdk_tools.py:184-185 | A kept entry is the row's own key and value. Without skip-invalid a non-None value is always stored. With skip-invalid the value is stored exactly when `validateAttribValue` accepts it, and otherwise the dict is unchanged |
| SdkToolsProperties.DictFromItemSkipsInvalid | TouchPortalAPI/sdk_tools.py:171-186 | With skip-invalid, the generated dict holds attribute j (not `id`, name not shared, value needing no nesting) with its explicit or default value exactly when that value validates, and lacks it otherwise |
| SdkTools.Tools.BuildArray | TouchPortalAPI/sdk_tools.py:189-198 | The new globals and result are those of `ArrayFromDict`: `[]` for a non-dict, else one generated dict per item taken, in dict order, with format tokens replaced for `actions` and `connectors` (`ArrayFromDictItems`) |
| SdkToolsProperties.ArrayFromDictItems | TouchPortalAPI/sdk_tools.py:189-198 | A non-dict gives `[]`. A dict gives one generated dict per item it takes, in dict order: all items without a category filter, otherwise the dict items naming no category or the asked one. The `actions` and `connectors` arrays hold each such dict after `_replaceFormatTokens`; other arrays hold it unchanged |
| SdkToolsProperties.SelectedTakes | TouchPortalAPI/sdk_tools.py:194 | The category test raises exactly for a non-dict item under a category filter; otherwise it takes the item exactly as `Takes` says |
| SdkToolsProperties.ArrayEntriesLength | TouchPortalAPI/sdk_tools.py:193-195 | The item loop appends exactly one dict per item it takes and keeps what was already in the list |
| SdkToolsProperties.ArrayEntriesPicked | TouchPortalAPI/sdk_tools.py:193-195 | The m-th dict the item loop appends is the one `_dictFromItem` builds for the m-th item it takes, under the path `path[key]` |
| SdkToolsProperties.FormatItemsEach | TouchPortalAPI/sdk_tools.py:201-227 | `_replaceFormatTokens` keeps the number and order of the elements, and the m-th result is the m-th element rewritten on its own |
| SdkTools.Tools.SelectItems | TouchPortalAPI/sdk_tools.py:193-195 | The item loop acts as `ArrayEntries` |
| SdkTools.Tools.BuildArrayEntry | TouchPortalAPI/sdk_tools.py:194-195 | One item acts as `ArrayEntry`: items of another category are skipped |
| SdkTools.Tools.ReplaceFormatTokens | TouchPortalAPI/sdk_tools.py:201-227 | The new messages and the rewritten items are those of `FormatItems`, whose formats are rewritten as `RewriteTokenFormat` states |
| SdkTools.Tools.FormatElement | TouchPortalAPI/sdk_tools.py:202-227 | One element acts as `FormatItem` |
| SdkTools.Tools.CollectDataIds | TouchPortalAPI/sdk_tools.py:205-208 | The `data_ids` loop gives `DataIds` |
| SdkTools.Tools.RewriteFormat | TouchPortalAPI/sdk_tools.py:211-227 | The `while` loop gives the text and warnings of `Rewrite`: each resolved token replaced by its id, the others kept, with one warning each in order (`RewriteFills`) |
| SdkTools.Tools.RewriteNext | TouchPortalAPI/sdk_tools.py:214-226 | One iteration keeps what `Rewrite` computes and shortens what is left to scan |
| SdkTools.Tools.ReplaceToken | TouchPortalAPI/sdk_tools.py:225-226 | Replacing a resolved token keeps what `Rewrite` computes and resumes after the inserted text |
| SdkTools.FindToken | TouchPortalAPI/sdk_tools.py:212-214 | `rx.search(fmt, begin)`: a match found starts at or after `begin`, is at least four characters long and ends within the text |
| SdkToolsProperties.TokenAtShape | TouchPortalAPI/sdk_tools.py:212 | A match reads `$[`, a non-empty run of word characters, `]` |
| SdkToolsProperties.FindTokenLeftmost | TouchPortalAPI/sdk_tools.py:214 | The search finds the leftmost token at or after `begin`, and finds none only when there is none |
| SdkToolsProperties.ResolveByName | TouchPortalAPI/sdk_tools.py:216-217 | A token naming a data id's last dotted segment resolves to that id |
| SdkToolsProperties.ResolveByPosition | TouchPortalAPI/sdk_tools.py:218-219 | A decimal token n that names no id resolves to the n-th data id, counting from 1 |
| SdkToolsProperties.DataIdsKeyed | TouchPortalAPI/sdk_tools.py:205-208 | `data_ids` keys each id by its last dotted segment, once per key |
| SdkToolsProperties.DataIdsCover | TouchPortalAPI/sdk_tools.py:206-208 | Every non-empty string id among the data is keyed by its last dotted segment |
| SdkToolsProperties.DataIdTokenResolves | TouchPortalAPI/sdk_tools.py:205-219 | A token naming a data id's last segment always resolves |
| SdkToolsProperties.RewriteWarnings | TouchPortalAPI/sdk_tools.py:220-223 | Every rewrite warning names the element and a token that is a token name and resolves to nothing |
| SdkToolsProperties.RewriteKeepsPrefix | TouchPortalAPI/sdk_tools.py:214-226 | The rewrite leaves the text before `begin` unchanged |
| SdkToolsProperties.RewriteNothingResolves | TouchPortalAPI/sdk_tools.py:214-223 | When no token resolves, the text is left as it was |
| SdkToolsProperties.TokenFound | TouchPortalAPI/sdk_tools.py:212-214 | A search started at a word without `$` that is followed by a token finds exactly that token, spanning `$[`, the name and `]` |
| SdkToolsProperties.RewriteFills | TouchPortalAPI/sdk_tools.py:211-227 | A format of `$`-free words around tokens, after any untouched prefix, is rewritten with `{$id$}` for each token that resolves (by name or position), the token itself for each that does not, and exactly one warning per unresolved token, in order |
| SdkToolsProperties.RewriteTokenFormat | TouchPortalAPI/sdk_tools.py:211-227 | The same, for a whole format rewritten from its start |
| SdkTools.Tools.GenerateDefinitionFromDeclaration | TouchPortalAPI/sdk_tools.py:302-353 | The new globals and entry are those of `GenerateDefinition` |
| SdkTools.Tools.AddCategories | TouchPortalAPI/sdk_tools.py:338-347 | The category loop acts as `CategoriesFrom` |
| SdkTools.Tools.BuildCategory | TouchPortalAPI/sdk_tools.py:339-345 | One category acts as `CategoryOf` |
| SdkTools.Tools.AddCategoryArrays | TouchPortalAPI/sdk_tools.py:341-343 | The actions, states and events arrays act as `CategoryArrays` |
| SdkTools.Tools.AddConnectors | TouchPortalAPI/sdk_tools.py:344-345 | The connectors step acts as `CategoryConnectors` |
| SdkTools.Tools.AddRootSettings | TouchPortalAPI/sdk_tools.py:350-351 | The settings step acts as `AddSettings` |
| SdkToolsProperties.CategoryArraysKeepKeys | TouchPortalAPI/sdk_tools.py:341-343 | The category arrays keep every key the category dict already had |
| SdkToolsProperties.CategoryArraysKeys | TouchPortalAPI/sdk_tools.py:341-343 | The category arrays add one key per array: `actions`, `states` and `events` |
| SdkToolsProperties.CategoryOfArrays | TouchPortalAPI/sdk_tools.py:340-345 | Every generated category has `actions`, `states` and `events`, and `connectors` from SDK 4 on |
| SdkToolsProperties.ConnectorsOnlyFromSdk4 | TouchPortalAPI/sdk_tools.py:344-345 | Below SDK 4 no connectors are generated |
| SdkToolsProperties.SettingsOnlyFromSdk3 | TouchPortalAPI/sdk_tools.py:350-351 | Below SDK 3 no settings are generated |
| SdkToolsProperties.CategoriesAppended | TouchPortalAPI/sdk_tools.py:338-347 | The category loop appends one category dict per declared category |
| Text.ParseNatToString | TouchPortalAPI/sdk_tools.py:218 | `int(str(n)) == n` |
| Text.NatToStringInjective | TouchPortalAPI/client.py:450 | Different numbers print differently |
| Text.LastSegmentOfDotted | TouchPortalAPI/sdk_tools.py:208 | The last segment of a dotted name is the part after its last dot |
| Text.ReplaceAbsent | TouchPortalAPI/TpToPy.py:65 | Replacing a string that does not occur changes nothing |
| Text.ReplaceLeading | TouchPortalAPI/TpToPy.py:65 | Text that starts with the replaced string gets its replacement in front |
| PyValue.LookupSpec | TouchPortalAPI/sdk_tools.py:177 | A lookup fails exactly for absent keys, and finds an entry of the dict |
| PyValue.PutSpec | TouchPortalAPI/sdk_tools.py:185 | After `d[k] = v`, k maps to v and every other key keeps its value |
| PyValue.PutKeys | TouchPortalAPI/sdk_tools.py:185 | Assigning to an existing key keeps the key order. A new key goes last |
| PyValue.DeleteSpec | TouchPortalAPI/client.py:337 | After removal, the key is gone and every other key keeps its value |
| PyValue.PyEqRefl | TouchPortalAPI/client.py:390 | Every value equals itself under Python's `==`, so re-sending an unchanged cached value is skipped |
| PyValue.PyEqExamples | TouchPortalAPI/client.py:390 | `==` ignores dict order, compares lists element by element with `1 == 1.0 == True`, and tells lists of different length apart |
| PyValue.HashKeyIsEquality | TouchPortalAPI/client.py:228 | Two hashable values are the same dict key exactly when Python's `==` holds |
| PyValue.BoolIsInt | TouchPortalAPI/sdk_tools.py:377 | `isinstance(True, int)` holds |
| ReverseConversion.TpToPy.constructor | TouchPortalAPI/TpToPy.py:33-39 | The four struct dicts start empty |
| ReverseConversion.TpToPy.KeyByIndex | TouchPortalAPI/TpToPy.py:53-54 | The loop keys the items by consecutive integers from `base` |
| ReverseConversion.TpToPy.ConvertData | TouchPortalAPI/TpToPy.py:47-55 | The result is `ConvertedData` |
| ReverseConversionProperties.ConvertedDataSpec | TouchPortalAPI/TpToPy.py:51-55 | A list is keyed by 0-based index with the same items and no other keys. A non-list gives `{}` |
| ReverseConversionProperties.IndexKeyedLookup | TouchPortalAPI/TpToPy.py:53-54 | Item j is found under key `base + j` |
| ReverseConversion.TpToPy.ConvertFormat | TouchPortalAPI/TpToPy.py:57-67 | The result is `ConvertedFormat`, which turns each `{$id$}` into its item's `$[j+1]` (`ConvertedFormatFills`) |
| ReverseConversionProperties.ConvertedFormatUnchanged | TouchPortalAPI/TpToPy.py:62-67 | A format that mentions no data id is left unchanged |
| ReverseConversionProperties.ConvertedFormatReplaces | TouchPortalAPI/TpToPy.py:62-67 | For any data: when the placeholder `{$x$}` of item k occurs once in the format and no other data id occurs in it, the result is the format with that placeholder replaced by `$[k+1]` and everything around it kept |
| ReverseConversionProperties.FormatFromSkips | TouchPortalAPI/TpToPy.py:63-64 | Items whose id does not occur in the format leave the text alone |
| Text.ReplaceOnce | TouchPortalAPI/TpToPy.py:65 | `str.replace` of a string that occurs exactly once replaces it there and keeps the text on both sides |
| ReverseConversionProperties.ConvertedFormatFills | TouchPortalAPI/TpToPy.py:57-67 | A format of text pieces with the placeholders `{$id$}` of any data items between them, in any order and any number of times, becomes the same text with each placeholder replaced by `$[j+1]` for its item j. The ids are distinct strings without `$`, `{` or `[`, and the text holds no `{$` |
| ReverseConversionProperties.ConvertedFormatTwoIds | TouchPortalAPI/TpToPy.py:57-67 | `"Set {$a$} to {$b$}"` with data ids `a` and `b` becomes `"Set $[1] to $[2]"` |
| ReverseConversionProperties.FormatFromFilled | TouchPortalAPI/TpToPy.py:63-65 | The loop from item i on turns the format with items before i handled into the format with every item handled |
| ReverseConversionProperties.ReplaceInFilled | TouchPortalAPI/TpToPy.py:65 | Replacing item i's placeholder by `$[i+1]` changes exactly the holes of item i, and no other text |
| ReverseConversionProperties.FilledHasId | TouchPortalAPI/TpToPy.py:64 | The id of every item with a placeholder occurs in the format, so the `in` test lets its replacement through |
| ReverseConversionProperties.FilledNoHole | TouchPortalAPI/TpToPy.py:63-65 | An item without a placeholder leaves the format as it is |
| Text.ReplaceConcat | TouchPortalAPI/TpToPy.py:65 | `str.replace` on `a + b` is the replacement of `a` followed by that of `b` when no occurrence crosses from `a` into `b` |
| ReverseConversion.TpToPy.GenerateInfo | TouchPortalAPI/TpToPy.py:69-81 | The result is `GeneratedInfo` |
| ReverseConversionProperties.GeneratedInfoExact | TouchPortalAPI/TpToPy.py:74-81 | Exactly the whitelisted keys of the entry are copied, with their values |
| ReverseConversion.TpToPy.GenerateSettings | TouchPortalAPI/TpToPy.py:83-97 | The result is `GeneratedSettings` |
| ReverseConversionProperties.GeneratedSettingsSpec | TouchPortalAPI/TpToPy.py:88-97 | The settings list is keyed from 1. Falsy settings give `{}` |
| ReverseConversion.TpToPy.GenerateStates | TouchPortalAPI/TpToPy.py:99-112 | `structState` becomes `TaggedStep` with step 1, and the other structs are unchanged |
| ReverseConversionProperties.StatesPlaced | TouchPortalAPI/TpToPy.py:104-110 | State j is stored at key `len + j`, tagged with the category. Other keys keep their values |
| ReverseConversion.TpToPy.GenerateEvents | TouchPortalAPI/TpToPy.py:133-144 | Corrected: `structEvent` becomes `TaggedStep` with step 1 |
| ReverseConversion.EventsAsWritten | TouchPortalAPI/TpToPy.py:138-144 | As written: the loop of `TaggedStep` with step 0 |
| ReverseConversionProperties.EventsAsWrittenLastWins | TouchPortalAPI/TpToPy.py:138-144 | As written, only key `len` is written, and it holds the last event |
| ReverseConversionProperties.EventsAsWrittenDropsFirst | TouchPortalAPI/TpToPy.py:138-144 | With two events, as written only the second is kept. Corrected, both are |
| ReverseConversion.TpToPy.ConvertFormatAndData | TouchPortalAPI/TpToPy.py:125-128 | The format step, then the data step, with the format step's error |
| ReverseConversion.TpToPy.GenerateActions | TouchPortalAPI/TpToPy.py:115-131 | `structAction` becomes `ActionsStep`, and the other structs are unchanged |
| ReverseConversionProperties.ConvertedActionSpec | TouchPortalAPI/TpToPy.py:125-129 | A converted action has the category set, the format rewritten against the original data, the data keyed by index, and every other key unchanged |
| ReverseConversionProperties.ActionsPlaced | TouchPortalAPI/TpToPy.py:120-129 | Action j is stored, converted, at key `len + 1 + j`. Other keys keep their values |
| ReverseConversion.TpToPy.GenerateConnectors | TouchPortalAPI/TpToPy.py:146-161 | Corrected: `structConnector` becomes `ConnectorsStep` with step 1 |
| ReverseConversion.ConnectorsAsWritten | TouchPortalAPI/TpToPy.py:151-161 | As written: the loop of `ConnectorsStep` with step 0 |
| ReverseConversionProperties.ConnectorsAsWrittenLastWins | TouchPortalAPI/TpToPy.py:151-161 | As written, only key `len` is written, and it holds the last connector |
| ReverseConversionProperties.ConnectorsPlaced | TouchPortalAPI/TpToPy.py:153-159 | Corrected: connector j is stored, converted, at key `len + j`. Other keys keep their values |
| ReverseConversion.TpToPy.Run | TouchPortalAPI/TpToPy.py:180-185 | The array is handed to its generator, as `RunTodo`. Events and connectors go to the corrected generators, which keep one entry per item (see Findings; the code as written keeps only the last one per call) |
| ReverseConversion.TpToPy.GenerateArrays | TouchPortalAPI/TpToPy.py:183-185 | Each non-empty list array of the category is generated, in `todoList` order. Events and connectors use the corrected loops, one entry per item (see Findings) |
| ReverseConversion.TpToPy.GenerateCategories | TouchPortalAPI/TpToPy.py:163-187 | The new structs and result are those of `GeneratedCategories`, whose events and connectors come from the corrected loops, one entry per item (see Findings) |
| ReverseConversionProperties.CategoriesFromKeys | TouchPortalAPI/TpToPy.py:172-178 | The category loop only adds keys: the ones already there, and those of the categories it visits |
| ReverseConversionProperties.CategoriesKeyedByLastSegment | TouchPortalAPI/TpToPy.py:172-178 | Every category is keyed by the last dotted segment of its id, and no other key appears |
| LegacyClient.Client.constructor | TouchPortal-API/TouchPortalAPI/__init__.py:24-32 | The caches and the held actions start empty, with nothing sent |
| LegacyClient.Client.ReadLine | TouchPortal-API/TouchPortalAPI/__init__.py:34-42 | The byte-by-byte loop gives the line and remaining input of `ReadLineStep` |
| LegacyClient.ReadLineStep | TouchPortal-API/TouchPortalAPI/__init__.py:34-42 | A line is the input before its first newline, and that newline is consumed. Without a newline there is no line and all input is consumed |
| LegacyClient.ReadLineUnique | TouchPortal-API/TouchPortalAPI/__init__.py:34-42 | Input `line + \n + rest` with no newline in `line` reads `line` and leaves `rest` |
| LegacyClientProperties.ReadBackSent | TouchPortal-API/TouchPortalAPI/__init__.py:34-42 | What the reader takes off a line written by `send` is the message's encoding |
| LegacyClient.Client.OnReceive | TouchPortal-API/TouchPortalAPI/__init__.py:59-68 | The new state and outcome are those of `OnReceiveStep` |
| LegacyClient.Client.HeldUpdate | TouchPortal-API/TouchPortalAPI/__init__.py:61-67 | The held actions and outcome are those of `HeldStep` |
| LegacyClientProperties.OnReceiveHeld | TouchPortal-API/TouchPortalAPI/__init__.py:61-67 | A press adds the action, a release removes it, and anything else leaves it |
| LegacyClientProperties.HeldFollowsLastPress | TouchPortal-API/TouchPortalAPI/__init__.py:61-67 | After a run of messages, an action is held exactly when its last press or release was a press, or it had none and was held before |
| LegacyClientProperties.PressThenQuery | TouchPortal-API/TouchPortalAPI/__init__.py:61-78 | `isActionBeingHeld` is true after `down` and false after `up`. Other actions are unaffected. The message is emitted under its type |
| LegacyClientProperties.OnReceiveErrors | TouchPortal-API/TouchPortalAPI/__init__.py:62-68 | A message without a type raises KeyError and emits nothing. A non-dict raises TypeError |
| LegacyClient.Client.IsActionBeingHeld | TouchPortal-API/TouchPortalAPI/__init__.py:74-78 | The answer is `HeldQuery` of the held actions |
| LegacyClient.Client.Send | TouchPortal-API/TouchPortalAPI/__init__.py:131-135 | The encoding and a newline are written, and the message is recorded as sent |
| LegacyClientProperties.SendKeepsFramed | TouchPortal-API/TouchPortalAPI/__init__.py:131-135 | `send` keeps the wire equal to the sent messages' encodings, one per line |
| LegacyClientProperties.WireFramesAreMessages | TouchPortal-API/TouchPortalAPI/__init__.py:131-135 | Cutting the wire at newlines gives back the sent messages' encodings, with nothing left over |
| LegacyClient.Client.StateUpdate | TouchPortal-API/TouchPortalAPI/__init__.py:112-115 | The new state is that of `StateUpdateStep` |
| LegacyClientProperties.StateUpdateSpec | TouchPortal-API/TouchPortalAPI/__init__.py:112-115 | stateUpdate is sent exactly when the id is new or its value changed. The value ends up cached, and other ids keep theirs |
| LegacyClientProperties.StateUpdateIdempotent | TouchPortal-API/TouchPortalAPI/__init__.py:112-115 | A second identical `stateUpdate` changes nothing |
| LegacyClient.Client.CreateState | TouchPortal-API/TouchPortalAPI/__init__.py:80-86 | The new state is that of `CreateStateStep` |
| LegacyClientProperties.CreateStateSpec | TouchPortal-API/TouchPortalAPI/__init__.py:80-86 | An empty id, description or value does nothing. Otherwise the value is cached, other ids keep theirs, and a new id sends createState. A known id defers to `stateUpdate`: it sends one stateUpdate exactly when the cached value differs |
| LegacyClient.Client.RemoveState | TouchPortal-API/TouchPortalAPI/__init__.py:88-93 | The new state and outcome are those of `RemoveStateStep` |
| LegacyClientProperties.RemoveStateSpec | TouchPortal-API/TouchPortalAPI/__init__.py:88-93 | Removal succeeds exactly for a cached id, which is sent, dropped and no other id touched. Otherwise it raises and nothing changes |
| LegacyClientProperties.CreateThenRemove | TouchPortal-API/TouchPortalAPI/__init__.py:80-93 | A state just created can be removed |
| LegacyClient.Client.ChoiceUpdate | TouchPortal-API/TouchPortalAPI/__init__.py:95-99 | The new state and outcome are those of `ChoiceUpdateStep` without an instance id |
| LegacyClient.Client.ChoiceUpdateSpecific | TouchPortal-API/TouchPortalAPI/__init__.py:101-105 | The new state and outcome are those of `ChoiceUpdateStep` with the instance id |
| LegacyClientProperties.ChoiceUpdateSpec | TouchPortal-API/TouchPortalAPI/__init__.py:95-105 | Raises exactly when the values are not a list, changing nothing. Otherwise sends exactly one choiceUpdate with the id, the instance id when given, and the values, and keeps the state and setting caches and the held set |
| LegacyClient.Client.SettingUpdate | TouchPortal-API/TouchPortalAPI/__init__.py:107-110 | The new state is that of `SettingUpdateStep` |
| LegacyClientProperties.SettingUpdateSpec | TouchPortal-API/TouchPortalAPI/__init__.py:107-110 | settingUpdate is sent exactly when the name is new or its value changed. The value ends up cached, and other names keep theirs |
| LegacyClientProperties.SettingUpdateIdempotent | TouchPortal-API/TouchPortalAPI/__init__.py:107-110 | A second identical `settingUpdate` changes nothing |
| LegacyGenerator.FilterItem | TouchPortal-API/sdk/tpsdk-gentp.py:34-39 | The loop gives `DictFromItem` |
| LegacyGeneratorProperties.DictFromItemSpec | TouchPortal-API/sdk/tpsdk-gentp.py:34-39 | A key is in the result exactly when it is requested and the item has it with a non-None value, and then with that value. The keys are a subset of those requested. A non-dict raises AttributeError |
| LegacyGenerator.FilterArray | TouchPortal-API/sdk/tpsdk-gentp.py:42-46 | The loop gives `ArrayFromDict` |
| LegacyGeneratorProperties.ArrayFromDictSpec | TouchPortal-API/sdk/tpsdk-gentp.py:42-46 | One filtered dict per value of the dict, in order. A non-dict argument or value raises |
| LegacyGenerator.BuildAction | TouchPortal-API/sdk/tpsdk-gentp.py:96-102 | The attribute loop gives `Action` |
| LegacyGenerator.BuildActions | TouchPortal-API/sdk/tpsdk-gentp.py:94-102 | The action loop gives `Actions` |
| LegacyGeneratorProperties.ActionSpec | TouchPortal-API/sdk/tpsdk-gentp.py:96-102 | An action holds its data filtered to the data whitelist, and its whitelisted attributes unchanged, and nothing else |
| LegacyGenerator.Generate | TouchPortal-API/sdk/tpsdk-gentp.py:86-112 | The entry is `GeneratedEntry` of the declarations |
| LegacyGenerator.BuildEntry | TouchPortal-API/sdk/tpsdk-gentp.py:89-112 | The entry after its info is `EntryFrom` |
| LegacyGenerator.AddCategory | TouchPortal-API/sdk/tpsdk-gentp.py:94-112 | The entry after its settings is `CategoryAdded` |
| LegacyGenerator.BuildCategory | TouchPortal-API/sdk/tpsdk-gentp.py:94-105 | The category's arrays are `CategoryArrays` |
| LegacyGenerator.Complete | TouchPortal-API/sdk/tpsdk-gentp.py:107-112 | The connectors and the category are added as `Completed` says |
| LegacyGeneratorProperties.CompletedSpec | TouchPortal-API/sdk/tpsdk-gentp.py:107-112 | The entry has one category. It gets filtered connectors exactly when sdk > 3, and otherwise keeps what it had |
| LegacyGeneratorProperties.GeneratedEntrySpec | TouchPortal-API/sdk/tpsdk-gentp.py:86-112 | The entry has exactly one category. Besides `settings` and `categories` it has only whitelisted info keys |

## Left out

- SdkToolsProperties.RewriteFills: formats holding a `$` outside a token, or a `$[` that is not a complete token, are not covered; there the search may start a match anywhere in the stray text.
- ReverseConversionProperties.ConvertedFormatFills: ids holding `$`, `{` or `[`, two items with the same id, and text holding `{$` are not covered. There a replacement can create, split or pre-empt a placeholder, and the result depends on the text character by character.
- PyValue.PyEqRefl: floats are exact reals, with no NaN, infinity or rounding. So the state and setting caches always treat an equal value as unchanged, while in Python a NaN never equals itself and is sent again on every update (client.py:390, `__init__.py`:107-115).
- Sockets, the selector, the event loop and threads (`__open`, `__run`, and the executor behind `emit`) are not modelled. A receive or a socket write is a value handed to the method. The lock and the stop and data-ready events are booleans, with no timeouts. Handler dispatch is a sequence of emitted events.
- JSON encoding is a function `encode` given to each client. Decoding is not modelled: the message handlers take the decoded value. The wire lemmas assume, as JSON guarantees, that an encoding holds no newline.
- Client methods not in the core are not modelled, because they are loops over the modelled operations or plain sends:
  - `createStateMany`, `removeStateMany`, `stateUpdateMany`;
  - `choiceUpdateSpecific`, `showNotification`, `updateActionData` (`TouchPortalAPI/client.py:315-459`).
- RuntimeClient.Client.GetWriteLock: the 15-second timeout is modelled as "the lock is already held", which is the only case where it expires in a single thread.
- Legacy client:
  - The socket, the receive timer thread and `__parseReceiveData` are not modelled. The source delivers messages on timers, which are assumed to run in arrival order (`ReceiveAll`).
  - `connect`, `disconnect`, `stateUpdateMany` and `updateActionData` are not modelled. `updateActionData` uses an undefined name.
  - Failures of `sendall` are not modelled.
- LegacyClient.ReadLineStep: at the end of the input with no newline, the source reads forever. The model consumes everything and reports no line.
- Legacy ids are modelled as strings, so a `None` state id is not modelled.
- Legacy generator: importing the plugin module, `getPluginVar`, `sys.exit`, printing and writing `entry.tp` are not modelled. The declarations are parameters, and an optional one that is absent is passed as `{}`.
- The definition generator: `generateDefinitionFromScript`, `generateDefinitionFromModule`, `validateDefinitionString`, `validateDefinitionFile` and the command line are not modelled, because they are I/O and code import.
- Table defaults that are mutable lists (`'d': []`) are shared between calls in the source, so a second generation sees the first one's categories. The model copies the defaults instead.
- `\w` and `isdigit` are modelled over ASCII letters, digits and `_`.
- The generated format is returned rather than written into the item dict in place. Aliasing between the entry's dicts is not modelled, in `_replaceFormatTokens` or in `TpToPy`.
- TpToPy reads its entry from a file, and `writetoFile` and `toString` write and format it. The model is given the decoded entry and returns the structs.
- SdkToolsProperties.DictFromItemSkipsInvalid: the `id` row is not covered, because whether it is kept also depends on the ids seen in earlier items. `KeepEntries` states that case for a single call.
- SdkToolsProperties.DictFromItemKeepsValue: a dict given for a list attribute is not covered, because it is replaced by the nested array `ArrayFromDict` builds; `ArrayFromDictItems` states what that array holds.
- SdkToolsProperties.DictFromItemSkipsInvalid: a dict given for a list attribute is not covered either, for the same reason.
- ReverseConversion.TpToPy.GenerateArrays: events and connectors are generated by the corrected loops, which keep one entry per item. The loops as written keep only the last item of each call. They are modelled apart (`EventsAsWritten`, `ConnectorsAsWritten`, see Findings) and are not what `Run`, `GenerateArrays` and `GenerateCategories` call.
- ReverseConversion.TpToPy.ConvertFormat: a truthy format that is not a string gives TypeError. Depending on its type, the source raises TypeError or AttributeError, or returns it unchanged when no id matches. Formats decoded from an entry are strings.

## Findings

| source | as written | input that shows it | evidently intended | confidence | as-written member | corrected member |
|---|---|---|---|---|---|---|
| TouchPortalAPI/client.py:378 | `settingName and settingName not in cache or cache[settingName] != value`: `and` binds tighter than `or` | `settingUpdate("", v)` with no cached `""` raises KeyError | skip an empty name, as `__stateUpdate` does | not executed | RuntimeClient.SettingGuardAsWritten, ClientProperties.SettingGuardEmptyNameRaises | RuntimeClient.SettingGuard |
| TouchPortalAPI/TpToPy.py:138-144 | `startIndex` is never advanced in `generateEvents` | two events in one category: only the second is kept | one key per event, as in `generateStates` | not executed | ReverseConversion.EventsAsWritten, ReverseConversionProperties.EventsAsWrittenDropsFirst, ReverseConversionProperties.EventsAsWrittenLastWins | ReverseConversion.TpToPy.GenerateEvents, ReverseConversionProperties.StatesPlaced |
| TouchPortalAPI/TpToPy.py:151-161 | `startIndex` is never advanced in `generateConnectors` | two connectors in one category: only the second is kept | one key per connector | not executed | ReverseConversion.ConnectorsAsWritten, ReverseConversionProperties.ConnectorsAsWrittenLastWins | ReverseConversion.TpToPy.GenerateConnectors, ReverseConversionProperties.ConnectorsPlaced |
