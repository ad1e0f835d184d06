# AppleMonitor decision logic in Dafny

This project models the core of the Apple Store stock monitor, the class
`AppleMonitor`. For every tracked device it:

- warms up a session against the storefront page, waits a random jitter and
  queries the fulfillment API;
- walks the `body.content.pickupMessage.stores` list of the JSON answer;
- keeps the stores that pass the device's store whitelist;
- builds a status line per store and decides availability from
  `pickupDisplay`;
- for an available store, appends the pickup information and pushes the
  message through every complete Bark or Feishu configuration.

`monitor()` does this device after device, with a pause after each.

The model has six modules:

| module | file | what it holds |
|---|---|---|
| `Json` | `json.dfy` | the parsed JSON tree (object, array, string, null) and the fastjson getters `getJSONObject`, `getJSONArray`, `getString` with their null and exception behaviour |
| `Text` | `text.dfy` | `String.contains`, `String.trim` (every char up to U+0020), `replace("\n", " ")` and Hutool's `StrUtil.format` with `{}` placeholders |
| `Requests` | `requests.dfy` | the two browser header sets, the query map and the two URLs |
| `Stores` | `stores.dfy` | the whitelist filter, the inventory check, the status line, the pickup information and the body of the store loop |
| `Push` | `push.dfy` | `pushAll`: which channel of which configuration is tried, in which order, with which message |
| `Monitor` | `monitor.dfy` | the store loop, one device's turn (`doMonitor`) and the device sweep (`monitor`) |

The network and the clock are inputs. An `Exchange` says, for one device:

- whether the warm-up fetch got an answer;
- whether the jitter sleep ran to its end;
- the status and parsed body of the API answer;
- whether the pause after the device ran to its end.

What the monitor does comes back as a sequence of `Event`s:

- the fetches it issues;
- the pauses;
- the status lines it logs;
- the deliveries it attempts;
- the notices it logs on the exceptional paths.

A Java exception is the `Thrown` case of `Json.Result`. The `try` blocks of
the source turn into `Run(events, threw)` values: that is how they stop a
loop.

Several behaviours of the code are easy to misread at a glance. The model
follows the code in each:

- **Warm-up failure.** A failed warm-up fetch throws inside the one `try` of
  `doMonitor` (AppleMonitor.java:98-105, :174). The device's turn therefore
  ends before the API is queried; the warm-up is not best-effort.
- **Pause after the last device.** The pause after a device also runs after
  the last one (:48-51).
- **Pauses end the sweep.** An interrupted pause leaves the `for` loop
  through the single outer `try` (:47-54). Any later devices are not
  visited.
- **Missing store fields.** A missing or mistyped field in one store entry
  throws inside the stream's `forEach`. That abandons the remaining stores of
  the device (:143-176); it does not skip only that entry.
- **Untrimmed filter name.** The whitelist test uses the untrimmed
  `storeName` (:220); the status line uses the trimmed one (:155).

## Model

| member | source | states |
|---|---|---|
| Json.LookupFirst | src/main/java/top/misec/applemonitor/job/AppleMonitor.java:129-131 | a member found under a key is the first member with that key; a key no member has reads as null |
| Json.LookupFound | src/main/java/top/misec/applemonitor/job/AppleMonitor.java:129-131 | a key some member holds is answered with the value of the first member holding it |
| Json.GetObjectOfMember | src/main/java/top/misec/applemonitor/job/AppleMonitor.java:129 | `getJSONObject` on a key held by a member answers that member exactly when it is null or an object, and throws otherwise |
| Json.GetArrayOfMember | src/main/java/top/misec/applemonitor/job/AppleMonitor.java:131 | `getJSONArray` on a key held by a member answers null exactly for a null member, the items exactly for an array, and throws for a string or object |
| Json.GetStringOfMember | src/main/java/top/misec/applemonitor/job/AppleMonitor.java:155-157 | `getString` on a key held by a member answers null exactly for a null member, the text of a string member, and a container's JSON text opening with its bracket |
| Json.GettersOfMissingKey | src/main/java/top/misec/applemonitor/job/AppleMonitor.java:129-131 | on an object without the key, every getter answers null and none throws |
| Text.Contains | src/main/java/top/misec/applemonitor/job/AppleMonitor.java:221 | `contains` is true exactly when the needle occurs at some index of the text |
| Text.ContainsNeedsFirstChar | src/main/java/top/misec/applemonitor/job/AppleMonitor.java:254-255 | a text lacking the needle's first character does not contain the needle |
| Text.SkipStartSkipsTrimmable | src/main/java/top/misec/applemonitor/job/AppleMonitor.java:155 | the start index of `trim` moves only over characters up to U+0020 and stops at the first other one |
| Text.SkipEndSkipsTrimmable | src/main/java/top/misec/applemonitor/job/AppleMonitor.java:155 | the end index of `trim` moves back only over characters up to U+0020 and stops after the last other one |
| Text.TrimSlice | src/main/java/top/misec/applemonitor/job/AppleMonitor.java:155 | the trimmed name is a slice of the name with only trimmable characters around it, and it neither starts nor ends with one |
| Text.TrimKeepsTrimmed | src/main/java/top/misec/applemonitor/job/AppleMonitor.java:155 | a name without trimmable characters at its ends is unchanged by `trim` |
| Text.TrimIdempotent | src/main/java/top/misec/applemonitor/job/AppleMonitor.java:155 | trimming twice is trimming once |
| Text.ReplaceNewlinesPointwise | src/main/java/top/misec/applemonitor/job/AppleMonitor.java:216 | `replace("\n", " ")` keeps the length, turns each line break into a space and leaves every other character |
| Text.ReplaceNewlinesLeavesNone | src/main/java/top/misec/applemonitor/job/AppleMonitor.java:216 | after the replacement no line break is left, and a text without one is unchanged |
| Text.FormatLiteral | src/main/java/top/misec/applemonitor/job/AppleMonitor.java:162 | brace-free template text is copied through unchanged |
| Text.FormatStep | src/main/java/top/misec/applemonitor/job/AppleMonitor.java:162 | a placeholder after brace-free text takes the first remaining argument |
| Text.FormatThree | src/main/java/top/misec/applemonitor/job/AppleMonitor.java:160-162 | a three-placeholder template with three arguments becomes its literals interleaved with the arguments |
| Text.FormatFour | src/main/java/top/misec/applemonitor/job/AppleMonitor.java:215-216 | the same for four placeholders and four arguments |
| Requests.BuildBrowserHeaders | src/main/java/top/misec/applemonitor/job/AppleMonitor.java:246-271 | filling the header map put by put gives the header set of the role |
| Requests.NamesDistinct | src/main/java/top/misec/applemonitor/job/AppleMonitor.java:248-261 | the eight header names are pairwise different, so no `put` overwrites another |
| Requests.PageHeaders | src/main/java/top/misec/applemonitor/job/AppleMonitor.java:246-270 | the page role carries exactly User-Agent, Connection, Accept-Language, Accept-Encoding and the HTML Accept, with their values; no Referer, Origin or cookie |
| Requests.ApiHeaders | src/main/java/top/misec/applemonitor/job/AppleMonitor.java:246-261 | the API role carries exactly the four common headers, the JSON Accept, the storefront Referer and Origin and the seed cookie, with their values |
| Requests.NoBrotli | src/main/java/top/misec/applemonitor/job/AppleMonitor.java:254-255 | the advertised encodings never mention `br` |
| Requests.BuildQuery | src/main/java/top/misec/applemonitor/job/AppleMonitor.java:86-90 | the query has exactly the keys `pl`, `mts.0`, `parts.0`, `location`, with `true`, `regular`, the device code and the location |
| Stores.PassesWhitelist | src/main/java/top/misec/applemonitor/job/AppleMonitor.java:219-222 | a name passes exactly when some whitelist entry contains it or is contained in it |
| Stores.MatchesBothWays | src/main/java/top/misec/applemonitor/job/AppleMonitor.java:221 | the match is substring containment in either direction; a name matches itself and the empty entry |
| Stores.KeepStoreMeaning | src/main/java/top/misec/applemonitor/job/AppleMonitor.java:143-148 | an empty whitelist keeps every entry unread; otherwise the filter throws exactly on an entry that is not an object or has no name, and keeps it exactly when the untrimmed name passes the whitelist |
| Stores.SurvivorsOfEmptyWhitelist | src/main/java/top/misec/applemonitor/job/AppleMonitor.java:144-145 | with an empty whitelist every store passes, in order |
| Stores.SurvivorsAppend | src/main/java/top/misec/applemonitor/job/AppleMonitor.java:143-148 | filtering a concatenation filters each part and keeps them in order, so survivors keep their input order |
| Stores.SurvivorsMembers | src/main/java/top/misec/applemonitor/job/AppleMonitor.java:143-148 | when the filter does not throw, a store survives exactly when the filter keeps it |
| Stores.JudgeInventoryMeaning | src/main/java/top/misec/applemonitor/job/AppleMonitor.java:188-194 | the check throws exactly when the store, `partsAvailability` or the device entry is not an object; otherwise the device is available exactly when `pickupDisplay` is the string "available" |
| Stores.OnlyPickupDisplayCounts | src/main/java/top/misec/applemonitor/job/AppleMonitor.java:188-194 | two stores with the same `pickupDisplay` for the device are judged alike: no other field counts |
| Stores.StatusTemplateFilled | src/main/java/top/misec/applemonitor/job/AppleMonitor.java:160-162 | formatting the status template gives `门店:` name `,型号:` title `,状态:` quote |
| Stores.PickupInformationMeaning | src/main/java/top/misec/applemonitor/job/AppleMonitor.java:202-217 | the pickup text exists exactly when the store and its address are objects, and is built from the address or its fallback with line breaks turned into spaces, the phone or its fallback, the location and the distance |
| Stores.PickupTemplateFilled | src/main/java/top/misec/applemonitor/job/AppleMonitor.java:215-216 | formatting the pickup template gives `\n取货地址:` address `,电话:` phone `,距离` location `:` distance |
| Stores.PickupFallbacks | src/main/java/top/misec/applemonitor/job/AppleMonitor.java:204-216 | the address and phone shown are never empty, and the address part carries no line break |
| Stores.EvaluateMeaning | src/main/java/top/misec/applemonitor/job/AppleMonitor.java:151-170 | the loop body succeeds exactly when the needed fields are objects (the retail store and its address only when the device is available); the message is the status line of the trimmed name, title and quote, plus the pickup text exactly when `pickupDisplay` is "available" |
| Push.BarkSound | src/main/java/top/misec/applemonitor/job/AppleMonitor.java:69 | the configured Bark sound, or GLASS when none is configured |
| Push.ConfigDeliveries | src/main/java/top/misec/applemonitor/job/AppleMonitor.java:60-79 | one configuration tries Bark exactly when URL and token are non-empty, then Feishu exactly when secret and webhook are non-empty, and nothing else |
| Push.PushAll | src/main/java/top/misec/applemonitor/job/AppleMonitor.java:58-82 | the loop attempts the deliveries of every configuration, configuration by configuration in order |
| Push.DeliveriesAppend | src/main/java/top/misec/applemonitor/job/AppleMonitor.java:60 | the order of the configurations is kept |
| Push.DeliveriesCount | src/main/java/top/misec/applemonitor/job/AppleMonitor.java:60-79 | exactly one delivery per ready channel, each carrying the message |
| Push.DeliveriesByConfig | src/main/java/top/misec/applemonitor/job/AppleMonitor.java:60-79 | a delivery is attempted exactly when it belongs to some configuration of the list |
| Monitor.VerdictsPointwise | src/main/java/top/misec/applemonitor/job/AppleMonitor.java:143-172 | the stream judges every entry on its own, in order |
| Monitor.VerdictsAppend | src/main/java/top/misec/applemonitor/job/AppleMonitor.java:143-172 | the verdicts of a concatenation are the verdicts of its parts |
| Monitor.HandleStore | src/main/java/top/misec/applemonitor/job/AppleMonitor.java:143-171 | one round throws exactly when the verdict is an exception; otherwise it logs and pushes what the verdict says |
| Monitor.ProcessStores | src/main/java/top/misec/applemonitor/job/AppleMonitor.java:143-172 | the store loop produces exactly the run of the entries' verdicts |
| Monitor.StoreRunPrefix | src/main/java/top/misec/applemonitor/job/AppleMonitor.java:143-176 | each round is one step after the previous ones, and a throwing round fixes the run of the whole list |
| Monitor.StoreRunAbandons | src/main/java/top/misec/applemonitor/job/AppleMonitor.java:143-176 | once an entry has thrown, later entries change nothing |
| Monitor.StoreRunStopsAtFailure | src/main/java/top/misec/applemonitor/job/AppleMonitor.java:143-176 | an entry that throws ends the loop with the events of the entries before it |
| Monitor.StepAfter | src/main/java/top/misec/applemonitor/job/AppleMonitor.java:149-172 | what an entry adds does not depend on the events before it |
| Monitor.StoreRunAppend | src/main/java/top/misec/applemonitor/job/AppleMonitor.java:143-172 | a run that did not throw is continued by the run of the rest |
| Monitor.StoreRunSkipsDropped | src/main/java/top/misec/applemonitor/job/AppleMonitor.java:143-148 | the entries the whitelist drops change nothing in the stream |
| Monitor.JudgeKept | src/main/java/top/misec/applemonitor/job/AppleMonitor.java:143-148 | a kept entry is judged by the body alone, whatever the whitelist |
| Monitor.RetainedSurvivors | src/main/java/top/misec/applemonitor/job/AppleMonitor.java:143-172 | the verdicts that are not drops are the verdicts of the filter's survivors |
| Monitor.StoreRunFiltersFirst | src/main/java/top/misec/applemonitor/job/AppleMonitor.java:143-172 | when the filter throws on no entry, the lazily interleaved stream does what filtering first and then processing the survivors in order would do |
| Monitor.PushesAppend | src/main/java/top/misec/applemonitor/job/AppleMonitor.java:164-171 | the pushes of concatenated event lists are concatenated |
| Monitor.PushesOfNone | src/main/java/top/misec/applemonitor/job/AppleMonitor.java:117-141 | events without a delivery push nothing |
| Monitor.PushesOfDeliveries | src/main/java/top/misec/applemonitor/job/AppleMonitor.java:169 | the pushes of the delivery events are those deliveries |
| Monitor.VerdictPushes | src/main/java/top/misec/applemonitor/job/AppleMonitor.java:164-171 | an entry pushes its message to every ready channel when the device is available there, and nothing otherwise |
| Monitor.StoreRunPushes | src/main/java/top/misec/applemonitor/job/AppleMonitor.java:143-172 | a loop that does not throw pushes, in store order, exactly the deliveries of the available stores |
| Monitor.ExpectedPushesCount | src/main/java/top/misec/applemonitor/job/AppleMonitor.java:164-170 | that is once per ready channel for every available store |
| Monitor.StoreRunPushCount | src/main/java/top/misec/applemonitor/job/AppleMonitor.java:164-170 | the loop's push count is the number of available stores times the number of ready channels |
| Monitor.StoreRunNoPushWithoutAvailability | src/main/java/top/misec/applemonitor/job/AppleMonitor.java:164-170 | where the device is available at no store nothing is pushed, even when an entry throws |
| Monitor.DoMonitor | src/main/java/top/misec/applemonitor/job/AppleMonitor.java:84-178 | one device's turn: warm-up fetch, jitter, API fetch and the handling of its answer, with an exception ending the turn |
| Monitor.HandleAnswer | src/main/java/top/misec/applemonitor/job/AppleMonitor.java:117-176 | the answer is handled by status, parse, `pickupMessage`, `stores` and the store loop, as `AfterQuery` states |
| Monitor.WarmUpFailureEndsTurn | src/main/java/top/misec/applemonitor/job/AppleMonitor.java:98-105 | a warm-up without an answer ends the turn before the API is queried |
| Monitor.NonOkPushesNothing | src/main/java/top/misec/applemonitor/job/AppleMonitor.java:117-124 | a non-2xx answer ends the turn with no push, and the block hint is logged exactly for status 541 |
| Monitor.MissingStoresPushesNothing | src/main/java/top/misec/applemonitor/job/AppleMonitor.java:133-137 | an answer without `stores` logs the unsupported-device notice and pushes nothing |
| Monitor.NoStoresPushesNothing | src/main/java/top/misec/applemonitor/job/AppleMonitor.java:139-141 | an empty `stores` list logs that no store is near, pushes nothing and is no error |
| Monitor.StoresTurnPushes | src/main/java/top/misec/applemonitor/job/AppleMonitor.java:139-176 | the store part pushes what its loop pushes |
| Monitor.PrefixPushesNothing | src/main/java/top/misec/applemonitor/job/AppleMonitor.java:98-115 | the fetches and the jitter push nothing |
| Monitor.DevicePushes | src/main/java/top/misec/applemonitor/job/AppleMonitor.java:84-178 | a device's pushes are those of its store loop |
| Monitor.DevicePushCount | src/main/java/top/misec/applemonitor/job/AppleMonitor.java:143-172 | when no entry throws, a device pushes once per ready channel for every store where it is available |
| Monitor.Monitor | src/main/java/top/misec/applemonitor/job/AppleMonitor.java:42-55 | the sweep runs each device's turn and a pause, and an interrupted pause ends it |
| Monitor.TurnsAppend | src/main/java/top/misec/applemonitor/job/AppleMonitor.java:48-51 | the turns of concatenated device lists are concatenated |
| Monitor.SweepAbandons | src/main/java/top/misec/applemonitor/job/AppleMonitor.java:47-54 | after an interrupted pause the remaining devices change nothing |
| Monitor.SweepThrowsOnlyOnInterrupt | src/main/java/top/misec/applemonitor/job/AppleMonitor.java:47-54 | the sweep fails exactly when some pause is interrupted; a device's own failure never ends it |
| Monitor.SweepAppend | src/main/java/top/misec/applemonitor/job/AppleMonitor.java:47-54 | devices are visited one after the other, each independent of how the earlier ones ended |
| Monitor.SweepVisitsAll | src/main/java/top/misec/applemonitor/job/AppleMonitor.java:48-51 | without interruptions every device has its turn followed by a pause |
| Monitor.SweepEndsWithPause | src/main/java/top/misec/applemonitor/job/AppleMonitor.java:50 | without interruptions the sweep ends with a pause, including after the last device |

## Left out

- HTTP execution, timeouts and the global cookie manager (AppleMonitor.java:34-38, :100-115). They are network I/O. Each fetch's outcome is an input, and a request is recorded by URL, query and header role.
- Sleep durations and `ThreadLocalRandom` (:50, :108). They are timing and randomness. A sleep is an event whose outcome, completed or interrupted, is an input.
- Logging. Only the status lines and the notices the code logs on its exceptional paths are recorded, as events. Log levels and the text of the hints are not.
- The Bark and Feishu transports (`BarkPush.simpleWithResp`, `FeiShuBotPush.pushTextMessage`). Their code is not part of this model. A delivery is recorded as the message the sender is given, and senders are assumed to return normally.
- A sender that throws. `pushAll` catches nothing (:58-82), so a throwing Bark sender would skip the Feishu delivery and every later configuration. The exception would then end the device's store loop through the catch at :174. The model cannot show this, because its senders always return.
- Requests.ApiHeaders: the cookie value is the opaque constant `Requests.SeedCookie`, not the literal of :261. That literal is a long string of session and tracking identifiers, and nothing in the monitor reads it; only its presence in the API role is modelled.
- fastjson's text parser. The answer body comes in already parsed, or marked unparsable. Two finer getter behaviours are also not modelled:
  - fastjson's conversion of a string member to an object or array, modelled as an exception;
  - the escaping done by `toJSONString`, so `Json.Render` does not escape.
- `URLUtil.buildQuery` percent-encoding and the `?` join. The query is kept as a map.
- `CountryEnum.getUrlByCountry` and `CfgSingleton` are not part of this model. The base URL and the location are inputs (`Task`).
- `buildHeaders` (:231-240). It is never called; its one use is commented out at :94.
- Null configuration strings. Null and the empty string are one value. The source only tests them with `isEmpty`, which treats both alike.
- A null device code, location or whitelist is not modelled. These come from the configuration.
- `Text.Format` does not model Hutool's backslash escapes. The two templates contain no backslash.
- `Push.BarkSound` takes the name of `SoundEnum.GLASS` to be "glass". The enum is not part of this model.
- `FeiShuPushDTO.java` is a data holder with no logic. It is the record `Push.FeiShuPushDTO`.
