# AppsFlyer remote command for Tealium, in Dafny

This project models the Android AppsFlyer remote command for Tealium.
A tag-management request carries a payload, which is a JSON object.
Its `command_name` field holds comma-separated command names.
The remote command splits that field into normalised tokens.
For each token it makes at most one call on its tracker.
That call is `initialize`, `trackLocation`, `setHost`, one of the identity and tracking setters, or `trackEvent` for one of the 27 standard in-app events.

The project also models the tracker's SDK adapter, `AppsFlyerInstance`.
It covers:

- the settings interpreter of `initialize`, which has 22 setting blocks in source order;
- the stored dev key, which only a non-empty key replaces;
- `init` and `start` when a dev key is present, and an error message when none is;
- `setHost`;
- the mediation-network guard of `logAdRevenue`;
- the purchase-type choice of `validateAndLogPurchase`;
- the lossy `toMap`, which keeps only the string-valued fields.

Files:

- `wrappers.dfy`: the `Option` type.
- `kotlin_text.dfy`: the Kotlin string functions the dispatcher and the SDK adapter use.
  - `isWhitespace` and `trim`.
  - `toLowerCase(Locale.ROOT)` on the characters whose lower case is an ASCII letter: `A`..`Z` and the Kelvin sign U+212A.
  - `split`, which keeps empty pieces.
  - `equals(ignoreCase = true)`, used by the SDK adapter. It folds only the case mappings that involve an ASCII letter, so it is exact when one side is ASCII.
- `sequences.dfy`: concatenation facts used to combine call logs.
- `json_payload.dfy`: the request payload and its total `opt*` accessors.
- `constants.dfy`: the command names, the standard-event table and the payload keys, with lemmas about them.
- `remote_command.dfy`: the dispatcher. It has a `Tracker` class that records calls and an `AppsFlyerRemoteCommand` class whose methods append to that record. Their contracts are stated against the specification functions `SplitCommands`, `TokenCalls` and `Trace`.
- `instance.dfy`: the SDK adapter. It has an `AppsFlyerLib` call log and an `AppsFlyerInstance` class whose `appsFlyerDevKey` field is updated in place. Its methods are stated against `SettingCalls`, `SettingsCalls` and `InitializeCalls`, and the ordering and error properties are proved about those functions.

## Model

| member | source | states |
|---|---|---|
| RemoteCommand.Normalize | appsflyer/src/main/java/com/tealium/remotecommands/appsflyer/AppsFlyerRemoteCommand.kt:201-203 | A token is no longer than its piece, has no whitespace at either end and has no character that lowers to an ASCII letter (`A`..`Z`, U+212A). It is empty exactly when the piece is blank. |
| RemoteCommand.SplitCommands | appsflyer/src/main/java/com/tealium/remotecommands/appsflyer/AppsFlyerRemoteCommand.kt:199-204 | A request always yields at least one token, even when `command_name` is missing. |
| RemoteCommand.SplitCommandsPieces | appsflyer/src/main/java/com/tealium/remotecommands/appsflyer/AppsFlyerRemoteCommand.kt:199-204 | If the command string is the comma-join of comma-free pieces, there is one token per piece, in order, and each token is that piece normalised. |
| RemoteCommand.SplitCommandsCount | appsflyer/src/main/java/com/tealium/remotecommands/appsflyer/AppsFlyerRemoteCommand.kt:199-204 | The number of tokens is one more than the number of commas, so empty pieces are kept. |
| RemoteCommand.NameSurvivesSplit | appsflyer/src/main/java/com/tealium/remotecommands/appsflyer/AppsFlyerRemoteCommand.kt:199-204 | A command string that is exactly one command name splits into that name alone. |
| RemoteCommand.NormalizeIdempotent | appsflyer/src/main/java/com/tealium/remotecommands/appsflyer/AppsFlyerRemoteCommand.kt:201-203 | Normalising a token again leaves it unchanged. |
| RemoteCommand.KelvinSignToken | appsflyer/src/main/java/com/tealium/remotecommands/appsflyer/AppsFlyerRemoteCommand.kt:201-203 | A token spelled with the Kelvin sign U+212A in place of `k` is lowered to `tracklocation`. |
| RemoteCommand.NormalizedIsFixed | appsflyer/src/main/java/com/tealium/remotecommands/appsflyer/AppsFlyerRemoteCommand.kt:201-203 | A string that is already trimmed and lower-case is its own token. |
| RemoteCommand.NormalizeAfterSpace | appsflyer/src/main/java/com/tealium/remotecommands/appsflyer/AppsFlyerRemoteCommand.kt:201-203 | One leading space before a trimmed, lower-case name is dropped, which covers the `", "`-separated lists the tests send. |
| RemoteCommand.NamesAreNormalized | appsflyer/src/main/java/com/tealium/remotecommands/appsflyer/AppsFlyerConstants.kt:11-57 | Every control-command name and every event key is fixed by normalisation, so each one can be matched after splitting. |
| RemoteCommand.SplitCommandsExample | appsflyer/src/main/java/com/tealium/remotecommands/appsflyer/AppsFlyerRemoteCommand.kt:199-204 | `"initialize, log_purchase, add_to_cart"` splits into exactly those three names. |
| RemoteCommand.NoCommandNameNoCalls | appsflyer/src/main/java/com/tealium/remotecommands/appsflyer/AppsFlyerRemoteCommand.kt:199-204 | A payload without `command_name` yields the single empty token, and the request makes no tracker call. |
| RemoteCommand.StringList | appsflyer/src/main/java/com/tealium/remotecommands/appsflyer/AppsFlyerRemoteCommand.kt:218-225 | An array of strings converts to a list of the same length holding the same strings, position by position. |
| RemoteCommand.StandardEvent | appsflyer/src/main/java/com/tealium/remotecommands/appsflyer/AppsFlyerRemoteCommand.kt:153-155 | A name has a standard event exactly when it is one of the 27 event keys, and then the event is the one paired with that key. |
| RemoteCommand.TokenCalls | appsflyer/src/main/java/com/tealium/remotecommands/appsflyer/AppsFlyerRemoteCommand.kt:60-146 | One token makes at most one tracker call. |
| RemoteCommand.AppsFlyerRemoteCommand.OnInvoke | appsflyer/src/main/java/com/tealium/remotecommands/appsflyer/AppsFlyerRemoteCommand.kt:48-52 | A request appends to the tracker log exactly the trace of its split tokens. |
| RemoteCommand.Trace | appsflyer/src/main/java/com/tealium/remotecommands/appsflyer/AppsFlyerRemoteCommand.kt:60-146 | Handling a list of tokens makes at most one call per token. |
| RemoteCommand.AppsFlyerRemoteCommand.ParseCommands | appsflyer/src/main/java/com/tealium/remotecommands/appsflyer/AppsFlyerRemoteCommand.kt:60-146 | Handling the tokens in order appends the concatenation of each token's calls, in token order, and nothing else. |
| RemoteCommand.AppsFlyerRemoteCommand.ParseCommand | appsflyer/src/main/java/com/tealium/remotecommands/appsflyer/AppsFlyerRemoteCommand.kt:62-144 | Handling one token appends exactly that token's calls. |
| RemoteCommand.AppsFlyerRemoteCommand.Initialize | appsflyer/src/main/java/com/tealium/remotecommands/appsflyer/AppsFlyerRemoteCommand.kt:157-163 | Appends exactly the calls of the `initialize` token. |
| RemoteCommand.AppsFlyerRemoteCommand.TrackLocation | appsflyer/src/main/java/com/tealium/remotecommands/appsflyer/AppsFlyerRemoteCommand.kt:165-179 | Appends exactly the calls of the `tracklocation` token. |
| RemoteCommand.AppsFlyerRemoteCommand.SetHost | appsflyer/src/main/java/com/tealium/remotecommands/appsflyer/AppsFlyerRemoteCommand.kt:181-197 | Appends exactly the calls of the `sethost` token. |
| RemoteCommand.JsonToMap | appsflyer/src/main/java/com/tealium/remotecommands/appsflyer/AppsFlyerRemoteCommand.kt:206-216 | A missing object gives the empty map. Otherwise the result holds every key of the object with its value unchanged. |
| RemoteCommand.ToList | appsflyer/src/main/java/com/tealium/remotecommands/appsflyer/AppsFlyerRemoteCommand.kt:218-225 | The loop builds a list of the array's length whose i-th element is the array's i-th string. |
| RemoteCommand.BlankTokenNoCalls | appsflyer/src/main/java/com/tealium/remotecommands/appsflyer/AppsFlyerRemoteCommand.kt:132-143 | A blank token, such as the empty token from a trailing comma, makes no call. |
| RemoteCommand.BlankIsNoName | appsflyer/src/main/java/com/tealium/remotecommands/appsflyer/AppsFlyerConstants.kt:11-57 | No command name and no event key is blank. |
| RemoteCommand.TokenNameNotBlank | appsflyer/src/main/java/com/tealium/remotecommands/appsflyer/AppsFlyerConstants.kt:11-57 | A well-formed name never equals a blank string. |
| RemoteCommand.BlankTokenIgnored | appsflyer/src/main/java/com/tealium/remotecommands/appsflyer/AppsFlyerRemoteCommand.kt:61-145 | Inserting a blank token anywhere in a command list leaves the request's trace unchanged. |
| RemoteCommand.UnknownTokenNoCalls | appsflyer/src/main/java/com/tealium/remotecommands/appsflyer/AppsFlyerRemoteCommand.kt:132-143 | A token that is neither a control command nor an event key makes no call, and neither does `launch`, which has no branch. |
| RemoteCommand.SetHostCalls | appsflyer/src/main/java/com/tealium/remotecommands/appsflyer/AppsFlyerRemoteCommand.kt:181-197 | An empty `host` makes no call. A non-empty `host` calls `setHost` with the given prefix when that is non-empty, and with the default empty prefix otherwise. A call is made exactly when `host` is a non-empty string. |
| RemoteCommand.RequiredStringCalls | appsflyer/src/main/java/com/tealium/remotecommands/appsflyer/AppsFlyerRemoteCommand.kt:79-101 | `setcurrencycode` and `setcustomerid` make a call exactly when their key holds a non-empty string, and the call carries that string. |
| RemoteCommand.ListCalls | appsflyer/src/main/java/com/tealium/remotecommands/appsflyer/AppsFlyerRemoteCommand.kt:72-78 | `setuseremails` and `resolvedeeplinkurls` make a call exactly when their key holds an array, and the call carries the array's strings in order. This row also covers lines 114-125. |
| RemoteCommand.AlwaysOneCall | appsflyer/src/main/java/com/tealium/remotecommands/appsflyer/AppsFlyerRemoteCommand.kt:63-68 | `initialize`, `tracklocation`, `disabledevicetracking` and `stoptracking` always make exactly one call. It carries the values of the `opt*` accessors. This row also covers lines 102-131 and 157-179. |
| RemoteCommand.MissingFieldDefaults | appsflyer/src/main/java/com/tealium/remotecommands/appsflyer/AppsFlyerRemoteCommand.kt:157-179 | On an empty payload these four commands fall back to their defaults: an empty dev key with empty settings, NaN coordinates, and `false`. |
| RemoteCommand.InitializeWithoutDevKeyExample | appsflyer/src/main/java/com/tealium/remotecommands/appsflyer/AppsFlyerRemoteCommand.kt:157-163 | Without `app_dev_key`, `initialize` still reaches the tracker with the empty dev key. |
| RemoteCommand.StandardEventCalls | appsflyer/src/main/java/com/tealium/remotecommands/appsflyer/AppsFlyerRemoteCommand.kt:132-143 | A token with no control branch makes a call exactly when it is an event key. That call is `trackEvent` with the key's event and the optional `event_parameters` object. |
| RemoteCommand.EventAliasCalls | appsflyer/src/main/java/com/tealium/remotecommands/appsflyer/AppsFlyerRemoteCommand.kt:132-143 | Each of the 27 event keys tracks its own paired event. |
| RemoteCommand.EventKeyNotHandled | appsflyer/src/main/java/com/tealium/remotecommands/appsflyer/AppsFlyerConstants.kt:11-57 | No event key is shadowed by a control-command branch. |
| RemoteCommand.BlankThenStopTrackingExample | appsflyer/src/main/java/com/tealium/remotecommands/appsflyer/AppsFlyerRemoteCommand.kt:126-131 | The tokens `" "` and `stoptracking` on an empty payload give exactly one `stopTracking(false)`. |
| RemoteCommand.SetHostEmptyPrefixExample | appsflyer/src/main/java/com/tealium/remotecommands/appsflyer/AppsFlyerRemoteCommand.kt:185-190 | An empty `host_prefix` takes the one-argument `setHost(host)` path with the default prefix. |
| AppsFlyerConstants.Zip | appsflyer/src/main/java/com/tealium/remotecommands/appsflyer/AppsFlyerConstants.kt:29-57 | Pairing keys with values keeps both orders and both lengths. |
| AppsFlyerConstants.MapOf | appsflyer/src/main/java/com/tealium/remotecommands/appsflyer/AppsFlyerConstants.kt:29-57 | The keys of `mapOf` are exactly the table's keys. |
| AppsFlyerConstants.Keys | appsflyer/src/main/java/com/tealium/remotecommands/appsflyer/AppsFlyerConstants.kt:29-57 | The key column of a table has one entry per row, in row order. |
| AppsFlyerConstants.LowerWordIsTokenName | appsflyer/src/main/java/com/tealium/remotecommands/appsflyer/AppsFlyerConstants.kt:11-20 | A non-empty word of the letters `a`..`z` is a valid token name. |
| AppsFlyerConstants.ControlCommandsWellFormed | appsflyer/src/main/java/com/tealium/remotecommands/appsflyer/AppsFlyerConstants.kt:7-21 | There are ten control commands, including `launch`. They are distinct, lower-case words, and so are valid token names. |
| AppsFlyerConstants.ControlCommandsAreWords | appsflyer/src/main/java/com/tealium/remotecommands/appsflyer/AppsFlyerConstants.kt:11-20 | Every control-command name is a lower-case word. |
| AppsFlyerConstants.EventKeysAreWords | appsflyer/src/main/java/com/tealium/remotecommands/appsflyer/AppsFlyerConstants.kt:29-57 | There are 27 event keys, and each one is a lower-case word. |
| AppsFlyerConstants.ZipKeys | appsflyer/src/main/java/com/tealium/remotecommands/appsflyer/AppsFlyerConstants.kt:29-57 | The key column of a zipped table is the original key list, and the key set of its map is the set of those keys. |
| AppsFlyerConstants.ZipTable | appsflyer/src/main/java/com/tealium/remotecommands/appsflyer/AppsFlyerConstants.kt:29-57 | With distinct keys and distinct values, `mapOf` has one entry per key, maps each key to its paired value and is injective. |
| AppsFlyerConstants.EventNamesWellFormed | appsflyer/src/main/java/com/tealium/remotecommands/appsflyer/AppsFlyerConstants.kt:29-57 | `eventNames` has exactly the 27 keys and maps each key to its own event type. No two keys share an event type. |
| AppsFlyerConstants.ControlCommandsNotEvents | appsflyer/src/main/java/com/tealium/remotecommands/appsflyer/AppsFlyerConstants.kt:11-57 | No control-command name is a key of `eventNames`. |
| AppsFlyerConstants.PayloadKeysDistinct | appsflyer/src/main/java/com/tealium/remotecommands/appsflyer/AppsFlyerConstants.kt:76-103 | The payload keys read together are distinct. The command key is `command_name`, the separator is a comma and the parameters key is `event_parameters`. |
| KotlinText.Lowercase | appsflyer/src/main/java/com/tealium/remotecommands/appsflyer/AppsFlyerRemoteCommand.kt:202 | Lower-casing maps each character on its own, keeps the length, and leaves no `A`..`Z` and no U+212A. |
| KotlinText.TrimStart | appsflyer/src/main/java/com/tealium/remotecommands/appsflyer/AppsFlyerRemoteCommand.kt:202 | Only leading whitespace is dropped, and the result does not start with whitespace. |
| KotlinText.TrimEnd | appsflyer/src/main/java/com/tealium/remotecommands/appsflyer/AppsFlyerRemoteCommand.kt:202 | Only trailing whitespace is dropped, and the result does not end with whitespace. |
| KotlinText.Trim | appsflyer/src/main/java/com/tealium/remotecommands/appsflyer/AppsFlyerRemoteCommand.kt:202 | The trimmed string is no longer than the input and has no whitespace at either end. It is empty exactly when the input is blank. |
| KotlinText.TrimTrimmed | appsflyer/src/main/java/com/tealium/remotecommands/appsflyer/AppsFlyerRemoteCommand.kt:202 | Trimming a string with no whitespace at either end leaves it unchanged. |
| KotlinText.Split | appsflyer/src/main/java/com/tealium/remotecommands/appsflyer/AppsFlyerRemoteCommand.kt:201 | A split has at least one piece. |
| KotlinText.JoinSplit | appsflyer/src/main/java/com/tealium/remotecommands/appsflyer/AppsFlyerRemoteCommand.kt:201 | Joining the pieces of a split with the separator gives back the original string. |
| KotlinText.SplitJoin | appsflyer/src/main/java/com/tealium/remotecommands/appsflyer/AppsFlyerRemoteCommand.kt:201 | Splitting a join of separator-free pieces gives back those pieces. |
| KotlinText.SplitPiecesFree | appsflyer/src/main/java/com/tealium/remotecommands/appsflyer/AppsFlyerRemoteCommand.kt:201 | No piece of a split contains the separator. |
| KotlinText.SplitFree | appsflyer/src/main/java/com/tealium/remotecommands/appsflyer/AppsFlyerRemoteCommand.kt:201 | A string without the separator splits into itself alone. |
| KotlinText.SplitConcat | appsflyer/src/main/java/com/tealium/remotecommands/appsflyer/AppsFlyerRemoteCommand.kt:201 | Splitting `a + sep + b`, with `a` separator-free, gives `a` followed by the split of `b`. |
| KotlinText.SplitCount | appsflyer/src/main/java/com/tealium/remotecommands/appsflyer/AppsFlyerRemoteCommand.kt:201 | A split has one piece more than there are separators. |
| KotlinText.JoinExtendFirst | appsflyer/src/main/java/com/tealium/remotecommands/appsflyer/AppsFlyerRemoteCommand.kt:201 | A character put in front of the first piece ends up in front of the joined string. |
| KotlinText.LowerChar | appsflyer/src/main/java/com/tealium/remotecommands/appsflyer/AppsFlyerRemoteCommand.kt:202 | Lower-casing a character maps `A`..`Z` to `a`..`z` and U+212A to `k`, keeps whitespace status and fixes every other character. |
| JsonPayload.OptStringOr | appsflyer/src/main/java/com/tealium/remotecommands/appsflyer/AppsFlyerRemoteCommand.kt:200 | `optString` returns the string stored under the key, and otherwise the default. |
| JsonPayload.OptBoolean | appsflyer/src/main/java/com/tealium/remotecommands/appsflyer/AppsFlyerRemoteCommand.kt:104 | `optBoolean` is true exactly when the key holds `true`. |
| JsonPayload.OptDouble | appsflyer/src/main/java/com/tealium/remotecommands/appsflyer/AppsFlyerRemoteCommand.kt:166-167 | `optDouble` is NaN exactly when the key does not hold a number. |
| JsonPayload.OptJsonArray | appsflyer/src/main/java/com/tealium/remotecommands/appsflyer/AppsFlyerRemoteCommand.kt:73 | `optJSONArray` is present exactly when the key holds an array, and then it is that array. |
| JsonPayload.OptJsonObject | appsflyer/src/main/java/com/tealium/remotecommands/appsflyer/AppsFlyerRemoteCommand.kt:159 | `optJSONObject` is present exactly when the key holds an object, and then it is that object. |
| AppsFlyerInstanceModel.AsString | appsflyer/src/main/java/com/tealium/remotecommands/appsflyer/AppsFlyerInstance.kt:97-98 | A setting value reads as a string exactly when it is one, and the read gives that string. |
| AppsFlyerInstanceModel.AsStringList | appsflyer/src/main/java/com/tealium/remotecommands/appsflyer/AppsFlyerInstance.kt:81 | A list value reads as a string list of the same length holding the same strings, and every other value reads as none. |
| AppsFlyerInstanceModel.StringEntry | appsflyer/src/main/java/com/tealium/remotecommands/appsflyer/AppsFlyerInstance.kt:155-157 | A `data[key] as? String` read succeeds exactly when the key holds a string. |
| AppsFlyerInstanceModel.Index | appsflyer/src/main/java/com/tealium/remotecommands/appsflyer/AppsFlyerInstance.kt:29-163 | Each setting has a block position below 22. |
| AppsFlyerInstanceModel.SettingAt | appsflyer/src/main/java/com/tealium/remotecommands/appsflyer/AppsFlyerInstance.kt:29-163 | Each of the 22 block positions belongs to the setting at that index. |
| AppsFlyerInstanceModel.SettingAtIndex | appsflyer/src/main/java/com/tealium/remotecommands/appsflyer/AppsFlyerInstance.kt:29-163 | Block positions and settings are inverse. |
| AppsFlyerInstanceModel.IndexInjective | appsflyer/src/main/java/com/tealium/remotecommands/appsflyer/AppsFlyerInstance.kt:29-163 | Two settings with the same block position are the same setting. |
| AppsFlyerInstanceModel.PreinstallCalls | appsflyer/src/main/java/com/tealium/remotecommands/appsflyer/AppsFlyerInstance.kt:152-163 | Preinstall attribution is forwarded exactly when `media_source` and `campaign` are both non-empty strings. |
| AppsFlyerInstanceModel.SettingCalls | appsflyer/src/main/java/com/tealium/remotecommands/appsflyer/AppsFlyerInstance.kt:29-163 | One setting block makes at most one SDK call, and only when its key is present. |
| AppsFlyerInstanceModel.AppendBlock | appsflyer/src/main/java/com/tealium/remotecommands/appsflyer/AppsFlyerInstance.kt:29-163 | Running one more block appends that block's calls to the calls of the blocks before it. |
| AppsFlyerInstanceModel.OriginalBlocks | appsflyer/src/main/java/com/tealium/remotecommands/appsflyer/AppsFlyerInstance.kt:30-55 | The first four blocks run in source order: minimum time between sessions, anonymize user, custom data, debug. |
| AppsFlyerInstanceModel.IdentifierBlocks | appsflyer/src/main/java/com/tealium/remotecommands/appsflyer/AppsFlyerInstance.kt:58-78 | Blocks five to nine run in source order: ad tracking, network data, app-set id, TCF collection, OneLink id. |
| AppsFlyerInstanceModel.LinkBlocks | appsflyer/src/main/java/com/tealium/remotecommands/appsflyer/AppsFlyerInstance.kt:80-107 | Blocks ten to thirteen run in source order: OneLink domains, customer emails, host, deep-link URLs. |
| AppsFlyerInstanceModel.DeviceBlocks | appsflyer/src/main/java/com/tealium/remotecommands/appsflyer/AppsFlyerInstance.kt:110-132 | Blocks fourteen to eighteen run in source order: Android id, IMEI, log level, wait for customer id, Facebook applinks. |
| AppsFlyerInstanceModel.InstallBlocks | appsflyer/src/main/java/com/tealium/remotecommands/appsflyer/AppsFlyerInstance.kt:134-163 | The last four blocks run in source order: out of store, is-update, extension, preinstall attribution. |
| AppsFlyerInstanceModel.StringFields | appsflyer/src/main/java/com/tealium/remotecommands/appsflyer/AppsFlyerInstance.kt:341-354 | `toMap` keeps a key exactly when its value is a string, and stores that string. |
| AppsFlyerInstanceModel.HostCalls | appsflyer/src/main/java/com/tealium/remotecommands/appsflyer/AppsFlyerInstance.kt:187-191 | `setHost` makes no SDK call exactly when the prefix is null. Otherwise it makes one `setHost` call for the given host. |
| AppsFlyerInstanceModel.AdRevenueCalls | appsflyer/src/main/java/com/tealium/remotecommands/appsflyer/AppsFlyerInstance.kt:233-247 | `logAdRevenue` makes exactly one entry. It is the SDK call with the mapped mediation network when the network is known, and the "unknown mediation network" error otherwise. |
| AppsFlyerInstanceModel.BlockOfSettingCalls | appsflyer/src/main/java/com/tealium/remotecommands/appsflyer/AppsFlyerInstance.kt:29-163 | Every call a block makes is tagged with that block's setting. |
| AppsFlyerInstanceModel.SingleBlock | appsflyer/src/main/java/com/tealium/remotecommands/appsflyer/AppsFlyerInstance.kt:29-163 | One block's calls lie within that block's position, and they are exactly the calls of that block. |
| AppsFlyerInstanceModel.SingleBlockCovers | appsflyer/src/main/java/com/tealium/remotecommands/appsflyer/AppsFlyerInstance.kt:29-163 | Calls that are one block's calls, and tagged with it, are exactly that block's log for its position. |
| AppsFlyerInstanceModel.InBlocksAppend | appsflyer/src/main/java/com/tealium/remotecommands/appsflyer/AppsFlyerInstance.kt:29-163 | Calls within blocks `lo..mid` followed by calls within `mid..hi` lie within `lo..hi`. |
| AppsFlyerInstanceModel.CoversAppend | appsflyer/src/main/java/com/tealium/remotecommands/appsflyer/AppsFlyerInstance.kt:29-163 | The call logs of two adjacent ranges of blocks concatenate to the log of the joined range. |
| AppsFlyerInstanceModel.Consecutive | appsflyer/src/main/java/com/tealium/remotecommands/appsflyer/AppsFlyerInstance.kt:29-163 | Two adjacent in-order block logs form one in-order log for the whole range. |
| AppsFlyerInstanceModel.SettingsCallsOrder | appsflyer/src/main/java/com/tealium/remotecommands/appsflyer/AppsFlyerInstance.kt:29-163 | All calls of the settings interpreter follow block order. For each block, the calls tagged with it are exactly that block's calls. |
| AppsFlyerInstanceModel.SettingsCallsNeedTheirKey | appsflyer/src/main/java/com/tealium/remotecommands/appsflyer/AppsFlyerInstance.kt:29-163 | Every call the settings interpreter makes comes from a block whose key is present in the settings. |
| AppsFlyerInstanceModel.SettingsCallsPrecedeStart | appsflyer/src/main/java/com/tealium/remotecommands/appsflyer/AppsFlyerInstance.kt:29-163 | No call of the settings interpreter is `init`, `start` or the missing-dev-key error. |
| AppsFlyerInstanceModel.InitializeCallsOrder | appsflyer/src/main/java/com/tealium/remotecommands/appsflyer/AppsFlyerInstance.kt:25-177 | `initialize` ends with the dev-key tail, which is `init` and `start` or the error. Every call before that tail is a settings call. |
| AppsFlyerInstanceModel.StartAfterSettings | appsflyer/src/main/java/com/tealium/remotecommands/appsflyer/AppsFlyerInstance.kt:165-176 | After any list of settings calls, `init(k)` appears exactly when the effective key is `k`, `start` appears exactly when a key exists, and the error appears exactly when none does. |
| AppsFlyerInstanceModel.InitializeStartsIff | appsflyer/src/main/java/com/tealium/remotecommands/appsflyer/AppsFlyerInstance.kt:165-176 | `initialize` calls SDK `init(k)` exactly when the updated dev key is `k`. It calls `start` exactly when a key exists, and logs "app_dev_key is a required key" exactly when none does. |
| AppsFlyerInstanceModel.AlwaysForwardedCalls | appsflyer/src/main/java/com/tealium/remotecommands/appsflyer/AppsFlyerInstance.kt:30-143 | A plain forwarding block makes one call exactly when its key is present, and none otherwise. |
| AppsFlyerInstanceModel.HostSettingCalls | appsflyer/src/main/java/com/tealium/remotecommands/appsflyer/AppsFlyerInstance.kt:96-100 | The host block calls SDK `setHost(host, prefix)` exactly when both `host` and `host_prefix` are present. |
| AppsFlyerInstanceModel.AppSetIdSettingCalls | appsflyer/src/main/java/com/tealium/remotecommands/appsflyer/AppsFlyerInstance.kt:66-70 | `disableAppSetId` is called exactly when the setting is `true`. |
| AppsFlyerInstanceModel.PreinstallSettingCalls | appsflyer/src/main/java/com/tealium/remotecommands/appsflyer/AppsFlyerInstance.kt:152-163 | Preinstall attribution is forwarded exactly when the value is a map whose `media_source` and `campaign` are non-empty strings. The call carries those strings and the optional `site_id`. |
| AppsFlyerInstanceModel.ListSettingCalls | appsflyer/src/main/java/com/tealium/remotecommands/appsflyer/AppsFlyerInstance.kt:80-107 | OneLink domains, customer emails and deep-link URLs are forwarded exactly when the value is a list, and the call carries the list's strings. Emails also carry the crypt type selected by `email_hash_type`. |
| AppsFlyerInstanceModel.SoftStringSettingCalls | appsflyer/src/main/java/com/tealium/remotecommands/appsflyer/AppsFlyerInstance.kt:134-150 | `out_of_store` and `extension` are forwarded exactly when the value is a string. Any other value is ignored. |
| AppsFlyerInstanceModel.LogLevelSettingCalls | appsflyer/src/main/java/com/tealium/remotecommands/appsflyer/AppsFlyerInstance.kt:118-124 | The log level is set exactly when the string names a known level, and it is set to that level. |
| AppsFlyerInstanceModel.EmailSettingCalls | appsflyer/src/main/java/com/tealium/remotecommands/appsflyer/AppsFlyerInstance.kt:87-94 | A list of emails is forwarded with the crypt type at `email_hash_type`. The type is `NONE` when that key is absent. |
| AppsFlyerInstanceModel.CustomDataSettingCalls | appsflyer/src/main/java/com/tealium/remotecommands/appsflyer/AppsFlyerInstance.kt:38-51 | Custom data forwards exactly the string-valued fields of the object. |
| AppsFlyerInstanceModel.JsonSettings | appsflyer/src/main/java/com/tealium/remotecommands/appsflyer/AppsFlyerRemoteCommand.kt:157-162 | The settings handed on from a request hold the same keys as the `settings` object, each with its JSON value. |
| AppsFlyerInstanceModel.JsonSettingsSkipListsAndPreinstall | appsflyer/src/main/java/com/tealium/remotecommands/appsflyer/AppsFlyerInstance.kt:80-107 | Settings that come from a request's JSON never trigger the OneLink-domain, email, deep-link or preinstall blocks, because their values are never Kotlin lists or maps. This row also covers lines 152-163. |
| AppsFlyerInstanceModel.HashIndex | appsflyer/src/main/java/com/tealium/remotecommands/appsflyer/AppsFlyerInstance.kt:90 | The hash index is a 32-bit value. It is 0 when the key is missing, and a non-zero index comes from an `Int` setting. |
| AppsFlyerInstanceModel.UpdatedDevKey | appsflyer/src/main/java/com/tealium/remotecommands/appsflyer/AppsFlyerInstance.kt:165-167 | The new key is the stored one or the argument. A stored key is never lost, and only a non-empty argument changes it. |
| AppsFlyerInstanceModel.StartCalls | appsflyer/src/main/java/com/tealium/remotecommands/appsflyer/AppsFlyerInstance.kt:169-176 | The SDK is started exactly when a key is stored, and initialised with exactly that key. The missing-key error is logged exactly when no key is stored. |
| AppsFlyerInstanceModel.InitializeCalls | appsflyer/src/main/java/com/tealium/remotecommands/appsflyer/AppsFlyerInstance.kt:25-177 | Without settings, `initialize` only starts. Its last call is always `start`, or the missing-key error when no key is stored. |
| AppsFlyerInstanceModel.DevKeyRules | appsflyer/src/main/java/com/tealium/remotecommands/appsflyer/AppsFlyerInstance.kt:165-167 | A non-empty dev key replaces the stored one, and a missing or empty one keeps it. A stored key is never lost, and the update is idempotent. |
| AppsFlyerInstanceModel.StringObject | appsflyer/src/main/java/com/tealium/remotecommands/appsflyer/AppsFlyerInstance.kt:341-354 | A map of strings read as a JSON object has the same keys, each holding its string. |
| AppsFlyerInstanceModel.StringFieldsOfStringObject | appsflyer/src/main/java/com/tealium/remotecommands/appsflyer/AppsFlyerInstance.kt:341-354 | `toMap` of an object whose fields are all strings gives back those strings. |
| AppsFlyerInstanceModel.StringFieldsLossless | appsflyer/src/main/java/com/tealium/remotecommands/appsflyer/AppsFlyerInstance.kt:341-354 | `toMap` loses nothing exactly when every field of the object is a string. |
| AppsFlyerInstanceModel.PurchaseTypeOf | appsflyer/src/main/java/com/tealium/remotecommands/appsflyer/AppsFlyerInstance.kt:281-285 | `"subscription"` selects a subscription, and only a name of the same length can. |
| KotlinText.EqualsIgnoreCase | appsflyer/src/main/java/com/tealium/remotecommands/appsflyer/AppsFlyerInstance.kt:281 | Every string equals itself ignoring case, and strings equal ignoring case have the same length. |
| KotlinText.EqualsIgnoreCaseSymmetric | appsflyer/src/main/java/com/tealium/remotecommands/appsflyer/AppsFlyerInstance.kt:281 | Comparing ignoring case does not depend on the order of the two strings. |
| AppsFlyerInstanceModel.PurchaseTypeAscii | appsflyer/src/main/java/com/tealium/remotecommands/appsflyer/AppsFlyerInstance.kt:281-285 | An ASCII name selects a subscription exactly when it is `"subscription"` up to case. Every other ASCII name selects a one-time purchase. |
| KotlinText.CharEqualsIgnoreCaseAscii | appsflyer/src/main/java/com/tealium/remotecommands/appsflyer/AppsFlyerInstance.kt:281 | An ASCII character equals a letter `a`..`z` ignoring case exactly when it lowers to that letter. |
| KotlinText.EqualsIgnoreCaseAscii | appsflyer/src/main/java/com/tealium/remotecommands/appsflyer/AppsFlyerInstance.kt:281 | An ASCII string equals a word of the letters `a`..`z` ignoring case exactly when it lowers to that word. |
| AppsFlyerInstanceModel.PurchaseTypeIgnoresCase | appsflyer/src/main/java/com/tealium/remotecommands/appsflyer/AppsFlyerInstance.kt:281-285 | The purchase type does not change when its name is lower-cased (`A`..`Z` and U+212A). |
| AppsFlyerInstanceModel.PurchaseTypeExamples | appsflyer/src/main/java/com/tealium/remotecommands/appsflyer/AppsFlyerInstance.kt:281-285 | `"subscription"` selects a subscription. `""` and `"subscriptions"` select a one-time purchase. |
| AppsFlyerInstanceModel.PurchaseTypeUpperCase | appsflyer/src/main/java/com/tealium/remotecommands/appsflyer/AppsFlyerInstance.kt:281-285 | `"SUBSCRIPTION"` also selects a subscription. |
| AppsFlyerInstanceModel.AppsFlyerInstance.Initialize | appsflyer/src/main/java/com/tealium/remotecommands/appsflyer/AppsFlyerInstance.kt:25-177 | The stored dev key becomes the updated key. The SDK log grows by exactly `InitializeCalls`: the settings blocks in order, then `init` and `start` or the missing-key error. |
| AppsFlyerInstanceModel.AppsFlyerInstance.ApplySettings | appsflyer/src/main/java/com/tealium/remotecommands/appsflyer/AppsFlyerInstance.kt:29-164 | Running the settings blocks appends exactly the interpreter's calls for all 22 blocks. |
| AppsFlyerInstanceModel.AppsFlyerInstance.ApplyOriginalSettings | appsflyer/src/main/java/com/tealium/remotecommands/appsflyer/AppsFlyerInstance.kt:30-55 | Appends exactly the calls of blocks one to four. |
| AppsFlyerInstanceModel.AppsFlyerInstance.ApplyIdentifierOptions | appsflyer/src/main/java/com/tealium/remotecommands/appsflyer/AppsFlyerInstance.kt:58-78 | Appends exactly the calls of blocks five to nine. |
| AppsFlyerInstanceModel.AppsFlyerInstance.ApplyLinkOptions | appsflyer/src/main/java/com/tealium/remotecommands/appsflyer/AppsFlyerInstance.kt:80-107 | Appends exactly the calls of blocks ten to thirteen. |
| AppsFlyerInstanceModel.AppsFlyerInstance.ApplyDeviceOptions | appsflyer/src/main/java/com/tealium/remotecommands/appsflyer/AppsFlyerInstance.kt:110-132 | Appends exactly the calls of blocks fourteen to eighteen. |
| AppsFlyerInstanceModel.AppsFlyerInstance.ApplyInstallOptions | appsflyer/src/main/java/com/tealium/remotecommands/appsflyer/AppsFlyerInstance.kt:134-163 | Appends exactly the calls of blocks nineteen to twenty-two. |
| AppsFlyerInstanceModel.AppsFlyerInstance.ApplySetting | appsflyer/src/main/java/com/tealium/remotecommands/appsflyer/AppsFlyerInstance.kt:38-51 | One block appends exactly that block's calls. For custom data, the iterator loop collects exactly the string fields. |
| AppsFlyerInstanceModel.AppsFlyerInstance.InitAndStartAppsFlyer | appsflyer/src/main/java/com/tealium/remotecommands/appsflyer/AppsFlyerInstance.kt:356-365 | Appends `init(devKey)` and then `start`. |
| AppsFlyerInstanceModel.AppsFlyerInstance.SetHost | appsflyer/src/main/java/com/tealium/remotecommands/appsflyer/AppsFlyerInstance.kt:187-191 | Appends exactly the host calls: nothing for a null prefix, and `setHost(host, prefix)` otherwise. |
| AppsFlyerInstanceModel.AppsFlyerInstance.LogAdRevenue | appsflyer/src/main/java/com/tealium/remotecommands/appsflyer/AppsFlyerInstance.kt:225-251 | Appends exactly the ad-revenue entry: the SDK call for a known network, and the error for an unknown one. |
| AppsFlyerInstanceModel.AppsFlyerInstance.ValidateAndLogPurchase | appsflyer/src/main/java/com/tealium/remotecommands/appsflyer/AppsFlyerInstance.kt:272-303 | Appends one purchase-validation call. Its purchase type is chosen case-insensitively from `"subscription"`. |
| AppsFlyerInstanceModel.ToMap | appsflyer/src/main/java/com/tealium/remotecommands/appsflyer/AppsFlyerInstance.kt:341-354 | The loop over the object's keys builds exactly the map of its string-valued fields. |

## Left out

- The AppsFlyer SDK and `android.util.Log`: both become one append-only log of calls and error messages. What the SDK does with a call is outside the model.
- The dispatcher logs only errors, with `Log.e`, and these logs are left out. Where they are reachable the model makes no call: a missing currency code, customer id or host (`AppsFlyerRemoteCommand.kt` lines 85, 96 and 192), and a missing or non-array `af_deep_link` for `resolvedeeplinkurls` (lines 119-124). The logs at lines 108 and 174 cannot be reached, because `optBoolean` and `optDouble` never return null.
- The Android lifecycle is left out: `getApplication`, the activity callbacks and `weakActivity`. `start` is recorded without its context argument.
- The conversion-data listener of `init` is left out, as are its callbacks.
- `LogLevel.fromString` and `MediationNetwork.fromString` become function parameters of the instance (`logLevelOf` and `mediationNetworkOf`). Their tables are not part of this model.
- Unchecked Kotlin casts (`as Int`, `as Boolean`, `as String`, `as JSONObject`) become the precondition `WellTyped`. A settings value of the wrong type would throw `ClassCastException`; the model does not represent that throw.
- Unchecked payload accesses become the `Admissible` precondition. This applies to `getString(i)` in `toList`, which in org.json also turns numbers into strings. The model requires every array element to be a string.
- `EmailsCryptType.values()[hashType]` with an out-of-range index would throw; `WellTyped` requires a valid index whenever the emails are a list.
- `EmailsCryptType.values()` belongs to the SDK; the model takes it to be `[NONE, SHA256]` (`EmailsCryptTypes`).
- A settings list holding a non-string would make `toTypedArray` throw `ArrayStoreException`; `StringListAt` in `WellTyped` excludes that case.
- `AFLogger.LogLevel.valueOf` can throw `IllegalArgumentException` for an unknown name; `logLevelOf` returns `None` for such a name, so the model makes no call where the source would throw.
- The `try`/`catch` blocks of `logAdRevenue` and `validateAndLogPurchase` are left out, and so is `toMap`'s `catch (ex: JSONException)` with its `Log.e` (`AppsFlyerInstance.kt` lines 349-351). Nothing in the modelled bodies throws.
- Lowercase: `toLowerCase(Locale.ROOT)` also lowers the non-ASCII upper-case letters and maps U+0130 to two characters (`i` and U+0307). The model lowers only `A`..`Z` and U+212A, the only characters whose lower case is an ASCII letter, so matching tokens against the all-ASCII command names and event keys agrees with the source. Strings holding other upper-case letters are lowered differently, and the length is always kept.
- EqualsIgnoreCase: folds only the case mappings that involve an ASCII letter (the ASCII letters, U+0130, U+0131, U+017F and U+212A). Other letters are not folded, so `"\u00C9"` and `"\u00E9"` (É and é) compare unequal, where Kotlin says equal. Its only caller compares against the all-ASCII `"subscription"`, where the two agree.
- PurchaseTypeAscii: the exact rule ("subscription up to case, and nothing else") is proved for ASCII names only. For a non-ASCII name, the model's comparison has the gap named on the `EqualsIgnoreCase:` line. For instance, U+0131 (dotless i) compares equal to `i`, as in Kotlin, but `Lowercase` keeps it.
- The SDK's 27 `AFInAppEventType` constants are assumed to be pairwise distinct strings. They are modelled as distinct constructors of `EventType` (`EventTypesDistinct`); their string values belong to the SDK.
- LowerChar: lowers only `A`..`Z` and U+212A; `Char.lowercaseChar` also lowers the other non-ASCII upper-case letters. No command name or event key contains one.
- Normalize: inherits the `Lowercase` gap. A token with a non-ASCII upper-case letter other than U+212A matches no name under either lowering, so no call changes. `|token| <= |piece|` holds of the model but not of the source when the piece contains U+0130.
- OptStringOr: org.json's `optString` returns the text of any non-null value that is not a string (`12345` gives `"12345"`; Android's org.json gives `"null"` for `JSONObject.NULL`). The model returns the default for such values; for example, a numeric `app_dev_key` becomes `""`.
- OptBoolean: org.json's `optBoolean` also accepts the strings `"true"` and `"false"` (ignoring case). The model takes only a JSON boolean.
- OptDouble: org.json's `optDouble` also parses numeric strings. The model gives NaN for any string.
- Floating point: a `Double` is an opaque real or NaN and is never computed with.
- The integer widths of org.json are left out. An `as Int` succeeds only on a 32-bit value (`IsInt32`); this covers the minimum time between sessions and the email hash type. Other numbers are unbounded.
- Iteration order of `jsonToMap`, `toMap` and the custom-data loop: the results are maps, so the order of insertion does not matter.
- The instance reads its setting keys through `Config.MIN_TIME_BETWEEN_SESSIONS` and similar names. The `Config` object defines only `APP_ID`, `DEV_KEY` and `SETTINGS`, so these keys are taken to be each constant's name in lower case. The dispatcher's currency key `Currency.CODE` is likewise taken to be `TransactionProperties.CURRENCY` (`af_currency`).
- Unused constants are not modelled: the `Settings` object and `Tracking.GCD_IS_FIRST_LAUNCH`. `EVENT_PARAMETERS_SHORT` and `Config.APP_ID` are declared but nothing reads them.
- The other `AppsFlyerInstance` operations each forward their arguments to one SDK method and are left out: `trackLocation`, `trackEvent`, `setUserEmails`, `setCurrencyCode`, `setCustomerId`, `disableDeviceTracking`, `resolveDeepLinkUrls`, `stopTracking`, `setDMAConsent`, `setPhoneNumber`, `addPushNotificationDeepLinkPath`, `setSharingFilterForPartners`, `appendCustomData`, `setDeviceLanguage`, `setPartnerData` and `appendParametersToDeepLinkUrl`.
- `AppsFlyerTracker.kt`, `AppsFlyerCommand.kt` and `AppsFlyerTrackable.kt` are not part of this model. The tracker the dispatcher calls is the `Tracker` call log, and `AppsFlyerInstance` is modelled directly.
- The dispatcher's `tracker` field is typed `AppsFlyerTrackable`, whose methods do not match the ones `parseCommands` calls. `TrackerCall` follows the calls `parseCommands` actually makes.
- The remote-command framework (`RemoteCommand`, `Response`) is left out; `OnInvoke` takes the request payload directly.

## Where the code and its description differ

The model follows the code in each of these cases:

- `tracklocation`, `disabledevicetracking` and `stoptracking` always make a call. `optDouble` and `optBoolean` never return null, so their "required key" paths cannot be reached. A missing coordinate is passed on as NaN.
- `launch` is a declared command name with no branch. Like any unknown token, it makes no call.
- Settings that come from a request's `settings` object are JSON values. The OneLink-domain, email, deep-link and preinstall blocks test for Kotlin `List` and `Map` values, so those blocks never fire for such settings (`JsonSettingsSkipListsAndPreinstall`).
