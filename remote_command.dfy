/**
 * The AppsFlyer remote command's dispatcher: `splitCommands` turns the
 * `command_name` field of a request into normalised command tokens, and
 * `parseCommands` turns each token into at most one call on the tracker.
 *
 * The tracker is modelled as a log of the calls made on it; `Trace` is the
 * specification of what one request appends to that log.
 */
module RemoteCommand {
  import opened Wrappers
  import opened KotlinText
  import opened JsonPayload
  import opened AppsFlyerConstants
  import opened Sequences

  /** One call the dispatcher makes on its tracker, with every argument. */
  datatype TrackerCall =
    | Initialize(devKey: string, configSettings: Option<map<string, Json>>)
    | TrackLocation(latitude: Double, longitude: Double)
    | SetHost(host: string, hostPrefix: Option<string>)
    | TrackEvent(eventType: EventType, eventParameters: Option<map<string, Json>>)
    | SetUserEmails(emails: seq<string>)
    | SetCurrencyCode(currency: string)
    | SetCustomerId(id: string)
    | DisableDeviceTracking(disable: bool)
    | ResolveDeepLinkUrls(links: seq<string>)
    | StopTracking(isTrackingStopped: bool)

  /**
   * The default of the tracker's `setHost(host, hostPrefix = "")`: the
   * one-argument call `setHost(host)` passes this prefix.
   */
  const DEFAULT_HOST_PREFIX: string := ""

  // ---- splitCommands --------------------------------------------------------

  /** One piece of the command string, trimmed and lower-cased. */
  function Normalize(piece: string): (token: string)
    ensures |token| <= |piece|
    ensures token == [] || (!IsWhitespace(token[0]) && !IsWhitespace(token[|token| - 1]))
    ensures IsLowerCase(token)
    ensures token == [] <==> IsBlank(piece)
  {
    var trimmed := Trim(piece);
    var token := Lowercase(trimmed);
    assert token != [] ==> token[0] == LowerChar(trimmed[0]) && token[|token| - 1] == LowerChar(trimmed[|trimmed| - 1]);
    token
  }

  /** The request's command string, `""` when it has none. */
  function CommandString(p: Payload): string {
    OptStringOr(p, COMMAND_KEY, "")
  }

  /** `splitCommands`: the normalised pieces of `command_name` (empty when absent). */
  function SplitCommands(payload: Payload): (commands: seq<string>)
    ensures |commands| >= 1
  {
    var pieces := Split(CommandString(payload), SEPARATOR);
    seq(|pieces|, i requires 0 <= i < |pieces| => Normalize(pieces[i]))
  }

  // ---- parseCommands, as a specification -------------------------------------

  /** `toList` as a function: the strings of an array of strings, in order. */
  function StringList(items: seq<Json>): (list: seq<string>)
    requires AllStrings(items)
    ensures |list| == |items|
    ensures forall i :: 0 <= i < |items| ==> items[i] == JString(list[i])
  {
    seq(|items|, i requires 0 <= i < |items| => items[i].s)
  }

  /** `standardEvent`: the alias table lookup. */
  function StandardEvent(commandName: string): (r: Option<EventType>)
    ensures r.Some? <==> commandName in EventKeys
    ensures r.Some? ==> exists i :: 0 <= i < |EventKeys| && EventKeys[i] == commandName && EventTypes[i] == r.value
  {
    EventNamesWellFormed();
    if commandName in EventNames then Some(EventNames[commandName]) else None
  }

  /** The array read by a list command holds only strings (`getString` does not throw). */
  predicate StringArrayAt(p: Payload, key: string) {
    OptJsonArray(p, key).Some? ==> AllStrings(OptJsonArray(p, key).value)
  }

  /** What `parseCommands` demands of the payload for one token. */
  predicate Admissible(command: string, p: Payload) {
    && (command == SET_USER_EMAILS ==> StringArrayAt(p, EMAILS))
    && (command == RESOLVE_DEEPLINK_URLS ==> StringArrayAt(p, DEEP_LINK_URLS))
  }

  predicate AllAdmissible(commands: seq<string>, p: Payload) {
    forall i :: 0 <= i < |commands| ==> Admissible(commands[i], p)
  }

  /** The tracker calls one token of `parseCommands` makes, following its `when` branches. */
  function TokenCalls(command: string, p: Payload): (calls: seq<TrackerCall>)
    requires Admissible(command, p)
    ensures |calls| <= 1
  {
    if command == INITIALIZE then
      [TrackerCall.Initialize(OptString(p, DEV_KEY), Some(OptJsonObject(p, SETTINGS).GetOr(map[])))]
    else if command == TRACK_LOCATION then
      [TrackerCall.TrackLocation(OptDouble(p, LATITUDE), OptDouble(p, LONGITUDE))]
    else if command == SET_HOST then
      var host := OptString(p, HOST);
      var hostPrefix := OptString(p, HOST_PREFIX);
      if host != "" then
        if hostPrefix != "" then [TrackerCall.SetHost(host, Some(hostPrefix))]
        else [TrackerCall.SetHost(host, Some(DEFAULT_HOST_PREFIX))]
      else []
    else if command == SET_USER_EMAILS then
      match OptJsonArray(p, EMAILS)
      case Some(emails) => [SetUserEmails(StringList(emails))]
      case None => []
    else if command == SET_CURRENCY_CODE then
      var currencyCode := OptString(p, CURRENCY);
      if currencyCode != "" then [SetCurrencyCode(currencyCode)] else []
    else if command == SET_CUSTOMER_ID then
      var id := OptString(p, USER_ID);
      if id != "" then [SetCustomerId(id)] else []
    else if command == DISABLE_DEVICE_TRACKING then
      [DisableDeviceTracking(OptBoolean(p, TRACKING_DISABLE_DEVICE_TRACKING))]
    else if command == RESOLVE_DEEPLINK_URLS then
      match OptJsonArray(p, DEEP_LINK_URLS)
      case Some(links) => [ResolveDeepLinkUrls(StringList(links))]
      case None => []
    else if command == STOP_TRACKING then
      [StopTracking(OptBoolean(p, TRACKING_STOP_TRACKING))]
    else
      match StandardEvent(command)
      case None => []
      case Some(eventType) =>
        match OptJsonObject(p, EVENT_PARAMETERS)
        case Some(eventParameters) => [TrackEvent(eventType, Some(eventParameters))]
        case None => [TrackEvent(eventType, None)]
  }

  /**
   * The calls `parseCommands` makes for a list of tokens: each token's calls,
   * in order. Every token makes at most one call.
   */
  function Trace(commands: seq<string>, p: Payload): (calls: seq<TrackerCall>)
    requires AllAdmissible(commands, p)
    ensures |calls| <= |commands|
  {
    if commands == [] then []
    else TokenCalls(commands[0], p) + Trace(commands[1..], p)
  }

  // ---- The tracker and the dispatcher ---------------------------------------

  /** The tracker (`AppsFlyerTrackable`) as the log of the calls made on it. */
  class Tracker {
    var calls: seq<TrackerCall>

    constructor ()
      ensures calls == []
    {
      calls := [];
    }

    method Record(call: TrackerCall)
      modifies this
      ensures calls == old(calls) + [call]
    {
      calls := calls + [call];
    }
  }

  class AppsFlyerRemoteCommand {
    var tracker: Tracker

    constructor (tracker: Tracker)
      ensures this.tracker == tracker
    {
      this.tracker := tracker;
    }

    /** `onInvoke`: split the request's command string and run every token. */
    method OnInvoke(payload: Payload)
      requires AllAdmissible(SplitCommands(payload), payload)
      modifies tracker
      ensures tracker.calls == old(tracker.calls) + Trace(SplitCommands(payload), payload)
    {
      var commands := SplitCommands(payload);
      ParseCommands(commands, payload);
    }

    /** `parseCommands`: the tokens in order, each through its `when` branch. */
    method ParseCommands(commands: seq<string>, payload: Payload)
      requires AllAdmissible(commands, payload)
      modifies tracker
      ensures tracker.calls == old(tracker.calls) + Trace(commands, payload)
    {
      var i := 0;
      while i < |commands|
        invariant 0 <= i <= |commands| && AllAdmissible(commands[..i], payload)
        invariant tracker.calls == old(tracker.calls) + Trace(commands[..i], payload)
      {
        var command := commands[i];
        TracePrefix(commands, i, payload);
        ParseCommand(command, payload);
        AppendAssoc(old(tracker.calls), Trace(commands[..i], payload), TokenCalls(command, payload));
        i := i + 1;
      }
      assert commands[..i] == commands;
    }

    /** One token of `parseCommands`: the first `when` branch it matches, or none. */
    method ParseCommand(command: string, payload: Payload)
      requires Admissible(command, payload)
      modifies tracker
      ensures tracker.calls == old(tracker.calls) + TokenCalls(command, payload)
    {
      if command == INITIALIZE {
        Initialize(payload);
      } else if command == TRACK_LOCATION {
        TrackLocation(payload);
      } else if command == SET_HOST {
        SetHost(payload);
      } else if command == SET_USER_EMAILS {
        var emails := OptJsonArray(payload, EMAILS);
        if emails.Some? {
          var emailList := ToList(emails.value);
          assert emailList == StringList(emails.value);
          tracker.Record(SetUserEmails(emailList));
        }
      } else if command == SET_CURRENCY_CODE {
        var currencyCode := OptString(payload, CURRENCY);
        if currencyCode != "" {
          tracker.Record(SetCurrencyCode(currencyCode));
        }
      } else if command == SET_CUSTOMER_ID {
        var id := OptString(payload, USER_ID);
        if id != "" {
          tracker.Record(SetCustomerId(id));
        }
      } else if command == DISABLE_DEVICE_TRACKING {
        var disableTracking := OptBoolean(payload, TRACKING_DISABLE_DEVICE_TRACKING);
        tracker.Record(DisableDeviceTracking(disableTracking));
      } else if command == RESOLVE_DEEPLINK_URLS {
        var deepLinkJsonArray := OptJsonArray(payload, DEEP_LINK_URLS);
        if deepLinkJsonArray.Some? {
          var deepLinkList := ToList(deepLinkJsonArray.value);
          assert deepLinkList == StringList(deepLinkJsonArray.value);
          tracker.Record(ResolveDeepLinkUrls(deepLinkList));
        }
      } else if command == STOP_TRACKING {
        var stopTracking := OptBoolean(payload, TRACKING_STOP_TRACKING);
        tracker.Record(StopTracking(stopTracking));
      } else {
        var eventType := StandardEvent(command);
        if eventType.Some? {
          var eventParameters := OptJsonObject(payload, EVENT_PARAMETERS);
          if eventParameters.Some? {
            var paramsMap := JsonToMap(eventParameters);
            tracker.Record(TrackEvent(eventType.value, Some(paramsMap)));
          } else {
            tracker.Record(TrackEvent(eventType.value, None));
          }
        }
      }
    }

    /** The private `initialize`: the dev key (or "") and a copy of `settings` (or an empty map). */
    method Initialize(payload: Payload)
      modifies tracker
      ensures tracker.calls == old(tracker.calls) + TokenCalls(INITIALIZE, payload)
    {
      var devKey := OptString(payload, DEV_KEY);
      var config := OptJsonObject(payload, SETTINGS);
      var configSettings := JsonToMap(config);
      tracker.Record(TrackerCall.Initialize(devKey, Some(configSettings)));
    }

    /** The private `trackLocation`: both coordinates, `NaN` for a missing one. */
    method TrackLocation(payload: Payload)
      modifies tracker
      ensures tracker.calls == old(tracker.calls) + TokenCalls(TRACK_LOCATION, payload)
    {
      var latitude := OptDouble(payload, LATITUDE);
      var longitude := OptDouble(payload, LONGITUDE);
      tracker.Record(TrackerCall.TrackLocation(latitude, longitude));
    }

    /** The private `setHost`: nothing without a host, the prefix only when it is not empty. */
    method SetHost(payload: Payload)
      modifies tracker
      ensures tracker.calls == old(tracker.calls) + TokenCalls(SET_HOST, payload)
    {
      var host := OptString(payload, HOST);
      var hostPrefix := OptString(payload, HOST_PREFIX);
      if host != "" {
        if hostPrefix != "" {
          tracker.Record(TrackerCall.SetHost(host, Some(hostPrefix)));
        } else {
          tracker.Record(TrackerCall.SetHost(host, Some(DEFAULT_HOST_PREFIX)));
        }
      }
    }
  }

  /** `jsonToMap`: a key-for-key copy of the object, an empty map for `null`. */
  method JsonToMap(jsonObject: Option<Payload>) returns (m: map<string, Json>)
    ensures jsonObject.None? ==> m == map[]
    ensures jsonObject.Some? ==> m == jsonObject.value
  {
    m := map[];
    if jsonObject.Some? {
      var it := jsonObject.value;
      var keys := it.Keys;
      while keys != {}
        invariant keys <= it.Keys
        invariant m.Keys == it.Keys - keys
        invariant forall k :: k in m ==> m[k] == it[k]
        decreases keys
      {
        var key :| key in keys;
        m := m[key := it[key]];
        keys := keys - {key};
      }
    }
  }

  /** `toList`: the strings of the array, one by one, in order. */
  method ToList(jsonArray: seq<Json>) returns (list: seq<string>)
    requires AllStrings(jsonArray)
    ensures |list| == |jsonArray|
    ensures forall i :: 0 <= i < |jsonArray| ==> jsonArray[i] == JString(list[i])
  {
    list := [];
    for i := 0 to |jsonArray|
      invariant |list| == i
      invariant forall j :: 0 <= j < i ==> jsonArray[j] == JString(list[j])
    {
      var item := jsonArray[i].s;
      list := list + [item];
    }
  }

  // ---- Properties --------------------------------------------------------------

  /** Running one more token appends that token's calls. */
  lemma TraceSnoc(commands: seq<string>, command: string, p: Payload)
    requires AllAdmissible(commands, p) && Admissible(command, p)
    ensures AllAdmissible(commands + [command], p)
    ensures Trace(commands + [command], p) == Trace(commands, p) + TokenCalls(command, p)
  {
    var last := [command];
    assert last[0] == command && last[1..] == [];
    assert Trace(last, p) == TokenCalls(command, p) + Trace([], p);
    TraceAppend(commands, last, p);
  }

  /** The calls for two token lists run one after the other are the calls of each, in order. */
  lemma {:induction false} TraceAppend(a: seq<string>, b: seq<string>, p: Payload)
    requires AllAdmissible(a, p) && AllAdmissible(b, p)
    ensures AllAdmissible(a + b, p)
    ensures Trace(a + b, p) == Trace(a, p) + Trace(b, p)
  {
    var ab := a + b;
    if a == [] {
      assert ab == b;
    } else {
      assert ab[0] == a[0];
      assert ab[1..] == a[1..] + b;
      TraceAppend(a[1..], b, p);
      assert AllAdmissible(ab, p);
      assert Trace(ab, p) == TokenCalls(a[0], p) + Trace(a[1..] + b, p);
      AppendAssoc(TokenCalls(a[0], p), Trace(a[1..], p), Trace(b, p));
    }
  }

  /** The calls of the first `i + 1` tokens are those of the first `i` and then token `i`'s. */
  lemma TracePrefix(commands: seq<string>, i: nat, p: Payload)
    requires AllAdmissible(commands, p) && i < |commands|
    ensures AllAdmissible(commands[..i], p) && Admissible(commands[i], p)
    ensures AllAdmissible(commands[..i + 1], p)
    ensures Trace(commands[..i + 1], p) == Trace(commands[..i], p) + TokenCalls(commands[i], p)
  {
    var done := commands[..i];
    assert forall k :: 0 <= k < |done| ==> done[k] == commands[k];
    assert commands[..i + 1] == done + [commands[i]];
    TraceSnoc(done, commands[i], p);
  }

  /** A blank token (the empty token included) makes no call. */
  lemma BlankTokenNoCalls(command: string, p: Payload)
    requires IsBlank(command)
    ensures Admissible(command, p)
    ensures TokenCalls(command, p) == []
  {
    BlankIsNoName(command);
    UnknownTokenNoCalls(command, p);
  }

  /** No command name and no event alias is blank. */
  lemma BlankIsNoName(command: string)
    requires IsBlank(command)
    ensures command !in ControlCommands && command !in EventKeys
  {
    ControlCommandsWellFormed();
    EventKeysAreWords();
    forall i | 0 <= i < |ControlCommands| ensures ControlCommands[i] != command {
      TokenNameNotBlank(ControlCommands[i], command);
    }
    forall i | 0 <= i < |EventKeys| ensures EventKeys[i] != command {
      LowerWordIsTokenName(EventKeys[i]);
      TokenNameNotBlank(EventKeys[i], command);
    }
  }

  lemma TokenNameNotBlank(name: string, s: string)
    requires IsTokenName(name) && IsBlank(s)
    ensures name != s
  {
    if s != [] {
      assert IsWhitespace(s[0]);
    }
  }

  /** A blank token among other tokens does not change their calls. */
  lemma BlankTokenIgnored(before: seq<string>, command: string, after: seq<string>, p: Payload)
    requires IsBlank(command)
    requires AllAdmissible(before, p) && AllAdmissible(after, p)
    ensures AllAdmissible(before + [command] + after, p)
    ensures Trace(before + [command] + after, p) == Trace(before + after, p)
  {
    var rest := [command] + after;
    BlankHead(command, after, p);
    TraceAppend(before, rest, p);
    TraceAppend(before, after, p);
    assert before + [command] + after == before + rest;
  }

  /** A blank token in front adds no call. */
  lemma BlankHead(command: string, after: seq<string>, p: Payload)
    requires IsBlank(command) && AllAdmissible(after, p)
    ensures AllAdmissible([command] + after, p)
    ensures Trace([command] + after, p) == Trace(after, p)
  {
    BlankTokenNoCalls(command, p);
    var rest := [command] + after;
    assert rest[0] == command && rest[1..] == after;
    assert AllAdmissible(rest, p);
  }

  /** A token that is neither a command nor an event alias, `launch` among them, makes no call. */
  lemma UnknownTokenNoCalls(command: string, p: Payload)
    requires command !in ControlCommands && command !in EventKeys
    ensures Admissible(command, p)
    ensures TokenCalls(command, p) == []
    ensures TokenCalls(LAUNCH, p) == []
  {
    ControlCommandsNotEvents();
    assert ControlCommands[9] == LAUNCH;
  }

  /**
   * `sethost` calls the tracker only with a host; an empty `host_prefix`
   * takes the one-argument call, whose prefix is the default.
   */
  lemma SetHostCalls(p: Payload)
    ensures OptString(p, HOST) == "" ==> TokenCalls(SET_HOST, p) == []
    ensures OptString(p, HOST) != "" && OptString(p, HOST_PREFIX) != "" ==>
      TokenCalls(SET_HOST, p) == [TrackerCall.SetHost(OptString(p, HOST), Some(OptString(p, HOST_PREFIX)))]
    ensures OptString(p, HOST) != "" && OptString(p, HOST_PREFIX) == "" ==>
      TokenCalls(SET_HOST, p) == [TrackerCall.SetHost(OptString(p, HOST), Some(DEFAULT_HOST_PREFIX))]
    ensures TokenCalls(SET_HOST, p) != [] <==> NonEmptyStringAt(p, HOST)
  {
  }

  /** The request field is a non-empty string. */
  predicate NonEmptyStringAt(p: Payload, key: string) {
    key in p && p[key].JString? && p[key].s != ""
  }

  /** `setcurrencycode` and `setcustomerid` call the tracker exactly when their value is a non-empty string. */
  lemma RequiredStringCalls(p: Payload)
    ensures TokenCalls(SET_CURRENCY_CODE, p) != [] <==> NonEmptyStringAt(p, CURRENCY)
    ensures NonEmptyStringAt(p, CURRENCY) ==> TokenCalls(SET_CURRENCY_CODE, p) == [SetCurrencyCode(p[CURRENCY].s)]
    ensures TokenCalls(SET_CUSTOMER_ID, p) != [] <==> NonEmptyStringAt(p, USER_ID)
    ensures NonEmptyStringAt(p, USER_ID) ==> TokenCalls(SET_CUSTOMER_ID, p) == [SetCustomerId(p[USER_ID].s)]
  {
  }

  /**
   * `setuseremails` and `resolvedeeplinkurls` call the tracker exactly when
   * their field is an array, and pass its strings on in order.
   */
  lemma ListCalls(p: Payload)
    requires StringArrayAt(p, EMAILS) && StringArrayAt(p, DEEP_LINK_URLS)
    ensures TokenCalls(SET_USER_EMAILS, p) != [] <==> EMAILS in p && p[EMAILS].JArray?
    ensures TokenCalls(SET_USER_EMAILS, p) != [] ==>
      var call := TokenCalls(SET_USER_EMAILS, p)[0];
      call.SetUserEmails? && |call.emails| == |p[EMAILS].items| &&
      forall i :: 0 <= i < |call.emails| ==> p[EMAILS].items[i] == JString(call.emails[i])
    ensures TokenCalls(RESOLVE_DEEPLINK_URLS, p) != [] <==> DEEP_LINK_URLS in p && p[DEEP_LINK_URLS].JArray?
    ensures TokenCalls(RESOLVE_DEEPLINK_URLS, p) != [] ==>
      var call := TokenCalls(RESOLVE_DEEPLINK_URLS, p)[0];
      call.ResolveDeepLinkUrls? && |call.links| == |p[DEEP_LINK_URLS].items| &&
      forall i :: 0 <= i < |call.links| ==> p[DEEP_LINK_URLS].items[i] == JString(call.links[i])
  {
  }

  /**
   * `initialize`, `tracklocation`, `disabledevicetracking` and
   * `stoptracking` always make exactly one call; a missing field takes the
   * accessor's default.
   */
  lemma AlwaysOneCall(p: Payload)
    ensures TokenCalls(INITIALIZE, p) == [TrackerCall.Initialize(OptString(p, DEV_KEY), Some(OptJsonObject(p, SETTINGS).GetOr(map[])))]
    ensures TokenCalls(TRACK_LOCATION, p) == [TrackerCall.TrackLocation(OptDouble(p, LATITUDE), OptDouble(p, LONGITUDE))]
    ensures TokenCalls(DISABLE_DEVICE_TRACKING, p) == [DisableDeviceTracking(OptBoolean(p, TRACKING_DISABLE_DEVICE_TRACKING))]
    ensures TokenCalls(STOP_TRACKING, p) == [StopTracking(OptBoolean(p, TRACKING_STOP_TRACKING))]
  {
  }

  /** With none of their fields, those four commands pass `""`, an empty map, `NaN` and `false`. */
  lemma MissingFieldDefaults()
    ensures TokenCalls(INITIALIZE, map[]) == [TrackerCall.Initialize("", Some(map[]))]
    ensures TokenCalls(TRACK_LOCATION, map[]) == [TrackerCall.TrackLocation(NaN, NaN)]
    ensures TokenCalls(DISABLE_DEVICE_TRACKING, map[]) == [DisableDeviceTracking(false)]
    ensures TokenCalls(STOP_TRACKING, map[]) == [StopTracking(false)]
  {
  }

  /**
   * A token that is not a handled command tracks an event exactly when it
   * is an alias of the table, with that alias's event type and the
   * `event_parameters` object when there is one.
   */
  lemma StandardEventCalls(command: string, p: Payload)
    requires command !in HandledCommands
    ensures Admissible(command, p)
    ensures TokenCalls(command, p) != [] <==> command in EventKeys
    ensures command in EventKeys ==>
      TokenCalls(command, p) == [TrackEvent(EventNames[command], OptJsonObject(p, EVENT_PARAMETERS))]
  {
    var r := StandardEvent(command);
    assert r.Some? ==> r.value == EventNames[command];
    assert TokenCalls(command, p) == match r
      case None => []
      case Some(eventType) => [TrackEvent(eventType, OptJsonObject(p, EVENT_PARAMETERS))];
  }

  /** Each alias of the table tracks its own event type. */
  lemma EventAliasCalls(i: int, p: Payload)
    requires 0 <= i < |EventKeys|
    ensures Admissible(EventKeys[i], p)
    ensures TokenCalls(EventKeys[i], p) == [TrackEvent(EventTypes[i], OptJsonObject(p, EVENT_PARAMETERS))]
  {
    EventKeyNotHandled(i);
    StandardEventCalls(EventKeys[i], p);
    EventNamesWellFormed();
  }

  /** No event alias is a handled command name. */
  lemma EventKeyNotHandled(i: int)
    requires 0 <= i < |EventKeys|
    ensures EventKeys[i] !in HandledCommands
  {
    EventKeyIsName(i);
    ControlCommandsNotEvents();
    forall j | 0 <= j < |HandledCommands| ensures HandledCommands[j] != EventKeys[i] {
      assert HandledCommands[j] == ControlCommands[j];
    }
  }

  /**
   * `splitCommands` gives one token per comma-separated piece of the
   * command string, in order: for any decomposition of that string into
   * comma-free pieces, the tokens are those pieces normalised.
   */
  lemma SplitCommandsPieces(p: Payload, pieces: seq<string>)
    requires |pieces| >= 1 && forall i :: 0 <= i < |pieces| ==> SEPARATOR !in pieces[i]
    requires Join(pieces, SEPARATOR) == CommandString(p)
    ensures |SplitCommands(p)| == |pieces|
    ensures forall i :: 0 <= i < |pieces| ==> SplitCommands(p)[i] == Normalize(pieces[i])
  {
    SplitJoin(pieces, SEPARATOR);
  }

  /** There is one token more than the command string has commas. */
  lemma SplitCommandsCount(p: Payload)
    ensures |SplitCommands(p)| == multiset(CommandString(p))[SEPARATOR] + 1
  {
    SplitCount(CommandString(p), SEPARATOR);
  }

  /** A request without a command string yields the single empty token, and so no call. */
  lemma NoCommandNameNoCalls(p: Payload)
    requires COMMAND_KEY !in p
    ensures SplitCommands(p) == [""]
    ensures AllAdmissible(SplitCommands(p), p)
    ensures Trace(SplitCommands(p), p) == []
  {
    assert Split("", SEPARATOR) == [""];
    BlankTokenNoCalls("", p);
  }

  /** Normalising a token again changes nothing. */
  lemma NormalizeIdempotent(piece: string)
    ensures Normalize(Normalize(piece)) == Normalize(piece)
  {
    var token := Normalize(piece);
    assert token == [] || (!IsWhitespace(token[0]) && !IsWhitespace(token[|token| - 1]));
    assert IsLowerCase(token);
    NormalizedIsFixed(token);
  }

  /** A string with no whitespace at its ends and no upper-case letter is its own token. */
  lemma NormalizedIsFixed(t: string)
    requires t == [] || (!IsWhitespace(t[0]) && !IsWhitespace(t[|t| - 1]))
    requires IsLowerCase(t)
    ensures Normalize(t) == t
  {
    TrimTrimmed(t);
    LowercaseLower(t);
  }

  /** A command name or event alias sent alone reaches `parseCommands` unchanged. */
  lemma NameSurvivesSplit(p: Payload, name: string)
    requires IsTokenName(name) && CommandString(p) == name
    ensures SplitCommands(p) == [name]
  {
    SplitFree(name, SEPARATOR);
    NormalizedIsFixed(name);
  }

  /** Each event alias, the command names, `launch` included, are unchanged by `splitCommands`. */
  lemma NamesAreNormalized()
    ensures forall i :: 0 <= i < |EventKeys| ==> Normalize(EventKeys[i]) == EventKeys[i]
    ensures forall i :: 0 <= i < |ControlCommands| ==> Normalize(ControlCommands[i]) == ControlCommands[i]
  {
    EventKeysAreWords();
    ControlCommandsWellFormed();
    forall i | 0 <= i < |EventKeys| ensures Normalize(EventKeys[i]) == EventKeys[i] {
      LowerWordIsTokenName(EventKeys[i]);
      NormalizedIsFixed(EventKeys[i]);
    }
    forall i | 0 <= i < |ControlCommands| ensures Normalize(ControlCommands[i]) == ControlCommands[i] {
      NormalizedIsFixed(ControlCommands[i]);
    }
  }

  // ---- Worked requests -----------------------------------------------------------

  /** A command string with three tokens and spaces after the commas. */
  lemma SplitCommandsExample(p: Payload)
    requires CommandString(p) == "initialize, log_purchase, add_to_cart"
    ensures |SplitCommands(p)| == 3
    ensures SplitCommands(p)[0] == "initialize"
    ensures SplitCommands(p)[1] == "log_purchase"
    ensures SplitCommands(p)[2] == "add_to_cart"
  {
    var pieces := ["initialize", " log_purchase", " add_to_cart"];
    ExamplePieces();
    assert forall i :: 0 <= i < |pieces| ==> SEPARATOR !in pieces[i];
    SplitCommandsPieces(p, pieces);
    var commands := SplitCommands(p);
    assert commands[0] == Normalize(pieces[0]) && commands[1] == Normalize(pieces[1]) && commands[2] == Normalize(pieces[2]);
    ExampleTokens();
  }

  lemma ExampleTokens()
    ensures Normalize("initialize") == "initialize"
    ensures Normalize(" log_purchase") == "log_purchase"
    ensures Normalize(" add_to_cart") == "add_to_cart"
  {
    ExampleToken0();
    ExampleToken1();
    ExampleToken2();
  }

  lemma ExampleToken0() ensures Normalize("initialize") == "initialize" {
    NormalizedIsFixed("initialize");
  }

  lemma ExampleToken1() ensures Normalize(" log_purchase") == "log_purchase" {
    NormalizeAfterSpace("log_purchase");
  }

  lemma ExampleToken2() ensures Normalize(" add_to_cart") == "add_to_cart" {
    NormalizeAfterSpace("add_to_cart");
  }

  lemma ExamplePieces()
    ensures Join(["initialize", " log_purchase", " add_to_cart"], SEPARATOR) == "initialize, log_purchase, add_to_cart"
    ensures SEPARATOR !in "initialize" && SEPARATOR !in " log_purchase" && SEPARATOR !in " add_to_cart"
  {
    JoinThree("initialize", " log_purchase", " add_to_cart", SEPARATOR);
    ExamplePiecesFree();
  }

  lemma ExamplePiecesFree()
    ensures SEPARATOR !in "initialize" && SEPARATOR !in " log_purchase" && SEPARATOR !in " add_to_cart"
  {
  }

  lemma JoinThree(a: string, b: string, c: string, sep: char)
    ensures Join([a, b, c], sep) == a + [sep] + b + [sep] + c
  {
    var pieces := [a, b, c];
    assert pieces[1..] == [b, c];
    assert [b, c][1..] == [c];
    assert Join([c], sep) == c;
    assert Join([b, c], sep) == b + [sep] + c;
  }

  /**
   * `toLowerCase(Locale.ROOT)` turns the Kelvin sign U+212A into `k`, so a
   * token spelled with it still names `tracklocation`.
   */
  lemma KelvinSignToken()
    ensures Normalize("trac\U{212A}location") == TRACK_LOCATION
  {
    var t := "trac\U{212A}location";
    assert t == "trac" + ['\U{212A}'] + "location";
    assert IsLowerCase("trac") && IsLowerCase("location");
    LowercaseKelvin("trac", "location");
    assert "trac" + ['k'] + "location" == TRACK_LOCATION;
    TrimTrimmed(t);
  }

  /** One space before a normalised token is dropped. */
  lemma NormalizeAfterSpace(t: string)
    requires t != [] && !IsWhitespace(t[0]) && !IsWhitespace(t[|t| - 1])
    requires IsLowerCase(t)
    ensures Normalize([' '] + t) == t
  {
    assert ([' '] + t)[1..] == t;
    NormalizedIsFixed(t);
  }

  /** A blank token before `stoptracking` leaves the single `stopTracking(false)`. */
  lemma BlankThenStopTrackingExample()
    ensures AllAdmissible([" ", STOP_TRACKING], map[])
    ensures Trace([" ", STOP_TRACKING], map[]) == [StopTracking(false)]
  {
    BlankTokenIgnored([], " ", [STOP_TRACKING], map[]);
    assert [] + [" "] + [STOP_TRACKING] == [" ", STOP_TRACKING];
    assert [] + [STOP_TRACKING] == [STOP_TRACKING];
  }

  /** A host with an empty prefix takes the one-argument `setHost(host)`. */
  lemma SetHostEmptyPrefixExample()
    ensures TokenCalls(SET_HOST, map[HOST := JString("www.test123.com"), HOST_PREFIX := JString("")])
         == [TrackerCall.SetHost("www.test123.com", Some(DEFAULT_HOST_PREFIX))]
  {
    SetHostCalls(map[HOST := JString("www.test123.com"), HOST_PREFIX := JString("")]);
  }

  /** `initialize` without a dev key still initializes, with the empty key. */
  lemma InitializeWithoutDevKeyExample(p: Payload)
    requires DEV_KEY !in p
    ensures TokenCalls(INITIALIZE, p)[0].devKey == ""
  {
  }
}
