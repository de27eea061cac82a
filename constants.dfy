/**
 * The command vocabulary of the AppsFlyer remote command: the command key
 * and separator, the control-command names, the standard-event alias table
 * and the payload key names.
 */
module AppsFlyerConstants {
  import opened KotlinText

  // ---- Commands -----------------------------------------------------------

  const COMMAND_KEY: string := "command_name"
  const SEPARATOR: char := ','

  const INITIALIZE: string := "initialize"
  const LAUNCH: string := "launch"
  const TRACK_LOCATION: string := "tracklocation"
  const SET_HOST: string := "sethost"
  const SET_USER_EMAILS: string := "setuseremails"
  const SET_CURRENCY_CODE: string := "setcurrencycode"
  const SET_CUSTOMER_ID: string := "setcustomerid"
  const DISABLE_DEVICE_TRACKING: string := "disabledevicetracking"
  const RESOLVE_DEEPLINK_URLS: string := "resolvedeeplinkurls"
  const STOP_TRACKING: string := "stoptracking"

  /** The control commands `parseCommands` has a `when` branch for, in branch order. */
  const HandledCommands: seq<string> := [
    INITIALIZE, TRACK_LOCATION, SET_HOST, SET_USER_EMAILS, SET_CURRENCY_CODE,
    SET_CUSTOMER_ID, DISABLE_DEVICE_TRACKING, RESOLVE_DEEPLINK_URLS, STOP_TRACKING
  ]

  /** Every control-command name of the `Commands` object, `LAUNCH` included. */
  const ControlCommands: seq<string> := HandledCommands + [LAUNCH]

  // ---- StandardEvents -----------------------------------------------------

  const EVENT_PARAMETERS: string := "event_parameters"
  const EVENT_PARAMETERS_SHORT: string := "event"

  /**
   * The `AFInAppEventType` constants of the AppsFlyer SDK that the alias
   * table maps to. Their string values belong to the SDK and are not part
   * of this model; only their identity matters.
   */
  datatype EventType =
    | LEVEL_ACHIEVED | ADD_PAYMENT_INFO | ADD_TO_CART | ADD_TO_WISH_LIST
    | COMPLETE_REGISTRATION | TUTORIAL_COMPLETION | INITIATED_CHECKOUT
    | PURCHASE | SUBSCRIBE | START_TRIAL | RATE | SEARCH | SPENT_CREDIT
    | ACHIEVEMENT_UNLOCKED | CONTENT_VIEW | LIST_VIEW | AD_CLICK | AD_VIEW
    | TRAVEL_BOOKING | SHARE | INVITE | LOGIN | RE_ENGAGE
    | OPENED_FROM_PUSH_NOTIFICATION | UPDATE | LOCATION_COORDINATES
    | CUSTOMER_SEGMENT

  /** The keys of `StandardEvents.eventNames`, in source order. */
  const EventKeys: seq<string> := [
    "levelachieved", "addpaymentinfo", "addtocart", "addtowishlist",
    "completeregistration", "tutorialcompletion", "initiatecheckout",
    "purchase", "subscribe", "starttrial", "rate", "search", "spentcredits",
    "achievementunlocked", "contentview", "listview", "adclick", "adview",
    "travelbooking", "share", "invite", "login", "reengage",
    "openfrompushnotification", "update", "locationcoordinates", "customersegment"
  ]

  /** The event type each key of `EventKeys` is paired with, in the same order. */
  const EventTypes: seq<EventType> := [
    LEVEL_ACHIEVED, ADD_PAYMENT_INFO, ADD_TO_CART, ADD_TO_WISH_LIST,
    COMPLETE_REGISTRATION, TUTORIAL_COMPLETION, INITIATED_CHECKOUT,
    PURCHASE, SUBSCRIBE, START_TRIAL, RATE, SEARCH, SPENT_CREDIT,
    ACHIEVEMENT_UNLOCKED, CONTENT_VIEW, LIST_VIEW, AD_CLICK, AD_VIEW,
    TRAVEL_BOOKING, SHARE, INVITE, LOGIN, RE_ENGAGE,
    OPENED_FROM_PUSH_NOTIFICATION, UPDATE, LOCATION_COORDINATES, CUSTOMER_SEGMENT
  ]

  /** Pairs up two sequences of equal length (`key to value`). */
  function Zip<K, V>(ks: seq<K>, vs: seq<V>): (pairs: seq<(K, V)>)
    requires |ks| == |vs|
    ensures |pairs| == |ks|
    ensures forall i :: 0 <= i < |ks| ==> pairs[i] == (ks[i], vs[i])
  {
    seq(|ks|, i requires 0 <= i < |ks| => (ks[i], vs[i]))
  }

  /** The `key to value` pairs of `StandardEvents.eventNames`, in source order. */
  const EventTable: seq<(string, EventType)> := Zip(EventKeys, EventTypes)

  /** `mapOf(...)` over a table: a later pair for the same key wins. */
  function MapOf<K, V>(pairs: seq<(K, V)>): (m: map<K, V>)
    ensures m.Keys == set i | 0 <= i < |pairs| :: pairs[i].0
  {
    if pairs == [] then map[]
    else
      var last := pairs[|pairs| - 1];
      MapOf(pairs[..|pairs| - 1])[last.0 := last.1]
  }

  /** `StandardEvents.eventNames`. */
  const EventNames: map<string, EventType> := MapOf(EventTable)

  // ---- Payload keys -------------------------------------------------------

  const APP_ID: string := "app_id"
  const DEV_KEY: string := "app_dev_key"
  const SETTINGS: string := "settings"

  const USER_ID: string := "af_customer_user_id"
  const EMAILS: string := "customer_emails"

  const LATITUDE: string := "af_lat"
  const LONGITUDE: string := "af_long"

  const HOST: string := "host"
  const HOST_PREFIX: string := "host_prefix"

  /** `TransactionProperties.CURRENCY`, the key the currency-code command reads. */
  const CURRENCY: string := "af_currency"

  const DEEP_LINK_URLS: string := "af_deep_link"

  const TRACKING_DISABLE_DEVICE_TRACKING: string := "disable_device_tracking"
  const TRACKING_STOP_TRACKING: string := "stop_tracking"

  // ---- Properties of the tables -------------------------------------------

  /** A name that a normalised command token can equal and `splitCommands` keeps intact. */
  predicate IsTokenName(s: string) {
    && s != []
    && IsLowerCase(s)
    && forall i :: 0 <= i < |s| ==> !IsWhitespace(s[i]) && s[i] != SEPARATOR
  }

  /** The elements of a sequence are pairwise distinct. */
  predicate Distinct<T(==)>(xs: seq<T>) {
    forall i, j :: 0 <= i < j < |xs| ==> xs[i] != xs[j]
  }

  /** The keys of a table of pairs, in table order. */
  function Keys<K, V>(pairs: seq<(K, V)>): (ks: seq<K>)
    ensures |ks| == |pairs|
    ensures forall i :: 0 <= i < |pairs| ==> ks[i] == pairs[i].0
  {
    seq(|pairs|, i requires 0 <= i < |pairs| => pairs[i].0)
  }

  /** With distinct keys, `mapOf` keeps every pair of the table. */
  lemma {:induction false} MapOfDistinct<K, V>(pairs: seq<(K, V)>)
    requires Distinct(Keys(pairs))
    ensures |MapOf(pairs)| == |pairs|
    ensures forall i :: 0 <= i < |pairs| ==> MapOf(pairs)[pairs[i].0] == pairs[i].1
  {
    if pairs != [] {
      var n := |pairs| - 1;
      var init, last, ks := pairs[..n], pairs[n], Keys(pairs);
      assert Keys(init) == ks[..n];
      MapOfDistinct(init);
      var m := MapOf(init);
      assert MapOf(pairs) == m[last.0 := last.1];
      forall i | 0 <= i < n ensures init[i].0 != last.0 {
        assert ks[i] != ks[n];
      }
      assert last.0 !in m;
      assert |MapOf(pairs)| == |m| + 1;
      forall i | 0 <= i < n ensures MapOf(pairs)[pairs[i].0] == pairs[i].1 {
        assert init[i] == pairs[i];
        assert ks[i] != ks[n];
        assert m[init[i].0] == init[i].1;
      }
      assert MapOf(pairs)[last.0] == last.1;
    }
  }

  /** A non-empty word of the lower-case ASCII letters `a`..`z` only. */
  predicate IsLowerWord(s: string) {
    s != [] && forall i :: 0 <= i < |s| ==> 'a' <= s[i] <= 'z'
  }

  lemma LowerWordIsTokenName(s: string)
    requires IsLowerWord(s)
    ensures IsTokenName(s)
  {
    forall i | 0 <= i < |s| ensures !IsWhitespace(s[i]) && !IsUpperCase(s[i]) {
      assert 'a' <= s[i] <= 'z';
    }
  }

  /**
   * The control-command names are ten distinct, non-blank, lower-case names
   * without whitespace or commas, so at most one `when` branch matches a token.
   */
  lemma ControlCommandsWellFormed()
    ensures |ControlCommands| == 10
    ensures Distinct(ControlCommands)
    ensures forall i :: 0 <= i < |ControlCommands| ==> IsLowerWord(ControlCommands[i])
    ensures forall i :: 0 <= i < |ControlCommands| ==> IsTokenName(ControlCommands[i])
  {
    ControlCommandsAreWords();
    forall i | 0 <= i < |ControlCommands| ensures IsTokenName(ControlCommands[i]) {
      LowerWordIsTokenName(ControlCommands[i]);
    }
  }

  // Each of these checks a slice of the literal command list.
  lemma ControlCommandsAreWords0() ensures forall i :: 0 <= i < 4 ==> IsLowerWord(HandledCommands[i]) {}
  lemma ControlCommandsAreWords1() ensures forall i :: 4 <= i < 7 ==> IsLowerWord(HandledCommands[i]) {}
  lemma ControlCommandsAreWords2() ensures forall i :: 7 <= i < 9 ==> IsLowerWord(HandledCommands[i]) {}

  /** Every control-command name is a non-empty lower-case ASCII word. */
  lemma ControlCommandsAreWords()
    ensures forall i :: 0 <= i < |ControlCommands| ==> IsLowerWord(ControlCommands[i])
  {
    ControlCommandsAreWords0();
    ControlCommandsAreWords1();
    ControlCommandsAreWords2();
    assert IsLowerWord(LAUNCH);
    forall i | 0 <= i < |ControlCommands| ensures IsLowerWord(ControlCommands[i]) {
      if i < |HandledCommands| {
        assert ControlCommands[i] == HandledCommands[i];
      }
    }
  }

  // Each of these checks a slice of the literal key list (kept small for the solver).
  lemma EventKeysAreWords0() ensures forall i :: 0 <= i < 5 ==> IsLowerWord(EventKeys[i]) {}
  lemma EventKeysAreWords1() ensures forall i :: 5 <= i < 10 ==> IsLowerWord(EventKeys[i]) {}
  lemma EventKeysAreWords2() ensures forall i :: 10 <= i < 15 ==> IsLowerWord(EventKeys[i]) {}
  lemma EventKeysAreWords3() ensures forall i :: 15 <= i < 20 ==> IsLowerWord(EventKeys[i]) {}
  lemma EventKeysAreWords4() ensures forall i :: 20 <= i < 24 ==> IsLowerWord(EventKeys[i]) {}
  lemma EventKeysAreWords5() ensures forall i :: 24 <= i < 27 ==> IsLowerWord(EventKeys[i]) {}

  /** Every key of the alias table is a non-empty lower-case ASCII word. */
  lemma EventKeysAreWords()
    ensures |EventKeys| == 27
    ensures forall i :: 0 <= i < |EventKeys| ==> IsLowerWord(EventKeys[i])
  {
    EventKeysAreWords0();
    EventKeysAreWords1();
    EventKeysAreWords2();
    EventKeysAreWords3();
    EventKeysAreWords4();
    EventKeysAreWords5();
  }

  /** The keys of the map built from a zipped table are the table's keys. */
  lemma ZipKeys<K, V>(ks: seq<K>, vs: seq<V>)
    requires |ks| == |vs|
    ensures Keys(Zip(ks, vs)) == ks
    ensures MapOf(Zip(ks, vs)).Keys == set k | k in ks
  {
    var table := Zip(ks, vs);
    assert Keys(table) == ks;
    assert (set i | 0 <= i < |table| :: table[i].0) == set k | k in ks by {
      forall k | k in ks ensures k in set i | 0 <= i < |table| :: table[i].0 {
        var i :| 0 <= i < |ks| && ks[i] == k;
        assert table[i].0 == k;
      }
    }
  }

  /** The map built from a table with distinct keys and distinct values. */
  lemma ZipTable<K, V>(ks: seq<K>, vs: seq<V>)
    requires |ks| == |vs| && Distinct(ks) && Distinct(vs)
    ensures |MapOf(Zip(ks, vs))| == |ks|
    ensures forall i :: 0 <= i < |ks| ==> MapOf(Zip(ks, vs))[ks[i]] == vs[i]
    ensures forall k :: k in MapOf(Zip(ks, vs)) <==> k in ks
    ensures forall k1, k2 :: k1 in MapOf(Zip(ks, vs)) && k2 in MapOf(Zip(ks, vs)) && k1 != k2 ==>
              MapOf(Zip(ks, vs))[k1] != MapOf(Zip(ks, vs))[k2]
  {
    var table := Zip(ks, vs);
    ZipKeys(ks, vs);
    MapOfDistinct(table);
    var m := MapOf(table);
    forall k1, k2 | k1 in m && k2 in m && k1 != k2 ensures m[k1] != m[k2] {
      var i :| 0 <= i < |ks| && ks[i] == k1;
      var j :| 0 <= j < |ks| && ks[j] == k2;
      assert m[k1] == vs[i] && m[k2] == vs[j];
    }
  }

  /**
   * `eventNames` has 27 entries with distinct keys, each key is a token
   * name (so it survives `splitCommands` unchanged), each maps to the type
   * the table pairs it with, and no two keys map to the same type.
   */
  lemma EventNamesWellFormed()
    ensures |EventKeys| == 27 && Distinct(EventKeys) && Distinct(EventTypes)
    ensures forall k :: k in EventNames <==> k in EventKeys
    ensures forall k :: k in EventNames ==> IsTokenName(k)
    ensures |EventNames| == 27
    ensures forall i :: 0 <= i < |EventKeys| ==> EventNames[EventKeys[i]] == EventTypes[i]
    ensures forall k1, k2 :: k1 in EventNames && k2 in EventNames && k1 != k2 ==> EventNames[k1] != EventNames[k2]
  {
    EventKeysAreWords();
    EventKeysDistinct();
    EventTypesDistinct();
    ZipTable(EventKeys, EventTypes);
    forall k | k in EventNames ensures IsTokenName(k) {
      var i :| 0 <= i < |EventKeys| && EventKeys[i] == k;
      LowerWordIsTokenName(EventKeys[i]);
    }
  }

  /** Rows `lo`..`hi` of a sequence differ from every later element. */
  predicate DistinctRows<T(==)>(xs: seq<T>, lo: nat, hi: int) {
    forall i, j :: lo <= i < hi && i < j < |xs| ==> xs[i] != xs[j]
  }

  lemma DistinctByRows<T>(xs: seq<T>, a: nat, b: nat, c: nat)
    requires 0 <= a <= b <= c <= |xs|
    requires DistinctRows(xs, 0, a) && DistinctRows(xs, a, b)
    requires DistinctRows(xs, b, c) && DistinctRows(xs, c, |xs|)
    ensures Distinct(xs)
  {
    forall i, j | 0 <= i < j < |xs| ensures xs[i] != xs[j] {
      if i < a {
        assert DistinctRows(xs, 0, a);
      } else if i < b {
        assert DistinctRows(xs, a, b);
      } else if i < c {
        assert DistinctRows(xs, b, c);
      } else {
        assert DistinctRows(xs, c, |xs|);
      }
    }
  }

  lemma EventKeyRows0() ensures DistinctRows(EventKeys, 0, 4) {}
  lemma EventKeyRows1() ensures DistinctRows(EventKeys, 4, 9) {}
  lemma EventKeyRows2() ensures DistinctRows(EventKeys, 9, 15) {}
  lemma EventKeyRows3() ensures DistinctRows(EventKeys, 15, 27) {}

  lemma EventKeysDistinct() ensures Distinct(EventKeys) {
    EventKeyRows0();
    EventKeyRows1();
    EventKeyRows2();
    EventKeyRows3();
    DistinctByRows(EventKeys, 4, 9, 15);
  }

  /** Every alias of the table is a key of `eventNames`. */
  lemma EventKeyIsName(i: int)
    requires 0 <= i < |EventKeys|
    ensures EventKeys[i] in EventNames
  {
    EventNamesWellFormed();
  }

  /** The position of an event type in the table's order. */
  function Ordinal(e: EventType): nat {
    match e
      case LEVEL_ACHIEVED => 0
      case ADD_PAYMENT_INFO => 1
      case ADD_TO_CART => 2
      case ADD_TO_WISH_LIST => 3
      case COMPLETE_REGISTRATION => 4
      case TUTORIAL_COMPLETION => 5
      case INITIATED_CHECKOUT => 6
      case PURCHASE => 7
      case SUBSCRIBE => 8
      case START_TRIAL => 9
      case RATE => 10
      case SEARCH => 11
      case SPENT_CREDIT => 12
      case ACHIEVEMENT_UNLOCKED => 13
      case CONTENT_VIEW => 14
      case LIST_VIEW => 15
      case AD_CLICK => 16
      case AD_VIEW => 17
      case TRAVEL_BOOKING => 18
      case SHARE => 19
      case INVITE => 20
      case LOGIN => 21
      case RE_ENGAGE => 22
      case OPENED_FROM_PUSH_NOTIFICATION => 23
      case UPDATE => 24
      case LOCATION_COORDINATES => 25
      case CUSTOMER_SEGMENT => 26
  }

  lemma EventTypeOrdinals()
    ensures forall i :: 0 <= i < |EventTypes| ==> Ordinal(EventTypes[i]) == i
  {
  }

  lemma EventTypesDistinct() ensures Distinct(EventTypes) {
    EventTypeOrdinals();
  }

  /** No control-command name is a key of the alias table, so no standard event is shadowed. */
  lemma ControlCommandsNotEvents()
    ensures forall i :: 0 <= i < |ControlCommands| ==> ControlCommands[i] !in EventNames
  {
    assert Keys(EventTable) == EventKeys;
    forall i | 0 <= i < |ControlCommands| ensures ControlCommands[i] !in EventNames {
      assert forall j :: 0 <= j < |EventKeys| ==> EventKeys[j] != ControlCommands[i];
    }
  }

  /** The payload keys one command reads are distinct from each other. */
  lemma PayloadKeysDistinct()
    ensures LATITUDE != LONGITUDE
    ensures HOST != HOST_PREFIX
    ensures EVENT_PARAMETERS == "event_parameters"
    ensures COMMAND_KEY == "command_name" && SEPARATOR == ','
  {
  }
}
