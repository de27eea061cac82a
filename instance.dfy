/**
 * The SDK adapter `AppsFlyerInstance`: the settings interpreter of
 * `initialize`, the stored dev key and its "replace only if non-empty"
 * rule, `setHost`, the mediation-network guard of `logAdRevenue`, the
 * purchase-type choice of `validateAndLogPurchase` and the lossy `toMap`.
 *
 * The AppsFlyer SDK (`AppsFlyerLib.getInstance()`) and `android.util.Log`
 * are modelled as one log of the calls made on them, so the order of SDK
 * calls and error messages is kept.
 */
module AppsFlyerInstanceModel {
  import opened Wrappers
  import opened KotlinText
  import opened JsonPayload
  import opened Sequences

  // ---- Values of the settings map ------------------------------------------

  /**
   * A value of the `Map<String, Any>` handed to `initialize`: a value
   * produced by org.json (`String`, `Boolean`, `Integer`/`Long`, `Double`,
   * `JSONObject`, `JSONArray`, `JSONObject.NULL`), a Kotlin `List` or a
   * Kotlin `Map`.
   */
  datatype Value =
    | JsonValue(json: Json)
    | ListValue(items: seq<Value>)
    | MapValue(entries: map<string, Value>)

  type Settings = map<string, Value>

  /** A Kotlin `Int`: a 32-bit signed integer. */
  predicate IsInt32(i: int) {
    -0x8000_0000 <= i < 0x8000_0000
  }

  /** `v as String` succeeds. */
  predicate IsString(v: Value) {
    v.JsonValue? && v.json.JString?
  }

  /** `v as Boolean` succeeds. */
  predicate IsBoolean(v: Value) {
    v.JsonValue? && v.json.JBool?
  }

  /** `v as Int` succeeds (a `Long` or a `Double` is not an `Int`). */
  predicate IsInt(v: Value) {
    v.JsonValue? && v.json.JInt? && IsInt32(v.json.i)
  }

  /** `v as JSONObject` succeeds. */
  predicate IsJsonObject(v: Value) {
    v.JsonValue? && v.json.JObject?
  }

  /** `v as? String`. */
  function AsString(v: Value): (r: Option<string>)
    ensures r.Some? <==> IsString(v)
    ensures r.Some? ==> v == JsonValue(JString(r.value))
  {
    if IsString(v) then Some(v.json.s) else None
  }

  /** A Kotlin list whose elements are all strings, so that `toTypedArray()` into a `String` array does not throw. */
  predicate IsStringList(v: Value) {
    v.ListValue? && forall i :: 0 <= i < |v.items| ==> IsString(v.items[i])
  }

  /** `(v as? List<String>)?.toTypedArray()` on a value that is not a list of other things. */
  function AsStringList(v: Value): (r: Option<seq<string>>)
    requires v.ListValue? ==> IsStringList(v)
    ensures r.Some? <==> v.ListValue?
    ensures r.Some? ==> |r.value| == |v.items|
    ensures r.Some? ==> forall i :: 0 <= i < |v.items| ==> v.items[i] == JsonValue(JString(r.value[i]))
  {
    if v.ListValue? then Some(seq(|v.items|, i requires 0 <= i < |v.items| => v.items[i].json.s)) else None
  }

  /** `data[key] as? String` on a Kotlin map. */
  function StringEntry(data: map<string, Value>, key: string): (r: Option<string>)
    ensures r.Some? <==> key in data && IsString(data[key])
  {
    if key in data then AsString(data[key]) else None
  }

  // ---- Settings keys -----------------------------------------------------------

  // The `Config.*` keys `initialize` reads. Their string values are not
  // defined in AppsFlyerConstants.kt, whose `Config` object has only `APP_ID`,
  // `DEV_KEY` and `SETTINGS`; each is taken to be the constant's name in lower case,
  // which agrees with the values of the `Settings` object for the names it
  // shares with it. Only their distinctness matters to the model.
  const MIN_TIME_BETWEEN_SESSIONS: string := "min_time_between_sessions"
  const ANONYMIZE_USER: string := "anonymize_user"
  const CUSTOM_DATA: string := "custom_data"
  const DEBUG: string := "debug"
  const DISABLE_AD_TRACKING: string := "disable_ad_tracking"
  const DISABLE_NETWORK_DATA: string := "disable_network_data"
  const DISABLE_APPSET_ID: string := "disable_appset_id"
  const ENABLE_TCF_DATA_COLLECTION: string := "enable_tcf_data_collection"
  const APP_INVITE_ONELINK_ID: string := "app_invite_onelink_id"
  const ONELINK_CUSTOM_DOMAINS: string := "onelink_custom_domains"
  const CUSTOMER_EMAILS: string := "customer_emails"
  const EMAIL_HASH_TYPE: string := "email_hash_type"
  const HOST: string := "host"
  const HOST_PREFIX: string := "host_prefix"
  const RESOLVE_DEEP_LINKS: string := "resolve_deep_links"
  const COLLECT_ANDROID_ID: string := "collect_android_id"
  const COLLECT_IMEI: string := "collect_imei"
  const LOG_LEVEL: string := "log_level"
  const WAIT_FOR_CUSTOMER_USER_ID: string := "wait_for_customer_user_id"
  const ENABLE_FACEBOOK_DEFERRED_APPLINKS: string := "enable_facebook_deferred_applinks"
  const OUT_OF_STORE: string := "out_of_store"
  const IS_UPDATE: string := "is_update"
  const EXTENSION: string := "extension"
  const PREINSTALL_ATTRIBUTION: string := "preinstall_attribution"

  // The keys of the preinstall-attribution map.
  const MEDIA_SOURCE: string := "media_source"
  const CAMPAIGN: string := "campaign"
  const SITE_ID: string := "site_id"

  // ---- SDK calls -----------------------------------------------------------------

  /** `AppsFlyerProperties.EmailsCryptType`, in declaration order. */
  datatype EmailsCryptType = NONE | SHA256

  /** `EmailsCryptType.values()`. */
  const EmailsCryptTypes: seq<EmailsCryptType> := [NONE, SHA256]

  /** `AFPurchaseType`. */
  datatype PurchaseType = SUBSCRIPTION | ONE_TIME_PURCHASE

  /** The errors the adapter logs with `Log.e`. */
  datatype LoggedError = MissingDevKey | UnknownMediationNetwork(name: string)

  /** One call on the SDK, or one error message. */
  datatype SdkCall =
    | SetMinTimeBetweenSessions(seconds: int)
    | AnonymizeUser(shouldAnonymize: bool)
    | SetAdditionalData(customData: map<string, string>)
    | SetDebugLog(shouldEnable: bool)
    | SetDisableAdvertisingIdentifiers(disable: bool)
    | SetDisableNetworkData(disable: bool)
    | DisableAppSetId
    | EnableTCFDataCollection(enable: bool)
    | SetAppInviteOneLink(oneLinkId: string)
    | SetOneLinkCustomDomain(domains: seq<string>)
    | SetUserEmails(cryptType: EmailsCryptType, emails: seq<string>)
    | SetHost(host: string, hostPrefix: string)
    | SetResolveDeepLinkURLs(urls: seq<string>)
    | SetCollectAndroidID(collect: bool)
    | SetCollectIMEI(collect: bool)
    | SetLogLevel(level: string)
    | WaitForCustomerUserId(wait: bool)
    | EnableFacebookDeferredApplinks(enable: bool)
    | SetOutOfStore(source: string)
    | SetIsUpdate(isUpdate: bool)
    | SetExtension(extension: string)
    | SetPreinstallAttribution(mediaSource: string, campaign: string, siteId: Option<string>)
    | Init(devKey: string)
    | Start
    | LogAdRevenue(monetizationNetwork: string, mediationNetwork: string, currency: string, revenue: Double,
                   additionalParams: Option<map<string, Value>>)
    | ValidateAndLogInAppPurchase(purchaseType: PurchaseType, purchaseToken: string, productId: string,
                                  price: string, currency: string, purchaseParams: Option<map<string, string>>)
    | LogError(error: LoggedError)

  // ---- The settings, one block of `initialize` each --------------------------------

  /** The settings `initialize` recognises, in the order of its blocks. */
  datatype Setting =
    | MinTimeBetweenSessions | AnonymizeUserSetting | CustomData | Debug | DisableAdTracking
    | DisableNetworkData | DisableAppSetIdSetting | EnableTcfDataCollection | AppInviteOneLinkId
    | OneLinkCustomDomains | CustomerEmails | HostSetting | ResolveDeepLinks | CollectAndroidId
    | CollectImei | LogLevel | WaitForCustomerUserIdSetting | EnableFacebookDeferredApplinksSetting
    | OutOfStore | IsUpdate | Extension | PreinstallAttribution

  const SETTING_COUNT: nat := 22

  /** The position of the setting's block in `initialize`. */
  function Index(st: Setting): (i: nat)
    ensures i < SETTING_COUNT
  {
    match st
    case MinTimeBetweenSessions => 0
    case AnonymizeUserSetting => 1
    case CustomData => 2
    case Debug => 3
    case DisableAdTracking => 4
    case DisableNetworkData => 5
    case DisableAppSetIdSetting => 6
    case EnableTcfDataCollection => 7
    case AppInviteOneLinkId => 8
    case OneLinkCustomDomains => 9
    case CustomerEmails => 10
    case HostSetting => 11
    case ResolveDeepLinks => 12
    case CollectAndroidId => 13
    case CollectImei => 14
    case LogLevel => 15
    case WaitForCustomerUserIdSetting => 16
    case EnableFacebookDeferredApplinksSetting => 17
    case OutOfStore => 18
    case IsUpdate => 19
    case Extension => 20
    case PreinstallAttribution => 21
  }

  /** The setting of the `i`-th block. */
  function SettingAt(i: nat): (st: Setting)
    requires i < SETTING_COUNT
    ensures Index(st) == i
  {
    if i == 0 then MinTimeBetweenSessions
    else if i == 1 then AnonymizeUserSetting
    else if i == 2 then CustomData
    else if i == 3 then Debug
    else if i == 4 then DisableAdTracking
    else if i == 5 then DisableNetworkData
    else if i == 6 then DisableAppSetIdSetting
    else if i == 7 then EnableTcfDataCollection
    else if i == 8 then AppInviteOneLinkId
    else if i == 9 then OneLinkCustomDomains
    else if i == 10 then CustomerEmails
    else if i == 11 then HostSetting
    else if i == 12 then ResolveDeepLinks
    else if i == 13 then CollectAndroidId
    else if i == 14 then CollectImei
    else if i == 15 then LogLevel
    else if i == 16 then WaitForCustomerUserIdSetting
    else if i == 17 then EnableFacebookDeferredApplinksSetting
    else if i == 18 then OutOfStore
    else if i == 19 then IsUpdate
    else if i == 20 then Extension
    else PreinstallAttribution
  }

  /** The key whose presence the setting's block tests first. */
  function Key(st: Setting): string {
    match st
    case MinTimeBetweenSessions => MIN_TIME_BETWEEN_SESSIONS
    case AnonymizeUserSetting => ANONYMIZE_USER
    case CustomData => CUSTOM_DATA
    case Debug => DEBUG
    case DisableAdTracking => DISABLE_AD_TRACKING
    case DisableNetworkData => DISABLE_NETWORK_DATA
    case DisableAppSetIdSetting => DISABLE_APPSET_ID
    case EnableTcfDataCollection => ENABLE_TCF_DATA_COLLECTION
    case AppInviteOneLinkId => APP_INVITE_ONELINK_ID
    case OneLinkCustomDomains => ONELINK_CUSTOM_DOMAINS
    case CustomerEmails => CUSTOMER_EMAILS
    case HostSetting => HOST
    case ResolveDeepLinks => RESOLVE_DEEP_LINKS
    case CollectAndroidId => COLLECT_ANDROID_ID
    case CollectImei => COLLECT_IMEI
    case LogLevel => LOG_LEVEL
    case WaitForCustomerUserIdSetting => WAIT_FOR_CUSTOMER_USER_ID
    case EnableFacebookDeferredApplinksSetting => ENABLE_FACEBOOK_DEFERRED_APPLINKS
    case OutOfStore => OUT_OF_STORE
    case IsUpdate => IS_UPDATE
    case Extension => EXTENSION
    case PreinstallAttribution => PREINSTALL_ATTRIBUTION
  }

  /**
   * The settings whose block, once its key is present, always makes its
   * SDK call: the value is cast and passed on without a further test.
   */
  predicate AlwaysForwarded(st: Setting) {
    !(st.DisableAppSetIdSetting? || st.OneLinkCustomDomains? || st.CustomerEmails? || st.HostSetting?
      || st.ResolveDeepLinks? || st.LogLevel? || st.OutOfStore? || st.Extension? || st.PreinstallAttribution?)
  }

  /**
   * `settings[EMAIL_HASH_TYPE] as? Int ?: 0`: a 32-bit integer, and 0 unless
   * the setting holds an `Int`.
   */
  function HashIndex(s: Settings): (i: int)
    ensures IsInt32(i)
    ensures EMAIL_HASH_TYPE !in s ==> i == 0
    ensures i != 0 ==> EMAIL_HASH_TYPE in s && IsInt(s[EMAIL_HASH_TYPE]) && s[EMAIL_HASH_TYPE].json.i == i
  {
    if EMAIL_HASH_TYPE in s && IsInt(s[EMAIL_HASH_TYPE]) then s[EMAIL_HASH_TYPE].json.i else 0
  }

  /** `s[key] as Boolean` does not throw when the key is present. */
  predicate BooleanAt(s: Settings, key: string) {
    key in s ==> IsBoolean(s[key])
  }

  /** `s[key] as Int` does not throw when the key is present. */
  predicate IntAt(s: Settings, key: string) {
    key in s ==> IsInt(s[key])
  }

  /** `s[key] as String` does not throw when the key is present. */
  predicate StringAt(s: Settings, key: string) {
    key in s ==> IsString(s[key])
  }

  /** `s[key] as JSONObject` does not throw when the key is present. */
  predicate ObjectAt(s: Settings, key: string) {
    key in s ==> IsJsonObject(s[key])
  }

  /** A list under the key holds only strings, so its `String` array can be built. */
  predicate StringListAt(s: Settings, key: string) {
    key in s && s[key].ListValue? ==> IsStringList(s[key])
  }

  /**
   * No block of `initialize` throws on these settings: every throwing cast
   * (`as Int`, `as Boolean`, `as JSONObject`, `as String`) meets a value of
   * its type, a list meets only strings, and the e-mail hash type indexes
   * `EmailsCryptType.values()`. `out_of_store`, `extension` and
   * `preinstall_attribution` are read with `as?` and admit any value.
   */
  predicate WellTyped(s: Settings) {
    && IntAt(s, MIN_TIME_BETWEEN_SESSIONS)
    && BooleanAt(s, ANONYMIZE_USER)
    && ObjectAt(s, CUSTOM_DATA)
    && BooleanAt(s, DEBUG)
    && BooleanAt(s, DISABLE_AD_TRACKING)
    && BooleanAt(s, DISABLE_NETWORK_DATA)
    && BooleanAt(s, DISABLE_APPSET_ID)
    && BooleanAt(s, ENABLE_TCF_DATA_COLLECTION)
    && StringAt(s, APP_INVITE_ONELINK_ID)
    && StringListAt(s, ONELINK_CUSTOM_DOMAINS)
    && StringListAt(s, CUSTOMER_EMAILS)
    && (CUSTOMER_EMAILS in s && s[CUSTOMER_EMAILS].ListValue? ==> 0 <= HashIndex(s) < |EmailsCryptTypes|)
    && (HOST in s && HOST_PREFIX in s ==> IsString(s[HOST]) && IsString(s[HOST_PREFIX]))
    && StringListAt(s, RESOLVE_DEEP_LINKS)
    && BooleanAt(s, COLLECT_ANDROID_ID)
    && BooleanAt(s, COLLECT_IMEI)
    && StringAt(s, LOG_LEVEL)
    && BooleanAt(s, WAIT_FOR_CUSTOMER_USER_ID)
    && BooleanAt(s, ENABLE_FACEBOOK_DEFERRED_APPLINKS)
    && BooleanAt(s, IS_UPDATE)
  }

  /** The preinstall data is forwarded only with a non-empty media source and campaign. */
  function PreinstallCalls(data: map<string, Value>): (calls: seq<SdkCall>)
    ensures calls != [] <==>
      StringEntry(data, MEDIA_SOURCE).GetOr("") != "" && StringEntry(data, CAMPAIGN).GetOr("") != ""
  {
    var mediaSource := StringEntry(data, MEDIA_SOURCE);
    var campaign := StringEntry(data, CAMPAIGN);
    var siteId := StringEntry(data, SITE_ID);
    if mediaSource.Some? && mediaSource.value != "" && campaign.Some? && campaign.value != "" then
      [SetPreinstallAttribution(mediaSource.value, campaign.value, siteId)]
    else []
  }

  /**
   * The SDK calls of one block of `initialize`. `logLevelOf` is
   * `LogLevel.fromString` followed by the level name it carries.
   */
  function SettingCalls(st: Setting, s: Settings, logLevelOf: string -> Option<string>): (calls: seq<SdkCall>)
    requires WellTyped(s)
    ensures |calls| <= 1
    ensures calls != [] ==> Key(st) in s
  {
    var key := Key(st);
    if key !in s then []
    else
      var v := s[key];
      match st
      case MinTimeBetweenSessions => [SetMinTimeBetweenSessions(v.json.i)]
      case AnonymizeUserSetting => [AnonymizeUser(v.json.b)]
      case CustomData => [SetAdditionalData(StringFields(v.json.fields))]
      case Debug => [SetDebugLog(v.json.b)]
      case DisableAdTracking => [SetDisableAdvertisingIdentifiers(v.json.b)]
      case DisableNetworkData => [SetDisableNetworkData(v.json.b)]
      case DisableAppSetIdSetting => if v.json.b then [DisableAppSetId] else []
      case EnableTcfDataCollection => [EnableTCFDataCollection(v.json.b)]
      case AppInviteOneLinkId => [SetAppInviteOneLink(v.json.s)]
      case OneLinkCustomDomains =>
        (match AsStringList(v) case Some(domains) => [SetOneLinkCustomDomain(domains)] case None => [])
      case CustomerEmails =>
        (match AsStringList(v) case Some(emails) => [SetUserEmails(EmailsCryptTypes[HashIndex(s)], emails)] case None => [])
      case HostSetting =>
        if HOST_PREFIX in s then [SdkCall.SetHost(v.json.s, s[HOST_PREFIX].json.s)] else []
      case ResolveDeepLinks =>
        (match AsStringList(v) case Some(urls) => [SetResolveDeepLinkURLs(urls)] case None => [])
      case CollectAndroidId => [SetCollectAndroidID(v.json.b)]
      case CollectImei => [SetCollectIMEI(v.json.b)]
      case LogLevel =>
        (match logLevelOf(v.json.s) case Some(level) => [SetLogLevel(level)] case None => [])
      case WaitForCustomerUserIdSetting => [SdkCall.WaitForCustomerUserId(v.json.b)]
      case EnableFacebookDeferredApplinksSetting => [SdkCall.EnableFacebookDeferredApplinks(v.json.b)]
      case OutOfStore => (match AsString(v) case Some(source) => [SetOutOfStore(source)] case None => [])
      case IsUpdate => [SetIsUpdate(v.json.b)]
      case Extension => (match AsString(v) case Some(extension) => [SetExtension(extension)] case None => [])
      case PreinstallAttribution => (match v case MapValue(data) => PreinstallCalls(data) case _ => [])
  }

  /** The SDK calls of the blocks `lo` to `hi - 1` of `initialize`, in source order. */
  function BlocksCalls(s: Settings, logLevelOf: string -> Option<string>, lo: nat, hi: nat): seq<SdkCall>
    requires WellTyped(s) && lo <= hi <= SETTING_COUNT
    decreases hi
  {
    if lo == hi then [] else BlocksCalls(s, logLevelOf, lo, hi - 1) + SettingCalls(SettingAt(hi - 1), s, logLevelOf)
  }

  /** The SDK calls of all the blocks of `initialize` that read the settings. */
  function SettingsCalls(s: Settings, logLevelOf: string -> Option<string>): seq<SdkCall>
    requires WellTyped(s)
  {
    BlocksCalls(s, logLevelOf, 0, SETTING_COUNT)
  }

  /** Running block `hi` after the blocks `lo` to `hi - 1`. */
  lemma AppendBlock(start: seq<SdkCall>, s: Settings, logLevelOf: string -> Option<string>, lo: nat, hi: nat)
    requires WellTyped(s) && lo <= hi < SETTING_COUNT
    ensures start + BlocksCalls(s, logLevelOf, lo, hi) + SettingCalls(SettingAt(hi), s, logLevelOf)
         == start + BlocksCalls(s, logLevelOf, lo, hi + 1)
  {
    AppendAssoc(start, BlocksCalls(s, logLevelOf, lo, hi), SettingCalls(SettingAt(hi), s, logLevelOf));
  }

  /** One more block: the blocks `lo` to `hi - 1` are the blocks `lo` to `hi - 2` followed by `st`, block `hi - 1`. */
  lemma BlocksStep(s: Settings, logLevelOf: string -> Option<string>, lo: nat, hi: nat, st: Setting)
    requires WellTyped(s) && lo < hi <= SETTING_COUNT && Index(st) == hi - 1
    ensures BlocksCalls(s, logLevelOf, lo, hi) ==
      BlocksCalls(s, logLevelOf, lo, hi - 1) + SettingCalls(st, s, logLevelOf)
  {
    SettingAtIndex(st);
  }

  /** Four consecutive blocks, starting at block `lo`. */
  lemma Blocks4(s: Settings, logLevelOf: string -> Option<string>, lo: nat, a: Setting, b: Setting, c: Setting, d: Setting)
    requires WellTyped(s) && lo + 4 <= SETTING_COUNT
    requires Index(a) == lo && Index(b) == lo + 1 && Index(c) == lo + 2 && Index(d) == lo + 3
    ensures BlocksCalls(s, logLevelOf, lo, lo + 4) ==
      SettingCalls(a, s, logLevelOf) + SettingCalls(b, s, logLevelOf) + SettingCalls(c, s, logLevelOf) +
      SettingCalls(d, s, logLevelOf)
  {
    BlocksStep(s, logLevelOf, lo, lo + 1, a);
    BlocksStep(s, logLevelOf, lo, lo + 2, b);
    BlocksStep(s, logLevelOf, lo, lo + 3, c);
    BlocksStep(s, logLevelOf, lo, lo + 4, d);
    GrownByFour(BlocksCalls(s, logLevelOf, lo, lo), BlocksCalls(s, logLevelOf, lo, lo + 1),
                BlocksCalls(s, logLevelOf, lo, lo + 2), BlocksCalls(s, logLevelOf, lo, lo + 3),
                BlocksCalls(s, logLevelOf, lo, lo + 4), SettingCalls(a, s, logLevelOf), SettingCalls(b, s, logLevelOf),
                SettingCalls(c, s, logLevelOf), SettingCalls(d, s, logLevelOf));
  }

  /** Five consecutive blocks, starting at block `lo`. */
  lemma Blocks5(s: Settings, logLevelOf: string -> Option<string>, lo: nat, a: Setting, b: Setting, c: Setting, d: Setting,
                e: Setting)
    requires WellTyped(s) && lo + 5 <= SETTING_COUNT
    requires Index(a) == lo && Index(b) == lo + 1 && Index(c) == lo + 2 && Index(d) == lo + 3 && Index(e) == lo + 4
    ensures BlocksCalls(s, logLevelOf, lo, lo + 5) ==
      SettingCalls(a, s, logLevelOf) + SettingCalls(b, s, logLevelOf) + SettingCalls(c, s, logLevelOf) +
      SettingCalls(d, s, logLevelOf) + SettingCalls(e, s, logLevelOf)
  {
    Blocks4(s, logLevelOf, lo, a, b, c, d);
    BlocksStep(s, logLevelOf, lo, lo + 5, e);
    GrownFrom(BlocksCalls(s, logLevelOf, lo, lo + 4), BlocksCalls(s, logLevelOf, lo, lo + 5),
         SettingCalls(a, s, logLevelOf) + SettingCalls(b, s, logLevelOf) + SettingCalls(c, s, logLevelOf) +
         SettingCalls(d, s, logLevelOf), SettingCalls(e, s, logLevelOf));
  }

  lemma OriginalBlocks(s: Settings, logLevelOf: string -> Option<string>)
    requires WellTyped(s)
    ensures BlocksCalls(s, logLevelOf, 0, 4) ==
      SettingCalls(MinTimeBetweenSessions, s, logLevelOf) +
      SettingCalls(AnonymizeUserSetting, s, logLevelOf) +
      SettingCalls(CustomData, s, logLevelOf) +
      SettingCalls(Debug, s, logLevelOf)
  {
    Blocks4(s, logLevelOf, 0, MinTimeBetweenSessions, AnonymizeUserSetting, CustomData, Debug);
  }

  lemma IdentifierBlocks(s: Settings, logLevelOf: string -> Option<string>)
    requires WellTyped(s)
    ensures BlocksCalls(s, logLevelOf, 4, 9) ==
      SettingCalls(DisableAdTracking, s, logLevelOf) +
      SettingCalls(DisableNetworkData, s, logLevelOf) +
      SettingCalls(DisableAppSetIdSetting, s, logLevelOf) +
      SettingCalls(EnableTcfDataCollection, s, logLevelOf) +
      SettingCalls(AppInviteOneLinkId, s, logLevelOf)
  {
    Blocks5(s, logLevelOf, 4, DisableAdTracking, DisableNetworkData, DisableAppSetIdSetting, EnableTcfDataCollection, AppInviteOneLinkId);
  }

  lemma LinkBlocks(s: Settings, logLevelOf: string -> Option<string>)
    requires WellTyped(s)
    ensures BlocksCalls(s, logLevelOf, 9, 13) ==
      SettingCalls(OneLinkCustomDomains, s, logLevelOf) +
      SettingCalls(CustomerEmails, s, logLevelOf) +
      SettingCalls(HostSetting, s, logLevelOf) +
      SettingCalls(ResolveDeepLinks, s, logLevelOf)
  {
    Blocks4(s, logLevelOf, 9, OneLinkCustomDomains, CustomerEmails, HostSetting, ResolveDeepLinks);
  }

  lemma DeviceBlocks(s: Settings, logLevelOf: string -> Option<string>)
    requires WellTyped(s)
    ensures BlocksCalls(s, logLevelOf, 13, 18) ==
      SettingCalls(CollectAndroidId, s, logLevelOf) +
      SettingCalls(CollectImei, s, logLevelOf) +
      SettingCalls(LogLevel, s, logLevelOf) +
      SettingCalls(WaitForCustomerUserIdSetting, s, logLevelOf) +
      SettingCalls(EnableFacebookDeferredApplinksSetting, s, logLevelOf)
  {
    Blocks5(s, logLevelOf, 13, CollectAndroidId, CollectImei, LogLevel, WaitForCustomerUserIdSetting, EnableFacebookDeferredApplinksSetting);
  }

  lemma InstallBlocks(s: Settings, logLevelOf: string -> Option<string>)
    requires WellTyped(s)
    ensures BlocksCalls(s, logLevelOf, 18, 22) ==
      SettingCalls(OutOfStore, s, logLevelOf) +
      SettingCalls(IsUpdate, s, logLevelOf) +
      SettingCalls(Extension, s, logLevelOf) +
      SettingCalls(PreinstallAttribution, s, logLevelOf)
  {
    Blocks4(s, logLevelOf, 18, OutOfStore, IsUpdate, Extension, PreinstallAttribution);
  }

  /** The blocks `lo` to `mid - 1` followed by the blocks `mid` to `hi - 1`. */
  lemma {:induction false} BlocksAppend(s: Settings, logLevelOf: string -> Option<string>, lo: nat, mid: nat, hi: nat)
    requires WellTyped(s) && lo <= mid <= hi <= SETTING_COUNT
    ensures BlocksCalls(s, logLevelOf, lo, mid) + BlocksCalls(s, logLevelOf, mid, hi) == BlocksCalls(s, logLevelOf, lo, hi)
    decreases hi
  {
    if mid < hi {
      BlocksAppend(s, logLevelOf, lo, mid, hi - 1);
      AppendAssoc(BlocksCalls(s, logLevelOf, lo, mid), BlocksCalls(s, logLevelOf, mid, hi - 1),
                  SettingCalls(SettingAt(hi - 1), s, logLevelOf));
    } else {
      assert BlocksCalls(s, logLevelOf, mid, hi) == [];
    }
  }

  // ---- The dev key -------------------------------------------------------------

  /**
   * The stored dev key after `initialize`: a non-empty argument replaces it.
   * A stored key is never lost, and only a non-empty argument changes it.
   */
  function UpdatedDevKey(stored: Option<string>, devKey: Option<string>): (key: Option<string>)
    ensures key == stored || key == devKey
    ensures stored.Some? ==> key.Some?
    ensures key != stored ==> key.Some? && key.value != ""
  {
    if devKey.Some? && devKey.value != "" then devKey else stored
  }

  /**
   * `initAndStartAppsFlyer` with the stored key, or the logged error without
   * one: the SDK is initialised with a key and started exactly when a key is
   * stored, and the missing key is logged exactly when none is.
   */
  function StartCalls(stored: Option<string>): (calls: seq<SdkCall>)
    ensures Start in calls <==> stored.Some?
    ensures forall k :: Init(k) in calls <==> stored == Some(k)
    ensures LogError(MissingDevKey) in calls <==> stored.None?
  {
    match stored
    case Some(key) => [Init(key), Start]
    case None => [LogError(MissingDevKey)]
  }

  /**
   * Everything one `initialize` call does, in order. Without settings it only
   * starts; either way its last call is `start`, or the missing-key error when
   * no key is stored.
   */
  function InitializeCalls(stored: Option<string>, devKey: Option<string>, configSettings: Option<Settings>,
                           logLevelOf: string -> Option<string>): (calls: seq<SdkCall>)
    requires configSettings.Some? ==> WellTyped(configSettings.value)
    ensures configSettings.None? ==> calls == StartCalls(UpdatedDevKey(stored, devKey))
    ensures |calls| >= 1
    ensures calls[|calls| - 1] == if UpdatedDevKey(stored, devKey).Some? then Start else LogError(MissingDevKey)
  {
    (match configSettings case Some(s) => SettingsCalls(s, logLevelOf) case None => [])
      + StartCalls(UpdatedDevKey(stored, devKey))
  }

  // ---- toMap, setHost, logAdRevenue, validateAndLogPurchase --------------------

  /** `toMap`: the entries of the object whose value is a string. */
  function StringFields(json: Payload): (m: map<string, string>)
    ensures forall key :: key in m <==> key in json && json[key].JString?
    ensures forall key :: key in m ==> json[key] == JString(m[key])
  {
    map key | key in json && json[key].JString? :: json[key].s
  }

  /** `setHost`: nothing without a prefix. */
  function HostCalls(host: string, hostPrefix: Option<string>): (calls: seq<SdkCall>)
    ensures calls == [] <==> hostPrefix.None?
    ensures |calls| <= 1 && forall c :: c in calls ==> c.SetHost? && c.host == host
  {
    match hostPrefix
    case Some(prefix) => [SdkCall.SetHost(host, prefix)]
    case None => []
  }

  /** `logAdRevenue`: the call with the SDK's network, or the logged error for an unknown one. */
  function AdRevenueCalls(monetizationNetwork: string, mediationNetwork: string, revenue: Double, currency: string,
                          additionalParams: Option<map<string, Value>>,
                          mediationNetworkOf: string -> Option<string>): (calls: seq<SdkCall>)
    ensures |calls| == 1
    ensures calls[0].LogAdRevenue? <==> mediationNetworkOf(mediationNetwork).Some?
    ensures calls[0].LogAdRevenue? ==>
      calls[0] == LogAdRevenue(monetizationNetwork, mediationNetworkOf(mediationNetwork).value, currency, revenue,
                               additionalParams)
    ensures !calls[0].LogAdRevenue? ==> calls[0] == LogError(UnknownMediationNetwork(mediationNetwork))
  {
    match mediationNetworkOf(mediationNetwork)
    case None => [LogError(UnknownMediationNetwork(mediationNetwork))]
    case Some(network) => [LogAdRevenue(monetizationNetwork, network, currency, revenue, additionalParams)]
  }

  /**
   * The purchase type of `validateAndLogPurchase`: "subscription" selects a
   * subscription, and only a name of its length can.
   */
  function PurchaseTypeOf(purchaseType: string): (t: PurchaseType)
    ensures purchaseType == "subscription" ==> t == SUBSCRIPTION
    ensures t == SUBSCRIPTION ==> |purchaseType| == |"subscription"|
  {
    if EqualsIgnoreCase(purchaseType, "subscription") then SUBSCRIPTION else ONE_TIME_PURCHASE
  }

  // ---- The order of the settings calls ------------------------------------------

  /** The block of `initialize` that makes this call; `None` for the calls that follow the settings. */
  function Block(c: SdkCall): Option<Setting> {
    match c
    case SetMinTimeBetweenSessions(_) => Some(MinTimeBetweenSessions)
    case AnonymizeUser(_) => Some(AnonymizeUserSetting)
    case SetAdditionalData(_) => Some(CustomData)
    case SetDebugLog(_) => Some(Debug)
    case SetDisableAdvertisingIdentifiers(_) => Some(DisableAdTracking)
    case SetDisableNetworkData(_) => Some(DisableNetworkData)
    case DisableAppSetId => Some(DisableAppSetIdSetting)
    case EnableTCFDataCollection(_) => Some(EnableTcfDataCollection)
    case SetAppInviteOneLink(_) => Some(AppInviteOneLinkId)
    case SetOneLinkCustomDomain(_) => Some(OneLinkCustomDomains)
    case SetUserEmails(_, _) => Some(CustomerEmails)
    case SetHost(_, _) => Some(HostSetting)
    case SetResolveDeepLinkURLs(_) => Some(ResolveDeepLinks)
    case SetCollectAndroidID(_) => Some(CollectAndroidId)
    case SetCollectIMEI(_) => Some(CollectImei)
    case SetLogLevel(_) => Some(LogLevel)
    case WaitForCustomerUserId(_) => Some(WaitForCustomerUserIdSetting)
    case EnableFacebookDeferredApplinks(_) => Some(EnableFacebookDeferredApplinksSetting)
    case SetOutOfStore(_) => Some(OutOfStore)
    case SetIsUpdate(_) => Some(IsUpdate)
    case SetExtension(_) => Some(Extension)
    case SetPreinstallAttribution(_, _, _) => Some(PreinstallAttribution)
    case _ => None
  }

  /** The position of the call's block; the calls that follow the settings come after every block. */
  function Rank(c: SdkCall): nat {
    match Block(c)
    case Some(st) => Index(st)
    case None => SETTING_COUNT
  }

  /** Every call comes from a block in `[lo, hi)`, and the blocks strictly increase along the log. */
  predicate InBlocks(calls: seq<SdkCall>, lo: nat, hi: nat) {
    && (forall i :: 0 <= i < |calls| ==> lo <= Rank(calls[i]) < hi)
    && (forall i, j :: 0 <= i < j < |calls| ==> Rank(calls[i]) < Rank(calls[j]))
  }

  /** For every block in `[lo, hi)`, the calls of the log that come from it are exactly the block's calls. */
  ghost predicate Covers(calls: seq<SdkCall>, lo: nat, hi: nat, s: Settings, logLevelOf: string -> Option<string>)
    requires WellTyped(s)
  {
    forall st: Setting, c: SdkCall :: lo <= Index(st) < hi ==>
      (c in SettingCalls(st, s, logLevelOf) <==> c in calls && Rank(c) == Index(st))
  }

  lemma SettingAtIndex(st: Setting)
    ensures SettingAt(Index(st)) == st
  {
  }

  /** A block makes only calls of its own kind. */
  lemma BlockOfSettingCalls(st: Setting, s: Settings, logLevelOf: string -> Option<string>)
    requires WellTyped(s)
    ensures forall c :: c in SettingCalls(st, s, logLevelOf) ==> Block(c) == Some(st)
  {
  }

  lemma IndexInjective(a: Setting, b: Setting)
    ensures Index(a) == Index(b) ==> a == b
  {
    SettingAtIndex(a);
    SettingAtIndex(b);
  }

  lemma SingleBlock(st: Setting, s: Settings, logLevelOf: string -> Option<string>)
    requires WellTyped(s)
    ensures InBlocks(SettingCalls(st, s, logLevelOf), Index(st), Index(st) + 1)
    ensures Covers(SettingCalls(st, s, logLevelOf), Index(st), Index(st) + 1, s, logLevelOf)
  {
    var calls := SettingCalls(st, s, logLevelOf);
    BlockOfSettingCalls(st, s, logLevelOf);
    SingleBlockCovers(st, calls, s, logLevelOf);
  }

  lemma SingleBlockCovers(st: Setting, calls: seq<SdkCall>, s: Settings, logLevelOf: string -> Option<string>)
    requires WellTyped(s) && calls == SettingCalls(st, s, logLevelOf)
    requires forall c :: c in calls ==> Block(c) == Some(st)
    ensures Covers(calls, Index(st), Index(st) + 1, s, logLevelOf)
  {
    forall other: Setting | Index(st) <= Index(other) < Index(st) + 1 ensures other == st {
      IndexInjective(st, other);
    }
  }

  /** Two logs of consecutive block ranges, one after the other, form a log of the joint range. */
  lemma InBlocksAppend(a: seq<SdkCall>, b: seq<SdkCall>, lo: nat, mid: nat, hi: nat)
    requires lo <= mid <= hi
    requires InBlocks(a, lo, mid) && InBlocks(b, mid, hi)
    ensures InBlocks(a + b, lo, hi)
  {
    var ab := a + b;
    forall i | 0 <= i < |ab| ensures lo <= Rank(ab[i]) < hi {
      if i < |a| {
        assert ab[i] == a[i];
      } else {
        assert ab[i] == b[i - |a|];
      }
    }
    forall i, j | 0 <= i < j < |ab| ensures Rank(ab[i]) < Rank(ab[j]) {
      if j < |a| {
        assert ab[i] == a[i] && ab[j] == a[j];
      } else if i < |a| {
        assert ab[i] == a[i] && ab[j] == b[j - |a|];
      } else {
        assert ab[i] == b[i - |a|] && ab[j] == b[j - |a|];
      }
    }
  }

  lemma CoversAppend(a: seq<SdkCall>, b: seq<SdkCall>, lo: nat, mid: nat, hi: nat, s: Settings,
                     logLevelOf: string -> Option<string>)
    requires WellTyped(s)
    requires InBlocks(a, lo, mid) && InBlocks(b, mid, hi)
    requires Covers(a, lo, mid, s, logLevelOf) && Covers(b, mid, hi, s, logLevelOf)
    ensures Covers(a + b, lo, hi, s, logLevelOf)
  {
    forall st: Setting, c: SdkCall | lo <= Index(st) < hi
      ensures c in SettingCalls(st, s, logLevelOf) <==> c in a + b && Rank(c) == Index(st)
    {
      if c in a {
        var i :| 0 <= i < |a| && a[i] == c;
      }
      if c in b {
        var i :| 0 <= i < |b| && b[i] == c;
      }
    }
  }

  /** `a + b` of consecutive ranges keeps both properties. */
  lemma Consecutive(a: seq<SdkCall>, b: seq<SdkCall>, lo: nat, mid: nat, hi: nat, s: Settings,
                    logLevelOf: string -> Option<string>)
    requires WellTyped(s) && lo <= mid <= hi
    requires InBlocks(a, lo, mid) && InBlocks(b, mid, hi)
    requires Covers(a, lo, mid, s, logLevelOf) && Covers(b, mid, hi, s, logLevelOf)
    ensures InBlocks(a + b, lo, hi) && Covers(a + b, lo, hi, s, logLevelOf)
  {
    InBlocksAppend(a, b, lo, mid, hi);
    CoversAppend(a, b, lo, mid, hi, s, logLevelOf);
  }

  /**
   * The calls of the blocks `lo` to `hi - 1` follow the blocks in source
   * order, at most one per block, and the calls of each block are exactly
   * that block's calls.
   */
  lemma {:induction false} BlocksCallsOrder(s: Settings, logLevelOf: string -> Option<string>, lo: nat, hi: nat)
    requires WellTyped(s) && lo <= hi <= SETTING_COUNT
    ensures InBlocks(BlocksCalls(s, logLevelOf, lo, hi), lo, hi)
    ensures Covers(BlocksCalls(s, logLevelOf, lo, hi), lo, hi, s, logLevelOf)
    decreases hi
  {
    if lo < hi {
      BlocksCallsOrder(s, logLevelOf, lo, hi - 1);
      BlocksOrderStep(s, logLevelOf, lo, hi);
    }
  }

  /** One more block keeps the calls in block order and each block's calls intact. */
  lemma BlocksOrderStep(s: Settings, logLevelOf: string -> Option<string>, lo: nat, hi: nat)
    requires WellTyped(s) && lo < hi <= SETTING_COUNT
    requires InBlocks(BlocksCalls(s, logLevelOf, lo, hi - 1), lo, hi - 1)
    requires Covers(BlocksCalls(s, logLevelOf, lo, hi - 1), lo, hi - 1, s, logLevelOf)
    ensures InBlocks(BlocksCalls(s, logLevelOf, lo, hi), lo, hi)
    ensures Covers(BlocksCalls(s, logLevelOf, lo, hi), lo, hi, s, logLevelOf)
  {
    var st := SettingAt(hi - 1);
    var init := BlocksCalls(s, logLevelOf, lo, hi - 1);
    var last := SettingCalls(st, s, logLevelOf);
    BlocksStep(s, logLevelOf, lo, hi, st);
    SingleBlock(st, s, logLevelOf);
    assert Index(st) == hi - 1;
    Consecutive(init, last, lo, hi - 1, hi, s, logLevelOf);
    assert BlocksCalls(s, logLevelOf, lo, hi) == init + last;
  }

  /** All the settings calls of `initialize`: in block order, and each block's calls and no others. */
  lemma SettingsCallsOrder(s: Settings, logLevelOf: string -> Option<string>)
    requires WellTyped(s)
    ensures InBlocks(SettingsCalls(s, logLevelOf), 0, SETTING_COUNT)
    ensures Covers(SettingsCalls(s, logLevelOf), 0, SETTING_COUNT, s, logLevelOf)
  {
    BlocksCallsOrder(s, logLevelOf, 0, SETTING_COUNT);
  }

  /** A settings call is made only for a key that is present. */
  lemma SettingsCallsNeedTheirKey(s: Settings, logLevelOf: string -> Option<string>)
    requires WellTyped(s)
    ensures forall c :: c in SettingsCalls(s, logLevelOf) ==> Block(c).Some? && Key(Block(c).value) in s
  {
    SettingsCallsOrder(s, logLevelOf);
    forall c | c in SettingsCalls(s, logLevelOf) ensures Block(c).Some? && Key(Block(c).value) in s {
      var i :| 0 <= i < |SettingsCalls(s, logLevelOf)| && SettingsCalls(s, logLevelOf)[i] == c;
      var st := SettingAt(Rank(c));
      SettingAtIndex(st);
      assert c in SettingCalls(st, s, logLevelOf);
      BlockOfSettingCalls(st, s, logLevelOf);
    }
  }

  /** No settings block initialises or starts the SDK or logs an error. */
  lemma SettingsCallsPrecedeStart(s: Settings, logLevelOf: string -> Option<string>)
    requires WellTyped(s)
    ensures forall c :: c in SettingsCalls(s, logLevelOf) ==> Rank(c) < SETTING_COUNT
  {
    SettingsCallsOrder(s, logLevelOf);
    forall c | c in SettingsCalls(s, logLevelOf) ensures Rank(c) < SETTING_COUNT {
      var i :| 0 <= i < |SettingsCalls(s, logLevelOf)| && SettingsCalls(s, logLevelOf)[i] == c;
    }
  }

  /**
   * `initialize` makes its settings calls first and then either initialises
   * and starts the SDK with the stored dev key or, without one, logs the
   * error alone.
   */
  lemma InitializeCallsOrder(stored: Option<string>, devKey: Option<string>, configSettings: Option<Settings>,
                             logLevelOf: string -> Option<string>)
    requires configSettings.Some? ==> WellTyped(configSettings.value)
    ensures var calls := InitializeCalls(stored, devKey, configSettings, logLevelOf);
            var tail := StartCalls(UpdatedDevKey(stored, devKey));
            && |calls| >= |tail|
            && calls[|calls| - |tail|..] == tail
            && (forall i :: 0 <= i < |calls| - |tail| ==> Rank(calls[i]) < SETTING_COUNT)
  {
    var calls := InitializeCalls(stored, devKey, configSettings, logLevelOf);
    var settingsCalls := match configSettings case Some(s) => SettingsCalls(s, logLevelOf) case None => [];
    var tail := StartCalls(UpdatedDevKey(stored, devKey));
    assert calls == settingsCalls + tail;
    if configSettings.Some? {
      SettingsCallsPrecedeStart(configSettings.value, logLevelOf);
    }
    forall i | 0 <= i < |settingsCalls| ensures Rank(calls[i]) < SETTING_COUNT {
      assert calls[i] == settingsCalls[i];
    }
    assert calls[|settingsCalls|..] == tail;
  }

  /** Calls that all come from settings blocks, followed by the start calls of a key. */
  lemma StartAfterSettings(settingsCalls: seq<SdkCall>, key: Option<string>)
    requires forall c :: c in settingsCalls ==> Rank(c) < SETTING_COUNT
    ensures forall k :: Init(k) in settingsCalls + StartCalls(key) <==> key == Some(k)
    ensures Start in settingsCalls + StartCalls(key) <==> key.Some?
    ensures LogError(MissingDevKey) in settingsCalls + StartCalls(key) <==> key.None?
  {
    assert Rank(Start) == SETTING_COUNT && Rank(LogError(MissingDevKey)) == SETTING_COUNT;
    assert forall k :: Rank(Init(k)) == SETTING_COUNT;
  }

  /** The SDK is initialised with a key and started exactly when a key is stored after the update. */
  lemma InitializeStartsIff(stored: Option<string>, devKey: Option<string>, configSettings: Option<Settings>,
                            logLevelOf: string -> Option<string>)
    requires configSettings.Some? ==> WellTyped(configSettings.value)
    ensures forall k :: Init(k) in InitializeCalls(stored, devKey, configSettings, logLevelOf) <==>
      UpdatedDevKey(stored, devKey) == Some(k)
    ensures Start in InitializeCalls(stored, devKey, configSettings, logLevelOf) <==> UpdatedDevKey(stored, devKey).Some?
    ensures LogError(MissingDevKey) in InitializeCalls(stored, devKey, configSettings, logLevelOf) <==>
      UpdatedDevKey(stored, devKey).None?
  {
    var settingsCalls := match configSettings case Some(s) => SettingsCalls(s, logLevelOf) case None => [];
    if configSettings.Some? {
      SettingsCallsPrecedeStart(configSettings.value, logLevelOf);
    }
    StartAfterSettings(settingsCalls, UpdatedDevKey(stored, devKey));
  }

  // ---- One block at a time ---------------------------------------------------------

  /** The store-as-is settings make their call exactly when their key is present. */
  lemma AlwaysForwardedCalls(st: Setting, s: Settings, logLevelOf: string -> Option<string>)
    requires WellTyped(s) && AlwaysForwarded(st)
    ensures |SettingCalls(st, s, logLevelOf)| == 1 <==> Key(st) in s
    ensures Key(st) !in s ==> SettingCalls(st, s, logLevelOf) == []
  {
  }

  /** The host is set only when both the host and its prefix are present. */
  lemma HostSettingCalls(s: Settings, logLevelOf: string -> Option<string>)
    requires WellTyped(s)
    ensures SettingCalls(HostSetting, s, logLevelOf) != [] <==> HOST in s && HOST_PREFIX in s
    ensures HOST in s && HOST_PREFIX in s ==>
      SettingCalls(HostSetting, s, logLevelOf) == [SdkCall.SetHost(s[HOST].json.s, s[HOST_PREFIX].json.s)]
  {
  }

  /** The app-set id is disabled only by a `true` flag; `false` makes no call. */
  lemma AppSetIdSettingCalls(s: Settings, logLevelOf: string -> Option<string>)
    requires WellTyped(s)
    ensures SettingCalls(DisableAppSetIdSetting, s, logLevelOf) ==
      if DISABLE_APPSET_ID in s && s[DISABLE_APPSET_ID] == JsonValue(JBool(true)) then [DisableAppSetId] else []
  {
  }

  /** Preinstall attribution needs a map with a non-empty media source and campaign; the site id may be missing. */
  lemma PreinstallSettingCalls(s: Settings, logLevelOf: string -> Option<string>)
    requires WellTyped(s)
    ensures SettingCalls(PreinstallAttribution, s, logLevelOf) != [] <==>
      && PREINSTALL_ATTRIBUTION in s && s[PREINSTALL_ATTRIBUTION].MapValue?
      && StringEntry(s[PREINSTALL_ATTRIBUTION].entries, MEDIA_SOURCE).GetOr("") != ""
      && StringEntry(s[PREINSTALL_ATTRIBUTION].entries, CAMPAIGN).GetOr("") != ""
    ensures SettingCalls(PreinstallAttribution, s, logLevelOf) != [] ==>
      var data := s[PREINSTALL_ATTRIBUTION].entries;
      SettingCalls(PreinstallAttribution, s, logLevelOf) ==
        [SetPreinstallAttribution(StringEntry(data, MEDIA_SOURCE).value, StringEntry(data, CAMPAIGN).value,
                                  StringEntry(data, SITE_ID))]
  {
  }

  /** The settings whose value is passed on only when it is a Kotlin list. */
  predicate IsListSetting(st: Setting) {
    st.OneLinkCustomDomains? || st.CustomerEmails? || st.ResolveDeepLinks?
  }

  /** A list setting is skipped silently when its value is not a list. */
  lemma ListSettingCalls(st: Setting, s: Settings, logLevelOf: string -> Option<string>)
    requires WellTyped(s) && IsListSetting(st)
    ensures SettingCalls(st, s, logLevelOf) != [] <==> Key(st) in s && s[Key(st)].ListValue?
    ensures Key(st) in s && s[Key(st)].ListValue? ==>
      SettingCalls(st, s, logLevelOf)[0] ==
        if st.OneLinkCustomDomains? then SetOneLinkCustomDomain(AsStringList(s[Key(st)]).value)
        else if st.CustomerEmails? then SetUserEmails(EmailsCryptTypes[HashIndex(s)], AsStringList(s[Key(st)]).value)
        else SetResolveDeepLinkURLs(AsStringList(s[Key(st)]).value)
  {
  }

  /** `OUT_OF_STORE` and `EXTENSION` are cast with `as? String` and skipped silently for another type. */
  lemma SoftStringSettingCalls(st: Setting, s: Settings, logLevelOf: string -> Option<string>)
    requires WellTyped(s) && (st.OutOfStore? || st.Extension?)
    ensures SettingCalls(st, s, logLevelOf) != [] <==> Key(st) in s && IsString(s[Key(st)])
    ensures Key(st) in s && IsString(s[Key(st)]) ==>
      SettingCalls(st, s, logLevelOf) ==
        [if st.OutOfStore? then SetOutOfStore(s[Key(st)].json.s) else SetExtension(s[Key(st)].json.s)]
  {
  }

  /** The log level is set only for a name `LogLevel.fromString` knows. */
  lemma LogLevelSettingCalls(s: Settings, logLevelOf: string -> Option<string>)
    requires WellTyped(s)
    ensures SettingCalls(LogLevel, s, logLevelOf) != [] <==> LOG_LEVEL in s && logLevelOf(s[LOG_LEVEL].json.s).Some?
    ensures LOG_LEVEL in s && logLevelOf(s[LOG_LEVEL].json.s).Some? ==>
      SettingCalls(LogLevel, s, logLevelOf) == [SetLogLevel(logLevelOf(s[LOG_LEVEL].json.s).value)]
  {
  }

  /** The e-mails are hashed with `EmailsCryptType.values()[hashType]`, `NONE` when no hash type is given. */
  lemma EmailSettingCalls(s: Settings, logLevelOf: string -> Option<string>)
    requires WellTyped(s)
    requires CUSTOMER_EMAILS in s && s[CUSTOMER_EMAILS].ListValue?
    ensures var emails := AsStringList(s[CUSTOMER_EMAILS]).value;
      SettingCalls(CustomerEmails, s, logLevelOf) == [SetUserEmails(EmailsCryptTypes[HashIndex(s)], emails)]
    ensures EMAIL_HASH_TYPE !in s ==> SettingCalls(CustomerEmails, s, logLevelOf)[0].cryptType == NONE
  {
  }

  /** The custom data is the string-valued part of the object. */
  lemma CustomDataSettingCalls(s: Settings, logLevelOf: string -> Option<string>)
    requires WellTyped(s) && CUSTOM_DATA in s
    ensures SettingCalls(CustomData, s, logLevelOf) == [SetAdditionalData(StringFields(s[CUSTOM_DATA].json.fields))]
  {
  }

  /** The settings as the dispatcher passes them on: every value is an org.json value. */
  function JsonSettings(config: map<string, Json>): (s: Settings)
    ensures forall key :: key in s <==> key in config
    ensures forall key :: key in s ==> s[key] == JsonValue(config[key])
  {
    map key | key in config :: JsonValue(config[key])
  }

  /**
   * Settings that come from org.json hold `JSONArray`s and `JSONObject`s,
   * never Kotlin lists or maps, so the soft `as? List<String>` and
   * `as? Map<String, Any>` casts fail and these four blocks never call the SDK.
   */
  lemma JsonSettingsSkipListsAndPreinstall(config: map<string, Json>, logLevelOf: string -> Option<string>)
    requires WellTyped(JsonSettings(config))
    ensures SettingCalls(OneLinkCustomDomains, JsonSettings(config), logLevelOf) == []
    ensures SettingCalls(CustomerEmails, JsonSettings(config), logLevelOf) == []
    ensures SettingCalls(ResolveDeepLinks, JsonSettings(config), logLevelOf) == []
    ensures SettingCalls(PreinstallAttribution, JsonSettings(config), logLevelOf) == []
  {
    var s := JsonSettings(config);
    ListSettingCalls(OneLinkCustomDomains, s, logLevelOf);
    ListSettingCalls(CustomerEmails, s, logLevelOf);
    ListSettingCalls(ResolveDeepLinks, s, logLevelOf);
    PreinstallSettingCalls(s, logLevelOf);
  }

  // ---- The dev key, toMap and the purchase type ------------------------------------

  /** The dev-key rule of `initialize`. */
  lemma DevKeyRules(stored: Option<string>, devKey: Option<string>)
    ensures devKey.Some? && devKey.value != "" ==> UpdatedDevKey(stored, devKey) == devKey
    ensures devKey.None? || devKey.value == "" ==> UpdatedDevKey(stored, devKey) == stored
    ensures stored.Some? ==> UpdatedDevKey(stored, devKey).Some?
    ensures UpdatedDevKey(stored, devKey) == Some("") ==> stored == Some("")
    ensures UpdatedDevKey(UpdatedDevKey(stored, devKey), devKey) == UpdatedDevKey(stored, devKey)
  {
  }

  /** A `JSONObject` holding the strings of the map. */
  function StringObject(m: map<string, string>): (json: Payload)
    ensures forall key :: key in json <==> key in m
    ensures forall key :: key in json ==> json[key] == JString(m[key])
  {
    map key | key in m :: JString(m[key])
  }

  /** `toMap` gives back every entry of an object of strings. */
  lemma StringFieldsOfStringObject(m: map<string, string>)
    ensures StringFields(StringObject(m)) == m
  {
    assert StringFields(StringObject(m)).Keys == m.Keys;
  }

  /** `toMap` loses nothing exactly when every value of the object is a string. */
  lemma StringFieldsLossless(json: Payload)
    ensures StringObject(StringFields(json)) == json <==> forall key :: key in json ==> json[key].JString?
  {
    if forall key :: key in json ==> json[key].JString? {
      assert StringObject(StringFields(json)).Keys == json.Keys;
    } else {
      var key :| key in json && !json[key].JString?;
      assert key !in StringObject(StringFields(json));
    }
  }

  /** `equals(ignoreCase = true)` does not see a lowered letter. */
  lemma {:induction false} IgnoreCaseLowered(s: string, t: string)
    ensures EqualsIgnoreCase(Lowercase(s), t) <==> EqualsIgnoreCase(s, t)
  {
    var l := Lowercase(s);
    if |s| == |t| {
      forall i | 0 <= i < |s| ensures CharEqualsIgnoreCase(l[i], t[i]) <==> CharEqualsIgnoreCase(s[i], t[i]) {
        if s[i] == '\U{212A}' {
          assert l[i] == 'k';
          assert LowerCharFull(UpperChar(l[i])) == LowerCharFull(UpperChar(s[i]));
        } else {
          assert UpperChar(l[i]) == UpperChar(s[i]);
        }
      }
    }
  }

  /** The purchase type does not depend on the case of the letters `Lowercase` lowers. */
  lemma PurchaseTypeIgnoresCase(purchaseType: string)
    ensures PurchaseTypeOf(Lowercase(purchaseType)) == PurchaseTypeOf(purchaseType)
  {
    IgnoreCaseLowered(purchaseType, "subscription");
  }

  /**
   * For an ASCII name, the purchase type is a subscription exactly when the
   * name is "subscription" up to case; every other name is a one-time purchase.
   */
  lemma PurchaseTypeAscii(purchaseType: string)
    requires forall i :: 0 <= i < |purchaseType| ==> purchaseType[i] < 128 as char
    ensures PurchaseTypeOf(purchaseType) == SUBSCRIPTION <==> Lowercase(purchaseType) == "subscription"
    ensures Lowercase(purchaseType) != "subscription" ==> PurchaseTypeOf(purchaseType) == ONE_TIME_PURCHASE
  {
    var word := "subscription";
    assert forall i :: 0 <= i < |word| ==> 'a' <= word[i] <= 'z';
    EqualsIgnoreCaseAscii(purchaseType, word);
  }

  lemma PurchaseTypeExamples()
    ensures PurchaseTypeOf("subscription") == SUBSCRIPTION
    ensures PurchaseTypeOf("") == ONE_TIME_PURCHASE
    ensures PurchaseTypeOf("subscriptions") == ONE_TIME_PURCHASE
  {
    assert EqualsIgnoreCase("subscription", "subscription");
  }

  lemma PurchaseTypeUpperCase()
    ensures PurchaseTypeOf("SUBSCRIPTION") == SUBSCRIPTION
  {
    assert EqualsIgnoreCase("SUBSCRIPTION", "subscription");
  }

  // ---- The SDK and the adapter ----------------------------------------------------

  /** The SDK and the error log as the log of the calls made on them. */
  class AppsFlyerLib {
    var calls: seq<SdkCall>

    constructor ()
      ensures calls == []
    {
      calls := [];
    }

    method Record(call: SdkCall)
      modifies this
      ensures calls == old(calls) + [call]
    {
      calls := calls + [call];
    }
  }

  class AppsFlyerInstance {
    var appsFlyerDevKey: Option<string>
    const sdk: AppsFlyerLib
    /** `LogLevel.fromString`, followed by the name of the `AFLogger.LogLevel` it selects. */
    const logLevelOf: string -> Option<string>
    /** `MediationNetwork.fromString`, followed by `toAppsFlyerEnum()`. */
    const mediationNetworkOf: string -> Option<string>

    constructor (appsFlyerDevKey: Option<string>, sdk: AppsFlyerLib,
                 logLevelOf: string -> Option<string>, mediationNetworkOf: string -> Option<string>)
      ensures this.appsFlyerDevKey == appsFlyerDevKey && this.sdk == sdk
      ensures this.logLevelOf == logLevelOf && this.mediationNetworkOf == mediationNetworkOf
    {
      this.appsFlyerDevKey := appsFlyerDevKey;
      this.sdk := sdk;
      this.logLevelOf := logLevelOf;
      this.mediationNetworkOf := mediationNetworkOf;
    }

    /**
     * `initialize`: one block per recognised setting, in order, then a
     * non-empty `devKey` replaces the stored key and the SDK is initialised
     * and started with the stored key, or an error is logged.
     */
    method Initialize(devKey: Option<string>, configSettings: Option<Settings>)
      requires configSettings.Some? ==> WellTyped(configSettings.value)
      modifies this, sdk
      ensures appsFlyerDevKey == UpdatedDevKey(old(appsFlyerDevKey), devKey)
      ensures sdk.calls == old(sdk.calls) + InitializeCalls(old(appsFlyerDevKey), devKey, configSettings, logLevelOf)
    {
      ghost var before := sdk.calls;
      ghost var settingsCalls: seq<SdkCall> := [];
      if configSettings.Some? {
        ApplySettings(configSettings.value);
        settingsCalls := SettingsCalls(configSettings.value, logLevelOf);
      }
      ghost var afterSettings := sdk.calls;
      assert afterSettings == before + settingsCalls;
      if devKey.Some? && devKey.value != "" {
        appsFlyerDevKey := devKey;
      }
      if appsFlyerDevKey.Some? {
        InitAndStartAppsFlyer(appsFlyerDevKey.value);
      } else {
        sdk.Record(LogError(MissingDevKey));
      }
      assert sdk.calls == afterSettings + StartCalls(appsFlyerDevKey);
      AppendAssoc(before, settingsCalls, StartCalls(appsFlyerDevKey));
    }

    /** The blocks of `initialize` that read `settings`, in order. */
    method ApplySettings(settings: Settings)
      requires WellTyped(settings)
      modifies sdk
      ensures sdk.calls == old(sdk.calls) + SettingsCalls(settings, logLevelOf)
    {
      ghost var start := sdk.calls;
      ApplyOriginalSettings(settings);
      ApplyIdentifierOptions(settings);
      AppendAssoc(start, BlocksCalls(settings, logLevelOf, 0, 4), BlocksCalls(settings, logLevelOf, 4, 9));
      BlocksAppend(settings, logLevelOf, 0, 4, 9);
      ApplyLinkOptions(settings);
      AppendAssoc(start, BlocksCalls(settings, logLevelOf, 0, 9), BlocksCalls(settings, logLevelOf, 9, 13));
      BlocksAppend(settings, logLevelOf, 0, 9, 13);
      ApplyDeviceOptions(settings);
      AppendAssoc(start, BlocksCalls(settings, logLevelOf, 0, 13), BlocksCalls(settings, logLevelOf, 13, 18));
      BlocksAppend(settings, logLevelOf, 0, 13, 18);
      ApplyInstallOptions(settings);
      AppendAssoc(start, BlocksCalls(settings, logLevelOf, 0, 18), BlocksCalls(settings, logLevelOf, 18, 22));
      BlocksAppend(settings, logLevelOf, 0, 18, 22);
    }

    /** The blocks before the new configuration options: session time, anonymisation, custom data, debug logging. */
    method ApplyOriginalSettings(settings: Settings)
      requires WellTyped(settings)
      modifies sdk
      ensures sdk.calls == old(sdk.calls) + BlocksCalls(settings, logLevelOf, 0, 4)
    {
      ghost var start := sdk.calls;
      ApplySetting(MinTimeBetweenSessions, settings);
      ghost var expected := SettingCalls(MinTimeBetweenSessions, settings, logLevelOf);
      ApplySetting(AnonymizeUserSetting, settings);
      AppendAssoc(start, expected, SettingCalls(AnonymizeUserSetting, settings, logLevelOf));
      expected := expected + SettingCalls(AnonymizeUserSetting, settings, logLevelOf);
      ApplySetting(CustomData, settings);
      AppendAssoc(start, expected, SettingCalls(CustomData, settings, logLevelOf));
      expected := expected + SettingCalls(CustomData, settings, logLevelOf);
      ApplySetting(Debug, settings);
      AppendAssoc(start, expected, SettingCalls(Debug, settings, logLevelOf));
      expected := expected + SettingCalls(Debug, settings, logLevelOf);
      OriginalBlocks(settings, logLevelOf);
    }

    /** Advertising ids, network data, the app-set id, TCF data collection, the OneLink invite id. */
    method ApplyIdentifierOptions(settings: Settings)
      requires WellTyped(settings)
      modifies sdk
      ensures sdk.calls == old(sdk.calls) + BlocksCalls(settings, logLevelOf, 4, 9)
    {
      ghost var start := sdk.calls;
      ApplySetting(DisableAdTracking, settings);
      ghost var expected := SettingCalls(DisableAdTracking, settings, logLevelOf);
      ApplySetting(DisableNetworkData, settings);
      AppendAssoc(start, expected, SettingCalls(DisableNetworkData, settings, logLevelOf));
      expected := expected + SettingCalls(DisableNetworkData, settings, logLevelOf);
      ApplySetting(DisableAppSetIdSetting, settings);
      AppendAssoc(start, expected, SettingCalls(DisableAppSetIdSetting, settings, logLevelOf));
      expected := expected + SettingCalls(DisableAppSetIdSetting, settings, logLevelOf);
      ApplySetting(EnableTcfDataCollection, settings);
      AppendAssoc(start, expected, SettingCalls(EnableTcfDataCollection, settings, logLevelOf));
      expected := expected + SettingCalls(EnableTcfDataCollection, settings, logLevelOf);
      ApplySetting(AppInviteOneLinkId, settings);
      AppendAssoc(start, expected, SettingCalls(AppInviteOneLinkId, settings, logLevelOf));
      expected := expected + SettingCalls(AppInviteOneLinkId, settings, logLevelOf);
      IdentifierBlocks(settings, logLevelOf);
    }

    /** OneLink domains, e-mails, the host, deep-link URLs. */
    method ApplyLinkOptions(settings: Settings)
      requires WellTyped(settings)
      modifies sdk
      ensures sdk.calls == old(sdk.calls) + BlocksCalls(settings, logLevelOf, 9, 13)
    {
      ghost var start := sdk.calls;
      ApplySetting(OneLinkCustomDomains, settings);
      ghost var expected := SettingCalls(OneLinkCustomDomains, settings, logLevelOf);
      ApplySetting(CustomerEmails, settings);
      AppendAssoc(start, expected, SettingCalls(CustomerEmails, settings, logLevelOf));
      expected := expected + SettingCalls(CustomerEmails, settings, logLevelOf);
      ApplySetting(HostSetting, settings);
      AppendAssoc(start, expected, SettingCalls(HostSetting, settings, logLevelOf));
      expected := expected + SettingCalls(HostSetting, settings, logLevelOf);
      ApplySetting(ResolveDeepLinks, settings);
      AppendAssoc(start, expected, SettingCalls(ResolveDeepLinks, settings, logLevelOf));
      expected := expected + SettingCalls(ResolveDeepLinks, settings, logLevelOf);
      LinkBlocks(settings, logLevelOf);
    }

    /** Android id, IMEI, log level, waiting for the user id, Facebook deferred app links. */
    method ApplyDeviceOptions(settings: Settings)
      requires WellTyped(settings)
      modifies sdk
      ensures sdk.calls == old(sdk.calls) + BlocksCalls(settings, logLevelOf, 13, 18)
    {
      ghost var start := sdk.calls;
      ApplySetting(CollectAndroidId, settings);
      ghost var expected := SettingCalls(CollectAndroidId, settings, logLevelOf);
      ApplySetting(CollectImei, settings);
      AppendAssoc(start, expected, SettingCalls(CollectImei, settings, logLevelOf));
      expected := expected + SettingCalls(CollectImei, settings, logLevelOf);
      ApplySetting(LogLevel, settings);
      AppendAssoc(start, expected, SettingCalls(LogLevel, settings, logLevelOf));
      expected := expected + SettingCalls(LogLevel, settings, logLevelOf);
      ApplySetting(WaitForCustomerUserIdSetting, settings);
      AppendAssoc(start, expected, SettingCalls(WaitForCustomerUserIdSetting, settings, logLevelOf));
      expected := expected + SettingCalls(WaitForCustomerUserIdSetting, settings, logLevelOf);
      ApplySetting(EnableFacebookDeferredApplinksSetting, settings);
      AppendAssoc(start, expected, SettingCalls(EnableFacebookDeferredApplinksSetting, settings, logLevelOf));
      expected := expected + SettingCalls(EnableFacebookDeferredApplinksSetting, settings, logLevelOf);
      DeviceBlocks(settings, logLevelOf);
    }

    /** Out-of-store source, update flag, extension, preinstall attribution. */
    method ApplyInstallOptions(settings: Settings)
      requires WellTyped(settings)
      modifies sdk
      ensures sdk.calls == old(sdk.calls) + BlocksCalls(settings, logLevelOf, 18, 22)
    {
      ghost var start := sdk.calls;
      ApplySetting(OutOfStore, settings);
      ghost var expected := SettingCalls(OutOfStore, settings, logLevelOf);
      ApplySetting(IsUpdate, settings);
      AppendAssoc(start, expected, SettingCalls(IsUpdate, settings, logLevelOf));
      expected := expected + SettingCalls(IsUpdate, settings, logLevelOf);
      ApplySetting(Extension, settings);
      AppendAssoc(start, expected, SettingCalls(Extension, settings, logLevelOf));
      expected := expected + SettingCalls(Extension, settings, logLevelOf);
      ApplySetting(PreinstallAttribution, settings);
      AppendAssoc(start, expected, SettingCalls(PreinstallAttribution, settings, logLevelOf));
      expected := expected + SettingCalls(PreinstallAttribution, settings, logLevelOf);
      InstallBlocks(settings, logLevelOf);
    }

    /** One block of `initialize`. */
    method ApplySetting(st: Setting, settings: Settings)
      requires WellTyped(settings)
      modifies sdk
      ensures sdk.calls == old(sdk.calls) + SettingCalls(st, settings, logLevelOf)
    {
      var key := Key(st);
      if key in settings {
        var value := settings[key];
        match st
        case MinTimeBetweenSessions =>
          sdk.Record(SetMinTimeBetweenSessions(value.json.i));
        case AnonymizeUserSetting =>
          sdk.Record(AnonymizeUser(value.json.b));
        case CustomData =>
          var data := ToMap(value.json.fields);
          var entries := data.Keys;
          var dataMap: map<string, string> := map[];
          while entries != {}
            invariant entries <= data.Keys
            invariant dataMap.Keys == data.Keys - entries
            invariant forall k :: k in dataMap ==> dataMap[k] == data[k]
            decreases entries
          {
            var entry :| entry in entries;
            dataMap := dataMap[entry := data[entry]];
            entries := entries - {entry};
          }
          assert dataMap == data;
          sdk.Record(SetAdditionalData(dataMap));
        case Debug =>
          sdk.Record(SetDebugLog(value.json.b));
        case DisableAdTracking =>
          sdk.Record(SetDisableAdvertisingIdentifiers(value.json.b));
        case DisableNetworkData =>
          sdk.Record(SetDisableNetworkData(value.json.b));
        case DisableAppSetIdSetting =>
          if value.json.b {
            sdk.Record(DisableAppSetId);
          }
        case EnableTcfDataCollection =>
          sdk.Record(EnableTCFDataCollection(value.json.b));
        case AppInviteOneLinkId =>
          sdk.Record(SetAppInviteOneLink(value.json.s));
        case OneLinkCustomDomains =>
          var domains := AsStringList(value);
          if domains.Some? {
            sdk.Record(SetOneLinkCustomDomain(domains.value));
          }
        case CustomerEmails =>
          var emails := AsStringList(value);
          if emails.Some? {
            var hashType := HashIndex(settings);
            var cryptType := EmailsCryptTypes[hashType];
            sdk.Record(SetUserEmails(cryptType, emails.value));
          }
        case HostSetting =>
          if HOST_PREFIX in settings {
            var host := value.json.s;
            var hostPrefix := settings[HOST_PREFIX].json.s;
            sdk.Record(SdkCall.SetHost(host, hostPrefix));
          }
        case ResolveDeepLinks =>
          var urls := AsStringList(value);
          if urls.Some? {
            sdk.Record(SetResolveDeepLinkURLs(urls.value));
          }
        case CollectAndroidId =>
          sdk.Record(SetCollectAndroidID(value.json.b));
        case CollectImei =>
          sdk.Record(SetCollectIMEI(value.json.b));
        case LogLevel =>
          var logLevel := logLevelOf(value.json.s);
          if logLevel.Some? {
            sdk.Record(SetLogLevel(logLevel.value));
          }
        case WaitForCustomerUserIdSetting =>
          sdk.Record(SdkCall.WaitForCustomerUserId(value.json.b));
        case EnableFacebookDeferredApplinksSetting =>
          sdk.Record(SdkCall.EnableFacebookDeferredApplinks(value.json.b));
        case OutOfStore =>
          var outOfStore := AsString(value);
          if outOfStore.Some? {
            sdk.Record(SetOutOfStore(outOfStore.value));
          }
        case IsUpdate =>
          sdk.Record(SetIsUpdate(value.json.b));
        case Extension =>
          var extension := AsString(value);
          if extension.Some? {
            sdk.Record(SetExtension(extension.value));
          }
        case PreinstallAttribution =>
          if value.MapValue? {
            var data := value.entries;
            var mediaSource := StringEntry(data, MEDIA_SOURCE);
            var campaign := StringEntry(data, CAMPAIGN);
            var siteId := StringEntry(data, SITE_ID);
            if mediaSource.Some? && mediaSource.value != "" && campaign.Some? && campaign.value != "" {
              sdk.Record(SetPreinstallAttribution(mediaSource.value, campaign.value, siteId));
            }
          }
      }
    }

    /** `initAndStartAppsFlyer`: initialise the SDK with the key, then start it. */
    method InitAndStartAppsFlyer(devKey: string)
      modifies sdk
      ensures sdk.calls == old(sdk.calls) + [Init(devKey), Start]
    {
      sdk.Record(Init(devKey));
      sdk.Record(Start);
    }

    /** `setHost`: the SDK call only with a prefix. */
    method SetHost(host: string, hostPrefix: Option<string>)
      modifies sdk
      ensures sdk.calls == old(sdk.calls) + HostCalls(host, hostPrefix)
    {
      if hostPrefix.Some? {
        sdk.Record(SdkCall.SetHost(host, hostPrefix.value));
      }
    }

    /** `logAdRevenue`: refused with a logged error when the mediation network is unknown. */
    method LogAdRevenue(monetizationNetwork: string, mediationNetwork: string, revenue: Double, currency: string,
                        additionalParams: Option<map<string, Value>>)
      modifies sdk
      ensures sdk.calls == old(sdk.calls) +
        AdRevenueCalls(monetizationNetwork, mediationNetwork, revenue, currency, additionalParams, mediationNetworkOf)
    {
      var mediationNetworkEnum := mediationNetworkOf(mediationNetwork);
      if mediationNetworkEnum.None? {
        sdk.Record(LogError(UnknownMediationNetwork(mediationNetwork)));
        return;
      }
      sdk.Record(SdkCall.LogAdRevenue(monetizationNetwork, mediationNetworkEnum.value, currency, revenue, additionalParams));
    }

    /** `validateAndLogPurchase`: the purchase details with the chosen purchase type. */
    method ValidateAndLogPurchase(purchaseType: string, purchaseToken: string, productId: string, price: string,
                                  currency: string, additionalParams: Option<map<string, string>>)
      modifies sdk
      ensures sdk.calls == old(sdk.calls) +
        [ValidateAndLogInAppPurchase(PurchaseTypeOf(purchaseType), purchaseToken, productId, price, currency, additionalParams)]
    {
      var afPurchaseType := PurchaseTypeOf(purchaseType);
      sdk.Record(ValidateAndLogInAppPurchase(afPurchaseType, purchaseToken, productId, price, currency, additionalParams));
    }
  }

  /** `toMap`: copy the string-valued entries of the object, drop the others. */
  method ToMap(json: Payload) returns (m: map<string, string>)
    ensures m == StringFields(json)
  {
    m := map[];
    var keys := json.Keys;
    while keys != {}
      invariant keys <= json.Keys
      invariant forall key :: key in m <==> key in json.Keys - keys && json[key].JString?
      invariant forall key :: key in m ==> json[key] == JString(m[key])
      decreases keys
    {
      var key :| key in keys;
      if json[key].JString? {
        m := m[key := json[key].s];
      }
      keys := keys - {key};
    }
  }
}
