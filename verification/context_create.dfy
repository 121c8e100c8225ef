/**
  Filling a fresh analytics context from the facts the device reports: application
  build, device identity, locale, network, operating system, screen, user agent and
  timezone, in that order.
 */
module ContextCreate {
  import opened Results
  import opened ValueMap
  import opened Decimal
  import opened ContextParts
  import opened AnalyticsContext

  const LOCALE_KEY := "locale"
  const USER_AGENT_KEY := "userAgent"
  const TIMEZONE_KEY := "timezone"
  const APP_BUILD_KEY := "build"
  const NETWORK_BLUETOOTH_KEY := "network_bluetooth"
  const NETWORK_CARRIER_KEY := "network_carrier"
  const NETWORK_CELLULAR_KEY := "network_cellular"
  const OS_VERSION_KEY := "os_version"
  const SCREEN_DENSITY_KEY := "screen_density"
  const SCREEN_HEIGHT_KEY := "screen_height"
  const SCREEN_WIDTH_KEY := "screen_width"

  /** The sentinel stored for a user agent or timezone that is null or empty. */
  const UNDEFINED := "undefined"
  /** The carrier stored when there is no telephony service. */
  const UNKNOWN_CARRIER := "unknown"

  /** The package manager's answer for the running package. */
  datatype PackageLookup = PackageFound(versionCode: Int32) | NameNotFound

  /** A connectivity manager's report on one network type; `connected` is `isConnected()`. */
  datatype NetworkInfo = NetworkInfo(connected: bool)

  /** The connectivity manager: the info for the bluetooth and the mobile network types, each possibly null. */
  datatype ConnectivityService = ConnectivityService(bluetooth: Option<NetworkInfo>, mobile: Option<NetworkInfo>)

  datatype TelephonyService = TelephonyService(networkOperatorName: string)

  /** The default display's metrics. */
  datatype DisplayMetrics = DisplayMetrics(density: Float32, heightPixels: Int32, widthPixels: Int32)

  /**
    Everything the context reads from the device, the platform and the system
    properties. A `None` service is a system-service lookup that returned null.
   */
  datatype DeviceFacts = DeviceFacts(
    package: PackageLookup,
    deviceId: string,
    manufacturer: string,
    deviceName: string,
    language: string,
    country: string,
    hasNetworkStatePermission: bool,
    connectivity: Option<ConnectivityService>,
    telephony: Option<TelephonyService>,
    osRelease: string,
    window: Option<DisplayMetrics>,
    httpAgent: Option<string>,
    timezoneId: Option<string>)

  /** The null dereferences, and the null value a concurrent map rejects, that make creation throw. */
  datatype CreateError =
    | TraitsMissing         // traits() returned null and its anonymous id was read
    | AnonymousIdMissing    // the anonymous id was null and could not be stored
    | WindowServiceMissing  // the window manager was null and its display was read

  /** The value `putUndefinedIfNull` stores for `value`. */
  function OrUndefined(value: Option<string>): string
  {
    if IsNullOrEmpty(value) then UNDEFINED else value.value
  }

  /** Stores `value`, or the sentinel when it is null or empty; the key is always present afterwards. */
  function PutUndefinedIfNull(m: Entries, key: string, value: Option<string>): (r: Entries)
    ensures key in r && r[key].Str? && |r[key].s| > 0
    ensures IsNullOrEmpty(value) ==> r[key] == Str(UNDEFINED)
    ensures !IsNullOrEmpty(value) ==> r[key] == Str(value.value)
    ensures SameExcept(m, r, {key})
  {
    m[key := Str(OrUndefined(value))]
  }

  /** Records the build number as decimal text when the package lookup succeeds, and nothing otherwise. */
  function PutApp(m: Entries, package: PackageLookup): (r: Entries)
    ensures package.PackageFound? ==> APP_BUILD_KEY in r && r[APP_BUILD_KEY].Str?
    ensures package.PackageFound? ==> ParseInt(r[APP_BUILD_KEY].s) == Some(package.versionCode as int)
    ensures package.PackageFound? ==> r[APP_BUILD_KEY] == Str(IntToString(package.versionCode as int))
    ensures package.NameNotFound? ==> r == m
    ensures SameExcept(m, r, {APP_BUILD_KEY})
  {
    match package
    case PackageFound(code) =>
      IntRoundTrip(code as int);
      m[APP_BUILD_KEY := Str(IntToString(code as int))]
    case NameNotFound => m
  }

  /** The identifier `putDevice` records, or the failure reading it raises. */
  function DeviceIdentifier(m: Entries, facts: DeviceFacts, collectDeviceId: bool): Result<string, CreateError>
  {
    if collectDeviceId then Success(facts.deviceId)
    else match StoredTraits(m)
      case None => Failure(TraitsMissing)
      case Some(traits) =>
        if traits.anonymousId.None? then Failure(AnonymousIdMissing) else Success(traits.anonymousId.value)
  }

  /**
    Records the device id, brand and name at the top level of the context (not under
    a `device` sub-map). Without device-id collection the id is the stored traits'
    anonymous id, and reading it fails when no traits are stored.
   */
  function PutDevice(m: Entries, facts: DeviceFacts, collectDeviceId: bool): (r: Result<Entries, CreateError>)
    ensures !collectDeviceId && StoredTraits(m).None? ==> r == Failure(TraitsMissing)
    ensures !collectDeviceId && StoredTraits(m).Some? && StoredTraits(m).value.anonymousId.None? ==>
              r == Failure(AnonymousIdMissing)
    ensures r.Success? <==> collectDeviceId || (StoredTraits(m).Some? && StoredTraits(m).value.anonymousId.Some?)
    ensures r.Success? && collectDeviceId ==> DEVICE_ID_KEY in r.value && r.value[DEVICE_ID_KEY] == Str(facts.deviceId)
    ensures r.Success? && !collectDeviceId ==>
              DEVICE_ID_KEY in r.value && r.value[DEVICE_ID_KEY] == Str(StoredTraits(m).value.anonymousId.value)
    ensures r.Success? ==> DEVICE_MANUFACTURER_KEY in r.value && r.value[DEVICE_MANUFACTURER_KEY] == Str(facts.manufacturer)
    ensures r.Success? ==> DEVICE_NAME_KEY in r.value && r.value[DEVICE_NAME_KEY] == Str(facts.deviceName)
    ensures r.Success? ==> SameExcept(m, r.value, {DEVICE_ID_KEY, DEVICE_MANUFACTURER_KEY, DEVICE_NAME_KEY})
  {
    var identifier :- DeviceIdentifier(m, facts, collectDeviceId);
    Success(m[DEVICE_ID_KEY := Str(identifier)]
             [DEVICE_MANUFACTURER_KEY := Str(facts.manufacturer)]
             [DEVICE_NAME_KEY := Str(facts.deviceName)])
  }

  /** Whether the network flags are written: the permission is held and a connectivity manager exists. */
  predicate WritesNetworkFlags(facts: DeviceFacts)
  {
    facts.hasNetworkStatePermission && facts.connectivity.Some?
  }

  predicate IsConnected(info: Option<NetworkInfo>)
  {
    info.Some? && info.value.connected
  }

  /**
    Records the bluetooth and cellular connection flags when the permission and the
    connectivity manager allow, and the carrier name, or "unknown" without telephony.
   */
  function PutNetwork(m: Entries, facts: DeviceFacts): (r: Entries)
    ensures NETWORK_CARRIER_KEY in r
    ensures facts.telephony.Some? ==> r[NETWORK_CARRIER_KEY] == Str(facts.telephony.value.networkOperatorName)
    ensures facts.telephony.None? ==> r[NETWORK_CARRIER_KEY] == Str(UNKNOWN_CARRIER)
    ensures WritesNetworkFlags(facts) ==> NETWORK_BLUETOOTH_KEY in r && NETWORK_CELLULAR_KEY in r
    ensures WritesNetworkFlags(facts) ==> r[NETWORK_BLUETOOTH_KEY].Bool? && r[NETWORK_CELLULAR_KEY].Bool?
    ensures WritesNetworkFlags(facts) ==>
              (r[NETWORK_BLUETOOTH_KEY].b <==> IsConnected(facts.connectivity.value.bluetooth))
    ensures WritesNetworkFlags(facts) ==>
              (r[NETWORK_CELLULAR_KEY].b <==> IsConnected(facts.connectivity.value.mobile))
    ensures !WritesNetworkFlags(facts) ==> SameExcept(m, r, {NETWORK_CARRIER_KEY})
    ensures SameExcept(m, r, {NETWORK_BLUETOOTH_KEY, NETWORK_CELLULAR_KEY, NETWORK_CARRIER_KEY})
  {
    var flagged :=
      if WritesNetworkFlags(facts) then
        var manager := facts.connectivity.value;
        m[NETWORK_BLUETOOTH_KEY := Bool(IsConnected(manager.bluetooth))]
         [NETWORK_CELLULAR_KEY := Bool(IsConnected(manager.mobile))]
      else m;
    match facts.telephony
    case Some(telephony) => flagged[NETWORK_CARRIER_KEY := Str(telephony.networkOperatorName)]
    case None => flagged[NETWORK_CARRIER_KEY := Str(UNKNOWN_CARRIER)]
  }

  /** Records the operating system's release string. */
  function PutOs(m: Entries, release: string): (r: Entries)
    ensures GetString(r, OS_VERSION_KEY) == Some(release)
    ensures SameExcept(m, r, {OS_VERSION_KEY})
  {
    m[OS_VERSION_KEY := Str(release)]
  }

  /** Records the display's density, height and width; fails when there is no window manager. */
  function PutScreen(m: Entries, window: Option<DisplayMetrics>): (r: Result<Entries, CreateError>)
    ensures r.Success? <==> window.Some?
    ensures r.Failure? ==> r.error == WindowServiceMissing
    ensures r.Success? ==> ShowsScreen(r.value, window.value)
    ensures r.Success? ==> SameExcept(m, r.value, {SCREEN_DENSITY_KEY, SCREEN_HEIGHT_KEY, SCREEN_WIDTH_KEY})
  {
    match window
    case None => Failure(WindowServiceMissing)
    case Some(metrics) =>
      Success(m[SCREEN_DENSITY_KEY := Float(metrics.density)]
               [SCREEN_HEIGHT_KEY := Int(metrics.heightPixels as int)]
               [SCREEN_WIDTH_KEY := Int(metrics.widthPixels as int)])
  }

  ghost predicate ShowsScreen(e: Entries, metrics: DisplayMetrics)
  {
    && SCREEN_DENSITY_KEY in e && e[SCREEN_DENSITY_KEY] == Float(metrics.density)
    && SCREEN_HEIGHT_KEY in e && e[SCREEN_HEIGHT_KEY] == Int(metrics.heightPixels as int)
    && SCREEN_WIDTH_KEY in e && e[SCREEN_WIDTH_KEY] == Int(metrics.widthPixels as int)
  }

  /** The keys creation always fills, whatever the device reports. */
  const ALWAYS_FILLED: set<string> := {
    DEVICE_ID_KEY, DEVICE_MANUFACTURER_KEY, DEVICE_NAME_KEY, LOCALE_KEY, NETWORK_CARRIER_KEY,
    OS_VERSION_KEY, SCREEN_DENSITY_KEY, SCREEN_HEIGHT_KEY, SCREEN_WIDTH_KEY, USER_AGENT_KEY, TIMEZONE_KEY
  }

  function NetworkFlagKeys(facts: DeviceFacts): set<string>
  {
    if WritesNetworkFlags(facts) then {NETWORK_BLUETOOTH_KEY, NETWORK_CELLULAR_KEY} else {}
  }

  function BuildKeys(package: PackageLookup): set<string>
  {
    if package.PackageFound? then {APP_BUILD_KEY} else {}
  }

  /**
    What a created context says about the device: each value stored is the fact the
    device reported, with the sentinels where the facts are missing.
   */
  ghost predicate RecordsDeviceFacts(e: Entries, facts: DeviceFacts, identifier: string)
  {
    && RecordsIdentity(e, facts, identifier)
    && RecordsLocaleNetworkOs(e, facts)
    && RecordsScreenAgentTimezone(e, facts)
  }

  ghost predicate RecordsIdentity(e: Entries, facts: DeviceFacts, identifier: string)
  {
    && DEVICE_ID_KEY in e && e[DEVICE_ID_KEY] == Str(identifier)
    && DEVICE_MANUFACTURER_KEY in e && e[DEVICE_MANUFACTURER_KEY] == Str(facts.manufacturer)
    && DEVICE_NAME_KEY in e && e[DEVICE_NAME_KEY] == Str(facts.deviceName)
  }

  ghost predicate RecordsLocaleNetworkOs(e: Entries, facts: DeviceFacts)
  {
    && LOCALE_KEY in e && e[LOCALE_KEY] == Str(facts.language + "-" + facts.country)
    && NETWORK_CARRIER_KEY in e
    && e[NETWORK_CARRIER_KEY] == Str(if facts.telephony.Some? then facts.telephony.value.networkOperatorName else UNKNOWN_CARRIER)
    && (WritesNetworkFlags(facts) ==>
          && NETWORK_BLUETOOTH_KEY in e
          && e[NETWORK_BLUETOOTH_KEY] == Bool(IsConnected(facts.connectivity.value.bluetooth))
          && NETWORK_CELLULAR_KEY in e
          && e[NETWORK_CELLULAR_KEY] == Bool(IsConnected(facts.connectivity.value.mobile)))
    && OS_VERSION_KEY in e && e[OS_VERSION_KEY] == Str(facts.osRelease)
  }

  ghost predicate RecordsScreenAgentTimezone(e: Entries, facts: DeviceFacts)
  {
    && facts.window.Some? && ShowsScreen(e, facts.window.value)
    && USER_AGENT_KEY in e && e[USER_AGENT_KEY] == Str(OrUndefined(facts.httpAgent))
    && TIMEZONE_KEY in e && e[TIMEZONE_KEY] == Str(OrUndefined(facts.timezoneId))
  }

  /** The steps of `create` after the application info: device through timezone. */
  function Fill(app: Entries, facts: DeviceFacts, collectDeviceId: bool): (r: Result<Entries, CreateError>)
    ensures r.Success? <==> DeviceIdentifier(app, facts, collectDeviceId).Success? && facts.window.Some?
    ensures DeviceIdentifier(app, facts, collectDeviceId).Failure? ==>
              r == Failure(DeviceIdentifier(app, facts, collectDeviceId).error)
    ensures DeviceIdentifier(app, facts, collectDeviceId).Success? && facts.window.None? ==>
              r == Failure(WindowServiceMissing)
  {
    var device :- PutDevice(app, facts, collectDeviceId);
    var withOs := AfterDevice(device, facts);
    var screened :- PutScreen(withOs, facts.window);
    Success(AfterScreen(screened, facts))
  }

  /** Locale, network and operating system: the steps between the device and the screen. */
  function AfterDevice(device: Entries, facts: DeviceFacts): Entries
  {
    PutOs(PutNetwork(device[LOCALE_KEY := Str(facts.language + "-" + facts.country)], facts), facts.osRelease)
  }

  /** User agent and timezone: the steps after the screen. */
  function AfterScreen(screened: Entries, facts: DeviceFacts): Entries
  {
    PutUndefinedIfNull(PutUndefinedIfNull(screened, USER_AGENT_KEY, facts.httpAgent), TIMEZONE_KEY, facts.timezoneId)
  }

  lemma SameExceptTrans(a: Entries, b: Entries, c: Entries, k1: set<string>, k2: set<string>)
    requires SameExcept(a, b, k1) && SameExcept(b, c, k2)
    ensures SameExcept(a, c, k1 + k2)
  {
  }

  /** The keys the network step may write: the carrier always, the flags when allowed. */
  function NetworkKeys(facts: DeviceFacts): set<string>
  {
    {NETWORK_CARRIER_KEY} + NetworkFlagKeys(facts)
  }

  /** The locale, network and operating-system steps record their facts and touch no other key. */
  lemma AfterDeviceRecords(device: Entries, facts: DeviceFacts)
    ensures RecordsLocaleNetworkOs(AfterDevice(device, facts), facts)
    ensures SameExcept(device, AfterDevice(device, facts), {LOCALE_KEY, OS_VERSION_KEY} + NetworkKeys(facts))
  {
    var located := device[LOCALE_KEY := Str(facts.language + "-" + facts.country)];
    var networked := PutNetwork(located, facts);
    var e := PutOs(networked, facts.osRelease);
    assert GetString(e, OS_VERSION_KEY) == Some(facts.osRelease);
    assert SameExcept(located, networked, NetworkKeys(facts));
    SameExceptTrans(device, located, networked, {LOCALE_KEY}, NetworkKeys(facts));
    SameExceptTrans(device, networked, e, {LOCALE_KEY} + NetworkKeys(facts), {OS_VERSION_KEY});
  }

  /** The user-agent and timezone steps record their facts and touch no other key. */
  lemma AfterScreenRecords(screened: Entries, facts: DeviceFacts)
    ensures var e := AfterScreen(screened, facts);
      && USER_AGENT_KEY in e && e[USER_AGENT_KEY] == Str(OrUndefined(facts.httpAgent))
      && TIMEZONE_KEY in e && e[TIMEZONE_KEY] == Str(OrUndefined(facts.timezoneId))
      && SameExcept(screened, e, {USER_AGENT_KEY, TIMEZONE_KEY})
  {
    var withAgent := PutUndefinedIfNull(screened, USER_AGENT_KEY, facts.httpAgent);
    var e := PutUndefinedIfNull(withAgent, TIMEZONE_KEY, facts.timezoneId);
    SameExceptTrans(screened, withAgent, e, {USER_AGENT_KEY}, {TIMEZONE_KEY});
  }

  /** The intermediate maps of a successful fill. */
  datatype FillTrace = FillTrace(device: Entries, withOs: Entries, screened: Entries, filled: Entries)

  function Trace(app: Entries, facts: DeviceFacts, collectDeviceId: bool): (t: FillTrace)
    requires DeviceIdentifier(app, facts, collectDeviceId).Success? && facts.window.Some?
    ensures t.filled == Fill(app, facts, collectDeviceId).value
  {
    var device := PutDevice(app, facts, collectDeviceId).value;
    var withOs := AfterDevice(device, facts);
    var screened := PutScreen(withOs, facts.window).value;
    FillTrace(device, withOs, screened, AfterScreen(screened, facts))
  }

  /** A successful fill stores every device fact under its key. */
  lemma FillRecordsDeviceFacts(app: Entries, facts: DeviceFacts, collectDeviceId: bool)
    requires DeviceIdentifier(app, facts, collectDeviceId).Success? && facts.window.Some?
    ensures RecordsDeviceFacts(Fill(app, facts, collectDeviceId).value, facts,
                               DeviceIdentifier(app, facts, collectDeviceId).value)
  {
    FillRecordsIdentity(app, facts, collectDeviceId);
    FillRecordsLocaleNetworkOs(app, facts, collectDeviceId);
    FillRecordsScreenAgentTimezone(app, facts, collectDeviceId);
  }

  lemma FillRecordsIdentity(app: Entries, facts: DeviceFacts, collectDeviceId: bool)
    requires DeviceIdentifier(app, facts, collectDeviceId).Success? && facts.window.Some?
    ensures RecordsIdentity(Fill(app, facts, collectDeviceId).value, facts,
                            DeviceIdentifier(app, facts, collectDeviceId).value)
  {
    var t := Trace(app, facts, collectDeviceId);
    AfterDeviceRecords(t.device, facts);
    AfterScreenRecords(t.screened, facts);
    KeepThrough(t, facts, DEVICE_ID_KEY);
    KeepThrough(t, facts, DEVICE_MANUFACTURER_KEY);
    KeepThrough(t, facts, DEVICE_NAME_KEY);
  }

  /** A device key written by `putDevice` is untouched by every later step. */
  lemma KeepThrough(t: FillTrace, facts: DeviceFacts, k: string)
    requires k in {DEVICE_ID_KEY, DEVICE_MANUFACTURER_KEY, DEVICE_NAME_KEY} && k in t.device
    requires SameExcept(t.device, t.withOs, {LOCALE_KEY, OS_VERSION_KEY} + NetworkKeys(facts))
    requires SameExcept(t.withOs, t.screened, {SCREEN_DENSITY_KEY, SCREEN_HEIGHT_KEY, SCREEN_WIDTH_KEY})
    requires SameExcept(t.screened, t.filled, {USER_AGENT_KEY, TIMEZONE_KEY})
    ensures k in t.filled && t.filled[k] == t.device[k]
  {
    Keep(t.device, t.withOs, {LOCALE_KEY, OS_VERSION_KEY} + NetworkKeys(facts), k);
    Keep(t.withOs, t.screened, {SCREEN_DENSITY_KEY, SCREEN_HEIGHT_KEY, SCREEN_WIDTH_KEY}, k);
    Keep(t.screened, t.filled, {USER_AGENT_KEY, TIMEZONE_KEY}, k);
  }

  lemma FillRecordsLocaleNetworkOs(app: Entries, facts: DeviceFacts, collectDeviceId: bool)
    requires DeviceIdentifier(app, facts, collectDeviceId).Success? && facts.window.Some?
    ensures RecordsLocaleNetworkOs(Fill(app, facts, collectDeviceId).value, facts)
  {
    var t := Trace(app, facts, collectDeviceId);
    AfterDeviceRecords(t.device, facts);
    AfterScreenRecords(t.screened, facts);
    KeepAfterOs(t, LOCALE_KEY);
    KeepAfterOs(t, NETWORK_CARRIER_KEY);
    KeepAfterOs(t, OS_VERSION_KEY);
    if WritesNetworkFlags(facts) {
      KeepAfterOs(t, NETWORK_BLUETOOTH_KEY);
      KeepAfterOs(t, NETWORK_CELLULAR_KEY);
    }
  }

  /** A locale, network or operating-system key is untouched by the screen, user-agent and timezone steps. */
  lemma KeepAfterOs(t: FillTrace, k: string)
    requires k in {LOCALE_KEY, NETWORK_CARRIER_KEY, OS_VERSION_KEY, NETWORK_BLUETOOTH_KEY, NETWORK_CELLULAR_KEY}
    requires k in t.withOs
    requires SameExcept(t.withOs, t.screened, {SCREEN_DENSITY_KEY, SCREEN_HEIGHT_KEY, SCREEN_WIDTH_KEY})
    requires SameExcept(t.screened, t.filled, {USER_AGENT_KEY, TIMEZONE_KEY})
    ensures k in t.filled && t.filled[k] == t.withOs[k]
  {
    Keep(t.withOs, t.screened, {SCREEN_DENSITY_KEY, SCREEN_HEIGHT_KEY, SCREEN_WIDTH_KEY}, k);
    Keep(t.screened, t.filled, {USER_AGENT_KEY, TIMEZONE_KEY}, k);
  }

  lemma FillRecordsScreenAgentTimezone(app: Entries, facts: DeviceFacts, collectDeviceId: bool)
    requires DeviceIdentifier(app, facts, collectDeviceId).Success? && facts.window.Some?
    ensures RecordsScreenAgentTimezone(Fill(app, facts, collectDeviceId).value, facts)
  {
    var t := Trace(app, facts, collectDeviceId);
    AfterScreenRecords(t.screened, facts);
    Keep(t.screened, t.filled, {USER_AGENT_KEY, TIMEZONE_KEY}, SCREEN_DENSITY_KEY);
    Keep(t.screened, t.filled, {USER_AGENT_KEY, TIMEZONE_KEY}, SCREEN_HEIGHT_KEY);
    Keep(t.screened, t.filled, {USER_AGENT_KEY, TIMEZONE_KEY}, SCREEN_WIDTH_KEY);
  }

  /** A key outside the written set keeps its value. */
  lemma Keep(a: Entries, b: Entries, written: set<string>, k: string)
    requires SameExcept(a, b, written)
    requires k in a && k !in written
    ensures k in b && b[k] == a[k]
  {
  }

  /** A successful fill adds exactly the filled keys to those it started from. */
  lemma FillAddsExactlyFilledKeys(app: Entries, facts: DeviceFacts, collectDeviceId: bool)
    requires DeviceIdentifier(app, facts, collectDeviceId).Success? && facts.window.Some?
    ensures Fill(app, facts, collectDeviceId).value.Keys == app.Keys + ALWAYS_FILLED + NetworkFlagKeys(facts)
  {
    FillFrame(app, facts, collectDeviceId);
    FillHoldsFilledKeys(app, facts, collectDeviceId);
    FillKeys(app, Fill(app, facts, collectDeviceId).value, ALWAYS_FILLED + NetworkFlagKeys(facts));
  }

  /** Creation as written and as corrected both run the fill on the application info. */
  lemma CreateIsFill(facts: DeviceFacts, traits: Traits, collectDeviceId: bool)
    ensures Create(facts, traits, collectDeviceId).Success? ==>
              Create(facts, traits, collectDeviceId).value.entries
              == Fill(PutApp(map[], facts.package), facts, collectDeviceId).value
    ensures CreateStoringTraits(facts, traits, collectDeviceId).Success? ==>
              CreateStoringTraits(facts, traits, collectDeviceId).value.entries
              == Fill(PutApp(map[], facts.package)[TRAITS_KEY := TraitsObj(traits)], facts, collectDeviceId).value
  {
  }

  lemma AppKeys(package: PackageLookup)
    ensures PutApp(map[], package).Keys == BuildKeys(package)
  {
  }

  lemma FillFrame(app: Entries, facts: DeviceFacts, collectDeviceId: bool)
    requires DeviceIdentifier(app, facts, collectDeviceId).Success? && facts.window.Some?
    ensures SameExcept(app, Fill(app, facts, collectDeviceId).value, ALWAYS_FILLED + NetworkFlagKeys(facts))
  {
    var t := Trace(app, facts, collectDeviceId);
    AfterDeviceRecords(t.device, facts);
    AfterScreenRecords(t.screened, facts);
    var deviceKeys := {DEVICE_ID_KEY, DEVICE_MANUFACTURER_KEY, DEVICE_NAME_KEY};
    var middleKeys := {LOCALE_KEY, OS_VERSION_KEY} + NetworkKeys(facts);
    var screenKeys := {SCREEN_DENSITY_KEY, SCREEN_HEIGHT_KEY, SCREEN_WIDTH_KEY};
    var lastKeys := screenKeys + {USER_AGENT_KEY, TIMEZONE_KEY};
    SameExceptTrans(t.withOs, t.screened, t.filled, screenKeys, {USER_AGENT_KEY, TIMEZONE_KEY});
    SameExceptTrans(t.device, t.withOs, t.filled, middleKeys, lastKeys);
    SameExceptTrans(app, t.device, t.filled, deviceKeys, middleKeys + lastKeys);
    WrittenKeys(facts);
  }

  lemma FillHoldsFilledKeys(app: Entries, facts: DeviceFacts, collectDeviceId: bool)
    requires DeviceIdentifier(app, facts, collectDeviceId).Success? && facts.window.Some?
    ensures ALWAYS_FILLED + NetworkFlagKeys(facts) <= Fill(app, facts, collectDeviceId).value.Keys
  {
    FillRecordsDeviceFacts(app, facts, collectDeviceId);
  }

  /** The keys the steps write, gathered step by step, are the filled keys. */
  lemma WrittenKeys(facts: DeviceFacts)
    ensures {DEVICE_ID_KEY, DEVICE_MANUFACTURER_KEY, DEVICE_NAME_KEY}
            + ({LOCALE_KEY, OS_VERSION_KEY} + NetworkKeys(facts)
               + ({SCREEN_DENSITY_KEY, SCREEN_HEIGHT_KEY, SCREEN_WIDTH_KEY} + {USER_AGENT_KEY, TIMEZONE_KEY}))
            == ALWAYS_FILLED + NetworkFlagKeys(facts)
  {
  }

  /** A map that agrees with `app` outside `written` and holds every written key has exactly the union of keys. */
  lemma FillKeys(app: Entries, e: Entries, written: set<string>)
    requires SameExcept(app, e, written)
    requires written <= e.Keys
    ensures e.Keys == app.Keys + written
  {
  }

  /**
    `create` as written: application info, then device, locale, network, operating
    system, screen, user agent and timezone into a fresh map. The `traits` argument is
    never stored, so without device-id collection `putDevice` finds no traits and throws.
   */
  function Create(facts: DeviceFacts, traits: Traits, collectDeviceId: bool): (r: Result<Context, CreateError>)
    ensures r.Success? <==> collectDeviceId && facts.window.Some?
    ensures !collectDeviceId ==> r == Failure(TraitsMissing)
    ensures collectDeviceId && facts.window.None? ==> r == Failure(WindowServiceMissing)
    ensures r.Success? ==> r.value.writable
  {
    var filled :- Fill(PutApp(map[], facts.package), facts, collectDeviceId);
    Success(Context(filled, true))
  }

  /** The keys a context created as written holds. */
  function CreatedKeys(facts: DeviceFacts): set<string>
  {
    BuildKeys(facts.package) + ALWAYS_FILLED + NetworkFlagKeys(facts)
  }

  /** A created context records the probe's device id and every other device fact. */
  lemma CreateRecordsDeviceFacts(facts: DeviceFacts, traits: Traits, collectDeviceId: bool)
    requires collectDeviceId && facts.window.Some?
    ensures RecordsDeviceFacts(Create(facts, traits, collectDeviceId).value.entries, facts, facts.deviceId)
  {
    var app := PutApp(map[], facts.package);
    assert Create(facts, traits, collectDeviceId).value.entries == Fill(app, facts, collectDeviceId).value;
    FillRecordsDeviceFacts(app, facts, collectDeviceId);
  }

  /**
    A created context holds exactly the created keys: the device facts sit at the top
    level with no `device` sub-map, and no traits are stored.
   */
  lemma CreateHoldsCreatedKeys(facts: DeviceFacts, traits: Traits, collectDeviceId: bool)
    requires collectDeviceId && facts.window.Some?
    ensures Create(facts, traits, collectDeviceId).value.entries.Keys == CreatedKeys(facts)
    ensures DEVICE_KEY !in Create(facts, traits, collectDeviceId).value.entries
    ensures TRAITS_KEY !in Create(facts, traits, collectDeviceId).value.entries
  {
    CreateIsFill(facts, traits, collectDeviceId);
    FillAddsExactlyFilledKeys(PutApp(map[], facts.package), facts, collectDeviceId);
    AppKeys(facts.package);
    CreatedKeysMembership(facts);
  }

  /** Which of the reserved keys creation writes. */
  lemma CreatedKeysMembership(facts: DeviceFacts)
    ensures DEVICE_KEY !in CreatedKeys(facts) && TRAITS_KEY !in CreatedKeys(facts)
    ensures APP_BUILD_KEY in CreatedKeys(facts) <==> facts.package.PackageFound?
    ensures APP_BUILD_KEY !in ALWAYS_FILLED + NetworkFlagKeys(facts)
    ensures TRAITS_KEY !in ALWAYS_FILLED + NetworkFlagKeys(facts)
  {
  }

  /** The build key is present exactly when the package lookup succeeds, and reads back as the version code. */
  lemma CreateBuild(facts: DeviceFacts, traits: Traits, collectDeviceId: bool)
    requires collectDeviceId && facts.window.Some?
    ensures APP_BUILD_KEY in Create(facts, traits, collectDeviceId).value.entries <==> facts.package.PackageFound?
    ensures facts.package.PackageFound? ==>
              var e := Create(facts, traits, collectDeviceId).value.entries;
              e[APP_BUILD_KEY].Str? && ParseInt(e[APP_BUILD_KEY].s) == Some(facts.package.versionCode as int)
  {
    var app := PutApp(map[], facts.package);
    CreateIsFill(facts, traits, collectDeviceId);
    CreateHoldsCreatedKeys(facts, traits, collectDeviceId);
    CreatedKeysMembership(facts);
    if facts.package.PackageFound? {
      FillFrame(app, facts, collectDeviceId);
      Keep(app, Fill(app, facts, collectDeviceId).value, ALWAYS_FILLED + NetworkFlagKeys(facts), APP_BUILD_KEY);
    }
  }

  /** The user agent and the timezone are always present and never empty; a missing one reads "undefined". */
  lemma CreateUserAgentAndTimezone(facts: DeviceFacts, traits: Traits, collectDeviceId: bool)
    requires collectDeviceId && facts.window.Some?
    ensures var e := Create(facts, traits, collectDeviceId).value.entries;
      && USER_AGENT_KEY in e && e[USER_AGENT_KEY].Str? && |e[USER_AGENT_KEY].s| > 0
      && TIMEZONE_KEY in e && e[TIMEZONE_KEY].Str? && |e[TIMEZONE_KEY].s| > 0
      && e[USER_AGENT_KEY] == Str(if IsNullOrEmpty(facts.httpAgent) then UNDEFINED else facts.httpAgent.value)
      && e[TIMEZONE_KEY] == Str(if IsNullOrEmpty(facts.timezoneId) then UNDEFINED else facts.timezoneId.value)
  {
    var app := PutApp(map[], facts.package);
    assert Create(facts, traits, collectDeviceId).value.entries == Fill(app, facts, collectDeviceId).value;
    FillRecordsScreenAgentTimezone(app, facts, collectDeviceId);
  }

  /**
    `create` with the traits attached before the device step, so that `putDevice` can
    read the anonymous id it falls back on without device-id collection.
   */
  function CreateStoringTraits(facts: DeviceFacts, traits: Traits, collectDeviceId: bool): (r: Result<Context, CreateError>)
    ensures r.Success? <==> (collectDeviceId || traits.anonymousId.Some?) && facts.window.Some?
    ensures !collectDeviceId && traits.anonymousId.None? ==> r == Failure(AnonymousIdMissing)
    ensures r.Success? ==> r.value.writable
  {
    var app := PutApp(map[], facts.package)[TRAITS_KEY := TraitsObj(traits)];
    var filled :- Fill(app, facts, collectDeviceId);
    Success(Context(filled, true))
  }

  /** The identifier the corrected creation records. */
  function IntendedDeviceId(facts: DeviceFacts, traits: Traits, collectDeviceId: bool): string
    requires collectDeviceId || traits.anonymousId.Some?
  {
    if collectDeviceId then facts.deviceId else traits.anonymousId.value
  }

  /**
    The corrected creation records the probe's device id when collecting it and the
    anonymous id otherwise, keeps the attached traits readable, and adds only the
    traits key to the keys of the context created as written.
   */
  lemma CreateStoringTraitsRecords(facts: DeviceFacts, traits: Traits, collectDeviceId: bool)
    requires (collectDeviceId || traits.anonymousId.Some?) && facts.window.Some?
    ensures RecordsDeviceFacts(CreateStoringTraits(facts, traits, collectDeviceId).value.entries, facts,
                               IntendedDeviceId(facts, traits, collectDeviceId))
    ensures StoredTraits(CreateStoringTraits(facts, traits, collectDeviceId).value.entries) == Some(traits)
    ensures CreateStoringTraits(facts, traits, collectDeviceId).value.entries.Keys == CreatedKeys(facts) + {TRAITS_KEY}
  {
    var app := PutApp(map[], facts.package)[TRAITS_KEY := TraitsObj(traits)];
    var e := Fill(app, facts, collectDeviceId).value;
    CreateIsFill(facts, traits, collectDeviceId);
    assert DeviceIdentifier(app, facts, collectDeviceId).value == IntendedDeviceId(facts, traits, collectDeviceId);
    FillRecordsDeviceFacts(app, facts, collectDeviceId);
    CreateStoringTraitsKeys(facts, traits, collectDeviceId, app, e);
  }

  lemma CreateStoringTraitsKeys(facts: DeviceFacts, traits: Traits, collectDeviceId: bool, app: Entries, e: Entries)
    requires app == PutApp(map[], facts.package)[TRAITS_KEY := TraitsObj(traits)]
    requires Fill(app, facts, collectDeviceId).Success? && e == Fill(app, facts, collectDeviceId).value
    ensures StoredTraits(e) == Some(traits)
    ensures e.Keys == CreatedKeys(facts) + {TRAITS_KEY}
  {
    FillFrame(app, facts, collectDeviceId);
    CreatedKeysMembership(facts);
    Keep(app, e, ALWAYS_FILLED + NetworkFlagKeys(facts), TRAITS_KEY);
    FillAddsExactlyFilledKeys(app, facts, collectDeviceId);
    AppKeys(facts.package);
  }

  /**
    The discrepancy: with a window manager and traits that carry an anonymous id,
    creation without device-id collection throws as written, and succeeds with the
    anonymous id as device id once the traits are stored first.
   */
  lemma CreateIgnoresTraits(facts: DeviceFacts, traits: Traits)
    requires facts.window.Some? && traits.anonymousId.Some?
    ensures Create(facts, traits, false) == Failure(TraitsMissing)
    ensures CreateStoringTraits(facts, traits, false).Success?
    ensures var e := CreateStoringTraits(facts, traits, false).value.entries;
      DEVICE_ID_KEY in e && e[DEVICE_ID_KEY] == Str(traits.anonymousId.value)
  {
    CreateStoringTraitsRecords(facts, traits, false);
  }

  /** Two maps holding the same device facts agree on every filled key. */
  lemma RecordsDetermineFilled(a: Entries, b: Entries, facts: DeviceFacts, identifier: string, k: string)
    requires RecordsDeviceFacts(a, facts, identifier) && RecordsDeviceFacts(b, facts, identifier)
    requires k in ALWAYS_FILLED + NetworkFlagKeys(facts)
    ensures k in a && k in b && a[k] == b[k]
  {
  }

  /** Two fills that record the same facts and agree outside the filled keys except at `key` differ only there. */
  lemma SameFillUpToKey(app: Entries, e1: Entries, e2: Entries, facts: DeviceFacts, identifier: string, key: string, v: Value)
    requires key !in ALWAYS_FILLED + NetworkFlagKeys(facts)
    requires RecordsDeviceFacts(e1, facts, identifier) && RecordsDeviceFacts(e2, facts, identifier)
    requires SameExcept(app, e1, ALWAYS_FILLED + NetworkFlagKeys(facts))
    requires SameExcept(app[key := v], e2, ALWAYS_FILLED + NetworkFlagKeys(facts))
    requires e1.Keys == app.Keys + ALWAYS_FILLED + NetworkFlagKeys(facts)
    requires e2.Keys == app[key := v].Keys + ALWAYS_FILLED + NetworkFlagKeys(facts)
    ensures e2 == e1[key := v]
  {
    var expected := e1[key := v];
    forall k | k in e2
      ensures k in expected && e2[k] == expected[k]
    {
      if k in ALWAYS_FILLED + NetworkFlagKeys(facts) {
        RecordsDetermineFilled(e1, e2, facts, identifier, k);
      }
    }
    assert e2.Keys == expected.Keys;
  }

  /** With the device id collected, one more entry that the fill does not write passes through it unchanged. */
  lemma FillPassesExtraEntry(app: Entries, key: string, v: Value, facts: DeviceFacts)
    requires key !in ALWAYS_FILLED + NetworkFlagKeys(facts)
    requires facts.window.Some?
    ensures Fill(app, facts, true).Success? && Fill(app[key := v], facts, true).Success?
    ensures Fill(app[key := v], facts, true).value == Fill(app, facts, true).value[key := v]
  {
    var e1 := Fill(app, facts, true).value;
    var e2 := Fill(app[key := v], facts, true).value;
    FillRecordsDeviceFacts(app, facts, true);
    FillRecordsDeviceFacts(app[key := v], facts, true);
    FillFrame(app, facts, true);
    FillFrame(app[key := v], facts, true);
    FillAddsExactlyFilledKeys(app, facts, true);
    FillAddsExactlyFilledKeys(app[key := v], facts, true);
    SameFillUpToKey(app, e1, e2, facts, facts.deviceId, key, v);
  }

  /**
    When the device id is collected, the corrected creation differs from the one as
    written only by the stored traits.
   */
  lemma CreateStoringTraitsWhenCollecting(facts: DeviceFacts, traits: Traits)
    requires facts.window.Some?
    ensures Create(facts, traits, true).Success? && CreateStoringTraits(facts, traits, true).Success?
    ensures CreateStoringTraits(facts, traits, true).value.entries
            == Create(facts, traits, true).value.entries[TRAITS_KEY := TraitsObj(traits)]
  {
    CreateIsFill(facts, traits, true);
    CreatedKeysMembership(facts);
    FillPassesExtraEntry(PutApp(map[], facts.package), TRAITS_KEY, TraitsObj(traits), facts);
  }

  /** The facts of the device scenario: device id "ABC123", release "14", a 1920 by 1080 screen of density 2.0, locale en-US. */
  ghost predicate IsScenario(facts: DeviceFacts)
  {
    && facts.package == NameNotFound && facts.deviceId == "ABC123"
    && facts.language == "en" && facts.country == "US"
    && facts.hasNetworkStatePermission
    && facts.connectivity == Some(ConnectivityService(Some(NetworkInfo(false)), Some(NetworkInfo(true))))
    && facts.telephony == None && facts.osRelease == "14"
    && facts.window == Some(DisplayMetrics(Float32(0x4000_0000), 1920, 1080))
    && facts.httpAgent == None
  }

  /**
    In the device scenario the id lands at the top level as `device_id`, with no
    `device` sub-map holding it, beside the release and the screen metrics.
   */
  lemma CreateScenarioDevice(facts: DeviceFacts, traits: Traits)
    requires IsScenario(facts)
    ensures var r := Create(facts, traits, true);
      && r.Success?
      && r.value.entries[DEVICE_ID_KEY] == Str("ABC123")
      && DEVICE_KEY !in r.value.entries
      && r.value.entries[OS_VERSION_KEY] == Str("14")
      && r.value.entries[SCREEN_DENSITY_KEY] == Float(Float32(0x4000_0000))
      && r.value.entries[SCREEN_HEIGHT_KEY] == Int(1920)
      && r.value.entries[SCREEN_WIDTH_KEY] == Int(1080)
  {
    CreateRecordsDeviceFacts(facts, traits, true);
    CreateHoldsCreatedKeys(facts, traits, true);
  }

  /** In the device scenario the locale is "en-US", the carrier falls back to "unknown" and the flags follow the connections. */
  lemma CreateScenarioNetwork(facts: DeviceFacts, traits: Traits)
    requires IsScenario(facts)
    ensures var r := Create(facts, traits, true);
      && r.Success?
      && r.value.entries[LOCALE_KEY] == Str("en-US")
      && r.value.entries[NETWORK_CARRIER_KEY] == Str("unknown")
      && r.value.entries[NETWORK_BLUETOOTH_KEY] == Bool(false)
      && r.value.entries[NETWORK_CELLULAR_KEY] == Bool(true)
  {
    CreateRecordsDeviceFacts(facts, traits, true);
    assert "en" + "-" + "US" == "en-US";
  }

  /** In the device scenario the missing user agent reads "undefined" and, without a package, there is no build. */
  lemma CreateScenarioFallbacks(facts: DeviceFacts, traits: Traits)
    requires IsScenario(facts)
    ensures var r := Create(facts, traits, true);
      && r.Success?
      && r.value.entries[USER_AGENT_KEY] == Str("undefined")
      && APP_BUILD_KEY !in r.value.entries
  {
    CreateUserAgentAndTimezone(facts, traits, true);
    CreateBuild(facts, traits, true);
  }
}
