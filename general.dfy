/**
 * The `general` slice of the entities store: nine sub-reducers, each mapping
 * its slice and an action to the slice's next value, combined into one step
 * over a record of all nine slices.
 *
 * JSON objects (the client config, the client license, app credentials, the
 * data retention policy, the warn-metrics status) are modelled as maps from
 * keys to string values.
 */
module General {

  type Obj = map<string, string>

  /** The actions the general reducers name, and every other action. */
  datatype Action =
    | ClientConfigReceived(configData: Obj)
    | ClientConfigReset
    | SetConfigAndLicense(config: Obj, license: Obj)
    | Login(loginConfig: Obj, url: string)
    | LogoutSuccess
    | ReceivedAppState(appStateData: bool)
    | ReceivedAppCredentials(credentialsData: Obj)
    | ReceivedDataRetentionPolicy(policy: Obj)
    | ReceivedAppDeviceToken(token: string)
    | ClientLicenseReceived(licenseData: Obj)
    | ClientLicenseReset
    | SupportedTimezonesReceived(timezoneNames: seq<string>)
    | ReceivedServerVersion(version: string)
    | ReceivedWarnMetricsStatus(status: Obj)
    | Unrelated(actionType: string)

  /** The combined state of the nine slices. */
  datatype GeneralState = GeneralState(
    appState: bool,
    credentials: Obj,
    config: Obj,
    dataRetentionPolicy: Obj,
    deviceToken: string,
    license: Obj,
    serverVersion: string,
    timezones: seq<string>,
    warnMetricsStatus: Obj)

  /** The names of the slices. */
  datatype Slice =
    | AppState | Credentials | Config | DataRetentionPolicy | DeviceToken
    | License | ServerVersion | Timezones | WarnMetricsStatus

  /** Every slice at its default value. */
  function Initial(): GeneralState {
    GeneralState(false, map[], map[], map[], "", map[], "", [], map[])
  }

  /** `Object.assign({}, base, data)`: the keys of both, `data` winning where both have a key. */
  function Merge(base: Obj, data: Obj): (r: Obj)
    ensures r.Keys == base.Keys + data.Keys
    ensures forall k | k in data :: r[k] == data[k]
    ensures forall k | k in base && k !in data :: r[k] == base[k]
  {
    base + data
  }

  /** `config`: merged by config payloads, emptied by a config reset or a logout. */
  function ReduceConfig(state: Obj, action: Action): (r: Obj)
    ensures Config !in Handles(action) ==> r == state
    ensures action.ClientConfigReset? || action.LogoutSuccess? ==> r == map[]
    ensures action.ClientConfigReceived? || action.Login? || action.SetConfigAndLicense? ==> state.Keys <= r.Keys
  {
    match action
    case ClientConfigReceived(data) => Merge(state, data)
    case Login(config, _) => Merge(state, config)
    case SetConfigAndLicense(config, _) => Merge(state, config)
    case ClientConfigReset => map[]
    case LogoutSuccess => map[]
    case _ => state
  }

  /** `appState`: replaced by `RECEIVED_APP_STATE`, kept otherwise. */
  function ReduceAppState(state: bool, action: Action): (r: bool)
    ensures AppState !in Handles(action) ==> r == state
    ensures action.ReceivedAppState? ==> r == action.appStateData
  {
    match action
    case ReceivedAppState(data) => data
    case _ => state
  }

  /** `credentials`: merged by app credentials, reset to the URL alone on login, emptied on logout. */
  function ReduceCredentials(state: Obj, action: Action): (r: Obj)
    ensures Credentials !in Handles(action) ==> r == state
    ensures action.Login? ==> r.Keys == {"url"} && r["url"] == action.url
    ensures action.ReceivedAppCredentials? ==> state.Keys <= r.Keys
    ensures action.LogoutSuccess? ==> r == map[]
  {
    match action
    case ReceivedAppCredentials(data) => Merge(state, data)
    case Login(_, url) => map["url" := url]
    case LogoutSuccess => map[]
    case _ => state
  }

  /** `dataRetentionPolicy`: replaced by its payload, emptied on logout. */
  function ReduceDataRetentionPolicy(state: Obj, action: Action): (r: Obj)
    ensures DataRetentionPolicy !in Handles(action) ==> r == state
    ensures action.ReceivedDataRetentionPolicy? ==> r == action.policy
    ensures action.LogoutSuccess? ==> r == map[]
  {
    match action
    case ReceivedDataRetentionPolicy(data) => data
    case LogoutSuccess => map[]
    case _ => state
  }

  /** `deviceToken`: replaced by its payload, kept on logout. */
  function ReduceDeviceToken(state: string, action: Action): (r: string)
    ensures DeviceToken !in Handles(action) ==> r == state
    ensures action.ReceivedAppDeviceToken? ==> r == action.token
  {
    match action
    case ReceivedAppDeviceToken(data) => data
    case _ => state
  }

  /** `license`: replaced wholesale, merged by `SET_CONFIG_AND_LICENSE`, emptied by a reset or a logout. */
  function ReduceLicense(state: Obj, action: Action): (r: Obj)
    ensures License !in Handles(action) ==> r == state
    ensures action.ClientLicenseReceived? ==> r == action.licenseData
    ensures action.SetConfigAndLicense? ==> state.Keys <= r.Keys
    ensures action.ClientLicenseReset? || action.LogoutSuccess? ==> r == map[]
  {
    match action
    case ClientLicenseReceived(data) => data
    case SetConfigAndLicense(_, license) => Merge(state, license)
    case ClientLicenseReset => map[]
    case LogoutSuccess => map[]
    case _ => state
  }

  /** `timezones`: replaced by its payload, emptied on logout. */
  function ReduceTimezones(state: seq<string>, action: Action): (r: seq<string>)
    ensures Timezones !in Handles(action) ==> r == state
    ensures action.SupportedTimezonesReceived? ==> r == action.timezoneNames
    ensures action.LogoutSuccess? ==> r == []
  {
    match action
    case SupportedTimezonesReceived(data) => data
    case LogoutSuccess => []
    case _ => state
  }

  /** `serverVersion`: replaced by its payload, emptied on logout. */
  function ReduceServerVersion(state: string, action: Action): (r: string)
    ensures ServerVersion !in Handles(action) ==> r == state
    ensures action.ReceivedServerVersion? ==> r == action.version
    ensures action.LogoutSuccess? ==> r == ""
  {
    match action
    case ReceivedServerVersion(data) => data
    case LogoutSuccess => ""
    case _ => state
  }

  /** `warnMetricsStatus`: replaced by its payload, kept on logout. */
  function ReduceWarnMetricsStatus(state: Obj, action: Action): (r: Obj)
    ensures WarnMetricsStatus !in Handles(action) ==> r == state
    ensures action.ReceivedWarnMetricsStatus? ==> r == action.status
  {
    match action
    case ReceivedWarnMetricsStatus(data) => data
    case _ => state
  }

  /** The combined reducer: every slice steps with its own reducer. */
  function Step(s: GeneralState, action: Action): (r: GeneralState)
    ensures forall slice | slice !in Handles(action) :: SameSlice(r, s, slice)
  {
    GeneralState(
      ReduceAppState(s.appState, action),
      ReduceCredentials(s.credentials, action),
      ReduceConfig(s.config, action),
      ReduceDataRetentionPolicy(s.dataRetentionPolicy, action),
      ReduceDeviceToken(s.deviceToken, action),
      ReduceLicense(s.license, action),
      ReduceServerVersion(s.serverVersion, action),
      ReduceTimezones(s.timezones, action),
      ReduceWarnMetricsStatus(s.warnMetricsStatus, action))
  }

  /** For each action, the slices whose reducer names it in its switch. */
  function Handles(action: Action): (r: set<Slice>)
    ensures r == {} <==> action.Unrelated?
  {
    match action
    case ClientConfigReceived(_) => {Config}
    case ClientConfigReset => {Config}
    case SetConfigAndLicense(_, _) => {Config, License}
    case Login(_, _) => {Config, Credentials}
    case LogoutSuccess => {Config, Credentials, DataRetentionPolicy, License, Timezones, ServerVersion}
    case ReceivedAppState(_) => {AppState}
    case ReceivedAppCredentials(_) => {Credentials}
    case ReceivedDataRetentionPolicy(_) => {DataRetentionPolicy}
    case ReceivedAppDeviceToken(_) => {DeviceToken}
    case ClientLicenseReceived(_) => {License}
    case ClientLicenseReset => {License}
    case SupportedTimezonesReceived(_) => {Timezones}
    case ReceivedServerVersion(_) => {ServerVersion}
    case ReceivedWarnMetricsStatus(_) => {WarnMetricsStatus}
    case Unrelated(_) => {}
  }

  /** `s` and `t` agree on `slice`. */
  predicate SameSlice(s: GeneralState, t: GeneralState, slice: Slice) {
    match slice
    case AppState => s.appState == t.appState
    case Credentials => s.credentials == t.credentials
    case Config => s.config == t.config
    case DataRetentionPolicy => s.dataRetentionPolicy == t.dataRetentionPolicy
    case DeviceToken => s.deviceToken == t.deviceToken
    case License => s.license == t.license
    case ServerVersion => s.serverVersion == t.serverVersion
    case Timezones => s.timezones == t.timezones
    case WarnMetricsStatus => s.warnMetricsStatus == t.warnMetricsStatus
  }

  // ---------------------------------------------------------------------
  // Properties of the step

  /** Merging the same payload a second time changes nothing. */
  lemma MergeIdempotent(base: Obj, data: Obj)
    ensures Merge(Merge(base, data), data) == Merge(base, data)
  {
    var once := Merge(base, data);
    var twice := Merge(once, data);
    assert twice.Keys == once.Keys;
    forall k | k in once ensures twice[k] == once[k] {
      if k in data {
        assert twice[k] == data[k] == once[k];
      }
    }
  }

  /** `CLIENT_CONFIG_RECEIVED` overrides the config key by key; keys absent from the payload keep their values. */
  lemma ClientConfigReceivedOverrides(s: GeneralState, data: Obj)
    ensures var r := Step(s, ClientConfigReceived(data)).config;
            && r.Keys == s.config.Keys + data.Keys
            && (forall k | k in data :: r[k] == data[k])
            && (forall k | k in s.config && k !in data :: r[k] == s.config[k])
    ensures Step(Step(s, ClientConfigReceived(data)), ClientConfigReceived(data)) == Step(s, ClientConfigReceived(data))
  {
    MergeIdempotent(s.config, data);
  }

  /** `LOGIN` and `SET_CONFIG_AND_LICENSE` merge their config into the config; the latter also merges its license. */
  lemma ConfigAndLicenseMerges(s: GeneralState, config: Obj, license: Obj, url: string)
    ensures Step(s, Login(config, url)).config == Merge(s.config, config)
    ensures Step(s, SetConfigAndLicense(config, license)).config == Merge(s.config, config)
    ensures Step(s, SetConfigAndLicense(config, license)).license == Merge(s.license, license)
  {
  }

  /** `CLIENT_LICENSE_RECEIVED` replaces the license whatever it was; a reset or a logout empties it. */
  lemma LicenseReplacedOrEmptied(s: GeneralState, t: GeneralState, data: Obj)
    ensures Step(s, ClientLicenseReceived(data)).license == data
    ensures Step(s, ClientLicenseReceived(data)).license == Step(t, ClientLicenseReceived(data)).license
    ensures Step(s, ClientLicenseReset).license == map[]
    ensures Step(s, LogoutSuccess).license == map[]
  {
  }

  /**
   * Each slice that a received payload replaces becomes that payload whatever
   * its old value, and `CLIENT_CONFIG_RESET` empties the config.
   */
  lemma PayloadReplacesSlice(
    s: GeneralState, t: GeneralState, appState: bool, policy: Obj, token: string,
    timezones: seq<string>, version: string, status: Obj)
    ensures Step(s, ReceivedAppState(appState)).appState == appState
    ensures Step(s, ReceivedDataRetentionPolicy(policy)).dataRetentionPolicy == policy
    ensures Step(s, ReceivedAppDeviceToken(token)).deviceToken == token
    ensures Step(s, SupportedTimezonesReceived(timezones)).timezones == timezones
    ensures Step(s, ReceivedServerVersion(version)).serverVersion == version
    ensures Step(s, ReceivedWarnMetricsStatus(status)).warnMetricsStatus == status
    ensures Step(s, ClientConfigReset).config == map[]
    ensures Step(s, ClientConfigReset).config == Step(t, ClientConfigReset).config
  {
  }

  /** `LOGIN` sets the credentials to the URL alone, dropping every earlier field; `RECEIVED_APP_CREDENTIALS` merges. */
  lemma CredentialsOnLogin(s: GeneralState, config: Obj, url: string, data: Obj)
    ensures Step(s, Login(config, url)).credentials.Keys == {"url"}
    ensures Step(s, Login(config, url)).credentials["url"] == url
    ensures Step(s, ReceivedAppCredentials(data)).credentials == Merge(s.credentials, data)
  {
  }

  /** `LOGOUT_SUCCESS` resets six slices to their defaults and keeps app state, device token and warn-metrics status. */
  lemma LogoutResets(s: GeneralState)
    ensures Step(s, LogoutSuccess) ==
            Initial().(appState := s.appState, deviceToken := s.deviceToken, warnMetricsStatus := s.warnMetricsStatus)
  {
  }

  /** Only the slices whose reducer names the action can change; an unrelated action changes nothing. */
  lemma StepFrame(s: GeneralState, action: Action)
    ensures forall slice | slice !in Handles(action) :: SameSlice(Step(s, action), s, slice)
    ensures action.Unrelated? ==> Step(s, action) == s
  {
  }

  /** Every action, applied twice in a row, has the effect of applying it once. */
  lemma StepIdempotent(s: GeneralState, action: Action)
    ensures Step(Step(s, action), action) == Step(s, action)
  {
    match action
    case ClientConfigReceived(data) =>
      MergeIdempotent(s.config, data);
    case SetConfigAndLicense(config, license) =>
      MergeIdempotent(s.config, config);
      MergeIdempotent(s.license, license);
    case Login(config, _) =>
      MergeIdempotent(s.config, config);
    case ReceivedAppCredentials(data) =>
      MergeIdempotent(s.credentials, data);
    case _ =>
  }
}
