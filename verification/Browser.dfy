/** The part of Chrome the extension talks to: storage, its own preferences and
    the settings that other extensions or a policy put above them. */
module Browser {
  import opened Wrappers

  datatype Connection = Connection(host: string, port: int, username: string, password: string)

  /** What a generated PAC script depends on: the one proxy and the exclusions. */
  datatype Pac = Pac(host: string, port: int, exclusions: seq<string>)

  datatype Config = Config(connection: Connection, exclusions: seq<string>)

  function BuildProxyConfig(cfg: Config): Pac {
    Pac(cfg.connection.host, cfg.connection.port, cfg.exclusions)
  }

  datatype ErrorRecord = ErrorRecord(possibleDirect: bool, code: string, at: int)

  /** A stored value: absent, rejected by the validators, or accepted. */
  datatype Stored<+T> = Absent | Damaged | Saved(value: T)

  datatype Storage = Storage(
    connection: Stored<Connection>,
    enabled: bool,
    exclusions: Stored<seq<string>>,
    proxyError: Option<ErrorRecord>)

  /** configuredConnection and configuredExclusions together. */
  predicate Readable(d: Storage) {
    !d.connection.Damaged? && !d.exclusions.Damaged?
  }

  /** There is a configuration to apply. */
  predicate Usable(d: Storage) {
    d.connection.Saved? && !d.exclusions.Damaged?
  }

  /** The stored configuration asks for a connection. */
  predicate Active(d: Storage) {
    d.enabled && Usable(d)
  }

  function ExclusionList(e: Stored<seq<string>>): seq<string> {
    if e.Saved? then e.value else []
  }

  predicate Holds(d: Storage, cfg: Config) {
    d.connection == Saved(cfg.connection) && !d.exclusions.Damaged? &&
    ExclusionList(d.exclusions) == cfg.exclusions
  }

  datatype Patch =
    | Disable
    | DisableAndForgive
    | EnableAndForgive
    | Import(connection: Connection)
    | Exclude(exclusions: seq<string>)
    | Record(error: ErrorRecord)
    | Forgive
    | RemoveConfig

  function Patched(d: Storage, p: Patch): Storage {
    match p
    case Disable => d.(enabled := false)
    case DisableAndForgive => d.(enabled := false, proxyError := None)
    case EnableAndForgive => d.(enabled := true, proxyError := None)
    case Import(c) => d.(connection := Saved(c), exclusions := Saved([]), proxyError := None)
    case Exclude(xs) => d.(exclusions := Saved(xs))
    case Record(e) => d.(proxyError := Some(e))
    case Forgive => d.(proxyError := None)
    case RemoveConfig => d.(connection := Absent, exclusions := Absent)
  }

  datatype Level = ByThis | Controllable | ByOther | NotControllable

  predicate MayControl(level: Level) {
    level.ByThis? || level.Controllable?
  }

  /** `pac` is the script of a mandatory pac_script value, None for any other value. */
  datatype ProxySetting = ProxySetting(level: Level, pac: Option<Pac>)

  datatype RtcValue = DisableNonProxiedUdp | OtherPolicy

  datatype RtcSetting = RtcSetting(level: Level, value: RtcValue)

  /** What other extensions, a policy and the user decide; it may change at any step. */
  datatype Surroundings = Surroundings(
    proxy: Option<ProxySetting>,
    incognitoProxy: Option<ProxySetting>,
    rtc: Option<RtcSetting>,
    incognitoRtc: Option<RtcSetting>,
    incognitoAllowed: bool)

  /** An override of the regular settings is never credited to this extension. */
  type Outside = o: Surroundings |
    (o.proxy.Some? ==> !MayControl(o.proxy.value.level)) &&
    (o.rtc.Some? ==> !MayControl(o.rtc.value.level))
    witness Surroundings(None, None, None, None, false)

  datatype Profile = Profile(
    ownPac: Option<Pac>,
    ownRtc: Option<RtcValue>,
    outside: Outside,
    storage: Storage)

  function ProxyIn(p: Profile, incognito: bool): ProxySetting {
    if incognito && p.outside.incognitoProxy.Some? then p.outside.incognitoProxy.value
    else if p.outside.proxy.Some? then p.outside.proxy.value
    else if p.ownPac.Some? then ProxySetting(ByThis, p.ownPac)
    else ProxySetting(Controllable, None)
  }

  function RtcIn(p: Profile, incognito: bool): RtcSetting {
    if incognito && p.outside.incognitoRtc.Some? then p.outside.incognitoRtc.value
    else if p.outside.rtc.Some? then p.outside.rtc.value
    else if p.ownRtc.Some? then RtcSetting(ByThis, p.ownRtc.value)
    else RtcSetting(Controllable, OtherPolicy)
  }

  predicate Effective(s: ProxySetting, expected: Pac) {
    s.level.ByThis? && s.pac == Some(expected)
  }

  predicate Restricted(s: RtcSetting) {
    s.level.ByThis? && s.value.DisableNonProxiedUdp?
  }

  /** One awaited call. IncognitoProxy and IncognitoRtc first ask whether the
      extension may run in incognito windows at all. */
  datatype Call =
    | SetAccessLevel
    | StorageGet
    | StorageSet(patch: Patch)
    | ProxyGet(incognito: bool)
    | ProxySet(pac: Pac)
    | ProxyClear
    | RtcGet(incognito: bool)
    | RtcSet
    | RtcClear
    | IncognitoProxy
    | IncognitoRtc
    | TabGet
    | Fetch
    | Report

  /** A rejected promise propagates through `:-` as an exception does through await. */
  datatype Reply =
    | Rejected
    | Done
    | Data(data: Storage)
    | ProxyIs(proxy: ProxySetting)
    | RtcIs(rtc: RtcSetting)
    | NotAllowed
    | TabIs(incognito: Option<bool>)
    | FetchedIp
  {
    predicate IsFailure() {
      Rejected?
    }

    function PropagateFailure(): Reply {
      Rejected
    }

    function Extract(): Reply {
      this
    }
  }

  /** How the browser carries a call out: whether a change takes effect, whether
      the promise resolves, and what an unmodelled source (a tab) answers. */
  datatype Outcome = Outcome(applied: bool, resolved: bool, tab: Option<bool>)

  const SUCCEEDED := Outcome(true, true, None)
  const FAILED := Outcome(false, false, None)

  /** A resolved clear or storage write took effect; a resolved proxy or WebRTC
      set may still have been ignored. */
  predicate Possible(call: Call, o: Outcome) {
    o.resolved && (call.ProxyClear? || call.RtcClear? || call.StorageSet?) ==> o.applied
  }

  function Effect(call: Call, p: Profile): Profile {
    match call
    case StorageSet(patch) => p.(storage := Patched(p.storage, patch))
    case ProxySet(pac) => p.(ownPac := Some(pac))
    case ProxyClear => p.(ownPac := None)
    case RtcSet => p.(ownRtc := Some(DisableNonProxiedUdp))
    case RtcClear => p.(ownRtc := None)
    case _ => p
  }

  function Answer(call: Call, p: Profile, o: Outcome): Reply {
    if !o.resolved then Rejected
    else
      match call
      case StorageGet => Data(p.storage)
      case ProxyGet(incognito) => ProxyIs(ProxyIn(p, incognito))
      case RtcGet(incognito) => RtcIs(RtcIn(p, incognito))
      case IncognitoProxy =>
        if p.outside.incognitoAllowed then ProxyIs(ProxyIn(p, true)) else NotAllowed
      case IncognitoRtc =>
        if p.outside.incognitoAllowed then RtcIs(RtcIn(p, true)) else NotAllowed
      case TabGet => TabIs(o.tab)
      case Fetch => FetchedIp
      case _ => Done
  }

  /** The kind of value a call resolves to. */
  predicate Answers(call: Call, r: Reply) {
    match call
    case StorageGet => r.Data?
    case ProxyGet(_) => r.ProxyIs?
    case RtcGet(_) => r.RtcIs?
    case IncognitoProxy => r.ProxyIs? || r.NotAllowed?
    case IncognitoRtc => r.RtcIs? || r.NotAllowed?
    case TabGet => r.TabIs?
    case Fetch => r.FetchedIp?
    case _ => r.Done?
  }

  lemma AnswersFit(call: Call, p: Profile, o: Outcome)
    ensures Answer(call, p, o).Rejected? <==> !o.resolved
    ensures Answer(call, p, o).Rejected? || Answers(call, Answer(call, p, o))
  {
  }

  function Performed(call: Call, p: Profile, o: Outcome): Profile {
    if o.applied then Effect(call, p) else p
  }

  /** incognitoProxyState, computed from the reply of an IncognitoProxy call. */
  datatype IncognitoState = IncognitoState(controllable: bool, effective: bool, level: Option<Level>)

  function IncognitoProxyState(r: Reply, expected: Pac): IncognitoState {
    match r
    case ProxyIs(s) => IncognitoState(MayControl(s.level), Effective(s, expected), Some(s.level))
    case NotAllowed => IncognitoState(true, true, None)
    case _ => IncognitoState(false, false, None)
  }

  /** incognitoWebRTCIsRestricted, computed from the reply of an IncognitoRtc call. */
  predicate IncognitoRtcRestricted(r: Reply) {
    match r
    case RtcIs(s) => Restricted(s)
    case NotAllowed => true
    case _ => false
  }

  predicate RtcRestricted(r: Reply) {
    r.RtcIs? && Restricted(r.rtc)
  }

  predicate ProxyEffective(r: Reply, expected: Pac) {
    r.ProxyIs? && Effective(r.proxy, expected)
  }
}
