/** The exclusive tasks of the service worker, cut at every await.

    A program point names the call a task is waiting for; Resume is the stretch
    of code that runs when the reply is in, up to the next await. */
module Tasks {
  import opened Wrappers
  import opened Browser

  /** restoreAfterIncognitoTakeover and ownProxyClearedForConflict. */
  datatype Flags = Flags(restore: bool, ownCleared: bool)

  /** Epochs sampled by TEST_IP; `base` keeps the first configuration epoch. */
  datatype Sample = Sample(base: nat, epoch: nat, settingEpoch: nat, errorEpoch: nat)

  datatype Epochs = Epochs(configuration: nat, setting: nat, error: nat)

  predicate Changed(l: Sample, now: Epochs) {
    now.configuration != l.epoch || now.setting != l.settingEpoch || now.error != l.errorEpoch
  }

  /** What `exclusive` queues. A missing payload is one the parser rejects. `id`
      numbers the proxy errors in order of arrival. */
  datatype Task =
    | ImportKey(key: Option<Connection>)
    | Connect
    | Disconnect
    | Forget
    | SaveExclusions(text: Option<seq<string>>)
    | RecordProxyError(id: nat, error: ErrorRecord)
    | RecordAuthError(id: nat, error: ErrorRecord)
    | ProxyChanged
    | RtcChanged
    | ClearTestedError(handler: nat, sample: Sample, previous: ErrorRecord)

  datatype Caller = AtBoot | AtRtcChange | InProxyChange

  datatype ReconcileAt = AccessLevel | ReadStorage | StoreDisabled | DropPac | DropRtc | Badge

  datatype ApplyAt =
    | ReadRtc
    | DropUnrestrictedPac(level: Level)
    | SetRtc
    | RereadRtc
    | ReadIncognitoRtc
    | ReadProxy
    | ReadIncognitoProxy(proxy: ProxySetting)
    | SetPac
    | RereadProxy
    | LastRtc
    | LastIncognitoRtc
    | LastIncognitoProxy
    | DropFailedPac
    | AppliedBadge

  datatype ConnectAt =
    | CReadProxy
    | CReadIncognitoProxy
    | CReadRtc
    | CRefuse
    | CDropUnrestrictedPac
    | CStoreEnabled
    | CSetRtc
    | CRereadRtc
    | CReadIncognitoRtc
    | CSetPac
    | CRereadProxy
    | CRereadIncognitoProxy
    | CLastRtc
    | CLastIncognitoRtc
    | CStoreDisabled
    | CDropPac
    | CDropRtc
    | CReport
    | CReportFailure

  datatype DisconnectAt = DStore | DDropPac | DDropRtc | DReport | DRemove | DLastReport

  datatype ImportAt = IStoreDisabled | IDropPac | IDropRtc | IStore | IReport

  /** Replacing the exclusions of an enabled connection, then putting the old ones back. */
  datatype SaveAt =
    | SReadProxy
    | SReadRtc
    | SReadIncognitoRtc
    | SReadIncognitoProxy
    | SRefuse
    | SStore
    | SSetPac
    | SRereadProxy
    | SRereadIncognitoProxy
    | SLastRtc
    | SLastIncognitoRtc
    | SStoreOld
    | SOldRtc
    | SOldIncognitoRtc
    | SOldIncognitoProxy
    | SSetOldPac
    | SOldRereadProxy
    | SOldRereadIncognitoProxy
    | SOldLastRtc
    | SOldLastIncognitoRtc
    | SDropPac
    | SReport
    | SReportRestored
    | SReportFailure(dropped: bool)

  datatype ProxyChangeAt =
    | PReadStorage
    | PReadIncognito(cfg: Config)
    | PReadProxy(cfg: Config, incognito: IncognitoState)
    | PDropPac(incognito: IncognitoState, regular: Level)
    | PReadRtc
    | PReadIncognitoRtc
    | PBadge

  /** status(), as far as TEST_IP looks at it. */
  datatype StatusAt =
    | TReadStorage
    | TReadProxy(data: Storage)
    | TReadRtc(data: Storage, proxy: ProxySetting)
    | TReadIncognitoRtc(data: Storage, proxy: ProxySetting)
    | TReadIncognitoProxy(data: Storage, proxy: ProxySetting)

  datatype Status = Status(active: bool, canRetryIp: bool, proxyError: Option<ErrorRecord>, exclusions: seq<string>)

  datatype StatusStep = More(at: StatusAt) | Ready(status: Status) | Threw

  datatype ClearAt =
    | KReadStorage
    | KStatus(data: Storage, at: StatusAt)
    | KStore
    | KBadge

  datatype Pc =
    | Reconcile(caller: Caller, r: ReconcileAt)
    | Apply(caller: Caller, cfg: Config, a: ApplyAt)
    | BootDropPac
    | BootBadge
    | ConnectRead
    | Connecting(cfg: Config, c: ConnectAt)
    | Disconnecting(forget: bool, d: DisconnectAt)
    | Importing(connection: Connection, i: ImportAt)
    | SaveRead(next: seq<string>)
    | SaveOff(next: seq<string>, stored: bool)
    | Saving(connection: Connection, before: Stored<seq<string>>, next: seq<string>, s: SaveAt)
    | RecordRead(id: nat, error: ErrorRecord)
    | RecordStore(id: nat, error: ErrorRecord)
    | RecordBadge
    | ProxyChange(p: ProxyChangeAt)
    | Clearing(handler: nat, sample: Sample, previous: ErrorRecord, k: ClearAt)
    | Settle

  function StatusCall(at: StatusAt): Call {
    match at
    case TReadStorage => StorageGet
    case TReadProxy(_) => ProxyGet(false)
    case TReadRtc(_, _) => RtcGet(false)
    case TReadIncognitoRtc(_, _) => IncognitoRtc
    case TReadIncognitoProxy(_, _) => IncognitoProxy
  }

  /** The call a task waits for at a program point. */
  function CallOf(pc: Pc): Call {
    match pc
    case Reconcile(_, r) => ReconcileCall(r)
    case Apply(_, cfg, a) => ApplyCall(cfg, a)
    case BootDropPac => ProxyClear
    case BootBadge => Report
    case ConnectRead => StorageGet
    case Connecting(cfg, c) => ConnectCall(cfg, c)
    case Disconnecting(_, d) => DisconnectCall(d)
    case Importing(connection, i) => ImportCall(connection, i)
    case SaveRead(_) => StorageGet
    case SaveOff(next, stored) => if stored then Report else StorageSet(Exclude(next))
    case Saving(connection, before, next, s) => SaveCall(connection, before, next, s)
    case RecordRead(_, _) => StorageGet
    case RecordStore(_, error) => StorageSet(Record(error))
    case RecordBadge => Report
    case ProxyChange(p) => ProxyChangeCall(p)
    case Clearing(_, _, _, k) => ClearCall(k)
    case Settle => Report
  }

  function ReconcileCall(r: ReconcileAt): Call {
    match r
    case AccessLevel => SetAccessLevel
    case ReadStorage => StorageGet
    case StoreDisabled => StorageSet(Disable)
    case DropPac => ProxyClear
    case DropRtc => RtcClear
    case Badge => Report
  }

  function ApplyCall(cfg: Config, a: ApplyAt): Call {
    match a
    case ReadRtc | RereadRtc | LastRtc => RtcGet(false)
    case ReadIncognitoRtc | LastIncognitoRtc => IncognitoRtc
    case ReadProxy | RereadProxy => ProxyGet(false)
    case ReadIncognitoProxy(_) | LastIncognitoProxy => IncognitoProxy
    case SetRtc => RtcSet
    case SetPac => ProxySet(BuildProxyConfig(cfg))
    case DropUnrestrictedPac(_) | DropFailedPac => ProxyClear
    case AppliedBadge => Report
  }

  function ConnectCall(cfg: Config, c: ConnectAt): Call {
    match c
    case CReadProxy | CRereadProxy => ProxyGet(false)
    case CReadIncognitoProxy | CRereadIncognitoProxy => IncognitoProxy
    case CReadRtc | CRereadRtc | CLastRtc => RtcGet(false)
    case CReadIncognitoRtc | CLastIncognitoRtc => IncognitoRtc
    case CRefuse | CDropUnrestrictedPac | CDropPac => ProxyClear
    case CStoreEnabled => StorageSet(EnableAndForgive)
    case CSetRtc => RtcSet
    case CSetPac => ProxySet(BuildProxyConfig(cfg))
    case CStoreDisabled => StorageSet(Disable)
    case CDropRtc => RtcClear
    case CReport | CReportFailure => Report
  }

  function DisconnectCall(d: DisconnectAt): Call {
    match d
    case DStore => StorageSet(DisableAndForgive)
    case DDropPac => ProxyClear
    case DDropRtc => RtcClear
    case DRemove => StorageSet(RemoveConfig)
    case DReport | DLastReport => Report
  }

  function ImportCall(connection: Connection, i: ImportAt): Call {
    match i
    case IStoreDisabled => StorageSet(Disable)
    case IDropPac => ProxyClear
    case IDropRtc => RtcClear
    case IStore => StorageSet(Import(connection))
    case IReport => Report
  }

  function SaveCall(connection: Connection, before: Stored<seq<string>>, next: seq<string>, s: SaveAt): Call {
    match s
    case SReadProxy | SRereadProxy | SOldRereadProxy => ProxyGet(false)
    case SReadRtc | SLastRtc | SOldRtc | SOldLastRtc => RtcGet(false)
    case SReadIncognitoRtc | SLastIncognitoRtc | SOldIncognitoRtc | SOldLastIncognitoRtc => IncognitoRtc
    case SReadIncognitoProxy | SRereadIncognitoProxy | SOldIncognitoProxy | SOldRereadIncognitoProxy => IncognitoProxy
    case SRefuse | SDropPac => ProxyClear
    case SStore => StorageSet(Exclude(next))
    case SSetPac => ProxySet(BuildProxyConfig(Config(connection, next)))
    case SStoreOld => StorageSet(Exclude(ExclusionList(before)))
    case SSetOldPac => ProxySet(BuildProxyConfig(Config(connection, ExclusionList(before))))
    case SReport | SReportRestored | SReportFailure(_) => Report
  }

  function ProxyChangeCall(p: ProxyChangeAt): Call {
    match p
    case PReadStorage => StorageGet
    case PReadIncognito(_) => IncognitoProxy
    case PReadProxy(_, _) => ProxyGet(false)
    case PDropPac(_, _) => ProxyClear
    case PReadRtc => RtcGet(false)
    case PReadIncognitoRtc => IncognitoRtc
    case PBadge => Report
  }

  function ClearCall(k: ClearAt): Call {
    match k
    case KReadStorage => StorageGet
    case KStatus(_, at) => StatusCall(at)
    case KStore => StorageSet(Forgive)
    case KBadge => Report
  }

  /** Where a task goes on, or whether its promise resolves (the function returns) or rejects.
      Nobody looks at the promise of a settings listener; there the last badge decides. */
  datatype Next = Go(pc: Pc) | Stop(returned: bool)

  /** The flags after a stretch and where the task goes on. */
  datatype Step = Step(flags: Flags, next: Next)

  function OnApply(f: Flags, caller: Caller, cfg: Config, a: ApplyAt): Step {
    Step(f, Go(Apply(caller, cfg, a)))
  }

  function OnConnect(f: Flags, cfg: Config, c: ConnectAt): Step {
    Step(f, Go(Connecting(cfg, c)))
  }

  function OnSave(f: Flags, connection: Connection, before: Stored<seq<string>>, next: seq<string>, s: SaveAt): Step {
    Step(f, Go(Saving(connection, before, next, s)))
  }

  function OnClear(f: Flags, handler: nat, sample: Sample, previous: ErrorRecord, k: ClearAt): Step {
    Step(f, Go(Clearing(handler, sample, previous, k)))
  }

  /** Where control goes when reconcileAtStartup throws. */
  function Throw(caller: Caller): Next {
    match caller
    case AtBoot => Go(BootDropPac)
    case AtRtcChange => Stop(false)
    case InProxyChange => Go(ProxyChange(PBadge))
  }

  /** Where control goes when reconcileAtStartup returns. */
  function Return(caller: Caller): Next {
    if caller.InProxyChange? then Go(ProxyChange(PBadge)) else Stop(true)
  }

  function ResumeReconcile(caller: Caller, at: ReconcileAt, f: Flags, r: Reply): Step {
    if r.Rejected? then Step(f, Throw(caller))
    else
      match at
      case AccessLevel => Step(f, Go(Reconcile(caller, ReadStorage)))
      case ReadStorage =>
        if !r.Data? then Step(f, Throw(caller))
        else if !Readable(r.data) then Step(f, Go(Reconcile(caller, StoreDisabled)))
        else if r.data.enabled && r.data.connection.Saved? then
          Step(f, Go(Apply(caller, Config(r.data.connection.value, ExclusionList(r.data.exclusions)), ReadRtc)))
        else if r.data.enabled then Step(f, Go(Reconcile(caller, StoreDisabled)))
        else Step(f, Go(Reconcile(caller, DropPac)))
      case StoreDisabled => Step(f, Go(Reconcile(caller, DropPac)))
      case DropPac => Step(f, Go(Reconcile(caller, DropRtc)))
      case DropRtc => Step(f, Go(Reconcile(caller, Badge)))
      case Badge => Step(f, Return(caller))
  }

  /** The try block of reconcileAtStartup and its catch. */
  function ResumeApply(caller: Caller, cfg: Config, at: ApplyAt, f: Flags, r: Reply): Step {
    var expected := BuildProxyConfig(cfg);
    match at
    case ReadRtc =>
      if !r.RtcIs? then OnApply(f, caller, cfg, DropFailedPac)
      else if Restricted(r.rtc) then OnApply(f, caller, cfg, ReadIncognitoRtc)
      else OnApply(f, caller, cfg, DropUnrestrictedPac(r.rtc.level))
    case DropUnrestrictedPac(level) =>
      OnApply(f, caller, cfg, if r.Rejected? || !MayControl(level) then DropFailedPac else SetRtc)
    case SetRtc => if r.Rejected? then OnApply(f, caller, cfg, DropFailedPac) else OnApply(f, caller, cfg, RereadRtc)
    case RereadRtc => OnApply(f, caller, cfg, if RtcRestricted(r) then ReadIncognitoRtc else DropFailedPac)
    case ReadIncognitoRtc => OnApply(f, caller, cfg, if IncognitoRtcRestricted(r) then ReadProxy else DropFailedPac)
    case ReadProxy =>
      OnApply(f, caller, cfg,
              if r.ProxyIs? && MayControl(r.proxy.level) then ReadIncognitoProxy(r.proxy) else DropFailedPac)
    case ReadIncognitoProxy(proxy) =>
      if !IncognitoProxyState(r, expected).controllable then
        Step(f.(restore := true), Go(Apply(caller, cfg, DropFailedPac)))
      else if Effective(proxy, expected) then OnApply(f, caller, cfg, LastRtc)
      else OnApply(f, caller, cfg, SetPac)
    case SetPac => if r.Rejected? then OnApply(f, caller, cfg, DropFailedPac) else OnApply(f, caller, cfg, RereadProxy)
    case RereadProxy => OnApply(f, caller, cfg, if ProxyEffective(r, expected) then LastRtc else DropFailedPac)
    case LastRtc => OnApply(f, caller, cfg, if RtcRestricted(r) then LastIncognitoRtc else DropFailedPac)
    case LastIncognitoRtc =>
      OnApply(f, caller, cfg, if IncognitoRtcRestricted(r) then LastIncognitoProxy else DropFailedPac)
    case LastIncognitoProxy =>
      if IncognitoProxyState(r, expected).effective then
        Step(Flags(false, false), Go(Apply(caller, cfg, AppliedBadge)))
      else OnApply(f, caller, cfg, DropFailedPac)
    case DropFailedPac => Step(f, if r.Rejected? then Throw(caller) else Go(Reconcile(caller, Badge)))
    case AppliedBadge => Step(f, if r.Rejected? then Throw(caller) else Return(caller))
  }

  function ResumeConnect(cfg: Config, at: ConnectAt, f: Flags, r: Reply): Step {
    var expected := BuildProxyConfig(cfg);
    var throw := Step(f, Stop(false));
    match at
    case CReadProxy =>
      if !r.ProxyIs? then throw
      else OnConnect(f, cfg, if MayControl(r.proxy.level) then CReadIncognitoProxy else CRefuse)
    case CReadIncognitoProxy =>
      OnConnect(f, cfg, if IncognitoProxyState(r, expected).controllable then CReadRtc else CRefuse)
    case CReadRtc =>
      if !r.RtcIs? then throw
      else if !MayControl(r.rtc.level) then OnConnect(f, cfg, CRefuse)
      else OnConnect(f, cfg, if Restricted(r.rtc) then CStoreEnabled else CDropUnrestrictedPac)
    case CRefuse => throw
    case CDropUnrestrictedPac => if r.Rejected? then throw else OnConnect(f, cfg, CStoreEnabled)
    case CStoreEnabled => if r.Rejected? then throw else OnConnect(f, cfg, CSetRtc)
    case CSetRtc => OnConnect(f, cfg, if r.Rejected? then CStoreDisabled else CRereadRtc)
    case CRereadRtc => OnConnect(f, cfg, if RtcRestricted(r) then CReadIncognitoRtc else CStoreDisabled)
    case CReadIncognitoRtc => OnConnect(f, cfg, if IncognitoRtcRestricted(r) then CSetPac else CStoreDisabled)
    case CSetPac => OnConnect(f, cfg, if r.Rejected? then CStoreDisabled else CRereadProxy)
    case CRereadProxy =>
      OnConnect(f, cfg, if ProxyEffective(r, expected) then CRereadIncognitoProxy else CStoreDisabled)
    case CRereadIncognitoProxy =>
      OnConnect(f, cfg, if IncognitoProxyState(r, expected).effective then CLastRtc else CStoreDisabled)
    case CLastRtc => OnConnect(f, cfg, if RtcRestricted(r) then CLastIncognitoRtc else CStoreDisabled)
    case CLastIncognitoRtc =>
      if IncognitoRtcRestricted(r) then Step(Flags(false, false), Go(Connecting(cfg, CReport)))
      else OnConnect(f, cfg, CStoreDisabled)
    case CStoreDisabled => if r.Rejected? then throw else OnConnect(f, cfg, CDropPac)
    case CDropPac => if r.Rejected? then throw else OnConnect(f, cfg, CDropRtc)
    case CDropRtc => if r.Rejected? then throw else OnConnect(f, cfg, CReportFailure)
    case CReportFailure => throw
    case CReport => Step(f, Stop(!r.Rejected?))
  }

  function ResumeDisconnect(forget: bool, at: DisconnectAt, f: Flags, r: Reply): Step {
    if r.Rejected? then Step(f, Stop(false))
    else
      match at
      case DStore => Step(f, Go(Disconnecting(forget, DDropPac)))
      case DDropPac => Step(f, Go(Disconnecting(forget, DDropRtc)))
      case DDropRtc => Step(f, Go(Disconnecting(forget, DReport)))
      case DReport => Step(f, if forget then Go(Disconnecting(forget, DRemove)) else Stop(true))
      case DRemove => Step(f, Go(Disconnecting(forget, DLastReport)))
      case DLastReport => Step(f, Stop(true))
  }

  function ResumeImport(connection: Connection, at: ImportAt, f: Flags, r: Reply): Step {
    if r.Rejected? then Step(f, Stop(false))
    else
      match at
      case IStoreDisabled => Step(f, Go(Importing(connection, IDropPac)))
      case IDropPac => Step(f, Go(Importing(connection, IDropRtc)))
      case IDropRtc => Step(f, Go(Importing(connection, IStore)))
      case IStore => Step(f, Go(Importing(connection, IReport)))
      case IReport => Step(f, Stop(true))
  }

  function ResumeSaveRead(next: seq<string>, f: Flags, r: Reply): Step {
    if !r.Data? || !r.data.connection.Saved? then Step(f, Stop(false))
    else if r.data.enabled then
      Step(f, Go(Saving(r.data.connection.value, r.data.exclusions, next, SReadProxy)))
    else Step(f, Go(SaveOff(next, false)))
  }

  function ResumeSave(connection: Connection, before: Stored<seq<string>>, next: seq<string>,
                      at: SaveAt, f: Flags, r: Reply): Step {
    var expected := BuildProxyConfig(Config(connection, next));
    var previous := BuildProxyConfig(Config(connection, ExclusionList(before)));
    var throw := Step(f, Stop(false));
    match at
    case SReadProxy =>
      if !r.ProxyIs? then throw
      else OnSave(f, connection, before, next, if MayControl(r.proxy.level) then SReadRtc else SRefuse)
    case SReadRtc =>
      if !r.RtcIs? then throw
      else OnSave(f, connection, before, next, if Restricted(r.rtc) then SReadIncognitoRtc else SRefuse)
    case SReadIncognitoRtc =>
      if !IncognitoRtcRestricted(r) then OnSave(f, connection, before, next, SRefuse)
      else if before.Damaged? then throw
      else OnSave(f, connection, before, next, SReadIncognitoProxy)
    case SReadIncognitoProxy =>
      if IncognitoProxyState(r, previous).controllable then OnSave(f, connection, before, next, SStore)
      else Step(f.(restore := true), Go(Saving(connection, before, next, SRefuse)))
    case SRefuse => throw
    case SStore => if r.Rejected? then throw else OnSave(f, connection, before, next, SSetPac)
    case SSetPac => OnSave(f, connection, before, next, if r.Rejected? then SStoreOld else SRereadProxy)
    case SRereadProxy =>
      OnSave(f, connection, before, next, if ProxyEffective(r, expected) then SRereadIncognitoProxy else SStoreOld)
    case SRereadIncognitoProxy =>
      OnSave(f, connection, before, next, if IncognitoProxyState(r, expected).effective then SLastRtc else SStoreOld)
    case SLastRtc => OnSave(f, connection, before, next, if RtcRestricted(r) then SLastIncognitoRtc else SStoreOld)
    case SLastIncognitoRtc =>
      if IncognitoRtcRestricted(r) then
        Step(f.(ownCleared := false), Go(Saving(connection, before, next, SReport)))
      else OnSave(f, connection, before, next, SStoreOld)
    case SStoreOld => if r.Rejected? then throw else OnSave(f, connection, before, next, SOldRtc)
    case SOldRtc => OnSave(f, connection, before, next, if RtcRestricted(r) then SOldIncognitoRtc else SDropPac)
    case SOldIncognitoRtc =>
      OnSave(f, connection, before, next, if IncognitoRtcRestricted(r) then SOldIncognitoProxy else SDropPac)
    case SOldIncognitoProxy =>
      OnSave(f, connection, before, next,
             if IncognitoProxyState(r, previous).controllable then SSetOldPac else SDropPac)
    case SSetOldPac => OnSave(f, connection, before, next, if r.Rejected? then SDropPac else SOldRereadProxy)
    case SOldRereadProxy =>
      OnSave(f, connection, before, next, if ProxyEffective(r, previous) then SOldRereadIncognitoProxy else SDropPac)
    case SOldRereadIncognitoProxy =>
      OnSave(f, connection, before, next, if IncognitoProxyState(r, previous).effective then SOldLastRtc else SDropPac)
    case SOldLastRtc => OnSave(f, connection, before, next, if RtcRestricted(r) then SOldLastIncognitoRtc else SDropPac)
    case SOldLastIncognitoRtc =>
      OnSave(f, connection, before, next, if IncognitoRtcRestricted(r) then SReportRestored else SDropPac)
    case SDropPac => OnSave(f, connection, before, next, SReportFailure(!r.Rejected?))
    case SReportRestored | SReportFailure(_) => throw
    case SReport => Step(f, Stop(!r.Rejected?))
  }

  function ResumeProxyChange(at: ProxyChangeAt, f: Flags, r: Reply): Step {
    var finally := Go(ProxyChange(PBadge));
    match at
    case PReadStorage =>
      if !r.Data? || !r.data.enabled || !r.data.connection.Saved? || r.data.exclusions.Damaged? then
        Step(f, finally)
      else
        Step(f, Go(ProxyChange(PReadIncognito(Config(r.data.connection.value, ExclusionList(r.data.exclusions))))))
    case PReadIncognito(cfg) =>
      Step(f, Go(ProxyChange(PReadProxy(cfg, IncognitoProxyState(r, BuildProxyConfig(cfg))))))
    case PReadProxy(cfg, incognito) =>
      if !r.ProxyIs? then Step(f, finally)
      else
        var f1 := if incognito.effective then Flags(false, false) else f;
        if !incognito.effective && !f1.ownCleared then
          Step(f1.(restore := !incognito.controllable), Go(ProxyChange(PDropPac(incognito, r.proxy.level))))
        else Step(f1, MaybeRestore(f1, incognito, r.proxy.level))
    case PDropPac(incognito, regular) =>
      if r.Rejected? then Step(f, finally)
      else
        var f1 := f.(ownCleared := true);
        Step(f1, MaybeRestore(f1, incognito, regular))
    case PReadRtc => Step(f, if RtcRestricted(r) then Go(ProxyChange(PReadIncognitoRtc)) else finally)
    case PReadIncognitoRtc =>
      if IncognitoRtcRestricted(r) then Step(Flags(false, false), Go(Reconcile(InProxyChange, AccessLevel)))
      else Step(f, finally)
    case PBadge => Step(f, Stop(!r.Rejected?))
  }

  function MaybeRestore(f: Flags, incognito: IncognitoState, regular: Level): Next {
    if f.restore && incognito.level == Some(Controllable) && regular.Controllable?
    then Go(ProxyChange(PReadRtc)) else Go(ProxyChange(PBadge))
  }

  /** One stretch of status(). */
  function StatusNext(at: StatusAt, r: Reply): StatusStep {
    match at
    case TReadStorage => if r.Data? then More(TReadProxy(r.data)) else Threw
    case TReadProxy(data) => if r.ProxyIs? then More(TReadRtc(data, r.proxy)) else Threw
    case TReadRtc(data, proxy) =>
      if !r.RtcIs? then Threw
      else if !Readable(data) then Ready(Status(false, false, None, []))
      else if !data.connection.Saved? || !data.enabled || !Restricted(r.rtc) then Ready(Inactive(data))
      else More(TReadIncognitoRtc(data, proxy))
    case TReadIncognitoRtc(data, proxy) =>
      if IncognitoRtcRestricted(r) then More(TReadIncognitoProxy(data, proxy)) else Ready(Inactive(data))
    case TReadIncognitoProxy(data, proxy) =>
      if !data.connection.Saved? then Ready(Inactive(data))
      else
        var expected := BuildProxyConfig(Config(data.connection.value, ExclusionList(data.exclusions)));
        var incognito := IncognitoProxyState(r, expected);
        if !incognito.controllable || !Effective(proxy, expected) || !incognito.effective then
          Ready(Inactive(data))
        else if data.proxyError.Some? then
          Ready(Inactive(data).(canRetryIp := !data.proxyError.value.possibleDirect))
        else Ready(Inactive(data).(active := true))
  }

  function Inactive(data: Storage): Status {
    Status(false, false, data.proxyError, ExclusionList(data.exclusions))
  }

  /** The queued half of TEST_IP. */
  function ResumeClear(handler: nat, sample: Sample, previous: ErrorRecord, at: ClearAt,
                       f: Flags, r: Reply, now: Epochs): Step {
    match at
    case KReadStorage =>
      if r.Data? then OnClear(f, handler, sample, previous, KStatus(r.data, TReadStorage)) else Step(f, Stop(false))
    case KStatus(data, s) =>
      (match StatusNext(s, r)
       case More(next) => OnClear(f, handler, sample, previous, KStatus(data, next))
       case Threw => Step(f, Stop(false))
       case Ready(latest) =>
         if Changed(sample, now) || data.proxyError != Some(previous) || !latest.canRetryIp then Step(f, Stop(false))
         else OnClear(f, handler, sample, previous, KStore))
    case KStore =>
      if r.Rejected? || Changed(sample, now) then Step(f, Stop(false))
      else OnClear(f, handler, sample, previous, KBadge)
    case KBadge => Step(f, Stop(!r.Rejected?))
  }

  function Resume(pc: Pc, f: Flags, r: Reply, now: Epochs): Step {
    match pc
    case Reconcile(caller, at) => ResumeReconcile(caller, at, f, r)
    case Apply(caller, cfg, at) => ResumeApply(caller, cfg, at, f, r)
    case BootDropPac => Step(f, Go(BootBadge))
    case BootBadge => Step(f, Stop(true))
    case ConnectRead =>
      if !r.Data? || !r.data.connection.Saved? || r.data.exclusions.Damaged? then Step(f, Stop(false))
      else Step(f, Go(Connecting(Config(r.data.connection.value, ExclusionList(r.data.exclusions)), CReadProxy)))
    case Connecting(cfg, at) => ResumeConnect(cfg, at, f, r)
    case Disconnecting(forget, at) => ResumeDisconnect(forget, at, f, r)
    case Importing(connection, at) => ResumeImport(connection, at, f, r)
    case SaveRead(next) => ResumeSaveRead(next, f, r)
    case SaveOff(next, stored) =>
      if r.Rejected? || stored then Step(f, Stop(!r.Rejected?))
      else Step(f.(ownCleared := false), Go(SaveOff(next, true)))
    case Saving(connection, before, next, at) => ResumeSave(connection, before, next, at, f, r)
    case RecordRead(id, error) =>
      Step(f, if r.Data? && r.data.enabled then Go(RecordStore(id, error)) else Stop(r.Data?))
    case RecordStore(id, error) => Step(f, if r.Rejected? then Stop(false) else Go(RecordBadge))
    case RecordBadge => Step(f, Stop(!r.Rejected?))
    case ProxyChange(at) => ResumeProxyChange(at, f, r)
    case Clearing(handler, sample, previous, at) => ResumeClear(handler, sample, previous, at, f, r, now)
    case Settle => Step(f, Stop(false))
  }

  datatype Beginning = Beginning(flags: Flags, pc: Pc)

  /** The first stretch of a task, run right after `exclusive` has raised the epoch. */
  function Start(t: Task, f: Flags, now: Epochs): Beginning {
    match t
    case ImportKey(key) =>
      Beginning(f, if key.Some? then Importing(key.value, IStoreDisabled) else Settle)
    case Connect => Beginning(f, ConnectRead)
    case Disconnect => Beginning(Flags(false, false), Disconnecting(false, DStore))
    case Forget => Beginning(Flags(false, false), Disconnecting(true, DStore))
    case SaveExclusions(text) => Beginning(f, if text.Some? then SaveRead(text.value) else Settle)
    case RecordProxyError(id, error) => Beginning(f, RecordRead(id, error))
    case RecordAuthError(id, error) => Beginning(f, RecordStore(id, error))
    case ProxyChanged => Beginning(f, ProxyChange(PReadStorage))
    case RtcChanged => Beginning(f, Reconcile(AtRtcChange, AccessLevel))
    case ClearTestedError(handler, sample, previous) =>
      if now.configuration != sample.epoch + 1 then Beginning(f, Settle)
      else Beginning(f, Clearing(handler, sample.(epoch := now.configuration), previous, KReadStorage))
  }
}
