/** What every task does to the profile when nobody interferes and no call fails: a closed
    form for each, from every profile, that mentions no program point. */
module Effects {
  import opened Wrappers
  import opened Browser
  import opened Tasks
  import opened Worker
  import opened Coupling
  import opened Ranks

  /** The profile and the flags a task leaves, and whether it returns or throws. */
  datatype Final = Final(profile: Profile, flags: Flags, returned: bool)

  /** What a task at `pc` comes to while every call succeeds and nothing else acts. */
  ghost function Finish(p: Profile, f: Flags, pc: Pc, now: Epochs): Final
    decreases Rank(pc)
  {
    var reply := Answer(CallOf(pc), p, SUCCEEDED);
    RankFalls(pc, f, reply, now);
    var step := Resume(pc, f, reply, now);
    var q := Performed(CallOf(pc), p, SUCCEEDED);
    if step.next.Go? then Finish(q, step.flags, step.next.pc, now) else Final(q, step.flags, step.next.returned)
  }

  ghost function GoOn(p: Profile, step: Step, now: Epochs): Final {
    if step.next.Go? then Finish(p, step.flags, step.next.pc, now) else Final(p, step.flags, step.next.returned)
  }

  lemma Once(p: Profile, f: Flags, pc: Pc, now: Epochs)
    ensures Finish(p, f, pc, now) ==
      GoOn(Performed(CallOf(pc), p, SUCCEEDED), Resume(pc, f, Answer(CallOf(pc), p, SUCCEEDED), now), now)
  {
    hide Performed, CallOf, Answer, Resume;
  }

  // The surroundings a command meets.

  predicate IncognitoControllable(o: Outside) {
    o.incognitoAllowed && o.incognitoProxy.Some? ==> MayControl(o.incognitoProxy.value.level)
  }

  /** What the extension sets takes effect in incognito windows too, or is already there. */
  predicate IncognitoYields(o: Outside, pac: Pac) {
    o.incognitoAllowed && o.incognitoProxy.Some? ==> Effective(o.incognitoProxy.value, pac)
  }

  predicate IncognitoRtcYields(o: Outside) {
    o.incognitoAllowed && o.incognitoRtc.Some? ==> Restricted(o.incognitoRtc.value)
  }

  function StoredConfig(d: Storage): Config
    requires Usable(d)
  {
    Config(d.connection.value, ExclusionList(d.exclusions))
  }

  function StoredPac(d: Storage): Pac
    requires Usable(d)
  {
    BuildProxyConfig(StoredConfig(d))
  }

  function Bare(p: Profile): Profile {
    p.(ownPac := None, ownRtc := None)
  }

  /** Both preferences set for what is stored. */
  function Routed(p: Profile): Profile
    requires Usable(p.storage)
  {
    p.(ownPac := Some(StoredPac(p.storage)), ownRtc := Some(DisableNonProxiedUdp))
  }

  predicate MayRoute(p: Profile) {
    Usable(p.storage) && p.outside.proxy.None? && p.outside.rtc.None? && IncognitoRtcYields(p.outside) &&
    IncognitoControllable(p.outside) && IncognitoYields(p.outside, StoredPac(p.storage))
  }

  /** CONNECT either refuses, dropping the PAC, or stores `enabled` and routes everything,
      or finds that it cannot and ends disabled with no preference. */
  function Connected(p: Profile, f: Flags): Final {
    var o := p.outside;
    if !Usable(p.storage) then Final(p, f, false)
    else if o.proxy.Some? || !IncognitoControllable(o) || o.rtc.Some? then Final(p.(ownPac := None), f, false)
    else if MayRoute(p) then
      Final(Routed(p).(storage := p.storage.(enabled := true, proxyError := None)), Flags(false, false), true)
    else Final(Bare(p).(storage := p.storage.(enabled := false, proxyError := None)), f, false)
  }

  /** The reconciliation at boot, after a WebRTC change and when an incognito takeover ends. */
  function Reconciled(p: Profile, f: Flags): Final {
    var o := p.outside;
    if !Active(p.storage) then Final(Bare(p).(storage := p.storage.(enabled := false)), f, true)
    else if MayRoute(p) then Final(Routed(p), Flags(false, false), true)
    else
      Final(p.(ownPac := None, ownRtc := if o.rtc.None? then Some(DisableNonProxiedUdp) else p.ownRtc),
            if o.rtc.None? && IncognitoRtcYields(o) && o.proxy.None? && !IncognitoControllable(o)
            then f.(restore := true) else f,
            true)
  }

  function Disconnected(p: Profile): Profile {
    Bare(p).(storage := p.storage.(enabled := false, proxyError := None))
  }

  function Forgotten(p: Profile): Profile {
    Bare(p).(storage := Storage(Absent, false, Absent, None))
  }

  function Imported(p: Profile, c: Connection): Profile {
    Bare(p).(storage := Storage(Saved(c), false, Saved([]), None))
  }

  function Excluding(d: Storage, xs: seq<string>): Storage {
    d.(exclusions := Saved(xs))
  }

  /** SAVE_EXCLUSIONS: on a disabled connection it only stores; on an enabled one it refuses,
      dropping the PAC, or routes by the new list, or puts the old list back and routes by that
      again if it can. */
  function Excluded(p: Profile, f: Flags, next: seq<string>): Final {
    var o, d := p.outside, p.storage;
    if !d.connection.Saved? then Final(p, f, false)
    else if !d.enabled then Final(p.(storage := Excluding(d, next)), f.(ownCleared := false), true)
    else if o.proxy.Some? || o.rtc.Some? || !OwnRestriction(p) || !IncognitoRtcYields(o) then
      Final(p.(ownPac := None), f, false)
    else if d.exclusions.Damaged? then Final(p, f, false)
    else if !IncognitoControllable(o) then Final(p.(ownPac := None), f.(restore := true), false)
    else
      var saved := p.(storage := Excluding(d, next));
      var kept := p.(storage := Excluding(d, ExclusionList(d.exclusions)));
      if IncognitoYields(o, StoredPac(saved.storage)) then Final(Routed(saved), f.(ownCleared := false), true)
      else if IncognitoYields(o, StoredPac(kept.storage)) then Final(Routed(kept), f, false)
      else Final(kept.(ownPac := None), f, false)
  }

  /** The reaction to a change of the proxy settings: nothing while disabled or as long as the
      PAC holds in incognito windows too; else the PAC is dropped once, and set again when the
      takeover that was the reason has ended everywhere. */
  function ProxyFollowed(p: Profile, f: Flags): Final {
    var o := p.outside;
    if !Active(p.storage) then Final(p, f, true)
    else if !o.incognitoAllowed || Effective(ProxyIn(p, true), StoredPac(p.storage)) then
      Final(p, Flags(false, false), true)
    else if !f.ownCleared then
      Final(p.(ownPac := None), Flags(!MayControl(ProxyIn(p, true).level), true), true)
    else if f.restore && ProxyIn(p, true).level.Controllable? && ProxyIn(p, false).level.Controllable? &&
            Restricted(RtcIn(p, false)) && Restricted(RtcIn(p, true)) then
      Reconciled(p, Flags(false, false))
    else Final(p, f, true)
  }

  function Recorded(p: Profile, e: ErrorRecord): Profile {
    p.(storage := p.storage.(proxyError := Some(e)))
  }

  /** All traffic goes through the stored proxy, incognito windows included. */
  predicate Routes(p: Profile) {
    Active(p.storage) && Restricted(RtcIn(p, false)) && Effective(ProxyIn(p, false), StoredPac(p.storage)) &&
    (p.outside.incognitoAllowed ==>
       Restricted(RtcIn(p, true)) && Effective(ProxyIn(p, true), StoredPac(p.storage)))
  }

  /** status(), as far as TEST_IP looks at it. */
  function StatusOf(p: Profile): Status {
    var d := p.storage;
    if !Readable(d) then Status(false, false, None, [])
    else
      Status(Routes(p) && d.proxyError.None?,
             Routes(p) && d.proxyError.Some? && !d.proxyError.value.possibleDirect,
             d.proxyError, ExclusionList(d.exclusions))
  }

  /** The clearing of the error a TEST_IP has seen: only the very error, only if nothing at all
      has happened since the test began, and only while everything is routed. */
  function Cleared(p: Profile, f: Flags, sample: Sample, previous: ErrorRecord, now: Epochs): Final {
    if now == Epochs(sample.epoch + 1, sample.settingEpoch, sample.errorEpoch) && Routes(p) &&
       p.storage.proxyError == Some(previous) && !previous.possibleDirect
    then Final(p.(storage := p.storage.(proxyError := None)), f, true)
    else Final(p, f, false)
  }

  /** Every task. */
  function Effected(p: Profile, f: Flags, t: Task, now: Epochs): Final {
    match t
    case ImportKey(key) => if key.Some? then Final(Imported(p, key.value), f, true) else Final(p, f, false)
    case Connect => Connected(p, f)
    case Disconnect => Final(Disconnected(p), Flags(false, false), true)
    case Forget => Final(Forgotten(p), Flags(false, false), true)
    case SaveExclusions(text) => if text.Some? then Excluded(p, f, text.value) else Final(p, f, false)
    case RecordProxyError(_, e) => Final(if p.storage.enabled then Recorded(p, e) else p, f, true)
    case RecordAuthError(_, e) => Final(Recorded(p, e), f, true)
    case ProxyChanged => ProxyFollowed(p, f)
    case RtcChanged => Reconciled(p, f)
    case ClearTestedError(_, sample, previous) => Cleared(p, f, sample, previous, now)
  }

  // CONNECT, from its end backwards.

  lemma ConnectOnce(p: Profile, f: Flags, cfg: Config, c: ConnectAt, now: Epochs)
    ensures Finish(p, f, Connecting(cfg, c), now) ==
      GoOn(Performed(ConnectCall(cfg, c), p, SUCCEEDED),
           ResumeConnect(cfg, c, f, Answer(ConnectCall(cfg, c), p, SUCCEEDED)), now)
  {
    Once(p, f, Connecting(cfg, c), now);
    hide Performed, Answer, ResumeConnect, ConnectCall;
  }

  lemma ConfirmsConnection(p: Profile, f: Flags, cfg: Config, now: Epochs)
    requires OwnRestriction(p) && p.outside.rtc.None?
    ensures Finish(p, f, Connecting(cfg, CLastRtc), now) ==
      if IncognitoRtcYields(p.outside) then Final(p, Flags(false, false), true)
      else Finish(p, f, Connecting(cfg, CStoreDisabled), now)
  {
    ConnectOnce(p, f, cfg, CLastRtc, now);
    ConnectOnce(p, f, cfg, CLastIncognitoRtc, now);
    ConnectOnce(p, Flags(false, false), cfg, CReport, now);
    hide Finish;
  }

  lemma UndoesConnection(p: Profile, f: Flags, cfg: Config, now: Epochs)
    ensures Finish(p, f, Connecting(cfg, CStoreDisabled), now) ==
      Final(Bare(p).(storage := p.storage.(enabled := false)), f, false)
  {
    var off := p.(storage := p.storage.(enabled := false));
    ConnectOnce(p, f, cfg, CStoreDisabled, now);
    ConnectOnce(off, f, cfg, CDropPac, now);
    ConnectOnce(off.(ownPac := None), f, cfg, CDropRtc, now);
    ConnectOnce(Bare(off), f, cfg, CReportFailure, now);
    hide Finish;
  }

  lemma SetsConnection(p: Profile, f: Flags, cfg: Config, now: Epochs)
    requires p.outside.rtc.None? && p.outside.proxy.None? && OwnRestriction(p) && IncognitoRtcYields(p.outside)
    ensures Finish(p, f, Connecting(cfg, CSetPac), now) ==
      if IncognitoYields(p.outside, BuildProxyConfig(cfg)) then
        Final(p.(ownPac := Some(BuildProxyConfig(cfg))), Flags(false, false), true)
      else Final(Bare(p).(storage := p.storage.(enabled := false)), f, false)
  {
    var routed := p.(ownPac := Some(BuildProxyConfig(cfg)));
    ConnectOnce(p, f, cfg, CSetPac, now);
    ConnectOnce(routed, f, cfg, CRereadProxy, now);
    ConnectOnce(routed, f, cfg, CRereadIncognitoProxy, now);
    UndoesConnection(routed, f, cfg, now);
    ConfirmsConnection(routed, f, cfg, now);
    hide Finish;
  }

  lemma AppliesConnection(p: Profile, f: Flags, cfg: Config, now: Epochs)
    requires p.outside.rtc.None? && p.outside.proxy.None?
    ensures Finish(p, f, Connecting(cfg, CSetRtc), now) ==
      if IncognitoRtcYields(p.outside) && IncognitoYields(p.outside, BuildProxyConfig(cfg)) then
        Final(p.(ownPac := Some(BuildProxyConfig(cfg)), ownRtc := Some(DisableNonProxiedUdp)),
              Flags(false, false), true)
      else Final(Bare(p).(storage := p.storage.(enabled := false)), f, false)
  {
    var restricted := p.(ownRtc := Some(DisableNonProxiedUdp));
    ConnectOnce(p, f, cfg, CSetRtc, now);
    ConnectOnce(restricted, f, cfg, CRereadRtc, now);
    ConnectOnce(restricted, f, cfg, CReadIncognitoRtc, now);
    UndoesConnection(restricted, f, cfg, now);
    if IncognitoRtcYields(p.outside) { SetsConnection(restricted, f, cfg, now); }
    hide Finish;
  }

  lemma PreparesConnection(p: Profile, f: Flags, cfg: Config, now: Epochs)
    requires p.outside.proxy.None? && IncognitoControllable(p.outside) && p.outside.rtc.None?
    ensures Finish(p, f, Connecting(cfg, CReadRtc), now) ==
      Finish((if OwnRestriction(p) then p else p.(ownPac := None)).(storage := Patched(p.storage, EnableAndForgive)),
             f, Connecting(cfg, CSetRtc), now)
  {
    ConnectOnce(p, f, cfg, CReadRtc, now);
    ConnectOnce(p, f, cfg, CStoreEnabled, now);
    ConnectOnce(p, f, cfg, CDropUnrestrictedPac, now);
    ConnectOnce(p.(ownPac := None), f, cfg, CStoreEnabled, now);
    hide Finish;
  }

  lemma RefusesConnection(p: Profile, f: Flags, cfg: Config, now: Epochs)
    ensures Finish(p, f, Connecting(cfg, CRefuse), now) == Final(p.(ownPac := None), f, false)
  {
  }

  lemma ConnectEnds(p: Profile, f: Flags, now: Epochs)
    ensures Finish(p, f, ConnectRead, now) == Connected(p, f)
  {
    Once(p, f, ConnectRead, now);
    hide Finish;
    if Usable(p.storage) {
      var cfg := StoredConfig(p.storage);
      ConnectOnce(p, f, cfg, CReadProxy, now);
      RefusesConnection(p, f, cfg, now);
      if p.outside.proxy.None? {
        ConnectOnce(p, f, cfg, CReadIncognitoProxy, now);
        if IncognitoControllable(p.outside) {
          if p.outside.rtc.None? {
            PreparesConnection(p, f, cfg, now);
            AppliesConnection(
              (if OwnRestriction(p) then p else p.(ownPac := None)).(storage := Patched(p.storage, EnableAndForgive)),
              f, cfg, now);
          } else {
            ConnectOnce(p, f, cfg, CReadRtc, now);
          }
        }
      }
    }
  }

  // The reconciliation.

  lemma ReconcileOnce(p: Profile, f: Flags, caller: Caller, r: ReconcileAt, now: Epochs)
    ensures Finish(p, f, Reconcile(caller, r), now) ==
      GoOn(Performed(ReconcileCall(r), p, SUCCEEDED),
           ResumeReconcile(caller, r, f, Answer(ReconcileCall(r), p, SUCCEEDED)), now)
  {
    Once(p, f, Reconcile(caller, r), now);
    hide Performed, Answer, ResumeReconcile, ReconcileCall;
  }

  lemma ApplyOnce(p: Profile, f: Flags, caller: Caller, cfg: Config, a: ApplyAt, now: Epochs)
    ensures Finish(p, f, Apply(caller, cfg, a), now) ==
      GoOn(Performed(ApplyCall(cfg, a), p, SUCCEEDED),
           ResumeApply(caller, cfg, a, f, Answer(ApplyCall(cfg, a), p, SUCCEEDED)), now)
  {
    Once(p, f, Apply(caller, cfg, a), now);
    hide Performed, Answer, ResumeApply, ApplyCall;
  }

  lemma BadgeEnds(p: Profile, f: Flags, caller: Caller, now: Epochs)
    ensures Finish(p, f, Reconcile(caller, Badge), now) == Final(p, f, true)
  {
    ReconcileOnce(p, f, caller, Badge, now);
    Once(p, f, ProxyChange(PBadge), now);
    hide Finish;
  }

  lemma SwitchesOff(p: Profile, f: Flags, caller: Caller, now: Epochs)
    ensures Finish(p, f, Reconcile(caller, DropPac), now) == Final(Bare(p), f, true)
    ensures Finish(p, f, Reconcile(caller, StoreDisabled), now) ==
      Final(Bare(p).(storage := p.storage.(enabled := false)), f, true)
  {
    var off := p.(storage := p.storage.(enabled := false));
    ReconcileOnce(p, f, caller, StoreDisabled, now);
    ReconcileOnce(p, f, caller, DropPac, now);
    ReconcileOnce(off, f, caller, DropPac, now);
    ReconcileOnce(p.(ownPac := None), f, caller, DropRtc, now);
    ReconcileOnce(off.(ownPac := None), f, caller, DropRtc, now);
    BadgeEnds(Bare(p), f, caller, now);
    BadgeEnds(Bare(off), f, caller, now);
    hide Finish;
  }

  lemma DropsFailed(p: Profile, f: Flags, caller: Caller, cfg: Config, now: Epochs)
    ensures Finish(p, f, Apply(caller, cfg, DropFailedPac), now) == Final(p.(ownPac := None), f, true)
  {
    ApplyOnce(p, f, caller, cfg, DropFailedPac, now);
    BadgeEnds(p.(ownPac := None), f, caller, now);
    hide Finish;
  }

  lemma ConfirmsPac(p: Profile, f: Flags, caller: Caller, cfg: Config, now: Epochs)
    requires OwnRestriction(p) && p.outside.rtc.None? && IncognitoRtcYields(p.outside)
    requires p.outside.proxy.None? && p.ownPac == Some(BuildProxyConfig(cfg))
    ensures Finish(p, f, Apply(caller, cfg, LastRtc), now) ==
      if IncognitoYields(p.outside, BuildProxyConfig(cfg)) then Final(p, Flags(false, false), true)
      else Final(p.(ownPac := None), f, true)
  {
    ApplyOnce(p, f, caller, cfg, LastRtc, now);
    ApplyOnce(p, f, caller, cfg, LastIncognitoRtc, now);
    ApplyOnce(p, f, caller, cfg, LastIncognitoProxy, now);
    ApplyOnce(p, Flags(false, false), caller, cfg, AppliedBadge, now);
    Once(p, Flags(false, false), ProxyChange(PBadge), now);
    DropsFailed(p, f, caller, cfg, now);
    hide Finish;
  }

  lemma AppliesPac(p: Profile, f: Flags, caller: Caller, cfg: Config, now: Epochs)
    requires OwnRestriction(p) && p.outside.rtc.None? && IncognitoRtcYields(p.outside)
    ensures var o, routed := p.outside, p.(ownPac := Some(BuildProxyConfig(cfg)));
      Finish(p, f, Apply(caller, cfg, ReadProxy), now) ==
      if o.proxy.Some? then Final(p.(ownPac := None), f, true)
      else if !IncognitoControllable(o) then Final(p.(ownPac := None), f.(restore := true), true)
      else if IncognitoYields(o, BuildProxyConfig(cfg)) then Final(routed, Flags(false, false), true)
      else Final(p.(ownPac := None), f, true)
  {
    var routed := p.(ownPac := Some(BuildProxyConfig(cfg)));
    var proxy := ProxyIn(p, false);
    ApplyOnce(p, f, caller, cfg, ReadProxy, now);
    DropsFailed(p, f, caller, cfg, now);
    if p.outside.proxy.None? {
      ApplyOnce(p, f, caller, cfg, ReadIncognitoProxy(proxy), now);
      DropsFailed(p, f.(restore := true), caller, cfg, now);
      ApplyOnce(p, f, caller, cfg, SetPac, now);
      ApplyOnce(routed, f, caller, cfg, RereadProxy, now);
      ConfirmsPac(routed, f, caller, cfg, now);
    }
    hide Finish;
  }

  lemma RestrictsFirst(p: Profile, f: Flags, caller: Caller, cfg: Config, now: Epochs)
    ensures var o := p.outside;
      var restricted := (if OwnRestriction(p) then p else p.(ownPac := None)).(ownRtc := Some(DisableNonProxiedUdp));
      Finish(p, f, Apply(caller, cfg, ReadRtc), now) ==
      if o.rtc.Some? then Final(p.(ownPac := None), f, true)
      else if IncognitoRtcYields(o) then Finish(restricted, f, Apply(caller, cfg, ReadProxy), now)
      else Final(restricted.(ownPac := None), f, true)
  {
    var bare := p.(ownPac := None);
    var restricted := (if OwnRestriction(p) then p else bare).(ownRtc := Some(DisableNonProxiedUdp));
    ApplyOnce(p, f, caller, cfg, ReadRtc, now);
    if !Restricted(RtcIn(p, false)) {
      ApplyOnce(p, f, caller, cfg, DropUnrestrictedPac(RtcIn(p, false).level), now);
      DropsFailed(bare, f, caller, cfg, now);
      ApplyOnce(bare, f, caller, cfg, SetRtc, now);
      ApplyOnce(restricted, f, caller, cfg, RereadRtc, now);
    }
    ApplyOnce(restricted, f, caller, cfg, ReadIncognitoRtc, now);
    DropsFailed(restricted, f, caller, cfg, now);
    hide Finish;
  }

  lemma ReconcileEnds(p: Profile, f: Flags, caller: Caller, now: Epochs)
    ensures Finish(p, f, Reconcile(caller, AccessLevel), now) == Reconciled(p, f)
  {
    ReconcileOnce(p, f, caller, AccessLevel, now);
    ReconcileOnce(p, f, caller, ReadStorage, now);
    hide Finish;
    if Active(p.storage) {
      var cfg := StoredConfig(p.storage);
      RestrictsFirst(p, f, caller, cfg, now);
      if p.outside.rtc.None? && IncognitoRtcYields(p.outside) {
        AppliesPac((if OwnRestriction(p) then p else p.(ownPac := None)).(ownRtc := Some(DisableNonProxiedUdp)),
                   f, caller, cfg, now);
      }
    } else {
      SwitchesOff(p, f, caller, now);
    }
  }

  // The short commands.

  lemma DisconnectOnce(p: Profile, f: Flags, forget: bool, d: DisconnectAt, now: Epochs)
    ensures Finish(p, f, Disconnecting(forget, d), now) ==
      GoOn(Performed(DisconnectCall(d), p, SUCCEEDED),
           ResumeDisconnect(forget, d, f, Answer(DisconnectCall(d), p, SUCCEEDED)), now)
  {
    Once(p, f, Disconnecting(forget, d), now);
    hide Performed, Answer, ResumeDisconnect, DisconnectCall;
  }

  lemma DisconnectEnds(p: Profile, f: Flags, forget: bool, now: Epochs)
    ensures Finish(p, f, Disconnecting(forget, DStore), now) ==
      Final(if forget then Forgotten(p) else Disconnected(p), f, true)
  {
    var off := p.(storage := p.storage.(enabled := false, proxyError := None));
    DisconnectOnce(p, f, forget, DStore, now);
    DisconnectOnce(off, f, forget, DDropPac, now);
    DisconnectOnce(off.(ownPac := None), f, forget, DDropRtc, now);
    DisconnectOnce(Bare(off), f, forget, DReport, now);
    DisconnectOnce(Bare(off), f, forget, DRemove, now);
    DisconnectOnce(Forgotten(p), f, forget, DLastReport, now);
    hide Finish;
  }

  lemma ImportOnce(p: Profile, f: Flags, c: Connection, i: ImportAt, now: Epochs)
    ensures Finish(p, f, Importing(c, i), now) ==
      GoOn(Performed(ImportCall(c, i), p, SUCCEEDED),
           ResumeImport(c, i, f, Answer(ImportCall(c, i), p, SUCCEEDED)), now)
  {
    Once(p, f, Importing(c, i), now);
    hide Performed, Answer, ResumeImport, ImportCall;
  }

  lemma ImportEnds(p: Profile, f: Flags, c: Connection, now: Epochs)
    ensures Finish(p, f, Importing(c, IStoreDisabled), now) == Final(Imported(p, c), f, true)
  {
    var off := p.(storage := p.storage.(enabled := false));
    ImportOnce(p, f, c, IStoreDisabled, now);
    ImportOnce(off, f, c, IDropPac, now);
    ImportOnce(off.(ownPac := None), f, c, IDropRtc, now);
    ImportOnce(Bare(off), f, c, IStore, now);
    ImportOnce(Imported(p, c), f, c, IReport, now);
    hide Finish;
  }

  lemma RecordEnds(p: Profile, f: Flags, id: nat, e: ErrorRecord, now: Epochs)
    ensures Finish(p, f, RecordStore(id, e), now) == Final(Recorded(p, e), f, true)
    ensures Finish(p, f, RecordRead(id, e), now) == Final(if p.storage.enabled then Recorded(p, e) else p, f, true)
  {
    Once(p, f, RecordRead(id, e), now);
    Once(p, f, RecordStore(id, e), now);
    Once(Recorded(p, e), f, RecordBadge, now);
    hide Finish;
  }

  // SAVE_EXCLUSIONS.

  lemma SaveOnce(p: Profile, f: Flags, c: Connection, before: Stored<seq<string>>, next: seq<string>, at: SaveAt,
                 now: Epochs)
    ensures Finish(p, f, Saving(c, before, next, at), now) ==
      GoOn(Performed(SaveCall(c, before, next, at), p, SUCCEEDED),
           ResumeSave(c, before, next, at, f, Answer(SaveCall(c, before, next, at), p, SUCCEEDED)), now)
  {
    Once(p, f, Saving(c, before, next, at), now);
    hide Performed, Answer, ResumeSave, SaveCall;
  }

  lemma RefusesSave(p: Profile, f: Flags, c: Connection, before: Stored<seq<string>>, next: seq<string>, now: Epochs)
    ensures Finish(p, f, Saving(c, before, next, SRefuse), now) == Final(p.(ownPac := None), f, false)
    ensures Finish(p, f, Saving(c, before, next, SDropPac), now) == Final(p.(ownPac := None), f, false)
    ensures Finish(p, f, Saving(c, before, next, SReport), now) == Final(p, f, true)
  {
    SaveOnce(p, f, c, before, next, SRefuse, now);
    SaveOnce(p, f, c, before, next, SDropPac, now);
    SaveOnce(p.(ownPac := None), f, c, before, next, SReportFailure(true), now);
    SaveOnce(p, f, c, before, next, SReport, now);
    hide Finish;
  }

  predicate RoutesRtc(p: Profile) {
    OwnRestriction(p) && p.outside.rtc.None? && IncognitoRtcYields(p.outside)
  }

  lemma PutsBack(p: Profile, f: Flags, c: Connection, before: Stored<seq<string>>, next: seq<string>, now: Epochs)
    requires RoutesRtc(p) && p.outside.proxy.None?
    ensures var previous := BuildProxyConfig(Config(c, ExclusionList(before)));
      Finish(p, f, Saving(c, before, next, SSetOldPac), now) ==
      Final(p.(ownPac := if IncognitoYields(p.outside, previous) then Some(previous) else None), f, false)
  {
    var back := p.(ownPac := Some(BuildProxyConfig(Config(c, ExclusionList(before)))));
    SaveOnce(p, f, c, before, next, SSetOldPac, now);
    SaveOnce(back, f, c, before, next, SOldRereadProxy, now);
    SaveOnce(back, f, c, before, next, SOldRereadIncognitoProxy, now);
    SaveOnce(back, f, c, before, next, SOldLastRtc, now);
    SaveOnce(back, f, c, before, next, SOldLastIncognitoRtc, now);
    SaveOnce(back, f, c, before, next, SReportRestored, now);
    RefusesSave(back, f, c, before, next, now);
    hide Finish;
  }

  lemma MayPutBack(p: Profile, f: Flags, c: Connection, before: Stored<seq<string>>, next: seq<string>, now: Epochs)
    requires RoutesRtc(p) && p.outside.proxy.None? && IncognitoControllable(p.outside)
    ensures Finish(p, f, Saving(c, before, next, SOldRtc), now) ==
      Finish(p, f, Saving(c, before, next, SSetOldPac), now)
  {
    SaveOnce(p, f, c, before, next, SOldRtc, now);
    SaveOnce(p, f, c, before, next, SOldIncognitoRtc, now);
    SaveOnce(p, f, c, before, next, SOldIncognitoProxy, now);
    hide Finish;
  }

  lemma RollsBackSave(p: Profile, f: Flags, c: Connection, before: Stored<seq<string>>, next: seq<string>, now: Epochs)
    requires RoutesRtc(p) && p.outside.proxy.None? && IncognitoControllable(p.outside)
    ensures var previous := BuildProxyConfig(Config(c, ExclusionList(before)));
      Finish(p, f, Saving(c, before, next, SStoreOld), now) ==
      Final(p.(storage := Excluding(p.storage, ExclusionList(before)),
               ownPac := if IncognitoYields(p.outside, previous) then Some(previous) else None), f, false)
  {
    var kept := p.(storage := Excluding(p.storage, ExclusionList(before)));
    SaveOnce(p, f, c, before, next, SStoreOld, now);
    MayPutBack(kept, f, c, before, next, now);
    PutsBack(kept, f, c, before, next, now);
    hide Finish;
  }

  lemma ConfirmsSave(p: Profile, f: Flags, c: Connection, before: Stored<seq<string>>, next: seq<string>, now: Epochs)
    requires RoutesRtc(p)
    ensures Finish(p, f, Saving(c, before, next, SLastRtc), now) == Final(p, f.(ownCleared := false), true)
  {
    SaveOnce(p, f, c, before, next, SLastRtc, now);
    SaveOnce(p, f, c, before, next, SLastIncognitoRtc, now);
    RefusesSave(p, f.(ownCleared := false), c, before, next, now);
    hide Finish;
  }

  lemma AppliesSave(p: Profile, f: Flags, c: Connection, before: Stored<seq<string>>, next: seq<string>, now: Epochs)
    requires RoutesRtc(p) && p.outside.proxy.None? && IncognitoControllable(p.outside)
    ensures var expected := BuildProxyConfig(Config(c, next));
      var previous := BuildProxyConfig(Config(c, ExclusionList(before)));
      Finish(p, f, Saving(c, before, next, SSetPac), now) ==
      if IncognitoYields(p.outside, expected) then Final(p.(ownPac := Some(expected)), f.(ownCleared := false), true)
      else Final(p.(storage := Excluding(p.storage, ExclusionList(before)),
                    ownPac := if IncognitoYields(p.outside, previous) then Some(previous) else None), f, false)
  {
    var routed := p.(ownPac := Some(BuildProxyConfig(Config(c, next))));
    SaveOnce(p, f, c, before, next, SSetPac, now);
    SaveOnce(routed, f, c, before, next, SRereadProxy, now);
    SaveOnce(routed, f, c, before, next, SRereadIncognitoProxy, now);
    ConfirmsSave(routed, f, c, before, next, now);
    RollsBackSave(routed, f, c, before, next, now);
    hide Finish;
  }

  lemma GuardsSave(p: Profile, f: Flags, c: Connection, before: Stored<seq<string>>, next: seq<string>, now: Epochs)
    ensures Finish(p, f, Saving(c, before, next, SReadProxy), now) ==
      if p.outside.proxy.Some? || !RoutesRtc(p) then Final(p.(ownPac := None), f, false)
      else if before.Damaged? then Final(p, f, false)
      else Finish(p, f, Saving(c, before, next, SReadIncognitoProxy), now)
  {
    SaveOnce(p, f, c, before, next, SReadProxy, now);
    SaveOnce(p, f, c, before, next, SReadRtc, now);
    SaveOnce(p, f, c, before, next, SReadIncognitoRtc, now);
    RefusesSave(p, f, c, before, next, now);
    hide Finish;
  }

  lemma StoresSave(p: Profile, f: Flags, c: Connection, before: Stored<seq<string>>, next: seq<string>, now: Epochs)
    requires RoutesRtc(p) && p.outside.proxy.None?
    ensures Finish(p, f, Saving(c, before, next, SReadIncognitoProxy), now) ==
      if IncognitoControllable(p.outside)
      then Finish(p.(storage := Excluding(p.storage, next)), f, Saving(c, before, next, SSetPac), now)
      else Final(p.(ownPac := None), f.(restore := true), false)
  {
    SaveOnce(p, f, c, before, next, SReadIncognitoProxy, now);
    RefusesSave(p, f.(restore := true), c, before, next, now);
    SaveOnce(p, f, c, before, next, SStore, now);
    hide Finish;
  }

  lemma SaveEnabledEnds(p: Profile, f: Flags, next: seq<string>, now: Epochs)
    requires p.storage.enabled && p.storage.connection.Saved?
    ensures Finish(p, f, Saving(p.storage.connection.value, p.storage.exclusions, next, SReadProxy), now) ==
      Excluded(p, f, next)
  {
    var c, before := p.storage.connection.value, p.storage.exclusions;
    GuardsSave(p, f, c, before, next, now);
    if RoutesRtc(p) && p.outside.proxy.None? && !before.Damaged? {
      StoresSave(p, f, c, before, next, now);
      if IncognitoControllable(p.outside) {
        AppliesSave(p.(storage := Excluding(p.storage, next)), f, c, before, next, now);
      }
    }
    hide Finish;
  }

  lemma SaveEnds(p: Profile, f: Flags, next: seq<string>, now: Epochs)
    ensures Finish(p, f, SaveRead(next), now) == Excluded(p, f, next)
  {
    Once(p, f, SaveRead(next), now);
    Once(p, f, SaveOff(next, false), now);
    Once(p.(storage := Excluding(p.storage, next)), f.(ownCleared := false), SaveOff(next, true), now);
    hide Finish;
    if p.storage.connection.Saved? && p.storage.enabled { SaveEnabledEnds(p, f, next, now); }
  }

  // The reaction to a change of the proxy settings.

  lemma ChangeOnce(p: Profile, f: Flags, at: ProxyChangeAt, now: Epochs)
    ensures Finish(p, f, ProxyChange(at), now) ==
      GoOn(Performed(ProxyChangeCall(at), p, SUCCEEDED),
           ResumeProxyChange(at, f, Answer(ProxyChangeCall(at), p, SUCCEEDED)), now)
  {
    Once(p, f, ProxyChange(at), now);
    hide Performed, Answer, ResumeProxyChange, ProxyChangeCall;
  }

  lemma RestoreEnds(p: Profile, f: Flags, now: Epochs)
    requires p.outside.incognitoAllowed
    ensures Finish(p, f, ProxyChange(PReadRtc), now) ==
      if Restricted(RtcIn(p, false)) && Restricted(RtcIn(p, true)) then Reconciled(p, Flags(false, false))
      else Final(p, f, true)
  {
    ChangeOnce(p, f, PReadRtc, now);
    ChangeOnce(p, f, PReadIncognitoRtc, now);
    ChangeOnce(p, f, PBadge, now);
    ReconcileEnds(p, Flags(false, false), InProxyChange, now);
    hide Finish, Reconciled;
  }

  lemma FollowEnds(p: Profile, f: Flags, now: Epochs)
    ensures Finish(p, f, ProxyChange(PReadStorage), now) == ProxyFollowed(p, f)
  {
    ChangeOnce(p, f, PReadStorage, now);
    ChangeOnce(p, f, PBadge, now);
    if Active(p.storage) {
      var cfg := StoredConfig(p.storage);
      var incognito := IncognitoProxyState(Answer(IncognitoProxy, p, SUCCEEDED), BuildProxyConfig(cfg));
      var regular := ProxyIn(p, false).level;
      ChangeOnce(p, f, PReadIncognito(cfg), now);
      ChangeOnce(p, f, PReadProxy(cfg, incognito), now);
      ChangeOnce(p, Flags(false, false), PBadge, now);
      if !incognito.effective {
        RestoreEnds(p, f, now);
        ChangeOnce(p, f.(restore := !incognito.controllable), PDropPac(incognito, regular), now);
        ChangeOnce(p.(ownPac := None), Flags(!incognito.controllable, true), PBadge, now);
      }
    }
    hide Finish, Reconciled;
  }

  // The clearing of a tested error.

  lemma ClearOnce(p: Profile, f: Flags, handler: nat, l: Sample, previous: ErrorRecord, k: ClearAt, now: Epochs)
    ensures Finish(p, f, Clearing(handler, l, previous, k), now) ==
      GoOn(Performed(ClearCall(k), p, SUCCEEDED),
           ResumeClear(handler, l, previous, k, f, Answer(ClearCall(k), p, SUCCEEDED), now), now)
  {
    Once(p, f, Clearing(handler, l, previous, k), now);
    hide Performed, Answer, ResumeClear, ClearCall;
  }

  /** The reads of status() come to StatusOf. */
  function StatusEnds(p: Profile, at: StatusAt): StatusStep
    decreases StatusRank(at)
  {
    var r := Answer(StatusCall(at), p, SUCCEEDED);
    StatusFalls(at, r);
    var n := StatusNext(at, r);
    if n.More? then StatusEnds(p, n.at) else n
  }

  lemma StatusIs(p: Profile)
    ensures StatusEnds(p, TReadStorage) == Ready(StatusOf(p))
  {
    var d, proxy := p.storage, ProxyIn(p, false);
    assert StatusEnds(p, TReadStorage) == StatusEnds(p, TReadProxy(d));
    assert StatusEnds(p, TReadProxy(d)) == StatusEnds(p, TReadRtc(d, proxy));
    if Active(d) && Restricted(RtcIn(p, false)) {
      assert StatusEnds(p, TReadRtc(d, proxy)) == StatusEnds(p, TReadIncognitoRtc(d, proxy));
      if IncognitoRtcRestricted(Answer(IncognitoRtc, p, SUCCEEDED)) {
        assert StatusEnds(p, TReadIncognitoRtc(d, proxy)) == StatusEnds(p, TReadIncognitoProxy(d, proxy));
      }
    }
  }

  lemma ClearReads(p: Profile, f: Flags, handler: nat, l: Sample, previous: ErrorRecord, data: Storage, at: StatusAt,
                   now: Epochs)
    ensures Finish(p, f, Clearing(handler, l, previous, KStatus(data, at)), now) ==
      match StatusEnds(p, at)
      case Ready(latest) =>
        if Changed(l, now) || data.proxyError != Some(previous) || !latest.canRetryIp then Final(p, f, false)
        else Finish(p, f, Clearing(handler, l, previous, KStore), now)
      case _ => Final(p, f, false)
    decreases StatusRank(at)
  {
    ClearOnce(p, f, handler, l, previous, KStatus(data, at), now);
    var r := Answer(StatusCall(at), p, SUCCEEDED);
    StatusFalls(at, r);
    if StatusNext(at, r).More? { ClearReads(p, f, handler, l, previous, data, StatusNext(at, r).at, now); }
    hide Finish, Answer;
  }

  lemma ClearEnds(p: Profile, f: Flags, handler: nat, sample: Sample, previous: ErrorRecord, now: Epochs)
    requires now.configuration == sample.epoch + 1
    ensures Finish(p, f, Clearing(handler, sample.(epoch := now.configuration), previous, KReadStorage), now) ==
      Cleared(p, f, sample, previous, now)
  {
    var l := sample.(epoch := now.configuration);
    ClearOnce(p, f, handler, l, previous, KReadStorage, now);
    ClearReads(p, f, handler, l, previous, p.storage, TReadStorage, now);
    StatusIs(p);
    var forgiven := p.(storage := p.storage.(proxyError := None));
    ClearOnce(p, f, handler, l, previous, KStore, now);
    ClearOnce(forgiven, f, handler, l, previous, KBadge, now);
    hide Finish, StatusEnds;
  }

  /** Every task, from every profile, comes to its closed form. */
  lemma TaskEnds(p: Profile, f: Flags, t: Task, now: Epochs)
    ensures var b := Start(t, f, now); Finish(p, b.flags, b.pc, now) == Effected(p, f, t, now)
  {
    Once(p, f, Settle, now);
    match t
    case ImportKey(key) => if key.Some? { ImportEnds(p, f, key.value, now); }
    case Connect => ConnectEnds(p, f, now);
    case Disconnect => DisconnectEnds(p, Flags(false, false), false, now);
    case Forget => DisconnectEnds(p, Flags(false, false), true, now);
    case SaveExclusions(text) => if text.Some? { SaveEnds(p, f, text.value, now); }
    case RecordProxyError(id, e) => RecordEnds(p, f, id, e, now);
    case RecordAuthError(id, e) => RecordEnds(p, f, id, e, now);
    case ProxyChanged => FollowEnds(p, f, now);
    case RtcChanged => ReconcileEnds(p, f, AtRtcChange, now);
    case ClearTestedError(handler, sample, previous) =>
      if now.configuration == sample.epoch + 1 { ClearEnds(p, f, handler, sample, previous, now); }
    hide Finish, Connected, Excluded, Reconciled, ProxyFollowed, Routes;
  }
}
