/** What a task has seen before it acts: in every run, with calls failing and others acting at
    any step, each check of the source was answered by Chrome at some step of the same task. */
module Evidence {
  import opened Wrappers
  import opened Browser
  import opened Tasks
  import opened Worker
  import opened Coupling
  import opened Ranks

  datatype Check =
    | Stored(cfg: Config)
    | StoredBefore(connection: Connection, before: Stored<seq<string>>)
    | RtcSeen
    | IncognitoRtcSeen
    | RegularLevel
    | IncognitoLevel
    | RegularPac(pac: Pac)
    | IncognitoPac(pac: Pac)
    | RtcStill(pac: Pac)
    | IncognitoRtcStill(pac: Pac)
    | PutBack(kept: seq<string>)
    | BackRtcSeen(kept: seq<string>)
    | BackIncognitoRtcSeen(kept: seq<string>)
    | BackIncognitoLevel(kept: seq<string>)
    | BackRegularPac(pac: Pac, kept: seq<string>)
    | BackIncognitoPac(pac: Pac, kept: seq<string>)
    | BackRtcStill(pac: Pac, kept: seq<string>)
    | BackIncognitoRtcStill(pac: Pac, kept: seq<string>)
    | ClearRejected

  /** What holds in Chrome when a check is passed. */
  predicate Holding(check: Check, p: Profile) {
    match check
    case Stored(cfg) => Holds(p.storage, cfg)
    case StoredBefore(c, before) =>
      p.storage.enabled && p.storage.connection == Saved(c) && p.storage.exclusions == before
    case RtcSeen | RtcStill(_) | BackRtcSeen(_) | BackRtcStill(_, _) => Restricted(RtcIn(p, false))
    case IncognitoRtcSeen | IncognitoRtcStill(_) | BackIncognitoRtcSeen(_) | BackIncognitoRtcStill(_, _) =>
      p.outside.incognitoAllowed ==> Restricted(RtcIn(p, true))
    case RegularLevel => MayControl(ProxyIn(p, false).level)
    case IncognitoLevel | BackIncognitoLevel(_) => p.outside.incognitoAllowed ==> MayControl(ProxyIn(p, true).level)
    case RegularPac(pac) => Effective(ProxyIn(p, false), pac)
    case BackRegularPac(pac, _) => Effective(ProxyIn(p, false), pac)
    case IncognitoPac(pac) => p.outside.incognitoAllowed ==> Effective(ProxyIn(p, true), pac)
    case BackIncognitoPac(pac, _) => p.outside.incognitoAllowed ==> Effective(ProxyIn(p, true), pac)
    case PutBack(_) | ClearRejected => true
  }

  predicate Shows(check: Check, call: Call, r: Reply) {
    match check
    case Stored(cfg) => call == StorageGet && r.Data? && Holds(r.data, cfg)
    case StoredBefore(c, before) =>
      call == StorageGet && r.Data? && r.data.enabled && r.data.connection == Saved(c) && r.data.exclusions == before
    case RtcSeen | RtcStill(_) | BackRtcSeen(_) | BackRtcStill(_, _) => call == RtcGet(false) && RtcRestricted(r)
    case IncognitoRtcSeen | IncognitoRtcStill(_) | BackIncognitoRtcSeen(_) | BackIncognitoRtcStill(_, _) =>
      call == Call.IncognitoRtc && IncognitoRtcRestricted(r)
    case RegularLevel => call == ProxyGet(false) && r.ProxyIs? && MayControl(r.proxy.level)
    case IncognitoLevel | BackIncognitoLevel(_) =>
      call == IncognitoProxy && (r.NotAllowed? || (r.ProxyIs? && MayControl(r.proxy.level)))
    case RegularPac(pac) => call == ProxyGet(false) && ProxyEffective(r, pac)
    case BackRegularPac(pac, _) => call == ProxyGet(false) && ProxyEffective(r, pac)
    case IncognitoPac(pac) => call == IncognitoProxy && (r.NotAllowed? || ProxyEffective(r, pac))
    case BackIncognitoPac(pac, _) => call == IncognitoProxy && (r.NotAllowed? || ProxyEffective(r, pac))
    case PutBack(kept) => call == StorageSet(Exclude(kept)) && !r.Rejected?
    case ClearRejected => call.ProxyClear? && r.Rejected?
  }

  lemma ShownIsHolding(check: Check, call: Call, p: Profile, o: Outcome)
    requires Shows(check, call, Answer(call, p, o))
    ensures Holding(check, p) && (o.resolved <==> !check.ClearRejected?)
  {
  }

  // Which checks a task has passed at a program point.

  predicate ConnectPast(c: ConnectAt, rank: nat) {
    (6 <= ConnectRank(c) < rank) || c.CReport?
  }

  predicate ConnectHad(cfg: Config, c: ConnectAt, check: Check) {
    match check
    case Stored(read) => read == cfg
    case RegularLevel => ConnectPast(c, 18)
    case IncognitoLevel => ConnectPast(c, 17)
    case RtcSeen => ConnectPast(c, 12)
    case IncognitoRtcSeen => ConnectPast(c, 11)
    case RegularPac(pac) => pac == BuildProxyConfig(cfg) && ConnectPast(c, 9)
    case IncognitoPac(pac) => pac == BuildProxyConfig(cfg) && ConnectPast(c, 8)
    case RtcStill(pac) => pac == BuildProxyConfig(cfg) && ConnectPast(c, 7)
    case IncognitoRtcStill(pac) => pac == BuildProxyConfig(cfg) && c.CReport?
    case _ => false
  }

  predicate ApplyPast(a: ApplyAt, rank: nat) {
    9 <= ApplyRank(a) < rank || a.AppliedBadge?
  }

  predicate ApplyHad(cfg: Config, a: ApplyAt, check: Check) {
    match check
    case Stored(read) => read == cfg
    case RtcSeen => ApplyPast(a, 17)
    case IncognitoRtcSeen => ApplyPast(a, 16)
    case RegularLevel => ApplyPast(a, 15)
    case IncognitoLevel => ApplyPast(a, 14)
    case RegularPac(pac) =>
      pac == BuildProxyConfig(cfg) && (ApplyPast(a, 12) || (a.ReadIncognitoProxy? && Effective(a.proxy, pac)))
    case RtcStill(pac) => pac == BuildProxyConfig(cfg) && ApplyPast(a, 11)
    case IncognitoRtcStill(pac) => pac == BuildProxyConfig(cfg) && ApplyPast(a, 10)
    case IncognitoPac(pac) => pac == BuildProxyConfig(cfg) && a.AppliedBadge?
    case _ => false
  }

  predicate SavePast(s: SaveAt, rank: nat) {
    (12 <= SaveRank(s) < rank) || s.SReport?
  }

  /** Back at the old list: the checks before the old PAC is set again, and after it. */
  predicate BackPast(s: SaveAt, rank: nat) {
    3 <= SaveRank(s) < rank || s.SReportRestored?
  }

  predicate SaveHad(c: Connection, before: Stored<seq<string>>, next: seq<string>, s: SaveAt, check: Check) {
    var expected := BuildProxyConfig(Config(c, next));
    var previous := BuildProxyConfig(Config(c, ExclusionList(before)));
    match check
    case StoredBefore(d, e) => d == c && e == before
    case RegularLevel => SavePast(s, 21) || BackPast(s, 12)
    case RtcSeen => SavePast(s, 20) || BackPast(s, 12)
    case IncognitoRtcSeen => SavePast(s, 19) || BackPast(s, 12)
    case IncognitoLevel => SavePast(s, 18) || BackPast(s, 12)
    case RegularPac(pac) => pac == expected && SavePast(s, 15)
    case IncognitoPac(pac) => pac == expected && SavePast(s, 14)
    case RtcStill(pac) => pac == expected && SavePast(s, 13)
    case IncognitoRtcStill(pac) => pac == expected && s.SReport?
    case PutBack(kept) => kept == ExclusionList(before) && BackPast(s, 11)
    case BackRtcSeen(kept) => kept == ExclusionList(before) && BackPast(s, 10)
    case BackIncognitoRtcSeen(kept) => kept == ExclusionList(before) && BackPast(s, 9)
    case BackIncognitoLevel(kept) => kept == ExclusionList(before) && BackPast(s, 8)
    case BackRegularPac(pac, kept) => pac == previous && kept == ExclusionList(before) && BackPast(s, 6)
    case BackIncognitoPac(pac, kept) => pac == previous && kept == ExclusionList(before) && BackPast(s, 5)
    case BackRtcStill(pac, kept) => pac == previous && kept == ExclusionList(before) && BackPast(s, 4)
    case BackIncognitoRtcStill(pac, kept) => pac == previous && kept == ExclusionList(before) && s.SReportRestored?
    case ClearRejected => s.SReportFailure? && !s.dropped
    case _ => false
  }

  predicate Had(pc: Pc, check: Check) {
    match pc
    case Connecting(cfg, c) => ConnectHad(cfg, c, check)
    case Apply(_, cfg, a) => ApplyHad(cfg, a, check)
    case Saving(c, before, next, s) => SaveHad(c, before, next, s, check)
    case _ => false
  }

  /** What must have been seen before, for the checks whose order matters. */
  function Before(check: Check): Option<Check> {
    match check
    case RtcStill(pac) => Some(RegularPac(pac))
    case IncognitoRtcStill(pac) => Some(RegularPac(pac))
    case BackRtcSeen(kept) => Some(PutBack(kept))
    case BackIncognitoRtcSeen(kept) => Some(PutBack(kept))
    case BackIncognitoLevel(kept) => Some(PutBack(kept))
    case BackRegularPac(_, kept) => Some(PutBack(kept))
    case BackIncognitoPac(_, kept) => Some(PutBack(kept))
    case BackRtcStill(pac, kept) => Some(BackRegularPac(pac, kept))
    case BackIncognitoRtcStill(pac, kept) => Some(BackRegularPac(pac, kept))
    case _ => None
  }

  predicate InTurn(pc: Pc, check: Check) {
    Before(check).Some? ==> Had(pc, Before(check).value)
  }

  predicate Passes(check: Check, pc: Pc, r: Reply) {
    Shows(check, CallOf(pc), r) && InTurn(pc, check)
  }

  predicate Gains(pc: Pc, n: Next, check: Check, r: Reply) {
    n.Go? && Had(n.pc, check) ==> Had(pc, check) || Passes(check, pc, r)
  }

  /** The reply that takes a task one check further. */
  predicate ConnectOk(cfg: Config, c: ConnectAt, r: Reply) {
    var expected := BuildProxyConfig(cfg);
    match c
    case CReadProxy => r.ProxyIs? && MayControl(r.proxy.level)
    case CReadIncognitoProxy => IncognitoProxyState(r, expected).controllable
    case CRereadRtc | CLastRtc => RtcRestricted(r)
    case CReadIncognitoRtc | CLastIncognitoRtc => IncognitoRtcRestricted(r)
    case CRereadProxy => ProxyEffective(r, expected)
    case CRereadIncognitoProxy => IncognitoProxyState(r, expected).effective
    case _ => true
  }

  predicate ConnectStep(cfg: Config, c: ConnectAt, n: Next, r: Reply) {
    n.Go? ==> n.pc.Connecting? && n.pc.cfg == cfg && (ConnectPast(n.pc.c, 19) ==> ConnectOnward(cfg, c, n.pc.c, r))
  }

  predicate ConnectOnward(cfg: Config, c: ConnectAt, d: ConnectAt, r: Reply) {
    ConnectOk(cfg, c, r) && !c.CRefuse? && 6 <= ConnectRank(c) &&
    (ConnectRank(d) + 1 == ConnectRank(c) || (d.CReport? && c.CLastIncognitoRtc?) || (d.CStoreEnabled? && c.CReadRtc?))
  }

  lemma ConnectMoves(cfg: Config, c: ConnectAt, f: Flags, r: Reply)
    ensures ConnectStep(cfg, c, ResumeConnect(cfg, c, f, r).next, r)
  {
    hide MayControl, Restricted, BuildProxyConfig, RtcRestricted, IncognitoRtcRestricted, ProxyEffective,
      IncognitoProxyState;
  }

  lemma ConnectGains(cfg: Config, c: ConnectAt, f: Flags, r: Reply, check: Check)
    ensures Gains(Connecting(cfg, c), ResumeConnect(cfg, c, f, r).next, check, r)
  {
    ConnectMoves(cfg, c, f, r);
    hide ResumeConnect, IncognitoRtcRestricted, MayControl, BuildProxyConfig, Restricted, Effective;
  }

  predicate ApplyOk(cfg: Config, a: ApplyAt, to: ApplyAt, r: Reply) {
    var expected := BuildProxyConfig(cfg);
    match a
    case ReadRtc => to.ReadIncognitoRtc? && r.RtcIs? && Restricted(r.rtc)
    case RereadRtc => to.ReadIncognitoRtc? && RtcRestricted(r)
    case ReadIncognitoRtc => to.ReadProxy? && IncognitoRtcRestricted(r)
    case ReadProxy => r.ProxyIs? && to == ReadIncognitoProxy(r.proxy) && MayControl(r.proxy.level)
    case ReadIncognitoProxy(proxy) =>
      IncognitoProxyState(r, expected).controllable && (if Effective(proxy, expected) then to.LastRtc? else to.SetPac?)
    case SetPac => to.RereadProxy?
    case RereadProxy => to.LastRtc? && ProxyEffective(r, expected)
    case LastRtc => to.LastIncognitoRtc? && RtcRestricted(r)
    case LastIncognitoRtc => to.LastIncognitoProxy? && IncognitoRtcRestricted(r)
    case LastIncognitoProxy => to.AppliedBadge? && IncognitoProxyState(r, expected).effective
    case _ => false
  }

  predicate ApplyStep(caller: Caller, cfg: Config, a: ApplyAt, n: Next, r: Reply) {
    n.Go? && n.pc.Apply? ==>
      n.pc == Apply(caller, cfg, n.pc.a) &&
      (n.pc.a.DropFailedPac? || n.pc.a.DropUnrestrictedPac? || n.pc.a.SetRtc? || n.pc.a.RereadRtc? ||
       ApplyOk(cfg, a, n.pc.a, r))
  }

  lemma ApplyMoves(caller: Caller, cfg: Config, a: ApplyAt, f: Flags, r: Reply)
    ensures ApplyStep(caller, cfg, a, ResumeApply(caller, cfg, a, f, r).next, r)
  {
    hide MayControl, Restricted, BuildProxyConfig, RtcRestricted, IncognitoRtcRestricted, ProxyEffective,
      IncognitoProxyState, Effective;
  }

  lemma ApplyOnward(caller: Caller, cfg: Config, a: ApplyAt, to: ApplyAt, r: Reply, check: Check)
    ensures ApplyOk(cfg, a, to, r) && ApplyHad(cfg, to, check) ==>
      ApplyHad(cfg, a, check) || Passes(check, Apply(caller, cfg, a), r)
  {
    hide BuildProxyConfig, Restricted, Effective;
  }

  lemma ApplyLeaves(caller: Caller, cfg: Config, a: ApplyAt, f: Flags, r: Reply, check: Check)
    ensures var n := ResumeApply(caller, cfg, a, f, r).next;
      n.Go? && !n.pc.Apply? ==> !Had(n.pc, check)
  {
  }

  lemma ApplyFails(cfg: Config, a: ApplyAt, to: ApplyAt, check: Check)
    ensures to.DropFailedPac? || to.DropUnrestrictedPac? || to.SetRtc? || to.RereadRtc? ==> ApplyHad(cfg, to, check) ==>
      ApplyHad(cfg, a, check)
  {
  }

  lemma ApplyStays(caller: Caller, cfg: Config, a: ApplyAt, n: Next, r: Reply, check: Check)
    ensures ApplyStep(caller, cfg, a, n, r) && n.Go? && n.pc.Apply? ==> Gains(Apply(caller, cfg, a), n, check, r)
  {
    hide ApplyOk, ApplyHad, Passes;
    if n.Go? && n.pc.Apply? {
      ApplyOnward(caller, cfg, a, n.pc.a, r, check);
      ApplyFails(cfg, a, n.pc.a, check);
    }
  }

  lemma ApplyGains(caller: Caller, cfg: Config, a: ApplyAt, f: Flags, r: Reply, check: Check)
    ensures Gains(Apply(caller, cfg, a), ResumeApply(caller, cfg, a, f, r).next, check, r)
  {
    hide ResumeApply, ApplyStep, Had, Passes;
    ApplyMoves(caller, cfg, a, f, r);
    ApplyStays(caller, cfg, a, ResumeApply(caller, cfg, a, f, r).next, r, check);
    ApplyLeaves(caller, cfg, a, f, r, check);
  }

  predicate SaveOk(c: Connection, before: Stored<seq<string>>, next: seq<string>, s: SaveAt, r: Reply) {
    var expected := BuildProxyConfig(Config(c, next));
    var previous := BuildProxyConfig(Config(c, ExclusionList(before)));
    match s
    case SReadProxy => r.ProxyIs? && MayControl(r.proxy.level)
    case SReadRtc => r.RtcIs? && Restricted(r.rtc)
    case SLastRtc | SOldRtc | SOldLastRtc => RtcRestricted(r)
    case SReadIncognitoRtc | SLastIncognitoRtc | SOldIncognitoRtc | SOldLastIncognitoRtc => IncognitoRtcRestricted(r)
    case SReadIncognitoProxy | SOldIncognitoProxy => IncognitoProxyState(r, previous).controllable
    case SRereadProxy => ProxyEffective(r, expected)
    case SRereadIncognitoProxy => IncognitoProxyState(r, expected).effective
    case SOldRereadProxy => ProxyEffective(r, previous)
    case SOldRereadIncognitoProxy => IncognitoProxyState(r, previous).effective
    case SStoreOld => !r.Rejected?
    case SDropPac => r.Rejected?
    case _ => true
  }

  /** Where a passed check leads. */
  function SaveNext(s: SaveAt): SaveAt {
    match s
    case SReadProxy => SReadRtc
    case SReadRtc => SReadIncognitoRtc
    case SReadIncognitoRtc => SReadIncognitoProxy
    case SReadIncognitoProxy => SStore
    case SStore => SSetPac
    case SSetPac => SRereadProxy
    case SRereadProxy => SRereadIncognitoProxy
    case SRereadIncognitoProxy => SLastRtc
    case SLastRtc => SLastIncognitoRtc
    case SLastIncognitoRtc => SReport
    case SStoreOld => SOldRtc
    case SOldRtc => SOldIncognitoRtc
    case SOldIncognitoRtc => SOldIncognitoProxy
    case SOldIncognitoProxy => SSetOldPac
    case SSetOldPac => SOldRereadProxy
    case SOldRereadProxy => SOldRereadIncognitoProxy
    case SOldRereadIncognitoProxy => SOldLastRtc
    case SOldLastRtc => SOldLastIncognitoRtc
    case SOldLastIncognitoRtc => SReportRestored
    case SDropPac => SReportFailure(false)
    case _ => s
  }

  predicate Fails(s: SaveAt, t: SaveAt) {
    t.SRefuse? || t.SDropPac? || t == SReportFailure(true) ||
    (t.SStoreOld? &&
     (s.SSetPac? || s.SRereadProxy? || s.SRereadIncognitoProxy? || s.SLastRtc? || s.SLastIncognitoRtc?))
  }

  predicate SaveStep(c: Connection, before: Stored<seq<string>>, next: seq<string>, s: SaveAt, n: Next, r: Reply) {
    n.Go? ==>
      n.pc.Saving? && n.pc == Saving(c, before, next, n.pc.s) &&
      (Fails(s, n.pc.s) || (n.pc.s == SaveNext(s) && SaveOk(c, before, next, s, r)))
  }

  lemma SaveMoves(c: Connection, before: Stored<seq<string>>, next: seq<string>, s: SaveAt, f: Flags, r: Reply)
    ensures SaveStep(c, before, next, s, ResumeSave(c, before, next, s, f, r).next, r)
  {
    hide MayControl, Restricted, BuildProxyConfig, ExclusionList, RtcRestricted, IncognitoRtcRestricted, ProxyEffective,
      IncognitoProxyState;
  }

  lemma SavePasts(s: SaveAt)
    ensures var t := SaveNext(s);
      (SavePast(t, 21) ==> SavePast(s, 21) || s.SReadProxy?) && (SavePast(t, 20) ==> SavePast(s, 20) || s.SReadRtc?) &&
      (SavePast(t, 19) ==> SavePast(s, 19) || s.SReadIncognitoRtc?) &&
      (SavePast(t, 18) ==> SavePast(s, 18) || s.SReadIncognitoProxy?) &&
      (SavePast(t, 15) ==> SavePast(s, 15) || s.SRereadProxy?) &&
      (SavePast(t, 14) ==> SavePast(s, 14) || s.SRereadIncognitoProxy?) &&
      (SavePast(t, 13) ==> (SavePast(s, 13) || s.SLastRtc?) && SavePast(s, 15)) &&
      (t.SReport? ==> t == s || (s.SLastIncognitoRtc? && SavePast(s, 15)))
    ensures var t := SaveNext(s);
      (BackPast(t, 12) ==> BackPast(s, 12)) && (BackPast(t, 11) ==> BackPast(s, 11) || s.SStoreOld?) &&
      (BackPast(t, 10) ==> (BackPast(s, 10) || s.SOldRtc?) && BackPast(s, 11)) &&
      (BackPast(t, 9) ==> (BackPast(s, 9) || s.SOldIncognitoRtc?) && BackPast(s, 11)) &&
      (BackPast(t, 8) ==> (BackPast(s, 8) || s.SOldIncognitoProxy?) && BackPast(s, 11)) &&
      (BackPast(t, 6) ==> (BackPast(s, 6) || s.SOldRereadProxy?) && BackPast(s, 11)) &&
      (BackPast(t, 5) ==> (BackPast(s, 5) || s.SOldRereadIncognitoProxy?) && BackPast(s, 11)) &&
      (BackPast(t, 4) ==> (BackPast(s, 4) || s.SOldLastRtc?) && BackPast(s, 6)) &&
      (t.SReportRestored? ==> t == s || (s.SOldLastIncognitoRtc? && BackPast(s, 6))) &&
      (t.SReportFailure? ==> (!t.dropped && s.SDropPac?) || t == s)
  {
  }

  lemma SaveOnward(c: Connection, before: Stored<seq<string>>, next: seq<string>, s: SaveAt, r: Reply, check: Check)
    ensures SaveOk(c, before, next, s, r) && SaveHad(c, before, next, SaveNext(s), check) ==>
      SaveHad(c, before, next, s, check) || Passes(check, Saving(c, before, next, s), r)
  {
    SavePasts(s);
    hide SaveNext, SavePast, BackPast, BuildProxyConfig, Restricted, ExclusionList;
  }

  lemma FailingGains(c: Connection, before: Stored<seq<string>>, next: seq<string>, s: SaveAt, t: SaveAt, check: Check)
    ensures Fails(s, t) && SaveHad(c, before, next, t, check) ==> SaveHad(c, before, next, s, check)
  {
    hide BuildProxyConfig;
    if t.SStoreOld? {
    } else {
      assert Fails(s, t) ==> SaveRank(t) <= 2 && !t.SReport? && !t.SReportRestored?;
    }
  }

  lemma SaveGains(c: Connection, before: Stored<seq<string>>, next: seq<string>, s: SaveAt, f: Flags, r: Reply,
                  check: Check)
    ensures Gains(Saving(c, before, next, s), ResumeSave(c, before, next, s, f, r).next, check, r)
  {
    SaveMoves(c, before, next, s, f, r);
    hide ResumeSave, SaveHad, SaveNext, Fails, SaveOk, Passes, ConnectHad, ApplyHad;
    var n := ResumeSave(c, before, next, s, f, r).next;
    if n.Go? { FailingGains(c, before, next, s, n.pc.s, check); }
    SaveOnward(c, before, next, s, r, check);
  }

  lemma FirstPoints(cfg: Config, before: Stored<seq<string>>, next: seq<string>, check: Check)
    ensures ConnectHad(cfg, CReadProxy, check) ==> check == Stored(cfg)
    ensures ApplyHad(cfg, ReadRtc, check) ==> check == Stored(cfg)
    ensures SaveHad(cfg.connection, before, next, SReadProxy, check) ==> check == StoredBefore(cfg.connection, before)
  {
  }

  predicate Checking(pc: Pc) {
    pc.Connecting? || pc.Apply? || pc.Saving?
  }

  /** The first check comes right after the configuration was read. */
  predicate Enters(pc: Pc, to: Pc, r: Reply) {
    match to
    case Connecting(cfg, c) => c.CReadProxy? && CallOf(pc) == StorageGet && r.Data? && Holds(r.data, cfg)
    case Apply(_, cfg, a) => a.ReadRtc? && CallOf(pc) == StorageGet && r.Data? && Holds(r.data, cfg)
    case Saving(c, before, _, s) => s.SReadProxy? && Shows(StoredBefore(c, before), CallOf(pc), r)
    case _ => true
  }

  lemma EntersChecks(pc: Pc, f: Flags, r: Reply, now: Epochs)
    requires !Checking(pc)
    ensures var n := Resume(pc, f, r, now).next; n.Go? ==> Enters(pc, n.pc, r)
  {
    hide ResumeConnect, ResumeApply, ResumeSave, BuildProxyConfig, IncognitoProxyState, StatusNext;
  }

  lemma EnteringGains(pc: Pc, to: Pc, r: Reply, check: Check)
    ensures Enters(pc, to, r) && Had(to, check) ==> Passes(check, pc, r)
  {
    hide ConnectHad, ApplyHad, SaveHad, CallOf;
    match to
    case Connecting(cfg, c) => if c.CReadProxy? { FirstPoints(cfg, Absent, [], check); }
    case Apply(_, cfg, a) => if a.ReadRtc? { FirstPoints(cfg, Absent, [], check); }
    case Saving(c, before, next, s) => if s.SReadProxy? { FirstPoints(Config(c, []), before, next, check); }
    case _ =>
  }

  lemma EnteredGains(pc: Pc, n: Next, r: Reply, check: Check)
    ensures (n.Go? ==> Enters(pc, n.pc, r)) ==> Gains(pc, n, check, r)
  {
    hide Enters, Had, Passes;
    if n.Go? { EnteringGains(pc, n.pc, r, check); }
  }

  lemma OthersGain(pc: Pc, f: Flags, r: Reply, now: Epochs, check: Check)
    requires !Checking(pc)
    ensures Gains(pc, Resume(pc, f, r, now).next, check, r)
  {
    hide Resume, Enters, Gains;
    EntersChecks(pc, f, r, now);
    EnteredGains(pc, Resume(pc, f, r, now).next, r, check);
  }

  lemma ResumeGains(pc: Pc, f: Flags, r: Reply, now: Epochs, check: Check)
    ensures Gains(pc, Resume(pc, f, r, now).next, check, r)
  {
    hide ResumeConnect, ResumeApply, ResumeSave, Gains;
    match pc
    case Connecting(cfg, c) => ConnectGains(cfg, c, f, r, check);
    case Apply(caller, cfg, a) => ApplyGains(caller, cfg, a, f, r, check);
    case Saving(c, before, next, s) => SaveGains(c, before, next, s, f, r, check);
    case _ => OthersGain(pc, f, r, now, check);
  }

  lemma StartsWithout(t: Task, f: Flags, now: Epochs, check: Check)
    ensures !Had(Start(t, f, now).pc, check)
  {
  }

  /** Boot's frame, or the running task's. */
  function FrameIn(s: State, inBoot: bool): Option<Frame> {
    if inBoot then s.boot else s.current
  }

  ghost predicate Has(f: Option<Frame>, check: Check) {
    f.Some? &&
    (Had(f.value.pc, check) || (f.value.reply.Some? && Passes(check, f.value.pc, f.value.reply.value)))
  }

  /** The step at which Chrome answers a check. */
  ghost predicate Observes(s: State, c: Choice, inBoot: bool, check: Check) {
    (if inBoot then c.PerformBoot? else c.PerformTask?) && FrameIn(s, inBoot).Some? && Holding(check, s.profile) &&
    Passes(check, FrameIn(s, inBoot).value.pc, Answer(CallOf(FrameIn(s, inBoot).value.pc), s.profile, c.o))
  }

  lemma HasStep(s: State, c: Choice, inBoot: bool, check: Check)
    requires Enabled(s, c) && !c.Die? && (inBoot || !c.Begin?) && Has(FrameIn(After(s, c), inBoot), check)
    ensures Has(FrameIn(s, inBoot), check) || Observes(s, c, inBoot, check)
  {
    hide Answer, Resume, Performed, CallOf, HandlerMove, HandlerCall, Had, Shows, InTurn, Settled, Holding;
    if Bystander(c) {
      BystandersKeepTasks(s, c);
    } else {
      match c
      case PerformBoot(o) =>
        if Passes(check, s.boot.value.pc, Answer(CallOf(s.boot.value.pc), s.profile, o)) {
          ShownIsHolding(check, CallOf(s.boot.value.pc), s.profile, o);
        }
      case PerformTask(o) =>
        if Passes(check, s.current.value.pc, Answer(CallOf(s.current.value.pc), s.profile, o)) {
          ShownIsHolding(check, CallOf(s.current.value.pc), s.profile, o);
        }
      case ResumeBoot =>
        ResumeGains(s.boot.value.pc, s.vars.flags, s.boot.value.reply.value, s.vars.epochs, check);
      case ResumeTask =>
        ResumeGains(s.current.value.pc, s.vars.flags, s.current.value.reply.value, s.vars.epochs, check);
      case _ =>
    }
  }

  /** A frame waits from state a to state j, in one life of the worker. */
  ghost predicate OneTask(states: seq<State>, choices: seq<Choice>, inBoot: bool, a: nat, j: nat) {
    Run(states, choices) && a <= j <= |choices| &&
    forall k :: a <= k < j ==> FrameIn(states[k], inBoot).Some? && !choices[k].Die? && (inBoot || !choices[k].Begin?)
  }

  ghost predicate Unseen(s: State, inBoot: bool) {
    forall check :: !Has(FrameIn(s, inBoot), check)
  }

  /** Every check a task has passed was answered by Chrome at one of its own steps. */
  lemma {:induction false} CheckWasSeen(states: seq<State>, choices: seq<Choice>, inBoot: bool, a: nat, j: nat,
                                        check: Check) returns (k: nat)
    requires OneTask(states, choices, inBoot, a, j) && Unseen(states[a], inBoot)
    requires Has(FrameIn(states[j], inBoot), check)
    ensures a <= k < j && Observes(states[k], choices[k], inBoot, check)
    decreases j
  {
    hide After, Enabled, Has, Observes;
    if a == j { assert false; }
    HasStep(states[j - 1], choices[j - 1], inBoot, check);
    if Has(FrameIn(states[j - 1], inBoot), check) {
      k := CheckWasSeen(states, choices, inBoot, a, j - 1, check);
    } else {
      k := j - 1;
    }
  }

  lemma BeginsUnseen(s: State)
    requires Enabled(s, Begin)
    ensures After(s, Begin).current.Some? && Unseen(After(s, Begin), false)
  {
    var e := s.vars.epochs.(configuration := s.vars.epochs.configuration + 1);
    forall check ensures !Has(After(s, Begin).current, check) {
      StartsWithout(s.queue[0], s.vars.flags, e, check);
    }
  }

  lemma BootsUnseen(p: Profile)
    ensures Unseen(Started(p), true)
  {
  }

  lemma FrameStep(s: State, c: Choice, inBoot: bool)
    requires Enabled(s, c) && FrameIn(After(s, c), inBoot).Some?
    ensures FrameIn(s, inBoot).None? ==> c.Die? || (c.Begin? && !inBoot)
    ensures inBoot && c.Die? ==> After(s, c) == Started(s.profile)
    ensures !inBoot ==> !c.Die?
    ensures !inBoot && FrameIn(s, inBoot).Some? ==> !c.Begin?
  {
    hide Answer, Resume, HandlerMove, HandlerCall, Start, Performed, Settled;
  }

  /** The task, or boot, has begun in this life of the worker with nothing seen yet. */
  lemma {:induction false} FrameHasBegun(states: seq<State>, choices: seq<Choice>, inBoot: bool, j: nat)
    returns (a: nat)
    requires Run(states, choices) && states[0] == Started(states[0].profile) && j <= |choices|
    requires FrameIn(states[j], inBoot).Some?
    ensures OneTask(states, choices, inBoot, a, j) && Unseen(states[a], inBoot)
    ensures !inBoot ==> a > 0 && choices[a - 1].Begin?
    decreases j
  {
    hide After, Enabled, Unseen, Started;
    if j == 0 {
      StartedHasBoot(states[0].profile);
      BootsUnseen(states[0].profile);
      a := 0;
    } else {
      var s, c := states[j - 1], choices[j - 1];
      FrameStep(s, c, inBoot);
      if !inBoot && s.current.None? {
        BeginsUnseen(s);
        a := j;
      } else if c.Die? {
        BootsUnseen(s.profile);
        a := j;
      } else {
        a := FrameHasBegun(states, choices, inBoot, j - 1);
      }
    }
  }

  lemma StartedHasBoot(p: Profile)
    ensures Started(p).current.None?
  {
  }

  /** A step of this task, or of this boot, from state a on at which Chrome answered the check. */
  ghost predicate Observed(states: seq<State>, choices: seq<Choice>, inBoot: bool, a: nat, j: nat, check: Check)
    requires j <= |choices| < |states|
  {
    exists k :: a <= k < j && Observes(states[k], choices[k], inBoot, check)
  }

  lemma HadIsSeen(states: seq<State>, choices: seq<Choice>, inBoot: bool, a: nat, j: nat, check: Check)
    requires OneTask(states, choices, inBoot, a, j) && Unseen(states[a], inBoot)
    requires Has(FrameIn(states[j], inBoot), check)
    ensures Observed(states, choices, inBoot, a, j, check)
  {
    hide Observes, Has, After, Enabled;
    var k := CheckWasSeen(states, choices, inBoot, a, j, check);
  }

  /** The step asks Chrome to set this PAC. */
  predicate SetsPac(s: State, c: Choice, inBoot: bool, pac: Pac) {
    (if inBoot then c.PerformBoot? else c.PerformTask?) && FrameIn(s, inBoot).Some? &&
    CallOf(FrameIn(s, inBoot).value.pc) == ProxySet(pac)
  }

  lemma SettersHad(pc: Pc, check: Check)
    requires CallOf(pc).ProxySet? && check in [RtcSeen, IncognitoRtcSeen, RegularLevel, IncognitoLevel]
    ensures Had(pc, check)
  {
  }

  /** Whatever PAC is set in whatever run, at earlier steps of the same task WebRTC was seen
      restricted and the proxy controllable, in regular and in incognito windows. */
  lemma SetsAfterChecks(states: seq<State>, choices: seq<Choice>, inBoot: bool, j: nat, pac: Pac) returns (a: nat)
    requires Run(states, choices) && states[0] == Started(states[0].profile) && j < |choices|
    requires SetsPac(states[j], choices[j], inBoot, pac)
    ensures OneTask(states, choices, inBoot, a, j)
    ensures Observed(states, choices, inBoot, a, j, RtcSeen)
    ensures Observed(states, choices, inBoot, a, j, IncognitoRtcSeen)
    ensures Observed(states, choices, inBoot, a, j, RegularLevel)
    ensures Observed(states, choices, inBoot, a, j, IncognitoLevel)
  {
    hide After, Enabled, Observes, Unseen, Had, CallOf, Observed;
    a := FrameHasBegun(states, choices, inBoot, j);
    var checks := [RtcSeen, IncognitoRtcSeen, RegularLevel, IncognitoLevel];
    forall i | 0 <= i < 4 ensures Observed(states, choices, inBoot, a, j, checks[i]) {
      SettersHad(FrameIn(states[j], inBoot).value.pc, checks[i]);
      HadIsSeen(states, choices, inBoot, a, j, checks[i]);
    }
    assert checks[0] == RtcSeen && checks[1] == IncognitoRtcSeen && checks[2] == RegularLevel;
    assert checks[3] == IncognitoLevel;
  }
}
