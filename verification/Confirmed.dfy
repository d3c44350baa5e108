/** What has been achieved when a command returns, and what is left when it throws, in every
    run: with calls failing or ignored, and others acting, at any step. */
module Confirmed {
  import opened Wrappers
  import opened Browser
  import opened Tasks
  import opened Worker
  import opened Coupling
  import opened Answers
  import opened Consistency
  import opened Undisturbed
  import opened Evidence

  predicate Resolved(f: Frame) {
    f.reply.Some? && !f.reply.value.Rejected?
  }

  datatype ConnectPhase = Reading | Enabling | Applying | PacSet | Reported | Disabling | Disabled | PacDropped | Undone

  function ConnectPhaseOf(c: ConnectAt): ConnectPhase {
    match c
    case CReadProxy | CReadIncognitoProxy | CReadRtc | CRefuse | CDropUnrestrictedPac => Reading
    case CStoreEnabled => Enabling
    case CSetRtc | CRereadRtc | CReadIncognitoRtc | CSetPac | CRereadProxy => Applying
    case CRereadIncognitoProxy | CLastRtc | CLastIncognitoRtc => PacSet
    case CReport => Reported
    case CStoreDisabled => Disabling
    case CDropPac => Disabled
    case CDropRtc => PacDropped
    case CReportFailure => Undone
  }

  predicate ConnectFacts(p: Profile, cfg: Config, phase: ConnectPhase, resolved: bool) {
    Holds(p.storage, cfg) &&
    match phase
    case Reading => true
    case Enabling => resolved ==> p.storage.enabled
    case Applying => p.storage.enabled
    case PacSet => p.storage.enabled && p.ownPac == Some(BuildProxyConfig(cfg))
    case Reported => p.storage.enabled && p.ownPac == Some(BuildProxyConfig(cfg)) && OwnRestriction(p)
    case Disabling => resolved ==> !p.storage.enabled
    case Disabled => !p.storage.enabled && (resolved ==> p.ownPac.None?)
    case PacDropped => !p.storage.enabled && p.ownPac.None? && (resolved ==> p.ownRtc.None?)
    case Undone => !p.storage.enabled && p.ownPac.None? && p.ownRtc.None?
  }

  datatype Phase = ListBefore | Storing | NewList | NewPac | StoringBack | OldList | OldPac

  /** Which list is stored and which PAC is set while SAVE_EXCLUSIONS works on an enabled connection. */
  function PhaseOf(s: SaveAt): Phase {
    match s
    case SRefuse | SReadProxy | SReadRtc | SReadIncognitoRtc | SReadIncognitoProxy => ListBefore
    case SStore => Storing
    case SSetPac | SRereadProxy => NewList
    case SRereadIncognitoProxy | SLastRtc | SLastIncognitoRtc | SReport => NewPac
    case SStoreOld => StoringBack
    case SOldRereadIncognitoProxy | SOldLastRtc | SOldLastIncognitoRtc | SReportRestored => OldPac
    case _ => OldList
  }

  predicate SaveFacts(p: Profile, c: Connection, before: Stored<seq<string>>, next: seq<string>, phase: Phase,
                      replied: bool, resolved: bool)
  {
    var kept := ExclusionList(before);
    p.storage.enabled && p.storage.connection == Saved(c) &&
    match phase
    case ListBefore => p.storage.exclusions == before
    case Storing =>
      if resolved then p.storage.exclusions == Saved(next) else !replied ==> p.storage.exclusions == before
    case NewList => p.storage.exclusions == Saved(next)
    case NewPac =>
      p.storage.exclusions == Saved(next) && p.ownPac == Some(BuildProxyConfig(Config(c, next))) && OwnRestriction(p)
    case StoringBack =>
      if resolved then p.storage.exclusions == Saved(kept) else !replied ==> p.storage.exclusions == Saved(next)
    case OldList => p.storage.exclusions == Saved(kept)
    case OldPac =>
      p.storage.exclusions == Saved(kept) && p.ownPac == Some(BuildProxyConfig(Config(c, kept))) && OwnRestriction(p)
  }

  predicate DisconnectFacts(p: Profile, d: DisconnectAt, resolved: bool) {
    (!d.DStore? || resolved ==> !p.storage.enabled && p.storage.proxyError.None?) &&
    (!(d.DStore? || d.DDropPac?) || (d.DDropPac? && resolved) ==> p.ownPac.None?) &&
    (d.DReport? || d.DRemove? || d.DLastReport? || (d.DDropRtc? && resolved) ==> p.ownRtc.None?) &&
    (d.DLastReport? || (d.DRemove? && resolved) ==> p.storage.connection.Absent? && p.storage.exclusions.Absent?)
  }

  predicate ImportFacts(p: Profile, c: Connection, i: ImportAt, resolved: bool) {
    (!i.IStoreDisabled? || resolved ==> !p.storage.enabled) &&
    (!(i.IStoreDisabled? || i.IDropPac?) || (i.IDropPac? && resolved) ==> p.ownPac.None?) &&
    (i.IStore? || i.IReport? || (i.IDropRtc? && resolved) ==> p.ownRtc.None?) &&
    (i.IReport? || (i.IStore? && resolved) ==> p.storage == Storage(Saved(c), false, Saved([]), None))
  }

  /** What the reply of a read says about what the task alone changes. */
  predicate ReplyFits(p: Profile, f: Frame) {
    f.reply.Some? && !RecordPc(f.pc) ==>
      (f.reply.value.Rejected? || Browser.Answers(CallOf(f.pc), f.reply.value)) &&
      (f.reply.value.Data? ==> SameConfig(f.reply.value.data, p.storage)) &&
      (CallOf(f.pc) == ProxyGet(false) && f.reply.value.ProxyIs? && f.reply.value.proxy.level.ByThis? ==>
         f.reply.value.proxy.pac == p.ownPac)
  }

  /** What is stored, and which preferences stand, while a command or a reconciliation waits. */
  predicate Facts(p: Profile, f: Frame) {
    ReplyFits(p, f) &&
    match f.pc
    case Reconcile(_, r) => r.Badge? ==> p.ownPac.None?
    case Apply(_, cfg, a) =>
      (ApplyPast(a, 12) ==> p.ownPac == Some(BuildProxyConfig(cfg))) &&
      (a.ReadIncognitoProxy? && a.proxy.level.ByThis? ==> a.proxy.pac == p.ownPac)
    case Connecting(cfg, c) => ConnectFacts(p, cfg, ConnectPhaseOf(c), Resolved(f))
    case SaveOff(next, stored) =>
      !p.storage.enabled && p.storage.connection.Saved? &&
      (stored || Resolved(f) ==> p.storage.exclusions == Saved(next))
    case Saving(c, before, next, s) =>
      SaveFacts(p, c, before, next, PhaseOf(s), f.reply.Some?, Resolved(f)) &&
      (s == SReportFailure(true) ==> p.ownPac.None?)
    case Disconnecting(_, d) => DisconnectFacts(p, d, Resolved(f))
    case Importing(c, i) => ImportFacts(p, c, i, Resolved(f))
    case _ => true
  }

  lemma RepliesFit(p: Profile, pc: Pc, o: Outcome)
    ensures ReplyFits(Performed(CallOf(pc), p, o), Frame(pc, Some(Answer(CallOf(pc), p, o))))
  {
    OwnSettingIsOurs(p);
    AnswersFit(CallOf(pc), p, o);
  }

  lemma PerformKeepsFacts(p: Profile, pc: Pc, o: Outcome)
    requires Facts(p, Frame(pc, None)) && Possible(CallOf(pc), o)
    ensures Facts(Performed(CallOf(pc), p, o), Frame(pc, Some(Answer(CallOf(pc), p, o))))
  {
    RepliesFit(p, pc, o);
    hide ReplyFits, BuildProxyConfig;
  }

  predicate Keeps(p: Profile, n: Next) {
    n.Go? ==> Facts(p, Frame(n.pc, None))
  }

  predicate ConnectPhaseStep(c: ConnectAt, d: ConnectAt, r: Reply, expected: Pac) {
    match ConnectPhaseOf(c)
    case Reading => ConnectPhaseOf(d).Reading? || ConnectPhaseOf(d).Enabling?
    case Enabling => !r.Rejected? && ConnectPhaseOf(d).Applying?
    case Applying =>
      ConnectPhaseOf(d).Applying? || ConnectPhaseOf(d).Disabling? ||
      (ConnectPhaseOf(d).PacSet? && c.CRereadProxy? && ProxyEffective(r, expected))
    case PacSet =>
      ConnectPhaseOf(d).PacSet? || ConnectPhaseOf(d).Disabling? || (ConnectPhaseOf(d).Reported? && c.CLastIncognitoRtc?)
    case Disabling => !r.Rejected? && ConnectPhaseOf(d).Disabled?
    case Disabled => !r.Rejected? && ConnectPhaseOf(d).PacDropped?
    case PacDropped => !r.Rejected? && ConnectPhaseOf(d).Undone?
    case _ => false
  }

  lemma ConnectPhasesInTurn(cfg: Config, c: ConnectAt, f: Flags, r: Reply)
    ensures var n := ResumeConnect(cfg, c, f, r).next;
      n.Go? ==>
        n.pc.Connecting? && n.pc == Connecting(cfg, n.pc.c) && ConnectPhaseStep(c, n.pc.c, r, BuildProxyConfig(cfg))
  {
    hide BuildProxyConfig, IncognitoProxyState, ProxyEffective, RtcRestricted, IncognitoRtcRestricted, MayControl;
    hide Restricted;
  }

  lemma ConnectKeepsFacts(p: Profile, cfg: Config, c: ConnectAt, f: Flags, r: Reply)
    requires var now := Frame(Connecting(cfg, c), Some(r)); Facts(p, now) && Knows(p, now)
    ensures Keeps(p, ResumeConnect(cfg, c, f, r).next)
  {
    ConnectPhasesInTurn(cfg, c, f, r);
    hide ResumeConnect, ConnectPhaseOf, BuildProxyConfig;
  }

  lemma ApplyKeepsFacts(p: Profile, caller: Caller, cfg: Config, a: ApplyAt, f: Flags, r: Reply)
    requires var now := Frame(Apply(caller, cfg, a), Some(r)); Facts(p, now) && Knows(p, now)
    ensures Keeps(p, ResumeApply(caller, cfg, a, f, r).next)
  {
    hide BuildProxyConfig, IncognitoProxyState, RtcRestricted, IncognitoRtcRestricted, MayControl;
  }

  predicate PhaseStep(s: SaveAt, t: SaveAt, r: Reply, expected: Pac, previous: Pac) {
    match PhaseOf(s)
    case ListBefore => PhaseOf(t).ListBefore? || PhaseOf(t).Storing?
    case Storing => !r.Rejected? && PhaseOf(t).NewList?
    case NewList =>
      PhaseOf(t).NewList? || PhaseOf(t).StoringBack? ||
      (PhaseOf(t).NewPac? && s.SRereadProxy? && ProxyEffective(r, expected))
    case NewPac => PhaseOf(t).NewPac? || PhaseOf(t).StoringBack?
    case StoringBack => !r.Rejected? && PhaseOf(t).OldList?
    case OldList =>
      PhaseOf(t).OldList? || (PhaseOf(t).OldPac? && s.SOldRereadProxy? && ProxyEffective(r, previous))
    case OldPac => PhaseOf(t).OldPac? || PhaseOf(t).OldList?
  }

  lemma PhasesInTurn(c: Connection, before: Stored<seq<string>>, next: seq<string>, s: SaveAt, f: Flags, r: Reply)
    ensures var n := ResumeSave(c, before, next, s, f, r).next;
      var expected, previous := BuildProxyConfig(Config(c, next)), BuildProxyConfig(Config(c, ExclusionList(before)));
      n.Go? ==>
        n.pc.Saving? && n.pc == Saving(c, before, next, n.pc.s) && PhaseStep(s, n.pc.s, r, expected, previous) &&
        (n.pc.s == SReportFailure(true) ==> s.SDropPac? && !r.Rejected?)
  {
    hide BuildProxyConfig, IncognitoProxyState, ProxyEffective, RtcRestricted, IncognitoRtcRestricted, MayControl;
    hide Restricted, ExclusionList;
  }

  lemma SaveKeepsFacts(p: Profile, c: Connection, before: Stored<seq<string>>, next: seq<string>, s: SaveAt,
                       f: Flags, r: Reply)
    requires var now := Frame(Saving(c, before, next, s), Some(r)); Facts(p, now) && Knows(p, now)
    ensures Keeps(p, ResumeSave(c, before, next, s, f, r).next)
  {
    PhasesInTurn(c, before, next, s, f, r);
    hide ResumeSave, PhaseOf, ExclusionList, BuildProxyConfig;
  }

  lemma OthersKeepFacts(p: Profile, pc: Pc, f: Flags, r: Reply, now: Epochs)
    requires Facts(p, Frame(pc, Some(r))) && Knows(p, Frame(pc, Some(r)))
    requires !pc.Connecting? && !pc.Saving? && !pc.Apply?
    ensures Keeps(p, Resume(pc, f, r, now).next)
  {
    hide ResumeConnect, ResumeSave, ResumeApply, StatusNext;
  }

  lemma ResumeKeepsFacts(p: Profile, pc: Pc, f: Flags, r: Reply, now: Epochs)
    requires Facts(p, Frame(pc, Some(r))) && Knows(p, Frame(pc, Some(r)))
    ensures Keeps(p, Resume(pc, f, r, now).next)
  {
    hide Keeps, ResumeConnect, ResumeSave, ResumeApply, Knows, Facts;
    match pc
    case Connecting(cfg, c) => ConnectKeepsFacts(p, cfg, c, f, r);
    case Apply(caller, cfg, a) => ApplyKeepsFacts(p, caller, cfg, a, f, r);
    case Saving(c, before, next, s) => SaveKeepsFacts(p, c, before, next, s, f, r);
    case _ => OthersKeepFacts(p, pc, f, r, now);
  }

  lemma StartKeepsFacts(p: Profile, t: Task, f: Flags, now: Epochs)
    ensures Facts(p, Frame(Start(t, f, now).pc, None))
  {
  }

  ghost predicate AllFacts(s: State) {
    (s.boot.Some? ==> Facts(s.profile, s.boot.value)) && (s.current.Some? ==> Facts(s.profile, s.current.value))
  }

  lemma RecordsAsideFacts(p: Profile, pc: Pc, o: Outcome, f: Frame)
    requires RecordPc(pc)
    ensures BootPc(f.pc) && Facts(p, f) ==> Facts(Performed(CallOf(pc), p, o), f)
  {
    RecordPerforms(p, pc, o);
    hide Performed, CallOf;
  }

  lemma RecordFacts(p: Profile, f: Frame)
    requires RecordPc(f.pc)
    ensures Facts(p, f)
  {
  }

  lemma FactsStep(s: State, c: Choice)
    requires Inv(s) && AllFacts(s) && Enabled(s, c)
    ensures AllFacts(After(s, c))
  {
    hide Facts, Resume, Start, Answer, Performed, Possible, CallOf, Settled, HandlerMove, HandlerCall, ResumedHandler;
    if Bystander(c) {
      BystandersKeepTasks(s, c);
    } else {
      match c
      case OthersAct(o) => SurroundingsAside(s, o);
      case PerformBoot(o) =>
        PerformKeepsFacts(s.profile, s.boot.value.pc, o);
        if s.current.Some? { RecordFacts(After(s, c).profile, s.current.value); }
      case ResumeBoot =>
        ResumeKeepsFacts(s.profile, s.boot.value.pc, s.vars.flags, s.boot.value.reply.value, s.vars.epochs);
      case PerformTask(o) =>
        PerformKeepsFacts(s.profile, s.current.value.pc, o);
        if s.boot.Some? { RecordsAsideFacts(s.profile, s.current.value.pc, o, s.boot.value); }
      case ResumeTask =>
        ResumeKeepsFacts(s.profile, s.current.value.pc, s.vars.flags, s.current.value.reply.value, s.vars.epochs);
      case Begin =>
        StartKeepsFacts(s.profile, s.queue[0], s.vars.flags,
                        s.vars.epochs.(configuration := s.vars.epochs.configuration + 1));
      case Die => StartedFacts(s.profile);
    }
  }

  lemma SurroundingsAside(s: State, o: Outside)
    ensures AllFacts(s) ==> AllFacts(s.(profile := s.profile.(outside := o)))
  {
  }

  lemma StartedFacts(p: Profile)
    ensures AllFacts(Started(p))
  {
  }

  lemma {:induction false} FactsAlways(states: seq<State>, choices: seq<Choice>, i: nat)
    requires WorkerRun(states, choices) && i <= |choices|
    ensures AllFacts(states[i])
  {
    hide After, Enabled, AllFacts;
    if i == 0 {
      StartedFacts(states[0].profile);
    } else {
      FactsAlways(states, choices, i - 1);
      InvAlways(states, choices, i - 1);
      FactsStep(states[i - 1], choices[i - 1]);
    }
  }

  /** The program points of a task. */
  predicate Kin(t: Task, pc: Pc) {
    match t
    case ImportKey(key) => if key.Some? then pc.Importing? && pc.connection == key.value else pc.Settle?
    case Connect => pc.ConnectRead? || pc.Connecting?
    case Disconnect => pc.Disconnecting? && !pc.forget && !pc.d.DRemove? && !pc.d.DLastReport?
    case Forget => pc.Disconnecting? && pc.forget
    case SaveExclusions(text) =>
      if text.None? then pc.Settle?
      else if pc.SaveRead? || pc.SaveOff? || pc.Saving? then pc.next == text.value else false
    case RtcChanged => (pc.Reconcile? || pc.Apply?) && pc.caller.AtRtcChange?
    case _ => true
  }

  lemma StartsKin(t: Task, f: Flags, now: Epochs)
    ensures Kin(t, Start(t, f, now).pc)
  {
  }

  lemma ResumeStaysKin(t: Task, pc: Pc, f: Flags, r: Reply, now: Epochs)
    ensures var n := Resume(pc, f, r, now).next; Kin(t, pc) && n.Go? ==> Kin(t, n.pc)
  {
    hide BuildProxyConfig, IncognitoProxyState, ProxyEffective, RtcRestricted, IncognitoRtcRestricted, MayControl;
  }

  ghost predicate KinOk(s: State) {
    s.current.Some? ==> s.lastBegun.Some? && Kin(s.lastBegun.value, s.current.value.pc)
  }

  lemma KinStep(s: State, c: Choice)
    requires KinOk(s) && Enabled(s, c)
    ensures KinOk(After(s, c))
  {
    hide Kin, Resume, Start, Answer, Performed, CallOf, Settled, HandlerMove, HandlerCall;
    match c
    case ResumeTask =>
      ResumeStaysKin(s.lastBegun.value, s.current.value.pc, s.vars.flags, s.current.value.reply.value, s.vars.epochs);
    case Begin =>
      StartsKin(s.queue[0], s.vars.flags, s.vars.epochs.(configuration := s.vars.epochs.configuration + 1));
    case _ =>
  }

  lemma {:induction false} KinAlways(states: seq<State>, choices: seq<Choice>, i: nat)
    requires WorkerRun(states, choices) && i <= |choices|
    ensures KinOk(states[i])
  {
    hide After, Enabled;
    if i == 0 {
    } else {
      KinAlways(states, choices, i - 1);
      KinStep(states[i - 1], choices[i - 1]);
    }
  }

  /** Where a task returns. */
  predicate Goal(t: Task, pc: Pc) {
    match t
    case Connect => pc.Connecting? && pc.c.CReport?
    case SaveExclusions(_) => (pc.SaveOff? && pc.stored) || (pc.Saving? && pc.s.SReport?)
    case Disconnect => pc.Disconnecting? && pc.d.DReport?
    case Forget => pc.Disconnecting? && pc.d.DLastReport?
    case ImportKey(_) => pc.Importing? && pc.i.IReport?
    case RtcChanged => (pc.Reconcile? && pc.r.Badge?) || (pc.Apply? && pc.a.AppliedBadge?)
    case _ => true
  }

  lemma ReturnsAtGoal(t: Task, pc: Pc, f: Flags, r: Reply, now: Epochs)
    ensures Kin(t, pc) && Resume(pc, f, r, now).next == Stop(true) ==> Goal(t, pc)
  {
    hide BuildProxyConfig, IncognitoProxyState, ProxyEffective, RtcRestricted, IncognitoRtcRestricted, MayControl;
  }

  /** The running task is `t` and returns with this step. */
  ghost predicate Completes(s: State, c: Choice, t: Task) {
    Returns(s, c) && s.lastBegun == Some(t)
  }

  lemma CompletesAtGoal(states: seq<State>, choices: seq<Choice>, j: nat, t: Task)
    requires WorkerRun(states, choices) && j < |choices| && Completes(states[j], choices[j], t)
    ensures states[j].current.Some? && Kin(t, states[j].current.value.pc) && Goal(t, states[j].current.value.pc)
    ensures Facts(states[j].profile, states[j].current.value)
  {
    var s := states[j];
    KinAlways(states, choices, j);
    FactsAlways(states, choices, j);
    ReturnsAtGoal(t, s.current.value.pc, s.vars.flags, s.current.value.reply.value, s.vars.epochs);
    hide After, Enabled, Kin, Goal, Facts, Resume;
  }

  /** Chrome answered the second check at a later step of the task than the first. */
  ghost predicate ObservedInTurn(states: seq<State>, choices: seq<Choice>, inBoot: bool, a: nat, j: nat,
                            first: Check, second: Check)
    requires j <= |choices| < |states|
  {
    exists k, m :: a <= k < m < j && Observes(states[k], choices[k], inBoot, first) &&
      Observes(states[m], choices[m], inBoot, second)
  }

  lemma LaterCheck(states: seq<State>, choices: seq<Choice>, inBoot: bool, a: nat, j: nat, first: Check, second: Check)
    requires OneTask(states, choices, inBoot, a, j) && Unseen(states[a], inBoot)
    requires Has(FrameIn(states[j], inBoot), second)
    requires Before(second) == Some(first)
    ensures ObservedInTurn(states, choices, inBoot, a, j, first, second)
  {
    hide After, Enabled, Had, Shows, Holding;
    var m := CheckWasSeen(states, choices, inBoot, a, j, second);
    assert Had(FrameIn(states[m], inBoot).value.pc, first);
    var k := CheckWasSeen(states, choices, inBoot, a, m, first);
  }

  /** In this task Chrome had the PAC in force in regular and in incognito windows, and after
      that WebRTC restricted in both. */
  ghost predicate PacConfirmed(states: seq<State>, choices: seq<Choice>, inBoot: bool, a: nat, j: nat, pac: Pac)
    requires j <= |choices| < |states|
  {
    Observed(states, choices, inBoot, a, j, IncognitoPac(pac)) &&
    ObservedInTurn(states, choices, inBoot, a, j, RegularPac(pac), RtcStill(pac)) &&
    ObservedInTurn(states, choices, inBoot, a, j, RegularPac(pac), IncognitoRtcStill(pac))
  }

  lemma ConfirmsPac(states: seq<State>, choices: seq<Choice>, inBoot: bool, a: nat, j: nat, pac: Pac)
    requires OneTask(states, choices, inBoot, a, j) && Unseen(states[a], inBoot) && FrameIn(states[j], inBoot).Some?
    requires var pc := FrameIn(states[j], inBoot).value.pc;
      Had(pc, IncognitoPac(pac)) && Had(pc, RtcStill(pac)) && Had(pc, IncognitoRtcStill(pac))
    ensures PacConfirmed(states, choices, inBoot, a, j, pac)
  {
    hide After, Enabled, Had, Unseen;
    HadIsSeen(states, choices, inBoot, a, j, IncognitoPac(pac));
    LaterCheck(states, choices, inBoot, a, j, RegularPac(pac), RtcStill(pac));
    LaterCheck(states, choices, inBoot, a, j, RegularPac(pac), IncognitoRtcStill(pac));
  }

  lemma ConnectHadAll(cfg: Config)
    ensures var pc, pac := Connecting(cfg, CReport), BuildProxyConfig(cfg);
      Had(pc, Stored(cfg)) && Had(pc, IncognitoPac(pac)) && Had(pc, RtcStill(pac)) &&
      Had(pc, IncognitoRtcStill(pac))
  {
  }

  /** A CONNECT that returns: the configuration it read is stored and enabled, both preferences
      are set for it, and Chrome confirmed both in regular and in incognito windows. */
  lemma ConnectConfirmed(states: seq<State>, choices: seq<Choice>, j: nat) returns (a: nat, cfg: Config)
    requires WorkerRun(states, choices) && j < |choices| && Completes(states[j], choices[j], Task.Connect)
    ensures OneTask(states, choices, false, a, j) && Observed(states, choices, false, a, j, Stored(cfg))
    ensures PacConfirmed(states, choices, false, a, j, BuildProxyConfig(cfg))
    ensures var p := states[j].profile;
      p.storage.enabled && Holds(p.storage, cfg) && p.ownPac == Some(BuildProxyConfig(cfg)) && OwnRestriction(p)
  {
    hide After, Enabled, Had, Unseen, Observes, Observed, PacConfirmed, Returns;
    CompletesAtGoal(states, choices, j, Task.Connect);
    cfg := states[j].current.value.pc.cfg;
    a := FrameHasBegun(states, choices, false, j);
    ConnectHadAll(cfg);
    HadIsSeen(states, choices, false, a, j, Stored(cfg));
    ConfirmsPac(states, choices, false, a, j, BuildProxyConfig(cfg));
  }

  /** A DISCONNECT, FORGET or IMPORT_KEY that returns leaves neither preference and nothing
      enabled; what it stores is exactly this. */
  lemma OffWhenReturned(states: seq<State>, choices: seq<Choice>, j: nat, t: Task)
    requires WorkerRun(states, choices) && j < |choices| && Completes(states[j], choices[j], t)
    requires t.Disconnect? || t.Forget? || t.ImportKey?
    ensures var p := states[j].profile;
      p.ownPac.None? && p.ownRtc.None? && !p.storage.enabled && p.storage.proxyError.None? &&
      (t.Forget? ==> p.storage.connection.Absent? && p.storage.exclusions.Absent?) &&
      (t.ImportKey? ==> t.key.Some? && p.storage.connection == Saved(t.key.value) && p.storage.exclusions == Saved([]))
  {
    CompletesAtGoal(states, choices, j, t);
    hide After, Enabled, Returns;
  }

  lemma SaveHadAll(c: Connection, before: Stored<seq<string>>, next: seq<string>)
    ensures var pc, pac := Saving(c, before, next, SReport), BuildProxyConfig(Config(c, next));
      Had(pc, IncognitoPac(pac)) && Had(pc, RtcStill(pac)) && Had(pc, IncognitoRtcStill(pac))
  {
  }

  /** A SAVE_EXCLUSIONS that returns has stored the new list; on an enabled connection both
      preferences are set for it and Chrome confirmed them. */
  lemma SaveConfirmed(states: seq<State>, choices: seq<Choice>, j: nat, text: Option<seq<string>>) returns (a: nat)
    requires WorkerRun(states, choices) && j < |choices| && Completes(states[j], choices[j], Task.SaveExclusions(text))
    ensures var p := states[j].profile;
      text.Some? && p.storage.exclusions == Saved(text.value) && p.storage.connection.Saved? &&
      (p.storage.enabled ==>
         var pac := BuildProxyConfig(Config(p.storage.connection.value, text.value));
         OneTask(states, choices, false, a, j) && PacConfirmed(states, choices, false, a, j, pac) &&
         p.ownPac == Some(pac) && OwnRestriction(p))
  {
    hide After, Enabled, Had, Unseen, Observes, Observed, PacConfirmed, Returns;
    CompletesAtGoal(states, choices, j, Task.SaveExclusions(text));
    a := FrameHasBegun(states, choices, false, j);
    var pc := states[j].current.value.pc;
    if pc.Saving? {
      SaveHadAll(pc.connection, pc.before, pc.next);
      ConfirmsPac(states, choices, false, a, j, BuildProxyConfig(Config(pc.connection, pc.next)));
    }
  }

  /** The reconciliation returns, at boot or in a task. */
  predicate ReconcileReturns(f: Frame) {
    Resolved(f) && ((f.pc.Reconcile? && f.pc.r.Badge?) || (f.pc.Apply? && f.pc.a.AppliedBadge?))
  }

  lemma ApplyHadAll(caller: Caller, cfg: Config)
    ensures var pc, pac := Apply(caller, cfg, AppliedBadge), BuildProxyConfig(cfg);
      Had(pc, Stored(cfg)) && Had(pc, IncognitoPac(pac)) && Had(pc, RtcStill(pac)) && Had(pc, IncognitoRtcStill(pac))
  {
  }

  /** A reconciliation that returns leaves no PAC of the extension, or the one for the
      configuration it has read, confirmed by Chrome. */
  lemma ReconcileConfirmed(states: seq<State>, choices: seq<Choice>, inBoot: bool, j: nat) returns (a: nat)
    requires WorkerRun(states, choices) && j < |choices|
    requires FrameIn(states[j], inBoot).Some? && ReconcileReturns(FrameIn(states[j], inBoot).value)
    ensures OneTask(states, choices, inBoot, a, j)
    ensures var p := states[j].profile;
      p.ownPac.None? ||
      (OwnRestriction(p) && exists cfg ::
         Observed(states, choices, inBoot, a, j, Stored(cfg)) && p.ownPac == Some(BuildProxyConfig(cfg)) &&
         PacConfirmed(states, choices, inBoot, a, j, BuildProxyConfig(cfg)))
  {
    hide After, Enabled, Had, Unseen, Observes, Observed, PacConfirmed;
    FactsAlways(states, choices, j);
    InvAlways(states, choices, j);
    a := FrameHasBegun(states, choices, inBoot, j);
    var pc := FrameIn(states[j], inBoot).value.pc;
    if pc.Apply? {
      var cfg := pc.cfg;
      ApplyHadAll(pc.caller, cfg);
      HadIsSeen(states, choices, inBoot, a, j, Stored(cfg));
      ConfirmsPac(states, choices, inBoot, a, j, BuildProxyConfig(cfg));
    }
  }

  // What throws.

  predicate AboutSettings(call: Call) {
    call.ProxyGet? || call.ProxySet? || call.RtcGet? || call.RtcSet? || call.IncognitoProxy? || call.IncognitoRtc?
  }

  /** The last reply is not the rejection of a storage call, a clear or a report, after which
      there is no way on. */
  predicate WayOn(f: Frame) {
    f.reply.Some? && (f.reply.value.Rejected? ==> AboutSettings(CallOf(f.pc)))
  }

  lemma RtcReturns(p: Profile, f: Frame, flags: Flags, now: Epochs)
    requires Kin(Task.RtcChanged, f.pc) && ReplyFits(p, f) && WayOn(f)
    requires Resume(f.pc, flags, f.reply.value, now).next.Stop?
    ensures ReconcileReturns(f) && Resume(f.pc, flags, f.reply.value, now).next.returned
  {
    hide BuildProxyConfig, IncognitoProxyState, ProxyEffective, RtcRestricted, IncognitoRtcRestricted, MayControl;
  }

  /** The reaction to a WebRTC change never throws over a setting it cannot read or set: it ends
      without a PAC, or with one that Chrome confirmed. */
  lemma RtcChangeConfirmed(states: seq<State>, choices: seq<Choice>, j: nat) returns (a: nat)
    requires WorkerRun(states, choices) && j < |choices| && states[j].lastBegun == Some(Task.RtcChanged)
    requires Ends(states[j], choices[j]) && WayOn(states[j].current.value)
    ensures Returns(states[j], choices[j]) && OneTask(states, choices, false, a, j)
    ensures var p := states[j].profile;
      p.ownPac.None? ||
      (OwnRestriction(p) && exists cfg ::
         Observed(states, choices, false, a, j, Stored(cfg)) && p.ownPac == Some(BuildProxyConfig(cfg)) &&
         PacConfirmed(states, choices, false, a, j, BuildProxyConfig(cfg)))
  {
    hide After, Enabled, Kin, WayOn, ReconcileReturns, Resume, Observed, PacConfirmed;
    var s := states[j];
    KinAlways(states, choices, j);
    FactsAlways(states, choices, j);
    RtcReturns(s.profile, s.current.value, s.vars.flags, s.vars.epochs);
    a := ReconcileConfirmed(states, choices, false, j);
  }

  /** CONNECT has not stored anything yet. */
  predicate StillReading(pc: Pc) {
    pc.ConnectRead? || (pc.Connecting? && ConnectPhaseOf(pc.c).Reading?)
  }

  lemma ReadingBefore(pc: Pc, f: Flags, r: Reply, now: Epochs)
    ensures var n := Resume(pc, f, r, now).next;
      (pc.ConnectRead? || pc.Connecting?) && n.Go? && StillReading(n.pc) ==> StillReading(pc)
  {
    hide BuildProxyConfig, IncognitoProxyState, ProxyEffective, RtcRestricted, IncognitoRtcRestricted, MayControl;
  }

  lemma ReadingStep(s: State, c: Choice)
    requires KinOk(s) && Enabled(s, c) && s.current.Some? && s.lastBegun == Some(Task.Connect)
    requires After(s, c).current.Some? && StillReading(After(s, c).current.value.pc)
    ensures StillReading(s.current.value.pc) && After(s, c).lastBegun == s.lastBegun
  {
    hide StillReading, Resume, Answer, Performed, CallOf, Settled, HandlerMove, HandlerCall, Start;
    if c.ResumeTask? {
      ReadingBefore(s.current.value.pc, s.vars.flags, s.current.value.reply.value, s.vars.epochs);
    }
  }

  lemma ReadingWritesNothing(pc: Pc)
    ensures StillReading(pc) ==> !CallOf(pc).StorageSet?
  {
  }

  /** The running task writes to storage. */
  predicate Writes(s: State, c: Choice) {
    c.PerformTask? && s.current.Some? && CallOf(s.current.value.pc).StorageSet?
  }

  lemma {:induction false} NothingWritten(states: seq<State>, choices: seq<Choice>, a: nat, j: nat)
    requires WorkerRun(states, choices) && OneTask(states, choices, false, a, j)
    requires states[j].current.Some? && StillReading(states[j].current.value.pc)
    requires states[j].lastBegun == Some(Task.Connect)
    ensures forall k :: a <= k < j ==> !Writes(states[k], choices[k])
    decreases j
  {
    hide After, Enabled, StillReading, Writes;
    if a == j {
    } else {
      KinAlways(states, choices, j - 1);
      LastBegunStep(states[j - 1], choices[j - 1]);
      ReadingStep(states[j - 1], choices[j - 1]);
      NothingWritten(states, choices, a, j - 1);
      ReadingWrites(states[j - 1], choices[j - 1]);
    }
  }

  lemma ReadingWrites(s: State, c: Choice)
    ensures s.current.Some? && StillReading(s.current.value.pc) ==> !Writes(s, c)
  {
    if s.current.Some? { ReadingWritesNothing(s.current.value.pc); }
    hide StillReading, CallOf;
  }

  lemma ConnectThrowPoints(p: Profile, f: Frame, flags: Flags, now: Epochs)
    requires (f.pc.ConnectRead? || f.pc.Connecting?) && WayOn(f) && Facts(p, f) && Knows(p, f)
    requires Resume(f.pc, flags, f.reply.value, now).next == Stop(false)
    ensures if StillReading(f.pc) then !Usable(p.storage) || p.ownPac.None? || !Resolved(f)
            else !p.storage.enabled && p.ownPac.None? && p.ownRtc.None?
  {
    hide BuildProxyConfig, IncognitoProxyState, ProxyEffective, RtcRestricted, IncognitoRtcRestricted, MayControl;
  }

  /** A CONNECT that throws, its last call not a rejected storage call, clear or report: if it has
      written to storage it ends disabled with neither preference; else it wrote nothing at all
      and, unless nothing usable is stored or a read was rejected, has dropped the PAC. */
  lemma ConnectThrowsClean(states: seq<State>, choices: seq<Choice>, j: nat) returns (a: nat)
    requires WorkerRun(states, choices) && j < |choices| && states[j].lastBegun == Some(Task.Connect)
    requires Ends(states[j], choices[j]) && !Returns(states[j], choices[j]) && WayOn(states[j].current.value)
    ensures OneTask(states, choices, false, a, j)
    ensures var p := states[j].profile;
      if exists k :: a <= k < j && Writes(states[k], choices[k])
      then !p.storage.enabled && p.ownPac.None? && p.ownRtc.None?
      else !Usable(p.storage) || p.ownPac.None? || !Resolved(states[j].current.value)
  {
    hide After, Enabled, Unseen, Facts, Knows, StillReading, Writes, Kin, WayOn;
    var s := states[j];
    KinAlways(states, choices, j);
    FactsAlways(states, choices, j);
    InvAlways(states, choices, j);
    a := FrameHasBegun(states, choices, false, j);
    KinOfConnect(s.current.value.pc);
    ConnectThrowPoints(s.profile, s.current.value, s.vars.flags, s.vars.epochs);
    if StillReading(s.current.value.pc) { NothingWritten(states, choices, a, j); }
  }

  lemma KinOfConnect(pc: Pc)
    ensures Kin(Task.Connect, pc) ==> pc.ConnectRead? || pc.Connecting?
  {
  }

  /** After the old list had been stored again everything was checked again, and the old PAC
      confirmed as a new one is. */
  ghost predicate PacRestored(states: seq<State>, choices: seq<Choice>, a: nat, j: nat, pac: Pac, kept: seq<string>)
    requires j <= |choices| < |states|
  {
    ObservedInTurn(states, choices, false, a, j, PutBack(kept), BackRtcSeen(kept)) &&
    ObservedInTurn(states, choices, false, a, j, PutBack(kept), BackIncognitoRtcSeen(kept)) &&
    ObservedInTurn(states, choices, false, a, j, PutBack(kept), BackIncognitoLevel(kept)) &&
    ObservedInTurn(states, choices, false, a, j, PutBack(kept), BackIncognitoPac(pac, kept)) &&
    ObservedInTurn(states, choices, false, a, j, BackRegularPac(pac, kept), BackRtcStill(pac, kept)) &&
    ObservedInTurn(states, choices, false, a, j, BackRegularPac(pac, kept), BackIncognitoRtcStill(pac, kept))
  }

  lemma RestoredHadAll(c: Connection, before: Stored<seq<string>>, next: seq<string>)
    ensures var kept := ExclusionList(before);
      var pc, pac := Saving(c, before, next, SReportRestored), BuildProxyConfig(Config(c, kept));
      Had(pc, BackRtcSeen(kept)) && Had(pc, BackIncognitoRtcSeen(kept)) && Had(pc, BackIncognitoLevel(kept)) &&
      Had(pc, BackIncognitoPac(pac, kept)) && Had(pc, BackRtcStill(pac, kept)) &&
      Had(pc, BackIncognitoRtcStill(pac, kept))
  {
  }

  lemma RestoresPac(states: seq<State>, choices: seq<Choice>, a: nat, j: nat)
    requires OneTask(states, choices, false, a, j) && Unseen(states[a], false) && states[j].current.Some?
    requires states[j].current.value.pc.Saving? && states[j].current.value.pc.s.SReportRestored?
    ensures var pc := states[j].current.value.pc;
      var kept := ExclusionList(pc.before);
      PacRestored(states, choices, a, j, BuildProxyConfig(Config(pc.connection, kept)), kept)
  {
    hide After, Enabled, Had, Unseen, ObservedInTurn;
    var pc := states[j].current.value.pc;
    var kept := ExclusionList(pc.before);
    var pac := BuildProxyConfig(Config(pc.connection, kept));
    RestoredHadAll(pc.connection, pc.before, pc.next);
    hide OneTask, BuildProxyConfig, ExclusionList, Before;
    forall check | Before(check).Some? && Had(pc, check)
      ensures ObservedInTurn(states, choices, false, a, j, Before(check).value, check)
    {
      LaterCheck(states, choices, false, a, j, Before(check).value, check);
    }
    BackOrder(pac, kept);
  }

  lemma BackOrder(pac: Pac, kept: seq<string>)
    ensures Before(BackRtcSeen(kept)) == Before(BackIncognitoRtcSeen(kept)) == Before(BackIncognitoLevel(kept)) ==
      Before(BackIncognitoPac(pac, kept)) == Some(PutBack(kept))
    ensures Before(BackRtcStill(pac, kept)) == Before(BackIncognitoRtcStill(pac, kept)) ==
      Some(BackRegularPac(pac, kept))
  {
  }

  lemma SaveThrowPoints(p: Profile, f: Frame, flags: Flags, now: Epochs)
    requires f.pc.Settle? || f.pc.SaveRead? || f.pc.SaveOff? || f.pc.Saving?
    requires WayOn(f) && Facts(p, f) && Knows(p, f)
    requires Resume(f.pc, flags, f.reply.value, now).next == Stop(false)
    requires p.storage.enabled && p.storage.connection.Saved?
    ensures f.pc.Saving? || f.pc.Settle?
    ensures f.pc.Saving? ==>
      f.pc.s.SReportRestored? || f.pc.s.SReportFailure? || p.storage.exclusions == f.pc.before
  {
    hide BuildProxyConfig, IncognitoProxyState, ProxyEffective, RtcRestricted, IncognitoRtcRestricted, MayControl;
  }

  /** A SAVE_EXCLUSIONS on an enabled connection that throws, its last call as for CONNECT, keeps
      the list it has read; if it had already replaced it, then the PAC for the old list is set
      and confirmed again, or there is none, or its clear was rejected. */
  lemma SaveThrowsKept(states: seq<State>, choices: seq<Choice>, j: nat, next: seq<string>)
    returns (a: nat, before: Stored<seq<string>>)
    requires WorkerRun(states, choices) && j < |choices|
    requires states[j].lastBegun == Some(Task.SaveExclusions(Some(next)))
    requires Ends(states[j], choices[j]) && !Returns(states[j], choices[j]) && WayOn(states[j].current.value)
    requires states[j].profile.storage.enabled && states[j].profile.storage.connection.Saved?
    ensures OneTask(states, choices, false, a, j)
    ensures var p := states[j].profile;
      var c, kept := p.storage.connection.value, ExclusionList(before);
      Observed(states, choices, false, a, j, StoredBefore(c, before)) && ExclusionList(p.storage.exclusions) == kept &&
      (p.storage.exclusions == before || p.ownPac.None? || Observed(states, choices, false, a, j, ClearRejected) ||
       (p.ownPac == Some(BuildProxyConfig(Config(c, kept))) &&
        PacRestored(states, choices, a, j, BuildProxyConfig(Config(c, kept)), kept)))
  {
    hide After, Enabled, Unseen, Knows, Kin, Had, Observes, Observed, PacRestored, WayOn;
    var s := states[j];
    KinAlways(states, choices, j);
    FactsAlways(states, choices, j);
    InvAlways(states, choices, j);
    a := FrameHasBegun(states, choices, false, j);
    KinOfSave(s.current.value.pc, next);
    SaveThrowPoints(s.profile, s.current.value, s.vars.flags, s.vars.epochs);
    var pc := s.current.value.pc;
    before := pc.before;
    SavedBefore(pc.connection, pc.before, pc.next, pc.s);
    HadIsSeen(states, choices, false, a, j, StoredBefore(pc.connection, pc.before));
    if pc.s.SReportRestored? {
      RestoresPac(states, choices, a, j);
    } else if pc.s == SReportFailure(false) {
      HadIsSeen(states, choices, false, a, j, ClearRejected);
    }
  }

  lemma SavedBefore(c: Connection, before: Stored<seq<string>>, next: seq<string>, s: SaveAt)
    ensures Had(Saving(c, before, next, s), StoredBefore(c, before))
    ensures s == SReportFailure(false) ==> Had(Saving(c, before, next, s), ClearRejected)
  {
  }

  lemma KinOfSave(pc: Pc, next: seq<string>)
    ensures Kin(Task.SaveExclusions(Some(next)), pc) ==> pc.SaveRead? || pc.SaveOff? || pc.Saving?
  {
  }
}
