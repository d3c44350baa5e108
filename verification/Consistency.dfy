/** Between tasks a PAC of the extension is the one its stored configuration asks for. */
module Consistency {
  import opened Wrappers
  import opened Browser
  import opened Tasks
  import opened Worker
  import opened Coupling
  import opened Answers

  predicate Matches(p: Profile) {
    p.ownPac.Some? ==>
      p.storage.enabled && p.storage.connection.Saved? && !p.storage.exclusions.Damaged? &&
      p.ownPac.value == BuildProxyConfig(Config(p.storage.connection.value, ExclusionList(p.storage.exclusions)))
  }

  /** Points at which a queued task may have storage and PAC apart. */
  predicate Apart(pc: Pc, replied: bool) {
    match pc
    case Reconcile(_, r) => (r.StoreDisabled? && replied) || (r.DropPac? && !replied)
    case Connecting(_, c) => (c.CStoreDisabled? && replied) || (c.CDropPac? && !replied)
    case Disconnecting(_, d) => (d.DStore? && replied) || (d.DDropPac? && !replied)
    case Importing(_, i) => (i.IStoreDisabled? && replied) || (i.IDropPac? && !replied)
    case Saving(_, _, _, s) =>
      (s.SStore? && replied) || s.SSetPac? || s.SRereadProxy? || s.SStoreOld? || s.SOldRtc? || s.SOldIncognitoRtc? ||
      s.SOldIncognitoProxy? || s.SSetOldPac? || s.SOldRereadProxy? || (s.SDropPac? && !replied)
    case _ => false
  }

  /** Points at which boot has brought storage and PAC together. */
  predicate BootTogether(pc: Pc, replied: bool) {
    match pc
    case Reconcile(_, r) => (r.DropPac? && replied) || r.DropRtc? || r.Badge?
    case Apply(_, _, a) =>
      a.LastRtc? || a.LastIncognitoRtc? || a.LastIncognitoProxy? || (a.DropFailedPac? && replied) || a.AppliedBadge?
    case BootDropPac => replied
    case BootBadge => true
    case _ => false
  }

  /** Points at which the task has removed the PAC for good. */
  predicate Gone(pc: Pc, replied: bool) {
    match pc
    case Reconcile(_, r) => (r.DropPac? && replied) || r.DropRtc?
    case Apply(_, _, a) => a.DropFailedPac? && replied
    case Connecting(_, c) => (c.CDropPac? && replied) || c.CDropRtc?
    case Disconnecting(_, d) => !d.DStore? && !(d.DDropPac? && !replied)
    case Importing(_, i) => !i.IStoreDisabled? && !(i.IDropPac? && !replied)
    case SaveOff(_, _) => true
    case Saving(_, _, _, s) => s.SDropPac? && replied
    case BootDropPac => replied
    case _ => false
  }

  predicate StoredAs(d: Storage, connection: Connection, exclusions: Stored<seq<string>>) {
    d.enabled && d.connection == Saved(connection) && d.exclusions == exclusions
  }

  predicate TryingToConnect(c: ConnectAt) {
    c.CSetRtc? || c.CRereadRtc? || c.CReadIncognitoRtc? || c.CSetPac? || c.CRereadProxy? || c.CRereadIncognitoProxy? ||
    c.CLastRtc? || c.CLastIncognitoRtc?
  }

  /** What is stored while a task that read the configuration works on it. */
  predicate Stores(d: Storage, pc: Pc, replied: bool) {
    match pc
    case Apply(_, cfg, _) => d.enabled && Holds(d, cfg)
    case Connecting(cfg, c) =>
      Holds(d, cfg) &&
      (TryingToConnect(c) || (c.CStoreEnabled? && replied) ==> d.enabled)
    case Saving(connection, before, next, s) =>
      if s.SReadProxy? || s.SReadRtc? || s.SReadIncognitoRtc? || s.SReadIncognitoProxy? || s.SRefuse? ||
         (s.SStore? && !replied) then StoredAs(d, connection, before)
      else if s.SStore? || s.SSetPac? || s.SRereadProxy? || s.SRereadIncognitoProxy? || s.SLastRtc? ||
              s.SLastIncognitoRtc? || (s.SStoreOld? && !replied) then StoredAs(d, connection, Saved(next))
      else if s.SReport? || s.SReportRestored? || s.SReportFailure? then true
      else StoredAs(d, connection, Saved(ExclusionList(before)))
    case _ => true
  }

  predicate SameConfig(d: Storage, e: Storage) {
    d.connection == e.connection && d.enabled == e.enabled && d.exclusions == e.exclusions
  }

  /** What a reply says about the profile as long as the task alone acts on it. */
  predicate ReplyHolds(p: Profile, f: Frame) {
    (f.reply.Some? && !RecordPc(f.pc) ==>
       (f.reply.value.Data? ==> SameConfig(f.reply.value.data, p.storage)) &&
       (CallOf(f.pc) == ProxyGet(false) && f.reply.value.ProxyIs? && f.reply.value.proxy.level.ByThis? ==>
          f.reply.value.proxy.pac == p.ownPac) &&
       (CallOf(f.pc).StorageSet? || CallOf(f.pc).ProxyClear? ==> !f.reply.value.Rejected?)) &&
    (f.pc.Apply? && f.pc.a.ReadIncognitoProxy? && f.pc.a.proxy.level.ByThis? ==> f.pc.a.proxy.pac == p.ownPac)
  }

  predicate Works(p: Profile, f: Frame) {
    (Gone(f.pc, f.reply.Some?) ==> p.ownPac.None?) && Stores(p.storage, f.pc, f.reply.Some?) && ReplyHolds(p, f)
  }

  predicate TaskWorks(p: Profile, f: Frame) {
    Works(p, f) && (!Apart(f.pc, f.reply.Some?) ==> Matches(p))
  }

  predicate BootWorks(p: Profile, f: Frame) {
    Works(p, f) && (BootTogether(f.pc, f.reply.Some?) ==> Matches(p))
  }

  ghost predicate Consistent(s: State) {
    if s.boot.Some? then BootWorks(s.profile, s.boot.value)
    else if s.current.Some? then TaskWorks(s.profile, s.current.value)
    else Matches(s.profile)
  }

  /** Storage writes and PAC clears of the worker succeed. */
  predicate Reliable(s: State, c: Choice) {
    (c.PerformTask? && s.current.Some? ==> Succeeds(s.current.value.pc, c.o)) &&
    (c.PerformBoot? && s.boot.Some? ==> Succeeds(s.boot.value.pc, c.o))
  }

  predicate Succeeds(pc: Pc, o: Outcome) {
    CallOf(pc).StorageSet? || CallOf(pc).ProxyClear? ==> o.resolved && o.applied
  }

  lemma PerformWorks(p: Profile, pc: Pc, o: Outcome)
    requires Works(p, Frame(pc, None)) && Succeeds(pc, o)
    ensures Works(Performed(CallOf(pc), p, o), Frame(pc, Some(Answer(CallOf(pc), p, o))))
  {
  }

  lemma TaskPerforms(p: Profile, pc: Pc, o: Outcome)
    requires TaskWorks(p, Frame(pc, None)) && Succeeds(pc, o)
    ensures TaskWorks(Performed(CallOf(pc), p, o), Frame(pc, Some(Answer(CallOf(pc), p, o))))
  {
    PerformWorks(p, pc, o);
  }

  lemma BootPerforms(p: Profile, pc: Pc, o: Outcome)
    requires BootWorks(p, Frame(pc, None)) && BootPc(pc) && Succeeds(pc, o)
    ensures BootWorks(Performed(CallOf(pc), p, o), Frame(pc, Some(Answer(CallOf(pc), p, o))))
  {
    PerformWorks(p, pc, o);
  }

  ghost predicate GoesOn(p: Profile, n: Next) {
    if n.Go? then TaskWorks(p, Frame(n.pc, None)) else Matches(p)
  }

  lemma ReconcileGoesOn(p: Profile, caller: Caller, at: ReconcileAt, f: Flags, r: Reply)
    requires TaskWorks(p, Frame(Reconcile(caller, at), Some(r))) && !caller.AtBoot?
    ensures GoesOn(p, ResumeReconcile(caller, at, f, r).next)
  {
  }

  lemma ApplyGoesOn(p: Profile, caller: Caller, cfg: Config, at: ApplyAt, f: Flags, r: Reply)
    requires TaskWorks(p, Frame(Apply(caller, cfg, at), Some(r))) && !caller.AtBoot?
    ensures GoesOn(p, ResumeApply(caller, cfg, at, f, r).next)
  {
  }

  lemma ConnectGoesOn(p: Profile, cfg: Config, at: ConnectAt, f: Flags, r: Reply)
    requires TaskWorks(p, Frame(Connecting(cfg, at), Some(r)))
    ensures GoesOn(p, ResumeConnect(cfg, at, f, r).next)
  {
  }

  predicate RollsBack(s: SaveAt) {
    s.SStoreOld? || s.SOldRtc? || s.SOldIncognitoRtc? || s.SOldIncognitoProxy? || s.SSetOldPac? || s.SOldRereadProxy? ||
    s.SOldRereadIncognitoProxy? || s.SOldLastRtc? || s.SOldLastIncognitoRtc? || s.SDropPac?
  }

  lemma SaveGoesOn(p: Profile, connection: Connection, before: Stored<seq<string>>, next: seq<string>,
                   at: SaveAt, f: Flags, r: Reply)
    requires TaskWorks(p, Frame(Saving(connection, before, next, at), Some(r))) && !RollsBack(at)
    ensures GoesOn(p, ResumeSave(connection, before, next, at, f, r).next)
  {
  }

  predicate Restored(s: SaveAt) {
    s.SOldRereadIncognitoProxy? || s.SOldLastRtc? || s.SOldLastIncognitoRtc? || s.SDropPac?
  }

  /** The rollback only moves on with the old exclusions stored and, once it has
      re-read the PAC, with the old PAC in place. */
  lemma RollbackMoves(connection: Connection, before: Stored<seq<string>>, next: seq<string>,
                      at: SaveAt, f: Flags, r: Reply)
    requires RollsBack(at) && !Restored(at) && (at.SStoreOld? ==> !r.Rejected?)
    ensures var n := ResumeSave(connection, before, next, at, f, r).next;
      n.Go? && n.pc.Saving? && n.pc == Saving(connection, before, next, n.pc.s) && RollsBack(n.pc.s) &&
      !n.pc.s.SStoreOld? &&
      (Restored(n.pc.s) && !n.pc.s.SDropPac? ==>
         at.SOldRereadProxy? && ProxyEffective(r, BuildProxyConfig(Config(connection, ExclusionList(before)))))
  {
  }

  lemma RollbackGoesOn(p: Profile, connection: Connection, before: Stored<seq<string>>, next: seq<string>,
                       at: SaveAt, f: Flags, r: Reply)
    requires TaskWorks(p, Frame(Saving(connection, before, next, at), Some(r))) && RollsBack(at) && !Restored(at)
    ensures GoesOn(p, ResumeSave(connection, before, next, at, f, r).next)
  {
    hide ResumeSave;
    RollbackMoves(connection, before, next, at, f, r);
  }

  lemma RestoredGoesOn(p: Profile, connection: Connection, before: Stored<seq<string>>, next: seq<string>,
                       at: SaveAt, f: Flags, r: Reply)
    requires TaskWorks(p, Frame(Saving(connection, before, next, at), Some(r))) && Restored(at)
    ensures GoesOn(p, ResumeSave(connection, before, next, at, f, r).next)
  {
  }

  lemma ShortTaskGoesOn(p: Profile, pc: Pc, f: Flags, r: Reply, now: Epochs)
    requires TaskWorks(p, Frame(pc, Some(r))) && !BootPc(pc)
    requires !pc.Reconcile? && !pc.Apply? && !pc.Connecting? && !pc.Saving?
    ensures GoesOn(p, Resume(pc, f, r, now).next)
  {
    hide ResumeReconcile, ResumeApply, ResumeConnect, ResumeSave, StatusNext;
  }

  lemma TaskGoesOn(p: Profile, pc: Pc, f: Flags, r: Reply, now: Epochs)
    requires TaskWorks(p, Frame(pc, Some(r))) && !BootPc(pc)
    ensures GoesOn(p, Resume(pc, f, r, now).next)
  {
    hide TaskWorks, GoesOn, ResumeReconcile, ResumeApply, ResumeConnect, ResumeSave, ResumeClear, ResumeProxyChange;
    match pc
    case Reconcile(caller, at) => ReconcileGoesOn(p, caller, at, f, r);
    case Apply(caller, cfg, at) => ApplyGoesOn(p, caller, cfg, at, f, r);
    case Connecting(cfg, at) => ConnectGoesOn(p, cfg, at, f, r);
    case Saving(connection, before, next, at) =>
      if Restored(at) { RestoredGoesOn(p, connection, before, next, at, f, r); }
      else if RollsBack(at) { RollbackGoesOn(p, connection, before, next, at, f, r); }
      else { SaveGoesOn(p, connection, before, next, at, f, r); }
    case _ => ShortTaskGoesOn(p, pc, f, r, now);
  }

  lemma BootGoesOn(p: Profile, pc: Pc, f: Flags, r: Reply, now: Epochs)
    requires BootWorks(p, Frame(pc, Some(r))) && BootPc(pc)
    ensures var n := Resume(pc, f, r, now).next;
      if n.Go? then BootWorks(p, Frame(n.pc, None)) else Matches(p)
  {
  }

  lemma TaskStarts(p: Profile, t: Task, f: Flags, now: Epochs)
    requires Matches(p)
    ensures TaskWorks(p, Frame(Start(t, f, now).pc, None))
  {
  }

  /** Boot's work does not depend on the recorded error. */
  lemma RecordsAside(p: Profile, f: Frame, record: Option<ErrorRecord>)
    requires BootWorks(p, f)
    ensures BootWorks(p.(storage := p.storage.(proxyError := record)), f)
  {
  }

  lemma RecordPerforms(p: Profile, pc: Pc, o: Outcome)
    requires RecordPc(pc)
    ensures var q := Performed(CallOf(pc), p, o); q == p.(storage := p.storage.(proxyError := q.storage.proxyError))
  {
  }

  lemma OutsideAside(p: Profile, f: Frame, outside: Outside)
    ensures Works(p, f) ==> Works(p.(outside := outside), f)
    ensures Matches(p) <==> Matches(p.(outside := outside))
  {
  }

  lemma ConsistentStep(s: State, c: Choice)
    requires Shape(s) && Consistent(s) && Enabled(s, c) && Reliable(s, c)
    ensures Consistent(After(s, c))
  {
    hide Resume, Start, ResumedHandler, PerformedHandler, ErrorArrived, Moved, Works, Matches, Settled, Answer,
      Performed;
    if Bystander(c) {
      BystandersKeepTasks(s, c);
    } else {
      match c
      case OthersAct(outside) =>
        if s.boot.Some? { OutsideAside(s.profile, s.boot.value, outside); }
        if s.current.Some? { OutsideAside(s.profile, s.current.value, outside); }
        OutsideAside(s.profile, Frame(Settle, None), outside);
      case PerformBoot(o) => BootPerforms(s.profile, s.boot.value.pc, o);
      case ResumeBoot => ResumeBootConsistent(s);
      case PerformTask(o) =>
        if s.boot.Some? {
          RecordPerforms(s.profile, s.current.value.pc, o);
          RecordsAside(s.profile, s.boot.value, After(s, c).profile.storage.proxyError);
        } else {
          TaskPerforms(s.profile, s.current.value.pc, o);
        }
      case ResumeTask =>
        if s.boot.None? {
          TaskGoesOn(s.profile, s.current.value.pc, s.vars.flags, s.current.value.reply.value, s.vars.epochs);
        }
      case Begin =>
        if s.boot.None? {
          TaskStarts(s.profile, s.queue[0], s.vars.flags,
                     s.vars.epochs.(configuration := s.vars.epochs.configuration + 1));
        }
      case Die => FreshBootWorks(s.profile);
    }
  }

  lemma FreshBootWorks(p: Profile)
    ensures BootWorks(p, Frame(Reconcile(AtBoot, AccessLevel), None))
  {
  }

  lemma ResumeBootConsistent(s: State)
    requires Shape(s) && Consistent(s) && Enabled(s, ResumeBoot)
    ensures Consistent(ResumedBoot(s))
  {
    hide Resume;
    BootGoesOn(s.profile, s.boot.value.pc, s.vars.flags, s.boot.value.reply.value, s.vars.epochs);
  }

  /** Whatever was persisted, boot establishes and every task keeps the match,
      rollbacks and restarts included, while storage writes and PAC clears succeed. */
  lemma {:induction false} ConsistentAlways(states: seq<State>, choices: seq<Choice>, i: nat)
    requires WorkerRun(states, choices) && i <= |choices|
    requires forall k :: 0 <= k < i ==> Reliable(states[k], choices[k])
    ensures Consistent(states[i])
    ensures states[i].boot.None? && states[i].current.None? ==> Matches(states[i].profile)
  {
    hide After, Enabled, Matches, Works;
    if i == 0 {
      FreshBootWorks(states[0].profile);
    } else {
      ConsistentAlways(states, choices, i - 1);
      InvAlways(states, choices, i - 1);
      ConsistentStep(states[i - 1], choices[i - 1]);
    }
  }
}
