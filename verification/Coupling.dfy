/** The extension's PAC never outlives its WebRTC restriction. */
module Coupling {
  import opened Wrappers
  import opened Browser
  import opened Tasks
  import opened Worker

  predicate BootPc(pc: Pc) {
    match pc
    case Reconcile(caller, _) => caller.AtBoot?
    case Apply(caller, _, _) => caller.AtBoot?
    case _ => pc.BootDropPac? || pc.BootBadge?
  }

  predicate RecordPc(pc: Pc) {
    pc.RecordRead? || pc.RecordStore? || pc.RecordBadge?
  }

  /** Who may be active: boot shares the worker only with tasks that record proxy
      errors, and no handler has passed its `await boot` yet. */
  ghost predicate Shape(s: State) {
    s.vars.changing == s.current.Some? &&
    (s.current.Some? ==> !BootPc(s.current.value.pc)) &&
    (s.boot.Some? ==>
       BootPc(s.boot.value.pc) &&
       (s.current.Some? ==> RecordPc(s.current.value.pc)) &&
       (forall i :: 0 <= i < |s.queue| ==> s.queue[i].RecordProxyError?) &&
       s.handlers == map[])
  }

  predicate OwnRestriction(p: Profile) {
    p.ownRtc == Some(DisableNonProxiedUdp)
  }

  /** A PAC of this extension implies its WebRTC restriction. */
  predicate Coupled(p: Profile) {
    p.ownPac.Some? ==> OwnRestriction(p)
  }

  /** The task has seen its restriction in place and has not cleared it since. */
  predicate SawRestriction(pc: Pc) {
    match pc
    case Apply(_, _, a) =>
      a.ReadIncognitoRtc? || a.ReadProxy? || a.ReadIncognitoProxy? || a.SetPac? || a.RereadProxy? ||
      a.LastRtc? || a.LastIncognitoRtc? || a.LastIncognitoProxy? || a.AppliedBadge?
    case Connecting(_, c) =>
      c.CReadIncognitoRtc? || c.CSetPac? || c.CRereadProxy? || c.CRereadIncognitoProxy? || c.CLastRtc? ||
      c.CLastIncognitoRtc?
    case Saving(_, _, _, s) => !s.SReadProxy? && !s.SReadRtc? && !s.SRefuse?
    case _ => false
  }

  /** The task has cleared the PAC and has not set it since. */
  predicate DroppedPac(pc: Pc) {
    match pc
    case Reconcile(_, r) => r.DropRtc?
    case Connecting(_, c) => c.CDropRtc?
    case Disconnecting(_, d) => d.DDropRtc?
    case Importing(_, i) => i.IDropRtc?
    case _ => false
  }

  /** What a waiting task knows about the preferences, by its program point and reply. */
  predicate Knows(p: Profile, f: Frame) {
    (SawRestriction(f.pc) ==> OwnRestriction(p)) &&
    (DroppedPac(f.pc) ==> p.ownPac.None?) &&
    (f.reply.Some? ==>
       (CallOf(f.pc).ProxyClear? && !f.reply.value.Rejected? ==> p.ownPac.None?) &&
       (CallOf(f.pc) == RtcGet(false) && RtcRestricted(f.reply.value) ==> OwnRestriction(p)))
  }

  ghost predicate Inv(s: State) {
    Shape(s) &&
    (s.boot.Some? ==> Knows(s.profile, s.boot.value)) &&
    (s.current.Some? ==> Knows(s.profile, s.current.value))
  }

  lemma OwnSettingIsOurs(p: Profile)
    ensures Restricted(RtcIn(p, false)) ==> OwnRestriction(p)
    ensures forall expected :: Effective(ProxyIn(p, false), expected) ==> p.ownPac == Some(expected)
  {
  }

  lemma ReconcileKeepsKnowledge(p: Profile, caller: Caller, at: ReconcileAt, f: Flags, r: Reply)
    requires Knows(p, Frame(Reconcile(caller, at), Some(r)))
    ensures var n := ResumeReconcile(caller, at, f, r).next; n.Go? ==> Knows(p, Frame(n.pc, None))
  {
  }

  lemma ApplyKeepsKnowledge(p: Profile, caller: Caller, cfg: Config, at: ApplyAt, f: Flags, r: Reply)
    requires Knows(p, Frame(Apply(caller, cfg, at), Some(r)))
    ensures var n := ResumeApply(caller, cfg, at, f, r).next; n.Go? ==> Knows(p, Frame(n.pc, None))
  {
  }

  lemma ConnectKeepsKnowledge(p: Profile, cfg: Config, at: ConnectAt, f: Flags, r: Reply)
    requires Knows(p, Frame(Connecting(cfg, at), Some(r)))
    ensures var n := ResumeConnect(cfg, at, f, r).next; n.Go? ==> Knows(p, Frame(n.pc, None))
  {
  }

  lemma SaveKeepsKnowledge(p: Profile, connection: Connection, before: Stored<seq<string>>, next: seq<string>,
                           at: SaveAt, f: Flags, r: Reply)
    requires Knows(p, Frame(Saving(connection, before, next, at), Some(r)))
    ensures var n := ResumeSave(connection, before, next, at, f, r).next; n.Go? ==> Knows(p, Frame(n.pc, None))
  {
  }

  lemma ResumeKeepsKnowledge(p: Profile, pc: Pc, f: Flags, r: Reply, now: Epochs)
    requires Knows(p, Frame(pc, Some(r)))
    ensures var n := Resume(pc, f, r, now).next; n.Go? ==> Knows(p, Frame(n.pc, None))
  {
    match pc
    case Reconcile(caller, at) => ReconcileKeepsKnowledge(p, caller, at, f, r);
    case Apply(caller, cfg, at) => ApplyKeepsKnowledge(p, caller, cfg, at, f, r);
    case Connecting(cfg, at) => ConnectKeepsKnowledge(p, cfg, at, f, r);
    case Saving(connection, before, next, at) => SaveKeepsKnowledge(p, connection, before, next, at, f, r);
    case _ =>
  }

  predicate KeepsKind(pc: Pc, n: Next) {
    n.Go? ==> (BootPc(pc) <==> BootPc(n.pc)) && (RecordPc(pc) ==> RecordPc(n.pc))
  }

  lemma ReconcileKind(caller: Caller, at: ReconcileAt, f: Flags, r: Reply)
    ensures KeepsKind(Reconcile(caller, at), ResumeReconcile(caller, at, f, r).next)
  {
  }

  lemma ApplyKind(caller: Caller, cfg: Config, at: ApplyAt, f: Flags, r: Reply)
    ensures KeepsKind(Apply(caller, cfg, at), ResumeApply(caller, cfg, at, f, r).next)
  {
  }

  lemma ConnectKind(cfg: Config, at: ConnectAt, f: Flags, r: Reply)
    ensures KeepsKind(Connecting(cfg, at), ResumeConnect(cfg, at, f, r).next)
  {
  }

  lemma SaveKind(c: Connection, before: Stored<seq<string>>, next: seq<string>, at: SaveAt, f: Flags, r: Reply)
    ensures KeepsKind(Saving(c, before, next, at), ResumeSave(c, before, next, at, f, r).next)
  {
  }

  lemma ResumeKind(pc: Pc, f: Flags, r: Reply, now: Epochs)
    ensures KeepsKind(pc, Resume(pc, f, r, now).next)
  {
    hide ResumeReconcile, ResumeApply, ResumeConnect, ResumeSave;
    match pc
    case Reconcile(caller, at) => ReconcileKind(caller, at, f, r);
    case Apply(caller, cfg, at) => ApplyKind(caller, cfg, at, f, r);
    case Connecting(cfg, at) => ConnectKind(cfg, at, f, r);
    case Saving(c, before, next, at) => SaveKind(c, before, next, at, f, r);
    case _ =>
  }

  lemma ShapeStep(s: State, c: Choice)
    requires Shape(s) && Enabled(s, c)
    ensures Shape(After(s, c))
  {
    hide Resume;
    match c
    case ResumeBoot => ResumeKind(s.boot.value.pc, s.vars.flags, s.boot.value.reply.value, s.vars.epochs);
    case ResumeTask => ResumeKind(s.current.value.pc, s.vars.flags, s.current.value.reply.value, s.vars.epochs);
    case _ =>
  }

  /** Steps of handlers and events touch neither preferences nor running tasks. */
  predicate Bystander(c: Choice) {
    c.Message? || c.ProxySettingEvent? || c.RtcSettingEvent? || c.Release? || c.ProxyError? || c.AuthRequired? ||
    c.TestIp? || c.PerformHandler? || c.ResumeHandler? || c.RequestDone?
  }

  lemma BystandersKeepTasks(s: State, c: Choice)
    requires Enabled(s, c) && Bystander(c)
    ensures var t := After(s, c);
      t.profile == s.profile && t.boot == s.boot && t.current == s.current &&
      t.vars.epochs.configuration == s.vars.epochs.configuration && t.vars.changing == s.vars.changing
  {
    hide Answer, HandlerCall;
  }

  lemma InvStep(s: State, c: Choice)
    requires Inv(s) && Enabled(s, c)
    ensures Inv(After(s, c))
    ensures Coupled(s.profile) ==> Coupled(After(s, c).profile)
  {
    hide Resume, ResumedHandler;
    ShapeStep(s, c);
    if Bystander(c) {
      BystandersKeepTasks(s, c);
    } else {
      match c
      case PerformBoot(o) => PerformStep(s.profile, s.boot.value.pc, o);
      case PerformTask(o) => PerformStep(s.profile, s.current.value.pc, o);
      case ResumeBoot =>
        ResumeKeepsKnowledge(s.profile, s.boot.value.pc, s.vars.flags, s.boot.value.reply.value, s.vars.epochs);
      case ResumeTask =>
        ResumeKeepsKnowledge(s.profile, s.current.value.pc, s.vars.flags, s.current.value.reply.value, s.vars.epochs);
      case _ =>
    }
  }

  lemma PerformStep(p: Profile, pc: Pc, o: Outcome)
    requires Knows(p, Frame(pc, None)) && Possible(CallOf(pc), o)
    ensures var call := CallOf(pc);
      Knows(Performed(call, p, o), Frame(pc, Some(Answer(call, p, o)))) &&
      (Coupled(p) ==> Coupled(Performed(call, p, o))) &&
      (RecordPc(pc) ==> Performed(call, p, o) == p.(storage := Performed(call, p, o).storage))
  {
  }

  /** In every run from a fresh worker, whoever acts and whatever fails or dies,
      each task knows what it relies on. */
  lemma {:induction false} InvAlways(states: seq<State>, choices: seq<Choice>, i: nat)
    requires Run(states, choices) && states[0] == Started(states[0].profile) && i <= |choices|
    ensures Inv(states[i])
  {
    hide After, Enabled;
    if i == 0 {
    } else {
      InvAlways(states, choices, i - 1);
      InvStep(states[i - 1], choices[i - 1]);
    }
  }

  /** Once the PAC implies the restriction, it does at every later step. */
  lemma {:induction false} CoupledForever(states: seq<State>, choices: seq<Choice>, i: nat, j: nat)
    requires Run(states, choices) && states[0] == Started(states[0].profile) && i <= j <= |choices|
    requires Coupled(states[i].profile)
    ensures Coupled(states[j].profile)
    decreases j
  {
    hide After, Enabled;
    if i == j {
    } else {
      CoupledForever(states, choices, i, j - 1);
      InvAlways(states, choices, j - 1);
      InvStep(states[j - 1], choices[j - 1]);
    }
  }

  /** Boot's last PAC clear does nothing while the PAC stands without a restriction. */
  predicate GaveUp(s: State, c: Choice) {
    c.PerformBoot? && !c.o.applied && s.boot.Some? && s.boot.value.pc.BootDropPac? && !Coupled(s.profile)
  }

  ghost predicate GaveUpBefore(states: seq<State>, choices: seq<Choice>, i: nat)
    requires i <= |choices| < |states|
  {
    exists k :: 0 <= k < i && GaveUp(states[k], choices[k])
  }

  /** How far boot has come towards coupling the preferences. */
  ghost predicate BootProgress(s: State, gaveUp: bool) {
    match s.boot
    case None => gaveUp <==> !Coupled(s.profile)
    case Some(f) =>
      if f.pc.BootBadge? || (f.pc.BootDropPac? && f.reply.Some?) then gaveUp <==> !Coupled(s.profile)
      else !gaveUp && (f.pc == Reconcile(AtBoot, Badge) ==> Coupled(s.profile))
  }

  lemma BootStep(s: State, c: Choice, gaveUp: bool)
    requires Inv(s) && s.boot.Some? && Enabled(s, c) && !c.Die? && BootProgress(s, gaveUp)
    ensures BootProgress(After(s, c), gaveUp || GaveUp(s, c))
  {
    hide ResumedHandler;
    if Bystander(c) {
      BystandersKeepTasks(s, c);
    } else {
      match c
      case PerformTask(o) => PerformStep(s.profile, s.current.value.pc, o);
      case PerformBoot(o) => PerformStep(s.profile, s.boot.value.pc, o);
      case ResumeBoot =>
        ResumeKeepsKnowledge(s.profile, s.boot.value.pc, s.vars.flags, s.boot.value.reply.value, s.vars.epochs);
      case _ =>
    }
  }

  /** From any persisted preferences, boot ends coupled exactly when it did not give up. */
  lemma {:induction false} BootCouples(states: seq<State>, choices: seq<Choice>, i: nat)
    requires Run(states, choices) && states[0] == Started(states[0].profile) && i <= |choices|
    requires forall k :: 0 <= k < i ==> states[k].boot.Some? && !choices[k].Die?
    ensures BootProgress(states[i], GaveUpBefore(states, choices, i))
    ensures states[i].boot.None? ==> (Coupled(states[i].profile) <==> !GaveUpBefore(states, choices, i))
  {
    hide After, Enabled;
    if i == 0 {
    } else {
      BootCouples(states, choices, i - 1);
      InvAlways(states, choices, i - 1);
      BootStep(states[i - 1], choices[i - 1], GaveUpBefore(states, choices, i - 1));
    }
  }

  lemma FailedBootStep(p: Profile, pc: Pc)
    requires pc == Reconcile(AtBoot, AccessLevel) || pc == BootDropPac || pc == BootBadge
    ensures Possible(CallOf(pc), FAILED) && Performed(CallOf(pc), p, FAILED) == p
    ensures Answer(CallOf(pc), p, FAILED) == Rejected
    ensures Resume(pc, Flags(false, false), Rejected, Epochs(0, 0, 0)).flags == Flags(false, false)
    ensures Resume(pc, Flags(false, false), Rejected, Epochs(0, 0, 0)).next ==
      if pc.BootBadge? then Stop(true) else Go(if pc.BootDropPac? then BootBadge else BootDropPac)
  {
  }

  function BootingAt(p: Profile, f: Option<Frame>): State {
    Started(p).(boot := f)
  }

  lemma FailedBootSteps(p: Profile, pc: Pc)
    requires pc == Reconcile(AtBoot, AccessLevel) || pc == BootDropPac || pc == BootBadge
    ensures var s := BootingAt(p, Some(Frame(pc, None)));
      Enabled(s, PerformBoot(FAILED)) && After(s, PerformBoot(FAILED)) == BootingAt(p, Some(Frame(pc, Some(Rejected))))
    ensures var s := BootingAt(p, Some(Frame(pc, Some(Rejected))));
      var next := Resume(pc, Flags(false, false), Rejected, Epochs(0, 0, 0)).next;
      Enabled(s, ResumeBoot) &&
      After(s, ResumeBoot) == BootingAt(p, if next.Go? then Some(Frame(next.pc, None)) else None)
  {
    FailedBootStep(p, pc);
    hide Resume, Possible, Performed, Answer, CallOf;
  }

  /** Boot does not always couple the preferences: from every persisted PAC without a
      restriction, a boot whose calls all fail ends with that PAC still standing. */
  lemma BootMayGiveUp(p: Profile) returns (states: seq<State>, choices: seq<Choice>)
    requires !Coupled(p)
    ensures Run(states, choices) && states[0] == Started(p)
    ensures states[|choices|].boot.None? && !Coupled(states[|choices|].profile)
  {
    var first := Reconcile(AtBoot, AccessLevel);
    FailedBootSteps(p, first);
    FailedBootSteps(p, BootDropPac);
    FailedBootSteps(p, BootBadge);
    FailedBootStep(p, first);
    FailedBootStep(p, BootDropPac);
    FailedBootStep(p, BootBadge);
    hide After, Enabled, Resume, Possible, Performed, Answer, CallOf;
    choices := [PerformBoot(FAILED), ResumeBoot, PerformBoot(FAILED), ResumeBoot, PerformBoot(FAILED), ResumeBoot];
    states := [BootingAt(p, Some(Frame(first, None))), BootingAt(p, Some(Frame(first, Some(Rejected)))),
               BootingAt(p, Some(Frame(BootDropPac, None))), BootingAt(p, Some(Frame(BootDropPac, Some(Rejected)))),
               BootingAt(p, Some(Frame(BootBadge, None))), BootingAt(p, Some(Frame(BootBadge, Some(Rejected)))),
               BootingAt(p, None)];
    assert states[0] == Started(p);
  }
}
