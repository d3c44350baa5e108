/** A worker left alone, in whatever state, comes to rest: the tasks that the extension's own
    setting changes trigger die out. */
module Settling {
  import opened Wrappers
  import opened Browser
  import opened Tasks
  import opened Worker
  import opened Coupling
  import opened Handlers
  import opened Answers
  import opened Ranks

  /** A worker left alone: change events still to be delivered are those its own
      setting changes have caused, at most two (regular and incognito) each. */
  datatype Left = Left(s: State, proxyEvents: nat, rtcEvents: nat)

  const EVENTS: nat := 2

  predicate ReactionPc(pc: Pc) {
    match pc
    case Reconcile(caller, _) => !caller.AtBoot?
    case Apply(caller, _, _) => !caller.AtBoot?
    case ProxyChange(_) => true
    case _ => false
  }

  /** Nobody else acts, no call of boot or of a task fails, and a change event needs a cause. */
  predicate LeftEnabled(x: Left, c: Choice) {
    Enabled(x.s, c) &&
    match c
    case PerformBoot(o) => o.applied && o.resolved
    case PerformTask(o) => o.applied && o.resolved
    case ResumeBoot | ResumeTask | Begin | Release => true
    case PerformHandler(_, _, _) => true
    case ResumeHandler(_, _) => true
    case ProxySettingEvent => x.proxyEvents > 0
    case RtcSettingEvent => x.rtcEvents > 0
    case _ => false
  }

  function LeftAfter(x: Left, c: Choice): Left
    requires LeftEnabled(x, c)
  {
    var t := After(x.s, c);
    Left(t,
         if c.ProxySettingEvent? then x.proxyEvents - 1
         else if t.profile.ownPac != x.s.profile.ownPac then x.proxyEvents + EVENTS else x.proxyEvents,
         if c.RtcSettingEvent? then x.rtcEvents - 1
         else if t.profile.ownRtc != x.s.profile.ownRtc then x.rtcEvents + EVENTS else x.rtcEvents)
  }

  /** The surroundings in which onChange may restore the PAC. */
  predicate RestorePossible(o: Outside) {
    o.incognitoAllowed && o.proxy.None? && (o.incognitoProxy.Some? ==> o.incognitoProxy.value.level.Controllable?)
  }

  predicate IncognitoOpen(o: Outside) {
    o.incognitoAllowed && (o.incognitoProxy.Some? ==> o.incognitoProxy.value.level.Controllable?)
  }

  predicate StateFits(o: Outside, i: IncognitoState) {
    (i.level == Some(Controllable) ==> IncognitoOpen(o)) && (RestorePossible(o) ==> i.controllable)
  }

  /** What a running reaction knows about its unchanging surroundings. */
  ghost predicate Fits(p: Profile, flags: Flags, f: Frame) {
    (f.reply.Some? ==>
       !f.reply.value.Rejected? &&
       (f.reply.value.Data? ==> f.reply.value.data == p.storage) &&
       (CallOf(f.pc).IncognitoProxy? ==>
          forall expected :: StateFits(p.outside, IncognitoProxyState(f.reply.value, expected))) &&
       (CallOf(f.pc) == ProxyGet(false) && f.reply.value.ProxyIs? && f.reply.value.proxy.level.Controllable? ==>
          p.outside.proxy.None?)) &&
    match f.pc
    case Reconcile(_, r) => r.StoreDisabled? || r.DropPac? || r.DropRtc? ==> !Active(p.storage)
    case Apply(_, _, _) => Active(p.storage)
    case ProxyChange(at) =>
      (match at
       case PReadProxy(_, i) => StateFits(p.outside, i)
       case PDropPac(i, regular) =>
         StateFits(p.outside, i) && (regular.Controllable? ==> p.outside.proxy.None?)
       case PReadRtc => flags.restore && RestorePossible(p.outside)
       case PReadIncognitoRtc => flags.restore && RestorePossible(p.outside)
       case _ => true)
    case _ => true
  }

  /** A reaction is running and what it has read is how things are. */
  ghost predicate Steady(s: State) {
    s.current.Some? && ReactionPc(s.current.value.pc) && Fits(s.profile, s.vars.flags, s.current.value)
  }

  /** What every reachable state has, whatever is queued or running in it. */
  ghost predicate Frozen(x: Left) {
    Shape(x.s) && forall i :: 0 <= i < |x.s.waiting| ==> Reaction(x.s.waiting[i])
  }

  lemma ReachableIsFrozen(states: seq<State>, choices: seq<Choice>, i: nat, proxyEvents: nat, rtcEvents: nat)
    requires WorkerRun(states, choices) && i <= |choices|
    ensures Frozen(Left(states[i], proxyEvents, rtcEvents))
  {
    AllInvAlways(states, choices, i);
    hide HandlersOk, After, Enabled;
  }

  function BootWork(s: State): nat {
    if s.boot.Some? then FrameWork(s.boot.value) else 0
  }

  ghost function CurrentWork(s: State): nat {
    if s.current.None? || Steady(s) then 0 else FrameWork(s.current.value)
  }

  /** The work of everything but reactions that know their surroundings: boot, commands and
      other tasks, handlers, and a reaction that has read what was true before. */
  ghost function Stray(s: State): nat {
    BootWork(s) + CurrentWork(s) + QueueWork(s.queue) + HandlersWork(s.handlers)
  }

  /** Tasks of one kind in a queue. */
  function Count(q: seq<Task>, t: Task): nat {
    if q == [] then 0 else Bit(q[0] == t) + Count(q[1..], t)
  }

  /** How far a running reconciliation, or a running proxy reaction, still is from its end. */
  function ReconcileLeft(f: Frame): nat {
    match f.pc
    case Reconcile(_, r) => 2 * ReconcileRank(r) + Bit(f.reply.None?)
    case Apply(_, _, a) => 2 * ApplyRank(a) + Bit(f.reply.None?)
    case _ => 0
  }

  function ChangeLeft(f: Frame): nat {
    if f.pc.ProxyChange? then 2 * ChangeRank(f.pc.p) + Bit(f.reply.None?) else 0
  }

  /** The WebRTC preference is not yet what the stored configuration asks for. */
  predicate RtcUnsettled(p: Profile) {
    if Active(p.storage) then !OwnRestriction(p) else p.ownRtc.Some?
  }

  predicate Restorable(s: State) {
    s.vars.flags.restore && RestorePossible(s.profile.outside)
  }

  /** Reactions of one kind: to come, waiting for boot, and queued. */
  function Pending(events: nat, waiting: seq<Task>, queue: seq<Task>, t: Task): nat {
    4 * events + 3 * Count(waiting, t) + 2 * Count(queue, t)
  }

  function Measure(x: Left): nat {
    var s := x.s;
    17000 * Bit(Restorable(s)) + 66000 * Bit(RtcUnsettled(s.profile)) +
    8200 * Pending(x.rtcEvents, s.waiting, s.queue, RtcChanged) +
    (if s.current.Some? then 200 * ReconcileLeft(s.current.value) else 0) +
    100 * Bit(s.profile.ownPac.Some?) +
    10 * Pending(x.proxyEvents, s.waiting, s.queue, ProxyChanged) +
    (if s.current.Some? then ChangeLeft(s.current.value) else 0)
  }

  lemma PerformFits(p: Profile, flags: Flags, pc: Pc, o: Outcome)
    requires ReactionPc(pc) && Fits(p, flags, Frame(pc, None)) && o.applied && o.resolved
    ensures Fits(Performed(CallOf(pc), p, o), flags, Frame(pc, Some(Answer(CallOf(pc), p, o))))
  {
  }

  lemma ResumeFits(p: Profile, pc: Pc, f: Flags, r: Reply, now: Epochs)
    requires ReactionPc(pc) && Fits(p, f, Frame(pc, Some(r)))
    ensures var step := Resume(pc, f, r, now);
      step.next.Go? ==> ReactionPc(step.next.pc) && Fits(p, step.flags, Frame(step.next.pc, None))
  {
  }

  lemma {:induction false} CountAppend(q: seq<Task>, u: Task, t: Task)
    ensures Count(q + [u], t) == Count(q, t) + Bit(u == t)
  {
    if q == [] {
      assert q + [u] == [u];
    } else {
      assert (q + [u])[1..] == q[1..] + [u];
      CountAppend(q[1..], u, t);
    }
  }

  /** A proxy reaction only ever drops the PAC, and a changed WebRTC preference is
      then the one the configuration asks for. */
  lemma PerformEffects(p: Profile, flags: Flags, pc: Pc, o: Outcome)
    requires ReactionPc(pc) && Fits(p, flags, Frame(pc, None)) && o.applied && o.resolved
    ensures var q := Performed(CallOf(pc), p, o);
      q.outside == p.outside &&
      (q.ownPac != p.ownPac && pc.ProxyChange? ==> p.ownPac.Some? && q.ownPac.None?) &&
      (q.ownRtc != p.ownRtc ==> RtcUnsettled(p) && !RtcUnsettled(q)) &&
      (q.ownRtc == p.ownRtc ==> RtcUnsettled(q) == RtcUnsettled(p)) &&
      (q.ownRtc != p.ownRtc ==> !pc.ProxyChange? && q.ownPac == p.ownPac)
  {
  }

  ghost predicate Shrinks(p: Profile, f: Flags, pc: Pc, r: Reply, step: Step) {
    (step.flags.restore && RestorePossible(p.outside) ==> f.restore) &&
    (step.next.Go? ==>
       var n := Frame(step.next.pc, None);
       if pc.ProxyChange? then
         if n.pc.ProxyChange? then ChangeRank(n.pc.p) < ChangeRank(pc.p)
         else n.pc.Reconcile? && f.restore && RestorePossible(p.outside) && !step.flags.restore
       else
         if n.pc.ProxyChange? then n.pc.p.PBadge?
         else ReconcileLeft(n) < ReconcileLeft(Frame(pc, Some(r))))
  }

  lemma ApplyShrinks(p: Profile, caller: Caller, cfg: Config, at: ApplyAt, f: Flags, r: Reply)
    requires Fits(p, f, Frame(Apply(caller, cfg, at), Some(r))) && !caller.AtBoot?
    ensures Shrinks(p, f, Apply(caller, cfg, at), r, ResumeApply(caller, cfg, at, f, r))
  {
    if at.ReadIncognitoProxy? {
      assert StateFits(p.outside, IncognitoProxyState(r, BuildProxyConfig(cfg)));
    }
  }

  lemma ProxyChangeShrinks(p: Profile, at: ProxyChangeAt, f: Flags, r: Reply)
    requires Fits(p, f, Frame(ProxyChange(at), Some(r)))
    ensures Shrinks(p, f, ProxyChange(at), r, ResumeProxyChange(at, f, r))
  {
  }

  /** Every stretch lowers the rank; only a restore turns a proxy reaction into a
      reconciliation, and it uses up the permission to restore. */
  lemma ResumeRanks(p: Profile, pc: Pc, f: Flags, r: Reply, now: Epochs)
    requires ReactionPc(pc) && Fits(p, f, Frame(pc, Some(r)))
    ensures Shrinks(p, f, pc, r, Resume(pc, f, r, now))
  {
    hide ResumeApply, ResumeProxyChange, ResumeConnect, ResumeSave;
    match pc
    case Apply(caller, cfg, at) => ApplyShrinks(p, caller, cfg, at, f, r);
    case ProxyChange(at) => ProxyChangeShrinks(p, at, f, r);
    case _ =>
  }

  lemma PerformShrinks(x: Left, o: Outcome)
    requires Steady(x.s) && LeftEnabled(x, PerformTask(o))
    ensures Steady(LeftAfter(x, PerformTask(o)).s) && Measure(LeftAfter(x, PerformTask(o))) < Measure(x)
  {
    hide Fits, Performed, Answer, CallOf, RtcUnsettled, RestorePossible;
    PerformFits(x.s.profile, x.s.vars.flags, x.s.current.value.pc, o);
    PerformEffects(x.s.profile, x.s.vars.flags, x.s.current.value.pc, o);
  }

  lemma ResumeShrinks(x: Left)
    requires Steady(x.s) && LeftEnabled(x, ResumeTask)
    ensures var t := LeftAfter(x, ResumeTask).s; (t.current.Some? ==> Steady(t)) && t.handlers == x.s.handlers
    ensures Measure(LeftAfter(x, ResumeTask)) < Measure(x)
  {
    hide Fits, Resume, RtcUnsettled, RestorePossible;
    var f := x.s.current.value;
    ResumeFits(x.s.profile, f.pc, x.s.vars.flags, f.reply.value, x.s.vars.epochs);
    ResumeRanks(x.s.profile, f.pc, x.s.vars.flags, f.reply.value, x.s.vars.epochs);
  }

  lemma BeginShrinks(x: Left)
    requires LeftEnabled(x, Begin) && Reaction(x.s.queue[0])
    ensures var t := LeftAfter(x, Begin).s; Steady(t) && t.handlers == x.s.handlers
    ensures Measure(LeftAfter(x, Begin)) < Measure(x)
  {
    hide RtcUnsettled, RestorePossible;
  }

  lemma ReleaseShrinks(x: Left)
    requires LeftEnabled(x, Release)
    ensures Measure(LeftAfter(x, Release)) <= Measure(x)
    ensures Reaction(x.s.waiting[0]) ==> Measure(LeftAfter(x, Release)) < Measure(x)
  {
    hide RtcUnsettled, RestorePossible, Fits, ReconcileLeft, ChangeLeft;
    CountAppend(x.s.queue, x.s.waiting[0], ProxyChanged);
    CountAppend(x.s.queue, x.s.waiting[0], RtcChanged);
  }

  lemma EventShrinks(x: Left, c: Choice)
    requires LeftEnabled(x, c) && (c.ProxySettingEvent? || c.RtcSettingEvent?)
    ensures Measure(LeftAfter(x, c)) < Measure(x)
  {
    hide RtcUnsettled, RestorePossible, Fits, ReconcileLeft, ChangeLeft;
    var t := if c.ProxySettingEvent? then ProxyChanged else RtcChanged;
    CountAppend(x.s.waiting, t, ProxyChanged);
    CountAppend(x.s.waiting, t, RtcChanged);
  }

  /** Reactions still to run, on the scale of Measure. */
  function Backlog(x: Left): nat {
    8200 * Pending(x.rtcEvents, x.s.waiting, x.s.queue, RtcChanged) +
    10 * Pending(x.proxyEvents, x.s.waiting, x.s.queue, ProxyChanged)
  }

  /** More than one step can add to Measure. */
  const BURST: nat := 160000

  lemma BacklogBounds(x: Left)
    ensures Backlog(x) <= Measure(x) < Backlog(x) + 93000
  {
    hide Pending, RtcUnsettled, Restorable;
  }

  lemma ClearedQueuesNothing(v: Vars, it: Handler)
    requires it.at.TestCleared?
    ensures !HandlerMove(v, it).TestQueued?
  {
  }

  lemma QueueGrows(x: Left, h: nat, at: int)
    requires LeftEnabled(x, ResumeHandler(h, at))
    ensures var s, t := x.s, LeftAfter(x, ResumeHandler(h, at)).s;
      (forall u :: Reaction(u) ==> Count(t.queue, u) == Count(s.queue, u)) &&
      QueueWork(t.queue) <= QueueWork(s.queue) + TASK_WORK &&
      (s.handlers[h].at.TestCleared? ==> t.queue == s.queue) &&
      t.waiting == s.waiting && t.boot == s.boot && t.current == s.current && t.profile == s.profile &&
      t.vars.flags == s.vars.flags && t.handlers == s.handlers[h := Waiting(HandlerMove(s.vars, s.handlers[h]))]
  {
    hide HandlerMove, RefusedAgain;
    if x.s.handlers[h].at.TestCleared? { ClearedQueuesNothing(x.s.vars, x.s.handlers[h]); }
    var q := LeftAfter(x, ResumeHandler(h, at)).s.queue;
    if q != x.s.queue {
      var task := q[|x.s.queue|];
      assert q == x.s.queue + [task] && !Reaction(task);
      QueueWorkAppend(x.s.queue, task);
      forall u | Reaction(u) ensures Count(q, u) == Count(x.s.queue, u) { CountAppend(x.s.queue, task, u); }
    }
  }

  lemma BacklogRises(x: Left, c: Choice)
    requires LeftEnabled(x, c) && !c.Release? && !c.ProxySettingEvent? && !c.RtcSettingEvent?
    ensures Backlog(LeftAfter(x, c)) <= Backlog(x) + 65680
  {
    hide HandlerMove, Resume, Answer, Performed, ResumedHandler, Settled;
    match c
    case ResumeHandler(h, at) => QueueGrows(x, h, at);
    case _ =>
  }

  lemma RisesLittle(x: Left, c: Choice)
    requires LeftEnabled(x, c)
    ensures Measure(LeftAfter(x, c)) < Measure(x) + BURST
  {
    BacklogBounds(x);
    BacklogBounds(LeftAfter(x, c));
    hide LeftAfter, Measure, Backlog;
    match c
    case Release => ReleaseShrinks(x);
    case ProxySettingEvent => EventShrinks(x, c);
    case RtcSettingEvent => EventShrinks(x, c);
    case _ => BacklogRises(x, c);
  }

  lemma BootFalls(s: State, c: Choice)
    requires Shape(s) && Enabled(s, c) && (c.PerformBoot? || c.ResumeBoot?)
    ensures Stray(After(s, c)) < Stray(s)
  {
    hide Resume, Answer, Performed, CallOf, Rank, Fits, HandlersWork;
    if c.ResumeBoot? { RankFalls(s.boot.value.pc, s.vars.flags, s.boot.value.reply.value, s.vars.epochs); }
    RankBounds(s.boot.value.pc);
  }

  lemma PerformFalls(s: State, o: Outcome)
    requires Enabled(s, PerformTask(o)) && !Steady(s)
    ensures Stray(After(s, PerformTask(o))) < Stray(s)
  {
    hide Answer, Performed, CallOf, Rank, Fits, HandlersWork;
    RankBounds(s.current.value.pc);
  }

  lemma ResumeFalls(s: State)
    requires Enabled(s, ResumeTask) && !Steady(s)
    ensures Stray(After(s, ResumeTask)) < Stray(s)
  {
    hide Resume, Rank, Fits, HandlersWork, Put;
    var f := s.current.value;
    RankFalls(f.pc, s.vars.flags, f.reply.value, s.vars.epochs);
    RankBounds(f.pc);
    if f.pc.Clearing? {
      PutWork(s.handlers, f.pc.handler, TestCleared(f.pc.sample));
      PutWork(s.handlers, f.pc.handler, TestThrew);
    }
  }

  lemma BeginFalls(s: State)
    requires Enabled(s, Begin) && !Reaction(s.queue[0])
    ensures Stray(After(s, Begin)) < Stray(s)
  {
    hide Start, Rank, Fits, HandlersWork, Put;
    RankBounds(Start(s.queue[0], s.vars.flags, s.vars.epochs.(configuration := s.vars.epochs.configuration + 1)).pc);
    if s.queue[0].ClearTestedError? { PutWork(s.handlers, s.queue[0].handler, TestThrew); }
  }

  lemma HandlerPerforms(s: State, h: nat, second: bool, o: Outcome)
    requires Enabled(s, PerformHandler(h, second, o))
    ensures Stray(After(s, PerformHandler(h, second, o))) < Stray(s)
  {
    hide Answer, Fits, HandlersWork, FrameWork;
    var t := After(s, PerformHandler(h, second, o));
    MovedWork(s.handlers, h, t.handlers[h]);
  }

  lemma HandlerResumes(x: Left, h: nat, at: int)
    requires LeftEnabled(x, ResumeHandler(h, at))
    ensures Stray(LeftAfter(x, ResumeHandler(h, at)).s) < Stray(x.s)
  {
    QueueGrows(x, h, at);
    HandlerFalls(x.s.vars, x.s.handlers[h]);
    MovedWork(x.s.handlers, h, Waiting(HandlerMove(x.s.vars, x.s.handlers[h])));
    hide After, Enabled, Fits, HandlersWork, HandlerMove, FrameWork, QueueWork;
  }

  lemma FrozenStep(x: Left, c: Choice)
    requires Frozen(x) && LeftEnabled(x, c)
    ensures Frozen(LeftAfter(x, c))
  {
    ShapeStep(x.s, c);
    hide Shape, Answer, Performed, Resume, HandlerMove, HandlerCall, Start;
  }

  /** The steps a worker left alone takes at most. */
  ghost function Total(x: Left): nat {
    BURST * Stray(x.s) + Measure(x)
  }

  lemma QueueKeepsStray(x: Left, c: Choice)
    requires Frozen(x) && LeftEnabled(x, c)
    requires c.Release? || c.ProxySettingEvent? || c.RtcSettingEvent?
    ensures Stray(LeftAfter(x, c).s) == Stray(x.s)
  {
    hide FrameWork, Fits, HandlersWork;
    if c.Release? { QueueWorkAppend(x.s.queue, x.s.waiting[0]); }
  }

  lemma SteadyKeepsStray(x: Left, c: Choice)
    requires LeftEnabled(x, c) && Shape(x.s)
    requires if c.Begin? then Reaction(x.s.queue[0]) else (c.PerformTask? || c.ResumeTask?) && Steady(x.s)
    ensures Stray(LeftAfter(x, c).s) == Stray(x.s) && Measure(LeftAfter(x, c)) < Measure(x)
  {
    match c
    case PerformTask(o) => PerformShrinks(x, o);
    case ResumeTask => ResumeShrinks(x);
    case Begin => BeginShrinks(x);
    hide FrameWork, Fits, HandlersWork, Measure, Resume, Answer, Performed, Settled;
  }

  /** No step adds to the stray work, and one that takes none of it lowers the measure. */
  lemma LeftStep(x: Left, c: Choice)
    requires Frozen(x) && LeftEnabled(x, c)
    ensures Frozen(LeftAfter(x, c))
    ensures Stray(LeftAfter(x, c).s) <= Stray(x.s)
    ensures Stray(LeftAfter(x, c).s) == Stray(x.s) ==> Measure(LeftAfter(x, c)) < Measure(x)
  {
    FrozenStep(x, c);
    hide Measure, After, Stray, Steady;
    match c
    case PerformTask(o) => if Steady(x.s) { SteadyKeepsStray(x, c); } else { PerformFalls(x.s, o); }
    case ResumeTask => if Steady(x.s) { SteadyKeepsStray(x, c); } else { ResumeFalls(x.s); }
    case Begin => if Reaction(x.s.queue[0]) { SteadyKeepsStray(x, c); } else { BeginFalls(x.s); }
    case Release =>
      QueueKeepsStray(x, c);
      ReleaseShrinks(x);
    case ProxySettingEvent =>
      QueueKeepsStray(x, c);
      EventShrinks(x, c);
    case RtcSettingEvent =>
      QueueKeepsStray(x, c);
      EventShrinks(x, c);
    case PerformHandler(h, second, o) => HandlerPerforms(x.s, h, second, o);
    case ResumeHandler(h, at) => HandlerResumes(x, h, at);
    case _ => BootFalls(x.s, c);
  }

  ghost predicate LeftSteps(xs: seq<Left>, choices: seq<Choice>) {
    |xs| == |choices| + 1 &&
    forall i :: 0 <= i < |choices| ==> LeftEnabled(xs[i], choices[i]) && xs[i + 1] == LeftAfter(xs[i], choices[i])
  }

  /** A worker left alone in the midst of whatever it was doing. */
  ghost predicate LeftRun(xs: seq<Left>, choices: seq<Choice>) {
    LeftSteps(xs, choices) && Frozen(xs[0])
  }

  /** No clear and reapply loop: a worker left alone takes a bounded number of steps. */
  lemma {:induction false} ReactionsDieOut(xs: seq<Left>, choices: seq<Choice>, i: nat)
    requires LeftRun(xs, choices) && i <= |choices|
    ensures Frozen(xs[i]) && Total(xs[i]) + i <= Total(xs[0])
  {
    hide LeftAfter, LeftEnabled, Frozen, Measure, Stray;
    if i == 0 {
    } else {
      ReactionsDieOut(xs, choices, i - 1);
      LeftStep(xs[i - 1], choices[i - 1]);
      RisesLittle(xs[i - 1], choices[i - 1]);
    }
  }

  /** The same from any state of any run: once everybody else stops, so does the worker. */
  lemma ComesToRest(states: seq<State>, before: seq<Choice>, xs: seq<Left>, choices: seq<Choice>)
    requires WorkerRun(states, before) && LeftSteps(xs, choices) && xs[0].s == states[|before|]
    ensures |choices| <= Total(xs[0])
  {
    ReachableIsFrozen(states, before, |before|, xs[0].proxyEvents, xs[0].rtcEvents);
    hide LeftAfter, LeftEnabled, Frozen, Total;
    ReactionsDieOut(xs, choices, |choices|);
  }

  /** The handler waits for no answer and for no stretch of its own. */
  predicate AtRest(it: Handler) {
    HandlerCall(it.at, false).None? && HandlerCall(it.at, true).None? && !it.at.TestCleared?
  }

  ghost predicate Drained(x: Left) {
    x.s.boot.None? && x.s.current.None? && x.s.queue == [] && x.s.waiting == [] &&
    x.proxyEvents == 0 && x.rtcEvents == 0 && forall h :: h in x.s.handlers ==> AtRest(x.s.handlers[h])
  }

  lemma OnlySnapshotsAreTwo(at: HandlerAt)
    ensures HandlerCall(at, true).Some? <==> at.AuthSnapshots?
    ensures at.AuthSnapshots? ==> HandlerCall(at, false).Some?
  {
  }

  /** It stops only when boot has ended, every event has been delivered, and every task and
      handler has run. */
  lemma StopsDrained(x: Left)
    requires !Drained(x)
    ensures exists c :: LeftEnabled(x, c)
  {
    hide After, Answer, Resume, HandlerCall;
    var c: Choice;
    if x.s.boot.Some? {
      c := if x.s.boot.value.reply.Some? then ResumeBoot else PerformBoot(SUCCEEDED);
    } else if x.s.current.Some? {
      c := if x.s.current.value.reply.Some? then ResumeTask else PerformTask(SUCCEEDED);
    } else if h :| h in x.s.handlers && !AtRest(x.s.handlers[h]) {
      var it := x.s.handlers[h];
      c := if HandlerCall(it.at, false).Some? && it.first.None? then PerformHandler(h, false, SUCCEEDED)
           else if HandlerCall(it.at, true).Some? && it.second.None? then PerformHandler(h, true, SUCCEEDED)
           else ResumeHandler(h, 0);
      OnlySnapshotsAreTwo(it.at);
    } else {
      c := if x.s.queue != [] then Begin else if x.s.waiting != [] then Release
           else if x.proxyEvents > 0 then ProxySettingEvent else RtcSettingEvent;
    }
    assert LeftEnabled(x, c);
  }

  /** The reaction turns into a reconciliation that sets the PAC again. */
  predicate Restores(s: State, c: Choice)
    requires Enabled(s, c)
  {
    c.ResumeTask? && s.current.value.pc.ProxyChange? &&
    After(s, c).current.Some? && After(s, c).current.value.pc.Reconcile?
  }

  lemma OthersNeverRestore(x: Left, c: Choice)
    requires Frozen(x) && LeftEnabled(x, c) && Stray(LeftAfter(x, c).s) == Stray(x.s) && !c.ResumeTask?
    ensures Restorable(LeftAfter(x, c).s) == Restorable(x.s)
  {
    hide Stray, Steady, RestorePossible, HandlerMove, Answer, CallOf, Resume, HandlerCall;
    match c
    case PerformBoot(_) => BootFalls(x.s, c);
    case ResumeBoot => BootFalls(x.s, c);
    case Begin => if !Reaction(x.s.queue[0]) { BeginFalls(x.s); }
    case _ =>
  }

  lemma RestoreStep(x: Left, c: Choice)
    requires Frozen(x) && LeftEnabled(x, c) && Stray(LeftAfter(x, c).s) == Stray(x.s)
    ensures Restorable(LeftAfter(x, c).s) ==> Restorable(x.s) && !Restores(x.s, c)
    ensures Restores(x.s, c) ==> Restorable(x.s)
  {
    hide Stray;
    if c.ResumeTask? {
      if !Steady(x.s) { ResumeFalls(x.s); }
      hide Fits, Resume, Settled, RestorePossible;
      var f := x.s.current.value;
      ResumeRanks(x.s.profile, f.pc, x.s.vars.flags, f.reply.value, x.s.vars.epochs);
    } else {
      OthersNeverRestore(x, c);
    }
  }

  lemma {:induction false} StrayNeverGrows(xs: seq<Left>, choices: seq<Choice>, i: nat, j: nat)
    requires LeftRun(xs, choices) && i <= j <= |choices|
    ensures Stray(xs[j].s) <= Stray(xs[i].s)
    decreases j
  {
    hide LeftAfter, LeftEnabled, Frozen, Stray, Total;
    if i == j {
    } else {
      StrayNeverGrows(xs, choices, i, j - 1);
      ReactionsDieOut(xs, choices, j - 1);
      LeftStep(xs[j - 1], choices[j - 1]);
    }
  }

  lemma {:induction false} RestorableOnce(xs: seq<Left>, choices: seq<Choice>, i: nat, j: nat)
    requires LeftRun(xs, choices) && i <= j <= |choices| && !Restorable(xs[i].s) && Stray(xs[j].s) == Stray(xs[i].s)
    ensures !Restorable(xs[j].s)
    decreases j
  {
    hide LeftAfter, LeftEnabled, Frozen, Restorable, Stray, Total;
    if i == j {
    } else {
      StrayNeverGrows(xs, choices, i, j - 1);
      StrayNeverGrows(xs, choices, j - 1, j);
      RestorableOnce(xs, choices, i, j - 1);
      ReactionsDieOut(xs, choices, j - 1);
      RestoreStep(xs[j - 1], choices[j - 1]);
    }
  }

  /** At most one restore happens, unless in between boot, a command, a handler or a reaction
      that has read what was true before takes a step. */
  lemma AtMostOneRestore(xs: seq<Left>, choices: seq<Choice>, i: nat, j: nat)
    requires LeftRun(xs, choices) && i < j < |choices| && Stray(xs[j + 1].s) == Stray(xs[i].s)
    requires LeftEnabled(xs[i], choices[i]) && Restores(xs[i].s, choices[i])
    ensures LeftEnabled(xs[j], choices[j]) && !Restores(xs[j].s, choices[j])
  {
    hide LeftAfter, Frozen, Restorable, Stray, Total, Restores, After;
    StrayNeverGrows(xs, choices, i, i + 1);
    StrayNeverGrows(xs, choices, i + 1, j);
    StrayNeverGrows(xs, choices, j, j + 1);
    ReactionsDieOut(xs, choices, i);
    RestoreStep(xs[i], choices[i]);
    RestorableOnce(xs, choices, i + 1, j);
    ReactionsDieOut(xs, choices, j);
    RestoreStep(xs[j], choices[j]);
  }
}
