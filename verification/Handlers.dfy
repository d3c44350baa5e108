/** The unqueued handlers: an answer is given only if nothing interfered with it. */
module Handlers {
  import opened Wrappers
  import opened Browser
  import opened Tasks
  import opened Worker
  import opened Coupling

  predicate ErrorArrives(s: State, c: Choice) {
    c.ProxyError? ||
    (c.ResumeHandler? && c.h in s.handlers && Resumable(s.handlers[c.h]) && RefusedAgain(s.vars, s.handlers[c.h]))
  }

  predicate SettingChanges(c: Choice) {
    c.ProxySettingEvent? || c.RtcSettingEvent?
  }

  /** Each epoch counts one kind of step. */
  lemma EpochsCount(s: State, c: Choice)
    requires Enabled(s, c) && !c.Die?
    ensures var e := s.vars.epochs; var e1 := After(s, c).vars.epochs;
      e1.configuration == (if c.Begin? then e.configuration + 1 else e.configuration) &&
      e1.setting == (if SettingChanges(c) then e.setting + 1 else e.setting) &&
      e1.error == (if ErrorArrives(s, c) then e.error + 1 else e.error)
  {
    hide Answer, HandlerCall, Resume, Settled, Performed, AuthAfterStorage, AuthContext;
  }

  /** While the configuration epoch stands still and no task runs, nothing the
      extension owns changes. */
  lemma QuietStep(s: State, c: Choice)
    requires Enabled(s, c) && !c.Die? && !c.Begin? && s.boot.None? && s.current.None?
    ensures var t := After(s, c);
      t.boot.None? && t.current.None? && t.profile == s.profile.(outside := t.profile.outside)
  {
    hide Answer, HandlerCall, Resume;
  }

  /** What an authorization handler may rely on while its epoch is still current. */
  ghost predicate AuthHolds(p: Profile, it: Handler) {
    match it.at
    case AuthReadStorage(a) =>
      a.challenge.basicProxy407 && (it.first.Some? && it.first.value.Data? ==> it.first.value.data == p.storage)
    case AuthReadTab(a, data) =>
      data == p.storage && data.enabled && data.connection.Saved? && Matching(a.challenge, data.connection.value)
    case AuthSnapshots(a, cfg, incognito) =>
      p.storage.enabled && Holds(p.storage, cfg) && Matching(a.challenge, cfg.connection) &&
      (!incognito ==>
         (it.first.Some? && ProxyEffective(it.first.value, BuildProxyConfig(cfg)) ==>
            p.ownPac == Some(BuildProxyConfig(cfg))) &&
         (it.second.Some? && RtcRestricted(it.second.value) ==> OwnRestriction(p)))
    case _ => true
  }

  function SampledEpoch(at: HandlerAt): Option<nat> {
    match at
    case AuthReadStorage(a) => Some(a.epoch)
    case AuthReadTab(a, _) => Some(a.epoch)
    case AuthSnapshots(a, _, _) => Some(a.epoch)
    case TestFetch(l, _) => Some(l.epoch)
    case TestSecond(l, _, _) => Some(l.epoch)
    case TestCleared(l) => Some(l.epoch)
    case _ => None
  }

  ghost predicate HandlerOk(s: State, it: Handler) {
    (SampledEpoch(it.at).Some? ==>
       SampledEpoch(it.at).value <= s.vars.epochs.configuration &&
       (SampledEpoch(it.at).value == s.vars.epochs.configuration ==> s.current.None? && AuthHolds(s.profile, it)))
  }

  ghost predicate HandlersOk(s: State) {
    forall h :: h in s.handlers ==> HandlerOk(s, s.handlers[h])
  }

  /** A handler that a step does not run keeps what it may rely on. */
  lemma UntouchedHandler(s: State, c: Choice, it: Handler)
    requires Enabled(s, c) && !c.Die? && s.boot.None? && HandlerOk(s, it)
    ensures HandlerOk(After(s, c), it)
  {
    hide After, Enabled;
    EpochsCount(s, c);
    if SampledEpoch(it.at) == Some(After(s, c).vars.epochs.configuration) {
      QuietStep(s, c);
    }
  }

  /** The sample of a test that is under way. */
  function TestSample(at: HandlerAt): Option<Sample> {
    match at
    case TestFirst(l, _) => Some(l)
    case TestFetch(l, _) => Some(l)
    case TestSecond(l, _, _) => Some(l)
    case TestQueued(l, _) => Some(l)
    case TestCleared(l) => Some(l)
    case TestReturned(l) => Some(l)
    case _ => None
  }

  predicate ClearsFor(t: Task, h: nat) {
    t.ClearTestedError? && t.handler == h
  }

  /** A queued clearing task belongs to the one test that waits for it. */
  ghost predicate QueueOk(s: State) {
    (forall i :: 0 <= i < |s.waiting| ==> s.waiting[i].ProxyChanged? || s.waiting[i].RtcChanged?) &&
    (forall i :: 0 <= i < |s.queue| && s.queue[i].ClearTestedError? ==>
       s.queue[i].handler in s.handlers &&
       s.handlers[s.queue[i].handler].at == TestQueued(s.queue[i].sample, s.queue[i].previous)) &&
    (forall i, j :: 0 <= i < j < |s.queue| && s.queue[i].ClearTestedError? ==>
       !ClearsFor(s.queue[j], s.queue[i].handler))
  }

  /** A running clearing task is the last task begun and its test still waits. */
  ghost predicate ClearingOk(s: State) {
    s.current.Some? && s.current.value.pc.Clearing? ==>
      var pc := s.current.value.pc;
      var sampled := pc.sample.(epoch := pc.sample.base);
      pc.sample.epoch == pc.sample.base + 1 == s.vars.epochs.configuration &&
      s.lastBegun == Some(ClearTestedError(pc.handler, sampled, pc.previous)) &&
      pc.handler in s.handlers && s.handlers[pc.handler].at == TestQueued(sampled, pc.previous) &&
      (forall i :: 0 <= i < |s.queue| ==> !ClearsFor(s.queue[i], pc.handler))
  }

  ghost predicate TestsOk(s: State) {
    forall h :: h in s.handlers && TestSample(s.handlers[h].at).Some? ==>
      var at := s.handlers[h].at;
      var l := TestSample(at).value;
      l.epoch <= s.vars.epochs.configuration &&
      if at.TestCleared? then
        l.epoch == l.base + 1 &&
        (l.epoch == s.vars.epochs.configuration ==> s.lastBegun.Some? && ClearsFor(s.lastBegun.value, h))
      else at.TestReturned? || l.epoch == l.base
  }

  ghost predicate TestInv(s: State) {
    QueueOk(s) && ClearingOk(s) && TestsOk(s)
  }

  lemma PerformTaskKeepsTests(s: State, o: Outcome)
    requires TestInv(s) && Enabled(s, PerformTask(o))
    ensures TestInv(PerformedTask(s, o))
  {
  }

  lemma ResumeTaskKeepsTests(s: State)
    requires TestInv(s) && Enabled(s, ResumeTask) 
    ensures TestInv(ResumedTask(s))
  {
  }

  lemma BeginKeepsTests(s: State)
    requires TestInv(s) && Enabled(s, Begin)
    ensures TestInv(Begun(s))
  {
  }

  predicate PlainMove(from: HandlerAt, to: HandlerAt) {
    !from.TestQueued? && !to.TestQueued? && !to.TestCleared? &&
    (TestSample(to).Some? ==> to.TestReturned? || TestSample(to).value.epoch == TestSample(to).value.base)
  }

  lemma MoveKeepsTests(s: State, h: nat, to: HandlerAt)
    requires TestInv(s) && (h in s.handlers ==> PlainMove(s.handlers[h].at, to))
    requires h !in s.handlers ==> PlainMove(TestThrew, to)
    requires TestSample(to).Some? ==> TestSample(to).value.epoch <= s.vars.epochs.configuration
    ensures TestInv(Moved(s, h, to))
  {
  }

  lemma ArrivalKeepsTests(s: State, t: Task)
    requires TestInv(s) && !t.ClearTestedError?
    ensures TestInv(ErrorArrived(s, t))
  {
  }

  lemma QueueingKeepsTests(s: State, h: nat, l: Sample, error: ErrorRecord)
    requires TestInv(s) && h in s.handlers && s.handlers[h].at.TestSecond?
    requires l.base == l.epoch <= s.vars.epochs.configuration
    ensures var moved := Moved(s, h, TestQueued(l, error));
      TestInv(moved.(queue := moved.queue + [ClearTestedError(h, l, error)]))
  {
  }

  lemma HandlerMovesPlainly(v: Vars, it: Handler)
    requires Resumable(it)
    requires TestSample(it.at).Some? && !it.at.TestCleared? ==>
      TestSample(it.at).value.epoch == TestSample(it.at).value.base
    ensures var to := HandlerMove(v, it);
      (TestSample(to).Some? ==> TestSample(it.at) == TestSample(to)) &&
      if to.TestQueued? then it.at.TestSecond? && to.l.epoch == to.l.base else PlainMove(it.at, to)
  {
  }

  lemma AttemptsKeepTests(s: State, attempts: set<nat>)
    requires TestInv(s)
    ensures TestInv(s.(vars := s.vars.(attempts := attempts)))
  {
  }

  lemma ResumeHandlerKeepsTests(s: State, h: nat, at: int)
    requires TestInv(s) && Enabled(s, ResumeHandler(h, at))
    ensures TestInv(ResumedHandler(s, h, at))
  {
    hide QueueOk, ClearingOk, HandlerMove;
    assert TestsOk(s);
    var it := s.handlers[h];
    var to := HandlerMove(s.vars, it);
    HandlerMovesPlainly(s.vars, it);
    if to.TestQueued? {
      QueueingKeepsTests(s, h, to.l, to.error);
    } else {
      MoveKeepsTests(s, h, to);
      if it.at.AuthSnapshots? {
        var error := ErrorRecord(false, "AUTH_FAILED", at);
        ArrivalKeepsTests(Moved(s, h, to), RecordAuthError(s.vars.epochs.error + 1, error));
        AttemptsKeepTests(Moved(s, h, to), s.vars.attempts + {it.at.a.challenge.requestId});
      }
    }
  }

  lemma PerformHandlerKeepsTests(s: State, h: nat, second: bool, o: Outcome)
    requires TestInv(s) && Enabled(s, PerformHandler(h, second, o))
    ensures TestInv(PerformedHandler(s, h, second, o))
  {
  }

  lemma QueueKeepsTests(s: State, t: Task)
    requires TestInv(s) && !t.ClearTestedError?
    ensures TestInv(s.(queue := s.queue + [t]))
  {
  }

  lemma SettingKeepsTests(s: State, t: Task)
    requires TestInv(s) && (t.ProxyChanged? || t.RtcChanged?)
    ensures TestInv(SettingChanged(s, t))
  {
  }

  lemma TestInvStep(s: State, c: Choice)
    requires Inv(s) && TestInv(s) && Enabled(s, c)
    ensures TestInv(After(s, c))
  {
    hide PerformedTask, ResumedTask, Begun, ResumedHandler, PerformedHandler, ErrorArrived, Resume;
    match c
    case PerformTask(o) => PerformTaskKeepsTests(s, o);
    case ResumeTask => ResumeTaskKeepsTests(s);
    case Begin => BeginKeepsTests(s);
    case Message(task) => QueueKeepsTests(s, task);
    case ProxySettingEvent => SettingKeepsTests(s, ProxyChanged);
    case RtcSettingEvent => SettingKeepsTests(s, RtcChanged);
    case Release =>
      QueueKeepsTests(s, s.waiting[0]);
    case ProxyError(error) => ArrivalKeepsTests(s, RecordProxyError(s.vars.epochs.error + 1, error));
    case AuthRequired(h, challenge) => MoveKeepsTests(s, h, AuthStart(s.vars, challenge));
    case TestIp(h) => MoveKeepsTests(s, h, TestFirst(SampleNow(s.vars.epochs), TReadStorage));
    case PerformHandler(h, second, o) => PerformHandlerKeepsTests(s, h, second, o);
    case ResumeHandler(h, at) => ResumeHandlerKeepsTests(s, h, at);
    case _ =>
  }

  lemma PerformHandlerOk(s: State, h: nat, second: bool, o: Outcome)
    requires Enabled(s, PerformHandler(h, second, o)) && HandlerOk(s, s.handlers[h])
    ensures var t := PerformedHandler(s, h, second, o); HandlerOk(t, t.handlers[h])
  {
    OwnSettingIsOurs(s.profile);
  }

  lemma MoveOk(s: State, h: nat)
    requires h in s.handlers && Resumable(s.handlers[h]) && HandlerOk(s, s.handlers[h])
    requires s.vars.changing == s.current.Some?
    requires TestSample(s.handlers[h].at).Some? ==>
      TestSample(s.handlers[h].at).value.epoch <= s.vars.epochs.configuration
    ensures HandlerOk(s, Waiting(HandlerMove(s.vars, s.handlers[h])))
  {
  }

  lemma ResumeHandlerOk(s: State, h: nat, at: int)
    requires Enabled(s, ResumeHandler(h, at)) && HandlerOk(s, s.handlers[h])
    requires s.vars.changing == s.current.Some?
    requires TestSample(s.handlers[h].at).Some? ==>
      TestSample(s.handlers[h].at).value.epoch <= s.vars.epochs.configuration
    ensures var t := ResumedHandler(s, h, at); HandlerOk(t, t.handlers[h])
  {
    hide HandlerMove;
    MoveOk(s, h);
  }

  lemma OneHandlerOk(s: State, c: Choice, h: nat)
    requires Inv(s) && TestInv(s) && HandlersOk(s) && Enabled(s, c) && h in After(s, c).handlers
    ensures HandlerOk(After(s, c), After(s, c).handlers[h])
  {
    hide Answer, Resume, QueueOk, HandlerMove, ResumedHandler, PerformedHandler, HandlerOk;
    if c.PerformHandler? && c.h == h {
      PerformHandlerOk(s, h, c.second, c.o);
    } else if c.ResumeHandler? && c.h == h {
      ResumeHandlerOk(s, h, c.at);
    } else if h in s.handlers && After(s, c).handlers[h] == s.handlers[h] {
      UntouchedHandler(s, c, s.handlers[h]);
    } else {
      NewHandlerOk(s, c, h);
    }
  }

  lemma NewHandlerOk(s: State, c: Choice, h: nat)
    requires Inv(s) && ClearingOk(s) && Enabled(s, c) && h in After(s, c).handlers
    requires !(c.PerformHandler? && c.h == h) && !(c.ResumeHandler? && c.h == h)
    requires !(h in s.handlers && After(s, c).handlers[h] == s.handlers[h])
    ensures HandlerOk(After(s, c), After(s, c).handlers[h])
  {
    hide Answer, Resume, HandlerMove;
  }

  lemma HandlersOkStep(s: State, c: Choice)
    requires Inv(s) && TestInv(s) && HandlersOk(s) && Enabled(s, c)
    ensures HandlersOk(After(s, c))
  {
    hide After, Enabled, HandlerOk;
    forall h | h in After(s, c).handlers ensures HandlerOk(After(s, c), After(s, c).handlers[h]) {
      OneHandlerOk(s, c, h);
    }
  }
}
