/** What an answer of the service worker says about the whole run before it. */
module Answers {
  import opened Wrappers
  import opened Browser
  import opened Tasks
  import opened Worker
  import opened Coupling
  import opened Handlers

  ghost predicate AllInv(s: State) {
    Inv(s) && TestInv(s) && HandlersOk(s)
  }

  /** A run of one worker from its start, deaths and restarts included. */
  ghost predicate WorkerRun(states: seq<State>, choices: seq<Choice>) {
    Run(states, choices) && states[0] == Started(states[0].profile)
  }

  lemma {:induction false} AllInvAlways(states: seq<State>, choices: seq<Choice>, i: nat)
    requires WorkerRun(states, choices) && i <= |choices|
    ensures AllInv(states[i])
  {
    hide After, Enabled;
    if i == 0 {
    } else {
      AllInvAlways(states, choices, i - 1);
      InvStep(states[i - 1], choices[i - 1]);
      TestInvStep(states[i - 1], choices[i - 1]);
      HandlersOkStep(states[i - 1], choices[i - 1]);
    }
  }

  ghost predicate NoDeath(choices: seq<Choice>, i: nat, j: nat)
    requires j <= |choices|
  {
    forall k :: i <= k < j ==> !choices[k].Die?
  }

  /** No task begins, no setting event and no proxy error is delivered from step i to step j. */
  ghost predicate NoTaskBegins(choices: seq<Choice>, i: nat, j: nat)
    requires j <= |choices|
  {
    forall k :: i <= k < j ==> !choices[k].Begin?
  }

  ghost predicate NoSettingChange(choices: seq<Choice>, i: nat, j: nat)
    requires j <= |choices|
  {
    forall k :: i <= k < j ==> !SettingChanges(choices[k])
  }

  ghost predicate NoErrorArrives(states: seq<State>, choices: seq<Choice>, i: nat, j: nat)
    requires j <= |choices| < |states|
  {
    forall k :: i <= k < j ==> !ErrorArrives(states[k], choices[k])
  }

  /** The epochs never fall, and an epoch that stands still counts no step of its kind. */
  lemma {:induction false} EpochsGrow(states: seq<State>, choices: seq<Choice>, i: nat, j: nat)
    requires Run(states, choices) && i <= j <= |choices| && NoDeath(choices, i, j)
    ensures var e := states[i].vars.epochs; var e1 := states[j].vars.epochs;
      e.configuration <= e1.configuration && e.setting <= e1.setting && e.error <= e1.error &&
      (e.configuration == e1.configuration ==> NoTaskBegins(choices, i, j)) &&
      (e.setting == e1.setting ==> NoSettingChange(choices, i, j)) &&
      (e.error == e1.error ==> NoErrorArrives(states, choices, i, j))
    decreases j
  {
    hide After, Enabled, SettingChanges, ErrorArrives;
    if i == j {
    } else {
      EpochsGrow(states, choices, i, j - 1);
      EpochsCount(states[j - 1], choices[j - 1]);
    }
  }

  /** Between two states of one configuration epoch, the first of them idle, the
      extension's storage and preferences do not change. */
  lemma {:induction false} IdleRun(states: seq<State>, choices: seq<Choice>, i: nat, j: nat)
    requires Run(states, choices) && i <= j <= |choices| && NoDeath(choices, i, j) && NoTaskBegins(choices, i, j)
    requires states[i].boot.None? && states[i].current.None?
    ensures forall k :: i <= k <= j ==>
      states[k].boot.None? && states[k].current.None? &&
      states[k].profile == states[i].profile.(outside := states[k].profile.outside)
    decreases j
  {
    hide After, Enabled;
    if i == j {
    } else {
      IdleRun(states, choices, i, j - 1);
      QuietStep(states[j - 1], choices[j - 1]);
    }
  }

  function AuthOf(at: HandlerAt): Option<AuthSample> {
    match at
    case AuthReadStorage(a) => Some(a)
    case AuthReadTab(a, _) => Some(a)
    case AuthSnapshots(a, _, _) => Some(a)
    case AuthAnswered(a, _) => Some(a)
    case _ => None
  }

  predicate SameTest(at: HandlerAt, to: HandlerAt) {
    (at.TestThrew? ==> to.TestThrew?) &&
    (TestSample(at).Some? ==>
      to.TestThrew? ||
      (TestSample(to).Some? && TestSample(to).value.(epoch := 0) == TestSample(at).value.(epoch := 0)))
  }

  lemma MoveKeepsSample(v: Vars, it: Handler)
    requires Resumable(it)
    ensures SameTest(it.at, HandlerMove(v, it))
    ensures AuthOf(it.at).Some? ==> AuthOf(HandlerMove(v, it)) == AuthOf(it.at)
  {
  }

  /** A handler keeps the epochs it sampled until it ends. */
  lemma SamplesStay(s: State, c: Choice, h: nat)
    requires Enabled(s, c) && TestInv(s) && h in s.handlers && !c.Die?
    ensures h in After(s, c).handlers
    ensures AuthOf(s.handlers[h].at).Some? ==> AuthOf(After(s, c).handlers[h].at) == AuthOf(s.handlers[h].at)
    ensures SameTest(s.handlers[h].at, After(s, c).handlers[h].at)
  {
    hide Answer, Resume, HandlerMove, TestsOk, RefusedAgain, Performed, Start;
    if c.ResumeHandler? && c.h == h { MoveKeepsSample(s.vars, s.handlers[h]); }
  }

  lemma {:induction false} SamplesStayInRun(states: seq<State>, choices: seq<Choice>, h: nat, i: nat, j: nat)
    requires WorkerRun(states, choices) && i <= j <= |choices| && NoDeath(choices, i, j) && h in states[i].handlers
    ensures h in states[j].handlers
    ensures AuthOf(states[i].handlers[h].at).Some? ==>
      AuthOf(states[j].handlers[h].at) == AuthOf(states[i].handlers[h].at)
    ensures SameTest(states[i].handlers[h].at, states[j].handlers[h].at)
    decreases j
  {
    hide After, Enabled;
    if i == j {
    } else {
      SamplesStayInRun(states, choices, h, i, j - 1);
      AllInvAlways(states, choices, j - 1);
      SamplesStay(states[j - 1], choices[j - 1], h);
    }
  }

  /** The step hands out credentials. */
  predicate Grants(s: State, c: Choice) {
    c.ResumeHandler? && c.h in s.handlers && Resumable(s.handlers[c.h]) && s.handlers[c.h].at.AuthSnapshots? &&
    HandlerMove(s.vars, s.handlers[c.h]).answer.Credentials?
  }

  /** Credentials are those of the connection stored at that instant, which is
      enabled and is the endpoint challenged; the two replies held for the settings
      are the expected ones; the request had none since it was last done. */
  lemma CredentialsAreCurrent(s: State, c: Choice)
    requires AllInv(s) && Enabled(s, c) && Grants(s, c)
    ensures var it := s.handlers[c.h]; var cfg := it.at.cfg; var challenge := it.at.a.challenge;
      s.profile.storage.enabled && Holds(s.profile.storage, cfg) &&
      challenge.basicProxy407 && challenge.host == cfg.connection.host && challenge.port == cfg.connection.port &&
      After(s, c).handlers[c.h].at ==
        AuthAnswered(it.at.a, Credentials(cfg.connection.username, cfg.connection.password)) &&
      ProxyEffective(it.first.value, BuildProxyConfig(cfg)) && RtcRestricted(it.second.value) &&
      challenge.requestId !in s.vars.attempts && challenge.requestId in After(s, c).vars.attempts &&
      (!it.at.incognito ==> s.profile.ownPac == Some(BuildProxyConfig(cfg)) && OwnRestriction(s.profile))
  {
    hide TestInv, Inv;
    assert HandlerOk(s, s.handlers[c.h]);
  }

  /** From the challenge to the credentials no task ran or began, no setting event
      was delivered, and the stored configuration stayed as it is. */
  lemma CredentialsUndisturbed(states: seq<State>, choices: seq<Choice>, b: nat, j: nat)
    requires WorkerRun(states, choices) && b < j < |choices| && NoDeath(choices, b, j)
    requires choices[b].AuthRequired? && Grants(states[j], choices[j]) && choices[j].h == choices[b].h
    ensures states[j].handlers[choices[j].h].at.a.challenge == choices[b].challenge
    ensures NoTaskBegins(choices, b, j) && NoSettingChange(choices, b, j)
    ensures forall k :: b <= k <= j ==>
      states[k].current.None? && states[k].profile.storage == states[j].profile.storage
  {
    hide After, Enabled, SettingChanges, ErrorArrives, HandlerMove;
    var h := choices[b].h;
    AuthStarts(states[b], choices[b]);
    AllInvAlways(states, choices, b);
    AllInvAlways(states, choices, j);
    SamplesStayInRun(states, choices, h, b + 1, j);
    GrantedEpochs(states[j], choices[j]);
    EpochsGrow(states, choices, b, j);
    assert states[b].current.None? by { AnsweredStays(states, choices, h, b + 1, j); }
    IdleRun(states, choices, b, j);
  }

  lemma GrantedEpochs(s: State, c: Choice)
    requires Grants(s, c)
    ensures var a := s.handlers[c.h].at.a;
      s.vars.epochs.configuration == a.epoch && s.vars.epochs.setting == a.settingEpoch && !s.vars.changing
  {
  }

  lemma AuthStarts(s: State, c: Choice)
    requires Enabled(s, c) && c.AuthRequired?
    ensures var t := After(s, c);
      s.boot.None? && c.h in t.handlers && t.handlers[c.h].at == AuthStart(s.vars, c.challenge) &&
      AuthOf(t.handlers[c.h].at) == Some(AuthSample(c.challenge, s.vars.epochs.configuration, s.vars.epochs.setting))
  {
  }

  lemma AnswerStays(s: State, c: Choice, h: nat)
    requires Enabled(s, c) && TestInv(s) && h in s.handlers && !c.Die? && s.handlers[h].at.AuthAnswered?
    ensures h in After(s, c).handlers && After(s, c).handlers[h].at == s.handlers[h].at
  {
    hide Answer, Resume, TestsOk, Performed, Start;
  }

  lemma {:induction false} AnsweredStays(states: seq<State>, choices: seq<Choice>, h: nat, i: nat, j: nat)
    requires WorkerRun(states, choices) && i <= j <= |choices| && NoDeath(choices, i, j) && h in states[i].handlers
    ensures states[i].handlers[h].at.AuthAnswered? ==>
      h in states[j].handlers && states[j].handlers[h].at == states[i].handlers[h].at
    decreases j
  {
    hide After, Enabled;
    if i == j || !states[i].handlers[h].at.AuthAnswered? {
    } else {
      AnsweredStays(states, choices, h, i, j - 1);
      AllInvAlways(states, choices, j - 1);
      AnswerStays(states[j - 1], choices[j - 1], h);
    }
  }

  lemma AttemptStays(s: State, c: Choice, requestId: nat)
    requires Enabled(s, c) && !c.Die? && requestId in s.vars.attempts && c != RequestDone(requestId)
    ensures requestId in After(s, c).vars.attempts
  {
    hide Answer, Resume, HandlerMove, Performed, Start, HandlerCall;
  }

  lemma {:induction false} AttemptsStay(states: seq<State>, choices: seq<Choice>, requestId: nat, i: nat, j: nat)
    requires Run(states, choices) && i <= j <= |choices| && NoDeath(choices, i, j)
    requires requestId in states[i].vars.attempts
    requires forall k :: i <= k < j ==> choices[k] != RequestDone(requestId)
    ensures requestId in states[j].vars.attempts
    decreases j
  {
    hide After, Enabled;
    if i == j {
    } else {
      AttemptsStay(states, choices, requestId, i, j - 1);
      AttemptStays(states[j - 1], choices[j - 1], requestId);
    }
  }

  /** The request is done, or the worker with its memory of requests dies. */
  predicate Releases(c: Choice, requestId: nat) {
    c.Die? || c == RequestDone(requestId)
  }

  /** A request gets credentials a second time only after it was done in between,
      or from a worker started since. */
  lemma CredentialsOncePerRequest(states: seq<State>, choices: seq<Choice>, i: nat, j: nat)
    requires WorkerRun(states, choices) && i < j < |choices|
    requires Grants(states[i], choices[i]) && Grants(states[j], choices[j])
    requires states[i].handlers[choices[i].h].at.a.challenge.requestId ==
             states[j].handlers[choices[j].h].at.a.challenge.requestId
    ensures exists k :: i < k < j && Releases(choices[k], states[i].handlers[choices[i].h].at.a.challenge.requestId)
  {
    hide After, Enabled, HandlerMove;
    var id := states[i].handlers[choices[i].h].at.a.challenge.requestId;
    AllInvAlways(states, choices, i);
    AllInvAlways(states, choices, j);
    CredentialsAreCurrent(states[i], choices[i]);
    CredentialsAreCurrent(states[j], choices[j]);
    if forall k :: i < k < j ==> !Releases(choices[k], id) {
      AttemptsStay(states, choices, id, i + 1, j);
    }
  }

  /** TEST_IP passes its first guard: the route is as read and nothing is under way. */
  predicate StartsFetch(s: State, c: Choice) {
    c.ResumeHandler? && c.h in s.handlers && Resumable(s.handlers[c.h]) && s.handlers[c.h].at.TestFirst? &&
    HandlerMove(s.vars, s.handlers[c.h]).TestFetch?
  }

  /** TEST_IP returns the address it was given. */
  predicate ReturnsAddress(s: State, c: Choice) {
    c.ResumeHandler? && c.h in s.handlers && Resumable(s.handlers[c.h]) && !s.handlers[c.h].at.TestReturned? &&
    HandlerMove(s.vars, s.handlers[c.h]).TestReturned?
  }

  /** The only task begun from step i to step j, if any, clears the error of test h. */
  ghost predicate OnlyOwnTask(states: seq<State>, choices: seq<Choice>, h: nat, i: nat, j: nat)
    requires j <= |choices| < |states|
  {
    exists k :: i <= k < j && choices[k].Begin? && states[k].queue != [] && ClearsFor(states[k].queue[0], h) &&
      NoTaskBegins(choices, i, k) && NoTaskBegins(choices, k + 1, j)
  }

  lemma FetchStarts(s: State, c: Choice)
    requires Enabled(s, c) && StartsFetch(s, c)
    ensures var t := After(s, c); var l := TestSample(s.handlers[c.h].at).value;
      c.h in t.handlers && TestSample(t.handlers[c.h].at) == Some(l) && !s.vars.changing &&
      l.epoch == s.vars.epochs.configuration && l.settingEpoch == s.vars.epochs.setting &&
      l.errorEpoch == s.vars.epochs.error
  {
  }

  lemma LastBegunStep(s: State, c: Choice)
    requires Enabled(s, c) && !c.Die?
    ensures c.Begin? ==> s.queue != []
    ensures After(s, c).lastBegun == if c.Begin? then Some(s.queue[0]) else s.lastBegun
  {
    hide Answer, HandlerCall, Resume, Settled, Performed, HandlerMove;
  }

  /** An epoch raised once was raised by the task that was begun last. */
  lemma {:induction false} RaisedOnce(states: seq<State>, choices: seq<Choice>, i: nat, j: nat) returns (k: nat)
    requires Run(states, choices) && i <= j <= |choices| && NoDeath(choices, i, j)
    requires states[j].vars.epochs.configuration == states[i].vars.epochs.configuration + 1
    ensures i <= k < j && choices[k].Begin? && NoTaskBegins(choices, i, k) && NoTaskBegins(choices, k + 1, j)
    ensures states[k].queue != [] && states[j].lastBegun == Some(states[k].queue[0])
    decreases j
  {
    hide After, Enabled;
    if i == j { assert false; }
    EpochsCount(states[j - 1], choices[j - 1]);
    LastBegunStep(states[j - 1], choices[j - 1]);
    EpochsGrow(states, choices, i, j - 1);
    if choices[j - 1].Begin? {
      k := j - 1;
    } else {
      k := RaisedOnce(states, choices, i, j - 1);
    }
  }

  lemma AddressReturns(s: State, c: Choice)
    requires TestsOk(s) && Enabled(s, c) && ReturnsAddress(s, c)
    ensures TestSample(s.handlers[c.h].at).Some?
    ensures var l := TestSample(s.handlers[c.h].at).value;
      !s.vars.changing && l.epoch == s.vars.epochs.configuration && l.settingEpoch == s.vars.epochs.setting &&
      l.errorEpoch == s.vars.epochs.error &&
      (l.epoch == l.base || (l.epoch == l.base + 1 && s.lastBegun.Some? && ClearsFor(s.lastBegun.value, c.h)))
  {
  }

  /** If TEST_IP returns an address, then since its first guard no task but its own
      ran, no setting event was delivered and no proxy error arrived. */
  lemma AddressUndisturbed(states: seq<State>, choices: seq<Choice>, i: nat, j: nat)
    requires WorkerRun(states, choices) && i < j < |choices| && NoDeath(choices, i, j)
    requires StartsFetch(states[i], choices[i]) && ReturnsAddress(states[j], choices[j]) && choices[i].h == choices[j].h
    ensures states[i].current.None? && states[j].current.None?
    ensures NoTaskBegins(choices, i, j) || OnlyOwnTask(states, choices, choices[i].h, i, j)
    ensures NoSettingChange(choices, i, j) && NoErrorArrives(states, choices, i, j)
  {
    hide After, Enabled, HandlerMove, SettingChanges, ErrorArrives;
    var h := choices[i].h;
    AllInvAlways(states, choices, i);
    AllInvAlways(states, choices, j);
    FetchStarts(states[i], choices[i]);
    SamplesStayInRun(states, choices, h, i + 1, j);
    AddressReturns(states[j], choices[j]);
    EpochsGrow(states, choices, i, j);
    if states[j].vars.epochs.configuration != states[i].vars.epochs.configuration {
      var k := RaisedOnce(states, choices, i, j);
    }
  }

  lemma HandlersStart(s: State, c: Choice, h: nat)
    requires Enabled(s, c) && h in After(s, c).handlers
    ensures !c.Die? && (h in s.handlers || c.TestIp? || c.AuthRequired?)
    ensures h !in s.handlers ==> c.h == h
  {
    hide Answer, Resume, HandlerMove, RefusedAgain, Performed, Start, AuthStart;
  }

  /** Every handler has begun in the life of the worker it runs in. */
  lemma {:induction false} HandlerHasBegun(states: seq<State>, choices: seq<Choice>, j: nat, h: nat) returns (b: nat)
    requires WorkerRun(states, choices) && j <= |choices| && h in states[j].handlers
    ensures b < j && NoDeath(choices, b, j) && h !in states[b].handlers
    ensures (choices[b].TestIp? || choices[b].AuthRequired?) && choices[b].h == h
  {
    hide After, Enabled;
    if j == 0 { assert false; }
    HandlersStart(states[j - 1], choices[j - 1], h);
    if h in states[j - 1].handlers {
      b := HandlerHasBegun(states, choices, j - 1, h);
    } else {
      b := j - 1;
    }
  }

  lemma TestStarts(s: State, c: Choice)
    requires Enabled(s, c) && c.TestIp?
    ensures c.h in After(s, c).handlers && After(s, c).handlers[c.h].at.TestFirst?
  {
  }

  lemma GrantsAnswerChallenges(s: State, c: Choice)
    requires Grants(s, c)
    ensures c.ResumeHandler? && c.h in s.handlers && AuthOf(s.handlers[c.h].at).Some?
  {
  }

  /** The handler's read of a setting, in the context of its tab, finds what it must: the PAC
      of its configuration (first), or the WebRTC restriction (second). */
  predicate Sees(s: State, c: Choice, h: nat, second: bool, at: HandlerAt) {
    c.PerformHandler? && c.h == h && c.second == second && h in s.handlers && s.handlers[h].at == at &&
    at.AuthSnapshots? &&
    if second then Restricted(RtcIn(s.profile, at.incognito))
    else Effective(ProxyIn(s.profile, at.incognito), BuildProxyConfig(at.cfg))
  }

  predicate HasSeen(it: Handler, second: bool) {
    it.at.AuthSnapshots? &&
    if second then it.second.Some? && RtcRestricted(it.second.value)
    else it.first.Some? && ProxyEffective(it.first.value, BuildProxyConfig(it.at.cfg))
  }

  lemma SeesStep(s: State, c: Choice, h: nat, second: bool)
    requires Enabled(s, c) && h in After(s, c).handlers && HasSeen(After(s, c).handlers[h], second)
    ensures !c.Die?
    ensures (h in s.handlers && s.handlers[h].at == After(s, c).handlers[h].at && HasSeen(s.handlers[h], second)) ||
            Sees(s, c, h, second, After(s, c).handlers[h].at)
  {
    hide HandlerMove, RefusedAgain, Resume, Performed, Start, AuthStart;
  }

  /** Whatever snapshot a handler holds, it took it in this life of the worker. */
  lemma {:induction false} SnapshotWasTaken(states: seq<State>, choices: seq<Choice>, b: nat, j: nat, h: nat,
                                            second: bool) returns (k: nat)
    requires Run(states, choices) && b <= j <= |choices|
    requires h !in states[b].handlers && h in states[j].handlers && HasSeen(states[j].handlers[h], second)
    ensures b < k < j && Sees(states[k], choices[k], h, second, states[j].handlers[h].at)
    decreases j
  {
    hide After, Enabled, HasSeen;
    if b == j { assert false; }
    SeesStep(states[j - 1], choices[j - 1], h, second);
    if h in states[j - 1].handlers && HasSeen(states[j - 1].handlers[h], second) &&
       states[j - 1].handlers[h].at == states[j].handlers[h].at {
      k := SnapshotWasTaken(states, choices, b, j - 1, h, second);
    } else {
      k := j - 1;
    }
  }

  /** chrome.tabs.get answers the handler whether its tab is an incognito one. */
  predicate LearnsContext(s: State, c: Choice, h: nat, incognito: bool) {
    c.PerformHandler? && c.h == h && h in s.handlers && s.handlers[h].at.AuthReadTab? &&
    c.o.resolved && c.o.tab == Some(incognito)
  }

  predicate HasContext(it: Handler, incognito: bool) {
    match it.at
    case AuthReadTab(_, _) => it.first == Some(TabIs(Some(incognito)))
    case AuthSnapshots(a, _, context) => a.challenge.tab.InTab? && context == incognito
    case _ => false
  }

  /** Only a challenge in a tab asks for the tab; its own requests have the worker's context. */
  predicate TabFits(it: Handler) {
    match it.at
    case AuthReadTab(a, _) => a.challenge.tab.InTab?
    case AuthSnapshots(a, _, incognito) => a.challenge.tab.InTab? || a.challenge.tab == OwnWorker(incognito)
    case _ => true
  }

  lemma ContextStep(s: State, c: Choice, h: nat)
    requires Enabled(s, c) && h in After(s, c).handlers && (h in s.handlers ==> TabFits(s.handlers[h]))
    ensures TabFits(After(s, c).handlers[h])
    ensures forall incognito :: HasContext(After(s, c).handlers[h], incognito) ==>
      (h in s.handlers && HasContext(s.handlers[h], incognito)) || LearnsContext(s, c, h, incognito)
  {
    hide RefusedAgain, Resume, Performed, Start;
  }

  lemma {:induction false} TabFitsAlways(states: seq<State>, choices: seq<Choice>, j: nat, h: nat)
    requires WorkerRun(states, choices) && j <= |choices| && h in states[j].handlers
    ensures TabFits(states[j].handlers[h])
  {
    hide After, Enabled, TabFits, HasContext;
    if j == 0 { assert false; }
    if h in states[j - 1].handlers { TabFitsAlways(states, choices, j - 1, h); }
    ContextStep(states[j - 1], choices[j - 1], h);
  }

  /** Whatever context a handler in a tab has, the tab was asked in this life of the worker. */
  lemma {:induction false} ContextWasLearnt(states: seq<State>, choices: seq<Choice>, b: nat, j: nat, h: nat,
                                            incognito: bool) returns (n: nat)
    requires WorkerRun(states, choices) && b <= j <= |choices|
    requires h !in states[b].handlers && h in states[j].handlers && HasContext(states[j].handlers[h], incognito)
    ensures b < n < j && LearnsContext(states[n], choices[n], h, incognito)
    decreases j
  {
    hide After, Enabled, HasContext, TabFits;
    if b == j { assert false; }
    if h in states[j - 1].handlers { TabFitsAlways(states, choices, j - 1, h); }
    ContextStep(states[j - 1], choices[j - 1], h);
    if h in states[j - 1].handlers && HasContext(states[j - 1].handlers[h], incognito) {
      n := ContextWasLearnt(states, choices, b, j - 1, h, incognito);
    } else {
      n := j - 1;
    }
  }

  /** The context of the handler is that of its challenge: the service worker's own, or what
      its tab answered after step b. */
  ghost predicate InContext(states: seq<State>, choices: seq<Choice>, b: nat, j: nat, h: nat, incognito: bool)
    requires j < |choices| < |states| && h in states[j].handlers && AuthOf(states[j].handlers[h].at).Some?
  {
    var tab := AuthOf(states[j].handlers[h].at).value.challenge.tab;
    tab == OwnWorker(incognito) ||
    (tab.InTab? && exists n :: b < n < j && LearnsContext(states[n], choices[n], h, incognito))
  }

  /** Where a handler that answers gets its two snapshots and their context from. */
  lemma GrantReads(states: seq<State>, choices: seq<Choice>, b: nat, j: nat, h: nat) returns (k: nat, m: nat)
    requires WorkerRun(states, choices) && b < j < |choices| && h !in states[b].handlers && h in states[j].handlers
    requires HasSeen(states[j].handlers[h], false) && HasSeen(states[j].handlers[h], true)
    ensures b < k < j && Sees(states[k], choices[k], h, false, states[j].handlers[h].at)
    ensures b < m < j && Sees(states[m], choices[m], h, true, states[j].handlers[h].at)
    ensures InContext(states, choices, b, j, h, states[j].handlers[h].at.incognito)
  {
    hide After, Enabled;
    k := SnapshotWasTaken(states, choices, b, j, h, false);
    m := SnapshotWasTaken(states, choices, b, j, h, true);
    TabFitsAlways(states, choices, j, h);
    var it := states[j].handlers[h];
    if HasContext(it, it.at.incognito) {
      var n := ContextWasLearnt(states, choices, b, j, h, it.at.incognito);
    }
  }

  lemma GrantsHaveSeen(s: State, c: Choice)
    requires Grants(s, c)
    ensures HasSeen(s.handlers[c.h], false) && HasSeen(s.handlers[c.h], true)
  {
  }

  /** For whatever step hands out credentials: its challenge came in the same life of the
      worker; since then no task ran or began, no setting event was delivered and the stored
      configuration, which holds just these credentials, stayed as it is; and in between, in
      the context of that challenge, Chrome's proxy was this configuration's at one step (k)
      and WebRTC was restricted at one step (m). */
  lemma EveryGrantUndisturbed(states: seq<State>, choices: seq<Choice>, j: nat) returns (b: nat, k: nat, m: nat)
    requires WorkerRun(states, choices) && j < |choices| && Grants(states[j], choices[j])
    ensures b < j && NoDeath(choices, b, j) && choices[b].AuthRequired? && choices[b].h == choices[j].h
    ensures states[j].handlers[choices[j].h].at.a.challenge == choices[b].challenge
    ensures NoTaskBegins(choices, b, j) && NoSettingChange(choices, b, j)
    ensures forall i :: b <= i <= j ==>
      states[i].current.None? && states[i].profile.storage == states[j].profile.storage
    ensures states[j].profile.storage.enabled
    ensures Holds(states[j].profile.storage, states[j].handlers[choices[j].h].at.cfg)
    ensures b < k < j && Sees(states[k], choices[k], choices[j].h, false, states[j].handlers[choices[j].h].at)
    ensures b < m < j && Sees(states[m], choices[m], choices[j].h, true, states[j].handlers[choices[j].h].at)
    ensures InContext(states, choices, b, j, choices[j].h, states[j].handlers[choices[j].h].at.incognito)
  {
    hide After, Enabled, SettingChanges, HandlerMove, Sees, HasSeen, LearnsContext;
    GrantsAnswerChallenges(states[j], choices[j]);
    var h := choices[j].h;
    b := HandlerHasBegun(states, choices, j, h);
    if choices[b].TestIp? {
      TestStarts(states[b], choices[b]);
      SamplesStayInRun(states, choices, h, b + 1, j);
      assert false;
    }
    CredentialsUndisturbed(states, choices, b, j);
    AllInvAlways(states, choices, j);
    CredentialsAreCurrent(states[j], choices[j]);
    GrantsHaveSeen(states[j], choices[j]);
    k, m := GrantReads(states, choices, b, j, h);
  }

  predicate PastFetch(at: HandlerAt) {
    at.TestFetch? || at.TestSecond? || at.TestQueued? || at.TestCleared? || at.TestReturned?
  }

  lemma PassesGuard(s: State, c: Choice, h: nat)
    requires Enabled(s, c) && TestInv(s) && h in After(s, c).handlers && PastFetch(After(s, c).handlers[h].at)
    ensures !c.Die?
    ensures (h in s.handlers && PastFetch(s.handlers[h].at)) || (StartsFetch(s, c) && c.h == h)
  {
    hide Answer, Resume, TestsOk, RefusedAgain, Performed, Start, StatusNext;
  }

  /** A test that is past its first guard has passed it in the same life of the worker. */
  lemma {:induction false} GuardWasPassed(states: seq<State>, choices: seq<Choice>, j: nat, h: nat) returns (i: nat)
    requires WorkerRun(states, choices) && j <= |choices|
    requires h in states[j].handlers && PastFetch(states[j].handlers[h].at)
    ensures i < j && NoDeath(choices, i, j) && StartsFetch(states[i], choices[i]) && choices[i].h == h
  {
    hide After, Enabled, StartsFetch;
    if j == 0 { assert false; }
    AllInvAlways(states, choices, j - 1);
    PassesGuard(states[j - 1], choices[j - 1], h);
    if h in states[j - 1].handlers && PastFetch(states[j - 1].handlers[h].at) {
      i := GuardWasPassed(states, choices, j - 1, h);
    } else {
      i := j - 1;
    }
  }

  lemma ReturnsPastFetch(s: State, c: Choice)
    requires ReturnsAddress(s, c)
    ensures PastFetch(s.handlers[c.h].at)
  {
  }

  /** For whatever step returns an address: the test passed its first guard in the same life
      of the worker, and since then only its own clearing task ran, no setting event was
      delivered and no proxy error arrived. */
  lemma EveryAddressUndisturbed(states: seq<State>, choices: seq<Choice>, j: nat) returns (i: nat)
    requires WorkerRun(states, choices) && j < |choices| && ReturnsAddress(states[j], choices[j])
    ensures i < j && NoDeath(choices, i, j) && StartsFetch(states[i], choices[i]) && choices[i].h == choices[j].h
    ensures states[i].current.None? && states[j].current.None?
    ensures NoTaskBegins(choices, i, j) || OnlyOwnTask(states, choices, choices[i].h, i, j)
    ensures NoSettingChange(choices, i, j) && NoErrorArrives(states, choices, i, j)
  {
    hide After, Enabled, SettingChanges, ErrorArrives, StartsFetch, HandlerMove;
    ReturnsPastFetch(states[j], choices[j]);
    i := GuardWasPassed(states, choices, j, choices[j].h);
    AddressUndisturbed(states, choices, i, j);
  }
}
