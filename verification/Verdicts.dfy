/** What the auth handler and TEST_IP answer when nothing happens around them: closed forms over
    the profile and the module variables, in both directions. */
module Verdicts {
  import opened Wrappers
  import opened Browser
  import opened Tasks
  import opened Worker
  import opened Coupling
  import opened Handlers
  import opened Answers
  import opened Ranks
  import opened Effects
  import opened Undisturbed

  /** The context a challenge comes from, if it is known; `tab` is what chrome.tabs.get answers. */
  function ContextOf(kind: TabKind, tab: Option<bool>): Option<bool> {
    match kind
    case InTab => tab
    case OwnWorker(incognito) => Some(incognito)
    case Unknown => None
  }

  /** The challenge is the stored proxy's. */
  predicate Challenged(d: Storage, challenge: Challenge) {
    d.enabled && d.connection.Saved? && challenge.basicProxy407 &&
    challenge.host == d.connection.value.host && challenge.port == d.connection.value.port
  }

  /** In this context the stored PAC is in force and WebRTC restricted. */
  predicate RoutesIn(p: Profile, incognito: bool) {
    Usable(p.storage) && Effective(ProxyIn(p, incognito), StoredPac(p.storage)) && Restricted(RtcIn(p, incognito))
  }

  /** The answer to a challenge: credentials exactly if it is the proxy's own, from a known context
      in which everything is routed, and the request has had none; other challenges are ignored. */
  function Verdict(v: Vars, p: Profile, challenge: Challenge, tab: Option<bool>): AuthAnswer {
    var context := ContextOf(challenge.tab, tab);
    if !challenge.basicProxy407 then Ignored
    else if v.changing then Cancelled
    else if !Challenged(p.storage, challenge) then Ignored
    else if context.Some? && RoutesIn(p, context.value) && challenge.requestId !in v.attempts then
      Credentials(p.storage.connection.value.username, p.storage.connection.value.password)
    else Cancelled
  }

  /** Successful calls, with this answer about the tab. */
  predicate Smoothly(o: Outcome, tab: Option<bool>) {
    o.resolved && o.tab == tab
  }

  /** The stages on the way to a verdict. */
  ghost predicate Towards(v: Vars, p: Profile, it: Handler, a: AuthSample, tab: Option<bool>) {
    a.epoch == v.epochs.configuration && a.settingEpoch == v.epochs.setting &&
    var challenge := a.challenge;
    var verdict := Verdict(v, p, challenge, tab);
    match it.at
    case AuthReadStorage(b) =>
      b == a && challenge.basicProxy407 && !v.changing && it.second.None? &&
      (it.first.None? || it.first == Some(Data(p.storage)))
    case AuthReadTab(b, data) =>
      b == a && !v.changing && data == p.storage && Challenged(p.storage, challenge) && challenge.tab.InTab? &&
      it.second.None? && (it.first.None? || it.first == Some(TabIs(tab)))
    case AuthSnapshots(b, cfg, incognito) =>
      b == a && !v.changing && Challenged(p.storage, challenge) && Usable(p.storage) &&
      cfg == StoredConfig(p.storage) && ContextOf(challenge.tab, tab) == Some(incognito) &&
      (it.first.None? || it.first == Some(ProxyIs(ProxyIn(p, incognito)))) &&
      (it.second.None? || it.second == Some(RtcIs(RtcIn(p, incognito))))
    case AuthAnswered(b, answer) => b == a && answer == verdict
    case _ => false
  }

  lemma AuthBegins(v: Vars, p: Profile, challenge: Challenge, tab: Option<bool>)
    ensures var a := AuthSample(challenge, v.epochs.configuration, v.epochs.setting);
      Towards(v, p, Waiting(AuthStart(v, challenge)), a, tab)
  {
  }

  lemma AuthMoves(v: Vars, p: Profile, it: Handler, a: AuthSample, tab: Option<bool>)
    requires Towards(v, p, it, a, tab) && Resumable(it)
    ensures Towards(v, p, Waiting(HandlerMove(v, it)), a, tab)
  {
  }

  lemma AuthHears(v: Vars, p: Profile, it: Handler, a: AuthSample, tab: Option<bool>, second: bool, o: Outcome)
    requires Towards(v, p, it, a, tab) && HandlerCall(it.at, second).Some? && Smoothly(o, tab)
    ensures var reply := Some(Answer(HandlerCall(it.at, second).value, p, o));
      Towards(v, p, if second then it.(second := reply) else it.(first := reply), a, tab)
  {
  }

  /** From step b to step j the profile and the module variables stand, nobody dies, and the
      handler's own calls succeed; `tab` is what it hears about its tab. */
  ghost predicate Standing(states: seq<State>, choices: seq<Choice>, b: nat, j: nat, h: nat, tab: Option<bool>) {
    WorkerRun(states, choices) && b < j <= |choices| && states[b].boot.None? && h !in states[b].handlers &&
    NoDeath(choices, b, j) &&
    (forall k :: b <= k < j ==> states[k].profile == states[b].profile && states[k].vars == states[b].vars) &&
    (forall k :: b < k < j && choices[k].PerformHandler? && choices[k].h == h ==> Smoothly(choices[k].o, tab))
  }

  /** No other step moves a handler that waits for Chrome or has answered a challenge. */
  lemma OthersLeaveIt(s: State, c: Choice, h: nat)
    requires Enabled(s, c) && TestInv(s) && h in s.handlers && !c.Die? && !s.handlers[h].at.TestQueued?
    requires !((c.PerformHandler? || c.ResumeHandler?) && c.h == h)
    ensures h in After(s, c).handlers && After(s, c).handlers[h] == s.handlers[h]
  {
    hide Answer, Resume, HandlerMove, TestsOk, RefusedAgain, Performed, Start;
  }

  lemma AuthStep(s: State, c: Choice, h: nat, a: AuthSample, tab: Option<bool>)
    requires Enabled(s, c) && TestInv(s) && h in s.handlers && !c.Die?
    requires Towards(s.vars, s.profile, s.handlers[h], a, tab)
    requires c.PerformHandler? && c.h == h ==> Smoothly(c.o, tab)
    ensures h in After(s, c).handlers && Towards(s.vars, s.profile, After(s, c).handlers[h], a, tab)
  {
    hide HandlerMove, RefusedAgain, Verdict, TestInv;
    if c.ResumeHandler? && c.h == h {
      AuthMoves(s.vars, s.profile, s.handlers[h], a, tab);
    } else if c.PerformHandler? && c.h == h {
      AuthHears(s.vars, s.profile, s.handlers[h], a, tab, c.second, c.o);
    } else {
      OthersLeaveIt(s, c, h);
    }
  }

  /** Whatever challenge arrives while everything stands is answered by its verdict. */
  lemma {:induction false} ChallengeAnswered(states: seq<State>, choices: seq<Choice>, b: nat, j: nat, h: nat,
                                             tab: Option<bool>)
    requires Standing(states, choices, b, j, h, tab) && choices[b].AuthRequired? && choices[b].h == h
    ensures h in states[j].handlers
    ensures var s, challenge := states[b], choices[b].challenge;
      Towards(s.vars, s.profile, states[j].handlers[h],
              AuthSample(challenge, s.vars.epochs.configuration, s.vars.epochs.setting), tab) &&
      (states[j].handlers[h].at.AuthAnswered? ==>
         states[j].handlers[h].at.answer == Verdict(s.vars, s.profile, challenge, tab))
    decreases j
  {
    hide After, Enabled, Verdict, AuthStart;
    var s, challenge := states[b], choices[b].challenge;
    var a := AuthSample(challenge, s.vars.epochs.configuration, s.vars.epochs.setting);
    if j == b + 1 {
      AuthBegins(s.vars, s.profile, challenge, tab);
      ChallengeWaits(s, choices[b]);
    } else {
      ChallengeAnswered(states, choices, b, j - 1, h, tab);
      AllInvAlways(states, choices, j - 1);
      AuthStep(states[j - 1], choices[j - 1], h, a, tab);
    }
  }

  /** A rejected call never leads to credentials: the challenge is left to the browser as long as it
      may be another proxy's, and cancelled from then on. */
  lemma RejectionRefuses(v: Vars, it: Handler)
    requires Resumable(it) && (it.first == Some(Rejected) || it.second == Some(Rejected))
    ensures it.at.AuthReadStorage? && it.first == Some(Rejected) ==> HandlerMove(v, it) == AuthAnswered(it.at.a, Ignored)
    ensures it.at.AuthReadTab? && it.first == Some(Rejected) ==> HandlerMove(v, it) == AuthAnswered(it.at.a, Cancelled)
    ensures it.at.AuthSnapshots? ==>
      HandlerMove(v, it) == AuthAnswered(it.at.a, Cancelled) && !RefusedAgain(v, it)
  {
  }

  lemma ChallengeWaits(s: State, c: Choice)
    requires Enabled(s, c) && c.AuthRequired?
    ensures c.h in After(s, c).handlers && After(s, c).handlers[c.h] == Waiting(AuthStart(s.vars, c.challenge))
  {
  }

  // TEST_IP.

  /** The test may fetch: all is routed up to an error that may be retried, and the IP service is
      not excluded. */
  predicate MayFetch(v: Vars, p: Profile) {
    !v.changing && Routes(p) && (p.storage.proxyError.Some? ==> !p.storage.proxyError.value.possibleDirect) &&
    !IpServiceExcluded(StatusOf(p))
  }

  /** The stages of a test over a standing profile. */
  ghost predicate Testing(v: Vars, p: Profile, it: Handler, l: Sample, fetched: bool) {
    l == SampleNow(v.epochs) && it.second.None? &&
    match it.at
    case TestFirst(m, at) =>
      m == l && StatusEnds(p, at) == Ready(StatusOf(p)) &&
      (it.first.None? || it.first == Some(Answer(StatusCall(at), p, SUCCEEDED)))
    case TestFetch(m, previous) =>
      m == l && MayFetch(v, p) && previous == p.storage.proxyError &&
      (it.first.None? || it.first == Some(if fetched then FetchedIp else Rejected))
    case TestSecond(m, previous, at) =>
      m == l && MayFetch(v, p) && fetched && previous == p.storage.proxyError &&
      StatusEnds(p, at) == Ready(StatusOf(p)) &&
      (it.first.None? || it.first == Some(Answer(StatusCall(at), p, SUCCEEDED)))
    case TestQueued(m, error) => m == l && MayFetch(v, p) && fetched && p.storage.proxyError == Some(error)
    case TestReturned(m) => m == l && MayFetch(v, p) && fetched && p.storage.proxyError.None?
    case TestThrew => !(MayFetch(v, p) && fetched)
    case _ => false
  }

  lemma TestBegins(v: Vars, p: Profile, fetched: bool)
    ensures Testing(v, p, Waiting(TestFirst(SampleNow(v.epochs), TReadStorage)), SampleNow(v.epochs), fetched)
  {
    StatusIs(p);
    hide StatusOf, StatusEnds;
  }

  lemma StatusAllows(p: Profile)
    ensures MayTest(StatusOf(p)) <==>
      Routes(p) && (p.storage.proxyError.Some? ==> !p.storage.proxyError.value.possibleDirect)
    ensures MayTest(StatusOf(p)) ==> StatusOf(p).proxyError == p.storage.proxyError
  {
    hide ProxyIn, RtcIn, Effective, Restricted;
  }

  lemma TestMoves(v: Vars, p: Profile, it: Handler, l: Sample, fetched: bool)
    requires Testing(v, p, it, l, fetched) && Resumable(it)
    ensures Testing(v, p, Waiting(HandlerMove(v, it)), l, fetched)
  {
    StatusAllows(p);
    StatusIs(p);
    hide StatusOf, Routes, StatusNext, MayTest, IpServiceExcluded, Answer;
  }

  lemma TestHears(v: Vars, p: Profile, it: Handler, l: Sample, fetched: bool, o: Outcome)
    requires Testing(v, p, it, l, fetched) && HandlerCall(it.at, false).Some?
    requires o.resolved == (it.at.TestFetch? ==> fetched)
    ensures Testing(v, p, it.(first := Some(Answer(HandlerCall(it.at, false).value, p, o))), l, fetched)
  {
    hide StatusOf, StatusEnds, MayFetch;
  }

  /** The calls of the test succeed, its request as given. */
  ghost predicate TestStanding(states: seq<State>, choices: seq<Choice>, b: nat, j: nat, h: nat, fetched: bool) {
    WorkerRun(states, choices) && b < j <= |choices| && states[b].boot.None? && h !in states[b].handlers &&
    NoDeath(choices, b, j) &&
    (forall k :: b <= k < j ==> states[k].profile == states[b].profile && states[k].vars == states[b].vars) &&
    (forall k :: b < k < j && choices[k].PerformHandler? && choices[k].h == h && h in states[k].handlers ==>
       choices[k].o.resolved == (states[k].handlers[h].at.TestFetch? ==> fetched))
  }

  lemma TestStep(s: State, c: Choice, h: nat, l: Sample, fetched: bool)
    requires Enabled(s, c) && TestInv(s) && h in s.handlers && !c.Die?
    requires Testing(s.vars, s.profile, s.handlers[h], l, fetched)
    requires !s.handlers[h].at.TestQueued?
    requires c.PerformHandler? && c.h == h ==> c.o.resolved == (s.handlers[h].at.TestFetch? ==> fetched)
    ensures h in After(s, c).handlers && Testing(s.vars, s.profile, After(s, c).handlers[h], l, fetched)
  {
    hide HandlerMove, RefusedAgain, Testing, TestInv, Answer;
    if c.ResumeHandler? && c.h == h {
      TestMoves(s.vars, s.profile, s.handlers[h], l, fetched);
    } else if c.PerformHandler? && c.h == h {
      TestsCallOnce(s.vars, s.profile, s.handlers[h], l, fetched);
      TestHears(s.vars, s.profile, s.handlers[h], l, fetched, c.o);
    } else {
      OthersLeaveIt(s, c, h);
    }
  }

  lemma TestsCallOnce(v: Vars, p: Profile, it: Handler, l: Sample, fetched: bool)
    ensures Testing(v, p, it, l, fetched) ==> HandlerCall(it.at, true).None?
  {
  }

  /** Whatever TEST_IP begins while everything stands throws exactly if it may not fetch or its
      request fails; else it returns, or queues the clearing of the recorded error. */
  lemma {:induction false} TestAnswered(states: seq<State>, choices: seq<Choice>, b: nat, j: nat, h: nat, fetched: bool)
    requires TestStanding(states, choices, b, j, h, fetched) && choices[b] == TestIp(h)
    requires forall k :: b < k < j && h in states[k].handlers ==> !states[k].handlers[h].at.TestQueued?
    ensures h in states[j].handlers
    ensures var s, it := states[b], states[j].handlers[h];
      Testing(s.vars, s.profile, it, SampleNow(s.vars.epochs), fetched) &&
      (it.at.TestThrew? ==> !(MayFetch(s.vars, s.profile) && fetched)) &&
      (it.at.TestReturned? ==> MayFetch(s.vars, s.profile) && fetched && s.profile.storage.proxyError.None?) &&
      (it.at.TestQueued? ==>
         MayFetch(s.vars, s.profile) && fetched && s.profile.storage.proxyError == Some(it.at.error))
    decreases j
  {
    hide After, Enabled, MayFetch;
    var s := states[b];
    if j == b + 1 {
      TestBegins(s.vars, s.profile, fetched);
      TestWaits(s, choices[b]);
    } else {
      TestAnswered(states, choices, b, j - 1, h, fetched);
      AllInvAlways(states, choices, j - 1);
      TestStep(states[j - 1], choices[j - 1], h, SampleNow(s.vars.epochs), fetched);
    }
  }

  lemma TestWaits(s: State, c: Choice)
    requires Enabled(s, c) && c.TestIp?
    ensures c.h in After(s, c).handlers &&
      After(s, c).handlers[c.h] == Waiting(TestFirst(SampleNow(s.vars.epochs), TReadStorage))
  {
  }

  /** The clearing task settles its test: it goes on if the task returned, and throws else. */
  lemma ClearingSettles(s: State)
    requires Enabled(s, ResumeTask) && Ends(s, ResumeTask) && s.current.value.pc.Clearing?
    requires s.current.value.pc.handler in s.handlers
    ensures var pc := s.current.value.pc;
      After(s, ResumeTask).handlers[pc.handler] ==
        Waiting(if Returns(s, ResumeTask) then TestCleared(pc.sample) else TestThrew)
  {
    hide StatusNext;
  }

  /** A cleared test returns exactly if nothing has happened since its clearing began. */
  lemma ClearedReturns(v: Vars, l: Sample)
    ensures HandlerMove(v, Waiting(TestCleared(l))) ==
      if !v.changing && v.epochs == Epochs(l.epoch, l.settingEpoch, l.errorEpoch) then TestReturned(l) else TestThrew
  {
  }
}
