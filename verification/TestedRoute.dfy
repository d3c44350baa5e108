/** What a TEST_IP that returns an address has seen: twice the whole route, from storage to the
    settings in force, and before the request that the IP service is not excluded. */
module TestedRoute {
  import opened Wrappers
  import opened Text
  import opened Browser
  import opened Tasks
  import opened Worker
  import opened Coupling
  import opened Handlers
  import opened Answers
  import opened ErrorLog
  import opened Effects
  import Routing

  /** One thing that a status() of the test learns from Chrome. */
  datatype Probe =
    | IsStored(data: Storage)
    | ProxyWas(proxy: ProxySetting)
    | RtcWas
    | IncognitoRtcWas
    | IncognitoPacWas(pac: Pac)

  /** The status() the test is in: before the request, or after it. */
  function StatusIn(at: HandlerAt, second: bool): Option<StatusAt> {
    match at
    case TestFirst(_, status) => if second then None else Some(status)
    case TestSecond(_, _, status) => if second then Some(status) else None
    case _ => None
  }

  predicate Learns(probe: Probe, call: Call, r: Reply) {
    match probe
    case IsStored(data) => call == StorageGet && r == Data(data)
    case ProxyWas(proxy) => call == ProxyGet(false) && r == ProxyIs(proxy)
    case RtcWas => call == RtcGet(false) && RtcRestricted(r)
    case IncognitoRtcWas => call == IncognitoRtc && IncognitoRtcRestricted(r)
    case IncognitoPacWas(pac) => call == IncognitoProxy && (r.NotAllowed? || ProxyEffective(r, pac))
  }

  predicate Known(probe: Probe, at: StatusAt) {
    match probe
    case IsStored(data) => StatusData(at) == Some(data)
    case ProxyWas(proxy) =>
      (at.TReadRtc? || at.TReadIncognitoRtc? || at.TReadIncognitoProxy?) && at.proxy == proxy
    case RtcWas => at.TReadIncognitoRtc? || at.TReadIncognitoProxy?
    case IncognitoRtcWas => at.TReadIncognitoProxy?
    case IncognitoPacWas(_) => false
  }

  predicate Learnt(it: Handler, second: bool, probe: Probe) {
    StatusIn(it.at, second).Some? &&
    var at := StatusIn(it.at, second).value;
    Known(probe, at) || (it.first.Some? && Learns(probe, StatusCall(at), it.first.value))
  }

  /** What holds in Chrome at a probe. */
  predicate Held(probe: Probe, p: Profile) {
    match probe
    case IsStored(data) => p.storage == data
    case ProxyWas(proxy) => ProxyIn(p, false) == proxy
    case RtcWas => Restricted(RtcIn(p, false))
    case IncognitoRtcWas => p.outside.incognitoAllowed ==> Restricted(RtcIn(p, true))
    case IncognitoPacWas(pac) => p.outside.incognitoAllowed ==> Effective(ProxyIn(p, true), pac)
  }

  /** The step at which Chrome answers a probe of the test. */
  predicate Probes(s: State, c: Choice, h: nat, second: bool, probe: Probe) {
    c.PerformHandler? && c.h == h && h in s.handlers && StatusIn(s.handlers[h].at, second).Some? &&
    Held(probe, s.profile) &&
    var call := StatusCall(StatusIn(s.handlers[h].at, second).value);
    Learns(probe, call, Answer(call, s.profile, c.o))
  }

  lemma NextKnows(at: StatusAt, r: Reply, probe: Probe)
    ensures var n := StatusNext(at, r);
      n.More? && Known(probe, n.at) ==> Known(probe, at) || Learns(probe, StatusCall(at), r)
  {
  }

  lemma MoveLearns(v: Vars, it: Handler, second: bool, probe: Probe)
    requires Resumable(it)
    ensures Learnt(Waiting(HandlerMove(v, it)), second, probe) ==> Learnt(it, second, probe)
  {
    hide StatusNext, TestChanged, MayTest, IpServiceExcluded, AuthGuard, Learns;
    if it.at.TestFirst? || it.at.TestSecond? { NextKnows(it.at.at, it.first.value, probe); }
  }

  lemma AnswerLearns(s: State, h: nat, second: bool, o: Outcome, other: bool, probe: Probe)
    requires Enabled(s, PerformHandler(h, other, o))
    ensures Learnt(PerformedHandler(s, h, other, o).handlers[h], second, probe) ==>
      Learnt(s.handlers[h], second, probe) || Probes(s, PerformHandler(h, other, o), h, second, probe)
  {
  }

  lemma ProbeStep(s: State, c: Choice, h: nat, second: bool, probe: Probe)
    requires Enabled(s, c) && h in After(s, c).handlers && Learnt(After(s, c).handlers[h], second, probe)
    ensures (h in s.handlers && Learnt(s.handlers[h], second, probe)) || Probes(s, c, h, second, probe)
  {
    hide RefusedAgain, Resume, Performed, Start, HandlerMove, Learns, Known, PerformedHandler, Probes, Answer;
    if c.ResumeHandler? && c.h == h {
      MoveLearns(s.vars, s.handlers[h], second, probe);
    } else if c.PerformHandler? && c.h == h {
      AnswerLearns(s, h, second, c.o, c.second, probe);
    } else {
      OtherHandlers(s, c, h, second, probe);
    }
  }

  lemma OtherHandlers(s: State, c: Choice, h: nat, second: bool, probe: Probe)
    requires Enabled(s, c) && h in After(s, c).handlers && Learnt(After(s, c).handlers[h], second, probe)
    requires !((c.ResumeHandler? || c.PerformHandler?) && c.h == h)
    ensures h in s.handlers && Learnt(s.handlers[h], second, probe)
  {
    hide RefusedAgain, Resume, Performed, Start, HandlerMove, Answer, Learns;
  }

  /** Whatever a test has learnt since step i, Chrome told it at one of its steps. */
  lemma {:induction false} ProbeWasMade(states: seq<State>, choices: seq<Choice>, i: nat, j: nat, h: nat, second: bool,
                                        probe: Probe) returns (k: nat)
    requires Run(states, choices) && i <= j <= |choices| && h in states[j].handlers
    requires Learnt(states[j].handlers[h], second, probe)
    requires h in states[i].handlers ==> !Learnt(states[i].handlers[h], second, probe)
    ensures i <= k < j && Probes(states[k], choices[k], h, second, probe)
    decreases j
  {
    hide After, Enabled, Learnt, Probes;
    if i == j { assert false; }
    ProbeStep(states[j - 1], choices[j - 1], h, second, probe);
    if h in states[j - 1].handlers && Learnt(states[j - 1].handlers[h], second, probe) {
      k := ProbeWasMade(states, choices, i, j - 1, h, second, probe);
    } else {
      k := j - 1;
    }
  }

  ghost predicate Probed(states: seq<State>, choices: seq<Choice>, i: nat, j: nat, h: nat, second: bool, probe: Probe)
    requires j <= |choices| < |states|
  {
    exists k :: i <= k < j && Probes(states[k], choices[k], h, second, probe)
  }

  /** A status() of the test has seen the whole route: an enabled usable configuration, its PAC in
      force and WebRTC restricted, in incognito windows too, and no possibly direct error. */
  ghost predicate RouteSeen(states: seq<State>, choices: seq<Choice>, i: nat, j: nat, h: nat, second: bool,
                            data: Storage)
    requires j <= |choices| < |states|
  {
    Active(data) && (data.proxyError.Some? ==> !data.proxyError.value.possibleDirect) &&
    Probed(states, choices, i, j, h, second, IsStored(data)) &&
    (exists proxy :: Effective(proxy, StoredPac(data)) && Probed(states, choices, i, j, h, second, ProxyWas(proxy))) &&
    Probed(states, choices, i, j, h, second, RtcWas) && Probed(states, choices, i, j, h, second, IncognitoRtcWas) &&
    Probed(states, choices, i, j, h, second, IncognitoPacWas(StoredPac(data)))
  }

  /** The step at which a status() of the test says that the IP may be tested. */
  predicate MayGoOn(s: State, c: Choice, h: nat, second: bool) {
    c.ResumeHandler? && c.h == h && h in s.handlers && Resumable(s.handlers[h]) &&
    StatusIn(s.handlers[h].at, second).Some? &&
    var n := StatusNext(StatusIn(s.handlers[h].at, second).value, s.handlers[h].first.value);
    n.Ready? && MayTest(n.status)
  }

  /** status() goes on to incognito windows only over an active configuration. */
  predicate ReadsActive(it: Handler) {
    forall second: bool :: StatusIn(it.at, second).Some? ==> ActiveAt(StatusIn(it.at, second).value)
  }

  predicate ActiveAt(at: StatusAt) {
    at.TReadIncognitoRtc? || at.TReadIncognitoProxy? ==> Active(at.data)
  }

  lemma NextActive(at: StatusAt, r: Reply)
    ensures ActiveAt(at) && StatusNext(at, r).More? ==> ActiveAt(StatusNext(at, r).at)
  {
  }

  lemma ActiveStep(s: State, c: Choice, h: nat)
    requires Enabled(s, c) && h in After(s, c).handlers && (h in s.handlers ==> ReadsActive(s.handlers[h]))
    ensures ReadsActive(After(s, c).handlers[h])
  {
    hide RefusedAgain, Resume, Performed, Start, StatusNext, ActiveAt, Answer;
    FirstIsActive();
    if c.ResumeHandler? && c.h == h {
      var it := s.handlers[h];
      assert StatusIn(it.at, it.at.TestSecond?).Some? ==> ActiveAt(StatusIn(it.at, it.at.TestSecond?).value);
      if it.at.TestFirst? || it.at.TestSecond? { NextActive(it.at.at, it.first.value); }
    }
  }

  lemma FirstIsActive()
    ensures ActiveAt(TReadStorage)
  {
  }

  lemma {:induction false} ReadsActiveAlways(states: seq<State>, choices: seq<Choice>, j: nat, h: nat)
    requires WorkerRun(states, choices) && j <= |choices| && h in states[j].handlers
    ensures ReadsActive(states[j].handlers[h])
  {
    hide After, Enabled, ReadsActive;
    if j == 0 { assert false; }
    if h in states[j - 1].handlers { ReadsActiveAlways(states, choices, j - 1, h); }
    ActiveStep(states[j - 1], choices[j - 1], h);
  }

  lemma ReadyKnows(at: StatusAt, r: Reply)
    ensures var n := StatusNext(at, r);
      ActiveAt(at) && n.Ready? && MayTest(n.status) ==>
        at.TReadIncognitoProxy? && Active(at.data) && n.status.exclusions == ExclusionList(at.data.exclusions) &&
        n.status.proxyError == at.data.proxyError && Effective(at.proxy, StoredPac(at.data)) &&
        (r.NotAllowed? || ProxyEffective(r, StoredPac(at.data))) &&
        (at.data.proxyError.Some? ==> !at.data.proxyError.value.possibleDirect)
  {
  }

  predicate LearntRoute(it: Handler, second: bool, data: Storage, proxy: ProxySetting) {
    Active(data) && (data.proxyError.Some? ==> !data.proxyError.value.possibleDirect) &&
    Effective(proxy, StoredPac(data)) &&
    Learnt(it, second, IsStored(data)) && Learnt(it, second, ProxyWas(proxy)) && Learnt(it, second, RtcWas) &&
    Learnt(it, second, IncognitoRtcWas) && Learnt(it, second, IncognitoPacWas(StoredPac(data)))
  }

  lemma GoesOnKnowing(s: State, c: Choice, h: nat, second: bool) returns (data: Storage, proxy: ProxySetting)
    requires h in s.handlers && ReadsActive(s.handlers[h]) && MayGoOn(s, c, h, second)
    ensures LearntRoute(s.handlers[h], second, data, proxy)
    ensures var it := s.handlers[h];
      var status := StatusNext(StatusIn(it.at, second).value, it.first.value).status;
      status.exclusions == ExclusionList(data.exclusions) && status.proxyError == data.proxyError
  {
    var it := s.handlers[h];
    var at := StatusIn(it.at, second).value;
    ReadyKnows(at, it.first.value);
    data, proxy := at.data, at.proxy;
    hide StatusNext, MayTest, Active, Effective;
  }

  /** A status() that says so has seen the whole route since the test took it up. */
  lemma SeesRoute(states: seq<State>, choices: seq<Choice>, i: nat, j: nat, h: nat, second: bool)
    returns (data: Storage)
    requires WorkerRun(states, choices) && i <= j < |choices| && MayGoOn(states[j], choices[j], h, second)
    requires h in states[i].handlers ==> forall probe :: !Learnt(states[i].handlers[h], second, probe)
    ensures RouteSeen(states, choices, i, j, h, second, data)
    ensures var it := states[j].handlers[h];
      var status := StatusNext(StatusIn(it.at, second).value, it.first.value).status;
      status.exclusions == ExclusionList(data.exclusions) && status.proxyError == data.proxyError
  {
    hide After, Enabled, StatusNext, MayTest, Learnt, Probes, Effective, ReadsActive;
    ReadsActiveAlways(states, choices, j, h);
    var proxy;
    data, proxy := GoesOnKnowing(states[j], choices[j], h, second);
    var k := ProbeWasMade(states, choices, i, j, h, second, IsStored(data));
    k := ProbeWasMade(states, choices, i, j, h, second, ProxyWas(proxy));
    k := ProbeWasMade(states, choices, i, j, h, second, RtcWas);
    k := ProbeWasMade(states, choices, i, j, h, second, IncognitoRtcWas);
    k := ProbeWasMade(states, choices, i, j, h, second, IncognitoPacWas(StoredPac(data)));
  }

  /** The labels of the IP service. */
  const IP_LABELS := ["api", "ipify", "org"]

  predicate LowerLetters(s: string) {
    forall i :: 0 <= i < |s| ==> 'a' <= s[i] <= 'z'
  }

  lemma ThreeLabels(a: string, b: string, c: string)
    requires LowerLetters(a) && LowerLetters(b) && LowerLetters(c) && c != []
    ensures var s := a + ['.'] + (b + ['.'] + c);
      Split(Routing.WithoutLastDot(Lower(s)), '.') == [a, b, c]
  {
    var s := a + ['.'] + (b + ['.'] + c);
    assert Lower(s) == s && s[|s| - 1] == c[|c| - 1];
    SplitAt(a, b + ['.'] + c, '.');
    SplitAt(b, c, '.');
    SplitPlain(a, '.');
    SplitPlain(b, '.');
    SplitPlain(c, '.');
    hide Split, Lower;
    assert [a] + ([b] + [c]) == [a, b, c];
  }

  lemma ServiceName()
    ensures IP_SERVICE == "api" + ['.'] + ("ipify" + ['.'] + "org")
  {
  }

  lemma ServiceLabels()
    ensures Split(Routing.WithoutLastDot(Lower(IP_SERVICE)), '.') == IP_LABELS
  {
    hide Split, Lower, Routing.WithoutLastDot;
    ServiceName();
    ThreeLabels("api", "ipify", "org");
  }

  /** The step at which TEST_IP, after its second status(), returns or queues the clearing. */
  predicate PassesSecond(s: State, c: Choice, h: nat) {
    c.ResumeHandler? && c.h == h && h in s.handlers && Resumable(s.handlers[h]) && s.handlers[h].at.TestSecond? &&
    var to := HandlerMove(s.vars, s.handlers[h]);
    to.TestReturned? || to.TestQueued?
  }

  lemma GuardsGoOn(s: State, c: Choice)
    ensures StartsFetch(s, c) ==>
      MayGoOn(s, c, c.h, false) &&
      !Routing.IsExcludedHost(IP_SERVICE,
        StatusNext(StatusIn(s.handlers[c.h].at, false).value, s.handlers[c.h].first.value).status.exclusions)
  {
    hide StatusNext, TestChanged, Routing.IsExcludedHost;
  }

  lemma SecondGoesOn(s: State, c: Choice, h: nat)
    ensures PassesSecond(s, c, h) ==> MayGoOn(s, c, h, true)
  {
    hide StatusNext, TestChanged;
  }

  predicate PastSecond(at: HandlerAt) {
    at.TestQueued? || at.TestCleared? || at.TestReturned?
  }

  lemma PassesSecondStep(s: State, c: Choice, h: nat)
    requires Enabled(s, c) && TestInv(s) && h in After(s, c).handlers && PastSecond(After(s, c).handlers[h].at)
    ensures (h in s.handlers && PastSecond(s.handlers[h].at)) || PassesSecond(s, c, h)
  {
    hide Answer, Resume, TestsOk, RefusedAgain, Performed, Start, StatusNext;
  }

  /** A test that has an address to return has passed its second status() before. */
  lemma {:induction false} SecondWasPassed(states: seq<State>, choices: seq<Choice>, j: nat, h: nat) returns (m: nat)
    requires WorkerRun(states, choices) && j <= |choices|
    requires h in states[j].handlers && PastSecond(states[j].handlers[h].at)
    ensures m < j && PassesSecond(states[m], choices[m], h) && NoDeath(choices, m, j)
    decreases j
  {
    hide After, Enabled, PassesSecond;
    if j == 0 { assert false; }
    AllInvAlways(states, choices, j - 1);
    PassesSecondStep(states[j - 1], choices[j - 1], h);
    LivesOn(states[j - 1], choices[j - 1], h);
    if h in states[j - 1].handlers && PastSecond(states[j - 1].handlers[h].at) {
      m := SecondWasPassed(states, choices, j - 1, h);
    } else {
      m := j - 1;
    }
  }

  lemma LivesOn(s: State, c: Choice, h: nat)
    requires Enabled(s, c) && h in After(s, c).handlers
    ensures !c.Die?
  {
  }

  lemma PassedAfterFetch(s: State, c: Choice, h: nat)
    ensures PassesSecond(s, c, h) ==> c.h == h && h in s.handlers && PastFetch(s.handlers[h].at)
  {
  }

  lemma ReturnPoints(s: State, c: Choice)
    ensures ReturnsAddress(s, c) ==>
      c.h in s.handlers && (PastSecond(s.handlers[c.h].at) || PassesSecond(s, c, c.h))
  {
    hide StatusNext;
  }

  /** A returning test has passed its second status(), at this step or before. */
  lemma SecondPasses(states: seq<State>, choices: seq<Choice>, j: nat) returns (m: nat)
    requires WorkerRun(states, choices) && j < |choices| && ReturnsAddress(states[j], choices[j])
    ensures m <= j && PassesSecond(states[m], choices[m], choices[j].h) && NoDeath(choices, m, j)
  {
    hide After, Enabled, PassesSecond;
    ReturnPoints(states[j], choices[j]);
    if PassesSecond(states[j], choices[j], choices[j].h) {
      m := j;
    } else {
      m := SecondWasPassed(states, choices, j, choices[j].h);
    }
  }

  lemma NotExcluded(xs: seq<string>)
    ensures !Routing.IsExcludedHost(IP_SERVICE, xs) ==> forall x :: x in xs ==> !LabelSuffix(Split(x, '.'), IP_LABELS)
  {
    Routing.ExcludedByLabels(IP_SERVICE, xs);
    ServiceLabels();
    hide Routing.IsExcludedHost, Split, Lower, LabelSuffix, Routing.WithoutLastDot;
  }

  lemma StillFirst(s: State, c: Choice)
    ensures StartsFetch(s, c) ==>
      c.h in s.handlers && AuthOf(s.handlers[c.h].at).None? && forall probe :: !Learnt(s.handlers[c.h], true, probe)
  {
    hide HandlerMove;
  }

  /** A test that has reached its guard was begun as a test. */
  lemma TestBegan(states: seq<State>, choices: seq<Choice>, i: nat, h: nat) returns (b: nat)
    requires WorkerRun(states, choices) && i <= |choices| && h in states[i].handlers
    requires AuthOf(states[i].handlers[h].at).None?
    ensures b < i && NoDeath(choices, b, i) && h !in states[b].handlers && choices[b].TestIp? && choices[b].h == h
  {
    hide After, Enabled;
    b := HandlerHasBegun(states, choices, i, h);
    if choices[b].AuthRequired? {
      AuthStarts(states[b], choices[b]);
      SamplesStayInRun(states, choices, h, b + 1, i);
      assert false;
    }
  }

  /** For whatever step returns an address: before its request the test has read a storage in which
      no exclusion covers the IP service, by labels, so that the PAC sends that request through the
      proxy; before and after the request it has seen the whole route in force. */
  lemma AddressWasRouted(states: seq<State>, choices: seq<Choice>, j: nat)
    returns (b: nat, i: nat, m: nat, data: Storage, after: Storage)
    requires WorkerRun(states, choices) && j < |choices| && ReturnsAddress(states[j], choices[j])
    ensures b < i < m <= j && NoDeath(choices, b, j) && choices[b].TestIp? && choices[b].h == choices[j].h
    ensures StartsFetch(states[i], choices[i]) && choices[i].h == choices[j].h
    ensures PassesSecond(states[m], choices[m], choices[j].h)
    ensures RouteSeen(states, choices, b, i, choices[j].h, false, data)
    ensures forall x :: x in ExclusionList(data.exclusions) ==> !LabelSuffix(Split(x, '.'), IP_LABELS)
    ensures RouteSeen(states, choices, i, m, choices[j].h, true, after)
  {
    hide After, Enabled, StartsFetch, PassesSecond, MayGoOn, RouteSeen, HandlerMove, StatusNext, LabelSuffix, Split,
      Lower, Learnt;
    var h := choices[j].h;
    m := SecondPasses(states, choices, j);
    PassedAfterFetch(states[m], choices[m], h);
    i := GuardWasPassed(states, choices, m, h);
    GuardsGoOn(states[i], choices[i]);
    SecondGoesOn(states[m], choices[m], h);
    StillFirst(states[i], choices[i]);
    b := TestBegan(states, choices, i, h);
    data := SeesRoute(states, choices, b, i, h, false);
    NotExcluded(ExclusionList(data.exclusions));
    after := SeesRoute(states, choices, i, m, h, true);
  }
}
