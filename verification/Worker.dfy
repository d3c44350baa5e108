/** The service worker and its browser as one transition system.

    A choice is one atomic step: another extension acts, the browser carries out
    one pending call, one stretch of worker code runs, an event is delivered, or
    the worker dies and is started again. A run is any sequence of choices. */
module Worker {
  import opened Wrappers
  import opened Browser
  import opened Tasks
  import Routing

  /** A task waiting for `CallOf(pc)`; the reply is set once the browser has answered. */
  datatype Frame = Frame(pc: Pc, reply: Option<Reply>)

  datatype TabKind = InTab | OwnWorker(incognito: bool) | Unknown

  /** The part of an onAuthRequired event the handler reads; `host` is lower-cased. */
  datatype Challenge = Challenge(requestId: nat, basicProxy407: bool, host: string, port: int, tab: TabKind)

  datatype AuthSample = AuthSample(challenge: Challenge, epoch: nat, settingEpoch: nat)

  datatype AuthAnswer = Ignored | Cancelled | Credentials(username: string, password: string)

  datatype HandlerAt =
    | AuthReadStorage(a: AuthSample)
    | AuthReadTab(a: AuthSample, data: Storage)
    | AuthSnapshots(a: AuthSample, cfg: Config, incognito: bool)
    | AuthAnswered(a: AuthSample, answer: AuthAnswer)
    | TestFirst(l: Sample, at: StatusAt)
    | TestFetch(l: Sample, previous: Option<ErrorRecord>)
    | TestSecond(l: Sample, previous: Option<ErrorRecord>, at: StatusAt)
    | TestQueued(l: Sample, error: ErrorRecord)
    | TestCleared(l: Sample)
    | TestReturned(l: Sample)
    | TestThrew

  /** `second` is used only for the pair of reads under Promise.all. */
  datatype Handler = Handler(at: HandlerAt, first: Option<Reply>, second: Option<Reply>)

  function Waiting(at: HandlerAt): Handler {
    Handler(at, None, None)
  }

  function HandlerCall(at: HandlerAt, second: bool): Option<Call> {
    match at
    case AuthReadStorage(_) => if second then None else Some(StorageGet)
    case AuthReadTab(_, _) => if second then None else Some(TabGet)
    case AuthSnapshots(_, _, incognito) => Some(if second then RtcGet(incognito) else ProxyGet(incognito))
    case TestFirst(_, at) => if second then None else Some(StatusCall(at))
    case TestFetch(_, _) => if second then None else Some(Fetch)
    case TestSecond(_, _, at) => if second then None else Some(StatusCall(at))
    case _ => None
  }

  /** The module variables other than the queue. */
  datatype Vars = Vars(epochs: Epochs, changing: bool, flags: Flags, attempts: set<nat>)

  /** `lastBegun` is bookkeeping no step reads: the task that raised the epoch last. */
  datatype State = State(
    profile: Profile,
    vars: Vars,
    boot: Option<Frame>,
    waiting: seq<Task>,
    queue: seq<Task>,
    current: Option<Frame>,
    handlers: map<nat, Handler>,
    lastBegun: Option<Task>)

  datatype Choice =
    | OthersAct(outside: Outside)
    | PerformBoot(o: Outcome)
    | ResumeBoot
    | PerformTask(o: Outcome)
    | ResumeTask
    | Begin
    | Message(task: Task)
    | ProxySettingEvent
    | RtcSettingEvent
    | Release
    | ProxyError(error: ErrorRecord)
    | AuthRequired(h: nat, challenge: Challenge)
    | TestIp(h: nat)
    | PerformHandler(h: nat, second: bool, o: Outcome)
    | ResumeHandler(h: nat, at: int)
    | RequestDone(requestId: nat)
    | Die

  /** A worker just started on a profile: module variables are fresh and boot runs. */
  function Started(p: Profile): State {
    State(p, Vars(Epochs(0, 0, 0), false, Flags(false, false), {}),
          Some(Frame(Reconcile(AtBoot, AccessLevel), None)), [], [], None, map[], None)
  }

  predicate UserTask(t: Task) {
    t.ImportKey? || t.Connect? || t.Disconnect? || t.Forget? || t.SaveExclusions?
  }

  predicate Enabled(s: State, c: Choice) {
    match c
    case OthersAct(_) => true
    case PerformBoot(o) => s.boot.Some? && s.boot.value.reply.None? && Possible(CallOf(s.boot.value.pc), o)
    case ResumeBoot => s.boot.Some? && s.boot.value.reply.Some?
    case PerformTask(o) => s.current.Some? && s.current.value.reply.None? && Possible(CallOf(s.current.value.pc), o)
    case ResumeTask => s.current.Some? && s.current.value.reply.Some?
    case Begin => s.current.None? && s.queue != []
    case Message(task) => s.boot.None? && UserTask(task)
    case ProxySettingEvent => true
    case RtcSettingEvent => true
    case Release => s.boot.None? && s.waiting != []
    case ProxyError(_) => true
    case AuthRequired(h, _) => s.boot.None? && h !in s.handlers
    case TestIp(h) => s.boot.None? && h !in s.handlers
    case PerformHandler(h, second, _) =>
      h in s.handlers && HandlerCall(s.handlers[h].at, second).Some? &&
      (if second then s.handlers[h].second.None? else s.handlers[h].first.None?)
    case ResumeHandler(h, _) => h in s.handlers && Resumable(s.handlers[h])
    case RequestDone(_) => true
    case Die => true
  }

  predicate Resumable(h: Handler) {
    if h.at.TestCleared? then true
    else HandlerCall(h.at, false).Some? && h.first.Some? && (h.at.AuthSnapshots? ==> h.second.Some?)
  }

  function After(s: State, c: Choice): State
    requires Enabled(s, c)
  {
    match c
    case OthersAct(outside) => s.(profile := s.profile.(outside := outside))
    case PerformBoot(o) => PerformedBoot(s, o)
    case ResumeBoot => ResumedBoot(s)
    case PerformTask(o) => PerformedTask(s, o)
    case ResumeTask => ResumedTask(s)
    case Begin => Begun(s)
    case Message(task) => s.(queue := s.queue + [task])
    case ProxySettingEvent => SettingChanged(s, ProxyChanged)
    case RtcSettingEvent => SettingChanged(s, RtcChanged)
    case Release => s.(queue := s.queue + [s.waiting[0]], waiting := s.waiting[1..])
    case ProxyError(error) => ErrorArrived(s, RecordProxyError(s.vars.epochs.error + 1, error))
    case AuthRequired(h, challenge) => Moved(s, h, AuthStart(s.vars, challenge))
    case TestIp(h) => Moved(s, h, TestFirst(SampleNow(s.vars.epochs), TReadStorage))
    case PerformHandler(h, second, o) => PerformedHandler(s, h, second, o)
    case ResumeHandler(h, at) => ResumedHandler(s, h, at)
    case RequestDone(requestId) => s.(vars := s.vars.(attempts := s.vars.attempts - {requestId}))
    case Die => Started(s.profile)
  }

  function SampleNow(e: Epochs): Sample {
    Sample(e.configuration, e.configuration, e.setting, e.error)
  }

  function PerformedBoot(s: State, o: Outcome): State
    requires s.boot.Some?
  {
    var call := CallOf(s.boot.value.pc);
    s.(profile := Performed(call, s.profile, o),
       boot := Some(Frame(s.boot.value.pc, Some(Answer(call, s.profile, o)))))
  }

  function ResumedBoot(s: State): State
    requires s.boot.Some? && s.boot.value.reply.Some?
  {
    var step := Resume(s.boot.value.pc, s.vars.flags, s.boot.value.reply.value, s.vars.epochs);
    s.(vars := s.vars.(flags := step.flags),
       boot := if step.next.Go? then Some(Frame(step.next.pc, None)) else None)
  }

  function PerformedHandler(s: State, h: nat, second: bool, o: Outcome): State
    requires h in s.handlers && HandlerCall(s.handlers[h].at, second).Some?
  {
    var it := s.handlers[h];
    var reply := Some(Answer(HandlerCall(it.at, second).value, s.profile, o));
    s.(handlers := s.handlers[h := if second then it.(second := reply) else it.(first := reply)])
  }

  function PerformedTask(s: State, o: Outcome): State
    requires s.current.Some?
  {
    var call := CallOf(s.current.value.pc);
    s.(profile := Performed(call, s.profile, o),
       current := Some(Frame(s.current.value.pc, Some(Answer(call, s.profile, o)))))
  }

  function ResumedTask(s: State): State
    requires s.current.Some? && s.current.value.reply.Some?
  {
    var pc := s.current.value.pc;
    var reply := s.current.value.reply.value;
    var step := Resume(pc, s.vars.flags, reply, s.vars.epochs);
    var s1 := s.(vars := s.vars.(flags := step.flags));
    if step.next.Go? then s1.(current := Some(Frame(step.next.pc, None)))
    else s1.(current := None, vars := s1.vars.(changing := false),
             handlers := Settled(s.handlers, pc, reply))
  }

  /** `exclusive` starting the next queued task. */
  function Begun(s: State): State
    requires s.queue != []
  {
    var e := s.vars.epochs.(configuration := s.vars.epochs.configuration + 1);
    var first := Start(s.queue[0], s.vars.flags, e);
    s.(queue := s.queue[1..],
       vars := s.vars.(epochs := e, changing := true, flags := first.flags),
       current := Some(Frame(first.pc, None)),
       lastBegun := Some(s.queue[0]),
       handlers := if s.queue[0].ClearTestedError? && first.pc.Settle?
                   then Put(s.handlers, s.queue[0].handler, TestThrew) else s.handlers)
  }

  function Put(handlers: map<nat, Handler>, h: nat, at: HandlerAt): map<nat, Handler> {
    if h in handlers then handlers[h := Waiting(at)] else handlers
  }

  /** The promise returned to testIp settles when its clearing task ends. */
  function Settled(handlers: map<nat, Handler>, pc: Pc, reply: Reply): map<nat, Handler> {
    if pc.Clearing? then
      Put(handlers, pc.handler, if pc.k.KBadge? && !reply.Rejected? then TestCleared(pc.sample) else TestThrew)
    else handlers
  }

  function SettingChanged(s: State, t: Task): State {
    s.(vars := s.vars.(epochs := s.vars.epochs.(setting := s.vars.epochs.setting + 1)),
       waiting := s.waiting + [t])
  }

  function ErrorArrived(s: State, t: Task): State {
    s.(vars := s.vars.(epochs := s.vars.epochs.(error := s.vars.epochs.error + 1)),
       queue := s.queue + [t])
  }

  function AuthStart(v: Vars, challenge: Challenge): HandlerAt {
    var a := AuthSample(challenge, v.epochs.configuration, v.epochs.setting);
    if !challenge.basicProxy407 then AuthAnswered(a, Ignored)
    else if v.changing then AuthAnswered(a, Cancelled)
    else AuthReadStorage(a)
  }

  predicate Matching(challenge: Challenge, c: Connection) {
    challenge.basicProxy407 && challenge.host == c.host && challenge.port == c.port
  }

  /** From a known tab context to the pair of setting reads. */
  function AuthContext(a: AuthSample, data: Storage, incognito: bool): HandlerAt {
    if !data.connection.Saved? || data.exclusions.Damaged? then AuthAnswered(a, Cancelled)
    else AuthSnapshots(a, Config(data.connection.value, ExclusionList(data.exclusions)), incognito)
  }

  function AuthAfterStorage(a: AuthSample, r: Reply): HandlerAt {
    if !r.Data? || !r.data.enabled || !r.data.connection.Saved? ||
       !Matching(a.challenge, r.data.connection.value) then AuthAnswered(a, Ignored)
    else
      match a.challenge.tab
      case InTab => AuthReadTab(a, r.data)
      case OwnWorker(incognito) => AuthContext(a, r.data, incognito)
      case Unknown => AuthAnswered(a, Cancelled)
  }

  predicate AuthGuard(v: Vars, a: AuthSample, cfg: Config, proxy: Reply, rtc: Reply) {
    !v.changing && v.epochs.configuration == a.epoch && v.epochs.setting == a.settingEpoch &&
    ProxyEffective(proxy, BuildProxyConfig(cfg)) && RtcRestricted(rtc)
  }

  predicate TestChanged(v: Vars, l: Sample) {
    v.changing || Changed(l, v.epochs)
  }

  predicate MayTest(status: Status) {
    status.active || status.canRetryIp
  }

  const IP_SERVICE := "api.ipify.org"

  predicate IpServiceExcluded(status: Status) {
    Routing.IsExcludedHost(IP_SERVICE, status.exclusions)
  }

  /** Where one stretch of a handler leads, given the module variables. */
  function HandlerMove(v: Vars, it: Handler): HandlerAt
    requires Resumable(it)
  {
    match it.at
    case AuthReadStorage(a) => AuthAfterStorage(a, it.first.value)
    case AuthReadTab(a, data) =>
      if it.first.value.TabIs? && it.first.value.incognito.Some?
      then AuthContext(a, data, it.first.value.incognito.value) else AuthAnswered(a, Cancelled)
    case AuthSnapshots(a, cfg, _) =>
      AuthAnswered(a,
        if AuthGuard(v, a, cfg, it.first.value, it.second.value) && a.challenge.requestId !in v.attempts
        then Credentials(cfg.connection.username, cfg.connection.password) else Cancelled)
    case TestFirst(l, status) =>
      (match StatusNext(status, it.first.value)
       case More(next) => TestFirst(l, next)
       case Threw => TestThrew
       case Ready(current) =>
         if TestChanged(v, l) || !MayTest(current) || IpServiceExcluded(current) then TestThrew
         else TestFetch(l, current.proxyError))
    case TestFetch(l, previous) =>
      if it.first.value.Rejected? then TestThrew else TestSecond(l, previous, TReadStorage)
    case TestSecond(l, previous, status) =>
      (match StatusNext(status, it.first.value)
       case More(next) => TestSecond(l, previous, next)
       case Threw => TestThrew
       case Ready(after) =>
         if TestChanged(v, l) || !MayTest(after) then TestThrew
         else if previous.None? then TestReturned(l)
         else TestQueued(l, previous.value))
    case TestCleared(l) => if TestChanged(v, l) then TestThrew else TestReturned(l)
    case _ => it.at
  }

  /** The second challenge of a request whose credentials were refused. */
  predicate RefusedAgain(v: Vars, it: Handler)
    requires Resumable(it)
  {
    it.at.AuthSnapshots? && AuthGuard(v, it.at.a, it.at.cfg, it.first.value, it.second.value) &&
    it.at.a.challenge.requestId in v.attempts
  }

  function ResumedHandler(s: State, h: nat, at: int): State
    requires h in s.handlers && Resumable(s.handlers[h])
  {
    var it := s.handlers[h];
    var to := HandlerMove(s.vars, it);
    var moved := Moved(s, h, to);
    if it.at.AuthSnapshots? then
      if RefusedAgain(s.vars, it) then
        var error := ErrorRecord(false, "AUTH_FAILED", at);
        ErrorArrived(moved, RecordAuthError(s.vars.epochs.error + 1, error))
      else if to.answer.Credentials? then
        moved.(vars := moved.vars.(attempts := moved.vars.attempts + {it.at.a.challenge.requestId}))
      else moved
    else if to.TestQueued? && !it.at.TestQueued? then
      moved.(queue := moved.queue + [ClearTestedError(h, to.l, to.error)])
    else moved
  }

  function Moved(s: State, h: nat, at: HandlerAt): State {
    s.(handlers := s.handlers[h := Waiting(at)])
  }

  /** A run: the state after each prefix of a sequence of choices. */
  predicate Run(states: seq<State>, choices: seq<Choice>) {
    |states| == |choices| + 1 &&
    forall i :: 0 <= i < |choices| ==> Enabled(states[i], choices[i]) && states[i + 1] == After(states[i], choices[i])
  }
}
