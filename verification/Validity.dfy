/** What the popup's messages bring in is validated first, so in no run anything else is
    stored, set as a PAC or handed out as credentials. */
module Validity {
  import opened Wrappers
  import opened Browser
  import opened Tasks
  import opened Worker
  import opened Coupling
  import opened Answers
  import opened Messages
  import ConnectionKey
  import Routing
  import Text

  predicate ValidConfig(cfg: Config) {
    IsValid(cfg.connection) && Routing.Normal(cfg.exclusions)
  }

  predicate ValidExclusions(e: Stored<seq<string>>) {
    e.Saved? ==> Routing.Normal(e.value)
  }

  /** The readers return a connection or a list only if the validators accept it. */
  predicate ValidStorage(d: Storage) {
    (d.connection.Saved? ==> IsValid(d.connection.value)) && ValidExclusions(d.exclusions)
  }

  predicate ValidReply(r: Option<Reply>) {
    r.Some? && r.value.Data? ==> ValidStorage(r.value.data)
  }

  predicate ValidTask(t: Task) {
    match t
    case ImportKey(key) => key.Some? ==> IsValid(key.value)
    case SaveExclusions(text) => text.Some? ==> Routing.Normal(text.value)
    case _ => true
  }

  predicate ValidPc(pc: Pc) {
    match pc
    case Apply(_, cfg, _) => ValidConfig(cfg)
    case Connecting(cfg, _) => ValidConfig(cfg)
    case Importing(c, _) => IsValid(c)
    case SaveRead(next) => Routing.Normal(next)
    case SaveOff(next, _) => Routing.Normal(next)
    case Saving(c, before, next, _) => IsValid(c) && ValidExclusions(before) && Routing.Normal(next)
    case _ => true
  }

  predicate ValidFrame(f: Option<Frame>) {
    f.Some? ==> ValidPc(f.value.pc) && ValidReply(f.value.reply)
  }

  predicate ValidHandler(it: Handler) {
    ValidReply(it.first) &&
    match it.at
    case AuthReadTab(_, data) => ValidStorage(data)
    case AuthSnapshots(_, cfg, _) => ValidConfig(cfg)
    case AuthAnswered(_, answer) =>
      answer.Credentials? ==> ConnectionKey.IsUsername(answer.username) && ConnectionKey.IsPassword(answer.password)
    case _ => true
  }

  ghost predicate ValidTasks(q: seq<Task>) {
    forall i :: 0 <= i < |q| ==> ValidTask(q[i])
  }

  ghost predicate ValidHandlers(handlers: map<nat, Handler>) {
    forall h :: h in handlers ==> ValidHandler(handlers[h])
  }

  ghost predicate ValidState(s: State) {
    ValidStorage(s.profile.storage) && ValidFrame(s.boot) && ValidFrame(s.current) &&
    ValidTasks(s.queue) && ValidTasks(s.waiting) && ValidHandlers(s.handlers)
  }

  /** The parsers of key and text stand between a message and its task. */
  lemma MessagesAreValid(m: Message)
    ensures ValidTask(TaskOf(m))
  {
    hide IsValid, Routing.Normal, Routing.Normalized;
    hide ConnectionKey.ParseConnectionKey, ConnectionKey.ValidateConnection;
    match m
    case ImportKey(key) =>
      if ConnectionKey.ParseConnectionKey(key).Ok? {
        ParsedIsValidated(key);
        var j :| ConnectionKey.ValidateConnection(j) == ConnectionKey.ParseConnectionKey(key);
        ValidatedIsValid(j);
      }
    case SaveExclusions(text) =>
      if Routing.Normalized(text).Ok? { Routing.NormalizedIsNormal(text); }
    case _ =>
  }

  lemma EmptyIsNormal()
    ensures Routing.Normal([])
  {
  }

  lemma PerformStaysValid(p: Profile, pc: Pc, o: Outcome)
    requires ValidStorage(p.storage) && ValidPc(pc)
    ensures ValidStorage(Performed(CallOf(pc), p, o).storage)
    ensures ValidReply(Some(Answer(CallOf(pc), p, o)))
  {
    EmptyIsNormal();
    hide IsValid, Routing.Normal;
  }

  predicate StaysValid(n: Next) {
    n.Go? ==> ValidPc(n.pc)
  }

  lemma ApplyStaysValid(caller: Caller, cfg: Config, at: ApplyAt, f: Flags, r: Reply)
    requires ValidConfig(cfg)
    ensures StaysValid(ResumeApply(caller, cfg, at, f, r).next)
  {
    hide ValidConfig, IncognitoProxyState, IncognitoRtcRestricted, ProxyEffective;
  }

  lemma ConnectStaysValid(cfg: Config, at: ConnectAt, f: Flags, r: Reply)
    requires ValidConfig(cfg)
    ensures StaysValid(ResumeConnect(cfg, at, f, r).next)
  {
    hide ValidConfig, IncognitoProxyState, IncognitoRtcRestricted, ProxyEffective;
  }

  lemma SaveStaysValid(c: Connection, before: Stored<seq<string>>, next: seq<string>, at: SaveAt, f: Flags, r: Reply)
    requires ValidPc(Saving(c, before, next, at))
    ensures StaysValid(ResumeSave(c, before, next, at, f, r).next)
  {
    hide IsValid, ValidExclusions, Routing.Normal, IncognitoProxyState, IncognitoRtcRestricted, ProxyEffective;
  }

  lemma ResumeStaysValid(pc: Pc, f: Flags, r: Reply, now: Epochs)
    requires ValidPc(pc) && ValidReply(Some(r))
    ensures StaysValid(Resume(pc, f, r, now).next)
  {
    EmptyIsNormal();
    hide IsValid, Routing.Normal, ResumeApply, ResumeConnect, ResumeSave;
    match pc
    case Apply(caller, cfg, at) => ApplyStaysValid(caller, cfg, at, f, r);
    case Connecting(cfg, at) => ConnectStaysValid(cfg, at, f, r);
    case Saving(c, before, next, at) => SaveStaysValid(c, before, next, at, f, r);
    case _ =>
  }

  lemma StartIsValid(t: Task, f: Flags, now: Epochs)
    requires ValidTask(t)
    ensures ValidPc(Start(t, f, now).pc)
  {
    hide IsValid, Routing.Normal;
  }

  lemma MoveStaysValid(v: Vars, it: Handler)
    requires Resumable(it) && ValidHandler(it)
    ensures ValidHandler(Waiting(HandlerMove(v, it)))
  {
    EmptyIsNormal();
    hide Routing.IsValidHost, Text.Lower, Routing.Normal, ConnectionKey.IsUsername, ConnectionKey.IsPassword;
  }

  lemma ResumeTaskStaysValid(s: State)
    requires ValidState(s) && Enabled(s, ResumeTask)
    ensures ValidState(ResumedTask(s))
  {
    hide Resume, ValidPc, ValidStorage, ValidTask;
    ResumeStaysValid(s.current.value.pc, s.vars.flags, s.current.value.reply.value, s.vars.epochs);
  }

  lemma BeginStaysValid(s: State)
    requires ValidState(s) && Enabled(s, Begin)
    ensures ValidState(Begun(s))
  {
    hide Start, ValidPc, ValidStorage, ValidTask;
    StartIsValid(s.queue[0], s.vars.flags, s.vars.epochs.(configuration := s.vars.epochs.configuration + 1));
  }

  lemma MovedStaysValid(s: State, h: nat, to: HandlerAt)
    requires ValidState(s) && ValidHandler(Waiting(to))
    ensures ValidState(Moved(s, h, to))
  {
    hide ValidHandler, ValidStorage, ValidFrame, ValidTask;
  }

  lemma ResumeHandlerStaysValid(s: State, h: nat, at: int)
    requires ValidState(s) && Enabled(s, ResumeHandler(h, at))
    ensures ValidState(ResumedHandler(s, h, at))
  {
    assert ValidHandler(s.handlers[h]);
    hide ValidHandlers, ValidHandler, ValidStorage, ValidFrame, HandlerMove, RefusedAgain;
    MoveStaysValid(s.vars, s.handlers[h]);
    MovedStaysValid(s, h, HandlerMove(s.vars, s.handlers[h]));
  }

  lemma AnswerStaysValid(s: State, h: nat, second: bool, o: Outcome)
    requires ValidStorage(s.profile.storage) && ValidHandlers(s.handlers) && Enabled(s, PerformHandler(h, second, o))
    ensures ValidHandlers(PerformedHandler(s, h, second, o).handlers)
  {
    hide ValidStorage, ValidConfig, ConnectionKey.IsUsername, ConnectionKey.IsPassword;
  }

  lemma StartsValid(p: Profile)
    requires ValidStorage(p.storage)
    ensures ValidState(Started(p))
  {
    hide ValidStorage;
  }

  lemma ValidStep(s: State, c: Choice)
    requires ValidState(s) && Enabled(s, c) && (c.Message? ==> ValidTask(c.task))
    ensures ValidState(After(s, c))
  {
    hide ValidStorage, ValidConfig, ValidHandlers;
    hide ResumedTask, Begun, ResumedHandler, Resume, Answer, Performed, CallOf;
    match c
    case PerformBoot(o) => PerformStaysValid(s.profile, s.boot.value.pc, o);
    case ResumeBoot => ResumeStaysValid(s.boot.value.pc, s.vars.flags, s.boot.value.reply.value, s.vars.epochs);
    case PerformTask(o) => PerformStaysValid(s.profile, s.current.value.pc, o);
    case ResumeTask => ResumeTaskStaysValid(s);
    case Begin => BeginStaysValid(s);
    case AuthRequired(h, challenge) => MovedStaysValid(s, h, AuthStart(s.vars, challenge));
    case TestIp(h) => MovedStaysValid(s, h, TestFirst(SampleNow(s.vars.epochs), TReadStorage));
    case PerformHandler(h, second, o) => AnswerStaysValid(s, h, second, o);
    case ResumeHandler(h, at) => ResumeHandlerStaysValid(s, h, at);
    case Die => StartsValid(s.profile);
    case _ =>
  }

  /** A run of the worker on a valid profile, whose commands are the popup's messages. */
  ghost predicate PopupRun(states: seq<State>, choices: seq<Choice>) {
    WorkerRun(states, choices) && ValidStorage(states[0].profile.storage) &&
    forall i :: 0 <= i < |choices| && choices[i].Message? ==> exists m :: choices[i].task == TaskOf(m)
  }

  lemma {:induction false} ValidAlways(states: seq<State>, choices: seq<Choice>, i: nat)
    requires PopupRun(states, choices) && i <= |choices|
    ensures ValidState(states[i])
  {
    hide After, Enabled, ValidState, ValidStorage, ValidTask, TaskOf;
    if i == 0 {
      StartsValid(states[0].profile);
    } else {
      ValidAlways(states, choices, i - 1);
      var c := choices[i - 1];
      if c.Message? {
        var m :| c.task == TaskOf(m);
        MessagesAreValid(m);
      }
      ValidStep(states[i - 1], c);
    }
  }

  /** The PAC that a step asks Chrome to set. */
  function SetBy(s: State, c: Choice): Option<Pac>
    requires Enabled(s, c)
  {
    var call :=
      if c.PerformBoot? then CallOf(s.boot.value.pc) else if c.PerformTask? then CallOf(s.current.value.pc) else Report;
    if call.ProxySet? then Some(call.pac) else None
  }

  lemma SetsFromValid(pc: Pc) returns (cfg: Config)
    requires ValidPc(pc) && CallOf(pc).ProxySet?
    ensures ValidConfig(cfg) && CallOf(pc).pac == BuildProxyConfig(cfg)
  {
    EmptyIsNormal();
    hide IsValid, Routing.Normal;
    cfg :=
      if pc.Apply? || pc.Connecting? then pc.cfg
      else Config(pc.connection, if pc.s.SSetPac? then pc.next else ExclusionList(pc.before));
  }

  /** Whatever PAC is set in whatever run, buildProxyConfig did not throw for it: it is the
      one it builds from a connection and exclusions that validate. */
  lemma SetsWhatBuilds(states: seq<State>, choices: seq<Choice>, k: nat) returns (cfg: Config)
    requires PopupRun(states, choices) && k < |choices| && SetBy(states[k], choices[k]).Some?
    ensures ValidConfig(cfg)
    ensures BuildPac(JsonOf(cfg.connection), cfg.exclusions) == Ok(SetBy(states[k], choices[k]).value)
  {
    ValidAlways(states, choices, k);
    hide After, IsValid, Routing.Normal, Routing.Normalized, CallOf, ConnectionKey.ValidateConnection;
    cfg := SetsFromValid(if choices[k].PerformBoot? then states[k].boot.value.pc else states[k].current.value.pc);
    ValidReadsBack(cfg.connection);
    Routing.NormalizingTwice(cfg.exclusions);
  }

  /** Credentials handed out in whatever run can be written as a Basic header: no control
      character, and no colon in the name (section 2 of RFC 7617). */
  lemma GrantsWritable(states: seq<State>, choices: seq<Choice>, k: nat)
    requires PopupRun(states, choices) && k < |choices| && Grants(states[k], choices[k])
    ensures var answer := HandlerMove(states[k].vars, states[k].handlers[choices[k].h]).answer;
      ConnectionKey.IsUsername(answer.username) && ConnectionKey.IsPassword(answer.password)
  {
    ValidAlways(states, choices, k);
    hide After, Enabled, HandlerMove, ConnectionKey.IsUsername, ConnectionKey.IsPassword;
    MoveStaysValid(states[k].vars, states[k].handlers[choices[k].h]);
  }
}
