/** A proxy error that arrives stays recorded until something accounts for it. */
module ErrorLog {
  import opened Wrappers
  import opened Browser
  import opened Tasks
  import opened Worker
  import opened Coupling
  import opened Handlers
  import opened Answers

  predicate RecordTask(t: Task) {
    t.RecordProxyError? || t.RecordAuthError?
  }

  predicate Recording(pc: Pc) {
    pc.RecordRead? || pc.RecordStore?
  }

  ghost predicate Queued(q: seq<Task>, id: nat) {
    exists i :: 0 <= i < |q| && RecordTask(q[i]) && q[i].id == id
  }

  /** Errors are recorded in order of arrival, and the newest is never behind. */
  ghost predicate InOrder(s: State) {
    (forall i :: 0 <= i < |s.queue| && RecordTask(s.queue[i]) ==>
       s.queue[i].id <= s.vars.epochs.error && Queued(s.queue, s.vars.epochs.error)) &&
    (forall i, j :: 0 <= i < j < |s.queue| && RecordTask(s.queue[i]) && RecordTask(s.queue[j]) ==>
       s.queue[i].id < s.queue[j].id) &&
    (s.current.Some? && Recording(s.current.value.pc) ==>
       s.current.value.pc.id <= s.vars.epochs.error &&
       (s.current.value.pc.id < s.vars.epochs.error ==> Queued(s.queue, s.vars.epochs.error)) &&
       (forall i :: 0 <= i < |s.queue| && RecordTask(s.queue[i]) ==> s.current.value.pc.id < s.queue[i].id)) &&
    (forall i :: 0 <= i < |s.waiting| ==> !RecordTask(s.waiting[i]))
  }

  lemma AppendInOrder(s: State, t: Task)
    requires InOrder(s) && !RecordTask(t)
    ensures InOrder(s.(queue := s.queue + [t]))
  {
    var q := s.queue + [t];
    if Queued(s.queue, s.vars.epochs.error) {
      var i :| 0 <= i < |s.queue| && RecordTask(s.queue[i]) && s.queue[i].id == s.vars.epochs.error;
      assert q[i] == s.queue[i];
    }
  }

  lemma ArrivalInOrder(s: State, t: Task)
    requires InOrder(s) && RecordTask(t) && t.id == s.vars.epochs.error + 1
    ensures InOrder(ErrorArrived(s, t))
  {
    var q := s.queue + [t];
    assert RecordTask(q[|s.queue|]) && q[|s.queue|].id == s.vars.epochs.error + 1;
  }

  lemma BeginInOrder(s: State)
    requires InOrder(s) && Enabled(s, Begin)
    ensures InOrder(Begun(s))
  {
    var n := s.vars.epochs.error;
    var q := s.queue[1..];
    assert forall i :: 0 <= i < |q| ==> q[i] == s.queue[i + 1];
    if Queued(s.queue, n) {
      var i :| 0 <= i < |s.queue| && RecordTask(s.queue[i]) && s.queue[i].id == n;
      if i > 0 { assert q[i - 1] == s.queue[i]; }
    }
  }

  lemma ResumeTaskInOrder(s: State)
    requires InOrder(s) && Enabled(s, ResumeTask)
    ensures InOrder(ResumedTask(s))
  {
    hide Settled;
  }

  ghost predicate NoRecords(waiting: seq<Task>) {
    forall i :: 0 <= i < |waiting| ==> !RecordTask(waiting[i])
  }

  lemma QueueAside(s: State, t: State)
    requires InOrder(s) && t.queue == s.queue && t.vars.epochs.error == s.vars.epochs.error && NoRecords(t.waiting)
    requires t.current.Some? ==> s.current.Some? && t.current.value.pc == s.current.value.pc
    ensures InOrder(t)
  {
  }

  lemma ResumeHandlerInOrder(s: State, h: nat, at: int)
    requires InOrder(s) && Enabled(s, ResumeHandler(h, at))
    ensures InOrder(ResumedHandler(s, h, at))
  {
    assert NoRecords(s.waiting);
    hide HandlerMove, RefusedAgain, InOrder, NoRecords;
    var it := s.handlers[h];
    var to := HandlerMove(s.vars, it);
    var moved := Moved(s, h, to);
    QueueAside(s, moved);
    if it.at.AuthSnapshots? {
      if RefusedAgain(s.vars, it) {
        ArrivalInOrder(moved, RecordAuthError(s.vars.epochs.error + 1, ErrorRecord(false, "AUTH_FAILED", at)));
      } else {
        QueueAside(s, ResumedHandler(s, h, at));
      }
    } else if to.TestQueued? {
      AppendInOrder(moved, ClearTestedError(h, to.l, to.error));
    }
  }

  lemma ReleaseInOrder(s: State)
    requires InOrder(s) && Enabled(s, Release)
    ensures InOrder(After(s, Release))
  {
    assert NoRecords(s.waiting);
    AppendInOrder(s, s.waiting[0]);
    QueueAside(s.(queue := s.queue + [s.waiting[0]]), After(s, Release));
  }

  lemma InOrderStep(s: State, c: Choice)
    requires Inv(s) && InOrder(s) && Enabled(s, c)
    ensures InOrder(After(s, c))
  {
    assert NoRecords(s.waiting);
    hide InOrder, ResumedTask, Begun, ResumedHandler, PerformedHandler, ErrorArrived, Resume, Answer;
    match c
    case ResumeTask => ResumeTaskInOrder(s);
    case Begin => BeginInOrder(s);
    case Message(task) => AppendInOrder(s, task);
    case Release => ReleaseInOrder(s);
    case ProxyError(error) => ArrivalInOrder(s, RecordProxyError(s.vars.epochs.error + 1, error));
    case ResumeHandler(h, at) => ResumeHandlerInOrder(s, h, at);
    case PerformHandler(h, second, o) =>
      PerformHandlerFrame(s, h, second, o);
      QueueAside(s, After(s, c));
    case Die => StartedInOrder(s.profile);
    case _ => QueueAside(s, After(s, c));
  }

  lemma StartedInOrder(p: Profile)
    ensures InOrder(Started(p))
  {
  }

  lemma PerformHandlerFrame(s: State, h: nat, second: bool, o: Outcome)
    requires Enabled(s, PerformHandler(h, second, o))
    ensures PerformedHandler(s, h, second, o) == s.(handlers := PerformedHandler(s, h, second, o).handlers)
  {
  }

  /** A running task that has yet to write its record. */
  predicate Unwritten(f: Frame) {
    Recording(f.pc) && !(f.pc.RecordStore? && f.reply.Some?)
  }

  predicate Asks(t: Task, id: nat, e: ErrorRecord) {
    RecordTask(t) && t.id == id && t.error == e
  }

  /** The error numbered `id` still waits to be written as `e`. */
  ghost predicate Awaits(s: State, id: nat, e: ErrorRecord) {
    (exists i :: 0 <= i < |s.queue| && Asks(s.queue[i], id, e)) ||
    (s.current.Some? && Unwritten(s.current.value) && s.current.value.pc.id == id && s.current.value.pc.error == e)
  }

  /** An error is held while it waits in the worker it came to, and as long as it is on record. */
  ghost predicate Held(s: State, alive: bool, id: nat, e: ErrorRecord) {
    (alive && Awaits(s, id, e)) || s.profile.storage.proxyError == Some(e)
  }

  predicate Erases(p: Patch) {
    p.DisableAndForgive? || p.EnableAndForgive? || p.Import? || p.Forgive?
  }

  /** A write that erases the record takes effect. */
  predicate Erased(s: State, c: Choice) {
    c.PerformTask? && c.o.applied && s.current.Some? && CallOf(s.current.value.pc).StorageSet? &&
    Erases(CallOf(s.current.value.pc).patch)
  }

  /** The record of another error takes the place of `e`. */
  predicate Overwritten(s: State, c: Choice, e: ErrorRecord) {
    c.PerformTask? && c.o.applied && s.current.Some? && s.current.value.reply.None? &&
    s.current.value.pc.RecordStore? && s.current.value.pc.error != e
  }

  /** The write of this error's own record has no effect. */
  predicate WriteFails(s: State, c: Choice, id: nat) {
    c.PerformTask? && !c.o.applied && s.current.Some? && s.current.value.pc.RecordStore? && s.current.value.pc.id == id
  }

  /** This error's own read of storage is rejected. */
  predicate ReadFails(s: State, c: Choice, id: nat) {
    c.ResumeTask? && s.current.Some? && s.current.value.pc.RecordRead? && s.current.value.pc.id == id &&
    s.current.value.reply.Some? && !s.current.value.reply.value.Data?
  }

  /** This error's own read of storage finds the connection disabled. */
  predicate FoundDisabled(s: State, c: Choice, id: nat) {
    c.ResumeTask? && s.current.Some? && s.current.value.pc.RecordRead? && s.current.value.pc.id == id &&
    s.current.value.reply.Some? && s.current.value.reply.value.Data? && !s.current.value.reply.value.data.enabled
  }

  /** A step that drops an error on record, or one that still waits. */
  ghost predicate Drops(s: State, c: Choice, alive: bool, id: nat, e: ErrorRecord) {
    if alive && Awaits(s, id, e) then
      c.Die? || WriteFails(s, c, id) || ReadFails(s, c, id) || FoundDisabled(s, c, id)
    else s.profile.storage.proxyError == Some(e) && (Erased(s, c) || Overwritten(s, c, e))
  }

  function ArrivingNumber(s: State): nat {
    s.vars.epochs.error + 1
  }

  /** The record an arriving error asks for. */
  function ArrivingError(s: State, c: Choice): ErrorRecord
    requires ErrorArrives(s, c)
  {
    if c.ProxyError? then c.error else ErrorRecord(false, "AUTH_FAILED", c.at)
  }

  /** What waits in a queue waits in a longer one. */
  lemma LongerQueueHolds(s: State, t: State, alive: bool, id: nat, e: ErrorRecord)
    requires Held(s, alive, id, e) && s.queue <= t.queue && t.current == s.current
    requires t.profile.storage.proxyError == s.profile.storage.proxyError
    ensures Held(t, alive, id, e)
  {
    if alive && exists i :: 0 <= i < |s.queue| && Asks(s.queue[i], id, e) {
      var i :| 0 <= i < |s.queue| && Asks(s.queue[i], id, e);
      assert t.queue[i] == s.queue[i];
    }
  }

  lemma PerformTaskHolds(s: State, o: Outcome, alive: bool, id: nat, e: ErrorRecord)
    requires Held(s, alive, id, e) && Enabled(s, PerformTask(o))
    ensures Held(PerformedTask(s, o), alive, id, e) || Drops(s, PerformTask(o), alive, id, e)
  {
  }

  lemma PerformBootHolds(s: State, o: Outcome, alive: bool, id: nat, e: ErrorRecord)
    requires Inv(s) && Held(s, alive, id, e) && Enabled(s, PerformBoot(o))
    ensures Held(PerformedBoot(s, o), alive, id, e)
  {
  }

  lemma ResumeTaskHolds(s: State, alive: bool, id: nat, e: ErrorRecord)
    requires Held(s, alive, id, e) && Enabled(s, ResumeTask)
    ensures Held(ResumedTask(s), alive, id, e) || Drops(s, ResumeTask, alive, id, e)
  {
    hide Settled;
  }

  lemma BeginHolds(s: State, alive: bool, id: nat, e: ErrorRecord)
    requires Held(s, alive, id, e) && Enabled(s, Begin)
    ensures Held(Begun(s), alive, id, e)
  {
    var q := s.queue[1..];
    if alive && exists i :: 0 <= i < |s.queue| && Asks(s.queue[i], id, e) {
      var i :| 0 <= i < |s.queue| && Asks(s.queue[i], id, e);
      if i > 0 { assert q[i - 1] == s.queue[i]; }
    }
  }

  /** Handlers and events only append to the queue. */
  lemma BystandersAppend(s: State, c: Choice)
    requires Enabled(s, c) && Bystander(c)
    ensures s.queue <= After(s, c).queue
  {
    hide Answer, HandlerCall, AuthStart, HandlerMove;
  }

  /** A held error stays held unless the step drops it, for one of six reasons. */
  lemma HeldStep(s: State, c: Choice, alive: bool, id: nat, e: ErrorRecord)
    requires Inv(s) && Enabled(s, c) && Held(s, alive, id, e)
    ensures Held(After(s, c), alive && !c.Die?, id, e) || Drops(s, c, alive, id, e)
  {
    hide Awaits, Drops, PerformedTask, PerformedBoot, ResumedTask, Begun, ResumedHandler, Resume, Answer, HandlerCall;
    if Bystander(c) {
      BystandersKeepTasks(s, c);
      BystandersAppend(s, c);
      LongerQueueHolds(s, After(s, c), alive, id, e);
    } else {
      match c
      case PerformTask(o) => PerformTaskHolds(s, o, alive, id, e);
      case PerformBoot(o) => PerformBootHolds(s, o, alive, id, e);
      case ResumeTask => ResumeTaskHolds(s, alive, id, e);
      case Begin => BeginHolds(s, alive, id, e);
      case Die => DeathDrops(s, alive, id, e);
      case OthersAct(_) => LongerQueueHolds(s, After(s, c), alive, id, e);
      case ResumeBoot => LongerQueueHolds(s, After(s, c), alive, id, e);
      case _ =>
    }
  }

  /** An error that waits and is not on record is dropped exactly by a death, by a rejected
      call of its own, or by finding the connection disabled. */
  lemma WaitingDroppedExactly(s: State, c: Choice, id: nat, e: ErrorRecord)
    requires Inv(s) && InOrder(s) && Enabled(s, c) && Awaits(s, id, e) && s.profile.storage.proxyError != Some(e)
    ensures !Held(After(s, c), !c.Die?, id, e) <==>
      c.Die? || WriteFails(s, c, id) || ReadFails(s, c, id) || FoundDisabled(s, c, id)
  {
    assert Held(s, true, id, e);
    hide Inv, InOrder, After, Enabled, Held, Awaits;
    HeldStep(s, c, true, id, e);
    if WriteFails(s, c, id) {
      WriteFailureDrops(s, c.o, id, e);
    } else if ReadFails(s, c, id) || FoundDisabled(s, c, id) {
      ReadFailureDrops(s, id, e);
    } else if c.Die? {
      DeathForgets(s, id, e);
    }
  }

  lemma WriteFailureDrops(s: State, o: Outcome, id: nat, e: ErrorRecord)
    requires InOrder(s) && Enabled(s, PerformTask(o)) && s.profile.storage.proxyError != Some(e)
    requires WriteFails(s, PerformTask(o), id)
    ensures !Held(After(s, PerformTask(o)), true, id, e)
  {
  }

  lemma ReadFailureDrops(s: State, id: nat, e: ErrorRecord)
    requires InOrder(s) && Enabled(s, ResumeTask) && s.profile.storage.proxyError != Some(e)
    requires ReadFails(s, ResumeTask, id) || FoundDisabled(s, ResumeTask, id)
    ensures !Held(After(s, ResumeTask), true, id, e)
  {
    hide Settled;
  }

  lemma DeathForgets(s: State, id: nat, e: ErrorRecord)
    requires s.profile.storage.proxyError != Some(e)
    ensures !Held(After(s, Die), false, id, e)
  {
  }

  lemma DeathDrops(s: State, alive: bool, id: nat, e: ErrorRecord)
    requires Held(s, alive, id, e)
    ensures s.profile.storage.proxyError == Some(e) || Drops(s, Die, alive, id, e)
  {
  }

  lemma ArrivalAwaits(s: State, c: Choice)
    requires Enabled(s, c) && ErrorArrives(s, c)
    ensures Awaits(After(s, c), ArrivingNumber(s), ArrivingError(s, c))
    ensures After(s, c).vars.epochs.error == ArrivingNumber(s) && !c.Die?
  {
    hide HandlerMove, Answer, HandlerCall;
    var t := After(s, c);
    var e := ArrivingError(s, c);
    assert Asks(t.queue[|s.queue|], ArrivingNumber(s), e);
  }

  lemma {:induction false} InOrderAlways(states: seq<State>, choices: seq<Choice>, i: nat)
    requires WorkerRun(states, choices) && i <= |choices|
    ensures InOrder(states[i])
  {
    hide After, Enabled;
    if i == 0 {
    } else {
      InOrderAlways(states, choices, i - 1);
      InvAlways(states, choices, i - 1);
      InOrderStep(states[i - 1], choices[i - 1]);
    }
  }

  function StatusData(at: StatusAt): Option<Storage> {
    match at
    case TReadStorage => None
    case TReadProxy(data) => Some(data)
    case TReadRtc(data, _) => Some(data)
    case TReadIncognitoRtc(data, _) => Some(data)
    case TReadIncognitoProxy(data, _) => Some(data)
  }

  /** A clearing task works on the record as it is: nobody else writes it meanwhile. */
  ghost predicate ClearFacts(s: State) {
    s.current.Some? && s.current.value.pc.Clearing? ==>
      var pc := s.current.value.pc;
      var reply := s.current.value.reply;
      var record := s.profile.storage.proxyError;
      s.boot.None? &&
      (!pc.k.KStore? && !pc.k.KBadge? && reply.Some? && reply.value.Data? ==> reply.value.data.proxyError == record) &&
      (pc.k.KStatus? ==>
         pc.k.data.proxyError == record &&
         (StatusData(pc.k.at).Some? ==> StatusData(pc.k.at).value.proxyError == record)) &&
      (pc.k.KStore? && reply.None? ==>
         record == Some(pc.previous) && !pc.previous.possibleDirect &&
         (pc.sample.errorEpoch == s.vars.epochs.error || Queued(s.queue, s.vars.epochs.error)))
  }

  lemma StatusKeepsData(at: StatusAt, r: Reply)
    ensures var n := StatusNext(at, r);
      (n.More? && at.TReadStorage? ==> r.Data? && StatusData(n.at) == Some(r.data)) &&
      (n.More? && !at.TReadStorage? ==> StatusData(n.at) == StatusData(at)) &&
      (n.More? ==> StatusData(n.at).Some?) &&
      (n.Ready? && n.status.canRetryIp ==>
         StatusData(at).Some? && StatusData(at).value.proxyError.Some? &&
         !StatusData(at).value.proxyError.value.possibleDirect)
  {
  }

  lemma PerformTaskClearFacts(s: State, o: Outcome)
    requires ClearFacts(s) && Enabled(s, PerformTask(o))
    ensures ClearFacts(PerformedTask(s, o))
  {
  }

  lemma ResumeTaskClearFacts(s: State)
    requires Shape(s) && ClearFacts(s) && Enabled(s, ResumeTask)
    ensures ClearFacts(ResumedTask(s))
  {
    hide Settled, StatusNext;
    var pc := s.current.value.pc;
    if pc.Clearing? {
      if pc.k.KStatus? { StatusKeepsData(pc.k.at, s.current.value.reply.value); }
    } else {
      OthersNeverClear(pc, s.vars.flags, s.current.value.reply.value, s.vars.epochs);
    }
  }

  lemma OthersNeverClear(pc: Pc, f: Flags, r: Reply, now: Epochs)
    requires !pc.Clearing?
    ensures var n := Resume(pc, f, r, now).next; n.Go? ==> !n.pc.Clearing?
  {
  }

  lemma QueuedStays(s: State, c: Choice)
    requires Enabled(s, c) && Bystander(c) && ClearFacts(s)
    ensures ClearFacts(After(s, c))
  {
    hide Answer, HandlerCall, AuthStart, HandlerMove, RefusedAgain;
    BystandersKeepTasks(s, c);
    BystandersQueue(s, c);
  }

  /** Handlers and events only append to the queue, errors with the new newest number. */
  lemma BystandersQueue(s: State, c: Choice)
    requires Enabled(s, c) && Bystander(c)
    ensures var t := After(s, c);
      (Queued(s.queue, s.vars.epochs.error) && t.vars.epochs.error == s.vars.epochs.error ==>
         Queued(t.queue, t.vars.epochs.error)) &&
      (t.vars.epochs.error != s.vars.epochs.error ==> Queued(t.queue, t.vars.epochs.error))
  {
    hide Answer, HandlerCall, AuthStart, HandlerMove;
    var t := After(s, c);
    assert s.queue <= t.queue;
    if Queued(s.queue, s.vars.epochs.error) {
      var i :| 0 <= i < |s.queue| && RecordTask(s.queue[i]) && s.queue[i].id == s.vars.epochs.error;
      assert t.queue[i] == s.queue[i];
    }
    if t.vars.epochs.error != s.vars.epochs.error {
      var i := |s.queue|;
      assert RecordTask(t.queue[i]) && t.queue[i].id == t.vars.epochs.error;
    }
  }

  lemma ClearFactsStep(s: State, c: Choice)
    requires Inv(s) && ClearFacts(s) && Enabled(s, c)
    ensures ClearFacts(After(s, c))
  {
    hide ResumedTask, PerformedTask, ResumedHandler, Resume, Answer;
    if Bystander(c) {
      QueuedStays(s, c);
    } else {
      match c
      case PerformTask(o) => PerformTaskClearFacts(s, o);
      case ResumeTask => ResumeTaskClearFacts(s);
      case _ =>
    }
  }

  predicate SwitchesOff(pc: Pc) {
    CallOf(pc).StorageSet? && (CallOf(pc).patch.Disable? || CallOf(pc).patch.DisableAndForgive?)
  }

  /** A write of enabled: false takes effect. */
  predicate Disables(s: State, c: Choice) {
    (c.PerformTask? && c.o.applied && s.current.Some? && SwitchesOff(s.current.value.pc)) ||
    (c.PerformBoot? && c.o.applied && s.boot.Some? && SwitchesOff(s.boot.value.pc))
  }

  predicate StillEnabled(s: State, id: nat) {
    s.profile.storage.enabled &&
    ((s.current.Some? && s.current.value.pc.RecordRead? && s.current.value.pc.id == id &&
      s.current.value.reply.Some? && s.current.value.reply.value.Data?) ==>
       s.current.value.reply.value.data.enabled)
  }

  lemma StillEnabledStep(s: State, c: Choice, id: nat)
    requires StillEnabled(s, id) && Enabled(s, c) && !Disables(s, c)
    ensures StillEnabled(After(s, c), id)
  {
    hide Answer, HandlerCall, AuthStart, HandlerMove, Settled, Resume, SwitchesOff;
    if Bystander(c) {
      BystandersKeepTasks(s, c);
    } else {
      match c
      case PerformTask(o) => PerformKeepsEnabled(s.profile, s.current.value.pc, o);
      case PerformBoot(o) => PerformKeepsEnabled(s.profile, s.boot.value.pc, o);
      case _ =>
    }
  }

  lemma PerformKeepsEnabled(p: Profile, pc: Pc, o: Outcome)
    requires p.storage.enabled && (o.applied ==> !SwitchesOff(pc))
    ensures Performed(CallOf(pc), p, o).storage.enabled
    ensures Answer(CallOf(pc), p, o).Data? ==> Answer(CallOf(pc), p, o).data == p.storage
  {
  }

  /** The write of enabled: false in CONNECT's catch, DISCONNECT, FORGET or IMPORT_KEY. */
  predicate UserSwitch(pc: Pc) {
    (pc.Connecting? && pc.c.CStoreDisabled?) || (pc.Disconnecting? && pc.d.DStore?) ||
    (pc.Importing? && pc.i.IStoreDisabled?)
  }

  predicate ReconcilesOff(pc: Pc) {
    pc.Reconcile? && pc.r.StoreDisabled?
  }

  lemma DisablersAreKnown(pc: Pc)
    requires SwitchesOff(pc)
    ensures UserSwitch(pc) || ReconcilesOff(pc)
  {
  }

  /** A reconciliation has read the configuration as it is, and switches off an unusable one. */
  predicate ReconcileFacts(d: Storage, f: Option<Frame>) {
    f.Some? && f.value.pc.Reconcile? ==>
      (f.value.pc.r.ReadStorage? && f.value.reply.Some? && f.value.reply.value.Data? ==>
         Usable(f.value.reply.value.data) == Usable(d)) &&
      (f.value.pc.r.StoreDisabled? && f.value.reply.None? ==> !Usable(d))
  }

  ghost predicate ReconcilesAsStored(s: State) {
    ReconcileFacts(s.profile.storage, s.boot) && ReconcileFacts(s.profile.storage, s.current)
  }

  lemma ResumeReconciles(d: Storage, frame: Frame, f: Flags, now: Epochs)
    requires frame.reply.Some? && ReconcileFacts(d, Some(frame))
    ensures var n := Resume(frame.pc, f, frame.reply.value, now).next;
      n.Go? ==> ReconcileFacts(d, Some(Frame(n.pc, None)))
  {
  }

  lemma PerformReconciles(p: Profile, pc: Pc, o: Outcome)
    requires ReconcileFacts(p.storage, Some(Frame(pc, None)))
    ensures ReconcileFacts(Performed(CallOf(pc), p, o).storage, Some(Frame(pc, Some(Answer(CallOf(pc), p, o)))))
    ensures RecordPc(pc) ==> Usable(Performed(CallOf(pc), p, o).storage) == Usable(p.storage)
  {
  }

  lemma ReconcilesStep(s: State, c: Choice)
    requires Shape(s) && ReconcilesAsStored(s) && Enabled(s, c)
    ensures ReconcilesAsStored(After(s, c))
  {
    hide Usable, Resume, Answer, Performed, Settled, ResumedHandler;
    if Bystander(c) {
      BystandersKeepTasks(s, c);
    } else {
      match c
      case PerformBoot(o) => PerformReconciles(s.profile, s.boot.value.pc, o);
      case PerformTask(o) => PerformReconciles(s.profile, s.current.value.pc, o);
      case ResumeBoot => ResumeReconciles(s.profile.storage, s.boot.value, s.vars.flags, s.vars.epochs);
      case ResumeTask => ResumeReconciles(s.profile.storage, s.current.value, s.vars.flags, s.vars.epochs);
      case _ =>
    }
  }

  ghost predicate DisabledBetween(states: seq<State>, choices: seq<Choice>, i: nat, j: nat)
    requires j <= |choices| < |states|
  {
    exists k :: i <= k < j && Disables(states[k], choices[k])
  }

  /** An error that arrived while enabled finds the connection enabled unless a write has
      disabled it since, in this worker or a later one. */
  lemma {:induction false} EnabledUntilDisabled(states: seq<State>, choices: seq<Choice>, i: nat, j: nat)
    requires WorkerRun(states, choices) && i < j <= |choices|
    requires ErrorArrives(states[i], choices[i]) && states[i].profile.storage.enabled
    ensures StillEnabled(states[j], ArrivingNumber(states[i])) || DisabledBetween(states, choices, i + 1, j)
    decreases j
  {
    hide After, Enabled, ErrorArrives, StillEnabled, Disables;
    if i + 1 == j {
      InOrderAlways(states, choices, i);
      ArrivalEnabled(states[i], choices[i]);
    } else {
      EnabledUntilDisabled(states, choices, i, j - 1);
      if !DisabledBetween(states, choices, i + 1, j) {
        assert !DisabledBetween(states, choices, i + 1, j - 1);
        StillEnabledStep(states[j - 1], choices[j - 1], ArrivingNumber(states[i]));
      }
    }
  }

  lemma ArrivalEnabled(s: State, c: Choice)
    requires InOrder(s) && Enabled(s, c) && ErrorArrives(s, c) && s.profile.storage.enabled
    ensures StillEnabled(After(s, c), ArrivingNumber(s))
  {
    hide Answer, HandlerCall, HandlerMove;
  }

  lemma {:induction false} ReconcilesAlways(states: seq<State>, choices: seq<Choice>, i: nat)
    requires WorkerRun(states, choices) && i <= |choices|
    ensures ReconcilesAsStored(states[i])
  {
    hide After, Enabled, ReconcileFacts;
    if i == 0 {
      StartReconciles(states[0].profile);
    } else {
      ReconcilesAlways(states, choices, i - 1);
      InvAlways(states, choices, i - 1);
      ReconcilesStep(states[i - 1], choices[i - 1]);
    }
  }

  lemma StartReconciles(p: Profile)
    ensures ReconcilesAsStored(Started(p))
  {
  }

  /** The connection is switched off by a command, or by a reconciliation that has found no
      usable configuration. */
  predicate SwitchedOff(s: State, c: Choice) {
    Disables(s, c) &&
    var pc := if c.PerformBoot? then s.boot.value.pc else s.current.value.pc;
    UserSwitch(pc) || (ReconcilesOff(pc) && !Usable(s.profile.storage))
  }

  ghost predicate SwitchedOffBetween(states: seq<State>, choices: seq<Choice>, i: nat, j: nat)
    requires j <= |choices| < |states|
  {
    exists k :: i <= k < j && SwitchedOff(states[k], choices[k])
  }

  lemma DisablesForAReason(s: State, c: Choice)
    requires ReconcilesAsStored(s) && Enabled(s, c) && Disables(s, c)
    ensures SwitchedOff(s, c)
  {
    DisablersAreKnown(if c.PerformBoot? then s.boot.value.pc else s.current.value.pc);
    hide SwitchesOff, Usable;
  }

  /** Only a command, or a reconciliation over no usable configuration, ever switches the
      connection off. */
  lemma DisabledForAReason(states: seq<State>, choices: seq<Choice>, i: nat, j: nat)
    requires WorkerRun(states, choices) && i <= j <= |choices| && DisabledBetween(states, choices, i, j)
    ensures SwitchedOffBetween(states, choices, i, j)
  {
    hide After, Enabled, Disables, SwitchedOff;
    var k :| i <= k < j && Disables(states[k], choices[k]);
    ReconcilesAlways(states, choices, k);
    DisablesForAReason(states[k], choices[k]);
  }

  /** A command switches the connection off, or FORGET removes its configuration. */
  predicate CommandWrites(s: State, c: Choice) {
    c.PerformTask? && c.o.applied && s.current.Some? &&
    (UserSwitch(s.current.value.pc) || (s.current.value.pc.Disconnecting? && s.current.value.pc.d.DRemove?))
  }

  ghost predicate CommandBetween(states: seq<State>, choices: seq<Choice>, i: nat, j: nat)
    requires j <= |choices| < |states|
  {
    exists k :: i <= k < j && CommandWrites(states[k], choices[k])
  }

  lemma PerformStaysUsable(p: Profile, pc: Pc, o: Outcome)
    requires Usable(p.storage) && !(o.applied && pc.Disconnecting? && pc.d.DRemove?)
    ensures Usable(Performed(CallOf(pc), p, o).storage)
  {
  }

  lemma UsableStep(s: State, c: Choice)
    requires Shape(s) && Enabled(s, c) && Usable(s.profile.storage) && !CommandWrites(s, c)
    ensures Usable(After(s, c).profile.storage)
    ensures !SwitchedOff(s, c)
  {
    hide Usable, Resume, Answer, Performed, Settled, ResumedHandler;
    if Bystander(c) {
      BystandersKeepTasks(s, c);
    } else {
      match c
      case PerformBoot(o) => PerformStaysUsable(s.profile, s.boot.value.pc, o);
      case PerformTask(o) => PerformStaysUsable(s.profile, s.current.value.pc, o);
      case _ =>
    }
  }

  /** Over a configuration that was usable at state i, only a command switches off. */
  lemma {:induction false} UsableUntilCommand(states: seq<State>, choices: seq<Choice>, i: nat, j: nat)
    requires WorkerRun(states, choices) && i <= j <= |choices| && Usable(states[i].profile.storage)
    ensures CommandBetween(states, choices, i, j) ||
            (Usable(states[j].profile.storage) && !SwitchedOffBetween(states, choices, i, j))
    decreases j
  {
    hide After, Enabled, Usable, CommandWrites, SwitchedOff;
    if i == j {
    } else {
      UsableUntilCommand(states, choices, i, j - 1);
      InvAlways(states, choices, j - 1);
      if !CommandBetween(states, choices, i, j) {
        assert !CommandWrites(states[j - 1], choices[j - 1]);
        assert !CommandBetween(states, choices, i, j - 1);
        UsableStep(states[j - 1], choices[j - 1]);
      }
    }
  }

  lemma {:induction false} ClearFactsAlways(states: seq<State>, choices: seq<Choice>, i: nat)
    requires WorkerRun(states, choices) && i <= |choices|
    ensures ClearFacts(states[i])
  {
    hide After, Enabled;
    if i == 0 {
    } else {
      ClearFactsAlways(states, choices, i - 1);
      InvAlways(states, choices, i - 1);
      ClearFactsStep(states[i - 1], choices[i - 1]);
    }
  }

  /** The write of a CONNECT, DISCONNECT, FORGET or IMPORT_KEY that resets the record. */
  predicate UserReset(pc: Pc) {
    (pc.Connecting? && pc.c.CStoreEnabled?) || (pc.Disconnecting? && pc.d.DStore?) || (pc.Importing? && pc.i.IStore?)
  }

  /** TEST_IP clears exactly this record, which reported no direct connection; no error
      arrived since the test began, or a newer one is about to be recorded. */
  ghost predicate ClearedByTest(s: State, pc: Pc, e: ErrorRecord) {
    pc.Clearing? && pc.previous == e && s.profile.storage.proxyError == Some(e) && !e.possibleDirect &&
    (pc.sample.errorEpoch == s.vars.epochs.error || Queued(s.queue, s.vars.epochs.error))
  }

  lemma ErasersAreKnown(pc: Pc)
    requires CallOf(pc).StorageSet? && Erases(CallOf(pc).patch)
    ensures UserReset(pc) || (pc.Clearing? && pc.k.KStore?)
  {
  }

  /** Nobody queued or running still has to write an error that came before number `id`. */
  ghost predicate Passed(s: State, id: nat) {
    (forall i :: 0 <= i < |s.queue| && RecordTask(s.queue[i]) ==> s.queue[i].id > id) &&
    (s.current.Some? && Unwritten(s.current.value) ==> s.current.value.pc.id > id)
  }

  lemma AppendedAreNewest(s: State, c: Choice)
    requires InOrder(s) && Enabled(s, c) && Bystander(c)
    ensures s.queue <= After(s, c).queue
    ensures forall i :: |s.queue| <= i < |After(s, c).queue| && RecordTask(After(s, c).queue[i]) ==>
      ErrorArrives(s, c) && Asks(After(s, c).queue[i], ArrivingNumber(s), ArrivingError(s, c))
  {
    hide Answer, HandlerCall, AuthStart, HandlerMove;
  }

  lemma BystandersPass(s: State, c: Choice, id: nat)
    requires InOrder(s) && Passed(s, id) && id <= s.vars.epochs.error && Enabled(s, c) && Bystander(c)
    ensures Passed(After(s, c), id)
  {
    BystandersKeepTasks(s, c);
    AppendedAreNewest(s, c);
    hide After, Enabled, InOrder;
  }

  lemma BystandersAwait(s: State, c: Choice, id: nat, e: ErrorRecord)
    requires Awaits(s, id, e) && Enabled(s, c) && Bystander(c)
    ensures Awaits(After(s, c), id, e)
  {
    BystandersKeepTasks(s, c);
    BystandersAppend(s, c);
    hide After, Enabled;
    if i :| 0 <= i < |s.queue| && Asks(s.queue[i], id, e) { assert After(s, c).queue[i] == s.queue[i]; }
  }

  lemma PerformTaskPasses(s: State, o: Outcome, id: nat, e: ErrorRecord)
    requires InOrder(s) && Enabled(s, PerformTask(o)) && (Awaits(s, id, e) || Passed(s, id))
    ensures Awaits(PerformedTask(s, o), id, e) || Passed(PerformedTask(s, o), id)
  {
  }

  lemma ResumeTaskPasses(s: State, id: nat, e: ErrorRecord)
    requires InOrder(s) && Enabled(s, ResumeTask) && (Awaits(s, id, e) || Passed(s, id))
    ensures Awaits(ResumedTask(s), id, e) || Passed(ResumedTask(s), id)
  {
    hide Settled;
  }

  lemma BeginPasses(s: State, id: nat, e: ErrorRecord)
    requires InOrder(s) && Enabled(s, Begin) && (Awaits(s, id, e) || Passed(s, id))
    ensures Awaits(Begun(s), id, e) || Passed(Begun(s), id)
  {
    var q := s.queue[1..];
    assert forall i :: 0 <= i < |q| ==> q[i] == s.queue[i + 1];
    if i :| 0 < i < |s.queue| && Asks(s.queue[i], id, e) { assert q[i - 1] == s.queue[i]; }
  }

  lemma PassedStep(s: State, c: Choice, id: nat, e: ErrorRecord)
    requires InOrder(s) && Enabled(s, c) && !c.Die? && id <= s.vars.epochs.error
    requires Awaits(s, id, e) || Passed(s, id)
    ensures Awaits(After(s, c), id, e) || Passed(After(s, c), id)
  {
    hide InOrder, PerformedTask, ResumedTask, Begun, Resume, Answer;
    if Bystander(c) {
      if Awaits(s, id, e) { BystandersAwait(s, c, id, e); } else { BystandersPass(s, c, id); }
    } else {
      match c
      case PerformTask(o) => PerformTaskPasses(s, o, id, e);
      case ResumeTask => ResumeTaskPasses(s, id, e);
      case Begin => BeginPasses(s, id, e);
      case _ =>
    }
  }

  /** An error keeps waiting until it is written or given up; then only later ones wait. */
  lemma {:induction false} PassedInRun(states: seq<State>, choices: seq<Choice>, i: nat, j: nat)
    requires WorkerRun(states, choices) && i < j <= |choices| && NoDeath(choices, i, j)
    requires ErrorArrives(states[i], choices[i])
    ensures Awaits(states[j], ArrivingNumber(states[i]), ArrivingError(states[i], choices[i])) ||
            Passed(states[j], ArrivingNumber(states[i]))
    decreases j
  {
    hide After, Enabled, ErrorArrives, Awaits, Passed;
    ArrivalAwaits(states[i], choices[i]);
    if i + 1 == j {
    } else {
      PassedInRun(states, choices, i, j - 1);
      InOrderAlways(states, choices, j - 1);
      EpochsGrow(states, choices, i + 1, j - 1);
      PassedStep(states[j - 1], choices[j - 1], ArrivingNumber(states[i]), ArrivingError(states[i], choices[i]));
    }
  }

  /** A record is queued, or a task that writes it is running. */
  ghost predicate Carries(s: State, id: nat, e: ErrorRecord) {
    (exists i :: 0 <= i < |s.queue| && Asks(s.queue[i], id, e)) ||
    (s.current.Some? && Recording(s.current.value.pc) && s.current.value.pc.id == id && s.current.value.pc.error == e)
  }

  lemma BystandersCarry(s: State, c: Choice, id: nat, e: ErrorRecord)
    requires InOrder(s) && Enabled(s, c) && Bystander(c) && Carries(After(s, c), id, e)
    ensures Carries(s, id, e) || (ErrorArrives(s, c) && id == ArrivingNumber(s) && e == ArrivingError(s, c))
  {
    BystandersKeepTasks(s, c);
    AppendedAreNewest(s, c);
    hide After, Enabled, InOrder;
    var t := After(s, c);
    if i :| 0 <= i < |t.queue| && Asks(t.queue[i], id, e) {
      if i < |s.queue| { assert s.queue[i] == t.queue[i]; }
    }
  }

  lemma ResumeTaskCarries(s: State, id: nat, e: ErrorRecord)
    requires Enabled(s, ResumeTask) && Carries(ResumedTask(s), id, e)
    ensures Carries(s, id, e)
  {
    hide Settled;
  }

  lemma BeginCarries(s: State, id: nat, e: ErrorRecord)
    requires Enabled(s, Begin) && Carries(Begun(s), id, e)
    ensures Carries(s, id, e)
  {
    var q := s.queue[1..];
    if i :| 0 <= i < |q| && Asks(q[i], id, e) { assert s.queue[i + 1] == q[i]; }
    assert Asks(s.queue[0], id, e) || !(Recording(Begun(s).current.value.pc) &&
      Begun(s).current.value.pc.id == id && Begun(s).current.value.pc.error == e);
  }

  lemma CarriesStep(s: State, c: Choice, id: nat, e: ErrorRecord)
    requires InOrder(s) && Enabled(s, c) && Carries(After(s, c), id, e)
    ensures !c.Die?
    ensures Carries(s, id, e) || (ErrorArrives(s, c) && id == ArrivingNumber(s) && e == ArrivingError(s, c))
  {
    hide InOrder, ResumedTask, Begun, Resume, Answer;
    if Bystander(c) {
      BystandersCarry(s, c, id, e);
    } else {
      match c
      case ResumeTask => ResumeTaskCarries(s, id, e);
      case Begin => BeginCarries(s, id, e);
      case _ =>
    }
  }

  /** Where a record comes from: an error that arrived in this worker. */
  lemma {:induction false} RecordsArrived(states: seq<State>, choices: seq<Choice>, j: nat, id: nat, e: ErrorRecord)
    returns (b: nat)
    requires WorkerRun(states, choices) && j <= |choices| && Carries(states[j], id, e)
    ensures b < j && NoDeath(choices, b, j) && ErrorArrives(states[b], choices[b])
    ensures ArrivingNumber(states[b]) == id && ArrivingError(states[b], choices[b]) == e
  {
    hide After, Enabled, ErrorArrives;
    if j == 0 { assert false; }
    hide Carries;
    InOrderAlways(states, choices, j - 1);
    CarriesStep(states[j - 1], choices[j - 1], id, e);
    if Carries(states[j - 1], id, e) {
      b := RecordsArrived(states, choices, j - 1, id, e);
    } else {
      b := j - 1;
      assert !choices[j - 1].Die?;
    }
  }

  /** Whether the error that arrived at step i is held in state j: it waits in the worker it
      came to, or it is on record, in this worker or a later one. */
  ghost predicate HeldAt(states: seq<State>, choices: seq<Choice>, i: nat, j: nat)
    requires i < j <= |choices| < |states| && ErrorArrives(states[i], choices[i])
  {
    Held(states[j], NoDeath(choices, i, j), ArrivingNumber(states[i]), ArrivingError(states[i], choices[i]))
  }

  /** Step k drops the error: it is held before and not after. */
  ghost predicate DroppedAt(states: seq<State>, choices: seq<Choice>, i: nat, k: nat)
    requires i < k < |choices| < |states| && ErrorArrives(states[i], choices[i])
  {
    HeldAt(states, choices, i, k) && !HeldAt(states, choices, i, k + 1)
  }

  /** Some error that arrived after step i is what the running task writes at step k. */
  ghost predicate LaterError(states: seq<State>, choices: seq<Choice>, i: nat, k: nat)
    requires k <= |choices| < |states| && states[k].current.Some? && Recording(states[k].current.value.pc)
  {
    exists b :: i < b < k && ErrorArrives(states[b], choices[b]) &&
      ArrivingError(states[b], choices[b]) == states[k].current.value.pc.error
  }

  /** Every way to lose an error: a user command resets the record, a finished IP test
      clears it, a later error is written in its place; or, before it was written, the worker
      dies, its own storage call is rejected, or it finds the connection off: as it was when
      the error arrived, or switched off since by a command or by a reconciliation that found
      no usable configuration; by a command, if one was in use when the error arrived. */
  ghost predicate Explained(states: seq<State>, choices: seq<Choice>, i: nat, k: nat)
    requires i < k < |choices| < |states| && ErrorArrives(states[i], choices[i])
  {
    var s, c := states[k], choices[k];
    var id, e := ArrivingNumber(states[i]), ArrivingError(states[i], choices[i]);
    (Erased(s, c) && (UserReset(s.current.value.pc) || ClearedByTest(s, s.current.value.pc, e))) ||
    (Overwritten(s, c, e) && LaterError(states, choices, i, k)) ||
    (NoDeath(choices, i, k) && Awaits(s, id, e) &&
       (c.Die? || WriteFails(s, c, id) || ReadFails(s, c, id) ||
        (FoundDisabled(s, c, id) &&
         (states[i].profile.storage.enabled ==> SwitchedOffBetween(states, choices, i + 1, k)) &&
         (Active(states[i].profile.storage) ==> CommandBetween(states, choices, i + 1, k)))))
  }

  /** The record written over another one is of an error that arrived later. */
  lemma OverwriterIsLater(states: seq<State>, choices: seq<Choice>, i: nat, k: nat)
    requires WorkerRun(states, choices) && i < k < |choices| && ErrorArrives(states[i], choices[i])
    requires Overwritten(states[k], choices[k], ArrivingError(states[i], choices[i]))
    requires NoDeath(choices, i, k) ==>
      !Awaits(states[k], ArrivingNumber(states[i]), ArrivingError(states[i], choices[i]))
    ensures LaterError(states, choices, i, k)
  {
    hide After, Enabled, ErrorArrives;
    var pc := states[k].current.value.pc;
    var b := RecordsArrived(states, choices, k, pc.id, pc.error);
    if NoDeath(choices, i, k) {
      PassedInRun(states, choices, i, k);
      if b < i { EpochsGrow(states, choices, b, i); }
    } else {
      var d :| i <= d < k && choices[d].Die?;
      assert d < b;
    }
  }

  lemma ArrivalKeepsProfile(s: State, c: Choice)
    requires Enabled(s, c) && ErrorArrives(s, c)
    ensures After(s, c).profile == s.profile
  {
    BystandersKeepTasks(s, c);
  }

  /** Every loss of an error has one of those explanations. */
  lemma LossExplained(states: seq<State>, choices: seq<Choice>, i: nat, k: nat)
    requires WorkerRun(states, choices) && i < k < |choices| && ErrorArrives(states[i], choices[i])
    requires DroppedAt(states, choices, i, k)
    ensures Explained(states, choices, i, k)
  {
    hide After, Enabled, ErrorArrives, DisabledBetween, SwitchedOffBetween, CommandBetween, LaterError, Inv;
    var s, c := states[k], choices[k];
    var id, e := ArrivingNumber(states[i]), ArrivingError(states[i], choices[i]);
    InvAlways(states, choices, k);
    HeldStep(s, c, NoDeath(choices, i, k), id, e);
    if NoDeath(choices, i, k) && Awaits(s, id, e) {
      if FoundDisabled(s, c, id) && states[i].profile.storage.enabled {
        EnabledUntilDisabled(states, choices, i, k);
        DisabledForAReason(states, choices, i + 1, k);
        if Active(states[i].profile.storage) {
          ArrivalKeepsProfile(states[i], choices[i]);
          UsableUntilCommand(states, choices, i + 1, k);
        }
      }
    } else if Erased(s, c) {
      ClearFactsAlways(states, choices, k);
      ErasersExplained(s, c, e);
    } else {
      OverwriterIsLater(states, choices, i, k);
    }
  }

  lemma ErasersExplained(s: State, c: Choice, e: ErrorRecord)
    requires Enabled(s, c) && Erased(s, c) && ClearFacts(s) && s.profile.storage.proxyError == Some(e)
    ensures UserReset(s.current.value.pc) || ClearedByTest(s, s.current.value.pc, e)
  {
    ErasersAreKnown(s.current.value.pc);
    hide CallOf;
  }

  /** No error is ever lost but for those reasons: at every later state of the run, in this
      worker or a later one, it is held, or some step before dropped it and is explained. */
  lemma {:induction false} ErrorsAreKept(states: seq<State>, choices: seq<Choice>, i: nat, j: nat)
    requires WorkerRun(states, choices) && i < j <= |choices| && ErrorArrives(states[i], choices[i])
    ensures HeldAt(states, choices, i, j) ||
            exists k :: i < k < j && DroppedAt(states, choices, i, k) && Explained(states, choices, i, k)
    decreases j
  {
    hide After, Enabled, ErrorArrives, Awaits, Explained;
    if i + 1 == j {
      ArrivalAwaits(states[i], choices[i]);
    } else {
      ErrorsAreKept(states, choices, i, j - 1);
      if DroppedAt(states, choices, i, j - 1) {
        LossExplained(states, choices, i, j - 1);
      }
    }
  }

  /** Once the queue has drained, an error is on record or was dropped for one of those reasons. */
  lemma ErrorsAreNotForgotten(states: seq<State>, choices: seq<Choice>, i: nat, j: nat)
    requires WorkerRun(states, choices) && i < j <= |choices| && ErrorArrives(states[i], choices[i])
    requires states[j].queue == [] && states[j].current.None?
    ensures states[j].profile.storage.proxyError == Some(ArrivingError(states[i], choices[i])) ||
            exists k :: i < k < j && DroppedAt(states, choices, i, k) && Explained(states, choices, i, k)
  {
    hide After, Enabled, ErrorArrives, Explained;
    ErrorsAreKept(states, choices, i, j);
  }

  /** No command, no death, no failing call. */
  predicate Smooth(c: Choice) {
    c.ProxyError? || c.Begin? || c.ResumeBoot? || c.ResumeTask? ||
    c == PerformBoot(SUCCEEDED) || c == PerformTask(SUCCEEDED)
  }

  /** Boot at `pc` with one error waiting. */
  function BootingWith(p: Profile, pc: Pc, reply: Option<Reply>, e: ErrorRecord): State {
    ErrorArrived(Started(p), RecordProxyError(1, e)).(boot := Some(Frame(pc, reply)))
  }

  /** The same once boot has switched the connection off and waits, and the error is being
      recorded. */
  function RecordingBeside(p: Profile, f: Option<Frame>, e: ErrorRecord): State {
    var s := BootingWith(p.(storage := Patched(p.storage, Disable)), Reconcile(AtBoot, StoreDisabled), Some(Done), e);
    s.(queue := [], current := f, lastBegun := Some(RecordProxyError(1, e)),
       vars := s.vars.(epochs := Epochs(1, 0, 1), changing := f.Some?))
  }

  lemma LosingStart(p: Profile, e: ErrorRecord)
    ensures Enabled(Started(p), ProxyError(e))
    ensures After(Started(p), ProxyError(e)) == BootingWith(p, Reconcile(AtBoot, AccessLevel), None, e)
  {
  }

  lemma LostAtEnd(p: Profile, e: ErrorRecord, alive: bool)
    requires p.storage.proxyError != Some(e)
    ensures !Held(RecordingBeside(p, None, e), alive, 1, e)
  {
  }

  /** One call of boot and the stretch after it. */
  lemma BootingStep(p: Profile, pc: Pc, e: ErrorRecord)
    ensures Possible(CallOf(pc), SUCCEEDED)
    ensures var s := BootingWith(p, pc, None, e);
      Enabled(s, PerformBoot(SUCCEEDED)) && After(s, PerformBoot(SUCCEEDED)) ==
        BootingWith(Performed(CallOf(pc), p, SUCCEEDED), pc, Some(Answer(CallOf(pc), p, SUCCEEDED)), e)
    ensures var s := BootingWith(p, pc, Some(Answer(CallOf(pc), p, SUCCEEDED)), e);
      var step := Resume(pc, Flags(false, false), Answer(CallOf(pc), p, SUCCEEDED), Epochs(0, 0, 1));
      Enabled(s, ResumeBoot) &&
      (step.next.Go? && step.flags == Flags(false, false) ==>
         After(s, ResumeBoot) == BootingWith(p, step.next.pc, None, e))
  {
    hide Resume, Performed, Answer, CallOf;
  }

  lemma BootPoints(p: Profile)
    requires p.storage.enabled && !Usable(p.storage)
    ensures var at, f, now := (r: ReconcileAt) => Reconcile(AtBoot, r), Flags(false, false), Epochs(0, 0, 1);
      Answer(CallOf(at(AccessLevel)), p, SUCCEEDED) == Done &&
      Performed(CallOf(at(AccessLevel)), p, SUCCEEDED) == p &&
      Resume(at(AccessLevel), f, Done, now) == Step(f, Go(at(ReadStorage))) &&
      Answer(CallOf(at(ReadStorage)), p, SUCCEEDED) == Data(p.storage) &&
      Performed(CallOf(at(ReadStorage)), p, SUCCEEDED) == p &&
      Resume(at(ReadStorage), f, Data(p.storage), now) == Step(f, Go(at(StoreDisabled))) &&
      Answer(CallOf(at(StoreDisabled)), p, SUCCEEDED) == Done &&
      Performed(CallOf(at(StoreDisabled)), p, SUCCEEDED) == p.(storage := Patched(p.storage, Disable))
  {
  }

  lemma RecordingSteps(p: Profile, e: ErrorRecord)
    ensures var d := p.(storage := Patched(p.storage, Disable));
      var s := BootingWith(d, Reconcile(AtBoot, StoreDisabled), Some(Done), e);
      var read := RecordRead(1, e);
      Enabled(s, Begin) && After(s, Begin) == RecordingBeside(p, Some(Frame(read, None)), e) &&
      Enabled(After(s, Begin), PerformTask(SUCCEEDED)) &&
      After(After(s, Begin), PerformTask(SUCCEEDED)) ==
        RecordingBeside(p, Some(Frame(read, Some(Data(d.storage)))), e) &&
      Enabled(After(After(s, Begin), PerformTask(SUCCEEDED)), ResumeTask) &&
      After(After(After(s, Begin), PerformTask(SUCCEEDED)), ResumeTask) == RecordingBeside(p, None, e)
  {
  }

  lemma LosingRun(p: Profile, e: ErrorRecord) returns (states: seq<State>, choices: seq<Choice>)
    requires p.storage.enabled && !Usable(p.storage)
    ensures Run(states, choices) && |choices| == 9 && forall c :: c in choices ==> Smooth(c)
    ensures states[0] == Started(p) && choices[0] == ProxyError(e) && states[9] == RecordingBeside(p, None, e)
  {
    var first, read := Reconcile(AtBoot, AccessLevel), Reconcile(AtBoot, ReadStorage);
    var off := Reconcile(AtBoot, StoreDisabled);
    var d := p.(storage := Patched(p.storage, Disable));
    BootPoints(p);
    BootingStep(p, first, e);
    BootingStep(p, read, e);
    BootingStep(p, off, e);
    RecordingSteps(p, e);
    LosingStart(p, e);
    hide After, Enabled, Resume, Answer, Performed, CallOf, BootingWith, RecordingBeside, Started, Patched, Possible;
    choices := [ProxyError(e), PerformBoot(SUCCEEDED), ResumeBoot, PerformBoot(SUCCEEDED), ResumeBoot,
                PerformBoot(SUCCEEDED), Begin, PerformTask(SUCCEEDED), ResumeTask];
    states := [Started(p), BootingWith(p, first, None, e), BootingWith(p, first, Some(Done), e),
               BootingWith(p, read, None, e), BootingWith(p, read, Some(Data(p.storage)), e),
               BootingWith(p, off, None, e), BootingWith(d, off, Some(Done), e),
               RecordingBeside(p, Some(Frame(RecordRead(1, e), None)), e),
               RecordingBeside(p, Some(Frame(RecordRead(1, e), Some(Data(d.storage)))), e),
               RecordingBeside(p, None, e)];
  }

  /** An error can be lost with none of that: wherever an enabled connection is stored without
      a usable configuration, the boot it arrives in switches off before it is recorded. */
  lemma BootLosesError(p: Profile, e: ErrorRecord) returns (states: seq<State>, choices: seq<Choice>)
    requires p.storage.enabled && !Usable(p.storage) && p.storage.proxyError != Some(e)
    ensures WorkerRun(states, choices) && states[0] == Started(p) && |choices| > 1
    ensures forall c :: c in choices ==> Smooth(c)
    ensures ErrorArrives(states[0], choices[0]) && ArrivingError(states[0], choices[0]) == e
    ensures !HeldAt(states, choices, 0, |choices|)
  {
    states, choices := LosingRun(p, e);
    LostAtEnd(p, e, NoDeath(choices, 0, |choices|));
    hide After, Enabled, Held, Smooth, RecordingBeside;
  }

  /** TEST_IP never clears an error that reported a possible direct connection. */
  lemma DirectErrorsOutlastTests(states: seq<State>, choices: seq<Choice>, k: nat)
    requires WorkerRun(states, choices) && k < |choices| && choices[k].PerformTask?
    requires states[k].current.value.pc.Clearing? && CallOf(states[k].current.value.pc).StorageSet?
    ensures states[k].profile.storage.proxyError.Some? && !states[k].profile.storage.proxyError.value.possibleDirect
  {
    ClearFactsAlways(states, choices, k);
  }
}
