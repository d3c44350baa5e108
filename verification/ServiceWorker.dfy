/** The module variables of the service worker and the code that changes them in
    place: the queue of `exclusive`, the listeners, and the handlers' stretches. */
module ServiceWorker {
  import opened Wrappers
  import opened Browser
  import opened Tasks
  import opened Worker

  class ServiceWorker {
    var operation: seq<Task>
    var afterBoot: seq<Task>
    var running: Option<Frame>
    var boot: Option<Frame>
    var configurationChanging: bool
    var configurationEpoch: nat
    var proxyErrorEpoch: nat
    var browserSettingEpoch: nat
    var restoreAfterIncognitoTakeover: bool
    var ownProxyClearedForConflict: bool
    var authAttempts: set<nat>
    var handlers: map<nat, Handler>
    ghost var lastBegun: Option<Task>

    function Epochs(): Tasks.Epochs
      reads this
    {
      Tasks.Epochs.Epochs(configurationEpoch, browserSettingEpoch, proxyErrorEpoch)
    }

    function Vars(): Worker.Vars
      reads this
    {
      Worker.Vars.Vars(Epochs(), configurationChanging,
                       Flags(restoreAfterIncognitoTakeover, ownProxyClearedForConflict), authAttempts)
    }

    /** The state the transition system has for these variables over a browser profile. */
    ghost function State(p: Profile): Worker.State
      reads this
    {
      Worker.State.State(p, Vars(), boot, afterBoot, operation, running, handlers, lastBegun)
    }

    constructor ()
      ensures forall p :: State(p) == Started(p)
    {
      operation, afterBoot, running := [], [], None;
      boot := Some(Frame(Reconcile(AtBoot, AccessLevel), None));
      configurationChanging := false;
      configurationEpoch, proxyErrorEpoch, browserSettingEpoch := 0, 0, 0;
      restoreAfterIncognitoTakeover, ownProxyClearedForConflict := false, false;
      authAttempts, handlers, lastBegun := {}, map[], None;
    }

    method Exclusive(task: Task)
      modifies `operation
      ensures operation == old(operation) + [task]
    {
      operation := operation + [task];
    }

    /** The promise a TEST_IP waits for settles. */
    method SettleTest(h: nat, at: HandlerAt)
      modifies `handlers
      ensures handlers == Put(old(handlers), h, at)
    {
      if h in handlers { handlers := handlers[h := Waiting(at)]; }
    }

    method Adopt(flags: Flags)
      modifies `restoreAfterIncognitoTakeover, `ownProxyClearedForConflict
      ensures Vars() == old(Vars()).(flags := flags)
    {
      restoreAfterIncognitoTakeover, ownProxyClearedForConflict := flags.restore, flags.ownCleared;
    }

    method Enter()
      requires operation != []
      modifies `operation, `lastBegun, `configurationChanging, `configurationEpoch
      ensures operation == old(operation[1..]) && lastBegun == Some(old(operation[0]))
      ensures Vars() == old(Vars()).(changing := true, epochs := Epochs())
      ensures Epochs() == old(Epochs()).(configuration := old(configurationEpoch) + 1)
    {
      lastBegun := Some(operation[0]);
      operation := operation[1..];
      configurationChanging := true;
      configurationEpoch := configurationEpoch + 1;
    }

    /** The promise chain reaches the next task. */
    method TakeNext(ghost p: Profile)
      requires running.None? && operation != []
      modifies this
      ensures State(p) == Begun(old(State(p)))
    {
      hide Start;
      var task := operation[0];
      Enter();
      var first := Start(task, Vars().flags, Epochs());
      Adopt(first.flags);
      running := Some(Frame(first.pc, None));
      if task.ClearTestedError? && first.pc.Settle? { SettleTest(task.handler, TestThrew); }
    }

    method Leave(pc: Pc, reply: Reply)
      modifies `running, `configurationChanging, `handlers
      ensures running.None? && Vars() == old(Vars()).(changing := false)
      ensures handlers == Settled(old(handlers), pc, reply)
    {
      running := None;
      configurationChanging := false;
      if pc.Clearing? {
        var cleared := pc.k.KBadge? && !reply.Rejected?;
        SettleTest(pc.handler, if cleared then TestCleared(pc.sample) else TestThrew);
      }
    }

    /** One stretch of the running task; `finally` runs with its last one. */
    method Continue(ghost p: Profile)
      requires running.Some? && running.value.reply.Some?
      modifies this
      ensures State(p) == ResumedTask(old(State(p)))
    {
      hide Resume, Start, Settled;
      var pc, reply := running.value.pc, running.value.reply.value;
      var step := Resume(pc, Vars().flags, reply, Vars().epochs);
      Adopt(step.flags);
      if step.next.Go? { running := Some(Frame(step.next.pc, None)); } else { Leave(pc, reply); }
    }

    method OnProxyError(error: ErrorRecord, ghost p: Profile)
      modifies this
      ensures Enabled(old(State(p)), ProxyError(error)) && State(p) == After(old(State(p)), ProxyError(error))
    {
      proxyErrorEpoch := proxyErrorEpoch + 1;
      Exclusive(RecordProxyError(proxyErrorEpoch, error));
    }

    method OnProxySettingChange(ghost p: Profile)
      modifies this
      ensures Enabled(old(State(p)), ProxySettingEvent) && State(p) == After(old(State(p)), ProxySettingEvent)
    {
      browserSettingEpoch := browserSettingEpoch + 1;
      afterBoot := afterBoot + [ProxyChanged];
    }

    method OnRtcSettingChange(ghost p: Profile)
      modifies this
      ensures Enabled(old(State(p)), RtcSettingEvent) && State(p) == After(old(State(p)), RtcSettingEvent)
    {
      browserSettingEpoch := browserSettingEpoch + 1;
      afterBoot := afterBoot + [RtcChanged];
    }

    /** A callback of boot.then. */
    method BootThen(ghost p: Profile)
      requires boot.None? && afterBoot != []
      modifies this
      ensures Enabled(old(State(p)), Release) && State(p) == After(old(State(p)), Release)
    {
      var task := afterBoot[0];
      afterBoot := afterBoot[1..];
      Exclusive(task);
    }

    method ClearAuthAttempt(requestId: nat, ghost p: Profile)
      modifies this
      ensures Enabled(old(State(p)), RequestDone(requestId)) && State(p) == After(old(State(p)), RequestDone(requestId))
    {
      authAttempts := authAttempts - {requestId};
    }

    /** The auth handler with its two snapshots: the guard, the retry, the answer. */
    method AnswerChallenge(h: nat, now: int, ghost p: Profile) returns (answer: AuthAnswer)
      requires h in handlers && handlers[h].at.AuthSnapshots? && Resumable(handlers[h])
      modifies this
      ensures State(p) == ResumedHandler(old(State(p)), h, now)
      ensures handlers[h] == Waiting(AuthAnswered(old(handlers[h].at.a), answer))
    {
      var it := handlers[h];
      var a, cfg := it.at.a, it.at.cfg;
      var expected := BuildProxyConfig(cfg);
      if configurationChanging || configurationEpoch != a.epoch || browserSettingEpoch != a.settingEpoch ||
         !ProxyEffective(it.first.value, expected) || !RtcRestricted(it.second.value)
      {
        answer := Cancelled;
      } else if a.challenge.requestId in authAttempts {
        proxyErrorEpoch := proxyErrorEpoch + 1;
        Exclusive(RecordAuthError(proxyErrorEpoch, ErrorRecord(false, "AUTH_FAILED", now)));
        answer := Cancelled;
      } else {
        authAttempts := authAttempts + {a.challenge.requestId};
        answer := Credentials(cfg.connection.username, cfg.connection.password);
      }
      handlers := handlers[h := Waiting(AuthAnswered(a, answer))];
    }

    /** testIp after its second status: it returns, throws or queues the clearing. */
    method FinishTest(h: nat, now: int, ghost p: Profile)
      requires h in handlers && handlers[h].at.TestSecond? && Resumable(handlers[h])
      requires StatusNext(handlers[h].at.at, handlers[h].first.value).Ready?
      modifies this
      ensures State(p) == ResumedHandler(old(State(p)), h, now)
    {
      hide StatusNext, Start, Resume;
      var it := handlers[h];
      var l, previous := it.at.l, it.at.previous;
      var after := StatusNext(it.at.at, it.first.value).status;
      var changed :=
        configurationEpoch != l.epoch || browserSettingEpoch != l.settingEpoch || proxyErrorEpoch != l.errorEpoch;
      var to: HandlerAt;
      if configurationChanging || changed || (!after.active && !after.canRetryIp) {
        to := TestThrew;
      } else if previous.Some? {
        to := TestQueued(l, previous.value);
        Exclusive(ClearTestedError(h, l, previous.value));
      } else {
        to := TestReturned(l);
      }
      handlers := handlers[h := Waiting(to)];
    }
  }
}
