/** The exclusive tasks as the source writes them, one statement after another.

    `calls` is what a task has asked Chrome so far, and every answer Chrome will give is
    fixed beforehand. A method ends with exactly the calls that the state machine of
    Tasks makes for these answers, in its order, and with the machine's module flags. */
module Scripts {
  import opened Wrappers
  import opened Browser
  import opened Tasks

  const UNUSED := Epochs(0, 0, 0)

  /** What an awaited call yields if Chrome is about to answer `reply`. */
  function Fitting(call: Call, reply: Reply): Reply {
    if Answers(call, reply) then reply else Rejected
  }

  /** Whatever Chrome does with a call, its answer is a fitting one: a script may meet every
      reply that the transition system gives. */
  lemma AnswersAreFitting(call: Call, p: Profile, o: Outcome)
    ensures Fitting(call, Answer(call, p, o)) == Answer(call, p, o)
  {
    AnswersFit(call, p, o);
    hide Answer, Answers;
  }

  /** One run of one task. `epochs` are those at the instant each answer is handled. */
  class Script {
    ghost const start: Step
    const replies: nat -> Reply
    const epochs: nat -> Epochs
    var restoreAfterIncognitoTakeover: bool
    var ownProxyClearedForConflict: bool

    ghost function Flags(): Tasks.Flags
      reads this
    {
      Tasks.Flags.Flags(restoreAfterIncognitoTakeover, ownProxyClearedForConflict)
    }

    /** Where the machine stands after n answers. */
    ghost function Position(n: nat): Step {
      if n == 0 then start
      else
        var s := Position(n - 1);
        if s.next.Stop? then s
        else Resume(s.next.pc, s.flags, Fitting(CallOf(s.next.pc), replies(n - 1)), epochs(n - 1))
    }

    /** `calls` are the first calls of the machine. */
    ghost predicate Follows(calls: seq<Call>) {
      forall i :: 0 <= i < |calls| ==> Position(i).next.Go? && calls[i] == CallOf(Position(i).next.pc)
    }

    /** Where the machine stands after these calls. */
    ghost function Here(calls: seq<Call>): Step {
      Position(|calls|)
    }

    ghost predicate Stands(calls: seq<Call>, step: Step) {
      Follows(calls) && Here(calls) == step
    }

    /** The machine goes on at `pc` and has the module's flags. */
    ghost predicate At(calls: seq<Call>, pc: Pc)
      reads this
    {
      Stands(calls, Step(Flags(), Go(pc)))
    }

    /** These are all the calls of the machine, its flags are the module's, and it returns or
        throws as the method does. */
    ghost predicate Ended(calls: seq<Call>, result: Reply)
      reads this
    {
      Stands(calls, Step(Flags(), Stop(!result.Rejected?)))
    }

    /** `exclusive` has just called the task. */
    ghost predicate Begins(t: Task, now: Epochs := UNUSED)
      reads this
    {
      var b := Start(t, Flags(), now);
      start == Step(b.flags, Go(b.pc))
    }

    lemma NothingAsked()
      ensures Stands([], start)
    {
    }

    lemma OneMore(made: seq<Call>, call: Call)
      requires Follows(made) && Here(made).next.Go? && call == CallOf(Here(made).next.pc)
      ensures var at := Here(made);
        Stands(made + [call], Resume(at.next.pc, at.flags, Fitting(call, replies(|made|)), epochs(|made|)))
    {
      hide Resume, CallOf, Fitting;
      var calls := made + [call];
      assert Position(|made| + 1) ==
        Resume(Here(made).next.pc, Here(made).flags, Fitting(call, replies(|made|)), epochs(|made|));
      assert forall i :: 0 <= i < |made| ==> calls[i] == made[i];
    }

    /** For given answers there is only one complete list of calls. */
    lemma CallsAreDetermined(a: seq<Call>, b: seq<Call>)
      requires Follows(a) && Here(a).next.Stop? && Follows(b) && Here(b).next.Stop?
      ensures a == b
    {
      hide Position, CallOf;
      assert |a| == |b|;
    }

    /** Only the clearing of a tested error looks at the epochs. */
    lemma EpochsUnused(pc: Pc, f: Tasks.Flags, reply: Reply, now: Epochs)
      requires !pc.Clearing?
      ensures Resume(pc, f, reply, now) == Resume(pc, f, reply, UNUSED)
    {
      hide ResumeReconcile, ResumeApply, ResumeConnect, ResumeSave, ResumeProxyChange;
    }

    /** No other code touches the flags while a task waits. */
    method AwaitReply(call: Call, made: seq<Call>) returns (reply: Reply, calls: seq<Call>)
      requires Follows(made) && Here(made).next.Go? && call == CallOf(Here(made).next.pc) && Here(made).flags == Flags()
      ensures calls == made + [call] && reply == Fitting(call, replies(|made|))
      ensures reply.Rejected? || Answers(call, reply)
      ensures var at := Here(made); Stands(calls, Resume(at.next.pc, at.flags, reply, epochs(|made|)))
    {
      OneMore(made, call);
      hide Follows, Here, Resume, CallOf;
      reply := Fitting(call, replies(|made|));
      calls := made + [call];
    }

    method Await(call: Call, made: seq<Call>) returns (reply: Reply, calls: seq<Call>)
      requires Follows(made) && Here(made).next.Go? && call == CallOf(Here(made).next.pc) && Here(made).flags == Flags()
      requires !Here(made).next.pc.Clearing?
      ensures reply.Rejected? || Answers(call, reply)
      ensures var at := Here(made); Stands(calls, Resume(at.next.pc, at.flags, reply, UNUSED))
    {
      hide Follows, Here, Resume, CallOf, Fitting, Answers;
      reply, calls := AwaitReply(call, made);
      EpochsUnused(Here(made).next.pc, Here(made).flags, reply, epochs(|made|));
    }

    /** disconnect, as a task of its own or as the first part of forget. */
    method Disconnect(ghost forgetting: bool) returns (result: Reply, calls: seq<Call>)
      requires Begins(if forgetting then Task.Forget else Task.Disconnect)
      modifies this
      ensures result.Rejected? || !forgetting ==> Ended(calls, result)
      ensures !result.Rejected? && forgetting ==> At(calls, Disconnecting(true, DRemove))
      ensures !restoreAfterIncognitoTakeover && !ownProxyClearedForConflict
    {
      hide Follows, Here;
      NothingAsked();
      calls := [];
      restoreAfterIncognitoTakeover := false;
      ownProxyClearedForConflict := false;
      result, calls :- Await(StorageSet(DisableAndForgive), calls);
      result, calls :- Await(ProxyClear, calls);
      result, calls :- Await(RtcClear, calls);
      result, calls :- Await(Report, calls);
    }

    method Forget() returns (result: Reply, calls: seq<Call>)
      requires Begins(Task.Forget)
      modifies this
      ensures Ended(calls, result)
      ensures !restoreAfterIncognitoTakeover && !ownProxyClearedForConflict
    {
      hide Follows, Here;
      result, calls :- Disconnect(true);
      result, calls :- Await(StorageSet(RemoveConfig), calls);
      result, calls :- Await(Report, calls);
    }

    method ImportKey(key: Connection) returns (result: Reply, calls: seq<Call>)
      requires Begins(Task.ImportKey(Some(key)))
      ensures Ended(calls, result)
    {
      hide Follows, Here;
      NothingAsked();
      calls := [];
      result, calls :- Await(StorageSet(Disable), calls);
      result, calls :- Await(ProxyClear, calls);
      result, calls :- Await(RtcClear, calls);
      result, calls :- Await(StorageSet(Import(key)), calls);
      result, calls :- Await(Report, calls);
    }

    /** The try block of connect. */
    method ApplyConnection(cfg: Config, made: seq<Call>) returns (result: Reply, calls: seq<Call>)
      requires At(made, Connecting(cfg, CSetRtc))
      ensures result.Rejected? ==> At(calls, Connecting(cfg, CStoreDisabled))
      ensures !result.Rejected? ==> Stands(calls, Step(Tasks.Flags.Flags(false, false), Go(Connecting(cfg, CReport))))
    {
      hide Follows, Here;
      calls := made;
      var expected := BuildProxyConfig(cfg);
      result, calls :- Await(RtcSet, calls);
      result, calls :- Await(RtcGet(false), calls);
      if !Restricted(result.rtc) { return Rejected, calls; }
      result, calls := Await(IncognitoRtc, calls);
      if !IncognitoRtcRestricted(result) { return Rejected, calls; }
      result, calls :- Await(ProxySet(expected), calls);
      result, calls :- Await(ProxyGet(false), calls);
      if !Effective(result.proxy, expected) { return Rejected, calls; }
      result, calls := Await(IncognitoProxy, calls);
      if !IncognitoProxyState(result, expected).effective { return Rejected, calls; }
      result, calls :- Await(RtcGet(false), calls);
      if !Restricted(result.rtc) { return Rejected, calls; }
      result, calls := Await(IncognitoRtc, calls);
      if !IncognitoRtcRestricted(result) { return Rejected, calls; }
      return Done, calls;
    }

    /** The catch of connect, which throws in every case. */
    method UndoConnection(cfg: Config, made: seq<Call>) returns (calls: seq<Call>)
      requires At(made, Connecting(cfg, CStoreDisabled))
      ensures Ended(calls, Rejected)
    {
      hide Follows, Here;
      calls := made;
      var result;
      result, calls := Await(StorageSet(Disable), calls);
      if result.Rejected? { return; }
      result, calls := Await(ProxyClear, calls);
      if result.Rejected? { return; }
      result, calls := Await(RtcClear, calls);
      if result.Rejected? { return; }
      result, calls := Await(Report, calls);
    }

    /** connect up to the point where it stores `enabled`. */
    method PrepareConnection(cfg: Config, made: seq<Call>) returns (result: Reply, calls: seq<Call>)
      requires At(made, Connecting(cfg, CReadProxy))
      ensures result.Rejected? ==> Ended(calls, result)
      ensures !result.Rejected? ==> At(calls, Connecting(cfg, CStoreEnabled))
    {
      hide Follows, Here;
      calls := made;
      result, calls :- Await(ProxyGet(false), calls);
      if !MayControl(result.proxy.level) {
        result, calls :- Await(ProxyClear, calls);
        return Rejected, calls;
      }
      result, calls := Await(IncognitoProxy, calls);
      if !IncognitoProxyState(result, BuildProxyConfig(cfg)).controllable {
        result, calls :- Await(ProxyClear, calls);
        return Rejected, calls;
      }
      result, calls :- Await(RtcGet(false), calls);
      if !MayControl(result.rtc.level) {
        result, calls :- Await(ProxyClear, calls);
        return Rejected, calls;
      }
      if !Restricted(result.rtc) { result, calls :- Await(ProxyClear, calls); }
      return Done, calls;
    }

    /** connect once it has read its configuration. */
    method ConnectTo(cfg: Config, made: seq<Call>) returns (result: Reply, calls: seq<Call>)
      requires At(made, Connecting(cfg, CReadProxy))
      modifies this
      ensures Ended(calls, result)
      ensures !result.Rejected? ==> !restoreAfterIncognitoTakeover && !ownProxyClearedForConflict
    {
      hide Follows, Here;
      result, calls :- PrepareConnection(cfg, made);
      result, calls :- Await(StorageSet(EnableAndForgive), calls);
      result, calls := ApplyConnection(cfg, calls);
      if result.Rejected? {
        calls := UndoConnection(cfg, calls);
        return Rejected, calls;
      }
      restoreAfterIncognitoTakeover := false;
      ownProxyClearedForConflict := false;
      result, calls :- Await(Report, calls);
    }

    method Connect() returns (result: Reply, calls: seq<Call>)
      requires Begins(Task.Connect)
      modifies this
      ensures Ended(calls, result)
      ensures !result.Rejected? ==> !restoreAfterIncognitoTakeover && !ownProxyClearedForConflict
    {
      hide Follows, Here;
      NothingAsked();
      calls := [];
      result, calls :- Await(StorageGet, calls);
      var data := result.data;
      if !Readable(data) || !data.connection.Saved? { return Rejected, calls; }
      var cfg := Config(data.connection.value, ExclusionList(data.exclusions));
      result, calls := ConnectTo(cfg, calls);
    }

    /** Getting the WebRTC restriction in place, in the try block of reconcileAtStartup. */
    method EnsureRestriction(cfg: Config, ghost caller: Caller, made: seq<Call>)
      returns (result: Reply, calls: seq<Call>)
      requires At(made, Pc.Apply(caller, cfg, ReadRtc))
      ensures At(calls, Pc.Apply(caller, cfg, if result.Rejected? then DropFailedPac else ReadProxy))
    {
      hide Follows, Here;
      calls := made;
      result, calls :- Await(RtcGet(false), calls);
      if !Restricted(result.rtc) {
        var level := result.rtc.level;
        result, calls :- Await(ProxyClear, calls);
        if !MayControl(level) { return Rejected, calls; }
        result, calls :- Await(RtcSet, calls);
        result, calls :- Await(RtcGet(false), calls);
        if !Restricted(result.rtc) { return Rejected, calls; }
      }
      result, calls := Await(IncognitoRtc, calls);
      if !IncognitoRtcRestricted(result) { return Rejected, calls; }
      return Done, calls;
    }

    /** The last checks of that try block. */
    method ConfirmApplied(cfg: Config, ghost caller: Caller, made: seq<Call>)
      returns (result: Reply, calls: seq<Call>)
      requires At(made, Pc.Apply(caller, cfg, LastRtc))
      ensures result.Rejected? ==> At(calls, Pc.Apply(caller, cfg, DropFailedPac))
      ensures !result.Rejected? ==>
        Stands(calls, Step(Tasks.Flags.Flags(false, false), Go(Pc.Apply(caller, cfg, AppliedBadge))))
    {
      hide Follows, Here;
      calls := made;
      result, calls :- Await(RtcGet(false), calls);
      if !Restricted(result.rtc) { return Rejected, calls; }
      result, calls := Await(IncognitoRtc, calls);
      if !IncognitoRtcRestricted(result) { return Rejected, calls; }
      result, calls := Await(IncognitoProxy, calls);
      if !IncognitoProxyState(result, BuildProxyConfig(cfg)).effective { return Rejected, calls; }
      return Done, calls;
    }

    /** The try block of reconcileAtStartup. */
    method Apply(cfg: Config, ghost caller: Caller, made: seq<Call>) returns (result: Reply, calls: seq<Call>)
      requires At(made, Pc.Apply(caller, cfg, ReadRtc))
      modifies this
      ensures At(calls, Pc.Apply(caller, cfg, if result.Rejected? then DropFailedPac else AppliedBadge))
    {
      hide Follows, Here;
      var expected := BuildProxyConfig(cfg);
      result, calls :- EnsureRestriction(cfg, caller, made);
      result, calls :- Await(ProxyGet(false), calls);
      if !MayControl(result.proxy.level) { return Rejected, calls; }
      var setting := result.proxy;
      result, calls := Await(IncognitoProxy, calls);
      if !IncognitoProxyState(result, expected).controllable {
        restoreAfterIncognitoTakeover := true;
        return Rejected, calls;
      }
      if !Effective(setting, expected) {
        result, calls :- Await(ProxySet(expected), calls);
        result, calls :- Await(ProxyGet(false), calls);
        if !Effective(result.proxy, expected) { return Rejected, calls; }
      }
      result, calls :- ConfirmApplied(cfg, caller, calls);
      restoreAfterIncognitoTakeover := false;
      ownProxyClearedForConflict := false;
      return Done, calls;
    }

    /** Reconciling a configuration that is off, absent or damaged. */
    method SwitchOff(disable: bool, ghost caller: Caller, made: seq<Call>) returns (result: Reply, calls: seq<Call>)
      requires At(made, Reconcile(caller, if disable then StoreDisabled else DropPac))
      ensures Stands(calls,
                     Step(Flags(), if result.Rejected? then Throw(caller) else Go(Reconcile(caller, Badge))))
    {
      hide Follows, Here;
      calls := made;
      if disable { result, calls :- Await(StorageSet(Disable), calls); }
      result, calls :- Await(ProxyClear, calls);
      result, calls :- Await(RtcClear, calls);
    }

    method ReconcileAtStartup(ghost caller: Caller, made: seq<Call>) returns (result: Reply, calls: seq<Call>)
      requires At(made, Reconcile(caller, AccessLevel))
      modifies this
      ensures Stands(calls, Step(Flags(), if result.Rejected? then Throw(caller) else Return(caller)))
    {
      hide Follows, Here;
      calls := made;
      result, calls :- Await(SetAccessLevel, calls);
      result, calls :- Await(StorageGet, calls);
      var data := result.data;
      if Readable(data) && data.enabled && data.connection.Saved? {
        result, calls := Apply(Config(data.connection.value, ExclusionList(data.exclusions)), caller, calls);
        if result.Rejected? { result, calls :- Await(ProxyClear, calls); }
      } else {
        result, calls :- SwitchOff(!Readable(data) || data.enabled, caller, calls);
      }
      result, calls :- Await(Report, calls);
    }

    method Boot(made: seq<Call>) returns (calls: seq<Call>)
      requires At(made, Reconcile(AtBoot, AccessLevel))
      modifies this
      ensures Ended(calls, Done)
    {
      hide Follows, Here;
      var result;
      result, calls := ReconcileAtStartup(AtBoot, made);
      if result.Rejected? {
        result, calls := Await(ProxyClear, calls);
        result, calls := Await(Report, calls);
      }
    }

    method RtcChanged() returns (result: Reply, calls: seq<Call>)
      requires Begins(Task.RtcChanged)
      modifies this
      ensures Ended(calls, result)
    {
      hide Follows, Here;
      NothingAsked();
      result, calls := ReconcileAtStartup(AtRtcChange, []);
    }

    method RecordProxyError(ghost id: nat, error: ErrorRecord) returns (result: Reply, calls: seq<Call>)
      requires Begins(Task.RecordProxyError(id, error))
      ensures Ended(calls, result)
    {
      hide Follows, Here;
      NothingAsked();
      calls := [];
      result, calls :- Await(StorageGet, calls);
      if !result.data.enabled { return Done, calls; }
      result, calls :- Await(StorageSet(Record(error)), calls);
      result, calls :- Await(Report, calls);
    }

    method RecordAuthError(ghost id: nat, error: ErrorRecord) returns (result: Reply, calls: seq<Call>)
      requires Begins(Task.RecordAuthError(id, error))
      ensures Ended(calls, result)
    {
      hide Follows, Here;
      NothingAsked();
      calls := [];
      result, calls :- Await(StorageSet(Record(error)), calls);
      result, calls :- Await(Report, calls);
    }

    /** The guards of saveExclusions on an enabled connection. */
    method MaySave(c: Connection, before: Stored<seq<string>>, next: seq<string>, made: seq<Call>)
      returns (result: Reply, calls: seq<Call>)
      requires At(made, Saving(c, before, next, SReadProxy))
      modifies this
      ensures result.Rejected? ==> Ended(calls, result)
      ensures !result.Rejected? ==> At(calls, Saving(c, before, next, SStore))
    {
      hide Follows, Here;
      calls := made;
      result, calls :- Await(ProxyGet(false), calls);
      if !MayControl(result.proxy.level) {
        result, calls :- Await(ProxyClear, calls);
        return Rejected, calls;
      }
      result, calls :- Await(RtcGet(false), calls);
      var restricted := Restricted(result.rtc);
      if restricted {
        result, calls := Await(IncognitoRtc, calls);
        restricted := IncognitoRtcRestricted(result);
      }
      if !restricted {
        result, calls :- Await(ProxyClear, calls);
        return Rejected, calls;
      }
      if before.Damaged? { return Rejected, calls; }
      result, calls := Await(IncognitoProxy, calls);
      if !IncognitoProxyState(result, BuildProxyConfig(Config(c, ExclusionList(before)))).controllable {
        restoreAfterIncognitoTakeover := true;
        result, calls :- Await(ProxyClear, calls);
        return Rejected, calls;
      }
      return Done, calls;
    }

    /** The outer try block of saveExclusions. */
    method ApplyExclusions(c: Connection, before: Stored<seq<string>>, next: seq<string>, made: seq<Call>)
      returns (result: Reply, calls: seq<Call>)
      requires At(made, Saving(c, before, next, SSetPac))
      ensures result.Rejected? ==> At(calls, Saving(c, before, next, SStoreOld))
      ensures !result.Rejected? ==>
        Stands(calls, Step(Flags().(ownCleared := false), Go(Saving(c, before, next, SReport))))
    {
      hide Follows, Here;
      calls := made;
      var expected := BuildProxyConfig(Config(c, next));
      result, calls :- Await(ProxySet(expected), calls);
      result, calls :- Await(ProxyGet(false), calls);
      if !Effective(result.proxy, expected) { return Rejected, calls; }
      result, calls := Await(IncognitoProxy, calls);
      if !IncognitoProxyState(result, expected).effective { return Rejected, calls; }
      result, calls :- Await(RtcGet(false), calls);
      if !Restricted(result.rtc) { return Rejected, calls; }
      result, calls := Await(IncognitoRtc, calls);
      if !IncognitoRtcRestricted(result) { return Rejected, calls; }
      return Done, calls;
    }

    /** Whether the previous PAC may be put back: the condition in the inner try block of saveExclusions. */
    method MayRestore(c: Connection, before: Stored<seq<string>>, next: seq<string>, made: seq<Call>)
      returns (result: Reply, calls: seq<Call>)
      requires At(made, Saving(c, before, next, SOldRtc))
      ensures At(calls, Saving(c, before, next, if result.Rejected? then SDropPac else SSetOldPac))
    {
      hide Follows, Here;
      calls := made;
      result, calls :- Await(RtcGet(false), calls);
      if !Restricted(result.rtc) { return Rejected, calls; }
      result, calls := Await(IncognitoRtc, calls);
      if !IncognitoRtcRestricted(result) { return Rejected, calls; }
      result, calls := Await(IncognitoProxy, calls);
      var previous := BuildProxyConfig(Config(c, ExclusionList(before)));
      if !IncognitoProxyState(result, previous).controllable { return Rejected, calls; }
      return Done, calls;
    }

    /** The checks after the previous PAC was set again. */
    method ConfirmRestored(c: Connection, before: Stored<seq<string>>, next: seq<string>, made: seq<Call>)
      returns (result: Reply, calls: seq<Call>)
      requires At(made, Saving(c, before, next, SOldRereadProxy))
      ensures At(calls, Saving(c, before, next, if result.Rejected? then SDropPac else SReportRestored))
    {
      hide Follows, Here;
      calls := made;
      var previous := BuildProxyConfig(Config(c, ExclusionList(before)));
      result, calls :- Await(ProxyGet(false), calls);
      if !Effective(result.proxy, previous) { return Rejected, calls; }
      result, calls := Await(IncognitoProxy, calls);
      if !IncognitoProxyState(result, previous).effective { return Rejected, calls; }
      result, calls :- Await(RtcGet(false), calls);
      if !Restricted(result.rtc) { return Rejected, calls; }
      result, calls := Await(IncognitoRtc, calls);
      if !IncognitoRtcRestricted(result) { return Rejected, calls; }
      return Done, calls;
    }

    /** The inner try block of saveExclusions, which puts the previous PAC back. */
    method RestoreExclusions(c: Connection, before: Stored<seq<string>>, next: seq<string>, made: seq<Call>)
      returns (result: Reply, calls: seq<Call>)
      requires At(made, Saving(c, before, next, SOldRtc))
      ensures At(calls, Saving(c, before, next, if result.Rejected? then SDropPac else SReportRestored))
    {
      hide Follows, Here;
      result, calls :- MayRestore(c, before, next, made);
      result, calls :- Await(ProxySet(BuildProxyConfig(Config(c, ExclusionList(before)))), calls);
      result, calls := ConfirmRestored(c, before, next, calls);
    }

    /** The outer catch of saveExclusions, which throws in every case. */
    method UndoExclusions(c: Connection, before: Stored<seq<string>>, next: seq<string>, made: seq<Call>)
      returns (calls: seq<Call>)
      requires At(made, Saving(c, before, next, SStoreOld))
      ensures Ended(calls, Rejected)
    {
      hide Follows, Here;
      calls := made;
      var result;
      result, calls := Await(StorageSet(Exclude(ExclusionList(before))), calls);
      if result.Rejected? { return; }
      result, calls := RestoreExclusions(c, before, next, calls);
      if result.Rejected? { result, calls := Await(ProxyClear, calls); }
      result, calls := Await(Report, calls);
    }

    method SaveEnabled(c: Connection, before: Stored<seq<string>>, next: seq<string>, made: seq<Call>)
      returns (result: Reply, calls: seq<Call>)
      requires At(made, Saving(c, before, next, SReadProxy))
      modifies this
      ensures Ended(calls, result)
      ensures !result.Rejected? ==> !ownProxyClearedForConflict
    {
      hide Follows, Here;
      result, calls :- MaySave(c, before, next, made);
      result, calls :- Await(StorageSet(Exclude(next)), calls);
      result, calls := ApplyExclusions(c, before, next, calls);
      if result.Rejected? {
        calls := UndoExclusions(c, before, next, calls);
        return Rejected, calls;
      }
      ownProxyClearedForConflict := false;
      result, calls :- Await(Report, calls);
    }

    /** saveExclusions on a text the normaliser accepts. */
    method SaveExclusions(next: seq<string>) returns (result: Reply, calls: seq<Call>)
      requires Begins(Task.SaveExclusions(Some(next)))
      modifies this
      ensures Ended(calls, result)
      ensures !result.Rejected? ==> !ownProxyClearedForConflict
    {
      hide Follows, Here;
      NothingAsked();
      calls := [];
      result, calls :- Await(StorageGet, calls);
      var before := result.data;
      if !before.connection.Saved? { return Rejected, calls; }
      if before.enabled {
        result, calls := SaveEnabled(before.connection.value, before.exclusions, next, calls);
      } else {
        result, calls :- Await(StorageSet(Exclude(next)), calls);
        ownProxyClearedForConflict := false;
        result, calls :- Await(Report, calls);
      }
    }

    /** Reconciling after an incognito takeover has ended. */
    method Restore(made: seq<Call>) returns (result: Reply, calls: seq<Call>)
      requires At(made, ProxyChange(PReadRtc))
      modifies this
      ensures At(calls, ProxyChange(PBadge))
    {
      hide Follows, Here;
      calls := made;
      result, calls :- Await(RtcGet(false), calls);
      if !Restricted(result.rtc) { return Done, calls; }
      result, calls := Await(IncognitoRtc, calls);
      if !IncognitoRtcRestricted(result) { return Done, calls; }
      restoreAfterIncognitoTakeover := false;
      ownProxyClearedForConflict := false;
      result, calls := ReconcileAtStartup(InProxyChange, calls);
    }

    /** The try block of the proxy settings listener; its finally is the badge. */
    method FollowProxyChange(made: seq<Call>) returns (result: Reply, calls: seq<Call>)
      requires At(made, ProxyChange(PReadStorage))
      modifies this
      ensures At(calls, ProxyChange(PBadge))
    {
      hide Follows, Here;
      calls := made;
      result, calls :- Await(StorageGet, calls);
      var data := result.data;
      if !data.enabled || !data.connection.Saved? || data.exclusions.Damaged? { return Rejected, calls; }
      var cfg := Config(data.connection.value, ExclusionList(data.exclusions));
      result, calls := Await(IncognitoProxy, calls);
      var incognito := IncognitoProxyState(result, BuildProxyConfig(cfg));
      result, calls :- Await(ProxyGet(false), calls);
      var regular := result.proxy.level;
      if incognito.effective {
        restoreAfterIncognitoTakeover := false;
        ownProxyClearedForConflict := false;
      }
      if !incognito.effective && !ownProxyClearedForConflict {
        restoreAfterIncognitoTakeover := !incognito.controllable;
        result, calls :- Await(ProxyClear, calls);
        ownProxyClearedForConflict := true;
      }
      if restoreAfterIncognitoTakeover && incognito.level == Some(Controllable) && regular.Controllable? {
        result, calls := Restore(calls);
      }
    }

    method ProxyChanged() returns (result: Reply, calls: seq<Call>)
      requires Begins(Task.ProxyChanged)
      modifies this
      ensures Ended(calls, result)
    {
      hide Follows, Here;
      NothingAsked();
      result, calls := FollowProxyChange([]);
      result, calls :- Await(Report, calls);
    }

    /** One await of a status() inside the clearing task. */
    method AwaitStatus(call: Call, made: seq<Call>, ghost here: StatusAt) returns (reply: Reply, calls: seq<Call>)
      requires Follows(made) && Here(made).flags == Flags() && call == StatusCall(here)
      requires var n := Here(made).next; n.Go? && n.pc.Clearing? && n.pc.k.KStatus? && n.pc.k.at == here
      ensures reply.Rejected? || Answers(call, reply)
      ensures |calls| == |made| + 1
      ensures var pc := Here(made).next.pc;
        Stands(calls,
               match StatusNext(here, reply)
               case More(next) => Step(Flags(), Go(pc.(k := pc.k.(at := next))))
               case Threw => Step(Flags(), Stop(false))
               case Ready(status) =>
                 AfterStatus(pc.handler, pc.sample, pc.previous, pc.k.data, status, epochs(|calls| - 1)))
    {
      hide Follows, Here, Fitting, Answers;
      reply, calls := AwaitReply(call, made);
    }

    /** status() as far as TEST_IP looks at it. */
    method ReadStatus(ghost handler: nat, ghost l: Sample, ghost previous: ErrorRecord, ghost tested: Storage,
                      made: seq<Call>)
      returns (result: Reply, status: Status, calls: seq<Call>)
      requires At(made, Clearing(handler, l, previous, KStatus(tested, TReadStorage)))
      ensures result.Rejected? ==> Ended(calls, result)
      ensures !result.Rejected? ==>
        calls != [] && Stands(calls, AfterStatus(handler, l, previous, tested, status, epochs(|calls| - 1)))
    {
      hide Follows, Here, Resume, CallOf, AfterStatus;
      status, calls := Status(false, false, None, []), made;
      result, calls :- AwaitStatus(StorageGet, calls, TReadStorage);
      var data := result.data;
      result, calls :- AwaitStatus(ProxyGet(false), calls, TReadProxy(data));
      var setting := result.proxy;
      result, calls :- AwaitStatus(RtcGet(false), calls, TReadRtc(data, setting));
      if !Readable(data) { return; }
      status := Inactive(data);
      if !data.connection.Saved? || !data.enabled || !Restricted(result.rtc) { return; }
      result, calls := AwaitStatus(IncognitoRtc, calls, TReadIncognitoRtc(data, setting));
      if !IncognitoRtcRestricted(result) { result := Done; return; }
      var expected := BuildProxyConfig(Config(data.connection.value, ExclusionList(data.exclusions)));
      result, calls := AwaitStatus(IncognitoProxy, calls, TReadIncognitoProxy(data, setting));
      var incognito := IncognitoProxyState(result, expected);
      result := Done;
      if !incognito.controllable || !Effective(setting, expected) || !incognito.effective { return; }
      if data.proxyError.Some? {
        status := status.(canRetryIp := !data.proxyError.value.possibleDirect);
      } else {
        status := status.(active := true);
      }
    }

    /** The clearing task right after its status() has resolved. */
    ghost function AfterStatus(handler: nat, l: Sample, previous: ErrorRecord, tested: Storage, status: Status,
                               now: Epochs): Step
      reads this
    {
      Step(Flags(), if Changed(l, now) || tested.proxyError != Some(previous) || !status.canRetryIp then Stop(false)
                    else Go(Clearing(handler, l, previous, KStore)))
    }

    /** The task a TEST_IP queues to clear the error it has seen, begun in the epochs `now`. */
    method ClearTestedError(ghost handler: nat, sample: Sample, previous: ErrorRecord, now: Epochs)
      returns (result: Reply, calls: seq<Call>)
      requires Begins(Task.ClearTestedError(handler, sample, previous), now)
      ensures if now.configuration != sample.epoch + 1 then result.Rejected? && calls == [] else Ended(calls, result)
    {
      hide Follows, Here;
      NothingAsked();
      calls := [];
      if now.configuration != sample.epoch + 1 { return Rejected, calls; }
      var l := sample.(epoch := now.configuration);
      result, calls :- AwaitReply(StorageGet, calls);
      var data := result.data;
      var latest;
      result, latest, calls :- ReadStatus(handler, l, previous, data, calls);
      if Changed(l, epochs(|calls| - 1)) || data.proxyError != Some(previous) || !latest.canRetryIp {
        return Rejected, calls;
      }
      result, calls :- AwaitReply(StorageSet(Forgive), calls);
      if Changed(l, epochs(|calls| - 1)) { return Rejected, calls; }
      result, calls :- AwaitReply(Report, calls);
    }
  }
}
