/** Every task and every handler is a straight line: whatever the replies, each stretch of
    code leads to a program point of lower rank. */
module Ranks {
  import opened Wrappers
  import opened Browser
  import opened Tasks
  import opened Worker

  function Bit(b: bool): nat {
    if b then 1 else 0
  }

  predicate Reaction(t: Task) {
    t.ProxyChanged? || t.RtcChanged?
  }

  function ReconcileRank(r: ReconcileAt): nat {
    match r
    case AccessLevel => 24
    case ReadStorage => 23
    case StoreDisabled => 5
    case DropPac => 4
    case DropRtc => 3
    case Badge => 1
  }

  function ApplyRank(a: ApplyAt): nat {
    match a
    case ReadRtc => 20
    case DropUnrestrictedPac(_) => 19
    case SetRtc => 18
    case RereadRtc => 17
    case ReadIncognitoRtc => 16
    case ReadProxy => 15
    case ReadIncognitoProxy(_) => 14
    case SetPac => 13
    case RereadProxy => 12
    case LastRtc => 11
    case LastIncognitoRtc => 10
    case LastIncognitoProxy => 9
    case DropFailedPac => 6
    case AppliedBadge => 1
  }

  function ChangeRank(p: ProxyChangeAt): nat {
    match p
    case PReadStorage => 9
    case PReadIncognito(_) => 8
    case PReadProxy(_, _) => 7
    case PDropPac(_, _) => 6
    case PReadRtc => 5
    case PReadIncognitoRtc => 4
    case PBadge => 1
  }

  function ConnectRank(c: ConnectAt): nat {
    match c
    case CReadProxy => 18
    case CReadIncognitoProxy => 17
    case CReadRtc => 16
    case CDropUnrestrictedPac => 15
    case CStoreEnabled => 14
    case CSetRtc => 13
    case CRereadRtc => 12
    case CReadIncognitoRtc => 11
    case CSetPac => 10
    case CRereadProxy => 9
    case CRereadIncognitoProxy => 8
    case CLastRtc => 7
    case CLastIncognitoRtc => 6
    case CStoreDisabled => 5
    case CDropPac => 4
    case CDropRtc => 3
    case CReport | CReportFailure => 2
    case CRefuse => 1
  }

  function DisconnectRank(d: DisconnectAt): nat {
    match d
    case DStore => 6
    case DDropPac => 5
    case DDropRtc => 4
    case DReport => 3
    case DRemove => 2
    case DLastReport => 1
  }

  function ImportRank(i: ImportAt): nat {
    match i
    case IStoreDisabled => 5
    case IDropPac => 4
    case IDropRtc => 3
    case IStore => 2
    case IReport => 1
  }

  function SaveRank(s: SaveAt): nat {
    match s
    case SReadProxy => 21
    case SReadRtc => 20
    case SReadIncognitoRtc => 19
    case SReadIncognitoProxy => 18
    case SStore => 17
    case SSetPac => 16
    case SRereadProxy => 15
    case SRereadIncognitoProxy => 14
    case SLastRtc => 13
    case SLastIncognitoRtc => 12
    case SStoreOld => 11
    case SOldRtc => 10
    case SOldIncognitoRtc => 9
    case SOldIncognitoProxy => 8
    case SSetOldPac => 7
    case SOldRereadProxy => 6
    case SOldRereadIncognitoProxy => 5
    case SOldLastRtc => 4
    case SOldLastIncognitoRtc => 3
    case SDropPac => 2
    case SReport | SReportRestored | SReportFailure(_) | SRefuse => 1
  }

  function StatusRank(at: StatusAt): nat {
    match at
    case TReadStorage => 5
    case TReadProxy(_) => 4
    case TReadRtc(_, _) => 3
    case TReadIncognitoRtc(_, _) => 2
    case TReadIncognitoProxy(_, _) => 1
  }

  function ClearRank(k: ClearAt): nat {
    match k
    case KReadStorage => 8
    case KStatus(_, at) => 2 + StatusRank(at)
    case KStore => 2
    case KBadge => 1
  }

  /** A restoring proxy reaction goes through a reconciliation before its last badge. */
  function Rank(pc: Pc): nat {
    match pc
    case Reconcile(_, r) => 3 + ReconcileRank(r)
    case Apply(_, _, a) => 3 + ApplyRank(a)
    case BootDropPac => 3
    case BootBadge => 2
    case ConnectRead => 19
    case Connecting(_, c) => ConnectRank(c)
    case Disconnecting(_, d) => DisconnectRank(d)
    case Importing(_, i) => ImportRank(i)
    case SaveRead(_) => 22
    case SaveOff(_, stored) => if stored then 1 else 2
    case Saving(_, _, _, s) => SaveRank(s)
    case RecordRead(_, _) => 3
    case RecordStore(_, _) => 2
    case RecordBadge => 1
    case ProxyChange(p) => if p.PBadge? then 1 else 30 + ChangeRank(p)
    case Clearing(_, _, _, k) => ClearRank(k)
    case Settle => 1
  }

  predicate Falls(pc: Pc, n: Next) {
    n.Go? ==> Rank(n.pc) < Rank(pc)
  }

  lemma RankBounds(pc: Pc)
    ensures 1 <= Rank(pc) < 40
  {
  }

  lemma ApplyFalls(caller: Caller, cfg: Config, at: ApplyAt, f: Flags, r: Reply)
    ensures Falls(Apply(caller, cfg, at), ResumeApply(caller, cfg, at, f, r).next)
  {
  }

  lemma ConnectFalls(cfg: Config, at: ConnectAt, f: Flags, r: Reply)
    ensures Falls(Connecting(cfg, at), ResumeConnect(cfg, at, f, r).next)
  {
  }

  lemma SavingRank(c: Connection, before: Stored<seq<string>>, next: seq<string>, at: SaveAt)
    ensures Rank(Saving(c, before, next, at)) == SaveRank(at)
  {
  }

  lemma SaveFalls(c: Connection, before: Stored<seq<string>>, next: seq<string>, at: SaveAt, f: Flags, r: Reply)
    ensures Falls(Saving(c, before, next, at), ResumeSave(c, before, next, at, f, r).next)
  {
    hide BuildProxyConfig, IncognitoProxyState, ProxyEffective, RtcRestricted, IncognitoRtcRestricted, MayControl;
    hide Restricted, ExclusionList, Rank;
    var n := ResumeSave(c, before, next, at, f, r).next;
    assert n.Go? ==> n.pc.Saving? && SaveRank(n.pc.s) < SaveRank(at);
    SavingRank(c, before, next, at);
    if n.Go? { SavingRank(c, before, next, n.pc.s); }
  }

  lemma StatusFalls(at: StatusAt, r: Reply)
    ensures StatusNext(at, r).More? ==> StatusRank(StatusNext(at, r).at) < StatusRank(at)
  {
  }

  lemma ChangeFalls(at: ProxyChangeAt, f: Flags, r: Reply)
    ensures Falls(ProxyChange(at), ResumeProxyChange(at, f, r).next)
  {
  }

  lemma ClearFalls(handler: nat, sample: Sample, previous: ErrorRecord, at: ClearAt, f: Flags, r: Reply, now: Epochs)
    ensures Falls(Clearing(handler, sample, previous, at), ResumeClear(handler, sample, previous, at, f, r, now).next)
  {
    hide StatusNext;
    if at.KStatus? { StatusFalls(at.at, r); }
  }

  /** No task ever comes back to a program point. */
  lemma RankFalls(pc: Pc, f: Flags, r: Reply, now: Epochs)
    ensures Falls(pc, Resume(pc, f, r, now).next)
  {
    hide ResumeApply, ResumeConnect, ResumeSave, ResumeProxyChange, ResumeClear;
    match pc
    case Apply(caller, cfg, at) => ApplyFalls(caller, cfg, at, f, r);
    case Connecting(cfg, at) => ConnectFalls(cfg, at, f, r);
    case Saving(c, before, next, at) => SaveFalls(c, before, next, at, f, r);
    case ProxyChange(at) => ChangeFalls(at, f, r);
    case Clearing(handler, sample, previous, at) => ClearFalls(handler, sample, previous, at, f, r, now);
    case _ =>
  }

  /** The steps a waiting task still takes at most: a reply and a stretch at each point. */
  function FrameWork(f: Frame): nat {
    2 * Rank(f.pc) + Bit(f.reply.None?)
  }

  const TASK_WORK: nat := 100
  const HANDLER_WORK: nat := 300

  function HandlerRank(at: HandlerAt): nat {
    match at
    case AuthReadStorage(_) => 3
    case AuthReadTab(_, _) => 2
    case AuthSnapshots(_, _, _) => 1
    case TestFirst(_, status) => 7 + StatusRank(status)
    case TestFetch(_, _) => 7
    case TestSecond(_, _, status) => 1 + StatusRank(status)
    case _ => 0
  }

  /** The work a handler may still do or cause: its last stretch may queue one task. */
  function HandlerWork(it: Handler): nat {
    HANDLER_WORK * HandlerRank(it.at) + Bit(it.at.TestCleared?) +
    Bit(HandlerCall(it.at, false).Some? && it.first.None?) + Bit(HandlerCall(it.at, true).Some? && it.second.None?)
  }

  lemma HandlerFalls(v: Vars, it: Handler)
    requires Resumable(it)
    ensures if it.at.TestCleared? then HandlerWork(Waiting(HandlerMove(v, it))) == 0
            else HandlerWork(Waiting(HandlerMove(v, it))) + TASK_WORK < HandlerWork(it)
  {
    hide StatusNext, TestChanged, MayTest, IpServiceExcluded, AuthGuard;
    match it.at
    case TestFirst(_, status) => StatusFalls(status, it.first.value);
    case TestSecond(_, _, status) => StatusFalls(status, it.first.value);
    case _ =>
  }

  ghost function HandlersWork(handlers: map<nat, Handler>): nat {
    if handlers == map[] then 0
    else
      var h :| h in handlers;
      HandlerWork(handlers[h]) + HandlersWork(handlers - {h})
  }

  lemma {:induction false} OneHandlersWork(handlers: map<nat, Handler>, h: nat)
    requires h in handlers
    ensures HandlersWork(handlers) == HandlerWork(handlers[h]) + HandlersWork(handlers - {h})
    decreases |handlers|
  {
    hide HandlerWork;
    var g :| g in handlers && HandlersWork(handlers) == HandlerWork(handlers[g]) + HandlersWork(handlers - {g});
    if g == h {
    } else {
      OneHandlersWork(handlers - {g}, h);
      OneHandlersWork(handlers - {h}, g);
      assert handlers - {g} - {h} == handlers - {h} - {g};
    }
  }

  /** Only the handler that moves changes the sum. */
  lemma MovedWork(handlers: map<nat, Handler>, h: nat, it: Handler)
    requires h in handlers
    ensures HandlersWork(handlers[h := it]) + HandlerWork(handlers[h]) == HandlersWork(handlers) + HandlerWork(it)
  {
    hide HandlerWork;
    OneHandlersWork(handlers, h);
    OneHandlersWork(handlers[h := it], h);
    assert handlers[h := it] - {h} == handlers - {h};
  }

  lemma PutWork(handlers: map<nat, Handler>, h: nat, at: HandlerAt)
    ensures HandlersWork(Put(handlers, h, at)) <= HandlersWork(handlers) + HandlerWork(Waiting(at))
  {
    hide HandlerWork, HandlersWork;
    if h in handlers { MovedWork(handlers, h, Waiting(at)); }
  }

  /** Queued tasks, reactions aside. */
  function QueueWork(q: seq<Task>): nat {
    if q == [] then 0 else (if Reaction(q[0]) then 0 else TASK_WORK) + QueueWork(q[1..])
  }

  lemma {:induction false} QueueWorkAppend(q: seq<Task>, t: Task)
    ensures QueueWork(q + [t]) == QueueWork(q) + if Reaction(t) then 0 else TASK_WORK
  {
    if q == [] {
      assert q + [t] == [t];
    } else {
      assert (q + [t])[1..] == q[1..] + [t];
      QueueWorkAppend(q[1..], t);
    }
  }
}
