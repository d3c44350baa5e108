/** Commands that nobody interferes with: whatever handlers and events do meanwhile, a task
    whose calls succeed under standing surroundings comes to its closed form. */
module Undisturbed {
  import opened Wrappers
  import opened Browser
  import opened Tasks
  import opened Worker
  import opened Coupling
  import opened Effects
  import ConnectionKey
  import Messages
  import Routing

  /** What each message of the popup comes to. */
  lemma MessageEnds(p: Profile, f: Flags, m: Messages.Message, now: Epochs)
    ensures var b := Start(Messages.TaskOf(m), f, now);
      var end := Finish(p, b.flags, b.pc, now);
      match m
      case ImportKey(key) =>
        (match ConnectionKey.ParseConnectionKey(key)
         case Ok(c) => end == Final(Imported(p, c), f, true)
         case Err => end == Final(p, f, false))
      case Connect => end == Connected(p, f)
      case Disconnect => end == Final(Disconnected(p), Flags(false, false), true)
      case Forget => end == Final(Forgotten(p), Flags(false, false), true)
      case SaveExclusions(text) =>
        (match Routing.Normalized(text)
         case Ok(xs) => end == Excluded(p, f, xs)
         case Err => end == Final(p, f, false))
  {
    TaskEnds(p, f, Messages.TaskOf(m), now);
    hide Finish, Connected, Excluded, ConnectionKey.ParseConnectionKey, Routing.Normalized;
  }

  /** What a waiting frame will come to. */
  ghost function Forecast(p: Profile, flags: Flags, f: Frame, now: Epochs): Final {
    match f.reply
    case None => Finish(p, flags, f.pc, now)
    case Some(reply) => GoOn(p, Resume(f.pc, flags, reply, now), now)
  }

  lemma NowUnused(pc: Pc, f: Flags, r: Reply, a: Epochs, b: Epochs)
    requires !pc.Clearing?
    ensures Resume(pc, f, r, a) == Resume(pc, f, r, b)
    ensures var n := Resume(pc, f, r, a).next; n.Go? ==> !n.pc.Clearing?
  {
    hide IncognitoProxyState, IncognitoRtcRestricted, RtcRestricted, ProxyEffective, MayControl;
  }

  lemma AnswersAlike(pc: Pc, p: Profile, o: Outcome)
    requires o.applied && o.resolved
    ensures Answer(CallOf(pc), p, o) == Answer(CallOf(pc), p, SUCCEEDED)
    ensures Performed(CallOf(pc), p, o) == Performed(CallOf(pc), p, SUCCEEDED)
  {
  }

  /** The task's own steps, its calls successful, and those of listeners and handlers. */
  predicate Calm(c: Choice) {
    (c.PerformTask? && c.o.applied && c.o.resolved) || c.ResumeTask? || Bystander(c)
  }

  /** The running task ends with this step, by returning or by throwing. */
  predicate Ends(s: State, c: Choice) {
    c.ResumeTask? && s.current.Some? && s.current.value.reply.Some? &&
    Resume(s.current.value.pc, s.vars.flags, s.current.value.reply.value, s.vars.epochs).next.Stop?
  }

  predicate Returns(s: State, c: Choice) {
    Ends(s, c) &&
    Resume(s.current.value.pc, s.vars.flags, s.current.value.reply.value, s.vars.epochs).next.returned
  }

  /** Only the clearing of a tested error looks at the epochs. */
  predicate EpochsFit(f: Frame, epochs: Epochs, now: Epochs) {
    f.pc.Clearing? ==> epochs == now
  }

  lemma PerformAsForeseen(s: State, o: Outcome, now: Epochs)
    requires Enabled(s, PerformTask(o)) && o.applied && o.resolved
    ensures var t := After(s, PerformTask(o));
      t.current.Some? && t.current.value.pc == s.current.value.pc && t.vars == s.vars &&
      Forecast(t.profile, t.vars.flags, t.current.value, now) ==
      Forecast(s.profile, s.vars.flags, s.current.value, now)
  {
    hide Finish, GoOn, Resume, Answer, Performed, CallOf;
    AnswersAlike(s.current.value.pc, s.profile, o);
    Once(s.profile, s.vars.flags, s.current.value.pc, now);
  }

  lemma ResumeAsForeseen(s: State, now: Epochs)
    requires Enabled(s, ResumeTask) && EpochsFit(s.current.value, s.vars.epochs, now)
    ensures var t, foreseen := After(s, ResumeTask), Forecast(s.profile, s.vars.flags, s.current.value, now);
      if t.current.Some? then
        Forecast(t.profile, t.vars.flags, t.current.value, now) == foreseen &&
        (t.current.value.pc.Clearing? ==> s.current.value.pc.Clearing?) && t.vars.epochs == s.vars.epochs
      else
        Ends(s, ResumeTask) && foreseen == Final(t.profile, t.vars.flags, Returns(s, ResumeTask))
  {
    hide Finish, Resume, Settled;
    var f := s.current.value;
    if !f.pc.Clearing? { NowUnused(f.pc, s.vars.flags, f.reply.value, s.vars.epochs, now); }
  }

  lemma BystandersKeepFlags(s: State, c: Choice)
    requires Enabled(s, c) && Bystander(c)
    ensures After(s, c).vars.flags == s.vars.flags
  {
    hide Answer, HandlerCall, HandlerMove;
  }

  lemma BeginAsForeseen(s: State)
    requires Enabled(s, Begin)
    ensures var t, now := After(s, Begin), s.vars.epochs.(configuration := s.vars.epochs.configuration + 1);
      t.vars.epochs == now && t.current.Some? && t.profile == s.profile &&
      (t.current.value.pc.Clearing? ==> s.queue[0].ClearTestedError?) &&
      Forecast(t.profile, t.vars.flags, t.current.value, now) == Effected(s.profile, s.vars.flags, s.queue[0], now)
  {
    var now := s.vars.epochs.(configuration := s.vars.epochs.configuration + 1);
    TaskEnds(s.profile, s.vars.flags, s.queue[0], now);
    hide Finish, Effected, GoOn;
  }

  /** One task from its beginning at step b until state j: nobody else acts on the profile and
      its calls succeed. A clearing task moreover sees no event. */
  ghost predicate TaskRun(states: seq<State>, choices: seq<Choice>, b: nat, j: nat) {
    Run(states, choices) && b < j <= |choices| && states[b].boot.None? && choices[b].Begin? && states[b].queue != [] &&
    (forall k :: b < k < j ==> states[k].current.Some? && Calm(choices[k])) &&
    (states[b].queue[0].ClearTestedError? ==>
       forall k :: b < k <= j ==> states[k].vars.epochs == states[b + 1].vars.epochs)
  }

  /** What the task begun at step b comes to. */
  ghost function Expected(states: seq<State>, b: nat): Final
    requires b < |states| && states[b].queue != []
  {
    var s := states[b];
    Effected(s.profile, s.vars.flags, s.queue[0], s.vars.epochs.(configuration := s.vars.epochs.configuration + 1))
  }

  ghost predicate OnTrack(states: seq<State>, b: nat, s: State)
    requires b + 1 < |states| && states[b].queue != []
  {
    s.current.Some? &&
    Forecast(s.profile, s.vars.flags, s.current.value, states[b + 1].vars.epochs) == Expected(states, b) &&
    (s.current.value.pc.Clearing? ==> states[b].queue[0].ClearTestedError?)
  }

  lemma BeginKeepsBoot(s: State)
    requires Enabled(s, Begin)
    ensures After(s, Begin).boot == s.boot
  {
    hide Start;
  }

  lemma TrackStep(states: seq<State>, choices: seq<Choice>, b: nat, j: nat)
    requires TaskRun(states, choices, b, j) && b + 1 < j && OnTrack(states, b, states[j - 1])
    requires states[j - 1].boot.None?
    ensures OnTrack(states, b, states[j]) ||
            (states[j].current.None? && Ends(states[j - 1], choices[j - 1]) &&
             Expected(states, b) ==
               Final(states[j].profile, states[j].vars.flags, Returns(states[j - 1], choices[j - 1])))
    ensures states[j].boot.None?
  {
    var s, c, now := states[j - 1], choices[j - 1], states[b + 1].vars.epochs;
    if Bystander(c) {
      BystandersKeepTasks(s, c);
      BystandersKeepFlags(s, c);
      hide After, Enabled, Forecast, Effected;
    } else if c.ResumeTask? {
      ResumeAsForeseen(s, now);
      hide Resume, Forecast, Effected;
    } else {
      PerformAsForeseen(s, c.o, now);
      hide Forecast, Effected;
    }
  }

  lemma {:induction false} StaysOnTrack(states: seq<State>, choices: seq<Choice>, b: nat, j: nat)
    requires TaskRun(states, choices, b, j)
    ensures OnTrack(states, b, states[j]) ||
            (states[j].current.None? && b + 1 < j && Ends(states[j - 1], choices[j - 1]) &&
             Expected(states, b) ==
               Final(states[j].profile, states[j].vars.flags, Returns(states[j - 1], choices[j - 1])))
    ensures states[j].boot.None?
    decreases j
  {
    hide After, Enabled, Forecast, Ends, Effected;
    if j == b + 1 {
      BeginAsForeseen(states[b]);
      BeginKeepsBoot(states[b]);
    } else {
      assert TaskRun(states, choices, b, j - 1);
      StaysOnTrack(states, choices, b, j - 1);
      TrackStep(states, choices, b, j);
    }
  }

  /** Every task comes to its closed form: this profile, these flags, and whether it returns. */
  lemma TaskComesTo(states: seq<State>, choices: seq<Choice>, b: nat, j: nat)
    requires TaskRun(states, choices, b, j) && states[j].current.None?
    ensures b + 1 < j && Ends(states[j - 1], choices[j - 1])
    ensures Expected(states, b) ==
      Final(states[j].profile, states[j].vars.flags, Returns(states[j - 1], choices[j - 1]))
  {
    hide After, Enabled, Forecast, Ends, Effected;
    StaysOnTrack(states, choices, b, j);
  }

  /** CONNECT returns exactly when it could route everything; otherwise no PAC of the extension
      is left, and it is disabled unless it was refused before it stored anything. */
  lemma ConnectReturnsExactly(states: seq<State>, choices: seq<Choice>, b: nat, j: nat)
    requires TaskRun(states, choices, b, j) && states[j].current.None? && states[b].queue[0].Connect?
    ensures Returns(states[j - 1], choices[j - 1]) <==> MayRoute(states[b].profile)
    ensures MayRoute(states[b].profile) ==>
      states[j].profile == Routed(states[b].profile).(
        storage := states[b].profile.storage.(enabled := true, proxyError := None)) &&
      Routes(states[j].profile)
    ensures !MayRoute(states[b].profile) && Usable(states[b].profile.storage) ==>
      states[j].profile.ownPac.None? &&
      (states[j].profile.storage == states[b].profile.storage || !states[j].profile.storage.enabled)
  {
    hide After, Enabled, Returns, Ends;
    TaskComesTo(states, choices, b, j);
  }

  /** SAVE_EXCLUSIONS that returns has stored the new list and, on an enabled connection, routes
      by it; one that throws has kept the old list. */
  lemma SaveStoresOrKeeps(states: seq<State>, choices: seq<Choice>, b: nat, j: nat)
    requires TaskRun(states, choices, b, j) && states[j].current.None? && states[b].queue[0].SaveExclusions?
    ensures var d, e, text := states[b].profile.storage, states[j].profile.storage, states[b].queue[0].text;
      if Returns(states[j - 1], choices[j - 1]) then
        text.Some? && e == d.(exclusions := Saved(text.value)) && (d.enabled ==> Routes(states[j].profile))
      else
        e == d.(exclusions := e.exclusions) && ExclusionList(e.exclusions) == ExclusionList(d.exclusions) &&
        (states[j].profile.ownPac.Some? && states[b].profile.ownPac != states[j].profile.ownPac ==>
           Usable(e) && states[j].profile.ownPac == Some(StoredPac(e)))
  {
    hide After, Enabled, Returns, Ends;
    TaskComesTo(states, choices, b, j);
  }

  // Boot.

  predicate CalmBoot(c: Choice) {
    (c.PerformBoot? && c.o.applied && c.o.resolved) || c.ResumeBoot? || Bystander(c)
  }

  lemma BootAsForeseen(s: State, c: Choice, now: Epochs)
    requires Enabled(s, c) && s.boot.Some? && BootPc(s.boot.value.pc) && CalmBoot(c)
    ensures var t, foreseen := After(s, c), Forecast(s.profile, s.vars.flags, s.boot.value, now);
      if t.boot.Some? then
        BootPc(t.boot.value.pc) && Forecast(t.profile, t.vars.flags, t.boot.value, now) == foreseen
      else foreseen.profile == t.profile && foreseen.flags == t.vars.flags
  {
    hide Finish, Resume, Answer, Performed, CallOf, HandlerMove, HandlerCall;
    var f := s.boot.value;
    if Bystander(c) {
      BystandersKeepTasks(s, c);
      BystandersKeepFlags(s, c);
    } else if c.ResumeBoot? {
      NowUnused(f.pc, s.vars.flags, f.reply.value, s.vars.epochs, now);
      ResumeKind(f.pc, s.vars.flags, f.reply.value, s.vars.epochs);
    } else {
      AnswersAlike(f.pc, s.profile, c.o);
      Once(s.profile, s.vars.flags, f.pc, now);
    }
  }

  ghost predicate BootRun(states: seq<State>, choices: seq<Choice>, j: nat) {
    Run(states, choices) && j <= |choices| && states[0] == Started(states[0].profile) &&
    forall k :: 0 <= k < j ==> states[k].boot.Some? && CalmBoot(choices[k])
  }

  const FIRST := Epochs(0, 0, 0)

  lemma {:induction false} BootOnTrack(states: seq<State>, choices: seq<Choice>, j: nat)
    requires BootRun(states, choices, j)
    ensures var foreseen := Reconciled(states[0].profile, Flags(false, false));
      if states[j].boot.Some? then
        BootPc(states[j].boot.value.pc) &&
        Forecast(states[j].profile, states[j].vars.flags, states[j].boot.value, FIRST) == foreseen
      else states[j].profile == foreseen.profile && states[j].vars.flags == foreseen.flags
  {
    hide After, Enabled, Forecast, Reconciled;
    if j == 0 {
      BootStartsOnTrack(states[0].profile);
    } else {
      BootOnTrack(states, choices, j - 1);
      BootAsForeseen(states[j - 1], choices[j - 1], FIRST);
    }
  }

  lemma BootStartsOnTrack(p: Profile)
    ensures var s := Started(p);
      Forecast(p, s.vars.flags, s.boot.value, FIRST) == Reconciled(p, Flags(false, false))
  {
    ReconcileEnds(p, Flags(false, false), AtBoot, FIRST);
    hide Finish, Reconciled;
  }

  /** Boot over a stored configuration that is on routes everything by it if it can, and else
      leaves no PAC; over anything else it leaves neither preference and nothing enabled. */
  lemma BootRoutes(states: seq<State>, choices: seq<Choice>, j: nat)
    requires BootRun(states, choices, j) && states[j].boot.None?
    ensures var p, q := states[0].profile, states[j].profile;
      q == Reconciled(p, Flags(false, false)).profile &&
      if !Active(p.storage) then q == Bare(p).(storage := p.storage.(enabled := false))
      else if MayRoute(p) then q == Routed(p)
      else q.ownPac.None? && q.storage == p.storage
  {
    hide After, Enabled;
    BootOnTrack(states, choices, j);
  }
}
