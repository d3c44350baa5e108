/** The proxy's own addresses: a set learned by concurrent lookups of its host name. */
module SelfAddresses {
  import opened Wrappers
  import opened PublicIp

  /** --self-host: not given, an IP literal, or a name to resolve. */
  datatype SelfHost = NoHost | Literal(address: Address) | Name

  datatype Setup = Setup(host: SelfHost, extra: seq<Address>)

  function Unmapped(addresses: seq<Address>): (r: set<Address>)
    ensures forall a :: a in r <==> exists b :: b in addresses && Unmap(b) == a
  {
    set b | b in addresses :: Unmap(b)
  }

  predicate KnowsPublic(guard: set<Address>) {
    exists a :: a in guard && PublicAddress(a)
  }

  predicate IsSelf(guard: set<Address>, a: Address) {
    Unmap(a) in guard
  }

  const RETRY_SECONDS := 10

  /** Which lookups are made: always while nothing is known, later not before the retry time. */
  predicate ShouldLookup(learned: set<Address>, retryAfter: Option<int>, now: int) {
    learned == {} || retryAfter.None? || retryAfter.value <= now
  }

  function LearnedAfter(learned: set<Address>, result: Option<seq<Address>>): set<Address> {
    if result.Some? then learned + Unmapped(result.value) else learned
  }

  function RetryAfter(learned: set<Address>, retryAfter: Option<int>, result: Option<seq<Address>>, cancelled: bool,
                      now: int): Option<int>
  {
    if result.Some? then None
    else if learned != {} && !cancelled then Some(now + RETRY_SECONDS)
    else retryAfter
  }

  /** After a failed lookup known addresses serve for ten seconds; after a successful one, and while
      nothing is known, each call looks up again. */
  lemma RetriesAfterTenSeconds(learned: set<Address>, retryAfter: Option<int>, result: Option<seq<Address>>, now: int,
                               later: int)
    ensures ShouldLookup(LearnedAfter(learned, result), RetryAfter(learned, retryAfter, result, false, now), later) <==>
      result.Some? || learned == {} || now + 10 <= later
    ensures RetryAfter(learned, retryAfter, None, true, now) == retryAfter
  {
  }

  /** One call of selfAddresses. `since` remembers what was learned before it began. */
  datatype CallAt =
    | Deciding
    | Looking
    | Learning(result: Option<seq<Address>>, cancelled: bool)
    | Copying(lookupFailed: bool)
    | ReadingLocal(known: set<Address>)
    | Guarded(guard: set<Address>, local: seq<Address>)
    | Unavailable

  datatype State = State(learned: set<Address>, retryAfter: Option<int>, calls: map<nat, CallAt>)

  /** The atomic steps: lock regions, returns of blocking calls. */
  datatype Choice =
    | Start(call: nat)
    | Decide(call: nat, now: int)
    | LookupReturns(call: nat, result: Option<seq<Address>>, cancelled: bool)
    | Learn(call: nat, now: int)
    | Copy(call: nat)
    | LocalReturns(call: nat, addresses: Option<seq<Address>>)

  predicate Enabled(s: State, c: Choice) {
    if c.Start? then c.call !in s.calls
    else
      c.call in s.calls &&
      match c
      case Decide(_, _) => s.calls[c.call].Deciding?
      case LookupReturns(_, _, _) => s.calls[c.call].Looking?
      case Learn(_, _) => s.calls[c.call].Learning?
      case Copy(_) => s.calls[c.call].Copying?
      case _ => s.calls[c.call].ReadingLocal?
  }

  function Known(known: set<Address>): CallAt {
    if KnowsPublic(known) then ReadingLocal(known) else Unavailable
  }

  function Begun(setup: Setup): CallAt {
    match setup.host
    case NoHost => ReadingLocal(Unmapped(setup.extra))
    case Literal(address) => Known(Unmapped(setup.extra) + {Unmap(address)})
    case Name => Deciding
  }

  function Copied(setup: Setup, learned: set<Address>, lookupFailed: bool): CallAt {
    if lookupFailed && learned == {} then Unavailable else Known(Unmapped(setup.extra) + learned)
  }

  function Finished(known: set<Address>, local: Option<seq<Address>>): CallAt {
    if local.None? then Unavailable else Guarded(known + Unmapped(local.value), local.value)
  }

  function After(setup: Setup, s: State, c: Choice): State
    requires Enabled(s, c)
  {
    match c
    case Start(call) => s.(calls := s.calls[call := Begun(setup)])
    case Decide(call, now) =>
      s.(calls := s.calls[call := if ShouldLookup(s.learned, s.retryAfter, now) then Looking else Copying(false)])
    case LookupReturns(call, result, cancelled) => s.(calls := s.calls[call := Learning(result, cancelled)])
    case Learn(call, now) =>
      var l := s.calls[call];
      State(LearnedAfter(s.learned, l.result), RetryAfter(s.learned, s.retryAfter, l.result, l.cancelled, now),
            s.calls[call := Copying(l.result.None?)])
    case Copy(call) => s.(calls := s.calls[call := Copied(setup, s.learned, s.calls[call].lookupFailed)])
    case LocalReturns(call, addresses) => s.(calls := s.calls[call := Finished(s.calls[call].known, addresses)])
  }

  predicate Run(setup: Setup, states: seq<State>, choices: seq<Choice>) {
    |states| == |choices| + 1 &&
    forall i :: 0 <= i < |choices| ==>
      Enabled(states[i], choices[i]) && states[i + 1] == After(setup, states[i], choices[i])
  }

  /** The learned set only grows. */
  lemma {:induction false} LearnedGrows(setup: Setup, states: seq<State>, choices: seq<Choice>, i: nat, j: nat)
    requires Run(setup, states, choices) && i <= j <= |choices|
    ensures states[i].learned <= states[j].learned
    decreases j
  {
    if i == j {
    } else {
      LearnedGrows(setup, states, choices, i, j - 1);
    }
  }

  /** What a call of a proxy with this setup must end up with, given what was known before it. */
  predicate Covers(setup: Setup, guard: set<Address>, before: set<Address>) {
    Unmapped(setup.extra) <= guard &&
    (setup.host.Name? ==> before <= guard) &&
    (setup.host.Literal? ==> Unmap(setup.host.address) in guard) &&
    (!setup.host.NoHost? ==> KnowsPublic(guard))
  }

  predicate Progress(setup: Setup, s: State, call: nat, before: set<Address>) {
    call in s.calls && before <= s.learned &&
    match s.calls[call]
    case ReadingLocal(known) => Covers(setup, known, before)
    case Guarded(guard, local) => Covers(setup, guard, before) && Unmapped(local) <= guard
    case Unavailable => true
    case _ => setup.host.Name?
  }

  lemma ProgressStep(setup: Setup, s: State, c: Choice, call: nat, before: set<Address>)
    requires Enabled(s, c) && Progress(setup, s, call, before)
    ensures Progress(setup, After(setup, s, c), call, before)
  {
    hide PublicAddress, Unmap;
  }

  /** Whatever the other calls do, a guard has everything learned before its call began,
      the configured and the local addresses, and a public one if a self host is set. */
  lemma {:induction false} GuardCovers(setup: Setup, states: seq<State>, choices: seq<Choice>, i: nat, j: nat)
    requires Run(setup, states, choices) && i < j <= |choices| && choices[i].Start?
    ensures Progress(setup, states[j], choices[i].call, states[i].learned)
    decreases j
  {
    hide PublicAddress, Unmap;
    if i + 1 == j {
    } else {
      GuardCovers(setup, states, choices, i, j - 1);
      ProgressStep(setup, states[j - 1], choices[j - 1], choices[i].call, states[i].learned);
    }
  }

  /** Membership is the same for an IPv4 address and its mapped form, in the guard and in the question. */
  lemma MappedFormsAgree(addresses: seq<Address>, a: Address)
    ensures IsSelf(Unmapped(addresses), a) <==> exists b :: b in addresses && Unmap(b) == Unmap(a)
    ensures IsSelf(Unmapped(addresses), a) <==> IsSelf(Unmapped(addresses), Unmap(a))
  {
  }

  class ProxyServer {
    const setup: Setup
    var selfResolved: set<Address>
    var selfRetryAfter: Option<int>

    constructor (setup: Setup)
      ensures this.setup == setup && selfResolved == {} && selfRetryAfter.None?
    {
      this.setup, selfResolved, selfRetryAfter := setup, {}, None;
    }

    /** Other goroutines run between two lock regions of this one. */
    method OthersRun()
      modifies this
      ensures old(selfResolved) <= selfResolved
    {
      var learned := *;
      selfResolved := selfResolved + learned;
      selfRetryAfter := *;
    }

    /** The lock region after a lookup. */
    method LearnResult(result: Option<seq<Address>>, cancelled: bool, now: int)
      modifies this
      ensures selfResolved == LearnedAfter(old(selfResolved), result)
      ensures selfRetryAfter == RetryAfter(old(selfResolved), old(selfRetryAfter), result, cancelled, now)
    {
      if result.Some? {
        for i := 0 to |result.value|
          invariant selfResolved == old(selfResolved) + Unmapped(result.value[..i])
        {
          selfResolved := selfResolved + {Unmap(result.value[i])};
          assert result.value[..i + 1] == result.value[..i] + [result.value[i]];
        }
        assert result.value[..|result.value|] == result.value;
        selfRetryAfter := None;
      } else if selfResolved != {} && !cancelled {
        selfRetryAfter := Some(now + RETRY_SECONDS);
      }
    }

    method HasPublic(known: set<Address>) returns (r: bool)
      ensures r == KnowsPublic(known)
    {
      var left := known;
      while left != {}
        invariant left <= known && forall a :: a in known - left ==> !PublicAddress(a)
        decreases left
      {
        var address :| address in left;
        if PublicAddress(address) { return true; }
        left := left - {address};
      }
      return false;
    }

    /** selfAddresses; the parameters are what the resolver and the interfaces answer. */
    method SelfAddresses(result: Option<seq<Address>>, cancelled: bool, now: int, local: Option<seq<Address>>)
      returns (guard: Option<set<Address>>)
      modifies this
      ensures old(selfResolved) <= selfResolved
      ensures guard.Some? ==> local.Some? && Covers(setup, guard.value, old(selfResolved)) &&
                              Unmapped(local.value) <= guard.value
      ensures guard.Some? && setup.host.Name? && result.Some? ==>
        ((old(selfResolved) == {} || old(selfRetryAfter).None? || old(selfRetryAfter).value <= now) ==>
           Unmapped(result.value) <= guard.value)
      ensures setup.host.Name? && local.Some? && old(selfResolved) != {} ==>
        (KnowsPublic(Unmapped(setup.extra) + old(selfResolved)) ==> guard.Some?)
      ensures setup.host.NoHost? ==> (guard.Some? <==> local.Some?)
      ensures setup.host.Literal? ==>
        (guard.Some? <==> local.Some? && KnowsPublic(Unmapped(setup.extra) + {Unmap(setup.host.address)}))
    {
      hide PublicAddress, Unmap;
      var known := Unmapped(setup.extra);
      match setup.host {
        case NoHost =>
        case Literal(address) => known := known + {Unmap(address)};
        case Name =>
          var shouldLookup := ShouldLookup(selfResolved, selfRetryAfter, now);
          OthersRun();
          var lookupFailed := false;
          if shouldLookup {
            lookupFailed := result.None?;
            LearnResult(result, cancelled, now);
            OthersRun();
          }
          known := known + selfResolved;
          if lookupFailed && selfResolved == {} { return None; }
      }
      if !setup.host.NoHost? {
        var knownPublic := HasPublic(known);
        if !knownPublic { return None; }
      }
      if local.None? { return None; }
      return Some(known + Unmapped(local.value));
    }
  }
}
