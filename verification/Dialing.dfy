/** From an authenticated request to the addresses the proxy dials. */
module Dialing {
  import opened Wrappers
  import opened PublicIp
  import opened SelfAddresses
  import opened Targets
  import opened ProxyAuth
  import Base64

  /** An address literal with the port text of the request. */
  datatype DialTarget = DialTarget(address: Address, port: string)

  datatype DestinationError = Malformed(error: SplitError) | Forbidden | GuardUnavailable | LookupFailed

  datatype Destinations = Resolved(targets: seq<DialTarget>) | Denied(error: DestinationError)

  /** --self-host as selfAddresses reads it. */
  function HostOf(selfHost: string, parse: string -> Option<Address>): SelfHost {
    if selfHost == "" then NoHost
    else if parse(selfHost).Some? then Literal(parse(selfHost).value)
    else Name
  }

  /** The proxy's own name, up to case and one final dot. */
  predicate NamesSelf(fold: Folding, host: string, selfHost: string) {
    selfHost != "" && EqualFold(fold, TrimSuffix(host, "."), TrimSuffix(selfHost, "."))
  }

  /** Neither a final dot nor, as far as the folding goes, case hides the proxy's own name. */
  lemma NamesSelfExactly(fold: Folding, host: string, name: string)
    requires host != "" && name != "" && host[|host| - 1] != '.' && name[|name| - 1] != '.'
    ensures NamesSelf(fold, host, name) <==> EqualFold(fold, host, name)
    ensures NamesSelf(fold, host + ".", name) <==> EqualFold(fold, host, name)
    ensures NamesSelf(fold, host, name + ".") <==> EqualFold(fold, host, name)
    ensures NamesSelf(fold, host + ".", name + ".") <==> EqualFold(fold, host, name)
    ensures !NamesSelf(fold, host, "")
  {
    TrimsSuffix(host, ".");
    TrimsSuffix(name, ".");
    KeepsSuffix(host, ".");
    KeepsSuffix(name, ".");
    hide TrimSuffix, EqualFold;
  }

  predicate Allowed(guard: set<Address>, a: Address) {
    PublicAddress(a) && !IsSelf(guard, a)
  }

  /** The allowed addresses of an answer, unmapped, in its order. */
  function Selected(addresses: seq<Address>, guard: set<Address>, port: string): seq<DialTarget> {
    if addresses == [] then []
    else
      var rest := Selected(addresses[..|addresses| - 1], guard, port);
      var last := addresses[|addresses| - 1];
      if Allowed(guard, last) then rest + [DialTarget(Unmap(last), port)] else rest
  }

  /** What a request to this authority may dial under a guard; `lookup` answers for its host. */
  function DestinationsOf(fold: Folding, split: Split, selfHost: string, guard: Option<set<Address>>,
                          parse: string -> Option<Address>, lookup: Option<seq<Address>>): Destinations
  {
    if split.Failed? then Denied(Malformed(split.error))
    else if NamesSelf(fold, split.host, selfHost) then Denied(Forbidden)
    else if guard.None? then Denied(GuardUnavailable)
    else
      match parse(split.host)
      case Some(literal) =>
        if Allowed(guard.value, literal) then Resolved([DialTarget(Unmap(literal), split.port)]) else Denied(Forbidden)
      case None =>
        if lookup.None? then Denied(LookupFailed)
        else
          var targets := Selected(lookup.value, guard.value, split.port);
          if targets == [] then Denied(Forbidden) else Resolved(targets)
  }

  predicate Safe(guard: set<Address>, t: DialTarget) {
    PublicAddress(t.address) && Unmap(t.address) == t.address && t.address !in guard && AllowedPort(t.port)
  }

  lemma UnmapTwice(a: Address)
    ensures Unmap(Unmap(a)) == Unmap(a) && PublicAddress(Unmap(a)) == PublicAddress(a)
  {
  }

  lemma AllowedIsSafe(guard: set<Address>, a: Address, port: string)
    requires Allowed(guard, a) && AllowedPort(port)
    ensures Safe(guard, DialTarget(Unmap(a), port))
  {
    UnmapTwice(a);
    hide PublicAddress, Unmap, AllowedPort;
  }

  lemma {:induction false} SelectedAreSafe(addresses: seq<Address>, guard: set<Address>, port: string)
    requires AllowedPort(port)
    ensures forall t :: t in Selected(addresses, guard, port) ==> Safe(guard, t)
    ensures forall a :: a in addresses && Allowed(guard, a) ==>
      DialTarget(Unmap(a), port) in Selected(addresses, guard, port)
  {
    hide Allowed, Safe, Unmap, AllowedPort;
    if addresses == [] {
    } else {
      var before, last := addresses[..|addresses| - 1], addresses[|addresses| - 1];
      SelectedAreSafe(before, guard, port);
      if Allowed(guard, last) { AllowedIsSafe(guard, last, port); }
      assert addresses == before + [last];
    }
  }

  /** The targets are in the order of the answer. */
  lemma {:induction false} SelectedInOrder(a: seq<Address>, b: seq<Address>, guard: set<Address>, port: string)
    ensures Selected(a + b, guard, port) == Selected(a, guard, port) + Selected(b, guard, port)
  {
    hide Allowed, Unmap;
    if b == [] {
      assert a + b == a;
    } else {
      assert (a + b)[..|a + b| - 1] == a + b[..|b| - 1];
      SelectedInOrder(a, b[..|b| - 1], guard, port);
    }
  }

  /** The addresses a host stands for: itself if it is a literal, else what was resolved. */
  function Candidates(literal: Option<Address>, lookup: Option<seq<Address>>): seq<Address> {
    if literal.Some? then [literal.value] else if lookup.Some? then lookup.value else []
  }

  ghost predicate From(t: DialTarget, addresses: seq<Address>, guard: set<Address>, port: string) {
    exists a :: a in addresses && Allowed(guard, a) && t == DialTarget(Unmap(a), port)
  }

  lemma {:induction false} SelectedExactly(addresses: seq<Address>, guard: set<Address>, port: string, t: DialTarget)
    ensures t in Selected(addresses, guard, port) <==> From(t, addresses, guard, port)
  {
    hide Allowed, Unmap;
    if addresses == [] {
    } else {
      var before, last := addresses[..|addresses| - 1], addresses[|addresses| - 1];
      SelectedExactly(before, guard, port, t);
      assert addresses == before + [last];
    }
  }

  /** A request may dial exactly the allowed addresses of its host, and something if there
      is one, the target is well formed, not the proxy itself, and there is a guard. */
  lemma DestinationsExactly(fold: Folding, split: Split, selfHost: string, guard: Option<set<Address>>,
                            parse: string -> Option<Address>, lookup: Option<seq<Address>>, t: DialTarget)
    requires split.Target?
    ensures var d := DestinationsOf(fold, split, selfHost, guard, parse, lookup);
      var addresses := Candidates(parse(split.host), lookup);
      (d.Resolved? && t in d.targets <==>
        !NamesSelf(fold, split.host, selfHost) && guard.Some? && From(t, addresses, guard.value, split.port)) &&
      (d.Resolved? ==> d.targets != [])
  {
    hide Allowed, Unmap, NamesSelf;
    if guard.Some? {
      if lookup.Some? { SelectedExactly(lookup.value, guard.value, split.port, t); }
      if parse(split.host).Some? {
        var literal := parse(split.host).value;
        assert literal in [literal];
        assert From(t, [literal], guard.value, split.port) <==>
          Allowed(guard.value, literal) && t == DialTarget(Unmap(literal), split.port);
      }
    }
  }

  lemma SplitTargetPort(authority: string, defaultPort: string)
    requires SplitTarget(authority, defaultPort).Target?
    ensures AllowedPort(SplitTarget(authority, defaultPort).port)
  {
    hide Atoi, SplitHostPort;
  }

  /** Everything a request may dial is a public address literal outside the guard with an
      allowed port, and something may be dialled only under a guard. */
  lemma DestinationsAreSafe(fold: Folding, authority: string, defaultPort: string, selfHost: string,
                            guard: Option<set<Address>>, parse: string -> Option<Address>, lookup: Option<seq<Address>>)
    requires DestinationsOf(fold, SplitTarget(authority, defaultPort), selfHost, guard, parse, lookup).Resolved?
    ensures guard.Some?
    ensures var d := DestinationsOf(fold, SplitTarget(authority, defaultPort), selfHost, guard, parse, lookup);
      d.targets != [] && forall t :: t in d.targets ==> Safe(guard.value, t)
  {
    SplitTargetPort(authority, defaultPort);
    hide SplitTarget, NamesSelf, Safe, Unmap, AllowedPort, PublicAddress;
    var split := SplitTarget(authority, defaultPort);
    if parse(split.host).Some? {
      AllowedIsSafe(guard.value, parse(split.host).value, split.port);
    } else {
      SelectedAreSafe(lookup.value, guard.value, split.port);
    }
  }

  /** What the resolvers, the interfaces and the clock answer during one request. */
  datatype Answers = Answers(selfLookup: Option<seq<Address>>, cancelled: bool, now: int,
                             local: Option<seq<Address>>, lookup: Option<seq<Address>>)

  method FindDestinations(p: ProxyServer, fold: Folding, selfHost: string, authority: string, defaultPort: string,
                          parse: string -> Option<Address>, answers: Answers)
    returns (r: Destinations, guard: Option<set<Address>>)
    requires p.setup.host == HostOf(selfHost, parse)
    modifies p
    ensures r == DestinationsOf(fold, SplitTarget(authority, defaultPort), selfHost, guard, parse, answers.lookup)
    ensures guard.Some? ==> Covers(p.setup, guard.value, old(p.selfResolved)) && answers.local.Some? &&
                            Unmapped(answers.local.value) <= guard.value
    ensures old(p.selfResolved) <= p.selfResolved
  {
    guard := None;
    var split := SplitTarget(authority, defaultPort);
    hide SplitTarget, NamesSelf, PublicAddress, Unmap;
    if split.Failed? { return Denied(Malformed(split.error)), None; }
    if NamesSelf(fold, split.host, selfHost) { return Denied(Forbidden), None; }
    var self := p.SelfAddresses(answers.selfLookup, answers.cancelled, answers.now, answers.local);
    guard := self;
    if self.None? { return Denied(GuardUnavailable), guard; }
    var literal := parse(split.host);
    if literal.Some? {
      if !PublicAddress(literal.value) || IsSelf(self.value, literal.value) { return Denied(Forbidden), guard; }
      return Resolved([DialTarget(Unmap(literal.value), split.port)]), guard;
    }
    if answers.lookup.None? { return Denied(LookupFailed), guard; }
    var addresses := answers.lookup.value;
    var targets := [];
    for i := 0 to |addresses|
      invariant targets == Selected(addresses[..i], self.value, split.port)
    {
      assert addresses[..i + 1][..i] == addresses[..i];
      if PublicAddress(addresses[i]) && !IsSelf(self.value, addresses[i]) {
        targets := targets + [DialTarget(Unmap(addresses[i]), split.port)];
      }
    }
    assert addresses[..|addresses|] == addresses;
    return (if targets == [] then Denied(Forbidden) else Resolved(targets)), guard;
  }

  /** The k-th target is the first to connect, and the request stands until then. */
  ghost predicate ConnectsAt(connects: nat -> bool, cancelled: nat -> bool, k: nat) {
    connects(k) && !cancelled(k) && forall i: nat :: i < k ==> !connects(i) && !cancelled(i)
  }

  /** dialDestinations: in order, until one connects or the request is cancelled. */
  method DialDestinations(targets: seq<DialTarget>, connects: nat -> bool, cancelled: nat -> bool)
    returns (connected: Option<nat>, dialled: seq<DialTarget>)
    ensures dialled <= targets
    ensures forall k: nat :: connected == Some(k) <==> k < |targets| && ConnectsAt(connects, cancelled, k)
    ensures connected.Some? ==> |dialled| == connected.value + 1
    ensures connected.None? ==> |dialled| == |targets| || cancelled(|dialled|)
  {
    dialled := [];
    for i := 0 to |targets|
      invariant dialled == targets[..i]
      invariant forall k :: 0 <= k < i ==> !connects(k) && !cancelled(k)
    {
      if cancelled(i) { return None, dialled; }
      dialled := dialled + [targets[i]];
      if connects(i) { return Some(i), dialled; }
    }
    return None, dialled;
  }

  datatype Request = Request(proxyAuthorization: string, isConnect: bool, host: string,
                             absoluteHttpUrl: bool, urlHost: string)

  datatype Status =
    | ProxyAuthRequired
    | BadRequest
    | Failed(error: DestinationError)
    | BadGateway
    | Connected(target: DialTarget)

  lemma NotItself(setup: Setup, guard: set<Address>, before: set<Address>, t: DialTarget)
    ensures Safe(guard, t) && Covers(setup, guard, before) && setup.host.Literal? ==>
      t.address != Unmap(setup.host.address)
  {
    hide PublicAddress, AllowedPort;
  }

  /** ServeHTTP up to an established connection. `dialled` are all the addresses dialled. */
  method Serve<T(==)>(p: ProxyServer, fold: Folding, selfHost: string, request: Request,
                      tag: seq<Base64.Byte> -> T, expected: T, parse: string -> Option<Address>,
                      answers: Answers, connects: nat -> bool, cancelled: nat -> bool)
    returns (status: Status, dialled: seq<DialTarget>, guard: Option<set<Address>>)
    requires p.setup.host == HostOf(selfHost, parse)
    modifies p
    ensures dialled != [] ==>
      Authorized(fold, request.proxyAuthorization, tag, expected) && guard.Some? &&
      Covers(p.setup, guard.value, old(p.selfResolved)) && answers.local.Some? &&
      Unmapped(answers.local.value) <= guard.value
    ensures forall t :: t in dialled ==> Safe(guard.value, t)
    ensures status.Connected? ==> dialled != [] && dialled[|dialled| - 1] == status.target
    ensures selfHost != "" && parse(selfHost).Some? ==>
      forall t :: t in dialled ==> t.address != Unmap(parse(selfHost).value)
    ensures !Authorized(fold, request.proxyAuthorization, tag, expected) <==> status == ProxyAuthRequired
    ensures status == BadRequest <==>
      Authorized(fold, request.proxyAuthorization, tag, expected) && !request.isConnect &&
      (!request.absoluteHttpUrl || request.urlHost == "")
    ensures status == ProxyAuthRequired || status == BadRequest ==> dialled == []
    ensures status != ProxyAuthRequired && status != BadRequest ==>
      var split := if request.isConnect then SplitTarget(request.host, "") else SplitTarget(request.urlHost, "80");
      var d := DestinationsOf(fold, split, selfHost, guard, parse, answers.lookup);
      if d.Denied? then status == Status.Failed(d.error) && dialled == []
      else
        dialled <= d.targets && (dialled == d.targets || status.Connected? || cancelled(|dialled|)) &&
        (forall k: nat | k < |d.targets| && ConnectsAt(connects, cancelled, k) :: status == Connected(d.targets[k])) &&
        ((forall k: nat :: k < |d.targets| ==> !ConnectsAt(connects, cancelled, k)) ==> status == BadGateway)
  {
    dialled, guard := [], None;
    ghost var before := p.selfResolved;
    hide AllowedPort, PublicAddress, NamesSelf, Unmap, SplitTarget, Safe, HeaderCredential, Covers, DestinationsOf,
      ConnectsAt;
    if !Authorized(fold, request.proxyAuthorization, tag, expected) { return ProxyAuthRequired, dialled, guard; }
    if !request.isConnect && (!request.absoluteHttpUrl || request.urlHost == "") { return BadRequest, dialled, guard; }
    var authority := if request.isConnect then request.host else request.urlHost;
    var defaultPort := if request.isConnect then "" else "80";
    var found;
    found, guard := FindDestinations(p, fold, selfHost, authority, defaultPort, parse, answers);
    if found.Denied? { return Status.Failed(found.error), dialled, guard; }
    DestinationsAreSafe(fold, authority, defaultPort, selfHost, guard, parse, answers.lookup);
    var connected;
    connected, dialled := DialDestinations(found.targets, connects, cancelled);
    assert forall t :: t in dialled ==> t in found.targets;
    forall t | t in dialled { NotItself(p.setup, guard.value, before, t); }
    status := if connected.None? then BadGateway else Connected(found.targets[connected.value]);
  }

  /** net.JoinHostPort. */
  function JoinHostPort(host: string, port: string): string {
    if ':' in host then "[" + host + "]:" + port else host + ":" + port
  }

  /** The dialler finds the very address in the text it is given: no name is resolved again. */
  lemma DialsTheLiteral(t: DialTarget, shown: Address -> string, parse: string -> Option<Address>)
    requires AllowedPort(t.port)
    requires NoBrackets(shown(t.address)) && parse(shown(t.address)) == Some(t.address)
    ensures var parts := SplitHostPort(JoinHostPort(shown(t.address), t.port));
      parts.Some? && parse(parts.value.0) == Some(t.address) && parts.value.1 == t.port
  {
    AllowedPortIsPlain(t.port);
    hide AllowedPort, SplitHostPort;
    SplitExactly(JoinHostPort(shown(t.address), t.port), shown(t.address), t.port);
  }
}
