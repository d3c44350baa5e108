/** A CONNECT tunnel: two copying goroutines and the handler that waits for both.

    A step is one read, one write, one close, one channel operation, or bytes
    arriving from outside; a run is any sequence of steps. */
module Tunnel {
  datatype Copier<T> = NotStarted | Reading | Writing(chunk: seq<T>) | Ended

  /** One direction: what its source has offered, how much of it was read, what its
      destination was given. */
  datatype Flow<T> = Flow(input: seq<T>, taken: nat, delivered: seq<T>, copier: Copier<T>)

  datatype Main =
    | Dialled
    | Greeting
    | AbortingClient
    | AbortingUpstream
    | AwaitingFirst
    | ClosingClient
    | ClosingUpstream
    | AwaitingSecond
    | Returned

  /** The bytes the parser has buffered, which outlive the connection, and the 200 line. */
  datatype Setup<T> = Setup(buffered: seq<T>, line: seq<T>)

  /** `up` carries the parser's buffered bytes and then the client's, `down` the upstream's,
      after what was written of the 200 line. `done` counts the tokens in the channel. */
  datatype State<T> = State(up: Flow<T>, greeted: seq<T>, down: Flow<T>, clientOpen: bool, upstreamOpen: bool,
                            done: nat, main: Main)

  /** All the client has been sent. */
  function ToClient<T>(s: State<T>): seq<T> {
    s.greeted + s.down.delivered
  }

  datatype Side = Up | Down

  datatype Choice<T> =
    | Arrives(side: Side, data: seq<T>)
    | Hijack(ok: bool)
    | Greet(ok: bool, n: nat)
    | Close
    | TakeDone
    | Read(side: Side, n: nat)
    | ReadEnds(side: Side)
    | Write(side: Side, n: nat)
    | WriteFails(side: Side, n: nat)

  function FlowOf<T>(s: State<T>, side: Side): Flow<T> {
    if side.Up? then s.up else s.down
  }

  function WithFlow<T>(s: State<T>, side: Side, f: Flow<T>): State<T> {
    if side.Up? then s.(up := f) else s.(down := f)
  }

  predicate SourceOpen<T>(s: State<T>, side: Side) {
    if side.Up? then s.clientOpen else s.upstreamOpen
  }

  predicate SinkOpen<T>(s: State<T>, side: Side) {
    if side.Up? then s.upstreamOpen else s.clientOpen
  }

  /** A connection has been dialled and the parser holds `buffered` bytes of the client. */
  function Started<T>(buffered: seq<T>): State<T> {
    State(Flow(buffered, 0, [], NotStarted), [], Flow([], 0, [], NotStarted), false, true, 0, Dialled)
  }

  predicate Enabled<T>(setup: Setup<T>, s: State<T>, c: Choice<T>) {
    match c
    case Arrives(side, _) => SourceOpen(s, side) || s.main.Dialled?
    case Hijack(_) => s.main.Dialled?
    case Greet(ok, n) => s.main.Greeting? && n <= |setup.line| && (ok ==> n == |setup.line|)
    case Close => s.main.AbortingClient? || s.main.AbortingUpstream? || s.main.ClosingClient? || s.main.ClosingUpstream?
    case TakeDone => s.done > 0 && (s.main.AwaitingFirst? || s.main.AwaitingSecond?)
    case Read(side, n) =>
      var f := FlowOf(s, side);
      f.copier.Reading? && 0 < n <= |f.input| - f.taken &&
      (SourceOpen(s, side) || (side.Up? && f.taken + n <= |setup.buffered|))
    case ReadEnds(side) => FlowOf(s, side).copier.Reading?
    case Write(side, n) =>
      FlowOf(s, side).copier.Writing? && n == |FlowOf(s, side).copier.chunk| && SinkOpen(s, side)
    case WriteFails(side, n) =>
      FlowOf(s, side).copier.Writing? && n <= |FlowOf(s, side).copier.chunk| && (n > 0 ==> SinkOpen(s, side))
  }

  function After<T>(setup: Setup<T>, s: State<T>, c: Choice<T>): State<T>
    requires Enabled(setup, s, c)
  {
    match c
    case Arrives(side, data) =>
      var f := FlowOf(s, side);
      WithFlow(s, side, f.(input := f.input + data))
    case Hijack(ok) => if ok then s.(clientOpen := true, main := Greeting) else s.(main := AbortingUpstream)
    case Greet(ok, n) =>
      if ok then s.(greeted := setup.line, main := AwaitingFirst,
                    up := s.up.(copier := Reading), down := s.down.(copier := Reading))
      else s.(greeted := setup.line[..n], main := AbortingClient)
    case Close =>
      (match s.main
       case AbortingClient => s.(clientOpen := false, main := AbortingUpstream)
       case AbortingUpstream => s.(upstreamOpen := false, main := Returned)
       case ClosingClient => s.(clientOpen := false, main := ClosingUpstream)
       case _ => s.(upstreamOpen := false, main := AwaitingSecond))
    case TakeDone => s.(done := s.done - 1, main := if s.main.AwaitingFirst? then ClosingClient else Returned)
    case Read(side, n) =>
      var f := FlowOf(s, side);
      WithFlow(s, side, f.(taken := f.taken + n, copier := Writing(f.input[f.taken..f.taken + n])))
    case ReadEnds(side) => WithFlow(s, side, FlowOf(s, side).(copier := Ended)).(done := s.done + 1)
    case Write(side, n) =>
      var f := FlowOf(s, side);
      WithFlow(s, side, f.(delivered := f.delivered + f.copier.chunk, copier := Reading))
    case WriteFails(side, n) =>
      var f := FlowOf(s, side);
      WithFlow(s, side, f.(delivered := f.delivered + f.copier.chunk[..n], copier := Ended)).(done := s.done + 1)
  }

  predicate Run<T(==)>(setup: Setup<T>, states: seq<State<T>>, choices: seq<Choice<T>>) {
    |states| == |choices| + 1 &&
    forall i :: 0 <= i < |choices| ==>
      Enabled(setup, states[i], choices[i]) && states[i + 1] == After(setup, states[i], choices[i])
  }

  /** What was read has been delivered or is being written; a failed write may lose the rest. */
  predicate InStep<T(==)>(f: Flow<T>) {
    f.taken <= |f.input| &&
    match f.copier
    case NotStarted => f.taken == 0 && f.delivered == []
    case Reading => f.delivered == f.input[..f.taken]
    case Writing(chunk) => chunk != [] && f.delivered + chunk == f.input[..f.taken]
    case Ended => f.delivered <= f.input[..f.taken]
  }

  function Ends<T>(f: Flow<T>): nat {
    if f.copier.Ended? then 1 else 0
  }

  /** The tokens the handler has taken from the channel. */
  function Taken(main: Main): nat {
    match main
    case ClosingClient | ClosingUpstream | AwaitingSecond => 1
    case Returned => 2
    case _ => 0
  }

  predicate Tunnelling(main: Main) {
    main.AwaitingFirst? || main.ClosingClient? || main.ClosingUpstream? || main.AwaitingSecond?
  }

  /** Which connections are open and how many tokens there are, by where the handler is. */
  predicate Control<T(==)>(line: seq<T>, s: State<T>) {
    (if s.up.copier.NotStarted? then s.greeted <= line else s.greeted == line) &&
    (s.main.Dialled? || s.main.Greeting? ==> s.up.copier.NotStarted?) &&
    (s.up.copier.NotStarted? <==> s.down.copier.NotStarted?) &&
    (Tunnelling(s.main) ==> !s.up.copier.NotStarted?) &&
    (s.up.copier.NotStarted? ==> s.done == 0) &&
    (!s.up.copier.NotStarted? ==>
       (Tunnelling(s.main) || s.main.Returned?) && Ends(s.up) + Ends(s.down) == s.done + Taken(s.main)) &&
    (s.clientOpen <==> s.main.Greeting? || s.main.AbortingClient? || s.main.AwaitingFirst? || s.main.ClosingClient?) &&
    (s.upstreamOpen <==> !s.main.AwaitingSecond? && !s.main.Returned?)
  }

  predicate Inv<T(==)>(line: seq<T>, s: State<T>) {
    InStep(s.up) && InStep(s.down) && Control(line, s)
  }

  lemma FlowArrives<T>(f: Flow<T>, data: seq<T>)
    requires InStep(f)
    ensures InStep(f.(input := f.input + data))
  {
    assert (f.input + data)[..f.taken] == f.input[..f.taken];
  }

  lemma FlowReads<T>(f: Flow<T>, n: nat)
    requires InStep(f) && f.copier.Reading? && 0 < n <= |f.input| - f.taken
    ensures InStep(f.(taken := f.taken + n, copier := Writing(f.input[f.taken..f.taken + n])))
  {
    assert f.input[..f.taken] + f.input[f.taken..f.taken + n] == f.input[..f.taken + n];
  }

  lemma FlowFails<T>(f: Flow<T>, n: nat)
    requires InStep(f) && f.copier.Writing? && n <= |f.copier.chunk|
    ensures InStep(f.(delivered := f.delivered + f.copier.chunk[..n], copier := Ended))
  {
    assert f.delivered + f.copier.chunk == f.delivered + f.copier.chunk[..n] + f.copier.chunk[n..];
  }

  lemma ControlStep<T>(setup: Setup<T>, s: State<T>, c: Choice<T>)
    requires Control(setup.line, s) && Enabled(setup, s, c)
    ensures Control(setup.line, After(setup, s, c))
  {
  }

  lemma FlowStep<T>(setup: Setup<T>, s: State<T>, c: Choice<T>, side: Side)
    requires Inv(setup.line, s) && Enabled(setup, s, c)
    ensures InStep(FlowOf(After(setup, s, c), side))
  {
    match c
    case Arrives(at, data) => FlowArrives(FlowOf(s, at), data);
    case Read(at, n) => FlowReads(FlowOf(s, at), n);
    case WriteFails(at, n) => FlowFails(FlowOf(s, at), n);
    case _ =>
  }

  lemma InvStep<T>(setup: Setup<T>, s: State<T>, c: Choice<T>)
    requires Inv(setup.line, s) && Enabled(setup, s, c)
    ensures Inv(setup.line, After(setup, s, c))
  {
    ControlStep(setup, s, c);
    FlowStep(setup, s, c, Up);
    FlowStep(setup, s, c, Down);
    hide InStep, Control, After;
  }

  lemma InputGrows<T>(setup: Setup<T>, s: State<T>, c: Choice<T>)
    requires Enabled(setup, s, c)
    ensures s.up.input <= After(setup, s, c).up.input
  {
  }

  lemma StartedInv<T>(setup: Setup<T>)
    ensures Inv(setup.line, Started(setup.buffered)) && Started(setup.buffered).up.input == setup.buffered
  {
  }

  lemma {:induction false} InvAlways<T>(setup: Setup<T>, states: seq<State<T>>, choices: seq<Choice<T>>, i: nat)
    requires Run(setup, states, choices) && states[0] == Started(setup.buffered) && i <= |choices|
    ensures Inv(setup.line, states[i]) && setup.buffered <= states[i].up.input
  {
    hide Inv, After, Enabled, Started;
    if i == 0 {
      StartedInv(setup);
    } else {
      InvAlways(setup, states, choices, i - 1);
      InvStep(setup, states[i - 1], choices[i - 1]);
      InputGrows(setup, states[i - 1], choices[i - 1]);
    }
  }

  /** At every moment each side has received a prefix, in order, of what the other offered:
      the upstream of the buffered bytes followed by the client's later ones. */
  lemma DeliversPrefixes<T>(setup: Setup<T>, states: seq<State<T>>, choices: seq<Choice<T>>, i: nat)
    requires Run(setup, states, choices) && states[0] == Started(setup.buffered) && i <= |choices|
    ensures setup.buffered <= states[i].up.input
    ensures ToClient(states[i]) <= setup.line + states[i].down.input
    ensures states[i].up.delivered <= states[i].up.input && states[i].down.delivered <= states[i].down.input
    ensures states[i].up.taken <= |states[i].up.input| && states[i].down.taken <= |states[i].down.input|
    ensures states[i].up.copier.Reading? ==> states[i].up.delivered == states[i].up.input[..states[i].up.taken]
    ensures states[i].down.copier.Reading? ==> states[i].down.delivered == states[i].down.input[..states[i].down.taken]
  {
    InvAlways(setup, states, choices, i);
  }

  /** The handler returns only with both connections closed and no copier running. */
  lemma ReturnsClosed<T>(setup: Setup<T>, states: seq<State<T>>, choices: seq<Choice<T>>, i: nat)
    requires Run(setup, states, choices) && states[0] == Started(setup.buffered) && i <= |choices|
    requires states[i].main.Returned?
    ensures !states[i].clientOpen && !states[i].upstreamOpen
    ensures (states[i].up.copier.Ended? && states[i].down.copier.Ended?) ||
            (states[i].up.copier.NotStarted? && states[i].down.copier.NotStarted?)
  {
    InvAlways(setup, states, choices, i);
  }

  /** Steps of this process, as opposed to bytes arriving. */
  predicate Internal<T>(c: Choice<T>) {
    !c.Arrives?
  }

  function CopierWork<T>(f: Flow<T>, buffered: nat): nat {
    var left := if f.taken < buffered then buffered - f.taken else 0;
    match f.copier
    case Reading => 2 * left + 2
    case Writing(_) => 2 * left + 1
    case _ => 0
  }

  /** The work left once both connections are closed: only buffered bytes can still be read. */
  function ShutdownWork<T>(s: State<T>, buffered: nat): nat {
    CopierWork(s.up, buffered) + CopierWork(s.down, 0) + (if s.main.AwaitingSecond? then 1 else 0)
  }

  /** After both connections are closed every step brings the handler closer to returning,
      and until it returns there is a step to take. */
  lemma ShutdownEnds<T>(setup: Setup<T>, s: State<T>)
    requires Inv(setup.line, s) && s.main.AwaitingSecond?
    ensures exists c :: Internal(c) && Enabled(setup, s, c)
    ensures forall c :: Internal(c) && Enabled(setup, s, c) ==>
      ShutdownWork(After(setup, s, c), |setup.buffered|) < ShutdownWork(s, |setup.buffered|) &&
      (After(setup, s, c).main.AwaitingSecond? || After(setup, s, c).main.Returned?)
  {
    if s.done > 0 {
      assert Enabled(setup, s, TakeDone);
    } else {
      var side := if s.up.copier.Ended? then Down else Up;
      var f := FlowOf(s, side);
      assert f.copier.Reading? || f.copier.Writing?;
      assert Enabled(setup, s, if f.copier.Reading? then ReadEnds(side) else WriteFails(side, 0));
    }
  }
}
