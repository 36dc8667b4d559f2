// Connection attempts and the goroutines they own (internal/homeconnect/session.go).
//
// One goroutine runs Connect, again and again, as the reconnect manager does; every attempt that
// dials owns a receive loop and, once its handshake succeeded, a heartbeat.  Any number of callers
// may be inside Close at any moment.  An action whose guard does not hold changes nothing.
module Connection {
  import opened Prelude

  type Attempt = nat

  datatype RecvPC = NotStarted | Reading | Failing | RecvExited

  datatype BeatPC = NoBeat | Waiting | PingFailed | Closing | BeatExited

  /** connState: `drops` counts how often its dropped channel was closed. */
  datatype ConnState = ConnState(recv: RecvPC, beat: BeatPC, cancelled: bool, drops: nat)
  {
    /** Some goroutine of this attempt has not exited. */
    predicate Live() {
      !recv.RecvExited? || (!beat.NoBeat? && !beat.BeatExited?)
    }
  }

  datatype After = ThenDial | ThenReturn

  datatype ManagerPC =
    | Outside
    | CancelPrev(prev: Attempt, after: After)
    | ClosePrev(prev: Attempt, after: After)
    | JoinRecv(prev: Attempt, after: After)
    | JoinBeat(prev: Attempt, after: After)
    | ReadyToDial
    | Dialed(k: Attempt)
    | Handshaking(k: Attempt)
  {
    predicate Tearing() {
      CancelPrev? || ClosePrev? || JoinRecv? || JoinBeat?
    }
  }

  type Caller = nat

  /** A caller of Close: it has read cur, or has cancelled what it read and is about to close the socket. */
  datatype CloserPC = HasRead(cur: Option<Attempt>) | HasCancelled

  /** `held` is the attempt whose connection the socket holds; `hits` is history: which attempt's
      heartbeat closed the socket, and whose connection it hit. */
  datatype State = State(
    manager: ManagerPC,
    cur: Option<Attempt>,
    held: Option<Attempt>,
    attempts: seq<ConnState>,
    closers: map<Caller, CloserPC>,
    hits: seq<(Attempt, Option<Attempt>)>)
  {
    function With(k: Attempt, c: ConnState): State {
      if k < |attempts| then this.(attempts := attempts[k := c]) else this
    }

    predicate Has(k: Attempt) {
      k < |attempts|
    }
  }

  datatype Action =
    | BeginConnect
    | Cancel
    | CloseSocket
    | JoinReceive
    | JoinHeartbeat
    | Dial(ok: bool)
    | Spawn
    | Handshake(ok: bool, heartbeat: bool)
    | Abandon
    | CloseReads(c: Caller)
    | CloseCancels(c: Caller)
    | CloseCloses(c: Caller)
    | RecvError(k: Attempt)
    | RecvExit(k: Attempt)
    | BeatStop(k: Attempt)
    | BeatPing(k: Attempt)
    | BeatDecide(k: Attempt)
    | BeatClose(k: Attempt)

  function Init(): State {
    State(Outside, None, None, [], map[], [])
  }

  /** The head of teardownCurrent: take cur, and have nothing to do when there is none. */
  function Teardown(s: State, after: After): State {
    var s' := s.(cur := None);
    if s.cur.Some? then s'.(manager := CancelPrev(s.cur.value, after)) else Leave(s', after)
  }

  function Leave(s: State, after: After): State {
    s.(manager := if after.ThenDial? then ReadyToDial else Outside)
  }

  function Step(s: State, a: Action): State {
    match a
    case BeginConnect => if s.manager.Outside? then Teardown(s, ThenDial) else s
    case Cancel =>
      if !s.manager.CancelPrev? || !s.Has(s.manager.prev) then s
      else
        var p := s.manager.prev;
        s.With(p, s.attempts[p].(cancelled := true)).(manager := ClosePrev(p, s.manager.after))
    case CloseSocket =>
      if !s.manager.ClosePrev? then s else s.(held := None, manager := JoinRecv(s.manager.prev, s.manager.after))
    case JoinReceive =>
      if !s.manager.JoinRecv? || !s.Has(s.manager.prev) || s.attempts[s.manager.prev].drops == 0 then s
      else s.(manager := JoinBeat(s.manager.prev, s.manager.after))
    case JoinHeartbeat =>
      if !s.manager.JoinBeat? || !s.Has(s.manager.prev) then s
      else
        var b := s.attempts[s.manager.prev].beat;
        if b.NoBeat? || b.BeatExited? then Leave(s, s.manager.after) else s
    case Dial(ok) =>
      if !s.manager.ReadyToDial? then s
      else if !ok then s.(manager := Outside)
      else
        var k := |s.attempts|;
        s.(attempts := s.attempts + [ConnState(NotStarted, NoBeat, false, 0)], held := Some(k), manager := Dialed(k))
    case Spawn =>
      if !s.manager.Dialed? || !s.Has(s.manager.k) then s
      else
        var k := s.manager.k;
        s.With(k, s.attempts[k].(recv := Reading)).(cur := Some(k), manager := Handshaking(k))
    case Handshake(ok, heartbeat) =>
      if !s.manager.Handshaking? || !s.Has(s.manager.k) then s
      else
        var k := s.manager.k;
        if !ok then Teardown(s, ThenReturn)
        else if heartbeat then s.With(k, s.attempts[k].(beat := Waiting)).(manager := Outside)
        else s.(manager := Outside)
    case Abandon => if s.manager.Handshaking? then s.(manager := Outside) else s
    case CloseReads(c) => if c in s.closers then s else s.(closers := s.closers[c := HasRead(s.cur)])
    case CloseCancels(c) =>
      if c !in s.closers || !s.closers[c].HasRead? then s
      else
        var cur, t := s.closers[c].cur, s.(closers := s.closers[c := HasCancelled]);
        if cur.Some? && s.Has(cur.value) then t.With(cur.value, s.attempts[cur.value].(cancelled := true)) else t
    case CloseCloses(c) =>
      if c !in s.closers || !s.closers[c].HasCancelled? then s else s.(closers := s.closers - {c}, held := None)
    case RecvError(k) =>
      if s.Has(k) && s.attempts[k].recv.Reading? then s.With(k, s.attempts[k].(recv := Failing)) else s
    case RecvExit(k) =>
      if s.Has(k) && s.attempts[k].recv.Failing?
      then s.With(k, s.attempts[k].(recv := RecvExited, drops := s.attempts[k].drops + 1)) else s
    case BeatStop(k) =>
      if s.Has(k) && s.attempts[k].beat.Waiting? && (s.attempts[k].cancelled || s.attempts[k].drops > 0)
      then s.With(k, s.attempts[k].(beat := BeatExited)) else s
    case BeatPing(k) =>
      if s.Has(k) && s.attempts[k].beat.Waiting? then s.With(k, s.attempts[k].(beat := PingFailed)) else s
    case BeatDecide(k) =>
      if s.Has(k) && s.attempts[k].beat.PingFailed?
      then s.With(k, s.attempts[k].(beat :=
                       if s.attempts[k].cancelled || s.attempts[k].drops > 0 then BeatExited else Closing))
      else s
    case BeatClose(k) =>
      if s.Has(k) && s.attempts[k].beat.Closing?
      then s.With(k, s.attempts[k].(beat := BeatExited)).(held := None, hits := s.hits + [(k, s.held)]) else s
  }

  function Run(script: seq<Action>): State {
    if script == [] then Init() else Step(Run(script[..|script| - 1]), script[|script| - 1])
  }

  /** The attempt whose goroutines may still run: the newest, while the manager or `cur` still names it. */
  predicate Named(s: State, k: Attempt) {
    || s.cur == Some(k)
    || (s.manager.Tearing() && s.manager.prev == k)
    || (s.manager.Dialed? && s.manager.k == k)
  }

  ghost predicate Inv(s: State) {
    && (forall k: Attempt :: s.Has(k) && s.attempts[k].Live() ==> Named(s, k))
    && (s.cur.Some? ==> s.cur.value == |s.attempts| - 1)
    && (s.manager.Tearing() ==> s.manager.prev == |s.attempts| - 1)
    && (s.manager.Dialed? ==> s.manager.k == |s.attempts| - 1)
    && (s.held.Some? ==> s.held.value == |s.attempts| - 1)
    && (s.manager.Tearing() || s.manager.ReadyToDial? || s.manager.Dialed? ==> s.cur == None)
    && (s.manager.Handshaking? ==> s.cur == Some(s.manager.k))
    && (forall k: Attempt :: s.Has(k) ==>
          && s.attempts[k].drops == (if s.attempts[k].recv.RecvExited? then 1 else 0)
          && (s.attempts[k].recv.NotStarted? <==> s.manager == Dialed(k)))
    && (s.manager.Dialed? && s.Has(s.manager.k) ==> s.attempts[s.manager.k].beat.NoBeat?)
    && (s.manager.JoinBeat? && s.Has(s.manager.prev) ==> s.attempts[s.manager.prev].recv.RecvExited?)
    && (s.manager.Handshaking? && s.Has(s.manager.k) ==> s.attempts[s.manager.k].beat.NoBeat?)
    && (forall i :: 0 <= i < |s.hits| ==> s.hits[i].1 == None || s.hits[i].1 == Some(s.hits[i].0))
  }

  lemma StepManager(s: State, a: Action)
    requires Inv(s)
    requires a.BeginConnect? || a.Cancel? || a.CloseSocket? || a.JoinReceive? || a.JoinHeartbeat? || a.Dial? || a.Spawn?
    ensures Inv(Step(s, a))
  {
  }

  lemma StepConnected(s: State, a: Action)
    requires Inv(s) && (a.Handshake? || a.Abandon?)
    ensures Inv(Step(s, a))
  {
  }

  lemma StepClose(s: State, a: Action)
    requires Inv(s) && (a.CloseReads? || a.CloseCancels? || a.CloseCloses?)
    ensures Inv(Step(s, a))
  {
  }

  lemma StepReceiveLoop(s: State, a: Action)
    requires Inv(s) && (a.RecvError? || a.RecvExit?)
    ensures Inv(Step(s, a))
  {
  }

  lemma StepHeartbeat(s: State, a: Action)
    requires Inv(s) && (a.BeatStop? || a.BeatPing? || a.BeatDecide? || a.BeatClose?)
    ensures Inv(Step(s, a))
  {
  }

  lemma StepKeeps(s: State, a: Action)
    requires Inv(s)
    ensures Inv(Step(s, a))
  {
    match a
    case Handshake(_, _) => StepConnected(s, a);
    case Abandon => StepConnected(s, a);
    case CloseReads(_) => StepClose(s, a);
    case CloseCancels(_) => StepClose(s, a);
    case CloseCloses(_) => StepClose(s, a);
    case RecvError(_) => StepReceiveLoop(s, a);
    case RecvExit(_) => StepReceiveLoop(s, a);
    case BeatStop(_) => StepHeartbeat(s, a);
    case BeatPing(_) => StepHeartbeat(s, a);
    case BeatDecide(_) => StepHeartbeat(s, a);
    case BeatClose(_) => StepHeartbeat(s, a);
    case _ => StepManager(s, a);
  }

  lemma {:induction false} Reachable(script: seq<Action>)
    ensures Inv(Run(script))
    decreases |script|
  {
    if script != [] {
      Reachable(script[..|script| - 1]);
      StepKeeps(Run(script[..|script| - 1]), script[|script| - 1]);
    }
  }

  /** Whenever the socket is about to be dialled, every goroutine of every earlier attempt has exited. */
  lemma NothingSurvivesIntoTheNextDial(script: seq<Action>, k: Attempt)
    requires Run(script).manager.ReadyToDial? && Run(script).Has(k)
    ensures !Run(script).attempts[k].Live()
  {
    Reachable(script);
  }

  /** A heartbeat that closes the socket hits its own attempt's connection, or one already closed. */
  lemma HeartbeatHitsOnlyItsOwnConnection(script: seq<Action>, i: nat)
    requires i < |Run(script).hits|
    ensures Run(script).hits[i].1 == None || Run(script).hits[i].1 == Some(Run(script).hits[i].0)
  {
    Reachable(script);
  }

  /** A receive loop that still runs can only be reading its own attempt's connection. */
  lemma ReceiveLoopReadsItsOwnConnection(script: seq<Action>, k: Attempt)
    requires Run(script).Has(k) && Run(script).attempts[k].Live()
    ensures Run(script).held == None || Run(script).held == Some(k)
  {
    Reachable(script);
    LiveHolds(Run(script), k);
  }

  lemma LiveHolds(s: State, k: Attempt)
    requires Inv(s) && s.Has(k) && s.attempts[k].Live()
    ensures s.held == None || s.held == Some(k)
  {
  }

  /** dropped is closed exactly once, by its receive loop on the way out, and never before. */
  lemma DroppedClosedOnceByItsLoop(script: seq<Action>, k: Attempt)
    requires Run(script).Has(k)
    ensures Run(script).attempts[k].drops == if Run(script).attempts[k].recv.RecvExited? then 1 else 0
  {
    Reachable(script);
  }

  // ----- every teardown ends, and every connect can succeed -----

  function Then(s: State, steps: seq<Action>): State {
    Fold(Step, s, steps)
  }

  lemma ThenAll(s: State, first: seq<Action>, second: seq<Action>)
    ensures Then(s, first + second) == Then(Then(s, first), second)
  {
    FoldAll(Step, s, first, second);
  }

  lemma ThenOne(s: State, a: Action)
    ensures Then(s, [a]) == Step(s, a)
  {
    FoldLast(Step, s, [], a);
    assert [] + [a] == [a];
  }

  lemma ThenTwo(s: State, a: Action, b: Action)
    ensures Then(s, [a, b]) == Step(Step(s, a), b)
  {
    ThenOne(s, a);
    FoldLast(Step, s, [a], b);
    assert [a] + [b] == [a, b];
  }

  lemma ThenThree(s: State, a: Action, b: Action, c: Action)
    ensures Then(s, [a, b, c]) == Step(Step(Step(s, a), b), c)
  {
    ThenTwo(s, a, b);
    FoldLast(Step, s, [a, b], c);
    assert [a, b] + [c] == [a, b, c];
  }

  /** Only the receive loop of one attempt has moved on. */
  predicate RecvMoved(s: State, t: State, k: Attempt) {
    && s.Has(k) && t.Has(k) && t == s.With(k, t.attempts[k])
    && t.attempts[k].cancelled == s.attempts[k].cancelled && t.attempts[k].beat == s.attempts[k].beat
  }

  /** A receive loop that was started can always run to its end. */
  lemma ReceiveLoopEnds(s: State, k: Attempt) returns (steps: seq<Action>)
    requires Inv(s) && s.Has(k) && !s.attempts[k].recv.NotStarted?
    ensures var t := Then(s, steps); RecvMoved(s, t, k) && t.attempts[k].recv.RecvExited? && t.attempts[k].drops == 1
  {
    match s.attempts[k].recv
    case Reading =>
      steps := [RecvError(k), RecvExit(k)];
      ThenTwo(s, RecvError(k), RecvExit(k));
    case Failing =>
      steps := [RecvExit(k)];
      ThenOne(s, RecvExit(k));
    case RecvExited =>
      steps := [];
  }

  /** So can the heartbeat of a cancelled attempt. */
  lemma HeartbeatEnds(s: State, k: Attempt) returns (steps: seq<Action>)
    requires s.Has(k) && s.attempts[k].cancelled
    ensures var t := Then(s, steps);
      && t.Has(k) && !t.attempts[k].(recv := RecvExited).Live()
      && t == s.(attempts := t.attempts, held := t.held, hits := t.hits)
      && |t.attempts| == |s.attempts| && t.attempts[k].(beat := s.attempts[k].beat) == s.attempts[k]
      && (s.held.None? ==> t.held.None?)
  {
    match s.attempts[k].beat
    case NoBeat => steps := [];
    case Waiting =>
      steps := [BeatStop(k)];
      ThenOne(s, BeatStop(k));
    case PingFailed =>
      steps := [BeatDecide(k)];
      ThenOne(s, BeatDecide(k));
    case Closing =>
      steps := [BeatClose(k)];
      ThenOne(s, BeatClose(k));
    case BeatExited => steps := [];
  }

  lemma {:induction false} ThenKeeps(s: State, steps: seq<Action>)
    requires Inv(s)
    ensures Inv(Then(s, steps))
    decreases |steps|
  {
    if steps != [] {
      ThenKeeps(s, steps[..|steps| - 1]);
      StepKeeps(Then(s, steps[..|steps| - 1]), steps[|steps| - 1]);
    }
  }

  /** Up to the join of the receive loop: the attempt is cancelled and the socket holds no connection. */
  lemma Cancelled(s: State)
    requires Inv(s) && s.manager.CancelPrev? && s.Has(s.manager.prev)
    ensures var p, t := s.manager.prev, Then(s, [Cancel, CloseSocket]);
      && t.manager == JoinRecv(p, s.manager.after) && t.held.None? && t.cur == s.cur
      && t.attempts == s.attempts[p := s.attempts[p].(cancelled := true)]
  {
    ThenTwo(s, Cancel, CloseSocket);
  }

  lemma ReceiveJoined(s: State) returns (steps: seq<Action>)
    requires Inv(s) && s.manager.JoinRecv? && s.Has(s.manager.prev) && s.held.None?
    requires s.attempts[s.manager.prev].cancelled
    ensures var p, t := s.manager.prev, Then(s, steps);
      && Inv(t) && t.manager == JoinBeat(p, s.manager.after) && t.held.None? && t.cur == s.cur
      && |t.attempts| == |s.attempts| && t.attempts[p].cancelled && t.attempts[p].recv.RecvExited?
  {
    var p := s.manager.prev;
    var loop := ReceiveLoopEnds(s, p);
    steps := loop + [JoinReceive];
    ThenAll(s, loop, [JoinReceive]);
    ThenOne(Then(s, loop), JoinReceive);
    ThenKeeps(s, steps);
  }

  lemma HeartbeatJoined(s: State) returns (steps: seq<Action>)
    requires Inv(s) && s.manager.JoinBeat? && s.Has(s.manager.prev) && s.held.None?
    requires s.attempts[s.manager.prev].cancelled && s.attempts[s.manager.prev].recv.RecvExited?
    ensures var p, t := s.manager.prev, Then(s, steps);
      && Inv(t) && t.held.None? && t.cur == s.cur
      && t.manager == (if s.manager.after.ThenDial? then ReadyToDial else Outside)
      && |t.attempts| == |s.attempts| && !t.attempts[p].Live()
  {
    var p := s.manager.prev;
    var beat := HeartbeatEnds(s, p);
    steps := beat + [JoinHeartbeat];
    ThenAll(s, beat, [JoinHeartbeat]);
    ThenOne(Then(s, beat), JoinHeartbeat);
    ThenKeeps(s, steps);
  }

  /** A teardown never gets stuck: from its beginning it can run to its end, with both goroutines of the attempt
      exited and no connection held, and it then dials or returns as it was meant to. */
  lemma TeardownEnds(script: seq<Action>) returns (steps: seq<Action>)
    requires Run(script).manager.CancelPrev?
    ensures var s, t := Run(script), Then(Run(script), steps);
      && Inv(t) && t.held.None? && t.cur.None? && |t.attempts| == |s.attempts|
      && t.manager == (if s.manager.after.ThenDial? then ReadyToDial else Outside)
      && t.Has(s.manager.prev) && !t.attempts[s.manager.prev].Live()
  {
    Reachable(script);
    steps := TornDown(Run(script));
  }

  lemma TornDown(s: State) returns (steps: seq<Action>)
    requires Inv(s) && s.manager.CancelPrev? && s.cur.None?
    requires s.Has(s.manager.prev)
    ensures var t := Then(s, steps);
      && Inv(t) && t.held.None? && t.cur.None? && |t.attempts| == |s.attempts|
      && t.manager == (if s.manager.after.ThenDial? then ReadyToDial else Outside)
      && !t.attempts[s.manager.prev].Live()
  {
    var head := [Cancel, CloseSocket];
    Cancelled(s);
    ThenKeeps(s, head);
    var mid := ReceiveJoined(Then(s, head));
    var tail := HeartbeatJoined(Then(Then(s, head), mid));
    steps := head + (mid + tail);
    ThenAll(Then(s, head), mid, tail);
    ThenAll(s, head, mid + tail);
  }

  /** From the dial on: a new attempt, current, its connection held, both goroutines running. */
  predicate Connected(t: State, k: Attempt) {
    && t.manager.Outside? && t.cur == Some(k) && t.held == Some(k)
    && |t.attempts| == k + 1 && t.attempts[k] == ConnState(Reading, Waiting, false, 0)
  }

  lemma Dials(s: State)
    requires s.manager.ReadyToDial?
    ensures Connected(Then(s, [Dial(true), Spawn, Handshake(true, true)]), |s.attempts|)
  {
    ThenThree(s, Dial(true), Spawn, Handshake(true, true));
  }

  /** Whenever no Connect is under way one can begin and succeed, whatever earlier attempts left behind. */
  lemma ConnectCanSucceed(script: seq<Action>) returns (steps: seq<Action>)
    requires Run(script).manager.Outside?
    ensures Connected(Then(Run(script), steps), |Run(script).attempts|)
  {
    Reachable(script);
    var s := Run(script);
    var dial := [Dial(true), Spawn, Handshake(true, true)];
    var t := Step(s, BeginConnect);
    ThenOne(s, BeginConnect);
    StepKeeps(s, BeginConnect);
    if s.cur.Some? {
      var down := TornDown(t);
      Dials(Then(t, down));
      steps := [BeginConnect] + (down + dial);
      ThenAll(t, down, dial);
    } else {
      Dials(t);
      steps := [BeginConnect] + dial;
    }
    ThenAll(s, [BeginConnect], steps[1..]);
    assert steps == [BeginConnect] + steps[1..];
  }

  /** A handshake that fails takes its attempt down and returns; one that is abandoned leaves it to the next. */
  lemma FailedHandshakeTearsDown(s: State)
    requires s.manager.Handshaking? && s.Has(s.manager.k) && s.cur == Some(s.manager.k)
    ensures Step(s, Handshake(false, true)).manager == CancelPrev(s.manager.k, ThenReturn)
    ensures Step(s, Abandon) == s.(manager := Outside)
    ensures Step(s, Handshake(true, false)).attempts[s.manager.k].beat == s.attempts[s.manager.k].beat
  {
  }

  /** Close, undisturbed, cancels the current attempt and closes the socket. */
  lemma CloseStopsTheSession(s: State, c: Caller, k: Attempt)
    requires s.cur == Some(k) && s.Has(k) && c !in s.closers
    ensures var t := Then(s, [CloseReads(c), CloseCancels(c), CloseCloses(c)]);
      t.held.None? && t.Has(k) && t.attempts[k].cancelled && c !in t.closers
  {
    ThenThree(s, CloseReads(c), CloseCancels(c), CloseCloses(c));
  }

  /** A heartbeat whose ping fails on a live attempt closes the socket, so that the receive loop ends as well. */
  lemma FailedPingClosesTheSocket(s: State, k: Attempt)
    requires s.Has(k) && s.attempts[k].beat.Waiting? && !s.attempts[k].cancelled && s.attempts[k].drops == 0
    ensures var t := Then(s, [BeatPing(k), BeatDecide(k), BeatClose(k)]);
      t.held.None? && t.Has(k) && t.attempts[k].beat.BeatExited? && t.hits == s.hits + [(k, s.held)]
  {
    ThenThree(s, BeatPing(k), BeatDecide(k), BeatClose(k));
  }
}
