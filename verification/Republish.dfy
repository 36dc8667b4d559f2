// Coalescing of the fleet-wide discovery passes (Bridge.republishDiscovery in internal/bridge/bridge.go).
//
// Any number of requests run concurrently; one action is one atomic operation, and what a pass publishes lies
// between its taking the flag and its end.  `clock`, `passes` and `servedBy` are history: the actions are
// numbered, so that "after" has a meaning, and a request that returns names the pass that served it - its own,
// or else the newest.
module Republish {
  import opened Prelude

  type Request = nat

  datatype PC =
    | NotAsked
    | AwaitStart
    | Starting
    | AwaitMutex(setAt: nat)
    | Locked(setAt: nat)
    | Passing(setAt: nat)
    | Returned(setAt: nat, servedBy: nat, own: bool)
    | GaveUp

  /** One pass that took the flag: when, for which request, and when it ended. */
  datatype Pass = Pass(takenAt: nat, owner: Request, endedAt: Option<nat>)

  datatype State = State(
    started: bool,
    stopped: bool,
    pending: bool,
    mutex: Option<Request>,
    requests: map<Request, PC>,
    passes: seq<Pass>,
    clock: nat)
  {
    function At(r: Request): PC {
      if r in requests then requests[r] else NotAsked
    }

    function Goto(r: Request, pc: PC): State {
      this.(requests := requests[r := pc])
    }
  }

  datatype Action =
    | Ask(r: Request)
    | StartGateOpens
    | SeeStarted(r: Request)
    | ContextDone(r: Request)
    | SetPending(r: Request)
    | Lock(r: Request)
    | TestAndTake(r: Request)
    | Finish(r: Request)
    | StopDiscovery

  function Init(): State {
    State(false, false, false, None, map[], [], 0)
  }

  function Step(s: State, a: Action): State {
    Act(s, a).(clock := s.clock + 1)
  }

  function Act(s: State, a: Action): State {
    match a
    case Ask(r) => if s.At(r).NotAsked? then s.Goto(r, if s.stopped then GaveUp else AwaitStart) else s
    case StartGateOpens => s.(started := true)
    case SeeStarted(r) => if s.At(r).AwaitStart? && s.started then s.Goto(r, Starting) else s
    case ContextDone(r) => if s.At(r).AwaitStart? then s.Goto(r, GaveUp) else s
    case SetPending(r) => if s.At(r).Starting? then s.(pending := true).Goto(r, AwaitMutex(s.clock)) else s
    case Lock(r) =>
      if s.At(r).AwaitMutex? && s.mutex.None? then s.(mutex := Some(r)).Goto(r, Locked(s.At(r).setAt)) else s
    case TestAndTake(r) =>
      if !s.At(r).Locked? then s
      else if s.pending then
        s.(pending := false, passes := s.passes + [Pass(s.clock, r, None)]).Goto(r, Passing(s.At(r).setAt))
      else s.(mutex := None).Goto(r, Returned(s.At(r).setAt, if s.passes == [] then 0 else |s.passes| - 1, false))
    case Finish(r) =>
      if !s.At(r).Passing? || s.passes == [] then s
      else
        var i := |s.passes| - 1;
        s.(mutex := None, passes := s.passes[i := s.passes[i].(endedAt := Some(s.clock))])
         .Goto(r, Returned(s.At(r).setAt, i, true))
    case StopDiscovery => s.(stopped := true)
  }

  function Run(script: seq<Action>): State {
    if script == [] then Init() else Step(Run(script[..|script| - 1]), script[|script| - 1])
  }

  predicate Holding(pc: PC) {
    pc.Locked? || pc.Passing?
  }

  predicate HasSet(pc: PC) {
    pc.AwaitMutex? || pc.Locked?
  }

  /** Some pass took the flag after the given moment. */
  ghost predicate TakenAfter(s: State, t: nat) {
    s.passes != [] && s.passes[|s.passes| - 1].takenAt > t
  }

  /** The named pass took the flag after the given moment and has ended. */
  ghost predicate Served(s: State, p: nat, t: nat) {
    p < |s.passes| && s.passes[p].takenAt > t && s.passes[p].endedAt.Some?
  }

  predicate Ran(pc: PC) {
    pc.Passing? || (pc.Returned? && pc.own)
  }

  /** The mutex belongs to whoever stands between Lock and Unlock, and a running pass is the newest one. */
  ghost predicate MutexOk(s: State, r: Request, pc: PC) {
    && (Holding(pc) <==> s.mutex == Some(r))
    && (pc.Passing? ==>
          |s.passes| > 0 && s.passes[|s.passes| - 1].owner == r && s.passes[|s.passes| - 1].endedAt.None?)
  }

  ghost predicate MutexHeld(s: State) {
    forall r: Request :: MutexOk(s, r, s.At(r))
  }

  /** A request that has set the flag finds it set unless a later pass took it; one that has returned
      names the pass that served it. */
  ghost predicate RequestOk(s: State, r: Request, pc: PC) {
    match pc
    case AwaitMutex(t) => t < s.clock && (s.pending || TakenAfter(s, t))
    case Locked(t) => t < s.clock && (s.pending || TakenAfter(s, t))
    case Passing(t) => TakenAfter(s, t)
    case Returned(t, p, own) => Served(s, p, t) && (own ==> s.passes[p].owner == r)
    case _ => true
  }

  ghost predicate NotForgotten(s: State) {
    forall r: Request :: RequestOk(s, r, s.At(r))
  }

  ghost predicate Gated(s: State) {
    && (forall r: Request :: s.At(r).Starting? || HasSet(s.At(r)) || Ran(s.At(r)) ==> s.started)
    && (|s.passes| > 0 ==> s.started)
  }

  ghost predicate PassOk(s: State, p: Pass) {
    && p.takenAt < s.clock
    && Ran(s.At(p.owner))
    && (p.endedAt.Some? ==> p.takenAt < p.endedAt.value < s.clock)
    && (p.endedAt.None? ==> s.At(p.owner).Passing?)
  }

  ghost predicate PassesInOrder(s: State) {
    && (forall i :: 0 <= i < |s.passes| ==> PassOk(s, s.passes[i]))
    && (forall i, j :: 0 <= i < j < |s.passes| ==>
          && s.passes[i].owner != s.passes[j].owner
          && s.passes[i].endedAt.Some?
          && s.passes[i].endedAt.value < s.passes[j].takenAt)
  }

  ghost predicate Inv(s: State) {
    MutexHeld(s) && NotForgotten(s) && Gated(s) && PassesInOrder(s)
  }

  predicate Concerns(a: Action, r: Request) {
    (a.Ask? || a.SeeStarted? || a.ContextDone? || a.SetPending? || a.Lock? || a.TestAndTake? || a.Finish?) && a.r == r
  }

  lemma OthersStay(s: State, a: Action)
    ensures forall r: Request :: !Concerns(a, r) ==> Step(s, a).At(r) == s.At(r)
  {
  }

  lemma PassesGrow(s: State, a: Action)
    ensures |s.passes| <= |Step(s, a).passes|
    ensures forall i :: 0 <= i < |s.passes| ==>
              && Step(s, a).passes[i].takenAt == s.passes[i].takenAt
              && Step(s, a).passes[i].owner == s.passes[i].owner
              && (s.passes[i].endedAt.Some? ==> Step(s, a).passes[i].endedAt.Some?)
  {
  }

  lemma OtherRequestKept(s: State, a: Action, r: Request)
    requires Inv(s) && !Concerns(a, r)
    ensures RequestOk(Step(s, a), r, s.At(r))
  {
    assert RequestOk(s, r, s.At(r));
    match s.At(r)
    case AwaitMutex(t) => PendingOrTaken(s, a, t);
    case Locked(t) => PendingOrTaken(s, a, t);
    case Passing(t) => PendingOrTaken(s, a, t);
    case Returned(_, _, _) => PassesGrow(s, a);
    case _ =>
  }

  /** Whoever clears the flag takes it for a pass. */
  lemma PendingOrTaken(s: State, a: Action, t: nat)
    requires t < s.clock && (s.pending || TakenAfter(s, t))
    ensures t < Step(s, a).clock && (Step(s, a).pending || TakenAfter(Step(s, a), t))
    ensures TakenAfter(s, t) ==> TakenAfter(Step(s, a), t)
  {
  }

  lemma OtherMutexKept(s: State, a: Action, r: Request)
    requires Inv(s) && !Concerns(a, r)
    ensures MutexOk(Step(s, a), r, s.At(r))
  {
    assert MutexOk(s, r, s.At(r));
    match a
    case Lock(q) => assert MutexOk(s, q, s.At(q));
    case TestAndTake(q) => assert MutexOk(s, q, s.At(q));
    case Finish(q) => assert MutexOk(s, q, s.At(q));
    case _ => MutexUntouched(s, a, r);
  }

  lemma MutexUntouched(s: State, a: Action, r: Request)
    requires MutexOk(s, r, s.At(r)) && !a.Lock? && !a.TestAndTake? && !a.Finish?
    ensures MutexOk(Step(s, a), r, s.At(r))
  {
  }

  lemma RequestKeptEarly(s: State, a: Action, r: Request)
    requires Inv(s) && Concerns(a, r) && !a.Lock? && !a.TestAndTake? && !a.Finish?
    ensures RequestOk(Step(s, a), r, Step(s, a).At(r)) && MutexOk(Step(s, a), r, Step(s, a).At(r))
  {
    assert RequestOk(s, r, s.At(r)) && MutexOk(s, r, s.At(r));
  }

  lemma RequestKeptOnLock(s: State, a: Action, r: Request)
    requires Inv(s) && a == Lock(r)
    ensures RequestOk(Step(s, a), r, Step(s, a).At(r)) && MutexOk(Step(s, a), r, Step(s, a).At(r))
  {
    assert RequestOk(s, r, s.At(r)) && MutexOk(s, r, s.At(r));
  }

  lemma RequestKeptOnTake(s: State, a: Action, r: Request)
    requires Inv(s) && a == TestAndTake(r)
    ensures RequestOk(Step(s, a), r, Step(s, a).At(r)) && MutexOk(Step(s, a), r, Step(s, a).At(r))
  {
    assert RequestOk(s, r, s.At(r)) && MutexOk(s, r, s.At(r));
    if s.At(r).Locked? && !s.pending {
      var last := s.passes[|s.passes| - 1];
      assert PassOk(s, last) && MutexOk(s, last.owner, s.At(last.owner));
    }
  }

  lemma RequestKeptOnFinish(s: State, a: Action, r: Request)
    requires Inv(s) && a == Finish(r)
    ensures RequestOk(Step(s, a), r, Step(s, a).At(r)) && MutexOk(Step(s, a), r, Step(s, a).At(r))
  {
    assert RequestOk(s, r, s.At(r)) && MutexOk(s, r, s.At(r));
    var s' := Step(s, a);
    if s.At(r).Passing? {
      var last := |s.passes| - 1;
      assert s'.At(r) == Returned(s.At(r).setAt, last, true);
      assert s'.passes[last] == s.passes[last].(endedAt := Some(s.clock));
    } else {
      assert s' == s.(clock := s.clock + 1);
    }
  }

  lemma RequestsKept(s: State, a: Action)
    requires Inv(s)
    ensures NotForgotten(Step(s, a)) && MutexHeld(Step(s, a))
  {
    OthersStay(s, a);
    forall r: Request
      ensures RequestOk(Step(s, a), r, Step(s, a).At(r)) && MutexOk(Step(s, a), r, Step(s, a).At(r))
    {
      if !Concerns(a, r) {
        OtherRequestKept(s, a, r);
        OtherMutexKept(s, a, r);
      } else {
        match a
        case Lock(_) => RequestKeptOnLock(s, a, r);
        case TestAndTake(_) => RequestKeptOnTake(s, a, r);
        case Finish(_) => RequestKeptOnFinish(s, a, r);
        case _ => RequestKeptEarly(s, a, r);
      }
    }
  }

  lemma KeepsGate(s: State, a: Action)
    requires Inv(s)
    ensures Gated(Step(s, a))
  {
    var s' := Step(s, a);
    forall r: Request | s'.At(r).Starting? || HasSet(s'.At(r)) || Ran(s'.At(r)) ensures s'.started {
      if !Concerns(a, r) {
        OthersStay(s, a);
      } else if s.At(r).Starting? || HasSet(s.At(r)) || Ran(s.At(r)) {
        assert s.started;
      }
    }
  }

  lemma RanStays(s: State, a: Action)
    requires !a.TestAndTake? && !a.Finish?
    ensures Step(s, a).passes == s.passes && Step(s, a).clock == s.clock + 1
    ensures forall r: Request :: Ran(s.At(r)) ==> Step(s, a).At(r) == s.At(r)
  {
    OthersStay(s, a);
  }

  lemma PassesKept(s: State, a: Action)
    requires Inv(s) && !a.TestAndTake? && !a.Finish?
    ensures PassesInOrder(Step(s, a))
  {
    RanStays(s, a);
    var s' := Step(s, a);
    forall i | 0 <= i < |s'.passes| ensures PassOk(s', s'.passes[i]) {
      assert PassOk(s, s.passes[i]);
    }
  }

  lemma PassesKeptOnTake(s: State, a: Action)
    requires Inv(s) && a.TestAndTake?
    ensures PassesInOrder(Step(s, a))
  {
    OthersStay(s, a);
    assert MutexOk(s, a.r, s.At(a.r));
    var s' := Step(s, a);
    forall i | 0 <= i < |s'.passes| ensures PassOk(s', s'.passes[i]) {
      if i < |s.passes| { assert PassOk(s, s.passes[i]); }
    }
  }

  lemma PassesKeptOnFinish(s: State, a: Action)
    requires Inv(s) && a.Finish?
    ensures PassesInOrder(Step(s, a))
  {
    OthersStay(s, a);
    assert MutexOk(s, a.r, s.At(a.r));
    var s' := Step(s, a);
    forall i | 0 <= i < |s'.passes| ensures PassOk(s', s'.passes[i]) {
      assert PassOk(s, s.passes[i]);
    }
  }

  lemma {:induction false} Reachable(script: seq<Action>)
    ensures Inv(Run(script))
    decreases |script|
  {
    if script != [] {
      var s, a := Run(script[..|script| - 1]), script[|script| - 1];
      Reachable(script[..|script| - 1]);
      KeepsGate(s, a);
      RequestsKept(s, a);
      match a {
        case TestAndTake(_) => PassesKeptOnTake(s, a);
        case Finish(_) => PassesKeptOnFinish(s, a);
        case _ => PassesKept(s, a);
      }
    }
  }

  /** Passes never overlap, and none runs before the start gate has opened. */
  lemma PassesNeverOverlap(script: seq<Action>, i: nat, j: nat)
    requires i < j < |Run(script).passes|
    ensures var p, q := Run(script).passes[i], Run(script).passes[j];
            p.endedAt.Some? && p.endedAt.value < q.takenAt && Run(script).started
  {
    Reachable(script);
  }

  /** Each pass belongs to a request of its own, so there are never more passes than requests. */
  lemma PassesNeverExceedRequests(script: seq<Action>)
    ensures |Run(script).passes| <= |Run(script).requests|
  {
    Reachable(script);
    var s := Run(script);
    var owners := set i | 0 <= i < |s.passes| :: s.passes[i].owner;
    CountOwners(s, |s.passes|);
    forall i | 0 <= i < |s.passes| ensures s.passes[i].owner in s.requests {
      assert PassOk(s, s.passes[i]);
    }
    SubsetSize(owners, s.requests.Keys);
  }

  lemma {:induction false} CountOwners(s: State, n: nat)
    requires n <= |s.passes|
    requires forall i, j :: 0 <= i < j < |s.passes| ==> s.passes[i].owner != s.passes[j].owner
    ensures |set i | 0 <= i < n :: s.passes[i].owner| == n
  {
    if n > 0 {
      CountOwners(s, n - 1);
      var fewer := set i | 0 <= i < n - 1 :: s.passes[i].owner;
      assert (set i | 0 <= i < n :: s.passes[i].owner) == fewer + {s.passes[n - 1].owner};
      assert s.passes[n - 1].owner !in fewer;
    }
  }

  lemma SubsetSize(a: set<Request>, b: set<Request>)
    requires a <= b
    ensures |a| <= |b|
  {
    assert b == a + (b - a);
  }

  /** A request that returns was served: the pass it names - another request's when it ran none itself -
      took the flag after the request had set it, and has ended. */
  lemma EveryRequestIsServed(script: seq<Action>, r: Request)
    requires Run(script).At(r).Returned?
    ensures var s := Run(script);
            var pc := s.At(r);
            && pc.servedBy < |s.passes|
            && s.passes[pc.servedBy].takenAt > pc.setAt
            && s.passes[pc.servedBy].endedAt.Some?
            && (pc.own ==> s.passes[pc.servedBy].owner == r)
  {
    Reachable(script);
    assert RequestOk(Run(script), r, Run(script).At(r));
  }

  // ----- no request is stuck -----

  function Then(s: State, steps: seq<Action>): State {
    Fold(Step, s, steps)
  }

  lemma ThenOne(s: State, a: Action)
    ensures Then(s, [a]) == Step(s, a)
  {
    FoldLast(Step, s, [], a);
    assert [] + [a] == [a];
  }

  lemma ThenTwo(s: State, a: Action, b: Action)
    ensures Then(s, [a, b]) == Step(Step(s, a), b)
  {
    ThenOne(s, a);
    FoldLast(Step, s, [a], b);
    assert [a] + [b] == [a, b];
  }

  lemma {:induction false} RunIsFold(script: seq<Action>)
    ensures Run(script) == Then(Init(), script)
    decreases |script|
  {
    if script != [] { RunIsFold(script[..|script| - 1]); }
  }

  lemma RunThen(script: seq<Action>, steps: seq<Action>)
    ensures Run(script + steps) == Then(Run(script), steps)
  {
    RunIsFold(script);
    RunIsFold(script + steps);
    FoldAll(Step, Init(), script, steps);
  }

  /** Whoever stands behind the mutex can go on, and then returns and lets it go. */
  lemma HolderReturns(s: State, q: Request) returns (steps: seq<Action>)
    requires Holding(s.At(q)) && s.mutex == Some(q) && (s.At(q).Passing? ==> s.passes != [])
    ensures var t := Then(s, steps);
      && t.mutex.None? && t.At(q).Returned? && t.started == s.started
      && forall r :: r != q ==> t.At(r) == s.At(r)
  {
    if s.At(q).Passing? {
      steps := [Finish(q)];
      ThenOne(s, Finish(q));
    } else if s.pending {
      steps := [TestAndTake(q), Finish(q)];
      ThenTwo(s, TestAndTake(q), Finish(q));
    } else {
      steps := [TestAndTake(q)];
      ThenOne(s, TestAndTake(q));
    }
  }

  predicate UnderWay(pc: PC) {
    pc.AwaitStart? || pc.Starting? || pc.AwaitMutex? || Holding(pc)
  }

  /** The mutex is held by one that stands behind it, with a pass to finish if it is passing. */
  ghost predicate HolderIsThere(s: State) {
    && (s.mutex.Some? ==> Holding(s.At(s.mutex.value)) && (s.At(s.mutex.value).Passing? ==> s.passes != []))
    && (forall r: Request :: Holding(s.At(r)) ==> s.mutex == Some(r))
  }

  /** The steps before the mutex. */
  lemma Approaches(s: State, r: Request) returns (steps: seq<Action>)
    requires s.started && (s.At(r).AwaitStart? || s.At(r).Starting? || s.At(r).AwaitMutex?)
    ensures Then(s, steps).At(r).AwaitMutex? && Then(s, steps).mutex == s.mutex
  {
    match s.At(r)
    case AwaitStart =>
      steps := [SeeStarted(r), SetPending(r)];
      ThenTwo(s, SeeStarted(r), SetPending(r));
    case Starting =>
      steps := [SetPending(r)];
      ThenOne(s, SetPending(r));
    case _ =>
      steps := [];
  }

  /** With the mutex free a request goes through. */
  lemma UnhinderedReturns(s: State, r: Request) returns (steps: seq<Action>)
    requires s.started && s.mutex.None? && UnderWay(s.At(r)) && !Holding(s.At(r))
    ensures Then(s, steps).At(r).Returned?
  {
    var near := Approaches(s, r);
    var t := Step(Then(s, near), Lock(r));
    FoldLast(Step, s, near, Lock(r));
    var last := HolderReturns(t, r);
    steps := near + [Lock(r)] + last;
    FoldAll(Step, s, near + [Lock(r)], last);
  }

  lemma Unsticks(s: State, r: Request) returns (steps: seq<Action>)
    requires HolderIsThere(s) && s.started && UnderWay(s.At(r))
    ensures Then(s, steps).At(r).Returned?
  {
    if s.mutex == Some(r) {
      steps := HolderReturns(s, r);
    } else if s.mutex.None? {
      steps := UnhinderedReturns(s, r);
    } else {
      var free := HolderReturns(s, s.mutex.value);
      var rest := UnhinderedReturns(Then(s, free), r);
      steps := free + rest;
      FoldAll(Step, s, free, rest);
    }
  }

  /** Once discovery has started, every request under way can still return, whoever holds the mutex now. */
  lemma NoRequestIsStuck(script: seq<Action>, r: Request) returns (steps: seq<Action>)
    requires Run(script).started && UnderWay(Run(script).At(r))
    ensures Run(script + steps).At(r).Returned?
  {
    var s := Run(script);
    Reachable(script);
    forall q: Request ensures (Holding(s.At(q)) <==> s.mutex == Some(q)) && (s.At(q).Passing? ==> s.passes != []) {
      assert MutexOk(s, q, s.At(q));
    }
    steps := Unsticks(s, r);
    RunThen(script, steps);
  }

  /** A request waits for the gate, or gives up when its context ends or when discovery has stopped. */
  lemma RequestsBegin(s: State, r: Request)
    requires s.At(r).NotAsked?
    ensures Step(s, Ask(r)).At(r) == if s.stopped then GaveUp else AwaitStart
    ensures Step(Step(s, Ask(r)), ContextDone(r)).At(r).GaveUp?
    ensures Step(s, StopDiscovery).stopped && Step(s, StartGateOpens).started
  {
  }
}
