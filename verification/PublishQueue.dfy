// The bounded publish queue between an appliance's receive loop and the broker
// (internal/bridge/device.go).
//
// DevicePublisher is the object; the machine below it interleaves any number of enqueuers with the
// draining goroutine, one action per critical section or channel operation.
module PublishQueue {
  import opened Prelude

  const MAX_QUEUED: nat := 1024

  datatype Item = Item(topic: string, value: string)

  /** What became of an item that left the queue. */
  datatype Fate = Published(item: Item) | Dropped(item: Item)

  // ----- the two critical sections, on values -----

  /** `left` is history: everything that left the queue, in the order it left. */
  datatype Queue = Queue(items: seq<Item>, dropped: nat, left: seq<Fate>)

  function Enqueue(q: Queue, x: Item): Queue {
    if |q.items| >= MAX_QUEUED then Queue(q.items[1..] + [x], q.dropped + 1, q.left + [Dropped(q.items[0])])
    else q.(items := q.items + [x])
  }

  function Next(q: Queue): (Queue, Option<Item>) {
    if q.items == [] then (q.(items := [], dropped := 0), None)
    else (q.(items := q.items[1..], left := q.left + [Published(q.items[0])]), Some(q.items[0]))
  }

  function Items(fs: seq<Fate>): (xs: seq<Item>)
    ensures |xs| == |fs|
  {
    seq(|fs|, i requires 0 <= i < |fs| => fs[i].item)
  }

  /** Nothing is lost, invented or reordered: what left, followed by what is queued, is what was enqueued. */
  predicate Accounts(q: Queue, enqueued: seq<Item>) {
    Items(q.left) + q.items == enqueued && |q.items| <= MAX_QUEUED
  }

  lemma EnqueueAccounts(q: Queue, enqueued: seq<Item>, x: Item)
    requires Accounts(q, enqueued)
    ensures Accounts(Enqueue(q, x), enqueued + [x])
  {
    if |q.items| >= MAX_QUEUED {
      assert Items(q.left + [Dropped(q.items[0])]) == Items(q.left) + [q.items[0]];
      assert q.items == [q.items[0]] + q.items[1..];
    }
  }

  lemma NextAccounts(q: Queue, enqueued: seq<Item>)
    requires Accounts(q, enqueued)
    ensures Accounts(Next(q).0, enqueued)
    ensures Next(q).1 == None <==> q.items == []
  {
    if q.items != [] {
      assert Items(q.left + [Published(q.items[0])]) == Items(q.left) + [q.items[0]];
      assert q.items == [q.items[0]] + q.items[1..];
    }
  }

  class DevicePublisher {
    var queue: seq<Item>
    var dropped: nat
    var wake: bool
    ghost var left: seq<Fate>

    ghost function Abs(): Queue
      reads this
    {
      Queue(queue, dropped, left)
    }

    constructor ()
      ensures Abs() == Queue([], 0, []) && !wake
    {
      queue, dropped, wake, left := [], 0, false, [];
    }

    /** Appends, dropping the oldest item when the backlog is full, and leaves a wake token. */
    method EnqueueItem(x: Item)
      modifies this
      ensures Abs() == Enqueue(old(Abs()), x) && wake
    {
      if |queue| >= MAX_QUEUED {
        left := left + [Dropped(queue[0])];
        queue := queue[1..];
        dropped := dropped + 1;
      }
      queue := queue + [x];
      wake := true;
    }

    method NextItem() returns (x: Option<Item>)
      modifies this`queue, this`dropped, this`left
      ensures (Abs(), x) == Next(old(Abs()))
    {
      if |queue| == 0 {
        queue := [];
        dropped := 0;
        return None;
      }
      x := Some(queue[0]);
      left := left + [Published(queue[0])];
      queue := queue[1..];
    }

    /** The inner loop of run: one wake token, then publish in order until the queue is empty. */
    method Drain() returns (published: seq<Item>)
      modifies this`queue, this`dropped, this`left
      ensures published == old(queue) && queue == [] && dropped == 0
    {
      published := [];
      var x := NextItem();
      while x.Some?
        invariant x.Some? ==> published + [x.value] + queue == old(queue)
        invariant x.None? ==> published == old(queue) && queue == [] && dropped == 0
        decreases |queue|, x.Some?
      {
        published := published + [x.value];
        x := NextItem();
      }
    }
  }

  // ----- enqueuers and the drainer interleaved -----

  type Thread = nat

  /** An enqueuer between its unlock and its signal. */
  datatype DrainPC = Parked | Draining | InHand(x: Item) | Stopped

  datatype State = State(
    q: Queue,
    wake: bool,
    signalling: set<Thread>,
    drainer: DrainPC,
    cancelled: bool,
    enqueued: seq<Item>,
    published: seq<Item>)

  datatype Action =
    | Append(t: Thread, x: Item)
    | Signal(t: Thread)
    | Wake
    | Pop
    | Publish
    | Cancel
    | Stop

  function Init(): State {
    State(Queue([], 0, []), false, {}, Parked, false, [], [])
  }

  function Step(s: State, a: Action): State {
    match a
    case Append(t, x) =>
      if t in s.signalling then s
      else s.(q := Enqueue(s.q, x), signalling := s.signalling + {t}, enqueued := s.enqueued + [x])
    case Signal(t) => if t in s.signalling then s.(wake := true, signalling := s.signalling - {t}) else s
    case Wake => if s.drainer.Parked? && s.wake then s.(wake := false, drainer := Draining) else s
    case Pop =>
      if !s.drainer.Draining? then s
      else if s.cancelled then s.(drainer := Stopped)
      else
        var r := Next(s.q);
        s.(q := r.0, drainer := if r.1.Some? then InHand(r.1.value) else Parked)
    case Publish =>
      if s.drainer.InHand? then s.(published := s.published + [s.drainer.x], drainer := Draining) else s
    case Cancel => s.(cancelled := true)
    case Stop => if s.drainer.Parked? && s.cancelled then s.(drainer := Stopped) else s
  }

  function Run(script: seq<Action>): State {
    if script == [] then Init() else Step(Run(script[..|script| - 1]), script[|script| - 1])
  }

  /** The published ones among what left the queue, in order. */
  function PublishedOf(fs: seq<Fate>): seq<Item> {
    if fs == [] then []
    else
      var p := PublishedOf(fs[..|fs| - 1]);
      if fs[|fs| - 1].Published? then p + [fs[|fs| - 1].item] else p
  }

  function DroppedOf(fs: seq<Fate>): seq<Item> {
    if fs == [] then []
    else
      var d := DroppedOf(fs[..|fs| - 1]);
      if fs[|fs| - 1].Dropped? then d + [fs[|fs| - 1].item] else d
  }

  /** No wakeup is lost: a non-empty queue has a token, an enqueuer about to leave one, or a drainer
      that will look again before it parks. */
  predicate NoLostWakeup(s: State) {
    s.q.items != [] ==> s.wake || s.signalling != {} || s.drainer.Draining? || s.drainer.InHand? || s.drainer.Stopped?
  }

  function Hand(s: State): seq<Item> {
    if s.drainer.InHand? then [s.drainer.x] else []
  }

  ghost predicate Inv(s: State) {
    && Accounts(s.q, s.enqueued)
    && NoLostWakeup(s)
    && PublishedOf(s.q.left) == s.published + Hand(s)
    && (s.drainer.Stopped? ==> s.cancelled)
  }

  lemma SnocFates(fs: seq<Fate>, f: Fate)
    ensures PublishedOf(fs + [f]) == if f.Published? then PublishedOf(fs) + [f.item] else PublishedOf(fs)
    ensures DroppedOf(fs + [f]) == if f.Dropped? then DroppedOf(fs) + [f.item] else DroppedOf(fs)
  {
    assert (fs + [f])[..|fs|] == fs;
  }

  lemma StepKeeps(s: State, a: Action)
    requires Inv(s)
    ensures Inv(Step(s, a))
  {
    match a {
      case Append(t, x) => AppendKeeps(s, t, x);
      case Pop => PopKeeps(s);
      case _ =>
    }
  }

  lemma AppendKeeps(s: State, t: Thread, x: Item)
    requires Inv(s)
    ensures Inv(Step(s, Append(t, x)))
  {
    EnqueueAccounts(s.q, s.enqueued, x);
    if |s.q.items| >= MAX_QUEUED { SnocFates(s.q.left, Dropped(s.q.items[0])); }
  }

  lemma PopKeeps(s: State)
    requires Inv(s)
    ensures Inv(Step(s, Pop))
  {
    NextAccounts(s.q, s.enqueued);
    if s.q.items != [] { SnocFates(s.q.left, Published(s.q.items[0])); }
  }

  lemma {:induction false} Reachable(script: seq<Action>)
    ensures Inv(Run(script))
    decreases |script|
  {
    if script != [] {
      Reachable(script[..|script| - 1]);
      StepKeeps(Run(script[..|script| - 1]), script[|script| - 1]);
    }
  }

  /** While the worker runs, a non-empty queue is never left without someone to drain it. */
  lemma {:induction false} NoWakeupIsLost(script: seq<Action>)
    requires Run(script).q.items != [] && !Run(script).cancelled
    ensures var s := Run(script); s.wake || s.signalling != {} || s.drainer.Draining? || s.drainer.InHand?
  {
    Reachable(script);
  }

  lemma {:induction false} Split(fs: seq<Fate>)
    ensures |PublishedOf(fs)| + |DroppedOf(fs)| == |fs|
    decreases |fs|
  {
    if fs != [] { Split(fs[..|fs| - 1]); }
  }

  /** The backlog stays within its cap; every enqueued item is published, in hand, queued or dropped, and
      the three parts, read in the order items left, are the enqueued sequence itself. */
  lemma EveryItemIsAccountedFor(script: seq<Action>)
    ensures var s := Run(script);
            && |s.q.items| <= MAX_QUEUED
            && Items(s.q.left) + s.q.items == s.enqueued
            && PublishedOf(s.q.left) == s.published + Hand(s)
            && |s.enqueued| == |s.published| + |Hand(s)| + |DroppedOf(s.q.left)| + |s.q.items|
  {
    Reachable(script);
    Split(Run(script).q.left);
  }

  /** An item is dropped only by an append to a full queue, and then it is the oldest one there. */
  lemma OnlyTheOldestIsDropped(script: seq<Action>, a: Action)
    ensures var s, s' := Run(script), Step(Run(script), a);
            || DroppedOf(s'.q.left) == DroppedOf(s.q.left)
            || (a.Append? && |s.q.items| == MAX_QUEUED && DroppedOf(s'.q.left) == DroppedOf(s.q.left) + [s.q.items[0]])
  {
    Reachable(script);
    var s := Run(script);
    if s.q.items != [] {
      SnocFates(s.q.left, Dropped(s.q.items[0]));
      SnocFates(s.q.left, Published(s.q.items[0]));
    }
  }

  // ----- the backlog drains -----

  function After(s: State, steps: seq<Action>): State {
    Fold(Step, s, steps)
  }

  lemma AfterFirst(s: State, a: Action, steps: seq<Action>)
    ensures After(s, [a] + steps) == After(Step(s, a), steps)
  {
    FoldLast(Step, s, [], a);
    assert [] + [a] == [a];
    FoldAll(Step, s, [a], steps);
  }

  predicate Emptied(s: State, t: State) {
    t.q.items == [] && t.published == s.published + Hand(s) + s.q.items && t.enqueued == s.enqueued
  }

  /** A draining worker publishes all there is, in order, and then looks at an empty queue and parks. */
  lemma {:induction false} DrainingEmpties(s: State) returns (steps: seq<Action>)
    requires s.drainer.Draining? && !s.cancelled
    ensures Emptied(s, After(s, steps)) && After(s, steps).drainer.Parked? && After(s, steps).q.dropped == 0
    decreases |s.q.items|
  {
    if s.q.items == [] {
      steps := [Pop];
      AfterFirst(s, Pop, []);
      assert [Pop] + [] == [Pop];
    } else {
      var t := Step(Step(s, Pop), Publish);
      var rest := DrainingEmpties(t);
      steps := [Pop] + ([Publish] + rest);
      AfterFirst(s, Pop, [Publish] + rest);
      AfterFirst(Step(s, Pop), Publish, rest);
      assert s.q.items == [s.q.items[0]] + s.q.items[1..];
    }
  }

  lemma HandEmpties(s: State) returns (steps: seq<Action>)
    requires s.drainer.InHand? && !s.cancelled
    ensures Emptied(s, After(s, steps)) && After(s, steps).drainer.Parked? && After(s, steps).q.dropped == 0
  {
    var rest := DrainingEmpties(Step(s, Publish));
    steps := [Publish] + rest;
    AfterFirst(s, Publish, rest);
  }

  lemma WokenEmpties(s: State) returns (steps: seq<Action>)
    requires s.drainer.Parked? && s.wake && !s.cancelled
    ensures Emptied(s, After(s, steps)) && After(s, steps).drainer.Parked? && After(s, steps).q.dropped == 0
  {
    var rest := DrainingEmpties(Step(s, Wake));
    steps := [Wake] + rest;
    AfterFirst(s, Wake, rest);
  }

  /** Cancelled, the drainer stops at its next wait, or before the next item. */
  lemma CancelledDrainerStops(s: State)
    requires s.cancelled
    ensures s.drainer.Parked? ==> Step(s, Stop) == s.(drainer := Stopped)
    ensures s.drainer.Draining? ==> Step(s, Pop) == s.(drainer := Stopped)
  {
  }

  /** From every state a running worker can be in with items queued, it can go on by its own steps - after the
      signal that is due, when it is parked without a token - until it has published them all, in order. */
  lemma BacklogDrains(script: seq<Action>) returns (steps: seq<Action>)
    requires Run(script).q.items != [] && !Run(script).cancelled
    ensures Emptied(Run(script), After(Run(script), steps)) && After(Run(script), steps).drainer.Parked?
    ensures After(Run(script), steps).q.dropped == 0
  {
    Reachable(script);
    var s := Run(script);
    if s.drainer.Draining? {
      steps := DrainingEmpties(s);
    } else if s.drainer.InHand? {
      steps := HandEmpties(s);
    } else if s.wake {
      steps := WokenEmpties(s);
    } else {
      var t :| t in s.signalling;
      var rest := WokenEmpties(Step(s, Signal(t)));
      steps := [Signal(t)] + rest;
      AfterFirst(s, Signal(t), rest);
    }
  }

  /** A token wakes the worker once, and a signal is given once. */
  lemma TokensAreSpent(s: State, t: Thread)
    requires s.drainer.Parked? && s.wake
    ensures !Step(s, Wake).wake && Step(s, Wake).drainer.Draining?
    ensures t !in Step(s, Signal(t)).signalling
  {
  }

  /** The overflow counter: one more for each item dropped, and none once the queue is found empty. */
  lemma DropsAreCounted(q: Queue, x: Item)
    ensures Enqueue(q, x).dropped - q.dropped == |DroppedOf(Enqueue(q, x).left)| - |DroppedOf(q.left)|
    ensures Next(q).0.dropped == if q.items == [] then 0 else q.dropped
  {
    if q.items != [] { SnocFates(q.left, Dropped(q.items[0])); }
  }
}
