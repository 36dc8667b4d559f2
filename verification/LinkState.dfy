// What the broker holds about an appliance's link after outages
// (internal/bridge/device.go, internal/bridge/bridge.go, internal/haplane/plane.go).
//
// One appliance's two link items, `connection_state` and `online`; whatever else the daemon publishes
// takes part only by holding replayMu.  Any number of goroutines run reassertLink and the replay, one
// worker runs onState; the mutexes are exclusive, so whoever holds one is recorded in one place.  A send and the
// recording of its success are two actions: Reconnect waits for neither, and may come between them.
module LinkState {
  import opened Prelude

  datatype Item = ConnectionState | Online

  datatype Value = Text(s: string) | Flag(b: bool)

  const CONNECTED: string := "connected"

  /** deviceLink: what onState has declared so far. */
  datatype Link = Link(state: Option<string>, online: Option<bool>) {
    function Says(i: Item): Option<Value> {
      match i
      case ConnectionState => if state.Some? then Some(Text(state.value)) else None
      case Online => if online.Some? then Some(Flag(online.value)) else None
    }
  }

  // ----- one item on its way to the broker -----

  /** A publish that failed may still have reached the broker. */
  datatype Outcome = Sent | Failed(reached: bool)

  /** `gate` is the state plane's dedup cache, `index` the last value it had accepted and `broker` what the broker
      retains.  The rest is history.  On the current connection: `accepted`, the last value accepted, `lost`,
      the values whose sending failed since then, and `failed`, whether the last publish that was not skipped
      failed, and `stale`: after the gate was reset for it, the success of a send on an earlier connection was
      recorded, and none has been accepted since. */
  datatype Line = Line(
    gate: Option<Value>,
    index: Option<Value>,
    broker: Option<Value>,
    accepted: Option<Value>,
    lost: set<Value>,
    failed: bool,
    stale: bool)

  /** A success on a dead socket is accepted and reaches nobody. */
  function Accept(l: Line, v: Value, alive: bool): Line {
    l.(accepted := Some(v), lost := {}, stale := false, broker := if alive then Some(v) else l.broker)
  }

  function Lose(l: Line, v: Value, arrives: bool): Line {
    l.(lost := l.lost + {v}, broker := if arrives then Some(v) else l.broker)
  }

  /** One item of StatePublisher.Republish on its way, past the gate. */
  function Resend(l: Line, v: Value, o: Outcome, alive: bool): Line {
    match o
    case Sent => Accept(l, v, alive)
    case Failed(reached) => Lose(l, v, alive && reached)
  }

  predicate Skipped(l: Line, v: Value) {
    l.gate == Some(v)
  }

  /** StatePublisher.PublishStatus on its way: nothing for a value the gate already has. */
  function Publish(l: Line, v: Value, o: Outcome, alive: bool): Line {
    if Skipped(l, v) then l else Resend(l, v, o, alive).(failed := o.Failed?)
  }

  /** A success is recorded; `late` when the gate has been reset for a later connection meanwhile. */
  function Recorded(l: Line, v: Value, late: bool): Line {
    l.(gate := Some(v), index := Some(v), stale := l.stale || late)
  }

  /** What the daemon has seen of its own sends leaves the broker nothing but this value to hold. */
  predicate Sure(l: Line, v: Value) {
    l.accepted == Some(v) && forall w :: w in l.lost ==> w == v
  }

  /** `anew`: the gate was anew on this very connection. */
  predicate Truthful(l: Line, anew: bool) {
    anew && l.gate.Some? && !l.failed && !l.stale ==> Sure(l, l.gate.value)
  }

  /** The gate never holds a value the index does not, and a stale line has seen nothing accepted. */
  predicate Tidy(l: Line) {
    (l.gate.Some? ==> l.index == l.gate) && (l.stale ==> l.accepted.None?)
  }

  /** Unless its last publish failed, the line was last recorded with what the link says; the daemon is sure of
      it unless that record is stale. */
  predicate Settled(l: Line, says: Option<Value>) {
    says.Some? && !l.failed ==> l.index == says && (!l.stale ==> Sure(l, says.value))
  }

  /** A publish whose success is recorded at once. */
  function Published(l: Line, v: Value, o: Outcome, alive: bool): Line {
    var m := Publish(l, v, o, alive);
    if Skipped(l, v) || o.Failed? then m else Recorded(m, v, false)
  }

  /** A publish settles its item once its success is recorded, where the gate was reset for this connection. */
  lemma PublishSettles(l: Line, v: Value, o: Outcome, alive: bool, anew: bool)
    requires Tidy(l) && Truthful(l, anew)
    ensures Tidy(Publish(l, v, o, alive)) && Tidy(Published(l, v, o, alive))
    ensures Truthful(Published(l, v, o, alive), anew)
    ensures anew ==> Settled(Published(l, v, o, alive), Some(v))
  {
  }

  /** Replaying the value last accepted keeps the gate truthful and unsettles nothing. */
  lemma ReplaySettles(l: Line, v: Value, o: Outcome, alive: bool, says: Option<Value>)
    requires Tidy(l) && Truthful(l, true) && l.index == Some(v)
    ensures var m := Resend(l, v, o, alive);
      && Tidy(m) && Truthful(m, true) && (Settled(l, says) ==> Settled(m, says))
      && (o.Sent? ==>
            Truthful(Recorded(m, v, false), true) && (Settled(l, says) ==> Settled(Recorded(m, v, false), says)))
  {
  }

  // ----- the machine -----

  /** The holder of the appliance's link lock, with the publish it is about to make.  A re-assertion also
      carries the connection it may vouch for: the one whose Reconnect had run when it began. */
  datatype Holder =
    | Free
    | DeclaringState
    | DeclaringOnline
    | AssertingState(on: Option<nat>)
    | AssertingOnline(on: Option<nat>)

  /** A value accepted and not yet recorded: by the holder's publish, or by the replay; and the connection it was
      sent on. */
  datatype Flight = Flight(item: Item, value: Value, on: nat, replaying: bool)

  datatype Worker = Idle | BetweenHalves(connected: bool)

  /** `conn`, `resetOn` and `asserted` are history: the number of the broker connection, the one Reconnect last
      ran on, and whether a re-assertion has completed on this one. */
  datatype State = State(
    link: Link,
    holder: Holder,
    worker: Worker,
    replay: Option<seq<(Item, Value)>>,
    flight: Option<Flight>,
    connectionState: Line,
    online: Line,
    alive: bool,
    conn: nat,
    resetOn: nat,
    asserted: bool)
  {
    function At(i: Item): Line {
      match i
      case ConnectionState => connectionState
      case Online => online
    }

    function Put(i: Item, l: Line): State {
      match i
      case ConnectionState => this.(connectionState := l)
      case Online => this.(online := l)
    }

    predicate Fresh() {
      resetOn == conn
    }
  }

  datatype Action =
    | OnState(s: string)
    | OnStateOnline
    | PublishState(o: Outcome)
    | PublishOnline(o: Outcome)
    | Reassert
    | ReplayBegin(order: seq<Item>)
    | ReplaySend(o: Outcome)
    | ReplayEnd
    | Record
    | ConnectionDies
    | ConnectionUp(retained: map<Item, Value>)
    | Reconnect

  const UNUSED: Line := Line(None, None, None, None, {}, false, false)

  function Init(): State {
    State(Link(None, None), Free, Idle, None, None, UNUSED, UNUSED, true, 1, 0, false)
  }

  /** The publish of one item by the holder; a value the link does not have yet is left out. */
  function PublishLink(s: State, i: Item, o: Outcome): State {
    match s.link.Says(i)
    case None => PassOn(s)
    case Some(v) =>
      var t := s.Put(i, Publish(s.At(i), v, o, s.alive));
      if Skipped(s.At(i), v) || o.Failed? then PassOn(t) else t.(flight := Some(Flight(i, v, s.conn, false)))
  }

  /** One item of the replay. */
  function ReplayOne(s: State, i: Item, v: Value, o: Outcome): State {
    var t := s.Put(i, Resend(s.At(i), v, o, s.alive));
    if o.Sent? then t.(flight := Some(Flight(i, v, s.conn, true))) else t
  }

  /** The success is recorded, and the publish returns. */
  function Land(s: State, f: Flight): State {
    var t := s.(flight := None).Put(f.item, Recorded(s.At(f.item), f.value, f.on < s.conn && s.Fresh()));
    if f.replaying then t else PassOn(t)
  }

  /** The items a replay starts from, with the values the plane last had accepted. */
  function Snapshot(s: State, order: seq<Item>): (todo: seq<(Item, Value)>)
    ensures forall k :: 0 <= k < |todo| ==> s.At(todo[k].0).index == Some(todo[k].1)
  {
    if order == [] then []
    else
      var rest := Snapshot(s, order[1..]);
      var last := s.At(order[0]).index;
      if last.Some? then [(order[0], last.value)] + rest else rest
  }

  /** After its publish the holder lets the lock go, or a re-assertion goes on to the second item. */
  function PassOn(s: State): State {
    match s.holder
    case Free => s
    case DeclaringState => s.(holder := Free)
    case DeclaringOnline => s.(holder := Free)
    case AssertingState(on) => s.(holder := AssertingOnline(on))
    case AssertingOnline(on) => s.(holder := Free, asserted := s.asserted || on == Some(s.conn))
  }

  /** A new connection: the broker comes back with whatever it retained. */
  function Renewed(l: Line, retained: Option<Value>): Line {
    l.(broker := retained, accepted := None, lost := {}, failed := false, stale := false)
  }

  function Retained(m: map<Item, Value>, i: Item): Option<Value> {
    if i in m then Some(m[i]) else None
  }

  predicate StateIsDue(s: State) {
    s.replay.None? && s.flight.None? && (s.holder.DeclaringState? || s.holder.AssertingState?)
  }

  predicate OnlineIsDue(s: State) {
    s.replay.None? && s.flight.None? && (s.holder.DeclaringOnline? || s.holder.AssertingOnline?)
  }

  predicate ReplayIsDue(s: State) {
    s.flight.None? && s.replay.Some? && s.replay.value != []
  }

  function Step(s: State, a: Action): State {
    match a
    case OnState(st) =>
      if !s.holder.Free? || !s.worker.Idle? then s
      else s.(link := s.link.(state := Some(st)), holder := DeclaringState, worker := BetweenHalves(st == CONNECTED))
    case OnStateOnline =>
      if !s.holder.Free? || !s.worker.BetweenHalves? then s
      else s.(link := s.link.(online := Some(s.worker.connected)), holder := DeclaringOnline, worker := Idle)
    case PublishState(o) => if StateIsDue(s) then PublishLink(s, ConnectionState, o) else s
    case PublishOnline(o) => if OnlineIsDue(s) then PublishLink(s, Online, o) else s
    case Reassert =>
      if !s.holder.Free? then s
      else s.(holder := AssertingState(if s.Fresh() then Some(s.conn) else None))
    case ReplayBegin(order) =>
      if s.replay.Some? || s.flight.Some? then s else s.(replay := Some(Snapshot(s, order)))
    case ReplaySend(o) =>
      if !ReplayIsDue(s) then s
      else
        var (i, v) := s.replay.value[0];
        ReplayOne(s.(replay := Some(s.replay.value[1..])), i, v, o)
    case ReplayEnd => if s.flight.Some? then s else s.(replay := None)
    case Record => if s.flight.Some? then Land(s, s.flight.value) else s
    case ConnectionDies => s.(alive := false)
    case ConnectionUp(retained) =>
      s.(alive := true, conn := s.conn + 1, asserted := false,
         connectionState := Renewed(s.connectionState, Retained(retained, ConnectionState)),
         online := Renewed(s.online, Retained(retained, Online)))
    case Reconnect =>
      s.(resetOn := s.conn, connectionState := s.connectionState.(gate := None), online := s.online.(gate := None))
  }

  function Run(script: seq<Action>): State {
    if script == [] then Init() else Step(Run(script[..|script| - 1]), script[|script| - 1])
  }

  // ----- the invariant -----

  predicate VouchesFor(s: State, h: Holder) {
    (h.AssertingState? || h.AssertingOnline?) && h.on == Some(s.conn)
  }

  predicate InFlight(s: State, i: Item) {
    s.flight.Some? && s.flight.value.item == i
  }

  predicate BeingPublished(s: State, i: Item) {
    InFlight(s, i) && !s.flight.value.replaying
  }

  predicate GateIsTruthful(s: State, i: Item) {
    Tidy(s.At(i)) && (InFlight(s, i) || Truthful(s.At(i), s.Fresh()))
  }

  predicate GatesAreTruthful(s: State) {
    GateIsTruthful(s, ConnectionState) && GateIsTruthful(s, Online)
  }

  ghost predicate ReplayIsCurrent(s: State) {
    s.replay.Some? ==> forall k :: 0 <= k < |s.replay.value| ==>
        s.At(s.replay.value[k].0).index == Some(s.replay.value[k].1)
  }

  predicate PublishesItem(h: Holder, i: Item) {
    match i
    case ConnectionState => h.DeclaringState? || h.AssertingState?
    case Online => h.DeclaringOnline? || h.AssertingOnline?
  }

  /** A value in flight was sent on this connection and nothing has happened to its item since, or on an earlier
      one and nothing has been sent on this one. */
  predicate FlightIsSound(s: State, f: Flight) {
    var l := s.At(f.item);
    && f.on <= s.conn
    && (f.on == s.conn ==> Sure(l, f.value) && !l.stale)
    && (f.on < s.conn ==> l.accepted.None? && !s.asserted && !(s.holder.AssertingOnline? && VouchesFor(s, s.holder)))
    && (f.replaying ==> s.replay.Some? && l.index == Some(f.value))
    && (!f.replaying ==>
          && s.replay.None? && s.link.Says(f.item) == Some(f.value) && PublishesItem(s.holder, f.item)
          && (s.holder.AssertingState? || s.holder.AssertingOnline? ==>
                s.holder.on.None? || s.holder.on.value <= f.on))
  }

  predicate ItemSettled(s: State, i: Item) {
    Settled(s.At(i), s.link.Says(i))
  }

  /** After a re-assertion an item is settled unless its own declaration is under way. */
  predicate AssertedItems(s: State) {
    s.asserted ==>
      && (s.holder.DeclaringState? || BeingPublished(s, ConnectionState) || ItemSettled(s, ConnectionState))
      && (s.holder.DeclaringOnline? || BeingPublished(s, Online) || ItemSettled(s, Online))
  }

  predicate Vouching(s: State) {
    && s.resetOn <= s.conn
    && (s.holder.AssertingState? || s.holder.AssertingOnline? ==> s.holder.on.None? || s.holder.on.value <= s.conn)
    && (s.asserted || VouchesFor(s, s.holder) ==> s.Fresh())
    && (s.holder.AssertingOnline? && VouchesFor(s, s.holder) ==> ItemSettled(s, ConnectionState))
  }

  ghost predicate Inv(s: State) {
    && GatesAreTruthful(s) && ReplayIsCurrent(s) && AssertedItems(s) && Vouching(s)
    && (s.flight.Some? ==> FlightIsSound(s, s.flight.value))
  }

  /** Publishing what the link says, with nothing in between, settles that item and touches no other. */
  lemma PublishLinkSettles(s: State, i: Item, o: Outcome)
    requires GatesAreTruthful(s) && s.flight.None? && s.Fresh()
    ensures var t := PublishLink(s, i, o);
      var u := if t.flight.Some? then Land(t, t.flight.value) else t;
      && u.connectionState == (if i.ConnectionState? then u.connectionState else s.connectionState)
      && u.online == (if i.Online? then u.online else s.online)
      && GatesAreTruthful(u) && u.flight.None? && u.link == s.link && ItemSettled(u, i)
  {
    if s.link.Says(i).Some? { PublishSettles(s.At(i), s.link.Says(i).value, o, s.alive, true); }
  }

  /** The holder's publish of an item may begin. */
  predicate IsDue(s: State, i: Item) {
    s.replay.None? && s.flight.None? && PublishesItem(s.holder, i)
  }

  lemma PassOnKeeps(s: State, i: Item)
    requires Inv(s) && IsDue(s, i) && (s.Fresh() ==> ItemSettled(s, i))
    ensures Inv(PassOn(s))
  {
  }

  /** A publish that is skipped or fails leaves the invariant, and on a reset gate the item settled. */
  lemma PublishStays(s: State, i: Item, v: Value, o: Outcome)
    requires Inv(s) && IsDue(s, i) && s.link.Says(i) == Some(v)
    requires Skipped(s.At(i), v) || o.Failed?
    ensures var t := s.Put(i, Publish(s.At(i), v, o, s.alive));
      Inv(t) && (t.Fresh() ==> ItemSettled(t, i))
  {
    PublishSettles(s.At(i), v, o, s.alive, s.Fresh());
  }

  lemma PublishFlies(s: State, i: Item, v: Value)
    requires Inv(s) && IsDue(s, i) && s.link.Says(i) == Some(v) && !Skipped(s.At(i), v)
    ensures Inv(s.Put(i, Publish(s.At(i), v, Sent, s.alive)).(flight := Some(Flight(i, v, s.conn, false))))
  {
  }

  lemma StepPublish(s: State, i: Item, o: Outcome)
    requires Inv(s) && IsDue(s, i)
    ensures Inv(PublishLink(s, i, o))
  {
    match s.link.Says(i)
    case None => PassOnKeeps(s, i);
    case Some(v) =>
      if Skipped(s.At(i), v) || o.Failed? {
        PublishStays(s, i, v, o);
        PassOnKeeps(s.Put(i, Publish(s.At(i), v, o, s.alive)), i);
      } else {
        PublishFlies(s, i, v);
      }
  }

  lemma StepReplay(s: State, o: Outcome)
    requires Inv(s)
    ensures Inv(Step(s, ReplaySend(o)))
  {
  }

  /** The success of a publish is recorded: its holder was waiting for nothing else. */
  lemma PublishLands(s: State, f: Flight)
    requires Inv(s) && s.flight == Some(f) && !f.replaying
    ensures Inv(Land(s, f))
  {
    match f.item
    case ConnectionState =>
    case Online =>
  }

  lemma ReplayLands(s: State, f: Flight)
    requires Inv(s) && s.flight == Some(f) && f.replaying
    ensures Inv(Land(s, f))
  {
    match f.item
    case ConnectionState =>
    case Online =>
  }

  lemma StepRecord(s: State)
    requires Inv(s)
    ensures Inv(Step(s, Record))
  {
    if s.flight.Some? {
      if s.flight.value.replaying { ReplayLands(s, s.flight.value); } else { PublishLands(s, s.flight.value); }
    }
  }

  predicate OfTheConnection(a: Action) {
    a.ConnectionDies? || a.ConnectionUp? || a.Reconnect?
  }

  lemma StepConnection(s: State, a: Action)
    requires Inv(s) && OfTheConnection(a)
    ensures Inv(Step(s, a))
  {
  }

  lemma StepOther(s: State, a: Action)
    requires Inv(s) && !a.PublishState? && !a.PublishOnline? && !a.ReplaySend? && !a.Record? && !OfTheConnection(a)
    ensures Inv(Step(s, a))
  {
  }

  lemma {:induction false} Reachable(script: seq<Action>)
    ensures Inv(Run(script))
    decreases |script|
  {
    if script != [] {
      var s, a := Run(script[..|script| - 1]), script[|script| - 1];
      Reachable(script[..|script| - 1]);
      match a
      case PublishState(o) => if StateIsDue(s) { StepPublish(s, ConnectionState, o); }
      case PublishOnline(o) => if OnlineIsDue(s) { StepPublish(s, Online, o); }
      case ReplaySend(o) => StepReplay(s, o);
      case Record => StepRecord(s);
      case _ => if OfTheConnection(a) { StepConnection(s, a); } else { StepOther(s, a); }
    }
  }

  // ----- what the daemon's own observations settle -----

  /** The item and value an action sends, if it sends any. */
  function Sending(s: State, a: Action): Option<(Item, Value)> {
    match a
    case PublishState(_) => if StateIsDue(s) then Due(s, ConnectionState) else None
    case PublishOnline(_) => if OnlineIsDue(s) then Due(s, Online) else None
    case ReplaySend(_) => if ReplayIsDue(s) then Some(s.replay.value[0]) else None
    case _ => None
  }

  function Due(s: State, i: Item): Option<(Item, Value)> {
    match s.link.Says(i)
    case None => None
    case Some(v) => if Skipped(s.At(i), v) then None else Some((i, v))
  }

  function OutcomeOf(a: Action): Outcome {
    match a
    case PublishState(o) => o
    case PublishOnline(o) => o
    case ReplaySend(o) => o
    case _ => Sent
  }

  /** What has passed to the broker is the same. */
  predicate SameTraffic(l: Line, m: Line) {
    m.broker == l.broker && m.accepted == l.accepted && m.lost == l.lost
  }

  /** Only a send of its own value, or a new connection, touches the traffic of an item. */
  ghost predicate Touches(s: State, a: Action, i: Item, t: State) {
    match a
    case ConnectionUp(_) => t.alive && t.At(i).accepted.None? && t.At(i).lost == {}
    case ConnectionDies => !t.alive && SameTraffic(s.At(i), t.At(i))
    case _ =>
      && t.alive == s.alive
      && (if Sending(s, a).Some? && Sending(s, a).value.0 == i
          then SameTraffic(Resend(s.At(i), Sending(s, a).value.1, OutcomeOf(a), s.alive), t.At(i))
          else SameTraffic(s.At(i), t.At(i)))
  }

  lemma PassOnTouchesNone(s: State)
    ensures var t := PassOn(s);
      t == s.(holder := t.holder, asserted := t.asserted)
  {
  }

  lemma PublishTouches(s: State, j: Item, o: Outcome, i: Item)
    ensures var t := PublishLink(s, j, o);
      && t.alive == s.alive
      && (if Due(s, j).Some? && i == j then SameTraffic(Resend(s.At(i), Due(s, j).value.1, o, s.alive), t.At(i))
          else SameTraffic(s.At(i), t.At(i)))
  {
    PassOnTouchesNone(s);
    if s.link.Says(j).Some? { PassOnTouchesNone(s.Put(j, Publish(s.At(j), s.link.Says(j).value, o, s.alive))); }
  }

  lemma RecordTouchesNone(s: State, f: Flight, i: Item)
    ensures Land(s, f).alive == s.alive && SameTraffic(s.At(i), Land(s, f).At(i))
  {
    var t := s.(flight := None).Put(f.item, Recorded(s.At(f.item), f.value, f.on < s.conn && s.Fresh()));
    PassOnTouchesNone(t);
  }

  lemma StepTouches(s: State, a: Action, i: Item)
    ensures Touches(s, a, i, Step(s, a))
  {
    match a
    case PublishState(o) => PublishTouches(s, ConnectionState, o, i);
    case PublishOnline(o) => PublishTouches(s, Online, o, i);
    case Record => if s.flight.Some? { RecordTouchesNone(s, s.flight.value, i); }
    case _ =>
  }

  /** A live broker holds the last accepted value, or one whose sending failed since. */
  predicate Known(l: Line, alive: bool) {
    alive && l.accepted.Some? ==> l.broker.Some? && (l.broker == l.accepted || l.broker.value in l.lost)
  }

  lemma {:induction false} KnownInEveryRun(script: seq<Action>, i: Item)
    ensures Known(Run(script).At(i), Run(script).alive)
    decreases |script|
  {
    if script != [] {
      KnownInEveryRun(script[..|script| - 1], i);
      StepTouches(Run(script[..|script| - 1]), script[|script| - 1], i);
    }
  }

  /** An action with the fate of its send replaced where it failed, and with an empty broker where one comes up:
      what the daemon cannot see of it. */
  function Arriving(a: Action, reached: bool): Action {
    match a
    case PublishState(o) => PublishState(if o.Failed? then Failed(reached) else o)
    case PublishOnline(o) => PublishOnline(if o.Failed? then Failed(reached) else o)
    case ReplaySend(o) => ReplaySend(if o.Failed? then Failed(reached) else o)
    case ConnectionUp(_) => ConnectionUp(map[])
    case _ => a
  }

  lemma Append(p: seq<Action>, a: Action)
    ensures Run(p + [a]) == Step(Run(p), a)
  {
    assert (p + [a])[..|p|] == p;
  }

  lemma AppendThree(p: seq<Action>, a: Action, b: Action, c: Action)
    ensures Run(p + [a, b, c]) == Step(Step(Step(Run(p), a), b), c)
  {
    Append(p, a);
    Append(p + [a], b);
    Append(p + [a] + [b], c);
    assert p + [a] + [b] + [c] == p + [a, b, c];
  }

  /** Two runs the daemon cannot tell apart. */
  ghost predicate Alike(p: seq<Action>, q: seq<Action>) {
    |p| == |q| && forall k :: 0 <= k < |p| ==> Arriving(p[k], false) == Arriving(q[k], false)
  }

  function Unseen(l: Line): Line {
    l.(broker := None)
  }

  /** The state without what only the broker knows. */
  function Blind(s: State): State {
    s.(connectionState := Unseen(s.connectionState), online := Unseen(s.online))
  }

  lemma BlindAt(s: State, t: State, i: Item)
    requires Blind(s) == Blind(t)
    ensures Unseen(s.At(i)) == Unseen(t.At(i)) && s.alive == t.alive
  {
  }

  lemma LinesBlind(l: Line, m: Line, v: Value, o: Outcome, p: Outcome, alive: bool)
    requires Unseen(l) == Unseen(m) && (o.Sent? <==> p.Sent?)
    ensures Unseen(Publish(l, v, o, alive)) == Unseen(Publish(m, v, p, alive))
    ensures Unseen(Resend(l, v, o, alive)) == Unseen(Resend(m, v, p, alive))
  {
  }

  lemma BlindPut(s: State, t: State, i: Item, l: Line, m: Line)
    requires Blind(s) == Blind(t) && Unseen(l) == Unseen(m)
    ensures Blind(s.Put(i, l)) == Blind(t.Put(i, m))
  {
  }

  lemma BlindPassOn(s: State, t: State)
    requires Blind(s) == Blind(t)
    ensures Blind(PassOn(s)) == Blind(PassOn(t))
  {
  }

  lemma BlindPublish(s: State, t: State, i: Item, o: Outcome, p: Outcome)
    requires Blind(s) == Blind(t) && (o.Sent? <==> p.Sent?)
    ensures Blind(PublishLink(s, i, o)) == Blind(PublishLink(t, i, p))
  {
    BlindAt(s, t, i);
    BlindPassOn(s, t);
    if s.link.Says(i).Some? {
      var v := s.link.Says(i).value;
      var l, m := Publish(s.At(i), v, o, s.alive), Publish(t.At(i), v, p, t.alive);
      LinesBlind(s.At(i), t.At(i), v, o, p, s.alive);
      BlindPut(s, t, i, l, m);
      BlindPassOn(s.Put(i, l), t.Put(i, m));
    }
  }

  lemma BlindReplay(s: State, t: State, o: Outcome, p: Outcome)
    requires Blind(s) == Blind(t) && (o.Sent? <==> p.Sent?)
    ensures Blind(Step(s, ReplaySend(o))) == Blind(Step(t, ReplaySend(p)))
  {
    if ReplayIsDue(s) {
      var (i, v) := s.replay.value[0];
      var s', t' := s.(replay := Some(s.replay.value[1..])), t.(replay := Some(t.replay.value[1..]));
      BlindAt(s, t, i);
      LinesBlind(s.At(i), t.At(i), v, o, p, s.alive);
      BlindPut(s', t', i, Resend(s.At(i), v, o, s.alive), Resend(t.At(i), v, p, t.alive));
    }
  }

  lemma BlindLand(s: State, t: State, f: Flight)
    requires Blind(s) == Blind(t)
    ensures Blind(Land(s, f)) == Blind(Land(t, f))
  {
    var late := f.on < s.conn && s.Fresh();
    var l, m := Recorded(s.At(f.item), f.value, late), Recorded(t.At(f.item), f.value, late);
    BlindAt(s, t, f.item);
    BlindPut(s.(flight := None), t.(flight := None), f.item, l, m);
    BlindPassOn(s.(flight := None).Put(f.item, l), t.(flight := None).Put(f.item, m));
  }

  lemma {:induction false} BlindSnapshot(s: State, t: State, order: seq<Item>)
    requires Blind(s) == Blind(t)
    ensures Snapshot(s, order) == Snapshot(t, order)
  {
    if order != [] { BlindSnapshot(s, t, order[1..]); }
  }

  lemma BlindStep(s: State, t: State, a: Action, b: Action)
    requires Blind(s) == Blind(t) && Arriving(a, false) == Arriving(b, false)
    ensures Blind(Step(s, a)) == Blind(Step(t, b))
  {
    match a
    case PublishState(o) =>
      BlindPublish(s, t, ConnectionState, o, b.o);
    case PublishOnline(o) =>
      BlindPublish(s, t, Online, o, b.o);
    case ReplaySend(o) => BlindReplay(s, t, o, b.o);
    case ReplayBegin(order) => BlindSnapshot(s, t, order);
    case Record => if s.flight.Some? { BlindLand(s, t, s.flight.value); }
    case _ =>
  }

  /** Runs the daemon cannot tell apart differ in nothing but what the broker holds. */
  lemma {:induction false} AlikeRuns(p: seq<Action>, q: seq<Action>)
    requires Alike(p, q)
    ensures Blind(Run(q)) == Blind(Run(p))
    decreases |p|
  {
    if p != [] {
      var n := |p| - 1;
      AlikeRuns(p[..n], q[..n]);
      BlindStep(Run(p[..n]), Run(q[..n]), p[n], q[n]);
    }
  }

  /** The run in which, of all failed sends, just those of one value of one item arrive. */
  function Reveal(script: seq<Action>, w: Option<(Item, Value)>): seq<Action> {
    if script == [] then []
    else
      var n := |script| - 1;
      Reveal(script[..n], w) + [Arriving(script[n], w.Some? && Sending(Run(script[..n]), script[n]) == w)]
  }

  lemma AlikeSnoc(p: seq<Action>, q: seq<Action>, a: Action, reached: bool)
    requires Alike(p, q)
    ensures Alike(p + [a], q + [Arriving(a, reached)])
  {
    assert Arriving(Arriving(a, reached), false) == Arriving(a, false);
  }

  lemma {:induction false} RevealIsAlike(script: seq<Action>, w: Option<(Item, Value)>)
    ensures Alike(script, Reveal(script, w))
    decreases |script|
  {
    if script != [] {
      var n := |script| - 1;
      RevealIsAlike(script[..n], w);
      AlikeSnoc(script[..n], Reveal(script[..n], w), script[n], w.Some? && Sending(Run(script[..n]), script[n]) == w);
      assert script == script[..n] + [script[n]];
    }
  }

  /** With `w` the value whose failed sends arrive, the broker holds it while it is among the lost ones, and the
      accepted value otherwise. */
  predicate Revealed(l: Line, alive: bool, w: Option<Value>) {
    alive ==> l.broker == if w.Some? && w.value in l.lost then w else l.accepted
  }

  function Of(w: Option<(Item, Value)>, i: Item): Option<Value> {
    if w.Some? && w.value.0 == i then Some(w.value.1) else None
  }

  lemma RevealStep(s: State, a: Action, i: Item, w: Option<(Item, Value)>)
    requires Revealed(s.At(i), s.alive, Of(w, i))
    ensures var t := Step(s, Arriving(a, w.Some? && Sending(s, a) == w));
      Revealed(t.At(i), t.alive, Of(w, i))
  {
    var b := Arriving(a, w.Some? && Sending(s, a) == w);
    StepTouches(s, b, i);
    if b.ConnectionUp? { RevealsAnew(s, b, i); }
  }

  /** A connection comes up with nothing seen of its broker. */
  lemma RevealsAnew(s: State, b: Action, i: Item)
    requires b == ConnectionUp(map[])
    ensures Step(s, b).At(i).broker.None?
  {
  }

  lemma {:induction false} RevealReveals(script: seq<Action>, i: Item, w: Option<(Item, Value)>)
    ensures var t := Run(Reveal(script, w));
      Revealed(t.At(i), t.alive, Of(w, i))
    decreases |script|
  {
    if script != [] {
      var n := |script| - 1;
      RevealReveals(script[..n], i, w);
      RevealGrows(script, w);
      RevealStep(Run(Reveal(script[..n], w)), script[n], i, w);
    }
  }

  /** Each action of the revealing run decides by its own state as the original does by its. */
  lemma RevealGrows(script: seq<Action>, w: Option<(Item, Value)>)
    requires script != []
    ensures var n := |script| - 1;
      var s := Run(Reveal(script[..n], w));
      Run(Reveal(script, w)) == Step(s, Arriving(script[n], w.Some? && Sending(s, script[n]) == w))
  {
    var n := |script| - 1;
    SameSending(script[..n], w, script[n]);
    Append(Reveal(script[..n], w), Arriving(script[n], w.Some? && Sending(Run(script[..n]), script[n]) == w));
  }

  lemma SameSending(script: seq<Action>, w: Option<(Item, Value)>, a: Action)
    ensures Sending(Run(script), a) == Sending(Run(Reveal(script, w)), a)
  {
    RevealIsAlike(script, w);
    AlikeRuns(script, Reveal(script, w));
    BlindSending(Run(script), Run(Reveal(script, w)), a);
  }

  lemma BlindSending(s: State, t: State, a: Action)
    requires Blind(s) == Blind(t)
    ensures Sending(s, a) == Sending(t, a)
  {
  }

  /** Exactly when a value is shown, as far as the daemon can know: the broker holds it in every run the daemon
      cannot tell from this one if and only if the last send accepted on the connection carried it and no send
      that failed since carried another. */
  lemma SurelyShown(script: seq<Action>, i: Item, v: Value)
    requires Run(script).alive
    ensures (forall q :: Alike(script, q) ==> Run(q).At(i).broker == Some(v)) <==> Sure(Run(script).At(i), v)
  {
    if Sure(Run(script).At(i), v) {
      forall q | Alike(script, q) ensures Run(q).At(i).broker == Some(v) {
        AlikeRuns(script, q);
        BlindAt(Run(script), Run(q), i);
        KnownInEveryRun(q, i);
      }
    } else {
      var w := Doubt(Run(script).At(i), i, v);
      var q := Reveal(script, w);
      RevealIsAlike(script, w);
      AlikeRuns(script, q);
      BlindAt(Run(script), Run(q), i);
      RevealReveals(script, i, w);
      assert Run(q).At(i).broker != Some(v);
    }
  }

  /** The failed send that casts the doubt, when it is one. */
  lemma Doubt(l: Line, i: Item, v: Value) returns (w: Option<(Item, Value)>)
    requires !Sure(l, v)
    ensures w.Some? ==> w.value.0 == i && w.value.1 != v && w.value.1 in l.lost
    ensures w.None? ==> l.accepted != Some(v)
  {
    if l.accepted == Some(v) {
      var x :| x in l.lost && x != v;
      w := Some((i, x));
    } else {
      w := None;
    }
  }

  // ----- the link -----

  /** In every interleaving of link changes, lost and failed publishes, late records, reconnects, replays and
      re-assertions: once a re-assertion has run on a live broker connection, take an item whose last publish not
      skipped by the dedup gate did not fail - whatever failed before.  The broker surely reads what the link was
      last declared to be exactly when no success of an earlier connection was recorded after the gate was reset,
      with none accepted since. */
  lemma BrokerShowsTheLink(script: seq<Action>, i: Item)
    requires var s := Run(script);
      s.asserted && s.alive && s.holder.Free? && !s.At(i).failed && s.link.Says(i).Some?
    ensures var s := Run(script);
      && (!s.At(i).stale ==> s.At(i).broker == s.link.Says(i))
      && (!s.At(i).stale <==> forall q :: Alike(script, q) ==> Run(q).At(i).broker == s.link.Says(i))
  {
    Reachable(script);
    KnownInEveryRun(script, i);
    ReadySettled(Run(script), i);
    SurelyShown(script, i, Run(script).link.Says(i).value);
  }

  lemma ReadySettled(s: State, i: Item)
    requires Inv(s) && s.asserted && s.holder.Free?
    ensures ItemSettled(s, i) && Tidy(s.At(i))
  {
    match i
    case ConnectionState =>
    case Online =>
  }

  /** What cannot be promised: that no publish has failed since the re-assertion is not enough.  A value whose
      publish failed may have arrived; when the link then returns to the value before it, the gate still has
      that one, so neither the publish nor the re-assertion sends anything. */
  lemma GateHidesALostPublish(before: string, between: string)
    requires before != between
    ensures var p := Flicker(before, between);
      var s := Run(p + Reassertion());
      && !Run(p).asserted && s.asserted && s.alive && s.holder.Free?
      && s.link.state == Some(before) && s.connectionState.broker == Some(Text(between))
  {
    var p := Flicker(before, between);
    FlickerRuns(before, between);
    AppendThree(p, Reassert, PublishState(Sent), PublishOnline(Sent));
    AssertionSkips(Run(p), before);
  }

  /** An untroubled re-assertion. */
  function Reassertion(): seq<Action> {
    [Reassert, PublishState(Sent), PublishOnline(Sent)]
  }

  lemma AssertionSkips(s: State, v: string)
    requires s.holder.Free? && s.replay.None? && s.flight.None? && s.Fresh() && s.link.state == Some(v)
    requires Skipped(s.connectionState, Text(v))
    requires s.link.online.Some? && Skipped(s.online, Flag(s.link.online.value))
    ensures Step(Step(Step(s, Reassert), PublishState(Sent)), PublishOnline(Sent)) == s.(asserted := true)
  {
  }

  /** The first half of a change of the link, with the fate of its publish, and the second. */
  function StateHalf(st: string, o: Outcome): seq<Action> {
    [OnState(st), PublishState(o), Record]
  }

  function OnlineHalf(): seq<Action> {
    [OnStateOnline, PublishOnline(Sent), Record]
  }

  function Change(st: string, o: Outcome): seq<Action> {
    StateHalf(st, o) + OnlineHalf()
  }

  /** The link goes another way, its publish failing but arriving, and comes back. */
  function Flicker(before: string, between: string): seq<Action> {
    [Reconnect] + Change(before, Sent) + Change(between, Failed(true)) + Change(before, Sent)
  }

  function StateChanged(s: State, st: string, o: Outcome): State {
    Step(Step(Step(s, OnState(st)), PublishState(o)), Record)
  }

  function OnlineChanged(s: State): State {
    Step(Step(Step(s, OnStateOnline), PublishOnline(Sent)), Record)
  }

  lemma ChangeRuns(p: seq<Action>, st: string, o: Outcome)
    ensures Run(p + Change(st, o)) == OnlineChanged(StateChanged(Run(p), st, o))
  {
    AppendThree(p, OnState(st), PublishState(o), Record);
    AppendThree(p + StateHalf(st, o), OnStateOnline, PublishOnline(Sent), Record);
    assert p + StateHalf(st, o) + OnlineHalf() == p + Change(st, o);
  }

  predicate Rested(s: State) {
    s.holder.Free? && s.worker.Idle? && s.replay.None? && s.flight.None? && s.alive && s.Fresh() && !s.asserted
  }

  lemma StateHalfRests(s: State, st: string, o: Outcome)
    requires Rested(s)
    ensures var t := StateChanged(s, st, o);
      && Rested(t.(worker := Idle)) && t.worker == BetweenHalves(st == CONNECTED)
      && t.link == s.link.(state := Some(st))
      && t.connectionState == Published(s.connectionState, Text(st), o, true) && t.online == s.online
  {
  }

  lemma OnlineHalfRests(s: State)
    requires Rested(s.(worker := Idle)) && s.worker.BetweenHalves?
    ensures var t := OnlineChanged(s);
      && Rested(t) && t.link == s.link.(online := Some(s.worker.connected))
      && t.connectionState == s.connectionState && Skipped(t.online, Flag(s.worker.connected))
  {
  }

  lemma ChangeRests(s: State, st: string, o: Outcome)
    requires Rested(s)
    ensures var t := OnlineChanged(StateChanged(s, st, o));
      && Rested(t)
      && t.link == Link(Some(st), Some(st == CONNECTED))
      && t.connectionState == Published(s.connectionState, Text(st), o, true)
      && Skipped(t.online, Flag(st == CONNECTED))
  {
    StateHalfRests(s, st, o);
    OnlineHalfRests(StateChanged(s, st, o));
  }

  lemma ResetRests()
    ensures Run([Reconnect]) == Init().(resetOn := 1)
  {
    var r := [Reconnect];
    assert r[..0] == [] && Run([]) == Init();
    assert Run(r) == Step(Init(), Reconnect);
  }

  lemma FlickerRuns(before: string, between: string)
    requires before != between
    ensures var s := Run(Flicker(before, between));
      && Rested(s) && s.link == Link(Some(before), Some(before == CONNECTED))
      && Skipped(s.connectionState, Text(before)) && Skipped(s.online, Flag(before == CONNECTED))
      && s.connectionState.broker == Some(Text(between))
  {
    var r := [Reconnect];
    ResetRests();
    var r1 := r + Change(before, Sent);
    var r2 := r1 + Change(between, Failed(true));
    ChangeRuns(r, before, Sent);
    ChangeRuns(r1, between, Failed(true));
    ChangeRuns(r2, before, Sent);
    ChangeRests(Run(r), before, Sent);
    ChangeRests(Run(r1), between, Failed(true));
    ChangeRests(Run(r2), before, Sent);
  }

  // ----- what an untroubled replay and re-assertion do -----

  /** A replay leaves no item out that has an accepted value, and invents none. */
  lemma {:induction false} SnapshotIsWhole(s: State, order: seq<Item>, i: Item, v: Value)
    ensures (i, v) in Snapshot(s, order) <==> i in order && s.At(i).index == Some(v)
  {
    if order != [] {
      SnapshotIsWhole(s, order[1..], i, v);
      assert i in order <==> i == order[0] || i in order[1..];
    }
  }

  /** So many items sent and recorded. */
  function Rounds(n: nat): seq<Action> {
    if n == 0 then [] else Rounds(n - 1) + [ReplaySend(Sent), Record]
  }

  /** The first items of the replay are on the broker, and the rest is still to go. */
  predicate Replayed(s: State, t: State, todo: seq<(Item, Value)>, n: nat) {
    && n <= |todo| && t.replay == Some(todo[n..]) && t.flight.None? && t.alive && t.conn == s.conn
    && t.link == s.link && t.holder == s.holder
    && t.connectionState.index == s.connectionState.index && t.online.index == s.online.index
    && (forall k :: 0 <= k < n ==> t.At(todo[k].0).broker == Some(todo[k].1))
  }

  /** What is replayed are last accepted values: two entries for one item agree. */
  predicate Consistent(s: State, todo: seq<(Item, Value)>) {
    forall k :: 0 <= k < |todo| ==> s.At(todo[k].0).index == Some(todo[k].1)
  }

  lemma OneRound(s: State, t: State, todo: seq<(Item, Value)>, n: nat)
    requires Consistent(s, todo) && Replayed(s, t, todo, n) && n < |todo|
    ensures Replayed(s, Step(Step(t, ReplaySend(Sent)), Record), todo, n + 1)
  {
    var (i, v) := todo[n];
    var u := Step(Step(t, ReplaySend(Sent)), Record);
    assert todo[n..][0] == todo[n] && todo[n..][1..] == todo[n + 1..];
    RecordTouchesNone(Step(t, ReplaySend(Sent)), Flight(i, v, t.conn, true), i);
    forall k | 0 <= k < n ensures u.At(todo[k].0).broker == Some(todo[k].1) {
      assert s.At(todo[k].0).index == Some(todo[k].1);
    }
  }

  lemma {:induction false} RoundsReplay(s: State, script: seq<Action>, todo: seq<(Item, Value)>, n: nat)
    requires Consistent(s, todo) && Replayed(s, Run(script), todo, 0) && n <= |todo|
    ensures Replayed(s, Run(script + Rounds(n)), todo, n)
    decreases n
  {
    if n == 0 {
      assert script + Rounds(0) == script;
    } else {
      RoundsReplay(s, script, todo, n - 1);
      var p := script + Rounds(n - 1);
      Append(p, ReplaySend(Sent));
      Append(p + [ReplaySend(Sent)], Record);
      assert p + [ReplaySend(Sent)] + [Record] == script + Rounds(n);
      OneRound(s, Run(p), todo, n - 1);
    }
  }

  lemma ReplayBegun(script: seq<Action>, order: seq<Item>)
    requires var s := Run(script); s.replay.None? && s.flight.None? && s.alive
    ensures var s, todo := Run(script), Snapshot(Run(script), order);
      Consistent(s, todo) && Replayed(s, Run(script + [ReplayBegin(order)]), todo, 0)
  {
    Append(script, ReplayBegin(order));
    var todo := Snapshot(Run(script), order);
    assert todo[0..] == todo;
  }

  /** An untroubled replay on a live connection puts every item it visits that has an accepted value back on the
      broker with just that value, and then lets publishes go on. */
  lemma ReplayReachesTheBroker(script: seq<Action>, order: seq<Item>, i: Item)
    requires var s := Run(script); s.replay.None? && s.flight.None? && s.alive
    requires i in order && Run(script).At(i).index.Some?
    ensures var n := |Snapshot(Run(script), order)|;
      var t := Run(script + [ReplayBegin(order)] + Rounds(n) + [ReplayEnd]);
      t.At(i).broker == Run(script).At(i).index && t.replay.None? && t.flight.None?
  {
    var s, todo := Run(script), Snapshot(Run(script), order);
    ReplayBegun(script, order);
    RoundsReplay(s, script + [ReplayBegin(order)], todo, |todo|);
    Append(script + [ReplayBegin(order)] + Rounds(|todo|), ReplayEnd);
    SnapshotIsWhole(s, order, i, s.At(i).index.value);
    var k :| 0 <= k < |todo| && todo[k] == (i, s.At(i).index.value);
  }

  /** Each item it sends is recorded like any other success: the gate closes behind it. */
  lemma ReplayedIsRecorded(s: State)
    requires ReplayIsDue(s)
    ensures var (i, v) := s.replay.value[0];
      var t := Step(Step(s, ReplaySend(Sent)), Record);
      && t.At(i).gate == Some(v) && t.At(i).index == Some(v)
      && t.flight.None? && t.replay == Some(s.replay.value[1..]) && t.holder == s.holder
  {
  }

  /** A connection finds what the broker retained and has seen none of its own sends; gate and index stay as they
      were until the reset. */
  lemma ConnectionStartsOver(s: State, retained: map<Item, Value>, i: Item, v: Value)
    ensures var t := Step(s, ConnectionUp(retained));
      var l := t.At(i);
      && (l.broker == Some(v) <==> i in retained && retained[i] == v)
      && l == Line(s.At(i).gate, s.At(i).index, l.broker, None, {}, false, false)
  {
  }

  /** One re-assertion behind a reset, with nothing in between and nothing failing. */
  function FreshAssertion(): seq<Action> {
    [Reconnect, Reassert, PublishState(Sent)] + [Record, PublishOnline(Sent), Record]
  }

  /** The first half of it ... */
  lemma StateAsserted(s: State)
    requires s.holder.Free? && s.replay.None? && s.flight.None? && s.alive && s.resetOn <= s.conn
    ensures var t := Step(Step(Step(Step(s, Reconnect), Reassert), PublishState(Sent)), Record);
      && t.holder == AssertingOnline(Some(s.conn)) && t.replay.None? && t.flight.None? && t.alive && t.Fresh()
      && t.conn == s.conn && t.link == s.link && t.online.gate.None?
      && (s.link.state.Some? ==>
            t.connectionState.broker == s.link.Says(ConnectionState)
            && !t.connectionState.failed && !t.connectionState.stale)
  {
  }

  /** ... and the second. */
  lemma OnlineAsserted(s: State)
    requires s.holder == AssertingOnline(Some(s.conn)) && s.replay.None? && s.flight.None? && s.alive && s.Fresh()
    requires s.online.gate.None?
    ensures var t := Step(Step(s, PublishOnline(Sent)), Record);
      && t.asserted && t.holder.Free? && t.link == s.link && t.connectionState == s.connectionState
      && (s.link.online.Some? ==> t.online.broker == s.link.Says(Online) && !t.online.failed && !t.online.stale)
  {
  }

  /** An untroubled re-assertion behind a reset of the gate, on a live connection: both items show what the link
      says, whatever was lost before. */
  lemma ReassertionTakes(script: seq<Action>, i: Item)
    requires var s := Run(script); s.holder.Free? && s.replay.None? && s.flight.None? && s.alive
    ensures var t := Run(script + FreshAssertion());
      && t.asserted && t.holder.Free? && t.link == Run(script).link
      && (t.link.Says(i).Some? ==> t.At(i).broker == t.link.Says(i) && !t.At(i).failed && !t.At(i).stale)
  {
    var s, p := Run(script), script + [Reconnect, Reassert, PublishState(Sent)];
    Reachable(script);
    AppendThree(script, Reconnect, Reassert, PublishState(Sent));
    AppendThree(p, Record, PublishOnline(Sent), Record);
    assert p + [Record, PublishOnline(Sent), Record] == script + FreshAssertion();
    StateAsserted(s);
    OnlineAsserted(Step(Run(p), Record));
  }

  // ----- a record that comes late -----

  /** A publish succeeds on a connection that is then replaced; the gate is reset for the new one before the
      success is recorded. */
  function Straddle(st: string): seq<Action> {
    [Reconnect] + [OnState(st), PublishState(Sent), ConnectionUp(map[])] + [Reconnect, Record] + OnlineHalf()
  }

  function Straddled(s: State, st: string): State {
    Step(Step(Step(Step(Step(s, OnState(st)), PublishState(Sent)), ConnectionUp(map[])), Reconnect), Record)
  }

  lemma StraddleGoesStale(s: State, st: string)
    requires Rested(s) && !Skipped(s.connectionState, Text(st))
    ensures var t := Straddled(s, st);
      && Rested(t.(worker := Idle)) && t.worker == BetweenHalves(st == CONNECTED) && t.link.state == Some(st)
      && Skipped(t.connectionState, Text(st)) && t.connectionState.broker.None?
      && !t.connectionState.failed && t.connectionState.stale
  {
  }

  lemma StraddleRuns(st: string)
    ensures Run(Straddle(st)) == OnlineChanged(Straddled(Run([Reconnect]), st))
  {
    var p := [Reconnect];
    AppendThree(p, OnState(st), PublishState(Sent), ConnectionUp(map[]));
    var q := p + [OnState(st), PublishState(Sent), ConnectionUp(map[])];
    Append(q, Reconnect);
    Append(q + [Reconnect], Record);
    assert q + [Reconnect] + [Record] == q + [Reconnect, Record];
    AppendThree(q + [Reconnect, Record], OnStateOnline, PublishOnline(Sent), Record);
  }

  /** With no publish failing at all, a re-asserted link does not show: the gate holds a value that only the broker
      of the earlier connection was sent, and hides it from the re-assertion. */
  lemma GateHidesALateRecord(st: string)
    ensures var p := Straddle(st);
      var s := Run(p + Reassertion());
      && !Run(p).asserted && s.asserted && s.alive && s.holder.Free? && !s.connectionState.failed
      && s.link.state == Some(st) && s.connectionState.broker.None?
  {
    var p := Straddle(st);
    ResetRests();
    StraddleRuns(st);
    StraddleGoesStale(Run([Reconnect]), st);
    OnlineHalfRests(Straddled(Run([Reconnect]), st));
    AppendThree(p, Reassert, PublishState(Sent), PublishOnline(Sent));
    AssertionSkips(Run(p), st);
  }
}
