// The `<name>/connected` level (setDeviceConnected in internal/bridge/device.go, Reconnect, AnnounceOnline
// and SetConnected in internal/haplane/plane.go).
//
// Appliance workers and the (re)connect hook run concurrently.  linkMu and connMu are exclusive; the swap
// of the discovery runtime holds neither, so a call may be left holding a runtime already replaced.
module FleetLevel {
  import opened Prelude

  const BROKER: nat := 1
  const OPERATIONAL: nat := 2

  /** One appliance is enough to make the instance operational. */
  ghost function LevelFor(linked: map<string, bool>): (r: nat)
    ensures r == OPERATIONAL <==> exists d :: d in linked && linked[d]
    ensures r == BROKER <==> forall d :: d in linked ==> !linked[d]
  {
    if exists d :: d in linked && linked[d] then OPERATIONAL else BROKER
  }

  class Fleet {
    var linked: map<string, bool>

    constructor ()
      ensures linked == map[]
    {
      linked := map[];
    }

    /** The map is visited in whatever order the range yields; the level does not depend on it. */
    method SetDeviceConnected(haID: string, connected: bool, order: seq<string>) returns (level: nat)
      requires Lists(order, linked.Keys + {haID})
      modifies this
      ensures linked == old(linked)[haID := connected]
      ensures level == LevelFor(linked)
    {
      linked := linked[haID := connected];
      level := BROKER;
      for i := 0 to |order|
        invariant level == BROKER
        invariant forall k :: 0 <= k < i ==> order[k] in linked && !linked[order[k]]
      {
        assert order[i] in order;
        if linked[order[i]] {
          level := OPERATIONAL;
          break;
        }
      }
    }
  }

  // ----- the machine -----

  /** linkMu: free, or held by a worker that has computed a level. */
  datatype Worker = Idle | Computed(level: nat)

  /** connMu, with the discovery runtime the holder loaded.  An announcement also carries the connection it
      began on, when Reconnect had already run there. */
  datatype Holder = Free | Setting(rt: nat, level: nat) | Announcing(rt: nat, on: Option<nat>)

  datatype Outcome = Sent | Failed(reached: bool)

  /** `rt` numbers the current runtime and `levels` what each one believes, 1 when it is new.  `announced` and
      `failed` are history: an announcement on the current runtime has succeeded on this connection, and the last
      publish of the level on it failed. */
  datatype State = State(
    linked: map<string, bool>,
    worker: Worker,
    holder: Holder,
    connected: nat,
    rt: nat,
    levels: map<nat, nat>,
    broker: nat,
    alive: bool,
    conn: nat,
    resetOn: nat,
    announced: bool,
    failed: bool)
  {
    function Believes(r: nat): nat {
      if r in levels then levels[r] else BROKER
    }
  }

  datatype Action =
    | LinkChanges(haID: string, up: bool)
    | SetConnected
    | PublishLevel(o: Outcome)
    | AnnounceOnline
    | Reconnect
    | ConnectionDies
    | ConnectionUp(retained: nat)

  function Init(): State {
    State(map[], Idle, Free, BROKER, 0, map[], 0, true, 1, 0, false, false)
  }

  function Write(s: State, level: nat, o: Outcome): State {
    match o
    case Sent => s.(failed := false, broker := if s.alive then level else s.broker)
    case Failed(reached) => s.(failed := true, broker := if s.alive && reached then level else s.broker)
  }

  /** Runtime.SetConnected: a repeat of its own level publishes nothing. */
  function Move(s: State, r: nat, level: nat, o: Outcome): State {
    if s.Believes(r) == level then s else Write(s.(levels := s.levels[r := level]), level, o)
  }

  function Announce(s: State, r: nat, o: Outcome): State {
    if s.connected != BROKER && s.Believes(r) != s.connected then Move(s, r, s.connected, o)
    else Write(s, s.Believes(r), o)
  }

  ghost function Step(s: State, a: Action): State {
    match a
    case LinkChanges(d, up) =>
      if !s.worker.Idle? then s
      else
        var linked := s.linked[d := up];
        s.(linked := linked, worker := Computed(LevelFor(linked)))
    case SetConnected =>
      if !s.worker.Computed? || !s.holder.Free? then s
      else s.(connected := s.worker.level, holder := Setting(s.rt, s.worker.level))
    case PublishLevel(o) =>
      (match s.holder
       case Free => s
       case Setting(r, level) => Move(s, r, level, o).(holder := Free, worker := Idle)
       case Announcing(r, on) =>
         var t := Announce(s, r, o);
         t.(holder := Free, announced := t.announced || (o.Sent? && r == s.rt && on == Some(s.conn))))
    case AnnounceOnline =>
      if !s.holder.Free? then s
      else s.(holder := Announcing(s.rt, if s.resetOn == s.conn then Some(s.conn) else None))
    case Reconnect => s.(rt := s.rt + 1, resetOn := s.conn, announced := false)
    case ConnectionDies => s.(alive := false)
    case ConnectionUp(retained) =>
      s.(alive := true, broker := retained, conn := s.conn + 1, announced := false, failed := false)
  }

  ghost function Run(script: seq<Action>): State {
    if script == [] then Init() else Step(Run(script[..|script| - 1]), script[|script| - 1])
  }

  predicate AnnouncesOn(s: State, on: Option<nat>) {
    s.resetOn <= s.conn && (on.Some? ==> on.value <= s.resetOn)
  }

  /** What the current runtime believes: nothing yet, or the level last asked for - unless that level is
      just being set. */
  predicate RuntimeFollows(s: State) {
    && s.resetOn <= s.conn
    && (forall r :: r in s.levels ==> r <= s.rt)
    && (s.holder.Free? || s.holder.Announcing? ==> s.Believes(s.rt) == BROKER || s.Believes(s.rt) == s.connected)
    && (s.holder.Setting? ==> s.holder.rt <= s.rt && s.holder.level == s.connected)
    && (s.holder.Setting? && s.holder.rt < s.rt ==> s.Believes(s.rt) == BROKER)
    && (s.holder.Announcing? ==> s.holder.rt <= s.rt && AnnouncesOn(s, s.holder.on))
    && (s.holder.Announcing? && s.holder.rt < s.rt ==> s.Believes(s.rt) == BROKER)
  }

  ghost predicate FleetFollows(s: State) {
    && (s.worker.Idle? ==> s.connected == LevelFor(s.linked) && !s.holder.Setting?)
    && (s.worker.Computed? ==> s.worker.level == LevelFor(s.linked))
    && (s.holder.Setting? ==> s.worker == Computed(s.holder.level))
  }

  predicate BrokerFollows(s: State) {
    s.announced ==>
      && s.resetOn == s.conn
      && (s.alive && !s.failed ==> s.broker == s.Believes(s.rt))
      && (s.holder.Setting? || s.holder.Announcing? ==> s.holder.rt == s.rt)
      && (!s.holder.Setting? ==> s.Believes(s.rt) == s.connected)
  }

  ghost predicate Inv(s: State) {
    RuntimeFollows(s) && FleetFollows(s) && BrokerFollows(s)
  }

  lemma SettingKeeps(s: State, o: Outcome)
    requires Inv(s) && s.holder.Setting?
    ensures Inv(Step(s, PublishLevel(o)))
  {
  }

  /** An announcement moves no more than the level its own runtime believes, and that to the remembered one. */
  lemma AnnounceMoves(s: State, r: nat, o: Outcome)
    ensures var t := Announce(s, r, o);
      && t == s.(levels := t.levels, broker := t.broker, failed := t.failed)
      && (t.levels == s.levels || t.levels == s.levels[r := s.connected])
      && (s.Believes(r) == BROKER || s.Believes(r) == s.connected ==> t.Believes(r) == s.connected)
  {
  }

  lemma AnnouncingFollows(s: State, o: Outcome)
    requires Inv(s) && s.holder.Announcing?
    ensures var t := Step(s, PublishLevel(o)); RuntimeFollows(t) && FleetFollows(t)
  {
    AnnounceMoves(s, s.holder.rt, o);
  }

  lemma AnnouncingReaches(s: State, o: Outcome)
    requires Inv(s) && s.holder.Announcing?
    ensures BrokerFollows(Step(s, PublishLevel(o)))
  {
  }

  lemma StepKeeps(s: State, a: Action)
    requires Inv(s)
    ensures Inv(Step(s, a))
  {
    match a
    case PublishLevel(o) =>
      if s.holder.Setting? { SettingKeeps(s, o); }
      if s.holder.Announcing? {
        AnnouncingFollows(s, o);
        AnnouncingReaches(s, o);
      }
    case _ =>
  }

  lemma {:induction false} Reachable(script: seq<Action>)
    ensures Inv(Run(script))
    decreases |script|
  {
    if script != [] {
      Reachable(script[..|script| - 1]);
      StepKeeps(Run(script[..|script| - 1]), script[|script| - 1]);
    }
  }

  /** The remembered level is 2 exactly when some appliance is linked, whatever the broker did and however
      often the runtime was replaced. */
  lemma RememberedLevelIsTheFleets(script: seq<Action>)
    requires Run(script).worker.Idle?
    ensures var s := Run(script);
      s.connected == OPERATIONAL <==> exists d :: d in s.linked && s.linked[d]
  {
    Reachable(script);
  }

  /** Once the level has been announced on a live connection, and unless the last publish of it there failed, the
      broker holds the level the appliances warrant - whatever failed before. */
  lemma BrokerHoldsTheFleetsLevel(script: seq<Action>)
    requires var s := Run(script); s.announced && !s.failed && s.alive && s.worker.Idle? && s.holder.Free?
    ensures Run(script).broker == LevelFor(Run(script).linked)
  {
    Reachable(script);
  }

  // ----- what can always happen -----

  lemma RunTwo(script: seq<Action>, a: Action, b: Action)
    ensures Run(script + [a, b]) == Step(Step(Run(script), a), b)
  {
    assert (script + [a, b])[..|script| + 1] == script + [a];
    assert (script + [a])[..|script|] == script;
  }

  lemma RunThree(script: seq<Action>, a: Action, b: Action, c: Action)
    ensures Run(script + [a, b, c]) == Step(Step(Step(Run(script), a), b), c)
  {
    RunTwo(script, a, b);
    assert (script + [a, b, c])[..|script| + 2] == script + [a, b];
  }

  /** On a live connection whose runtime was replaced, an undisturbed announcement puts the fleet's level on the
      broker, whatever failed before. */
  lemma AnnouncementTakes(script: seq<Action>)
    requires var s := Run(script); s.worker.Idle? && s.holder.Free? && s.alive && s.resetOn == s.conn
    ensures var t := Run(script + [AnnounceOnline, PublishLevel(Sent)]);
      t.announced && !t.failed && t.linked == Run(script).linked && t.broker == LevelFor(t.linked)
  {
    Reachable(script);
    RunTwo(script, AnnounceOnline, PublishLevel(Sent));
    var p := script + [AnnounceOnline, PublishLevel(Sent)];
    Reachable(p);
    assert Run(p).announced && !Run(p).failed && Run(p).alive;
  }

  /** And from then on so does an undisturbed change of any appliance's link. */
  lemma ChangeTakes(script: seq<Action>, haID: string, up: bool)
    requires var s := Run(script);
      s.worker.Idle? && s.holder.Free? && s.alive && s.announced && !s.failed
    ensures var t := Run(script + [LinkChanges(haID, up), SetConnected, PublishLevel(Sent)]);
      && t.linked == Run(script).linked[haID := up]
      && t.worker.Idle? && t.holder.Free? && t.announced && !t.failed && t.broker == LevelFor(t.linked)
  {
    Reachable(script);
    RunThree(script, LinkChanges(haID, up), SetConnected, PublishLevel(Sent));
    Reachable(script + [LinkChanges(haID, up), SetConnected, PublishLevel(Sent)]);
  }

  /** What a reconnect does to both: the gate of the announcement is shut until the runtime has been replaced. */
  lemma ConnectionsAreTold(s: State, retained: nat)
    requires s.holder.Free? && s.resetOn <= s.conn
    ensures var t := Step(s, ConnectionUp(retained));
      && t.alive && t.broker == retained && !t.announced
      && Step(t, AnnounceOnline).holder == Announcing(t.rt, None)
      && Step(Step(t, Reconnect), AnnounceOnline).holder == Announcing(s.rt + 1, Some(t.conn))
  {
  }

  /** A publish that fails may have arrived all the same. */
  lemma FailedMayArrive(s: State, level: nat, reached: bool)
    ensures Write(s, level, Failed(reached)).broker == if s.alive && reached then level else s.broker
    ensures Write(s, level, Failed(reached)).failed
  {
  }
}
