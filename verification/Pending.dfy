// Request/response correlation of the session (internal/homeconnect/session.go).
//
// Callers of sendSync, dispatching receive loops, failPending and resetState share one table from
// message id to a channel of capacity one.  One action is one critical section or one channel
// operation; an action whose guard does not hold changes nothing, so a sequence of actions is an
// interleaving.  Closing a closed channel, sending on a closed one and a send that would block are
// recorded as faults instead of being left out of the model.
module Pending {
  import opened Prelude

  type Id = int
  type Chan = nat
  type Call = nat
  type Loop = nat

  datatype Response = Response(msgID: Id, body: string)

  /** A channel made by one sendSync call: the id it was registered under, what was ever sent on it,
      what was received from it, and whether it is closed. */
  datatype ChanState = ChanState(id: Id, sent: seq<Response>, received: nat, closed: bool)

  datatype Fault = CloseOfClosed | SendOnClosed | SendBlocks

  /** pending, together with every channel it ever pointed to. */
  datatype Table = Table(pending: map<Id, Chan>, chans: seq<ChanState>, faults: seq<Fault>)

  datatype Outcome = Replied(r: Response) | ConnectionClosed | GaveUp

  datatype CallPC =
    | NotCalled
    | Resolved(id: Id)
    | Registered(id: Id, ch: Chan)
    | Waiting(id: Id, ch: Chan)
    | Returning(id: Id, ch: Chan, outcome: Outcome)
    | Finished(id: Id, outcome: Outcome)

  datatype LoopPC = Reading | Took(m: Response, ch: Chan)

  /** `seeded` and `handedOut` are history: the ids handed out since the handshake set lastMsgID. */
  datatype State = State(
    table: Table,
    calls: map<Call, CallPC>,
    loops: map<Loop, LoopPC>,
    lastMsgID: Id,
    seeded: bool,
    handedOut: seq<Id>)
  {
    function CallAt(c: Call): CallPC {
      if c in calls then calls[c] else NotCalled
    }

    function LoopAt(l: Loop): LoopPC {
      if l in loops then loops[l] else Reading
    }
  }

  datatype Action =
    | Resolve(c: Call, given: Id)
    | Register(c: Call)
    | SendRequest(c: Call, ok: bool)
    | Receive(c: Call)
    | GiveUp(c: Call)
    | Cleanup(c: Call)
    | Take(l: Loop, m: Response)
    | Deliver(l: Loop)
    | FailPending(order: seq<Id>)
    | ResetIds
    | ResetPending(order: seq<Id>)
    | Seed(edMsgID: Id)

  // ----- the table -----

  /** close(ch) */
  function Close(t: Table, ch: Chan): Table {
    if ch >= |t.chans| then t
    else if t.chans[ch].closed then t.(faults := t.faults + [CloseOfClosed])
    else t.(chans := t.chans[ch := t.chans[ch].(closed := true)])
  }

  /** ch <- m, on a channel of capacity one */
  function Send(t: Table, ch: Chan, m: Response): Table {
    if ch >= |t.chans| then t
    else
      var c := t.chans[ch];
      if c.closed then t.(faults := t.faults + [SendOnClosed])
      else if |c.sent| >= c.received + 1 then t.(faults := t.faults + [SendBlocks])
      else t.(chans := t.chans[ch := c.(sent := c.sent + [m])])
  }

  function CloseAll(t: Table, ids: seq<Id>): Table {
    if ids == [] then t
    else
      var t' := CloseAll(t, ids[..|ids| - 1]);
      var id := ids[|ids| - 1];
      if id in t'.pending then Close(t', t'.pending[id]).(pending := t'.pending - {id}) else t'
  }

  /** Closing what is closed, sending on what is closed, and a send that nobody would take are never passed over. */
  lemma FaultsAreRecorded(t: Table, ch: Chan, m: Response)
    requires ch < |t.chans|
    ensures var c := t.chans[ch];
      && Close(t, ch).faults == t.faults + (if c.closed then [CloseOfClosed] else [])
      && Send(t, ch, m).faults ==
           t.faults + (if c.closed then [SendOnClosed] else if |c.sent| > c.received then [SendBlocks] else [])
  {
  }

  /** takePending: looked up and taken out in one step. */
  function TakeOut(t: Table, msgID: Id): (Table, Option<Chan>) {
    if msgID in t.pending then (t.(pending := t.pending - {msgID}), Some(t.pending[msgID])) else (t, None)
  }

  /** The id a message goes out under, and the counter after it: a given id is kept. */
  function Assign(given: Id, last: Id): (Id, Id) {
    if given != 0 then (given, last) else (last, last + 1)
  }

  /** The table invariant: a pending channel is open, unused and registered under its own key. */
  ghost predicate Sound(t: Table) {
    && t.faults == []
    && (forall id :: id in t.pending ==> Usable(t, t.pending[id]) && t.chans[t.pending[id]].id == id)
    && (forall ch: Chan :: ch < |t.chans| ==>
          && t.chans[ch].received <= |t.chans[ch].sent| <= 1
          && (forall m :: m in t.chans[ch].sent ==> m.msgID == t.chans[ch].id))
  }

  predicate Usable(t: Table, ch: Chan) {
    ch < |t.chans| && !t.chans[ch].closed && t.chans[ch].sent == []
  }

  lemma {:induction false} CloseAllIsSafe(t: Table, ids: seq<Id>)
    requires Sound(t)
    ensures var t' := CloseAll(t, ids);
            && Sound(t')
            && |t'.chans| == |t.chans|
            && t'.pending.Keys == t.pending.Keys - (set id | id in ids)
            && (forall id :: id in t'.pending ==> t'.pending[id] == t.pending[id])
            && (forall ch: Chan :: ch < |t.chans| ==>
                  var was, now := t.chans[ch], t'.chans[ch];
                  now == was || (was.id in t.pending && t.pending[was.id] == ch && was.id in ids
                      && now == was.(closed := true)))
    decreases |ids|
  {
    if ids != [] {
      var id := ids[|ids| - 1];
      CloseAllIsSafe(t, ids[..|ids| - 1]);
      assert ids == ids[..|ids| - 1] + [id];
    }
  }

  lemma {:induction false} CloseAllCloses(t: Table, ids: seq<Id>)
    requires Sound(t)
    ensures var t' := CloseAll(t, ids);
            forall id :: id in t.pending && id in ids ==>
              t.pending[id] < |t'.chans| && t'.chans[t.pending[id]] == t.chans[t.pending[id]].(closed := true)
    decreases |ids|
  {
    if ids != [] {
      var init := ids[..|ids| - 1];
      CloseAllIsSafe(t, init);
      CloseAllCloses(t, init);
      assert ids == init + [ids[|ids| - 1]];
    }
  }

  // ----- the machine -----

  function Init(): State {
    State(Table(map[], [], []), map[], map[], 0, false, [])
  }

  function Step(s: State, a: Action): State {
    match a
    case Resolve(c, given) =>
      if !s.CallAt(c).NotCalled? then s
      else
        var (id, next) := Assign(given, s.lastMsgID);
        s.(calls := s.calls[c := Resolved(id)],
           lastMsgID := next,
           handedOut := if s.seeded && given == 0 then s.handedOut + [id] else s.handedOut)
    case Register(c) =>
      if !s.CallAt(c).Resolved? then s
      else
        var id, ch := s.CallAt(c).id, |s.table.chans|;
        s.(table := s.table.(pending := s.table.pending[id := ch],
                             chans := s.table.chans + [ChanState(id, [], 0, false)]),
           calls := s.calls[c := Registered(id, ch)])
    case SendRequest(c, ok) =>
      if !s.CallAt(c).Registered? then s
      else
        var pc := s.CallAt(c);
        s.(calls := s.calls[c := if ok then Waiting(pc.id, pc.ch) else Returning(pc.id, pc.ch, GaveUp)])
    case Receive(c) =>
      if !s.CallAt(c).Waiting? || s.CallAt(c).ch >= |s.table.chans| then s
      else
        var pc := s.CallAt(c);
        var ch := s.table.chans[pc.ch];
        if ch.received < |ch.sent| then
          s.(table := s.table.(chans := s.table.chans[pc.ch := ch.(received := ch.received + 1)]),
             calls := s.calls[c := Returning(pc.id, pc.ch, Replied(ch.sent[ch.received]))])
        else if ch.closed then s.(calls := s.calls[c := Returning(pc.id, pc.ch, ConnectionClosed)])
        else s
    case GiveUp(c) =>
      if !s.CallAt(c).Waiting? then s
      else s.(calls := s.calls[c := Returning(s.CallAt(c).id, s.CallAt(c).ch, GaveUp)])
    case Cleanup(c) =>
      if !s.CallAt(c).Returning? then s
      else
        var pc := s.CallAt(c);
        s.(table := s.table.(pending := s.table.pending - {pc.id}), calls := s.calls[c := Finished(pc.id, pc.outcome)])
    case Take(l, m) =>
      if !s.LoopAt(l).Reading? then s
      else
        var (t, ch) := TakeOut(s.table, m.msgID);
        if ch.None? then s else s.(table := t, loops := s.loops[l := Took(m, ch.value)])
    case Deliver(l) =>
      if !s.LoopAt(l).Took? then s
      else s.(table := Send(s.table, s.LoopAt(l).ch, s.LoopAt(l).m), loops := s.loops[l := Reading])
    case FailPending(order) =>
      if Lists(order, s.table.pending.Keys) then s.(table := CloseAll(s.table, order)) else s
    case ResetPending(order) =>
      if Lists(order, s.table.pending.Keys) then s.(table := CloseAll(s.table, order)) else s
    case ResetIds => s.(lastMsgID := 0, seeded := false, handedOut := [])
    case Seed(id) => s.(lastMsgID := id, seeded := true, handedOut := [])
  }

  function Run(script: seq<Action>): State {
    if script == [] then Init() else Step(Run(script[..|script| - 1]), script[|script| - 1])
  }

  /** A loop between takePending and its send owns an open, unused channel that nobody else can reach. */
  ghost predicate LoopsOwn(s: State) {
    && (forall l: Loop :: s.LoopAt(l).Took? ==>
          var pc := s.LoopAt(l);
          && Usable(s.table, pc.ch)
          && s.table.chans[pc.ch].id == pc.m.msgID
          && (forall id :: id in s.table.pending ==> s.table.pending[id] != pc.ch))
    && (forall l: Loop, k: Loop :: s.LoopAt(l).Took? && s.LoopAt(k).Took? && s.LoopAt(l).ch == s.LoopAt(k).ch ==>
        l == k)
  }

  ghost predicate CallsMatch(s: State) {
    forall c: Call ::
      var pc := s.CallAt(c);
      && (pc.Registered? || pc.Waiting? || pc.Returning? ==>
          pc.ch < |s.table.chans| && s.table.chans[pc.ch].id == pc.id)
      && ((pc.Returning? || pc.Finished?) && pc.outcome.Replied? ==> pc.outcome.r.msgID == pc.id)
  }

  /** Ids come out of one counter: the ones since seeding are consecutive, ending just below the next. */
  ghost predicate Fresh(s: State) {
    && (s.seeded ==> forall i :: 0 <= i < |s.handedOut| ==> s.handedOut[i] == s.lastMsgID - |s.handedOut| + i)
    && (!s.seeded ==> s.handedOut == [])
  }

  ghost predicate Inv(s: State) {
    Sound(s.table) && LoopsOwn(s) && CallsMatch(s) && Fresh(s)
  }

  predicate Acts(a: Action, c: Call) {
    (a.Resolve? || a.Register? || a.SendRequest? || a.Receive? || a.GiveUp? || a.Cleanup?) && a.c == c
  }

  predicate Runs(a: Action, l: Loop) {
    (a.Take? || a.Deliver?) && a.l == l
  }

  lemma OthersStay(s: State, a: Action)
    ensures forall c: Call :: !Acts(a, c) ==> Step(s, a).CallAt(c) == s.CallAt(c)
    ensures forall l: Loop :: !Runs(a, l) ==> Step(s, a).LoopAt(l) == s.LoopAt(l)
  {
  }

  lemma StepCloseAll(s: State, a: Action)
    requires Inv(s) && (a.FailPending? || a.ResetPending?)
    ensures Inv(Step(s, a))
    ensures Lists(a.order, s.table.pending.Keys) ==> Step(s, a).table.pending == map[]
  {
    OthersStay(s, a);
    CloseAllIsSafe(s.table, a.order);
  }

  lemma StepTake(s: State, a: Action)
    requires Inv(s) && a.Take?
    ensures Inv(Step(s, a))
  {
    OthersStay(s, a);
  }

  lemma StepDeliver(s: State, a: Action)
    requires Inv(s) && a.Deliver?
    ensures Inv(Step(s, a))
  {
    OthersStay(s, a);
  }

  lemma ReceivedIsSound(t: Table, ch: Chan)
    requires Sound(t) && ch < |t.chans| && t.chans[ch].received < |t.chans[ch].sent|
    ensures Sound(t.(chans := t.chans[ch := t.chans[ch].(received := t.chans[ch].received + 1)]))
  {
  }

  lemma StepReceive(s: State, a: Action)
    requires Inv(s) && a.Receive?
    ensures Inv(Step(s, a))
  {
    OthersStay(s, a);
    var pc := s.CallAt(a.c);
    if pc.Waiting? && s.table.chans[pc.ch].received < |s.table.chans[pc.ch].sent| {
      var t := s.table;
      ReceivedIsSound(t, pc.ch);
      var t' := Step(s, a).table;
      assert forall ch: Chan :: ch < |t.chans| ==> t'.chans[ch].(received := 0) == t.chans[ch].(received := 0);
    }
  }

  lemma StepCall(s: State, a: Action)
    requires Inv(s) && (a.SendRequest? || a.GiveUp? || a.Cleanup?)
    ensures Inv(Step(s, a))
  {
    OthersStay(s, a);
  }

  lemma StepRegister(s: State, a: Action)
    requires Inv(s) && a.Register?
    ensures Inv(Step(s, a))
  {
    OthersStay(s, a);
  }

  lemma StepIds(s: State, a: Action)
    requires Inv(s) && (a.Resolve? || a.ResetIds? || a.Seed?)
    ensures Inv(Step(s, a))
  {
    OthersStay(s, a);
  }

  lemma {:induction false} Reachable(script: seq<Action>)
    ensures Inv(Run(script))
    decreases |script|
  {
    if script != [] {
      var s, a := Run(script[..|script| - 1]), script[|script| - 1];
      Reachable(script[..|script| - 1]);
      match a
      case FailPending(_) => StepCloseAll(s, a);
      case ResetPending(_) => StepCloseAll(s, a);
      case Take(_, _) => StepTake(s, a);
      case Deliver(_) => StepDeliver(s, a);
      case Receive(_) => StepReceive(s, a);
      case SendRequest(_, _) => StepCall(s, a);
      case GiveUp(_) => StepCall(s, a);
      case Cleanup(_) => StepCall(s, a);
      case Register(_) => StepRegister(s, a);
      case Resolve(_, _) => StepIds(s, a);
      case ResetIds => StepIds(s, a);
      case Seed(_) => StepIds(s, a);
    }
  }

  /** In every interleaving, reconnects included: no channel is closed twice or sent on after its close,
      no dispatching send blocks, and no channel carries more than one message. */
  lemma ChannelsAreSafe(script: seq<Action>)
    ensures Run(script).table.faults == []
    ensures forall ch: Chan :: ch < |Run(script).table.chans| ==> |Run(script).table.chans[ch].sent| <= 1
  {
    Reachable(script);
  }

  /** A response sendSync returns carries the id of the request it was returned for. */
  lemma ResponseCarriesRequestId(script: seq<Action>, c: Call)
    requires var pc := Run(script).CallAt(c); (pc.Returning? || pc.Finished?) && pc.outcome.Replied?
    ensures Run(script).CallAt(c).outcome.r.msgID == Run(script).CallAt(c).id
  {
    Reachable(script);
  }

  /** From the handshake's seeding of lastMsgID to the next reset, no id is handed out twice. */
  lemma AllocatedIdsDistinct(script: seq<Action>, i: nat, j: nat)
    requires i < j < |Run(script).handedOut|
    ensures Run(script).handedOut[i] != Run(script).handedOut[j]
  {
    Reachable(script);
  }

  // ----- a response reaches its caller -----

  lemma Append(script: seq<Action>, a: Action)
    ensures Run(script + [a]) == Step(Run(script), a)
  {
    assert (script + [a])[..|script|] == script;
  }

  predicate HasChannel(pc: CallPC) {
    pc.Registered? || pc.Waiting? || pc.Returning?
  }

  /** Every call has made a channel of its own. */
  ghost predicate ChannelsAreOwn(s: State) {
    && (forall c: Call :: HasChannel(s.CallAt(c)) ==> s.CallAt(c).ch < |s.table.chans|)
    && (forall c: Call, d: Call ::
          HasChannel(s.CallAt(c)) && HasChannel(s.CallAt(d)) && s.CallAt(c).ch == s.CallAt(d).ch ==> c == d)
  }

  lemma {:induction false} CloseAllKeepsChannels(t: Table, ids: seq<Id>)
    ensures |CloseAll(t, ids).chans| == |t.chans|
    decreases |ids|
  {
    if ids != [] { CloseAllKeepsChannels(t, ids[..|ids| - 1]); }
  }

  lemma StepKeepsChannelsOwn(s: State, a: Action)
    requires ChannelsAreOwn(s)
    ensures ChannelsAreOwn(Step(s, a))
  {
    OthersStay(s, a);
    if a.FailPending? || a.ResetPending? { CloseAllKeepsChannels(s.table, a.order); }
  }

  lemma {:induction false} EveryChannelIsOwn(script: seq<Action>)
    ensures ChannelsAreOwn(Run(script))
    decreases |script|
  {
    if script != [] {
      EveryChannelIsOwn(script[..|script| - 1]);
      StepKeepsChannelsOwn(Run(script[..|script| - 1]), script[|script| - 1]);
    }
  }

  /** The call waits, and its channel is the one pending under its id. */
  predicate Awaits(s: State, c: Call, id: Id, ch: Chan) {
    s.CallAt(c) == Waiting(id, ch) && id in s.table.pending && s.table.pending[id] == ch
  }

  /** A loop has taken the response out and is about to hand it over. */
  predicate Carries(s: State, c: Call, l: Loop, m: Response, ch: Chan) {
    s.CallAt(c) == Waiting(m.msgID, ch) && s.LoopAt(l) == Took(m, ch)
  }

  /** The response lies in the call's channel. */
  predicate Holds(s: State, c: Call, m: Response, ch: Chan) {
    && s.CallAt(c) == Waiting(m.msgID, ch)
    && ch < |s.table.chans| && s.table.chans[ch].sent == [m] && s.table.chans[ch].received == 0
  }

  /** The failure of the connection lies there instead. */
  predicate Closed(s: State, c: Call, id: Id, ch: Chan) {
    && s.CallAt(c) == Waiting(id, ch)
    && ch < |s.table.chans| && s.table.chans[ch].closed && s.table.chans[ch].sent == []
  }

  /** The steps that neither belong to the call nor touch what is pending under its id. */
  predicate LeavesPending(a: Action, c: Call, id: Id, s: State) {
    && !Acts(a, c) && !a.FailPending? && !a.ResetPending?
    && !(a.Take? && a.m.msgID == id)
    && !(a.Register? && s.CallAt(a.c).Resolved? && s.CallAt(a.c).id == id)
    && !(a.Cleanup? && s.CallAt(a.c).Returning? && s.CallAt(a.c).id == id)
  }

  lemma AwaitsStays(s: State, a: Action, c: Call, id: Id, ch: Chan)
    requires Awaits(s, c, id, ch) && LeavesPending(a, c, id, s)
    ensures Awaits(Step(s, a), c, id, ch)
  {
    OthersStay(s, a);
  }

  lemma TakenIsCarried(s: State, c: Call, l: Loop, m: Response, ch: Chan)
    requires Awaits(s, c, m.msgID, ch) && s.LoopAt(l).Reading?
    ensures Carries(Step(s, Take(l, m)), c, l, m, ch)
  {
  }

  lemma CarriesStays(s: State, a: Action, c: Call, l: Loop, m: Response, ch: Chan)
    requires Carries(s, c, l, m, ch) && !Acts(a, c) && !Runs(a, l)
    ensures Carries(Step(s, a), c, l, m, ch)
  {
    OthersStay(s, a);
  }

  lemma DeliveredIsHeld(s: State, c: Call, l: Loop, m: Response, ch: Chan)
    requires Inv(s) && Carries(s, c, l, m, ch)
    ensures Holds(Step(s, Deliver(l)), c, m, ch)
  {
    assert Usable(s.table, ch);
  }

  lemma HoldsStays(s: State, a: Action, c: Call, m: Response, ch: Chan)
    requires Inv(s) && ChannelsAreOwn(s) && Holds(s, c, m, ch) && !Acts(a, c)
    ensures Holds(Step(s, a), c, m, ch)
  {
    OthersStay(s, a);
    if a.FailPending? || a.ResetPending? { CloseAllIsSafe(s.table, a.order); }
  }

  lemma HeldIsReceived(s: State, c: Call, m: Response, ch: Chan)
    requires Holds(s, c, m, ch)
    ensures Step(s, Receive(c)).CallAt(c) == Returning(m.msgID, ch, Replied(m))
    ensures Step(s, Receive(c)).table.chans[ch].received == 1
  {
  }

  predicate OthersAct(steps: seq<Action>, c: Call) {
    forall i :: 0 <= i < |steps| ==> !Acts(steps[i], c)
  }

  predicate OthersRun(steps: seq<Action>, l: Loop) {
    forall i :: 0 <= i < |steps| ==> !Runs(steps[i], l)
  }

  lemma CarriesNext(script: seq<Action>, a: Action, c: Call, l: Loop, m: Response, ch: Chan)
    requires Carries(Run(script), c, l, m, ch) && !Acts(a, c) && !Runs(a, l)
    ensures Carries(Run(script + [a]), c, l, m, ch)
  {
    Append(script, a);
    CarriesStays(Run(script), a, c, l, m, ch);
  }

  lemma HoldsNext(script: seq<Action>, a: Action, c: Call, m: Response, ch: Chan)
    requires Holds(Run(script), c, m, ch) && !Acts(a, c)
    ensures Holds(Run(script + [a]), c, m, ch)
  {
    Reachable(script);
    EveryChannelIsOwn(script);
    Append(script, a);
    HoldsStays(Run(script), a, c, m, ch);
  }

  lemma {:induction false} CarriesOn(script: seq<Action>, steps: seq<Action>, c: Call, l: Loop, m: Response, ch: Chan)
    requires Carries(Run(script), c, l, m, ch) && OthersAct(steps, c) && OthersRun(steps, l)
    ensures Carries(Run(script + steps), c, l, m, ch)
    decreases |steps|
  {
    if steps == [] {
      assert script + steps == script;
    } else {
      var n := |steps| - 1;
      CarriesOn(script, steps[..n], c, l, m, ch);
      CarriesNext(script + steps[..n], steps[n], c, l, m, ch);
      assert script + steps[..n] + [steps[n]] == script + steps;
    }
  }

  lemma {:induction false} HoldsOn(script: seq<Action>, steps: seq<Action>, c: Call, m: Response, ch: Chan)
    requires Holds(Run(script), c, m, ch) && OthersAct(steps, c)
    ensures Holds(Run(script + steps), c, m, ch)
    decreases |steps|
  {
    if steps == [] {
      assert script + steps == script;
    } else {
      var n := |steps| - 1;
      HoldsOn(script, steps[..n], c, m, ch);
      HoldsNext(script + steps[..n], steps[n], c, m, ch);
      assert script + steps[..n] + [steps[n]] == script + steps;
    }
  }

  /** A request that was registered and sent waits under its id. */
  lemma SentIsAwaited(script: seq<Action>, c: Call)
    requires Run(script).CallAt(c).Resolved?
    ensures var id, ch := Run(script).CallAt(c).id, |Run(script).table.chans|;
      Awaits(Run(script + [Register(c)] + [SendRequest(c, true)]), c, id, ch)
  {
    Append(script, Register(c));
    Append(script + [Register(c)], SendRequest(c, true));
  }

  /** Over every run: a response taken up while the call waits under its id is what the call returns, whatever the
      other calls and loops, reconnects and resets do in between. */
  lemma ResponseReachesItsCaller(script: seq<Action>, c: Call, ch: Chan, l: Loop, m: Response,
      carrying: seq<Action>, holding: seq<Action>)
    requires Awaits(Run(script), c, m.msgID, ch) && Run(script).LoopAt(l).Reading?
    requires OthersAct(carrying, c) && OthersRun(carrying, l) && OthersAct(holding, c)
    ensures Run(script + [Take(l, m)] + carrying + [Deliver(l)] + holding + [Receive(c)]).CallAt(c)
         == Returning(m.msgID, ch, Replied(m))
  {
    var taken := script + [Take(l, m)];
    Append(script, Take(l, m));
    TakenIsCarried(Run(script), c, l, m, ch);
    CarriesOn(taken, carrying, c, l, m, ch);
    Reachable(taken + carrying);
    Append(taken + carrying, Deliver(l));
    DeliveredIsHeld(Run(taken + carrying), c, l, m, ch);
    var delivered := taken + carrying + [Deliver(l)];
    HoldsOn(delivered, holding, c, m, ch);
    Append(delivered + holding, Receive(c));
    HeldIsReceived(Run(delivered + holding), c, m, ch);
  }

  ghost predicate AllLeavePending(script: seq<Action>, steps: seq<Action>, c: Call, id: Id) {
    steps == [] ||
      var n := |steps| - 1;
      && AllLeavePending(script, steps[..n], c, id)
      && LeavesPending(steps[n], c, id, Run(script + steps[..n]))
  }

  lemma AwaitsNext(script: seq<Action>, a: Action, c: Call, id: Id, ch: Chan)
    requires Awaits(Run(script), c, id, ch) && LeavesPending(a, c, id, Run(script))
    ensures Awaits(Run(script + [a]), c, id, ch)
  {
    Append(script, a);
    AwaitsStays(Run(script), a, c, id, ch);
  }

  /** The wait under an id lasts until somebody touches what is pending under it. */
  lemma {:induction false} AwaitsOn(script: seq<Action>, steps: seq<Action>, c: Call, id: Id, ch: Chan)
    requires Awaits(Run(script), c, id, ch) && AllLeavePending(script, steps, c, id)
    ensures Awaits(Run(script + steps), c, id, ch)
    decreases |steps|
  {
    if steps == [] {
      assert script + steps == script;
    } else {
      var n := |steps| - 1;
      AwaitsOn(script, steps[..n], c, id, ch);
      AwaitsNext(script + steps[..n], steps[n], c, id, ch);
      assert script + steps[..n] + [steps[n]] == script + steps;
    }
  }

  lemma FailedIsClosed(s: State, c: Call, id: Id, ch: Chan, a: Action)
    requires Inv(s) && Awaits(s, c, id, ch)
    requires (a.FailPending? || a.ResetPending?) && Lists(a.order, s.table.pending.Keys)
    ensures Closed(Step(s, a), c, id, ch)
  {
    CloseAllCloses(s.table, a.order);
  }

  lemma ClosedStays(s: State, a: Action, c: Call, id: Id, ch: Chan)
    requires Inv(s) && ChannelsAreOwn(s) && Closed(s, c, id, ch) && !Acts(a, c)
    ensures Closed(Step(s, a), c, id, ch)
  {
    OthersStay(s, a);
    if a.FailPending? || a.ResetPending? { CloseAllIsSafe(s.table, a.order); }
  }

  lemma ClosedNext(script: seq<Action>, a: Action, c: Call, id: Id, ch: Chan)
    requires Closed(Run(script), c, id, ch) && !Acts(a, c)
    ensures Closed(Run(script + [a]), c, id, ch)
  {
    Reachable(script);
    EveryChannelIsOwn(script);
    Append(script, a);
    ClosedStays(Run(script), a, c, id, ch);
  }

  lemma {:induction false} ClosedOn(script: seq<Action>, steps: seq<Action>, c: Call, id: Id, ch: Chan)
    requires Closed(Run(script), c, id, ch) && OthersAct(steps, c)
    ensures Closed(Run(script + steps), c, id, ch)
    decreases |steps|
  {
    if steps == [] {
      assert script + steps == script;
    } else {
      var n := |steps| - 1;
      ClosedOn(script, steps[..n], c, id, ch);
      ClosedNext(script + steps[..n], steps[n], c, id, ch);
      assert script + steps[..n] + [steps[n]] == script + steps;
    }
  }

  /** And a call that waits when the connection fails or is reset learns that, and does not wait on. */
  lemma FailureReachesEveryCaller(script: seq<Action>, c: Call, id: Id, ch: Chan, a: Action, closing: seq<Action>)
    requires Awaits(Run(script), c, id, ch) && OthersAct(closing, c)
    requires (a.FailPending? || a.ResetPending?) && Lists(a.order, Run(script).table.pending.Keys)
    ensures Run(script + [a] + closing + [Receive(c)]).CallAt(c) == Returning(id, ch, ConnectionClosed)
  {
    Reachable(script);
    Append(script, a);
    FailedIsClosed(Run(script), c, id, ch, a);
    ClosedOn(script + [a], closing, c, id, ch);
    Append(script + [a] + closing, Receive(c));
  }

  predicate Reseeds(a: Action) {
    a.Seed? || a.ResetIds?
  }

  ghost predicate CountsFrom(s: State, id: Id) {
    && s.seeded && s.lastMsgID == id + |s.handedOut|
    && forall i :: 0 <= i < |s.handedOut| ==> s.handedOut[i] == id + i
  }

  lemma CountGoesOn(s: State, a: Action, id: Id)
    requires CountsFrom(s, id) && !Reseeds(a)
    ensures CountsFrom(Step(s, a), id)
  {
  }

  /** Ids are counted up from the one the handshake gave: none is skipped. */
  lemma {:induction false} IdsCountFromTheSeed(script: seq<Action>, id: Id, steps: seq<Action>)
    requires forall i :: 0 <= i < |steps| ==> !Reseeds(steps[i])
    ensures CountsFrom(Run(script + [Seed(id)] + steps), id)
    decreases |steps|
  {
    var p := script + [Seed(id)];
    if steps == [] {
      Append(script, Seed(id));
      assert p + steps == p;
    } else {
      var n := |steps| - 1;
      IdsCountFromTheSeed(script, id, steps[..n]);
      Append(p + steps[..n], steps[n]);
      CountGoesOn(Run(p + steps[..n]), steps[n], id);
      assert p + steps[..n] + [steps[n]] == p + steps;
    }
  }

  // ----- the critical sections as the session runs them -----

  class Session {
    var pending: map<Id, Chan>
    var chans: seq<ChanState>
    var faults: seq<Fault>
    var lastMsgID: Id

    function Shared(): Table
      reads this
    {
      Table(pending, chans, faults)
    }

    constructor ()
      ensures Shared() == Init().table && lastMsgID == 0
    {
      pending, chans, faults, lastMsgID := map[], [], [], 0;
    }

    /** The id half of resolveDefaults. */
    method ResolveMsgID(given: Id) returns (id: Id)
      modifies this`lastMsgID
      ensures (id, lastMsgID) == Assign(given, old(lastMsgID))
      ensures given != 0 ==> id == given && lastMsgID == old(lastMsgID)
      ensures given == 0 ==> id == old(lastMsgID) && lastMsgID == old(lastMsgID) + 1
    {
      id := given;
      if id == 0 {
        id := lastMsgID;
        lastMsgID := lastMsgID + 1;
      }
    }

    method CloseChan(ch: Chan)
      modifies this`chans, this`faults
      ensures Shared() == Close(old(Shared()), ch)
    {
      if ch < |chans| {
        if chans[ch].closed {
          faults := faults + [CloseOfClosed];
        } else {
          chans := chans[ch := chans[ch].(closed := true)];
        }
      }
    }

    method TakePending(msgID: Id) returns (ch: Option<Chan>)
      modifies this`pending
      ensures ch == if msgID in old(pending) then Some(old(pending)[msgID]) else None
      ensures pending == old(pending) - {msgID}
      ensures (Shared(), ch) == TakeOut(old(Shared()), msgID)
    {
      ch := None;
      if msgID in pending {
        ch := Some(pending[msgID]);
        pending := pending - {msgID};
      }
    }

    /** The loop of failPending and of resetState, visiting the keys in the order the runtime happens to
        choose: every pending channel is closed, each once, and the table is empty afterwards. */
    method FailPending(order: seq<Id>)
      requires Sound(Shared()) && Lists(order, pending.Keys)
      modifies this`pending, this`chans, this`faults
      ensures Shared() == CloseAll(old(Shared()), order)
      ensures Sound(Shared()) && pending == map[]
      ensures forall id :: id in old(pending) ==> old(pending)[id] < |chans| && chans[old(pending)[id]].closed
    {
      for i := 0 to |order|
        invariant Shared() == CloseAll(old(Shared()), order[..i])
      {
        var id := order[i];
        assert order[..i + 1][..i] == order[..i];
        if id in pending {
          CloseChan(pending[id]);
          pending := pending - {id};
        }
      }
      assert order[..|order|] == order;
      CloseAllIsSafe(old(Shared()), order);
      CloseAllCloses(old(Shared()), order);
    }
  }
}
