// AESSocket: the order in which frames reach the wire against the order in which the transmit
// chain advances (internal/homeconnect/socket.go).
//
// Any number of goroutines run Send, Connect and Close.  One action is one critical section or one
// call that can block; an action whose guard does not hold changes nothing, so every sequence of
// actions is an interleaving and the theorems quantify over all of them.
module Socket {
  import opened Prelude
  import opened Crypto

  /** What Send uses of the crypto: a chain value, its next value and frame for a message, and the
      messages Encrypt refuses.  `AesSealer` is the one the socket runs. */
  datatype Sealer<!C> = Sealer(start: C, ok: Message -> bool, next: (C, Message) -> C, frame: (C, Message) -> Bytes)

  function After<C>(z: Sealer<C>, ms: seq<Message>): C {
    if ms == [] then z.start else z.next(After(z, ms[..|ms| - 1]), ms[|ms| - 1])
  }

  /** The frames one chain puts out for a run of messages. */
  function Output<C>(z: Sealer<C>, ms: seq<Message>): seq<Bytes> {
    if ms == [] then []
    else Output(z, ms[..|ms| - 1]) + [z.frame(After(z, ms[..|ms| - 1]), ms[|ms| - 1])]
  }

  lemma Snoc<C>(z: Sealer<C>, ms: seq<Message>, m: Message)
    ensures After(z, ms + [m]) == z.next(After(z, ms), m)
    ensures Output(z, ms + [m]) == Output(z, ms) + [z.frame(After(z, ms), m)]
  {
    assert (ms + [m])[..|ms|] == ms;
  }

  type Thread = nat
  type Conn = nat

  /** Where a goroutine stands; SendGot up to SendWrite and ConnectLocked up to ConnectReset hold sendMu. */
  datatype PC =
    | Idle
    | SendGot(m: Message)
    | SendHave(m: Message, c: Conn)
    | SendWrite(m: Message, c: Conn, frame: Bytes)
    | Dialed(c: Conn)
    | ConnectLocked(c: Conn)
    | ConnectReset(c: Conn)
    | Closing(c: Conn)
  {
    predicate HoldsSendMu() {
      SendGot? || SendHave? || SendWrite? || ConnectLocked? || ConnectReset?
    }
  }

  /** `epoch`, `log` and `sent` are history: the connection the chain was last reset for, the messages
      sealed since, and per connection the messages whose frames were written. */
  datatype State<C> = State(
    pcs: map<Thread, PC>,
    sendMu: Option<Thread>,
    conn: Option<Conn>,
    tx: C,
    wires: seq<seq<Bytes>>,
    alive: seq<bool>,
    epoch: Option<Conn>,
    log: seq<Message>,
    sent: seq<seq<Message>>)
  {
    function At(t: Thread): PC {
      if t in pcs then pcs[t] else Idle
    }

    function Goto(t: Thread, pc: PC): State<C> {
      this.(pcs := pcs[t := pc])
    }

    function Unlock(t: Thread): State<C> {
      this.(pcs := pcs[t := Idle], sendMu := None)
    }
  }

  datatype Action =
    | SendLock(t: Thread, m: Message)
    | SendCapture(t: Thread)
    | SendEncrypt(t: Thread)
    | SendWire(t: Thread, ok: bool)
    | Dial(t: Thread)
    | ConnectLock(t: Thread)
    | ConnectResetChain(t: Thread)
    | ConnectSwap(t: Thread)
    | CloseTake(t: Thread)
    | CloseWire(t: Thread)
    | Drop(c: Conn)

  function Init<C>(z: Sealer<C>): State<C> {
    State(map[], None, None, z.start, [], [], None, [], [])
  }

  function Step<C>(z: Sealer<C>, s: State<C>, a: Action): State<C> {
    match a
    case SendLock(t, m) =>
      if s.At(t) == Idle && s.sendMu == None then s.(sendMu := Some(t)).Goto(t, SendGot(m)) else s
    case SendCapture(t) =>
      if !s.At(t).SendGot? then s
      else if s.conn == None then s.Unlock(t)
      else s.Goto(t, SendHave(s.At(t).m, s.conn.value))
    case SendEncrypt(t) =>
      if !s.At(t).SendHave? then s
      else
        var pc := s.At(t);
        if !z.ok(pc.m) then s.Unlock(t)
        else s.(tx := z.next(s.tx, pc.m), log := s.log + [pc.m])
              .Goto(t, SendWrite(pc.m, pc.c, z.frame(s.tx, pc.m)))
    case SendWire(t, ok) =>
      if !s.At(t).SendWrite? || s.At(t).c >= |s.wires| || |s.alive| != |s.wires| || |s.sent| != |s.wires| then s
      else
        var pc := s.At(t);
        if s.alive[pc.c] && ok then
          s.(wires := s.wires[pc.c := s.wires[pc.c] + [pc.frame]],
              sent := s.sent[pc.c := s.sent[pc.c] + [pc.m]]).Unlock(t)
        else
          s.(alive := s.alive[pc.c := false]).Unlock(t)
    case Dial(t) =>
      if s.At(t) != Idle then s
      else s.(wires := s.wires + [[]], alive := s.alive + [true], sent := s.sent + [[]]).Goto(t, Dialed(|s.wires|))
    case ConnectLock(t) =>
      if s.At(t).Dialed? && s.sendMu == None then s.(sendMu := Some(t)).Goto(t, ConnectLocked(s.At(t).c)) else s
    case ConnectResetChain(t) =>
      if !s.At(t).ConnectLocked? then s
      else s.(tx := z.start, log := [], epoch := Some(s.At(t).c)).Goto(t, ConnectReset(s.At(t).c))
    case ConnectSwap(t) =>
      if !s.At(t).ConnectReset? then s else s.(conn := Some(s.At(t).c)).Unlock(t)
    case CloseTake(t) =>
      if s.At(t) != Idle || s.conn == None then s else s.(conn := None).Goto(t, Closing(s.conn.value))
    case CloseWire(t) =>
      if !s.At(t).Closing? || s.At(t).c >= |s.alive| then s
      else s.(alive := s.alive[s.At(t).c := false]).Goto(t, Idle)
    case Drop(c) =>
      if c < |s.alive| then s.(alive := s.alive[c := false]) else s
  }

  function Run<C>(z: Sealer<C>, script: seq<Action>): State<C> {
    if script == [] then Init(z)
    else Step(z, Run(z, script[..|script| - 1]), script[|script| - 1])
  }

  // ----- the invariant -----

  predicate Shape<C>(s: State<C>) {
    |s.alive| == |s.wires| == |s.sent|
  }

  /** sendMu is exclusive: exactly its holder stands between lock and unlock. */
  ghost predicate Exclusive<C>(s: State<C>) {
    forall t: Thread :: s.At(t).HoldsSendMu() <==> s.sendMu == Some(t)
  }

  ghost predicate AllOk<C>(z: Sealer<C>, ms: seq<Message>) {
    forall i :: 0 <= i < |ms| ==> z.ok(ms[i])
  }

  /** The wire of every connection is one chain run over the messages written to it. */
  ghost predicate WiresAreChains<C>(z: Sealer<C>, s: State<C>)
    requires Shape(s)
  {
    forall c: Conn :: c < |s.wires| ==> s.wires[c] == Output(z, s.sent[c]) && AllOk(z, s.sent[c])
  }

  predicate Private(pc: PC) {
    pc.Dialed? || pc.ConnectLocked?
  }

  /** A dialled connection is its dialler's alone, and nothing is written to it, until its chain is reset. */
  ghost predicate FreshConns<C>(s: State<C>)
    requires Shape(s)
  {
    && (forall t: Thread :: Private(s.At(t)) ==>
          s.At(t).c < |s.wires| && s.sent[s.At(t).c] == [] && s.epoch != Some(s.At(t).c))
    && (forall t: Thread, u: Thread :: Private(s.At(t)) && Private(s.At(u)) && s.At(t).c == s.At(u).c ==> t == u)
    && (s.epoch.Some? ==> s.epoch.value < |s.wires|)
  }

  /** Whoever speaks of a connection, other than its dialler, speaks of the one the chain was reset for. */
  ghost predicate Aimed<C>(s: State<C>) {
    && (s.conn.Some? && !(s.sendMu.Some? && s.At(s.sendMu.value).ConnectReset?) ==> s.epoch == s.conn)
    && (forall t: Thread :: s.At(t).SendHave? || s.At(t).SendWrite? || s.At(t).ConnectReset? ==>
          s.epoch == Some(s.At(t).c))
  }

  function InHand<C>(s: State<C>): seq<Message> {
    if s.sendMu.Some? && s.At(s.sendMu.value).SendWrite? then [s.At(s.sendMu.value).m] else []
  }

  /** The live connection of the current chain has received exactly what the chain sealed, up to the
      one frame that is encrypted and not yet written. */
  ghost predicate ChainMatchesWire<C>(z: Sealer<C>, s: State<C>)
    requires Shape(s) && FreshConns(s)
  {
    && s.tx == After(z, s.log) && AllOk(z, s.log)
    && (s.epoch.Some? && s.alive[s.epoch.value] ==> s.log == s.sent[s.epoch.value] + InHand(s))
    && (InHand(s) != [] ==> FrameInHand(z, s, s.At(s.sendMu.value)))
  }

  ghost predicate FrameInHand<C>(z: Sealer<C>, s: State<C>, pc: PC)
    requires pc.SendWrite?
  {
    && |s.log| > 0
    && s.log[|s.log| - 1] == pc.m
    && pc.frame == z.frame(After(z, s.log[..|s.log| - 1]), pc.m)
  }

  ghost predicate Inv<C>(z: Sealer<C>, s: State<C>) {
    Shape(s) && Exclusive(s) && WiresAreChains(z, s) && FreshConns(s) && Aimed(s) && ChainMatchesWire(z, s)
  }

  /** The data part of the invariant survives a step that moves no data and no frame in hand. */
  lemma DataKept<C>(z: Sealer<C>, s: State<C>, s': State<C>)
    requires Inv(z, s) && Shape(s') && FreshConns(s')
    requires s'.tx == s.tx && s'.wires == s.wires && s'.sent == s.sent && s'.log == s.log && s'.epoch == s.epoch
    requires InHand(s') == InHand(s) && (InHand(s) != [] ==> s'.At(s'.sendMu.value) == s.At(s.sendMu.value))
    requires forall c: Conn :: c < |s.alive| && s'.alive[c] ==> s.alive[c]
    ensures WiresAreChains(z, s') && ChainMatchesWire(z, s')
  {
  }

  lemma OtherThreadsStay<C>(z: Sealer<C>, s: State<C>, a: Action)
    requires !a.Drop?
    ensures forall u: Thread :: u != a.t ==> Step(z, s, a).At(u) == s.At(u)
  {
  }

  lemma StepEncrypt<C>(z: Sealer<C>, s: State<C>, t: Thread)
    requires Inv(z, s)
    ensures Inv(z, Step(z, s, SendEncrypt(t)))
  {
    EncryptKeepsOrder(z, s, t);
    if s.At(t).SendHave? {
      if z.ok(s.At(t).m) { SealKeepsData(z, s, t); } else { DataKept(z, s, Step(z, s, SendEncrypt(t))); }
    }
  }

  lemma SealKeepsData<C>(z: Sealer<C>, s: State<C>, t: Thread)
    requires Inv(z, s) && s.At(t).SendHave? && z.ok(s.At(t).m)
    requires Order(Step(z, s, SendEncrypt(t)))
    ensures var s' := Step(z, s, SendEncrypt(t)); WiresAreChains(z, s') && ChainMatchesWire(z, s')
  {
    var s' := Step(z, s, SendEncrypt(t));
    SealExtends(z, s, t);
    Snoc(z, s.log, s.At(t).m);
    assert s'.log[..|s.log|] == s.log;
  }

  /** Sealing puts one message into the log and its frame into the sealer's hand, and touches no wire. */
  lemma SealExtends<C>(z: Sealer<C>, s: State<C>, t: Thread)
    requires Exclusive(s) && s.At(t).SendHave? && z.ok(s.At(t).m)
    ensures var s', m := Step(z, s, SendEncrypt(t)), s.At(t).m;
      && s'.sendMu == s.sendMu == Some(t) && s'.At(t) == SendWrite(m, s.At(t).c, z.frame(s.tx, m))
      && InHand(s) == [] && InHand(s') == [m]
      && s'.log == s.log + [m] && s'.tx == z.next(s.tx, m)
      && s'.wires == s.wires && s'.sent == s.sent && s'.alive == s.alive && s'.epoch == s.epoch
  {
  }

  /** Locks, fresh connections and aims: the part of the invariant that is not about data. */
  ghost predicate Order<C>(s: State<C>) {
    Shape(s) && Exclusive(s) && FreshConns(s) && Aimed(s)
  }

  lemma EncryptKeepsOrder<C>(z: Sealer<C>, s: State<C>, t: Thread)
    requires Inv(z, s)
    ensures Order(Step(z, s, SendEncrypt(t)))
  {
    if s.At(t).SendHave? {
      if z.ok(s.At(t).m) { SealKeepsOrder(z, s, t); } else { RefusalKeepsOrder(z, s, t); }
    }
  }

  lemma SealKeepsOrder<C>(z: Sealer<C>, s: State<C>, t: Thread)
    requires Order(s) && s.At(t).SendHave? && z.ok(s.At(t).m)
    ensures Order(Step(z, s, SendEncrypt(t)))
  {
    OtherThreadsStay(z, s, SendEncrypt(t));
  }

  lemma RefusalKeepsOrder<C>(z: Sealer<C>, s: State<C>, t: Thread)
    requires Order(s) && s.At(t).SendHave? && !z.ok(s.At(t).m)
    ensures Order(Step(z, s, SendEncrypt(t)))
  {
    OthersStay(s, Step(z, s, SendEncrypt(t)), t);
  }

  lemma StepWire<C>(z: Sealer<C>, s: State<C>, t: Thread, ok: bool)
    requires Inv(z, s)
    ensures Inv(z, Step(z, s, SendWire(t, ok)))
  {
    if s.At(t).SendWrite? {
      if s.alive[s.At(t).c] && ok {
        Written(z, s, t);
      } else {
        WriteFailed(z, s, t, ok);
      }
    }
  }

  lemma Written<C>(z: Sealer<C>, s: State<C>, t: Thread)
    requires Inv(z, s) && s.At(t).SendWrite? && s.alive[s.At(t).c]
    ensures Inv(z, Step(z, s, SendWire(t, true)))
  {
    WriteKeepsOrder(z, s, t);
    WriteKeepsWires(z, s, t);
    WriteKeepsChain(z, s, t);
  }

  /** What the writer holds is the last message sealed, and the rest is on the wire. */
  lemma LastSealed<C>(z: Sealer<C>, s: State<C>, t: Thread)
    requires Inv(z, s) && s.At(t).SendWrite? && s.alive[s.At(t).c]
    ensures s.sendMu == Some(t) && s.epoch == Some(s.At(t).c)
    ensures s.log == s.sent[s.At(t).c] + [s.At(t).m]
    ensures s.At(t).frame == z.frame(After(z, s.sent[s.At(t).c]), s.At(t).m)
  {
    assert InHand(s) == [s.At(t).m];
    assert s.log[..|s.log| - 1] == s.sent[s.At(t).c];
  }

  lemma WriteKeepsWires<C>(z: Sealer<C>, s: State<C>, t: Thread)
    requires Inv(z, s) && s.At(t).SendWrite? && s.alive[s.At(t).c]
    ensures var s' := Step(z, s, SendWire(t, true)); Shape(s') && WiresAreChains(z, s')
  {
    LastSealed(z, s, t);
    Snoc(z, s.sent[s.At(t).c], s.At(t).m);
  }

  lemma WriteKeepsChain<C>(z: Sealer<C>, s: State<C>, t: Thread)
    requires Inv(z, s) && s.At(t).SendWrite? && s.alive[s.At(t).c]
    requires Order(Step(z, s, SendWire(t, true)))
    ensures ChainMatchesWire(z, Step(z, s, SendWire(t, true)))
  {
    LastSealed(z, s, t);
    var s' := Step(z, s, SendWire(t, true));
    assert InHand(s') == [];
    assert s'.log == s'.sent[s.At(t).c];
  }

  lemma WriteKeepsOrder<C>(z: Sealer<C>, s: State<C>, t: Thread)
    requires Order(s) && s.At(t).SendWrite? && s.At(t).c < |s.alive| && s.alive[s.At(t).c]
    ensures Order(Step(z, s, SendWire(t, true)))
  {
    OthersStay(s, Step(z, s, SendWire(t, true)), t);
  }

  lemma OthersStay<C>(s: State<C>, s': State<C>, t: Thread)
    requires s'.pcs == s.pcs[t := Idle]
    ensures forall u: Thread :: s'.At(u) == if u == t then Idle else s.At(u)
  {
  }

  lemma WriteFailed<C>(z: Sealer<C>, s: State<C>, t: Thread, ok: bool)
    requires Inv(z, s) && s.At(t).SendWrite? && !(s.alive[s.At(t).c] && ok)
    ensures Inv(z, Step(z, s, SendWire(t, ok)))
  {
  }

  lemma StepDial<C>(z: Sealer<C>, s: State<C>, a: Action)
    requires Inv(z, s) && a.Dial?
    ensures Inv(z, Step(z, s, a))
  {
    if s.At(a.t) == Idle {
      DialKeepsOrder(z, s, a);
      DialKeepsData(z, s, a);
    }
  }

  lemma DialKeepsOrder<C>(z: Sealer<C>, s: State<C>, a: Action)
    requires Order(s) && a.Dial? && s.At(a.t) == Idle
    ensures Order(Step(z, s, a))
  {
    OtherThreadsStay(z, s, a);
    var s' := Step(z, s, a);
    assert forall c: Conn :: c < |s.wires| ==> s'.sent[c] == s.sent[c];
  }

  lemma DialKeepsData<C>(z: Sealer<C>, s: State<C>, a: Action)
    requires Inv(z, s) && a.Dial? && s.At(a.t) == Idle && Order(Step(z, s, a))
    ensures WiresAreChains(z, Step(z, s, a)) && ChainMatchesWire(z, Step(z, s, a))
  {
    OtherThreadsStay(z, s, a);
    var s' := Step(z, s, a);
    assert forall c: Conn :: c < |s.wires| ==> s'.wires[c] == s.wires[c] && s'.sent[c] == s.sent[c];
    assert InHand(s') == InHand(s);
  }

  lemma StepConnectLock<C>(z: Sealer<C>, s: State<C>, a: Action)
    requires Inv(z, s) && a.ConnectLock?
    ensures Inv(z, Step(z, s, a))
  {
    var s' := Step(z, s, a);
    OtherThreadsStay(z, s, a);
    DataKept(z, s, s');
  }

  lemma StepConnectResetChain<C>(z: Sealer<C>, s: State<C>, a: Action)
    requires Inv(z, s) && a.ConnectResetChain?
    ensures Inv(z, Step(z, s, a))
  {
  }

  lemma StepConnectSwap<C>(z: Sealer<C>, s: State<C>, a: Action)
    requires Inv(z, s) && a.ConnectSwap?
    ensures Inv(z, Step(z, s, a))
  {
  }

  lemma StepSendLock<C>(z: Sealer<C>, s: State<C>, a: Action)
    requires Inv(z, s) && a.SendLock?
    ensures Inv(z, Step(z, s, a))
  {
    var s' := Step(z, s, a);
    OtherThreadsStay(z, s, a);
    DataKept(z, s, s');
  }

  lemma StepSendCapture<C>(z: Sealer<C>, s: State<C>, a: Action)
    requires Inv(z, s) && a.SendCapture?
    ensures Inv(z, Step(z, s, a))
  {
    var s' := Step(z, s, a);
    OtherThreadsStay(z, s, a);
    DataKept(z, s, s');
  }

  lemma StepCloseTake<C>(z: Sealer<C>, s: State<C>, a: Action)
    requires Inv(z, s) && a.CloseTake?
    ensures Inv(z, Step(z, s, a))
  {
    CloseTakeKeepsOrder(z, s, a);
    OtherThreadsStay(z, s, a);
    DataKept(z, s, Step(z, s, a));
  }

  lemma CloseTakeKeepsOrder<C>(z: Sealer<C>, s: State<C>, a: Action)
    requires Inv(z, s) && a.CloseTake?
    ensures Order(Step(z, s, a))
  {
    OtherThreadsStay(z, s, a);
    CloseTakeIsNoSender(z, s, a);
  }

  /** Taking the connection out needs no send lock and leaves the holder where it stood. */
  lemma CloseTakeIsNoSender<C>(z: Sealer<C>, s: State<C>, a: Action)
    requires Exclusive(s) && a.CloseTake?
    ensures Exclusive(Step(z, s, a)) && Step(z, s, a).sendMu == s.sendMu
    ensures s.sendMu.Some? ==> Step(z, s, a).At(s.sendMu.value) == s.At(s.sendMu.value)
  {
    OtherThreadsStay(z, s, a);
  }

  lemma StepCloseWire<C>(z: Sealer<C>, s: State<C>, a: Action)
    requires Inv(z, s) && a.CloseWire?
    ensures Inv(z, Step(z, s, a))
  {
    CloseWireKeepsOrder(z, s, a);
    OtherThreadsStay(z, s, a);
    DataKept(z, s, Step(z, s, a));
  }

  lemma CloseWireKeepsOrder<C>(z: Sealer<C>, s: State<C>, a: Action)
    requires Order(s) && a.CloseWire?
    ensures Order(Step(z, s, a))
  {
    OtherThreadsStay(z, s, a);
  }

  lemma StepDrop<C>(z: Sealer<C>, s: State<C>, a: Action)
    requires Inv(z, s) && a.Drop?
    ensures Inv(z, Step(z, s, a))
  {
    var s' := Step(z, s, a);
    AllThreadsStay(s, s');
    DataKept(z, s, s');
  }

  lemma AllThreadsStay<C>(s: State<C>, s': State<C>)
    requires s'.pcs == s.pcs
    ensures forall u: Thread :: s'.At(u) == s.At(u)
    ensures Shape(s) && s'.sendMu == s.sendMu ==> InHand(s') == InHand(s)
  {
  }

  lemma {:induction false} Reachable<C>(z: Sealer<C>, script: seq<Action>)
    ensures Inv(z, Run(z, script))
    decreases |script|
  {
    if script != [] {
      var a := script[|script| - 1];
      var s := Run(z, script[..|script| - 1]);
      Reachable(z, script[..|script| - 1]);
      match a
      case SendEncrypt(t) => StepEncrypt(z, s, t);
      case SendWire(t, ok) => StepWire(z, s, t, ok);
      case Dial(_) => StepDial(z, s, a);
      case ConnectLock(_) => StepConnectLock(z, s, a);
      case ConnectResetChain(_) => StepConnectResetChain(z, s, a);
      case ConnectSwap(_) => StepConnectSwap(z, s, a);
      case SendLock(_, _) => StepSendLock(z, s, a);
      case SendCapture(_) => StepSendCapture(z, s, a);
      case CloseTake(_) => StepCloseTake(z, s, a);
      case CloseWire(_) => StepCloseWire(z, s, a);
      case Drop(_) => StepDrop(z, s, a);
    }
  }

  /** In every interleaving the frames on every connection's wire are, in order, the outputs of one
      transmit chain started at that connection's reset; on a live connection with no Send between
      encrypting and writing they are all of its outputs. */
  lemma WireOrderIsChainOrder<C>(z: Sealer<C>, script: seq<Action>, c: Conn)
    requires c < |Run(z, script).wires|
    ensures var s := Run(z, script);
            && Shape(s)
            && s.wires[c] == Output(z, s.sent[c])
            && AllOk(z, s.sent[c])
            && (s.epoch == Some(c) && s.alive[c] ==> s.log == s.sent[c] + InHand(s))
            && (s.conn == Some(c) && !(s.sendMu.Some? && s.At(s.sendMu.value).ConnectReset?) ==> s.epoch == Some(c))
  {
    Reachable(z, script);
  }

  // ----- what a goroutine gets done while others run -----

  predicate Of(a: Action, t: Thread) {
    !a.Drop? && a.t == t
  }

  predicate NoneOf(steps: seq<Action>, t: Thread) {
    forall i :: 0 <= i < |steps| ==> !Of(steps[i], t)
  }

  lemma RunLast<C>(z: Sealer<C>, script: seq<Action>, a: Action)
    ensures Run(z, script + [a]) == Step(z, Run(z, script), a)
  {
    assert (script + [a])[..|script|] == script;
  }

  /** What others leave alone while a goroutine holds sendMu: where it stands, the lock, the chain and the wires. */
  ghost predicate Undisturbed<C>(s: State<C>, t: State<C>, g: Thread) {
    && t.At(g) == s.At(g) && t.sendMu == s.sendMu && t.tx == s.tx && t.log == s.log && t.epoch == s.epoch
    && |s.wires| <= |t.wires| && |s.sent| == |s.wires| && |t.sent| == |t.wires|
    && t.wires[..|s.wires|] == s.wires && t.sent[..|s.sent|] == s.sent
  }

  lemma OthersDisturbNothing<C>(z: Sealer<C>, s: State<C>, a: Action, g: Thread)
    requires Shape(s) && Exclusive(s) && s.sendMu == Some(g) && !Of(a, g)
    ensures Undisturbed(s, Step(z, s, a), g)
  {
    if !a.Drop? { assert !s.At(a.t).HoldsSendMu(); }
  }

  lemma UndisturbedTwice<C>(s: State<C>, t: State<C>, u: State<C>, g: Thread)
    requires Undisturbed(s, t, g) && Undisturbed(t, u, g)
    ensures Undisturbed(s, u, g)
  {
    assert u.wires[..|s.wires|] == u.wires[..|t.wires|][..|s.wires|];
    assert u.sent[..|s.sent|] == u.sent[..|t.sent|][..|s.sent|];
  }

  lemma OneOtherRuns<C>(z: Sealer<C>, script: seq<Action>, a: Action, g: Thread)
    requires Run(z, script).sendMu == Some(g) && !Of(a, g)
    ensures Undisturbed(Run(z, script), Run(z, script + [a]), g)
  {
    Reachable(z, script);
    RunLast(z, script, a);
    OthersDisturbNothing(z, Run(z, script), a, g);
  }

  lemma NothingDisturbs<C>(z: Sealer<C>, script: seq<Action>, g: Thread)
    ensures Undisturbed(Run(z, script), Run(z, script), g)
  {
    Reachable(z, script);
  }

  lemma StillUndisturbed<C>(z: Sealer<C>, s: State<C>, longer: seq<Action>, a: Action, g: Thread)
    requires Undisturbed(s, Run(z, longer), g) && Run(z, longer).sendMu == Some(g) && !Of(a, g)
    ensures Undisturbed(s, Run(z, longer + [a]), g)
  {
    OneOtherRuns(z, longer, a, g);
    UndisturbedTwice(s, Run(z, longer), Run(z, longer + [a]), g);
  }

  lemma {:induction false} OthersRun<C>(z: Sealer<C>, script: seq<Action>, steps: seq<Action>, g: Thread)
    requires Run(z, script).sendMu == Some(g) && NoneOf(steps, g)
    ensures Undisturbed(Run(z, script), Run(z, script + steps), g)
    decreases |steps|
  {
    if steps == [] {
      NothingDisturbs(z, script, g);
      assert script + steps == script;
    } else {
      var n := |steps| - 1;
      OthersRun(z, script, steps[..n], g);
      StillUndisturbed(z, Run(z, script), script + steps[..n], steps[n], g);
      assert script + steps[..n] + [steps[n]] == script + steps;
    }
  }

  /** A Send takes the lock and the connection there is; without one it lets go again. */
  lemma SendBegins<C>(z: Sealer<C>, s: State<C>, t: Thread, m: Message)
    requires s.At(t).Idle? && s.sendMu.None?
    ensures var u := Step(z, Step(z, s, SendLock(t, m)), SendCapture(t));
      if s.conn.None? then u.At(t).Idle? && u.sendMu.None? && u.wires == s.wires
      else u.At(t) == SendHave(m, s.conn.value) && u.sendMu == Some(t)
  {
  }

  lemma SealedInHand<C>(z: Sealer<C>, s: State<C>, t: Thread)
    requires s.At(t).SendHave? && z.ok(s.At(t).m)
    ensures var u, m, c := Step(z, s, SendEncrypt(t)), s.At(t).m, s.At(t).c;
      && u.At(t) == SendWrite(m, c, z.frame(s.tx, m)) && u.sendMu == s.sendMu
      && u.wires == s.wires && u.sent == s.sent && u.alive == s.alive
  {
  }

  lemma WrittenOut<C>(z: Sealer<C>, s: State<C>, t: Thread)
    requires Shape(s) && s.At(t).SendWrite? && s.At(t).c < |s.wires| && s.alive[s.At(t).c]
    ensures var u, pc := Step(z, s, SendWire(t, true)), s.At(t);
      && u.wires == s.wires[pc.c := s.wires[pc.c] + [pc.frame]] && u.sent == s.sent[pc.c := s.sent[pc.c] + [pc.m]]
      && u.At(t).Idle? && u.sendMu.None?
  {
  }

  /** A message that a Send has captured a connection for is written to that connection, one frame behind what was
      there, whatever other goroutines do before and after it is sealed - provided the connection is alive when
      the write comes and the write succeeds. */
  lemma SendReachesTheWire<C>(z: Sealer<C>, script: seq<Action>, t: Thread, sealing: seq<Action>, writing: seq<Action>)
    requires Run(z, script).At(t).SendHave? && z.ok(Run(z, script).At(t).m)
    requires NoneOf(sealing, t) && NoneOf(writing, t)
    requires var u, c := Run(z, script + sealing + [SendEncrypt(t)] + writing), Run(z, script).At(t).c;
      c < |u.alive| && u.alive[c]
    ensures var s := Run(z, script);
      var u := Run(z, script + sealing + [SendEncrypt(t)] + writing + [SendWire(t, true)]);
      var m, c := s.At(t).m, s.At(t).c;
      && c < |s.wires| <= |u.wires| && |s.sent| == |s.wires| && |u.sent| == |u.wires|
      && u.sent[c] == s.sent[c] + [m] && u.wires[c] == s.wires[c] + [z.frame(s.tx, m)]
      && u.At(t).Idle? && u.sendMu.None?
  {
    Sealed(z, script, t, sealing);
    var p := script + sealing + [SendEncrypt(t)];
    OthersRun(z, p, writing, t);
    Reachable(z, p + writing);
    RunLast(z, p + writing, SendWire(t, true));
    WrittenOut(z, Run(z, p + writing), t);
    PrefixKept(Run(z, p).wires, Run(z, p + writing).wires, Run(z, script).At(t).c);
    PrefixKept(Run(z, p).sent, Run(z, p + writing).sent, Run(z, script).At(t).c);
  }

  /** The first half: the frame is in the sender's hand, and nothing has been written since. */
  lemma Sealed<C>(z: Sealer<C>, script: seq<Action>, t: Thread, sealing: seq<Action>)
    requires Run(z, script).At(t).SendHave? && z.ok(Run(z, script).At(t).m) && NoneOf(sealing, t)
    ensures var s, u := Run(z, script), Run(z, script + sealing + [SendEncrypt(t)]);
      var m, c := s.At(t).m, s.At(t).c;
      && u.At(t) == SendWrite(m, c, z.frame(s.tx, m)) && u.sendMu == Some(t)
      && c < |s.wires| <= |u.wires| && |s.sent| == |s.wires| && |u.sent| == |u.wires|
      && u.wires[c] == s.wires[c] && u.sent[c] == s.sent[c]
  {
    var s := Run(z, script);
    Reachable(z, script);
    CapturedIsThere(z, s, t);
    OthersRun(z, script, sealing, t);
    RunLast(z, script + sealing, SendEncrypt(t));
    SealedInHand(z, Run(z, script + sealing), t);
    PrefixKept(s.wires, Run(z, script + sealing).wires, s.At(t).c);
    PrefixKept(s.sent, Run(z, script + sealing).sent, s.At(t).c);
  }

  lemma CapturedIsThere<C>(z: Sealer<C>, s: State<C>, t: Thread)
    requires Inv(z, s) && s.At(t).SendHave?
    ensures s.At(t).c < |s.wires| && s.sendMu == Some(t)
  {
  }

  lemma PrefixKept<T>(a: seq<T>, b: seq<T>, i: nat)
    requires i < |a| <= |b| && b[..|a|] == a
    ensures b[i] == a[i]
  {
    assert b[..|a|][i] == b[i];
  }

  /** A Connect that has dialled and locked installs its connection with the chain at its start, whatever others do
      in between. */
  lemma ConnectInstalls<C>(z: Sealer<C>, script: seq<Action>, t: Thread, locked: seq<Action>, reset: seq<Action>)
    requires Run(z, script).At(t).ConnectLocked? && NoneOf(locked, t) && NoneOf(reset, t)
    ensures var c := Run(z, script).At(t).c;
      var u := Run(z, script + locked + [ConnectResetChain(t)] + reset + [ConnectSwap(t)]);
      u.conn == Some(c) && u.tx == z.start && u.log == [] && u.epoch == Some(c) && u.sendMu.None? && u.At(t).Idle?
  {
    Reachable(z, script);
    assert Run(z, script).sendMu == Some(t);
    OthersRun(z, script, locked, t);
    var p := script + locked;
    RunLast(z, p, ConnectResetChain(t));
    Resets(z, Run(z, p), t);
    OthersRun(z, p + [ConnectResetChain(t)], reset, t);
    var q := p + [ConnectResetChain(t)] + reset;
    RunLast(z, q, ConnectSwap(t));
    Swaps(z, Run(z, q), t);
  }

  lemma Resets<C>(z: Sealer<C>, s: State<C>, t: Thread)
    requires s.At(t).ConnectLocked?
    ensures var u := Step(z, s, ConnectResetChain(t));
      && u.At(t) == ConnectReset(s.At(t).c) && u.sendMu == s.sendMu
      && u.tx == z.start && u.log == [] && u.epoch == Some(s.At(t).c)
  {
  }

  lemma Swaps<C>(z: Sealer<C>, s: State<C>, t: Thread)
    requires s.At(t).ConnectReset?
    ensures var u := Step(z, s, ConnectSwap(t));
      u == s.(conn := Some(s.At(t).c)).Unlock(t)
  {
  }

  /** A dial makes a connection of its own, alive and with nothing on it, and then waits for the lock. */
  lemma DialsAnew<C>(z: Sealer<C>, s: State<C>, t: Thread)
    requires Shape(s) && s.At(t).Idle? && s.sendMu.None?
    ensures var u := Step(z, s, Dial(t));
      && u.wires == s.wires + [[]] && u.alive == s.alive + [true] && u.sent == s.sent + [[]]
      && Step(z, u, ConnectLock(t)).At(t) == ConnectLocked(|s.wires|)
      && Step(z, u, ConnectLock(t)).sendMu == Some(t)
  {
  }

  /** A Close takes the connection out of the socket and then kills it; a write that fails kills it too. */
  lemma ConnectionsEnd<C>(z: Sealer<C>, s: State<C>, t: Thread, c: Conn)
    requires Shape(s) && c < |s.alive|
    ensures s.At(t).Idle? && s.conn == Some(c) ==>
      var u := Step(z, s, CloseTake(t));
      u.conn.None? && !Step(z, u, CloseWire(t)).alive[c] && Step(z, u, CloseWire(t)).At(t).Idle?
    ensures s.At(t).SendWrite? && s.At(t).c == c ==>
      var u := Step(z, s, SendWire(t, false));
      !u.alive[c] && u.At(t).Idle? && u.sendMu.None? && u.wires == s.wires
    ensures !Step(z, s, Drop(c)).alive[c]
  {
  }

  // ----- the crypto the socket runs -----

  function AesSealer(k: Keys): Sealer<Chain> {
    Sealer(
      Start(k),
      m => Sealable(m),
      (c: Chain, m: Message) => if Sealable(m) then SealNext(k, ENCRYPT_DIRECTION, c, m) else c,
      (c: Chain, m: Message) => if Sealable(m) then SealFrame(k, ENCRYPT_DIRECTION, c, m) else [])
  }

  lemma AesStep(k: Keys, c: Chain, m: Message)
    requires Sealable(m)
    ensures AesSealer(k).next(c, m) == SealNext(k, ENCRYPT_DIRECTION, c, m)
    ensures AesSealer(k).frame(c, m) == SealFrame(k, ENCRYPT_DIRECTION, c, m)
  {
  }

  lemma FramesSnoc(k: Keys, ms: seq<Message>)
    requires AllSealable(ms) && ms != []
    ensures Frames(k, ENCRYPT_DIRECTION, ms)
         == Frames(k, ENCRYPT_DIRECTION, ms[..|ms| - 1]) + [FrameAt(k, ENCRYPT_DIRECTION, ms, |ms| - 1)]
  {
    FramesPrefix(k, ENCRYPT_DIRECTION, ms, |ms| - 1);
  }

  lemma {:induction false} AesOutput(k: Keys, ms: seq<Message>)
    requires AllSealable(ms)
    ensures After(AesSealer(k), ms) == ChainAfter(k, ENCRYPT_DIRECTION, ms)
    ensures Output(AesSealer(k), ms) == Frames(k, ENCRYPT_DIRECTION, ms)
    decreases |ms|
  {
    if ms != [] {
      var n := |ms| - 1;
      AesOutput(k, ms[..n]);
      AesStep(k, ChainAfter(k, ENCRYPT_DIRECTION, ms[..n]), ms[n]);
      FramesSnoc(k, ms);
    }
  }

  /** So a peer that opens what arrives on a connection, from its own reset, gets every message whose
      write succeeded, in the order of the writes, whatever ran concurrently. */
  lemma PeerReadsEveryMessage(k: Keys, script: seq<Action>, c: Conn)
    requires k.Valid() && c < |Run(AesSealer(k), script).wires|
    ensures var s := Run(AesSealer(k), script);
            && Shape(s)
            && Receive(k, ENCRYPT_DIRECTION, s.wires[c]).results == Clears(s.sent[c])
  {
    var z := AesSealer(k);
    var s := Run(z, script);
    WireOrderIsChainOrder(z, script, c);
    assert AllSealable(s.sent[c]) by { assert forall m :: z.ok(m) == Sealable(m); }
    AesOutput(k, s.sent[c]);
    StreamRoundTrip(k, ENCRYPT_DIRECTION, s.sent[c]);
  }
}
