// The reconnect manager (internal/homeconnect/reconnect.go).
//
// What the world answers to one turn of the loop - whether the context is cancelled, whether the
// connect succeeds, what the random source returns - is one Round, and a run is any sequence of
// rounds.  Durations are integers; the source's are 64-bit nanosecond counts.
module Reconnect {
  import opened Prelude

  const SECOND: nat := 1_000_000_000

  datatype Link = Closed | Connecting | Connected | Reconnecting | Closing | Offline

  /** initial and maximum backoff and the jitter, after NewManager filled the defaults in. */
  datatype Config = Config(initial: int, max: int, jitter: int) {
    predicate Valid() {
      initial > 0 && max > 0
    }
  }

  function WithDefaults(c: Config): (r: Config)
    ensures r.Valid() && r.jitter == c.jitter
    ensures c.Valid() ==> r == c
  {
    Config(if c.initial <= 0 then SECOND else c.initial, if c.max <= 0 then 30 * SECOND else c.max, c.jitter)
  }

  datatype Round = Round(cancelledFirst: bool, connects: bool, drops: bool, waitCancelled: bool, random: int)

  /** The rounds in which the context is seen cancelled: at the top, in the select, or in the wait. */
  predicate SeesCancel(r: Round) {
    r.cancelledFirst || (r.connects && !r.drops) || r.waitCancelled
  }

  /** What the manager does to the outside; a wait also records what the random source returned. */
  datatype Effect = Emit(l: Link) | Connect | Close | Wait(d: int, random: int)

  // ----- arithmetic -----

  function Min(a: int, b: int): int {
    if a < b then a else b
  }

  function NextBackoff(c: Config, d: int): int {
    if d * 2 > c.max then c.max else d * 2
  }

  function Jittered(c: Config, d: int, random: int): int {
    if c.jitter <= 0 then d
    else
      var delta := random % (2 * c.jitter) - c.jitter;
      if d + delta < 0 then 0 else d + delta
  }

  /** The backoff after k consecutive failures, by doubling. */
  function Backoff(c: Config, k: nat): int {
    if k == 0 then c.initial else NextBackoff(c, Backoff(c, k - 1))
  }

  lemma TwiceThePower(d: int, k: nat)
    ensures d * Pow2(k + 1) == 2 * (d * Pow2(k))
  {
    var p := Pow2(k);
    assert d * (2 * p) == 2 * (d * p);
  }

  /** The closed form: the first wait is the initial backoff itself, the k-th later one is
      initial * 2^k cut off at the maximum.  With initial <= max the first case is no exception. */
  lemma {:induction false} BackoffIsCappedDoubling(c: Config, k: nat)
    requires c.Valid()
    ensures Backoff(c, k) == if k == 0 then c.initial else Min(c.initial * Pow2(k), c.max)
    ensures c.initial <= c.max ==> Backoff(c, k) == Min(c.initial * Pow2(k), c.max)
  {
    if k > 0 {
      BackoffIsCappedDoubling(c, k - 1);
      TwiceThePower(c.initial, k - 1);
    }
  }

  /** Left unconfigured the backoff is one second, doubled by each failure and capped at thirty; either value given is
      kept. */
  lemma DefaultBackoff(jitter: int, initial: int, max: int, k: nat)
    ensures Backoff(WithDefaults(Config(0, 0, jitter)), k) == Min(Pow2(k), 30) * SECOND
    ensures initial > 0 ==> WithDefaults(Config(initial, 0, jitter)) == Config(initial, 30 * SECOND, jitter)
    ensures max > 0 ==> WithDefaults(Config(0, max, jitter)) == Config(SECOND, max, jitter)
  {
    BackoffIsCappedDoubling(WithDefaults(Config(0, 0, jitter)), k);
  }

  lemma JitterIsBounded(c: Config, d: int, random: int)
    requires d > 0
    ensures Jittered(c, d, random) >= 0
    ensures c.jitter <= 0 ==> Jittered(c, d, random) == d
    ensures c.jitter > 0 ==> d - c.jitter <= Jittered(c, d, random) < d + c.jitter || Jittered(c, d, random) == 0
    ensures c.jitter > 0 && Jittered(c, d, random) == 0 ==> d <= c.jitter
  {
  }

  lemma SmallRemainder(r: nat, m: nat)
    requires r < m
    ensures r % m == r
  {
  }

  /** Every delay within the jitter's reach is taken for some answer of the random source. */
  lemma JitterReaches(c: Config, d: int, x: int)
    requires c.jitter > 0 && 0 <= x && d - c.jitter <= x < d + c.jitter
    ensures 0 <= x - (d - c.jitter) < 2 * c.jitter
    ensures Jittered(c, d, x - (d - c.jitter)) == x
  {
    SmallRemainder(x - (d - c.jitter), 2 * c.jitter);
  }

  // ----- one turn of the loop -----

  /** The manager between two turns. */
  datatype Position = Position(link: Link, backoff: int, effects: seq<Effect>, returned: bool) {
    function Do(e: Effect): Position {
      this.(effects := effects + [e])
    }

    function SetLink(l: Link): Position {
      if link == l then this else this.(link := l, effects := effects + [Emit(l)])
    }

    function Return(): Position {
      SetLink(Closed).(returned := true)
    }
  }

  function Turn(c: Config, p: Position, r: Round): Position {
    if p.returned then p
    else if r.cancelledFirst then p.Return()
    else
      var q := p.SetLink(Connecting).Do(Connect);
      if !r.connects then
        var w := q.Do(Close).SetLink(Offline).Do(Wait(Jittered(c, p.backoff, r.random), r.random));
        if r.waitCancelled then w.Return()
        else w.(backoff := NextBackoff(c, p.backoff))
      else
        var u := q.SetLink(Connected).(backoff := c.initial);
        if !r.drops then u.SetLink(Closing).Do(Close).Return()
        else
          var w := u.SetLink(Reconnecting).Do(Close).Do(Wait(Jittered(c, c.initial, r.random), r.random));
          if r.waitCancelled then w.Return() else w
  }

  function Begin(c: Config, link: Link): Position {
    Position(link, c.initial, [], false)
  }

  function Turns(c: Config, link: Link, rounds: seq<Round>): Position {
    if rounds == [] then Begin(c, link)
    else Turn(c, Turns(c, link, rounds[..|rounds| - 1]), rounds[|rounds| - 1])
  }

  // ----- what every run keeps -----

  /** A dial is open from Connect until the next Close. */
  function Open(es: seq<Effect>): bool {
    es != [] && (es[|es| - 1].Connect? || (!es[|es| - 1].Close? && Open(es[..|es| - 1])))
  }

  ghost predicate RedialsAfterClose(es: seq<Effect>) {
    forall j :: 0 <= j < |es| && es[j].Connect? ==> !Open(es[..j])
  }

  /** Failed connects since the last successful one, read off the announcements. */
  function Failures(es: seq<Effect>): nat {
    if es == [] then 0
    else if es[|es| - 1] == Emit(Connected) then 0
    else Failures(es[..|es| - 1]) + (if es[|es| - 1] == Emit(Offline) then 1 else 0)
  }

  /** The failures before the one a wait follows; none when it follows a drop. */
  function EarlierFailures(es: seq<Effect>): nat {
    if Failures(es) == 0 then 0 else Failures(es) - 1
  }

  ghost predicate WaitsAreBackoff(c: Config, es: seq<Effect>) {
    forall j :: 0 <= j < |es| && es[j].Wait? ==>
      es[j].d == Jittered(c, Backoff(c, EarlierFailures(es[..j])), es[j].random)
  }

  /** The state last announced, the starting one when nothing was. */
  function LastLink(start: Link, es: seq<Effect>): Link {
    if es == [] then start
    else if es[|es| - 1].Emit? then es[|es| - 1].l
    else LastLink(start, es[..|es| - 1])
  }

  predicate Allowed(a: Link, b: Link) {
    match a
    case Closed => b.Connecting?
    case Connecting => b.Offline? || b.Connected?
    case Offline => b.Connecting? || b.Closed?
    case Connected => b.Closing? || b.Reconnecting?
    case Reconnecting => b.Connecting? || b.Closed?
    case Closing => b.Closed?
  }

  predicate Announced(es: seq<Effect>) {
    exists i :: 0 <= i < |es| && es[i].Emit?
  }

  /** No state is announced twice in a row, and every announcement after the first follows the automaton. */
  ghost predicate FollowsAutomaton(start: Link, es: seq<Effect>) {
    forall j :: 0 <= j < |es| && es[j].Emit? ==>
      && LastLink(start, es[..j]) != es[j].l
      && (Announced(es[..j]) || start.Closed? ==> Allowed(LastLink(start, es[..j]), es[j].l))
  }

  ghost predicate Good(c: Config, start: Link, p: Position) {
    && p.link == LastLink(start, p.effects)
    && RedialsAfterClose(p.effects)
    && WaitsAreBackoff(c, p.effects)
    && FollowsAutomaton(start, p.effects)
  }

  ghost predicate Inv(c: Config, start: Link, p: Position) {
    && Good(c, start, p)
    && !Open(p.effects)
    && (!p.returned ==> p.backoff == Backoff(c, Failures(p.effects)))
    && (p.returned ==> p.link.Closed?)
    && (!p.returned && p.effects != [] ==> p.link.Offline? || p.link.Reconnecting?)
    && (p.effects == [] ==> p.link == start)
  }

  lemma Prefix<T>(es: seq<T>, e: T)
    ensures (es + [e])[..|es|] == es
    ensures forall j :: 0 <= j <= |es| ==> (es + [e])[..j] == es[..j]
  {
  }

  lemma DoKeeps(c: Config, start: Link, p: Position, e: Effect)
    requires Good(c, start, p) && !e.Emit?
    requires e.Connect? ==> !Open(p.effects)
    requires e.Wait? ==> e.d == Jittered(c, Backoff(c, EarlierFailures(p.effects)), e.random)
    ensures Good(c, start, p.Do(e))
    ensures Open(p.Do(e).effects) == (e.Connect? || (!e.Close? && Open(p.effects)))
    ensures Failures(p.Do(e).effects) == Failures(p.effects)
  {
    Prefix(p.effects, e);
    assert p.effects[..|p.effects|] == p.effects;
  }

  lemma SetLinkKeeps(c: Config, start: Link, p: Position, l: Link)
    requires Good(c, start, p)
    requires p.link != l && (Announced(p.effects) || start.Closed?) ==> Allowed(p.link, l)
    ensures Good(c, start, p.SetLink(l)) && p.SetLink(l).link == l
    ensures Open(p.SetLink(l).effects) == Open(p.effects)
    ensures p.link != l ==>
      Failures(p.SetLink(l).effects) == if l.Connected? then 0 else Failures(p.effects) + (if l.Offline? then 1 else 0)
    ensures p.link == l ==> p.SetLink(l) == p
  {
    if p.link != l {
      Prefix(p.effects, Emit(l));
      assert p.effects[..|p.effects|] == p.effects;
    }
  }

  lemma ReturnKeeps(c: Config, start: Link, p: Position)
    requires Good(c, start, p) && !Open(p.effects)
    requires p.link.Offline? || p.link.Reconnecting? || p.link.Closing? || p.effects == []
    ensures Inv(c, start, p.Return())
  {
    SetLinkKeeps(c, start, p, Closed);
  }

  /** What a dial leaves: connecting, open, nothing waited for yet. */
  lemma DialKeeps(c: Config, start: Link, p: Position)
    requires Inv(c, start, p) && !p.returned
    ensures var q := p.SetLink(Connecting).Do(Connect);
            Good(c, start, q) && q.link.Connecting? && Failures(q.effects) == Failures(p.effects)
  {
    SetLinkKeeps(c, start, p, Connecting);
    DoKeeps(c, start, p.SetLink(Connecting), Connect);
  }

  lemma FailureKeeps(c: Config, start: Link, q: Position)
    requires Good(c, start, q) && q.link.Connecting?
    ensures var b := q.Do(Close).SetLink(Offline);
            Good(c, start, b) && b.link.Offline? && !Open(b.effects) && Failures(b.effects) == Failures(q.effects) + 1
  {
    DoKeeps(c, start, q, Close);
    SetLinkKeeps(c, start, q.Do(Close), Offline);
  }

  lemma SuccessKeeps(c: Config, start: Link, q: Position, l: Link)
    requires Good(c, start, q) && q.link.Connecting? && (l.Closing? || l.Reconnecting?)
    ensures var v := q.SetLink(Connected).(backoff := c.initial).SetLink(l).Do(Close);
            Good(c, start, v) && v.link == l && !Open(v.effects) && Failures(v.effects) == 0
  {
    SetLinkKeeps(c, start, q, Connected);
    var u := q.SetLink(Connected).(backoff := c.initial);
    SetLinkKeeps(c, start, u, l);
    DoKeeps(c, start, u.SetLink(l), Close);
  }

  lemma FailedTurnKeeps(c: Config, start: Link, p: Position, r: Round)
    requires Inv(c, start, p) && !p.returned && !r.cancelledFirst && !r.connects
    ensures Inv(c, start, Turn(c, p, r))
  {
    DialKeeps(c, start, p);
    var q := p.SetLink(Connecting).Do(Connect);
    FailureKeeps(c, start, q);
    var b := q.Do(Close).SetLink(Offline);
    WaitKeeps(c, start, b, Wait(Jittered(c, p.backoff, r.random), r.random), NextBackoff(c, p.backoff),
        r.waitCancelled);
  }

  /** The wait ends a turn: with the next turn's backoff, or with the return a cancellation forces. */
  lemma WaitKeeps(c: Config, start: Link, b: Position, e: Effect, next: int, cancelled: bool)
    requires Good(c, start, b) && !Open(b.effects) && !b.returned && (b.link.Offline? || b.link.Reconnecting?)
    requires e.Wait? && e.d == Jittered(c, Backoff(c, EarlierFailures(b.effects)), e.random)
    requires next == Backoff(c, Failures(b.effects))
    ensures Inv(c, start, if cancelled then b.Do(e).Return() else b.Do(e).(backoff := next))
  {
    DoKeeps(c, start, b, e);
    if cancelled { ReturnKeeps(c, start, b.Do(e)); }
  }

  lemma ConnectedTurnKeeps(c: Config, start: Link, p: Position, r: Round)
    requires Inv(c, start, p) && !p.returned && !r.cancelledFirst && r.connects
    ensures Inv(c, start, Turn(c, p, r))
  {
    DialKeeps(c, start, p);
    var q := p.SetLink(Connecting).Do(Connect);
    var l := if r.drops then Reconnecting else Closing;
    SuccessKeeps(c, start, q, l);
    var v := q.SetLink(Connected).(backoff := c.initial).SetLink(l).Do(Close);
    if r.drops {
      WaitKeeps(c, start, v, Wait(Jittered(c, c.initial, r.random), r.random), c.initial, r.waitCancelled);
    } else {
      ReturnKeeps(c, start, v);
    }
  }

  lemma {:induction false} EveryRunKeeps(c: Config, start: Link, rounds: seq<Round>)
    ensures Inv(c, start, Turns(c, start, rounds))
    decreases |rounds|
  {
    if rounds != [] {
      EveryRunKeeps(c, start, rounds[..|rounds| - 1]);
      var p, r := Turns(c, start, rounds[..|rounds| - 1]), rounds[|rounds| - 1];
      if !p.returned {
        if r.cancelledFirst {
          ReturnKeeps(c, start, p);
        } else if r.connects {
          ConnectedTurnKeeps(c, start, p, r);
        } else {
          FailedTurnKeeps(c, start, p, r);
        }
      }
    }
  }

  lemma TurnReturns(c: Config, p: Position, r: Round)
    ensures Turn(c, p, r).returned == (p.returned || SeesCancel(r))
  {
  }

  lemma {:induction false} ReturnsIffCancelled(c: Config, start: Link, rounds: seq<Round>)
    ensures Turns(c, start, rounds).returned <==> exists i :: 0 <= i < |rounds| && SeesCancel(rounds[i])
    decreases |rounds|
  {
    if rounds != [] {
      var n := |rounds| - 1;
      ReturnsIffCancelled(c, start, rounds[..n]);
      TurnReturns(c, Turns(c, start, rounds[..n]), rounds[n]);
      if Turns(c, start, rounds[..n]).returned {
        var i :| 0 <= i < n && SeesCancel(rounds[..n][i]);
        assert SeesCancel(rounds[i]);
      } else {
        forall i | 0 <= i < n ensures !SeesCancel(rounds[i]) {
          assert rounds[..n][i] == rounds[i];
        }
      }
    }
  }

  // ----- a dial, a close, a wait -----

  function Dials(es: seq<Effect>): nat {
    if es == [] then 0 else Dials(es[..|es| - 1]) + if es[|es| - 1].Connect? then 1 else 0
  }

  function Waits(es: seq<Effect>): nat {
    if es == [] then 0 else Waits(es[..|es| - 1]) + if es[|es| - 1].Wait? then 1 else 0
  }

  /** What may stand right behind an effect, and whether a run may end there. */
  predicate Follows(a: Effect, b: Effect) {
    match a
    case Emit(l) =>
      (match l
       case Connecting => b.Connect?
       case Offline => b.Wait?
       case Connected => b == Emit(Closing) || b == Emit(Reconnecting)
       case Closing => b.Close?
       case Reconnecting => b.Close?
       case Closed => false)
    case Connect => b.Close? || b == Emit(Connected)
    case Close => b == Emit(Offline) || b == Emit(Closed) || b.Wait?
    case Wait(_, _) => b == Emit(Connecting) || b == Emit(Closed)
  }

  ghost predicate InOrder(es: seq<Effect>) {
    forall j :: 0 < j < |es| ==> Follows(es[j - 1], es[j])
  }

  /** As many waits as dials before each dial. */
  ghost predicate DialsWait(es: seq<Effect>) {
    forall j :: 0 <= j < |es| && es[j].Connect? ==> Waits(es[..j]) == Dials(es[..j])
  }

  /** Both, effect by effect. */
  predicate Orderly(es: seq<Effect>) {
    es == [] ||
      var n := |es| - 1;
      && Orderly(es[..n])
      && (n > 0 ==> Follows(es[n - 1], es[n]))
      && (es[n].Connect? ==> Waits(es[..n]) == Dials(es[..n]))
  }

  lemma {:induction false} OrderlyMeans(es: seq<Effect>)
    requires Orderly(es)
    ensures InOrder(es) && DialsWait(es)
    decreases |es|
  {
    if es != [] {
      var n := |es| - 1;
      OrderlyMeans(es[..n]);
      forall j | 0 < j < |es| ensures Follows(es[j - 1], es[j]) {
        if j < n { assert es[..n][j - 1] == es[j - 1] && es[..n][j] == es[j]; }
      }
      forall j | 0 <= j < |es| && es[j].Connect? ensures Waits(es[..j]) == Dials(es[..j]) {
        if j < n { assert es[..n][j] == es[j] && es[..n][..j] == es[..j]; }
      }
    }
  }

  predicate EndsWith(es: seq<Effect>, a: Effect) {
    es != [] && es[|es| - 1] == a
  }

  predicate Paced(p: Position) {
    && Orderly(p.effects)
    && (!p.returned ==> Waits(p.effects) == Dials(p.effects))
    && (!p.returned && p.effects != [] ==>
          p.effects[|p.effects| - 1].Wait? && (p.link.Offline? || p.link.Reconnecting?))
    && (!p.returned && p.effects == [] ==> p.link.Closed?)
    && (p.returned && p.effects != [] ==> EndsWith(p.effects, Emit(Closed)))
  }

  /** A run in the middle of a turn, one dial ahead of its waits. */
  predicate Dialling(es: seq<Effect>, last: Effect, dials: nat) {
    Orderly(es) && EndsWith(es, last) && Waits(es) + 1 == Dials(es) == dials
  }

  /** One effect more. */
  lemma Grows(es: seq<Effect>, e: Effect)
    requires Orderly(es) && (es != [] ==> Follows(es[|es| - 1], e))
    requires e.Connect? ==> Waits(es) == Dials(es)
    ensures Orderly(es + [e]) && EndsWith(es + [e], e)
    ensures Waits(es + [e]) == Waits(es) + (if e.Wait? then 1 else 0)
    ensures Dials(es + [e]) == Dials(es) + (if e.Connect? then 1 else 0)
  {
    assert (es + [e])[..|es|] == es;
  }

  lemma DialPaced(p: Position)
    requires Paced(p) && !p.returned
    ensures var q := p.SetLink(Connecting).Do(Connect);
      Dialling(q.effects, Connect, Dials(p.effects) + 1) && q.link.Connecting? && !q.returned
  {
    Grows(p.effects, Emit(Connecting));
    Grows(p.SetLink(Connecting).effects, Connect);
  }

  lemma WaitPaced(p: Position, last: Effect, dials: nat, e: Effect, cancelled: bool)
    requires Dialling(p.effects, last, dials) && Follows(last, e) && e.Wait? && !p.returned
    requires p.link.Offline? || p.link.Reconnecting?
    ensures var q := if cancelled then p.Do(e).Return() else p.Do(e);
      Paced(q) && Dials(q.effects) == dials
  {
    Grows(p.effects, e);
    Grows(p.Do(e).effects, Emit(Closed));
  }

  lemma FailurePaced(q: Position, dials: nat)
    requires Dialling(q.effects, Connect, dials) && q.link.Connecting?
    ensures Dialling(q.Do(Close).SetLink(Offline).effects, Emit(Offline), dials)
  {
    Grows(q.effects, Close);
    Grows(q.Do(Close).effects, Emit(Offline));
  }

  lemma SuccessPaced(q: Position, dials: nat, l: Link)
    requires Dialling(q.effects, Connect, dials) && q.link.Connecting? && (l.Closing? || l.Reconnecting?)
    ensures Dialling(q.SetLink(Connected).SetLink(l).Do(Close).effects, Close, dials)
  {
    Grows(q.effects, Emit(Connected));
    Grows(q.SetLink(Connected).effects, Emit(l));
    Grows(q.SetLink(Connected).SetLink(l).effects, Close);
  }

  lemma FailedTurnPaced(c: Config, p: Position, r: Round)
    requires Paced(p) && !p.returned && !r.cancelledFirst && !r.connects
    ensures Paced(Turn(c, p, r)) && Dials(Turn(c, p, r).effects) == Dials(p.effects) + 1
  {
    DialPaced(p);
    var q := p.SetLink(Connecting).Do(Connect);
    FailurePaced(q, Dials(p.effects) + 1);
    var b := q.Do(Close).SetLink(Offline);
    WaitPaced(b, Emit(Offline), Dials(p.effects) + 1, Wait(Jittered(c, p.backoff, r.random), r.random),
              r.waitCancelled);
  }

  lemma ConnectedTurnPaced(c: Config, p: Position, r: Round)
    requires Paced(p) && !p.returned && !r.cancelledFirst && r.connects
    ensures Paced(Turn(c, p, r)) && Dials(Turn(c, p, r).effects) == Dials(p.effects) + 1
  {
    DialPaced(p);
    var q := p.SetLink(Connecting).Do(Connect);
    var l := if r.drops then Reconnecting else Closing;
    SuccessPaced(q, Dials(p.effects) + 1, l);
    var v := q.SetLink(Connected).(backoff := c.initial).SetLink(l).Do(Close);
    assert v.effects == q.SetLink(Connected).SetLink(l).Do(Close).effects;
    if r.drops {
      WaitPaced(v, Close, Dials(p.effects) + 1, Wait(Jittered(c, c.initial, r.random), r.random), r.waitCancelled);
    } else {
      Grows(v.effects, Emit(Closed));
    }
  }

  /** The turns that dial: those begun before the return, with the context not cancelled at their head. */
  function DialingTurns(c: Config, link: Link, rounds: seq<Round>): nat {
    if rounds == [] then 0
    else
      var n := |rounds| - 1;
      DialingTurns(c, link, rounds[..n])
      + if Turns(c, link, rounds[..n]).returned || rounds[n].cancelledFirst then 0 else 1
  }

  lemma {:induction false} EveryRunIsPaced(c: Config, rounds: seq<Round>)
    ensures var p := Turns(c, Closed, rounds);
      Paced(p) && Dials(p.effects) == DialingTurns(c, Closed, rounds)
    decreases |rounds|
  {
    if rounds != [] {
      var n := |rounds| - 1;
      EveryRunIsPaced(c, rounds[..n]);
      TurnIsPaced(c, Turns(c, Closed, rounds[..n]), rounds[n]);
    }
  }

  lemma TurnIsPaced(c: Config, p: Position, r: Round)
    requires Paced(p)
    ensures var q := Turn(c, p, r);
      Paced(q) && Dials(q.effects) == Dials(p.effects) + if p.returned || r.cancelledFirst then 0 else 1
  {
    if !p.returned {
      if r.cancelledFirst {
        if p.effects != [] { Grows(p.effects, Emit(Closed)); }
      } else if r.connects {
        ConnectedTurnPaced(c, p, r);
      } else {
        FailedTurnPaced(c, p, r);
      }
    }
  }

  /** Over every run from the state a manager starts in: every effect is followed only by what may follow it,
      before each dial the run has waited as often as it has dialled, every turn that begins uncancelled dials
      just once, and a run that has not returned stands behind its last wait. */
  lemma RunsArePaced(c: Config, rounds: seq<Round>)
    ensures var p := Turns(c, Closed, rounds);
      && InOrder(p.effects) && DialsWait(p.effects)
      && Dials(p.effects) == DialingTurns(c, Closed, rounds)
      && (!p.returned ==> Waits(p.effects) == Dials(p.effects))
      && (p.effects != [] ==>
            if p.returned then EndsWith(p.effects, Emit(Closed)) else p.effects[|p.effects| - 1].Wait?)
  {
    EveryRunIsPaced(c, rounds);
    OrderlyMeans(Turns(c, Closed, rounds).effects);
  }

  lemma {:induction false} CountsOfParts(es: seq<Effect>, i: nat, j: nat)
    requires i <= j <= |es|
    ensures Waits(es[..j]) == Waits(es[..i]) + Waits(es[i..j])
    ensures Dials(es[..j]) == Dials(es[..i]) + Dials(es[i..j])
    decreases j
  {
    if i < j {
      CountsOfParts(es, i, j - 1);
      assert es[..j][..j - 1] == es[..j - 1] && es[i..j][..j - 1 - i] == es[i..j - 1];
    } else {
      assert es[i..j] == [];
    }
  }

  /** Between a dial and the next there is exactly one wait, however many turns the run has. */
  lemma OneWaitBetweenDials(c: Config, rounds: seq<Round>, i: nat, j: nat)
    requires var es := Turns(c, Closed, rounds).effects;
      i < j < |es| && es[i].Connect? && es[j].Connect? && Dials(es[i..j]) == 1
    ensures Waits(Turns(c, Closed, rounds).effects[i..j]) == 1
  {
    RunsArePaced(c, rounds);
    CountsOfParts(Turns(c, Closed, rounds).effects, i, j);
  }

  // ----- the context -----

  /** Whether the context is cancelled, at the moments a run looks at it: moment 3i heads turn i, 3i + 1 ends its
      select and 3i + 2 its wait. */
  type Context = nat -> bool

  ghost predicate StaysCancelled(ctx: Context) {
    forall i: nat, j: nat :: i <= j && ctx(i) ==> ctx(j)
  }

  /** The head of a turn sees the context as it is; a select or a wait may end with it only when it is cancelled,
      and may also end otherwise, when the other case was ready as well. */
  predicate Sees(ctx: Context, i: nat, r: Round) {
    && (r.cancelledFirst <==> ctx(3 * i))
    && (r.connects && !r.drops ==> ctx(3 * i + 1))
    && (r.waitCancelled ==> ctx(3 * i + 2))
  }

  ghost predicate Under(ctx: Context, rounds: seq<Round>) {
    StaysCancelled(ctx) && forall i :: 0 <= i < |rounds| ==> Sees(ctx, i, rounds[i])
  }

  /** Every return happens after the cancellation, and the cancellation is answered by the next head of a turn at
      the latest: that turn returns without dialling, announcing at most `closed`. */
  lemma ReturnFollowsCancellation(c: Config, start: Link, rounds: seq<Round>, ctx: Context)
    requires Under(ctx, rounds)
    ensures Turns(c, start, rounds).returned ==> ctx(3 * |rounds|)
    ensures rounds != [] && ctx(3 * (|rounds| - 1)) ==>
      var p, q := Turns(c, start, rounds[..|rounds| - 1]), Turns(c, start, rounds);
      q.returned && (q.effects == p.effects || q.effects == p.effects + [Emit(Closed)])
  {
    ReturnsIffCancelled(c, start, rounds);
    if Turns(c, start, rounds).returned {
      var i :| 0 <= i < |rounds| && SeesCancel(rounds[i]);
      assert Sees(ctx, i, rounds[i]) && 3 * i + 2 <= 3 * |rounds|;
    }
    if rounds != [] { assert Sees(ctx, |rounds| - 1, rounds[|rounds| - 1]); }
  }

  /** In every run: each wait is the capped doubling of the initial backoff for the failures since the last
      success, jittered; each redial follows a Close; the announced states never repeat and follow the
      automaton; and a run returns exactly when it has seen the cancellation, in state closed. */
  lemma ManagerRuns(c: Config, start: Link, rounds: seq<Round>)
    requires c.Valid()
    ensures var p := Turns(c, start, rounds);
            && RedialsAfterClose(p.effects)
            && FollowsAutomaton(start, p.effects)
            && (p.returned <==> exists i :: 0 <= i < |rounds| && SeesCancel(rounds[i]))
            && (p.returned ==> p.link.Closed?)
            && (forall j :: 0 <= j < |p.effects| && p.effects[j].Wait? ==>
                  var e := p.effects[j];
                  var k := EarlierFailures(p.effects[..j]);
                  e.d == Jittered(c, if k == 0 then c.initial else Min(c.initial * Pow2(k), c.max), e.random))
  {
    EveryRunKeeps(c, start, rounds);
    ReturnsIffCancelled(c, start, rounds);
    var p := Turns(c, start, rounds);
    forall j | 0 <= j < |p.effects| && p.effects[j].Wait?
      ensures var k := EarlierFailures(p.effects[..j]);
              var b := if k == 0 then c.initial else Min(c.initial * Pow2(k), c.max);
              p.effects[j].d == Jittered(c, b, p.effects[j].random)
    {
      BackoffIsCappedDoubling(c, EarlierFailures(p.effects[..j]));
    }
  }

  // ----- the manager itself -----

  class Manager {
    const cfg: Config
    var state: Link
    var effects: seq<Effect>

    constructor (cfg: Config)
      ensures this.cfg == WithDefaults(cfg) && state == Closed && effects == []
    {
      this.cfg := WithDefaults(cfg);
      state, effects := Closed, [];
    }

    /** Announces a state when it differs from the current one. */
    method SetState(s: Link)
      modifies this
      ensures state == s
      ensures effects == if old(state) == s then old(effects) else old(effects) + [Emit(s)]
    {
      var changed := state != s;
      state := s;
      if changed {
        effects := effects + [Emit(s)];
      }
    }

    method Act(e: Effect)
      modifies this`effects
      ensures effects == old(effects) + [e]
    {
      effects := effects + [e];
    }

    /** The loop of Run, for as long as `rounds` lasts; the effects are exactly those of the specified turns. */
    method Run(rounds: seq<Round>) returns (returned: bool)
      requires effects == []
      modifies this
      ensures var p := Turns(cfg, old(state), rounds); state == p.link && effects == p.effects && returned == p.returned
    {
      var backoff := cfg.initial;
      returned := false;
      ghost var start := state;
      for i := 0 to |rounds|
        invariant var p := Turns(cfg, start, rounds[..i]);
                  && state == p.link && effects == p.effects && returned == p.returned
                  && (!returned ==> backoff == p.backoff)
      {
        assert rounds[..i + 1][..i] == rounds[..i];
        var r := rounds[i];
        if !returned {
          if r.cancelledFirst {
            SetState(Closed);
            returned := true;
          } else {
            SetState(Connecting);
            Act(Connect);
            if !r.connects {
              Act(Close);
              SetState(Offline);
              Act(Wait(Jittered(cfg, backoff, r.random), r.random));
              if r.waitCancelled {
                SetState(Closed);
                returned := true;
              } else {
                backoff := NextBackoff(cfg, backoff);
              }
            } else {
              SetState(Connected);
              backoff := cfg.initial;
              if !r.drops {
                SetState(Closing);
                Act(Close);
                SetState(Closed);
                returned := true;
              } else {
                SetState(Reconnecting);
                Act(Close);
                Act(Wait(Jittered(cfg, backoff, r.random), r.random));
                if r.waitCancelled {
                  SetState(Closed);
                  returned := true;
                }
              }
            }
          }
        }
      }
      assert rounds[..|rounds|] == rounds;
    }
  }
}
