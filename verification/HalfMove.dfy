// A publish that deletes an entity it was meant to move: the run of internal/haplane/plane.go:317-328, on a
// component an earlier document had withheld.
module HalfMove {
  import opened Prelude
  import opened Tombstones
  import opened PriorState

  predicate Published(owns: Component -> bool, c: Component) {
    IsLive(c) && KeepsEntity(c) && owns(c)
  }

  /** The gate refuses one component as it was first rendered. */
  function Refusing(k: Key, c: Component): Validator {
    (b: Document) => if k in b && b[k] == c then Blocking([Some(k)]) else Valid
  }

  /** A process that finds the config an older release left for one of its two components, and withholds that
      one. */
  function Withholding(n: Node, k: Key, c: Component, j: Key, d: Component): seq<Action> {
    [Restart(map[n := map[k := c, j := d]], {Id(n, k, c)}), Begin(0, n), Ask(0), CloseWindow,
     Prepare(0, Refusing(k, c)), Send(0, true, true), Record(0, true)]
  }

  /** Then its bounds move, the gate lets it through, and the retraction is the last thing to arrive. */
  function HalfMoving(n: Node, k: Key, c: Component, now: Component, j: Key, d: Component): seq<Action> {
    [BoundsChange(map[n := map[k := now, j := d]]), Begin(1, n), Ask(1), Prepare(1, Refusing(k, c)),
     Retract(1, {Id(n, k, c)}), Send(1, false, false)]
  }

  lemma NamesOne(b: Document, k: Key)
    requires k in b
    ensures Named(b, [Some(k)]) == Some({k})
  {
    var issues := [Some(k)];
    var names := set i | 0 <= i < |issues| && issues[i].Some? :: issues[i].value;
    assert issues[0] == Some(k);
    assert names == {k};
  }

  lemma GateRefuses(k: Key, c: Component, j: Key, d: Component)
    requires k != j && IsLive(d)
    ensures Outgoing(map[k := c, j := d], map[], Refusing(k, c)) == Some((map[j := d], {k}))
  {
    var b: Document := map[k := c, j := d];
    assert Marked(b, map[]) == b && j in Live(b);
    NamesOne(b, k);
    assert b - {k} == map[j := d] && j in Live(map[j := d]);
  }

  lemma GateAdmits(k: Key, c: Component, now: Component, j: Key, d: Component)
    requires k != j && IsLive(d) && c != now
    ensures Outgoing(map[k := now, j := d], map[j := d], Refusing(k, c)) == Some((map[k := now, j := d], {}))
  {
    var b: Document := map[k := now, j := d];
    assert Marked(b, map[j := d]) == b && j in Live(b);
  }

  lemma Boots(owns: Component -> bool, r: map<Node, Document>, n: Node, e: Topic)
    requires Proper(owns, r)
    ensures Run(owns, [Restart(r, {e}), Begin(0, n)]) ==
            State(r, 1, Memo(None, map[]), None, map[0 := Asking(n, 1)], map[], map[], {e}, {e}, {}, [])
  {
    AppendTwo(owns, [], Restart(r, {e}), Begin(0, n));
    assert [] + [Restart(r, {e}), Begin(0, n)] == [Restart(r, {e}), Begin(0, n)];
  }

  /** The first read of a process's first pass: the broker holds no document. */
  lemma FirstRead(owns: Component -> bool, r: map<Node, Document>, n: Node, e: Topic)
    requires Proper(owns, r)
    ensures Run(owns, [Restart(r, {e}), Begin(0, n), Ask(0), CloseWindow]) ==
            State(r, 1, Memo(Some(1), map[]), None, map[0 := Ready(n, 1, map[])], map[], map[], {e}, {e}, {}, [])
  {
    var p := [Restart(r, {e}), Begin(0, n)];
    Boots(owns, r, n, e);
    AppendTwo(owns, p, Ask(0), CloseWindow);
    assert p + [Ask(0), CloseWindow] == [Restart(r, {e}), Begin(0, n), Ask(0), CloseWindow];
  }

  /** Components `k` and `j` are rendered, and `k` withheld with its old config in place. */
  predicate Withholds(s: State, n: Node, k: Key, c: Component, j: Key, d: Component) {
    && s.renders == map[n := map[k := c, j := d]]
    && s.rt == 1 && s.memo == Memo(Some(1), map[n := map[j := d]]) && s.window.None? && s.passes == map[]
    && s.configs == {Id(n, k, c)} && Id(n, k, c) in s.registry && s.withheld == {Id(n, k, c)} && s.written == []
  }

  lemma NothingRemoved(s: State, n: Node, prior: Document, doc: Document)
    requires forall k :: k in doc ==> IsLive(doc[k])
    ensures NewMarks(s, n, prior, doc) == []
  {
    assert Removals(doc) == map[];
  }

  lemma OneId(n: Node, k: Key, c: Component)
    ensures Ids(n, map[k := c]) == {Id(n, k, c)}
  {
    var doc: Document := map[k := c];
    assert k in doc && doc[k] == c;
  }

  lemma FirstSend(owns: Component -> bool, s: State, w: Pass, e: Topic, j: Key, d: Component)
    requires w.Sending? && w.doc == map[j := d] && IsLive(d) && Id(w.node, j, d) != e && e in s.registry
    requires s.withheld == {} && s.written == [] && Ids(w.node, Part(RenderedBy(s.renders, w.node), w.bad)) == {e}
    ensures var t := Arrived(s, w, true);
      && t.withheld == {e} && t.written == [] && e in t.registry
      && t == s.(broker := t.broker, registry := t.registry, withheld := {e})
  {
    NothingRemoved(s, w.node, w.prior, w.doc);
    assert Removals(w.doc) == map[];
  }

  lemma FirstPrepare(owns: Component -> bool, s: State, n: Node, k: Key, c: Component, j: Key, d: Component)
    requires k != j && IsLive(d)
    requires s == State(map[n := map[k := c, j := d]], 1, Memo(Some(1), map[]), None, map[0 := Ready(n, 1, map[])],
                        map[], map[], {Id(n, k, c)}, {Id(n, k, c)}, {}, [])
    ensures var s1 := Step(owns, s, Prepare(0, Refusing(k, c)));
      && s1.passes.Keys == {0} && s1.passes[0].Sending?
      && s1 == s.(passes := s1.passes)
      && s1.passes[0] == Sending(n, 1, map[], map[j := d], {k}, s1.passes[0].keep)
  {
    GateRefuses(k, c, j, d);
  }

  lemma FirstSendWithholds(owns: Component -> bool, s: State, n: Node, k: Key, c: Component, j: Key, d: Component)
    requires k != j && IsLive(d) && s.passes.Keys == {0} && s.passes[0].Sending?
    requires s.passes[0] == Sending(n, 1, map[], map[j := d], {k}, s.passes[0].keep)
    requires s == State(map[n := map[k := c, j := d]], 1, Memo(Some(1), map[]), None, s.passes,
                        map[], map[], {Id(n, k, c)}, {Id(n, k, c)}, {}, [])
    ensures var t := Step(owns, s, Send(0, true, true));
      && t.passes.Keys == {0} && t.passes[0].Written?
      && t.passes[0] == Written(n, 1, map[j := d], s.passes[0].keep, t.passes[0].reached)
      && t == s.(passes := t.passes, broker := t.broker, registry := t.registry, withheld := {Id(n, k, c)})
      && Id(n, k, c) in t.registry
  {
    var w, u := s.passes[0], s.(passes := s.passes - {0});
    assert Part(RenderedBy(u.renders, n), {k}) == map[k := c];
    OneId(n, k, c);
    FirstSend(owns, u, w, Id(n, k, c), j, d);
    assert Live(w.doc) == w.doc;
  }

  lemma FirstRecord(owns: Component -> bool, s: State, n: Node, k: Key, c: Component, j: Key, d: Component)
    requires s.renders == map[n := map[k := c, j := d]] && s.rt == 1 && s.window.None? && s.memo == Memo(Some(1), map[])
    requires s.configs == {Id(n, k, c)} && Id(n, k, c) in s.registry && s.withheld == {Id(n, k, c)} && s.written == []
    requires s.passes.Keys == {0} && s.passes[0].Written?
    requires s.passes[0].node == n && s.passes[0].rt == 1 && s.passes[0].live == map[j := d]
    ensures Withholds(Step(owns, s, Record(0, true)), n, k, c, j, d)
  {
    var docs: map<Node, Document> := map[n := s.passes[0].live];
    assert s.passes - {0} == map[] && j in s.passes[0].live;
    assert Recorded(s.memo, 1, n, s.passes[0].live).docs == docs;
  }

  lemma WithholdingWithholds(owns: Component -> bool, n: Node, k: Key, c: Component, j: Key, d: Component)
    requires k != j && Published(owns, c) && Published(owns, d)
    ensures Withholds(Run(owns, Withholding(n, k, c, j, d)), n, k, c, j, d)
  {
    var r: map<Node, Document> := map[n := map[k := c, j := d]];
    var p := [Restart(r, {Id(n, k, c)}), Begin(0, n), Ask(0), CloseWindow];
    FirstRead(owns, r, n, Id(n, k, c));
    AppendTwo(owns, p, Prepare(0, Refusing(k, c)), Send(0, true, true));
    var q := p + [Prepare(0, Refusing(k, c)), Send(0, true, true)];
    Append(owns, q, Record(0, true));
    assert q + [Record(0, true)] == Withholding(n, k, c, j, d);
    FirstPrepare(owns, Run(owns, p), n, k, c, j, d);
    FirstSendWithholds(owns, Step(owns, Run(owns, p), Prepare(0, Refusing(k, c))), n, k, c, j, d);
    FirstRecord(owns, Run(owns, q), n, k, c, j, d);
  }

  /** The same component with other bounds. */
  predicate Rebounded(c: Component, now: Component) {
    c != now && c.platform == now.platform && c.uniqueId == now.uniqueId
  }

  lemma BoundsMove(owns: Component -> bool, s: State, n: Node, k: Key, c: Component, now: Component, j: Key,
      d: Component)
    requires k != j && Published(owns, now) && Published(owns, d) && Rebounded(c, now)
    requires s.renders == map[n := map[k := c, j := d]]
    ensures var r: map<Node, Document> := map[n := map[k := now, j := d]];
      Step(owns, s, BoundsChange(r)) == s.(renders := r)
  {
  }

  /** A later pass on the same connection is answered from the memo. */
  lemma LaterRead(owns: Component -> bool, s: State, p: PassId, n: Node)
    requires p !in s.passes && s.window.None? && s.memo.rt == Some(s.rt)
    ensures Step(owns, Step(owns, s, Begin(p, n)), Ask(p))
         == s.(passes := s.passes[p := Ready(n, s.rt, Lookup(s.memo, n))])
  {
  }

  lemma LaterPrepare(owns: Component -> bool, s: State, p: PassId, n: Node, k: Key, c: Component, now: Component,
      j: Key, d: Component)
    requires k != j && IsLive(d) && Rebounded(c, now)
    requires RenderedBy(s.renders, n) == map[k := now, j := d]
    requires p in s.passes && s.passes[p] == Ready(n, s.rt, map[j := d])
    ensures var t := Step(owns, s, Prepare(p, Refusing(k, c)));
      && t == s.(passes := t.passes) && p in t.passes && t.passes[p].Sending?
      && t.passes[p].node == n && t.passes[p].doc == map[k := now, j := d]
  {
    GateAdmits(k, c, now, j, d);
  }

  lemma LostMove(owns: Component -> bool, script: seq<Action>, p: PassId, e: Topic, n: Node, doc: Document, k: Key)
    requires var s := Run(owns, script);
      && p in s.passes && s.passes[p].Sending? && s.passes[p].node == n && s.passes[p].doc == doc
      && e in s.configs && e in s.registry
    requires k in doc && e == Id(n, k, doc[k]) && forall j :: j in doc ==> IsLive(doc[j])
    ensures var s, t := Run(owns, script), Run(owns, script + [Retract(p, {e}), Send(p, false, false)]);
      e !in t.registry && t.withheld == s.withheld && t.written == s.written
  {
    PublishOutcome(owns, script, p, {e}, Send(p, false, false), e);
    AppendTwo(owns, script, Retract(p, {e}), Send(p, false, false));
    assert k in Live(doc);
    var s := Step(owns, Run(owns, script), Retract(p, {e}));
    NothingRemoved(s.(passes := s.passes - {p}), n, s.passes[p].prior, doc);
  }

  lemma SecondRead(owns: Component -> bool, script: seq<Action>, n: Node, k: Key, c: Component, now: Component,
      j: Key, d: Component)
    requires k != j && Published(owns, now) && Published(owns, d) && Rebounded(c, now)
    requires Withholds(Run(owns, script), n, k, c, j, d)
    ensures var r: map<Node, Document> := map[n := map[k := now, j := d]];
      Run(owns, script + [BoundsChange(r), Begin(1, n), Ask(1)])
      == Run(owns, script).(renders := r, passes := map[1 := Ready(n, 1, map[j := d])])
  {
    var r: map<Node, Document> := map[n := map[k := now, j := d]];
    Append(owns, script, BoundsChange(r));
    BoundsMove(owns, Run(owns, script), n, k, c, now, j, d);
    var p := script + [BoundsChange(r)];
    AppendTwo(owns, p, Begin(1, n), Ask(1));
    LaterRead(owns, Run(owns, p), 1, n);
    assert p + [Begin(1, n), Ask(1)] == script + [BoundsChange(r), Begin(1, n), Ask(1)];
  }

  lemma SecondPass(owns: Component -> bool, script: seq<Action>, n: Node, k: Key, c: Component, now: Component,
      j: Key, d: Component)
    requires k != j && Published(owns, now) && Published(owns, d) && Rebounded(c, now)
    requires Withholds(Run(owns, script), n, k, c, j, d)
    ensures var s, t := Run(owns, script), Run(owns, script + HalfMoving(n, k, c, now, j, d)[..4]);
      && t == s.(renders := t.renders, passes := t.passes)
      && 1 in t.passes && t.passes[1].Sending? && t.passes[1].node == n && t.passes[1].doc == map[k := now, j := d]
  {
    var p := script + [BoundsChange(map[n := map[k := now, j := d]]), Begin(1, n), Ask(1)];
    SecondRead(owns, script, n, k, c, now, j, d);
    Append(owns, p, Prepare(1, Refusing(k, c)));
    LaterPrepare(owns, Run(owns, p), 1, n, k, c, now, j, d);
    assert p + [Prepare(1, Refusing(k, c))] == script + HalfMoving(n, k, c, now, j, d)[..4];
  }

  /** A publish deletes a withheld component's entity, and no tombstone has gone out for it: its old config is
      retracted ahead of a document that renders it again, and that document is lost. */
  lemma HalfMoveDeletesTheWithheld(owns: Component -> bool, n: Node, k: Key, c: Component, now: Component, j: Key,
      d: Component)
    requires k != j && Published(owns, c) && Published(owns, now) && Published(owns, d) && Rebounded(c, now)
    ensures var p, e := Withholding(n, k, c, j, d), Id(n, k, c);
      var s, t := Run(owns, p), Run(owns, p + HalfMoving(n, k, c, now, j, d));
      && e in s.withheld && e in s.registry
      && e in t.withheld && e !in t.registry && t.written == []
  {
    var p, q := Withholding(n, k, c, j, d), HalfMoving(n, k, c, now, j, d);
    WithholdingWithholds(owns, n, k, c, j, d);
    SecondPass(owns, p, n, k, c, now, j, d);
    LostMove(owns, p + q[..4], 1, Id(n, k, c), n, map[k := now, j := d], k);
    assert p + q[..4] + [Retract(1, {Id(n, k, c)}), Send(1, false, false)] == p + q;
  }
}
