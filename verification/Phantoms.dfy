// A component that is rendered no more is removed: from the read-back that finds it in the retained document to
// the entity that goes (internal/bridge/tombstone.go, internal/hass/tombstone.go).
module Phantoms {
  import opened Prelude
  import opened Tombstones
  import opened PriorState

  /** The pass that opened the window has not been answered, and no other answer was taken for its connection. */
  predicate WindowIsAsked(s: State) {
    s.window.Some? ==>
      var p := s.window.value.0;
      p in s.passes && s.passes[p].Asking? && s.memo.rt != Some(s.passes[p].rt)
  }

  lemma WindowStaysAsked(owns: Component -> bool, s: State, a: Action)
    requires WindowIsAsked(s)
    ensures WindowIsAsked(Step(owns, s, a))
  {
    match a
    case Begin(_, _) =>
    case Ask(_) =>
    case Prepare(_, _) =>
    case Send(_, _, _) =>
    case Record(_, _) =>
    case _ =>
  }

  lemma {:induction false} EveryWindowIsAsked(owns: Component -> bool, script: seq<Action>)
    ensures WindowIsAsked(Run(owns, script))
    decreases |script|
  {
    if script != [] {
      EveryWindowIsAsked(owns, script[..|script| - 1]);
      WindowStaysAsked(owns, Run(owns, script[..|script| - 1]), script[|script| - 1]);
    }
  }

  /** A component of ours, read back and rendered no more: first in the window, then in the pass's prior state, then
      as a removal in the document on its way. */
  predicate Reads(s: State, p: PassId, n: Node, k: Key, c: Component) {
    && k !in RenderedBy(s.renders, n)
    && p in s.passes && s.passes[p].Asking? && s.passes[p].node == n
    && s.window.Some? && s.window.value.0 == p
    && n in s.window.value.1 && k in s.window.value.1[n] && s.window.value.1[n][k] == c
  }

  predicate HasPrior(s: State, p: PassId, n: Node, k: Key, c: Component) {
    && k !in RenderedBy(s.renders, n)
    && p in s.passes && s.passes[p].Ready? && s.passes[p].node == n
    && k in s.passes[p].prior && s.passes[p].prior[k] == c
  }

  predicate Removes(s: State, p: PassId, n: Node, k: Key, c: Component) {
    && p in s.passes && s.passes[p].Sending? && s.passes[p].node == n
    && k in s.passes[p].doc && s.passes[p].doc[k] == Removal(c)
  }

  lemma DeliveredIsRead(owns: Component -> bool, s: State, p: PassId, n: Node, keys: set<Key>, k: Key)
    requires WindowIsAsked(s) && s.window.Some? && s.window.value.0 == p && s.passes[p].node == n
    requires n in s.broker && k in s.broker[n] && k in keys && k !in RenderedBy(s.renders, n)
    requires s.broker[n][k].platform != "" && owns(s.broker[n][k])
    ensures Reads(Step(owns, s, Deliver(n, keys)), p, n, k, s.broker[n][k])
  {
  }

  /** The steps that leave the reading of a document alone. */
  predicate LeavesReading(a: Action, n: Node) {
    !a.Restart? && !a.CloseWindow? && !(a.Deliver? && a.node == n)
  }

  lemma GoneStaysGone(owns: Component -> bool, s: State, a: Action, n: Node, k: Key)
    requires k !in RenderedBy(s.renders, n) && !a.Restart?
    ensures k !in RenderedBy(Step(owns, s, a).renders, n)
  {
  }

  lemma ReadsStays(owns: Component -> bool, s: State, a: Action, p: PassId, n: Node, k: Key, c: Component)
    requires Reads(s, p, n, k, c) && LeavesReading(a, n)
    ensures Reads(Step(owns, s, a), p, n, k, c)
  {
    GoneStaysGone(owns, s, a, n, k);
    match a
    case Begin(_, _) =>
    case Ask(_) =>
    case Prepare(_, _) =>
    case Send(_, _, _) =>
    case Record(_, _) =>
    case _ =>
  }

  lemma ReadIsPrior(owns: Component -> bool, s: State, p: PassId, n: Node, k: Key, c: Component)
    requires WindowIsAsked(s) && Reads(s, p, n, k, c)
    ensures HasPrior(Step(owns, s, CloseWindow), p, n, k, c)
  {
    MemoRemembers(s.memo, s.passes[p].rt, s.window.value.1, n, map[], n);
  }

  /** The steps of others, and no restart. */
  predicate LeavesPass(a: Action, p: PassId) {
    !a.Restart? && !((a.Prepare? || a.Send? || a.GiveUp?) && a.p == p)
  }

  lemma HasPriorStays(owns: Component -> bool, s: State, a: Action, p: PassId, n: Node, k: Key, c: Component)
    requires WindowIsAsked(s) && HasPrior(s, p, n, k, c) && LeavesPass(a, p)
    ensures HasPrior(Step(owns, s, a), p, n, k, c)
  {
    GoneStaysGone(owns, s, a, n, k);
    match a
    case Begin(_, _) =>
    case Ask(_) =>
    case Prepare(_, _) =>
    case Send(_, _, _) =>
    case Record(_, _) =>
    case _ =>
  }

  /** The gates let the document out, and do not withhold the removal. */
  predicate Admits(s: State, p: PassId, validate: Validator, k: Key) {
    p in s.passes && s.passes[p].Ready? ==>
      var out := Outgoing(RenderedBy(s.renders, s.passes[p].node), s.passes[p].prior, validate);
      out.Some? && k !in out.value.1
  }

  lemma PriorIsRemoved(owns: Component -> bool, s: State, p: PassId, n: Node, k: Key, c: Component,
      validate: Validator)
    requires HasPrior(s, p, n, k, c) && Admits(s, p, validate, k)
    ensures Removes(Step(owns, s, Prepare(p, validate)), p, n, k, c)
  {
    var r, prior := RenderedBy(s.renders, n), s.passes[p].prior;
    assert Marked(r, prior)[k] == Removal(c);
  }

  lemma RemovesStays(owns: Component -> bool, s: State, a: Action, p: PassId, n: Node, k: Key, c: Component)
    requires WindowIsAsked(s) && Removes(s, p, n, k, c) && LeavesPass(a, p)
    ensures Removes(Step(owns, s, a), p, n, k, c)
  {
    match a
    case Begin(_, _) =>
    case Ask(_) =>
    case Prepare(_, _) =>
    case Send(_, _, _) =>
    case Record(_, _) =>
    case _ =>
  }

  lemma RemovalArrives(owns: Component -> bool, s: State, p: PassId, n: Node, k: Key, c: Component, ok: bool)
    requires Removes(s, p, n, k, c)
    ensures Id(n, k, c) !in Step(owns, s, Send(p, ok, true)).registry
  {
    var doc := s.passes[p].doc;
    assert k in Removals(doc) && Id(n, k, doc[k]) == Id(n, k, c);
    RemovalsAreNotLive(n, doc);
  }

  lemma RemovesNext(owns: Component -> bool, script: seq<Action>, a: Action, p: PassId, n: Node, k: Key, c: Component)
    requires Removes(Run(owns, script), p, n, k, c) && LeavesPass(a, p)
    ensures Removes(Run(owns, script + [a]), p, n, k, c)
  {
    EveryWindowIsAsked(owns, script);
    Append(owns, script, a);
    RemovesStays(owns, Run(owns, script), a, p, n, k, c);
  }

  lemma HasPriorNext(owns: Component -> bool, script: seq<Action>, a: Action, p: PassId, n: Node, k: Key, c: Component)
    requires HasPrior(Run(owns, script), p, n, k, c) && LeavesPass(a, p)
    ensures HasPrior(Run(owns, script + [a]), p, n, k, c)
  {
    EveryWindowIsAsked(owns, script);
    Append(owns, script, a);
    HasPriorStays(owns, Run(owns, script), a, p, n, k, c);
  }

  // ----- with anything in between -----

  predicate AllLeaveReading(steps: seq<Action>, n: Node) {
    forall i :: 0 <= i < |steps| ==> LeavesReading(steps[i], n)
  }

  predicate AllLeavePass(steps: seq<Action>, p: PassId) {
    forall i :: 0 <= i < |steps| ==> LeavesPass(steps[i], p)
  }

  lemma {:induction false} ReadsOn(owns: Component -> bool, script: seq<Action>, steps: seq<Action>, p: PassId, n: Node,
      k: Key, c: Component)
    requires Reads(Run(owns, script), p, n, k, c) && AllLeaveReading(steps, n)
    ensures Reads(Run(owns, script + steps), p, n, k, c)
    decreases |steps|
  {
    if steps == [] {
      assert script + steps == script;
    } else {
      var g := |steps| - 1;
      ReadsOn(owns, script, steps[..g], p, n, k, c);
      Append(owns, script + steps[..g], steps[g]);
      ReadsStays(owns, Run(owns, script + steps[..g]), steps[g], p, n, k, c);
      assert script + steps[..g] + [steps[g]] == script + steps;
    }
  }

  lemma {:induction false} HasPriorOn(owns: Component -> bool, script: seq<Action>, steps: seq<Action>, p: PassId,
      n: Node, k: Key, c: Component)
    requires HasPrior(Run(owns, script), p, n, k, c) && AllLeavePass(steps, p)
    ensures HasPrior(Run(owns, script + steps), p, n, k, c)
    decreases |steps|
  {
    if steps == [] {
      assert script + steps == script;
    } else {
      var g := |steps| - 1;
      HasPriorOn(owns, script, steps[..g], p, n, k, c);
      HasPriorNext(owns, script + steps[..g], steps[g], p, n, k, c);
      assert script + steps[..g] + [steps[g]] == script + steps;
    }
  }

  lemma {:induction false} RemovesOn(owns: Component -> bool, script: seq<Action>, steps: seq<Action>, p: PassId,
      n: Node, k: Key, c: Component)
    requires Removes(Run(owns, script), p, n, k, c) && AllLeavePass(steps, p)
    ensures Removes(Run(owns, script + steps), p, n, k, c)
    decreases |steps|
  {
    if steps == [] {
      assert script + steps == script;
    } else {
      var g := |steps| - 1;
      RemovesOn(owns, script, steps[..g], p, n, k, c);
      RemovesNext(owns, script + steps[..g], steps[g], p, n, k, c);
      assert script + steps[..g] + [steps[g]] == script + steps;
    }
  }

  /** The read-back finds it: what the window delivers of our own document is the pass's prior state once it closes,
      whatever other passes, connections and instances do meanwhile. */
  lemma ReadBackIsPriorState(owns: Component -> bool, script: seq<Action>, p: PassId, n: Node, keys: set<Key>, k: Key,
      reading: seq<Action>)
    requires var s := Run(owns, script);
      && s.window.Some? && s.window.value.0 == p && p in s.passes && s.passes[p].node == n
      && n in s.broker && k in s.broker[n] && k in keys && k !in RenderedBy(s.renders, n)
      && s.broker[n][k].platform != "" && owns(s.broker[n][k])
    requires AllLeaveReading(reading, n)
    ensures HasPrior(Run(owns, script + [Deliver(n, keys)] + reading + [CloseWindow]), p, n, k,
                     Run(owns, script).broker[n][k])
  {
    var s := Run(owns, script);
    var c := s.broker[n][k];
    EveryWindowIsAsked(owns, script);
    Append(owns, script, Deliver(n, keys));
    DeliveredIsRead(owns, s, p, n, keys, k);
    ReadsOn(owns, script + [Deliver(n, keys)], reading, p, n, k, c);
    EveryWindowIsAsked(owns, script + [Deliver(n, keys)] + reading);
    Append(owns, script + [Deliver(n, keys)] + reading, CloseWindow);
    ReadIsPrior(owns, Run(owns, script + [Deliver(n, keys)] + reading), p, n, k, c);
  }

  /** And it goes: a component of ours in a pass's prior state that is rendered no more is gone from the registry
      once the document passes the gates and arrives, its tombstone out - whatever happens in between. */
  lemma PhantomsAreRemoved(owns: Component -> bool, script: seq<Action>, p: PassId, n: Node, k: Key, c: Component,
      waiting: seq<Action>, validate: Validator, sending: seq<Action>, ok: bool)
    requires HasPrior(Run(owns, script), p, n, k, c)
    requires AllLeavePass(waiting, p) && AllLeavePass(sending, p)
    requires Admits(Run(owns, script + waiting), p, validate, k)
    ensures var before := Run(owns, script + waiting + [Prepare(p, validate)] + sending);
      var after := Run(owns, script + waiting + [Prepare(p, validate)] + sending + [Send(p, ok, true)]);
      && Id(n, k, c) !in after.registry
      && |before.written| <= |after.written| && Id(n, k, c) in Deleted(after.written[|before.written|..])
  {
    HasPriorOn(owns, script, waiting, p, n, k, c);
    Append(owns, script + waiting, Prepare(p, validate));
    PriorIsRemoved(owns, Run(owns, script + waiting), p, n, k, c, validate);
    var prepared := script + waiting + [Prepare(p, validate)];
    RemovesOn(owns, prepared, sending, p, n, k, c);
    Append(owns, prepared + sending, Send(p, ok, true));
    RemovalArrives(owns, Run(owns, prepared + sending), p, n, k, c, ok);
    RemovalIsLogged(owns, Run(owns, prepared + sending), p, n, k, c, ok, true);
  }

  /** The tombstone is out, whether or not the document arrives. */
  lemma RemovalIsLogged(owns: Component -> bool, s: State, p: PassId, n: Node, k: Key, c: Component, ok: bool,
      arrived: bool)
    requires Removes(s, p, n, k, c)
    ensures var t := Step(owns, s, Send(p, ok, arrived));
      |s.written| <= |t.written| && Id(n, k, c) in Deleted(t.written[|s.written|..])
  {
    var w, u := s.passes[p], s.(passes := s.passes - {p});
    var marks := NewMarks(u, w.node, w.prior, w.doc);
    NewMarksAre(u, w.node, w.prior, w.doc);
    assert (s.written + marks)[|s.written|..] == marks;
    assert k in Removals(w.doc) && Id(n, k, w.doc[k]) == Id(n, k, c);
  }

  /** A pass whose document is refused ends there. */
  lemma RefusedPassEnds(owns: Component -> bool, s: State, p: PassId, validate: Validator)
    requires p in s.passes && s.passes[p].Ready?
    requires Outgoing(RenderedBy(s.renders, s.passes[p].node), s.passes[p].prior, validate).None?
    ensures Step(owns, s, Prepare(p, validate)) == s.(passes := s.passes - {p})
  {
  }

  /** A sweep looks at one device: it may find the retained per-entity configs of ours on its topics, all of them and no
      others, and clear all it has selected. */
  lemma SweepsLookAtOneDevice(s: State, n: Node, t: Topic)
    ensures Findable(s, n, [t]) <==>
      t in s.configs && t.EntityTopic? && t.node == n && t.platform in PUBLISHED_PLATFORMS
    ensures n in s.jobs && s.jobs[n].Clearing? ==> CanClear(s, n, s.jobs[n].orphans)
    ensures EntitiesOf(n, {t}) <==> t.EntityTopic? && t.node == n
  {
    assert t in [t];
  }

  /** What others do to the broker: forget, overwrite, clear. */
  lemma BrokerChanges(owns: Component -> bool, s: State, n: Node, doc: Document, ts: set<Topic>)
    ensures SiblingMay(owns, doc) ==> Step(owns, s, SiblingWrites(n, doc)).broker == s.broker[n := doc]
    ensures EntitiesOf(n, ts) ==>
      Step(owns, s, Refresh(n, ts)).broker == s.broker - {n} && Step(owns, s, Refresh(n, ts)).configs == s.configs - ts
    ensures Step(owns, s, BrokerForgets(n, ts)) == s.(broker := s.broker - {n}, configs := s.configs - ts)
    ensures Step(owns, s, Reconnect) == s.(rt := s.rt + 1)
  {
  }

  /** What a sweep has selected and clears is gone, when its config is still there. */
  lemma SweptEntitiesGo(owns: Component -> bool, script: seq<Action>, n: Node, cleared: set<Topic>, e: Topic)
    requires CanClear(Run(owns, script), n, cleared) && e in cleared && e in Run(owns, script).configs
    ensures var t := Run(owns, script + [Clear(n, cleared)]);
      e !in t.configs && e !in t.registry && n !in t.jobs
  {
    Append(owns, script, Clear(n, cleared));
  }

  /** The first pass of a connection opens the window, a later one is answered from the memo; and a document that went
      out becomes prior state on its own connection, with a sweep behind it. */
  lemma PassesProceed(owns: Component -> bool, s: State, p: PassId, n: Node)
    ensures p !in s.passes ==> Step(owns, s, Begin(p, n)).passes == s.passes[p := Asking(n, s.rt)]
    ensures p in s.passes && s.passes[p].Asking? && s.window.None? ==>
      var t := Step(owns, s, Ask(p));
      if s.memo.rt != Some(s.passes[p].rt) then t.window == Some((p, map[]))
      else p in t.passes && t.passes[p] == Ready(s.passes[p].node, s.passes[p].rt, Lookup(s.memo, s.passes[p].node))
    ensures p in s.passes && s.passes[p].Written? ==>
      var t, w := Step(owns, s, Record(p, true)), s.passes[p];
      && p !in t.passes && w.node in t.jobs
      && (s.memo.rt == Some(w.rt) ==> Lookup(t.memo, w.node) == w.live)
      && (w.node !in s.jobs ==> t.jobs[w.node] == Looking(w.keep, w.reached))
  {
    if p in s.passes && s.passes[p].Written? {
      MemoRemembers(s.memo, s.passes[p].rt, map[], s.passes[p].node, s.passes[p].live, s.passes[p].node);
    }
  }
}
