// Deleting over whole runs: connections, restarts, reads of any quality, concurrent passes, refusals,
// retractions and documents that get lost, the orphan sweep behind each publish, a sibling instance on the same
// topics, and Home Assistant's registry.
module PriorState {
  import opened Prelude
  import opened Tombstones
  import Attribution

  type PassId = nat

  /** publishDiscovery: the runtime is read once at its head, then the prior document through the memo; the
      document that passes the gates is `Sending`, first the retractions of what it supersedes, then itself;
      after the write the pass records what went out and starts the sweep.  `keep` is what that sweep must leave
      alone, and `reached` is history: the document arrived and no config of an entry of its own was left. */
  datatype Pass =
    | Asking(node: Node, rt: Runtime)
    | Ready(node: Node, rt: Runtime, prior: Document)
    | Sending(node: Node, rt: Runtime, prior: Document, doc: Document, bad: set<Key>, keep: set<Topic>)
    | Written(node: Node, rt: Runtime, live: Document, keep: set<Topic>, reached: bool)

  /** reconcileOrphansOnce, one per device at a time: the window is still open, or the orphans are known. */
  datatype Job = Looking(keep: set<Topic>, reached: bool) | Clearing(orphans: set<Topic>, reached: bool)

  /** One tombstone that went out: whose, for what, and what the document it stood in rendered. */
  datatype Mark = Mark(entity: Topic, was: Component, rendered: set<Key>, withheldBefore: bool)

  /** `window` is the open read-back, by the pass that holds the memo's lock.  `configs` are this instance's
      per-entity configs still retained, `registry` the entities Home Assistant has.  `withheld` and `written`
      are history: the components left out of a document that arrived and carried live by none that arrived
      since, and every tombstone that went out, arrived or not. */
  datatype State = State(
    renders: map<Node, Document>,
    rt: Runtime,
    memo: Memo,
    window: Option<(PassId, map<Node, Document>)>,
    passes: map<PassId, Pass>,
    jobs: map<Node, Job>,
    broker: map<Node, Document>,
    configs: set<Topic>,
    registry: set<Topic>,
    withheld: set<Topic>,
    written: seq<Mark>)
  {
    function On(): Ground {
      Ground(renders, configs, withheld)
    }
  }

  /** What passes, jobs and the memo stand on. */
  datatype Ground = Ground(renders: map<Node, Document>, configs: set<Topic>, withheld: set<Topic>)

  datatype Action =
    | Begin(p: PassId, node: Node)
    | Ask(p: PassId)
    | Deliver(node: Node, keys: set<Key>)
    | CloseWindow
    | Prepare(p: PassId, validate: Validator)
    | Retract(p: PassId, gone: set<Topic>)
    | Send(p: PassId, ok: bool, arrived: bool)
    | GiveUp(p: PassId)
    | Record(p: PassId, declared: bool)
    | Look(node: Node, owned: seq<Topic>, documents: seq<Node>)
    | Clear(node: Node, cleared: set<Topic>)
    | Reconnect
    | BoundsChange(renders: map<Node, Document>)
    | Restart(renders: map<Node, Document>, left: set<Topic>)
    | Refresh(node: Node, cleared: set<Topic>)
    | BrokerForgets(node: Node, lost: set<Topic>)
    | SiblingWrites(node: Node, doc: Document)
    | SiblingClears(node: Node, cleared: set<Topic>)

  function Init(): State {
    State(map[], 0, Memo(None, map[]), None, map[], map[], map[], {}, {}, {}, [])
  }

  /** Everything this instance renders is live, recognisably its own and on a platform it publishes. */
  ghost predicate Proper(owns: Component -> bool, renders: map<Node, Document>) {
    forall n, k :: n in renders && k in renders[n] ==>
      IsLive(renders[n][k]) && KeepsEntity(renders[n][k]) && owns(renders[n][k])
  }

  /** A feature's bounds may move while the process runs; what it is called and where it goes may not. */
  predicate SameEntities(was: map<Node, Document>, now: map<Node, Document>) {
    && was.Keys == now.Keys
    && (forall n :: n in was ==> was[n].Keys == now[n].Keys)
    && (forall n, k :: n in was && k in was[n] ==>
          was[n][k].platform == now[n][k].platform && was[n][k].uniqueId == now[n][k].uniqueId)
  }

  function RenderedBy(renders: map<Node, Document>, n: Node): Document {
    if n in renders then renders[n] else map[]
  }

  /** What one message of the read-back yields: our part of the document, or less of it. */
  function SeenPart(owns: Component -> bool, doc: Document, keys: set<Key>): Document {
    map k | k in doc && k in keys && doc[k].platform != "" && owns(doc[k]) :: doc[k]
  }

  function Ids(n: Node, doc: Document): set<Topic> {
    set k | k in doc :: Id(n, k, doc[k])
  }

  function Part(doc: Document, keys: set<Key>): Document {
    map k | k in doc && k in keys :: doc[k]
  }

  function Removals(doc: Document): Document {
    map k | k in doc && !IsLive(doc[k]) :: doc[k]
  }

  /** Home Assistant: a full entry creates, a platform-only entry removes, an absent key changes nothing. */
  function Apply(registry: set<Topic>, n: Node, doc: Document): set<Topic> {
    (registry - Ids(n, Removals(doc))) + Ids(n, Live(doc))
  }

  /** Every entry of the document that removes, with what the prior document held under its key. */
  function Marks(s: State, n: Node, prior: Document, doc: Document, removals: seq<Key>): seq<Mark>
    requires forall k :: k in removals ==> k in doc
  {
    if removals == [] then []
    else
      var k := removals[|removals| - 1];
      var was := if k in prior then prior[k] else Component("", "", "");
      Marks(s, n, prior, doc, removals[..|removals| - 1])
      + [Mark(Id(n, k, doc[k]), was, RenderedBy(s.renders, n).Keys, Id(n, k, doc[k]) in s.withheld)]
  }

  /** A set as a list, in some order. */
  ghost function Listed(keys: set<Key>): (r: seq<Key>)
    ensures Lists(r, keys)
  {
    if keys == {} then []
    else
      var k :| k in keys;
      Listed(keys - {k}) + [k]
  }

  ghost function NewMarks(s: State, n: Node, prior: Document, doc: Document): seq<Mark> {
    Marks(s, n, prior, doc, Listed(Removals(doc).Keys))
  }

  function Keep(s: State, n: Node, prior: Document, bad: set<Key>): set<Topic> {
    {DocumentTopic(n)} + WithheldTopics(Marked(RenderedBy(s.renders, n), prior), n, bad)
  }

  /** The gates before the write: a refused document ends the pass. */
  function Prepared(s: State, p: PassId, n: Node, r: Runtime, prior: Document, validate: Validator): State {
    var out := Outgoing(RenderedBy(s.renders, n), prior, validate);
    if out.None? then s.(passes := s.passes - {p})
    else
      var (doc, bad) := out.value;
      s.(passes := s.passes[p := Sending(n, r, prior, doc, bad, Keep(s, n, prior, bad))])
  }

  /** What a pass may retract: the per-entity configs, still retained, of every entry of its document. */
  function Superseded(s: State, p: PassId): set<Topic> {
    if p in s.passes && s.passes[p].Sending? then Ids(s.passes[p].node, s.passes[p].doc) * s.configs else {}
  }

  /** Clearing a retained per-entity config deletes the entity it declares. */
  function Cleared(s: State, gone: set<Topic>): State {
    s.(configs := s.configs - gone, registry := s.registry - gone)
  }

  /** The document on its way: its tombstones are out, whether or not it arrives. */
  ghost function Sent(s: State, w: Pass): State
    requires w.Sending?
  {
    s.(written := s.written + NewMarks(s, w.node, w.prior, w.doc))
  }

  /** The document at the broker. */
  function Reach(s: State, n: Node, doc: Document, bad: set<Key>): State {
    s.(broker := s.broker[n := doc],
       registry := Apply(s.registry, n, doc),
       withheld := (s.withheld - Ids(n, Live(doc))) + Ids(n, Part(RenderedBy(s.renders, n), bad)))
  }

  ghost function Arrived(s: State, w: Pass, arrived: bool): State
    requires w.Sending?
  {
    if arrived then Reach(Sent(s, w), w.node, w.doc, w.bad) else Sent(s, w)
  }

  /** What the pass knows once the plane has answered. */
  function AsWritten(s: State, w: Pass, arrived: bool): Pass
    requires w.Sending?
  {
    Written(w.node, w.rt, Live(w.doc), w.keep, arrived && s.configs !! Ids(w.node, Live(w.doc)))
  }

  /** The pass goes on when the plane says that the document went out. */
  ghost function Answered(s: State, p: PassId, w: Pass, ok: bool, arrived: bool): State
    requires w.Sending?
  {
    var t := Arrived(s, w, arrived);
    if ok then t.(passes := t.passes[p := AsWritten(t, w, arrived)]) else t
  }

  /** record, then reconcileOrphans: a device whose sweep is still running gets no second one. */
  function AfterWrite(s: State, w: Pass): State
    requires w.Written?
  {
    s.(memo := Recorded(s.memo, w.rt, w.node, w.live),
       jobs := if w.node in s.jobs then s.jobs else s.jobs[w.node := Looking(w.keep, w.reached)])
  }

  /** What a sweep may find: per-entity configs of the device, ours by topic and by payload. */
  predicate Findable(s: State, n: Node, owned: seq<Topic>) {
    forall t :: t in owned ==> t in s.configs && t.EntityTopic? && t.node == n && t.platform in PUBLISHED_PLATFORMS
  }

  /** orphanTopics: `documents` are those the runtime declares; nothing else is ever declared. */
  function OrphansOf(keep: set<Topic>, owned: seq<Topic>, documents: seq<Node>): set<Topic> {
    var orphans := Orphans(owned, keep + Documents(documents));
    set t | t in orphans
  }

  function Documents(ns: seq<Node>): set<Topic> {
    set n | n in ns :: DocumentTopic(n)
  }

  predicate EntitiesOf(n: Node, ts: set<Topic>) {
    forall t :: t in ts ==> t.EntityTopic? && t.node == n
  }

  ghost predicate SiblingMay(owns: Component -> bool, doc: Document) {
    forall k :: k in doc ==> !owns(doc[k])
  }

  predicate CanClear(s: State, n: Node, cleared: set<Topic>) {
    n in s.jobs && s.jobs[n].Clearing? && cleared <= s.jobs[n].orphans
  }

  ghost function Step(owns: Component -> bool, s: State, a: Action): State {
    match a
    case Begin(p, n) => if p in s.passes then s else s.(passes := s.passes[p := Asking(n, s.rt)])
    case Ask(p) =>
      if p !in s.passes || !s.passes[p].Asking? || s.window.Some? then s
      else if s.memo.rt != Some(s.passes[p].rt) then s.(window := Some((p, map[])))
      else s.(passes := s.passes[p := Ready(s.passes[p].node, s.passes[p].rt, Lookup(s.memo, s.passes[p].node))])
    case Deliver(n, keys) =>
      if s.window.None? || n !in s.broker then s
      else s.(window := Some((s.window.value.0, s.window.value.1[n := SeenPart(owns, s.broker[n], keys)])))
    case CloseWindow =>
      if s.window.None? || s.window.value.0 !in s.passes then s
      else
        var (p, reading) := s.window.value;
        var m := Loaded(s.memo, s.passes[p].rt, reading);
        s.(window := None, memo := m,
           passes := s.passes[p := Ready(s.passes[p].node, s.passes[p].rt, Lookup(m, s.passes[p].node))])
    case Prepare(p, validate) =>
      if p !in s.passes || !s.passes[p].Ready? then s
      else Prepared(s, p, s.passes[p].node, s.passes[p].rt, s.passes[p].prior, validate)
    case Retract(p, gone) => Cleared(s, gone * Superseded(s, p))
    case Send(p, ok, arrived) =>
      if p !in s.passes || !s.passes[p].Sending? then s
      else Answered(s.(passes := s.passes - {p}), p, s.passes[p], ok, arrived)
    case GiveUp(p) => if p in s.passes && s.passes[p].Sending? then s.(passes := s.passes - {p}) else s
    case Record(p, declared) =>
      if p !in s.passes || !s.passes[p].Written? then s
      else
        var t := s.(passes := s.passes - {p});
        if declared then AfterWrite(t, s.passes[p]) else t
    case Look(n, owned, documents) =>
      if n !in s.jobs || !s.jobs[n].Looking? || !Findable(s, n, owned) then s
      else s.(jobs := s.jobs[n := Clearing(OrphansOf(s.jobs[n].keep, owned, documents), s.jobs[n].reached)])
    case Clear(n, cleared) =>
      if !CanClear(s, n, cleared) then s
      else Cleared(s.(jobs := s.jobs - {n}), cleared * s.configs)
    case Reconnect => s.(rt := s.rt + 1)
    case BoundsChange(renders) =>
      if Proper(owns, renders) && SameEntities(s.renders, renders) then s.(renders := renders) else s
    case Restart(renders, left) =>
      if !Proper(owns, renders) then s
      else
        s.(renders := renders, rt := s.rt + 1, memo := Memo(None, map[]), window := None, passes := map[],
           jobs := map[], configs := s.configs + left, registry := s.registry + left)
    case Refresh(n, cleared) =>
      if !EntitiesOf(n, cleared) then s
      else Cleared(s.(broker := s.broker - {n}), cleared)
    case BrokerForgets(n, lost) => s.(broker := s.broker - {n}, configs := s.configs - lost)
    case SiblingWrites(n, doc) =>
      if !SiblingMay(owns, doc) then s
      else s.(broker := s.broker[n := doc], registry := Apply(s.registry, n, doc))
    case SiblingClears(n, cleared) => if EntitiesOf(n, cleared) then Cleared(s, cleared) else s
  }

  ghost function Run(owns: Component -> bool, script: seq<Action>): State {
    if script == [] then Init()
    else Step(owns, Run(owns, script[..|script| - 1]), script[|script| - 1])
  }

  // ----- the invariant -----

  /** Prior state for one document: ours, and - where it was withheld - still rendered. */
  ghost predicate Trusted(owns: Component -> bool, s: Ground, n: Node, prior: Document) {
    forall k :: k in prior ==>
      && owns(prior[k]) && prior[k].platform != ""
      && (Id(n, k, prior[k]) in s.withheld ==> k in RenderedBy(s.renders, n))
  }

  ghost predicate AllTrusted(owns: Component -> bool, s: Ground, docs: map<Node, Document>) {
    forall n :: n in docs ==> Trusted(owns, s, n, docs[n])
  }

  ghost predicate BrokerHoldsNoWithheld(owns: Component -> bool, broker: map<Node, Document>, withheld: set<Topic>) {
    forall n, k :: n in broker && k in broker[n] && owns(broker[n][k]) ==> Id(n, k, broker[n][k]) !in withheld
  }

  /** What a sweep keeps is rendered, and once the document arrived what is rendered is kept or has no config. */
  predicate Sparing(s: Ground, n: Node, keep: set<Topic>, reached: bool) {
    && (forall t :: t in keep && t.EntityTopic? ==> t in Ids(n, RenderedBy(s.renders, n)))
    && (reached ==> forall t :: t in Ids(n, RenderedBy(s.renders, n)) ==> t in keep || t !in s.configs)
  }

  /** A document on its way fits what is rendered: of ours it holds only live components that are rendered and
      not withheld, it removes only what is not rendered, and what it withholds the sweep is told to keep. */
  ghost predicate Fits(owns: Component -> bool, s: Ground, n: Node, prior: Document, doc: Document, bad: set<Key>,
      keep: set<Topic>)
  {
    && (forall k :: k in doc && owns(doc[k]) ==> IsLive(doc[k]) && k !in bad)
    && (forall k :: k in doc && IsLive(doc[k]) ==> owns(doc[k]) && Id(n, k, doc[k]) in Ids(n, RenderedBy(s.renders, n)))
    && (forall k :: k in doc && !IsLive(doc[k]) ==>
          k in prior && k !in RenderedBy(s.renders, n) && doc[k].platform == prior[k].platform)
    && (forall k :: k in RenderedBy(s.renders, n) && k !in bad ==> k in doc)
    && (forall t :: t in keep && t.EntityTopic? ==> t in Ids(n, RenderedBy(s.renders, n)))
    && (forall t :: t in Ids(n, RenderedBy(s.renders, n)) && t.key in bad ==> t in keep)
  }

  ghost predicate PassOk(owns: Component -> bool, s: Ground, w: Pass) {
    match w
    case Asking(_, _) => true
    case Ready(n, _, prior) => Trusted(owns, s, n, prior)
    case Sending(n, _, prior, doc, bad, keep) => Trusted(owns, s, n, prior) && Fits(owns, s, n, prior, doc, bad, keep)
    case Written(n, _, live, keep, reached) => Trusted(owns, s, n, live) && Sparing(s, n, keep, reached)
  }

  predicate JobOk(s: Ground, n: Node, j: Job) {
    match j
    case Looking(keep, reached) => Sparing(s, n, keep, reached)
    case Clearing(orphans, reached) => reached ==> orphans !! Ids(n, RenderedBy(s.renders, n))
  }

  ghost predicate PassesOk(owns: Component -> bool, g: Ground, passes: map<PassId, Pass>) {
    forall p :: p in passes ==> PassOk(owns, g, passes[p])
  }

  ghost predicate JobsOk(g: Ground, jobs: map<Node, Job>) {
    forall n :: n in jobs ==> JobOk(g, n, jobs[n])
  }

  ghost predicate WindowTrusted(owns: Component -> bool, g: Ground, window: Option<(PassId, map<Node, Document>)>) {
    window.Some? ==> AllTrusted(owns, g, window.value.1)
  }

  /** A tombstone that went out was for a component of ours that its document did not render and that no
      document had withheld. */
  ghost predicate Justified(owns: Component -> bool, m: Mark) {
    m.entity.EntityTopic? && m.entity.key !in m.rendered && owns(m.was) && !m.withheldBefore
  }

  ghost predicate AllJustified(owns: Component -> bool, marks: seq<Mark>) {
    forall i :: 0 <= i < |marks| ==> Justified(owns, marks[i])
  }

  ghost predicate Inv(owns: Component -> bool, s: State) {
    && Proper(owns, s.renders)
    && AllTrusted(owns, s.On(), s.memo.docs)
    && WindowTrusted(owns, s.On(), s.window)
    && PassesOk(owns, s.On(), s.passes)
    && JobsOk(s.On(), s.jobs)
    && BrokerHoldsNoWithheld(owns, s.broker, s.withheld)
    && AllJustified(owns, s.written)
  }

  // ----- what may change around the invariant -----

  /** The parts the invariant of passes, jobs and memo depends on: the same entities rendered, no config more, and
      nothing withheld that is not rendered. */
  ghost predicate Milder(s: Ground, t: Ground) {
    && t.configs <= s.configs
    && (forall n :: RenderedBy(t.renders, n).Keys == RenderedBy(s.renders, n).Keys
                    && Ids(n, RenderedBy(t.renders, n)) == Ids(n, RenderedBy(s.renders, n)))
    && (forall e :: e in t.withheld && e !in s.withheld ==> e.EntityTopic? && e.key in RenderedBy(t.renders, e.node))
  }

  lemma MilderKeeps(owns: Component -> bool, s: Ground, t: Ground, n: Node, docs: Document, keep: set<Topic>,
      reached: bool)
    requires Milder(s, t)
    ensures Trusted(owns, s, n, docs) ==> Trusted(owns, t, n, docs)
    ensures Sparing(s, n, keep, reached) ==> Sparing(t, n, keep, reached)
  {
    assert RenderedBy(t.renders, n).Keys == RenderedBy(s.renders, n).Keys;
  }

  lemma MilderPass(owns: Component -> bool, s: Ground, t: Ground, w: Pass)
    requires Milder(s, t) && PassOk(owns, s, w)
    ensures PassOk(owns, t, w)
  {
    match w
    case Asking(_, _) =>
    case Ready(n, _, prior) => MilderKeeps(owns, s, t, n, prior, {}, false);
    case Sending(n, _, prior, doc, bad, keep) =>
      MilderKeeps(owns, s, t, n, prior, {}, false);
      assert RenderedBy(t.renders, n).Keys == RenderedBy(s.renders, n).Keys;
    case Written(n, _, live, keep, reached) => MilderKeeps(owns, s, t, n, live, keep, reached);
  }

  lemma MilderJob(owns: Component -> bool, s: Ground, t: Ground, n: Node, j: Job)
    requires Milder(s, t) && JobOk(s, n, j)
    ensures JobOk(t, n, j)
  {
    match j
    case Looking(keep, reached) => MilderKeeps(owns, s, t, n, map[], keep, reached);
    case Clearing(orphans, reached) => assert Ids(n, RenderedBy(t.renders, n)) == Ids(n, RenderedBy(s.renders, n));
  }

  /** A milder ground keeps what passes, jobs, memo and window rest on. */
  lemma MilderState(owns: Component -> bool, s: State, g: Ground)
    requires Milder(s.On(), g) && Inv(owns, s)
    ensures AllTrusted(owns, g, s.memo.docs) && WindowTrusted(owns, g, s.window)
    ensures PassesOk(owns, g, s.passes) && JobsOk(g, s.jobs)
  {
    var on := s.On();
    forall n | n in s.memo.docs ensures Trusted(owns, g, n, s.memo.docs[n]) {
      MilderKeeps(owns, on, g, n, s.memo.docs[n], {}, false);
    }
    if s.window.Some? {
      forall n | n in s.window.value.1 ensures Trusted(owns, g, n, s.window.value.1[n]) {
        MilderKeeps(owns, on, g, n, s.window.value.1[n], {}, false);
      }
    }
    forall p | p in s.passes ensures PassOk(owns, g, s.passes[p]) { MilderPass(owns, on, g, s.passes[p]); }
    forall n | n in s.jobs ensures JobOk(g, n, s.jobs[n]) { MilderJob(owns, on, g, n, s.jobs[n]); }
  }

  // ----- publishing -----

  /** The entities a run of tombstones deletes. */
  function Deleted(ms: seq<Mark>): set<Topic> {
    set m | m in ms :: m.entity
  }

  lemma {:induction false} MarksAre(s: State, n: Node, prior: Document, doc: Document, removals: seq<Key>)
    requires forall k :: k in removals ==> k in doc
    ensures Deleted(Marks(s, n, prior, doc, removals)) == set k | k in removals :: Id(n, k, doc[k])
  {
    if removals != [] {
      var g := |removals| - 1;
      MarksAre(s, n, prior, doc, removals[..g]);
      assert removals == removals[..g] + [removals[g]];
      var front, ms := Marks(s, n, prior, doc, removals[..g]), Marks(s, n, prior, doc, removals);
      DeletedGrows(front, ms[|front|]);
    }
  }

  lemma DeletedGrows(ms: seq<Mark>, m: Mark)
    ensures Deleted(ms + [m]) == Deleted(ms) + {m.entity}
  {
    assert m in ms + [m] && forall x :: x in ms ==> x in ms + [m];
  }

  /** The tombstones of a document are for the entities its removal entries name. */
  lemma NewMarksAre(s: State, n: Node, prior: Document, doc: Document)
    ensures Deleted(NewMarks(s, n, prior, doc)) == Ids(n, Removals(doc))
  {
    MarksAre(s, n, prior, doc, Listed(Removals(doc).Keys));
  }

  lemma {:induction false} MarksAreJustified(owns: Component -> bool, s: State, n: Node, prior: Document,
      doc: Document, removals: seq<Key>)
    requires Trusted(owns, s.On(), n, prior)
    requires forall k :: k in removals ==>
      k in doc && k in prior && k !in RenderedBy(s.renders, n) && doc[k].platform == prior[k].platform
    ensures AllJustified(owns, Marks(s, n, prior, doc, removals))
  {
    if removals != [] {
      var g := |removals| - 1;
      assert removals[g] in removals;
      MarksAreJustified(owns, s, n, prior, doc, removals[..g]);
    }
  }

  lemma OutgoingFits(owns: Component -> bool, s: State, n: Node, prior: Document, validate: Validator)
    requires Attributes(owns) && Proper(owns, s.renders)
    requires Outgoing(RenderedBy(s.renders, n), prior, validate).Some?
    ensures var (doc, bad) := Outgoing(RenderedBy(s.renders, n), prior, validate).value;
      Fits(owns, s.On(), n, prior, doc, bad, Keep(s, n, prior, bad))
  {
    var (doc, bad) := Outgoing(RenderedBy(s.renders, n), prior, validate).value;
    KeepIsExact(owns, s, n, prior, bad);
    forall k | k in doc && IsLive(doc[k]) ensures owns(doc[k]) && Id(n, k, doc[k]) in Ids(n, RenderedBy(s.renders, n)) {
      assert k in RenderedBy(s.renders, n) && doc[k] == RenderedBy(s.renders, n)[k];
    }
  }

  lemma KeepIsExact(owns: Component -> bool, s: State, n: Node, prior: Document, bad: set<Key>)
    requires Proper(owns, s.renders)
    ensures forall t :: t in Keep(s, n, prior, bad) && t.EntityTopic? ==> t in Ids(n, RenderedBy(s.renders, n))
    ensures forall t :: t in Ids(n, RenderedBy(s.renders, n)) && t.key in bad ==> t in Keep(s, n, prior, bad)
  {
    var r := RenderedBy(s.renders, n);
    var m := Marked(r, prior);
    forall t | t in Ids(n, r) && t.key in bad ensures t in WithheldTopics(m, n, bad) {
      var k :| k in r && t == Id(n, k, r[k]);
      assert m[k] == r[k] && KeepsEntity(r[k]);
    }
    forall t | t in WithheldTopics(m, n, bad) ensures t in Ids(n, r) {
      var k :| k in bad && k in m && KeepsEntity(m[k]) && t == Id(n, k, m[k]);
      assert k in r;
    }
  }

  lemma SentKeeps(owns: Component -> bool, s: State, w: Pass)
    requires Inv(owns, s) && w.Sending? && PassOk(owns, s.On(), w)
    ensures Inv(owns, Sent(s, w)) && PassOk(owns, Sent(s, w).On(), w)
  {
    MarksAreJustified(owns, s, w.node, w.prior, w.doc, Listed(Removals(w.doc).Keys));
  }

  lemma ReachKeeps(owns: Component -> bool, s: State, w: Pass)
    requires Inv(owns, s) && w.Sending? && PassOk(owns, s.On(), w)
    ensures var t := Reach(s, w.node, w.doc, w.bad);
      Inv(owns, t) && PassOk(owns, t.On(), w)
  {
    var n, t := w.node, Reach(s, w.node, w.doc, w.bad);
    assert Milder(s.On(), t.On());
    MilderState(owns, s, t.On());
    MilderPass(owns, s.On(), t.On(), w);
    forall m, k | m in t.broker && k in t.broker[m] && owns(t.broker[m][k])
        ensures Id(m, k, t.broker[m][k]) !in t.withheld {
      if m == n {
        assert k in Live(w.doc);
        assert Id(n, k, w.doc[k]) in Ids(n, Live(w.doc));
      }
    }
  }

  lemma ArrivedKeeps(owns: Component -> bool, s: State, w: Pass, arrived: bool)
    requires Inv(owns, s) && w.Sending? && PassOk(owns, s.On(), w)
    ensures Inv(owns, Arrived(s, w, arrived)) && PassOk(owns, Arrived(s, w, arrived).On(), w)
  {
    SentKeeps(owns, s, w);
    if arrived { ReachKeeps(owns, Sent(s, w), w); }
  }

  /** The written pass knows what it published, and what its sweep must keep. */
  lemma WrittenIsOk(owns: Component -> bool, s: State, w: Pass, arrived: bool)
    requires Attributes(owns) && w.Sending? && PassOk(owns, s.On(), w)
    ensures PassOk(owns, s.On(), AsWritten(s, w, arrived))
  {
    var n := w.node;
    forall k | k in Live(w.doc)
      ensures owns(w.doc[k]) && w.doc[k].platform != "" && k in RenderedBy(s.renders, n)
    {
      assert Id(n, k, w.doc[k]) in Ids(n, RenderedBy(s.renders, n));
    }
    if arrived && s.configs !! Ids(n, Live(w.doc)) {
      forall t | t in Ids(n, RenderedBy(s.renders, n)) ensures t in w.keep || t !in s.configs {
        if t.key !in w.bad { SameId(owns, s, w, t); }
      }
    }
  }

  lemma SameId(owns: Component -> bool, s: State, w: Pass, t: Topic)
    requires Attributes(owns) && w.Sending? && PassOk(owns, s.On(), w)
    requires t in Ids(w.node, RenderedBy(s.renders, w.node)) && t.key !in w.bad
    ensures t in Ids(w.node, Live(w.doc))
  {
    var k := t.key;
    assert k in w.doc && IsLive(w.doc[k]);
    assert Id(w.node, k, w.doc[k]) in Ids(w.node, RenderedBy(s.renders, w.node));
    assert k in Live(w.doc);
  }

  lemma PassEnds(owns: Component -> bool, s: State, p: PassId)
    requires Inv(owns, s)
    ensures Inv(owns, s.(passes := s.passes - {p}))
  {
  }

  lemma PassJoins(owns: Component -> bool, s: State, p: PassId, w: Pass)
    requires Inv(owns, s) && PassOk(owns, s.On(), w)
    ensures Inv(owns, s.(passes := s.passes[p := w]))
  {
  }

  lemma PrepareKeeps(owns: Component -> bool, s: State, p: PassId, validate: Validator)
    requires Attributes(owns) && Inv(owns, s) && p in s.passes && s.passes[p].Ready?
    ensures Inv(owns, Step(owns, s, Prepare(p, validate)))
  {
    var w := s.passes[p];
    assert PassOk(owns, s.On(), w);
    var out := Outgoing(RenderedBy(s.renders, w.node), w.prior, validate);
    if out.None? {
      PassEnds(owns, s, p);
    } else {
      var (doc, bad) := out.value;
      OutgoingFits(owns, s, w.node, w.prior, validate);
      PassJoins(owns, s, p, Sending(w.node, w.rt, w.prior, doc, bad, Keep(s, w.node, w.prior, bad)));
    }
  }

  lemma AnsweredKeeps(owns: Component -> bool, s: State, p: PassId, w: Pass, ok: bool, arrived: bool)
    requires Attributes(owns) && Inv(owns, s) && w.Sending? && PassOk(owns, s.On(), w)
    ensures Inv(owns, Answered(s, p, w, ok, arrived))
  {
    ArrivedKeeps(owns, s, w, arrived);
    var t := Arrived(s, w, arrived);
    if ok {
      WrittenIsOk(owns, t, w, arrived);
      PassJoins(owns, t, p, AsWritten(t, w, arrived));
    }
  }

  lemma SendKeeps(owns: Component -> bool, s: State, p: PassId, ok: bool, arrived: bool)
    requires Attributes(owns) && Inv(owns, s) && p in s.passes && s.passes[p].Sending?
    ensures Inv(owns, Step(owns, s, Send(p, ok, arrived)))
  {
    var w := s.passes[p];
    assert PassOk(owns, s.On(), w);
    PassEnds(owns, s, p);
    AnsweredKeeps(owns, s.(passes := s.passes - {p}), p, w, ok, arrived);
  }

  lemma RecordKeeps(owns: Component -> bool, s: State, p: PassId)
    requires Inv(owns, s) && p in s.passes && s.passes[p].Written?
    ensures Inv(owns, Step(owns, s, Record(p, true)))
  {
    var w, t := s.passes[p], s.(passes := s.passes - {p});
    var m := Recorded(t.memo, w.rt, w.node, w.live);
    assert PassOk(owns, s.On(), w);
    PassEnds(owns, s, p);
    assert PassOk(owns, t.On(), w);
    MemoChanges(owns, t, m);
    JobStarts(owns, t.(memo := m), w);
  }

  lemma JobStarts(owns: Component -> bool, s: State, w: Pass)
    requires Inv(owns, s) && w.Written? && Sparing(s.On(), w.node, w.keep, w.reached)
    ensures Inv(owns, s.(jobs := if w.node in s.jobs then s.jobs else s.jobs[w.node := Looking(w.keep, w.reached)]))
  {
    if w.node !in s.jobs { JobChanges(owns, s, s.jobs[w.node := Looking(w.keep, w.reached)]); }
  }

  // ----- the other steps -----

  lemma BeginKeeps(owns: Component -> bool, s: State, p: PassId, n: Node)
    requires Inv(owns, s)
    ensures Inv(owns, Step(owns, s, Begin(p, n)))
  {
    PassJoins(owns, s, p, Asking(n, s.rt));
  }

  lemma AskKeeps(owns: Component -> bool, s: State, p: PassId)
    requires Inv(owns, s)
    ensures Inv(owns, Step(owns, s, Ask(p)))
  {
    if p in s.passes && s.passes[p].Asking? && s.window.None? {
      if s.memo.rt != Some(s.passes[p].rt) {
        WindowChanges(owns, s, Some((p, map[])));
      } else {
        PassJoins(owns, s, p, Ready(s.passes[p].node, s.passes[p].rt, Lookup(s.memo, s.passes[p].node)));
      }
    }
  }

  lemma WindowChanges(owns: Component -> bool, s: State, w: Option<(PassId, map<Node, Document>)>)
    requires Inv(owns, s) && (w.Some? ==> AllTrusted(owns, s.On(), w.value.1))
    ensures Inv(owns, s.(window := w))
  {
  }

  lemma DeliverKeeps(owns: Component -> bool, s: State, n: Node, keys: set<Key>)
    requires Inv(owns, s)
    ensures Inv(owns, Step(owns, s, Deliver(n, keys)))
  {
    if s.window.Some? && n in s.broker {
      var part := SeenPart(owns, s.broker[n], keys);
      assert Trusted(owns, s.On(), n, part);
      WindowChanges(owns, s, Some((s.window.value.0, s.window.value.1[n := part])));
    }
  }

  lemma CloseKeeps(owns: Component -> bool, s: State)
    requires Inv(owns, s)
    ensures Inv(owns, Step(owns, s, CloseWindow))
  {
    if s.window.Some? && s.window.value.0 in s.passes {
      var (p, reading) := s.window.value;
      var m := Loaded(s.memo, s.passes[p].rt, reading);
      WindowChanges(owns, s, None);
      var t := s.(window := None);
      MemoChanges(owns, t, m);
      var u := t.(memo := m);
      PassJoins(owns, u, p, Ready(s.passes[p].node, s.passes[p].rt, Lookup(m, s.passes[p].node)));
    }
  }

  lemma MemoChanges(owns: Component -> bool, s: State, m: Memo)
    requires Inv(owns, s) && AllTrusted(owns, s.On(), m.docs)
    ensures Inv(owns, s.(memo := m))
  {
  }

  /** A sweep's verdict: of what it found, everything it was not told to keep. */
  lemma OrphansAre(keep: set<Topic>, owned: seq<Topic>, documents: seq<Node>, t: Topic)
    requires t.EntityTopic?
    ensures t in OrphansOf(keep, owned, documents) <==> t in owned && t !in keep
  {
    OrphansAreOwnedAndUnclaimed(owned, keep + Documents(documents), t);
  }

  lemma LookKeeps(owns: Component -> bool, s: State, n: Node, owned: seq<Topic>, documents: seq<Node>)
    requires Inv(owns, s)
    ensures Inv(owns, Step(owns, s, Look(n, owned, documents)))
  {
    if n in s.jobs && s.jobs[n].Looking? && Findable(s, n, owned) {
      var orphans := OrphansOf(s.jobs[n].keep, owned, documents);
      forall t | t in Ids(n, RenderedBy(s.renders, n)) && s.jobs[n].reached ensures t !in orphans {
        assert JobOk(s.On(), n, s.jobs[n]);
        OrphansAre(s.jobs[n].keep, owned, documents, t);
      }
      JobChanges(owns, s, s.jobs[n := Clearing(orphans, s.jobs[n].reached)]);
    }
  }

  lemma JobChanges(owns: Component -> bool, s: State, jobs: map<Node, Job>)
    requires Inv(owns, s) && forall n :: n in jobs ==> JobOk(s.On(), n, jobs[n])
    ensures Inv(owns, s.(jobs := jobs))
  {
  }

  /** Losing configs, entities or a document of the broker, or gaining entities, touches nothing trusted. */
  lemma OutsideChanges(owns: Component -> bool, s: State, t: State)
    requires Inv(owns, s) && t.configs <= s.configs && BrokerHoldsNoWithheld(owns, t.broker, t.withheld)
    requires t == s.(rt := t.rt, broker := t.broker, configs := t.configs, registry := t.registry)
    ensures Inv(owns, t)
  {
    assert Milder(s.On(), t.On());
    MilderState(owns, s, t.On());
  }

  lemma OutsideKeeps(owns: Component -> bool, s: State, a: Action)
    requires Inv(owns, s) && (a.Reconnect? || a.Refresh? || a.BrokerForgets?)
    ensures Inv(owns, Step(owns, s, a))
  {
    OutsideChanges(owns, s, Step(owns, s, a));
  }

  lemma ClearedKeeps(owns: Component -> bool, s: State, gone: set<Topic>)
    requires Inv(owns, s)
    ensures Inv(owns, Cleared(s, gone))
  {
    OutsideChanges(owns, s, Cleared(s, gone));
  }

  lemma SiblingKeeps(owns: Component -> bool, s: State, n: Node, doc: Document)
    requires Inv(owns, s)
    ensures Inv(owns, Step(owns, s, SiblingWrites(n, doc)))
  {
    OutsideChanges(owns, s, Step(owns, s, SiblingWrites(n, doc)));
  }

  lemma ClearKeeps(owns: Component -> bool, s: State, n: Node, cleared: set<Topic>)
    requires Inv(owns, s)
    ensures Inv(owns, Step(owns, s, Clear(n, cleared)))
  {
    if CanClear(s, n, cleared) {
      JobChanges(owns, s, s.jobs - {n});
      OutsideChanges(owns, s.(jobs := s.jobs - {n}), Step(owns, s, Clear(n, cleared)));
    }
  }

  lemma BoundsKeep(owns: Component -> bool, s: State, renders: map<Node, Document>)
    requires Inv(owns, s)
    ensures Inv(owns, Step(owns, s, BoundsChange(renders)))
  {
    if Proper(owns, renders) && SameEntities(s.renders, renders) {
      var t := s.(renders := renders);
      forall n ensures RenderedBy(t.renders, n).Keys == RenderedBy(s.renders, n).Keys
                       && Ids(n, RenderedBy(t.renders, n)) == Ids(n, RenderedBy(s.renders, n)) {
        SameIds(n, RenderedBy(s.renders, n), RenderedBy(t.renders, n));
      }
      MilderState(owns, s, t.On());
    }
  }

  lemma SameIds(n: Node, was: Document, now: Document)
    requires was.Keys == now.Keys && forall k :: k in was ==> was[k].platform == now[k].platform
    ensures Ids(n, was) == Ids(n, now)
  {
    assert forall k :: k in was ==> Id(n, k, was[k]) == Id(n, k, now[k]);
  }

  lemma RestartKeeps(owns: Component -> bool, s: State, renders: map<Node, Document>, left: set<Topic>)
    requires Inv(owns, s)
    ensures Inv(owns, Step(owns, s, Restart(renders, left)))
  {
  }

  lemma {:induction false} Reachable(owns: Component -> bool, script: seq<Action>)
    requires Attributes(owns)
    ensures Inv(owns, Run(owns, script))
    decreases |script|
  {
    if script != [] {
      Reachable(owns, script[..|script| - 1]);
      StepKeeps(owns, Run(owns, script[..|script| - 1]), script[|script| - 1]);
    }
  }

  lemma StepKeeps(owns: Component -> bool, s: State, a: Action)
    requires Attributes(owns) && Inv(owns, s)
    ensures Inv(owns, Step(owns, s, a))
  {
    match a
    case Begin(p, n) => BeginKeeps(owns, s, p, n);
    case Ask(p) => AskKeeps(owns, s, p);
    case Deliver(n, keys) => DeliverKeeps(owns, s, n, keys);
    case CloseWindow => CloseKeeps(owns, s);
    case Prepare(p, validate) => if p in s.passes && s.passes[p].Ready? { PrepareKeeps(owns, s, p, validate); }
    case Send(p, ok, arrived) => if p in s.passes && s.passes[p].Sending? { SendKeeps(owns, s, p, ok, arrived); }
    case GiveUp(p) => PassEnds(owns, s, p);
    case Record(p, declared) =>
      if p in s.passes && s.passes[p].Written? {
        PassEnds(owns, s, p);
        RecordKeeps(owns, s, p);
      }
    case Look(n, owned, documents) => LookKeeps(owns, s, n, owned, documents);
    case Clear(n, cleared) => ClearKeeps(owns, s, n, cleared);
    case BoundsChange(renders) => BoundsKeep(owns, s, renders);
    case Restart(renders, left) => RestartKeeps(owns, s, renders, left);
    case Retract(p, gone) => ClearedKeeps(owns, s, gone * Superseded(s, p));
    case SiblingWrites(n, doc) => SiblingKeeps(owns, s, n, doc);
    case SiblingClears(_, cleared) => ClearedKeeps(owns, s, cleared);
    case _ => OutsideKeeps(owns, s, a);
  }

  // ----- the theorems -----

  /** Attribution by IsOwnConfig is the attribution meant here, whatever else a component's payload says. */
  lemma OwnConfigAttributes(root: string, parse: Component -> Option<Attribution.Config>, owns: Component -> bool)
    requires forall c: Component :: parse(c).Some? ==> parse(c).value.uniqueId == c.uniqueId
    requires forall c: Component :: owns(c) <==> Attribution.IsOwn(root, parse(c))
    ensures Attributes(owns)
  {
    forall c: Component | owns(c) ensures c.uniqueId != "" {
      assert Attribution.NAMESPACE <= parse(c).value.uniqueId;
    }
  }

  /** Over every run: whatever tombstone goes out, whether or not its document arrives, is for a component
      attributed to this instance that the document does not render, and never for one that an earlier document
      to arrive has withheld and none to arrive since has carried live. */
  lemma EveryTombstoneIsJustified(owns: Component -> bool, script: seq<Action>, i: nat)
    requires Attributes(owns) && i < |Run(owns, script).written|
    ensures Justified(owns, Run(owns, script).written[i])
  {
    Reachable(owns, script);
  }

  /** The ways an entity is deleted: a retraction of its config ahead of a document, a tombstone of ours in a
      document that arrives, a sibling's tombstone or clearing, a cleared config of our sweep, and the operator's
      refresh. */
  ghost predicate Deletes(owns: Component -> bool, s: State, a: Action, e: Topic) {
    match a
    case Retract(p, gone) => e in gone && e in Superseded(s, p)
    case Send(_, _, arrived) =>
      var t := Step(owns, s, a);
      arrived && |s.written| <= |t.written| && e in Deleted(t.written[|s.written|..])
    case SiblingWrites(n, doc) => SiblingMay(owns, doc) && e in Ids(n, Removals(doc)) && e !in Ids(n, Live(doc))
    case SiblingClears(n, cleared) => EntitiesOf(n, cleared) && e in cleared
    case Clear(n, cleared) => CanClear(s, n, cleared) && e in cleared && e in s.configs
    case Refresh(n, cleared) => EntitiesOf(n, cleared) && e in cleared
    case _ => false
  }

  /** Over every run an entity leaves the registry exactly at a step that deletes it in one of these ways. */
  lemma EntitiesLeaveOnlyWhenDeleted(owns: Component -> bool, script: seq<Action>, a: Action, e: Topic)
    requires Attributes(owns) && e in Run(owns, script).registry
    ensures e !in Run(owns, script + [a]).registry <==> Deletes(owns, Run(owns, script), a, e)
  {
    assert (script + [a])[..|script|] == script;
    var s := Run(owns, script);
    if a.Send? { SendDeletes(owns, s, a, e); } else { OthersDelete(owns, s, a, e); }
  }

  /** A document that arrives deletes what it marks and nothing else. */
  lemma SendDeletes(owns: Component -> bool, s: State, a: Action, e: Topic)
    requires e in s.registry && a.Send?
    ensures e !in Step(owns, s, a).registry <==> Deletes(owns, s, a, e)
  {
    if a.p in s.passes && s.passes[a.p].Sending? {
      var w, u := s.passes[a.p], s.(passes := s.passes - {a.p});
      var marks := NewMarks(u, w.node, w.prior, w.doc);
      NewMarksAre(u, w.node, w.prior, w.doc);
      assert (s.written + marks)[|s.written|..] == marks;
      RemovalsAreNotLive(w.node, w.doc);
    }
  }

  lemma OthersDelete(owns: Component -> bool, s: State, a: Action, e: Topic)
    requires e in s.registry && !a.Send?
    ensures e !in Step(owns, s, a).registry <==> Deletes(owns, s, a, e)
  {
  }

  lemma RemovalsAreNotLive(n: Node, doc: Document)
    ensures Ids(n, Removals(doc)) !! Ids(n, Live(doc))
  {
  }

  /** No document deletes a withheld component's entity: it leaves the registry exactly when one of the other
      steps deletes it.  Of a publish that can only be the retraction of its own old config, ahead of a document
      that renders it live again. */
  lemma WithheldEntitiesStay(owns: Component -> bool, script: seq<Action>, a: Action, e: Topic)
    requires Attributes(owns)
    requires e in Run(owns, script).withheld && e in Run(owns, script).registry
    ensures var s := Run(owns, script);
      && (e !in Run(owns, script + [a]).registry <==> !a.Send? && Deletes(owns, s, a, e))
      && (a.Retract? && Deletes(owns, s, a, e) ==> e in Ids(s.passes[a.p].node, Live(s.passes[a.p].doc)))
  {
    EntitiesLeaveOnlyWhenDeleted(owns, script, a, e);
    Reachable(owns, script);
    var s := Run(owns, script);
    if a.Send? { SendSparesTheWithheld(owns, s, a, e); }
    if a.Retract? && Deletes(owns, s, a, e) { RetractsTheLive(owns, s, a.p, e); }
  }

  /** A document removes nothing withheld. */
  lemma RemovalsSpareTheWithheld(owns: Component -> bool, s: State, w: Pass, e: Topic)
    requires w.Sending? && PassOk(owns, s.On(), w) && e in s.withheld
    ensures forall k :: k in w.doc && Id(w.node, k, w.doc[k]) == e ==> IsLive(w.doc[k])
  {
    forall k | k in w.doc && !IsLive(w.doc[k]) ensures Id(w.node, k, w.doc[k]) != e {
      assert Id(w.node, k, w.doc[k]) == Id(w.node, k, w.prior[k]);
    }
  }

  lemma RetractsTheLive(owns: Component -> bool, s: State, p: PassId, e: Topic)
    requires Inv(owns, s) && e in s.withheld && e in Superseded(s, p)
    ensures e in Ids(s.passes[p].node, Live(s.passes[p].doc))
  {
    var w := s.passes[p];
    assert PassOk(owns, s.On(), w);
    RemovalsSpareTheWithheld(owns, s, w, e);
    var k :| k in w.doc && e == Id(w.node, k, w.doc[k]);
    assert k in Live(w.doc);
  }

  lemma SendSparesTheWithheld(owns: Component -> bool, s: State, a: Action, e: Topic)
    requires Inv(owns, s) && a.Send? && e in s.withheld
    ensures !Deletes(owns, s, a, e)
  {
    if a.p in s.passes && s.passes[a.p].Sending? {
      var w, u := s.passes[a.p], s.(passes := s.passes - {a.p});
      assert PassOk(owns, s.On(), w);
      RemovalsSpareTheWithheld(owns, s, w, e);
      var marks := NewMarks(u, w.node, w.prior, w.doc);
      NewMarksAre(u, w.node, w.prior, w.doc);
      assert (s.written + marks)[|s.written|..] == marks;
    }
  }

  /** How one PublishBundle ends: given up, or with the document sent. */
  predicate Ends(a: Action, p: PassId) {
    a == GiveUp(p) || (a.Send? && a.p == p)
  }

  lemma Append(owns: Component -> bool, script: seq<Action>, a: Action)
    ensures Run(owns, script + [a]) == Step(owns, Run(owns, script), a)
  {
    assert (script + [a])[..|script|] == script;
  }

  lemma AppendTwo(owns: Component -> bool, script: seq<Action>, a: Action, b: Action)
    ensures Run(owns, script + [a, b]) == Step(owns, Step(owns, Run(owns, script), a), b)
  {
    Append(owns, script, a);
    Append(owns, script + [a], b);
    assert script + [a] + [b] == script + [a, b];
  }

  /** What one PublishBundle does to the registry, whichever of its retractions and whether or not its document
      arrives.  What it renders is there afterwards whenever the document arrives, lost before or not; otherwise
      it is lost exactly when the retraction of its old config arrives.  What it removes stays exactly when
      neither arrives, and nothing else is touched. */
  lemma PublishOutcome(owns: Component -> bool, script: seq<Action>, p: PassId, gone: set<Topic>, a: Action, e: Topic)
    requires var s := Run(owns, script); p in s.passes && s.passes[p].Sending?
    requires Ends(a, p)
    ensures var s, t := Run(owns, script), Run(owns, script + [Retract(p, gone), a]);
      var n, doc, arrived := s.passes[p].node, s.passes[p].doc, a.Send? && a.arrived;
      var spared := e in s.registry && !(e in gone && e in s.configs);
      e in t.registry <==>
        if e in Ids(n, Live(doc)) then arrived || spared
        else if e in Ids(n, Removals(doc)) then !arrived && spared
        else e in s.registry
  {
    AppendTwo(owns, script, Retract(p, gone), a);
    var s := Run(owns, script);
    RetractOutcome(owns, s, p, gone, e);
    EndOutcome(owns, Step(owns, s, Retract(p, gone)), p, a, e);
    EveryEntryIsOne(s.passes[p].node, s.passes[p].doc);
    RemovalsAreNotLive(s.passes[p].node, s.passes[p].doc);
  }

  lemma RetractOutcome(owns: Component -> bool, s: State, p: PassId, gone: set<Topic>, e: Topic)
    requires p in s.passes && s.passes[p].Sending?
    ensures var t := Step(owns, s, Retract(p, gone));
      && t.passes == s.passes
      && (e in t.registry <==>
            e in s.registry && !(e in gone && e in s.configs && e in Ids(s.passes[p].node, s.passes[p].doc)))
  {
  }

  lemma EndOutcome(owns: Component -> bool, s: State, p: PassId, a: Action, e: Topic)
    requires p in s.passes && s.passes[p].Sending? && Ends(a, p)
    ensures var n, doc, t := s.passes[p].node, s.passes[p].doc, Step(owns, s, a);
      e in t.registry <==>
        if a.Send? && a.arrived
        then e in Ids(n, Live(doc)) || (e in s.registry && e !in Ids(n, Removals(doc)))
        else e in s.registry
  {
  }

  lemma EveryEntryIsOne(n: Node, doc: Document)
    ensures Ids(n, doc) == Ids(n, Live(doc)) + Ids(n, Removals(doc))
  {
    forall k | k in doc ensures Id(n, k, doc[k]) in Ids(n, Live(doc)) + Ids(n, Removals(doc)) {
      assert k in Live(doc) || k in Removals(doc);
    }
  }

  /** Which configs a sweep clears, when the document behind it arrived and found no config of its live entries
      left: of the retained configs of ours that it finds, exactly those of entities this process does not render.
      A withheld entity is therefore spared as long as the process renders it, and swept by the first process that
      does not. */
  lemma SweepsClearExactlyTheUnrendered(owns: Component -> bool, script: seq<Action>, n: Node, owned: seq<Topic>,
      documents: seq<Node>, e: Topic)
    requires Attributes(owns) && e in owned
    requires var s := Run(owns, script); n in s.jobs && s.jobs[n].Looking? && s.jobs[n].reached && Findable(s, n, owned)
    ensures var s, t := Run(owns, script), Run(owns, script + [Look(n, owned, documents)]);
      && n in t.jobs && t.jobs[n].Clearing?
      && (e in t.jobs[n].orphans <==> e !in Ids(n, RenderedBy(s.renders, n)))
  {
    Reachable(owns, script);
    var a := Look(n, owned, documents);
    assert (script + [a])[..|script|] == script;
    var s := Run(owns, script);
    assert JobOk(s.On(), n, s.jobs[n]);
    OrphansAre(s.jobs[n].keep, owned, documents, e);
  }

  /** And what a sweep has decided to clear stays free of what is rendered until it is done. */
  lemma SweepsSpareTheRendered(owns: Component -> bool, script: seq<Action>, n: Node, cleared: set<Topic>, k: Key)
    requires Attributes(owns)
    requires var s := Run(owns, script); CanClear(s, n, cleared) && s.jobs[n].reached && k in RenderedBy(s.renders, n)
    ensures Id(n, k, RenderedBy(Run(owns, script).renders, n)[k]) !in cleared
  {
    Reachable(owns, script);
    var s := Run(owns, script);
    assert JobOk(s.On(), n, s.jobs[n]);
    assert Id(n, k, RenderedBy(s.renders, n)[k]) in Ids(n, RenderedBy(s.renders, n));
  }
}
