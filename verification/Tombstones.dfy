// Removing components from a device document, and only our own (internal/hass/tombstone.go, the gates of
// internal/hass/discovery.go, the memo of internal/bridge/tombstone.go, internal/bridge/reconcile.go).
module Tombstones {
  import opened Prelude

  // Documents, components and runtimes are known by number.
  type Node = nat
  type Key = nat
  type Runtime = nat

  /** An entry of a device document; an absent member is the empty string. */
  datatype Component = Component(platform: string, uniqueId: string, body: string)

  type Document = map<Key, Component>

  /** Discovery.IsOwnConfig on a component: attribution needs a unique id. */
  ghost predicate Attributes(owns: Component -> bool) {
    forall c :: owns(c) ==> c.uniqueId != ""
  }

  predicate IsLive(c: Component) {
    c.platform != "" && c.uniqueId != ""
  }

  /** The platform-only entry Home Assistant reads as a removal. */
  function Removal(c: Component): Component {
    Component(c.platform, "", "")
  }

  // ----- reading a document back -----

  /** The components of a retained document that are provably ours; nothing of one that does not parse, nor
      of an entry that does not. */
  function Attributed(owns: Component -> bool, doc: Option<map<Key, Option<Component>>>): Document {
    if doc.None? then map[]
    else
      var d := doc.value;
      map k | k in d && d[k].Some? && d[k].value.platform != "" && owns(d[k].value) :: d[k].value
  }

  method BundleComponents(owns: Component -> bool, doc: Option<map<Key, Option<Component>>>, order: seq<Key>)
    returns (out: Document)
    requires doc.Some? ==> Enumerates(order, doc.value.Keys)
    ensures out == Attributed(owns, doc)
  {
    out := map[];
    if doc.None? { return; }
    var d := doc.value;
    for i := 0 to |order|
      invariant out == map k | k in d && k in order[..i]
                               && d[k].Some? && d[k].value.platform != "" && owns(d[k].value) :: d[k].value
    {
      assert order[i] in order;
      assert forall k :: k in order[..i + 1] <==> k in order[..i] || k == order[i];
      if d[order[i]].None? { continue; }
      var comp := d[order[i]].value;
      if comp.platform == "" { continue; }
      if !owns(comp) { continue; }
      out := out[order[i] := comp];
    }
    assert forall k :: k in order[..|order|] <==> k in d;
  }

  function Live(b: Document): Document {
    map k | k in b && IsLive(b[k]) :: b[k]
  }

  method LiveComponents(b: Document, order: seq<Key>) returns (out: Document)
    requires Enumerates(order, b.Keys)
    ensures out == Live(b)
  {
    out := map[];
    for i := 0 to |order|
      invariant out == map k | k in b && k in order[..i] && IsLive(b[k]) :: b[k]
    {
      assert order[i] in order;
      assert forall k :: k in order[..i + 1] <==> k in order[..i] || k == order[i];
      if IsLive(b[order[i]]) { out := out[order[i] := b[order[i]]]; }
    }
    assert forall k :: k in order[..|order|] <==> k in b;
  }

  // ----- tombstones -----

  /** What the prior document declared and this one does not. */
  function Gone(b: Document, prior: Document): set<Key> {
    prior.Keys - b.Keys
  }

  function Marked(b: Document, prior: Document): Document {
    map k | k in b.Keys + prior.Keys :: if k in b then b[k] else Removal(prior[k])
  }

  /** discovery.Validate's answer: a blocking finding names a component or, with None, the document. */
  datatype Verdict = Valid | Advisory | Unreadable | Blocking(issues: seq<Option<Key>>)

  /** invalidComponents: the components all the findings name, if every one names a component. */
  function Named(b: Document, issues: seq<Option<Key>>): Option<set<Key>> {
    if issues == [] || exists i :: 0 <= i < |issues| && (issues[i].None? || issues[i].value !in b) then None
    else Some(set i | 0 <= i < |issues| && issues[i].Some? :: issues[i].value)
  }

  method InvalidComponents(b: Document, issues: seq<Option<Key>>) returns (bad: Option<set<Key>>)
    ensures bad == Named(b, issues)
  {
    var out := {};
    for i := 0 to |issues|
      invariant forall k :: 0 <= k < i ==> issues[k].Some? && issues[k].value in b
      invariant out == set k | 0 <= k < i && issues[k].Some? :: issues[k].value
    {
      if issues[i].None? || issues[i].value !in b { return None; }
      out := out + {issues[i].value};
    }
    if issues == [] { return None; }
    return Some(out);
  }

  type Validator = Document -> Verdict

  /** validateBundle: the document that passes and what was withheld from it. */
  function Checked(b: Document, validate: Validator): Option<(Document, set<Key>)> {
    match validate(b)
    case Valid => Some((b, {}))
    case Advisory => Some((b, {}))
    case Unreadable => None
    case Blocking(issues) =>
      var bad := Named(b, issues);
      if bad.None? then None
      else
        var left := b - bad.value;
        if validate(left).Unreadable? || validate(left).Blocking? || Live(left) == map[] then None
        else Some((left, bad.value))
  }

  /** PublishDeviceBundle up to the write: what goes out and what is withheld, or nothing. */
  function Outgoing(rendered: Document, prior: Document, validate: Validator): Option<(Document, set<Key>)> {
    var b := Marked(rendered, prior);
    if Live(b) == map[] then None else Checked(b, validate)
  }

  /** The per-entity topic of a component. */
  datatype Topic = DocumentTopic(node: Node) | EntityTopic(platform: string, node: Node, key: Key)

  const PUBLISHED_PLATFORMS: set<string> := {"sensor", "binary_sensor", "switch", "select", "number", "button"}

  predicate KeepsEntity(c: Component) {
    c.uniqueId != "" && c.platform in PUBLISHED_PLATFORMS
  }

  /** An entity is known by the topic its own config would have. */
  function Id(node: Node, k: Key, c: Component): Topic {
    EntityTopic(c.platform, node, k)
  }

  function WithheldTopics(b: Document, node: Node, bad: set<Key>): set<Topic> {
    set k | k in bad && k in b && KeepsEntity(b[k]) :: Id(node, k, b[k])
  }

  /** The document under construction, edited in place. */
  class Bundle {
    var components: Document
    const node: Node

    constructor (node: Node, rendered: Document)
      ensures components == rendered && this.node == node
    {
      this.node, components := node, rendered;
    }

    /** ApplyTombstones */
    method ApplyTombstones(prior: Document, order: seq<Key>) returns (gone: seq<Key>)
      requires Enumerates(order, prior.Keys)
      modifies this
      ensures components == Marked(old(components), prior)
      ensures forall k :: k in gone <==> k in Gone(old(components), prior)
    {
      gone := [];
      for i := 0 to |order|
        invariant forall k :: k in gone <==> k in order[..i] && k !in components
      {
        assert forall k :: k in order[..i + 1] <==> k in order[..i] || k == order[i];
        if order[i] !in components { gone := gone + [order[i]]; }
      }
      assert forall k :: k in order[..|order|] <==> k in prior;
      RemoveComponents(prior, gone);
    }

    /** discovery.Bundle.RemoveComponents, for keys the document does not hold. */
    method RemoveComponents(prior: Document, gone: seq<Key>)
      requires forall k :: k in gone ==> k in prior && k !in components
      modifies this
      ensures components ==
        map k | k in old(components).Keys + prior.Keys && (k in old(components) || k in gone)
            :: if k in old(components) then old(components)[k] else Removal(prior[k])
    {
      for i := 0 to |gone|
        invariant components ==
          map k | k in old(components).Keys + prior.Keys && (k in old(components) || k in gone[..i])
              :: if k in old(components) then old(components)[k] else Removal(prior[k])
      {
        assert gone[i] in gone;
        assert forall k :: k in gone[..i + 1] <==> k in gone[..i] || k == gone[i];
        components := components[gone[i] := Removal(prior[gone[i]])];
      }
      assert gone[..|gone|] == gone;
    }

    /** withholdComponents: left out, never marked. */
    method WithholdComponents(order: seq<Key>, bad: set<Key>) returns (topics: set<Topic>)
      requires Enumerates(order, bad) && bad <= components.Keys
      modifies this
      ensures components == old(components) - bad
      ensures topics == WithheldTopics(old(components), node, bad)
    {
      topics := {};
      for i := 0 to |order|
        invariant components == old(components) - (set k | k in order[..i])
        invariant topics ==
                  set k | k in order[..i] && KeepsEntity(old(components)[k]) :: Id(node, k, old(components)[k])
      {
        assert order[i] in order;
        assert forall k :: k in order[..i + 1] <==> k in order[..i] || k == order[i];
        var comp := components[order[i]];
        if KeepsEntity(comp) { topics := topics + {Id(node, order[i], comp)}; }
        components := components - {order[i]};
      }
      assert forall k :: k in order[..|order|] <==> k in bad;
    }
  }

  /** PublishDeviceBundle up to the write: mark, refuse what is empty, validate, withhold, validate again.
      `sorted` lists the keys of a set, as sort.Strings does. */
  method PrepareDocument(node: Node, rendered: Document, prior: Document, validate: Validator,
      sorted: set<Key> -> seq<Key>)
    returns (r: Option<(Document, set<Key>)>, topics: set<Topic>)
    requires forall s :: Enumerates(sorted(s), s)
    ensures r == Outgoing(rendered, prior, validate)
    ensures topics == if r.Some? then WithheldTopics(Marked(rendered, prior), node, r.value.1) else {}
  {
    topics := {};
    var b := new Bundle(node, rendered);
    var _ := b.ApplyTombstones(prior, sorted(prior.Keys));
    if Live(b.components) == map[] { return None, topics; }
    match validate(b.components) {
      case Valid => return Some((b.components, {})), topics;
      case Advisory => return Some((b.components, {})), topics;
      case Unreadable => return None, topics;
      case Blocking(issues) =>
        var bad := InvalidComponents(b.components, issues);
        if bad.None? { return None, topics; }
        var withheld := b.WithholdComponents(sorted(bad.value), bad.value);
        var again := validate(b.components);
        if again.Unreadable? || again.Blocking? || Live(b.components) == map[] { return None, topics; }
        return Some((b.components, bad.value)), withheld;
    }
  }

  // ----- what the gates let out -----

  /** Findings are attributed to components only when there are some and every one names a component there is. */
  lemma NamedExactly(b: Document, issues: seq<Option<Key>>)
    ensures Named(b, issues).Some? <==>
      issues != [] && forall i :: 0 <= i < |issues| ==> issues[i].Some? && issues[i].value in b
    ensures Named(b, issues).Some? ==>
      forall k :: k in Named(b, issues).value <==> Some(k) in issues
  {
  }

  /** A document that declares nothing live never goes out.  One without a blocking finding goes out whole.  One with
      some goes out without the components they name, when all of them name one and what is left passes; in every
      other case nothing goes out. */
  lemma GatesExactly(rendered: Document, prior: Document, validate: Validator)
    ensures var b := Marked(rendered, prior);
      var v := validate(b);
      var bad := if v.Blocking? then Named(b, v.issues) else None;
      Outgoing(rendered, prior, validate) ==
        if forall k :: k in b ==> !IsLive(b[k]) then None
        else if v.Valid? || v.Advisory? then Some((b, {}))
        else if bad.Some? && Passes(validate, b - bad.value) then Some((b - bad.value, bad.value))
        else None
  {
    var b := Marked(rendered, prior);
    assert Live(b) == map[] <==> forall k :: k in b ==> !IsLive(b[k]) by {
      assert forall k :: k in b && IsLive(b[k]) ==> k in Live(b);
    }
  }

  ghost predicate Passes(validate: Validator, left: Document) {
    (validate(left).Valid? || validate(left).Advisory?) && Live(left) != map[]
  }

  /** The sweep is told of each withheld component whose entity an old config could declare. */
  lemma WithheldTopicsExactly(b: Document, node: Node, bad: set<Key>, t: Topic)
    ensures t in WithheldTopics(b, node, bad) <==>
      && t.EntityTopic? && t.node == node && t.key in bad && t.key in b
      && t.platform == b[t.key].platform && b[t.key].uniqueId != "" && t.platform in PUBLISHED_PLATFORMS
  {
    if t.EntityTopic? && t.key in b && t.key in bad && KeepsEntity(b[t.key]) {
      assert Id(node, t.key, b[t.key]) in WithheldTopics(b, node, bad);
    }
  }

  // ----- what a document can delete -----

  /** A tombstone is written only for a key the prior document declared and this one does not render, and
      it takes nothing from what is rendered. */
  lemma TombstonesAreForTheGone(rendered: Document, prior: Document, validate: Validator, k: Key)
    requires forall j :: j in rendered ==> IsLive(rendered[j])
    requires var r := Outgoing(rendered, prior, validate); r.Some? && k in r.value.0
    ensures var doc := Outgoing(rendered, prior, validate).value.0;
      && (!IsLive(doc[k]) <==> k in prior && k !in rendered)
      && (!IsLive(doc[k]) ==> doc[k] == Component(prior[k].platform, "", ""))
      && (k in rendered ==> doc[k] == rendered[k])
  {
  }

  /** A smaller read yields no tombstone the larger would not, whatever either validator withholds: every
      removal that goes out is one the larger read calls for, and the rendered entries are the same. */
  lemma SmallerReadFewerTombstones(rendered: Document, less: Document, more: Document, validate: Validator, k: Key)
    requires less.Keys <= more.Keys && forall j :: j in less ==> less[j] == more[j]
    requires forall j :: j in rendered ==> IsLive(rendered[j])
    requires var r := Outgoing(rendered, less, validate); r.Some? && k in r.value.0
    ensures var doc := Outgoing(rendered, less, validate).value.0;
      if IsLive(doc[k]) then k in rendered && doc[k] == rendered[k]
      else k in Gone(rendered, more) && doc[k] == Removal(more[k]) == Marked(rendered, more)[k]
  {
    TombstonesAreForTheGone(rendered, less, validate, k);
  }

  /** A document read back yields no tombstone of its own making: a removal entry is never prior state. */
  lemma TombstonesAreNotPriorState(owns: Component -> bool, doc: Document, k: Key)
    requires Attributes(owns) && k in doc && !IsLive(doc[k])
    ensures k !in Attributed(owns, Some(map j | j in doc :: Some(doc[j])))
  {
  }

  // ----- the per-connection memo -----

  datatype Memo = Memo(rt: Option<Runtime>, docs: map<Node, Document>)

  function Loaded(m: Memo, rt: Runtime, reading: map<Node, Document>): Memo {
    if m.rt != Some(rt) then Memo(Some(rt), reading) else m
  }

  function Lookup(m: Memo, node: Node): Document {
    if node in m.docs then m.docs[node] else map[]
  }

  function Recorded(m: Memo, rt: Runtime, node: Node, live: Document): Memo {
    if m.rt != Some(rt) then m
    else m.(docs := if live == map[] then m.docs - {node} else m.docs[node := live])
  }

  /** On a new connection what the read-back saw is what every pass is given, and later reads change nothing; what
      a pass publishes takes its place, on its own connection and for its own document. */
  lemma MemoRemembers(m: Memo, rt: Runtime, reading: map<Node, Document>, node: Node, live: Document, other: Node)
    ensures m.rt != Some(rt) ==>
      Lookup(Loaded(m, rt, reading), node) == if node in reading then reading[node] else map[]
    ensures Loaded(Loaded(m, rt, reading), rt, map[]) == Loaded(m, rt, reading)
    ensures m.rt == Some(rt) ==>
      Lookup(Recorded(m, rt, node, live), other) == if other == node then live else Lookup(m, other)
    ensures m.rt != Some(rt) ==> Recorded(m, rt, node, live) == m
  {
  }

  class PriorDocuments {
    var rt: Option<Runtime>
    var docs: map<Node, Document>

    ghost function Value(): Memo
      reads this
    {
      Memo(rt, docs)
    }

    constructor ()
      ensures Value() == Memo(None, map[])
    {
      rt, docs := None, map[];
    }

    /** One read per connection, whatever it saw. */
    method ForConnection(r: Runtime, node: Node, reading: map<Node, Document>) returns (prior: Document)
      modifies this
      ensures Value() == Loaded(old(Value()), r, reading)
      ensures prior == Lookup(Value(), node)
    {
      if rt != Some(r) { rt, docs := Some(r), reading; }
      prior := if node in docs then docs[node] else map[];
    }

    /** A pass that straddled a reconnect records nothing. */
    method Record(r: Runtime, node: Node, live: Document)
      modifies this
      ensures Value() == Recorded(old(Value()), r, node, live)
    {
      if rt != Some(r) { return; }
      if live == map[] {
        docs := docs - {node};
        return;
      }
      docs := docs[node := live];
    }
  }

  // ----- the orphan sweep -----

  /** What this instance owns and nothing claims, in the order found. */
  function Orphans(owned: seq<Topic>, claimed: set<Topic>): seq<Topic> {
    if owned == [] then []
    else Orphans(owned[..|owned| - 1], claimed) + if owned[|owned| - 1] in claimed then [] else [owned[|owned| - 1]]
  }

  method OrphanTopics(owned: seq<Topic>, published: set<Topic>, declared: seq<Topic>) returns (out: seq<Topic>)
    ensures out == Orphans(owned, published + set t | t in declared)
  {
    var claimed := published;
    for i := 0 to |declared|
      invariant claimed == published + set t | t in declared[..i]
    {
      assert declared[..i + 1] == declared[..i] + [declared[i]];
      claimed := claimed + {declared[i]};
    }
    assert declared[..|declared|] == declared;
    out := [];
    for i := 0 to |owned|
      invariant out == Orphans(owned[..i], claimed)
    {
      assert owned[..i + 1][..i] == owned[..i];
      if owned[i] !in claimed { out := out + [owned[i]]; }
    }
    assert owned[..|owned|] == owned;
  }

  lemma {:induction false} OrphansAreOwnedAndUnclaimed(owned: seq<Topic>, claimed: set<Topic>, t: Topic)
    ensures t in Orphans(owned, claimed) <==> t in owned && t !in claimed
  {
    if owned != [] {
      var n := |owned| - 1;
      OrphansAreOwnedAndUnclaimed(owned[..n], claimed, t);
      assert owned == owned[..n] + [owned[n]];
    }
  }
}
