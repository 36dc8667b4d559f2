// The migration sweep (internal/bridge/migrate.go): what it subscribes to and what it may clear.
//
// `safe` is topic.Safe and `isFunction` topic.IsFunction of go-hamqtt; matching follows section 4.7 of
// MQTT 5.0, level by level.
module Sweep {
  import opened Prelude
  import opened Text
  import opened Sorting
  import opened Topics
  import opened Legacy

  datatype Device = Device(name: string, haID: string, features: seq<(string, nat)>)

  datatype Plan = Plan(filters: seq<string>, legacy: set<string>, current: map<string, set<string>>)

  datatype Grammar = Grammar(safe: string -> string, isFunction: string -> bool, root: string)

  // ----- topics and filters -----

  /** A topic filter against a topic name: `+` stands for one level, a final `#` for any number of them, the
      parent included. */
  predicate Matches(filter: seq<string>, topic: seq<string>) {
    if filter == [] then topic == []
    else if filter[0] == "#" then |filter| == 1
    else topic != [] && (filter[0] == "+" || filter[0] == topic[0]) && Matches(filter[1..], topic[1..])
  }

  function StatusPrefix(g: Grammar, d: Device): string {
    g.root + "/status/" + g.safe(d.haID) + "/"
  }

  function Item(g: Grammar, d: Device, item: seq<string>): string {
    Status(g.safe, g.root, d.haID, item)
  }

  function FeatureState(g: Grammar, d: Device, f: (string, nat)): string {
    StateTopic(g.safe, g.root, d.haID, f.0, f.1)
  }

  function OldState(g: Grammar, d: Device, f: (string, nat)): string {
    LegacyState(g.root, d.name, Join(FeatureItem(f.0, f.1), '/'))
  }

  /** The device's old tree would share its second level with the new grammar. */
  predicate Skipped(g: Grammar, d: Device) {
    g.isFunction(Levels(d.name)[0])
  }

  /** The set with each of these topics put in, one after the other. */
  function With(topics: set<string>, more: seq<string>): set<string> {
    Fold(Insert, topics, more)
  }

  function Insert(topics: set<string>, t: string): set<string> {
    topics + {t}
  }

  function OldStates(g: Grammar, d: Device): seq<string> {
    Map((f: (string, nat)) => OldState(g, d, f), d.features)
  }

  function FeatureStates(g: Grammar, d: Device): seq<string> {
    Map((f: (string, nat)) => FeatureState(g, d, f), d.features)
  }

  function LegacyTopics(g: Grammar, d: Device): set<string> {
    With({LegacyAvailability(g.root, d.name), LegacyConnectionState(g.root, d.name)}, OldStates(g, d))
  }

  function Items(g: Grammar, d: Device): set<string> {
    With({Item(g, d, ["online"]), Item(g, d, ["connection_state"])}, FeatureStates(g, d))
  }

  // ----- the plan -----

  /** What one appliance adds to the plan. */
  datatype Share = Share(filters: seq<string>, legacy: set<string>, prefix: string, items: set<string>)

  function ShareOf(g: Grammar, d: Device): Share {
    var now := StatusPrefix(g, d);
    if Skipped(g, d) then Share([now + "#"], {}, now, Items(g, d))
    else Share([LegacyBase(g.root, d.name) + "/#", now + "#"], LegacyTopics(g, d), now, Items(g, d))
  }

  function Shares(g: Grammar, devices: seq<Device>): seq<Share> {
    Map((d: Device) => ShareOf(g, d), devices)
  }

  function Add(p: Plan, s: Share): Plan {
    Plan(p.filters + s.filters, p.legacy + s.legacy, p.current[s.prefix := s.items])
  }

  function Start(g: Grammar): Plan {
    Plan([LegacyBridge(g.root)], {LegacyBridge(g.root)}, map[])
  }

  function PlanOf(g: Grammar, devices: seq<Device>): Plan {
    Fold(Add, Start(g), Shares(g, devices))
  }

  lemma FoldNext<S, A>(step: (S, A) -> S, s: S, steps: seq<A>, i: nat)
    requires i < |steps|
    ensures Fold(step, s, steps[..i + 1]) == step(Fold(step, s, steps[..i]), steps[i])
  {
    assert steps[..i + 1] == steps[..i] + [steps[i]];
    FoldLast(step, s, steps[..i], steps[i]);
  }

  /** legacySweepPlan */
  method LegacySweepPlan(g: Grammar, devices: seq<Device>) returns (plan: Plan)
    ensures plan == PlanOf(g, devices)
  {
    ghost var shares := Shares(g, devices);
    plan := Start(g);
    ghost var start := plan;
    for i := 0 to |devices|
      invariant plan == Fold(Add, start, shares[..i])
    {
      FoldNext(Add, start, shares, i);
      plan := Extended(g, plan, devices[i]);
    }
    assert shares[..|devices|] == shares;
  }

  method Extended(g: Grammar, p: Plan, d: Device) returns (plan: Plan)
    ensures plan == Add(p, ShareOf(g, d))
  {
    plan := p;
    if !Skipped(g, d) {
      var stale := LegacyTopicsOf(g, d);
      plan := plan.(filters := plan.filters + [LegacyBase(g.root, d.name) + "/#"], legacy := plan.legacy + stale);
    }
    var items := ItemsOf(g, d);
    var prefix := StatusPrefix(g, d);
    plan := plan.(filters := plan.filters + [prefix + "#"], current := plan.current[prefix := items]);
  }

  method LegacyTopicsOf(g: Grammar, d: Device) returns (r: set<string>)
    ensures r == LegacyTopics(g, d)
  {
    ghost var topics := OldStates(g, d);
    r := {LegacyAvailability(g.root, d.name), LegacyConnectionState(g.root, d.name)};
    ghost var fixed := r;
    for i := 0 to |d.features|
      invariant r == With(fixed, topics[..i])
    {
      FoldNext(Insert, fixed, topics, i);
      r := r + {OldState(g, d, d.features[i])};
    }
    assert topics[..|d.features|] == topics;
  }

  method ItemsOf(g: Grammar, d: Device) returns (r: set<string>)
    ensures r == Items(g, d)
  {
    ghost var topics := FeatureStates(g, d);
    r := {Item(g, d, ["online"]), Item(g, d, ["connection_state"])};
    ghost var fixed := r;
    for i := 0 to |d.features|
      invariant r == With(fixed, topics[..i])
    {
      FoldNext(Insert, fixed, topics, i);
      r := r + {FeatureState(g, d, d.features[i])};
    }
    assert topics[..|d.features|] == topics;
  }

  /** What the sweep may clear, said without the order in which the prefixes are visited. */
  ghost predicate MayClear(p: Plan, topic: string) {
    topic in p.legacy || exists prefix :: prefix in p.current && prefix <= topic && topic !in p.current[prefix]
  }

  /** clears: the first status prefix that fits decides. */
  function FirstFit(p: Plan, order: seq<string>, topic: string): bool
    requires forall k :: k in order ==> k in p.current
  {
    if order == [] then false
    else if order[0] <= topic then topic !in p.current[order[0]]
    else FirstFit(p, order[1..], topic)
  }

  method Clears(p: Plan, order: seq<string>, topic: string) returns (r: bool)
    requires Lists(order, p.current.Keys)
    ensures r <==> topic in p.legacy || FirstFit(p, order, topic)
  {
    if topic in p.legacy { return true; }
    for i := 0 to |order|
      invariant FirstFit(p, order, topic) == FirstFit(p, order[i..], topic)
    {
      assert order[i] in order && order[i..][1..] == order[i + 1..];
      if order[i] <= topic { return topic !in p.current[order[i]]; }
    }
    return false;
  }

  // ----- configurations -----

  predicate ValidDeviceName(s: string) {
    s != "" && '+' !in s && '#' !in s
  }

  predicate HaIDChar(c: char) {
    'A' <= c <= 'Z' || 'a' <= c <= 'z' || '0' <= c <= '9' || c == '.' || c == '_' || c == '-'
  }

  predicate ValidHaID(s: string) {
    s != "" && s != "." && s != ".." && forall i :: 0 <= i < |s| ==> HaIDChar(s[i])
  }

  predicate ValidDevice(g: Grammar, d: Device) {
    ValidDeviceName(d.name) && ValidHaID(d.haID) && g.safe(d.haID) == d.haID
  }

  ghost predicate Configured(g: Grammar, devices: seq<Device>) {
    && ValidName(g.root)
    && g.isFunction("status") && g.isFunction("set") && g.isFunction("maintenance")
    && (forall i :: 0 <= i < |devices| ==> ValidDevice(g, devices[i]))
    && (forall i, j :: 0 <= i < j < |devices| ==> devices[i].haID != devices[j].haID)
  }

  // ----- levels of what the plan is made of -----

  lemma Below(root: string, rest: string)
    requires SingleLevel(root)
    ensures Levels(root + "/" + rest) == [root] + Levels(rest)
  {
    assert root + "/" + rest == root + ['/'] + rest;
    SplitAfter(root, rest, '/');
  }

  lemma StatusLevels(g: Grammar, d: Device, rest: string)
    requires ValidName(g.root) && ValidDevice(g, d)
    ensures Levels(StatusPrefix(g, d) + rest) == [g.root, "status", d.haID] + Levels(rest)
  {
    var t := StatusPrefix(g, d) + rest;
    assert SingleLevel(d.haID);
    assert t == g.root + "/" + ("status" + "/" + (d.haID + "/" + rest));
    Below(g.root, "status" + "/" + (d.haID + "/" + rest));
    Below("status", d.haID + "/" + rest);
    Below(d.haID, rest);
  }

  /** Everything in a device's old tree has the device name's first level for its second. */
  lemma LegacyLevels(g: Grammar, d: Device, tail: string)
    requires ValidName(g.root)
    ensures var l := Levels(LegacyBase(g.root, d.name) + "/" + tail);
      l == [g.root] + Levels(d.name) + Levels(tail)
  {
    var t := LegacyBase(g.root, d.name) + "/" + tail;
    assert t == g.root + "/" + (d.name + ['/'] + tail);
    Below(g.root, d.name + ['/'] + tail);
    SplitConcat(d.name, tail, '/');
  }

  /** The topics a device had under the layout before: its two status items and the state of each feature. */
  predicate OldTopic(g: Grammar, d: Device, t: string) {
    || t == LegacyAvailability(g.root, d.name)
    || t == LegacyConnectionState(g.root, d.name)
    || exists i :: 0 <= i < |d.features| && t == OldState(g, d, d.features[i])
  }

  lemma OldStateLevels(g: Grammar, d: Device, f: (string, nat))
    requires ValidName(g.root)
    ensures var l := Levels(OldState(g, d, f));
      |l| >= 3 && l[0] == g.root && l[1] == Levels(d.name)[0]
  {
    var tail := Join(FeatureItem(f.0, f.1), '/') + "/state";
    assert OldState(g, d, f) == LegacyBase(g.root, d.name) + "/" + tail;
    LegacyLevels(g, d, tail);
  }

  lemma OldTopicLevels(g: Grammar, d: Device, t: string)
    requires ValidName(g.root) && OldTopic(g, d, t)
    ensures |Levels(t)| >= 3 && Levels(t)[0] == g.root && Levels(t)[1] == Levels(d.name)[0]
  {
    if t == LegacyAvailability(g.root, d.name) {
      assert t == LegacyBase(g.root, d.name) + "/" + "availability";
      LegacyLevels(g, d, "availability");
    } else if t == LegacyConnectionState(g.root, d.name) {
      assert t == LegacyBase(g.root, d.name) + "/" + "connection_state";
      LegacyLevels(g, d, "connection_state");
    } else {
      var j :| 0 <= j < |d.features| && t == OldState(g, d, d.features[j]);
      OldStateLevels(g, d, d.features[j]);
    }
  }

  lemma ItemIsBelowThePrefix(g: Grammar, d: Device, item: seq<string>)
    ensures StatusPrefix(g, d) <= Item(g, d, item)
  {
    assert Item(g, d, item) == StatusPrefix(g, d) + Join(Map(g.safe, item), '/');
  }

  lemma ItemSource(g: Grammar, d: Device, t: string) returns (item: seq<string>)
    requires HasItem(g, d, t)
    ensures t == Item(g, d, item)
  {
    if t == Item(g, d, ["online"]) {
      item := ["online"];
    } else if t == Item(g, d, ["connection_state"]) {
      item := ["connection_state"];
    } else {
      var j :| 0 <= j < |d.features| && t == FeatureState(g, d, d.features[j]);
      item := FeatureItem(d.features[j].0, d.features[j].1);
    }
  }

  /** What the appliance has under its status tree now. */
  predicate HasItem(g: Grammar, d: Device, t: string) {
    || t == Item(g, d, ["online"])
    || t == Item(g, d, ["connection_state"])
    || exists j :: 0 <= j < |d.features| && t == FeatureState(g, d, d.features[j])
  }

  lemma {:induction false} WithExactly(topics: set<string>, more: seq<string>, t: string)
    ensures t in With(topics, more) <==> t in topics || t in more
  {
    if more != [] { WithExactly(topics, more[..|more| - 1], t); }
  }

  /** The topics listed for an appliance are exactly those it had, and those it has. */
  lemma ListedExactly(g: Grammar, d: Device, t: string)
    ensures t in LegacyTopics(g, d) <==> OldTopic(g, d, t)
    ensures t in Items(g, d) <==> HasItem(g, d, t)
  {
    OldStatesAre(g, d, t);
    FeatureStatesAre(g, d, t);
    WithExactly({LegacyAvailability(g.root, d.name), LegacyConnectionState(g.root, d.name)}, OldStates(g, d), t);
    WithExactly({Item(g, d, ["online"]), Item(g, d, ["connection_state"])}, FeatureStates(g, d), t);
  }

  lemma OldStatesAre(g: Grammar, d: Device, t: string)
    ensures t in OldStates(g, d) <==> exists j :: 0 <= j < |d.features| && t == OldState(g, d, d.features[j])
  {
    var of := (f: (string, nat)) => OldState(g, d, f);
    assert forall j :: 0 <= j < |d.features| ==> Map(of, d.features)[j] == OldState(g, d, d.features[j]);
  }

  lemma FeatureStatesAre(g: Grammar, d: Device, t: string)
    ensures t in FeatureStates(g, d) <==> exists j :: 0 <= j < |d.features| && t == FeatureState(g, d, d.features[j])
  {
    var of := (f: (string, nat)) => FeatureState(g, d, f);
    assert forall j :: 0 <= j < |d.features| ==> Map(of, d.features)[j] == FeatureState(g, d, d.features[j]);
  }

  // ----- what the plan contains -----

  /** A plan put together from shares holds what it started with and what each share brings, and nothing else. */
  lemma {:induction false} FoldedFilter(p: Plan, shares: seq<Share>, f: string)
    ensures f in Fold(Add, p, shares).filters <==>
      f in p.filters || exists i :: 0 <= i < |shares| && f in shares[i].filters
  {
    if shares != [] {
      var n := |shares| - 1;
      FoldedFilter(p, shares[..n], f);
      assert shares == shares[..n] + [shares[n]];
    }
  }

  lemma {:induction false} FoldedTopic(p: Plan, shares: seq<Share>, t: string)
    ensures t in Fold(Add, p, shares).legacy <==>
      t in p.legacy || exists i :: 0 <= i < |shares| && t in shares[i].legacy
  {
    if shares != [] {
      var n := |shares| - 1;
      FoldedTopic(p, shares[..n], t);
      assert shares == shares[..n] + [shares[n]];
    }
  }

  lemma {:induction false} FoldedPrefix(p: Plan, shares: seq<Share>, k: string)
    ensures k in Fold(Add, p, shares).current <==>
      k in p.current || exists i :: 0 <= i < |shares| && k == shares[i].prefix
  {
    if shares != [] {
      var n := |shares| - 1;
      FoldedPrefix(p, shares[..n], k);
      assert shares == shares[..n] + [shares[n]];
    }
  }

  /** Shares with one prefix are one: no later entry overwrites another. */
  lemma {:induction false} FoldedEntry(p: Plan, shares: seq<Share>, i: nat)
    requires i < |shares|
    requires forall j ::
      0 <= j < |shares| && shares[j].prefix == shares[i].prefix ==> shares[j].items == shares[i].items
    ensures shares[i].prefix in Fold(Add, p, shares).current
    ensures Fold(Add, p, shares).current[shares[i].prefix] == shares[i].items
  {
    var n := |shares| - 1;
    if i < n { FoldedEntry(p, shares[..n], i); }
  }

  /** Where a filter, an old topic or a prefix of the plan comes from. */
  lemma FilterSource(g: Grammar, devices: seq<Device>, f: string) returns (i: nat)
    requires f in PlanOf(g, devices).filters && f != LegacyBridge(g.root)
    ensures i < |devices| && f in ShareOf(g, devices[i]).filters
  {
    FoldedFilter(Start(g), Shares(g, devices), f);
    i :| 0 <= i < |devices| && f in Shares(g, devices)[i].filters;
  }

  lemma LegacySource(g: Grammar, devices: seq<Device>, t: string) returns (i: nat)
    requires t in PlanOf(g, devices).legacy && t != LegacyBridge(g.root)
    ensures i < |devices| && !Skipped(g, devices[i]) && OldTopic(g, devices[i], t)
  {
    FoldedTopic(Start(g), Shares(g, devices), t);
    i :| 0 <= i < |devices| && t in Shares(g, devices)[i].legacy;
    ListedExactly(g, devices[i], t);
  }

  lemma PrefixSource(g: Grammar, devices: seq<Device>, k: string) returns (i: nat)
    requires k in PlanOf(g, devices).current
    ensures i < |devices| && k == StatusPrefix(g, devices[i])
  {
    FoldedPrefix(Start(g), Shares(g, devices), k);
    i :| 0 <= i < |devices| && k == Shares(g, devices)[i].prefix;
  }

  lemma SamePrefixSameDevice(g: Grammar, d: Device, e: Device, t: string)
    requires ValidName(g.root) && ValidDevice(g, d) && ValidDevice(g, e)
    requires StatusPrefix(g, d) <= t && StatusPrefix(g, e) <= t
    ensures d.haID == e.haID
  {
    var p, q := StatusPrefix(g, d), StatusPrefix(g, e);
    assert t == p + t[|p|..] && t == q + t[|q|..];
    StatusLevels(g, d, t[|p|..]);
    StatusLevels(g, e, t[|q|..]);
    assert Levels(t)[2] == d.haID && Levels(t)[2] == e.haID;
  }

  lemma ShareAt(g: Grammar, devices: seq<Device>, i: nat)
    requires i < |devices|
    ensures |Shares(g, devices)| == |devices| && Shares(g, devices)[i] == ShareOf(g, devices[i])
  {
  }

  lemma SharesApart(g: Grammar, devices: seq<Device>, i: nat, j: nat)
    requires Configured(g, devices) && i < |devices| && j < |devices|
    requires StatusPrefix(g, devices[i]) == StatusPrefix(g, devices[j])
    ensures i == j
  {
    SamePrefixSameDevice(g, devices[i], devices[j], StatusPrefix(g, devices[i]));
  }

  /** Each appliance's entry is its own. */
  lemma OwnEntry(g: Grammar, devices: seq<Device>, i: nat)
    requires Configured(g, devices) && i < |devices|
    ensures var now, prefix := PlanOf(g, devices).current, StatusPrefix(g, devices[i]);
      prefix in now && now[prefix] == Items(g, devices[i])
  {
    var shares := Shares(g, devices);
    ShareAt(g, devices, i);
    forall j | 0 <= j < |shares| && shares[j].prefix == shares[i].prefix ensures shares[j].items == shares[i].items {
      ShareAt(g, devices, j);
      SharesApart(g, devices, i, j);
    }
    FoldedEntry(Start(g), shares, i);
  }

  lemma EntryOf(g: Grammar, devices: seq<Device>, i: nat, t: string)
    requires Configured(g, devices) && i < |devices|
    ensures var now, prefix := PlanOf(g, devices).current, StatusPrefix(g, devices[i]);
      prefix in now && (t in now[prefix] <==> HasItem(g, devices[i], t))
  {
    OwnEntry(g, devices, i);
    ListedExactly(g, devices[i], t);
  }

  // ----- what the plan does not miss -----

  lemma {:induction false} MatchesBelow(prefix: seq<string>, rest: seq<string>)
    requires "#" !in prefix
    ensures Matches(prefix + ["#"], prefix + rest)
  {
    if prefix != [] {
      MatchesBelow(prefix[1..], rest);
      assert (prefix + ["#"])[1..] == prefix[1..] + ["#"] && (prefix + rest)[1..] == prefix[1..] + rest;
    }
  }

  lemma {:induction false} MatchesItself(levels: seq<string>)
    requires "#" !in levels
    ensures Matches(levels, levels)
  {
    if levels != [] { MatchesItself(levels[1..]); }
  }

  lemma NoWildcardLevel(s: string)
    requires '#' !in s
    ensures "#" !in Levels(s)
  {
    LevelsAreParts(s, '/', '#');
  }

  lemma BridgeIsListed(g: Grammar, devices: seq<Device>)
    ensures LegacyBridge(g.root) in PlanOf(g, devices).filters && LegacyBridge(g.root) in PlanOf(g, devices).legacy
  {
    var p := Start(g);
    FoldedFilter(p, Shares(g, devices), LegacyBridge(g.root));
    FoldedTopic(p, Shares(g, devices), LegacyBridge(g.root));
  }

  /** The filters of an appliance, and of a topic it had. */
  lemma PlanHolds(g: Grammar, devices: seq<Device>, i: nat, t: string)
    requires i < |devices|
    ensures var p, d := PlanOf(g, devices), devices[i];
      && StatusPrefix(g, d) + "#" in p.filters
      && (!Skipped(g, d) ==> LegacyBase(g.root, d.name) + "/#" in p.filters)
      && (!Skipped(g, d) && OldTopic(g, d, t) ==> t in p.legacy)
  {
    var p, shares := Start(g), Shares(g, devices);
    assert shares[i] == ShareOf(g, devices[i]);
    FoldedFilter(p, shares, StatusPrefix(g, devices[i]) + "#");
    FoldedFilter(p, shares, LegacyBase(g.root, devices[i].name) + "/#");
    FoldedTopic(p, shares, t);
    ListedExactly(g, devices[i], t);
  }

  lemma OldTopicIsBelow(g: Grammar, d: Device, t: string)
    requires OldTopic(g, d, t)
    ensures LegacyBase(g.root, d.name) + "/" <= t
  {
    if i :| 0 <= i < |d.features| && t == OldState(g, d, d.features[i]) { OldStateIsBelow(g, d, d.features[i]); }
  }

  lemma OldStateIsBelow(g: Grammar, d: Device, f: (string, nat))
    ensures LegacyBase(g.root, d.name) + "/" <= OldState(g, d, f)
  {
    var path := Join(FeatureItem(f.0, f.1), '/');
    assert OldState(g, d, f) == LegacyBase(g.root, d.name) + "/" + (path + "/state");
  }

  /** Nothing of the layout before stays behind: every topic a configured appliance had there, except under a name
      that is a function of the new grammar, is matched by a filter of the sweep and cleared. */
  lemma OldTopicsAreFoundAndCleared(g: Grammar, devices: seq<Device>, i: nat, t: string)
    requires Configured(g, devices) && i < |devices| && !Skipped(g, devices[i]) && OldTopic(g, devices[i], t)
    ensures MayClear(PlanOf(g, devices), t)
    ensures exists f :: f in PlanOf(g, devices).filters && Matches(Levels(f), Levels(t))
  {
    PlanHolds(g, devices, i, t);
    OldTopicIsMatched(g, devices[i], t);
    assert LegacyBase(g.root, devices[i].name) + "/#" in PlanOf(g, devices).filters;
  }

  lemma OldTopicIsMatched(g: Grammar, d: Device, t: string)
    requires ValidName(g.root) && ValidDevice(g, d) && OldTopic(g, d, t)
    ensures Matches(Levels(LegacyBase(g.root, d.name) + "/#"), Levels(t))
  {
    var base := LegacyBase(g.root, d.name);
    OldTopicIsBelow(g, d, t);
    var rest := t[|base| + 1..];
    assert t == base + "/" + rest;
    LegacyLevels(g, d, rest);
    LegacyLevels(g, d, "#");
    OneLevelOnly("#", '/');
    assert base + "/" + "#" == base + "/#";
    NoWildcardLevel(d.name);
    MatchesBelow([g.root] + Levels(d.name), Levels(rest));
  }

  lemma ItemIsMatched(g: Grammar, d: Device, rest: string)
    requires ValidName(g.root) && ValidDevice(g, d)
    ensures Matches(Levels(StatusPrefix(g, d) + "#"), Levels(StatusPrefix(g, d) + rest))
  {
    StatusLevels(g, d, rest);
    StatusLevels(g, d, "#");
    OneLevelOnly("#", '/');
    assert "#" !in [g.root, "status", d.haID];
    MatchesBelow([g.root, "status", d.haID], Levels(rest));
  }

  /** Nor does a status item of an appliance that no longer has it. */
  lemma GoneItemsAreFoundAndCleared(g: Grammar, devices: seq<Device>, i: nat, rest: string)
    requires Configured(g, devices) && i < |devices|
    requires !HasItem(g, devices[i], StatusPrefix(g, devices[i]) + rest)
    ensures MayClear(PlanOf(g, devices), StatusPrefix(g, devices[i]) + rest)
    ensures exists f ::
      f in PlanOf(g, devices).filters && Matches(Levels(f), Levels(StatusPrefix(g, devices[i]) + rest))
  {
    var prefix := StatusPrefix(g, devices[i]);
    PlanHolds(g, devices, i, prefix + rest);
    EntryOf(g, devices, i, prefix + rest);
    ItemIsMatched(g, devices[i], rest);
    assert prefix <= prefix + rest && prefix + "#" in PlanOf(g, devices).filters;
  }

  /** Nor the daemon's own old status topic. */
  lemma OldBridgeTopicIsFoundAndCleared(g: Grammar, devices: seq<Device>)
    requires Configured(g, devices)
    ensures var t := LegacyBridge(g.root);
      t in PlanOf(g, devices).filters && Matches(Levels(t), Levels(t)) && MayClear(PlanOf(g, devices), t)
  {
    BridgeIsListed(g, devices);
    Below(g.root, "status");
    OneLevelOnly("status", '/');
    assert LegacyBridge(g.root) == g.root + "/" + "status";
    assert g.root != "#";
    MatchesItself([g.root, "status"]);
  }

  // ----- the theorems -----

  /** At most one appliance's status prefix fits a topic ... */
  lemma OnePrefixFits(g: Grammar, devices: seq<Device>, topic: string, a: string, b: string)
    requires Configured(g, devices)
    requires a in PlanOf(g, devices).current && b in PlanOf(g, devices).current
    requires a <= topic && b <= topic
    ensures a == b
  {
    var i := PrefixSource(g, devices, a);
    var j := PrefixSource(g, devices, b);
    SamePrefixSameDevice(g, devices[i], devices[j], topic);
  }

  /** ... so the order in which the map yields them decides nothing. */
  lemma {:induction false} VisitingOrderDecidesNothing(g: Grammar, devices: seq<Device>, order: seq<string>,
      topic: string)
    requires Configured(g, devices)
    requires forall k :: k in order ==> k in PlanOf(g, devices).current
    ensures var p := PlanOf(g, devices);
      FirstFit(p, order, topic) <==> exists k :: k in order && k <= topic && topic !in p.current[k]
  {
    var p := PlanOf(g, devices);
    if order != [] {
      VisitingOrderDecidesNothing(g, devices, order[1..], topic);
      assert order[0] in order;
      if order[0] <= topic {
        forall k | k in order && k <= topic ensures k == order[0] {
          OnePrefixFits(g, devices, topic, k, order[0]);
        }
      } else {
        assert forall k :: k in order[1..] ==> k in order;
        assert forall k :: k in order && k <= topic ==> k in order[1..];
      }
    }
  }

  lemma ClearsIsMayClear(g: Grammar, devices: seq<Device>, order: seq<string>, topic: string)
    requires Configured(g, devices) && Lists(order, PlanOf(g, devices).current.Keys)
    ensures var p := PlanOf(g, devices);
      topic in p.legacy || FirstFit(p, order, topic) <==> MayClear(p, topic)
  {
    VisitingOrderDecidesNothing(g, devices, order, topic);
  }

  lemma BareLevels(g: Grammar)
    requires ValidName(g.root)
    ensures Levels(LegacyBridge(g.root)) == [g.root, "status"]
  {
    assert LegacyBridge(g.root) == g.root + "/" + "status";
    Below(g.root, "status");
    OneLevelOnly("status", '/');
  }

  /** The second level of a filter is `status`, or spelled out and no function. */
  lemma FilterLevels(g: Grammar, d: Device, f: string)
    requires ValidName(g.root) && ValidDevice(g, d) && f in ShareOf(g, d).filters
    ensures var l := Levels(f);
      && |l| >= 2 && l[0] == g.root && l[1] != "#" && l[1] != "+"
      && (l[1] == "status" || !g.isFunction(l[1]))
  {
    if f == StatusPrefix(g, d) + "#" {
      StatusLevels(g, d, "#");
    } else {
      assert f == LegacyBase(g.root, d.name) + "/#";
      OldFilterLevels(g, d);
    }
  }

  lemma OldFilterLevels(g: Grammar, d: Device)
    requires ValidName(g.root) && ValidDevice(g, d)
    ensures var l := Levels(LegacyBase(g.root, d.name) + "/#");
      |l| >= 2 && l[0] == g.root && l[1] != "#" && l[1] != "+" && l[1] == Levels(d.name)[0]
  {
    var base := LegacyBase(g.root, d.name);
    assert base + "/#" == base + "/" + "#";
    LegacyLevels(g, d, "#");
    LevelsAreParts(d.name, '/', '#');
    LevelsAreParts(d.name, '/', '+');
    assert "#"[0] == '#' && "+"[0] == '+';
  }

  lemma SecondLevelDecides(f: seq<string>, t: seq<string>)
    requires |f| >= 2 && |t| >= 2 && f[0] != "#" && f[1] != "#" && f[1] != "+" && f[1] != t[1]
    ensures !Matches(f, t)
  {
    assert f[1..][0] == f[1] && t[1..][0] == t[1];
  }

  /** No filter of the sweep matches a topic of the command tree or of maintenance. */
  lemma NoFilterMatchesACommand(g: Grammar, devices: seq<Device>, f: string, topic: string)
    requires Configured(g, devices) && f in PlanOf(g, devices).filters
    requires |Levels(topic)| >= 2 && (Levels(topic)[1] == "set" || Levels(topic)[1] == "maintenance")
    ensures !Matches(Levels(f), Levels(topic))
  {
    if f == LegacyBridge(g.root) {
      BareLevels(g);
    } else {
      var i := FilterSource(g, devices, f);
      FilterLevels(g, devices[i], f);
    }
    assert g.root != "#";
    SecondLevelDecides(Levels(f), Levels(topic));
  }

  /** In particular none of the command topics of the layout, of any appliance, configured or not. */
  lemma CommandTopicsAreOutOfReach(g: Grammar, devices: seq<Device>, f: string, haID: string, item: seq<string>)
    requires Configured(g, devices) && f in PlanOf(g, devices).filters
    ensures !Matches(Levels(f), Levels(Set(g.safe, g.root, haID, item)))
    ensures !MayClear(PlanOf(g, devices), Set(g.safe, g.root, haID, item))
  {
    var rest := g.safe(haID) + "/" + Join(Map(g.safe, item), '/');
    var topic := Set(g.safe, g.root, haID, item);
    assert topic == g.root + "/" + ("set" + "/" + rest);
    Below(g.root, "set" + "/" + rest);
    Below("set", rest);
    NoFilterMatchesACommand(g, devices, f, topic);
    if MayClear(PlanOf(g, devices), topic) { ClearsStayInOldTerritory(g, devices, topic); }
  }

  /** What may be cleared is the bare old status topic, or lies below a second level that is `status` or no
      function at all: a current topic of any other function is out of reach. */
  lemma ClearsStayInOldTerritory(g: Grammar, devices: seq<Device>, topic: string)
    requires Configured(g, devices) && MayClear(PlanOf(g, devices), topic)
    ensures var l := Levels(topic);
      && |l| >= 2 && l[0] == g.root
      && (l[1] == "status" || !g.isFunction(l[1]))
      && (|l| == 2 ==> topic == LegacyBridge(g.root))
  {
    if topic == LegacyBridge(g.root) {
      BareLevels(g);
    } else if topic in PlanOf(g, devices).legacy {
      var i := LegacySource(g, devices, topic);
      OldTopicLevels(g, devices[i], topic);
    } else {
      var k :| k in PlanOf(g, devices).current && k <= topic;
      CurrentTerritory(g, devices, topic, k);
    }
  }

  lemma PrefixAndRest(prefix: string, t: string)
    requires prefix <= t
    ensures t == prefix + t[|prefix|..]
  {
  }

  lemma CurrentTerritory(g: Grammar, devices: seq<Device>, topic: string, k: string)
    requires Configured(g, devices) && k in PlanOf(g, devices).current && k <= topic
    ensures |Levels(topic)| >= 3 && Levels(topic)[0] == g.root && Levels(topic)[1] == "status"
  {
    var i := PrefixSource(g, devices, k);
    PrefixAndRest(k, topic);
    StatusLevels(g, devices[i], topic[|k|..]);
  }

  /** No old topic lies in a current status tree. */
  lemma OldIsNotCurrent(g: Grammar, devices: seq<Device>, d: Device, topic: string)
    requires Configured(g, devices) && ValidDevice(g, d) && StatusPrefix(g, d) <= topic
    ensures topic !in PlanOf(g, devices).legacy
  {
    var prefix := StatusPrefix(g, d);
    assert topic == prefix + topic[|prefix|..];
    StatusLevels(g, d, topic[|prefix|..]);
    BareLevels(g);
    if topic in PlanOf(g, devices).legacy {
      var i := LegacySource(g, devices, topic);
      OldTopicLevels(g, devices[i], topic);
    }
  }

  /** Below a configured appliance's status tree exactly the items it does not have are cleared. */
  lemma StatusItemsClearedIffGone(g: Grammar, devices: seq<Device>, i: nat, topic: string)
    requires Configured(g, devices) && i < |devices| && StatusPrefix(g, devices[i]) <= topic
    ensures MayClear(PlanOf(g, devices), topic) <==> !HasItem(g, devices[i], topic)
  {
    var p, prefix := PlanOf(g, devices), StatusPrefix(g, devices[i]);
    EntryOf(g, devices, i, topic);
    OldIsNotCurrent(g, devices, devices[i], topic);
    forall k | k in p.current && k <= topic ensures k == prefix { OnePrefixFits(g, devices, topic, k, prefix); }
  }

  lemma InstanceTopicsAreKept(g: Grammar, devices: seq<Device>, last: string)
    requires Configured(g, devices) && SingleLevel(last) && last != "status"
    ensures !MayClear(PlanOf(g, devices), g.root + "/" + last)
  {
    Below(g.root, last);
    OneLevelOnly(last, '/');
    BareLevels(g);
    if MayClear(PlanOf(g, devices), g.root + "/" + last) { ClearsStayInOldTerritory(g, devices, g.root + "/" + last); }
  }

  /** A current status item is never selected, and neither are `connected` and `info`. */
  lemma NothingCurrentIsCleared(g: Grammar, devices: seq<Device>, topic: string)
    requires Configured(g, devices)
    requires topic == g.root + "/connected" || topic == g.root + "/info"
      || exists i :: 0 <= i < |devices| && HasItem(g, devices[i], topic)
    ensures !MayClear(PlanOf(g, devices), topic)
  {
    assert g.root + "/connected" == g.root + "/" + "connected" && g.root + "/info" == g.root + "/" + "info";
    InstanceTopicsAreKept(g, devices, "connected");
    InstanceTopicsAreKept(g, devices, "info");
    if i :| 0 <= i < |devices| && HasItem(g, devices[i], topic) {
      var item := ItemSource(g, devices[i], topic);
      ItemIsBelowThePrefix(g, devices[i], item);
      StatusItemsClearedIffGone(g, devices, i, topic);
    }
  }

  /** All in all the sweep clears, for any configuration, exactly: the daemon's old status topic, the old topics of
      every configured appliance whose name is no function of the new grammar, and below the appliances' status trees
      what they do not have. */
  lemma ClearsExactly(g: Grammar, devices: seq<Device>, topic: string)
    requires Configured(g, devices)
    ensures MayClear(PlanOf(g, devices), topic) <==>
      || topic == LegacyBridge(g.root)
      || (exists i :: 0 <= i < |devices| && !Skipped(g, devices[i]) && OldTopic(g, devices[i], topic))
      || (exists i :: 0 <= i < |devices| && StatusPrefix(g, devices[i]) <= topic && !HasItem(g, devices[i], topic))
  {
    var p := PlanOf(g, devices);
    OldBridgeTopicIsFoundAndCleared(g, devices);
    if i :| 0 <= i < |devices| && !Skipped(g, devices[i]) && OldTopic(g, devices[i], topic) {
      OldTopicsAreFoundAndCleared(g, devices, i, topic);
    }
    if i :| 0 <= i < |devices| && StatusPrefix(g, devices[i]) <= topic && !HasItem(g, devices[i], topic) {
      StatusItemsClearedIffGone(g, devices, i, topic);
    }
    if topic in p.legacy && topic != LegacyBridge(g.root) {
      var i := LegacySource(g, devices, topic);
    } else if prefix :| prefix in p.current && prefix <= topic && topic !in p.current[prefix] {
      var i := PrefixSource(g, devices, prefix);
      EntryOf(g, devices, i, topic);
      }
  }
}
