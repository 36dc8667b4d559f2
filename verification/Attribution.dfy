// Whose retained discovery config is this (Discovery.IsOwnConfig in internal/hass/discovery.go), against
// every payload shape any release has rendered (internal/layout/legacy.go, internal/layout/layout.go).
module Attribution {
  import opened Prelude
  import opened Text
  import opened Legacy
  import Topics

  /** The keys of a retained config that attribution reads; None is a payload that does not parse. */
  datatype Config = Config(
    uniqueId: string,
    stateTopic: string,
    commandTopic: string,
    availabilityTopic: string,
    availability: seq<string>)
  {
    function Topics(): seq<string> {
      [stateTopic, commandTopic, availabilityTopic] + availability
    }
  }

  const NAMESPACE: string := "homeconnect_"

  predicate HasSuffix(s: string, suffix: string) {
    |suffix| <= |s| && s[|s| - |suffix|..] == suffix
  }

  predicate OneLevel(s: string) {
    s != "" && SingleLevel(s)
  }

  function Connected(name: string): string { name + "/connected" }

  // ----- the predicate -----

  /** `<root>/status/<one level>/online` */
  predicate IsOnline(root: string, topic: string) {
    root + "/" <= topic &&
      var rel := topic[|root| + 1..];
      "status/" <= rel && HasSuffix(rel[7..], "/online") && OneLevel(rel[7..|rel| - 7])
  }

  /** `<root>/<one level>/availability` */
  predicate IsAvailability(root: string, topic: string) {
    root + "/" <= topic &&
      var rel := topic[|root| + 1..];
      HasSuffix(rel, "/availability") && OneLevel(rel[..|rel| - 13])
  }

  predicate IsIdentityAnchor(root: string, topic: string) {
    topic == LegacyBridge(root) || topic == Connected(root) || IsOnline(root, topic) || IsAvailability(root, topic)
  }

  ghost predicate IsOwn(root: string, payload: Option<Config>) {
    && payload.Some?
    && NAMESPACE <= payload.value.uniqueId
    && (forall t :: t in payload.value.Topics() && t != "" ==> root + "/" <= t)
    && (exists t :: t in payload.value.Topics() && t != "" && IsIdentityAnchor(root, t))
  }

  /** IsOwnConfig: the first foreign topic refuses, one anchor suffices. */
  method IsOwnConfig(root: string, payload: Option<Config>) returns (own: bool)
    ensures own <==> IsOwn(root, payload)
  {
    if payload.None? { return false; }
    var cfg := payload.value;
    if !(NAMESPACE <= cfg.uniqueId) { return false; }
    var anchored := false;
    var topics := cfg.Topics();
    for i := 0 to |topics|
      invariant forall k :: 0 <= k < i && topics[k] != "" ==> root + "/" <= topics[k]
      invariant anchored <==> exists k :: 0 <= k < i && topics[k] != "" && IsIdentityAnchor(root, topics[k])
    {
      if topics[i] == "" { continue; }
      if !(root + "/" <= topics[i]) {
        assert topics[i] in topics;
        return false;
      }
      if IsIdentityAnchor(root, topics[i]) { anchored := true; }
    }
    if anchored {
      var k :| 0 <= k < |topics| && topics[k] != "" && IsIdentityAnchor(root, topics[k]);
      assert topics[k] in topics;
    }
    return anchored;
  }

  // ----- what the instances of any release render -----

  /** A component's payload: the flat availability key of the oldest releases, the two-source list after it,
      or the layout of 0.15.0.  `path` is a feature path or a program control. */
  datatype Shape =
    | Flat(key: string, device: string, path: string, state: bool, command: bool)
    | Listed(key: string, device: string, path: string, state: bool, command: bool)
    | Current(key: string, haID: string, path: string, state: bool, command: bool)

  function StateOf(root: string, s: Shape): string
    requires !s.Current?
  {
    if s.state then LegacyState(root, s.device, s.path) else ""
  }

  function CommandOf(root: string, s: Shape): string
    requires !s.Current?
  {
    if s.command then LegacyCommand(root, s.device, s.path) else ""
  }

  function Render(root: string, s: Shape): Config {
    match s
    case Flat(key, device, _, _, _) =>
      Config(NAMESPACE + key, StateOf(root, s), CommandOf(root, s), LegacyAvailability(root, device), [])
    case Listed(key, device, _, _, _) =>
      Config(NAMESPACE + key, StateOf(root, s), CommandOf(root, s), "",
             [LegacyBridge(root), LegacyAvailability(root, device)])
    case Current(key, haID, path, state, command) =>
      Config(NAMESPACE + key,
             if state then root + "/status/" + haID + "/" + path else "",
             if command then root + "/set/" + haID + "/" + path else "",
             "",
             [Connected(root), root + "/status/" + haID + "/online"])
  }

  /** Since then a component carries the topics the layout gives its feature: the state where it has one, the command
      where it takes one. */
  lemma CurrentUsesTheLayout(root: string, safe: string -> string, key: string, haID: string, name: string, uid: nat,
      state: bool, command: bool)
    ensures var c := Render(root, Current(key, safe(haID), Topics.FeaturePath(safe, name, uid), state, command));
      && c.stateTopic == (if state then Topics.StateTopic(safe, root, haID, name, uid) else "")
      && c.commandTopic == (if command then Topics.CommandTopic(safe, root, haID, name, uid) else "")
  {
  }

  /** Since 0.15.0 an instance name is one level; before, any root would do. */
  predicate CanRender(root: string, s: Shape) {
    s.Current? ==> ValidName(root)
  }

  /** The payload carries its instance's own topic, or the availability of a device of one level. */
  predicate CarriesAnchor(s: Shape) {
    s.Flat? ==> OneLevel(s.device)
  }

  // ----- the theorem -----

  /** `tail` is a separator and one level. */
  lemma AppendLevel(a: string, tail: string, level: string)
    requires SingleLevel(level) && tail == "/" + level
    ensures Levels(a + tail) == Levels(a) + [level]
  {
    assert a + tail == a + ['/'] + level;
    SplitConcat(a, level, '/');
    OneLevelOnly(level, '/');
  }

  /** A topic below our one-level root has it for its first level. */
  lemma BelowRoot(mine: string, t: string)
    requires SingleLevel(mine) && mine + "/" <= t
    ensures Levels(t)[0] == mine && t == mine + "/" + t[|mine| + 1..]
  {
    var rest := t[|mine| + 1..];
    assert t[..|mine| + 1] == mine + "/";
    assert t == t[..|mine| + 1] + rest;
    assert t == mine + ['/'] + rest;
    SplitAfter(mine, rest, '/');
  }

  /** An anchor is recognised by its last level and by how many levels it has. */
  lemma AnchorLevels(mine: string, t: string)
    requires SingleLevel(mine) && IsIdentityAnchor(mine, t)
    ensures var l := Levels(t);
      || l == [mine, "status"]
      || l == [mine, "connected"]
      || l[|l| - 1] == "online"
      || (|l| == 3 && l[2] == "availability" && l[1] != "")
  {
    OneLevelOnly(mine, '/');
    if t == LegacyBridge(mine) {
      AppendLevel(mine, "/status", "status");
    } else if t == Connected(mine) {
      AppendLevel(mine, "/connected", "connected");
    } else if IsOnline(mine, t) {
      OnlineLevel(mine, t);
    } else {
      AvailabilityLevel(mine, t);
    }
  }

  lemma OnlineLevel(mine: string, t: string)
    requires IsOnline(mine, t)
    ensures Levels(t)[|Levels(t)| - 1] == "online"
  {
    OnlineSuffix(t, |mine| + 1);
    LastOfSuffix(t, "/online", "online");
  }

  lemma LastOfSuffix(t: string, tail: string, level: string)
    requires HasSuffix(t, tail) && tail == "/" + level && SingleLevel(level)
    ensures Levels(t)[|Levels(t)| - 1] == level
  {
    var front := t[..|t| - |tail|];
    assert t == front + tail;
    AppendLevel(front, tail, level);
  }

  /** A part that reaches to the end of a topic ends as the topic does. */
  lemma OnlineSuffix(t: string, k: nat)
    requires k + 7 <= |t| && HasSuffix(t[k..][7..], "/online")
    ensures HasSuffix(t, "/online")
  {
    var item := t[k..][7..];
    assert t[|t| - 7..] == item[|item| - 7..];
  }

  lemma AvailabilityLevel(mine: string, t: string)
    requires SingleLevel(mine) && IsAvailability(mine, t)
    ensures var l := Levels(t); |l| == 3 && l[2] == "availability" && l[1] != ""
  {
    var rel := t[|mine| + 1..];
    var device := rel[..|rel| - 13];
    assert rel == device + "/availability";
    BelowRoot(mine, t);
    AvailabilityLevels(mine, device, t);
    OneLevelOnly(mine, '/');
    OneLevelOnly(device, '/');
  }

  lemma AvailabilityLevels(mine: string, device: string, t: string)
    requires t == mine + "/" + (device + "/availability")
    ensures Levels(t) == Levels(mine) + Levels(device) + ["availability"]
  {
    assert t == (mine + ['/'] + device) + "/availability";
    AppendLevel(mine + ['/'] + device, "/availability", "availability");
    SplitConcat(mine, device, '/');
  }

  /** A topic of a foreign root that lies below ours betrays a root of at least two levels. */
  lemma NestedRoot(mine: string, other: string, rest: string)
    requires SingleLevel(mine) && other != mine && mine + "/" <= other + "/" + rest
    ensures |Levels(other)| >= 2
  {
    BelowRoot(mine, other + "/" + rest);
    SplitConcat(other, rest, '/');
    assert other + "/" + rest == other + ['/'] + rest;
    assert Levels(other + "/" + rest)[0] == Levels(other)[0];
    OneLevelOnly(other, '/');
  }

  lemma LegacyItemLevels(root: string, device: string, path: string)
    ensures var t := LegacyState(root, device, path);
      TrimRoot(root) + "/" <= t && Levels(t)[|Levels(t)| - 1] == "state"
    ensures var t := LegacyCommand(root, device, path);
      TrimRoot(root) + "/" <= t && Levels(t)[|Levels(t)| - 1] == "set"
  {
    var base := LegacyBase(root, device) + "/" + path;
    AppendLevel(base, "/state", "state");
    AppendLevel(base, "/set", "set");
  }

  lemma LegacyDeviceLevels(root: string, device: string)
    ensures var t := LegacyAvailability(root, device);
      TrimRoot(root) + "/" <= t && Levels(t) == Levels(TrimRoot(root)) + Levels(device) + ["availability"]
    ensures var t := LegacyBridge(root);
      TrimRoot(root) + "/" <= t && Levels(t) == Levels(TrimRoot(root)) + ["status"]
  {
    var r := TrimRoot(root);
    assert LegacyAvailability(root, device) == r + "/" + (device + "/availability");
    AvailabilityLevels(r, device, LegacyAvailability(root, device));
    assert LegacyBridge(root) == r + "/" + "status";
    AppendLevel(r, "/status", "status");
  }

  /** The topics of a legacy payload, by their levels. */
  lemma LegacyTopics(root: string, s: Shape, t: string)
    requires !s.Current? && t in Render(root, s).Topics() && t != ""
    ensures var r := TrimRoot(root);
      && r + "/" <= t
      && (|| Levels(t)[|Levels(t)| - 1] == "state"
          || Levels(t)[|Levels(t)| - 1] == "set"
          || (t == LegacyAvailability(root, s.device) && Levels(t) == Levels(r) + Levels(s.device) + ["availability"])
          || (s.Listed? && Levels(t) == Levels(r) + ["status"]))
  {
    LegacyForms(root, s, t);
    LegacyItemLevels(root, s.device, s.path);
    LegacyDeviceLevels(root, s.device);
  }

  lemma LegacyForms(root: string, s: Shape, t: string)
    requires !s.Current? && t in Render(root, s).Topics() && t != ""
    ensures t == LegacyState(root, s.device, s.path) || t == LegacyCommand(root, s.device, s.path)
      || t == LegacyAvailability(root, s.device) || (s.Listed? && t == LegacyBridge(root))
  {
  }

  lemma LegacyForeignIsRefused(mine: string, root: string, s: Shape, t: string)
    requires ValidName(mine) && TrimRoot(root) != mine && !s.Current?
    requires t in Render(root, s).Topics() && t != "" && mine + "/" <= t
    ensures !IsIdentityAnchor(mine, t)
  {
    var r := TrimRoot(root);
    LegacyTopics(root, s, t);
    assert t == r + "/" + t[|r| + 1..];
    NestedRoot(mine, r, t[|r| + 1..]);
    if IsIdentityAnchor(mine, t) { AnchorLevels(mine, t); }
  }

  lemma ForeignIsRefused(mine: string, root: string, s: Shape)
    requires ValidName(mine) && CanRender(root, s) && TrimRoot(root) != mine
    ensures !IsOwn(mine, Some(Render(root, s)))
  {
    var c := Render(root, s);
    if s.Current? {
      var t := Connected(root);
      assert t == root + "/" + "connected" && t in c.availability && t in c.Topics();
      if mine + "/" <= t {
        NestedRoot(mine, root, "connected");
        OneLevelOnly(root, '/');
      }
    } else if IsOwn(mine, Some(c)) {
      var t :| t in c.Topics() && t != "" && IsIdentityAnchor(mine, t);
      LegacyForeignIsRefused(mine, root, s, t);
    }
  }

  lemma OwnTopicsAreUnderTheRoot(mine: string, s: Shape, t: string)
    requires ValidName(mine) && t in Render(mine, s).Topics() && t != ""
    ensures mine + "/" <= t
  {
    if !s.Current? { LegacyTopics(mine, s, t); }
  }

  /** Of a flat payload only the availability topic can be an anchor, and it is one for a device of one level. */
  lemma FlatAnchors(mine: string, s: Shape, t: string)
    requires ValidName(mine) && s.Flat? && t in Render(mine, s).Topics() && t != ""
    ensures IsIdentityAnchor(mine, t) <==> t == LegacyAvailability(mine, s.device) && OneLevel(s.device)
  {
    LegacyTopics(mine, s, t);
    OneLevelOnly(mine, '/');
    OneLevelOnly(s.device, '/');
    if IsIdentityAnchor(mine, t) {
      AnchorLevels(mine, t);
      AvailabilityOfOneLevel(mine, s.device, Levels(t));
    }
    if t == LegacyAvailability(mine, s.device) && OneLevel(s.device) { AvailabilityAnchor(mine, s.device); }
  }

  lemma AvailabilityOfOneLevel(mine: string, device: string, l: seq<string>)
    requires l == [mine] + Levels(device) + ["availability"] && |l| == 3 && l[1] != ""
    ensures OneLevel(device)
  {
    OneLevelOnly(device, '/');
  }

  lemma AvailabilityAnchor(mine: string, device: string)
    requires OneLevel(device)
    ensures IsIdentityAnchor(mine, mine + "/" + device + "/availability")
  {
    var t := mine + "/" + device + "/availability";
    var rel := t[|mine| + 1..];
    assert rel == device + "/availability" && rel[..|rel| - 13] == device && rel[|rel| - 13..] == "/availability";
  }

  lemma OwnIsClaimed(mine: string, s: Shape)
    requires ValidName(mine)
    ensures IsOwn(mine, Some(Render(mine, s))) <==> CarriesAnchor(s)
  {
    var c := Render(mine, s);
    forall t | t in c.Topics() && t != "" ensures mine + "/" <= t { OwnTopicsAreUnderTheRoot(mine, s, t); }
    match s
    case Current(_, _, _, _, _) => assert Connected(mine) in c.availability && Connected(mine) in c.Topics();
    case Listed(_, _, _, _, _) => assert LegacyBridge(mine) in c.availability && LegacyBridge(mine) in c.Topics();
    case Flat(_, device, _, _, _) =>
      assert c.availabilityTopic == LegacyAvailability(mine, device) && c.availabilityTopic in c.Topics();
      forall t | t in c.Topics() && t != ""
        ensures IsIdentityAnchor(mine, t) <==> t == LegacyAvailability(mine, device) && OneLevel(device)
      {
        FlatAnchors(mine, s, t);
      }
  }

  /** An instance claims a payload of any release exactly when it was rendered under its own root and carries
      its bridge topic or the availability of a device of one level: nothing of a root nested under it, above
      it or beside it is ever claimed. */
  lemma ClaimsExactlyItsOwn(mine: string, root: string, s: Shape)
    requires ValidName(mine) && CanRender(root, s)
    ensures IsOwn(mine, Some(Render(root, s))) <==> TrimRoot(root) == mine && CarriesAnchor(s)
  {
    if TrimRoot(root) == mine {
      SameRootSamePayload(mine, root, s);
      OwnIsClaimed(mine, s);
    } else {
      ForeignIsRefused(mine, root, s);
    }
  }

  lemma SameRootSamePayload(mine: string, root: string, s: Shape)
    requires ValidName(mine) && CanRender(root, s) && TrimRoot(root) == mine
    ensures Render(root, s) == Render(mine, s)
  {
  }

  // ----- any payload at all -----

  /** The four anchors, level by level. */
  predicate AnchorShape(mine: string, l: seq<string>) {
    || l == [mine, "status"]
    || l == [mine, "connected"]
    || (|l| == 4 && l[0] == mine && l[1] == "status" && l[2] != "" && l[3] == "online")
    || (|l| == 3 && l[0] == mine && l[1] != "" && l[2] == "availability")
  }

  lemma Rejoined(t: string)
    ensures t == Join(Levels(t), '/')
  {
    JoinOfSplit(t, '/', '/');
    assert Replace(t, '/', '/') == t;
  }

  lemma FirstLevelDecides(mine: string, t: string)
    requires SingleLevel(mine)
    ensures mine + "/" <= t <==> |Levels(t)| >= 2 && Levels(t)[0] == mine
  {
    var l := Levels(t);
    Rejoined(t);
    if mine + "/" <= t {
      BelowRoot(mine, t);
      var rest := t[|mine| + 1..];
      assert t == mine + ['/'] + rest;
      SplitAfter(mine, rest, '/');
    }
    if |l| >= 2 && l[0] == mine { assert t == mine + ['/'] + Join(l[1..], '/'); }
  }

  lemma OnlineBelowStatus(haID: string)
    requires SingleLevel(haID)
    ensures Levels("status" + ['/'] + (haID + ['/'] + "online")) == ["status", haID, "online"]
  {
    SplitAfter(haID, "online", '/');
    OneLevelOnly("online", '/');
    SplitAfter("status", haID + ['/'] + "online", '/');
  }

  lemma OnlineLevels(mine: string, haID: string)
    requires SingleLevel(mine) && SingleLevel(haID)
    ensures Levels(mine + "/status/" + haID + "/online") == [mine, "status", haID, "online"]
  {
    var rel := "status" + ['/'] + (haID + ['/'] + "online");
    OnlineBelowStatus(haID);
    SplitAfter(mine, rel, '/');
    assert mine + "/status/" + haID + "/online" == mine + ['/'] + rel;
  }

  lemma OnlineHasShape(mine: string, t: string)
    requires SingleLevel(mine) && IsOnline(mine, t)
    ensures AnchorShape(mine, Levels(t))
  {
    var rel := t[|mine| + 1..];
    var haID := rel[7..|rel| - 7];
    assert rel == "status/" + haID + "/online";
    assert t == mine + "/status/" + haID + "/online";
    OnlineLevels(mine, haID);
  }

  lemma AvailabilityHasShape(mine: string, t: string)
    requires SingleLevel(mine) && IsAvailability(mine, t)
    ensures AnchorShape(mine, Levels(t))
  {
    AvailabilityLevel(mine, t);
    BelowRoot(mine, t);
  }

  lemma OwnTopicHasShape(mine: string, item: string)
    requires SingleLevel(mine) && (item == "status" || item == "connected")
    ensures AnchorShape(mine, Levels(mine + "/" + item))
  {
    OneLevelOnly(mine, '/');
    AppendLevel(mine, "/" + item, item);
    assert mine + "/" + item == mine + ("/" + item);
  }

  lemma AnchorHasShape(mine: string, t: string)
    requires SingleLevel(mine) && IsIdentityAnchor(mine, t)
    ensures AnchorShape(mine, Levels(t))
  {
    if IsOnline(mine, t) {
      OnlineHasShape(mine, t);
    } else if IsAvailability(mine, t) {
      AvailabilityHasShape(mine, t);
    } else if t == LegacyBridge(mine) {
      assert t == mine + "/" + "status";
      OwnTopicHasShape(mine, "status");
    } else {
      assert t == mine + "/" + "connected";
      OwnTopicHasShape(mine, "connected");
    }
  }

  lemma JoinTwo(a: string, b: string)
    ensures Join([a, b], '/') == a + "/" + b
  {
    assert [a, b][1..] == [b];
  }

  lemma JoinThree(a: string, b: string, c: string)
    ensures Join([a, b, c], '/') == a + "/" + b + "/" + c
  {
    assert [a, b, c][1..] == [b, c];
    JoinTwo(b, c);
  }

  lemma JoinFour(a: string, b: string, c: string, d: string)
    ensures Join([a, b, c, d], '/') == a + "/" + b + "/" + c + "/" + d
  {
    assert [a, b, c, d][1..] == [b, c, d];
    JoinThree(b, c, d);
  }

  lemma JoinedAnchors(mine: string, x: string)
    ensures Join([mine, "status", x, "online"], '/') == mine + "/status/" + x + "/online"
    ensures Join([mine, x, "availability"], '/') == mine + "/" + x + "/availability"
    ensures Join([mine, "status"], '/') == mine + "/status" && Join([mine, "connected"], '/') == mine + "/connected"
  {
    JoinFour(mine, "status", x, "online");
    JoinThree(mine, x, "availability");
    JoinTwo(mine, "status");
    JoinTwo(mine, "connected");
  }

  lemma ShapeIsAnchor(mine: string, t: string)
    requires SingleLevel(mine) && AnchorShape(mine, Levels(t))
    ensures IsIdentityAnchor(mine, t)
  {
    var l := Levels(t);
    Rejoined(t);
    LevelsHaveNoSeparator(t, '/');
    if |l| == 4 {
      JoinedAnchors(mine, l[2]);
      OnlineAnchor(mine, l[2]);
      assert l == [mine, "status", l[2], "online"];
    } else if |l| == 3 {
      JoinedAnchors(mine, l[1]);
      AvailabilityAnchor(mine, l[1]);
      assert l == [mine, l[1], "availability"];
    } else {
      JoinedAnchors(mine, "");
    }
  }

  lemma OnlineAnchor(mine: string, haID: string)
    requires OneLevel(haID)
    ensures IsIdentityAnchor(mine, mine + "/status/" + haID + "/online")
  {
    var t := mine + "/status/" + haID + "/online";
    var rel := t[|mine| + 1..];
    assert rel == "status/" + haID + "/online" && rel[7..] == haID + "/online";
    assert rel[7..|rel| - 7] == haID && rel[7..][|haID|..] == "/online";
  }

  /** Whatever a payload says, and whoever wrote it: it is claimed exactly when its unique id is of the namespace,
      the first of several levels of every topic in it is this instance's name, and one of them is an anchor by
      its levels.  So a payload that mixes roots is nobody's. */
  lemma IsOwnByLevels(mine: string, c: Config)
    requires ValidName(mine)
    ensures IsOwn(mine, Some(c)) <==>
      && NAMESPACE <= c.uniqueId
      && (forall t :: t in c.Topics() && t != "" ==> |Levels(t)| >= 2 && Levels(t)[0] == mine)
      && (exists t :: t in c.Topics() && t != "" && AnchorShape(mine, Levels(t)))
  {
    forall t | t in c.Topics() && t != ""
      ensures mine + "/" <= t <==> |Levels(t)| >= 2 && Levels(t)[0] == mine
      ensures IsIdentityAnchor(mine, t) <==> AnchorShape(mine, Levels(t))
    {
      FirstLevelDecides(mine, t);
      if IsIdentityAnchor(mine, t) { AnchorHasShape(mine, t); }
      if AnchorShape(mine, Levels(t)) { ShapeIsAnchor(mine, t); }
    }
  }

  /** No payload is claimed by two instances that share a broker. */
  lemma ClaimedByOneInstance(mine: string, other: string, c: Config)
    requires ValidName(mine) && ValidName(other) && mine != other
    ensures !(IsOwn(mine, Some(c)) && IsOwn(other, Some(c)))
  {
    IsOwnByLevels(mine, c);
    IsOwnByLevels(other, c);
  }

  /** That the name is one level is needed: a root of two would claim what the instance above it renders for
      an appliance whose name spells the second level. */
  lemma TwoLevelRootsWouldOverlap(above: string, level: string, device: string, key: string)
    requires TrimRoot(above) == above && OneLevel(device)
    ensures IsOwn(above + "/" + level, Some(Render(above, Flat(key, level + "/" + device, "p", false, false))))
  {
    var mine, s := above + "/" + level, Flat(key, level + "/" + device, "p", false, false);
    var c := Render(above, s);
    Regroup(above, level, device, "/availability");
    assert c.availabilityTopic in c.Topics();
    AvailabilityAnchor(mine, device);
  }

  lemma Regroup(a: string, b: string, c: string, d: string)
    ensures a + "/" + (b + "/" + c) + d == (a + "/" + b) + "/" + c + d
  {
  }
}
