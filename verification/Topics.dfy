// The topic layout and its inverse (internal/layout/layout.go).
//
// `safe` stands for topic.Safe of go-hamqtt; all that is used of it is that it leaves the segments at hand
// alone.
module Topics {
  import opened Prelude
  import opened Text
  import opened Sorting

  const UNNAMED: string := "_uid"

  /** A feature without a name is known by its uid. */
  function FeatureItem(name: string, uid: nat): seq<string> {
    if name == "" then [UNNAMED, Itoa(uid)] else Split(name, '.')
  }

  function FeaturePath(safe: string -> string, name: string, uid: nat): string {
    Join(Map(safe, FeatureItem(name, uid)), '/')
  }

  /** What FeaturePath meant: a dotted name, or a uid. */
  function FeatureName(rel: string): (string, int, bool) {
    if UNNAMED + "/" <= rel then
      match Atoi(rel[|UNNAMED| + 1..])
      case None => ("", 0, false)
      case Some(n) => ("", n, true)
    else (Replace(rel, '/', '.'), 0, false)
  }

  function Status(safe: string -> string, root: string, haID: string, item: seq<string>): string {
    root + "/status/" + safe(haID) + "/" + Join(Map(safe, item), '/')
  }

  function SetBase(safe: string -> string, root: string, haID: string): string {
    root + "/set/" + safe(haID) + "/"
  }

  function Set(safe: string -> string, root: string, haID: string, item: seq<string>): string {
    SetBase(safe, root, haID) + Join(Map(safe, item), '/')
  }

  function StateTopic(safe: string -> string, root: string, haID: string, name: string, uid: nat): string {
    Status(safe, root, haID, FeatureItem(name, uid))
  }

  function CommandTopic(safe: string -> string, root: string, haID: string, name: string, uid: nat): string {
    Set(safe, root, haID, FeatureItem(name, uid))
  }

  /** The part of a command topic below this appliance's set tree. */
  function Relative(safe: string -> string, root: string, haID: string, topic: string): Option<string> {
    var base := SetBase(safe, root, haID);
    if base <= topic && topic[|base|..] != "" then Some(topic[|base|..]) else None
  }

  /** topic.Safe leaves every segment of this feature's path alone. */
  predicate Untouched(safe: string -> string, name: string, uid: nat) {
    forall i :: 0 <= i < |FeatureItem(name, uid)| ==> safe(FeatureItem(name, uid)[i]) == FeatureItem(name, uid)[i]
  }

  /** The guards a caller can check: no separator in the name, and no name that spells a uid path. */
  predicate Invertible(name: string) {
    '/' !in name && !(UNNAMED + "." <= name)
  }

  /** The dotted name or the uid, whichever the feature is known by. */
  function Meaning(name: string, uid: nat): (string, int, bool) {
    if name == "" then ("", uid, true) else (name, 0, false)
  }

  lemma PathOfName(safe: string -> string, name: string, uid: nat)
    requires Untouched(safe, name, uid)
    ensures FeaturePath(safe, name, uid) == if name == "" then UNNAMED + "/" + Itoa(uid) else Replace(name, '.', '/')
  {
    assert Map(safe, FeatureItem(name, uid)) == FeatureItem(name, uid);
    if name == "" {
      var items := [UNNAMED, Itoa(uid)];
      assert items[1..] == [Itoa(uid)];
      assert Join(items, '/') == UNNAMED + "/" + Join(items[1..], '/');
    } else {
      JoinOfSplit(name, '.', '/');
    }
  }

  /** Below `_uid` a path names the feature with that number, and nothing when it is no number. */
  lemma UidPathsExactly(rest: string, n: int)
    ensures var (name, uid, known) := FeatureName(UNNAMED + "/" + rest);
      && name == "" && (known <==> Atoi(rest).Some?) && (!known ==> uid == 0)
      && (known && uid == n <==> Atoi(rest) == Some(n))
  {
    assert (UNNAMED + "/" + rest)[|UNNAMED| + 1..] == rest;
  }

  lemma ReplaceBack(name: string)
    ensures Replace(Replace(name, '.', '/'), '/', '.') == name <==> '/' !in name
  {
    var r := Replace(Replace(name, '.', '/'), '/', '.');
    if '/' in name {
      var i :| 0 <= i < |name| && name[i] == '/';
      assert r[i] == '.';
    } else {
      assert forall i :: 0 <= i < |name| ==> r[i] == name[i];
    }
  }

  lemma UidPrefix(name: string)
    requires '/' !in name
    ensures UNNAMED + "/" <= Replace(name, '.', '/') <==> UNNAMED + "." <= name
  {
    var r := Replace(name, '.', '/');
    if |name| >= 5 {
      assert r[4] == '/' <==> name[4] == '.';
      assert forall i :: 0 <= i < 4 ==> (r[i] == UNNAMED[i] <==> name[i] == UNNAMED[i]);
      assert r[..5] == UNNAMED + "/" <==> name[..5] == UNNAMED + ".";
    }
  }

  /** The parser undoes the printer for a uid, and for a name exactly when the name has no `/` and does not
      start with `_uid.`. */
  lemma FeatureRoundTrip(safe: string -> string, name: string, uid: nat)
    requires Untouched(safe, name, uid)
    ensures FeatureName(FeaturePath(safe, name, uid)) == Meaning(name, uid) <==> name == "" || Invertible(name)
  {
    PathOfName(safe, name, uid);
    if name == "" {
      AtoiOfItoa(uid);
      var rel := UNNAMED + "/" + Itoa(uid);
      assert rel[|UNNAMED| + 1..] == Itoa(uid);
    } else {
      var rel := Replace(name, '.', '/');
      ReplaceBack(name);
      if '/' !in name { UidPrefix(name); }
    }
  }

  lemma UidNameIsAPath(uid: nat)
    ensures Replace(UNNAMED + "." + Itoa(uid), '.', '/') == UNNAMED + "/" + Itoa(uid)
  {
    var name, path := UNNAMED + "." + Itoa(uid), UNNAMED + "/" + Itoa(uid);
    assert forall i :: 0 <= i < |name| ==> path[i] == if name[i] == '.' then '/' else name[i];
  }

  /** Names that are safe as topics and do not come back: they spell the path of an unnamed feature. */
  lemma UidNamesAreLost(safe: string -> string, uid: nat)
    requires Untouched(safe, UNNAMED + "." + Itoa(uid), 0) && Untouched(safe, "", uid)
    ensures FeaturePath(safe, UNNAMED + "." + Itoa(uid), 0) == FeaturePath(safe, "", uid)
    ensures FeatureName(FeaturePath(safe, UNNAMED + "." + Itoa(uid), 0)) == ("", uid, true)
  {
    var name, path := UNNAMED + "." + Itoa(uid), UNNAMED + "/" + Itoa(uid);
    PathOfName(safe, name, 0);
    PathOfName(safe, "", uid);
    UidNameIsAPath(uid);
    FeatureRoundTrip(safe, "", uid);
  }

  /** What is left of a command topic names the feature it was rendered for. */
  lemma CommandRoundTrip(safe: string -> string, root: string, haID: string, name: string, uid: nat)
    requires Untouched(safe, name, uid) && (name == "" || Invertible(name))
    ensures Relative(safe, root, haID, CommandTopic(safe, root, haID, name, uid)) == Some(FeaturePath(safe, name, uid))
    ensures FeatureName(FeaturePath(safe, name, uid)) == Meaning(name, uid)
  {
    FeatureRoundTrip(safe, name, uid);
    PathOfName(safe, name, uid);
    var base, path := SetBase(safe, root, haID), FeaturePath(safe, name, uid);
    assert (base + path)[|base|..] == path;
  }

  /** In one tree, a topic determines its appliance and its item path. */
  lemma TopicSplits(prefix: string, haID: string, path: string, haID': string, path': string)
    requires SingleLevel(haID) && SingleLevel(haID')
    requires prefix + haID + "/" + path == prefix + haID' + "/" + path'
    ensures haID == haID' && path == path'
  {
    var t := prefix + (haID + "/" + path);
    var t' := prefix + (haID' + "/" + path');
    assert t == prefix + haID + "/" + path && t' == prefix + haID' + "/" + path';
    assert haID + "/" + path == t[|prefix|..] == t'[|prefix|..] == haID' + "/" + path';
    SplitAfter(haID, path, '/');
    SplitAfter(haID', path', '/');
    assert haID == Split(haID + "/" + path, '/')[0];
    assert path == (haID + "/" + path)[|haID| + 1..];
  }

  /** A command topic of one appliance is none of another's ... */
  lemma CommandsReachOneAppliance(safe: string -> string, root: string, haID: string, haID': string, path: string)
    requires SingleLevel(haID) && SingleLevel(haID') && safe(haID) == haID && safe(haID') == haID'
    ensures haID != haID' ==> Relative(safe, root, haID, SetBase(safe, root, haID') + path) == None
  {
    var topic, base := SetBase(safe, root, haID') + path, SetBase(safe, root, haID);
    if base <= topic {
      assert topic == base + topic[|base|..];
      TopicSplits(root + "/set/", haID, topic[|base|..], haID', path);
    }
  }

  /** ... and no status item is anybody's command. */
  lemma StatusIsNoCommand(safe: string -> string, root: string, haID: string, haID': string, item: seq<string>)
    ensures Relative(safe, root, haID, Status(safe, root, haID', item)) == None
  {
    var topic, base := Status(safe, root, haID', item), SetBase(safe, root, haID);
    assert base == root + ("/set/" + safe(haID) + "/") && base[|root| + 2] == 'e';
    assert topic == root + ("/status/" + safe(haID') + "/" + Join(Map(safe, item), '/')) && topic[|root| + 2] == 't';
  }

  /** Distinct features of any appliances have distinct command topics, and distinct state topics. */
  lemma DistinctFeaturesHaveDistinctTopics(safe: string -> string, root: string, haID: string, name: string, uid: nat,
                                           haID': string, name': string, uid': nat)
    requires SingleLevel(haID) && SingleLevel(haID') && safe(haID) == haID && safe(haID') == haID'
    requires Untouched(safe, name, uid) && (name == "" || Invertible(name))
    requires Untouched(safe, name', uid') && (name' == "" || Invertible(name'))
    requires haID != haID' || Meaning(name, uid) != Meaning(name', uid')
    ensures CommandTopic(safe, root, haID, name, uid) != CommandTopic(safe, root, haID', name', uid')
    ensures StateTopic(safe, root, haID, name, uid) != StateTopic(safe, root, haID', name', uid')
  {
    FeatureRoundTrip(safe, name, uid);
    FeatureRoundTrip(safe, name', uid');
    var p, p' := FeaturePath(safe, name, uid), FeaturePath(safe, name', uid');
    if CommandTopic(safe, root, haID, name, uid) == CommandTopic(safe, root, haID', name', uid') {
      TopicSplits(root + "/set/", haID, p, haID', p');
    }
    if StateTopic(safe, root, haID, name, uid) == StateTopic(safe, root, haID', name', uid') {
      TopicSplits(root + "/status/", haID, p, haID', p');
    }
  }
}
