// What Home Assistant platform, classes, category and bounds a feature gets (internal/hass/payload.go), the
// operator catalogue (internal/mapping/catalog.go) and Home Assistant's own tables.
module Classify {
  import opened Prelude
  import opened Sorting

  datatype Kind =
    | Status | Setting | Event | Command | ProgramOption | Program | ActiveProgram | SelectedProgram | ProtectionPort

  datatype Protocol = Boolean | Integer | Float | Text | Object

  /** A float64 as far as the bounds look at it: NaN and the infinities are one case. */
  datatype Num = Finite(r: real) | NonFinite

  datatype Bounds = Bounds(min: Option<Num>, max: Option<Num>, step: Option<Num>)

  datatype Entity = Entity(
    name: string,
    uid: nat,
    kind: Kind,
    protocol: Protocol,
    contentType: string,
    writable: bool,
    enumeration: map<int, string>,
    bounds: Bounds)
  {
    predicate IsEnum() { |enumeration| > 0 }

    predicate NumericValue() { !IsEnum() && (protocol.Integer? || protocol.Float?) }
  }

  datatype Platform = Switch | Select | Sensor | BinarySensor | Number | Button

  const DIAGNOSTIC: string := "diagnostic"
  const CONFIG: string := "config"
  const ENUM: string := "enum"

  // ----- tables and catalogue -----

  /** Which device classes a platform declares; None is a failed load. */
  type ClassTable = Option<map<Platform, set<string>>>

  datatype Relations = Relations(
    stateClasses: map<string, set<string>>,
    units: map<string, set<string>>,
    numeric: set<string>)

  /** The operator's overrides, each by feature name. */
  datatype Enricher = Enricher(
    name: string -> Option<string>,
    deviceClass: string -> Option<string>,
    unit: string -> Option<string>,
    stateClass: string -> Option<string>,
    category: string -> Option<string>,
    enabled: string -> Option<bool>,
    excluded: string -> bool)

  /** No override is the empty string. */
  ghost predicate NonEmpty(n: Enricher) {
    forall f: string ::
      && n.deviceClass(f) != Some("")
      && n.unit(f) != Some("")
      && n.stateClass(f) != Some("")
      && n.category(f) != Some("")
  }

  datatype FeatureMapping = FeatureMapping(
    name: string,
    nameDE: string,
    deviceClass: string,
    unit: string,
    stateClass: string,
    category: string,
    enabled: Option<bool>,
    exclude: bool)

  function Field(m: map<string, FeatureMapping>, f: string, pick: FeatureMapping -> string): Option<string> {
    if f !in m || pick(m[f]) == "" then None else Some(pick(m[f]))
  }

  function LocalizedName(m: map<string, FeatureMapping>, f: string, lang: string): Option<string> {
    if f !in m then None
    else if lang == "de" && m[f].nameDE != "" then Some(m[f].nameDE)
    else if m[f].name != "" then Some(m[f].name)
    else None
  }

  /** mapping.Catalog as an enricher. */
  function FromCatalog(m: map<string, FeatureMapping>, lang: string): Enricher {
    Enricher(
      f => LocalizedName(m, f, lang),
      f => Field(m, f, (x: FeatureMapping) => x.deviceClass),
      f => Field(m, f, (x: FeatureMapping) => x.unit),
      f => Field(m, f, (x: FeatureMapping) => x.stateClass),
      f => Field(m, f, (x: FeatureMapping) => x.category),
      f => if f in m then m[f].enabled else None,
      f => f in m && m[f].exclude)
  }

  /** What the catalogue says of a feature is what its mapping holds, an empty field saying nothing; the German name
      is preferred in German, and the other one serves where there is none. */
  lemma CatalogSays(m: map<string, FeatureMapping>, lang: string, f: string, x: string)
    ensures var n := FromCatalog(m, lang);
      && (n.deviceClass(f) == Some(x) <==> f in m && x != "" && m[f].deviceClass == x)
      && (n.unit(f) == Some(x) <==> f in m && x != "" && m[f].unit == x)
      && (n.stateClass(f) == Some(x) <==> f in m && x != "" && m[f].stateClass == x)
      && (n.category(f) == Some(x) <==> f in m && x != "" && m[f].category == x)
      && (n.name(f) == Some(x) <==>
            f in m && x != "" && x == if lang == "de" && m[f].nameDE != "" then m[f].nameDE else m[f].name)
      && (n.enabled(f) == if f in m then m[f].enabled else None)
      && (n.excluded(f) <==> f in m && m[f].exclude)
  {
    var n := FromCatalog(m, lang);
    assert n.deviceClass(f) == Field(m, f, (x: FeatureMapping) => x.deviceClass);
    assert n.unit(f) == Field(m, f, (x: FeatureMapping) => x.unit);
    assert n.stateClass(f) == Field(m, f, (x: FeatureMapping) => x.stateClass);
    assert n.category(f) == Field(m, f, (x: FeatureMapping) => x.category);
  }

  lemma CatalogIsNonEmpty(m: map<string, FeatureMapping>, lang: string)
    ensures NonEmpty(FromCatalog(m, lang))
  {
    var n := FromCatalog(m, lang);
    forall f: string
      ensures n.deviceClass(f) != Some("") && n.unit(f) != Some("") && n.stateClass(f) != Some("")
          && n.category(f) != Some("")
    {
      assert n.deviceClass(f) == Field(m, f, (x: FeatureMapping) => x.deviceClass);
      assert n.unit(f) == Field(m, f, (x: FeatureMapping) => x.unit);
      assert n.stateClass(f) == Field(m, f, (x: FeatureMapping) => x.stateClass);
      assert n.category(f) == Field(m, f, (x: FeatureMapping) => x.category);
    }
  }

  // ----- classification -----

  /** The platform, or None for what discovery does not expose. */
  function PlatformFor(e: Entity): Option<Platform> {
    match e.kind
    case Command => Some(Button)
    case Event => Some(BinarySensor)
    case ActiveProgram => Some(Sensor)
    case SelectedProgram => if e.writable && e.IsEnum() then Some(Select) else Some(Sensor)
    case Program => None
    case ProtectionPort => None
    case _ =>
      if e.IsEnum() then Some(if e.writable then Select else Sensor)
      else if e.protocol.Boolean? then Some(if e.writable then Switch else BinarySensor)
      else if e.protocol.Integer? || e.protocol.Float? then Some(if e.writable then Number else Sensor)
      else Some(Sensor)
  }

  /** A status, setting or option: what its type and access decide. */
  predicate ByType(e: Entity) {
    e.kind.Status? || e.kind.Setting? || e.kind.ProgramOption?
  }

  /** Each platform's exact condition: in particular a dropdown always has something in it, and only what can
      be written gets a control. */
  lemma PlatformsExactly(e: Entity)
    ensures PlatformFor(e) == None <==> e.kind.Program? || e.kind.ProtectionPort?
    ensures PlatformFor(e) == Some(Button) <==> e.kind.Command?
    ensures PlatformFor(e) == Some(Select) <==> e.IsEnum() && e.writable && (ByType(e) || e.kind.SelectedProgram?)
    ensures PlatformFor(e) == Some(Number) <==> e.NumericValue() && e.writable && ByType(e)
    ensures PlatformFor(e) == Some(Switch) <==> !e.IsEnum() && e.protocol.Boolean? && e.writable && ByType(e)
    ensures PlatformFor(e) == Some(BinarySensor) <==>
      e.kind.Event? || (!e.IsEnum() && e.protocol.Boolean? && !e.writable && ByType(e))
  {
  }

  function LeafName(name: string): string {
    if name == [] then []
    else if name[|name| - 1] == '.' then []
    else LeafName(name[..|name| - 1]) + [name[|name| - 1]]
  }

  const PRIMARY: set<string> := {
    "PowerState", "OperationState", "DoorState", "RemainingProgramTime", "ProgramProgress", "StartInRelative",
    "ActiveProgram", "SelectedProgram", "RemoteControlActive", "RemoteControlStartAllowed", "BackendConnected",
    "ProgramFinished", "ProgramAborted", "BatteryLevel", "ChargingState"}

  predicate IsPrimary(e: Entity) {
    e.kind.ActiveProgram? || e.kind.SelectedProgram? || LeafName(e.name) in PRIMARY
  }

  predicate EndsWith(s: string, tail: string) {
    |tail| <= |s| && s[|s| - |tail|..] == tail
  }

  /** The leaf is what stands behind the last dot. */
  lemma {:induction false} LeafIsBehindTheLastDot(name: string)
    ensures '.' !in LeafName(name)
    ensures LeafName(name) == name || EndsWith(name, "." + LeafName(name))
    ensures LeafName(name) == name <==> '.' !in name
  {
    if name != [] {
      var front, last := name[..|name| - 1], name[|name| - 1];
      assert name == front + [last];
      LeafIsBehindTheLastDot(front);
      if last == '.' {
        assert name[|name| - 1..] == "." + LeafName(name);
      } else if LeafName(front) != front {
        var tail := "." + LeafName(front);
        assert name[|name| - |tail| - 1..] == front[|front| - |tail|..] + [last];
        assert "." + LeafName(name) == tail + [last];
      }
    }
  }

  lemma LastDotIsOne(name: string, i: nat, j: nat)
    requires i < |name| && j < |name| && name[i] == '.' && name[j] == '.'
    requires forall q :: i < q < |name| ==> name[q] != '.'
    requires forall q :: j < q < |name| ==> name[q] != '.'
    ensures i == j
  {
  }

  lemma DotBefore(name: string, tail: string) returns (at: nat)
    requires EndsWith(name, "." + tail)
    ensures at < |name| && name[at] == '.' && name[at + 1..] == tail
  {
    at := |name| - |tail| - 1;
    var all := "." + tail;
    assert name[at..] == all && all[0] == '.' && all[1..] == tail;
    assert name[at] == name[at..][0] && name[at + 1..] == name[at..][1..];
  }

  lemma DotlessBehind(name: string, at: nat, tail: string)
    requires at < |name| && name[at + 1..] == tail && '.' !in tail
    ensures forall q :: at < q < |name| ==> name[q] != '.'
  {
    forall q | at < q < |name| ensures name[q] != '.' {
      assert name[q] == name[at + 1..][q - at - 1];
    }
  }

  /** Only one dotless string stands behind a name's last dot. */
  lemma LeafIsUnique(name: string, leaf: string)
    requires '.' !in leaf
    ensures LeafName(name) == leaf <==> name == leaf || EndsWith(name, "." + leaf)
  {
    var own := LeafName(name);
    LeafIsBehindTheLastDot(name);
    if EndsWith(name, "." + leaf) {
      var at := DotBefore(name, leaf);
      assert name[at] == '.';
      var its := DotBefore(name, own);
      DotlessBehind(name, at, leaf);
      DotlessBehind(name, its, own);
      LastDotIsOne(name, at, its);
    }
  }

  lemma PrimaryNamesAreDotless()
    ensures forall leaf :: leaf in PRIMARY ==> '.' !in leaf
  {
  }

  /** What is enabled and uncategorized from the start: the program entities, and every feature with one of the
      listed names, bare or behind a dot. */
  lemma PrimaryByName(e: Entity)
    ensures IsPrimary(e) <==>
      || e.kind.ActiveProgram? || e.kind.SelectedProgram?
      || exists leaf :: leaf in PRIMARY && (e.name == leaf || EndsWith(e.name, "." + leaf))
  {
    PrimaryNamesAreDotless();
    forall leaf | leaf in PRIMARY
      ensures LeafName(e.name) == leaf <==> e.name == leaf || EndsWith(e.name, "." + leaf)
    {
      LeafIsUnique(e.name, leaf);
    }
  }

  /** The categories: `config` is for what changes the appliance, `diagnostic` for what only reports on it. */
  lemma CategoriesExactly(e: Entity)
    ensures CategoryFor(e) in {"", CONFIG, DIAGNOSTIC}
    ensures CategoryFor(e) == CONFIG <==>
      !IsPrimary(e) && (e.kind.Command? || ((e.kind.Setting? || e.kind.ProgramOption?) && e.writable))
    ensures CategoryFor(e) == DIAGNOSTIC <==>
      && !IsPrimary(e)
      && (e.kind.Status? || e.kind.Event? || ((e.kind.Setting? || e.kind.ProgramOption?) && !e.writable))
  {
  }

  function CategoryFor(e: Entity): string {
    if IsPrimary(e) then ""
    else
      match e.kind
      case Setting => if e.writable then CONFIG else DIAGNOSTIC
      case ProgramOption => if e.writable then CONFIG else DIAGNOSTIC
      case Command => CONFIG
      case Status => DIAGNOSTIC
      case Event => DIAGNOSTIC
      case _ => ""
  }

  predicate CategoryAllowed(p: Platform, cat: string) {
    cat == "" || cat == DIAGNOSTIC || (cat == CONFIG && !p.Sensor? && !p.BinarySensor?)
  }

  function RenderableCategory(p: Platform, cat: string): (r: string)
    ensures CategoryAllowed(p, r)
    ensures CategoryAllowed(p, cat) ==> r == cat
    ensures !CategoryAllowed(p, cat) ==> r == if cat == CONFIG then DIAGNOSTIC else ""
  {
    if CategoryAllowed(p, cat) then cat else if cat == CONFIG then DIAGNOSTIC else ""
  }

  predicate Contains(s: string, sub: string) {
    exists i {:trigger s[i..]} :: 0 <= i <= |s| && sub <= s[i..]
  }

  function StateClassFor(e: Entity, p: Platform): string {
    if !p.Sensor? || !e.NumericValue() then ""
    else if Contains(e.name, "Count") then "total_increasing"
    else "measurement"
  }

  lemma ContainsMeans(s: string, sub: string)
    ensures Contains(s, sub) <==> exists a, b :: s == a + sub + b
  {
    if i {:trigger s[i..]} :| 0 <= i <= |s| && sub <= s[i..] {
      assert s == s[..i] + sub + s[i..][|sub|..];
    }
    if a, b :| s == a + sub + b {
      assert s[|a|..] == sub + b;
    }
  }

  /** Statistics are for numeric sensors, and what counts only ever grows. */
  lemma StateClassesExactly(e: Entity, p: Platform)
    ensures StateClassFor(e, p) == "" <==> !(p.Sensor? && e.NumericValue())
    ensures StateClassFor(e, p) == "total_increasing" <==>
      p.Sensor? && e.NumericValue() && exists a, b :: e.name == a + "Count" + b
    ensures StateClassFor(e, p) in {"", "total_increasing", "measurement"}
  {
    ContainsMeans(e.name, "Count");
  }

  function ClassAndUnit(e: Entity): (string, string) {
    if e.IsEnum() then (ENUM, "")
    else if e.contentType == "temperatureCelsius" then ("temperature", "°C")
    else if e.contentType == "temperatureFahrenheit" then ("temperature", "°F")
    else if e.contentType == "percent" then ("", "%")
    else if e.contentType == "timeSpan" then ("duration", "s")
    else if e.contentType == "dbm" then ("signal_strength", "dBm")
    else if e.contentType == "rpm" then ("", "rpm")
    else if e.contentType == "power" then ("power", "W")
    else if e.contentType == "energy" then ("energy", "Wh")
    else if e.contentType == "weight" then ("weight", "g")
    else ("", "")
  }

  /** What a numeric content type measures, and in what. */
  const MEASURES: map<string, (string, string)> := map[
    "temperatureCelsius" := ("temperature", "°C"), "temperatureFahrenheit" := ("temperature", "°F"),
    "percent" := ("", "%"), "rpm" := ("", "rpm"), "timeSpan" := ("duration", "s"),
    "dbm" := ("signal_strength", "dBm"), "power" := ("power", "W"), "energy" := ("energy", "Wh"),
    "weight" := ("weight", "g")]

  lemma ListedMeasures(e: Entity)
    requires !e.IsEnum() && e.contentType in MEASURES
    ensures ClassAndUnit(e) == MEASURES[e.contentType]
  {
  }

  lemma UnlistedMeasures(e: Entity)
    requires !e.IsEnum() && e.contentType !in MEASURES
    ensures ClassAndUnit(e) == ("", "")
  {
  }

  lemma ClassAndUnitMeasures(e: Entity)
    ensures e.IsEnum() ==> ClassAndUnit(e) == (ENUM, "")
    ensures !e.IsEnum() ==>
      ClassAndUnit(e) == if e.contentType in MEASURES then MEASURES[e.contentType] else ("", "")
  {
    if !e.IsEnum() {
      if e.contentType in MEASURES { ListedMeasures(e); } else { UnlistedMeasures(e); }
    }
  }

  predicate ClassAllowed(t: ClassTable, p: Platform, dc: string) {
    t.Some? && p in t.value && dc in t.value[p]
  }

  /** The classes a sensor may carry together. */
  function Reconcile(t: Option<Relations>, dc: string, unit: string, sc: string): (string, string, string) {
    if dc == "" then (dc, unit, sc)
    else if t.None? then ("", unit, sc)
    else if dc !in t.value.numeric then (dc, "", "")
    else if dc in t.value.units && unit != "" && unit !in t.value.units[dc] then ("", unit, sc)
    else if dc in t.value.stateClasses && sc != "" && sc !in t.value.stateClasses[dc] then (dc, unit, "")
    else (dc, unit, sc)
  }

  function TextSensorClass(t: Option<Relations>, dc: string, isEnum: bool): string {
    if isEnum then ENUM
    else if dc == "" || dc == ENUM then dc
    else if t.None? || dc in t.value.numeric then ""
    else dc
  }

  /** Home Assistant accepts these three on one sensor that is not an enumeration. */
  predicate Compatible(t: Option<Relations>, dc: string, unit: string, sc: string) {
    dc != "" ==>
      && t.Some?
      && (dc !in t.value.numeric ==> unit == "" && sc == "")
      && (dc in t.value.units && unit != "" ==> unit in t.value.units[dc])
      && (dc in t.value.stateClasses && sc != "" ==> sc in t.value.stateClasses[dc])
  }

  /** Reconciling always ends in an accepted combination, never invents a class, unit or state class, and
      leaves an accepted one alone. */
  lemma ReconcileIsCompatible(t: Option<Relations>, dc: string, unit: string, sc: string)
    ensures var (d, u, s) := Reconcile(t, dc, unit, sc);
      && Compatible(t, d, u, s)
      && (d == dc || d == "") && (u == unit || u == "") && (s == sc || s == "")
    ensures Compatible(t, dc, unit, sc) <==> Reconcile(t, dc, unit, sc) == (dc, unit, sc)
  {
  }

  /** What is given up, and nothing else: the class, when the tables failed to load or it is numeric and does not
      declare the unit; unit and state class together, when the class is not a number's; the state class alone,
      when a numeric class that is kept does not admit it. */
  lemma ReconcileGivesUp(t: Option<Relations>, dc: string, unit: string, sc: string)
    ensures var (d, u, s) := Reconcile(t, dc, unit, sc);
      var numeric := t.Some? && dc in t.value.numeric;
      var misfit := numeric && dc in t.value.units && unit != "" && unit !in t.value.units[dc];
      && (d == dc <==> dc == "" || (t.Some? && !misfit))
      && (u == unit <==> unit == "" || dc == "" || t.None? || numeric)
      && (s == sc <==>
            || sc == "" || dc == "" || t.None?
            || (numeric && (misfit || dc !in t.value.stateClasses || sc in t.value.stateClasses[dc])))
  {
  }

  /** The class of a sensor whose state is text: an enumeration's is `enum`, and any other keeps its class
      exactly when that is `enum` or one that the tables know not to be a number's. */
  lemma TextSensorClassIs(t: Option<Relations>, dc: string, isEnum: bool)
    ensures var r := TextSensorClass(t, dc, isEnum);
      && (isEnum ==> r == ENUM)
      && (!isEnum ==> r == dc || r == "")
      && (!isEnum && dc != "" ==> (r == dc <==> dc == ENUM || (t.Some? && dc !in t.value.numeric)))
  {
  }

  /** Home Assistant's tables know every class this program assigns as a number's, with its unit. */
  ghost predicate DeclaresMeasures(t: Option<Relations>) {
    t.Some? && forall c :: c in MEASURES && MEASURES[c].0 != "" ==>
      var (dc, unit) := MEASURES[c];
      dc in t.value.numeric && dc in t.value.units && unit in t.value.units[dc]
  }

  /** Then no class or unit assigned from the wire type is ever given up. */
  lemma MeasuresSurvive(t: Option<Relations>, e: Entity, sc: string)
    requires DeclaresMeasures(t) && !e.IsEnum()
    ensures var (d, u, s) := Reconcile(t, ClassAndUnit(e).0, ClassAndUnit(e).1, sc);
      (d, u) == ClassAndUnit(e)
  {
    ClassAndUnitMeasures(e);
    if e.contentType in MEASURES { assert MEASURES[e.contentType] == ClassAndUnit(e); }
  }

  // ----- number bounds -----

  const MIN_STEP: real := 0.001

  function IfFinite(n: Option<Num>): Option<real> {
    if n.Some? && n.value.Finite? then Some(n.value.r) else None
  }

  function Or(n: Option<real>, fallback: real): real {
    if n.Some? then n.value else fallback
  }

  function NumberBounds(b: Bounds): (Option<real>, Option<real>, Option<real>) {
    var lo, hi := IfFinite(b.min), IfFinite(b.max);
    var step := IfFinite(b.step);
    var kept := if step.Some? && step.value >= MIN_STEP then step else None;
    if Or(lo, 0.0) > Or(hi, 100.0) then (None, None, kept) else (lo, hi, kept)
  }

  /** Home Assistant accepts what comes out; what it would have accepted comes out as it went in. */
  lemma BoundsAreAccepted(b: Bounds)
    ensures var (lo, hi, step) := NumberBounds(b);
      && Or(lo, 0.0) <= Or(hi, 100.0)
      && (step.Some? ==> step.value >= MIN_STEP)
    ensures var lo, hi := IfFinite(b.min), IfFinite(b.max);
      Or(lo, 0.0) <= Or(hi, 100.0) <==> NumberBounds(b).0 == lo && NumberBounds(b).1 == hi
  {
  }

  /** Nothing is invented, and what is left out is exactly what Home Assistant refuses: a bound that is not
      finite, both bounds when they cross after its defaults, a step below its least. */
  lemma BoundsLeftOut(b: Bounds, x: real)
    ensures var (lo, hi, step) := NumberBounds(b);
      var crossed := Or(IfFinite(b.min), 0.0) > Or(IfFinite(b.max), 100.0);
      && (lo == Some(x) <==> b.min == Some(Finite(x)) && !crossed)
      && (hi == Some(x) <==> b.max == Some(Finite(x)) && !crossed)
      && (step == Some(x) <==> b.step == Some(Finite(x)) && x >= MIN_STEP)
  {
  }

  // ----- enumeration options -----

  function Members(m: map<int, string>, order: seq<int>): seq<string>
    requires forall k :: k in order ==> k in m
  {
    Map((k: int) => if k in m then m[k] else "", order)
  }

  /** Two visits of one enumeration meet the same members. */
  lemma SameMembers(m: map<int, string>, order: seq<int>, other: seq<int>)
    requires Enumerates(order, m.Keys) && Enumerates(other, m.Keys)
    ensures multiset(Members(m, order)) == multiset(Members(m, other))
  {
    SameElements(order, other);
    MapKeepsCounts((k: int) => if k in m then m[k] else "", order, other);
  }

  lemma CountsOnce(s: seq<int>, k: int)
    requires forall i, j :: 0 <= i < j < |s| ==> s[i] != s[j]
    ensures multiset(s)[k] == if k in s then 1 else 0
  {
    if s != [] {
      SplitLast(s);
      CountsOnce(s[..|s| - 1], k);
    }
  }

  lemma SameElements(s: seq<int>, t: seq<int>)
    requires forall k :: k in s <==> k in t
    requires forall i, j :: 0 <= i < j < |s| ==> s[i] != s[j]
    requires forall i, j :: 0 <= i < j < |t| ==> t[i] != t[j]
    ensures multiset(s) == multiset(t)
  {
    forall k: int ensures multiset(s)[k] == multiset(t)[k] {
      CountsOnce(s, k);
      CountsOnce(t, k);
    }
  }

  /** The options do not depend on the order in which the enumeration is visited. */
  lemma OptionsDoNotDependOnTheVisit(m: map<int, string>, order: seq<int>, other: seq<int>)
    requires Enumerates(order, m.Keys) && Enumerates(other, m.Keys)
    ensures Sort(Plain(), Members(m, order)) == Sort(Plain(), Members(m, other))
    ensures |Sort(Plain(), Members(m, order))| == |order|
    ensures |m| > 0 ==> Sort(Plain(), Members(m, order)) != []
  {
    SameMembers(m, order, other);
    VisitingOrderIsIrrelevant(Members(m, order), Members(m, other));
    PlainIsOrder();
    SortSorts(Plain(), Members(m, order));
    assert |multiset(Members(m, order))| == |Members(m, order)|;
    assert |multiset(Sort(Plain(), Members(m, order)))| == |Sort(Plain(), Members(m, order))|;
    if order == [] { assert forall k :: k !in m.Keys; }
    assert order == [] ==> m == map[];
  }

  /** An entity is an enumeration exactly when there is something to choose from. */
  lemma EnumsHaveOptions(e: Entity, order: seq<int>)
    requires Enumerates(order, e.enumeration.Keys)
    ensures e.IsEnum() <==> Sort(Plain(), Members(e.enumeration, order)) != []
  {
    OptionsDoNotDependOnTheVisit(e.enumeration, order, order);
    if order == [] { assert forall k :: k !in e.enumeration.Keys; }
  }

  /** enumOptions */
  method EnumOptions(m: map<int, string>, order: seq<int>) returns (r: seq<string>)
    requires Enumerates(order, m.Keys)
    ensures r == Sort(Plain(), Members(m, order))
    ensures multiset(r) == multiset(Members(m, order)) && Ordered(Plain(), r)
  {
    var opts := new string[|order|];
    for i := 0 to |order|
      invariant forall k :: 0 <= k < i ==> opts[k] == Members(m, order)[k]
    {
      assert order[i] in order;
      opts[i] := m[order[i]];
    }
    assert opts[..] == Members(m, order);
    SortStrings(opts);
    r := opts[..];
    PlainIsOrder();
    SortSorts(Plain(), Members(m, order));
  }
}
