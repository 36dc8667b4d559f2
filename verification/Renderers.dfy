// The two renderers of one discovery payload: the map builder (internal/hass/payload.go and
// internal/hass/discovery.go) and the Description builder that ships (internal/hass/hamqtt.go).
//
// JSON keys are constructors of Key.  Topic texts differ between the two on purpose and are left out: a
// topic-bearing key only says that it is there.  Value and command templates are left out as well.
module Renderers {
  import opened Prelude
  import opened Sorting
  import opened Classify

  /** A JSON object over the keys either renderer ever writes: an absent key is None or false. */
  datatype Payload = Payload(
    uniqueId: string,
    entityId: string,
    name: string,
    stateTopic: bool,
    commandTopic: bool,
    payloadOn: Option<string>,
    payloadOff: Option<string>,
    payloadPress: Option<string>,
    options: Option<seq<string>>,
    min: Option<real>,
    max: Option<real>,
    step: Option<real>,
    deviceClass: Option<string>,
    unit: Option<string>,
    stateClass: Option<string>,
    category: Option<string>,
    enabled: Option<bool>)

  /** The configuration and the pure functions both renderers share: humanize, featureKey, slugify,
      i18n.EnumLabel in the display language, and the collation fold. */
  datatype Config = Config(
    humanize: Entity -> string,
    keyOf: Entity -> string,
    slug: string -> string,
    nameOf: string -> string,
    fold: string -> string,
    lang: string,
    curated: bool,
    enrich: Option<Enricher>,
    classes: ClassTable,
    relations: Option<Relations>)

  function PlatformName(p: Platform): string {
    match p
    case Switch => "switch"
    case Select => "select"
    case Sensor => "sensor"
    case BinarySensor => "binary_sensor"
    case Number => "number"
    case Button => "button"
  }

  predicate Commandable(e: Entity, p: Platform) {
    e.writable && (p.Switch? || p.Select? || p.Number?)
  }

  /** A control is what can be written, and only that: on an entity's own platform a command topic goes exactly to a
      switch, a dropdown or a number. */
  lemma CommandableExactly(e: Entity, p: Platform)
    requires PlatformFor(e) == Some(p)
    ensures Commandable(e, p) <==> p.Switch? || p.Select? || p.Number?
  {
    PlatformsExactly(e);
  }

  const PLATFORM_NAMES: map<Platform, string> := map[
    Switch := "switch", Select := "select", Sensor := "sensor", BinarySensor := "binary_sensor",
    Number := "number", Button := "button"]

  /** Home Assistant's names of the platforms, each its own. */
  lemma PlatformNamesDiffer(p: Platform, q: Platform)
    ensures p in PLATFORM_NAMES && PlatformName(p) == PLATFORM_NAMES[p]
    ensures PlatformName(p) == PlatformName(q) <==> p == q
  {
  }

  /** A key is written only for a value that is not empty. */
  function Written(s: string): Option<string> {
    if s == "" then None else Some(s)
  }

  /** An absent key reads as the empty string. */
  function Str(o: Option<string>): string {
    if o.Some? then o.value else ""
  }

  // ----- the map builder -----

  function Vocabulary(e: Entity, p: Platform): (Option<string>, Option<string>) {
    match p
    case Switch => (Some("true"), Some("false"))
    case BinarySensor => if e.kind.Event? then (Some("Present"), Some("Off")) else (Some("true"), Some("false"))
    case _ => (None, None)
  }

  /** basePayload: the keys every entity carries. */
  function BasePayload(cfg: Config, p: Platform, device: string, key: string, name: string): Payload {
    Payload("homeconnect_" + cfg.slug(device) + "_" + key, PlatformName(p) + "." + cfg.slug(device + "_" + key), name,
            false, false, None, None, None, None, None, None, None, None, None, None, None, None)
  }

  function OptionsFor(e: Entity, p: Platform, order: seq<int>): Option<seq<string>>
    requires Enumerates(order, e.enumeration.Keys)
  {
    if p.Select? || (p.Sensor? && e.IsEnum()) then Some(Sort(Plain(), Members(e.enumeration, order))) else None
  }

  function PayloadFor(cfg: Config, e: Entity, p: Platform, device: string, order: seq<int>): Payload
    requires Enumerates(order, e.enumeration.Keys)
  {
    var base := BasePayload(cfg, p, device, cfg.keyOf(e), cfg.humanize(e));
    var m := if p.Button? then base.(commandTopic := true, payloadPress := Some("true")) else base.(stateTopic := true);
    var (on, off) := Vocabulary(e, p);
    var (lo, hi, step) := if p.Number? then NumberBounds(e.bounds) else (None, None, None);
    var (dc, unit) := ClassAndUnit(e);
    m.(commandTopic := m.commandTopic || Commandable(e, p),
       payloadOn := on,
       payloadOff := off,
       options := OptionsFor(e, p, order),
       min := lo,
       max := hi,
       step := step,
       deviceClass := Written(dc),
       unit := Written(unit),
       stateClass := Written(StateClassFor(e, p)),
       category := Written(CategoryFor(e)),
       enabled := if IsPrimary(e) then None else Some(false))
  }

  /** An override replaces what the key held. */
  function Overlay(was: Option<string>, v: Option<string>): Option<string> {
    if v.Some? then v else was
  }

  /** applyEnrichment: a class or category the platform refuses is not applied. */
  function EnrichMap(cfg: Config, e: Entity, m: Payload, p: Platform): Payload {
    if cfg.enrich.None? || e.name == "" then m
    else
      var n, f := cfg.enrich.value, e.name;
      m.(name := if n.name(f).Some? then n.name(f).value else m.name,
         deviceClass := if n.deviceClass(f).Some? && ClassAllowed(cfg.classes, p, n.deviceClass(f).value)
                        then n.deviceClass(f) else m.deviceClass,
         unit := Overlay(m.unit, n.unit(f)),
         stateClass := Overlay(m.stateClass, n.stateClass(f)),
         category := if n.category(f).Some? && CategoryAllowed(p, n.category(f).value)
                     then n.category(f) else m.category,
         enabled := match n.enabled(f) { case None => m.enabled case Some(on) => if on then None else Some(false) })
  }

  /** localizeOptions: translate, then sort the labels. */
  function LocalizeMap(cfg: Config, m: Payload): Payload {
    if m.options.None? then m
    else m.(options := Some(Sort(Collated(cfg.fold), Map(cfg.nameOf, m.options.value))))
  }

  /** A sensor whose state is text carries no unit, no state class and no numeric class. */
  function TextMap(cfg: Config, e: Entity, m: Payload, p: Platform): Payload {
    if !p.Sensor? || e.NumericValue() then m
    else m.(deviceClass := Written(TextSensorClass(cfg.relations, Str(m.deviceClass), e.IsEnum())),
            unit := None, stateClass := None)
  }

  /** delete(p, key) when nothing is left to say under it. */
  function Kept(was: Option<string>, left: string): Option<string> {
    if left == "" then None else was
  }

  /** sanitizeForPlatform, as far as it concerns every platform ... */
  function StripMap(cfg: Config, m: Payload, p: Platform): Payload {
    m.(deviceClass := if m.deviceClass.Some? && !ClassAllowed(cfg.classes, p, m.deviceClass.value)
                      then None else m.deviceClass,
       category := if m.category.Some? then Written(RenderableCategory(p, m.category.value)) else None,
       unit := if !p.Sensor? && !p.Number? then None else m.unit,
       stateClass := if !p.Sensor? then None else m.stateClass)
  }

  /** ... and what a sensor may combine. */
  function SensorMap(cfg: Config, m: Payload): Payload {
    if m.deviceClass == Some(ENUM) then
      if m.options.None? then m.(deviceClass := None) else m.(unit := None, stateClass := None)
    else
      var (dc, unit, sc) := Reconcile(cfg.relations, Str(m.deviceClass), Str(m.unit), Str(m.stateClass));
      m.(options := None, deviceClass := Kept(m.deviceClass, dc), unit := Kept(m.unit, unit),
          stateClass := Kept(m.stateClass, sc))
  }

  function SanitizeMap(cfg: Config, m: Payload, p: Platform): Payload {
    if p.Sensor? then SensorMap(cfg, StripMap(cfg, m, p)) else StripMap(cfg, m, p)
  }

  function MapPayload(cfg: Config, e: Entity, p: Platform, device: string, order: seq<int>): Payload
    requires Enumerates(order, e.enumeration.Keys)
  {
    var enriched := EnrichMap(cfg, e, PayloadFor(cfg, e, p, device, order), p);
    SanitizeMap(cfg, TextMap(cfg, e, LocalizeMap(cfg, enriched), p), p)
  }

  // ----- the Description builder -----

  /** model.Enum: codes in display order, with a label for every code that is not its own label. */
  datatype Enum = Enum(codes: seq<string>, labels: map<string, string>)

  datatype Extra = NoExtra | OnOff(on: string, off: string) | Press(p: string)

  datatype Desc = Desc(
    name: string,
    deviceClass: string,
    unit: string,
    stateClass: string,
    category: string,
    enabled: Option<bool>,
    options: Option<Enum>,
    bounds: (Option<real>, Option<real>, Option<real>),
    extra: Extra)

  datatype Basic = Basic(key: string, platform: Platform, desc: Desc, readable: bool, writable: bool)

  function Describe(cfg: Config, e: Entity, p: Platform, order: seq<int>): Desc
    requires Enumerates(order, e.enumeration.Keys)
  {
    var (dc, unit) := ClassAndUnit(e);
    Desc(
      cfg.humanize(e), dc, unit, StateClassFor(e, p), CategoryFor(e),
      if IsPrimary(e) then None else Some(false),
      if p.Select? || (p.Sensor? && e.IsEnum())
      then Some(Enum(Sort(Plain(), Members(e.enumeration, order)), map[])) else None,
      if p.Number? then NumberBounds(e.bounds) else (None, None, None),
      match p {
        case Switch => OnOff("true", "false")
        case BinarySensor => if e.kind.Event? then OnOff("Present", "Off") else OnOff("true", "false")
        case Button => Press("true")
        case _ => NoExtra
      })
  }

  function Overridden(was: string, v: Option<string>): string {
    if v.Some? then v.value else was
  }

  function EnrichDesc(cfg: Config, e: Entity, d: Desc, p: Platform): Desc {
    if cfg.enrich.None? || e.name == "" then d
    else
      var n, f := cfg.enrich.value, e.name;
      d.(name := Overridden(d.name, n.name(f)),
         deviceClass := if n.deviceClass(f).Some? && ClassAllowed(cfg.classes, p, n.deviceClass(f).value)
                        then n.deviceClass(f).value else d.deviceClass,
         unit := Overridden(d.unit, n.unit(f)),
         stateClass := Overridden(d.stateClass, n.stateClass(f)),
         category := if n.category(f).Some? && CategoryAllowed(p, n.category(f).value)
                     then n.category(f).value else d.category,
         enabled := match n.enabled(f) { case None => d.enabled case Some(on) => if on then None else Some(false) })
  }

  function LabelsFor(codes: seq<string>, name: string -> string): map<string, string> {
    map c | c in codes && name(c) != c :: name(c)
  }

  /** localizeDescriptionOptions: the codes stay, sorted by their labels. */
  function LocalizeDesc(cfg: Config, d: Desc): Desc {
    if d.options.None? then d
    else
      var codes := Sort(By(Collated(cfg.fold), cfg.nameOf), d.options.value.codes);
      d.(options := Some(Enum(codes, LabelsFor(codes, cfg.nameOf))))
  }

  function TextDesc(cfg: Config, e: Entity, d: Desc, p: Platform): Desc {
    if !p.Sensor? || e.NumericValue() then d
    else d.(deviceClass := TextSensorClass(cfg.relations, d.deviceClass, e.IsEnum()), unit := "", stateClass := "")
  }

  function StripDesc(cfg: Config, d: Desc, p: Platform): Desc {
    d.(deviceClass := if d.deviceClass != "" && !ClassAllowed(cfg.classes, p, d.deviceClass) then "" else d.deviceClass,
       category := RenderableCategory(p, d.category),
       unit := if !p.Sensor? && !p.Number? then "" else d.unit,
       stateClass := if !p.Sensor? then "" else d.stateClass)
  }

  function SensorDesc(cfg: Config, d: Desc): Desc {
    if d.deviceClass == ENUM then
      if d.options.None? then d.(deviceClass := "") else d.(unit := "", stateClass := "")
    else
      var (dc, unit, sc) := Reconcile(cfg.relations, d.deviceClass, d.unit, d.stateClass);
      d.(options := None, deviceClass := dc, unit := unit, stateClass := sc)
  }

  /** sanitizeDescriptionForPlatform */
  function SanitizeDesc(cfg: Config, d: Desc, p: Platform): Desc {
    if p.Sensor? then SensorDesc(cfg, StripDesc(cfg, d, p)) else StripDesc(cfg, d, p)
  }

  function DescFor(cfg: Config, e: Entity, p: Platform, order: seq<int>): Desc
    requires Enumerates(order, e.enumeration.Keys)
  {
    SanitizeDesc(cfg, TextDesc(cfg, e, LocalizeDesc(cfg, EnrichDesc(cfg, e, Describe(cfg, e, p, order), p)), p), p)
  }

  function BasicOf(cfg: Config, e: Entity, p: Platform, d: Desc): Basic {
    Basic(cfg.keyOf(e), p, d, !p.Button?, p.Button? || Commandable(e, p))
  }

  // ----- what the library renders of a Description -----

  function Shown(o: Option<Enum>): Option<seq<string>> {
    if o.None? || o.value.codes == [] then None
    else Some(Map((c: string) => if c in o.value.labels then o.value.labels[c] else c, o.value.codes))
  }

  /** RenderComponent: what is empty is omitted, and an option shows its label. */
  function Render(cfg: Config, device: string, b: Basic): Payload {
    Payload(
      "homeconnect_" + cfg.slug(device) + "_" + b.key,
      PlatformName(b.platform) + "." + cfg.slug(device + "_" + b.key),
      b.desc.name,
      b.readable,
      b.writable,
      if b.desc.extra.OnOff? then Some(b.desc.extra.on) else None,
      if b.desc.extra.OnOff? then Some(b.desc.extra.off) else None,
      if b.desc.extra.Press? then Some(b.desc.extra.p) else None,
      Shown(b.desc.options),
      b.desc.bounds.0,
      b.desc.bounds.1,
      b.desc.bounds.2,
      Written(b.desc.deviceClass),
      Written(b.desc.unit),
      Written(b.desc.stateClass),
      Written(b.desc.category),
      if b.desc.enabled == Some(false) then Some(false) else None)
  }

  /** Enumerations are never empty where options are rendered. */
  predicate HasCodes(d: Desc) {
    d.options.Some? ==> d.options.value.codes != []
  }

  predicate Unlabelled(d: Desc) {
    d.options.Some? ==> d.options.value.codes != [] && d.options.value.labels == map[]
  }

  // ----- step by step -----

  lemma NoLabels(codes: seq<string>)
    requires codes != []
    ensures Shown(Some(Enum(codes, map[]))) == Some(codes)
  {
    var labels: map<string, string> := map[];
    var f := (c: string) => if c in labels then labels[c] else c;
    assert Map(f, codes) == codes;
  }

  lemma DescribedOptions(cfg: Config, e: Entity, p: Platform, order: seq<int>, other: seq<int>)
    requires Enumerates(order, e.enumeration.Keys) && Enumerates(other, e.enumeration.Keys)
    requires PlatformFor(e) == Some(p)
    ensures Describe(cfg, e, p, order) == Describe(cfg, e, p, other)
    ensures Unlabelled(Describe(cfg, e, p, order))
    ensures Shown(Describe(cfg, e, p, order).options) == OptionsFor(e, p, order)
  {
    OptionsDoNotDependOnTheVisit(e.enumeration, order, other);
    PlatformsExactly(e);
    SameOptionsShown(e, p, Sort(Plain(), Members(e.enumeration, order)));
  }

  lemma SameOptionsShown(e: Entity, p: Platform, codes: seq<string>)
    requires PlatformFor(e) == Some(p) && (e.IsEnum() ==> codes != [])
    ensures p.Select? || (p.Sensor? && e.IsEnum()) ==> codes != [] && Shown(Some(Enum(codes, map[]))) == Some(codes)
  {
    PlatformsExactly(e);
    if codes != [] { NoLabels(codes); }
  }

  lemma DescribeAgrees(cfg: Config, e: Entity, p: Platform, device: string, order: seq<int>)
    requires Enumerates(order, e.enumeration.Keys)
    requires Shown(Describe(cfg, e, p, order).options) == OptionsFor(e, p, order)
    ensures PayloadFor(cfg, e, p, device, order) == Render(cfg, device, BasicOf(cfg, e, p, Describe(cfg, e, p, order)))
  {
  }

  lemma ByIsPreorder(le: (string, string) -> bool, name: string -> string)
    requires Total(le) && Transitive(le)
    ensures Total(By(le, name)) && Transitive(By(le, name))
  {
  }

  lemma SortedCodes(cfg: Config, codes: seq<string>)
    ensures var shown := Sort(By(Collated(cfg.fold), cfg.nameOf), codes);
      && |shown| == |codes|
      && Map(cfg.nameOf, shown) == Sort(Collated(cfg.fold), Map(cfg.nameOf, codes))
  {
    var le := By(Collated(cfg.fold), cfg.nameOf);
    CollatedIsOrder(cfg.fold);
    ByIsPreorder(Collated(cfg.fold), cfg.nameOf);
    SortSorts(le, codes);
    SortSorts(Collated(cfg.fold), Map(cfg.nameOf, codes));
    LabelsOfSortedCodes(cfg.fold, cfg.nameOf, codes, Sort(le, codes), Sort(Collated(cfg.fold), Map(cfg.nameOf, codes)));
    assert |multiset(Sort(le, codes))| == |Sort(le, codes)| && |multiset(codes)| == |codes|;
  }

  lemma ShownLabels(name: string -> string, codes: seq<string>)
    requires codes != []
    ensures Shown(Some(Enum(codes, LabelsFor(codes, name)))) == Some(Map(name, codes))
  {
    var labels := LabelsFor(codes, name);
    var f := (c: string) => if c in labels then labels[c] else c;
    assert forall i :: 0 <= i < |codes| ==> f(codes[i]) == name(codes[i]);
    assert Map(f, codes) == Map(name, codes);
  }

  /** One renderer sorts the labels, the other the codes; the list shown is the same. */
  lemma LocalizeAgrees(cfg: Config, e: Entity, p: Platform, device: string, d: Desc)
    requires Unlabelled(d)
    ensures LocalizeMap(cfg, Render(cfg, device, BasicOf(cfg, e, p, d)))
         == Render(cfg, device, BasicOf(cfg, e, p, LocalizeDesc(cfg, d)))
    ensures HasCodes(LocalizeDesc(cfg, d))
  {
    if d.options.Some? {
      NoLabels(d.options.value.codes);
      SortedCodes(cfg, d.options.value.codes);
      ShownLabels(cfg.nameOf, Sort(By(Collated(cfg.fold), cfg.nameOf), d.options.value.codes));
    }
  }

  lemma TextAgrees(cfg: Config, e: Entity, p: Platform, device: string, d: Desc)
    ensures TextMap(cfg, e, Render(cfg, device, BasicOf(cfg, e, p, d)), p)
         == Render(cfg, device, BasicOf(cfg, e, p, TextDesc(cfg, e, d, p)))
  {
  }

  lemma StripAgrees(cfg: Config, e: Entity, p: Platform, device: string, d: Desc)
    ensures StripMap(cfg, Render(cfg, device, BasicOf(cfg, e, p, d)), p)
         == Render(cfg, device, BasicOf(cfg, e, p, StripDesc(cfg, d, p)))
  {
  }

  lemma SensorAgrees(cfg: Config, e: Entity, p: Platform, device: string, d: Desc)
    requires HasCodes(d)
    ensures SensorMap(cfg, Render(cfg, device, BasicOf(cfg, e, p, d)))
         == Render(cfg, device, BasicOf(cfg, e, p, SensorDesc(cfg, d)))
  {
    if d.deviceClass != ENUM { PlainSensorAgrees(cfg, e, p, device, d); }
  }

  lemma PlainSensorAgrees(cfg: Config, e: Entity, p: Platform, device: string, d: Desc)
    requires d.deviceClass != ENUM
    ensures SensorMap(cfg, Render(cfg, device, BasicOf(cfg, e, p, d)))
         == Render(cfg, device, BasicOf(cfg, e, p, SensorDesc(cfg, d)))
  {
    var m := Render(cfg, device, BasicOf(cfg, e, p, d));
    assert Str(m.deviceClass) == d.deviceClass && Str(m.unit) == d.unit && Str(m.stateClass) == d.stateClass;
    ReconcileIsCompatible(cfg.relations, d.deviceClass, d.unit, d.stateClass);
  }

  lemma SanitizeAgrees(cfg: Config, e: Entity, p: Platform, device: string, d: Desc)
    requires HasCodes(d)
    ensures SanitizeMap(cfg, Render(cfg, device, BasicOf(cfg, e, p, d)), p)
         == Render(cfg, device, BasicOf(cfg, e, p, SanitizeDesc(cfg, d, p)))
  {
    StripAgrees(cfg, e, p, device, d);
    SensorAgrees(cfg, e, p, device, StripDesc(cfg, d, p));
  }

  // ----- empty overrides -----

  /** The payload with every key that holds the empty string taken out. */
  function Tidy(m: Payload): Payload {
    m.(deviceClass := Written(Str(m.deviceClass)), unit := Written(Str(m.unit)),
       stateClass := Written(Str(m.stateClass)), category := Written(Str(m.category)))
  }

  /** The overrides that leave an empty key in the map: a class the table lists as the empty string, off the
      sensors; an empty unit on a number; an empty unit or state class on a numeric sensor overridden to `enum`. */
  predicate LeavesEmptyKey(cfg: Config, e: Entity, p: Platform) {
    cfg.enrich.Some? && e.name != "" &&
      var n, f := cfg.enrich.value, e.name;
      || (!p.Sensor? && n.deviceClass(f) == Some("") && ClassAllowed(cfg.classes, p, ""))
      || (p.Number? && n.unit(f) == Some(""))
      || (p.Sensor? && e.NumericValue() && n.deviceClass(f) == Some(ENUM) && ClassAllowed(cfg.classes, p, ENUM)
          && (n.unit(f) == Some("") || n.stateClass(f) == Some("")))
  }

  /** Enrichment commutes with rendering, up to the empty keys an empty override leaves. */
  lemma EnrichAgrees(cfg: Config, e: Entity, p: Platform, device: string, d: Desc)
    ensures Tidy(EnrichMap(cfg, e, Render(cfg, device, BasicOf(cfg, e, p, d)), p))
         == Render(cfg, device, BasicOf(cfg, e, p, EnrichDesc(cfg, e, d, p)))
  {
    var n := if cfg.enrich.Some? then cfg.enrich.value else NoOverrides();
    OverlayTidies(d.unit, n.unit(e.name));
    OverlayTidies(d.stateClass, n.stateClass(e.name));
    RenderIsTidy(cfg, device, BasicOf(cfg, e, p, d));
  }

  function NoOverrides(): Enricher {
    Enricher(_ => None, _ => None, _ => None, _ => None, _ => None, _ => None, _ => false)
  }

  lemma OverlayTidies(was: string, v: Option<string>)
    ensures Written(Str(Overlay(Written(was), v))) == Written(Overridden(was, v))
  {
  }

  lemma RenderIsTidy(cfg: Config, device: string, b: Basic)
    ensures Tidy(Render(cfg, device, b)) == Render(cfg, device, b)
  {
  }

  lemma LocalizeTidies(cfg: Config, m: Payload)
    ensures Tidy(LocalizeMap(cfg, m)) == LocalizeMap(cfg, Tidy(m))
  {
  }

  lemma TextTidies(cfg: Config, e: Entity, p: Platform, m: Payload)
    ensures Tidy(TextMap(cfg, e, m, p)) == TextMap(cfg, e, Tidy(m), p)
  {
  }

  lemma StripTidies(cfg: Config, p: Platform, m: Payload)
    ensures Tidy(StripMap(cfg, m, p)) == StripMap(cfg, Tidy(m), p)
  {
  }

  lemma SensorTidies(cfg: Config, m: Payload)
    ensures Tidy(SensorMap(cfg, m)) == SensorMap(cfg, Tidy(m))
  {
    if m.deviceClass != Some(ENUM) { PlainSensorTidies(cfg, m); }
  }

  lemma PlainSensorTidies(cfg: Config, m: Payload)
    requires m.deviceClass != Some(ENUM)
    ensures Tidy(SensorMap(cfg, m)) == SensorMap(cfg, Tidy(m))
  {
    var t := Tidy(m);
    assert Str(t.deviceClass) == Str(m.deviceClass) && Str(t.unit) == Str(m.unit)
        && Str(t.stateClass) == Str(m.stateClass);
    var (dc, unit, sc) := Reconcile(cfg.relations, Str(m.deviceClass), Str(m.unit), Str(m.stateClass));
    ReconcileIsCompatible(cfg.relations, Str(m.deviceClass), Str(m.unit), Str(m.stateClass));
    KeptTidies(m.deviceClass, dc);
    KeptTidies(m.unit, unit);
    KeptTidies(m.stateClass, sc);
  }

  lemma KeptTidies(was: Option<string>, left: string)
    requires left == Str(was) || left == ""
    ensures Written(Str(Kept(was, left))) == Kept(was, left) == Kept(Written(Str(was)), left)
  {
  }

  lemma SanitizeTidies(cfg: Config, p: Platform, m: Payload)
    ensures Tidy(SanitizeMap(cfg, m, p)) == SanitizeMap(cfg, Tidy(m), p)
  {
    StripTidies(cfg, p, m);
    SensorTidies(cfg, StripMap(cfg, m, p));
  }

  /** For any overrides at all, the map without its empty keys is what the other renderer produces. */
  lemma RenderersAgreeTidied(cfg: Config, e: Entity, p: Platform, device: string, order: seq<int>, other: seq<int>)
    requires Enumerates(order, e.enumeration.Keys) && Enumerates(other, e.enumeration.Keys)
    requires PlatformFor(e) == Some(p)
    ensures Tidy(MapPayload(cfg, e, p, device, order))
            == Render(cfg, device, BasicOf(cfg, e, p, DescFor(cfg, e, p, other)))
  {
    DescribedOptions(cfg, e, p, order, other);
    DescribeAgrees(cfg, e, p, device, order);
    var d0 := Describe(cfg, e, p, other);
    var m1 := EnrichMap(cfg, e, PayloadFor(cfg, e, p, device, order), p);
    EnrichAgrees(cfg, e, p, device, d0);
    LocalizeTidies(cfg, m1);
    TextTidies(cfg, e, p, LocalizeMap(cfg, m1));
    SanitizeTidies(cfg, p, TextMap(cfg, e, LocalizeMap(cfg, m1), p));
    var d1 := EnrichDesc(cfg, e, d0, p);
    LocalizeAgrees(cfg, e, p, device, d1);
    TextAgrees(cfg, e, p, device, LocalizeDesc(cfg, d1));
    SanitizeAgrees(cfg, e, p, device, TextDesc(cfg, e, LocalizeDesc(cfg, d1), p));
  }

  /** What enrichment leaves in the four keys. */
  lemma EnrichedKeys(cfg: Config, e: Entity, p: Platform, device: string, order: seq<int>)
    requires Enumerates(order, e.enumeration.Keys) && PlatformFor(e) == Some(p)
    ensures var m := EnrichMap(cfg, e, PayloadFor(cfg, e, p, device, order), p);
      var named := cfg.enrich.Some? && e.name != "";
      && (m.deviceClass == Some("") <==>
            named && cfg.enrich.value.deviceClass(e.name) == Some("") && ClassAllowed(cfg.classes, p, ""))
      && (m.unit == Some("") <==> named && cfg.enrich.value.unit(e.name) == Some(""))
      && (m.stateClass == Some("") <==> named && cfg.enrich.value.stateClass(e.name) == Some(""))
      && (e.NumericValue() ==> m.options.None? && (m.deviceClass == Some(ENUM) <==>
            named && cfg.enrich.value.deviceClass(e.name) == Some(ENUM) && ClassAllowed(cfg.classes, p, ENUM)))
  {
    PlatformsExactly(e);
    NumericIsNoEnum(e);
  }

  lemma NumericIsNoEnum(e: Entity)
    ensures e.NumericValue() ==> ClassAndUnit(e).0 != ENUM
  {
  }

  lemma WhatSanitizingLeaves(cfg: Config, m: Payload, p: Platform)
    ensures !p.Sensor? ==>
      (Tidy(SanitizeMap(cfg, m, p)) == SanitizeMap(cfg, m, p) <==>
        !(m.deviceClass == Some("") && ClassAllowed(cfg.classes, p, "")) && !(p.Number? && m.unit == Some("")))
    ensures p.Sensor? ==>
      (Tidy(SanitizeMap(cfg, m, p)) == SanitizeMap(cfg, m, p) <==>
        !(m.deviceClass == Some(ENUM) && ClassAllowed(cfg.classes, p, ENUM) && m.options.None?
          && (m.unit == Some("") || m.stateClass == Some(""))))
  {
    if p.Sensor? {
      var s := StripMap(cfg, m, p);
      ReconcileIsCompatible(cfg.relations, Str(s.deviceClass), Str(s.unit), Str(s.stateClass));
    }
  }

  /** Exactly when the two renderers agree, over all catalogues, empty overrides included. */
  lemma RenderersAgreeExactly(cfg: Config, e: Entity, p: Platform, device: string, order: seq<int>, other: seq<int>)
    requires Enumerates(order, e.enumeration.Keys) && Enumerates(other, e.enumeration.Keys)
    requires PlatformFor(e) == Some(p)
    ensures MapPayload(cfg, e, p, device, order) == Render(cfg, device, BasicOf(cfg, e, p, DescFor(cfg, e, p, other)))
      <==> !LeavesEmptyKey(cfg, e, p)
  {
    RenderersAgreeTidied(cfg, e, p, device, order, other);
    EnrichedKeys(cfg, e, p, device, order);
    var m := EnrichMap(cfg, e, PayloadFor(cfg, e, p, device, order), p);
    var t := TextMap(cfg, e, LocalizeMap(cfg, m), p);
    WhatSanitizingLeaves(cfg, t, p);
    assert !p.Sensor? || e.NumericValue() ==> t == LocalizeMap(cfg, m);
    assert p.Sensor? && !e.NumericValue() ==> t.unit.None? && t.stateClass.None?;
  }

  /** For every entity the two renderers produce the same payload, key for key: what the catalogue promises is
      more than they need. */
  lemma RenderersAgree(cfg: Config, e: Entity, p: Platform, device: string, order: seq<int>, other: seq<int>)
    requires Enumerates(order, e.enumeration.Keys) && Enumerates(other, e.enumeration.Keys)
    requires PlatformFor(e) == Some(p)
    requires cfg.enrich.Some? ==> NonEmpty(cfg.enrich.value)
    ensures MapPayload(cfg, e, p, device, order) == Render(cfg, device, BasicOf(cfg, e, p, DescFor(cfg, e, p, other)))
  {
    RenderersAgreeExactly(cfg, e, p, device, order, other);
    if cfg.enrich.Some? {
      var n := cfg.enrich.value;
      assert n.deviceClass(e.name) != Some("") && n.unit(e.name) != Some("") && n.stateClass(e.name) != Some("");
    }
  }

  // ----- what is rendered is admissible -----

  /** Home Assistant accepts the combination on this platform; `numeric` says whether the entity's state is
      a number on the wire. */
  predicate Admissible(cfg: Config, p: Platform, numeric: bool, m: Payload) {
    && (m.deviceClass.Some? ==>
          cfg.classes.Some? && p in cfg.classes.value && m.deviceClass.value in cfg.classes.value[p])
    && (m.category.Some? ==>
          m.category == Some(DIAGNOSTIC) || (m.category == Some(CONFIG) && !p.Sensor? && !p.BinarySensor?))
    && (m.unit.Some? ==> p.Sensor? || p.Number?)
    && (m.stateClass.Some? ==> p.Sensor?)
    && (m.options.Some? ==> (p.Sensor? || p.Select?) && m.options.value != [])
    && (p.Select? ==> m.options.Some?)
    && (p.Sensor? ==> SensorAdmissible(cfg, numeric, m))
    && Or(m.min, 0.0) <= Or(m.max, 100.0)
    && (m.step.Some? ==> m.step.value >= MIN_STEP)
  }

  predicate SensorAdmissible(cfg: Config, numeric: bool, m: Payload) {
    && (m.deviceClass == Some(ENUM) <==> m.options.Some?)
    && (m.options.Some? ==> m.unit.None? && m.stateClass.None?)
    && (m.options.None? ==> Compatible(cfg.relations, Str(m.deviceClass), Str(m.unit), Str(m.stateClass)))
    && (!numeric ==> m.unit.None? && m.stateClass.None?)
    && (!numeric && m.deviceClass.Some? && m.deviceClass != Some(ENUM) ==>
          cfg.relations.Some? && m.deviceClass.value !in cfg.relations.value.numeric)
  }

  /** What survives up to the last pass, whatever the enrichment. */
  lemma BeforeSanitizing(cfg: Config, e: Entity, p: Platform, order: seq<int>)
    requires Enumerates(order, e.enumeration.Keys) && PlatformFor(e) == Some(p)
    ensures var d := TextDesc(cfg, e, LocalizeDesc(cfg, EnrichDesc(cfg, e, Describe(cfg, e, p, order), p)), p);
      && HasCodes(d)
      && d.bounds == Describe(cfg, e, p, order).bounds
      && (d.options.Some? <==> p.Select? || (p.Sensor? && e.IsEnum()))
      && (p.Sensor? && !e.NumericValue() ==>
            && d.unit == "" && d.stateClass == ""
            && d.deviceClass == TextSensorClass(cfg.relations, d.deviceClass, e.IsEnum()))
  {
    DescribedOptions(cfg, e, p, order, order);
    var d := EnrichDesc(cfg, e, Describe(cfg, e, p, order), p);
    assert Unlabelled(d);
    if d.options.Some? { SortedCodes(cfg, d.options.value.codes); }
  }

  lemma SanitizedIsAdmissible(cfg: Config, p: Platform, numeric: bool, isEnum: bool, device: string, b: Basic, d: Desc)
    requires HasCodes(d) && b.desc == SanitizeDesc(cfg, d, p)
    requires d.options.Some? <==> p.Select? || (p.Sensor? && isEnum)
    requires isEnum ==> !numeric
    requires p.Sensor? && !numeric ==>
      d.unit == "" && d.stateClass == "" && d.deviceClass == TextSensorClass(cfg.relations, d.deviceClass, isEnum)
    requires Or(d.bounds.0, 0.0) <= Or(d.bounds.1, 100.0) && (d.bounds.2.Some? ==> d.bounds.2.value >= MIN_STEP)
    ensures Admissible(cfg, p, numeric, Render(cfg, device, b))
  {
    var s := StripDesc(cfg, d, p);
    if p.Sensor? {
      ReconcileIsCompatible(cfg.relations, s.deviceClass, s.unit, s.stateClass);
    }
  }

  /** Every component rendered is admissible, for any enrichment and any tables, a failed load included. */
  lemma RenderedIsAdmissible(cfg: Config, e: Entity, p: Platform, device: string, order: seq<int>)
    requires Enumerates(order, e.enumeration.Keys) && PlatformFor(e) == Some(p)
    ensures Admissible(cfg, p, e.NumericValue(), Render(cfg, device, BasicOf(cfg, e, p, DescFor(cfg, e, p, order))))
  {
    BeforeSanitizing(cfg, e, p, order);
    BoundsAreAccepted(e.bounds);
    var d := TextDesc(cfg, e, LocalizeDesc(cfg, EnrichDesc(cfg, e, Describe(cfg, e, p, order), p)), p);
    var b := BasicOf(cfg, e, p, DescFor(cfg, e, p, order));
    SanitizedIsAdmissible(cfg, p, e.NumericValue(), e.IsEnum(), device, b, d);
  }

  /** The program controls too. */
  lemma ControlIsAdmissible(cfg: Config, device: string, key: string)
    ensures Admissible(cfg, Button, false, Render(cfg, device, ControlBasic(cfg, key)))
  {
  }

  /** So is everything a device's document is rendered from; on a sensor whose state is text, see above. */
  lemma {:induction false} EveryComponentIsAdmissible(cfg: Config, device: string, entities: seq<Entity>,
      visits: seq<seq<int>>, b: Basic)
    requires Visits(entities, visits) && b in Featured(cfg, entities, visits) + Controls(cfg, entities)
    ensures Admissible(cfg, b.platform, true, Render(cfg, device, b))
    decreases |entities|
  {
    if b in Featured(cfg, entities, visits) {
      FeatureIsAdmissible(cfg, device, entities, visits, b);
    } else {
      ControlIsAdmissible(cfg, device, START_PROGRAM);
      ControlIsAdmissible(cfg, device, STOP_PROGRAM);
    }
  }

  lemma {:induction false} FeatureIsAdmissible(cfg: Config, device: string, entities: seq<Entity>,
      visits: seq<seq<int>>, b: Basic)
    requires Visits(entities, visits) && b in Featured(cfg, entities, visits)
    ensures Admissible(cfg, b.platform, true, Render(cfg, device, b))
    decreases |entities|
  {
    var n := |entities| - 1;
    if b in Featured(cfg, entities[..n], visits[..n]) {
      FeatureIsAdmissible(cfg, device, entities[..n], visits[..n], b);
    } else {
      RenderedIsAdmissible(cfg, entities[n], PlatformFor(entities[n]).value, device, visits[n]);
    }
  }

  /** Sanitising twice changes nothing, whatever was there before. */
  lemma SanitizeDescIsIdempotent(cfg: Config, d: Desc, p: Platform)
    ensures SanitizeDesc(cfg, SanitizeDesc(cfg, d, p), p) == SanitizeDesc(cfg, d, p)
  {
    var s := StripDesc(cfg, d, p);
    ReconcileIsCompatible(cfg.relations, s.deviceClass, s.unit, s.stateClass);
    if p.Sensor? {
      var t := SensorDesc(cfg, s);
      assert StripDesc(cfg, t, p) == t;
      ReconcileIsCompatible(cfg.relations, t.deviceClass, t.unit, t.stateClass);
    }
  }

  /** On a map the same holds unless an empty unit or state class was left on an `enum` sensor without
      options: the first pass drops that class and returns, the second drops the empty key. */
  lemma SanitizeMapIsIdempotent(cfg: Config, m: Payload, p: Platform)
    ensures SanitizeMap(cfg, SanitizeMap(cfg, m, p), p) == SanitizeMap(cfg, m, p)
      <==> !(p.Sensor? && m.deviceClass == Some(ENUM) && ClassAllowed(cfg.classes, p, ENUM) && m.options.None?
             && (m.unit == Some("") || m.stateClass == Some("")))
  {
    if p.Sensor? {
      var s := StripMap(cfg, m, p);
      if s.deviceClass == Some(ENUM) { EnumSensorAgain(cfg, s, p); } else { SensorAgain(cfg, s, p); }
    }
  }

  lemma EnumSensorAgain(cfg: Config, s: Payload, p: Platform)
    requires p.Sensor? && s.deviceClass == Some(ENUM) && StripMap(cfg, s, p) == s
    ensures var t := SensorMap(cfg, s);
      SensorMap(cfg, StripMap(cfg, t, p)) == t <==>
      !(s.options.None? && (s.unit == Some("") || s.stateClass == Some("")))
  {
    var t := SensorMap(cfg, s);
    assert StripMap(cfg, t, p) == t;
  }

  lemma SensorAgain(cfg: Config, s: Payload, p: Platform)
    requires p.Sensor? && s.deviceClass != Some(ENUM) && StripMap(cfg, s, p) == s
    ensures var t := SensorMap(cfg, s);
      SensorMap(cfg, StripMap(cfg, t, p)) == t
  {
    ReconcileIsCompatible(cfg.relations, Str(s.deviceClass), Str(s.unit), Str(s.stateClass));
    var t := SensorMap(cfg, s);
    assert StripMap(cfg, t, p) == t;
    ReconcileIsCompatible(cfg.relations, Str(t.deviceClass), Str(t.unit), Str(t.stateClass));
  }

  // ----- what an entity is shown as -----

  /** What the operator says of an entity; nothing of one without a name. */
  function Overrides(cfg: Config, e: Entity): Enricher {
    if cfg.enrich.None? || e.name == "" then NoOverrides() else cfg.enrich.value
  }

  /** Disabled at first: what the operator disables, and what is not primary unless the operator enables it. */
  predicate Hidden(cfg: Config, e: Entity) {
    var said := Overrides(cfg, e).enabled(e.name);
    said == Some(false) || (said != Some(true) && !IsPrimary(e))
  }

  /** An override replaces a value where the platform takes it. */
  function Chosen(said: Option<string>, its: string, takes: string -> bool): string {
    if said.Some? && takes(said.value) then said.value else its
  }

  /** The class the platform is left with before a sensor's own rules: none, when it does not declare it. */
  function ChosenClass(cfg: Config, e: Entity, p: Platform, its: string): string {
    var dc := Chosen(Overrides(cfg, e).deviceClass(e.name), its, c => ClassAllowed(cfg.classes, p, c));
    if ClassAllowed(cfg.classes, p, dc) then dc else ""
  }

  lemma EnrichedExactly(cfg: Config, e: Entity, d: Desc, p: Platform)
    ensures var r, n, f := EnrichDesc(cfg, e, d, p), Overrides(cfg, e), e.name;
      && (r.options, r.bounds, r.extra) == (d.options, d.bounds, d.extra)
      && r.name == Overridden(d.name, n.name(f))
      && r.unit == Overridden(d.unit, n.unit(f))
      && r.stateClass == Overridden(d.stateClass, n.stateClass(f))
      && r.category == Chosen(n.category(f), d.category, c => CategoryAllowed(p, c))
      && StripDesc(cfg, r, p).deviceClass == ChosenClass(cfg, e, p, d.deviceClass)
    ensures d.enabled == (if IsPrimary(e) then None else Some(false)) ==>
      (EnrichDesc(cfg, e, d, p).enabled == Some(false) <==> Hidden(cfg, e))
  {
  }

  lemma LastPassKeeps(cfg: Config, d: Desc, p: Platform)
    ensures var r := SanitizeDesc(cfg, d, p);
      && (r.name, r.enabled, r.bounds, r.extra) == (d.name, d.enabled, d.bounds, d.extra)
      && r.category == RenderableCategory(p, d.category)
      && (p.Number? ==> r.unit == d.unit)
      && (!p.Sensor? ==> r.deviceClass == StripDesc(cfg, d, p).deviceClass && r.options == d.options)
  {
  }

  lemma LocalizedExactly(cfg: Config, d: Desc)
    requires Unlabelled(d)
    ensures var r := LocalizeDesc(cfg, d);
      && r == d.(options := r.options)
      && Shown(r.options) == if d.options.None? then None
                             else Some(Sort(Collated(cfg.fold), Map(cfg.nameOf, d.options.value.codes)))
  {
    if d.options.Some? {
      SortedCodes(cfg, d.options.value.codes);
      ShownLabels(cfg.nameOf, Sort(By(Collated(cfg.fold), cfg.nameOf), d.options.value.codes));
    }
  }

  /** The passes together: what is shown of an entity is the operator's word where there is one the platform takes, and
      otherwise what its description says. */
  lemma ShownExactly(cfg: Config, e: Entity, p: Platform, device: string, order: seq<int>)
    requires Enumerates(order, e.enumeration.Keys) && PlatformFor(e) == Some(p)
    ensures var r, n, f :=
      Render(cfg, device, BasicOf(cfg, e, p, DescFor(cfg, e, p, order))), Overrides(cfg, e), e.name;
      && r.name == Overridden(cfg.humanize(e), n.name(f))
      && r.enabled == (if Hidden(cfg, e) then Some(false) else None)
      && Str(r.category)
           == RenderableCategory(p, Chosen(n.category(f), CategoryFor(e), c => CategoryAllowed(p, c)))
      && (r.stateTopic <==> !p.Button?)
      && (r.commandTopic <==> p.Button? || p.Switch? || p.Select? || p.Number?)
      && (r.min, r.max, r.step) == (if p.Number? then NumberBounds(e.bounds) else (None, None, None))
  {
    CommandableExactly(e, p);
    DescribedOptions(cfg, e, p, order, order);
    var d := Describe(cfg, e, p, order);
    EnrichedExactly(cfg, e, d, p);
    LocalizedExactly(cfg, EnrichDesc(cfg, e, d, p));
    LastPassKeeps(cfg, TextDesc(cfg, e, LocalizeDesc(cfg, EnrichDesc(cfg, e, d, p)), p), p);
  }

  /** Off a sensor the class, unit and options too. */
  lemma ControlShownExactly(cfg: Config, e: Entity, p: Platform, device: string, order: seq<int>)
    requires Enumerates(order, e.enumeration.Keys) && PlatformFor(e) == Some(p) && !p.Sensor?
    ensures var r, n, f :=
      Render(cfg, device, BasicOf(cfg, e, p, DescFor(cfg, e, p, order))), Overrides(cfg, e), e.name;
      && Str(r.deviceClass) == ChosenClass(cfg, e, p, ClassAndUnit(e).0)
      && Str(r.unit) == (if p.Number? then Overridden(ClassAndUnit(e).1, n.unit(f)) else "")
      && r.stateClass == None
      && r.options == (if p.Select?
                       then Some(Sort(Collated(cfg.fold), Map(cfg.nameOf, Members(e.enumeration, order)))) else None)
  {
    DescribedOptions(cfg, e, p, order, order);
    var d := Describe(cfg, e, p, order);
    EnrichedExactly(cfg, e, d, p);
    LocalizedExactly(cfg, EnrichDesc(cfg, e, d, p));
    LastPassKeeps(cfg, TextDesc(cfg, e, LocalizeDesc(cfg, EnrichDesc(cfg, e, d, p)), p), p);
    if p.Select? { SortedLabels(cfg, Members(e.enumeration, order)); }
  }

  /** A sensor of numbers shows its class, unit and state class as far as the three can stand together.  An override
      cannot make an enumeration of it. */
  lemma NumericSensorShownExactly(cfg: Config, e: Entity, device: string, order: seq<int>)
    requires Enumerates(order, e.enumeration.Keys) && PlatformFor(e) == Some(Sensor) && e.NumericValue()
    ensures var r, n, f :=
      Render(cfg, device, BasicOf(cfg, e, Sensor, DescFor(cfg, e, Sensor, order))), Overrides(cfg, e), e.name;
      var dc, unit := ChosenClass(cfg, e, Sensor, ClassAndUnit(e).0), Overridden(ClassAndUnit(e).1, n.unit(f));
      var sc := Overridden(StateClassFor(e, Sensor), n.stateClass(f));
      && (Str(r.deviceClass), Str(r.unit), Str(r.stateClass))
           == (if dc == ENUM then ("", unit, sc) else Reconcile(cfg.relations, dc, unit, sc))
      && r.options == None
  {
    var d := Describe(cfg, e, Sensor, order);
    EnrichedExactly(cfg, e, d, Sensor);
    assert LocalizeDesc(cfg, EnrichDesc(cfg, e, d, Sensor)) == EnrichDesc(cfg, e, d, Sensor);
  }

  /** An enumeration shows its class and its labels, unless the platform does not declare enumerations. */
  lemma EnumSensorShownExactly(cfg: Config, e: Entity, device: string, order: seq<int>)
    requires Enumerates(order, e.enumeration.Keys) && PlatformFor(e) == Some(Sensor) && e.IsEnum()
    ensures var r := Render(cfg, device, BasicOf(cfg, e, Sensor, DescFor(cfg, e, Sensor, order)));
      var enum := ClassAllowed(cfg.classes, Sensor, ENUM);
      && r.unit == None && r.stateClass == None
      && r.deviceClass == (if enum then Some(ENUM) else None)
      && r.options == (if !enum then None
                       else Some(Sort(Collated(cfg.fold), Map(cfg.nameOf, Members(e.enumeration, order)))))
  {
    DescribedOptions(cfg, e, Sensor, order, order);
    var d := EnrichDesc(cfg, e, Describe(cfg, e, Sensor, order), Sensor);
    LocalizedExactly(cfg, d);
    EnumSanitized(cfg, TextDesc(cfg, e, LocalizeDesc(cfg, d), Sensor));
    SortedLabels(cfg, Members(e.enumeration, order));
  }

  lemma EnumSanitized(cfg: Config, d: Desc)
    requires d.deviceClass == ENUM && d.unit == "" && d.stateClass == ""
    ensures var r, enum := SanitizeDesc(cfg, d, Sensor), ClassAllowed(cfg.classes, Sensor, ENUM);
      && r.unit == "" && r.stateClass == ""
      && r.deviceClass == (if enum && d.options.Some? then ENUM else "")
      && r.options == (if enum then d.options else None)
  {
  }

  /** Any other text shows what is left of its class, without unit and state class. */
  lemma TextSensorShownExactly(cfg: Config, e: Entity, device: string, order: seq<int>)
    requires Enumerates(order, e.enumeration.Keys) && PlatformFor(e) == Some(Sensor)
    requires !e.NumericValue() && !e.IsEnum()
    ensures var r := Render(cfg, device, BasicOf(cfg, e, Sensor, DescFor(cfg, e, Sensor, order)));
      var dc := ChosenClass(cfg, e, Sensor, ClassAndUnit(e).0);
      && r.unit == None && r.stateClass == None && r.options == None
      && Str(r.deviceClass) == (if dc == ENUM then "" else TextSensorClass(cfg.relations, dc, false))
  {
    var d := Describe(cfg, e, Sensor, order);
    EnrichedExactly(cfg, e, d, Sensor);
    assert LocalizeDesc(cfg, EnrichDesc(cfg, e, d, Sensor)) == EnrichDesc(cfg, e, d, Sensor);
  }

  /** Sorting the members first makes no difference to the sorted labels. */
  lemma SortedLabels(cfg: Config, xs: seq<string>)
    ensures var le, name := Collated(cfg.fold), cfg.nameOf;
      Sort(le, Map(name, Sort(Plain(), xs))) == Sort(le, Map(name, xs))
  {
    PlainIsOrder();
    SortSorts(Plain(), xs);
    CollatedIsOrder(cfg.fold);
    MapKeepsCounts(cfg.nameOf, Sort(Plain(), xs), xs);
    var le, s, t := Collated(cfg.fold), Map(cfg.nameOf, Sort(Plain(), xs)), Map(cfg.nameOf, xs);
    SortSorts(le, s);
    SortSorts(le, t);
    OneArrangement(le, Sort(le, s), Sort(le, t));
  }

  // ----- the device -----

  datatype Row = Row(platform: Platform, key: string, payload: Payload)

  const START_PROGRAM: string := "start_program"
  const STOP_PROGRAM: string := "stop_program"

  predicate Excluded(cfg: Config, e: Entity) {
    cfg.enrich.Some? && e.name != "" && cfg.enrich.value.excluded(e.name)
  }

  /** hamqttModel's loop body: nothing for an excluded, unclassified or curated-out entity. */
  function BasicFor(cfg: Config, e: Entity, order: seq<int>): Option<Basic>
    requires Enumerates(order, e.enumeration.Keys)
  {
    if Excluded(cfg, e) || PlatformFor(e).None? then None
    else
      var p := PlatformFor(e).value;
      var d := DescFor(cfg, e, p, order);
      if cfg.curated && d.enabled == Some(false) then None else Some(BasicOf(cfg, e, p, d))
  }

  /** PublishDevice's loop body. */
  function RowFor(cfg: Config, e: Entity, device: string, order: seq<int>): Option<Row>
    requires Enumerates(order, e.enumeration.Keys)
  {
    if Excluded(cfg, e) || PlatformFor(e).None? then None
    else
      var p := PlatformFor(e).value;
      var m := MapPayload(cfg, e, p, device, order);
      if cfg.curated && m.enabled == Some(false) then None else Some(Row(p, cfg.keyOf(e), m))
  }

  function RowOf(cfg: Config, device: string): Basic -> Row {
    (b: Basic) => Row(b.platform, b.key, Render(cfg, device, b))
  }

  /** One visiting order for each entity's enumeration. */
  ghost predicate Visits(entities: seq<Entity>, visits: seq<seq<int>>) {
    && |visits| == |entities|
    && (forall i :: 0 <= i < |entities| ==> Enumerates(visits[i], entities[i].enumeration.Keys))
  }

  function Featured(cfg: Config, entities: seq<Entity>, visits: seq<seq<int>>): seq<Basic>
    requires Visits(entities, visits)
  {
    if entities == [] then []
    else
      var n := |entities| - 1;
      var b := BasicFor(cfg, entities[n], visits[n]);
      Featured(cfg, entities[..n], visits[..n]) + if b.Some? then [b.value] else []
  }

  function FeatureRows(cfg: Config, device: string, entities: seq<Entity>, visits: seq<seq<int>>): seq<Row>
    requires Visits(entities, visits)
  {
    if entities == [] then []
    else
      var n := |entities| - 1;
      var r := RowFor(cfg, entities[n], device, visits[n]);
      FeatureRows(cfg, device, entities[..n], visits[..n]) + if r.Some? then [r.value] else []
  }

  /** What discovery exposes: every entity with a platform that the operator does not exclude and, in curated mode, that
      is not hidden. */
  lemma KeptExactly(cfg: Config, e: Entity, order: seq<int>)
    requires Enumerates(order, e.enumeration.Keys)
    ensures BasicFor(cfg, e, order).Some? <==>
      PlatformFor(e).Some? && !Overrides(cfg, e).excluded(e.name) && (cfg.curated ==> !Hidden(cfg, e))
  {
    if PlatformFor(e).Some? { ShownExactly(cfg, e, PlatformFor(e).value, "", order); }
  }

  /** And nothing else is in a device's document, the program controls aside. */
  lemma FeaturedExactly(cfg: Config, entities: seq<Entity>, visits: seq<seq<int>>, b: Basic)
    requires Visits(entities, visits)
    ensures b in Featured(cfg, entities, visits) <==>
      exists i :: 0 <= i < |entities| && BasicFor(cfg, entities[i], visits[i]) == Some(b)
  {
    var each := seq(|entities|, i requires 0 <= i < |entities| => BasicFor(cfg, entities[i], visits[i]));
    FeaturedIsPresent(cfg, entities, visits, each);
    PresentIs(each, b);
  }

  /** What is there of some options, in order. */
  function Present<T>(xs: seq<Option<T>>): seq<T> {
    if xs == [] then []
    else Present(xs[..|xs| - 1]) + if xs[|xs| - 1].Some? then [xs[|xs| - 1].value] else []
  }

  lemma {:induction false} PresentIs<T>(xs: seq<Option<T>>, x: T)
    ensures x in Present(xs) <==> Some(x) in xs
  {
    if xs != [] { PresentIs(xs[..|xs| - 1], x); }
  }

  lemma {:induction false} FeaturedIsPresent(cfg: Config, entities: seq<Entity>, visits: seq<seq<int>>,
      each: seq<Option<Basic>>)
    requires Visits(entities, visits) && |each| == |entities|
    requires forall i :: 0 <= i < |each| ==> each[i] == BasicFor(cfg, entities[i], visits[i])
    ensures Featured(cfg, entities, visits) == Present(each)
  {
    if entities != [] {
      var n := |entities| - 1;
      FeaturedIsPresent(cfg, entities[..n], visits[..n], each[..n]);
    }
  }

  predicate RunsPrograms(entities: seq<Entity>) {
    exists i :: 0 <= i < |entities| && (entities[i].kind.ActiveProgram? || entities[i].kind.SelectedProgram?)
  }

  function ControlName(cfg: Config, key: string): string {
    if key == START_PROGRAM then (if cfg.lang == "de" then "Programm starten" else "Start program")
    else (if cfg.lang == "de" then "Programm stoppen" else "Stop program")
  }

  function ControlBasic(cfg: Config, key: string): Basic {
    var d := Desc(ControlName(cfg, key), "", "", "", "", None, None, (None, None, None), Press("PRESS"));
    Basic(key, Button, SanitizeDesc(cfg, d, Button), false, true)
  }

  function ControlRow(cfg: Config, device: string, key: string): Row {
    var base := BasePayload(cfg, Button, device, key, ControlName(cfg, key));
    Row(Button, key, SanitizeMap(cfg, base.(commandTopic := true, payloadPress := Some("PRESS")), Button))
  }

  /** What sets a program control apart from the button of a command. */
  lemma ControlsStandApart(cfg: Config, device: string, key: string)
    ensures var r := Render(cfg, device, ControlBasic(cfg, key));
      && r.payloadPress == Some("PRESS") && r.payloadOn == None && r.payloadOff == None
      && r.category == None && r.enabled == None
      && r.commandTopic && !r.stateTopic
      && r.deviceClass == None && r.unit == None && r.stateClass == None && r.options == None
  {
    assert StripDesc(cfg, ControlBasic(cfg, key).desc, Button) == ControlBasic(cfg, key).desc;
  }

  function Controls(cfg: Config, entities: seq<Entity>): seq<Basic> {
    if RunsPrograms(entities) then [ControlBasic(cfg, START_PROGRAM), ControlBasic(cfg, STOP_PROGRAM)] else []
  }

  function ControlRows(cfg: Config, device: string, entities: seq<Entity>): seq<Row> {
    if RunsPrograms(entities)
    then [ControlRow(cfg, device, START_PROGRAM), ControlRow(cfg, device, STOP_PROGRAM)] else []
  }

  lemma ControlsAgree(cfg: Config, device: string, key: string)
    ensures ControlRow(cfg, device, key) == RowOf(cfg, device)(ControlBasic(cfg, key))
  {
    var d := Desc(ControlName(cfg, key), "", "", "", "", None, None, (None, None, None), Press("PRESS"));
    var base := BasePayload(cfg, Button, device, key, ControlName(cfg, key));
    var m := base.(commandTopic := true, payloadPress := Some("PRESS"));
    assert StripMap(cfg, m, Button) == m && StripDesc(cfg, d, Button) == d;
  }

  lemma EntityAgrees(cfg: Config, e: Entity, device: string, order: seq<int>, other: seq<int>)
    requires Enumerates(order, e.enumeration.Keys) && Enumerates(other, e.enumeration.Keys)
    requires cfg.enrich.Some? ==> NonEmpty(cfg.enrich.value)
    ensures var r, b := RowFor(cfg, e, device, order), BasicFor(cfg, e, other);
      && (r.Some? <==> b.Some?)
      && (r.Some? ==> r.value == RowOf(cfg, device)(b.value))
  {
    if PlatformFor(e).Some? { RenderersAgree(cfg, e, PlatformFor(e).value, device, order, other); }
  }

  lemma {:induction false} FeaturesAgree(cfg: Config, device: string, entities: seq<Entity>, visits: seq<seq<int>>,
      others: seq<seq<int>>)
    requires Visits(entities, visits) && Visits(entities, others)
    requires cfg.enrich.Some? ==> NonEmpty(cfg.enrich.value)
    ensures FeatureRows(cfg, device, entities, visits) == Map(RowOf(cfg, device), Featured(cfg, entities, others))
  {
    if entities != [] {
      var n := |entities| - 1;
      FeaturesAgree(cfg, device, entities[..n], visits[..n], others[..n]);
      EntityAgrees(cfg, entities[n], device, visits[n], others[n]);
      var b := BasicFor(cfg, entities[n], others[n]);
      if b.Some? {
        MapConcat(RowOf(cfg, device), Featured(cfg, entities[..n], others[..n]), [b.value]);
        assert Map(RowOf(cfg, device), [b.value]) == [RowOf(cfg, device)(b.value)];
      }
    }
  }

  lemma AllControlsAgree(cfg: Config, device: string, entities: seq<Entity>)
    ensures ControlRows(cfg, device, entities) == Map(RowOf(cfg, device), Controls(cfg, entities))
  {
    ControlsAgree(cfg, device, START_PROGRAM);
    ControlsAgree(cfg, device, STOP_PROGRAM);
    var f, a, b := RowOf(cfg, device), ControlBasic(cfg, START_PROGRAM), ControlBasic(cfg, STOP_PROGRAM);
    MapPair(f, a, b);
  }

  lemma MapPair<A, B>(f: A -> B, a: A, b: A)
    ensures Map(f, [a, b]) == [f(a), f(b)]
  {
  }

  /** The shipping renderer keeps the same entities in the same order as the map builder, program controls
      included, and renders each to the same payload. */
  lemma DevicesAgree(cfg: Config, device: string, entities: seq<Entity>, visits: seq<seq<int>>, others: seq<seq<int>>)
    requires Visits(entities, visits) && Visits(entities, others)
    requires cfg.enrich.Some? ==> NonEmpty(cfg.enrich.value)
    ensures FeatureRows(cfg, device, entities, visits) + ControlRows(cfg, device, entities)
         == Map(RowOf(cfg, device), Featured(cfg, entities, others) + Controls(cfg, entities))
  {
    FeaturesAgree(cfg, device, entities, visits, others);
    AllControlsAgree(cfg, device, entities);
    MapConcat(RowOf(cfg, device), Featured(cfg, entities, others), Controls(cfg, entities));
  }

  // ----- under the catalogue -----

  /** The daemon runs with a catalogue of feature mappings, or with none. */
  ghost predicate UsesCatalog(cfg: Config, m: map<string, FeatureMapping>, lang: string) {
    cfg.enrich.Some? ==> cfg.enrich == Some(FromCatalog(m, lang))
  }

  /** Whatever the catalogue holds, the two renderers publish the same rows. */
  lemma DevicesAgreeUnderTheCatalog(cfg: Config, m: map<string, FeatureMapping>, lang: string, device: string,
      entities: seq<Entity>, visits: seq<seq<int>>, others: seq<seq<int>>)
    requires UsesCatalog(cfg, m, lang) && Visits(entities, visits) && Visits(entities, others)
    ensures FeatureRows(cfg, device, entities, visits) + ControlRows(cfg, device, entities)
         == Map(RowOf(cfg, device), Featured(cfg, entities, others) + Controls(cfg, entities))
  {
    CatalogIsNonEmpty(m, lang);
    DevicesAgree(cfg, device, entities, visits, others);
  }

  /** And a payload, once rendered, is left alone by the sanitiser. */
  lemma PayloadsAreStableUnderTheCatalog(cfg: Config, m: map<string, FeatureMapping>, lang: string, e: Entity,
      p: Platform, device: string, order: seq<int>)
    requires UsesCatalog(cfg, m, lang) && Enumerates(order, e.enumeration.Keys) && PlatformFor(e) == Some(p)
    ensures SanitizeMap(cfg, MapPayload(cfg, e, p, device, order), p) == MapPayload(cfg, e, p, device, order)
  {
    CatalogIsNonEmpty(m, lang);
    EnrichedKeys(cfg, e, p, device, order);
    var enriched := EnrichMap(cfg, e, PayloadFor(cfg, e, p, device, order), p);
    var x := TextMap(cfg, e, LocalizeMap(cfg, enriched), p);
    assert x.unit != Some("") && x.stateClass != Some("");
    SanitizeMapIsIdempotent(cfg, x, p);
  }
}
