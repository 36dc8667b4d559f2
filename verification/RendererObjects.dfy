// The renderers as the program runs them: a Description and a payload edited in place, and the two loops
// over an appliance's entities (internal/hass/hamqtt.go, internal/hass/discovery.go).
module RendererObjects {
  import opened Prelude
  import opened Sorting
  import opened Classify
  import opened Renderers

  /** Only a code that is not its own label gets one. */
  method BuildLabels(codes: seq<string>, nameOf: string -> string) returns (labels: map<string, string>)
    ensures labels == LabelsFor(codes, nameOf)
  {
    labels := map[];
    for i := 0 to |codes|
      invariant forall c :: c in labels <==> c in codes[..i] && nameOf(c) != c
      invariant forall c :: c in labels ==> labels[c] == nameOf(c)
    {
      assert codes[..i + 1] == codes[..i] + [codes[i]];
      if nameOf(codes[i]) != codes[i] { labels := labels[codes[i] := nameOf(codes[i])]; }
    }
    assert codes[..|codes|] == codes;
  }

  /** model.Description, edited through a pointer. */
  class Description {
    var name: string
    var deviceClass: string
    var unit: string
    var stateClass: string
    var category: string
    var enabled: Option<bool>
    var options: Option<Enum>
    const bounds: (Option<real>, Option<real>, Option<real>)
    const extra: Extra

    ghost function Value(): Desc
      reads this
    {
      Desc(name, deviceClass, unit, stateClass, category, enabled, options, bounds, extra)
    }

    constructor Describe(cfg: Config, e: Entity, p: Platform, order: seq<int>)
      requires Enumerates(order, e.enumeration.Keys)
      ensures Value() == Renderers.Describe(cfg, e, p, order)
    {
      var (dc, u) := ClassAndUnit(e);
      name, deviceClass, unit := cfg.humanize(e), dc, u;
      stateClass, category := StateClassFor(e, p), CategoryFor(e);
      enabled, options, bounds, extra := None, None, (None, None, None), NoExtra;
      match p {
        case Switch => extra := OnOff("true", "false");
        case BinarySensor =>
          if e.kind.Event? {
            extra := OnOff("Present", "Off");
          } else {
            extra := OnOff("true", "false");
          }
        case Button => extra := Press("true");
        case Select =>
          var codes := EnumOptions(e.enumeration, order);
          options := Some(Enum(codes, map[]));
        case Sensor =>
          if e.IsEnum() {
            var codes := EnumOptions(e.enumeration, order);
            options := Some(Enum(codes, map[]));
          }
        case Number => bounds := NumberBounds(e.bounds);
      }
      if !IsPrimary(e) { enabled := Some(false); }
    }

    method Enrich(cfg: Config, e: Entity, p: Platform)
      modifies this
      ensures Value() == EnrichDesc(cfg, e, old(Value()), p)
    {
      if cfg.enrich.None? || e.name == "" { return; }
      EnrichPlain(cfg.enrich.value, e.name);
      EnrichChecked(cfg.enrich.value, e.name, cfg.classes, p);
    }

    /** The overrides every platform takes. */
    method EnrichPlain(n: Enricher, f: string)
      modifies `name, `unit, `stateClass
      ensures name == Overridden(old(name), n.name(f))
      ensures unit == Overridden(old(unit), n.unit(f))
      ensures stateClass == Overridden(old(stateClass), n.stateClass(f))
    {
      if n.name(f).Some? { name := n.name(f).value; }
      if n.unit(f).Some? { unit := n.unit(f).value; }
      if n.stateClass(f).Some? { stateClass := n.stateClass(f).value; }
    }

    /** The class and the category are refused where the platform does not declare them. */
    method EnrichChecked(n: Enricher, f: string, classes: ClassTable, p: Platform)
      modifies `deviceClass, `category, `enabled
      ensures deviceClass ==
        if n.deviceClass(f).Some? && ClassAllowed(classes, p, n.deviceClass(f).value)
        then n.deviceClass(f).value else old(deviceClass)
      ensures category ==
        if n.category(f).Some? && CategoryAllowed(p, n.category(f).value) then n.category(f).value else old(category)
      ensures enabled == if n.enabled(f).None? then old(enabled) else if n.enabled(f).value then None else Some(false)
    {
      if n.deviceClass(f).Some? && ClassAllowed(classes, p, n.deviceClass(f).value) {
        deviceClass := n.deviceClass(f).value;
      }
      if n.category(f).Some? && CategoryAllowed(p, n.category(f).value) { category := n.category(f).value; }
      if n.enabled(f).Some? { enabled := if n.enabled(f).value then None else Some(false); }
    }

    method LocalizeOptions(cfg: Config)
      modifies this
      ensures Value() == LocalizeDesc(cfg, old(Value()))
    {
      if options.None? { return; }
      var codes := Sort(By(Collated(cfg.fold), cfg.nameOf), options.value.codes);
      var labels := BuildLabels(codes, cfg.nameOf);
      options := Some(Enum(codes, labels));
    }

    /** The clause of hamqttModel for a sensor whose state is text. */
    method ClearNumeric(cfg: Config, e: Entity, p: Platform)
      modifies this
      ensures Value() == TextDesc(cfg, e, old(Value()), p)
    {
      if p.Sensor? && !e.NumericValue() {
        deviceClass := TextSensorClass(cfg.relations, deviceClass, e.IsEnum());
        unit, stateClass := "", "";
      }
    }

    method SanitizeForPlatform(cfg: Config, p: Platform)
      modifies this
      ensures Value() == SanitizeDesc(cfg, old(Value()), p)
    {
      if deviceClass != "" && !ClassAllowed(cfg.classes, p, deviceClass) { deviceClass := ""; }
      category := RenderableCategory(p, category);
      if !p.Sensor? && !p.Number? { unit := ""; }
      if !p.Sensor? {
        stateClass := "";
        return;
      }
      if deviceClass == ENUM {
        if options.None? {
          deviceClass := "";
          return;
        }
        unit, stateClass := "", "";
        return;
      }
      options := None;
      var (dc, u, sc) := Reconcile(cfg.relations, deviceClass, unit, stateClass);
      deviceClass, unit, stateClass := dc, u, sc;
    }
  }

  /** The payload map, whose keys are added and deleted one by one. */
  class PayloadMap {
    var m: Payload

    constructor (cfg: Config, e: Entity, p: Platform, device: string, order: seq<int>)
      requires Enumerates(order, e.enumeration.Keys)
      ensures m == PayloadFor(cfg, e, p, device, order)
    {
      var (dc, u) := ClassAndUnit(e);
      var on, off, options := None, None, None;
      var bounds := (None, None, None);
      match p {
        case Switch => on, off := Some("true"), Some("false");
        case BinarySensor =>
          if e.kind.Event? {
            on, off := Some("Present"), Some("Off");
          } else {
            on, off := Some("true"), Some("false");
          }
        case Select =>
          var codes := EnumOptions(e.enumeration, order);
          options := Some(codes);
        case Sensor =>
          if e.IsEnum() {
            var codes := EnumOptions(e.enumeration, order);
            options := Some(codes);
          }
        case Number => bounds := NumberBounds(e.bounds);
        case Button =>
      }
      m := BasePayload(cfg, p, device, cfg.keyOf(e), cfg.humanize(e)).(
        stateTopic := !p.Button?,
        commandTopic := p.Button? || Commandable(e, p),
        payloadPress := if p.Button? then Some("true") else None,
        payloadOn := on,
        payloadOff := off,
        options := options,
        min := bounds.0,
        max := bounds.1,
        step := bounds.2,
        deviceClass := Written(dc),
        unit := Written(u),
        stateClass := Written(StateClassFor(e, p)),
        category := Written(CategoryFor(e)),
        enabled := if IsPrimary(e) then None else Some(false));
    }

    method Enrich(cfg: Config, e: Entity, p: Platform)
      modifies this
      ensures m == EnrichMap(cfg, e, old(m), p)
    {
      if cfg.enrich.None? || e.name == "" { return; }
      EnrichPlain(cfg.enrich.value, e.name);
      EnrichChecked(cfg.enrich.value, e.name, cfg.classes, p);
    }

    /** The overrides every platform takes. */
    method EnrichPlain(n: Enricher, f: string)
      modifies this
      ensures m == old(m).(name := Overridden(old(m).name, n.name(f)), unit := Overlay(old(m).unit, n.unit(f)),
                           stateClass := Overlay(old(m).stateClass, n.stateClass(f)))
    {
      if n.name(f).Some? { m := m.(name := n.name(f).value); }
      if n.unit(f).Some? { m := m.(unit := n.unit(f)); }
      if n.stateClass(f).Some? { m := m.(stateClass := n.stateClass(f)); }
    }

    /** The class and the category are refused where the platform does not declare them. */
    method EnrichChecked(n: Enricher, f: string, classes: ClassTable, p: Platform)
      modifies this
      ensures m == old(m).(
        deviceClass := if n.deviceClass(f).Some? && ClassAllowed(classes, p, n.deviceClass(f).value)
                       then n.deviceClass(f) else old(m).deviceClass,
        category := if n.category(f).Some? && CategoryAllowed(p, n.category(f).value)
                    then n.category(f) else old(m).category,
        enabled := if n.enabled(f).None? then old(m).enabled else if n.enabled(f).value then None else Some(false))
    {
      if n.deviceClass(f).Some? && ClassAllowed(classes, p, n.deviceClass(f).value) {
        m := m.(deviceClass := n.deviceClass(f));
      }
      if n.category(f).Some? && CategoryAllowed(p, n.category(f).value) { m := m.(category := n.category(f)); }
      if n.enabled(f).Some? { m := m.(enabled := if n.enabled(f).value then None else Some(false)); }
    }

    method LocalizeOptions(cfg: Config)
      modifies this
      ensures m == LocalizeMap(cfg, old(m))
    {
      if m.options.None? { return; }
      var opts := m.options.value;
      var loc: seq<string> := [];
      for i := 0 to |opts|
        invariant loc == Map(cfg.nameOf, opts[..i])
      {
        assert opts[..i + 1][..i] == opts[..i];
        loc := loc + [cfg.nameOf(opts[i])];
      }
      assert opts[..|opts|] == opts;
      m := m.(options := Some(Sort(Collated(cfg.fold), loc)));
    }

    /** The clause of PublishDevice for a sensor whose state is text. */
    method ClearNumeric(cfg: Config, e: Entity, p: Platform)
      modifies this
      ensures m == TextMap(cfg, e, old(m), p)
    {
      if p.Sensor? && !e.NumericValue() {
        var dc := TextSensorClass(cfg.relations, Str(m.deviceClass), e.IsEnum());
        m := m.(unit := None, stateClass := None);
        if dc == "" {
          m := m.(deviceClass := None);
        } else {
          m := m.(deviceClass := Some(dc));
        }
      }
    }

    method SanitizeForPlatform(cfg: Config, p: Platform)
      modifies this
      ensures m == SanitizeMap(cfg, old(m), p)
    {
      StripForPlatform(cfg, p);
      if !p.Sensor? { return; }
      if m.deviceClass == Some(ENUM) {
        if m.options.None? {
          m := m.(deviceClass := None);
          return;
        }
        m := m.(unit := None, stateClass := None);
        return;
      }
      var (dc, u, sc) := Reconcile(cfg.relations, Str(m.deviceClass), Str(m.unit), Str(m.stateClass));
      m := m.(options := None, deviceClass := Kept(m.deviceClass, dc), unit := Kept(m.unit, u),
          stateClass := Kept(m.stateClass, sc));
    }

    method StripForPlatform(cfg: Config, p: Platform)
      modifies this
      ensures m == StripMap(cfg, old(m), p)
    {
      var dc, cat, u, sc := m.deviceClass, m.category, m.unit, m.stateClass;
      if dc.Some? && !ClassAllowed(cfg.classes, p, dc.value) { dc := None; }
      if cat.Some? {
        var c := RenderableCategory(p, cat.value);
        cat := if c == "" then None else Some(c);
      }
      if !p.Sensor? && !p.Number? { u := None; }
      if !p.Sensor? { sc := None; }
      m := m.(deviceClass := dc, category := cat, unit := u, stateClass := sc);
    }
  }

  /** How many entities the curated filter drops. */
  ghost function CuratedOut(cfg: Config, entities: seq<Entity>, visits: seq<seq<int>>): nat
    requires Visits(entities, visits)
  {
    if entities == [] then 0
    else
      var n := |entities| - 1;
      var e := entities[n];
      CuratedOut(cfg, entities[..n], visits[..n]) +
      (if !Excluded(cfg, e) && PlatformFor(e).Some? && BasicFor(cfg, e, visits[n]).None? then 1 else 0)
  }

  method HasPrograms(entities: seq<Entity>) returns (r: bool)
    ensures r == RunsPrograms(entities)
  {
    r := false;
    for i := 0 to |entities|
      invariant !r && !RunsPrograms(entities[..i])
    {
      if entities[i].kind.ActiveProgram? || entities[i].kind.SelectedProgram? { return true; }
    }
  }

  /** One turn of hamqttModel's loop. */
  method ModelOne(cfg: Config, e: Entity, order: seq<int>) returns (b: Option<Basic>, curated: bool)
    requires Enumerates(order, e.enumeration.Keys)
    ensures b == BasicFor(cfg, e, order)
    ensures curated <==> !Excluded(cfg, e) && PlatformFor(e).Some? && b.None?
  {
    if Excluded(cfg, e) { return None, false; }
    if PlatformFor(e).None? { return None, false; }
    var p := PlatformFor(e).value;
    var d := new Description.Describe(cfg, e, p, order);
    d.Enrich(cfg, e, p);
    d.LocalizeOptions(cfg);
    d.ClearNumeric(cfg, e, p);
    d.SanitizeForPlatform(cfg, p);
    if cfg.curated && d.enabled == Some(false) { return None, true; }
    var desc := Desc(d.name, d.deviceClass, d.unit, d.stateClass, d.category, d.enabled, d.options, d.bounds, d.extra);
    return Some(BasicOf(cfg, e, p, desc)), false;
  }

  /** hamqttModel */
  method HamqttModel(cfg: Config, entities: seq<Entity>, visits: seq<seq<int>>) returns (out: seq<Basic>, curated: nat)
    requires Visits(entities, visits)
    ensures out == Featured(cfg, entities, visits) + Controls(cfg, entities)
    ensures curated == CuratedOut(cfg, entities, visits)
  {
    out, curated := [], 0;
    for i := 0 to |entities|
      invariant Visits(entities[..i], visits[..i])
      invariant out == Featured(cfg, entities[..i], visits[..i])
      invariant curated == CuratedOut(cfg, entities[..i], visits[..i])
    {
      var b, dropped := ModelOne(cfg, entities[i], visits[i]);
      assert entities[..i + 1][..i] == entities[..i] && visits[..i + 1][..i] == visits[..i];
      if dropped { curated := curated + 1; }
      if b.Some? { out := out + [b.value]; }
    }
    assert entities[..|entities|] == entities && visits[..|entities|] == visits;
    var programs := HasPrograms(entities);
    if programs { out := out + [ControlBasic(cfg, START_PROGRAM), ControlBasic(cfg, STOP_PROGRAM)]; }
  }

  /** One turn of PublishDevice's loop. */
  method PayloadOne(cfg: Config, e: Entity, device: string, order: seq<int>) returns (r: Option<Row>)
    requires Enumerates(order, e.enumeration.Keys)
    ensures r == RowFor(cfg, e, device, order)
  {
    if Excluded(cfg, e) { return None; }
    if PlatformFor(e).None? { return None; }
    var p := PlatformFor(e).value;
    var q := new PayloadMap(cfg, e, p, device, order);
    q.Enrich(cfg, e, p);
    q.LocalizeOptions(cfg);
    q.ClearNumeric(cfg, e, p);
    q.SanitizeForPlatform(cfg, p);
    if cfg.curated && q.m.enabled == Some(false) { return None; }
    return Some(Row(p, cfg.keyOf(e), q.m));
  }

  /** PublishDevice with publishProgramControls: the rows handed to the writer, in order. */
  method PublishDevice(cfg: Config, device: string, entities: seq<Entity>, visits: seq<seq<int>>)
      returns (out: seq<Row>)
    requires Visits(entities, visits)
    ensures out == FeatureRows(cfg, device, entities, visits) + ControlRows(cfg, device, entities)
  {
    out := [];
    for i := 0 to |entities|
      invariant Visits(entities[..i], visits[..i])
      invariant out == FeatureRows(cfg, device, entities[..i], visits[..i])
    {
      var r := PayloadOne(cfg, entities[i], device, visits[i]);
      assert entities[..i + 1][..i] == entities[..i] && visits[..i + 1][..i] == visits[..i];
      if r.Some? { out := out + [r.value]; }
    }
    assert entities[..|entities|] == entities && visits[..|entities|] == visits;
    var programs := HasPrograms(entities);
    if programs { out := out + [ControlRow(cfg, device, START_PROGRAM), ControlRow(cfg, device, STOP_PROGRAM)]; }
  }
}
