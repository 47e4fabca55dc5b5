/** The tool surface generated from the service catalog and the index
    (app/capability_generator.py). */
module Capabilities {
  import opened Basics
  import opened EntityIndex

  // ----- Service fields -----

  datatype FieldDef = FieldDef(fieldType: string, required: bool)
  type Fields = map<string, Option<FieldDef>>

  /** An entry of a service's fields: a field (perhaps null) or a UI section,
      whose own fields may be missing. */
  datatype FieldEntry = Field(def: Option<FieldDef>) | Section(nested: Option<Fields>)

  datatype Named = Named(name: string, entry: FieldEntry)

  /** A dictionary in catalog order: no name twice. */
  predicate UniqueNames(entries: seq<Named>) {
    forall i, j :: 0 <= i < j < |entries| ==> entries[i].name != entries[j].name
  }

  function TopLevel(entries: seq<Named>): Fields {
    if entries == [] then map[]
    else
      var before, last := TopLevel(entries[..|entries| - 1]), entries[|entries| - 1];
      if last.entry.Field? then before[last.name := last.entry.def] else before
  }

  function SectionFields(e: FieldEntry): Fields {
    if e.Section? && e.nested.Some? then e.nested.value else map[]
  }

  function Nested(entries: seq<Named>): Fields {
    if entries == [] then map[]
    else SectionFields(entries[|entries| - 1].entry) + Nested(entries[..|entries| - 1])
  }

  function ServiceFields(entries: seq<Named>): Fields {
    Nested(entries) + TopLevel(entries)
  }

  lemma {:induction false} TopLevelAt(entries: seq<Named>, i: nat)
    requires UniqueNames(entries) && i < |entries|
    ensures entries[i].name in TopLevel(entries) <==> entries[i].entry.Field?
    ensures entries[i].entry.Field? ==> TopLevel(entries)[entries[i].name] == entries[i].entry.def
  {
    var n := |entries| - 1;
    if i < n {
      TopLevelAt(entries[..n], i);
    } else if entries[n].name in TopLevel(entries[..n]) {
      OnlyEntriesAtTop(entries[..n], entries[n].name);
    }
  }

  lemma {:induction false} OnlyEntriesAtTop(entries: seq<Named>, name: string)
    requires name in TopLevel(entries)
    ensures exists i :: 0 <= i < |entries| && entries[i].name == name && entries[i].entry.Field?
  {
    var n := |entries| - 1;
    if name in TopLevel(entries[..n]) {
      OnlyEntriesAtTop(entries[..n], name);
      var i :| 0 <= i < n && entries[..n][i].name == name && entries[..n][i].entry.Field?;
      assert entries[i].name == name;
    } else {
      assert entries[n].name == name;
    }
  }

  lemma {:induction false} FirstSectionWins(entries: seq<Named>, i: nat, name: string)
    requires i < |entries| && name in SectionFields(entries[i].entry)
    requires forall k :: 0 <= k < i ==> name !in SectionFields(entries[k].entry)
    ensures name in Nested(entries) && Nested(entries)[name] == SectionFields(entries[i].entry)[name]
  {
    var n := |entries| - 1;
    if i < n {
      FirstSectionWins(entries[..n], i, name);
    } else {
      NotNested(entries[..n], name);
    }
  }

  lemma {:induction false} NotNested(entries: seq<Named>, name: string)
    requires forall k :: 0 <= k < |entries| ==> name !in SectionFields(entries[k].entry)
    ensures name !in Nested(entries)
  {
    if entries != [] { NotNested(entries[..|entries| - 1], name); }
  }

  /** A top-level field keeps its name over any nested one; among sections the
      first in catalog order wins. */
  lemma FieldPrecedence(entries: seq<Named>, i: nat, name: string)
    requires UniqueNames(entries) && i < |entries|
    ensures entries[i].name == name && entries[i].entry.Field? ==>
              name in ServiceFields(entries) && ServiceFields(entries)[name] == entries[i].entry.def
    ensures name in SectionFields(entries[i].entry)
            && (forall k :: 0 <= k < i ==> name !in SectionFields(entries[k].entry))
            && (forall k :: 0 <= k < |entries| ==> !(entries[k].name == name && entries[k].entry.Field?)) ==>
              name in ServiceFields(entries) && ServiceFields(entries)[name] == SectionFields(entries[i].entry)[name]
  {
    TopLevelAt(entries, i);
    if name in SectionFields(entries[i].entry) && forall k :: 0 <= k < i ==> name !in SectionFields(entries[k].entry) {
      FirstSectionWins(entries, i, name);
    }
    if name in TopLevel(entries) {
      OnlyEntriesAtTop(entries, name);
    }
  }

  lemma {:induction false} NestedFrom(entries: seq<Named>, name: string)
    requires name in Nested(entries)
    ensures exists i :: 0 <= i < |entries| && name in SectionFields(entries[i].entry)
  {
    var n := |entries| - 1;
    if name !in SectionFields(entries[n].entry) {
      NestedFrom(entries[..n], name);
      var i :| 0 <= i < n && name in SectionFields(entries[..n][i].entry);
      assert name in SectionFields(entries[i].entry);
    }
  }

  /** The flattened fields are exactly the top-level ones and those of the sections;
      a section is no field itself. */
  lemma FieldsAreThese(entries: seq<Named>, name: string)
    requires UniqueNames(entries)
    ensures name in ServiceFields(entries) <==>
            (exists i :: 0 <= i < |entries| && entries[i].name == name && entries[i].entry.Field?) ||
            (exists i :: 0 <= i < |entries| && name in SectionFields(entries[i].entry))
  {
    if name in TopLevel(entries) {
      OnlyEntriesAtTop(entries, name);
    }
    if name in Nested(entries) {
      NestedFrom(entries, name);
    }
    if i :| 0 <= i < |entries| && entries[i].name == name && entries[i].entry.Field? {
      TopLevelAt(entries, i);
    }
    if !exists i :: 0 <= i < |entries| && name in SectionFields(entries[i].entry) {
    } else if name !in Nested(entries) {
      NestedHolds(entries, name);
    }
  }

  lemma {:induction false} NestedHolds(entries: seq<Named>, name: string)
    requires exists i :: 0 <= i < |entries| && name in SectionFields(entries[i].entry)
    ensures name in Nested(entries)
  {
    var n := |entries| - 1;
    if name !in SectionFields(entries[n].entry) {
      var i :| 0 <= i < |entries| && name in SectionFields(entries[i].entry);
      assert entries[..n][i] == entries[i];
      NestedHolds(entries[..n], name);
    }
  }

  /** fields.setdefault over one section. */
  method AddSection(fields: Fields, nested: Fields) returns (all: Fields)
    ensures all == nested + fields
  {
    all := fields;
    var left := nested.Keys;
    while left != {}
      invariant left <= nested.Keys
      invariant all.Keys == fields.Keys + (nested.Keys - left)
      invariant forall name :: name in all ==> all[name] == (nested + fields)[name]
      decreases |left|
    {
      var name :| name in left;
      if name !in all {
        all := all[name := nested[name]];
      }
      left := left - {name};
    }
    assert all == nested + fields;
  }

  method TopFields(entries: seq<Named>) returns (fields: Fields)
    ensures fields == TopLevel(entries)
  {
    fields := map[];
    for i := 0 to |entries|
      invariant fields == TopLevel(entries[..i])
    {
      assert entries[..i + 1][..i] == entries[..i];
      if entries[i].entry.Field? {
        fields := fields[entries[i].name := entries[i].entry.def];
      }
    }
    assert entries[..|entries|] == entries;
  }

  lemma NestedOneMore(entries: seq<Named>, i: nat, top: Fields)
    requires i < |entries|
    ensures Nested(entries[..i + 1]) + top == SectionFields(entries[i].entry) + (Nested(entries[..i]) + top)
  {
    assert entries[..i + 1][..i] == entries[..i];
  }

  method FlattenFields(entries: seq<Named>) returns (fields: Fields)
    ensures fields == ServiceFields(entries)
  {
    fields := TopFields(entries);
    ghost var top := fields;
    assert Nested([]) + top == top;
    for i := 0 to |entries|
      invariant fields == Nested(entries[..i]) + top
    {
      NestedOneMore(entries, i, top);
      fields := AddSection(fields, SectionFields(entries[i].entry));
    }
    assert entries[..|entries|] == entries;
  }

  // ----- Tools -----

  datatype Audience = Reflex | Conscious
  datatype Risk = Benign | Elevated | Critical

  datatype FieldSpec = FieldSpec(name: string, fieldType: string, required: bool)

  /** targeted: the catalog gives the service a target. */
  datatype Service = Service(entries: seq<Named>, targeted: bool)
  type Services = map<string, Option<Service>>
  type Catalog = map<string, Option<Services>>

  /** One domain of the reflex configuration: services in order, each with the
      extra fields to keep. */
  datatype Configured = Configured(service: string, extra: seq<string>)
  type ReflexConfig = map<string, seq<Configured>>

  datatype ToolSpec = ToolSpec(
    toolName: string, domain: Option<string>, service: Option<string>,
    audience: Audience, risk: Risk, fields: seq<FieldSpec>, targeted: bool)

  const REFLEX_DOMAINS: set<string> := {"light", "switch", "media_player", "scene", "script"}
  const MAX_LISTED_ENTITIES: nat := 30

  const ESCAPE_HATCH := ToolSpec("home.call_service", None, None, Conscious, Critical, [], false)

  function ToolName(domain: string, service: string): string {
    "home." + domain + "_" + service
  }

  function SpecOfField(name: string, def: Option<FieldDef>): FieldSpec {
    if def.Some? then FieldSpec(name, def.value.fieldType, def.value.required) else FieldSpec(name, "str", false)
  }

  function KeptFields(extra: seq<string>, fields: Fields): seq<FieldSpec> {
    if extra == [] then []
    else (if extra[0] in fields then [SpecOfField(extra[0], fields[extra[0]])] else []) + KeptFields(extra[1..], fields)
  }

  function AllFields(fields: Fields): seq<FieldSpec> {
    var names := SortedIds(fields.Keys);
    seq(|names|, i requires 0 <= i < |names| => assert names[i] in names; SpecOfField(names[i], fields[names[i]]))
  }

  function ReflexTool(domain: string, service: string, svc: Service, extra: seq<string>, risk: Risk): ToolSpec {
    ToolSpec(ToolName(domain, service), Some(domain), Some(service), Reflex, risk,
             KeptFields(extra, ServiceFields(svc.entries)), true)
  }

  /** A null service counts as an empty one. */
  function ConsciousTool(domain: string, service: string, entry: Option<Service>, risk: Risk): ToolSpec {
    var svc := if entry.Some? then entry.value else Service([], false);
    ToolSpec(ToolName(domain, service), Some(domain), Some(service), Conscious, risk,
             AllFields(ServiceFields(svc.entries)), svc.targeted)
  }

  // ----- What a tool carries -----

  /** This parameter is the catalog's field of that name; a null one is optional text. */
  predicate IsField(spec: FieldSpec, name: string, fields: Fields) {
    && name in fields && spec.name == name
    && (if fields[name].Some?
        then spec.fieldType == fields[name].value.fieldType && spec.required == fields[name].value.required
        else spec.fieldType == "str" && !spec.required)
  }

  /** How many of the configured names the catalog has. */
  function Offered(extra: seq<string>, fields: Fields): nat {
    if extra == [] then 0
    else Offered(extra[..|extra| - 1], fields) + if extra[|extra| - 1] in fields then 1 else 0
  }

  /** The configured fields that the catalog has, all of them, in configuration order:
      each stands behind those configured before it. */
  ghost predicate CarriesKept(specs: seq<FieldSpec>, extra: seq<string>, fields: Fields) {
    && |specs| == Offered(extra, fields)
    && forall i :: 0 <= i < |extra| && extra[i] in fields ==>
         Offered(extra[..i], fields) < |specs| && IsField(specs[Offered(extra[..i], fields)], extra[i], fields)
  }

  lemma {:induction false} KeptJoined(a: seq<string>, b: seq<string>, fields: Fields)
    ensures KeptFields(a + b, fields) == KeptFields(a, fields) + KeptFields(b, fields)
    decreases |a|
  {
    if a == [] {
      assert a + b == b;
    } else {
      assert (a + b)[1..] == a[1..] + b;
      KeptJoined(a[1..], b, fields);
    }
  }

  lemma {:induction false} KeptCarried(extra: seq<string>, fields: Fields)
    ensures CarriesKept(KeptFields(extra, fields), extra, fields)
    decreases |extra|
  {
    if extra != [] {
      var n := |extra| - 1;
      var front, last := extra[..n], extra[n];
      KeptCarried(front, fields);
      assert extra == front + [last];
      KeptJoined(front, [last], fields);
      assert [last][1..] == [];
      assert KeptFields([last], fields) == if last in fields then [SpecOfField(last, fields[last])] else [];
      forall i | 0 <= i < n && extra[i] in fields
        ensures Offered(extra[..i], fields) < |KeptFields(front, fields)|
        ensures IsField(KeptFields(front, fields)[Offered(extra[..i], fields)], extra[i], fields)
      {
        assert front[..i] == extra[..i] && front[i] == extra[i];
      }
    }
  }

  /** Every field, each once, in name order. */
  ghost predicate CarriesAll(specs: seq<FieldSpec>, fields: Fields) {
    && (forall i, j :: 0 <= i < j < |specs| ==> StrLt(specs[i].name, specs[j].name))
    && (forall i :: 0 <= i < |specs| ==> IsField(specs[i], specs[i].name, fields))
    && (forall name :: name in fields ==> exists i :: 0 <= i < |specs| && specs[i].name == name)
  }

  lemma AllCarried(fields: Fields)
    ensures CarriesAll(AllFields(fields), fields)
  {
    var names, specs := SortedIds(fields.Keys), AllFields(fields);
    forall i | 0 <= i < |specs|
      ensures specs[i].name == names[i] && IsField(specs[i], names[i], fields)
    {
      assert names[i] in names;
    }
    forall name | name in fields
      ensures exists i :: 0 <= i < |specs| && specs[i].name == name
    {
      assert name in names;
      var i :| 0 <= i < |names| && names[i] == name;
      assert specs[i].name == name;
    }
  }

  // ----- Which tools there should be -----

  function ExtraFields(configured: seq<Configured>, service: string): Option<seq<string>> {
    if configured == [] then None
    else if configured[0].service == service then Some(configured[0].extra)
    else ExtraFields(configured[1..], service)
  }

  predicate UniqueServices(configured: seq<Configured>) {
    forall i, j :: 0 <= i < j < |configured| ==> configured[i].service != configured[j].service
  }

  /** A configured service that this Home Assistant offers. */
  function ExpectedReflex(domain: string, services: Services, configured: seq<Configured>, risk: Risk, service: string)
    : Option<ToolSpec>
  {
    var extra := ExtraFields(configured, service);
    if extra.Some? && service in services && services[service].Some?
    then Some(ReflexTool(domain, service, services[service].value, extra.value, risk))
    else None
  }

  function ExpectedConscious(domain: string, services: Services, risk: Risk, service: string): Option<ToolSpec> {
    if service in services then Some(ConsciousTool(domain, service, services[service], risk)) else None
  }

  /** A reflex domain yields its configured tools, and above benign its other
      services as conscious ones; any other domain yields all of its services. */
  function ExpectedIn(domain: string, services: Services, configured: seq<Configured>, risk: Risk, service: string)
    : Option<ToolSpec>
  {
    if domain !in REFLEX_DOMAINS then ExpectedConscious(domain, services, risk, service)
    else
      var reflex := ExpectedReflex(domain, services, configured, risk, service);
      if reflex.Some? || risk == Benign then reflex
      else ExpectedConscious(domain, services, risk, service)
  }

  function ServicesOf(catalog: Catalog, domain: string): Services
    requires domain in catalog
  {
    if catalog[domain].Some? then catalog[domain].value else map[]
  }

  function ConfiguredFor(config: ReflexConfig, domain: string): seq<Configured> {
    if domain in config then config[domain] else []
  }

  /** A domain without entities yields nothing. */
  function Expected(catalog: Catalog, present: set<string>, config: ReflexConfig, riskOf: string -> Risk,
                    domain: string, service: string): Option<ToolSpec>
  {
    if domain in catalog && domain in present
    then ExpectedIn(domain, ServicesOf(catalog, domain), ConfiguredFor(config, domain), riskOf(domain), service)
    else None
  }

  /** These are the tools expected of a domain's services, each once, as far as
      the services already done go. */
  ghost predicate ExactlyOf(specs: seq<ToolSpec>, domain: string, expected: string -> Option<ToolSpec>,
                            done: set<string>) {
    && (forall i :: 0 <= i < |specs| ==>
          specs[i].domain == Some(domain) && specs[i].service.Some? && specs[i].service.value in done &&
          expected(specs[i].service.value) == Some(specs[i]))
    && (forall i, j :: 0 <= i < j < |specs| ==> specs[i].service != specs[j].service)
    && (forall service :: service in done && expected(service).Some? ==> Offers(specs, service))
  }

  predicate Offers(specs: seq<ToolSpec>, service: string) {
    exists i :: 0 <= i < |specs| && specs[i].service == Some(service)
  }

  /** One domain's expected tools, all of them, each once. */
  ghost predicate Exactly(specs: seq<ToolSpec>, domain: string, expected: string -> Option<ToolSpec>) {
    && (forall i :: 0 <= i < |specs| ==>
          specs[i].domain == Some(domain) && specs[i].service.Some? &&
          expected(specs[i].service.value) == Some(specs[i]))
    && (forall i, j :: 0 <= i < j < |specs| ==> specs[i].service != specs[j].service)
    && (forall service :: expected(service).Some? ==> Offers(specs, service))
  }

  /** Where the configuration lists a service. */
  function Place(configured: seq<Configured>, service: string): nat {
    if configured == [] || configured[0].service == service then 0 else 1 + Place(configured[1..], service)
  }

  lemma {:induction false} PlaceAt(configured: seq<Configured>, i: nat)
    requires UniqueServices(configured) && i < |configured|
    ensures Place(configured, configured[i].service) == i
  {
    if i > 0 { PlaceAt(configured[1..], i - 1); }
  }

  /** One domain's tools: reflex ones first, as configured, then conscious ones by name. */
  predicate Precedes(configured: seq<Configured>, x: ToolSpec, y: ToolSpec) {
    x.service.Some? && y.service.Some? &&
    match (x.audience, y.audience)
    case (Reflex, Conscious) => true
    case (Conscious, Reflex) => false
    case (Reflex, Reflex) => Place(configured, x.service.value) < Place(configured, y.service.value)
    case (Conscious, Conscious) => StrLt(x.service.value, y.service.value)
  }

  predicate InOrder(specs: seq<ToolSpec>, configured: seq<Configured>) {
    forall i, j :: 0 <= i < j < |specs| ==> Precedes(configured, specs[i], specs[j])
  }

  lemma OrderGrows(specs: seq<ToolSpec>, configured: seq<Configured>, spec: ToolSpec)
    requires InOrder(specs, configured) && forall t :: t in specs ==> Precedes(configured, t, spec)
    ensures InOrder(specs + [spec], configured)
    ensures forall t :: t in specs + [spec] <==> t in specs || t == spec
  {
    assert forall i :: 0 <= i < |specs| ==> specs[i] in specs;
  }

  lemma ExactlyGrows(specs: seq<ToolSpec>, domain: string, expected: string -> Option<ToolSpec>, done: set<string>,
                     service: string)
    requires ExactlyOf(specs, domain, expected, done) && service !in done
    requires expected(service).Some? ==>
              expected(service).value.domain == Some(domain) && expected(service).value.service == Some(service)
    ensures ExactlyOf(if expected(service).Some? then specs + [expected(service).value] else specs,
                      domain, expected, done + {service})
  {
    if expected(service).Some? {
      var next := specs + [expected(service).value];
      assert forall i :: 0 <= i < |specs| ==> next[i] == specs[i];
      assert next[|specs|].service == Some(service);
      forall s | s in done && expected(s).Some?
        ensures Offers(next, s)
      {
        var i :| 0 <= i < |specs| && specs[i].service == Some(s);
        assert next[i].service == Some(s);
      }
    }
  }

  lemma ExactlyDone(specs: seq<ToolSpec>, domain: string, expected: string -> Option<ToolSpec>, done: set<string>)
    requires ExactlyOf(specs, domain, expected, done)
    requires forall service :: expected(service).Some? ==> service in done
    ensures Exactly(specs, domain, expected)
  {
  }

  lemma {:induction false} ExtraFieldsAt(configured: seq<Configured>, i: nat)
    requires UniqueServices(configured) && i < |configured|
    ensures ExtraFields(configured, configured[i].service) == Some(configured[i].extra)
  {
    if i > 0 { ExtraFieldsAt(configured[1..], i - 1); }
  }

  lemma {:induction false} ExtraFieldsFrom(configured: seq<Configured>, service: string)
    requires ExtraFields(configured, service).Some?
    ensures exists i :: 0 <= i < |configured| && configured[i].service == service
  {
    if configured[0].service != service {
      ExtraFieldsFrom(configured[1..], service);
      var i :| 0 <= i < |configured[1..]| && configured[1..][i].service == service;
      assert configured[i + 1].service == service;
    }
  }

  ghost function ReflexOf(domain: string, services: Services, configured: seq<Configured>, risk: Risk)
    : string -> Option<ToolSpec>
  {
    s => ExpectedReflex(domain, services, configured, risk, s)
  }

  ghost function ConsciousOf(domain: string, services: Services, risk: Risk): string -> Option<ToolSpec> {
    s => ExpectedConscious(domain, services, risk, s)
  }

  ghost function AllOf(domain: string, services: Services, configured: seq<Configured>, risk: Risk)
    : string -> Option<ToolSpec>
  {
    s => ExpectedIn(domain, services, configured, risk, s)
  }

  function ServiceNames(configured: seq<Configured>): set<string> {
    set c | c in configured :: c.service
  }

  lemma NextService(configured: seq<Configured>, i: nat)
    requires UniqueServices(configured) && i < |configured|
    ensures configured[i].service !in ServiceNames(configured[..i])
    ensures ServiceNames(configured[..i + 1]) == ServiceNames(configured[..i]) + {configured[i].service}
  {
    assert configured[..i + 1] == configured[..i] + [configured[i]];
  }

  method ReflexSpecs(domain: string, services: Services, configured: seq<Configured>, risk: Risk)
    returns (specs: seq<ToolSpec>)
    requires UniqueServices(configured)
    ensures Exactly(specs, domain, ReflexOf(domain, services, configured, risk))
    ensures InOrder(specs, configured) && forall t :: t in specs ==> t.audience == Reflex
  {
    specs := [];
    ghost var expected := ReflexOf(domain, services, configured, risk);
    for i := 0 to |configured|
      invariant ExactlyOf(specs, domain, expected, ServiceNames(configured[..i]))
      invariant InOrder(specs, configured) && forall t :: t in specs ==> t.audience == Reflex
      invariant forall t :: t in specs ==> t.service.Some? && Place(configured, t.service.value) < i
    {
      PlaceAt(configured, i);
      var service := configured[i].service;
      ExtraFieldsAt(configured, i);
      NextService(configured, i);
      ExactlyGrows(specs, domain, expected, ServiceNames(configured[..i]), service);
      if service !in services || services[service].None? {
        continue;
      }
      var fields := FlattenFields(services[service].value.entries);
      var spec := ToolSpec(ToolName(domain, service), Some(domain), Some(service), Reflex, risk,
                           KeptFields(configured[i].extra, fields), true);
      OrderGrows(specs, configured, spec);
      specs := specs + [spec];
    }
    assert configured[..|configured|] == configured;
    forall service | expected(service).Some?
      ensures service in ServiceNames(configured)
    {
      ExtraFieldsFrom(configured, service);
    }
    ExactlyDone(specs, domain, expected, ServiceNames(configured));
  }

  function AsSet(names: seq<string>): set<string> {
    set n | n in names
  }

  lemma NextName(names: seq<string>, i: nat)
    requires Ascending(names) && i < |names|
    ensures names[i] !in AsSet(names[..i])
    ensures AsSet(names[..i + 1]) == AsSet(names[..i]) + {names[i]}
  {
    assert names[..i + 1] == names[..i] + [names[i]];
  }

  method ConsciousSpec(domain: string, service: string, entry: Option<Service>, risk: Risk) returns (spec: ToolSpec)
    ensures spec == ConsciousTool(domain, service, entry, risk)
  {
    var svc := if entry.Some? then entry.value else Service([], false);
    var fields := FlattenFields(svc.entries);
    spec := ToolSpec(ToolName(domain, service), Some(domain), Some(service), Conscious, risk, AllFields(fields),
                     svc.targeted);
  }

  lemma NameComesNext(specs: seq<ToolSpec>, domain: string, expected: string -> Option<ToolSpec>,
                      names: seq<string>, i: nat, spec: ToolSpec)
    requires Ascending(names) && i < |names| && ExactlyOf(specs, domain, expected, AsSet(names[..i]))
    requires InOrder(specs, []) && forall t :: t in specs ==> t.audience == Conscious
    requires spec.service == Some(names[i]) && spec.audience == Conscious
    ensures InOrder(specs + [spec], []) && forall t :: t in specs + [spec] ==> t.audience == Conscious
  {
    forall t | t in specs
      ensures Precedes([], t, spec)
    {
      var k :| 0 <= k < |specs| && specs[k] == t;
      var j :| 0 <= j < i && names[..i][j] == t.service.value;
      assert StrLt(names[j], names[i]);
    }
    OrderGrows(specs, [], spec);
  }

  method ConsciousSpecs(domain: string, services: Services, risk: Risk) returns (specs: seq<ToolSpec>)
    ensures Exactly(specs, domain, ConsciousOf(domain, services, risk))
    ensures InOrder(specs, []) && forall t :: t in specs ==> t.audience == Conscious
  {
    specs := [];
    ghost var expected := ConsciousOf(domain, services, risk);
    var names := SortedIds(services.Keys);
    for i := 0 to |names|
      invariant ExactlyOf(specs, domain, expected, AsSet(names[..i]))
      invariant InOrder(specs, []) && forall t :: t in specs ==> t.audience == Conscious
    {
      assert names[i] in names;
      NextName(names, i);
      ExactlyGrows(specs, domain, expected, AsSet(names[..i]), names[i]);
      var spec := ConsciousSpec(domain, names[i], services[names[i]], risk);
      assert expected(names[i]) == Some(spec);
      NameComesNext(specs, domain, expected, names, i, spec);
      specs := specs + [spec];
    }
    assert names[..|names|] == names;
    forall service | expected(service).Some?
      ensures service in AsSet(names)
    {
      assert service in services.Keys;
    }
    ExactlyDone(specs, domain, expected, AsSet(names));
  }

  lemma ToolNameInjective(domain: string, a: string, b: string)
    requires ToolName(domain, a) == ToolName(domain, b)
    ensures a == b
  {
    var n := |"home." + domain + "_"|;
    assert ToolName(domain, a)[n..] == a && ToolName(domain, b)[n..] == b;
  }

  // ----- generate -----

  predicate NamedTool(specs: seq<ToolSpec>, name: string) {
    exists i :: 0 <= i < |specs| && specs[i].toolName == name
  }

  /** The conscious tools whose name no reflex tool has taken. */
  method WithoutConfigured(reflex: seq<ToolSpec>, conscious: seq<ToolSpec>) returns (specs: seq<ToolSpec>)
    requires InOrder(conscious, [])
    ensures forall t :: t in specs <==> t in conscious && !NamedTool(reflex, t.toolName)
    ensures InOrder(specs, [])
  {
    specs := [];
    for i := 0 to |conscious|
      invariant forall t :: t in specs <==> t in conscious[..i] && !NamedTool(reflex, t.toolName)
      invariant InOrder(specs, []) && forall t :: t in specs ==> t in conscious[..i]
    {
      assert conscious[..i + 1] == conscious[..i] + [conscious[i]];
      if !NamedTool(reflex, conscious[i].toolName) {
        assert forall k :: 0 <= k < |specs| ==> specs[k] in specs;
        specs := specs + [conscious[i]];
      }
    }
    assert conscious[..|conscious|] == conscious;
  }

  /** A reflex tool takes its service's name, and only that. */
  lemma NamesAreServices(reflex: seq<ToolSpec>, domain: string, expected: string -> Option<ToolSpec>, service: string)
    requires Exactly(reflex, domain, expected)
    requires forall s :: expected(s).Some? ==> expected(s).value.toolName == ToolName(domain, s)
    ensures NamedTool(reflex, ToolName(domain, service)) <==> expected(service).Some?
  {
    if NamedTool(reflex, ToolName(domain, service)) {
      var i :| 0 <= i < |reflex| && reflex[i].toolName == ToolName(domain, service);
      ToolNameInjective(domain, service, reflex[i].service.value);
    }
    if expected(service).Some? {
      var i :| 0 <= i < |reflex| && reflex[i].service == Some(service);
      assert reflex[i].toolName == ToolName(domain, service);
    }
  }

  method DomainSpecs(domain: string, services: Services, configured: seq<Configured>, risk: Risk)
    returns (specs: seq<ToolSpec>)
    requires UniqueServices(configured)
    ensures Exactly(specs, domain, AllOf(domain, services, configured, risk)) && InOrder(specs, configured)
  {
    if domain !in REFLEX_DOMAINS {
      specs := ConsciousSpecs(domain, services, risk);
      OrderJoined([], specs, configured);
      assert [] + specs == specs;
      ExactlyAgree(specs, domain, ConsciousOf(domain, services, risk), AllOf(domain, services, configured, risk));
      return;
    }
    specs := ReflexSpecs(domain, services, configured, risk);
    if risk == Benign {
      ExactlyAgree(specs, domain, ReflexOf(domain, services, configured, risk),
                   AllOf(domain, services, configured, risk));
      return;
    }
    var conscious := ConsciousSpecs(domain, services, risk);
    var others := WithoutConfigured(specs, conscious);
    ExactlyJoined(specs, conscious, others, domain, ReflexOf(domain, services, configured, risk),
                  ConsciousOf(domain, services, risk), AllOf(domain, services, configured, risk));
    OrderJoined(specs, others, configured);
    specs := specs + others;
  }

  lemma ExactlyAgree(specs: seq<ToolSpec>, domain: string, expected: string -> Option<ToolSpec>,
                     other: string -> Option<ToolSpec>)
    requires Exactly(specs, domain, expected) && forall s :: expected(s) == other(s)
    ensures Exactly(specs, domain, other)
  {
  }

  lemma ExactlyJoined(reflex: seq<ToolSpec>, conscious: seq<ToolSpec>, others: seq<ToolSpec>, domain: string,
                      first: string -> Option<ToolSpec>, second: string -> Option<ToolSpec>,
                      both: string -> Option<ToolSpec>)
    requires Exactly(reflex, domain, first) && Exactly(conscious, domain, second)
    requires forall s :: both(s) == if first(s).Some? then first(s) else second(s)
    requires forall s :: first(s).Some? ==> first(s).value.toolName == ToolName(domain, s)
    requires forall s :: second(s).Some? ==> second(s).value.toolName == ToolName(domain, s)
    requires forall t :: t in others <==> t in conscious && !NamedTool(reflex, t.toolName)
    requires forall i, j :: 0 <= i < j < |others| ==> others[i].service != others[j].service
    ensures Exactly(reflex + others, domain, both)
  {
    var all := reflex + others;
    forall i | 0 <= i < |others|
      ensures others[i].domain == Some(domain) && others[i].service.Some?
      ensures second(others[i].service.value) == Some(others[i]) && first(others[i].service.value).None?
    {
      assert others[i] in others;
      var k :| 0 <= k < |conscious| && conscious[k] == others[i];
      NamesAreServices(reflex, domain, first, others[i].service.value);
    }
    forall s | both(s).Some?
      ensures Offers(all, s)
    {
      if first(s).Some? {
        var i :| 0 <= i < |reflex| && reflex[i].service == Some(s);
        assert all[i].service == Some(s);
      } else {
        var k :| 0 <= k < |conscious| && conscious[k].service == Some(s);
        NamesAreServices(reflex, domain, first, s);
        assert conscious[k] in others;
        var i :| 0 <= i < |others| && others[i] == conscious[k];
        assert all[|reflex| + i].service == Some(s);
      }
    }
    forall i, j | 0 <= i < j < |all|
      ensures all[i].service != all[j].service
    {
      if i < |reflex| <= j {
        assert all[j] == others[j - |reflex|];
      }
    }
  }

  /** Conscious tools in order by name come after reflex tools as configured. */
  lemma OrderJoined(reflex: seq<ToolSpec>, others: seq<ToolSpec>, configured: seq<Configured>)
    requires InOrder(reflex, configured) && forall t :: t in reflex ==> t.audience == Reflex && t.service.Some?
    requires InOrder(others, []) && forall t :: t in others ==> t.audience == Conscious && t.service.Some?
    ensures InOrder(reflex + others, configured)
  {
    var all := reflex + others;
    forall i, j | 0 <= i < j < |all|
      ensures Precedes(configured, all[i], all[j])
    {
      if |reflex| <= i {
        assert all[i] == others[i - |reflex|] && all[j] == others[j - |reflex|];
        assert all[i] in others && all[j] in others && Precedes([], all[i], all[j]);
      } else if |reflex| <= j {
        assert all[i] in reflex && all[j] == others[j - |reflex|] && all[j] in others;
      }
    }
  }

  predicate Generated(specs: seq<ToolSpec>, domain: string, service: string) {
    exists i :: 0 <= i < |specs| && specs[i].domain == Some(domain) && specs[i].service == Some(service)
  }

  /** The expected tools of these domains, all of them, each (domain, service) once. */
  ghost predicate Covers(specs: seq<ToolSpec>, expected: (string, string) -> Option<ToolSpec>, domains: set<string>) {
    && (forall i :: 0 <= i < |specs| ==>
          specs[i].domain.Some? && specs[i].service.Some? && specs[i].domain.value in domains &&
          expected(specs[i].domain.value, specs[i].service.value) == Some(specs[i]))
    && (forall i, j :: 0 <= i < j < |specs| ==>
          specs[i].domain != specs[j].domain || specs[i].service != specs[j].service)
    && (forall d, s :: d in domains && expected(d, s).Some? ==> Generated(specs, d, s))
  }

  ghost function InDomain(expected: (string, string) -> Option<ToolSpec>, domain: string): string -> Option<ToolSpec> {
    s => expected(domain, s)
  }

  lemma CoversGrows(specs: seq<ToolSpec>, expected: (string, string) -> Option<ToolSpec>, domains: set<string>,
                    domain: string, part: seq<ToolSpec>)
    requires Covers(specs, expected, domains) && domain !in domains
    requires Exactly(part, domain, InDomain(expected, domain))
    ensures Covers(specs + part, expected, domains + {domain})
  {
    var all := specs + part;
    assert forall i :: 0 <= i < |specs| ==> all[i] == specs[i];
    assert forall i :: 0 <= i < |part| ==> all[|specs| + i] == part[i];
    forall d, s | d in domains + {domain} && expected(d, s).Some?
      ensures Generated(all, d, s)
    {
      if d == domain {
        assert Offers(part, s);
        var i :| 0 <= i < |part| && part[i].service == Some(s);
        assert all[|specs| + i].domain == Some(d) && all[|specs| + i].service == Some(s);
      } else {
        var i :| 0 <= i < |specs| && specs[i].domain == Some(d) && specs[i].service == Some(s);
        assert all[i].domain == Some(d);
      }
    }
    forall i, j | 0 <= i < j < |all|
      ensures all[i].domain != all[j].domain || all[i].service != all[j].service
    {
      if i < |specs| <= j {
        assert all[j] == part[j - |specs|];
      } else if |specs| <= i {
        assert all[i] == part[i - |specs|] && all[j] == part[j - |specs|];
      }
    }
  }

  ghost function ExpectedTools(catalog: Catalog, present: set<string>, config: ReflexConfig, riskOf: string -> Risk)
    : (string, string) -> Option<ToolSpec>
  {
    (d, s) => Expected(catalog, present, config, riskOf, d, s)
  }

  lemma AbsentDomain(specs: seq<ToolSpec>, expected: (string, string) -> Option<ToolSpec>, domains: set<string>,
                     domain: string)
    requires Covers(specs, expected, domains) && forall s :: expected(domain, s).None?
    ensures Covers(specs, expected, domains + {domain})
  {
  }

  /** By domain name, and within a domain as Precedes says. */
  predicate Sorted(specs: seq<ToolSpec>, config: ReflexConfig) {
    forall i, j :: 0 <= i < j < |specs| ==> Earlier(config, specs[i], specs[j])
  }

  predicate Earlier(config: ReflexConfig, x: ToolSpec, y: ToolSpec) {
    && x.domain.Some? && y.domain.Some?
    && (StrLt(x.domain.value, y.domain.value) ||
        (x.domain == y.domain && Precedes(ConfiguredFor(config, x.domain.value), x, y)))
  }

  lemma SortedGrows(specs: seq<ToolSpec>, part: seq<ToolSpec>, config: ReflexConfig, domain: string)
    requires Sorted(specs, config) && InOrder(part, ConfiguredFor(config, domain))
    requires forall t :: t in specs ==> t.domain.Some? && StrLt(t.domain.value, domain)
    requires forall t :: t in part ==> t.domain == Some(domain)
    ensures Sorted(specs + part, config)
  {
    var all := specs + part;
    forall i, j | 0 <= i < j < |all|
      ensures Earlier(config, all[i], all[j])
    {
      if |specs| <= i {
        assert all[i] == part[i - |specs|] && all[j] == part[j - |specs|];
        assert all[i] in part && all[j] in part;
      } else if |specs| <= j {
        assert all[i] in specs && all[j] == part[j - |specs|] && all[j] in part;
      }
    }
  }

  /** Everything expected of one domain of the catalog. */
  method DomainTools(catalog: Catalog, present: set<string>, config: ReflexConfig, riskOf: string -> Risk,
                     domain: string)
    returns (specs: seq<ToolSpec>)
    requires forall d :: d in config ==> UniqueServices(config[d])
    requires domain in catalog && domain in present
    ensures Exactly(specs, domain, InDomain(ExpectedTools(catalog, present, config, riskOf), domain))
    ensures InOrder(specs, ConfiguredFor(config, domain))
  {
    specs := DomainSpecs(domain, ServicesOf(catalog, domain), ConfiguredFor(config, domain), riskOf(domain));
    ExactlyAgree(specs, domain,
                 AllOf(domain, ServicesOf(catalog, domain), ConfiguredFor(config, domain), riskOf(domain)),
                 InDomain(ExpectedTools(catalog, present, config, riskOf), domain));
  }

  /** The static tool set: every expected tool of the catalog, each once, and the
      escape hatch last. */
  method Generate(catalog: Catalog, present: set<string>, config: ReflexConfig, riskOf: string -> Risk)
    returns (specs: seq<ToolSpec>)
    requires forall d :: d in config ==> UniqueServices(config[d])
    ensures |specs| > 0 && specs[|specs| - 1] == ESCAPE_HATCH && Sorted(specs[..|specs| - 1], config)
    ensures Covers(specs[..|specs| - 1], ExpectedTools(catalog, present, config, riskOf), catalog.Keys)
  {
    specs := [];
    ghost var expected := ExpectedTools(catalog, present, config, riskOf);
    var domains := SortedIds(catalog.Keys);
    for i := 0 to |domains|
      invariant Covers(specs, expected, AsSet(domains[..i]))
      invariant Sorted(specs, config) && forall t :: t in specs ==> t.domain.Some? && t.domain.value in domains[..i]
    {
      var domain := domains[i];
      assert domain in domains;
      NextName(domains, i);
      if domain in present {
        var part := DomainTools(catalog, present, config, riskOf, domain);
        CoversGrows(specs, expected, AsSet(domains[..i]), domain, part);
        SortedGrows(specs, part, config, domain);
        specs := specs + part;
      } else {
        AbsentDomain(specs, expected, AsSet(domains[..i]), domain);
      }
    }
    assert domains[..|domains|] == domains && AsSet(domains) == catalog.Keys;
    assert (specs + [ESCAPE_HATCH])[..|specs|] == specs;
    specs := specs + [ESCAPE_HATCH];
  }

  /** The tool that reaches any service: conscious, critical, and without a target. */
  lemma EscapeHatchSays()
    ensures ESCAPE_HATCH.toolName == "home.call_service" && ESCAPE_HATCH.domain == ESCAPE_HATCH.service == None
    ensures ESCAPE_HATCH.audience == Conscious && ESCAPE_HATCH.risk == Critical
    ensures ESCAPE_HATCH.fields == [] && !ESCAPE_HATCH.targeted
  {
  }

  predicate IsReflexDomain(domain: string) {
    domain == "light" || domain == "switch" || domain == "media_player" || domain == "scene" || domain == "script"
  }

  /** What a tool carries. Named after its domain and service; a reflex tool has the
      configured extra fields that the catalog has, in configuration order, and a
      target; a conscious one has every field of its service, by name, and a target
      exactly if the catalog gives the service one. A null service has none of them. */
  lemma ToolCarries(catalog: Catalog, present: set<string>, config: ReflexConfig, riskOf: string -> Risk,
                    domain: string, service: string)
    requires Expected(catalog, present, config, riskOf, domain, service).Some?
    ensures var tool := Expected(catalog, present, config, riskOf, domain, service).value;
            && domain in catalog && service in ServicesOf(catalog, domain)
            && tool.domain == Some(domain) && tool.service == Some(service)
            && tool.toolName == "home." + domain + "_" + service
            && var svc := ServicesOf(catalog, domain)[service];
               var fields := if svc.Some? then ServiceFields(svc.value.entries) else map[];
               var extra := ExtraFields(ConfiguredFor(config, domain), service);
               if tool.audience == Reflex
               then tool.targeted && extra.Some? && CarriesKept(tool.fields, extra.value, fields)
               else CarriesAll(tool.fields, fields) && (tool.targeted <==> svc.Some? && svc.value.targeted)
  {
    var svc := ServicesOf(catalog, domain)[service];
    var fields := if svc.Some? then ServiceFields(svc.value.entries) else map[];
    var extra := ExtraFields(ConfiguredFor(config, domain), service);
    assert ServiceFields([]) == map[];
    AllCarried(fields);
    if extra.Some? { KeptCarried(extra.value, fields); }
  }

  /** The audience rule: which services of a domain with entities get a tool, and
      for whom. A configured service that is null in the catalog is conscious
      above benign and gets no tool at benign. */
  lemma AudienceRule(catalog: Catalog, present: set<string>, config: ReflexConfig, riskOf: string -> Risk,
                     domain: string, service: string)
    requires domain in catalog
    ensures var tool := Expected(catalog, present, config, riskOf, domain, service);
            var services := ServicesOf(catalog, domain);
            var reflex := IsReflexDomain(domain) && ExtraFields(ConfiguredFor(config, domain), service).Some? &&
                          service in services && services[service].Some?;
            && (tool.Some? <==> domain in present && service in services &&
                                (reflex || !IsReflexDomain(domain) || riskOf(domain) != Benign))
            && (tool.Some? ==> tool.value.audience == if reflex then Reflex else Conscious)
            && (tool.Some? ==> tool.value.risk == riskOf(domain))
  {
  }

  // ----- Tool names -----

  /** Domain e goes on where d ends, and the service names make up for it:
      light + on_off and light_on + off. */
  predicate Shifted(d: string, s: string, e: string, t: string) {
    d + "_" <= e && s == e[|d| + 1..] + "_" + t
  }

  lemma ShiftedCollide(d: string, s: string, e: string, t: string)
    requires Shifted(d, s, e, t)
    ensures ToolName(d, s) == ToolName(e, t)
  {
    var x := e[|d| + 1..];
    assert e == d + "_" + x;
    assert d + "_" + (x + "_" + t) == (d + "_" + x) + "_" + t;
    assert ToolName(d, s) == "home." + (d + "_" + s) && ToolName(e, t) == "home." + (e + "_" + t);
  }

  lemma CollidingShift(d: string, s: string, e: string, t: string)
    requires d + "_" + s == e + "_" + t && |d| < |e|
    ensures Shifted(d, s, e, t)
  {
    var n := |d| + 1;
    assert (d + "_" + s)[..n] == d + "_" && (e + "_" + t)[..n] == e[..n];
    assert (d + "_" + s)[n..] == s && (e + "_" + t)[n..] == e[n..] + "_" + t;
  }

  lemma SameLength(d: string, s: string, e: string, t: string)
    requires d + "_" + s == e + "_" + t && |d| == |e|
    ensures d == e && s == t
  {
    assert (d + "_" + s)[..|d|] == d && (e + "_" + t)[..|e|] == e;
    assert (d + "_" + s)[|d| + 1..] == s && (e + "_" + t)[|e| + 1..] == t;
  }

  /** Exactly when two (domain, service) pairs share a tool name. */
  lemma SameNameIff(d: string, s: string, e: string, t: string)
    ensures ToolName(d, s) == ToolName(e, t) <==> (d == e && s == t) || Shifted(d, s, e, t) || Shifted(e, t, d, s)
  {
    Unprefixed(d, s);
    Unprefixed(e, t);
    SamePrefix("home.", d + "_" + s, e + "_" + t);
    if ToolName(d, s) == ToolName(e, t) {
      if |d| == |e| {
        SameLength(d, s, e, t);
      } else if |d| < |e| {
        CollidingShift(d, s, e, t);
      } else {
        CollidingShift(e, t, d, s);
      }
    } else {
      if Shifted(d, s, e, t) { ShiftedCollide(d, s, e, t); }
      if Shifted(e, t, d, s) { ShiftedCollide(e, t, d, s); }
    }
  }

  /** Domain e is domain d, an underscore and more. */
  predicate Extends(d: string, e: string) {
    d + "_" <= e
  }

  /** Tool names of two domains can collide if and only if one extends the other by
      an underscore. */
  lemma ToolNamesCollide(d: string, e: string)
    ensures (exists s, t :: (d != e || s != t) && ToolName(d, s) == ToolName(e, t)) <==> Extends(d, e) || Extends(e, d)
  {
    if s, t :| (d != e || s != t) && ToolName(d, s) == ToolName(e, t) {
      SameNameIff(d, s, e, t);
    }
    if Extends(d, e) {
      var s := e[|d| + 1..] + "_" + "";
      ShiftedCollide(d, s, e, "");
    }
    if Extends(e, d) {
      var t := d[|e| + 1..] + "_" + "";
      ShiftedCollide(e, t, d, "");
    }
  }

  lemma OneUnderscore(k: nat)
    requires k < |"call_service"| && "call_service"[k] == '_'
    ensures k == 4
  {
  }

  lemma Unprefixed(d: string, s: string)
    ensures ToolName(d, s) == "home." + (d + "_" + s)
  {
  }

  lemma SamePrefix(prefix: string, x: string, y: string)
    ensures prefix + x == prefix + y <==> x == y
  {
    assert (prefix + x)[|prefix|..] == x && (prefix + y)[|prefix|..] == y;
  }

  /** The escape hatch's name is taken by one service alone. */
  lemma EscapeHatchName(d: string, s: string)
    ensures ToolName(d, s) == ESCAPE_HATCH.toolName <==> d == "call" && s == "service"
  {
    Unprefixed(d, s);
    assert "home.call_service" == "home." + "call_service" && "call_service" == "call" + "_" + "service";
    SamePrefix("home.", d + "_" + s, "call_service");
    if d + "_" + s == "call_service" {
      OneUnderscore(|d|);
      SameLength(d, s, "call", "service");
    }
  }

  /** Every tool is named after its domain and service, no two of them the same. */
  predicate NamedByService(specs: seq<ToolSpec>) {
    && (forall i :: 0 <= i < |specs| ==>
          specs[i].domain.Some? && specs[i].service.Some? &&
          specs[i].toolName == ToolName(specs[i].domain.value, specs[i].service.value))
    && (forall i, j :: 0 <= i < j < |specs| ==>
          specs[i].domain != specs[j].domain || specs[i].service != specs[j].service)
  }

  lemma GeneratedNames(specs: seq<ToolSpec>, catalog: Catalog, present: set<string>, config: ReflexConfig,
                       riskOf: string -> Risk)
    requires Covers(specs, ExpectedTools(catalog, present, config, riskOf), catalog.Keys)
    ensures NamedByService(specs) && forall i :: 0 <= i < |specs| ==> specs[i].domain.value in catalog
  {
    forall i | 0 <= i < |specs|
      ensures specs[i].toolName == ToolName(specs[i].domain.value, specs[i].service.value)
    {
      ExpectedName(catalog, present, config, riskOf, specs[i]);
    }
  }

  lemma ExpectedName(catalog: Catalog, present: set<string>, config: ReflexConfig, riskOf: string -> Risk,
                     spec: ToolSpec)
    requires spec.domain.Some? && spec.service.Some?
    requires ExpectedTools(catalog, present, config, riskOf)(spec.domain.value, spec.service.value) == Some(spec)
    ensures spec.toolName == ToolName(spec.domain.value, spec.service.value)
  {
  }

  /** What Generate returns has no tool name twice, the escape hatch's included, when
      no domain of the catalog extends another by an underscore and none is "call". */
  lemma GeneratedNamesUnique(specs: seq<ToolSpec>, catalog: Catalog, present: set<string>, config: ReflexConfig,
                             riskOf: string -> Risk)
    requires Covers(specs, ExpectedTools(catalog, present, config, riskOf), catalog.Keys)
    requires forall d, e :: d in catalog && e in catalog ==> !Extends(d, e)
    requires "call" !in catalog
    ensures forall i, j :: 0 <= i < j < |specs| ==> specs[i].toolName != specs[j].toolName
    ensures forall i :: 0 <= i < |specs| ==> specs[i].toolName != ESCAPE_HATCH.toolName
  {
    GeneratedNames(specs, catalog, present, config, riskOf);
    NamesUnique(specs, catalog.Keys);
  }

  lemma NamesUnique(specs: seq<ToolSpec>, domains: set<string>)
    requires NamedByService(specs) && forall i :: 0 <= i < |specs| ==> specs[i].domain.value in domains
    requires forall d, e :: d in domains && e in domains ==> !Extends(d, e)
    requires "call" !in domains
    ensures forall i, j :: 0 <= i < j < |specs| ==> specs[i].toolName != specs[j].toolName
    ensures forall i :: 0 <= i < |specs| ==> specs[i].toolName != ESCAPE_HATCH.toolName
  {
    forall i | 0 <= i < |specs|
      ensures specs[i].toolName != ESCAPE_HATCH.toolName
    {
      EscapeHatchName(specs[i].domain.value, specs[i].service.value);
    }
    forall i, j | 0 <= i < j < |specs|
      ensures specs[i].toolName != specs[j].toolName
    {
      var d, e := specs[i].domain.value, specs[j].domain.value;
      assert !Extends(d, e) && !Extends(e, d);
      SameNameIff(d, specs[i].service.value, e, specs[j].service.value);
    }
  }

  // ----- Advertised targets -----

  function AdvertisedAreas(entities: map<string, EntityInfo>, domain: string): seq<string>
    requires IsIndex(entities)
  {
    AreasListed(EntitiesForDomain(entities, domain))
  }

  /** At most thirty names, in order. */
  function AdvertisedNames(entities: map<string, EntityInfo>, domain: string): seq<string>
    requires IsIndex(entities)
  {
    var names := NamesListed(EntitiesForDomain(entities, domain));
    if |names| <= MAX_LISTED_ENTITIES then names else names[..MAX_LISTED_ENTITIES]
  }

  /** The rooms a tool advertises are those of its domain's entities, each once, in order. */
  lemma AdvertisedRooms(entities: map<string, EntityInfo>, domain: string)
    requires IsIndex(entities)
    ensures ListsRooms(AdvertisedAreas(entities, domain), entities, domain)
  {
    ErrorLists(entities, domain);
  }

  /** The names it advertises are the first thirty, in order, of its domain's entities,
      or all of them. */
  lemma AdvertisedFirst(entities: map<string, EntityInfo>, domain: string, n: string)
    requires IsIndex(entities)
    ensures var names := AdvertisedNames(entities, domain);
            && Ascending(names) && |names| <= 30
            && (n in names ==> exists id :: IsCalled(entities, domain, id, n))
            && ((exists id :: IsCalled(entities, domain, id, n)) && n !in names ==> |names| == 30 && AllBelow(names, n))
  {
    var all := NamesListed(EntitiesForDomain(entities, domain));
    assert ListsNames(all, entities, domain) by {
      ErrorLists(entities, domain);
    }
    FirstListed(all, AdvertisedNames(entities, domain), entities, domain, n);
  }

  lemma FirstListed(all: seq<string>, names: seq<string>, entities: map<string, EntityInfo>, domain: string, n: string)
    requires ListsNames(all, entities, domain) && names == if |all| <= 30 then all else all[..30]
    ensures Ascending(names) && |names| <= 30
    ensures n in names ==> exists id :: IsCalled(entities, domain, id, n)
    ensures (exists id :: IsCalled(entities, domain, id, n)) && n !in names ==> |names| == 30 && AllBelow(names, n)
  {
    FirstThirty(all, names, n);
  }

  predicate AllBelow(names: seq<string>, n: string) {
    forall m :: m in names ==> StrLt(m, n)
  }

  /** The first thirty of these, or all. */
  lemma FirstThirty(all: seq<string>, names: seq<string>, n: string)
    requires Ascending(all) && names == if |all| <= 30 then all else all[..30]
    ensures Ascending(names) && |names| <= 30 && (n in names ==> n in all)
    ensures n in all && n !in names ==> |names| == 30 && AllBelow(names, n)
  {
    if |all| > 30 && n in all {
      var k :| 0 <= k < |all| && all[k] == n;
      if k < 30 { assert names[k] == n; }
    }
  }

  /** Every area and name a tool advertises resolves, in its domain, to a non-empty
      list of that domain's entities in id order, if stripping does not change what
      it folds to. */
  lemma AdvertisedResolves(entities: map<string, EntityInfo>, t: TextRules, domain: string, target: string)
    requires IsIndex(entities)
    ensures t.casefold(t.strip(target)) == t.casefold(target) &&
            (target in AdvertisedAreas(entities, domain) || target in AdvertisedNames(entities, domain)) ==>
              var r := Resolve(entities, t, domain, target);
              r.Found? && r.ids != [] && Ascending(r.ids) && OfDomain(entities, domain, r.ids)
  {
    var candidates := EntitiesForDomain(entities, domain);
    if t.casefold(t.strip(target)) == t.casefold(target) {
      if target in AdvertisedAreas(entities, domain) {
        var e :| e in candidates && e.area.Some? && e.area.value == target;
        AreaResolves(entities, t, domain, e);
      } else if target in AdvertisedNames(entities, domain) {
        assert target in NamesListed(candidates);
        var e :| e in candidates && e.friendlyName == target;
        NameResolvesIff(entities, t, domain, e);
      }
    }
    if Resolve(entities, t, domain, target).Found? {
      ResolvedIsSound(entities, t, domain, target);
    }
  }
}
