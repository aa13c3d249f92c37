/**
 * The iTop class serializer: a typed class description is turned into an
 * iTop datamodel document (`itop_design` version 3.0).
 *
 * `DesignTree` is the element tree the serializer means to produce; the
 * imperative `GenerateXml` builds the text by appending to one string,
 * section after section, and is proved to produce exactly the indented
 * rendering of that tree (`DesignText`). The properties of the output
 * (which sections appear, one element per input item, in order) are then
 * stated about the tree.
 */
module ClassCreator {
  import opened Text
  import opened Xml
  import opened DesignLines

  // ---------------------------------------------------------------------------
  // Input

  /** A class attribute. `values` and `targetClass` stand for the optional
      `specificProperties.values` and `specificProperties.targetClass`; an
      absent one is the empty string (both are falsy). */
  datatype Field = Field(
    name: string,
    kind: string,
    isNullAllowed: bool,
    defaultValue: string,
    values: string,
    targetClass: string)

  /** Flags and rights are JavaScript records: ordered key/value lists. */
  datatype LifecycleState = LifecycleState(name: string, flags: seq<(string, bool)>, highlight: string)

  datatype LifecycleTransition = LifecycleTransition(stimulus: string, target: string, actions: seq<string>)

  datatype Lifecycle = Lifecycle(
    attribute: string,
    states: seq<LifecycleState>,
    transitions: seq<LifecycleTransition>,
    highlightScale: seq<string>)

  datatype Method = Method(name: string, kind: string, code: string)

  datatype Index = Index(name: string, fields: seq<string>)

  datatype Relation = Relation(kind: string, neighbourClass: string, queryDown: string, queryUp: string)

  datatype Menu = Menu(kind: string, parent: string, rank: int, oql: string)

  datatype Profile = Profile(name: string, rights: seq<(string, string)>)

  datatype UserRights = UserRights(profiles: seq<Profile>)

  datatype Branding = Branding(logo: string, mainColor: string, complementaryColor: string)

  datatype ClassProperties = ClassProperties(
    category: string,
    isAbstract: bool,
    keyType: string,
    dbTable: string,
    dbKeyField: string,
    dbFinalClassField: string,
    isLink: bool,
    namingFormat: string)

  /** The eleven arguments of the serializer. */
  datatype ClassDefinition = ClassDefinition(
    className: string,
    parentClass: string,
    properties: ClassProperties,
    fields: seq<Field>,
    lifecycle: Lifecycle,
    methods: seq<Method>,
    indexes: seq<Index>,
    relations: seq<Relation>,
    menu: Menu,
    userRights: UserRights,
    branding: Branding)

  datatype PropertyValue = StringValue(s: string) | BoolValue(b: bool)

  /** `Object.entries(properties)`: the keys in declaration order. */
  function PropertyEntries(p: ClassProperties): seq<(string, PropertyValue)> {
    [ ("category", StringValue(p.category)),
      ("abstract", BoolValue(p.isAbstract)),
      ("keyType", StringValue(p.keyType)),
      ("dbTable", StringValue(p.dbTable)),
      ("dbKeyField", StringValue(p.dbKeyField)),
      ("dbFinalClassField", StringValue(p.dbFinalClassField)),
      ("isLink", BoolValue(p.isLink)),
      ("namingFormat", StringValue(p.namingFormat)) ]
  }

  /** `${value}` */
  function ValueText(v: PropertyValue): string {
    match v
    case StringValue(s) => s
    case BoolValue(b) => BoolText(b)
  }

  /** `value !== ''`: a boolean is never the empty string. */
  predicate IsEmitted(v: PropertyValue) {
    v != StringValue("")
  }

  const EnumKind: string := "AttributeEnum"
  const ExternalKeyKind: string := "AttributeExternalKey"
  const OqlMenuKind: string := "OQLMenuNode"
  const SchemaInstance: string := "http://www.w3.org/2001/XMLSchema-instance"

  // ---------------------------------------------------------------------------
  // The document the serializer means to produce

  function PropertyNodes(entries: seq<(string, PropertyValue)>): seq<Node> {
    if entries == [] then []
    else
      var (key, value) := entries[|entries| - 1];
      PropertyNodes(entries[..|entries| - 1])
        + (if IsEmitted(value) then [TextElement(key, ValueText(value))] else [])
  }

  function PropertiesNode(p: ClassProperties): Node {
    Element("properties", [], Children(PropertyNodes(PropertyEntries(p))))
  }

  function ValueNode(index: nat, piece: string): Node {
    Element("value", [Attr("id", NatToString(index))], Text(Trim(piece)))
  }

  function ValueNodes(pieces: seq<string>): seq<Node> {
    seq(|pieces|, i requires 0 <= i < |pieces| => ValueNode(i, pieces[i]))
  }

  function ValuesNode(pieces: seq<string>): Node {
    Element("values", [], Children(ValueNodes(pieces)))
  }

  function FieldBase(f: Field): seq<Node> {
    [ TextElement("sql", f.name),
      TextElement("default_value", f.defaultValue),
      TextElement("is_null_allowed", BoolText(f.isNullAllowed)) ]
  }

  /** The kind-dependent children: an enumeration's values, or an external
      key's target class, or nothing. */
  function FieldExtra(f: Field): seq<Node> {
    if f.kind == EnumKind && f.values != "" then
      [ValuesNode(Split(f.values, ','))]
    else if f.kind == ExternalKeyKind && f.targetClass != "" then
      [TextElement("target_class", f.targetClass)]
    else []
  }

  function FieldNode(f: Field): Node {
    Element("field", [Attr("id", f.name), Attr("xsi:type", f.kind)], Children(FieldBase(f) + FieldExtra(f)))
  }

  function FieldNodes(fs: seq<Field>): seq<Node> {
    seq(|fs|, i requires 0 <= i < |fs| => FieldNode(fs[i]))
  }

  function FieldsNode(fs: seq<Field>): Node {
    Element("fields", [], Children(FieldNodes(fs)))
  }

  function FlagNodes(flags: seq<(string, bool)>): seq<Node> {
    seq(|flags|, i requires 0 <= i < |flags| => TextElement(flags[i].0, BoolText(flags[i].1)))
  }

  function StateNode(s: LifecycleState): Node {
    Element("state", [Attr("id", s.name)], Children([
      Element("flags", [], Children(FlagNodes(s.flags))),
      TextElement("highlight", s.highlight)]))
  }

  function StateNodes(ss: seq<LifecycleState>): seq<Node> {
    seq(|ss|, i requires 0 <= i < |ss| => StateNode(ss[i]))
  }

  function ActionNode(verb: string): Node {
    Element("action", [], Children([TextElement("verb", verb)]))
  }

  function ActionNodes(verbs: seq<string>): seq<Node> {
    seq(|verbs|, i requires 0 <= i < |verbs| => ActionNode(verbs[i]))
  }

  function TransitionNode(t: LifecycleTransition): Node {
    Element("transition", [Attr("id", t.stimulus)], Children([
      TextElement("target", t.target),
      Element("actions", [], Children(ActionNodes(t.actions)))]))
  }

  function TransitionNodes(ts: seq<LifecycleTransition>): seq<Node> {
    seq(|ts|, i requires 0 <= i < |ts| => TransitionNode(ts[i]))
  }

  function LifecycleNode(l: Lifecycle): Node {
    Element("lifecycle", [], Children([
      TextElement("attribute", l.attribute),
      Element("states", [], Children(StateNodes(l.states))),
      Element("transitions", [], Children(TransitionNodes(l.transitions)))]))
  }

  /** The lifecycle section: present only when its attribute is set. */
  function LifecycleNodes(l: Lifecycle): seq<Node> {
    if l.attribute == "" then [] else [LifecycleNode(l)]
  }

  function MethodNode(m: Method): Node {
    Element("method", [Attr("id", m.name)], Children([
      TextElement("static", "false"),
      TextElement("access", "public"),
      TextElement("type", m.kind),
      Element("code", [], CData(m.code))]))
  }

  function MethodNodes(ms: seq<Method>): seq<Node> {
    seq(|ms|, i requires 0 <= i < |ms| => MethodNode(ms[i]))
  }

  function MethodsNodes(ms: seq<Method>): seq<Node> {
    if ms == [] then [] else [Element("methods", [], Children(MethodNodes(ms)))]
  }

  function AttributeNodes(names: seq<string>): seq<Node> {
    seq(|names|, i requires 0 <= i < |names| => Element("attribute", [Attr("id", names[i])], Empty))
  }

  function IndexNode(ix: Index): Node {
    Element("index", [Attr("id", ix.name)], Children([
      Element("attributes", [], Children(AttributeNodes(ix.fields)))]))
  }

  function IndexNodes(ixs: seq<Index>): seq<Node> {
    seq(|ixs|, i requires 0 <= i < |ixs| => IndexNode(ixs[i]))
  }

  function IndexesNodes(ixs: seq<Index>): seq<Node> {
    if ixs == [] then [] else [Element("indexes", [], Children(IndexNodes(ixs)))]
  }

  function NeighbourNode(r: Relation): Node {
    Element("neighbour", [Attr("id", r.neighbourClass)], Children([
      TextElement("query_down", r.queryDown),
      TextElement("query_up", r.queryUp)]))
  }

  function RelationNode(r: Relation): Node {
    Element("relation", [Attr("id", r.kind)], Children([
      Element("neighbours", [], Children([NeighbourNode(r)]))]))
  }

  function RelationNodes(rs: seq<Relation>): seq<Node> {
    seq(|rs|, i requires 0 <= i < |rs| => RelationNode(rs[i]))
  }

  function RelationsNodes(rs: seq<Relation>): seq<Node> {
    if rs == [] then [] else [Element("relations", [], Children(RelationNodes(rs)))]
  }

  function ClassChildren(d: ClassDefinition): seq<Node> {
    [TextElement("parent", d.parentClass), PropertiesNode(d.properties), FieldsNode(d.fields)]
      + LifecycleNodes(d.lifecycle) + MethodsNodes(d.methods)
      + IndexesNodes(d.indexes) + RelationsNodes(d.relations)
  }

  function ClassesNode(d: ClassDefinition): Node {
    Element("classes", [], Children([Element("class", [Attr("id", d.className)], Children(ClassChildren(d)))]))
  }

  /** The OQL query: written only for an OQL menu node. */
  function OqlNodes(m: Menu): seq<Node> {
    if m.kind == OqlMenuKind then [TextElement("oql", m.oql)] else []
  }

  function MenuChildren(m: Menu): seq<Node> {
    [TextElement("rank", IntToString(m.rank)), TextElement("parent", m.parent)] + OqlNodes(m)
  }

  function MenuNode(className: string, m: Menu): Node {
    Element("menu", [Attr("id", className + "_menu"), Attr("xsi:type", m.kind)], Children(MenuChildren(m)))
  }

  /** The menu section: present only when a menu type is chosen. */
  function MenusNodes(className: string, m: Menu): seq<Node> {
    if m.kind == "" then [] else [Element("menus", [], Children([MenuNode(className, m)]))]
  }

  function RightNodes(rights: seq<(string, string)>): seq<Node> {
    seq(|rights|, i requires 0 <= i < |rights| =>
      Element("action", [Attr("id", "action:" + rights[i].0)], Text(rights[i].1)))
  }

  function ProfileNode(className: string, p: Profile): Node {
    Element("profile", [Attr("id", p.name)], Children([
      Element("groups", [], Children([
        Element("group", [Attr("id", className)], Children([
          Element("actions", [], Children(RightNodes(p.rights)))]))]))]))
  }

  function ProfileNodes(className: string, ps: seq<Profile>): seq<Node> {
    seq(|ps|, i requires 0 <= i < |ps| => ProfileNode(className, ps[i]))
  }

  function UserRightsNodes(className: string, u: UserRights): seq<Node> {
    if u.profiles == [] then []
    else [Element("user_rights", [], Children([Element("profiles", [], Children(ProfileNodes(className, u.profiles)))]))]
  }

  predicate HasBranding(b: Branding) {
    b.logo != "" || b.mainColor != "" || b.complementaryColor != ""
  }

  function BrandingNodes(b: Branding): seq<Node> {
    if !HasBranding(b) then []
    else [Element("branding", [], Children([
      TextElement("main_logo", b.logo),
      TextElement("main_color", b.mainColor),
      TextElement("complementary_color", b.complementaryColor)]))]
  }

  function RootAttrs(): seq<Attr> {
    [Attr("xmlns:xsi", SchemaInstance), Attr("version", "3.0")]
  }

  /** The children of the `itop_design` root, in document order. */
  function DesignChildren(d: ClassDefinition): seq<Node> {
    [ClassesNode(d)] + MenusNodes(d.className, d.menu)
      + UserRightsNodes(d.className, d.userRights) + BrandingNodes(d.branding)
  }

  /** The text of the document: the rendering of the design tree. */
  function DesignText(d: ClassDefinition): string {
    Document("itop_design", RootAttrs(), DesignChildren(d))
  }

  // ---------------------------------------------------------------------------
  // The literal lines the serializer writes, as renderings of tree nodes

  lemma DocumentLiterals(className: string, parentClass: string)
    ensures OpenTag(0, "itop_design", RootAttrs()) + "\n"
         == "<itop_design xmlns:xsi=\"http://www.w3.org/2001/XMLSchema-instance\" version=\"3.0\">\n"
    ensures OpenTag(1, "classes", []) + "\n" == "  <classes>\n"
    ensures OpenTag(2, "class", [Attr("id", className)]) + "\n" == "    <class id=\"" + className + "\">\n"
    ensures Render(TextElement("parent", parentClass), 3) == "      <parent>" + parentClass + "</parent>\n"
    ensures CloseLine(2, "class") == "    </class>\n"
    ensures CloseLine(1, "classes") == "  </classes>\n"
    ensures "</" + "itop_design" + ">" == "</itop_design>"
  {
    RootOpen();
    ClassesOpen();
    ClassOpen(className);
    ParentLine(parentClass);
    ClassClose();
    ClassesClose();
  }

  /** The `classes` section after any prefix, flattened into the pieces the
      serializer appends. */
  lemma ClassesStructure(x: string, d: ClassDefinition)
    ensures x + Render(ClassesNode(d), 1)
      == x + (OpenTag(1, "classes", []) + "\n") + (OpenTag(2, "class", [Attr("id", d.className)]) + "\n")
         + Render(TextElement("parent", d.parentClass), 3)
         + Render(PropertiesNode(d.properties), 3) + Render(FieldsNode(d.fields), 3)
         + RenderAll(LifecycleNodes(d.lifecycle), 3) + RenderAll(MethodsNodes(d.methods), 3)
         + RenderAll(IndexesNodes(d.indexes), 3) + RenderAll(RelationsNodes(d.relations), 3)
         + CloseLine(2, "class") + CloseLine(1, "classes")
  {
    var o1 := OpenTag(1, "classes", []) + "\n";
    var o2 := OpenTag(2, "class", [Attr("id", d.className)]) + "\n";
    var cc := ClassChildren(d);
    var cls := Element("class", [Attr("id", d.className)], Children(cc));
    RenderAllOne(cls, 2);
    assert Render(ClassesNode(d), 1) == o1 + Render(cls, 2) + CloseLine(1, "classes");
    Chain3(x, o1, Render(cls, 2), CloseLine(1, "classes"));
    assert Render(cls, 2) == o2 + RenderAll(cc, 3) + CloseLine(2, "class");
    Chain3(x + o1, o2, RenderAll(cc, 3), CloseLine(2, "class"));
    var base := [TextElement("parent", d.parentClass), PropertiesNode(d.properties), FieldsNode(d.fields)];
    var lc := LifecycleNodes(d.lifecycle);
    var ms := MethodsNodes(d.methods);
    var ix := IndexesNodes(d.indexes);
    var rs := RelationsNodes(d.relations);
    RenderThree(base[0], base[1], base[2], 3);
    RenderAllAppend(base, lc, 3);
    RenderAllAppend(base + lc, ms, 3);
    RenderAllAppend(base + lc + ms, ix, 3);
    RenderAllAppend(base + lc + ms + ix, rs, 3);
    Chain7(x + o1 + o2, Render(base[0], 3), Render(base[1], 3), Render(base[2], 3),
      RenderAll(lc, 3), RenderAll(ms, 3), RenderAll(ix, 3), RenderAll(rs, 3));
  }

  /** The document, flattened into the pieces the serializer appends. */
  lemma DesignStructure(d: ClassDefinition)
    ensures DesignText(d)
      == Declaration + (OpenTag(0, "itop_design", RootAttrs()) + "\n") + (OpenTag(1, "classes", []) + "\n")
         + (OpenTag(2, "class", [Attr("id", d.className)]) + "\n") + Render(TextElement("parent", d.parentClass), 3)
         + Render(PropertiesNode(d.properties), 3) + Render(FieldsNode(d.fields), 3)
         + RenderAll(LifecycleNodes(d.lifecycle), 3) + RenderAll(MethodsNodes(d.methods), 3)
         + RenderAll(IndexesNodes(d.indexes), 3) + RenderAll(RelationsNodes(d.relations), 3)
         + CloseLine(2, "class") + CloseLine(1, "classes")
         + RenderAll(MenusNodes(d.className, d.menu), 1) + RenderAll(UserRightsNodes(d.className, d.userRights), 1)
         + RenderAll(BrandingNodes(d.branding), 1) + ("</" + "itop_design" + ">")
  {
    var head := Declaration + (OpenTag(0, "itop_design", RootAttrs()) + "\n");
    var classes := ClassesNode(d);
    var mn := MenusNodes(d.className, d.menu);
    var ur := UserRightsNodes(d.className, d.userRights);
    var br := BrandingNodes(d.branding);
    RenderAllAppend([classes] + mn + ur, br, 1);
    RenderAllAppend([classes] + mn, ur, 1);
    RenderAllAppend([classes], mn, 1);
    RenderAllOne(classes, 1);
    Chain4(head, Render(classes, 1), RenderAll(mn, 1), RenderAll(ur, 1), RenderAll(br, 1));
    ClassesStructure(head, d);
  }

  /** The source's `generateXml`: one string, appended to section by
      section (each template literal one line at a time). Its text is
      exactly the rendering of the design tree. */
  method GenerateXml(
    className: string,
    parentClass: string,
    properties: ClassProperties,
    fields: seq<Field>,
    lifecycle: Lifecycle,
    methods: seq<Method>,
    indexes: seq<Index>,
    relations: seq<Relation>,
    menu: Menu,
    userRights: UserRights,
    branding: Branding)
    returns (xml: string)
    ensures xml == DesignText(ClassDefinition(className, parentClass, properties, fields, lifecycle,
                                              methods, indexes, relations, menu, userRights, branding))
  {
    xml := "<?xml version=\"1.0\" encoding=\"UTF-8\"?>\n";
    xml := xml + "<itop_design xmlns:xsi=\"http://www.w3.org/2001/XMLSchema-instance\" version=\"3.0\">\n";
    xml := xml + "  <classes>\n";
    xml := xml + ("    <class id=\"" + className + "\">\n");
    xml := xml + ("      <parent>" + parentClass + "</parent>\n");
    xml := AppendProperties(xml, properties);
    xml := AppendFields(xml, fields);
    xml := AppendLifecycle(xml, lifecycle);
    xml := AppendMethods(xml, methods);
    xml := AppendIndexes(xml, indexes);
    xml := AppendRelations(xml, relations);
    xml := xml + "    </class>\n";
    xml := xml + "  </classes>\n";
    xml := AppendMenu(xml, className, menu);
    xml := AppendUserRights(xml, className, userRights);
    xml := AppendBranding(xml, branding);
    xml := xml + "</itop_design>";
    DocumentLiterals(className, parentClass);
    DesignStructure(ClassDefinition(className, parentClass, properties, fields, lifecycle,
                                    methods, indexes, relations, menu, userRights, branding));
  }

  // Properties

  lemma PropertiesLiterals()
    ensures OpenTag(3, "properties", []) + "\n" == "      <properties>\n"
    ensures CloseLine(3, "properties") == "      </properties>\n"
  {
    PropertiesOpen();
    PropertiesClose();
  }

  /** Lines 96-103: one line per property whose value is not ''. */
  method AppendProperties(xml: string, properties: ClassProperties) returns (r: string)
    ensures r == xml + Render(PropertiesNode(properties), 3)
  {
    r := xml + "      <properties>\n";
    ghost var start := r;
    var entries := PropertyEntries(properties);
    var i := 0;
    while i < |entries|
      invariant 0 <= i <= |entries|
      invariant r == start + RenderAll(PropertyNodes(entries[..i]), 4)
    {
      var (key, value) := entries[i];
      assert entries[..i + 1][..i] == entries[..i];
      assert PropertyNodes(entries[..i + 1])
          == PropertyNodes(entries[..i]) + (if IsEmitted(value) then [TextElement(key, ValueText(value))] else []);
      if value != StringValue("") {
        PropertyLine(key, ValueText(value));
        SnocAppend(start, PropertyNodes(entries[..i]), TextElement(key, ValueText(value)), 4);
        r := r + ("        <" + key + ">" + ValueText(value) + "</" + key + ">\n");
      } else {
        assert PropertyNodes(entries[..i]) + [] == PropertyNodes(entries[..i]);
      }
      i := i + 1;
    }
    assert entries[..i] == entries;
    r := r + "      </properties>\n";
    PropertiesLiterals();
    ContainerLines(PropertiesNode(properties), 3, "      <properties>\n", "      </properties>\n");
    Chain3(xml, "      <properties>\n", RenderAll(PropertyNodes(entries), 4), "      </properties>\n");
  }

  // Fields

  lemma FieldsLiterals()
    ensures OpenTag(3, "fields", []) + "\n" == "      <fields>\n"
    ensures CloseLine(3, "fields") == "      </fields>\n"
  {
    FieldsOpen();
    FieldsClose();
  }

  /** Lines 104-126: one `field` element per field, in order. */
  method AppendFields(xml: string, fields: seq<Field>) returns (r: string)
    ensures r == xml + Render(FieldsNode(fields), 3)
  {
    r := xml + "      <fields>\n";
    ghost var start := r;
    var i := 0;
    while i < |fields|
      invariant 0 <= i <= |fields|
      invariant r == start + RenderAll(FieldNodes(fields)[..i], 4)
    {
      r := AppendField(r, fields[i]);
      PrefixAppend(start, FieldNodes(fields), i, 4);
      i := i + 1;
    }
    assert FieldNodes(fields)[..i] == FieldNodes(fields);
    r := r + "      </fields>\n";
    FieldsLiterals();
    ContainerLines(FieldsNode(fields), 3, "      <fields>\n", "      </fields>\n");
    Chain3(xml, "      <fields>\n", RenderAll(FieldNodes(fields), 4), "      </fields>\n");
  }

  lemma FieldLiterals(f: Field)
    ensures OpenTag(4, "field", [Attr("id", f.name), Attr("xsi:type", f.kind)]) + "\n"
         == "        <field id=\"" + f.name + "\" xsi:type=\"" + f.kind + "\">\n"
    ensures Render(TextElement("sql", f.name), 5) == "          <sql>" + f.name + "</sql>\n"
    ensures Render(TextElement("default_value", f.defaultValue), 5)
         == "          <default_value>" + f.defaultValue + "</default_value>\n"
    ensures Render(TextElement("is_null_allowed", BoolText(f.isNullAllowed)), 5)
         == "          <is_null_allowed>" + BoolText(f.isNullAllowed) + "</is_null_allowed>\n"
    ensures Render(TextElement("target_class", f.targetClass), 5)
         == "          <target_class>" + f.targetClass + "</target_class>\n"
    ensures CloseLine(4, "field") == "        </field>\n"
  {
    FieldOpen(f.name, f.kind);
    SqlLine(f.name);
    DefaultValueLine(f.defaultValue);
    IsNullAllowedLine(BoolText(f.isNullAllowed));
    TargetClassLine(f.targetClass);
    FieldClose();
  }

  lemma FieldStructure(f: Field)
    ensures Render(FieldNode(f), 4)
      == (OpenTag(4, "field", [Attr("id", f.name), Attr("xsi:type", f.kind)]) + "\n")
         + Render(TextElement("sql", f.name), 5) + Render(TextElement("default_value", f.defaultValue), 5)
         + Render(TextElement("is_null_allowed", BoolText(f.isNullAllowed)), 5)
         + RenderAll(FieldExtra(f), 5) + CloseLine(4, "field")
  {
    var base := FieldBase(f);
    RenderAllAppend(base, FieldExtra(f), 5);
    RenderThree(base[0], base[1], base[2], 5);
    Chain4(OpenTag(4, "field", [Attr("id", f.name), Attr("xsi:type", f.kind)]) + "\n",
      Render(base[0], 5), Render(base[1], 5), Render(base[2], 5), RenderAll(FieldExtra(f), 5));
  }

  /** Lines 107-123: the body of the `forEach` over fields. */
  method AppendField(xml: string, field: Field) returns (r: string)
    ensures r == xml + Render(FieldNode(field), 4)
  {
    r := xml + ("        <field id=\"" + field.name + "\" xsi:type=\"" + field.kind + "\">\n");
    r := r + ("          <sql>" + field.name + "</sql>\n");
    r := r + ("          <default_value>" + field.defaultValue + "</default_value>\n");
    r := r + ("          <is_null_allowed>" + BoolText(field.isNullAllowed) + "</is_null_allowed>\n");
    ghost var head := r;
    if field.kind == "AttributeEnum" && field.values != "" {
      r := AppendValues(r, Split(field.values, ','));
      RenderAllOne(ValuesNode(Split(field.values, ',')), 5);
    } else if field.kind == "AttributeExternalKey" && field.targetClass != "" {
      FieldLiterals(field);
      r := r + ("          <target_class>" + field.targetClass + "</target_class>\n");
      RenderAllOne(TextElement("target_class", field.targetClass), 5);
    }
    assert r == head + RenderAll(FieldExtra(field), 5);
    r := r + "        </field>\n";
    FieldLiterals(field);
    FieldStructure(field);
    Chain6(xml, "        <field id=\"" + field.name + "\" xsi:type=\"" + field.kind + "\">\n",
      "          <sql>" + field.name + "</sql>\n",
      "          <default_value>" + field.defaultValue + "</default_value>\n",
      "          <is_null_allowed>" + BoolText(field.isNullAllowed) + "</is_null_allowed>\n",
      RenderAll(FieldExtra(field), 5), "        </field>\n");
  }

  lemma ValuesLiterals()
    ensures OpenTag(5, "values", []) + "\n" == "          <values>\n"
    ensures CloseLine(5, "values") == "          </values>\n"
  {
    ValuesOpen();
    ValuesClose();
  }

  lemma ValueLine(index: nat, piece: string)
    ensures Render(ValueNode(index, piece), 6)
         == "            <value id=\"" + NatToString(index) + "\">" + Trim(piece) + "</value>\n"
  {
    Indent6();
    IdTextLineShape(6, "value", NatToString(index), Trim(piece), "            <value id=\"", "\">", "</value>\n");
  }

  /** Lines 113-117: one `value` per comma-separated piece, numbered from 0,
      trimmed. */
  method AppendValues(xml: string, pieces: seq<string>) returns (r: string)
    ensures r == xml + Render(ValuesNode(pieces), 5)
  {
    r := xml + "          <values>\n";
    ghost var start := r;
    var index := 0;
    while index < |pieces|
      invariant 0 <= index <= |pieces|
      invariant r == start + RenderAll(ValueNodes(pieces)[..index], 6)
    {
      ValueLine(index, pieces[index]);
      PrefixAppend(start, ValueNodes(pieces), index, 6);
      r := r + ("            <value id=\"" + NatToString(index) + "\">" + Trim(pieces[index]) + "</value>\n");
      index := index + 1;
    }
    assert ValueNodes(pieces)[..index] == ValueNodes(pieces);
    r := r + "          </values>\n";
    ValuesLiterals();
    ContainerLines(ValuesNode(pieces), 5, "          <values>\n", "          </values>\n");
    Chain3(xml, "          <values>\n", RenderAll(ValueNodes(pieces), 6), "          </values>\n");
  }

  // Lifecycle

  lemma LifecycleLiterals(attribute: string)
    ensures OpenTag(3, "lifecycle", []) + "\n" == "      <lifecycle>\n"
    ensures Render(TextElement("attribute", attribute), 4) == "        <attribute>" + attribute + "</attribute>\n"
    ensures OpenTag(4, "states", []) + "\n" == "        <states>\n"
    ensures CloseLine(4, "states") == "        </states>\n"
    ensures OpenTag(4, "transitions", []) + "\n" == "        <transitions>\n"
    ensures CloseLine(4, "transitions") == "        </transitions>\n"
    ensures CloseLine(3, "lifecycle") == "      </lifecycle>\n"
  {
    LifecycleOpen();
    AttributeLine(attribute);
    StatesOpen();
    StatesClose();
    TransitionsOpen();
    TransitionsClose();
    LifecycleClose();
  }

  lemma LifecycleStructure(l: Lifecycle)
    ensures Render(LifecycleNode(l), 3)
      == (OpenTag(3, "lifecycle", []) + "\n") + Render(TextElement("attribute", l.attribute), 4)
         + (OpenTag(4, "states", []) + "\n") + RenderAll(StateNodes(l.states), 5) + CloseLine(4, "states")
         + (OpenTag(4, "transitions", []) + "\n") + RenderAll(TransitionNodes(l.transitions), 5)
         + CloseLine(4, "transitions") + CloseLine(3, "lifecycle")
  {
    var cs := LifecycleNode(l).content.nodes;
    var o := OpenTag(3, "lifecycle", []) + "\n";
    RenderThree(cs[0], cs[1], cs[2], 4);
    Chain3(o, Render(cs[0], 4), Render(cs[1], 4), Render(cs[2], 4));
    assert Render(cs[1], 4)
        == (OpenTag(4, "states", []) + "\n") + RenderAll(StateNodes(l.states), 5) + CloseLine(4, "states");
    Chain3(o + Render(cs[0], 4), OpenTag(4, "states", []) + "\n", RenderAll(StateNodes(l.states), 5),
      CloseLine(4, "states"));
    assert Render(cs[2], 4)
        == (OpenTag(4, "transitions", []) + "\n") + RenderAll(TransitionNodes(l.transitions), 5)
           + CloseLine(4, "transitions");
    Chain3(o + Render(cs[0], 4) + (OpenTag(4, "states", []) + "\n") + RenderAll(StateNodes(l.states), 5)
      + CloseLine(4, "states"), OpenTag(4, "transitions", []) + "\n", RenderAll(TransitionNodes(l.transitions), 5),
      CloseLine(4, "transitions"));
  }

  /** Lines 128-163: the lifecycle block, when an attribute is set. */
  method AppendLifecycle(xml: string, lifecycle: Lifecycle) returns (r: string)
    ensures r == xml + RenderAll(LifecycleNodes(lifecycle), 3)
  {
    r := xml;
    if lifecycle.attribute != "" {
      r := r + "      <lifecycle>\n";
      r := r + ("        <attribute>" + lifecycle.attribute + "</attribute>\n");
      r := r + "        <states>\n";
      r := AppendStates(r, lifecycle.states);
      r := r + "        </states>\n";
      r := r + "        <transitions>\n";
      r := AppendTransitions(r, lifecycle.transitions);
      r := r + "        </transitions>\n";
      r := r + "      </lifecycle>\n";
      LifecycleLiterals(lifecycle.attribute);
      LifecycleStructure(lifecycle);
      RenderAllOne(LifecycleNode(lifecycle), 3);
      Chain9(xml, "      <lifecycle>\n", "        <attribute>" + lifecycle.attribute + "</attribute>\n",
        "        <states>\n", RenderAll(StateNodes(lifecycle.states), 5), "        </states>\n",
        "        <transitions>\n", RenderAll(TransitionNodes(lifecycle.transitions), 5),
        "        </transitions>\n", "      </lifecycle>\n");
    }
  }

  method AppendStates(xml: string, states: seq<LifecycleState>) returns (r: string)
    ensures r == xml + RenderAll(StateNodes(states), 5)
  {
    r := xml;
    var i := 0;
    while i < |states|
      invariant 0 <= i <= |states|
      invariant r == xml + RenderAll(StateNodes(states)[..i], 5)
    {
      r := AppendState(r, states[i]);
      PrefixAppend(xml, StateNodes(states), i, 5);
      i := i + 1;
    }
    assert StateNodes(states)[..i] == StateNodes(states);
  }

  lemma StateLiterals(s: LifecycleState)
    ensures OpenTag(5, "state", [Attr("id", s.name)]) + "\n" == "          <state id=\"" + s.name + "\">\n"
    ensures OpenTag(6, "flags", []) + "\n" == "            <flags>\n"
    ensures CloseLine(6, "flags") == "            </flags>\n"
    ensures Render(TextElement("highlight", s.highlight), 6) == "            <highlight>" + s.highlight + "</highlight>\n"
    ensures CloseLine(5, "state") == "          </state>\n"
  {
    StateOpen(s.name);
    FlagsOpen();
    FlagsClose();
    HighlightLine(s.highlight);
    StateClose();
  }

  lemma StateStructure(s: LifecycleState)
    ensures Render(StateNode(s), 5)
      == (OpenTag(5, "state", [Attr("id", s.name)]) + "\n") + (OpenTag(6, "flags", []) + "\n")
         + RenderAll(FlagNodes(s.flags), 7) + CloseLine(6, "flags")
         + Render(TextElement("highlight", s.highlight), 6) + CloseLine(5, "state")
  {
    var cs := StateNode(s).content.nodes;
    var o := OpenTag(5, "state", [Attr("id", s.name)]) + "\n";
    RenderTwo(cs[0], cs[1], 6);
    Chain2(o, Render(cs[0], 6), Render(cs[1], 6));
    assert Render(cs[0], 6) == (OpenTag(6, "flags", []) + "\n") + RenderAll(FlagNodes(s.flags), 7) + CloseLine(6, "flags");
    Chain3(o, OpenTag(6, "flags", []) + "\n", RenderAll(FlagNodes(s.flags), 7), CloseLine(6, "flags"));
  }

  /** Lines 135-145: one state, one line per flag. */
  method AppendState(xml: string, state: LifecycleState) returns (r: string)
    ensures r == xml + Render(StateNode(state), 5)
  {
    r := xml + ("          <state id=\"" + state.name + "\">\n");
    r := r + "            <flags>\n";
    r := AppendFlags(r, state.flags);
    r := r + "            </flags>\n";
    r := r + ("            <highlight>" + state.highlight + "</highlight>\n");
    r := r + "          </state>\n";
    StateLiterals(state);
    StateStructure(state);
    Chain6(xml, "          <state id=\"" + state.name + "\">\n", "            <flags>\n",
      RenderAll(FlagNodes(state.flags), 7), "            </flags>\n",
      "            <highlight>" + state.highlight + "</highlight>\n", "          </state>\n");
  }

  method AppendFlags(xml: string, flags: seq<(string, bool)>) returns (r: string)
    ensures r == xml + RenderAll(FlagNodes(flags), 7)
  {
    r := xml;
    var i := 0;
    while i < |flags|
      invariant 0 <= i <= |flags|
      invariant r == xml + RenderAll(FlagNodes(flags)[..i], 7)
    {
      var (flag, value) := flags[i];
      FlagLine(flag, value);
      PrefixAppend(xml, FlagNodes(flags), i, 7);
      r := r + ("              <" + flag + ">" + BoolText(value) + "</" + flag + ">\n");
      i := i + 1;
    }
    assert FlagNodes(flags)[..i] == FlagNodes(flags);
  }

  method AppendTransitions(xml: string, transitions: seq<LifecycleTransition>) returns (r: string)
    ensures r == xml + RenderAll(TransitionNodes(transitions), 5)
  {
    r := xml;
    var i := 0;
    while i < |transitions|
      invariant 0 <= i <= |transitions|
      invariant r == xml + RenderAll(TransitionNodes(transitions)[..i], 5)
    {
      r := AppendTransition(r, transitions[i]);
      PrefixAppend(xml, TransitionNodes(transitions), i, 5);
      i := i + 1;
    }
    assert TransitionNodes(transitions)[..i] == TransitionNodes(transitions);
  }

  lemma TransitionLiterals(t: LifecycleTransition)
    ensures OpenTag(5, "transition", [Attr("id", t.stimulus)]) + "\n"
         == "          <transition id=\"" + t.stimulus + "\">\n"
    ensures Render(TextElement("target", t.target), 6) == "            <target>" + t.target + "</target>\n"
    ensures OpenTag(6, "actions", []) + "\n" == "            <actions>\n"
    ensures CloseLine(6, "actions") == "            </actions>\n"
    ensures CloseLine(5, "transition") == "          </transition>\n"
  {
    TransitionOpen(t.stimulus);
    TargetLine(t.target);
    ActionsOpen();
    ActionsClose();
    TransitionClose();
  }

  lemma TransitionStructure(t: LifecycleTransition)
    ensures Render(TransitionNode(t), 5)
      == (OpenTag(5, "transition", [Attr("id", t.stimulus)]) + "\n") + Render(TextElement("target", t.target), 6)
         + (OpenTag(6, "actions", []) + "\n") + RenderAll(ActionNodes(t.actions), 7) + CloseLine(6, "actions")
         + CloseLine(5, "transition")
  {
    var cs := TransitionNode(t).content.nodes;
    var o := OpenTag(5, "transition", [Attr("id", t.stimulus)]) + "\n";
    RenderTwo(cs[0], cs[1], 6);
    Chain2(o, Render(cs[0], 6), Render(cs[1], 6));
    assert Render(cs[1], 6)
        == (OpenTag(6, "actions", []) + "\n") + RenderAll(ActionNodes(t.actions), 7) + CloseLine(6, "actions");
    Chain3(o + Render(cs[0], 6), OpenTag(6, "actions", []) + "\n", RenderAll(ActionNodes(t.actions), 7),
      CloseLine(6, "actions"));
  }

  /** Lines 149-159: one transition, one `action`/`verb` per action. */
  method AppendTransition(xml: string, transition: LifecycleTransition) returns (r: string)
    ensures r == xml + Render(TransitionNode(transition), 5)
  {
    r := xml + ("          <transition id=\"" + transition.stimulus + "\">\n");
    r := r + ("            <target>" + transition.target + "</target>\n");
    r := r + "            <actions>\n";
    r := AppendActions(r, transition.actions);
    r := r + "            </actions>\n";
    r := r + "          </transition>\n";
    TransitionLiterals(transition);
    TransitionStructure(transition);
    Chain6(xml, "          <transition id=\"" + transition.stimulus + "\">\n",
      "            <target>" + transition.target + "</target>\n", "            <actions>\n",
      RenderAll(ActionNodes(transition.actions), 7), "            </actions>\n", "          </transition>\n");
  }

  lemma ActionLines(verb: string)
    ensures Render(ActionNode(verb), 7)
         == "              <action>\n" + ("                <verb>" + verb + "</verb>\n") + "              </action>\n"
  {
    Indent7(); Indent8();
    var v := TextElement("verb", verb);
    RenderAllOne(v, 8);
    OpenLineShape(7, "action", "              <action>\n");
    TextLineShape(8, "verb", verb, "                <verb>", "</verb>\n");
    ContainerLines(ActionNode(verb), 7, "              <action>\n", "              </action>\n");
  }

  method AppendActions(xml: string, verbs: seq<string>) returns (r: string)
    ensures r == xml + RenderAll(ActionNodes(verbs), 7)
  {
    r := xml;
    var i := 0;
    while i < |verbs|
      invariant 0 <= i <= |verbs|
      invariant r == xml + RenderAll(ActionNodes(verbs)[..i], 7)
    {
      ghost var before := r;
      r := r + "              <action>\n";
      r := r + ("                <verb>" + verbs[i] + "</verb>\n");
      r := r + "              </action>\n";
      ActionLines(verbs[i]);
      Chain3(before, "              <action>\n", "                <verb>" + verbs[i] + "</verb>\n",
        "              </action>\n");
      PrefixAppend(xml, ActionNodes(verbs), i, 7);
      i := i + 1;
    }
    assert ActionNodes(verbs)[..i] == ActionNodes(verbs);
  }

  // Methods

  /** A section at depth 3 whose open and close lines surround its items. */
  lemma SectionLines(name: string, items: seq<Node>, open: string, close: string)
    requires open == OpenTag(3, name, []) + "\n" && close == CloseLine(3, name)
    ensures RenderAll([Element(name, [], Children(items))], 3) == open + RenderAll(items, 4) + close
  {
    RenderAllOne(Element(name, [], Children(items)), 3);
  }

  /** Lines 165-177: the methods block, when there are methods. */
  method AppendMethods(xml: string, methods: seq<Method>) returns (r: string)
    ensures r == xml + RenderAll(MethodsNodes(methods), 3)
  {
    r := xml;
    if |methods| > 0 {
      r := r + "      <methods>\n";
      r := AppendMethodList(r, methods);
      r := r + "      </methods>\n";
      MethodsOpen();
      MethodsClose();
      SectionLines("methods", MethodNodes(methods), "      <methods>\n", "      </methods>\n");
      Chain3(xml, "      <methods>\n", RenderAll(MethodNodes(methods), 4), "      </methods>\n");
    }
  }

  method AppendMethodList(xml: string, methods: seq<Method>) returns (r: string)
    ensures r == xml + RenderAll(MethodNodes(methods), 4)
  {
    r := xml;
    var i := 0;
    while i < |methods|
      invariant 0 <= i <= |methods|
      invariant r == xml + RenderAll(MethodNodes(methods)[..i], 4)
    {
      r := AppendMethod(r, methods[i]);
      PrefixAppend(xml, MethodNodes(methods), i, 4);
      i := i + 1;
    }
    assert MethodNodes(methods)[..i] == MethodNodes(methods);
  }

  lemma MethodLiterals(m: Method)
    ensures OpenTag(4, "method", [Attr("id", m.name)]) + "\n" == "        <method id=\"" + m.name + "\">\n"
    ensures Render(TextElement("static", "false"), 5) == "          <static>false</static>\n"
    ensures Render(TextElement("access", "public"), 5) == "          <access>public</access>\n"
    ensures Render(TextElement("type", m.kind), 5) == "          <type>" + m.kind + "</type>\n"
    ensures Render(Element("code", [], CData(m.code)), 5) == "          <code><![CDATA[" + m.code + "]]></code>\n"
    ensures CloseLine(4, "method") == "        </method>\n"
  {
    MethodOpen(m.name);
    StaticLine("false");
    AccessLine("public");
    TypeLine(m.kind);
    CodeLine(m.code);
    MethodClose();
  }

  lemma MethodStructure(m: Method)
    ensures Render(MethodNode(m), 4)
      == (OpenTag(4, "method", [Attr("id", m.name)]) + "\n") + Render(TextElement("static", "false"), 5)
         + Render(TextElement("access", "public"), 5) + Render(TextElement("type", m.kind), 5)
         + Render(Element("code", [], CData(m.code)), 5) + CloseLine(4, "method")
  {
    var cs := MethodNode(m).content.nodes;
    RenderFour(cs[0], cs[1], cs[2], cs[3], 5);
    Chain4(OpenTag(4, "method", [Attr("id", m.name)]) + "\n",
      Render(cs[0], 5), Render(cs[1], 5), Render(cs[2], 5), Render(cs[3], 5));
  }

  /** Lines 168-175: one method, written as a public non-static PHP method. */
  method AppendMethod(xml: string, m: Method) returns (r: string)
    ensures r == xml + Render(MethodNode(m), 4)
  {
    r := xml + ("        <method id=\"" + m.name + "\">\n");
    r := r + "          <static>false</static>\n";
    r := r + "          <access>public</access>\n";
    r := r + ("          <type>" + m.kind + "</type>\n");
    r := r + ("          <code><![CDATA[" + m.code + "]]></code>\n");
    r := r + "        </method>\n";
    MethodLiterals(m);
    MethodStructure(m);
    Chain6(xml, "        <method id=\"" + m.name + "\">\n", "          <static>false</static>\n",
      "          <access>public</access>\n", "          <type>" + m.kind + "</type>\n",
      "          <code><![CDATA[" + m.code + "]]></code>\n", "        </method>\n");
  }

  // Indexes

  /** Lines 179-192: the indexes block, one `attribute` per indexed field. */
  method AppendIndexes(xml: string, indexes: seq<Index>) returns (r: string)
    ensures r == xml + RenderAll(IndexesNodes(indexes), 3)
  {
    r := xml;
    if |indexes| > 0 {
      r := r + "      <indexes>\n";
      r := AppendIndexList(r, indexes);
      r := r + "      </indexes>\n";
      IndexesOpen();
      IndexesClose();
      SectionLines("indexes", IndexNodes(indexes), "      <indexes>\n", "      </indexes>\n");
      Chain3(xml, "      <indexes>\n", RenderAll(IndexNodes(indexes), 4), "      </indexes>\n");
    }
  }

  method AppendIndexList(xml: string, indexes: seq<Index>) returns (r: string)
    ensures r == xml + RenderAll(IndexNodes(indexes), 4)
  {
    r := xml;
    var i := 0;
    while i < |indexes|
      invariant 0 <= i <= |indexes|
      invariant r == xml + RenderAll(IndexNodes(indexes)[..i], 4)
    {
      r := AppendIndex(r, indexes[i]);
      PrefixAppend(xml, IndexNodes(indexes), i, 4);
      i := i + 1;
    }
    assert IndexNodes(indexes)[..i] == IndexNodes(indexes);
  }

  lemma IndexLiterals(ix: Index)
    ensures OpenTag(4, "index", [Attr("id", ix.name)]) + "\n" == "        <index id=\"" + ix.name + "\">\n"
    ensures OpenTag(5, "attributes", []) + "\n" == "          <attributes>\n"
    ensures CloseLine(5, "attributes") == "          </attributes>\n"
    ensures CloseLine(4, "index") == "        </index>\n"
  {
    IndexOpen(ix.name);
    AttributesOpen();
    AttributesClose();
    IndexClose();
  }

  lemma IndexStructure(ix: Index)
    ensures Render(IndexNode(ix), 4)
      == (OpenTag(4, "index", [Attr("id", ix.name)]) + "\n") + (OpenTag(5, "attributes", []) + "\n")
         + RenderAll(AttributeNodes(ix.fields), 6) + CloseLine(5, "attributes") + CloseLine(4, "index")
  {
    var a := IndexNode(ix).content.nodes[0];
    RenderAllOne(a, 5);
    assert Render(a, 5) == (OpenTag(5, "attributes", []) + "\n") + RenderAll(AttributeNodes(ix.fields), 6)
      + CloseLine(5, "attributes");
    Chain3(OpenTag(4, "index", [Attr("id", ix.name)]) + "\n", OpenTag(5, "attributes", []) + "\n",
      RenderAll(AttributeNodes(ix.fields), 6), CloseLine(5, "attributes"));
  }

  method AppendIndex(xml: string, index: Index) returns (r: string)
    ensures r == xml + Render(IndexNode(index), 4)
  {
    r := xml + ("        <index id=\"" + index.name + "\">\n");
    r := r + "          <attributes>\n";
    r := AppendIndexAttributes(r, index.fields);
    r := r + "          </attributes>\n";
    r := r + "        </index>\n";
    IndexLiterals(index);
    IndexStructure(index);
    Chain5(xml, "        <index id=\"" + index.name + "\">\n", "          <attributes>\n",
      RenderAll(AttributeNodes(index.fields), 6), "          </attributes>\n", "        </index>\n");
  }

  method AppendIndexAttributes(xml: string, fields: seq<string>) returns (r: string)
    ensures r == xml + RenderAll(AttributeNodes(fields), 6)
  {
    r := xml;
    var i := 0;
    while i < |fields|
      invariant 0 <= i <= |fields|
      invariant r == xml + RenderAll(AttributeNodes(fields)[..i], 6)
    {
      IndexAttributeLine(fields[i]);
      PrefixAppend(xml, AttributeNodes(fields), i, 6);
      r := r + ("            <attribute id=\"" + fields[i] + "\"/>\n");
      i := i + 1;
    }
    assert AttributeNodes(fields)[..i] == AttributeNodes(fields);
  }

  // Relations

  /** Lines 194-208: the relations block, one neighbour per relation. */
  method AppendRelations(xml: string, relations: seq<Relation>) returns (r: string)
    ensures r == xml + RenderAll(RelationsNodes(relations), 3)
  {
    r := xml;
    if |relations| > 0 {
      r := r + "      <relations>\n";
      r := AppendRelationList(r, relations);
      r := r + "      </relations>\n";
      RelationsOpen();
      RelationsClose();
      SectionLines("relations", RelationNodes(relations), "      <relations>\n", "      </relations>\n");
      Chain3(xml, "      <relations>\n", RenderAll(RelationNodes(relations), 4), "      </relations>\n");
    }
  }

  method AppendRelationList(xml: string, relations: seq<Relation>) returns (r: string)
    ensures r == xml + RenderAll(RelationNodes(relations), 4)
  {
    r := xml;
    var i := 0;
    while i < |relations|
      invariant 0 <= i <= |relations|
      invariant r == xml + RenderAll(RelationNodes(relations)[..i], 4)
    {
      r := AppendRelation(r, relations[i]);
      PrefixAppend(xml, RelationNodes(relations), i, 4);
      i := i + 1;
    }
    assert RelationNodes(relations)[..i] == RelationNodes(relations);
  }

  lemma RelationLiterals(rel: Relation)
    ensures OpenTag(4, "relation", [Attr("id", rel.kind)]) + "\n" == "        <relation id=\"" + rel.kind + "\">\n"
    ensures OpenTag(5, "neighbours", []) + "\n" == "          <neighbours>\n"
    ensures OpenTag(6, "neighbour", [Attr("id", rel.neighbourClass)]) + "\n"
         == "            <neighbour id=\"" + rel.neighbourClass + "\">\n"
    ensures Render(TextElement("query_down", rel.queryDown), 7)
         == "              <query_down>" + rel.queryDown + "</query_down>\n"
    ensures Render(TextElement("query_up", rel.queryUp), 7) == "              <query_up>" + rel.queryUp + "</query_up>\n"
    ensures CloseLine(6, "neighbour") == "            </neighbour>\n"
    ensures CloseLine(5, "neighbours") == "          </neighbours>\n"
    ensures CloseLine(4, "relation") == "        </relation>\n"
  {
    RelationOpen(rel.kind);
    NeighboursOpen();
    NeighbourOpen(rel.neighbourClass);
    QueryDownLine(rel.queryDown);
    QueryUpLine(rel.queryUp);
    NeighbourClose();
    NeighboursClose();
    RelationClose();
  }

  lemma RelationStructure(rel: Relation)
    ensures Render(RelationNode(rel), 4)
      == (OpenTag(4, "relation", [Attr("id", rel.kind)]) + "\n") + (OpenTag(5, "neighbours", []) + "\n")
         + (OpenTag(6, "neighbour", [Attr("id", rel.neighbourClass)]) + "\n")
         + Render(TextElement("query_down", rel.queryDown), 7) + Render(TextElement("query_up", rel.queryUp), 7)
         + CloseLine(6, "neighbour") + CloseLine(5, "neighbours") + CloseLine(4, "relation")
  {
    var nb := NeighbourNode(rel);
    var ns := Element("neighbours", [], Children([nb]));
    var o4 := OpenTag(4, "relation", [Attr("id", rel.kind)]) + "\n";
    var o5 := OpenTag(5, "neighbours", []) + "\n";
    var o6 := OpenTag(6, "neighbour", [Attr("id", rel.neighbourClass)]) + "\n";
    var qd := Render(TextElement("query_down", rel.queryDown), 7);
    var qu := Render(TextElement("query_up", rel.queryUp), 7);
    RenderTwo(TextElement("query_down", rel.queryDown), TextElement("query_up", rel.queryUp), 7);
    assert Render(nb, 6) == o6 + (qd + qu) + CloseLine(6, "neighbour");
    RenderAllOne(nb, 6);
    assert Render(ns, 5) == o5 + Render(nb, 6) + CloseLine(5, "neighbours");
    RenderAllOne(ns, 5);
    assert Render(RelationNode(rel), 4) == o4 + Render(ns, 5) + CloseLine(4, "relation");
    Chain3(o4, o5, Render(nb, 6), CloseLine(5, "neighbours"));
    Chain3(o4 + o5, o6, qd + qu, CloseLine(6, "neighbour"));
    Chain2(o4 + o5 + o6, qd, qu);
  }

  method AppendRelation(xml: string, rel: Relation) returns (r: string)
    ensures r == xml + Render(RelationNode(rel), 4)
  {
    r := xml + ("        <relation id=\"" + rel.kind + "\">\n");
    r := r + "          <neighbours>\n";
    r := r + ("            <neighbour id=\"" + rel.neighbourClass + "\">\n");
    r := r + ("              <query_down>" + rel.queryDown + "</query_down>\n");
    r := r + ("              <query_up>" + rel.queryUp + "</query_up>\n");
    r := r + "            </neighbour>\n";
    r := r + "          </neighbours>\n";
    r := r + "        </relation>\n";
    RelationLiterals(rel);
    RelationStructure(rel);
    Chain8(xml, "        <relation id=\"" + rel.kind + "\">\n", "          <neighbours>\n",
      "            <neighbour id=\"" + rel.neighbourClass + "\">\n",
      "              <query_down>" + rel.queryDown + "</query_down>\n",
      "              <query_up>" + rel.queryUp + "</query_up>\n", "            </neighbour>\n",
      "          </neighbours>\n", "        </relation>\n");
  }

  // Menu

  lemma MenuLiterals(className: string, m: Menu)
    ensures OpenTag(1, "menus", []) + "\n" == "  <menus>\n"
    ensures OpenTag(2, "menu", [Attr("id", className + "_menu"), Attr("xsi:type", m.kind)]) + "\n"
         == "    <menu id=\"" + className + "_menu\" xsi:type=\"" + m.kind + "\">\n"
    ensures Render(TextElement("rank", IntToString(m.rank)), 3) == "      <rank>" + IntToString(m.rank) + "</rank>\n"
    ensures Render(TextElement("parent", m.parent), 3) == "      <parent>" + m.parent + "</parent>\n"
    ensures Render(TextElement("oql", m.oql), 3) == "      <oql>" + m.oql + "</oql>\n"
    ensures CloseLine(2, "menu") == "    </menu>\n"
    ensures CloseLine(1, "menus") == "  </menus>\n"
  {
    MenusOpen();
    MenuOpen(className, m.kind);
    RankLine(IntToString(m.rank));
    ParentLine(m.parent);
    OqlLine(m.oql);
    MenuClose();
    MenusClose();
  }

  lemma MenuStructure(className: string, m: Menu)
    requires m.kind != ""
    ensures RenderAll(MenusNodes(className, m), 1)
      == (OpenTag(1, "menus", []) + "\n")
         + (OpenTag(2, "menu", [Attr("id", className + "_menu"), Attr("xsi:type", m.kind)]) + "\n")
         + Render(TextElement("rank", IntToString(m.rank)), 3) + Render(TextElement("parent", m.parent), 3)
         + RenderAll(OqlNodes(m), 3) + CloseLine(2, "menu") + CloseLine(1, "menus")
  {
    var mn := MenuNode(className, m);
    var menus := Element("menus", [], Children([mn]));
    var o1 := OpenTag(1, "menus", []) + "\n";
    var o2 := OpenTag(2, "menu", [Attr("id", className + "_menu"), Attr("xsi:type", m.kind)]) + "\n";
    var base := [TextElement("rank", IntToString(m.rank)), TextElement("parent", m.parent)];
    var x := RenderAll(MenuChildren(m), 3);
    RenderAllOne(menus, 1);
    RenderAllOne(mn, 2);
    assert Render(mn, 2) == o2 + x + CloseLine(2, "menu");
    Chain3(o1, o2, x, CloseLine(2, "menu"));
    RenderAllAppend(base, OqlNodes(m), 3);
    RenderTwo(base[0], base[1], 3);
    Chain3(o1 + o2, Render(base[0], 3), Render(base[1], 3), RenderAll(OqlNodes(m), 3));
  }

  lemma OqlSection(oql: string)
    ensures RenderAll([TextElement("oql", oql)], 3) == "      <oql>" + oql + "</oql>\n"
  {
    RenderAllOne(TextElement("oql", oql), 3);
    OqlLine(oql);
  }

  /** Lines 213-224: the menu block, when a menu type is chosen; the query
      only for an OQL menu node. */
  method AppendMenu(xml: string, className: string, menu: Menu) returns (r: string)
    ensures r == xml + RenderAll(MenusNodes(className, menu), 1)
  {
    r := xml;
    if menu.kind != "" {
      r := r + "  <menus>\n";
      r := r + ("    <menu id=\"" + className + "_menu\" xsi:type=\"" + menu.kind + "\">\n");
      r := r + ("      <rank>" + IntToString(menu.rank) + "</rank>\n");
      r := r + ("      <parent>" + menu.parent + "</parent>\n");
      ghost var head := r;
      if menu.kind == "OQLMenuNode" {
        r := r + ("      <oql>" + menu.oql + "</oql>\n");
        OqlSection(menu.oql);
      }
      assert r == head + RenderAll(OqlNodes(menu), 3);
      r := r + "    </menu>\n";
      r := r + "  </menus>\n";
      MenuLiterals(className, menu);
      MenuStructure(className, menu);
      Chain7(xml, "  <menus>\n", "    <menu id=\"" + className + "_menu\" xsi:type=\"" + menu.kind + "\">\n",
        "      <rank>" + IntToString(menu.rank) + "</rank>\n", "      <parent>" + menu.parent + "</parent>\n",
        RenderAll(OqlNodes(menu), 3), "    </menu>\n", "  </menus>\n");
    }
  }

  // User rights

  lemma UserRightsLiterals()
    ensures OpenTag(1, "user_rights", []) + "\n" == "  <user_rights>\n"
    ensures OpenTag(2, "profiles", []) + "\n" == "    <profiles>\n"
    ensures CloseLine(2, "profiles") == "    </profiles>\n"
    ensures CloseLine(1, "user_rights") == "  </user_rights>\n"
  {
    UserRightsOpen();
    ProfilesOpen();
    ProfilesClose();
    UserRightsClose();
  }

  lemma UserRightsStructure(className: string, u: UserRights)
    requires u.profiles != []
    ensures RenderAll(UserRightsNodes(className, u), 1)
      == (OpenTag(1, "user_rights", []) + "\n") + (OpenTag(2, "profiles", []) + "\n")
         + RenderAll(ProfileNodes(className, u.profiles), 3) + CloseLine(2, "profiles") + CloseLine(1, "user_rights")
  {
    var ps := Element("profiles", [], Children(ProfileNodes(className, u.profiles)));
    var ur := Element("user_rights", [], Children([ps]));
    RenderAllOne(ur, 1);
    RenderAllOne(ps, 2);
    assert Render(ur, 1) == (OpenTag(1, "user_rights", []) + "\n") + Render(ps, 2) + CloseLine(1, "user_rights");
    Chain3(OpenTag(1, "user_rights", []) + "\n", OpenTag(2, "profiles", []) + "\n",
      RenderAll(ProfileNodes(className, u.profiles), 3), CloseLine(2, "profiles"));
  }

  /** Lines 226-245: the user rights block, when there are profiles. */
  method AppendUserRights(xml: string, className: string, userRights: UserRights) returns (r: string)
    ensures r == xml + RenderAll(UserRightsNodes(className, userRights), 1)
  {
    r := xml;
    if |userRights.profiles| > 0 {
      r := r + "  <user_rights>\n";
      r := r + "    <profiles>\n";
      r := AppendProfileList(r, className, userRights.profiles);
      r := r + "    </profiles>\n";
      r := r + "  </user_rights>\n";
      UserRightsLiterals();
      UserRightsStructure(className, userRights);
      Chain5(xml, "  <user_rights>\n", "    <profiles>\n", RenderAll(ProfileNodes(className, userRights.profiles), 3),
        "    </profiles>\n", "  </user_rights>\n");
    }
  }

  method AppendProfileList(xml: string, className: string, profiles: seq<Profile>) returns (r: string)
    ensures r == xml + RenderAll(ProfileNodes(className, profiles), 3)
  {
    r := xml;
    var i := 0;
    while i < |profiles|
      invariant 0 <= i <= |profiles|
      invariant r == xml + RenderAll(ProfileNodes(className, profiles)[..i], 3)
    {
      r := AppendProfile(r, className, profiles[i]);
      PrefixAppend(xml, ProfileNodes(className, profiles), i, 3);
      i := i + 1;
    }
    assert ProfileNodes(className, profiles)[..i] == ProfileNodes(className, profiles);
  }


  lemma ProfileLiterals(className: string, p: Profile)
    ensures OpenTag(3, "profile", [Attr("id", p.name)]) + "\n" == "      <profile id=\"" + p.name + "\">\n"
    ensures OpenTag(4, "groups", []) + "\n" == "        <groups>\n"
    ensures OpenTag(5, "group", [Attr("id", className)]) + "\n" == "          <group id=\"" + className + "\">\n"
    ensures OpenTag(6, "actions", []) + "\n" == "            <actions>\n"
    ensures CloseLine(6, "actions") == "            </actions>\n"
    ensures CloseLine(5, "group") == "          </group>\n"
    ensures CloseLine(4, "groups") == "        </groups>\n"
    ensures CloseLine(3, "profile") == "      </profile>\n"
  {
    ProfileOpen(p.name);
    GroupsOpen();
    GroupOpen(className);
    ActionsOpen();
    ActionsClose();
    GroupClose();
    GroupsClose();
    ProfileClose();
  }

  lemma ProfileStructure(className: string, p: Profile)
    ensures Render(ProfileNode(className, p), 3)
      == (OpenTag(3, "profile", [Attr("id", p.name)]) + "\n") + (OpenTag(4, "groups", []) + "\n")
         + (OpenTag(5, "group", [Attr("id", className)]) + "\n") + (OpenTag(6, "actions", []) + "\n")
         + RenderAll(RightNodes(p.rights), 7) + CloseLine(6, "actions") + CloseLine(5, "group")
         + CloseLine(4, "groups") + CloseLine(3, "profile")
  {
    var acts := Element("actions", [], Children(RightNodes(p.rights)));
    var g := Element("group", [Attr("id", className)], Children([acts]));
    var gs := Element("groups", [], Children([g]));
    var op := OpenTag(3, "profile", [Attr("id", p.name)]) + "\n";
    var ogs := OpenTag(4, "groups", []) + "\n";
    var og := OpenTag(5, "group", [Attr("id", className)]) + "\n";
    RenderAllOne(gs, 4);
    RenderAllOne(g, 5);
    RenderAllOne(acts, 6);
    assert Render(ProfileNode(className, p), 3) == op + Render(gs, 4) + CloseLine(3, "profile");
    assert Render(gs, 4) == ogs + Render(g, 5) + CloseLine(4, "groups");
    Chain3(op, ogs, Render(g, 5), CloseLine(4, "groups"));
    assert Render(g, 5) == og + Render(acts, 6) + CloseLine(5, "group");
    Chain3(op + ogs, og, Render(acts, 6), CloseLine(5, "group"));
    Chain3(op + ogs + og, OpenTag(6, "actions", []) + "\n", RenderAll(RightNodes(p.rights), 7), CloseLine(6, "actions"));
  }

  /** Lines 231-241: one profile, granting its rights on the class's group. */
  method AppendProfile(xml: string, className: string, profile: Profile) returns (r: string)
    ensures r == xml + Render(ProfileNode(className, profile), 3)
  {
    r := xml + ("      <profile id=\"" + profile.name + "\">\n");
    r := r + "        <groups>\n";
    r := r + ("          <group id=\"" + className + "\">\n");
    r := r + "            <actions>\n";
    r := AppendRights(r, profile.rights);
    r := r + "            </actions>\n";
    r := r + "          </group>\n";
    r := r + "        </groups>\n";
    r := r + "      </profile>\n";
    ProfileLiterals(className, profile);
    ProfileStructure(className, profile);
    Chain9(xml, "      <profile id=\"" + profile.name + "\">\n", "        <groups>\n",
      "          <group id=\"" + className + "\">\n", "            <actions>\n", RenderAll(RightNodes(profile.rights), 7),
      "            </actions>\n", "          </group>\n", "        </groups>\n", "      </profile>\n");
  }

  method AppendRights(xml: string, rights: seq<(string, string)>) returns (r: string)
    ensures r == xml + RenderAll(RightNodes(rights), 7)
  {
    r := xml;
    var i := 0;
    while i < |rights|
      invariant 0 <= i <= |rights|
      invariant r == xml + RenderAll(RightNodes(rights)[..i], 7)
    {
      var (action, right) := rights[i];
      RightLine(action, right);
      PrefixAppend(xml, RightNodes(rights), i, 7);
      r := r + ("              <action id=\"action:" + action + "\">" + right + "</action>\n");
      i := i + 1;
    }
    assert RightNodes(rights)[..i] == RightNodes(rights);
  }

  // Branding

  lemma BrandingLines(b: Branding)
    requires HasBranding(b)
    ensures RenderAll(BrandingNodes(b), 1)
      == "  <branding>\n" + ("    <main_logo>" + b.logo + "</main_logo>\n")
         + ("    <main_color>" + b.mainColor + "</main_color>\n")
         + ("    <complementary_color>" + b.complementaryColor + "</complementary_color>\n") + "  </branding>\n"
  {
    var cs := [TextElement("main_logo", b.logo), TextElement("main_color", b.mainColor),
               TextElement("complementary_color", b.complementaryColor)];
    var n := Element("branding", [], Children(cs));
    RenderAllOne(n, 1);
    BrandingOpen();
    BrandingClose();
    ContainerLines(n, 1, "  <branding>\n", "  </branding>\n");
    RenderThree(cs[0], cs[1], cs[2], 2);
    MainLogoLine(b.logo);
    MainColorLine(b.mainColor);
    ComplementaryColorLine(b.complementaryColor);
    Chain3("  <branding>\n", Render(cs[0], 2), Render(cs[1], 2), Render(cs[2], 2));
  }

  /** Lines 247-254: the branding block, when any branding value is set. */
  method AppendBranding(xml: string, branding: Branding) returns (r: string)
    ensures r == xml + RenderAll(BrandingNodes(branding), 1)
  {
    r := xml;
    if branding.logo != "" || branding.mainColor != "" || branding.complementaryColor != "" {
      r := r + "  <branding>\n";
      r := r + ("    <main_logo>" + branding.logo + "</main_logo>\n");
      r := r + ("    <main_color>" + branding.mainColor + "</main_color>\n");
      r := r + ("    <complementary_color>" + branding.complementaryColor + "</complementary_color>\n");
      r := r + "  </branding>\n";
      BrandingLines(branding);
      Chain5(xml, "  <branding>\n", "    <main_logo>" + branding.logo + "</main_logo>\n",
        "    <main_color>" + branding.mainColor + "</main_color>\n",
        "    <complementary_color>" + branding.complementaryColor + "</complementary_color>\n", "  </branding>\n");
    }
  }

  // ---------------------------------------------------------------------------
  // What the document contains

  function Names(ns: seq<Node>): seq<string> {
    seq(|ns|, i requires 0 <= i < |ns| => ns[i].name)
  }

  lemma NamesAppend(a: seq<Node>, b: seq<Node>)
    ensures Names(a + b) == Names(a) + Names(b)
  {
  }

  const RootLine: string := "<itop_design xmlns:xsi=\"http://www.w3.org/2001/XMLSchema-instance\" version=\"3.0\">\n"

  /** The text always opens with the XML declaration and the `itop_design`
      root, version 3.0, and always ends with the root's close tag. */
  lemma DesignFrame(d: ClassDefinition)
    ensures StartsWith(DesignText(d), Declaration + RootLine)
    ensures EndsWith(DesignText(d), "</itop_design>")
  {
    RootOpen();
    assert DesignText(d) == Declaration + RootLine + RenderAll(DesignChildren(d), 1) + "</itop_design>";
    Framed(Declaration + RootLine, RenderAll(DesignChildren(d), 1), "</itop_design>");
  }

  /** The root's sections, in document order: the class, then the menu, the
      user rights and the branding, each only under its guard. */
  lemma DesignSections(d: ClassDefinition)
    ensures Names(DesignChildren(d))
         == ["classes"]
            + (if d.menu.kind != "" then ["menus"] else [])
            + (if d.userRights.profiles != [] then ["user_rights"] else [])
            + (if d.branding.logo != "" || d.branding.mainColor != "" || d.branding.complementaryColor != ""
               then ["branding"] else [])
  {
    var mn := MenusNodes(d.className, d.menu);
    var ur := UserRightsNodes(d.className, d.userRights);
    var br := BrandingNodes(d.branding);
    assert Names([ClassesNode(d)]) == ["classes"];
    assert Names(mn) == if d.menu.kind != "" then ["menus"] else [];
    assert Names(ur) == if d.userRights.profiles != [] then ["user_rights"] else [];
    assert Names(br) == if HasBranding(d.branding) then ["branding"] else [];
    NamesAppend([ClassesNode(d)] + mn + ur, br);
    NamesAppend([ClassesNode(d)] + mn, ur);
    NamesAppend([ClassesNode(d)], mn);
  }

  /** The class's sections, in document order: parent, properties and fields
      always; lifecycle, methods, indexes and relations each only under its
      guard. */
  lemma ClassSections(d: ClassDefinition)
    ensures Names(ClassChildren(d))
         == ["parent", "properties", "fields"]
            + (if d.lifecycle.attribute != "" then ["lifecycle"] else [])
            + (if d.methods != [] then ["methods"] else [])
            + (if d.indexes != [] then ["indexes"] else [])
            + (if d.relations != [] then ["relations"] else [])
  {
    var base := [TextElement("parent", d.parentClass), PropertiesNode(d.properties), FieldsNode(d.fields)];
    var lc := LifecycleNodes(d.lifecycle);
    var ms := MethodsNodes(d.methods);
    var ix := IndexesNodes(d.indexes);
    var rs := RelationsNodes(d.relations);
    assert Names(base) == ["parent", "properties", "fields"];
    assert Names(lc) == if d.lifecycle.attribute != "" then ["lifecycle"] else [];
    assert Names(ms) == if d.methods != [] then ["methods"] else [];
    assert Names(ix) == if d.indexes != [] then ["indexes"] else [];
    assert Names(rs) == if d.relations != [] then ["relations"] else [];
    NamesAppend(base + lc + ms + ix, rs);
    NamesAppend(base + lc + ms, ix);
    NamesAppend(base + lc, ms);
    NamesAppend(base, lc);
  }

  /** Properties are written in key order, each exactly when its value is
      not the empty string: the filter distributes over concatenation... */
  lemma {:induction false} PropertyNodesAppend(a: seq<(string, PropertyValue)>, b: seq<(string, PropertyValue)>)
    ensures PropertyNodes(a + b) == PropertyNodes(a) + PropertyNodes(b)
    decreases |b|
  {
    if b == [] {
      assert a + b == a;
    } else {
      var b' := b[..|b| - 1];
      assert (a + b)[..|a + b| - 1] == a + b';
      assert (a + b)[|a + b| - 1] == b[|b| - 1];
      PropertyNodesAppend(a, b');
    }
  }

  /** ...and keeps one entry as `<key>value</key>` exactly when its value is
      not ''. A boolean is never '', so `false` is written out. */
  lemma PropertyNodesOne(key: string, value: PropertyValue)
    ensures PropertyNodes([(key, value)])
         == if value != StringValue("") then [TextElement(key, ValueText(value))] else []
    ensures value.BoolValue? ==> PropertyNodes([(key, value)]) == [TextElement(key, BoolText(value.b))]
  {
    assert [(key, value)][..0] == [];
  }

  /** Every entry whose value is not '' is written... */
  lemma PropertyWritten(es: seq<(string, PropertyValue)>, i: nat)
    requires i < |es| && es[i].1 != StringValue("")
    ensures TextElement(es[i].0, ValueText(es[i].1)) in PropertyNodes(es)
  {
    assert es == es[..i] + [es[i]] + es[i + 1..];
    PropertyNodesAppend(es[..i] + [es[i]], es[i + 1..]);
    PropertyNodesAppend(es[..i], [es[i]]);
    PropertyNodesOne(es[i].0, es[i].1);
  }

  /** ...and nothing else is: every written line comes from an entry whose
      value is not ''. */
  lemma {:induction false} PropertyNodesFromEntries(es: seq<(string, PropertyValue)>)
    ensures forall n :: n in PropertyNodes(es) ==>
              exists j :: 0 <= j < |es| && es[j].1 != StringValue("") && n == TextElement(es[j].0, ValueText(es[j].1))
  {
    if es != [] {
      var init := es[..|es| - 1];
      PropertyNodesFromEntries(init);
      forall n | n in PropertyNodes(es)
        ensures exists j :: 0 <= j < |es| && es[j].1 != StringValue("") && n == TextElement(es[j].0, ValueText(es[j].1))
      {
        if n in PropertyNodes(init) {
          var j :| 0 <= j < |init| && init[j].1 != StringValue("") && n == TextElement(init[j].0, ValueText(init[j].1));
          assert es[j] == init[j];
        } else {
          var last := |es| - 1;
          assert n == TextElement(es[last].0, ValueText(es[last].1));
        }
      }
    }
  }

  /** The boolean properties `abstract` and `isLink` are always written. */
  lemma BooleanPropertiesWritten(p: ClassProperties)
    ensures TextElement("abstract", BoolText(p.isAbstract)) in PropertyNodes(PropertyEntries(p))
    ensures TextElement("isLink", BoolText(p.isLink)) in PropertyNodes(PropertyEntries(p))
  {
    PropertyWritten(PropertyEntries(p), 1);
    PropertyWritten(PropertyEntries(p), 6);
  }

  /** One `field` element per input field, in input order, with `sql` equal
      to the field's name and `is_null_allowed` written as true or false. */
  lemma FieldsWritten(fs: seq<Field>)
    ensures |FieldNodes(fs)| == |fs|
    ensures forall i :: 0 <= i < |fs| ==>
              && FieldNodes(fs)[i].name == "field"
              && FieldNodes(fs)[i].attrs == [Attr("id", fs[i].name), Attr("xsi:type", fs[i].kind)]
              && FieldNodes(fs)[i].content.nodes[..3]
                 == [ TextElement("sql", fs[i].name),
                      TextElement("default_value", fs[i].defaultValue),
                      TextElement("is_null_allowed", if fs[i].isNullAllowed then "true" else "false") ]
  {
    forall i | 0 <= i < |fs|
      ensures FieldNodes(fs)[i].content.nodes[..3] == FieldBase(fs[i])
    {
      assert FieldNodes(fs)[i].content.nodes == FieldBase(fs[i]) + FieldExtra(fs[i]);
    }
  }

  /** An enumeration with a non-empty values string gets one `value` per
      comma-separated piece: as many as there are commas plus one, ids 0 to
      n-1 (all distinct), each piece trimmed, empty pieces kept; the pieces
      are exactly the values string cut at its commas. */
  lemma EnumValuesWritten(f: Field)
    requires f.kind == EnumKind && f.values != ""
    ensures var pieces := Split(f.values, ',');
            && FieldExtra(f) == [ValuesNode(pieces)]
            && |ValueNodes(pieces)| == CountChar(f.values, ',') + 1
            && Join(pieces, [',']) == f.values
            && (forall i :: 0 <= i < |pieces| ==>
                  ValueNodes(pieces)[i] == Element("value", [Attr("id", NatToString(i))], Text(Trim(pieces[i]))))
            && (forall i, j :: 0 <= i < j < |pieces| ==>
                  ValueNodes(pieces)[i].attrs[0].value != ValueNodes(pieces)[j].attrs[0].value)
  {
    var pieces := Split(f.values, ',');
    SplitJoin(f.values, ',');
    forall i, j | 0 <= i < j < |pieces|
      ensures ValueNodes(pieces)[i].attrs[0].value != ValueNodes(pieces)[j].attrs[0].value
    {
      NatToStringInjective(i, j);
    }
  }

  /** An external key with a target class gets exactly one `target_class`
      and no `values`; any other kind gets neither. */
  lemma FieldExtraByKind(f: Field)
    ensures f.kind == ExternalKeyKind && f.targetClass != "" ==>
              FieldExtra(f) == [TextElement("target_class", f.targetClass)]
    ensures f.kind != EnumKind && f.kind != ExternalKeyKind ==> FieldExtra(f) == []
    ensures "values" in Names(FieldExtra(f)) <==> f.kind == EnumKind && f.values != ""
    ensures "target_class" in Names(FieldExtra(f)) <==> f.kind == ExternalKeyKind && f.targetClass != ""
  {
    if f.kind == EnumKind && f.values != "" {
      assert Names(FieldExtra(f)) == ["values"];
    } else if f.kind == ExternalKeyKind && f.targetClass != "" {
      assert Names(FieldExtra(f)) == ["target_class"];
    }
  }

  /** The lifecycle appears exactly when its attribute is set, and the
      highlight scale never influences the document. Each state has one
      flag element per flag and each transition one action per action, in
      input order. */
  lemma LifecycleWritten(l: Lifecycle, scale: seq<string>)
    ensures LifecycleNodes(l) != [] <==> l.attribute != ""
    ensures LifecycleNodes(l) == LifecycleNodes(l.(highlightScale := scale))
    ensures forall i :: 0 <= i < |l.states| ==>
              StateNodes(l.states)[i].content.nodes[0].content.nodes == FlagNodes(l.states[i].flags)
              && |FlagNodes(l.states[i].flags)| == |l.states[i].flags|
    ensures forall i :: 0 <= i < |l.transitions| ==>
              TransitionNodes(l.transitions)[i].content.nodes[1].content.nodes
                 == ActionNodes(l.transitions[i].actions)
              && |ActionNodes(l.transitions[i].actions)| == |l.transitions[i].actions|
  {
  }

  /** Every method is public, not static, with its code verbatim inside a
      CDATA section; every index lists one attribute per field name. */
  lemma MethodsAndIndexesWritten(ms: seq<Method>, ixs: seq<Index>)
    ensures MethodsNodes(ms) != [] <==> ms != []
    ensures IndexesNodes(ixs) != [] <==> ixs != []
    ensures forall i :: 0 <= i < |ms| ==>
              MethodNodes(ms)[i].content.nodes[..3]
                == [TextElement("static", "false"), TextElement("access", "public"), TextElement("type", ms[i].kind)]
              && MethodNodes(ms)[i].content.nodes[3] == Element("code", [], CData(ms[i].code))
    ensures forall i :: 0 <= i < |ixs| ==>
              Names(AttributeNodes(ixs[i].fields)) == seq(|ixs[i].fields|, k requires 0 <= k < |ixs[i].fields| => "attribute")
              && forall k :: 0 <= k < |ixs[i].fields| ==>
                   AttributeNodes(ixs[i].fields)[k].attrs == [Attr("id", ixs[i].fields[k])]
  {
  }

  /** The CDATA line carries the code unchanged: nothing is escaped. */
  lemma CodeVerbatim(code: string)
    ensures Render(Element("code", [], CData(code)), 5) == "          <code><![CDATA[" + code + "]]></code>\n"
  {
    CodeLine(code);
  }

  /** The menu appears exactly when a type is chosen, with id
      `<class>_menu`, and has an `oql` child exactly for an OQL menu node. */
  lemma MenuWritten(className: string, m: Menu)
    ensures MenusNodes(className, m) != [] <==> m.kind != ""
    ensures MenuNode(className, m).attrs == [Attr("id", className + "_menu"), Attr("xsi:type", m.kind)]
    ensures Names(MenuChildren(m)) == ["rank", "parent"] + (if m.kind == "OQLMenuNode" then ["oql"] else [])
  {
    NamesAppend([TextElement("rank", IntToString(m.rank)), TextElement("parent", m.parent)], OqlNodes(m));
  }

  /** User rights appear exactly when there are profiles, and each profile
      grants one `action:<name>` per right, in order, with the right's value
      as text. */
  lemma UserRightsWritten(className: string, u: UserRights)
    ensures UserRightsNodes(className, u) != [] <==> u.profiles != []
    ensures forall i :: 0 <= i < |u.profiles| ==>
              ProfileNode(className, u.profiles[i]).content.nodes[0].content.nodes[0].attrs == [Attr("id", className)]
    ensures forall rights: seq<(string, string)>, k :: 0 <= k < |rights| ==>
              RightNodes(rights)[k] == Element("action", [Attr("id", "action:" + rights[k].0)], Text(rights[k].1))
  {
  }

  /** Branding appears exactly when one of its values is set, and then with
      all three elements. */
  lemma BrandingWritten(b: Branding)
    ensures BrandingNodes(b) != [] <==> b.logo != "" || b.mainColor != "" || b.complementaryColor != ""
    ensures BrandingNodes(b) != [] ==>
              Names(BrandingNodes(b)[0].content.nodes) == ["main_logo", "main_color", "complementary_color"]
  {
  }
}
