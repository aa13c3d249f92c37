/**
 * The lines of the iTop datamodel document, one lemma per line shape: each
 * states that the rendering of an element (or its open or close tag) at its
 * depth is the literal line the class serializer writes.
 */
module DesignLines {
  import opened Text
  import opened Xml

  lemma Indent1() ensures Indent(1) == "  " {}

  lemma Indent2() ensures Indent(2) == "    " { Indent1(); }

  lemma Indent3() ensures Indent(3) == "      " { Indent2(); }

  lemma Indent4() ensures Indent(4) == "        " { Indent3(); }

  lemma Indent5() ensures Indent(5) == "          " { Indent4(); }

  lemma Indent6() ensures Indent(6) == "            " { Indent5(); }

  lemma Indent7() ensures Indent(7) == "              " { Indent6(); }

  lemma Indent8() ensures Indent(8) == "                " { Indent7(); }

  // The literal tags of each line, with the indentation spelled out
  lemma AccessTags()
    ensures Indent(5) + "<" + "access" + ">" == "          <access>"
    ensures "</" + "access" + ">\n" == "</access>\n"
  {
    Indent5();
  }

  lemma ActionsTags()
    ensures Indent(6) + "<" + "actions" + ">\n" == "            <actions>\n"
  {
    Indent6();
  }

  lemma AttributeTags()
    ensures Indent(4) + "<" + "attribute" + ">" == "        <attribute>"
    ensures "</" + "attribute" + ">\n" == "</attribute>\n"
  {
    Indent4();
  }

  lemma AttributesTags()
    ensures Indent(5) + "<" + "attributes" + ">\n" == "          <attributes>\n"
  {
    Indent5();
  }

  lemma ClassTags()
    ensures Indent(2) + "<" + "class" + " id=\"" == "    <class id=\""
  {
    Indent2();
  }

  lemma ClassesTags()
    ensures Indent(1) + "<" + "classes" + ">\n" == "  <classes>\n"
  {
    Indent1();
  }

  lemma CodeTags()
    ensures Indent(5) + "<" + "code" + "><![CDATA[" == "          <code><![CDATA["
    ensures "]]></" + "code" + ">\n" == "]]></code>\n"
  {
    Indent5();
  }

  lemma DefaultValueTags()
    ensures Indent(5) + "<" + "default_value" + ">" == "          <default_value>"
    ensures "</" + "default_value" + ">\n" == "</default_value>\n"
  {
    Indent5();
  }

  lemma FieldsTags()
    ensures Indent(3) + "<" + "fields" + ">\n" == "      <fields>\n"
  {
    Indent3();
  }

  lemma FlagsTags()
    ensures Indent(6) + "<" + "flags" + ">\n" == "            <flags>\n"
  {
    Indent6();
  }

  lemma GroupTags()
    ensures Indent(5) + "<" + "group" + " id=\"" == "          <group id=\""
  {
    Indent5();
  }

  lemma GroupsTags()
    ensures Indent(4) + "<" + "groups" + ">\n" == "        <groups>\n"
  {
    Indent4();
  }

  lemma HighlightTags()
    ensures Indent(6) + "<" + "highlight" + ">" == "            <highlight>"
    ensures "</" + "highlight" + ">\n" == "</highlight>\n"
  {
    Indent6();
  }

  lemma IndexTags()
    ensures Indent(4) + "<" + "index" + " id=\"" == "        <index id=\""
  {
    Indent4();
  }

  lemma IsNullAllowedTags()
    ensures Indent(5) + "<" + "is_null_allowed" + ">" == "          <is_null_allowed>"
    ensures "</" + "is_null_allowed" + ">\n" == "</is_null_allowed>\n"
  {
    Indent5();
  }

  lemma LifecycleTags()
    ensures Indent(3) + "<" + "lifecycle" + ">\n" == "      <lifecycle>\n"
  {
    Indent3();
  }

  lemma MenusTags()
    ensures Indent(1) + "<" + "menus" + ">\n" == "  <menus>\n"
  {
    Indent1();
  }

  lemma MethodTags()
    ensures Indent(4) + "<" + "method" + " id=\"" == "        <method id=\""
  {
    Indent4();
  }

  lemma NeighbourTags()
    ensures Indent(6) + "<" + "neighbour" + " id=\"" == "            <neighbour id=\""
  {
    Indent6();
  }

  lemma NeighboursTags()
    ensures Indent(5) + "<" + "neighbours" + ">\n" == "          <neighbours>\n"
  {
    Indent5();
  }

  lemma OqlTags()
    ensures Indent(3) + "<" + "oql" + ">" == "      <oql>"
    ensures "</" + "oql" + ">\n" == "</oql>\n"
  {
    Indent3();
  }

  lemma ParentTags()
    ensures Indent(3) + "<" + "parent" + ">" == "      <parent>"
    ensures "</" + "parent" + ">\n" == "</parent>\n"
  {
    Indent3();
  }

  lemma ProfileTags()
    ensures Indent(3) + "<" + "profile" + " id=\"" == "      <profile id=\""
  {
    Indent3();
  }

  lemma ProfilesTags()
    ensures Indent(2) + "<" + "profiles" + ">\n" == "    <profiles>\n"
  {
    Indent2();
  }

  lemma PropertiesTags()
    ensures Indent(3) + "<" + "properties" + ">\n" == "      <properties>\n"
  {
    Indent3();
  }

  lemma QueryDownTags()
    ensures Indent(7) + "<" + "query_down" + ">" == "              <query_down>"
    ensures "</" + "query_down" + ">\n" == "</query_down>\n"
  {
    Indent7();
  }

  lemma QueryUpTags()
    ensures Indent(7) + "<" + "query_up" + ">" == "              <query_up>"
    ensures "</" + "query_up" + ">\n" == "</query_up>\n"
  {
    Indent7();
  }

  lemma RankTags()
    ensures Indent(3) + "<" + "rank" + ">" == "      <rank>"
    ensures "</" + "rank" + ">\n" == "</rank>\n"
  {
    Indent3();
  }

  lemma RelationTags()
    ensures Indent(4) + "<" + "relation" + " id=\"" == "        <relation id=\""
  {
    Indent4();
  }

  lemma SqlTags()
    ensures Indent(5) + "<" + "sql" + ">" == "          <sql>"
    ensures "</" + "sql" + ">\n" == "</sql>\n"
  {
    Indent5();
  }

  lemma StateTags()
    ensures Indent(5) + "<" + "state" + " id=\"" == "          <state id=\""
  {
    Indent5();
  }

  lemma StatesTags()
    ensures Indent(4) + "<" + "states" + ">\n" == "        <states>\n"
  {
    Indent4();
  }

  lemma StaticTags()
    ensures Indent(5) + "<" + "static" + ">" == "          <static>"
    ensures "</" + "static" + ">\n" == "</static>\n"
  {
    Indent5();
  }

  lemma TargetClassTags()
    ensures Indent(5) + "<" + "target_class" + ">" == "          <target_class>"
    ensures "</" + "target_class" + ">\n" == "</target_class>\n"
  {
    Indent5();
  }

  lemma TargetTags()
    ensures Indent(6) + "<" + "target" + ">" == "            <target>"
    ensures "</" + "target" + ">\n" == "</target>\n"
  {
    Indent6();
  }

  lemma TransitionTags()
    ensures Indent(5) + "<" + "transition" + " id=\"" == "          <transition id=\""
  {
    Indent5();
  }

  lemma TransitionsTags()
    ensures Indent(4) + "<" + "transitions" + ">\n" == "        <transitions>\n"
  {
    Indent4();
  }

  lemma TypeTags()
    ensures Indent(5) + "<" + "type" + ">" == "          <type>"
    ensures "</" + "type" + ">\n" == "</type>\n"
  {
    Indent5();
  }

  lemma UserRightsTags()
    ensures Indent(1) + "<" + "user_rights" + ">\n" == "  <user_rights>\n"
  {
    Indent1();
  }

  lemma ValuesTags()
    ensures Indent(5) + "<" + "values" + ">\n" == "          <values>\n"
  {
    Indent5();
  }

  lemma IndexAttributeTags()
    ensures Indent(6) + "<" + "attribute" + " id=\"" == "            <attribute id=\""
  {
    Indent6();
  }

  lemma RightTags()
    ensures Indent(7) + "<" + "action" + " id=\"" == "              <action id=\""
    ensures "</" + "action" + ">\n" == "</action>\n"
  {
    Indent7();
  }

  lemma BrandingTags()
    ensures Indent(1) + "<" + "branding" + ">\n" == "  <branding>\n"
  {
    Indent1();
  }

  lemma MainLogoTags()
    ensures Indent(2) + "<" + "main_logo" + ">" == "    <main_logo>"
    ensures "</" + "main_logo" + ">\n" == "</main_logo>\n"
  {
    Indent2();
  }

  lemma MainColorTags()
    ensures Indent(2) + "<" + "main_color" + ">" == "    <main_color>"
    ensures "</" + "main_color" + ">\n" == "</main_color>\n"
  {
    Indent2();
  }

  lemma ComplementaryColorTags()
    ensures Indent(2) + "<" + "complementary_color" + ">" == "    <complementary_color>"
    ensures "</" + "complementary_color" + ">\n" == "</complementary_color>\n"
  {
    Indent2();
  }

  lemma MethodsTags()
    ensures Indent(3) + "<" + "methods" + ">\n" == "      <methods>\n"
  {
    Indent3();
  }

  lemma IndexesTags()
    ensures Indent(3) + "<" + "indexes" + ">\n" == "      <indexes>\n"
  {
    Indent3();
  }

  lemma RelationsTags()
    ensures Indent(3) + "<" + "relations" + ">\n" == "      <relations>\n"
  {
    Indent3();
  }

  // The lines
  lemma AccessLine(text: string)
    ensures Render(TextElement("access", text), 5) == "          <access>" + text + "</access>\n"
  {
    AccessTags();
    TextLineShape(5, "access", text, "          <access>", "</access>\n");
  }

  lemma ActionsClose()
    ensures CloseLine(6, "actions") == "            </actions>\n"
  {
    Indent6();
  }

  lemma ActionsOpen()
    ensures OpenTag(6, "actions", []) + "\n" == "            <actions>\n"
  {
    ActionsTags();
    OpenLineShape(6, "actions", "            <actions>\n");
  }

  lemma AttributeLine(text: string)
    ensures Render(TextElement("attribute", text), 4) == "        <attribute>" + text + "</attribute>\n"
  {
    AttributeTags();
    TextLineShape(4, "attribute", text, "        <attribute>", "</attribute>\n");
  }

  lemma AttributesClose()
    ensures CloseLine(5, "attributes") == "          </attributes>\n"
  {
    Indent5();
  }

  lemma AttributesOpen()
    ensures OpenTag(5, "attributes", []) + "\n" == "          <attributes>\n"
  {
    AttributesTags();
    OpenLineShape(5, "attributes", "          <attributes>\n");
  }

  lemma ClassClose()
    ensures CloseLine(2, "class") == "    </class>\n"
  {
    Indent2();
  }

  lemma ClassOpen(id: string)
    ensures OpenTag(2, "class", [Attr("id", id)]) + "\n" == "    <class id=\"" + id + "\">\n"
  {
    ClassTags();
    OpenIdLineShape(2, "class", id, "    <class id=\"", "\">\n");
  }

  lemma ClassesClose()
    ensures CloseLine(1, "classes") == "  </classes>\n"
  {
    Indent1();
  }

  lemma ClassesOpen()
    ensures OpenTag(1, "classes", []) + "\n" == "  <classes>\n"
  {
    ClassesTags();
    OpenLineShape(1, "classes", "  <classes>\n");
  }

  lemma CodeLine(code: string)
    ensures Render(Element("code", [], CData(code)), 5) == "          <code><![CDATA[" + code + "]]></code>\n"
  {
    CodeTags();
    CDataLineShape(5, "code", code, "          <code><![CDATA[", "]]></code>\n");
  }

  lemma DefaultValueLine(text: string)
    ensures Render(TextElement("default_value", text), 5) == "          <default_value>" + text + "</default_value>\n"
  {
    DefaultValueTags();
    TextLineShape(5, "default_value", text, "          <default_value>", "</default_value>\n");
  }

  lemma FieldClose()
    ensures CloseLine(4, "field") == "        </field>\n"
  {
    Indent4();
  }

  lemma FieldTags()
    ensures Indent(4) + "<" + "field" + " " + "id" + "=\"" == "        <field id=\""
    ensures "\" " + "xsi:type" + "=\"" == "\" xsi:type=\""
  {
    Indent4();
  }

  lemma FieldOpen(name: string, kind: string)
    ensures OpenTag(4, "field", [Attr("id", name), Attr("xsi:type", kind)]) + "\n"
         == "        <field id=\"" + name + "\" xsi:type=\"" + kind + "\">\n"
  {
    FieldTags();
    OpenTwoLineShape(4, "field", Attr("id", name), Attr("xsi:type", kind),
      "        <field id=\"", "\" xsi:type=\"", "\">\n");
  }

  lemma FieldsClose()
    ensures CloseLine(3, "fields") == "      </fields>\n"
  {
    Indent3();
  }

  lemma FieldsOpen()
    ensures OpenTag(3, "fields", []) + "\n" == "      <fields>\n"
  {
    FieldsTags();
    OpenLineShape(3, "fields", "      <fields>\n");
  }

  lemma FlagsClose()
    ensures CloseLine(6, "flags") == "            </flags>\n"
  {
    Indent6();
  }

  lemma FlagsOpen()
    ensures OpenTag(6, "flags", []) + "\n" == "            <flags>\n"
  {
    FlagsTags();
    OpenLineShape(6, "flags", "            <flags>\n");
  }

  lemma GroupClose()
    ensures CloseLine(5, "group") == "          </group>\n"
  {
    Indent5();
  }

  lemma GroupOpen(id: string)
    ensures OpenTag(5, "group", [Attr("id", id)]) + "\n" == "          <group id=\"" + id + "\">\n"
  {
    GroupTags();
    OpenIdLineShape(5, "group", id, "          <group id=\"", "\">\n");
  }

  lemma GroupsClose()
    ensures CloseLine(4, "groups") == "        </groups>\n"
  {
    Indent4();
  }

  lemma GroupsOpen()
    ensures OpenTag(4, "groups", []) + "\n" == "        <groups>\n"
  {
    GroupsTags();
    OpenLineShape(4, "groups", "        <groups>\n");
  }

  lemma HighlightLine(text: string)
    ensures Render(TextElement("highlight", text), 6) == "            <highlight>" + text + "</highlight>\n"
  {
    HighlightTags();
    TextLineShape(6, "highlight", text, "            <highlight>", "</highlight>\n");
  }

  lemma IndexClose()
    ensures CloseLine(4, "index") == "        </index>\n"
  {
    Indent4();
  }

  lemma IndexOpen(id: string)
    ensures OpenTag(4, "index", [Attr("id", id)]) + "\n" == "        <index id=\"" + id + "\">\n"
  {
    IndexTags();
    OpenIdLineShape(4, "index", id, "        <index id=\"", "\">\n");
  }

  lemma IsNullAllowedLine(text: string)
    ensures Render(TextElement("is_null_allowed", text), 5) == "          <is_null_allowed>" + text + "</is_null_allowed>\n"
  {
    IsNullAllowedTags();
    TextLineShape(5, "is_null_allowed", text, "          <is_null_allowed>", "</is_null_allowed>\n");
  }

  lemma LifecycleClose()
    ensures CloseLine(3, "lifecycle") == "      </lifecycle>\n"
  {
    Indent3();
  }

  lemma LifecycleOpen()
    ensures OpenTag(3, "lifecycle", []) + "\n" == "      <lifecycle>\n"
  {
    LifecycleTags();
    OpenLineShape(3, "lifecycle", "      <lifecycle>\n");
  }

  lemma MenuClose()
    ensures CloseLine(2, "menu") == "    </menu>\n"
  {
    Indent2();
  }

  lemma MenuTags()
    ensures Indent(2) + "<" + "menu" + " " + "id" + "=\"" == "    <menu id=\""
    ensures "\" " + "xsi:type" + "=\"" == "\" xsi:type=\""
  {
    Indent2();
  }

  lemma MenuOpen(className: string, kind: string)
    ensures OpenTag(2, "menu", [Attr("id", className + "_menu"), Attr("xsi:type", kind)]) + "\n"
         == "    <menu id=\"" + className + "_menu\" xsi:type=\"" + kind + "\">\n"
  {
    MenuTags();
    var pre := "    <menu id=\"";
    OpenTwoLineShape(2, "menu", Attr("id", className + "_menu"), Attr("xsi:type", kind), pre, "\" xsi:type=\"", "\">\n");
    Chain2(pre, className, "_menu");
    assert "_menu" + "\" xsi:type=\"" == "_menu\" xsi:type=\"";
    Chain2(pre + className, "_menu", "\" xsi:type=\"");
  }

  lemma MenusClose()
    ensures CloseLine(1, "menus") == "  </menus>\n"
  {
    Indent1();
  }

  lemma MenusOpen()
    ensures OpenTag(1, "menus", []) + "\n" == "  <menus>\n"
  {
    MenusTags();
    OpenLineShape(1, "menus", "  <menus>\n");
  }

  lemma MethodClose()
    ensures CloseLine(4, "method") == "        </method>\n"
  {
    Indent4();
  }

  lemma MethodOpen(id: string)
    ensures OpenTag(4, "method", [Attr("id", id)]) + "\n" == "        <method id=\"" + id + "\">\n"
  {
    MethodTags();
    OpenIdLineShape(4, "method", id, "        <method id=\"", "\">\n");
  }

  lemma NeighbourClose()
    ensures CloseLine(6, "neighbour") == "            </neighbour>\n"
  {
    Indent6();
  }

  lemma NeighbourOpen(id: string)
    ensures OpenTag(6, "neighbour", [Attr("id", id)]) + "\n" == "            <neighbour id=\"" + id + "\">\n"
  {
    NeighbourTags();
    OpenIdLineShape(6, "neighbour", id, "            <neighbour id=\"", "\">\n");
  }

  lemma NeighboursClose()
    ensures CloseLine(5, "neighbours") == "          </neighbours>\n"
  {
    Indent5();
  }

  lemma NeighboursOpen()
    ensures OpenTag(5, "neighbours", []) + "\n" == "          <neighbours>\n"
  {
    NeighboursTags();
    OpenLineShape(5, "neighbours", "          <neighbours>\n");
  }

  lemma OqlLine(text: string)
    ensures Render(TextElement("oql", text), 3) == "      <oql>" + text + "</oql>\n"
  {
    OqlTags();
    TextLineShape(3, "oql", text, "      <oql>", "</oql>\n");
  }

  lemma ParentLine(text: string)
    ensures Render(TextElement("parent", text), 3) == "      <parent>" + text + "</parent>\n"
  {
    ParentTags();
    TextLineShape(3, "parent", text, "      <parent>", "</parent>\n");
  }

  lemma ProfileClose()
    ensures CloseLine(3, "profile") == "      </profile>\n"
  {
    Indent3();
  }

  lemma ProfileOpen(id: string)
    ensures OpenTag(3, "profile", [Attr("id", id)]) + "\n" == "      <profile id=\"" + id + "\">\n"
  {
    ProfileTags();
    OpenIdLineShape(3, "profile", id, "      <profile id=\"", "\">\n");
  }

  lemma ProfilesClose()
    ensures CloseLine(2, "profiles") == "    </profiles>\n"
  {
    Indent2();
  }

  lemma ProfilesOpen()
    ensures OpenTag(2, "profiles", []) + "\n" == "    <profiles>\n"
  {
    ProfilesTags();
    OpenLineShape(2, "profiles", "    <profiles>\n");
  }

  lemma PropertiesClose()
    ensures CloseLine(3, "properties") == "      </properties>\n"
  {
    Indent3();
  }

  lemma PropertiesOpen()
    ensures OpenTag(3, "properties", []) + "\n" == "      <properties>\n"
  {
    PropertiesTags();
    OpenLineShape(3, "properties", "      <properties>\n");
  }

  lemma QueryDownLine(text: string)
    ensures Render(TextElement("query_down", text), 7) == "              <query_down>" + text + "</query_down>\n"
  {
    QueryDownTags();
    TextLineShape(7, "query_down", text, "              <query_down>", "</query_down>\n");
  }

  lemma QueryUpLine(text: string)
    ensures Render(TextElement("query_up", text), 7) == "              <query_up>" + text + "</query_up>\n"
  {
    QueryUpTags();
    TextLineShape(7, "query_up", text, "              <query_up>", "</query_up>\n");
  }

  lemma RankLine(text: string)
    ensures Render(TextElement("rank", text), 3) == "      <rank>" + text + "</rank>\n"
  {
    RankTags();
    TextLineShape(3, "rank", text, "      <rank>", "</rank>\n");
  }

  lemma RelationClose()
    ensures CloseLine(4, "relation") == "        </relation>\n"
  {
    Indent4();
  }

  lemma RelationOpen(id: string)
    ensures OpenTag(4, "relation", [Attr("id", id)]) + "\n" == "        <relation id=\"" + id + "\">\n"
  {
    RelationTags();
    OpenIdLineShape(4, "relation", id, "        <relation id=\"", "\">\n");
  }

  lemma RootTags()
    ensures Indent(0) + "<" + "itop_design" + " " + "xmlns:xsi" + "=\"" == "<itop_design xmlns:xsi=\""
    ensures "\" " + "version" + "=\"" == "\" version=\""
  {
  }

  lemma RootTextHost()
    ensures "<itop_design xmlns:xsi=\"" + "http://www.w3.org/" == "<itop_design xmlns:xsi=\"http://www.w3.org/"
  {
  }

  lemma RootTextPath()
    ensures "<itop_design xmlns:xsi=\"http://www.w3.org/" + "2001/XMLSchema-instance"
         == "<itop_design xmlns:xsi=\"http://www.w3.org/2001/XMLSchema-instance"
  {
  }

  lemma RootTextSchema()
    ensures "<itop_design xmlns:xsi=\"" + "http://www.w3.org/2001/XMLSchema-instance"
         == "<itop_design xmlns:xsi=\"http://www.w3.org/2001/XMLSchema-instance"
  {
    assert "http://www.w3.org/2001/XMLSchema-instance" == "http://www.w3.org/" + "2001/XMLSchema-instance";
    RootTextHost();
    RootTextPath();
    Chain2("<itop_design xmlns:xsi=\"", "http://www.w3.org/", "2001/XMLSchema-instance");
  }

  lemma RootTextVersion()
    ensures "<itop_design xmlns:xsi=\"http://www.w3.org/2001/XMLSchema-instance" + "\" version=\""
         == "<itop_design xmlns:xsi=\"http://www.w3.org/2001/XMLSchema-instance\" version=\""
  {
  }

  lemma RootTextEnd()
    ensures "<itop_design xmlns:xsi=\"http://www.w3.org/2001/XMLSchema-instance\" version=\"" + "3.0" + "\">\n"
         == "<itop_design xmlns:xsi=\"http://www.w3.org/2001/XMLSchema-instance\" version=\"3.0\">\n"
  {
    assert "<itop_design xmlns:xsi=\"http://www.w3.org/2001/XMLSchema-instance\" version=\"" + "3.0" == "<itop_design xmlns:xsi=\"http://www.w3.org/2001/XMLSchema-instance\" version=\"3.0";
  }

  lemma RootText()
    ensures "<itop_design xmlns:xsi=\"" + "http://www.w3.org/2001/XMLSchema-instance" + "\" version=\"" + "3.0" + "\">\n"
         == "<itop_design xmlns:xsi=\"http://www.w3.org/2001/XMLSchema-instance\" version=\"3.0\">\n"
  {
    RootTextSchema();
    RootTextVersion();
    RootTextEnd();
  }

  lemma RootOpen()
    ensures OpenTag(0, "itop_design", [Attr("xmlns:xsi", "http://www.w3.org/2001/XMLSchema-instance"), Attr("version", "3.0")]) + "\n"
         == "<itop_design xmlns:xsi=\"http://www.w3.org/2001/XMLSchema-instance\" version=\"3.0\">\n"
  {
    RootTags();
    OpenTwoLineShape(0, "itop_design", Attr("xmlns:xsi", "http://www.w3.org/2001/XMLSchema-instance"), Attr("version", "3.0"),
      "<itop_design xmlns:xsi=\"", "\" version=\"", "\">\n");
    RootText();
  }

  lemma SqlLine(text: string)
    ensures Render(TextElement("sql", text), 5) == "          <sql>" + text + "</sql>\n"
  {
    SqlTags();
    TextLineShape(5, "sql", text, "          <sql>", "</sql>\n");
  }

  lemma StateClose()
    ensures CloseLine(5, "state") == "          </state>\n"
  {
    Indent5();
  }

  lemma StateOpen(id: string)
    ensures OpenTag(5, "state", [Attr("id", id)]) + "\n" == "          <state id=\"" + id + "\">\n"
  {
    StateTags();
    OpenIdLineShape(5, "state", id, "          <state id=\"", "\">\n");
  }

  lemma StatesClose()
    ensures CloseLine(4, "states") == "        </states>\n"
  {
    Indent4();
  }

  lemma StatesOpen()
    ensures OpenTag(4, "states", []) + "\n" == "        <states>\n"
  {
    StatesTags();
    OpenLineShape(4, "states", "        <states>\n");
  }

  lemma StaticLine(text: string)
    ensures Render(TextElement("static", text), 5) == "          <static>" + text + "</static>\n"
  {
    StaticTags();
    TextLineShape(5, "static", text, "          <static>", "</static>\n");
  }

  lemma TargetClassLine(text: string)
    ensures Render(TextElement("target_class", text), 5) == "          <target_class>" + text + "</target_class>\n"
  {
    TargetClassTags();
    TextLineShape(5, "target_class", text, "          <target_class>", "</target_class>\n");
  }

  lemma TargetLine(text: string)
    ensures Render(TextElement("target", text), 6) == "            <target>" + text + "</target>\n"
  {
    TargetTags();
    TextLineShape(6, "target", text, "            <target>", "</target>\n");
  }

  lemma TransitionClose()
    ensures CloseLine(5, "transition") == "          </transition>\n"
  {
    Indent5();
  }

  lemma TransitionOpen(id: string)
    ensures OpenTag(5, "transition", [Attr("id", id)]) + "\n" == "          <transition id=\"" + id + "\">\n"
  {
    TransitionTags();
    OpenIdLineShape(5, "transition", id, "          <transition id=\"", "\">\n");
  }

  lemma TransitionsClose()
    ensures CloseLine(4, "transitions") == "        </transitions>\n"
  {
    Indent4();
  }

  lemma TransitionsOpen()
    ensures OpenTag(4, "transitions", []) + "\n" == "        <transitions>\n"
  {
    TransitionsTags();
    OpenLineShape(4, "transitions", "        <transitions>\n");
  }

  lemma TypeLine(text: string)
    ensures Render(TextElement("type", text), 5) == "          <type>" + text + "</type>\n"
  {
    TypeTags();
    TextLineShape(5, "type", text, "          <type>", "</type>\n");
  }

  lemma UserRightsClose()
    ensures CloseLine(1, "user_rights") == "  </user_rights>\n"
  {
    Indent1();
  }

  lemma UserRightsOpen()
    ensures OpenTag(1, "user_rights", []) + "\n" == "  <user_rights>\n"
  {
    UserRightsTags();
    OpenLineShape(1, "user_rights", "  <user_rights>\n");
  }

  lemma ValuesClose()
    ensures CloseLine(5, "values") == "          </values>\n"
  {
    Indent5();
  }

  lemma ValuesOpen()
    ensures OpenTag(5, "values", []) + "\n" == "          <values>\n"
  {
    ValuesTags();
    OpenLineShape(5, "values", "          <values>\n");
  }

  lemma PropertyLine(key: string, text: string)
    ensures Render(TextElement(key, text), 4) == "        <" + key + ">" + text + "</" + key + ">\n"
  {
    Indent4();
    TextLineShape(4, key, text, "        <" + key + ">", "</" + key + ">\n");
    Chain3("        <" + key + ">" + text, "</", key, ">\n");
  }

  lemma FlagLine(flag: string, value: bool)
    ensures Render(TextElement(flag, BoolText(value)), 7)
         == "              <" + flag + ">" + BoolText(value) + "</" + flag + ">\n"
  {
    Indent7();
    TextLineShape(7, flag, BoolText(value), "              <" + flag + ">", "</" + flag + ">\n");
    Chain3("              <" + flag + ">" + BoolText(value), "</", flag, ">\n");
  }

  lemma IndexAttributeLine(field: string)
    ensures Render(Element("attribute", [Attr("id", field)], Empty), 6) == "            <attribute id=\"" + field + "\"/>\n"
  {
    IndexAttributeTags();
    IdEmptyLineShape(6, "attribute", field, "            <attribute id=\"", "\"/>\n");
  }

  lemma RightLine(action: string, right: string)
    ensures Render(Element("action", [Attr("id", "action:" + action)], Text(right)), 7)
         == "              <action id=\"action:" + action + "\">" + right + "</action>\n"
  {
    RightTags();
    var pre := "              <action id=\"";
    IdTextLineShape(7, "action", "action:" + action, right, pre, "\">", "</action>\n");
    Chain2(pre, "action:", action);
  }

  lemma BrandingOpen()
    ensures OpenTag(1, "branding", []) + "\n" == "  <branding>\n"
  {
    BrandingTags();
    OpenLineShape(1, "branding", "  <branding>\n");
  }

  lemma BrandingClose()
    ensures CloseLine(1, "branding") == "  </branding>\n"
  {
    Indent1();
  }

  lemma MainLogoLine(text: string)
    ensures Render(TextElement("main_logo", text), 2) == "    <main_logo>" + text + "</main_logo>\n"
  {
    MainLogoTags();
    TextLineShape(2, "main_logo", text, "    <main_logo>", "</main_logo>\n");
  }

  lemma MainColorLine(text: string)
    ensures Render(TextElement("main_color", text), 2) == "    <main_color>" + text + "</main_color>\n"
  {
    MainColorTags();
    TextLineShape(2, "main_color", text, "    <main_color>", "</main_color>\n");
  }

  lemma ComplementaryColorLine(text: string)
    ensures Render(TextElement("complementary_color", text), 2)
         == "    <complementary_color>" + text + "</complementary_color>\n"
  {
    ComplementaryColorTags();
    TextLineShape(2, "complementary_color", text, "    <complementary_color>", "</complementary_color>\n");
  }

  lemma MethodsOpen()
    ensures OpenTag(3, "methods", []) + "\n" == "      <methods>\n"
  {
    MethodsTags();
    OpenLineShape(3, "methods", "      <methods>\n");
  }

  lemma MethodsClose()
    ensures CloseLine(3, "methods") == "      </methods>\n"
  {
    Indent3();
  }

  lemma IndexesOpen()
    ensures OpenTag(3, "indexes", []) + "\n" == "      <indexes>\n"
  {
    IndexesTags();
    OpenLineShape(3, "indexes", "      <indexes>\n");
  }

  lemma IndexesClose()
    ensures CloseLine(3, "indexes") == "      </indexes>\n"
  {
    Indent3();
  }

  lemma RelationsOpen()
    ensures OpenTag(3, "relations", []) + "\n" == "      <relations>\n"
  {
    RelationsTags();
    OpenLineShape(3, "relations", "      <relations>\n");
  }

  lemma RelationsClose()
    ensures CloseLine(3, "relations") == "      </relations>\n"
  {
    Indent3();
  }
}
