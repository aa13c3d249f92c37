/**
 * An XML element tree and the indented rendering the class serializer
 * writes: two spaces per level, one element per line, elements holding
 * only text (or a CDATA section) on a single line, elements holding child
 * elements with their open and close tags on lines of their own.
 *
 * Values are inserted as they are: nothing is escaped, so the rendering is
 * well-formed XML only when no value contains markup characters.
 */
module Xml {
  import opened Text

  datatype Attr = Attr(name: string, value: string)

  datatype Node = Element(name: string, attrs: seq<Attr>, content: Content)

  datatype Content =
    | Text(text: string)          // <n a="v">text</n>
    | CData(data: string)         // <n a="v"><![CDATA[data]]></n>
    | Children(nodes: seq<Node>)  // <n a="v">, one line per child, </n>
    | Empty                       // <n a="v"/>

  /** An element holding only text. */
  function TextElement(name: string, text: string): Node {
    Element(name, [], Text(text))
  }

  const Declaration: string := "<?xml version=\"1.0\" encoding=\"UTF-8\"?>\n"

  function Indent(depth: nat): string {
    if depth == 0 then "" else Indent(depth - 1) + "  "
  }

  function AttrText(a: Attr): string {
    " " + a.name + "=\"" + a.value + "\""
  }

  function AttrsText(attrs: seq<Attr>): string {
    if attrs == [] then "" else AttrsText(attrs[..|attrs| - 1]) + AttrText(attrs[|attrs| - 1])
  }

  /** The open tag at its indentation, without the line break. */
  function OpenTag(depth: nat, name: string, attrs: seq<Attr>): string {
    Indent(depth) + "<" + name + AttrsText(attrs) + ">"
  }

  function CloseLine(depth: nat, name: string): string {
    Indent(depth) + "</" + name + ">\n"
  }

  function Render(n: Node, depth: nat): string
    decreases n, 1
  {
    match n.content
    case Text(t) => OpenTag(depth, n.name, n.attrs) + t + "</" + n.name + ">\n"
    case CData(c) => OpenTag(depth, n.name, n.attrs) + "<![CDATA[" + c + "]]>" + "</" + n.name + ">\n"
    case Empty => Indent(depth) + "<" + n.name + AttrsText(n.attrs) + "/>\n"
    case Children(ns) => OpenTag(depth, n.name, n.attrs) + "\n" + RenderAll(ns, depth + 1) + CloseLine(depth, n.name)
  }

  function RenderAll(ns: seq<Node>, depth: nat): string
    decreases ns, 0
  {
    if ns == [] then "" else RenderAll(ns[..|ns| - 1], depth) + Render(ns[|ns| - 1], depth)
  }

  /** A whole document: the declaration, then the root element with its
      children at depth 1; the root's close tag ends the text without a
      line break. */
  function Document(name: string, attrs: seq<Attr>, children: seq<Node>): string {
    Declaration + (OpenTag(0, name, attrs) + "\n") + RenderAll(children, 1) + ("</" + name + ">")
  }

  // ---------------------------------------------------------------------------
  // Rendering sequences piece by piece

  lemma RenderAllSnoc(ns: seq<Node>, n: Node, depth: nat)
    ensures RenderAll(ns + [n], depth) == RenderAll(ns, depth) + Render(n, depth)
  {
    assert (ns + [n])[..|ns|] == ns;
  }

  lemma {:induction false} RenderAllAppend(a: seq<Node>, b: seq<Node>, depth: nat)
    ensures RenderAll(a + b, depth) == RenderAll(a, depth) + RenderAll(b, depth)
    decreases |b|
  {
    if b == [] {
      assert a + b == a;
    } else {
      var b' := b[..|b| - 1];
      var last := b[|b| - 1];
      assert a + b == (a + b') + [last];
      assert b == b' + [last];
      RenderAllSnoc(a + b', last, depth);
      RenderAllSnoc(b', last, depth);
      RenderAllAppend(a, b', depth);
    }
  }

  lemma RenderAllOne(n: Node, depth: nat)
    ensures RenderAll([n], depth) == Render(n, depth)
  {
    RenderAllSnoc([], n, depth);
  }

  /** The rendering of a sequence is the renderings of its elements, one
      after another, each element exactly once and in order. */
  lemma RenderAllAt(ns: seq<Node>, k: nat, depth: nat)
    requires k < |ns|
    ensures RenderAll(ns, depth)
         == RenderAll(ns[..k], depth) + Render(ns[k], depth) + RenderAll(ns[k + 1..], depth)
  {
    assert ns == ns[..k] + [ns[k]] + ns[k + 1..];
    RenderAllAppend(ns[..k] + [ns[k]], ns[k + 1..], depth);
    RenderAllSnoc(ns[..k], ns[k], depth);
  }

  lemma AttrsOne(a: Attr)
    ensures AttrsText([a]) == AttrText(a)
  {
    assert [a][..0] == [];
  }

  lemma AttrsTwo(a: Attr, b: Attr)
    ensures AttrsText([a, b]) == AttrText(a) + AttrText(b)
  {
    assert [a, b][..1] == [a];
    AttrsOne(a);
  }

  lemma RenderTwo(a: Node, b: Node, depth: nat)
    ensures RenderAll([a, b], depth) == Render(a, depth) + Render(b, depth)
  {
    assert [a, b] == [a] + [b];
    RenderAllOne(a, depth);
    RenderAllSnoc([a], b, depth);
  }

  lemma RenderThree(a: Node, b: Node, c: Node, depth: nat)
    ensures RenderAll([a, b, c], depth) == Render(a, depth) + Render(b, depth) + Render(c, depth)
  {
    assert [a, b, c] == [a, b] + [c];
    RenderTwo(a, b, depth);
    RenderAllSnoc([a, b], c, depth);
  }

  lemma RenderFour(a: Node, b: Node, c: Node, e: Node, depth: nat)
    ensures RenderAll([a, b, c, e], depth) == Render(a, depth) + Render(b, depth) + Render(c, depth) + Render(e, depth)
  {
    assert [a, b, c, e] == [a, b, c] + [e];
    RenderThree(a, b, c, depth);
    RenderAllSnoc([a, b, c], e, depth);
  }

  lemma SnocAppend(x: string, ns: seq<Node>, n: Node, depth: nat)
    ensures x + RenderAll(ns, depth) + Render(n, depth) == x + RenderAll(ns + [n], depth)
  {
    RenderAllSnoc(ns, n, depth);
  }

  /** Appending the rendering of the next element of a sequence extends the
      rendered prefix by one. */
  lemma PrefixAppend(x: string, ns: seq<Node>, i: nat, depth: nat)
    requires i < |ns|
    ensures x + RenderAll(ns[..i], depth) + Render(ns[i], depth) == x + RenderAll(ns[..i + 1], depth)
  {
    assert ns[..i + 1] == ns[..i] + [ns[i]];
    RenderAllSnoc(ns[..i], ns[i], depth);
  }

  // ---------------------------------------------------------------------------
  // The shapes of single lines: each names the literal pieces around the
  // inserted values

  lemma OpenLineShape(depth: nat, name: string, line: string)
    requires line == Indent(depth) + "<" + name + ">\n"
    ensures OpenTag(depth, name, []) + "\n" == line
  {
  }

  lemma OpenIdLineShape(depth: nat, name: string, id: string, pre: string, post: string)
    requires pre == Indent(depth) + "<" + name + " id=\"" && post == "\">\n"
    ensures OpenTag(depth, name, [Attr("id", id)]) + "\n" == pre + id + post
  {
    AttrsOne(Attr("id", id));
  }

  lemma OpenTwoLineShape(depth: nat, name: string, a: Attr, b: Attr, pre: string, mid: string, post: string)
    requires pre == Indent(depth) + "<" + name + " " + a.name + "=\""
    requires mid == "\" " + b.name + "=\"" && post == "\">\n"
    ensures OpenTag(depth, name, [a, b]) + "\n" == pre + a.value + mid + b.value + post
  {
    AttrsTwo(a, b);
  }

  lemma CloseLineShape(depth: nat, name: string, line: string)
    requires line == Indent(depth) + "</" + name + ">\n"
    ensures CloseLine(depth, name) == line
  {
  }

  lemma TextLineShape(depth: nat, name: string, t: string, pre: string, post: string)
    requires pre == Indent(depth) + "<" + name + ">" && post == "</" + name + ">\n"
    ensures Render(Element(name, [], Text(t)), depth) == pre + t + post
  {
  }

  lemma CDataLineShape(depth: nat, name: string, t: string, pre: string, post: string)
    requires pre == Indent(depth) + "<" + name + "><![CDATA[" && post == "]]></" + name + ">\n"
    ensures Render(Element(name, [], CData(t)), depth) == pre + t + post
  {
  }

  lemma IdTextLineShape(depth: nat, name: string, id: string, t: string, pre: string, mid: string, post: string)
    requires pre == Indent(depth) + "<" + name + " id=\"" && mid == "\">" && post == "</" + name + ">\n"
    ensures Render(Element(name, [Attr("id", id)], Text(t)), depth) == pre + id + mid + t + post
  {
    AttrsOne(Attr("id", id));
  }

  lemma IdEmptyLineShape(depth: nat, name: string, id: string, pre: string, post: string)
    requires pre == Indent(depth) + "<" + name + " id=\"" && post == "\"/>\n"
    ensures Render(Element(name, [Attr("id", id)], Empty), depth) == pre + id + post
  {
    AttrsOne(Attr("id", id));
    var a := Indent(depth) + "<" + name;
    Chain5(a, " ", "id", "=\"", id, "\"");
    Chain3(a, " ", "id", "=\"");
    assert " " + "id" + "=\"" == " id=\"";
    Chain2(a + " id=\"" + id, "\"", "/>\n");
  }

  /** An element with children: its open line, its children one level
      deeper, its close line. */
  lemma ContainerLines(n: Node, depth: nat, open: string, close: string)
    requires n.content.Children?
    requires open == OpenTag(depth, n.name, n.attrs) + "\n" && close == CloseLine(depth, n.name)
    ensures Render(n, depth) == open + RenderAll(n.content.nodes, depth + 1) + close
  {
  }
}
