/**
 * A worked example: a service definition with one file, one message `Point`
 * and one service `Locator` whose method `Get` is bound to `GET /locate`.
 * After a comment is attached to `Point`, the Markdown document holds the
 * message's anchor, its level-4 heading and paragraph, its field rows with
 * bare scalar types, the method row linking both message types to the
 * anchor, and the level-5 binding heading.
 */
module Scenario {
  import opened Wrappers
  import opened Text
  import opened DocNodes
  import opened Annotation
  import opened Markdown

  function Coord(name: string, number: int): MessageField
  {
    MessageField(name, "", FieldType("int32", "", None), number, "LABEL_OPTIONAL")
  }

  function Point(desc: string): ProtoMessage
  {
    ProtoMessage("Point", desc, [Coord("x", 1), Coord("y", 2)])
  }

  function Locate(): MethodHttpBinding
  {
    MethodHttpBinding("get", "", "get", "/locate", [BindingField("get", "", "get", "/locate")], [])
  }

  /**
   * The RPC method. Its request and response stand for a reference to the
   * message: they carry the package-qualified type name and no fields.
   */
  function Get(): ServiceMethod
  {
    var ref := ProtoMessage("pkg.Point", "", []);
    ServiceMethod("Get", "", ref, ref, [Locate()])
  }

  function Locator(): ProtoService
  {
    ProtoService("Locator", "", [Get()], "pkg.Locator")
  }

  function PointsFile(desc: string): ProtoFile
  {
    ProtoFile("points.proto", "", [Point(desc)], [], [Locator()])
  }

  function Definition(desc: string): MicroserviceDefinition
  {
    MicroserviceDefinition("points", "", [PointsFile(desc)])
  }

  /** The path points.proto / Point leads to the file's first message. */
  lemma ResolvePoint(desc: string)
    ensures Resolve(RootNode(Definition(desc)), ["points.proto", "Point"]) == Some([FileAt(0), MessageAt(0)])
  {
    var path := ["points.proto", "Point"];
    var fileNode := FileNode(PointsFile(desc));
    assert Resolve(MessageNode(Point(desc)), []) == Some([]);
    assert GetByName(fileNode, "Point") == Found(MessageAt(0));
    assert Child(fileNode, MessageAt(0)) == Some(MessageNode(Point(desc)));
    assert ["Point"][0] == "Point" && ["Point"][1..] == [];
    assert [MessageAt(0)] + [] == [MessageAt(0)];
    assert Resolve(fileNode, ["Point"]) == Some([MessageAt(0)]);
    assert GetByName(RootNode(Definition(desc)), "points.proto") == Found(FileAt(0));
    assert Child(RootNode(Definition(desc)), FileAt(0)) == Some(fileNode);
    assert path[0] == "points.proto" && path[1..] == ["Point"];
    assert [FileAt(0)] + [MessageAt(0)] == [FileAt(0), MessageAt(0)];
  }

  /** Attaching the comment to the path points.proto / Point changes exactly the message's description. */
  lemma AnnotatePoint(scrub: string -> string)
    ensures Annotate(Definition(""), ["points.proto", "Point"], "A 2D point.", scrub)
            == Some(Definition(scrub("A 2D point.")))
  {
    ResolvePoint("");
    var d := scrub("A 2D point.");
    var fileNode := FileNode(PointsFile(""));
    var h: seq<Sel> := [FileAt(0), MessageAt(0)];
    assert h[1..] == [MessageAt(0)] && h[1..][1..] == [];
    assert SetDescriptionAt(MessageNode(Point("")), [], d) == MessageNode(Point(d));
    assert SetDescriptionAt(fileNode, [MessageAt(0)], d) == FileNode(PointsFile(d));
    assert SetDescriptionAt(RootNode(Definition("")), h, d) == RootNode(Definition(d));
  }

  lemma PointAnchor()
    ensures Anchor("Point") == "<a name=\"Point\"></a>\n\n"
  {
  }

  lemma PointParagraph()
    ensures Paragraph("A 2D point.") == "A 2D point.\n\n"
  {
    assert Utf8Length("A 2D point.") >= |"A 2D point."| > 1;
  }

  lemma PointHeadingParagraph()
    ensures GenericMarkdown("Point", "A 2D point.", 4) == "#### Point\n\n" + "A 2D point.\n\n"
  {
    HeadingExample();
    PointParagraph();
  }

  lemma PointTitleGlue()
    ensures "<a name=\"Point\"></a>\n\n" + ("#### Point\n\n" + "A 2D point.\n\n")
            == "<a name=\"Point\"></a>\n\n#### Point\n\nA 2D point.\n\n"
  {
  }

  lemma PointTitleText()
    ensures Anchor("Point") + GenericMarkdown("Point", "A 2D point.", 4)
            == "<a name=\"Point\"></a>\n\n#### Point\n\nA 2D point.\n\n"
  {
    PointAnchor();
    PointHeadingParagraph();
    PointTitleGlue();
  }

  /** The message's anchor, level-4 heading and paragraph. */
  lemma PointTitle(r: MicroserviceDefinition, css: string)
    requires |r.files| > 0 && |r.files[0].messages| > 0 && r.files[0].messages[0] == Point("A 2D point.")
    ensures Occurs("<a name=\"Point\"></a>\n\n#### Point\n\nA 2D point.\n\n", RootMarkdown(r, 1, css))
  {
    MessageHeadingInDocument(r, 0, 0, css);
    PointTitleText();
  }

  lemma CoordRow(name: string, number: int, num: string)
    requires IntToString(number) == num
    ensures FieldRow(Coord(name, number)) == "| " + name + " | int32 | " + num + " |  |\n"
  {
    NameLinkExampleScalar();
    assert StripNewlines("") == "";
    var x := "| " + name + " | ";
    assert "| " + name + " | " + "int32" + " | " + num + " | " + "" + " |\n"
        == x + ("int32" + " | ") + num + (" | " + "" + " |\n");
    assert "int32" + " | " == "int32 | " && " | " + "" + " |\n" == " |  |\n";
  }

  lemma SmallNumbers()
    ensures IntToString(1) == "1" && IntToString(2) == "2"
  {
  }

  lemma CoordRowGlue()
    ensures "| " + "x" + " | int32 | " + "1" + " |  |\n" == "| x | int32 | 1 |  |\n"
    ensures "| " + "y" + " | int32 | " + "2" + " |  |\n" == "| y | int32 | 2 |  |\n"
  {
  }

  lemma CoordRowX()
    ensures FieldRow(Coord("x", 1)) == "| x | int32 | 1 |  |\n"
  {
    SmallNumbers();
    CoordRow("x", 1, "1");
    CoordRowGlue();
  }

  lemma CoordRowY()
    ensures FieldRow(Coord("y", 2)) == "| y | int32 | 2 |  |\n"
  {
    SmallNumbers();
    CoordRow("y", 2, "2");
    CoordRowGlue();
  }

  /** One row per field, with the scalar type left bare. */
  lemma PointRows(r: MicroserviceDefinition, desc: string, css: string)
    requires |r.files| > 0 && |r.files[0].messages| > 0 && r.files[0].messages[0] == Point(desc)
    ensures Occurs("| x | int32 | 1 |  |\n", RootMarkdown(r, 1, css))
    ensures Occurs("| y | int32 | 2 |  |\n", RootMarkdown(r, 1, css))
  {
    var m := Point(desc);
    MessageInDocument(r, 0, 0, css);
    CoordRowX();
    CoordRowY();
    MessageTableRows(m, 4, 0);
    MessageTableRows(m, 4, 1);
    OccursTransitive(FieldRow(m.fields[0]), MessageMarkdown(m, 4), RootMarkdown(r, 1, css));
    OccursTransitive(FieldRow(m.fields[1]), MessageMarkdown(m, 4), RootMarkdown(r, 1, css));
  }

  lemma PointLink()
    ensures NameLink("pkg.Point") == "[Point](#Point)"
  {
    NameLinkQualified("pkg", "Point");
    assert "pkg" + "." + "Point" == "pkg.Point";
    assert Link("Point") == "[Point](#Point)";
  }

  lemma GetRowGlue()
    ensures "| " + "Get" + " | " + "[Point](#Point)" + " | " + "[Point](#Point)" + " | " + "" + " |\n"
            == "| Get | [Point](#Point) | [Point](#Point) |  |\n"
  {
    var a := "| " + "Get" + " | " + "[Point](#Point)";
    assert a == "| Get | [Point](#Point)";
    var b := a + " | " + "[Point](#Point)";
    assert b == "| Get | [Point](#Point) | [Point](#Point)";
    assert b + " | " + "" + " |\n" == "| Get | [Point](#Point) | [Point](#Point) |  |\n";
  }

  lemma GetMethodRow(m: ServiceMethod)
    requires m.name == "Get" && m.description == ""
    requires m.requestType.name == "pkg.Point" && m.responseType.name == "pkg.Point"
    ensures MethodRow(m) == "| Get | [Point](#Point) | [Point](#Point) |  |\n"
  {
    PointLink();
    GetRowGlue();
  }

  /** The method row links both message types to the message's anchor. */
  lemma GetRow(r: MicroserviceDefinition, css: string)
    requires |r.files| > 0 && |r.files[0].services| > 0 && r.files[0].services[0] == Locator()
    ensures Occurs("| Get | [Point](#Point) | [Point](#Point) |  |\n", RootMarkdown(r, 1, css))
  {
    var f := r.files[0];
    var s := f.services[0];
    GetMethodRow(s.methods[0]);
    MethodInServiceMarkdown(s, 0, 4);
    ServiceInFileMarkdown(f, 0, 2);
    FileInRootMarkdown(r, 0, 1, css);
    OccursTransitive(MethodRow(s.methods[0]), ServiceMarkdown(s, 4), FileMarkdown(f, 2));
    OccursTransitive(MethodRow(s.methods[0]), FileMarkdown(f, 2), RootMarkdown(r, 1, css));
  }

  /** The binding's level-5 heading. */
  lemma LocateHeading(r: MicroserviceDefinition, css: string)
    requires |r.files| > 0 && |r.files[0].services| > 0 && r.files[0].services[0] == Locator()
    ensures Occurs("##### GET `/locate`\n\n", RootMarkdown(r, 1, css))
  {
    assert r.files[0].services[0].methods[0].httpBindings[0] == Locate();
    BindingHeadingInDocument(r, 0, 0, 0, 0, css);
    BindingHeadingExample();
  }

  /** What the document of the annotated definition holds, when the cleaner keeps the comment as it is. */
  lemma PointDocument(scrub: string -> string, css: string)
    requires scrub("A 2D point.") == "A 2D point."
    ensures Annotate(Definition(""), ["points.proto", "Point"], "A 2D point.", scrub) == Some(Definition("A 2D point."))
    ensures var doc := RootMarkdown(Definition("A 2D point."), 1, css);
      && Occurs("<a name=\"Point\"></a>\n\n#### Point\n\nA 2D point.\n\n", doc)
      && Occurs("| x | int32 | 1 |  |\n", doc)
      && Occurs("| y | int32 | 2 |  |\n", doc)
      && Occurs("| Get | [Point](#Point) | [Point](#Point) |  |\n", doc)
      && Occurs("##### GET `/locate`\n\n", doc)
  {
    AnnotatePoint(scrub);
    PointDocumentText(Definition("A 2D point."), css);
  }

  lemma PointDocumentText(r: MicroserviceDefinition, css: string)
    requires r == Definition("A 2D point.")
    ensures var doc := RootMarkdown(r, 1, css);
      && Occurs("<a name=\"Point\"></a>\n\n#### Point\n\nA 2D point.\n\n", doc)
      && Occurs("| x | int32 | 1 |  |\n", doc)
      && Occurs("| y | int32 | 2 |  |\n", doc)
      && Occurs("| Get | [Point](#Point) | [Point](#Point) |  |\n", doc)
      && Occurs("##### GET `/locate`\n\n", doc)
  {
    PointTitle(r, css);
    PointRows(r, "A 2D point.", css);
    GetRow(r, css);
    LocateHeading(r, css);
  }
}
