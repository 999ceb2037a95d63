/**
 * The Markdown rendering of a documentation tree (describeMarkdown /
 * Markdown): headings whose level is the depth, description paragraphs,
 * message anchors, tables of fields, enum values, methods and HTTP
 * parameters, and cross-links produced by the name-link heuristic.
 */
module Markdown {
  import opened Wrappers
  import opened Text
  import opened DocNodes

  // ---------------------------------------------------------------------
  // Building blocks
  // ---------------------------------------------------------------------

  /** `depth` hashes, a space, the title and a blank line. */
  function Heading(depth: int, title: string): string
  {
    Repeat("#", depth) + " " + title + "\n\n"
  }

  /** A description paragraph, printed only when the description is longer than one byte. */
  function Paragraph(desc: string): string
  {
    if Utf8Length(desc) > 1 then desc + "\n\n" else ""
  }

  /** genericDescribeMarkdown: the heading and, possibly, the paragraph. */
  function GenericMarkdown(name: string, desc: string, depth: int): string
  {
    Heading(depth, name) + Paragraph(desc)
  }

  /** The HTML anchor placed above a message so that links to `#name` land on it. */
  function Anchor(name: string): string
  {
    "<a name=\"" + name + "\"></a>" + "\n\n"
  }

  // ---------------------------------------------------------------------
  // Messages
  // ---------------------------------------------------------------------

  const MessageTableHeader: string :=
    "| Name | Type | Field Number | Description|\n" + "| ---- | ---- | ------------ | -----------|\n"

  /** One field's table row: its type through the name-link heuristic, its description without newlines. */
  function FieldRow(f: MessageField): string
  {
    "| " + f.name + " | " + NameLink(f.fieldType.name) + " | " + IntToString(f.number) + " | "
    + StripNewlines(f.description) + " |\n"
  }

  function FieldRowEntry(): (int, MessageField) -> string
  {
    (i, f) => FieldRow(f)
  }

  /** The table of fields, or a lone newline for a message without fields. */
  function FieldTable(fields: seq<MessageField>): string
  {
    if |fields| < 1 then "\n" else MessageTableHeader + Join(fields, FieldRowEntry()) + "\n"
  }

  function MessageMarkdown(m: ProtoMessage, depth: int): string
  {
    Anchor(m.name) + GenericMarkdown(m.name, m.description, depth) + FieldTable(m.fields)
  }

  // ---------------------------------------------------------------------
  // Enums
  // ---------------------------------------------------------------------

  const EnumTableHeader: string := "| Number | Name |\n" + "| ------ | ---- |\n"

  function ValueRow(v: EnumValue): string
  {
    "| " + IntToString(v.number) + " | " + v.name + " |\n"
  }

  function ValueRowEntry(): (int, EnumValue) -> string
  {
    (i, v) => ValueRow(v)
  }

  function EnumMarkdown(e: ProtoEnum, depth: int): string
  {
    GenericMarkdown(e.name, e.description, depth) + EnumTableHeader + Join(e.values, ValueRowEntry()) + "\n\n"
  }

  // ---------------------------------------------------------------------
  // HTTP bindings, methods and services
  // ---------------------------------------------------------------------

  const ParamTableHeader: string := "| Parameter Name | Location | Type |\n" + "| ---- | ---- | ------------ |\n"

  function ParamRow(p: HttpParameter): string
  {
    "| " + p.name + " | " + p.location + " | " + NameLink(p.paramType) + " |\n"
  }

  function ParamRowEntry(): (int, HttpParameter) -> string
  {
    (i, p) => ParamRow(p)
  }

  /** The verb in capitals and the path in backquotes as a heading, the description as it is, the parameters. */
  function BindingMarkdown(b: MethodHttpBinding, depth: int): string
  {
    Heading(depth, ToUpper(b.verb) + " `" + b.path + "`") + b.description + "\n\n"
    + ParamTableHeader + Join(b.params, ParamRowEntry()) + "\n"
  }

  function BindingMdEntry(depth: int): (int, MethodHttpBinding) -> string
  {
    (i, b) => BindingMarkdown(b, depth)
  }

  /** A method contributes only its bindings, at its own depth. */
  function MethodMarkdown(m: ServiceMethod, depth: int): string
  {
    Join(m.httpBindings, BindingMdEntry(depth))
  }

  const ServiceTableHeader: string :=
    "| Method Name | Request Type | Response Type | Description|\n" + "| ---- | ---- | ------------ | -----------|\n"

  /** One method's row; the description is printed as it is, newlines included. */
  function MethodRow(m: ServiceMethod): string
  {
    "| " + m.name + " | " + NameLink(m.requestType.name) + " | " + NameLink(m.responseType.name) + " | "
    + m.description + " |\n"
  }

  function MethodRowEntry(): (int, ServiceMethod) -> string
  {
    (i, m) => MethodRow(m)
  }

  function MethodMdEntry(depth: int): (int, ServiceMethod) -> string
  {
    (i, m) => MethodMarkdown(m, depth)
  }

  function ServiceMarkdown(s: ProtoService, depth: int): string
  {
    GenericMarkdown(s.name, s.description, depth) + ServiceTableHeader + Join(s.methods, MethodRowEntry()) + "\n"
    + Heading(depth, s.name + " - Http Methods") + Join(s.methods, MethodMdEntry(depth + 1))
  }

  // ---------------------------------------------------------------------
  // Files and the root
  // ---------------------------------------------------------------------

  function MessageMdEntry(depth: int): (int, ProtoMessage) -> string
  {
    (i, m) => MessageMarkdown(m, depth)
  }

  function EnumMdEntry(depth: int): (int, ProtoEnum) -> string
  {
    (i, e) => EnumMarkdown(e, depth)
  }

  function ServiceMdEntry(depth: int): (int, ProtoService) -> string
  {
    (i, s) => ServiceMarkdown(s, depth)
  }

  function MessagesSection(f: ProtoFile, depth: int): string
  {
    if |f.messages| > 0 then Heading(depth + 1, "Messages") + Join(f.messages, MessageMdEntry(depth + 2)) else ""
  }

  function EnumsSection(f: ProtoFile, depth: int): string
  {
    if |f.enums| > 0 then Heading(depth + 1, "Enums") + Join(f.enums, EnumMdEntry(depth + 2)) else ""
  }

  function ServicesSection(f: ProtoFile, depth: int): string
  {
    if |f.services| > 0 then Heading(depth + 1, "Services") + Join(f.services, ServiceMdEntry(depth + 2)) else ""
  }

  /** A file's sections come in the order messages, enums, services. */
  function FileMarkdown(f: ProtoFile, depth: int): string
  {
    GenericMarkdown(f.name, f.description, depth) + MessagesSection(f, depth) + EnumsSection(f, depth)
    + ServicesSection(f, depth)
  }

  function FileMdEntry(depth: int): (int, ProtoFile) -> string
  {
    (i, f) => FileMarkdown(f, depth)
  }

  /** The style sheet, the root's heading and paragraph, then every file one level deeper. */
  function RootMarkdown(r: MicroserviceDefinition, depth: int, css: string): string
  {
    css + GenericMarkdown(r.name, r.description, depth) + Join(r.files, FileMdEntry(depth + 1))
  }

  /**
   * describeMarkdown of any node: fields, field types, binding fields and
   * parameters use the generic rendering; an enum value has no Markdown
   * rendering at all.
   */
  function NodeMarkdown(n: Node, depth: int, css: string): (r: Option<string>)
    ensures r.None? <==> n.EnumValueNode?
  {
    match n
    case RootNode(r) => Some(RootMarkdown(r, depth, css))
    case FileNode(f) => Some(FileMarkdown(f, depth))
    case MessageNode(m) => Some(MessageMarkdown(m, depth))
    case FieldNode(f) => Some(GenericMarkdown(f.name, f.description, depth))
    case FieldTypeNode(t) => Some(GenericMarkdown(t.name, t.description, depth))
    case EnumNode(e) => Some(EnumMarkdown(e, depth))
    case EnumValueNode(_) => None
    case ServiceNode(sv) => Some(ServiceMarkdown(sv, depth))
    case MethodNode(m) => Some(MethodMarkdown(m, depth))
    case BindingNode(b) => Some(BindingMarkdown(b, depth))
    case BindingFieldNode(b) => Some(GenericMarkdown(b.name, b.description, depth))
    case ParameterNode(p) => Some(GenericMarkdown(p.name, p.description, depth))
  }

  // ---------------------------------------------------------------------
  // The describeMarkdown methods, with the loops of the source
  // ---------------------------------------------------------------------

  method HeadingLine(depth: int, title: string) returns (rv: string)
    ensures rv == Heading(depth, title)
  {
    var hashes := StrRepeat("#", depth);
    rv := hashes + " " + title + "\n\n";
  }

  method DescribeMarkdownGeneric(name: string, desc: string, depth: int) returns (rv: string)
    ensures rv == GenericMarkdown(name, desc, depth)
  {
    rv := HeadingLine(depth, name);
    if Utf8Length(desc) > 1 {
      rv := rv + (desc + "\n\n");
    }
  }

  /** The rows of a message's field table, in field order. */
  method FieldRows(fields: seq<MessageField>) returns (rv: string)
    ensures rv == Join(fields, FieldRowEntry())
  {
    rv := AppendEach("", fields, FieldRowEntry());
    assert "" + Join(fields, FieldRowEntry()) == Join(fields, FieldRowEntry());
  }

  method DescribeMarkdownMessage(m: ProtoMessage, depth: int) returns (rv: string)
    ensures rv == MessageMarkdown(m, depth)
  {
    var g := DescribeMarkdownGeneric(m.name, m.description, depth);
    rv := Anchor(m.name) + g;
    if |m.fields| < 1 {
      rv := rv + "\n";
    } else {
      var rows := FieldRows(m.fields);
      rv := rv + (MessageTableHeader + rows + "\n");
    }
  }

  method DescribeMarkdownEnum(e: ProtoEnum, depth: int) returns (rv: string)
    ensures rv == EnumMarkdown(e, depth)
  {
    rv := DescribeMarkdownGeneric(e.name, e.description, depth);
    rv := rv + EnumTableHeader;
    ghost var head := rv;
    var i := 0;
    while i < |e.values|
      invariant 0 <= i <= |e.values|
      invariant rv == head + Join(e.values[..i], ValueRowEntry())
    {
      var row := ValueRow(e.values[i]);
      JoinStep(e.values, i, ValueRowEntry(), head, rv, row);
      rv := rv + row;
      i := i + 1;
    }
    TakeAll(e.values);
    rv := rv + "\n\n";
  }

  method DescribeMarkdownBinding(b: MethodHttpBinding, depth: int) returns (rv: string)
    ensures rv == BindingMarkdown(b, depth)
  {
    rv := HeadingLine(depth, ToUpper(b.verb) + " `" + b.path + "`");
    rv := rv + b.description + "\n\n";
    rv := rv + ParamTableHeader;
    ghost var head := rv;
    var i := 0;
    while i < |b.params|
      invariant 0 <= i <= |b.params|
      invariant rv == head + Join(b.params[..i], ParamRowEntry())
    {
      var row := ParamRow(b.params[i]);
      JoinStep(b.params, i, ParamRowEntry(), head, rv, row);
      rv := rv + row;
      i := i + 1;
    }
    TakeAll(b.params);
    rv := rv + "\n";
  }

  method DescribeMarkdownMethod(m: ServiceMethod, depth: int) returns (rv: string)
    ensures rv == MethodMarkdown(m, depth)
  {
    rv := "";
    var i := 0;
    while i < |m.httpBindings|
      invariant 0 <= i <= |m.httpBindings|
      invariant rv == "" + Join(m.httpBindings[..i], BindingMdEntry(depth))
    {
      var sub := DescribeMarkdownBinding(m.httpBindings[i], depth);
      JoinStep(m.httpBindings, i, BindingMdEntry(depth), "", rv, sub);
      rv := rv + sub;
      i := i + 1;
    }
    assert m.httpBindings[..i] == m.httpBindings;
  }

  method DescribeMarkdownService(s: ProtoService, depth: int) returns (rv: string)
    ensures rv == ServiceMarkdown(s, depth)
  {
    rv := DescribeMarkdownGeneric(s.name, s.description, depth);
    rv := rv + ServiceTableHeader;
    ghost var head := rv;
    var i := 0;
    while i < |s.methods|
      invariant 0 <= i <= |s.methods|
      invariant rv == head + Join(s.methods[..i], MethodRowEntry())
    {
      var meth := s.methods[i];
      var reqLink := NameLink(meth.requestType.name);
      var resLink := NameLink(meth.responseType.name);
      var row := "| " + meth.name + " | " + reqLink + " | " + resLink + " | " + meth.description + " |\n";
      JoinStep(s.methods, i, MethodRowEntry(), head, rv, row);
      rv := rv + row;
      i := i + 1;
    }
    TakeAll(s.methods);
    rv := rv + "\n";
    var title := HeadingLine(depth, s.name + " - Http Methods");
    rv := rv + title;
    head := rv;
    i := 0;
    while i < |s.methods|
      invariant 0 <= i <= |s.methods|
      invariant rv == head + Join(s.methods[..i], MethodMdEntry(depth + 1))
    {
      var sub := DescribeMarkdownMethod(s.methods[i], depth + 1);
      JoinStep(s.methods, i, MethodMdEntry(depth + 1), head, rv, sub);
      rv := rv + sub;
      i := i + 1;
    }
    TakeAll(s.methods);
  }

  /** Every message of a file, one after the other, at the given depth. */
  method MessagesMarkdown(ms: seq<ProtoMessage>, depth: int) returns (rv: string)
    ensures rv == Join(ms, MessageMdEntry(depth))
  {
    rv := "";
    var i := 0;
    while i < |ms|
      invariant 0 <= i <= |ms|
      invariant rv == "" + Join(ms[..i], MessageMdEntry(depth))
    {
      var sub := DescribeMarkdownMessage(ms[i], depth);
      JoinStep(ms, i, MessageMdEntry(depth), "", rv, sub);
      rv := rv + sub;
      i := i + 1;
    }
    TakeAll(ms);
  }

  method DescribeMessagesSection(f: ProtoFile, depth: int) returns (rv: string)
    ensures rv == MessagesSection(f, depth)
  {
    rv := "";
    if |f.messages| > 0 {
      var title := HeadingLine(depth + 1, "Messages");
      var body := MessagesMarkdown(f.messages, depth + 2);
      rv := title + body;
    }
  }

  method DescribeEnumsSection(f: ProtoFile, depth: int) returns (rv: string)
    ensures rv == EnumsSection(f, depth)
  {
    rv := "";
    if |f.enums| > 0 {
      rv := HeadingLine(depth + 1, "Enums");
      ghost var head := rv;
      var i := 0;
      while i < |f.enums|
        invariant 0 <= i <= |f.enums|
        invariant rv == head + Join(f.enums[..i], EnumMdEntry(depth + 2))
      {
        var sub := DescribeMarkdownEnum(f.enums[i], depth + 2);
        JoinStep(f.enums, i, EnumMdEntry(depth + 2), head, rv, sub);
        rv := rv + sub;
        i := i + 1;
      }
      TakeAll(f.enums);
    }
  }

  method DescribeServicesSection(f: ProtoFile, depth: int) returns (rv: string)
    ensures rv == ServicesSection(f, depth)
  {
    rv := "";
    if |f.services| > 0 {
      rv := HeadingLine(depth + 1, "Services");
      ghost var head := rv;
      var i := 0;
      while i < |f.services|
        invariant 0 <= i <= |f.services|
        invariant rv == head + Join(f.services[..i], ServiceMdEntry(depth + 2))
      {
        var sub := DescribeMarkdownService(f.services[i], depth + 2);
        JoinStep(f.services, i, ServiceMdEntry(depth + 2), head, rv, sub);
        rv := rv + sub;
        i := i + 1;
      }
      TakeAll(f.services);
    }
  }

  method DescribeMarkdownFile(f: ProtoFile, depth: int) returns (rv: string)
    ensures rv == FileMarkdown(f, depth)
  {
    rv := DescribeMarkdownGeneric(f.name, f.description, depth);
    var ms := DescribeMessagesSection(f, depth);
    var es := DescribeEnumsSection(f, depth);
    var ss := DescribeServicesSection(f, depth);
    rv := rv + ms + es + ss;
  }

  method DescribeMarkdownRoot(r: MicroserviceDefinition, depth: int, css: string) returns (rv: string)
    ensures rv == RootMarkdown(r, depth, css)
  {
    rv := css;
    var g := DescribeMarkdownGeneric(r.name, r.description, depth);
    rv := rv + g;
    ghost var head := rv;
    var i := 0;
    while i < |r.files|
      invariant 0 <= i <= |r.files|
      invariant rv == head + Join(r.files[..i], FileMdEntry(depth + 1))
    {
      var sub := DescribeMarkdownFile(r.files[i], depth + 1);
      JoinStep(r.files, i, FileMdEntry(depth + 1), head, rv, sub);
      rv := rv + sub;
      i := i + 1;
    }
    TakeAll(r.files);
  }

  // ---------------------------------------------------------------------
  // Properties of the rendering
  // ---------------------------------------------------------------------

  /** A heading of depth `d` is exactly `d` hashes, a space, the title and a blank line. */
  lemma HeadingLevel(depth: nat, title: string)
    ensures |Heading(depth, title)| == depth + |title| + 3
    ensures forall k | 0 <= k < depth :: Heading(depth, title)[k] == '#'
    ensures Heading(depth, title)[depth] == ' '
    ensures Heading(depth, title)[depth + 1..] == title + "\n\n"
  {
    RepeatChar('#', depth);
  }

  lemma HeadingAvoids(depth: int, title: string, c: char)
    requires c != '#' && c != ' ' && c != '\n' && c !in title
    ensures c !in Heading(depth, title)
  {
    RepeatChar('#', depth);
  }

  lemma HeadingExample()
    ensures Heading(4, "Point") == "#### Point\n\n"
  {
    assert Repeat("#", 4) == "####";
  }

  /**
   * The paragraph rule on characters: a description is printed exactly when
   * it is neither empty nor a single ASCII character; then it is followed by
   * a blank line.
   */
  lemma ParagraphRule(desc: string)
    ensures Paragraph(desc) == "" <==> desc == [] || (|desc| == 1 && desc[0] as int < 0x80)
    ensures Paragraph(desc) != "" ==> Paragraph(desc) == desc + "\n\n"
  {
    AtMostOneByte(desc);
  }

  /** The length test counts bytes: one character outside ASCII is printed. */
  lemma ParagraphOneWideCharacter()
    ensures Paragraph("\U{E9}") == "\U{E9}\n\n"
    ensures Paragraph("x") == ""
  {
    AtMostOneByte("\U{E9}");
    AtMostOneByte("x");
  }

  /** A message opens with its anchor, then its heading at the given depth and its paragraph. */
  lemma MessageStartsWithAnchor(m: ProtoMessage, depth: int)
    ensures Anchor(m.name) + Heading(depth, m.name) <= MessageMarkdown(m, depth)
    ensures Anchor(m.name) + GenericMarkdown(m.name, m.description, depth) <= MessageMarkdown(m, depth)
  {
    var h := Heading(depth, m.name);
    var g := GenericMarkdown(m.name, m.description, depth);
    PrefixOfLonger(h, h, Paragraph(m.description));
    PrefixExtend(Anchor(m.name), h, g);
    PrefixOfLonger(Anchor(m.name) + h, Anchor(m.name) + g, FieldTable(m.fields));
    PrefixOfLonger(Anchor(m.name) + g, Anchor(m.name) + g, FieldTable(m.fields));
  }

  /**
   * A message renders a table exactly when it has fields: when its name and
   * description hold no bar, a bar appears in its Markdown if and only if
   * it has at least one field.
   */
  lemma MessageTableIff(m: ProtoMessage, depth: int)
    requires '|' !in m.name && '|' !in m.description
    ensures '|' in MessageMarkdown(m, depth) <==> |m.fields| > 0
  {
    HeadingAvoids(depth, m.name, '|');
    var pre := Anchor(m.name) + GenericMarkdown(m.name, m.description, depth);
    assert '|' !in pre;
    if |m.fields| > 0 {
      assert FieldTable(m.fields)[0] == MessageTableHeader[0];
    } else {
      assert FieldTable(m.fields) == "\n";
    }
  }

  /**
   * With fields, the header comes right after the title block, followed by
   * the rows in field order: the row of field `i` comes right after the rows
   * of the fields before it.
   */
  lemma MessageTableRows(m: ProtoMessage, depth: int, i: int)
    requires 0 <= i < |m.fields|
    ensures Anchor(m.name) + GenericMarkdown(m.name, m.description, depth)
            + (MessageTableHeader + (Join(m.fields[..i], FieldRowEntry()) + FieldRow(m.fields[i])))
            <= MessageMarkdown(m, depth)
    ensures Occurs(FieldRow(m.fields[i]), MessageMarkdown(m, depth))
  {
    var pre := Anchor(m.name) + GenericMarkdown(m.name, m.description, depth);
    var rows := Join(m.fields, FieldRowEntry());
    var row := FieldRow(m.fields[i]);
    var before := Join(m.fields[..i], FieldRowEntry()) + row;
    assert FieldTable(m.fields) == MessageTableHeader + rows + "\n";
    JoinOrder(m.fields, i, FieldRowEntry());
    PrefixExtend(MessageTableHeader, before, rows);
    PrefixOfLonger(MessageTableHeader + before, MessageTableHeader + rows, "\n");
    PrefixExtend(pre, MessageTableHeader + before, FieldTable(m.fields));
    JoinHoldsEntry(m.fields, i, FieldRowEntry());
    OccursRight(row, MessageTableHeader, rows);
    OccursLeft(row, MessageTableHeader + rows, "\n");
    OccursRight(row, pre, FieldTable(m.fields));
  }

  /** A field's row is one line even when the description spans several. */
  lemma FieldRowOneLine(f: MessageField)
    requires '\n' !in f.name && '\n' !in f.fieldType.name
    ensures CountOf('\n', FieldRow(f)) == 1
    ensures FieldRow(f)[|FieldRow(f)| - 1] == '\n'
  {
    var line := "| " + f.name + " | " + NameLink(f.fieldType.name) + " | " + IntToString(f.number) + " | "
                + StripNewlines(f.description) + " |";
    assert FieldRow(f) == line + "\n";
    CountOfAbsent('\n', line);
    CountOfConcat('\n', line, "\n");
  }

  /** A field's row has the five bars of a four-column row, when its texts hold no bar. */
  lemma FieldRowFitsTable(f: MessageField)
    requires '|' !in f.name && '|' !in f.fieldType.name && '|' !in f.description
    ensures CountOf('|', FieldRow(f)) == 5
  {
    assert '|' !in NameLink(f.fieldType.name) && '|' !in StripNewlines(f.description);
    CountOfMultiset('|', FieldRow(f));
  }

  /** An enum value's row is one line with the three bars of a two-column row. */
  lemma ValueRowFitsTable(v: EnumValue)
    requires '|' !in v.name && '\n' !in v.name
    ensures CountOf('|', ValueRow(v)) == 3
    ensures CountOf('\n', ValueRow(v)) == 1
  {
    CountOfMultiset('|', ValueRow(v));
    CountOfMultiset('\n', ValueRow(v));
  }

  /** A parameter's row is one line with the four bars of a three-column row. */
  lemma ParamRowFitsTable(p: HttpParameter)
    requires '|' !in p.name && '|' !in p.location && '|' !in p.paramType
    requires '\n' !in p.name && '\n' !in p.location && '\n' !in p.paramType
    ensures CountOf('|', ParamRow(p)) == 4
    ensures CountOf('\n', ParamRow(p)) == 1
  {
    assert '|' !in NameLink(p.paramType) && '\n' !in NameLink(p.paramType);
    CountOfMultiset('|', ParamRow(p));
    CountOfMultiset('\n', ParamRow(p));
  }

  /** A method's row has the five bars of a four-column row, when its texts hold no bar. */
  lemma MethodRowFitsTable(m: ServiceMethod)
    requires '|' !in m.name && '|' !in m.requestType.name && '|' !in m.responseType.name && '|' !in m.description
    ensures CountOf('|', MethodRow(m)) == 5
  {
    assert '|' !in NameLink(m.requestType.name) && '|' !in NameLink(m.responseType.name);
    CountOfMultiset('|', MethodRow(m));
  }

  /** The field table holds one line per field. */
  lemma {:induction false} FieldRowsOnePerField(fields: seq<MessageField>)
    requires forall k | 0 <= k < |fields| :: '\n' !in fields[k].name && '\n' !in fields[k].fieldType.name
    ensures CountOf('\n', Join(fields, FieldRowEntry())) == |fields|
  {
    if fields != [] {
      var n := |fields| - 1;
      assert forall k | 0 <= k < n :: fields[..n][k] == fields[k];
      FieldRowsOnePerField(fields[..n]);
      FieldRowOneLine(fields[n]);
      CountOfConcat('\n', Join(fields[..n], FieldRowEntry()), FieldRow(fields[n]));
    }
  }

  /** A method's row, unlike a field's, keeps every newline of the description. */
  lemma MethodRowKeepsNewlines(m: ServiceMethod)
    requires '\n' !in m.name && '\n' !in m.requestType.name && '\n' !in m.responseType.name
    ensures CountOf('\n', MethodRow(m)) == CountOf('\n', m.description) + 1
  {
    var lead := "| " + m.name + " | " + NameLink(m.requestType.name) + " | " + NameLink(m.responseType.name) + " | ";
    assert MethodRow(m) == lead + m.description + (" |" + "\n");
    CountOfAbsent('\n', lead);
    CountOfAbsent('\n', " |");
    CountOfConcat('\n', " |", "\n");
    CountOfConcat('\n', lead, m.description);
    CountOfConcat('\n', lead + m.description, " |" + "\n");
  }

  /** The enum table is printed even for an enum without values; each value has its row. */
  lemma EnumTableAlways(e: ProtoEnum, depth: int)
    ensures GenericMarkdown(e.name, e.description, depth) + EnumTableHeader <= EnumMarkdown(e, depth)
    ensures |e.values| == 0 ==> EnumMarkdown(e, depth) == GenericMarkdown(e.name, e.description, depth) + EnumTableHeader + "\n\n"
    ensures forall i | 0 <= i < |e.values| :: Occurs(ValueRow(e.values[i]), EnumMarkdown(e, depth))
  {
    var pre := GenericMarkdown(e.name, e.description, depth) + EnumTableHeader;
    var rows := Join(e.values, ValueRowEntry());
    assert EnumMarkdown(e, depth) == pre + rows + "\n\n";
    forall i | 0 <= i < |e.values|
      ensures Occurs(ValueRow(e.values[i]), EnumMarkdown(e, depth))
    {
      JoinHoldsEntry(e.values, i, ValueRowEntry());
      OccursWithin(ValueRow(e.values[i]), pre, rows, "\n\n");
    }
  }

  /** The method table and the "Http Methods" heading are printed even for a service without methods. */
  lemma ServiceTablesAlways(s: ProtoService, depth: int)
    ensures GenericMarkdown(s.name, s.description, depth) + ServiceTableHeader <= ServiceMarkdown(s, depth)
    ensures Occurs(Heading(depth, s.name + " - Http Methods"), ServiceMarkdown(s, depth))
    ensures |s.methods| == 0 ==>
      ServiceMarkdown(s, depth) == GenericMarkdown(s.name, s.description, depth) + ServiceTableHeader + "\n"
                                   + Heading(depth, s.name + " - Http Methods")
  {
    ServiceParts(GenericMarkdown(s.name, s.description, depth) + ServiceTableHeader, Join(s.methods, MethodRowEntry()),
                 Heading(depth, s.name + " - Http Methods"), Join(s.methods, MethodMdEntry(depth + 1)));
  }

  /** Where the pieces of a service's section sit in it, as a fact about any strings. */
  lemma ServiceParts(top: string, rows: string, h: string, subs: string)
    ensures top <= top + rows + "\n" + h + subs
    ensures Occurs(h, top + rows + "\n" + h + subs)
    ensures rows == "" && subs == "" ==> top + rows + "\n" + h + subs == top + "\n" + h
  {
    var pre := top + rows + "\n";
    assert (pre + h + subs)[..|top|] == top;
    OccursSelf(h);
    OccursWithin(h, pre, h, subs);
  }

  lemma MethodRowInService(s: ProtoService, i: int, depth: int)
    requires 0 <= i < |s.methods|
    ensures Occurs(MethodRow(s.methods[i]), ServiceMarkdown(s, depth))
  {
    var g := GenericMarkdown(s.name, s.description, depth) + ServiceTableHeader;
    var rows := Join(s.methods, MethodRowEntry());
    var rest := "\n" + Heading(depth, s.name + " - Http Methods") + Join(s.methods, MethodMdEntry(depth + 1));
    Assoc3(g, rows, "\n", Heading(depth, s.name + " - Http Methods"), Join(s.methods, MethodMdEntry(depth + 1)));
    JoinHoldsEntry(s.methods, i, MethodRowEntry());
    OccursWithin(MethodRow(s.methods[i]), g, rows, rest);
  }

  lemma MethodSectionInService(s: ProtoService, i: int, depth: int)
    requires 0 <= i < |s.methods|
    ensures Occurs(MethodMarkdown(s.methods[i], depth + 1), ServiceMarkdown(s, depth))
  {
    var pre := GenericMarkdown(s.name, s.description, depth) + ServiceTableHeader + Join(s.methods, MethodRowEntry())
               + "\n" + Heading(depth, s.name + " - Http Methods");
    var subs := Join(s.methods, MethodMdEntry(depth + 1));
    assert ServiceMarkdown(s, depth) == pre + subs + "";
    JoinHoldsEntry(s.methods, i, MethodMdEntry(depth + 1));
    OccursWithin(MethodMarkdown(s.methods[i], depth + 1), pre, subs, "");
  }

  /** Each method of a service has a row in the table and its bindings one level deeper below. */
  lemma MethodInServiceMarkdown(s: ProtoService, i: int, depth: int)
    requires 0 <= i < |s.methods|
    ensures Occurs(MethodRow(s.methods[i]), ServiceMarkdown(s, depth))
    ensures Occurs(MethodMarkdown(s.methods[i], depth + 1), ServiceMarkdown(s, depth))
  {
    MethodRowInService(s, i, depth);
    MethodSectionInService(s, i, depth);
  }

  /** A method contributes nothing exactly when it has no HTTP bindings. */
  lemma MethodMarkdownEmptyIff(m: ServiceMethod, depth: int)
    ensures MethodMarkdown(m, depth) == "" <==> |m.httpBindings| == 0
  {
    JoinEmptyIff(m.httpBindings, BindingMdEntry(depth));
    if |m.httpBindings| > 0 {
      assert BindingMdEntry(depth)(0, m.httpBindings[0]) != "";
    }
  }

  lemma BindingInMethodMarkdown(m: ServiceMethod, i: int, depth: int)
    requires 0 <= i < |m.httpBindings|
    ensures Occurs(BindingMarkdown(m.httpBindings[i], depth), MethodMarkdown(m, depth))
  {
    JoinHoldsEntry(m.httpBindings, i, BindingMdEntry(depth));
  }

  /**
   * A binding's heading shows the verb in capitals and the path in
   * backquotes; its description is printed whatever its length, followed by
   * a blank line; the parameter table is always printed, one row per
   * parameter.
   */
  lemma BindingLayout(b: MethodHttpBinding, depth: int)
    ensures Heading(depth, ToUpper(b.verb) + " `" + b.path + "`") + b.description + "\n\n" + ParamTableHeader
            <= BindingMarkdown(b, depth)
    ensures |ToUpper(b.verb)| == |b.verb| && forall k | 0 <= k < |b.verb| :: !IsLower(ToUpper(b.verb)[k])
    ensures forall i | 0 <= i < |b.params| :: Occurs(ParamRow(b.params[i]), BindingMarkdown(b, depth))
  {
    var pre := Heading(depth, ToUpper(b.verb) + " `" + b.path + "`") + b.description + "\n\n" + ParamTableHeader;
    var rows := Join(b.params, ParamRowEntry());
    assert BindingMarkdown(b, depth) == pre + rows + "\n";
    forall i | 0 <= i < |b.params|
      ensures Occurs(ParamRow(b.params[i]), BindingMarkdown(b, depth))
    {
      JoinHoldsEntry(b.params, i, ParamRowEntry());
      OccursWithin(ParamRow(b.params[i]), pre, rows, "\n");
    }
  }

  /** Where the generic rule drops a one-character description, a binding still prints it. */
  lemma BindingShortDescriptionExample(b: MethodHttpBinding, depth: int)
    requires b.description == "x"
    ensures Paragraph(b.description) == ""
    ensures Occurs("x\n\n", BindingMarkdown(b, depth))
  {
    ParagraphRule(b.description);
    var h := Heading(depth, ToUpper(b.verb) + " `" + b.path + "`");
    var rest := ParamTableHeader + Join(b.params, ParamRowEntry()) + "\n";
    assert BindingMarkdown(b, depth) == h + "x\n\n" + rest;
    OccursSelf("x\n\n");
    OccursWithin("x\n\n", h, "x\n\n", rest);
  }

  lemma BindingHeadingExample()
    ensures Heading(5, ToUpper("get") + " `" + "/locate" + "`") == "##### GET `/locate`\n\n"
  {
    UpperGet();
    FiveHashes();
    BindingHeadingGlue();
  }

  lemma UpperGet()
    ensures ToUpper("get") == "GET"
  {
  }

  lemma FiveHashes()
    ensures Repeat("#", 5) == "#####"
  {
  }

  lemma BindingHeadingGlue()
    ensures "#####" + " " + ("GET" + " `" + "/locate" + "`") + "\n\n" == "##### GET `/locate`\n\n"
  {
  }

  /** A file's section is present exactly when its collection is non-empty, and then starts with its heading. */
  lemma FileSectionsIff(f: ProtoFile, depth: int)
    ensures MessagesSection(f, depth) == "" <==> |f.messages| == 0
    ensures EnumsSection(f, depth) == "" <==> |f.enums| == 0
    ensures ServicesSection(f, depth) == "" <==> |f.services| == 0
    ensures |f.messages| > 0 ==> Occurs(Heading(depth + 1, "Messages"), FileMarkdown(f, depth))
    ensures |f.enums| > 0 ==> Occurs(Heading(depth + 1, "Enums"), FileMarkdown(f, depth))
    ensures |f.services| > 0 ==> Occurs(Heading(depth + 1, "Services"), FileMarkdown(f, depth))
  {
    var g := GenericMarkdown(f.name, f.description, depth);
    var ms := MessagesSection(f, depth);
    var es := EnumsSection(f, depth);
    var ss := ServicesSection(f, depth);
    if |f.messages| > 0 {
      var h := Heading(depth + 1, "Messages");
      PrefixOfLonger(h, h, Join(f.messages, MessageMdEntry(depth + 2)));
      PrefixOccurs(h, ms);
      OccursRight(h, g, ms);
      OccursLeft(h, g + ms, es);
      OccursLeft(h, g + ms + es, ss);
    }
    if |f.enums| > 0 {
      var h := Heading(depth + 1, "Enums");
      PrefixOfLonger(h, h, Join(f.enums, EnumMdEntry(depth + 2)));
      PrefixOccurs(h, es);
      OccursRight(h, g + ms, es);
      OccursLeft(h, g + ms + es, ss);
    }
    if |f.services| > 0 {
      var h := Heading(depth + 1, "Services");
      PrefixOfLonger(h, h, Join(f.services, ServiceMdEntry(depth + 2)));
      PrefixOccurs(h, ss);
      OccursRight(h, g + ms + es, ss);
    }
  }

  /** Each message renders at depth + 2, right after the messages declared before it. */
  lemma MessageInFileMarkdown(f: ProtoFile, i: int, depth: int)
    requires 0 <= i < |f.messages|
    ensures Occurs(Join(f.messages[..i], MessageMdEntry(depth + 2)) + MessageMarkdown(f.messages[i], depth + 2),
                   FileMarkdown(f, depth))
    ensures Occurs(MessageMarkdown(f.messages[i], depth + 2), FileMarkdown(f, depth))
  {
    var t := MessageMarkdown(f.messages[i], depth + 2);
    var p := Join(f.messages[..i], MessageMdEntry(depth + 2)) + t;
    var g := GenericMarkdown(f.name, f.description, depth);
    var ms := MessagesSection(f, depth);
    JoinOrder(f.messages, i, MessageMdEntry(depth + 2));
    PrefixOccurs(p, Join(f.messages, MessageMdEntry(depth + 2)));
    OccursRight(p, Heading(depth + 1, "Messages"), Join(f.messages, MessageMdEntry(depth + 2)));
    OccursRight(p, g, ms);
    OccursLeft(p, g + ms, EnumsSection(f, depth));
    OccursLeft(p, g + ms + EnumsSection(f, depth), ServicesSection(f, depth));
    OccursSelf(t);
    OccursRight(t, Join(f.messages[..i], MessageMdEntry(depth + 2)), t);
    OccursTransitive(t, p, FileMarkdown(f, depth));
  }

  /** Each enum renders at depth + 2, right after the enums declared before it. */
  lemma EnumInFileMarkdown(f: ProtoFile, i: int, depth: int)
    requires 0 <= i < |f.enums|
    ensures Occurs(Join(f.enums[..i], EnumMdEntry(depth + 2)) + EnumMarkdown(f.enums[i], depth + 2),
                   FileMarkdown(f, depth))
    ensures Occurs(EnumMarkdown(f.enums[i], depth + 2), FileMarkdown(f, depth))
  {
    var t := EnumMarkdown(f.enums[i], depth + 2);
    var p := Join(f.enums[..i], EnumMdEntry(depth + 2)) + t;
    var g := GenericMarkdown(f.name, f.description, depth) + MessagesSection(f, depth);
    var es := EnumsSection(f, depth);
    JoinOrder(f.enums, i, EnumMdEntry(depth + 2));
    PrefixOccurs(p, Join(f.enums, EnumMdEntry(depth + 2)));
    OccursRight(p, Heading(depth + 1, "Enums"), Join(f.enums, EnumMdEntry(depth + 2)));
    OccursRight(p, g, es);
    OccursLeft(p, g + es, ServicesSection(f, depth));
    OccursSelf(t);
    OccursRight(t, Join(f.enums[..i], EnumMdEntry(depth + 2)), t);
    OccursTransitive(t, p, FileMarkdown(f, depth));
  }

  /** Each service renders at depth + 2, right after the services declared before it. */
  lemma ServiceInFileMarkdown(f: ProtoFile, i: int, depth: int)
    requires 0 <= i < |f.services|
    ensures Occurs(Join(f.services[..i], ServiceMdEntry(depth + 2)) + ServiceMarkdown(f.services[i], depth + 2),
                   FileMarkdown(f, depth))
    ensures Occurs(ServiceMarkdown(f.services[i], depth + 2), FileMarkdown(f, depth))
  {
    var t := ServiceMarkdown(f.services[i], depth + 2);
    var p := Join(f.services[..i], ServiceMdEntry(depth + 2)) + t;
    var g := GenericMarkdown(f.name, f.description, depth) + MessagesSection(f, depth) + EnumsSection(f, depth);
    JoinOrder(f.services, i, ServiceMdEntry(depth + 2));
    PrefixOccurs(p, Join(f.services, ServiceMdEntry(depth + 2)));
    OccursRight(p, Heading(depth + 1, "Services"), Join(f.services, ServiceMdEntry(depth + 2)));
    OccursRight(p, g, ServicesSection(f, depth));
    OccursSelf(t);
    OccursRight(t, Join(f.services[..i], ServiceMdEntry(depth + 2)), t);
    OccursTransitive(t, p, FileMarkdown(f, depth));
  }

  /** The document opens with the style sheet and the root's heading; every file follows one level deeper. */
  lemma FileInRootMarkdown(r: MicroserviceDefinition, i: int, depth: int, css: string)
    requires 0 <= i < |r.files|
    ensures css + Heading(depth, r.name) <= RootMarkdown(r, depth, css)
    ensures Occurs(FileMarkdown(r.files[i], depth + 1), RootMarkdown(r, depth, css))
  {
    var pre := css + GenericMarkdown(r.name, r.description, depth);
    var j := Join(r.files, FileMdEntry(depth + 1));
    assert RootMarkdown(r, depth, css) == pre + j + "";
    JoinHoldsEntry(r.files, i, FileMdEntry(depth + 1));
    OccursWithin(FileMarkdown(r.files[i], depth + 1), pre, j, "");
  }

  lemma MessageInDocument(r: MicroserviceDefinition, i: int, j: int, css: string)
    requires 0 <= i < |r.files| && 0 <= j < |r.files[i].messages|
    ensures Occurs(MessageMarkdown(r.files[i].messages[j], 4), RootMarkdown(r, 1, css))
  {
    MessageInFileMarkdown(r.files[i], j, 2);
    FileInRootMarkdown(r, i, 1, css);
    OccursTransitive(MessageMarkdown(r.files[i].messages[j], 4), FileMarkdown(r.files[i], 2), RootMarkdown(r, 1, css));
  }

  /**
   * In the whole document (root at depth 1, files at 2, sections at 3) a
   * message is announced by its anchor followed by a level-4 heading and its
   * paragraph.
   */
  lemma MessageHeadingInDocument(r: MicroserviceDefinition, i: int, j: int, css: string)
    requires 0 <= i < |r.files| && 0 <= j < |r.files[i].messages|
    ensures var m := r.files[i].messages[j];
            Occurs(Anchor(m.name) + GenericMarkdown(m.name, m.description, 4), RootMarkdown(r, 1, css))
  {
    var m := r.files[i].messages[j];
    var t := Anchor(m.name) + GenericMarkdown(m.name, m.description, 4);
    MessageStartsWithAnchor(m, 4);
    PrefixOccurs(t, MessageMarkdown(m, 4));
    MessageInDocument(r, i, j, css);
    OccursTransitive(t, MessageMarkdown(m, 4), RootMarkdown(r, 1, css));
  }

  /** A binding opens with its heading. */
  lemma BindingStartsWithHeading(b: MethodHttpBinding, depth: int)
    ensures Heading(depth, ToUpper(b.verb) + " `" + b.path + "`") <= BindingMarkdown(b, depth)
  {
    var t := Heading(depth, ToUpper(b.verb) + " `" + b.path + "`");
    var s1 := t + b.description;
    var s2 := s1 + "\n\n";
    var s3 := s2 + ParamTableHeader;
    var s4 := s3 + Join(b.params, ParamRowEntry());
    PrefixOfLonger(t, t, b.description);
    PrefixOfLonger(t, s1, "\n\n");
    PrefixOfLonger(t, s2, ParamTableHeader);
    PrefixOfLonger(t, s3, Join(b.params, ParamRowEntry()));
    PrefixOfLonger(t, s4, "\n");
  }

  lemma BindingInDocument(r: MicroserviceDefinition, i: int, j: int, k: int, l: int, css: string)
    requires 0 <= i < |r.files| && 0 <= j < |r.files[i].services|
    requires 0 <= k < |r.files[i].services[j].methods| && 0 <= l < |r.files[i].services[j].methods[k].httpBindings|
    ensures Occurs(BindingMarkdown(r.files[i].services[j].methods[k].httpBindings[l], 5), RootMarkdown(r, 1, css))
  {
    var f := r.files[i];
    var s := f.services[j];
    var m := s.methods[k];
    var b := m.httpBindings[l];
    BindingInMethodMarkdown(m, l, 5);
    MethodInServiceMarkdown(s, k, 4);
    ServiceInFileMarkdown(f, j, 2);
    FileInRootMarkdown(r, i, 1, css);
    OccursTransitive(BindingMarkdown(b, 5), MethodMarkdown(m, 5), ServiceMarkdown(s, 4));
    OccursTransitive(BindingMarkdown(b, 5), ServiceMarkdown(s, 4), FileMarkdown(f, 2));
    OccursTransitive(BindingMarkdown(b, 5), FileMarkdown(f, 2), RootMarkdown(r, 1, css));
  }

  /** A service's bindings render at depth 5 in the whole document: services at 4, their methods at 5. */
  lemma BindingHeadingInDocument(r: MicroserviceDefinition, i: int, j: int, k: int, l: int, css: string)
    requires 0 <= i < |r.files| && 0 <= j < |r.files[i].services|
    requires 0 <= k < |r.files[i].services[j].methods| && 0 <= l < |r.files[i].services[j].methods[k].httpBindings|
    ensures var b := r.files[i].services[j].methods[k].httpBindings[l];
            Occurs(Heading(5, ToUpper(b.verb) + " `" + b.path + "`"), RootMarkdown(r, 1, css))
  {
    var b := r.files[i].services[j].methods[k].httpBindings[l];
    var t := Heading(5, ToUpper(b.verb) + " `" + b.path + "`");
    BindingStartsWithHeading(b, 5);
    PrefixOccurs(t, BindingMarkdown(b, 5));
    BindingInDocument(r, i, j, k, l, css);
    OccursTransitive(t, BindingMarkdown(b, 5), RootMarkdown(r, 1, css));
  }

  /** A type named with its package links to the anchor its message carries. */
  lemma QualifiedTypeLinksToAnchor(pkg: string, m: ProtoMessage, depth: int)
    requires '.' !in m.name
    ensures NameLink(pkg + "." + m.name) == "[" + m.name + "](#" + m.name + ")"
    ensures "<a name=\"" + m.name + "\"></a>" <= MessageMarkdown(m, depth)
  {
    NameLinkQualified(pkg, m.name);
  }

  /** Fields, field types, binding fields and parameters use the generic rendering. */
  lemma NodeMarkdownLeaves(n: Node, depth: int, css: string)
    ensures n.FieldNode? || n.FieldTypeNode? || n.BindingFieldNode? || n.ParameterNode? ==>
      NodeMarkdown(n, depth, css) == Some(GenericMarkdown(n.Name(), n.Description(), depth))
  {
  }
}
