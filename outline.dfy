/**
 * The structured text view of a documentation tree (Describe / String): each
 * node prints its name and description, then labelled sub-nodes at one more
 * level of four-space indentation.
 */
module Outline {
  import opened Wrappers
  import opened Text
  import opened DocNodes
  import opened Annotation

  // ---------------------------------------------------------------------
  // What each node's Describe(depth) produces
  // ---------------------------------------------------------------------

  /** genericDescribe: the indented "Name:" and "Desc:" lines. */
  function GenericDescribe(name: string, desc: string, depth: int): string
  {
    Indented(depth, "Name: " + name + "\n") + Indented(depth, "Desc: " + desc + "\n")
  }

  /** The indented "<kind> <idx>:" line printed before the idx'th sub-node. */
  function Label(depth: int, kind: string, idx: int): string
  {
    Indented(depth, kind + " " + IntToString(idx) + ":" + "\n")
  }

  function FieldTypeOutline(t: FieldType, depth: int): string
  {
    GenericDescribe(t.name, t.description, depth)
  }

  function FieldOutline(f: MessageField, depth: int): string
  {
    GenericDescribe(f.name, f.description, depth)
    + Indented(depth, "Number: " + IntToString(f.number) + "\n")
    + Indented(depth, "Type:" + "\n")
    + FieldTypeOutline(f.fieldType, depth + 1)
  }

  function FieldEntry(depth: int): (int, MessageField) -> string
  {
    (i, f) => Label(depth, "Field", i) + FieldOutline(f, depth + 1)
  }

  function MessageOutline(m: ProtoMessage, depth: int): string
  {
    GenericDescribe(m.name, m.description, depth) + Join(m.fields, FieldEntry(depth))
  }

  function EnumValueOutline(v: EnumValue, depth: int): string
  {
    GenericDescribe(v.name, v.description, depth) + Indented(depth, "Number: " + IntToString(v.number) + "\n")
  }

  function ValueEntry(depth: int): (int, EnumValue) -> string
  {
    (i, v) => Label(depth, "Value", i) + EnumValueOutline(v, depth + 1)
  }

  function EnumOutline(e: ProtoEnum, depth: int): string
  {
    GenericDescribe(e.name, e.description, depth) + Join(e.values, ValueEntry(depth))
  }

  function BindingFieldOutline(b: BindingField, depth: int): string
  {
    GenericDescribe(b.name, b.description, depth)
    + Indented(depth, "Kind: " + b.kind + "\n")
    + Indented(depth, "Value: " + b.value + "\n")
  }

  /** The outline of an HTTP parameter; no other outline includes it. */
  function ParamOutline(p: HttpParameter, depth: int): string
  {
    GenericDescribe(p.name, p.description, depth)
    + Indented(depth, "Location: " + p.location + "\n")
    + Indented(depth, "Type: " + p.paramType + "\n")
  }

  /** A binding's fields follow it one level deeper, without a label line. */
  function BindingFieldEntry(depth: int): (int, BindingField) -> string
  {
    (i, b) => BindingFieldOutline(b, depth + 1)
  }

  function BindingOutline(b: MethodHttpBinding, depth: int): string
  {
    GenericDescribe(b.name, b.description, depth) + Join(b.fields, BindingFieldEntry(depth))
  }

  function BindingEntry(depth: int): (int, MethodHttpBinding) -> string
  {
    (i, b) => BindingOutline(b, depth + 1)
  }

  function MethodOutline(m: ServiceMethod, depth: int): string
  {
    GenericDescribe(m.name, m.description, depth)
    + Indented(depth, "RequestType: " + m.requestType.name + "\n")
    + Indented(depth, "ResponseType: " + m.responseType.name + "\n")
    + Indented(depth, "MethodHttpBinding:" + "\n")
    + Join(m.httpBindings, BindingEntry(depth))
  }

  function MethodEntry(depth: int): (int, ServiceMethod) -> string
  {
    (i, m) => Label(depth, "Method", i) + MethodOutline(m, depth + 1)
  }

  function ServiceOutline(s: ProtoService, depth: int): string
  {
    GenericDescribe(s.name, s.description, depth) + Join(s.methods, MethodEntry(depth))
  }

  function ServiceEntry(depth: int): (int, ProtoService) -> string
  {
    (i, s) => Label(depth, "Service", i) + ServiceOutline(s, depth + 1)
  }

  function MessageEntry(depth: int): (int, ProtoMessage) -> string
  {
    (i, m) => Label(depth, "Message", i) + MessageOutline(m, depth + 1)
  }

  function EnumEntry(depth: int): (int, ProtoEnum) -> string
  {
    (i, e) => Label(depth, "Enum", i) + EnumOutline(e, depth + 1)
  }

  /** A file lists its services, then its messages, then its enums. */
  function FileOutline(f: ProtoFile, depth: int): string
  {
    GenericDescribe(f.name, f.description, depth)
    + Join(f.services, ServiceEntry(depth))
    + Join(f.messages, MessageEntry(depth))
    + Join(f.enums, EnumEntry(depth))
  }

  function FileEntry(depth: int): (int, ProtoFile) -> string
  {
    (i, f) => Label(depth, "File", i) + FileOutline(f, depth + 1)
  }

  function RootOutline(r: MicroserviceDefinition, depth: int): string
  {
    GenericDescribe(r.name, r.description, depth) + Join(r.files, FileEntry(depth))
  }

  /** Describe(depth) on any node. */
  function NodeOutline(n: Node, depth: int): string
  {
    match n
    case RootNode(r) => RootOutline(r, depth)
    case FileNode(f) => FileOutline(f, depth)
    case MessageNode(m) => MessageOutline(m, depth)
    case FieldNode(f) => FieldOutline(f, depth)
    case FieldTypeNode(t) => FieldTypeOutline(t, depth)
    case EnumNode(e) => EnumOutline(e, depth)
    case EnumValueNode(v) => EnumValueOutline(v, depth)
    case ServiceNode(s) => ServiceOutline(s, depth)
    case MethodNode(m) => MethodOutline(m, depth)
    case BindingNode(b) => BindingOutline(b, depth)
    case BindingFieldNode(b) => BindingFieldOutline(b, depth)
    case ParameterNode(p) => ParamOutline(p, depth)
  }

  // ---------------------------------------------------------------------
  // The Describe methods, with the loops of the source
  // ---------------------------------------------------------------------

  method DescribeGeneric(name: string, desc: string, depth: int) returns (rv: string)
    ensures rv == GenericDescribe(name, desc, depth)
  {
    rv := Prindent(depth, "Name: " + name + "\n");
    var d := Prindent(depth, "Desc: " + desc + "\n");
    rv := rv + d;
  }

  method DescribeLabel(depth: int, kind: string, idx: int) returns (rv: string)
    ensures rv == Label(depth, kind, idx)
  {
    rv := Prindent(depth, kind + " " + IntToString(idx) + ":" + "\n");
  }

  method DescribeMessage(m: ProtoMessage, depth: int) returns (rv: string)
    ensures rv == MessageOutline(m, depth)
  {
    rv := DescribeGeneric(m.name, m.description, depth);
    ghost var head := rv;
    var i := 0;
    while i < |m.fields|
      invariant 0 <= i <= |m.fields|
      invariant rv == head + Join(m.fields[..i], FieldEntry(depth))
    {
      var lbl := DescribeLabel(depth, "Field", i);
      var x := lbl + FieldOutline(m.fields[i], depth + 1);
      JoinStep(m.fields, i, FieldEntry(depth), head, rv, x);
      rv := rv + x;
      i := i + 1;
    }
    TakeAll(m.fields);
  }

  method DescribeEnum(e: ProtoEnum, depth: int) returns (rv: string)
    ensures rv == EnumOutline(e, depth)
  {
    rv := DescribeGeneric(e.name, e.description, depth);
    ghost var head := rv;
    var i := 0;
    while i < |e.values|
      invariant 0 <= i <= |e.values|
      invariant rv == head + Join(e.values[..i], ValueEntry(depth))
    {
      var lbl := DescribeLabel(depth, "Value", i);
      var x := lbl + EnumValueOutline(e.values[i], depth + 1);
      JoinStep(e.values, i, ValueEntry(depth), head, rv, x);
      rv := rv + x;
      i := i + 1;
    }
    TakeAll(e.values);
  }

  method DescribeBinding(b: MethodHttpBinding, depth: int) returns (rv: string)
    ensures rv == BindingOutline(b, depth)
  {
    rv := DescribeGeneric(b.name, b.description, depth);
    ghost var head := rv;
    var i := 0;
    while i < |b.fields|
      invariant 0 <= i <= |b.fields|
      invariant rv == head + Join(b.fields[..i], BindingFieldEntry(depth))
    {
      var x := BindingFieldOutline(b.fields[i], depth + 1);
      JoinStep(b.fields, i, BindingFieldEntry(depth), head, rv, x);
      rv := rv + x;
      i := i + 1;
    }
    TakeAll(b.fields);
  }

  method DescribeMethod(m: ServiceMethod, depth: int) returns (rv: string)
    ensures rv == MethodOutline(m, depth)
  {
    rv := DescribeGeneric(m.name, m.description, depth);
    var req := Prindent(depth, "RequestType: " + m.requestType.name + "\n");
    var resp := Prindent(depth, "ResponseType: " + m.responseType.name + "\n");
    var bind := Prindent(depth, "MethodHttpBinding:" + "\n");
    rv := rv + req + resp + bind;
    ghost var head := rv;
    var i := 0;
    while i < |m.httpBindings|
      invariant 0 <= i <= |m.httpBindings|
      invariant rv == head + Join(m.httpBindings[..i], BindingEntry(depth))
    {
      var sub := DescribeBinding(m.httpBindings[i], depth + 1);
      JoinStep(m.httpBindings, i, BindingEntry(depth), head, rv, sub);
      rv := rv + sub;
      i := i + 1;
    }
    assert m.httpBindings[..i] == m.httpBindings;
  }

  method DescribeService(s: ProtoService, depth: int) returns (rv: string)
    ensures rv == ServiceOutline(s, depth)
  {
    rv := DescribeGeneric(s.name, s.description, depth);
    ghost var head := rv;
    var i := 0;
    while i < |s.methods|
      invariant 0 <= i <= |s.methods|
      invariant rv == head + Join(s.methods[..i], MethodEntry(depth))
    {
      var lbl := DescribeLabel(depth, "Method", i);
      var sub := DescribeMethod(s.methods[i], depth + 1);
      JoinStep(s.methods, i, MethodEntry(depth), head, rv, lbl + sub);
      rv := rv + (lbl + sub);
      i := i + 1;
    }
    TakeAll(s.methods);
  }

  method DescribeFile(f: ProtoFile, depth: int) returns (rv: string)
    ensures rv == FileOutline(f, depth)
  {
    rv := DescribeGeneric(f.name, f.description, depth);
    ghost var head := rv;
    var i := 0;
    while i < |f.services|
      invariant 0 <= i <= |f.services|
      invariant rv == head + Join(f.services[..i], ServiceEntry(depth))
    {
      var lbl := DescribeLabel(depth, "Service", i);
      var sub := DescribeService(f.services[i], depth + 1);
      JoinStep(f.services, i, ServiceEntry(depth), head, rv, lbl + sub);
      rv := rv + (lbl + sub);
      i := i + 1;
    }
    TakeAll(f.services);
    head := rv;
    i := 0;
    while i < |f.messages|
      invariant 0 <= i <= |f.messages|
      invariant rv == head + Join(f.messages[..i], MessageEntry(depth))
    {
      var lbl := DescribeLabel(depth, "Message", i);
      var sub := DescribeMessage(f.messages[i], depth + 1);
      JoinStep(f.messages, i, MessageEntry(depth), head, rv, lbl + sub);
      rv := rv + (lbl + sub);
      i := i + 1;
    }
    TakeAll(f.messages);
    head := rv;
    i := 0;
    while i < |f.enums|
      invariant 0 <= i <= |f.enums|
      invariant rv == head + Join(f.enums[..i], EnumEntry(depth))
    {
      var lbl := DescribeLabel(depth, "Enum", i);
      var sub := DescribeEnum(f.enums[i], depth + 1);
      JoinStep(f.enums, i, EnumEntry(depth), head, rv, lbl + sub);
      rv := rv + (lbl + sub);
      i := i + 1;
    }
    TakeAll(f.enums);
  }

  method DescribeRoot(r: MicroserviceDefinition, depth: int) returns (rv: string)
    ensures rv == RootOutline(r, depth)
  {
    rv := DescribeGeneric(r.name, r.description, depth);
    ghost var head := rv;
    var i := 0;
    while i < |r.files|
      invariant 0 <= i <= |r.files|
      invariant rv == head + Join(r.files[..i], FileEntry(depth))
    {
      var lbl := DescribeLabel(depth, "File", i);
      var sub := DescribeFile(r.files[i], depth + 1);
      JoinStep(r.files, i, FileEntry(depth), head, rv, lbl + sub);
      rv := rv + (lbl + sub);
      i := i + 1;
    }
    TakeAll(r.files);
  }

  // ---------------------------------------------------------------------
  // What the outline promises
  // ---------------------------------------------------------------------

  /** Every outline opens with the node's own name and description lines. */
  lemma OutlineStartsWithNode(n: Node, depth: int)
    ensures GenericDescribe(n.Name(), n.Description(), depth) <= NodeOutline(n, depth)
  {
  }

  /** The sub-nodes Describe descends into: not a field type's enum, a method's messages or a binding's parameters. */
  predicate Outlined(s: Sel)
  {
    !(s.TypeEnum? || s.Request? || s.Response? || s.ParamAt?)
  }

  /** What an entry ends with occurs in any text built around the whole concatenation. */
  lemma EntryOccurs<T>(xs: seq<T>, i: nat, entry: (int, T) -> string, pre: string, sub: string,
                       before: string, after: string, whole: string)
    requires i < |xs| && entry(i, xs[i]) == pre + sub
    requires whole == before + Join(xs, entry) + after
    ensures Occurs(pre + sub, whole)
    ensures Occurs(sub, whole)
  {
    OccursSelf(sub);
    OccursWithin(sub, pre, sub, "");
    assert pre + sub + "" == pre + sub;
    JoinHoldsEntry(xs, i, entry);
    OccursTransitive(sub, entry(i, xs[i]), Join(xs, entry));
    OccursWithin(sub, before, Join(xs, entry), after);
    OccursWithin(pre + sub, before, Join(xs, entry), after);
  }

  lemma FileInRoot(r: MicroserviceDefinition, i: nat, depth: int)
    requires i < |r.files|
    ensures Occurs(FileOutline(r.files[i], depth + 1), RootOutline(r, depth))
    ensures Occurs(Label(depth, "File", i) + FileOutline(r.files[i], depth + 1), RootOutline(r, depth))
  {
    EntryOccurs(r.files, i, FileEntry(depth), Label(depth, "File", i), FileOutline(r.files[i], depth + 1),
                GenericDescribe(r.name, r.description, depth), "", RootOutline(r, depth));
  }

  lemma ServiceInFile(f: ProtoFile, i: nat, depth: int)
    requires i < |f.services|
    ensures Occurs(ServiceOutline(f.services[i], depth + 1), FileOutline(f, depth))
    ensures Occurs(Label(depth, "Service", i) + ServiceOutline(f.services[i], depth + 1), FileOutline(f, depth))
  {
    var g, js, jm, je := GenericDescribe(f.name, f.description, depth), Join(f.services, ServiceEntry(depth)),
                          Join(f.messages, MessageEntry(depth)), Join(f.enums, EnumEntry(depth));
    assert FileOutline(f, depth) == g + js + (jm + je);
    EntryOccurs(f.services, i, ServiceEntry(depth), Label(depth, "Service", i), ServiceOutline(f.services[i], depth + 1),
                GenericDescribe(f.name, f.description, depth),
                Join(f.messages, MessageEntry(depth)) + Join(f.enums, EnumEntry(depth)), FileOutline(f, depth));
  }

  lemma MessageInFile(f: ProtoFile, i: nat, depth: int)
    requires i < |f.messages|
    ensures Occurs(MessageOutline(f.messages[i], depth + 1), FileOutline(f, depth))
    ensures Occurs(Label(depth, "Message", i) + MessageOutline(f.messages[i], depth + 1), FileOutline(f, depth))
  {
    EntryOccurs(f.messages, i, MessageEntry(depth), Label(depth, "Message", i), MessageOutline(f.messages[i], depth + 1),
                GenericDescribe(f.name, f.description, depth) + Join(f.services, ServiceEntry(depth)),
                Join(f.enums, EnumEntry(depth)), FileOutline(f, depth));
  }

  lemma EnumInFile(f: ProtoFile, i: nat, depth: int)
    requires i < |f.enums|
    ensures Occurs(EnumOutline(f.enums[i], depth + 1), FileOutline(f, depth))
    ensures Occurs(Label(depth, "Enum", i) + EnumOutline(f.enums[i], depth + 1), FileOutline(f, depth))
  {
    EntryOccurs(f.enums, i, EnumEntry(depth), Label(depth, "Enum", i), EnumOutline(f.enums[i], depth + 1),
                GenericDescribe(f.name, f.description, depth) + Join(f.services, ServiceEntry(depth))
                + Join(f.messages, MessageEntry(depth)), "", FileOutline(f, depth));
  }

  lemma FieldInMessage(m: ProtoMessage, i: nat, depth: int)
    requires i < |m.fields|
    ensures Occurs(FieldOutline(m.fields[i], depth + 1), MessageOutline(m, depth))
    ensures Occurs(Label(depth, "Field", i) + FieldOutline(m.fields[i], depth + 1), MessageOutline(m, depth))
  {
    EntryOccurs(m.fields, i, FieldEntry(depth), Label(depth, "Field", i), FieldOutline(m.fields[i], depth + 1),
                GenericDescribe(m.name, m.description, depth), "", MessageOutline(m, depth));
  }

  lemma TypeInField(f: MessageField, depth: int)
    ensures Occurs(FieldTypeOutline(f.fieldType, depth + 1), FieldOutline(f, depth))
  {
    var co := FieldTypeOutline(f.fieldType, depth + 1);
    var x := GenericDescribe(f.name, f.description, depth)
             + Indented(depth, "Number: " + IntToString(f.number) + "\n")
             + Indented(depth, "Type:" + "\n");
    OccursSelf(co);
    OccursWithin(co, x, co, "");
    assert FieldOutline(f, depth) == x + co;
    assert x + co + "" == x + co;
  }

  lemma ValueInEnum(e: ProtoEnum, i: nat, depth: int)
    requires i < |e.values|
    ensures Occurs(EnumValueOutline(e.values[i], depth + 1), EnumOutline(e, depth))
    ensures Occurs(Label(depth, "Value", i) + EnumValueOutline(e.values[i], depth + 1), EnumOutline(e, depth))
  {
    EntryOccurs(e.values, i, ValueEntry(depth), Label(depth, "Value", i), EnumValueOutline(e.values[i], depth + 1),
                GenericDescribe(e.name, e.description, depth), "", EnumOutline(e, depth));
  }

  lemma MethodInService(v: ProtoService, i: nat, depth: int)
    requires i < |v.methods|
    ensures Occurs(MethodOutline(v.methods[i], depth + 1), ServiceOutline(v, depth))
    ensures Occurs(Label(depth, "Method", i) + MethodOutline(v.methods[i], depth + 1), ServiceOutline(v, depth))
  {
    EntryOccurs(v.methods, i, MethodEntry(depth), Label(depth, "Method", i), MethodOutline(v.methods[i], depth + 1),
                GenericDescribe(v.name, v.description, depth), "", ServiceOutline(v, depth));
  }

  lemma BindingInMethod(m: ServiceMethod, i: nat, depth: int)
    requires i < |m.httpBindings|
    ensures Occurs(BindingOutline(m.httpBindings[i], depth + 1), MethodOutline(m, depth))
  {
    EntryOccurs(m.httpBindings, i, BindingEntry(depth), "", BindingOutline(m.httpBindings[i], depth + 1),
                GenericDescribe(m.name, m.description, depth)
                + Indented(depth, "RequestType: " + m.requestType.name + "\n")
                + Indented(depth, "ResponseType: " + m.responseType.name + "\n")
                + Indented(depth, "MethodHttpBinding:" + "\n"), "", MethodOutline(m, depth));
  }

  lemma FieldInBinding(b: MethodHttpBinding, i: nat, depth: int)
    requires i < |b.fields|
    ensures Occurs(BindingFieldOutline(b.fields[i], depth + 1), BindingOutline(b, depth))
  {
    EntryOccurs(b.fields, i, BindingFieldEntry(depth), "", BindingFieldOutline(b.fields[i], depth + 1),
                GenericDescribe(b.name, b.description, depth), "", BindingOutline(b, depth));
  }

  // NodeOutline of one kind of node, one lemma per kind.

  lemma RootNodeOutline(n: Node, depth: int)
    requires n.RootNode?
    ensures NodeOutline(n, depth) == RootOutline(n.root, depth)
  {
  }

  lemma FileNodeOutline(n: Node, depth: int)
    requires n.FileNode?
    ensures NodeOutline(n, depth) == FileOutline(n.file, depth)
  {
  }

  lemma MessageNodeOutline(n: Node, depth: int)
    requires n.MessageNode?
    ensures NodeOutline(n, depth) == MessageOutline(n.message, depth)
  {
  }

  lemma FieldNodeOutline(n: Node, depth: int)
    requires n.FieldNode?
    ensures NodeOutline(n, depth) == FieldOutline(n.field, depth)
  {
  }

  lemma FieldTypeNodeOutline(n: Node, depth: int)
    requires n.FieldTypeNode?
    ensures NodeOutline(n, depth) == FieldTypeOutline(n.fieldType, depth)
  {
  }

  lemma EnumNodeOutline(n: Node, depth: int)
    requires n.EnumNode?
    ensures NodeOutline(n, depth) == EnumOutline(n.enumDef, depth)
  {
  }

  lemma EnumValueNodeOutline(n: Node, depth: int)
    requires n.EnumValueNode?
    ensures NodeOutline(n, depth) == EnumValueOutline(n.enumValue, depth)
  {
  }

  lemma ServiceNodeOutline(n: Node, depth: int)
    requires n.ServiceNode?
    ensures NodeOutline(n, depth) == ServiceOutline(n.service, depth)
  {
  }

  lemma MethodNodeOutline(n: Node, depth: int)
    requires n.MethodNode?
    ensures NodeOutline(n, depth) == MethodOutline(n.serviceMethod, depth)
  {
  }

  lemma BindingNodeOutline(n: Node, depth: int)
    requires n.BindingNode?
    ensures NodeOutline(n, depth) == BindingOutline(n.binding, depth)
  {
  }

  lemma BindingFieldNodeOutline(n: Node, depth: int)
    requires n.BindingFieldNode?
    ensures NodeOutline(n, depth) == BindingFieldOutline(n.bindingField, depth)
  {
  }

  // The cases of ChildOutlineOccurs, one per kind of parent and sub-node.

  lemma RootChildOccurs(n: Node, i: nat, depth: int)
    requires n.RootNode? && i < |n.root.files|
    ensures Occurs(NodeOutline(FileNode(n.root.files[i]), depth + 1), NodeOutline(n, depth))
  {
    FileInRoot(n.root, i, depth);
    FileNodeOutline(FileNode(n.root.files[i]), depth + 1);
    RootNodeOutline(n, depth);
  }

  lemma FileServiceOccurs(n: Node, i: nat, depth: int)
    requires n.FileNode? && i < |n.file.services|
    ensures Occurs(NodeOutline(ServiceNode(n.file.services[i]), depth + 1), NodeOutline(n, depth))
  {
    ServiceInFile(n.file, i, depth);
    ServiceNodeOutline(ServiceNode(n.file.services[i]), depth + 1);
    FileNodeOutline(n, depth);
  }

  lemma FileMessageOccurs(n: Node, i: nat, depth: int)
    requires n.FileNode? && i < |n.file.messages|
    ensures Occurs(NodeOutline(MessageNode(n.file.messages[i]), depth + 1), NodeOutline(n, depth))
  {
    MessageInFile(n.file, i, depth);
    MessageNodeOutline(MessageNode(n.file.messages[i]), depth + 1);
    FileNodeOutline(n, depth);
  }

  lemma FileEnumOccurs(n: Node, i: nat, depth: int)
    requires n.FileNode? && i < |n.file.enums|
    ensures Occurs(NodeOutline(EnumNode(n.file.enums[i]), depth + 1), NodeOutline(n, depth))
  {
    EnumInFile(n.file, i, depth);
    EnumNodeOutline(EnumNode(n.file.enums[i]), depth + 1);
    FileNodeOutline(n, depth);
  }

  lemma MessageFieldOccurs(n: Node, i: nat, depth: int)
    requires n.MessageNode? && i < |n.message.fields|
    ensures Occurs(NodeOutline(FieldNode(n.message.fields[i]), depth + 1), NodeOutline(n, depth))
  {
    FieldInMessage(n.message, i, depth);
    FieldNodeOutline(FieldNode(n.message.fields[i]), depth + 1);
    MessageNodeOutline(n, depth);
  }

  lemma EnumValueOccurs(n: Node, i: nat, depth: int)
    requires n.EnumNode? && i < |n.enumDef.values|
    ensures Occurs(NodeOutline(EnumValueNode(n.enumDef.values[i]), depth + 1), NodeOutline(n, depth))
  {
    ValueInEnum(n.enumDef, i, depth);
    EnumValueNodeOutline(EnumValueNode(n.enumDef.values[i]), depth + 1);
    EnumNodeOutline(n, depth);
  }

  lemma ServiceMethodOccurs(n: Node, i: nat, depth: int)
    requires n.ServiceNode? && i < |n.service.methods|
    ensures Occurs(NodeOutline(MethodNode(n.service.methods[i]), depth + 1), NodeOutline(n, depth))
  {
    MethodInService(n.service, i, depth);
    MethodNodeOutline(MethodNode(n.service.methods[i]), depth + 1);
    ServiceNodeOutline(n, depth);
  }

  lemma MethodBindingOccurs(n: Node, i: nat, depth: int)
    requires n.MethodNode? && i < |n.serviceMethod.httpBindings|
    ensures Occurs(NodeOutline(BindingNode(n.serviceMethod.httpBindings[i]), depth + 1), NodeOutline(n, depth))
  {
    BindingInMethod(n.serviceMethod, i, depth);
    BindingNodeOutline(BindingNode(n.serviceMethod.httpBindings[i]), depth + 1);
    MethodNodeOutline(n, depth);
  }

  lemma BindingFieldOccurs(n: Node, i: nat, depth: int)
    requires n.BindingNode? && i < |n.binding.fields|
    ensures Occurs(NodeOutline(BindingFieldNode(n.binding.fields[i]), depth + 1), NodeOutline(n, depth))
  {
    FieldInBinding(n.binding, i, depth);
    BindingFieldNodeOutline(BindingFieldNode(n.binding.fields[i]), depth + 1);
    BindingNodeOutline(n, depth);
  }

  lemma FieldTypeOccurs(n: Node, depth: int)
    requires n.FieldNode?
    ensures Occurs(NodeOutline(FieldTypeNode(n.field.fieldType), depth + 1), NodeOutline(n, depth))
  {
    TypeInField(n.field, depth);
    FieldTypeNodeOutline(FieldTypeNode(n.field.fieldType), depth + 1);
    FieldNodeOutline(n, depth);
  }

  /** A sub-node's own outline, one level deeper, appears in full inside its parent's. */
  lemma ChildOutlineOccurs(n: Node, s: Sel, depth: int)
    requires Child(n, s).Some? && Outlined(s)
    ensures Occurs(NodeOutline(Child(n, s).value, depth + 1), NodeOutline(n, depth))
  {
    if s.FileAt? {
      RootChildOccurs(n, s.i, depth);
    } else if s.ServiceAt? {
      FileServiceOccurs(n, s.i, depth);
    } else if s.MessageAt? {
      FileMessageOccurs(n, s.i, depth);
    } else if s.EnumAt? {
      FileEnumOccurs(n, s.i, depth);
    } else if s.FieldAt? {
      MessageFieldOccurs(n, s.i, depth);
    } else if s.TypeOf? {
      FieldTypeOccurs(n, depth);
    } else if s.ValueAt? {
      EnumValueOccurs(n, s.i, depth);
    } else if s.MethodAt? {
      ServiceMethodOccurs(n, s.i, depth);
    } else if s.BindingAt? {
      MethodBindingOccurs(n, s.i, depth);
    } else if s.BindingFieldAt? {
      BindingFieldOccurs(n, s.i, depth);
    }
  }

  /**
   * For any rendering `f` in which each described sub-node's text, one level
   * deeper, occurs in its parent's, the text of every descendant reached by
   * described sub-nodes occurs in its ancestor's.
   */
  lemma {:induction false} DescendantsOccur(f: (Node, int) -> string, n: Node, h: seq<Sel>, t: Node, depth: int)
    requires forall m: Node, s: Sel, d: int | Child(m, s).Some? && Outlined(s) :: Occurs(f(Child(m, s).value, d + 1), f(m, d))
    requires NodeAt(n, h) == Some(t) && forall k | 0 <= k < |h| :: Outlined(h[k])
    ensures Occurs(f(t, depth + |h|), f(n, depth))
    decreases |h|
  {
    if h == [] {
      OccursSelf(f(n, depth));
    } else {
      var c := Child(n, h[0]).value;
      assert forall k | 0 <= k < |h[1..]| :: Outlined(h[1..][k]) by {
        forall k | 0 <= k < |h[1..]| ensures Outlined(h[1..][k]) {
          assert h[1..][k] == h[k + 1];
        }
      }
      DescendantsOccur(f, c, h[1..], t, depth + 1);
      assert Occurs(f(c, depth + 1), f(n, depth));
      OccursTransitive(f(t, depth + |h|), f(c, depth + 1), f(n, depth));
    }
  }

  /**
   * Every node a handle of described sub-nodes reaches is printed in full in
   * the outline of the node it starts from, indented one level per step.
   */
  lemma DescendantOutlineOccurs(n: Node, h: seq<Sel>, t: Node, depth: int)
    requires NodeAt(n, h) == Some(t) && forall k | 0 <= k < |h| :: Outlined(h[k])
    ensures Occurs(NodeOutline(t, depth + |h|), NodeOutline(n, depth))
  {
    forall m: Node, s: Sel, d: int | Child(m, s).Some? && Outlined(s)
      ensures Occurs(NodeOutline(Child(m, s).value, d + 1), NodeOutline(m, d))
    {
      ChildOutlineOccurs(m, s, d);
    }
    DescendantsOccur(NodeOutline, n, h, t, depth);
  }

  /** A binding's HTTP parameters never show in the outline. */
  lemma BindingOutlineIgnoresParams(b: MethodHttpBinding, params: seq<HttpParameter>, depth: int)
    ensures BindingOutline(b.(params := params), depth) == BindingOutline(b, depth)
  {
    assert b.(params := params).fields == b.fields;
  }

  /** Nor do a field's label or the enum its type refers to. */
  lemma FieldOutlineIgnoresLabelAndEnum(f: MessageField, lbl: string, en: Option<ProtoEnum>, depth: int)
    ensures FieldOutline(f.(fieldLabel := lbl, fieldType := f.fieldType.(enumDef := en)), depth) == FieldOutline(f, depth)
  {
  }

  // ---------------------------------------------------------------------
  // Indentation: every line sits at least as deep as the node it belongs to
  // ---------------------------------------------------------------------

  predicate SingleLine(s: string)
  {
    '\n' !in s
  }

  predicate PlainParam(p: HttpParameter)
  {
    SingleLine(p.name) && SingleLine(p.description) && SingleLine(p.location) && SingleLine(p.paramType)
  }

  predicate PlainBindingField(b: BindingField)
  {
    SingleLine(b.name) && SingleLine(b.description) && SingleLine(b.kind) && SingleLine(b.value)
  }

  predicate PlainBinding(b: MethodHttpBinding)
  {
    SingleLine(b.name) && SingleLine(b.description) && forall i | 0 <= i < |b.fields| :: PlainBindingField(b.fields[i])
  }

  predicate PlainMethod(m: ServiceMethod)
  {
    && SingleLine(m.name) && SingleLine(m.description)
    && SingleLine(m.requestType.name) && SingleLine(m.responseType.name)
    && forall i | 0 <= i < |m.httpBindings| :: PlainBinding(m.httpBindings[i])
  }

  predicate PlainService(s: ProtoService)
  {
    SingleLine(s.name) && SingleLine(s.description) && forall i | 0 <= i < |s.methods| :: PlainMethod(s.methods[i])
  }

  predicate PlainEnum(e: ProtoEnum)
  {
    && SingleLine(e.name) && SingleLine(e.description)
    && forall i | 0 <= i < |e.values| :: SingleLine(e.values[i].name) && SingleLine(e.values[i].description)
  }

  predicate PlainField(f: MessageField)
  {
    SingleLine(f.name) && SingleLine(f.description) && SingleLine(f.fieldType.name) && SingleLine(f.fieldType.description)
  }

  predicate PlainMessage(m: ProtoMessage)
  {
    SingleLine(m.name) && SingleLine(m.description) && forall i | 0 <= i < |m.fields| :: PlainField(m.fields[i])
  }

  predicate PlainFile(f: ProtoFile)
  {
    && SingleLine(f.name) && SingleLine(f.description)
    && (forall i | 0 <= i < |f.messages| :: PlainMessage(f.messages[i]))
    && (forall i | 0 <= i < |f.enums| :: PlainEnum(f.enums[i]))
    && (forall i | 0 <= i < |f.services| :: PlainService(f.services[i]))
  }

  /** Every name, description and other text the outline prints is a single line. */
  predicate PlainRoot(r: MicroserviceDefinition)
  {
    SingleLine(r.name) && SingleLine(r.description) && forall i | 0 <= i < |r.files| :: PlainFile(r.files[i])
  }

  lemma GenericIndented(name: string, desc: string, depth: int)
    requires SingleLine(name) && SingleLine(desc)
    ensures IndentedLines(GenericDescribe(name, desc, depth), depth)
  {
    IndentedLine(depth, "Name: " + name);
    IndentedLine(depth, "Desc: " + desc);
    IndentedLinesConcat(Indented(depth, "Name: " + name + "\n"), Indented(depth, "Desc: " + desc + "\n"), depth);
  }

  lemma LabelIndented(depth: int, kind: string, idx: int)
    requires SingleLine(kind)
    ensures IndentedLines(Label(depth, kind, idx), depth)
  {
    IndentedLine(depth, kind + " " + IntToString(idx) + ":");
  }

  /** A labelled sub-node: the label at this depth, the sub-node's lines one deeper. */
  lemma EntryIndented(depth: int, lbl: string, sub: string)
    requires IndentedLines(lbl, depth) && IndentedLines(sub, depth + 1)
    ensures IndentedLines(lbl + sub, depth)
  {
    IndentedLinesDeeper(sub, depth);
    IndentedLinesConcat(lbl, sub, depth);
  }

  lemma FieldIndented(f: MessageField, depth: int)
    requires PlainField(f)
    ensures IndentedLines(FieldOutline(f, depth), depth)
  {
    GenericIndented(f.name, f.description, depth);
    IndentedLine(depth, "Number: " + IntToString(f.number));
    IndentedLine(depth, "Type:");
    GenericIndented(f.fieldType.name, f.fieldType.description, depth + 1);
    IndentedLinesDeeper(FieldTypeOutline(f.fieldType, depth + 1), depth);
    var a := GenericDescribe(f.name, f.description, depth);
    var b := Indented(depth, "Number: " + IntToString(f.number) + "\n");
    var c := Indented(depth, "Type:" + "\n");
    IndentedLinesConcat(a, b, depth);
    IndentedLinesConcat(a + b, c, depth);
    IndentedLinesConcat(a + b + c, FieldTypeOutline(f.fieldType, depth + 1), depth);
  }

  // ---------------------------------------------------------------------
  // The leaf outlines: the lines each one prints
  // ---------------------------------------------------------------------

  lemma GenericLines(name: string, desc: string, depth: int)
    ensures CountOf('\n', GenericDescribe(name, desc, depth)) == 2 + CountOf('\n', name) + CountOf('\n', desc)
  {
    IndentedLineCount(depth, "Name: ", name);
    IndentedLineCount(depth, "Desc: ", desc);
    CountOfConcat('\n', Indented(depth, "Name: " + name + "\n"), Indented(depth, "Desc: " + desc + "\n"));
  }

  /**
   * A field type prints two lines, Name and Desc, plus the newlines its texts
   * hold; with single-line texts both sit at its depth.
   */
  lemma FieldTypeOutlineLines(t: FieldType, depth: int)
    ensures CountOf('\n', FieldTypeOutline(t, depth)) == 2 + CountOf('\n', t.name) + CountOf('\n', t.description)
    ensures SingleLine(t.name) && SingleLine(t.description) ==> IndentedLines(FieldTypeOutline(t, depth), depth)
  {
    GenericLines(t.name, t.description, depth);
    if SingleLine(t.name) && SingleLine(t.description) {
      GenericIndented(t.name, t.description, depth);
    }
  }

  /**
   * A field prints six lines: Name, Desc, Number and Type at its depth, then
   * its type's two lines one level deeper, plus the newlines its texts hold.
   */
  lemma FieldOutlineLines(f: MessageField, depth: int)
    ensures CountOf('\n', FieldOutline(f, depth))
      == 6 + CountOf('\n', f.name) + CountOf('\n', f.description)
         + CountOf('\n', f.fieldType.name) + CountOf('\n', f.fieldType.description)
    ensures PlainField(f) ==> IndentedLines(FieldOutline(f, depth), depth)
  {
    var a := GenericDescribe(f.name, f.description, depth);
    var b := Indented(depth, "Number: " + IntToString(f.number) + "\n");
    var c := Indented(depth, "Type:" + "\n");
    var t := FieldTypeOutline(f.fieldType, depth + 1);
    GenericLines(f.name, f.description, depth);
    IndentedLineCount(depth, "Number: ", IntToString(f.number));
    CountOfAbsent('\n', IntToString(f.number));
    IndentedLineCount(depth, "Type:", "");
    assert "Type:" + "" == "Type:";
    FieldTypeOutlineLines(f.fieldType, depth + 1);
    CountOfConcat('\n', a, b);
    CountOfConcat('\n', a + b, c);
    CountOfConcat('\n', a + b + c, t);
    if PlainField(f) {
      FieldIndented(f, depth);
    }
  }

  /** An enum value prints three lines, Name, Desc and Number, plus the newlines its texts hold. */
  lemma EnumValueOutlineLines(v: EnumValue, depth: int)
    ensures CountOf('\n', EnumValueOutline(v, depth)) == 3 + CountOf('\n', v.name) + CountOf('\n', v.description)
    ensures SingleLine(v.name) && SingleLine(v.description) ==> IndentedLines(EnumValueOutline(v, depth), depth)
  {
    var a := GenericDescribe(v.name, v.description, depth);
    var b := Indented(depth, "Number: " + IntToString(v.number) + "\n");
    GenericLines(v.name, v.description, depth);
    IndentedLineCount(depth, "Number: ", IntToString(v.number));
    CountOfAbsent('\n', IntToString(v.number));
    CountOfConcat('\n', a, b);
    if SingleLine(v.name) && SingleLine(v.description) {
      GenericIndented(v.name, v.description, depth);
      IndentedLine(depth, "Number: " + IntToString(v.number));
      IndentedLinesConcat(a, b, depth);
    }
  }

  /** A binding field prints four lines, Name, Desc, Kind and Value, plus the newlines its texts hold. */
  lemma BindingFieldOutlineLines(x: BindingField, depth: int)
    ensures CountOf('\n', BindingFieldOutline(x, depth))
      == 4 + CountOf('\n', x.name) + CountOf('\n', x.description) + CountOf('\n', x.kind) + CountOf('\n', x.value)
    ensures PlainBindingField(x) ==> IndentedLines(BindingFieldOutline(x, depth), depth)
  {
    var a := GenericDescribe(x.name, x.description, depth);
    var b := Indented(depth, "Kind: " + x.kind + "\n");
    var c := Indented(depth, "Value: " + x.value + "\n");
    GenericLines(x.name, x.description, depth);
    IndentedLineCount(depth, "Kind: ", x.kind);
    IndentedLineCount(depth, "Value: ", x.value);
    CountOfConcat('\n', a, b);
    CountOfConcat('\n', a + b, c);
    if PlainBindingField(x) {
      GenericIndented(x.name, x.description, depth);
      IndentedLine(depth, "Kind: " + x.kind);
      IndentedLine(depth, "Value: " + x.value);
      IndentedLinesConcat(a, b, depth);
      IndentedLinesConcat(a + b, c, depth);
    }
  }

  /** An HTTP parameter prints four lines, Name, Desc, Location and Type, plus the newlines its texts hold. */
  lemma ParamOutlineLines(p: HttpParameter, depth: int)
    ensures CountOf('\n', ParamOutline(p, depth))
      == 4 + CountOf('\n', p.name) + CountOf('\n', p.description) + CountOf('\n', p.location) + CountOf('\n', p.paramType)
    ensures PlainParam(p) ==> IndentedLines(ParamOutline(p, depth), depth)
  {
    var a := GenericDescribe(p.name, p.description, depth);
    var b := Indented(depth, "Location: " + p.location + "\n");
    var c := Indented(depth, "Type: " + p.paramType + "\n");
    GenericLines(p.name, p.description, depth);
    IndentedLineCount(depth, "Location: ", p.location);
    IndentedLineCount(depth, "Type: ", p.paramType);
    CountOfConcat('\n', a, b);
    CountOfConcat('\n', a + b, c);
    if PlainParam(p) {
      GenericIndented(p.name, p.description, depth);
      IndentedLine(depth, "Location: " + p.location);
      IndentedLine(depth, "Type: " + p.paramType);
      IndentedLinesConcat(a, b, depth);
      IndentedLinesConcat(a + b, c, depth);
    }
  }

  lemma MessageIndented(m: ProtoMessage, depth: int)
    requires PlainMessage(m)
    ensures IndentedLines(MessageOutline(m, depth), depth)
  {
    GenericIndented(m.name, m.description, depth);
    forall i | 0 <= i < |m.fields| ensures IndentedLines(FieldEntry(depth)(i, m.fields[i]), depth) {
      LabelIndented(depth, "Field", i);
      FieldIndented(m.fields[i], depth + 1);
      EntryIndented(depth, Label(depth, "Field", i), FieldOutline(m.fields[i], depth + 1));
    }
    JoinIndented(m.fields, FieldEntry(depth), depth);
    IndentedLinesConcat(GenericDescribe(m.name, m.description, depth), Join(m.fields, FieldEntry(depth)), depth);
  }

  lemma EnumIndented(e: ProtoEnum, depth: int)
    requires PlainEnum(e)
    ensures IndentedLines(EnumOutline(e, depth), depth)
  {
    GenericIndented(e.name, e.description, depth);
    forall i | 0 <= i < |e.values| ensures IndentedLines(ValueEntry(depth)(i, e.values[i]), depth) {
      var v := e.values[i];
      LabelIndented(depth, "Value", i);
      GenericIndented(v.name, v.description, depth + 1);
      IndentedLine(depth + 1, "Number: " + IntToString(v.number));
      IndentedLinesConcat(GenericDescribe(v.name, v.description, depth + 1),
                          Indented(depth + 1, "Number: " + IntToString(v.number) + "\n"), depth + 1);
      EntryIndented(depth, Label(depth, "Value", i), EnumValueOutline(v, depth + 1));
    }
    JoinIndented(e.values, ValueEntry(depth), depth);
    IndentedLinesConcat(GenericDescribe(e.name, e.description, depth), Join(e.values, ValueEntry(depth)), depth);
  }

  lemma BindingIndented(b: MethodHttpBinding, depth: int)
    requires PlainBinding(b)
    ensures IndentedLines(BindingOutline(b, depth), depth)
  {
    GenericIndented(b.name, b.description, depth);
    forall i | 0 <= i < |b.fields| ensures IndentedLines(BindingFieldEntry(depth)(i, b.fields[i]), depth) {
      var x := b.fields[i];
      var d := depth + 1;
      GenericIndented(x.name, x.description, d);
      IndentedLine(d, "Kind: " + x.kind);
      IndentedLine(d, "Value: " + x.value);
      IndentedLinesConcat(GenericDescribe(x.name, x.description, d), Indented(d, "Kind: " + x.kind + "\n"), d);
      IndentedLinesConcat(GenericDescribe(x.name, x.description, d) + Indented(d, "Kind: " + x.kind + "\n"),
                          Indented(d, "Value: " + x.value + "\n"), d);
      IndentedLinesDeeper(BindingFieldOutline(x, d), depth);
    }
    JoinIndented(b.fields, BindingFieldEntry(depth), depth);
    IndentedLinesConcat(GenericDescribe(b.name, b.description, depth), Join(b.fields, BindingFieldEntry(depth)), depth);
  }

  lemma MethodIndented(m: ServiceMethod, depth: int)
    requires PlainMethod(m)
    ensures IndentedLines(MethodOutline(m, depth), depth)
  {
    var g := GenericDescribe(m.name, m.description, depth);
    var a := Indented(depth, "RequestType: " + m.requestType.name + "\n");
    var b := Indented(depth, "ResponseType: " + m.responseType.name + "\n");
    var c := Indented(depth, "MethodHttpBinding:" + "\n");
    GenericIndented(m.name, m.description, depth);
    IndentedLine(depth, "RequestType: " + m.requestType.name);
    IndentedLine(depth, "ResponseType: " + m.responseType.name);
    IndentedLine(depth, "MethodHttpBinding:");
    forall i | 0 <= i < |m.httpBindings| ensures IndentedLines(BindingEntry(depth)(i, m.httpBindings[i]), depth) {
      BindingIndented(m.httpBindings[i], depth + 1);
      IndentedLinesDeeper(BindingOutline(m.httpBindings[i], depth + 1), depth);
    }
    JoinIndented(m.httpBindings, BindingEntry(depth), depth);
    IndentedLinesConcat(g, a, depth);
    IndentedLinesConcat(g + a, b, depth);
    IndentedLinesConcat(g + a + b, c, depth);
    IndentedLinesConcat(g + a + b + c, Join(m.httpBindings, BindingEntry(depth)), depth);
  }

  lemma ServiceIndented(s: ProtoService, depth: int)
    requires PlainService(s)
    ensures IndentedLines(ServiceOutline(s, depth), depth)
  {
    GenericIndented(s.name, s.description, depth);
    forall i | 0 <= i < |s.methods| ensures IndentedLines(MethodEntry(depth)(i, s.methods[i]), depth) {
      LabelIndented(depth, "Method", i);
      MethodIndented(s.methods[i], depth + 1);
      EntryIndented(depth, Label(depth, "Method", i), MethodOutline(s.methods[i], depth + 1));
    }
    JoinIndented(s.methods, MethodEntry(depth), depth);
    IndentedLinesConcat(GenericDescribe(s.name, s.description, depth), Join(s.methods, MethodEntry(depth)), depth);
  }

  lemma ServicesIndented(xs: seq<ProtoService>, depth: int)
    requires forall i | 0 <= i < |xs| :: PlainService(xs[i])
    ensures IndentedLines(Join(xs, ServiceEntry(depth)), depth)
  {
    forall i | 0 <= i < |xs| ensures IndentedLines(ServiceEntry(depth)(i, xs[i]), depth) {
      LabelIndented(depth, "Service", i);
      ServiceIndented(xs[i], depth + 1);
      EntryIndented(depth, Label(depth, "Service", i), ServiceOutline(xs[i], depth + 1));
    }
    JoinIndented(xs, ServiceEntry(depth), depth);
  }

  lemma MessagesIndented(xs: seq<ProtoMessage>, depth: int)
    requires forall i | 0 <= i < |xs| :: PlainMessage(xs[i])
    ensures IndentedLines(Join(xs, MessageEntry(depth)), depth)
  {
    forall i | 0 <= i < |xs| ensures IndentedLines(MessageEntry(depth)(i, xs[i]), depth) {
      LabelIndented(depth, "Message", i);
      MessageIndented(xs[i], depth + 1);
      EntryIndented(depth, Label(depth, "Message", i), MessageOutline(xs[i], depth + 1));
    }
    JoinIndented(xs, MessageEntry(depth), depth);
  }

  lemma EnumsIndented(xs: seq<ProtoEnum>, depth: int)
    requires forall i | 0 <= i < |xs| :: PlainEnum(xs[i])
    ensures IndentedLines(Join(xs, EnumEntry(depth)), depth)
  {
    forall i | 0 <= i < |xs| ensures IndentedLines(EnumEntry(depth)(i, xs[i]), depth) {
      LabelIndented(depth, "Enum", i);
      EnumIndented(xs[i], depth + 1);
      EntryIndented(depth, Label(depth, "Enum", i), EnumOutline(xs[i], depth + 1));
    }
    JoinIndented(xs, EnumEntry(depth), depth);
  }

  lemma FileIndented(f: ProtoFile, depth: int)
    requires PlainFile(f)
    ensures IndentedLines(FileOutline(f, depth), depth)
  {
    var g := GenericDescribe(f.name, f.description, depth);
    var js := Join(f.services, ServiceEntry(depth));
    var jm := Join(f.messages, MessageEntry(depth));
    var je := Join(f.enums, EnumEntry(depth));
    GenericIndented(f.name, f.description, depth);
    ServicesIndented(f.services, depth);
    MessagesIndented(f.messages, depth);
    EnumsIndented(f.enums, depth);
    IndentedLinesConcat(g, js, depth);
    IndentedLinesConcat(g + js, jm, depth);
    IndentedLinesConcat(g + js + jm, je, depth);
  }

  /**
   * When the texts it prints are single lines, String()'s view is a tree:
   * every line of a node's outline at depth d starts with at least d
   * four-space steps, so each sub-node's lines sit deeper than their parent.
   */
  lemma RootIndented(r: MicroserviceDefinition, depth: int)
    requires PlainRoot(r)
    ensures IndentedLines(RootOutline(r, depth), depth)
  {
    GenericIndented(r.name, r.description, depth);
    forall i | 0 <= i < |r.files| ensures IndentedLines(FileEntry(depth)(i, r.files[i]), depth) {
      LabelIndented(depth, "File", i);
      FileIndented(r.files[i], depth + 1);
      EntryIndented(depth, Label(depth, "File", i), FileOutline(r.files[i], depth + 1));
    }
    JoinIndented(r.files, FileEntry(depth), depth);
    IndentedLinesConcat(GenericDescribe(r.name, r.description, depth), Join(r.files, FileEntry(depth)), depth);
  }

  /** A description spanning two lines breaks the indentation of the second one. */
  lemma MultiLineDescriptionBreaksIndentation()
    ensures !IndentedLines(GenericDescribe("T", "a\nb", 1), 1)
  {
    var s := GenericDescribe("T", "a\nb", 1);
    assert Repeat("    ", 1) == "    ";
    assert s == "    Name: T\n    Desc: a\nb\n";
    assert LineStart(s, 24) && s[24..] == "b\n";
  }
}
