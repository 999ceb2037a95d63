/**
 * The nodes of the documentation tree (gendoc/doctree/docs.go) as values,
 * the `Node` sum over the twelve kinds (the `Describable` interface), the
 * selectors that name one owned part of a node, and `GetByName`, the
 * single-level, first-match child lookup.
 */
module DocNodes {
  import opened Wrappers

  // ---------------------------------------------------------------------
  // The twelve node kinds
  // ---------------------------------------------------------------------

  /** The root: a whole microservice definition, made of proto files. */
  datatype MicroserviceDefinition = MicroserviceDefinition(name: string, description: string, files: seq<ProtoFile>)

  datatype ProtoFile = ProtoFile(
    name: string, description: string,
    messages: seq<ProtoMessage>, enums: seq<ProtoEnum>, services: seq<ProtoService>)

  datatype ProtoMessage = ProtoMessage(name: string, description: string, fields: seq<MessageField>)

  /** `fieldLabel` is one of "LABEL_OPTIONAL", "LABEL_REPEATED" or "LABEL_REQUIRED". */
  datatype MessageField = MessageField(
    name: string, description: string, fieldType: FieldType, number: int, fieldLabel: string)

  /** `enumDef` is the enum the type names, when it names one. */
  datatype FieldType = FieldType(name: string, description: string, enumDef: Option<ProtoEnum>)

  datatype ProtoEnum = ProtoEnum(name: string, description: string, values: seq<EnumValue>)

  datatype EnumValue = EnumValue(name: string, description: string, number: int)

  datatype ProtoService = ProtoService(
    name: string, description: string, methods: seq<ServiceMethod>, fullyQualifiedName: string)

  /** The request and response messages are held by value: a copy of the message they name. */
  datatype ServiceMethod = ServiceMethod(
    name: string, description: string,
    requestType: ProtoMessage, responseType: ProtoMessage,
    httpBindings: seq<MethodHttpBinding>)

  datatype MethodHttpBinding = MethodHttpBinding(
    name: string, description: string, verb: string, path: string,
    fields: seq<BindingField>, params: seq<HttpParameter>)

  /** One `kind: value` pair of an HTTP option annotation, such as `get: "/path"`. */
  datatype BindingField = BindingField(name: string, description: string, kind: string, value: string)

  /** One path, query or body parameter of an HTTP binding. */
  datatype HttpParameter = HttpParameter(name: string, description: string, location: string, paramType: string)

  // ---------------------------------------------------------------------
  // Any node (a Describable)
  // ---------------------------------------------------------------------

  datatype Node =
    | RootNode(root: MicroserviceDefinition)
    | FileNode(file: ProtoFile)
    | MessageNode(message: ProtoMessage)
    | FieldNode(field: MessageField)
    | FieldTypeNode(fieldType: FieldType)
    | EnumNode(enumDef: ProtoEnum)
    | EnumValueNode(enumValue: EnumValue)
    | ServiceNode(service: ProtoService)
    | MethodNode(serviceMethod: ServiceMethod)
    | BindingNode(binding: MethodHttpBinding)
    | BindingFieldNode(bindingField: BindingField)
    | ParameterNode(parameter: HttpParameter)
  {
    /** GetName */
    function Name(): string
    {
      match this
      case RootNode(r) => r.name
      case FileNode(f) => f.name
      case MessageNode(m) => m.name
      case FieldNode(f) => f.name
      case FieldTypeNode(t) => t.name
      case EnumNode(e) => e.name
      case EnumValueNode(v) => v.name
      case ServiceNode(s) => s.name
      case MethodNode(m) => m.name
      case BindingNode(b) => b.name
      case BindingFieldNode(b) => b.name
      case ParameterNode(p) => p.name
    }

    /** GetDescription */
    function Description(): string
    {
      match this
      case RootNode(r) => r.description
      case FileNode(f) => f.description
      case MessageNode(m) => m.description
      case FieldNode(f) => f.description
      case FieldTypeNode(t) => t.description
      case EnumNode(e) => e.description
      case EnumValueNode(v) => v.description
      case ServiceNode(s) => s.description
      case MethodNode(m) => m.description
      case BindingNode(b) => b.description
      case BindingFieldNode(b) => b.description
      case ParameterNode(p) => p.description
    }

    /** SetDescription: the same node with description `d` (already scrubbed). */
    function SetDescription(d: string): (r: Node)
      ensures r.Description() == d
      ensures r.Name() == Name() && SameKind(r, this)
    {
      match this
      case RootNode(r) => RootNode(r.(description := d))
      case FileNode(f) => FileNode(f.(description := d))
      case MessageNode(m) => MessageNode(m.(description := d))
      case FieldNode(f) => FieldNode(f.(description := d))
      case FieldTypeNode(t) => FieldTypeNode(t.(description := d))
      case EnumNode(e) => EnumNode(e.(description := d))
      case EnumValueNode(v) => EnumValueNode(v.(description := d))
      case ServiceNode(s) => ServiceNode(s.(description := d))
      case MethodNode(m) => MethodNode(m.(description := d))
      case BindingNode(b) => BindingNode(b.(description := d))
      case BindingFieldNode(b) => BindingFieldNode(b.(description := d))
      case ParameterNode(p) => ParameterNode(p.(description := d))
    }

    /** SetName: the same node named `s`. */
    function SetName(s: string): (r: Node)
      ensures r.Name() == s
      ensures r.Description() == Description() && SameKind(r, this)
    {
      match this
      case RootNode(r) => RootNode(r.(name := s))
      case FileNode(f) => FileNode(f.(name := s))
      case MessageNode(m) => MessageNode(m.(name := s))
      case FieldNode(f) => FieldNode(f.(name := s))
      case FieldTypeNode(t) => FieldTypeNode(t.(name := s))
      case EnumNode(e) => EnumNode(e.(name := s))
      case EnumValueNode(v) => EnumValueNode(v.(name := s))
      case ServiceNode(sv) => ServiceNode(sv.(name := s))
      case MethodNode(m) => MethodNode(m.(name := s))
      case BindingNode(b) => BindingNode(b.(name := s))
      case BindingFieldNode(b) => BindingFieldNode(b.(name := s))
      case ParameterNode(p) => ParameterNode(p.(name := s))
    }
  }

  /** The two nodes are of the same kind. */
  predicate SameKind(a: Node, b: Node)
  {
    || (a.RootNode? && b.RootNode?)
    || (a.FileNode? && b.FileNode?)
    || (a.MessageNode? && b.MessageNode?)
    || (a.FieldNode? && b.FieldNode?)
    || (a.FieldTypeNode? && b.FieldTypeNode?)
    || (a.EnumNode? && b.EnumNode?)
    || (a.EnumValueNode? && b.EnumValueNode?)
    || (a.ServiceNode? && b.ServiceNode?)
    || (a.MethodNode? && b.MethodNode?)
    || (a.BindingNode? && b.BindingNode?)
    || (a.BindingFieldNode? && b.BindingFieldNode?)
    || (a.ParameterNode? && b.ParameterNode?)
  }

  // ---------------------------------------------------------------------
  // Selectors: one owned (or referenced) part of a node
  // ---------------------------------------------------------------------

  datatype Sel =
    | FileAt(i: nat)
    | MessageAt(i: nat) | EnumAt(i: nat) | ServiceAt(i: nat)
    | FieldAt(i: nat) | TypeOf | TypeEnum
    | ValueAt(i: nat)
    | MethodAt(i: nat) | Request | Response | BindingAt(i: nat)
    | BindingFieldAt(i: nat) | ParamAt(i: nat)

  /** The part of `n` that `s` selects, when `n` has it. */
  function Child(n: Node, s: Sel): Option<Node>
  {
    match s
    case FileAt(i) =>
      if n.RootNode? && i < |n.root.files| then Some(FileNode(n.root.files[i])) else None
    case MessageAt(i) =>
      if n.FileNode? && i < |n.file.messages| then Some(MessageNode(n.file.messages[i])) else None
    case EnumAt(i) =>
      if n.FileNode? && i < |n.file.enums| then Some(EnumNode(n.file.enums[i])) else None
    case ServiceAt(i) =>
      if n.FileNode? && i < |n.file.services| then Some(ServiceNode(n.file.services[i])) else None
    case FieldAt(i) =>
      if n.MessageNode? && i < |n.message.fields| then Some(FieldNode(n.message.fields[i])) else None
    case TypeOf =>
      if n.FieldNode? then Some(FieldTypeNode(n.field.fieldType)) else None
    case TypeEnum =>
      if n.FieldTypeNode? && n.fieldType.enumDef.Some? then Some(EnumNode(n.fieldType.enumDef.value)) else None
    case ValueAt(i) =>
      if n.EnumNode? && i < |n.enumDef.values| then Some(EnumValueNode(n.enumDef.values[i])) else None
    case MethodAt(i) =>
      if n.ServiceNode? && i < |n.service.methods| then Some(MethodNode(n.service.methods[i])) else None
    case Request =>
      if n.MethodNode? then Some(MessageNode(n.serviceMethod.requestType)) else None
    case Response =>
      if n.MethodNode? then Some(MessageNode(n.serviceMethod.responseType)) else None
    case BindingAt(i) =>
      if n.MethodNode? && i < |n.serviceMethod.httpBindings| then Some(BindingNode(n.serviceMethod.httpBindings[i])) else None
    case BindingFieldAt(i) =>
      if n.BindingNode? && i < |n.binding.fields| then Some(BindingFieldNode(n.binding.fields[i])) else None
    case ParamAt(i) =>
      if n.BindingNode? && i < |n.binding.params| then Some(ParameterNode(n.binding.params[i])) else None
  }

  /** `n` with the part that `s` selects replaced by `c`; `n` itself when that does not fit. */
  function WithChild(n: Node, s: Sel, c: Node): (r: Node)
    ensures SameKind(r, n) && r.Name() == n.Name() && r.Description() == n.Description()
  {
    match s
    case FileAt(i) =>
      if n.RootNode? && i < |n.root.files| && c.FileNode?
      then RootNode(n.root.(files := n.root.files[i := c.file])) else n
    case MessageAt(i) =>
      if n.FileNode? && i < |n.file.messages| && c.MessageNode?
      then FileNode(n.file.(messages := n.file.messages[i := c.message])) else n
    case EnumAt(i) =>
      if n.FileNode? && i < |n.file.enums| && c.EnumNode?
      then FileNode(n.file.(enums := n.file.enums[i := c.enumDef])) else n
    case ServiceAt(i) =>
      if n.FileNode? && i < |n.file.services| && c.ServiceNode?
      then FileNode(n.file.(services := n.file.services[i := c.service])) else n
    case FieldAt(i) =>
      if n.MessageNode? && i < |n.message.fields| && c.FieldNode?
      then MessageNode(n.message.(fields := n.message.fields[i := c.field])) else n
    case TypeOf =>
      if n.FieldNode? && c.FieldTypeNode?
      then FieldNode(n.field.(fieldType := c.fieldType)) else n
    case TypeEnum =>
      if n.FieldTypeNode? && n.fieldType.enumDef.Some? && c.EnumNode?
      then FieldTypeNode(n.fieldType.(enumDef := Some(c.enumDef))) else n
    case ValueAt(i) =>
      if n.EnumNode? && i < |n.enumDef.values| && c.EnumValueNode?
      then EnumNode(n.enumDef.(values := n.enumDef.values[i := c.enumValue])) else n
    case MethodAt(i) =>
      if n.ServiceNode? && i < |n.service.methods| && c.MethodNode?
      then ServiceNode(n.service.(methods := n.service.methods[i := c.serviceMethod])) else n
    case Request =>
      if n.MethodNode? && c.MessageNode?
      then MethodNode(n.serviceMethod.(requestType := c.message)) else n
    case Response =>
      if n.MethodNode? && c.MessageNode?
      then MethodNode(n.serviceMethod.(responseType := c.message)) else n
    case BindingAt(i) =>
      if n.MethodNode? && i < |n.serviceMethod.httpBindings| && c.BindingNode?
      then MethodNode(n.serviceMethod.(httpBindings := n.serviceMethod.httpBindings[i := c.binding])) else n
    case BindingFieldAt(i) =>
      if n.BindingNode? && i < |n.binding.fields| && c.BindingFieldNode?
      then BindingNode(n.binding.(fields := n.binding.fields[i := c.bindingField])) else n
    case ParamAt(i) =>
      if n.BindingNode? && i < |n.binding.params| && c.ParameterNode?
      then BindingNode(n.binding.(params := n.binding.params[i := c.parameter])) else n
  }

  // ---------------------------------------------------------------------
  // Single-level, first-match lookup
  // ---------------------------------------------------------------------

  /** The selectors GetByName can return: the collections it scans and a method's two messages. */
  predicate Searchable(s: Sel)
  {
    s.FileAt? || s.MessageAt? || s.EnumAt? || s.ServiceAt? || s.FieldAt? || s.MethodAt? || s.Request? || s.Response?
  }

  /** Which collection GetByName scans first (0), second (1) or third (2). */
  function ScanGroup(s: Sel): nat
  {
    match s
    case EnumAt(_) => 1
    case ServiceAt(_) => 2
    case Response => 1
    case _ => 0
  }

  function ScanIndex(s: Sel): nat
  {
    match s
    case FileAt(i) => i
    case MessageAt(i) => i
    case EnumAt(i) => i
    case ServiceAt(i) => i
    case FieldAt(i) => i
    case MethodAt(i) => i
    case _ => 0
  }

  /** `a` is reached no later than `b` by GetByName's scan. */
  predicate ScanBefore(a: Sel, b: Sel)
  {
    ScanGroup(a) < ScanGroup(b) || (ScanGroup(a) == ScanGroup(b) && ScanIndex(a) <= ScanIndex(b))
  }

  /** The position of the first element of `xs` whose name is `name`. */
  function IndexOfName<T>(xs: seq<T>, nameOf: T -> string, name: string): (r: Option<nat>)
    ensures r.Some? ==> r.value < |xs| && nameOf(xs[r.value]) == name
    ensures r.Some? ==> forall j | 0 <= j < r.value :: nameOf(xs[j]) != name
    ensures r.None? ==> forall j | 0 <= j < |xs| :: nameOf(xs[j]) != name
  {
    if xs == [] then None
    else if nameOf(xs[0]) == name then Some(0)
    else match IndexOfName(xs[1..], nameOf, name)
      case None => None
      case Some(j) => Some(j + 1)
  }

  function FileName(f: ProtoFile): string { f.name }
  function MessageName(m: ProtoMessage): string { m.name }
  function EnumName(e: ProtoEnum): string { e.name }
  function ServiceName(s: ProtoService): string { s.name }
  function FieldName(f: MessageField): string { f.name }
  function MethodName(m: ServiceMethod): string { m.name }

  /** MicroserviceDefinition.GetByName: the first file named `name`. */
  function RootLookup(r: MicroserviceDefinition, name: string): (i: Option<nat>)
    ensures i.Some? ==> i.value < |r.files| && r.files[i.value].name == name
    ensures i.Some? ==> forall j | 0 <= j < i.value :: r.files[j].name != name
    ensures i.None? ==> forall j | 0 <= j < |r.files| :: r.files[j].name != name
  {
    IndexOfName(r.files, FileName, name)
  }

  /** ProtoFile.GetByName: messages first, then enums, then services. */
  function FileLookup(f: ProtoFile, name: string): (r: Option<Sel>)
    ensures r.Some? ==> r.value.MessageAt? || r.value.EnumAt? || r.value.ServiceAt?
    ensures r.Some? && r.value.MessageAt? ==>
      r.value.i < |f.messages| && f.messages[r.value.i].name == name
      && forall j | 0 <= j < r.value.i :: f.messages[j].name != name
    ensures r.Some? && r.value.EnumAt? ==>
      (forall j | 0 <= j < |f.messages| :: f.messages[j].name != name)
      && r.value.i < |f.enums| && f.enums[r.value.i].name == name
      && forall j | 0 <= j < r.value.i :: f.enums[j].name != name
    ensures r.Some? && r.value.ServiceAt? ==>
      (forall j | 0 <= j < |f.messages| :: f.messages[j].name != name)
      && (forall j | 0 <= j < |f.enums| :: f.enums[j].name != name)
      && r.value.i < |f.services| && f.services[r.value.i].name == name
      && forall j | 0 <= j < r.value.i :: f.services[j].name != name
    ensures r.None? ==>
      (forall j | 0 <= j < |f.messages| :: f.messages[j].name != name)
      && (forall j | 0 <= j < |f.enums| :: f.enums[j].name != name)
      && (forall j | 0 <= j < |f.services| :: f.services[j].name != name)
  {
    match IndexOfName(f.messages, MessageName, name)
    case Some(i) => Some(MessageAt(i))
    case None =>
      match IndexOfName(f.enums, EnumName, name)
      case Some(i) => Some(EnumAt(i))
      case None =>
        match IndexOfName(f.services, ServiceName, name)
        case Some(i) => Some(ServiceAt(i))
        case None => None
  }

  /** ProtoMessage.GetByName: the first field named `name`. */
  function MessageLookup(m: ProtoMessage, name: string): (i: Option<nat>)
    ensures i.Some? ==> i.value < |m.fields| && m.fields[i.value].name == name
    ensures i.Some? ==> forall j | 0 <= j < i.value :: m.fields[j].name != name
    ensures i.None? ==> forall j | 0 <= j < |m.fields| :: m.fields[j].name != name
  {
    IndexOfName(m.fields, FieldName, name)
  }

  /** ProtoService.GetByName: the first method named `name`. */
  function ServiceLookup(s: ProtoService, name: string): (i: Option<nat>)
    ensures i.Some? ==> i.value < |s.methods| && s.methods[i.value].name == name
    ensures i.Some? ==> forall j | 0 <= j < i.value :: s.methods[j].name != name
    ensures i.None? ==> forall j | 0 <= j < |s.methods| :: s.methods[j].name != name
  {
    IndexOfName(s.methods, MethodName, name)
  }

  /** ServiceMethod.GetByName: the request message, then the response message; never a binding. */
  function MethodLookup(m: ServiceMethod, name: string): (r: Option<Sel>)
    ensures r == Some(Request) <==> name == m.requestType.name
    ensures r == Some(Response) <==> name != m.requestType.name && name == m.responseType.name
    ensures r.None? <==> name != m.requestType.name && name != m.responseType.name
  {
    if name == m.requestType.name then Some(Request)
    else if name == m.responseType.name then Some(Response)
    else None
  }

  /**
   * What GetByName gives: the selector of the child found, or nil (Absent).
   * ProtoEnum and EnumValue declare no GetByName of their own, so the call
   * reaches their embedded, unset Describable and panics (NoLookup).
   */
  datatype Lookup = Found(sel: Sel) | Absent | NoLookup

  /**
   * GetByName on any node: a one-level scan. What it finds is a child named
   * `name` (and, by GetByNameFirstMatch, the first one in scan order).
   */
  function GetByName(n: Node, name: string): (r: Lookup)
    ensures r.Found? ==> Searchable(r.sel) && Child(n, r.sel).Some? && Child(n, r.sel).value.Name() == name
    ensures r.NoLookup? <==> n.EnumNode? || n.EnumValueNode?
  {
    match n
    case RootNode(rt) =>
      (match RootLookup(rt, name) case Some(i) => Found(FileAt(i)) case None => Absent)
    case FileNode(f) =>
      (match FileLookup(f, name) case Some(s) => Found(s) case None => Absent)
    case MessageNode(m) =>
      (match MessageLookup(m, name) case Some(i) => Found(FieldAt(i)) case None => Absent)
    case ServiceNode(sv) =>
      (match ServiceLookup(sv, name) case Some(i) => Found(MethodAt(i)) case None => Absent)
    case MethodNode(m) =>
      (match MethodLookup(m, name) case Some(s) => Found(s) case None => Absent)
    case EnumNode(_) => NoLookup
    case EnumValueNode(_) => NoLookup
    case FieldNode(_) => Absent
    case FieldTypeNode(_) => Absent
    case BindingNode(_) => Absent
    case BindingFieldNode(_) => Absent
    case ParameterNode(_) => Absent
  }

  /**
   * Every searchable child named `name` is found, or one before it in scan
   * order is: GetByName returns nil only when no child has the name, and on
   * duplicates the first wins.
   */
  lemma GetByNameFirstMatch(n: Node, name: string, s: Sel)
    requires !n.EnumNode? && !n.EnumValueNode?
    requires Searchable(s) && Child(n, s).Some? && Child(n, s).value.Name() == name
    ensures GetByName(n, name).Found?
    ensures ScanBefore(GetByName(n, name).sel, s)
  {
    match n
    case RootNode(rt) =>
      assert rt.files[s.i].name == name;
    case FileNode(f) =>
      match s {
        case MessageAt(i) => assert f.messages[i].name == name;
        case EnumAt(i) => assert f.enums[i].name == name;
        case ServiceAt(i) => assert f.services[i].name == name;
      }
    case MessageNode(m) =>
      assert m.fields[s.i].name == name;
    case ServiceNode(sv) =>
      assert sv.methods[s.i].name == name;
    case MethodNode(m) =>
    case FieldNode(_) =>
    case FieldTypeNode(_) =>
    case BindingNode(_) =>
    case BindingFieldNode(_) =>
    case ParameterNode(_) =>
  }
}
