/**
 * Name-path resolution and comment attachment (SetComment): a path of names
 * is resolved one GetByName step at a time from the root; the node reached
 * gets the scrubbed comment as its description, and nothing else changes.
 */
module Annotation {
  import opened Wrappers
  import opened DocNodes

  // ---------------------------------------------------------------------
  // Handles: a sequence of selectors from a node down to one of its parts
  // ---------------------------------------------------------------------

  /** The node that handle `h` leads to from `n`, if it leads anywhere. */
  function NodeAt(n: Node, h: seq<Sel>): Option<Node>
    decreases |h|
  {
    if h == [] then Some(n)
    else match Child(n, h[0])
      case None => None
      case Some(c) => NodeAt(c, h[1..])
  }

  /** The description at `h`, if `h` leads to a node. */
  function DescriptionAt(n: Node, h: seq<Sel>): Option<string>
  {
    match NodeAt(n, h)
    case None => None
    case Some(c) => Some(c.Description())
  }

  /** Following one more selector from where `h` leads. */
  lemma {:induction false} NodeAtSnoc(n: Node, h: seq<Sel>, s: Sel)
    ensures NodeAt(n, h + [s]) == match NodeAt(n, h) case None => None case Some(c) => Child(c, s)
    decreases |h|
  {
    if h != [] {
      ConcatParts(h, [s]);
      match Child(n, h[0])
      case None =>
      case Some(c) => NodeAtSnoc(c, h[1..], s);
    } else {
      SingletonParts(s);
    }
  }

  // ---------------------------------------------------------------------
  // Resolving a name path (the loop of SetComment)
  // ---------------------------------------------------------------------

  /**
   * The handle that the names in `path` lead to from `n`, each found by
   * GetByName in the node the previous one reached; None as soon as a step
   * finds nothing (the source panics there).
   */
  function Resolve(n: Node, path: seq<string>): (r: Option<seq<Sel>>)
    ensures r.Some? ==> |r.value| == |path| && NodeAt(n, r.value).Some?
    ensures r.Some? ==> forall k | 0 <= k < |r.value| :: Searchable(r.value[k])
    ensures r.Some? && path != [] ==> NodeAt(n, r.value).value.Name() == path[|path| - 1]
    decreases |path|
  {
    if path == [] then Some([])
    else match GetByName(n, path[0])
      case Found(s) =>
        (match Resolve(Child(n, s).value, path[1..])
         case None => None
         case Some(h) => Some([s] + h))
      case Absent => None
      case NoLookup => None
  }

  /** Resolving one more name continues from the node the path so far reached. */
  lemma {:induction false} ResolveSnoc(n: Node, path: seq<string>, name: string, h: seq<Sel>, c: Node)
    requires Resolve(n, path) == Some(h) && NodeAt(n, h) == Some(c)
    ensures Resolve(n, path + [name]) ==
      match GetByName(c, name) case Found(s) => Some(h + [s]) case Absent => None case NoLookup => None
    decreases |path|
  {
    if path == [] {
      SingletonParts(name);
      match GetByName(n, name)
      case Found(t) => SingletonParts(t);
      case Absent =>
      case NoLookup =>
    } else {
      ConcatParts(path, [name]);
      var s := GetByName(n, path[0]).sel;
      var child := Child(n, s).value;
      var h' := Resolve(child, path[1..]).value;
      ConsParts(s, h');
      ResolveSnoc(child, path[1..], name, h', c);
      match GetByName(c, name)
      case Found(t) => ConsThenSnoc(s, h', t);
      case Absent =>
      case NoLookup =>
    }
  }

  /** Once a prefix of the path fails to resolve, the whole path fails. */
  lemma {:induction false} ResolvePrefixFails(n: Node, path: seq<string>, rest: seq<string>)
    requires Resolve(n, path).None?
    ensures Resolve(n, path + rest).None?
    decreases |path|
  {
    if path != [] {
      ConcatParts(path, rest);
      match GetByName(n, path[0])
      case Found(s) => ResolvePrefixFails(Child(n, s).value, path[1..], rest);
      case Absent =>
      case NoLookup =>
    }
  }

  // Facts about sequences, kept apart from the facts about nodes they are used with.

  lemma SingletonParts<T>(x: T)
    ensures [x][0] == x && [x][1..] == [] && [] + [x] == [x] && [x] + [] == [x]
  {
  }

  lemma ConcatParts<T>(xs: seq<T>, ys: seq<T>)
    requires xs != []
    ensures (xs + ys)[0] == xs[0] && (xs + ys)[1..] == xs[1..] + ys
  {
  }

  lemma ConsParts<T>(x: T, xs: seq<T>)
    ensures ([x] + xs)[0] == x && ([x] + xs)[1..] == xs
  {
  }

  lemma ConsThenSnoc<T>(x: T, xs: seq<T>, y: T)
    ensures [x] + (xs + [y]) == [x] + xs + [y]
  {
  }

  lemma ConsSplit<T>(xs: seq<T>)
    requires xs != []
    ensures xs == [xs[0]] + xs[1..]
  {
  }

  lemma PrefixSnoc<T>(xs: seq<T>, i: nat)
    requires i < |xs|
    ensures xs[..i] + [xs[i]] == xs[..i + 1]
  {
  }

  lemma PrefixSplit<T>(xs: seq<T>, k: nat)
    requires k <= |xs|
    ensures xs[..k] + xs[k..] == xs
  {
  }

  /** A step of SetComment's walk that finds the name extends the handle by the lookup's selector. */
  lemma ResolveStepFound(n: Node, path: seq<string>, i: nat, h: seq<Sel>, c: Node, s: Sel)
    requires i < |path| && Resolve(n, path[..i]) == Some(h) && NodeAt(n, h) == Some(c)
    requires GetByName(c, path[i]) == Found(s)
    ensures Resolve(n, path[..i + 1]) == Some(h + [s]) && NodeAt(n, h + [s]) == Child(c, s)
  {
    PrefixSnoc(path, i);
    ResolveSnoc(n, path[..i], path[i], h, c);
    NodeAtSnoc(n, h, s);
  }

  /** A step of SetComment's walk that finds nothing makes the whole path fail. */
  lemma ResolveStepFails(n: Node, path: seq<string>, i: nat, h: seq<Sel>, c: Node)
    requires i < |path| && Resolve(n, path[..i]) == Some(h) && NodeAt(n, h) == Some(c)
    requires !GetByName(c, path[i]).Found?
    ensures Resolve(n, path[..i + 1]).None? && Resolve(n, path).None?
  {
    PrefixSnoc(path, i);
    ResolveSnocFails(n, path[..i], path[i], h, c);
    ResolveFailsBeyond(n, path, i + 1);
  }

  lemma ResolveFailsBeyond(n: Node, path: seq<string>, k: nat)
    requires k <= |path| && Resolve(n, path[..k]).None?
    ensures Resolve(n, path).None?
  {
    PrefixSplit(path, k);
    ResolvePrefixFails(n, path[..k], path[k..]);
  }

  lemma ResolveSnocFails(n: Node, path: seq<string>, name: string, h: seq<Sel>, c: Node)
    requires Resolve(n, path) == Some(h) && NodeAt(n, h) == Some(c)
    requires !GetByName(c, name).Found?
    ensures Resolve(n, path + [name]).None?
  {
    ResolveSnoc(n, path, name, h, c);
  }

  // ---------------------------------------------------------------------
  // Setting the description of the node a handle leads to
  // ---------------------------------------------------------------------

  /** `n` with the description of the node at `h` set to `d`; `n` when `h` leads nowhere. */
  function SetDescriptionAt(n: Node, h: seq<Sel>, d: string): (r: Node)
    ensures SameKind(r, n) && r.Name() == n.Name()
    ensures h != [] ==> r.Description() == n.Description()
    decreases |h|
  {
    if h == [] then n.SetDescription(d)
    else match Child(n, h[0])
      case None => n
      case Some(c) => WithChild(n, h[0], SetDescriptionAt(c, h[1..], d))
  }

  // Facts about replacing one part of a node.

  lemma ChildOfReplaced(n: Node, s: Sel, c: Node, c': Node)
    requires Child(n, s) == Some(c) && SameKind(c, c')
    ensures Child(WithChild(n, s, c'), s) == Some(c')
  {
  }

  lemma ChildOfReplacedElsewhere(n: Node, s: Sel, c': Node, t: Sel)
    requires Child(n, s).Some? && SameKind(Child(n, s).value, c') && t != s
    ensures Child(WithChild(n, s, c'), t) == Child(n, t)
  {
  }

  lemma ReplaceWithSame(n: Node, s: Sel)
    requires Child(n, s).Some?
    ensures WithChild(n, s, Child(n, s).value) == n
  {
  }

  lemma ReplaceTwiceInFile(n: Node, s: Sel, c1: Node, c2: Node)
    requires n.FileNode?
    requires Child(n, s).Some? && SameKind(Child(n, s).value, c1) && SameKind(c1, c2)
    ensures WithChild(WithChild(n, s, c1), s, c2) == WithChild(n, s, c2)
  {
  }

  lemma ReplaceTwice(n: Node, s: Sel, c1: Node, c2: Node)
    requires Child(n, s).Some? && SameKind(Child(n, s).value, c1) && SameKind(c1, c2)
    ensures WithChild(WithChild(n, s, c1), s, c2) == WithChild(n, s, c2)
  {
    if n.FileNode? {
      ReplaceTwiceInFile(n, s, c1, c2);
    }
  }

  lemma ChildOfRedescribed(n: Node, d: string, s: Sel)
    ensures Child(n.SetDescription(d), s) == Child(n, s)
  {
  }

  lemma RedescribeReplacedInFile(n: Node, s: Sel, c: Node, d: string)
    requires n.FileNode?
    requires Child(n, s).Some? && SameKind(Child(n, s).value, c)
    ensures WithChild(n.SetDescription(d), s, c) == WithChild(n, s, c).SetDescription(d)
  {
  }

  lemma RedescribeReplaced(n: Node, s: Sel, c: Node, d: string)
    requires Child(n, s).Some? && SameKind(Child(n, s).value, c)
    ensures WithChild(n.SetDescription(d), s, c) == WithChild(n, s, c).SetDescription(d)
  {
    if n.FileNode? {
      RedescribeReplacedInFile(n, s, c, d);
    }
  }

  lemma UpdatesCommute<T>(xs: seq<T>, i: nat, x: T, j: nat, y: T)
    requires i < |xs| && j < |xs| && i != j
    ensures xs[i := x][j := y] == xs[j := y][i := x]
  {
  }

  // ReplaceCommutes, one lemma per kind of node with more than one part of a kind.

  lemma ReplaceCommutesInRoot(n: Node, s: Sel, c: Node, t: Sel, e: Node)
    requires n.RootNode?
    requires Child(n, s).Some? && SameKind(Child(n, s).value, c)
    requires Child(n, t).Some? && SameKind(Child(n, t).value, e)
    requires s != t
    ensures WithChild(WithChild(n, s, c), t, e) == WithChild(WithChild(n, t, e), s, c)
  {
    if s.FileAt? && t.FileAt? {
      UpdatesCommute(n.root.files, s.i, c.file, t.i, e.file);
    }
  }

  lemma ReplaceCommutesInFileMessage(n: Node, s: Sel, c: Node, t: Sel, e: Node)
    requires n.FileNode? && s.MessageAt?
    requires Child(n, s).Some? && SameKind(Child(n, s).value, c)
    requires Child(n, t).Some? && SameKind(Child(n, t).value, e)
    requires s != t
    ensures WithChild(WithChild(n, s, c), t, e) == WithChild(WithChild(n, t, e), s, c)
  {
    if t.MessageAt? {
      UpdatesCommute(n.file.messages, s.i, c.message, t.i, e.message);
    }
  }

  lemma ReplaceCommutesInFileEnum(n: Node, s: Sel, c: Node, t: Sel, e: Node)
    requires n.FileNode? && s.EnumAt?
    requires Child(n, s).Some? && SameKind(Child(n, s).value, c)
    requires Child(n, t).Some? && SameKind(Child(n, t).value, e)
    requires s != t
    ensures WithChild(WithChild(n, s, c), t, e) == WithChild(WithChild(n, t, e), s, c)
  {
    if t.EnumAt? {
      UpdatesCommute(n.file.enums, s.i, c.enumDef, t.i, e.enumDef);
    }
  }

  lemma ReplaceCommutesInFileService(n: Node, s: Sel, c: Node, t: Sel, e: Node)
    requires n.FileNode? && s.ServiceAt?
    requires Child(n, s).Some? && SameKind(Child(n, s).value, c)
    requires Child(n, t).Some? && SameKind(Child(n, t).value, e)
    requires s != t
    ensures WithChild(WithChild(n, s, c), t, e) == WithChild(WithChild(n, t, e), s, c)
  {
    if t.ServiceAt? {
      UpdatesCommute(n.file.services, s.i, c.service, t.i, e.service);
    }
  }

  lemma ReplaceCommutesInMessage(n: Node, s: Sel, c: Node, t: Sel, e: Node)
    requires n.MessageNode?
    requires Child(n, s).Some? && SameKind(Child(n, s).value, c)
    requires Child(n, t).Some? && SameKind(Child(n, t).value, e)
    requires s != t
    ensures WithChild(WithChild(n, s, c), t, e) == WithChild(WithChild(n, t, e), s, c)
  {
    if s.FieldAt? && t.FieldAt? {
      UpdatesCommute(n.message.fields, s.i, c.field, t.i, e.field);
    }
  }

  lemma ReplaceCommutesInEnum(n: Node, s: Sel, c: Node, t: Sel, e: Node)
    requires n.EnumNode?
    requires Child(n, s).Some? && SameKind(Child(n, s).value, c)
    requires Child(n, t).Some? && SameKind(Child(n, t).value, e)
    requires s != t
    ensures WithChild(WithChild(n, s, c), t, e) == WithChild(WithChild(n, t, e), s, c)
  {
    if s.ValueAt? && t.ValueAt? {
      UpdatesCommute(n.enumDef.values, s.i, c.enumValue, t.i, e.enumValue);
    }
  }

  lemma ReplaceCommutesInService(n: Node, s: Sel, c: Node, t: Sel, e: Node)
    requires n.ServiceNode?
    requires Child(n, s).Some? && SameKind(Child(n, s).value, c)
    requires Child(n, t).Some? && SameKind(Child(n, t).value, e)
    requires s != t
    ensures WithChild(WithChild(n, s, c), t, e) == WithChild(WithChild(n, t, e), s, c)
  {
    if s.MethodAt? && t.MethodAt? {
      UpdatesCommute(n.service.methods, s.i, c.serviceMethod, t.i, e.serviceMethod);
    }
  }

  lemma ReplaceCommutesInMethod(n: Node, s: Sel, c: Node, t: Sel, e: Node)
    requires n.MethodNode?
    requires Child(n, s).Some? && SameKind(Child(n, s).value, c)
    requires Child(n, t).Some? && SameKind(Child(n, t).value, e)
    requires s != t
    ensures WithChild(WithChild(n, s, c), t, e) == WithChild(WithChild(n, t, e), s, c)
  {
    if s.BindingAt? && t.BindingAt? {
      UpdatesCommute(n.serviceMethod.httpBindings, s.i, c.binding, t.i, e.binding);
    }
  }

  lemma ReplaceCommutesInBindingFields(n: Node, s: Sel, c: Node, t: Sel, e: Node)
    requires n.BindingNode? && s.BindingFieldAt?
    requires Child(n, s).Some? && SameKind(Child(n, s).value, c)
    requires Child(n, t).Some? && SameKind(Child(n, t).value, e)
    requires s != t
    ensures WithChild(WithChild(n, s, c), t, e) == WithChild(WithChild(n, t, e), s, c)
  {
    if t.BindingFieldAt? {
      UpdatesCommute(n.binding.fields, s.i, c.bindingField, t.i, e.bindingField);
    }
  }

  lemma ReplaceCommutesInBindingParams(n: Node, s: Sel, c: Node, t: Sel, e: Node)
    requires n.BindingNode? && s.ParamAt?
    requires Child(n, s).Some? && SameKind(Child(n, s).value, c)
    requires Child(n, t).Some? && SameKind(Child(n, t).value, e)
    requires s != t
    ensures WithChild(WithChild(n, s, c), t, e) == WithChild(WithChild(n, t, e), s, c)
  {
    if t.ParamAt? {
      UpdatesCommute(n.binding.params, s.i, c.parameter, t.i, e.parameter);
    }
  }

  /** Replacing two different parts of a node can be done in either order. */
  lemma ReplaceCommutes(n: Node, s: Sel, c: Node, t: Sel, e: Node)
    requires Child(n, s).Some? && SameKind(Child(n, s).value, c)
    requires Child(n, t).Some? && SameKind(Child(n, t).value, e)
    requires s != t
    ensures WithChild(WithChild(n, s, c), t, e) == WithChild(WithChild(n, t, e), s, c)
  {
    if n.RootNode? {
      ReplaceCommutesInRoot(n, s, c, t, e);
    } else if n.FileNode? && s.MessageAt? {
      ReplaceCommutesInFileMessage(n, s, c, t, e);
    } else if n.FileNode? && s.EnumAt? {
      ReplaceCommutesInFileEnum(n, s, c, t, e);
    } else if n.FileNode? && s.ServiceAt? {
      ReplaceCommutesInFileService(n, s, c, t, e);
    } else if n.MessageNode? {
      ReplaceCommutesInMessage(n, s, c, t, e);
    } else if n.EnumNode? {
      ReplaceCommutesInEnum(n, s, c, t, e);
    } else if n.ServiceNode? {
      ReplaceCommutesInService(n, s, c, t, e);
    } else if n.MethodNode? {
      ReplaceCommutesInMethod(n, s, c, t, e);
    } else if n.BindingNode? && s.BindingFieldAt? {
      ReplaceCommutesInBindingFields(n, s, c, t, e);
    } else if n.BindingNode? && s.ParamAt? {
      ReplaceCommutesInBindingParams(n, s, c, t, e);
    }
  }

  lemma RedescribeTwice(n: Node, d1: string, d2: string)
    ensures n.SetDescription(d1).SetDescription(d2) == n.SetDescription(d2)
    ensures n.SetDescription(n.Description()) == n
  {
  }

  /** The same laws for names: the second name wins, and the current name changes nothing. */
  lemma RenameTwice(n: Node, s1: string, s2: string)
    ensures n.SetName(s1).SetName(s2) == n.SetName(s2)
    ensures n.SetName(n.Name()) == n
  {
  }

  /** A node whose description changes still answers every lookup the same way. */
  lemma LookupIgnoresDescription(n: Node, d: string, name: string)
    ensures GetByName(n.SetDescription(d), name) == GetByName(n, name)
  {
    match n
    case RootNode(r) => assert r.(description := d).files == r.files;
    case FileNode(f) =>
    case MessageNode(m) =>
    case ServiceNode(sv) =>
    case MethodNode(m) =>
    case _ =>
  }

  lemma {:induction false} IndexOfNameSameNames<T>(xs: seq<T>, ys: seq<T>, nameOf: T -> string, name: string)
    requires |xs| == |ys| && forall k | 0 <= k < |xs| :: nameOf(xs[k]) == nameOf(ys[k])
    ensures IndexOfName(xs, nameOf, name) == IndexOfName(ys, nameOf, name)
  {
    if xs != [] {
      assert nameOf(xs[0]) == nameOf(ys[0]);
      assert forall k | 0 <= k < |xs[1..]| :: nameOf(xs[1..][k]) == nameOf(ys[1..][k]) by {
        forall k | 0 <= k < |xs[1..]| ensures nameOf(xs[1..][k]) == nameOf(ys[1..][k]) {
          assert xs[1..][k] == xs[k + 1] && ys[1..][k] == ys[k + 1];
        }
      }
      IndexOfNameSameNames(xs[1..], ys[1..], nameOf, name);
    }
  }

  lemma LookupKeepsRoot(r: MicroserviceDefinition, i: nat, f: ProtoFile, name: string)
    requires i < |r.files| && f.name == r.files[i].name
    ensures GetByName(RootNode(r.(files := r.files[i := f])), name) == GetByName(RootNode(r), name)
  {
    IndexOfNameSameNames(r.files, r.files[i := f], FileName, name);
  }

  lemma LookupKeepsFile(f: ProtoFile, f': ProtoFile, name: string)
    requires |f'.messages| == |f.messages| && forall k | 0 <= k < |f.messages| :: f'.messages[k].name == f.messages[k].name
    requires |f'.enums| == |f.enums| && forall k | 0 <= k < |f.enums| :: f'.enums[k].name == f.enums[k].name
    requires |f'.services| == |f.services| && forall k | 0 <= k < |f.services| :: f'.services[k].name == f.services[k].name
    ensures GetByName(FileNode(f'), name) == GetByName(FileNode(f), name)
  {
    IndexOfNameSameNames(f.messages, f'.messages, MessageName, name);
    IndexOfNameSameNames(f.enums, f'.enums, EnumName, name);
    IndexOfNameSameNames(f.services, f'.services, ServiceName, name);
  }

  lemma LookupKeepsMessage(m: ProtoMessage, i: nat, x: MessageField, name: string)
    requires i < |m.fields| && x.name == m.fields[i].name
    ensures GetByName(MessageNode(m.(fields := m.fields[i := x])), name) == GetByName(MessageNode(m), name)
  {
    IndexOfNameSameNames(m.fields, m.fields[i := x], FieldName, name);
  }

  lemma LookupKeepsService(v: ProtoService, i: nat, x: ServiceMethod, name: string)
    requires i < |v.methods| && x.name == v.methods[i].name
    ensures GetByName(ServiceNode(v.(methods := v.methods[i := x])), name) == GetByName(ServiceNode(v), name)
  {
    IndexOfNameSameNames(v.methods, v.methods[i := x], MethodName, name);
  }

  lemma LookupIgnoresReplacementInRoot(n: Node, s: Sel, c: Node, name: string)
    requires n.RootNode?
    requires Child(n, s).Some? && SameKind(Child(n, s).value, c) && c.Name() == Child(n, s).value.Name()
    ensures GetByName(WithChild(n, s, c), name) == GetByName(n, name)
  {
    LookupKeepsRoot(n.root, s.i, c.file, name);
  }

  lemma LookupIgnoresReplacementInFile(n: Node, s: Sel, c: Node, name: string)
    requires n.FileNode?
    requires Child(n, s).Some? && SameKind(Child(n, s).value, c) && c.Name() == Child(n, s).value.Name()
    ensures GetByName(WithChild(n, s, c), name) == GetByName(n, name)
  {
    LookupKeepsFile(n.file, WithChild(n, s, c).file, name);
  }

  lemma LookupIgnoresReplacementInMessage(n: Node, s: Sel, c: Node, name: string)
    requires n.MessageNode?
    requires Child(n, s).Some? && SameKind(Child(n, s).value, c) && c.Name() == Child(n, s).value.Name()
    ensures GetByName(WithChild(n, s, c), name) == GetByName(n, name)
  {
    LookupKeepsMessage(n.message, s.i, c.field, name);
  }

  lemma LookupIgnoresReplacementInService(n: Node, s: Sel, c: Node, name: string)
    requires n.ServiceNode?
    requires Child(n, s).Some? && SameKind(Child(n, s).value, c) && c.Name() == Child(n, s).value.Name()
    ensures GetByName(WithChild(n, s, c), name) == GetByName(n, name)
  {
    LookupKeepsService(n.service, s.i, c.serviceMethod, name);
  }

  /** Replacing a part by one with the same name leaves every lookup as it was. */
  lemma LookupIgnoresReplacement(n: Node, s: Sel, c: Node, name: string)
    requires Child(n, s).Some? && SameKind(Child(n, s).value, c) && c.Name() == Child(n, s).value.Name()
    ensures GetByName(WithChild(n, s, c), name) == GetByName(n, name)
  {
    if n.RootNode? {
      LookupIgnoresReplacementInRoot(n, s, c, name);
    } else if n.FileNode? {
      LookupIgnoresReplacementInFile(n, s, c, name);
    } else if n.MessageNode? {
      LookupIgnoresReplacementInMessage(n, s, c, name);
    } else if n.ServiceNode? {
      LookupIgnoresReplacementInService(n, s, c, name);
    }
  }

  // ---------------------------------------------------------------------
  // What setting one description does to the tree
  // ---------------------------------------------------------------------

  /** The node at `h` now has description `d` and is otherwise the node it was. */
  lemma {:induction false} SetDescriptionAtTarget(n: Node, h: seq<Sel>, d: string)
    requires NodeAt(n, h).Some?
    ensures NodeAt(SetDescriptionAt(n, h, d), h) == Some(NodeAt(n, h).value.SetDescription(d))
    decreases |h|
  {
    if h != [] {
      var c := Child(n, h[0]).value;
      SetDescriptionAtTarget(c, h[1..], d);
      ChildOfReplaced(n, h[0], c, SetDescriptionAt(c, h[1..], d));
    }
  }

  // The three ways SetDescriptionAt can pass another handle by.

  lemma DescriptionAtRedescribed(n: Node, d: string, h': seq<Sel>)
    requires h' != []
    ensures DescriptionAt(n.SetDescription(d), h') == DescriptionAt(n, h')
  {
    ChildOfRedescribed(n, d, h'[0]);
  }

  lemma DescriptionAtReplacedElsewhere(n: Node, s: Sel, c': Node, h': seq<Sel>)
    requires Child(n, s).Some? && SameKind(Child(n, s).value, c') && h' != [] && h'[0] != s
    ensures DescriptionAt(WithChild(n, s, c'), h') == DescriptionAt(n, h')
  {
    ChildOfReplacedElsewhere(n, s, c', h'[0]);
  }

  lemma DescriptionAtReplaced(n: Node, s: Sel, c': Node, h': seq<Sel>)
    requires Child(n, s).Some? && SameKind(Child(n, s).value, c') && h' != [] && h'[0] == s
    ensures DescriptionAt(WithChild(n, s, c'), h') == DescriptionAt(c', h'[1..])
    ensures DescriptionAt(n, h') == DescriptionAt(Child(n, s).value, h'[1..])
  {
    ChildOfReplaced(n, s, Child(n, s).value, c');
  }

  /** Every other handle leads to a node with the description it had, and to a node at all exactly when it did. */
  lemma {:induction false} SetDescriptionAtElsewhere(n: Node, h: seq<Sel>, d: string, h': seq<Sel>)
    requires h' != h
    ensures DescriptionAt(SetDescriptionAt(n, h, d), h') == DescriptionAt(n, h')
    decreases |h|
  {
    if h == [] {
      DescriptionAtRedescribed(n, d, h');
    } else if Child(n, h[0]).None? {
    } else if h' == [] {
    } else {
      var c := Child(n, h[0]).value;
      var c' := SetDescriptionAt(c, h[1..], d);
      if h'[0] == h[0] {
        DescriptionAtReplaced(n, h[0], c', h');
        ConsSplit(h');
        ConsSplit(h);
        SetDescriptionAtElsewhere(c, h[1..], d, h'[1..]);
      } else {
        DescriptionAtReplacedElsewhere(n, h[0], c', h');
      }
    }
  }

  /** Setting a node's description to the one it has changes nothing. */
  lemma {:induction false} SetDescriptionAtSame(n: Node, h: seq<Sel>)
    requires NodeAt(n, h).Some?
    ensures SetDescriptionAt(n, h, NodeAt(n, h).value.Description()) == n
    decreases |h|
  {
    if h == [] {
      RedescribeTwice(n, "", n.Description());
    } else {
      var c := Child(n, h[0]).value;
      SetDescriptionAtSame(c, h[1..]);
      ReplaceWithSame(n, h[0]);
    }
  }

  /** A later description at the same handle replaces an earlier one completely. */
  lemma {:induction false} SetDescriptionAtOverwrite(n: Node, h: seq<Sel>, d1: string, d2: string)
    ensures SetDescriptionAt(SetDescriptionAt(n, h, d1), h, d2) == SetDescriptionAt(n, h, d2)
    decreases |h|
  {
    if h == [] {
      RedescribeTwice(n, d1, d2);
    } else if Child(n, h[0]).Some? {
      var c := Child(n, h[0]).value;
      var c1 := SetDescriptionAt(c, h[1..], d1);
      ChildOfReplaced(n, h[0], c, c1);
      SetDescriptionAtOverwrite(c, h[1..], d1, d2);
      ReplaceTwice(n, h[0], c1, SetDescriptionAt(c, h[1..], d2));
    }
  }

  /** Restoring the old description gives back the very tree: nothing but that one description changed. */
  lemma SetDescriptionAtRestore(n: Node, h: seq<Sel>, d: string)
    requires NodeAt(n, h).Some?
    ensures SetDescriptionAt(SetDescriptionAt(n, h, d), h, NodeAt(n, h).value.Description()) == n
  {
    SetDescriptionAtOverwrite(n, h, d, NodeAt(n, h).value.Description());
    SetDescriptionAtSame(n, h);
  }

  /** A description set at the root leaves every deeper update as it would have been. */
  lemma {:induction false} SetDescriptionBelowRedescribed(n: Node, d: string, h: seq<Sel>, e: string)
    requires h != []
    ensures SetDescriptionAt(n.SetDescription(d), h, e) == SetDescriptionAt(n, h, e).SetDescription(d)
  {
    ChildOfRedescribed(n, d, h[0]);
    if Child(n, h[0]).Some? {
      RedescribeReplaced(n, h[0], SetDescriptionAt(Child(n, h[0]).value, h[1..], e), d);
    }
  }

  /** Descriptions set below two different parts of a node can be set in either order. */
  lemma SetDescriptionAtCommutesApart(n: Node, h1: seq<Sel>, d1: string, h2: seq<Sel>, d2: string)
    requires h1 != [] && h2 != [] && h1[0] != h2[0]
    ensures SetDescriptionAt(SetDescriptionAt(n, h1, d1), h2, d2) == SetDescriptionAt(SetDescriptionAt(n, h2, d2), h1, d1)
  {
    var s1, s2 := h1[0], h2[0];
    if Child(n, s1).None? {
      if Child(n, s2).Some? {
        ChildOfReplacedElsewhere(n, s2, SetDescriptionAt(Child(n, s2).value, h2[1..], d2), s1);
      }
    } else if Child(n, s2).None? {
      ChildOfReplacedElsewhere(n, s1, SetDescriptionAt(Child(n, s1).value, h1[1..], d1), s2);
    } else {
      var c1, c2 := Child(n, s1).value, Child(n, s2).value;
      var a1 := SetDescriptionAt(c1, h1[1..], d1);
      var a2 := SetDescriptionAt(c2, h2[1..], d2);
      ChildOfReplacedElsewhere(n, s1, a1, s2);
      ChildOfReplacedElsewhere(n, s2, a2, s1);
      ReplaceCommutes(n, s1, a1, s2, a2);
    }
  }

  /** Descriptions set at two different handles can be set in either order. */
  lemma {:induction false} SetDescriptionAtCommutes(n: Node, h1: seq<Sel>, d1: string, h2: seq<Sel>, d2: string)
    requires h1 != h2
    ensures SetDescriptionAt(SetDescriptionAt(n, h1, d1), h2, d2) == SetDescriptionAt(SetDescriptionAt(n, h2, d2), h1, d1)
    decreases |h1|
  {
    if h1 == [] {
      SetDescriptionBelowRedescribed(n, d1, h2, d2);
    } else if h2 == [] {
      SetDescriptionBelowRedescribed(n, d2, h1, d1);
    } else if h1[0] != h2[0] {
      SetDescriptionAtCommutesApart(n, h1, d1, h2, d2);
    } else if Child(n, h1[0]).Some? {
      ConsSplit(h1);
      ConsSplit(h2);
      var c := Child(n, h1[0]).value;
      SetDescriptionAtCommutes(c, h1[1..], d1, h2[1..], d2);
      SetDescriptionAtCommutesBelow(n, h1, d1, h2, d2);
    }
  }

  /** Descriptions set below the same part of a node commute when they commute within that part. */
  lemma SetDescriptionAtCommutesBelow(n: Node, h1: seq<Sel>, d1: string, h2: seq<Sel>, d2: string)
    requires h1 != [] && h2 != [] && h1[0] == h2[0] && Child(n, h1[0]).Some?
    requires var c := Child(n, h1[0]).value;
      SetDescriptionAt(SetDescriptionAt(c, h1[1..], d1), h2[1..], d2) == SetDescriptionAt(SetDescriptionAt(c, h2[1..], d2), h1[1..], d1)
    ensures SetDescriptionAt(SetDescriptionAt(n, h1, d1), h2, d2) == SetDescriptionAt(SetDescriptionAt(n, h2, d2), h1, d1)
  {
    var c := Child(n, h1[0]).value;
    SetDescriptionAtReplaced(n, h2, SetDescriptionAt(c, h1[1..], d1), d2);
    SetDescriptionAtReplaced(n, h1, SetDescriptionAt(c, h2[1..], d2), d1);
  }

  /** Setting a description below a part that was just replaced works on the replacement. */
  lemma SetDescriptionAtReplaced(n: Node, h: seq<Sel>, a: Node, d: string)
    requires h != [] && Child(n, h[0]).Some? && SameKind(Child(n, h[0]).value, a)
    ensures SetDescriptionAt(WithChild(n, h[0], a), h, d) == WithChild(n, h[0], SetDescriptionAt(a, h[1..], d))
  {
    ChildOfReplaced(n, h[0], Child(n, h[0]).value, a);
    ReplaceTwice(n, h[0], a, SetDescriptionAt(a, h[1..], d));
  }

  lemma ResolveRedescribed(n: Node, d: string, path: seq<string>)
    requires path != []
    ensures Resolve(n.SetDescription(d), path) == Resolve(n, path)
  {
    LookupIgnoresDescription(n, d, path[0]);
    match GetByName(n, path[0])
    case Found(s) =>
      ChildOfRedescribed(n, d, s);
    case Absent =>
    case NoLookup =>
  }

  lemma ResolveReplaced(n: Node, s0: Sel, c': Node, path: seq<string>)
    requires path != [] && Child(n, s0).Some? && SameKind(Child(n, s0).value, c')
    requires c'.Name() == Child(n, s0).value.Name()
    requires GetByName(n, path[0]) == Found(s0) ==> Resolve(c', path[1..]) == Resolve(Child(n, s0).value, path[1..])
    ensures Resolve(WithChild(n, s0, c'), path) == Resolve(n, path)
  {
    var c := Child(n, s0).value;
    LookupIgnoresReplacement(n, s0, c', path[0]);
    match GetByName(n, path[0])
    case Found(s) =>
      if s == s0 {
        ChildOfReplaced(n, s, c, c');
      } else {
        ChildOfReplacedElsewhere(n, s0, c', s);
      }
    case Absent =>
    case NoLookup =>
  }

  /** Setting a description never changes how any name path resolves. */
  lemma {:induction false} ResolveIgnoresDescriptions(n: Node, h: seq<Sel>, d: string, path: seq<string>)
    ensures Resolve(SetDescriptionAt(n, h, d), path) == Resolve(n, path)
    decreases |path|
  {
    var n' := SetDescriptionAt(n, h, d);
    if path != [] {
      if h == [] {
        ResolveRedescribed(n, d, path);
      } else if Child(n, h[0]).Some? {
        var c := Child(n, h[0]).value;
        if GetByName(n, path[0]) == Found(h[0]) {
          ResolveIgnoresDescriptions(c, h[1..], d, path[1..]);
        }
        ResolveReplaced(n, h[0], SetDescriptionAt(c, h[1..], d), path);
      }
    }
  }

  // ---------------------------------------------------------------------
  // SetComment as a function of the tree
  // ---------------------------------------------------------------------

  /**
   * The tree after SetComment(path, text): the node the path resolves to
   * gets `scrub(text)` as its description; None when the path does not
   * resolve (the source panics).
   */
  function Annotate(r: MicroserviceDefinition, path: seq<string>, text: string, scrub: string -> string)
    : (o: Option<MicroserviceDefinition>)
    ensures o.Some? <==> Resolve(RootNode(r), path).Some?
    ensures o.Some? ==> o.value.name == r.name
    ensures o.Some? && path != [] ==> o.value.description == r.description
    ensures o.Some? && path == [] ==> o.value.description == scrub(text)
  {
    match Resolve(RootNode(r), path)
    case None => None
    case Some(h) => Some(SetDescriptionAt(RootNode(r), h, scrub(text)).root)
  }

  /**
   * SetComment succeeds exactly when the path resolves; the node reached then
   * holds `scrub(text)`, every other node keeps its description, the same
   * paths still resolve to the same nodes, and putting the old description
   * back restores the original tree.
   */
  lemma AnnotateEffect(r: MicroserviceDefinition, path: seq<string>, text: string, scrub: string -> string)
    ensures Annotate(r, path, text, scrub).Some? <==> Resolve(RootNode(r), path).Some?
    ensures Annotate(r, path, text, scrub).Some? ==>
      var h := Resolve(RootNode(r), path).value;
      var r' := Annotate(r, path, text, scrub).value;
      && DescriptionAt(RootNode(r'), h) == Some(scrub(text))
      && (forall h' :: h' != h ==> DescriptionAt(RootNode(r'), h') == DescriptionAt(RootNode(r), h'))
      && (forall p :: Resolve(RootNode(r'), p) == Resolve(RootNode(r), p))
      && SetDescriptionAt(RootNode(r'), h, NodeAt(RootNode(r), h).value.Description()) == RootNode(r)
  {
    match Resolve(RootNode(r), path)
    case None =>
    case Some(h) =>
      var n := RootNode(r);
      var n' := SetDescriptionAt(n, h, scrub(text));
      assert RootNode(n'.root) == n';
      SetDescriptionAtTarget(n, h, scrub(text));
      forall h' | h' != h ensures DescriptionAt(n', h') == DescriptionAt(n, h') {
        SetDescriptionAtElsewhere(n, h, scrub(text), h');
      }
      forall p ensures Resolve(n', p) == Resolve(n, p) {
        ResolveIgnoresDescriptions(n, h, scrub(text), p);
      }
      SetDescriptionAtRestore(n, h, scrub(text));
  }

  /** An empty path annotates the root itself. */
  lemma AnnotateEmptyPath(r: MicroserviceDefinition, text: string, scrub: string -> string)
    ensures Annotate(r, [], text, scrub) == Some(r.(description := scrub(text)))
  {
  }

  /** Comments on two different nodes can be attached in either order. */
  lemma AnnotateOrderIrrelevant(r: MicroserviceDefinition, p1: seq<string>, t1: string, p2: seq<string>, t2: string,
                                scrub: string -> string)
    requires Resolve(RootNode(r), p1).Some? && Resolve(RootNode(r), p2).Some?
    requires Resolve(RootNode(r), p1) != Resolve(RootNode(r), p2)
    ensures Annotate(r, p1, t1, scrub).Some? && Annotate(r, p2, t2, scrub).Some?
    ensures Annotate(Annotate(r, p1, t1, scrub).value, p2, t2, scrub) == Annotate(Annotate(r, p2, t2, scrub).value, p1, t1, scrub)
  {
    var n := RootNode(r);
    var h1, h2 := Resolve(n, p1).value, Resolve(n, p2).value;
    var n1 := SetDescriptionAt(n, h1, scrub(t1));
    var n2 := SetDescriptionAt(n, h2, scrub(t2));
    assert RootNode(n1.root) == n1 && RootNode(n2.root) == n2;
    ResolveIgnoresDescriptions(n, h1, scrub(t1), p2);
    ResolveIgnoresDescriptions(n, h2, scrub(t2), p1);
    SetDescriptionAtCommutes(n, h1, scrub(t1), h2, scrub(t2));
    var n12 := SetDescriptionAt(n1, h2, scrub(t2));
    assert RootNode(n12.root) == n12;
  }

  /** Attaching a second comment to the same path replaces the first. */
  lemma AnnotateLastWins(r: MicroserviceDefinition, path: seq<string>, t1: string, t2: string, scrub: string -> string)
    requires Resolve(RootNode(r), path).Some?
    ensures Annotate(r, path, t1, scrub).Some?
    ensures Annotate(Annotate(r, path, t1, scrub).value, path, t2, scrub) == Annotate(r, path, t2, scrub)
  {
    var n := RootNode(r);
    var h := Resolve(n, path).value;
    var n1 := SetDescriptionAt(n, h, scrub(t1));
    assert RootNode(n1.root) == n1;
    ResolveIgnoresDescriptions(n, h, scrub(t1), path);
    SetDescriptionAtOverwrite(n, h, scrub(t1), scrub(t2));
  }
}
