/**
 * The documentation tree as the program holds it: one mutable root that
 * comments are attached to by name paths, and that renders itself as an
 * outline (String) or as Markdown.
 */
module DocTree {
  import opened Wrappers
  import opened DocNodes
  import opened Annotation
  import Outline
  import MD = Markdown

  /** What SetComment did: the handle of the node it annotated, or how many names it resolved before a lookup failed. */
  datatype Outcome = Annotated(target: seq<Sel>) | Unresolved(resolved: nat)

  class Doctree {
    var root: MicroserviceDefinition
    /** The comment cleaner every description goes through (scrubComments). */
    const scrub: string -> string

    constructor (r: MicroserviceDefinition, scrub: string -> string)
      ensures root == r && this.scrub == scrub
    {
      root := r;
      this.scrub := scrub;
    }

    /** SetName on the root. */
    method SetName(s: string)
      modifies this
      ensures root == old(root).(name := s)
    {
      root := root.(name := s);
    }

    /** SetDescription on the root: the cleaned text replaces the description. */
    method SetDescription(d: string)
      modifies this
      ensures root == old(root).(description := scrub(d))
    {
      root := root.(description := scrub(d));
    }

    /**
     * SetComment: walk the name path from the root, one GetByName per name,
     * and overwrite the description of the node reached. Where the source
     * panics on a failed lookup, the walk stops, reports how far it got and
     * leaves the tree as it was.
     */
    method SetComment(namepath: seq<string>, commentBody: string) returns (outcome: Outcome)
      modifies this
      ensures outcome.Annotated? <==> Resolve(RootNode(old(root)), namepath).Some?
      ensures outcome.Annotated? ==>
        && Resolve(RootNode(old(root)), namepath) == Some(outcome.target)
        && Annotate(old(root), namepath, commentBody, scrub) == Some(root)
      ensures outcome.Unresolved? ==>
        && root == old(root)
        && outcome.resolved < |namepath|
        && Resolve(RootNode(root), namepath[..outcome.resolved]).Some?
        && Resolve(RootNode(root), namepath[..outcome.resolved + 1]).None?
    {
      var top := RootNode(root);
      var cur := top;
      var h: seq<Sel> := [];
      var i := 0;
      while i < |namepath|
        invariant 0 <= i <= |namepath|
        invariant root == old(root) && top == RootNode(root)
        invariant Resolve(top, namepath[..i]) == Some(h)
        invariant NodeAt(top, h) == Some(cur)
      {
        var found := GetByName(cur, namepath[i]);
        if !found.Found? {
          ResolveStepFails(top, namepath, i, h, cur);
          return Unresolved(i);
        }
        ResolveStepFound(top, namepath, i, h, cur, found.sel);
        cur := Child(cur, found.sel).value;
        h := h + [found.sel];
        i := i + 1;
      }
      assert namepath[..i] == namepath;
      root := SetDescriptionAt(top, h, scrub(commentBody)).root;
      outcome := Annotated(h);
    }

    /** String: the indented outline of the whole tree, from depth 0. */
    method String() returns (s: string)
      ensures s == Outline.RootOutline(root, 0)
    {
      s := Outline.DescribeRoot(root, 0);
    }

    /** Markdown: the style sheet and the whole tree rendered from heading level 1. */
    method Markdown(css: string) returns (s: string)
      ensures s == MD.RootMarkdown(root, 1, css)
    {
      s := MD.DescribeMarkdownRoot(root, 1, css);
    }
  }
}
