# Documentation tree of a service definition, in Dafny

This project models the documentation tree of the protobuf documentation generator, `gendoc/doctree/docs.go`. A service definition is a tree. Its levels are:

- the root (`MicroserviceDefinition`);
- proto files;
- in each file, messages, enums and services;
- in a message, fields, each with a type (`FieldType`);
- in an enum, its values;
- in a service, RPC methods;
- in a method, HTTP bindings with `kind: value` fields and parameters.

The file defines four things on this tree, and the model covers all four:

- **Child lookup.** `GetByName` is a one-level, first-match scan of a node's children.
- **Comment attachment.** `SetComment` walks a name path from the root, one `GetByName` per name. It then overwrites the description of the node it reached, after cleaning it with the comment scrubber.
- **The outline.** `Describe(depth)` and `String()` give an indented plain-text dump, four spaces per level. Collection elements carry labels such as `File 0:`.
- **The Markdown document.** `describeMarkdown(depth)` and `Markdown()` produce it:
  - headings whose level is the depth;
  - description paragraphs;
  - an HTML anchor above every message;
  - tables of fields, enum values, methods and HTTP parameters;
  - links from type names to message anchors, chosen by the name-link heuristic.

The small string helpers `prindent`, `strRepeat` and `nameLink` are modelled as well.

The modules follow those parts:

- `Text` (text.dfy): repetition and indentation, `nameLink`, newline stripping, upper-casing, decimal formatting, byte length. It also has the concatenation-of-entries function `Join`, which the loops of the renderers are proved against.
- `DocNodes` (nodes.dfy): the twelve node kinds as datatypes, plus a sum type `Node` over them with names, descriptions and the setters. A `Sel` selects one part of a node, and `Child`/`WithChild` read and replace that part. This module also holds the `GetByName` scans.
- `Annotation` (annotate.dfy): name paths resolved to handles (sequences of selectors), the description update at a handle, and `Annotate`. `Annotate` is SetComment as a function from tree to optional tree.
- `Outline` (outline.dfy): each `Describe` as a specification function and as a method with the source's loops. It also proves occurrence and indentation lemmas.
- `Markdown` (markdown.dfy): each `describeMarkdown` as a specification function and as a method with the source's loops. It also proves lemmas about the layout rules.
- `DocTree` (doctree.dfy): the class `Doctree`, whose mutable `root` is changed in place by `SetName`, `SetDescription` and `SetComment`, and rendered by `String` and `Markdown`.
- `Scenario` (scenario.dfy): a worked example. It is a point-locating service with one message and one HTTP-bound method, annotated and then rendered.

Two layout rules of the code are worth stating plainly:

- **Heading depths.** The root renders at depth 1, files at 2, the `Messages`/`Services` subheadings at 3, and messages and services at 4. Method bindings render at 5, one level below their service. So a message `Point` is headed `#### Point` (`Markdown.HeadingExample`) and a binding `get` on `/locate` is headed ``##### GET `/locate` `` (`Markdown.BindingHeadingExample`).
- **Newlines in table rows.** Newlines are stripped only from field descriptions in message tables. A method's description goes into its service's table row as it is, newlines included (`Markdown.MethodRowKeepsNewlines`).

## Model

| member | source | states |
|---|---|---|
| Text.StrRepeat | gendoc/doctree/docs.go:33-39 | The loop returns `Repeat(in, count)`: `count` copies of `in` appended one after another, and the empty string when `count <= 0`. |
| Text.RepeatLength | gendoc/doctree/docs.go:33-39 | The repetition has length `|in| * max(count, 0)`. |
| Text.RepeatAdd | gendoc/doctree/docs.go:33-39 | `a + b` copies are `a` copies followed by `b` copies. |
| Text.Prindent | gendoc/doctree/docs.go:23-29 | The loop returns `Indented(depth, text)`: one four-space step per level, then the formatted text. |
| Text.IndentedShape | gendoc/doctree/docs.go:23-29 | The result is exactly `4 * max(depth, 0)` spaces followed by the text, with length to match. |
| Text.IndentedNests | gendoc/doctree/docs.go:23-29 | One more level of depth puts exactly four more spaces in front. |
| Text.LastSegment | gendoc/doctree/docs.go:44-45 | The last element of a split on ".". It has no '.', it is a suffix of the input, and when shorter than the input a '.' precedes it. |
| Text.LastSegmentOfQualified | gendoc/doctree/docs.go:44-45 | For `pkg + "." + name` with a dot-free `name`, the last segment is `name`. |
| Text.NameLink | gendoc/doctree/docs.go:41-48 | The result never has a '.'. It has a newline or a bar only when the input has one. |
| Text.NameLinkBare | gendoc/doctree/docs.go:42-44 | A name without '.' is returned unchanged. |
| Text.NameLinkQualified | gendoc/doctree/docs.go:45-47 | `pkg + "." + name` with a dot-free `name` becomes `[name](#name)`. |
| Text.NameLinkIdempotent | gendoc/doctree/docs.go:41-48 | Applying the heuristic to its own output changes nothing. |
| Text.NameLinkExampleQualified | gendoc/doctree/docs.go:41-48 | `pkg.Foo` becomes `[Foo](#Foo)`. |
| Text.NameLinkExampleScalar | gendoc/doctree/docs.go:41-48 | `int32` stays `int32`. |
| Text.NameLinkTrailingDot | gendoc/doctree/docs.go:45-47 | A name ending in '.' links to the empty anchor `[](#)`, because the split's last element is empty. |
| Text.StripNewlines | gendoc/doctree/docs.go:319 | The result has no newline, is no longer than the input and holds only characters of the input. A newline-free input comes back unchanged. |
| Text.StripNewlinesAppend | gendoc/doctree/docs.go:319 | Removing newlines from a concatenation removes them from each piece. |
| Text.ToUpper | gendoc/doctree/docs.go:651 | Each character is upper-cased in place: a lower-case ASCII letter becomes the capital at the same alphabet position, and any other character is unchanged. So the result has the same length and no lower-case ASCII letter. |
| Text.IntToString | gendoc/doctree/docs.go:320 | `%v` of an integer starts with '-' exactly when the integer is negative. For a non-negative number it is a non-empty run of decimal digits, with no leading '0' unless the number is 0. It has no newline, bar or dot. |
| Text.IntToStringRoundTrip | gendoc/doctree/docs.go:320 | Reading the digits of a non-negative number back as a decimal number gives the number. |
| Text.Utf8Length | gendoc/doctree/docs.go:89 | Go's `len` of a string is its UTF-8 byte count, at least the number of characters. |
| Text.AtMostOneByte | gendoc/doctree/docs.go:89 | A string has at most one byte exactly when it is empty or one ASCII character. |
| DocNodes.Node.SetDescription | gendoc/doctree/docs.go:115-118 | The node's description becomes `d`. Its name and kind stay the same, and `Annotation.ChildOfRedescribed` proves that its children stay the same too. The scrubbing happens in the two callers, `Annotation.Annotate` and `DocTree.Doctree.SetDescription`, which pass `scrub(d)`. |
| DocNodes.Node.SetName | gendoc/doctree/docs.go:107-109 | The node's name becomes `s`. Its description and kind stay the same. |
| DocNodes.IndexOfName | gendoc/doctree/docs.go:140-145 | The first-match scan: the index found holds the name, no earlier element does, and when nothing is found no element has the name. |
| DocNodes.RootLookup | gendoc/doctree/docs.go:139-146 | The root finds the first file with the name, or nil when no file has it. |
| DocNodes.FileLookup | gendoc/doctree/docs.go:246-263 | A file scans messages, then enums, then services. An enum is found only when no message has the name, and a service only when no message or enum does. Each is the first match in its collection. Nil means no message, enum or service has the name. |
| DocNodes.MessageLookup | gendoc/doctree/docs.go:327-334 | A message finds the first field with the name, or nil. |
| DocNodes.ServiceLookup | gendoc/doctree/docs.go:544-551 | A service finds the first method with the name, or nil. |
| DocNodes.MethodLookup | gendoc/doctree/docs.go:601-609 | A method finds its request message when the name is the request's, otherwise its response message, otherwise nil. It never finds a binding. |
| DocNodes.GetByName | gendoc/doctree/docs.go:139-146 | The lookup of each kind of node: whatever it finds is a searchable child carrying that name. Exactly enums and enum values have no lookup of their own, because they do not define one. |
| DocNodes.GetByNameFirstMatch | gendoc/doctree/docs.go:246-263 | If a searchable child has the name, the lookup succeeds, and what it returns comes no later in scan order than that child. |
| Annotation.Resolve | gendoc/doctree/docs.go:154-165 | The name path resolves name by name. A resolved path gives a handle of the same length that leads to a node, every step selects a child that a lookup can return, and the node reached carries the last name. |
| Annotation.ResolveSnoc | gendoc/doctree/docs.go:157-163 | One more name continues from the node the path so far reached: the handle grows by what `GetByName` returns there, and resolution fails when it finds nothing. |
| Annotation.ResolvePrefixFails | gendoc/doctree/docs.go:159-161 | Once a step fails, every longer path fails too; the walk panics at the first failure. |
| Annotation.SetDescriptionAt | gendoc/doctree/docs.go:164 | Setting the description below the root keeps the root's name, kind and description. |
| Annotation.SetDescriptionAtTarget | gendoc/doctree/docs.go:164 | The node at the handle is the old node with the new description. |
| Annotation.SetDescriptionAtElsewhere | gendoc/doctree/docs.go:164 | Every other handle keeps its description. |
| Annotation.SetDescriptionAtRestore | gendoc/doctree/docs.go:164 | Putting the old description back gives the original tree, so nothing else changed. |
| Annotation.SetDescriptionAtSame | gendoc/doctree/docs.go:164 | Setting a node's description to the one it already has gives back the same tree. |
| Annotation.SetDescriptionAtOverwrite | gendoc/doctree/docs.go:164 | A second description at the same handle replaces the first. |
| Annotation.SetDescriptionAtCommutes | gendoc/doctree/docs.go:164 | Descriptions at two different handles can be set in either order. |
| Annotation.ResolveIgnoresDescriptions | gendoc/doctree/docs.go:157-163 | Changing a description never changes which nodes a path reaches. |
| Annotation.LookupIgnoresDescription | gendoc/doctree/docs.go:139-146 | A node's lookup does not depend on its own description. |
| Annotation.LookupIgnoresReplacement | gendoc/doctree/docs.go:246-263 | Replacing a child with a same-named one of the same kind leaves the lookup unchanged. |
| Annotation.RedescribeTwice | gendoc/doctree/docs.go:111-118 | GetDescription and SetDescription obey the get-put laws: of two descriptions set in a row, the second wins, and setting the one `Description()` returns changes nothing. |
| Annotation.RenameTwice | gendoc/doctree/docs.go:103-109 | GetName and SetName obey the same laws: of two names set in a row, the second wins, and setting the one `Name()` returns changes nothing. |
| Annotation.Annotate | gendoc/doctree/docs.go:154-165 | SetComment as a function of the tree: it gives a tree exactly when the path resolves. The root keeps its name. It keeps its description too, unless the path is empty; then the description is the scrubbed comment. |
| Annotation.AnnotateEffect | gendoc/doctree/docs.go:154-165 | SetComment succeeds exactly when the path resolves. Then the node reached holds the scrubbed comment, every other node keeps its description, every path resolves as before, and restoring the old description gives back the original tree. |
| Annotation.AnnotateEmptyPath | gendoc/doctree/docs.go:154-165 | An empty path annotates the root itself. |
| Annotation.AnnotateOrderIrrelevant | gendoc/doctree/docs.go:154-165 | Comments on two different nodes can be attached in either order. |
| Annotation.AnnotateLastWins | gendoc/doctree/docs.go:154-165 | Attaching a second comment to the same path replaces the first. |
| DocTree.Doctree.SetComment | gendoc/doctree/docs.go:154-165 | The walk succeeds exactly when the path resolves. It then reports the handle and leaves the root equal to `Annotate` of the old root. Otherwise it reports the first failing position, at which the prefix resolves but one more name does not, and leaves the root unchanged. |
| DocTree.Doctree.SetDescription | gendoc/doctree/docs.go:115-118 | The root's description becomes the scrubbed text; nothing else changes. |
| DocTree.Doctree.SetName | gendoc/doctree/docs.go:107-109 | Only the root's name changes. |
| DocTree.Doctree.String | gendoc/doctree/docs.go:169-171 | Returns the outline of the root from depth 0. |
| DocTree.Doctree.Markdown | gendoc/doctree/docs.go:173-175 | Returns the style sheet followed by the root's Markdown from heading level 1. |
| Outline.DescribeGeneric | gendoc/doctree/docs.go:81-85 | Returns the indented `Name:` and `Desc:` lines. |
| Outline.DescribeMessage | gendoc/doctree/docs.go:289-296 | The loop returns the message's outline: its name and description, then every field labelled `Field i:` at the same depth with the field one level deeper. |
| Outline.DescribeEnum | gendoc/doctree/docs.go:404-411 | The loop returns the enum's outline, with values labelled `Value i:`. |
| Outline.DescribeBinding | gendoc/doctree/docs.go:642-648 | The loop returns the binding's outline: name, description and its fields one level deeper, without labels. |
| Outline.DescribeMethod | gendoc/doctree/docs.go:579-589 | The loop returns the method's outline: request and response names, a `MethodHttpBinding:` line and the bindings one level deeper. |
| Outline.DescribeService | gendoc/doctree/docs.go:515-522 | The loop returns the service's outline, with methods labelled `Method i:`. |
| Outline.DescribeFile | gendoc/doctree/docs.go:203-218 | The three loops return the file's outline: services, then messages, then enums, each labelled. |
| Outline.DescribeRoot | gendoc/doctree/docs.go:120-127 | The loop returns the root's outline, with files labelled `File i:`. |
| Outline.OutlineStartsWithNode | gendoc/doctree/docs.go:81-85 | `NodeOutline`, Describe on any node, opens with that node's own `Name:` and `Desc:` lines. |
| Outline.FileInRoot | gendoc/doctree/docs.go:120-127 | Each file's outline, one level deeper and preceded by its `File i:` label, appears in the root's outline. |
| Outline.ServiceInFile | gendoc/doctree/docs.go:205-208 | Each service, labelled `Service i:`, appears one level deeper in its file's outline. |
| Outline.MessageInFile | gendoc/doctree/docs.go:209-212 | Each message, labelled `Message i:`, appears one level deeper in its file's outline. |
| Outline.EnumInFile | gendoc/doctree/docs.go:213-216 | Each enum, labelled `Enum i:`, appears one level deeper in its file's outline. |
| Outline.FieldInMessage | gendoc/doctree/docs.go:289-296 | Each field, labelled `Field i:`, appears one level deeper in its message's outline. |
| Outline.TypeInField | gendoc/doctree/docs.go:372-378 | After the `Number:` and `Type:` lines, a field's type appears one level deeper. |
| Outline.ValueInEnum | gendoc/doctree/docs.go:404-411 | Each enum value, labelled `Value i:`, appears one level deeper. |
| Outline.MethodInService | gendoc/doctree/docs.go:515-522 | Each method, labelled `Method i:`, appears one level deeper. |
| Outline.BindingInMethod | gendoc/doctree/docs.go:585-587 | Each binding appears one level deeper in its method's outline. |
| Outline.FieldInBinding | gendoc/doctree/docs.go:644-646 | Each binding field appears one level deeper in its binding's outline. |
| Outline.ChildOutlineOccurs | gendoc/doctree/docs.go:120-127 | Every described sub-node's outline, one level deeper, appears in full inside its parent's. |
| Outline.DescendantOutlineOccurs | gendoc/doctree/docs.go:169-171 | Every node reached through described sub-nodes appears in full in the outline it starts from. It is indented one level per step. |
| Outline.BindingOutlineIgnoresParams | gendoc/doctree/docs.go:642-648 | A binding's HTTP parameters never show in the outline. |
| Outline.FieldOutlineIgnoresLabelAndEnum | gendoc/doctree/docs.go:372-378 | A field's label and the enum its type names never show in the outline. |
| Outline.FieldTypeOutlineLines | gendoc/doctree/docs.go:478-480 | A field type prints two lines, plus one for each newline in its name and description. With single-line texts, every line is indented at least to its depth. |
| Outline.FieldOutlineLines | gendoc/doctree/docs.go:372-378 | A field prints six lines: `Name:`, `Desc:`, `Number:` and `Type:`, then its type's two lines. Each newline in its texts adds one more. With single-line texts, every line is indented at least to its depth. |
| Outline.EnumValueOutlineLines | gendoc/doctree/docs.go:448-452 | An enum value prints three lines, `Name:`, `Desc:` and `Number:`, plus one for each newline in its texts. With single-line texts, every line is indented at least to its depth. |
| Outline.BindingFieldOutlineLines | gendoc/doctree/docs.go:704-709 | A binding field prints four lines, `Name:`, `Desc:`, `Kind:` and `Value:`, plus one for each newline in its texts. With single-line texts, every line is indented at least to its depth. |
| Outline.ParamOutlineLines | gendoc/doctree/docs.go:749-754 | An HTTP parameter prints four lines, `Name:`, `Desc:`, `Location:` and `Type:`, plus one for each newline in its texts. With single-line texts, every line is indented at least to its depth. |
| Outline.RootIndented | gendoc/doctree/docs.go:120-127 | When names and printed texts are single lines, every line of the outline at depth d starts with at least d four-space steps. |
| Outline.FileIndented | gendoc/doctree/docs.go:203-218 | The same indentation property for a file's outline. |
| Outline.MultiLineDescriptionBreaksIndentation | gendoc/doctree/docs.go:81-85 | The outline of a two-line description at depth 1 is not indented line by line, because its second line begins without the spaces. So the single-line condition above is needed. |
| Markdown.HeadingLine | gendoc/doctree/docs.go:304 | The `strRepeat`-based heading is `depth` hashes, a space, the title and a blank line. |
| Markdown.HeadingLevel | gendoc/doctree/docs.go:88 | A heading of depth d is exactly d '#' characters, a space, the title and "\n\n". |
| Markdown.HeadingExample | gendoc/doctree/docs.go:304 | A message `Point` at depth 4 is headed `#### Point`. |
| Markdown.DescribeMarkdownGeneric | gendoc/doctree/docs.go:87-93 | Returns the heading, then the description and a blank line only when the description is longer than one byte. |
| Markdown.ParagraphRule | gendoc/doctree/docs.go:89-91 | The paragraph is omitted exactly when the description is empty or a single ASCII character; otherwise it is the description and a blank line. |
| Markdown.ParagraphOneWideCharacter | gendoc/doctree/docs.go:89 | A single non-ASCII character is two bytes, so it is printed; a single ASCII letter is not. |
| Markdown.DescribeMarkdownMessage | gendoc/doctree/docs.go:298-325 | Returns the message's Markdown: anchor, heading, paragraph, then a lone newline without fields, or the header and one row per field. |
| Markdown.FieldRows | gendoc/doctree/docs.go:317-321 | The loop returns the rows of all fields in field order. |
| Markdown.MessageStartsWithAnchor | gendoc/doctree/docs.go:303-307 | A message's Markdown opens with `<a name="NAME"></a>`, then its heading and paragraph. |
| Markdown.MessageTableIff | gendoc/doctree/docs.go:309-316 | When the name and description hold no bar, the Markdown holds a table bar exactly when the message has fields. |
| Markdown.MessageTableRows | gendoc/doctree/docs.go:315-321 | With fields, the header follows the title block, and the row of field i comes right after the rows of the fields before it. |
| Markdown.FieldRowOneLine | gendoc/doctree/docs.go:318-320 | A field's row is a single line, whatever newlines its description holds. |
| Markdown.FieldRowFitsTable | gendoc/doctree/docs.go:320 | When the field's name, type name and description hold no bar, its row holds exactly five bars. That is one row of four cells, matching the four-column header. |
| Markdown.FieldRowsOnePerField | gendoc/doctree/docs.go:317-321 | The rows hold exactly one line per field. |
| Markdown.MethodRowKeepsNewlines | gendoc/doctree/docs.go:529-534 | A method's row has one line more than its description, because the description is not stripped. |
| Markdown.QualifiedTypeLinksToAnchor | gendoc/doctree/docs.go:320 | A package-qualified type links to `#NAME`, and the message `NAME` opens with the anchor of that name. |
| Markdown.DescribeMarkdownEnum | gendoc/doctree/docs.go:413-422 | Returns the enum's Markdown: heading, paragraph, table header, one row per value. |
| Markdown.EnumTableAlways | gendoc/doctree/docs.go:413-422 | The enum table header is printed even for an enum without values, and every value has its row. |
| Markdown.ValueRowFitsTable | gendoc/doctree/docs.go:418 | When the value's name holds no bar or newline, its row is one line with exactly three bars. That is two cells, matching the `Number`/`Name` header. |
| Markdown.DescribeMarkdownBinding | gendoc/doctree/docs.go:650-664 | Returns the binding's Markdown: heading, description, parameter table. |
| Markdown.BindingLayout | gendoc/doctree/docs.go:651-660 | The heading shows the verb in capitals and the path in backquotes. The description always follows, then the parameter table with every parameter's row. |
| Markdown.ParamRowFitsTable | gendoc/doctree/docs.go:659 | When the parameter's texts hold no bar or newline, its row is one line with exactly four bars. That is three cells, matching the three-column header. |
| Markdown.BindingShortDescriptionExample | gendoc/doctree/docs.go:653 | A one-character description, dropped by the generic rule, is still printed for a binding. |
| Markdown.BindingHeadingExample | gendoc/doctree/docs.go:651 | `get` on `/locate` at depth 5 is headed ``##### GET `/locate` ``. |
| Markdown.DescribeMarkdownMethod | gendoc/doctree/docs.go:591-599 | The loop returns the concatenation of the method's bindings at the same depth. |
| Markdown.MethodMarkdownEmptyIff | gendoc/doctree/docs.go:591-599 | A method contributes nothing exactly when it has no HTTP bindings. |
| Markdown.BindingInMethodMarkdown | gendoc/doctree/docs.go:594-596 | Each binding's Markdown appears in its method's. |
| Markdown.DescribeMarkdownService | gendoc/doctree/docs.go:524-542 | The two loops return the service's Markdown: table of methods, then the `- Http Methods` heading and the methods one level deeper. |
| Markdown.ServiceTablesAlways | gendoc/doctree/docs.go:524-537 | The method table and the `NAME - Http Methods` heading are printed even for a service without methods. |
| Markdown.MethodRowFitsTable | gendoc/doctree/docs.go:533 | When the method's name, type names and description hold no bar, its row holds exactly five bars. That is four cells, matching the four-column header. |
| Markdown.MethodInServiceMarkdown | gendoc/doctree/docs.go:528-540 | Each method has its row in the table, and its bindings appear one level deeper. |
| Markdown.DescribeMarkdownFile | gendoc/doctree/docs.go:220-244 | Returns the file's Markdown: heading and paragraph, then the message, enum and service sections in that order. |
| Markdown.FileSectionsIff | gendoc/doctree/docs.go:220-244 | Each section is present exactly when its collection is non-empty, and then it holds its subheading at depth + 1. |
| Markdown.MessageInFileMarkdown | gendoc/doctree/docs.go:223-228 | Each message renders at depth + 2, right after the messages declared before it. |
| Markdown.EnumInFileMarkdown | gendoc/doctree/docs.go:230-235 | Each enum renders at depth + 2, right after the enums declared before it. |
| Markdown.ServiceInFileMarkdown | gendoc/doctree/docs.go:237-242 | Each service renders at depth + 2, right after the services declared before it. |
| Markdown.DescribeMarkdownRoot | gendoc/doctree/docs.go:129-136 | Returns the style sheet, the root's heading and paragraph, then every file one level deeper. |
| Markdown.DescribeMessagesSection | gendoc/doctree/docs.go:223-228 | Returns the `Messages` section: empty without messages, otherwise the subheading and every message two levels deeper. |
| Markdown.DescribeEnumsSection | gendoc/doctree/docs.go:230-235 | Returns the `Enums` section, by the same rule. |
| Markdown.DescribeServicesSection | gendoc/doctree/docs.go:237-242 | Returns the `Services` section, by the same rule. |
| Markdown.FileInRootMarkdown | gendoc/doctree/docs.go:129-136 | The document opens with the style sheet and the root's heading, and each file appears one level deeper. |
| Markdown.MessageInDocument | gendoc/doctree/docs.go:173-175 | Every message of every file appears in the document from `Markdown()`, rendered at depth 4. |
| Markdown.MessageHeadingInDocument | gendoc/doctree/docs.go:173-175 | In the document from `Markdown()`, a message is announced by its anchor, a level-4 heading and its paragraph. |
| Markdown.BindingInDocument | gendoc/doctree/docs.go:173-175 | Every HTTP binding of every method of every service appears in the document, rendered at depth 5. |
| Markdown.BindingStartsWithHeading | gendoc/doctree/docs.go:651 | A binding's Markdown opens with its verb-and-path heading. |
| Markdown.BindingHeadingInDocument | gendoc/doctree/docs.go:173-175 | In the document from `Markdown()`, a service's HTTP bindings are headed at level 5. |
| Markdown.NodeMarkdown | gendoc/doctree/docs.go:65 | describeMarkdown on any node. There is a rendering for every kind of node except the enum value. |
| Markdown.NodeMarkdownLeaves | gendoc/doctree/docs.go:364-366 | Fields, field types, binding fields and parameters use the generic rendering. |
| Scenario.ResolvePoint | gendoc/doctree/docs.go:154-163 | The name path `points.proto / Point` reaches the first message of the first file. |
| Scenario.AnnotatePoint | gendoc/doctree/docs.go:154-165 | Attaching a comment at `points.proto / Point` changes only that message's description, to the scrubbed comment. |
| Scenario.PointDocument | gendoc/doctree/docs.go:173-175 | The annotated example's document holds:<br>- the anchor, `#### Point` and the comment;<br>- both field rows, with a bare `int32`;<br>- the method row, linking request and response to `#Point`;<br>- the heading ``##### GET `/locate` ``. |

## Left out

- In-place update: Go changes a node's field in place, through a reference to the node. The model rebuilds the tree with the node replaced (`SetDescriptionAt`), and `Doctree.root` holds the whole tree as one value.
- Shared request and response messages: a method's `RequestType`/`ResponseType` are pointers to messages. The builder that fills them in is not part of this model. The model holds a separate message value inside the method. In `Scenario`, that value carries the package-qualified type name `pkg.Point` and no fields. It stands for the reference, the way `nameLink` expects such names, and is not a copy of the file's `Point`. A comment attached through a method path changes only that value, not the message in its file.
- `scrubComments`: its source is not part of this model. It is a parameter (`scrub`); the model assumes no property of it.
- DocNodes.Node.SetDescription: stores `d` as given, where every Go `SetDescription` stores `scrubComments(d)`. The scrubbing is applied by its callers, `Annotation.Annotate` and `DocTree.Doctree.SetDescription`, so the tree they produce matches the source.
- `doc_css`: its contents are not part of this model. It is a parameter (`css`) put in front of the document.
- The panic in `SetComment`: it becomes a failure result; the tree is left as it was. The message text of the panic is not modelled.
- `ProtoEnum.GetByName`, `EnumValue.GetByName` and `EnumValue.describeMarkdown`: the types do not define them, so a call reaches the embedded nil `Describable` and panics. Lookup gives `NoLookup`, so SetComment fails; the enum-value rendering is `None`.
- The embedded `Describable` field of every struct is not modelled beyond that.
- Text.ToUpper: upper-cases ASCII letters only, where Go's `strings.ToUpper` follows Unicode case mapping.
- Text.IntToString: decimal digits with a leading '-'; no other `fmt` formatting is modelled.
- Outline.RootIndented: stated only for names and printed texts without newlines, because a multi-line description breaks the indentation (`Outline.MultiLineDescriptionBreaksIndentation`).
- `fmt.Sprintf` of strings is modelled as plain concatenation.
- The Go `Doctree` interface (a set of method signatures) has no behaviour of its own.
- The HTTP client template in `gengokit/httptransport/templates/client.go` is not part of this model. It is template text with no logic.
