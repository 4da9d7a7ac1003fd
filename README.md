# Media embed command, modelled in Dafny

This project models the `'mediaEmbed'` command of the CKEditor 5 media embed
package (`MediaEmbedCommand`). The command has two observable fields:
- `value` is the `url` of the selected media element, or nothing.
- `isEnabled` says whether the command can run.

`refresh()` recomputes both fields from the editing model. `execute(url)` either
rewrites the `url` of the selected media element in place, or inserts a new
`media` element at the optimal insertion position and puts the selection on it.

The model has two modules.

- `Engine` (`engine.dfy`) holds the parts of the editing engine that the command
  touches.
  - The document is a map from node identities to nodes. A node has a name, a
    parent link and attributes. Parents have smaller identities than their
    children, so the tree has no cycles.
  - An element is empty when no node has it as its parent.
  - The schema has two queries. `checkChild` takes a node's context, the names
    from its root down to the node. `isLimit` takes an element name. Every root
    is a limit, because `$root` is registered as one.
  - The `EditorModel` class stands for the model inside one `model.change()`
    block. Its methods are `SetAttribute` (`writer.setAttribute`),
    `InsertContent` (`model.insertContent`) and `SetSelectionOn`
    (`writer.setSelection(element, 'on')`).
- `MediaEmbed` (`mediaembedcommand.dfy`) holds the command.
  - The widget and media helpers are function-valued fields of `Widgets`. What
    the command relies on from them is stated in `WidgetsSound`:
    - the insertion position's parent is a node of the document;
    - `getSelectedMediaModelWidget` returns the selected element when it is
      named `media`, and nothing otherwise.
  - It also holds `isMediaSelected`, `isAllowedInParent`, `insertMedia`, the
    `MediaEmbedCommand` class with `Refresh` and `Execute`, and the lemmas that
    connect them.

The comment at `mediaembedcommand.js:77` says that `model.insertContent()`
removes an empty parent unless that parent is a root or a limit. The engine
model takes its landing rule from that comment (`Engine.InsertionParent`,
`Engine.WithInserted`). So the receiving node of an insertion is the same node
that `isAllowedInParent` picks by construction. What
`MediaEmbed.InsertionLandsWhereChecked` proves on top of that is that the
insertion keeps schema contexts. The schema therefore gives the same verdict on
the new element's parent after the insertion as `isAllowedInParent` got before
it.

The elision of an empty parent is a single `if`, so it moves up one level.
The node it reaches has the elided parent as a child, so that node is never
empty; `Engine.InsertionParent` ensures that it is never an empty non-limit.
Repeating the test in a loop would therefore stop at the same node.
`MediaEmbed.ElisionWalksOneLevel` shows an empty paragraph inside a quote: the
quote is checked, and it refuses media although the root would allow it.

## Model

| member | source | states |
|---|---|---|
| `MediaEmbed.MediaEmbedCommand.Refresh` | packages/ckeditor5-media-embed/src/mediaembedcommand.js:29-40 | leaves the model untouched and sets `value` to the selected media's `url` and `isEnabled` to "media selected, or media allowed in the parent and the selection not on an object" |
| `MediaEmbed.SelectedUrl` | packages/ckeditor5-media-embed/src/mediaembedcommand.js:33-35 | the value is nothing unless a media element is selected; with one selected, it is that element's `url` attribute (nothing if the attribute is absent) |
| `MediaEmbed.ValueImpliesEnabled` | packages/ckeditor5-media-embed/src/mediaembedcommand.js:33-39 | whenever a value is reported, media is selected and the command is enabled |
| `MediaEmbed.RefreshAfterUpdate` | packages/ckeditor5-media-embed/src/mediaembedcommand.js:56-59 | after the selected media's `url` is rewritten, a refresh reports the new url and the command stays enabled |
| `MediaEmbed.RefreshAfterInsert` | packages/ckeditor5-media-embed/src/mediaembedcommand.js:60-64 | after media is inserted and selected, a refresh reports the inserted url and the command is enabled |
| `MediaEmbed.ExecuteThenRefresh` | packages/ckeditor5-media-embed/src/mediaembedcommand.js:29-65 | executing with a url and then refreshing gives `value` equal to that url and an enabled command, on both paths |
| `MediaEmbed.IsMediaSelected` | packages/ckeditor5-media-embed/src/mediaembedcommand.js:89-92 | true when the selection has a selected element named `media` |
| `MediaEmbed.IsEnabled` | packages/ckeditor5-media-embed/src/mediaembedcommand.js:37-39 | media selected, or media allowed in the parent and the selection not on an object |
| `Engine.IsEmpty` | packages/ckeditor5-media-embed/src/mediaembedcommand.js:78 | an element is empty when no node has it as its parent |
| `Engine.IsLimit` | packages/ckeditor5-media-embed/src/mediaembedcommand.js:78 | the schema's limit verdict on the node's name |
| `Engine.CheckChild` | packages/ckeditor5-media-embed/src/mediaembedcommand.js:82 | the schema's `checkChild` verdict for a child name, asked about the node's context |
| `MediaEmbed.MediaSelectedExactly` | packages/ckeditor5-media-embed/src/mediaembedcommand.js:89-92 | `isMediaSelected` is false without a selected element, and otherwise true exactly when that element is named `media` |
| `MediaEmbed.EnabledWhenMediaSelected` | packages/ckeditor5-media-embed/src/mediaembedcommand.js:37 | a selected media element enables the command, whatever the schema and the object check say |
| `MediaEmbed.EnabledWithoutMedia` | packages/ckeditor5-media-embed/src/mediaembedcommand.js:37-39 | without selected media, the command is enabled exactly when `isAllowedInParent` holds and the selection is not on an object |
| `MediaEmbed.IsAllowedInParent` | packages/ckeditor5-media-embed/src/mediaembedcommand.js:73-83 | the verdict is the schema's `checkChild(·, 'media')` on the optimal position's parent, or on that parent's parent when the parent is empty and not a limit: the node `Engine.InsertionParent` names |
| `Engine.InsertionParent` | packages/ckeditor5-media-embed/src/mediaembedcommand.js:77-80 | the receiving node differs from the position's parent exactly when that parent is empty and not a limit; it is then that parent's own parent (one level up), and it always exists because roots are limits; the node it names is never itself empty and not a limit, so repeating the test would not move further |
| `MediaEmbed.InsertionLandsWhereChecked` | packages/ckeditor5-media-embed/src/mediaembedcommand.js:74-82 | after inserting media at the optimal position, the schema allows media under the new element's actual parent exactly when `isAllowedInParent` held before the insertion |
| `MediaEmbed.EmptyParagraphIsElided` | packages/ckeditor5-media-embed/src/mediaembedcommand.js:77-82 | an empty paragraph that refuses media is looked through to its root, which allows it; once the paragraph has a child, media is refused and the command is disabled |
| `MediaEmbed.ElisionWalksOneLevel` | packages/ckeditor5-media-embed/src/mediaembedcommand.js:78-80 | an empty paragraph inside a quote is looked through to the quote only: the receiving node `Engine.InsertionParent` names is the quote, which `isAllowedInParent` checks; media is refused, although the root would allow it |
| `Engine.Context` | packages/ckeditor5-media-embed/src/mediaembedcommand.js:82 | a node's schema context ends with the node's own name and has length one exactly for a root |
| `Engine.InsertionKeepsContext` | packages/ckeditor5-media-embed/src/mediaembedcommand.js:61-63 | inserting an element leaves the schema context of every node that remains unchanged |
| `Engine.NewElementContext` | packages/ckeditor5-media-embed/src/mediaembedcommand.js:61-63 | the inserted element's context is the receiving node's context followed by the element's name |
| `Engine.WithInserted` | packages/ckeditor5-media-embed/src/mediaembedcommand.js:61-63 | insertion keeps the document a well-formed tree; it adds exactly the new element under the receiving node, removes the elided parent if there was one, and changes no other node |
| `Engine.WithAttribute` | packages/ckeditor5-media-embed/src/mediaembedcommand.js:58 | setting an attribute adds and removes no node, keeps the node's name and parent, changes only that attribute, and leaves every other node unchanged |
| `Engine.AttributeChangeKeepsContext` | packages/ckeditor5-media-embed/src/mediaembedcommand.js:57-59 | setting an attribute keeps the tree and every node's schema context |
| `MediaEmbed.UrlUpdateKeepsStructure` | packages/ckeditor5-media-embed/src/mediaembedcommand.js:56-59 | rewriting the `url` keeps emptiness, limits, schema verdicts and the media-selected test for every node |
| `Engine.EditorModel.SetAttribute` | packages/ckeditor5-media-embed/src/mediaembedcommand.js:58 | `writer.setAttribute` replaces the document by its attribute update, keeps the model valid and leaves the selection alone |
| `Engine.EditorModel.InsertContent` | packages/ckeditor5-media-embed/src/mediaembedcommand.js:63 | `insertContent` places a fresh element as described by `WithInserted` and keeps the structure valid |
| `Engine.EditorModel.SetSelectionOn` | packages/ckeditor5-media-embed/src/mediaembedcommand.js:46 | the selection afterwards has exactly the given element selected, and the document is unchanged |
| `MediaEmbed.InsertMedia` | packages/ckeditor5-media-embed/src/mediaembedcommand.js:60-64 | a new `media` element with the given `url` is inserted at the position, under its receiving node, and the selection is put on it |
| `MediaEmbed.InsertedMediaIsSelected` | packages/ckeditor5-media-embed/src/mediaembedcommand.js:43-46 | after an insertion, the selection is on the new media, so the next refresh finds media selected and enables the command |
| `MediaEmbed.MediaEmbedCommand.Execute` | packages/ckeditor5-media-embed/src/mediaembedcommand.js:51-65 | with a media element selected, only the selected element's `url` changes: no node is added or removed and the selection stays put. Otherwise one new media element with `url` is inserted at the optimal position and selected. `value` and `isEnabled` are not touched |
| `MediaEmbed.RefreshTwice` | packages/ckeditor5-media-embed/src/mediaembedcommand.js:29-40 | two refreshes in a row report the same `value` and `isEnabled` and leave the model unchanged |

## Left out

- The `Command` base class is not modelled: its observable properties, the `execute` event and its decoration. That decoration stops `execute` while the command is disabled; the model has no such guard, so `MediaEmbed.ExecuteThenRefresh` describes `execute` as this file defines it, not what the editor does for a disabled command. The back-reference to the editor becomes two explicit fields, `model` and `widgets`. The constructor starts with no value and the command disabled.
- `model.change()` is treated as one atomic update of the model's fields. Undo steps and change events are not modelled. Nothing re-runs `Refresh` after a change; the caller does that.
- `findOptimalInsertionPosition`, `checkSelectionOnObject` and `getSelectedMediaModelWidget` are functions given as parameters. The only contract assumed of them is `WidgetsSound` in the current state; `MediaEmbed.ExecuteThenRefresh` assumes `WidgetsValid`, which is `WidgetsSound` in every state whose selection lies in its document, because it refreshes after the model has changed. `checkSelectionOnObject` is left unconstrained.
- The engine's landing rule for inserted content comes from the comment at `mediaembedcommand.js:77`. The engine code is not part of this model. Its `insertContent` makes its own decision, which may consult the schema; for example, it may keep an empty parent that itself accepts the element. That decision is not modelled: an empty non-limit parent is always removed.
- `insertMedia` and `insertContent` are reduced to where the element lands and to the one-level removal of an empty parent. The order of siblings, the offset within the parent and the splitting of non-empty blocks are not modelled.
- `MediaEmbed.MediaEmbedCommand.Execute`: like `execute` in `mediaembedcommand.js`, it does not check `isEnabled`; the guard lives in the `Command` base class, which is not modelled. It inserts under the receiving node even when the schema refuses media there; the engine's fallback in that case is not modelled.
- `getAttribute('url')` returns `undefined` for a missing attribute, and the command reports `null` when there is no media. Both are `None` in the model.
- Emptiness is derived from the tree (no node has the element as its parent) instead of being a stored flag.
- `Engine.EditorModel.InsertContent` leaves the selection as it was, even when its focus was inside the removed parent. The engine would move such a selection; that move is not modelled. `insertMedia` puts the selection on the new element straight afterwards.
- `MediaEmbed.UrlUpdateKeepsStructure`: schema contexts carry node names only. In the editor, context items also carry attributes. So the clause that schema verdicts survive a `url` rewrite holds by this simplification, including for the rewritten node itself. A schema rule that depends on the `url` attribute cannot be expressed.
- The view layer, media providers, URL validation and network behaviour are not modelled. None of them is in this command.
