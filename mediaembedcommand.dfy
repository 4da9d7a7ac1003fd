/** The `'mediaEmbed'` command: it reports the URL of the selected media element
    and whether it can run, and on execution either rewrites the `url` of the
    selected media in place or inserts a new media element. */
module MediaEmbed {
  import opened Engine

  /** The helpers the command calls but whose code lies elsewhere: the widget
      utilities `findOptimalInsertionPosition` and `checkSelectionOnObject`, and
      the media utility `getSelectedMediaModelWidget`. */
  datatype Widgets = Widgets(
    findOptimalInsertionPosition: (Document, Selection) -> Position,
    checkSelectionOnObject: (Document, Selection, Schema) -> bool,
    getSelectedMediaModelWidget: (Document, Selection) -> Option<NodeId>)

  /** What the command relies on from those helpers in the current state: the
      selection lies in the document, the insertion position's parent is a node of
      the document, and `getSelectedMediaModelWidget` returns the selected element
      when it is a media element and nothing otherwise. */
  predicate WidgetsSound(w: Widgets, d: Document, sel: Selection)
  {
    && SelectionIn(sel, d)
    && w.findOptimalInsertionPosition(d, sel).parent in d
    && w.getSelectedMediaModelWidget(d, sel)
         == (if IsMediaSelected(d, sel) then Some(sel.selectedElement.value) else None)
  }

  /** The helpers are sound in every state whose selection lies in its document. */
  ghost predicate WidgetsValid(w: Widgets)
  {
    forall d: Document, sel: Selection | SelectionIn(sel, d) :: WidgetsSound(w, d, sel)
  }

  /** `isMediaSelected`: the selection has a selected element and it is a media element. */
  predicate IsMediaSelected(d: Document, sel: Selection)
    requires SelectionIn(sel, d)
  {
    sel.selectedElement.Some? && d[sel.selectedElement.value].name == "media"
  }

  /** Media is selected exactly when there is a selected element named `'media'`:
      never without a selected element, and never for an element of another name. */
  lemma MediaSelectedExactly(d: Document, sel: Selection)
    requires SelectionIn(sel, d)
    ensures sel.selectedElement.None? ==> !IsMediaSelected(d, sel)
    ensures sel.selectedElement.Some? ==>
              (IsMediaSelected(d, sel) <==> d[sel.selectedElement.value].name == "media")
  {
  }

  /** `isAllowedInParent`: whether the schema allows media in the parent of the
      optimal insertion position, or, when that parent is empty and not a limit,
      in the grandparent. It asks exactly about the node that content insertion
      would put the media into. */
  predicate IsAllowedInParent(d: Document, s: Schema, sel: Selection, w: Widgets)
    requires WellFormed(d, s) && w.findOptimalInsertionPosition(d, sel).parent in d
    ensures IsAllowedInParent(d, s, sel, w)
        == CheckChild(d, s, InsertionParent(d, s, w.findOptimalInsertionPosition(d, sel)), "media")
  {
    var parent := w.findOptimalInsertionPosition(d, sel).parent;
    var parent' := if IsEmpty(d, parent) && !IsLimit(d, s, parent) then d[parent].parent.value else parent;
    CheckChild(d, s, parent', "media")
  }

  /** The command's `value`: the `url` attribute of the selected media, or None
      when no media is selected (or the attribute is missing). */
  function SelectedUrl(d: Document, sel: Selection, w: Widgets): (r: Option<string>)
    requires WidgetsSound(w, d, sel)
    ensures !IsMediaSelected(d, sel) ==> r.None?
    ensures IsMediaSelected(d, sel) ==>
              var attributes := d[sel.selectedElement.value].attributes;
              r == if "url" in attributes then Some(attributes["url"]) else None
  {
    match w.getSelectedMediaModelWidget(d, sel)
    case None => None
    case Some(media) =>
      if "url" in d[media].attributes then Some(d[media].attributes["url"]) else None
  }

  /** The command's `isEnabled`: media is selected, or media may be inserted and the
      selection is not on another object. */
  predicate IsEnabled(d: Document, s: Schema, sel: Selection, w: Widgets)
    requires WellFormed(d, s) && SelectionIn(sel, d) && WidgetsSound(w, d, sel)
  {
    IsMediaSelected(d, sel) || (IsAllowedInParent(d, s, sel, w) && !w.checkSelectionOnObject(d, sel, s))
  }

  /** A selected media element enables the command whatever the schema and the
      object check say. */
  lemma EnabledWhenMediaSelected(d: Document, s: Schema, sel: Selection, w: Widgets)
    requires WellFormed(d, s) && SelectionIn(sel, d) && WidgetsSound(w, d, sel)
    requires IsMediaSelected(d, sel)
    ensures IsEnabled(d, s, sel, w)
  {
  }

  /** Without a selected media element the command is enabled exactly when media is
      allowed where it would be inserted and the selection is not on an object. */
  lemma EnabledWithoutMedia(d: Document, s: Schema, sel: Selection, w: Widgets)
    requires WellFormed(d, s) && SelectionIn(sel, d) && WidgetsSound(w, d, sel)
    requires !IsMediaSelected(d, sel)
    ensures IsEnabled(d, s, sel, w)
        <==> IsAllowedInParent(d, s, sel, w) && !w.checkSelectionOnObject(d, sel, s)
  {
  }

  /** The verdict of `isAllowedInParent` is the schema's verdict on the place where
      inserting media at the optimal position actually puts it: the new element's
      parent, in the document after the insertion. */
  lemma InsertionLandsWhereChecked(d: Document, s: Schema, sel: Selection, w: Widgets, id: NodeId, url: string)
    requires WellFormed(d, s) && w.findOptimalInsertionPosition(d, sel).parent in d
    requires forall k | k in d :: k < id
    ensures var r := WithInserted(d, s, w.findOptimalInsertionPosition(d, sel), id, "media", map["url" := url]);
            r[id].parent.Some? && r[id].parent.value in r &&
            (IsAllowedInParent(d, s, sel, w) <==> CheckChild(r, s, r[id].parent.value, "media"))
  {
    var pos := w.findOptimalInsertionPosition(d, sel);
    var r := WithInserted(d, s, pos, id, "media", map["url" := url]);
    InsertionKeepsContext(d, s, pos, id, "media", map["url" := url], InsertionParent(d, s, pos));
  }

  /** Rewriting the `url` of a node changes no answer the enabled check depends on
      for any given node: emptiness, limits, schema contexts and the media test. */
  lemma UrlUpdateKeepsStructure(d: Document, s: Schema, sel: Selection, media: NodeId, url: string, p: NodeId)
    requires WellFormed(d, s) && SelectionIn(sel, d) && media in d && p in d
    ensures var r := WithAttribute(d, media, "url", url);
            && WellFormed(r, s) && SelectionIn(sel, r)
            && (IsEmpty(r, p) <==> IsEmpty(d, p))
            && (IsLimit(r, s, p) <==> IsLimit(d, s, p))
            && (forall child :: CheckChild(r, s, p, child) <==> CheckChild(d, s, p, child))
            && (IsMediaSelected(r, sel) <==> IsMediaSelected(d, sel))
  {
    var r := WithAttribute(d, media, "url", url);
    AttributeChangeKeepsContext(d, media, "url", url, p);
    assert IsEmpty(r, p) <==> IsEmpty(d, p) by {
      forall c | c in d ensures r[c].parent == d[c].parent { }
    }
  }

  /** `insertMedia`: inside one change block, create a media element with the given
      url, insert it at `pos` and put the selection on it. */
  method InsertMedia(model: EditorModel, url: string, pos: Position) returns (media: NodeId)
    requires model.Valid() && pos.parent in model.doc
    modifies model
    ensures model.Valid()
    ensures media == old(model.nextId) && media !in old(model.doc)
    ensures model.doc == WithInserted(old(model.doc), model.schema, pos, media, "media", map["url" := url])
    ensures model.selection == Selection(Some(media), InsertionParent(old(model.doc), model.schema, pos))
  {
    media := model.InsertContent("media", map["url" := url], pos);
    model.SetSelectionOn(media);
  }

  /** A reported value always comes with an enabled command: `value` is only set
      when media is selected, and selected media enables the command. */
  lemma ValueImpliesEnabled(d: Document, s: Schema, sel: Selection, w: Widgets)
    requires WellFormed(d, s) && WidgetsSound(w, d, sel)
    ensures SelectedUrl(d, sel, w).Some? ==> IsMediaSelected(d, sel) && IsEnabled(d, s, sel, w)
  {
  }

  /** Updating the selected media's `url` and refreshing reports the new url, with
      the command still enabled. */
  lemma RefreshAfterUpdate(d: Document, s: Schema, sel: Selection, w: Widgets, url: string)
    requires WellFormed(d, s) && SelectionIn(sel, d) && IsMediaSelected(d, sel)
    ensures var r := WithAttribute(d, sel.selectedElement.value, "url", url);
            WellFormed(r, s) && SelectionIn(sel, r) &&
            (WidgetsSound(w, r, sel) ==> SelectedUrl(r, sel, w) == Some(url) && IsEnabled(r, s, sel, w))
  {
    UrlUpdateKeepsStructure(d, s, sel, sel.selectedElement.value, url, sel.selectedElement.value);
  }

  /** Inserting media and refreshing reports the inserted url, with the command enabled. */
  lemma RefreshAfterInsert(d: Document, s: Schema, w: Widgets, pos: Position, id: NodeId, url: string)
    requires WellFormed(d, s) && pos.parent in d
    requires forall k | k in d :: k < id
    ensures var r := WithInserted(d, s, pos, id, "media", map["url" := url]);
            var sel := Selection(Some(id), InsertionParent(d, s, pos));
            SelectionIn(sel, r) &&
            (WidgetsSound(w, r, sel) ==> SelectedUrl(r, sel, w) == Some(url) && IsEnabled(r, s, sel, w))
  {
    var r := WithInserted(d, s, pos, id, "media", map["url" := url]);
    assert r[id].attributes == map["url" := url];
  }

  /** After media has been inserted and selected, the next refresh finds media
      selected and so enables the command. */
  lemma InsertedMediaIsSelected(d: Document, s: Schema, w: Widgets, pos: Position, id: NodeId, url: string)
    requires WellFormed(d, s) && pos.parent in d
    requires forall k | k in d :: k < id
    ensures var r := WithInserted(d, s, pos, id, "media", map["url" := url]);
            var sel := Selection(Some(id), InsertionParent(d, s, pos));
            SelectionIn(sel, r) && IsMediaSelected(r, sel) &&
            (WidgetsSound(w, r, sel) ==> IsEnabled(r, s, sel, w))
  {
  }

  class MediaEmbedCommand {
    const model: EditorModel
    const widgets: Widgets
    var value: Option<string>
    var isEnabled: bool

    constructor (model: EditorModel, widgets: Widgets)
      ensures this.model == model && this.widgets == widgets
      ensures value == None && !isEnabled
    {
      this.model := model;
      this.widgets := widgets;
      value := None;
      isEnabled := false;
    }

    /** `refresh()`: recompute `value` and `isEnabled` from the model, which it only reads. */
    method Refresh()
      requires model.Valid() && WidgetsSound(widgets, model.doc, model.selection)
      modifies this
      ensures unchanged(model)
      ensures value == SelectedUrl(model.doc, model.selection, widgets)
      ensures isEnabled == IsEnabled(model.doc, model.schema, model.selection, widgets)
    {
      var selectedMedia := widgets.getSelectedMediaModelWidget(model.doc, model.selection);
      value := if selectedMedia.Some? && "url" in model.doc[selectedMedia.value].attributes
               then Some(model.doc[selectedMedia.value].attributes["url"]) else None;
      isEnabled := IsMediaSelected(model.doc, model.selection) ||
                   (IsAllowedInParent(model.doc, model.schema, model.selection, widgets) &&
                    !widgets.checkSelectionOnObject(model.doc, model.selection, model.schema));
    }

    /** `execute(url)`: with media selected, set its `url` in place; otherwise insert
        a new media element at the optimal position and select it. */
    method Execute(url: string)
      requires model.Valid() && WidgetsSound(widgets, model.doc, model.selection)
      modifies model
      ensures model.Valid()
      ensures value == old(value) && isEnabled == old(isEnabled)
      ensures old(IsMediaSelected(model.doc, model.selection)) ==>
                var selected := old(model.selection.selectedElement.value);
                && model.doc.Keys == old(model.doc.Keys)
                && model.doc[selected].name == old(model.doc[selected].name)
                && model.doc[selected].parent == old(model.doc[selected].parent)
                && model.doc[selected].attributes == old(model.doc[selected].attributes)["url" := url]
                && (forall k | k in old(model.doc) && k != selected :: model.doc[k] == old(model.doc[k]))
                && model.selection == old(model.selection)
      ensures var pos := old(widgets.findOptimalInsertionPosition(model.doc, model.selection));
              var media := old(model.nextId);
              !old(IsMediaSelected(model.doc, model.selection)) ==>
                && model.doc == WithInserted(old(model.doc), model.schema, pos, media, "media", map["url" := url])
                && model.selection == Selection(Some(media), InsertionParent(old(model.doc), model.schema, pos))
    {
      var selectedMedia := widgets.getSelectedMediaModelWidget(model.doc, model.selection);
      if selectedMedia.Some? {
        model.SetAttribute("url", url, selectedMedia.value);
      } else {
        var insertPosition := widgets.findOptimalInsertionPosition(model.doc, model.selection);
        var media := InsertMedia(model, url, insertPosition);
      }
    }
  }

  /** Two refreshes in a row, with nothing in between, report the same state. */
  method RefreshTwice(command: MediaEmbedCommand) returns (firstValue: Option<string>, firstEnabled: bool)
    requires command.model.Valid()
    requires WidgetsSound(command.widgets, command.model.doc, command.model.selection)
    modifies command
    ensures unchanged(command.model)
    ensures command.value == firstValue && command.isEnabled == firstEnabled
  {
    command.Refresh();
    firstValue, firstEnabled := command.value, command.isEnabled;
    command.Refresh();
  }

  /** Executing and then refreshing reports the url just written, with the command
      enabled, on both the update and the insertion path. */
  method ExecuteThenRefresh(command: MediaEmbedCommand, url: string)
    requires command.model.Valid() && WidgetsValid(command.widgets)
    modifies command, command.model
    ensures command.model.Valid()
    ensures command.value == Some(url) && command.isEnabled
  {
    var model, w := command.model, command.widgets;
    ghost var d, sel := model.doc, model.selection;
    ghost var media := model.nextId;
    ghost var pos := w.findOptimalInsertionPosition(d, sel);
    command.Execute(url);
    if IsMediaSelected(d, sel) {
      RefreshAfterUpdate(d, model.schema, sel, w, url);
    } else {
      RefreshAfterInsert(d, model.schema, w, pos, media, url);
    }
    command.Refresh();
  }

  /** A schema that allows media only directly in a root, where `$root` is the only limit. */
  function RootOnlySchema(): (s: Schema)
  {
    Schema((ctx: seq<string>, child: string) => child == "media" ==> |ctx| == 1,
           (name: string) => name == "$root")
  }

  /** Insertion helpers that always choose the start of paragraph 1. */
  function InParagraph(): (w: Widgets)
  {
    Widgets((d: Document, sel: Selection) => Position(1, 0),
            (d: Document, sel: Selection, s: Schema) => false,
            (d: Document, sel: Selection) => None)
  }

  /** An empty paragraph is looked through: media is allowed because its root
      parent allows it, although the paragraph itself does not. Once the paragraph
      holds text it is checked itself, and media is refused. */
  lemma EmptyParagraphIsElided()
    ensures var s, w := RootOnlySchema(), InParagraph();
            var root := Node("$root", None, map[]);
            var paragraph := Node("paragraph", Some(0), map[]);
            var empty := map[0 := root, 1 := paragraph];
            var filled := empty[2 := Node("$text", Some(1), map[])];
            var sel := Selection(None, 1);
            && WellFormed(empty, s) && WellFormed(filled, s)
            && !CheckChild(empty, s, 1, "media")
            && IsAllowedInParent(empty, s, sel, w) && IsEnabled(empty, s, sel, w)
            && !IsAllowedInParent(filled, s, sel, w) && !IsEnabled(filled, s, sel, w)
  {
    var s, w := RootOnlySchema(), InParagraph();
    var empty := map[0 := Node("$root", None, map[]), 1 := Node("paragraph", Some(0), map[])];
    var filled := empty[2 := Node("$text", Some(1), map[])];
    assert IsEmpty(empty, 1);
    assert !IsEmpty(filled, 1) by { assert filled[2].parent == Some(1); }
    assert Context(empty, 1) == ["$root", "paragraph"];
  }

  /** An empty paragraph inside a quote is looked through to the quote, and the
      quote is checked even though the root would allow media. The quote holds
      the paragraph, so it is not empty and the test would not elide it again. */
  lemma ElisionWalksOneLevel()
    ensures var s, w := RootOnlySchema(), InParagraph();
            var d := map[0 := Node("$root", None, map[]),
                         3 := Node("blockQuote", Some(0), map[]),
                         4 := Node("paragraph", Some(3), map[])];
            var sel := Selection(None, 4);
            var w' := w.(findOptimalInsertionPosition := (d: Document, sel: Selection) => Position(4, 0));
            && WellFormed(d, s) && CheckChild(d, s, 0, "media")
            && InsertionParent(d, s, Position(4, 0)) == 3
            && !IsAllowedInParent(d, s, sel, w')
  {
    var d := map[0 := Node("$root", None, map[]),
                 3 := Node("blockQuote", Some(0), map[]),
                 4 := Node("paragraph", Some(3), map[])];
    assert IsEmpty(d, 4);
    assert !IsEmpty(d, 3) by { assert d[4].parent == Some(3); }
  }
}
