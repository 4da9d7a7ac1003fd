/** The part of the editing engine's model that the media embed command reads and
    changes: a tree of named nodes with attributes, a schema that is only ever
    queried, the document selection, and the two writer operations the command
    uses (setting an attribute, inserting content and selecting it). */
module Engine {

  type NodeId = nat

  datatype Option<T> = None | Some(value: T)

  /** A model node: its name (`'paragraph'`, `'media'`, `'$root'`, `'$text'`, ...),
      a link to its parent (None for a root) and its attributes. */
  datatype Node = Node(name: string, parent: Option<NodeId>, attributes: map<string, string>)

  /** The document: every node by identity. */
  type Document = map<NodeId, Node>

  /** A place in the tree: the parent node and an offset among its children. */
  datatype Position = Position(parent: NodeId, offset: nat)

  /** The document selection: the fully selected element, if there is one, and the
      node that holds the selection's focus. */
  datatype Selection = Selection(selectedElement: Option<NodeId>, focusParent: NodeId)

  /** The schema as the two queries the command makes of it. `checkChild` is asked
      about a context, the names of a node's ancestors from the root down to the
      node itself; `isLimit` is looked up by the node's name. */
  datatype Schema = Schema(checkChild: (seq<string>, string) -> bool, isLimit: string -> bool)

  /** Every parent link stays inside the document and points to a node with a smaller
      identity, so following parents always ends at a root. */
  predicate IsTree(d: Document)
  {
    forall id | id in d :: d[id].parent.Some? ==> d[id].parent.value in d && d[id].parent.value < id
  }

  /** A root is always a limit element (the schema registers `$root` as one). */
  predicate RootsAreLimits(d: Document, s: Schema)
  {
    forall id | id in d :: d[id].parent.None? ==> s.isLimit(d[id].name)
  }

  predicate WellFormed(d: Document, s: Schema)
  {
    IsTree(d) && RootsAreLimits(d, s)
  }

  predicate SelectionIn(sel: Selection, d: Document)
  {
    (sel.selectedElement.Some? ==> sel.selectedElement.value in d) && sel.focusParent in d
  }

  /** The schema context of a node: the names on the path from its root to the node. */
  function Context(d: Document, id: NodeId): (ctx: seq<string>)
    requires IsTree(d) && id in d
    ensures |ctx| > 0 && ctx[|ctx| - 1] == d[id].name
    ensures |ctx| == 1 <==> d[id].parent.None?
    decreases id
  {
    match d[id].parent
    case None => [d[id].name]
    case Some(p) => Context(d, p) + [d[id].name]
  }

  /** An element is empty when it has no children. */
  predicate IsEmpty(d: Document, id: NodeId)
  {
    forall c | c in d :: d[c].parent != Some(id)
  }

  predicate IsLimit(d: Document, s: Schema, id: NodeId)
    requires id in d
  {
    s.isLimit(d[id].name)
  }

  /** Whether the schema allows an element named `child` directly inside node `id`. */
  predicate CheckChild(d: Document, s: Schema, id: NodeId, child: string)
    requires IsTree(d) && id in d
  {
    s.checkChild(Context(d, id), child)
  }

  /** The node that receives a block element inserted at `pos`: content insertion
      removes an empty parent unless it is a limit (a root is one), and the element
      then takes that parent's place one level up. That node has the removed parent
      as a child, so it is never itself an empty non-limit: repeating the test
      would stop at the same node. */
  function InsertionParent(d: Document, s: Schema, pos: Position): (t: NodeId)
    requires WellFormed(d, s) && pos.parent in d
    ensures t in d
    ensures t != pos.parent <==> IsEmpty(d, pos.parent) && !IsLimit(d, s, pos.parent)
    ensures t != pos.parent ==> d[pos.parent].parent == Some(t)
    ensures !(IsEmpty(d, t) && !IsLimit(d, s, t))
  {
    if IsEmpty(d, pos.parent) && !IsLimit(d, s, pos.parent) then
      var t := d[pos.parent].parent.value;
      assert !IsEmpty(d, t) by { assert d[pos.parent].parent == Some(t); }
      t
    else pos.parent
  }

  /** The document after inserting a new element `id` at `pos`: the element hangs
      under InsertionParent, and the position's parent is gone when it was elided. */
  function WithInserted(d: Document, s: Schema, pos: Position, id: NodeId, name: string,
                        attributes: map<string, string>): (r: Document)
    requires WellFormed(d, s) && pos.parent in d
    requires forall k | k in d :: k < id
    ensures WellFormed(r, s)
    ensures r.Keys == if InsertionParent(d, s, pos) == pos.parent then d.Keys + {id}
                      else d.Keys - {pos.parent} + {id}
    ensures r[id] == Node(name, Some(InsertionParent(d, s, pos)), attributes)
    ensures forall k | k in d && k in r :: r[k] == d[k]
  {
    var t := InsertionParent(d, s, pos);
    var kept := if t == pos.parent then d else d - {pos.parent};
    kept[id := Node(name, Some(t), attributes)]
  }

  /** The document after setting attribute `key` of node `item` to `value`. */
  function WithAttribute(d: Document, item: NodeId, key: string, value: string): (r: Document)
    requires item in d
    ensures r.Keys == d.Keys
    ensures r[item].name == d[item].name && r[item].parent == d[item].parent
    ensures r[item].attributes == d[item].attributes[key := value]
    ensures forall k | k in d && k != item :: r[k] == d[k]
  {
    d[item := d[item].(attributes := d[item].attributes[key := value])]
  }

  /** Inserting an element changes the context of no node that was already there. */
  lemma {:induction false} InsertionKeepsContext(d: Document, s: Schema, pos: Position, id: NodeId,
                                                 name: string, attributes: map<string, string>, k: NodeId)
    requires WellFormed(d, s) && pos.parent in d
    requires forall j | j in d :: j < id
    requires k in d && k in WithInserted(d, s, pos, id, name, attributes)
    ensures Context(WithInserted(d, s, pos, id, name, attributes), k) == Context(d, k)
    decreases k
  {
    var r := WithInserted(d, s, pos, id, name, attributes);
    if d[k].parent.Some? {
      var p := d[k].parent.value;
      assert r[k] == d[k];
      InsertionKeepsContext(d, s, pos, id, name, attributes, p);
    }
  }

  /** The new element's context is the receiving node's context followed by its own name. */
  lemma NewElementContext(d: Document, s: Schema, pos: Position, id: NodeId,
                          name: string, attributes: map<string, string>)
    requires WellFormed(d, s) && pos.parent in d
    requires forall j | j in d :: j < id
    ensures Context(WithInserted(d, s, pos, id, name, attributes), id)
         == Context(d, InsertionParent(d, s, pos)) + [name]
  {
    InsertionKeepsContext(d, s, pos, id, name, attributes, InsertionParent(d, s, pos));
  }

  /** Setting an attribute keeps the tree, and with it every node's context. */
  lemma {:induction false} AttributeChangeKeepsContext(d: Document, item: NodeId, key: string,
                                                       value: string, k: NodeId)
    requires IsTree(d) && item in d && k in d
    ensures IsTree(WithAttribute(d, item, key, value))
    ensures Context(WithAttribute(d, item, key, value), k) == Context(d, k)
    decreases k
  {
    var r := WithAttribute(d, item, key, value);
    assert IsTree(r) by {
      forall j | j in r ensures r[j].parent == d[j].parent { }
    }
    if d[k].parent.Some? {
      AttributeChangeKeepsContext(d, item, key, value, d[k].parent.value);
    }
  }

  /** The editing model: the document, its selection, its schema and the source of
      fresh node identities. Methods stand for the writer operations inside one
      `model.change()` block. */
  class EditorModel {
    var doc: Document
    var selection: Selection
    var nextId: NodeId
    const schema: Schema

    /** The document is a well-formed tree whose identities are all below nextId. */
    ghost predicate StructureValid()
      reads this
    {
      WellFormed(doc, schema) && forall k | k in doc :: k < nextId
    }

    ghost predicate Valid()
      reads this
    {
      StructureValid() && SelectionIn(selection, doc)
    }

    constructor (doc: Document, selection: Selection, schema: Schema, nextId: NodeId)
      requires WellFormed(doc, schema) && SelectionIn(selection, doc)
      requires forall k | k in doc :: k < nextId
      ensures Valid()
      ensures this.doc == doc && this.selection == selection && this.schema == schema && this.nextId == nextId
    {
      this.doc := doc;
      this.selection := selection;
      this.schema := schema;
      this.nextId := nextId;
    }

    /** `writer.setAttribute(key, value, item)`. */
    method SetAttribute(key: string, value: string, item: NodeId)
      requires Valid() && item in doc
      modifies this
      ensures Valid()
      ensures doc == WithAttribute(old(doc), item, key, value)
      ensures selection == old(selection) && nextId == old(nextId)
    {
      forall k | k in doc ensures IsTree(WithAttribute(doc, item, key, value)) {
        AttributeChangeKeepsContext(doc, item, key, value, k);
      }
      doc := WithAttribute(doc, item, key, value);
    }

    /** `model.insertContent(element, pos)` for a new element named `name`; the
        selection is left to the caller, since its focus may lie in a removed node. */
    method InsertContent(name: string, attributes: map<string, string>, pos: Position) returns (id: NodeId)
      requires StructureValid() && pos.parent in doc
      modifies this
      ensures StructureValid()
      ensures id == old(nextId) && id !in old(doc) && nextId == id + 1
      ensures doc == WithInserted(old(doc), schema, pos, id, name, attributes)
      ensures selection == old(selection)
    {
      id := nextId;
      doc := WithInserted(doc, schema, pos, id, name, attributes);
      nextId := id + 1;
    }

    /** `writer.setSelection(element, 'on')`: the selection covers exactly `element`. */
    method SetSelectionOn(element: NodeId)
      requires StructureValid() && element in doc && doc[element].parent.Some?
      modifies this
      ensures doc == old(doc) && nextId == old(nextId)
      ensures Valid()
      ensures selection == Selection(Some(element), doc[element].parent.value)
    {
      selection := Selection(Some(element), doc[element].parent.value);
    }
  }
}
