/** The generic walks over the stored JSON and the typed walk of the renderer collect the same slots. */
module TemplateProofs {
  import opened Common
  import opened CanonicalJson
  import opened StablePrinter
  import opened Placement
  import opened TemplateAst

  // ---------------------------------------------------------------- fields of an object

  lemma {:induction false} FieldAt(entries: seq<Entry>, key: string)
    requires Lookup(entries, key).Some?
    ensures exists i | 0 <= i < |entries| :: entries[i].key == key && Lookup(entries, key) == Some(entries[i].value)
  {
    if entries[0].key != key {
      FieldAt(entries[1..], key);
      var i :| 0 <= i < |entries[1..]| && entries[1..][i].key == key
        && Lookup(entries[1..], key) == Some(entries[1..][i].value);
      assert entries[i + 1].key == key;
    }
  }

  // ---------------------------------------------------------------- values without slots

  lemma {:induction false} ScalarsHaveNoSlots(entries: seq<Entry>, num: Numbers)
    requires forall i | 0 <= i < |entries| :: AllSlots(entries[i].value, num) == []
    ensures ValueSlots(entries, num) == []
  {
    if entries != [] {
      ScalarsHaveNoSlots(entries[1..], num);
    }
  }

  lemma FlatHasNoSlots(v: Json, num: Numbers)
    requires Flat(v)
    ensures AllSlots(v, num) == []
  {
    ScalarsHaveNoSlots(v.entries, num);
  }

  /** Only the entry under `key` holds slots. */
  ghost predicate OnlyUnder(entries: seq<Entry>, key: string, num: Numbers) {
    forall i | 0 <= i < |entries| :: entries[i].key == key || AllSlots(entries[i].value, num) == []
  }

  lemma {:induction false} SlotsUnder(entries: seq<Entry>, key: string, num: Numbers)
    requires DistinctKeys(entries) && OnlyUnder(entries, key, num)
    ensures ValueSlots(entries, num) == match Lookup(entries, key) case Some(v) => AllSlots(v, num) case None => []
  {
    if entries != [] {
      if entries[0].key == key {
        ScalarsHaveNoSlots(entries[1..], num);
      } else {
        SlotsUnder(entries[1..], key, num);
      }
    }
  }

  lemma {:induction false} FieldOf(entries: seq<Entry>, i: nat)
    requires DistinctKeys(entries) && i < |entries|
    ensures Lookup(entries, entries[i].key) == Some(entries[i].value)
  {
    if i > 0 {
      FieldOf(entries[1..], i - 1);
    }
  }

  /** In a strict object whose other fields are scalars only one field can hold slots. */
  lemma StrictUnder(entries: seq<Entry>, keys: set<string>, key: string, num: Numbers)
    requires Strict(entries, keys) && forall k | k in keys && k != key :: Scalar(Lookup(entries, k).value)
    ensures ValueSlots(entries, num) == match Lookup(entries, key) case Some(v) => AllSlots(v, num) case None => []
  {
    forall i | 0 <= i < |entries| && entries[i].key != key
      ensures AllSlots(entries[i].value, num) == []
    {
      FieldOf(entries, i);
      if entries[i].key in keys {
        assert Scalar(entries[i].value);
      } else {
        FlatHasNoSlots(entries[i].value, num);
      }
    }
    SlotsUnder(entries, key, num);
  }

  lemma NoType(entries: seq<Entry>, keys: set<string>)
    requires Strict(entries, keys) && "type" !in keys
    ensures Lookup(entries, "type").None?
  {
    if Lookup(entries, "type").Some? {
      FieldAt(entries, "type");
    }
  }

  // ---------------------------------------------------------------- structural induction

  lemma ColumnHasNoSlots(v: Json, num: Numbers)
    requires v.JObj? && Strict(v.entries, {"header", "variable"})
    requires Scalar(Lookup(v.entries, "header").value) && Scalar(Lookup(v.entries, "variable").value)
    ensures AllSlots(v, num) == []
  {
    NoType(v.entries, {"header", "variable"});
    StrictUnder(v.entries, {"header", "variable"}, "header", num);
  }

  lemma {:induction false} EmptyItems(items: seq<Json>, num: Numbers)
    requires forall i | 0 <= i < |items| :: AllSlots(items[i], num) == []
    ensures ItemSlots(items, num) == []
  {
    if items != [] {
      EmptyItems(items[1..], num);
    }
  }

  lemma ColumnsHaveNoSlots(v: Json, columns: seq<Column>, num: Numbers)
    requires ColumnsReadAs(v, columns)
    ensures AllSlots(v, num) == []
  {
    forall i | 0 <= i < |v.items|
      ensures AllSlots(v.items[i], num) == []
    {
      ColumnHasNoSlots(v.items[i], num);
    }
    EmptyItems(v.items, num);
  }

  lemma LeafAgrees(v: Json, n: Node, num: Numbers)
    requires ReadsAs(v, n, num)
    requires n.Text? || n.Variable? || n.Image? || n.PageBreak? || n.SignatureSlot? || n.LoopTable?
    ensures AllSlots(v, num) == NodeSlots(n)
  {
    match n
    case Text(_) => StrictUnder(v.entries, {"type", "text"}, "type", num);
    case Variable(_) => StrictUnder(v.entries, {"type", "key"}, "type", num);
    case Image(_, _) => StrictUnder(v.entries, {"type", "source", "alt"}, "type", num);
    case PageBreak => StrictUnder(v.entries, {"type"}, "type", num);
    case LoopTable(columns) =>
      StrictUnder(v.entries, {"type", "source", "columns"}, "columns", num);
      FieldAt(v.entries, "columns");
      ColumnsHaveNoSlots(Lookup(v.entries, "columns").value, columns, num);
    case SignatureSlot(slot) => SlotAgrees(v, n, num);
  }

  lemma SlotAgrees(v: Json, n: Node, num: Numbers)
    requires ReadsAs(v, n, num) && n.SignatureSlot?
    ensures AllSlots(v, num) == [n.slot]
  {
    var keys := {"type", "slotId", "signer", "page", "x", "y", "width", "height", "required"};
    forall k | k in keys
      ensures Scalar(Lookup(v.entries, k).value)
    {
      FieldAt(v.entries, k);
    }
    StrictUnder(v.entries, keys, "type", num);
  }

  /** The field under `key`, one of the entries, is smaller than its object. */
  lemma FieldBelow(v: Json, key: string)
    requires v.JObj? && Lookup(v.entries, key).Some?
    ensures Lookup(v.entries, key).value < v
    ensures exists i | 0 <= i < |v.entries| ::
      v.entries[i].key == key && Lookup(v.entries, key) == Some(v.entries[i].value)
  {
    FieldAt(v.entries, key);
    var i :| 0 <= i < |v.entries| && v.entries[i].key == key && Lookup(v.entries, key) == Some(v.entries[i].value);
    assert v.entries[i].value < v;
  }

  lemma HeadingUnder(v: Json, n: Node, num: Numbers)
    requires ReadsAs(v, n, num) && n.Heading?
    ensures Lookup(v.entries, "children").Some?
    ensures AllSlots(v, num) == AllSlots(Lookup(v.entries, "children").value, num)
    ensures ListReadsAs(Lookup(v.entries, "children").value, n.children, num) && Lookup(v.entries, "children").value < v
  {
    StrictUnder(v.entries, {"type", "level", "children"}, "children", num);
    FieldBelow(v, "children");
  }

  lemma ParagraphUnder(v: Json, n: Node, num: Numbers)
    requires ReadsAs(v, n, num) && n.Paragraph?
    ensures Lookup(v.entries, "children").Some?
    ensures AllSlots(v, num) == AllSlots(Lookup(v.entries, "children").value, num)
    ensures ListReadsAs(Lookup(v.entries, "children").value, n.children, num) && Lookup(v.entries, "children").value < v
  {
    StrictUnder(v.entries, {"type", "children"}, "children", num);
    FieldBelow(v, "children");
  }

  lemma TableUnder(v: Json, n: Node, num: Numbers)
    requires ReadsAs(v, n, num) && n.Table?
    ensures Lookup(v.entries, "rows").Some? && AllSlots(v, num) == AllSlots(Lookup(v.entries, "rows").value, num)
    ensures RowsReadAs(Lookup(v.entries, "rows").value, n.rows, num) && Lookup(v.entries, "rows").value < v
  {
    StrictUnder(v.entries, {"type", "rows"}, "rows", num);
    FieldBelow(v, "rows");
  }

  lemma {:induction false} NodeAgrees(v: Json, n: Node, num: Numbers)
    requires ReadsAs(v, n, num)
    ensures AllSlots(v, num) == NodeSlots(n)
    decreases v, 0
  {
    match n
    case Heading(_, children) =>
      HeadingUnder(v, n, num);
      ListAgrees(Lookup(v.entries, "children").value, children, num);
    case Paragraph(children) =>
      ParagraphUnder(v, n, num);
      ListAgrees(Lookup(v.entries, "children").value, children, num);
    case Table(rows) =>
      TableUnder(v, n, num);
      RowsAgree(Lookup(v.entries, "rows").value, rows, num);
    case _ => LeafAgrees(v, n, num);
  }

  lemma {:induction false} ItemsAgree(items: seq<Json>, nodes: seq<Node>, num: Numbers)
    requires |items| == |nodes| && forall i | 0 <= i < |nodes| :: ReadsAs(items[i], nodes[i], num)
    ensures ItemSlots(items, num) == NodesSlots(nodes)
    decreases items, 1
  {
    if items != [] {
      NodeAgrees(items[0], nodes[0], num);
      ItemsAgree(items[1..], nodes[1..], num);
    }
  }

  lemma {:induction false} ListAgrees(v: Json, nodes: seq<Node>, num: Numbers)
    requires ListReadsAs(v, nodes, num)
    ensures AllSlots(v, num) == NodesSlots(nodes)
    decreases v, 1
  {
    ItemsAgree(v.items, nodes, num);
  }

  lemma {:induction false} CellAgrees(v: Json, cell: Cell, num: Numbers)
    requires CellReadsAs(v, cell, num)
    ensures AllSlots(v, num) == NodesSlots(cell.children)
    decreases v, 2
  {
    NoType(v.entries, {"children"});
    StrictUnder(v.entries, {"children"}, "children", num);
    FieldBelow(v, "children");
    ListAgrees(Lookup(v.entries, "children").value, cell.children, num);
  }

  lemma {:induction false} CellsAgree(items: seq<Json>, cells: seq<Cell>, num: Numbers)
    requires |items| == |cells| && forall i | 0 <= i < |cells| :: CellReadsAs(items[i], cells[i], num)
    ensures ItemSlots(items, num) == CellsSlots(cells)
    decreases items, 3
  {
    if items != [] {
      CellAgrees(items[0], cells[0], num);
      CellsAgree(items[1..], cells[1..], num);
    }
  }

  lemma {:induction false} RowItemsAgree(items: seq<Json>, rows: seq<Row>, num: Numbers)
    requires |items| == |rows| && forall i | 0 <= i < |rows| :: RowReadsAs(items[i], rows[i], num)
    ensures ItemSlots(items, num) == RowsSlots(rows)
    decreases items, 4
  {
    if items != [] {
      CellsAgree(items[0].items, rows[0].cells, num);
      RowItemsAgree(items[1..], rows[1..], num);
    }
  }

  lemma {:induction false} RowsAgree(v: Json, rows: seq<Row>, num: Numbers)
    requires RowsReadAs(v, rows, num)
    ensures AllSlots(v, num) == RowsSlots(rows)
    decreases v, 4
  {
    RowItemsAgree(v.items, rows, num);
  }

  // ---------------------------------------------------------------- the page

  function Part(entries: seq<Entry>, key: string, num: Numbers): seq<Slot> {
    match Lookup(entries, key) case Some(v) => AllSlots(v, num) case None => []
  }

  /** Slots under three keys, whatever their order in the object. */
  lemma {:induction false} SlotsUnderThree(entries: seq<Entry>, a: string, b: string, c: string, num: Numbers)
    requires DistinctKeys(entries) && a != b && b != c && a != c
    requires forall i | 0 <= i < |entries| :: entries[i].key in {a, b, c} || AllSlots(entries[i].value, num) == []
    ensures multiset(ValueSlots(entries, num))
      == multiset(Part(entries, a, num)) + multiset(Part(entries, b, num)) + multiset(Part(entries, c, num))
  {
    if entries != [] {
      var first, rest := entries[0], entries[1..];
      SlotsUnderThree(rest, a, b, c, num);
      if Lookup(rest, first.key).Some? {
        FieldAt(rest, first.key);
      }
    }
  }

  lemma PartAgrees(v: Json, key: string, nodes: seq<Node>, num: Numbers)
    requires v.JObj? && OptionalReadsAs(v.entries, key, nodes, num)
    ensures Part(v.entries, key, num) == NodesSlots(nodes)
  {
    if Lookup(v.entries, key).Some? {
      FieldBelow(v, key);
      ListAgrees(Lookup(v.entries, key).value, nodes, num);
    }
  }

  ghost predicate PageKeys(entries: seq<Entry>) {
    && DistinctKeys(entries) && Lookup(entries, "type") == Some(JStr("page"))
    && forall i | 0 <= i < |entries| ::
         || entries[i].key in {"type", "children", "header", "footer"}
         || (entries[i].key == "styles" && Flat(entries[i].value))
  }

  lemma PageParts(v: Json, num: Numbers)
    requires v.JObj? && PageKeys(v.entries)
    ensures multiset(AllSlots(v, num)) == multiset(Part(v.entries, "children", num))
      + multiset(Part(v.entries, "header", num)) + multiset(Part(v.entries, "footer", num))
  {
    forall i | 0 <= i < |v.entries| && v.entries[i].key !in {"children", "header", "footer"}
      ensures AllSlots(v.entries[i].value, num) == []
    {
      FieldOf(v.entries, i);
      if v.entries[i].key != "type" {
        FlatHasNoSlots(v.entries[i].value, num);
      }
    }
    SlotsUnderThree(v.entries, "children", "header", "footer", num);
  }

  /** The API's walk over all values of the stored template finds exactly the slots the renderer's typed walk visits. */
  lemma WalksAgree(v: Json, ast: Ast, num: Numbers)
    requires AstReadsAs(v, ast, num)
    ensures multiset(AllSlots(v, num)) == multiset(AstSlots(ast))
  {
    PageParts(v, num);
    PartAgrees(v, "children", ast.children, num);
    PartAgrees(v, "header", ast.header, num);
    PartAgrees(v, "footer", ast.footer, num);
  }

  // ---------------------------------------------------------------- required slots

  lemma {:induction false} RequiredConcat(a: seq<Slot>, b: seq<Slot>)
    ensures Required(a + b) == Required(a) + Required(b)
    decreases a
  {
    if a == [] {
      assert a + b == b;
    } else {
      assert (a + b)[1..] == a[1..] + b;
      RequiredConcat(a[1..], b);
    }
  }

  /** The finalizer's walk finds the required ones among the API's. */
  lemma {:induction false} FinalizerWalk(v: Json, num: Numbers)
    ensures RequiredSlots(v, num) == Required(AllSlots(v, num))
    decreases v, 0
  {
    match v
    case JArr(items) => FinalizerItems(items, num);
    case JObj(entries) =>
      FinalizerValues(entries, num);
      RequiredConcat(if IsSlotObject(entries) then [SlotFrom(entries, num)] else [], ValueSlots(entries, num));
    case _ =>
  }

  lemma {:induction false} FinalizerItems(items: seq<Json>, num: Numbers)
    ensures ItemRequired(items, num) == Required(ItemSlots(items, num))
    decreases items, 1
  {
    if items != [] {
      FinalizerWalk(items[0], num);
      FinalizerItems(items[1..], num);
      RequiredConcat(AllSlots(items[0], num), ItemSlots(items[1..], num));
    }
  }

  lemma {:induction false} FinalizerValues(entries: seq<Entry>, num: Numbers)
    ensures ValueRequired(entries, num) == Required(ValueSlots(entries, num))
    decreases entries, 1
  {
    if entries != [] {
      FinalizerWalk(entries[0].value, num);
      FinalizerValues(entries[1..], num);
      RequiredConcat(AllSlots(entries[0].value, num), ValueSlots(entries[1..], num));
    }
  }

  /** How often a slot is asked for depends only on how often it occurs. */
  lemma {:induction false} RequiredCounts(slots: seq<Slot>)
    ensures forall s :: multiset(Required(slots))[s] == if s.required then multiset(slots)[s] else 0
  {
    if slots != [] {
      RequiredCounts(slots[1..]);
      assert slots == [slots[0]] + slots[1..];
    }
  }

  /** All three walks agree on the required slots. */
  lemma RequiredWalksAgree(v: Json, ast: Ast, num: Numbers)
    requires AstReadsAs(v, ast, num)
    ensures multiset(RequiredSlots(v, num)) == multiset(Required(AstSlots(ast)))
    ensures multiset(Required(AllSlots(v, num))) == multiset(Required(AstSlots(ast)))
  {
    WalksAgree(v, ast, num);
    FinalizerWalk(v, num);
    RequiredCounts(AllSlots(v, num));
    RequiredCounts(AstSlots(ast));
    assert forall s :: multiset(Required(AllSlots(v, num)))[s] == multiset(Required(AstSlots(ast)))[s];
  }
}
