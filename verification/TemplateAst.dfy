/**
 The template AST: its typed nodes, the strict schema that relates them to stored JSON, and the traversals that
 collect the signature slots from either form. Styles are scalars without a type; only the page margins matter.
 */
module TemplateAst {
  import opened Common
  import opened CanonicalJson
  import opened StablePrinter
  import opened Placement

  datatype Node =
    | Text(text: string)
    | Variable(key: string)
    | Heading(level: string, children: seq<Node>)
    | Paragraph(children: seq<Node>)
    | Image(source: string, alt: string)
    | Table(rows: seq<Row>)
    | LoopTable(columns: seq<Column>)
    | SignatureSlot(slot: Slot)
    | PageBreak

  datatype Row = Row(cells: seq<Cell>)
  datatype Cell = Cell(children: seq<Node>)
  datatype Column = Column(header: string, variable: string)

  datatype Margins = Margins(left: real, right: real, top: real, bottom: real)

  datatype Ast = Ast(children: seq<Node>, header: seq<Node>, footer: seq<Node>, margins: Margins)

  // ---------------------------------------------------------------- the typed traversal

  function NodesSlots(nodes: seq<Node>): seq<Slot>
    decreases nodes, 1
  {
    if nodes == [] then [] else NodeSlots(nodes[0]) + NodesSlots(nodes[1..])
  }

  function NodeSlots(n: Node): seq<Slot>
    decreases n, 0
  {
    match n
    case Heading(_, children) => NodesSlots(children)
    case Paragraph(children) => NodesSlots(children)
    case Table(rows) => RowsSlots(rows)
    case SignatureSlot(slot) => [slot]
    case _ => []
  }

  function RowsSlots(rows: seq<Row>): seq<Slot>
    decreases rows, 3
  {
    if rows == [] then [] else CellsSlots(rows[0].cells) + RowsSlots(rows[1..])
  }

  function CellsSlots(cells: seq<Cell>): seq<Slot>
    decreases cells, 2
  {
    if cells == [] then [] else NodesSlots(cells[0].children) + CellsSlots(cells[1..])
  }

  function AstSlots(ast: Ast): seq<Slot> {
    NodesSlots(ast.children) + NodesSlots(ast.header) + NodesSlots(ast.footer)
  }

  // ---------------------------------------------------------------- the generic traversal

  /** How a number token of the stored JSON reads. */
  type Numbers = string -> real

  function NumberAt(entries: seq<Entry>, key: string, num: Numbers): real {
    match Lookup(entries, key) case Some(JNum(token)) => num(token) case _ => 0.0
  }

  function TextAt(entries: seq<Entry>, key: string): string {
    match Lookup(entries, key) case Some(JStr(s)) => s case _ => ""
  }

  function PageAt(entries: seq<Entry>, num: Numbers): nat {
    var page := NumberAt(entries, "page", num).Floor; if page >= 0 then page else 0
  }

  function SlotFrom(entries: seq<Entry>, num: Numbers): Slot {
    Slot(TextAt(entries, "slotId"), PageAt(entries, num), NumberAt(entries, "x", num), NumberAt(entries, "y", num),
         NumberAt(entries, "width", num), NumberAt(entries, "height", num),
         Lookup(entries, "required") == Some(JBool(true)))
  }

  predicate IsSlotObject(entries: seq<Entry>) {
    Lookup(entries, "type") == Some(JStr("signatureSlot")) && Lookup(entries, "signer") == Some(JStr("PARTY_A"))
  }

  /** `signatureSlots` of the API: every array element and every object value, whatever its key. */
  function AllSlots(v: Json, num: Numbers): seq<Slot>
    decreases v, 0
  {
    match v
    case JArr(items) => ItemSlots(items, num)
    case JObj(entries) => (if IsSlotObject(entries) then [SlotFrom(entries, num)] else []) + ValueSlots(entries, num)
    case _ => []
  }

  function ItemSlots(items: seq<Json>, num: Numbers): seq<Slot>
    decreases items, 1
  {
    if items == [] then [] else AllSlots(items[0], num) + ItemSlots(items[1..], num)
  }

  function ValueSlots(entries: seq<Entry>, num: Numbers): seq<Slot>
    decreases entries, 1
  {
    if entries == [] then [] else AllSlots(entries[0].value, num) + ValueSlots(entries[1..], num)
  }

  /** `slots` of the finalizer: the same walk, pushing required slots only. */
  function RequiredSlots(v: Json, num: Numbers): seq<Slot>
    decreases v, 0
  {
    match v
    case JArr(items) => ItemRequired(items, num)
    case JObj(entries) =>
      (if IsSlotObject(entries) && SlotFrom(entries, num).required then [SlotFrom(entries, num)] else [])
        + ValueRequired(entries, num)
    case _ => []
  }

  function ItemRequired(items: seq<Json>, num: Numbers): seq<Slot>
    decreases items, 1
  {
    if items == [] then [] else RequiredSlots(items[0], num) + ItemRequired(items[1..], num)
  }

  function ValueRequired(entries: seq<Entry>, num: Numbers): seq<Slot>
    decreases entries, 1
  {
    if entries == [] then [] else RequiredSlots(entries[0].value, num) + ValueRequired(entries[1..], num)
  }

  // ---------------------------------------------------------------- the strict schema

  predicate Scalar(v: Json) { !v.JArr? && !v.JObj? }

  /** An object without a `type` whose values are scalars, as every `styles` is. */
  ghost predicate Flat(v: Json) {
    v.JObj? && Lookup(v.entries, "type").None? && forall i | 0 <= i < |v.entries| :: Scalar(v.entries[i].value)
  }

  /** An object with exactly the given keys, `styles` being optional and flat. */
  ghost predicate Strict(entries: seq<Entry>, keys: set<string>) {
    && DistinctKeys(entries)
    && (forall k | k in keys :: Lookup(entries, k).Some?)
    && (forall i | 0 <= i < |entries| ::
          entries[i].key in keys || (entries[i].key == "styles" && Flat(entries[i].value)))
  }

  ghost predicate Scalars(entries: seq<Entry>, keys: set<string>) {
    forall i | 0 <= i < |entries| :: entries[i].key in keys ==> Scalar(entries[i].value)
  }

  /** The schema accepts the JSON value as this node; entries may stand in any order. */
  ghost predicate ReadsAs(v: Json, n: Node, num: Numbers)
    decreases v, 0
  {
    v.JObj? && match n
      case Text(text) =>
        Strict(v.entries, {"type", "text"}) && Lookup(v.entries, "type") == Some(JStr("text"))
          && Lookup(v.entries, "text") == Some(JStr(text))
      case Variable(key) =>
        Strict(v.entries, {"type", "key"}) && Lookup(v.entries, "type") == Some(JStr("variable"))
          && Lookup(v.entries, "key") == Some(JStr(key))
      case Heading(level, children) =>
        && Strict(v.entries, {"type", "level", "children"}) && Lookup(v.entries, "type") == Some(JStr("heading"))
        && Lookup(v.entries, "level") == Some(JNum(level))
        && forall i | 0 <= i < |v.entries| && v.entries[i].key == "children" ::
             ListReadsAs(v.entries[i].value, children, num)
      case Paragraph(children) =>
        && Strict(v.entries, {"type", "children"}) && Lookup(v.entries, "type") == Some(JStr("paragraph"))
        && forall i | 0 <= i < |v.entries| && v.entries[i].key == "children" ::
             ListReadsAs(v.entries[i].value, children, num)
      case Image(source, alt) =>
        && Strict(v.entries, {"type", "source", "alt"}) && Lookup(v.entries, "type") == Some(JStr("image"))
        && Lookup(v.entries, "source") == Some(JStr(source)) && Lookup(v.entries, "alt") == Some(JStr(alt))
      case Table(rows) =>
        && Strict(v.entries, {"type", "rows"}) && Lookup(v.entries, "type") == Some(JStr("table"))
        && forall i | 0 <= i < |v.entries| && v.entries[i].key == "rows" :: RowsReadAs(v.entries[i].value, rows, num)
      case LoopTable(columns) =>
        && Strict(v.entries, {"type", "source", "columns"}) && Lookup(v.entries, "type") == Some(JStr("loopTable"))
        && Lookup(v.entries, "source") == Some(JStr("materials"))
        && forall i | 0 <= i < |v.entries| && v.entries[i].key == "columns" ::
             ColumnsReadAs(v.entries[i].value, columns)
      case SignatureSlot(slot) =>
        && Strict(v.entries, {"type", "slotId", "signer", "page", "x", "y", "width", "height", "required"})
        && Scalars(v.entries, {"type", "slotId", "signer", "page", "x", "y", "width", "height", "required"})
        && IsSlotObject(v.entries) && SlotFrom(v.entries, num) == slot
      case PageBreak => Strict(v.entries, {"type"}) && Lookup(v.entries, "type") == Some(JStr("pageBreak"))
  }

  ghost predicate ListReadsAs(v: Json, nodes: seq<Node>, num: Numbers)
    decreases v, 1
  {
    v.JArr? && |v.items| == |nodes| && forall i | 0 <= i < |nodes| :: ReadsAs(v.items[i], nodes[i], num)
  }

  ghost predicate CellReadsAs(v: Json, cell: Cell, num: Numbers)
    decreases v, 2
  {
    && v.JObj? && Strict(v.entries, {"children"})
    && forall i | 0 <= i < |v.entries| && v.entries[i].key == "children" ::
         ListReadsAs(v.entries[i].value, cell.children, num)
  }

  ghost predicate RowReadsAs(v: Json, row: Row, num: Numbers)
    decreases v, 3
  {
    v.JArr? && |v.items| == |row.cells| && forall i | 0 <= i < |row.cells| :: CellReadsAs(v.items[i], row.cells[i], num)
  }

  ghost predicate RowsReadAs(v: Json, rows: seq<Row>, num: Numbers)
    decreases v, 4
  {
    v.JArr? && |v.items| == |rows| && forall i | 0 <= i < |rows| :: RowReadsAs(v.items[i], rows[i], num)
  }

  ghost predicate ColumnsReadAs(v: Json, columns: seq<Column>) {
    v.JArr? && |v.items| == |columns| && forall i | 0 <= i < |columns| ::
      && v.items[i].JObj? && Strict(v.items[i].entries, {"header", "variable"})
      && Lookup(v.items[i].entries, "header") == Some(JStr(columns[i].header))
      && Lookup(v.items[i].entries, "variable") == Some(JStr(columns[i].variable))
  }

  ghost predicate OptionalReadsAs(entries: seq<Entry>, key: string, nodes: seq<Node>, num: Numbers) {
    && (Lookup(entries, key).None? ==> nodes == [])
    && forall i | 0 <= i < |entries| && entries[i].key == key :: ListReadsAs(entries[i].value, nodes, num)
  }

  /** The page margins among the styles of the page; a missing one is zero. */
  function MarginsFrom(entries: seq<Entry>, num: Numbers): Margins {
    match Lookup(entries, "styles")
    case Some(JObj(styles)) =>
      Margins(NumberAt(styles, "marginLeft", num), NumberAt(styles, "marginRight", num),
              NumberAt(styles, "marginTop", num), NumberAt(styles, "marginBottom", num))
    case _ => Margins(0.0, 0.0, 0.0, 0.0)
  }

  ghost predicate AstReadsAs(v: Json, ast: Ast, num: Numbers) {
    && v.JObj? && DistinctKeys(v.entries) && Lookup(v.entries, "type") == Some(JStr("page"))
    && Lookup(v.entries, "children").Some?
    && (forall i | 0 <= i < |v.entries| ::
          || v.entries[i].key in {"type", "children", "header", "footer"}
          || (v.entries[i].key == "styles" && Flat(v.entries[i].value)))
    && OptionalReadsAs(v.entries, "children", ast.children, num)
    && OptionalReadsAs(v.entries, "header", ast.header, num)
    && OptionalReadsAs(v.entries, "footer", ast.footer, num)
    && ast.margins == MarginsFrom(v.entries, num)
  }
}
