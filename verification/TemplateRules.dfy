/**
 What the publish validator asks of a template: its requirement versions, its margins, every node on its place, distinct
 slots inside existing pages, and in a published one a required signature and no required field left unused.
 */
module TemplateRules {
  import opened Common
  import opened Placement
  import opened PlacementFacts
  import opened TemplateAst
  import opened TemplateProofs

  const PAGE_WIDTH: real := 595.0
  const PAGE_HEIGHT: real := 842.0
  const AUTHORIZATION: string := "authorization_letter"
  const BUILTIN_VARIABLES: set<string> := {"customer_name", "contact_name", "factory_department", "case_number"}
  const MATERIAL_VARIABLES: set<string> :=
    {"name", "specification", "quantity", "material", "craft", "optionalPrice"}

  // ---------------------------------------------------------------- the walk

  /** Every node, in the order the validator visits them. */
  function NodesBelow(nodes: seq<Node>): seq<Node>
    decreases nodes, 2
  {
    if nodes == [] then [] else NodeBelow(nodes[0]) + NodesBelow(nodes[1..])
  }

  function NodeBelow(n: Node): seq<Node>
    decreases n, 1
  {
    [n] + Inside(n)
  }

  function Inside(n: Node): seq<Node>
    decreases n, 0
  {
    match n
    case Heading(_, children) => NodesBelow(children)
    case Paragraph(children) => NodesBelow(children)
    case Table(rows) => RowsBelow(rows)
    case _ => []
  }

  function RowsBelow(rows: seq<Row>): seq<Node>
    decreases rows, 4
  {
    if rows == [] then [] else CellsBelow(rows[0].cells) + RowsBelow(rows[1..])
  }

  function CellsBelow(cells: seq<Cell>): seq<Node>
    decreases cells, 3
  {
    if cells == [] then [] else NodesBelow(cells[0].children) + CellsBelow(cells[1..])
  }

  function NodesBreaks(nodes: seq<Node>): nat
    decreases nodes, 1
  {
    if nodes == [] then 0 else NodeBreaks(nodes[0]) + NodesBreaks(nodes[1..])
  }

  function NodeBreaks(n: Node): nat
    decreases n, 0
  {
    match n
    case Heading(_, children) => NodesBreaks(children)
    case Paragraph(children) => NodesBreaks(children)
    case Table(rows) => RowsBreaks(rows)
    case PageBreak => 1
    case _ => 0
  }

  function RowsBreaks(rows: seq<Row>): nat
    decreases rows, 3
  {
    if rows == [] then 0 else CellsBreaks(rows[0].cells) + RowsBreaks(rows[1..])
  }

  function CellsBreaks(cells: seq<Cell>): nat
    decreases cells, 2
  {
    if cells == [] then 0 else NodesBreaks(cells[0].children) + CellsBreaks(cells[1..])
  }

  lemma {:induction false} WalkAppend(nodes: seq<Node>, n: Node)
    ensures NodesSlots(nodes + [n]) == NodesSlots(nodes) + NodeSlots(n)
    ensures NodesBreaks(nodes + [n]) == NodesBreaks(nodes) + NodeBreaks(n)
    ensures NodesBelow(nodes + [n]) == NodesBelow(nodes) + NodeBelow(n)
  {
    if nodes == [] {
      assert nodes + [n] == [n] && [n][1..] == [];
    } else {
      WalkAppend(nodes[1..], n);
      assert (nodes + [n])[1..] == nodes[1..] + [n];
    }
  }

  // ---------------------------------------------------------------- slots

  predicate OnPage(s: Slot) { s.x + s.width <= PAGE_WIDTH && s.y + s.height <= PAGE_HEIGHT }

  function Ids(slots: seq<Slot>): set<string> { set s | s in slots :: s.slotId }

  /** Slots met in this order after the ids already seen: none repeats one, none leaves the page. */
  predicate Fresh(seen: set<string>, slots: seq<Slot>)
    decreases slots
  {
    slots == [] || (slots[0].slotId !in seen && OnPage(slots[0]) && Fresh(seen + {slots[0].slotId}, slots[1..]))
  }

  lemma {:induction false} FreshConcat(seen: set<string>, a: seq<Slot>, b: seq<Slot>)
    ensures Fresh(seen, a + b) <==> Fresh(seen, a) && Fresh(seen + Ids(a), b)
    decreases a
  {
    if a == [] {
      assert a + b == b && seen + Ids(a) == seen;
    } else {
      assert (a + b)[1..] == a[1..] + b;
      assert a == [a[0]] + a[1..];
      assert seen + {a[0].slotId} + Ids(a[1..]) == seen + Ids(a);
      FreshConcat(seen + {a[0].slotId}, a[1..], b);
    }
  }

  lemma {:induction false} FreshMeans(seen: set<string>, slots: seq<Slot>)
    ensures Fresh(seen, slots) <==>
      DistinctSlots(slots) && (forall s | s in slots :: OnPage(s) && s.slotId !in seen)
    decreases slots
  {
    if slots != [] {
      var first, rest := slots[0], slots[1..];
      FreshMeans(seen + {first.slotId}, rest);
      assert slots == [first] + rest;
      if DistinctSlots(slots) {
        assert forall s | s in rest :: s.slotId != first.slotId;
      }
      if DistinctSlots(rest) && forall s | s in rest :: s.slotId != first.slotId {
        forall i, j | 0 <= i < j < |slots|
          ensures slots[i].slotId != slots[j].slotId
        {
          assert slots[j] == rest[j - 1] && rest[j - 1] in rest;
        }
      }
    }
  }

  // ---------------------------------------------------------------- requirement versions

  datatype RequirementType =
    | TextType | LongTextType | SingleSelectType | MultiSelectType | DateType | NumberType | FileType | ImageType

  datatype Definition = Definition(key: string, kind: RequirementType, required: bool)

  datatype VersionStatus = DraftVersion | PublishedVersion | DisabledVersion

  /** A requirement version a template names; its stored definition need not fit the schema. */
  datatype Source = Source(key: string, definition: Option<Definition>, status: VersionStatus, disabled: bool)

  type Definitions = map<string, Definition>

  predicate Uploaded(kind: RequirementType) { kind.FileType? || kind.ImageType? }

  predicate SourceOk(s: Source, publishing: bool) {
    && s.definition.Some? && s.definition.value.key == s.key
    && (publishing ==> s.status == PublishedVersion && !s.disabled)
  }

  ghost predicate DistinctSources(sources: seq<Source>) {
    forall i, j | 0 <= i < j < |sources| :: sources[i].key != sources[j].key
  }

  predicate IsAuthorization(s: Source) {
    s.key == AUTHORIZATION && s.definition.Some? && s.definition.value.required && s.definition.value.kind.FileType?
  }

  ghost predicate SourcesOk(sources: seq<Source>, publishing: bool) {
    && (forall s | s in sources :: SourceOk(s, publishing))
    && DistinctSources(sources)
    && exists s | s in sources :: IsAuthorization(s)
  }

  /** The definitions by key, a later one replacing an earlier one. */
  function DefinitionsOf(sources: seq<Source>): Definitions {
    if sources == [] then map[]
    else
      var front, last := DefinitionsOf(sources[..|sources| - 1]), sources[|sources| - 1];
      match last.definition
      case None => front
      case Some(d) => front[d.key := d]
  }

  /** A key is defined exactly when a source has it. */
  lemma {:induction false} DefinedKeys(sources: seq<Source>, publishing: bool, key: string)
    requires forall i | 0 <= i < |sources| :: SourceOk(sources[i], publishing)
    ensures key in DefinitionsOf(sources) <==> exists i | 0 <= i < |sources| :: sources[i].key == key
  {
    if sources != [] {
      var n := |sources| - 1;
      DefinedKeys(sources[..n], publishing, key);
      if i :| 0 <= i < n && sources[i].key == key {
        assert sources[..n][i].key == key;
      }
    }
  }

  /** With distinct keys each source is found under its own. */
  lemma {:induction false} DefinedAs(sources: seq<Source>, publishing: bool, i: nat)
    requires forall j | 0 <= j < |sources| :: SourceOk(sources[j], publishing)
    requires DistinctSources(sources) && i < |sources|
    ensures sources[i].key in DefinitionsOf(sources)
    ensures sources[i].definition == Some(DefinitionsOf(sources)[sources[i].key])
  {
    var n := |sources| - 1;
    if i < n {
      assert sources[..n][i] == sources[i];
      DefinedAs(sources[..n], publishing, i);
    }
  }

  // ---------------------------------------------------------------- nodes

  predicate VariableAllowed(definitions: Definitions, key: string) {
    && !("material." <= key)
    && (key in definitions || key in BUILTIN_VARIABLES)
    && (key in definitions ==> !Uploaded(definitions[key].kind))
  }

  predicate ColumnsAllowed(columns: seq<Column>) {
    forall c | c in columns :: c.variable in MATERIAL_VARIABLES
  }

  /** No page break, signature slot or loop table: all a header or footer may hold. */
  predicate Plain(n: Node) { !n.PageBreak? && !n.SignatureSlot? && !n.LoopTable? }

  predicate Allowed(definitions: Definitions, n: Node, body: bool) {
    (body || Plain(n)) &&
    match n
    case Variable(key) => VariableAllowed(definitions, key)
    case Image(source, _) => source in definitions && definitions[source].kind.ImageType?
    case LoopTable(columns) => ColumnsAllowed(columns)
    case _ => true
  }

  predicate AllAllowed(definitions: Definitions, nodes: seq<Node>, body: bool) {
    forall n | n in nodes :: Allowed(definitions, n, body)
  }

  predicate AllPlain(nodes: seq<Node>) { forall n | n in nodes :: Plain(n) }

  /** The keys of the defined fields that some variable or image shows. */
  function References(definitions: Definitions, nodes: seq<Node>): set<string> {
    set key | key in definitions.Keys && exists n | n in nodes :: Shows(n, key)
  }

  predicate Shows(n: Node, key: string) {
    match n case Variable(k) => k == key case Image(source, _) => source == key case _ => false
  }

  lemma One(definitions: Definitions, n: Node, body: bool)
    ensures AllAllowed(definitions, [n], body) <==> Allowed(definitions, n, body)
    ensures n.Variable? ==> References(definitions, [n]) == if n.key in definitions then {n.key} else {}
    ensures n.Image? ==> References(definitions, [n]) == if n.source in definitions then {n.source} else {}
    ensures !n.Variable? && !n.Image? ==> References(definitions, [n]) == {}
  {
    assert n in [n];
  }

  lemma WalkedOn(definitions: Definitions, a: seq<Node>, b: seq<Node>, body: bool)
    ensures References(definitions, a + b) == References(definitions, a) + References(definitions, b)
    ensures AllAllowed(definitions, a + b, body)
      <==> AllAllowed(definitions, a, body) && AllAllowed(definitions, b, body)
  {
    assert forall n :: n in a + b <==> n in a || n in b;
  }

  lemma SlotsWalkedOn(a: seq<Slot>, b: seq<Slot>)
    ensures Required(a + b) == Required(a) + Required(b) && Ids(a + b) == Ids(a) + Ids(b)
  {
    RequiredConcat(a, b);
    assert forall id :: id in Ids(a + b) <==> id in Ids(a) + Ids(b);
  }

  // ---------------------------------------------------------------- templates

  /** A required field other than the authorization letter and uploads has to be shown by the template. */
  predicate MustAppear(d: Definition) { d.required && d.key != AUTHORIZATION && !Uploaded(d.kind) }

  predicate MarginsFit(margins: Margins) {
    margins.left + margins.right < PAGE_WIDTH && margins.top + margins.bottom < PAGE_HEIGHT
  }

  /** Every node allowed where it stands, and the slots of the body distinct and inside the page. */
  ghost predicate NodesInPlace(definitions: Definitions, ast: Ast) {
    && AllAllowed(definitions, NodesBelow(ast.children), true)
    && AllAllowed(definitions, NodesBelow(ast.header), false)
    && AllAllowed(definitions, NodesBelow(ast.footer), false)
    && DistinctSlots(NodesSlots(ast.children))
    && forall s | s in NodesSlots(ast.children) :: OnPage(s)
  }

  function AllNodes(ast: Ast): seq<Node> {
    NodesBelow(ast.children) + NodesBelow(ast.header) + NodesBelow(ast.footer)
  }

  /** What the validator accepts as a structure, and for publication. */
  ghost predicate Accepted(ast: Ast, sources: seq<Source>, publishing: bool) {
    var definitions := DefinitionsOf(sources);
    && SourcesOk(sources, publishing) && MarginsFit(ast.margins) && NodesInPlace(definitions, ast)
    && (forall s | s in NodesSlots(ast.children) :: s.page <= 1 + NodesBreaks(ast.children))
    && (publishing ==>
          && Required(NodesSlots(ast.children)) != []
          && forall s | s in sources && MustAppear(s.definition.value) ::
               s.key in References(definitions, AllNodes(ast)))
  }

  /** What a published template promises about its slots. */
  ghost predicate Published(ast: Ast) {
    && AllPlain(NodesBelow(ast.header)) && AllPlain(NodesBelow(ast.footer))
    && DistinctSlots(NodesSlots(ast.children))
    && (forall s | s in NodesSlots(ast.children) :: OnPage(s) && s.page <= 1 + NodesBreaks(ast.children))
    && Required(NodesSlots(ast.children)) != []
  }

  lemma AcceptedIsPublished(ast: Ast, sources: seq<Source>)
    requires Accepted(ast, sources, true)
    ensures Published(ast) && Accepted(ast, sources, false)
  {
    assert forall s | s in sources :: SourceOk(s, true);
  }

  lemma {:induction false} PlainHasNoSlots(nodes: seq<Node>)
    ensures AllPlain(NodesBelow(nodes)) ==> NodesSlots(nodes) == [] && NodesBreaks(nodes) == 0
    decreases nodes, 1
  {
    if nodes != [] {
      PlainNode(nodes[0]);
      PlainHasNoSlots(nodes[1..]);
    }
  }

  lemma {:induction false} PlainNode(n: Node)
    ensures AllPlain(NodeBelow(n)) ==> NodeSlots(n) == [] && NodeBreaks(n) == 0
    decreases n, 0
  {
    assert n in NodeBelow(n) && forall m | m in Inside(n) :: m in NodeBelow(n);
    match n
    case Heading(_, children) => PlainHasNoSlots(children);
    case Paragraph(children) => PlainHasNoSlots(children);
    case Table(rows) => PlainRows(rows);
    case _ =>
  }

  lemma {:induction false} PlainRows(rows: seq<Row>)
    ensures AllPlain(RowsBelow(rows)) ==> RowsSlots(rows) == [] && RowsBreaks(rows) == 0
    decreases rows, 3
  {
    if rows != [] {
      PlainCells(rows[0].cells);
      PlainRows(rows[1..]);
    }
  }

  lemma {:induction false} PlainCells(cells: seq<Cell>)
    ensures AllPlain(CellsBelow(cells)) ==> CellsSlots(cells) == [] && CellsBreaks(cells) == 0
    decreases cells, 2
  {
    if cells != [] {
      PlainHasNoSlots(cells[0].children);
      PlainCells(cells[1..]);
    }
  }

  lemma AllowedIsPlain(definitions: Definitions, nodes: seq<Node>)
    requires AllAllowed(definitions, nodes, false)
    ensures AllPlain(nodes)
  {
  }
}
